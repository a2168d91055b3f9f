/** What the staking and difficulty rules read of a block: its header with the chain below it. */
module Headers {

  /** A 64-bit word, as the set of its one bits. */
  type Word = set<nat>

  /** A block with the chain below it; `NoIndex` is the null pointer. */
  datatype StakeIndex = NoIndex | StakeIndex(pprev: StakeIndex, hash: nat, nHeight: nat, nTime: nat, nBits: nat, hashProof: nat, fProofOfStake: bool,
                                             fEntropyBit: bool, nStakeModifier: Word, fGenerated: bool)

  /** `a` is below `b` on its chain; so is the null pointer. */
  ghost predicate Below(a: StakeIndex, b: StakeIndex) {
    b.StakeIndex? && (a == b.pprev || Below(a, b.pprev))
  }

  lemma {:induction false} BelowIsLess(a: StakeIndex, b: StakeIndex)
    requires Below(a, b)
    ensures a < b && a != b
  {
    if a != b.pprev {
      BelowIsLess(a, b.pprev);
    }
  }

  lemma {:induction false} BelowBelow(a: StakeIndex, b: StakeIndex, c: StakeIndex)
    requires Below(a, b) && Below(b, c)
    ensures Below(a, c)
  {
    if b != c.pprev {
      BelowBelow(a, b, c.pprev);
    }
  }

  lemma NothingBetween(b: StakeIndex)
    ensures forall c | c == b || Below(c, b) :: !Below(b, c)
  {
    forall c | (c == b || Below(c, b)) && Below(b, c) ensures false {
      BelowIsLess(b, c);
      if c != b {
        BelowIsLess(c, b);
      }
    }
  }
}
