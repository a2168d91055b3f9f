/** The stake modifier: picking the blocks that give its bits, and which blocks compute a new
    one. */
module Kernel {
  import opened Arithmetic
  import opened Headers
  import opened BlockTimes

  const nModifierInterval: nat := 30 * 60
  const MODIFIER_INTERVAL_RATIO: nat := 3

  /** The blocks the node knows by their hashes, and the selection hash. */
  datatype World = World(mapBlockIndex: map<nat, StakeIndex>, selectionHash: (nat, Word) -> nat)

  // ----- the last modifier

  function LastGenerator(b: StakeIndex): (g: StakeIndex)
    ensures g.StakeIndex? <==> b.StakeIndex?
  {
    if b.NoIndex? || b.pprev.NoIndex? || b.fGenerated then b else LastGenerator(b.pprev)
  }

  /** `g` is the block nearest to `b`, itself included, that computed a modifier, or else the root. */
  ghost predicate NearestGenerator(b: StakeIndex, g: StakeIndex) {
    && g.StakeIndex? && (g == b || Below(g, b)) && (g.fGenerated || g.pprev.NoIndex?)
    && (forall c: StakeIndex | (c == b || Below(c, b)) && Below(g, c) :: !c.fGenerated)
  }

  lemma {:induction false} LastGeneratorIs(b: StakeIndex, g: StakeIndex)
    requires b.StakeIndex?
    ensures g == LastGenerator(b) <==> NearestGenerator(b, g)
  {
    NothingBetween(b);
    if b.pprev.StakeIndex? && !b.fGenerated {
      LastGeneratorIs(b.pprev, g);
      assert Below(b.pprev, b);
    } else {
      assert b.pprev.NoIndex? ==> !Below(g, b.pprev);
      assert b.fGenerated && Below(g, b) ==> !NearestGenerator(b, g);
    }
  }

  method GetLastStakeModifier(b: StakeIndex) returns (ok: bool, nStakeModifier: Word, nModifierTime: nat)
    ensures ok <==> b.StakeIndex? && LastGenerator(b).fGenerated
    ensures ok ==> nStakeModifier == LastGenerator(b).nStakeModifier && nModifierTime == LastGenerator(b).nTime
    ensures forall g: StakeIndex | NearestGenerator(b, g) :: ok == g.fGenerated && (ok ==> nStakeModifier == g.nStakeModifier && nModifierTime == g.nTime)
  {
    nStakeModifier, nModifierTime := {}, 0;
    if b.NoIndex? {
      return false, {}, 0;
    }
    var pindex := b;
    while pindex.StakeIndex? && pindex.pprev.StakeIndex? && !pindex.fGenerated
      invariant pindex.StakeIndex? && LastGenerator(pindex) == LastGenerator(b)
      decreases pindex
    {
      pindex := pindex.pprev;
    }
    forall g: StakeIndex | NearestGenerator(b, g) ensures g == pindex {
      LastGeneratorIs(b, g);
    }
    if !pindex.fGenerated {
      return false, {}, 0;
    }
    return true, pindex.nStakeModifier, pindex.nTime;
  }

  // ----- the selection intervals

  function Section(nSection: nat): nat
    requires nSection < 64
  {
    nModifierInterval * 63 / (63 + (63 - nSection) * (MODIFIER_INTERVAL_RATIO - 1))
  }

  function Sections(n: nat): nat
    requires n <= 64
  {
    if n == 0 then 0 else Sections(n - 1) + Section(n - 1)
  }

  method GetStakeModifierSelectionInterval() returns (nSelectionInterval: nat)
    ensures nSelectionInterval == Sections(64)
  {
    nSelectionInterval := 0;
    for nSection := 0 to 64
      invariant nSelectionInterval == Sections(nSection)
    {
      nSelectionInterval := nSelectionInterval + Section(nSection);
    }
  }

  /** The sections grow from a third of the modifier interval to the whole of it. */
  lemma SectionsGrow(m: nat, n: nat)
    requires m <= n < 64
    ensures 0 < Section(m) <= Section(n) <= Section(63) == nModifierInterval
    ensures Section(0) * MODIFIER_INTERVAL_RATIO == nModifierInterval
  {
    var a, b := 63 + (63 - m) * 2, 63 + (63 - n) * 2;
    Shrinks(nModifierInterval * 63, a, b);
    Shrinks(nModifierInterval * 63, b, 63);
  }

  lemma Shrinks(x: nat, a: nat, b: nat)
    requires 0 < b <= a <= x
    ensures 0 < x / a <= x / b
  {
    QuotientAtLeast(x, a, 1);
    QuotientBounds(x, a);
    Scale(b, a, x / a);
    QuotientAtLeast(x, b, x / a);
  }

  // ----- one round

  type Stamp = (nat, nat)

  /** Every candidate is a known block with its own hash and time. */
  ghost predicate Known(w: World, c: seq<Stamp>) {
    forall i | 0 <= i < |c| :: c[i].1 in w.mapBlockIndex && var b := w.mapBlockIndex[c[i].1]; b.StakeIndex? && b.nTime == c[i].0 && b.hash == c[i].1
  }

  predicate Before(a: Stamp, b: Stamp) {
    a.0 < b.0 || (a.0 == b.0 && a.1 <= b.1)
  }

  ghost predicate SortedStamps(c: seq<Stamp>) {
    forall i, j | 0 <= i < j < |c| :: Before(c[i], c[j])
  }

  function Selection(w: World, b: StakeIndex, nStakeModifierPrev: Word): nat
    requires b.StakeIndex?
  {
    var h := w.selectionHash(b.hashProof, nStakeModifierPrev);
    if b.fProofOfStake then h / 0x1_0000_0000 else h
  }

  /** A stake block is favoured by 32 bits: its number is that of the first 224 bits of its hash. */
  lemma StakeFavoured(w: World, b: StakeIndex, prev: Word)
    requires b.StakeIndex?
    ensures var h, v := w.selectionHash(b.hashProof, prev), Selection(w, b, prev);
            if b.fProofOfStake then v * 0x1_0000_0000 <= h < (v + 1) * 0x1_0000_0000 else v == h
  {
    QuotientBounds(w.selectionHash(b.hashProof, prev), 0x1_0000_0000);
  }

  ghost predicate Qualifies(c: seq<Stamp>, taken: set<nat>, stop: int, i: nat) {
    i < |c| && c[i].1 !in taken && c[i].0 <= stop
  }

  /** Candidate `k` is the pick of a round: the one with the least selection hash of those that
      qualify, the first of these if there are several; or, when none qualifies, the earliest
      that was not taken before. */
  ghost predicate Picks(w: World, c: seq<Stamp>, taken: set<nat>, stop: int, prev: Word, k: nat)
    requires Known(w, c)
  {
    && k < |c| && c[k].1 !in taken
    && (if exists i: nat :: Qualifies(c, taken, stop, i) then
          && Qualifies(c, taken, stop, k)
          && forall i: nat | Qualifies(c, taken, stop, i) ::
               var (sk, si) := (Selection(w, w.mapBlockIndex[c[k].1], prev), Selection(w, w.mapBlockIndex[c[i].1], prev));
               sk <= si && (i < k ==> sk < si)
        else forall i | 0 <= i < k :: c[i].1 in taken)
  }

  method SelectBlockFromCandidates(w: World, vSortedByTimestamp: seq<Stamp>, mapSelectedBlocks: set<nat>, nSelectionIntervalStop: int,
                                   nStakeModifierPrev: Word)
    returns (fSelected: bool, pindexSelected: StakeIndex, ghost pick: nat)
    requires Known(w, vSortedByTimestamp) && SortedStamps(vSortedByTimestamp)
    ensures fSelected <==> exists i :: 0 <= i < |vSortedByTimestamp| && vSortedByTimestamp[i].1 !in mapSelectedBlocks
    ensures fSelected ==> Picks(w, vSortedByTimestamp, mapSelectedBlocks, nSelectionIntervalStop, nStakeModifierPrev, pick)
    ensures fSelected ==> pindexSelected == w.mapBlockIndex[vSortedByTimestamp[pick].1]
  {
    fSelected, pindexSelected, pick := false, NoIndex, 0;
    var hashBest := 0;
    var i := 0;
    while i < |vSortedByTimestamp|
      invariant i <= |vSortedByTimestamp|
      invariant !fSelected ==> forall j | 0 <= j < i :: vSortedByTimestamp[j].1 in mapSelectedBlocks
      invariant fSelected ==> BestSoFar(w, vSortedByTimestamp, mapSelectedBlocks, nSelectionIntervalStop, nStakeModifierPrev, i, pick)
      invariant fSelected ==> pindexSelected == w.mapBlockIndex[vSortedByTimestamp[pick].1]
      invariant fSelected ==> hashBest == Selection(w, pindexSelected, nStakeModifierPrev)
    {
      var item := vSortedByTimestamp[i];
      var pindex := w.mapBlockIndex[item.1];
      if fSelected && pindex.nTime > nSelectionIntervalStop {
        break;
      }
      if pindex.hash in mapSelectedBlocks {
        i := i + 1;
        continue;
      }
      var hashSelection := w.selectionHash(pindex.hashProof, nStakeModifierPrev);
      if pindex.fProofOfStake {
        hashSelection := hashSelection / 0x1_0000_0000;
      }
      if fSelected && hashSelection < hashBest {
        hashBest := hashSelection;
        pindexSelected, pick := pindex, i;
      } else if !fSelected {
        fSelected := true;
        hashBest := hashSelection;
        pindexSelected, pick := pindex, i;
      }
      i := i + 1;
    }
    if fSelected {
      PickIsBest(w, vSortedByTimestamp, mapSelectedBlocks, nSelectionIntervalStop, nStakeModifierPrev, i, pick);
    }
  }

  /** What the loop knows after `n` candidates: the pick is the best of the qualified among
      them, or the first not taken, and nothing later than the stop came after it. */
  ghost predicate BestSoFar(w: World, c: seq<Stamp>, taken: set<nat>, stop: int, prev: Word, n: nat, k: nat)
    requires Known(w, c)
  {
    && k < n <= |c| && c[k].1 !in taken
    && (forall i | 0 <= i < n && c[i].1 !in taken ::
          var (sk, si) := (Selection(w, w.mapBlockIndex[c[k].1], prev), Selection(w, w.mapBlockIndex[c[i].1], prev));
          sk <= si && (i < k ==> sk < si))
    && (c[k].0 > stop ==> forall i | 0 <= i < k :: c[i].1 in taken)
  }

  lemma PickIsBest(w: World, c: seq<Stamp>, taken: set<nat>, stop: int, prev: Word, n: nat, k: nat)
    requires Known(w, c) && SortedStamps(c) && BestSoFar(w, c, taken, stop, prev, n, k)
    requires n == |c| || c[n].0 > stop
    ensures Picks(w, c, taken, stop, prev, k)
  {
    AllLater(c, stop, n);
    if c[k].0 > stop {
      AllLater(c, stop, k);
    } else {
      assert Qualifies(c, taken, stop, k);
    }
  }

  lemma AllLater(c: seq<Stamp>, stop: int, n: nat)
    requires SortedStamps(c) && n <= |c| && (n < |c| ==> c[n].0 > stop)
    ensures forall i | n <= i < |c| :: c[i].0 > stop
  {
    forall i | n <= i < |c| ensures c[i].0 > stop {
      assert n < i ==> Before(c[n], c[i]);
    }
  }

  // ----- all rounds

  /** The chain from `b` down, as long as its times do not fall below `start`. */
  function CandidatesFrom(b: StakeIndex, start: int): seq<Stamp> {
    if b.NoIndex? || b.nTime < start then [] else CandidatesFrom(b.pprev, start) + [(b.nTime, b.hash)]
  }

  /** `a` is `prev` or below it, and no block from it up to `prev` is earlier than `start`. */
  ghost predicate InInterval(prev: StakeIndex, start: int, a: StakeIndex) {
    && a.StakeIndex? && (a == prev || Below(a, prev)) && a.nTime >= start
    && forall c: StakeIndex | (c == prev || Below(c, prev)) && Below(a, c) :: c.nTime >= start
  }

  /** The candidates are exactly the blocks of the chain down to the first that is too early. */
  lemma {:induction false} CandidatesAre(prev: StakeIndex, start: int, s: Stamp)
    ensures s in CandidatesFrom(prev, start) <==> exists a: StakeIndex :: InInterval(prev, start, a) && s == (a.nTime, a.hash)
  {
    if prev.StakeIndex? {
      NothingBetween(prev);
      if prev.nTime >= start {
        CandidatesAre(prev.pprev, start, s);
        assert InInterval(prev, start, prev);
        forall a: StakeIndex ensures InInterval(prev, start, a) <==> a == prev || InInterval(prev.pprev, start, a) {
          assert prev.pprev.StakeIndex? ==> Below(prev.pprev, prev);
        }
      } else {
        forall a: StakeIndex ensures !InInterval(prev, start, a) {
        }
      }
    }
  }

  /** The node knows the blocks of the chain by their hashes. */
  ghost predicate KnownTo(w: World, b: StakeIndex) {
    b.StakeIndex? ==> b.hash in w.mapBlockIndex && w.mapBlockIndex[b.hash] == b && KnownTo(w, b.pprev)
  }

  /** No two candidates have the same hash. */
  ghost predicate Unique(c: seq<Stamp>) {
    forall i, j | 0 <= i < j < |c| :: c[i].1 != c[j].1
  }

  lemma {:induction false} ChainKnown(w: World, b: StakeIndex, start: int)
    requires KnownTo(w, b)
    ensures Known(w, CandidatesFrom(b, start)) && Unique(CandidatesFrom(b, start))
    ensures forall s | s in CandidatesFrom(b, start) :: w.mapBlockIndex[s.1] == b || w.mapBlockIndex[s.1] < b
  {
    if b.StakeIndex? && b.nTime >= start {
      ChainKnown(w, b.pprev, start);
      var rest := CandidatesFrom(b.pprev, start);
      forall i | 0 <= i < |rest| ensures rest[i].1 != b.hash {
        assert rest[i] in rest;
        assert !(b < b) && !(b == b.pprev);
      }
    }
  }

  /** Insert at its place. */
  function Insert(c: seq<Stamp>, s: Stamp): seq<Stamp> {
    if c == [] || Before(c[|c| - 1], s) then c + [s] else Insert(c[..|c| - 1], s) + [c[|c| - 1]]
  }

  lemma {:induction false} InsertSorts(c: seq<Stamp>, s: Stamp)
    requires SortedStamps(c)
    ensures SortedStamps(Insert(c, s)) && multiset(Insert(c, s)) == multiset(c) + multiset{s}
    ensures forall x :: x in Insert(c, s) <==> x in c || x == s
  {
    if c != [] {
      var k := |c| - 1;
      assert c == c[..k] + [c[k]];
      if !Before(c[k], s) {
        InsertSorts(c[..k], s);
        forall i | 0 <= i < |Insert(c[..k], s)| ensures Before(Insert(c[..k], s)[i], c[k]) {
          assert Insert(c[..k], s)[i] in Insert(c[..k], s);
        }
      } else {
        forall i | 0 <= i < |c| ensures Before(c[i], s) {
          assert i < k ==> Before(c[i], c[k]);
        }
      }
    }
  }

  lemma {:induction false} InsertUnique(c: seq<Stamp>, s: Stamp)
    requires SortedStamps(c) && Unique(c) && forall x | x in c :: x.1 != s.1
    ensures Unique(Insert(c, s))
  {
    if c != [] {
      var k := |c| - 1;
      InsertUnique(c[..k], s);
      InsertSorts(c[..k], s);
      forall i | 0 <= i < |Insert(c[..k], s)| ensures Insert(c[..k], s)[i].1 != c[k].1 {
        assert Insert(c[..k], s)[i] in Insert(c[..k], s);
      }
    }
  }

  method Sort(c: seq<Stamp>) returns (d: seq<Stamp>)
    requires Unique(c)
    ensures SortedStamps(d) && Unique(d) && multiset(d) == multiset(c)
  {
    d := [];
    for i := 0 to |c|
      invariant SortedStamps(d) && Unique(d) && multiset(d) == multiset(c[..i])
      invariant forall x :: x in d <==> x in c[..i]
    {
      InsertSorts(d, c[i]);
      InsertUnique(d, c[i]);
      d := Insert(d, c[i]);
      assert c[..i + 1] == c[..i] + [c[i]];
    }
    assert c[..|c|] == c;
  }

  function Taken(c: seq<Stamp>, picks: seq<nat>): set<nat> {
    set k | k in picks && k < |c| :: c[k].1
  }

  /** Round `r` picks from what the rounds before left, up to a stop that moves by one section
      a round. */
  ghost predicate RoundOk(w: World, c: seq<Stamp>, start: int, prev: Word, picks: seq<nat>, r: nat)
    requires Known(w, c) && r < |picks| <= 64
  {
    Picks(w, c, Taken(c, picks[..r]), start + Sections(r + 1), prev, picks[r])
  }

  ghost predicate Rounds(w: World, c: seq<Stamp>, start: int, prev: Word, picks: seq<nat>)
    requires Known(w, c)
  {
    |picks| <= 64 && forall r | 0 <= r < |picks| :: RoundOk(w, c, start, prev, picks, r)
  }

  lemma PicksDistinct(w: World, c: seq<Stamp>, start: int, prev: Word, picks: seq<nat>, q: nat, r: nat)
    requires Known(w, c) && Rounds(w, c, start, prev, picks) && q < r < |picks|
    ensures picks[q] < |c| && picks[r] < |c| && c[picks[q]].1 != c[picks[r]].1
  {
    assert RoundOk(w, c, start, prev, picks, q) && RoundOk(w, c, start, prev, picks, r);
    assert picks[..r][q] == picks[q];
    assert c[picks[q]].1 in Taken(c, picks[..r]);
  }

  // ----- every round finds a block

  function HashSet(c: seq<Stamp>): set<nat> {
    set s | s in c :: s.1
  }

  lemma {:induction false} HashSetSize(c: seq<Stamp>)
    requires Unique(c)
    ensures |HashSet(c)| == |c|
  {
    if c != [] {
      var k := |c| - 1;
      HashSetSize(c[..k]);
      assert c == c[..k] + [c[k]];
      assert HashSet(c) == HashSet(c[..k]) + {c[k].1};
    }
  }

  lemma {:induction false} TakenSize(c: seq<Stamp>, picks: seq<nat>)
    ensures |Taken(c, picks)| <= |picks|
  {
    if picks != [] {
      var k := |picks| - 1;
      TakenSize(c, picks[..k]);
      TakenNext(c, picks[..k], picks[k]);
      assert picks == picks[..k] + [picks[k]];
    }
  }

  lemma TakenNext(c: seq<Stamp>, picks: seq<nat>, k: nat)
    ensures Taken(c, picks + [k]) == Taken(c, picks) + if k < |c| then {c[k].1} else {}
  {
    assert forall i :: i in picks + [k] <==> i in picks || i == k;
  }

  lemma SomeLeft(c: seq<Stamp>, picks: seq<nat>)
    requires Unique(c) && |picks| < |c|
    ensures exists i :: 0 <= i < |c| && c[i].1 !in Taken(c, picks)
  {
    HashSetSize(c);
    TakenSize(c, picks);
    if forall i | 0 <= i < |c| :: c[i].1 in Taken(c, picks) {
      assert HashSet(c) <= Taken(c, picks);
      SubsetSize(HashSet(c), Taken(c, picks));
    }
  }

  lemma {:induction false} SubsetSize(a: set<nat>, b: set<nat>)
    requires a <= b
    ensures |a| <= |b|
  {
    if a != {} {
      var x :| x in a;
      SubsetSize(a - {x}, b - {x});
    }
  }

  // ----- the next modifier

  function Window(nTime: nat): nat {
    nTime / nModifierInterval
  }

  function IntervalStart(prev: StakeIndex): int
    requires prev.StakeIndex?
  {
    Window(prev.nTime) * nModifierInterval - Sections(64)
  }

  /** The block after `prev` computes a new modifier. */
  predicate Regenerates(prev: StakeIndex) {
    prev.NoIndex? || Window(LastGenerator(prev).nTime) < Window(prev.nTime)
  }

  function Bits(w: World, c: seq<Stamp>, picks: seq<nat>): Word {
    set r | 0 <= r < |picks| && picks[r] < |c| && c[picks[r]].1 in w.mapBlockIndex &&
            w.mapBlockIndex[c[picks[r]].1].StakeIndex? && w.mapBlockIndex[c[picks[r]].1].fEntropyBit
  }

  /** The stamps are those of the blocks in the interval. */
  ghost predicate Lists(prev: StakeIndex, start: int, c: seq<Stamp>) {
    forall s :: s in c <==> exists a: StakeIndex :: InInterval(prev, start, a) && s == (a.nTime, a.hash)
  }

  /** The modifier has the entropy bits of up to 64 different blocks, picked in rounds from the
      blocks of the selection interval in order of their times. */
  ghost predicate NewModifier(w: World, prev: StakeIndex, c: seq<Stamp>, picks: seq<nat>, modifier: Word) {
    && prev.StakeIndex? && Known(w, c) && SortedStamps(c) && Unique(c)
    && Lists(prev, IntervalStart(prev), c)
    && |picks| == (if |c| < 64 then |c| else 64)
    && Rounds(w, c, IntervalStart(prev), LastGenerator(prev).nStakeModifier, picks)
    && modifier == Bits(w, c, picks)
  }

  method CollectCandidates(pindexPrev: StakeIndex, nSelectionIntervalStart: int) returns (vCandidates: seq<Stamp>)
    ensures vCandidates == CandidatesFrom(pindexPrev, nSelectionIntervalStart)
  {
    vCandidates := [];
    var pindex := pindexPrev;
    while pindex.StakeIndex? && pindex.nTime >= nSelectionIntervalStart
      invariant CandidatesFrom(pindex, nSelectionIntervalStart) + vCandidates == CandidatesFrom(pindexPrev, nSelectionIntervalStart)
      decreases pindex
    {
      assert CandidatesFrom(pindex.pprev, nSelectionIntervalStart) + ([(pindex.nTime, pindex.hash)] + vCandidates) ==
             CandidatesFrom(pindex, nSelectionIntervalStart) + vCandidates;
      vCandidates := [(pindex.nTime, pindex.hash)] + vCandidates;
      pindex := pindex.pprev;
    }
  }

  lemma RoundsNext(w: World, c: seq<Stamp>, start: int, prev: Word, picks: seq<nat>, k: nat)
    requires Known(w, c) && Rounds(w, c, start, prev, picks) && |picks| < 64
    requires Picks(w, c, Taken(c, picks), start + Sections(|picks| + 1), prev, k)
    requires k < |c| && c[k].1 in w.mapBlockIndex && w.mapBlockIndex[c[k].1].StakeIndex?
    ensures Rounds(w, c, start, prev, picks + [k])
    ensures Bits(w, c, picks + [k]) == Bits(w, c, picks) + if w.mapBlockIndex[c[k].1].fEntropyBit then {|picks|} else {}
  {
    hide Picks, Sections, Known, Bits;
    var more := picks + [k];
    BitsNext(w, c, picks, k);
    assert more[..|picks|] == picks;
    forall r | 0 <= r < |picks| ensures RoundOk(w, c, start, prev, more, r) {
      assert RoundOk(w, c, start, prev, picks, r);
      assert more[..r] == picks[..r];
    }
  }

  lemma BitsNext(w: World, c: seq<Stamp>, picks: seq<nat>, k: nat)
    requires k < |c| && c[k].1 in w.mapBlockIndex && w.mapBlockIndex[c[k].1].StakeIndex?
    ensures Bits(w, c, picks + [k]) == Bits(w, c, picks) + if w.mapBlockIndex[c[k].1].fEntropyBit then {|picks|} else {}
  {
  }

  method PickRounds(w: World, c: seq<Stamp>, start: int, prev: Word) returns (ok: bool, modifier: Word, ghost picks: seq<nat>)
    requires Known(w, c) && SortedStamps(c) && Unique(c)
    ensures ok && |picks| == (if |c| < 64 then |c| else 64) && Rounds(w, c, start, prev, picks) && modifier == Bits(w, c, picks)
  {
    hide Known, SortedStamps, Unique, Picks, Bits;
    ok, modifier, picks := true, {}, [];
    var nSelectionIntervalStop := start;
    var mapSelectedBlocks: set<nat> := {};
    NoBits(w, c);
    for nRound := 0 to (if |c| < 64 then |c| else 64)
      invariant ok && |picks| == nRound && Rounds(w, c, start, prev, picks) && modifier == Bits(w, c, picks)
      invariant mapSelectedBlocks == Taken(c, picks) && nSelectionIntervalStop == start + Sections(nRound)
    {
      nSelectionIntervalStop := nSelectionIntervalStop + Section(nRound);
      var pindex;
      ghost var k;
      SomeLeft(c, picks);
      ok, pindex, k := SelectBlockFromCandidates(w, c, mapSelectedBlocks, nSelectionIntervalStop, prev);
      if !ok {
        return;
      }
      PickKnown(w, c, Taken(c, picks), nSelectionIntervalStop, prev, k);
      RoundsNext(w, c, start, prev, picks, k);
      TakenNext(c, picks, k);
      modifier := modifier + if pindex.fEntropyBit then {nRound} else {};
      mapSelectedBlocks := mapSelectedBlocks + {pindex.hash};
      picks := picks + [k];
    }
  }

  lemma NoBits(w: World, c: seq<Stamp>)
    requires Known(w, c)
    ensures Bits(w, c, []) == {} && Taken(c, []) == {}
  {
  }

  lemma PickKnown(w: World, c: seq<Stamp>, taken: set<nat>, stop: int, prev: Word, k: nat)
    requires Known(w, c) && Picks(w, c, taken, stop, prev, k)
    ensures k < |c| && c[k].1 in w.mapBlockIndex && w.mapBlockIndex[c[k].1].StakeIndex? && w.mapBlockIndex[c[k].1].hash == c[k].1
  {
  }

  method ComputeNextStakeModifier(w: World, pindexPrev: StakeIndex)
    returns (ok: bool, nStakeModifier: Word, fGeneratedStakeModifier: bool, ghost c: seq<Stamp>, ghost picks: seq<nat>)
    requires KnownTo(w, pindexPrev)
    ensures ok <==> pindexPrev.NoIndex? || LastGenerator(pindexPrev).fGenerated
    ensures ok ==> (fGeneratedStakeModifier <==> Regenerates(pindexPrev))
    ensures ok && pindexPrev.NoIndex? ==> nStakeModifier == {}
    ensures ok && !fGeneratedStakeModifier ==> nStakeModifier == LastGenerator(pindexPrev).nStakeModifier
    ensures ok && fGeneratedStakeModifier && pindexPrev.StakeIndex? ==> NewModifier(w, pindexPrev, c, picks, nStakeModifier) && picks != []
  {
    hide Known, SortedStamps, Unique, Rounds, Bits, Sections, CandidatesFrom, KnownTo, InInterval, Lists;
    nStakeModifier, fGeneratedStakeModifier, c, picks := {}, false, [], [];
    if pindexPrev.NoIndex? {
      return true, {}, true, c, picks;
    }
    var nModifierTime;
    ok, nStakeModifier, nModifierTime := GetLastStakeModifier(pindexPrev);
    if !ok || nModifierTime / nModifierInterval >= pindexPrev.nTime / nModifierInterval {
      return;
    }
    var nSelectionInterval := GetStakeModifierSelectionInterval();
    var nSelectionIntervalStart := pindexPrev.nTime / nModifierInterval * nModifierInterval - nSelectionInterval;
    var vCandidates := CollectCandidates(pindexPrev, nSelectionIntervalStart);
    ChainKnown(w, pindexPrev, nSelectionIntervalStart);
    var vSortedByTimestamp := Sort(vCandidates);
    StillKnown(w, vCandidates, vSortedByTimestamp);
    c := vSortedByTimestamp;
    ListsAll(pindexPrev, nSelectionIntervalStart, vCandidates, c);
    ok, nStakeModifier, picks := PickRounds(w, vSortedByTimestamp, nSelectionIntervalStart, nStakeModifier);
    fGeneratedStakeModifier := true;
  }

  lemma ListsAll(prev: StakeIndex, start: int, c: seq<Stamp>, d: seq<Stamp>)
    requires prev.StakeIndex? && prev.nTime >= start && c == CandidatesFrom(prev, start) && multiset(d) == multiset(c)
    ensures Lists(prev, start, d) && d != []
  {
    forall s ensures s in d <==> exists a: StakeIndex :: InInterval(prev, start, a) && s == (a.nTime, a.hash) {
      CandidatesAre(prev, start, s);
      assert s in d <==> s in multiset(d);
      assert s in c <==> s in multiset(c);
    }
    assert c[|c| - 1] in multiset(d);
  }

  lemma StillKnown(w: World, c: seq<Stamp>, d: seq<Stamp>)
    requires Known(w, c) && multiset(d) == multiset(c)
    ensures Known(w, d)
  {
    forall i | 0 <= i < |d| ensures exists j :: 0 <= j < |c| && c[j] == d[i] {
      assert d[i] in multiset(d);
    }
  }

  /** The last of the 64 rounds stops where the window of the last block begins. */
  lemma StopsAtBoundary(prev: StakeIndex, m: nat, n: nat)
    requires prev.StakeIndex? && m < n <= 64
    ensures IntervalStart(prev) + Sections(64) == Window(prev.nTime) * nModifierInterval
    ensures Sections(m) < Sections(n)
  {
    hide Section, Window;
    SectionsGrow(n - 1, n - 1);
    if m < n - 1 {
      StopsAtBoundary(prev, m, n - 1);
    }
  }

  // ----- which blocks have new modifiers

  /** The block has the modifier that ComputeNextStakeModifier gave for the chain below it. */
  ghost predicate Stamped(b: StakeIndex)
    requires b.StakeIndex?
  {
    && (b.fGenerated <==> Regenerates(b.pprev))
    && (!b.fGenerated ==> b.nStakeModifier == LastGenerator(b.pprev).nStakeModifier)
  }

  ghost predicate StampedTo(b: StakeIndex) {
    b.StakeIndex? ==> StampedTo(b.pprev) && Stamped(b)
  }

  ghost predicate Generator(a: StakeIndex) {
    a.StakeIndex? && a.fGenerated
  }

  /** Down from `b`, every block that computed a modifier lies in a later window than all such
      blocks below it. */
  ghost predicate WindowsRiseTo(b: StakeIndex) {
    b.StakeIndex? ==>
      && WindowsRiseTo(b.pprev)
      && (b.fGenerated ==> forall a | Below(a, b) && Generator(a) :: Window(a.nTime) < Window(b.nTime))
  }

  /** Down from `b`, no two blocks that computed a modifier lie in the same window. */
  ghost predicate WindowsDifferTo(b: StakeIndex) {
    b.StakeIndex? ==>
      && WindowsDifferTo(b.pprev)
      && (b.fGenerated ==> forall a | Below(a, b) && Generator(a) :: Window(a.nTime) != Window(b.nTime))
  }

  /** The time of a block that computes a modifier is past the window of the last one. */
  predicate PastLastWindow(b: StakeIndex)
    requires b.StakeIndex?
  {
    b.fGenerated && b.pprev.StakeIndex? ==> (Window(LastGenerator(b.pprev).nTime) + 1) * nModifierInterval <= b.nTime
  }

  ghost predicate PastLastWindowTo(b: StakeIndex) {
    b.StakeIndex? ==> PastLastWindowTo(b.pprev) && PastLastWindow(b)
  }

  lemma WindowEnd(s: nat, t: nat)
    ensures (Window(s) + 1) * nModifierInterval <= t <==> Window(s) < Window(t)
  {
  }

  lemma {:induction false} LastGeneratorBelow(b: StakeIndex)
    requires b.StakeIndex? && StampedTo(b)
    ensures Generator(LastGenerator(b)) && (LastGenerator(b) == b || Below(LastGenerator(b), b))
  {
    assert Stamped(b);
    if b.pprev.StakeIndex? && !b.fGenerated {
      LastGeneratorBelow(b.pprev);
    }
  }

  /** Where windows rise, the last block that computed a modifier has the latest window. */
  lemma {:induction false} LastIsLatest(a: StakeIndex, b: StakeIndex)
    requires Generator(a) && (a == b || Below(a, b)) && WindowsRiseTo(b) && StampedTo(b)
    ensures Window(a.nTime) <= Window(LastGenerator(b).nTime)
  {
    if a != b {
      if !b.fGenerated {
        LastIsLatest(a, b.pprev);
      } else {
        assert LastGenerator(b) == b;
      }
    }
  }

  /** The windows of the blocks that computed modifiers rise along a chain exactly when each of
      these blocks is past the window of the last one before it. */
  lemma {:induction false} OnePerWindow(b: StakeIndex)
    requires StampedTo(b)
    ensures WindowsRiseTo(b) <==> PastLastWindowTo(b)
  {
    if b.StakeIndex? {
      OnePerWindow(b.pprev);
      if b.pprev.NoIndex? {
        assert forall a | Below(a, b) :: a == NoIndex;
      } else if b.fGenerated && PastLastWindowTo(b.pprev) {
        LastGeneratorBelow(b.pprev);
        WindowEnd(LastGenerator(b.pprev).nTime, b.nTime);
        if PastLastWindow(b) {
          forall a | Below(a, b) && Generator(a) ensures Window(a.nTime) < Window(b.nTime) {
            LastIsLatest(a, b.pprev);
          }
        }
      }
    }
  }

  ghost predicate TimesRiseTo(b: StakeIndex) {
    b.StakeIndex? && b.pprev.StakeIndex? ==> b.pprev.nTime <= b.nTime && TimesRiseTo(b.pprev)
  }

  /** When block times never fall, the condition holds. */
  lemma {:induction false} RisingTimes(b: StakeIndex)
    requires StampedTo(b) && TimesRiseTo(b)
    ensures PastLastWindowTo(b) && WindowsRiseTo(b)
  {
    if b.StakeIndex? {
      RisingTimes(b.pprev);
      if b.pprev.StakeIndex? && b.fGenerated {
        WindowEnd(LastGenerator(b.pprev).nTime, b.pprev.nTime);
      }
      OnePerWindow(b);
    }
  }

  // ----- with the times that AcceptBlock takes

  /** A modifier is never computed in an earlier window than the last one: a block falls back by
      less than a window behind the block before it. */
  lemma NeverEarlier(p: TimeRules, b: StakeIndex)
    requires b.StakeIndex? && b.pprev.StakeIndex? && TimeAccepted(p, b) && Stamped(b) && b.fGenerated
    ensures Window(LastGenerator(b.pprev).nTime) <= Window(b.nTime)
    ensures !p.IsProtocolV1(b.pprev.nHeight) ==> PastLastWindow(b)
  {
    var last := LastGenerator(b.pprev).nTime;
    WindowEnd(last, b.pprev.nTime);
    WindowEnd(last, b.nTime);
    assert Window(last) * nModifierInterval <= b.pprev.nTime - nModifierInterval;
    FromStart(Window(last), b.nTime);
  }

  lemma FromStart(k: nat, t: nat)
    requires k * nModifierInterval <= t
    ensures k <= Window(t)
  {
  }

  /** So on accepted chains the same condition is exact for the windows to differ. */
  lemma {:induction false} WindowsDiffer(p: TimeRules, b: StakeIndex)
    requires StampedTo(b) && TimesAcceptedTo(p, b)
    ensures WindowsDifferTo(b) <==> PastLastWindowTo(b)
  {
    OnePerWindow(b);
    if b.StakeIndex? {
      WindowsDiffer(p, b.pprev);
      OnePerWindow(b.pprev);
      if b.pprev.StakeIndex? && b.fGenerated && PastLastWindowTo(b.pprev) {
        LastGeneratorBelow(b.pprev);
        WindowEnd(LastGenerator(b.pprev).nTime, b.nTime);
        NeverEarlier(p, b);
      }
    }
  }

  /** The chain down from `b` up to the last block whose parent is still of the first protocol. */
  function FirstProtocol(p: TimeRules, b: StakeIndex): StakeIndex {
    if b.NoIndex? || b.pprev.NoIndex? || p.IsProtocolV1(b.pprev.nHeight) then b else FirstProtocol(p, b.pprev)
  }

  /** After the first protocol the condition always holds, as times rise strictly: what decides
      is the chain up to there. */
  lemma {:induction false} RisesAfterFirstProtocol(p: TimeRules, b: StakeIndex)
    requires StampedTo(b) && TimesAcceptedTo(p, b)
    ensures WindowsDifferTo(b) <==> PastLastWindowTo(FirstProtocol(p, b))
  {
    WindowsDiffer(p, b);
    if b.StakeIndex? && b.pprev.StakeIndex? && !p.IsProtocolV1(b.pprev.nHeight) {
      RisesAfterFirstProtocol(p, b.pprev);
      WindowsDiffer(p, b.pprev);
      if b.fGenerated {
        NeverEarlier(p, b);
      }
    }
  }

  /** Every block carries the modifier of the nearest block at or below it that computed one. */
  lemma {:induction false} CarriesModifier(b: StakeIndex)
    requires b.StakeIndex? && StampedTo(b)
    ensures LastGenerator(b).fGenerated && LastGenerator(b).nStakeModifier == b.nStakeModifier
  {
    assert Stamped(b);
    if b.pprev.StakeIndex? && !b.fGenerated {
      CarriesModifier(b.pprev);
    }
  }

  const GENESIS_BLOCK_TIME: nat := 1_488_375_642

  function HeaderOn(prev: StakeIndex, hash: nat, nTime: nat, fGenerated: bool): StakeIndex {
    StakeIndex(prev, hash, if prev.NoIndex? then 0 else prev.nHeight + 1, nTime, 0, 0, false, false, {}, fGenerated)
  }

  /** Four blocks on the genesis block: the third is the first of a new window, and the fourth a
      second before it. */
  function Falling(k: nat): StakeIndex
    requires k <= 4
  {
    if k == 0 then HeaderOn(NoIndex, 1, GENESIS_BLOCK_TIME, true)
    else HeaderOn(Falling(k - 1), k + 1, [GENESIS_BLOCK_TIME, GENESIS_BLOCK_TIME + 10, GENESIS_BLOCK_TIME + 20, 1_488_376_800, 1_488_376_799][k], k == 4)
  }

  lemma FallingMedian(k: nat)
    requires k < 4
    ensures MedianTime(Falling(k)) == [GENESIS_BLOCK_TIME, GENESIS_BLOCK_TIME + 10, GENESIS_BLOCK_TIME + 10, GENESIS_BLOCK_TIME + 20][k]
  {
    hide Falling, PastTimes, Ordered;
    var times: seq<nat> := [GENESIS_BLOCK_TIME, GENESIS_BLOCK_TIME + 10, GENESIS_BLOCK_TIME + 20, 1_488_376_800][..k + 1];
    OrderedAlready(times);
    FallingBlock(k);
    assert PastTimes(Falling(k), nMedianTimeSpan) == times by {
      FallingTimes(k, nMedianTimeSpan);
    }
  }

  lemma {:induction false} FallingTimes(k: nat, n: nat)
    requires k < 4 && n > k
    ensures PastTimes(Falling(k), n) == [GENESIS_BLOCK_TIME, GENESIS_BLOCK_TIME + 10, GENESIS_BLOCK_TIME + 20, 1_488_376_800][..k + 1]
  {
    if k > 0 {
      FallingTimes(k - 1, n - 1);
    } else {
      assert PastTimes(NoIndex, n - 1) == [];
    }
  }

  /** The blocks, one by one. */
  lemma FallingBlock(k: nat)
    requires k <= 4
    ensures Falling(k).StakeIndex? && Falling(k).nHeight == k && (Falling(k).fGenerated <==> k == 0 || k == 4)
    ensures Falling(k).nStakeModifier == {} && Falling(k).pprev == if k == 0 then NoIndex else Falling(k - 1)
    ensures Falling(k).nTime == [GENESIS_BLOCK_TIME, GENESIS_BLOCK_TIME + 10, GENESIS_BLOCK_TIME + 20, 1_488_376_800, 1_488_376_799][k]
    decreases k
  {
    if k > 0 {
      FallingBlock(k - 1);
    }
  }

  lemma {:induction false} FallingGenerator(k: nat)
    requires k < 4
    ensures LastGenerator(Falling(k)) == Falling(0)
  {
    hide Falling;
    FallingBlock(k);
    if k > 0 {
      FallingGenerator(k - 1);
      FallingBlock(k - 1);
    }
  }

  lemma {:induction false} FallingStamped(k: nat)
    requires k <= 4
    ensures StampedTo(Falling(k)) && (k > 0 ==> Below(Falling(0), Falling(k)))
  {
    hide Falling;
    FallingBlock(k);
    FallingBlock(0);
    if k > 0 {
      FallingBlock(k - 1);
      FallingStamped(k - 1);
      FallingGenerator(k - 1);
    }
  }

  lemma {:induction false} FallingAccepted(p: TimeRules, k: nat)
    requires p == TimeRules(920, 440_000) && k <= 4
    ensures TimesAcceptedTo(p, Falling(k))
  {
    hide Falling, MedianTime;
    FallingBlock(k);
    if k > 0 {
      FallingBlock(k - 1);
      FallingAccepted(p, k - 1);
      FallingMedian(k - 1);
    }
  }

  /** On the main network AcceptBlock takes these times, and the last block computes a modifier in
      the window of the genesis block, which did too. */
  lemma TwoInOneWindow(p: TimeRules)
    requires p == TimeRules(920, 440_000)
    ensures StampedTo(Falling(4)) && TimesAcceptedTo(p, Falling(4))
    ensures Falling(4).fGenerated && Falling(0).fGenerated && Below(Falling(0), Falling(4))
    ensures Window(Falling(0).nTime) == Window(Falling(4).nTime)
  {
    hide Falling, StampedTo, TimesAcceptedTo, Below;
    FallingBlock(0);
    FallingBlock(4);
    FallingStamped(4);
    FallingAccepted(p, 4);
  }
}
