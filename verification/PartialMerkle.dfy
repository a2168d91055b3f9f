/** Partial Merkle trees (BIP 37, section "Partial Merkle branch format"): the encoder that
    walks the tree of a block and stores flag bits and hashes, the decoder that walks the same
    way and takes them back, and the packing of the bits into bytes. */
module PartialMerkle {
  import opened Arithmetic
  import opened MerkleTree
  import opened Transactions

  /** Whether a transaction in the given range is to be matched. */
  predicate AnyMatch(mask: seq<bool>, lo: nat, hi: nat) {
    exists p :: lo <= p < hi && p < |mask| && mask[p]
  }

  function FirstLeaf(height: nat, pos: nat): nat {
    pos * Pow2(height)
  }

  predicate IsParentOfMatch(mask: seq<bool>, height: nat, pos: nat) {
    AnyMatch(mask, FirstLeaf(height, pos), FirstLeaf(height, pos + 1))
  }

  /** What TraverseAndBuild appends to vBits. */
  function BuildBits(mask: seq<bool>, height: nat, pos: nat): seq<bool>
    decreases height
  {
    var match' := IsParentOfMatch(mask, height, pos);
    if height == 0 || !match' then [match']
    else [match'] + BuildBits(mask, height - 1, 2 * pos) +
         if 2 * pos + 1 < CalcTreeWidth(|mask|, height - 1) then BuildBits(mask, height - 1, 2 * pos + 1) else []
  }

  /** What TraverseAndBuild appends to vHash. */
  function BuildHashes(f: (Hash, Hash) -> Hash, ids: seq<Hash>, mask: seq<bool>, height: nat, pos: nat): seq<Hash>
    requires |mask| == |ids| && pos < CalcTreeWidth(|ids|, height)
    decreases height
  {
    if height == 0 || !IsParentOfMatch(mask, height, pos) then [CalcHash(f, ids, height, pos)]
    else
      NonEmpty(|ids|, height, pos); Children(|ids|, height, pos);
      BuildHashes(f, ids, mask, height - 1, 2 * pos) +
      if 2 * pos + 1 < CalcTreeWidth(|ids|, height - 1) then BuildHashes(f, ids, mask, height - 1, 2 * pos + 1) else []
  }

  /** What a call of TraverseAndExtract returns and does: the hash of the node, how far the bits
      and the hashes are used, the matches it appends, and whether it ran out of either. */
  datatype Extraction = Extraction(hash: Hash, nBitsUsed: nat, nHashUsed: nat, matches: seq<Hash>, bad: bool)

  function Extract(f: (Hash, Hash) -> Hash, n: nat, vBits: seq<bool>, vHash: seq<Hash>, height: nat, pos: nat, b: nat, k: nat): Extraction
    decreases height
  {
    if b >= |vBits| then Extraction(0, b, k, [], true)
    else if height == 0 || !vBits[b] then
      if k >= |vHash| then Extraction(0, b + 1, k, [], true)
      else Extraction(vHash[k], b + 1, k + 1, if height == 0 && vBits[b] then [vHash[k]] else [], false)
    else
      var l := Extract(f, n, vBits, vHash, height - 1, 2 * pos, b + 1, k);
      if 2 * pos + 1 < CalcTreeWidth(n, height - 1) then
        var r := Extract(f, n, vBits, vHash, height - 1, 2 * pos + 1, l.nBitsUsed, l.nHashUsed);
        Extraction(f(l.hash, r.hash), r.nBitsUsed, r.nHashUsed, l.matches + r.matches, l.bad || r.bad)
      else
        l.(hash := f(l.hash, l.hash))
  }

  /** What ExtractMatches returns: a root, or 0 for failure, and the matches. */
  function ExtractResult(f: (Hash, Hash) -> Hash, n: nat, vBits: seq<bool>, vHash: seq<Hash>): (Hash, seq<Hash>) {
    if n == 0 || n > MAX_BLOCK_SIZE / 60 || |vHash| > n || |vBits| < |vHash| then (0, [])
    else
      var e := Extract(f, n, vBits, vHash, Height(n), 0, 0, 0);
      if e.bad || (e.nBitsUsed + 7) / 8 != (|vBits| + 7) / 8 || e.nHashUsed != |vHash| then (0, e.matches)
      else (e.hash, e.matches)
  }

  lemma LeavesGrow(height: nat, pos: nat)
    ensures FirstLeaf(height, pos) < FirstLeaf(height, pos + 1)
  {
    assert (pos + 1) * Pow2(height) == pos * Pow2(height) + Pow2(height);
  }

  /** Bits appended for a node: its own, then those of its children. */
  lemma BitsOfNode(mask: seq<bool>, height: nat, pos: nat, bits: seq<bool>)
    ensures bits + BuildBits(mask, height, pos) ==
            if height == 0 || !IsParentOfMatch(mask, height, pos) then bits + [IsParentOfMatch(mask, height, pos)]
            else if 2 * pos + 1 < CalcTreeWidth(|mask|, height - 1)
            then bits + [true] + BuildBits(mask, height - 1, 2 * pos) + BuildBits(mask, height - 1, 2 * pos + 1)
            else bits + [true] + BuildBits(mask, height - 1, 2 * pos)
  {
    hide CalcTreeWidth, IsParentOfMatch;
  }

  /** Hashes appended for a node: its own, or those of its children. */
  lemma HashesOfNode(f: (Hash, Hash) -> Hash, ids: seq<Hash>, mask: seq<bool>, height: nat, pos: nat, hashes: seq<Hash>)
    requires |mask| == |ids| && pos < CalcTreeWidth(|ids|, height)
    ensures height != 0 ==> 2 * pos < CalcTreeWidth(|ids|, height - 1)
    ensures hashes + BuildHashes(f, ids, mask, height, pos) ==
            if height == 0 || !IsParentOfMatch(mask, height, pos) then hashes + [CalcHash(f, ids, height, pos)]
            else if 2 * pos + 1 < CalcTreeWidth(|ids|, height - 1)
            then hashes + BuildHashes(f, ids, mask, height - 1, 2 * pos) + BuildHashes(f, ids, mask, height - 1, 2 * pos + 1)
            else hashes + BuildHashes(f, ids, mask, height - 1, 2 * pos)
  {
    hide CalcTreeWidth, CalcHash, IsParentOfMatch;
    if height != 0 {
      NonEmpty(|ids|, height, pos);
      Children(|ids|, height, pos);
    }
  }

  /** Matches appended by one child and then the other. */
  lemma AppendTwice(before: seq<Hash>, f: (Hash, Hash) -> Hash, n: nat, vBits: seq<bool>, vHash: seq<Hash>, height: nat, pos: nat, b: nat, k: nat)
    requires height > 0 && b < |vBits| && vBits[b]
    ensures var l := Extract(f, n, vBits, vHash, height - 1, 2 * pos, b + 1, k);
            var r := Extract(f, n, vBits, vHash, height - 1, 2 * pos + 1, l.nBitsUsed, l.nHashUsed);
            Extract(f, n, vBits, vHash, height, pos, b, k) ==
              (if 2 * pos + 1 < CalcTreeWidth(n, height - 1)
               then Extraction(f(l.hash, r.hash), r.nBitsUsed, r.nHashUsed, l.matches + r.matches, l.bad || r.bad)
               else l.(hash := f(l.hash, l.hash))) &&
            before + (l.matches + r.matches) == before + l.matches + r.matches
  {
  }

  class CPartialMerkleTree {
    const f: (Hash, Hash) -> Hash
    var nTransactions: nat
    var vBits: seq<bool>
    var vHash: seq<Hash>
    var fBad: bool

    constructor (hash2: (Hash, Hash) -> Hash, vTxid: seq<Hash>, vMatch: seq<bool>)
      requires vTxid != [] && |vMatch| == |vTxid|
      ensures f == hash2 && nTransactions == |vTxid| && !fBad
      ensures vBits == BuildBits(vMatch, Height(|vTxid|), 0)
      ensures (HeightIsRoot(|vTxid|, 0); vHash == BuildHashes(f, vTxid, vMatch, Height(|vTxid|), 0))
    {
      hide BuildBits, BuildHashes, CalcTreeWidth, CalcHash, HeightFrom, IsParentOfMatch;
      f, nTransactions, vBits, vHash, fBad := hash2, |vTxid|, [], [], false;
      new;
      var nHeight := CalcHeight();
      HeightIsRoot(|vTxid|, 0);
      TraverseAndBuild(nHeight, 0, vTxid, vMatch);
    }

    /** The loop that looks for the height of the tree. */
    method CalcHeight() returns (nHeight: nat)
      requires nTransactions >= 1
      ensures nHeight == Height(nTransactions)
    {
      nHeight := 0;
      while CalcTreeWidth(nTransactions, nHeight) > 1
        invariant HeightFrom(nTransactions, nHeight) == Height(nTransactions)
        decreases CalcTreeWidth(nTransactions, nHeight)
      {
        WidthShrinks(nTransactions, nHeight);
        nHeight := nHeight + 1;
      }
    }

    /** The first loop of TraverseAndBuild: is this node the parent of a matched transaction? */
    method FindMatch(height: nat, pos: nat, vMatch: seq<bool>) returns (fParentOfMatch: bool)
      requires |vMatch| == nTransactions
      ensures fParentOfMatch == IsParentOfMatch(vMatch, height, pos)
    {
      hide FirstLeaf;
      LeavesGrow(height, pos);
      fParentOfMatch := false;
      var p := FirstLeaf(height, pos);
      while p < FirstLeaf(height, pos + 1) && p < nTransactions
        invariant p >= FirstLeaf(height, pos)
        invariant fParentOfMatch == AnyMatch(vMatch, FirstLeaf(height, pos), p)
        invariant p <= FirstLeaf(height, pos + 1)
        decreases FirstLeaf(height, pos + 1) - p
      {
        fParentOfMatch := fParentOfMatch || vMatch[p];
        p := p + 1;
      }
    }

    method TraverseAndBuild(height: nat, pos: nat, vTxid: seq<Hash>, vMatch: seq<bool>)
      requires |vMatch| == |vTxid| == nTransactions && pos < CalcTreeWidth(nTransactions, height)
      modifies this`vBits, this`vHash
      ensures vBits == old(vBits) + BuildBits(vMatch, height, pos)
      ensures vHash == old(vHash) + BuildHashes(f, vTxid, vMatch, height, pos)
      decreases height
    {
      hide CalcTreeWidth, Pow2, CalcHash, IsParentOfMatch, BuildBits, BuildHashes;
      BitsOfNode(vMatch, height, pos, vBits);
      HashesOfNode(f, vTxid, vMatch, height, pos, vHash);
      var fParentOfMatch := FindMatch(height, pos, vMatch);
      vBits := vBits + [fParentOfMatch];
      if height == 0 || !fParentOfMatch {
        vHash := vHash + [CalcHash(f, vTxid, height, pos)];
      } else {
        NonEmpty(nTransactions, height, pos);
        Children(nTransactions, height, pos);
        TraverseAndBuild(height - 1, pos * 2, vTxid, vMatch);
        if pos * 2 + 1 < CalcTreeWidth(nTransactions, height - 1) {
          TraverseAndBuild(height - 1, pos * 2 + 1, vTxid, vMatch);
        }
      }
    }

    method TraverseAndExtract(height: nat, pos: nat, nBitsUsed: nat, nHashUsed: nat, vMatch: seq<Hash>)
      returns (hash: Hash, nBitsUsed': nat, nHashUsed': nat, vMatch': seq<Hash>)
      modifies this`fBad
      ensures var e := Extract(f, nTransactions, vBits, vHash, height, pos, nBitsUsed, nHashUsed);
              && hash == e.hash && nBitsUsed' == e.nBitsUsed && nHashUsed' == e.nHashUsed
              && vMatch' == vMatch + e.matches && fBad == (old(fBad) || e.bad)
      decreases height
    {
      hide CalcTreeWidth, Pow2;
      nBitsUsed', nHashUsed', vMatch' := nBitsUsed, nHashUsed, vMatch;
      if nBitsUsed' >= |vBits| {
        fBad := true;
        return 0, nBitsUsed', nHashUsed', vMatch';
      }
      var fParentOfMatch := vBits[nBitsUsed'];
      nBitsUsed' := nBitsUsed' + 1;
      if height == 0 || !fParentOfMatch {
        if nHashUsed' >= |vHash| {
          fBad := true;
          return 0, nBitsUsed', nHashUsed', vMatch';
        }
        hash := vHash[nHashUsed'];
        nHashUsed' := nHashUsed' + 1;
        if height == 0 && fParentOfMatch {
          vMatch' := vMatch' + [hash];
        }
      } else {
        var left, right;
        left, nBitsUsed', nHashUsed', vMatch' := TraverseAndExtract(height - 1, pos * 2, nBitsUsed', nHashUsed', vMatch');
        if pos * 2 + 1 < CalcTreeWidth(nTransactions, height - 1) {
          right, nBitsUsed', nHashUsed', vMatch' := TraverseAndExtract(height - 1, pos * 2 + 1, nBitsUsed', nHashUsed', vMatch');
        } else {
          right := left;
        }
        hash := f(left, right);
        AppendTwice(vMatch, f, nTransactions, vBits, vHash, height, pos, nBitsUsed, nHashUsed);
      }
    }

    method ExtractMatches() returns (root: Hash, vMatch: seq<Hash>)
      modifies this`fBad
      ensures !old(fBad) ==> (root, vMatch) == ExtractResult(f, nTransactions, vBits, vHash)
      ensures old(fBad) ==> root == 0
    {
      vMatch := [];
      if nTransactions == 0 {
        return 0, vMatch;
      }
      if nTransactions > MAX_BLOCK_SIZE / 60 {
        return 0, vMatch;
      }
      if |vHash| > nTransactions {
        return 0, vMatch;
      }
      if |vBits| < |vHash| {
        return 0, vMatch;
      }
      var nHeight := CalcHeight();
      var nBitsUsed, nHashUsed;
      ghost var e := Extract(f, nTransactions, vBits, vHash, nHeight, 0, 0, 0);
      assert [] + e.matches == e.matches;
      root, nBitsUsed, nHashUsed, vMatch := TraverseAndExtract(nHeight, 0, 0, 0, vMatch);
      if fBad {
        return 0, vMatch;
      }
      if (nBitsUsed + 7) / 8 != (|vBits| + 7) / 8 {
        return 0, vMatch;
      }
      if nHashUsed != |vHash| {
        return 0, vMatch;
      }
    }
  }

  // ----- round trip

  /** The matched transactions of a range, in order. */
  function Masked(ids: seq<Hash>, mask: seq<bool>, lo: nat, hi: nat): seq<Hash>
    requires |mask| == |ids|
    decreases hi
  {
    if hi <= lo then []
    else Masked(ids, mask, lo, hi - 1) + if hi - 1 < |ids| && mask[hi - 1] then [ids[hi - 1]] else []
  }

  lemma {:induction false} MaskedSplit(ids: seq<Hash>, mask: seq<bool>, lo: nat, mid: nat, hi: nat)
    requires |mask| == |ids| && lo <= mid <= hi
    ensures Masked(ids, mask, lo, hi) == Masked(ids, mask, lo, mid) + Masked(ids, mask, mid, hi)
    decreases hi
  {
    if mid < hi {
      MaskedSplit(ids, mask, lo, mid, hi - 1);
    }
  }

  lemma {:induction false} MaskedNone(ids: seq<Hash>, mask: seq<bool>, lo: nat, hi: nat)
    requires |mask| == |ids| && !AnyMatch(mask, lo, hi)
    ensures Masked(ids, mask, lo, hi) == []
    decreases hi
  {
    if lo < hi {
      MaskedNone(ids, mask, lo, hi - 1);
    }
  }

  /** The leaves below a node are those below its children. */
  lemma LeavesOfChildren(n: nat, height: nat, pos: nat)
    requires height > 0 && pos < CalcTreeWidth(n, height)
    ensures FirstLeaf(height, pos) == FirstLeaf(height - 1, 2 * pos) < FirstLeaf(height - 1, 2 * pos + 1)
    ensures FirstLeaf(height - 1, 2 * pos + 1) < FirstLeaf(height - 1, 2 * pos + 1 + 1) == FirstLeaf(height, pos + 1)
    ensures 2 * pos + 1 >= CalcTreeWidth(n, height - 1) ==> FirstLeaf(height - 1, 2 * pos + 1) >= n
    ensures 2 * pos < CalcTreeWidth(n, height - 1)
    ensures FirstLeaf(height, pos) < n
  {
    var p := Pow2(height - 1);
    assert pos * (2 * p) == (2 * pos) * p;
    assert (pos + 1) * (2 * p) == (2 * pos + 2) * p;
    assert (2 * pos + 1) * p == (2 * pos) * p + p;
    NonEmpty(n, height, pos);
    Children(n, height, pos);
    WidthJustEnough(n, height - 1);
    WidthJustEnough(n, height);
    Scale(pos, CalcTreeWidth(n, height) - 1, Pow2(height));
  }

  lemma LeafHasOne(pos: nat)
    ensures FirstLeaf(0, pos) == pos && FirstLeaf(0, pos + 1) == pos + 1
  {
  }

  ghost predicate Holds<T>(s: seq<T>, i: nat, part: seq<T>) {
    i + |part| <= |s| && s[i..i + |part|] == part
  }

  lemma HoldsSplit<T>(s: seq<T>, i: nat, a: seq<T>, b: seq<T>)
    requires Holds(s, i, a + b)
    ensures Holds(s, i, a) && Holds(s, i + |a|, b)
  {
    assert (a + b)[..|a|] == a && (a + b)[|a|..] == b;
    assert s[i..i + |a|] == s[i..i + |a + b|][..|a|];
    assert s[i + |a|..i + |a| + |b|] == s[i..i + |a + b|][|a|..];
  }

  /** What a node yields when its bits and hashes are there to be read. */
  ghost function Expected(f: (Hash, Hash) -> Hash, ids: seq<Hash>, mask: seq<bool>, height: nat, pos: nat, b: nat, k: nat): Extraction
    requires |mask| == |ids| && pos < CalcTreeWidth(|ids|, height)
  {
    Extraction(CalcHash(f, ids, height, pos), b + |BuildBits(mask, height, pos)|, k + |BuildHashes(f, ids, mask, height, pos)|,
               Masked(ids, mask, FirstLeaf(height, pos), FirstLeaf(height, pos + 1)), false)
  }

  lemma ExtractStop(f: (Hash, Hash) -> Hash, ids: seq<Hash>, mask: seq<bool>, vBits: seq<bool>, vHash: seq<Hash>, height: nat, pos: nat, b: nat, k: nat)
    requires |mask| == |ids| && pos < CalcTreeWidth(|ids|, height)
    requires height == 0 || !IsParentOfMatch(mask, height, pos)
    requires Holds(vBits, b, BuildBits(mask, height, pos)) && Holds(vHash, k, BuildHashes(f, ids, mask, height, pos))
    ensures Extract(f, |ids|, vBits, vHash, height, pos, b, k) == Expected(f, ids, mask, height, pos, b, k)
  {
    hide CalcTreeWidth, CalcHash;
    assert vBits[b] == vBits[b..b + 1][0] && vHash[k] == vHash[k..k + 1][0];
    if height == 0 {
      LeafHasOne(pos);
      WidthAtLeaves(|ids|);
      assert Masked(ids, mask, pos, pos) == [];
      assert CalcHash(f, ids, 0, pos) == ids[pos] by {
        LeafHash(f, ids, pos);
      }
    } else {
      MaskedNone(ids, mask, FirstLeaf(height, pos), FirstLeaf(height, pos + 1));
    }
  }

  lemma LeafHash(f: (Hash, Hash) -> Hash, ids: seq<Hash>, pos: nat)
    requires pos < CalcTreeWidth(|ids|, 0)
    ensures pos < |ids| && CalcHash(f, ids, 0, pos) == ids[pos]
  {
  }

  lemma ParentHash(f: (Hash, Hash) -> Hash, ids: seq<Hash>, height: nat, pos: nat)
    requires height > 0 && pos < CalcTreeWidth(|ids|, height)
    ensures 2 * pos < CalcTreeWidth(|ids|, height - 1)
    ensures CalcHash(f, ids, height, pos) ==
            var l := CalcHash(f, ids, height - 1, 2 * pos);
            f(l, if 2 * pos + 1 < CalcTreeWidth(|ids|, height - 1) then CalcHash(f, ids, height - 1, 2 * pos + 1) else l)
  {
    LeavesOfChildren(|ids|, height, pos);
  }

  /** The decoder takes back, node by node, what the encoder stored. */
  lemma {:induction false} ExtractBuilt(f: (Hash, Hash) -> Hash, ids: seq<Hash>, mask: seq<bool>, vBits: seq<bool>, vHash: seq<Hash>, height: nat, pos: nat, b: nat, k: nat)
    requires |mask| == |ids| && pos < CalcTreeWidth(|ids|, height)
    requires Holds(vBits, b, BuildBits(mask, height, pos)) && Holds(vHash, k, BuildHashes(f, ids, mask, height, pos))
    ensures Extract(f, |ids|, vBits, vHash, height, pos, b, k) == Expected(f, ids, mask, height, pos, b, k)
    decreases height
  {
    hide CalcTreeWidth, CalcHash, IsParentOfMatch, FirstLeaf, BuildBits, BuildHashes, Masked, Extract;
    if height == 0 || !IsParentOfMatch(mask, height, pos) {
      ExtractStop(f, ids, mask, vBits, vHash, height, pos, b, k);
    } else {
      LeavesOfChildren(|ids|, height, pos);
      ParentHash(f, ids, height, pos);
      MaskedSplit(ids, mask, FirstLeaf(height, pos), FirstLeaf(height - 1, 2 * pos + 1), FirstLeaf(height, pos + 1));
      ReadParent(f, ids, mask, vBits, vHash, height, pos, b, k);
      var bl, hl := BuildBits(mask, height - 1, 2 * pos), BuildHashes(f, ids, mask, height - 1, 2 * pos);
      ExtractBuilt(f, ids, mask, vBits, vHash, height - 1, 2 * pos, b + 1, k);
      AppendTwice([], f, |ids|, vBits, vHash, height, pos, b, k);
      if 2 * pos + 1 < CalcTreeWidth(|ids|, height - 1) {
        ExtractBuilt(f, ids, mask, vBits, vHash, height - 1, 2 * pos + 1, b + 1 + |bl|, k + |hl|);
      } else {
        MaskedNone(ids, mask, FirstLeaf(height - 1, 2 * pos + 1), FirstLeaf(height, pos + 1));
      }
    }
  }

  lemma PartsOfParent(f: (Hash, Hash) -> Hash, ids: seq<Hash>, mask: seq<bool>, height: nat, pos: nat)
    requires |mask| == |ids| && height > 0 && pos < CalcTreeWidth(|ids|, height) && IsParentOfMatch(mask, height, pos)
    ensures 2 * pos < CalcTreeWidth(|ids|, height - 1)
    ensures BuildBits(mask, height, pos) == [true] + (
              if 2 * pos + 1 < CalcTreeWidth(|ids|, height - 1)
              then BuildBits(mask, height - 1, 2 * pos) + BuildBits(mask, height - 1, 2 * pos + 1)
              else BuildBits(mask, height - 1, 2 * pos))
    ensures BuildHashes(f, ids, mask, height, pos) == (
              if 2 * pos + 1 < CalcTreeWidth(|ids|, height - 1)
              then BuildHashes(f, ids, mask, height - 1, 2 * pos) + BuildHashes(f, ids, mask, height - 1, 2 * pos + 1)
              else BuildHashes(f, ids, mask, height - 1, 2 * pos))
  {
    hide CalcTreeWidth, CalcHash, IsParentOfMatch;
    NonEmpty(|ids|, height, pos);
    Children(|ids|, height, pos);
  }

  /** Where the bits and hashes of a parent and its children are. */
  lemma ReadParent(f: (Hash, Hash) -> Hash, ids: seq<Hash>, mask: seq<bool>, vBits: seq<bool>, vHash: seq<Hash>, height: nat, pos: nat, b: nat, k: nat)
    requires |mask| == |ids| && height > 0 && pos < CalcTreeWidth(|ids|, height) && IsParentOfMatch(mask, height, pos)
    requires Holds(vBits, b, BuildBits(mask, height, pos)) && Holds(vHash, k, BuildHashes(f, ids, mask, height, pos))
    ensures 2 * pos < CalcTreeWidth(|ids|, height - 1)
    ensures b < |vBits| && vBits[b]
    ensures var bits, hashes := BuildBits(mask, height - 1, 2 * pos), BuildHashes(f, ids, mask, height - 1, 2 * pos);
            && Holds(vBits, b + 1, bits) && Holds(vHash, k, hashes)
            && (if 2 * pos + 1 < CalcTreeWidth(|ids|, height - 1)
                then var bits', hashes' := BuildBits(mask, height - 1, 2 * pos + 1), BuildHashes(f, ids, mask, height - 1, 2 * pos + 1);
                     && Holds(vBits, b + 1 + |bits|, bits') && Holds(vHash, k + |hashes|, hashes')
                     && |BuildBits(mask, height, pos)| == 1 + |bits| + |bits'|
                     && |BuildHashes(f, ids, mask, height, pos)| == |hashes| + |hashes'|
                else |BuildBits(mask, height, pos)| == 1 + |bits| && |BuildHashes(f, ids, mask, height, pos)| == |hashes|)
  {
    hide CalcTreeWidth, CalcHash, IsParentOfMatch, BuildBits, BuildHashes;
    PartsOfParent(f, ids, mask, height, pos);
    var bits, hashes := BuildBits(mask, height - 1, 2 * pos), BuildHashes(f, ids, mask, height - 1, 2 * pos);
    if 2 * pos + 1 < CalcTreeWidth(|ids|, height - 1) {
      var bits', hashes' := BuildBits(mask, height - 1, 2 * pos + 1), BuildHashes(f, ids, mask, height - 1, 2 * pos + 1);
      HoldsSplit(vBits, b, [true], bits + bits');
      HoldsSplit(vBits, b + 1, bits, bits');
      HoldsSplit(vHash, k, hashes, hashes');
    } else {
      HoldsSplit(vBits, b, [true], bits);
    }
    assert vBits[b] == vBits[b..b + 1][0];
  }

  // ----- sizes

  /** A node has at least one hash, no more hashes than bits, and no more hashes than leaves. */
  lemma {:induction false} SizesOfNode(f: (Hash, Hash) -> Hash, ids: seq<Hash>, mask: seq<bool>, height: nat, pos: nat)
    requires |mask| == |ids| && pos < CalcTreeWidth(|ids|, height)
    ensures |BuildHashes(f, ids, mask, height, pos)| <= |BuildBits(mask, height, pos)|
    ensures FirstLeaf(height, pos) + |BuildHashes(f, ids, mask, height, pos)| <= FirstLeaf(height, pos + 1)
    ensures FirstLeaf(height, pos) + |BuildHashes(f, ids, mask, height, pos)| <= |ids|
    decreases height
  {
    hide CalcTreeWidth, CalcHash, IsParentOfMatch, FirstLeaf, Masked;
    if height == 0 {
      LeafHasOne(pos);
      WidthAtLeaves(|ids|);
    } else {
      LeavesOfChildren(|ids|, height, pos);
      if IsParentOfMatch(mask, height, pos) {
        PartsOfParent(f, ids, mask, height, pos);
        SizesOfNode(f, ids, mask, height - 1, 2 * pos);
        if 2 * pos + 1 < CalcTreeWidth(|ids|, height - 1) {
          SizesOfNode(f, ids, mask, height - 1, 2 * pos + 1);
        }
      }
    }
  }

  // ----- bits in bytes, least significant first

  function Mask(i: nat): bv8
    requires i < 8
  {
    if i == 0 then 1 else if i == 1 then 2 else if i == 2 then 4 else if i == 3 then 8
    else if i == 4 then 16 else if i == 5 then 32 else if i == 6 then 64 else 128
  }

  predicate BitAt(vBytes: seq<bv8>, p: nat)
    requires p < 8 * |vBytes|
  {
    vBytes[p / 8] & Mask(p % 8) != 0
  }

  /** The bytes hold the bits and then zeros, with no byte to spare. */
  ghost predicate PackedAs(vBits: seq<bool>, vBytes: seq<bv8>) {
    && |vBytes| == (|vBits| + 7) / 8
    && forall p: nat | p < 8 * |vBytes| :: BitAt(vBytes, p) == (p < |vBits| && vBits[p])
  }

  ghost predicate UnpackedFrom(vBytes: seq<bv8>, vBits: seq<bool>) {
    |vBits| == 8 * |vBytes| && forall p: nat | p < |vBits| :: vBits[p] == BitAt(vBytes, p)
  }

  lemma OrMask(x: bv8, i: nat, v: bool, j: nat)
    requires i < 8 && j < 8
    ensures ((x | (if v then Mask(i) else 0)) & Mask(j) != 0) == (x & Mask(j) != 0 || (i == j && v))
  {
  }

  /** Writing: one bit after the other into its byte. */
  method Pack(vBits: seq<bool>) returns (vBytes: seq<bv8>)
    ensures PackedAs(vBits, vBytes)
  {
    var size: nat := (|vBits| + 7) / 8;
    vBytes := seq(size, _ => 0);
    for p := 0 to |vBits|
      invariant |vBytes| == size
      invariant forall q: nat | q < 8 * size :: BitAt(vBytes, q) == (q < p && vBits[q])
    {
      var before := vBytes;
      vBytes := vBytes[p / 8 := vBytes[p / 8] | (if vBits[p] then Mask(p % 8) else 0)];
      forall q: nat | q < 8 * size ensures BitAt(vBytes, q) == (q < p + 1 && vBits[q]) {
        if q / 8 == p / 8 {
          OrMask(before[p / 8], p % 8, vBits[p], q % 8);
        }
        assert BitAt(before, q) == (q < p && vBits[q]);
      }
    }
  }

  /** Reading: eight bits a byte. */
  method Unpack(vBytes: seq<bv8>) returns (vBits: seq<bool>)
    ensures UnpackedFrom(vBytes, vBits)
  {
    vBits := [];
    for p := 0 to |vBytes| * 8
      invariant |vBits| == p && forall q: nat | q < p :: vBits[q] == BitAt(vBytes, q)
    {
      vBits := vBits + [vBytes[p / 8] & Mask(p % 8) != 0];
    }
  }

  /** Bits come back from bytes with fewer than eight zeros after them. */
  lemma UnpackPacked(vBits: seq<bool>, vBytes: seq<bv8>, vBits': seq<bool>)
    requires PackedAs(vBits, vBytes) && UnpackedFrom(vBytes, vBits')
    ensures Holds(vBits', 0, vBits) && (|vBits'| + 7) / 8 == (|vBits| + 7) / 8
  {
    forall p: nat | p < |vBits| ensures vBits'[p] == vBits[p] {
      assert BitAt(vBytes, p) == vBits[p];
    }
    assert vBits'[0..0 + |vBits|] == vBits;
  }

  /** A block's filtered transactions, encoded, packed, unpacked and extracted: every check
      passes, and out come the Merkle root and exactly the matched transactions in order. */
  lemma RoundTrip(f: (Hash, Hash) -> Hash, ids: seq<Hash>, mask: seq<bool>, vBytes: seq<bv8>, vBits': seq<bool>)
    requires 0 < |ids| <= MAX_BLOCK_SIZE / 60 && |mask| == |ids|
    requires PackedAs(BuildBits(mask, Height(|ids|), 0), vBytes) && UnpackedFrom(vBytes, vBits')
    ensures CalcTreeWidth(|ids|, Height(|ids|)) == 1
    ensures ExtractResult(f, |ids|, vBits', (HeightIsRoot(|ids|, 0); BuildHashes(f, ids, mask, Height(|ids|), 0))) ==
            (Root(f, ids), Masked(ids, mask, 0, |ids|))
  {
    hide CalcTreeWidth, CalcHash, IsParentOfMatch, FirstLeaf, BuildBits, BuildHashes, Masked, Extract, HeightFrom;
    HeightIsRoot(|ids|, 0);
    var height := Height(|ids|);
    var vBits, vHash := BuildBits(mask, height, 0), BuildHashes(f, ids, mask, height, 0);
    UnpackPacked(vBits, vBytes, vBits');
    SizesOfNode(f, ids, mask, height, 0);
    RootCovers(ids, mask, height);
    assert vHash[0..0 + |vHash|] == vHash;
    ExtractBuilt(f, ids, mask, vBits', vHash, height, 0, 0, 0);
  }

  lemma RootCovers(ids: seq<Hash>, mask: seq<bool>, height: nat)
    requires ids != [] && |mask| == |ids| && CalcTreeWidth(|ids|, height) == 1
    ensures FirstLeaf(height, 0) == 0
    ensures Masked(ids, mask, FirstLeaf(height, 0), FirstLeaf(height, 0 + 1)) == Masked(ids, mask, 0, |ids|)
  {
    WidthJustEnough(|ids|, height);
    MaskedSplit(ids, mask, 0, |ids|, FirstLeaf(height, 1));
    MaskedNone(ids, mask, |ids|, FirstLeaf(height, 1));
  }

  // ----- soundness

  /** The leaves at which the decoder finds its matches. */
  ghost function MatchedLeaves(f: (Hash, Hash) -> Hash, n: nat, vBits: seq<bool>, vHash: seq<Hash>, height: nat, pos: nat, b: nat, k: nat): seq<nat>
    decreases height
  {
    if b >= |vBits| then []
    else if height == 0 || !vBits[b] then
      if height == 0 && vBits[b] && k < |vHash| then [pos] else []
    else
      var l := Extract(f, n, vBits, vHash, height - 1, 2 * pos, b + 1, k);
      MatchedLeaves(f, n, vBits, vHash, height - 1, 2 * pos, b + 1, k) +
      if 2 * pos + 1 < CalcTreeWidth(n, height - 1)
      then MatchedLeaves(f, n, vBits, vHash, height - 1, 2 * pos + 1, l.nBitsUsed, l.nHashUsed) else []
  }

  /** `matches` are the transactions at `leaves`, which increase from `lo` to below `hi`. */
  ghost predicate Selects(ids: seq<Hash>, matches: seq<Hash>, leaves: seq<nat>, lo: nat, hi: nat) {
    && |matches| == |leaves|
    && (forall i | 0 <= i < |leaves| :: lo <= leaves[i] < hi && leaves[i] < |ids| && matches[i] == ids[leaves[i]])
    && forall i, j | 0 <= i < j < |leaves| :: leaves[i] < leaves[j]
  }

  lemma SelectsJoin(ids: seq<Hash>, m1: seq<Hash>, p1: seq<nat>, m2: seq<Hash>, p2: seq<nat>, lo: nat, mid: nat, hi: nat)
    requires lo <= mid <= hi && Selects(ids, m1, p1, lo, mid) && Selects(ids, m2, p2, mid, hi)
    ensures Selects(ids, m1 + m2, p1 + p2, lo, hi)
  {
  }

  /** Soundness of a node: if its hash is the true one, what was extracted below it is true. */
  lemma {:induction false} NodeIsSound(f: (Hash, Hash) -> Hash, ids: seq<Hash>, vBits: seq<bool>, vHash: seq<Hash>, height: nat, pos: nat, b: nat, k: nat)
    requires Injective(f) && pos < CalcTreeWidth(|ids|, height)
    requires var e := Extract(f, |ids|, vBits, vHash, height, pos, b, k); !e.bad && e.hash == CalcHash(f, ids, height, pos)
    ensures Selects(ids, Extract(f, |ids|, vBits, vHash, height, pos, b, k).matches,
                    MatchedLeaves(f, |ids|, vBits, vHash, height, pos, b, k), FirstLeaf(height, pos), FirstLeaf(height, pos + 1))
    decreases height
  {
    hide CalcTreeWidth, CalcHash, FirstLeaf, Selects, MatchedLeaves, Extract;
    BitsWereThere(f, |ids|, vBits, vHash, height, pos, b, k);
    if height == 0 || !vBits[b] {
      StopIsSound(f, ids, vBits, vHash, height, pos, b, k);
    } else {
      LeavesOfChildren(|ids|, height, pos);
      ParentHash(f, ids, height, pos);
      AppendTwice([], f, |ids|, vBits, vHash, height, pos, b, k);
      JoinLeaves(f, |ids|, vBits, vHash, height, pos, b, k);
      NodeIsSound(f, ids, vBits, vHash, height - 1, 2 * pos, b + 1, k);
      var l, leaves := Extract(f, |ids|, vBits, vHash, height - 1, 2 * pos, b + 1, k), MatchedLeaves(f, |ids|, vBits, vHash, height - 1, 2 * pos, b + 1, k);
      if 2 * pos + 1 < CalcTreeWidth(|ids|, height - 1) {
        NodeIsSound(f, ids, vBits, vHash, height - 1, 2 * pos + 1, l.nBitsUsed, l.nHashUsed);
        SelectsJoin(ids, l.matches, leaves,
                    Extract(f, |ids|, vBits, vHash, height - 1, 2 * pos + 1, l.nBitsUsed, l.nHashUsed).matches,
                    MatchedLeaves(f, |ids|, vBits, vHash, height - 1, 2 * pos + 1, l.nBitsUsed, l.nHashUsed),
                    FirstLeaf(height, pos), FirstLeaf(height - 1, 2 * pos + 1), FirstLeaf(height, pos + 1));
      } else {
        SelectsWider(ids, l.matches, leaves, FirstLeaf(height, pos), FirstLeaf(height - 1, 2 * pos + 1), FirstLeaf(height, pos + 1));
      }
    }
  }

  lemma BitsWereThere(f: (Hash, Hash) -> Hash, n: nat, vBits: seq<bool>, vHash: seq<Hash>, height: nat, pos: nat, b: nat, k: nat)
    ensures !Extract(f, n, vBits, vHash, height, pos, b, k).bad ==> b < |vBits|
  {
  }

  lemma SelectsWider(ids: seq<Hash>, matches: seq<Hash>, leaves: seq<nat>, lo: nat, mid: nat, hi: nat)
    requires mid <= hi && Selects(ids, matches, leaves, lo, mid)
    ensures Selects(ids, matches, leaves, lo, hi)
  {
  }

  lemma StopIsSound(f: (Hash, Hash) -> Hash, ids: seq<Hash>, vBits: seq<bool>, vHash: seq<Hash>, height: nat, pos: nat, b: nat, k: nat)
    requires pos < CalcTreeWidth(|ids|, height) && b < |vBits| && (height == 0 || !vBits[b])
    requires var e := Extract(f, |ids|, vBits, vHash, height, pos, b, k); !e.bad && e.hash == CalcHash(f, ids, height, pos)
    ensures Selects(ids, Extract(f, |ids|, vBits, vHash, height, pos, b, k).matches,
                    MatchedLeaves(f, |ids|, vBits, vHash, height, pos, b, k), FirstLeaf(height, pos), FirstLeaf(height, pos + 1))
  {
    hide CalcTreeWidth, CalcHash, FirstLeaf;
    if height == 0 {
      LeafHasOne(pos);
      LeafHash(f, ids, pos);
    }
  }

  lemma JoinLeaves(f: (Hash, Hash) -> Hash, n: nat, vBits: seq<bool>, vHash: seq<Hash>, height: nat, pos: nat, b: nat, k: nat)
    requires height > 0 && b < |vBits| && vBits[b]
    ensures var l := Extract(f, n, vBits, vHash, height - 1, 2 * pos, b + 1, k);
            var leaves := MatchedLeaves(f, n, vBits, vHash, height - 1, 2 * pos, b + 1, k);
            MatchedLeaves(f, n, vBits, vHash, height, pos, b, k) ==
            if 2 * pos + 1 < CalcTreeWidth(n, height - 1)
            then leaves + MatchedLeaves(f, n, vBits, vHash, height - 1, 2 * pos + 1, l.nBitsUsed, l.nHashUsed) else leaves
  {
    hide CalcTreeWidth, Extract;
  }

  /** Soundness: whatever bits and hashes make ExtractMatches succeed with the root of the true
      list, its matches are the transactions of that list at the leaves that the decoder reached
      with a set bit, and these leaves come in order. */
  lemma ExtractIsSound(f: (Hash, Hash) -> Hash, ids: seq<Hash>, vBits: seq<bool>, vHash: seq<Hash>)
    requires Injective(f) && ids != []
    requires ExtractResult(f, |ids|, vBits, vHash).0 == Root(f, ids) != 0
    ensures Selects(ids, ExtractResult(f, |ids|, vBits, vHash).1, MatchedLeaves(f, |ids|, vBits, vHash, Height(|ids|), 0, 0, 0), 0, |ids|)
  {
    hide CalcTreeWidth, CalcHash, Extract, HeightFrom;
    HeightIsRoot(|ids|, 0);
    NodeIsSound(f, ids, vBits, vHash, Height(|ids|), 0, 0, 0);
  }

  // ----- how many flag bits

  /** How many of the nodes whose children are stored have a single child. */
  function Singles(mask: seq<bool>, height: nat, pos: nat): nat
    decreases height
  {
    if height == 0 || !IsParentOfMatch(mask, height, pos) then 0
    else Singles(mask, height - 1, 2 * pos) +
         if 2 * pos + 1 < CalcTreeWidth(|mask|, height - 1) then Singles(mask, height - 1, 2 * pos + 1) else 1
  }

  /** Two flag bits for each hash but one, and one more for each single child. */
  lemma {:induction false} FlagBits(f: (Hash, Hash) -> Hash, ids: seq<Hash>, mask: seq<bool>, height: nat, pos: nat)
    requires |mask| == |ids| && pos < CalcTreeWidth(|ids|, height)
    ensures |BuildBits(mask, height, pos)| == 2 * |BuildHashes(f, ids, mask, height, pos)| - 1 + Singles(mask, height, pos)
    decreases height
  {
    hide CalcTreeWidth, CalcHash, IsParentOfMatch;
    if height > 0 && IsParentOfMatch(mask, height, pos) {
      PartsOfParent(f, ids, mask, height, pos);
      FlagBits(f, ids, mask, height - 1, 2 * pos);
      if 2 * pos + 1 < CalcTreeWidth(|ids|, height - 1) {
        FlagBits(f, ids, mask, height - 1, 2 * pos + 1);
      }
    }
  }

  /** The last node at a height. */
  function LastNode(n: nat, height: nat): int {
    CalcTreeWidth(n, height) - 1
  }

  // ----- nothing left over

  /** What lies behind the bits and hashes that are used does not matter to reading a node. */
  lemma {:induction false} ReadsOn(f: (Hash, Hash) -> Hash, n: nat, vBits: seq<bool>, vHash: seq<Hash>, height: nat, pos: nat, b: nat, k: nat, x: seq<bool>, y: seq<Hash>)
    ensures var e := Extract(f, n, vBits, vHash, height, pos, b, k); !e.bad ==> Extract(f, n, vBits + x, vHash + y, height, pos, b, k) == e
  {
    if b < |vBits| && height > 0 && vBits[b] {
      var l := Extract(f, n, vBits, vHash, height - 1, 2 * pos, b + 1, k);
      ReadsOn(f, n, vBits, vHash, height - 1, 2 * pos, b + 1, k, x, y);
      ReadsOn(f, n, vBits, vHash, height - 1, 2 * pos + 1, l.nBitsUsed, l.nHashUsed, x, y);
    }
  }

  /** Data that was accepted is no longer when anything but padding is appended: any hash, or bits
      that need another byte. */
  lemma NothingLeftOver(f: (Hash, Hash) -> Hash, n: nat, vBits: seq<bool>, vHash: seq<Hash>, x: seq<bool>, y: seq<Hash>)
    requires ExtractResult(f, n, vBits, vHash).0 != 0
    ensures if y == [] && (|vBits| + |x| + 7) / 8 == (|vBits| + 7) / 8 then ExtractResult(f, n, vBits + x, vHash + y) == ExtractResult(f, n, vBits, vHash)
            else ExtractResult(f, n, vBits + x, vHash + y).0 == 0
  {
    hide Extract;
    ReadsOn(f, n, vBits, vHash, Height(n), 0, 0, 0, x, y);
    assert vHash + [] == vHash;
  }

  /** Nor is accepted data when anything but padding is missing. */
  lemma NothingMissing(f: (Hash, Hash) -> Hash, n: nat, vBits: seq<bool>, vHash: seq<Hash>, p: nat, q: nat)
    requires ExtractResult(f, n, vBits, vHash).0 != 0 && p <= |vBits| && q <= |vHash| && (q < |vHash| || (p + 7) / 8 < (|vBits| + 7) / 8)
    ensures ExtractResult(f, n, vBits[..p], vHash[..q]).0 == 0
  {
    hide ExtractResult;
    assert vBits[..p] + vBits[p..] == vBits && vHash[..q] + vHash[q..] == vHash;
    if ExtractResult(f, n, vBits[..p], vHash[..q]).0 != 0 {
      NothingLeftOver(f, n, vBits[..p], vHash[..q], vBits[p..], vHash[q..]);
    }
  }


  /** The last node at this height leads to a match and has a single child. */
  predicate SingleAt(mask: seq<bool>, height: nat) {
    height > 0 && LastNode(|mask|, height) >= 0 && IsParentOfMatch(mask, height, LastNode(|mask|, height)) &&
    CalcTreeWidth(|mask|, height - 1) % 2 == 1
  }

  /** Only last nodes can have single children. */
  lemma {:induction false} FullBefore(mask: seq<bool>, height: nat, pos: nat)
    requires mask != [] && pos < LastNode(|mask|, height)
    ensures Singles(mask, height, pos) == 0
    decreases height
  {
    hide CalcTreeWidth, IsParentOfMatch;
    if height > 0 {
      WidthHalves(|mask|, height - 1);
      FullBefore(mask, height - 1, 2 * pos);
      FullBefore(mask, height - 1, 2 * pos + 1);
    }
  }

  lemma MatchAbove(mask: seq<bool>, height: nat)
    requires mask != [] && height > 0 && LastNode(|mask|, height) >= 0 && LastNode(|mask|, height - 1) >= 0
    ensures IsParentOfMatch(mask, height - 1, LastNode(|mask|, height - 1)) ==> IsParentOfMatch(mask, height, LastNode(|mask|, height))
  {
    hide CalcTreeWidth, FirstLeaf;
    LeavesOfChildren(|mask|, height, LastNode(|mask|, height));
    WidthHalves(|mask|, height - 1);
  }

  lemma {:induction false} NoMatchBelow(mask: seq<bool>, height: nat, g: nat)
    requires mask != [] && g <= height && LastNode(|mask|, height) >= 0 && !IsParentOfMatch(mask, height, LastNode(|mask|, height))
    ensures LastNode(|mask|, g) >= 0 && !IsParentOfMatch(mask, g, LastNode(|mask|, g))
    decreases height - g
  {
    hide CalcTreeWidth, IsParentOfMatch;
    WidthJustEnough(|mask|, g);
    if g < height {
      NoMatchBelow(mask, height, g + 1);
      MatchAbove(mask, g + 1);
    }
  }

  lemma {:induction false} SinglesOfLast(mask: seq<bool>, height: nat)
    requires mask != []
    ensures LastNode(|mask|, height) >= 0
    ensures Singles(mask, height, LastNode(|mask|, height)) == 0 <==> forall g: nat | g <= height :: !SingleAt(mask, g)
    decreases height
  {
    hide CalcTreeWidth, IsParentOfMatch;
    WidthJustEnough(|mask|, height);
    var pos: nat := LastNode(|mask|, height);
    if !IsParentOfMatch(mask, height, pos) {
      forall g: nat | g <= height ensures !SingleAt(mask, g) {
        NoMatchBelow(mask, height, g);
      }
    } else if height > 0 {
      WidthHalves(|mask|, height - 1);
      SinglesOfLast(mask, height - 1);
      if CalcTreeWidth(|mask|, height - 1) % 2 == 0 {
        FullBefore(mask, height - 1, 2 * pos);
        assert !SingleAt(mask, height);
      } else {
        assert SingleAt(mask, height);
      }
    }
  }

  /** The documented bound of 2N-1 flag bits for N hashes holds exactly when no node that leads
      to a match has a single child. */
  lemma FlagBitsBound(f: (Hash, Hash) -> Hash, ids: seq<Hash>, mask: seq<bool>)
    requires |mask| == |ids| && ids != []
    ensures CalcTreeWidth(|ids|, Height(|ids|)) == 1
    ensures |BuildBits(mask, Height(|ids|), 0)| <= 2 * |BuildHashes(f, ids, mask, Height(|ids|), 0)| - 1 <==>
            forall g: nat | g <= Height(|ids|) :: !SingleAt(mask, g)
  {
    hide CalcTreeWidth, CalcHash, HeightFrom, BuildBits, BuildHashes, Singles, SingleAt;
    HeightIsRoot(|ids|, 0);
    FlagBits(f, ids, mask, Height(|ids|), 0);
    SinglesOfLast(mask, Height(|ids|));
  }

  lemma ThreeLeaves()
    ensures CalcTreeWidth(3, 2) == 1 && CalcTreeWidth(3, 1) == 2 && CalcTreeWidth(3, 0) == 3
    ensures var mask := [false, false, true];
            && IsParentOfMatch(mask, 2, 0) && !IsParentOfMatch(mask, 1, 0)
            && IsParentOfMatch(mask, 1, 1) && IsParentOfMatch(mask, 0, 2)
  {
    assert Pow2(0) == 1 && Pow2(1) == 2 && Pow2(2) == 4;
    assert [false, false, true][2];
  }

  /** Three transactions with the last one matched: two hashes are stored and four flag bits,
      because the last leaf hangs on a parent with a single child. */
  lemma FlagBitsOfSingleChild(f: (Hash, Hash) -> Hash, ids: seq<Hash>)
    requires |ids| == 3
    ensures BuildBits([false, false, true], 2, 0) == [true, false, true, true]
    ensures CalcTreeWidth(3, 2) == 1 && |BuildHashes(f, ids, [false, false, true], 2, 0)| == 2
  {
    hide CalcTreeWidth, IsParentOfMatch, CalcHash;
    ThreeLeaves();
    PartsOfParent(f, ids, [false, false, true], 2, 0);
    PartsOfParent(f, ids, [false, false, true], 1, 1);
  }
}
