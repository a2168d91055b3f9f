/** The Merkle tree of a block: its nodes by height and position, the flat array that
    BuildMerkleTree fills, and the branches read from it.

    `f` stands for the double SHA-256 of two concatenated hashes. */
module MerkleTree {
  import opened Arithmetic
  import opened Radix

  type Hash = nat

  function Pow2(k: nat): (p: nat)
    ensures p >= 1
  {
    Power(2, k)
  }

  /** The number of nodes at a height of a tree with `n` leaves. */
  function CalcTreeWidth(n: nat, height: nat): nat {
    (n + Pow2(height) - 1) / Pow2(height)
  }

  /** `w` blocks of size `p` are just enough for `n`. */
  predicate JustEnough(n: nat, w: int, p: nat) {
    (w - 1) * p < n <= w * p
  }

  lemma CancelLess(a: int, b: int, p: nat)
    requires a * p < b * p
    ensures a < b
  {
    if b <= a {
      Scale(b, a, p);
    }
  }

  lemma QuotientJustEnough(n: nat, p: nat)
    requires n >= 1 && p >= 1
    ensures JustEnough(n, (n + p - 1) / p, p)
  {
    var q, r := (n + p - 1) / p, (n + p - 1) % p;
    assert q * p + r == n + p - 1;
    assert (q - 1) * p == q * p - p;
  }

  lemma JustEnoughUnique(n: nat, v: int, w: int, p: nat)
    requires JustEnough(n, v, p) && JustEnough(n, w, p)
    ensures v == w
  {
    CancelLess(v - 1, w, p);
    CancelLess(w - 1, v, p);
  }

  lemma JustEnoughHalf(n: nat, w: int, p: nat)
    requires JustEnough(n, w, p)
    ensures JustEnough(n, (w + 1) / 2, 2 * p)
  {
    var u := (w + 1) / 2;
    Scale(w, 2 * u, p);
    Scale(2 * u - 2, w - 1, p);
    assert u * (2 * p) == (2 * u) * p;
    assert (u - 1) * (2 * p) == (2 * u - 2) * p;
  }

  lemma WidthJustEnough(n: nat, height: nat)
    requires n >= 1
    ensures JustEnough(n, CalcTreeWidth(n, height), Pow2(height))
    ensures CalcTreeWidth(n, height) >= 1
  {
    QuotientJustEnough(n, Pow2(height));
    CancelLess(0, CalcTreeWidth(n, height), Pow2(height));
  }

  /** Each level has half as many nodes as the one below it, rounded up. */
  lemma WidthHalves(n: nat, height: nat)
    requires n >= 1
    ensures CalcTreeWidth(n, height + 1) == (CalcTreeWidth(n, height) + 1) / 2
  {
    var w := CalcTreeWidth(n, height);
    WidthJustEnough(n, height);
    WidthJustEnough(n, height + 1);
    JustEnoughHalf(n, w, Pow2(height));
    JustEnoughUnique(n, CalcTreeWidth(n, height + 1), (w + 1) / 2, Pow2(height + 1));
  }

  lemma WidthAtLeaves(n: nat)
    ensures CalcTreeWidth(n, 0) == n
  {
  }

  lemma {:induction false} Pow2Exceeds(n: nat)
    ensures Pow2(n) > n
  {
    if n > 0 {
      Pow2Exceeds(n - 1);
    }
  }

  /** Some height has at most one node. */
  lemma WidthShrinks(n: nat, height: nat)
    requires n >= 1 && CalcTreeWidth(n, height) > 1
    ensures height < n
    ensures CalcTreeWidth(n, height + 1) < CalcTreeWidth(n, height)
  {
    WidthHalves(n, height);
    if height >= n {
      Pow2Exceeds(height);
      WidthJustEnough(n, height);
      Scale(1, CalcTreeWidth(n, height) - 1, Pow2(height));
    }
  }

  /** The height of the root, as the loop that looks for it finds it. */
  function HeightFrom(n: nat, height: nat): (r: nat)
    decreases CalcTreeWidth(n, height)
  {
    if n >= 1 && CalcTreeWidth(n, height) > 1 then
      WidthShrinks(n, height);
      HeightFrom(n, height + 1)
    else height
  }

  function Height(n: nat): nat {
    HeightFrom(n, 0)
  }

  lemma {:induction false} HeightIsRoot(n: nat, height: nat)
    requires n >= 1
    ensures CalcTreeWidth(n, HeightFrom(n, height)) == 1 && HeightFrom(n, height) >= height
    decreases CalcTreeWidth(n, height)
  {
    WidthJustEnough(n, height);
    if CalcTreeWidth(n, height) > 1 {
      WidthShrinks(n, height);
      HeightIsRoot(n, height + 1);
    }
  }

  /** The two children of a node, the second perhaps missing. */
  lemma Children(n: nat, height: nat, pos: nat)
    requires n >= 1 && height >= 1 && pos < CalcTreeWidth(n, height)
    ensures 2 * pos < CalcTreeWidth(n, height - 1)
    ensures 2 * pos + 1 >= CalcTreeWidth(n, height - 1) ==> 2 * pos + 1 == CalcTreeWidth(n, height - 1)
  {
    WidthHalves(n, height - 1);
  }

  /** The hash of a node; a node without a right child counts its left child twice. */
  function CalcHash(f: (Hash, Hash) -> Hash, ids: seq<Hash>, height: nat, pos: nat): Hash
    requires pos < CalcTreeWidth(|ids|, height)
    decreases height
  {
    if height == 0 then WidthAtLeaves(|ids|); ids[pos]
    else
      NonEmpty(|ids|, height, pos); Children(|ids|, height, pos);
      var left := CalcHash(f, ids, height - 1, 2 * pos);
      var right := if 2 * pos + 1 < CalcTreeWidth(|ids|, height - 1) then CalcHash(f, ids, height - 1, 2 * pos + 1) else left;
      f(left, right)
  }

  lemma QuotientBelow(p: nat)
    requires p >= 1
    ensures (p - 1) / p == 0
  {
  }

  lemma NonEmpty(n: nat, height: nat, pos: nat)
    requires pos < CalcTreeWidth(n, height)
    ensures n >= 1
  {
    if n == 0 {
      QuotientBelow(Pow2(height));
    }
  }

  ghost function Root(f: (Hash, Hash) -> Hash, ids: seq<Hash>): Hash
    requires ids != []
  {
    HeightIsRoot(|ids|, 0);
    CalcHash(f, ids, Height(|ids|), 0)
  }

  // ----- the flat array

  ghost function Level(f: (Hash, Hash) -> Hash, ids: seq<Hash>, height: nat): seq<Hash> {
    seq(CalcTreeWidth(|ids|, height), pos requires 0 <= pos < CalcTreeWidth(|ids|, height) => CalcHash(f, ids, height, pos))
  }

  /** All levels from the leaves up to `height`. */
  ghost function Levels(f: (Hash, Hash) -> Hash, ids: seq<Hash>, height: nat): seq<Hash> {
    (if height == 0 then [] else Levels(f, ids, height - 1)) + Level(f, ids, height)
  }

  ghost function Offset(f: (Hash, Hash) -> Hash, ids: seq<Hash>, height: nat): nat {
    if height == 0 then 0 else |Levels(f, ids, height - 1)|
  }

  method BuildMerkleTree(f: (Hash, Hash) -> Hash, ids: seq<Hash>) returns (tree: seq<Hash>, root: Hash)
    ensures ids == [] ==> tree == [] && root == 0
    ensures ids != [] ==> tree == Levels(f, ids, Height(|ids|)) && root == Root(f, ids)
  {
    tree := ids;
    var j, nSize := 0, |ids|;
    ghost var height := 0;
    if ids != [] {
      assert Level(f, ids, 0) == ids;
    }
    while nSize > 1
      invariant ids == [] ==> tree == [] && nSize == 0
      invariant ids != [] ==> tree == Levels(f, ids, height) && j == Offset(f, ids, height)
      invariant ids != [] ==> nSize == CalcTreeWidth(|ids|, height) && Height(|ids|) == HeightFrom(|ids|, height)
      decreases nSize
    {
      WidthShrinks(|ids|, height);
      WidthHalves(|ids|, height);
      tree := BuildLevel(f, ids, tree, j, nSize, height);
      j, nSize, height := j + nSize, (nSize + 1) / 2, height + 1;
    }
    if ids != [] {
      HeightIsRoot(|ids|, height);
      assert tree[|tree| - 1] == Level(f, ids, height)[0];
      root := tree[|tree| - 1];
    } else {
      root := 0;
    }
  }

  /** The inner loop of BuildMerkleTree: the level above `height`. */
  method BuildLevel(f: (Hash, Hash) -> Hash, ids: seq<Hash>, lower: seq<Hash>, j: nat, nSize: nat, ghost height: nat)
    returns (tree: seq<Hash>)
    requires ids != [] && lower == Levels(f, ids, height) && j == Offset(f, ids, height)
    requires nSize == CalcTreeWidth(|ids|, height) > 1
    ensures tree == Levels(f, ids, height + 1)
  {
    hide CalcHash, CalcTreeWidth, Levels, Offset;
    tree := lower;
    WidthHalves(|ids|, height);
    LevelsNext(f, ids, height);
    ghost var up := Level(f, ids, height + 1);
    var i := 0;
    while i < nSize
      invariant i % 2 == 0 && i <= nSize + 1
      invariant tree == lower + up[..i / 2]
    {
      var i2 := if i + 1 < nSize - 1 then i + 1 else nSize - 1;
      PartnerMakesParent(f, ids, height, i);
      assert up[..i / 2 + 1] == up[..i / 2] + [up[i / 2]];
      tree := tree + [f(tree[j + i], tree[j + i2])];
      i := i + 2;
    }
  }

  lemma LevelsNext(f: (Hash, Hash) -> Hash, ids: seq<Hash>, height: nat)
    ensures Levels(f, ids, height + 1) == Levels(f, ids, height) + Level(f, ids, height + 1)
    ensures |Levels(f, ids, height)| == Offset(f, ids, height) + CalcTreeWidth(|ids|, height)
    ensures forall k | 0 <= k < CalcTreeWidth(|ids|, height) ::
              Levels(f, ids, height)[Offset(f, ids, height) + k] == CalcHash(f, ids, height, k)
  {
    hide CalcHash, CalcTreeWidth;
  }

  // ----- branches

  /** The node that is hashed together with node `i` of a level of `width` nodes. */
  function Partner(i: nat, width: nat): nat
    requires width > 0
  {
    var sibling := if i % 2 == 0 then i + 1 else i - 1;
    if sibling < width - 1 then sibling else width - 1
  }

  /** The partners on the way from node `i` at `height` to the root. */
  ghost function BranchFrom(f: (Hash, Hash) -> Hash, ids: seq<Hash>, height: nat, i: nat): seq<Hash>
    decreases CalcTreeWidth(|ids|, height)
  {
    var width := CalcTreeWidth(|ids|, height);
    if |ids| >= 1 && width > 1 then
      WidthShrinks(|ids|, height);
      [CalcHash(f, ids, height, Partner(i, width))] + BranchFrom(f, ids, height + 1, i / 2)
    else []
  }

  method GetMerkleBranch(f: (Hash, Hash) -> Hash, ids: seq<Hash>, vMerkleTree: seq<Hash>, nIndex: nat) returns (branch: seq<Hash>)
    requires vMerkleTree == [] || (ids != [] && vMerkleTree == Levels(f, ids, Height(|ids|)))
    ensures branch == BranchFrom(f, ids, 0, nIndex)
  {
    hide BranchFrom, Levels, Level, Offset, CalcHash, HeightFrom, CalcTreeWidth;
    WidthAtLeaves(|ids|);
    StartOfTree(f, ids, nIndex);
    var tree := vMerkleTree;
    if tree == [] {
      var root;
      tree, root := BuildMerkleTree(f, ids);
    }
    branch := [];
    var i, j, nSize := nIndex, 0, |ids|;
    ghost var height := 0;
    while nSize > 1
      invariant branch + BranchFrom(f, ids, height, i) == BranchFrom(f, ids, 0, nIndex)
      invariant nSize <= 1 ==> BranchFrom(f, ids, height, i) == []
      invariant ids != [] ==> nSize == CalcTreeWidth(|ids|, height) && j == Offset(f, ids, height)
      invariant ids != [] ==> tree == Levels(f, ids, Height(|ids|)) && Height(|ids|) == HeightFrom(|ids|, height)
      invariant ids == [] ==> nSize == 0
      decreases nSize
    {
      WidthShrinks(|ids|, height);
      WidthHalves(|ids|, height);
      var k := Partner(i, nSize);
      NodeInTree(f, ids, height, k);
      BranchNext(f, ids, height, i);
      branch := branch + [tree[j + k]];
      i, j, nSize, height := i / 2, j + nSize, (nSize + 1) / 2, height + 1;
    }
  }

  lemma {:induction false} LevelInside(f: (Hash, Hash) -> Hash, ids: seq<Hash>, height: nat, top: nat)
    requires height <= top
    ensures Offset(f, ids, height) + CalcTreeWidth(|ids|, height) <= |Levels(f, ids, top)|
    ensures forall k | 0 <= k < CalcTreeWidth(|ids|, height) ::
              Levels(f, ids, top)[Offset(f, ids, height) + k] == Level(f, ids, height)[k]
  {
    if height < top {
      LevelInside(f, ids, height, top - 1);
    }
  }

  lemma StartOfTree(f: (Hash, Hash) -> Hash, ids: seq<Hash>, i: nat)
    ensures Offset(f, ids, 0) == 0
    ensures |ids| <= 1 ==> BranchFrom(f, ids, 0, i) == []
  {
  }

  /** Where a node below the root stands in the flat array, and what follows its level. */
  lemma NodeInTree(f: (Hash, Hash) -> Hash, ids: seq<Hash>, height: nat, pos: nat)
    requires ids != [] && pos < CalcTreeWidth(|ids|, height) && CalcTreeWidth(|ids|, height) > 1
    requires HeightFrom(|ids|, height) == Height(|ids|)
    ensures Offset(f, ids, height) + pos < |Levels(f, ids, Height(|ids|))|
    ensures Levels(f, ids, Height(|ids|))[Offset(f, ids, height) + pos] == CalcHash(f, ids, height, pos)
    ensures Offset(f, ids, height + 1) == Offset(f, ids, height) + CalcTreeWidth(|ids|, height)
    ensures HeightFrom(|ids|, height + 1) == Height(|ids|)
  {
    HeightIsRoot(|ids|, height);
    LevelInside(f, ids, height, Height(|ids|));
    assert Level(f, ids, height)[pos] == CalcHash(f, ids, height, pos);
  }

  lemma BranchNext(f: (Hash, Hash) -> Hash, ids: seq<Hash>, height: nat, i: nat)
    requires ids != [] && CalcTreeWidth(|ids|, height) > 1
    ensures BranchFrom(f, ids, height, i) ==
            [CalcHash(f, ids, height, Partner(i, CalcTreeWidth(|ids|, height)))] + BranchFrom(f, ids, height + 1, i / 2)
    ensures CalcTreeWidth(|ids|, height + 1) <= 1 ==> BranchFrom(f, ids, height + 1, i / 2) == []
  {
  }

  /** What CheckMerkleBranch computes. */
  function Fold(f: (Hash, Hash) -> Hash, hash: Hash, branch: seq<Hash>, i: nat): Hash
    decreases |branch|
  {
    if branch == [] then hash
    else Fold(f, if i % 2 == 1 then f(branch[0], hash) else f(hash, branch[0]), branch[1..], i / 2)
  }

  method CheckMerkleBranch(f: (Hash, Hash) -> Hash, hash: Hash, vMerkleBranch: seq<Hash>, nIndex: int) returns (r: Hash)
    requires nIndex >= -1
    ensures r == if nIndex == -1 then 0 else Fold(f, hash, vMerkleBranch, nIndex)
  {
    if nIndex == -1 {
      return 0;
    }
    r := hash;
    var i: nat := nIndex;
    for k := 0 to |vMerkleBranch|
      invariant Fold(f, r, vMerkleBranch[k..], i) == Fold(f, hash, vMerkleBranch, nIndex)
    {
      var otherside := vMerkleBranch[k];
      assert vMerkleBranch[k..][1..] == vMerkleBranch[k + 1..];
      r := if i % 2 == 1 then f(otherside, r) else f(r, otherside);
      i := i / 2;
    }
  }

  /** A node and its partner, in order, hash to their parent. */
  lemma PartnerMakesParent(f: (Hash, Hash) -> Hash, ids: seq<Hash>, height: nat, i: nat)
    requires ids != [] && i < CalcTreeWidth(|ids|, height) && CalcTreeWidth(|ids|, height) > 1
    ensures i / 2 < CalcTreeWidth(|ids|, height + 1)
    ensures var x, y := CalcHash(f, ids, height, i), CalcHash(f, ids, height, Partner(i, CalcTreeWidth(|ids|, height)));
            CalcHash(f, ids, height + 1, i / 2) == if i % 2 == 1 then f(y, x) else f(x, y)
  {
    hide CalcTreeWidth;
    WidthHalves(|ids|, height);
    Children(|ids|, height + 1, i / 2);
  }

  /** Completeness: the branch of every transaction leads from its hash to the root. */
  lemma {:induction false} BranchReachesRoot(f: (Hash, Hash) -> Hash, ids: seq<Hash>, height: nat, i: nat)
    requires ids != [] && i < CalcTreeWidth(|ids|, height) && HeightFrom(|ids|, height) == Height(|ids|)
    ensures Fold(f, CalcHash(f, ids, height, i), BranchFrom(f, ids, height, i), i) == Root(f, ids)
    decreases CalcTreeWidth(|ids|, height)
  {
    WidthJustEnough(|ids|, height);
    if CalcTreeWidth(|ids|, height) > 1 {
      WidthShrinks(|ids|, height);
      PartnerMakesParent(f, ids, height, i);
      BranchReachesRoot(f, ids, height + 1, i / 2);
      var branch := BranchFrom(f, ids, height, i);
      assert branch[1..] == BranchFrom(f, ids, height + 1, i / 2);
    }
  }

  ghost predicate Injective(f: (Hash, Hash) -> Hash) {
    forall a, b, c, d :: f(a, b) == f(c, d) ==> a == c && b == d
  }

  lemma HeadAndTail(a: seq<Hash>, b: seq<Hash>)
    requires a != [] && b != []
    ensures a == b <==> a[0] == b[0] && a[1..] == b[1..]
  {
    assert a == [a[0]] + a[1..] && b == [b[0]] + b[1..];
  }

  lemma StepAuthenticates(f: (Hash, Hash) -> Hash, ids: seq<Hash>, height: nat, i: nat, x: Hash, other: Hash, y: Hash)
    requires ids != [] && i < CalcTreeWidth(|ids|, height) && CalcTreeWidth(|ids|, height) > 1 && Injective(f)
    requires y == if i % 2 == 1 then f(other, x) else f(x, other)
    ensures i / 2 < CalcTreeWidth(|ids|, height + 1)
    ensures y == CalcHash(f, ids, height + 1, i / 2) <==>
            x == CalcHash(f, ids, height, i) && other == CalcHash(f, ids, height, Partner(i, CalcTreeWidth(|ids|, height)))
  {
    hide CalcHash, CalcTreeWidth;
    PartnerMakesParent(f, ids, height, i);
  }

  /** Soundness: whatever branch of the right length leads to the root, it starts at the hash
      of the transaction at that index, and is its branch. */
  lemma {:induction false} BranchAuthenticates(f: (Hash, Hash) -> Hash, ids: seq<Hash>, height: nat, i: nat, x: Hash, branch: seq<Hash>)
    requires ids != [] && i < CalcTreeWidth(|ids|, height) && HeightFrom(|ids|, height) == Height(|ids|)
    requires Injective(f) && height + |branch| == Height(|ids|)
    ensures Fold(f, x, branch, i) == Root(f, ids) <==>
            x == CalcHash(f, ids, height, i) && branch == BranchFrom(f, ids, height, i)
    decreases CalcTreeWidth(|ids|, height)
  {
    WidthJustEnough(|ids|, height);
    if CalcTreeWidth(|ids|, height) > 1 {
      WidthShrinks(|ids|, height);
      HeightIsRoot(|ids|, height + 1);
      var y := if i % 2 == 1 then f(branch[0], x) else f(x, branch[0]);
      StepAuthenticates(f, ids, height, i, x, branch[0], y);
      BranchAuthenticates(f, ids, height + 1, i / 2, y, branch[1..]);
      BranchNext(f, ids, height, i);
      HeadAndTail(branch, BranchFrom(f, ids, height, i));
    }
  }

  /** The two together, for a whole block. */
  lemma MerkleBranchIff(f: (Hash, Hash) -> Hash, ids: seq<Hash>, i: nat, x: Hash, branch: seq<Hash>)
    requires i < |ids| && Injective(f) && |branch| == Height(|ids|)
    ensures Fold(f, ids[i], BranchFrom(f, ids, 0, i), i) == Root(f, ids)
    ensures Fold(f, x, branch, i) == Root(f, ids) <==> x == ids[i] && branch == BranchFrom(f, ids, 0, i)
  {
    BranchReachesRoot(f, ids, 0, i);
    BranchAuthenticates(f, ids, 0, i, x, branch);
  }
}
