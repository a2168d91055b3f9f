/** The nodes of the block tree. */
module BlockTree {
  import opened Transactions

  /** CBlockIndex.  What AddToBlockIndex sets once is constant here; the fields that
      connecting and reorganizing update are variables.  `block` is what ReadFromDisk
      finds for this node. */
  class BlockIndex {
    const pprev: BlockIndex?
    const nHeight: nat
    const nFile: nat
    const nBlockPos: nat
    const nChainTrust: nat
    const block: Block
    var pnext: BlockIndex?
    var nMint: int
    var nMoneySupply: int

    constructor (prev: BlockIndex?, file: nat, blockPos: nat, trust: nat, b: Block)
      requires prev != null ==> prev.Linked()
      ensures pprev == prev && nHeight == (if prev == null then 0 else prev.nHeight + 1)
      ensures nFile == file && nBlockPos == blockPos && block == b
      ensures nChainTrust == (if prev == null then 0 else prev.nChainTrust) + trust
      ensures pnext == null && nMint == 0 && nMoneySupply == 0
      ensures Linked()
    {
      pprev := prev;
      nHeight := if prev == null then 0 else prev.nHeight + 1;
      nFile, nBlockPos, block := file, blockPos, b;
      nChainTrust := (if prev == null then 0 else prev.nChainTrust) + trust;
      pnext, nMint, nMoneySupply := null, 0, 0;
    }

    /** Heights count the steps to the root. */
    ghost predicate Linked()
      decreases nHeight
    {
      if pprev == null then nHeight == 0
      else nHeight == pprev.nHeight + 1 && pprev.Linked()
    }

    /** The blocks from the root to this one, at their heights. */
    ghost function Path(): (path: seq<BlockIndex>)
      requires Linked()
      ensures |path| == nHeight + 1 && path[nHeight] == this
      decreases nHeight
    {
      if pprev == null then [this] else pprev.Path() + [this]
    }

    /** Where transaction `k` of this block lies on disk. */
    function TxPos(k: nat): DiskTxPos
      requires k <= |block.vtx|
    {
      At(nFile, nBlockPos, nBlockPos + 80 + CompactSizeBytes(|block.vtx|) + SizesUpTo(block.vtx, k))
    }

    ghost predicate OnDisk(w: World) {
      forall k | 0 <= k < |block.vtx| :: w.readTx(block.vtx[k].hash, TxPos(k)) == block.vtx[k]
    }

    predicate HoldsPos(pos: DiskTxPos) {
      pos.At? && pos.nBlockPos == nBlockPos && pos.nFile == nFile
    }
  }

  /** A path is what every one of its blocks would give. */
  lemma {:induction false} PathPrefix(b: BlockIndex, h: nat)
    requires b.Linked() && h <= b.nHeight
    ensures b.Path()[h].Linked() && b.Path()[h].nHeight == h
    ensures b.Path()[h].Path() == b.Path()[..h + 1]
    decreases b.nHeight
  {
    if h < b.nHeight {
      PathPrefix(b.pprev, h);
      assert b.pprev.Path() == b.Path()[..b.nHeight];
      assert b.Path()[..h + 1] == b.pprev.Path()[..h + 1];
    } else {
      assert b.Path()[..h + 1] == b.Path();
    }
  }

  /** `pos` lies in one of the `depth` blocks that end at `from`. */
  ghost predicate ConfirmedWithin(pos: DiskTxPos, from: BlockIndex, depth: nat)
    requires from.Linked()
  {
    exists h: nat :: h <= from.nHeight < h + depth && from.Path()[h].HoldsPos(pos)
  }

  method IsConfirmedInNPrevBlocks(pos: DiskTxPos, from: BlockIndex, nMaxDepth: nat) returns (yes: bool, nActualDepth: nat)
    requires from.Linked()
    ensures yes <==> ConfirmedWithin(pos, from, nMaxDepth)
    ensures yes ==> nActualDepth <= from.nHeight && nActualDepth < nMaxDepth
    ensures yes ==> from.Path()[from.nHeight - nActualDepth].HoldsPos(pos)
    ensures yes ==> forall h: nat | from.nHeight - nActualDepth < h <= from.nHeight :: !from.Path()[h].HoldsPos(pos)
  {
    var pindex: BlockIndex? := from;
    nActualDepth := 0;
    while pindex != null && from.nHeight - pindex.nHeight < nMaxDepth
      invariant pindex != null ==> pindex.Linked() && pindex.nHeight <= from.nHeight
      invariant pindex != null ==> pindex == from.Path()[pindex.nHeight]
      invariant forall h: nat | h <= from.nHeight && (pindex != null ==> pindex.nHeight < h) :: !from.Path()[h].HoldsPos(pos)
      decreases if pindex == null then -1 else pindex.nHeight as int
    {
      if pindex.HoldsPos(pos) {
        return true, from.nHeight - pindex.nHeight;
      }
      PathPrefix(from, pindex.nHeight);
      pindex := pindex.pprev;
    }
    yes := false;
  }
}
