/** Transactions, blocks and the spent index, as values.

    Only transparent transactions are modelled: no input is an anon input and no
    version is ANON_TXN_VERSION.  A transaction carries its own hash, serialized size and
    signature-operation count, because hashing, serialization and script parsing are
    not part of the model. */
module Transactions {

  const COIN: int := 100_000_000
  const MAX_MONEY: int := 75_000_000_000 * COIN
  const MAX_BLOCK_SIZE: nat := 20_000_000
  const MAX_BLOCK_SIGOPS: nat := MAX_BLOCK_SIZE / 50
  const MIN_TX_FEE: int := 10_000

  type Txid = nat

  datatype OutPoint = OutPoint(hash: Txid, n: nat) {
    predicate IsNull() { hash == 0 && n == 0xffff_ffff }
  }

  datatype TxOut = TxOut(nValue: int, script: seq<nat>) {
    predicate IsEmpty() { nValue == 0 && script == [] }
  }

  /** `nCoinbaseHeight` is the height that the script of a coinbase input starts with. */
  datatype Tx = Tx(hash: Txid, nTime: nat, vin: seq<OutPoint>, vout: seq<TxOut>,
                   nCoinbaseScriptSize: nat, nCoinbaseHeight: nat, nSize: nat, nLegacySigOps: nat)
  {
    predicate IsCoinBase() {
      |vin| == 1 && vin[0].IsNull() && |vout| >= 1
    }

    predicate IsCoinStake() {
      |vin| > 0 && !vin[0].IsNull() && |vout| >= 2 && vout[0].IsEmpty()
    }
  }

  predicate MoneyRange(v: int) { 0 <= v <= MAX_MONEY }

  function ValueOf(vout: seq<TxOut>): int {
    if vout == [] then 0 else ValueOf(vout[..|vout| - 1]) + vout[|vout| - 1].nValue
  }

  /** Where a transaction lies in the block files; `Null` is the position whose file
      number is -1, the mark of an output that is not spent. */
  datatype DiskTxPos = Null | At(nFile: nat, nBlockPos: nat, nTxPos: nat)

  datatype TxIndex = TxIndex(pos: DiskTxPos, vSpent: seq<DiskTxPos>) {
    predicate AllSpent() { forall n | 0 <= n < |vSpent| :: vSpent[n] != Null }
  }

  type Index = map<Txid, TxIndex>

  function NewEntry(tx: Tx, pos: DiskTxPos): TxIndex {
    TxIndex(pos, seq(|tx.vout|, _ => Null))
  }

  datatype Block = Block(vtx: seq<Tx>) {
    predicate IsProofOfStake() { |vtx| > 1 && vtx[1].IsCoinStake() }
  }

  /** The flags that scripts are verified with: those of blocks before and after the fork, and
      the ones mandatory for what goes into a new block. */
  datatype ScriptRules = OldBlock | Fork1Block | Mandatory

  /** Everything the chain code reads but does not compute here: the block files, script
      verification, the context-free block checks that need hashes or a clock, and the
      parameters of the network. */
  datatype World = World(
    readTx: (Txid, DiskTxPos) -> Tx,
    verifySignature: (Tx, Tx, nat, ScriptRules) -> bool,
    p2shSigOps: (Tx, nat, TxOut) -> nat,
    otherBlockChecks: Block -> bool,
    nCoinbaseMaturity: nat,
    nCheckpointHeight: nat,
    nStartPosv2Block: int,
    nStartPosvFork1Block: int)
  {
    predicate IsProtocolV1(nHeight: int) { nHeight < nStartPosv2Block }
    predicate IsProtocolVFork1(nHeight: int) { nHeight > nStartPosvFork1Block }
  }

  function CompactSizeBytes(n: nat): nat {
    if n < 253 then 1 else if n <= 0xffff then 3 else if n <= 0xffff_ffff then 5 else 9
  }

  function SizesUpTo(vtx: seq<Tx>, k: nat): nat
    requires k <= |vtx|
  {
    if k == 0 then 0 else SizesUpTo(vtx, k - 1) + vtx[k - 1].nSize
  }
}
