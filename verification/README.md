# What the chain keeps: a Dafny model

This project models the parts of a proof-of-stake Bitcoin node whose correctness spans many
functions, and proves what they are for.

- **Chain state** (`Transactions`, `SpentIndex`, `BlockTree`, `Storage`, `TxInputs`, `BlockConnect`,
  `BlockUndo`, `Replay`, `Supply`, `ChainLaws`, `StrayStake`, `Branches`, `Damage`, `ChainState`,
  `PartedRun`, `DamageRun`). A database holds, for each transaction, where it lies and who spent each of its
  outputs. Blocks are connected to it, disconnected from it, and whole branches exchanged.
  `Chain.Valid` says that the database is exactly what replaying its best chain gives, that the
  forward links are exactly the path to its best block, and that the recorded money supply is the
  value of what is unspent. The operations are specified from every state they can be called in; from
  a valid state where the best block in memory is that of the database they keep `Valid`, also when a
  block is invalid or the disk fails, and where the two have parted the exact condition for keeping
  it is proved. `ChainLaws` says what connecting means without any index, by the blocks of the chain.
- **Merkle structures** (`MerkleTree`, `PartialMerkle`): the flat array, branches, and the partial
  tree of BIP 37, section "Partial Merkle branch format".
- **Address manager** (`AddrTables`, `AddrMan`, `AddrDisk`): five tables that index one another.
  `Valid` is the consistency check of the source, and that every tried entry lies in its own bucket.
- **Block template** (`Template`, `Miner`, `TemplateBlock`, `SignedBlock`, `ForkChain`, `MarkerFork`,
  `ErasedFee`): the scheduling of pool transactions, and when the block made from it connects, with a
  coinstake or without.
- **Stake modifier** (`Headers`, `BlockTimes`, `Kernel`) and **targets** (`BigNum`, `Retarget`,
  `RetargetRuns`).
- **Codecs and streams** (`Base58`, `WordList`, `Mnemonic`, `Phrases`, `Messages`, `Net`), on
  `Radix` and `Arithmetic`.

Hashes, signatures and script evaluation are function parameters; they are taken to be injective
only where a lemma says so. The block files are a function from a transaction's hash and place to
the transaction. Which of the disk accesses succeed is a function parameter: the reads from the
block files and the commits of the database; writes in a database transaction go to memory and do
not fail (src/txdb-leveldb.h:141-145). A random draw is an arbitrary outcome. Objects that the
source updates in place are classes here; loops of the source are loops, each proved against a
function or predicate whose properties are then proved as lemmas.

Results that are not what one might expect, each with its exact condition or a concrete case:

- A block that overwrites the entry of a completely spent transaction connects, and is not taken
  back by disconnecting it (`BlockUndo.UndoBlock`, `BlockUndo.OverwriteIsLost`). On a chain whose
  coinbases start with their heights this does not happen (`Replay.ChainIsFresh`).
- Only proof-of-stake blocks confine coinstakes to index 1, so a proof-of-work block can carry one
  that issues any amount (`StrayStake.StrayCoinStakeConnects`); a chain from the genesis block on
  which this happens is built in `StrayStake.BuildStrayChain`. A block keeps to its subsidy exactly
  when such gains do not exceed what it leaves unclaimed (`Supply.BlockIssues`).
- `SetBestChain` records the new block as the best one even when a postponed block below it does not
  connect; the database then stays at the last block that did. `PartedRun.Part` is a run from the
  genesis block that ends so. The next block on top connects over the gap, and the database describes
  no chain any more (`PartedRun.ConnectOverGap`). A later reorganization disconnects blocks that were
  never connected, which frees the outputs they name: the database is right afterwards if and only
  if it had the fork and these blocks name nothing that the chain up to there has spent
  (`ChainState.DescribesIff`). `DamageRun.SpendAgain` is a run from the genesis block after which a
  coin that the best chain has spent is free in its database.
- A template is checked by the rules of the height below its block, so one made at the last height
  before the first script fork may spend an empty marker output, and its own block then does not
  connect (`MarkerFork.BuildForkChain` builds such a chain). `TemplateBlock.TemplateConnects` says
  exactly when a block made from a template connects.
- `SignBlock` erases what is later than the coinstake, but the coinstake was paid the fees of the
  whole template: if anything is erased the block does not connect (`SignedBlock.SignedConnects`).
  `ErasedFee.BuildErasedBlock` builds a chain, a template and the block that `SignBlock` makes of it,
  where this is the only thing wrong.
- The comment at src/main.h:2078 bounds the flag bits by 2N-1; a parent with a single child breaks
  it (`PartialMerkle.FlagBitsOfSingleChild`), and nothing else does (`PartialMerkle.FlagBitsBound`).
- Faster blocks can give an easier target, when the old target is so small that it vanishes, and when
  a block time falls back, which counts as on schedule; `Retarget.LaterIsEasier` has the exact
  condition over headers, `Retarget.LongerIsEasier` that of the rule. Both happen on chains with the
  times and targets that AcceptBlock demands: every such chain can be continued to the one
  (`RetargetRuns.FasterCanBeEasier`), and the other needs three blocks
  (`RetargetRuns.FallingBackCanBeEasier`).
- The test networks do not set the height and the limit of the second fork (src/chainparams.cpp:235-318),
  so both are zero there. Their first two stake blocks get the limit of before the fork, which exceeds
  the zero that applies (`Retarget.WithinLimit` has the exact condition), and every later stake block
  must have the target zero (`Retarget.ZeroTarget`); `RetargetRuns.FirstStakes` shows both on chains of
  these networks.
- `SelectTried` looks for the entry of a full bucket with the oldest success, but returns the place from
  which it has just swapped it away; unless it was drawn from its own place another entry is evicted
  (`AddrTables.PlaceOfDrawn`).
- While the first protocol lasts, block times that AcceptBlock takes can fall back far enough for two
  blocks of one window to compute a stake modifier (`Kernel.TwoInOneWindow`, on the main network's
  parameters); the exact condition is `Kernel.OnePerWindow`, and it always holds later on
  (`Kernel.RisesAfterFirstProtocol`).
- `DecodeBase58` drops leading zero bytes (`Base58.RoundTrip`); what follows its return at
  src/base58.cpp:77 never runs.
- From 128 bytes of entropy on, `MnemonicDecode` reads more checksum bits than were written
  (`Phrases.RoundTrip`).
- Fees never depend on coin age, and `GetMinFee` returns its base constant at once
  (src/main.cpp:1049), so the minimum fee is a constant here.

## Model

| member | source | states |
|---|---|---|
| SpentIndex.UndoTx | src/main.cpp:2291-2328 | a transaction whose inputs were free and whose hash was unknown is taken back exactly: every slot it marked is clear again, its entry is gone, nothing else changed |
| TxInputs.FetchInputs | src/main.cpp:2331-2407 | succeeds exactly when every input names an existing output with a slot, pending changes before the database, and no read of a block file failed; a failure is final exactly when nothing failed to be read and all the transactions exist |
| TxInputs.CheckPrevouts | src/main.cpp:2649-2686 | accepts exactly when every input is in range, mature, not younger than its spender, not an empty marker after the fork, and all values and running sums are money |
| TxInputs.SpendPrevouts | src/main.cpp:2690-2743 | accepts exactly when the outputs were free, all different, and signed for where signatures count; then exactly those slots carry the spender's place |
| TxInputs.ConnectInputs | src/main.cpp:2638-2781 | accepts exactly the transactions that satisfy all input, signature and fee rules, and spends exactly their inputs |
| ChainLaws.PrevoutOkIff | src/main.cpp:2649-2686 | on a chain whose blocks lie at different places, the checks of an input pass exactly when its output is of an earlier transaction of the chain, not later in time, with a value in range, `nCoinbaseMaturity` blocks deep if it is of a coinbase or coinstake, and no marker after the fork |
| ChainLaws.SpendsRipe | src/main.cpp:2663-2686 | on every connected chain, a transaction at height h spends an output from height g only if that stands earlier and is there, is not later in time, and if it is of a coinbase or coinstake only if h is at least g and the maturity; after the fork no marker |
| ChainLaws.FreeIff | src/main.cpp:2690-2743 | where a transaction of a block finds its inputs, an output is free exactly when an earlier transaction of the chain has it and none of them spends it |
| ChainLaws.UnspentIff | src/main.cpp:2690-2743 | the same for the index of a whole chain |
| ChainLaws.TxConnectsIff | src/main.cpp:2638-2781 | ConnectInputs accepts a transaction of a chain exactly when all it spends is ripe, unspent, different and signed for, sums are in range, and it leaves the least fee, all by the blocks alone |
| ChainLaws.ConnectsIff | src/main.cpp:2913-3056 | a block of new transactions connects on a chain exactly when its own checks pass, each transaction is lawful in that sense, the operations are within 400000, and the coinbase or the coinstake takes no more than the subsidy and the fees |
| ChainLaws.NoOutputLost | src/main.cpp:2959-2965 | whatever index a block connects to, what was free stays free exactly if the block does not spend it |
| BlockTree.IsConfirmedInNPrevBlocks | src/main.cpp:2271-2281 | says whether a place lies in one of the last so many blocks, and how deep the nearest of these is |
| BlockConnect.ConnectTransactions | src/main.cpp:2947-3031 | the loop accepts exactly when each transaction connects after the ones before it, overwrites nothing unspent, the operations stay within the limit, and the disk did not fail; its queued changes and totals are those of connecting them in order |
| BlockUndo.DisconnectTransactions | src/main.cpp:2783-2788 | the loop from the last transaction down gives what undoing each in turn gives, or fails where one has no slot |
| BlockUndo.UndoBlock | src/main.cpp:2783-2788 | disconnecting a block that connected restores the exact index if and only if none of its transactions had an entry before, also when they spend each other |
| BlockUndo.OverwriteIsLost | src/main.cpp:2959-2965 | a lone coinbase with the hash of a completely spent transaction connects, and disconnecting it loses the old entry |
| Replay.ChainIsFresh | src/main.cpp:2950-2965 | on a connected chain with heights in its coinbases, no transaction of a block was known before it, and the index knows exactly the transactions of the chain |
| Replay.NoDoubleSpend | src/main.cpp:2702-2706 | on such a chain all spent outputs are different, and each is marked in the index that replaying gives |
| Supply.ConnectTxTotal | src/main.cpp:2994-3014 | connecting a transaction changes the value of all unspent outputs by what it pays less what it takes |
| Supply.BlockTotal | src/main.cpp:3060-3061 | over a block, the value of all unspent outputs changes by total out less total in |
| Supply.BlockIssues | src/main.cpp:3033-3056 | a block adds exactly its subsidy and what stray coinstakes gain, less what it leaves unclaimed, which is never negative; so it keeps to its subsidy if and only if the stray gains do not exceed that; proof-of-stake blocks have none |
| Supply.SupplyBound | src/chainparams.cpp:25-66 | a connected chain without stray coinstakes holds at most fifteen billion coins and fifteen for each height |
| StrayStake.StrayCoinStakeConnects | src/main.cpp:3803-3814 | on any connected chain, at any height, a proof-of-work block with a payment and then a coinstake connects, whatever the coinstake pays, if both spend outputs that are free and mature; the supply grows by exactly what the three transactions pay less what they take |
| StrayStake.BuildStrayChain | src/main.cpp:3803-3814 | for any maturity there is a chain of proof-of-work blocks from the genesis block that connects and has issued all the money there may be on top of the premine |
| ChainState.FindFork | src/main.cpp:3096-3108 | the search ends at the highest common block of the two chains, or says that there is none |
| ChainState.Chain.ConnectBlock | src/main.cpp:2913-3073 | succeeds exactly when the block connects and the disk did not fail; then the index, the mint and the supply are those of connecting it, and else the database is untouched |
| ChainState.Chain.SetBestChainInner | src/main.cpp:3194-3216 | succeeds exactly when the block connects to the index that the database has and the disk did not fail, and else changes neither the database nor the links; on top of the database's own best block it keeps `Valid` |
| ChainState.Chain.DisconnectBranch | src/main.cpp:3124-3141 | disconnects the blocks down to the fork, on whatever index the database has: succeeds exactly when each of them can be disconnected and the disk did not fail |
| ChainState.Chain.Relink | src/main.cpp:3167-3175 | cuts the links of the old branch and sets those of the new one, and changes no other |
| ChainState.Chain.Reorganize | src/main.cpp:3092-3190 | succeeds exactly when there is a fork, the blocks down to it can be disconnected, those up to the new tip connect one on the other, and the disk did not fail; then the database is at the new tip with the index this gives and the links are moved, and else database and links are unchanged; keeps `Valid` if the database is clean at the fork |
| ChainState.Chain.FindIntermediate | src/main.cpp:3239-3251 | the lowest block of the new chain from which on all blocks outweigh the best chain |
| ChainState.Chain.ConnectPostponed | src/main.cpp:3264-3281 | afterwards the database is at the last postponed block that connects, and unless the disk failed the next one does not connect |
| ChainState.Chain.SetBestChain | src/main.cpp:3218-3335 | from any state: without disk failures the database ends at the new block if and only if there is a fork and every block above it is taken, and the block is made the best one if and only if this holds up to the intermediate block; on failure nothing has changed. Where memory and database agree, `Valid` is kept, and "is taken" means that it connects on the chain below it. Where they have parted, the database describes its chain afterwards exactly if disconnecting was clean |
| ChainState.Chain.AddToBlockIndex | src/main.cpp:3703-3774 | a new block is known afterwards, and becomes the best one only if it has more trust than the best one had, and then if its branch is taken up to the intermediate block; a best block with the most trust of all known ones still has it after every call that succeeds; all that SetBestChain states holds; a block on top of the best one leaves a database that describes its chain if and only if memory and database agreed before |
| ChainState.DescribesIff | src/main.cpp:3110-3157 | after a reorganization from a database below the best block in memory, the index is that of the chain if and only if the database had the fork and the blocks it never connected name neither an entry nor a spent output of the chain up to the fork |
| Damage.UndoDamages | src/main.cpp:2291-2328 | disconnecting blocks frees the outputs they name and removes their entries, and that is all, whether they were connected or not |
| Damage.DamageStays | src/main.cpp:3143-3157 | what was freed or removed wrongly below the fork stays so however the chain is continued |
| Damage.GapStays | src/main.cpp:3234-3238 | on a database that has skipped a block no continuation is described |
| Branches.UndoReplay | src/main.cpp:3124-3141 | disconnecting the blocks of a connected chain down to the fork gives the replayed index of the fork |
| PartedRun.Part | src/main.cpp:3264-3292 | from the genesis block: a block whose connect fails on the disk, then an invalid block on top of it; the best block in memory is then the invalid one, and the database is at the first |
| PartedRun.ConnectOverGap | src/main.cpp:3234-3238 | the next block on top of that connects to the lower database, which describes no chain afterwards |
| DamageRun.SpendAgain | src/main.cpp:3110-3157 | for any maturity, a run from the genesis block: the disk fails while a chain becomes known that spends the premine, then works; an invalid block spends the premine again and is recorded as the best one; a heavier branch has it disconnected, and the premine is free in the database of a chain that has spent it |
| ChainState.Chain.BestChainIsSound | src/main.cpp:2638-3175 | in every valid state: no output is spent twice, exactly the spent ones are marked, the recorded supply is the value of the unspent ones, and it is within the limit if no coinstake is stray |
| MerkleTree.BuildMerkleTree | src/main.h:879-896 | the flat array holds all levels of the recursive tree, leaves first, and its last node is the recursive root |
| MerkleTree.WidthHalves | src/main.h:2097-2100 | the width formula of the partial tree gives the level sizes of the flat one |
| MerkleTree.GetMerkleBranch | src/main.h:898-912 | reads from the array the partner of every node on the way up |
| MerkleTree.CheckMerkleBranch | src/main.h:914-927 | folds the branch onto the hash, on the side that the index says |
| MerkleTree.BranchReachesRoot | src/main.h:898-927 | the branch of every index leads to the root, for any number of transactions |
| MerkleTree.BranchAuthenticates | src/main.h:914-927 | with an injective hash, a branch of the right length leads to the root if and only if it is that node's branch and starts at its hash |
| MerkleTree.MerkleBranchIff | src/main.h:879-927 | both together for a whole block: the check passes exactly for the transaction at the index and its branch |
| PartialMerkle.CPartialMerkleTree.constructor | src/main.cpp:3536-3549 | the new tree holds the bits and hashes of the masked list at full height |
| PartialMerkle.CPartialMerkleTree.TraverseAndBuild | src/main.cpp:3477-3497 | appends the bits and hashes of a node and changes nothing before them |
| PartialMerkle.CPartialMerkleTree.TraverseAndExtract | src/main.cpp:3499-3534 | consumes from the given positions what the recursive decoder consumes, appends its matches, and flags bad data |
| PartialMerkle.CPartialMerkleTree.ExtractMatches | src/main.cpp:3553-3586 | the root and matches of the decoder if every size check passes, else zero |
| PartialMerkle.ExtractBuilt | src/main.cpp:3477-3534 | decoding what was built from any node gives its hash, its matches in order, and consumes exactly its bits and hashes |
| PartialMerkle.SizesOfNode | src/main.cpp:3562-3567 | a built node has no more hashes than leaves below it and no more hashes than bits |
| PartialMerkle.Pack | src/main.h:2126-2129 | bit p of the tree is bit p mod 8 of byte p div 8, and the padding is clear |
| PartialMerkle.Unpack | src/main.h:2117-2124 | eight bits from every byte |
| PartialMerkle.RoundTrip | src/main.cpp:3477-3586 | build, pack, unpack and extract: for every list within the size limit and every mask all checks pass, and out come the root and exactly the masked transactions in order |
| PartialMerkle.ExtractIsSound | src/main.cpp:3499-3586 | with an injective hash, whatever data yields the root of a list, its matches are the transactions of that list at the leaves that the decoder reached with a set bit, in order |
| PartialMerkle.NothingLeftOver | src/main.cpp:3575-3583 | data that was accepted is refused when a hash is appended, or bits that need another byte, and read the same with more padding |
| PartialMerkle.NothingMissing | src/main.cpp:3575-3583 | and refused when hashes or bytes are cut off |
| PartialMerkle.FlagBitsOfSingleChild | src/main.h:2078 | three transactions with the last matched need two hashes and four bits, one more than 2N-1 |
| PartialMerkle.FlagBits | src/main.h:2078 | there are two flag bits for each hash but one, and one more for each parent of a match that has a single child |
| PartialMerkle.FlagBitsBound | src/main.h:2078 | the bound of 2N-1 flag bits holds if and only if no node that leads to a match has a single child, and only the last node of a level can |
| AddrMan.CAddrMan.SwapRandom | src/addrman.cpp:104-122 | exchanges two places of vRandom and keeps it inverse to the positions in the entries |
| AddrMan.CAddrMan.SelectTried | src/addrman.cpp:124-146 | the first four places of a bucket get entries drawn from behind them; the place returned is that from which the drawn entry with the oldest success came, the first of these |
| AddrTables.PlaceOfDrawn | src/addrman.cpp:132-143 | what stands in the end at the place returned is the entry with the oldest success if and only if it was drawn from its own place |
| AddrMan.CAddrMan.FindOldest | src/addrman.cpp:173-185 | of the four drawn places of the bucket, the entry that was seen longest ago |
| AddrMan.CAddrMan.ShrinkNew | src/addrman.cpp:148-200 | one entry leaves the bucket: the first terrible one if there is any, else the oldest of four drawn; it loses one reference and ends with the last; everything stays consistent |
| AddrTables.WhenTerrible | src/addrman.cpp:36-54 | which entries are terrible: never one tried within a minute; one never tried by its time alone; one seen within a month by its failures |
| AddrMan.CAddrMan.MakeTried | src/addrman.cpp:202-258 | the entry leaves all new buckets for its tried bucket; if that is full, the entry at the place that SelectTried gives goes back to its own new bucket, or to the freed place when that is full too; everything stays consistent |
| AddrMan.CAddrMan.Good_ | src/addrman.cpp:260-309 | a known address becomes tried with the times of its success; an unknown one changes nothing |
| AddrMan.CAddrMan.Refresh | src/addrman.cpp:320-349 | updates the time only by news and adds services; asks for one more bucket only for a newer announcement of an entry in fewer than four |
| AddrMan.SeenLater | src/addrman.cpp:322-326 | an announcement never makes a known entry older nor newer than it says, and renews it only over an hour, or a day if it is itself a day old |
| AddrMan.CAddrMan.PutInBucket | src/addrman.cpp:358-366 | the entry goes into a bucket with room and nothing else changes; from a full one exactly the entry leaves that ShrinkNew is to choose, with one reference less, and ends if it was the last |
| AddrMan.CAddrMan.Add_ | src/addrman.cpp:311-368 | new exactly when routable and unknown; then known by its address, in the bucket for it and its source, with the announced time less the penalty; a known entry has its time renewed by news only, the services added, and goes, if at all, into the bucket for it and the announcing source, and only when announced later than seen, not tried and in fewer than four; what leaves a full bucket is ShrinkNew's choice |
| AddrMan.CAddrMan.Attempt_ | src/addrman.cpp:370-387 | counts the attempt of that entry and changes nothing else |
| AddrMan.CAddrMan.Connected_ | src/addrman.cpp:515-533 | renews a time that is more than twenty minutes old and changes nothing else |
| AddrMan.CAddrMan.GetAddr_ | src/addrman.cpp:499-513 | returns known addresses, no two the same, 23 percent of them but at most 2500, and stays consistent |
| AddrMan.OnePositionEach | src/addrman.cpp:444-445 | vRandom is as long as there are entries |
| AddrDisk.RenumberedOk | src/addrman.h:322-382 | giving all entries new numbers keeps all tables consistent |
| AddrMan.CAddrMan.Serialize | src/addrman.h:283-321 | the file holds every new entry, every tried entry and, for every bucket, the numbers of its entries, each once |
| AddrMan.CAddrMan.Unserialize | src/addrman.h:322-382 | reading a written file gives back all entries, addresses, bucket contents and reference counts up to renumbering; nothing is lost, the result is consistent |
| AddrDisk.RoomForNext | src/addrman.h:346-363 | no tried entry of a written file finds its bucket full |
| AddrDisk.CountedOneMore | src/addrman.h:365-381 | no entry of a written bucket finds its four references taken |
| Miner.ExamineInputs | src/miner.cpp:179-227 | which pool transactions one waits for, what its inputs are worth, and its aged value; a missing input leaves no trace |
| Miner.Collect | src/miner.cpp:166-266 | every candidate is queued if it waits for nothing and an orphan else, with all it waits for noted, and never both |
| Miner.TryTransaction | src/miner.cpp:288-370 | a transaction is taken exactly if it fits in size, operations, time, fee and connects after those taken, does not pay too little when fees count, and the disk works; one that is not taken leaves the trial state as it was; sorting changes to fees exactly when the part for high priorities runs out with it |
| Miner.TellDependers | src/miner.cpp:385-401 | everyone who waited for the last transaction knows of it, and is queued once when that was all |
| Miner.CreateNewBlock | src/miner.cpp:119-424 | each chosen transaction once, after its parents in the pool, fitting where it stands; the fees are the sum of theirs. Each try is of an open transaction that no open one is ahead of, in the order that counts then, and takes it exactly if it can; at the end none is open. Without a part for high priorities, no transaction that could stand in an earlier place has a higher fee per kilobyte, or the same and a higher priority. If the disk did not fail, every candidate left out waits for one that is out, or was turned down when its turn came |
| Miner.InOrder | src/miner.cpp:275-287 | what could have stood in an earlier place of the block is not ahead of what does, by fee or by priority as counted there |
| Miner.OrderChanges | src/miner.cpp:310-316 | the order changes at most once, from priorities to fees, right after the first try that fills the part for high priorities or has too low a priority for it |
| Template.WithinLimits | src/miner.cpp:289-296 | a template stays under its size and operation limits |
| Template.FeesBalance | src/miner.cpp:248-378 | the reported fees are what the transactions take in, each as the index then had it, less what they pay out |
| Template.NoOutputTwice | src/miner.cpp:321-370 | no output is spent by two transactions of a template, unless its source is on the chain and comes again in between |
| TemplateBlock.TemplateConnects | src/main.cpp:2913-3056 | a block with a coinbase, perhaps a coinstake, and the transactions of a template passes ConnectBlock if and only if the coinstake connects after the coinbase, no transaction spends what the coinstake spends, or an empty marker output where the height forbids that, or has a signature that the height does not accept, what the coinbase or coinstake takes is within the subsidy and the template's fees, and the operations are within the limit; ConnectBlock finds the fees that the template reports |
| TemplateBlock.NoMarkerAfterFork | src/main.cpp:2675-2679 | a template made after that fork spends no marker |
| ForkChain.BuildToFork | src/main.cpp:2913-3031 | for every maturity and fork height there is a chain from the genesis block to the fork whose every block connects on those below, of proof-of-stake blocks as soon as the first coins are mature |
| MarkerFork.MarkerTemplateFails | src/main.cpp:2675-2679 | at the fork height itself: a template, with a block whose coinstake, reward and operations are all in order, that does not connect because the template spends a marker |
| MarkerFork.BuildForkChain | src/main.cpp:2675-2679 | for every maturity and fork height there is such a chain from the genesis block, of proof-of-stake blocks as soon as the first coins are mature |
| SignedBlock.SignBlock | src/main.cpp:4205-4264 | a proof-of-stake template becomes the coinbase at the coinstake's time, the coinstake, and those transactions that are not later, in order |
| SignedBlock.KeptAssembled | src/main.cpp:4246-4252 | what is kept is a template again, since no transaction is earlier than one it spends from |
| SignedBlock.FeesKept | src/main.cpp:4246-4252 | every erased transaction takes at least the least fee with it |
| SignedBlock.SignedConnects | src/main.cpp:4238-4252 | a signed block whose coinstake takes the subsidy and the fees of the whole template connects if and only if nothing of the template is later than the coinstake, and the other conditions of a block from a template hold |
| ErasedFee.ErasedFails | src/main.cpp:4238-4252 | on a connected chain: a template whose only transaction is a second later than the coinstake, and the block that is left, with a coinstake that connects and was paid the subsidy and the fee; all conditions of SignedConnects but that of times hold, and the block does not connect |
| ErasedFee.BuildErasedBlock | src/main.cpp:4205-4264 | for every maturity and fork height there is such a chain from the genesis block, and SignBlock itself makes this block of the template |
| Kernel.GetLastStakeModifier | src/kernel.cpp:25-36 | the modifier and time of the block nearest to the given one, itself included, that generated one; fails if there is none down to the root |
| Kernel.StakeFavoured | src/kernel.cpp:96-101 | the selection number of a stake block is its hash without the last 32 bits, of another block the hash |
| Kernel.SectionsGrow | src/kernel.cpp:57-60 | the selection sections grow, from a third of the modifier interval up to all of it |
| Kernel.SelectBlockFromCandidates | src/kernel.cpp:73-119 | picks, of the candidates not taken and not after the stop, the one with the least selection hash; if there is none, the earliest not taken; fails only when all are taken |
| Kernel.PicksDistinct | src/kernel.cpp:228-242 | no two rounds pick the same block |
| Kernel.SomeLeft | src/kernel.cpp:226-235 | every round has a candidate left |
| Kernel.StopsAtBoundary | src/kernel.cpp:212-232 | the stops move forward every round, and the 64th is the start of the last block's window |
| Kernel.ComputeNextStakeModifier | src/kernel.cpp:184-274 | keeps the last modifier within its window; else the new one has the entropy bits of the blocks picked in up to 64 rounds, at least one, from exactly the blocks of the chain with none from them on earlier than the selection interval; never fails for want of a block |
| Kernel.CandidatesAre | src/kernel.cpp:215-222 | the candidates are exactly the blocks down to the first that is earlier than the start |
| Kernel.OnePerWindow | src/kernel.cpp:196-204 | the windows of the blocks that compute modifiers rise along a chain if and only if each of these blocks is past the window of the last one before it |
| BlockTimes.GetMedianTimePast | src/main.h:1325-1338 | the middle one of the last eleven times in order, or of all if there are fewer |
| BlockTimes.CheckTime | src/main.cpp:3913-3918 | the checks of AcceptBlock on the time of a block |
| Kernel.RisingTimes | src/kernel.cpp:196-204 | when block times never fall, that condition holds |
| Kernel.WindowsDiffer | src/main.cpp:3913-3918 | with times that AcceptBlock takes, the same condition is exact for no two of them to lie in one window |
| Kernel.RisesAfterFirstProtocol | src/main.h:1315-1321 | blocks after the first protocol always meet it, so the chain up to there decides |
| Kernel.CarriesModifier | src/main.cpp:3733-3738 | every block carries the modifier of the nearest block that generated one |
| Kernel.TwoInOneWindow | src/kernel.cpp:196-204 | on the main network's genesis block and parameters: four more blocks with times that AcceptBlock takes, the last of which computes a modifier in the window of the first |
| BigNum.MinimalIsMpi | src/bignum.h:309-319 | bytes with sign that could not be shorter are those that their number gives |
| BigNum.CBigNum.SetCompact | src/bignum.h:321-332 | the number of the 32 bits, with sign and length |
| BigNum.CompactValue | src/bignum.h:321-332 | the number is the low 23 bits with the sign of bit 23, times 256 to the power of the first byte less three |
| BigNum.CBigNum.GetCompact | src/bignum.h:333-344 | the length and first three bytes of the number in 32 bits; nothing is lost if and only if there are fewer than 256 bytes |
| BigNum.CompactRoundTrip | src/bignum.h:321-344 | decoding and encoding gives the same 32 bits if and only if they are canonical |
| BigNum.CompactTruncates | src/bignum.h:333-344 | encoding never rounds up and loses less than a unit of the third byte |
| BigNum.CompactMonotone | src/bignum.h:333-344 | encoding keeps the order of numbers |
| Retarget.GetNextTargetRequired | src/main.cpp:2076-2141 | the bits that the retarget rule gives for the last two blocks of the kind |
| Retarget.LastOfKindIs | src/main.cpp:2060-2065 | the block that is searched for is that of the kind with none of the kind between it and the start, or the root if there is none: one block for each chain |
| Retarget.NextBitsIs | src/main.cpp:2078-2093 | the bits by these two blocks: the limit if one of them is the root, else the rule for their times and the bits of the later one |
| Retarget.MovesByError | src/main.cpp:2124-2138 | a target below the limit has moved by twice the error in the spacing, per timespan and one spacing more, rounded down; the timespan is 1680 seconds from height 639000 on, as 240 does not divide 1800 |
| Retarget.CountsAs | src/main.cpp:2105-2122 | a negative time counts as on schedule, one of more than ten spacings after the first fork as ten, of more than twenty after the second as twenty |
| Retarget.WithinLimit | src/main.cpp:2084-2138 | the new target is within the limit that applies if and only if there are two earlier blocks of the kind, or the limit of the second fork does not apply, or the limit of before it is no higher |
| Retarget.LongerIsEasier | src/main.cpp:2105-2138 | for any two times, also negative ones, the longer one gives no harder target if and only if it makes the target vanish or scales it to the limit, or the shorter one does not make it vanish and is not negative while the longer one is ahead of schedule |
| Retarget.ZeroTarget | src/main.cpp:2078-2138 | the required bits are zero if and only if the limit of the second fork applies and is zero and two stake blocks came before; no other required bits are of a zero target |
| Retarget.LaterIsEasier | src/main.cpp:2096-2140 | for two chains that differ only in the time of the last block, the later time never gives a harder target in the required bits if and only if it gives the encoded limit, or the earlier time does not make the target vanish and does not fall back while the later one is ahead of schedule; the time does not matter for the other kind and for the first two blocks |
| RetargetRuns.FasterCanBeEasier | src/main.cpp:2132-2138 | every chain with accepted times and targets has a continuation of stake blocks sixteen seconds apart, again accepted, that ends at the target 1; after it the required target is the limit, while the same last block on schedule leaves 1 |
| RetargetRuns.FallingBackCanBeEasier | src/main.cpp:2106-2107 | two accepted chains of three blocks on the genesis block, equal but for the last time: falling back one second behind the block before gives an easier target than coming at the same second |
| RetargetRuns.FirstStakes | src/chainparams.cpp:235-318 | on both test networks, after any number of proof-of-work blocks, the first two stake blocks get targets above the limit, which is zero, and the third must have the target zero |
| Retarget.OnScheduleUnchanged | src/main.cpp:2106-2140 | on schedule, and where time falls back, a canonical target within the limit stays bit for bit |
| Retarget.BoundedRise | src/main.cpp:2115-2130 | after the first fork a target that does not vanish rises by at most (I+19)/(I+1) |
| Base58.RoomSuffices | src/base58.cpp:121 | 58 to the number of digits reserved is at least 256 to the number of bytes, for every length |
| Base58.TimesPlus | src/base58.cpp:124-131 | one pass over the digits multiplies by 256 and adds a byte, in place, with what does not fit in the carry |
| Base58.EncodeBase58 | src/base58.cpp:113-145 | one '1' for each leading zero and the base 58 digits of the rest; the carry is always spent |
| Base58.DecodeBase58 | src/base58.cpp:29-77 | the bytes of the number in the digits, after spaces and '1's, with spaces allowed behind; anything else is refused |
| Base58.AlphabetIs | src/base58.cpp:27 | the alphabet is exactly the digits and letters without 0, I, O and l |
| Base58.DecodesBody | src/base58.cpp:39-77 | digits between spaces decode to the bytes of the number that they stand for, '1's in front or not |
| Base58.DecodesOnlyBody | src/base58.cpp:39-77 | and nothing else decodes |
| Base58.DecodesEncoded | src/base58.cpp:29-145 | decoding an encoded string gives its bytes without leading zeros |
| Base58.RoundTrip | src/base58.cpp:29-145 | the round trip is exact if and only if the first byte is not zero |
| WordList.GetWord | src/extkey.cpp:897-919 | the word on a line of the list, or failure when there is no such line |
| WordList.LineStands | src/extkey.cpp:897-919 | line o is what stands between newline o and the next |
| WordList.GetWordOffset | src/extkey.cpp:922-954 | the first line that is the word, or failure when none is |
| WordList.OffsetOfWord | src/extkey.cpp:897-954 | in a list of different words the two are inverse |
| WordList.PhraseTokens | src/extkey.cpp:1102-1157 | splitting joined words gives the words back |
| Mnemonic.CutWords | src/extkey.cpp:1056-1085 | the words are the bits of the bytes, eleven at a time, the last one going on beyond them |
| Mnemonic.PackWords | src/extkey.cpp:1167-1200 | the bytes hold the words' bits in order, and clear bits after them |
| Mnemonic.ChecksumMeans | src/extkey.cpp:1205-1236 | below 96 words the checksum test passes if and only if the words are the entropy in them followed by the front of its hash |
| Phrases.MnemonicEncode | src/extkey.cpp:1030-1111 | the phrase of the words, or the error code for entropy out of range or a list too short |
| Phrases.MnemonicDecode | src/extkey.cpp:1114-1239 | the entropy in the phrase, or the error code for its length, an unknown word, the number of words, or the checksum |
| Phrases.DecodeErrors | src/extkey.cpp:1114-1239 | which error a phrase gives: 2 exactly for its length, 3 exactly for a word that is no line of the list, 4 exactly for a number of words that is not a multiple of three, else only 5 |
| Phrases.RoundTrip | src/extkey.cpp:1030-1239 | a phrase short enough to read decodes to its entropy if and only if that is shorter than 128 bytes |
| Phrases.EncodesAgain | src/extkey.cpp:1030-1239 | the entropy of an accepted phrase of up to 93 words encodes to the same words |
| Net.CNetMessage.readHeader | src/net.cpp:700-729 | takes as much as the header lacks, at least one byte; rejects exactly a complete header that announces too much |
| Net.CNetMessage.readData | src/net.cpp:733-745 | takes as much as the message lacks, at least one byte |
| Net.CNode.ReceiveMsgBytes | src/net.cpp:669-698 | the queue afterwards is what absorbing the bytes one at a time gives; false exactly when that rejects |
| Messages.AbsorbIsParse | src/net.cpp:669-745 | absorbing byte by byte is parsing the stream from its front |
| Messages.CuttingDoesNotMatter | src/net.cpp:669-698 | however a stream is cut into chunks, verdict and messages are those of the whole |
| Messages.ParseKeepsBytes | src/net.cpp:700-745 | no byte is lost or added, and only the last message may be incomplete |
| Messages.ParseOfBytes | src/net.cpp:700-745 | the bytes of acceptable messages, all but the last complete, parse to these messages |
| Messages.AcceptedIff | src/net.cpp:669-745 | a stream is accepted if and only if it is the bytes of such messages |
| Messages.SizeIs | src/protocol.h:35-42 | the size is in bytes 16 to 19 of the header, the least significant first |

## Left out

- TxInputs.ConnectInputs: transparent transactions only; ring signatures and anon inputs are another protocol.
- TxInputs.FetchInputs: not the mode of the memory pool, where inputs may be missing from the database; reads of the database itself do not fail.
- ChainState.Chain.ConnectBlock: not its checking mode without connecting (fJustCheck), the on-disk record of the next block, address indexes or wallets.
- ChainState.Chain.SetBestChain: not the first block ever, nor the pool transactions that are resurrected or deleted afterwards; the block trust is any number.
- BlockConnect.ConnectTransactions: sums over a block are unbounded integers; that 64 bits suffice rests on the range checks of single transactions.
- Miner.CreateNewBlock: priorities are real numbers, so rounding of doubles is not modelled; the heap is its specification, an entry that none is ahead of; the header's time and the coinbase's scripts are left out. An input that waits for the pool must not be followed by a missing one, where the source would keep a pointer to a dropped orphan.
- AddrMan.CAddrMan.Unserialize: only files that the writing code wrote, with the same number of new buckets; other bucket counts are read back by recomputing buckets.
- AddrMan.CAddrMan.Good_: for a positive time, as callers pass the current one; with time zero the source's own consistency check would fail for the tried entry.
- Retarget.GetNextTargetRequired: the last block must exist, as the source reads its height before it tests for null.
- Phrases.MnemonicEncode: not for the few entropy lengths, none of them whole groups of four bytes, where the last word would need bits from beyond the source's buffer; choosing and detecting languages and the Japanese space are left out.
- Base58.DecodeBase58: strings without zero characters, as C strings are.
- GetChance and Select_ of the address manager: probabilities and floating point.
- The thin-client copies of chain, modifier and target code: near duplicates, some of which differ by age.
- GetCoinAge and stake kernels beyond the modifier: coin age does not enter rewards here, and kernel hashes are opaque.
- MarkerFork.MarkerTemplateFails: the memory pool simply holds the spender of the marker; whether AcceptToMemoryPool would admit it (AreInputsStandard) is not part of this model.
- ForkChain.BuildToFork: kernels, signatures and targets of its blocks are not part of this model; every signature holds.
- RetargetRuns.FasterCanBeEasier: that coins for the stake blocks exist and their kernels meet the targets is not part of this model; of AcceptBlock it has the heights, times and targets.
- SignedBlock.SignBlock: the search for a kernel, the signature and the new Merkle root; what the wallet found is a parameter.
- BlockTimes.CheckTime: the other checks of AcceptBlock, among them the times of coinbase and coinstake, the target and the last height of proof-of-work.
- Files, sockets, threads, locks and logging: they enter as parameters or arbitrary outcomes.
- The framing of the disk files of blocks, block locators, bloom filters, alerts, RPC and wallets.
