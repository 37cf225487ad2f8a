# XChain UTXO tracker: a verified model

The tracker follows a full node's chain and keeps, in a LevelDB store, every unspent output, the block and
script records behind its address queries, and enough undo records to roll back the last blocks. It stages
blocks into one open batch, commits the batch atomically with the tip pointer, prunes the undo records of blocks
that have left a window of `undoBlocks` blocks in a second batch, and answers address queries from two stores,
the confirmed one and an in-memory one for the node's mempool. A bulk path dumps a chain to files, validates it,
and rebuilds the same coins by sorting and joining two record streams.

This project models that behaviour in Dafny and proves it correct:

- **The index and its store.** `Chain`, `Index` and `Ledger` say what connecting and disconnecting a block means
  on maps, and what a chain's index is. `StoreKeys`, `StoreSteps`, `LevelUpStore`, `BlockStaging`, `StoreCleanup`,
  `StoreRollback` and `StorePrune` are the store's own operations on records and batches, each proved against the
  index it represents. `SyncSpec` is the sync loop as a state machine; `LastBlocks`, `TrackerState` and `Tracker`
  are the loop's object, whose methods refine that machine over the real records; `StoredRecords` tells every kind of
  stored record from the chain's own blocks and transactions; `ReorgWalk` and `SyncLoop` are the reorg walk and the
  loop's decisions.
- **Reads beside commits.** `StoreLock` is the cooperative lock, for any number of tasks; `MempoolStore`,
  `MempoolCommits` and `AddressReads` are the mempool store, what each commit does to it, and the two queries.
  `SpentOnce` and `ConfirmingSpends` say when a run of commits exposes a spent outpoint; `MempoolPass` puts the
  refresh pass beside a node that mines, relays and reorganizes; `LockedReads` runs queries and commits through the
  lock together.
- **Dumped chains.** `Merkle` and `ChainValidation`.
- **Byte formats.** `ByteCodec`, `MwebReader`, `Xdmp`, `RecordFiles`, `CanonicalJson`.
- **Two implementations of one result.** `BulkSync` and `StreamingJoin` against `Ledger`; `MergeWalk` and `Migrate`.
- **Tip readings.** `TipSettle`, and `SyncPass` for a whole pass of the loop and for runs of passes.

`dafny verify dfyconfig.toml` checks all of it.

## How to read it

`Play` in `Tracker` is the statement the first group builds up to: over any run of indexing, flushing, failed
commits, cleanups, discards, rollbacks and restarts, the stored outputs are those of replaying the stored chain from
genesis. `SpentOnce.UnspentOutputs` says which those are without replaying anything: the outputs no input takes.
`StoredRecords` puts the two together, record type by record type. The object carries one ghost field, `s`, the state of the `SyncSpec` machine; each method says which step of
that machine it takes, and `Valid` ties `s` to the records: the batch laid over the durable records holds exactly the
index of the chain with the staged blocks (`Holds`, key by key), and the durable records alone hold the index of the
committed chain with the blocks that left the window pruned (`Windowed`).

For reads, `LockedReads.LockedUtxos` and `MempoolPass.HeldSpendNeverServed` are the two ends: whatever the schedule,
an answer is the answer of one state of the two stores between two commits; and in no such state is an outpoint served
that a held transaction spends, as long as the node keeps that transaction. `ConfirmingSpends.NeverServedIff` says
exactly which commits would break the second. A function `book` from txids to transactions stands for the fact that a
txid is the hash of its transaction, and `Names` adds the same for block hashes.

Blocks are assumed to obey consensus (`ValidChain`): inputs exist when they are spent and are spent once, a txid is
never used again, each block names its predecessor, and each transaction has an output. Where the walk is compared
with the node, equal block hashes are assumed to name equal predecessors (`HashBinds`). Double hashing is a free
constructor, so it is injective and never yields a transaction's own hash.

## What the proofs show about the code

- Rolling a block back is exact if and only if each of its transactions has an output: the txids to forget are read
  off the block's output records, so a transaction without outputs leaves its record behind
  (`Index.DisconnectInverts`). Consensus excludes such transactions.
- A spend inside the batch that created the output writes its archive records into the same batch, so a crash between
  a flush and its cleanup leaves no window entry without its archive, whatever the comment at
  src/XChainUtxoTracker/last_blocks_window.js:32-41 suggests: the run catches up at its next flush
  (`SyncSpec.CrashGapHeals`), and every block of the stored window has all its undo records in every reachable state
  (`TrackerState.WindowComplete`).
- When two transactions in the mempool store spend one outpoint and one of them is dropped, the outpoint loses its
  spend mark although the other still spends it (`MempoolStore.ConflictLosesMark`); every held spend is marked at every
  boundary of a run if and only if no commit drops a transaction that shares a spend with one it keeps
  (`ConfirmingSpends.HeldSpendsMarkedIff`). A run gets there: a pass that may not delete stages a replacement beside the
  transaction it replaces, and the next pass at tip drops the replaced one. The replacement is held and listed, and what
  it spends is served until its block is committed (`MempoolPass.ReplacementServed`).
- Rolling back the block that spends an outpoint serves the outpoint until its spender is staged again, because the
  flush that committed the block dropped the mark (`ConfirmingSpends.RolledBackServed`). The code answers this with a
  refresh pass and a withdrawn readiness flag (src/XChainUtxoTracker/sync_loop_block_apply.js:326-341), not in the
  stores.
- Reading the listing before the tips protects a transaction mined in between, but not one whose block is undone in
  between: the pass then drops a transaction the node lists again, and what it spends is served until the next pass
  (`MempoolPass.UnminedServed`).
- Only a refused rollback to a lower tip holds later ones back. A refused walk begun on another block at our height, or
  on a next block that is not ours, is handed back to the tip check and sets no latch, so the very next pass may start
  a rollback (`SyncPass.HandedBackDoesNotBlock`, `SyncPass.HandedBackRun`).
- The canonical text determines a value up to key order and three things: an array holding only `undefined` prints as
  the empty array, a number that is not finite as null, negative zero as zero
  (`CanonicalJson.OneUndefinedPrintsAsEmpty`, `CanonicalJson.NonFinitePrintsAsNull`,
  `CanonicalJson.NegativeZeroPrintsAsZero`).
- Recovery from a node tip below the cursor reports a corrupt store when no block is committed yet
  (`SyncLoop.RecoverFromTipBelowOurs`), although the store is only empty.
- The walk's repair of the stored tip pointer never runs with a block committed: pointer and records agree in every
  reachable state (`TrackerState.CommittedTip`).

## Model

| member | source | states |
|---|---|---|
| Chain.ConsensusIsTwoPass | src/XChainUtxoTracker/sync_loop_block_apply.js:160-199 | Adding all of a block's outputs and then removing all its spends leaves the coins of applying its transactions one by one, spends before outputs; every spend is there to be removed, and once. |
| Chain.CreatedTxid | src/XChainUtxoTracker/transaction_parsing.js:115-155 | A coin of the block belongs to one of its transactions, at an output that transaction has, and carries the block's height. |
| Chain.TxTakes | src/XChainUtxoTracker/transaction_parsing.js:165-200 | A transaction spends exactly the outpoints its inputs name, coinbase and non-standard inputs aside. |
| Index.TwoPassesClosed | src/XChainUtxoTracker/sync_loop_block_apply.js:160-199 | Record by record, the two passes come to one closed form: pass 1 gains the block's coins, scripts and txids, pass 2 takes away its spends and archives those older than the block. |
| Index.ConnectClosed | src/XChainUtxoTracker/sync_loop_block_apply.js:122-156 | What staging a block does to every part of the index: coins, first-seen heights, txid records, block records, its own undo records, the window. |
| Index.UndoneParts | src/XChainUtxoTracker/reorg_verification.js:303-325 | For any fresh block a rollback restores the whole index except the txid records of transactions without outputs. |
| Index.CreatedTxidsCover | src/store/level_up_db/blocks_and_transactions.js:167-188 | The txids found through a block's output records are some of the block's, and all of them exactly when each transaction has an output. |
| Index.DisconnectInverts | src/XChainUtxoTracker/reorg_verification.js:303-325 | Rolling back the block just connected gives back the index as it was, including outputs created and spent inside it, if and only if each of its transactions has an output. |
| Ledger.PrefixValid | src/XChainUtxoTracker/sync_loop_block_apply.js:29-70 | Every prefix of a valid chain is one, so a rolled-back chain is still valid. |
| Ledger.HashesDistinct | src/XChainUtxoTracker/last_blocks_window.js:31-48 | No two blocks of a valid chain share a hash, so the window names each block once. |
| Ledger.ChainDescribed | src/store/level_up_db/blocks_and_transactions.js:101-107 | A chain's index has exactly one block record per block, at its height and naming its predecessor, and only coins and archives of known transactions. |
| Ledger.IndexCoinsAreReplay | src/XChainUtxoTracker/sync_loop_block_apply.js:160-199 | The coins of the live index are those of replaying the chain from genesis in consensus order. |
| Ledger.WindowIsSuffix | src/XChainUtxoTracker/last_blocks_window.js:91-134 | After pruning, the window and the undo records cover exactly the chain's last blocks. |
| Ledger.WindowedStep | src/XChainUtxoTracker/sync_loop_block_apply.js:122-156 | Staging a block on a pruned index gives the pruned index of the longer chain. |
| Ledger.WindowedBack | src/XChainUtxoTracker/reorg_verification.js:303-325 | Rolling the tip back on a pruned index gives the pruned index of the shorter chain. |
| Ledger.WindowedPrune | src/XChainUtxoTracker/last_blocks_window.js:251-271 | Pruning any set of blocks that covers the aged-out ones and touches none still in the window moves the window's start, and nothing else. |
| LevelUpStore.LevelUpStore.BeginTransaction | src/store/level_up_db/store_lifecycle.js:73-76 | A new batch is empty, so what the store will hold is what it holds. |
| LevelUpStore.LevelUpStore.EndTransaction | src/store/level_up_db/store_lifecycle.js:78-121 | A commit makes the whole batch durable or, when it fails, leaves batch and records as they were; a discard drops the batch and the script cache. |
| LevelUpStore.LevelUpStore.AddTransaction | src/store/level_up_db/blocks_and_transactions.js:36-56 | A write goes into the open batch, or straight to disk when none is open; either way the store's view takes it. |
| LevelUpStore.LevelUpStore.RemoveTransaction | src/store/level_up_db/blocks_and_transactions.js:78-97 | Takes a staged write out of the batch and says whether there was one. |
| LevelUpStore.LevelUpStore.InsertOutputScriptBlock | src/store/level_up_db/output_scripts.js:25-71 | A script's first block is recorded, with its per-block undo record, exactly when neither cache, batch nor disk knows the script; the cache never changes the outcome. |
| LevelUpStore.LevelUpStore.ResolveSpends | src/store/level_up_db/outputs.js:328-387 | All inputs are located, in cache, batch or on disk, before any is removed. |
| LevelUpStore.LevelUpStore.UnstageInMemorySpend | src/store/level_up_db/outputs.js:95-114 | Spending an output staged in the same batch takes its output and hint records out of the batch and nothing else. |
| LevelUpStore.LevelUpStore.WriteCrossBlockSpendRecovery | src/store/level_up_db/outputs.js:256-269 | Such a spend leaves archive records exactly when the output is older than the spending block. |
| LevelUpStore.LevelUpStore.StageSpend | src/store/level_up_db/outputs.js:328-387 | Whichever way an input was located, its output and hint go and, unless the same block created it, its archive records appear. |
| BlockStaging.ResolvedIsTruth | src/store/level_up_db/outputs.js:22-92 | Whatever cache, batch and disk say about an input is the truth about the coin it spends, in every state the loop can be in. |
| BlockStaging.InsertOutputRecords | src/XChainUtxoTracker/transaction_parsing.js:115-155 | One output's records, with the first-seen records its script may still need; the output record tells value, height, txid and coinbase flag. |
| BlockStaging.ParseTxOutputs | src/XChainUtxoTracker/transaction_parsing.js:115-155 | Pass 1 for a transaction stages exactly its coins; the cache agrees with them. |
| BlockStaging.ParseBlockOutputs | src/XChainUtxoTracker/sync_loop_block_apply.js:160-182 | Pass 1 for a block stages exactly its transactions' records and coins. |
| BlockStaging.CollectInputs | src/XChainUtxoTracker/sync_loop_block_apply.js:183-196 | Pass 2's input list is the block's spends in block order: an outpoint is on it exactly when an input names it that is neither a coinbase input (index 0xFFFFFFFF) nor flagged non-standard. |
| BlockStaging.RemoveOutputsWithInputsBatch | src/store/level_up_db/outputs.js:328-387 | Pass 2 removes and archives exactly the block's spends, though every one is looked up before the first is removed. |
| BlockStaging.StageRecords | src/XChainUtxoTracker/sync_loop_block_apply.js:122-156 | A block staged on a batch that holds an index leaves the batch holding the index with that block connected, the tip pointer and cleanup list untouched. |
| StoreSteps.HoldsAddOut | src/store/level_up_db/outputs.js:134-217 | One output's records are one step of the index, and the output record tells the coin. |
| StoreSteps.HoldsSpendOut | src/store/level_up_db/outputs.js:328-387 | One spend's records are one step of the index. |
| StoreCleanup.ProcessDeletedOutputs | src/store/level_up_db/output_cleanup.js:53-106 | Restoring (or only forgetting) a block's archive touches exactly its archive records and the outputs and hints they name. |
| StoreCleanup.RemoveCreatedOutputsInBlock | src/store/level_up_db/output_cleanup.js:115-141 | Exactly the outputs a block's records list are deleted, with their hints and those records. |
| StoreCleanup.RemoveOutputScriptsInBlock | src/store/level_up_db/output_scripts.js:79-108 | Exactly the scripts first seen in a block lose their records; the script cache is cleared only when there were any. |
| StoreCleanup.DeleteTxBlockRecord | src/store/level_up_db/blocks_and_transactions.js:195-217 | A transaction's records go only while they still name the block being removed. |
| StoreCleanup.DeleteTransactionsInBlock | src/store/level_up_db/blocks_and_transactions.js:167-188 | That for every transaction found through the block's output records, each once. |
| StoreCleanup.RemoveLastStoredBlock | src/store/level_up_db/store_lifecycle.js:161-172 | A window entry staged in the batch is cancelled, a durable one deleted. |
| StoreRollback.ConnectUnwindable | src/XChainUtxoTracker/reorg_verification.js:303-325 | A block just connected leaves undo records that account for all it changed. |
| StoreRollback.RollbackAt | src/XChainUtxoTracker/reorg_verification.js:303-325 | Record by record, the order of the five removal steps, later writes over earlier ones, comes to the index with the block disconnected. |
| StoreRollback.RollbackHolds | src/XChainUtxoTracker/reorg_verification.js:303-325 | Committing the staged rollback leaves the store holding the disconnected index. |
| StoreRollback.StageUndo | src/XChainUtxoTracker/reorg_verification.js:303-318 | Running the steps stages exactly those writes and none to the tip pointer or cleanup list. |
| StorePrune.PruneAgedBlockRecords | src/XChainUtxoTracker/last_blocks_window.js:251-271 | Exactly one block's undo records and window entry are deleted, its outputs, scripts and transactions left alone. |
| StorePrune.ForgottenHolds | src/XChainUtxoTracker/last_blocks_window.js:251-271 | Forgetting one more block is pruning it from the index. |
| StorePrune.StagePrune | src/XChainUtxoTracker/last_blocks_window.js:91-134 | One batch prunes every listed block, in any order and however often it is listed. |
| SyncSpec.StepWf | src/XChainUtxoTracker/sync_loop_block_apply.js:122-307 | Every step, with every failure it can meet, keeps the run invariant: a valid chain, a window that starts no later in memory than what the cleanup list still owes, fewer than 200 staged blocks. |
| SyncSpec.RunWf | src/XChainUtxoTracker/sync_loop.js:25-81 | So does every run. |
| SyncSpec.FlushTrimsWindow | src/XChainUtxoTracker/last_blocks_window.js:91-134 | After a flush and its cleanup, the flush of a full 200-block batch included, the stored window is the one in memory, at most `undoBlocks` long and ending at the tip, with nothing left to clean. |
| SyncSpec.IndexBlockTrimsWindow | src/XChainUtxoTracker/sync_loop_block_apply.js:203-242 | Every pass that indexes a block and flushes, because it was asked to or because the block fills the batch, ends there. |
| SyncSpec.QuietWindow | src/XChainUtxoTracker/last_blocks_window.js:91-134 | Whenever nothing is staged the stored window and the one in memory agree. |
| SyncSpec.FlushForgetsPending | src/XChainUtxoTracker/last_blocks_window.js:91-134 | A stale or replayed cleanup list makes no difference to what a flush leaves. |
| SyncSpec.CrashGapHeals | src/XChainUtxoTracker/sync_loop.js:94-128 | A crash between a flush's commit and its cleanup, then a restart and the next flush, either or both of them of a full batch, leave exactly the state of the run without the crash. |
| SyncSpec.FailedCommitLosesBatchOnly | src/XChainUtxoTracker/sync_loop_block_apply.js:222-242 | A commit that fails, or a crash before it, loses the batch and nothing durable. |
| SyncSpec.CleanupIdempotent | src/XChainUtxoTracker/last_blocks_window.js:91-134 | A cleanup, the one after a commit included, moves the stored window exactly up to the one in memory; running it again, or after a failed attempt, comes to the same. |
| LastBlocks.LoadLastBlocksSortedByHeight | src/XChainUtxoTracker/last_blocks_window.js:213-222 | Reads every stored window entry once, in ascending height. |
| LastBlocks.LoadedWindow | src/XChainUtxoTracker/last_blocks_window.js:213-222 | What is read back is the chain's last blocks in order, the tip last. |
| TrackerState.StageFits | src/XChainUtxoTracker/sync_loop_block_apply.js:29-70 | A block that extends the staged chain can be staged over the durable index. |
| TrackerState.CommitDurable | src/XChainUtxoTracker/sync_loop_block_apply.js:222-242 | The committed batch with its tip pointer and cleanup list makes the staged blocks durable. |
| TrackerState.CacheBack | src/XChainUtxoTracker/last_blocks_window.js:157-167 | The output cache, right for the staged index, is still right once the batch is dropped. |
| TrackerState.CleanPrunes | src/XChainUtxoTracker/last_blocks_window.js:91-134 | Cleaning the listed blocks that are not in the window prunes up to the window's start and no block still in it. |
| TrackerState.TipUnwinds | src/XChainUtxoTracker/reorg_verification.js:303-325 | Any tip still in the window can be rolled back, to the index of the chain without it. |
| TrackerState.RollbackCommits | src/XChainUtxoTracker/reorg_verification.js:303-350 | The rollback's batch, with the tip pointer moved to the previous hash and one height down, makes the shorter chain durable. |
| TrackerState.CommittedTip | src/XChainUtxoTracker/reorg_verification.js:195-224 | In every reachable state the tip pointer names the committed tip, and the block record there agrees. |
| TrackerState.DurableCoins | src/XChainUtxoTracker/reorg_verification.js:303-350 | In every reachable state there is an output record and a hint for each coin of replaying the stored chain from genesis, under its script, and for nothing else; each record tells its coin's value, height, txid and coinbase flag. |
| TrackerState.DurableDetermined | src/XChainUtxoTracker/sync_loop.js:94-128 | The machine's state decides the whole store: equal states mean equal stores, record for record. |
| TrackerState.WindowComplete | src/XChainUtxoTracker/last_blocks_window.js:91-134 | In every reachable state a block has its window entry, and all the undo records it was staged with, exactly from the window's start on. |
| StoredRecords.StoredOutputs | src/store/level_up_db/outputs.js:134-217 | In every reachable state exactly the outputs of the stored chain that no input of it takes have a record, under the script they pay, and value, height, txid and coinbase flag are those the transaction and the block gave them. |
| StoredRecords.StoredArchive | src/store/level_up_db/outputs.js:256-269 | A block still in the undo window, and no other, has an archive record and hint for exactly the older outputs its inputs take, telling each coin as it was before the block. |
| StoredRecords.StoredTransactions | src/store/level_up_db/blocks_and_transactions.js:109-160 | A transaction has its two records exactly when a block of the stored chain has it, and they name that block. |
| StoredRecords.StoredFirstSeen | src/XChainUtxoTracker/address_queries.js:67-76 | A script has a first-seen record exactly when a block of the stored chain pays it, and the record is the height of the first one that does. |
| StoredRecords.StoredBlockRecords | src/store/level_up_db/blocks_and_transactions.js:101-107 | There is a block record for exactly the blocks of the stored chain, with height, time and parent. |
| StoredRecords.StoredWindow | src/XChainUtxoTracker/last_blocks_window.js:91-134 | A block in the undo window has its window entry, a record for each output under the script it pays and one for each transaction; a block before it has none. |
| Tracker.UtxoTracker.AddToLastBlocks | src/XChainUtxoTracker/last_blocks_window.js:31-48 | Pushes the block on the window and moves what no longer fits to the cleanup list, oldest first. |
| Tracker.UtxoTracker.RemoveFromLastBlocks | src/XChainUtxoTracker/last_blocks_window.js:169-204 | Takes the tip out of the window, after one reload when it is not there; refuses an empty window and a block that is not last. |
| Tracker.UtxoTracker.StageBlock | src/XChainUtxoTracker/sync_loop_block_apply.js:122-156 | Stages the next block over the real records, as the machine's staging step. |
| Tracker.UtxoTracker.BlocksToClean | src/XChainUtxoTracker/last_blocks_window.js:91-110 | The cleanup's list: every pending block outside the window, once each. |
| Tracker.UtxoTracker.CleanupAgedBlocks | src/XChainUtxoTracker/last_blocks_window.js:91-134 | Prunes them and deletes the list in one batch, as the machine's cleanup step; a failure leaves everything for the next. |
| Tracker.UtxoTracker.CommitBatch | src/XChainUtxoTracker/sync_loop_block_apply.js:222-242 | Batch, tip pointer and cleanup list become durable together or not at all. |
| Tracker.UtxoTracker.FlushBatch | src/XChainUtxoTracker/sync_loop_block_apply.js:222-242 | A flush is a commit, then a cleanup, then the cursor. |
| Tracker.UtxoTracker.IndexBlock | src/XChainUtxoTracker/sync_loop_block_apply.js:122-156 | One pass behind the node's tip: staged, and flushed exactly when asked to or when it is the 200th staged block. |
| Tracker.UtxoTracker.FlushPendingAtTip | src/XChainUtxoTracker/sync_loop_block_apply.js:373-376 | At the node's tip the staged blocks are committed as they are. |
| Tracker.UtxoTracker.DiscardBatch | src/XChainUtxoTracker/last_blocks_window.js:157-167 | Drops the batch, saves the cleanup list on its own, reads the window back: the machine's discard step. |
| Tracker.UtxoTracker.RollBackTipBlock | src/XChainUtxoTracker/reorg_verification.js:303-350 | Removes exactly the committed tip in a batch of its own, or reports a failed commit with the window read back, or an empty window. |
| Tracker.UtxoTracker.CommitLastBlockPointerRepair | src/XChainUtxoTracker/last_blocks_window.js:241-247 | Pointing the tip at the block it names already changes no record. |
| Tracker.UtxoTracker.Restart | src/XChainUtxoTracker/sync_loop.js:94-128 | A start reads cursor, window and cleanup list back from disk: the machine's restart step, from any state. |
| Tracker.UtxoTracker.Perform | src/XChainUtxoTracker/sync_loop.js:25-81 | Every event the loop can meet takes the machine's step and keeps `Valid`. |
| Tracker.UtxoTracker.Play | src/XChainUtxoTracker/sync_loop.js:25-81 | Over any run the store has an output record and a hint for each coin of replaying the stored chain and for nothing else, each telling its coin's value, height, txid and coinbase flag; the cursor is the stored height plus `blocksQuantity`, which is at least 0 and below 200. |
| ReorgWalk.ForkIsHighestCommon | src/XChainUtxoTracker/reorg_verification.js:26-82 | Scanning down for an equal hash finds the highest common ancestor: the chains agree up to it and nowhere above. |
| ReorgWalk.ChainLinked | src/XChainUtxoTracker/sync_loop_block_apply.js:29-70 | Every valid chain is linked block to block, which is what the walk's results ask of it. |
| ReorgWalk.ReturnsExactlyWithinBudget | src/XChainUtxoTracker/reorg_verification.js:145-183 | With a shared genesis the walk returns if and only if that ancestor is within the budget, having removed exactly the blocks above it; otherwise it removed none, the tip gap alone being too large, or exactly the budget. |
| ReorgWalk.ReconciledIsPrefix | src/XChainUtxoTracker/reorg_verification.js:26-82 | A walk that returns leaves a prefix of the node's chain. |
| ReorgWalk.NodeBlockHashOrRetry | src/XChainUtxoTracker/reorg_node_reads.js:34-43 | The node's hash when it can be read; otherwise none, and the walk's tip is refreshed. |
| ReorgWalk.CompareTip | src/XChainUtxoTracker/reorg_verification.js:26-82 | One comparison calls the tips equal only when the whole committed chain is the node's, and refuses only a gap that exceeds the budget. |
| ReorgWalk.VerifyReorg | src/XChainUtxoTracker/reorg_verification.js:26-82 | Under any sequence of failed reads and failed commits the walk ends, unless ten commits in a row fail, as heights decide: it returns exactly when the fork is inside both the stored window and `undoBlocks`, having removed the blocks above the fork; it is refused at once exactly when the node's chain ends outside one of the two; otherwise it has removed what the smaller allows. |
| ReorgWalk.WalkBack | src/XChainUtxoTracker/reorg_verification.js:26-82 | The loop itself, for any budget: it ends in the verdict and with the number of removed blocks the two chains decide. |
| ReorgWalk.VerdictInHeights | src/XChainUtxoTracker/reorg_verification.js:145-183 | The verdict and the number of removed blocks, told by the fork, the start of the window and the configured depth. |
| SyncLoop.RollBackToAncestor | src/XChainUtxoTracker/sync_loop_block_apply.js:75-117 | Discard, walk, cleanup and cursor: the committed chain loses exactly the walk's blocks and nothing stays staged. |
| SyncLoop.WalkedInHeights | src/XChainUtxoTracker/sync_loop_block_apply.js:75-117 | The walk in it is decided by the fork, the start of the stored window and the configured depth. |
| SyncLoop.IndexNextBlock | src/XChainUtxoTracker/sync_loop_block_apply.js:29-70 | A block is staged exactly when it is the first or its parent hash is our tip's; any other is a reorg and is never staged. |
| SyncLoop.PollAtChainTip | src/XChainUtxoTracker/sync_loop_node_tip.js:262-299 | Above genesis a rollback starts exactly when the node answers another hash than our tip's; staged blocks are committed; synced is reported only with neither, and then the answered hash is the tip's. |
| SyncLoop.GetLastBlock | src/store/level_up_db/store_lifecycle.js:174-201 | The highest block record in the store. |
| SyncLoop.LastBlockIsTip | src/XChainUtxoTracker/sync_loop_node_tip.js:139-196 | In every reachable state that record is the committed tip's. |
| SyncLoop.RecoverFromTipBelowOurs | src/XChainUtxoTracker/sync_loop_node_tip.js:139-256 | Only committed blocks above the node's tip are walked back, by the same verdict; when none is, staged blocks are dropped and the committed chain stays. |
| StoreLock.StoreCommitLock.TryRead | src/XChainUtxoTracker/store_commit_lock.js:60-70 | A read enters exactly when no writer has claimed the lock, and waits otherwise. |
| StoreLock.StoreCommitLock.TryWrite | src/XChainUtxoTracker/store_commit_lock.js:73-84 | A commit claims the lock exactly when no other has, and runs at once only with no reader inside. |
| StoreLock.StoreCommitLock.FinishRead | src/XChainUtxoTracker/store_commit_lock.js:60-70 | A finished read leaves and wakes every waiter. |
| StoreLock.StoreCommitLock.FinishWrite | src/XChainUtxoTracker/store_commit_lock.js:73-84 | A finished commit releases the lock and wakes every waiter. |
| StoreLock.StepInv | src/XChainUtxoTracker/store_commit_lock.js:49-84 | Any task's step between two awaits keeps the invariant, for any number of tasks. |
| StoreLock.CommitAlone | src/XChainUtxoTracker/store_commit_lock.js:73-84 | A running commit excludes every read and every other commit. |
| StoreLock.WriterPreferred | src/XChainUtxoTracker/store_commit_lock.js:60-84 | Once a writer has claimed the lock no new reader enters. |
| StoreLock.NoLostWakeup | src/XChainUtxoTracker/store_commit_lock.js:49-57 | Whoever is parked, some task that is not will wake it. |
| StoreLock.NoDeadlock | src/XChainUtxoTracker/store_commit_lock.js:49-84 | While a task is unfinished, some task can step. |
| StoreLock.StepBurnsFuel | src/XChainUtxoTracker/store_commit_lock.js:49-84 | Every step uses up part of a bound, re-parking included. |
| StoreLock.ReadsAreAtomic | src/XChainUtxoTracker/store_commit_lock.js:60-84 | Along every schedule all that one read looks at is one state of the stores, as it was at the start or after a finished commit, never in the middle of one; commit after commit those states follow one another by whole scripts of changes; and no schedule goes on for ever. |
| StoreLock.EveryoneFinishes | src/XChainUtxoTracker/store_commit_lock.js:49-84 | A schedule that can go no further has finished every task. |
| MempoolStore.MempoolDb.ParseTransaction | src/XChainUtxoTracker/transaction_parsing.js:86-110 | Stages a transaction's spend marks with their hints, its outputs and its record. |
| MempoolStore.MempoolDb.Drop | src/store/level_up_db/inputs.js:56-83 | Drops a transaction's records, found through its hints. |
| MempoolStore.StageReflects | src/XChainUtxoTracker/mempool_refresh.js:251-283 | The store goes on reflecting the transactions held in it, every spend marked. |
| MempoolStore.DropReflects | src/XChainUtxoTracker/mempool_refresh.js:151-188 | Likewise after a drop. |
| MempoolStore.DropKeepsMarkIff | src/store/level_up_db/inputs.js:56-83 | A spend mark survives a drop if and only if the dropped transaction does not spend that outpoint too. |
| MempoolStore.DropMarked | src/store/level_up_db/inputs.js:56-83 | Without conflicting transactions every other held spend stays marked. |
| MempoolStore.ConflictLosesMark | src/store/level_up_db/inputs.js:56-83 | With two held spends of one outpoint, dropping one unmarks it although the other still spends it. |
| MempoolStore.ConflictExample | src/store/level_up_db/inputs.js:56-83 | One such pair of transactions. |
| AddressReads.GetOutputsScriptPubKey | src/store/level_up_db/output_scripts.js:138-230 | One page: the rows after the cursor, at most the limit; unpaged, all of them or a refusal above the ceiling. |
| AddressReads.PassedSplits | src/store/level_up_db/output_scripts.js:138-230 | The rows a cursor has passed are those whose key is not behind it. |
| AddressReads.ServedWhenRipe | src/XChainUtxoTracker/address_queries.js:299-337 | A confirmed output is served exactly when no pending transaction spends it, its height is at most one above the tip and, for a coinbase under a positive maturity, tip - height + 1 reaches it. |
| AddressReads.StaysServed | src/XChainUtxoTracker/address_queries.js:299-337 | What is served, a coinbase included, stays served as the tip rises. |
| AddressReads.AnswerLists | src/XChainUtxoTracker/address_queries.js:172-260 | An answer entry by entry: which confirmed and which pending rows are on it, and the value, height and confirmations each shows. |
| AddressReads.ReadUtxosAddress | src/XChainUtxoTracker/address_queries.js:172-215 | Height, hash, rows and spend marks are each taken from the stores as they are at that await; when these are one state the page lists exactly the scanned confirmed rows that are unspent and ripe, with their own value and height and tip - height + 1 confirmations, and on a first page the unspent pending rows that are not confirmed; it carries the committed height and hash. The refusal and the cursor are as specified either way. |
| AddressReads.FollowPages | src/XChainUtxoTracker/address_queries.js:172-294 | Following cursors ends, for any page size, and the pages together are exactly the unpaged answer. |
| AddressReads.NoOutpointTwice | src/XChainUtxoTracker/address_queries.js:219-268 | No outpoint is served twice, not even one that sits in both stores. |
| AddressReads.ReadBalanceInfo | src/XChainUtxoTracker/address_queries.js:103-162 | Over one state of the stores confirmed is the sum over the confirmed rows, and pending is what the mempool adds less the confirmed outputs it spends. |
| AddressReads.ServedIsBalance | src/XChainUtxoTracker/address_queries.js:103-215 | What is served and what is withheld add up to confirmed plus pending. |
| MempoolCommits.DropMined | src/XChainUtxoTracker/sync_loop_block_apply.js:252-290 | Dropping the mined transactions one by one is dropping them together. |
| MempoolCommits.CompareTxs | src/store/level_up_db/blocks_and_transactions.js:301-340 | Stored transactions leave the node's listing, and unlisted ones are deleted exactly when that is allowed. |
| MempoolCommits.DeleteAndCompareTxsNotInList | src/store/level_up_db/blocks_and_transactions.js:301-340 | The prune drops exactly those and hands back exactly the listed ones still to fetch. |
| MempoolCommits.StageMempoolBatch | src/XChainUtxoTracker/mempool_refresh.js:236-283 | A batch is refused, and the store left as it was, exactly when a fetched transaction with an input or an output does not have the txid it is listed by; otherwise every such transaction is in the store, with each output and a mark on each outpoint its inputs name. |
| SpentOnce.SpentOnOneSide | src/XChainUtxoTracker/sync_loop_block_apply.js:160-199 | Wherever a valid chain is cut, an outpoint is spent on one side of the cut at most. |
| SpentOnce.SpentGone | src/XChainUtxoTracker/sync_loop_block_apply.js:160-199 | What a valid chain spends it has created, and has no more. |
| SpentOnce.UnspentOutputs | src/XChainUtxoTracker/sync_loop_block_apply.js:160-199 | The coins a valid chain leaves are exactly its outputs that no input takes, each with the script, value, height and coinbase flag its transaction and block gave it. |
| SpentOnce.ReplayNamed | src/XChainUtxoTracker/transaction_parsing.js:115-155 | Every coin of a replayed chain pays what the transaction its txid names says. |
| ConfirmingSpends.ApplySound | src/XChainUtxoTracker/sync_loop_block_apply.js:252-290 | Flushes, rollbacks, prunes and batches all keep the two stores sound: a valid committed chain, and a mempool store that reflects exactly the transactions it holds. |
| ConfirmingSpends.SoundSameOutputs | src/XChainUtxoTracker/address_queries.js:172-239 | In sound stores an outpoint that is in both pays the same script in both, which is what the queries rely on. |
| ConfirmingSpends.MarkedAfterIff | src/XChainUtxoTracker/mempool_refresh.js:151-188 | After a commit an outpoint is marked spent if and only if it was and no transaction dropped spends it, or a transaction staged does. |
| ConfirmingSpends.ServedIffServable | src/XChainUtxoTracker/address_queries.js:172-239 | Reads serve exactly the outpoints in either store that are not marked, but for immature and too recent coins. |
| ConfirmingSpends.GuardedIffUnserved | src/XChainUtxoTracker/address_queries.js:172-239 | An outpoint the stores know of is not served exactly when it is marked, or spent in the committed chain and not pending again. |
| ConfirmingSpends.GuardedAfterIff | src/XChainUtxoTracker/mempool_refresh.js:151-188 | A commit leaves it so if and only if it drops no spender of it that the chain does not have by then, undoes no block that spends it, and stages no output again that the chain has spent. |
| ConfirmingSpends.FlushExposesNothing | src/XChainUtxoTracker/sync_loop_block_apply.js:252-290 | No flush exposes an outpoint, whatever it mines and drops, unless the mempool store still holds its creator although the chain has it. |
| ConfirmingSpends.NeverServedIff | src/XChainUtxoTracker/address_queries.js:172-239 | Over any run of flushes, rollbacks, prunes and batches, an outpoint that starts guarded is served at no boundary if and only if every commit spares it in that sense. |
| ConfirmingSpends.AllMarkedAfterIff | src/store/level_up_db/inputs.js:56-83 | While every held spend is marked, a commit keeps them all marked if and only if it drops no transaction that shares a spend with one it keeps. |
| ConfirmingSpends.HeldSpendsMarkedIff | src/store/level_up_db/inputs.js:56-83 | Over any run from there, an empty mempool store included, all held spends are marked at every boundary if and only if no commit does that. |
| ConfirmingSpends.HeldSpendUnserved | src/XChainUtxoTracker/address_queries.js:172-239 | Then what a held transaction spends is not served, from either store. |
| ConfirmingSpends.RolledBackServed | src/XChainUtxoTracker/reorg_verification.js:303-325 | Flushing a block that spends an outpoint and rolling it back serves the outpoint, though its spender was held before. |
| ConfirmingSpends.MixedReadServes | src/XChainUtxoTracker/sync_loop_block_apply.js:252-290 | Reading the confirmed store before such a flush and the mempool store after it would serve the outpoint: the mix the lock rules out. |
| MempoolPass.NextOk | src/XChainUtxoTracker/mempool_refresh.js:24-149 | Every act of node and tracker keeps the node's chain valid and its mempool apart from it, keeps the stores sound, and makes only legal commits. |
| MempoolPass.PruneMempoolStore | src/XChainUtxoTracker/mempool_refresh.js:151-188 | The store's own prune is the pass's act: it leaves the store and the list still to fetch as the act says. |
| MempoolPass.StageFetched | src/XChainUtxoTracker/mempool_refresh.js:236-283 | So is staging a fetched batch: when it goes through it is a batch the pass may stage, with every transaction of it in the store; when not, nothing changes. |
| MempoolPass.CleanUpMined | src/XChainUtxoTracker/sync_loop_block_apply.js:252-290 | So is a flush's cleanup of what its blocks mined. |
| MempoolPass.SameTipSameChain | src/XChainUtxoTracker/mempool_refresh.js:77-87 | Equal height and tip hash mean the same chain, so a prune that may delete has seen the node's own chain committed. |
| MempoolPass.NextFollowing | src/XChainUtxoTracker/mempool_refresh.js:89-149 | While the node keeps a held transaction, no step of a pass, flush, rollback or node exposes what it spends: the listing is read before the tips, a prune deletes only at tip, and a flush waits for the pass. |
| MempoolPass.HeldSpendNeverServed | src/XChainUtxoTracker/address_queries.js:172-239 | An outpoint spent by a held transaction is never served in any run in which the node keeps listing that transaction until it mines it: not before, not while its block waits to be committed, not after. |
| MempoolPass.CommitsRun | src/XChainUtxoTracker/mempool_refresh.js:151-188 | The stores of such a run are those of its commits, each legal where it comes. |
| MempoolPass.ReplacementServed | src/XChainUtxoTracker/mempool_refresh.js:77-87 | The failing run: a replacement staged beside the transaction it replaces loses its mark at the next prune and is served, though held and listed. |
| MempoolPass.UnminedServed | src/XChainUtxoTracker/mempool_refresh.js:77-87 | The other one: a block undone between the listing and the tip reading makes the prune drop a transaction the node lists. |
| LockedReads.ScriptApplies | src/XChainUtxoTracker/sync_loop_block_apply.js:252-290 | A flush's two changes, the confirmed store first and then the mempool store, come to the one commit. |
| LockedReads.SeesOneBoundary | src/XChainUtxoTracker/store_commit_lock.js:60-84 | Under every schedule, whatever a read sees is the stores as they were after some of the finished commits, never between a flush's two changes. |
| LockedReads.LockedUtxos | src/XChainUtxoTracker/address_queries.js:172-215 | A get_utxos call whose every await sees what the schedule left there answers for one such state: its rows entry by entry, its height and its tip hash. |
| LockedReads.LockedInfo | src/XChainUtxoTracker/address_queries.js:103-162 | So does a get_info call. |
| LockedReads.SparedNotListed | src/XChainUtxoTracker/address_queries.js:172-239 | A guarded outpoint is on no page answered in a run whose commits spare it. |
| LockedReads.HeldSpendNotListed | src/XChainUtxoTracker/address_queries.js:172-239 | Nor is one a held transaction spends, on any page answered beside the commits of a run in which the node keeps that transaction. |
| Merkle.ComputeMerkleRoot | src/bulk_sync/validate_chain.js:91-105 | The level loop ends with the root and the flag of the recursive definitions. |
| Merkle.PairsEqualAt | src/bulk_sync/validate_chain.js:91-105 | A level is flagged exactly when two different positions that are paired hold equal hashes; an odd last element paired with itself is not such a pair. |
| Merkle.RootBindsList | src/bulk_sync/validate_chain.js:91-105 | Two unflagged transaction lists with one root are the same list, whatever their lengths. |
| Merkle.DistinctNeverFlagged | src/bulk_sync/validate_chain.js:91-105 | Distinct transactions are never flagged, at any level, whatever the odd tails. |
| Merkle.OddTailSameRoot | src/bulk_sync/validate_chain.js:91-105 | Without the flag the root would not bind: repeating an odd list's tail keeps the root, and is always flagged. |
| ChainValidation.VerifyMerkleRoot | src/bulk_sync/validate_chain.js:116-137 | An unreadable or empty body, a flagged list and a wrong root are each refused by name. |
| ChainValidation.VerifyBlockSequence | src/bulk_sync/validate_chain.js:174-227 | Accepts exactly the honest dumps (hashes recompute, heights run on, each header names the hash before it, a first block at height 0 names nothing, and with the merkle option bodies stand for their headers); otherwise it stops at the first record that breaks this, with that record's height and what is wrong with it. |
| ChainValidation.SoundIffHonest | src/bulk_sync/validate_chain.js:139-157 | Passing the checks record by record is being honest as a whole. |
| ChainValidation.HeightsConsecutive | src/bulk_sync/validate_chain.js:139-157 | Accepted heights run without gap or repeat. |
| ChainValidation.LastHashBindsDump | src/bulk_sync/validate_chain.js:174-227 | Two accepted dumps of one length ending in one block hash have the same header everywhere and, with the merkle option, the same transactions. |
| ChainValidation.ValidateChainFiles | src/bulk_sync/validate_chain.js:246-280 | For any files, whatever bytes they hold: accepted exactly when they can be read, abut once sorted by first height, and are honest as one dump that no reader faults on; every refusal is named, the reader's fault included. |
| ChainValidation.ReadFileOk | src/bulk_sync/xdmp_reader.js:100-142 | A file that reads without a fault holds consecutive heights from its first to its last. |
| ChainValidation.FilesCoverOneRange | src/bulk_sync/validate_chain.js:246-280 | Accepted files, in whatever order they are given, cover one height range, every height in it once. |
| MwebReader.ReadCompactSize | src/chain/XChainBlockDecoder.js:75-88 | A count is read within the buffer and advances, or is refused: too short, or above the largest safe integer. |
| MwebReader.CompactSizeReads | src/chain/XChainBlockDecoder.js:75-88 | A count on any bytes: one byte below 0xFD, else two, four or eight, lowest first; refused when they are not there or exceed 9007199254740991. |
| MwebReader.SkipMwebInsAndOuts | src/chain/XChainBlockDecoder.js:96-112 | The loops over inputs and outputs stay in the buffer, advance, and end where the recursive reader does. |
| MwebReader.SkipMwebWitness | src/chain/XChainBlockDecoder.js:114-121 | So do the loops over witness stacks and their items. |
| MwebReader.BuildInputlessTransaction | src/chain/XChainBlockDecoder.js:135-149 | A transaction without inputs is rebuilt field by field from its own bytes. |
| MwebReader.ReadMwebFlaggedTransaction | src/chain/XChainBlockDecoder.js:158-179 | On every buffer the reader ends in a named error or in a transaction lying within the buffer. |
| MwebReader.FlaggedRoundTrip | src/chain/XChainBlockDecoder.js:158-179 | Reading a flagged transaction consumes exactly its bytes and hands on exactly its ordinary serialization: with a null MWEB part anywhere, with any MWEB body when it stands alone. |
| MwebReader.FlaggedIsRecognised | src/chain/XChainBlockDecoder.js:125-131 | The reader is called for exactly the flagged transactions of version 1 or 2. |
| MwebReader.FlagBytes | src/chain/XChainBlockDecoder.js:125-131 | It is called for exactly these bytes: version 1 or 2, 0x00, then 0x08 or 0x09. |
| MwebReader.BodyInBlockRefused | src/chain/XChainBlockDecoder.js:151-179 | An MWEB body inside a block is refused by name. |
| MwebReader.CountsAreBacked | src/chain/XChainBlockDecoder.js:96-112 | A count that reads is backed by that many inputs' or outputs' bytes. |
| MwebReader.ShortFieldNamed | src/chain/XChainBlockDecoder.js:70-121 | A buffer that ends inside a field is refused by that field's name. |
| BulkSync.AppendOutputs | src/bulk_sync/process_block.js:38-62 | Emits one record per output, in order, with the transaction's coinbase flag. |
| BulkSync.AppendSpends | src/bulk_sync/process_block.js:64-77 | Emits one record per spent outpoint, coinbase inputs left out. |
| BulkSync.ProcessBlock | src/bulk_sync/process_block.js:95-111 | One block adds exactly its outputs, spends and meta record to the three streams. |
| BulkSync.DumpChain | src/bulk_sync/parse_worker.js:175-201 | All of a chain through the writers gives its three streams; each meta record tells its block's height, time, hash, parent and transactions, and on a valid chain names the hash of the record below it as parent. |
| BulkSync.ChainTwoStreams | src/bulk_sync/process_block.js:38-111 | For every valid chain the outputs stream lists every coin ever created once, the spends stream every spent one once, and the live coins are the difference. |
| StreamingJoin.JoinRecords | src/bulk_sync/merger/streaming_join.js:192-232 | Equal keys cancel one for one: what is emitted is the multiset difference, and the counts add up. |
| StreamingJoin.HexOrder | src/bulk_sync/merger/streaming_join.js:192-232 | Keys compare alphabetically: by the first difference, a prefix before what continues it. |
| StreamingJoin.KeysOrder | src/bulk_sync/merger/streaming_join.js:192-232 | Outpoints go by txid, then by output index. |
| StreamingJoin.JoinIsReplay | src/bulk_sync/merger/streaming_join.js:192-232 | Sorting and joining the two streams leaves exactly the coins of replaying the chain, the live index's coins, with script, value, height and coinbase flag; no spend is left over. |
| StreamingJoin.BulkUtxos | src/bulk_sync/merger/streaming_join.js:192-256 | The whole bulk path ends with the replay's coins, each once. |
| MergeWalk.WalkDatabases | src/bulk_sync/validate_db.js:186-243 | The walk classes every key of both databases once, per record type, and keeps the first differences in key order, as many as the limit allows and none out of turn. |
| MergeWalk.ClassesPartition | src/bulk_sync/validate_db.js:186-243 | The four classes split the union of the keys; their sizes add up to it. |
| MergeWalk.OkIffIdentical | src/bulk_sync/validate_db.js:288-300 | The verdict is OK exactly when the two databases are the same map. |
| MergeWalk.Verify | src/bulk_sync/migrate_rocksdb_to_classiclevel.js:205-247 | The migration's walk: four counters, and OK exactly for the same map. |
| Migrate.Copy | src/bulk_sync/migrate_rocksdb_to_classiclevel.js:161-200 | Every entry arrives, whatever the batch size and the segment length, over what the destination already had. |
| Migrate.CopiedIsIdentical | src/bulk_sync/migrate_rocksdb_to_classiclevel.js:161-247 | The verify that follows succeeds exactly when the destination held no key the source lacks. |
| Xdmp.WriteBlockRecords | src/bulk_sync/xdmp_writer.js:61-81 | Writes the records in order, or refuses exactly when a block is empty or above 32 MiB or a hash is not 32 bytes. |
| Xdmp.HeaderLayout | src/bulk_sync/xdmp_writer.js:35-47 | A header byte by byte: magic, codes, version 1, first and last height, count, tip, each number lowest byte first, the rest zero. |
| Xdmp.HeaderAccepted | src/bulk_sync/xdmp_reader.js:44-84 | A header reads exactly when these bytes are right, and as what they say. |
| Xdmp.RecordLayout | src/bulk_sync/xdmp_writer.js:61-81 | A record byte by byte: size, height, hash, block. |
| Xdmp.RecordAccepted | src/bulk_sync/xdmp_reader.js:100-142 | The record found at a place, exactly when there is one the reader accepts. |
| Xdmp.XdmpReader.NextBlock | src/bulk_sync/xdmp_reader.js:100-142 | One record, or the fault that stops the generator, advancing past exactly that record. |
| Xdmp.XdmpReader.Blocks | src/bulk_sync/xdmp_reader.js:100-142 | The generator reads the whole dump or stops at its first fault. |
| Xdmp.ReadHeights | src/bulk_sync/xdmp_reader.js:100-142 | On any bytes an accepted dump names consecutive heights from first to last. |
| Xdmp.DumpReadsBack | src/bulk_sync/xdmp_writer.js:35-81 | Whatever is written reads back as it was: heights, hashes and bytes in order. |
| Xdmp.DumpRange | src/bulk_sync/dump.js:371-384 | A range dumped in chunks of any size and read back in order is the original sequence. |
| RecordFiles.FixedRecordWriter.Append | src/bulk_sync/writers.js:127-141 | A record goes into the next slot; where the buffer is flushed makes no difference. |
| RecordFiles.FixedRecordWriter.Close | src/bulk_sync/writers.js:143-150 | The closed file is the header with the right count followed by the records in order, and passes the completeness check. |
| RecordFiles.MetaWriter.WriteBlock | src/bulk_sync/writers.js:244-262 | A variable-length record is appended, the buffer flushed or grown to take it. |
| RecordFiles.MetaWriter.Close | src/bulk_sync/writers.js:278-285 | The closed file is the header with the right count followed by the records in order, and passes the completeness check exactly when it has a record. |
| RecordFiles.HeaderLayout | src/bulk_sync/writers.js:57-76 | A header byte by byte, before and after its count is filled in at byte 20. |
| RecordFiles.CheckReads | src/bulk_sync/parse_worker.js:118-141 | The check on a file's own bytes: the count at 20 and the record size at 28 against the file's size. |
| RecordFiles.FixedFilePasses | src/bulk_sync/parse_worker.js:118-141 | A fixed-record file passes exactly when its count is the number of records it holds. |
| RecordFiles.VariableFilePasses | src/bulk_sync/parse_worker.js:118-141 | A variable-length file passes exactly when its count is not zero. |
| RecordFiles.KeyOrder | src/bulk_sync/writers.js:177-190 | Byte order of the 36-byte key is (txid, vout) order, and equal keys mean equal outpoints. |
| CanonicalJson.ValueBack | src/coins/index.js:275-280 | Parsing the canonical text gives back the value's normal form, whatever follows the text. |
| CanonicalJson.TextDeterminesNormal | src/coins/index.js:275-280 | Equal texts come from values with equal normal forms. |
| CanonicalJson.TextEqualIffNormalEqual | src/coins/index.js:275-343 | Two values print alike if and only if they have the same normal form, so an equal pin means an equal value up to key order and the three exceptions below. |
| CanonicalJson.KeyOrderHidden | src/coins/index.js:275-280 | The order an object lists its keys in does not show. |
| CanonicalJson.PrintedKeysAscend | src/coins/index.js:275-280 | An object prints its members in ascending key order, each key once, with its value's own text. |
| CanonicalJson.Spelling | src/coins/index.js:275-280 | Words, brackets, quotes, commas and colons, spelled out. |
| CanonicalJson.ShortEscapes | src/coins/index.js:275-280 | The seven short escapes. |
| CanonicalJson.LongEscapes | src/coins/index.js:275-280 | Other controls and lone surrogates take four lower-case hexadecimal digits; every other unit stands for itself. |
| CanonicalJson.SurrogatePairs | src/coins/index.js:275-280 | A surrogate pair stands unescaped. |
| CanonicalJson.OneUndefinedPrintsAsEmpty | src/coins/index.js:275-280 | An array of a single undefined prints as the empty array. |
| CanonicalJson.NonFinitePrintsAsNull | src/coins/index.js:275-280 | A number that is not finite prints as null, alone and under a key. |
| CanonicalJson.NegativeZeroPrintsAsZero | src/coins/index.js:275-280 | Negative zero prints as zero. |
| TipSettle.Settle | src/XChainUtxoTracker/reorg_node_reads.js:91-157 | A tip counts as settled exactly when five re-reads in a row, within ten, repeat the reading before them with none unusable. |
| TipSettle.SettledReadings | src/XChainUtxoTracker/reorg_node_reads.js:91-157 | What that means reading by reading, in both directions. |
| TipSettle.SettleNodeTipBelow | src/XChainUtxoTracker/reorg_node_reads.js:122-157 | Recovery goes on exactly for a settled tip still below our height. |
| TipSettle.RefreshWalkTip | src/XChainUtxoTracker/reorg_node_reads.js:56-69 | The walk takes a higher tip at once, a lower one only once it has settled, an unusable one never. |
| SyncPass.AtOrBehind | src/XChainUtxoTracker/sync_loop_block_apply.js:29-70 | At the node's tip or behind it a pass starts a walk exactly when another block stands at our height or the next block does not name our tip. |
| SyncPass.RunPass | src/XChainUtxoTracker/sync_loop_node_tip.js:73-239 | One pass over the tracker, whichever way it goes, begins a walk exactly as specified, is refused exactly by the walk's verdict and, unless a step throws, leaves the refusal latch as specified. |
| SyncPass.RefusedUntilRegained | src/XChainUtxoTracker/sync_loop_node_tip.js:73-239 | Once a rollback to a lower tip is refused, no further one starts until a tip reading has reached our cursor. |
| SyncPass.HandedBackDoesNotBlock | src/XChainUtxoTracker/sync_loop_block_apply.js:343-368 | Of two passes in a row, the first ending in a refused walk and the second meeting a tip that calls for a rollback, the second starts it if and only if the refused walk was begun without a tip. |
| SyncPass.HandedBackRun | src/XChainUtxoTracker/sync_loop_block_apply.js:343-368 | Such a run from any quiet state with more blocks than the budget. |

## Left out

- LevelDB, file descriptors, RPC, HTTP routes and the operating system: a store is a map with an atomic batch, a file is its bytes, and the node is a chain whose reads may fail.
- Key and value encodings of the store: records are keyed by constructors, so distinct records never share a key.
- The undo-window watermark (the Q record), logging, metrics, counters, timing and operator messages.
- The prefetch queue, heap-pressure flushes and freshness: when to flush is a flag of each event, and only the 200-block bound is kept.
- `undoBlocks` is constant over a run; a start with another value is not modelled.
- A direct put of the cleanup list that fails during a discard.
- Eviction of the output and script caches is modelled only by their being incomplete, not by size.
- Tracker.UtxoTracker.FlushBatch: the mempool cleanup beside a flush is modelled in MempoolCommits and ConfirmingSpends over the two stores, not inside this method.
- ReorgWalk.VerifyReorg: the node's chain is fixed during one walk, and the repair of a pointer whose record disagrees is not modelled because it cannot be reached with a block committed.
- SyncLoop.PollAtChainTip: starting the mempool poller and the wait that follows are not modelled.
- StoreLock.ReadsAreAtomic: the reorganization counter, readiness flags and confirmations a read also reports are not part of the claim, since they change outside the lock.
- AddressReads.ReadUtxosAddress: the address is its script hash, page limits are whole numbers, and malformed cursors are not modelled.
- Fetching mempool transactions, their retries and the size of a batch; a batch is any sequence of listed transactions.
- MempoolPass.HeldSpendNeverServed: the node is free to change between any two acts; readiness flags, which tell a caller to distrust the pending part after a reorganization, are not modelled.
- LockedReads.LockedUtxos: which commits there are, and what each prune may delete, is fixed when its task begins; the confirmed rows are the coins of the committed chain, as `TrackerState.DurableCoins` says of the store.
- MwebReader.FlaggedRoundTrip: what bitcoinjs-lib makes of the ordinary serialization is not modelled; the block around the transactions (count bound, merkle comparison, trailing bytes) is not part of this model.
- ChainValidation.VerifyBlockSequence: header and transaction parsing are given with each record; hashes are free constructors.
- Merkle.RootBindsList: injectivity of the double hash and leaves that are no inner hash are assumed.
- StreamingJoin.BulkUtxos: the external sort is any ordered rearrangement of a stream; its spill files and merge passes are not modelled.
- MergeWalk.WalkDatabases: printing the table and truncating keys for display are not modelled.
- Migrate.Copy: compaction, progress lines and reopening the destination are modelled only by the flush they force.
- Xdmp.DumpRange: refusing to dump inside the undo window, reusing existing chunks and AuxPoW reassembly are not modelled.
- RecordFiles.MetaWriter.WriteBlock: the buffer is modelled by its used part and its capacity, and abort is not modelled.
- CanonicalJson.ValueBack: numbers are their printed text, and string escapes are those of JSON.stringify; which fields make up the consensus subset is data.
- Coin data files, bootstrap archives, health verdicts and command-line parsing: single-branch code that would only add easy members.
