# Beanie, modelled in Dafny

Beanie receives stablecoin payments on receiver addresses, deploys the receivers
just in time, sweeps what arrives and settles it elsewhere. This project models
the parts of it where a mistake loses money without anybody noticing, and proves
what they are supposed to guarantee.

`dafny verify dfyconfig.toml` checks everything.

## What is modelled

**Indexing (`LogCache`, `Scanning`, `Portal`, `EvmRegistry`, `EvmIndexer`,
`EvmDeposits`).** A scanner walks block ranges through an unreliable Portal. The
environment (`Portal.Env`) is a set of arbitrary tables: the logs of every block
at every moment, the heads seen so far, the answer to every request at every
moment, when writes are refused, when the process is gone. `Portal.Sane` says
what is relied on. A body that is not empty holds the exact matching blocks of a
prefix of the request, ascending, ending in its last line; every other answer
(timeout, rate limit, refusal, nothing, garbage) may come at any time. Blocks at
least 128 below a head that was seen stay as they are; retryable answers run out
eventually. Time is a step counter, and every request, write and crash point has
a time of its own, so one method call is one run against one environment and its
contract speaks of all of them. How a block was seen is a `Look` (time, filter);
`Scanning.Scan` over a sequence of looks is by construction free of gaps and
repetitions, and it is what each scanner's result is compared with. For the registry
there is `EvmRegistry.Ear` besides: listening to the two contracts through no filter
at all. Every look is
exported with its filter, its time, and the fact that the block existed then; a
scan that fails names a reason (`Portal.Trouble`), one that stops short a request
that brought nothing (`Portal.Behind`).

**The live EVM worker (`EvmWorker`, `EvmFilters`, `EvmGaps`, `EvmShared`).**
`EvmState` keeps the receiver and webhook maps next to the checkpoints.
`EvmWorker.Run` plays any script of tips, restarts and pauses against any
environment and returns the run moment by moment (`Trail`), each step with the
blocks it looked at (`TipStep`, `StartStep`); the theorems about runs are lemmas
about such trails. A deposit found is either delivered to the code that acts on it
or dropped behind a checkpoint that has already moved; both are on the books.
`EvmFilters` compares the receivers a deposit scan looks for with the ones the chain
had registered by each block, `EvmGaps` holds two runs in which a payment gets lost,
`EvmShared` is about two workers over one store.

**Sweeping (`EvmChain`, `EvmSweep`).** `EvmChain.World` is the chain a batch runs
on: the factory registers a predicted receiver once, at most 32 of one merchant, and
none for the zero address; a sweep takes the whole balance, pays the fee to the
sender of the transaction and the treasury and the rest, when it is settled on the
same chain, to the merchant; it fails when token or bridge refuse, and does nothing
at an address without code; the webhook registry changes the entry of its caller; a
failing call undoes the batch unless it may fail.

**Solana (`Base58`, `SolanaWire`, `SolanaAuth`, `SolanaRegistry`).** The bytes the
browser writes, a reader of the legacy message format, the backend's two checks
on what was read, and the two ways the receiver registry is merged. Events of that
registry come as they were read: an announce with what its pinned transaction
account held just then.

**Timed and stored state (`Rounds`, `RateLimit`, `Ledger`).** Claim rounds as a
state machine over all interleavings, the limiters over all call traces, the
browser's deposit ledger over all crashes and refused writes.

**Encodings (`Positional`, `Hex`, `Routes`, `StarknetCalls`).** Settlement routes
on both sides, the `__execute__` call list, packed resource bounds.

## What turned out not to hold

Each of these is proved in the form given here; the code is modelled as it is.

- One merchant stops the sweep for everybody: with more pending receivers than the
  factory has room for, 33 of a new merchant, say, every batch reverts and nothing
  is emptied, pass after pass (`EvmSweep.CapStopsEverything`). So does a receiver
  whose merchant is the zero address, or one whose funds token or bridge refuse to
  move. `EvmSweep.PlanRuns` and `BatchSafe` give the exact condition under which a
  batch reverts (`Blocked`); where it holds a pass leaves everything as it was.
- A pass does not empty every receiver. A receiver settled on the same chain pays its
  merchant, who may be any account, another receiver too, and announcing is open to
  everybody. `EvmSweep.PaidReceiverInput`: two receivers, the second the merchant of
  the first; one smooth, unblocked pass sweeps the first and leaves 995 of 1000 on
  the second. `EmptyIff` is the exact condition: a receiver ends at zero if and only
  if no sweep behind its own turn pays it (`PaidLate`); `BatchEmpties` and
  `Reconcile` say so of a pass.
- A batch that reverted but produced a receipt is taken for a success.
  `EvmSweep.MisreadReceipt` shows the outcome: a receiver that does not exist is
  remembered as deployed; `Stranded`, what follows: no later batch deploys or
  empties it. `SweepEvmReceivers` says exactly when the remembered set becomes
  false.
- The webhook calls in a batch never change any merchant's URL: the registry books
  them under the calling contract (`EvmChain.HooksUntouched`).
- A payment can be marked scanned without anybody acting on it. The deposit
  checkpoint is written before the closing flush of a catch-up, and before a tip's
  deposits are handed on. `EvmGaps.FailedFlush` is a run: the flush fails, the next
  start goes well, the receiver is known, and its payment was never delivered.
  `EvmWorker.RunPaysIff` is the exact condition, for every run, any two of its moments
  and any receiver: delivered equals paid if and only if every step that scanned a
  payment looked for that receiver and came to its end.
- A tip scans blocks for deposits that its registry half did not reach.
  `EvmGaps.LateReceiver` is a run in which nothing fails: the Portal shows nothing of
  a block to the registry scan and all of it to the deposit scan, the block registers
  a receiver and pays it, and the payment is never delivered.
  `EvmFilters.RunCompleteIff` is the exact condition for a scan to look for everybody
  registered by then; `RunDelivers` is what follows for payments.
- After a discovery call that failed the maps match the checkpoint exactly when the
  call had saved nothing (`EvmWorker.FailureMirrorsIff`).
- After a restart the registry maps match the saved checkpoint exactly when the
  rebuild reached that checkpoint (`EvmWorker.StartMirrorsIff`). When the Portal
  answers for less than before, the maps are behind until the next tip.
- The maps follow the blocks as they were looked at. They are what the chain holds
  on every prefix that has not changed since (`EvmWorker.MirrorsOnChain`); blocks at
  least 128 below the head when they were looked at never change
  (`BuriedUnchanged`), while a shallow reorganisation after a tip goes unnoticed.
- Cached registry chunks are told apart by contract addresses, not by chain. EVM
  workers share one store, so two chains with the same two addresses would read
  each other's chunks: `EvmShared.SharedChunk` is an input, `EvmIndexer.ForeignChunk`
  the exact condition. With different contracts nothing of the kind happens, over
  every run of two workers (`EvmShared.RunBoth`). The checkpoints are told apart by
  chain (`CheckpointsScoped`).
- Registering a Solana receiver closes the account its announce is checked
  against, so reading the same events later finds less.
  `SolanaRegistry.ClosedAccount` is an input: followed live the receiver has its
  route, caught up on later it has none. `LateCatchUp` is the exact condition for
  a catch-up to match what was followed live, `CutsAgree` the one for any two
  histories.
- `run_solana_catchup` resumes behind the saved checkpoint with an empty map, so
  a second start forgets what lay before it. `SolanaRegistry.RestartKeeps` gives
  the exact condition under which nothing is lost, `RestartForgets` an input.
- The cut of a Solana log into batches does not matter while announces come before
  their registration (`Confluent`, `CutsAgree`); `OrderMatters` is an input where
  one comes after and it does. Broadcasts in between make no difference exactly when
  the log holds the registration of every receiver they turned registered and no
  announce with another route passed for it later (`BroadcastsAgree`).
- The deposit ledger can leave a gap when a receiver has no start block and its
  first cursor could not be stored: `Ledger.GapRun` is a run in which a transfer
  below the cursor is never listed, `GapFreeIff` the condition at a visit.
- Claim rounds exclude each other exactly when a round gets less time than its
  note (`Rounds.ExclusiveIff`); with the constants in the code it does.

## Model

| member | source | states |
|---|---|---|
| LogCache.ChunkKeyInjective | beanie_keeper/src/log_cache.rs:43-45 | Equal chunk keys have equal scan id, start and end, for all 64-bit block numbers |
| LogCache.ChunkKeyOrder | beanie_keeper/src/log_cache.rs:43-45 | Within one scan the order of the key strings is the numeric order of (start, end) |
| LogCache.ChunkRanges | beanie_keeper/src/log_cache.rs:153-165 | The drained iterator is the recursive chunk list |
| LogCache.ChunksTile | beanie_keeper/src/log_cache.rs:153-165 | Chunks are adjacent, stay in the range, all but the last are exactly `step` long, the last ends at `to` |
| LogCache.FullChunkStays | beanie_keeper/src/log_cache.rs:153-165 | A full chunk keeps index and bounds when `to` grows, so a settled chunk is found under the same key later |
| LogCache.Store.GetChunk | beanie_keeper/src/log_cache.rs:52-76 | Value, miss or read error, by what the key holds |
| LogCache.Store.PutChunk | beanie_keeper/src/log_cache.rs:78-91 | A write changes one key, or nothing when refused |
| LogCache.Store.GetCheckpoint | beanie_keeper/src/log_cache.rs:96-116 | The saved block of a scan, if any |
| LogCache.Store.SetCheckpoint | beanie_keeper/src/log_cache.rs:118-128 | A write changes one scan's checkpoint, or nothing when refused |
| Portal.HonestBody | beanie_keeper/src/evm_indexer.rs:519-536 | Handing over the lines of an honest body is scanning exactly the blocks up to its last line |
| Portal.Ask | beanie_keeper/src/evm_indexer.rs:459-536 | Which answer leads to which reply, both ways: a timeout asks for less, a throttled answer asks again, an unusable one gives up, a silent one ends the scan; a batch is exactly the scan of the blocks up to the last line of its body |
| Portal.AfterSuccess | beanie_keeper/src/evm_indexer.rs:550-561 | Below the maximum the fifth batch in a row doubles the window, up to the maximum; anything less, or a window at the maximum, leaves it |
| Portal.SaveCheckpoint | beanie_keeper/src/evm_indexer.rs:538-546 | A checkpoint is written for the last block of a batch before the cursor moves, or the scan stops with nothing written |
| Portal.Turn | beanie_keeper/src/evm_indexer.rs:456-602 | One request: window and range in bounds; the cursor moves with the scan or a retry is used up; the window shrinks, stays or grows by what was answered; a written checkpoint is the new cursor; giving up has a reason |
| Portal.Walk | beanie_keeper/src/evm_indexer.rs:456-602 | The loop ends, by blocks left and failures left, with everything before the cursor seen exactly once, each request the one the answers before it call for |
| Portal.StreamLogs | beanie_keeper/src/evm_indexer.rs:400-611 | `on_block` got the matching blocks of `from..` up to the reported block once, in order, each seen through the filter when the chain had got there, whatever the answers; the checkpoint moved exactly that far; a scan that stops short did so because the Portal had nothing, one that fails because of a crash, an unusable answer or, where a checkpoint is kept, a refused write; and the requests are paced: the same blocks in half the window after a timeout, the same again when throttled, the blocks behind a batch otherwise, in twice the window after five batches in a row below the bound |
| EvmRegistry.ChunkRoundTrip | beanie_keeper/src/evm_indexer.rs:759-804 | `into_found(from_found(x)) == x` through the hex strings, for every list of receivers and webhooks |
| EvmRegistry.Collect | beanie_keeper/src/evm_indexer.rs:972-1030 | The collecting closure yields the registry events of the sightings in order |
| EvmRegistry.FilterHears | beanie_keeper/src/evm_indexer.rs:932-957 | What the registry filter picks from a block tells the same receivers and webhooks as all logs of the two contracts there, unfiltered |
| EvmRegistry.ScanHears | beanie_keeper/src/evm_indexer.rs:932-1036 | The same of whole scans: looking through the filter finds everything the two contracts said |
| EvmRegistry.WrittenIsRead | evm_beanie/src/ReceiverFactory.sol:31-37 | A registration, an announce or a webhook change is read back from the log its contract writes, and the filter asks for that log |
| EvmRegistry.BlockEvents | beanie_keeper/src/evm_indexer.rs:944-1030 | Looking at a block through the filter finds exactly the events its contracts wrote, in order, among whatever else the block holds |
| EvmRegistry.TopicRoundTrip | beanie_keeper/src/evm_indexer.rs:115-130 | The address read off a topic is the one put into it |
| EvmRegistry.RememberedEntry | beanie_api/src/transfer_workers/evm.rs:180-189 | After any events a receiver has the last merchant and the last announced route, and keeps an older route when none came |
| EvmRegistry.InsertedEntry | beanie_api/src/transfer_workers/evm.rs:414-417 | After any webhook events a merchant has the last URL |
| EvmRegistry.RedeliveryHarmless | beanie_api/src/transfer_workers/evm.rs:180-189 | Delivering any suffix of the receiver history again changes nothing |
| EvmRegistry.WebhookRedeliveryHarmless | beanie_api/src/transfer_workers/evm.rs:414-417 | The same for webhook events |
| EvmIndexer.BuriedScan | beanie_keeper/src/evm_indexer.rs:844-905 | Blocks at least 128 below the head scan the same ever after, however they were looked at |
| EvmIndexer.StillScan | beanie_keeper/src/evm_indexer.rs:825-928 | While the blocks do not change, a pieced-together scan equals one uncached scan at any moment |
| EvmIndexer.SoundLater | beanie_keeper/src/evm_indexer.rs:844-905 | Growth and shallow reorganisation cannot make a stored chunk wrong |
| EvmIndexer.SoundPut | beanie_keeper/src/log_cache.rs:78-91 | Storing one correct chunk keeps the whole cache correct |
| EvmIndexer.SoundChunkHeard | beanie_keeper/src/evm_indexer.rs:844-905 | A correct chunk holds everything the two contracts said in its blocks |
| EvmIndexer.DiscoverRegistryRange | beanie_keeper/src/evm_indexer.rs:932-1036 | Receivers and webhooks are exactly what the two contracts said in the scanned blocks, nothing filtered out |
| EvmIndexer.DiscoverRegistryActivity | beanie_keeper/src/evm_indexer.rs:674-720 | Resumes right behind the checkpoint and moves it by exactly the blocks scanned |
| EvmIndexer.KeepChunk | beanie_keeper/src/evm_indexer.rs:885-895 | A whole, settled chunk is in the cache afterwards under its key, unless the write was refused, no other chain's chunk is touched, and the cache stays correct |
| EvmIndexer.CachedChunk | beanie_keeper/src/evm_indexer.rs:850-865 | A chunk comes from the cache exactly when it is settled and can be read there, and is then what a scan of its blocks finds now |
| EvmIndexer.RebuildChunk | beanie_keeper/src/evm_indexer.rs:847-904 | A chunk, cached or fetched, is exactly the scan of its blocks; a settled one on disk is used without asking anybody; a settled one fetched whole is on disk afterwards unless the disk refused it, which is not a failure; a short one ends where the Portal had nothing |
| EvmIndexer.GatherAll | beanie_keeper/src/evm_indexer.rs:838-905 | Chunk after chunk, without a gap, up to the first short one; nothing stops it short of a chunk in stock, and every settled chunk it covers is in stock afterwards unless the disk refused a write |
| EvmIndexer.RebuildRegistryState | beanie_keeper/src/evm_indexer.rs:825-928 | With any correct cache (empty, partial, unreadable entries) the result is exactly a plain scan of `from..=scanned_to` in block order, and everything the two contracts said there; the cache stays correct, every leading settled chunk on disk is used whatever the Portal answers, every settled chunk covered is on disk afterwards unless a write was refused, the checkpoint only moves forward, and a failure has a reason |
| EvmIndexer.CheckpointsScoped | beanie_keeper/src/evm_indexer.rs:19-37 | Checkpoint ids of two chains are equal exactly when the chain names are, and the two scans never share one |
| EvmIndexer.ChunksScoped | beanie_keeper/src/evm_indexer.rs:831-834 | Chunk scan ids of two chains are equal exactly when factory and webhook registry are |
| EvmIndexer.ForeignChunk | beanie_keeper/src/evm_indexer.rs:831-834 | A chunk stored for another chain leaves this chain's cache correct exactly when the contracts differ or the chunk happens to be right here too |
| EvmDeposits.LedgerTotal | beanie_keeper/src/evm_indexer.rs:1087-1137 | For a receiver every filter named, the deposits handed back add up to what the blocks paid it |
| EvmDeposits.TransferIsRead | beanie_keeper/src/evm_indexer.rs:1087-1137 | A transfer is read back from the log the token writes, payer, receiver and amount, and a scan asks for that log exactly when it looks for the one who is paid |
| EvmDeposits.LedgerOrdered | beanie_keeper/src/evm_indexer.rs:1146 | Deposits come in block order and lie in the scanned blocks |
| EvmDeposits.ScanDeposits | beanie_keeper/src/evm_indexer.rs:1087-1146 | The scan keeps no checkpoint; what it collects and sorts is the ledger of the blocks it covered |
| EvmDeposits.FetchDepositsSinceBlock | beanie_keeper/src/evm_indexer.rs:1053-1156 | A call hands back every matching transfer behind the checkpoint once and moves the checkpoint by exactly those blocks; a failed call leaves it unmoved |
| EvmDeposits.RunEvmCatchup | beanie_keeper/src/evm_indexer.rs:1174-1207 | The registry blocks were seen through the registry filter up to the rebuilt block, which is the head unless the Portal had nothing more; every block newly marked scanned for deposits was filtered by exactly the receivers those blocks name, none lies beyond them, and the scan reached them unless the Portal had nothing more; what a crash or a failed closing flush drops is named |
| EvmDeposits.CatchUpDeposits | beanie_keeper/src/evm_indexer.rs:1192-1195 | The deposit half moves the deposit checkpoint by what it hands back and no other checkpoint |
| EvmWorker.RegisteredBefore | beanie_keeper/src/evm_indexer.rs:1174-1207 | Receivers registered at or before a covered block are among those named by the whole scan |
| EvmWorker.FoldedMore | beanie_api/src/transfer_workers/evm.rs:410-426 | Merging newly found events keeps the maps equal to the fold of all events |
| EvmWorker.FoundQuiet | beanie_api/src/transfer_workers/evm.rs:430-439 | Looking at a block without registry logs finds nothing, so marking it scanned is what scanning it would have come to |
| EvmWorker.EvmState.Learn | beanie_api/src/transfer_workers/evm.rs:233-240 | The loops merge receivers and webhooks one by one into the maps |
| EvmWorker.EvmState.DiscoverTip | beanie_api/src/transfer_workers/evm.rs:406-428 | The blocks behind the checkpoint are looked at through the registry filter and the maps learn exactly what they hold; after a failed call only the checkpoint has moved; it reaches the tip unless the Portal had nothing |
| EvmWorker.EvmState.QuietTip | beanie_api/src/transfer_workers/evm.rs:430-439 | Marking a quiet block scanned is the same step as looking at it |
| EvmWorker.EvmState.RegistryTip | beanie_api/src/transfer_workers/evm.rs:373-443 | All branches: exactly the blocks by which the checkpoint moves were looked at, and the maps learn exactly what they hold |
| EvmWorker.EvmState.DepositTip | beanie_api/src/transfer_workers/evm.rs:445-475 | The blocks by which the deposit checkpoint moves were looked at through the transfer filter of every receiver in the map, and what they paid is delivered, or dropped when the process dies behind the checkpoint |
| EvmWorker.EvmState.ProcessEvmTip | beanie_api/src/transfer_workers/evm.rs:361-475 | Registry first, then deposits for every receiver then in the map; either half reaches the tip or gives its reason; what it returns is what is delivered |
| EvmWorker.EvmState.CatchUpScans | beanie_keeper/src/evm_indexer.rs:1174-1207 | The start-up scans: the registry from its first block to the head, deposits on from their checkpoint for the receivers found, each as far as the Portal had anything; deposits are delivered exactly when the call returns well, else dropped; the registry checkpoint moves forward only |
| EvmWorker.EvmState.Restart | beanie_api/src/transfer_workers/evm.rs:211-240 | After any past, memory holds the fold of the rebuilt registry and nothing else, or nothing with the reason for the failure; a failed start delivers nothing |
| EvmWorker.RegistryKeepsMirrors | beanie_api/src/transfer_workers/evm.rs:406-428 | A registry step that succeeded keeps the maps equal to the fold of every registry event up to the checkpoint |
| EvmWorker.FailureMirrorsIff | beanie_api/src/transfer_workers/evm.rs:406-428 | After a discovery call that failed the maps match the checkpoint if and only if the call had saved nothing |
| EvmWorker.StartMirrorsIff | beanie_api/src/transfer_workers/evm.rs:211-240 | After a start the maps match the checkpoint if and only if the rebuild reached what the checkpoint claimed |
| EvmWorker.MoreAccounts | beanie_keeper/src/evm_indexer.rs:1053-1156 | A deposit scan keeps the account: every block up to the checkpoint looked at once, every payment seen delivered or dropped once, each list in order |
| EvmWorker.BuriedUnchanged | beanie_keeper/src/evm_indexer.rs:844-905 | Blocks at least 128 below the head when they were looked at have not changed since |
| EvmWorker.MirrorsOnChain | beanie_api/src/transfer_workers/evm.rs:361-443 | On every prefix that has not changed since it was looked at, the maps are the fold of what the two contracts said there as the chain stands now, unfiltered |
| EvmWorker.RunAccounts | beanie_api/src/transfer_workers/evm.rs:204-357 | At every moment of every run the deposits found are those delivered and those dropped, interleaved |
| EvmWorker.RunMirrors | beanie_api/src/transfer_workers/evm.rs:204-357 | At every moment up to which no discovery failed since a start that reached the checkpoint, the maps are the fold up to the checkpoint |
| EvmWorker.RunOnward | beanie_api/src/transfer_workers/evm.rs:204-357 | Between any two moments of a run neither checkpoint goes back |
| EvmWorker.RunPays | beanie_api/src/transfer_workers/evm.rs:204-357 | For every run, any two of its moments and any receiver: what was delivered for it in between plus what the steps missed is what the blocks scanned in between paid it |
| EvmWorker.RunPaysIff | beanie_api/src/transfer_workers/evm.rs:204-357 | Delivered equals paid between two moments if and only if every step in between that scanned a payment to the receiver looked for it and came to its end: no start failed behind its deposit scan, no process died behind the checkpoint, no filter left it out |
| EvmWorker.Act | beanie_api/src/transfer_workers/evm.rs:204-357 | One action of a run does its step, blocks looked at included, and keeps the cache correct |
| EvmWorker.Run | beanie_api/src/transfer_workers/evm.rs:204-357 | Over every script of tips, restarts and pauses with failures anywhere: each step looked at exactly the blocks it marks scanned, each stored chunk equals its blocks, every deposit found was delivered or dropped once, checkpoints never go back, and while no discovery failed since a start that reached the checkpoint, the maps are the fold up to it and agree with the chain wherever it has not changed |
| EvmFilters.KnownIff | beanie_keeper/src/evm_indexer.rs:1174-1195 | The names of the registry blocks seen are all that were registered up to a block if and only if no registry block up to it was overlooked: unseen or changed since, and naming somebody else |
| EvmFilters.NamedIff | beanie_keeper/src/evm_indexer.rs:972-1030 | A receiver counts as registered in a block exactly when a log of one of the two contracts there names it, whatever any filter asks for |
| EvmFilters.TipCompleteIff | beanie_api/src/transfer_workers/evm.rs:361-475 | A tip looks for everybody registered at or before each block it scans for deposits if and only if, of the registry blocks its first half did not reach or that changed since, none names a receiver not in the map |
| EvmFilters.StartCompleteIff | beanie_keeper/src/evm_indexer.rs:1174-1207 | The same for a start, which scans no block for deposits that its rebuild did not cover |
| EvmFilters.RunCompleteIff | beanie_api/src/transfer_workers/evm.rs:204-357 | The same for every step of every run, tips as long as the run is healthy |
| EvmFilters.RunDelivers | beanie_api/src/transfer_workers/evm.rs:204-357 | A receiver paid only at or behind its registration gets everything the scanned blocks paid it, over any stretch of a run whose steps overlook no registry block and come to their end |
| EvmGaps.FailedFlush | beanie_keeper/src/evm_indexer.rs:1142-1200 | A run: a start scans a payment, saves the checkpoint and fails in the closing flush; the next start goes well; the payment was never delivered |
| EvmGaps.LateReceiver | beanie_api/src/transfer_workers/evm.rs:402-475 | A run without a failure: a block registers a receiver and pays it, the registry half of the tip sees nothing of it, the deposit half marks it scanned; the payment was never delivered |
| EvmShared.SoundBeside | beanie_keeper/src/evm_indexer.rs:831-834 | What a worker of one chain writes leaves every chunk of a chain with other contracts correct |
| EvmShared.RunBoth | beanie_api/src/transfer_workers/mod.rs:87-101 | Two workers over one store, taking turns in any order: when name and contracts differ, both caches stay correct, both accounts of deposits hold, and while a worker's own run is healthy its maps match its checkpoint |
| EvmShared.SharedChunk | beanie_keeper/src/evm_indexer.rs:831-834 | Two chains whose contracts have the same addresses: a chunk rightly kept for the one is wrong for the other under the same key, and names a receiver that chain never had |
| EvmChain.AggregateConserves | beanie_api/src/transfer_workers/evm.rs:682-692 | Whatever a batch does, every account holds what came in and what sweeps paid it, less what sweeps took from it |
| EvmSweep.SortDedup | beanie_api/src/transfer_workers/evm.rs:517-519 | `sort` and `dedup` keep the same addresses, strictly ascending |
| EvmSweep.KeepAscends | beanie_api/src/transfer_workers/evm.rs:522-548 | The balance filter keeps the order of the sorted candidates |
| EvmSweep.PieceRuns | beanie_api/src/transfer_workers/evm.rs:604-680 | One receiver's calls go through if and only if the factory accepts it and its funds can move, and then deploy, count and empty that receiver and pay out what it held: fee shares, and the net to the merchant when settled on the same chain |
| EvmSweep.PlanRuns | beanie_api/src/transfer_workers/evm.rs:597-692 | The whole batch goes through if and only if nothing blocks it: no pending receiver deployed already, of the zero address or beyond its merchant's 32, and nobody who cannot move what it holds at its turn; then pending receivers end deployed, the taken ones swept in order with everybody paid, everything else as before |
| EvmSweep.SweptOnce | beanie_api/src/transfer_workers/evm.rs:668-680 | Each included receiver is swept exactly once, no other ever |
| EvmSweep.RegisteredOnce | beanie_api/src/transfer_workers/evm.rs:620-666 | Each undeployed included receiver is registered once with its announced route, a deployed one never |
| EvmSweep.HookedOnce | beanie_api/src/transfer_workers/evm.rs:637-657 | A merchant's webhook is set at most once, and exactly when one of its receivers is deployed and a URL is known |
| EvmSweep.RegisterThenSweep | beanie_api/src/transfer_workers/evm.rs:659-680 | A registration stands right before the sweep of its receiver |
| EvmSweep.GenuineFold | beanie_api/src/transfer_workers/evm.rs:180-189 | Remembered routes lead to their receivers although merchant and route may come from different events |
| EvmChain.RefusedReverts | evm_beanie/src/ReceiverFactory.sol:102-133 | A batch that registers anything the factory refuses reverts, whatever else is in it |
| EvmSweep.BatchSafe | beanie_api/src/transfer_workers/evm.rs:597-692 | A sent batch reverts if and only if something blocks it on the chain it meets; otherwise a mined batch settles what it set out to, and anything else changes nothing |
| EvmSweep.BatchEmpties | beanie_api/src/transfer_workers/evm.rs:521-692 | Any pass without errors leaves a sweepable candidate at zero if and only if no later sweep of the batch pays it, or, when something blocks the batch, everything as it was |
| EvmSweep.EmptyIff | evm_beanie/src/ChainXReceiver.sol:126-161 | A receiver that is swept, or holds nothing, ends a batch at zero if and only if no sweep behind its own turn pays it |
| EvmSweep.NeverPaidLate | evm_beanie/src/ChainXReceiver.sol:136-161 | Who is neither sender, treasury nor the merchant of a receiver settled on the same chain is never paid late |
| EvmSweep.PaidReceiver | evm_beanie/src/ChainXReceiver.sol:159 | Every input with a receiver whose merchant is another known receiver, 1000 on the first and nothing on the second: one smooth, unblocked pass leaves 995 on the second |
| EvmSweep.PaidReceiverInput | evm_beanie/src/ReceiverFactory.sol:139-153 | A concrete one, with every lookup right and nothing in the way |
| EvmSweep.BatchTakes | beanie_api/src/transfer_workers/evm.rs:597-680 | Whatever lookups fail, a batch takes on exactly the candidates the balance view did not rule out (a view that failed rules out nobody), whose deployment was believed or answered, and that can be swept, and registers exactly those not deployed |
| EvmSweep.PlanCompiles | beanie_api/src/transfer_workers/evm.rs:597-680 | Counted call by call, a batch is one sweep of each receiver taken, one registration of each not deployed, one webhook call of each merchant with one of those and a known URL, and nothing else |
| EvmSweep.CapStopsEverything | evm_beanie/src/ReceiverFactory.sol:107-111 | More pending receivers of one merchant than the factory has room for: no pass changes anything, for anybody |
| EvmSweep.MisreadReceipt | beanie_api/src/transfer_workers/evm.rs:682-692 | A concrete family of runs in which a receipt for a reverted batch makes the worker believe in a receiver that does not exist |
| EvmSweep.Stranded | beanie_api/src/transfer_workers/evm.rs:688-690 | A receiver wrongly taken for deployed is neither deployed nor emptied by any later batch |
| EvmChain.HooksUntouched | evm_beanie/src/WebhookRegistry.sol:22-26 | No batch changes the webhook of anybody but the contract that makes the calls |
| EvmSweep.SweepState.CheckDeployed | beanie_api/src/transfer_workers/evm.rs:555-595 | Found deployments are added, undecidable addresses are left out of the pass |
| EvmSweep.SweepState.Prepare | beanie_api/src/transfer_workers/evm.rs:517-595 | After filter and check, what is known agrees with the chain for every receiver of the batch, a receiver is left out exactly when nothing could say whether it is deployed, and exactly the deployments found are remembered |
| EvmSweep.SweepState.BuildBatch | beanie_api/src/transfer_workers/evm.rs:597-680 | The loop builds exactly the plan the lemmas are about |
| EvmSweep.SweepState.SweepEvmReceivers | beanie_api/src/transfer_workers/evm.rs:505-693 | Over every outcome of the lookups: which candidates are taken on and deployed, exactly, and by which calls; when the batch reverts, exactly, and what it settles when it does not; what is remembered as deployed, and that it turns false exactly when a receipt came for a blocked batch with a pending receiver nobody else deployed |
| EvmSweep.SweepState.Reconcile | beanie_api/src/transfer_workers/evm.rs:319-354 | A pass over all known receivers, by the same account; an error-free one leaves each that can be swept at zero if and only if no later sweep of the batch pays it, or, when its batch is blocked, leaves the chain as it was |
| EvmSweep.SweepState.Act | beanie_api/src/transfer_workers/evm.rs:302-357 | One step of a run: a pass takes on, calls and settles as above, anything else changes what it is about; every account's books are kept and, unless a receipt was misread, `deployed` stays true |
| EvmSweep.SweepState.Run | beanie_api/src/transfer_workers/evm.rs:302-357 | Over every run of payments, registrations, registry events, foreign sweeps, restarts and failing passes: each step is one of those above, moment by moment; each account, receivers included, holds what it held, what came in and what the sweeps of the run paid it, less what they took; and `deployed` holds only deployed receivers as long as no receipt comes for a reverted batch |
| Base58.DecodeEncode | beanie_api/public/scripts/solana.js:17-47 | `decode(encode(b)) == b` for every non-empty byte string, leading zeros included |
| Base58.EncodeDecode | beanie_api/public/scripts/solana.js:17-47 | `encode(decode(s)) == s` for every non-empty string over the alphabet, leading ones included |
| Base58.DecodeInjective | beanie_api/public/scripts/solana.js:17-34 | Different texts never decode to the same bytes |
| Base58.LetterIsPosition | beanie_api/public/scripts/solana.js:11-12 | The letters of the digits are the alphabet, position by position |
| Base58.Base58Decode | beanie_api/public/scripts/solana.js:17-34 | The loops compute the decoding, or nothing for a foreign character or the empty text |
| Base58.Base58Encode | beanie_api/public/scripts/solana.js:36-47 | The loops compute the encoding |
| SolanaWire.Shortvec | beanie_api/public/scripts/solana.js:132-143 | The loop writes the compact length, for every 31-bit number |
| SolanaWire.ReadLenWrite | beanie_api/public/scripts/stealth.claim.js:31-40 | A written length below 2^16 is read back, whatever follows |
| SolanaWire.ReadLenExact | beanie_api/public/scripts/stealth.claim.js:31-40 | A length is read only from the bytes it is written as |
| SolanaWire.U64le | beanie_api/public/scripts/solana.js:145-154 | Eight little-endian bytes, or an error outside the unsigned 64-bit range |
| SolanaWire.ValueOfLe | beanie_api/public/scripts/solana.js:145-154 | The bytes stand for the number they were made of |
| SolanaWire.ReadMessageWrite | beanie_api/src/payment_routes.rs:257-262 | Every message whose lists fit reads back from its bytes, whatever follows |
| SolanaWire.ReadMessageExact | beanie_api/src/payment_routes.rs:257-262 | Bytes that read as a message are its encoding and a tail: no other bytes read alike |
| SolanaWire.DistinctKeys | beanie_api/public/scripts/solana.js:164-169 | Comparing the address texts, as the browser does, is comparing the keys |
| SolanaWire.TokenProgramIsKey | beanie_api/public/scripts/solana.js:8 | The token program's text is a 32-byte key, so the builders can succeed |
| SolanaWire.TransferBuildsIff | beanie_api/public/scripts/solana.js:163-169 | A transfer is built if and only if its six addresses are the texts of six different 32-byte keys, its blockhash that of 32 bytes, and its amount has 64 bits |
| SolanaWire.ClaimBuildsIff | beanie_api/public/scripts/stealth.claim.js:188-206 | The same for the eight addresses of a claim |
| SolanaWire.EveryTransferBuilds | beanie_api/public/scripts/solana.js:163-183 | Any six distinct keys ending in the token program, any blockhash and any 64-bit amount can be built, and make exactly one message of the format |
| SolanaWire.EveryClaimBuilds | beanie_api/public/scripts/stealth.claim.js:188-206 | The same for any eight distinct keys of a claim |
| SolanaWire.TransferRoles | beanie_api/public/scripts/solana.js:156-162 | In a transfer keeper and payer sign; only the keeper and the two token accounts can be written |
| SolanaWire.ClaimRoles | beanie_api/public/scripts/stealth.claim.js:188-206 | In a claim relayer, client and cosigner sign; only the relayer and the two token accounts can be written |
| SolanaWire.TransferRecovered | beanie_api/public/scripts/solana.js:155-183 | Reading the built bytes recovers all six addresses, blockhash, amount and decimals |
| SolanaWire.ClaimRecovered | beanie_api/public/scripts/stealth.claim.js:188-206 | Reading the claim bytes recovers all eight addresses, blockhash and amount |
| SolanaWire.Parse | beanie_api/public/scripts/solana.js:190-205 | The loops compute the parse, 32-bit arithmetic and negative slices included |
| SolanaWire.ParseUnsigned | beanie_api/public/scripts/solana.js:186-205 | `parseTransaction(unsignedTransaction(m, k))` is `k` zero signatures and `m`, for every message and 31-bit count |
| SolanaWire.ParseLossless | beanie_api/public/scripts/solana.js:190-205 | With a count that is not negative, count, signatures of 64 bytes and message are the whole input |
| SolanaAuth.AcceptedMeans | beanie_api/src/payment_routes.rs:263-338 | Any message passes the checks if and only if the keeper pays the fee and its only instruction moves the claimed amount from the payer's token account to the receiver under the payer's authority |
| SolanaAuth.MovesOne | beanie_api/src/payment_routes.rs:263-338 | What a message moves is one thing: no message moves two different amounts, or between two different pairs of accounts |
| SolanaAuth.AuthorizedIff | beanie_api/src/payment_routes.rs:238-354 | A request is accepted if and only if its owner is the sender and signed it, its texts are two keys and a 64-bit amount, and its bytes read as a message the keeper pays for whose only instruction moves that amount from the owner's token account to the receiver under the owner's authority |
| SolanaAuth.AmountBack | beanie_api/src/payment_routes.rs:252-255 | The decimal text of an amount is read back exactly when it fits 64 bits |
| SolanaAuth.TransferMoves | beanie_api/public/scripts/solana.js:155-183 | Every transfer the browser builds, read back, moves the amount from source to destination under the owner's authority in the given token; keeper and owner sign, and only keeper and the two token accounts can be written |
| SolanaAuth.ClaimMoves | beanie_api/public/scripts/stealth.claim.js:188-206 | Every claim the browser builds, read back, moves the amount from source to destination under the multisig's authority in the given token, cosigned by client and cosigner; the three signers sign, and only relayer and the two token accounts can be written |
| SolanaAuth.ClaimAcceptedMeans | beanie_api/src/stealth_workers.rs:1712-1784 | Any message passes as a claim if and only if three keys sign, the relayer first, and its one instruction is a checked transfer of an allowed token under the multisig's authority whose two further accounts sign and are client and cosigner |
| SolanaAuth.BuiltTransferAccepted | beanie_api/src/payment_routes.rs:238-354 | Apart from the signature, the browser's message is accepted exactly when keeper, payer, payer's token account, receiver, mint and amount agree |
| SolanaAuth.BuiltClaimAccepted | beanie_api/src/stealth_workers.rs:1712-1784 | The bytes of the browser's claim read as a message that passes exactly when relayer, mint, multisig and both signers are the expected ones |
| SolanaRegistry.AttachRegTxAndMerge | beanie_keeper/src/solana_indexer.rs:323-377 | The loop attaches announces that pass, in order |
| SolanaRegistry.MergeEvents | beanie_keeper/src/solana_indexer.rs:291-317 | The loop marks registrations, in order |
| SolanaRegistry.CatchUpReflects | beanie_keeper/src/solana_indexer.rs:385-415 | One catch-up over an orderly log gives each receiver the record the log, as read, calls for |
| SolanaRegistry.LiveBatchReflects | beanie_api/src/transfer_workers/solana.rs:300-339 | A live batch, with its own readings, takes the registry of the log so far to the registry of the longer log |
| SolanaRegistry.Confluent | beanie_api/src/transfer_workers/solana.rs:300-339 | Any cut of an orderly log into a start-up part and live batches gives the same registry, reading by reading |
| SolanaRegistry.CutsAgree | beanie_api/src/transfer_workers/solana.rs:300-339 | Two histories with cuts and readings of their own give the same registry if and only if for every receiver the same first registration and the same last passed announce were read, of a registered one just the route |
| SolanaRegistry.LateCatchUp | solana_beanie/programs/solana_beanie/src/lib.rs:734-740 | A catch-up after the fact matches what was followed live if and only if no registered receiver had an announce that passed; every registered receiver comes out without a route |
| SolanaRegistry.BroadcastsAgree | beanie_api/src/transfer_workers/solana.rs:276-339 | However broadcasts fall between the batches of an orderly log, the registry is that of one catch-up if and only if the log holds the registration of every receiver a broadcast turned registered and no announce with another route passed for it afterwards |
| SolanaRegistry.ClosedAccount | beanie_keeper/src/solana_indexer.rs:341-350 | The input: the same announce and registration leave a route when followed live and none when caught up on |
| SolanaRegistry.OrderMatters | beanie_keeper/src/solana_indexer.rs:398-407 | Without the order the cut matters: an input for which two cuts differ |
| SolanaRegistry.RestartKeeps | beanie_keeper/src/solana_indexer.rs:385-415 | Resuming behind the checkpoint with an empty map, and reading anew, gives the registry the worker had if and only if nothing before it was registered and for every receiver as much is read again as was known |
| SolanaRegistry.RestartForgets | beanie_keeper/src/solana_indexer.rs:385-415 | An announced receiver that is forgotten |
| SolanaRegistry.SolanaState.RememberSolanaReceiver | beanie_api/src/transfer_workers/solana.rs:68-91 | A registered entry is not touched, and a known route is carried over |
| SolanaRegistry.SolanaState.StartUp | beanie_api/src/transfer_workers/solana.rs:141-163 | Remembering the found records in any order gives the catch-up registry |
| SolanaRegistry.SolanaState.ProcessEvents | beanie_api/src/transfer_workers/solana.rs:300-339 | A live batch: registered stays registered, routes stay known, a pinned transaction is held exactly while announced |
| SolanaRegistry.SolanaState.MarkRegistered | beanie_api/src/transfer_workers/solana.rs:501-507 | A broadcast turns one receiver registered and drops its pinned transaction |
| SolanaRegistry.SolanaState.Run | beanie_api/src/transfer_workers/solana.rs:276-339 | The same over every run of batches and broadcasts, whatever is read when; it ends in the fold of its steps |
| Rounds.Recent.TryToBegin | beanie_api/src/stealth_workers.rs:596-604 | Prunes, then notes the key unless it is still noted |
| Rounds.Recent.Complete | beanie_api/src/stealth_workers.rs:605-612 | A success is noted anew, a failure forgotten |
| Rounds.BeginsWhenFree | beanie_api/src/stealth_workers.rs:590-656 | A claim may begin if and only if it is running nowhere and its last success is old enough; failed ones may repeat at once |
| Rounds.EveryRunSafe | beanie_api/src/stealth_workers.rs:590-656 | In every interleaving: never more rounds than permits, never two of one claim, and the notes are exact |
| Rounds.StartsApart | beanie_api/src/stealth_workers.rs:115-117 | With the constants of the code: at most 8 rounds, none of one claim at once, none within an hour of a success |
| Rounds.Overlap | beanie_api/src/stealth_workers.rs:596-604 | If a round may outlive its note, a run in which two rounds of one claim run at once |
| Rounds.ExclusiveIff | beanie_api/src/stealth_workers.rs:115-117 | Exclusion holds in every run exactly when the timeout is below the time a note is kept |
| RateLimit.HitSound | beanie_api/src/auth.rs:380-390 | One request keeps the bucket's account of what got through |
| RateLimit.RateLimiter.CheckRequest | beanie_api/src/auth.rs:371-420 | The three buckets in order, each counted only when reached |
| RateLimit.AdmittedAtMostTwice | beanie_api/src/auth.rs:371-420 | In any stretch of one window's length at most twice the limit gets through, per address, credential and target, for every trace |
| RateLimit.EachAtMostTwice | beanie_api/src/auth.rs:371-420 | The same for what each of the three buckets itself let through |
| RateLimit.RefusedOnlyWhenFull | beanie_api/src/auth.rs:371-420 | A bucket refuses a request only if it let through its whole limit of the same key within the last window's length, on every trace |
| RateLimit.FirstWindow | beanie_api/src/auth.rs:380-390 | As long as the first window of an IP address runs, to its very end, it gets through no more than the limit |
| RateLimit.SharedBucket | beanie_api/src/auth.rs:392-411 | Two spellings of a credential or target share a bucket exactly when they differ in letter case at most |
| RateLimit.RpcProxy.AllowRequest | beanie_api/src/rpc_proxy.rs:103-115 | Prune, open the window, count, compare |
| RateLimit.PruningUnseen | beanie_api/src/rpc_proxy.rs:103-115 | Pruning above 10,000 entries never changes an answer, on any trace |
| RateLimit.AllowedAtMostTwice | beanie_api/src/rpc_proxy.rs:103-115 | In any 60 seconds at most 512 requests of a caller get through |
| RateLimit.DeniedOnlyWhenFull | beanie_api/src/rpc_proxy.rs:103-115 | A caller is refused only after 256 of its calls got through in less than 60 seconds |
| RateLimit.PruningForgets | beanie_api/src/rpc_proxy.rs:106-108 | Above 10,000 entries only callers of the last 60 seconds are still in the books after a call |
| Ledger.IdInjective | beanie_api/public/scripts/store.js:104-108 | Receiver, transaction, amount and ordinal can be read off an id |
| Ledger.MergedUnique | beanie_api/public/scripts/store.js:95-125 | No id is ever in the history twice, whatever the cap cut off |
| Ledger.NewestStay | beanie_api/public/scripts/store.js:119-123 | A recording leaves the 500 newest entries: those of the scan first, the latest in front, then what was held, in its order |
| Ledger.MergedHas | beanie_api/public/scripts/store.js:95-125 | Below the cap the history then holds what it held and what the scan found, each as often as it is there |
| Ledger.CountedOnce | beanie_api/public/scripts/store.js:95-128 | Entries per transfer equal its multiplicity on chain |
| Ledger.RecordedTracks | beanie_api/public/scripts/store.js:120-127 | Whatever write is refused and wherever the process stops, history and cursor still agree, for narrower and wider retried windows |
| Ledger.GapFreeIff | beanie_api/public/scripts/watcher.js:39-45 | The next visit can leave no gap if and only if a cursor is stored or the receiver has a start block |
| Ledger.GapRun | beanie_api/public/scripts/watcher.js:39-54 | A run into a gap: the first cursor refused, the next visit at a later head; a transfer in between is listed zero times below the cursor, what came before is listed |
| Ledger.CursorThere | beanie_api/public/scripts/watcher.js:40-45 | With its cursors stored, a receiver has one exactly once a visit has found a head |
| Ledger.RunTracks | beanie_api/public/scripts/watcher.js:39-55 | After every run in which the cap cuts nothing off, history and cursor of a receiver agree, from its start block on or from the first head found |
| Ledger.TracksLists | beanie_api/public/scripts/store.js:95-128 | Then each transfer below the cursor is listed exactly as often as it is on chain |
| Ledger.VisitReaches | beanie_api/public/scripts/watcher.js:39-55 | A visit in which nothing goes wrong takes the cursor to the head, or as far as eight windows reach |
| Ledger.RunReaches | beanie_api/public/scripts/watcher.js:39-55 | Such visits in a row each go on where the last one stopped, until the head is reached |
| Ledger.RunSound | beanie_api/public/scripts/store.js:95-125 | No run, cap or no cap, brings an id into the history twice |
| Ledger.Store.NewEntries | beanie_api/public/scripts/store.js:97-119 | The loop finds exactly the entries the history lacks |
| Ledger.Store.RecordScan | beanie_api/public/scripts/store.js:95-128 | History first, then the cursor; nothing is reported when a write was refused |
| Ledger.Store.SetCursor | beanie_api/public/scripts/store.js:130-134 | A refused write goes unnoticed |
| Ledger.Store.ScanWindow | beanie_api/public/scripts/onchain.js:286-337 | One window is scanned and recorded: disk, cursor and ending are those of the specification, whatever head is found and whatever write is refused |
| Ledger.Store.ScanReceiver | beanie_api/public/scripts/watcher.js:39-55 | A visit of at most eight windows leaves exactly the disk the specification gives |
| Ledger.Store.Run | beanie_api/public/scripts/watcher.js:39-55 | Over every run with crashes and refused writes: no id twice, and unless some recording found more than the history had room for, each transfer below a receiver's cursor is listed exactly as often as it is on chain, from the start block or the first head found |
| Routes.RecipientsAgree | beanie_api/src/create_workers.rs:48-62 | For every canonical recipient the browser's digits are the hex text of the backend's 32 bytes |
| Routes.RoutesAgree | beanie_api/public/scripts/identity.js:159-191 | For all chain pairs, the same chain twice included, and canonical recipients both encodings agree byte for byte and felt for felt, and the halves recompose the recipient |
| Routes.ZeroIffSame | beanie_api/src/create_workers.rs:64-104 | The chain field is zero exactly when source and target are the same chain |
| Routes.RoutesInjective | beanie_api/src/create_workers.rs:64-104 | Different targets or recipients never share a route, in bytes or felts |
| Routes.FeltRecipient | beanie_api/public/scripts/identity.js:91-98 | A canonical felt is the 64-digit text of exactly the bytes the backend parses from it |
| Routes.EvmRecipient | beanie_api/public/scripts/identity.js:86-89 | A canonical EVM address is the lower-case text of exactly the bytes the backend parses from it |
| Routes.KindsApart | beanie_api/public/scripts/identity.js:86-105 | An EVM address, with its prefix or without, is never taken for a Starknet one, nor for a Solana one |
| Routes.CanonicalTwice | beanie_api/public/scripts/identity.js:86-114 | What is canonical for a chain stays as it is |
| StarknetCalls.EncodeCallsForExecute | beanie_api/src/stealth_workers.rs:1315-1324 | The loop writes count, then target, selector, length and data of each call |
| StarknetCalls.CallsDecode | beanie_api/src/stealth_workers.rs:1315-1324 | The encoding has a left inverse |
| StarknetCalls.CallsExact | beanie_api/src/stealth_workers.rs:1315-1324 | And nothing but an encoding decodes |
| StarknetCalls.TransferIsOneCall | beanie_api/public/scripts/stealth.claim.js:126-141 | The browser's hand-built calldata is the encoding of one transfer call, and the two words make up the balance |
| StarknetCalls.PackBoundBytes | beanie_api/src/stealth_workers.rs:1327-1339 | The filled buffer is the packed bound |
| StarknetCalls.BoundIsSum | beanie_api/src/stealth_workers.rs:1327-1339 | A packed bound is name·2^192 + amount·2^128 + price and stays below the field prime |
| StarknetCalls.BoundInjective | beanie_api/src/stealth_workers.rs:142-145 | With the three resource names, a packed bound determines name, amount and price |

## Left out

- HTTP, JSON, base64, async scheduling, rate pacing, logging and clocks: answers, failures and times are parameters.
- keccak, sha256, Poseidon, ECDSA, ed25519, HKDF, WebAuthn and curve checks: whether a signature verifies and where token accounts and receivers lie are tables.
- EVM log data: the ABI-encoded URL of a webhook event comes from a table; every other field is read from the bytes of the log.
- Block numbers near 2^64: cursor arithmetic is on unbounded numbers; chunk keys are stated for 64-bit ones.
- Portal.StreamLogs: a failed read of a checkpoint is not modelled; a request and its body are one step.
- EvmWorker.RunPaysIff: delivered means returned to the code that acts on deposits; what that code then does, and that the balance backstop later sweeps a payment nobody was told of, is not part of it.
- EvmWorker.RunMirrors: a discovery call that failed after moving its checkpoint drops events from the maps until a restart (`FailureMirrorsIff`); the run is not claimed to mirror the log in between.
- EvmShared.RunBoth: two workers take turns action by action; their requests and writes do not interleave inside one action.
- EvmSweep.SweepState.Run: followed up to the first receipt for a reverted batch; calls that fail to encode are not part of it, and which amounts token or bridge refuse to move off which receiver is a table.
- Webhook delivery and signing, settlement notifications, multicall fee estimation.
- Solana registry: the decoding of event bodies, `validate_announce` and the derivation of program addresses are part of what reading an announce comes to. Solana deposits and sweeps are not modelled.
- SolanaWire.ReadMessageWrite: versioned messages are not read; the backend reads legacy ones only.
- SolanaAuth.BuiltTransferAccepted: the signature check is a flag of the request.
- Rounds.EveryRunSafe: waiting for the map's lock counts as part of a round's time; what a round does on chain is left out.
- RateLimit.AdmittedAtMostTwice: letter case is folded for ASCII only; counters do not overflow.
- Ledger.Store.Run: the chain's logs for a block are taken as final when scanned, writes to storage from two tabs do not interleave inside one recording, and receivers are given by their keys.
- Starknet event paging and Solana signature paging in `scanDeposits`: a window's deposits come in one piece.
- Routes.RoutesAgree: surrounding white space is not trimmed, and recipients on Solana are the wallet itself, as both sides have it.
- StarknetCalls.TransferIsOneCall: the selector is a number; its hash is not computed.
- The Starknet indexer and payment workers, passkey storage, UI, QR codes, static files and environment loading.
