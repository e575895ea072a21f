# Verified model of the ethrex block pipeline

This project models, in Dafny, the parts of the ethrex Ethereum client that turn transactions into
a canonical chain, and proves what they promise:

- **Sharded merkleization.** Sixteen workers each own one first nibble of the state and of every
  storage trie. They exchange messages over FIFO queues, and their branches are stitched into one
  root. The main theorem says that for every parent state, every stream of account updates and
  every interleaving, the stitched root is the trie of applying the updates one after the other;
  no run fails, gets stuck or goes on for ever.
- **Mempool.** Redundant maps that must agree through insertion, replacement, eviction and removal,
  with per-sender budgets and paymaster reservations, and exactly when the blob bundles agree too.
- **Fork choice, deep reorgs and recovery.** Walks over the block graph that keep the canonical
  chain linked and bound how much of it may change, one deep pass at a time, and exactly when
  updates that overlap still do.
- **Payload building.** A scheduler over per-sender queues with two gas dimensions, blob limits and
  rollback, and the gas limit rule.
- **Base64** over the URL-safe alphabet of section 5 of RFC 4648.

`dafny verify dfyconfig.toml` checks everything.

## How the model is built

- Hashes are modelled by what they commit to: a trie root is the trie, a transaction stands for its
  own hash, a blob commitment for its versioned hash. Block hashes are names with a header map.
- Tries (`Trie.dfy`) are leaf, extension and branch nodes over keys of 64 nibbles, with the insert
  and remove of `crates/common/trie`. The terminator nibble and branch values are dropped, because
  no key is a prefix of another.
- A worker (`ShardWorker.dfy`) is a value with one handler per message; bit masks are sets.
  `SubtrieWorker.dfy` has the same worker as an object with mutable fields and shows that each of
  its methods takes the handler's step. The machine (`Merkleizer.dfy`) has one queue per worker, and
  a move sends one message, handles one message, or finalizes one storage trie, so handlers of
  different workers interleave between any two sends. `Protocol.dfy` states the invariant over
  pairwise channels, the two `Steps` files show that every handler keeps it, and
  `Merkleization.dfy` draws the conclusions.
- The serial reference (`Accounts.SerialRun`) applies each update to one trie. Like the worker it
  keeps no account equal to the default one; an update that changes nothing leaves the trie alone.
- The mempool, the queue, the build context and the store are classes. Each method is tied to a
  function of the old contents, and the properties are proved about those functions.
- A blob transaction comes in two steps, its bundle first. `TxPool.Window` is the set of bundles
  whose transaction is not pooled. `BundleRuns.WindowExact` says what that is over runs: a bundle is
  in it exactly when some operation stored it while its transaction was not pooled and none has
  taken the transaction in or rolled the bundle back since. `BundleRuns.BareExact` says the same of
  pooled blob transactions without a bundle. The regular count of the code takes every bundle for a
  pooled transaction, which is why the cap on regular transactions holds if and only if there was
  room or there are no more of the former than of the latter (`PoolCaps.EveryRegularCap`).
- The ties between the pool's maps fall in two: those that every operation keeps
  (`TxPool.Tied`), and those with the bundles, which hold throughout a run if and only if no
  accepted blob transaction is without its bundle or pooled already, and no bundle is rolled back
  under a pooled transaction (`PoolRuns.EveryRunValid`). `PoolWitness.dfy` has runs that fail.
- Bundles are validated before they are stored, so the commitments of a stored bundle are the
  hashes its transaction names, and there is at least one.
- Laws that name none of the code's own steps are kept beside them: what the merkleized state reads
  by position (`StateReads.dfy`), which requests the pool admits and what an insertion does
  (`AdmissionLaws.dfy`, `PoolLaws.dfy`), which updates fork choice accepts (`ForkChoiceLaws.dfy`),
  and in which order transactions are tried and what becomes of them (`PayloadLaws.dfy`).
- A fork choice update is tested, its branch is looked up, and its write lands; only the write is
  serialised. `Histories.dfy` lets other updates land in between. The chain then stays linked if
  and only if the parent of the lowest written block is still canonical at the time of the write.
- The connectivity test for safe and finalized blocks admits one block that is not on the new
  chain; `ForkChoice.ConnectedIsAncestor` says exactly which, and `ForkChoice.FinalizedReplaced`
  shows it happen.
- The virtual machine is a function of the included transactions with `gas used <= gas limit` and
  `state gas <= gas used`; block execution in a replay, the state roots on disk, the journal and the
  overlay are parameters. Clocks, base fees and blob schedules are fixed values of a block.
- Callers are assumed to behave as the code's own callers do: an insertion carries a sender
  admission or is a frame transaction, nonces are below 2^64 - 1, stored headers have their parent's
  number plus one, and a header's gas limit is below 2^64 - 1.

## Model

| member | source | states |
|---|---|---|
| Trie.RootUnique | crates/common/trie/trie.rs:141-165 | two canonical tries over keys of one length that answer every lookup alike are the same trie, so a root commits to exactly one content |
| Trie.InsertCorrect | crates/common/trie/node/branch.rs:87-153 | insertion into any canonical node changes the value of one key, keeps every other key, and the node stays canonical |
| Trie.InsertLeaf | crates/common/trie/node/leaf.rs:52-130 | insertion into a leaf, whether it overwrites, splits at the first nibble or behind a shared prefix, changes one key and stays canonical |
| Trie.InsertExtension | crates/common/trie/node/extension.rs:69-172 | insertion into an extension, under its prefix or leaving it at any nibble, changes one key and stays canonical |
| Trie.RemoveCorrect | crates/common/trie/node/extension.rs:174-241 | removal empties one key, keeps every other key, and the result is canonical again or gone |
| Trie.RestructureIsCollapse | crates/common/trie/node/branch.rs:158-274 | what removal makes of a branch that lost a choice is the collapse of the remaining choices |
| Trie.RootUpdates | crates/common/trie/trie.rs:170-304 | insert and remove at the root give the canonical trie of the updated content |
| Trie.BranchifyCorrect | crates/blockchain/blockchain.rs:5063-5087 | turning a root into a branch keeps every lookup and gives canonical choices |
| Trie.CollapseCorrect | crates/blockchain/blockchain.rs:4436-4479 | collapsing canonical choices keeps every lookup and gives a canonical root, empty when no choice is left |
| Trie.CollapseBranchify | crates/blockchain/blockchain.rs:4436-4479 | collapse undoes branchify on every canonical root |
| Sharding.Write | crates/blockchain/blockchain.rs:4557-4563 | one slot write stores the value, or removes the key when the value is zero, and touches nothing else |
| Sharding.ReadBack | crates/blockchain/blockchain.rs:4557-4563 | after any list of writes a key reads back its last write |
| Sharding.PerKeyOrder | crates/blockchain/blockchain.rs:4541-4549 | two write lists that agree on the order of each key's own writes lead to the same trie |
| Sharding.StableSortStable | crates/blockchain/blockchain.rs:4549-4550 | sorting by key keeps the order of the writes to each key |
| Sharding.FlushInOrder | crates/blockchain/blockchain.rs:4526-4565 | flushing a buffer, sorted or not, is the same as applying its slots in arrival order |
| Sharding.SliceChoice | crates/blockchain/blockchain.rs:5089-5103 | two tries that agree on one first nibble have the same choice there once branchified |
| Sharding.Stitch | crates/blockchain/blockchain.rs:4436-4479 | sixteen choices taken from one trie's branch collapse to that trie |
| Sharding.ShardSlice | crates/blockchain/blockchain.rs:5225-5268 | a copy that gets only one nibble's writes agrees with the full run on that nibble |
| Sharding.SerialStorageRoot | crates/blockchain/blockchain.rs:5111-5139 | the serial computation applies every update in order |
| Sharding.SplitByNibble | crates/blockchain/blockchain.rs:5183-5188 | each bucket holds the writes of its first nibble, in order |
| Sharding.UpdateCopies | crates/blockchain/blockchain.rs:5221-5281 | each of sixteen copies contributes the choice that the serial trie has there |
| Sharding.ComputeShardedStorageRoot | crates/blockchain/blockchain.rs:5164-5305 | for every parent and every update list the sharded root is the serial one, including both fallbacks |
| StateReads.PutStores | crates/blockchain/blockchain.rs:4726-4730 | storing an account keeps every other one; it is removed exactly when nonce, balance, code and storage are all empty, and reads back otherwise |
| Accounts.Normalised | crates/blockchain/blockchain.rs:4918-4925 | an account whose storage was touched is stored by the serial run exactly when it differs from the default one |
| Accounts.OwnerSlice | crates/blockchain/blockchain.rs:1487-1498 | an owner that sees only its own accounts' updates agrees with the full serial run on its slice of the state |
| Accounts.ShardAgrees | crates/blockchain/blockchain.rs:4763-4798 | a shard that applies only its own slots agrees with the full run on its slice and on every slice no slot touches |
| Routing.UpdateSends | crates/blockchain/blockchain.rs:4733-4798 | each other shard is sent the wipe, then exactly its own slots in order, and nothing else |
| Routing.UpdateEntry | crates/blockchain/blockchain.rs:4733-4798 | the owner's own shard takes the same messages directly |
| Routing.BufferingRefines | crates/blockchain/blockchain.rs:4803-4835 | for every sequence of writes and wipes the trie with its pending buffer equals in-order application |
| Routing.TrafficContent | crates/blockchain/blockchain.rs:4763-4835 | what one update's messages do to a shard's content, and which shards they touch |
| Protocol.StorageStep | crates/blockchain/blockchain.rs:4733-4835 | a shard agrees with the serial storage of an account, on its own slice and on untouched slices, after each update delivered |
| Protocol.OwnerStep | crates/blockchain/blockchain.rs:4692-4800 | an owner's records, expected masks and pending count follow the serial run through one update |
| Protocol.OwnerRecord | crates/blockchain/blockchain.rs:4874-4891 | an early shard is merged: base choices from the first, own choice from each later one, nothing else changes |
| Protocol.OwnerResolve | crates/blockchain/blockchain.rs:4892-4928 | the last shard resolves the account to its serial storage root and lowers the pending count by one |
| Protocol.InitialInv | crates/blockchain/blockchain.rs:4567-4600 | the invariant holds before any message |
| ProtocolSteps.StepUpdate | crates/blockchain/blockchain.rs:4692-4802 | handling an account update keeps the invariant |
| ProtocolSteps.StepFinish | crates/blockchain/blockchain.rs:4836-4846 | announcing the end of routing keeps the invariant |
| ProtocolSteps.StepCollectState | crates/blockchain/blockchain.rs:4945-4957 | answering or deferring the collection of the state keeps the invariant |
| ProtocolSteps.StepEnd | crates/blockchain/blockchain.rs:4623-4641 | ending the collection of storage tries keeps the invariant |
| CollectionSteps.StepOp | crates/blockchain/blockchain.rs:4803-4835 | handling a routed write or wipe keeps the invariant |
| CollectionSteps.BarrierDelivers | crates/blockchain/blockchain.rs:4847-4867 | when the last RoutingDone is next, a shard already holds its share of every routed update |
| CollectionSteps.StepRoutingDone | crates/blockchain/blockchain.rs:4847-4867 | noting a RoutingDone, and at the last one draining every buffer, keeps the invariant |
| CollectionSteps.StepShard | crates/blockchain/blockchain.rs:4874-4944 | taking in a shard keeps the invariant |
| CollectionSteps.StepCollect | crates/blockchain/blockchain.rs:4604-4622 | finalizing one storage trie and sending its root keeps the invariant |
| Merkleizer.StartAbs | crates/blockchain/blockchain.rs:1487-1532 | the coordinator's sends, seen per worker, are its own updates, then FinishRouting, then CollectState |
| Merkleizer.ReceiveCoordAbs | crates/blockchain/blockchain.rs:4645-4690 | taking a coordinator's message off a shared queue takes the head of the coordinator's own channel and of no other |
| Merkleizer.ReceivePipeAbs | crates/blockchain/blockchain.rs:4803-4835 | taking a worker's message off a shared queue takes the head of that worker's channel and of no other |
| Merkleization.EveryRunSafe | crates/blockchain/blockchain.rs:4601-4960 | every state of every interleaving satisfies the invariant |
| Merkleization.NoAbort | crates/blockchain/blockchain.rs:4601-4690 | no expect fires, no channel is found disconnected and no send finds a finished worker, in any run |
| Merkleization.NeverDisconnected | crates/blockchain/blockchain.rs:4648-4687 | a worker whose queue is empty and to which nobody can send any more has finished |
| Merkleization.Barrier | crates/blockchain/blockchain.rs:4836-4867 | once a worker collects, no slot write or wipe for it is queued or about to be sent |
| Merkleization.MaskFinal | crates/blockchain/blockchain.rs:4733-4800 | once a worker collects, every owner's mask is final and names the worker exactly when one shard of it is to collect, under way or received; pending counts the unresolved accounts |
| Merkleization.ShardOnce | crates/blockchain/blockchain.rs:4892-4928 | an arriving shard is awaited and new, and the pending count drops exactly at an account's last shard |
| Merkleization.NeverStuck | crates/blockchain/blockchain.rs:4625-4690 | a reachable state in which nobody can move is one in which every worker has delivered its part and nothing is left over |
| Merkleization.GatherRoot | crates/blockchain/blockchain.rs:1534-1546 | the coordinator keeps choice i of worker i |
| Merkleization.GatheredOwn | crates/blockchain/blockchain.rs:1534-1546 | the order in which the answers arrive does not matter |
| Merkleization.MerkleizationIsSerial | crates/blockchain/blockchain.rs:1367-1557 | for every parent, every update stream and every interleaving the gathered root collapses to the state trie of applying the stream in order |
| StateReads.InfoReads | crates/blockchain/blockchain.rs:4719-4731 | by position: applying updates in order, an account's nonce, balance and code are those of the last update that sets them or removes the account, and the parent's when there is none |
| StateReads.SlotReads | crates/blockchain/blockchain.rs:4733-4801 | by position: a slot holds the last write of the last update that writes it or wipes the storage, nothing after a removal or a bare wipe, and the parent's value when no update touches it |
| StateReads.StoredReads | crates/blockchain/blockchain.rs:4918-4925 | an account that some update mentions is stored exactly when it is not empty, any other is as in the parent |
| StateReads.GatheredReads | crates/blockchain/blockchain.rs:1367-1557 | so the gathered root of every run reads, for every account and slot, what the updates say by their positions |
| Progress.MoveCost | crates/blockchain/blockchain.rs:4601-4960 | every move uses up a part of a budget |
| Progress.EveryRunEnds | crates/blockchain/blockchain.rs:4601-4960 | the updates of a block bound the length of every run, so with NeverStuck every run ends with the result |
| SubtrieWorker.ApplyBatch | crates/blockchain/blockchain.rs:4526-4565 | the loop over a batch computes the flush |
| SubtrieWorker.BufferSlot | crates/blockchain/blockchain.rs:4803-4828 | buffering with a flush at the full batch is the buffered step of the protocol |
| SubtrieWorker.RouteSlots | crates/blockchain/blockchain.rs:4763-4796 | the routing loop buffers, sends and marks exactly as the protocol step does |
| SubtrieWorker.WipeOthers | crates/blockchain/blockchain.rs:4740-4745 | one wipe goes to each other worker |
| SubtrieWorker.DrainAll | crates/blockchain/blockchain.rs:4850-4866 | draining leaves each touched account's trie with its buffer applied |
| SubtrieWorker.UpdateParts | crates/blockchain/blockchain.rs:4692-4800 | info, wipe and routing together are the update step, masks and pending count included |
| SubtrieWorker.Subtrie.ProcessAccount | crates/blockchain/blockchain.rs:4692-4802 | the in-place update is the protocol's update step, messages included |
| SubtrieWorker.Subtrie.NoteRoutingDone | crates/blockchain/blockchain.rs:4847-4867 | the in-place barrier is the protocol's |
| SubtrieWorker.Subtrie.TakeShard | crates/blockchain/blockchain.rs:4874-4944 | the in-place shard handling is the protocol's |
| SubtrieWorker.Subtrie.CollectNext | crates/blockchain/blockchain.rs:4604-4641 | the in-place collection is the protocol's |
| SubtrieWorker.Subtrie.Receive | crates/blockchain/blockchain.rs:4692-4958 | whatever the message, the worker object takes the step the protocol proof is about |
| Ledger.ChargeConserves | crates/blockchain/mempool.rs:988-1013 | adding a reservation keeps reserved totals and non-canonical counts equal to the sums over pending transactions |
| Ledger.DischargeConserves | crates/blockchain/mempool.rs:322-345 | removing one keeps them too, and neither saturating subtraction saturates |
| Ledger.NothingPending | crates/blockchain/mempool.rs:322-345 | with no reservation pending both total maps are empty |
| Ledger.ChargeThenDischarge | crates/blockchain/mempool.rs:322-345 | adding and removing a reservation gives the old maps back, up to an entry of zero |
| BlobIndex.AddInverts | crates/blockchain/mempool.rs:1070-1086 | adding a bundle keeps the versioned-hash index the exact inverse of the bundles if and only if it carries every commitment of the bundle it overwrites, if any |
| BlobIndex.DropInverts | crates/blockchain/mempool.rs:351-368 | removing a bundle does too, and leaves no empty entry |
| BlobIndex.RollBack | crates/blockchain/mempool.rs:1092-1095 | rolling back a bundle that was just added leaves no trace |
| BlobIndex.ListBundle | crates/blockchain/mempool.rs:1076-1083 | the insertion loop builds that index |
| BlobIndex.UnlistBundle | crates/blockchain/mempool.rs:356-367 | the removal loop takes it down |
| TxPool.RemoveValid | crates/blockchain/mempool.rs:293-348 | removal keeps every tie between the maps |
| TxPool.RemoveExact | crates/blockchain/mempool.rs:293-348 | removal takes out one transaction and nothing else |
| TxPool.CountIs | crates/blockchain/mempool.rs:528-536 | the count the code uses is the number of regular transactions, plus the blob transactions without their bundle, less the bundles without their transaction |
| TxPool.EvictRegularBounded | crates/blockchain/mempool.rs:541-554 | in every pool the loop takes no blob transaction and no bundle, and runs dry above the cap exactly when the transactions without their bundle exceed the bundles without their transaction by the cap |
| TxPool.EvictRegularExact | crates/blockchain/mempool.rs:541-554 | how many regular transactions the loop leaves, exactly, in every pool |
| TxPool.NextBlobLast | crates/blockchain/mempool.rs:571-612 | a sender's next blob transaction is evicted only when every evictable one is its sender's next |
| TxPool.BlobEvictionExact | crates/blockchain/mempool.rs:571-612 | in every pool the blob loop takes only blob transactions with their bundles, and leaves all of them or exactly what the bundles without their transaction leave of the cap |
| TxPool.BlobEvictionStuck | crates/blockchain/mempool.rs:571-612 | in every pool its impossible branch is taken exactly when the bundles without their transaction alone exceed the cap |
| Admission.NextExecutable | crates/blockchain/mempool.rs:381-393 | the least nonce from the account's up that is not pooled |
| Admission.FutureInsert | crates/blockchain/mempool.rs:403-408 | a fresh nonce beyond the run adds one to the queued count |
| Admission.ExecutableInsert | crates/blockchain/mempool.rs:403-408 | an executable one never raises it |
| Admission.ReplaceKeepsFuture | crates/blockchain/mempool.rs:474-476 | a replacement leaves the queue as it is |
| PoolSafety.PruneOk | crates/blockchain/mempool.rs:946-952 | pruning the order queue loses no pooled transaction |
| PoolLaws.KeptSplits | crates/blockchain/mempool.rs:946-952 | pruning keeps the order of what it keeps, entry by entry |
| PoolLaws.PrunedWhen | crates/blockchain/mempool.rs:946-952 | only a queue longer than one and a half times the cap is pruned, to exactly the entries that are pooled |
| PoolLaws.EvictsFromFront | crates/blockchain/mempool.rs:541-554 | regular eviction takes a first stretch of the order queue, nothing when there is room |
| PoolLaws.NewestLast | crates/blockchain/mempool.rs:541-554 | what stands last in the queue goes only when every other regular transaction is gone |
| PoolLaws.FurthestFirst | crates/blockchain/mempool.rs:571-612 | the blob transaction taken waits furthest behind its sender's lowest blob nonce, and at equal distance pays the least |
| PoolLaws.AddEnters | crates/blockchain/mempool.rs:974-1027 | an accepted insertion marks the transaction for broadcast or as private as asked, with its reservation and as its sender's pending frame transaction, and whatever else stays pooled keeps its marks |
| PoolLaws.AddTakes | crates/blockchain/mempool.rs:940-1027 | it takes out the transaction of its slot, then blob transactions worst first or others from the front of the queue, and nothing else |
| PoolLaws.OpsMean | crates/blockchain/mempool.rs:293-348 | each other operation moves its own transaction, bundle or marks and nothing else |
| PoolSafety.FrameCanInsert | crates/blockchain/mempool.rs:873-944 | a frame transaction that passes its gates finds its sender free, its paymaster's total in range and the limit kept |
| PoolSafety.PaymasterGateExact | crates/blockchain/mempool.rs:889-925 | the paymaster gate as one equation, errors and their order included: the limit and the cover are counted without the transaction being replaced, and with the own reservation of one that is pooled already |
| AdmissionLaws.GatesExact | crates/blockchain/mempool.rs:461-525 | the sender gates pass exactly when the transaction replaces one or leaves no gap or finds room beyond the sender's first missing nonce, the pool is not filled to the threshold, and the balance pays for everything at other nonces; the first that fails gives the error with its numbers |
| AdmissionLaws.FrameExact | crates/blockchain/mempool.rs:873-925 | the frame gates pass exactly when the sender has no frame transaction at another nonce, a non-canonical paymaster sponsors no other one, and the paymaster covers the sum; the first that fails gives the error |
| AdmissionLaws.VerdictExact | crates/blockchain/mempool.rs:830-925 | a request is admitted exactly when the gates that apply to it allow it, all said of the pooled transactions |
| AdmissionLaws.BalanceCovers | crates/blockchain/mempool.rs:507-523 | after an accepted balance-checked insertion the sender's pooled transactions from the account's nonce up cost no more than its balance |
| PoolSafety.AddTied | crates/blockchain/mempool.rs:830-1027 | an accepted insertion keeps every tie between the maps but the bundles' |
| PoolSafety.AddValid | crates/blockchain/mempool.rs:830-1027 | it keeps the bundles' as well if and only if a blob transaction finds its bundle and is not pooled already |
| PoolSafety.RegularLeft | crates/blockchain/mempool.rs:963-973 | how many regular transactions a regular insertion leaves, exactly, in every pool |
| PoolSafety.RegularCap | crates/blockchain/mempool.rs:963-973 | they are within the cap if and only if there was room or, with a cap above zero, there are no more bundles without their transaction than transactions without their bundle |
| PoolSafety.BlobCount | crates/blockchain/mempool.rs:957-962 | how many blob transactions and bundles a blob insertion leaves, exactly, in every pool; it removes no other regular transaction |
| PoolSafety.BlobCap | crates/blockchain/mempool.rs:957-962 | the blob transactions are within the cap if and only if there was room or those without their bundle are fewer than the bundles without their transaction and than the cap; the bundles exceed it exactly when those without their transaction do |
| PoolSafety.WithinBalance | crates/blockchain/mempool.rs:507-523 | after an accepted balance-checked insertion the sender's pooled cost from its account nonce up is at most its balance |
| PoolSafety.QueueKept | crates/blockchain/mempool.rs:476-488 | before eviction a future nonce keeps the queued count within its limit and any other insertion does not raise it |
| PoolRuns.EveryRunTied | crates/blockchain/mempool.rs:293-1095 | after any sequence of operations all maps but the bundles agree |
| PoolRuns.EveryRunValid | crates/blockchain/mempool.rs:293-1095 | the bundles agree with them throughout a run if and only if no accepted blob transaction goes without its bundle or is pooled already, and no bundle of a pooled one is rolled back |
| BundleRuns.WindowExact | crates/blockchain/mempool.rs:1070-1095 | at each point of every run a bundle is without its transaction exactly when an operation stored it so and none has inserted the transaction or rolled the bundle back since |
| BundleRuns.BareExact | crates/blockchain/mempool.rs:830-1027 | at each point of every run a pooled blob transaction is without its bundle exactly when it was inserted without one, or while pooled already, or its bundle was rolled back while it was pooled, and it has stayed pooled without a new bundle since |
| BundleRuns.BundlesExact | crates/blockchain/mempool.rs:370-374 | the bundles are exactly those of the pooled blob transactions if and only if there is no bundle and no transaction of either kind |
| PoolCaps.EveryRegularCap | crates/blockchain/mempool.rs:963-973 | the same in every run; with no transaction stripped of its bundle it comes to room or no open bundle |
| PoolCaps.EveryRunCapped | crates/blockchain/mempool.rs:541-554 | in every run the regular transactions exceed their cap, or one, by no more than the most bundles that were open at once |
| PoolCaps.EveryBlobCap | crates/blockchain/mempool.rs:957-962 | the exact condition for a blob insertion to stay within the cap, in every run |
| PoolCaps.EveryRunBlobCapped | crates/blockchain/mempool.rs:571-612 | in every run the pooled blob transactions exceed their cap, or one, by no more than the most that were without their bundle at once |
| PoolCaps.OrderlyBlobCapped | crates/blockchain/mempool.rs:571-612 | so in every orderly run they never do |
| PoolRuns.EveryRunExclusive | crates/blockchain/mempool.rs:830-1027 | no two pooled transactions share a slot, no sender has two frame transactions, and without any the frame maps are empty |
| Rollback.RejectedBlob | crates/blockchain/blockchain.rs:3387-3415 | a bundle, any operations, among them the rejected insertion, and the rollback lead through the pools that the same operations make without the bundle if and only if no eviction in between depends on it |
| Rollback.RollbackClears | crates/blockchain/mempool.rs:1092-1095 | whatever happens in between, the rollback leaves no trace of the bundle and of no other |
| PoolWitness.CapExceeded | crates/blockchain/mempool.rs:963-973 | a run in which one blob insertion under way lets a regular insertion exceed the cap |
| PoolWitness.BundleStays | crates/blockchain/payload.rs:1193-1199 | a run in which a bundle stored again after its transaction left stays, and the regular cap is exceeded with no insertion under way |
| PoolWitness.BundleLost | crates/blockchain/blockchain.rs:3346-3415 | a run in which two overlapping submissions of one blob transaction leave it pooled without its bundle, after which the regular eviction runs dry |
| PoolWitness.BlobCapExceeded | crates/blockchain/mempool.rs:957-962 | a run in which the next blob insertion then exceeds the cap |
| PoolWitness.RollbackMatters | crates/blockchain/blockchain.rs:3387-3415 | two runs that differ by a bundle and its rollback, and in what was evicted in between |
| Replacement.ReplacementOutbids | crates/blockchain/mempool.rs:1872-1965 | nothing is replaced exactly when no other transaction of the sender is pooled at the nonce; such a one is replaced exactly when it is of the same category, both caps are higher, and fee cap, tip cap and blob fee each bid the bumped price less one unit, with no overflow; otherwise the error says which |
| Replacement.ChainRises | crates/blockchain/mempool.rs:1872-1965 | a chain of replacements, each found in whatever pool, stays in its slot and category and never returns to an earlier bid |
| Mempool.AddCosts | crates/blockchain/mempool.rs:426-453 | the loop returns the sum, or the error exactly when a cost or the sum overflows |
| Mempool.LowestNonces | crates/blockchain/mempool.rs:576-586 | each sender's lowest blob nonce |
| Mempool.Furthest | crates/blockchain/mempool.rs:590-599 | the transaction furthest behind its sender's lowest nonce, the cheapest on a tie |
| Mempool.MempoolInner.constructor | crates/blockchain/mempool.rs:278-290 | the empty pool, with its caps |
| Mempool.MempoolInner.AddBlobsBundle | crates/blockchain/mempool.rs:1070-1086 | the bundle and its index entries go in; the index stays exact if and only if no commitment of an overwritten bundle is missing |
| Mempool.MempoolInner.RemoveTransaction | crates/blockchain/mempool.rs:293-348 | the in-place removal is the removal of the model |
| Mempool.MempoolInner.NextExecutableNonce | crates/blockchain/mempool.rs:381-393 | the walk ends at the least missing nonce |
| Mempool.MempoolInner.SumCostForSender | crates/blockchain/mempool.rs:426-453 | the sender's summed cost; the inconsistency error is unreachable |
| Mempool.MempoolInner.CheckGates | crates/blockchain/mempool.rs:461-525 | the gates in the order of the code, errors included; it passes exactly when the queue, the gap and the balance, said of the pooled transactions, allow the request |
| Mempool.MempoolInner.CheckRequest | crates/blockchain/mempool.rs:856-925 | the verdict on a request, none exactly when it is admitted |
| Mempool.MempoolInner.RemoveOldestRegular | crates/blockchain/mempool.rs:541-554 | the loop evicts in arrival order |
| Mempool.MempoolInner.WorstBlob | crates/blockchain/mempool.rs:576-599 | the two scans find a worst evictable blob transaction, and none exactly when there is none |
| Mempool.MempoolInner.RemoveWorstBlobs | crates/blockchain/mempool.rs:571-612 | each evicted transaction was the worst at its turn |
| Mempool.MempoolInner.AddTransaction | crates/blockchain/mempool.rs:830-1027 | all or nothing: exactly the requests the gates admit are accepted; a refusal changes nothing, an acceptance frees the slot, makes room and inserts; the maps agree either way, the bundles exactly when the transaction found its bundle and was not pooled |
| Chain.CanonicalAncestry | crates/storage/store.rs:1742-1783 | in a linked chain the canonical block at a height is the ancestor of every later canonical block |
| Chain.BranchJoins | crates/blockchain/fork_choice.rs:296-332 | a found branch is a run of parents, none canonical, that ends right above a canonical block |
| Chain.NoBranch | crates/blockchain/fork_choice.rs:296-332 | no branch means that no stored ancestor down to the earliest height is canonical |
| Chain.UpdatedAt | crates/storage/store.rs:1742-1783 | the canonical map after an update, height by height |
| Chain.BranchUpdateLinked | crates/storage/store.rs:1742-1783 | an update along a branch keeps the chain linked |
| Chain.TruncateLinked | crates/storage/store.rs:1762-1775 | making a canonical block the head truncates the chain and changes nothing below |
| ForkChoice.Ceiling | crates/blockchain/fork_choice.rs:37-61 | the ceiling never passes genesis or the operator's cap, reaches no deeper than retention or journal, and without a cap is the deeper of the two |
| ForkChoice.LinkIsCommon | crates/blockchain/fork_choice.rs:166-175 | the link height is canonical and an ancestor of the head |
| ForkChoice.AcceptedLinked | crates/blockchain/fork_choice.rs:142-238 | an accepted update keeps the chain linked and unchanged up to the link |
| ForkChoice.DepthBounded | crates/blockchain/fork_choice.rs:175-182 | no canonical block at or below the latest height less the ceiling ever changes |
| ForkChoice.ConnectedIsAncestor | crates/blockchain/fork_choice.rs:185-207 | a block that passes the connectivity test is an ancestor of the head if and only if it is not the old canonical block at the height of the lowest new block |
| ForkChoice.TestedElements | crates/blockchain/fork_choice.rs:185-226 | the same for the safe and the finalized block of every update that passes the tests, also when it is left to the deep path |
| ForkChoice.AcceptedElements | crates/blockchain/fork_choice.rs:185-226 | so for every update that either path accepts |
| ForkChoice.FinalizedReplaced | crates/blockchain/fork_choice.rs:185-195 | a concrete update that is accepted although its finalized block is not on the new chain |
| ForkChoice.PivotIsLink | crates/blockchain/fork_choice.rs:468-487 | the deep path's pivot is the height the depth gate measured from, the highest common block |
| ForkChoice.ReplayIsRun | crates/blockchain/fork_choice.rs:558-567 | the replay is the linked run from above the pivot to the head, each block after its parent, empty exactly for a canonical head |
| ForkChoice.ReplayVerdict | crates/blockchain/fork_choice.rs:657-700 | a replay is accepted when every block ran; otherwise its first block that did not run gives the error, an invalid one by its parent, the last valid one |
| ForkChoice.DecidedSafely | crates/blockchain/fork_choice.rs:376-400 | on either path an accepted update keeps the chain linked and bounded |
| ForkChoiceLaws.RefusesExact | crates/blockchain/fork_choice.rs:76-238 | the shallow path accepts exactly the updates whose head is stored, whose named blocks are in order and on the new chain, that are no old news, link and are not too deep, and whose lowest new block, the head's ancestor right above its highest canonical one, has its state there; it leaves them to the deep path exactly when all of this holds but that state |
| ForkChoiceLaws.RefusalReasons | crates/blockchain/fork_choice.rs:76-238 | what every other refusal means, in headers, ancestors and heights |
| ForkChoiceLaws.DeepExact | crates/blockchain/fork_choice.rs:416-616 | the deep path accepts exactly when the journal reaches above the meeting height, the overlay installs, and every new block up to the head runs |
| ForkChoiceLaws.DeepReasons | crates/blockchain/fork_choice.rs:416-616 | and otherwise says what is missing, an invalid lowest block by its parent |
| ForkChoiceLaws.DecidesExact | crates/blockchain/fork_choice.rs:376-400 | so for both paths together; in an accepted update finalized is no higher than safe, and safe no higher than the head |
| ForkChoiceLaws.AcceptedMarkers | crates/storage/store.rs:1742-1783 | the safe and finalized markers go to the named stored blocks and stay otherwise |
| BlockStore.ClimbClimbs | cmd/ethrex/initializers.rs:1319-1352 | the walk from the committed block is a complete linked run down to the head |
| BlockStore.AdoptLinked | cmd/ethrex/initializers.rs:1356-1358 | adopting it extends the chain and changes nothing below |
| BlockStore.ChainStore.FindLinkWithCanonicalChain | crates/blockchain/fork_choice.rs:296-332 | the loop finds the branch, or none |
| BlockStore.ChainStore.ForkchoiceUpdate | crates/storage/store.rs:1742-1790 | the writes and deletions make the updated store |
| BlockStore.ChainStore.ApplyForkChoice | crates/blockchain/fork_choice.rs:76-238 | the checks in the order of the code; accepted exactly as said of ancestors and states, left to the deep path exactly when only the lowest new state is missing; a refusal changes nothing |
| BlockStore.ChainStore.ReplayBlocks | crates/blockchain/fork_choice.rs:657-700 | blocks run oldest first, up to the first that does not |
| BlockStore.ChainStore.ReorgApplyDeep | crates/blockchain/fork_choice.rs:416-616 | the deep path, with its own refusals; a refusal changes nothing |
| BlockStore.ChainStore.ApplyWithDeepReorg | crates/blockchain/fork_choice.rs:376-400 | accepted exactly when the shallow path takes it or misses only a state and the deep path takes it; an accepted update's safe and finalized blocks are in order and belong to the new chain up to the one exception |
| BlockStore.ChainStore.AdoptCommittedHead | cmd/ethrex/initializers.rs:1285-1369 | adoption happens exactly when stored headers lead from the journaled block, whose state is on disk, down to the head; otherwise the store is untouched |
| BlockStore.ChainStore.RegenerateHeadState | cmd/ethrex/initializers.rs:1197-1250 | regeneration starts at the highest canonical block with state, executes each block on a state that is there, and succeeds exactly when there is such a block and every block above it runs |
| Landing.LandedLinked | crates/storage/store.rs:3417-3437 | a write whose branch was looked up on an earlier store keeps the chain linked if and only if the parent of its lowest block is still canonical |
| Landing.LandedMarkers | crates/storage/store.rs:1742-1783 | the markers go to the blocks stored when they were looked up, and stay otherwise |
| Landing.LandedDepth | crates/blockchain/fork_choice.rs:416-616 | such a write spares every height at or below the latest less c if and only if the first height that changes, the lowest of its path that is not canonical yet or the one above its head, is above |
| Histories.OutcomeIs | crates/blockchain/fork_choice.rs:376-430 | an overlapping update is accepted exactly when the shallow tests on the first store take it, or miss only a state there and the deep ones on the second take it |
| Histories.EveryHistoryLinked | crates/blockchain/fork_choice.rs:376-400 | through every history of headers, overlapping updates and recoveries the chain stays linked if and only if each accepted update is still attached when it lands |
| Histories.EveryAloneLinked | crates/storage/store.rs:1742-1783 | so it does in every history whose updates do not overlap, and is then the ancestry of its head |
| Histories.LinkLost | crates/storage/store.rs:3424-3437 | a history of two overlapping updates, both accepted, after which the chain is not linked |
| ReorgGuard.StepInv | crates/blockchain/blockchain.rs:744-757 | every step of every thread keeps the guard invariant |
| ReorgGuard.AtMostOneReorg | crates/blockchain/blockchain.rs:330-337 | at most one pass is in flight, pruning is paused throughout it and only then, and a free flag means no half-applied overlay |
| ReorgGuard.AbortBeforeRelease | crates/blockchain/fork_choice.rs:710-739 | an overlay that was not confirmed is aborted before the flag is cleared |
| ReorgGuard.LoserStaysOut | crates/blockchain/fork_choice.rs:428-430 | while a pass is in flight no other thread gets in |
| ReorgGuard.FreeFlagAdmits | crates/blockchain/blockchain.rs:743-757 | in every run the flag is down exactly when every thread is outside, and a thread that then enters comes in and raises it |
| ReorgGuard.GetsOut | crates/blockchain/blockchain.rs:330-337 | no guard leaks: from every reachable state the thread inside gets out by its own steps and leaves flag, pause and overlay down |
| ReorgGuard.BothOutcomes | crates/blockchain/fork_choice.rs:702-739 | there is a pass that installs its overlay and succeeds, and one that fails and aborts it |
| PayloadQueue.CmpOrders | crates/blockchain/payload.rs:1659-1670 | the head order is a total preorder whose two directions agree |
| PayloadLaws.CmpIs | crates/blockchain/payload.rs:1659-1670 | the order in fields: privileged first, by nonce, then the higher tip, then the lesser time |
| PayloadLaws.NextIs | crates/blockchain/payload.rs:916-922 | what is tried next is privileged with the least nonce if any sender's next transaction is privileged, otherwise has the highest tip and the least time among equal tips; a full tie between the queues goes to the plain one |
| PayloadLaws.EveryRoundTriesNext | crates/blockchain/payload.rs:896-1039 | every round of every filling tries such a transaction of what the rounds before it left |
| PayloadQueue.Place | crates/blockchain/payload.rs:1645-1649 | the binary search finds a place between smaller and larger heads |
| PayloadQueue.TransactionQueue.Build | crates/blockchain/payload.rs:1575-1601 | one sorted head per sender, the rest waiting; an error exactly when some head cannot be priced |
| PayloadQueue.TransactionQueue.Peek | crates/blockchain/payload.rs:1616-1618 | the head that no other precedes, none exactly when nothing waits |
| PayloadQueue.TransactionQueue.Pop | crates/blockchain/payload.rs:1621-1626 | drops the head's sender and no other; fewer transactions wait |
| PayloadQueue.TransactionQueue.Shift | crates/blockchain/payload.rs:1630-1654 | drops one transaction and keeps the heads sorted; the pricing error is unreachable |
| PayloadBuild.CountedTotals | crates/blockchain/payload.rs:1456-1540 | counting an accepted transaction gives the totals of the longer list, within every limit, without saturation |
| PayloadBuild.PayloadBuildContext.GasUsed | crates/blockchain/payload.rs:345-352 | the block gas is the larger dimension since Amsterdam and the sum before, and within the limit |
| PayloadBuild.PayloadBuildContext.ApplyPlain | crates/blockchain/payload.rs:1456-1540 | a failed or overflowing execution leaves every counter as it was |
| PayloadBuild.PayloadBuildContext.ApplyBlob | crates/blockchain/payload.rs:1175-1266 | the blob limits are checked before, blob gas and bundle counted after |
| PayloadBuild.PayloadBuildContext.ApplyTx | crates/blockchain/payload.rs:1090-1159 | a transaction goes in with its report, or leaves no trace, and every counter stays the total over what is included |
| PayloadBuild.Choose | crates/blockchain/payload.rs:916-922 | the better head of the two queues, the plain one on a tie |
| PayloadBuild.TryHead | crates/blockchain/payload.rs:924-1036 | what becomes of a head: skipped, too large, barred, refused or taken, each exactly under its condition |
| PayloadLaws.FateExact | crates/blockchain/payload.rs:924-1036 | each outcome in sums over the block so far: skipped for gas, too large, barred by the fork or its expiry, taken, or refused, and which of the refused leave the pool |
| PayloadLaws.FullExact | crates/blockchain/payload.rs:903-1039 | a filled block has no gas for the cheapest transaction, or nothing waits for it, or the next one would make it too large |
| PayloadBuild.FillRounds | crates/blockchain/payload.rs:896-1039 | filling ends, tries the best head each round, and stops only for want of gas or transactions or at an oversized one |
| PayloadBuild.FillTransactions | crates/blockchain/payload.rs:896-1039 | in the block it fills, each sender has of each queue a first part of what was waiting, at rising nonces |
| PayloadBuild.RoundsAccount | crates/blockchain/payload.rs:896-1039 | what each sender had waiting is what went in followed by what still waits, or what went in is a first part of it |
| PayloadBuild.IncludedInOrder | crates/blockchain/payload.rs:1630-1654 | the account of a queue means that every sender's included transactions rise in nonce and skip none |
| GasLimit.CalcGasLimit | crates/blockchain/payload.rs:217-235 | the limit moves by less than a 1024th of the parent, never overshoots the target and stays at or above 5000 |
| GasLimit.CalcIsClosest | crates/blockchain/payload.rs:217-235 | no other limit strictly within a 1024th of the parent is closer to the target |
| GasLimit.Approaches | crates/blockchain/payload.rs:217-235 | from 2048 up, every block brings the limit closer, and the target is kept once reached |
| GasLimit.ReachesTarget | crates/blockchain/payload.rs:217-235 | the target is reached in finitely many blocks if and only if the parent is at least 2048 |
| Base64.AlphabetRoundTrip | crates/common/base64.rs:8-29 | the two alphabet maps are inverse on six-bit values, within the URL-safe alphabet |
| Base64.AlphabetIs | crates/common/base64.rs:8-18 | the alphabet, character by character |
| Base64.AlphabetRead | crates/common/base64.rs:20-29 | reading is the inverse on the alphabet, 64 for the padding character and zero elsewhere |
| Base64.EncodeAt | crates/common/base64.rs:31-78 | character j of block i is the j-th six bits of the block's three bytes |
| Base64.PaddingIgnored | crates/common/base64.rs:80-114 | decoding ignores the padding and what follows it |
| Base64.RoundTrip | crates/common/base64.rs:31-114 | decoding an encoding gives the bytes back |
| Base64.RoundTripUnpadded | crates/common/base64.rs:31-114 | also with the padding left off |
| Base64.EncodingShape | crates/common/base64.rs:31-78 | the length is a multiple of four, padding is at the end, everything else is URL-safe |
| Base64.EncodeBlock | crates/common/base64.rs:51-75 | the carry loop computes the characters of one block |
| Base64.EncodeBytes | crates/common/base64.rs:31-78 | the block loop computes the encoding |
| Base64.DecodeBytes | crates/common/base64.rs:80-114 | the character loop computes the decoding |

## Left out

- Trie node diffs, prefetching, pre-collection, caches, warmers and metrics: they do not change a root.
- MerklizeAccounts messages: they only add empty node lists for persistence.
- The block-access-list merkleization path and the witness accumulator: other routes to the same root.
- Aliasing inside one worker's maps: maps are values that the worker object reassigns.
- Announcement bookkeeping of the mempool (in-flight hashes, alternates, cells, providers): no tie to the modelled maps.
- The stateless checks of transaction validation and the fork gates: each is settled by one branch.
- The unlocked pre-checks of an insertion: the locked step is what is proved, and replacement pricing is sequential.
- Age order and a length bound of the order queue: re-inserted transactions leave duplicates there, so neither holds.
- PoolRuns.EveryRunValid: insertions without an admission guard are left out, because they overwrite a slot by design.
- Journal and overlay contents, flat-state generation and the flushed-upto marker: they appear as conditions only.
- ReorgGuard.AtMostOneReorg: speaks of the pause flag; a pruning step that read the flag before the pause is not modelled.
- Histories.EveryHistoryLinked: one update's headers are read at one moment per step; header lookups of one walk are not interleaved with arrivals.
- PayloadBuild.FillTransactions: the payload size is modelled as the code keeps it, an upper estimate that also counts failed transactions.
- Explicit transaction lists, withdrawals, requests, access lists and payload finalization: not part of this model.
- Base64.DecodeBytes: characters outside the alphabet decode as zero, as in the code; no error is reported.
