# durable, as a verified model

`durable` runs linear sagas whose state survives crashes. This project models the parts of it where a mistake would
lose work, run it twice or wait forever, and proves what the code and its documentation promise of them. Verify it
with `dafny verify dfyconfig.toml` (Dafny 4.11).

## What is modelled

**The stores.** `Records` holds the durable records and the rules both stores share. `MemStore` is the in-memory
reference store, as functions on its maps and as a class that updates them in place. `Keys` and `BboltRows` are the
bytes of the bbolt store: its keys, their order, and the code that writes, walks and deletes a Run's rows.
`BboltStore` is the store over its six buckets. `StageView` is what the buckets spell out, component by component, and
`StageRefinement` proves that every admissible history of it answers as the reference store does. `StoreLaws` says what
the operations of both mean to a caller: what is read back, who blocks, who is reaped. `BlobCache` and
`CachedStore` add the two blob caches, one call at a time; `ConcurrentReads` interleaves their locked sections with
readers that hold a snapshot and with each other's commits.

**A Run.** `Ledger` decides the next operation. `Saga` follows its decisions while the topology changes between any
two events; `SagaOrder` follows them under one topology. `Transitions` is what each turn of the engine does to the
record it carries and the transition it commits; `RunTurns` is what is in the store after each. `RunMachine` is the whole Run as a machine with crashes, redeploys
and cancel requests at any moment; `RunOrders`, `RunSaga` and `RunStates` draw its consequences, and `RunWorker` is the worker
in place, each method a step of that machine. `Fleet` is any number of such Runs over one store: what they ask of it is
an admissible history of `StageRefinement`, so the two halves compose. `Exclusion` is mutual exclusion between pipelines.

**Waking up.** `TokenPool`, `RunPool`, `JoinSet` and `Dispatcher` are the four stateful mechanisms, with the kicks and
dispatches their callers owe. `AwaitGate` composes the join with the gate and the targets' commits, `AwaitCycle` is the
deadlock walk, and `Cancellation` is the cancel request against a running worker. In these modules one locked section,
one channel operation or one store call is one step, and all steps interleave.

Classes update the same fields the source's objects do; each method is proved equal to a function, and the theorems
are about those functions over every run.

## Where the code and its promise differ

- The expiry index orders commit times as times only on one side of the epoch, and a zero commit time encodes as the
  epoch does (`StageRefinement.ExpiryConfusesEpoch`); `StageRefinement.ReachableExactly` gives the exact condition.
- The resolution order is a uint32 that wraps (`Records.NextOrderFresh`); the ordering theorems hold until it is used
  up, which `RunSaga.RunsOrdersExact` rules out for any real topology.
- After a redeploy displaces an unwind, the ledger refuses the Run until one of the two resolves
  (`Saga.DisplacedUnwindRefused`, `Saga.EvolutionInvalidIff`).
- A join documents a kick as the crossing of the threshold; a waiter that a mark already took across is kicked by its
  next completion too (`JoinSet.KickedIff`, `JoinSet.MarkedMayBeKicked`).
- The deadlock walk gives up after 1024 nodes (`AwaitCycle.RingDetectedIff`).
- Holding a member by right names no one to wake. It strands a line exactly when the member heads it, a token is left
  after its own, and the next in line was refused and is owed no kick (`RunPool.HoldKeepsIff`; a run that gets there is
  `RunPool.HoldAfterRefusalStrands`). The engine holds only at recovery, before anyone was refused
  (`RunPool.RecoveryHolds`).
- A preempted attempt is documented to resolve as canceled unless it succeeds. One that misused its invocation leaves
  its Run invalid and the operation unresolved instead (`Cancellation.CutOnceAsked`).
- The ledger's "unreachable" and "inconsistent" reasons are dead branches: its methods prove they are never returned.

## Model

| member | source | states |
|---|---|---|
| Records.CompactTerminal | store/driver/driver.go:231-247 | the loop over the steps, in any order, equals the compaction StoreLaws.CommitMeans reads back: blobs, retry, error and park fields gone, only failed unwinds kept, all else as it was |
| Records.NextOrder | store/driver/driver.go:285-291 | the loop returns one past the greatest recorded order, wrapping at 2^32 |
| Records.NextOrderFresh | store/driver/driver.go:285-300 | the next order exceeds every recorded one exactly while the greatest is below 2^32 - 1 |
| Records.UnwindFailures | store/driver/driver.go:264-281 | lists every permanent unwind failure once, by ascending resolution order |
| Records.UnwindFailuresUnique | store/driver/driver.go:264-281 | with distinct orders that list is unique, so map iteration order cannot show |
| Records.CompactKeepsUnwindFailures | store/driver/driver.go:231-247 | compaction keeps exactly the unwind failures and is idempotent |
| Keys.EncodeInjective | store/bbolt/store.go:365-394 | active keys of all kinds never collide, across Runs, tags, orders, steps and phases |
| Keys.SplitActiveKeyEncode | store/bbolt/store.go:399-405 | splitActiveKey undoes every active key |
| Keys.SplitOpRestRoundTrip | store/bbolt/store.go:409-421 | splitOpRest undoes the rest of an operation key |
| Keys.StateSuffixTells | store/bbolt/store.go:714-716 | the state suffix holds of exactly the state keys, and stripping it leaves the row's key |
| Keys.SlotKeyInjective | store/bbolt/store.go:357-363 | slot keys are equal exactly for equal pipeline and resource |
| Keys.OutputKeyApart | store/bbolt/store.go:719-721 | an output key is no Run's terminal key and is injective |
| Keys.ExpiryKeyInjective | store/bbolt/store.go:690-700 | an expiry key splits into its 8 time bytes and its Run |
| Keys.PrefixIsRun | store/bbolt/store.go:365-376 | a key has a Run's prefix exactly when it is that Run's |
| Keys.RowsByTag | store/bbolt/store.go:365-387 | a Run's rows sort by tag: meta, cancel, failure, input, operations |
| Keys.OpsByOrder | store/bbolt/store.go:380-387 | operation rows sort by resolution order |
| Keys.StateAfterRow | store/bbolt/store.go:714-716 | a state key is its row's key extended, and follows it |
| Keys.FindOpTells | store/bbolt/store.go:797-809 | findOp's prefix and suffix test holds of exactly the operation's rows |
| Keys.ExpiryOrder | store/bbolt/store.go:690-700 | encoded commit times compare as times exactly when both are on one side of the epoch and a zero time is not compared with the epoch itself |
| Bytes.BEOrder | store/bbolt/store.go:690-696 | big-endian encodings of one width order as the numbers do |
| Bytes.PrefixWalk | store/bbolt/store.go:779-793 | a cursor walk from a prefix to the first key without it visits exactly the keys that have it |
| MemStore.Store.CreateRun | store/mem/mem.go:48-67 | in place: the first occupied slot blocks, else the record and its slot are added |
| MemStore.Store.ApplyTransition | store/mem/mem.go:114-174 | in place: operations, then cursor overlay, failure and outcome; the slot and in-flight entry follow |
| MemStore.Store.RequestCancel | store/mem/mem.go:192-206 | the first request wins; terminal and missing Runs are errors |
| MemStore.Store.ReapTerminal | store/mem/mem.go:176-190 | deletes as many expired terminal Runs as the limit allows and nothing else |
| MemStore.Store.ListNonterminal | store/mem/mem.go:208-218 | lists the head of each nonterminal Run once |
| StageRefinement.TransitionAgreesExactly | store/bbolt/store.go:559-642 | the record assembled from rows and cursor follows the reference record exactly when the operation that was in flight is covered by the next cursor or a write, or its row is already current |
| StageRefinement.CommitAgreesExactly | store/bbolt/store.go:575-620 | both terminal records agree exactly unless the committing cursor puts in flight a failed unwind of a step that did not succeed; an idle cursor never does |
| StageRefinement.ReachableExactly | store/bbolt/store.go:1095-1112 | the expiry walk reaches exactly the reference's expired Runs just when every commit time is on the sound side of the cutoff |
| StageRefinement.ExpiryConfusesEpoch | store/bbolt/store.go:690-696 | the concrete times where index and reference differ: zero or negative commit times against an epoch cutoff |
| StageRefinement.CreateRefines | store/bbolt/store.go:436-470 | creating refines the reference store, answers and blockers included |
| StageRefinement.ApplyRefines | store/bbolt/store.go:559-642 | a transition that keeps the delta contract refines the reference store, errors included |
| StageRefinement.CancelRefines | store/bbolt/store.go:1139-1163 | a cancel request refines the reference store |
| StageRefinement.HeadRefines | store/bbolt/store.go:1028-1073 | the head read from the first rows equals the reference head projection |
| StageRefinement.ListRefines | store/bbolt/store.go:1171-1184 | the heads of the slot holders are the reference's nonterminal heads |
| StageRefinement.ReapRefines | store/bbolt/store.go:1095-1137 | a reap of the oldest expired Runs is one the reference allows |
| StageRefinement.DrainRefines | store/bbolt/store.go:282-334 | a drain changes nothing the reference store can see |
| StageRefinement.StoreRefines | store/bbolt/store.go:559-665 | over every admissible sequence of operations the two stores give the same answers and stay coupled |
| StageRefinement.HistoriesAgree | store/mem/mem.go:1-7 | from empty stores: same answers, same Runs, same heads, same listing, and slots held by exactly the nonterminal Runs |
| StageRefinement.StagesOwned | store/bbolt/store.go:575-620 | whatever the nonterminal stage holds is a Run in its slot or one staged behind its terminal row |
| StageView.DrainInvisible | store/bbolt/store.go:282-334 | drains of staged Runs at any moment change no read, keep the slots exact, and once all are drained no terminal Run has a stage |
| StoreLaws.CommitMeans | store/bbolt/store.go:575-620 | after a terminal transition a read shows its phase, times, output and outcome, the failure, the Run's identity and cancel request, and of its operations only the failed unwinds; the slot is free |
| StoreLaws.TransitionMeans | store/mem/mem.go:114-160 | after an ordinary transition a read shows the cursor's fields, each operation as last written or in flight, and all else as it was |
| StoreLaws.TransitionElsewhere | store/mem/mem.go:114-125 | a transition touches no other Run, and a refused one nothing |
| StoreLaws.HeadMeans | store/mem/mem.go:96-112 | a head is the record without blobs and with only the operation in flight |
| StoreLaws.CreateMeans | store/mem/mem.go:48-67 | created exactly when no slot of its own or of an excluded pipeline is taken, and then read back as given; otherwise the first occupant is reported, its own slot's before others' |
| StoreLaws.CancelMeans | store/mem/mem.go:192-206 | the first request is stored, a later one answered no; nothing else changes |
| StoreLaws.FirstCancelStays | store/mem/mem.go:192-206 | in both stores, over every history, an accepted request is what every later read shows until the Run is reaped |
| StoreLaws.ReapsOnlyDue | store/bbolt/store.go:1095-1137 | over every history an ended Run shows the time its committing transition gave it, and a reap takes only Runs committed before its cutoff, as many as its limit allows |
| BboltRows.PutOp | store/bbolt/store.go:816-854 | writes an operation's row and its large state beside it, and removes the row and state it replaces, whatever their order |
| BboltRows.FindOp | store/bbolt/store.go:797-809 | finds the Run's row for a step and phase exactly when there is one |
| BboltRows.DeleteRows | store/bbolt/store.go:779-793 | deletes exactly one Run's active rows |
| BboltRows.GetNonterminal | store/bbolt/store.go:895-1023 | one prefix walk plus the cursor assembles exactly the Run's record, or reports it missing |
| BboltRows.GetHead | store/bbolt/store.go:1028-1073 | stopping at the first non-head tag reads exactly the head |
| BboltStore.TerminalRoundTrip | store/internal/storagepb/convert.go:254-325 | a compact terminal record survives its encoding, its output apart when kept beside |
| BboltStore.DrainStaged | store/bbolt/store.go:282-298 | drains the first n staged Runs, all of them when fewer are staged |
| BboltStore.ReapAll | store/bbolt/store.go:1109-1130 | row by row, exactly the doomed Runs lose stage, terminal row, output, index and staged keys |
| BboltStore.WalkTakesOldest | store/bbolt/store.go:1095-1112 | the index walk takes the oldest expired Runs first, as many as the limit allows |
| BboltStore.Store.GetRun | store/bbolt/store.go:869-890 | over the buckets, exactly the Run's record; the terminal row overrides a lingering stage |
| BboltStore.Store.GetRunHead | store/bbolt/store.go:1028-1073 | over the buckets, exactly the Run's head |
| BboltStore.Store.ListNonterminal | store/bbolt/store.go:1171-1184 | lists the head of each slot holder once |
| BboltStore.Store.GetActiveRunID | store/bbolt/store.go:1188-1198 | over the buckets, the Run that holds the slot, if any |
| BboltStore.Store.CreateRun | store/bbolt/store.go:436-470 | over the buckets, creation after an invisible drain |
| BboltStore.Store.ApplyTransition | store/bbolt/store.go:559-642 | over the buckets, the transition after an invisible drain; an error rolls everything back |
| BboltStore.Store.RequestCancel | store/bbolt/store.go:1139-1163 | over the buckets, the cancel request |
| BboltStore.Store.ReapTerminal | store/bbolt/store.go:1095-1137 | over the buckets, reaps the oldest expired Runs |
| BboltStore.Store.WriteDrain | store/bbolt/store.go:303-312 | a write drains nothing while fewer than 64 are counted as staged, else 64 or all there are, and the count follows |
| BboltStore.Store.DrainAll | store/bbolt/store.go:318-334 | drains until a short batch; then nothing is staged and no terminal Run has a stage |
| BlobCache.TrimKeepsLongest | store/bbolt/blobcache.go:80-94 | eviction keeps exactly the longest most recent prefix that fits, each entry unchanged, and the accounts right |
| BlobCache.LongestUnique | store/bbolt/blobcache.go:80-94 | that prefix is unique |
| BlobCache.SetInputSound | store/bbolt/blobcache.go:104-120 | the recency list stays a permutation of the index, sizes the bytes held, the total within a positive limit |
| BlobCache.SetStateSound | store/bbolt/blobcache.go:124-146 | the same after setting or dropping a step's state |
| BlobCache.SetOutputSound | store/bbolt/blobcache.go:149-165 | the same after setting an output |
| BlobCache.FillSound | store/bbolt/blobcache.go:169-186 | the same after a fill on a miss |
| BlobCache.DropSound | store/bbolt/blobcache.go:189-195 | the same after a drop, with no more bytes than before |
| BlobCache.SetInputWrites | store/bbolt/blobcache.go:104-120 | the Run's entry is there with the input, exactly when it fits alone; every other is as it was or evicted |
| BlobCache.SetStateWrites | store/bbolt/blobcache.go:124-146 | the same for a state; an empty one drops the step's and evicts no one |
| BlobCache.SetOutputWrites | store/bbolt/blobcache.go:149-165 | the same for an output |
| BlobCache.FillWrites | store/bbolt/blobcache.go:169-186 | the same for a fill on a miss |
| BlobCache.UseKeepsRecency | store/bbolt/blobcache.go:66-94 | whatever is done, the list stays in the order of use, and what is evicted was used before all that stays |
| BlobCache.RunsByRecency | store/bbolt/blobcache.go:66-94 | over every run of operations the list is in the order of last use |
| BlobCache.LRU.Evict | store/bbolt/blobcache.go:80-94 | the loop in place equals the trim, the entry just written going too when it is alone and too big |
| BlobCache.LRU.SetStateOf | store/bbolt/blobcache.go:124-146 | in place, the update and eviction |
| BlobCache.LRU.FillWith | store/bbolt/blobcache.go:169-186 | in place, the fill |
| BlobCache.LRU.Lookup | store/bbolt/blobcache.go:199-206 | in place, the entry, now most recently used |
| CachedStore.CachedReadIsFile | store/bbolt/store.go:895-989 | a read through a coherent entry is the file's record |
| CachedStore.Store.GetRun | store/bbolt/store.go:869-989 | one call at a time: whatever the caches hold, the file's record, and they stay coherent |
| CachedStore.Store.CreateRun | store/bbolt/store.go:436-484 | one call at a time: a created Run's input and large states are cached, and the caches stay coherent |
| CachedStore.Store.ApplyTransition | store/bbolt/store.go:640-665 | one call at a time: written states are cached, an ended Run's blobs dropped and its large output cached, and the caches stay coherent |
| CachedStore.Store.ReapTerminal | store/bbolt/store.go:1109-1130 | one call at a time: reaping drops the victims' outputs |
| ConcurrentReads.StepGood | store/bbolt/store.go:895-989 | every snapshot read, lookup, fill, commit, late cache update, early drop and drain, interleaved in any way, leaves caches and half-done reads holding only blobs their Runs have had |
| ConcurrentReads.ReadsAreSnapshots | store/bbolt/store.go:869-1001 | every read returns the record the file held when it began, whatever was committed, cached, evicted, dropped or filled while it ran |
| ConcurrentReads.CachedIsFile | store/bbolt/blobcache.go:37-40 | at any moment of any interleaving a live Run's cached blobs are the file's |
| ConcurrentReads.GatheredIs | store/bbolt/store.go:895-1001 | a record whose input and states were taken one by one, from cache or file, is the assembled one |
| Ledger.NextForward | internal/ledger/ledger.go:132-171 | whatever order the facts are visited in, the one forward decision: violation, pinned step, first never-started step past the frontier, or complete |
| Ledger.NextUnwind | internal/ledger/ledger.go:182-215 | whatever order the facts are visited in, the one unwind decision |
| Ledger.ForwardViolation | internal/ledger/ledger.go:94-108 | reports the least violation in sorted order; it never vanishes on re-derivation |
| Ledger.UnwindViolation | internal/ledger/ledger.go:111-122 | reports the two least unresolved unwinds |
| Ledger.ForwardDecided | internal/ledger/ledger.go:132-171 | facts and topology leave exactly one forward decision, reason included |
| Ledger.UnwindDecided | internal/ledger/ledger.go:182-215 | facts and topology leave exactly one unwind decision |
| Ledger.ForwardInvalidIff | internal/ledger/ledger.go:132-153 | forward is refused exactly on two unresolved operations, a failed one, or a pinned step missing from the topology |
| Saga.EvolutionSafe | internal/ledger/ledger.go:132-215 | under arbitrary redeploys: at most one unresolved forward operation, each operation resolves at most once, only executed steps unwind |
| Saga.EvolutionMayRun | internal/ledger/ledger.go:124-180 | every reservation is of an unresolved operation: the pinned one if any; a retired step only if it had started; an unwind only of an executed step that declares it |
| Saga.EvolutionInvalidIff | internal/ledger/ledger.go:132-191 | a reachable ledger is refused forward exactly when its pinned step left, in unwind exactly when two unwinds are unresolved |
| Saga.DisplacedUnwindRefused | internal/ledger/ledger.go:184-191 | a concrete redeploy that displaces an unwind, after which the ledger is refused whatever is deployed |
| Saga.EvolutionKeepsFrontiers | internal/ledger/ledger.go:124-181 | under whatever topology is registered now, a step that never started runs only past every step that ran, and a step unwinds only before every step that unwound, none skipped |
| Saga.EvolutionEndsDone | internal/ledger/ledger.go:155-215 | a Run ends only with no step left ahead of the forward frontier or below the unwind one |
| SagaOrder.SagaHasShape | internal/ledger/ledger.go:124-215 | under one topology every reachable ledger is a prefix of the steps in order, or that, a failure, and a prefix of the reverse unwind |
| SagaOrder.NeverInvalid | internal/ledger/ledger.go:132-215 | under one topology no reachable ledger is refused |
| SagaOrder.FinishedRun | internal/ledger/ledger.go:124-215 | a finished Run ran every step, or unwound exactly the executed steps that unwind, last first |
| SagaOrder.RanClimbs | internal/ledger/ledger.go:155-170 | forward operations resolve at strictly increasing positions |
| SagaOrder.UndoneIsReverse | internal/ledger/ledger.go:173-181 | the complete unwind is the reverse of what ran and unwinds |
| SagaOrder.ResolutionLowers | internal/ledger/ledger.go:132-215 | every resolution lowers phase and steps left, lexicographically |
| SagaOrder.ResolutionsBounded | internal/ledger/ledger.go:132-215 | at most twice as many resolutions as steps |
| Transitions.Flush | engine/engine.go:1776-1800 | the loop writes exactly the unresolved operations covered by neither the cursor nor a write |
| Transitions.ApplyMirrors | engine/engine.go:765-773 | after a successful apply the record in memory is the store's, compacted at the end, an unread cancel aside |
| Transitions.FlushCovers | store/mem/mem.go:125-140 | every unresolved operation of the record is in the transition |
| Transitions.ReservedTells | engine/engine.go:1378-1387 | the reservation's transition carries all the reservation changed |
| Transitions.SucceededTells | engine/engine.go:1421-1444 | a success's transition carries all it changed |
| Transitions.FailedTells | engine/engine.go:1446-1475 | a permanent failure's transition carries all it changed, forward or unwind |
| Transitions.CanceledTells | engine/engine.go:958-1004 | a cancellation's transition carries all it changed |
| Transitions.RetriedTells | engine/engine.go:1478-1486 | a retry's transition carries all it changed |
| Transitions.ParkedTells | engine/engine.go:1300-1306 | a park's transition carries all it changed |
| Transitions.CompletedTells | engine/engine.go:1579-1584 | a completion's transition carries all it changed |
| RunMachine.TurnKeepsContract | store/mem/mem.go:125-160 | a transition of the worker covers whatever is in flight and writes the Failure once |
| RunMachine.RunsKeepInv | engine/engine.go:774-920 | every run, with crashes, redeploys and cancels anywhere, keeps all the machine's invariants |
| RunMachine.RunsCarryTheRecord | engine/engine.go:765-773 | while a record is carried, a fresh read returns the same but for an unread cancel |
| RunMachine.RunsKeepContract | engine/engine.go:1772-1807 | every transition of every run keeps the delta contract |
| RunMachine.LinkedDecision | engine/engine.go:809-822 | what the ledger decides on the carried record it decides on the Run's whole history, refusals included |
| RunMachine.RunsCountAttempts | engine/engine.go:1378-1387 | attempt numbers of one operation strictly increase across retries and crashes |
| RunMachine.RunsFailOnce | engine/engine.go:1446-1470 | the Failure is written at most once, is there exactly from the start of unwind, and decides the outcome |
| RunMachine.RunsResolveOnce | engine/engine.go:1374-1568 | no operation resolves twice, and only steps that succeeded forward unwind |
| RunMachine.RunsReserveSafely | engine/engine.go:813-866 | no run reserves an operation that resolved, skips a pinned one, or starts a retired step |
| RunTurns.ReserveMeans | engine/engine.go:1378-1387 | after a reservation the store holds the operation unresolved with one more attempt, the wake in place of the park, and all else as it was |
| RunTurns.SucceedMeans | engine/engine.go:1421-1444 | after a success the store holds the operation succeeded with its state, no error, and all else as it was |
| RunTurns.FailMeans | engine/engine.go:1446-1475 | after a permanent failure the operation, and forward the Run, carry its message, kind and reason; forward the phase is unwind |
| RunTurns.RetryMeans | engine/engine.go:1478-1486 | after an ordinary error the operation is unresolved as it was, the next attempt and the error recorded; phase and failure unchanged |
| RunTurns.ParkMeans | engine/engine.go:1300-1306 | after a park the Run waits as asked, its operation unresolved |
| RunTurns.CancelMeans | engine/engine.go:958-1004 | after a cancellation the operation failed as canceled with the attempts it had; the Run unwinds and waits for nothing |
| RunTurns.CompleteMeans | engine/engine.go:1579-1584 | after a completion the store holds the reducer's output and the outcome of the phase, terminal |
| RunOrders.RunsKeepOrders | store/driver/driver.go:283-291 | resolution orders count up from one, recorded on exactly the resolved operations, until the counter is used up |
| RunOrders.FailuresReadBack | store/driver/driver.go:262-281 | the unwind failures read back in the order they happened, before and after compaction |
| RunSaga.RunsFollowSaga | engine/engine.go:774-920 | a Run ended under one topology ran every step in order, or unwound exactly in reverse |
| RunSaga.RunsNeverInvalid | engine/engine.go:809-827 | under one topology no decision on the record a worker carries is a refusal |
| RunSaga.RunsInvalidIff | engine/engine.go:809-827 | whatever was deployed before, the carried record is refused forward exactly when its unresolved step left the topology, in unwind exactly when two unwinds are unresolved |
| RunStates.RunsWriteOnce | engine/engine.go:1776-1800 | a transition writes an operation at most once, and never replaces a state the store holds |
| RunSaga.RunsOrdersExact | store/driver/driver.go:283-291 | with fewer than 2^31 steps the orders never wrap |
| RunWorker.Decide | engine/engine.go:809-822 | the decision on the facts of the carried record |
| RunWorker.Worker.Apply | engine/engine.go:1776-1807 | in place: stamp, flush, commit; the machine's step |
| RunWorker.Worker.AskCancel | engine/engine.go:929-936 | in place, a cancel request against the carried Run |
| RunWorker.Worker.ReserveAttempt | engine/engine.go:1374-1387 | in place: the reservation |
| RunWorker.Worker.Succeed | engine/engine.go:1421-1444 | in place: the success |
| RunWorker.Worker.Fail | engine/engine.go:1446-1475 | in place: the permanent failure |
| RunWorker.Worker.CancelOperation | engine/engine.go:958-1004 | in place: the cancellation, with the request's cause before the preemption's |
| RunWorker.Worker.Retry | engine/engine.go:1478-1486 | in place: the retry |
| RunWorker.Worker.ParkAwait | engine/engine.go:1285-1308 | in place: the park |
| RunWorker.Worker.Complete | engine/engine.go:1572-1618 | in place: the terminal commit |
| RunWorker.Worker.Conclude | engine/engine.go:1389-1486 | each result has its turn: success commits, a cut attempt cancels, a permanent failure fails, an ordinary error retries and asks for dispatch, a park parks, an interruption or a misused invocation drops; and what the store then holds |
| RunWorker.Worker.CancelNext | engine/engine.go:832-841 | the next forward operation is canceled without an attempt, naming the request's cause |
| RunWorker.Worker.Finish | engine/engine.go:1572-1618 | the terminal record holds exactly the reducer's output, and the outcome of the phase |
| RunWorker.Worker.Iterate | engine/engine.go:774-920 | a pass must do what the ledger decides on the record it carries, fresh when the mark says so: attempt it, cancel it, complete it; it hands out no attempt while draining or held, and leaves the store alone when it gives up |
| Fleet.EngineKeepsContract | engine/engine.go:774-920 | any number of Runs and sweeps over one store, with crashes, redeploys and cancels, ask of it only an admissible history, so bbolt answers as the reference store does |
| Fleet.ReadsAreCarried | engine/engine.go:765-773 | what bbolt's rows spell out for a Run is its machine's record: the one its worker carries, but for a cancel it has not read |
| Fleet.NoTurnRefused | engine/engine.go:1776-1807 | bbolt refuses no transition of a worker |
| Fleet.TurnsWriteOnce | store/bbolt/blobcache.go:13-40 | no worker's transition replaces a state the file holds: the blobs are immutable, as the caches need |
| Exclusion.ResolveMutexes | engine/engine.go:1898-1915 | each pipeline's set is itself and exactly the pipelines sharing a mutex, sorted, without repeats |
| Exclusion.ExcludesSymmetric | engine/engine.go:1891-1915 | the exclusion sets are symmetric |
| Exclusion.EventKeeps | store/mem/mem.go:48-67 | slots index exactly the nonterminal Runs, and no event creates a conflicting pair |
| Exclusion.ConflictsShrink | engine/engine.go:1891-1897 | during one deployment the conflicting pairs only shrink, whatever an earlier one admitted |
| Exclusion.NeverTogether | store/mem/mem.go:48-67 | from an empty store no two Runs that exclude each other are in flight on one resource |
| Exclusion.RedeployMayConflict | engine/engine.go:1891-1897 | a concrete redeploy that finds two Runs together it would not have admitted |
| TokenPool.EventGood | internal/tokenpool/tokenpool.go:81-198 | use within capacity, each waiter queued once on exactly its class, heads over free tokens owed a kick, tokens out equal to use |
| TokenPool.NeverStranded | internal/tokenpool/tokenpool.go:69-80 | through barging, bypass, cross-key parks and clears: with no kick owed, every class is full or its queue empty |
| TokenPool.KeepsPlace | internal/tokenpool/tokenpool.go:159-166 | whatever others do, a waiter keeps its place or moves up |
| TokenPool.AcquireAnswers | internal/tokenpool/tokenpool.go:66-80 | granted exactly when it need not count or a token is free, a token held exactly when it counts; a refused waiter is parked on its class since its first refusal; no one else's park or token changes |
| TokenPool.CallersToldTrue | internal/tokenpool/tokenpool.go:66-80 | over every run: the tokens out are those callers were told of, the waiters queued those refused and not through, and a grant reports the time since the first refusal |
| TokenPool.KicksAreHeads | internal/tokenpool/tokenpool.go:225-231 | a kick names the head of a queue over a free token, and no one else |
| TokenPool.Pool.AcquireToken | internal/tokenpool/tokenpool.go:81-157 | in place, the grant, park, park time and kicks |
| TokenPool.Pool.ReleaseToken | internal/tokenpool/tokenpool.go:167-178 | in place, the release of a held token and its kick |
| TokenPool.Pool.ClearWaiter | internal/tokenpool/tokenpool.go:184-198 | in place, the departure and its kick |
| RunPool.EventGood | internal/runpool/runpool.go:99-225 | every event keeps the lines sorted, every member exactly one of holder, in line or set aside, the counts exact, and the heads owed or not yet asking |
| RunPool.NeverStranded | internal/runpool/runpool.go:258-266 | with no kick owed and all in line having asked, the class is full or its line empty |
| RunPool.GrantFits | internal/runpool/runpool.go:124-163 | a grant stays within capacity and every member ahead still fits |
| RunPool.CountsExact | internal/runpool/runpool.go:227-245 | in use counts the holders, pending the members in line and set aside |
| RunPool.LineCanonical | internal/runpool/runpool.go:251-256 | with distinct places the line does not depend on when members joined |
| RunPool.HoldAfterRefusalStrands | internal/runpool/runpool.go:165-182 | a run from the empty pool after which a hold strands a refused member over a free token with no kick owed |
| RunPool.HoldKeepsIff | internal/runpool/runpool.go:165-182 | a hold keeps the pool sound, and its lines served exactly unless the member heads its line, a token is left after its own, and the next member was refused and is owed nothing |
| RunPool.RecoveryHolds | engine/engine.go:417-429 | before anyone was refused no hold strands a line |
| RunPool.AdmitAnswers | internal/runpool/runpool.go:99-122 | admitted exactly while fewer are pending than a positive limit, or nothing needs counting; a refusal changes no member, an admission puts it in its line |
| RunPool.AcquireAnswers | internal/runpool/runpool.go:124-163 | granted exactly when it and every member ahead fit in the free capacity; a grant makes a holder, a refusal leaves it in line, having asked |
| RunPool.CallersToldTrue | internal/runpool/runpool.go:99-225 | over every run the holders, the pending, the ones set aside and each one's place are what the answers told |
| RunPool.PendingWithin | internal/runpool/runpool.go:99-122 | under one positive limit a class never has more pending members |
| RunPool.KicksAreHeads | internal/runpool/runpool.go:258-266 | a kick names the head of a line over a free token, and no one else |
| RunPool.Search | internal/runpool/runpool.go:252-256 | the binary search finds the first place not before the given one |
| RunPool.Pool.AdmitMember | internal/runpool/runpool.go:103-122 | in place, admission against the pending limit |
| RunPool.Pool.AcquireToken | internal/runpool/runpool.go:130-163 | in place, the grant or refusal and its kick |
| RunPool.Pool.HoldToken | internal/runpool/runpool.go:169-182 | in place, the hold by right |
| RunPool.Pool.ReleaseMember | internal/runpool/runpool.go:187-202 | in place, the end of a membership and its kick |
| RunPool.Pool.ClearMember | internal/runpool/runpool.go:207-225 | in place, setting a member aside and its kick |
| JoinSet.StepGood | internal/joinset/joinset.go:38-149 | the index agrees both ways and every report is of another registration |
| JoinSet.AtMostOneKick | internal/joinset/joinset.go:14-18 | over every run, at most one kick per registration |
| JoinSet.CrossingReported | internal/joinset/joinset.go:96-112 | a completion that takes a waiter across its threshold reports it |
| JoinSet.KickedIff | internal/joinset/joinset.go:100-112 | the exact rule for a report, a waiter an earlier mark took across included |
| JoinSet.MarkedMayBeKicked | internal/joinset/joinset.go:17-18 | a waiter marked past its threshold is still kicked by its next completion |
| JoinSet.RunsMatch | internal/joinset/joinset.go:44-78 | over every run each waiter holds its keys in the order of first mention, its threshold clamped, its stamp, and exactly the keys marked or completed since it registered |
| JoinSet.DoneSinceRegistration | internal/joinset/joinset.go:114-129 | over every run Done answers for registered waiters only, with the keys observed since registration, in registration order |
| JoinSet.Set.RegisterWaiter | internal/joinset/joinset.go:52-78 | in place, repeated keys collapsed and the threshold clamped |
| JoinSet.Set.MarkDone | internal/joinset/joinset.go:83-94 | in place, a mark outside the waiter's keys is no step |
| JoinSet.Set.CompleteKey | internal/joinset/joinset.go:100-112 | in place, each satisfied waiter reported once, in any order |
| JoinSet.Set.DoneKeys | internal/joinset/joinset.go:116-129 | the done keys in registration order |
| JoinSet.Set.RemoveWaiter | internal/joinset/joinset.go:133-149 | in place, both sides of the index forget the waiter |
| AwaitGate.EventGood | engine/engine.go:1128-1229 | at every interleaving a registered Run misses no target that is over: it is marked, its completion is pending, or the gate is about to read it |
| AwaitGate.NoLostWake | engine/engine.go:1115-1229 | a parked Run owed no dispatch has fewer targets over and completed than it needs |
| AwaitGate.NoEarlyWake | engine/engine.go:1171-1177 | short of its deadline the gate lets a Run through only when enough targets are over |
| AwaitCycle.AwaitsItself | engine/engine.go:1331-1358 | the stack loop, in place, against the walk |
| AwaitCycle.WalkSound | engine/engine.go:1327-1358 | true only if the walker could be reached; false only if it is not reached by edges that last, when fewer than 1024 others can be |
| AwaitCycle.StillWalkExact | engine/engine.go:1331-1358 | on a graph that stands still, under the bound, the answer is reachability |
| AwaitCycle.LastWriterDetects | engine/engine.go:1307-1314 | whoever writes last of a lasting cycle of parks finds it, however walks and writes interleave |
| AwaitCycle.RingDetectedIff | engine/engine.go:1332-1335 | a ring through n others is detected exactly when n is under 1024 |
| Dispatcher.StepGood | internal/dispatcher/dispatcher.go:79-156 | one owner per active key, armed wakes of live workers, Runs within the budget, no dispatch lost |
| Dispatcher.OneWorkerPerKey | internal/dispatcher/dispatcher.go:79-137 | at most one worker per key, and never more Runs at once than the bound |
| Dispatcher.EveryDispatchServed | internal/dispatcher/dispatcher.go:79-137 | at rest, unless the context ended, every dispatch was followed by a Run that began after it |
| Dispatcher.DispatchLeadsToRun | internal/dispatcher/dispatcher.go:79-137 | from any reachable dispatcher whose context has not ended, at most nine of its own steps reach the Run owed to a dispatch of that key or to its own request to run again |
| Dispatcher.RepokeIsUrgent | internal/dispatcher/dispatcher.go:79-83 | after a dispatch that found its key running, the next Run is reached with no delay ending, whatever delay the running one asks |
| Dispatcher.DelayIsKept | internal/dispatcher/dispatcher.go:93-115 | a delayed dispatch cannot run before its delay ends or a wake is received |
| Dispatcher.WakeCutsDelay | internal/dispatcher/dispatcher.go:93-115 | after a wake of an armed key its Run is reached without the delay ending |
| Dispatcher.WakeReceived | internal/dispatcher/dispatcher.go:93-101 | a wake after a delayed dispatch returned can be received by the waiting worker at once |
| Dispatcher.State.Enter | internal/dispatcher/dispatcher.go:84-91 | in place, a dispatch for an active key is recorded as a re-poke |
| Dispatcher.State.ClearActive | internal/dispatcher/dispatcher.go:149-156 | in place, the key is released and a re-poke reported |
| Cancellation.StepGood | engine/engine.go:716-751 | every step of request, worker and engine keeps the protocol's invariants |
| Cancellation.CutOnceAsked | engine/engine.go:711-751 | past the preempt step every forward attempt in flight has its context cut; whatever else happens, only a cancellation, a success that still commits, a misused invocation, a failed apply or the engine's stop ends it |
| Cancellation.LatePassCancels | engine/engine.go:779-840 | a pass that takes the mark after it was set resolves the next forward operation as canceled and reserves none |
| Cancellation.RequestIsAnswered | engine/engine.go:922-947 | past the request a Run still forward and idle is owed a dispatch, unless invalid or draining |
| Cancellation.UnwindRunsOn | engine/engine.go:734-751 | an unwind attempt is never cut |
| Cancellation.Attempts.Register | engine/engine.go:716-732 | in place, the registration takes a preemption that came before it |
| Cancellation.Attempts.Preempt | engine/engine.go:741-751 | in place, the forward attempt is cut, or the preemption left for the next |

## Left out

- Row encodings: the protobuf codec is taken to be injective, with an empty byte string and an absent one the same value; a row is its decoded record.
- A blob kept in a nested bucket and one kept in a row are the same row here; bbolt's pages, batching and fsync are not modelled, and a transaction is one atomic step.
- Records are values: the copying the stores do to keep callers from sharing a record is not modelled, nor is aliasing of cached byte slices.
- Seeded records: the refinement admits a seeded nonterminal record when every step entry names a started operation and no output is set, which is what the engine creates; the bbolt store would drop the rest, the reference keeps it. A Run seeded terminal holds its slot in both stores and is left out of the histories.
- Operation writes address the forward or the unwind half; the source would file any other phase under forward.
- Store errors: a transition whose outcome is unknown is a crash that dropped the carried record, with the transition landed or not. The await gate's let-through on a failed read, and a terminal commit reported as failed, are outside AwaitGate.
- RunWorker.Worker.Iterate: a cancel request may land between passes or while an attempt runs; RunMachine lets it land anywhere.
- Handlers, middleware and reducers are arbitrary answers; timers, backoff and jitter are arbitrary choices of when.
- Dispatcher.EveryDispatchServed: is about a dispatcher at rest. Dispatcher.DispatchLeadsToRun says a short way to the owed Run is always open; that it is taken depends on the Go scheduler and on Runs returning.
- CachedStore.Store.GetRun: reads the file and fills the cache in one step; ConcurrentReads takes the steps apart, over the rows' decoded components.
- CachedStore.Store.CreateRun: commits and caches in one step; ConcurrentReads takes them apart.
- CachedStore.Store.ApplyTransition: commits and caches in one step; ConcurrentReads takes them apart.
- CachedStore.Store.ReapTerminal: drops outputs after its commit, the source inside it; ConcurrentReads lets them go at any moment, committed or not.
- ConcurrentReads takes blobs to be immutable, as the store contract declares; Fleet.TurnsWriteOnce proves it of the engine's writes. The reads a write makes inside its own transaction are reads of the file it began with.
- Cancellation: follows one Run; the cascade of a canceled park to its targets is another Run's request.
- AwaitGate: leaves out the deadlock check between registration and the reads, which AwaitCycle covers on its own.
- RunPool places are integers; any total order would do. RunPool.Search compares places only.
- The staged counter is modelled as the hint it is: nothing rests on its value but the size of a write's drain.
- Registration, scheduling options, retention cadence, logging, observers, statistics, URI opening and the code generator are not modelled.
