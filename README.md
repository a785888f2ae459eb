# itchysats daemon core, modelled in Dafny

This project models the contract-lifecycle core of the itchysats daemon, a
peer-to-peer trading daemon for CFDs (contracts for difference) settled
through DLCs (discreet log contracts) on Bitcoin. A maker and a taker
negotiate each CFD. The daemon stores the CFD's history and reacts to every
event in that history.

The model covers seven pieces of the daemon.

- **The older state-row store** (`StateStore`, `db.dfy`). It has three
  tables: `orders`, `cfds` and `cfd_states`. A CFD's current state is the
  state row appended most recently. The inserts are methods of a `Db`
  class, and the loaders are pure functions over a snapshot of its tables.
- **Start-up housekeeping** (`Housekeeping`, `housekeeping.dfy`).
  - It moves CFDs that cannot be continued to `SetupFailed`.
  - It republishes pending lock, refund and commit transactions, in that
    order.
  - The first error ends either pass.
- **The failed-CFD archiver** (`FailedArchive`, `failed.dfy`).
  - The `Kind` text round-trip.
  - The precedence rule that classifies a failed CFD.
  - The per-CFD transaction that moves a CFD and its event log from the hot
    tables into the archive, all or nothing.
  - The sweep over all candidates, which goes on past a failed move.
  - The loaders of archived CFDs.
- **The position-metrics read model** (`PositionMetrics`,
  `position_metrics.dfy`).
  - The fold of CFD events into four status flags and a wrapping `u32`
    version.
  - The gauges: for each status and position, a count and a total
    quantity.
  - The update cycle, which skips CFDs that fail to rehydrate.
- **The process manager** (`ProcessManager`, `process_manager.dfy`). It
  saves an event, then sends the commands the event's kind calls for, then
  sends one change notification. The first failure stops it.
- **The maker's contract-setup actor** (`SetupMaker`, `setup_maker.dfy`)
  and **the maker's rollover actor** (`RolloverMaker`,
  `rollover_maker.dfy`). Each is written two ways:
  - a class whose handlers update the channel field and the actor's record
    of what it did;
  - the pure transition functions the handlers are proved against.

  Lemmas cover single handlers and whole message sequences.

`events.dfy` (`CfdEvents`) holds the CFD event kinds these modules share.
`common.dfy` (`Common`) holds `Option`, `Result` and the sequence helpers.

Several things the code does not compute itself become parameters:

- the outcome of every database statement, channel send, wallet broadcast
  and oracle query;
- the CFD predicates that housekeeping selects by;
- the display text of a state;
- the clock.

Such an outcome is given as a `bool`, an `Option`, a `nat -> bool` indexed
by attempt, a set of the steps that fail, or, for the wallet, a
`Tx -> bool` answer per transaction. Each actor records, in order,
the effects that took place.

## Model

| member | source | states |
|---|---|---|
| StateStore.LoadOrderById | daemon/src/db.rs:65-106 | an order is returned only for its own id and from the orders table; the load fails exactly when no order row carries the id |
| StateStore.LoadCfdIdByOrderUuid | daemon/src/db.rs:201-222 | the first cfd row with the order uuid is returned; the lookup fails exactly when no cfd row has that uuid |
| StateStore.LatestState | daemon/src/db.rs:225-246 | the state of the last state row of the CFD, and no later row belongs to it; none exactly when the CFD has no state row |
| StateStore.LoadLatestCfdState | daemon/src/db.rs:225-246 | succeeds exactly when the CFD has a state row, and then returns the state of its latest row |
| StateStore.LoadCfdByOrderId | daemon/src/db.rs:248-325 | the loaded CFD is one of `load_all_cfds` with that order id; fails exactly when there is none |
| StateStore.LoadAllCfdsExact | daemon/src/db.rs:328-407 | in a consistent store, exactly one entry per cfd row, in row order, carrying the order, the quantity and the latest state |
| StateStore.LoadAllCfds | daemon/src/db.rs:328-407 | the intended join, one row per cfd row with its latest state; no contract of its own: `LoadAllCfdsExact`, `InsertCfdThenLoadAll` and `AppendStateThenLoadAll` characterise it |
| StateStore.LoadCfdsByOracleEventId | daemon/src/db.rs:410-494 | the loaded CFDs filtered by the order's oracle event id; no contract of its own: `LoadByOracleEventIdExact` and `InsertCfdThenLoadByOracleEventId` characterise it |
| StateStore.LoadByOracleEventIdExact | daemon/src/db.rs:410-494 | exactly the loaded CFDs whose order carries the oracle event id: each such CFD as many times as `load_all_cfds` gives it, no other |
| StateStore.InsertCfdThenLoadByOracleEventId | daemon/src/db.rs:410-494 | after `insert_cfd`, loading by an event id gives the earlier matches in their order followed by the new CFD exactly when its order carries that id |
| StateStore.Db.InsertOrder | daemon/src/db.rs:15-63 | appends the order row exactly when the insert succeeds; the other tables are untouched; store consistency is kept |
| StateStore.Db.InsertCfd | daemon/src/db.rs:108-161 | succeeds exactly when the order row exists and no statement fails; then the cfd row and its first state row are both appended; on any error nothing changes |
| StateStore.Db.InsertNewCfdStateByOrderId | daemon/src/db.rs:163-222 | succeeds exactly when a cfd row carries the order uuid, the CFD has a latest state and the insert succeeds; then the state row is appended whatever the previous state's variant; on any error, an order uuid without a cfd row included, no table changes |
| StateStore.LatestStateOther | daemon/src/db.rs:225-246 | a state row for one CFD does not change the latest state of any other CFD |
| StateStore.InsertOrderKeepsValid | daemon/src/db.rs:15-63 | inserting an order keeps every cfd row linked to its order and to a state |
| StateStore.AppendStateKeepsValid | daemon/src/db.rs:163-199 | appending a state row to an existing CFD keeps the store consistent |
| StateStore.InsertCfdKeepsValid | daemon/src/db.rs:108-161 | inserting a cfd row with its first state keeps the store consistent |
| StateStore.InsertThenLoadOrder | daemon/src/db.rs:15-106 | an inserted order with a fresh id loads back equal |
| StateStore.InsertCfdThenLoadAll | daemon/src/db.rs:108-161 | after `insert_cfd`, `load_all_cfds` gives the earlier CFDs unchanged followed by the new CFD with its initial state |
| StateStore.AppendStateThenLoadAll | daemon/src/db.rs:163-199 | after appending a state, that CFD loads with the new state and every other CFD loads as before |
| StateStore.JoinAsWrittenWhenLatestUnique | daemon/src/db.rs:345-356 | the latest-state join as written equals the intended one when no CFD repeats its latest state row |
| StateStore.DuplicateStateRowsDuplicateCfd | daemon/src/db.rs:345-356 | a consistent store whose one CFD has two identical latest state rows: the join as written yields two rows, the intended join one |
| Housekeeping.TransitionNonContinueCfdsToSetupFailed | daemon/src/housekeeping.rs:9-29 | a failed load appends nothing; otherwise, in load order, appends a `SetupFailed` row naming the previous state to each selected CFD, up to the first failed write; succeeds exactly when the load and every write do; orders and cfds untouched; consistency kept |
| Housekeeping.TransitionMarksExactlyCleanup | daemon/src/housekeeping.rs:12-26 | after a complete pass, exactly the selected CFDs load as `SetupFailed` whose info names the state they were in; every other CFD loads as before |
| Housekeeping.RebroadcastTransactions | daemon/src/housekeeping.rs:31-58 | a failed load publishes nothing and fails; otherwise publishes exactly what running the plan gives: lock passes, then refund, then commit, stopping at the first error |
| Housekeeping.RebroadcastPlan | daemon/src/housekeeping.rs:35-55 | the lock steps, then the refund steps, then the commit steps; no contract of its own: `RunPlanInPasses`, `RebroadcastOrder` and `RebroadcastCoversOnlySelected` characterise it |
| Housekeeping.Run | daemon/src/housekeeping.rs:37-55 | publishes a plan in order up to the first error; no contract of its own: `RunAppend`, `RunPublishesPlannedTxs`, `RunSucceedsIffAllPublished` and `RunKeepsKindOrder` characterise it |
| Housekeeping.RunKeepsKindOrder | daemon/src/housekeeping.rs:37-55 | a plan ordered lock, refund, commit publishes in that order |
| Housekeeping.AppendFailedStates | daemon/src/housekeeping.rs:14-26 | appends the `SetupFailed` rows of the targets in order and stops at the first failed write, keeping the rows before it; succeeds exactly when every write does; consistency kept |
| Housekeeping.PublishPass | daemon/src/housekeeping.rs:37-41 | one pass publishes, in load order, the transaction of each selected CFD until the first build or broadcast error |
| Housekeeping.RunPlanInPasses | daemon/src/housekeeping.rs:35-57 | the three loops run as one plan: a failing pass ends the run, and the passes' publications concatenate |
| Housekeeping.RunAppend | daemon/src/housekeeping.rs:37-55 | running two plans one after the other is running their concatenation; a failure in the first skips the second |
| Housekeeping.RunPublishesPlannedTxs | daemon/src/housekeeping.rs:37-55 | every published transaction was planned, built and accepted by the wallet |
| Housekeeping.RebroadcastOrder | daemon/src/housekeeping.rs:37-55 | every published lock transaction precedes every refund, and every refund precedes every commit |
| Housekeeping.RebroadcastCoversOnlySelected | daemon/src/housekeeping.rs:37-52 | a published lock, refund or commit transaction belongs to a CFD its own predicate selects |
| Housekeeping.RunSucceedsIffAllPublished | daemon/src/housekeeping.rs:38-52 | the pass succeeds exactly when every planned transaction is built and accepted, and then all of them are published |
| FailedArchive.KindFromString | daemon/src/db/failed.rs:85-97 | a parsed kind prints back as the input; parsing fails exactly on text no kind prints as |
| FailedArchive.KindRoundTrip | daemon/src/db/failed.rs:74-97 | every kind parses back from its text |
| FailedArchive.EventLogOf | daemon/src/db/failed.rs:118-119 | the log has one entry per event, in order, with the event's name and timestamp |
| FailedArchive.Classify | daemon/src/db/failed.rs:194-200 | a rejected offer in the log wins; otherwise a failed setup; otherwise an error |
| FailedArchive.LoadOpenCfd | daemon/src/db/failed.rs:116 | a CFD loads as open exactly when its hot cfd row exists |
| FailedArchive.LoadCreationTimestamp | daemon/src/db/failed.rs:316-339 | succeeds exactly when the CFD is archived and its archived log holds an `OfferRejected` or `ContractSetupFailed` entry |
| FailedArchive.LoadFailedCfd | daemon/src/db/failed.rs:142-186 | succeeds exactly when the creation timestamp loads; the result has the id, the archived kind, contract count, position, initial price, taker leverage, counterparty and role, and that timestamp |
| FailedArchive.MoveOne | daemon/src/db/failed.rs:112-130 | the per-CFD transaction on the tables; no contract of its own: `MoveOneAllOrNothing`, `MovedThenLoadsAsFailed`, `NoFailureEventLeftOpen`, `MoveOneFrame`, `MoveOneLocal` and `MoveOneKeepsValid` characterise it |
| FailedArchive.MoveOneAllOrNothing | daemon/src/db/failed.rs:112-130 | the move succeeds exactly when the CFD is hot and not yet archived, its log classifies, its quantity fits a u64 and no statement fails; otherwise nothing changes |
| FailedArchive.MovedThenLoadsAsFailed | daemon/src/db/failed.rs:112-130 | after a move the CFD no longer loads as open and has no hot events; it loads as failed with the classified kind, the quantity as contract count, the row's position, initial price, taker leverage, counterparty and role, the first failure entry's time, and the hot log copied entry for entry |
| FailedArchive.NoFailureEventLeftOpen | daemon/src/db/failed.rs:194-200 | a CFD without a failure event is not moved: it still loads as open with its events, and what loads as failed is unchanged |
| FailedArchive.OfferRejectedNameUnique | daemon/src/db/failed.rs:329-333 | only the rejected-offer event is stored under its name |
| FailedArchive.SetupFailedNameUnique | daemon/src/db/failed.rs:329-333 | only the failed-setup event is stored under its name |
| FailedArchive.MoveOneFrame | daemon/src/db/failed.rs:112-130 | moving one CFD leaves every other order id's rows as they were |
| FailedArchive.MoveOneLocal | daemon/src/db/failed.rs:112-130 | the move's outcome and result depend only on the rows of its own id |
| FailedArchive.MoveOneKeepsValid | daemon/src/db/failed.rs:121-122 | every archived log keeps an archived row to belong to |
| FailedArchive.Sweep | daemon/src/db/failed.rs:102-139 | moves the candidates in turn; no contract of its own: `SweepOutcomes`, `SweepFrame` and `SweepMovesEachIndependently` characterise it |
| FailedArchive.SweepOutcomes | daemon/src/db/failed.rs:102-139 | the sweep completes or panics on a candidate's quantity; a failed move never ends it; consistency is kept |
| FailedArchive.SweepFrame | daemon/src/db/failed.rs:109-136 | order ids that are not candidates are untouched |
| FailedArchive.SweepMovesEachIndependently | daemon/src/db/failed.rs:109-136 | in a completed sweep over distinct ids, each candidate ends exactly as its own move alone leaves it, whatever happened to the others |
| FailedArchive.InsertEventLog | daemon/src/db/failed.rs:265-297 | succeeds exactly when every entry insert affects its row; then the entries are appended in order; the error text is the one the source bails with |
| FailedArchive.ArchiveDb.MoveOneTx | daemon/src/db/failed.rs:112-130 | the per-CFD transaction leaves the tables and result of `MoveOne` |
| FailedArchive.ArchiveDb.MoveToFailedCfds | daemon/src/db/failed.rs:102-139 | a failed candidate query changes nothing and is returned; otherwise the tables and outcome are those of the sweep |
| PositionMetrics.New | daemon/src/position_metrics.rs:87-97 | keeps position and quantity, all four flags false, version 0 |
| PositionMetrics.NewClosed | daemon/src/position_metrics.rs:203-223 | closed and nothing else, with the contract count as quantity and version 0 |
| PositionMetrics.CategoriesPartition | daemon/src/position_metrics.rs:112-198 | every event kind falls into exactly one of the six categories the match treats alike |
| PositionMetrics.NextVersion | daemon/src/position_metrics.rs:110 | the version after an event is one more, modulo 2^32 |
| PositionMetrics.Apply | daemon/src/position_metrics.rs:109-199 | an event keeps position and quantity and bumps the version by one, modulo 2^32 |
| PositionMetrics.ApplyByCategory | daemon/src/position_metrics.rs:113-197 | setup start clears all flags; opening events set open; setup failure and rejection set failed; closing events clear open and set closed; a confirmed refund clears open and sets refunded; the rest change no flag; each keeps the other flags |
| PositionMetrics.Fold | daemon/src/position_metrics.rs:99-110 | applies the events in order; no contract of its own: `FoldVersion` and `RehydratedFlags` characterise it |
| PositionMetrics.Rehydrate | daemon/src/position_metrics.rs:87-223 | an open row folds its events onto `New`, a closed row is `NewClosed`; no contract of its own: `RehydratedVersion` and `RehydratedFlags` characterise it |
| PositionMetrics.FoldVersion | daemon/src/position_metrics.rs:99-110 | folding n events adds n to the version, modulo 2^32, and keeps position and quantity |
| PositionMetrics.RehydratedVersion | daemon/src/position_metrics.rs:87-110 | a CFD rehydrated from fewer than 2^32 events has their number as its version |
| PositionMetrics.RehydratedFlags | daemon/src/position_metrics.rs:109-199 | a rehydrated CFD has each flag exactly when an event setting it was not followed by one clearing it |
| PositionMetrics.SumAmounts | daemon/src/position_metrics.rs:315-318 | the total quantity; no contract of its own: `SumAmountsAppend`, `PartitionAddsUp` and `MetricsAddUp` characterise it |
| PositionMetrics.SumAmountsAppend | daemon/src/position_metrics.rs:315-318 | the sum over a concatenation is the sum of the sums |
| PositionMetrics.UpdatePositionMetrics | daemon/src/position_metrics.rs:265-273 | the gauge of every status and position counts and sums exactly the CFDs with that flag and position |
| PositionMetrics.PartitionAddsUp | daemon/src/position_metrics.rs:275-276 | the long and short parts of one status add up to all its CFDs, in count and in quantity |
| PositionMetrics.MetricsAddUp | daemon/src/position_metrics.rs:265-318 | for each status, long plus short count and quantity equal the count and quantity of the CFDs with that flag |
| PositionMetrics.SelectIsFilter | daemon/src/position_metrics.rs:274-276 | the CFDs of one status and position are those the filter by both keeps, in their order |
| PositionMetrics.SelectCounts | daemon/src/position_metrics.rs:274-276 | each CFD with the status and position is kept as many times as it occurs, and no other CFD |
| PositionMetrics.WithStatusIsFilter | daemon/src/position_metrics.rs:266-272 | the CFDs of one status are those the filter by the status keeps, in their order |
| PositionMetrics.WithStatusCounts | daemon/src/position_metrics.rs:266-272 | each CFD with the status is kept as many times as it occurs, and no other CFD |
| PositionMetrics.Rehydrated | daemon/src/position_metrics.rs:49-61 | as many CFDs are collected as rows rehydrate |
| PositionMetrics.RehydratedSkipsOnlyFailures | daemon/src/position_metrics.rs:52-61 | the CFD of every row that rehydrates is collected, at the position given by the number of rehydrated rows before it; a failed row does not end the cycle |
| PositionMetrics.RehydratedOnlyLoaded | daemon/src/position_metrics.rs:52-61 | every collected CFD is the CFD of a row that rehydrated, at that row's position |
| PositionMetrics.UpdateCycle | daemon/src/position_metrics.rs:47-64 | the cycle publishes the gauges of exactly the CFDs that rehydrated |
| ProcessManager.Dispatch | daemon/src/process_manager.rs:74-227 | the commands of each event kind; no contract of its own: `BroadcastsByEvent`, `DispatchNeverNotifies`, `TakerNeverClosesCollaboratively`, `CetFinalityMonitoredFirst`, `MonitoringFollowsDlc` and `QuietKinds` characterise it |
| ProcessManager.Effects | daemon/src/process_manager.rs:66-235 | nothing is sent if the save fails; otherwise the commands go out in order up to the first failed send |
| ProcessManager.Actor.Handle | daemon/src/process_manager.rs:66-235 | the event is saved exactly when the append succeeds; the commands sent are `Effects`; success exactly when every command, notification included, went out |
| ProcessManager.NothingWithoutAppend | daemon/src/process_manager.rs:69-70 | a failed save sends nothing, not even the notification |
| ProcessManager.DispatchNeverNotifies | daemon/src/process_manager.rs:74-227 | the per-kind commands never include the change notification |
| ProcessManager.NotifiedOnlyAfterAllEffects | daemon/src/process_manager.rs:229-234 | the notification goes out exactly when every command did, and then once, last, for the event's CFD |
| ProcessManager.AllSentIffNoFailure | daemon/src/process_manager.rs:66-235 | every command goes out exactly when the save and every send succeed |
| ProcessManager.BroadcastsByEvent | daemon/src/process_manager.rs:74-227 | the broadcasts per kind: lock on setup; spend on collaborative close for the maker only; CET on the post-timelock paths; commit on a manual commit or an attestation carrying one; refund on refund timelock expiry; none otherwise |
| ProcessManager.TakerNeverClosesCollaboratively | daemon/src/process_manager.rs:102-115 | the taker never broadcasts the collaborative close |
| ProcessManager.CetFinalityMonitoredFirst | daemon/src/process_manager.rs:124-153 | a CET is broadcast only right after the finality monitor for that CET and CFD |
| ProcessManager.MonitoringFollowsDlc | daemon/src/process_manager.rs:75-199 | monitoring starts only on setup or rollover completion, with the new DLC and for the event's CFD, alongside the attestation watch for its settlement event |
| ProcessManager.QuietKinds | daemon/src/process_manager.rs:208-226 | exactly the listed kinds dispatch nothing besides the notification |
| SetupMaker.Emit | daemon/src/setup_maker.rs:119-153 | records the outcome's command and stops; no contract of its own: `EmitKeepsInv` and `StoppedIsFinal` characterise it |
| SetupMaker.OnStarted | daemon/src/setup_maker.rs:242-262 | the start as a function of the state; no contract of its own: `StartRejectsExactlyOutOfRange` and `StartKeepsInv` characterise it |
| SetupMaker.OnAccepted | daemon/src/setup_maker.rs:168-206 | the accept as a function of the state; no contract of its own: `DuplicateAcceptIgnored`, `AcceptStoresChannelFirst`, `AcceptErrorFails` and `AcceptedKeepsInv` characterise it |
| SetupMaker.OnRejected | daemon/src/setup_maker.rs:208-219 | the reject as a function of the state; no contract of its own: `StepKeepsInv` characterises it |
| SetupMaker.OnSetupMsg | daemon/src/setup_maker.rs:232-236 | the forward as a function of the state; no contract of its own: `ForwardWithoutSetupHarmless` and `StepKeepsInv` characterise it |
| SetupMaker.StartRejectsExactlyOutOfRange | daemon/src/setup_maker.rs:242-262 | the start changes something exactly when the quantity is outside the inclusive range; then the taker is told if reachable, a rejection is emitted and the actor stops |
| SetupMaker.DuplicateAcceptIgnored | daemon/src/setup_maker.rs:171-174 | an accept while a setup channel is stored changes nothing |
| SetupMaker.AcceptStoresChannelFirst | daemon/src/setup_maker.rs:77-194 | after a confirmation the channel is stored even when the setup command fails; the confirmation precedes the start and the spawned task |
| SetupMaker.AcceptErrorFails | daemon/src/setup_maker.rs:199-205 | a failed confirmation or start emits a failure and stops |
| SetupMaker.ForwardWithoutSetupHarmless | daemon/src/setup_maker.rs:232-236 | a protocol message without a running setup changes nothing and the actor keeps running |
| SetupMaker.StepKeepsInv | daemon/src/setup_maker.rs:119-236 | every handler keeps the invariant: at most one emit, stopped exactly after it; at most one confirmation, a channel exactly after it; starts never outnumber confirmations |
| SetupMaker.StartKeepsInv | daemon/src/setup_maker.rs:242-262 | the start keeps the invariant |
| SetupMaker.RunKeepsInv | daemon/src/setup_maker.rs:119-236 | over any message sequence the actor emits at most one outcome and stops exactly when it has |
| SetupMaker.StoppedIsFinal | daemon/src/setup_maker.rs:119-153 | a stopped actor handles nothing more |
| SetupMaker.Actor.Started | daemon/src/setup_maker.rs:242-262 | the start handler behaves as the bounds check |
| SetupMaker.Actor.EmitOutcome | daemon/src/setup_maker.rs:119-153 | an emit records the outcome and whether its command succeeded, and stops either way |
| SetupMaker.Actor.ContractSetup | daemon/src/setup_maker.rs:77-117 | the channel is stored first; success exactly when the start command succeeds, and then the setup task is spawned |
| SetupMaker.Actor.HandleAccepted | daemon/src/setup_maker.rs:168-206 | the accept handler behaves as `OnAccepted` |
| SetupMaker.Actor.HandleRejected | daemon/src/setup_maker.rs:208-219 | tells the taker if reachable, then emits the rejection |
| SetupMaker.Actor.HandleSetupSucceeded | daemon/src/setup_maker.rs:221-223 | emits completion with the DLC and stops |
| SetupMaker.Actor.HandleSetupFailed | daemon/src/setup_maker.rs:225-227 | emits failure and stops |
| SetupMaker.Actor.ForwardProtocolMsg | daemon/src/setup_maker.rs:155-163 | fails exactly without a stored channel or on a failed send; otherwise forwards to the stored channel |
| SetupMaker.Actor.HandleSetupMsg | daemon/src/setup_maker.rs:232-236 | forwards if it can, and otherwise only logs |
| RolloverMaker.Complete | daemon/src/rollover_maker.rs:105-128 | reports the completion if it can and stops; no contract of its own: `CompleteKeepsInv` and `StoppedIsFinal` characterise it |
| RolloverMaker.Fail | daemon/src/rollover_maker.rs:130-134 | stops, recording nothing; no contract of its own: `StepKeepsInv` characterises it |
| RolloverMaker.OnStarted | daemon/src/rollover_maker.rs:239-251 | the start as a function of the state; no contract of its own: `StartFailureCompletesFailed` and `StartKeepsInv` characterise it |
| RolloverMaker.OnAccept | daemon/src/rollover_maker.rs:136-207 | the accept as a function of the state; no contract of its own: `DuplicateAcceptIgnored`, `AcceptOutcome` and `AcceptKeepsInv` characterise it |
| RolloverMaker.OnReject | daemon/src/rollover_maker.rs:209-225 | the reject as a function of the state; no contract of its own: `RejectThenComplete` and `RejectKeepsInv` characterise it |
| RolloverMaker.OnProtocolMsg | daemon/src/rollover_maker.rs:227-234 | the forward as a function of the state; no contract of its own: `ProtocolMsgWithoutRolloverFails` and `ProtocolMsgKeepsInv` characterise it |
| RolloverMaker.Notices | daemon/src/rollover_maker.rs:253-265 | the notices of the stopping handler; no contract of its own: `NoticesOncePerListener` and `NoticesOnlyListeners` characterise it |
| RolloverMaker.StartFailureCompletesFailed | daemon/src/rollover_maker.rs:239-251 | the start stops the actor exactly when the proposal could not be recorded, reporting a failed rollover if it can |
| RolloverMaker.DuplicateAcceptIgnored | daemon/src/rollover_maker.rs:139-142 | an accept while a rollover channel is stored changes nothing |
| RolloverMaker.AcceptOutcome | daemon/src/rollover_maker.rs:136-207 | the channel is stored whatever follows; the actor stops exactly when a step fails; with every step done it records, confirms and spawns, in that order; an accept never reports a completion |
| RolloverMaker.ProtocolMsgWithoutRolloverFails | daemon/src/rollover_maker.rs:227-234 | a protocol message without a running rollover, or with a failed send, stops the actor, and without a rollover nothing is recorded |
| RolloverMaker.RejectThenComplete | daemon/src/rollover_maker.rs:209-225 | the reject handler always stops; the taker is told before the rejection is reported; a failed send to the taker stops it silently |
| RolloverMaker.NoticesOncePerListener | daemon/src/rollover_maker.rs:253-265 | on stopping, each reachable listener is told exactly once and an unreachable one never |
| RolloverMaker.NoticesOnlyListeners | daemon/src/rollover_maker.rs:253-265 | stopping tells only registered, reachable listeners and does nothing else |
| RolloverMaker.StepKeepsInv | daemon/src/rollover_maker.rs:270-314 | every handler keeps the invariant: at most one reported completion, only once stopped; spawn, confirmation and acceptance at most once and in that order; without a channel none of them and no forward |
| RolloverMaker.StartKeepsInv | daemon/src/rollover_maker.rs:239-251 | the start keeps the invariant |
| RolloverMaker.RunKeepsInv | daemon/src/rollover_maker.rs:270-314 | over any message sequence the invariant holds |
| RolloverMaker.StoppedIsFinal | daemon/src/rollover_maker.rs:105-134 | a stopped actor handles nothing more |
| RolloverMaker.Actor.CompleteWith | daemon/src/rollover_maker.rs:105-128 | reports the completion if it can be produced and stops either way |
| RolloverMaker.Actor.FailNow | daemon/src/rollover_maker.rs:130-134 | stops without recording anything |
| RolloverMaker.Actor.HandleProposal | daemon/src/rollover_maker.rs:93-103 | succeeds exactly when the proposal is recorded with the process manager |
| RolloverMaker.Actor.Started | daemon/src/rollover_maker.rs:239-251 | the start handler behaves as `OnStarted` |
| RolloverMaker.Actor.Accept | daemon/src/rollover_maker.rs:136-207 | succeeds exactly on a duplicate accept or when every step succeeds; then the state is `OnAccept`'s, and on error it is that state before stopping |
| RolloverMaker.Actor.HandleAcceptRollover | daemon/src/rollover_maker.rs:270-278 | the accept handler behaves as `OnAccept` |
| RolloverMaker.Actor.RejectProposal | daemon/src/rollover_maker.rs:209-225 | succeeds exactly when the taker is told; then it completes as rejected and stops; on error nothing changes |
| RolloverMaker.Actor.HandleRejectRollover | daemon/src/rollover_maker.rs:280-288 | the reject handler behaves as `OnReject` |
| RolloverMaker.Actor.ForwardProtocolMsg | daemon/src/rollover_maker.rs:227-234 | fails exactly without a stored channel or on a failed send, changing nothing; otherwise forwards |
| RolloverMaker.Actor.HandleProtocolMsg | daemon/src/rollover_maker.rs:290-294 | forwards, or fails and stops |
| RolloverMaker.Actor.HandleRolloverFailed | daemon/src/rollover_maker.rs:296-302 | completes as failed |
| RolloverMaker.Actor.HandleRolloverSucceeded | daemon/src/rollover_maker.rs:304-314 | completes as succeeded with the new DLC |
| RolloverMaker.Actor.Stopping | daemon/src/rollover_maker.rs:253-265 | tells both listeners in turn, skipping unreachable ones; nothing else changes |

## Left out

- SQL text, sqlx, serde encoding and migrations are not modelled. Tables are sequences (the older store) or maps keyed by order id (the archive). The outcome of each statement of the inserts, of the housekeeping loads and writes and of the archive transaction is a parameter. The loaders of the older store are pure functions of the tables: they fail only when no row matches, and an I/O error of their query is not modelled.
- Row order of queries without `ORDER BY` is not modelled. The model uses cfd-row order, then state-row order.
- Fees are not modelled. `FundingFee::calculate`, `FeeAccount` and `long_and_short_leverage` are defined elsewhere and work on decimals, so an archived row keeps no fee.
- Decimal `Usd` amounts are modelled as integers. Prometheus gauges, the conversion to `f64` and the update timer are left out; the model keeps the integer sum and count.
- `Housekeeping.TransitionNonContinueCfdsToSetupFailed` uses one timestamp for the whole pass, where the source reads the clock once per CFD.
- `is_cleanup`, `pending_open_dlc`, `is_must_refund`, `is_pending_commit`, `refund_tx`, `commit_tx` and the display of a state are parameters. Their bodies belong to the CFD model, which is not part of this model.
- `failed_cfd_ids_according_to_events`, `load_cfd_row`, `load_cfd_events` and `delete_from_*` are modelled as table primitives. Their bodies are not part of this model.
- The uniqueness of `failed_cfds.uuid` is assumed: inserting an already archived id fails.
- `FailedArchive.LoadCreationTimestamp` returns the first matching log entry. The query takes whichever row SQLite returns first.
- The names stored for `OfferRejected` and `ContractSetupFailed` are assumed to be the variant names.
- `PositionMetrics.NextVersion` wraps around at 2^32, as a release build does. A debug build would panic.
- `ProcessManager.Actor.Handle` ends the handling at the first failed send. This includes the `let _ = ….await?` sends at daemon/src/process_manager.rs:125-131, 140-146 and 178-184, whose inner result is discarded but whose send error still propagates, so a failed command send also withholds the `CfdChanged` notification.
- The wallet's answer to a broadcast depends only on the transaction (`walletOk: Tx -> bool`), not on how many broadcasts came before it; a wallet that refuses a transaction on one attempt and accepts it on a later one is not modelled.
- Actor runtime, mailboxes, spawned tasks, channels and concurrency are not modelled. Each actor is a sequential class that handles one message at a time, and a stopped actor handles none. The handlers require that the actor has not stopped.
- The running setup and rollover protocols are not modelled, and neither are the wallet, the oracle or the clock. They appear only through their outcomes: a send that succeeded, an announcement found, a DLC produced.
- The spawned protocol task's later `SetupSucceeded` / `SetupFailed` and `RolloverSucceeded` / `RolloverFailed` messages are modelled as ordinary messages of any sequence.
- `SetupMaker.Actor.EmitOutcome` covers all three of `emit_complete`, `emit_reject` and `emit_fail`. They differ only in the command they run.
- Error messages are free text, except the one of `insert_event_log`.
- Tracing and logging are not modelled.
- The frontend files, the BitMEX stream example and `xtras` are not modelled; they are UI, network and re-exports.

## Findings

| source | as written | input that shows it | evidently intended | confidence | as-written member | corrected member |
|---|---|---|---|---|---|---|
| daemon/src/db.rs:345-356 | the latest-state join keeps every state row of the CFD whose state text equals the latest state's text (`state in (select state … limit 1)`) | one CFD whose state was appended twice with the same value, e.g. the same state and timestamp written by a retried transition | one row per CFD carrying its latest state, as the doc comment at daemon/src/db.rs:327 says; the same join is in `load_cfd_by_order_id` (where `fetch_one` hides it) and `load_cfds_by_oracle_event_id` | not executed | StateStore.DuplicateStateRowsDuplicateCfd | StateStore.LoadAllCfdsExact |
