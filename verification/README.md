# A verified model of the event, delivery and evaluation core

This project models the parts of the repository where several views of the same facts must agree, and
proves that they do, or exactly when.

**Driver events** (`DriverEvents`, `StreamProjection`, `StreamRefs`, `AuditLog`, `DriverUsage`,
`UsageLedger`, `UsageRuns`, `Reconcile`, `ReconcileOrder`, `EventPipeline`). Every event a driver emits is numbered within its run,
folded into the task's usage, written to a usage ledger and to a log with a size cap, and projected into
the run's registry, where large fields may be replaced by a reference into the log. The views of a run are
functions of the sequence of its arrivals; an object that updates maps as the backend does is proved to
keep all of them at once, whichever of its writes fail. On these functions stand the theorems: a reference
never leads to another event, the ledger projects to what the live accumulator holds, the payload shows each
field of its event from its own place, replay and reconciliation report the lost, truncated or rejected
events and nothing else.

**Protocols, as steps** (`ExecutionQueue`, `FileLock`, `DeliveryLifecycle`, `DeliveryArchive`,
`MaintenanceOutbox`). A state machine whose runs are all interleavings: the promise-chain queue over
several keys (the role queue of the maintenance runner is its case of one key), the exclusive lock file
with stealing, the delivery records with fencing tokens, the delivery and Buffer stores between which there
is no transaction, and single-flight submission with replay. The methods that change these states are proved
against the step functions.

**Evaluation** (`Verified30`, `CaseId`, `ProtectedPath`). The four greedy passes of the case selector, the
printer and parser of case identifiers, and two implementations of the protected-path test.

**Texts, trees and pages** (`Redactor`, `CanonicalJson`, `JsonText`, `EventPaging`). The secret redactor, the
canonical form of JSON values and its text, and fetching a timeline in pages while it grows.

`Common.dfy` holds optional results, the order of strings, decimal numerals, sorting and ASCII letters.

`dafny verify dfyconfig.toml` checks the project.

## Where the code does less than its documentation

- A lock steal reads, judges and unlinks in separate steps. `FileLock.TwoThievesGetIn` is a run in which two
  calls are inside at once. Live holders keep their files exactly when every steal finds the path empty or
  its owner dead (`FileLock.HeldIffStealsSpareTheLiving`), and then exclusion holds; removing only what was
  judged, with live holders through within the stale time, is one way to meet that condition.
- `mergeTaskDriverUsage` drops the times of costs, so the second source's cost wins even where the first is
  newer (`DriverUsage.MergeCanTurnCostBack`); `DriverUsage.MergeMatchesFold` and
  `DriverUsage.MergedTotalMatches` say exactly when that matters.
- Over several runs the cost and the role of a session can depend on the order in which their directories are
  listed (`UsageRuns.CostAndRoleDependOnOrder`). The cost does exactly when two runs whose own cost bears the
  latest time have different ones, the role exactly when two runs give different ones; otherwise every order
  gives the accumulator's (`UsageRuns.LedgersAgreeOnCostIff`, `UsageRuns.LedgersAgreeOnRoleIff`).
- Polling with the last received number loses events that tie across a page boundary, and following
  `latest_sequence` after a page that was cut short loses the rest
  (`EventPaging.PollCompleteIffClean`, `EventPaging.NothingAfterLatest`).
- The aligned timeline is documented never to go down; that holds exactly when both channels agree on the
  order of the events they share (`EventPaging.AlignedInOrderIff`, `EventPaging.AlignedCanGoDown`).
- A process numbers its events from 1, so after a restart a reference can resolve to an event of the earlier
  process (`StreamRefs.RestartReusesNumbers`, with the exact condition in `StreamRefs.RefResolvesToOwnEvent`).
- A size query that fails counts as size 0, so an append can put its event at the cap or behind a marker
  (`AuditLog.EventBehindMarker`); otherwise the cap is respected (`AuditLog.RunRespectsCap`).
- The number of type mismatches a reconciliation reports depends on the order of events, unlike all its
  other results (`Reconcile.MismatchesDependOnOrder`); `ReconcileOrder.MismatchesAtKeyFixedIff` and
  `ReconcileOrder.MismatchNumberFixedIff` say exactly when.
- Two retries do not clear a Buffer from the archive backlog when only the second one manages to restore it
  from the dead letters (`DeliveryArchive.TwoRetriesClear`, `DeliveryArchive.TwoRetriesNotEnough`).
- A secret that is part of `[REDACTED]` or overlaps it can survive redaction; `Redactor.HidesOneIff` says exactly
  when a single one does, `Redactor.HidesAllIffNotInMark` when some of a list do that do not overlap the mark.
- On file names with a line feed at the end or a carriage return inside, the Python test protects more than
  the TypeScript test (`ProtectedPath.AgreeIff`, `ProtectedPath.LineFeedTellsThemApart`).

## Model

| member | source | states |
|---|---|---|
| ExecutionQueue.NoOverlap | src/app/driver-runtime-agent-execution-facade.ts:1564-1592 | in every run of enqueues, starts, settlings, clean-ups and aborts, two operations that share a key never run at the same time |
| ExecutionQueue.StartsFollowEnqueueOrder | src/app/driver-runtime-agent-execution-facade.ts:1569-1583 | operations that share a key start in the order in which they were enqueued |
| ExecutionQueue.EarliestWaitingCanStart | src/app/driver-runtime-agent-execution-facade.ts:1569-1576 | in a reachable state where nothing runs, the earliest waiting operation can start: no deadlock |
| ExecutionQueue.SomeStepHelps | src/app/driver-runtime-agent-execution-facade.ts:1573-1590 | while anything is left to do, some start, settling or clean-up is enabled and lessens it |
| ExecutionQueue.CanAlwaysDrain | src/app/driver-runtime-agent-execution-facade.ts:1573-1590 | from every reachable state some run settles everything, and then no key is remembered |
| ExecutionQueue.WorkBoundsRun | src/app/driver-runtime-agent-execution-facade.ts:1573-1590 | every run of starts, settlings and clean-ups is exactly as long as the work it does away with, so none goes on for ever |
| ExecutionQueue.CleanUpKeepsNewerTails | src/app/driver-runtime-agent-execution-facade.ts:1584-1590 | a clean-up removes the tail of a key exactly when it is its own: a newer one stays |
| ExecutionQueue.AbortsDoNotSteer | src/app/driver-runtime-agent-execution-facade.ts:1852-1875 | removing all aborts from a run changes no tail, no phase and no start: an abort lets nobody overtake |
| ExecutionQueue.StartedRepliesAreKept | src/app/driver-runtime-agent-execution-facade.ts:1852-1875 | an abort after the start never takes the result of an operation from its caller |
| ExecutionQueue.RepliesAreOutcomes | src/app/driver-runtime-agent-execution-facade.ts:1564-1592 | in every run from the start an operation ends with `Finished(ok)` if and only if it was settled with `ok` and nobody gave it up before its start, with `RejectedInQueue` if and only if it was given up before, and open otherwise: what was enqueued, settled and given up is read off the actions |
| ExecutionQueue.KeysAreEnqueued | src/app/driver-runtime-agent-execution-facade.ts:1564-1571 | the i-th operation has the keys of the i-th enqueueing of the run |
| ExecutionQueue.StartsAreApart | src/app/driver-runtime-agent-execution-facade.ts:1564-1592 | read off the actions alone: of two starts of operations enqueued with a common key the first is that of the one enqueued first, which is settled before the second |
| ExecutionQueue.RunKeepsInv | src/app/driver-runtime-agent-execution-facade.ts:1564-1592 | the invariant behind these holds after every run |
| ExecutionQueue.ExecutionQueues.Previous | src/app/driver-runtime-agent-execution-facade.ts:1569-1571 | the operations to wait for are the current tails of the keys |
| ExecutionQueue.ExecutionQueues.SetTails | src/app/driver-runtime-agent-execution-facade.ts:1581-1583 | every key of the new operation, and no other, has it as its tail |
| ExecutionQueue.ExecutionQueues.AddOperation | src/app/driver-runtime-agent-execution-facade.ts:1564-1592 | enqueueing is the enqueue step of the protocol |
| ExecutionQueue.ExecutionQueues.Begin | src/app/driver-runtime-agent-execution-facade.ts:1573-1576 | setting `started` is the start step |
| ExecutionQueue.ExecutionQueues.Finish | src/app/driver-runtime-agent-execution-facade.ts:1577-1580 | completing is the settle step, whose reply `RepliesAreOutcomes` ties to the outcome |
| ExecutionQueue.ExecutionQueues.ForgetTails | src/app/driver-runtime-agent-execution-facade.ts:1584-1590 | the clean-up loop is the clean-up step |
| ExecutionQueue.ExecutionQueues.RejectWhileQueued | src/app/driver-runtime-agent-execution-facade.ts:1852-1875 | an abort is the abort step: it rejects only what has not started |
| DriverUsage.FoldSummarises | src/app/driver-usage-projector.ts:308-336 | after folding any observations a session holds the greatest tokens and window, the first role, the latest cost and whether any was complete |
| DriverUsage.OrderAndRepetitionDoNotMatter | src/app/driver-usage-projector.ts:304-336 | folds of the same set of observations agree on tokens, window and completeness, whatever their order and repetition |
| DriverUsage.AbsorbAssociative | src/app/driver-usage-projector.ts:308-336 | absorbing is associative, for well-formed observations: among other things those without a cost have no cost time |
| DriverUsage.OrderDoesNotMatterForCost | src/app/driver-usage-projector.ts:304-336 | where the costs of a session at its latest cost time are all the same, folds of the same set of observations agree on its cost too |
| DriverUsage.CostOrderFreeIff | src/app/driver-usage-projector.ts:304-336 | all orders of the observations leave a session with one cost if and only if its costs at its latest cost time are all the same |
| DriverUsage.RoleOrderFreeIff | src/app/driver-usage-projector.ts:304-336 | all orders give it one role if and only if no two observations give it different ones |
| DriverUsage.FoldJoins | src/app/driver-usage-projector.ts:308-336 | folding more observations into a table is joining it, session by session, with their own fold |
| DriverUsage.AggregateLists | src/app/driver-usage-projector.ts:338-367 | the aggregate lists each session of the table once, with its values, sorted by session |
| DriverUsage.MergeMatchesFold | src/app/driver-usage-projector.ts:165-190 | merging two finished aggregates and folding both streams at once agree on tokens, window, role and completeness, and on the cost exactly when the second source does not bring an older, different one |
| DriverUsage.MergedTotalMatches | src/app/driver-usage-projector.ts:165-190 | the totals of tokens, availability and completeness always agree; the whole aggregates, with sessions and sums by currency, agree if and only if no session's second cost is an older, different one |
| DriverUsage.SameAggregateIff | src/app/driver-usage-projector.ts:338-367 | two tables of the same sessions have the same aggregate if and only if what is listed of each session is the same |
| DriverUsage.MergeCanTurnCostBack | src/app/driver-usage-projector.ts:165-190 | and it happens: two streams whose merge shows the older cost, while their joint fold shows the newer |
| DriverUsage.SumCosts | src/app/driver-usage-projector.ts:345-352 | each currency's amount is the sum over the sessions that pay in it |
| DriverUsage.ListSessions | src/app/driver-usage-projector.ts:339-344 | the projected sessions are those of the table, in order |
| DriverUsage.ListCosts | src/app/driver-usage-projector.ts:361-363 | one entry for each currency that is paid in, in order |
| DriverUsage.SumTokens | src/app/driver-usage-projector.ts:357-365 | the total is the sum over all sessions; complete when all are |
| DriverUsage.TokensAddUp | src/app/driver-usage-projector.ts:357-365 | the total of one session is its tokens, and totals add up over lists |
| DriverUsage.CostsAddUp | src/app/driver-usage-projector.ts:345-352 | a currency's amount is that of each session that pays in it, added up |
| DriverUsage.FinalizeUsageSessions | src/app/driver-usage-projector.ts:338-367 | the loops compute the aggregate the lemmas are about |
| DriverUsage.FoldSource | src/app/driver-usage-projector.ts:174-188 | an unavailable source adds nothing, any other the fold of its sessions |
| DriverUsage.MergeTaskDriverUsage | src/app/driver-usage-projector.ts:169-190 | the merge computes the aggregate of both sources' sessions folded in turn |
| UsageLedger.EventsGiveStamped | src/app/driver-usage-projector.ts:275-302 | an observation made from an event has a cost time exactly if it has a cost, and that of the event |
| UsageLedger.ObservationTold | src/app/driver-usage-projector.ts:275-302 | an event is an observation if and only if it updates usage, has a nonnegative number at `update.used`, and is of a named session; window, role and cost are there exactly if `update.size`, the role and both parts of `update.cost` fit, with those values |
| UsageLedger.RecordTold | src/app/driver-usage-projector.ts:89-108 | a ledger line, field by field: schema, metric, time, run, task, number, session, tokens, role, window and cost; lines of another schema or metric are not read |
| UsageLedger.RecordRoundTrip | src/app/driver-usage-projector.ts:89-142 | reading a written ledger line gives the observation back, complete exactly if it carries a cost |
| UsageLedger.LedgerReplaysObserved | src/app/newide-backend-service.ts:2379-2399 | reading a run's ledger gives the observations the accumulator saw, in order |
| UsageLedger.LedgerAgreesWithAccumulator | src/app/driver-usage-projector.ts:90-163 | for a run without write failure the ledger and the live accumulator have the same sessions in every field but `complete`, and there it is true exactly for sessions where some update carried a cost |
| UsageLedger.LedgerTotalsAgree | src/app/driver-usage-projector.ts:90-163 | and the two finished aggregates have the same session lists up to `complete`, the same tokens, sums by currency and availability; the ledger's is complete exactly if an update of every session carried a cost |
| UsageLedger.LedgerFileIsPrefix | src/app/newide-backend-service.ts:2379-2399 | whatever writes fail, a run's ledger file is a prefix of the records of its arrivals, and all of them if none fails |
| UsageLedger.LedgerIsPrefixOfEmits | src/app/driver-usage-jsonl-sink.ts:51-73 | a run's ledger is a prefix of the records emitted for it, whole when no write fails |
| UsageLedger.TaskDriverUsageAccumulator.Observe | src/app/driver-usage-projector.ts:148-158 | the accumulator holds the fold of all observations so far |
| UsageLedger.TaskDriverUsageAccumulator.Finalize | src/app/driver-usage-projector.ts:160-162 | and finishes them without changing |
| UsageLedger.FileRunDriverUsageJsonlSink.Emit | src/app/driver-usage-jsonl-sink.ts:58-72 | a record is appended unless a write for its run has failed before; a failure stops the run's ledger for good |
| UsageRuns.LedgersAgreeAcrossRuns | src/app/driver-usage-projector.ts:203-220 | for a task over several runs, in whatever order the ledgers are read, they agree with the accumulator on the sessions, their tokens and windows, and call a session complete exactly if some update of it carried a cost |
| UsageRuns.RunsFoldRecords | src/app/driver-usage-projector.ts:203-220 | reading all ledgers is, for each session, folding what each run's ledger alone says of it |
| UsageRuns.RunOrderFreeForCostIff | src/app/driver-usage-projector.ts:203-220 | the cost of a session is the same for every order of the run directories if and only if the runs whose own cost bears the latest time all have the same |
| UsageRuns.LedgersAgreeOnCostIff | src/app/driver-usage-projector.ts:203-220 | and under exactly that condition every order gives the accumulator's cost |
| UsageRuns.RunOrderFreeForRoleIff | src/app/driver-usage-projector.ts:203-220 | its role is the same for every order if and only if the runs that give it one all give the same |
| UsageRuns.LedgersAgreeOnRoleIff | src/app/driver-usage-projector.ts:203-220 | and under exactly that condition every order gives the accumulator's role |
| UsageRuns.LiveCostIsSomeRuns | src/app/driver-usage-projector.ts:148-158 | the accumulator's cost is the one some run's ledger ends with, and no run ends with a later one |
| UsageRuns.LiveRoleIsSomeRuns | src/app/driver-usage-projector.ts:148-158 | the accumulator's role is that of some run, and it has one if any run has |
| UsageRuns.CostAndRoleDependOnOrder | src/app/driver-usage-projector.ts:203-220 | two runs of one task whose updates tie in time: the two orders of directories give different costs and different roles |
| UsageRuns.ReadUsageLedgerObservations | src/app/driver-usage-projector.ts:222-235 | reading a ledger gives the observations of its records for the task, in order |
| UsageRuns.ReadCappedStreamObservations | src/app/driver-usage-projector.ts:241-266 | reading a capped log gives the observations of the task's events, complete only if it bears no truncation mark |
| UsageRuns.ProjectTaskDriverUsage | src/app/driver-usage-projector.ts:203-220 | projecting the run directories is aggregating the fold of each run's ledger, or of its capped log where the ledger has nothing of the task |
| UsageRuns.CompleteLedgersDecide | src/app/driver-usage-projector.ts:211-216 | over runs with complete ledgers the projection reads the ledgers alone |
| UsageRuns.EmptyLedgerEmptyLog | src/app/driver-usage-projector.ts:211-216 | where a complete ledger has nothing of the task, neither has the capped log |
| UsageRuns.ProjectedCompleteIff | src/app/driver-usage-projector.ts:203-266 | the projection calls a session complete if and only if some run vouches for it: its ledger has a cost of the session, or, where the ledger has nothing of the task, its log bears no truncation mark and has an update of the session |
| Reconcile.CountsAtKey | scripts/driver-stream-reconcile.ts:144-165 | with R replayed and T timeline events at a key, the key is listed max(0, R - T) times as missing, and max(0, T - R) are left over |
| Reconcile.EveryEventAccountedFor | scripts/driver-stream-reconcile.ts:147-160 | matched, mismatched and missing events add up to all replayed events |
| Reconcile.CleanIffCovered | scripts/driver-stream-reconcile.ts:147-160 | nothing is missing or mismatched exactly when the timeline has every replayed type often enough at its key |
| Reconcile.OkIffSameTypes | scripts/driver-stream-reconcile.ts:137-184 | the outcome is `ok` if and only if at every key both sides have the same types equally often, for any order on both sides |
| Reconcile.StreamKeyUnless | scripts/driver-stream-reconcile.ts:124-135 | the driver's own key is used exactly if a side is empty or some event on either side has no stream number |
| Reconcile.TypesAreCounted | scripts/driver-stream-reconcile.ts:134-145 | the types a side has at a key count its events with that type and that number, -1 where it has none |
| Reconcile.MissingAndUnexpectedDisjoint | scripts/driver-stream-reconcile.ts:159-165 | a key is missing when R > T and unexpected when T > R, so never both |
| Reconcile.MismatchesDependOnOrder | scripts/driver-stream-reconcile.ts:151-158 | the number of mismatches does depend on the order: two orders of the same events with one mismatch and with two |
| ReconcileOrder.MismatchesAtKeyFixedIff | scripts/driver-stream-reconcile.ts:147-159 | the number of mismatches at a key is the same for every order of the replayed events if and only if, for every type b on both sides, the excess events of the other types there are no more than the timeline's surplus in the types up to b |
| ReconcileOrder.MismatchNumberFixedIff | scripts/driver-stream-reconcile.ts:147-159 | the number of all mismatches is the same for every order if and only if that holds at every key |
| ReconcileOrder.FewestAtKey | scripts/driver-stream-reconcile.ts:147-159 | in every order the mismatches at a key are at least min(R, T) less the types both sides have, and some order has no more |
| ReconcileOrder.PlayedAtKey | scripts/driver-stream-reconcile.ts:147-159 | reconciling plays, at each key, the types replayed there against the bucket of that key |
| ReconcileOrder.PairsAddUp | scripts/driver-stream-reconcile.ts:147-159 | own and mismatched events at a key are as many as the smaller side, and no type takes more of its own than both sides have |
| Reconcile.TakeType | scripts/driver-stream-reconcile.ts:188-195 | one event of the type is taken out of the bucket, if there is one |
| Reconcile.AddType | scripts/driver-stream-reconcile.ts:139-141 | one event of the type is added to the bucket |
| Reconcile.BuildIndex | scripts/driver-stream-reconcile.ts:137-142 | the index counts the types at each key |
| Reconcile.ConsumeOne | scripts/driver-stream-reconcile.ts:147-159 | one turn of the loop: pair with the same type, or with the first other type in order, or report missing |
| Reconcile.ConsumeReplayed | scripts/driver-stream-reconcile.ts:147-160 | the loop consumes the replayed events in order |
| Reconcile.Unconsumed | scripts/driver-stream-reconcile.ts:162-165 | the keys with anything left, ascending, each once |
| Reconcile.ReconcileDriverStream | scripts/driver-stream-reconcile.ts:124-186 | the key kind, the exact number of times every key is missing, the unexpected keys, both sorted, and `ok` exactly if both sides have the same types at every key |
| AuditLog.EventLinesFollowCalls | src/app/driver-stream-audit-writer.ts:54-88 | over any appends, failures and restarts the event lines are a subsequence of the calls, in call order |
| AuditLog.LogIsCapped | src/app/driver-stream-audit-writer.ts:69-82 | unless an append writes an event at the cap because it could not read the size, no event line follows a truncation marker; the event bytes before any event line are below the cap and with it below the cap plus that line |
| AuditLog.OneMarkerPerWriter | src/app/driver-stream-audit-writer.ts:61-81 | in any run from any file each writer adds at most one marker: between any two points with no restart between them there is at most one more, and no change at all once the run was marked |
| AuditLog.WriterMarksOnce | src/app/driver-stream-audit-writer.ts:61-81 | a writer that has marked the run adds no line to it any more, and one that has not adds at most one marker |
| AuditLog.MarkersAtMostWriters | src/app/driver-stream-audit-writer.ts:61-81 | so there are at most as many markers as writers, beside those in the file found |
| AuditLog.CapPutsMarkersLast | src/app/driver-stream-audit-writer.ts:73-82 | in a file that respects the cap markers come last |
| AuditLog.RunRespectsCap | src/app/driver-stream-audit-writer.ts:69-82 | whatever fails, the operations keep a file respecting the cap if and only if no append writes an event at the cap because its size query failed |
| AuditLog.EventBehindMarker | src/app/driver-stream-audit-writer.ts:69-82 | and that happens: a new writer whose size query fails puts an event behind the marker of an earlier one |
| AuditLog.SizesReadNeverBlind | src/app/driver-stream-audit-writer.ts:69-82 | it cannot where every size query succeeds |
| AuditLog.KeptIsLongestFit | src/app/driver-stream-audit-writer.ts:77-82 | the calls that fit are the longest prefix whose lines all start below the cap |
| AuditLog.MarkersAtCap | src/app/driver-stream-audit-writer.ts:69-82 | while no append writes blindly, a marker stands only where the lines before it have reached the cap |
| AuditLog.EventLinesAreKept | src/app/driver-stream-audit-writer.ts:54-88 | without write failures, and whatever restarts happen, the event lines are exactly the calls that fit |
| AuditLog.FileDriverStreamAuditWriter.Append | src/app/driver-stream-audit-writer.ts:54-88 | an append changes the log of its run as the step function says, and no other |
| StreamRefs.StreamRefRoundTrip | src/app/driver-stream-refs.ts:34-44 | parsing the reference printed for a stream number gives that number back |
| StreamRefs.LegacyRefRoundTrip | src/app/driver-stream-refs.ts:35-44 | parsing the reference printed for a driver number gives it back, if it is not negative, and nothing otherwise |
| StreamRefs.ParsesIffRefText | src/app/driver-stream-refs.ts:34-44 | a reference is read as a stream number, or as a driver number, if and only if it is the literal prefix and the digits of that number |
| StreamRefs.LegacyRefResolves | src/app/driver-stream-refs.ts:68-80 | an old reference brings back an event if and only if it is that of the first line with this number of the driver's own |
| StreamRefs.FirstAnswerIsFirst | src/app/driver-stream-refs.ts:68-80 | the line found is the first that answers the reference, and none is found only if none answers |
| StreamRefs.RefResolvesToOwnEvent | src/app/driver-stream-refs.ts:68-80 | a reference resolves to the event it was made for or to nothing if and only if it did so in the file the process found |
| StreamRefs.RestartReusesNumbers | src/app/newide-backend-service.ts:2401-2405 | after a restart a reference can lead to an event of the earlier process |
| StreamRefs.RefResolvesIffKept | src/app/driver-stream-refs.ts:68-80 | in a log one process wrote, a reference resolves to its event exactly if the log has kept that event, and to nothing otherwise |
| StreamProjection.LargeFieldsInlinedOrReferred | src/app/driver-stream-projection.ts:286-302 | a large field is in the payload with its value, or over the limit with a reference in its place; with no number every large field is inlined |
| StreamProjection.PayloadTells | src/app/driver-stream-projection.ts:127-254 | the whole payload, name by name: a bounded field is there if and only if the first non-null value at its places in the driver's payload is a number, or a nonempty string, as the field takes, and it is that value; a large field is there with the value of its place exactly if that is there and fits or cannot be referred to |
| StreamProjection.SmallFieldsShown | src/app/driver-stream-projection.ts:149-242 | every bounded field of every event type shows the value at its own place, in the order of preference given there, and no other |
| StreamProjection.LargeFieldsShown | src/app/driver-stream-projection.ts:149-242 | every large field shows the value at its own place, which may be null |
| StreamProjection.NothingOverwritten | src/app/driver-stream-projection.ts:136-242 | no later addition changes an earlier one: the payload has exactly the names of the envelope, the bounded and the inlined large fields, each with the value first given |
| StreamProjection.AddLarge | src/app/driver-stream-projection.ts:290-302 | a value within the limit, or any value without a reference, is put into the payload |
| StreamProjection.AddToolContents | src/app/driver-stream-projection.ts:272-275 | the tool's large fields are added or left to the reference |
| StreamProjection.AddLargeFields | src/app/driver-stream-projection.ts:149-242 | each event type adds its large fields |
| StreamProjection.ProjectDriverStreamLifecycleEvent | src/app/driver-stream-projection.ts:127-254 | the projected event, filled step by step, has the type, names, numbers and time of `ProjectionTold` and the payload of `PayloadTells` |
| StreamProjection.EveryType | src/app/driver-stream-projection.ts:149-254 | each event type has its literal projected type: an update of a tool call is `driver.tool_completed` if and only if its status is `completed`, `driver.tool_failed` if and only if it is `failed`, else `driver.tool_progress`; an unknown `driver.` type keeps its name, anything else is `driver.session_update_unknown` |
| StreamProjection.ProjectionTold | src/app/driver-stream-projection.ts:127-148 | and session, role, run, task, subject, numbers and time show the field of the event that they are named after: the subject is the run, else the session, else the type |
| StreamProjection.PiecesStayOut | src/app/driver-stream-projection.ts:63-101 | a projected event goes to the store if and only if the event is no piece of a stream: chunk, error line, tool update that ends nothing, unknown type, or one of the six names itself |
| StreamProjection.NeverEndsRun | src/app/driver-stream-projection.ts:127-254 | no event is projected to the end of a run |
| EventPipeline.NothingIsLost | src/app/newide-backend-service.ts:2339-2366 | whatever writes fail, each large field of the n-th event of a run is in its projection, or the projection refers to the event: the reference brings it back exactly if the log has it, never another, and the log has it unless its own write failed or the log is full |
| EventPipeline.MissingOnlyIfFailedOrFull | src/app/driver-stream-audit-writer.ts:54-88 | an event is missing from its run's log only because its own write failed or the log is full |
| EventPipeline.ResolvesIffLogged | src/app/driver-stream-refs.ts:68-80 | whatever fails, the reference of the n-th event brings it back if the log has it, and nothing otherwise |
| EventPipeline.LinesNumberedInOrder | src/app/newide-backend-service.ts:2401-2405 | event lines and markers of one process carry ascending numbers, so none comes twice |
| EventPipeline.LogHasFirst | src/app/driver-stream-audit-writer.ts:54-88 | when no write to it fails the log has the first events of the run, as many as fit under the cap |
| EventPipeline.LogReplaysLogged | scripts/driver-stream-reconcile.ts:92-111 | replaying a run's log gives the items of exactly the events the log has, in order: without failures the first that fit |
| EventPipeline.ItemsHaveBothNumbers | scripts/driver-stream-reconcile.ts:92-111 | an item has the number given to its event and the driver's own, -1 where there is none |
| EventPipeline.TimelineOfStored | scripts/driver-stream-reconcile.ts:211-244 | reading stored projections gives the items of the events they were made from |
| EventPipeline.RegistryIsStored | src/app/newide-backend-service.ts:2289-2298 | a run's registry holds the projections of the arrivals it has accepted, in order |
| EventPipeline.AcceptedIffSignedHere | src/app/newide-backend-service.ts:2289-2298 | an arrival is accepted if and only if its run is absent, empty or the one it arrives for, and its task likewise |
| EventPipeline.RegistryTakes | src/app/newide-backend-service.ts:2289-2298 | the registry gains the projection of such an arrival and nothing from any other |
| EventPipeline.AcceptedAreSignedHere | src/app/newide-backend-service.ts:2289-2298 | so n is accepted if and only if the n-th event bears no foreign signature |
| EventPipeline.RegistryHasAll | src/app/newide-backend-service.ts:2289-2298 | where none does, the registry has the projections of all arrivals, in order |
| EventPipeline.ProjectedTold | src/app/newide-backend-service.ts:2339-2357 | what arrives is projected under its number and its time, with type, names and payload from its own fields |
| EventPipeline.ReconcileFindsTheDifference | scripts/driver-stream-reconcile.ts:114-186 | reconciling a log with some of a run's events and a timeline with some reports exactly the numbers one side has and the other has not, and never a mismatch |
| EventPipeline.RunReconciles | scripts/driver-stream-reconcile.ts:124-186 | a run's own log and registry, either of them possibly empty, have the same types at every key exactly when the events accepted are those the log has |
| EventPipeline.StoreIsStateOfRegistry | src/app/newide-backend-service.ts:2358-2365 | while the coordination store takes what it is given, it holds the state events of the registry, in order |
| EventPipeline.StoreTakes | src/app/newide-backend-service.ts:2358-2365 | an arrival adds exactly its projection to the store if it bears no foreign signature, is no piece of a stream and the store works, and nothing otherwise |
| EventPipeline.MustTellIff | src/app/newide-backend-service.ts:2316-2337 | a failure to store must be told if and only if an event without foreign signature named `driver.prompt_dispatching` or `driver.session_initializing` meets a store that throws |
| EventPipeline.NumbersCountArrivals | src/app/newide-backend-service.ts:2401-2405 | the number of an event is the count of its run's arrivals |
| EventPipeline.DriverStreamPipeline.NextDriverStreamSequence | src/app/newide-backend-service.ts:2401-2405 | the next number is one more than the run's arrivals so far |
| EventPipeline.DriverStreamPipeline.ObserveUsage | src/app/newide-backend-service.ts:2351 | the accumulator of every task holds the fold of its arrivals |
| EventPipeline.DriverStreamPipeline.WriteDriverUsageRecord | src/app/newide-backend-service.ts:2379-2399 | the ledger sink is given the records of the arrivals, in order; a failing write is swallowed and ends the run's ledger |
| EventPipeline.DriverStreamPipeline.AppendLog | src/app/driver-stream-audit-writer.ts:54-88 | the log of every run is that of its arrivals under the cap, whatever appends fail |
| EventPipeline.DriverStreamPipeline.AppendDomainEvent | src/app/newide-backend-service.ts:2289-2298 | the registry takes the projection if and only if the arrival is signed by no other run or task |
| EventPipeline.DriverStreamPipeline.PersistRunEvent | src/app/newide-backend-service.ts:2316-2337 | the store takes the projection exactly if the registry has, it is a state event and the store works; a failure reaches the caller only for a recovery fact |
| EventPipeline.DriverStreamPipeline.AppendDriverStreamEvent | src/app/newide-backend-service.ts:2339-2366 | every view of every run and task stays that of the arrivals, under one number and one time; a failing write stays without effect on the other views |
| EventPipeline.DriverStreamPipeline.ReconcileRun | scripts/driver-stream-reconcile.ts:114-186 | reconciling a run's log with its registry reports `ok` if and only if both have the same events; where no arrival bears a foreign signature, if and only if the log has every event |
| FileLock.MutualExclusion | eval/ensure-repo-mirror.ts:122-165 | in every run where live holders are through within the stale time and a steal removes what it judged, at most one live call is between its open and its unlink |
| FileLock.RunKeepsInv | eval/ensure-repo-mirror.ts:122-165 | the invariant behind it holds after every such run |
| FileLock.FileExistsIffHeld | eval/ensure-repo-mirror.ts:142-160 | without steals the file exists exactly when exactly one call holds it |
| FileLock.DeadHolderIsRecovered | eval/ensure-repo-mirror.ts:224-227 | once a holder that wrote its body is dead, another call can steal the lock and enter |
| FileLock.VerdictOnBody | eval/ensure-repo-mirror.ts:199-227 | a waiter that read a body dooms the lock if and only if another, dead process wrote it or it is older than the stale time, and else waits |
| FileLock.VerdictOnEmpty | eval/ensure-repo-mirror.ts:228-244 | one that read none goes by the age of the file |
| FileLock.StealSafeIffNotHeld | eval/ensure-repo-mirror.ts:199-244 | wherever live holders have their files, a steal keeps that so exactly when the file it removes is not a live holder's |
| FileLock.HeldIffStealsSpareTheLiving | eval/ensure-repo-mirror.ts:199-244 | in every run, whatever time passes, every live holder keeps its file throughout if and only if every steal finds the path empty or its owner dead |
| FileLock.ExclusionIfStealsSpareTheLiving | eval/ensure-repo-mirror.ts:122-165 | and then at most one live call is between its open and its unlink, with no hypothesis about time |
| FileLock.DisciplinedSparesTheLiving | eval/ensure-repo-mirror.ts:199-244 | timely holders and steals of what was judged meet that condition |
| FileLock.UnsafeStealLetsTwoIn | eval/ensure-repo-mirror.ts:199-244 | after a steal of a live holder's file two live calls can be inside |
| FileLock.TwoThievesGetIn | eval/ensure-repo-mirror.ts:199-227 | and that happens from the start: a run in which two waiters steal one after the other and both enter |
| DeliveryLifecycle.AnswersAreSound | src/memory/services/delivery-lifecycle.ts:220-437 | every answer leaves a record that has a token and a lease exactly while in processing and no more attempts than the policy allows |
| DeliveryLifecycle.ProcessedIsFinal | src/memory/services/delivery-lifecycle.ts:293-322 | no request changes a processed delivery, and a repeated submission changes nothing |
| DeliveryLifecycle.TokenAfter | src/memory/services/delivery-lifecycle.ts:262-370 | a claim gives a fresh token; completing and failing need the current one and take it away |
| DeliveryLifecycle.AskKeepsInv | src/memory/adapters/in-memory-memory-delivery.ts:207-387 | every request to the store keeps its records sound and its claims fenced |
| DeliveryLifecycle.AnyRequestsAreFenced | src/memory/services/delivery-lifecycle.ts:220-437 | over any requests at any times a claim is finished at most once, by its own token, and only while no later claim was given |
| DeliveryLifecycle.ClaimIff | src/memory/services/delivery-lifecycle.ts:189-251 | a claim succeeds if and only if the record is pending, has attempts left and is past its waiting time |
| DeliveryLifecycle.LeaseRules | src/memory/services/delivery-lifecycle.ts:205-322 | while the lease lasts the holder, and nobody else, can renew, complete or fail; once it is over only the restoring of crashed claims succeeds |
| DeliveryLifecycle.RenewedLease | src/memory/services/delivery-lifecycle.ts:281-291 | a renewed lease counts from the renewal and costs no attempt |
| DeliveryLifecycle.CrashedIsClaimableIff | src/memory/services/delivery-lifecycle.ts:372-411 | restoring changes a record if and only if it is in processing with its lease over; it can then be claimed at once if and only if attempts are left, and is dead-lettered otherwise |
| DeliveryLifecycle.ClaimsFreshToken | src/memory/services/delivery-lifecycle.ts:230-251 | the token of a claim is none of those given before |
| DeliveryLifecycle.DeadLetterRules | src/memory/services/delivery-lifecycle.ts:420-437 | of a dead-lettered record only a manual retry succeeds, and gives all its attempts back |
| DeliveryLifecycle.DeadUntilRetried | src/memory/services/delivery-lifecycle.ts:420-437 | over any requests without that one it stays as it is |
| DeliveryLifecycle.SubmitThenClaim | src/memory/services/delivery-lifecycle.ts:230-251 | a submission succeeds if and only if there is no record yet; the new one can be claimed at once |
| DeliveryLifecycle.FailThenClaim | src/memory/services/delivery-lifecycle.ts:343-370 | after a retryable failure with attempts left a claim succeeds exactly once the delay is over; after any other the record is dead-lettered |
| DeliveryLifecycle.DelaysDouble | src/memory/services/delivery-lifecycle.ts:181-187 | the delay is the base for the first attempt and doubles with each, up to the maximum |
| DeliveryLifecycle.CompleteProcesses | src/memory/services/delivery-lifecycle.ts:300-322 | completing processes the record and keeps its task, owner and attempts |
| DeliveryLifecycle.OthersUntouched | src/memory/services/delivery-lifecycle.ts:220-437 | a request changes no other record |
| DeliveryArchive.ArchivedOnlyWhenProcessed | src/app/b-memory-backend-service.ts:1052-1142 | in every run the service archives a Buffer only when its delivery is processed |
| DeliveryArchive.ProcessedForGood | src/app/b-memory-backend-service.ts:1052-1142 | once processed, a delivery stays as it is |
| DeliveryArchive.ArchiveTold | src/memory/adapters/in-memory-buffer-repository.ts:214-266 | what archiving answers for a Buffer that is missing, pending, archived or dead-lettered, and that it moves only a pending one |
| DeliveryArchive.ReportErrsOnlyByMoves | src/app/b-memory-backend-service.ts:788-796 | the reported backlog names a Buffer too much only if it was archived or buried between the two reads, misses one only if it was saved or restored there, and is exact for every Buffer without such a step |
| DeliveryArchive.ReportedWasInBacklog | src/app/b-memory-backend-service.ts:788-796 | and a Buffer reported, unless it was buried, was in the backlog at some moment between the two reads |
| DeliveryArchive.OneRetryClearsUnlessBuried | src/app/b-memory-backend-service.ts:832-906 | one retry with a working archive takes the Buffer out of the backlog, except exactly when it was dead-lettered with a processed delivery and is restored |
| DeliveryArchive.TwoRetriesClear | src/app/b-memory-backend-service.ts:832-906 | after two retries with a working archive it is in the backlog exactly if it was dead-lettered, its delivery processed, and only the second retry's restore worked |
| DeliveryArchive.TwoRetriesNotEnough | src/app/b-memory-backend-service.ts:832-906 | and that happens: a run from the empty stores after which two retries leave the Buffer in the backlog |
| DeliveryArchive.RetriesClearInterleaved | src/app/b-memory-backend-service.ts:832-906 | two retries with any steps of others between theirs, the delivery becoming processed at any time: it is in the backlog afterwards exactly if its Buffer was pending with no archive working since it was last restored; where the second retry finds it processed, exactly if only that retry restored the Buffer |
| DeliveryArchive.LocationAfterRun | src/app/b-memory-backend-service.ts:832-906 | where a Buffer ends up after a run depends only on where it was and on the steps that move it |
| DeliveryArchive.RetryIsARun | src/app/b-memory-backend-service.ts:832-906 | what a retry does is a run of steps of the two stores |
| DeliveryArchive.RetryNeverProcesses | src/app/b-memory-backend-service.ts:832-906 | a retry never makes a delivery processed |
| DeliveryArchive.CountsAddUp | src/app/b-memory-backend-service.ts:1375-1383 | every delivery is counted under exactly one status |
| DeliveryArchive.CountDeliveryStatus | src/app/b-memory-backend-service.ts:1375-1383 | the counters are the numbers of deliveries with each status |
| DeliveryArchive.BMemoryBackendService.ArchiveBuffer | src/memory/adapters/in-memory-buffer-repository.ts:214-266 | archiving moves a pending Buffer, if the move works, and otherwise says where it is |
| DeliveryArchive.BMemoryBackendService.AckDelivery | src/app/b-memory-backend-service.ts:1052-1097 | acknowledging completes or fails the delivery, then archives exactly if completing succeeded |
| DeliveryArchive.BMemoryBackendService.RepairDeliveredBufferArchive | src/app/b-memory-backend-service.ts:1120-1142 | only a processed delivery's Buffer is archived |
| DeliveryArchive.BMemoryBackendService.RetryExtraction | src/app/b-memory-backend-service.ts:832-906 | the retry has the effect the lemmas are about; its warnings and its evidence tell exactly what it found and did |
| DeliveryArchive.BMemoryBackendService.SubmitContextDelivery | src/app/b-memory-maintenance-runner.ts:270-374 | a delivery is created only if absent and only for a readable pending Buffer |
| DeliveryArchive.BMemoryBackendService.ListContextDeliveries | src/memory/adapters/in-memory-memory-delivery.ts:128-139 | the role's deliveries, each once |
| DeliveryArchive.CountIsWithStatus | src/app/b-memory-backend-service.ts:1375-1383 | each counter is the number of the role's deliveries with that status |
| DeliveryArchive.BMemoryBackendService.DescribeDeliveryState | src/app/b-memory-backend-service.ts:748-804 | the four counters are the numbers of the role's deliveries with each status, the dead letters are the dead-lettered ones, and the backlog over the Buffers pending now is exactly the role's archive backlog |
| MaintenanceOutbox.DeliveryKeysDiffer | src/memory/services/context-delivery.ts:35-45 | different Buffers have different delivery keys, even for roles with colons and digits in their names |
| MaintenanceOutbox.DeliveryKeyText | src/memory/services/context-delivery.ts:35-45 | role, number and schema version between colons |
| MaintenanceOutbox.OnlyWholeBuffersDelivered | src/app/b-memory-maintenance-runner.ts:294-373 | in every run there is a delivery only for a Buffer that is there and readable |
| MaintenanceOutbox.FlightsKeepDeliveries | src/app/b-memory-maintenance-runner.ts:223-237 | no interleaving of schedulings changes a delivery that exists |
| MaintenanceOutbox.CreatedAtMostOnce | src/app/b-memory-maintenance-runner.ts:294-373 | over every run at most one delivery is created for a Buffer |
| MaintenanceOutbox.LandedIsDelivered | src/app/b-memory-maintenance-runner.ts:294-373 | a flight never misses a Buffer: whatever steps of other flights, the downstream and the archive fall between its own, once it has landed the delivery is there, unless the Buffer was buried |
| MaintenanceOutbox.LandingTells | src/app/b-memory-maintenance-runner.ts:294-373 | what a flight comes back with tells what it met: that this very step created the delivery, or not because it was there, or that there is no such pending Buffer, or that its context cannot be read |
| MaintenanceOutbox.RepeatedReplayAddsNothing | src/app/b-memory-maintenance-runner.ts:788-834 | a replay whose flights have landed has delivered all its Buffers, and repeated, with anything before, between and during, adds no delivery |
| MaintenanceOutbox.BMemoryMaintenanceRunner.ListPendingBufferSeqs | src/memory/adapters/in-memory-buffer-repository.ts:179-181 | the pending Buffers of a role, ascending, each once |
| MaintenanceOutbox.BMemoryMaintenanceRunner.ReplayOne | src/app/b-memory-maintenance-runner.ts:800-830 | one Buffer is submitted if readable and its evidence returned; a bad one gives a failure and changes nothing |
| MaintenanceOutbox.BMemoryMaintenanceRunner.ReplayRole | src/app/b-memory-maintenance-runner.ts:791-831 | a role's bad Buffers, each reported, do not keep its others from being submitted |
| MaintenanceOutbox.BMemoryMaintenanceRunner.ReplayPending | src/app/b-memory-maintenance-runner.ts:788-834 | a replay submits exactly the readable pending Buffers of all roles that could be listed, keeps every delivery that was there, and reports exactly what it created, the roles it could not list and the Buffers it could not read |
| MaintenanceOutbox.BMemoryMaintenanceRunner.ReplayTwice | src/app/b-memory-maintenance-runner.ts:788-834 | a second replay creates exactly what failed in the first alone; if the same fails again, the deliveries are those after the first |
| Redactor.NothingCreated | src/app/production-gate-executor.ts:211-212 | what occurs in a text after a replacement, and overlaps no mark, occurred before or is part of the mark |
| Redactor.OwnSecretGone | src/app/production-gate-executor.ts:211-212 | a secret that neither overlaps the mark nor is a part of it is gone once replaced |
| Redactor.RedactHides | src/app/production-gate-executor.ts:211-212 | and no later replacement brings it back |
| Redactor.HidesAllIffNotInMark | src/app/production-gate-executor.ts:203-213 | for secrets that do not overlap the mark, longest first: no text leaks any of them if and only if none is part of the mark |
| Redactor.HidesAllIffNotInWord | src/app/production-gate-executor.ts:203-213 | for secrets without brackets that is: if and only if none is part of `REDACTED` |
| Redactor.BracketFreeIsApart | src/app/production-gate-executor.ts:211-212 | a secret without brackets never overlaps the mark |
| Redactor.HidesOneIff | src/app/production-gate-executor.ts:203-213 | a single secret is hidden from every text if and only if it is no part of the mark, does not begin as the mark ends, and cannot be completed by a mark: it is not u, then the mark or at its end a beginning of it, then the rest, such that u before the secret makes no earlier occurrence |
| Redactor.LeakMeansCompleted | src/app/production-gate-executor.ts:211-212 | a secret found after replacing it, that does not begin as the mark ends and is no part of it, has been completed by a mark |
| Redactor.CompletedLeaks | src/app/production-gate-executor.ts:211-212 | and every secret that can be completed by a mark is, in a text made from it |
| Redactor.ThreeBracketsAreHidden | src/app/production-gate-executor.ts:211-212 | not every secret that ends in a bracket leaks |
| Redactor.MarkEndLeaks | src/app/production-gate-executor.ts:211-212 | every secret that begins with an end of the mark and goes on is brought back by the mark put in its place |
| Redactor.HiddenIsHeadApart | src/app/production-gate-executor.ts:211-212 | so a single secret hidden from every text neither begins as the mark ends nor is part of it |
| Redactor.BracketedSecretLeaks | src/app/production-gate-executor.ts:211-212 | a secret that ends in a bracket and whose first character comes only once can be completed and leaks |
| Redactor.CleanTextUnchanged | src/app/production-gate-executor.ts:211-212 | a text without secrets comes back as it is |
| Redactor.RedactIdempotent | src/app/production-gate-executor.ts:211-212 | redacting twice is redacting once |
| Redactor.SecretsListed | src/app/production-gate-executor.ts:203-210 | the secrets are the values of six or more characters under secret keys, longest first |
| Redactor.SecretKeyIff | src/app/production-gate-executor.ts:203-210 | a key is secret if and only if, in lower case, one of the six words occurs in it |
| Redactor.CaseDoesNotMatter | src/app/production-gate-executor.ts:203-210 | keys that differ only in the case of letters are both secret or neither |
| Redactor.EnvironmentSecretsHidden | src/app/production-gate-executor.ts:203-213 | so a secret of the environment that neither overlaps the mark nor is a part of it survives in no text |
| CanonicalJson.SortOrdered | scripts/council-legacy-agent-data.ts:124-126 | sorting puts the entries in the order of their keys' code units |
| CanonicalJson.FromEntriesOrdered | scripts/council-legacy-agent-data.ts:123-127 | the rebuilt object lists index-like keys by value and then the others in that order |
| CanonicalJson.IndexIff | scripts/council-legacy-agent-data.ts:123-127 | index-like keys are the decimal numerals of the numbers below 2^32 - 1 |
| CanonicalJson.CanonicalKeepsMeaning | scripts/council-legacy-agent-data.ts:120-128 | canonicalising changes nothing but the order of keys |
| CanonicalJson.SameMeaningSameForm | scripts/council-legacy-agent-data.ts:120-128 | values equal up to the order of keys have the same canonical form |
| CanonicalJson.CanonicalIff | scripts/council-legacy-agent-data.ts:120-128 | canonical forms are equal if and only if the values are equal up to the order of keys at every depth |
| CanonicalJson.CanonicalIdempotent | scripts/council-legacy-agent-data.ts:120-128 | canonicalising twice is canonicalising once |
| JsonText.StringDetermines | scripts/council-legacy-agent-data.ts:116-118 | a string, escaped and quoted, ends at its first quote that is not escaped and is read in one way only |
| JsonText.SpellDetermines | scripts/council-legacy-agent-data.ts:116-118 | tokens without adjacent numbers can be told from their characters, as long as the spelling tells the numbers in them apart |
| JsonText.StringifyDetermines | scripts/council-legacy-agent-data.ts:116-118 | different values have different texts, as long as the spelling tells their numbers apart |
| JsonText.SameCharsIff | scripts/council-legacy-agent-data.ts:116-134 | as long as the spelling tells their numbers apart, two values have the same canonical text if and only if they are equal up to the order of keys |
| JsonText.WholeNumeralsSpell | scripts/council-legacy-agent-data.ts:116-118 | decimal numerals tell all whole numbers apart, in number characters only |
| JsonText.EscapesAre | scripts/council-legacy-agent-data.ts:116-118 | the escape of every special character, and that others stand for themselves |
| JsonText.TokensAreSpelled | scripts/council-legacy-agent-data.ts:116-118 | the characters of the fixed tokens |
| CaseId.MatchSuffix | eval/cooperbench/cases.ts:5 | a suffix found is a suffix: its marks and three nonempty runs of digits make up the text |
| CaseId.SuffixFound | eval/cooperbench/cases.ts:5 | taking as many digits as there are finds every suffix: backtracking never helps |
| CaseId.UniqueSplit | eval/cooperbench/cases.ts:5 | a text is a repository and a suffix in at most one way |
| CaseId.ShortestIsOnly | eval/cooperbench/cases.ts:5 | the lazy search finds exactly that split |
| CaseId.ParsesIffMatches | eval/cooperbench/cases.ts:12-18 | a text parses if and only if it is a nonempty one-line repository followed by a suffix |
| CaseId.RoundTrip | eval/cooperbench/cases.ts:7-29 | parsing a formatted case gives it back if and only if the repository is a nonempty single line, whatever else is in it |
| CaseId.ParseThenFormat | eval/cooperbench/cases.ts:7-29 | formatting a parsed text gives the text back if and only if none of its three numbers has a superfluous zero |
| CaseId.FormatInjective | eval/cooperbench/cases.ts:7-10 | different cases have different identifiers |
| CaseId.FormatText | eval/cooperbench/cases.ts:7-10 | the marks of an identifier, on one case |
| ProtectedPath.BasenameIsLastComponent | eval/patch-policy.ts:34-38 | the basename is the last nonempty component |
| ProtectedPath.EvalByName | eval/patch-policy.ts:32-45 | stripping a leading `a/` or `b/` never changes the answer |
| ProtectedPath.SameNames | eval/harness/secure-sweevo-evaluate.py:20-36 | both implementations have the same names and components |
| ProtectedPath.AgreeIff | eval/harness/secure-sweevo-evaluate.py:54-64 | on ASCII paths the TypeScript test implies the Python one, and they agree if and only if a component is protected or the last one is not a name with a line break that only the Python expressions accept |
| ProtectedPath.ProtectsIff | eval/patch-policy.ts:32-45 | on the components alone: a path is protected if and only if a component is a test directory, or its last one has a literal name, the form of a test module, or a literal ending of a test script |
| ProtectedPath.LineFeedTellsThemApart | eval/harness/secure-sweevo-evaluate.py:54-64 | and they do differ: `test_x.py` followed by a line feed is protected by the Python test alone |
| ProtectedPath.AgreeOnOneLine | eval/patch-policy.ts:32-45 | on ASCII paths without line breaks they always agree |
| Verified30.FillTier | eval/scripts/select_verified30.py:192-207 | one repository and tier of the first pass adds exactly the first eligible candidates for which both quotas have room |
| Verified30.FillRepo | eval/scripts/select_verified30.py:209-219 | one repository of the second pass adds exactly the first candidates not yet selected, up to its quota |
| Verified30.EffectiveQuotas | eval/scripts/select_verified30.py:176-182 | the quota of each repository is the smaller of the fixed one and what is available |
| Verified30.FirstPass | eval/scripts/select_verified30.py:192-207 | the first pass is that for all repositories, hard cases first |
| Verified30.SecondPass | eval/scripts/select_verified30.py:209-219 | the second pass is that for all repositories |
| Verified30.TopUpTiers | eval/scripts/select_verified30.py:221-240 | the third pass adds, in order, candidates of the two large repositories whose tier has room |
| Verified30.TopUp | eval/scripts/select_verified30.py:242-257 | the fourth pass adds the first candidates left of the two large repositories, up to thirty |
| Verified30.Select | eval/scripts/select_verified30.py:176-257 | the four passes in turn |
| Verified30.FirstPassWithin | eval/scripts/select_verified30.py:192-207 | the first pass exceeds no quota, selects nothing twice, and its counts are right |
| Verified30.FirstPassMaximal | eval/scripts/select_verified30.py:192-207 | it leaves no candidate of a repository and tier while both have room |
| Verified30.SecondPassExact | eval/scripts/select_verified30.py:209-219 | after the second pass every repository visited has exactly min(quota, available) cases |
| Verified30.TwoPassesExact | eval/scripts/select_verified30.py:192-219 | after both passes that holds for all four |
| Verified30.TierTopUpCapped | eval/scripts/select_verified30.py:229-235 | the third pass takes no tier above its quota |
| Verified30.TierTopUpMaximal | eval/scripts/select_verified30.py:221-240 | and leaves a case of the large repositories only at thirty or when its tier is full |
| Verified30.SelectionSize | eval/scripts/select_verified30.py:176-257 | the final selection has no duplicates, only candidates, the small repositories at their quota, and exactly min(30, django + sklearn + min(6, requests) + min(6, flask)) cases |
| Verified30.TwoPassesInNumbers | eval/scripts/select_verified30.py:176-219 | after the first two passes the repositories have min(9, n), min(9, n), min(6, n) and min(6, n) cases, n counting the candidates of each |
| Verified30.SelectionInNumbers | eval/scripts/select_verified30.py:176-257 | and the selection has min(30, ...) in those counts |
| Verified30.HardComesFirst | eval/scripts/select_verified30.py:192-207 | a harder case is left out for an easier one of its repository only when the ten of its tier are full |
| EventPaging.AfterLater | src/app/newide-backend-service.ts:492 | asking beyond a later number is asking beyond it among the events beyond an earlier one |
| EventPaging.Poll | src/app/newide-backend-service.ts:485-501 | polling on while there is more terminates, whatever the order of the timeline, on a page that says there is no more |
| EventPaging.PollComplete | src/app/newide-backend-service.ts:485-501 | with strictly increasing numbers and any positive limit polling returns each later event exactly once and in order |
| EventPaging.PollCompleteIffClean | src/app/newide-backend-service.ts:477-501 | on a timeline in order that holds if and only if no page ends between two events with the same number |
| EventPaging.PollCompleteIffParted | src/app/newide-backend-service.ts:485-501 | and on a timeline in any order, no event being there twice, if and only if each page's last number is at least that of every event of the page and less than that of all that follow |
| EventPaging.TieIsLost | src/app/newide-backend-service.ts:479-483 | three events, two with the same number, read in pages of two: the third is lost |
| EventPaging.NothingAfterLatest | src/app/newide-backend-service.ts:188-191 | asking on from `latest_sequence` brings nothing, so that is only right after a page that was not cut short |
| EventPaging.WatchMissesNothing | src/app/newide-backend-service.ts:485-501 | however the timeline grows between requests, what was received and what is still to come make up all events, each once |
| EventPaging.FirstLiveSequence | src/app/run-timeline-sequence.ts:45-46 | the smallest number in use |
| EventPaging.LastEntryWins | src/app/run-timeline-sequence.ts:36-58 | the live number of an event is that of its last entry in the live run, and no other event has one |
| EventPaging.AlignTimelineSequences | src/app/run-timeline-sequence.ts:36-58 | an event both channels know gets the live number; another borrows that of the nearest known one before it |
| EventPaging.AlignedInOrderIff | src/app/run-timeline-sequence.ts:21-25 | the aligned numbers never go down if and only if the timeline has the events both know in the order of their numbers |
| EventPaging.AlignedCanGoDown | src/app/run-timeline-sequence.ts:36-58 | and they can: two events both channels know, in opposite orders, give numbers that go down |
| EventPaging.UnknownEventLostAtBoundary | src/app/newide-backend-service.ts:479-483 | so a page that ends just before an event the live run does not know loses that event |

Lemmas without a row are steps of these proofs.

## Left out

- Redactor.HidesAllIffNotInMark: lists of several secrets of which some overlap the mark are left out of the equivalence; for a list of one there is `HidesOneIff`.
- RefResolvesToOwnEvent: speaks of references by stream number; a legacy reference by the driver's own number, which repeats between invocations, may lead to another event.
- FileLock: a state machine over steps and not a method, because the processes share only the file; `fn` is assumed never to fail with `EEXIST`, which would re-enter the loop, and process ids are not reused.
- Verified30.Select: takes the candidates and the repositories in any order, where the code sorts them; reading the table of cases, the exclusion rules and the sorting and writing of the result are not modelled.
- CaseId.RoundTrip: numbers are natural numbers; the rounding of numbers above 2^53 and exponents are not modelled.
- ProtectedPath.AgreeIff: lower-casing is that of ASCII letters, so nothing is said about other paths.
- JsonText.SameCharsIff: how a number is spelled is a parameter, which need only tell apart the numbers of the texts compared, in number characters; what a program prints for a number is not modelled. The hash is taken as injective.
- DeliveryArchive.BMemoryBackendService.AckDelivery: acknowledgements of feedback, which have no Buffer and archive nothing, are not modelled.
- DeliveryArchive.BMemoryBackendService.DescribeDeliveryState: counts and dead letters of the feedback channel are not modelled.
- DeliveryArchive.OneRetryClearsUnlessBuried: a retry without other steps between its own; `RetriesClearInterleaved` has them.
- DeliveryArchive.TwoRetriesClear: likewise.
- DeliveryArchive.BMemoryBackendService.RetryExtraction: likewise, as one call of the method.
- MaintenanceOutbox.BMemoryMaintenanceRunner.ReplayPending: the method runs without other steps in between; `LandedIsDelivered` and `RepeatedReplayAddsNothing` have them.
- MaintenanceOutbox.BMemoryMaintenanceRunner.ReplayTwice: likewise.
- EventPipeline.DriverStreamPipeline.AppendDriverStreamEvent: the log writer starts on an empty file; what a later process finds in it is the subject of `StreamRefs.RefResolvesToOwnEvent`. The append to the log takes effect at once, in call order, as its queue ensures.
- EventPipeline.RunReconciles: the registry keeps what it accepts; its bounded retention of fragments is covered only by the timeline with some of the events in `ReconcileFindsTheDifference`.
- The consumption report, `timeRange`, `preferDriverUsage` and the per-type counts of the reconciliation: further sums and filters of the same kind.
- Extracting paths from patches, running gate commands and bounding their output: text and process plumbing.
- Characters stand for UTF-16 code units other than surrogates, and locale order is taken as the order of code units.
- Amounts of money are real numbers without rounding, times a total order, sizes of lines and values parameters, fresh identifiers and hashes injective.
- File contents are sequences of records: half-written lines and unreadable JSON do not occur, and Buffers move between partitions in one step.
- Council, market, mailbox, run registry, task processor, retrieval, personas, skills, RPC registration and report rendering.
