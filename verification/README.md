# SqlGoPace: verified model of its protocols

SqlGoPace drives long index rebuilds and batched updates and deletes against a SQL Server that can
block, fill its log, crash or stop answering. This project models the parts of it that are algorithms
with state and proves what they keep over whole runs. One module stands for one component:

| file | what it models |
|---|---|
| `SqlPredicates.dfy`, `BatchStatements.dfy`, `Tables.dfy` | SQL predicates in three-valued logic, the batched operation, its validation and its WHERE clauses, the table its statements act on |
| `BatchSizing.dfy`, `BatchDriver.dfy` | batch sizes and ceilings, stops and waits, the log of committed batches |
| `KeyRangeWalk.dfy` | the ascending key walk with its persisted watermark, over histories of runs and crashes |
| `PredicateLoop.dfy` | the `TOP (n)` loop and its row ceiling |
| `SelectivityGuard.dfy` | the whole-table guard and its two probes |
| `CrashResume.dfy` | one manifest's life across crashes: sidecar, cursor, quarantine, closing, recovery sweep |
| `StatementMatch.dfy`, `PausedRebuilds.dfy` | when two statements on an index are the same work; what stands paused on the server before an index operation: whose work it is, and what is resumed, aborted or refused |
| `Supervision.dfy`, `MonitoringPump.dfy`, `RunLoop.dfy` | the supervisor's timers, the pump and its watchdog, the pause, resume and retry loop |
| `BlockerKills.dfy`, `BlockingChain.dfy` | blocking debt and the kill budget; transitive fan-out |
| `MaintenancePlan.dfy` | suppression of redundant maintenance |
| `Quoting.dfy`, `MaintenanceWindow.dfy` | quoting and its lexer, control statements, the recurring window |
| `Options.dfy`, `Text.dfy` | optional values, blanks and case |

Code that changes state in loops is a class or a method with loops (`KeyRangeRunner`,
`PredicateRunner`, `Engine`, `Recidivism`, `BlockerKiller`, `Supervise`, `RunMonitored`,
`BlockedBehind`, `Prepare`, `Decide`, ...), proved equal to a specification function; the theorems over arbitrary
histories are lemmas about those functions. What the server, the clock and the file system do is a
script: an arbitrary sequence of outcomes that every theorem quantifies over.

Seven places where what the code or its comments promise fails, each with its exact condition:

- A batch stopped under pressure is assumed rolled back (`internal/run/batch_dml.go:424-442`), but its
  statement may have committed before the cancel reached it. Its rows are then changed and none of them
  is reported. A run reports exactly the rows it committed if and only if none of the turns it got to
  committed a batch that way (`KeyRangeWalk.ReportedRows`, `PredicateLoop.ReportedRows`);
  `AnUncountedBatch` is such a run of either loop, and `StoppedBatchRetries` says when "retry the same
  range" holds.
- A position file that bears the statement's fingerprint is believed, though failures keep it
  (`internal/run/engine.go:1094-1102`) and the fingerprinted text does not name the key column
  (`internal/ddl/batch.go:291-294`). Exhaustion leaves exactly the rows pending behind the position the
  run loaded, so all is done if and only if there was none (`ExhaustedMeansDone`); `AStalePosition` is a
  run that skips a row. The walk's own history never adds such a row (`UnvisitedShrinks`), and exactly-once
  holds whatever the file says.
- The resume cursor is truthful over every history in which two things do not happen, losing the write that
  binds the sidecar to a run's plan (`internal/run/engine.go:1951`), and submitting a closed manifest again
  over a sidecar with a cursor that its removal (`internal/run/engine.go:1298`) left behind. That is
  sufficient. What each does is exact: after a lost binding and n completed operations the sidecar is
  truthful if and only if the plan it still bears had its first n operations done (`AfterALostBinding`),
  and a resubmission is sound if and only if no cursor was left (`ResubmissionNeedsNoCursor`).
- The plan fingerprint sees commands and rendered targets (`internal/run/engine.go:1972-1978`), so an
  operation edited in anything else is skipped as done though its new form never ran. A skipped operation
  did complete in its last execution, and it was done as the manifest now has it if and only if what ran
  then is what stands at that position now (`SkippedAsWritten`), whatever was edited elsewhere or earlier.
  `EditIsNotSeen` is such a run; a position not edited since the submission was done
  (`UneditedSkipIsDone`).
- Maintenance `key` joins names with dots and lower-cases them (`internal/maint/decide.go:489-491`), and a
  heap rebuild is taken to refresh every statistic of its table, though column statistics, which no index
  backs, are measured too. So an operation can be dropped that nothing in the plan makes good: a statistic
  for another table's index, kept or dropped itself, or for another table's heap, an index operation for
  another table's heap, either for a case twin (`IndexDroppedForACaseTwin`), and a column statistic for the
  heap of its own table (`UnbackedStatisticIsDropped`). `DroppedIndexIsCovered` and
  `DroppedStatisticIsRefreshed` say exactly when a dropped operation is made good, comparing names part by
  part and as they are. With no dot in any schema, index or statistic name and no two measured names that
  differ in case only, every dropped index operation is, and a dropped statistic is if and only if an index
  backs it (`PlainPlansDropOnlyTheRedundant`).

- Collapsing blanks in statement texts "cannot produce a wrong resume" because names are matched apart
  (`internal/run/resume_match.go:25-29`). For schema, table and index this is so, and case twins are kept
  apart too (`MatchingStatementIsOurs`, `OwnWorkIsOfThisIndex`). What follows the names is compared up to
  layout and no more (`GeneratedMatch`), and there a CREATE has a column's name: two that differ in blanks
  only count as one (`ColumnsCountAsOne`). A CREATE goes out behind a guard
  (`internal/ddl/generate.go:208-219`), and is recognized only where the server's stored text has it too
  (`GuardDecides`).
- "A foreign paused resumable is never adopted" (`internal/run/engine.go:994-998`). The sidecar's record of a
  pause skips the comparison of statements, and the RESUME asks only whether anything is paused on the index
  (`internal/run/engine.go:1003-1007`, `:1675-1688`). So over every history an attempt that finds another
  statement paused on its index resumes it, consent or not, if and only if an earlier attempt's record still
  stands; otherwise it refuses, or aborts with consent (`OtherWorkIsAdopted`). A record stands if and only if
  a resumable attempt wrote it, having been cut short or having met an unreadable view, and nothing has ended
  it since (`ClaimedWhen`). The two inputs are a view that could not be read, after which a pause is recorded
  though nothing was issued (`AdoptedAfterAnUnreadableView`), and an earned record whose pause was discarded
  on the server (`AdoptedAfterADiscardedPause`).

## Model

| member | source | states |
|---|---|---|
| SqlPredicates.JoinAndSelects | internal/ddl/batch.go:65-77 | clauses joined by AND select exactly the rows on which every one of them is TRUE |
| SqlPredicates.OnlyNullIsUnknown | internal/ddl/batch.go:93-97 | a comparison is UNKNOWN if and only if a side of it is NULL |
| BatchStatements.AcceptedWhen | internal/ddl/manifest.go:1180-1239 | exactly which operations validation accepts, stated over the operation's fields |
| BatchStatements.ValidatedOperation | internal/ddl/manifest.go:1180-1239 | a validated key_range operation always carries the self-limit; a statement goes out without a WHERE exactly for a confirmed unfiltered DELETE |
| BatchStatements.BuildSelfLimit | internal/ddl/batch.go:83-105 | the clause grown column by column is the specified one, absent for deletes and raw SETs |
| BatchStatements.BuildKeyRangeWhere | internal/ddl/batch.go:168-184 | the clause grown part by part is bounds, self-limit and filter |
| BatchStatements.SelfLimitMeaning | internal/ddl/batch.go:83-105 | for any mix of NULL and non-NULL targets the clause is never UNKNOWN and is TRUE exactly where a SET column differs from its target |
| BatchStatements.SelfLimitIgnoresOrder | internal/ddl/batch.go:92-104 | the order of the columns changes no row's verdict |
| BatchStatements.UpdatedRowIsSettled | internal/ddl/batch.go:79-105 | the clause is FALSE on every row just updated |
| BatchStatements.GenericFormNeverSettlesNull | internal/ddl/batch.go:93-101 | with a NULL target the generic form would keep every updated row in the match set: why NULL has its own form |
| BatchStatements.UserWhereMeaning | internal/ddl/batch.go:65-77 | a declarative filter selects the rows on which every condition is TRUE |
| BatchStatements.FilterMeaning | internal/ddl/batch.go:65-77 | a declarative filter selects exactly the rows that meet every condition: IS NULL and IS NOT NULL as they say, a comparison only where both sides are present and it holds |
| BatchStatements.PredicateWhereMeaning | internal/ddl/batch.go:110-120 | a predicate batch acts on exactly the rows that differ and on which the filter is TRUE, never UNKNOWN |
| BatchStatements.KeyRangeWhereMeaning | internal/ddl/batch.go:168-206 | a key_range statement acts on exactly the rows in (watermark, upper] that still need the update |
| Tables.NthSmallestBounds | internal/ddl/batch.go:189-197 | the next-key query's bound is None exactly on an empty set and otherwise bounds exactly min(n, rows) of them |
| BatchSizing.RowCeiling | internal/run/batch_calc.go:52-57 | the ceiling is at least 10000 and at least twice the estimate |
| BatchSizing.AdjustKeepsSafe | internal/run/batch_calc.go:92-113 | after any adjustment the size is at least one, at most MaxRows, and with RCSI off at most the escalation cap |
| BatchSizing.AdjustFollowsPressure | internal/run/batch_calc.go:92-113 | a size in range shrinks or stays exactly under pressure, grows only after a quick quiet batch, and halves where the floor allows |
| BatchSizing.CeilingIsTheLeast | internal/run/batch_calc.go:52-57 | for a known size the least bound of 10000 rows and twice the estimate, and a million where it is unknown |
| BatchSizing.FirstSizeFollowsTheOperator | internal/run/batch_dml.go:356-366 | the first size is the allowed one nearest to what the operator asked for or, failing that, to the tier of the estimate |
| BatchSizing.NextSize | internal/run/batch_calc.go:92-113 | the next size is the allowed one nearest to half the last under pressure, to twice it after a quick quiet batch, and to the same otherwise |
| BatchSizing.EverySizeIsSafe | internal/run/batch_dml.go:358-394 | the same of the first size and of every size of a run, whatever was asked for and reported |
| KeyRangeWalk.KeyRangeColumn | internal/preflight/preflight.go:632-649 | a key is given only for a single unique integer clustered column that matches batch.key, and refused such a column only for a name that does not match |
| KeyRangeWalk.UniquenessIsTheBound | internal/preflight/preflight.go:616-631 | the range up to the (m+1)-th key holds m+1 rows for every m if and only if no key repeats |
| KeyRangeWalk.BatchIsExact | internal/run/batch_dml.go:282-293 | each batch changes exactly min(size, rows ahead of the watermark) rows, the smallest keys there, within MaxRows and the escalation cap; no bound is returned exactly when no pending row is ahead |
| KeyRangeWalk.LandKeepsSound | internal/ddl/batch.go:202-206 | a committed batch takes exactly its own rows out of the pending set |
| KeyRangeWalk.StepKeepsSound | internal/run/batch_dml.go:275-326 | one pass, however it ends, keeps the invariant: log disjoint, table equal to one application over the logged rows, the rows behind the watermark untouched, the persisted position no further than it; exhaustion is reported only with nothing ahead |
| KeyRangeWalk.HistoryKeepsSound | internal/run/batch_watermark.go:53-82 | every history of runs, crashes, lost or failed saves keeps it, and position files lost or replaced by any other |
| KeyRangeWalk.ExactlyOnce | internal/run/batch_dml.go:253-327 | over any history no row is in two committed batches, only rows that matched the filter and differed are changed, each exactly to its target, and every other row is untouched |
| KeyRangeWalk.ExhaustedMeansDone | internal/run/batch_dml.go:282-288 | from any starting file: when a run reports exhaustion exactly the rows pending behind the position it loaded are left, so every row holds its target and the committed batches add up to exactly those rows if and only if there was none |
| KeyRangeWalk.UnvisitedShrinks | internal/run/batch_dml.go:312-323 | crashes, lost saves and stops never add a row behind the persisted position |
| KeyRangeWalk.OwnCampaignIsDone | internal/run/batch_watermark.go:53-82 | a campaign that starts with none, and meets no file of its own fingerprint but its own, is done whenever a run reports exhaustion |
| KeyRangeWalk.StalePositionSkipsAll | internal/run/batch_dml.go:265-288 | with every pending row behind the loaded position one undisturbed turn reports exhaustion and changes nothing |
| KeyRangeWalk.AStalePosition | internal/run/engine.go:1094-1102 | a concrete table and file on which it does |
| KeyRangeWalk.CommitMovesTheMark | internal/run/batch_dml.go:312-323 | a committed batch ends at its largest key, above the old watermark, and the walk, or the next run when the save succeeded, goes on from there |
| KeyRangeWalk.UndisturbedWalkDrains | internal/run/batch_dml.go:275-326 | an undisturbed run with enough turns reports exhaustion and leaves only what lay behind the position it loaded |
| KeyRangeWalk.WalkEnds | internal/run/batch_dml.go:370-383 | with positive waits any run ends by itself, under rows left and then self-wait budget left |
| KeyRangeWalk.EndingByScript | internal/run/batch_dml.go:253-383 | over whole scripts: a run is stopped short if and only if some turn it gets to has its batch stopped and either the log does not drain or the waits since the last committed batch reach the self-wait budget; it errs if and only if a query, a statement or a wait fails; likewise for a requested stop and exhaustion |
| KeyRangeWalk.TurnIsFollowed | internal/run/batch_dml.go:370-383 | a turn is followed by another if and only if it sends its batch, nothing fails and the driver does not give up: a stopped batch is retried exactly then |
| KeyRangeWalk.CountersByScript | internal/run/batch_dml.go:312-325 | while a run goes on, its batch size is the first one adjusted by the committed batches' reports, it counts exactly those batches and reports the size of the last |
| KeyRangeWalk.CommitCounts | internal/run/batch_dml.go:300-325 | a committed batch counts once; no other turn counts anything or moves the mark |
| KeyRangeWalk.PositionSurvives | internal/run/engine.go:1094-1102 | however a run is cut short the position it started from is kept or moved on; it is gone only after reported exhaustion |
| KeyRangeWalk.StoppedBatchRetries | internal/run/batch_dml.go:300-310 | a stopped batch is retried over exactly the same range if and only if it had not committed; otherwise the next range shares no row with it |
| KeyRangeWalk.ReportedRows | internal/run/batch_dml.go:312-315 | reported rows never exceed committed rows and equal them if and only if no turn the run got to committed a batch uncounted; reported batches fall short by exactly the number of such turns |
| KeyRangeWalk.LandedStopIsNotCounted | internal/run/batch_dml.go:400-442 | at such a turn min(size, rows ahead) rows, at least one, are changed and none is reported |
| KeyRangeWalk.AnUncountedBatch | internal/run/batch_dml.go:300-310 | a concrete run that changes a row, reports exhaustion, and reports no row |
| KeyRangeWalk.KeyInSetPassesValidation | internal/ddl/manifest.go:1229-1236 | validation accepts an operation that assigns the key it is walked by: the walk's precondition is not discharged there |
| KeyRangeWalk.KeyRangeRunner.RunTurn | internal/run/batch_dml.go:275-326 | one pass of the loop changes table, position file and counters as specified |
| KeyRangeWalk.KeyRangeRunner.Run | internal/run/batch_dml.go:253-327 | the whole loop, from the loaded watermark, equals the specification every theorem is about |
| PredicateLoop.TopIsBounded | internal/ddl/batch.go:144-155 | a TOP (n) statement acts on min(n, matching) matching rows, whichever the server picks |
| PredicateLoop.ReportedRowsBounded | internal/run/batch_dml.go:226-247 | for any predicate the reported rows stay below the ceiling plus one batch |
| PredicateLoop.ReportedRows | internal/run/batch_dml.go:206-237 | reported rows equal committed rows if and only if no pass the run got to committed rows uncounted |
| PredicateLoop.GoCounts | internal/run/batch_dml.go:400-442 | at such a pass min(size, matching) rows, at least one, are changed and none is reported; at any other the report is exact |
| PredicateLoop.AnUncountedBatch | internal/run/batch_dml.go:216-229 | a concrete run that deletes a row, reports the loop drained, and reports no row |
| PredicateLoop.LoopEnds | internal/run/batch_dml.go:188-248 | for any predicate, with positive waits, the loop ends, under rows left to the ceiling and then self-wait budget |
| PredicateLoop.EndingByScript | internal/run/batch_dml.go:188-248 | over whole scripts: stopped short if and only if some pass it gets to has its batch stopped and either the log does not drain or the waits since the last committed batch reach the self-wait budget; in error if and only if a statement or a wait fails; and so for a requested stop, exhaustion and the ceiling |
| PredicateLoop.PassIsFollowed | internal/run/batch_dml.go:370-383 | a stopped batch is retried if and only if nothing failed and the driver does not give up |
| PredicateLoop.CountersByScript | internal/run/batch_dml.go:228-247 | while a run goes on, its batch size is the first one adjusted by the committed batches' reports, it counts exactly those batches and reports the size of the last |
| PredicateLoop.PassCounts | internal/run/batch_dml.go:216-247 | a committed batch of some rows counts once with its rows, one of no row only the size it was sent with, any other pass nothing |
| PredicateLoop.SelfConsumingLoop | internal/run/batch_dml.go:188-248 | a literal UPDATE or a DELETE touches each initially matching row at most once and no other; drained means no row matches and all of them were touched; the ceiling is never hit while that set is smaller |
| PredicateLoop.CampaignTouchesOnce | internal/run/batch_dml.go:200-206 | over any number of runs, each stopped, broken or killed anywhere and under any settings, each initially matching row is touched at most once and no other; a run that drains leaves all of them touched |
| PredicateLoop.NextRunContinues | internal/run/batch_dml.go:205-206 | after any such history one undisturbed run below its ceiling finishes the work: every initially matching row touched by exactly one batch of the whole campaign |
| PredicateLoop.VerdictByCeiling | internal/run/batch_calc.go:38-57 | when no commit is missed, such a run drains if and only if the match set is below the ceiling |
| PredicateLoop.UndisturbedLoopDrains | internal/run/batch_dml.go:188-248 | undisturbed and below the ceiling it does drain |
| PredicateLoop.OnlyTheCeilingEnds | internal/run/batch_calc.go:44-57 | an update that never consumes its filter, undisturbed, always ends at the ceiling |
| PredicateLoop.PredicateRunner.RunPass | internal/run/batch_dml.go:199-247 | one pass of the loop changes table, log and counters as specified |
| PredicateLoop.PredicateRunner.Run | internal/run/batch_dml.go:188-248 | the whole loop equals the specification |
| SelectivityGuard.CheckSelectivity | internal/preflight/preflight.go:564-586 | skipping the second probe gives the verdict of always running both |
| SelectivityGuard.ProbeCountsSurvivors | internal/ddl/batch.go:214-275 | the CASE probe counts min(limit, rows its predicate does not select), UNKNOWN rows among them |
| SelectivityGuard.PlainNotUndercounts | internal/ddl/batch.go:214-230 | a plain NOT would count the same if and only if no row is UNKNOWN |
| SelectivityGuard.OperationSparesMore | internal/ddl/batch.go:242-263 | the operation spares at least what its filter spares |
| SelectivityGuard.GuardApplies | internal/preflight/preflight.go:564-586 | there is a verdict if and only if the operation has a filter and was not confirmed, walked by key or not |
| SelectivityGuard.VerdictMeaning | internal/preflight/preflight.go:688-706 | Pass exactly when the filter leaves `limit` rows, so never for a filter that spares none; Fail exactly when the operation would act on every row |
| CrashResume.StepKeepsSound | internal/run/engine.go:873-1251 | every step of the engine, the sweep or a crash keeps: a truthful cursor, quarantine exactly of failed operations, a cursor at the first of them |
| CrashResume.LogIsExecutions | internal/run/engine.go:1165-1251 | the log the results read holds exactly the executions since the last submission, each as completed if and only if the operation succeeded or its target state held and no pause of it was owned |
| CrashResume.BrokenIsQuarantined | internal/run/engine.go:1203-1212 | after any history a failed operation is quarantined and passed, cursor and sidecar held, if and only if the run was told to continue on failure; otherwise the manifest is on its way to failed |
| CrashResume.EndsAreKept | internal/run/engine.go:873-1251 | every other end: past a completed operation with the cursor moved on only from there, left in processing with its cursor when stopped, to failed when stopped short |
| CrashResume.GatesLeave | internal/run/engine.go:589-803 | what the claim leaves, and where a run shut out, refused or dead before its operations leaves the manifest |
| CrashResume.FinishTells | internal/run/engine.go:796-802 | a run that reaches the end of its plan closes as done if and only if every operation completed when it was last executed |
| CrashResume.ClosingLeaves | internal/run/engine.go:1296-1334 | in done if and only if it closed as done, in failed if it closed otherwise, in processing if the move failed |
| CrashResume.PlaceIsTheVerdict | internal/run/engine.go:1296-1334 | over every history, whatever fails: in done only if the last run closed it as done, in failed only if it closed it otherwise |
| CrashResume.SweepLeaves | internal/run/recovery.go:166-221 | when the sweep requeues, and when it removes the sidecar: exactly when the session is gone, nothing is paused and nothing completed is to be skipped |
| CrashResume.OwnsByName | internal/run/engine.go:1958-1966 | a record is owned exactly at its position and for its schema, table and index, up to case |
| CrashResume.CursorMeansDone | internal/run/engine.go:1896-1903 | over any history a persisted cursor c names a plan of which operations 0..c-1 all completed when last executed, by how those executions ended |
| CrashResume.ResumeSkipsOnlyDone | internal/run/engine.go:1940-1953 | whatever plan the next run has, the last execution of each operation it skips ended completed: not failed, interrupted or stopped short |
| CrashResume.DoneMeansDone | internal/run/engine.go:1296-1334 | a manifest reaches done only under a plan every operation of which ended completed when last executed |
| CrashResume.PartialSplits | internal/run/engine.go:1416-1487 | at the end of a continue-on-failure run the operations from the resume cursor on split, in order, into ones that last ended completed and exactly the recovery manifest's, which last ended failed |
| CrashResume.StopRetriesQuarantined | internal/run/engine.go:1569-1589 | however such a run is stopped, the next run of the plan retries every quarantined operation |
| CrashResume.ResumesExactly | internal/run/recovery.go:142-221 | with file operations effective the next run of the plan takes up exactly at the next operation, or at the first quarantined one |
| CrashResume.PausedIsOwned | internal/run/engine.go:984-1000 | an operation left paused, whatever was quarantined before it: the next run starts at the cursor, and however its operations end, whenever it stands at the paused one it owns it, by position and by schema, table and index in any case, and does not skip it as satisfied |
| CrashResume.PausedIsTakenUp | internal/run/engine.go:1958-1966 | with nothing quarantined before it, it is the very operation the next run starts at |
| CrashResume.SkippedAsWritten | internal/run/engine.go:1940-1978 | position by position, for any history and any present plan: a skipped operation completed in its last execution, under the plan's identities, and was done as the plan has it if and only if what ran then is what stands there now |
| CrashResume.UneditedSkipIsDone | internal/run/engine.go:1972-1978 | so it was when that one position was not edited since the last submission |
| CrashResume.EditIsNotSeen | internal/run/engine.go:1967-1978 | an operation edited between two runs within its identity is skipped, and was done as written if and only if the edit changed nothing |
| CrashResume.AfterALostBinding | internal/run/engine.go:1919-1931 | after a lost binding and n completed operations the sidecar is truthful if and only if the plan it still bears had its first n operations done |
| CrashResume.LostBindingIsFatal | internal/run/engine.go:1919-1931 | in the first run of a submission n completed operations leave a truthful sidecar if and only if binding it to the plan was not lost |
| CrashResume.ResubmissionNeedsNoCursor | internal/run/engine.go:1855-1886 | submitting a closed manifest again leaves a truthful state if and only if no sidecar with a cursor was left behind |
| CrashResume.StaleSidecarSkipsEverything | internal/run/engine.go:2005-2012 | a sidecar whose removal failed makes the same manifest, submitted again, done without running anything |
| CrashResume.LiveOrphanIsLeftAlone | internal/run/recovery.go:54-63 | while no sweep finds the orphan session gone, because it lives or the server cannot be asked, nothing of its manifest runs again |
| CrashResume.Engine.AdvanceCursor | internal/run/engine.go:1896-1903 | moves the cursor and its sidecar copy on only from exactly the completed operation |
| CrashResume.Engine.ReconcileResumePlan | internal/run/engine.go:1940-1953 | drops a cursor past the plan or of another plan, and binds the sidecar |
| CrashResume.Engine.RunStep | internal/run/engine.go:873-1251 | for each way an operation can end, disk and run are left as the specified step |
| CrashResume.Engine.RunOperations | internal/run/engine.go:796-802 | the loop over the plan and the end of the run are the specified events in order |
| CrashResume.Engine.Finalize | internal/run/engine.go:1296-1334 | the sidecar goes before the manifest moves |
| CrashResume.Engine.ProcessOne | internal/run/engine.go:589-803 | a whole run is exactly its event sequence, so every theorem over histories covers it |
| CrashResume.Engine.FactsWith | internal/run/recovery.go:244-261 | the recorded session counts as alive exactly when the one with its id exists, is executing, has the recorded login and a context that begins with the marker; a pause counts exactly when some operation of the database's is paused; a missing answer decides nothing |
| CrashResume.Engine.Recover | internal/run/recovery.go:142-280 | from the server's answers: the sweep leaves an orphan that is alive or that it gets no answer about, requeues one that is gone unless the move fails, and keeps the sidecar the next run needs |
| StatementMatch.MatchingStatementIsOurs | internal/run/resume_match.go:25-37 | for any layout of the keywords: a statement for a target whose names match ours up to case, and which the comparison takes for ours, names exactly our schema, table and index, and what follows them differs in layout only |
| StatementMatch.GeneratedMatch | internal/run/resume_match.go:48-52 | between two statements of one kind that the engine writes, a rebuild or a CREATE with its guard or without, for names that match up to case: the comparison holds if and only if the names are the same and what follows differs in layout only |
| StatementMatch.GuardDecides | internal/ddl/generate.go:208-219 | a CREATE stored without its guard is never taken for the planned one, whatever it creates |
| StatementMatch.ColumnsCountAsOne | internal/run/resume_match.go:25-29 | two CREATEs of one index, with any options, over columns whose names differ in blanks only count as the same work |
| StatementMatch.UntoldIsNoMatch | internal/run/resume_match.go:31-35 | a statement the server did not tell is no match |
| PausedRebuilds.ResumableStandingFor | internal/run/engine.go:1717-1746 | the scan finds own work wherever it stands, otherwise the holder of the first pause on the table, otherwise none |
| PausedRebuilds.OwnWorkIsOfThisIndex | internal/run/engine.go:1703-1746 | where the rows that match up to case bear statements for their own targets, own work is found if and only if the same statement stands paused on exactly this schema, table and index, case twins notwithstanding |
| PausedRebuilds.AbortsOnlyItsNamesake | internal/run/engine.go:1748-1791 | an ABORT goes out if and only if the manifest consents, no own work is known, and the table's first pause bears the operation's own index; read back, it names exactly the operation's own target |
| PausedRebuilds.AbortDecides | internal/run/engine.go:1770-1791 | after an ABORT the planned statement goes out if and only if the ABORT succeeded, and the operation is refused otherwise; without consent or an aborter a namesake's pause is refused and nothing sent |
| PausedRebuilds.PausesAreRespected | internal/run/engine.go:1748-1769 | known own work is never aborted and always continued; a sibling's pause that stands first is refused, consent or not; with nothing paused the planned statement goes out |
| PausedRebuilds.OnlyClaimedWorkIsResumed | internal/run/engine.go:1021-1027 | the only other statement ever issued is a RESUME of exactly the operation's target with its own lock options, where the sidecar claims the pause and the server confirms one |
| PausedRebuilds.UnreadableIsNotClear | internal/run/engine.go:1011-1020 | on an unreadable view nothing is issued, except where the sidecar claims the pause: there the planned statement is |
| PausedRebuilds.ResumedWhen | internal/run/engine.go:1021-1027 | a RESUME replaces the planned statement if and only if the sidecar claims a pause and the server knows of one on the index, whosever it is |
| PausedRebuilds.ClaimedWhen | internal/run/engine.go:1178-1187 | for every history of attempts: a pause is claimed if and only if some attempt recorded one, being resumable and cut short or met by an unreadable view, and nothing has ended the record since |
| PausedRebuilds.ClaimsAreEarned | internal/run/engine.go:1178-1187 | where no resumable attempt met an unreadable view, it is claimed if and only if a statement was issued and cut short and its record still stands |
| PausedRebuilds.ClaimedThoughNotLeft | internal/run/engine.go:1011-1020 | where no issued statement stands as cut short, it is claimed if and only if an attempt that met an unreadable view recorded it |
| PausedRebuilds.ClaimedThoughNeverRun | internal/run/engine.go:1011-1020 | the special case of an operation that was never issued: its last attempt was that one |
| PausedRebuilds.OtherWorkIsAdopted | internal/run/engine.go:994-1007 | for every history: an attempt that finds another statement paused on its index resumes it, consent or not, if and only if an earlier attempt's record still stands; otherwise it refuses, or sends an ABORT with consent |
| PausedRebuilds.AdoptedAfterAnUnreadableView | internal/run/engine.go:1011-1020 | an input: one unreadable view with nothing issued, then another statement's pause is resumed |
| PausedRebuilds.AdoptedAfterADiscardedPause | internal/run/engine.go:1675-1688 | an input: readable views, an earned record whose pause was discarded, then another statement's pause is resumed |
| PausedRebuilds.Operate | internal/run/engine.go:1049-1207 | an operation's step: what is sent, and how it ends the step in the run given how its statement ended |
| PausedRebuilds.EndTells | internal/run/engine.go:1165-1212 | which end a step has: completed exactly if its statement was issued and succeeded, failed exactly if refused or failed with no pause left, interrupted otherwise |
| PausedRebuilds.RefusalLeaves | internal/run/engine.go:1203-1212 | after any history a refused or plainly failed operation is quarantined if the run was told to continue on failure, and closes the manifest as failed otherwise |
| PausedRebuilds.StepRecordsClaim | internal/run/engine.go:1178-1187 | the claim followed here is the record the run's own step leaves in the sidecar |
| PausedRebuilds.Prepare | internal/run/engine.go:1001-1037 | what is sent and issued before an operation is as specified |
| Supervision.TimerNext | internal/run/executor.go:280-296 | the incremental timer, moved on by a sample, holds the start of the unbroken run and decides the history condition there |
| Supervision.WhatIsDue | internal/run/executor.go:257-320 | what calls for a reaction, and what ends a wait, over the samples themselves: blocking others counts only where it is not waived, the cap and the drain timeout only where positive, a stop only where the operation can pause |
| Supervision.Supervise | internal/run/executor.go:257-320 | reacts at exactly the first sample where the history calls for it, with the action and pressure it calls for, and never otherwise |
| Supervision.WaitForRelief | internal/run/monitored_runner.go:241-276 | ends at exactly the first sample with a verdict, and with that verdict |
| Supervision.ReliefIsClean | internal/run/monitored_runner.go:241-276 | a wait that ended in relief never saw the log over cap for the drain timeout, blindness or a stop request |
| MonitoringPump.ForwardedSamples | internal/run/executor.go:546-573 | every forwarded sample carries each channel's last answer; with Blind empty both are younger than their thresholds, and a named channel was silent for its own, the blocking one named first |
| MonitoringPump.ForwardsOnlyNews | internal/run/executor.go:546-573 | a watchdog tick is forwarded exactly when the channel it finds blind is not the one last reported, a poll exactly when it succeeded |
| MonitoringPump.ThresholdIsTheLeast | internal/run/executor.go:427-432 | the threshold is the least time that allows the global bound and two of the channel's own polls |
| MonitoringPump.SilenceIsReportedInTime | internal/run/executor.go:533-571 | silence is forwarded within the global bound, or two polls of the channel if longer, and any one of the three periods |
| MonitoringPump.EveryAnswerIsForwarded | internal/run/executor.go:550-566 | every successful poll is forwarded with what it said and what the other channel last said |
| MonitoringPump.WatchdogIsQuickEnough | internal/run/executor.go:533-543 | the watchdog's period never exceeds either threshold |
| MonitoringPump.SilenceIsReported | internal/run/executor.go:567-571 | a channel silent since `last` is forwarded as blind by last + threshold + one watchdog period |
| MonitoringPump.SilenceIsReactedTo | internal/run/reaction.go:187-202 | by then the supervisor is due to react, whatever the operation waives or allows |
| MonitoringPump.Monitor | internal/run/monitored_runner.go:186-232 | pump and supervisor together: the first reaction has come by that bound |
| RunLoop.RunIsDisciplined | internal/run/monitored_runner.go:72-178 | every statement of every run is licensed by what precedes it, and nothing is issued after a blind cancel, a stop, a result or a wait without relief |
| RunLoop.ResumableIssuesOnce | internal/run/monitored_runner.go:134-178 | a resumable operation issues its own SQL once; the rest are RESUMEs, each after a pause and a successful wait; no retry is spent |
| RunLoop.RetriesAreBounded | internal/run/monitored_runner.go:72-82 | a non-resumable, non-paced operation is issued at most maxRetries+1 times, and gives up exactly when that many issues were all cancelled |
| RunLoop.PacedSpendsNoRetry | internal/run/monitored_runner.go:90-98 | a REORGANIZE is re-issued only after relief, and its run does not depend on maxRetries |
| RunLoop.BlindnessEndsTheRun | internal/run/monitored_runner.go:139-145 | a run ends blind if and only if it lost sight of the server, and that is its last event |
| RunLoop.RunStopsForAReason | internal/run/monitored_runner.go:134-178 | a run never stops early: one issue per round until a settling ending |
| RunLoop.SupervisedRoundsArePossible | internal/run/reaction.go:187-202 | Pause and Stop come only for resumable operations, a Cancel of a resumable one only from blindness |
| RunLoop.RunRound | internal/run/monitored_runner.go:134-178 | one statement under monitoring and the wait it calls for, as specified |
| RunLoop.RunOnce | internal/run/monitored_runner.go:103-178 | the pause and resume loop over real samples is the specified attempt |
| RunLoop.RunMonitored | internal/run/monitored_runner.go:72-82 | the retry loop over real samples is the specified run, and its trace is disciplined |
| BlockerKills.KillRateIsBounded | internal/run/recidivism.go:124-158 | for any polls with a monotone clock the i-th and (i+3)-th kill under one rule key are more than the window apart, and two cap warnings are too |
| BlockerKills.BankedAtMostElapsed | internal/run/recidivism.go:64-69 | all time ever banked over all keys is at most the time since SetSource; every kill's debt was banked under its key and had reached the rule's delay |
| BlockerKills.OnlyObservedBlockingIsBanked | internal/run/kill.go:157-173 | the total banked is at most the time between successive polls that saw one and the same blocker: a gap or a change of blocker is nobody's debt |
| BlockerKills.KillsOnlyTheBlocker | internal/run/kill.go:245-281 | whatever the state, every event of a poll is of the row that the row of our own session names as its blocker and of the first rule that matches it: that session is killed and no other, with that rule's key and delay |
| BlockerKills.EveryKillIsOfABlocker | internal/run/kill.go:229-288 | the same of every event ever logged, at some poll |
| BlockerKills.BlockerIsTheRow | internal/run/kill.go:303-323 | the blocker is the session of that row, and there is one exactly when there is such a row |
| BlockerKills.FirstMatchIsTheRule | internal/run/kill.go:245-248 | the rule that decides is the first that matches, if any does |
| BlockerKills.OneKillPerEpisode | internal/run/kill.go:229-288 | while one SPID keeps blocking it is killed at most once, whatever happens to the rules |
| BlockerKills.RecordedKillHappened | internal/run/kill.go:157-159 | the killed flag stands only for a real kill in this same episode |
| BlockerKills.PersistentBlockerIsKilled | internal/run/kill.go:245-281 | a session seen blocking for its rule's whole delay has itself been killed in this episode, unless the key's budget is spent and the warning given |
| BlockerKills.Recidivism.Bank | internal/run/recidivism.go:52-69 | banks positive time under the key and keeps its bucket alive |
| BlockerKills.Recidivism.Spend | internal/run/recidivism.go:124-128 | spends one kill of the key's budget |
| BlockerKills.Recidivism.Escalated | internal/run/recidivism.go:139-146 | true the first time for a bucket only |
| BlockerKills.Recidivism.Forget | internal/run/recidivism.go:151-158 | keeps exactly the buckets active within the window |
| BlockerKills.SessionOfHasId | internal/run/kill.go:303-323 | the scan finds the first session with the id, or there is none |
| BlockerKills.BlockerSession | internal/run/kill.go:303-323 | finds the session directly blocking ours |
| BlockerKills.BlockerKiller.SetSource | internal/run/kill.go:178-188 | carries nothing across manifests |
| BlockerKills.BlockerKiller.ConsiderLocked | internal/run/kill.go:229-288 | one poll's new state and events are the specified ones; disarmed, it does nothing |
| BlockingChain.IndexWaits | internal/run/chain.go:29-34 | the index holds exactly the direct waits of the snapshot |
| BlockingChain.BlockedBehind | internal/run/chain.go:25-50 | ends on every snapshot, cycles, self-loops and duplicates included, with the number of distinct sessions other than the root reachable by waiting |
| BlockingChain.BehindIsLeast | internal/run/chain.go:25-50 | what is behind a root is the least set that holds the root and is closed under waiting |
| MaintenancePlan.Decide | internal/maint/decide.go:134-179 | one decision per measurement in order, with the two suppressions, then the checks |
| MaintenancePlan.PlanIsOfTheMeasured | internal/maint/decide.go:134-179 | every operation of the plan is one of the object measured at its place, by schema, table, name and partition, of the kind asked for; one asked for is there unless a rebuild covers it |
| MaintenancePlan.ChecksFollowTheScope | internal/maint/decide.go:373-393 | which databases are checked, and at which place: each listed one that is not blank, the connected one for an empty list, none where checks are off |
| MaintenancePlan.DecideChecks | internal/maint/decide.go:373-393 | one check per database in scope that is not blank, in order |
| MaintenancePlan.ChecksComeLast | internal/maint/decide.go:134-179 | the check decisions are exactly those after the measurements |
| MaintenancePlan.NoIndexWorkUnderAHeapRebuild | internal/maint/decide.go:156-164 | no plan keeps an index operation on a table whose heap it rebuilds, nor on one that shares its key |
| MaintenancePlan.DroppedIndexIsCovered | internal/maint/decide.go:156-164 | an index operation is dropped exactly when its table shares a key with a rebuilt heap, and covered by the plan if and only if the heap of the very same table is rebuilt |
| MaintenancePlan.WantedWorkStays | internal/maint/decide.go:134-164 | other index work stays as wanted, and heap decisions always stand |
| MaintenancePlan.DroppedStatisticIsRefreshed | internal/maint/decide.go:166-175 | a statistic is dropped exactly when a rebuilt index or heap shares a key with it, and refreshed by the plan if and only if an index backs it and its own table's heap is rebuilt, or its own index is asked to be rebuilt and no rebuilt heap shares its table's key |
| MaintenancePlan.PlainPlansDropOnlyTheRedundant | internal/maint/decide.go:134-179 | with no dot in any schema, index or statistic name and no case twins, every dropped index operation is covered by what stayed in the plan, and a dropped statistic is refreshed by it if and only if an index backs it |
| MaintenancePlan.DroppedForAnotherIndex | internal/maint/decide.go:166-175 | an input on which a statistic is dropped for another table's index whose rebuild stays |
| MaintenancePlan.DroppedForADroppedIndex | internal/maint/decide.go:156-175 | one on which that rebuild is dropped too |
| MaintenancePlan.StatisticDroppedForAnotherHeap | internal/maint/decide.go:166-175 | one, with dots only in a schema and a table, on which it is dropped for another table's heap |
| MaintenancePlan.IndexDroppedForAnotherHeap | internal/maint/decide.go:156-164 | one on which an index operation is dropped for another table's heap |
| MaintenancePlan.IndexDroppedForACaseTwin | internal/maint/decide.go:489-491 | one, with no dot anywhere, on which an index operation of [t] is dropped for the heap of [T] |
| MaintenancePlan.UnbackedStatisticIsDropped | internal/maint/decide.go:166-175 | one, with no dot and no twin, on which a statistic that no index backs is dropped for its table's heap |
| MaintenancePlan.KeptStatisticIsNeeded | internal/maint/decide.go:166-175 | a statistic that stays is refreshed by nothing else in the plan |
| Quoting.IdentReadsBack | internal/ddl/generate.go:55-58 | the lexer reads a quoted identifier back, and the text after it unchanged, if and only if that text does not continue the delimiter |
| Quoting.LiteralReadsBack | internal/ddl/generate.go:65-68 | the same of N'...' literals |
| Quoting.QualifiedReadsBack | internal/ddl/generate.go:60-63 | a qualified name is read back as schema and table |
| Quoting.ObjectLiteralReadsBack | internal/ddl/generate.go:70-73 | a name inside a literal is decoded by two passes |
| Quoting.ControlReadsBack | internal/ddl/control.go:10-16 | a control statement names exactly its target and carries its action, whatever characters the names hold |
| Quoting.ControlIsInjective | internal/ddl/control.go:10-16 | equal control statements control the same index of the same table |
| Quoting.ResumableOnes | internal/ddl/control.go:45-56 | rebuilds and creations of an index are resumable, each by its own schema, table and index, and nothing else is |
| Quoting.ResumeReadsBack | internal/ddl/control.go:30-41 | the action's first word is RESUME, and its duration and abort action are read back, or none where there are none |
| Quoting.ResumeIsInjective | internal/ddl/control.go:30-41 | equal RESUME statements have equal targets and equal effective lock options |
| Quoting.ResumeKeepsOptions | internal/ddl/control.go:30-41 | the lock options can be read off a RESUME's text |
| MaintenanceWindow.TimesAreCanonical | internal/ddl/window.go:27-43 | a time is accepted exactly when, blanks aside, it is the two-digit form of the minute it stands for |
| MaintenanceWindow.NamesOfDays | internal/ddl/window.go:18-22 | which name, blanks and case aside, stands for which day |
| MaintenanceWindow.ParseDays | internal/ddl/window.go:58-69 | the set of named days, unreadable names skipped, an empty list standing for every day |
| MaintenanceWindow.Contains | internal/ddl/window.go:95-120 | inside if and only if the opening of some allowed day e covers t, from 1440e+start for (end-start) mod 1440 minutes; never for an unusable window |
| MaintenanceWindow.WhichDay | internal/ddl/window.go:108-119 | only today's opening or yesterday's overnight tail can cover a minute |
| MaintenanceWindow.OpenPerWeek | internal/ddl/window.go:95-120 | any 10080 consecutive minutes hold exactly that length times the number of allowed weekdays |
| Text.Blanks | internal/ddl/window.go:28-31 | the blanks are the space and the control characters from tab to carriage return |
| Text.TrimCutsBlanks | internal/ddl/window.go:28-31 | trimming cuts away exactly the blanks at the ends |

## Left out

- KeyRangeWalk.ExactlyOnce: assumes no concurrent writers, a unique key and a key column outside `set` (nothing in validation ensures the last; see `KeyInSetPassesValidation`). The starting position file is arbitrary.
- KeyRangeWalk.OwnCampaignIsDone: asks that no file of the same fingerprint is put in place by anything but the walk; `ExhaustedMeansDone` does not. A table whose clustered key changes within one history is seen only as a new start.
- KeyRangeWalk.WalkEnds: and PredicateLoop.LoopEnds assume every wait for relief takes positive time, as the termination argument of the code does.
- PredicateLoop.SelfConsumingLoop: and PredicateLoop.CampaignTouchesOnce assume no concurrent writers; the server's choice of rows for TOP is any choice; collation, triggers and computed columns are not modelled.
- CrashResume.CursorMeansDone: and the theorems beside it assume the two conditions named above, which are sufficient, one engine per processing directory, and a plan hash that is injective on the sequence of (command, rendered target) pairs. Every other file operation may fail.
- CrashResume.AfterALostBinding: follows a run of completed operations; what a failed or skipped one does to a misbound sidecar is not stated.
- CrashResume.StopRetriesQuarantined: speaks of the next run of the same plan; a manifest edited in its commands or targets restarts from its first operation, which `ResumeSkipsOnlyDone` covers, and one edited elsewhere is `EditIsNotSeen`.
- CrashResume.Engine.ProcessOne: a crash between two of its file operations is expressed by an event sequence, not by the method, which runs to its end or to the end of its script. A manifest stranded by a crash after its sidecar went is not claimed to be requeued: the sweep sees sidecars only.
- CrashResume.Engine.Recover: takes the server's answers as given; opening a probe for another database that fails is an answer not got. A session that is idle between requests reads as gone, which the queue lock, not part of this model, is there for.
- CrashResume.Engine.RunStep: takes the end of an operation as given; for an operation with one statement `PausedRebuilds.Operate` derives it from how that statement ended. Captures, sizes and reports are not modelled.
- PausedRebuilds.Prepare: the server's rows, its answer to the probe and to the ABORT are inputs; whether an ABORT or a RESUME of a target reaches the paused operation meant is the server's. Blanks and case folding are ASCII.
- PausedRebuilds.OwnWorkIsOfThisIndex: asks that a row whose names match ours up to case bears a statement for its own target, either with bracketed names and our keywords in any layout or of our kind as the engine writes it. Any other row may hold anything.
- PausedRebuilds.ClaimedWhen: follows one operation at one position of one plan. What removes the sidecar or its record between two attempts is one input, `kept`: the sweep where nothing is paused and the cursor is 0 (`internal/run/recovery.go:212`), a manifest that is closed (`internal/run/engine.go:1298`), another operation's record.
- StatementMatch.GeneratedMatch: a rebuild of ALL, which is never resumable, is not among its statements.
- Supervision.Supervise: one clock reading per sample; the code reads the clock again inside one sample, which can only lengthen an interval. The select between samples, completion and cancellation is the point where the script of samples ends.
- MonitoringPump.SilenceIsReactedTo: a poll's answer is stamped when the pump handles it, the watchdog is assumed to tick once per period and the supervisor to meet a sample when it is forwarded.
- RunLoop.RunMonitored: the grace period and fallback KILL of a statement that does not stop are not modelled, nor narration.
- BlockerKills.PersistentBlockerIsKilled: asks that the same rule is the first match throughout and that polls come at least once a window.
- BlockerKills.BlockerKiller.ConsiderLocked: rules are arbitrary tests of a session with a key; regular expressions, reloading from disk and the atomicity of probe and KILL are outside, and so is the victim killer, whose source is not part of this model.
- MaintenancePlan.Decide: what each measurement wants on its own (thresholds, compression, overrides) is an input; case folding is ASCII. Whether an index backs a statistic is read off the indexes the database has; that a heap rebuild refreshes the statistics its indexes back, and no others, is an assumption about the server.
- MaintenanceWindow.Contains: the server's clock is an unbounded line of whole minutes whose day 0 is a Sunday; blanks are ASCII.
- Quoting.ControlReadsBack: text is a sequence of characters; the layout of generated statements other than control statements is not modelled.
- BatchStatements.KeyRangeWhereMeaning: integers stand for any ordered column domain and a stored value equals its literal; `where_raw` and `set_raw` are arbitrary predicates and row functions; the SET map is given as a list in any order.
- SQL Server connectivity, DMV reads, connection repair and permissions: driver and network behaviour.
- YAML decoding, configuration defaults and option resolution: they would model a library or flat case splits.
- The shrink driver, console, notifications, history and run reports: output, or source that is not part of this model.
- Queue directories, file locks and temporary-file writes: a move or a write happens entirely or not at all.
