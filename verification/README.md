# Verified model of Agor's executor lifecycle

Agor daemons launch agent executors, stop them, prove them gone and collect their answers. This
project models the parts of that lifecycle in which several daemons, crashes, timers or arbitrary
byte chunks meet, and proves what they keep.

| files | what they model |
|---|---|
| `TaskRow`, `TerminationProtocol`, `TerminationProofs`, `TerminationTheorems`, `TerminationLeases`, `TerminationWitnesses`, `TerminationProgress`, `TerminationTiming` | stopping one Task: row-locked transitions, any number of daemons with any number of calls, and the truth about the executor; the polling wait and its lease |
| `ResponseFraming`, `ResponseLines`, `ResponseChannel`, `ResponseTable` | the executor response channel: newline-delimited frames out of arbitrary chunks, one reservation's handlers, the bounded table |
| `ProcessContainment`, `ContainmentFence`, `FenceCrashes`, `FenceProgress` | probe-and-signal escalation on a process group; fence records and their verification; the fence protocol under crashes |
| `BootChunkClosure` | the static-import closure of boot chunks |
| `DispatchLaunch`, `DispatchProofs`, `DispatchQueue`, `DispatchTranscript`, `DispatchProgress` | the launch path across daemons: claim, queue order, transcript repair, launch, the executor's own first row |
| `McpRecovery` | the generation-fenced MCP recovery record |
| `HeaderList` | the list-header printer |

Three forms are used. Protocols between daemons are step systems over plain values: an action is
what one process does between two awaits or inside one transaction, `Enabled` says when it may
happen, `Apply` what it does, and theorems speak of every world some run reaches. Objects the
source updates in place are classes whose methods are proved against functions on values. Pure
expressions are functions with lemmas about them.

Beside what never happens, the `Progress` and `ResponseLines` modules say what does get done, and exactly
when, in terms of the row, the bytes, the bundle or the answers seen rather than of the steps themselves.

## Where the definitions come from

The definitions below carry no contract of their own; the table under "Model" names the members
that state something about them.

- `TaskRow.ClaimTermination`, `ClaimCoordination`, `BeginCleanup`, `Retry`, `RecordQuiescence`,
  `Connect`, `SettleVerified`, `SettleUnverified`, `SettleForced`, `SettleRestart`:
  packages/core/src/db/repositories/tasks.ts 2137-2218, 2225-2290, 2293-2318, 2321-2368, 2061-2123,
  1795-1831 and 2371-2554; `AwaitingRemoteExecutor`: packages/core/src/types/task.ts 735-744.
- `TerminationProtocol`: apps/agor-daemon/src/termination-coordinator.ts 181-235 (helper), 273-312
  (wait), 314-452 (one operation), 454-514 (lease), 516-603 (entry points), 609-658 (force-fail);
  apps/agor-daemon/src/startup.ts 334-397 (boot release). What happens to a Task nobody asked to stop:
  `DaemonEnds` is the daemon's own terminal update (apps/agor-daemon/src/register-routes.ts 620-634,
  2645-2663 and 4947-4990; tasks.ts 2585-2740), `Observed` a recorded health finding (tasks.ts
  2125-2134), `Dispatched` and `Pauses` the plain changes of status before an end.
- `ResponseFraming.OnChunk`, `OnEnd`: apps/agor-daemon/src/executor-response-channel.ts 379-456; the
  reference `Lines`, `LinesConform`, `Conforms`, `LeadingEvents` is independent of it.
- `ProcessContainment.Contain` and its parts: apps/agor-daemon/src/executor-tracking.ts 240-252, 341-449.
- `ContainmentFence.Parse`, `IdentityRecord`, `IntentRecord`: executor-tracking.ts 148-168, 488-530.
- `FenceCrashes`: executor-tracking.ts 111-146, 477-583, in the order of
  apps/agor-daemon/src/integrations/opencode/native-state-coordinator.ts 75-131.
- `DispatchLaunch`: apps/agor-daemon/src/register-routes.ts 519-533, 2238-2342, 2435-2575 and 2617-2640;
  tasks.ts 4248-4345 (direct admission), 4481-4591 (claim), 4593-4612 (Session projection);
  packages/executor/src/sdk-handlers/claude/message-builder.ts 57-108 (the executor's fallback row).
- `McpRecovery`: tasks.ts 2763-2807, 2853-2925, 2978-3054, 3061-3144, 3147-3191; register-routes.ts
  6192-6232, 6833-6859, 6942-6972, 6994-7011, 7224-7269; apps/agor-daemon/src/utils/mcp-runtime-hints.ts
  51-93; apps/agor-daemon/src/mcp-egress/gateway.ts 684-818.

## What turned out differently than documented

- Force-fail is not the only unproved way out of a Task: a single-daemon boot releases every
  executing Task; an executor may report its own end before it is gone; and until somebody asks for a
  stop, the complete and fail routes and a failed spawn end any Task by a plain update, whatever runs
  (`DaemonCanEndAnUnconnectedTask`). Of the Tasks that were asked to stop, a guarded force-fail is the
  only unproved ending exactly where no daemon runs alone (`UnprovedEndings`,
  `ForceFailIsTheOnlyOtherWay`).
- The cleanup permit is fenced when it commits, not when the helper starts. A helper that starts
  before the end of its owner's lease serves a live Task, exactly unless the daemon runs alone; later
  it may start for a Task that is over (`HelperServesALiveTaskExactlyWhile`,
  `PermitCanOutliveTheTask`). It runs at most once per revision in any case.
- The unverified guard has two halves. A user stop that takes a guarded request over from another
  cause with a clean diagnosis of its own splits them, and the row can then no longer be moved by an
  owner, a retry or a force-fail (`ClaimKeepsGuardWhole`). The runs of `TerminationProtocol` leave out
  exactly such a stop, and claims that bring an unverified diagnosis (`HonestDiagnosis`); no caller in
  the repository makes either.
- The lease outlasts one pass for every grace except a negative one below -5250 ms together with a
  cleanup budget above 25 s (`LeaseOutlastsOnePass`). No caller gives such a grace: the configured one is
  positive (packages/core/src/config/resolved-config-slice.ts 51) and none passes one of its own.
- After a cooperative grace the group is inspected once more, and an absence seen only there is not
  taken: the group is reported unverified, or sent SIGTERM (`LateAbsenceIsNotTaken`).
- Fence verification contains a live handle of the same Session and Task in place of the stored
  identity; it is sound exactly when both are the same process (`LiveHandleMustBeTheSameProcess`).
- An intent whose daemon died blocks its fence for good (`AbandonedIntentBlocks`).
- A directly admitted Task that meets a power hold at the dispatch permit stays dispatching and is
  never launched by any later run (`HeldAdmissionIsNeverLaunched`).
- A gateway refusal may write the MCP recovery of a Task that is still dispatching, which the other
  updaters would call not live; `OnlyLiveRecordsChange` says exactly when.
- Appending to a list header leaves the value findable exactly when the value is a clean element; the
  function does not check that (`PresentExactlyWhenClean`).

## Assumptions

- A row-locked repository method is one atomic step. Database scopes, locks and retries are not modelled.
- Termination: coordination tokens are random and never repeat; an absence claimed by a caller, a helper
  that exits zero and a remote acknowledgement are truthful; absence of a local process group is the
  theorem `VerifiedIsGone`, whose own assumption is that an "absent" answer of the inspector is. A server
  the executor started inside its own Job does not outlive it.
- Termination: the daemons and the database read one clock. The lease reading of
  `PermitServesALiveTask`, `HelperServesALiveTaskExactlyWhile`, `OwnerInTimeSettles` and
  `APassInItsBudgetSettles` rests on it; tokens, endings and the helper budget do not.
- Response channel: callbacks neither re-enter the channel nor throw; request ids are fresh.
- Fences, for `OneWriterAtATime` only: slots of one key follow each other as the mutation queue runs
  them, each after a successful verification (`InTurns`).
- Fences: a sync makes contents or entries durable, a crash may undo anything not synced; intent ids
  and process identities are never reused; the directory itself is durable; a stored identity is
  cleared only when its process is gone.
- Dispatch: Tasks enter a turn only through the two admission paths; message rows are not deleted
  while their Task is being launched; the message id is the table's key; only the launch path uses a
  Task's stable identity as a message id, and an executor's look finds the row its daemon wrote.
- Empty identity strings read from the host count as missing.

## Model

| member | source | states |
|---|---|---|
| TaskRow.ClaimKeepsGuardWhole | packages/core/src/db/repositories/tasks.ts:2137-2218 | a claim over a guarded row keeps both halves of the guard together if and only if it is not a valid user stop that takes over another cause with a clean diagnosis; a split row is stuck for every owner, retry and force-fail |
| TaskRow.LeaseIsGivenExactlyWhen | packages/core/src/db/repositories/tasks.ts:2225-2290 | all four answers of the lease claim, each exactly when, and that a caller's own lease is never renewed |
| TaskRow.GuardedRowsCanBeReopened | packages/core/src/db/repositories/tasks.ts:2321-2368 | exactly one request and revision may retry a guarded row; a retry and the executor's first acknowledgement open it again, keeping every diagnosis the guard did not write, and a lease can then be given |
| TaskRow.FreshConnectionIsNotStale | packages/core/src/db/repositories/tasks.ts:2137-2218 | a claim for staleness loses against any connection made after its bound |
| TerminationTheorems.RunKeepsInvariant | apps/agor-daemon/src/termination-coordinator.ts:314-603 | evidence, ending, calls, operations and cleanup ledger stay consistent over every run of any number of daemons, with calls that throw, daemons that crash, and Tasks ended by plain updates before a stop |
| TerminationTheorems.TerminationIsProved | apps/agor-daemon/src/termination-coordinator.ts:314-452 | in every reachable world a Task settled as verified absent has neither executor nor server alive, and a force-failed one was guarded for that revision before |
| TerminationTheorems.UnprovedWaysOut | apps/agor-daemon/src/startup.ts:334-397 | force-fail moves the row if and only if this very request and revision is guarded, and to which row; the boot release ends any executing Task, with which row, and leaves what is alive alive |
| TerminationTheorems.UnprovedEndings | apps/agor-daemon/src/termination-coordinator.ts:314-452 | in every reachable world a Task that is over while something it ran is alive was force-failed under its guard, released by a single-daemon boot, or ended before anybody asked it to stop: reported over by its connected executor, or by a daemon's plain update |
| TerminationWitnesses.ForceFailIsTheOnlyOtherWay | apps/agor-daemon/src/termination-coordinator.ts:609-658 | of Tasks asked to stop, a guarded force-fail is the only unproved ending over every run if and only if no daemon runs alone |
| TerminationWitnesses.ReportCanPrecedeTheExit | packages/core/src/db/repositories/tasks.ts:2600-2612 | for every terminal status, a reachable world in which the executor's own report ended the Task while the executor is alive, at work or waiting |
| TerminationWitnesses.DaemonCanEndAnUnconnectedTask | apps/agor-daemon/src/register-routes.ts:4947-4990 | for every terminal status a reachable world in which a plain update wrote it while the executor is alive and has not even connected |
| TerminationTheorems.AcknowledgementIsNeverBuried | apps/agor-daemon/src/termination-coordinator.ts:396-433 | no reachable stopping row holds a sufficient acknowledgement under the unverified guard |
| TerminationTheorems.LateAcknowledgementIsReevaluated | apps/agor-daemon/src/termination-coordinator.ts:396-433 | an owner that still holds its token when the acknowledgement has arrived evaluates again instead of writing the guard, and did so for the first time |
| TerminationTheorems.SecondPassIsShort | apps/agor-daemon/src/termination-coordinator.ts:273-452 | the second pass waits for nothing, never reaches the helper, and finishes |
| TerminationLeases.SecondPassEndsTheTask | apps/agor-daemon/src/termination-coordinator.ts:396-452 | a re-evaluating call whose token has not moved ends a remote Task as verified absent in its next three steps, without another helper run |
| TerminationTheorems.AcknowledgedOwnerEndsTheTask | apps/agor-daemon/src/termination-coordinator.ts:396-452 | with a sufficient acknowledgement the owner ends the Task as verified absent if it keeps its token, and changes nothing if it lost it |
| TerminationTheorems.OnlyTheOwnerSettles | packages/core/src/db/repositories/tasks.ts:2371-2554 | in any world a verdict moves the row if and only if its token still owns an unguarded settlement and, when unverified, the acknowledgement is the one judged; a stale owner moves nothing |
| TerminationLeases.TokensAreExclusive | apps/agor-daemon/src/termination-coordinator.ts:454-514 | no two calls in any run ever coordinate under one token |
| TerminationLeases.LostTokenStaysLost | packages/core/src/db/repositories/tasks.ts:2225-2290 | a token that left the row is never the row's again, in any continuation |
| TerminationLeases.StaleOwnerNeverSettles | apps/agor-daemon/src/termination-coordinator.ts:396-452 | an owner that lost its token moves the row by no settlement, however the run goes on |
| TerminationLeases.OwnerInTimeSettles | apps/agor-daemon/src/termination-coordinator.ts:314-452 | without a single daemon an owner whose lease has not ended owns the unguarded stopping row; its judgement goes on and its settlement ends the Task, guards it or goes round on an unseen acknowledgement, and never answers changed |
| TerminationLeases.APassInItsBudgetSettles | apps/agor-daemon/src/termination-coordinator.ts:102-128 | under the lease the coordinator computes, a first pass that keeps to its grace, its longest branch and the margin settles |
| TerminationProgress.OwnershipIsGainedExactlyWhen | apps/agor-daemon/src/termination-coordinator.ts:454-603 | a call that has arrived goes straight on to own the row and contain if and only if the row is as it expected, open, unguarded, free of a lease in force, its daemon idle, a remote executor connected or acknowledged (or a deadline, or a proof), and a local one's handle here or its owner's time over; the row then carries its request |
| TerminationProgress.LocalProofDecides | apps/agor-daemon/src/termination-coordinator.ts:352-451 | a local owner in time ends its Task as verified absent if and only if the group was seen absent and the tool does not declare its termination unverifiable; otherwise the guard is written with the judged diagnosis, or a new acknowledgement is looked at |
| TerminationProgress.HelperProofDecides | apps/agor-daemon/src/termination-coordinator.ts:352-451 | a remote owner in time ends its Task if and only if the helper exits zero and the tool does not object or is hosted |
| TerminationProgress.CallersProofDecides | apps/agor-daemon/src/termination-coordinator.ts:338-451 | a caller's proof ends the Task, against the tool's declaration only for a refused launch or beside a hosted acknowledgement |
| TerminationProgress.AcknowledgementDecides | apps/agor-daemon/src/termination-coordinator.ts:338-451 | a remote acknowledgement ends the Task if and only if the tool does not object or is hosted |
| TerminationProgress.LocalPassProbes | apps/agor-daemon/src/termination-coordinator.ts:314-361 | a local pass without a proof goes on to look at the group |
| TerminationProgress.RemotePassAsksTheHelper | apps/agor-daemon/src/termination-coordinator.ts:181-235 | a remote pass without an acknowledgement starts the helper if and only if one is configured and this revision has not used it |
| TerminationProgress.StopCanBeProved | apps/agor-daemon/src/termination-coordinator.ts:314-603 | a run in which the executor stops, the one helper run says so and the Task ends as proved, on one daemon as on several |
| TerminationProgress.DecisionAnswers | apps/agor-daemon/src/termination-coordinator.ts:516-603 | what a call is answered before anything is coordinated, each answer exactly when |
| TerminationProgress.CoordinationAnswers | apps/agor-daemon/src/termination-coordinator.ts:454-514 | who is asked to come back and who hears that things changed at the coordination, each exactly when |
| TerminationProgress.JudgementAnswers | apps/agor-daemon/src/termination-coordinator.ts:324-337 | a pass stops judging exactly for another owner's row or one no longer asked to end |
| TerminationProgress.StartAnswers | apps/agor-daemon/src/termination-coordinator.ts:516-603 | a start joins exactly when its daemon is busy, and contains exactly what has a token or is over |
| TerminationProgress.SettlementAnswers | apps/agor-daemon/src/termination-coordinator.ts:362-451 | what a settlement answers for a Task that is over before or by then, and to an owner that lost its token |
| TerminationProgress.ReopeningActions | packages/core/src/db/repositories/tasks.ts:2061-2123 | in every reachable world a retry opens a guarded Task with an unspent budget, and a first acknowledgement opens it with its revision |
| TerminationTheorems.HelperRunsOncePerRevision | apps/agor-daemon/src/termination-coordinator.ts:181-235 | across daemons and failovers no revision sees two helper runs, and each run had a permit |
| TerminationTheorems.PermitNeedsALiveOwner | packages/core/src/db/repositories/tasks.ts:2293-2318 | a permit commits only for a live, unguarded Task, its current token and an unspent revision |
| TerminationLeases.PermitServesALiveTask | apps/agor-daemon/src/termination-coordinator.ts:181-235 | while the lease of a permit's owner lasts, the row carries that lease, is stopping and unguarded, unless a single-daemon boot released it |
| TerminationWitnesses.HelperServesALiveTaskExactlyWhile | apps/agor-daemon/src/termination-coordinator.ts:181-235 | for every clock reading and lease end, helpers started in any run serve a Task that is not over if and only if the daemon does not run alone and the lease has not ended |
| TerminationWitnesses.PermitCanOutliveTheTask | apps/agor-daemon/src/termination-coordinator.ts:181-235 | a run, on several daemons as on one, in which the helper is started for a Task that is already over |
| TerminationTheorems.OneOperationPerDaemon | apps/agor-daemon/src/termination-coordinator.ts:516-603 | two containing calls on one daemon are the same call |
| TerminationTheorems.EndedStaysEnded | apps/agor-daemon/src/termination-coordinator.ts:609-658 | a terminal row and its outcome are the same after every continuation |
| TerminationTheorems.ForceAndVerifiedExclude | packages/core/src/db/repositories/tasks.ts:2371-2554 | force-fail and verified settlement never both move one row, in either order |
| TerminationTiming.LeaseOutlastsOnePass | apps/agor-daemon/src/termination-coordinator.ts:102-128 | the lease covers grace, longest containment branch and margin, with the exact condition |
| TerminationTiming.LeaseSpansLocalReevaluation | apps/agor-daemon/src/termination-coordinator.ts:102-128 | the lease covers the nominal waits of a local pass with one re-evaluation, and for large graces nothing more |
| TerminationTiming.DefaultLeases | apps/agor-daemon/src/termination-coordinator.ts:102-128 | the default leases are 30 s, and 55.25 s for a remote executor with a helper; a delay given with the signal comes first |
| TerminationTiming.WaitForExecutorQuiescence | apps/agor-daemon/src/termination-coordinator.ts:273-312 | the polling loop answers the first row that stopped matching, or the last one after the whole grace; every earlier row was stopping, unacknowledged and under the same token; punctual timers wait 25 ms each and not beyond the grace |
| ResponseFraming.EffectiveLimit | apps/agor-daemon/src/executor-response-channel.ts:186-189 | the operator's limit raised to the caller's floor, but never above 64 MiB |
| ResponseFraming.ReceiverMatchesLines | apps/agor-daemon/src/executor-response-channel.ts:379-456 | from any point between lines, feeding and closing answers exactly when the remaining lines conform |
| ResponseFraming.DeliveredIsLeading | apps/agor-daemon/src/executor-response-channel.ts:248-277 | events delivered at any point are a prefix of the leading events of the line list |
| ResponseFraming.ChunksAreTheirJoin | apps/agor-daemon/src/executor-response-channel.ts:391-456 | a chunked upload equals feeding the joined bytes, byte limit included |
| ResponseFraming.ChunkingInvariance | apps/agor-daemon/src/executor-response-channel.ts:379-456 | for every split, the upload is answered with a reply and events if and only if the whole stream conforms to them |
| ResponseFraming.FailureDeliversAPrefix | apps/agor-daemon/src/executor-response-channel.ts:391-456 | a failed upload delivered a prefix of what the whole-stream reader takes |
| ResponseFraming.SplitsAgree | apps/agor-daemon/src/executor-response-channel.ts:391-456 | two splits of one stream are answered alike or both fail |
| ResponseLines.UploadTellsItsContents | apps/agor-daemon/src/executor-response-channel.ts:379-456 | for every split and every mixture of line endings, an upload is answered if and only if it is within the limit and the contents of its lines are the frames of at most eight events, numbered and not too large, and of the reply |
| ResponseLines.EveryStreamIsWritten | apps/agor-daemon/src/executor-response-channel.ts:379-456 | every byte stream is the writing of such lines, so the characterisation covers all uploads |
| ResponseLines.OneFrameIsAnswered | apps/agor-daemon/src/executor-response-channel.ts:379-456 | one content under any line ending is answered if and only if it is not empty and parses as the first final frame |
| ResponseChannel.Reservation.ProcessFrame | apps/agor-daemon/src/executor-response-channel.ts:248-277 | one non-empty line does to the reservation what the abstract receiver does with it |
| ResponseChannel.Reservation.AcceptFrame | apps/agor-daemon/src/executor-response-channel.ts:379-389 | the held pieces are taken as one line; counts and sizes stay in bounds |
| ResponseChannel.Reservation.ParsePart | apps/agor-daemon/src/executor-response-channel.ts:391-424 | one turn of the chunk loop feeds exactly the bytes up to the next newline |
| ResponseChannel.Reservation.ParseChunk | apps/agor-daemon/src/executor-response-channel.ts:391-424 | the chunk loop equals feeding the chunk; buffered bytes never exceed received bytes or the limit |
| ResponseChannel.Reservation.ParseEnd | apps/agor-daemon/src/executor-response-channel.ts:433-456 | an unterminated last line is taken at the end like any other |
| ResponseTable.Channel.Configure | apps/agor-daemon/src/executor-response-channel.ts:132-146 | reconfiguration succeeds exactly on an empty table and reopens admission |
| ResponseTable.Channel.Reserve | apps/agor-daemon/src/executor-response-channel.ts:148-246 | admission is refused exactly when draining or full; a reservation gets the effective limit and its deadline |
| ResponseTable.Channel.Settle | apps/agor-daemon/src/executor-response-channel.ts:101-130 | only the first settlement resolves the waiter; it leaves the table and closes the publisher when asked |
| ResponseTable.Channel.Expire | apps/agor-daemon/src/executor-response-channel.ts:218-240 | a timer or caller failure settles an unsettled reservation, and its publisher is done |
| ResponseTable.Channel.Attach | apps/agor-daemon/src/executor-response-channel.ts:287-377 | exactly when a publisher is turned away and with which answer and failure, when it is let in (headers and announced length within the limit); it is let in only where none was before, which is written to exactly that log |
| ResponseTable.Channel.Data | apps/agor-daemon/src/executor-response-channel.ts:391-431 | a chunk changes nothing once settled and is the abstract chunk step otherwise; it fails as too large exactly beyond the limit, and as invalid else |
| ResponseTable.Channel.End | apps/agor-daemon/src/executor-response-channel.ts:433-456 | the end answers with the final frame or fails, once; as missing exactly when all lines were frames and none final |
| ResponseTable.Channel.Abort | apps/agor-daemon/src/executor-response-channel.ts:457-476 | a broken connection fails an unsettled reservation and delivers nothing |
| ResponseTable.Channel.StopAll | apps/agor-daemon/src/executor-response-channel.ts:490-502 | the drain loop tells every waiter and empties the table |
| ResponseTable.Channel.BeginDrain | apps/agor-daemon/src/executor-response-channel.ts:490-502 | after drain nothing is admitted and the table is empty until reconfigured |
| ResponseTable.TakeStep | apps/agor-daemon/src/executor-response-channel.ts:101-502 | every entry point keeps the bounded table, only adds to logs and leaves settled reservations as they are; only a drain closes admission, only a configuration reopens it, and a publisher is let in, and logged, only by its own request and only where none was |
| ResponseTable.EveryInterleaving | apps/agor-daemon/src/executor-response-channel.ts:101-502 | over every schedule each reservation's log has at most one attachment, deliveries only after it, at most one resolution and nothing after that, and it is in the bounded table exactly while its log has no resolution; from step to step logs only grow, settled reservations do not change, and only a publisher's own request lets it in; the channel is closed exactly when drained and not configured since, and is then empty |
| ProcessContainment.Host.AwaitAbsence | apps/agor-daemon/src/executor-tracking.ts:240-252 | the polling loop equals its specification |
| ProcessContainment.Host.ContainIdentity | apps/agor-daemon/src/executor-tracking.ts:341-449 | the escalation equals its specification, trace and clock included, with the leader's exit and identity as they are read after the cooperative wait |
| ProcessContainment.WaitSees | apps/agor-daemon/src/executor-tracking.ts:240-252 | a wait only probes, answers what it saw last, and gives up only after the full time without any absence |
| ProcessContainment.PollsAreSpaced | apps/agor-daemon/src/executor-tracking.ts:240-252 | the first look of a wait is at once, and the others at least a poll apart |
| ProcessContainment.EscalationIsEarned | apps/agor-daemon/src/executor-tracking.ts:412-449 | one SIGTERM, then at most one SIGKILL, earned by a SIGTERM that met the group and a full wait |
| ProcessContainment.ContainmentGoesAllTheWay | apps/agor-daemon/src/executor-tracking.ts:412-449 | a SIGTERM that met the group is followed by an absence or by SIGKILL, and a SIGKILL that met it by an absence or a look after the full grace |
| ProcessContainment.ContainmentIsJustified | apps/agor-daemon/src/executor-tracking.ts:341-449 | against any inspector, absence rests on another boot or on the last look, and every signal is earned |
| ProcessContainment.SignalsExactlyWhenAllowed | apps/agor-daemon/src/executor-tracking.ts:384-411 | signals are sent if and only if the looks leave the group possibly there and no hands-off rule applies |
| ProcessContainment.SignalsMeetTheStoredProcess | apps/agor-daemon/src/executor-tracking.ts:384-411 | signals are sent if and only if the looks leave the group possibly there and its leader is the stored process, or has exited under a live handle, and a recovered identity is known to be of this boot |
| ProcessContainment.OnlyAnotherBootNeedsNoLook | apps/agor-daemon/src/executor-tracking.ts:341-366 | absence without a look is answered if and only if a recovered identity is known to be of another boot than this one |
| ProcessContainment.LateAbsenceIsNotTaken | apps/agor-daemon/src/executor-tracking.ts:373-382 | exactly when an observed absence is reported unverified, and exactly when SIGTERM follows an absence |
| ProcessContainment.LateAbsenceHappens | apps/agor-daemon/src/executor-tracking.ts:373-382 | a concrete run that reports unverified after seeing the group absent |
| ProcessContainment.VerifiedIsGone | apps/agor-daemon/src/executor-tracking.ts:341-449 | if absent answers are true, a verdict of absence means the group is gone from then on |
| ContainmentFence.RecordsReadBack | apps/agor-daemon/src/executor-tracking.ts:148-168 | an identity record reads back exactly when its numbers name processes; an intent never does |
| ContainmentFence.RecordReadsAs | apps/agor-daemon/src/executor-tracking.ts:148-168 | a record reads as an executor if and only if its numbers name processes and it agrees in version and every field with the record written for that executor |
| ContainmentFence.LiveHandleMustBeTheSameProcess | apps/agor-daemon/src/executor-tracking.ts:564-568 | clearing is sound for every honest containment if and only if the live handle names the stored process |
| ContainmentFence.OtherBootIsClearedUnlessLive | apps/agor-daemon/src/executor-tracking.ts:564-570 | a stored identity of another boot is cleared whatever the inspector answers, if and only if no live handle of its session and task stands in for it |
| ContainmentFence.FenceDirectory.Verify | apps/agor-daemon/src/executor-tracking.ts:536-583 | true if and only if every listed file was a well-formed identity, verified absent and durably removed; deletes exactly the files it cleared and could remove |
| FenceCrashes.RunKeepsInvariant | apps/agor-daemon/src/integrations/opencode/native-state-coordinator.ts:75-131 | every writer that may run keeps a durable record, every slot its stage, every pass its unfinished files |
| FenceCrashes.CrashLeavesARecord | apps/agor-daemon/src/executor-tracking.ts:477-530 | after a crash at any point every writer that may run has an intent or identity on disk |
| FenceCrashes.PassedMeansGone | apps/agor-daemon/src/executor-tracking.ts:536-583 | a successful pass means no writer started before its listing runs, across crashes |
| FenceCrashes.AbandonedIntentBlocks | apps/agor-daemon/src/integrations/opencode/native-state-coordinator.ts:75-131 | an intent left by a crash survives every later run and no pass succeeds again |
| FenceCrashes.OneWriterAtATime | apps/agor-daemon/src/integrations/opencode/native-state-coordinator.ts:75-131 | with the slots of one key in turn, a new writer never starts while an earlier one runs, across crashes |
| FenceProgress.SlotLeavesOneIdentity | apps/agor-daemon/src/integrations/opencode/native-state-coordinator.ts:75-131 | a slot that lives its life leaves its writer running, one durable identity and no intent, and once the writer ends a file a pass can clear |
| FenceProgress.PassCanSucceedExactlyWhen | apps/agor-daemon/src/executor-tracking.ts:536-583 | a pass left to itself can succeed, and then empties the directory for good, if and only if every file is a complete identity of a writer that is gone |
| FenceProgress.UnusedIntentIsReleased | apps/agor-daemon/src/executor-tracking.ts:521-529 | an intent without a running writer is released the same way |
| FenceProgress.RetriedAttachmentKeepsTheIdentity | apps/agor-daemon/src/executor-tracking.ts:477-500 | attaching again leaves an identity that is there as it is and makes its entry durable |
| FenceProgress.CrashUndoesTheUnsynced | apps/agor-daemon/src/executor-tracking.ts:111-146 | a crash may undo a new entry, its contents or a removal, and none of them once synced |
| BootChunkClosure.BootChunks.constructor | apps/agor-ui/vite.config.ts:49-54 | the map holds exactly the chunks of the bundle that no later chunk of the same name replaces |
| BootChunkClosure.BootChunks.AddStatic | apps/agor-ui/vite.config.ts:55-61 | the search ends on any graph, adds only boot chunks, and leaves every chunk it added closed under static imports |
| BootChunkClosure.BootChunks.AddLazy | apps/agor-ui/vite.config.ts:62-66 | every existing module an entry imports dynamically is covered and the set stays closed |
| BootChunkClosure.BootChunks.AddRoots | apps/agor-ui/vite.config.ts:62-66 | an entry and its dynamic imports are covered and the set stays closed |
| BootChunkClosure.BootChunks.GenerateBundle | apps/agor-ui/vite.config.ts:49-69 | the closure is exactly the chunks reachable by static paths from an entry or its dynamic imports, for any iteration order |
| BootChunkClosure.BootChunkFiles | apps/agor-ui/vite.config.ts:49-69 | the whole hook, over the bundle itself: exactly the names a path of static imports reaches from an entry or its dynamic imports |
| BootChunkClosure.PathStaysInside | apps/agor-ui/vite.config.ts:55-61 | no static path leaves a closed set |
| DispatchProofs.RunKeepsInvariant | apps/agor-daemon/src/register-routes.ts:2435-2575 | launch rights, launches, turns and transcript rows stay consistent over every run |
| DispatchProofs.LaunchedOnceByItsCreator | apps/agor-daemon/src/register-routes.ts:2435-2575 | over all daemons and crashes a Task is launched at most once, as its creator, and at most one call may still launch it |
| DispatchProgress.StartableTaskIsLaunched | apps/agor-daemon/src/register-routes.ts:2435-2640 | a creator's request for a Task that may start has a run of its own steps that launches it, as its creator, if the Task's transcript identity is its own |
| DispatchProgress.AdmittedTaskIsLaunched | apps/agor-daemon/src/register-routes.ts:2435-2640 | so has every direct admission |
| DispatchProgress.TheRightCanBeUsed | apps/agor-daemon/src/register-routes.ts:2498-2640 | a call with the right to launch has a run of its own steps ending in exactly this launch if and only if nothing of somebody else's stands under its transcript identity |
| DispatchProgress.ClaimWinsExactlyWhen | packages/core/src/db/repositories/tasks.ts:4481-4612 | a claim puts its Task in turn, and its call in possession of the right, if and only if no hold meets it and the Task is unchanged, next in its queue by position, age and id, its Session free and its creator there; a loser repairs exactly for a Task with an identity past the fence |
| DispatchProgress.BeginDecides | apps/agor-daemon/src/register-routes.ts:2455-2497 | what becomes of a request before the fence: repair for a late call with an identity, else rejection exactly for strangers |
| DispatchProgress.TurnNeedsItsCreator | packages/core/src/db/repositories/tasks.ts:4248-4345 | whatever step starts a turn, the creator is an actor and the Session may start |
| DispatchProgress.CrashedDaemonNeverLaunches | apps/agor-daemon/src/register-routes.ts:2498-2560 | what a stopped daemon had the right to launch is launched by no later run, and exactly its calls are gone |
| DispatchProofs.OneTurnPerSession | packages/core/src/db/repositories/tasks.ts:4481-4612 | a Session has at most one Task in turn and lists it exactly once |
| DispatchQueue.ExactlyOneHead | packages/core/src/db/repositories/tasks.ts:4501-4518 | a Session with anything queued has exactly one claimable head |
| DispatchQueue.DispatchFollowsTheQueue | packages/core/src/db/repositories/tasks.ts:4481-4591 | whatever step of whatever run starts a Task's turn, everything still queued in its Session was queued behind it |
| DispatchQueue.EarlierIsDispatchedFirst | packages/core/src/db/repositories/tasks.ts:4481-4591 | of two queued Tasks the later is neither in turn nor launched in any continuation without a manual reordering in which the earlier still waits |
| DispatchProgress.EnqueueGoesBehind | packages/core/src/db/repositories/tasks.ts:4501-4518 | a Task that joins the queue waits behind everything with a lower position |
| DispatchProofs.OneInitialRow | apps/agor-daemon/src/register-routes.ts:2238-2342 | a Task with a stable identity has at most one row from the launch path, exactly that row once any repair returned, and before its launch when rows are written |
| DispatchProgress.LateCallRepairs | apps/agor-daemon/src/register-routes.ts:2238-2342 | a late call leaves the Task's own row behind, or finds it, or is turned away by somebody else's |
| DispatchProgress.FailedInsertLooksAgain | apps/agor-daemon/src/register-routes.ts:2238-2342 | a row that could not be inserted is looked for again, and only the Task's own goes for it |
| DispatchTranscript.OneFirstRow | apps/agor-daemon/src/register-routes.ts:2238-2342 | counting the executor's own fallback, a Task with a stable identity launched by a row-writing daemon has exactly one first row; only elsewhere may the executor add one, and then a single one |
| DispatchTranscript.FallbackGivesTheFirstRow | packages/executor/src/sdk-handlers/claude/message-builder.ts:57-108 | where no daemon wrote it, the executor's look and fallback give the launched Task exactly one first row |
| DispatchProofs.LostRightIsFinal | apps/agor-daemon/src/register-routes.ts:2498-2560 | once nobody holds the right to a Task past the fence, no later run launches it |
| DispatchProofs.RightGivenUpIsNeverUsed | apps/agor-daemon/src/register-routes.ts:2238-2560 | a call that loses its launch right by a crash, a hold or a foreign transcript identity leaves its Task unlaunched in every continuation |
| DispatchProofs.HeldAdmissionIsNeverLaunched | apps/agor-daemon/src/register-routes.ts:2498-2524 | a directly admitted Task that meets a power hold keeps its row and is never launched |
| McpRecovery.GenerationNeverDecreases | packages/core/src/db/repositories/tasks.ts:2763-3191 | over every run of every writer the effective generation never falls and a present record stays above its tombstone |
| McpRecovery.SignalRaises | apps/agor-daemon/src/register-routes.ts:6192-6232 | on any row, a signal raises the generation if and only if the Task is live and the record not behind its tombstone |
| McpRecovery.EveryLiveSignalIsNew | apps/agor-daemon/src/register-routes.ts:6192-6232 | in any Task's life every signal to a live Task opens an unused generation with its code |
| McpRecovery.OnlyLiveRecordsChange | apps/agor-daemon/src/mcp-egress/gateway.ts:684-818 | the record of a Task that is not live changes if and only if a clearing matches it, or the Task is dispatching and a refusal concerns it and is not yet known |
| McpRecovery.RefusalReachesDispatching | apps/agor-daemon/src/mcp-egress/gateway.ts:684-818 | on every dispatching row a refusal changes the record if and only if it applies, and then opens a generation above all used |
| McpRecovery.StaleHolderChangesNothing | apps/agor-daemon/src/register-routes.ts:6833-7011 | a step made for another generation or request leaves the row unchanged, as does a reconnect for another generation |
| McpRecovery.OvertakenForGood | apps/agor-daemon/src/register-routes.ts:6833-7269 | once overtaken, such a step is without effect after any further run |
| McpRecovery.ClaimsRise | packages/core/src/db/repositories/tasks.ts:2853-2925 | first claims come with strictly rising generations over every run |
| McpRecovery.EachGenerationIsClaimedOnce | packages/core/src/db/repositories/tasks.ts:2853-2925 | in any Task's life no generation is claimed twice |
| McpRecovery.ProjectionIsImmutable | packages/core/src/db/repositories/tasks.ts:2978-3054 | no writer replaces a bound projection while its claim stands |
| McpRecovery.RefreshIsCarriedThrough | packages/core/src/db/repositories/tasks.ts:2853-3144 | the holder of a requested refresh, with no later claim standing, claims, binds and settles it: success ends the recovery with its generation as tombstone, failure opens the next generation |
| McpRecovery.WhoIsTaken | packages/core/src/db/repositories/tasks.ts:2853-3144 | exactly whose claims, duplicates, bindings and settlements are taken |
| McpRecovery.StandingClaimAnswers | packages/core/src/db/repositories/tasks.ts:2853-2925 | a standing claim of this or a later generation makes its own holder a duplicate and turns every other away |
| McpRecovery.WhoIsHeard | apps/agor-daemon/src/register-routes.ts:6833-7011 | exactly whose reports change the record of a live Task |
| McpRecovery.HolderIsHeard | apps/agor-daemon/src/register-routes.ts:6833-7011 | what the record says after each report of its holder |
| McpRecovery.ReconnectAsksAgain | apps/agor-daemon/src/register-routes.ts:7224-7269 | a reconnect for the present generation asks for a refresh in a new one, exactly unless that refresh is running within its deadline |
| McpRecovery.DegradeEndsWaiting | apps/agor-daemon/src/utils/mcp-runtime-hints.ts:51-93 | switching mediation off ends exactly what waits for a refresh |
| McpRecovery.RefusalReachesLive | apps/agor-daemon/src/mcp-egress/gateway.ts:684-818 | a refusal changes a live Task's record under the same conditions, opens a new generation and says what it refused |
| McpRecovery.FirstRefresh | packages/core/src/db/repositories/tasks.ts:2763-3144 | a Task that comes alive, one signal and its refresh end in a settled recovery |
| HeaderList.PrintedListReadsBack | apps/agor-daemon/src/register-routes.ts:376-390 | a printed list of clean elements reads back as the same elements |
| HeaderList.AnyWritingReadsBack | apps/agor-daemon/src/register-routes.ts:376-390 | a list written over any number of header lines, with any spacing and any empty elements, reads back as its elements in order |
| HeaderList.AppendIsTextual | apps/agor-daemon/src/register-routes.ts:376-390 | on a list printed here, appending a new value adds a comma, a space and the value |
| HeaderList.ElementsAreClean | apps/agor-daemon/src/register-routes.ts:376-390 | every element read from any header is trimmed, non-empty and comma-free |
| HeaderList.AppendAddsAtMostTheValue | apps/agor-daemon/src/register-routes.ts:376-390 | earlier elements stay in order, the value is present up to case and added only if it was not, appending again changes nothing |
| HeaderList.PresentExactlyWhenClean | apps/agor-daemon/src/register-routes.ts:376-390 | the value is found again if and only if it is a clean element |

## Left out

- SQL, tenant scopes, row locks and retries of transactions: each repository method is one step.
- HTTP, authentication, hashing, random tokens, metrics, logs and realtime events; ids are fresh values.
- Test seams: injected inspectors, injected results and clocks.
- Callbacks of the response channel that throw or re-enter it.
- Task fields no transition here branches on: error messages, timing and diagnosis texts.
- A clock that runs backwards; poll overshoot and database latency in the lease bounds.
- The live registry's own bookkeeping (track, untrack, mark exited): one-line map updates.
- Durability of the fence directory's ancestors under concurrent creators.
- Retaining an identity without a slot, as a blocked namespace does beside its slot.
- Mutual exclusion by the in-process Session turn lock: it only coalesces, nothing here relies on it.
- Folding prompts into the queue tail, interruption, corrections, and how queue positions are assigned;
  cancelling a queued Task is ending it.
- Random-id transcript rows of ordinary prompts: best effort, no uniqueness is claimed.
- MCP recovery texts, server state lists and the refresh rate limiter.
- SDK-home scopes of branches: conditionals without state of their own.
