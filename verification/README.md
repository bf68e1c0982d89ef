# Task orchestrator and media recorder, modelled and proved in Dafny

The orchestrator accepts execution requests, decides when they may start, queues the ones that must wait, runs
missions as graphs of subtasks and remembers what happened across restarts. The media recorder writes frames and encoded
video into a spool of bounded size that survives a crash at any moment. This project states what both promise and
proves it for every input, every outcome of the code they call, and every interleaving or crash.

`dafny verify dfyconfig.toml` checks everything.

## The files

| file | what it models |
|---|---|
| `MissionGraph.dfy` | the recursive dependency check of a mission payload |
| `MissionExecution.dfy` | the wave executor: retries, skips, aborts, failures, cancellation, deadline |
| `MissionPayload.dfy` | reading a mission payload: its checks in order, and what each does to the request |
| `Lifecycle.dfy` | one execution call from request to terminal event, recursively through missions |
| `Idempotency.dfy` | idempotency keys: claims in memory, the durable record table, restarts |
| `Admission.dfy` | start policy, the active registry, and what active entries may share |
| `TaskQueue.dfy` | the wait queue under its condition lock |
| `QueuedRecord.dfy` | storing a queued request and rebuilding it after a restart |
| `EventLog.dfy` | the bounded event cache against the durable event table |
| `AgentRegistry.dfy` | agents, heartbeats and mission leases guarded by tokens |
| `RecordingRuntime.dfy` | the recording worker with its concurrent callbacks |
| `SpoolFiles.dfy`, `FilePlans.dfy`, `Spool.dfy` | files, sequences of file steps and what a quota and a crash make of them, byte accounting |
| `Journal.dfy`, `FrameRecording.dfy` | JSON-lines journals and image-sequence recordings |
| `Finalization.dfy`, `VideoFinalization.dfy` | closing a recording |
| `RecoveryRoom.dfy`, `RecoveryRestart.dfy`, `SpoolRecovery.dfy` | startup recovery, the room it needs, and what interruptions do to both |
| `EncodedRecording.dfy` | the journals and the reservation of an external encoder, and its settlement |
| `Common.dfy` | shared vocabulary |

## How it is modelled

Code that changes state in place is a class or a method with a loop, proved against transition functions or invariants;
the lemmas then speak about those. Everything the code calls but does not decide is arbitrary: the outcome of each child
execution, the clock, the answers of backends, free disk space, and whether a system call succeeds. Concurrency is a
transition system with one step per atomic section.

The disk is a map from paths to bytes. Every file operation records each state the disk passes through, so "a crash at
any point" means every recorded state. Two states are the same to a reader when they agree on everything but temporary
files.

A finalization is specified by its plan, the list of its counted file steps. Its method is proved to carry out the plan up
to the first step that fails, with the counter, the quota decisions and the crash states that go with it; what the plan
means for reports, files and quota is proved about the plan.

`FinalCounts` is what a session will report once recovered: its persisted counts when its record is terminal, what its
journals hold while it is not. "The report does not change" is the invariant that finalization and recovery keep at every
crash point; with it come that a terminal record stays as it is and that its physical reserve is gone.

JSON texts appear as codecs of which only this is assumed: no raw newline, decoding undoes encoding, and an object is
incomplete until its last character.

## Where the code does less than one might expect

Each of these is a lemma with the exact condition or a concrete run.

- The documentation gives the queue order as ready time, then priority, then arrival (docs/architecture.md:57-58). The
  code orders ready entries by priority, then arrival. The model follows the code;
  `TaskQueue.DocumentedOrderAgreesExactly` says when the two agree.
- A request may join the queue under an id that is waiting: its entry replaces the one there. Waiters keep their places
  if and only if that never happens (`TaskQueue.RunKeepsPlacesExactly`); a waiter left without an entry is not admitted
  until another request joins under the id, whose entry it then takes (`TaskQueue.ThirdRequestFreesStranded`).
- One id submitted under two idempotency keys forgets the first key; after a restart it starts again
  (`Idempotency.StartsOnceExactly`).
- A queued request does not resume after a restart when a malformed one with the same key was recorded since
  (`Idempotency.QueuedResumesExactly`), nor when an earlier resumption was cut short between its RECEIVED record and
  its queueing (`Idempotency.CrashedResumptionIsLost`).
- A mission payload whose first defect is a number that `int()` or `float()` cannot read escapes every handler
  (`MissionPayload.MissionRaisesExactly`, `MissionPayload.NullAttemptsRaise`): no terminal event, and a mission around it
  fails as an internal error (`Lifecycle.RaisedExactly`, `Lifecycle.MissionDoneExactly`).
- A rebuilt queued request carries the storing node's API version (`QueuedRecord.RebuiltRequest`).
- A callback still inside when the worker leaves its loop can leave a packet behind, exactly when it holds a reservation
  or is about to get one (`RecordingRuntime.StrandsExactly`).
- A stop whose deadline passes while the worker finalizes waits for the lock and then marks the finalized session
  FINALIZE_TIMEOUT (`RecordingRuntime.TimesOutExactly`).
- A failed append gives back its whole reservation although journal bytes may have landed, so the counter is short by
  exactly those bytes (`Spool.RescanAgrees`, `FrameRecording.RecordingBundle.GiveBack`); an append after it would lose its
  entry (`FrameRecording.AppendAfterFailedAppend`).
- When frames were journaled but the video is empty, a crash between unlinking the frame journal and replacing the session
  file loses the frame count; and an encoder append that failed after its whole object had landed is reported until the
  terminal record, which does not count it (`VideoFinalization.FinalizeVideoRecording`,
  `EncodedRecording.FFmpegMp4Bundle.Finalize`).
- Separate audio with bytes but no journaled chunk is unlinked, yet stays in the recorded size of the session
  (`VideoFinalization.RecordMatchesFiles`).
- Running out of quota is not among the errors recovery passes over: the first open session whose closing steps do not fit
  ends the recovery, and all later ones stay RECORDING. `SpoolRecovery.RecoverSessions` says exactly when, and
  `SpoolRecovery.LaterSessionIsLeft` is such a run.
- Temporary files a crash leaves are never removed, and a restart counts them against the quota. A recovery that starts
  over gets through every quota that let the first attempt through exactly when the steps taken had freed as much as the
  temporary files hold (`RecoveryRestart.LaterAttemptFits`); enough interruptions use up a quota that was sufficient
  (`RecoveryRestart.InterruptionsUseUpQuota`).
- An encoder that writes more than it reserved takes the spool over quota, since the books move before the error is raised
  (`Spool.CommitKeepsQuota`); reservations between 8 MiB and 12 MiB are granted although the encoder limits do not fit them
  (`EncodedRecording.LimitsFit`).

## Model

| member | source | states |
|---|---|---|
| `MissionGraph.ValidateSubtaskGraph` | task_orchestrator_core/task_orchestrator_core/system_tasks/mission.py:228-258 | accepts exactly the payloads with unique ids, known dependencies and no cycle, in that order of complaint; names all duplicate ids, the first subtask with unknown dependencies and all of them, or an id on a real cycle; acceptance yields a dependencies-first order and a rank |
| `MissionGraph.GraphVisitor.Visit` | task_orchestrator_core/task_orchestrator_core/system_tasks/mission.py:246-255 | the recursive visit terminates; an id it reports lies on a cycle, otherwise the id ends up visited with the call stack unchanged and every finished id after its dependencies |
| `MissionGraph.FindCycle` | task_orchestrator_core/task_orchestrator_core/system_tasks/mission.py:242-258 | visiting every id reports nothing if and only if the graph has no cycle |
| `MissionGraph.DuplicatedIds` | task_orchestrator_core/task_orchestrator_core/system_tasks/mission.py:229-232 | exactly the ids that occur more than once; empty exactly when ids are unique |
| `MissionGraph.StackClosesCycle` | task_orchestrator_core/task_orchestrator_core/system_tasks/mission.py:249-250 | meeting an id that is being visited closes a cycle through it |
| `MissionGraph.FinishOrderIsRank` | task_orchestrator_core/task_orchestrator_core/system_tasks/mission.py:251-255 | the order in which visits finish ranks every dependency below its dependent |
| `MissionGraph.RankedIsAcyclic` | task_orchestrator_core/task_orchestrator_core/system_tasks/mission.py:228-258 | a graph with a rank has no cycle |
| `MissionExecution.MissionIsReported` | task_orchestrator_core/task_orchestrator_core/orchestrator_node.py:1113-1328 | for all child outcomes and clocks: unless the mission breaks off, each subtask is reported exactly once, every started subtask ran after its dependencies in an earlier wave, its wave is its dependency depth, order is by wave then payload position; completion means the graph was valid, no runnable subtask that it was not; it breaks off if and only if its run, after a true history of subtasks that were DONE or skipped, comes to a ready subtask one of whose attempts escapes at the call number reached |
| `MissionExecution.MissionAbortsExactly` | task_orchestrator_core/task_orchestrator_core/orchestrator_node.py:1184-1225 | a mission breaks off exactly when its run, step by step, comes to a subtask that makes an attempt which escapes |
| `MissionExecution.RunIsSound` | task_orchestrator_core/task_orchestrator_core/orchestrator_node.py:1155-1328 | at every point of a run what is recorded is true, what ran was DONE or skipped, every wave began in time, and the subtask to run next waits for nothing |
| `MissionExecution.DoneMeansAllContinue` | task_orchestrator_core/task_orchestrator_core/orchestrator_node.py:1306-1328 | a mission ends DONE exactly when every subtask it reports succeeded or was skipped |
| `MissionExecution.SubtaskRunMeets` | task_orchestrator_core/task_orchestrator_core/orchestrator_node.py:1184-1225 | running a subtask gives no result if and only if it is run and an attempt it makes escapes; otherwise the result its conditions and attempts allow |
| `MissionExecution.AttemptsMeet` | task_orchestrator_core/task_orchestrator_core/orchestrator_node.py:1399-1465 | the retry loop gives no result if and only if an attempt escapes of which all earlier ones were made and tried again; otherwise it makes exactly the attempts its rule asks for and reports the last one |
| `MissionExecution.AttemptsMade` | task_orchestrator_core/task_orchestrator_core/orchestrator_node.py:1399-1484 | a subtask that was run made as many attempts as it took until one was DONE, was canceled, failed with a code that is not retried, or none was left |
| `MissionExecution.SubtaskRunIsUnique` | task_orchestrator_core/task_orchestrator_core/orchestrator_node.py:1399-1465 | the retry specification determines the result |
| `MissionExecution.AttemptIdsDistinct` | task_orchestrator_core/task_orchestrator_core/orchestrator_node.py:1467-1470 | no two attempts of a subtask share a task id |
| `MissionExecution.ReadyPositions` | task_orchestrator_core/task_orchestrator_core/orchestrator_node.py:1330-1354 | exactly the remaining subtasks whose dependencies are DONE or SKIPPED, in payload order |
| `MissionExecution.SubtaskIndex` | task_orchestrator_core/task_orchestrator_core/orchestrator_node.py:1377-1381 | the 1-based payload position of the first subtask with that id, zero when absent |
| `MissionExecution.PendingResultsCover` | task_orchestrator_core/task_orchestrator_core/orchestrator_node.py:1495-1529 | pending results name each remaining subtask exactly once |
| `MissionExecution.PendingResultsAre` | task_orchestrator_core/task_orchestrator_core/orchestrator_node.py:1495-1529 | whoever will not run is reported in payload order under its own ids and name, with the status and code given, no attempt and not as skipped |
| `MissionExecution.AttemptIdsNumbered` | task_orchestrator_core/task_orchestrator_core/orchestrator_node.py:1467-1470 | the first attempt goes under the subtask's task id, every later one under that id and its number |
| `MissionExecution.WaveIsDepth` | task_orchestrator_core/task_orchestrator_core/orchestrator_node.py:1155-1188 | the wave announced for a subtask is the length of its longest dependency chain |
| `MissionExecution.WavesAreGraphHeight` | task_orchestrator_core/task_orchestrator_core/orchestrator_node.py:1306-1318 | the wave count of a completed mission is the height of the graph |
| `MissionExecution.NoReadyMeansInvalid` | task_orchestrator_core/task_orchestrator_core/orchestrator_node.py:1160-1182 | nothing ready while subtasks remain is impossible on a graph the parser accepts |
| `MissionExecution.StuckSetHasCycle` | task_orchestrator_core/task_orchestrator_core/orchestrator_node.py:1160-1161 | subtasks that all wait for one another contain a cycle |
| `MissionExecution.FinishedMeansValid` | task_orchestrator_core/task_orchestrator_core/orchestrator_node.py:1306-1328 | a mission that ran every subtask had a valid graph |
| `MissionExecution.GivenUpIsReported` | task_orchestrator_core/task_orchestrator_core/orchestrator_node.py:1261-1304 | failure, cancellation and deadline exits report the run subtasks and then every other one as pending or canceled |
| `Lifecycle.MissionDoneExactly` | task_orchestrator_core/task_orchestrator_core/orchestrator_node.py:705-781 | a mission whose attempts are calls of the executor itself is answered with an internal error if one of the attempts it made met a preparation that raises; otherwise it ends DONE exactly when every subtask was DONE or skipped and its deadline held, and its report covers every subtask once |
| `Lifecycle.MissionBreaksExactly` | task_orchestrator_core/task_orchestrator_core/orchestrator_node.py:1390-1465 | a mission breaks off if and only if its run comes to an attempt whose preparation raises what no handler names, every attempt before it having been tried again and every subtask before it DONE or skipped |
| `Lifecycle.RaisedExactly` | task_orchestrator_core/task_orchestrator_core/orchestrator_node.py:554-601 | a call raises exactly when nothing turns the request away and its preparation raises; for a mission that gets to its payload, exactly when the first defect of the payload is a number that cannot be read |
| `Lifecycle.Executor.ExecuteTask` | task_orchestrator_core/task_orchestrator_core/orchestrator_node.py:432-801 | the reply is the one its surroundings determine; a call publishes exactly one terminal event with it, as its last act, and stores the same answer; it leaves the active registry and the calls around it as they were; it publishes none exactly when it was answered from the store or its own preparation raised what no handler names; holds through missions at any depth |
| `Lifecycle.Executor.Prepare` | task_orchestrator_core/task_orchestrator_core/orchestrator_node.py:803-811 | the payload is read subtask by subtask and its graph checked last; a mission is prepared exactly when both succeed, with the subtasks read |
| `Lifecycle.PreparedExactly` | task_orchestrator_core/task_orchestrator_core/orchestrator_node.py:803-811 | a mission is prepared exactly when its payload is accepted and describes a valid graph, and runs the subtasks its payload describes |
| `Lifecycle.UnpreparedExactly` | task_orchestrator_core/task_orchestrator_core/orchestrator_node.py:554-601 | which rejection a failed preparation is answered with |
| `Lifecycle.TurnedAwayExactly` | task_orchestrator_core/task_orchestrator_core/orchestrator_node.py:449-552 | what a repeated, malformed, unknown, duplicate, queued-out or denied request is answered |
| `Lifecycle.BackendAnsweredExactly` | task_orchestrator_core/task_orchestrator_core/orchestrator_node.py:705-789 | a request that reaches its backend is DONE if and only if that returned DONE in time or canceled with cancel reported as success, CANCELED if and only if it returned that or canceled otherwise, and each error code stands for the ending that causes it |
| `Lifecycle.MissionAnsweredExactly` | task_orchestrator_core/task_orchestrator_core/orchestrator_node.py:1113-1328 | an accepted mission is DONE if all its subtasks ran, each DONE or skipped, and its deadline held; otherwise it has the status and code of the first subtask that was neither, or DEADLINE_EXCEEDED, or INTERNAL_ERROR when it broke off |
| `Lifecycle.ResultIsLastReply` | task_orchestrator_core/task_orchestrator_core/orchestrator_node.py:1399-1465 | the result of a subtask says what the call of its last attempt replied |
| `Lifecycle.NamedRunFirst` | task_orchestrator_core/task_orchestrator_core/orchestrator_node.py:1330-1354 | at every point of the run of an accepted mission, each subtask started was preceded, in an earlier wave, by every subtask its payload names under depends_on, and that one was DONE or skipped |
| `Lifecycle.NamedReportedFirst` | task_orchestrator_core/task_orchestrator_core/orchestrator_node.py:1330-1354 | the same of what an ended mission reports |
| `Lifecycle.Executor.PreparationAnswer` | task_orchestrator_core/task_orchestrator_core/orchestrator_node.py:556-601 | which rejection each refusal of the preparation is answered with |
| `MissionPayload.ParseSubtaskFollows` | task_orchestrator_core/task_orchestrator_core/system_tasks/mission.py:109-200 | a subtask is accepted exactly when every check on its members passes, and otherwise refused or left with an exception exactly as its first check that does not pass says |
| `MissionPayload.SubtaskIsDescribed` | task_orchestrator_core/task_orchestrator_core/system_tasks/mission.py:186-200 | an accepted subtask has the ids, names, dependencies, error codes, attempt count, skipping and condition its members give, each from the first place that has it, and the defaults otherwise |
| `MissionPayload.DescribesUnique` | task_orchestrator_core/task_orchestrator_core/system_tasks/mission.py:109-200 | which leaves no freedom |
| `MissionPayload.SubtasksAreDescribed` | task_orchestrator_core/task_orchestrator_core/system_tasks/mission.py:73-76 | the subtasks stand in the order of the items, counted from one |
| `MissionPayload.MissionRaisesExactly` | task_orchestrator_core/task_orchestrator_core/system_tasks/mission.py:54-78 | parsing raises what no handler names if and only if the first defect of the payload, in the order it is read, is a number that cannot be read; it accepts exactly the payloads without defect whose graph is valid, as the subtasks they describe |
| `MissionPayload.NullAttemptsRaise` | task_orchestrator_core/task_orchestrator_core/system_tasks/mission.py:137-141 | a payload that raises: one subtask whose attempt count is null |
| `Lifecycle.Executor.ExecuteMission` | task_orchestrator_core/task_orchestrator_core/orchestrator_node.py:1113-1328 | the loop over waves, with children executed by the same executor, ends as the specified mission does |
| `Lifecycle.Executor.RunWave` | task_orchestrator_core/task_orchestrator_core/orchestrator_node.py:1184-1304 | one wave runs the ready subtasks in payload order until one neither succeeds nor is skipped, or escapes |
| `Lifecycle.Executor.RunSubtask` | task_orchestrator_core/task_orchestrator_core/orchestrator_node.py:1214-1225 | a skip or abort condition decides the subtask without an attempt |
| `Lifecycle.Executor.ExecuteMissionSubtask` | task_orchestrator_core/task_orchestrator_core/orchestrator_node.py:1390-1465 | the retry loop, each attempt a call of the executor under its own id |
| `Lifecycle.Executor.Publish` | task_orchestrator_core/task_orchestrator_core/orchestrator_node.py:4100-4143 | a terminal event closes the call that publishes it, with the stored record |
| `Idempotency.StartsOnceExactly` | task_orchestrator_core/task_orchestrator_core/orchestrator_node.py:1739-1789 | over all runs and restarts the backend starts at most once per idempotency key if and only if no task id is ever submitted with two different keys |
| `Idempotency.SecondKeyForgetsFirst` | task_orchestrator_core/task_orchestrator_core/storage.py:45-151 | a second key under one id overwrites the row, and after a restart the first key starts again |
| `Idempotency.StepKeepsInv` | task_orchestrator_core/task_orchestrator_core/orchestrator_node.py:465-491 | claims, records, running calls and starts stay consistent across every step, restarts included |
| `Idempotency.RunKeepsInv` | task_orchestrator_core/task_orchestrator_core/orchestrator_node.py:465-491 | the same over whole runs |
| `Idempotency.SpentIsRefused` | task_orchestrator_core/task_orchestrator_core/orchestrator_node.py:1745-1765 | a key whose newest record is no longer QUEUED never proceeds |
| `Idempotency.RepeatIsAnswered` | task_orchestrator_core/task_orchestrator_core/orchestrator_node.py:1739-1780 | a request that does not proceed is answered with the stored terminal result of the task that claimed its key, or else of the newest record with it, and rejected as long as there is none; it never proceeds once its key was claimed or started, and always without a key |
| `Idempotency.ResumesExactly` | task_orchestrator_core/task_orchestrator_core/orchestrator_node.py:1745-1759 | after a restart a request proceeds exactly when its key has no record or its own QUEUED record is the newest |
| `Idempotency.ProceedsByLastRecord` | task_orchestrator_core/task_orchestrator_core/orchestrator_node.py:1739-1759 | over all runs, restarts included: a request proceeds after the next restart if and only if no step recorded its key, or the last one that did was its own queueing |
| `Idempotency.QueuedResumesExactly` | task_orchestrator_core/task_orchestrator_core/orchestrator_node.py:1574-1576 | a call that was queued resumes at the next restart if and only if its record is still QUEUED and no malformed request with its key was recorded since |
| `Idempotency.CrashedResumptionIsLost` | task_orchestrator_core/task_orchestrator_core/orchestrator_node.py:491 | a resuming request that a crash stops after its RECEIVED record never resumes, and its backend never starts in any continuation |
| `Idempotency.MalformedShadowsQueued` | task_orchestrator_core/task_orchestrator_core/orchestrator_node.py:449-463 | after a malformed request with the same key, under another id or the same one, the queued one is answered with the rejection at the restart, and in no continuation does a request with that key proceed or start its backend |
| `Idempotency.DormantForever` | task_orchestrator_core/task_orchestrator_core/orchestrator_node.py:1739-1789 | once a key is spent and no call carries it, no continuation lets it proceed or start again |
| `Idempotency.IdempotencyGate.ClaimOrGet` | task_orchestrator_core/task_orchestrator_core/orchestrator_node.py:1739-1780 | the check in place gives the specified answer and claims the key exactly when the request proceeds |
| `Idempotency.IdempotencyGate.TaskRecordByKey` | task_orchestrator_core/task_orchestrator_core/storage.py:184-198 | the newest record with that key |
| `Idempotency.IdempotencyGate.WriteTaskRecord` | task_orchestrator_core/task_orchestrator_core/storage.py:45-151 | an upsert by task id under a growing stamp |
| `Idempotency.WriteKeepsSpent` | task_orchestrator_core/task_orchestrator_core/storage.py:70-107 | an upsert does not revive a spent key unless it queues a record of that key |
| `Admission.StartsExactly` | task_orchestrator_core/task_orchestrator_core/policy.py:35-143 | a task starts if and only if it is admissible and compatible with every active task not ignored; POLICY_REJECTED exactly when not admissible, RESOURCE_CONFLICT otherwise |
| `Admission.FirstHitFinds` | task_orchestrator_core/task_orchestrator_core/policy.py:55-119 | each scan returns the first conflicting task, or none exactly when there is none |
| `Admission.BlockingIdsFind` | task_orchestrator_core/task_orchestrator_core/policy.py:64-75 | the blocking tasks named are exactly the active blocking ones not ignored |
| `Admission.AdmissionErrorMeans` | task_orchestrator_core/task_orchestrator_core/policy.py:123-150 | no admission error exactly when every admission requirement holds; otherwise the first that does not, in order |
| `Admission.ConflictNames` | task_orchestrator_core/task_orchestrator_core/policy.py:56-121 | a conflict names an active task, not ignored, that it is with; a blocked start names exactly the blocking ones |
| `Admission.StartPolicyDecision` | task_orchestrator_core/task_orchestrator_core/orchestrator_node.py:1892-1921 | control tasks always start; a non-reentrant task only once every same-named one acknowledged its cancellation; a denial is POLICY_REJECTED exactly when all did and the task is not admissible, RESOURCE_CONFLICT otherwise |
| `Admission.ActiveTogether` | task_orchestrator_core/task_orchestrator_core/policy.py:64-119 | two active non-control tasks, neither admitted past the other, share no resource, no group and no locked zone, and the older does not block |
| `Admission.AdmitKeepsSound` | task_orchestrator_core/task_orchestrator_core/orchestrator_node.py:608-640 | admission keeps pairwise compatibility exactly when the new task is compatible with every active one its grant does not name |
| `Admission.DropKeepsSound` | task_orchestrator_core/task_orchestrator_core/active_tasks.py:60-61 | so does removal |
| `Admission.RestatusKeepsSound` | task_orchestrator_core/task_orchestrator_core/orchestrator_node.py:3407-3418 | and pausing or resuming |
| `Admission.ActiveTaskRegistry.constructor` | task_orchestrator_core/task_orchestrator_core/active_tasks.py:52-53 | starts empty and sound |
| `Admission.ActiveTaskRegistry.Add` | task_orchestrator_core/task_orchestrator_core/active_tasks.py:55-58 | adds unless the id is active, and keeps pairwise compatibility exactly when the entry fits in |
| `Admission.ActiveTaskRegistry.Remove` | task_orchestrator_core/task_orchestrator_core/active_tasks.py:60-61 | takes out exactly that id and returns its entry |
| `Admission.ActiveTaskRegistry.Get` | task_orchestrator_core/task_orchestrator_core/active_tasks.py:63-64 | the entry under an id |
| `Admission.ActiveTaskRegistry.SetStatus` | task_orchestrator_core/task_orchestrator_core/orchestrator_node.py:3407-3418 | replaces the entry by its copy with the new status and returns it |
| `Admission.ActiveTaskRegistry.List` | task_orchestrator_core/task_orchestrator_core/active_tasks.py:81-82 | every active task once, oldest creation time first |
| `Admission.ActiveTaskRegistry.Matching` | task_orchestrator_core/task_orchestrator_core/active_tasks.py:66-79 | exactly the tasks that meet the given ids, source and correlation id, each once, oldest first |
| `Admission.ActiveTaskRegistry.TryStart` | task_orchestrator_core/task_orchestrator_core/orchestrator_node.py:534-552 | decision and admission together: allowed exactly when admissible and compatible with every active task it may not overlook; a denial carries the code the failed condition gives |
| `TaskQueue.RunKeepsPlacesExactly` | task_orchestrator_core/task_orchestrator_core/orchestrator_node.py:508-521 | over a run every waiter keeps its place or leaves by its own exit if and only if no request joins, with room, under an id that is waiting |
| `TaskQueue.KeepsPlaceExactly` | task_orchestrator_core/task_orchestrator_core/orchestrator_node.py:1553-1613 | the same for one step of any run, the steps of displaced waiters included |
| `TaskQueue.NoOvertaking` | task_orchestrator_core/task_orchestrator_core/orchestrator_node.py:1599-1613 | in every run without such a join, nobody is admitted past a ready waiter of higher priority, or of equal priority and earlier arrival |
| `TaskQueue.JoinWaits` | task_orchestrator_core/task_orchestrator_core/orchestrator_node.py:1564-1573 | a request that finds room waits under the id, priority and ready time it asked for, behind everyone who came before |
| `TaskQueue.AdmittedWhenDue` | task_orchestrator_core/task_orchestrator_core/orchestrator_node.py:1577-1613 | over runs: a waiter is withdrawn exactly when canceled, expired exactly when past its deadline and not canceled, and admitted only when the policy allows it at a time not before the one its request asked for |
| `TaskQueue.NoRequestOvertakes` | task_orchestrator_core/task_orchestrator_core/orchestrator_node.py:1599-1613 | when a request is admitted, every one that joined, is due and has not left has no higher priority, and with the same priority did not join earlier |
| `TaskQueue.AdmittedExactly` | task_orchestrator_core/task_orchestrator_core/orchestrator_node.py:1599-1613 | a request is admitted at its turn if and only if it is not canceled or expired, allowed and due, and no request that waits and is due has higher priority, or the same and joined earlier |
| `TaskQueue.StaysUntilExit` | task_orchestrator_core/task_orchestrator_core/orchestrator_node.py:1577-1613 | there an entry leaves the queue only by its own waiter |
| `TaskQueue.RunFits` | task_orchestrator_core/task_orchestrator_core/orchestrator_node.py:1553-1573 | the queue never exceeds a positive maximum and sequence numbers stay unique |
| `TaskQueue.StepFits` | task_orchestrator_core/task_orchestrator_core/orchestrator_node.py:1552-1618 | every step keeps both |
| `TaskQueue.HeadIsUnique` | task_orchestrator_core/task_orchestrator_core/orchestrator_node.py:1698-1703 | there is at most one head |
| `TaskQueue.HeadExists` | task_orchestrator_core/task_orchestrator_core/orchestrator_node.py:1698-1702 | while anything is ready there is one |
| `TaskQueue.HeadByIdIsHead` | task_orchestrator_core/task_orchestrator_core/orchestrator_node.py:1703 | comparing ids finds the head when a waiter has its own entry in the queue |
| `TaskQueue.DisplacedAdmittedExactly` | task_orchestrator_core/task_orchestrator_core/orchestrator_node.py:1698-1703 | a waiter that lost its entry is admitted exactly when it is ready and allowed and another entry under its id is the head |
| `TaskQueue.StrandedUntilJoin` | task_orchestrator_core/task_orchestrator_core/orchestrator_node.py:508-521 | with nothing under its id it is not admitted before a request joins under that id |
| `TaskQueue.ThirdRequestFreesStranded` | task_orchestrator_core/task_orchestrator_core/orchestrator_node.py:508-521 | a run in which the second of two waiters under one id is stranded, and a third request lets it in and is stranded in turn |
| `TaskQueue.DocumentedOrderAgreesExactly` | task_orchestrator_core/task_orchestrator_core/orchestrator_node.py:1698-1710 | head order and documented order agree on every part of a queue at every time if and only if entries ready earlier come first by priority and arrival anyway |
| `TaskQueue.WaitQueue.constructor` | task_orchestrator_core/task_orchestrator_core/orchestrator_node.py:1552-1565 | starts empty |
| `TaskQueue.WaitQueue.Enqueue` | task_orchestrator_core/task_orchestrator_core/orchestrator_node.py:1552-1573 | turns away at the maximum, else appends the request, as asked, under the next sequence number |
| `TaskQueue.WaitQueue.Leave` | task_orchestrator_core/task_orchestrator_core/orchestrator_node.py:1603-1618 | whatever stands under the id is taken away |
| `TaskQueue.WaitQueue.IsQueueHead` | task_orchestrator_core/task_orchestrator_core/orchestrator_node.py:1698-1703 | true exactly when the head carries the id |
| `TaskQueue.WaitQueue.Poll` | task_orchestrator_core/task_orchestrator_core/orchestrator_node.py:1577-1618 | cancel before deadline before admission; every exit removes the entry, waiting changes nothing |
| `QueuedRecord.RebuiltRequest` | task_orchestrator_core/task_orchestrator_core/orchestrator_node.py:2062-2080 | a queued request survives storage and restart in every field but its API version, which becomes the storing node's; exactly when that version and the output fields agree is it unchanged |
| `QueuedRecord.QueuedColumns` | task_orchestrator_core/task_orchestrator_core/orchestrator_node.py:1674-1696 | the table holds a queued request column by column under its own names, QUEUED and not active |
| `QueuedRecord.RowRoundTrip` | task_orchestrator_core/task_orchestrator_core/storage.py:543-590 | reading a written record gives it back as synchronised |
| `QueuedRecord.ReadyTimeSurvives` | task_orchestrator_core/task_orchestrator_core/orchestrator_node.py:1791-1801 | the ready time recomputed later is the maximum of the clock and the original ready time |
| `QueuedRecord.ReadyTimeIsFirstDue` | task_orchestrator_core/task_orchestrator_core/orchestrator_node.py:1791-1801 | the ready time is the first that neither the clock, nor the schedule, nor the delay since creation speaks against |
| `EventLog.CacheListsPrefix` | task_orchestrator_core/task_orchestrator_core/orchestrator_node.py:1947-1955 | for every filter and limit the cached listing is a prefix of the durable one, and equal exactly when the limit is filled or no evicted event matches |
| `EventLog.ConditionsMatch` | task_orchestrator_core/task_orchestrator_core/storage.py:506-541 | the SQL conditions select what the in-memory matching selects |
| `EventLog.AllFieldsListed` | task_orchestrator_core/task_orchestrator_core/storage.py:506-541 | every field a request can filter on is among the conditions |
| `EventLog.NewestAre` | task_orchestrator_core/task_orchestrator_core/storage.py:291-300 | a listing goes down through the positions of the matching events and misses none |
| `EventLog.CutKeeps` | task_orchestrator_core/task_orchestrator_core/orchestrator_node.py:1947-1954 | a positive limit keeps that many from the front, any other keeps all |
| `EventLog.EventStore.SetEventRecord` | task_orchestrator_core/task_orchestrator_core/orchestrator_node.py:4050-4057 | the cache stays the newest events of the table up to its limit |
| `EventLog.EventStore.ListCached` | task_orchestrator_core/task_orchestrator_core/orchestrator_node.py:1947-1954 | lists matching cached events newest first, a prefix of the durable listing, all of it while nothing was evicted |
| `EventLog.EventStore.ListStored` | task_orchestrator_core/task_orchestrator_core/storage.py:291-300 | lists matching stored events newest first up to the limit |
| `AgentRegistry.VerifyPassesExactly` | task_orchestrator_core/task_orchestrator_core/agent_registry.py:184-201 | verification passes exactly for a live agent presenting the token of its own unreleased, unexpired lease |
| `AgentRegistry.PerformKeepsValid` | task_orchestrator_core/task_orchestrator_core/agent_registry.py:56-229 | every operation keeps leases under their mission with issued tokens |
| `AgentRegistry.WhatKillsAToken` | task_orchestrator_core/task_orchestrator_core/agent_registry.py:117-182 | replacing, releasing or outliving a token kills it |
| `AgentRegistry.DeadStaysDead` | task_orchestrator_core/task_orchestrator_core/agent_registry.py:117-229 | no operation revives a dead token |
| `AgentRegistry.DeadForever` | task_orchestrator_core/task_orchestrator_core/agent_registry.py:172-201 | over every run under a monotone clock a dead token opens and releases nothing again |
| `AgentRegistry.LaterTokenFencesEarlier` | task_orchestrator_core/task_orchestrator_core/agent_registry.py:184-201 | once another token has opened a mission the earlier one never does again |
| `AgentRegistry.OnlyForceTakesActiveLease` | task_orchestrator_core/task_orchestrator_core/agent_registry.py:137-146 | an active lease changes hands exactly by a forced claim of another live agent, under a fresh token |
| `AgentRegistry.TokenPinsOwner` | task_orchestrator_core/task_orchestrator_core/agent_registry.py:147-168 | renewal keeps token, holder and claim time; takeover keeps the task id |
| `AgentRegistry.HeartbeatRevives` | task_orchestrator_core/task_orchestrator_core/agent_registry.py:214-221 | a heartbeat before expiry makes a stale lease pass again under the same token |
| `AgentRegistry.ClaimGrantsExactly` | task_orchestrator_core/task_orchestrator_core/agent_registry.py:117-170 | a claim is granted exactly when a live agent asks properly and the mission is free, its own, or taken by force; the lease, new, renewed or taken over, runs from now for the seconds asked, or the default, under the token and claim time that go with it |
| `AgentRegistry.ClaimRefusal` | task_orchestrator_core/task_orchestrator_core/agent_registry.py:128-146 | why a claim is refused, in the order of the checks; nothing changes then |
| `AgentRegistry.RegisterBeats` | task_orchestrator_core/task_orchestrator_core/agent_registry.py:56-88 | a heartbeat registers the agent from now for the timeout asked, or the default, and keeps its first registration |
| `AgentRegistry.ReleaseEnds` | task_orchestrator_core/task_orchestrator_core/agent_registry.py:172-182 | a release passes exactly when a verification does, and ends the lease at once |
| `AgentRegistry.VerifyRefusal` | task_orchestrator_core/task_orchestrator_core/agent_registry.py:184-201 | why a verification is refused |
| `AgentRegistry.SetTaskIdOnly` | task_orchestrator_core/task_orchestrator_core/agent_registry.py:206-212 | the lease answered has the new task id; nothing else changes |
| `AgentRegistry.LeasePassesExactly` | task_orchestrator_core/task_orchestrator_core/agent_registry.py:117-229 | over runs: between a granted claim and the next one or a release, a verification passes if and only if it is the holder under the token granted, before the seconds asked are over and before the timeout of the last heartbeat is |
| `AgentRegistry.SecToNsIsWhole` | task_orchestrator_core/task_orchestrator_core/agent_registry.py:243-244 | seconds become whole nanoseconds, cut towards zero |
| `AgentRegistry.StripTrims` | task_orchestrator_core/task_orchestrator_core/agent_registry.py:67 | ids lose exactly the white space around them |
| `AgentRegistry.AgentRegistry.constructor` | task_orchestrator_core/task_orchestrator_core/agent_registry.py:50-54 | both dictionaries start empty, defaults at least a millisecond |
| `AgentRegistry.AgentRegistry.RegisterAgent` | task_orchestrator_core/task_orchestrator_core/agent_registry.py:56-88 | a heartbeat: the registration is replaced, its first registration time kept; refused without an id, a JSON object or a positive timeout, with nothing changed |
| `AgentRegistry.AgentRegistry.ClaimMission` | task_orchestrator_core/task_orchestrator_core/agent_registry.py:117-170 | renews, takes over or refuses as the claim rules say, and only a new token is newly issued; AgentRegistry.ClaimGrantsExactly says when and with what lease |
| `AgentRegistry.AgentRegistry.ReleaseMission` | task_orchestrator_core/task_orchestrator_core/agent_registry.py:172-182 | a verified lease becomes released and expired at once; a refusal changes nothing |
| `AgentRegistry.AgentRegistry.SetMissionTaskId` | task_orchestrator_core/task_orchestrator_core/agent_registry.py:206-212 | only the task id of that mission changes |
| `RecordingRuntime.EveryRunIsSound` | task_orchestrator_media/task_orchestrator_media/runtime.py:178-286 | in every interleaving of callbacks, worker thread and stop requests with their deadlines, queued bytes equal the bytes queued, reserved and in hand and stay within the limit; every offered packet is in exactly one place; writes follow the put order; counters agree |
| `RecordingRuntime.StepInv` | task_orchestrator_media/task_orchestrator_media/runtime.py:178-286 | each step keeps all of that |
| `RecordingRuntime.InitInv` | task_orchestrator_media/task_orchestrator_media/runtime.py:133-154 | a new worker satisfies it |
| `RecordingRuntime.ReleasesNeverClamp` | task_orchestrator_media/task_orchestrator_media/runtime.py:191-193 | giving bytes back is never cut off at zero |
| `RecordingRuntime.CleanExitDrains` | task_orchestrator_media/task_orchestrator_media/runtime.py:238-279 | an exit without error and without a callback under way leaves the queue empty, the bundle in put order and the counts equal to its contents |
| `RecordingRuntime.StrandsExactly` | task_orchestrator_media/task_orchestrator_media/runtime.py:178-193 | from a state just after the loop was left empty and without error, a continuation leaves a packet behind if and only if a callback holds a reservation, or passed the flag check with a packet the byte bound admits; for any number of callbacks and any bound |
| `RecordingRuntime.LeavesWithOneReserved` | task_orchestrator_media/task_orchestrator_media/runtime.py:178-193 | such a state is reached from the start with any admitted packet |
| `RecordingRuntime.StoppingWorkerAdvances` | task_orchestrator_media/task_orchestrator_media/runtime.py:238-279 | once stopping and without new packets the worker has a step until its thread has exited, and gets closer to that with each |
| `RecordingRuntime.TimesOutExactly` | task_orchestrator_media/task_orchestrator_media/runtime.py:219-231 | from any state, finalized or not, a stop can still overwrite the session with FINALIZE_TIMEOUT if and only if the thread has not exited or a stop has found it alive after its deadline |
| `RecordingRuntime.ReserveDropsExactly` | task_orchestrator_media/task_orchestrator_media/runtime.py:182-188 | a packet is dropped at once exactly when its bytes and those queued, reserved and in hand exceed the bound |
| `RecordingRuntime.QueueRefusesExactly` | task_orchestrator_media/task_orchestrator_media/runtime.py:189-193 | a reserved packet is turned away exactly when the queue is full, and dropped only then; what is offered before stopping is let in |
| `RecordingRuntime.SessionSays` | task_orchestrator_media/task_orchestrator_media/runtime.py:259-286 | over every run the session carries the code of the last failure; without one it is RECORDING until finalized, then in the state requested at that moment |
| `RecordingRuntime.RequestedIsLastAsked` | task_orchestrator_media/task_orchestrator_media/runtime.py:219-224 | the state requested is that of the last stop that asked for one, FINALIZED before any |
| `RecordingRuntime.EveryScheduleIsSound` | task_orchestrator_media/task_orchestrator_media/runtime.py:178-286 | any schedule of callbacks, worker and stop requests keeps the invariant; a clean end has drained everything |
| `RecordingRuntime.RecordingWorker.constructor` | task_orchestrator_media/task_orchestrator_media/runtime.py:133-154 | a new worker satisfies the class invariant |
| `RecordingRuntime.RecordingWorker.Drive` | task_orchestrator_media/task_orchestrator_media/runtime.py:178-286 | the object driven by any schedule keeps its invariant, ends where the schedule says, and has drained everything if it ended cleanly |
| `FilePlans.RanThen` | task_orchestrator_media/task_orchestrator_media/spool.py:615-649 | runs of counted file steps compose: files, counter, quota and crash states |
| `FilePlans.PerformedMeans` | task_orchestrator_media/task_orchestrator_media/spool.py:580-649 | a run that ends well did every step and got each past the quota; one that ran out of quota met a step that does not fit; none ever used more than its peak |
| `FilePlans.PeakNeeded` | task_orchestrator_media/task_orchestrator_media/spool.py:580-593 | from within quota a plan gets past it if and only if there is room for its peak |
| `FilePlans.RerunNeedsNoMore` | task_orchestrator_media/task_orchestrator_media/spool.py:422-463 | from any crash state of a plan, all bytes on disk plus what the whole plan may still need exceed what they were at its start by the new temporary bytes at the most, and those by the longest text of the plan |
| `FilePlans.InsideKeeps` | task_orchestrator_media/task_orchestrator_media/spool.py:225-388 | the steps of one session leave every other file alone at every crash point |
| `SpoolFiles.BooksCoverDisk` | task_orchestrator_media/task_orchestrator_media/spool.py:651-652 | every byte on disk is booked, torn, or covered by an encoder reservation |
| `SpoolFiles.BookedWrite` | task_orchestrator_media/task_orchestrator_media/spool.py:615-625 | booked bytes after a write |
| `SpoolFiles.BookedRemove` | task_orchestrator_media/task_orchestrator_media/spool.py:643-649 | booked bytes after an unlink; a booked file never exceeds the books |
| `SpoolFiles.BookedAppend` | task_orchestrator_media/task_orchestrator_media/spool.py:85-97 | booked bytes after a journal append of which a part is not paid for |
| `SpoolFiles.BookedHandOver` | task_orchestrator_media/task_orchestrator_media/spool.py:211-215 | booked bytes when encoder files become counted |
| `Spool.RescanAgrees` | task_orchestrator_media/task_orchestrator_media/spool.py:390-420 | the counter equals the size of the disk plus open reservations minus encoder files minus torn bytes; with no encoder open a rescan agrees exactly when no failed append left a byte |
| `Spool.ReleasesNeverClamp` | task_orchestrator_media/task_orchestrator_media/spool.py:609-613 | no release of a counted file or open reservation is cut off at zero |
| `Spool.CommitKeepsQuota` | task_orchestrator_media/task_orchestrator_media/spool.py:211-219 | a commit keeps every admissible store within quota if and only if the encoder wrote no more than it reserved |
| `Spool.SpoolStore.constructor` | task_orchestrator_media/task_orchestrator_media/spool.py:115-121 | a restart counts the whole disk |
| `Spool.SpoolStore.ScanUsedBytes` | task_orchestrator_media/task_orchestrator_media/spool.py:651-652 | the sum of all file sizes |
| `Spool.SpoolStore.Reserve` | task_orchestrator_media/task_orchestrator_media/spool.py:580-593 | adds the bytes or leaves the counter alone; quota refusal exactly when the sum would exceed it |
| `Spool.SpoolStore.Release` | task_orchestrator_media/task_orchestrator_media/spool.py:609-613 | subtracts, not below zero |
| `Spool.SpoolStore.AtomicWriteUntracked` | task_orchestrator_media/task_orchestrator_media/spool.py:627-637 | old or new content; at every crash point readers see one of the two |
| `Spool.SpoolStore.AtomicWriteCounted` | task_orchestrator_media/task_orchestrator_media/spool.py:615-625 | the counter moves by the change in size, on failure nothing moves |
| `Spool.SpoolStore.UnlinkCounted` | task_orchestrator_media/task_orchestrator_media/spool.py:643-649 | file and bytes go together |
| `Spool.SpoolStore.Rename` | task_orchestrator_media/task_orchestrator_media/spool.py:241-248 | moves a file without changing the books |
| `Spool.SpoolStore.WriteSnapshot` | task_orchestrator_media/task_orchestrator_media/spool.py:128-181 | image and sidecar with their bytes, or neither; every crash point is a state of writing the one and then the other |
| `Spool.SpoolStore.WritePair` | task_orchestrator_media/task_orchestrator_media/spool.py:170-180 | both files or none, through the same crash points |
| `Spool.SpoolStore.PrepareRecording` | task_orchestrator_media/task_orchestrator_media/spool.py:390-411 | session marker and reserve, or the disk and counter as before; refused exactly when the session has files; every crash point is a state of writing the one and then the other, also when the opening is taken back |
| `Spool.SpoolStore.CleanupPreparedRecording` | task_orchestrator_media/task_orchestrator_media/spool.py:413-420 | takes both files and their bytes back, the reserve first |
| `Spool.SpoolStore.ReserveExternalCapacity` | task_orchestrator_media/task_orchestrator_media/spool.py:595-607 | grants the most that request, quota and floor of free bytes allow, and refuses exactly when they do not allow the minimum |
| `Spool.SpoolStore.PrepareExternalRecording` | task_orchestrator_media/task_orchestrator_media/spool.py:192-209 | session files plus reservation, or neither, through the crash points of an opening |
| `Spool.SpoolStore.EncoderWrites` | task_orchestrator_media/task_orchestrator_media/ffmpeg_backend.py:178-181 | encoder writes leave the books alone |
| `Spool.SpoolStore.CommitExternalRecording` | task_orchestrator_media/task_orchestrator_media/spool.py:211-219 | exchanges the reservation for the actual bytes whether or not it then raises |
| `Spool.SpoolStore.ReleaseExternalRecording` | task_orchestrator_media/task_orchestrator_media/spool.py:221-223 | returns a reservation of which nothing was written |
| `Spool.ReserveText` | task_orchestrator_media/task_orchestrator_media/spool.py:406-407 | the physical reserve is the larger of 256 KiB and eight times the session record |
| `Spool.SidecarNeedsImage` | task_orchestrator_media/task_orchestrator_media/spool.py:171-172 | wherever a crash strikes, a snapshot's sidecar is never without its image |
| `Spool.ReserveNeedsSession` | task_orchestrator_media/task_orchestrator_media/spool.py:404-415 | wherever a crash strikes an opening or its cleanup, a reserve is never without its session |
| `Journal.TornJournal` | task_orchestrator_media/task_orchestrator_media/spool.py:709-722 | complete lines and a torn piece: exactly the entries whose object reached the disk come back, in order |
| `Journal.LinesOfText` | task_orchestrator_media/task_orchestrator_media/spool.py:713-721 | reading back a journal gives its entries |
| `Journal.AppendAfterTorn` | task_orchestrator_media/task_orchestrator_media/spool.py:85-88 | an append behind a torn line loses its entry unless nothing or all of the line had landed |
| `FrameRecording.RecordingBundle.constructor` | task_orchestrator_media/task_orchestrator_media/spool.py:35-51 | a new bundle has no entry |
| `FrameRecording.RecordingBundle.Append` | task_orchestrator_media/task_orchestrator_media/spool.py:61-96 | appends exactly the described entry with its bytes counted, or leaves entries and counter alone; every crash point recovers the entries, plus the new one exactly when its object and frame are on disk; over a whole run every crash point recovers a prefix of what was appended |
| `FrameRecording.NewEntryCarries` | task_orchestrator_media/task_orchestrator_media/spool.py:66-80 | the entry appended carries the frame's index, extension, size, digest, capture time, frame id, MIME type and source format |
| `FrameRecording.ExtensionIsShortName` | task_orchestrator_media/task_orchestrator_media/config.py:30-34 | an extension is a dot and one to ten letters or digits |
| `FrameRecording.RecordingBundle.Persist` | task_orchestrator_media/task_orchestrator_media/spool.py:83-96 | files and books after the reservation of an append: both move, or neither but for torn journal bytes |
| `FrameRecording.RecordingBundle.WriteFrameAndLine` | task_orchestrator_media/task_orchestrator_media/spool.py:83-96 | frame before journal line; a failure takes the frame back |
| `FrameRecording.RecordingBundle.AppendLine` | task_orchestrator_media/task_orchestrator_media/spool.py:85-88 | a journal append may be cut anywhere |
| `FrameRecording.RecordingBundle.GiveBack` | task_orchestrator_media/task_orchestrator_media/spool.py:90-91 | returning the whole reservation of a failed append leaves the counter short by exactly the journal bytes that landed |
| `FrameRecording.ReadJournal` | task_orchestrator_media/task_orchestrator_media/spool.py:709-722 | returns the decoded entries whose frame file exists, in order |
| `FrameRecording.TornAppend` | task_orchestrator_media/task_orchestrator_media/spool.py:83-89 | what a crash with k bytes of the line on disk recovers |
| `FrameRecording.RecoversEntries` | task_orchestrator_media/task_orchestrator_media/spool.py:709-722 | between appends recovery finds exactly the entries |
| `FrameRecording.AppendStages` | task_orchestrator_media/task_orchestrator_media/spool.py:83-96 | every disk state inside an append is such a crash state |
| `FrameRecording.MoreCrashes` | task_orchestrator_media/task_orchestrator_media/spool.py:83-96 | crash states of all appends recover prefixes of the entries |
| `FrameRecording.AppendAfterFailedAppend` | task_orchestrator_media/task_orchestrator_media/spool.py:67-96 | an append after one that left bytes in the journal: exactly when recovery keeps its entry, and when the failed one reappears |
| `FrameRecording.AfterAppend` | task_orchestrator_media/task_orchestrator_media/spool.py:67-89 | indices stay 1..n, frames match size and digest |
| `FrameRecording.AfterFailedAppend` | task_orchestrator_media/task_orchestrator_media/spool.py:90-96 | a failed append leaves a piece of a line whose frame is gone |
| `FrameRecording.BooksAfterAppend` | task_orchestrator_media/task_orchestrator_media/spool.py:82-89 | a successful append is fully booked |
| `FrameRecording.BooksAfterFailure` | task_orchestrator_media/task_orchestrator_media/spool.py:90-91 | a failed one leaves its journal bytes unbooked |
| `Finalization.FinalizeRecording` | task_orchestrator_media/task_orchestrator_media/spool.py:518-578 | a terminal record with the entry count, size, artifact or NO_FRAMES error; from every crash point every session still reports the same, terminal records stay, and only the last step makes this one terminal; it fails on quota only if its steps do not fit, and ends well only if they do |
| `Finalization.FramesStates` | task_orchestrator_media/task_orchestrator_media/spool.py:524-577 | every state its steps can leave keeps every report |
| `Finalization.SwapReserveForManifest` | task_orchestrator_media/task_orchestrator_media/spool.py:524-570 | the reserve goes, then the manifest comes, up to the first step that fails |
| `Finalization.FinalizeBundle` | task_orchestrator_media/task_orchestrator_media/spool.py:102-109 | the frames in memory are the frames recovery would find; the size recorded is the number of bytes in the session's frame files, which stay as they are; quota stops it only if its steps do not fit; a closed bundle changes nothing |
| `Finalization.TotalSizeOnDisk` | task_orchestrator_media/task_orchestrator_media/spool.py:527-528 | the total of the recorded sizes is the number of bytes in the frame files |
| `Finalization.TotalSizeAdds` | task_orchestrator_media/task_orchestrator_media/spool.py:527-528 | the total is additive over the entries, each counting its own size |
| `Finalization.FramesPlanFits` | task_orchestrator_media/task_orchestrator_media/spool.py:518-593 | the steps get past the quota exactly when manifest and session record fit once the reserve is gone |
| `Finalization.ReserveSuffices` | task_orchestrator_media/task_orchestrator_media/spool.py:524-526 | the terminal writes fit every store within quota if and only if they grow by no more than the reserve |
| `Finalization.MildPlan` | task_orchestrator_media/task_orchestrator_media/spool.py:237-388 | steps on files recovery does not look at, renames of finished media and the unlinking of a reserve change no report at any crash point |
| `Finalization.SnapshotReports` | task_orchestrator_media/task_orchestrator_media/spool.py:128-181 | a snapshot changes no report at any crash point |
| `Finalization.TerminalRecord` | task_orchestrator_media/task_orchestrator_media/spool.py:577 | replacing the session file by a terminal record that reports the same |
| `Finalization.SeenResumable` | task_orchestrator_media/task_orchestrator_media/spool.py:627-637 | leftover temporary files change no report |
| `Finalization.OpeningReports` | task_orchestrator_media/task_orchestrator_media/spool.py:390-411 | at every point of an opening the session is absent or reports no frames, and no other report changes |
| `Finalization.RecordingReports` | task_orchestrator_media/task_orchestrator_media/spool.py:61-96 | appending to one session changes no other report |
| `Finalization.CrashedAppendReport` | task_orchestrator_media/task_orchestrator_media/spool.py:422-463 | a crashed append is reported with the entry exactly when it landed |
| `VideoFinalization.FinalizeVideoRecording` | task_orchestrator_media/task_orchestrator_media/spool.py:225-388 | the terminal record, media files and sidecars of an MP4; at every crash point every other session reports the same and this one what its journals hold, that without frames, or what was counted; a successful run keeps the report at every crash point if and only if the journals hold what was counted and there is media for the frames; it fails on quota only if its steps do not fit, and ends well only if they do |
| `VideoFinalization.VideoStates` | task_orchestrator_media/task_orchestrator_media/spool.py:225-388 | every state its steps can leave reports one of those counts, and the same as before under that condition |
| `VideoFinalization.VideoPlanDone` | task_orchestrator_media/task_orchestrator_media/spool.py:303-387 | after the last step every artifact has its media and sidecar, what became no artifact is gone, the reserve too, and the terminal record is in the session file |
| `VideoFinalization.PlaceMedia` | task_orchestrator_media/task_orchestrator_media/spool.py:239-252 | partial files take their final names, then the reserve goes, up to the first step that fails |
| `VideoFinalization.PlacedMedia` | task_orchestrator_media/task_orchestrator_media/spool.py:239-256 | the media then has the bytes of the finished file or of the partial one |
| `VideoFinalization.PlaceOne` | task_orchestrator_media/task_orchestrator_media/spool.py:241-242 | a partial file is renamed unless the final name is taken |
| `VideoFinalization.WriteSidecars` | task_orchestrator_media/task_orchestrator_media/spool.py:303-377 | sidecars are written, separate audio that came to nothing is unlinked |
| `VideoFinalization.PlaceAndDescribe` | task_orchestrator_media/task_orchestrator_media/spool.py:239-380 | media, sidecars and session fields before the terminal steps |
| `VideoFinalization.PrepareTerminal` | task_orchestrator_media/task_orchestrator_media/spool.py:239-385 | all steps but the last |
| `VideoFinalization.ConcludeVideo` | task_orchestrator_media/task_orchestrator_media/spool.py:253-385 | counts, sizes, artifacts and error of the terminal record |
| `VideoFinalization.RecordMatchesFiles` | task_orchestrator_media/task_orchestrator_media/spool.py:253-385 | every artifact is its media file with its size and first and last capture time; the recorded size is that of the media files left, if and only if no separate audio was unlinked that had bytes but no journaled chunk |
| `VideoFinalization.DropEmptyVideo` | task_orchestrator_media/task_orchestrator_media/spool.py:382-385 | without a video artifact media and frame journal go while the session is still open |
| `VideoFinalization.DropOwn` | task_orchestrator_media/task_orchestrator_media/spool.py:383-384 | from the unlinking of the frame journal on, recovery would report no frame |
| `VideoFinalization.TerminalOver` | task_orchestrator_media/task_orchestrator_media/spool.py:387 | a terminal record decides what is reported, whatever was lost before it |
| `RecoveryRoom.PeaksSuffice` | task_orchestrator_media/task_orchestrator_media/spool.py:422-463 | room for the peaks of all open sessions gets each of them past the quota |
| `RecoveryRoom.SameSteps` | task_orchestrator_media/task_orchestrator_media/spool.py:422-463 | what a session needs depends on its own files alone |
| `RecoveryRoom.CrashedPlan` | task_orchestrator_media/task_orchestrator_media/spool.py:428-460 | a crash while a session is closed leaves it closed or with the same steps ahead |
| `RecoveryRoom.NeedGrowsByTemps` | task_orchestrator_media/task_orchestrator_media/spool.py:422-463 | at every crash point of closing a session, its reserve gone or not, all bytes on disk plus the peaks of all open sessions exceed what they were by the new temporary bytes at the most, and those are at most one text of the recovery |
| `RecoveryRoom.AllFitReach` | task_orchestrator_media/task_orchestrator_media/spool.py:422-463 | the least quota that gets every open session through |
| `RecoveryRoom.NeedAtAnotherTime` | task_orchestrator_media/task_orchestrator_media/spool.py:434 | starting over at another time needs the same room and the same quota, if times are written with as many characters |
| `RecoveryRoom.InterruptedNeed` | task_orchestrator_media/task_orchestrator_media/spool.py:422-463 | recovery interrupted any number of times needs more room than the first attempt by the temporary bytes left meanwhile at the most, which are at most one text an interruption |
| `RecoveryRestart.LaterAttemptFits` | task_orchestrator_media/task_orchestrator_media/spool.py:651-652 | for every crash state of a whole recovery: every quota that let the first attempt through lets one from there through, if and only if the steps taken had freed the temporary bytes left |
| `RecoveryRestart.InterruptionsUseUpQuota` | task_orchestrator_media/task_orchestrator_media/spool.py:627-637 | a run of interruptions that each leave the temporary file of the terminal record: the next attempt fits exactly as long as the record fits once more beside the copies left, so enough of them end every recovery of a session the first attempt could close |
| `RecoveryRestart.CrashesReport` | task_orchestrator_media/task_orchestrator_media/spool.py:422-463 | wherever a recovery is cut short, every session still reports the same |
| `FilePlans.BytesSplit` | task_orchestrator_media/task_orchestrator_media/spool.py:651-652 | a restart counts the bytes readers see plus those of temporary files |
| `FilePlans.FitsReach` | task_orchestrator_media/task_orchestrator_media/spool.py:580-593 | the least quota that lets a plan through |
| `SpoolRecovery.RecoverSession` | task_orchestrator_media/task_orchestrator_media/spool.py:428-462 | an open session becomes terminal: stopped now, with the counts, size and error that its journals and media give; any other changes nothing; it aborts only if one of the closing steps adds bytes, and without a floor of free bytes only if they do not fit the quota; only a failed system call or an unreadable record passes over; it never uses more than the peak of those steps |
| `SpoolRecovery.CloseSession` | task_orchestrator_media/task_orchestrator_media/spool.py:432-459 | closing one open session takes exactly its own steps, up to one that fails |
| `SpoolRecovery.RecoverSessions` | task_orchestrator_media/task_orchestrator_media/spool.py:422-463 | healthy spools report the same at every crash point of the loop; what is listed is terminal with its reserve gone, and is the session found, or what its journals and media make of it when it was open; without a floor of free bytes it aborts, if no system call fails, exactly when the open sessions do not all fit one after the other, and whatever fails never when there is room for their peaks; the session that did not fit and all later ones stay as they were; otherwise everything readable is listed, unless a system call failed; every crash point needs at most its new temporary bytes more room than the start; unless a system call failed the crash points are those of the specified steps; a second recovery changes nothing |
| `SpoolRecovery.Restart` | task_orchestrator_media/task_orchestrator_media/spool.py:115-121 | a store built from what a crash left counts all of it, and recovers exactly if the open sessions fit from there |
| `SpoolRecovery.RecoverAfterCrash` | task_orchestrator_media/task_orchestrator_media/spool.py:115-121 | a restart on any crash state of an earlier recovery gets through whenever the first attempt would have and the temporary bytes left had been freed, or there is room for those and for what the first needed at most; every session reports what it did before the first attempt |
| `SpoolRecovery.LaterSessionIsLeft` | task_orchestrator_media/task_orchestrator_media/spool.py:422-463 | a run in which the first session does not fit: it and the later one stay RECORDING |
| `SpoolRecovery.FullSpoolBlocksLater` | task_orchestrator_media/task_orchestrator_media/spool.py:422-463 | a full spool where the first session, its reserve gone, does not fit although the later one does |
| `SpoolRecovery.ReadVideoJournal` | task_orchestrator_media/task_orchestrator_media/spool.py:724-736 | the decoded entries in order |
| `SpoolRecovery.InterruptedRecoveries` | task_orchestrator_media/task_orchestrator_media/spool.py:422-463 | any number of interrupted recoveries still report what the first crash left |
| `EncodedRecording.LimitsSum` | task_orchestrator_media/task_orchestrator_media/ffmpeg_backend.py:143-146 | the limits sum to the reservation minus four mebibytes exactly above sixteen mebibytes |
| `EncodedRecording.LimitsShare` | task_orchestrator_media/task_orchestrator_media/ffmpeg_backend.py:143-146 | above sixteen mebibytes the video leaves that much, or a twentieth, with separate audio a fifth, whichever is more; the audio may use that without four mebibytes |
| `EncodedRecording.LimitsFit` | task_orchestrator_media/task_orchestrator_media/ffmpeg_backend.py:143-146 | they fit the reservation exactly from twelve mebibytes and a byte on, above the minimum granted |
| `EncodedRecording.EncoderStaysWithin` | task_orchestrator_media/task_orchestrator_media/ffmpeg_backend.py:208-219 | an encoder within its limits commits within its reservation and quota |
| `EncodedRecording.RetryCountsTwice` | task_orchestrator_media/task_orchestrator_media/ffmpeg_backend.py:210-220 | finalizing again would count leftover encoder files twice, exactly when there are any |
| `EncodedRecording.JournalReads` | task_orchestrator_media/task_orchestrator_media/ffmpeg_backend.py:178-182 | recovery reads the entries taken, and one more exactly when the object of a failed append landed whole |
| `EncodedRecording.CrashedChunkReads` | task_orchestrator_media/task_orchestrator_media/ffmpeg_backend.py:505-510 | so does a crash inside an append |
| `EncodedRecording.FFmpegMp4Bundle.constructor` | task_orchestrator_media/task_orchestrator_media/ffmpeg_backend.py:106-146 | opens on a reservation, without journals |
| `EncodedRecording.FFmpegMp4Bundle.AppendEntry` | task_orchestrator_media/task_orchestrator_media/ffmpeg_backend.py:167-182 | journals one entry under the reservation; the list grows exactly when every call succeeded, and a failure leaves any piece of the line |
| `EncodedRecording.FFmpegMp4Bundle.AppendLine` | task_orchestrator_media/task_orchestrator_media/ffmpeg_backend.py:505-510 | open, write, flush and fsync may each fail, with any piece of the line on disk |
| `EncodedRecording.FFmpegMp4Bundle.Settle` | task_orchestrator_media/task_orchestrator_media/ffmpeg_backend.py:214-220 | the reservation is exchanged for the actual bytes or returned; over quota it raises after the books moved |
| `EncodedRecording.FFmpegMp4Bundle.Finalize` | task_orchestrator_media/task_orchestrator_media/ffmpeg_backend.py:208-238 | settles, then finalizes, also after a failed append; a completed run keeps every report at every crash point if and only if no failed append left a whole object and there is media for the frames; otherwise its own report is one of three counts; a closed bundle changes nothing |

## Left out

Contracts that say less than the code around them:

- Spool.SpoolStore.AtomicWriteUntracked: a failure to unlink the temporary file afterwards is not modelled; such a file would stay uncounted until the next restart.
- Spool.SpoolStore.WritePair: a failure to unlink the files of a failed snapshot is swallowed by the source and not modelled.
- Spool.SpoolStore.PrepareRecording: directories are not files here; a session exists when it has a file, and creating or removing a directory never fails.
- FrameRecording.RecordingBundle.Append: needs that no earlier append left journal bytes behind, as the worker stops at the first failed append; FrameRecording.AppendAfterFailedAppend says what happens otherwise. A failure to unlink the frame of a failed append is not modelled.
- FrameRecording.ReadJournal: lines end at a newline only; a carriage return inside a JSON text is always escaped.
- Finalization.FinalizeRecording: of the manifest only its size and its presence matter; digests and metadata texts are arbitrary.
- VideoFinalization.FinalizeVideoRecording: codec, frame rate and fragment flags of the sidecar are not modelled.
- SpoolRecovery.RecoverSessions: the list of session files and the clock reading for each are parameters, the list without repetition where quota is concerned.
- SpoolRecovery.RecoverSession: opening or reading a session file or journal never fails; a file that cannot be decoded is passed over.
- RecoveryRoom.NeedGrowsByTemps: needs open encoded sessions to be whole, with no partial file beside its finished one, media for their frames and chunks for separate audio; where media and journals disagree, a recovery that starts again may write a terminal record of another length.
- EncodedRecording.FFmpegMp4Bundle.AppendEntry: needs that no earlier append to the same journal failed, as worker and audio writer stop at the first failure; sending the data to the encoder is not part of it.
- EncodedRecording.FFmpegMp4Bundle.Finalize: is called once, as the worker does; EncodedRecording.RetryCountsTwice says why.
- EncodedRecording.EncoderStaysWithin: that the encoder process respects its size limit is an assumption about FFmpeg.
- Lifecycle.Executor.ExecuteTask: calls run one after the other. Preparations other than a mission's are arbitrary, and so is what precedes the reading of a mission payload, the resolution of its template.
- MissionPayload.ParseSubtaskFollows: json.loads fails with a JSONDecodeError only; rounding is not modelled; of retry pauses and timeouts only that they are not negative matters, and of a subtask's data only that it is text or an object.
- Lifecycle.Executor.ExecuteMission: backoff pauses between attempts and feedback messages are not modelled.
- MissionGraph.GraphVisitor.Visit: Python's recursion limit is not modelled.
- Admission.ActiveTaskRegistry.TryStart: decision and admission are one step; in the source another thread can come between them. What a cancel request does to the canceled task is not modelled, only whether it is acknowledged.
- Admission.ActiveTaskRegistry.SetStatus: the removal and the addition are two calls in the source and one step here; what another thread sees or adds between them is not modelled.
- Admission.ActiveTaskRegistry.List: entries with equal creation times come in any order.
- Idempotency.IdempotencyGate.ClaimOrGet: the claim is one step and storage writes succeed; the source looks up and claims in two, and logs failed writes. Retention deletes nothing. The in-memory record cache holds the same records as the table and is not modelled apart.
- TaskQueue.WaitQueue.Poll: the policy decision, cancel flag and deadline are parameters of each pass; whether a request asks to be queued at all is decided before.
- QueuedRecord.RowRoundTrip: the JSON text of the tag list is taken as the list itself.
- EventLog.EventStore.SetEventRecord: event ids are fresh, so no event is moved or overwritten; failed table writes are not modelled.
- AgentRegistry.AgentRegistry.RegisterAgent: display name, type and capabilities pass through unchanged and are left out; stripping knows the ASCII white space only; times are exact reals.
- RecordingRuntime.EveryRunIsSound: a packet is its sequence number and size; what append does with it is in FrameRecording and EncodedRecording.

Parts of the repository with no model here:

- ROS nodes, topics, services and action servers, logging, message copying for publication: plumbing.
- Action and service backends, futures, cancellation callbacks: their outcomes are arbitrary.
- Listing agents and sessions, loading artifact descriptors: read-only queries.
- The ArduPilot bridge: MAVLink I/O and telemetry arithmetic.
- Parsing of JSON and YAML texts, mission templates, parameter schemas: the models start from decoded records, a mission payload from its JSON value.
- SQL text, schema migration, retention by age.
- The FFmpeg process, its pipes and audio queue, hashing, S3 upload and signed URLs.
- Spool operations of several sessions at once: the store's operations run one after the other.
- Timing of waits, human-readable messages and observability payloads.
