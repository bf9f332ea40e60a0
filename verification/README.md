# Durable execution: a verified model

The runtime executes agent programs so that a crash loses nothing. Every call a guest makes
is journaled as an intent before it runs and as a completion before the guest sees its
result. A new quantum replays the journal against the same deterministic guest, drives an
open intent at the tail again, and goes on from there. A restart or an abandoned section
forks the journal into a new revision over the same history. A call that needs a human, or a
timer, parks its process on a durable task. All durable state is one append-only event
stream per session, and a boot folds it back into memory.

This project models that core and proves what it promises, for every guest, every
interleaving of steps and every crash schedule.

## Layout

- `Sys`, `Journaled`, `Durable`: the vocabulary, the record format with its sections, and
  what the event stream holds.
- `History`, `Lineage`, `Journal`: the flat per-position history as a class, the simple form
  it refines (one sequence per revision, a fork copies a prefix), the journal store, the
  structure check and the open-section scan.
- `Replay`, `Tape`: one view's quanta as small steps with crashes between any two, and the
  tape and dispatcher as imperative code tied to those steps.
- `Flow`, `Capability`, `Tasks`: taint and labels, the grant table and its approval gate, the
  task store and the task layer.
- `Process`: one process as a state machine: its executor, its guest, its tasks, its taint
  and its part of the stream. `ProcessInv` and `ProcessSteps` hold its invariant and the
  proof that every step, a crash and a restore keep it. The theorems over its runs are in
  `ProcessSafety`, `Answers` (what guests are told), `Forking` (where journals are cut back),
  `Endings` (what a run leaves), `Provenance` (taint and labels), `TaskSafety`, `Approval`
  (how tasks are decided, and what runs under them) and `Recovery`. `ProcessLineage` shows
  that the histories of those runs are the ones the refinement is about.
- `Session`: the processes of one session over one stream. `SessionInv`, `SessionSafety`,
  `Conversation` and `Inheritance` hold its invariant and its theorems.
- `Runtime`, `Restore`: the runtime's own methods over mutable state, each proved to carry
  out the matching step of the process or session machine.
- `Pool`: the bounded worker pool, one step per channel operation.

## Assumptions

- An append to the event store succeeds or the host crashes. `EventLog` accepts a number of
  appends and then refuses every one; a method's contract about the log is stated for an
  append that is accepted, and its contract about memory, the session's holder and the
  launches either way.
- The processor passes no authorization with a call, and one manifest always yields the same
  grant table.
- Process creation times increase in lock order, though the source reads the clock before it
  takes the lock. A restart keeps the order of a session's processes if and only if their
  times, and their ids among equal times, do increase
  (`SessionInv.RebootKeepsTheOrderExactly`). Fresh ids are fresh.
- A handler below the task layer may answer, yield or fail in any way. A protocol layer's
  own answers are not yields and carry no labels of their own.
- Labels are sets. Payloads are opaque text; encoding and decoding an event is the identity.
  The journal's ABI version is a constant and is dropped. Times are in seconds, and the
  updated, started and completed times are omitted.
- The pool may refuse a submission at any time here; the source does so only while it shuts
  down.
- Each step under a lock is one step of a machine. `wake` is the retry it calls, possible at
  any time.

## What the code does not keep

These are stated and proved as they are, each with the exact condition.

- A restart can lose a session. A process interrupted by its deadline frees its session, a
  later process is created, and after a restart the fold makes the interrupted one the
  holder again, though only the latest process may be retried. From then on the session
  refuses every process and every retry. It happens if and only if a process other than the
  latest is interrupted (`SessionSafety.RebootWedgesExactly`,
  `SessionSafety.TimeoutThenRestartWedges`, `SessionSafety.WedgeIsForever`).
- A retry on a closed runtime forks in memory and is then refused, so the log and the memory
  part. It happens if and only if the step forks
  (`ProcessSafety.ClosedStepsStaySavedUnlessTheyFork`, `Recovery.ClosedRetryLosesItsFork`).
- A handler that an approved task let run, and that yields again with labels of its own,
  leaves those labels in the run's taint. The taint is the fold of completions and yields. An
  extra label, or an extra call under a label, is there if and only if some yield showed it
  and no completed call carried it (`Provenance.ExtraLabelsComeFromYieldsExactly`); such a
  yield is always an approved handler's (`Provenance.ExtraLabelsComeFromApprovedHandlers`),
  without one the taint is the fold of the completed calls
  (`Provenance.QuietLivesHandDownTheCallsLabels`), and there is a run with one
  (`Provenance.AYieldCanLeaveAnExtraLabel`).
- A task can be decided after its guest was told that it expired: a resolver reads the clock
  before it takes the store's lock (`Tasks.StaleResolverApprovesAnExpiredTask`). It happens
  if and only if a resolver with the task's token read the clock before the expiry, and took
  the lock before any sweep that found the task overdue (`Tasks.DecidedExactlyInTime`). With
  clock reads that do not go back in lock order it cannot (`Tasks.ExpiredStaysExpired`).
- A timer that is approved never fires. Driven again, a settled timer's call gets its result
  if and only if the timer was not approved (`TaskSafety.TimerAnswersUnlessApproved`); after
  an approval the call never completes in its revision, though each wake launches a quantum
  (`TaskSafety.ApprovedTimerNeverCompletes`).

## Model

| member | source | states |
|---|---|---|
| Journaled.OutermostOpenBeginMeetsItsSpec | internal/agent/journal.go:205-231 | the scan finds a section if and only if some completed begin was met at depth zero with the depth positive ever after, and forks one past its completion |
| Journaled.ForkingIsStable | internal/agent/journal.go:205-231 | the forked view has depth exactly one, and every extension that stays open forks at the same place again |
| Journaled.OpenSectionHasLength | internal/agent/recovery.go:70-79 | an open section means a length of at least two and an even offset within it, so a failure length of zero never matches |
| Journaled.DepthIsTheHighestExcess | internal/agent/journal.go:205-231 | the nesting depth is the most by which begins outnumber commits from some call on: a commit that closes nothing counts for nothing |
| History.ProcessHistory.Lookup | internal/agent/journal.go:54-69 | the record of the highest revision not above the bound |
| History.ProcessHistory.FindLength | internal/agent/journal.go:71-86 | one past the last record the revision wrote, or the fork offset |
| History.BestIsHighest | internal/agent/journal.go:54-69 | a lookup answers nothing only when no revision up to the bound wrote there, and otherwise the highest one's record |
| History.AppendExtendsTheView | internal/agent/journal.go:172-203 | an append at the tail extends the current view by exactly that record and keeps the history in order |
| History.ForkSharesThePrefix | internal/agent/processes.go:183-189 | a new revision sees exactly the records below its fork offset |
| History.ProcessHistory.Entries | internal/agent/journal.go:88-120 | lists every recorded intent of every revision once, in order, with its own revision's completion, and nothing else |
| Lineage.FlatHistoryRefinesBranches | internal/agent/journal.go:40-86 | for any interleaving of appends and forks, every revision is served exactly its own sequence to exactly its own length, and no later step changes an older one |
| Lineage.EntriesConserveTheHistory | internal/agent/journal.go:88-120 | an entry is listed if and only if its revision wrote that intent, with the completion that same revision wrote |
| Lineage.ViewIsItsEntries | internal/agent/journal.go:88-120 | each call of a view is the entry of the one revision that wrote it, completion included |
| History.OlderRevisionsSeeNoAppend | internal/agent/journal.go:54-69 | no append by a later revision changes what an older one sees |
| Lineage.EmptyAgrees | internal/agent/processes.go:55-63 | a new process's empty journal is one empty sequence |
| ProcessLineage.ReachableHistoriesAreLines | internal/agent/journal.go:40-120 | in every reachable state, crashes and closed runtimes included, the flat history is such a line: it serves every revision's sequence, the last is the current view, and its entries are exactly the calls the revisions wrote |
| Journal.LogJournal.Load | internal/agent/journal.go:172-180 | a record below the length as the revision sees it, and nothing past it |
| Journal.LogJournal.Append | internal/agent/journal.go:181-203 | accepts exactly a record for the tail; the event is logged, stamped with the revision, and the view grows by that record; a refusal changes nothing |
| Journal.LogJournal.FindOpenBegin | internal/agent/journal.go:205-231 | the one-pass scan finds a section if and only if some completed begin was met at depth zero with the depth positive ever after, and answers the offset right after it |
| Journal.Verify | journaled/tape.go:150-182 | succeeds if and only if every record loads, in position, with intents and completions alternating; otherwise names the first damage and its kind |
| Replay.NeverDiverges | journaled/tape.go:97-123 | a recorded call is served its recorded result, the open tail is driven again, and only past the end is a call fresh |
| Replay.TapeIsExact | journaled/tape.go:97-123 | for any guest, conforming or not: the k-th call asked is served the k-th completion if and only if it is the k-th recorded call, and otherwise diverges there, is open, or is past the end |
| Replay.StrayCallsAreRefused | journaled/tape.go:125-148 | a guest that keeps calling after a yield or a failure changes neither journal nor tape |
| Replay.ReplayIsFaithful | replay/replay.go:57-91 | over all runs of all deterministic guests, cut anywhere, no call diverges and a completed call is served that result in every later quantum |
| Replay.FinishedRunsAreQuiet | sim/sim_test.go:58-97 | once the guest has halted with no open intent, every later quantum appends nothing and sends no call below replay |
| Replay.HaltingMeansFinished | replay/replay.go:57-91 | a guest that halts has its whole run recorded and no intent open |
| Replay.AtLeastOnceExactly | replay/replay.go:57-91 | an intent is driven once for its completion, once for each yield or failure, once for each crash that cut it, and once if a drive is under way |
| Replay.EffectsRepeatOnlyForCutCompletions | sim/sim_test.go:36-56 | when crashes fall on appends and nothing yields or fails, a completed call ran once plus once per crash that cut its completion append |
| Replay.DrivenOncePerQuantum | replay/replay.go:57-91 | between two drives of one intent a new quantum starts |
| Tape.ReplayTape.Next | journaled/tape.go:97-123 | serves, opens, diverges or finds nothing as the recorded view decides, moving the cursor by two, one or none |
| Tape.ReplayTape.Begin | journaled/tape.go:125-138 | refuses while an intent is pending; otherwise one intent is journaled at the tail |
| Tape.ReplayTape.Commit | journaled/tape.go:140-148 | one completion is journaled for the open intent, or nothing changes |
| Tape.Dispatch | replay/replay.go:57-91 | a call reaches the layers below only with its intent open at the tail, and the guest is handed their result only once it is recorded or if it is a yield |
| Tape.OpeningIsAsking | replay/replay.go:57-91 | the dispatcher's first half is the run machine's ask step |
| Flow.FoldIsWhatCallsShowed | monitor/flow.go:58-74 | the taint holds exactly the labels the calls showed, each with exactly the calls that showed it |
| Flow.FoldIsWhatCallsCarried | monitor/flow.go:58-74 | the same for completed calls alone |
| Flow.SourcesAreInOrder | monitor/taints.go:32-50 | no source is listed twice under a label, and an earlier source is one whose first call to show the label came before the first of any later source |
| Flow.CarriedSourcesAreInOrder | monitor/taints.go:32-50 | the same for completed calls alone |
| Flow.SourceNamesItsCall | monitor/flow.go:76-98 | a source names its call's syscall and quotes its arguments up to the limit |
| Flow.QuietYieldsLeaveNoTrace | monitor/flow.go:58-74 | yields that carried no more than their completions leave the taint as it is, source order included |
| Flow.ReplayIsAbsorbed | monitor/taints.go:32-50 | observing a replayed call again changes nothing |
| Flow.ObserveTwice | monitor/taints.go:32-50 | a yield and the completion after it leave one trace |
| Flow.Taints.AddLabels | monitor/taints.go:32-50 | one process revision's taint gains exactly the labels, the source last in each of their lists unless it was there; every other is untouched |
| Flow.Taints.Snapshot | monitor/taints.go:61-68 | exactly the labels observed |
| Flow.Taints.ForgetProcess | monitor/taints.go:25-30 | releases one revision's taint and no other |
| Capability.GateIsExact | capability/dispatcher.go:28-57 | a handler runs if and only if its entry is filed at the call's own name and the operation its arguments name, and a human approved it or nothing guards it; a call with no such entry is denied, one whose case cannot be read is refused as invalid |
| Capability.StampIsTheEntrys | capability/table.go:150-168 | a result's stamp is its syscall's label and the labels of the entry filed for the call, and a marker's is empty |
| Capability.NamesOneOperation | capability/table.go:170-194 | a call names at most one operation, and none exactly when its syscall is not routed or its case cannot be read |
| Capability.Table.GatherCrossing | capability/dispatcher.go:49-57 | exactly the part of the taint the operation forbids |
| Capability.Table.Served | capability/table.go:100-120 | a family agrees on its syscall and discriminator, and names cases only with one |
| Capability.Table.Add | capability/table.go:45-76 | accepts a family if and only if it is one syscall's, its name is free and none of its operations is granted twice, and says which fails; after an accepted one every call that names a member's operation is served by that member, and a refused one leaves every route as it was |
| Capability.Table.Reserve | capability/table.go:78-90 | admits a name if and only if nothing serves or reserves it |
| Capability.Table.Hide | capability/table.go:91-98 | takes a routed syscall off the menu and changes nothing else |
| Capability.ReservedFailsClosed | capability/table.go:150-168 | a reserved name never reaches a handler |
| Capability.HidingChangesNoPolicy | capability/table.go:91-99 | hiding a syscall changes no call's routing, approval or labels |
| Tasks.SettledIsFrozen | internal/agent/taskstore.go:78-143 | in the store, whatever resolvers and sweeps follow in any order, a settled task keeps its state, resolution and time |
| TaskSafety.SettledForLife | internal/agent/taskstore.go:31-143 | over a process's whole life, its own steps, shutdowns, crashes and restores included, a settled task's record never changes |
| Tasks.DecidedExactlyInTime | internal/agent/taskstore.go:78-143 | a pending task that is no timer is decided if and only if a resolver with its token read the clock before its expiry and came before any sweep that found it overdue |
| Tasks.DecidedAsTheFirstResolverSaid | internal/agent/taskstore.go:78-143 | it ends with the decision, the resolution and the time of the first resolver that decided it, whatever resolvers and sweeps follow |
| Tasks.SweepIsExact | internal/agent/taskstore.go:110-143 | a sweep fires a pending timer whose time has come with a result, expires any other pending task past its expiry, and touches nothing else |
| Tasks.ExpiredStaysExpired | internal/agent/taskstore.go:78-143 | with clock reads that do not go back, a lapsed task never becomes approved, completed, denied or failed |
| Tasks.ToldExpiredLapses | internal/agent/task/task.go:96-103 | the guest being told of the expiry is what makes a task lapsed |
| Tasks.StaleResolverApprovesAnExpiredTask | internal/agent/tasks.go:22-36 | an earlier clock reading approves a task after its guest was told it expired |
| TaskSafety.TimerAnswersUnlessApproved | internal/agent/task/task.go:96-118 | driven again in a reachable state, a timer's call with a recorded task gets a result if and only if the task is neither pending nor approved, and parks otherwise |
| TaskSafety.ApprovedTimerNeverCompletes | internal/agent/timer.go:96-109 | after an approval a timer's call never completes in its revision, through wakes, crashes and restores, though each wake launches a quantum on the same journal |
| Tasks.TaskStore.Find | internal/agent/taskstore.go:40-49 | a task of exactly this scope and position if there is one |
| Tasks.TaskStore.Create | internal/agent/taskstore.go:51-62 | creates the task, logged, unless its id is taken |
| Tasks.TaskStore.Resolve | internal/agent/taskstore.go:78-108 | the verdict for every case, by the record's token, state, expiry and earlier resolution; exactly when it is resolved and the log accepts, the record takes the resolver's own decision, resolution and time, and one event with it is logged |
| Tasks.TaskStore.Due | internal/agent/taskstore.go:110-120 | exactly the pending tasks whose deadline passed |
| Tasks.TaskStore.Settle | internal/agent/taskstore.go:122-143 | settles a due task and logs exactly that, and leaves one that someone resolved first |
| Tasks.TaskStore.Seed | internal/agent/taskstore.go:31-38 | the folded records replace those of their ids and touch no other |
| Tasks.TaskStore.SettleDue | internal/agent/tasks.go:69-76 | settles every due task as its deadline decides and touches no other |
| Tasks.DispatchTask | internal/agent/task/task.go:50-118 | a task answers its own call or lets its stored call run as approved; otherwise the layers run and their yield becomes the task; an approval is passed down only under an Approved record of this scope and position |
| ProcessInv.WriteKeepsDurables | internal/agent/journal.go:181-203 | appending the guest's own next record keeps the log, the journal, the tasks and their agreement |
| ProcessInv.LayersFit | internal/agent/chain.go:42-98 | whatever the layers decide fits the driven call: a minted task is its own, a handler runs it under its own approved task if any |
| ProcessInv.GuestStepKeeps | monitor/stack.go:24-35 | every step of a quantum keeps the process invariant |
| ProcessSteps.StepKeeps | internal/agent/executor.go:19-107 | every step of the executor, the guest, the API and the sweep keeps the process invariant, on an open or closed runtime |
| ProcessSteps.RestoreIsSound | internal/agent/restore.go:47-98 | a restore from the log alone leaves a sound process, whatever moment the crash fell on |
| ProcessSteps.RestoreRefinesTheLiveState | internal/agent/restore.go:47-98 | when the log holds the memory's state, folding it gives back the memory less what only a quantum uses |
| ProcessSteps.RestoreIsIdempotent | internal/agent/restore.go:47-98 | a second restore appends nothing and gives the same state |
| ProcessSafety.EveryStateIsSound | internal/agent/processes.go:17-74 | the invariant holds in every state of every run, through crashes and shutdowns |
| ProcessSafety.JournalAlwaysVerifies | internal/agent/chain.go:89-97 | the structure check succeeds in every reachable state, and every fork is at an even offset within the journal |
| ProcessSafety.NoReachableCallDiverges | journaled/tape.go:97-123 | no reachable call meets a different or damaged record, after any forks, crashes and re-drives |
| ProcessSafety.AppendsFallAtTheTail | internal/agent/journal.go:181-203 | a record is written only by its own revision's quantum, at the tail, so the position check never fails |
| ProcessSafety.StepAppends | internal/agent/state.go:106-118 | a step appends at most one event, and a process state event records the state the step leaves |
| ProcessSafety.OneQuantumExactlyWhileLive | internal/agent/executor.go:19-63 | one unfinished quantum while queued, running or stopping, none otherwise, and it is the current revision's |
| ProcessSafety.QuantaNeverOverlap | internal/agent/processes.go:194-223 | a quantum is launched only when there is none, or by its own executor as its last step, with its guest ended |
| ProcessSafety.LaunchesStartAfresh | internal/agent/processes.go:194-223 | a launch counts one attempt, clears the answer, the error and any asked stop, queues a quantum of the revision the step leaves, and is logged |
| Approval.NoGuardedHandlerRunsUnapproved | capability/dispatcher.go:28-57 | over every life, a handler whose operation requires approval, or forbids a label any completed call of the view carried, is invoked only for a task of this scope, position and syscall that an earlier resolver with the task's own token approved before its expiry |
| Approval.EveryTaskStandsAsDecided | internal/agent/taskstore.go:51-143 | in every state of every life a task is pending as it was minted, or stands exactly as an earlier resolver with its token decided in time, or as a sweep past its deadline left it |
| Answers.EveryResultWasAnswered | replay/replay.go:57-91 | over every life, through forks, crashes and restores, each completed call has the status, error, data and message that its handler or layer answered while its intent was the tail of this view, and the answer's labels with the call's stamp |
| Answers.GuestsAreToldWhatWasAnswered | replay/replay.go:57-91 | what a guest has been handed is what the journal holds, call by call, and what it is handed next was answered to the open call |
| Answers.TasksAnswerTheirCalls | internal/agent/task/task.go:96-118 | a recorded task that is not approved answers its own call: parked while pending, with its data once completed, and with its reason when denied, failed, cancelled or expired |
| Answers.ApprovedCallsRun | internal/agent/task/task.go:50-118 | an approved task runs the call it was minted for, under that call's own entry |
| Answers.OthersGoBelow | internal/agent/task/task.go:50-95 | a granted call without a task runs under the entry filed for it, or, guarded, becomes a pending task of this scope and position that expires a lifetime later |
| Answers.TimersWaitAndLogsAnswer | internal/agent/timer.go:94-109 | a timer whose wait can be read becomes a task that never expires; any other is refused as invalid |
| Answers.UngrantedCallsFail | capability/dispatcher.go:28-47 | a call that names no granted operation is denied, or refused as invalid, with no handler run and no task minted |
| Answers.ProtocolAnswers | internal/agent/chain.go:42-98 | markers succeed bare, sys.input answers its data under the labels of the conversation, and the other protocol layers answer for themselves |
| Provenance.FreshIntentHandsDownTheFold | monitor/flow.go:58-74 | the taint handed down with a fresh intent holds a label if and only if some call of the view or yield of one showed it, and under it those calls' sources, each once, in the order they first did, however the run was crashed, parked, driven again or forked |
| Provenance.QuietRunsHandDownTheCallsLabels | monitor/flow.go:58-74 | without labels of a handler's own on a yield, it is the fold of the completed calls, source order included |
| Provenance.ExtraLabelsComeFromYieldsExactly | monitor/flow.go:58-74 | no carried label or source is ever missing; an extra label, or an extra source under a label, is there if and only if some yield showed it and no completed call carried it |
| Provenance.ExtraLabelsComeFromApprovedHandlers | internal/agent/task/task.go:96-103 | an extra label was put on a yield, earlier in the same life, by a handler that an approved task let run |
| Provenance.QuietLivesHandDownTheCallsLabels | monitor/flow.go:58-74 | in a life where no such handler yields labels of its own, the taint handed down is the fold of the completed calls |
| Provenance.AYieldCanLeaveAnExtraLabel | internal/agent/task/task.go:96-103 | a reachable state in which a fresh call is made under a label no completed call carried |
| Provenance.EveryResultIsStamped | monitor/flow.go:105-116 | every completed call's result carries its syscall's label and the labels of the entry filed for its own operation |
| Provenance.CompletedRunsKeepTheirLabels | internal/agent/executor.go:216-222 | a run recorded as completed keeps every label its calls carried, across restores |
| TaskSafety.OneTaskPerCall | internal/agent/task/task.go:51-94 | at most one task ever exists for a session, process, revision and position, and its syscall is the intent that revision sees there |
| ProcessSafety.RestoreRebuildsEveryOpenState | internal/agent/restore.go:13-98 | in every reachable state of an open runtime, restore rebuilds the live memory, with a process under way interrupted and no other status changed, and is idempotent |
| ProcessSafety.ClosedStepsStaySavedUnlessTheyFork | internal/agent/processes.go:194-197 | on a closed runtime a step leaves the log behind the memory if and only if it forks |
| Forking.ForksExactlyAtTheSection | internal/agent/recovery.go:32-55 | in every reachable state a step forks the journal if and only if it restarts the process, or a section is open and it resumes a process that is not parked or records an abort with attempts left; a restart forks at nothing, the others right after the outermost open begin, and the new view is that prefix, at depth one |
| Forking.AbortsRedoOrFail | internal/agent/recovery.go:32-55 | an abort inside a section with attempts left spends one and queues the section again; any other fails the process |
| Endings.EndingsAreRecorded | internal/agent/executor.go:66-107 | a yield waits, a stop stops, a shutdown or deadline interrupts; a run that ends by itself completes with an answer if and only if publishing it was its last call, and otherwise fails unless it aborted |
| Endings.AnswersArePublished | internal/agent/executor.go:149-200 | in every reachable state that the log agrees with, a completed process's answer is the one its last journaled call published, and a waiting process's last call is open |
| Endings.StoredAnswersArePublished | internal/agent/restore.go:47-98 | the same of what a boot finds, after a closed runtime too |
| Endings.CompletionKeepsWhatWasShown | internal/agent/executor.go:216-222 | a run that completes keeps exactly the labels its calls and their yields showed |
| Recovery.RecoveryTerminates | internal/agent/recovery.go:32-85 | between two fresh starts from outside, with journals within a bound, the automatic re-runs are at most ten times the bound plus one, plus the bound |
| Recovery.StepSpends | internal/agent/recovery.go:32-85 | each automatic re-run spends the budget, and nothing but a forking retry adds to it |
| Recovery.FirstFailureIsDrivenAgain | internal/agent/recovery.go:70-85 | a revision's first failure is driven again if and only if a section is open |
| Recovery.FailuresAreDrivenAgainExactly | internal/agent/recovery.go:57-85 | over every life a failed run is driven again if and only if the runtime is open, no stop was asked, a section is open, and no failure at this journal length was driven again since the last fork or boot |
| Recovery.AbortBudgetIsForLife | internal/agent/recovery.go:27-55 | a process redoes aborted sections at most ten times in its life, whatever forks, retries and crashes happen |
| Recovery.ClosedRetryLosesItsFork | internal/agent/processes.go:124-146 | a reachable state where the memory forked and a boot finds the old revision |
| SessionInv.DeedKeeps | internal/agent/processes.go:43-71 | every creation, process step, shutdown and restart keeps the session invariant: stream parts, order, one process under way |
| SessionInv.RebootKeepsTheOrder | internal/agent/durable/events.go:130-140 | the folded creation order is the live one |
| SessionInv.RebootKeepsTheOrderExactly | internal/agent/durable/events.go:130-140 | a restart keeps the order of the processes if and only if their times, and their ids among equal times, increase along it |
| SessionInv.IdsAreInDictionaryOrder | internal/agent/durable/events.go:130-140 | the order of ids among equal times is dictionary order |
| SessionSafety.AtMostTheLatestRuns | internal/agent/processes.go:150-176 | in every session, across retries, stops, crashes and restores, a queued, running, stopping or waiting process is the latest, so at most one is |
| SessionSafety.HistoryNeverChanges | internal/agent/snapshots.go:35-55 | the conversation a process reads never changes during its life |
| Conversation.ConversationIsWhatWasSaid | internal/agent/snapshots.go:30-55 | what a process reads is one turn for each run created before it that completed, in order of creation, with that run's own input, the answer it published, and every label it carried |
| Conversation.InheritedExactly | internal/agent/snapshots.go:30-55 | its input carries a label if and only if it shares history and one of those runs keeps that label |
| SessionSafety.RestartRebuildsTheSession | internal/agent/restore.go:47-98 | a restart of an open host rebuilds order and processes, and the holder whenever no process is interrupted |
| SessionSafety.SecondRestartChangesNothing | internal/agent/restore.go:13-98 | a second restart appends nothing and gives the same session |
| SessionSafety.RebootWedgesExactly | internal/agent/durable/events.go:139-160 | a restart wedges a session if and only if a process other than its latest is interrupted |
| SessionSafety.WedgeIsForever | internal/agent/processes.go:43-71 | a wedged session refuses every process and every retry for good |
| SessionSafety.RestartedSessionIsUsableExactly | internal/agent/processes.go:150-176 | after a restart a session takes a new process or runs its latest again exactly when no earlier one was left interrupted |
| SessionSafety.TimeoutThenRestartWedges | internal/agent/executor.go:86-100 | a concrete run: a deadline, a second process, a restart, and the session is wedged |
| Inheritance.StepInherits | internal/agent/lifecycle.go:93-106 | every step keeps the labels of the conversation on every completed sys.input, in memory and in what a restore would rebuild |
| Inheritance.LabelsPassBetweenRuns | internal/agent/lifecycle.go:93-141 | whatever label a completed process's journal holds, a later history-sharing process that read its input holds on that input |
| Inheritance.LabelsPassAlongChains | internal/agent/snapshots.go:35-55 | the same transitively, along any chain of runs and across restores |
| Runtime.Runtime.ForkJournal | internal/agent/processes.go:183-189 | a new revision over the same history, the old one's taint released and no other's |
| Runtime.Runtime.Relaunch | internal/agent/processes.go:194-214 | a closed runtime refuses and changes nothing; otherwise the process is queued, logged, launched, and holds its session |
| Runtime.Runtime.Finish | internal/agent/executor.go:203-229 | records the status, answer and error; a run that is over keeps exactly the labels its taint held and releases it; the session is freed unless the process only parked, and the state is logged |
| Runtime.Runtime.Stop | internal/agent/processes.go:90-114 | asks a run under way to stop and cancels its quantum, stops a parked one, leaves one already stopping or stopped, and refuses the rest, ready for the next call |
| Runtime.Runtime.FindOpenSection | internal/agent/recovery.go:32-55 | finds a section if and only if one is open, and where its body starts |
| Runtime.Runtime.CheckRetry | internal/agent/processes.go:150-176 | accepts if and only if the program is bound, the process is not under way, nor completed unless it restarts, and is the latest with no other holder |
| Runtime.Runtime.Retry | internal/agent/processes.go:124-146 | a refused retry changes nothing; an accepted restart forks at nothing, and an accepted resume of a process that is not parked right after the outermost open begin if there is one; it takes the session and launches, error paths included |
| Runtime.Runtime.CreateProcess | internal/agent/processes.go:17-74 | the error for every refusal in order, with nothing left behind; success records, lists and launches a new process, queued for its first attempt on an empty journal |
| Runtime.Runtime.RetryAbortedSection | internal/agent/recovery.go:32-55 | with a section open and attempts left, forks right after the outermost open begin, takes the session and launches; otherwise keeps the journal, fails and frees it |
| Runtime.Runtime.RedriveAfterFailure | internal/agent/recovery.go:70-85 | runs again exactly when a section is open, nothing stops it and the journal grew, and then takes the session and launches |
| Runtime.Runtime.RecordCompletion | internal/agent/executor.go:66-79 | a guest's completion carries out the abort step, the failure step or the finishing step as its last journaled call says |
| Runtime.Runtime.RecordOutcome | internal/agent/executor.go:66-107 | every way a quantum ends carries out its outcome, an append the store refuses included: memory, holder and launches |
| Runtime.OutcomeIsTheMachines | internal/agent/executor.go:203-229 | for a live process and a store that accepts, who holds the session then and whether a quantum was launched are what the session machine says |
| Runtime.OutcomeIsTheExecutorsSteps | internal/agent/executor.go:66-107 | that outcome is what the process machine's executor steps, one lock hold each, make of the process |
| Runtime.Runtime.LastCall | internal/agent/executor.go:149-163 | the last completed call, and none when an intent is open |
| Runtime.Runtime.BeginQuantum | internal/agent/executor.go:19-32 | a quantum stopped before it started is recorded as stopped, frees its session and never reaches the pool |
| Runtime.Runtime.FailProcess | internal/agent/recovery.go:57-63 | a failure runs the process once more, or stands and frees its session, a re-drive the store refuses included |
| Runtime.Runtime.MarkRunning | internal/agent/executor.go:43-57 | records the process as running and cancels a quantum stopped while it queued |
| Runtime.Runtime.Wake | internal/agent/tasks.go:106-117 | relaunches a parked process on the same revision if it may run, and otherwise leaves it, as any other, as it is |
| Runtime.Runtime.ParkedOnSettledTasks | internal/agent/tasks.go:83-104 | exactly the waiting processes none of whose tasks, of any revision, is pending |
| Restore.FoldIsPerProcess | internal/agent/durable/events.go:93-129 | folding the interleaved stream is folding each process's own part |
| Restore.TasksFoldPerProcess | internal/agent/durable/events.go:112-122 | the same for tasks |
| Restore.FoldProcesses | internal/agent/durable/events.go:97-129 | one pass over the stream computes the last-writer-wins processes |
| Restore.FoldTaskRecords | internal/agent/durable/events.go:112-122 | one pass over the stream computes the last-writer-wins tasks |
| Restore.CreationOrder | internal/agent/durable/events.go:130-140 | exactly the folded processes, by creation time and then id |
| Restore.Foreground | internal/agent/durable/events.go:141-150 | the earliest process that is not completed, failed or stopped |
| Restore.FoldJournals | internal/agent/journal.go:242-262 | one pass rebuilds every process's own history |
| Restore.RestoreSession | internal/agent/restore.go:43-98 | memory, order, holder and stream after a boot are what the session machine's restart gives, and every process whose log holds a whole journal is ready to run |
| Restore.SoundSessionsAreIntact | internal/agent/restore.go:43-98 | every process of a session left by any run has such a log |
| Pool.OneResultEach | internal/agent/pool.go:44-121 | each accepted submission receives at most one result, and exactly one once it has settled |
| Pool.ResultsAreTheQuantasOwn | internal/agent/pool.go:44-104 | a submission whose quantum ran to its end receives that quantum's own result, and a drop is sent only for one that never ran |
| Pool.AtMostSizeRunAtOnce | internal/agent/pool.go:26-53 | at most size quanta run at once, and no two workers run the same one |
| Pool.CancelledBeforeItsCheckNeverRuns | internal/agent/pool.go:94-104 | a submission cancelled before a worker checks it, by its caller or by shutdown, never runs and settles as dropped |
| Pool.InternalStepsEnd | internal/agent/pool.go:62-92 | every step of the pool's own goroutines uses up work, so it comes to rest |
| Pool.ClosedPoolSettlesEverything | internal/agent/pool.go:106-121 | a closed pool at rest has settled every submission and every worker has exited |

## Left out

- Wasm compilation, program digests' computation and the processor's resume: a guest is a
  deterministic function from the results it has seen to its next call.
- The Validator's schema check: it follows from the call alone, so it is part of the guest.
- JSON encoding and schemas, menu and prompt text, the label a fired timer's result repeats,
  the compaction and rune-exact cut of a taint source's text: a source is the syscall's name
  with its truncated arguments.
- Tokens, hashes and random ids: a token's hash is compared as a value and a fresh id is a
  parameter.
- Session names, tags, titles, skills, manifest normalisation and the check of granted
  against served capabilities.
- sys.now, sys.random, sys.log, and whether an answer meets the output schema: an arbitrary
  reply of the layer that serves the call.
- Several sessions in one runtime: the `Runtime` class holds one session and its stream.
  Sessions share only the pool, the task map and the closed flag.
- Goroutine scheduling inside `execute`: `Runtime.OutcomeIsTheExecutorsSteps` covers what it
  does under the lock; the quantum itself runs in the `Process` machine.
- Runtime.Runtime.Wake: the status check and the retry are one step here; the source drops
  the lock between them.
- Whether every stop is honoured, and whether every settled task wakes its process: the
  source does not promise either, and neither is claimed.
