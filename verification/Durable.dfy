/** What a session's event stream holds. The stream is the only durable state:
    everything else is rebuilt by folding it. */
module Durable {
  import opened Sys
  import opened Journaled

  /** One revision of one process: the key of its taint and the scope of its tasks. */
  datatype ProcessContext = ProcessContext(session: string, process: string, revision: nat)

  datatype ProcessStatus =
    | ProcessQueued | ProcessRunning | ProcessStopping | ProcessWaiting
    | ProcessInterrupted | ProcessCompleted | ProcessStopped | ProcessFailed

  /** A quantum is under way exactly in these states. */
  predicate IsLive(status: ProcessStatus) {
    status.ProcessQueued? || status.ProcessRunning? || status.ProcessStopping?
  }

  /** The status still occupies its session: neither completed, failed nor stopped. */
  predicate IsActive(status: ProcessStatus) {
    IsLive(status) || status.ProcessWaiting? || status.ProcessInterrupted?
  }

  /** Only a retry runs the process again. */
  predicate IsTerminal(status: ProcessStatus) {
    status.ProcessCompleted? || status.ProcessFailed? || status.ProcessStopped? || status.ProcessInterrupted?
  }

  datatype Manifest = Manifest(program: string, sharesHistory: bool, grants: string)

  /** What never changes after a process is created. */
  datatype Identity = Identity(
    id: string, session: string, input: string, manifest: Manifest, digest: string, createdAt: nat)

  datatype StoredProcess = StoredProcess(
    identity: Identity, status: ProcessStatus, attempt: nat, answer: string, error: string,
    labels: set<Label>, revision: nat, forkOffset: nat, abortRetries: nat)

  datatype TaskState =
    | TaskPending | TaskApproved | TaskCompleted | TaskFailed | TaskDenied | TaskCancelled | TaskExpired

  datatype TaskResolution = TaskResolution(decision: TaskState, actor: string, reason: string, data: string)

  const NO_RESOLUTION := TaskResolution(TaskPending, "", "", "")

  datatype TaskRecord = TaskRecord(
    scope: ProcessContext, id: string, position: nat, syscall: Syscall, summary: string,
    state: TaskState, tokenHash: string, resolution: TaskResolution,
    createdAt: nat, expiresAt: Option<nat>, resolvedAt: Option<nat>)

  datatype Payload =
    | SessionState(name: string)
    | ProcessState(process: StoredProcess)
    | TaskCreated(task: TaskRecord)
    | TaskResolved(task: TaskRecord)
    | SyscallRecorded(record: Record)

  /** One event of a session's stream, tagged with the process it belongs to. */
  datatype Event = Event(proc: string, payload: Payload)

  /** Folding is last-writer-wins per id. */
  function LastStored(log: seq<Payload>): Option<StoredProcess> {
    if log == [] then None
    else if log[|log| - 1].ProcessState? then Some(log[|log| - 1].process)
    else LastStored(log[..|log| - 1])
  }

  function FoldTasks(log: seq<Payload>): map<string, TaskRecord> {
    if log == [] then map[] else
      var before := FoldTasks(log[..|log| - 1]);
      match log[|log| - 1]
      case TaskCreated(task) => before[task.id := task]
      case TaskResolved(task) => before[task.id := task]
      case _ => before
  }

  /** The part of a stream that belongs to one process. */
  function LogOf(stream: seq<Event>, proc: string): seq<Payload> {
    if stream == [] then [] else
      var before := LogOf(stream[..|stream| - 1], proc);
      if stream[|stream| - 1].proc == proc then before + [stream[|stream| - 1].payload] else before
  }
}
