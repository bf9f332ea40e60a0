/** One process of the runtime as a state machine: its executor goroutine, its guest
    on the pool, its journal, tasks and taint, and the events that record them. Each
    action is one step under the runtime's or a store's lock, or one step of a
    dispatch, so a crash can fall between any two. */
module Process {
  import opened Sys
  import opened Journaled
  import opened Durable
  import opened History
  import opened Lineage
  import opened Replay
  import opened Flow
  import opened Capability
  import Tasks
  import Tape

  /** What a process is bound to for life: its program, and the grants its manifest
      yields. */
  datatype Config = Config(guest: Guest, grants: Grants, taskTTL: nat)

  const MAX_ABORT_RETRIES: nat := 10

  // ---- State ------------------------------------------------------------

  /** How the guest's quantum ended. */
  datatype Ending = EndCompleted | EndYielded | EndStopped(deadline: bool) | EndFailed

  /** Where the goroutine that executes a quantum stands. */
  datatype ExecPc =
    | Starting                  // launched, has not looked at the process yet
    | Submitting                // not stopped before it started
    | InPool                    // submitted, not yet recorded as running
    | Marked                    // recorded as running, waiting for the result
    | Recording(ending: Ending) // has the result
    | Failing                   // a failed run, before the re-drive decision
    | Finishing(status: ProcessStatus, answer: string, error: string)

  /** A handler that is running, and whether an approved task let it run. */
  datatype HandlerCall = HandlerCall(call: Syscall, entry: Entry, viaTask: bool)

  datatype GuestPc =
    | Unstarted
    | Running(side: Side, handler: Option<HandlerCall>)
    | Ended(ending: Ending, side: Side)

  datatype Quantum = Quantum(revision: nat, exec: ExecPc, guest: GuestPc)

  /** The process in memory. yielded is a history variable: what each call's yields have
      carried since the run's taint was last released. */
  datatype Mem = Mem(
    status: ProcessStatus, attempt: nat, answer: string, error: string, labels: set<Label>,
    journal: Journal, lastFailureLength: nat, abortRetries: nat,
    stopRequested: bool, stoppable: bool,
    tasks: Tasks.Records, taints: map<nat, Taint>, yielded: Yields,
    quantum: Option<Quantum>)

  /** A process: its identity, its part of the event stream, and its memory. */
  datatype Proc = Proc(id: Identity, log: seq<Payload>, mem: Mem)

  function FoldHistory(log: seq<Payload>): Flat {
    if log == [] then map[] else
      var before := FoldHistory(log[..|log| - 1]);
      match log[|log| - 1]
      case SyscallRecorded(rec) => Add(before, rec)
      case _ => before
  }

  function Stored(id: Identity, m: Mem): StoredProcess {
    StoredProcess(id, m.status, m.attempt, m.answer, m.error, m.labels,
      m.journal.revision, m.journal.forkOffset, m.abortRetries)
  }

  function ContextOf(p: Proc): ProcessContext {
    ProcessContext(p.id.session, p.id.id, p.mem.journal.revision)
  }

  /** The current revision's view of the journal. */
  function ViewOf(j: Journal): seq<Record> {
    if Complete(j.history, j.revision, j.length) then View(j.history, j.revision, j.length) else []
  }

  ghost predicate JournalIsPlaced(j: Journal) {
    Placed(j.history, j.revision, j.forkOffset, j.length)
  }

  function RunTaint(m: Mem): Taint {
    TaintOf(m.taints, m.journal.revision)
  }

  // ---- Recording --------------------------------------------------------

  function Emit(p: Proc, payload: Payload): Proc {
    p.(log := p.log + [payload])
  }

  /** appendProcess: the process's whole durable state goes onto the stream. */
  function Save(p: Proc): Proc {
    Emit(p, ProcessState(Stored(p.id, p.mem)))
  }

  /** logJournal.Append at the tail: the record is logged, then admitted. */
  function WriteRecord(p: Proc, rec: Record): Proc {
    var p1 := Emit(p, SyscallRecorded(rec));
    var j := p.mem.journal;
    p1.(mem := p.mem.(journal := j.(history := Add(j.history, rec), length := j.length + 1)))
  }

  function WriteAll(p: Proc, written: seq<Record>): Proc {
    if written == [] then p else WriteRecord(p, written[0])
  }

  function ObserveRun(m: Mem, call: Syscall, result: SyscallResult): Mem {
    if result.labels == {} || IsMarker(call.name) then m
    else m.(taints := m.taints[m.journal.revision := ObserveCall(RunTaint(m), call, result)])
  }

  /** forkJournalLocked: a new revision from the offset on. The old one never runs
      again, so its taint is released. */
  function Fork(m: Mem, offset: nat): Mem {
    m.(taints := m.taints - {m.journal.revision}, yielded := map[],
       journal := Step(m.journal, ForkAt(offset)),
       lastFailureLength := 0)
  }

  function NewQuantum(revision: nat): Quantum {
    Quantum(revision, Starting, Unstarted)
  }

  /** relaunchLocked: queue a fresh quantum. A closed runtime refuses, and whatever
      the caller changed before stays changed in memory only. */
  function Relaunch(p: Proc, closed: bool): Proc {
    if closed then p.(mem := p.mem.(quantum := None)) else
      var m := p.mem.(
        status := ProcessQueued, attempt := p.mem.attempt + 1, answer := "", error := "",
        stopRequested := false, quantum := Some(NewQuantum(p.mem.journal.revision)));
      Save(p.(mem := m))
  }

  /** finishLocked: record how the run ended. A terminal run keeps its taint's labels
      with the process and releases the taint. */
  function FinishRun(p: Proc, status: ProcessStatus, answer: string, error: string): Proc {
    var m := p.mem.(status := status, answer := answer, error := error, stoppable := false, quantum := None);
    var m' := if IsTerminal(status)
      then m.(labels := RunTaint(m).Keys, taints := m.taints - {m.journal.revision}, yielded := map[]) else m;
    Save(p.(mem := m'))
  }

  // ---- The layers below replay ------------------------------------------

  /** What the environment decides during one drive: the clock, a fresh task id, what
      a protocol layer answers, and the labels of the history a process reads. */
  datatype Env = Env(now: nat, freshId: string, tokenHash: string, reply: SyscallResult, inherited: set<Label>)

  datatype LayerOutcome = Replies(result: SyscallResult) | Mints(task: TaskRecord) | Calls(handler: HandlerCall)

  /** The layers under the task layer: sys.log, sys.timer, and the routed handlers. */
  function Bottom(cfg: Config, taint: Taint, call: Syscall, approved: bool, env: Env): Routed {
    match call.name
    case SysLog => Says(env.reply)
    case SysTimer =>
      if Tasks.TimerSeconds(call).Some? then Asks else Says(FailCode(InvalidArgs, "decode sys.timer request"))
    case _ => Decide(cfg.grants, taint, call, approved)
  }

  predicate TaskAt(m: Mem, id: string, revision: nat, position: nat) {
    id in m.tasks && m.tasks[id].scope.revision == revision && m.tasks[id].position == position
  }

  ghost predicate HasTask(m: Mem, revision: nat, position: nat) {
    exists id :: TaskAt(m, id, revision, position)
  }

  ghost function FindTask(m: Mem, revision: nat, position: nat): (id: string)
    requires HasTask(m, revision, position)
    ensures TaskAt(m, id, revision, position)
  {
    var id :| TaskAt(m, id, revision, position); id
  }

  function NewTask(cfg: Config, p: Proc, call: Syscall, summary: string, env: Env): TaskRecord {
    Tasks.Mint(ContextOf(p), env.freshId, Tail(p), call, summary, env.now, cfg.taskTTL, env.tokenHash)
  }

  /** The journal's tail is the driven call's intent, so it is the call's position. */
  function Tail(p: Proc): nat {
    if p.mem.journal.length > 0 then p.mem.journal.length - 1 else 0
  }

  /** The task layer: a recorded task answers the call or lets it run as approved;
      without one the layers below run it, and a yield from them becomes a task. */
  ghost function TaskLayer(cfg: Config, p: Proc, call: Syscall, env: Env): LayerOutcome {
    var m := p.mem;
    if HasTask(m, m.journal.revision, Tail(p)) then
      var task := m.tasks[FindTask(m, m.journal.revision, Tail(p))];
      match Tasks.Resume(task, env.now)
      case AnswersWith(result) => Replies(result)
      case RunsApproved =>
        match Bottom(cfg, RunTaint(m), task.syscall, true, env)
        case Says(result) => Replies(result)
        case Asks => Replies(Yield("approval"))
        case Runs(entry) => Calls(HandlerCall(task.syscall, entry, true))
    else
      match Bottom(cfg, RunTaint(m), call, false, env)
      case Says(result) => Replies(result)
      case Asks => Mints(NewTask(cfg, p, call, "approval", env))
      case Runs(entry) => Calls(HandlerCall(call, entry, false))
  }

  /** Every layer between Stamp and the handlers. */
  ghost function Layers(cfg: Config, p: Proc, call: Syscall, env: Env): LayerOutcome {
    match call.name
    case SysBegin | SysCommit => Replies(Result("{}"))
    case SysNow | SysRandom | SysOutput | SysAbort => Replies(env.reply)
    case SysInput => Replies(Result(env.reply.data).WithLabels(env.inherited))
    case _ => TaskLayer(cfg, p, call, env)
  }

  // ---- Actions ----------------------------------------------------------

  /** Steps of the executor goroutine. */
  datatype ExecAction =
    | ExecBegin
    | ExecSubmit(accepted: bool)
    | ExecMark
    | ExecCollect
    | ExecRecord
    | ExecFail
    | ExecFinish

  /** Steps of the guest's quantum on a pool worker. */
  datatype GuestAction =
    | GuestBoot
    | GuestSetupEnds(ending: Ending)
    | GuestAsk
    | GuestStray(call: Syscall)
    | LayersAnswer(env: Env)
    | LayersFail
    | HandlerReturns(below: Tape.Below, env: Env)
    | GuestCommit
    | GuestEnds(ending: Ending)

  datatype Action =
    | OfExec(exec: ExecAction)
    | OfGuest(guest: GuestAction)
    // The API and the sweep.
    | ApiStop
    | ApiRetry(restart: bool)
    | OfTask(op: Tasks.Op)

  predicate CanRetry(status: ProcessStatus, restart: bool) {
    || status.ProcessWaiting? || status.ProcessStopped? || status.ProcessFailed? || status.ProcessInterrupted?
    || (status.ProcessCompleted? && restart)
  }

  predicate CanStop(status: ProcessStatus) {
    IsLive(status) || status.ProcessWaiting? || status.ProcessStopped?
  }

  /** The environment of a drive: protocol answers are not yields and carry no labels
      of their own, and a fresh id is fresh. */
  predicate FairEnv(m: Mem, env: Env) {
    && !env.reply.status.Yielded? && env.reply.labels == {}
    && env.freshId !in m.tasks
  }

  predicate ExecEnabled(q: Quantum, a: ExecAction) {
    match a
    case ExecBegin => q.exec.Starting?
    case ExecSubmit(_) => q.exec.Submitting?
    case ExecMark => q.exec.InPool?
    case ExecCollect => q.exec.Marked? && q.guest.Ended?
    case ExecRecord => q.exec.Recording?
    case ExecFail => q.exec.Failing?
    case ExecFinish => q.exec.Finishing?
  }

  /** The result of a submission may arrive before its executor has recorded it as
      running, so the guest can start in either state. */
  predicate CanBoot(q: Quantum) {
    (q.exec.InPool? || q.exec.Marked?) && q.guest.Unstarted?
  }

  predicate GuestEnabled(cfg: Config, m: Mem, q: Quantum, a: GuestAction) {
    match a
    case GuestBoot => CanBoot(q)
    case GuestSetupEnds(ending) => CanBoot(q) && (ending.EndStopped? || ending.EndFailed?)
    case GuestAsk => q.guest.Running? && q.guest.side.act.Thinking? && cfg.guest(q.guest.side.seen).Some?
    case GuestStray(_) => q.guest.Running? && q.guest.side.act.Parked?
    case LayersAnswer(env) =>
      q.guest.Running? && q.guest.side.act.Driving? && q.guest.handler.None? && FairEnv(m, env)
    case LayersFail => q.guest.Running? && q.guest.side.act.Driving? && q.guest.handler.None?
    case HandlerReturns(_, env) =>
      q.guest.Running? && q.guest.side.act.Driving? && q.guest.handler.Some? && FairEnv(m, env)
    case GuestCommit => q.guest.Running? && q.guest.side.act.Answered?
    case GuestEnds(ending) =>
      && q.guest.Running?
      && (q.guest.side.act.Parked? || q.guest.side.act.Thinking?)
      && (ending.EndYielded? ==> q.guest.side.act == Parked(true))
      && (ending.EndCompleted? ==> q.guest.side.act.Parked? || cfg.guest(q.guest.side.seen).None?)
  }

  predicate Enabled(cfg: Config, p: Proc, a: Action) {
    match a
    case OfExec(e) => p.mem.quantum.Some? && ExecEnabled(p.mem.quantum.value, e)
    case OfGuest(ga) => p.mem.quantum.Some? && GuestEnabled(cfg, p.mem, p.mem.quantum.value, ga)
    case ApiStop => CanStop(p.mem.status)
    case ApiRetry(restart) => CanRetry(p.mem.status, restart)
    case OfTask(op) => (op.ResolveOp? || op.SettleOp?) && Tasks.Proper(op)
  }

  function WithQuantum(p: Proc, q: Quantum): Proc {
    p.(mem := p.mem.(quantum := Some(q)))
  }

  function WithSide(p: Proc, side: Side, handler: Option<HandlerCall>): Proc
    requires p.mem.quantum.Some?
  {
    WithQuantum(p, p.mem.quantum.value.(guest := Running(side, handler)))
  }

  /** A result comes up from below: Stamp labels it, replay parks on a yield, and Track
      observes a yield's labels at once. */
  function Reply(cfg: Config, p: Proc, side: Side, call: Syscall, result: SyscallResult): Proc
    requires p.mem.quantum.Some?
  {
    var stamped := result.WithLabels(StampLabels(cfg.grants, call));
    var p1 := if result.status.Yielded?
      then p.(mem := ObserveRun(p.mem, call, stamped).(
                yielded := p.mem.yielded[Tail(p) / 2 := YieldsOf(p.mem.yielded, Tail(p) / 2) + stamped.labels]))
      else p;
    WithSide(p1, Answer(side, stamped), None)
  }

  /** A yield from below the task layer becomes a task, and the task's id goes up. */
  function MintAndYield(cfg: Config, p: Proc, side: Side, call: Syscall, task: TaskRecord): Proc
    requires p.mem.quantum.Some?
  {
    var p1 := Emit(p, TaskCreated(task));
    Reply(cfg, p1.(mem := p1.mem.(tasks := p1.mem.tasks[task.id := task])), side, call, Yield(task.id))
  }

  function DoAsk(p: Proc, q: Quantum, side: Side, call: Syscall): Proc {
    var next := TapeNext(ViewOf(p.mem.journal), side.cursor, call);
    var t := Enter(ViewOf(p.mem.journal), side, call, q.revision);
    var p1 := WriteAll(p, t.written);
    var p2 := if next.Served? then p1.(mem := ObserveRun(p1.mem, call, next.result)) else p1;
    WithQuantum(p2, q.(guest := Running(t.side, None)))
  }

  function DoCommit(p: Proc, q: Quantum, side: Side): Proc
    requires side.act.Answered?
  {
    var v := ViewOf(p.mem.journal);
    var t := Replay.Write(v, side, q.revision);
    var p1 := WriteAll(p, t.written);
    var call :=
      if v != [] && v[|v| - 1].syscall.Some? then v[|v| - 1].syscall.value else Syscall(SysLog, Undecodable(""));
    WithQuantum(p1.(mem := ObserveRun(p1.mem, call, side.act.result)), q.(guest := Running(t.side, None)))
  }

  ghost function DoLayers(cfg: Config, p: Proc, side: Side, env: Env): Proc
    requires p.mem.quantum.Some? && side.act.Driving?
  {
    match Layers(cfg, p, side.act.call, env)
    case Replies(result) => Reply(cfg, p, side, side.act.call, result)
    case Mints(task) => MintAndYield(cfg, p, side, side.act.call, task)
    case Calls(handler) => WithSide(p, side, Some(handler))
  }

  /** A handler's own yield becomes a task, unless a task already let it run. */
  function DoHandler(cfg: Config, p: Proc, side: Side, handler: HandlerCall, below: Tape.Below, env: Env): Proc
    requires p.mem.quantum.Some? && side.act.Driving?
  {
    match below
    case Fails => WithSide(p, Fault(side), None)
    case Answers(result) =>
      if result.status.Yielded? && !handler.viaTask
      then MintAndYield(cfg, p, side, side.act.call, NewTask(cfg, p, side.act.call, result.message, env))
      else Reply(cfg, p, side, side.act.call, result)
  }

  /** The journal's last completed call. An open intent at the tail means none. */
  function LastCall(v: seq<Record>): Option<(Syscall, SyscallResult)> {
    if |v| == 0 || |v| % 2 != 0 || v[|v| - 2].syscall.None? || v[|v| - 1].result.None? then None
    else Some((v[|v| - 2].syscall.value, v[|v| - 1].result.value))
  }

  /** The answer a sys.output call published. */
  function AnswerArg(call: Syscall): Option<string> {
    match call.args
    case Undecodable(_) => None
    case Object(_, properties) =>
      if "answer" !in properties then Some("")
      else if properties["answer"].Text? then Some(properties["answer"].text) else None
  }

  /** A guest that completes without an accepted answer did not finish. */
  function AnswerFromJournal(v: seq<Record>): Option<string> {
    match LastCall(v)
    case None => None
    case Some(last) => if last.0.name.SysOutput? && last.1.status.Value? then AnswerArg(last.0) else None
  }

  predicate GuestAborted(v: seq<Record>) {
    LastCall(v).Some? && LastCall(v).value.0.name.SysAbort?
  }

  function OpenSection(v: seq<Record>): Option<nat> {
    if WellFormed(v) then OutermostOpenBegin(v) else None
  }

  /** retryAbortedSection: fork at the open begin and run the section again, within the
      budget; otherwise the process fails. */
  function RetryAbortedSection(p: Proc, closed: bool): Proc {
    match OpenSection(ViewOf(p.mem.journal))
    case None => FinishRun(p, ProcessFailed, "", "guest aborted")
    case Some(offset) =>
      if p.mem.abortRetries >= MAX_ABORT_RETRIES then FinishRun(p, ProcessFailed, "", "no attempts left")
      else Relaunch(p.(mem := Fork(p.mem.(abortRetries := p.mem.abortRetries + 1), offset)), closed)
  }

  /** A failed run earns one more on the same revision: inside an open section, and
      only if the journal grew since the last failure. */
  predicate MayRedrive(p: Proc, closed: bool) {
    && !p.mem.stopRequested && !closed
    && OpenSection(ViewOf(p.mem.journal)).Some?
    && p.mem.lastFailureLength != p.mem.journal.length
  }

  function DoRecord(p: Proc, q: Quantum, ending: Ending, closed: bool): Proc {
    match ending
    case EndCompleted =>
      if GuestAborted(ViewOf(p.mem.journal)) then RetryAbortedSection(p, closed) else
        (match AnswerFromJournal(ViewOf(p.mem.journal))
         case Some(answer) => WithQuantum(p, q.(exec := Finishing(ProcessCompleted, answer, "")))
         case None => WithQuantum(p, q.(exec := Failing)))
    case EndYielded => WithQuantum(p, q.(exec := Finishing(ProcessWaiting, "", "")))
    case EndStopped(deadline) =>
      var status := if closed || deadline then ProcessInterrupted else ProcessStopped;
      WithQuantum(p, q.(exec := Finishing(status, "", "stopped")))
    case EndFailed => WithQuantum(p, q.(exec := Failing))
  }

  function DoStop(p: Proc): Proc {
    match p.mem.status
    case ProcessQueued | ProcessRunning =>
      Save(p.(mem := p.mem.(stopRequested := true, status := ProcessStopping)))
    case ProcessWaiting => FinishRun(p, ProcessStopped, "", "context canceled")
    case _ => p
  }

  /** Retry: a restart forks from the start, a parked process goes on as it is, and a
      resume forks only inside an open section. */
  function DoRetry(p: Proc, restart: bool, closed: bool): Proc {
    var open := OpenSection(ViewOf(p.mem.journal));
    var m :=
      if restart then Fork(p.mem, 0)
      else if p.mem.status.ProcessWaiting? || open.None? then p.mem
      else Fork(p.mem, open.value);
    Relaunch(p.(mem := m), closed)
  }

  function DoTask(p: Proc, op: Tasks.Op): Proc {
    var tasks := Tasks.Do(p.mem.tasks, op);
    var id := if op.ResolveOp? || op.SettleOp? then op.id else "";
    if id in tasks && id in p.mem.tasks && tasks[id] != p.mem.tasks[id]
    then Emit(p.(mem := p.mem.(tasks := tasks)), TaskResolved(tasks[id]))
    else p
  }

  function DoExec(p: Proc, q: Quantum, a: ExecAction, closed: bool): Proc
    requires ExecEnabled(q, a)
  {
    match a
    case ExecBegin =>
      var exec := if p.mem.stopRequested then Finishing(ProcessStopped, "", "context canceled") else Submitting;
      WithQuantum(p, q.(exec := exec))
    case ExecSubmit(accepted) =>
      WithQuantum(p, q.(exec := if accepted then InPool else Finishing(ProcessInterrupted, "", "pool: closed")))
    case ExecMark =>
      Save(p.(mem := p.mem.(status := ProcessRunning, stoppable := true, quantum := Some(q.(exec := Marked)))))
    case ExecCollect =>
      p.(mem := p.mem.(stoppable := false, quantum := Some(q.(exec := Recording(q.guest.ending)))))
    case ExecRecord => DoRecord(p, q, q.exec.ending, closed)
    case ExecFail =>
      if MayRedrive(p, closed)
      then Relaunch(p.(mem := p.mem.(lastFailureLength := p.mem.journal.length)), closed)
      else WithQuantum(p, q.(exec := Finishing(ProcessFailed, "", "failed")))
    case ExecFinish => FinishRun(p, q.exec.status, q.exec.answer, q.exec.error)
  }

  ghost function DoGuest(cfg: Config, p: Proc, q: Quantum, a: GuestAction): Proc
    requires p.mem.quantum == Some(q) && GuestEnabled(cfg, p.mem, q, a)
  {
    match a
    case GuestBoot => WithQuantum(p, q.(guest := Running(BOOT, None)))
    case GuestSetupEnds(ending) => WithQuantum(p, q.(guest := Ended(ending, BOOT)))
    case GuestAsk => DoAsk(p, q, q.guest.side, cfg.guest(q.guest.side.seen).value)
    case GuestStray(call) => DoAsk(p, q, q.guest.side, call)
    case LayersAnswer(env) => DoLayers(cfg, p, q.guest.side, env)
    case LayersFail => WithSide(p, Fault(q.guest.side), None)
    case HandlerReturns(below, env) => DoHandler(cfg, p, q.guest.side, q.guest.handler.value, below, env)
    case GuestCommit => DoCommit(p, q, q.guest.side)
    case GuestEnds(ending) => WithQuantum(p, q.(guest := Ended(ending, q.guest.side)))
  }

  ghost function Apply(cfg: Config, p: Proc, a: Action, closed: bool): Proc
    requires Enabled(cfg, p, a)
  {
    match a
    case OfExec(e) => DoExec(p, p.mem.quantum.value, e, closed)
    case OfGuest(ga) => DoGuest(cfg, p, p.mem.quantum.value, ga)
    case ApiStop => DoStop(p)
    case ApiRetry(restart) => DoRetry(p, restart, closed)
    case OfTask(op) => DoTask(p, op)
  }

  // ---- Creation, crash and restore --------------------------------------

  /** CreateProcess: recorded before it exists, then launched. */
  function Created(id: Identity): Proc {
    var m := Mem(ProcessQueued, 1, "", "", {}, EMPTY, 0, 0, false, false, map[], map[], map[], Some(NewQuantum(1)));
    Save(Proc(id, [], m))
  }

  function RestoredStatus(status: ProcessStatus): ProcessStatus {
    if IsLive(status) then ProcessInterrupted else status
  }

  /** The length a restore computes from the history and the stored fork offset. */
  ghost function RestoredLength(h: Flat, s: StoredProcess): nat {
    if exists n: nat :: IsLength(h, s.revision, s.forkOffset, n)
    then var n: nat :| IsLength(h, s.revision, s.forkOffset, n); n
    else 0
  }

  /** What a boot rebuilds from the log alone. */
  ghost function RestoredMem(s: StoredProcess, log: seq<Payload>): Mem {
    var h := FoldHistory(log);
    Mem(RestoredStatus(s.status), s.attempt, s.answer, s.error, s.labels,
      Journal(h, s.revision, s.forkOffset, RestoredLength(h, s)), 0, s.abortRetries,
      false, false, FoldTasks(log), map[], map[], None)
  }

  /** Crash and restore: memory is lost and rebuilt from the log. A process that was
      mid-flight is marked interrupted, and that is recorded. */
  ghost function RestoredFrom(log: seq<Payload>): Proc
    requires LastStored(log).Some?
  {
    var s := LastStored(log).value;
    var p := Proc(s.identity, log, RestoredMem(s, log));
    if p.mem.status != s.status then Save(p) else p
  }

  ghost function Restored(p: Proc): Proc
    requires LastStored(p.log).Some?
  {
    RestoredFrom(p.log)
  }
}
