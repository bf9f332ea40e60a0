/** What holds of a process's tasks over every run: one per call, settled at most once, and
    what an approved timer does. */
module TaskSafety {
  import opened Sys
  import opened Journaled
  import opened Durable
  import opened History
  import opened Lineage
  import opened Replay
  import opened Process
  import opened ProcessInv
  import opened ProcessSteps
  import opened ProcessSafety
  import Tasks
  import Tape

  // ---- Tasks ------------------------------------------------------------

  /** The tasks of one call: the same session, process, revision and position. */
  predicate SameCall(a: TaskRecord, b: TaskRecord) {
    a.scope == b.scope && a.position == b.position
  }

  /** At most one task ever exists for a call, though creation checks only the id, and
      the call it stores is the intent at that position of that revision's view. */
  lemma OneTaskPerCall(cfg: Config, s: State, a: string, b: string)
    requires Reachable(cfg, s) && a in s.p.mem.tasks && b in s.p.mem.tasks
    ensures SameCall(s.p.mem.tasks[a], s.p.mem.tasks[b]) ==> a == b
    ensures var task := s.p.mem.tasks[a];
      var intent := GetAt(s.p.mem.journal.history, task.position, task.scope.revision);
      intent.Some? && intent.value.kind.Intent? && intent.value.syscall == Some(task.syscall)
  {
    ReachableIsSound(cfg, s);
    var p, task := s.p, s.p.mem.tasks[a];
    if SameCall(task, p.mem.tasks[b]) {
      assert TaskAt(p.mem, a, task.scope.revision, task.position);
      assert TaskAt(p.mem, b, task.scope.revision, task.position);
    }
    assert TaskInv(p, a);
    var h := p.mem.journal.history;
    var i: nat :| i < |At(h, task.position)|
      && At(h, task.position)[i].revision == task.scope.revision
      && At(h, task.position)[i].kind.Intent?
      && At(h, task.position)[i].syscall == Some(task.syscall);
    OwnRecordIsSeen(h, p.mem.journal.revision, task.position, i);
  }

  // ---- Settled once -----------------------------------------------------

  /** A settled task is still there, as it is. */
  ghost predicate Keeps(m: Mem, m': Mem, id: string) {
    id in m.tasks && !m.tasks[id].state.TaskPending? ==> id in m'.tasks && m'.tasks[id] == m.tasks[id]
  }

  lemma MintKeepsSettled(cfg: Config, p: Proc, side: Side, call: Syscall, task: TaskRecord, id: string)
    requires p.mem.quantum.Some? && task.id !in p.mem.tasks
    ensures Keeps(p.mem, MintAndYield(cfg, p, side, call, task).mem, id)
  {
  }

  lemma LayersKeepSettled(cfg: Config, p: Proc, side: Side, env: Env, id: string)
    requires p.mem.quantum.Some? && side.act.Driving? && FairEnv(p.mem, env)
    ensures Keeps(p.mem, DoLayers(cfg, p, side, env).mem, id)
  {
    match Layers(cfg, p, side.act.call, env) {
      case Mints(task) => MintKeepsSettled(cfg, p, side, side.act.call, task, id);
      case _ =>
    }
  }

  lemma HandlerKeepsSettled(
    cfg: Config, p: Proc, side: Side, handler: HandlerCall, below: Tape.Below, env: Env, id: string)
    requires p.mem.quantum.Some? && side.act.Driving? && FairEnv(p.mem, env)
    ensures Keeps(p.mem, DoHandler(cfg, p, side, handler, below, env).mem, id)
  {
    if below.Answers? {
      MintKeepsSettled(cfg, p, side, side.act.call, NewTask(cfg, p, side.act.call, below.result.message, env), id);
    }
  }

  lemma AskKeepsTasks(p: Proc, q: Quantum, side: Side, call: Syscall)
    ensures DoAsk(p, q, side, call).mem.tasks == p.mem.tasks
  {
  }

  lemma CommitKeepsTasks(p: Proc, q: Quantum, side: Side)
    requires side.act.Answered?
    ensures DoCommit(p, q, side).mem.tasks == p.mem.tasks
  {
  }

  lemma GuestKeepsSettled(cfg: Config, p: Proc, a: GuestAction, closed: bool, id: string)
    requires Enabled(cfg, p, OfGuest(a))
    ensures Keeps(p.mem, Apply(cfg, p, OfGuest(a), closed).mem, id)
  {
    var q := p.mem.quantum.value;
    match a {
      case GuestAsk => AskKeepsTasks(p, q, q.guest.side, cfg.guest(q.guest.side.seen).value);
      case GuestStray(call) => AskKeepsTasks(p, q, q.guest.side, call);
      case GuestCommit => CommitKeepsTasks(p, q, q.guest.side);
      case LayersAnswer(env) => LayersKeepSettled(cfg, p, q.guest.side, env, id);
      case HandlerReturns(below, env) =>
        HandlerKeepsSettled(cfg, p, q.guest.side, q.guest.handler.value, below, env, id);
      case _ =>
    }
  }

  lemma StepKeepsSettled(cfg: Config, p: Proc, a: Action, closed: bool, id: string)
    requires Enabled(cfg, p, a)
    ensures Keeps(p.mem, Apply(cfg, p, a, closed).mem, id)
  {
    match a {
      case OfExec(e) => ExecFrame(cfg, p, e, closed);
      case OfGuest(ga) => GuestKeepsSettled(cfg, p, ga, closed, id);
      case OfTask(op) =>
        if id in p.mem.tasks && !p.mem.tasks[id].state.TaskPending? {
          Tasks.SettledIsFrozen(p.mem.tasks, [op], id);
        }
      case _ =>
    }
  }

  /** A boot folds the tasks and the history that the memory held. */
  lemma RestoreKeepsTasks(cfg: Config, p: Proc)
    requires LogInv(cfg, p)
    ensures Restored(p).mem.tasks == p.mem.tasks && Restored(p).mem.journal.history == p.mem.journal.history
    ensures Restored(p).mem.quantum.None?
  {
  }

  lemma HappeningKeepsSettled(cfg: Config, s: State, h: Happening, id: string)
    requires LogInv(cfg, s.p) && CanHappen(cfg, s, h)
    ensures Keeps(s.p.mem, Then(cfg, s, h).p.mem, id)
  {
    match h {
      case Does(a) => StepKeepsSettled(cfg, s.p, a, s.closed, id);
      case Closes =>
      case Crashes => RestoreKeepsTasks(cfg, s.p);
    }
  }

  lemma NextKeepsSettled(cfg: Config, ident: Identity, life: Life, i: nat, id: string)
    requires IsLife(cfg, ident, life) && i < |life.happenings|
    ensures Keeps(life.states[i].p.mem, life.states[i + 1].p.mem, id)
  {
    EveryStateIsSound(cfg, ident, life, i);
    NextHappens(cfg, ident, life, i);
    HappeningKeepsSettled(cfg, life.states[i], life.happenings[i], id);
  }

  /** A task is settled at most once in the whole life of its process: from then on, every
      step, shutdown, crash and restore leaves its record as it is. */
  lemma {:induction false} SettledForLife(cfg: Config, ident: Identity, life: Life, i: nat, j: nat, id: string)
    requires IsLife(cfg, ident, life) && i <= j < |life.states|
    requires id in life.states[i].p.mem.tasks && !life.states[i].p.mem.tasks[id].state.TaskPending?
    ensures id in life.states[j].p.mem.tasks
    ensures life.states[j].p.mem.tasks[id] == life.states[i].p.mem.tasks[id]
    decreases j
  {
    if i < j {
      SettledForLife(cfg, ident, life, i, j - 1, id);
      NextKeepsSettled(cfg, ident, life, j - 1, id);
    }
  }

  // ---- Timers -----------------------------------------------------------

  /** A timer that has not fired: it is pending, or someone approved it instead. */
  predicate Unfired(task: TaskRecord) {
    task.syscall.name.SysTimer? && (task.state.TaskPending? || task.state.TaskApproved?)
  }

  ghost predicate UnfiredAtTail(p: Proc, id: string) {
    TaskAt(p.mem, id, p.mem.journal.revision, Tail(p)) && Unfired(p.mem.tasks[id])
  }

  /** An unfired timer's call decodes, never expires, and has no completion in its own
      revision. */
  ghost predicate TimerOpen(m: Mem, id: string) {
    id in m.tasks && Unfired(m.tasks[id]) ==>
      && Tasks.TimerSeconds(m.tasks[id].syscall).Some? && m.tasks[id].expiresAt.None?
      && !WroteAt(m.journal.history, m.tasks[id].position + 1, m.tasks[id].scope.revision)
  }

  /** No quantum holds a result for an unfired timer's call, and no handler serves one. */
  ghost predicate NoneAnswered(p: Proc) {
    p.mem.quantum.Some? && p.mem.quantum.value.guest.Running? ==>
      var guest := p.mem.quantum.value.guest;
      && (guest.side.act.Answered? ==> forall id :: !UnfiredAtTail(p, id))
      && (guest.handler.Some? ==> !guest.handler.value.call.name.SysTimer?)
  }

  ghost predicate TimerInv(p: Proc) {
    (forall id :: TimerOpen(p.mem, id)) && NoneAnswered(p)
  }

  lemma SameTimers(m: Mem, m': Mem)
    requires forall id :: TimerOpen(m, id)
    requires m'.tasks == m.tasks && m'.journal.history == m.journal.history
    ensures forall id :: TimerOpen(m', id)
  {
    forall id ensures TimerOpen(m', id) {
      assert TimerOpen(m, id);
    }
  }

  /** A record stays clear of the timers if it completes none of them. */
  lemma RecordPassesTimers(p: Proc, rec: Record, m': Mem)
    requires forall id :: TimerOpen(p.mem, id)
    requires m'.tasks == p.mem.tasks && m'.journal.history == Add(p.mem.journal.history, rec)
    requires forall id :: id in p.mem.tasks && Unfired(p.mem.tasks[id]) ==>
      rec.position != p.mem.tasks[id].position + 1 || rec.revision != p.mem.tasks[id].scope.revision
    ensures forall id :: TimerOpen(m', id)
  {
    forall id ensures TimerOpen(m', id) {
      assert TimerOpen(p.mem, id);
      if id in p.mem.tasks {
        AtAfterAdd(p.mem.journal.history, rec, p.mem.tasks[id].position + 1);
      }
    }
  }

  /** A revision's own intents fall on even positions. */
  lemma OwnIntentIsEven(cfg: Config, j: Journal, position: nat, call: Syscall)
    requires JournalInv(cfg, j) && position < j.length && Recorded(j.history, position, j.revision, call)
    ensures position % 2 == 0
  {
    ViewIsSound(cfg, j);
    var i: nat :| i < |At(j.history, position)| && At(j.history, position)[i].revision == j.revision
      && At(j.history, position)[i].kind.Intent? && At(j.history, position)[i].syscall == Some(call);
    OwnRecordIsSeen(j.history, j.revision, position, i);
    assert ViewOf(j)[position] == At(j.history, position)[i];
    assert Sound(ViewOf(j)[position], position);
  }

  /** A fresh intent falls on an even position, and a completion on an odd one. */
  lemma IntentPassesTimers(cfg: Config, p: Proc, call: Syscall, p': Proc)
    requires MemInv(cfg, p) && TasksInv(p) && TimerInv(p) && !HasOpenIntent(ViewOf(p.mem.journal))
    requires p'.mem.tasks == p.mem.tasks
    requires p'.mem.journal.history == Add(p.mem.journal.history, FreshIntent(p, call))
    ensures forall id :: TimerOpen(p'.mem, id)
  {
    var rec, j := FreshIntent(p, call), p.mem.journal;
    forall id | id in p.mem.tasks && Unfired(p.mem.tasks[id])
      ensures rec.position != p.mem.tasks[id].position + 1 || rec.revision != p.mem.tasks[id].scope.revision
    {
      assert TaskInv(p, id);
      var task := p.mem.tasks[id];
      if j.length == task.position + 1 && j.revision == task.scope.revision {
        OwnIntentIsEven(cfg, j, task.position, task.syscall);
      }
    }
    RecordPassesTimers(p, rec, p'.mem);
  }

  lemma AskPassesTimers(cfg: Config, p: Proc, closed: bool)
    requires Inv(cfg, p, closed) && TimerInv(p) && Enabled(cfg, p, OfGuest(GuestAsk))
    ensures TimerInv(Apply(cfg, p, OfGuest(GuestAsk), closed))
  {
    var q, v := p.mem.quantum.value, ViewOf(p.mem.journal);
    var side := q.guest.side;
    var call := cfg.guest(side.seen).value;
    var p' := Apply(cfg, p, OfGuest(GuestAsk), closed);
    AskIsDoAsk(cfg, p, closed);
    AskKeepsTasks(p, q, side, call);
    AskAnswersNothing(p, q, side, call);
    Replay.NeverDiverges(cfg.guest, v, side, call);
    if |side.seen| == Completed(v) && !HasOpenIntent(v) {
      FreshEffect(cfg, p, q, side, call);
      IntentPassesTimers(cfg, p, call, p');
    } else {
      QuietAsk(p, q, side, call);
      SameTimers(p.mem, p'.mem);
    }
  }

  /** Asking hands the guest a recorded result at once, or has the call driven. */
  lemma AskAnswersNothing(p: Proc, q: Quantum, side: Side, call: Syscall)
    requires !side.act.Answered?
    ensures NoneAnswered(DoAsk(p, q, side, call))
  {
  }

  lemma StrayPassesTimers(cfg: Config, p: Proc, call: Syscall, closed: bool)
    requires Inv(cfg, p, closed) && TimerInv(p) && Enabled(cfg, p, OfGuest(GuestStray(call)))
    ensures TimerInv(Apply(cfg, p, OfGuest(GuestStray(call)), closed))
  {
    var q := p.mem.quantum.value;
    StrayCallsAreRefused(ViewOf(p.mem.journal), q.guest.side, call, q.revision);
    QuietAsk(p, q, q.guest.side, call);
    AskKeepsTasks(p, q, q.guest.side, call);
    AskAnswersNothing(p, q, q.guest.side, call);
    SameTimers(p.mem, Apply(cfg, p, OfGuest(GuestStray(call)), closed).mem);
  }

  lemma CompletionPassesTimers(p: Proc, rec: Record, p': Proc)
    requires TimerInv(p) && rec.position == p.mem.journal.length && rec.revision == p.mem.journal.revision
    requires forall id :: !UnfiredAtTail(p, id)
    requires p'.mem.tasks == p.mem.tasks && p'.mem.journal.history == Add(p.mem.journal.history, rec)
    ensures forall id :: TimerOpen(p'.mem, id)
  {
    forall id | id in p.mem.tasks && Unfired(p.mem.tasks[id])
      ensures rec.position != p.mem.tasks[id].position + 1 || rec.revision != p.mem.tasks[id].scope.revision
    {
      assert !UnfiredAtTail(p, id);
    }
    RecordPassesTimers(p, rec, p'.mem);
  }

  lemma CommitPassesTimers(cfg: Config, p: Proc, q: Quantum, side: Side)
    requires JournalInv(cfg, p.mem.journal) && q.revision == p.mem.journal.revision
    requires SideInv(ViewOf(p.mem.journal), side) && side.act.Answered?
    requires TimerInv(p) && forall id :: !UnfiredAtTail(p, id)
    ensures TimerInv(DoCommit(p, q, side))
  {
    var v := ViewOf(p.mem.journal);
    CommitEffect(cfg, p, q, side);
    CommitKeepsTasks(p, q, side);
    CommittedJournal(p, q, side, CallAt(v, Completed(v)));
    CompletionPassesTimers(p, CompletionOf(p, side.act.result), DoCommit(p, q, side));
  }

  /** What the layers do with a timer's call: its recorded task answers it unless it is
      unfired, and an unfired one yields again. */
  lemma LayersOnTimer(cfg: Config, p: Proc, side: Side, env: Env, id: string)
    requires TasksInv(p) && TimerOpen(p.mem, id) && DrivingNow(p, side) && side.act.call.name.SysTimer?
    requires TaskAt(p.mem, id, p.mem.journal.revision, Tail(p)) && p.mem.tasks[id].syscall == side.act.call
    ensures Layers(cfg, p, side.act.call, env).Replies?
    ensures Layers(cfg, p, side.act.call, env).result.status.Yielded? <==> Unfired(p.mem.tasks[id])
  {
    assert HasTask(p.mem, p.mem.journal.revision, Tail(p));
    assert FindTask(p.mem, p.mem.journal.revision, Tail(p)) == id;
  }

  /** Without a task, a timer's call is refused or becomes one, and no handler runs it. */
  lemma LayersOnFreshTimer(cfg: Config, p: Proc, side: Side, env: Env)
    requires side.act.Driving? && !HasTask(p.mem, p.mem.journal.revision, Tail(p))
    ensures Layers(cfg, p, side.act.call, env).Calls? ==> !side.act.call.name.SysTimer?
    ensures Layers(cfg, p, side.act.call, env).Mints? && side.act.call.name.SysTimer? ==>
      var task := Layers(cfg, p, side.act.call, env).task;
      Tasks.TimerSeconds(task.syscall).Some? && task.expiresAt.None?
  {
  }

  lemma ReplyPassesTimers(cfg: Config, p: Proc, side: Side, result: SyscallResult)
    requires TimerInv(p) && DrivingNow(p, side)
    requires !result.status.Yielded? ==> forall id :: !UnfiredAtTail(p, id)
    ensures TimerInv(Reply(cfg, p, side, side.act.call, result))
  {
    var p' := Reply(cfg, p, side, side.act.call, result);
    ReplyFrame(cfg, p, side, side.act.call, result);
    assert p'.mem.tasks == p.mem.tasks;
    SameTimers(p.mem, p'.mem);
    forall id ensures UnfiredAtTail(p', id) ==> UnfiredAtTail(p, id) {
    }
  }

  /** Nothing follows the tail in the current revision. */
  lemma TailIsLast(cfg: Config, p: Proc, side: Side)
    requires MemInv(cfg, p) && SideInv(ViewOf(p.mem.journal), side) && side.act.Driving?
    ensures !WroteAt(p.mem.journal.history, Tail(p) + 1, p.mem.journal.revision)
  {
    ViewIsSound(cfg, p.mem.journal);
  }

  lemma MintPassesTimers(cfg: Config, p: Proc, side: Side, task: TaskRecord)
    requires MemInv(cfg, p) && TimerInv(p) && DrivingNow(p, side) && SideInv(ViewOf(p.mem.journal), side)
    requires task.id !in p.mem.tasks && task.scope.revision == p.mem.journal.revision && task.position == Tail(p)
    requires task.syscall.name.SysTimer? ==> Tasks.TimerSeconds(task.syscall).Some? && task.expiresAt.None?
    ensures TimerInv(MintAndYield(cfg, p, side, side.act.call, task))
  {
    TailIsLast(cfg, p, side);
    var p1 := WithTask(p, side, task);
    forall id ensures TimerOpen(p1.mem, id) {
      assert TimerOpen(p.mem, id);
    }
    MintingIsYieldingOverATask(cfg, p, side, task);
    ReplyPassesTimers(cfg, p1, side, Yield(task.id));
  }

  lemma LayersPassTimers(cfg: Config, p: Proc, env: Env, closed: bool)
    requires Inv(cfg, p, closed) && TimerInv(p) && Enabled(cfg, p, OfGuest(LayersAnswer(env)))
    ensures TimerInv(Apply(cfg, p, OfGuest(LayersAnswer(env)), closed))
  {
    var side := p.mem.quantum.value.guest.side;
    LayersFit(cfg, p, side, env);
    if HasTask(p.mem, p.mem.journal.revision, Tail(p)) {
      var id := FindTask(p.mem, p.mem.journal.revision, Tail(p));
      FoundTaskIsTheCalls(cfg, p, side, id);
      assert TimerOpen(p.mem, id);
      if side.act.call.name.SysTimer? {
        LayersOnTimer(cfg, p, side, env, id);
      }
      assert forall x :: UnfiredAtTail(p, x) ==> x == id;
    } else {
      LayersOnFreshTimer(cfg, p, side, env);
    }
    LayersStepPassesTimers(cfg, p, side, env);
  }

  lemma LayersStepPassesTimers(cfg: Config, p: Proc, side: Side, env: Env)
    requires MemInv(cfg, p) && TimerInv(p) && DrivingNow(p, side) && SideInv(ViewOf(p.mem.journal), side)
    requires FairEnv(p.mem, env)
    requires match Layers(cfg, p, side.act.call, env)
      case Replies(result) => !result.status.Yielded? ==> forall id :: !UnfiredAtTail(p, id)
      case Mints(task) =>
        && task == NewTask(cfg, p, side.act.call, "approval", env)
        && (task.syscall.name.SysTimer? ==> Tasks.TimerSeconds(task.syscall).Some? && task.expiresAt.None?)
      case Calls(handler) => !handler.call.name.SysTimer?
    ensures TimerInv(DoLayers(cfg, p, side, env))
  {
    match Layers(cfg, p, side.act.call, env) {
      case Replies(result) => ReplyPassesTimers(cfg, p, side, result);
      case Mints(task) => MintPassesTimers(cfg, p, side, task);
      case Calls(handler) => SameTimers(p.mem, DoLayers(cfg, p, side, env).mem);
    }
  }

  /** What holds of a process while a guest runs. */
  lemma SoundDriving(cfg: Config, p: Proc, closed: bool, q: Quantum)
    requires Inv(cfg, p, closed) && p.mem.quantum == Some(q) && q.guest.Running?
    ensures MemInv(cfg, p) && TasksInv(p) && SideInv(ViewOf(p.mem.journal), q.guest.side)
    ensures q.guest.handler.Some? ==> q.guest.handler.value.call == q.guest.side.act.call
  {
    if q.guest.handler.Some? {
      assert HandlerInv(cfg, p, q.guest.side, q.guest.handler.value);
    }
  }

  lemma NoTimerAtTail(cfg: Config, p: Proc, side: Side)
    requires MemInv(cfg, p) && TasksInv(p) && DrivingNow(p, side) && SideInv(ViewOf(p.mem.journal), side)
    requires !side.act.call.name.SysTimer?
    ensures forall id :: !UnfiredAtTail(p, id)
  {
    forall id ensures !UnfiredAtTail(p, id) {
      if TaskAt(p.mem, id, p.mem.journal.revision, Tail(p)) {
        FoundTaskIsTheCalls(cfg, p, side, id);
      }
    }
  }

  lemma HandlerPassesTimers(
    cfg: Config, p: Proc, side: Side, handler: HandlerCall, below: Tape.Below, env: Env)
    requires MemInv(cfg, p) && TasksInv(p) && TimerInv(p) && DrivingNow(p, side)
    requires SideInv(ViewOf(p.mem.journal), side) && FairEnv(p.mem, env) && !side.act.call.name.SysTimer?
    ensures TimerInv(DoHandler(cfg, p, side, handler, below, env))
  {
    NoTimerAtTail(cfg, p, side);
    match below {
      case Fails =>
        SameTimers(p.mem, DoHandler(cfg, p, side, handler, below, env).mem);
      case Answers(result) =>
        if result.status.Yielded? && !handler.viaTask {
          MintPassesTimers(cfg, p, side, NewTask(cfg, p, side.act.call, result.message, env));
        } else {
          ReplyPassesTimers(cfg, p, side, result);
        }
    }
  }

  lemma GuestPassesTimers(cfg: Config, p: Proc, a: GuestAction, closed: bool)
    requires Inv(cfg, p, closed) && TimerInv(p) && Enabled(cfg, p, OfGuest(a))
    ensures TimerInv(Apply(cfg, p, OfGuest(a), closed))
  {
    var q := p.mem.quantum.value;
    if q.guest.Running? {
      SoundDriving(cfg, p, closed, q);
    }
    match a {
      case GuestAsk => AskPassesTimers(cfg, p, closed);
      case GuestStray(call) => StrayPassesTimers(cfg, p, call, closed);
      case GuestCommit => CommitPassesTimers(cfg, p, q, q.guest.side);
      case LayersAnswer(env) => LayersPassTimers(cfg, p, env, closed);
      case HandlerReturns(below, env) =>
        HandlerPassesTimers(cfg, p, q.guest.side, q.guest.handler.value, below, env);
      case _ => SameTimers(p.mem, Apply(cfg, p, OfGuest(a), closed).mem);
    }
  }

  lemma SettlingKeepsTimers(p: Proc, p': Proc, id: string)
    requires TimerInv(p) && id in p.mem.tasks && id in p'.mem.tasks && p.mem.tasks[id].state.TaskPending?
    requires p'.mem == p.mem.(tasks := p.mem.tasks[id := p'.mem.tasks[id]])
    requires var before, after := p.mem.tasks[id], p'.mem.tasks[id];
      after == before.(state := after.state, resolution := after.resolution, resolvedAt := after.resolvedAt)
    ensures TimerInv(p')
  {
    forall x ensures TimerOpen(p'.mem, x) {
      assert TimerOpen(p.mem, x);
    }
    forall x ensures UnfiredAtTail(p', x) ==> UnfiredAtTail(p, x) {
    }
  }

  /** A decision or a sweep settles a timer, and makes none unfired. */
  lemma TaskStepPassesTimers(p: Proc, op: Tasks.Op)
    requires TasksInv(p) && TimerInv(p) && (op.ResolveOp? || op.SettleOp?)
    ensures TimerInv(DoTask(p, op))
  {
    if DoTask(p, op) != p {
      TaskStepEffect(p, op);
      SettlingKeepsTimers(p, DoTask(p, op), op.id);
    }
  }

  /** A step that leaves the history, the tasks and any running guest as they are. */
  lemma QuietStepPassesTimers(p: Proc, p': Proc)
    requires TimerInv(p) && p'.mem.tasks == p.mem.tasks && p'.mem.journal.history == p.mem.journal.history
    requires p'.mem.quantum.Some? && p'.mem.quantum.value.guest.Running? ==>
      && p.mem.quantum.Some? && p'.mem.quantum.value.guest == p.mem.quantum.value.guest
      && p'.mem.journal == p.mem.journal
    ensures TimerInv(p')
  {
    SameTimers(p.mem, p'.mem);
    assert p'.mem.journal == p.mem.journal ==> forall id :: UnfiredAtTail(p', id) ==> UnfiredAtTail(p, id);
  }

  lemma ApiPassesTimers(cfg: Config, p: Proc, a: Action, closed: bool)
    requires TimerInv(p) && Enabled(cfg, p, a) && (a.ApiStop? || a.ApiRetry?)
    ensures TimerInv(Apply(cfg, p, a, closed))
  {
    if a.ApiStop? {
      StopFrame(p);
      QuietStepPassesTimers(p, DoStop(p));
    } else {
      RetryFrame(p, a.restart, closed);
      QuietStepPassesTimers(p, DoRetry(p, a.restart, closed));
    }
  }

  lemma StepPassesTimers(cfg: Config, p: Proc, a: Action, closed: bool)
    requires Inv(cfg, p, closed) && TimerInv(p) && Enabled(cfg, p, a)
    ensures TimerInv(Apply(cfg, p, a, closed))
  {
    match a {
      case OfExec(e) =>
        ExecFrame(cfg, p, e, closed);
        QuietStepPassesTimers(p, Apply(cfg, p, a, closed));
      case OfGuest(ga) => GuestPassesTimers(cfg, p, ga, closed);
      case OfTask(op) => TaskStepPassesTimers(p, op);
      case _ => ApiPassesTimers(cfg, p, a, closed);
    }
  }

  lemma HappeningPassesTimers(cfg: Config, s: State, h: Happening)
    requires Inv(cfg, s.p, s.closed) && TimerInv(s.p) && CanHappen(cfg, s, h)
    ensures TimerInv(Then(cfg, s, h).p)
  {
    match h {
      case Does(a) => StepPassesTimers(cfg, s.p, a, s.closed);
      case Closes =>
      case Crashes =>
        RestoreKeepsTasks(cfg, s.p);
        QuietStepPassesTimers(s.p, Restored(s.p));
    }
  }

  lemma NextPassesTimers(cfg: Config, ident: Identity, life: Life, i: nat)
    requires IsLife(cfg, ident, life) && i < |life.happenings| && TimerInv(life.states[i].p)
    ensures TimerInv(life.states[i + 1].p)
  {
    EveryStateIsSound(cfg, ident, life, i);
    NextHappens(cfg, ident, life, i);
    HappeningPassesTimers(cfg, life.states[i], life.happenings[i]);
  }

  lemma {:induction false} TimersStayOpen(cfg: Config, ident: Identity, life: Life, i: nat)
    requires IsLife(cfg, ident, life) && i < |life.states|
    ensures TimerInv(life.states[i].p)
  {
    if i == 0 {
      FirstIsTheCreation(cfg, ident, life);
    } else {
      TimersStayOpen(cfg, ident, life, i - 1);
      NextPassesTimers(cfg, ident, life, i - 1);
    }
  }

  lemma ReachableTimers(cfg: Config, s: State)
    requires Reachable(cfg, s)
    ensures TimerInv(s.p)
  {
    var ident: Identity, life: Life, i: nat :| PassesThrough(cfg, ident, life, i, s);
    TimersStayOpen(cfg, ident, life, i);
  }

  lemma TimerDriven(cfg: Config, p: Proc, side: Side, env: Env, id: string)
    requires MemInv(cfg, p) && TasksInv(p) && TimerInv(p) && DrivingNow(p, side)
    requires SideInv(ViewOf(p.mem.journal), side)
    requires TaskAt(p.mem, id, p.mem.journal.revision, Tail(p)) && p.mem.tasks[id].syscall.name.SysTimer?
    ensures var p' := DoLayers(cfg, p, side, env);
      && p'.mem.journal == p.mem.journal && p'.mem.quantum.Some? && p'.mem.quantum.value.guest.Running?
      && var act := p'.mem.quantum.value.guest.side.act;
         if Unfired(p.mem.tasks[id]) then act == Parked(true) else act.Answered?
  {
    FoundTaskIsTheCalls(cfg, p, side, id);
    assert TimerOpen(p.mem, id);
    LayersOnTimer(cfg, p, side, env, id);
  }

  /** Exactly when a recorded timer answers its call: driven again, the call gets a result
      if the timer fired or was otherwise settled, and it parks if the task is pending or
      was approved. Approving a timer does not fire it. */
  lemma TimerAnswersUnlessApproved(cfg: Config, s: State, env: Env, id: string)
    requires Reachable(cfg, s) && Enabled(cfg, s.p, OfGuest(LayersAnswer(env)))
    requires TaskAt(s.p.mem, id, s.p.mem.journal.revision, Tail(s.p)) && s.p.mem.tasks[id].syscall.name.SysTimer?
    ensures var p' := Apply(cfg, s.p, OfGuest(LayersAnswer(env)), s.closed);
      && p'.mem.journal == s.p.mem.journal && p'.mem.quantum.Some? && p'.mem.quantum.value.guest.Running?
      && var act := p'.mem.quantum.value.guest.side.act;
         if Unfired(s.p.mem.tasks[id]) then act == Parked(true) else act.Answered?
  {
    LayersApply(cfg, s.p, env, s.closed);
    ReachableDriving(cfg, s, env);
    ReachableTimers(cfg, s);
    TimerDriven(cfg, s.p, s.p.mem.quantum.value.guest.side, env, id);
  }

  lemma LayersApply(cfg: Config, p: Proc, env: Env, closed: bool)
    requires Enabled(cfg, p, OfGuest(LayersAnswer(env)))
    ensures Apply(cfg, p, OfGuest(LayersAnswer(env)), closed)
         == DoLayers(cfg, p, p.mem.quantum.value.guest.side, env)
  {
  }

  lemma ReachableDriving(cfg: Config, s: State, env: Env)
    requires Reachable(cfg, s) && Enabled(cfg, s.p, OfGuest(LayersAnswer(env)))
    ensures MemInv(cfg, s.p) && TasksInv(s.p) && DrivingNow(s.p, s.p.mem.quantum.value.guest.side)
    ensures SideInv(ViewOf(s.p.mem.journal), s.p.mem.quantum.value.guest.side)
  {
    ReachableIsSound(cfg, s);
    SoundDriving(cfg, s.p, s.closed, s.p.mem.quantum.value);
  }

  /** So once a timer was approved, its call never completes in its revision, through every
      wake, crash and restore, though each wake of the parked process launches a quantum on
      the same journal. */
  lemma ApprovedTimerNeverCompletes(cfg: Config, ident: Identity, life: Life, i: nat, j: nat, id: string)
    requires IsLife(cfg, ident, life) && i <= j < |life.states|
    requires id in life.states[i].p.mem.tasks
    requires life.states[i].p.mem.tasks[id].state.TaskApproved? && life.states[i].p.mem.tasks[id].syscall.name.SysTimer?
    ensures var task, p := life.states[i].p.mem.tasks[id], life.states[j].p;
      && id in p.mem.tasks && p.mem.tasks[id] == task
      && !WroteAt(p.mem.journal.history, task.position + 1, task.scope.revision)
      && (p.mem.status.ProcessWaiting? ==>
           && Enabled(cfg, p, ApiRetry(false))
           && var woken := Apply(cfg, p, ApiRetry(false), false);
              Launches(p, woken) && woken.mem.journal == p.mem.journal)
  {
    SettledForLife(cfg, ident, life, i, j, id);
    TimersStayOpen(cfg, ident, life, j);
    assert TimerOpen(life.states[j].p.mem, id);
  }
}
