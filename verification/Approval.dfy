/** Who let a guarded call run: how every task came to be and to be decided, and that a
    guarded handler is invoked only under a decision a human made for its own call. */
module Approval {
  import opened Sys
  import opened Journaled
  import opened Durable
  import opened Replay
  import opened Flow
  import opened Capability
  import opened Process
  import opened ProcessInv
  import opened ProcessSafety
  import opened TaskSafety
  import Tasks
  import Tape

  // ---- How a task came to be decided ------------------------------------

  /** A new task is pending, and expires a lifetime after it was minted, unless it is a
      timer or lifetimes are off. */
  predicate MintedRight(cfg: Config, task: TaskRecord) {
    task.expiresAt ==
      if cfg.taskTTL > 0 && !task.syscall.name.SysTimer? then Some(task.createdAt + cfg.taskTTL) else None
  }

  /** The operation is a resolver's with the task's own token, before its expiry, and the
      task stands exactly as it decided. */
  predicate DecidesAs(h: Happening, id: string, task: TaskRecord) {
    && h.Does? && h.action.OfTask? && h.action.op.ResolveOp?
    && h.action.op.id == id && h.action.op.tokenHash == task.tokenHash
    && (task.expiresAt.Some? ==> h.action.op.now < task.expiresAt.value)
    && task.state == h.action.op.resolution.decision && task.resolution == h.action.op.resolution
    && task.resolvedAt == Some(h.action.op.now)
  }

  /** The operation is a sweep after the task's deadline: a timer fired, or it expired. */
  ghost predicate SettlesAs(h: Happening, id: string, task: TaskRecord) {
    && h.Does? && h.action.OfTask? && h.action.op.SettleOp? && h.action.op.id == id
    && task.resolvedAt == Some(h.action.op.now)
    && ((task.state.TaskExpired? && task.expiresAt.Some? && task.expiresAt.value <= h.action.op.now)
        || (task.state.TaskCompleted? && task.resolution.data == "fired"
            && exists seconds ::
                 Tasks.AsksToWait(task.syscall, seconds) && task.createdAt + seconds <= h.action.op.now))
  }

  ghost predicate SettledEarlier(life: Life, i: nat, id: string, task: TaskRecord)
    requires |life.states| == |life.happenings| + 1 && i <= |life.happenings|
  {
    exists m: nat :: m < i && (DecidesAs(life.happenings[m], id, task) || SettlesAs(life.happenings[m], id, task))
  }

  /** A task is as it was minted, or as an earlier resolver or sweep left it. */
  ghost predicate Accounted(cfg: Config, life: Life, i: nat, id: string)
    requires |life.states| == |life.happenings| + 1 && i < |life.states|
  {
    id in life.states[i].p.mem.tasks ==>
      var task := life.states[i].p.mem.tasks[id];
      MintedRight(cfg, task) && (task.state.TaskPending? || SettledEarlier(life, i, id, task))
  }

  /** After a step a task is as it was, or new. */
  ghost predicate SameOrNew(cfg: Config, m: Mem, m': Mem, id: string) {
    id in m'.tasks ==>
      || (id in m.tasks && m'.tasks[id] == m.tasks[id])
      || (MintedRight(cfg, m'.tasks[id]) && m'.tasks[id].state.TaskPending?)
  }

  lemma MintIsNew(cfg: Config, p: Proc, side: Side, call: Syscall, summary: string, env: Env, id: string)
    requires p.mem.quantum.Some?
    ensures SameOrNew(
      cfg, p.mem, MintAndYield(cfg, p, side, call, NewTask(cfg, p, call, summary, env)).mem, id)
  {
  }

  lemma LayersAreNew(cfg: Config, p: Proc, side: Side, env: Env, id: string)
    requires p.mem.quantum.Some? && side.act.Driving?
    ensures SameOrNew(cfg, p.mem, DoLayers(cfg, p, side, env).mem, id)
  {
    match Layers(cfg, p, side.act.call, env) {
      case Mints(task) =>
        LayersMintTheCalls(cfg, p, side.act.call, env);
        MintIsNew(cfg, p, side, side.act.call, "approval", env, id);
      case Replies(result) => assert Reply(cfg, p, side, side.act.call, result).mem.tasks == p.mem.tasks;
      case Calls(_) =>
    }
  }

  lemma LayersMintTheCalls(cfg: Config, p: Proc, call: Syscall, env: Env)
    requires Layers(cfg, p, call, env).Mints?
    ensures Layers(cfg, p, call, env).task == NewTask(cfg, p, call, "approval", env)
  {
  }

  lemma HandlerIsNew(
    cfg: Config, p: Proc, side: Side, handler: HandlerCall, below: Tape.Below, env: Env, id: string)
    requires p.mem.quantum.Some? && side.act.Driving?
    ensures SameOrNew(cfg, p.mem, DoHandler(cfg, p, side, handler, below, env).mem, id)
  {
    if below.Answers? {
      MintIsNew(cfg, p, side, side.act.call, below.result.message, env, id);
    }
  }

  lemma GuestTasks(cfg: Config, p: Proc, a: GuestAction, closed: bool, id: string)
    requires Enabled(cfg, p, OfGuest(a))
    ensures SameOrNew(cfg, p.mem, Apply(cfg, p, OfGuest(a), closed).mem, id)
  {
    var q := p.mem.quantum.value;
    match a {
      case GuestAsk => AskKeepsTasks(p, q, q.guest.side, cfg.guest(q.guest.side.seen).value);
      case GuestStray(call) => AskKeepsTasks(p, q, q.guest.side, call);
      case GuestCommit => CommitKeepsTasks(p, q, q.guest.side);
      case LayersAnswer(env) => LayersAreNew(cfg, p, q.guest.side, env, id);
      case HandlerReturns(below, env) =>
        HandlerIsNew(cfg, p, q.guest.side, q.guest.handler.value, below, env, id);
      case _ =>
    }
  }

  /** What a resolver or a sweep does to a task. */
  lemma TaskStepSettles(p: Proc, op: Tasks.Op, id: string)
    requires (op.ResolveOp? || op.SettleOp?) && Tasks.Proper(op) && id in DoTask(p, op).mem.tasks
    ensures id in p.mem.tasks
    ensures var before, after := p.mem.tasks[id], DoTask(p, op).mem.tasks[id];
      || after == before
      || (before.state.TaskPending?
          && after == before.(state := after.state, resolution := after.resolution, resolvedAt := after.resolvedAt)
          && (DecidesAs(Does(OfTask(op)), id, after) || SettlesAs(Does(OfTask(op)), id, after)))
  {
    if id == op.id && op.SettleOp? && Tasks.TimerFireAt(p.mem.tasks[id]).Some? {
      var task := p.mem.tasks[id];
      assert Tasks.AsksToWait(task.syscall, Tasks.TimerSeconds(task.syscall).value);
    }
  }

  lemma StepTasks(cfg: Config, p: Proc, a: Action, closed: bool, id: string)
    requires Enabled(cfg, p, a) && !a.OfTask?
    ensures SameOrNew(cfg, p.mem, Apply(cfg, p, a, closed).mem, id)
  {
    match a {
      case OfExec(e) => ExecFrame(cfg, p, e, closed);
      case OfGuest(ga) => GuestTasks(cfg, p, ga, closed, id);
      case ApiStop => StopFrame(p);
      case ApiRetry(restart) => RetryFrame(p, restart, closed);
    }
  }

  /** What happens leaves a task as it was, mints it, or settles it. */
  ghost predicate Passes(cfg: Config, m: Mem, h: Happening, m': Mem, id: string) {
    || SameOrNew(cfg, m, m', id)
    || (id in m.tasks && id in m'.tasks && (DecidesAs(h, id, m'.tasks[id]) || SettlesAs(h, id, m'.tasks[id]))
        && (MintedRight(cfg, m.tasks[id]) ==> MintedRight(cfg, m'.tasks[id])))
  }

  lemma HappeningPasses(cfg: Config, s: State, h: Happening, id: string)
    requires LogInv(cfg, s.p) && CanHappen(cfg, s, h)
    ensures Passes(cfg, s.p.mem, h, Then(cfg, s, h).p.mem, id)
  {
    match h {
      case Does(a) =>
        if a.OfTask? {
          if id in DoTask(s.p, a.op).mem.tasks { TaskStepSettles(s.p, a.op, id); }
        } else {
          StepTasks(cfg, s.p, a, s.closed, id);
        }
      case Closes =>
      case Crashes => RestoreKeepsTasks(cfg, s.p);
    }
  }

  lemma StaysSettled(life: Life, i: nat, id: string, task: TaskRecord)
    requires |life.states| == |life.happenings| + 1 && i < |life.happenings|
    requires SettledEarlier(life, i, id, task)
      || DecidesAs(life.happenings[i], id, task) || SettlesAs(life.happenings[i], id, task)
    ensures SettledEarlier(life, i + 1, id, task)
  {
  }

  lemma NextIsAccounted(cfg: Config, ident: Identity, life: Life, i: nat, id: string)
    requires IsLife(cfg, ident, life) && i < |life.happenings| && Accounted(cfg, life, i, id)
    ensures Accounted(cfg, life, i + 1, id)
  {
    EveryStateIsSound(cfg, ident, life, i);
    NextHappens(cfg, ident, life, i);
    HappeningPasses(cfg, life.states[i], life.happenings[i], id);
    PassingIsAccounted(cfg, life, i, id);
  }

  lemma PassingIsAccounted(cfg: Config, life: Life, i: nat, id: string)
    requires |life.states| == |life.happenings| + 1 && i < |life.happenings| && Accounted(cfg, life, i, id)
    requires Passes(cfg, life.states[i].p.mem, life.happenings[i], life.states[i + 1].p.mem, id)
    ensures Accounted(cfg, life, i + 1, id)
  {
    if id in life.states[i + 1].p.mem.tasks && !life.states[i + 1].p.mem.tasks[id].state.TaskPending? {
      StaysSettled(life, i, id, life.states[i + 1].p.mem.tasks[id]);
    }
  }

  /** In every state of every life, crashes and restores included, each task is as it was
      minted, with its lifetime, or it stands exactly as one earlier resolver with its token
      decided in time, or as a sweep left it after its deadline. So a task is approved only
      if a resolver's own decision was to approve it. */
  lemma {:induction false} EveryTaskStandsAsDecided(cfg: Config, ident: Identity, life: Life, i: nat, id: string)
    requires IsLife(cfg, ident, life) && i < |life.states|
    ensures Accounted(cfg, life, i, id)
  {
    if i == 0 {
      FirstIsTheCreation(cfg, ident, life);
    } else {
      EveryTaskStandsAsDecided(cfg, ident, life, i - 1, id);
      NextIsAccounted(cfg, ident, life, i - 1, id);
    }
  }

  // ---- Approval ---------------------------------------------------------

  /** An Approved task of this very call: its scope, position and syscall. */
  ghost predicate ApprovedFor(p: Proc, id: string, call: Syscall) {
    && id in p.mem.tasks
    && p.mem.tasks[id].state.TaskApproved?
    && p.mem.tasks[id].scope == ContextOf(p)
    && p.mem.tasks[id].position == p.mem.journal.length - 1
    && p.mem.tasks[id].syscall == call
  }

  /** The operation needs a human in this view: always, or because an earlier completed
      call carried a label it forbids. */
  ghost predicate NeedsApproval(entry: Entry, v: seq<Record>)
    requires WellFormed(v)
  {
    entry.requireApproval || exists j: nat, l :: l in entry.forbid && Carried(v, j, l)
  }

  predicate Invokes(p: Proc, p': Proc) {
    && p'.mem.quantum.Some? && p'.mem.quantum.value.guest.Running?
    && p'.mem.quantum.value.guest.handler.Some?
    && (p.mem.quantum.None? || !p.mem.quantum.value.guest.Running? || p.mem.quantum.value.guest.handler.None?)
  }

  lemma OnlyTheLayersInvoke(cfg: Config, p: Proc, a: Action, closed: bool)
    requires Enabled(cfg, p, a) && Invokes(p, Apply(cfg, p, a, closed))
    ensures a.OfGuest? && a.guest.LayersAnswer?
  {
    match a {
      case OfExec(e) => ExecFrame(cfg, p, e, closed);
      case OfGuest(ga) => GuestFrame(cfg, p, ga, closed);
      case _ =>
    }
  }

  /** What the layers hand to a handler: the call its own grant resolves, and an approval
      when the taint guards it. */
  lemma GateBeforeHandler(cfg: Config, p: Proc, call: Syscall, env: Env)
    requires Layers(cfg, p, call, env).Calls?
    requires HasTask(p.mem, p.mem.journal.revision, Tail(p)) ==>
      p.mem.tasks[FindTask(p.mem, p.mem.journal.revision, Tail(p))].syscall == call
    ensures var handler := Layers(cfg, p, call, env).handler;
      && handler.call == call
      && Serves(cfg.grants, call, handler.entry)
      && (Guarded(handler.entry, RunTaint(p.mem)) ==> handler.viaTask)
  {
    ResolvedGate(cfg.grants, RunTaint(p.mem), call, true);
    ResolvedGate(cfg.grants, RunTaint(p.mem), call, false);
    ResolvedServes(cfg.grants, call, Layers(cfg, p, call, env).handler.entry);
  }

  lemma LabelsGuard(p: Proc, entry: Entry)
    requires TaintInv(p) && SeenCount(p.mem) == Completed(ViewOf(p.mem.journal))
    requires NeedsApproval(entry, ViewOf(p.mem.journal))
    ensures Guarded(entry, RunTaint(p.mem))
  {
    if !entry.requireApproval {
      var j: nat, l :| l in entry.forbid && Carried(ViewOf(p.mem.journal), j, l);
      TaintHoldsWhatWasSeen(p, j, l);
    }
  }

  lemma ReachableInvocation(cfg: Config, s: State, a: Action)
    requires Reachable(cfg, s) && Enabled(cfg, s.p, a)
    requires Invokes(s.p, Apply(cfg, s.p, a, s.closed))
    ensures WellFormed(ViewOf(s.p.mem.journal)) && HasOpenIntent(ViewOf(s.p.mem.journal))
    ensures var v := ViewOf(s.p.mem.journal);
      var call := CallAt(v, Completed(v));
      var handler := Apply(cfg, s.p, a, s.closed).mem.quantum.value.guest.handler.value;
      && handler.call == call && Serves(cfg.grants, call, handler.entry)
      && (NeedsApproval(handler.entry, v) ==> exists id :: ApprovedFor(s.p, id, call))
  {
    ReachableIsSound(cfg, s);
    OnlyTheLayersInvoke(cfg, s.p, a, s.closed);
    var p, side := s.p, s.p.mem.quantum.value.guest.side;
    var v := ViewOf(p.mem.journal);
    LayersFit(cfg, p, side, a.guest.env);
    if HasTask(p.mem, p.mem.journal.revision, Tail(p)) {
      FoundTaskIsTheCalls(cfg, p, side, FindTask(p.mem, p.mem.journal.revision, Tail(p)));
    }
    GateBeforeHandler(cfg, p, side.act.call, a.guest.env);
    var handler := Layers(cfg, p, side.act.call, a.guest.env).handler;
    if NeedsApproval(handler.entry, v) {
      LabelsGuard(p, handler.entry);
      ApprovedTaskIsForTheCall(cfg, p, side, handler);
    }
  }

  lemma ApprovedTaskIsForTheCall(cfg: Config, p: Proc, side: Side, handler: HandlerCall)
    requires MemInv(cfg, p) && TasksInv(p) && HandlerInv(cfg, p, side, handler) && handler.viaTask
    requires SideInv(ViewOf(p.mem.journal), side)
    ensures exists id :: ApprovedFor(p, id, handler.call)
  {
    OpenTailIsOwn(cfg, p.mem.journal);
    var id :| ApprovedAtTail(p, id) && p.mem.tasks[id].syscall == handler.call;
    assert TaskInv(p, id);
    assert ApprovedFor(p, id, handler.call);
  }

  /** Earlier in the life a resolver with the task's token decided to approve it. */
  ghost predicate ApprovedEarlier(life: Life, i: nat, id: string, task: TaskRecord)
    requires |life.states| == |life.happenings| + 1 && i <= |life.happenings|
  {
    exists m: nat :: m < i && Approves(life.happenings[m], id, task)
  }

  predicate Approves(h: Happening, id: string, task: TaskRecord) {
    && h.Does? && h.action.OfTask? && h.action.op.ResolveOp?
    && h.action.op.id == id && h.action.op.tokenHash == task.tokenHash
    && h.action.op.resolution.decision.TaskApproved?
  }

  lemma ApprovedByAResolver(cfg: Config, ident: Identity, life: Life, i: nat, id: string)
    requires IsLife(cfg, ident, life) && i < |life.states| && id in life.states[i].p.mem.tasks
    requires life.states[i].p.mem.tasks[id].state.TaskApproved?
    ensures ApprovedEarlier(life, i, id, life.states[i].p.mem.tasks[id])
  {
    EveryTaskStandsAsDecided(cfg, ident, life, i, id);
    var task := life.states[i].p.mem.tasks[id];
    var m: nat :| m < i && (DecidesAs(life.happenings[m], id, task) || SettlesAs(life.happenings[m], id, task));
    assert Approves(life.happenings[m], id, task);
  }

  /** A task of this very call that a human approved, earlier in the life. */
  ghost predicate HumanApproved(life: Life, i: nat, id: string, call: Syscall)
    requires |life.states| == |life.happenings| + 1 && i < |life.states|
  {
    && ApprovedFor(life.states[i].p, id, call)
    && ApprovedEarlier(life, i, id, life.states[i].p.mem.tasks[id])
  }

  /** Over all lives: a handler is invoked for the call whose intent is open at the tail,
      under the entry filed at the call's own name and operation. If that entry requires
      approval, or forbids a label that any completed call of the view carried, it is
      invoked only under a task of this scope, this position and this syscall which a
      resolver with the task's token decided to approve. */
  lemma NoGuardedHandlerRunsUnapproved(cfg: Config, ident: Identity, life: Life, i: nat, a: Action)
    requires IsLife(cfg, ident, life) && i < |life.states| && Enabled(cfg, life.states[i].p, a)
    requires Invokes(life.states[i].p, Apply(cfg, life.states[i].p, a, life.states[i].closed))
    ensures WellFormed(ViewOf(life.states[i].p.mem.journal)) && HasOpenIntent(ViewOf(life.states[i].p.mem.journal))
    ensures var s := life.states[i];
      var v := ViewOf(s.p.mem.journal);
      var call := CallAt(v, Completed(v));
      var handler := Apply(cfg, s.p, a, s.closed).mem.quantum.value.guest.handler.value;
      && handler.call == call && Serves(cfg.grants, call, handler.entry)
      && (NeedsApproval(handler.entry, v) ==> exists id :: HumanApproved(life, i, id, call))
  {
    var s := life.states[i];
    assert PassesThrough(cfg, ident, life, i, s);
    ReachableInvocation(cfg, s, a);
    var v := ViewOf(s.p.mem.journal);
    var call := CallAt(v, Completed(v));
    if id :| ApprovedFor(s.p, id, call) {
      ApprovedByAResolver(cfg, ident, life, i, id);
      assert HumanApproved(life, i, id, call);
    }
  }
}
