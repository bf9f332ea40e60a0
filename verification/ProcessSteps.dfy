/** The executor, the API, the sweep, creation and restore keep the process invariant,
    so it holds over whole runs. */
module ProcessSteps {
  import opened Sys
  import opened Journaled
  import opened Durable
  import opened History
  import opened Lineage
  import opened Replay
  import opened Flow
  import opened Process
  import opened ProcessInv
  import Tasks

  // ---- Between quanta ---------------------------------------------------

  function Idle(p: Proc): Proc {
    p.(mem := p.mem.(quantum := None))
  }

  /** Everything but the quantum is sound: what finishing and relaunching need. */
  ghost predicate Resting(cfg: Config, p: Proc) {
    && LogInv(cfg, p) && MemInv(cfg, p) && TasksInv(p) && TaintInv(Idle(p))
  }

  lemma RestsBetweenQuanta(cfg: Config, p: Proc, closed: bool)
    requires Inv(cfg, p, closed)
    ensures Resting(cfg, p)
  {
    TaintStays(p, Idle(p));
  }

  /** A taint released at the end of a run, or with its revision, is the empty fold. */
  lemma ReleasedTaint(p: Proc)
    requires WellFormed(ViewOf(p.mem.journal)) && p.mem.quantum.None?
    requires p.mem.taints == map[] && p.mem.yielded == map[]
    ensures TaintInv(p)
  {
    var v := ViewOf(p.mem.journal);
    assert |v| == 1 ==> Observe(map[], {}, SourceOf(CallAt(v, 0))) == map[];
    assert TaintAt(v, map[], map[], 0, 0);
    assert Traced(v, map[], map[], 0);
  }

  /** The memory a finished run leaves. */
  function FinishedMem(m: Mem, status: ProcessStatus, answer: string, error: string): Mem {
    var m1 := m.(status := status, answer := answer, error := error, stoppable := false, quantum := None);
    if IsTerminal(status)
    then m1.(labels := RunTaint(m).Keys, taints := m.taints - {m.journal.revision}, yielded := map[]) else m1
  }

  lemma FinishKeeps(cfg: Config, p: Proc, status: ProcessStatus, answer: string, error: string, closed: bool)
    requires Resting(cfg, p) && !IsLive(status)
    requires status.ProcessCompleted? ==> KeepsLabels(ViewOf(p.mem.journal), RunTaint(p.mem).Keys)
    ensures Inv(cfg, FinishRun(p, status, answer, error), closed)
  {
    var p1 := p.(mem := FinishedMem(p.mem, status, answer, error));
    assert FinishRun(p, status, answer, error) == Save(p1);
    assert TasksInv(p1) by { SameTasks(p, p1); }
    SaveKeepsLog(cfg, p1);
    SameTasks(p1, Save(p1));
    if IsTerminal(status) {
      ReleasedTaint(Save(p1));
    }
  }

  /** The tasks stay sound while the history and the tasks stay as they are. */
  lemma SameTasks(p: Proc, p': Proc)
    requires TasksInv(p) && p'.id == p.id && p'.mem.tasks == p.mem.tasks
    requires p'.mem.journal.history == p.mem.journal.history
    ensures TasksInv(p')
  {
    forall id | id in p'.mem.tasks ensures TaskInv(p', id) {
      assert TaskInv(p, id);
    }
    forall a, b, r, n | TaskAt(p'.mem, a, r, n) && TaskAt(p'.mem, b, r, n) ensures a == b {
      assert TaskAt(p.mem, a, r, n) && TaskAt(p.mem, b, r, n);
    }
  }

  function QueuedMem(m: Mem): Mem {
    m.(status := ProcessQueued, attempt := m.attempt + 1, answer := "", error := "",
       stopRequested := false, quantum := Some(NewQuantum(m.journal.revision)))
  }

  lemma RelaunchKeeps(cfg: Config, p: Proc, p': Proc, closed: bool)
    requires Resting(cfg, p) && p' == Relaunch(p, closed)
    ensures Inv(cfg, p', closed)
  {
    if closed {
      RefusedKeeps(cfg, p);
    } else {
      QueuedKeeps(cfg, p);
      assert p' == Save(p.(mem := QueuedMem(p.mem)));
    }
  }

  lemma RefusedKeeps(cfg: Config, p: Proc)
    requires Resting(cfg, p)
    ensures Inv(cfg, Idle(p), true)
  {
    SameTasks(p, Idle(p));
  }

  lemma QueuedKeeps(cfg: Config, p: Proc)
    requires Resting(cfg, p)
    ensures Inv(cfg, Save(p.(mem := QueuedMem(p.mem))), false)
  {
    var p1 := p.(mem := QueuedMem(p.mem));
    SameTasks(p, p1);
    SaveKeepsLog(cfg, p1);
    SameTasks(p1, Save(p1));
    TaintStays(Idle(p), Save(p1));
  }

  lemma PrefixKeepsLabels(v: seq<Record>, k: nat, labels: set<Label>)
    requires WellFormed(v) && k <= |v| && KeepsLabels(v, labels)
    ensures WellFormed(v[..k]) && KeepsLabels(v[..k], labels)
  {
    var w := v[..k];
    assert forall i :: 0 <= i < k ==> w[i] == v[i];
    forall j: nat, l | Carried(w, j, l) ensures l in labels {
      assert Carried(v, j, l);
    }
  }

  lemma ForkKeeps(cfg: Config, p: Proc, offset: nat)
    requires Resting(cfg, p) && offset <= p.mem.journal.length && offset % 2 == 0
    ensures Resting(cfg, p.(mem := Fork(p.mem, offset)))
    ensures ViewOf(Fork(p.mem, offset).journal) == ViewOf(p.mem.journal)[..offset]
  {
    var p' := p.(mem := Fork(p.mem, offset));
    ForkKeepsJournal(cfg, p.mem.journal, offset);
    if p.mem.status.ProcessCompleted? {
      PrefixKeepsLabels(ViewOf(p.mem.journal), offset, p.mem.labels);
    }
    SameTasks(p, p');
    ReleasedTaint(Idle(p'));
  }

  // ---- The executor -----------------------------------------------------

  lemma OpenSectionFits(cfg: Config, p: Proc)
    requires MemInv(cfg, p) && OpenSection(ViewOf(p.mem.journal)).Some?
    ensures var offset := OpenSection(ViewOf(p.mem.journal)).value;
      2 <= offset <= p.mem.journal.length && offset % 2 == 0
  {
    ViewIsSound(cfg, p.mem.journal);
    OpenSectionHasLength(ViewOf(p.mem.journal));
  }

  lemma RetrySectionKeeps(cfg: Config, p: Proc, closed: bool)
    requires Resting(cfg, p)
    ensures Inv(cfg, RetryAbortedSection(p, closed), closed)
  {
    if OpenSection(ViewOf(p.mem.journal)).Some? && p.mem.abortRetries < MAX_ABORT_RETRIES {
      RedoKeeps(cfg, p, closed);
    } else {
      GiveUpKeeps(cfg, p, closed);
    }
  }

  lemma GiveUpKeeps(cfg: Config, p: Proc, closed: bool)
    requires Resting(cfg, p)
    requires OpenSection(ViewOf(p.mem.journal)).None? || p.mem.abortRetries >= MAX_ABORT_RETRIES
    ensures Inv(cfg, RetryAbortedSection(p, closed), closed)
  {
    var error := if OpenSection(ViewOf(p.mem.journal)).None? then "guest aborted" else "no attempts left";
    FinishKeeps(cfg, p, ProcessFailed, "", error, closed);
    assert RetryAbortedSection(p, closed) == FinishRun(p, ProcessFailed, "", error);
  }

  /** The memory a section is run again with. */
  function RedoMem(m: Mem, offset: nat): Mem {
    Fork(m.(abortRetries := m.abortRetries + 1), offset)
  }

  lemma RedoRests(cfg: Config, p: Proc)
    requires Resting(cfg, p) && p.mem.abortRetries < MAX_ABORT_RETRIES
    requires OpenSection(ViewOf(p.mem.journal)).Some?
    ensures Resting(cfg, p.(mem := RedoMem(p.mem, OpenSection(ViewOf(p.mem.journal)).value)))
  {
    OpenSectionFits(cfg, p);
    var counted := p.(mem := p.mem.(abortRetries := p.mem.abortRetries + 1));
    CountedForkRests(cfg, p, counted, OpenSection(ViewOf(p.mem.journal)).value);
  }

  lemma CountedForkRests(cfg: Config, p: Proc, p1: Proc, offset: nat)
    requires Resting(cfg, p) && p.mem.abortRetries < MAX_ABORT_RETRIES
    requires p1 == p.(mem := p.mem.(abortRetries := p.mem.abortRetries + 1))
    requires offset <= p.mem.journal.length && offset % 2 == 0
    ensures Resting(cfg, p.(mem := RedoMem(p.mem, offset)))
  {
    CountAbort(cfg, p, p1);
    ForkKeeps(cfg, p1, offset);
    assert p1.(mem := Fork(p1.mem, offset)) == p.(mem := RedoMem(p.mem, offset));
  }

  lemma RedoIsRelaunch(p: Proc, closed: bool)
    requires p.mem.abortRetries < MAX_ABORT_RETRIES && OpenSection(ViewOf(p.mem.journal)).Some?
    ensures RetryAbortedSection(p, closed)
         == Relaunch(p.(mem := RedoMem(p.mem, OpenSection(ViewOf(p.mem.journal)).value)), closed)
  {
  }

  lemma RedoKeeps(cfg: Config, p: Proc, closed: bool)
    requires Resting(cfg, p) && p.mem.abortRetries < MAX_ABORT_RETRIES
    requires OpenSection(ViewOf(p.mem.journal)).Some?
    ensures Inv(cfg, RetryAbortedSection(p, closed), closed)
  {
    RedoIsRelaunch(p, closed);
    RedoRests(cfg, p);
    var redone := p.(mem := RedoMem(p.mem, OpenSection(ViewOf(p.mem.journal)).value));
    RelaunchKeeps(cfg, redone, RetryAbortedSection(p, closed), closed);
  }

  lemma CountAbort(cfg: Config, p: Proc, p1: Proc)
    requires Resting(cfg, p) && p.mem.abortRetries < MAX_ABORT_RETRIES
    requires p1 == p.(mem := p.mem.(abortRetries := p.mem.abortRetries + 1))
    ensures Resting(cfg, p1)
  {
    SameTasks(p, p1);
    TaintStays(Idle(p), Idle(p1));
  }

  /** An executor step that only moves the executor keeps the invariant. */
  lemma ExecMoveKeeps(cfg: Config, p: Proc, exec: ExecPc, closed: bool)
    requires Inv(cfg, p, closed) && p.mem.quantum.Some?
    requires var q := p.mem.quantum.value;
      && (q.guest.Running? ==> exec.InPool? || exec.Marked?)
      && ExecInv(cfg, p, q.(exec := exec))
    ensures Inv(cfg, WithQuantum(p, p.mem.quantum.value.(exec := exec)), closed)
  {
    var q' := p.mem.quantum.value.(exec := exec);
    var p' := WithQuantum(p, q');
    if q'.guest.Running? && q'.guest.handler.Some? {
      assert HandlerInv(cfg, p', q'.guest.side, q'.guest.handler.value) by {
        HandlerStays(cfg, p, p', q'.guest.side, q'.guest.handler.value);
      }
    }
    QuantumStepKeeps(cfg, p, q', closed);
  }

  /** A running handler's claim to its task survives any step that keeps the journal and
      every approved task. */
  lemma HandlerStays(cfg: Config, p: Proc, p': Proc, side: Side, handler: HandlerCall)
    requires HandlerInv(cfg, p, side, handler)
    requires p'.mem.journal == p.mem.journal && p'.mem.tasks.Keys == p.mem.tasks.Keys
    requires forall id :: id in p.mem.tasks ==>
      && p'.mem.tasks[id].scope == p.mem.tasks[id].scope
      && p'.mem.tasks[id].position == p.mem.tasks[id].position
      && (p.mem.tasks[id].state.TaskApproved? ==> p'.mem.tasks[id] == p.mem.tasks[id])
    ensures HandlerInv(cfg, p', side, handler)
  {
    if handler.viaTask {
      var id :| ApprovedAtTail(p, id) && p.mem.tasks[id].syscall == handler.call;
      assert ApprovedAtTail(p', id);
    } else if HasTask(p'.mem, p'.mem.journal.revision, Tail(p')) {
      var id :| TaskAt(p'.mem, id, p'.mem.journal.revision, Tail(p'));
      assert TaskAt(p.mem, id, p.mem.journal.revision, Tail(p));
    }
  }

  /** A completed run's answer exists only when its journal holds no open intent, so its
      guest halted with the whole journal replayed. */
  lemma CompletedMeansReplayed(cfg: Config, p: Proc)
    requires MemInv(cfg, p) && QuantumInv(cfg, p) && p.mem.quantum.Some?
    requires p.mem.quantum.value.exec == Recording(EndCompleted)
    requires AnswerFromJournal(ViewOf(p.mem.journal)).Some?
    ensures var q := p.mem.quantum.value;
      q.guest.Ended? && q.guest.side.act.Thinking? && |q.guest.side.seen| == Completed(ViewOf(p.mem.journal))
  {
    var v, side := ViewOf(p.mem.journal), p.mem.quantum.value.guest.side;
    assert LastCall(v).Some?;
    assert side.act.Thinking?;
    HaltingMeansFinished(cfg.guest, Sim(v, Some(side)));
  }

  lemma RecordOfAbort(p: Proc, q: Quantum, closed: bool)
    requires q.exec.Recording? && q.exec.ending.EndCompleted? && GuestAborted(ViewOf(p.mem.journal))
    ensures DoRecord(p, q, q.exec.ending, closed) == RetryAbortedSection(p, closed)
  {
  }

  /** Unless a section was abandoned, recording only moves the executor on. */
  lemma RecordOtherwise(p: Proc, q: Quantum, closed: bool)
    requires q.exec.Recording? && !(q.exec.ending.EndCompleted? && GuestAborted(ViewOf(p.mem.journal)))
    ensures var p' := DoRecord(p, q, q.exec.ending, closed);
      && p' == p.(mem := p.mem.(quantum := p'.mem.quantum))
      && p'.mem.quantum.Some? && p'.mem.quantum.value == q.(exec := p'.mem.quantum.value.exec)
  {
    if q.exec.ending.EndCompleted? {
      match AnswerFromJournal(ViewOf(p.mem.journal)) {
        case Some(answer) => MovesOn(p, q, Finishing(ProcessCompleted, answer, ""));
        case None => MovesOn(p, q, Failing);
      }
    }
  }

  lemma MovesOn(p: Proc, q: Quantum, exec: ExecPc)
    ensures WithQuantum(p, q.(exec := exec)) == p.(mem := p.mem.(quantum := Some(q.(exec := exec))))
  {
  }

  lemma RecordKeeps(cfg: Config, p: Proc, closed: bool)
    requires Inv(cfg, p, closed) && p.mem.quantum.Some? && p.mem.quantum.value.exec.Recording?
    ensures Inv(cfg, DoRecord(p, p.mem.quantum.value, p.mem.quantum.value.exec.ending, closed), closed)
  {
    var q, v := p.mem.quantum.value, ViewOf(p.mem.journal);
    RestsBetweenQuanta(cfg, p, closed);
    match q.exec.ending {
      case EndCompleted =>
        if GuestAborted(v) {
          RetrySectionKeeps(cfg, p, closed);
        } else if AnswerFromJournal(v).Some? {
          CompletedMeansReplayed(cfg, p);
          ExecMoveKeeps(cfg, p, Finishing(ProcessCompleted, AnswerFromJournal(v).value, ""), closed);
        } else {
          ExecMoveKeeps(cfg, p, Failing, closed);
        }
      case EndYielded => ExecMoveKeeps(cfg, p, Finishing(ProcessWaiting, "", ""), closed);
      case EndStopped(deadline) =>
        ExecMoveKeeps(cfg, p,
          Finishing(if closed || deadline then ProcessInterrupted else ProcessStopped, "", "stopped"), closed);
      case EndFailed => ExecMoveKeeps(cfg, p, Failing, closed);
    }
  }

  lemma MarkKeeps(cfg: Config, p: Proc, closed: bool)
    requires Inv(cfg, p, closed) && Enabled(cfg, p, OfExec(ExecMark))
    ensures Inv(cfg, Apply(cfg, p, OfExec(ExecMark), closed), closed)
  {
    ExecMoveKeeps(cfg, p, Marked, closed);
    var p1 := WithQuantum(p, p.mem.quantum.value.(exec := Marked));
    StatusStepKeeps(cfg, p1, p1.mem.(status := ProcessRunning, stoppable := true), closed);
  }

  /** Saving a live status over a quantum under way. */
  lemma StatusStepKeeps(cfg: Config, p: Proc, m: Mem, closed: bool)
    requires Inv(cfg, p, closed) && IsLive(m.status)
    requires p.mem.quantum.Some? || closed
    requires m == p.mem.(status := m.status, stopRequested := m.stopRequested, stoppable := m.stoppable)
    ensures Inv(cfg, Save(p.(mem := m)), closed)
  {
    var p1 := p.(mem := m);
    var p' := Save(p1);
    SameTasks(p, p1);
    SaveKeepsLog(cfg, p1);
    SameTasks(p1, p');
    StatusKeepsGuest(cfg, p, p');
    TaintStays(p, p');
  }

  lemma StatusKeepsGuest(cfg: Config, p: Proc, p': Proc)
    requires p.mem.quantum.Some? ==> GuestInv(cfg, p, p.mem.quantum.value) && ExecInv(cfg, p, p.mem.quantum.value)
    requires p'.mem.quantum == p.mem.quantum && p'.mem.journal == p.mem.journal
    requires p'.mem.tasks.Keys == p.mem.tasks.Keys
    requires forall id :: id in p.mem.tasks ==>
      && p'.mem.tasks[id].scope == p.mem.tasks[id].scope
      && p'.mem.tasks[id].position == p.mem.tasks[id].position
      && (p.mem.tasks[id].state.TaskApproved? ==> p'.mem.tasks[id] == p.mem.tasks[id])
    ensures p.mem.quantum.Some? ==> GuestInv(cfg, p', p.mem.quantum.value) && ExecInv(cfg, p', p.mem.quantum.value)
  {
    if p.mem.quantum.Some? && p.mem.quantum.value.guest.Running? && p.mem.quantum.value.guest.handler.Some? {
      HandlerStays(cfg, p, p', p.mem.quantum.value.guest.side, p.mem.quantum.value.guest.handler.value);
    }
  }

  lemma ExecFinishKeeps(cfg: Config, p: Proc, closed: bool)
    requires Inv(cfg, p, closed) && p.mem.quantum.Some? && p.mem.quantum.value.exec.Finishing?
    ensures var exec := p.mem.quantum.value.exec;
      Inv(cfg, FinishRun(p, exec.status, exec.answer, exec.error), closed)
  {
    RestsBetweenQuanta(cfg, p, closed);
    var exec := p.mem.quantum.value.exec;
    if exec.status.ProcessCompleted? {
      forall j: nat, l | Carried(ViewOf(p.mem.journal), j, l) ensures l in RunTaint(p.mem).Keys {
        TaintHoldsWhatWasSeen(p, j, l);
      }
    }
    FinishKeeps(cfg, p, exec.status, exec.answer, exec.error, closed);
  }

  lemma ExecFailKeeps(cfg: Config, p: Proc, closed: bool)
    requires Inv(cfg, p, closed) && Enabled(cfg, p, OfExec(ExecFail))
    ensures Inv(cfg, Apply(cfg, p, OfExec(ExecFail), closed), closed)
  {
    if MayRedrive(p, closed) {
      var p1 := p.(mem := p.mem.(lastFailureLength := p.mem.journal.length));
      RestsBetweenQuanta(cfg, p, closed);
      SameTasks(p, p1);
      TaintStays(Idle(p), Idle(p1));
      RelaunchKeeps(cfg, p1, Relaunch(p1, closed), closed);
    } else {
      ExecMoveKeeps(cfg, p, Finishing(ProcessFailed, "", "failed"), closed);
    }
  }

  lemma CollectKeeps(cfg: Config, p: Proc, closed: bool)
    requires Inv(cfg, p, closed) && Enabled(cfg, p, OfExec(ExecCollect))
    ensures Inv(cfg, Apply(cfg, p, OfExec(ExecCollect), closed), closed)
  {
    var q := p.mem.quantum.value;
    ExecMoveKeeps(cfg, p, Recording(q.guest.ending), closed);
    var p1 := WithQuantum(p, q.(exec := Recording(q.guest.ending)));
    var p' := p1.(mem := p1.mem.(stoppable := false));
    QuietStepKeeps(cfg, p1, p');
    StatusKeepsGuest(cfg, p1, p');
    TaintStays(p1, p');
  }

  lemma ExecStepKeeps(cfg: Config, p: Proc, a: ExecAction, closed: bool)
    requires Inv(cfg, p, closed) && Enabled(cfg, p, OfExec(a))
    ensures Inv(cfg, Apply(cfg, p, OfExec(a), closed), closed)
  {
    match a {
      case ExecBegin =>
        var exec := if p.mem.stopRequested then Finishing(ProcessStopped, "", "context canceled") else Submitting;
        ExecMoveKeeps(cfg, p, exec, closed);
      case ExecSubmit(accepted) =>
        ExecMoveKeeps(cfg, p, if accepted then InPool else Finishing(ProcessInterrupted, "", "pool: closed"), closed);
      case ExecMark => MarkKeeps(cfg, p, closed);
      case ExecCollect => CollectKeeps(cfg, p, closed);
      case ExecRecord => RecordKeeps(cfg, p, closed);
      case ExecFail => ExecFailKeeps(cfg, p, closed);
      case ExecFinish => ExecFinishKeeps(cfg, p, closed);
    }
  }

  // ---- The API and the sweep --------------------------------------------

  lemma StopKeeps(cfg: Config, p: Proc, closed: bool)
    requires Inv(cfg, p, closed) && CanStop(p.mem.status)
    ensures Inv(cfg, DoStop(p), closed)
  {
    if p.mem.status.ProcessQueued? || p.mem.status.ProcessRunning? {
      StatusStepKeeps(cfg, p, p.mem.(stopRequested := true, status := ProcessStopping), closed);
    } else if p.mem.status.ProcessWaiting? {
      RestsBetweenQuanta(cfg, p, closed);
      FinishKeeps(cfg, p, ProcessStopped, "", "context canceled", closed);
    }
  }

  /** The memory a retry relaunches from. */
  function RetryMem(m: Mem, restart: bool): Mem {
    var open := OpenSection(ViewOf(m.journal));
    if restart then Fork(m, 0)
    else if m.status.ProcessWaiting? || open.None? then m
    else Fork(m, open.value)
  }

  lemma RetryRests(cfg: Config, p: Proc, restart: bool)
    requires Resting(cfg, p)
    ensures Resting(cfg, p.(mem := RetryMem(p.mem, restart)))
  {
    if restart {
      ForkKeeps(cfg, p, 0);
    } else if !p.mem.status.ProcessWaiting? && OpenSection(ViewOf(p.mem.journal)).Some? {
      OpenSectionFits(cfg, p);
      ForkKeeps(cfg, p, OpenSection(ViewOf(p.mem.journal)).value);
    }
  }

  lemma RetryIsRelaunch(p: Proc, restart: bool, closed: bool)
    ensures DoRetry(p, restart, closed) == Relaunch(p.(mem := RetryMem(p.mem, restart)), closed)
  {
  }

  lemma RetryKeeps(cfg: Config, p: Proc, restart: bool, closed: bool)
    requires Inv(cfg, p, closed) && CanRetry(p.mem.status, restart)
    ensures Inv(cfg, DoRetry(p, restart, closed), closed)
  {
    RestsBetweenQuanta(cfg, p, closed);
    RetryRests(cfg, p, restart);
    RetryIsRelaunch(p, restart, closed);
    RelaunchKeeps(cfg, p.(mem := RetryMem(p.mem, restart)), DoRetry(p, restart, closed), closed);
  }

  /** A settled task keeps its call, and a task already approved is not touched. */
  lemma TaskStepEffect(p: Proc, op: Tasks.Op)
    requires TasksInv(p) && (op.ResolveOp? || op.SettleOp?) && DoTask(p, op) != p
    ensures var p' := DoTask(p, op);
      && op.id in p.mem.tasks && p.mem.tasks[op.id].state.TaskPending?
      && p' == Emit(
           p.(mem := p.mem.(tasks := p.mem.tasks[op.id := p'.mem.tasks[op.id]])), TaskResolved(p'.mem.tasks[op.id]))
      && var before, after := p.mem.tasks[op.id], p'.mem.tasks[op.id];
         after == before.(state := after.state, resolution := after.resolution, resolvedAt := after.resolvedAt)
  {
  }

  lemma TaskStepKeepsTasks(p: Proc, p': Proc, id: string)
    requires TasksInv(p) && id in p.mem.tasks
    requires p'.id == p.id && p'.mem.journal == p.mem.journal
    requires p'.mem.tasks.Keys == p.mem.tasks.Keys
    requires forall x :: x in p.mem.tasks && x != id ==> p'.mem.tasks[x] == p.mem.tasks[x]
    requires var before, after := p.mem.tasks[id], p'.mem.tasks[id];
      after == before.(state := after.state, resolution := after.resolution, resolvedAt := after.resolvedAt)
    ensures TasksInv(p')
  {
    forall x | x in p'.mem.tasks ensures TaskInv(p', x) {
      assert TaskInv(p, x);
    }
    forall a, b, r, n | TaskAt(p'.mem, a, r, n) && TaskAt(p'.mem, b, r, n) ensures a == b {
      assert TaskAt(p.mem, a, r, n) && TaskAt(p.mem, b, r, n);
    }
  }

  lemma TaskStepKeeps(cfg: Config, p: Proc, op: Tasks.Op, closed: bool)
    requires Inv(cfg, p, closed) && Enabled(cfg, p, OfTask(op))
    ensures Inv(cfg, DoTask(p, op), closed)
  {
    var p' := DoTask(p, op);
    if p' != p {
      TaskStepEffect(p, op);
      SettledTaskKeeps(cfg, p, p', op.id, closed);
    }
  }

  lemma SettledTaskKeeps(cfg: Config, p: Proc, p': Proc, id: string, closed: bool)
    requires Inv(cfg, p, closed) && id in p.mem.tasks && id in p'.mem.tasks
    requires p' == Emit(p.(mem := p.mem.(tasks := p.mem.tasks[id := p'.mem.tasks[id]])), TaskResolved(p'.mem.tasks[id]))
    requires p.mem.tasks[id].state.TaskPending?
    requires var before, after := p.mem.tasks[id], p'.mem.tasks[id];
      after == before.(state := after.state, resolution := after.resolution, resolvedAt := after.resolvedAt)
    ensures Inv(cfg, p', closed)
  {
    assert TaskInv(p, id);
    TaskStepKeepsTasks(p, p', id);
    SettledTaskKeepsLog(cfg, p, p', id);
    SettledTaskKeepsQuantum(cfg, p, p', id);
    TaintStays(p, p');
  }

  lemma SettledTaskKeepsQuantum(cfg: Config, p: Proc, p': Proc, id: string)
    requires QuantumInv(cfg, p) && (Saved(p) ==> Saved(p')) && id in p.mem.tasks && id in p'.mem.tasks
    requires p'.mem == p.mem.(tasks := p.mem.tasks[id := p'.mem.tasks[id]]) && p.mem.tasks[id].state.TaskPending?
    requires p'.mem.tasks[id].scope == p.mem.tasks[id].scope && p'.mem.tasks[id].position == p.mem.tasks[id].position
    ensures QuantumInv(cfg, p')
  {
    SettledTaskKeepsGuest(cfg, p, p', id);
  }

  lemma SettledTaskKeepsLog(cfg: Config, p: Proc, p': Proc, id: string)
    requires LogInv(cfg, p) && MemInv(cfg, p) && id in p'.mem.tasks && p'.mem.tasks[id].id == id
    requires p' == Emit(p.(mem := p.mem.(tasks := p.mem.tasks[id := p'.mem.tasks[id]])), TaskResolved(p'.mem.tasks[id]))
    ensures LogInv(cfg, p') && MemInv(cfg, p') && (Saved(p) ==> Saved(p'))
  {
    EmitFolds(p.log, TaskResolved(p'.mem.tasks[id]));
  }

  lemma SettledTaskKeepsGuest(cfg: Config, p: Proc, p': Proc, id: string)
    requires QuantumInv(cfg, p) && p'.mem.quantum == p.mem.quantum && p'.mem.journal == p.mem.journal
    requires id in p.mem.tasks && id in p'.mem.tasks && p'.mem.tasks == p.mem.tasks[id := p'.mem.tasks[id]]
    requires p.mem.tasks[id].state.TaskPending?
    requires p'.mem.tasks[id].scope == p.mem.tasks[id].scope && p'.mem.tasks[id].position == p.mem.tasks[id].position
    ensures p.mem.quantum.Some? ==> GuestInv(cfg, p', p.mem.quantum.value) && ExecInv(cfg, p', p.mem.quantum.value)
  {
    StatusKeepsGuest(cfg, p, p');
  }

  /** Every step of a process keeps its invariant, on an open or a closed runtime. */
  lemma StepKeeps(cfg: Config, p: Proc, a: Action, closed: bool)
    requires Inv(cfg, p, closed) && Enabled(cfg, p, a)
    ensures Inv(cfg, Apply(cfg, p, a, closed), closed)
  {
    match a {
      case OfExec(e) => ExecStepKeeps(cfg, p, e, closed);
      case OfGuest(ga) => GuestStepKeeps(cfg, p, ga, closed);
      case ApiStop => StopKeeps(cfg, p, closed);
      case ApiRetry(restart) => RetryKeeps(cfg, p, restart, closed);
      case OfTask(op) => TaskStepKeeps(cfg, p, op, closed);
    }
  }

  // ---- Creation, crash and restore --------------------------------------

  lemma EmptyJournalIsSound(cfg: Config)
    ensures JournalInv(cfg, EMPTY) && ViewOf(EMPTY) == []
  {
  }

  lemma CreationIsSound(cfg: Config, id: Identity)
    ensures Inv(cfg, Created(id), false)
  {
    EmptyJournalIsSound(cfg);
    var m := Created(id).mem;
    var p := Proc(id, [], m);
    SaveKeepsLog(cfg, p);
    assert TaintAt([], map[], RunTaint(m), 0, 0);
  }

  /** What a reboot leaves of a process's memory: a quantum under way is lost, and with
      it what only quanta use. */
  function Rebooted(m: Mem): Mem {
    m.(status := RestoredStatus(m.status), lastFailureLength := 0, stopRequested := false, stoppable := false,
       taints := map[], yielded := map[], quantum := None)
  }

  /** The stored state's journal is rebuilt with exactly the length it has. */
  lemma RestoredLengthIsExact(cfg: Config, h: Flat, s: StoredProcess, n: nat)
    requires StoredInv(cfg, h, s, n)
    ensures RestoredLength(h, s) == n
  {
    assert IsLength(h, s.revision, s.forkOffset, n);
    LengthIsUnique(h, s.revision, s.forkOffset, n, RestoredLength(h, s));
  }

  /** A restore reads nothing but the log, and leaves a sound process on an open
      runtime, whatever moment the crash fell on. */
  lemma RestoreIsSound(cfg: Config, p: Proc)
    requires LogInv(cfg, p) && TasksInv(p)
    ensures Inv(cfg, Restored(p), false)
  {
    var s := LastStored(p.log).value;
    var n: nat :| StoredInv(cfg, p.mem.journal.history, s, n);
    RestoredLengthIsExact(cfg, p.mem.journal.history, s, n);
    var p1 := Proc(s.identity, p.log, RestoredMem(s, p.log));
    SameTasks(p, p1);
    ReleasedTaint(p1);
    if p1.mem.status != s.status {
      SaveKeepsLog(cfg, p1);
      SameTasks(p1, Save(p1));
      ReleasedTaint(Save(p1));
    }
  }

  /** Restore refines the live state: whenever the log holds the memory's state, folding
      the log gives back the memory a reboot leaves. So do the tasks, the journal with
      every revision, its fork offset and length, and the abort budget. */
  lemma RestoreRefinesTheLiveState(cfg: Config, p: Proc, closed: bool)
    requires Inv(cfg, p, closed) && Saved(p)
    ensures Restored(p).mem == Rebooted(p.mem) && Restored(p).id == p.id
    ensures Restored(p).log ==
      if IsLive(p.mem.status) then p.log + [ProcessState(Stored(p.id, Rebooted(p.mem)))] else p.log
  {
    RestoredLengthIsExact(cfg, p.mem.journal.history, Stored(p.id, p.mem), p.mem.journal.length);
  }

  /** A second restore appends nothing and gives the same state. */
  lemma RestoreIsIdempotent(cfg: Config, p: Proc)
    requires LogInv(cfg, p) && TasksInv(p)
    ensures Restored(Restored(p)) == Restored(p)
  {
    RestoreIsSound(cfg, p);
    RestoreRefinesTheLiveState(cfg, Restored(p), false);
  }
}
