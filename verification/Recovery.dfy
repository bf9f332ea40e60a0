/** Automatic recovery: the two loops that run a process again without anyone asking
    for it, and why both end. */
module Recovery {
  import opened Sys
  import opened Journaled
  import opened Durable
  import opened Lineage
  import opened Replay
  import opened Process
  import opened ProcessInv
  import opened ProcessSteps
  import opened ProcessSafety
  import Tasks

  // ---- The measure ------------------------------------------------------

  /** How much automatic recovery is left while no journal exceeds the bound: the aborts
      left, then how far the journal can still outgrow the last failure. */
  function Budget(m: Mem, bound: nat): int {
    (MAX_ABORT_RETRIES - m.abortRetries) * (bound + 1) + (bound - m.lastFailureLength)
  }

  ghost predicate Fits(cfg: Config, p: Proc, bound: nat) {
    MemInv(cfg, p) && p.mem.journal.length <= bound
  }

  /** The executor runs the process again: after an abort, or after a failure. */
  predicate Automatic(p: Proc, a: Action, p': Proc) {
    a.OfExec? && Launches(p, p')
  }

  /** Someone outside gives the process a fresh start. */
  predicate ForkedByHand(p: Proc, a: Action) {
    a.ApiRetry? && ForksIn(p, a)
  }

  lemma RedoSpends(p: Proc, bound: nat)
    requires p.mem.abortRetries < MAX_ABORT_RETRIES && p.mem.lastFailureLength <= bound
    ensures Budget(p.mem.(abortRetries := p.mem.abortRetries + 1, lastFailureLength := 0), bound) < Budget(p.mem, bound)
  {
    var left := MAX_ABORT_RETRIES - p.mem.abortRetries;
    assert left * (bound + 1) == (left - 1) * (bound + 1) + (bound + 1);
  }

  lemma SectionSpends(p: Proc, closed: bool, bound: nat)
    requires p.mem.abortRetries <= MAX_ABORT_RETRIES && p.mem.lastFailureLength <= bound
    ensures var p' := RetryAbortedSection(p, closed);
      && p'.mem.abortRetries <= MAX_ABORT_RETRIES && p'.mem.lastFailureLength <= bound
      && Budget(p'.mem, bound) + Count(Launches(p, p')) <= Budget(p.mem, bound)
  {
    SectionCounters(p, closed);
    if OpenSection(ViewOf(p.mem.journal)).Some? && p.mem.abortRetries < MAX_ABORT_RETRIES {
      RedoSpends(p, bound);
    }
  }

  lemma SectionCounters(p: Proc, closed: bool)
    ensures var m := RetryAbortedSection(p, closed).mem;
      if OpenSection(ViewOf(p.mem.journal)).Some? && p.mem.abortRetries < MAX_ABORT_RETRIES
      then m.abortRetries == p.mem.abortRetries + 1 && m.lastFailureLength == 0
      else
        && m.abortRetries == p.mem.abortRetries && m.lastFailureLength == p.mem.lastFailureLength
        && m.attempt == p.mem.attempt
  {
  }

  lemma RecordSpends(p: Proc, q: Quantum, closed: bool, bound: nat)
    requires p.mem.quantum == Some(q) && q.exec.Recording?
    requires p.mem.abortRetries <= MAX_ABORT_RETRIES && p.mem.lastFailureLength <= bound
    ensures var p' := DoRecord(p, q, q.exec.ending, closed);
      && p'.mem.abortRetries <= MAX_ABORT_RETRIES && p'.mem.lastFailureLength <= bound
      && Budget(p'.mem, bound) + Count(Launches(p, p')) <= Budget(p.mem, bound)
  {
    if q.exec.ending.EndCompleted? && GuestAborted(ViewOf(p.mem.journal)) {
      SectionSpends(p, closed, bound);
      RecordOfAbort(p, q, closed);
    } else {
      RecordOtherwise(p, q, closed);
    }
  }

  lemma ExecSpends(cfg: Config, p: Proc, e: ExecAction, closed: bool, bound: nat)
    requires Fits(cfg, p, bound) && Enabled(cfg, p, OfExec(e))
    requires Fits(cfg, Apply(cfg, p, OfExec(e), closed), bound)
    ensures var p' := Apply(cfg, p, OfExec(e), closed);
      Budget(p'.mem, bound) + Count(Launches(p, p')) <= Budget(p.mem, bound)
  {
    if e.ExecRecord? {
      RecordSpends(p, p.mem.quantum.value, closed, bound);
    } else if e.ExecFail? {
      assert MayRedrive(p, closed) ==> Apply(cfg, p, OfExec(e), closed).mem.lastFailureLength > p.mem.lastFailureLength;
    }
  }

  lemma ApiLeavesTheBudget(cfg: Config, p: Proc, a: Action, closed: bool)
    requires Enabled(cfg, p, a) && (a.ApiStop? || a.ApiRetry? || a.OfTask?) && !ForkedByHand(p, a)
    ensures var m := Apply(cfg, p, a, closed).mem;
      m.abortRetries == p.mem.abortRetries && m.lastFailureLength == p.mem.lastFailureLength
  {
  }

  /** A step keeps the budget, and each automatic re-run spends some of it, unless a
      retry from outside forks the journal. */
  lemma StepSpends(cfg: Config, p: Proc, a: Action, closed: bool, bound: nat)
    requires Enabled(cfg, p, a) && !ForkedByHand(p, a)
    requires Fits(cfg, p, bound) && Fits(cfg, Apply(cfg, p, a, closed), bound)
    ensures var p' := Apply(cfg, p, a, closed);
      Budget(p'.mem, bound) + Count(Automatic(p, a, p')) <= Budget(p.mem, bound)
  {
    match a {
      case OfExec(e) => ExecSpends(cfg, p, e, closed, bound);
      case OfGuest(ga) => GuestFrame(cfg, p, ga, closed);
      case _ => ApiLeavesTheBudget(cfg, p, a, closed);
    }
  }

  // ---- Termination ------------------------------------------------------

  ghost function AutomaticRuns(cfg: Config, life: Life, start: nat, end: nat): nat
    requires |life.states| == |life.happenings| + 1 && start <= end <= |life.happenings|
    decreases end
  {
    if start == end then 0 else
      AutomaticRuns(cfg, life, start, end - 1)
      + Count(life.happenings[end - 1].Does?
              && Automatic(life.states[end - 1].p, life.happenings[end - 1].action, life.states[end].p))
  }

  /** Nobody outside gives the process a fresh start in the segment: no retry that forks,
      and no restart of the host. */
  ghost predicate LeftAlone(life: Life, start: nat, end: nat)
    requires |life.states| == |life.happenings| + 1 && end <= |life.happenings|
  {
    forall k :: start <= k < end ==>
      && !life.happenings[k].Crashes?
      && (life.happenings[k].Does? ==> !ForkedByHand(life.states[k].p, life.happenings[k].action))
  }

  ghost predicate Bounded(life: Life, start: nat, end: nat, bound: nat)
    requires |life.states| == |life.happenings| + 1 && end <= |life.happenings|
  {
    forall k :: start <= k <= end ==> life.states[k].p.mem.journal.length <= bound
  }

  lemma StatesFit(cfg: Config, id: Identity, life: Life, i: nat, bound: nat)
    requires IsLife(cfg, id, life) && i < |life.states| && life.states[i].p.mem.journal.length <= bound
    ensures Fits(cfg, life.states[i].p, bound)
  {
    EveryStateIsSound(cfg, id, life, i);
  }

  lemma {:induction false} AutomaticRunsSpendTheBudget(
    cfg: Config, id: Identity, life: Life, start: nat, end: nat, bound: nat)
    requires IsLife(cfg, id, life) && start <= end <= |life.happenings|
    requires LeftAlone(life, start, end) && Bounded(life, start, end, bound)
    ensures AutomaticRuns(cfg, life, start, end) + Budget(life.states[end].p.mem, bound)
         <= Budget(life.states[start].p.mem, bound)
    decreases end
  {
    if start < end {
      AutomaticRunsSpendTheBudget(cfg, id, life, start, end - 1, bound);
      LifeSpends(cfg, id, life, end - 1, bound);
    }
  }

  lemma LifeSpends(cfg: Config, id: Identity, life: Life, i: nat, bound: nat)
    requires IsLife(cfg, id, life) && i < |life.happenings| && !life.happenings[i].Crashes?
    requires life.happenings[i].Does? ==> !ForkedByHand(life.states[i].p, life.happenings[i].action)
    requires life.states[i].p.mem.journal.length <= bound && life.states[i + 1].p.mem.journal.length <= bound
    ensures Budget(life.states[i + 1].p.mem, bound)
      + Count(life.happenings[i].Does? && Automatic(life.states[i].p, life.happenings[i].action, life.states[i + 1].p))
      <= Budget(life.states[i].p.mem, bound)
  {
    StatesFit(cfg, id, life, i, bound);
    StatesFit(cfg, id, life, i + 1, bound);
    NextHappens(cfg, id, life, i);
    HappeningSpends(cfg, life.states[i], life.happenings[i], bound);
  }

  lemma HappeningSpends(cfg: Config, s: State, h: Happening, bound: nat)
    requires CanHappen(cfg, s, h) && LastStored(s.p.log).Some? && !h.Crashes?
    requires h.Does? ==> !ForkedByHand(s.p, h.action)
    requires Fits(cfg, s.p, bound) && Fits(cfg, Then(cfg, s, h).p, bound)
    ensures var s' := Then(cfg, s, h);
      Budget(s'.p.mem, bound) + Count(h.Does? && Automatic(s.p, h.action, s'.p)) <= Budget(s.p.mem, bound)
  {
    if h.Does? {
      StepSpends(cfg, s.p, h.action, s.closed, bound);
    }
  }

  /** Automatic recovery terminates. Between two fresh starts from outside, a process
      whose journals stay within a bound is run again on its own only so often: each
      abort it has left buys at most bound + 1 runs. */
  lemma RecoveryTerminates(cfg: Config, id: Identity, life: Life, start: nat, end: nat, bound: nat)
    requires IsLife(cfg, id, life) && start <= end <= |life.happenings|
    requires LeftAlone(life, start, end) && Bounded(life, start, end, bound)
    ensures AutomaticRuns(cfg, life, start, end) <= MAX_ABORT_RETRIES * (bound + 1) + bound
  {
    AutomaticRunsSpendTheBudget(cfg, id, life, start, end, bound);
    StatesFit(cfg, id, life, start, bound);
    StatesFit(cfg, id, life, end, bound);
    BudgetIsBounded(life.states[start].p.mem, bound);
    BudgetIsBounded(life.states[end].p.mem, bound);
  }

  lemma BudgetIsBounded(m: Mem, bound: nat)
    requires m.abortRetries <= MAX_ABORT_RETRIES && m.lastFailureLength <= bound
    ensures 0 <= Budget(m, bound) <= MAX_ABORT_RETRIES * (bound + 1) + bound
  {
    assert (MAX_ABORT_RETRIES - m.abortRetries) * (bound + 1) <= MAX_ABORT_RETRIES * (bound + 1);
  }

  /** The first failure of a revision inside an open section is always driven again: the
      mark of no failure yet is never the length of a journal with an open section. */
  lemma FirstFailureIsDrivenAgain(cfg: Config, s: State)
    requires Reachable(cfg, s) && Enabled(cfg, s.p, OfExec(ExecFail)) && !s.closed
    requires s.p.mem.lastFailureLength == 0 && !s.p.mem.stopRequested
    ensures Launches(s.p, Apply(cfg, s.p, OfExec(ExecFail), s.closed)) <==> OpenSection(ViewOf(s.p.mem.journal)).Some?
  {
    ReachableMemoryIsSound(cfg, s);
    if OpenSection(ViewOf(s.p.mem.journal)).Some? {
      OpenSectionFits(cfg, s.p);
    }
  }

  // ---- Which failures are driven again ----------------------------------

  /** In this state a failed run is driven again. */
  ghost predicate DrivenAgain(life: Life, m: nat)
    requires |life.states| == |life.happenings| + 1 && m < |life.happenings|
  {
    life.happenings[m] == Does(OfExec(ExecFail)) && Launches(life.states[m].p, life.states[m + 1].p)
  }

  /** The host lives on and the journal is not forked. */
  ghost predicate GoesOn(life: Life, j: nat)
    requires |life.states| == |life.happenings| + 1 && j < |life.happenings|
  {
    && !life.happenings[j].Crashes?
    && life.states[j + 1].p.mem.journal.revision == life.states[j].p.mem.journal.revision
  }

  /** A failed run was driven again there, and since then the journal was not forked and the
      host did not crash. */
  ghost predicate DrivenSince(life: Life, m: nat, i: nat)
    requires |life.states| == |life.happenings| + 1 && i <= |life.happenings|
  {
    m < i && DrivenAgain(life, m) && forall j: nat :: m <= j < i ==> GoesOn(life, j)
  }

  function LengthAt(life: Life, m: nat): nat
    requires m < |life.states|
  {
    life.states[m].p.mem.journal.length
  }

  /** The mark of the last failure is the length of the last one driven again, the longest. */
  ghost predicate Marks(life: Life, i: nat, mark: nat)
    requires |life.states| == |life.happenings| + 1 && i <= |life.happenings|
  {
    && (mark != 0 ==> exists m: nat :: DrivenSince(life, m, i) && LengthAt(life, m) == mark)
    && (forall m: nat :: DrivenSince(life, m, i) ==> LengthAt(life, m) <= mark)
  }

  /** What a step does to the mark. */
  ghost predicate MovesTheMark(s: State, h: Happening, s': State) {
    var m, m' := s.p.mem, s'.p.mem;
    if h.Crashes? || m'.journal.revision != m.journal.revision then m'.lastFailureLength == 0
    else if h == Does(OfExec(ExecFail)) && Launches(s.p, s'.p) then m'.lastFailureLength == m.journal.length
    else m'.lastFailureLength == m.lastFailureLength
  }

  lemma ExecMovesTheMark(cfg: Config, p: Proc, e: ExecAction, closed: bool)
    requires Enabled(cfg, p, OfExec(e))
    ensures MovesTheMark(State(p, closed), Does(OfExec(e)), State(Apply(cfg, p, OfExec(e), closed), closed))
  {
    if e.ExecRecord? {
      var q := p.mem.quantum.value;
      if q.exec.ending.EndCompleted? && GuestAborted(ViewOf(p.mem.journal)) {
        SectionMovesTheMark(p, closed);
        RecordOfAbort(p, q, closed);
      } else {
        RecordOtherwise(p, q, closed);
      }
    }
  }

  lemma SectionMovesTheMark(p: Proc, closed: bool)
    ensures var m := RetryAbortedSection(p, closed).mem;
      if m.journal.revision != p.mem.journal.revision then m.lastFailureLength == 0
      else m.lastFailureLength == p.mem.lastFailureLength
  {
  }

  lemma StepMovesTheMark(cfg: Config, p: Proc, a: Action, closed: bool)
    requires Enabled(cfg, p, a)
    ensures MovesTheMark(State(p, closed), Does(a), State(Apply(cfg, p, a, closed), closed))
  {
    match a {
      case OfExec(e) => ExecMovesTheMark(cfg, p, e, closed);
      case OfGuest(ga) => GuestFrame(cfg, p, ga, closed);
      case ApiRetry(restart) => RetryIsRelaunch(p, restart, closed);
      case _ =>
    }
  }

  lemma HappeningMovesTheMark(cfg: Config, s: State, h: Happening)
    requires CanHappen(cfg, s, h) && LastStored(s.p.log).Some?
    ensures MovesTheMark(s, h, Then(cfg, s, h))
  {
    if h.Does? {
      StepMovesTheMark(cfg, s.p, h.action, s.closed);
    }
  }

  lemma MarkStays(life: Life, i: nat)
    requires |life.states| == |life.happenings| + 1 && i < |life.happenings|
    requires var mem := life.states[i].p.mem;
      Marks(life, i, mem.lastFailureLength) && mem.lastFailureLength <= mem.journal.length
    requires MovesTheMark(life.states[i], life.happenings[i], life.states[i + 1])
    ensures Marks(life, i + 1, life.states[i + 1].p.mem.lastFailureLength)
  {
    var next, mark := i + 1, life.states[i].p.mem.lastFailureLength;
    forall m: nat | DrivenSince(life, m, next) ensures GoesOn(life, i) && (m == i || DrivenSince(life, m, i)) {
      assert GoesOn(life, i);
    }
    if GoesOn(life, i) {
      if DrivenAgain(life, i) {
        assert DrivenSince(life, i, next);
      } else if mark != 0 {
        var m: nat :| DrivenSince(life, m, i) && LengthAt(life, m) == mark;
        assert DrivenSince(life, m, next);
      }
    }
  }

  lemma {:induction false} LivesMark(cfg: Config, id: Identity, life: Life, i: nat)
    requires IsLife(cfg, id, life) && i < |life.states|
    ensures Marks(life, i, life.states[i].p.mem.lastFailureLength)
    decreases i, 1
  {
    if i == 0 {
      FirstIsTheCreation(cfg, id, life);
    } else {
      LaterLivesMark(cfg, id, life, i);
    }
  }

  lemma {:induction false} LaterLivesMark(cfg: Config, id: Identity, life: Life, i: nat)
    requires IsLife(cfg, id, life) && 0 < i < |life.states|
    ensures Marks(life, i, life.states[i].p.mem.lastFailureLength)
    decreases i, 0
  {
    var before := i - 1;
    LivesMark(cfg, id, life, before);
    NextHappens(cfg, id, life, before);
    HappeningMovesTheMark(cfg, life.states[before], life.happenings[before]);
    StatesFit(cfg, id, life, before, LengthAt(life, before));
    MarkStays(life, before);
  }

  /** One of these failures was driven again at this journal length. */
  ghost predicate DrivenAtLength(life: Life, i: nat, length: nat)
    requires |life.states| == |life.happenings| + 1 && i <= |life.happenings|
  {
    exists m: nat :: DrivenSince(life, m, i) && LengthAt(life, m) == length
  }

  /** Exactly which failures are driven again: those of a runtime that is open and a process
      nobody stopped, whose journal ends inside a section, unless one was driven again at
      this very length since the last fork or boot. So every failure that made progress is
      driven again, and none that did not. */
  lemma FailuresAreDrivenAgainExactly(cfg: Config, id: Identity, life: Life, i: nat)
    requires IsLife(cfg, id, life) && i < |life.happenings| && life.happenings[i] == Does(OfExec(ExecFail))
    ensures var s := life.states[i];
      && WellFormed(ViewOf(s.p.mem.journal))
      && (DrivenAgain(life, i) <==>
           && !s.closed && !s.p.mem.stopRequested
           && InSection(ViewOf(s.p.mem.journal)) && !DrivenAtLength(life, i, LengthAt(life, i)))
  {
    StatesFit(cfg, id, life, i, LengthAt(life, i));
    LivesMark(cfg, id, life, i);
    NextHappens(cfg, id, life, i);
    FailureIsDriven(cfg, life.states[i]);
    MarkedExactly(life, i, life.states[i].p.mem.lastFailureLength);
  }

  lemma FailureIsDriven(cfg: Config, s: State)
    requires MemInv(cfg, s.p) && Enabled(cfg, s.p, OfExec(ExecFail))
    ensures var p := s.p;
      && WellFormed(ViewOf(p.mem.journal)) && p.mem.lastFailureLength <= p.mem.journal.length
      && (InSection(ViewOf(p.mem.journal)) ==> p.mem.journal.length > 0)
      && (Launches(p, Apply(cfg, p, OfExec(ExecFail), s.closed)) <==>
           && !s.closed && !p.mem.stopRequested
           && InSection(ViewOf(p.mem.journal)) && p.mem.lastFailureLength != p.mem.journal.length)
  {
    ViewIsSound(cfg, s.p.mem.journal);
    ScanFindsTheSection(ViewOf(s.p.mem.journal));
    FailLaunches(cfg, s.p, s.closed);
  }

  lemma FailLaunches(cfg: Config, p: Proc, closed: bool)
    requires Enabled(cfg, p, OfExec(ExecFail))
    ensures Launches(p, Apply(cfg, p, OfExec(ExecFail), closed)) <==> MayRedrive(p, closed)
  {
  }

  lemma MarkedExactly(life: Life, i: nat, mark: nat)
    requires |life.states| == |life.happenings| + 1 && i <= |life.happenings|
    requires Marks(life, i, mark) && mark <= LengthAt(life, i)
    ensures LengthAt(life, i) > 0 ==> (mark == LengthAt(life, i) <==> DrivenAtLength(life, i, LengthAt(life, i)))
  {
  }

  // ---- The abort budget -------------------------------------------------

  predicate Redoes(p: Proc, a: Action, p': Proc) {
    a == OfExec(ExecRecord) && Launches(p, p')
  }

  ghost function SectionsRedone(cfg: Config, life: Life, n: nat): nat
    requires |life.states| == |life.happenings| + 1 && n <= |life.happenings|
  {
    if n == 0 then 0 else
      SectionsRedone(cfg, life, n - 1)
      + Count(life.happenings[n - 1].Does?
              && Redoes(life.states[n - 1].p, life.happenings[n - 1].action, life.states[n].p))
  }

  function LoggedAborts(p: Proc): nat {
    match LastStored(p.log)
    case Some(s) => s.abortRetries
    case None => 0
  }

  lemma RedoCounts(p: Proc, closed: bool)
    requires p.mem.quantum.Some? && p.mem.quantum.value.exec.Recording?
    ensures var p' := DoRecord(p, p.mem.quantum.value, p.mem.quantum.value.exec.ending, closed);
      && p.mem.abortRetries <= p'.mem.abortRetries
      && (Launches(p, p') ==> !closed && p'.mem.abortRetries == p.mem.abortRetries + 1)
      && (p'.log == p.log || LoggedAborts(p') == p'.mem.abortRetries)
  {
    var q := p.mem.quantum.value;
    if q.exec.ending.EndCompleted? && GuestAborted(ViewOf(p.mem.journal)) {
      SectionCounts(p, closed);
      RecordOfAbort(p, q, closed);
    } else {
      RecordOtherwise(p, q, closed);
    }
  }

  lemma SectionCounts(p: Proc, closed: bool)
    ensures var p' := RetryAbortedSection(p, closed);
      && p.mem.abortRetries <= p'.mem.abortRetries
      && (Launches(p, p') ==> !closed && p'.mem.abortRetries == p.mem.abortRetries + 1)
      && (p'.log == p.log || LoggedAborts(p') == p'.mem.abortRetries)
  {
    var p' := RetryAbortedSection(p, closed);
    if p'.log != p.log {
      assert p'.log == p.log + [ProcessState(Stored(p'.id, p'.mem))];
      EmitFolds(p.log, ProcessState(Stored(p'.id, p'.mem)));
    }
  }

  /** What a step does to the logged abort count. */
  ghost predicate AbortsAreLogged(p: Proc, a: Action, p': Proc) {
    LoggedAborts(p) + Count(Redoes(p, a, p')) <= LoggedAborts(p') <= p'.mem.abortRetries
  }

  /** A step either logs the abort count it leaves in memory, or does not change what is
      logged. */
  lemma StepLogsAborts(cfg: Config, p: Proc, a: Action, closed: bool)
    requires Inv(cfg, p, closed) && Enabled(cfg, p, a) && LoggedAborts(p) <= p.mem.abortRetries
    ensures AbortsAreLogged(p, a, Apply(cfg, p, a, closed))
  {
    StepKeeps(cfg, p, a, closed);
    match a {
      case OfExec(e) => if e.ExecRecord? { RedoCounts(p, closed); } else { ExecLogsAborts(cfg, p, e, closed); }
      case OfGuest(ga) => GuestFrame(cfg, p, ga, closed);
      case _ => ApiLogsAborts(cfg, p, a, closed);
    }
  }

  lemma TaskLogsNoAbort(p: Proc, op: Tasks.Op)
    requires TasksInv(p) && (op.ResolveOp? || op.SettleOp?)
    ensures var p' := DoTask(p, op);
      p'.mem.abortRetries == p.mem.abortRetries && LoggedAborts(p') == LoggedAborts(p)
  {
    var p' := DoTask(p, op);
    if p' != p {
      TaskStepEffect(p, op);
      EmitFolds(p.log, TaskResolved(p'.mem.tasks[op.id]));
    }
  }

  lemma ApiLogsAborts(cfg: Config, p: Proc, a: Action, closed: bool)
    requires TasksInv(p) && Enabled(cfg, p, a) && (a.ApiStop? || a.ApiRetry? || a.OfTask?)
    ensures var p' := Apply(cfg, p, a, closed);
      && p'.mem.abortRetries == p.mem.abortRetries
      && (LoggedAborts(p') == LoggedAborts(p) || LoggedAborts(p') == p'.mem.abortRetries)
  {
    var p' := Apply(cfg, p, a, closed);
    if a.OfTask? {
      TaskLogsNoAbort(p, a.op);
    } else if p'.log != p.log {
      EmitFolds(p.log, ProcessState(Stored(p'.id, p'.mem)));
    }
  }

  lemma ExecLogsAborts(cfg: Config, p: Proc, e: ExecAction, closed: bool)
    requires Enabled(cfg, p, OfExec(e)) && !e.ExecRecord?
    ensures var p' := Apply(cfg, p, OfExec(e), closed);
      && p'.mem.abortRetries == p.mem.abortRetries
      && (p'.log == p.log || LoggedAborts(p') == p'.mem.abortRetries)
  {
    var p' := Apply(cfg, p, OfExec(e), closed);
    if p'.log != p.log {
      EmitFolds(p.log, ProcessState(Stored(p'.id, p'.mem)));
    }
  }

  /** The same for whatever happens. */
  ghost predicate HappeningIsLogged(s: State, h: Happening, s': State) {
    LoggedAborts(s.p) + Count(h.Does? && Redoes(s.p, h.action, s'.p)) <= LoggedAborts(s'.p) <= s'.p.mem.abortRetries
  }

  lemma HappeningLogsAborts(cfg: Config, s: State, h: Happening)
    requires Inv(cfg, s.p, s.closed) && CanHappen(cfg, s, h) && LoggedAborts(s.p) <= s.p.mem.abortRetries
    ensures HappeningIsLogged(s, h, Then(cfg, s, h))
  {
    match h {
      case Does(a) => StepLogsAborts(cfg, s.p, a, s.closed);
      case Closes =>
      case Crashes => RestoreLogsAborts(s.p);
    }
  }

  lemma NextLogsAborts(cfg: Config, id: Identity, life: Life, i: nat)
    requires IsLife(cfg, id, life) && i < |life.happenings|
    requires LoggedAborts(life.states[i].p) <= life.states[i].p.mem.abortRetries
    ensures HappeningIsLogged(life.states[i], life.happenings[i], life.states[i + 1])
  {
    EveryStateIsSound(cfg, id, life, i);
    NextHappens(cfg, id, life, i);
    HappeningLogsAborts(cfg, life.states[i], life.happenings[i]);
  }

  lemma {:induction false} RedoneSectionsAreLogged(cfg: Config, id: Identity, life: Life, n: nat)
    requires IsLife(cfg, id, life) && n <= |life.happenings|
    ensures SectionsRedone(cfg, life, n) <= LoggedAborts(life.states[n].p) <= life.states[n].p.mem.abortRetries
  {
    if n == 0 {
      FirstIsTheCreation(cfg, id, life);
    } else {
      RedoneSectionsAreLogged(cfg, id, life, n - 1);
      NextLogsAborts(cfg, id, life, n - 1);
    }
  }

  lemma RestoreLogsAborts(p: Proc)
    requires LastStored(p.log).Some?
    ensures LoggedAborts(Restored(p)) == LoggedAborts(p) == Restored(p).mem.abortRetries
  {
    var p' := Restored(p);
    if p'.log != p.log {
      EmitFolds(p.log, ProcessState(Stored(p'.id, p'.mem)));
    }
  }

  /** A process redoes aborted sections at most ten times in its whole life: no fork,
      retry, restart of the process or crash of the host resets the budget. */
  lemma AbortBudgetIsForLife(cfg: Config, id: Identity, life: Life)
    requires IsLife(cfg, id, life)
    ensures SectionsRedone(cfg, life, |life.happenings|) <= 10
  {
    var n := |life.happenings|;
    RedoneSectionsAreLogged(cfg, id, life, n);
    EveryStateIsSound(cfg, id, life, n);
  }

  // ---- A closed runtime -------------------------------------------------

  const SHUTDOWN := [OfExec(ExecBegin), OfExec(ExecSubmit(false)), OfExec(ExecFinish), ApiRetry(true)]

  /** Where a new process stands after n of these, its host closed since its creation. */
  ghost predicate ShutDown(p: Proc, n: nat) {
    && p.mem.journal.history == map[]
    && LastStored(p.log).Some? && LastStored(p.log).value.revision == 1
    && match n
       case 0 =>
         && p.mem.quantum == Some(Quantum(1, Starting, Unstarted)) && !p.mem.stopRequested
         && p.mem.journal == EMPTY
       case 1 => p.mem.quantum == Some(Quantum(1, Submitting, Unstarted)) && p.mem.journal == EMPTY
       case 2 =>
         && p.mem.quantum == Some(Quantum(1, Finishing(ProcessInterrupted, "", "pool: closed"), Unstarted))
         && p.mem.journal == EMPTY
       case 3 => p.mem.status.ProcessInterrupted? && p.mem.journal == EMPTY
       case _ => p.mem.journal.revision == 2
  }

  lemma ShutDownStep(cfg: Config, p: Proc, n: nat)
    requires n < 4 && ShutDown(p, n)
    ensures Enabled(cfg, p, SHUTDOWN[n]) && ShutDown(Apply(cfg, p, SHUTDOWN[n], true), n + 1)
  {
    var p' := Apply(cfg, p, SHUTDOWN[n], true);
    EmitFolds(p.log, ProcessState(Stored(p'.id, p'.mem)));
  }

  lemma {:induction false} ReachShutDown(cfg: Config, id: Identity, n: nat) returns (p: Proc)
    requires n <= 4
    ensures Reachable(cfg, State(p, true)) && ShutDown(p, n)
  {
    if n == 0 {
      p := Created(id);
      CreationIsReachable(cfg, id);
      ReachableGoesOn(cfg, State(p, false), Closes);
      EmitFolds([], ProcessState(Stored(id, p.mem)));
    } else {
      var before := ReachShutDown(cfg, id, n - 1);
      ShutDownStep(cfg, before, n - 1);
      ReachableGoesOn(cfg, State(before, true), Does(SHUTDOWN[n - 1]));
      p := Apply(cfg, before, SHUTDOWN[n - 1], true);
    }
  }

  /** A refused retry on a closed runtime is lost: a process interrupted while the host
      shuts down forks in memory, its relaunch is refused, and the next boot finds the
      revision it forked from. */
  lemma ClosedRetryLosesItsFork(cfg: Config, id: Identity)
    ensures exists s: State ::
      && Reachable(cfg, s) && s.closed && LastStored(s.p.log).Some?
      && s.p.mem.journal.revision == 2 && Restored(s.p).mem.journal.revision == 1
  {
    var p := ReachShutDown(cfg, id, 4);
    assert Restored(State(p, true).p).mem.journal.revision == 1;
  }
}
