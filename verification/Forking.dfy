/** Where a process's journal is cut back: an aborted or resumed run goes on from the begin
    of its outermost open section, a restart from nothing, and no other step forks. */
module Forking {
  import opened Sys
  import opened Journaled
  import opened Lineage
  import opened Process
  import opened ProcessInv
  import opened ProcessSteps
  import opened ProcessSafety

  /** A new revision over the same records, from the offset on. */
  predicate CutAt(j: Journal, offset: nat, j': Journal) {
    && j'.revision == j.revision + 1 && j'.history == j.history
    && j'.forkOffset == offset && j'.length == offset
  }

  /** The journal goes on from its open section's begin: the view is cut right after that
      begin's completion, and is inside that one section and no other. */
  ghost predicate CutAtSection(j: Journal, j': Journal) {
    var v, w := ViewOf(j), ViewOf(j');
    && WellFormed(v) && WellFormed(w)
    && exists k: nat :: SectionAt(j, v, k, j', w)
  }

  ghost predicate SectionAt(j: Journal, v: seq<Record>, k: nat, j': Journal, w: seq<Record>)
    requires WellFormed(v) && WellFormed(w)
  {
    && IsOutermostOpen(v, k) && CutAt(j, 2 * k + 2, j')
    && 2 * k + 2 <= |v| && w == v[..2 * k + 2] && Depth(w, k + 1) == 1
  }

  /** The journal goes on right after its open section's begin. */
  ghost predicate CutAfterBegin(j: Journal, j': Journal) {
    WellFormed(ViewOf(j)) && exists k: nat :: IsOutermostOpen(ViewOf(j), k) && CutAt(j, 2 * k + 2, j')
  }

  /** What a retry makes of a journal: a restart begins anew, and a resume of a process that
      is not parked goes back to the begin of its open section, if there is one. */
  ghost predicate RetryLeaves(j: Journal, parked: bool, restart: bool, j': Journal) {
    && WellFormed(ViewOf(j))
    && if restart then CutAt(j, 0, j') else if !parked && InSection(ViewOf(j)) then CutAfterBegin(j, j') else j' == j
  }

  /** What an abort makes of it. */
  ghost predicate AbortLeaves(j: Journal, spent: nat, j': Journal) {
    && WellFormed(ViewOf(j))
    && if InSection(ViewOf(j)) && spent < MAX_ABORT_RETRIES then CutAfterBegin(j, j') else j' == j
  }

  /** The guest's run ended by itself, and the last thing it did was abort. */
  predicate Aborts(p: Proc, a: Action) {
    var v := ViewOf(p.mem.journal);
    && a == OfExec(ExecRecord) && p.mem.quantum.Some? && p.mem.quantum.value.exec == Recording(EndCompleted)
    && WellFormed(v) && v != [] && !HasOpenIntent(v) && CallAt(v, Completed(v) - 1).name.SysAbort?
  }

  /** A resume of a process that is not parked on a task. */
  predicate Resumes(p: Proc, a: Action) {
    a == ApiRetry(false) && !p.mem.status.ProcessWaiting?
  }

  /** The step runs the open section again, if one is open. */
  predicate RedoesSection(p: Proc, a: Action) {
    Resumes(p, a) || (Aborts(p, a) && p.mem.abortRetries < MAX_ABORT_RETRIES)
  }

  /** The scan's answer is the section's body. */
  lemma OpenIsTheSection(v: seq<Record>)
    requires WellFormed(v)
    ensures OpenSection(v).Some? <==> InSection(v)
    ensures OpenSection(v).Some? ==> OpenSection(v).value <= |v| && BodyStartsAt(v, OpenSection(v).value)
  {
    ScanFindsTheSection(v);
  }

  lemma AbortsAreSeen(p: Proc, a: Action)
    requires WellFormed(ViewOf(p.mem.journal)) && a == OfExec(ExecRecord)
    requires p.mem.quantum.Some? && p.mem.quantum.value.exec == Recording(EndCompleted)
    ensures Aborts(p, a) <==> GuestAborted(ViewOf(p.mem.journal))
  {
    var v := ViewOf(p.mem.journal);
    if v != [] && !HasOpenIntent(v) {
      assert Sound(v[|v| - 2], |v| - 2) && Sound(v[|v| - 1], |v| - 1);
    }
  }

  lemma SectionIsCut(cfg: Config, j: Journal, f: nat)
    requires JournalInv(cfg, j) && OpenSection(ViewOf(j)) == Some(f)
    ensures CutAtSection(j, Step(j, ForkAt(f)))
  {
    ViewIsSound(cfg, j);
    OpenIsTheSection(ViewOf(j));
    CutViews(cfg, j, f);
    SectionViews(j, ViewOf(j), f, Step(j, ForkAt(f)));
  }

  lemma CutViews(cfg: Config, j: Journal, f: nat)
    requires JournalInv(cfg, j) && f <= j.length && f % 2 == 0
    ensures |ViewOf(j)| == j.length && ViewOf(Step(j, ForkAt(f))) == ViewOf(j)[..f]
  {
    ForkKeepsJournal(cfg, j, f);
  }

  lemma SectionViews(j: Journal, v: seq<Record>, f: nat, j': Journal)
    requires v == ViewOf(j) && WellFormed(v) && OpenSection(v) == Some(f) && f <= |v|
    requires ViewOf(j') == v[..f] && CutAt(j, f, j')
    ensures CutAtSection(j, j')
  {
    OpenIsTheSection(v);
    ForkedAtTheBegin(v, f);
    SectionIsThere(j, v, f, j', ViewOf(j'));
  }

  lemma SectionIsThere(j: Journal, v: seq<Record>, f: nat, j': Journal, w: seq<Record>)
    requires WellFormed(v) && WellFormed(w) && f <= |v| && BodyStartsAt(v, f)
    requires CutAt(j, f, j') && w == v[..f] && Depth(w, f / 2) == 1
    ensures exists k: nat :: SectionAt(j, v, k, j', w)
  {
    var k: nat := f / 2 - 1;
    assert 2 * k + 2 == f;
    assert SectionAt(j, v, k, j', w);
  }

  /** Which steps change the journal, and to what. */
  lemma ForkingSteps(cfg: Config, p: Proc, a: Action, closed: bool)
    requires Enabled(cfg, p, a) && !a.OfGuest?
    ensures var j, j' := p.mem.journal, Apply(cfg, p, a, closed).mem.journal;
      if !ForksIn(p, a) then j' == j
      else if a == ApiRetry(true) then j' == Step(j, ForkAt(0))
      else j' == Step(j, ForkAt(OpenSection(ViewOf(j)).value))
  {
    match a {
      case OfExec(e) => ExecForks(cfg, p, e, closed);
      case ApiRetry(restart) => RetryForks(p, restart, closed);
      case _ =>
    }
  }

  lemma ExecForks(cfg: Config, p: Proc, e: ExecAction, closed: bool)
    requires Enabled(cfg, p, OfExec(e))
    ensures var j, j' := p.mem.journal, Apply(cfg, p, OfExec(e), closed).mem.journal;
      if ForksIn(p, OfExec(e)) then j' == Step(j, ForkAt(OpenSection(ViewOf(j)).value)) else j' == j
  {
    if e.ExecRecord? {
      RecordForks(p, p.mem.quantum.value, closed);
    } else {
      assert !ForksIn(p, OfExec(e));
    }
  }

  lemma RetryForks(p: Proc, restart: bool, closed: bool)
    ensures var j, j' := p.mem.journal, DoRetry(p, restart, closed).mem.journal;
      if restart then j' == Step(j, ForkAt(0))
      else if !p.mem.status.ProcessWaiting? && OpenSection(ViewOf(j)).Some?
      then j' == Step(j, ForkAt(OpenSection(ViewOf(j)).value))
      else j' == j
  {
  }

  lemma RecordForks(p: Proc, q: Quantum, closed: bool)
    requires p.mem.quantum == Some(q) && q.exec.Recording?
    ensures var j, j' := p.mem.journal, DoRecord(p, q, q.exec.ending, closed).mem.journal;
      if ForksIn(p, OfExec(ExecRecord)) then j' == Step(j, ForkAt(OpenSection(ViewOf(j)).value)) else j' == j
  {
    if q.exec.ending.EndCompleted? && GuestAborted(ViewOf(p.mem.journal)) {
      SectionForks(p, closed);
      RecordOfAbort(p, q, closed);
    } else {
      RecordOtherwise(p, q, closed);
    }
  }

  predicate Redone(p: Proc) {
    OpenSection(ViewOf(p.mem.journal)).Some? && p.mem.abortRetries < MAX_ABORT_RETRIES
  }

  lemma SectionForks(p: Proc, closed: bool)
    ensures var j, m := p.mem.journal, RetryAbortedSection(p, closed).mem;
      if Redone(p) then
        && m.journal == Step(j, ForkAt(OpenSection(ViewOf(j)).value)) && m.abortRetries == p.mem.abortRetries + 1
        && (!closed ==> m.status.ProcessQueued? && m.quantum == Some(NewQuantum(j.revision + 1)))
      else
        m.journal == j && m.abortRetries == p.mem.abortRetries && m.status.ProcessFailed? && m.quantum.None?
  {
  }

  lemma CutIsAfterBegin(j: Journal)
    requires WellFormed(ViewOf(j)) && OpenSection(ViewOf(j)).Some?
    ensures CutAfterBegin(j, Step(j, ForkAt(OpenSection(ViewOf(j)).value)))
  {
    var v, f := ViewOf(j), OpenSection(ViewOf(j)).value;
    OpenIsTheSection(v);
    var k: nat := f / 2 - 1;
    assert 2 * k + 2 == f;
    assert IsOutermostOpen(v, k) && CutAt(j, 2 * k + 2, Step(j, ForkAt(f)));
  }

  lemma RetriesLeave(p: Proc, restart: bool, closed: bool)
    requires WellFormed(ViewOf(p.mem.journal))
    ensures RetryLeaves(
      p.mem.journal, p.mem.status.ProcessWaiting?, restart, DoRetry(p, restart, closed).mem.journal)
  {
    RetryForks(p, restart, closed);
    OpenIsTheSection(ViewOf(p.mem.journal));
    if OpenSection(ViewOf(p.mem.journal)).Some? {
      CutIsAfterBegin(p.mem.journal);
    }
  }

  lemma AbortsLeave(p: Proc, closed: bool)
    requires WellFormed(ViewOf(p.mem.journal))
    ensures AbortLeaves(p.mem.journal, p.mem.abortRetries, RetryAbortedSection(p, closed).mem.journal)
  {
    SectionForks(p, closed);
    OpenIsTheSection(ViewOf(p.mem.journal));
    if OpenSection(ViewOf(p.mem.journal)).Some? {
      CutIsAfterBegin(p.mem.journal);
    }
  }

  lemma WhoForks(cfg: Config, p: Proc, a: Action)
    requires WellFormed(ViewOf(p.mem.journal)) && Enabled(cfg, p, a)
    ensures ForksIn(p, a) <==> a == ApiRetry(true) || (RedoesSection(p, a) && InSection(ViewOf(p.mem.journal)))
  {
    OpenIsTheSection(ViewOf(p.mem.journal));
    if a == OfExec(ExecRecord) && p.mem.quantum.value.exec == Recording(EndCompleted) {
      AbortsAreSeen(p, a);
    }
  }

  lemma GuestsKeepTheRevision(cfg: Config, p: Proc, a: GuestAction, closed: bool)
    requires Enabled(cfg, p, OfGuest(a))
    ensures var j, j' := p.mem.journal, Apply(cfg, p, OfGuest(a), closed).mem.journal;
      j'.revision == j.revision && j'.forkOffset == j.forkOffset && j.length <= j'.length
  {
    GuestFrame(cfg, p, a, closed);
  }

  /** In every reachable state, a step forks the journal exactly when it restarts the
      process, or when the journal ends inside a section and the step resumes a process that
      is not parked, or records an abort with attempts left. A restart goes on from nothing;
      the others go on from right after the begin of the outermost open section, and are
      inside it alone. No other step lowers the journal's length. */
  lemma ForksExactlyAtTheSection(cfg: Config, s: State, a: Action)
    requires Reachable(cfg, s) && Enabled(cfg, s.p, a)
    ensures WellFormed(ViewOf(s.p.mem.journal))
    ensures var j, j' := s.p.mem.journal, Apply(cfg, s.p, a, s.closed).mem.journal;
      if a == ApiRetry(true) then CutAt(j, 0, j')
      else if RedoesSection(s.p, a) && InSection(ViewOf(j)) then CutAtSection(j, j')
      else j'.revision == j.revision && j'.forkOffset == j.forkOffset && j.length <= j'.length
  {
    ReachableMemoryIsSound(cfg, s);
    WhoForks(cfg, s.p, a);
    if a.OfGuest? {
      GuestsKeepTheRevision(cfg, s.p, a.guest, s.closed);
    } else {
      ForkingSteps(cfg, s.p, a, s.closed);
      if ForksIn(s.p, a) && a != ApiRetry(true) {
        SectionIsCut(cfg, s.p.mem.journal, OpenSection(ViewOf(s.p.mem.journal)).value);
      }
    }
  }

  /** An aborted run that redoes its section spends one attempt and, unless the runtime is
      closed, is queued; outside any section, or with none left, it fails for good. */
  lemma AbortsRedoOrFail(cfg: Config, s: State)
    requires Reachable(cfg, s) && Enabled(cfg, s.p, OfExec(ExecRecord)) && Aborts(s.p, OfExec(ExecRecord))
    ensures var p, p' := s.p, Apply(cfg, s.p, OfExec(ExecRecord), s.closed);
      if InSection(ViewOf(p.mem.journal)) && p.mem.abortRetries < MAX_ABORT_RETRIES then
        && p'.mem.abortRetries == p.mem.abortRetries + 1
        && (!s.closed ==>
              p'.mem.status.ProcessQueued? && p'.mem.quantum == Some(NewQuantum(p.mem.journal.revision + 1)))
      else p'.mem.status.ProcessFailed? && p'.mem.quantum.None? && p'.mem.abortRetries == p.mem.abortRetries
  {
    AbortsAreSeen(s.p, OfExec(ExecRecord));
    AbortRecorded(s.p, s.p.mem.quantum.value, s.closed);
  }

  lemma AbortRecorded(p: Proc, q: Quantum, closed: bool)
    requires WellFormed(ViewOf(p.mem.journal)) && GuestAborted(ViewOf(p.mem.journal))
    requires q.exec == Recording(EndCompleted)
    ensures var m := DoRecord(p, q, q.exec.ending, closed).mem;
      if InSection(ViewOf(p.mem.journal)) && p.mem.abortRetries < MAX_ABORT_RETRIES then
        && m.abortRetries == p.mem.abortRetries + 1
        && (!closed ==> m.status.ProcessQueued? && m.quantum == Some(NewQuantum(p.mem.journal.revision + 1)))
      else m.status.ProcessFailed? && m.quantum.None? && m.abortRetries == p.mem.abortRetries
  {
    OpenIsTheSection(ViewOf(p.mem.journal));
    SectionForks(p, closed);
    RecordOfAbort(p, q, closed);
  }
}
