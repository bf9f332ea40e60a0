/** What holds over every run of a session: who runs, what a process reads of the turns
    before it, what a restart of the host rebuilds, and when it wedges the session. */
module SessionSafety {
  import opened Sys
  import opened Durable
  import opened Process
  import opened ProcessInv
  import opened ProcessSteps
  import opened ProcessSafety
  import opened Session
  import opened SessionInv
  import Replay

  // ---- Runs -------------------------------------------------------------

  datatype Chronicle = Chronicle(states: seq<Session>, deeds: seq<Deed>)

  ghost predicate IsChronicle(b: Binding, run: Chronicle) {
    && |run.states| == |run.deeds| + 1
    && forall i :: 0 <= i < |run.states| ==> ComesNext(b, run, i)
  }

  /** A chronicle begins with a new session, and goes on deed by deed. */
  ghost predicate ComesNext(b: Binding, run: Chronicle, i: nat)
    requires |run.states| == |run.deeds| + 1 && i < |run.states|
  {
    if i == 0 then run.states[0] == NEW_SESSION
    else
      && CanDo(b, run.states[i - 1], run.deeds[i - 1])
      && run.states[i] == AfterDeed(b, run.states[i - 1], run.deeds[i - 1])
  }

  lemma FirstIsNew(b: Binding, run: Chronicle)
    requires IsChronicle(b, run)
    ensures run.states[0] == NEW_SESSION
  {
    assert ComesNext(b, run, 0);
  }

  lemma NextDeed(b: Binding, run: Chronicle, i: nat)
    requires IsChronicle(b, run) && i < |run.deeds|
    ensures CanDo(b, run.states[i], run.deeds[i])
    ensures run.states[i + 1] == AfterDeed(b, run.states[i], run.deeds[i])
  {
    assert ComesNext(b, run, i + 1);
  }

  lemma NewSessionIsSound(b: Binding)
    ensures SessionSound(b, NEW_SESSION)
  {
  }

  lemma NextSessionIsSound(b: Binding, run: Chronicle, i: nat)
    requires IsChronicle(b, run) && i < |run.deeds| && SessionSound(b, run.states[i])
    ensures SessionSound(b, run.states[i + 1])
  {
    NextDeed(b, run, i);
    DeedKeeps(b, run.states[i], run.deeds[i]);
  }

  lemma {:induction false} EverySessionIsSound(b: Binding, run: Chronicle, i: nat)
    requires IsChronicle(b, run) && i < |run.states|
    ensures SessionSound(b, run.states[i])
  {
    if i == 0 {
      FirstIsNew(b, run);
      NewSessionIsSound(b);
    } else {
      EverySessionIsSound(b, run, i - 1);
      NextSessionIsSound(b, run, i - 1);
    }
  }

  /** In every session, across retries, stops, crashes and restores, a process that is
      queued, running, stopping or waiting is the session's latest: at most one is. */
  lemma AtMostTheLatestRuns(b: Binding, run: Chronicle, i: nat, pid: string, other: string)
    requires IsChronicle(b, run) && i < |run.states|
    requires pid in run.states[i].procs && Occupies(run.states[i].procs[pid].mem.status)
    ensures Latest(run.states[i]) == Some(pid)
    ensures other in run.states[i].procs && Occupies(run.states[i].procs[other].mem.status) ==> other == pid
  {
    EverySessionIsSound(b, run, i);
  }

  // ---- The conversation a process reads ---------------------------------

  predicate SameTurn(p: Proc, p': Proc) {
    && p'.mem.status.ProcessCompleted? == p.mem.status.ProcessCompleted?
    && p'.id == p.id && p'.mem.answer == p.mem.answer && p'.mem.labels == p.mem.labels
  }

  ghost predicate SameTurns(procs: map<string, Proc>, procs': map<string, Proc>, ids: seq<string>) {
    forall pid :: pid in ids ==> pid in procs && pid in procs' && SameTurn(procs[pid], procs'[pid])
  }

  lemma {:induction false} SameTurnsSameHistory(procs: map<string, Proc>, procs': map<string, Proc>, ids: seq<string>)
    requires SameTurns(procs, procs', ids)
    ensures HistoryOf(procs, ids) == HistoryOf(procs', ids)
  {
    if ids != [] {
      assert ids[|ids| - 1] in ids;
      SameTurnsSameHistory(procs, procs', ids[..|ids| - 1]);
    }
  }

  lemma {:induction false} IndexOfMember(ids: seq<string>, pid: string)
    requires pid in ids
    ensures IndexIn(ids, pid) < |ids| && ids[IndexIn(ids, pid)] == pid
    ensures forall more: seq<string> :: IndexIn(ids + more, pid) == IndexIn(ids, pid)
  {
    if ids[0] != pid {
      IndexOfMember(ids[1..], pid);
      forall more: seq<string> ensures IndexIn(ids + more, pid) == IndexIn(ids, pid) {
        assert (ids + more)[1..] == ids[1..] + more;
      }
    }
  }

  /** The processes before another one are not the latest. */
  lemma EarlierIsNotLatest(s: Session, pid: string, q: string)
    requires Ordered(s) && pid in s.procs && IndexIn(s.order, pid) < |s.order|
    requires q in s.order[..IndexIn(s.order, pid)]
    ensures q in s.procs && Latest(s) != Some(q)
  {
    var i :| 0 <= i < IndexIn(s.order, pid) && s.order[i] == q;
    assert s.order[|s.order| - 1] in s.procs && q in s.procs;
  }

  /** An earlier process's turn is final. */
  lemma EarlierTurnStays(b: Binding, s: Session, d: Deed, q: string)
    requires SessionSound(b, s) && CanDo(b, s, d) && q in s.procs && Latest(s) != Some(q)
    ensures q in AfterDeed(b, s, d).procs && SameTurn(s.procs[q], AfterDeed(b, s, d).procs[q])
  {
    match d {
      case Acts(pid, a) => if pid == q { ActedTurnStays(b, s, a, q); }
      case Reboots(order) => RebootedTurnStays(b, s, order, q);
      case _ =>
    }
  }

  lemma ActedTurnStays(b: Binding, s: Session, a: Action, q: string)
    requires SessionSound(b, s) && CanDo(b, s, Acts(q, a)) && Latest(s) != Some(q)
    ensures SameTurn(s.procs[q], Apply(b(s.procs[q].id), s.procs[q], a, s.closed))
  {
    LivesAreSound(b, s, q);
    IdleProcessStays(b(s.procs[q].id), s.procs[q], a, s.closed);
  }

  lemma RebootedTurnStays(b: Binding, s: Session, order: seq<string>, q: string)
    requires SessionSound(b, s) && CanDo(b, s, Reboots(order)) && q in s.procs && Latest(s) != Some(q)
    ensures q in AfterReboot(s, order).procs && SameTurn(s.procs[q], AfterReboot(s, order).procs[q])
  {
    LivesAreSound(b, s, q);
    RebootProcs(b, s, order);
    RestoredTurnStays(b(s.procs[q].id), s.procs[q], s.closed);
  }

  lemma RestoredTurnStays(cfg: Config, p: Proc, closed: bool)
    requires Inv(cfg, p, closed) && Saved(p) && !IsLive(p.mem.status)
    ensures SameTurn(p, RestoredFrom(p.log))
  {
    RestoreRefinesTheLiveState(cfg, p, closed);
  }

  lemma OrderOnlyGrows(b: Binding, s: Session, d: Deed)
    requires SessionSound(b, s) && CanDo(b, s, d)
    ensures s.order <= AfterDeed(b, s, d).order
  {
    if d.Reboots? {
      RebootProcs(b, s, d.order);
    }
  }

  lemma BeforeStays(order: seq<string>, order': seq<string>, pid: string)
    requires pid in order && order <= order'
    ensures Earlier(order', pid) == Earlier(order, pid)
  {
    IndexOfMember(order, pid);
    assert order' == order + order'[|order|..];
  }

  lemma EarlierTurnsStay(b: Binding, s: Session, d: Deed, pid: string)
    requires SessionSound(b, s) && CanDo(b, s, d) && pid in s.procs
    ensures SameTurns(s.procs, AfterDeed(b, s, d).procs, Earlier(s.order, pid))
  {
    IndexOfMember(s.order, pid);
    forall q | q in Earlier(s.order, pid)
      ensures q in s.procs && q in AfterDeed(b, s, d).procs && SameTurn(s.procs[q], AfterDeed(b, s, d).procs[q])
    {
      EarlierIsNotLatest(s, pid, q);
      EarlierTurnStays(b, s, d, q);
    }
  }

  /** What a process reads of its session's earlier turns is the same before and after
      any step, whether it runs or is retried, or the host restarts. */
  lemma HistoryStays(b: Binding, s: Session, d: Deed, pid: string)
    requires SessionSound(b, s) && CanDo(b, s, d) && pid in s.procs
    ensures HistoryBefore(AfterDeed(b, s, d), pid) == HistoryBefore(s, pid)
  {
    OrderOnlyGrows(b, s, d);
    BeforeStays(s.order, AfterDeed(b, s, d).order, pid);
    EarlierTurnsStay(b, s, d, pid);
    SameTurnsSameHistory(s.procs, AfterDeed(b, s, d).procs, Earlier(s.order, pid));
  }

  lemma ProcessesStay(b: Binding, s: Session, d: Deed, pid: string)
    requires SessionSound(b, s) && CanDo(b, s, d) && pid in s.procs
    ensures pid in AfterDeed(b, s, d).procs && AfterDeed(b, s, d).procs[pid].id == s.procs[pid].id
  {
    match d {
      case Acts(q, a) => if q == pid { StepAppends(b(s.procs[q].id), s.procs[q], a, s.closed); }
      case Reboots(order) =>
        RebootProcs(b, s, order);
        RestoreAppends(b, s, pid);
      case _ =>
    }
  }

  lemma HistoryStaysNext(b: Binding, run: Chronicle, i: nat, pid: string)
    requires IsChronicle(b, run) && i < |run.deeds| && pid in run.states[i].procs
    ensures pid in run.states[i + 1].procs && run.states[i + 1].procs[pid].id == run.states[i].procs[pid].id
    ensures HistoryBefore(run.states[i + 1], pid) == HistoryBefore(run.states[i], pid)
  {
    EverySessionIsSound(b, run, i);
    NextDeed(b, run, i);
    ProcessesStay(b, run.states[i], run.deeds[i], pid);
    HistoryStays(b, run.states[i], run.deeds[i], pid);
  }

  /** The history a process reads never changes during its life. */
  lemma {:induction false} HistoryNeverChanges(b: Binding, run: Chronicle, i: nat, j: nat, pid: string)
    requires IsChronicle(b, run) && i <= j < |run.states| && pid in run.states[i].procs
    ensures pid in run.states[j].procs && run.states[j].procs[pid].id == run.states[i].procs[pid].id
    ensures HistoryBefore(run.states[j], pid) == HistoryBefore(run.states[i], pid)
  {
    if i < j {
      HistoryNeverChanges(b, run, i, j - 1, pid);
      HistoryStaysNext(b, run, j - 1, pid);
    }
  }

  // ---- What a restart rebuilds ------------------------------------------

  /** The live processes, the stored ones and the restored ones agree on who is active. */
  lemma ActiveInLog(b: Binding, s: Session, pid: string)
    requires SessionSound(b, s) && !s.closed && pid in s.procs
    ensures FoldProcesses(s.stream)[pid].status == s.procs[pid].mem.status
  {
    LivesAreSound(b, s, pid);
  }

  /** Restarting the host of an open session gives back its processes in order, each with
      the memory it had less what only a quantum uses. The session is held by the earliest
      active process, an interrupted one included, which is the live holder whenever no
      process is interrupted. */
  lemma RestartRebuildsTheSession(b: Binding, run: Chronicle, i: nat, order: seq<string>)
    requires IsChronicle(b, run) && i < |run.states| && !run.states[i].closed
    requires CanDo(b, run.states[i], Reboots(order))
    ensures var s, s' := run.states[i], AfterReboot(run.states[i], order);
      && s'.order == s.order && s'.procs.Keys == s.procs.Keys
      && (forall pid :: pid in s.procs ==>
            s'.procs[pid].id == s.procs[pid].id && s'.procs[pid].mem == Rebooted(s.procs[pid].mem))
      && (s'.active.None? <==> forall pid :: pid in s.procs ==> !IsActive(s.procs[pid].mem.status))
      && ((forall pid :: pid in s.procs ==> !s.procs[pid].mem.status.ProcessInterrupted?) ==> s'.active == s.active)
  {
    var s, s' := run.states[i], AfterReboot(run.states[i], order);
    EverySessionIsSound(b, run, i);
    RebootProcs(b, s, order);
    forall pid | pid in s.procs
      ensures s'.procs[pid].id == s.procs[pid].id && s'.procs[pid].mem == Rebooted(s.procs[pid].mem)
    {
      RestoredMemory(b, s, pid);
    }
    HolderAfterReboot(b, s, s');
  }

  lemma RestoredMemory(b: Binding, s: Session, pid: string)
    requires Living(b, s) && !s.closed && pid in s.procs && LastStored(s.procs[pid].log).Some?
    ensures RestoredFrom(s.procs[pid].log).id == s.procs[pid].id
    ensures RestoredFrom(s.procs[pid].log).mem == Rebooted(s.procs[pid].mem)
  {
    LivesAreSound(b, s, pid);
    RestoreRefinesTheLiveState(b(s.procs[pid].id), s.procs[pid], false);
  }

  lemma HolderAfterReboot(b: Binding, s: Session, s': Session)
    requires SessionSound(b, s) && !s.closed && s'.active == FirstActive(s.order, FoldProcesses(s.stream))
    ensures s'.active.None? <==> forall pid :: pid in s.procs ==> !IsActive(s.procs[pid].mem.status)
    ensures (forall pid :: pid in s.procs ==> !s.procs[pid].mem.status.ProcessInterrupted?) ==> s'.active == s.active
  {
    forall pid | pid in s.procs ensures FoldProcesses(s.stream)[pid].status == s.procs[pid].mem.status {
      ActiveInLog(b, s, pid);
    }
    RestoredHolder(s, s');
  }

  lemma RestoredHolder(s: Session, s': Session)
    requires Ordered(s) && Exclusive(s) && s'.active == FirstActive(s.order, FoldProcesses(s.stream))
    requires FoldProcesses(s.stream).Keys == s.procs.Keys
    requires forall pid :: pid in s.procs ==> FoldProcesses(s.stream)[pid].status == s.procs[pid].mem.status
    ensures s'.active.None? <==> forall pid :: pid in s.procs ==> !IsActive(s.procs[pid].mem.status)
    ensures (forall pid :: pid in s.procs ==> !s.procs[pid].mem.status.ProcessInterrupted?) ==> s'.active == s.active
  {
    FirstActiveIsFirst(s.order, FoldProcesses(s.stream));
    if s'.active.Some? {
      assert IsActive(s.procs[s'.active.value].mem.status);
    }
  }

  lemma {:induction false} FirstActiveByActivity(
    order: seq<string>, a: map<string, StoredProcess>, b: map<string, StoredProcess>)
    requires forall pid :: pid in order ==>
      pid in a && pid in b && (IsActive(a[pid].status) <==> IsActive(b[pid].status))
    ensures FirstActive(order, a) == FirstActive(order, b)
  {
    if order != [] {
      assert order[0] in order;
      FirstActiveByActivity(order[1..], a, b);
    }
  }

  lemma {:induction false} QuietReboot(stream: seq<Event>, order: seq<string>)
    requires forall pid :: pid in order ==>
      LastStored(LogOf(stream, pid)).Some? && RestoredFrom(LogOf(stream, pid)).log == LogOf(stream, pid)
    ensures RebootedStream(stream, order) == stream
  {
    if order != [] {
      assert order[|order| - 1] in order;
      QuietReboot(stream, order[..|order| - 1]);
    }
  }

  /** A restored process is as its restored log says. */
  lemma RestoredAgain(b: Binding, s: Session, pid: string)
    requires SessionSound(b, s) && pid in s.procs
    ensures LastStored(s.procs[pid].log).Some? && LastStored(RestoredFrom(s.procs[pid].log).log).Some?
    ensures RestoredFrom(RestoredFrom(s.procs[pid].log).log) == RestoredFrom(s.procs[pid].log)
    ensures IsActive(RestoredFrom(s.procs[pid].log).mem.status) == IsActive(FoldProcesses(s.stream)[pid].status)
    ensures LastStored(RestoredFrom(s.procs[pid].log).log).value.status == RestoredFrom(s.procs[pid].log).mem.status
  {
    LivesAreSound(b, s, pid);
    RestoreIsIdempotent(b(s.procs[pid].id), s.procs[pid]);
    RestoreIsSound(b(s.procs[pid].id), s.procs[pid]);
  }

  /** A second restart appends nothing and gives the same session. */
  lemma SecondRestartChangesNothing(b: Binding, run: Chronicle, i: nat, order: seq<string>)
    requires IsChronicle(b, run) && i < |run.states| && CanDo(b, run.states[i], Reboots(order))
    ensures CanDo(b, AfterReboot(run.states[i], order), Reboots(order))
    ensures AfterReboot(AfterReboot(run.states[i], order), order) == AfterReboot(run.states[i], order)
  {
    var s, s' := run.states[i], AfterReboot(run.states[i], order);
    EverySessionIsSound(b, run, i);
    RebootProcs(b, s, order);
    RebootKeeps(b, s, order);
    RebootIsAlwaysPossible(b, s');
    forall pid | pid in s.procs ensures RestoredOnce(s, s', pid) {
      RestoredAgain(b, s, pid);
      assert LogOf(s'.stream, pid) == s'.procs[pid].log;
    }
    SettledReboot(s, s', order);
  }

  /** The restored process is already what its log restores to. */
  ghost predicate RestoredOnce(s: Session, s': Session, pid: string) {
    && pid in s'.procs && pid in FoldProcesses(s.stream) && pid in FoldProcesses(s'.stream)
    && LastStored(LogOf(s'.stream, pid)).Some?
    && LogOf(s'.stream, pid) == s'.procs[pid].log
    && RestoredFrom(LogOf(s'.stream, pid)) == s'.procs[pid]
    && (IsActive(FoldProcesses(s'.stream)[pid].status) <==> IsActive(FoldProcesses(s.stream)[pid].status))
  }

  lemma SettledReboot(s: Session, s': Session, order: seq<string>)
    requires forall pid :: pid in order ==> LastStored(LogOf(s.stream, pid)).Some?
    requires s' == AfterReboot(s, order)
    requires forall pid :: pid in order ==> RestoredOnce(s, s', pid)
    ensures forall pid :: pid in order ==> LastStored(LogOf(s'.stream, pid)).Some?
    ensures AfterReboot(s', order) == s'
  {
    forall pid | pid in order
      ensures LastStored(LogOf(s'.stream, pid)).Some?
      ensures RestoredFrom(LogOf(s'.stream, pid)).log == LogOf(s'.stream, pid)
    {
      assert RestoredOnce(s, s', pid);
    }
    QuietReboot(s'.stream, order);
    forall pid | pid in order
      ensures pid in FoldProcesses(s.stream) && pid in FoldProcesses(s'.stream)
      ensures IsActive(FoldProcesses(s'.stream)[pid].status) <==> IsActive(FoldProcesses(s.stream)[pid].status)
    {
      assert RestoredOnce(s, s', pid);
    }
    FirstActiveByActivity(order, FoldProcesses(s'.stream), FoldProcesses(s.stream));
    assert AfterReboot(s', order).procs == s'.procs by {
      forall pid | pid in order ensures RestoredFrom(LogOf(s'.stream, pid)) == s'.procs[pid] {
        assert RestoredOnce(s, s', pid);
      }
    }
  }

  // ---- Wedged sessions --------------------------------------------------

  /** The session is held by a process that may not run again, and nothing is under way. */
  ghost predicate Wedged(s: Session) {
    && s.active.Some? && s.active != Latest(s)
    && forall pid :: pid in s.procs ==> !IsLive(s.procs[pid].mem.status)
  }

  /** A wedged session refuses every new process and every retry. */
  lemma WedgeRefuses(b: Binding, s: Session, d: Deed)
    requires Wedged(s) && CanDo(b, s, d)
    ensures !d.Creates? && !(d.Acts? && d.action.ApiRetry?)
  {
  }

  /** With nothing under way and no retry, a step leaves every process as it is, or stops
      the one that is parked. */
  lemma RestingStep(cfg: Config, p: Proc, a: Action, closed: bool)
    requires Inv(cfg, p, closed) && !IsLive(p.mem.status) && Enabled(cfg, p, a) && !a.ApiRetry?
    ensures var p' := Apply(cfg, p, a, closed);
      && !Launches(p, p')
      && (p'.mem.status == p.mem.status || (p.mem.status.ProcessWaiting? && p'.mem.status.ProcessStopped?))
  {
  }

  lemma WedgeHoldsThroughActs(b: Binding, s: Session, pid: string, a: Action)
    requires SessionSound(b, s) && Wedged(s) && CanDo(b, s, Acts(pid, a))
    ensures Wedged(AfterAct(b, s, pid, a))
  {
    var p := s.procs[pid];
    LivesAreSound(b, s, pid);
    RestingStep(b(p.id), p, a, s.closed);
    WedgeHoldsThroughMoves(s, AfterAct(b, s, pid, a), pid, Apply(b(p.id), p, a, s.closed));
  }

  lemma WedgeHoldsThroughMoves(s: Session, s': Session, pid: string, p': Proc)
    requires Exclusive(s) && Wedged(s) && pid in s.procs && s'.procs == s.procs[pid := p'] && s'.order == s.order
    requires var p := s.procs[pid];
      && !Launches(p, p') && s'.active == Occupied(s.active, pid, p, p')
      && (p'.mem.status == p.mem.status || (p.mem.status.ProcessWaiting? && p'.mem.status.ProcessStopped?))
    ensures Wedged(s')
  {
    if s.procs[pid].mem.status.ProcessWaiting? {
      assert Latest(s) == Some(pid);
    }
  }

  lemma WedgeHolds(b: Binding, s: Session, d: Deed)
    requires SessionSound(b, s) && Wedged(s) && CanDo(b, s, d)
    ensures Wedged(AfterDeed(b, s, d)) && AfterDeed(b, s, d).order == s.order
  {
    match d {
      case Acts(pid, a) => WedgeHoldsThroughActs(b, s, pid, a);
      case Reboots(order) => WedgeHoldsThroughReboot(b, s, order);
      case ShutsDown =>
    }
  }

  lemma WedgeHoldsThroughReboot(b: Binding, s: Session, order: seq<string>)
    requires SessionSound(b, s) && Wedged(s) && CanDo(b, s, Reboots(order))
    ensures Wedged(AfterReboot(s, order)) && AfterReboot(s, order).order == s.order
  {
    WedgeLeavesOneBehind(s);
    RebootProcs(b, s, order);
    RebootWedgesExactly(b, s, order);
  }

  lemma WedgeLeavesOneBehind(s: Session)
    requires Exclusive(s) && Wedged(s)
    ensures LeavesOneBehind(s)
  {
    assert LeftBehind(s, s.active.value);
  }

  lemma WedgeRefusesNext(b: Binding, run: Chronicle, i: nat)
    requires IsChronicle(b, run) && i < |run.deeds| && Wedged(run.states[i])
    ensures !run.deeds[i].Creates? && !(run.deeds[i].Acts? && run.deeds[i].action.ApiRetry?)
  {
    NextDeed(b, run, i);
    WedgeRefuses(b, run.states[i], run.deeds[i]);
  }

  /** A wedge is for good: whatever follows, restarts included, no process is ever created
      or run again in the session. */
  lemma {:induction false} WedgeIsForever(b: Binding, run: Chronicle, i: nat, j: nat)
    requires IsChronicle(b, run) && i <= j < |run.states| && Wedged(run.states[i])
    ensures Wedged(run.states[j]) && run.states[j].order == run.states[i].order
    ensures j < |run.deeds| ==> !run.deeds[j].Creates? && !(run.deeds[j].Acts? && run.deeds[j].action.ApiRetry?)
  {
    if i < j {
      WedgeIsForever(b, run, i, j - 1);
      WedgeGoesOn(b, run, j - 1);
    }
    if j < |run.deeds| {
      WedgeRefusesNext(b, run, j);
    }
  }

  lemma WedgeGoesOn(b: Binding, run: Chronicle, i: nat)
    requires IsChronicle(b, run) && i < |run.deeds| && Wedged(run.states[i])
    ensures Wedged(run.states[i + 1]) && run.states[i + 1].order == run.states[i].order
  {
    EverySessionIsSound(b, run, i);
    NextDeed(b, run, i);
    WedgeHolds(b, run.states[i], run.deeds[i]);
  }

  /** An earlier process was interrupted, and others were created after it. */
  ghost predicate LeavesOneBehind(s: Session) {
    exists pid :: LeftBehind(s, pid)
  }

  predicate LeftBehind(s: Session, pid: string) {
    pid in s.procs && Latest(s) != Some(pid) && s.procs[pid].mem.status.ProcessInterrupted?
  }

  /** What a restart does to statuses, the order and the holder. */
  ghost predicate Restarted(s: Session, s': Session) {
    && s'.order == s.order && s'.procs.Keys == s.procs.Keys == FoldProcesses(s.stream).Keys
    && !s'.closed && s'.active == FirstActive(s.order, FoldProcesses(s.stream))
    && forall pid :: pid in s.procs ==> RestoredAs(s, s', pid)
  }

  ghost predicate RestoredAs(s: Session, s': Session, pid: string) {
    && pid in s'.procs && pid in FoldProcesses(s.stream)
    && s'.procs[pid].mem.status == RestoredStatus(FoldProcesses(s.stream)[pid].status)
  }

  lemma RebootRestarts(b: Binding, s: Session, order: seq<string>)
    requires SessionSound(b, s) && CanDo(b, s, Reboots(order))
    ensures Restarted(s, AfterReboot(s, order))
  {
    RebootProcs(b, s, order);
    forall pid | pid in s.procs ensures RestoredAs(s, AfterReboot(s, order), pid) {
      RebootedStatus(b, s, order, pid);
    }
    SameNames(s);
  }

  lemma SameNames(s: Session)
    requires Logged(s)
    ensures FoldProcesses(s.stream).Keys == s.procs.Keys
  {
  }

  lemma RebootedStatus(b: Binding, s: Session, order: seq<string>, pid: string)
    requires SessionSound(b, s) && CanDo(b, s, Reboots(order)) && pid in s.procs
    ensures RestoredAs(s, AfterReboot(s, order), pid)
  {
    RebootProcs(b, s, order);
    RebootKeepsLives(b, s, pid);
  }

  lemma LeftBehindIsFound(s: Session, pid: string)
    requires Ordered(s) && Logged(s) && Exclusive(s) && LeftBehind(s, pid)
    ensures FirstActive(s.order, FoldProcesses(s.stream)).Some?
    ensures FirstActive(s.order, FoldProcesses(s.stream)) != Latest(s)
  {
    EarlierStoredStatus(s, pid);
    SameNames(s);
    EarlierActiveIsFound(s, pid);
  }

  lemma EarlierActiveIsFound(s: Session, pid: string)
    requires Ordered(s) && FoldProcesses(s.stream).Keys == s.procs.Keys
    requires pid in s.procs && Latest(s) != Some(pid) && IsActive(FoldProcesses(s.stream)[pid].status)
    ensures FirstActive(s.order, FoldProcesses(s.stream)).Some?
    ensures FirstActive(s.order, FoldProcesses(s.stream)) != Latest(s)
  {
    EarlyActiveIsFirst(s.order, FoldProcesses(s.stream), pid);
  }

  lemma EarlyActiveIsFirst(order: seq<string>, stored: map<string, StoredProcess>, pid: string)
    requires pid in order && pid in stored && IsActive(stored[pid].status) && order[|order| - 1] != pid
    requires forall i, j :: 0 <= i < j < |order| ==> order[i] != order[j]
    ensures FirstActive(order, stored).Some? && FirstActive(order, stored).value != order[|order| - 1]
  {
    FirstActiveIsFirst(order, stored);
    var k :| 0 <= k < |order| && order[k] == pid;
    var i :| IsFirstActive(order, stored, i) && order[i] == FirstActive(order, stored).value;
    assert i <= k < |order| - 1;
  }

  lemma WedgeWasLeftBehind(s: Session, s': Session)
    requires Ordered(s) && Logged(s) && Exclusive(s) && Restarted(s, s')
    requires s'.active.Some? && s'.active != Latest(s')
    ensures LeavesOneBehind(s)
  {
    FirstActiveIsFirst(s.order, FoldProcesses(s.stream));
    var pid := s'.active.value;
    EarlierStoredStatus(s, pid);
    assert LeftBehind(s, pid);
  }

  /** A restart wedges a session if and only if an interrupted process is not its latest:
      the live session freed itself for the next process, and the fold takes it back. */
  lemma RebootWedgesExactly(b: Binding, s: Session, order: seq<string>)
    requires SessionSound(b, s) && CanDo(b, s, Reboots(order))
    ensures Wedged(AfterReboot(s, order)) <==> LeavesOneBehind(s)
  {
    RebootRestarts(b, s, order);
    RestartWedgesExactly(s, AfterReboot(s, order));
  }

  lemma RestartWedgesExactly(s: Session, s': Session)
    requires Ordered(s) && Logged(s) && Exclusive(s) && Restarted(s, s')
    ensures Wedged(s') <==> LeavesOneBehind(s)
  {
    if pid :| LeftBehind(s, pid) {
      LeftBehindIsFound(s, pid);
      NothingLiveAfterRestart(s, s');
      assert Latest(s') == Latest(s);
    } else if Wedged(s') {
      WedgeWasLeftBehind(s, s');
    }
  }

  lemma NothingLiveAfterRestart(s: Session, s': Session)
    requires Restarted(s, s')
    ensures forall pid :: pid in s'.procs ==> !IsLive(s'.procs[pid].mem.status)
  {
  }

  /** Someone can still do something with the session. */
  ghost predicate Usable(s: Session) {
    CanCreate(s) || exists pid :: RunsAgain(s, pid)
  }

  predicate RunsAgain(s: Session, pid: string) {
    pid in s.procs && MayRunAgain(s, pid) && CanRetry(s.procs[pid].mem.status, true)
  }

  lemma RestoredHolderRunsAgain(s: Session, s': Session)
    requires Ordered(s) && Restarted(s, s') && s'.active.Some? && s'.active == Latest(s')
    ensures RunsAgain(s', s'.active.value)
  {
    FirstActiveIsFirst(s.order, FoldProcesses(s.stream));
  }

  /** After a restart a session can take a new process or run its latest again, exactly
      when no earlier process was left interrupted. */
  lemma RestartedSessionIsUsableExactly(b: Binding, run: Chronicle, i: nat, order: seq<string>)
    requires IsChronicle(b, run) && i < |run.states| && CanDo(b, run.states[i], Reboots(order))
    ensures Usable(AfterReboot(run.states[i], order)) <==> !LeavesOneBehind(run.states[i])
  {
    var s, s' := run.states[i], AfterReboot(run.states[i], order);
    EverySessionIsSound(b, run, i);
    RebootWedgesExactly(b, s, order);
    RebootRestarts(b, s, order);
    NothingLiveAfterRestart(s, s');
    UsableUnlessWedged(s, s');
  }

  lemma UsableUnlessWedged(s: Session, s': Session)
    requires Ordered(s) && Restarted(s, s')
    requires forall pid :: pid in s'.procs ==> !IsLive(s'.procs[pid].mem.status)
    ensures Usable(s') <==> !Wedged(s')
  {
    if s'.active.Some? && s'.active == Latest(s') {
      RestoredHolderRunsAgain(s, s');
    }
  }

  /** The deeds that interrupt a process on an open host: its quantum runs out of time
      while it is set up. */
  function TimeoutDeed(n: nat): Action {
    match n
    case 0 => OfExec(ExecBegin)
    case 1 => OfExec(ExecSubmit(true))
    case 2 => OfExec(ExecMark)
    case 3 => OfGuest(GuestSetupEnds(EndStopped(true)))
    case 4 => OfExec(ExecCollect)
    case 5 => OfExec(ExecRecord)
    case _ => OfExec(ExecFinish)
  }

  /** Where the new process's quantum stands after n of them. */
  function TimingOut(n: nat): Quantum {
    match n
    case 0 => Quantum(1, Starting, Unstarted)
    case 1 => Quantum(1, Submitting, Unstarted)
    case 2 => Quantum(1, InPool, Unstarted)
    case 3 => Quantum(1, Marked, Unstarted)
    case 4 => Quantum(1, Marked, Ended(EndStopped(true), Replay.BOOT))
    case 5 => Quantum(1, Recording(EndStopped(true)), Ended(EndStopped(true), Replay.BOOT))
    case _ => Quantum(1, Finishing(ProcessInterrupted, "", "stopped"), Ended(EndStopped(true), Replay.BOOT))
  }

  /** The process after n of them. */
  ghost predicate TimesOut(p: Proc, id: Identity, n: nat) {
    && p.id == id && p.mem.attempt == 1 && !p.mem.stopRequested
    && (n < 7 ==> p.mem.quantum == Some(TimingOut(n)) && IsLive(p.mem.status))
    && (n == 7 ==> p.mem.status.ProcessInterrupted?)
  }

  lemma TimesOutNext(cfg: Config, p: Proc, id: Identity, n: nat)
    requires n < 7 && TimesOut(p, id, n)
    ensures Enabled(cfg, p, TimeoutDeed(n)) && TimesOut(Apply(cfg, p, TimeoutDeed(n), false), id, n + 1)
  {
    match n {
      case 0 =>
      case 1 =>
      case 2 =>
      case 3 =>
      case 4 =>
      case 5 =>
      case _ =>
    }
  }

  ghost function TimedOut(cfg: Config, id: Identity, n: nat): (p: Proc)
    requires n <= 7
    ensures TimesOut(p, id, n)
  {
    if n == 0 then Created(id) else
      TimesOutNext(cfg, TimedOut(cfg, id, n - 1), id, n - 1);
      Apply(cfg, TimedOut(cfg, id, n - 1), TimeoutDeed(n - 1), false)
  }

  ghost predicate ReachableSession(b: Binding, s: Session) {
    exists run: Chronicle :: IsChronicle(b, run) && run.states[|run.states| - 1] == s
  }

  lemma ChronicleGoesOn(b: Binding, run: Chronicle, longer: Chronicle, d: Deed)
    requires IsChronicle(b, run) && CanDo(b, run.states[|run.states| - 1], d)
    requires longer == Chronicle(run.states + [AfterDeed(b, run.states[|run.states| - 1], d)], run.deeds + [d])
    ensures IsChronicle(b, longer)
  {
    forall i | 0 <= i < |longer.states| ensures ComesNext(b, longer, i) {
      if i < |run.states| {
        assert ComesNext(b, run, i);
      }
    }
  }

  lemma SessionGoesOn(b: Binding, s: Session, d: Deed)
    requires ReachableSession(b, s) && CanDo(b, s, d)
    ensures ReachableSession(b, AfterDeed(b, s, d))
  {
    var run: Chronicle :| IsChronicle(b, run) && run.states[|run.states| - 1] == s;
    var longer := Chronicle(run.states + [AfterDeed(b, s, d)], run.deeds + [d]);
    ChronicleGoesOn(b, run, longer, d);
    assert longer.states[|longer.states| - 1] == AfterDeed(b, s, d);
  }

  /** A session whose one process has been through n deeds of a timeout. */
  ghost predicate HoldsTimedOut(b: Binding, s: Session, id: Identity, n: nat)
    requires n <= 7
  {
    && s.order == [id.id] && s.procs == map[id.id := TimedOut(b(id), id, n)] && !s.closed
    && s.active == if n < 7 then Some(id.id) else None
  }

  lemma NewProcessSession(b: Binding, id: Identity) returns (s: Session)
    ensures ReachableSession(b, s) && HoldsTimedOut(b, s, id, 0)
  {
    var empty := Chronicle([NEW_SESSION], []);
    assert IsChronicle(b, empty) && empty.states[|empty.states| - 1] == NEW_SESSION;
    SessionGoesOn(b, NEW_SESSION, Creates(id));
    s := AfterDeed(b, NEW_SESSION, Creates(id));
  }

  lemma NextTimeoutDeed(b: Binding, before: Session, id: Identity, n: nat)
    requires n < 7 && HoldsTimedOut(b, before, id, n)
    ensures CanDo(b, before, Acts(id.id, TimeoutDeed(n)))
    ensures HoldsTimedOut(b, AfterDeed(b, before, Acts(id.id, TimeoutDeed(n))), id, n + 1)
  {
    TimesOutNext(b(id), TimedOut(b(id), id, n), id, n);
  }

  lemma {:induction false} TimeOutSession(b: Binding, id: Identity, n: nat) returns (s: Session)
    requires n <= 7
    ensures ReachableSession(b, s) && HoldsTimedOut(b, s, id, n)
  {
    if n == 0 {
      s := NewProcessSession(b, id);
    } else {
      var before := TimeOutSession(b, id, n - 1);
      NextTimeoutDeed(b, before, id, n - 1);
      SessionGoesOn(b, before, Acts(id.id, TimeoutDeed(n - 1)));
      s := AfterDeed(b, before, Acts(id.id, TimeoutDeed(n - 1)));
    }
  }

  lemma ReachableSessionIsSound(b: Binding, s: Session)
    requires ReachableSession(b, s)
    ensures SessionSound(b, s)
  {
    var run: Chronicle :| IsChronicle(b, run) && run.states[|run.states| - 1] == s;
    EverySessionIsSound(b, run, |run.states| - 1);
  }

  /** The wedge is real: a process runs out of time, the session takes another, the host
      restarts, and the session is lost. */
  lemma TimeoutThenRestartWedges(b: Binding, first: Identity, second: Identity)
    requires first.id != second.id && first.createdAt < second.createdAt
    ensures exists s: Session :: ReachableSession(b, s) && Wedged(s) && first.id in s.procs && second.id in s.procs
  {
    var s := TimeOutSession(b, first, 7);
    SessionGoesOn(b, s, Creates(second));
    var s2 := AfterDeed(b, s, Creates(second));
    ReachableSessionIsSound(b, s2);
    RebootIsAlwaysPossible(b, s2);
    SessionGoesOn(b, s2, Reboots(s2.order));
    assert LeftBehind(s2, first.id);
    RebootWedgesExactly(b, s2, s2.order);
    RebootProcs(b, s2, s2.order);
  }
}
