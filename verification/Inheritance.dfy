/** Labels pass between the runs of a session: what a completed process saw, every later
    process that reads the conversation holds too. */
module Inheritance {
  import opened Sys
  import opened Journaled
  import opened Durable
  import opened Replay
  import opened Flow
  import opened Capability
  import opened Process
  import opened ProcessInv
  import opened ProcessSteps
  import opened ProcessSafety
  import opened Session
  import opened SessionInv
  import opened SessionSafety
  import opened Provenance
  import Tape

  // ---- One process ------------------------------------------------------

  /** A completed sys.input carries the labels. */
  predicate InputAt(v: seq<Record>, k: nat, labels: set<Label>)
    requires WellFormed(v)
  {
    k < Completed(v) && CallAt(v, k).name.SysInput? ==> labels <= ResultAt(v, k).labels
  }

  ghost predicate InputsCarry(v: seq<Record>, labels: set<Label>)
    requires WellFormed(v)
  {
    forall k: nat :: InputAt(v, k, labels)
  }

  /** The view a restore would rebuild. */
  ghost function StoredView(p: Proc): seq<Record>
    requires LastStored(p.log).Some?
  {
    ViewOf(StoredJournal(p))
  }

  /** The quantum's part: an answer to sys.input is labelled already, and no handler
      answers it. */
  ghost predicate GuestInherits(v: seq<Record>, guest: GuestPc, labels: set<Label>)
    requires WellFormed(v)
  {
    guest.Running? ==>
      && (guest.handler.Some? && guest.side.act.Driving? ==> !guest.side.act.call.name.SysInput?)
      && (guest.side.act.Answered? && HasOpenIntent(v) && CallAt(v, Completed(v)).name.SysInput? ==>
            labels <= guest.side.act.result.labels)
  }

  /** Every sys.input the process completed, in memory and in the log, carries the labels. */
  ghost predicate Inherits(p: Proc, labels: set<Label>) {
    var v := ViewOf(p.mem.journal);
    && WellFormed(v) && InputsCarry(v, labels)
    && LastStored(p.log).Some? && WellFormed(StoredView(p)) && InputsCarry(StoredView(p), labels)
    && (p.mem.quantum.Some? ==> GuestInherits(v, p.mem.quantum.value.guest, labels))
  }

  /** In memory. */
  ghost predicate MemInherits(p: Proc, labels: set<Label>) {
    && WellFormed(ViewOf(p.mem.journal)) && InputsCarry(ViewOf(p.mem.journal), labels)
    && p.mem.quantum.Some? && GuestInherits(ViewOf(p.mem.journal), p.mem.quantum.value.guest, labels)
  }

  lemma PrefixCarries(v: seq<Record>, w: seq<Record>, labels: set<Label>)
    requires WellFormed(w) && w <= v && WellFormed(v) && InputsCarry(v, labels)
    ensures InputsCarry(w, labels)
  {
    forall k: nat ensures InputAt(w, k, labels) {
      assert InputAt(v, k, labels);
      if k < Completed(w) {
        assert w[2 * k] == v[2 * k] && w[2 * k + 1] == v[2 * k + 1];
      }
    }
  }

  lemma GrownCarries(v: seq<Record>, rec: Record, labels: set<Label>)
    requires WellFormed(v) && Sound(rec, |v|) && InputsCarry(v, labels)
    requires HasOpenIntent(v) && CallAt(v, Completed(v)).name.SysInput? ==> labels <= rec.result.value.labels
    ensures WellFormed(v + [rec]) && InputsCarry(v + [rec], labels)
  {
    ExtendResults(v, rec);
    var w := v + [rec];
    forall k: nat ensures InputAt(w, k, labels) {
      assert InputAt(v, k, labels);
      if k < Completed(w) {
        assert w[2 * k] == v[2 * k];
        if k < Completed(v) { assert w[2 * k + 1] == v[2 * k + 1]; } else { assert w[2 * k + 1] == rec; }
      }
    }
  }

  /** When the log holds the memory's state, a restore rebuilds the memory's view. */
  lemma SavedViewIsTheView(cfg: Config, p: Proc, closed: bool)
    requires Inv(cfg, p, closed) && Saved(p)
    ensures StoredView(p) == ViewOf(p.mem.journal)
  {
    RestoredLengthIsExact(cfg, p.mem.journal.history, Stored(p.id, p.mem), p.mem.journal.length);
  }

  /** A step that writes no record leaves the view, or a prefix of it. */
  lemma ShorterViewInherits(cfg: Config, p: Proc, p': Proc, labels: set<Label>, closed: bool)
    requires Inv(cfg, p, closed) && Inv(cfg, p', closed) && Inherits(p, labels)
    requires ViewOf(p'.mem.journal) <= ViewOf(p.mem.journal)
    requires Saved(p') || StoredView(p') == StoredView(p)
    requires p'.mem.quantum.Some? ==> GuestInherits(ViewOf(p'.mem.journal), p'.mem.quantum.value.guest, labels)
    ensures Inherits(p', labels)
  {
    ViewIsSound(cfg, p'.mem.journal);
    PrefixCarries(ViewOf(p.mem.journal), ViewOf(p'.mem.journal), labels);
    if Saved(p') {
      SavedViewIsTheView(cfg, p', closed);
    }
  }

  // ---- Its steps --------------------------------------------------------

  /** The environment hands sys.input the labels. */
  predicate HandsDown(p: Proc, a: Action, labels: set<Label>) {
    a.OfGuest? && a.guest.LayersAnswer? ==> labels <= a.guest.env.inherited
  }

  lemma ReplyInherits(cfg: Config, p: Proc, side: Side, result: SyscallResult, labels: set<Label>)
    requires DrivingNow(p, side) && WellFormed(ViewOf(p.mem.journal)) && SideInv(ViewOf(p.mem.journal), side)
    requires side.act.call.name.SysInput? ==> result.status.Yielded? || labels <= result.labels
    ensures var p' := Reply(cfg, p, side, side.act.call, result);
      GuestInherits(ViewOf(p'.mem.journal), p'.mem.quantum.value.guest, labels)
  {
    assert ViewOf(Reply(cfg, p, side, side.act.call, result).mem.journal) == ViewOf(p.mem.journal);
  }

  lemma LayersInherit(cfg: Config, p: Proc, side: Side, env: Env, labels: set<Label>)
    requires DrivingNow(p, side) && WellFormed(ViewOf(p.mem.journal)) && SideInv(ViewOf(p.mem.journal), side)
    requires labels <= env.inherited
    ensures var p' := DoLayers(cfg, p, side, env);
      p'.mem.quantum.Some? && GuestInherits(ViewOf(p'.mem.journal), p'.mem.quantum.value.guest, labels)
  {
    match Layers(cfg, p, side.act.call, env) {
      case Replies(result) => ReplyInherits(cfg, p, side, result, labels);
      case Mints(task) =>
        MintingIsYieldingOverATask(cfg, p, side, task);
        ReplyInherits(cfg, WithTask(p, side, task), side, Yield(task.id), labels);
      case Calls(handler) =>
        assert DoLayers(cfg, p, side, env).mem.journal == p.mem.journal;
    }
  }

  lemma HandlerInherits(cfg: Config, p: Proc, side: Side, below: Tape.Below, env: Env, labels: set<Label>)
    requires DrivingNow(p, side) && WellFormed(ViewOf(p.mem.journal)) && SideInv(ViewOf(p.mem.journal), side)
    requires p.mem.quantum.value.guest.handler.Some? && !side.act.call.name.SysInput?
    ensures var p' := DoHandler(cfg, p, side, p.mem.quantum.value.guest.handler.value, below, env);
      p'.mem.quantum.Some? && GuestInherits(ViewOf(p'.mem.journal), p'.mem.quantum.value.guest, labels)
  {
    var handler := p.mem.quantum.value.guest.handler.value;
    match below {
      case Fails => assert DoHandler(cfg, p, side, handler, below, env).mem.journal == p.mem.journal;
      case Answers(result) =>
        if result.status.Yielded? && !handler.viaTask {
          var task := NewTask(cfg, p, side.act.call, result.message, env);
          MintingIsYieldingOverATask(cfg, p, side, task);
          ReplyInherits(cfg, WithTask(p, side, task), side, Yield(task.id), labels);
        } else {
          ReplyInherits(cfg, p, side, result, labels);
        }
    }
  }

  /** A guest step that writes nothing. */
  lemma QuietGuestInherits(cfg: Config, p: Proc, a: GuestAction, closed: bool, labels: set<Label>)
    requires Inv(cfg, p, closed) && Inherits(p, labels) && Enabled(cfg, p, OfGuest(a))
    requires HandsDown(p, OfGuest(a), labels) && !a.GuestAsk? && !a.GuestCommit?
    ensures var p' := Apply(cfg, p, OfGuest(a), closed);
      && p'.mem.quantum.Some? && ViewOf(p'.mem.journal) == ViewOf(p.mem.journal)
      && GuestInherits(ViewOf(p'.mem.journal), p'.mem.quantum.value.guest, labels)
  {
    var q := p.mem.quantum.value;
    GuestFrame(cfg, p, a, closed);
    match a {
      case LayersAnswer(env) => LayersInherit(cfg, p, q.guest.side, env, labels);
      case HandlerReturns(below, env) => HandlerInherits(cfg, p, q.guest.side, below, env, labels);
      case GuestStray(call) => StrayCallsAreRefused(ViewOf(p.mem.journal), q.guest.side, call, q.revision);
      case _ =>
    }
  }

  lemma FreshInherits(cfg: Config, p: Proc, q: Quantum, side: Side, call: Syscall, labels: set<Label>)
    requires JournalInv(cfg, p.mem.journal) && q.revision == p.mem.journal.revision && Inherits(p, labels)
    requires SideInv(ViewOf(p.mem.journal), side) && side.act.Thinking?
    requires |side.seen| == Completed(ViewOf(p.mem.journal)) && !HasOpenIntent(ViewOf(p.mem.journal))
    requires cfg.guest(side.seen) == Some(call)
    ensures MemInherits(DoAsk(p, q, side, call), labels)
  {
    var rec := FreshIntent(p, call);
    FreshEffect(cfg, p, q, side, call);
    WriteKeepsJournal(cfg, p.mem.journal, rec);
    GrownCarries(ViewOf(p.mem.journal), rec, labels);
    assert DoAsk(p, q, side, call).mem.journal == Grown(p.mem.journal, rec);
  }

  lemma QuietAskInherits(p: Proc, q: Quantum, side: Side, call: Syscall, labels: set<Label>)
    requires Enter(ViewOf(p.mem.journal), side, call, q.revision).written == []
    requires WellFormed(ViewOf(p.mem.journal))
    requires !Enter(ViewOf(p.mem.journal), side, call, q.revision).side.act.Answered?
    ensures var p' := DoAsk(p, q, side, call);
      && ViewOf(p'.mem.journal) == ViewOf(p.mem.journal)
      && p'.mem.quantum.Some? && GuestInherits(ViewOf(p'.mem.journal), p'.mem.quantum.value.guest, labels)
  {
    QuietAsk(p, q, side, call);
  }

  lemma AskInherits(cfg: Config, p: Proc, closed: bool, labels: set<Label>)
    requires Inv(cfg, p, closed) && Inherits(p, labels) && Enabled(cfg, p, OfGuest(GuestAsk))
    ensures MemInherits(Apply(cfg, p, OfGuest(GuestAsk), closed), labels)
  {
    var q, v := p.mem.quantum.value, ViewOf(p.mem.journal);
    var side := q.guest.side;
    var call := cfg.guest(side.seen).value;
    NeverDiverges(cfg.guest, v, side, call);
    if |side.seen| == Completed(v) && !HasOpenIntent(v) {
      FreshInherits(cfg, p, q, side, call, labels);
    } else {
      QuietAskInherits(p, q, side, call, labels);
    }
  }

  lemma CommitInherits(cfg: Config, p: Proc, closed: bool, labels: set<Label>)
    requires Inv(cfg, p, closed) && Inherits(p, labels) && Enabled(cfg, p, OfGuest(GuestCommit))
    ensures MemInherits(Apply(cfg, p, OfGuest(GuestCommit), closed), labels)
  {
    assert Apply(cfg, p, OfGuest(GuestCommit), closed)
        == DoCommit(p, p.mem.quantum.value, p.mem.quantum.value.guest.side);
    CommittedInherits(cfg, p, p.mem.quantum.value, p.mem.quantum.value.guest.side, labels);
  }

  lemma CommittedInherits(cfg: Config, p: Proc, q: Quantum, side: Side, labels: set<Label>)
    requires JournalInv(cfg, p.mem.journal) && q.revision == p.mem.journal.revision && Inherits(p, labels)
    requires SideInv(ViewOf(p.mem.journal), side) && side.act.Answered?
    requires var v := ViewOf(p.mem.journal);
      && StampLabels(cfg.grants, CallAt(v, Completed(v))) <= side.act.result.labels
      && (CallAt(v, Completed(v)).name.SysInput? ==> labels <= side.act.result.labels)
    ensures MemInherits(DoCommit(p, q, side), labels)
  {
    var rec, v := CompletionOf(p, side.act.result), ViewOf(p.mem.journal);
    CommitIsNext(cfg, p, q, side);
    WriteKeepsJournal(cfg, p.mem.journal, rec);
    GrownCarries(v, rec, labels);
    CommitEffect(cfg, p, q, side);
    CommittedJournal(p, q, side, CallAt(v, Completed(v)));
  }

  lemma GuestStepInherits(cfg: Config, p: Proc, a: GuestAction, closed: bool, labels: set<Label>)
    requires Inv(cfg, p, closed) && Inherits(p, labels) && Enabled(cfg, p, OfGuest(a))
    requires HandsDown(p, OfGuest(a), labels)
    ensures Inherits(Apply(cfg, p, OfGuest(a), closed), labels)
  {
    var p' := Apply(cfg, p, OfGuest(a), closed);
    if a.GuestAsk? {
      AskInherits(cfg, p, closed, labels);
    } else if a.GuestCommit? {
      CommitInherits(cfg, p, closed, labels);
    } else {
      QuietGuestInherits(cfg, p, a, closed, labels);
    }
    StepKeeps(cfg, p, OfGuest(a), closed);
    SavedViewIsTheView(cfg, p', closed);
  }

  lemma StepInherits(cfg: Config, p: Proc, a: Action, closed: bool, labels: set<Label>)
    requires Inv(cfg, p, closed) && Inherits(p, labels) && Enabled(cfg, p, a) && HandsDown(p, a, labels)
    ensures Inherits(Apply(cfg, p, a, closed), labels)
  {
    if a.OfGuest? {
      GuestStepInherits(cfg, p, a.guest, closed, labels);
    } else {
      StepKeeps(cfg, p, a, closed);
      StepLeavesAPrefix(cfg, p, a, closed);
      StepStoresItsJournal(cfg, p, a, closed);
      ShorterViewInherits(cfg, p, Apply(cfg, p, a, closed), labels, closed);
    }
  }

  lemma RestoreInherits(cfg: Config, p: Proc, closed: bool, labels: set<Label>)
    requires Inv(cfg, p, closed) && Inherits(p, labels)
    ensures Inherits(Restored(p), labels)
  {
    var p' := Restored(p);
    RestoreIsSound(cfg, p);
    assert ViewOf(p'.mem.journal) == StoredView(p);
    SavedViewIsTheView(cfg, p', false);
  }

  lemma CreationInherits(cfg: Config, id: Identity, labels: set<Label>)
    ensures Inherits(Created(id), labels)
  {
    CreationIsSound(cfg, id);
    EmptyJournalIsSound(cfg);
    SavedViewIsTheView(cfg, Created(id), false);
  }

  // ---- The session ------------------------------------------------------

  ghost predicate PidInherits(s: Session, pid: string) {
    pid in s.procs ==>
      && Inherits(s.procs[pid], Inherited(s, pid))
      && (pid in s.handed ==> s.handed[pid] == Inherited(s, pid))
  }

  /** Every process has been handed the conversation it reads now. */
  ghost predicate Inheriting(s: Session) {
    && (forall pid :: PidInherits(s, pid))
    && s.handed.Keys <= s.procs.Keys
  }

  lemma InheritedStays(b: Binding, s: Session, d: Deed, pid: string)
    requires SessionSound(b, s) && CanDo(b, s, d) && pid in s.procs
    ensures pid in AfterDeed(b, s, d).procs && Inherited(AfterDeed(b, s, d), pid) == Inherited(s, pid)
  {
    ProcessesStay(b, s, d, pid);
    HistoryStays(b, s, d, pid);
  }

  lemma ActInherits(b: Binding, s: Session, pid: string, a: Action)
    requires SessionSound(b, s) && Inheriting(s) && CanDo(b, s, Acts(pid, a))
    ensures Inherits(Apply(b(s.procs[pid].id), s.procs[pid], a, s.closed), Inherited(s, pid))
  {
    assert PidInherits(s, pid);
    LivesAreSound(b, s, pid);
    StepInherits(b(s.procs[pid].id), s.procs[pid], a, s.closed, Inherited(s, pid));
  }

  lemma RebootInherits(b: Binding, s: Session, order: seq<string>, pid: string)
    requires SessionSound(b, s) && Inheriting(s) && CanDo(b, s, Reboots(order)) && pid in s.procs
    ensures pid in AfterReboot(s, order).procs && Inherits(AfterReboot(s, order).procs[pid], Inherited(s, pid))
  {
    assert PidInherits(s, pid);
    LivesAreSound(b, s, pid);
    RebootProcs(b, s, order);
    RestoreInherits(b(s.procs[pid].id), s.procs[pid], s.closed, Inherited(s, pid));
  }

  lemma PidKeepsInheriting(b: Binding, s: Session, d: Deed, pid: string)
    requires SessionSound(b, s) && Inheriting(s) && CanDo(b, s, d)
    ensures PidInherits(AfterDeed(b, s, d), pid)
  {
    if pid in s.procs {
      OldProcessInherits(b, s, d, pid);
    } else if pid in AfterDeed(b, s, d).procs {
      NewcomerInherits(b, s, d, pid);
    }
  }

  lemma OldProcessInherits(b: Binding, s: Session, d: Deed, pid: string)
    requires SessionSound(b, s) && Inheriting(s) && CanDo(b, s, d) && pid in s.procs
    ensures PidInherits(AfterDeed(b, s, d), pid)
  {
    assert PidInherits(s, pid);
    InheritedStays(b, s, d, pid);
    OldProcessStillInherits(b, s, d, pid);
    HandedStays(b, s, d, pid);
  }

  lemma OldProcessStillInherits(b: Binding, s: Session, d: Deed, pid: string)
    requires SessionSound(b, s) && Inheriting(s) && CanDo(b, s, d) && pid in s.procs
    ensures pid in AfterDeed(b, s, d).procs && Inherits(AfterDeed(b, s, d).procs[pid], Inherited(s, pid))
  {
    assert PidInherits(s, pid);
    match d {
      case Acts(q, a) => if q == pid { ActInherits(b, s, pid, a); }
      case Reboots(order) => RebootInherits(b, s, order, pid);
      case _ =>
    }
  }

  lemma HandedStays(b: Binding, s: Session, d: Deed, pid: string)
    requires CanDo(b, s, d) && pid in s.procs
    ensures var handed := AfterDeed(b, s, d).handed;
      pid in handed ==> (pid in s.handed && handed[pid] == s.handed[pid]) || handed[pid] == Inherited(s, pid)
  {
  }

  lemma OnlyCreationAdds(b: Binding, s: Session, d: Deed)
    requires SessionSound(b, s) && CanDo(b, s, d)
    ensures AfterDeed(b, s, d).procs.Keys == s.procs.Keys + if d.Creates? then {d.id.id} else {}
  {
    if d.Reboots? {
      RebootProcs(b, s, d.order);
    }
  }

  lemma NewcomerInherits(b: Binding, s: Session, d: Deed, pid: string)
    requires SessionSound(b, s) && Inheriting(s) && CanDo(b, s, d)
    requires pid !in s.procs && pid in AfterDeed(b, s, d).procs
    ensures PidInherits(AfterDeed(b, s, d), pid)
  {
    OnlyCreationAdds(b, s, d);
    CreationInherits(b(d.id), d.id, Inherited(AfterDeed(b, s, d), pid));
  }

  lemma InheritingGoesOn(b: Binding, s: Session, d: Deed)
    requires SessionSound(b, s) && Inheriting(s) && CanDo(b, s, d)
    ensures Inheriting(AfterDeed(b, s, d))
  {
    forall pid ensures PidInherits(AfterDeed(b, s, d), pid) {
      PidKeepsInheriting(b, s, d, pid);
    }
    HandedToProcesses(b, s, d);
  }

  lemma {:induction false} EverySessionInherits(b: Binding, run: Chronicle, i: nat)
    requires IsChronicle(b, run) && i < |run.states|
    ensures Inheriting(run.states[i])
    decreases i, 1
  {
    if i == 0 {
      FirstSessionInherits(b, run);
    } else {
      LaterSessionInherits(b, run, i);
    }
  }

  lemma FirstSessionInherits(b: Binding, run: Chronicle)
    requires IsChronicle(b, run)
    ensures Inheriting(run.states[0])
  {
    FirstIsNew(b, run);
    NewSessionInherits();
  }

  lemma {:induction false} LaterSessionInherits(b: Binding, run: Chronicle, i: nat)
    requires IsChronicle(b, run) && 0 < i < |run.states|
    ensures Inheriting(run.states[i])
    decreases i, 0
  {
    var before := i - 1;
    EverySessionInherits(b, run, before);
    NextSessionInherits(b, run, before);
  }

  lemma NewSessionInherits()
    ensures Inheriting(NEW_SESSION)
  {
    forall pid ensures PidInherits(NEW_SESSION, pid) {}
  }

  lemma NextSessionInherits(b: Binding, run: Chronicle, i: nat)
    requires IsChronicle(b, run) && i < |run.deeds| && Inheriting(run.states[i])
    ensures Inheriting(run.states[i + 1])
  {
    EverySessionIsSound(b, run, i);
    NextDeed(b, run, i);
    InheritingGoesOn(b, run.states[i], run.deeds[i]);
  }

  lemma HandedToProcesses(b: Binding, s: Session, d: Deed)
    requires SessionSound(b, s) && CanDo(b, s, d) && s.handed.Keys <= s.procs.Keys
    ensures AfterDeed(b, s, d).handed.Keys <= AfterDeed(b, s, d).procs.Keys
  {
    OnlyCreationAdds(b, s, d);
  }

  // ---- Labels pass between runs -----------------------------------------

  lemma {:induction false} TurnsCarryLabels(procs: map<string, Proc>, ids: seq<string>, q: string)
    requires q in ids && q in procs && procs[q].mem.status.ProcessCompleted?
    ensures procs[q].mem.labels <= HistoryLabels(HistoryOf(procs, ids))
  {
    var last, front := ids[|ids| - 1], ids[..|ids| - 1];
    var history := HistoryOf(procs, ids);
    if last == q {
      assert history[|history| - 1].labels == procs[q].mem.labels;
    } else {
      assert q in front;
      TurnsCarryLabels(procs, front, q);
      if last in procs && procs[last].mem.status.ProcessCompleted? {
        assert history[..|history| - 1] == HistoryOf(procs, front);
      }
    }
  }

  /** A process read the conversation: it shares history, and a sys.input of its current
      view completed. */
  ghost predicate ReadTheConversation(s: Session, pid: string, k: nat) {
    && pid in s.procs && s.procs[pid].id.manifest.sharesHistory
    && WellFormed(ViewOf(s.procs[pid].mem.journal))
    && k < Completed(ViewOf(s.procs[pid].mem.journal))
    && CallAt(ViewOf(s.procs[pid].mem.journal), k).name.SysInput?
  }

  /** Some call of the process's current view carried the label. */
  ghost predicate Holds(s: Session, pid: string, l: Label) {
    && pid in s.procs && WellFormed(ViewOf(s.procs[pid].mem.journal))
    && exists k: nat :: Carried(ViewOf(s.procs[pid].mem.journal), k, l)
  }

  /** No label is lost between runs: whatever label a completed process's journal holds,
      a later process that shares history and has read its input holds on that input, in
      every reachable session, restarted any number of times. */
  lemma LabelsPassBetweenRuns(b: Binding, run: Chronicle, i: nat, q: string, pid: string, k: nat, l: Label)
    requires IsChronicle(b, run) && i < |run.states|
    requires var s := run.states[i];
      && ReadTheConversation(s, pid, k) && q in Earlier(s.order, pid)
      && Holds(s, q, l) && s.procs[q].mem.status.ProcessCompleted?
    ensures Carried(ViewOf(run.states[i].procs[pid].mem.journal), k, l)
  {
    var s := run.states[i];
    EverySessionIsSound(b, run, i);
    EverySessionInherits(b, run, i);
    HeldLabelsAreKept(b, s, q, l);
    TurnsCarryLabels(s.procs, Earlier(s.order, pid), q);
    assert PidInherits(s, pid);
    ReadingCarries(s.procs[pid], Inherited(s, pid), k, l);
  }

  lemma HeldLabelsAreKept(b: Binding, s: Session, q: string, l: Label)
    requires Living(b, s) && Holds(s, q, l) && s.procs[q].mem.status.ProcessCompleted?
    ensures l in s.procs[q].mem.labels
  {
    assert LivesOn(b, s, q);
    var j: nat :| Carried(ViewOf(s.procs[q].mem.journal), j, l);
    CompletedRunsKeepTheirLabels(b(s.procs[q].id), State(s.procs[q], s.closed), j, l);
  }

  lemma ReadingCarries(p: Proc, labels: set<Label>, k: nat, l: Label)
    requires Inherits(p, labels) && l in labels
    requires k < Completed(ViewOf(p.mem.journal)) && CallAt(ViewOf(p.mem.journal), k).name.SysInput?
    ensures Carried(ViewOf(p.mem.journal), k, l)
  {
    assert InputAt(ViewOf(p.mem.journal), k, labels);
  }

  /** A chain of runs, each completed before the next one read the conversation. */
  ghost predicate Chain(s: Session, pids: seq<string>) {
    forall i :: 0 < i < |pids| ==> Linked(s, pids[i - 1], pids[i])
  }

  ghost predicate Linked(s: Session, q: string, pid: string) {
    && q in s.procs && s.procs[q].mem.status.ProcessCompleted?
    && q in Earlier(s.order, pid) && exists k: nat :: ReadTheConversation(s, pid, k)
  }

  /** And transitively: a label passes along any chain of runs. */
  lemma {:induction false} LabelsPassAlongChains(b: Binding, run: Chronicle, i: nat, pids: seq<string>, l: Label)
    requires IsChronicle(b, run) && i < |run.states|
    requires pids != [] && Chain(run.states[i], pids) && Holds(run.states[i], pids[0], l)
    ensures Holds(run.states[i], pids[|pids| - 1], l)
  {
    var s, n := run.states[i], |pids| - 1;
    if n > 0 {
      var front := pids[..n];
      forall j | 0 < j < |front| ensures Linked(s, front[j - 1], front[j]) {
        assert Linked(s, pids[j - 1], pids[j]);
      }
      LabelsPassAlongChains(b, run, i, front, l);
      assert Linked(s, pids[n - 1], pids[n]);
      var k: nat :| ReadTheConversation(s, pids[n], k);
      LabelsPassBetweenRuns(b, run, i, pids[n - 1], pids[n], k, l);
    }
  }
}
