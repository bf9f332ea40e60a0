/** In every reachable state a process's flat history is a line of whole sequences, one per
    revision. So what the refinement and the entries promise holds of it. */
module ProcessLineage {
  import opened Sys
  import opened Journaled
  import opened Durable
  import opened History
  import opened Lineage
  import opened Process
  import opened ProcessInv
  import opened ProcessSteps
  import opened ProcessSafety
  import opened Capability
  import opened Replay

  /** The journal is the last of these sequences, and its history all of them. */
  ghost predicate LineOf(j: Journal, l: seq<Branch>) {
    Agrees(j, l) && SoundLine(l)
  }

  ghost predicate HasLine(j: Journal) {
    exists l: seq<Branch> :: LineOf(j, l)
  }

  lemma EmptyHasLine()
    ensures HasLine(EMPTY)
  {
    EmptyAgrees();
    assert LineOf(EMPTY, [Branch(0, [])]);
  }

  lemma AppendHasLine(j: Journal, l: seq<Branch>, rec: Record)
    requires LineOf(j, l) && Sound(rec, j.length)
    ensures LineOf(Step(j, AppendRecord(rec)), BranchStep(l, AppendRecord(rec)))
  {
    AppendAgrees(j, l, rec);
    var l' := BranchStep(l, AppendRecord(rec));
    var n := |l| - 1;
    assert l'[n].view == l[n].view + [rec.(revision := |l|)];
    forall r | 0 <= r < |l'| ensures WellFormed(l'[r].view) && l'[r].forkOffset % 2 == 0 {
      assert WellFormed(l[r].view);
    }
  }

  lemma ForkHasLine(j: Journal, l: seq<Branch>, offset: nat)
    requires LineOf(j, l) && offset <= j.length && offset % 2 == 0
    ensures LineOf(Step(j, ForkAt(offset)), BranchStep(l, ForkAt(offset)))
  {
    ForkAgrees(j, l, offset);
    var l' := BranchStep(l, ForkAt(offset));
    assert WellFormed(l[|l| - 1].view);
    forall r | 0 <= r < |l'| ensures WellFormed(l'[r].view) && l'[r].forkOffset % 2 == 0 {
      if r < |l| { assert l'[r] == l[r]; }
    }
  }

  // ---- Steps ------------------------------------------------------------

  /** A step keeps the journal, appends one sound record, or forks at a whole call. */
  ghost predicate StepsTheJournal(j: Journal, j': Journal) {
    || j' == j
    || (exists rec: Record :: Sound(rec, j.length) && j' == Step(j, AppendRecord(rec)))
    || (exists offset: nat :: offset <= j.length && offset % 2 == 0 && j' == Step(j, ForkAt(offset)))
  }

  lemma StepHasLine(j: Journal, j': Journal)
    requires HasLine(j) && StepsTheJournal(j, j')
    ensures HasLine(j')
  {
    var l: seq<Branch> :| LineOf(j, l);
    if j' != j {
      if rec: Record :| Sound(rec, j.length) && j' == Step(j, AppendRecord(rec)) {
        AppendHasLine(j, l, rec);
      } else {
        var offset: nat :| offset <= j.length && offset % 2 == 0 && j' == Step(j, ForkAt(offset));
        ForkHasLine(j, l, offset);
      }
    }
  }

  lemma AskSteps(cfg: Config, p: Proc, closed: bool)
    requires Inv(cfg, p, closed) && Enabled(cfg, p, OfGuest(GuestAsk))
    ensures StepsTheJournal(p.mem.journal, Apply(cfg, p, OfGuest(GuestAsk), closed).mem.journal)
  {
    var q, v := p.mem.quantum.value, ViewOf(p.mem.journal);
    var side := q.guest.side;
    var call := cfg.guest(side.seen).value;
    NeverDiverges(cfg.guest, v, side, call);
    AskIsDoAsk(cfg, p, closed);
    if |side.seen| == Completed(v) && !HasOpenIntent(v) {
      FreshEffect(cfg, p, q, side, call);
      NextSteps(cfg, p.mem.journal, FreshIntent(p, call));
    } else {
      QuietAsk(p, q, side, call);
    }
  }

  lemma NextSteps(cfg: Config, j: Journal, rec: Record)
    requires IsNext(cfg, j, rec)
    ensures StepsTheJournal(j, Grown(j, rec))
  {
    assert rec.(revision := j.revision) == rec;
    assert Grown(j, rec) == Step(j, AppendRecord(rec));
  }

  lemma CommitSteps(cfg: Config, p: Proc, closed: bool)
    requires Inv(cfg, p, closed) && Enabled(cfg, p, OfGuest(GuestCommit))
    ensures StepsTheJournal(p.mem.journal, Apply(cfg, p, OfGuest(GuestCommit), closed).mem.journal)
  {
    var q, v := p.mem.quantum.value, ViewOf(p.mem.journal);
    CommittedSteps(cfg, p, q, q.guest.side, CallAt(v, Completed(v)));
    CommitEffect(cfg, p, q, q.guest.side);
    assert Apply(cfg, p, OfGuest(GuestCommit), closed) == DoCommit(p, q, q.guest.side);
  }

  lemma CommittedSteps(cfg: Config, p: Proc, q: Quantum, side: Side, call: Syscall)
    requires JournalInv(cfg, p.mem.journal) && q.revision == p.mem.journal.revision
    requires SideInv(ViewOf(p.mem.journal), side) && side.act.Answered?
    requires var v := ViewOf(p.mem.journal); StampLabels(cfg.grants, CallAt(v, Completed(v))) <= side.act.result.labels
    ensures StepsTheJournal(p.mem.journal, CommittedProc(p, q, side, call).mem.journal)
  {
    CommitIsNext(cfg, p, q, side);
    NextSteps(cfg, p.mem.journal, CompletionOf(p, side.act.result));
    CommittedJournal(p, q, side, call);
  }

  lemma GuestSteps(cfg: Config, p: Proc, a: GuestAction, closed: bool)
    requires Inv(cfg, p, closed) && Enabled(cfg, p, OfGuest(a))
    ensures StepsTheJournal(p.mem.journal, Apply(cfg, p, OfGuest(a), closed).mem.journal)
  {
    match a {
      case GuestAsk => AskSteps(cfg, p, closed);
      case GuestCommit => CommitSteps(cfg, p, closed);
      case GuestStray(call) =>
        var q := p.mem.quantum.value;
        StrayCallsAreRefused(ViewOf(p.mem.journal), q.guest.side, call, q.revision);
        QuietAsk(p, q, q.guest.side, call);
      case _ => GuestFrame(cfg, p, a, closed);
    }
  }

  lemma SectionSteps(cfg: Config, p: Proc, closed: bool)
    requires MemInv(cfg, p)
    ensures StepsTheJournal(p.mem.journal, RetryAbortedSection(p, closed).mem.journal)
  {
    if OpenSection(ViewOf(p.mem.journal)).Some? && p.mem.abortRetries < MAX_ABORT_RETRIES {
      var offset := OpenSection(ViewOf(p.mem.journal)).value;
      OpenSectionFits(cfg, p);
      assert RetryAbortedSection(p, closed).mem.journal == Step(p.mem.journal, ForkAt(offset));
    }
  }

  lemma RetrySteps(cfg: Config, p: Proc, restart: bool, closed: bool)
    requires MemInv(cfg, p)
    ensures StepsTheJournal(p.mem.journal, DoRetry(p, restart, closed).mem.journal)
  {
    var open := OpenSection(ViewOf(p.mem.journal));
    if restart {
      assert DoRetry(p, restart, closed).mem.journal == Step(p.mem.journal, ForkAt(0));
    } else if !p.mem.status.ProcessWaiting? && open.Some? {
      OpenSectionFits(cfg, p);
      assert DoRetry(p, restart, closed).mem.journal == Step(p.mem.journal, ForkAt(open.value));
    }
  }

  lemma RecordSteps(cfg: Config, p: Proc, q: Quantum, closed: bool)
    requires MemInv(cfg, p) && p.mem.quantum == Some(q) && q.exec.Recording?
    ensures StepsTheJournal(p.mem.journal, DoRecord(p, q, q.exec.ending, closed).mem.journal)
  {
    if q.exec.ending.EndCompleted? && GuestAborted(ViewOf(p.mem.journal)) {
      SectionSteps(cfg, p, closed);
      RecordOfAbort(p, q, closed);
    } else {
      RecordOtherwise(p, q, closed);
    }
  }

  lemma ExecSteps(cfg: Config, p: Proc, e: ExecAction, closed: bool)
    requires MemInv(cfg, p) && Enabled(cfg, p, OfExec(e))
    ensures StepsTheJournal(p.mem.journal, Apply(cfg, p, OfExec(e), closed).mem.journal)
  {
    if e.ExecRecord? {
      RecordSteps(cfg, p, p.mem.quantum.value, closed);
    } else {
      assert Apply(cfg, p, OfExec(e), closed).mem.journal == p.mem.journal;
    }
  }

  lemma ActionSteps(cfg: Config, p: Proc, a: Action, closed: bool)
    requires Inv(cfg, p, closed) && Enabled(cfg, p, a)
    ensures StepsTheJournal(p.mem.journal, Apply(cfg, p, a, closed).mem.journal)
  {
    match a {
      case OfExec(e) => ExecSteps(cfg, p, e, closed);
      case OfGuest(ga) => GuestSteps(cfg, p, ga, closed);
      case ApiStop => assert DoStop(p).mem.journal == p.mem.journal;
      case ApiRetry(restart) => RetrySteps(cfg, p, restart, closed);
      case OfTask(op) => assert DoTask(p, op).mem.journal == p.mem.journal;
    }
  }

  // ---- Runs -------------------------------------------------------------

  ghost predicate Lined(p: Proc) {
    HasLine(p.mem.journal) && LastStored(p.log).Some? && HasLine(StoredJournal(p))
  }

  lemma ActionKeepsLines(cfg: Config, p: Proc, a: Action, closed: bool)
    requires Inv(cfg, p, closed) && Enabled(cfg, p, a) && Lined(p)
    ensures Lined(Apply(cfg, p, a, closed))
  {
    var p' := Apply(cfg, p, a, closed);
    ActionSteps(cfg, p, a, closed);
    StepHasLine(p.mem.journal, p'.mem.journal);
    StepKeeps(cfg, p, a, closed);
    if a.OfGuest? {
      GuestFrame(cfg, p, a.guest, closed);
      SavedJournal(cfg, p', closed);
    } else {
      OtherKeepsLines(cfg, p, a, closed);
    }
  }

  lemma OtherKeepsLines(cfg: Config, p: Proc, a: Action, closed: bool)
    requires Inv(cfg, p, closed) && Enabled(cfg, p, a) && !a.OfGuest? && Lined(p)
    requires Inv(cfg, Apply(cfg, p, a, closed), closed) && HasLine(Apply(cfg, p, a, closed).mem.journal)
    ensures Lined(Apply(cfg, p, a, closed))
  {
    var p' := Apply(cfg, p, a, closed);
    StepStoresItsJournal(cfg, p, a, closed);
    if Saved(p') {
      SavedJournal(cfg, p', closed);
    }
  }

  lemma RestoreKeepsLines(cfg: Config, p: Proc, closed: bool)
    requires Inv(cfg, p, closed) && Lined(p)
    ensures Lined(Restored(p))
  {
    RestoreIsSound(cfg, p);
    assert Restored(p).mem.journal == StoredJournal(p);
    SavedJournal(cfg, Restored(p), false);
  }

  lemma CreationIsLined(cfg: Config, id: Identity)
    ensures Lined(Created(id))
  {
    EmptyHasLine();
    CreationIsSound(cfg, id);
    SavedJournal(cfg, Created(id), false);
  }

  lemma HappeningKeepsLines(cfg: Config, s: State, h: Happening)
    requires Inv(cfg, s.p, s.closed) && CanHappen(cfg, s, h) && Lined(s.p)
    ensures Lined(Then(cfg, s, h).p)
  {
    match h {
      case Does(a) => ActionKeepsLines(cfg, s.p, a, s.closed);
      case Closes =>
      case Crashes => RestoreKeepsLines(cfg, s.p, s.closed);
    }
  }

  lemma NextIsLined(cfg: Config, id: Identity, life: Life, i: nat)
    requires IsLife(cfg, id, life) && i < |life.happenings| && Lined(life.states[i].p)
    ensures Lined(life.states[i + 1].p)
  {
    EveryStateIsSound(cfg, id, life, i);
    NextHappens(cfg, id, life, i);
    HappeningKeepsLines(cfg, life.states[i], life.happenings[i]);
  }

  lemma {:induction false} LivesAreLined(cfg: Config, id: Identity, life: Life, i: nat)
    requires IsLife(cfg, id, life) && i < |life.states|
    ensures Lined(life.states[i].p)
  {
    if i == 0 {
      FirstIsTheCreation(cfg, id, life);
      CreationIsLined(cfg, id);
    } else {
      LivesAreLined(cfg, id, life, i - 1);
      NextIsLined(cfg, id, life, i - 1);
    }
  }

  /** In every reachable state the flat history is an efficient form of one whole sequence
      per revision: it serves each exactly, the last of them is the current view, and its
      entries are exactly the calls the revisions wrote, each with the completion its own
      revision wrote. */
  lemma ReachableHistoriesAreLines(cfg: Config, s: State) returns (l: seq<Branch>)
    requires Reachable(cfg, s)
    ensures var j := s.p.mem.journal;
      && LineOf(j, l) && ServesBranches(j.history, l)
      && l[|l| - 1].view == ViewOf(j)
      && Ordered(j.history, j.revision) && KindsAlternate(j.history)
      && (forall e :: IsEntry(j.history, e) <==> e.revision > 0 && IsOwnCall(l, e, e.revision - 1))
  {
    var id: Identity, life: Life, i: nat :| PassesThrough(cfg, id, life, i, s);
    LivesAreLined(cfg, id, life, i);
    var j := s.p.mem.journal;
    l :| LineOf(j, l);
    RefinementServes(j.history, l);
    SoundLineIsKept(j.history, l);
    forall e ensures IsEntry(j.history, e) <==> e.revision > 0 && IsOwnCall(l, e, e.revision - 1) {
      EntriesConserveTheHistory(j.history, l, e);
    }
    ReachableIsSound(cfg, s);
    LastIsTheView(cfg, j, l);
  }

  lemma LastIsTheView(cfg: Config, j: Journal, l: seq<Branch>)
    requires JournalInv(cfg, j) && LineOf(j, l) && ServesBranches(j.history, l)
    ensures l[|l| - 1].view == ViewOf(j)
  {
    ViewIsSound(cfg, j);
    var last := l[|l| - 1].view;
    forall p | 0 <= p < j.length ensures last[p] == ViewOf(j)[p] {
      assert GetAt(j.history, p, |l| - 1 + 1) == Some(last[p]);
    }
  }
}
