/** Where a run's data came from: what the taint holds when a call is made, and what it
    holds too much of. */
module Provenance {
  import opened Sys
  import opened Journaled
  import opened Durable
  import opened History
  import opened Lineage
  import opened Replay
  import opened Flow
  import opened Capability
  import opened Process
  import opened ProcessInv
  import opened ProcessSteps
  import opened ProcessSafety
  import Tasks
  import Tape

  // ---- Taint ------------------------------------------------------------

  /** The guest's next call is past everything recorded, and none is open. */
  predicate AsksFresh(cfg: Config, p: Proc) {
    && Enabled(cfg, p, OfGuest(GuestAsk))
    && TapeNext(ViewOf(p.mem.journal), p.mem.quantum.value.guest.side.cursor,
         cfg.guest(p.mem.quantum.value.guest.side.seen).value).Fresh?
  }

  lemma FreshAskKeepsTaint(cfg: Config, p: Proc, closed: bool)
    requires AsksFresh(cfg, p)
    ensures RunTaint(Apply(cfg, p, OfGuest(GuestAsk), closed).mem) == RunTaint(p.mem)
  {
  }

  lemma FreshIntentSeesTheFold(cfg: Config, s: State)
    requires Reachable(cfg, s) && AsksFresh(cfg, s.p)
    ensures WellFormed(ViewOf(s.p.mem.journal))
    ensures RunTaint(Apply(cfg, s.p, OfGuest(GuestAsk), s.closed).mem)
         == FoldAll(ViewOf(s.p.mem.journal), s.p.mem.yielded, Completed(ViewOf(s.p.mem.journal)))
  {
    ReachableIsSound(cfg, s);
    var p := s.p;
    var v, side := ViewOf(p.mem.journal), p.mem.quantum.value.guest.side;
    Replay.NeverDiverges(cfg.guest, v, side, cfg.guest(side.seen).value);
    var n: nat :| TaintAt(v, p.mem.yielded, RunTaint(p.mem), SeenCount(p.mem), n);
    FreshAskKeepsTaint(cfg, p, s.closed);
  }

  /** When a fresh intent is written, the taint handed down is exactly the fold of the
      view's calls: it holds a label if and only if some call showed it, and under the label
      the calls that showed it, each once, in the order they first did. It does not matter
      whether the run went straight through or was crashed, parked, driven again or forked
      in between. */
  lemma FreshIntentHandsDownTheFold(cfg: Config, s: State, l: Label)
    requires Reachable(cfg, s) && AsksFresh(cfg, s.p)
    ensures WellFormed(ViewOf(s.p.mem.journal))
    ensures var v, y := ViewOf(s.p.mem.journal), s.p.mem.yielded;
      var taint := RunTaint(Apply(cfg, s.p, OfGuest(GuestAsk), s.closed).mem);
      && taint == FoldAll(v, y, Completed(v))
      && (l in taint <==> exists j: nat :: Showed(v, y, j, l))
      && InOrderShown(v, y, Completed(v), l, SourcesOf(taint, l))
  {
    FreshIntentSeesTheFold(cfg, s);
    var v, y := ViewOf(s.p.mem.journal), s.p.mem.yielded;
    FoldIsWhatCallsShowed(v, y, Completed(v), l, SourceOf(Syscall(SysLog, Undecodable(""))));
    SourcesAreInOrder(v, y, Completed(v), l);
  }

  /** Every yield so far carried no label its call's completion did not carry. */
  ghost predicate QuietYields(v: seq<Record>, y: Yields)
    requires WellFormed(v)
  {
    forall k: nat, l ::
      k < Completed(v) && !IsMarker(CallAt(v, k).name) && l in YieldsOf(y, k) ==> l in ResultAt(v, k).labels
  }

  /** Unless a handler put labels of its own on a yield, that is the fold of the completed
      calls' labels, source lists and their order included. */
  lemma QuietRunsHandDownTheCallsLabels(cfg: Config, s: State)
    requires Reachable(cfg, s) && AsksFresh(cfg, s.p)
    requires WellFormed(ViewOf(s.p.mem.journal)) && QuietYields(ViewOf(s.p.mem.journal), s.p.mem.yielded)
    ensures RunTaint(Apply(cfg, s.p, OfGuest(GuestAsk), s.closed).mem)
         == FoldCalls(ViewOf(s.p.mem.journal), Completed(ViewOf(s.p.mem.journal)))
  {
    FreshIntentSeesTheFold(cfg, s);
    var v := ViewOf(s.p.mem.journal);
    QuietYieldsLeaveNoTrace(v, s.p.mem.yielded, Completed(v));
  }

  /** A yield of call k showed the label. */
  predicate YieldShowed(v: seq<Record>, y: Yields, k: nat, l: Label)
    requires WellFormed(v)
  {
    k < Completed(v) && !IsMarker(CallAt(v, k).name) && l in YieldsOf(y, k)
  }

  /** Nothing that a completed call carried is missing from what is handed down. A label is
      there that no completed call carried, if and only if some yield showed it; and a label
      is there under a call that no completed call of that name and text carried it under, if
      and only if a yield of such a call showed it. */
  lemma ExtraLabelsComeFromYieldsExactly(cfg: Config, s: State, l: Label, src: Source)
    requires Reachable(cfg, s) && AsksFresh(cfg, s.p)
    ensures WellFormed(ViewOf(s.p.mem.journal))
    ensures var v, y := ViewOf(s.p.mem.journal), s.p.mem.yielded;
      var calls := FoldCalls(v, Completed(v));
      var taint := RunTaint(Apply(cfg, s.p, OfGuest(GuestAsk), s.closed).mem);
      && (l in calls ==> l in taint)
      && (src in SourcesOf(calls, l) ==> src in SourcesOf(taint, l))
      && (l in taint && l !in calls <==>
           (exists k: nat :: YieldShowed(v, y, k, l)) && (forall j: nat :: !Carried(v, j, l)))
      && (src in SourcesOf(taint, l) && src !in SourcesOf(calls, l) <==>
           && (exists k: nat :: YieldShowed(v, y, k, l) && SourceOf(CallAt(v, k)) == src)
           && (forall j: nat :: Carried(v, j, l) ==> SourceOf(CallAt(v, j)) != src))
  {
    FreshIntentSeesTheFold(cfg, s);
    ShownOrCarried(ViewOf(s.p.mem.journal), s.p.mem.yielded, l, src);
  }

  lemma ShownOrCarried(v: seq<Record>, y: Yields, l: Label, src: Source)
    requires WellFormed(v)
    ensures l in FoldCalls(v, Completed(v)) <==> exists j: nat :: Carried(v, j, l)
    ensures src in SourcesOf(FoldCalls(v, Completed(v)), l) <==>
      exists j: nat :: Carried(v, j, l) && SourceOf(CallAt(v, j)) == src
    ensures l in FoldAll(v, y, Completed(v)) <==>
      (exists j: nat :: Carried(v, j, l)) || (exists k: nat :: YieldShowed(v, y, k, l))
    ensures src in SourcesOf(FoldAll(v, y, Completed(v)), l) <==>
      || (exists j: nat :: Carried(v, j, l) && SourceOf(CallAt(v, j)) == src)
      || (exists k: nat :: YieldShowed(v, y, k, l) && SourceOf(CallAt(v, k)) == src)
  {
    FoldIsWhatCallsShowed(v, y, Completed(v), l, src);
    FoldIsWhatCallsCarried(v, Completed(v), l, src);
    assert forall j: nat :: Showed(v, y, j, l) <==> Carried(v, j, l) || YieldShowed(v, y, j, l);
  }

  // ---- Where extra labels come from -------------------------------------

  /** A handler that an approved task let run yields again, on the k-th call, with a label
      of its own: one the call is not stamped with. */
  predicate YieldsItsOwn(cfg: Config, s: State, h: Happening, k: nat, l: Label) {
    && h.Does? && h.action.OfGuest? && h.action.guest.HandlerReturns? && h.action.guest.below.Answers?
    && h.action.guest.below.result.status.Yielded? && l in h.action.guest.below.result.labels
    && s.p.mem.quantum.Some? && s.p.mem.quantum.value.guest.Running? && Tail(s.p) / 2 == k
    && s.p.mem.quantum.value.guest.handler.Some? && s.p.mem.quantum.value.guest.handler.value.viaTask
    && l !in StampLabels(cfg.grants, s.p.mem.quantum.value.guest.handler.value.call)
  }

  /** The k-th call of the view is stamped with the label. */
  ghost predicate StampedWith(cfg: Config, j: Journal, k: nat, l: Label) {
    WellFormed(ViewOf(j)) && 2 * k < |ViewOf(j)| && l in StampLabels(cfg.grants, CallAt(ViewOf(j), k))
  }

  /** What the yields of a call carry after a step was there before it, or is stamped. */
  ghost predicate YieldsStay(cfg: Config, m: Mem, m': Mem, k: nat, l: Label) {
    l in YieldsOf(m'.yielded, k) ==>
      || StampedWith(cfg, m'.journal, k, l)
      || (l in YieldsOf(m.yielded, k) && (StampedWith(cfg, m.journal, k, l) ==> StampedWith(cfg, m'.journal, k, l)))
  }

  lemma ViewGrowthStaysStamped(cfg: Config, p: Proc, p': Proc, rec: Record, k: nat, l: Label)
    requires WellFormed(ViewOf(p.mem.journal)) && Sound(rec, |ViewOf(p.mem.journal)|)
    requires ViewOf(p'.mem.journal) == ViewOf(p.mem.journal) + [rec] && p'.mem.yielded == p.mem.yielded
    ensures YieldsStay(cfg, p.mem, p'.mem, k, l)
  {
    ExtendResults(ViewOf(p.mem.journal), rec);
    if StampedWith(cfg, p.mem.journal, k, l) {
      assert ViewOf(p'.mem.journal)[2 * k] == ViewOf(p.mem.journal)[2 * k];
    }
  }

  lemma AskKeepsYields(p: Proc, q: Quantum, side: Side, call: Syscall)
    ensures DoAsk(p, q, side, call).mem.yielded == p.mem.yielded
  {
  }

  lemma FreshGrowsTheView(cfg: Config, p: Proc, q: Quantum, side: Side, call: Syscall)
    requires JournalInv(cfg, p.mem.journal) && q.revision == p.mem.journal.revision
    requires SideInv(ViewOf(p.mem.journal), side) && side.act.Thinking?
    requires |side.seen| == Completed(ViewOf(p.mem.journal)) && !HasOpenIntent(ViewOf(p.mem.journal))
    requires cfg.guest(side.seen) == Some(call)
    ensures Sound(FreshIntent(p, call), |ViewOf(p.mem.journal)|)
    ensures ViewOf(DoAsk(p, q, side, call).mem.journal) == ViewOf(p.mem.journal) + [FreshIntent(p, call)]
  {
    FreshEffect(cfg, p, q, side, call);
    WriteKeepsJournal(cfg, p.mem.journal, FreshIntent(p, call));
    assert DoAsk(p, q, side, call).mem.journal == Grown(p.mem.journal, FreshIntent(p, call));
  }

  lemma AskYields(cfg: Config, p: Proc, q: Quantum, side: Side, call: Syscall, k: nat, l: Label)
    requires JournalInv(cfg, p.mem.journal) && q.revision == p.mem.journal.revision
    requires SideInv(ViewOf(p.mem.journal), side) && side.act.Thinking? && cfg.guest(side.seen) == Some(call)
    ensures YieldsStay(cfg, p.mem, DoAsk(p, q, side, call).mem, k, l)
  {
    var v := ViewOf(p.mem.journal);
    AskKeepsYields(p, q, side, call);
    Replay.NeverDiverges(cfg.guest, v, side, call);
    if |side.seen| == Completed(v) && !HasOpenIntent(v) {
      FreshGrowsTheView(cfg, p, q, side, call);
      ViewGrowthStaysStamped(cfg, p, DoAsk(p, q, side, call), FreshIntent(p, call), k, l);
    } else {
      QuietAsk(p, q, side, call);
    }
  }

  lemma CommitKeepsYields(p: Proc, q: Quantum, side: Side)
    requires side.act.Answered?
    ensures DoCommit(p, q, side).mem.yielded == p.mem.yielded
  {
  }

  lemma CommitGrowsTheView(cfg: Config, p: Proc, q: Quantum, side: Side)
    requires JournalInv(cfg, p.mem.journal) && q.revision == p.mem.journal.revision
    requires SideInv(ViewOf(p.mem.journal), side) && side.act.Answered?
    requires var v := ViewOf(p.mem.journal); StampLabels(cfg.grants, CallAt(v, Completed(v))) <= side.act.result.labels
    ensures Sound(CompletionOf(p, side.act.result), |ViewOf(p.mem.journal)|)
    ensures ViewOf(DoCommit(p, q, side).mem.journal) == ViewOf(p.mem.journal) + [CompletionOf(p, side.act.result)]
  {
    var v := ViewOf(p.mem.journal);
    CommitEffect(cfg, p, q, side);
    CommitIsNext(cfg, p, q, side);
    WriteKeepsJournal(cfg, p.mem.journal, CompletionOf(p, side.act.result));
    CommittedJournal(p, q, side, CallAt(v, Completed(v)));
  }

  lemma CommitYields(cfg: Config, p: Proc, q: Quantum, side: Side, k: nat, l: Label)
    requires JournalInv(cfg, p.mem.journal) && q.revision == p.mem.journal.revision
    requires SideInv(ViewOf(p.mem.journal), side) && side.act.Answered?
    requires var v := ViewOf(p.mem.journal); StampLabels(cfg.grants, CallAt(v, Completed(v))) <= side.act.result.labels
    ensures YieldsStay(cfg, p.mem, DoCommit(p, q, side).mem, k, l)
  {
    CommitKeepsYields(p, q, side);
    CommitGrowsTheView(cfg, p, q, side);
    ViewGrowthStaysStamped(cfg, p, DoCommit(p, q, side), CompletionOf(p, side.act.result), k, l);
  }

  /** A reply adds to its own call's yields its labels and the call's stamp, if it yields. */
  lemma ReplyYields(cfg: Config, p: Proc, side: Side, result: SyscallResult, k: nat, l: Label)
    requires MemInv(cfg, p) && DrivingNow(p, side) && SideInv(ViewOf(p.mem.journal), side)
    ensures var p' := Reply(cfg, p, side, side.act.call, result);
      || YieldsStay(cfg, p.mem, p'.mem, k, l)
      || (result.status.Yielded? && l in result.labels && Tail(p) / 2 == k
          && l !in StampLabels(cfg.grants, side.act.call))
  {
    ViewIsSound(cfg, p.mem.journal);
    assert Tail(p) / 2 == Completed(ViewOf(p.mem.journal));
  }

  lemma MintYields(cfg: Config, p: Proc, side: Side, task: TaskRecord, k: nat, l: Label)
    requires MemInv(cfg, p) && DrivingNow(p, side) && SideInv(ViewOf(p.mem.journal), side)
    ensures YieldsStay(cfg, p.mem, MintAndYield(cfg, p, side, side.act.call, task).mem, k, l)
  {
    var p1 := WithTask(p, side, task);
    MintingIsYieldingOverATask(cfg, p, side, task);
    assert MemInv(cfg, p1) by {
      assert Stored(p1.id, p1.mem) == Stored(p.id, p.mem);
    }
    ReplyYields(cfg, p1, side, Yield(task.id), k, l);
  }

  lemma LayersYield(cfg: Config, p: Proc, side: Side, env: Env, k: nat, l: Label)
    requires MemInv(cfg, p) && DrivingNow(p, side) && SideInv(ViewOf(p.mem.journal), side) && FairEnv(p.mem, env)
    ensures YieldsStay(cfg, p.mem, DoLayers(cfg, p, side, env).mem, k, l)
  {
    match Layers(cfg, p, side.act.call, env) {
      case Replies(result) =>
        LayersYieldBare(cfg, p, side.act.call, env);
        ReplyYields(cfg, p, side, result, k, l);
      case Mints(task) => MintYields(cfg, p, side, task, k, l);
      case Calls(_) =>
    }
  }

  /** The layers themselves put no label on a yield. */
  lemma LayersYieldBare(cfg: Config, p: Proc, call: Syscall, env: Env)
    requires FairEnv(p.mem, env) && Layers(cfg, p, call, env).Replies?
    ensures var result := Layers(cfg, p, call, env).result; result.status.Yielded? ==> result.labels == {}
  {
  }

  lemma HandlerStepYields(
    cfg: Config, p: Proc, side: Side, handler: HandlerCall, below: Tape.Below, env: Env, k: nat, l: Label)
    requires MemInv(cfg, p) && DrivingNow(p, side) && SideInv(ViewOf(p.mem.journal), side)
    ensures
      || YieldsStay(cfg, p.mem, DoHandler(cfg, p, side, handler, below, env).mem, k, l)
      || (handler.viaTask && below.Answers? && below.result.status.Yielded? && l in below.result.labels
          && Tail(p) / 2 == k && l !in StampLabels(cfg.grants, side.act.call))
  {
    if below.Answers? {
      if below.result.status.Yielded? && !handler.viaTask {
        MintYields(cfg, p, side, NewTask(cfg, p, side.act.call, below.result.message, env), k, l);
      } else {
        ReplyYields(cfg, p, side, below.result, k, l);
      }
    }
  }

  lemma HandlerYields(cfg: Config, p: Proc, below: Tape.Below, env: Env, closed: bool, k: nat, l: Label)
    requires Inv(cfg, p, closed) && Enabled(cfg, p, OfGuest(HandlerReturns(below, env)))
    ensures
      || YieldsStay(cfg, p.mem, Apply(cfg, p, OfGuest(HandlerReturns(below, env)), closed).mem, k, l)
      || YieldsItsOwn(cfg, State(p, closed), Does(OfGuest(HandlerReturns(below, env))), k, l)
  {
    var side, handler := p.mem.quantum.value.guest.side, p.mem.quantum.value.guest.handler.value;
    assert HandlerInv(cfg, p, side, handler);
    HandlerStepYields(cfg, p, side, handler, below, env, k, l);
  }

  lemma GuestYields(cfg: Config, p: Proc, a: GuestAction, closed: bool, k: nat, l: Label)
    requires Inv(cfg, p, closed) && Enabled(cfg, p, OfGuest(a))
    ensures
      || YieldsStay(cfg, p.mem, Apply(cfg, p, OfGuest(a), closed).mem, k, l)
      || YieldsItsOwn(cfg, State(p, closed), Does(OfGuest(a)), k, l)
  {
    var q := p.mem.quantum.value;
    match a {
      case GuestAsk => AskYields(cfg, p, q, q.guest.side, cfg.guest(q.guest.side.seen).value, k, l);
      case GuestStray(call) =>
        StrayCallsAreRefused(ViewOf(p.mem.journal), q.guest.side, call, q.revision);
        QuietAsk(p, q, q.guest.side, call);
        AskKeepsYields(p, q, q.guest.side, call);
      case GuestCommit => CommitYields(cfg, p, q, q.guest.side, k, l);
      case LayersAnswer(env) => LayersYield(cfg, p, q.guest.side, env, k, l);
      case HandlerReturns(below, env) => HandlerYields(cfg, p, below, env, closed, k, l);
      case _ =>
    }
  }

  /** The journal and the yields are kept, or the taint is released. */
  predicate KeptOrReleased(m: Mem, m': Mem) {
    m'.yielded == map[] || (m'.yielded == m.yielded && m'.journal == m.journal)
  }

  lemma OthersReleaseOrKeep(cfg: Config, p: Proc, a: Action, closed: bool)
    requires Enabled(cfg, p, a) && !a.OfGuest?
    ensures KeptOrReleased(p.mem, Apply(cfg, p, a, closed).mem)
  {
    match a {
      case OfExec(e) => ExecReleasesOrKeeps(p, p.mem.quantum.value, e, closed);
      case _ =>
    }
  }

  lemma ExecReleasesOrKeeps(p: Proc, q: Quantum, e: ExecAction, closed: bool)
    requires p.mem.quantum == Some(q) && ExecEnabled(q, e)
    ensures KeptOrReleased(p.mem, DoExec(p, q, e, closed).mem)
  {
    if e.ExecRecord? {
      RecordReleasesOrKeeps(p, q, closed);
    }
  }

  lemma RecordReleasesOrKeeps(p: Proc, q: Quantum, closed: bool)
    requires p.mem.quantum == Some(q) && q.exec.Recording?
    ensures KeptOrReleased(p.mem, DoRecord(p, q, q.exec.ending, closed).mem)
  {
    if q.exec.ending.EndCompleted? && GuestAborted(ViewOf(p.mem.journal)) {
      SectionReleases(p, closed);
      RecordOfAbort(p, q, closed);
    } else {
      RecordOtherwise(p, q, closed);
    }
  }

  lemma SectionReleases(p: Proc, closed: bool)
    ensures RetryAbortedSection(p, closed).mem.yielded == map[]
  {
  }

  lemma HappeningYields(cfg: Config, s: State, h: Happening, k: nat, l: Label)
    requires Inv(cfg, s.p, s.closed) && CanHappen(cfg, s, h)
    ensures YieldsStay(cfg, s.p.mem, Then(cfg, s, h).p.mem, k, l) || YieldsItsOwn(cfg, s, h, k, l)
  {
    match h {
      case Does(a) =>
        if a.OfGuest? {
          GuestYields(cfg, s.p, a.guest, s.closed, k, l);
        } else {
          OthersReleaseOrKeep(cfg, s.p, a, s.closed);
        }
      case Closes =>
      case Crashes => RestoreReleases(s.p);
    }
  }

  lemma RestoreReleases(p: Proc)
    requires LastStored(p.log).Some?
    ensures Restored(p).mem.yielded == map[]
  {
  }

  lemma NextYields(cfg: Config, id: Identity, life: Life, i: nat, k: nat, l: Label)
    requires IsLife(cfg, id, life) && i < |life.happenings|
    ensures
      || YieldsStay(cfg, life.states[i].p.mem, life.states[i + 1].p.mem, k, l)
      || YieldsItsOwn(cfg, life.states[i], life.happenings[i], k, l)
  {
    EveryStateIsSound(cfg, id, life, i);
    NextHappens(cfg, id, life, i);
    HappeningYields(cfg, life.states[i], life.happenings[i], k, l);
  }

  /** Before the i-th state some handler under an approved task put the label on a yield of
      the k-th call. */
  ghost predicate OwnLabelBefore(cfg: Config, life: Life, i: nat, k: nat, l: Label)
    requires |life.states| == |life.happenings| + 1 && i <= |life.happenings|
  {
    exists m :: 0 <= m < i && YieldsItsOwn(cfg, life.states[m], life.happenings[m], k, l)
  }

  lemma StillBefore(cfg: Config, life: Life, i: nat, k: nat, l: Label)
    requires |life.states| == |life.happenings| + 1 && i < |life.happenings|
    requires OwnLabelBefore(cfg, life, i, k, l) || YieldsItsOwn(cfg, life.states[i], life.happenings[i], k, l)
    ensures OwnLabelBefore(cfg, life, i + 1, k, l)
  {
  }

  /** What the k-th call's yields show is stamped on it, or a handler's own. */
  ghost predicate AccountedFor(cfg: Config, life: Life, i: nat, k: nat, l: Label)
    requires |life.states| == |life.happenings| + 1 && i < |life.states|
  {
    l in YieldsOf(life.states[i].p.mem.yielded, k) ==>
      StampedWith(cfg, life.states[i].p.mem.journal, k, l) || OwnLabelBefore(cfg, life, i, k, l)
  }

  lemma NextIsAccountedFor(cfg: Config, id: Identity, life: Life, i: nat, k: nat, l: Label)
    requires IsLife(cfg, id, life) && i < |life.happenings| && AccountedFor(cfg, life, i, k, l)
    ensures AccountedFor(cfg, life, i + 1, k, l)
  {
    NextYields(cfg, id, life, i, k, l);
    if OwnLabelBefore(cfg, life, i, k, l) || YieldsItsOwn(cfg, life.states[i], life.happenings[i], k, l) {
      StillBefore(cfg, life, i, k, l);
    }
  }

  lemma {:induction false} YieldsAreAccountedFor(cfg: Config, id: Identity, life: Life, i: nat, k: nat, l: Label)
    requires IsLife(cfg, id, life) && i < |life.states|
    ensures AccountedFor(cfg, life, i, k, l)
  {
    if i == 0 {
      FirstIsTheCreation(cfg, id, life);
    } else {
      YieldsAreAccountedFor(cfg, id, life, i - 1, k, l);
      NextIsAccountedFor(cfg, id, life, i - 1, k, l);
    }
  }

  /** A label that the taint holds and no completed call carried was put on a yield by a
      handler that an approved task let run. */
  lemma ExtraLabelsComeFromApprovedHandlers(cfg: Config, id: Identity, life: Life, i: nat, l: Label)
    requires IsLife(cfg, id, life) && i < |life.states| && AsksFresh(cfg, life.states[i].p)
    ensures var s := life.states[i];
      && WellFormed(ViewOf(s.p.mem.journal))
      && (l in RunTaint(Apply(cfg, s.p, OfGuest(GuestAsk), s.closed).mem)
          && l !in FoldCalls(ViewOf(s.p.mem.journal), Completed(ViewOf(s.p.mem.journal)))
          ==> exists k :: OwnLabelBefore(cfg, life, i, k, l))
  {
    var s, src := life.states[i], SourceOf(Syscall(SysLog, Undecodable("")));
    var v := ViewOf(s.p.mem.journal);
    assert PassesThrough(cfg, id, life, i, s);
    ExtraLabelsComeFromYieldsExactly(cfg, s, l, src);
    if l in RunTaint(Apply(cfg, s.p, OfGuest(GuestAsk), s.closed).mem) && l !in FoldCalls(v, Completed(v)) {
      var k: nat :| YieldShowed(v, s.p.mem.yielded, k, l);
      YieldsAreAccountedFor(cfg, id, life, i, k, l);
      StampsAreCarried(cfg, s, k, l);
    }
  }

  lemma StampsAreCarried(cfg: Config, s: State, k: nat, l: Label)
    requires Reachable(cfg, s)
    ensures WellFormed(ViewOf(s.p.mem.journal))
    ensures var v := ViewOf(s.p.mem.journal);
      k < Completed(v) && !IsMarker(CallAt(v, k).name) && StampedWith(cfg, s.p.mem.journal, k, l) ==> Carried(v, k, l)
  {
    ReachableIsSound(cfg, s);
    var v := ViewOf(s.p.mem.journal);
    assert Stamped(cfg.grants, v);
    if k < Completed(v) {
      assert StampedAt(cfg.grants, v, k);
    }
  }

  /** In a life where no handler under an approved task yields labels of its own, every
      yield is quiet, and the taint handed down is the fold of the completed calls' labels,
      source lists and their order included, through every crash, park and fork. */
  lemma QuietLivesHandDownTheCallsLabels(cfg: Config, id: Identity, life: Life, i: nat)
    requires IsLife(cfg, id, life) && i < |life.states| && AsksFresh(cfg, life.states[i].p)
    requires forall k, l :: !OwnLabelBefore(cfg, life, i, k, l)
    ensures var s := life.states[i];
      var v := ViewOf(s.p.mem.journal);
      && WellFormed(v) && QuietYields(v, s.p.mem.yielded)
      && RunTaint(Apply(cfg, s.p, OfGuest(GuestAsk), s.closed).mem) == FoldCalls(v, Completed(v))
  {
    var s := life.states[i];
    var v := ViewOf(s.p.mem.journal);
    assert PassesThrough(cfg, id, life, i, s);
    FreshIntentSeesTheFold(cfg, s);
    forall k: nat, l | YieldShowed(v, s.p.mem.yielded, k, l) ensures l in ResultAt(v, k).labels {
      YieldsAreAccountedFor(cfg, id, life, i, k, l);
      StampsAreCarried(cfg, s, k, l);
    }
    assert QuietYields(v, s.p.mem.yielded) by {
      forall k: nat, l | k < Completed(v) && !IsMarker(CallAt(v, k).name) && l in YieldsOf(s.p.mem.yielded, k)
        ensures l in ResultAt(v, k).labels
      {
        assert YieldShowed(v, s.p.mem.yielded, k, l);
      }
    }
    QuietRunsHandDownTheCallsLabels(cfg, s);
  }

  // ---- What results carry -----------------------------------------------

  /** Provenance is never missing: every completed call's result carries the label of the
      syscall that produced it, and the labels of the entry that serves the call. */
  lemma EveryResultIsStamped(cfg: Config, s: State, k: nat, entry: Entry)
    requires Reachable(cfg, s)
    ensures WellFormed(ViewOf(s.p.mem.journal))
    ensures var v := ViewOf(s.p.mem.journal); k < Completed(v) && !IsMarker(CallAt(v, k).name) ==>
      && FromSyscall(CallAt(v, k).name) in ResultAt(v, k).labels
      && (Serves(cfg.grants, CallAt(v, k), entry) ==> entry.labels <= ResultAt(v, k).labels)
  {
    ReachableIsSound(cfg, s);
    assert Stamped(cfg.grants, ViewOf(s.p.mem.journal));
    var v := ViewOf(s.p.mem.journal);
    if k < Completed(v) {
      assert StampedAt(cfg.grants, v, k);
      ResolvedServes(cfg.grants, CallAt(v, k), entry);
    }
  }

  /** A run recorded as completed keeps every label its calls carried, across any number
      of restores. */
  lemma CompletedRunsKeepTheirLabels(cfg: Config, s: State, j: nat, l: Label)
    requires Reachable(cfg, s) && s.p.mem.status.ProcessCompleted?
    requires WellFormed(ViewOf(s.p.mem.journal)) && Carried(ViewOf(s.p.mem.journal), j, l)
    ensures l in s.p.mem.labels
  {
    ReachableIsSound(cfg, s);
  }

  // ---- A run that keeps an extra label ----------------------------------

  const GUARDED := Syscall(Granted("c"), Undecodable(""))
  const GUARD := Entry(Key(Granted("c"), ""), "", {}, [], true)
  const EXTRA := Declared("x")

  /** The guest makes a guarded call, then asks the time, and halts. */
  const TWO_CALLS: Config := Config(
    (seen: seq<SyscallResult>) =>
      if |seen| == 0 then Some(GUARDED) else if |seen| == 1 then Some(Syscall(SysNow, Undecodable(""))) else None,
    Grants(map[GUARD.key := GUARD], map[Granted("c") := Route("", false)], map[], [Granted("c")]),
    0)

  const INTENT := IntentRecord(0, GUARDED).(revision := 1)
  const AT_CALL := Side(1, true, [], Driving(GUARDED))

  /** The guarded call's intent is all that is recorded. */
  ghost predicate Opened(p: Proc) {
    p.mem.journal == Journal(map[0 := [INTENT]], 1, 0, 1) && !p.mem.stopRequested
  }

  /** A quantum is at the call, as far as act says. */
  ghost predicate AtCall(p: Proc, act: Activity, handler: Option<HandlerCall>) {
    Opened(p) && p.mem.quantum == Some(Quantum(1, InPool, Running(AT_CALL.(act := act), handler)))
  }

  lemma OpenedView(p: Proc)
    requires Opened(p)
    ensures ViewOf(p.mem.journal) == [INTENT] && OpenSection(ViewOf(p.mem.journal)).None?
  {
    var h := p.mem.journal.history;
    assert At(h, 0) == [INTENT];
    assert BestOf([INTENT], 1) == Some(INTENT);
    assert GetAt(h, 0, 1) == Some(INTENT);
    assert ViewOf(p.mem.journal) == [INTENT];
    assert WellFormed([INTENT]) && Depth([INTENT], 0) == 0;
  }

  lemma Acts(s: Proc, a: Action) returns (p: Proc)
    requires Reachable(TWO_CALLS, State(s, false)) && Enabled(TWO_CALLS, s, a)
    ensures p == Apply(TWO_CALLS, s, a, false) && Reachable(TWO_CALLS, State(p, false))
  {
    ReachableGoesOn(TWO_CALLS, State(s, false), Does(a));
    p := Apply(TWO_CALLS, s, a, false);
  }

  /** A queued quantum comes up to its guest's first call. */
  lemma Boots(s: Proc) returns (p: Proc)
    requires Reachable(TWO_CALLS, State(s, false)) && !s.mem.stopRequested
    requires s.mem.quantum == Some(Quantum(s.mem.journal.revision, Starting, Unstarted))
    ensures Reachable(TWO_CALLS, State(p, false))
    ensures p.mem.quantum == Some(Quantum(s.mem.journal.revision, InPool, Running(BOOT, None)))
    ensures p.mem == s.mem.(quantum := p.mem.quantum) && p.id == s.id
  {
    p := Acts(s, OfExec(ExecBegin));
    p := Acts(p, OfExec(ExecSubmit(true)));
    p := Acts(p, OfGuest(GuestBoot));
  }

  lemma FirstDrive(id: Identity) returns (p: Proc)
    ensures Reachable(TWO_CALLS, State(p, false)) && AtCall(p, Driving(GUARDED), None)
    ensures p.mem.tasks == map[] && p.id == id
  {
    CreationIsReachable(TWO_CALLS, id);
    p := Boots(Created(id));
    FirstAsk(p);
    p := Acts(p, OfGuest(GuestAsk));
  }

  lemma FirstAsk(p: Proc)
    requires p.mem.journal == EMPTY && p.mem.quantum == Some(Quantum(1, InPool, Running(BOOT, None)))
    requires !p.mem.stopRequested
    ensures Enabled(TWO_CALLS, p, OfGuest(GuestAsk))
    ensures var p' := Apply(TWO_CALLS, p, OfGuest(GuestAsk), false);
      AtCall(p', Driving(GUARDED), None) && p'.mem.tasks == p.mem.tasks && p'.id == p.id
  {
    assert ViewOf(EMPTY) == [];
    assert Enter([], BOOT, GUARDED, 1) == Turn(AT_CALL, [INTENT]);
    assert [] + [INTENT] == [INTENT];
  }

  lemma NextAsk(p: Proc)
    requires Opened(p) && p.mem.quantum == Some(Quantum(1, InPool, Running(BOOT, None)))
    ensures Enabled(TWO_CALLS, p, OfGuest(GuestAsk))
    ensures Apply(TWO_CALLS, p, OfGuest(GuestAsk), false)
         == WithQuantum(p, Quantum(1, InPool, Running(AT_CALL, None)))
  {
    OpenedView(p);
    assert Enter([INTENT], BOOT, GUARDED, 1) == Turn(AT_CALL, []);
  }

  /** A parked quantum ends, its process waits, and a wake drives the call again. The run's
      taint stays: waiting releases nothing. */
  lemma ParksAndWakes(s: Proc) returns (p: Proc)
    requires Reachable(TWO_CALLS, State(s, false)) && AtCall(s, Parked(true), None)
    ensures Reachable(TWO_CALLS, State(p, false)) && AtCall(p, Driving(GUARDED), None)
    ensures p.mem.tasks == s.mem.tasks && p.mem.yielded == s.mem.yielded && p.id == s.id
  {
    p := Waits(s);
    OpenedView(p);
    p := Acts(p, ApiRetry(false));
    p := Boots(p);
    NextAsk(p);
    p := Acts(p, OfGuest(GuestAsk));
  }

  lemma Waits(s: Proc) returns (p: Proc)
    requires Reachable(TWO_CALLS, State(s, false)) && AtCall(s, Parked(true), None)
    ensures Reachable(TWO_CALLS, State(p, false)) && Opened(p) && p.mem.status.ProcessWaiting?
    ensures p.mem.tasks == s.mem.tasks && p.mem.yielded == s.mem.yielded && p.id == s.id
  {
    p := Collects(s);
    p := Acts(p, OfExec(ExecRecord));
    p := Acts(p, OfExec(ExecFinish));
  }

  lemma Collects(s: Proc) returns (p: Proc)
    requires Reachable(TWO_CALLS, State(s, false)) && AtCall(s, Parked(true), None)
    ensures Reachable(TWO_CALLS, State(p, false)) && Opened(p)
    ensures p.mem.quantum.Some? && p.mem.quantum.value.exec == Recording(EndYielded)
    ensures p.mem.tasks == s.mem.tasks && p.mem.yielded == s.mem.yielded && p.id == s.id
  {
    p := Acts(s, OfGuest(GuestEnds(EndYielded)));
    p := Acts(p, OfExec(ExecMark));
    p := Acts(p, OfExec(ExecCollect));
  }

  const CLOCK := Env(0, "t", "hash", Result(""), {})
  const RETRIED := CLOCK.(freshId := "u")
  const APPROVAL := TaskResolution(TaskApproved, "human", "", "")

  /** The guarded call's task is approved. */
  ghost predicate Approved(p: Proc) {
    && p.mem.tasks.Keys == {"t"} && TaskAt(p.mem, "t", 1, 0) && p.mem.tasks["t"].state.TaskApproved?
    && p.mem.tasks["t"].syscall == GUARDED
  }

  lemma LayersMint(s: Proc)
    requires AtCall(s, Driving(GUARDED), None) && s.mem.tasks == map[]
    ensures Layers(TWO_CALLS, s, GUARDED, CLOCK) == Mints(NewTask(TWO_CALLS, s, GUARDED, "approval", CLOCK))
  {
    assert !HasTask(s.mem, 1, 0);
    ResolvedGate(TWO_CALLS.grants, RunTaint(s.mem), GUARDED, false);
  }

  lemma LayersCall(s: Proc)
    requires AtCall(s, Driving(GUARDED), None) && Approved(s)
    ensures Layers(TWO_CALLS, s, GUARDED, RETRIED) == Calls(HandlerCall(GUARDED, GUARD, true))
  {
    assert HasTask(s.mem, 1, 0);
    assert FindTask(s.mem, 1, 0) == "t";
    ResolvedGate(TWO_CALLS.grants, RunTaint(s.mem), GUARDED, true);
  }

  lemma MintsAndParks(s: Proc)
    requires AtCall(s, Driving(GUARDED), None) && s.mem.tasks == map[]
    ensures var task := NewTask(TWO_CALLS, s, GUARDED, "approval", CLOCK);
      var p := MintAndYield(TWO_CALLS, s, AT_CALL, GUARDED, task);
      && AtCall(p, Parked(true), None) && p.mem.tasks == map["t" := task]
      && task.state.TaskPending? && task.scope.revision == 1 && task.position == 0
      && task.tokenHash == "hash" && task.expiresAt.None? && task.syscall == GUARDED
  {
  }

  lemma Approves(p: Proc, task: TaskRecord)
    requires AtCall(p, Parked(true), None) && p.mem.tasks == map["t" := task]
    requires task.state.TaskPending? && task.scope.revision == 1 && task.position == 0
    requires task.tokenHash == "hash" && task.expiresAt.None? && task.syscall == GUARDED
    ensures var p' := DoTask(p, Tasks.ResolveOp("t", "hash", APPROVAL, 0));
      AtCall(p', Parked(true), None) && Approved(p')
  {
  }

  /** The call asks for approval, and gets it. */
  lemma AsksAndIsApproved(s: Proc) returns (p: Proc)
    requires Reachable(TWO_CALLS, State(s, false)) && AtCall(s, Driving(GUARDED), None) && s.mem.tasks == map[]
    ensures Reachable(TWO_CALLS, State(p, false)) && AtCall(p, Parked(true), None) && Approved(p)
  {
    var task := NewTask(TWO_CALLS, s, GUARDED, "approval", CLOCK);
    LayersMint(s);
    MintsAndParks(s);
    p := Acts(s, OfGuest(LayersAnswer(CLOCK)));
    Approves(p, task);
    p := Acts(p, OfTask(Tasks.ResolveOp("t", "hash", APPROVAL, 0)));
  }

  /** The process once the approved handler has answered. */
  function HandlerDone(s: Proc, result: SyscallResult): Proc
    requires s.mem.quantum.Some?
  {
    Reply(TWO_CALLS, WithSide(s, AT_CALL, Some(HandlerCall(GUARDED, GUARD, true))), AT_CALL, GUARDED, result)
  }

  lemma HandlerAnswers(s: Proc, result: SyscallResult) returns (p: Proc)
    requires Reachable(TWO_CALLS, State(s, false)) && AtCall(s, Driving(GUARDED), None) && Approved(s)
    ensures Reachable(TWO_CALLS, State(p, false)) && p == HandlerDone(s, result)
  {
    LayersCall(s);
    p := Acts(s, OfGuest(LayersAnswer(RETRIED)));
    p := Acts(p, OfGuest(HandlerReturns(Tape.Answers(result), RETRIED)));
  }

  const LATER := Yield("later").WithLabels({EXTRA})

  lemma YieldShowsTheLabel(s: Proc)
    requires AtCall(s, Driving(GUARDED), None) && Approved(s)
    ensures var p := HandlerDone(s, LATER);
      AtCall(p, Parked(true), None) && Approved(p) && EXTRA in YieldsOf(p.mem.yielded, 0)
  {
  }

  /** The handler yields again with a label of its own, and is driven once more. */
  lemma HandlerYieldsTheLabel(s: Proc) returns (p: Proc)
    requires Reachable(TWO_CALLS, State(s, false)) && AtCall(s, Driving(GUARDED), None) && Approved(s)
    ensures Reachable(TWO_CALLS, State(p, false)) && AtCall(p, Driving(GUARDED), None) && Approved(p)
    ensures EXTRA in YieldsOf(p.mem.yielded, 0)
  {
    YieldShowsTheLabel(s);
    p := HandlerAnswers(s, LATER);
    p := ParksAndWakes(p);
  }

  /** The call completed without the label, and the next call is fresh. */
  ghost predicate CompletedBare(p: Proc) {
    var v := ViewOf(p.mem.journal);
    && AsksFresh(TWO_CALLS, p)
    && WellFormed(v) && |v| == 2 && CallAt(v, 0) == GUARDED && EXTRA !in ResultAt(v, 0).labels
  }

  lemma HandlerCompletes(s: Proc) returns (p: Proc)
    requires Reachable(TWO_CALLS, State(s, false)) && AtCall(s, Driving(GUARDED), None) && Approved(s)
    ensures Reachable(TWO_CALLS, State(p, false)) && CompletedBare(p) && p.mem.yielded == s.mem.yielded
  {
    p := HandlerAnswers(s, Result(""));
    OpenedView(p);
    ReachableIsSound(TWO_CALLS, State(p, false));
    CommitsBare(p);
    p := Acts(p, OfGuest(GuestCommit));
  }

  lemma CommitsBare(s: Proc)
    requires JournalInv(TWO_CALLS, s.mem.journal) && ViewOf(s.mem.journal) == [INTENT]
    requires AtCall(s, Answered(Result("").WithLabels(StampLabels(TWO_CALLS.grants, GUARDED))), None)
    ensures Enabled(TWO_CALLS, s, OfGuest(GuestCommit))
    ensures var p := Apply(TWO_CALLS, s, OfGuest(GuestCommit), false);
      CompletedBare(p) && p.mem.yielded == s.mem.yielded
  {
    var q := s.mem.quantum.value;
    CommitKeepsYields(s, q, q.guest.side);
    CommitGrowsTheView(TWO_CALLS, s, q, q.guest.side);
    CommitEffect(TWO_CALLS, s, q, q.guest.side);
    CommittedJournal(s, q, q.guest.side, GUARDED);
    LeftBare(DoCommit(s, q, q.guest.side), CompletionOf(s, q.guest.side.act.result), q);
  }

  lemma LeftBare(p: Proc, rec: Record, q: Quantum)
    requires ViewOf(p.mem.journal) == [INTENT, rec] && Sound(rec, 1) && EXTRA !in rec.result.value.labels
    requires p.mem.quantum == Some(ThinkingQuantum(q, AT_CALL, rec.result.value))
    ensures CompletedBare(p)
  {
    var v := ViewOf(p.mem.journal);
    assert v[0] == INTENT && v[1] == rec;
  }

  /** The taint can hold a label that no completed call ever carried: a reachable state in
      which a fresh call is made under one. */
  lemma AYieldCanLeaveAnExtraLabel(id: Identity)
    ensures exists s: State ::
      && Reachable(TWO_CALLS, s) && AsksFresh(TWO_CALLS, s.p) && WellFormed(ViewOf(s.p.mem.journal))
      && EXTRA in RunTaint(Apply(TWO_CALLS, s.p, OfGuest(GuestAsk), s.closed).mem)
      && EXTRA !in FoldCalls(ViewOf(s.p.mem.journal), Completed(ViewOf(s.p.mem.journal)))
  {
    var p := FirstDrive(id);
    p := AsksAndIsApproved(p);
    p := ParksAndWakes(p);
    p := HandlerYieldsTheLabel(p);
    p := HandlerCompletes(p);
    TheLabelIsExtra(State(p, false));
  }

  lemma TheLabelIsExtra(s: State)
    requires Reachable(TWO_CALLS, s) && CompletedBare(s.p) && EXTRA in YieldsOf(s.p.mem.yielded, 0)
    ensures EXTRA in RunTaint(Apply(TWO_CALLS, s.p, OfGuest(GuestAsk), s.closed).mem)
    ensures EXTRA !in FoldCalls(ViewOf(s.p.mem.journal), Completed(ViewOf(s.p.mem.journal)))
  {
    var v := ViewOf(s.p.mem.journal);
    ExtraLabelsComeFromYieldsExactly(TWO_CALLS, s, EXTRA, SourceOf(GUARDED));
    assert YieldShowed(v, s.p.mem.yielded, 0, EXTRA);
    forall j: nat ensures !Carried(v, j, EXTRA) {
      if j < Completed(v) {
        assert j == 0;
      }
    }
  }
}
