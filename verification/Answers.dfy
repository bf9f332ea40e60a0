/** What a guest is told: every result in a process's journal is what a layer or a handler
    answered to that very call, with nothing changed but the labels stamped on it. */
module Answers {
  import opened Sys
  import opened Journaled
  import opened Durable
  import opened Replay
  import opened Capability
  import opened Process
  import opened ProcessInv
  import opened ProcessSteps
  import opened ProcessSafety
  import opened Provenance
  import Tasks
  import Tape

  // ---- What was answered ------------------------------------------------

  /** In this state this happening gives an answer to the call under way: the handler's own,
      or that of a layer above it. */
  ghost predicate Gives(cfg: Config, s: State, h: Happening, r: SyscallResult) {
    && h.Does? && h.action.OfGuest?
    && s.p.mem.quantum.Some? && s.p.mem.quantum.value.guest.Running? && s.p.mem.quantum.value.guest.side.act.Driving?
    && match h.action.guest
       case HandlerReturns(below, _) => below == Tape.Answers(r)
       case LayersAnswer(env) => Layers(cfg, s.p, s.p.mem.quantum.value.guest.side.act.call, env) == Replies(r)
       case _ => false
  }

  /** The result is the answer itself, with the call's stamp on it. */
  predicate IsAnswer(g: Grants, call: Syscall, result: SyscallResult, r: SyscallResult) {
    && result.status == r.status && result.errno == r.errno && result.data == r.data && result.message == r.message
    && result.labels == r.labels + StampLabels(g, call)
  }

  /** At the m-th state the view ended with the open intent of a call, and its answer was
      given then. */
  ghost predicate GivenIn(cfg: Config, life: Life, m: nat, v: seq<Record>, result: SyscallResult)
    requires |life.states| == |life.happenings| + 1 && m < |life.happenings|
  {
    && WellFormed(v) && HasOpenIntent(v) && ViewOf(life.states[m].p.mem.journal) == v
    && exists r :: Gives(cfg, life.states[m], life.happenings[m], r) && !r.status.Yielded?
         && IsAnswer(cfg.grants, CallAt(v, Completed(v)), result, r)
  }

  /** Before the i-th state. */
  ghost predicate Given(cfg: Config, life: Life, i: nat, v: seq<Record>, result: SyscallResult)
    requires |life.states| == |life.happenings| + 1 && i <= |life.happenings|
  {
    exists m: nat :: m < i && GivenIn(cfg, life, m, v, result)
  }

  ghost predicate GivenAt(cfg: Config, life: Life, i: nat, w: seq<Record>, k: nat)
    requires |life.states| == |life.happenings| + 1 && i <= |life.happenings|
    requires WellFormed(w) && k < Completed(w)
  {
    Given(cfg, life, i, w[..2 * k + 1], ResultAt(w, k))
  }

  /** Every completed call's result was given while its intent was the tail of this view. */
  ghost predicate AllGiven(cfg: Config, life: Life, i: nat, w: seq<Record>)
    requires |life.states| == |life.happenings| + 1 && i <= |life.happenings| && WellFormed(w)
  {
    forall k: nat :: k < Completed(w) ==> GivenAt(cfg, life, i, w, k)
  }

  /** So was the result the guest is about to be handed. */
  ghost predicate GivenToGuest(cfg: Config, life: Life, i: nat, v: seq<Record>, guest: GuestPc)
    requires |life.states| == |life.happenings| + 1 && i <= |life.happenings|
  {
    guest.Running? && guest.side.act.Answered? ==> Given(cfg, life, i, v, guest.side.act.result)
  }

  ghost predicate MemGiven(cfg: Config, life: Life, i: nat, p: Proc)
    requires |life.states| == |life.happenings| + 1 && i <= |life.happenings|
  {
    var v := ViewOf(p.mem.journal);
    && WellFormed(v) && AllGiven(cfg, life, i, v)
    && (p.mem.quantum.Some? ==> GivenToGuest(cfg, life, i, v, p.mem.quantum.value.guest))
  }

  ghost predicate LogGiven(cfg: Config, life: Life, i: nat, p: Proc)
    requires |life.states| == |life.happenings| + 1 && i <= |life.happenings|
  {
    && LastStored(p.log).Some? && WellFormed(ViewOf(StoredJournal(p)))
    && AllGiven(cfg, life, i, ViewOf(StoredJournal(p)))
  }

  // ---- As a life goes on ------------------------------------------------

  lemma GivenStays(cfg: Config, life: Life, i: nat, v: seq<Record>, result: SyscallResult)
    requires |life.states| == |life.happenings| + 1 && i < |life.happenings| && Given(cfg, life, i, v, result)
    ensures Given(cfg, life, i + 1, v, result)
  {
    var m: nat :| m < i && GivenIn(cfg, life, m, v, result);
    assert m < i + 1;
  }

  lemma EarlierGiven(cfg: Config, life: Life, i: nat, v: seq<Record>, w: seq<Record>, k: nat)
    requires |life.states| == |life.happenings| + 1 && i < |life.happenings|
    requires WellFormed(v) && WellFormed(w) && v <= w && AllGiven(cfg, life, i, v) && k < Completed(v)
    ensures GivenAt(cfg, life, i + 1, w, k)
  {
    assert GivenAt(cfg, life, i, v, k);
    assert w[..2 * k + 1] == v[..2 * k + 1] && w[2 * k + 1] == v[2 * k + 1];
    GivenStays(cfg, life, i, v[..2 * k + 1], ResultAt(v, k));
  }

  lemma PrefixGiven(cfg: Config, life: Life, i: nat, w: seq<Record>, v: seq<Record>)
    requires |life.states| == |life.happenings| + 1 && i < |life.happenings|
    requires WellFormed(w) && AllGiven(cfg, life, i, w) && WellFormed(v) && v <= w
    ensures AllGiven(cfg, life, i + 1, v)
  {
    var next := i + 1;
    forall k: nat | k < Completed(v) ensures GivenAt(cfg, life, next, v, k) {
      assert GivenAt(cfg, life, i, w, k);
      assert v[..2 * k + 1] == w[..2 * k + 1] && v[2 * k + 1] == w[2 * k + 1];
      GivenStays(cfg, life, i, w[..2 * k + 1], ResultAt(w, k));
    }
  }

  lemma IntentGiven(cfg: Config, life: Life, i: nat, v: seq<Record>, rec: Record)
    requires |life.states| == |life.happenings| + 1 && i < |life.happenings|
    requires WellFormed(v) && AllGiven(cfg, life, i, v) && !HasOpenIntent(v) && Sound(rec, |v|)
    ensures WellFormed(v + [rec]) && AllGiven(cfg, life, i + 1, v + [rec])
  {
    ExtendResults(v, rec);
    var w := v + [rec];
    var next := i + 1;
    forall k: nat | k < Completed(w) ensures GivenAt(cfg, life, next, w, k) {
      EarlierGiven(cfg, life, i, v, w, k);
    }
  }

  lemma LatestGiven(cfg: Config, life: Life, i: nat, v: seq<Record>, w: seq<Record>, k: nat)
    requires |life.states| == |life.happenings| + 1 && i < |life.happenings|
    requires WellFormed(w) && |v| == 2 * k + 1 && |w| == |v| + 1 && v <= w && Given(cfg, life, i, v, ResultAt(w, k))
    ensures GivenAt(cfg, life, i + 1, w, k)
  {
    assert w[..2 * k + 1] == v;
    GivenStays(cfg, life, i, v, ResultAt(w, k));
  }

  lemma CompletionGiven(cfg: Config, life: Life, i: nat, v: seq<Record>, rec: Record)
    requires |life.states| == |life.happenings| + 1 && i < |life.happenings|
    requires WellFormed(v) && AllGiven(cfg, life, i, v) && HasOpenIntent(v) && Sound(rec, |v|)
    requires Given(cfg, life, i, v, rec.result.value)
    ensures WellFormed(v + [rec]) && AllGiven(cfg, life, i + 1, v + [rec])
  {
    ExtendResults(v, rec);
    var w := v + [rec];
    var next := i + 1;
    forall k: nat | k < Completed(w) ensures GivenAt(cfg, life, next, w, k) {
      if k < Completed(v) {
        EarlierGiven(cfg, life, i, v, w, k);
      } else {
        LatestGiven(cfg, life, i, v, w, k);
      }
    }
  }

  /** A step that leaves the view, or a prefix of it, and holds no answer. */
  lemma ShorterGiven(cfg: Config, life: Life, i: nat, p: Proc, p': Proc)
    requires |life.states| == |life.happenings| + 1 && i < |life.happenings| && MemGiven(cfg, life, i, p)
    requires WellFormed(ViewOf(p'.mem.journal)) && ViewOf(p'.mem.journal) <= ViewOf(p.mem.journal)
    requires p'.mem.quantum.Some? ==> GivenToGuest(cfg, life, i + 1, ViewOf(p'.mem.journal), p'.mem.quantum.value.guest)
    ensures MemGiven(cfg, life, i + 1, p')
  {
    PrefixGiven(cfg, life, i, ViewOf(p.mem.journal), ViewOf(p'.mem.journal));
  }

  // ---- The quantum's steps ----------------------------------------------

  /** The step the life takes next. */
  ghost predicate Takes(life: Life, i: nat, p: Proc, closed: bool, a: GuestAction) {
    && |life.states| == |life.happenings| + 1 && i < |life.happenings|
    && life.states[i] == State(p, closed) && life.happenings[i] == Does(OfGuest(a))
  }

  lemma AskGiven(cfg: Config, life: Life, i: nat, p: Proc, q: Quantum, side: Side, call: Syscall)
    requires |life.states| == |life.happenings| + 1 && i < |life.happenings| && MemGiven(cfg, life, i, p)
    requires JournalInv(cfg, p.mem.journal) && q.revision == p.mem.journal.revision
    requires SideInv(ViewOf(p.mem.journal), side) && side.act.Thinking? && cfg.guest(side.seen) == Some(call)
    ensures MemGiven(cfg, life, i + 1, DoAsk(p, q, side, call))
  {
    var v, p' := ViewOf(p.mem.journal), DoAsk(p, q, side, call);
    Replay.NeverDiverges(cfg.guest, v, side, call);
    AskHoldsNoAnswer(p, q, side, call);
    if |side.seen| == Completed(v) && !HasOpenIntent(v) {
      FreshGrowsTheView(cfg, p, q, side, call);
      IntentGiven(cfg, life, i, v, FreshIntent(p, call));
    } else {
      QuietAsk(p, q, side, call);
      ShorterGiven(cfg, life, i, p, p');
    }
  }

  lemma AskHoldsNoAnswer(p: Proc, q: Quantum, side: Side, call: Syscall)
    requires !side.act.Answered?
    ensures var guest := DoAsk(p, q, side, call).mem.quantum.value.guest;
      guest.Running? && !guest.side.act.Answered?
  {
  }

  lemma StrayGiven(cfg: Config, life: Life, i: nat, p: Proc, q: Quantum, side: Side, call: Syscall)
    requires |life.states| == |life.happenings| + 1 && i < |life.happenings| && MemGiven(cfg, life, i, p)
    requires SideInv(ViewOf(p.mem.journal), side) && side.act.Parked?
    ensures MemGiven(cfg, life, i + 1, DoAsk(p, q, side, call))
  {
    StrayCallsAreRefused(ViewOf(p.mem.journal), side, call, q.revision);
    QuietAsk(p, q, side, call);
    AskHoldsNoAnswer(p, q, side, call);
    ShorterGiven(cfg, life, i, p, DoAsk(p, q, side, call));
  }

  lemma CommitGiven(cfg: Config, life: Life, i: nat, p: Proc, q: Quantum, side: Side)
    requires |life.states| == |life.happenings| + 1 && i < |life.happenings| && MemGiven(cfg, life, i, p)
    requires JournalInv(cfg, p.mem.journal) && q.revision == p.mem.journal.revision
    requires SideInv(ViewOf(p.mem.journal), side) && side.act.Answered?
    requires var v := ViewOf(p.mem.journal); StampLabels(cfg.grants, CallAt(v, Completed(v))) <= side.act.result.labels
    requires Given(cfg, life, i, ViewOf(p.mem.journal), side.act.result)
    ensures MemGiven(cfg, life, i + 1, DoCommit(p, q, side))
  {
    var v := ViewOf(p.mem.journal);
    CommitGrowsTheView(cfg, p, q, side);
    CompletionGiven(cfg, life, i, v, CompletionOf(p, side.act.result));
    CommitEffect(cfg, p, q, side);
    CommittedJournal(p, q, side, CallAt(v, Completed(v)));
  }

  /** An answer coming up from below is the answer the guest will be handed. */
  lemma ReplyGiven(cfg: Config, life: Life, i: nat, p: Proc, closed: bool, a: GuestAction, side: Side, r: SyscallResult)
    requires Takes(life, i, p, closed, a) && MemGiven(cfg, life, i, p)
    requires DrivingNow(p, side) && SideInv(ViewOf(p.mem.journal), side)
    requires r.status.Yielded? || Gives(cfg, life.states[i], life.happenings[i], r)
    ensures MemGiven(cfg, life, i + 1, Reply(cfg, p, side, side.act.call, r))
  {
    var v, p' := ViewOf(p.mem.journal), Reply(cfg, p, side, side.act.call, r);
    ReplyFrame(cfg, p, side, side.act.call, r);
    if !r.status.Yielded? {
      var result := p'.mem.quantum.value.guest.side.act.result;
      assert IsAnswer(cfg.grants, CallAt(v, Completed(v)), result, r);
      assert GivenIn(cfg, life, i, v, result);
    }
    ShorterGiven(cfg, life, i, p, p');
  }

  lemma MintGiven(cfg: Config, life: Life, i: nat, p: Proc, closed: bool, a: GuestAction, side: Side, task: TaskRecord)
    requires Takes(life, i, p, closed, a) && MemGiven(cfg, life, i, p)
    requires DrivingNow(p, side) && SideInv(ViewOf(p.mem.journal), side)
    ensures MemGiven(cfg, life, i + 1, MintAndYield(cfg, p, side, side.act.call, task))
  {
    var p' := MintAndYield(cfg, p, side, side.act.call, task);
    MintFrame(cfg, p, side, side.act.call, task);
    assert !p'.mem.quantum.value.guest.side.act.Answered?;
    ShorterGiven(cfg, life, i, p, p');
  }

  lemma LayersGiven(cfg: Config, life: Life, i: nat, p: Proc, closed: bool, side: Side, env: Env)
    requires Takes(life, i, p, closed, LayersAnswer(env)) && MemGiven(cfg, life, i, p)
    requires DrivingNow(p, side) && SideInv(ViewOf(p.mem.journal), side)
    ensures MemGiven(cfg, life, i + 1, DoLayers(cfg, p, side, env))
  {
    match Layers(cfg, p, side.act.call, env) {
      case Replies(r) => ReplyGiven(cfg, life, i, p, closed, LayersAnswer(env), side, r);
      case Mints(task) => MintGiven(cfg, life, i, p, closed, LayersAnswer(env), side, task);
      case Calls(_) => ShorterGiven(cfg, life, i, p, DoLayers(cfg, p, side, env));
    }
  }

  lemma HandlerGiven(
    cfg: Config, life: Life, i: nat, p: Proc, closed: bool,
    side: Side, handler: HandlerCall, below: Tape.Below, env: Env)
    requires Takes(life, i, p, closed, HandlerReturns(below, env)) && MemGiven(cfg, life, i, p)
    requires DrivingNow(p, side) && SideInv(ViewOf(p.mem.journal), side)
    ensures MemGiven(cfg, life, i + 1, DoHandler(cfg, p, side, handler, below, env))
  {
    match below {
      case Fails => ShorterGiven(cfg, life, i, p, DoHandler(cfg, p, side, handler, below, env));
      case Answers(r) =>
        if r.status.Yielded? && !handler.viaTask {
          var task := NewTask(cfg, p, side.act.call, r.message, env);
          MintGiven(cfg, life, i, p, closed, HandlerReturns(below, env), side, task);
        } else {
          ReplyGiven(cfg, life, i, p, closed, HandlerReturns(below, env), side, r);
        }
    }
  }

  /** What the invariant says of a running guest. */
  ghost predicate RunsSoundly(cfg: Config, p: Proc) {
    p.mem.quantum.Some? && p.mem.quantum.value.guest.Running? ==>
      var v, side := ViewOf(p.mem.journal), p.mem.quantum.value.guest.side;
      && JournalInv(cfg, p.mem.journal) && p.mem.quantum.value.revision == p.mem.journal.revision
      && SideInv(v, side)
      && (side.act.Answered? ==> StampLabels(cfg.grants, CallAt(v, Completed(v))) <= side.act.result.labels)
  }

  lemma SoundGuestsRunSoundly(cfg: Config, p: Proc, closed: bool)
    requires Inv(cfg, p, closed)
    ensures RunsSoundly(cfg, p)
  {
  }

  lemma RunningGiven(cfg: Config, life: Life, i: nat, p: Proc, closed: bool, q: Quantum, a: GuestAction)
    requires Takes(life, i, p, closed, a) && MemGiven(cfg, life, i, p)
    requires p.mem.quantum == Some(q) && q.guest.Running? && GuestEnabled(cfg, p.mem, q, a)
    requires RunsSoundly(cfg, p)
    ensures MemGiven(cfg, life, i + 1, DoGuest(cfg, p, q, a))
  {
    var side := q.guest.side;
    match a {
      case GuestAsk => AskGiven(cfg, life, i, p, q, side, cfg.guest(side.seen).value);
      case GuestStray(call) => StrayGiven(cfg, life, i, p, q, side, call);
      case GuestCommit => CommitGiven(cfg, life, i, p, q, side);
      case LayersAnswer(env) => LayersGiven(cfg, life, i, p, closed, side, env);
      case HandlerReturns(below, env) => HandlerGiven(cfg, life, i, p, closed, side, q.guest.handler.value, below, env);
      case LayersFail => ShorterGiven(cfg, life, i, p, DoGuest(cfg, p, q, a));
      case GuestEnds(_) => ShorterGiven(cfg, life, i, p, DoGuest(cfg, p, q, a));
    }
  }

  lemma BootGiven(cfg: Config, life: Life, i: nat, p: Proc, q: Quantum, a: GuestAction)
    requires |life.states| == |life.happenings| + 1 && i < |life.happenings| && MemGiven(cfg, life, i, p)
    requires p.mem.quantum == Some(q) && !q.guest.Running? && GuestEnabled(cfg, p.mem, q, a)
    ensures MemGiven(cfg, life, i + 1, DoGuest(cfg, p, q, a))
  {
    var p' := DoGuest(cfg, p, q, a);
    assert p'.mem.journal == p.mem.journal && p'.mem.quantum.Some?;
    assert p'.mem.quantum.value.guest.Running? ==> p'.mem.quantum.value.guest.side == BOOT;
    ShorterGiven(cfg, life, i, p, p');
  }

  lemma GuestGiven(cfg: Config, life: Life, i: nat, p: Proc, closed: bool, q: Quantum, a: GuestAction)
    requires RunsSoundly(cfg, p) && Takes(life, i, p, closed, a) && MemGiven(cfg, life, i, p)
    requires p.mem.quantum == Some(q) && GuestEnabled(cfg, p.mem, q, a)
    ensures MemGiven(cfg, life, i + 1, DoGuest(cfg, p, q, a))
  {
    if q.guest.Running? {
      RunningGiven(cfg, life, i, p, closed, q, a);
    } else {
      BootGiven(cfg, life, i, p, q, a);
    }
  }

  // ---- Every step -------------------------------------------------------

  ghost predicate SoundlyGiven(cfg: Config, life: Life, i: nat, p: Proc)
    requires |life.states| == |life.happenings| + 1 && i <= |life.happenings|
  {
    MemGiven(cfg, life, i, p) && LogGiven(cfg, life, i, p)
  }

  /** A restore would rebuild this very journal. */
  ghost predicate StoresItsJournal(p: Proc) {
    LastStored(p.log).Some? && StoredJournal(p) == p.mem.journal
  }

  lemma SavedStoresItsJournal(cfg: Config, p: Proc, closed: bool)
    requires Inv(cfg, p, closed)
    ensures Saved(p) ==> StoresItsJournal(p)
  {
    if Saved(p) {
      SavedJournal(cfg, p, closed);
    }
  }

  lemma LogFollowsMemory(cfg: Config, life: Life, i: nat, p: Proc)
    requires |life.states| == |life.happenings| + 1 && i <= |life.happenings|
    ensures StoresItsJournal(p) && MemGiven(cfg, life, i, p) ==> SoundlyGiven(cfg, life, i, p)
  {
  }

  lemma LogStaysGiven(cfg: Config, life: Life, i: nat, p: Proc, p': Proc)
    requires |life.states| == |life.happenings| + 1 && i < |life.happenings| && LogGiven(cfg, life, i, p)
    requires LastStored(p'.log).Some? && StoredJournal(p') == StoredJournal(p)
    ensures LogGiven(cfg, life, i + 1, p')
  {
    PrefixGiven(cfg, life, i, ViewOf(StoredJournal(p)), ViewOf(StoredJournal(p)));
  }

  lemma OtherGiven(cfg: Config, life: Life, i: nat, p: Proc, p': Proc)
    requires |life.states| == |life.happenings| + 1 && i < |life.happenings| && MemGiven(cfg, life, i, p)
    requires WellFormed(ViewOf(p'.mem.journal)) && LeavesAPrefix(p, p')
    ensures MemGiven(cfg, life, i + 1, p')
  {
    if p'.mem.quantum.Some? && p'.mem.quantum.value.guest.Running? && p'.mem.quantum.value.guest.side.act.Answered? {
      GivenStays(cfg, life, i, ViewOf(p.mem.journal), p.mem.quantum.value.guest.side.act.result);
    }
    ShorterGiven(cfg, life, i, p, p');
  }

  lemma SoundView(cfg: Config, p: Proc, closed: bool)
    requires Inv(cfg, p, closed)
    ensures MemInv(cfg, p) && WellFormed(ViewOf(p.mem.journal)) && LastStored(p.log).Some?
    ensures p.mem.quantum.Some? ==> Saved(p)
  {
  }

  lemma GuestStepSaves(cfg: Config, p: Proc, closed: bool, a: GuestAction)
    requires Enabled(cfg, p, OfGuest(a)) && Inv(cfg, Apply(cfg, p, OfGuest(a), closed), closed)
    ensures StoresItsJournal(Apply(cfg, p, OfGuest(a), closed))
  {
    GuestFrame(cfg, p, a, closed);
    SoundView(cfg, Apply(cfg, p, OfGuest(a), closed), closed);
    SavedStoresItsJournal(cfg, Apply(cfg, p, OfGuest(a), closed), closed);
  }

  /** What a step outside the quantum does to the views. */
  ghost predicate OutsideTheQuantum(p: Proc, p': Proc) {
    && LastStored(p.log).Some? && LastStored(p'.log).Some?
    && WellFormed(ViewOf(p'.mem.journal)) && LeavesAPrefix(p, p')
    && (StoresItsJournal(p') || StoredJournal(p') == StoredJournal(p))
  }

  lemma OtherStepIsOutside(cfg: Config, p: Proc, closed: bool, a: Action)
    requires MemInv(cfg, p) && LastStored(p.log).Some? && Enabled(cfg, p, a) && !a.OfGuest?
    requires Inv(cfg, Apply(cfg, p, a, closed), closed)
    ensures OutsideTheQuantum(p, Apply(cfg, p, a, closed))
  {
    StepLeavesAPrefix(cfg, p, a, closed);
    StepStoresItsJournal(cfg, p, a, closed);
    SoundView(cfg, Apply(cfg, p, a, closed), closed);
    SavedStoresItsJournal(cfg, Apply(cfg, p, a, closed), closed);
  }

  lemma OutsideGiven(cfg: Config, life: Life, i: nat, p: Proc, p': Proc)
    requires |life.states| == |life.happenings| + 1 && i < |life.happenings| && SoundlyGiven(cfg, life, i, p)
    requires OutsideTheQuantum(p, p')
    ensures SoundlyGiven(cfg, life, i + 1, p')
  {
    OtherGiven(cfg, life, i, p, p');
    if !StoresItsJournal(p') {
      LogStaysGiven(cfg, life, i, p, p');
    }
  }

  lemma GuestActionGiven(cfg: Config, life: Life, i: nat, p: Proc, closed: bool, a: GuestAction, p': Proc)
    requires RunsSoundly(cfg, p) && Takes(life, i, p, closed, a) && MemGiven(cfg, life, i, p)
    requires Enabled(cfg, p, OfGuest(a)) && p' == Apply(cfg, p, OfGuest(a), closed)
    ensures MemGiven(cfg, life, i + 1, p')
  {
    GuestGiven(cfg, life, i, p, closed, p.mem.quantum.value, a);
  }

  lemma ActionGiven(cfg: Config, life: Life, i: nat, p: Proc, closed: bool, a: Action)
    requires Inv(cfg, p, closed) && Enabled(cfg, p, a)
    requires |life.states| == |life.happenings| + 1 && i < |life.happenings|
    requires life.states[i] == State(p, closed) && life.happenings[i] == Does(a)
    requires SoundlyGiven(cfg, life, i, p)
    ensures SoundlyGiven(cfg, life, i + 1, Apply(cfg, p, a, closed))
  {
    var p' := Apply(cfg, p, a, closed);
    StepKeeps(cfg, p, a, closed);
    if a.OfGuest? {
      GuestStepSaves(cfg, p, closed, a.guest);
      SoundGuestsRunSoundly(cfg, p, closed);
      GuestActionGiven(cfg, life, i, p, closed, a.guest, p');
      LogFollowsMemory(cfg, life, i + 1, p');
    } else {
      SoundView(cfg, p, closed);
      OtherStepIsOutside(cfg, p, closed, a);
      OutsideGiven(cfg, life, i, p, p');
    }
  }

  /** A restored process has the stored journal and no quantum. */
  lemma RestoredJournal(cfg: Config, p: Proc, closed: bool)
    requires Inv(cfg, p, closed)
    ensures LastStored(p.log).Some? && StoresItsJournal(Restored(p))
    ensures Restored(p).mem.journal == StoredJournal(p) && Restored(p).mem.quantum.None?
  {
    RestoreIsSound(cfg, p);
    SavedStoresItsJournal(cfg, Restored(p), false);
  }

  lemma RebuiltGiven(cfg: Config, life: Life, i: nat, p: Proc, p': Proc)
    requires |life.states| == |life.happenings| + 1 && i < |life.happenings| && LogGiven(cfg, life, i, p)
    requires p'.mem.journal == StoredJournal(p) && p'.mem.quantum.None? && StoresItsJournal(p')
    ensures SoundlyGiven(cfg, life, i + 1, p')
  {
    PrefixGiven(cfg, life, i, ViewOf(StoredJournal(p)), ViewOf(StoredJournal(p)));
  }

  lemma NextGiven(cfg: Config, id: Identity, life: Life, i: nat)
    requires IsLife(cfg, id, life) && i < |life.happenings|
    requires SoundlyGiven(cfg, life, i, life.states[i].p)
    ensures SoundlyGiven(cfg, life, i + 1, life.states[i + 1].p)
  {
    EveryStateIsSound(cfg, id, life, i);
    NextHappens(cfg, id, life, i);
    HappeningGiven(cfg, life, i, life.states[i]);
  }

  lemma HappeningGiven(cfg: Config, life: Life, i: nat, s: State)
    requires |life.states| == |life.happenings| + 1 && i < |life.happenings| && life.states[i] == s
    requires Inv(cfg, s.p, s.closed) && CanHappen(cfg, s, life.happenings[i])
    requires SoundlyGiven(cfg, life, i, s.p)
    ensures var p' := Then(cfg, s, life.happenings[i]).p;
      SoundlyGiven(cfg, life, i + 1, p')
  {
    match life.happenings[i] {
      case Does(a) => ActionGiven(cfg, life, i, s.p, s.closed, a);
      case Closes => ClosingGiven(cfg, life, i, s.p);
      case Crashes =>
        RestoredJournal(cfg, s.p, s.closed);
        RebuiltGiven(cfg, life, i, s.p, Restored(s.p));
    }
  }

  lemma ClosingGiven(cfg: Config, life: Life, i: nat, p: Proc)
    requires |life.states| == |life.happenings| + 1 && i < |life.happenings|
    requires SoundlyGiven(cfg, life, i, p)
    ensures SoundlyGiven(cfg, life, i + 1, p)
  {
    LogStaysGiven(cfg, life, i, p, p);
    OtherGiven(cfg, life, i, p, p);
  }

  lemma CreationGiven(cfg: Config, id: Identity, life: Life)
    requires IsLife(cfg, id, life)
    ensures SoundlyGiven(cfg, life, 0, life.states[0].p)
  {
    FirstIsTheCreation(cfg, id, life);
    EmptyJournalIsSound(cfg);
    CreationIsSound(cfg, id);
    SavedStoresItsJournal(cfg, Created(id), false);
    LogFollowsMemory(cfg, life, 0, Created(id));
  }

  lemma {:induction false} LivesAreGiven(cfg: Config, id: Identity, life: Life, i: nat)
    requires IsLife(cfg, id, life) && i < |life.states|
    ensures SoundlyGiven(cfg, life, i, life.states[i].p)
    decreases i, 1
  {
    if i == 0 {
      CreationGiven(cfg, id, life);
    } else {
      LaterLivesAreGiven(cfg, id, life, i);
    }
  }

  lemma {:induction false} LaterLivesAreGiven(cfg: Config, id: Identity, life: Life, i: nat)
    requires IsLife(cfg, id, life) && 0 < i < |life.states|
    ensures SoundlyGiven(cfg, life, i, life.states[i].p)
    decreases i, 0
  {
    var before := i - 1;
    LivesAreGiven(cfg, id, life, before);
    NextGiven(cfg, id, life, before);
  }

  /** No answer is ever changed on its way to the journal. In every state of every life,
      after any forks, crashes and restores, each completed call of the view has the result
      that its handler, or a layer above it, answered while the call's intent was the tail
      of this same view: the same status, error, data and message, and the answer's own
      labels with the call's stamp, and no others. */
  lemma EveryResultWasAnswered(cfg: Config, id: Identity, life: Life, i: nat, k: nat)
    requires IsLife(cfg, id, life) && i < |life.states|
    ensures var v := ViewOf(life.states[i].p.mem.journal);
      WellFormed(v) && (k < Completed(v) ==> Given(cfg, life, i, v[..2 * k + 1], ResultAt(v, k)))
  {
    LivesAreGiven(cfg, id, life, i);
    var v := ViewOf(life.states[i].p.mem.journal);
    assert k < Completed(v) ==> GivenAt(cfg, life, i, v, k);
  }

  /** Nor on its way to the guest: what a guest has been handed in this quantum is what the
      journal holds, call by call, and what it is handed next was answered to the open call. */
  lemma GuestsAreToldWhatWasAnswered(cfg: Config, id: Identity, life: Life, i: nat, k: nat)
    requires IsLife(cfg, id, life) && i < |life.states|
    requires life.states[i].p.mem.quantum.Some? && !life.states[i].p.mem.quantum.value.guest.Unstarted?
    ensures var v, guest := ViewOf(life.states[i].p.mem.journal), life.states[i].p.mem.quantum.value.guest;
      && WellFormed(v) && |guest.side.seen| <= Completed(v)
      && (k < |guest.side.seen| ==> guest.side.seen[k] == ResultAt(v, k))
      && (guest.Running? && guest.side.act.Answered? ==> Given(cfg, life, i, v, guest.side.act.result))
  {
    LivesAreGiven(cfg, id, life, i);
    EveryStateIsSound(cfg, id, life, i);
    SeenIsRecorded(cfg, life.states[i].p, life.states[i].closed, k);
  }

  lemma SeenIsRecorded(cfg: Config, p: Proc, closed: bool, k: nat)
    requires Inv(cfg, p, closed) && p.mem.quantum.Some? && !p.mem.quantum.value.guest.Unstarted?
    ensures var v, side := ViewOf(p.mem.journal), p.mem.quantum.value.guest.side;
      && WellFormed(v) && |side.seen| <= Completed(v)
      && (k < |side.seen| ==> side.seen[k] == ResultAt(v, k))
  {
    var v, side := ViewOf(p.mem.journal), p.mem.quantum.value.guest.side;
    assert SideInv(v, side);
    if k < |side.seen| {
      assert side.seen[k] == Results(v)[k];
    }
  }

  // ---- What the layers answer -------------------------------------------

  /** How a recorded task answers its call: a pending one parks the call until it expires,
      a completed one gives its resolution's data, and a denied, failed, cancelled or expired
      one fails it with that reason. */
  predicate TaskSays(task: TaskRecord, now: int, r: SyscallResult) {
    && r.labels == {}
    && match task.state
       case TaskPending =>
         if task.expiresAt.Some? && task.expiresAt.value <= now then r.status.Failed? && r.errno.ExpiredErrno?
         else r.status.Yielded? && r.message == task.id
       case TaskCompleted => r.status.Value? && r.errno.NoErrno? && r.data == task.resolution.data
       case TaskDenied =>
         r.status.Failed? && r.errno.Denied? && (task.resolution.reason != "" ==> r.message == task.resolution.reason)
       case TaskFailed =>
         r.status.Failed? && r.errno.Internal? && (task.resolution.reason != "" ==> r.message == task.resolution.reason)
       case TaskCancelled => r.status.Failed? && r.errno.Denied?
       case TaskExpired => r.status.Failed? && r.errno.ExpiredErrno?
       case TaskApproved => false
  }

  /** The call is served above the task layer. */
  predicate IsProtocol(name: Name) {
    IsMarker(name) || name.SysNow? || name.SysRandom? || name.SysOutput? || name.SysAbort? || name.SysInput?
  }

  /** A recorded task that is not approved answers its own call, whatever the layers below
      would do; an approved one never does. */
  lemma TasksAnswerTheirCalls(cfg: Config, p: Proc, call: Syscall, env: Env, id: string)
    requires TasksInv(p) && TaskAt(p.mem, id, p.mem.journal.revision, Tail(p)) && !IsProtocol(call.name)
    ensures var task, said := p.mem.tasks[id], Layers(cfg, p, call, env);
      !task.state.TaskApproved? ==> said.Replies? && TaskSays(task, env.now, said.result)
  {
    assert FindTask(p.mem, p.mem.journal.revision, Tail(p)) == id;
  }

  /** An approved one runs the call it was minted for, under that call's own entry. */
  lemma ApprovedCallsRun(cfg: Config, p: Proc, call: Syscall, env: Env, id: string, entry: Entry)
    requires TasksInv(p) && TaskAt(p.mem, id, p.mem.journal.revision, Tail(p)) && !IsProtocol(call.name)
    requires p.mem.tasks[id].state.TaskApproved? && p.mem.tasks[id].syscall.name.Granted?
    requires Serves(cfg.grants, p.mem.tasks[id].syscall, entry)
    ensures Layers(cfg, p, call, env) == Calls(HandlerCall(p.mem.tasks[id].syscall, entry, true))
  {
    assert FindTask(p.mem, p.mem.journal.revision, Tail(p)) == id;
    GateIsExact(cfg.grants, RunTaint(p.mem), p.mem.tasks[id].syscall, true, entry);
  }

  /** A granted call without a task runs under the entry filed for it, unless its gate guards
      it. Then a task of the call is minted, pending, which expires a lifetime later. */
  lemma OthersGoBelow(cfg: Config, p: Proc, call: Syscall, env: Env, entry: Entry)
    requires !HasTask(p.mem, p.mem.journal.revision, Tail(p))
    requires call.name.Granted? && Serves(cfg.grants, call, entry)
    ensures var said := Layers(cfg, p, call, env);
      if Guarded(entry, RunTaint(p.mem)) then
        && said.Mints? && said.task.syscall == call && said.task.state.TaskPending? && said.task.id == env.freshId
        && said.task.scope == ProcessContext(p.id.session, p.id.id, p.mem.journal.revision)
        && said.task.position == Tail(p) && said.task.createdAt == env.now && said.task.tokenHash == env.tokenHash
        && said.task.expiresAt == (if cfg.taskTTL > 0 then Some(env.now + cfg.taskTTL) else None)
      else said == Calls(HandlerCall(call, entry, false))
  {
    GateIsExact(cfg.grants, RunTaint(p.mem), call, false, entry);
    NamedByOneEntry(cfg.grants, call, entry);
  }

  /** A timer without a task waits as one, which never expires, if its wait can be read; and
      the log layer answers its own calls. */
  lemma TimersWaitAndLogsAnswer(cfg: Config, p: Proc, call: Syscall, env: Env)
    requires !HasTask(p.mem, p.mem.journal.revision, Tail(p))
    ensures var said := Layers(cfg, p, call, env);
      && (call.name.SysLog? ==> said == Replies(env.reply))
      && (call.name.SysTimer? && (exists n :: Tasks.AsksToWait(call, n)) ==>
            said.Mints? && said.task.syscall == call && said.task.state.TaskPending? && said.task.expiresAt.None?
            && said.task.createdAt == env.now && said.task.position == Tail(p))
      && (call.name.SysTimer? && (forall n :: !Tasks.AsksToWait(call, n)) ==>
            said.Replies? && said.result.status.Failed? && said.result.errno.InvalidArgs?)
  {
    if Tasks.TimerSeconds(call).Some? {
      assert Tasks.AsksToWait(call, Tasks.TimerSeconds(call).value);
    }
  }

  lemma NamedByOneEntry(g: Grants, call: Syscall, entry: Entry)
    requires Serves(g, call, entry)
    ensures forall e :: Serves(g, call, e) ==> e == entry
  {
    forall e | Serves(g, call, e) ensures e == entry {
      ResolvedServes(g, call, e);
      ResolvedServes(g, call, entry);
    }
  }

  /** A call that names no granted operation fails as denied, and one whose case cannot be
      read fails as invalid: no handler sees either, and no task is minted. */
  lemma UngrantedCallsFail(cfg: Config, p: Proc, call: Syscall, env: Env)
    requires !HasTask(p.mem, p.mem.journal.revision, Tail(p))
    requires call.name.Granted? && forall e :: !Serves(cfg.grants, call, e)
    ensures var said := Layers(cfg, p, call, env);
      && said.Replies? && said.result.status.Failed?
      && said.result.errno == if Misnames(cfg.grants, call) then InvalidArgs else Denied
  {
    GateIsExact(cfg.grants, RunTaint(p.mem), call, false, Entry(Key(call.name, ""), "", {}, [], false));
  }

  /** The protocol's own layers: a marker succeeds bare, sys.input carries the labels of the
      conversation it reads, and the others answer as their layer does. */
  lemma ProtocolAnswers(cfg: Config, p: Proc, call: Syscall, env: Env)
    requires IsProtocol(call.name)
    ensures var said := Layers(cfg, p, call, env);
      && said.Replies?
      && (IsMarker(call.name) ==> said.result.status.Value? && said.result.labels == {})
      && (call.name.SysInput? ==>
           said.result.status.Value? && said.result.data == env.reply.data && said.result.labels == env.inherited)
      && (!IsMarker(call.name) && !call.name.SysInput? ==> said.result == env.reply)
  {
  }
}
