/** What holds over every run of a process: any guest, any interleaving of its executor,
    its API and its tasks, with crashes and shutdowns between any two steps. */
module ProcessSafety {
  import opened Sys
  import opened Journaled
  import opened Durable
  import opened Lineage
  import opened Replay
  import opened Process
  import opened ProcessInv
  import opened ProcessSteps
  import Store = Journal
  import Tape

  // ---- Runs -------------------------------------------------------------

  datatype State = State(p: Proc, closed: bool)

  /** A process acts, its runtime closes, or its host dies and a new one restores it. */
  datatype Happening = Does(action: Action) | Closes | Crashes

  ghost predicate CanHappen(cfg: Config, s: State, h: Happening) {
    h.Does? ==> Enabled(cfg, s.p, h.action)
  }

  ghost function Then(cfg: Config, s: State, h: Happening): State
    requires CanHappen(cfg, s, h) && LastStored(s.p.log).Some?
  {
    match h
    case Does(a) => State(Apply(cfg, s.p, a, s.closed), s.closed)
    case Closes => State(s.p, true)
    case Crashes => State(Restored(s.p), false)
  }

  datatype Life = Life(states: seq<State>, happenings: seq<Happening>)

  ghost predicate IsLife(cfg: Config, id: Identity, life: Life) {
    && |life.states| == |life.happenings| + 1
    && forall i :: 0 <= i < |life.states| ==> ComesAbout(cfg, id, life, i)
  }

  /** A life begins with the creation, and goes on by what happens in each state. */
  ghost predicate ComesAbout(cfg: Config, id: Identity, life: Life, i: nat)
    requires |life.states| == |life.happenings| + 1 && i < |life.states|
  {
    if i == 0 then life.states[0] == State(Created(id), false)
    else
      && CanHappen(cfg, life.states[i - 1], life.happenings[i - 1])
      && LastStored(life.states[i - 1].p.log).Some?
      && life.states[i] == Then(cfg, life.states[i - 1], life.happenings[i - 1])
  }

  lemma HappeningKeeps(cfg: Config, s: State, h: Happening)
    requires Inv(cfg, s.p, s.closed) && CanHappen(cfg, s, h)
    ensures Inv(cfg, Then(cfg, s, h).p, Then(cfg, s, h).closed)
  {
    match h {
      case Does(a) => StepKeeps(cfg, s.p, a, s.closed);
      case Closes =>
      case Crashes => RestoreIsSound(cfg, s.p);
    }
  }

  lemma FirstIsTheCreation(cfg: Config, id: Identity, life: Life)
    requires IsLife(cfg, id, life)
    ensures life.states[0] == State(Created(id), false)
  {
    assert ComesAbout(cfg, id, life, 0);
  }

  lemma FirstStateIsSound(cfg: Config, id: Identity, life: Life)
    requires IsLife(cfg, id, life)
    ensures Inv(cfg, life.states[0].p, life.states[0].closed)
  {
    FirstIsTheCreation(cfg, id, life);
    CreationIsSound(cfg, id);
  }

  /** What happens next in a life. */
  lemma NextHappens(cfg: Config, id: Identity, life: Life, i: nat)
    requires IsLife(cfg, id, life) && i < |life.happenings|
    ensures CanHappen(cfg, life.states[i], life.happenings[i]) && LastStored(life.states[i].p.log).Some?
    ensures life.states[i + 1] == Then(cfg, life.states[i], life.happenings[i])
  {
    assert ComesAbout(cfg, id, life, i + 1);
  }

  lemma NextStateIsSound(cfg: Config, id: Identity, life: Life, i: nat)
    requires IsLife(cfg, id, life) && i < |life.happenings|
    requires Inv(cfg, life.states[i].p, life.states[i].closed)
    ensures Inv(cfg, life.states[i + 1].p, life.states[i + 1].closed)
  {
    NextHappens(cfg, id, life, i);
    HappeningKeeps(cfg, life.states[i], life.happenings[i]);
  }

  lemma {:induction false} EveryStateIsSound(cfg: Config, id: Identity, life: Life, i: nat)
    requires IsLife(cfg, id, life) && i < |life.states|
    ensures Inv(cfg, life.states[i].p, life.states[i].closed)
    decreases i, 1
  {
    if i == 0 {
      FirstStateIsSound(cfg, id, life);
    } else {
      LaterStateIsSound(cfg, id, life, i);
    }
  }

  lemma {:induction false} LaterStateIsSound(cfg: Config, id: Identity, life: Life, i: nat)
    requires IsLife(cfg, id, life) && 0 < i < |life.states|
    ensures Inv(cfg, life.states[i].p, life.states[i].closed)
    decreases i, 0
  {
    var before := i - 1;
    EveryStateIsSound(cfg, id, life, before);
    NextStateIsSound(cfg, id, life, before);
  }

  /** Some run of the process passes through the state. */
  ghost predicate Reachable(cfg: Config, s: State) {
    exists id: Identity, life: Life, i: nat :: PassesThrough(cfg, id, life, i, s)
  }

  ghost predicate PassesThrough(cfg: Config, id: Identity, life: Life, i: nat, s: State) {
    IsLife(cfg, id, life) && i < |life.states| && life.states[i] == s
  }

  lemma ReachableIsSound(cfg: Config, s: State)
    requires Reachable(cfg, s)
    ensures Inv(cfg, s.p, s.closed)
  {
    var id: Identity, life: Life, i: nat :| PassesThrough(cfg, id, life, i, s);
    EveryStateIsSound(cfg, id, life, i);
  }

  lemma ReachableMemoryIsSound(cfg: Config, s: State)
    requires Reachable(cfg, s)
    ensures MemInv(cfg, s.p)
  {
    ReachableIsSound(cfg, s);
  }

  /** The first n happenings of a life. */
  function Until(life: Life, n: nat): Life
    requires |life.states| == |life.happenings| + 1 && n <= |life.happenings|
  {
    Life(life.states[..n + 1], life.happenings[..n])
  }

  lemma UntilIsALife(cfg: Config, id: Identity, life: Life, n: nat)
    requires IsLife(cfg, id, life) && n <= |life.happenings|
    ensures IsLife(cfg, id, Until(life, n))
  {
    var prefix := Until(life, n);
    forall i | 0 <= i < |prefix.states| ensures ComesAbout(cfg, id, prefix, i) {
      assert ComesAbout(cfg, id, life, i);
    }
  }

  /** A life goes on. */
  lemma ReachableGoesOn(cfg: Config, s: State, h: Happening)
    requires Reachable(cfg, s) && CanHappen(cfg, s, h)
    ensures LastStored(s.p.log).Some? && Reachable(cfg, Then(cfg, s, h))
  {
    ReachableIsSound(cfg, s);
    var id: Identity, life: Life, i: nat :| PassesThrough(cfg, id, life, i, s);
    UntilIsALife(cfg, id, life, i);
    LifeGoesOn(cfg, id, Until(life, i), s, h);
  }

  lemma LifeGoesOn(cfg: Config, id: Identity, u: Life, s: State, h: Happening)
    requires IsLife(cfg, id, u) && u.states[|u.states| - 1] == s
    requires CanHappen(cfg, s, h) && LastStored(s.p.log).Some?
    ensures Reachable(cfg, Then(cfg, s, h))
  {
    var longer := Life(u.states + [Then(cfg, s, h)], u.happenings + [h]);
    forall k | 0 <= k < |longer.states| ensures ComesAbout(cfg, id, longer, k) {
      if k < |u.states| {
        assert ComesAbout(cfg, id, u, k);
      }
    }
    assert PassesThrough(cfg, id, longer, |longer.states| - 1, Then(cfg, s, h));
  }

  lemma CreationIsReachable(cfg: Config, id: Identity)
    ensures Reachable(cfg, State(Created(id), false))
  {
    var life := Life([State(Created(id), false)], []);
    assert IsLife(cfg, id, life);
    assert PassesThrough(cfg, id, life, 0, life.states[0]);
  }

  // ---- The journal ------------------------------------------------------

  /** Verify succeeds in every reachable state, right after a fork or a restore too: the
      current view loads in full, in order, with intents and completions alternating, and
      every fork is at a whole call of its journal. */
  lemma JournalAlwaysVerifies(cfg: Config, s: State)
    requires Reachable(cfg, s)
    ensures var j := s.p.mem.journal;
      && (forall i :: 0 <= i < j.length ==> Store.SoundAt(j.history, j.revision, i))
      && j.forkOffset % 2 == 0 && j.forkOffset <= j.length
      && WellFormed(ViewOf(j)) && |ViewOf(j)| == j.length
  {
    ReachableIsSound(cfg, s);
    ViewIsSound(cfg, s.p.mem.journal);
    Store.IntactIffAllSound(s.p.mem.journal.history, s.p.mem.journal.revision, s.p.mem.journal.length);
  }

  /** No guest's call ever meets a different or a damaged record, after any forks,
      crashes, retries and re-drives. */
  lemma NoReachableCallDiverges(cfg: Config, s: State)
    requires Reachable(cfg, s) && Enabled(cfg, s.p, OfGuest(GuestAsk))
    ensures var side := s.p.mem.quantum.value.guest.side;
      var next := TapeNext(ViewOf(s.p.mem.journal), side.cursor, cfg.guest(side.seen).value);
      !next.Diverged? && !next.Broken?
  {
    ReachableIsSound(cfg, s);
    var side := s.p.mem.quantum.value.guest.side;
    Replay.NeverDiverges(cfg.guest, ViewOf(s.p.mem.journal), side, cfg.guest(side.seen).value);
  }

  /** What a step writes to the journal goes at its tail, under the revision that runs. */
  ghost predicate WritesAtTheTail(p: Proc, p': Proc) {
    || p'.mem.journal.history == p.mem.journal.history
    || exists rec: Record ::
         && Sound(rec, p.mem.journal.length) && rec.revision == p.mem.journal.revision
         && p.mem.quantum.Some? && p.mem.quantum.value.revision == rec.revision
         && p'.mem.journal == Step(p.mem.journal, AppendRecord(rec))
         && SyscallRecorded(rec) in p'.log
  }

  lemma AskWritesAtTheTail(cfg: Config, p: Proc, closed: bool)
    requires Inv(cfg, p, closed) && Enabled(cfg, p, OfGuest(GuestAsk))
    ensures WritesAtTheTail(p, Apply(cfg, p, OfGuest(GuestAsk), closed))
  {
    var q := p.mem.quantum.value;
    var side, v := q.guest.side, ViewOf(p.mem.journal);
    var call := cfg.guest(side.seen).value;
    ViewIsSound(cfg, p.mem.journal);
    Replay.NeverDiverges(cfg.guest, v, side, call);
    if |side.seen| == Completed(v) && !HasOpenIntent(v) {
      FreshEffect(cfg, p, q, side, call);
      WriteIsAtTheTail(p, FreshIntent(p, call), Apply(cfg, p, OfGuest(GuestAsk), closed));
    } else {
      QuietAsk(p, q, side, call);
    }
  }

  lemma QuietAsk(p: Proc, q: Quantum, side: Side, call: Syscall)
    requires Enter(ViewOf(p.mem.journal), side, call, q.revision).written == []
    ensures DoAsk(p, q, side, call).mem.journal == p.mem.journal
  {
  }

  lemma CommitWritesAtTheTail(cfg: Config, p: Proc, closed: bool)
    requires Inv(cfg, p, closed) && Enabled(cfg, p, OfGuest(GuestCommit))
    ensures WritesAtTheTail(p, Apply(cfg, p, OfGuest(GuestCommit), closed))
  {
    var q := p.mem.quantum.value;
    CommitEffect(cfg, p, q, q.guest.side);
    CommitIsNext(cfg, p, q, q.guest.side);
    var v := ViewOf(p.mem.journal);
    assert DoCommit(p, q, q.guest.side) == CommittedProc(p, q, q.guest.side, CallAt(v, Completed(v)));
    WriteIsAtTheTail(p, CompletionOf(p, q.guest.side.act.result), Apply(cfg, p, OfGuest(GuestCommit), closed));
  }

  lemma WriteIsAtTheTail(p: Proc, rec: Record, p': Proc)
    requires Sound(rec, p.mem.journal.length) && rec.revision == p.mem.journal.revision
    requires p.mem.quantum.Some? && p.mem.quantum.value.revision == rec.revision
    requires p'.log == WriteRecord(p, rec).log && p'.mem.journal == WriteRecord(p, rec).mem.journal
    ensures WritesAtTheTail(p, p')
  {
    assert rec.(revision := p.mem.journal.revision) == rec;
    assert p'.mem.journal == Step(p.mem.journal, AppendRecord(rec));
  }

  /** A step appends at most one event, and a process state event records the state the
      step leaves. */
  ghost predicate AppendsAtMostOne(p: Proc, p': Proc) {
    && p'.id == p.id && p.log <= p'.log && |p'.log| <= |p.log| + 1
    && (|p'.log| > |p.log| && p'.log[|p.log|].ProcessState? ==> p'.log[|p.log|].process == Stored(p'.id, p'.mem))
  }

  lemma ExecAppends(cfg: Config, p: Proc, e: ExecAction, closed: bool)
    requires Enabled(cfg, p, OfExec(e))
    ensures AppendsAtMostOne(p, Apply(cfg, p, OfExec(e), closed))
  {
    if e.ExecRecord? && p.mem.quantum.value.exec.ending.EndCompleted? && GuestAborted(ViewOf(p.mem.journal)) {
      SectionAppends(p, closed);
    }
  }

  lemma SectionAppends(p: Proc, closed: bool)
    ensures AppendsAtMostOne(p, RetryAbortedSection(p, closed))
  {
  }

  lemma GuestAppends(cfg: Config, p: Proc, a: GuestAction, closed: bool)
    requires Enabled(cfg, p, OfGuest(a))
    ensures AppendsAtMostOne(p, Apply(cfg, p, OfGuest(a), closed))
  {
    var q := p.mem.quantum.value;
    match a {
      case LayersAnswer(env) => LayersAppend(cfg, p, q.guest.side, env);
      case HandlerReturns(below, env) => HandlerAppends(cfg, p, q.guest.side, q.guest.handler.value, below, env);
      case GuestAsk => AskAppends(p, q, q.guest.side, cfg.guest(q.guest.side.seen).value);
      case GuestStray(call) => AskAppends(p, q, q.guest.side, call);
      case GuestCommit => CommitAppends(p, q, q.guest.side);
      case _ =>
    }
  }

  lemma LayersAppend(cfg: Config, p: Proc, side: Side, env: Env)
    requires p.mem.quantum.Some? && side.act.Driving?
    ensures AppendsAtMostOne(p, DoLayers(cfg, p, side, env))
  {
  }

  lemma HandlerAppends(cfg: Config, p: Proc, side: Side, handler: HandlerCall, below: Tape.Below, env: Env)
    requires p.mem.quantum.Some? && side.act.Driving?
    ensures AppendsAtMostOne(p, DoHandler(cfg, p, side, handler, below, env))
  {
  }

  lemma AskAppends(p: Proc, q: Quantum, side: Side, call: Syscall)
    ensures AppendsAtMostOne(p, DoAsk(p, q, side, call))
  {
  }

  lemma CommitAppends(p: Proc, q: Quantum, side: Side)
    requires side.act.Answered?
    ensures AppendsAtMostOne(p, DoCommit(p, q, side))
  {
  }

  lemma StepAppends(cfg: Config, p: Proc, a: Action, closed: bool)
    requires Enabled(cfg, p, a)
    ensures AppendsAtMostOne(p, Apply(cfg, p, a, closed))
  {
    match a {
      case OfExec(e) => ExecAppends(cfg, p, e, closed);
      case OfGuest(ga) => GuestAppends(cfg, p, ga, closed);
      case _ =>
    }
  }

  /** Append's position check never fails: only the current revision is written, by its
      own quantum, at its tail. */
  lemma AppendsFallAtTheTail(cfg: Config, s: State, a: Action)
    requires Reachable(cfg, s) && Enabled(cfg, s.p, a)
    ensures WritesAtTheTail(s.p, Apply(cfg, s.p, a, s.closed))
  {
    ReachableIsSound(cfg, s);
    match a {
      case OfExec(e) => ExecFrame(cfg, s.p, e, s.closed);
      case OfGuest(ga) => GuestWritesAtTheTail(cfg, s.p, ga, s.closed);
      case _ => ApiWritesNothing(cfg, s.p, a, s.closed);
    }
  }

  lemma ApiWritesNothing(cfg: Config, p: Proc, a: Action, closed: bool)
    requires Enabled(cfg, p, a) && (a.ApiStop? || a.ApiRetry? || a.OfTask?)
    ensures Apply(cfg, p, a, closed).mem.journal.history == p.mem.journal.history
  {
    match a {
      case ApiStop => StopFrame(p);
      case ApiRetry(restart) => RetryFrame(p, restart, closed);
      case OfTask(op) =>
    }
  }

  lemma GuestWritesAtTheTail(cfg: Config, p: Proc, a: GuestAction, closed: bool)
    requires Inv(cfg, p, closed) && Enabled(cfg, p, OfGuest(a))
    ensures WritesAtTheTail(p, Apply(cfg, p, OfGuest(a), closed))
  {
    match a {
      case GuestAsk => AskWritesAtTheTail(cfg, p, closed);
      case GuestCommit => CommitWritesAtTheTail(cfg, p, closed);
      case GuestStray(call) =>
        StrayCallsAreRefused(ViewOf(p.mem.journal), p.mem.quantum.value.guest.side, call, p.mem.quantum.value.revision);
        QuietAsk(p, p.mem.quantum.value, p.mem.quantum.value.guest.side, call);
      case _ => GuestFrame(cfg, p, a, closed);
    }
  }

  // ---- What each kind of step leaves alone ------------------------------

  /** An executor step writes no record and no task, and leaves the guest as it is or
      starts a new one. */
  lemma ExecFrame(cfg: Config, p: Proc, e: ExecAction, closed: bool)
    requires Enabled(cfg, p, OfExec(e))
    ensures var p' := Apply(cfg, p, OfExec(e), closed);
      && p'.mem.journal.history == p.mem.journal.history && p'.mem.tasks == p.mem.tasks
      && (p'.mem.quantum.Some? ==>
            p'.mem.quantum.value.guest == p.mem.quantum.value.guest || p'.mem.quantum.value.guest.Unstarted?)
      && (p'.mem.quantum.Some? && !p'.mem.quantum.value.guest.Unstarted? ==> p'.mem.journal == p.mem.journal)
      && (p'.mem.attempt != p.mem.attempt ==> p.mem.quantum.value.exec.Recording? || p.mem.quantum.value.exec.Failing?)
  {
    if e.ExecRecord? {
      RecordFrame(p, p.mem.quantum.value, closed);
    }
  }

  lemma RecordFrame(p: Proc, q: Quantum, closed: bool)
    requires p.mem.quantum == Some(q) && q.exec.Recording?
    ensures var p' := DoRecord(p, q, q.exec.ending, closed);
      && p'.mem.journal.history == p.mem.journal.history && p'.mem.tasks == p.mem.tasks
      && (p'.mem.quantum.Some? ==> p'.mem.quantum.value.guest == q.guest || p'.mem.quantum.value.guest.Unstarted?)
      && (p'.mem.quantum.Some? && !p'.mem.quantum.value.guest.Unstarted? ==> p'.mem.journal == p.mem.journal)
  {
    if q.exec.ending.EndCompleted? && GuestAborted(ViewOf(p.mem.journal)) {
      SectionFrame(p, closed);
      RecordOfAbort(p, q, closed);
    } else {
      RecordOtherwise(p, q, closed);
    }
  }

  lemma SectionFrame(p: Proc, closed: bool)
    ensures var p' := RetryAbortedSection(p, closed);
      && p'.mem.journal.history == p.mem.journal.history && p'.mem.tasks == p.mem.tasks
      && (p'.mem.quantum.Some? ==> p'.mem.quantum.value.guest.Unstarted?)
  {
  }

  lemma StopFrame(p: Proc)
    ensures var m := DoStop(p).mem;
      && m.tasks == p.mem.tasks && m.journal == p.mem.journal
      && (m.quantum.Some? ==> m.quantum == p.mem.quantum)
  {
  }

  lemma RetryFrame(p: Proc, restart: bool, closed: bool)
    ensures var m := DoRetry(p, restart, closed).mem;
      && m.tasks == p.mem.tasks && m.journal.history == p.mem.journal.history
      && (m.quantum.Some? ==> m.quantum.value.guest.Unstarted?)
  {
    RetryIsRelaunch(p, restart, closed);
  }

  /** A guest step changes nothing that a process state event records, and its own
      quantum goes on. */
  ghost predicate OnlyTheGuestMoved(p: Proc, p': Proc) {
    && Stored(p'.id, p'.mem) == Stored(p.id, p.mem)
    && p'.mem.lastFailureLength == p.mem.lastFailureLength
    && p.mem.quantum.Some? && p'.mem.quantum.Some?
    && p'.mem.quantum.value.exec == p.mem.quantum.value.exec
    && p'.mem.quantum.value.revision == p.mem.quantum.value.revision
    && p.mem.journal.length <= p'.mem.journal.length
  }

  lemma ReplyFrame(cfg: Config, p: Proc, side: Side, call: Syscall, result: SyscallResult)
    requires p.mem.quantum.Some?
    ensures var p' := Reply(cfg, p, side, call, result);
      && OnlyTheGuestMoved(p, p') && p'.mem.journal == p.mem.journal
      && p'.mem.quantum.value.guest.Running? && p'.mem.quantum.value.guest.handler.None?
  {
  }

  lemma MintFrame(cfg: Config, p: Proc, side: Side, call: Syscall, task: TaskRecord)
    requires p.mem.quantum.Some?
    ensures var p' := MintAndYield(cfg, p, side, call, task);
      && OnlyTheGuestMoved(p, p') && p'.mem.journal == p.mem.journal
      && p'.mem.quantum.value.guest.Running? && p'.mem.quantum.value.guest.handler.None?
  {
  }

  lemma GuestFrame(cfg: Config, p: Proc, a: GuestAction, closed: bool)
    requires Enabled(cfg, p, OfGuest(a))
    ensures var p' := Apply(cfg, p, OfGuest(a), closed);
      && OnlyTheGuestMoved(p, p')
      && (!a.GuestAsk? && !a.GuestCommit? && !a.GuestStray? ==> p'.mem.journal == p.mem.journal)
      && (!a.LayersAnswer? ==> !p'.mem.quantum.value.guest.Running? || p'.mem.quantum.value.guest.handler.None?)
  {
    var q := p.mem.quantum.value;
    match a {
      case GuestAsk => AskFrame(p, q, q.guest.side, cfg.guest(q.guest.side.seen).value);
      case GuestStray(call) => AskFrame(p, q, q.guest.side, call);
      case GuestCommit => CommitFrame(p, q, q.guest.side);
      case LayersAnswer(env) => LayersFrame(cfg, p, q.guest.side, env);
      case HandlerReturns(below, env) => HandlerFrame(cfg, p, q.guest.side, q.guest.handler.value, below, env);
      case _ =>
    }
  }

  lemma AskFrame(p: Proc, q: Quantum, side: Side, call: Syscall)
    requires p.mem.quantum == Some(q)
    ensures var p' := DoAsk(p, q, side, call);
      OnlyTheGuestMoved(p, p') && p'.mem.quantum.value.guest.Running? && p'.mem.quantum.value.guest.handler.None?
  {
  }

  lemma CommitFrame(p: Proc, q: Quantum, side: Side)
    requires p.mem.quantum == Some(q) && side.act.Answered?
    ensures var p' := DoCommit(p, q, side);
      OnlyTheGuestMoved(p, p') && p'.mem.quantum.value.guest.Running? && p'.mem.quantum.value.guest.handler.None?
  {
  }

  lemma LayersFrame(cfg: Config, p: Proc, side: Side, env: Env)
    requires p.mem.quantum.Some? && side.act.Driving?
    ensures var p' := DoLayers(cfg, p, side, env);
      OnlyTheGuestMoved(p, p') && p'.mem.journal == p.mem.journal
  {
    match Layers(cfg, p, side.act.call, env) {
      case Replies(result) => ReplyFrame(cfg, p, side, side.act.call, result);
      case Mints(task) => MintFrame(cfg, p, side, side.act.call, task);
      case Calls(_) =>
    }
  }

  lemma HandlerFrame(cfg: Config, p: Proc, side: Side, handler: HandlerCall, below: Tape.Below, env: Env)
    requires p.mem.quantum.Some? && side.act.Driving?
    ensures var p' := DoHandler(cfg, p, side, handler, below, env);
      && OnlyTheGuestMoved(p, p') && p'.mem.journal == p.mem.journal
      && p'.mem.quantum.value.guest.Running? && p'.mem.quantum.value.guest.handler.None?
  {
    if below.Answers? {
      ReplyFrame(cfg, p, side, side.act.call, below.result);
      MintFrame(cfg, p, side, side.act.call, NewTask(cfg, p, side.act.call, below.result.message, env));
    }
  }

  // ---- One quantum ------------------------------------------------------

  /** A process has exactly one unfinished quantum while it is queued, running or
      stopping, and none otherwise, and the quantum is its current revision's. */
  lemma OneQuantumExactlyWhileLive(cfg: Config, s: State)
    requires Reachable(cfg, s)
    ensures !s.closed ==> (s.p.mem.quantum.Some? <==> IsLive(s.p.mem.status))
    ensures s.p.mem.quantum.Some? ==>
      IsLive(s.p.mem.status) && s.p.mem.quantum.value.revision == s.p.mem.journal.revision
  {
    ReachableIsSound(cfg, s);
  }

  /** A step queues a new quantum. */
  predicate Launches(p: Proc, p': Proc) {
    p'.mem.attempt != p.mem.attempt
  }

  /** A quantum is launched only when there is none, or by its own executor as its last
      step, with its guest ended: quanta of a process never overlap. */
  lemma QuantaNeverOverlap(cfg: Config, s: State, a: Action)
    requires Reachable(cfg, s) && Enabled(cfg, s.p, a)
    requires Launches(s.p, Apply(cfg, s.p, a, s.closed))
    ensures s.p.mem.quantum.Some? ==>
      var q := s.p.mem.quantum.value;
      a.OfExec? && (q.exec.Recording? || q.exec.Failing?) && q.guest.Ended?
  {
    ReachableIsSound(cfg, s);
    match a {
      case OfExec(e) => ExecFrame(cfg, s.p, e, s.closed);
      case OfGuest(ga) => GuestFrame(cfg, s.p, ga, s.closed);
      case _ =>
    }
  }

  /** The memory of a process that was just queued. */
  predicate Afresh(p: Proc, p': Proc, closed: bool) {
    && !closed && p'.mem.attempt == p.mem.attempt + 1 && p'.mem.status.ProcessQueued?
    && !p'.mem.stopRequested && p'.mem.answer == "" && p'.mem.error == ""
    && p'.mem.quantum == Some(Quantum(p'.mem.journal.revision, Starting, Unstarted))
  }

  /** A launch starts afresh: one more attempt, queued and not asked to stop, with no answer
      or error of an earlier run, on the revision the step leaves, and all of it logged. */
  lemma LaunchesStartAfresh(cfg: Config, s: State, a: Action)
    requires Reachable(cfg, s) && Enabled(cfg, s.p, a)
    ensures var p, p' := s.p, Apply(cfg, s.p, a, s.closed);
      Launches(p, p') ==> Afresh(p, p', s.closed) && Saved(p')
  {
    ReachableIsSound(cfg, s);
    StepKeeps(cfg, s.p, a, s.closed);
    StepLaunches(cfg, s.p, a, s.closed);
    QuantaAreSaved(cfg, Apply(cfg, s.p, a, s.closed), s.closed);
  }

  lemma QuantaAreSaved(cfg: Config, p: Proc, closed: bool)
    requires Inv(cfg, p, closed)
    ensures p.mem.quantum.Some? ==> Saved(p)
  {
  }

  lemma StepLaunches(cfg: Config, p: Proc, a: Action, closed: bool)
    requires Enabled(cfg, p, a)
    ensures Launches(p, Apply(cfg, p, a, closed)) ==> Afresh(p, Apply(cfg, p, a, closed), closed)
  {
    match a {
      case OfExec(e) => ExecLaunches(cfg, p, e, closed);
      case OfGuest(ga) => GuestFrame(cfg, p, ga, closed);
      case ApiRetry(restart) => RetryIsRelaunch(p, restart, closed);
      case _ =>
    }
  }

  lemma ExecLaunches(cfg: Config, p: Proc, e: ExecAction, closed: bool)
    requires Enabled(cfg, p, OfExec(e))
    ensures Launches(p, Apply(cfg, p, OfExec(e), closed)) ==> Afresh(p, Apply(cfg, p, OfExec(e), closed), closed)
  {
    if e.ExecRecord? {
      var q := p.mem.quantum.value;
      if q.exec.ending.EndCompleted? && GuestAborted(ViewOf(p.mem.journal)) {
        SectionLaunches(p, closed);
        RecordOfAbort(p, q, closed);
      } else {
        RecordOtherwise(p, q, closed);
      }
    }
  }

  lemma SectionLaunches(p: Proc, closed: bool)
    ensures Launches(p, RetryAbortedSection(p, closed)) ==> Afresh(p, RetryAbortedSection(p, closed), closed)
  {
  }

  // ---- Steps outside the quantum ----------------------------------------

  /** An executor or API step keeps the view or forks it, and its guest, if it keeps one,
      is as it was. */
  ghost predicate LeavesAPrefix(p: Proc, p': Proc) {
    && ViewOf(p'.mem.journal) <= ViewOf(p.mem.journal)
    && (p'.mem.quantum.Some? ==>
          || p'.mem.quantum.value.guest.Unstarted?
          || (p.mem.quantum.Some? && p'.mem.quantum.value.guest == p.mem.quantum.value.guest
              && p'.mem.journal == p.mem.journal))
  }

  lemma ForkLeavesAPrefix(cfg: Config, p: Proc, offset: nat)
    requires MemInv(cfg, p) && offset <= p.mem.journal.length && offset % 2 == 0
    ensures ViewOf(Step(p.mem.journal, ForkAt(offset))) <= ViewOf(p.mem.journal)
  {
    ForkKeepsJournal(cfg, p.mem.journal, offset);
  }

  lemma SectionLeavesAPrefix(cfg: Config, p: Proc, closed: bool)
    requires MemInv(cfg, p)
    ensures LeavesAPrefix(p, RetryAbortedSection(p, closed))
  {
    if OpenSection(ViewOf(p.mem.journal)).Some? {
      OpenSectionFits(cfg, p);
      ForkLeavesAPrefix(cfg, p, OpenSection(ViewOf(p.mem.journal)).value);
    }
    SectionCuts(p, closed);
  }

  lemma SectionCuts(p: Proc, closed: bool)
    ensures var m := RetryAbortedSection(p, closed).mem;
      && (m.quantum.Some? ==> m.quantum.value.guest.Unstarted?)
      && (m.journal == p.mem.journal
          || (OpenSection(ViewOf(p.mem.journal)).Some?
              && m.journal == Step(p.mem.journal, ForkAt(OpenSection(ViewOf(p.mem.journal)).value))))
  {
    if OpenSection(ViewOf(p.mem.journal)).Some? && p.mem.abortRetries < MAX_ABORT_RETRIES {
      RedoIsRelaunch(p, closed);
      RelaunchKeepsTheJournal(p.(mem := RedoMem(p.mem, OpenSection(ViewOf(p.mem.journal)).value)), closed);
    } else {
      var error := if OpenSection(ViewOf(p.mem.journal)).None? then "guest aborted" else "no attempts left";
      assert RetryAbortedSection(p, closed) == FinishRun(p, ProcessFailed, "", error);
    }
  }

  lemma RelaunchKeepsTheJournal(p: Proc, closed: bool)
    ensures var m := Relaunch(p, closed).mem;
      m.journal == p.mem.journal && (m.quantum.Some? ==> m.quantum.value.guest.Unstarted?)
  {
  }

  lemma RetryLeavesAPrefix(cfg: Config, p: Proc, restart: bool, closed: bool)
    requires MemInv(cfg, p)
    ensures LeavesAPrefix(p, DoRetry(p, restart, closed))
  {
    ForkLeavesAPrefix(cfg, p, 0);
    if OpenSection(ViewOf(p.mem.journal)).Some? {
      OpenSectionFits(cfg, p);
      ForkLeavesAPrefix(cfg, p, OpenSection(ViewOf(p.mem.journal)).value);
    }
  }

  lemma RecordLeavesAPrefix(cfg: Config, p: Proc, q: Quantum, closed: bool)
    requires MemInv(cfg, p) && p.mem.quantum == Some(q) && q.exec.Recording?
    ensures LeavesAPrefix(p, DoRecord(p, q, q.exec.ending, closed))
  {
    if q.exec.ending.EndCompleted? && GuestAborted(ViewOf(p.mem.journal)) {
      SectionLeavesAPrefix(cfg, p, closed);
      RecordOfAbort(p, q, closed);
    } else {
      RecordOtherwise(p, q, closed);
      SameViewIsAPrefix(p, DoRecord(p, q, q.exec.ending, closed));
    }
  }

  lemma SameViewIsAPrefix(p: Proc, p': Proc)
    requires p'.mem.journal == p.mem.journal
    requires p'.mem.quantum.Some? ==>
      || p'.mem.quantum.value.guest.Unstarted?
      || (p.mem.quantum.Some? && p'.mem.quantum.value.guest == p.mem.quantum.value.guest)
    ensures LeavesAPrefix(p, p')
  {
  }

  lemma ExecLeavesAPrefix(cfg: Config, p: Proc, e: ExecAction, closed: bool)
    requires MemInv(cfg, p) && Enabled(cfg, p, OfExec(e))
    ensures LeavesAPrefix(p, Apply(cfg, p, OfExec(e), closed))
  {
    if e.ExecRecord? {
      RecordLeavesAPrefix(cfg, p, p.mem.quantum.value, closed);
    } else {
      assert Apply(cfg, p, OfExec(e), closed).mem.journal == p.mem.journal;
    }
  }

  lemma StepLeavesAPrefix(cfg: Config, p: Proc, a: Action, closed: bool)
    requires MemInv(cfg, p) && Enabled(cfg, p, a) && !a.OfGuest?
    ensures LeavesAPrefix(p, Apply(cfg, p, a, closed))
  {
    match a {
      case OfExec(e) => ExecLeavesAPrefix(cfg, p, e, closed);
      case ApiRetry(restart) => RetryLeavesAPrefix(cfg, p, restart, closed);
      case ApiStop => assert DoStop(p).mem.journal == p.mem.journal;
      case OfTask(op) => assert DoTask(p, op).mem.journal == p.mem.journal;
    }
  }

  // ---- What the log stores ----------------------------------------------

  /** The journal a restore would rebuild. */
  ghost function StoredJournal(p: Proc): Journal
    requires LastStored(p.log).Some?
  {
    var s, h := LastStored(p.log).value, FoldHistory(p.log);
    Journal(h, s.revision, s.forkOffset, RestoredLength(h, s))
  }

  lemma SavedJournal(cfg: Config, p: Proc, closed: bool)
    requires Inv(cfg, p, closed) && Saved(p)
    ensures StoredJournal(p) == p.mem.journal
  {
    RestoredLengthIsExact(cfg, p.mem.journal.history, Stored(p.id, p.mem), p.mem.journal.length);
  }

  lemma OnlyGuestsRecord(cfg: Config, p: Proc, a: Action, closed: bool)
    requires Enabled(cfg, p, a) && !a.OfGuest?
    ensures var p' := Apply(cfg, p, a, closed);
      |p'.log| == |p.log| + 1 ==> !p'.log[|p.log|].SyscallRecorded?
  {
  }

  lemma AppendedStoresItsJournal(p: Proc, p': Proc)
    requires AppendsAtMostOne(p, p') && LastStored(p.log).Some?
    requires |p'.log| == |p.log| + 1 ==> !p'.log[|p.log|].SyscallRecorded?
    ensures LastStored(p'.log).Some? && (Saved(p') || StoredJournal(p') == StoredJournal(p))
  {
    if |p'.log| > |p.log| {
      var e := p'.log[|p.log|];
      assert p'.log == p.log + [e];
      EmitFolds(p.log, e);
    } else {
      assert p'.log == p.log;
    }
  }

  /** A step outside the quantum logs the state it leaves, or what a restore would rebuild
      stays as it is. */
  lemma StepStoresItsJournal(cfg: Config, p: Proc, a: Action, closed: bool)
    requires Enabled(cfg, p, a) && !a.OfGuest? && LastStored(p.log).Some?
    ensures var p' := Apply(cfg, p, a, closed);
      LastStored(p'.log).Some? && (Saved(p') || StoredJournal(p') == StoredJournal(p))
  {
    StepAppends(cfg, p, a, closed);
    OnlyGuestsRecord(cfg, p, a, closed);
    AppendedStoresItsJournal(p, Apply(cfg, p, a, closed));
  }

  // ---- Restore ----------------------------------------------------------

  /** What a restart of the host makes of a process: one under way is interrupted, no other
      status changes, and all that outlives a quantum is as it was. */
  predicate RestartedFrom(was: Mem, now: Mem) {
    && now.status == (match was.status
                      case ProcessQueued | ProcessRunning | ProcessStopping => ProcessInterrupted
                      case other => other)
    && now.attempt == was.attempt && now.answer == was.answer && now.error == was.error && now.labels == was.labels
    && now.journal == was.journal && now.tasks == was.tasks && now.abortRetries == was.abortRetries
    && now.quantum.None? && now.taints == map[] && !now.stopRequested
  }

  /** In every reachable state of a runtime that is not closed, folding the log gives
      back the live memory, less what only a quantum uses, and a second restore changes
      nothing. */
  lemma RestoreRebuildsEveryOpenState(cfg: Config, s: State)
    requires Reachable(cfg, s) && !s.closed
    ensures LastStored(s.p.log).Some? && LastStored(Restored(s.p).log).Some?
    ensures Restored(s.p).mem == Rebooted(s.p.mem)
    ensures RestartedFrom(s.p.mem, Restored(s.p).mem)
    ensures Restored(Restored(s.p)) == Restored(s.p)
  {
    ReachableIsSound(cfg, s);
    RestoreRefinesTheLiveState(cfg, s.p, false);
    RestoreIsIdempotent(cfg, s.p);
  }

  /** The step forks the journal. */
  predicate ForksIn(p: Proc, a: Action) {
    var open := OpenSection(ViewOf(p.mem.journal)).Some?;
    || (a.ApiRetry? && (a.restart || (!p.mem.status.ProcessWaiting? && open)))
    || (a == OfExec(ExecRecord) && p.mem.quantum.Some? && p.mem.quantum.value.exec == Recording(EndCompleted)
        && GuestAborted(ViewOf(p.mem.journal)) && open && p.mem.abortRetries < MAX_ABORT_RETRIES)
  }

  lemma UnloggedForkIsLost(cfg: Config, p: Proc, a: Action)
    requires Saved(p) && Enabled(cfg, p, a) && ForksIn(p, a)
    ensures !Saved(Apply(cfg, p, a, true))
  {
    var p' := Apply(cfg, p, a, true);
    assert p'.log == p.log && p'.mem.journal.revision == p.mem.journal.revision + 1;
    assert Stored(p'.id, p'.mem).revision != Stored(p.id, p.mem).revision;
  }

  lemma SavingSaves(p: Proc)
    ensures Saved(Save(p))
  {
    EmitFolds(p.log, ProcessState(Stored(p.id, p.mem)));
  }

  /** On a closed runtime the log keeps agreeing with the memory through every step but
      one: a fork whose relaunch is refused, which changes the memory alone. */
  lemma ClosedStepsStaySavedUnlessTheyFork(cfg: Config, p: Proc, a: Action)
    requires Inv(cfg, p, true) && Saved(p) && Enabled(cfg, p, a)
    ensures Saved(Apply(cfg, p, a, true)) <==> !ForksIn(p, a)
  {
    if ForksIn(p, a) {
      UnloggedForkIsLost(cfg, p, a);
    } else {
      StepStaysSaved(cfg, p, a);
    }
  }

  lemma StepStaysSaved(cfg: Config, p: Proc, a: Action)
    requires Inv(cfg, p, true) && Saved(p) && Enabled(cfg, p, a) && !ForksIn(p, a)
    ensures Saved(Apply(cfg, p, a, true))
  {
    match a {
      case OfExec(e) => ExecStaysSaved(cfg, p, e);
      case OfGuest(ga) =>
        StepKeeps(cfg, p, a, true);
        GuestKeepsAQuantum(cfg, p, ga);
      case ApiStop =>
        if p.mem.status.ProcessWaiting? {
          SavingSaves(p.(mem := FinishedMem(p.mem, ProcessStopped, "", "context canceled")));
        } else {
          SavingSaves(p.(mem := p.mem.(stopRequested := true, status := ProcessStopping)));
        }
      case ApiRetry(restart) =>
        assert DoRetry(p, restart, true) == Idle(p);
      case OfTask(op) =>
        if DoTask(p, op) != p {
          TaskStepEffect(p, op);
          EmitFolds(p.log, TaskResolved(DoTask(p, op).mem.tasks[op.id]));
        }
    }
  }

  lemma GuestKeepsAQuantum(cfg: Config, p: Proc, a: GuestAction)
    requires Enabled(cfg, p, OfGuest(a))
    ensures Apply(cfg, p, OfGuest(a), true).mem.quantum.Some?
  {
  }

  lemma ExecStaysSaved(cfg: Config, p: Proc, e: ExecAction)
    requires Inv(cfg, p, true) && Saved(p) && Enabled(cfg, p, OfExec(e)) && !ForksIn(p, OfExec(e))
    ensures Saved(Apply(cfg, p, OfExec(e), true))
  {
    var q := p.mem.quantum.value;
    match e {
      case ExecFinish => SavingSaves(p.(mem := FinishedMem(p.mem, q.exec.status, q.exec.answer, q.exec.error)));
      case ExecMark =>
        var m := p.mem.(status := ProcessRunning, stoppable := true, quantum := Some(q.(exec := Marked)));
        SavingSaves(p.(mem := m));
      case ExecRecord => RecordStaysSaved(p, q);
      case _ =>
    }
  }

  lemma RecordStaysSaved(p: Proc, q: Quantum)
    requires Saved(p) && p.mem.quantum == Some(q) && q.exec.Recording? && !ForksIn(p, OfExec(ExecRecord))
    ensures Saved(DoRecord(p, q, q.exec.ending, true))
  {
    if q.exec.ending.EndCompleted? && GuestAborted(ViewOf(p.mem.journal)) {
      GivingUpSaves(p);
      RecordOfAbort(p, q, true);
    } else {
      RecordOtherwise(p, q, true);
    }
  }

  lemma GivingUpSaves(p: Proc)
    requires OpenSection(ViewOf(p.mem.journal)).None? || p.mem.abortRetries >= MAX_ABORT_RETRIES
    ensures Saved(RetryAbortedSection(p, true))
  {
    var error := if OpenSection(ViewOf(p.mem.journal)).None? then "guest aborted" else "no attempts left";
    assert RetryAbortedSection(p, true) == FinishRun(p, ProcessFailed, "", error);
    SavingSaves(p.(mem := FinishedMem(p.mem, ProcessFailed, "", error)));
  }
}
