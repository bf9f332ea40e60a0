/** What every step of a session keeps: its stream holds each process's own log, at most
    its latest process may run, and what a process reads of the others never changes. */
module SessionInv {
  import opened Sys
  import opened Durable
  import opened Process
  import opened ProcessInv
  import opened ProcessSteps
  import opened ProcessSafety
  import opened Session

  // ---- The invariant ----------------------------------------------------

  predicate Occupies(status: ProcessStatus) {
    IsLive(status) || status.ProcessWaiting?
  }

  ghost predicate Ordered(s: Session) {
    && (forall pid :: pid in s.order <==> pid in s.procs)
    && (forall pid :: pid in s.procs ==> s.procs[pid].id.id == pid)
    && (forall i, j :: 0 <= i < j < |s.order| && s.order[i] in s.procs && s.order[j] in s.procs ==>
          s.procs[s.order[i]].id.createdAt < s.procs[s.order[j]].id.createdAt)
  }

  /** Each process is in a state some run of it reaches. */
  ghost predicate Living(b: Binding, s: Session) {
    forall pid :: LivesOn(b, s, pid)
  }

  ghost predicate LivesOn(b: Binding, s: Session, pid: string) {
    pid in s.procs ==> Reachable(b(s.procs[pid].id), State(s.procs[pid], s.closed))
  }

  ghost predicate Logged(s: Session) {
    && (forall pid :: LogOf(s.stream, pid) == if pid in s.procs then s.procs[pid].log else [])
    && (forall pid :: pid in FoldProcesses(s.stream) <==> pid in s.procs)
    && (forall pid :: pid in s.procs ==> LastStored(s.procs[pid].log) == Some(FoldProcesses(s.stream)[pid]))
  }

  /** Only the latest process may be under way or parked, whoever is interrupted. */
  ghost predicate Exclusive(s: Session) {
    && (forall pid :: pid in s.procs && Occupies(s.procs[pid].mem.status) ==> Latest(s) == Some(pid) && s.active.Some?)
    && (s.active.Some? ==>
          && s.active.value in s.procs
          && ((s.active == Latest(s) && Occupies(s.procs[s.active.value].mem.status))
              || s.procs[s.active.value].mem.status.ProcessInterrupted?))
    && (forall pid :: pid in s.procs && Latest(s) != Some(pid) ==> Saved(s.procs[pid]))
  }

  ghost predicate SessionSound(b: Binding, s: Session) {
    Ordered(s) && Living(b, s) && Logged(s) && Exclusive(s)
  }

  // ---- The stream -------------------------------------------------------

  lemma TaggedGrows(stream: seq<Event>, pid: string, e: Payload, other: string)
    ensures stream + Tagged(pid, [e]) == stream + [Event(pid, e)]
    ensures LogOf(stream + Tagged(pid, [e]), other) ==
      if other == pid then LogOf(stream, pid) + [e] else LogOf(stream, other)
    ensures FoldProcesses(stream + Tagged(pid, [e]))
         == if e.ProcessState? then FoldProcesses(stream)[e.process.identity.id := e.process] else FoldProcesses(stream)
  {
    var longer := stream + [Event(pid, e)];
    assert Tagged(pid, [e]) == [Event(pid, e)];
    assert longer[..|longer| - 1] == stream;
  }

  /** Appending what a process logged in one step keeps the stream's parts in order. */
  lemma RecordedKeepsLogs(s: Session, pid: string, p': Proc, s': Session)
    requires Logged(s) && pid in s.procs && s.procs[pid].id.id == pid
    requires AppendsAtMostOne(s.procs[pid], p')
    requires s'.procs == s.procs[pid := p'] && s'.stream == Streamed(s.stream, pid, s.procs[pid], p')
    ensures Logged(s')
  {
    var p := s.procs[pid];
    var added := p'.log[|p.log|..];
    if added == [] {
      assert s'.stream == s.stream;
      assert p'.log == p.log;
    } else {
      var e := added[0];
      assert added == [e] && p'.log == p.log + [e];
      EmitFolds(p.log, e);
      forall other ensures LogOf(s'.stream, other) == if other in s'.procs then s'.procs[other].log else [] {
        TaggedGrows(s.stream, pid, e, other);
      }
      TaggedGrows(s.stream, pid, e, pid);
    }
  }

  lemma CreationKeepsLogs(s: Session, id: Identity, s': Session)
    requires Logged(s) && id.id !in s.procs
    requires s'.procs == s.procs[id.id := Created(id)] && s'.stream == s.stream + Tagged(id.id, Created(id).log)
    ensures Logged(s')
  {
    var e := ProcessState(Stored(id, Created(id).mem));
    assert Created(id).log == [e];
    EmitFolds([], e);
    assert [] + [e] == [e];
    forall other ensures LogOf(s'.stream, other) == if other in s'.procs then s'.procs[other].log else [] {
      TaggedGrows(s.stream, id.id, e, other);
    }
    TaggedGrows(s.stream, id.id, e, id.id);
  }

  // ---- Who may run ------------------------------------------------------

  lemma LivesAreSound(b: Binding, s: Session, pid: string)
    requires Living(b, s) && pid in s.procs
    ensures Inv(b(s.procs[pid].id), s.procs[pid], s.closed)
  {
    assert LivesOn(b, s, pid);
    ReachableIsSound(b(s.procs[pid].id), State(s.procs[pid], s.closed));
  }

  /** A process that is neither under way nor parked stays as it is, but for its tasks,
      until someone retries it. */
  lemma IdleProcessStays(cfg: Config, p: Proc, a: Action, closed: bool)
    requires Inv(cfg, p, closed) && !Occupies(p.mem.status) && Enabled(cfg, p, a) && !a.ApiRetry?
    ensures var p' := Apply(cfg, p, a, closed);
      && p'.id == p.id && p'.mem == p.mem.(tasks := p'.mem.tasks)
      && (Saved(p) ==> Saved(p'))
  {
    if a.OfTask? && DoTask(p, a.op) != p {
      TaskStepEffect(p, a.op);
      EmitFolds(p.log, TaskResolved(DoTask(p, a.op).mem.tasks[a.op.id]));
    }
  }

  /** A step makes a process occupy its session only by launching a quantum, and a launch
      is never refused into a terminal state. */
  lemma OnlyLaunchesOccupy(cfg: Config, p: Proc, a: Action, closed: bool)
    requires Inv(cfg, p, closed) && Enabled(cfg, p, a)
    ensures var p' := Apply(cfg, p, a, closed);
      && (Launches(p, p') ==> IsLive(p'.mem.status))
      && (!Launches(p, p') && Occupies(p'.mem.status) ==> Occupies(p.mem.status))
  {
    match a {
      case OfExec(e) => ExecFrame(cfg, p, e, closed); ExecOccupies(cfg, p, e, closed);
      case OfGuest(ga) => GuestFrame(cfg, p, ga, closed);
      case _ =>
    }
  }

  lemma ExecOccupies(cfg: Config, p: Proc, e: ExecAction, closed: bool)
    requires Enabled(cfg, p, OfExec(e))
    ensures var p' := Apply(cfg, p, OfExec(e), closed);
      Launches(p, p') ==> IsLive(p'.mem.status)
  {
    if e.ExecRecord? {
      RecordOccupies(p, p.mem.quantum.value, closed);
    }
  }

  lemma RecordOccupies(p: Proc, q: Quantum, closed: bool)
    requires p.mem.quantum == Some(q) && q.exec.Recording?
    ensures var p' := DoRecord(p, q, q.exec.ending, closed);
      Launches(p, p') ==> IsLive(p'.mem.status)
  {
    if q.exec.ending.EndCompleted? && GuestAborted(ViewOf(p.mem.journal)) {
      SectionOccupies(p, closed);
      RecordOfAbort(p, q, closed);
    } else {
      RecordOtherwise(p, q, closed);
    }
  }

  lemma SectionOccupies(p: Proc, closed: bool)
    ensures Launches(p, RetryAbortedSection(p, closed)) ==> IsLive(RetryAbortedSection(p, closed).mem.status)
  {
  }

  /** One process moves on to another of its states. */
  ghost predicate Moves(s: Session, s': Session, pid: string, p': Proc) {
    && pid in s.procs && p'.id == s.procs[pid].id
    && s'.order == s.order && s'.closed == s.closed && s'.procs == s.procs[pid := p']
    && s'.active == Occupied(s.active, pid, s.procs[pid], p')
  }

  lemma MoveKeepsOrder(b: Binding, s: Session, s': Session, pid: string, p': Proc)
    requires Ordered(s) && Living(b, s) && Moves(s, s', pid, p')
    requires Reachable(b(p'.id), State(p', s.closed))
    ensures Ordered(s') && Living(b, s')
  {
    forall x ensures LivesOn(b, s', x) {
      assert LivesOn(b, s, x);
    }
  }

  lemma MoveKeepsExclusive(s: Session, s': Session, pid: string, p': Proc)
    requires Ordered(s) && Exclusive(s) && Moves(s, s', pid, p')
    requires var p := s.procs[pid];
      && (Launches(p, p') ==> IsLive(p'.mem.status) && Latest(s) == Some(pid))
      && (!Launches(p, p') && Occupies(p'.mem.status) ==> Occupies(p.mem.status))
      && (Latest(s) != Some(pid) ==> p'.mem == p.mem.(tasks := p'.mem.tasks) && Saved(p'))
    ensures Exclusive(s')
  {
    if Latest(s) == Some(pid) {
      LatestMoves(s, s', pid, p');
    } else {
      EarlierMoves(s, s', pid, p');
    }
  }

  lemma LatestMoves(s: Session, s': Session, pid: string, p': Proc)
    requires Exclusive(s) && Moves(s, s', pid, p') && Latest(s) == Some(pid)
    requires var p := s.procs[pid];
      && (Launches(p, p') ==> IsLive(p'.mem.status))
      && (!Launches(p, p') && Occupies(p'.mem.status) ==> Occupies(p.mem.status))
    ensures Exclusive(s')
  {
    assert Latest(s') == Some(pid);
    forall x | x in s'.procs && Occupies(s'.procs[x].mem.status) ensures x == pid && s'.active.Some? {
      assert Occupies(s.procs[x].mem.status) || Launches(s.procs[pid], p');
    }
  }

  lemma EarlierMoves(s: Session, s': Session, pid: string, p': Proc)
    requires Exclusive(s) && Moves(s, s', pid, p') && Latest(s) != Some(pid)
    requires p'.mem == s.procs[pid].mem.(tasks := p'.mem.tasks) && Saved(p')
    ensures Exclusive(s')
  {
    assert Latest(s') == Latest(s) && s'.active == s.active;
    forall x | x in s'.procs && Occupies(s'.procs[x].mem.status) ensures Latest(s') == Some(x) && s'.active.Some? {
      assert Occupies(s.procs[x].mem.status);
    }
  }

  lemma ActMoves(b: Binding, s: Session, pid: string, a: Action, p': Proc)
    requires SessionSound(b, s) && CanDo(b, s, Acts(pid, a))
    requires p' == Apply(b(s.procs[pid].id), s.procs[pid], a, s.closed)
    ensures Moves(s, AfterAct(b, s, pid, a), pid, p') && Reachable(b(p'.id), State(p', s.closed))
    ensures AppendsAtMostOne(s.procs[pid], p')
    ensures var p := s.procs[pid];
      && (Launches(p, p') ==> IsLive(p'.mem.status) && Latest(s) == Some(pid))
      && (!Launches(p, p') && Occupies(p'.mem.status) ==> Occupies(p.mem.status))
      && (Latest(s) != Some(pid) ==> p'.mem == p.mem.(tasks := p'.mem.tasks) && Saved(p'))
  {
    var p := s.procs[pid];
    var cfg := b(p.id);
    StepAppends(cfg, p, a, s.closed);
    assert LivesOn(b, s, pid);
    ReachableGoesOn(cfg, State(p, s.closed), Does(a));
    LivesAreSound(b, s, pid);
    OnlyLaunchesOccupy(cfg, p, a, s.closed);
    if Latest(s) != Some(pid) {
      IdleProcessStays(cfg, p, a, s.closed);
    }
  }

  lemma ActKeeps(b: Binding, s: Session, pid: string, a: Action)
    requires SessionSound(b, s) && CanDo(b, s, Acts(pid, a))
    ensures SessionSound(b, AfterAct(b, s, pid, a))
  {
    var p', s' := Apply(b(s.procs[pid].id), s.procs[pid], a, s.closed), AfterAct(b, s, pid, a);
    ActMoves(b, s, pid, a, p');
    MoveKeepsOrder(b, s, s', pid, p');
    MoveKeepsExclusive(s, s', pid, p');
    RecordedKeepsLogs(s, pid, p', s');
  }

  lemma CreationKeepsOrder(s: Session, s': Session, id: Identity)
    requires Ordered(s) && id.id !in s.procs
    requires forall pid :: pid in s.procs ==> s.procs[pid].id.createdAt < id.createdAt
    requires s'.order == s.order + [id.id] && s'.procs == s.procs[id.id := Created(id)]
    ensures Ordered(s')
  {
    forall i, j | 0 <= i < j < |s'.order| && s'.order[i] in s'.procs && s'.order[j] in s'.procs
      ensures s'.procs[s'.order[i]].id.createdAt < s'.procs[s'.order[j]].id.createdAt
    {
      assert s'.order[i] == s.order[i] && s.order[i] in s.procs;
      if j < |s.order| { assert s'.order[j] == s.order[j] && s.order[j] in s.procs; }
    }
  }

  lemma CreationKeepsLives(b: Binding, s: Session, s': Session, id: Identity)
    requires Living(b, s) && !s.closed && !s'.closed && s'.procs == s.procs[id.id := Created(id)]
    ensures Living(b, s')
  {
    CreationIsReachable(b(id), id);
    forall x ensures LivesOn(b, s', x) {
      assert LivesOn(b, s, x);
    }
  }

  lemma CreationKeeps(b: Binding, s: Session, id: Identity)
    requires SessionSound(b, s) && CanDo(b, s, Creates(id))
    ensures SessionSound(b, AfterDeed(b, s, Creates(id)))
  {
    var s' := AfterDeed(b, s, Creates(id));
    CreationKeepsLogs(s, id, s');
    CreationKeepsOrder(s, s', id);
    CreationKeepsLives(b, s, s', id);
    CreationKeepsExclusive(b, s, s', id);
  }

  lemma CreationKeepsExclusive(b: Binding, s: Session, s': Session, id: Identity)
    requires Living(b, s) && Exclusive(s) && CanCreate(s) && id.id !in s.procs
    requires s'.order == s.order + [id.id] && s'.procs == s.procs[id.id := Created(id)] && s'.active == Some(id.id)
    ensures Exclusive(s')
  {
    forall pid | pid in s.procs ensures Saved(s.procs[pid]) && !Occupies(s.procs[pid].mem.status) {
      LivesAreSound(b, s, pid);
    }
  }

  // ---- Reboot -----------------------------------------------------------

  ghost predicate Sorted(order: seq<string>, ids: map<string, Identity>) {
    && (forall pid :: pid in order ==> pid in ids)
    && (forall i, j :: 0 <= i < j < |order| ==> CreatedBefore(ids[order[i]], ids[order[j]]))
  }

  /** Two ids agree on their first n characters. */
  predicate Agree(a: string, b: string, n: nat) {
    n <= |a| && n <= |b| && a[..n] == b[..n]
  }

  /** Ids are in dictionary order: the lesser has the lesser character where they first
      differ, or ends there. */
  lemma {:induction false} IdsAreInDictionaryOrder(a: string, b: string)
    ensures IdLess(a, b) <==>
      exists n: nat :: Agree(a, b, n) && n < |b| && (n == |a| || (n < |a| && a[n] < b[n]))
    decreases |b|
  {
    if a != [] && b != [] && a[0] == b[0] {
      IdsAreInDictionaryOrder(a[1..], b[1..]);
      ConsAgrees(a, b);
    } else {
      assert Agree(a, b, 0);
    }
  }

  lemma ConsAgrees(a: string, b: string)
    requires a != [] && b != [] && a[0] == b[0]
    ensures forall n: nat :: Agree(a[1..], b[1..], n) ==> Agree(a, b, n + 1)
    ensures forall n: nat :: Agree(a, b, n) && n > 0 ==> Agree(a[1..], b[1..], n - 1)
  {
    forall n: nat | Agree(a[1..], b[1..], n) ensures Agree(a, b, n + 1) {
      assert a[..n + 1] == [a[0]] + a[1..][..n] && b[..n + 1] == [b[0]] + b[1..][..n];
    }
    forall n: nat | Agree(a, b, n) && n > 0 ensures Agree(a[1..], b[1..], n - 1) {
      assert a[1..][..n - 1] == a[..n][1..] && b[1..][..n - 1] == b[..n][1..];
    }
  }

  lemma {:induction false} IdLessIsAsymmetric(a: string, b: string)
    requires IdLess(a, b)
    ensures !IdLess(b, a)
    decreases |b|
  {
    if a != [] && a[0] == b[0] {
      IdLessIsAsymmetric(a[1..], b[1..]);
    }
  }

  lemma CreatedBeforeIsAsymmetric(a: Identity, b: Identity)
    requires CreatedBefore(a, b)
    ensures !CreatedBefore(b, a)
  {
    if a.createdAt == b.createdAt {
      IdLessIsAsymmetric(a.id, b.id);
    }
  }

  lemma EmptyTogether(a: seq<string>, b: seq<string>)
    requires forall pid :: pid in a <==> pid in b
    ensures a == [] <==> b == []
  {
    if a != [] {
      var x := a[0];
      assert x in a;
    }
    if b != [] {
      var y := b[0];
      assert y in b;
    }
  }

  lemma {:induction false} CreationOrderIsUnique(a: seq<string>, b: seq<string>, ids: map<string, Identity>)
    requires Sorted(a, ids) && Sorted(b, ids) && forall pid :: pid in a <==> pid in b
    ensures a == b
  {
    EmptyTogether(a, b);
    if a != [] {
      var x, y := a[|a| - 1], b[|b| - 1];
      LastIsLatest(a, b, ids);
      var fa, fb := a[..|a| - 1], b[..|b| - 1];
      assert a == fa + [x] && b == fb + [x];
      NamedOnce(a, ids);
      NamedOnce(b, ids);
      forall pid ensures pid in fa <==> pid in fb {
        assert pid in fa ==> pid in a && pid != x;
        assert pid in fb ==> pid in b && pid != x;
      }
      CreationOrderIsUnique(fa, fb, ids);
    }
  }

  lemma NamedOnce(a: seq<string>, ids: map<string, Identity>)
    requires Sorted(a, ids)
    ensures Distinct(a)
  {
    forall i, j | 0 <= i < j < |a| ensures a[i] != a[j] {
      CreatedBeforeIsAsymmetric(ids[a[i]], ids[a[j]]);
    }
  }

  /** Two lists of the same names in creation order end with the same one. */
  lemma LastIsLatest(a: seq<string>, b: seq<string>, ids: map<string, Identity>)
    requires Sorted(a, ids) && Sorted(b, ids) && (forall pid :: pid in a <==> pid in b) && a != [] && b != []
    ensures a[|a| - 1] == b[|b| - 1]
  {
    var x, y := a[|a| - 1], b[|b| - 1];
    if x != y {
      assert x in b && y in a;
      var i :| 0 <= i < |a| && a[i] == y;
      var j :| 0 <= j < |b| && b[j] == x;
      assert CreatedBefore(ids[a[i]], ids[a[|a| - 1]]) && CreatedBefore(ids[b[j]], ids[b[|b| - 1]]);
      CreatedBeforeIsAsymmetric(ids[x], ids[y]);
    }
  }

  lemma StoredIdentity(b: Binding, s: Session, pid: string)
    requires Living(b, s) && Logged(s) && pid in s.procs
    ensures FoldProcesses(s.stream)[pid].identity == s.procs[pid].id
  {
    LivesAreSound(b, s, pid);
  }

  function Identities(s: Session): map<string, Identity> {
    map pid | pid in s.procs :: s.procs[pid].id
  }

  lemma FoldedIdentities(b: Binding, s: Session, order: seq<string>)
    requires Living(b, s) && Logged(s) && InCreationOrder(order, FoldProcesses(s.stream))
    ensures Sorted(order, Identities(s)) && forall pid :: pid in order <==> pid in s.procs
  {
    forall i, j | 0 <= i < j < |order| ensures CreatedBefore(Identities(s)[order[i]], Identities(s)[order[j]]) {
      StoredIdentity(b, s, order[i]);
      StoredIdentity(b, s, order[j]);
    }
  }

  /** A restart keeps the order of a session's processes if and only if they were created
      in the order of their stored times, and of their ids among equal times. */
  lemma RebootKeepsTheOrderExactly(b: Binding, s: Session, order: seq<string>)
    requires (forall pid :: pid in s.order <==> pid in s.procs) && Living(b, s) && Logged(s)
    requires InCreationOrder(order, FoldProcesses(s.stream))
    ensures order == s.order <==> Sorted(s.order, Identities(s))
  {
    FoldedIdentities(b, s, order);
    if Sorted(s.order, Identities(s)) {
      CreationOrderIsUnique(order, s.order, Identities(s));
    }
  }

  /** Creation times increase, so the folded list is the live one. */
  lemma RebootKeepsTheOrder(b: Binding, s: Session, order: seq<string>)
    requires Ordered(s) && Living(b, s) && Logged(s) && InCreationOrder(order, FoldProcesses(s.stream))
    ensures order == s.order
  {
    LiveOrderIsSorted(s);
    RebootKeepsTheOrderExactly(b, s, order);
  }

  lemma LiveOrderIsSorted(s: Session)
    requires Ordered(s)
    ensures Sorted(s.order, Identities(s))
  {
  }

  /** Any reachable session can be restored. */
  lemma RebootIsAlwaysPossible(b: Binding, s: Session)
    requires Ordered(s) && Living(b, s) && Logged(s)
    ensures CanDo(b, s, Reboots(s.order))
  {
    var stored := FoldProcesses(s.stream);
    forall i, j | 0 <= i < j < |s.order|
      ensures CreatedBefore(stored[s.order[i]].identity, stored[s.order[j]].identity)
    {
      StoredIdentity(b, s, s.order[i]);
      StoredIdentity(b, s, s.order[j]);
    }
  }

  ghost predicate AllStored(procs: map<string, Proc>) {
    forall pid :: pid in procs ==> LastStored(procs[pid].log).Some?
  }

  /** The processes once some of them have been restored. */
  ghost function PartlyRestored(procs: map<string, Proc>, ids: seq<string>): map<string, Proc>
    requires AllStored(procs)
  {
    map pid | pid in procs :: if pid in ids then RestoredFrom(procs[pid].log) else procs[pid]
  }

  lemma RestoreOneMore(procs: map<string, Proc>, ids: seq<string>, pid: string)
    requires AllStored(procs) && pid in procs && pid !in ids
    ensures PartlyRestored(procs, ids)[pid] == procs[pid]
    ensures PartlyRestored(procs, ids + [pid]) == PartlyRestored(procs, ids)[pid := RestoredFrom(procs[pid].log)]
  {
  }

  /** The session once the first n processes have been restored. */
  ghost function PartlyRebooted(s: Session, n: nat): Session
    requires AllStored(s.procs) && LogsMatch(s) && n <= |s.order|
  {
    s.(procs := PartlyRestored(s.procs, s.order[..n]), stream := RebootedStream(s.stream, s.order[..n]))
  }

  ghost predicate LogsMatch(s: Session) {
    forall pid :: pid in s.order ==> pid in s.procs && LogOf(s.stream, pid) == s.procs[pid].log
  }

  lemma RestoreAppends(b: Binding, s: Session, pid: string)
    requires Living(b, s) && pid in s.procs
    ensures LastStored(s.procs[pid].log).Some?
    ensures AppendsAtMostOne(s.procs[pid], RestoredFrom(s.procs[pid].log))
  {
    LivesAreSound(b, s, pid);
  }

  lemma PartialRebootStream(b: Binding, s: Session, n: nat)
    requires AllStored(s.procs) && LogsMatch(s) && Living(b, s) && n < |s.order|
    ensures var p := s.procs[s.order[n]];
      PartlyRebooted(s, n + 1).stream == Streamed(PartlyRebooted(s, n).stream, s.order[n], p, RestoredFrom(p.log))
  {
    RestoreAppends(b, s, s.order[n]);
    var longer := s.order[..n + 1];
    assert longer[..|longer| - 1] == s.order[..n];
  }

  predicate Distinct(order: seq<string>) {
    forall i, j :: 0 <= i < j < |order| ==> order[i] != order[j]
  }

  /** What the partial reboots rest on. */
  ghost predicate Rebootable(b: Binding, s: Session) {
    && AllStored(s.procs) && LogsMatch(s) && Distinct(s.order) && Living(b, s)
    && forall pid :: pid in s.procs ==> s.procs[pid].id.id == pid
  }

  lemma NextRebootProcs(b: Binding, s: Session, n: nat)
    requires Rebootable(b, s) && n < |s.order|
    ensures var pid, before := s.order[n], PartlyRebooted(s, n);
      && pid in before.procs && before.procs[pid] == s.procs[pid]
      && PartlyRebooted(s, n + 1).procs == before.procs[pid := RestoredFrom(s.procs[pid].log)]
  {
    assert s.order[..n + 1] == s.order[..n] + [s.order[n]];
    RestoreOneMore(s.procs, s.order[..n], s.order[n]);
  }

  lemma NextRebootIsLogged(b: Binding, s: Session, n: nat)
    requires Rebootable(b, s) && n < |s.order| && Logged(PartlyRebooted(s, n))
    ensures Logged(PartlyRebooted(s, n + 1))
  {
    var pid := s.order[n];
    NextRebootProcs(b, s, n);
    RestoreAppends(b, s, pid);
    PartialRebootStream(b, s, n);
    RecordedKeepsLogs(
      PartlyRebooted(s, n), pid, RestoredFrom(s.procs[pid].log), PartlyRebooted(s, n + 1));
  }

  lemma {:induction false} PartialRebootsAreLogged(b: Binding, s: Session, n: nat)
    requires Rebootable(b, s) && Logged(s) && n <= |s.order|
    ensures Logged(PartlyRebooted(s, n))
  {
    if n == 0 {
      assert PartlyRebooted(s, 0).procs == s.procs;
      SameLogs(s, PartlyRebooted(s, 0));
    } else {
      PartialRebootsAreLogged(b, s, n - 1);
      NextRebootIsLogged(b, s, n - 1);
    }
  }

  lemma {:induction false} FirstActiveIsFirst(order: seq<string>, stored: map<string, StoredProcess>)
    ensures match FirstActive(order, stored)
      case None => forall pid :: pid in order && pid in stored ==> !IsActive(stored[pid].status)
      case Some(a) => exists i :: IsFirstActive(order, stored, i) && order[i] == a
  {
    if order != [] && !(order[0] in stored && IsActive(stored[order[0]].status)) {
      FirstActiveIsFirst(order[1..], stored);
      if FirstActive(order, stored).Some? {
        var i :| IsFirstActive(order[1..], stored, i) && order[1..][i] == FirstActive(order, stored).value;
        assert IsFirstActive(order, stored, i + 1);
      }
    } else if order != [] {
      assert IsFirstActive(order, stored, 0);
    }
  }

  predicate IsFirstActive(order: seq<string>, stored: map<string, StoredProcess>, i: int) {
    && 0 <= i < |order| && order[i] in stored && IsActive(stored[order[i]].status)
    && forall j :: 0 <= j < i && order[j] in stored ==> !IsActive(stored[order[j]].status)
  }

  lemma RebootKeepsLives(b: Binding, s: Session, pid: string)
    requires SessionSound(b, s) && pid in s.procs
    ensures LastStored(s.procs[pid].log).Some?
    ensures var p, p' := s.procs[pid], RestoredFrom(s.procs[pid].log);
      && p'.id == p.id && Reachable(b(p.id), State(p', false)) && Saved(p')
      && p'.mem.status == RestoredStatus(FoldProcesses(s.stream)[pid].status)
  {
    var p := s.procs[pid];
    LivesAreSound(b, s, pid);
    assert LivesOn(b, s, pid);
    ReachableGoesOn(b(p.id), State(p, s.closed), Crashes);
    ReachableIsSound(b(p.id), State(Restored(p), false));
  }

  /** The restored session is as exclusive: nothing is under way, and only the latest can
      be parked. */
  lemma RebootKeepsExclusive(s: Session, s': Session)
    requires Ordered(s) && Logged(s) && Exclusive(s)
    requires s'.order == s.order && s'.procs.Keys == s.procs.Keys
    requires forall pid :: pid in s.procs ==>
      s'.procs[pid].mem.status == RestoredStatus(FoldProcesses(s.stream)[pid].status) && Saved(s'.procs[pid])
    requires s'.active == FirstActive(s.order, FoldProcesses(s.stream))
    ensures Exclusive(s')
  {
    var stored := FoldProcesses(s.stream);
    FirstActiveIsFirst(s.order, stored);
    forall pid | pid in s'.procs && Occupies(s'.procs[pid].mem.status)
      ensures Latest(s') == Some(pid) && s'.active.Some?
    {
      if Latest(s) != Some(pid) { EarlierStoredStatus(s, pid); }
      assert IsActive(stored[pid].status) && pid in s.order;
    }
    if s'.active.Some? && s'.active != Latest(s') {
      EarlierStoredStatus(s, s'.active.value);
    }
  }

  /** An earlier process is stored as it stands, and it is not under way or parked. */
  lemma EarlierStoredStatus(s: Session, pid: string)
    requires Logged(s) && Exclusive(s) && pid in s.procs && Latest(s) != Some(pid)
    ensures FoldProcesses(s.stream)[pid].status == s.procs[pid].mem.status
    ensures !Occupies(s.procs[pid].mem.status)
  {
    assert Saved(s.procs[pid]);
  }

  /** A restored process is the live one's, restored from its own part of the stream. */
  lemma RebootProcs(b: Binding, s: Session, order: seq<string>)
    requires SessionSound(b, s) && CanDo(b, s, Reboots(order))
    ensures order == s.order && AfterReboot(s, order).procs.Keys == s.procs.Keys
    ensures forall pid :: pid in s.procs ==>
      LastStored(s.procs[pid].log).Some? && AfterReboot(s, order).procs[pid] == RestoredFrom(s.procs[pid].log)
  {
    RebootKeepsTheOrder(b, s, order);
    LogsAreStored(b, s);
    RestoredProcs(s);
  }

  lemma RestoredProcs(s: Session)
    requires Ordered(s) && LogsMatch(s) && AllStored(s.procs)
    requires forall pid :: pid in s.order ==> LastStored(LogOf(s.stream, pid)).Some?
    ensures AfterReboot(s, s.order).procs.Keys == s.procs.Keys
    ensures forall pid :: pid in s.procs ==> AfterReboot(s, s.order).procs[pid] == RestoredFrom(s.procs[pid].log)
  {
  }

  lemma LogsAreStored(b: Binding, s: Session)
    requires Ordered(s) && Living(b, s) && Logged(s)
    ensures Rebootable(b, s)
  {
    forall pid | pid in s.procs ensures LastStored(s.procs[pid].log).Some? {
      LivesAreSound(b, s, pid);
    }
  }

  lemma RebootKeepsLogs(b: Binding, s: Session, s': Session)
    requires Ordered(s) && Living(b, s) && Logged(s)
    requires s'.procs.Keys == s.procs.Keys && s'.stream == RebootedStream(s.stream, s.order)
    requires forall pid :: pid in s.procs ==>
      LastStored(s.procs[pid].log).Some? && s'.procs[pid] == RestoredFrom(s.procs[pid].log)
    ensures Logged(s')
  {
    LogsAreStored(b, s);
    PartialRebootsAreLogged(b, s, |s.order|);
    WholeReboot(s, s');
    SameLogs(PartlyRebooted(s, |s.order|), s');
  }

  lemma WholeReboot(s: Session, s': Session)
    requires AllStored(s.procs) && LogsMatch(s) && forall pid :: pid in s.procs ==> pid in s.order
    requires s'.procs.Keys == s.procs.Keys && s'.stream == RebootedStream(s.stream, s.order)
    requires forall pid :: pid in s.procs ==> s'.procs[pid] == RestoredFrom(s.procs[pid].log)
    ensures PartlyRebooted(s, |s.order|).procs == s'.procs && PartlyRebooted(s, |s.order|).stream == s'.stream
  {
    assert s.order[..|s.order|] == s.order;
    AllRestored(s.procs, s.order, s'.procs);
  }

  lemma AllRestored(procs: map<string, Proc>, order: seq<string>, procs': map<string, Proc>)
    requires AllStored(procs) && forall pid :: pid in procs ==> pid in order
    requires procs'.Keys == procs.Keys && forall pid :: pid in procs ==> procs'[pid] == RestoredFrom(procs[pid].log)
    ensures PartlyRestored(procs, order) == procs'
  {
  }

  lemma SameLogs(s: Session, s': Session)
    requires Logged(s) && s'.procs == s.procs && s'.stream == s.stream
    ensures Logged(s')
  {
  }

  lemma RebootKeeps(b: Binding, s: Session, order: seq<string>)
    requires SessionSound(b, s) && CanDo(b, s, Reboots(order))
    ensures SessionSound(b, AfterReboot(s, order))
  {
    var s' := AfterReboot(s, order);
    RebootProcs(b, s, order);
    forall pid | pid in s.procs
      ensures var p, p' := s.procs[pid], s'.procs[pid];
        && p'.id == p.id && Reachable(b(p.id), State(p', false)) && Saved(p')
        && p'.mem.status == RestoredStatus(FoldProcesses(s.stream)[pid].status)
    {
      RebootKeepsLives(b, s, pid);
    }
    RebootKeepsLogs(b, s, s');
    RebootKeepsExclusive(s, s');
    RestoredLives(b, s, s');
  }

  lemma RestoredLives(b: Binding, s: Session, s': Session)
    requires Ordered(s) && s'.order == s.order && s'.procs.Keys == s.procs.Keys && !s'.closed
    requires forall pid :: pid in s.procs ==>
      s'.procs[pid].id == s.procs[pid].id && Reachable(b(s.procs[pid].id), State(s'.procs[pid], false))
    ensures Ordered(s') && Living(b, s')
  {
  }

  lemma DeedKeeps(b: Binding, s: Session, d: Deed)
    requires SessionSound(b, s) && CanDo(b, s, d)
    ensures SessionSound(b, AfterDeed(b, s, d))
  {
    match d {
      case Creates(id) => CreationKeeps(b, s, id);
      case Acts(pid, a) => ActKeeps(b, s, pid, a);
      case ShutsDown => ShutdownKeeps(b, s);
      case Reboots(order) => RebootKeeps(b, s, order);
    }
  }

  lemma ShutdownKeeps(b: Binding, s: Session)
    requires SessionSound(b, s)
    ensures SessionSound(b, s.(closed := true))
  {
    ShutdownKeepsLives(b, s);
    SameButClosed(s);
  }

  lemma ShutdownKeepsLives(b: Binding, s: Session)
    requires Living(b, s)
    ensures Living(b, s.(closed := true))
  {
    forall pid ensures LivesOn(b, s.(closed := true), pid) {
      assert LivesOn(b, s, pid);
      if pid in s.procs {
        ReachableGoesOn(b(s.procs[pid].id), State(s.procs[pid], s.closed), Closes);
      }
    }
  }

  lemma SameButClosed(s: Session)
    requires Ordered(s) && Logged(s) && Exclusive(s)
    ensures Ordered(s.(closed := true)) && Logged(s.(closed := true)) && Exclusive(s.(closed := true))
  {
    SameLogs(s, s.(closed := true));
    StillExclusive(s, s.(closed := true));
  }

  lemma StillExclusive(s: Session, s': Session)
    requires Exclusive(s) && s'.procs == s.procs && s'.order == s.order && s'.active == s.active
    ensures Exclusive(s')
  {
  }
}
