/** What every step of a process keeps, and the proof that it does. */
module ProcessInv {
  import opened Sys
  import opened Journaled
  import opened Durable
  import opened History
  import opened Lineage
  import opened Replay
  import opened Flow
  import opened Capability
  import opened Process
  import Tape

  // ---- The invariant ----------------------------------------------------

  /** The current revision is placed in its history, and its view is a prefix of the
      guest's own run. */
  ghost predicate JournalInv(cfg: Config, j: Journal) {
    && j.revision >= 1
    && JournalIsPlaced(j)
    && Conforms(cfg.guest, ViewOf(j))
    && Stamped(cfg.grants, ViewOf(j))
  }

  /** Every recorded result carries the labels its call is stamped with. */
  ghost predicate Stamped(g: Grants, v: seq<Record>)
    requires WellFormed(v)
  {
    forall k: nat :: k < Completed(v) ==> StampedAt(g, v, k)
  }

  predicate StampedAt(g: Grants, v: seq<Record>, k: nat)
    requires WellFormed(v) && k < Completed(v)
  {
    StampLabels(g, CallAt(v, k)) <= ResultAt(v, k).labels
  }

  /** The labels include every label a completed call carried. */
  ghost predicate KeepsLabels(v: seq<Record>, labels: set<Label>)
    requires WellFormed(v)
  {
    forall j: nat, l :: Carried(v, j, l) ==> l in labels
  }

  /** A stored state is sound over a history, with a journal of length n. */
  ghost predicate StoredInv(cfg: Config, h: Flat, s: StoredProcess, n: nat) {
    var j := Journal(h, s.revision, s.forkOffset, n);
    && JournalInv(cfg, j)
    && s.abortRetries <= MAX_ABORT_RETRIES
    && (s.status.ProcessCompleted? ==> KeepsLabels(ViewOf(j), s.labels))
  }

  /** The log alone rebuilds the history and the tasks, and its last stored state is
      sound over them. */
  ghost predicate LogInv(cfg: Config, p: Proc) {
    && p.mem.journal.history == FoldHistory(p.log)
    && p.mem.tasks == FoldTasks(p.log)
    && LastStored(p.log).Some?
    && LastStored(p.log).value.identity == p.id
    && exists n: nat :: StoredInv(cfg, p.mem.journal.history, LastStored(p.log).value, n)
  }

  /** The last stored state is the one in memory. */
  ghost predicate Saved(p: Proc) {
    LastStored(p.log) == Some(Stored(p.id, p.mem))
  }

  ghost predicate MemInv(cfg: Config, p: Proc) {
    && StoredInv(cfg, p.mem.journal.history, Stored(p.id, p.mem), p.mem.journal.length)
    && p.mem.lastFailureLength <= p.mem.journal.length
  }

  /** A history holds an intent of a revision at a position. */
  ghost predicate Recorded(h: Flat, position: nat, revision: nat, call: Syscall) {
    exists i: nat :: i < |At(h, position)|
      && At(h, position)[i].revision == revision
      && At(h, position)[i].kind.Intent?
      && At(h, position)[i].syscall == Some(call)
  }

  ghost predicate TaskInv(p: Proc, id: string)
    requires id in p.mem.tasks
  {
    var task := p.mem.tasks[id];
    && task.id == id
    && task.scope == ProcessContext(p.id.session, p.id.id, task.scope.revision)
    && Recorded(p.mem.journal.history, task.position, task.scope.revision, task.syscall)
  }

  /** One task per call, and each task's stored call is the recorded one. */
  ghost predicate TasksInv(p: Proc) {
    && (forall id :: id in p.mem.tasks ==> TaskInv(p, id))
    && (forall a, b, r, n :: TaskAt(p.mem, a, r, n) && TaskAt(p.mem, b, r, n) ==> a == b)
  }

  ghost predicate HandlerInv(cfg: Config, p: Proc, side: Side, handler: HandlerCall) {
    && side.act.Driving? && handler.call == side.act.call
    && (handler.viaTask ==> exists id :: ApprovedAtTail(p, id) && p.mem.tasks[id].syscall == handler.call)
    && (!handler.viaTask ==> !HasTask(p.mem, p.mem.journal.revision, Tail(p)))
  }

  /** An Approved task of the current revision at the journal's tail. */
  ghost predicate ApprovedAtTail(p: Proc, id: string) {
    TaskAt(p.mem, id, p.mem.journal.revision, Tail(p)) && p.mem.tasks[id].state.TaskApproved?
  }

  ghost predicate GuestInv(cfg: Config, p: Proc, q: Quantum) {
    var v := ViewOf(p.mem.journal);
    && WellFormed(v)
    && match q.guest
       case Unstarted => true
       case Running(side, handler) =>
         && (q.exec.InPool? || q.exec.Marked?)
         && SideInv(v, side)
         && (handler.Some? ==> HandlerInv(cfg, p, side, handler.value))
         && (side.act.Answered? ==> StampLabels(cfg.grants, CallAt(v, Completed(v))) <= side.act.result.labels)
       case Ended(ending, side) =>
         && SideInv(v, side)
         && (side.act.Parked? || (side.act.Thinking? && (ending.EndCompleted? ==> cfg.guest(side.seen).None?)))
  }

  /** How the executor and the guest fit together. A run is recorded as completed only
      when the guest halted with its whole journal replayed. */
  ghost predicate ExecInv(cfg: Config, p: Proc, q: Quantum) {
    && (q.exec.Starting? || q.exec.Submitting? ==> q.guest.Unstarted?)
    && (q.exec.Recording? || q.exec.Failing? ==> q.guest.Ended?)
    && (q.exec.Recording? ==> q.guest.ending == q.exec.ending)
    && (q.exec.Finishing? ==> !IsLive(q.exec.status))
    && (q.exec.Finishing? && q.exec.status.ProcessCompleted? ==>
          q.guest.Ended? && q.guest.side.act.Thinking? && |q.guest.side.seen| == Completed(ViewOf(p.mem.journal)))
  }

  ghost predicate QuantumInv(cfg: Config, p: Proc) {
    p.mem.quantum.Some? ==>
      var q := p.mem.quantum.value;
      && q.revision == p.mem.journal.revision
      && IsLive(p.mem.status)
      && Saved(p)
      && GuestInv(cfg, p, q)
      && ExecInv(cfg, p, q)
  }

  /** How many recorded results this quantum has handed its guest. */
  function SeenCount(m: Mem): nat {
    if m.quantum.Some? && !m.quantum.value.guest.Unstarted? then |m.quantum.value.guest.side.seen| else 0
  }

  /** The tail is the n-th call's open intent. */
  predicate OpenAt(v: seq<Record>, n: nat) {
    n == Completed(v) && HasOpenIntent(v)
  }

  /** The fold of the first n calls, and of what the open call's yields carried. */
  function FoldTo(v: seq<Record>, y: Yields, n: nat): Taint
    requires WellFormed(v) && n <= Completed(v)
  {
    if OpenAt(v, n) then ObserveLabels(FoldAll(v, y, n), CallAt(v, n), YieldsOf(y, n)) else FoldAll(v, y, n)
  }

  /** The taint is the fold of some first calls, at least all that this quantum has handed
      its guest. */
  ghost predicate TaintAt(v: seq<Record>, y: Yields, t: Taint, c: nat, n: nat)
    requires WellFormed(v)
  {
    && c <= n <= Completed(v)
    && (forall k :: k in y ==> k < n || (k == n && OpenAt(v, n)))
    && t == FoldTo(v, y, n)
  }

  ghost predicate TaintInv(p: Proc) {
    var v, m := ViewOf(p.mem.journal), p.mem;
    && WellFormed(v)
    && m.taints.Keys <= {m.journal.revision}
    && Traced(v, m.yielded, RunTaint(m), SeenCount(m))
  }

  ghost predicate Traced(v: seq<Record>, y: Yields, t: Taint, c: nat)
    requires WellFormed(v)
  {
    exists n: nat :: TaintAt(v, y, t, c, n)
  }

  ghost predicate Inv(cfg: Config, p: Proc, closed: bool) {
    && LogInv(cfg, p)
    && MemInv(cfg, p)
    && TasksInv(p)
    && QuantumInv(cfg, p)
    && TaintInv(p)
    && (!closed ==> Saved(p) && (IsLive(p.mem.status) ==> p.mem.quantum.Some?))
  }

  // ---- Logging ----------------------------------------------------------

  lemma EmitFolds(log: seq<Payload>, e: Payload)
    ensures FoldHistory(log + [e]) == if e.SyscallRecorded? then Add(FoldHistory(log), e.record) else FoldHistory(log)
    ensures FoldTasks(log + [e]) ==
      if e.TaskCreated? || e.TaskResolved? then FoldTasks(log)[e.task.id := e.task] else FoldTasks(log)
    ensures LastStored(log + [e]) == if e.ProcessState? then Some(e.process) else LastStored(log)
  {
    assert (log + [e])[..|log|] == log;
  }

  /** Saving a sound memory keeps the log sound, and makes them agree. */
  lemma SaveKeepsLog(cfg: Config, p: Proc)
    requires p.mem.journal.history == FoldHistory(p.log) && p.mem.tasks == FoldTasks(p.log)
    requires MemInv(cfg, p)
    ensures LogInv(cfg, Save(p)) && MemInv(cfg, Save(p)) && Saved(Save(p))
  {
    EmitFolds(p.log, ProcessState(Stored(p.id, p.mem)));
  }

  /** A step that touches neither the journal, the log nor the tasks. */
  ghost predicate SameDurables(p: Proc, p': Proc) {
    && p'.id == p.id && p'.log == p.log
    && p'.mem.journal == p.mem.journal && p'.mem.tasks == p.mem.tasks
    && Stored(p'.id, p'.mem) == Stored(p.id, p.mem)
    && p'.mem.lastFailureLength == p.mem.lastFailureLength
  }

  lemma QuietStepKeeps(cfg: Config, p: Proc, p': Proc)
    requires LogInv(cfg, p) && MemInv(cfg, p) && TasksInv(p) && SameDurables(p, p')
    ensures LogInv(cfg, p') && MemInv(cfg, p') && TasksInv(p')
    ensures Saved(p) ==> Saved(p')
  {
    forall id | id in p'.mem.tasks ensures TaskInv(p', id) {
      assert TaskInv(p, id);
    }
    forall a, b, r, n | TaskAt(p'.mem, a, r, n) && TaskAt(p'.mem, b, r, n) ensures a == b {
      assert TaskAt(p.mem, a, r, n) && TaskAt(p.mem, b, r, n);
    }
  }

  // ---- Journal steps ----------------------------------------------------

  lemma RecordedStays(h: Flat, rec: Record, position: nat, revision: nat, call: Syscall)
    requires Recorded(h, position, revision, call)
    ensures Recorded(Add(h, rec), position, revision, call)
  {
    AtAfterAdd(h, rec, position);
    var i: nat :| i < |At(h, position)| && At(h, position)[i].revision == revision
      && At(h, position)[i].kind.Intent? && At(h, position)[i].syscall == Some(call);
    assert At(Add(h, rec), position)[i] == At(h, position)[i];
  }

  lemma ViewIsSound(cfg: Config, j: Journal)
    requires JournalInv(cfg, j)
    ensures Complete(j.history, j.revision, j.length)
    ensures ViewOf(j) == View(j.history, j.revision, j.length) && |ViewOf(j)| == j.length
    ensures WellFormed(ViewOf(j))
  {
  }

  /** The record keeps every result stamped. */
  predicate StampedNext(g: Grants, v: seq<Record>, rec: Record)
    requires WellFormed(v) && Sound(rec, |v|)
  {
    HasOpenIntent(v) ==> StampLabels(g, CallAt(v, Completed(v))) <= rec.result.value.labels
  }

  lemma StampedGrows(g: Grants, v: seq<Record>, rec: Record)
    requires WellFormed(v) && Sound(rec, |v|) && Stamped(g, v) && StampedNext(g, v, rec)
    ensures WellFormed(v + [rec]) && Stamped(g, v + [rec])
  {
    ExtendResults(v, rec);
    var w := v + [rec];
    forall k: nat | k < Completed(w) ensures StampedAt(g, w, k) {
      assert w[2 * k] == v[2 * k];
      if k < Completed(v) {
        assert w[2 * k + 1] == v[2 * k + 1];
        assert StampedAt(g, v, k);
      } else {
        assert w[2 * k + 1] == rec;
      }
    }
  }

  /** The record is the guest's own next one: at the tail, and stamped. */
  ghost predicate IsNext(cfg: Config, j: Journal, rec: Record) {
    && WellFormed(ViewOf(j)) && |ViewOf(j)| == j.length
    && rec.revision == j.revision && Sound(rec, j.length)
    && Conforms(cfg.guest, ViewOf(j) + [rec])
    && StampedNext(cfg.grants, ViewOf(j), rec)
  }

  /** The journal with one more record. */
  function Grown(j: Journal, rec: Record): Journal {
    j.(history := Add(j.history, rec), length := j.length + 1)
  }

  lemma WriteKeepsJournal(cfg: Config, j: Journal, rec: Record)
    requires JournalInv(cfg, j) && IsNext(cfg, j, rec)
    ensures JournalInv(cfg, Grown(j, rec)) && ViewOf(Grown(j, rec)) == ViewOf(j) + [rec]
  {
    AppendExtendsTheView(j.history, j.revision, j.forkOffset, j.length, rec);
    StampedGrows(cfg.grants, ViewOf(j), rec);
  }

  /** Appending it keeps all that is durable. */
  lemma WriteKeepsDurables(cfg: Config, p: Proc, rec: Record)
    requires LogInv(cfg, p) && MemInv(cfg, p) && TasksInv(p) && Saved(p)
    requires IsLive(p.mem.status) && IsNext(cfg, p.mem.journal, rec)
    ensures var p' := WriteRecord(p, rec);
      && LogInv(cfg, p') && MemInv(cfg, p') && TasksInv(p') && Saved(p')
      && ViewOf(p'.mem.journal) == ViewOf(p.mem.journal) + [rec]
  {
    var p' := WriteRecord(p, rec);
    EmitFolds(p.log, SyscallRecorded(rec));
    WriteKeepsJournal(cfg, p.mem.journal, rec);
    assert p'.mem.journal == Grown(p.mem.journal, rec);
    assert StoredInv(cfg, p'.mem.journal.history, Stored(p'.id, p'.mem), p'.mem.journal.length);
    WriteKeepsTasks(p, rec);
  }

  lemma WriteKeepsTasks(p: Proc, rec: Record)
    requires TasksInv(p)
    ensures TasksInv(WriteRecord(p, rec))
  {
    var p' := WriteRecord(p, rec);
    forall id | id in p'.mem.tasks ensures TaskInv(p', id) {
      assert TaskInv(p, id);
      var task := p.mem.tasks[id];
      RecordedStays(p.mem.journal.history, rec, task.position, task.scope.revision, task.syscall);
    }
    forall a, b, r, n | TaskAt(p'.mem, a, r, n) && TaskAt(p'.mem, b, r, n) ensures a == b {
      assert TaskAt(p.mem, a, r, n) && TaskAt(p.mem, b, r, n);
    }
  }

  /** The open tail was written by the current revision: forks keep whole calls. */
  lemma OpenTailIsOwn(cfg: Config, j: Journal)
    requires JournalInv(cfg, j) && HasOpenIntent(ViewOf(j))
    ensures j.length > 0
    ensures Recorded(j.history, j.length - 1, j.revision, CallAt(ViewOf(j), Completed(ViewOf(j))))
  {
    ViewIsSound(cfg, j);
    var p := j.length - 1;
    assert WroteAt(j.history, p, j.revision);
    var i :| 0 <= i < |At(j.history, p)| && At(j.history, p)[i].revision == j.revision;
    OwnRecordIsSeen(j.history, j.revision, p, i);
    assert ViewOf(j)[p] == At(j.history, p)[i];
    assert Sound(ViewOf(j)[p], p);
  }

  /** Forking at a whole call keeps the journal sound; the new view is the prefix. */
  lemma ForkKeepsJournal(cfg: Config, j: Journal, offset: nat)
    requires JournalInv(cfg, j) && offset <= j.length && offset % 2 == 0
    ensures JournalInv(cfg, Step(j, ForkAt(offset)))
    ensures ViewOf(Step(j, ForkAt(offset))) == ViewOf(j)[..offset]
  {
    ViewIsSound(cfg, j);
    ForkSharesThePrefix(j.history, j.revision, j.forkOffset, j.length, offset);
    ForkConforms(cfg.guest, ViewOf(j), offset);
    var v, w := ViewOf(j), ViewOf(j)[..offset];
    forall k: nat | k < Completed(w) ensures StampedAt(cfg.grants, w, k) {
      assert w[2 * k] == v[2 * k] && w[2 * k + 1] == v[2 * k + 1];
      assert StampedAt(cfg.grants, v, k);
    }
  }

  // ---- Taint steps ------------------------------------------------------

  lemma ObserveRunTaint(m: Mem, call: Syscall, result: SyscallResult)
    ensures RunTaint(ObserveRun(m, call, result)) == ObserveCall(RunTaint(m), call, result)
    ensures m.taints.Keys <= {m.journal.revision} ==> ObserveRun(m, call, result).taints.Keys <= {m.journal.revision}
  {
    if result.labels == {} && !IsMarker(call.name) {
      assert Observe(RunTaint(m), {}, SourceOf(call)) == RunTaint(m);
    }
  }

  /** A step that only moves the quantum, and not past more results, keeps the taint. */
  lemma TaintStays(p: Proc, p': Proc)
    requires TaintInv(p) && p'.mem.journal == p.mem.journal && p'.mem.taints == p.mem.taints
    requires p'.mem.yielded == p.mem.yielded && SeenCount(p'.mem) <= SeenCount(p.mem)
    ensures TaintInv(p')
  {
    var v, m := ViewOf(p.mem.journal), p.mem;
    var n: nat :| TaintAt(v, m.yielded, RunTaint(m), SeenCount(m), n);
    assert TaintAt(v, m.yielded, RunTaint(p'.mem), SeenCount(p'.mem), n);
  }

  /** The taint holds every label carried by a result this quantum has handed its guest. */
  lemma TaintHoldsWhatWasSeen(p: Proc, j: nat, l: Label)
    requires TaintInv(p) && j < SeenCount(p.mem) && Carried(ViewOf(p.mem.journal), j, l)
    ensures l in RunTaint(p.mem)
  {
    var v, y := ViewOf(p.mem.journal), p.mem.yielded;
    var n: nat :| TaintAt(v, y, RunTaint(p.mem), SeenCount(p.mem), n);
    assert Showed(v, y, j, l);
    FoldIsWhatCallsShowed(v, y, n, l, SourceOf(CallAt(v, j)));
  }

  /** A taint keeps its meaning when the view grows by an intent. */
  lemma TaintSurvivesIntent(v: seq<Record>, rec: Record, y: Yields, t: Taint, c: nat, n: nat)
    requires WellFormed(v) && !HasOpenIntent(v) && Sound(rec, |v|) && TaintAt(v, y, t, c, n)
    ensures WellFormed(v + [rec]) && TaintAt(v + [rec], y, t, c, n)
  {
    ExtendResults(v, rec);
    FoldReadsAPrefix(v, v + [rec], y, y, n);
    assert Observe(t, {}, SourceOf(rec.syscall.value)) == t;
  }

  /** Serving a recorded result again leaves a taint that already holds it, and extends
      one that does not. */
  lemma TaintAfterServe(v: seq<Record>, y: Yields, t: Taint, c: nat, n: nat)
    requires WellFormed(v) && c < Completed(v) && TaintAt(v, y, t, c, n)
    ensures TaintAt(v, y, ObserveCall(t, CallAt(v, c), ResultAt(v, c)), c + 1, if n == c then c + 1 else n)
  {
    if n > c {
      ReplayIsAbsorbed(v, y, n, c, t) by {
        if OpenAt(v, n) && !IsMarker(CallAt(v, n).name) {
          forall ls, s | Absorbs(FoldAll(v, y, n), ls, s) ensures Absorbs(t, ls, s) {
            ObserveKeeps(FoldAll(v, y, n), YieldsOf(y, n), SourceOf(CallAt(v, n)), ls, s);
          }
        }
      }
    } else {
      TaintAfterFirstServe(v, y, c);
    }
  }

  lemma TaintAfterFirstServe(v: seq<Record>, y: Yields, c: nat)
    requires WellFormed(v) && c < Completed(v) && forall k :: k in y ==> k < c
    ensures ObserveCall(FoldAll(v, y, c), CallAt(v, c), ResultAt(v, c)) == FoldTo(v, y, c + 1)
  {
    assert YieldsOf(y, c) + ResultAt(v, c).labels == ResultAt(v, c).labels;
    var t' := FoldAll(v, y, c + 1);
    if OpenAt(v, c + 1) {
      assert Observe(t', {}, SourceOf(CallAt(v, c + 1))) == t';
    }
  }

  /** The yields after one more yield of the k-th call. */
  function MoreYields(y: Yields, k: nat, labels: set<Label>): Yields {
    y[k := YieldsOf(y, k) + labels]
  }

  lemma TaintAfterYield(v: seq<Record>, y: Yields, t: Taint, labels: set<Label>)
    requires WellFormed(v) && HasOpenIntent(v) && TaintAt(v, y, t, Completed(v), Completed(v))
    ensures var n := Completed(v);
      TaintAt(v, MoreYields(y, n, labels), ObserveLabels(t, CallAt(v, n), labels), n, n)
  {
    var n := Completed(v);
    FoldReadsAPrefix(v, v, y, MoreYields(y, n, labels), n);
    ObserveTwice(FoldAll(v, y, n), YieldsOf(y, n), labels, SourceOf(CallAt(v, n)));
  }

  /** A completion leaves exactly the fold of one more call, yielded before or not. */
  lemma TaintAfterCommit(v: seq<Record>, y: Yields, t: Taint, rec: Record)
    requires WellFormed(v) && HasOpenIntent(v) && Sound(rec, |v|)
    requires TaintAt(v, y, t, Completed(v), Completed(v))
    ensures WellFormed(v + [rec])
    ensures var n := Completed(v);
      TaintAt(v + [rec], y, ObserveCall(t, CallAt(v, n), rec.result.value), n + 1, n + 1)
  {
    ExtendResults(v, rec);
    var w, n := v + [rec], Completed(v);
    FoldReadsAPrefix(v, w, y, y, n);
    assert w[2 * n] == v[2 * n] && w[2 * n + 1] == rec;
    ObserveTwice(FoldAll(v, y, n), YieldsOf(y, n), rec.result.value.labels, SourceOf(CallAt(v, n)));
  }

  // ---- The guest's steps ------------------------------------------------

  /** A step of the quantum alone keeps everything but the quantum's own invariants. */
  lemma QuantumStepKeeps(cfg: Config, p: Proc, q': Quantum, closed: bool)
    requires Inv(cfg, p, closed) && p.mem.quantum.Some?
    requires q'.revision == p.mem.journal.revision
    requires var p' := WithQuantum(p, q');
      GuestInv(cfg, p', q') && ExecInv(cfg, p', q') && SeenCount(p'.mem) <= SeenCount(p.mem)
    ensures Inv(cfg, WithQuantum(p, q'), closed)
  {
    var p' := WithQuantum(p, q');
    QuietStepKeeps(cfg, p, p');
    TaintStays(p, p');
  }

  lemma AskKeeps(cfg: Config, p: Proc, closed: bool)
    requires Inv(cfg, p, closed) && Enabled(cfg, p, OfGuest(GuestAsk))
    ensures Inv(cfg, Apply(cfg, p, OfGuest(GuestAsk), closed), closed)
  {
    var m, q := p.mem, p.mem.quantum.value;
    var side, v := q.guest.side, ViewOf(p.mem.journal);
    var call := cfg.guest(side.seen).value;
    NeverDiverges(cfg.guest, v, side, call);
    EnterKeeps(cfg.guest, v, side, call, q.revision);
    var t := Enter(v, side, call, q.revision);
    var p' := DoAsk(p, q, side, call);
    assert Apply(cfg, p, OfGuest(GuestAsk), closed) == p';
    if |side.seen| < Completed(v) {
      ServeKeeps(cfg, p, closed);
    } else if HasOpenIntent(v) {
      assert v + t.written == v;
      assert p' == WithQuantum(p, q.(guest := Running(t.side, None)));
      QuantumStepKeeps(cfg, p, p'.mem.quantum.value, closed);
    } else {
      FreshInv(cfg, p, closed, q, side, call);
    }
  }

  lemma ServeTaint(p: Proc, q': Quantum, call: Syscall, result: SyscallResult)
    requires TaintInv(p) && SeenCount(p.mem) < Completed(ViewOf(p.mem.journal))
    requires call == CallAt(ViewOf(p.mem.journal), SeenCount(p.mem))
    requires result == ResultAt(ViewOf(p.mem.journal), SeenCount(p.mem))
    requires SeenCount(WithQuantum(p, q').mem) == SeenCount(p.mem) + 1
    ensures TaintInv(WithQuantum(p.(mem := ObserveRun(p.mem, call, result)), q'))
  {
    var v, c, t := ViewOf(p.mem.journal), SeenCount(p.mem), RunTaint(p.mem);
    ObserveRunTaint(p.mem, call, result);
    var n: nat :| TaintAt(v, p.mem.yielded, t, c, n);
    TaintAfterServe(v, p.mem.yielded, t, c, n);
    assert Traced(v, p.mem.yielded, ObserveCall(t, call, result), c + 1);
  }

  /** The quantum a served call leaves. */
  function ServedQuantum(q: Quantum, side: Side, result: SyscallResult): Quantum {
    q.(guest := Running(side.(cursor := side.cursor + 2, seen := side.seen + [result]), None))
  }

  lemma ServeEffect(cfg: Config, p: Proc, q: Quantum, side: Side, call: Syscall)
    requires JournalInv(cfg, p.mem.journal) && SideInv(ViewOf(p.mem.journal), side) && side.act.Thinking?
    requires |side.seen| < Completed(ViewOf(p.mem.journal)) && cfg.guest(side.seen) == Some(call)
    ensures var v, c := ViewOf(p.mem.journal), |side.seen|;
      && CallAt(v, c) == call
      && DoAsk(p, q, side, call)
         == WithQuantum(p.(mem := ObserveRun(p.mem, call, ResultAt(v, c))), ServedQuantum(q, side, ResultAt(v, c)))
      && SideInv(v, ServedQuantum(q, side, ResultAt(v, c)).guest.side)
  {
    var v := ViewOf(p.mem.journal);
    NeverDiverges(cfg.guest, v, side, call);
    EnterKeeps(cfg.guest, v, side, call, q.revision);
    assert v + Enter(v, side, call, q.revision).written == v;
    assert side.seen == Results(v)[..|side.seen|];
  }

  lemma ServeKeeps(cfg: Config, p: Proc, closed: bool)
    requires Inv(cfg, p, closed) && Enabled(cfg, p, OfGuest(GuestAsk))
    requires |p.mem.quantum.value.guest.side.seen| < Completed(ViewOf(p.mem.journal))
    ensures Inv(cfg, Apply(cfg, p, OfGuest(GuestAsk), closed), closed)
  {
    var q := p.mem.quantum.value;
    var side := q.guest.side;
    ServeEffect(cfg, p, q, side, cfg.guest(side.seen).value);
    ServeInv(cfg, p, q, side, cfg.guest(side.seen).value, closed);
    AskIsDoAsk(cfg, p, closed);
  }

  lemma AskIsDoAsk(cfg: Config, p: Proc, closed: bool)
    requires Enabled(cfg, p, OfGuest(GuestAsk))
    ensures var q := p.mem.quantum.value;
      Apply(cfg, p, OfGuest(GuestAsk), closed) == DoAsk(p, q, q.guest.side, cfg.guest(q.guest.side.seen).value)
  {
  }

  lemma ServeInv(cfg: Config, p: Proc, q: Quantum, side: Side, call: Syscall, closed: bool)
    requires Inv(cfg, p, closed) && p.mem.quantum == Some(q) && q.guest.Running? && q.guest.side == side
    requires |side.seen| < Completed(ViewOf(p.mem.journal)) && call == CallAt(ViewOf(p.mem.journal), |side.seen|)
    requires side.act.Thinking?
    requires SideInv(
      ViewOf(p.mem.journal), ServedQuantum(q, side, ResultAt(ViewOf(p.mem.journal), |side.seen|)).guest.side)
    ensures var result := ResultAt(ViewOf(p.mem.journal), |side.seen|);
      Inv(cfg, WithQuantum(p.(mem := ObserveRun(p.mem, call, result)), ServedQuantum(q, side, result)), closed)
  {
    var result := ResultAt(ViewOf(p.mem.journal), |side.seen|);
    var q' := ServedQuantum(q, side, result);
    var p' := WithQuantum(p.(mem := ObserveRun(p.mem, call, result)), q');
    ServeTaint(p, q', call, result);
    ServedDurables(p, q', call, result);
    ServedGuestFits(cfg, p', q, side, result);
    ObservingStepKeeps(cfg, p, p', closed);
  }

  lemma ServedDurables(p: Proc, q': Quantum, call: Syscall, result: SyscallResult)
    ensures var p' := WithQuantum(p.(mem := ObserveRun(p.mem, call, result)), q');
      SameDurables(p, p') && p'.mem.quantum == Some(q') && p'.mem.status == p.mem.status
  {
  }

  /** A step of the quantum and the taint keeps everything but their own invariants. */
  lemma ObservingStepKeeps(cfg: Config, p: Proc, p': Proc, closed: bool)
    requires Inv(cfg, p, closed) && p.mem.quantum.Some? && p'.mem.quantum.Some?
    requires SameDurables(p, p') && p'.mem.quantum.value.revision == p.mem.journal.revision
    requires GuestInv(cfg, p', p'.mem.quantum.value) && ExecInv(cfg, p', p'.mem.quantum.value) && TaintInv(p')
    ensures Inv(cfg, p', closed)
  {
    QuietStepKeeps(cfg, p, p');
  }

  lemma ServedGuestFits(cfg: Config, p': Proc, q: Quantum, side: Side, result: SyscallResult)
    requires WellFormed(ViewOf(p'.mem.journal)) && side.act.Thinking?
    requires q.guest.Running? && (q.exec.InPool? || q.exec.Marked?)
    requires SideInv(ViewOf(p'.mem.journal), ServedQuantum(q, side, result).guest.side)
    ensures GuestInv(cfg, p', ServedQuantum(q, side, result)) && ExecInv(cfg, p', ServedQuantum(q, side, result))
  {
  }

  /** After an append: the journal and log are sound again, and the quantum and taint
      are what the step says. */
  lemma AfterWrite(cfg: Config, p1: Proc, p': Proc, closed: bool)
    requires LogInv(cfg, p1) && MemInv(cfg, p1) && TasksInv(p1) && Saved(p1) && IsLive(p1.mem.status)
    requires SameDurables(p1, p') && p'.mem.quantum.Some?
    requires p'.mem.quantum.value.revision == p1.mem.journal.revision
    requires GuestInv(cfg, p', p'.mem.quantum.value) && ExecInv(cfg, p', p'.mem.quantum.value)
    requires TaintInv(p')
    ensures Inv(cfg, p', closed)
  {
    QuietStepKeeps(cfg, p1, p');
  }

  lemma FreshTaint(p: Proc, p': Proc, rec: Record)
    requires TaintInv(p) && SeenCount(p.mem) == Completed(ViewOf(p.mem.journal))
    requires !HasOpenIntent(ViewOf(p.mem.journal)) && Sound(rec, |ViewOf(p.mem.journal)|)
    requires ViewOf(p'.mem.journal) == ViewOf(p.mem.journal) + [rec]
    requires p'.mem.journal.revision == p.mem.journal.revision
    requires p'.mem.taints == p.mem.taints && p'.mem.yielded == p.mem.yielded
    requires SeenCount(p'.mem) == SeenCount(p.mem)
    ensures TaintInv(p')
  {
    var v, c, t := ViewOf(p.mem.journal), SeenCount(p.mem), RunTaint(p.mem);
    var n: nat :| TaintAt(v, p.mem.yielded, t, c, n);
    TaintSurvivesIntent(v, rec, p.mem.yielded, t, c, n);
    assert Traced(v + [rec], p.mem.yielded, t, c);
  }

  /** The intent a fresh call writes, and the quantum it leaves. */
  function FreshIntent(p: Proc, call: Syscall): Record {
    IntentRecord(p.mem.journal.length, call).(revision := p.mem.journal.revision)
  }

  function DrivingQuantum(q: Quantum, side: Side, call: Syscall): Quantum {
    q.(guest := Running(side.(cursor := side.cursor + 1, pending := true, act := Driving(call)), None))
  }

  lemma FreshEffect(cfg: Config, p: Proc, q: Quantum, side: Side, call: Syscall)
    requires JournalInv(cfg, p.mem.journal) && q.revision == p.mem.journal.revision
    requires SideInv(ViewOf(p.mem.journal), side) && side.act.Thinking?
    requires |side.seen| == Completed(ViewOf(p.mem.journal)) && !HasOpenIntent(ViewOf(p.mem.journal))
    requires cfg.guest(side.seen) == Some(call)
    ensures DoAsk(p, q, side, call) == WithQuantum(WriteRecord(p, FreshIntent(p, call)), DrivingQuantum(q, side, call))
    ensures IsNext(cfg, p.mem.journal, FreshIntent(p, call))
    ensures SideInv(ViewOf(p.mem.journal) + [FreshIntent(p, call)], DrivingQuantum(q, side, call).guest.side)
  {
    var v := ViewOf(p.mem.journal);
    ViewIsSound(cfg, p.mem.journal);
    NeverDiverges(cfg.guest, v, side, call);
    EnterKeeps(cfg.guest, v, side, call, q.revision);
  }

  lemma FreshInv(cfg: Config, p: Proc, closed: bool, q: Quantum, side: Side, call: Syscall)
    requires Inv(cfg, p, closed) && p.mem.quantum == Some(q) && q.guest == Running(side, None)
    requires side.act.Thinking?
    requires |side.seen| == Completed(ViewOf(p.mem.journal)) && !HasOpenIntent(ViewOf(p.mem.journal))
    requires cfg.guest(side.seen) == Some(call)
    ensures Inv(cfg, DoAsk(p, q, side, call), closed)
  {
    var rec := FreshIntent(p, call);
    FreshEffect(cfg, p, q, side, call);
    WriteKeepsDurables(cfg, p, rec);
    WrittenInv(cfg, p, rec, DrivingQuantum(q, side, call), closed);
  }

  /** After a fresh intent is written, its quantum drives it. */
  lemma WrittenInv(cfg: Config, p: Proc, rec: Record, q': Quantum, closed: bool)
    requires Inv(cfg, p, closed) && p.mem.quantum.Some?
    requires !HasOpenIntent(ViewOf(p.mem.journal)) && Sound(rec, |ViewOf(p.mem.journal)|)
    requires SeenCount(p.mem) == Completed(ViewOf(p.mem.journal))
    requires q' == p.mem.quantum.value.(guest := q'.guest) && q'.guest.Running? && q'.guest.handler.None?
    requires |q'.guest.side.seen| == SeenCount(p.mem) && !q'.guest.side.act.Answered?
    requires p.mem.quantum.value.guest.Running?
    requires var p1 := WriteRecord(p, rec);
      && LogInv(cfg, p1) && MemInv(cfg, p1) && TasksInv(p1) && Saved(p1)
      && ViewOf(p1.mem.journal) == ViewOf(p.mem.journal) + [rec]
    requires WellFormed(ViewOf(p.mem.journal) + [rec]) && SideInv(ViewOf(p.mem.journal) + [rec], q'.guest.side)
    ensures Inv(cfg, WithQuantum(WriteRecord(p, rec), q'), closed)
  {
    WrittenTaint(p, rec, q');
    ToldQuantumFits(cfg, WriteRecord(p, rec), p.mem.quantum.value, q');
    AfterWrite(cfg, WriteRecord(p, rec), WithQuantum(WriteRecord(p, rec), q'), closed);
  }

  lemma WrittenTaint(p: Proc, rec: Record, q': Quantum)
    requires TaintInv(p) && SeenCount(p.mem) == Completed(ViewOf(p.mem.journal))
    requires !HasOpenIntent(ViewOf(p.mem.journal)) && Sound(rec, |ViewOf(p.mem.journal)|)
    requires ViewOf(WriteRecord(p, rec).mem.journal) == ViewOf(p.mem.journal) + [rec]
    requires q'.guest.Running? && |q'.guest.side.seen| == SeenCount(p.mem)
    ensures TaintInv(WithQuantum(WriteRecord(p, rec), q'))
  {
    FreshTaint(p, WithQuantum(WriteRecord(p, rec), q'), rec);
  }

  lemma ToldQuantumFits(cfg: Config, p1: Proc, q: Quantum, q': Quantum)
    requires WellFormed(ViewOf(p1.mem.journal)) && q' == q.(guest := q'.guest)
    requires q.guest.Running? && (q.exec.InPool? || q.exec.Marked?)
    requires q'.guest.Running? && q'.guest.handler.None? && !q'.guest.side.act.Answered?
    requires SideInv(ViewOf(p1.mem.journal), q'.guest.side)
    ensures GuestInv(cfg, WithQuantum(p1, q'), q') && ExecInv(cfg, WithQuantum(p1, q'), q')
  {
  }

  lemma CommitTaint(p: Proc, p': Proc, rec: Record)
    requires TaintInv(p) && SeenCount(p.mem) == Completed(ViewOf(p.mem.journal))
    requires HasOpenIntent(ViewOf(p.mem.journal)) && Sound(rec, |ViewOf(p.mem.journal)|)
    requires ViewOf(p'.mem.journal) == ViewOf(p.mem.journal) + [rec]
    requires p'.mem.journal.revision == p.mem.journal.revision && p'.mem.yielded == p.mem.yielded
    requires RunTaint(p'.mem)
          == ObserveCall(RunTaint(p.mem), CallAt(ViewOf(p.mem.journal), SeenCount(p.mem)), rec.result.value)
    requires p'.mem.taints.Keys <= {p.mem.journal.revision}
    requires SeenCount(p'.mem) == SeenCount(p.mem) + 1
    ensures TaintInv(p')
  {
    var v, n, t := ViewOf(p.mem.journal), SeenCount(p.mem), RunTaint(p.mem);
    var k: nat :| TaintAt(v, p.mem.yielded, t, n, k);
    TaintAfterCommit(v, p.mem.yielded, t, rec);
    assert Traced(v + [rec], p.mem.yielded, RunTaint(p'.mem), n + 1);
  }

  /** The completion a commit writes, and the quantum it leaves. */
  function CompletionOf(p: Proc, result: SyscallResult): Record {
    CompletionRecord(p.mem.journal.length, result).(revision := p.mem.journal.revision)
  }

  function ThinkingQuantum(q: Quantum, side: Side, result: SyscallResult): Quantum {
    q.(guest := Running(Side(side.cursor + 1, false, side.seen + [result], Thinking), None))
  }

  /** The process after a commit. */
  function CommittedProc(p: Proc, q: Quantum, side: Side, call: Syscall): Proc
    requires side.act.Answered?
  {
    var p1 := WriteRecord(p, CompletionOf(p, side.act.result));
    WithQuantum(p1.(mem := ObserveRun(p1.mem, call, side.act.result)), ThinkingQuantum(q, side, side.act.result))
  }

  lemma CommitEffect(cfg: Config, p: Proc, q: Quantum, side: Side)
    requires JournalInv(cfg, p.mem.journal) && q.revision == p.mem.journal.revision
    requires SideInv(ViewOf(p.mem.journal), side) && side.act.Answered?
    ensures DoCommit(p, q, side)
         == CommittedProc(p, q, side, CallAt(ViewOf(p.mem.journal), Completed(ViewOf(p.mem.journal))))
  {
    var v := ViewOf(p.mem.journal);
    ViewIsSound(cfg, p.mem.journal);
    TailCall(v);
    CommitUnfolds(p, q, side, v, CallAt(v, Completed(v)));
  }

  lemma CommitUnfolds(p: Proc, q: Quantum, side: Side, v: seq<Record>, call: Syscall)
    requires side.act.Answered? && v == ViewOf(p.mem.journal) && v != [] && v[|v| - 1].syscall == Some(call)
    requires |v| == p.mem.journal.length && q.revision == p.mem.journal.revision
    ensures DoCommit(p, q, side) == CommittedProc(p, q, side, call)
  {
    CommitAppends(p, q, side, v);
  }

  lemma TailCall(v: seq<Record>)
    requires WellFormed(v) && HasOpenIntent(v)
    ensures v != [] && v[|v| - 1].syscall == Some(CallAt(v, Completed(v)))
  {
    assert Sound(v[|v| - 1], |v| - 1);
  }

  lemma CommitAppends(p: Proc, q: Quantum, side: Side, v: seq<Record>)
    requires side.act.Answered? && |v| == p.mem.journal.length && q.revision == p.mem.journal.revision
    ensures WriteAll(p, Replay.Write(v, side, q.revision).written) == WriteRecord(p, CompletionOf(p, side.act.result))
    ensures Replay.Write(v, side, q.revision).side == ThinkingQuantum(q, side, side.act.result).guest.side
  {
  }

  lemma CommittedJournal(p: Proc, q: Quantum, side: Side, call: Syscall)
    requires side.act.Answered?
    ensures var p' := CommittedProc(p, q, side, call);
      && p'.mem.journal == Grown(p.mem.journal, CompletionOf(p, side.act.result))
      && p'.mem.quantum == Some(ThinkingQuantum(q, side, side.act.result))
  {
  }

  lemma CommitIsNext(cfg: Config, p: Proc, q: Quantum, side: Side)
    requires JournalInv(cfg, p.mem.journal) && q.revision == p.mem.journal.revision
    requires SideInv(ViewOf(p.mem.journal), side) && side.act.Answered?
    requires var v := ViewOf(p.mem.journal); StampLabels(cfg.grants, CallAt(v, Completed(v))) <= side.act.result.labels
    ensures IsNext(cfg, p.mem.journal, CompletionOf(p, side.act.result))
    ensures SideInv(
      ViewOf(p.mem.journal) + [CompletionOf(p, side.act.result)], ThinkingQuantum(q, side, side.act.result).guest.side)
  {
    ViewIsSound(cfg, p.mem.journal);
    WriteKeeps(cfg.guest, ViewOf(p.mem.journal), side, q.revision);
  }

  lemma CommitKeeps(cfg: Config, p: Proc, closed: bool)
    requires Inv(cfg, p, closed) && Enabled(cfg, p, OfGuest(GuestCommit))
    ensures Inv(cfg, Apply(cfg, p, OfGuest(GuestCommit), closed), closed)
  {
    CommitInv(cfg, p, p.mem.quantum.value, p.mem.quantum.value.guest.side, closed);
  }

  lemma CommitInv(cfg: Config, p: Proc, q: Quantum, side: Side, closed: bool)
    requires Inv(cfg, p, closed) && p.mem.quantum == Some(q) && side.act.Answered?
    requires q.guest.Running? && q.guest.side == side
    ensures Inv(cfg, DoCommit(p, q, side), closed)
  {
    var rec := CompletionOf(p, side.act.result);
    CommitEffect(cfg, p, q, side);
    CommitIsNext(cfg, p, q, side);
    WriteKeepsDurables(cfg, p, rec);
    CommitWriteTaint(cfg, p, q, side);
    AfterWrite(cfg, WriteRecord(p, rec), DoCommit(p, q, side), closed);
  }

  lemma CommitWriteTaint(cfg: Config, p: Proc, q: Quantum, side: Side)
    requires TaintInv(p) && JournalInv(cfg, p.mem.journal) && p.mem.quantum == Some(q)
    requires SideInv(ViewOf(p.mem.journal), side) && side.act.Answered?
    requires q.guest.Running? && q.guest.side == side && q.revision == p.mem.journal.revision
    requires IsNext(cfg, p.mem.journal, CompletionOf(p, side.act.result))
    ensures TaintInv(DoCommit(p, q, side))
  {
    var v, rec := ViewOf(p.mem.journal), CompletionOf(p, side.act.result);
    CommitEffect(cfg, p, q, side);
    WriteKeepsJournal(cfg, p.mem.journal, rec);
    ObserveRunTaint(WriteRecord(p, rec).mem, CallAt(v, Completed(v)), side.act.result);
    assert DoCommit(p, q, side).mem.journal == Grown(p.mem.journal, rec);
    CommitTaint(p, DoCommit(p, q, side), rec);
  }

  // ---- Driving a call below replay --------------------------------------

  /** The process is driving a call: its guest waits for the layers below. */
  ghost predicate DrivingNow(p: Proc, side: Side) {
    && p.mem.quantum.Some? && p.mem.quantum.value.guest.Running?
    && p.mem.quantum.value.guest.side == side && side.act.Driving?
  }

  lemma ReplyTaint(cfg: Config, p: Proc, side: Side, call: Syscall, result: SyscallResult)
    requires TaintInv(p) && DrivingNow(p, side) && side.act.call == call
    requires SideInv(ViewOf(p.mem.journal), side)
    ensures TaintInv(Reply(cfg, p, side, call, result))
  {
    var v, t := ViewOf(p.mem.journal), RunTaint(p.mem);
    var stamped := result.WithLabels(StampLabels(cfg.grants, call));
    var p' := Reply(cfg, p, side, call, result);
    ObserveRunTaint(p.mem, call, stamped);
    if result.status.Yielded? {
      var n: nat :| TaintAt(v, p.mem.yielded, t, SeenCount(p.mem), n);
      TaintAfterYield(v, p.mem.yielded, t, stamped.labels);
      assert TaintAt(v, p'.mem.yielded, RunTaint(p'.mem), SeenCount(p'.mem), n);
    } else {
      TaintStays(p, p');
    }
  }

  lemma ReplyKeeps(cfg: Config, p: Proc, side: Side, call: Syscall, result: SyscallResult, closed: bool)
    requires Inv(cfg, p, closed) && DrivingNow(p, side) && side.act.call == call
    ensures Inv(cfg, Reply(cfg, p, side, call, result), closed)
  {
    ReplyTaint(cfg, p, side, call, result);
    ReplyIsQuiet(cfg, p, side, call, result);
    QuietStepKeeps(cfg, p, Reply(cfg, p, side, call, result));
    ReplyFitsTheGuest(cfg, p, side, call, result);
  }

  lemma ReplyIsQuiet(cfg: Config, p: Proc, side: Side, call: Syscall, result: SyscallResult)
    requires p.mem.quantum.Some?
    ensures SameDurables(p, Reply(cfg, p, side, call, result))
  {
  }

  lemma ReplyFitsTheGuest(cfg: Config, p: Proc, side: Side, call: Syscall, result: SyscallResult)
    requires QuantumInv(cfg, p) && DrivingNow(p, side) && side.act.call == call
    ensures var p' := Reply(cfg, p, side, call, result);
      && p'.mem.quantum.Some? && p'.mem.quantum.value.revision == p'.mem.journal.revision
      && GuestInv(cfg, p', p'.mem.quantum.value) && ExecInv(cfg, p', p'.mem.quantum.value)
  {
  }

  /** A record at a position belongs to one revision at most once. */
  lemma RecordedIsUnique(h: Flat, current: nat, position: nat, revision: nat, a: Syscall, b: Syscall)
    requires Ordered(h, current)
    requires Recorded(h, position, revision, a) && Recorded(h, position, revision, b)
    ensures a == b
  {
    var i: nat :| i < |At(h, position)| && At(h, position)[i].revision == revision
      && At(h, position)[i].kind.Intent? && At(h, position)[i].syscall == Some(a);
    var j: nat :| j < |At(h, position)| && At(h, position)[j].revision == revision
      && At(h, position)[j].kind.Intent? && At(h, position)[j].syscall == Some(b);
    assert i == j;
  }

  /** The task found for a driven call is that very call's. */
  lemma FoundTaskIsTheCalls(cfg: Config, p: Proc, side: Side, id: string)
    requires MemInv(cfg, p) && TasksInv(p) && DrivingNow(p, side)
    requires SideInv(ViewOf(p.mem.journal), side)
    requires TaskAt(p.mem, id, p.mem.journal.revision, Tail(p))
    ensures p.mem.tasks[id].syscall == side.act.call
  {
    var j := p.mem.journal;
    OpenTailIsOwn(cfg, j);
    assert TaskInv(p, id);
    RecordedIsUnique(j.history, j.revision, Tail(p), j.revision, p.mem.tasks[id].syscall, side.act.call);
  }

  /** The process with one more task, its guest still driving. */
  function WithTask(p: Proc, side: Side, task: TaskRecord): Proc
    requires p.mem.quantum.Some?
  {
    var p1 := Emit(p, TaskCreated(task));
    WithSide(p1.(mem := p1.mem.(tasks := p1.mem.tasks[task.id := task])), side, None)
  }

  lemma NewTaskKeepsTasks(cfg: Config, p: Proc, side: Side, task: TaskRecord)
    requires MemInv(cfg, p) && TasksInv(p) && DrivingNow(p, side)
    requires SideInv(ViewOf(p.mem.journal), side)
    requires !HasTask(p.mem, p.mem.journal.revision, Tail(p))
    requires task.id !in p.mem.tasks && task.scope == ContextOf(p)
    requires task.position == Tail(p) && task.syscall == side.act.call
    ensures TasksInv(WithTask(p, side, task))
  {
    var p' := WithTask(p, side, task);
    OpenTailIsOwn(cfg, p.mem.journal);
    forall id | id in p'.mem.tasks ensures TaskInv(p', id) {
      if id != task.id { assert TaskInv(p, id); }
    }
    forall a, b, r, n | TaskAt(p'.mem, a, r, n) && TaskAt(p'.mem, b, r, n) ensures a == b {
      if a != task.id && b != task.id { assert TaskAt(p.mem, a, r, n) && TaskAt(p.mem, b, r, n); }
      if a != task.id { assert TaskAt(p.mem, a, r, n); }
      if b != task.id { assert TaskAt(p.mem, b, r, n); }
    }
  }

  lemma NewTaskKeeps(cfg: Config, p: Proc, side: Side, task: TaskRecord, closed: bool)
    requires Inv(cfg, p, closed) && DrivingNow(p, side)
    requires !HasTask(p.mem, p.mem.journal.revision, Tail(p))
    requires task.id !in p.mem.tasks && task.scope == ContextOf(p)
    requires task.position == Tail(p) && task.syscall == side.act.call
    ensures Inv(cfg, WithTask(p, side, task), closed)
  {
    var p' := WithTask(p, side, task);
    EmitFolds(p.log, TaskCreated(task));
    NewTaskKeepsTasks(cfg, p, side, task);
    TaintStays(p, p');
  }

  lemma MintKeeps(cfg: Config, p: Proc, side: Side, task: TaskRecord, closed: bool)
    requires Inv(cfg, p, closed) && DrivingNow(p, side)
    requires !HasTask(p.mem, p.mem.journal.revision, Tail(p))
    requires task.id !in p.mem.tasks && task.scope == ContextOf(p)
    requires task.position == Tail(p) && task.syscall == side.act.call
    ensures Inv(cfg, MintAndYield(cfg, p, side, side.act.call, task), closed)
  {
    NewTaskKeeps(cfg, p, side, task, closed);
    ReplyKeeps(cfg, WithTask(p, side, task), side, side.act.call, Yield(task.id), closed);
    MintingIsYieldingOverATask(cfg, p, side, task);
  }

  lemma MintingIsYieldingOverATask(cfg: Config, p: Proc, side: Side, task: TaskRecord)
    requires DrivingNow(p, side)
    ensures DrivingNow(WithTask(p, side, task), side)
    ensures MintAndYield(cfg, p, side, side.act.call, task)
         == Reply(cfg, WithTask(p, side, task), side, side.act.call, Yield(task.id))
  {
  }

  /** What the layers decide about a driven call fits it: a minted task is the call's
      own, and a handler runs the call itself, under its own approved task if any. */
  lemma LayersFit(cfg: Config, p: Proc, side: Side, env: Env)
    requires MemInv(cfg, p) && TasksInv(p) && DrivingNow(p, side)
    requires SideInv(ViewOf(p.mem.journal), side)
    ensures match Layers(cfg, p, side.act.call, env)
      case Replies(_) => true
      case Mints(task) =>
        && !HasTask(p.mem, p.mem.journal.revision, Tail(p))
        && task == NewTask(cfg, p, side.act.call, "approval", env)
      case Calls(handler) => HandlerInv(cfg, p, side, handler)
  {
    var m := p.mem;
    if HasTask(m, m.journal.revision, Tail(p)) {
      var id := FindTask(m, m.journal.revision, Tail(p));
      FoundTaskIsTheCalls(cfg, p, side, id);
      assert m.tasks[id].state.TaskApproved? ==> ApprovedAtTail(p, id);
    }
  }

  lemma LayersAnswerKeeps(cfg: Config, p: Proc, env: Env, closed: bool)
    requires Inv(cfg, p, closed) && Enabled(cfg, p, OfGuest(LayersAnswer(env)))
    ensures Inv(cfg, Apply(cfg, p, OfGuest(LayersAnswer(env)), closed), closed)
  {
    var q := p.mem.quantum.value;
    var side := q.guest.side;
    LayersFit(cfg, p, side, env);
    assert Apply(cfg, p, OfGuest(LayersAnswer(env)), closed) == DoLayers(cfg, p, side, env);
    match Layers(cfg, p, side.act.call, env) {
      case Replies(result) => ReplyKeeps(cfg, p, side, side.act.call, result, closed);
      case Mints(task) => MintKeeps(cfg, p, side, task, closed);
      case Calls(handler) => CallKeeps(cfg, p, side, handler, closed);
    }
  }

  lemma CallKeeps(cfg: Config, p: Proc, side: Side, handler: HandlerCall, closed: bool)
    requires Inv(cfg, p, closed) && DrivingNow(p, side) && HandlerInv(cfg, p, side, handler)
    ensures Inv(cfg, WithSide(p, side, Some(handler)), closed)
  {
    var q' := p.mem.quantum.value.(guest := Running(side, Some(handler)));
    var p' := WithQuantum(p, q');
    if handler.viaTask {
      var id :| ApprovedAtTail(p, id) && p.mem.tasks[id].syscall == handler.call;
      assert ApprovedAtTail(p', id);
    }
    assert HandlerInv(cfg, p', side, handler) by {
      if HasTask(p'.mem, p'.mem.journal.revision, Tail(p')) {
        var id :| TaskAt(p'.mem, id, p'.mem.journal.revision, Tail(p'));
        assert TaskAt(p.mem, id, p.mem.journal.revision, Tail(p));
      }
    }
    QuantumStepKeeps(cfg, p, q', closed);
  }

  lemma HandlerReturnKeeps(cfg: Config, p: Proc, below: Tape.Below, env: Env, closed: bool)
    requires Inv(cfg, p, closed) && Enabled(cfg, p, OfGuest(HandlerReturns(below, env)))
    ensures Inv(cfg, Apply(cfg, p, OfGuest(HandlerReturns(below, env)), closed), closed)
  {
    var q := p.mem.quantum.value;
    var side, handler := q.guest.side, q.guest.handler.value;
    assert Apply(cfg, p, OfGuest(HandlerReturns(below, env)), closed) == DoHandler(cfg, p, side, handler, below, env);
    match below {
      case Fails => FaultKeeps(cfg, p, side, closed);
      case Answers(result) =>
        if result.status.Yielded? && !handler.viaTask {
          MintKeeps(cfg, p, side, NewTask(cfg, p, side.act.call, result.message, env), closed);
        } else {
          ReplyKeeps(cfg, p, side, side.act.call, result, closed);
        }
    }
  }

  lemma FaultKeeps(cfg: Config, p: Proc, side: Side, closed: bool)
    requires Inv(cfg, p, closed) && DrivingNow(p, side)
    ensures Inv(cfg, WithSide(p, Fault(side), None), closed)
  {
    QuantumStepKeeps(cfg, p, p.mem.quantum.value.(guest := Running(Fault(side), None)), closed);
  }

  lemma StrayKeeps(cfg: Config, p: Proc, call: Syscall, closed: bool)
    requires Inv(cfg, p, closed) && Enabled(cfg, p, OfGuest(GuestStray(call)))
    ensures Inv(cfg, Apply(cfg, p, OfGuest(GuestStray(call)), closed), closed)
  {
    var q := p.mem.quantum.value;
    StrayCallsAreRefused(ViewOf(p.mem.journal), q.guest.side, call, q.revision);
    var q' := q.(guest := Running(q.guest.side, None));
    assert Apply(cfg, p, OfGuest(GuestStray(call)), closed) == WithQuantum(p, q');
    QuantumStepKeeps(cfg, p, q', closed);
  }

  lemma GuestStepKeeps(cfg: Config, p: Proc, a: GuestAction, closed: bool)
    requires Inv(cfg, p, closed) && Enabled(cfg, p, OfGuest(a))
    ensures Inv(cfg, Apply(cfg, p, OfGuest(a), closed), closed)
  {
    var q := p.mem.quantum.value;
    match a {
      case GuestAsk => AskKeeps(cfg, p, closed);
      case GuestStray(call) => StrayKeeps(cfg, p, call, closed);
      case LayersAnswer(env) => LayersAnswerKeeps(cfg, p, env, closed);
      case HandlerReturns(below, env) => HandlerReturnKeeps(cfg, p, below, env, closed);
      case GuestCommit => CommitKeeps(cfg, p, closed);
      case LayersFail => FaultKeeps(cfg, p, q.guest.side, closed);
      case _ => BootOrEndKeeps(cfg, p, a, closed);
    }
  }

  lemma BootOrEndKeeps(cfg: Config, p: Proc, a: GuestAction, closed: bool)
    requires Inv(cfg, p, closed) && Enabled(cfg, p, OfGuest(a))
    requires a.GuestBoot? || a.GuestSetupEnds? || a.GuestEnds?
    ensures Inv(cfg, Apply(cfg, p, OfGuest(a), closed), closed)
  {
    var q := p.mem.quantum.value;
    match a {
      case GuestBoot => QuantumStepKeeps(cfg, p, q.(guest := Running(BOOT, None)), closed);
      case GuestSetupEnds(ending) => QuantumStepKeeps(cfg, p, q.(guest := Ended(ending, BOOT)), closed);
      case GuestEnds(ending) => QuantumStepKeeps(cfg, p, q.(guest := Ended(ending, q.guest.side)), closed);
    }
  }
}
