/** Boot: one pass over a session's event stream rebuilds its processes, their journals,
    its tasks and who holds it, and the runtime's memory from them. */
module Restore {
  import opened Sys
  import opened Durable
  import opened History
  import opened Journal
  import opened Runtime
  import P = Process
  import S = Session
  import Inv = SessionInv
  import Steps = ProcessSteps
  import Tasks

  // ---- Folding ----------------------------------------------------------

  /** A process state event is tagged with its own process. */
  predicate WellTagged(events: seq<Event>) {
    forall i :: 0 <= i < |events| && events[i].payload.ProcessState? ==>
      events[i].proc == events[i].payload.process.identity.id
  }

  /** Folding the interleaved stream is folding each process's own part of it. */
  lemma {:induction false} FoldIsPerProcess(events: seq<Event>, pid: string)
    requires WellTagged(events)
    ensures pid in S.FoldProcesses(events) <==> LastStored(LogOf(events, pid)).Some?
    ensures pid in S.FoldProcesses(events) ==>
      && LastStored(LogOf(events, pid)) == Some(S.FoldProcesses(events)[pid])
      && S.FoldProcesses(events)[pid].identity.id == pid
  {
    if events != [] {
      var front, last := events[..|events| - 1], events[|events| - 1];
      FoldIsPerProcess(front, pid);
      var log := LogOf(front, pid);
      assert (log + [last.payload])[..|log|] == log;
    }
  }

  predicate IsTaskEvent(e: Payload) {
    e.TaskCreated? || e.TaskResolved?
  }

  /** Task events are tagged with the task's process, and an id is one process's. */
  ghost predicate TasksTagged(events: seq<Event>) {
    && (forall i :: 0 <= i < |events| && IsTaskEvent(events[i].payload) ==>
          events[i].proc == events[i].payload.task.scope.process)
    && (forall i, j :: 0 <= i < |events| && 0 <= j < |events| && SameTask(events[i], events[j]) ==>
          events[i].proc == events[j].proc)
  }

  predicate SameTask(a: Event, b: Event) {
    IsTaskEvent(a.payload) && IsTaskEvent(b.payload) && a.payload.task.id == b.payload.task.id
  }

  predicate LogsTask(e: Event, task: TaskRecord) {
    IsTaskEvent(e.payload) && e.payload.task == task
  }

  lemma {:induction false} FoldedTaskWasLogged(events: seq<Event>, id: string)
    requires id in Tasks.FoldStream(events)
    ensures Tasks.FoldStream(events)[id].id == id
    ensures exists i :: 0 <= i < |events| && LogsTask(events[i], Tasks.FoldStream(events)[id])
  {
    var n := |events| - 1;
    if !(IsTaskEvent(events[n].payload) && events[n].payload.task.id == id) {
      FoldedTaskWasLogged(events[..n], id);
      var i :| 0 <= i < n && LogsTask(events[..n][i], Tasks.FoldStream(events[..n])[id]);
      assert LogsTask(events[i], Tasks.FoldStream(events)[id]);
    } else {
      assert LogsTask(events[n], Tasks.FoldStream(events)[id]);
    }
  }

  /** The one task store folds each process's tasks as its own part of the stream does. */
  lemma {:induction false} TasksFoldPerProcess(events: seq<Event>, id: string)
    requires TasksTagged(events) && id in Tasks.FoldStream(events)
    ensures var log := LogOf(events, Tasks.FoldStream(events)[id].scope.process);
      id in FoldTasks(log) && FoldTasks(log)[id] == Tasks.FoldStream(events)[id]
  {
    var pid := Tasks.FoldStream(events)[id].scope.process;
    var n := |events| - 1;
    var front, last := events[..n], events[n];
    var log := LogOf(front, pid);
    assert (log + [last.payload])[..|log|] == log;
    assert TasksTagged(front) by {
      assert forall i :: 0 <= i < n ==> front[i] == events[i];
    }
    if !(IsTaskEvent(last.payload) && last.payload.task.id == id) {
      assert Tasks.FoldStream(front)[id] == Tasks.FoldStream(events)[id];
      TasksFoldPerProcess(front, id);
      FoldedTaskWasLogged(front, id);
    }
  }

  method FoldProcesses(events: seq<Event>) returns (stored: map<string, StoredProcess>)
    ensures stored == S.FoldProcesses(events)
  {
    stored := map[];
    for i := 0 to |events|
      invariant stored == S.FoldProcesses(events[..i])
    {
      assert events[..i + 1][..i] == events[..i];
      match events[i].payload {
        case ProcessState(process) => stored := stored[process.identity.id := process];
        case _ =>
      }
    }
    assert events[..|events|] == events;
  }

  method FoldTaskRecords(events: seq<Event>) returns (records: Tasks.Records)
    ensures records == Tasks.FoldStream(events)
  {
    records := map[];
    for i := 0 to |events|
      invariant records == Tasks.FoldStream(events[..i])
    {
      assert events[..i + 1][..i] == events[..i];
      match events[i].payload {
        case TaskCreated(task) => records := records[task.id := task];
        case TaskResolved(task) => records := records[task.id := task];
        case _ =>
      }
    }
    assert events[..|events|] == events;
  }

  // ---- Creation order ---------------------------------------------------

  /** Any two processes of different ids come one before the other. */
  lemma {:induction false} IdLessIsTotal(a: string, b: string)
    ensures a == b || S.IdLess(a, b) || S.IdLess(b, a)
    decreases |b|
  {
    if a != [] && b != [] {
      IdLessIsTotal(a[1..], b[1..]);
      if a[1..] == b[1..] && a[0] == b[0] {
        assert a == [a[0]] + a[1..] && b == [b[0]] + b[1..];
      }
    }
  }

  lemma {:induction false} IdLessIsTransitive(a: string, b: string, c: string)
    requires S.IdLess(a, b) && S.IdLess(b, c)
    ensures S.IdLess(a, c)
    decreases |c|
  {
    if a != [] && a[0] == b[0] == c[0] {
      IdLessIsTransitive(a[1..], b[1..], c[1..]);
    }
  }

  predicate Earlier(stored: map<string, StoredProcess>, a: string, b: string) {
    a in stored && b in stored && S.CreatedBefore(stored[a].identity, stored[b].identity)
  }

  lemma EarlierIsTransitive(stored: map<string, StoredProcess>, a: string, b: string, c: string)
    requires Earlier(stored, a, b) && Earlier(stored, b, c)
    ensures Earlier(stored, a, c)
  {
    var x, y, z := stored[a].identity, stored[b].identity, stored[c].identity;
    if x.createdAt == y.createdAt == z.createdAt {
      IdLessIsTransitive(x.id, y.id, z.id);
    }
  }

  ghost predicate InOrder(order: seq<string>, stored: map<string, StoredProcess>) {
    && (forall pid :: pid in order ==> pid in stored)
    && forall i, j :: 0 <= i < j < |order| ==> Earlier(stored, order[i], order[j])
  }

  /** Each process is stored under its own id. */
  ghost predicate FiledById(stored: map<string, StoredProcess>) {
    forall pid :: pid in stored ==> stored[pid].identity.id == pid
  }

  /** Where a process goes among those created before and after it. */
  method Insert(order: seq<string>, pid: string, stored: map<string, StoredProcess>) returns (longer: seq<string>)
    requires FiledById(stored) && InOrder(order, stored) && pid in stored && pid !in order
    ensures InOrder(longer, stored)
    ensures forall other :: other in longer <==> other in order || other == pid
  {
    var i := |order|;
    while i > 0 && S.CreatedBefore(stored[pid].identity, stored[order[i - 1]].identity)
      invariant 0 <= i <= |order|
      invariant forall j :: i <= j < |order| ==> Earlier(stored, pid, order[j])
    {
      i := i - 1;
    }
    longer := order[..i] + [pid] + order[i..];
    if i > 0 {
      IdLessIsTotal(order[i - 1], pid);
    }
    InsertedInOrder(order, i, pid, stored);
  }

  lemma InsertedInOrder(order: seq<string>, i: nat, pid: string, stored: map<string, StoredProcess>)
    requires i <= |order| && InOrder(order, stored) && pid in stored
    requires forall j :: i <= j < |order| ==> Earlier(stored, pid, order[j])
    requires i > 0 ==> Earlier(stored, order[i - 1], pid)
    ensures InOrder(order[..i] + [pid] + order[i..], stored)
    ensures forall other :: other in order[..i] + [pid] + order[i..] <==> other in order || other == pid
  {
    InsertedMembers(order, i, pid);
    var longer := order[..i] + [pid] + order[i..];
    forall j: nat, k: nat | j < k < |longer| ensures Earlier(stored, longer[j], longer[k]) {
      InsertedAt(order, i, pid, j);
      InsertedAt(order, i, pid, k);
      EarlierThanInserted(order, i, pid, stored, j);
    }
  }

  lemma EarlierThanInserted(order: seq<string>, i: nat, pid: string, stored: map<string, StoredProcess>, j: nat)
    requires i <= |order| && InOrder(order, stored) && (i > 0 ==> Earlier(stored, order[i - 1], pid))
    ensures j < i ==> Earlier(stored, order[j], pid)
  {
    if j < i - 1 {
      EarlierIsTransitive(stored, order[j], order[i - 1], pid);
    }
  }

  lemma InsertedAt(order: seq<string>, i: nat, pid: string, j: nat)
    requires i <= |order| && j <= |order|
    ensures (order[..i] + [pid] + order[i..])[j] == if j < i then order[j] else if j == i then pid else order[j - 1]
  {
  }

  lemma InsertedMembers(order: seq<string>, i: nat, pid: string)
    requires i <= |order|
    ensures forall other :: other in order[..i] + [pid] + order[i..] <==> other in order || other == pid
  {
    assert order == order[..i] + order[i..];
  }

  /** The folded processes by creation time, then id, from a map walked in no particular
      order. */
  method CreationOrder(stored: map<string, StoredProcess>) returns (order: seq<string>)
    requires FiledById(stored)
    ensures S.InCreationOrder(order, stored)
  {
    order := [];
    var rest := stored.Keys;
    while rest != {}
      invariant rest <= stored.Keys && InOrder(order, stored)
      invariant forall pid :: pid in order <==> pid in stored && pid !in rest
      decreases rest
    {
      var pid :| pid in rest;
      rest := rest - {pid};
      order := Insert(order, pid, stored);
    }
    assert forall i, j :: 0 <= i < j < |order| ==> Earlier(stored, order[i], order[j]);
  }

  /** The earliest process that is not completed, failed or stopped. */
  method Foreground(order: seq<string>, stored: map<string, StoredProcess>) returns (active: Option<string>)
    requires forall pid :: pid in order ==> pid in stored
    ensures active == S.FirstActive(order, stored)
  {
    active := None;
    for i := 0 to |order|
      invariant active.None? ==> S.FirstActive(order, stored) == S.FirstActive(order[i..], stored)
      invariant active.Some? ==> S.FirstActive(order, stored) == active
    {
      assert order[i..][1..] == order[i + 1..];
      if active.None? && IsActive(stored[order[i]].status) {
        active := Some(order[i]);
      }
    }
  }

  // ---- Journals ---------------------------------------------------------

  /** The fold found the process's history, or nothing was ever journaled for it. */
  ghost predicate HistoryFound(histories: map<string, ProcessHistory>, events: seq<Event>, pid: string)
    reads histories.Values
  {
    P.FoldHistory(LogOf(events, pid)) == if pid in histories then histories[pid].byPos else map[]
  }

  ghost predicate Separate(histories: map<string, ProcessHistory>) {
    forall a, b :: a in histories && b in histories && a != b ==> histories[a] != histories[b]
  }

  lemma FoldOneMore(events: seq<Event>, i: nat, pid: string)
    requires i < |events|
    ensures P.FoldHistory(LogOf(events[..i + 1], pid))
         == if events[i].proc == pid && events[i].payload.SyscallRecorded?
            then Add(P.FoldHistory(LogOf(events[..i], pid)), events[i].payload.record)
            else P.FoldHistory(LogOf(events[..i], pid))
  {
    assert events[..i + 1][..i] == events[..i];
    var log := LogOf(events[..i], pid);
    assert (log + [events[i].payload])[..|log|] == log;
  }

  /** Rebuilds every process's history in one pass over the stream. */
  method FoldJournals(events: seq<Event>) returns (histories: map<string, ProcessHistory>)
    ensures Separate(histories) && forall pid :: pid in histories ==> fresh(histories[pid])
    ensures forall pid :: HistoryFound(histories, events, pid)
  {
    histories := map[];
    for i := 0 to |events|
      invariant Separate(histories) && forall pid :: pid in histories ==> fresh(histories[pid])
      invariant forall pid :: HistoryFound(histories, events[..i], pid)
    {
      var event := events[i];
      ghost var was := histories;
      label Before:
      assert HistoryFound(was, events[..i], event.proc);
      if event.payload.SyscallRecorded? {
        if event.proc !in histories {
          var history := new ProcessHistory();
          histories := histories[event.proc := history];
        }
        histories[event.proc].Admit(event.payload.record);
      }
      ghost var folded := events[..i + 1];
      forall pid ensures HistoryFound(histories, folded, pid) {
        assert old@Before(HistoryFound(was, events[..i], pid));
        FoldOneMore(events, i, pid);
        if pid in was && pid != event.proc && event.payload.SyscallRecorded? {
          assert was[pid] != histories[event.proc];
        }
      }
    }
    assert events[..|events|] == events;
  }

  // ---- The session ------------------------------------------------------

  /** A stored process restored on its own history. */
  method RestoreProcess(r: Runtime, stored: StoredProcess, history: ProcessHistory, ghost log: seq<Payload>)
    returns (proc: ProcessState, ok: bool)
    requires LastStored(log) == Some(stored) && P.FoldHistory(log) == history.byPos
    requires r.taints.observed == map[] && LogOf(r.log.events, stored.identity.id) == log
    modifies r.log
    ensures fresh(proc) && fresh(proc.journal) && proc.journal.history == history
    ensures proc.id == stored.identity && r.Holds(proc, P.RestoredFrom(log))
    ensures old(r.log.room) > 0 ==> ok
    ensures ok ==> r.log.events == old(r.log.events) + S.Tagged(stored.identity.id, P.RestoredFrom(log).log[|log|..])
    ensures ok ==> old(r.log.room) <= r.log.room + 1
  {
    var status := if IsLive(stored.status) then ProcessInterrupted else stored.status;
    var length := history.FindLength(stored.revision, stored.forkOffset);
    LengthIsUnique(history.byPos, stored.revision, stored.forkOffset, length, P.RestoredLength(history.byPos, stored));
    var journal := new LogJournal(r.log, stored.identity.id, stored.revision, history, length, stored.forkOffset);
    proc := new ProcessState(stored.(status := status), journal);
    ok := true;
    if status != stored.status {
      ok := r.AppendProcess(proc);
    }
    ghost var restored, added := P.RestoredFrom(log), ProcessState(proc.Stored());
    assert restored.log == if status != stored.status then log + [added] else log;
    assert restored.log[|log|..] == if status != stored.status then [added] else [];
    assert S.Tagged(stored.identity.id, [added]) == [Event(stored.identity.id, added)];
    assert S.Tagged(stored.identity.id, []) == [];
    assert old(r.log.events) + [] == old(r.log.events);
  }

  /** The map holds the process as its own part of the stream restores it. */
  ghost predicate Wanted(whole: map<string, P.Proc>, events: seq<Event>, pid: string) {
    && pid in whole && LastStored(LogOf(events, pid)).Some?
    && whole[pid] == P.RestoredFrom(LogOf(events, pid))
  }

  lemma {:induction false} TaggedElsewhere(stream: seq<Event>, pid: string, payloads: seq<Payload>, other: string)
    requires other != pid
    ensures LogOf(stream + S.Tagged(pid, payloads), other) == LogOf(stream, other)
  {
    var longer := stream + S.Tagged(pid, payloads);
    if payloads == [] {
      assert longer == stream;
    } else {
      var front := payloads[..|payloads| - 1];
      assert longer[..|longer| - 1] == stream + S.Tagged(pid, front);
      TaggedElsewhere(stream, pid, front, other);
    }
  }

  lemma {:induction false} NotYetRestored(events: seq<Event>, ids: seq<string>, pid: string)
    requires forall x :: x in ids ==> LastStored(LogOf(events, x)).Some?
    requires pid !in ids
    ensures LogOf(S.RebootedStream(events, ids), pid) == LogOf(events, pid)
  {
    if ids != [] {
      var front, last := ids[..|ids| - 1], ids[|ids| - 1];
      assert last in ids;
      NotYetRestored(events, front, pid);
      var log := LogOf(events, last);
      TaggedElsewhere(S.RebootedStream(events, front), last, P.RestoredFrom(log).log[|log|..], pid);
    }
  }

  lemma OneMoreRestored(events: seq<Event>, order: seq<string>, i: nat)
    requires i < |order| && forall x :: x in order ==> LastStored(LogOf(events, x)).Some?
    ensures var log := LogOf(events, order[i]);
      S.RebootedStream(events, order[..i + 1])
      == S.RebootedStream(events, order[..i]) + S.Tagged(order[i], P.RestoredFrom(log).log[|log|..])
  {
    assert order[..i + 1][..i] == order[..i];
  }

  /** The list names each recorded process once, with its last stored state. */
  ghost predicate Listed(events: seq<Event>, order: seq<string>, stored: map<string, StoredProcess>) {
    && (forall x :: x in order ==>
          x in stored && LastStored(LogOf(events, x)) == Some(stored[x]) && stored[x].identity.id == x)
    && forall i, j :: 0 <= i < j < |order| ==> order[i] != order[j]
  }

  lemma FoldIsFiledById(events: seq<Event>)
    requires WellTagged(events)
    ensures FiledById(S.FoldProcesses(events))
  {
    forall pid | pid in S.FoldProcesses(events) ensures S.FoldProcesses(events)[pid].identity.id == pid {
      FoldIsPerProcess(events, pid);
    }
  }

  lemma FoldIsListed(events: seq<Event>, order: seq<string>)
    requires WellTagged(events) && S.InCreationOrder(order, S.FoldProcesses(events))
    ensures Listed(events, order, S.FoldProcesses(events))
  {
    var stored := S.FoldProcesses(events);
    forall pid | pid in order
      ensures LastStored(LogOf(events, pid)) == Some(stored[pid]) && stored[pid].identity.id == pid
    {
      FoldIsPerProcess(events, pid);
    }
    forall i, j | 0 <= i < j < |order| ensures order[i] != order[j] {
      assert S.CreatedBefore(stored[order[i]].identity, stored[order[j]].identity);
      Inv.CreatedBeforeIsAsymmetric(stored[order[i]].identity, stored[order[j]].identity);
    }
  }

  lemma {:induction false} NoLongerThan(order: seq<string>, names: set<string>)
    requires forall x :: x in order ==> x in names
    requires forall i, j :: 0 <= i < j < |order| ==> order[i] != order[j]
    ensures |order| <= |names|
  {
    if order != [] {
      var front, last := order[..|order| - 1], order[|order| - 1];
      assert last in order && last !in front;
      forall x | x in front ensures x in names - {last} {
        assert x in order;
      }
      NoLongerThan(front, names - {last});
    }
  }

  /** Restores the next process of the list. */
  method RestoreNext(
    r: Runtime, events: seq<Event>, order: seq<string>, i: nat,
    stored: map<string, StoredProcess>, histories: map<string, ProcessHistory>, ghost whole: map<string, P.Proc>)
    returns (proc: ProcessState, ok: bool)
    requires i < |order| && Listed(events, order, stored)
    requires HistoryFound(histories, events, order[i]) && r.taints.observed == map[]
    requires Wanted(whole, events, order[i]) && r.log.events == S.RebootedStream(events, order[..i])
    modifies r.log
    ensures fresh(proc) && proc.id.id == order[i] && r.Holds(proc, whole[order[i]])
    ensures old(r.log.room) > 0 ==> ok
    ensures ok ==> old(r.log.room) <= r.log.room + 1
    ensures ok ==> r.log.events == S.RebootedStream(events, order[..i + 1])
  {
    var pid := order[i];
    var history;
    if pid in histories {
      history := histories[pid];
    } else {
      // The process never journaled anything.
      history := new ProcessHistory();
    }
    NotYetRestored(events, order[..i], pid);
    OneMoreRestored(events, order, i);
    proc, ok := RestoreProcess(r, stored[pid], history, LogOf(events, pid));
  }

  /** The objects hold the wanted processes, in order. */
  ghost predicate AllHold(r: Runtime, procs: seq<ProcessState>, order: seq<string>, whole: map<string, P.Proc>)
    reads r.taints, procs, set p | p in procs :: p.journal, set p | p in procs :: p.journal.history
  {
    procs != [] ==>
      var n := |procs| - 1;
      && n < |order| && order[n] in whole && r.Holds(procs[n], whole[order[n]])
      && AllHold(r, procs[..n], order, whole)
  }

  lemma AllHoldAndMore(
    r: Runtime, procs: seq<ProcessState>, proc: ProcessState, order: seq<string>, whole: map<string, P.Proc>)
    requires AllHold(r, procs, order, whole) && |procs| < |order|
    requires order[|procs|] in whole && r.Holds(proc, whole[order[|procs|]])
    ensures AllHold(r, procs + [proc], order, whole)
  {
    assert (procs + [proc])[..|procs|] == procs;
  }

  lemma {:induction false} EachHolds(
    r: Runtime, procs: seq<ProcessState>, order: seq<string>, whole: map<string, P.Proc>, k: nat)
    requires AllHold(r, procs, order, whole) && k < |procs|
    ensures k < |order| && order[k] in whole && r.Holds(procs[k], whole[order[k]])
  {
    if k < |procs| - 1 {
      EachHolds(r, procs[..|procs| - 1], order, whole, k);
    }
  }

  /** The runtime lists exactly the first i processes, as these objects. */
  ghost predicate ListedSoFar(r: Runtime, order: seq<string>, i: nat, procs: seq<ProcessState>)
    requires i == |procs| <= |order|
    reads r, r.session
  {
    && r.session.processIDs == order[..i] && (forall pid :: pid in r.processes <==> pid in order[..i])
    && forall k :: 0 <= k < i ==> order[k] in r.processes && r.processes[order[k]] == procs[k]
  }

  /** The first i listed processes have been restored. */
  ghost predicate Progress(
    r: Runtime, events: seq<Event>, order: seq<string>, i: nat, procs: seq<ProcessState>, whole: map<string, P.Proc>)
    requires i <= |order| && forall x :: x in order ==> LastStored(LogOf(events, x)).Some?
    reads r, r.session, r.log, r.taints, procs, set p | p in procs :: p.journal, set p | p in procs :: p.journal.history
  {
    && |procs| == i && ListedSoFar(r, order, i, procs)
    && AllHold(r, procs, order, whole)
    && r.log.events == S.RebootedStream(events, order[..i])
  }

  /** Lists a restored process after those before it. */
  method Admit(
    r: Runtime, ghost events: seq<Event>, proc: ProcessState, order: seq<string>, ghost i: nat,
    ghost procs: seq<ProcessState>, ghost whole: map<string, P.Proc>) returns (ghost longer: seq<ProcessState>)
    requires i == |procs| < |order| && forall x :: x in order ==> LastStored(LogOf(events, x)).Some?
    requires proc.id.id == order[i] && order[i] !in order[..i]
    requires AllHold(r, procs, order, whole) && order[i] in whole && r.Holds(proc, whole[order[i]])
    requires ListedSoFar(r, order, i, procs) && r.log.events == S.RebootedStream(events, order[..i + 1])
    modifies r`processes, r.session`processIDs
    ensures Progress(r, events, order, i + 1, longer, whole)
  {
    longer := procs + [proc];
    AddToLists(r, proc, order, i, procs);
    AllHoldAndMore(r, procs, proc, order, whole);
  }

  method AddToLists(r: Runtime, proc: ProcessState, order: seq<string>, ghost i: nat, ghost procs: seq<ProcessState>)
    requires i == |procs| < |order| && proc.id.id == order[i] && order[i] !in order[..i]
    requires ListedSoFar(r, order, i, procs)
    modifies r`processes, r.session`processIDs
    ensures ListedSoFar(r, order, i + 1, procs + [proc])
  {
    assert order[..i + 1] == order[..i] + [order[i]];
    r.processes := r.processes[proc.id.id := proc];
    r.session.processIDs := r.session.processIDs + [proc.id.id];
  }

  /** Restores and lists the next process. */
  method RestoreStep(
    r: Runtime, events: seq<Event>, order: seq<string>, i: nat, stored: map<string, StoredProcess>,
    histories: map<string, ProcessHistory>, ghost procs: seq<ProcessState>, ghost whole: map<string, P.Proc>)
    returns (ok: bool, ghost longer: seq<ProcessState>)
    requires i < |order| && Listed(events, order, stored) && HistoryFound(histories, events, order[i])
    requires Wanted(whole, events, order[i])
    requires Progress(r, events, order, i, procs, whole) && r.taints.observed == map[]
    modifies r`processes, r.session`processIDs, r.log
    ensures old(r.log.room) > 0 ==> ok
    ensures ok ==> old(r.log.room) <= r.log.room + 1
    ensures ok ==> Progress(r, events, order, i + 1, longer, whole)
  {
    var proc;
    longer := [];
    proc, ok := RestoreNext(r, events, order, i, stored, histories, whole);
    assert AllHold(r, procs, order, whole);
    if ok {
      longer := Admit(r, events, proc, order, i, procs, whole);
    }
  }

  lemma NothingRestoredYet(r: Runtime, events: seq<Event>, order: seq<string>, whole: map<string, P.Proc>)
    requires forall x :: x in order ==> LastStored(LogOf(events, x)).Some?
    requires r.log.events == events && r.processes == map[] && r.session.processIDs == []
    ensures Progress(r, events, order, 0, [], whole)
  {
  }

  /** Restores the listed processes, one after another. */
  method RestoreAll(
    r: Runtime, events: seq<Event>, order: seq<string>,
    stored: map<string, StoredProcess>, histories: map<string, ProcessHistory>, ghost whole: map<string, P.Proc>)
    returns (ok: bool, ghost procs: seq<ProcessState>)
    requires Listed(events, order, stored) && forall pid :: HistoryFound(histories, events, pid)
    requires forall x :: x in order ==> Wanted(whole, events, x)
    requires r.log.events == events && r.taints.observed == map[] && r.processes == map[] && r.session.processIDs == []
    modifies r`processes, r.session`processIDs, r.log
    ensures old(r.log.room) >= |order| ==> ok
    ensures ok ==> Progress(r, events, order, |order|, procs, whole)
  {
    ok, procs := true, [];
    NothingRestoredYet(r, events, order, whole);
    for i := 0 to |order|
      invariant Progress(r, events, order, i, procs, whole)
      invariant old(r.log.room) <= r.log.room + i
      invariant forall pid :: HistoryFound(histories, events, pid)
    {
      ok, procs := RestoreStep(r, events, order, i, stored, histories, procs, whole);
      if !ok {
        return;
      }
    }
  }

  /** The log rebuilds a journal whose structure is whole. */
  ghost predicate Intact(log: seq<Payload>) {
    LastStored(log).Some? && P.JournalIsPlaced(P.RestoredFrom(log).mem.journal)
  }

  /** Every process of a sound session left such a log behind, so a boot can run each of
      them on at once. */
  lemma SoundSessionsAreIntact(b: S.Binding, s: S.Session, pid: string)
    requires Inv.SessionSound(b, s) && pid in s.procs
    ensures Intact(LogOf(s.stream, pid))
  {
    Inv.LivesAreSound(b, s, pid);
    Steps.RestoreIsSound(b(s.procs[pid].id), s.procs[pid]);
  }

  /** Folds one session's stream back into memory: its processes in creation order, each
      with its journal, and who holds the session. A process a crash left under way is
      marked interrupted, and that is recorded. */
  method RestoreSession(r: Runtime, events: seq<Event>) returns (ok: bool)
    requires WellTagged(events) && r.log.events == events
    requires r.taints.observed == map[] && r.processes == map[] && r.session.processIDs == []
    modifies r`processes, r.session, r.log
    ensures old(r.log.room) >= |S.FoldProcesses(events)| ==> ok
    ensures ok ==> S.InCreationOrder(r.session.processIDs, S.FoldProcesses(events))
    ensures ok ==> r.session.activeProcessID == S.FirstActive(r.session.processIDs, S.FoldProcesses(events))
    ensures ok ==> forall pid :: pid in r.processes <==> pid in S.FoldProcesses(events)
    ensures forall pid :: pid in S.FoldProcesses(events) ==> LastStored(LogOf(events, pid)).Some?
    ensures ok ==> forall pid :: pid in S.FoldProcesses(events) ==>
      && r.Holds(r.processes[pid], P.RestoredFrom(LogOf(events, pid)))
      && (Intact(LogOf(events, pid)) ==> r.processes[pid].Valid())
    ensures ok ==> r.log.events == S.RebootedStream(events, r.session.processIDs)
  {
    FoldedIsStored(events);
    var order, stored, histories := FoldSession(events);
    r.session.activeProcessID := Foreground(order, stored);
    ok := RestoreListed(r, events, order, stored, histories);
  }

  /** Restores what the stream lists. */
  method RestoreListed(
    r: Runtime, events: seq<Event>, order: seq<string>,
    stored: map<string, StoredProcess>, histories: map<string, ProcessHistory>) returns (ok: bool)
    requires Listed(events, order, stored) && forall pid :: HistoryFound(histories, events, pid)
    requires r.log.events == events && r.taints.observed == map[] && r.processes == map[] && r.session.processIDs == []
    modifies r`processes, r.session`processIDs, r.log
    ensures old(r.log.room) >= |order| ==> ok
    ensures ok ==> r.session.processIDs == order && forall pid :: pid in r.processes <==> pid in order
    ensures ok ==> forall pid :: pid in order ==> r.Holds(r.processes[pid], P.RestoredFrom(LogOf(events, pid)))
    ensures ok ==> r.log.events == S.RebootedStream(events, order)
  {
    ghost var whole := map pid | pid in order :: P.RestoredFrom(LogOf(events, pid));
    ghost var procs;
    ok, procs := RestoreAll(r, events, order, stored, histories, whole);
    if ok {
      WholeProgress(r, events, order, procs, whole);
    }
  }

  lemma FoldedIsStored(events: seq<Event>)
    requires WellTagged(events)
    ensures forall pid :: pid in S.FoldProcesses(events) ==> LastStored(LogOf(events, pid)).Some?
  {
    forall pid ensures pid in S.FoldProcesses(events) ==> LastStored(LogOf(events, pid)).Some? {
      FoldIsPerProcess(events, pid);
    }
  }

  /** Everything a boot folds out of one stream. */
  method FoldSession(events: seq<Event>)
    returns (order: seq<string>, stored: map<string, StoredProcess>, histories: map<string, ProcessHistory>)
    requires WellTagged(events)
    ensures stored == S.FoldProcesses(events) && S.InCreationOrder(order, stored) && |order| <= |stored|
    ensures Listed(events, order, stored)
    ensures forall pid :: HistoryFound(histories, events, pid)
  {
    stored := FoldProcesses(events);
    FoldIsFiledById(events);
    order := CreationOrder(stored);
    FoldIsListed(events, order);
    NoLongerThan(order, stored.Keys);
    histories := FoldJournals(events);
  }

  lemma WholeProgress(
    r: Runtime, events: seq<Event>, order: seq<string>, procs: seq<ProcessState>, whole: map<string, P.Proc>)
    requires forall x :: x in order ==> LastStored(LogOf(events, x)).Some? && Wanted(whole, events, x)
    requires Progress(r, events, order, |order|, procs, whole)
    ensures r.session.processIDs == order && forall pid :: pid in r.processes <==> pid in order
    ensures forall pid :: pid in order ==> r.Holds(r.processes[pid], P.RestoredFrom(LogOf(events, pid)))
    ensures r.log.events == S.RebootedStream(events, order)
  {
    assert order[..|order|] == order;
    forall pid | pid in order ensures r.Holds(r.processes[pid], P.RestoredFrom(LogOf(events, pid))) {
      var k :| 0 <= k < |order| && order[k] == pid;
      EachHolds(r, procs, order, whole, k);
      assert Wanted(whole, events, pid);
    }
  }
}
