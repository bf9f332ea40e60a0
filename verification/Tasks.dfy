/** Durable tasks: a call that yields becomes a record a human or a deadline settles,
    and the settled record answers the call when it is driven again. */
module Tasks {
  import opened Sys
  import opened Durable
  import opened Journal
  import Tape

  // ---- Timers -----------------------------------------------------------

  /** The seconds a sys.timer call asks for. Absent properties decode to their zero
      value, and a property of the wrong type does not decode. */
  function TimerSeconds(call: Syscall): Option<int> {
    if !call.name.SysTimer? || call.args.Undecodable? then None else
      var p := call.args.properties;
      if "label" in p && !p["label"].Text? then None
      else if "duration_seconds" !in p then Some(0)
      else if p["duration_seconds"].Number? then Some(p["duration_seconds"].number)
      else None
  }

  function TimerFireAt(task: TaskRecord): Option<int> {
    match TimerSeconds(task.syscall)
    case Some(seconds) => Some(task.createdAt + seconds)
    case None => None
  }

  // ---- One task ---------------------------------------------------------

  predicate Overdue(task: TaskRecord, now: int) {
    task.expiresAt.Some? && task.expiresAt.value <= now
  }

  /** A pending task whose deadline passed: a timer's fire time, or its expiry. */
  predicate IsDue(task: TaskRecord, now: int) {
    && task.state.TaskPending?
    && match TimerFireAt(task)
       case Some(fireAt) => fireAt <= now
       case None => Overdue(task, now)
  }

  /** What its deadline decides: a timer fires, and anything else expires. */
  function Settled(task: TaskRecord, now: nat): TaskRecord {
    var resolution :=
      if TimerFireAt(task).Some? then TaskResolution(TaskCompleted, "timer", "", "fired")
      else TaskResolution(TaskExpired, "aurora", "no resolution before the task's deadline", "");
    task.(state := resolution.decision, resolution := resolution, resolvedAt := Some(now))
  }

  /** How a settled or pending task answers the call driven again. */
  datatype Resumption = AnswersWith(result: SyscallResult) | RunsApproved

  function Resume(task: TaskRecord, now: int): Resumption {
    match task.state
    case TaskPending =>
      if Overdue(task, now) then AnswersWith(FailCode(ExpiredErrno, "external task expired"))
      else AnswersWith(Yield(task.id))
    case TaskApproved => RunsApproved
    case TaskCompleted => AnswersWith(Result(task.resolution.data))
    case TaskDenied => AnswersWith(FailCode(Denied, Or(task.resolution.reason, "external task denied")))
    case TaskFailed => AnswersWith(FailCode(Internal, Or(task.resolution.reason, "external task failed")))
    case TaskCancelled => AnswersWith(FailCode(Denied, "external task cancelled"))
    case TaskExpired => AnswersWith(FailCode(ExpiredErrno, "external task expired"))
  }

  function Or(text: string, default: string): string {
    if text == "" then default else text
  }

  /** The record minted for a yield. A timer waits on nobody, so it has no expiry. */
  function Mint(
    scope: ProcessContext, id: string, position: nat, call: Syscall, summary: string,
    now: nat, ttl: nat, tokenHash: string): TaskRecord
  {
    TaskRecord(scope, id, position, call, summary, TaskPending, tokenHash, NO_RESOLUTION, now,
      if ttl > 0 && !call.name.SysTimer? then Some(now + ttl) else None, None)
  }

  // ---- The store, as a value --------------------------------------------

  type Records = map<string, TaskRecord>

  datatype Verdict = Resolved | Unchanged | NotFound | Unauthorized | Conflict | Gone

  /** Resolve's decision. The same decision again is accepted without a change. */
  function Judge(records: Records, id: string, tokenHash: string, resolution: TaskResolution, now: int): Verdict {
    if id !in records then NotFound
    else if records[id].tokenHash != tokenHash then Unauthorized
    else if !records[id].state.TaskPending? then
      if records[id].resolution.decision == resolution.decision
         && records[id].resolution.data == resolution.data
         && records[id].resolution.reason == resolution.reason then Unchanged else Conflict
    else if Overdue(records[id], now) then Gone
    else Resolved
  }

  function WithResolution(task: TaskRecord, resolution: TaskResolution, now: nat): TaskRecord {
    task.(state := resolution.decision, resolution := resolution, resolvedAt := Some(now))
  }

  ghost predicate Keyed(records: Records) {
    forall id :: id in records ==> records[id].id == id
  }

  // ---- Any interleaving of resolvers and sweeps -------------------------

  /** Store operations in lock order. Poll is a process driving the call again. */
  datatype Op =
    | CreateOp(task: TaskRecord)
    | ResolveOp(id: string, tokenHash: string, resolution: TaskResolution, now: nat)
    | SettleOp(id: string, now: nat)
    | PollOp(id: string, now: nat)

  function Do(records: Records, op: Op): Records {
    match op
    case CreateOp(task) => if task.id in records then records else records[task.id := task]
    case ResolveOp(id, hash, resolution, now) =>
      if Judge(records, id, hash, resolution, now).Resolved?
      then records[id := WithResolution(records[id], resolution, now)] else records
    case SettleOp(id, now) =>
      if id in records && IsDue(records[id], now) then records[id := Settled(records[id], now)] else records
    case PollOp(_, _) => records
  }

  function DoAll(records: Records, ops: seq<Op>): Records
    decreases |ops|
  {
    if ops == [] then records else DoAll(Do(records, ops[0]), ops[1..])
  }

  /** A human's decision is never pending or expired, and a minted task is pending and
      gives a timer no expiry. */
  predicate Proper(op: Op) {
    && (op.ResolveOp? ==> !op.resolution.decision.TaskPending? && !op.resolution.decision.TaskExpired?)
    && (op.CreateOp? ==> op.task.state.TaskPending? && (op.task.syscall.name.SysTimer? ==> op.task.expiresAt.None?))
  }

  ghost predicate AllProper(ops: seq<Op>) {
    forall i :: 0 <= i < |ops| ==> Proper(ops[i])
  }

  /** A task is settled at most once: whatever resolvers and sweeps follow, in any
      order, a task that is no longer pending keeps its state, resolution and time. */
  lemma {:induction false} SettledIsFrozen(records: Records, ops: seq<Op>, id: string)
    requires id in records && !records[id].state.TaskPending?
    ensures id in DoAll(records, ops) && DoAll(records, ops)[id] == records[id]
    decreases |ops|
  {
    if ops != [] {
      SettledIsFrozen(Do(records, ops[0]), ops[1..], id);
    }
  }

  /** The process was told the task expired. */
  predicate ToldExpired(records: Records, op: Op) {
    op.PollOp? && op.id in records
    && Resume(records[op.id], op.now) == AnswersWith(FailCode(ExpiredErrno, "external task expired"))
  }

  function TimeOf(op: Op): nat {
    match op
    case CreateOp(task) => task.createdAt
    case ResolveOp(_, _, _, now) => now
    case SettleOp(_, now) => now
    case PollOp(_, now) => now
  }

  ghost predicate ClockNonDecreasing(from: nat, ops: seq<Op>) {
    && (forall i :: 0 <= i < |ops| ==> from <= TimeOf(ops[i]))
    && (forall i, j :: 0 <= i < j < |ops| ==> TimeOf(ops[i]) <= TimeOf(ops[j]))
  }

  /** A timer never carries an expiry. */
  ghost predicate TimersDoNotExpire(records: Records) {
    forall id :: id in records && records[id].syscall.name.SysTimer? ==> records[id].expiresAt.None?
  }

  /** The task's only way left is to expire. */
  predicate Lapsed(task: TaskRecord, now: nat) {
    task.state.TaskExpired? || (task.state.TaskPending? && Overdue(task, now) && !task.syscall.name.SysTimer?)
  }

  /** A resolver holding the task's token read the clock before the task's expiry. */
  predicate InTime(task: TaskRecord, id: string, op: Op) {
    && op.ResolveOp? && op.id == id && op.tokenHash == task.tokenHash
    && (task.expiresAt.Some? ==> op.now < task.expiresAt.value)
  }

  /** A sweep finds the task past its expiry. */
  predicate SweepsLate(task: TaskRecord, id: string, op: Op) {
    op.SettleOp? && op.id == id && task.expiresAt.Some? && task.expiresAt.value <= op.now
  }

  /** The i-th operation is such a resolver, and no sweep settled the task before it. */
  predicate DecidesInTime(task: TaskRecord, id: string, ops: seq<Op>, i: int) {
    && 0 <= i < |ops| && InTime(task, id, ops[i])
    && forall j :: 0 <= j < i ==> !SweepsLate(task, id, ops[j])
  }

  predicate Undecided(task: TaskRecord) {
    task.state.TaskPending? || task.state.TaskExpired?
  }

  /** Exactly when a pending task that is no timer is decided, whether or not a guest was
      told that it expired: a resolver with its token read the clock before the expiry, and
      took the store's lock before any sweep that found the task overdue. */
  lemma {:induction false} DecidedExactlyInTime(records: Records, ops: seq<Op>, id: string)
    requires AllProper(ops) && id in records
    requires records[id].state.TaskPending? && TimerFireAt(records[id]).None?
    ensures id in DoAll(records, ops)
    ensures !Undecided(DoAll(records, ops)[id]) <==> exists i :: DecidesInTime(records[id], id, ops, i)
    decreases |ops|
  {
    if ops != [] {
      var after := Do(records, ops[0]);
      assert Proper(ops[0]);
      if after[id].state.TaskPending? {
        DecidedExactlyInTime(after, ops[1..], id);
        LaterDecision(records[id], id, ops);
      } else {
        SettledIsFrozen(after, ops[1..], id);
        FirstDecision(records, id, ops);
      }
    }
  }

  /** The first operation leaves the task pending, so a later one decides it or none. */
  lemma LaterDecision(task: TaskRecord, id: string, ops: seq<Op>)
    requires ops != [] && !InTime(task, id, ops[0])
    requires !SweepsLate(task, id, ops[0])
    ensures (exists i :: DecidesInTime(task, id, ops, i)) <==> (exists i :: DecidesInTime(task, id, ops[1..], i))
  {
    if i :| DecidesInTime(task, id, ops, i) {
      assert DecidesInTime(task, id, ops[1..], i - 1);
    }
    if i :| DecidesInTime(task, id, ops[1..], i) {
      assert DecidesInTime(task, id, ops, i + 1);
    }
  }

  /** The first operation settles the task: a resolver in time, or the sweep. */
  lemma FirstDecision(records: Records, id: string, ops: seq<Op>)
    requires ops != [] && Proper(ops[0]) && id in records
    requires records[id].state.TaskPending? && TimerFireAt(records[id]).None?
    requires !Do(records, ops[0])[id].state.TaskPending?
    ensures !Undecided(Do(records, ops[0])[id]) <==> exists i :: DecidesInTime(records[id], id, ops, i)
  {
    if InTime(records[id], id, ops[0]) {
      assert DecidesInTime(records[id], id, ops, 0);
    } else {
      assert SweepsLate(records[id], id, ops[0]);
    }
  }

  /** And as what: with the decision and the resolution of the first resolver in time. */
  lemma {:induction false} DecidedAsTheFirstResolverSaid(records: Records, ops: seq<Op>, id: string, i: nat)
    requires AllProper(ops) && id in records
    requires records[id].state.TaskPending? && TimerFireAt(records[id]).None?
    requires DecidesInTime(records[id], id, ops, i)
    requires forall j: nat :: j < i ==> !DecidesInTime(records[id], id, ops, j)
    ensures id in DoAll(records, ops)
    ensures DoAll(records, ops)[id] ==
      records[id].(state := ops[i].resolution.decision, resolution := ops[i].resolution, resolvedAt := Some(ops[i].now))
    decreases |ops|
  {
    var after := Do(records, ops[0]);
    assert Proper(ops[0]);
    if i == 0 {
      SettledIsFrozen(after, ops[1..], id);
    } else {
      LeavesItPending(records, id, ops, i);
      DecidesLater(records[id], id, ops, i);
      DecidedAsTheFirstResolverSaid(after, ops[1..], id, i - 1);
    }
  }

  lemma LeavesItPending(records: Records, id: string, ops: seq<Op>, i: nat)
    requires id in records && records[id].state.TaskPending?
    requires TimerFireAt(records[id]).None?
    requires 0 < i && DecidesInTime(records[id], id, ops, i) && !DecidesInTime(records[id], id, ops, 0)
    ensures id in Do(records, ops[0]) && Do(records, ops[0])[id] == records[id]
  {
  }

  lemma DecidesLater(task: TaskRecord, id: string, ops: seq<Op>, i: nat)
    requires 0 < i && DecidesInTime(task, id, ops, i) && forall j: nat :: j < i ==> !DecidesInTime(task, id, ops, j)
    ensures DecidesInTime(task, id, ops[1..], i - 1)
    ensures forall j: nat :: j < i - 1 ==> !DecidesInTime(task, id, ops[1..], j)
  {
    forall j: nat | j < i - 1 ensures !DecidesInTime(task, id, ops[1..], j) {
      assert !DecidesInTime(task, id, ops, j + 1);
      assert !SweepsLate(task, id, ops[0]);
    }
  }

  /** The guest's own words for a timer: its syscall, and the whole number its arguments
      hold. Both properties may be absent, and a label is text. */
  predicate AsksToWait(call: Syscall, seconds: int) {
    && call.name.SysTimer? && call.args.Object?
    && ("label" in call.args.properties ==> call.args.properties["label"].Text?)
    && (if "duration_seconds" in call.args.properties
        then call.args.properties["duration_seconds"] == Number(seconds) else seconds == 0)
  }

  /** What a sweep does, exactly. A pending timer fires once its time has come, with a
      result for its call. Any other pending task expires once its expiry has passed, if it
      has one. Nothing else changes. */
  lemma SweepIsExact(records: Records, id: string, now: nat, seconds: int)
    requires id in records
    ensures var task, after := records[id], Do(records, SettleOp(id, now));
      && after.Keys == records.Keys
      && (forall other :: other in records && other != id ==> after[other] == records[other])
      && (!task.state.TaskPending? ==> after[id] == task)
      && (task.state.TaskPending? && AsksToWait(task.syscall, seconds) ==>
           if task.createdAt + seconds <= now
           then after[id] == task.(state := TaskCompleted, resolution := after[id].resolution, resolvedAt := Some(now))
             && after[id].resolution.decision.TaskCompleted? && after[id].resolution.data == "fired"
           else after[id] == task)
      && (task.state.TaskPending? && (forall n :: !AsksToWait(task.syscall, n)) ==>
           if task.expiresAt.Some? && task.expiresAt.value <= now
           then after[id] == task.(state := TaskExpired, resolution := after[id].resolution, resolvedAt := Some(now))
           else after[id] == task)
  {
    var task := records[id];
    if TimerFireAt(task).Some? {
      assert AsksToWait(task.syscall, TimerSeconds(task.syscall).value);
    }
  }

  /** So with clock reads that do not go back in lock order, a guest told that its task
      expired never has the task approved, completed, denied or failed later. */
  lemma ExpiredStaysExpired(records: Records, ops: seq<Op>, id: string, now: nat)
    requires AllProper(ops) && ClockNonDecreasing(now, ops)
    requires id in records && Lapsed(records[id], now)
    ensures id in DoAll(records, ops) && Undecided(DoAll(records, ops)[id])
  {
    if records[id].state.TaskPending? {
      DecidedExactlyInTime(records, ops, id);
    } else {
      SettledIsFrozen(records, ops, id);
    }
  }

  /** Being told of the expiry is what starts it. */
  lemma ToldExpiredLapses(records: Records, op: Op)
    requires TimersDoNotExpire(records) && ToldExpired(records, op)
    requires records[op.id].state.TaskPending? || records[op.id].state.TaskExpired?
    ensures Lapsed(records[op.id], op.now)
  {
  }

  /** The clock condition is needed. A resolver reads the clock before it takes the
      store's lock: one that read it before the expiry can still approve the task after
      the guest was told that it expired. */
  lemma StaleResolverApprovesAnExpiredTask()
    ensures exists records: Records, poll: Op, late: Op ::
      && Proper(late) && TimersDoNotExpire(records) && ToldExpired(records, poll)
      && late.ResolveOp? && late.id == poll.id && late.now < poll.now
      && late.id in Do(records, late) && Do(records, late)[late.id].state.TaskApproved?
  {
    var task := Mint(ProcessContext("s", "p", 1), "t", 0, Syscall(Granted("c"), Undecodable("")), "", 0, 10, "hash");
    var records: Records := map["t" := task];
    var poll := PollOp("t", 10);
    var late := ResolveOp("t", "hash", TaskResolution(TaskApproved, "human", "", ""), 9);
    assert ToldExpired(records, poll);
    assert Do(records, late)["t"].state.TaskApproved?;
  }

  // ---- The store --------------------------------------------------------

  /** The tasks a stream's events leave behind. */
  function FoldStream(events: seq<Event>): Records {
    if events == [] then map[] else
      var before := FoldStream(events[..|events| - 1]);
      match events[|events| - 1].payload
      case TaskCreated(task) => before[task.id := task]
      case TaskResolved(task) => before[task.id := task]
      case _ => before
  }

  /** What a sweep makes of a task: one that is due is settled, unless the log refused, and
      any other is left as it is. */
  predicate SweptTo(before: TaskRecord, after: TaskRecord, now: nat, refused: bool) {
    if IsDue(before, now) then after == Settled(before, now) || (refused && after == before) else after == before
  }

  /** What each verdict means. */
  predicate VerdictFits(
    records: Records, id: string, tokenHash: string, resolution: TaskResolution, now: int, verdict: Verdict)
  {
    && (verdict.NotFound? <==> id !in records)
    && (verdict.Unauthorized? <==> id in records && records[id].tokenHash != tokenHash)
    && (id in records && records[id].tokenHash == tokenHash ==>
          var task := records[id];
          var late := task.expiresAt.Some? && task.expiresAt.value <= now;
          var again := task.resolution.(actor := "") == resolution.(actor := "");
          && (verdict.Resolved? <==> task.state.TaskPending? && !late)
          && (verdict.Gone? <==> task.state.TaskPending? && late)
          && (verdict.Unchanged? <==> !task.state.TaskPending? && again)
          && (verdict.Conflict? <==> !task.state.TaskPending? && !again))
  }

  class TaskStore {
    const log: EventLog
    var records: Records

    constructor (log: EventLog)
      ensures this.log == log && records == map[]
    {
      this.log, records := log, map[];
    }

    /** The projection is what the log folds to, so a restore seeds the same records. */
    ghost predicate Mirrors()
      reads this, log
    {
      Keyed(records) && records == FoldStream(log.events)
    }

    method Seed(tasks: seq<TaskRecord>)
      modifies this
      ensures forall id :: id in records ==> id in old(records) || exists i :: 0 <= i < |tasks| && tasks[i].id == id
      ensures forall id :: id in old(records) && (forall i :: 0 <= i < |tasks| ==> tasks[i].id != id) ==>
        id in records && records[id] == old(records)[id]
      ensures (forall i, j :: 0 <= i < j < |tasks| ==> tasks[i].id != tasks[j].id) ==>
        forall i :: 0 <= i < |tasks| ==> tasks[i].id in records && records[tasks[i].id] == tasks[i]
    {
      for i := 0 to |tasks|
        invariant forall id :: id in records ==> id in old(records) || exists k :: 0 <= k < i && tasks[k].id == id
        invariant forall id :: id in old(records) && (forall k :: 0 <= k < i ==> tasks[k].id != id) ==>
          id in records && records[id] == old(records)[id]
        invariant (forall k, j :: 0 <= k < j < |tasks| ==> tasks[k].id != tasks[j].id) ==>
          forall k :: 0 <= k < i ==> tasks[k].id in records && records[tasks[k].id] == tasks[k]
      {
        records := records[tasks[i].id := tasks[i]];
      }
    }

    /** Finds the task of a call by the call's scope and journal position. */
    method Find(scope: ProcessContext, position: nat) returns (found: Option<TaskRecord>)
      ensures found.Some? <==>
        exists id :: id in records && records[id].scope == scope && records[id].position == position
      ensures found.Some? ==>
        && found.value.scope == scope && found.value.position == position
        && exists id :: id in records && records[id] == found.value
    {
      var ids := records.Keys;
      while ids != {}
        invariant ids <= records.Keys
        invariant forall id ::
          id in records && id !in ids ==> records[id].scope != scope || records[id].position != position
        decreases ids
      {
        var id :| id in ids;
        ids := ids - {id};
        if records[id].scope == scope && records[id].position == position {
          return Some(records[id]);
        }
      }
      found := None;
    }

    /** Creates a task unless its id is taken. Only the id is checked. */
    method Create(task: TaskRecord) returns (ok: bool)
      modifies this, log
      ensures ok == (task.id !in old(records) && old(log.room) > 0)
      ensures records == if ok then old(records)[task.id := task] else old(records)
      ensures log.events == old(log.events) + if ok then [Event(task.scope.process, TaskCreated(task))] else []
      ensures old(Mirrors()) ==> Mirrors()
    {
      if task.id in records {
        return false;
      }
      ok := log.Append(Event(task.scope.process, TaskCreated(task)));
      if ok {
        assert log.events[..|log.events| - 1] == old(log.events);
        records := records[task.id := task];
      }
    }

    /** Records a human's decision on a pending task, or says why not. A verdict of
        Resolved whose event the log refused changes nothing. */
    method Resolve(id: string, tokenHash: string, resolution: TaskResolution, now: nat)
      returns (verdict: Verdict, ok: bool)
      modifies this, log
      ensures verdict == Judge(old(records), id, tokenHash, resolution, now)
      ensures VerdictFits(old(records), id, tokenHash, resolution, now, verdict)
      ensures ok == (verdict.Unchanged? || (verdict.Resolved? && old(log.room) > 0))
      ensures records == if ok then Do(old(records), ResolveOp(id, tokenHash, resolution, now)) else old(records)
      // The record takes exactly the human's decision, and that is what is logged.
      ensures ok && verdict.Resolved? ==>
        && records == old(records)[id :=
             old(records)[id].(state := resolution.decision, resolution := resolution, resolvedAt := Some(now))]
        && log.events == old(log.events) + [Event(records[id].scope.process, TaskResolved(records[id]))]
      ensures !(ok && verdict.Resolved?) ==> records == old(records) && log.events == old(log.events)
      ensures old(Mirrors()) ==> Mirrors()
    {
      verdict, ok := Judge(records, id, tokenHash, resolution, now), false;
      match verdict {
        case Unchanged =>
          ok := true;
        case Resolved =>
          var task := WithResolution(records[id], resolution, now);
          ok := log.Append(Event(task.scope.process, TaskResolved(task)));
          if ok {
            assert log.events[..|log.events| - 1] == old(log.events);
            records := records[id := task];
          }
        case _ =>
      }
    }

    /** Lists the pending tasks whose deadline passed. */
    method Due(now: int) returns (ids: set<string>)
      requires Keyed(records)
      ensures forall id :: id in ids <==> id in records && IsDue(records[id], now)
    {
      ids := {};
      var rest := records.Keys;
      while rest != {}
        invariant rest <= records.Keys
        invariant forall id :: id in ids <==> id in records && id !in rest && IsDue(records[id], now)
        decreases rest
      {
        var id :| id in rest;
        rest := rest - {id};
        if IsDue(records[id], now) {
          ids := ids + {records[id].id};
        }
      }
    }

    /** Resolves one due task as its deadline decides. A task someone resolved first is
        left alone. */
    method Settle(id: string, now: nat) returns (ok: bool)
      requires id in records
      modifies this, log
      ensures ok == (!IsDue(old(records)[id], now) || old(log.room) > 0)
      ensures records == if ok then Do(old(records), SettleOp(id, now)) else old(records)
      ensures log.events == if ok && IsDue(old(records)[id], now)
        then old(log.events) + [Event(old(records)[id].scope.process, TaskResolved(Settled(old(records)[id], now)))]
        else old(log.events)
      ensures old(log.room) >= log.room && (!ok ==> log.room == 0)
      ensures old(Mirrors()) ==> Mirrors()
    {
      if !IsDue(records[id], now) {
        return true;
      }
      var task := Settled(records[id], now);
      ok := log.Append(Event(task.scope.process, TaskResolved(task)));
      if ok {
        assert log.events[..|log.events| - 1] == old(log.events);
        records := records[id := task];
      }
    }

    /** The sweep's first half: settles every due task, and touches no other. */
    method SettleDue(now: nat)
      requires Keyed(records)
      modifies this, log
      ensures records.Keys == old(records).Keys
      ensures forall id :: id in records ==> SweptTo(old(records)[id], records[id], now, log.room == 0)
      ensures old(Mirrors()) ==> Mirrors()
    {
      var due := Due(now);
      while due != {}
        invariant records.Keys == old(records).Keys
        invariant forall id :: id in due ==> id in records && IsDue(records[id], now)
        invariant forall id :: id in records ==>
          if id in due then records[id] == old(records)[id]
          else SweptTo(old(records)[id], records[id], now, log.room == 0)
        invariant old(Mirrors()) ==> Mirrors()
        decreases due
      {
        var id :| id in due;
        due := due - {id};
        var ok := Settle(id, now);
      }
    }
  }

  // ---- The task layer ---------------------------------------------------

  /** The tasks of one call. */
  ghost function TasksAt(records: Records, scope: ProcessContext, position: nat): set<string> {
    set id | id in records && records[id].scope == scope && records[id].position == position
  }

  function Relay(below: Tape.Below): Tape.Outcome {
    match below
    case Answers(result) => Tape.Handed(result)
    case Fails => Tape.Errored
  }

  /** What a task answers, and what it lets run below. */
  predicate AnswersFor(
    task: TaskRecord, now: int, next: (Syscall, bool) -> Tape.Below,
    outcome: Tape.Outcome, ran: Option<(Syscall, bool)>)
  {
    match Resume(task, now)
    case AnswersWith(result) => ran == None && outcome == Tape.Handed(result)
    case RunsApproved => ran == Some((task.syscall, true)) && outcome == Relay(next(task.syscall, true))
  }

  /** Drives a call whose intent is open at a position. A task found there answers it,
      or runs the stored call as approved. Otherwise the layers below run it, and a
      yield from them becomes a task. The layers below see an approval only under an
      Approved record of this very call's scope and position. */
  method DispatchTask(
    store: TaskStore, scope: ProcessContext, position: nat, call: Syscall,
    next: (Syscall, bool) -> Tape.Below, now: nat, freshId: string, ttl: nat, tokenHash: string)
    returns (outcome: Tape.Outcome, ran: Option<(Syscall, bool)>)
    modifies store, store.log
    ensures TasksAt(old(store.records), scope, position) != {} ==>
      && store.records == old(store.records)
      && exists id ::
           id in TasksAt(store.records, scope, position) && AnswersFor(store.records[id], now, next, outcome, ran)
    ensures TasksAt(old(store.records), scope, position) == {} ==>
      && ran == Some((call, false))
      && var below := next(call, false);
         if below.Answers? && below.result.status.Yielded? then
           if freshId in old(store.records) || old(store.log.room) == 0
           then outcome.Errored? && store.records == old(store.records)
           else
             && outcome == Tape.Handed(Yield(freshId))
             && store.records == old(store.records)[freshId :=
                  Mint(scope, freshId, position, call, below.result.message, now, ttl, tokenHash)]
         else outcome == Relay(below) && store.records == old(store.records)
    ensures ran.Some? && ran.value.1 ==>
      exists id :: id in TasksAt(store.records, scope, position)
        && store.records[id].state.TaskApproved? && store.records[id].syscall == ran.value.0
  {
    var found := store.Find(scope, position);
    if found.Some? {
      ghost var id :| id in store.records && store.records[id] == found.value;
      assert id in TasksAt(store.records, scope, position);
      match Resume(found.value, now) {
        case AnswersWith(result) =>
          return Tape.Handed(result), None;
        case RunsApproved =>
          return Relay(next(found.value.syscall, true)), Some((found.value.syscall, true));
      }
    }
    ran := Some((call, false));
    var below := next(call, false);
    if below.Answers? && below.result.status.Yielded? {
      var created := store.Create(Mint(scope, freshId, position, call, below.result.message, now, ttl, tokenHash));
      outcome := if created then Tape.Handed(Yield(freshId)) else Tape.Errored;
    } else {
      outcome := Relay(below);
    }
  }
}
