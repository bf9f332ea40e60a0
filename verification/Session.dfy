/** A session: the processes of one conversation over one event stream, who may run,
    what each reads of the others, and what a restart of the host does to it. */
module Session {
  import opened Sys
  import opened Durable
  import opened Process
  import opened ProcessSafety

  /** What a process runs follows from its identity: its program's bytes and its
      manifest's grants never change. */
  type Binding = Identity -> Config

  /** A session in memory, and its stream. handed is what each process's quantum was
      handed of the conversation when it booted. */
  datatype Session = Session(
    order: seq<string>, procs: map<string, Proc>, active: Option<string>,
    handed: map<string, set<Label>>, closed: bool, stream: seq<Event>)

  const NEW_SESSION := Session([], map[], None, map[], false, [])

  // ---- The conversation -------------------------------------------------

  /** A completed process's turn in the conversation. */
  datatype Utterance = Utterance(input: string, answer: string, labels: set<Label>)

  /** historyLocked: the conversation of a list of processes, derived from them. */
  function HistoryOf(procs: map<string, Proc>, ids: seq<string>): seq<Utterance> {
    if ids == [] then [] else
      var last := ids[|ids| - 1];
      var before := HistoryOf(procs, ids[..|ids| - 1]);
      if last in procs && procs[last].mem.status.ProcessCompleted?
      then before + [Utterance(procs[last].id.input, procs[last].mem.answer, procs[last].mem.labels)]
      else before
  }

  function HistoryLabels(history: seq<Utterance>): set<Label> {
    if history == [] then {} else HistoryLabels(history[..|history| - 1]) + history[|history| - 1].labels
  }

  function IndexIn(ids: seq<string>, pid: string): nat {
    if ids == [] || ids[0] == pid then 0 else 1 + IndexIn(ids[1..], pid)
  }

  /** The processes created before one. */
  function Earlier(order: seq<string>, pid: string): seq<string> {
    var i := IndexIn(order, pid);
    if i <= |order| then order[..i] else order
  }

  /** The conversation a process reads: its session's turns before it. */
  function HistoryBefore(s: Session, pid: string): seq<Utterance> {
    HistoryOf(s.procs, Earlier(s.order, pid))
  }

  /** What sys.input carries: nothing, for a manifest that sees only its own input. */
  function Inherited(s: Session, pid: string): set<Label>
    requires pid in s.procs
  {
    if s.procs[pid].id.manifest.sharesHistory then HistoryLabels(HistoryBefore(s, pid)) else {}
  }

  // ---- Steps ------------------------------------------------------------

  datatype Deed =
    | Creates(id: Identity)
    | Acts(pid: string, action: Action)
    | ShutsDown
    | Reboots(order: seq<string>)

  function Latest(s: Session): Option<string> {
    if s.order == [] then None else Some(s.order[|s.order| - 1])
  }

  predicate CanCreate(s: Session) {
    !s.closed && s.active.None?
  }

  /** checkRetryLocked's part about the session: only the latest process runs again, and
      only if no other one holds the session. */
  predicate MayRunAgain(s: Session, pid: string) {
    Latest(s) == Some(pid) && (s.active.None? || s.active == Some(pid))
  }

  /** The stored state of every process a stream recorded. Last writer wins. */
  function FoldProcesses(stream: seq<Event>): map<string, StoredProcess> {
    if stream == [] then map[] else
      var before := FoldProcesses(stream[..|stream| - 1]);
      match stream[|stream| - 1].payload
      case ProcessState(process) => before[process.identity.id := process]
      case _ => before
  }

  /** Ids compare character by character, a prefix before what extends it. */
  predicate IdLess(a: string, b: string)
    decreases |b|
  {
    b != [] && (a == [] || a[0] < b[0] || (a[0] == b[0] && IdLess(a[1..], b[1..])))
  }

  /** Creation order: by time, and by id among equal times. */
  predicate CreatedBefore(a: Identity, b: Identity) {
    a.createdAt < b.createdAt || (a.createdAt == b.createdAt && IdLess(a.id, b.id))
  }

  /** A list of exactly the recorded processes, in creation order. */
  ghost predicate InCreationOrder(order: seq<string>, stored: map<string, StoredProcess>) {
    && (forall pid :: pid in order <==> pid in stored)
    && (forall i, j :: 0 <= i < j < |order| && order[i] in stored && order[j] in stored ==>
          CreatedBefore(stored[order[i]].identity, stored[order[j]].identity))
  }

  /** Fold's foreground process: the earliest one that is not completed, failed or
      stopped. An interrupted one counts. */
  function FirstActive(order: seq<string>, stored: map<string, StoredProcess>): Option<string> {
    if order == [] then None
    else if order[0] in stored && IsActive(stored[order[0]].status) then Some(order[0])
    else FirstActive(order[1..], stored)
  }

  ghost predicate CanDo(b: Binding, s: Session, d: Deed) {
    match d
    case Creates(id) =>
      && CanCreate(s) && id.id !in s.procs
      && (forall pid :: pid in s.procs ==> s.procs[pid].id.createdAt < id.createdAt)
    case Acts(pid, a) =>
      && pid in s.procs && Enabled(b(s.procs[pid].id), s.procs[pid], a)
      && (a.ApiRetry? ==> MayRunAgain(s, pid))
      && (a.OfGuest? && a.guest.LayersAnswer? ==> pid in s.handed && a.guest.env.inherited == s.handed[pid])
    case ShutsDown => true
    case Reboots(order) =>
      && InCreationOrder(order, FoldProcesses(s.stream))
      && forall pid :: pid in order ==> LastStored(LogOf(s.stream, pid)).Some?
  }

  function Tagged(pid: string, payloads: seq<Payload>): seq<Event> {
    seq(|payloads|, i requires 0 <= i < |payloads| => Event(pid, payloads[i]))
  }

  /** What a process appended in one step goes onto the session's stream. */
  function Streamed(stream: seq<Event>, pid: string, p: Proc, p': Proc): seq<Event> {
    if |p.log| <= |p'.log| then stream + Tagged(pid, p'.log[|p.log|..]) else stream
  }

  /** relaunchLocked takes the session, and finishLocked frees it unless the process only
      parked on a task. */
  function Occupied(active: Option<string>, pid: string, p: Proc, p': Proc): Option<string> {
    if Launches(p, p') then Some(pid)
    else if p'.mem.status != p.mem.status && !IsLive(p'.mem.status) && !p'.mem.status.ProcessWaiting?
            && active == Some(pid) then None
    else active
  }

  /** newDispatcher reads the conversation once, when the quantum boots. */
  function Handed(s: Session, pid: string, a: Action): map<string, set<Label>>
    requires pid in s.procs
  {
    if a.OfGuest? && a.guest.GuestBoot? then s.handed[pid := Inherited(s, pid)] else s.handed
  }

  ghost function AfterAct(b: Binding, s: Session, pid: string, a: Action): Session
    requires pid in s.procs && Enabled(b(s.procs[pid].id), s.procs[pid], a)
  {
    var p := s.procs[pid];
    var p' := Apply(b(p.id), p, a, s.closed);
    s.(procs := s.procs[pid := p'], active := Occupied(s.active, pid, p, p'),
       handed := Handed(s, pid, a), stream := Streamed(s.stream, pid, p, p'))
  }

  /** Every process in turn is rebuilt from the stream, and an interruption recorded. */
  ghost function RebootedStream(stream: seq<Event>, order: seq<string>): seq<Event>
    requires forall pid :: pid in order ==> LastStored(LogOf(stream, pid)).Some?
  {
    if order == [] then stream else
      var front, last := order[..|order| - 1], order[|order| - 1];
      RebootedStream(stream, front)
      + Tagged(last, RestoredFrom(LogOf(stream, last)).log[|LogOf(stream, last)|..])
  }

  ghost function AfterReboot(s: Session, order: seq<string>): Session
    requires forall pid :: pid in order ==> LastStored(LogOf(s.stream, pid)).Some?
  {
    Session(order,
      map pid | pid in order :: RestoredFrom(LogOf(s.stream, pid)),
      FirstActive(order, FoldProcesses(s.stream)), map[], false, RebootedStream(s.stream, order))
  }

  ghost function AfterDeed(b: Binding, s: Session, d: Deed): Session
    requires CanDo(b, s, d)
  {
    match d
    case Creates(id) =>
      s.(order := s.order + [id.id], procs := s.procs[id.id := Created(id)], active := Some(id.id),
         stream := s.stream + Tagged(id.id, Created(id).log))
    case Acts(pid, a) => AfterAct(b, s, pid, a)
    case ShutsDown => s.(closed := true)
    case Reboots(order) => AfterReboot(s, order)
  }
}
