/** The runtime's own methods over its mutable state, each proved against the step of the
    process machine it carries out. */
module Runtime {
  import opened Sys
  import opened Journaled
  import opened Durable
  import opened History
  import opened Flow
  import opened Journal
  import L = Lineage
  import P = Process
  import S = Session
  import Forks = Forking
  import Safety = ProcessSafety
  import Steps = ProcessSteps
  import Tasks

  datatype Err = NoErr | Invalid | NotFound | Conflict | Unbound | StoreFailed

  datatype RetryMode = Resume | Restart

  function ContextAt(id: Identity, revision: nat): ProcessContext {
    ProcessContext(id.session, id.id, revision)
  }

  /** The part of the shared taints that is one process's, by revision. */
  ghost predicate OwnTaints(observed: map<ProcessContext, Taint>, id: Identity, own: map<nat, Taint>) {
    forall r: nat :: OwnTaint(observed, id, own, r)
  }

  predicate OwnTaint(observed: map<ProcessContext, Taint>, id: Identity, own: map<nat, Taint>, r: nat) {
    && (r in own <==> ContextAt(id, r) in observed)
    && (r in own ==> own[r] == observed[ContextAt(id, r)])
  }

  lemma ForgottenTaint(observed: map<ProcessContext, Taint>, id: Identity, own: map<nat, Taint>, revision: nat)
    requires OwnTaints(observed, id, own)
    ensures TaintOf(own, revision) == TaintOf(observed, ContextAt(id, revision))
    ensures OwnTaints(observed - {ContextAt(id, revision)}, id, own - {revision})
  {
    assert OwnTaint(observed, id, own, revision);
    forall r: nat ensures OwnTaint(observed - {ContextAt(id, revision)}, id, own - {revision}, r) {
      assert OwnTaint(observed, id, own, r);
    }
  }

  predicate SameTaint(was: map<ProcessContext, Taint>, now: map<ProcessContext, Taint>, c: ProcessContext) {
    (c in was <==> c in now) && (c in was ==> was[c] == now[c])
  }

  /** No taint but the process's own has changed. */
  ghost predicate OthersKept(was: map<ProcessContext, Taint>, now: map<ProcessContext, Taint>, id: Identity) {
    forall c: ProcessContext :: c != ContextAt(id, c.revision) ==> SameTaint(was, now, c)
  }

  lemma ForgettingKeepsOthers(observed: map<ProcessContext, Taint>, id: Identity, revision: nat)
    ensures OthersKept(observed, observed - {ContextAt(id, revision)}, id)
  {
  }

  // ---- State ------------------------------------------------------------

  class SessionState {
    const id: string
    var processIDs: seq<string>
    var activeProcessID: Option<string>

    constructor (id: string)
      ensures this.id == id && processIDs == [] && activeProcessID == None
    {
      this.id, processIDs, activeProcessID := id, [], None;
    }
  }

  class ProcessState {
    const id: Identity
    var status: ProcessStatus
    var attempt: nat
    var answer: string
    var error: string
    var labels: set<Label>
    var journal: LogJournal
    var revision: nat
    var forkOffset: nat
    var lastFailureLength: nat
    var abortRetries: nat
    var stop: bool            // a quantum runs, and this cancels it
    var stopRequested: bool

    constructor (stored: StoredProcess, journal: LogJournal)
      ensures id == stored.identity && Stored() == stored && this.journal == journal
      ensures lastFailureLength == 0 && !stop && !stopRequested
    {
      id, status, attempt := stored.identity, stored.status, stored.attempt;
      answer, error, labels := stored.answer, stored.error, stored.labels;
      revision, forkOffset, abortRetries := stored.revision, stored.forkOffset, stored.abortRetries;
      this.journal, lastFailureLength, stop, stopRequested := journal, 0, false, false;
    }

    /** What a process state event records. */
    function Stored(): StoredProcess
      reads this
    {
      StoredProcess(id, status, attempt, answer, error, labels, revision, forkOffset, abortRetries)
    }

    function Context(): ProcessContext
      reads this
    {
      ContextAt(id, revision)
    }

    /** The journal is this process's, at its current revision. */
    ghost predicate Seated()
      reads this, journal
    {
      journal.process == id.id && journal.revision == revision && journal.forkOffset == forkOffset
    }

    ghost predicate Valid()
      reads this, journal, journal.history
    {
      Seated() && journal.Valid()
    }

    ghost function JournalValue(): L.Journal
      reads this, journal, journal.history
    {
      L.Journal(journal.history.byPos, revision, forkOffset, journal.length)
    }

    /** The object holds this memory: everything but the process's tasks and quantum,
        which live elsewhere. */
    ghost predicate MemoryIs(taints: Taints, m: P.Mem)
      reads this, journal, journal.history, taints
    {
      && status == m.status && attempt == m.attempt && answer == m.answer && error == m.error
      && labels == m.labels && Seated() && JournalValue() == m.journal
      && lastFailureLength == m.lastFailureLength && abortRetries == m.abortRetries
      && stop == m.stoppable && stopRequested == m.stopRequested
      && OwnTaints(taints.observed, id, m.taints)
    }
  }

  class Runtime {
    const log: EventLog
    const taints: Taints
    const session: SessionState
    var programs: map<string, string>
    var processes: map<string, ProcessState>
    var closed: bool
    var launched: seq<string>

    constructor (log: EventLog, session: SessionState, programs: map<string, string>)
      ensures this.log == log && this.session == session && this.programs == programs
      ensures fresh(taints) && taints.observed == map[] && processes == map[] && !closed && launched == []
    {
      this.log, this.session, this.programs := log, session, programs;
      processes, closed, launched := map[], false, [];
      taints := new Taints();
    }

    /** The object holds the process's memory, and its journal writes to this stream. */
    ghost predicate Holds(proc: ProcessState, p: P.Proc)
      reads taints, proc, proc.journal, proc.journal.history
    {
      proc.id == p.id && proc.journal.log == log && proc.MemoryIs(taints, p.mem)
    }

    /** And the stream holds its log. */
    ghost predicate Logs(proc: ProcessState, p: P.Proc)
      reads log
    {
      LogOf(log.events, proc.id.id) == p.log
    }

    method AppendProcess(proc: ProcessState) returns (ok: bool)
      modifies log
      ensures ok == (old(log.room) > 0) && log.room == if ok then old(log.room) - 1 else 0
      ensures log.events ==
        old(log.events) + if ok then [Event(proc.id.id, ProcessState(proc.Stored()))] else []
      ensures LogOf(log.events, proc.id.id) ==
        LogOf(old(log.events), proc.id.id) + if ok then [ProcessState(proc.Stored())] else []
    {
      ok := log.Append(Event(proc.id.id, ProcessState(proc.Stored())));
      assert ok ==> log.events[..|log.events| - 1] == old(log.events);
    }

    /** A new revision from the offset on, which is at a whole call. The old one's taint is
        released. */
    method ForkJournal(proc: ProcessState, offset: nat, ghost p: P.Proc)
      requires proc.Valid() && Holds(proc, p)
      requires offset <= proc.journal.length && offset % 2 == 0
      modifies proc`revision, proc`forkOffset, proc`lastFailureLength, proc`journal, taints
      ensures Holds(proc, p.(mem := P.Fork(p.mem, offset))) && proc.Valid()
      ensures fresh(proc.journal) && proc.journal.history == old(proc.journal.history)
      ensures proc.forkOffset == offset && proc.journal.length == offset
      ensures proc.revision == old(proc.revision) + 1
      ensures taints.observed == old(taints.observed) - {old(proc.Context())}
      ensures OthersKept(old(taints.observed), taints.observed, proc.id)
    {
      ForgottenTaint(taints.observed, proc.id, p.mem.taints, proc.revision);
      ForgettingKeepsOthers(taints.observed, proc.id, proc.revision);
      ForkSharesThePrefix(
        proc.journal.history.byPos, proc.revision, proc.forkOffset, proc.journal.length, offset);
      taints.ForgetProcess(proc.Context());
      proc.revision := proc.revision + 1;
      proc.forkOffset := offset;
      proc.lastFailureLength := 0;
      proc.journal := new LogJournal(log, proc.id.id, proc.revision, proc.journal.history, offset, offset);
    }

    /** The process's fields once it is queued again. */
    method Requeue(proc: ProcessState, ghost p: P.Proc)
      requires Holds(proc, p)
      modifies proc`status, proc`attempt, proc`answer, proc`error, proc`stopRequested
      ensures Holds(proc, p.(mem := Steps.QueuedMem(p.mem)))
      ensures proc.Stored() == P.Stored(p.id, Steps.QueuedMem(p.mem))
    {
      proc.status := ProcessQueued;
      proc.attempt := proc.attempt + 1;
      proc.answer, proc.error := "", "";
      proc.stopRequested := false;
    }

    /** Queues a fresh quantum and takes the session, unless the runtime is closed. */
    method Relaunch(proc: ProcessState, ghost p: P.Proc) returns (err: Err)
      requires Holds(proc, p)
      modifies this`launched, session`activeProcessID, log
      modifies proc`status, proc`attempt, proc`answer, proc`error, proc`stopRequested
      ensures Holds(proc, P.Relaunch(p, closed)) && (old(proc.Valid()) ==> proc.Valid())
      ensures old(Logs(proc, p)) && (closed || old(log.room) > 0) ==> Logs(proc, P.Relaunch(p, closed))
      ensures err == if closed then Conflict else if old(log.room) > 0 then NoErr else StoreFailed
      ensures session.activeProcessID == if closed then old(session.activeProcessID) else Some(proc.id.id)
      ensures launched == if err.NoErr? then old(launched) + [proc.id.id] else old(launched)
    {
      if closed {
        return Conflict;
      }
      Requeue(proc, p);
      RelaunchedProc(p);
      session.activeProcessID := Some(proc.id.id);
      var ok := AppendProcess(proc);
      if !ok {
        return StoreFailed;
      }
      launched := launched + [proc.id.id];
      err := NoErr;
    }

    /** Keeps the run's taint with the process before releasing it. */
    method KeepTaint(proc: ProcessState, ghost own: map<nat, Taint>)
      requires OwnTaints(taints.observed, proc.id, own)
      modifies proc`labels, taints
      ensures proc.labels == TaintOf(own, proc.revision).Keys
      ensures proc.labels == TaintOf(old(taints.observed), proc.Context()).Keys
      ensures OwnTaints(taints.observed, proc.id, own - {proc.revision})
      ensures taints.observed == old(taints.observed) - {proc.Context()}
    {
      ForgottenTaint(taints.observed, proc.id, own, proc.revision);
      var labels := taints.Snapshot(proc.Context());
      assert labels == TaintOf(taints.observed, proc.Context()).Keys;
      proc.labels := labels;
      taints.ForgetProcess(proc.Context());
    }

    /** A run that is over keeps the labels it held; a parked one keeps what it had. */
    static predicate LabelsKept(status: ProcessStatus, held: set<Label>, had: set<Label>, kept: set<Label>) {
      match status
      case ProcessCompleted | ProcessFailed | ProcessStopped | ProcessInterrupted => kept == held
      case _ => kept == had
    }

    /** The process's fields once its run ended. */
    method EndRun(proc: ProcessState, status: ProcessStatus, answer: string, error: string, ghost p: P.Proc)
      requires Holds(proc, p)
      modifies proc`status, proc`answer, proc`error, proc`stop, proc`labels, taints
      ensures Holds(proc, p.(mem := Steps.FinishedMem(p.mem, status, answer, error)))
      ensures proc.Stored() == P.Stored(p.id, Steps.FinishedMem(p.mem, status, answer, error))
      ensures LabelsKept(status, TaintOf(old(taints.observed), proc.Context()).Keys, old(proc.labels), proc.labels)
      ensures taints.observed ==
        if IsTerminal(status) then old(taints.observed) - {old(proc.Context())} else old(taints.observed)
      ensures OthersKept(old(taints.observed), taints.observed, proc.id)
    {
      ForgettingKeepsOthers(taints.observed, proc.id, proc.revision);
      proc.status, proc.answer, proc.error, proc.stop := status, answer, error, false;
      if IsTerminal(status) {
        KeepTaint(proc, p.mem.taints);
      }
    }

    /** Records how a run ended. A terminal run's taint is kept as the process's labels and
        released, and the session is freed unless the process only parked on a task. */
    method Finish(proc: ProcessState, status: ProcessStatus, answer: string, error: string, ghost p: P.Proc)
      requires Holds(proc, p)
      modifies proc`status, proc`answer, proc`error, proc`stop, proc`labels, session`activeProcessID, taints, log
      ensures Holds(proc, P.FinishRun(p, status, answer, error)) && (old(proc.Valid()) ==> proc.Valid())
      ensures old(Logs(proc, p)) && old(log.room) > 0 ==> Logs(proc, P.FinishRun(p, status, answer, error))
      ensures session.activeProcessID ==
        if status.ProcessWaiting? then old(session.activeProcessID) else Freed(old(session.activeProcessID), proc.id.id)
      ensures taints.observed ==
        if IsTerminal(status) then old(taints.observed) - {old(proc.Context())} else old(taints.observed)
      ensures proc.status == status && proc.answer == answer && proc.error == error && !proc.stop
      ensures LabelsKept(status, TaintOf(old(taints.observed), proc.Context()).Keys, old(proc.labels), proc.labels)
      ensures OthersKept(old(taints.observed), taints.observed, proc.id)
    {
      FinishedProc(p, status, answer, error);
      EndRun(proc, status, answer, error, p);
      if !status.ProcessWaiting? && session.activeProcessID == Some(proc.id.id) {
        session.activeProcessID := None;
      }
      var ok := AppendProcess(proc);
    }

    // ---- The process API ------------------------------------------------

    /** Asks the executor of a live process to stop it. */
    method RequestStop(proc: ProcessState, ghost p: P.Proc)
      requires Holds(proc, p) && (p.mem.status.ProcessQueued? || p.mem.status.ProcessRunning?)
      modifies proc`stopRequested, proc`status, log
      ensures Holds(proc, P.DoStop(p))
      ensures old(Logs(proc, p)) && old(log.room) > 0 ==> Logs(proc, P.DoStop(p))
    {
      proc.stopRequested := true;
      proc.status := ProcessStopping;
      var ok := AppendProcess(proc);
    }

    /** Stops a process: a quantum under way is cancelled, and a parked process stops at
        once. cancels says whether a running quantum's context is cancelled now. */
    method Stop(processID: string, ghost p: P.Proc) returns (err: Err, cancels: bool)
      requires processID in processes ==> Holds(processes[processID], p)
      modifies if processID in processes then {processes[processID]} else {}
      modifies session`activeProcessID, taints, log
      ensures processID !in processes ==>
        err.NotFound? && log.events == old(log.events) && session.activeProcessID == old(session.activeProcessID)
      ensures processID in processes ==>
        var proc := processes[processID];
        && OthersKept(old(taints.observed), taints.observed, proc.id) && (old(proc.Valid()) ==> proc.Valid())
        && err == (if P.CanStop(p.mem.status) then NoErr else Conflict)
        && cancels == ((p.mem.status.ProcessQueued? || p.mem.status.ProcessRunning?) && p.mem.stoppable)
        && Holds(proc, P.DoStop(p))
        && StoppedFrom(old(proc.status), old(proc.stopRequested), err, proc.status, proc.stopRequested)
        && (old(Logs(proc, p)) && old(log.room) > 0 ==> Logs(proc, P.DoStop(p)))
        && session.activeProcessID == (
             if p.mem.status.ProcessWaiting? then Freed(old(session.activeProcessID), proc.id.id)
             else old(session.activeProcessID))
    {
      cancels := false;
      if processID !in processes {
        return NotFound, cancels;
      }
      var proc := processes[processID];
      match proc.status {
        case ProcessQueued | ProcessRunning =>
          cancels := proc.stop;
          RequestStop(proc, p);
        case ProcessWaiting =>
          Finish(proc, ProcessStopped, "", "context canceled", p);
        case ProcessStopping | ProcessStopped =>
        case _ =>
          return Conflict, cancels;
      }
      err := NoErr;
    }

    /** What a stop makes of a status: a run under way is asked to stop, a parked one stops,
        and a stop of an ended run conflicts, unless a stop ended it. */
    static predicate StoppedFrom(was: ProcessStatus, asked: bool, err: Err, now: ProcessStatus, asks: bool) {
      match was
      case ProcessQueued | ProcessRunning => err.NoErr? && now.ProcessStopping? && asks
      case ProcessWaiting => err.NoErr? && now.ProcessStopped? && asks == asked
      case ProcessStopping | ProcessStopped => err.NoErr? && now == was && asks == asked
      case ProcessCompleted | ProcessFailed | ProcessInterrupted => err.Conflict? && now == was && asks == asked
    }

    /** The program is registered with the bytes the process was created from. */
    predicate Bound(proc: ProcessState)
      reads this
    {
      proc.id.manifest.program in programs && programs[proc.id.manifest.program] == proc.id.digest
    }

    /** Only the session's latest process runs again, if no other one holds it. */
    predicate Foremost(proc: ProcessState)
      reads session
    {
      && session.processIDs != [] && session.processIDs[|session.processIDs| - 1] == proc.id.id
      && (session.activeProcessID.None? || session.activeProcessID == Some(proc.id.id))
    }

    method CheckRetry(proc: ProcessState, mode: RetryMode) returns (err: Err)
      requires session.processIDs != []
      ensures err.NoErr? <==> Bound(proc) && P.CanRetry(proc.status, mode.Restart?) && Foremost(proc)
      ensures err.NoErr? ==>
        && !proc.status.ProcessQueued? && !proc.status.ProcessRunning? && !proc.status.ProcessStopping?
        && (proc.status.ProcessCompleted? ==> mode.Restart?)
      ensures err.Unbound? <==> !Bound(proc)
      ensures err.NoErr? || err.Unbound? || err.Conflict?
    {
      if proc.id.manifest.program !in programs || programs[proc.id.manifest.program] != proc.id.digest {
        return Unbound;
      }
      match proc.status {
        case ProcessWaiting | ProcessStopped | ProcessFailed | ProcessInterrupted =>
        case ProcessCompleted =>
          if !mode.Restart? {
            return Conflict;
          }
        case _ =>
          return Conflict;
      }
      if session.processIDs[|session.processIDs| - 1] != proc.id.id {
        return Conflict;
      }
      if session.activeProcessID.Some? && session.activeProcessID != Some(proc.id.id) {
        return Conflict;
      }
      err := NoErr;
    }

    /** Finds the open section of a process's journal. */
    method FindOpenSection(proc: ProcessState, ghost p: P.Proc) returns (open: Option<nat>)
      requires proc.Valid() && Holds(proc, p)
      ensures open == P.OpenSection(P.ViewOf(p.mem.journal))
      ensures WellFormed(P.ViewOf(p.mem.journal)) && (open.Some? <==> InSection(P.ViewOf(p.mem.journal)))
      ensures open.Some? ==>
        && 2 <= open.value <= proc.journal.length && open.value % 2 == 0
        && BodyStartsAt(P.ViewOf(p.mem.journal), open.value)
    {
      var forkAt, found := proc.journal.FindOpenBegin();
      OpenSectionHasLength(proc.journal.Records());
      open := if found then Some(forkAt) else None;
    }

    /** Runs a process again. A refused retry changes nothing; a closed runtime refuses
        after the fork. */
    method Retry(processID: string, mode: RetryMode, ghost p: P.Proc) returns (err: Err)
      requires session.processIDs != []
      requires processID in processes ==>
        processes[processID].id.id == processID && processes[processID].Valid() && Holds(processes[processID], p)
      modifies if processID in processes then {processes[processID]} else {}
      modifies this`launched, session`activeProcessID, taints, log
      ensures processID !in processes ==>
        && err.NotFound? && log.events == old(log.events) && launched == old(launched)
        && session.activeProcessID == old(session.activeProcessID)
      ensures processID in processes ==>
        processes[processID].Valid() && OthersKept(old(taints.observed), taints.observed, processes[processID].id)
      ensures processID in processes ==>
        var proc := processes[processID];
        if old(Bound(proc) && P.CanRetry(proc.status, mode.Restart?) && Foremost(proc)) then
          && err == (if closed then Conflict else if old(log.room) > 0 then NoErr else StoreFailed)
          && Holds(proc, P.DoRetry(p, mode.Restart?, closed))
          && Forks.RetryLeaves(
               old(proc.JournalValue()), old(proc.status.ProcessWaiting?), mode.Restart?, proc.JournalValue())
          && (old(Logs(proc, p)) && (closed || old(log.room) > 0) ==> Logs(proc, P.DoRetry(p, mode.Restart?, closed)))
          && session.activeProcessID == (if closed then old(session.activeProcessID) else Some(processID))
          && launched == (if err.NoErr? then old(launched) + [processID] else old(launched))
        else
          && (err.Unbound? || err.Conflict?) && Holds(proc, p)
          && log.events == old(log.events) && launched == old(launched)
          && session.activeProcessID == old(session.activeProcessID)
    {
      if processID !in processes {
        return NotFound;
      }
      var proc := processes[processID];
      err := CheckRetry(proc, mode);
      if !err.NoErr? {
        return;
      }
      err := Rerun(proc, mode, p);
    }

    /** The part of a retry after its checks. */
    method Rerun(proc: ProcessState, mode: RetryMode, ghost p: P.Proc) returns (err: Err)
      requires proc.Valid() && Holds(proc, p)
      modifies proc, this`launched, session`activeProcessID, taints, log
      ensures proc.Valid() && OthersKept(old(taints.observed), taints.observed, proc.id)
      ensures err == if closed then Conflict else if old(log.room) > 0 then NoErr else StoreFailed
      ensures Holds(proc, P.DoRetry(p, mode.Restart?, closed))
      ensures Forks.RetryLeaves(
        old(proc.JournalValue()), old(proc.status.ProcessWaiting?), mode.Restart?, proc.JournalValue())
      ensures old(Logs(proc, p)) && (closed || old(log.room) > 0) ==> Logs(proc, P.DoRetry(p, mode.Restart?, closed))
      ensures session.activeProcessID == if closed then old(session.activeProcessID) else Some(proc.id.id)
      ensures launched == if err.NoErr? then old(launched) + [proc.id.id] else old(launched)
    {
      ForkForRetry(proc, mode, p);
      Forks.RetriesLeave(p, mode.Restart?, closed);
      Steps.RetryIsRelaunch(p, mode.Restart?, closed);
      err := Relaunch(proc, p.(mem := Steps.RetryMem(p.mem, mode.Restart?)));
    }

    /** A restart forks from the start, a parked process goes on as it is, and a resume
        forks only inside an open section. */
    method ForkForRetry(proc: ProcessState, mode: RetryMode, ghost p: P.Proc)
      requires proc.Valid() && Holds(proc, p)
      modifies proc`revision, proc`forkOffset, proc`lastFailureLength, proc`journal, taints
      ensures Holds(proc, p.(mem := Steps.RetryMem(p.mem, mode.Restart?))) && proc.Valid()
      ensures OthersKept(old(taints.observed), taints.observed, proc.id)
    {
      var open := FindOpenSection(proc, p);
      if mode.Restart? {
        ForkJournal(proc, 0, p);
      } else if proc.status.ProcessWaiting? {
        // Replay drives the open intent again, and the task layer answers it.
      } else if open.Some? {
        ForkJournal(proc, open.value, p);
      }
    }

    // ---- How a run ended ------------------------------------------------

    /** The last completed call of a process's journal. */
    method LastCall(proc: ProcessState, ghost p: P.Proc) returns (last: Option<(Syscall, SyscallResult)>)
      requires proc.Valid() && Holds(proc, p)
      ensures last == P.LastCall(P.ViewOf(p.mem.journal))
    {
      var length := proc.journal.length;
      if length == 0 || length % 2 != 0 {
        return None;
      }
      var intent := proc.journal.LoadSound(length - 2);
      var completion := proc.journal.LoadSound(length - 1);
      last := Some((intent.syscall.value, completion.result.value));
    }

    /** Spends one attempt on the section, and forks where it begins. */
    method ForkForRedo(proc: ProcessState, offset: nat, ghost p: P.Proc)
      requires proc.Valid() && Holds(proc, p)
      requires offset <= proc.journal.length && offset % 2 == 0
      modifies proc`abortRetries, proc`revision, proc`forkOffset, proc`lastFailureLength, proc`journal, taints
      ensures Holds(proc, p.(mem := Steps.RedoMem(p.mem, offset))) && proc.Valid()
      ensures OthersKept(old(taints.observed), taints.observed, proc.id)
    {
      proc.abortRetries := proc.abortRetries + 1;
      ForkJournal(proc, offset, p.(mem := p.mem.(abortRetries := p.mem.abortRetries + 1)));
    }

    /** Runs the section again. */
    method RedoSection(proc: ProcessState, offset: nat, ghost p: P.Proc)
      requires proc.Valid() && Holds(proc, p)
      requires P.OpenSection(P.ViewOf(p.mem.journal)) == Some(offset) && p.mem.abortRetries < P.MAX_ABORT_RETRIES
      requires offset <= proc.journal.length && offset % 2 == 0
      modifies proc, this`launched, session`activeProcessID, taints, log
      ensures Holds(proc, P.RetryAbortedSection(p, closed)) && proc.Valid()
      ensures OthersKept(old(taints.observed), taints.observed, proc.id)
      ensures old(Logs(proc, p)) && old(log.room) > 0 ==> Logs(proc, P.RetryAbortedSection(p, closed))
      ensures session.activeProcessID == if closed then old(session.activeProcessID) else Some(proc.id.id)
      ensures launched == if !closed && old(log.room) > 0 then old(launched) + [proc.id.id] else old(launched)
    {
      Steps.RedoIsRelaunch(p, closed);
      ForkForRedo(proc, offset, p);
      var err := Relaunch(proc, p.(mem := Steps.RedoMem(p.mem, offset)));
    }

    /** The guest abandoned its section: it runs again, or the process fails. */
    method RetryAbortedSection(proc: ProcessState, ghost p: P.Proc)
      requires proc.Valid() && Holds(proc, p)
      modifies proc, this`launched, session`activeProcessID, taints, log
      ensures Holds(proc, P.RetryAbortedSection(p, closed)) && proc.Valid()
      ensures Forks.AbortLeaves(old(proc.JournalValue()), old(proc.abortRetries), proc.JournalValue())
      ensures OthersKept(old(taints.observed), taints.observed, proc.id)
      ensures old(Logs(proc, p)) && old(log.room) > 0 ==> Logs(proc, P.RetryAbortedSection(p, closed))
      ensures session.activeProcessID == HolderAfterAbort(old(session.activeProcessID), p, closed)
      ensures launched ==
        if MayRedo(p) && !closed && old(log.room) > 0 then old(launched) + [proc.id.id] else old(launched)
    {
      var open := FindOpenSection(proc, p);
      GivesUp(p, closed);
      Forks.AbortsLeave(p, closed);
      if open.None? || proc.abortRetries >= P.MAX_ABORT_RETRIES {
        Finish(proc, ProcessFailed, "", if open.None? then "guest aborted" else "no attempts left", p);
      } else {
        RedoSection(proc, open.value, p);
      }
    }

    /** A failure inside an open section runs the same revision once more, unless the
        journal did not grow since the last one. */
    method RedriveAfterFailure(proc: ProcessState, ghost p: P.Proc) returns (again: bool)
      requires proc.Valid() && Holds(proc, p)
      modifies proc, this`launched, session`activeProcessID, log
      ensures proc.Valid()
      ensures session.activeProcessID ==
        if P.MayRedrive(p, closed) then Some(proc.id.id) else old(session.activeProcessID)
      ensures launched == if again then old(launched) + [proc.id.id] else old(launched)
      ensures again == (P.MayRedrive(p, closed) && old(log.room) > 0)
      ensures P.MayRedrive(p, closed) ==>
        && Holds(proc, Redriven(p, closed))
        && (again && old(Logs(proc, p)) ==> Logs(proc, Redriven(p, closed)))
      ensures !P.MayRedrive(p, closed) ==> Holds(proc, p) && log.events == old(log.events) && log.room == old(log.room)
    {
      var open := FindOpenSection(proc, p);
      var length := proc.journal.length;
      if proc.stopRequested || closed || open.None? || proc.lastFailureLength == length {
        return false;
      }
      again := Redrive(proc, length, p);
    }

    /** Remembers how long the journal was, and runs the same revision again. */
    method Redrive(proc: ProcessState, length: nat, ghost p: P.Proc) returns (again: bool)
      requires proc.Valid() && Holds(proc, p) && length == p.mem.journal.length && !closed
      modifies proc, this`launched, session`activeProcessID, log
      ensures proc.Valid() && again == (old(log.room) > 0)
      ensures session.activeProcessID == Some(proc.id.id)
      ensures launched == if again then old(launched) + [proc.id.id] else old(launched)
      ensures Holds(proc, Redriven(p, closed)) && (again && old(Logs(proc, p)) ==> Logs(proc, Redriven(p, closed)))
    {
      proc.lastFailureLength := length;
      var err := Relaunch(proc, p.(mem := p.mem.(lastFailureLength := length)));
      again := err.NoErr?;
    }

    method FailProcess(proc: ProcessState, ghost p: P.Proc)
      requires proc.Valid() && Holds(proc, p)
      modifies proc, this`launched, session`activeProcessID, taints, log
      ensures Holds(proc, AfterFailure(p, closed, old(log.room) > 0)) && proc.Valid()
      ensures OthersKept(old(taints.observed), taints.observed, proc.id)
      ensures old(Logs(proc, p)) && old(log.room) > 0 ==> Logs(proc, AfterFailure(p, closed, true))
      ensures session.activeProcessID ==
        HolderAfterFailure(old(session.activeProcessID), p, closed, old(log.room) > 0)
      ensures launched ==
        if P.MayRedrive(p, closed) && old(log.room) > 0 then old(launched) + [proc.id.id] else old(launched)
    {
      var again := RedriveAfterFailure(proc, p);
      if again {
        return;
      }
      Finish(proc, ProcessFailed, "", "failed", if P.MayRedrive(p, closed) then Redriven(p, closed) else p);
    }

    /** A guest that completed says in its last call how it ended: it abandoned its section,
        or published an accepted answer, or else it did not finish. */
    method RecordCompletion(proc: ProcessState, ghost p: P.Proc)
      requires proc.Valid() && Holds(proc, p)
      modifies proc, this`launched, session`activeProcessID, taints, log
      ensures Holds(proc, CompletedAs(p, closed, old(log.room) > 0)) && proc.Valid()
      ensures OthersKept(old(taints.observed), taints.observed, proc.id)
      ensures old(Logs(proc, p)) && old(log.room) > 0 ==> Logs(proc, CompletedAs(p, closed, true))
      ensures session.activeProcessID ==
        HolderAfterCompletion(old(session.activeProcessID), p, closed, old(log.room) > 0)
      ensures launched == if old(log.room) > 0 && CompletionRunsAgain(p, closed)
        then old(launched) + [proc.id.id] else old(launched)
    {
      var last := LastCall(proc, p);
      if last.Some? && last.value.0.name.SysAbort? {
        RetryAbortedSection(proc, p);
        return;
      }
      if last.None? || !last.value.0.name.SysOutput? || !last.value.1.status.Value? || P.AnswerArg(last.value.0).None? {
        FailProcess(proc, p);
        return;
      }
      Finish(proc, ProcessCompleted, P.AnswerArg(last.value.0).value, "", p);
    }

    /** Turns how a quantum ended into the process's next state. */
    method RecordOutcome(proc: ProcessState, ending: P.Ending, ghost p: P.Proc)
      requires proc.Valid() && Holds(proc, p)
      modifies proc, this`launched, session`activeProcessID, taints, log
      ensures Holds(proc, Outcome(p, ending, closed, old(log.room) > 0)) && proc.Valid()
      ensures OthersKept(old(taints.observed), taints.observed, proc.id)
      ensures old(Logs(proc, p)) && old(log.room) > 0 ==> Logs(proc, Outcome(p, ending, closed, true))
      ensures session.activeProcessID ==
        HolderAfter(old(session.activeProcessID), p, ending, closed, old(log.room) > 0)
      ensures launched == if old(log.room) > 0 && RunsAgain(p, ending, closed)
        then old(launched) + [proc.id.id] else old(launched)
    {
      match ending {
        case EndCompleted =>
          RecordCompletion(proc, p);
        case EndYielded =>
          Finish(proc, ProcessWaiting, "", "", p);
        case EndStopped(deadline) =>
          // A shutdown or a deadline interrupts, and the next retry resumes. Anything
          // else is a Stop.
          Finish(proc, if closed || deadline then ProcessInterrupted else ProcessStopped, "", "stopped", p);
        case EndFailed =>
          FailProcess(proc, p);
      }
    }

    // ---- The executor's other steps -------------------------------------

    /** A quantum stopped before it started never reaches the pool. */
    method BeginQuantum(proc: ProcessState, ghost p: P.Proc) returns (submits: bool)
      requires Holds(proc, p)
      modifies proc, session`activeProcessID, taints, log
      ensures submits == !p.mem.stopRequested
      ensures (old(proc.Valid()) ==> proc.Valid()) && OthersKept(old(taints.observed), taints.observed, proc.id)
      ensures submits ==>
        Holds(proc, p) && log.events == old(log.events) && session.activeProcessID == old(session.activeProcessID)
      ensures !submits ==>
        && Holds(proc, P.FinishRun(p, ProcessStopped, "", "context canceled"))
        && session.activeProcessID == Freed(old(session.activeProcessID), proc.id.id)
        && (old(Logs(proc, p)) && old(log.room) > 0 ==>
              Logs(proc, P.FinishRun(p, ProcessStopped, "", "context canceled")))
    {
      if proc.stopRequested {
        Finish(proc, ProcessStopped, "", "context canceled", p);
        return false;
      }
      submits := true;
    }

    /** Records the process as running. A Stop that came while the quantum queued cancels
        it now. */
    method MarkRunning(proc: ProcessState, ghost p: P.Proc, ghost q: P.Quantum) returns (cancels: bool)
      requires Holds(proc, p) && q.exec.InPool?
      modifies proc`stop, proc`status, log
      ensures cancels == p.mem.stopRequested && (old(proc.Valid()) ==> proc.Valid())
      ensures proc.status.ProcessRunning? && proc.stop
      ensures Holds(proc, P.DoExec(p, q, P.ExecMark, closed))
      ensures old(Logs(proc, p)) && old(log.room) > 0 ==> Logs(proc, P.DoExec(p, q, P.ExecMark, closed))
    {
      proc.stop := true;
      proc.status := ProcessRunning;
      cancels := proc.stopRequested;
      var ok := AppendProcess(proc);
    }

    /** A new process, recorded before it exists to anyone. */
    method RecordNew(id: Identity) returns (proc: ProcessState, ok: bool)
      requires forall c :: c in taints.observed ==> c.process != id.id
      requires LogOf(log.events, id.id) == []
      modifies log
      ensures fresh(proc) && proc.id == id && proc.Valid() && fresh(proc.journal) && fresh(proc.journal.history)
      ensures Holds(proc, P.Created(id))
      ensures ok == (old(log.room) > 0)
      ensures if ok then Logs(proc, P.Created(id)) else log.events == old(log.events)
    {
      var history := new ProcessHistory();
      var journal := new LogJournal(log, id.id, 1, history, 0, 0);
      proc := new ProcessState(StoredProcess(id, ProcessQueued, 1, "", "", {}, 1, 0, 0), journal);
      ok := AppendProcess(proc);
    }

    method CreateProcess(
      sessionID: string, id: Identity, manifestOk: bool, inputOk: bool) returns (err: Err, created: ProcessState?)
      requires id.session == session.id && id.id !in processes
      requires forall c :: c in taints.observed ==> c.process != id.id
      requires LogOf(log.events, id.id) == []
      modifies this`processes, this`launched, session, log
      ensures err == (
        if id.input == "" || !manifestOk || id.manifest.program !in programs || !inputOk then Invalid
        else if closed then Conflict
        else if sessionID != session.id then NotFound
        else if old(session.activeProcessID).Some? then Conflict
        else if old(log.room) == 0 then StoreFailed
        else NoErr)
      // A refused request, or a failed append, leaves nothing behind.
      ensures !err.NoErr? ==>
        && processes == old(processes) && session.processIDs == old(session.processIDs)
        && session.activeProcessID == old(session.activeProcessID)
        && log.events == old(log.events) && launched == old(launched) && created == null
      ensures err.NoErr? ==>
        && created != null && fresh(created) && processes == old(processes)[id.id := created]
        && session.processIDs == old(session.processIDs) + [id.id] && session.activeProcessID == Some(id.id)
        && launched == old(launched) + [id.id]
        && created.Valid() && Holds(created, P.Created(Admitted(id))) && Logs(created, P.Created(Admitted(id)))
        && created.status.ProcessQueued? && created.attempt == 1 && created.answer == "" && created.labels == {}
        && created.revision == 1 && created.journal.length == 0 && created.abortRetries == 0
    {
      created := null;
      if id.input == "" || !manifestOk || id.manifest.program !in programs || !inputOk {
        return Invalid, created;
      }
      if closed {
        return Conflict, created;
      }
      if sessionID != session.id {
        return NotFound, created;
      }
      if session.activeProcessID.Some? {
        return Conflict, created;
      }
      var proc, ok := RecordNew(Admitted(id));
      if !ok {
        return StoreFailed, created;
      }
      processes := processes[id.id := proc];
      session.processIDs := session.processIDs + [id.id];
      session.activeProcessID := Some(id.id);
      launched := launched + [id.id];
      err, created := NoErr, proc;
    }

    /** The identity a request is admitted with: bound to its program's bytes for life. */
    function Admitted(id: Identity): Identity
      reads this
    {
      if id.manifest.program in programs then id.(digest := programs[id.manifest.program]) else id
    }

    /** Resumes a process parked on a task, and leaves any other as it is. */
    method Wake(processID: string, ghost p: P.Proc) returns (err: Err)
      requires session.processIDs != [] && processID in processes
      requires processes[processID].id.id == processID && processes[processID].Valid() && Holds(processes[processID], p)
      modifies processes[processID], this`launched, session`activeProcessID, taints, log
      ensures processes[processID].Valid() && OthersKept(old(taints.observed), taints.observed, processes[processID].id)
      ensures !p.mem.status.ProcessWaiting? ==>
        && err.NoErr? && Holds(processes[processID], p) && log.events == old(log.events) && launched == old(launched)
        && session.activeProcessID == old(session.activeProcessID)
      // A parked process that may not run again now is left as it is: its program is not
      // loaded, or it is not its session's to run.
      ensures p.mem.status.ProcessWaiting? ==>
        var proc := processes[processID];
        if old(Bound(proc) && Foremost(proc)) then
          && err == (if closed then Conflict else if old(log.room) > 0 then NoErr else StoreFailed)
          && Holds(proc, P.Relaunch(p, closed))
          && (old(Logs(proc, p)) && (closed || old(log.room) > 0) ==> Logs(proc, P.Relaunch(p, closed)))
          && session.activeProcessID == (if closed then old(session.activeProcessID) else Some(processID))
          && launched == (if err.NoErr? then old(launched) + [processID] else old(launched))
        else
          && (err.Unbound? || err.Conflict?) && Holds(proc, p)
          && log.events == old(log.events) && launched == old(launched)
          && session.activeProcessID == old(session.activeProcessID)
    {
      if !processes[processID].status.ProcessWaiting? {
        return NoErr;
      }
      err := Retry(processID, Resume, p);
    }

    /** The parked processes that wait on nobody: no task of theirs, of any revision, is
        pending. */
    method ParkedOnSettledTasks(records: Tasks.Records) returns (settled: set<string>)
      ensures forall pid :: pid in settled <==>
        && pid in processes && processes[pid].status.ProcessWaiting?
        && forall id :: id in records && records[id].scope.process == pid ==> !records[id].state.TaskPending?
    {
      settled := {};
      var rest := processes.Keys;
      while rest != {}
        invariant rest <= processes.Keys
        invariant forall pid :: pid in settled <==>
          && pid in processes && pid !in rest && processes[pid].status.ProcessWaiting?
          && forall id :: id in records && records[id].scope.process == pid ==> !records[id].state.TaskPending?
        decreases rest
      {
        var pid :| pid in rest;
        rest := rest - {pid};
        if processes[pid].status.ProcessWaiting? {
          var pending := AnyPending(records, pid);
          if !pending {
            settled := settled + {pid};
          }
        }
      }
    }
  }

  method AnyPending(records: Tasks.Records, pid: string) returns (pending: bool)
    ensures pending <==>
      exists id :: id in records && records[id].scope.process == pid && records[id].state.TaskPending?
  {
    var ids := records.Keys;
    while ids != {}
      invariant ids <= records.Keys
      invariant forall id ::
        id in records && id !in ids ==> records[id].scope.process != pid || !records[id].state.TaskPending?
      decreases ids
    {
      var id :| id in ids;
      ids := ids - {id};
      if records[id].scope.process == pid && records[id].state.TaskPending? {
        return true;
      }
    }
    pending := false;
  }

  // ---- What a step leaves in memory and in the log ----------------------

  lemma FinishedProc(p: P.Proc, status: ProcessStatus, answer: string, error: string)
    ensures var m, p' := Steps.FinishedMem(p.mem, status, answer, error), P.FinishRun(p, status, answer, error);
      p'.mem == m && p'.id == p.id && p'.log == p.log + [ProcessState(P.Stored(p.id, m))]
  {
  }

  lemma GivesUp(p: P.Proc, closed: bool)
    ensures P.OpenSection(P.ViewOf(p.mem.journal)).None? ==>
      P.RetryAbortedSection(p, closed) == P.FinishRun(p, ProcessFailed, "", "guest aborted")
    ensures P.OpenSection(P.ViewOf(p.mem.journal)).Some? && p.mem.abortRetries >= P.MAX_ABORT_RETRIES ==>
      P.RetryAbortedSection(p, closed) == P.FinishRun(p, ProcessFailed, "", "no attempts left")
  {
  }

  lemma RelaunchedProc(p: P.Proc)
    ensures var m, p' := Steps.QueuedMem(p.mem), P.Relaunch(p, false);
      p'.mem == m && p'.id == p.id && p'.log == p.log + [ProcessState(P.Stored(p.id, m))]
  {
  }

  // ---- Outcomes are the executor's steps --------------------------------

  function Redriven(p: P.Proc, closed: bool): P.Proc {
    P.Relaunch(p.(mem := p.mem.(lastFailureLength := p.mem.journal.length)), closed)
  }

  /** What a failed run becomes. A re-drive whose event the store refuses stands as a
      failure, with the attempt counted. */
  function AfterFailure(p: P.Proc, closed: bool, logged: bool): P.Proc {
    if !P.MayRedrive(p, closed) then P.FinishRun(p, ProcessFailed, "", "failed")
    else if logged then Redriven(p, closed)
    else P.FinishRun(Redriven(p, closed), ProcessFailed, "", "failed")
  }

  function CompletedAs(p: P.Proc, closed: bool, logged: bool): P.Proc {
    var v := P.ViewOf(p.mem.journal);
    if P.GuestAborted(v) then P.RetryAbortedSection(p, closed) else
      match P.AnswerFromJournal(v)
      case Some(answer) => P.FinishRun(p, ProcessCompleted, answer, "")
      case None => AfterFailure(p, closed, logged)
  }

  /** What a quantum's end makes of its process. */
  function Outcome(p: P.Proc, ending: P.Ending, closed: bool, logged: bool): P.Proc {
    match ending
    case EndCompleted => CompletedAs(p, closed, logged)
    case EndYielded => P.FinishRun(p, ProcessWaiting, "", "")
    case EndStopped(deadline) =>
      P.FinishRun(p, if closed || deadline then ProcessInterrupted else ProcessStopped, "", "stopped")
    case EndFailed => AfterFailure(p, closed, logged)
  }

  // ---- Who holds the session, and what is launched ----------------------

  function Freed(active: Option<string>, pid: string): Option<string> {
    if active == Some(pid) then None else active
  }

  /** An aborted run's section may run again. */
  predicate MayRedo(p: P.Proc) {
    P.OpenSection(P.ViewOf(p.mem.journal)).Some? && p.mem.abortRetries < P.MAX_ABORT_RETRIES
  }

  function HolderAfterAbort(active: Option<string>, p: P.Proc, closed: bool): Option<string> {
    if !MayRedo(p) then Freed(active, p.id.id) else if closed then active else Some(p.id.id)
  }

  function HolderAfterFailure(active: Option<string>, p: P.Proc, closed: bool, logged: bool): Option<string> {
    if !P.MayRedrive(p, closed) then Freed(active, p.id.id) else if logged then Some(p.id.id) else None
  }

  function HolderAfterCompletion(active: Option<string>, p: P.Proc, closed: bool, logged: bool): Option<string> {
    var v := P.ViewOf(p.mem.journal);
    if P.GuestAborted(v) then HolderAfterAbort(active, p, closed)
    else if P.AnswerFromJournal(v).Some? then Freed(active, p.id.id)
    else HolderAfterFailure(active, p, closed, logged)
  }

  function HolderAfter(
    active: Option<string>, p: P.Proc, ending: P.Ending, closed: bool, logged: bool): Option<string>
  {
    match ending
    case EndCompleted => HolderAfterCompletion(active, p, closed, logged)
    case EndYielded => active
    case EndStopped(_) => Freed(active, p.id.id)
    case EndFailed => HolderAfterFailure(active, p, closed, logged)
  }

  predicate CompletionRunsAgain(p: P.Proc, closed: bool) {
    var v := P.ViewOf(p.mem.journal);
    if P.GuestAborted(v) then MayRedo(p) && !closed else P.AnswerFromJournal(v).None? && P.MayRedrive(p, closed)
  }

  predicate RunsAgain(p: P.Proc, ending: P.Ending, closed: bool) {
    match ending
    case EndCompleted => CompletionRunsAgain(p, closed)
    case EndFailed => P.MayRedrive(p, closed)
    case _ => false
  }

  /** What becomes of the session, step by step, is what the session machine says: who holds
      it after the process of a live quantum moved on, and whether a quantum was launched. */
  ghost predicate AsTheMachineSays(active: Option<string>, after: Option<string>, again: bool, p: P.Proc, p': P.Proc) {
    after == S.Occupied(active, p.id.id, p, p') && (again <==> Safety.Launches(p, p'))
  }

  lemma AbortIsTheMachines(active: Option<string>, p: P.Proc, closed: bool)
    requires IsLive(p.mem.status)
    ensures AsTheMachineSays(
      active, HolderAfterAbort(active, p, closed), MayRedo(p) && !closed, p, P.RetryAbortedSection(p, closed))
  {
  }

  lemma FinishIsTheMachines(active: Option<string>, p: P.Proc, status: ProcessStatus, answer: string, error: string)
    requires IsLive(p.mem.status) && !IsLive(status)
    ensures AsTheMachineSays(active, if status.ProcessWaiting? then active else Freed(active, p.id.id), false,
      p, P.FinishRun(p, status, answer, error))
  {
  }

  lemma FailureIsTheMachines(active: Option<string>, p: P.Proc, closed: bool)
    requires IsLive(p.mem.status)
    ensures AsTheMachineSays(
      active, HolderAfterFailure(active, p, closed, true), P.MayRedrive(p, closed), p, AfterFailure(p, closed, true))
  {
    FinishIsTheMachines(active, p, ProcessFailed, "", "failed");
  }

  lemma OutcomeIsTheMachines(active: Option<string>, p: P.Proc, ending: P.Ending, closed: bool)
    requires IsLive(p.mem.status)
    ensures AsTheMachineSays(active, HolderAfter(active, p, ending, closed, true), RunsAgain(p, ending, closed),
      p, Outcome(p, ending, closed, true))
  {
    match ending {
      case EndCompleted => CompletionIsTheMachines(active, p, closed);
      case EndYielded => FinishIsTheMachines(active, p, ProcessWaiting, "", "");
      case EndStopped(deadline) =>
        FinishIsTheMachines(
          active, p, if closed || deadline then ProcessInterrupted else ProcessStopped, "", "stopped");
      case EndFailed => FailureIsTheMachines(active, p, closed);
    }
  }

  lemma CompletionIsTheMachines(active: Option<string>, p: P.Proc, closed: bool)
    requires IsLive(p.mem.status)
    ensures AsTheMachineSays(active, HolderAfterCompletion(active, p, closed, true), CompletionRunsAgain(p, closed),
      p, CompletedAs(p, closed, true))
  {
    var v := P.ViewOf(p.mem.journal);
    if P.GuestAborted(v) {
      AbortIsTheMachines(active, p, closed);
    } else if P.AnswerFromJournal(v).Some? {
      FinishIsTheMachines(active, p, ProcessCompleted, P.AnswerFromJournal(v).value, "");
    } else {
      FailureIsTheMachines(active, p, closed);
    }
  }

  // ---- Outcomes are the executor's steps, one by one --------------------

  /** The executor's remaining steps of a quantum, one lock hold each. */
  function ExecRest(p: P.Proc, closed: bool, fuel: nat): P.Proc
    decreases fuel
  {
    if fuel == 0 || p.mem.quantum.None? then p else
      var q := p.mem.quantum.value;
      match q.exec
      case Recording(_) => ExecRest(P.DoExec(p, q, P.ExecRecord, closed), closed, fuel - 1)
      case Failing => ExecRest(P.DoExec(p, q, P.ExecFail, closed), closed, fuel - 1)
      case Finishing(_, _, _) => ExecRest(P.DoExec(p, q, P.ExecFinish, closed), closed, fuel - 1)
      case _ => p
  }

  lemma FinishingRest(p: P.Proc, q: P.Quantum, closed: bool, fuel: nat)
    requires p.mem.quantum == Some(q) && q.exec.Finishing? && fuel > 0
    ensures ExecRest(p, closed, fuel) == P.FinishRun(p, q.exec.status, q.exec.answer, q.exec.error)
  {
  }

  lemma FailingRest(p: P.Proc, q: P.Quantum, closed: bool)
    requires p.mem.quantum == Some(q) && q.exec.Failing?
    ensures ExecRest(p, closed, 2) == AfterFailure(p, closed, true)
  {
    if !P.MayRedrive(p, closed) {
      var failed := q.(exec := P.Finishing(ProcessFailed, "", "failed"));
      FinishingRest(P.WithQuantum(p, failed), failed, closed, 1);
    }
  }

  /** Taken one after another, the executor's steps from a quantum's result on make of the
      process exactly its outcome. */
  lemma OutcomeIsTheExecutorsSteps(p: P.Proc, q: P.Quantum, closed: bool)
    requires p.mem.quantum == Some(q) && q.exec.Recording?
    ensures ExecRest(p, closed, 3) == Outcome(p, q.exec.ending, closed, true)
  {
    var p1 := P.DoExec(p, q, P.ExecRecord, closed);
    assert ExecRest(p, closed, 3) == ExecRest(p1, closed, 2);
    if q.exec.ending.EndCompleted? && P.GuestAborted(P.ViewOf(p.mem.journal)) {
      SectionRest(p, closed);
      assert p1 == P.RetryAbortedSection(p, closed);
    } else {
      MovedRest(p, q, closed);
    }
  }

  lemma SectionRest(p: P.Proc, closed: bool)
    ensures ExecRest(P.RetryAbortedSection(p, closed), closed, 2) == P.RetryAbortedSection(p, closed)
  {
    var quantum := P.RetryAbortedSection(p, closed).mem.quantum;
    assert quantum.None? || quantum.value.exec.Starting?;
  }

  /** A run that ends or runs again leaves nothing of the quantum it had. */
  lemma QuantumIsReplaced(p: P.Proc, q: P.Quantum, closed: bool)
    ensures AfterFailure(P.WithQuantum(p, q), closed, true) == AfterFailure(p, closed, true)
    ensures forall status, answer, error ::
      P.FinishRun(P.WithQuantum(p, q), status, answer, error) == P.FinishRun(p, status, answer, error)
  {
  }

  /** Where the executor goes with a quantum's result, when no section is run again. */
  function Moved(p: P.Proc, ending: P.Ending, closed: bool): P.ExecPc {
    match ending
    case EndCompleted =>
      (match P.AnswerFromJournal(P.ViewOf(p.mem.journal))
       case Some(answer) => P.Finishing(ProcessCompleted, answer, "")
       case None => P.Failing)
    case EndYielded => P.Finishing(ProcessWaiting, "", "")
    case EndStopped(deadline) =>
      P.Finishing(if closed || deadline then ProcessInterrupted else ProcessStopped, "", "stopped")
    case EndFailed => P.Failing
  }

  lemma RecordMoves(p: P.Proc, q: P.Quantum, closed: bool)
    requires q.exec.Recording? && !(q.exec.ending.EndCompleted? && P.GuestAborted(P.ViewOf(p.mem.journal)))
    ensures P.DoRecord(p, q, q.exec.ending, closed) == P.WithQuantum(p, q.(exec := Moved(p, q.exec.ending, closed)))
    ensures var exec := Moved(p, q.exec.ending, closed);
      Outcome(p, q.exec.ending, closed, true)
      == if exec.Finishing? then P.FinishRun(p, exec.status, exec.answer, exec.error) else AfterFailure(p, closed, true)
  {
  }

  lemma MovedRest(p: P.Proc, q: P.Quantum, closed: bool)
    requires p.mem.quantum == Some(q) && q.exec.Recording?
    requires !(q.exec.ending.EndCompleted? && P.GuestAborted(P.ViewOf(p.mem.journal)))
    ensures ExecRest(P.DoRecord(p, q, q.exec.ending, closed), closed, 2) == Outcome(p, q.exec.ending, closed, true)
  {
    var q1 := q.(exec := Moved(p, q.exec.ending, closed));
    RecordMoves(p, q, closed);
    QuantumIsReplaced(p, q1, closed);
    if q1.exec.Failing? {
      FailingRest(P.WithQuantum(p, q1), q1, closed);
    } else {
      FinishingRest(P.WithQuantum(p, q1), q1, closed, 2);
    }
  }
}
