/** How a run ends, and what a process that has ended shows: a completed one the answer it
    published last, a waiting one the call it waits on. */
module Endings {
  import opened Sys
  import opened Journaled
  import opened Durable
  import opened Replay
  import opened Flow
  import opened Process
  import opened ProcessInv
  import opened ProcessSteps
  import opened ProcessSafety
  import opened Answers
  import Forking
  import Tasks

  // ---- What an ended run shows ------------------------------------------

  /** The last thing the run did was publish this answer, and that succeeded. An output
      without an answer publishes the empty one. */
  predicate Publishes(v: seq<Record>, answer: string) {
    && WellFormed(v) && v != [] && !HasOpenIntent(v)
    && var call := CallAt(v, Completed(v) - 1);
       && call.name.SysOutput? && ResultAt(v, Completed(v) - 1).status.Value?
       && call.args.Object?
       && if "answer" in call.args.properties then call.args.properties["answer"] == Text(answer) else answer == ""
  }

  predicate StatusFits(status: ProcessStatus, answer: string, v: seq<Record>) {
    && (status.ProcessCompleted? ==> Publishes(v, answer))
    && (status.ProcessWaiting? ==> HasOpenIntent(v))
  }

  predicate MemEnds(p: Proc) {
    p.mem.quantum.Some? ==>
      var q, v := p.mem.quantum.value, ViewOf(p.mem.journal);
      && (q.exec.Finishing? ==> StatusFits(q.exec.status, q.exec.answer, v))
      && (q.guest.Ended? && q.guest.ending.EndYielded? ==> HasOpenIntent(v))
  }

  ghost predicate LogEnds(p: Proc) {
    && LastStored(p.log).Some?
    && StatusFits(LastStored(p.log).value.status, LastStored(p.log).value.answer, ViewOf(StoredJournal(p)))
  }

  ghost predicate EndsWell(p: Proc) {
    MemEnds(p) && LogEnds(p)
  }

  // ---- Recording --------------------------------------------------------

  /** The answer the runtime reads off the journal is the one published. */
  lemma AnswerIsPublished(v: seq<Record>, answer: string)
    requires WellFormed(v)
    ensures AnswerFromJournal(v) == Some(answer) <==> Publishes(v, answer)
  {
    if v != [] && !HasOpenIntent(v) {
      assert Sound(v[|v| - 2], |v| - 2) && Sound(v[|v| - 1], |v| - 1);
    }
  }

  lemma PublishedIsUnique(v: seq<Record>, answer: string)
    requires WellFormed(v) && AnswerFromJournal(v).None?
    ensures !Publishes(v, answer)
  {
    AnswerIsPublished(v, answer);
  }

  /** The executor goes on to record this status and answer. */
  predicate WillFinish(p: Proc, status: ProcessStatus, answer: string) {
    && p.mem.quantum.Some? && p.mem.quantum.value.exec.Finishing?
    && p.mem.quantum.value.exec.status == status && p.mem.quantum.value.exec.answer == answer
  }

  predicate WillFail(p: Proc) {
    p.mem.quantum.Some? && p.mem.quantum.value.exec.Failing?
  }

  /** A quantum that ended is recorded by how it ended. A yield waits, a stop stops the
      process, a shutdown or a deadline interrupts it. A run that ends by itself completes
      with an answer exactly when publishing it was the last thing it did, and unless it
      aborted it otherwise fails. */
  lemma EndingsAreRecorded(cfg: Config, s: State, answer: string)
    requires Reachable(cfg, s) && Enabled(cfg, s.p, OfExec(ExecRecord))
    ensures var p', v := Apply(cfg, s.p, OfExec(ExecRecord), s.closed), ViewOf(s.p.mem.journal);
      match s.p.mem.quantum.value.exec.ending
      case EndYielded => WillFinish(p', ProcessWaiting, "")
      case EndStopped(deadline) =>
        WillFinish(p', if s.closed || deadline then ProcessInterrupted else ProcessStopped, "")
      case EndFailed => WillFail(p')
      case EndCompleted =>
        && (Publishes(v, answer) <==> WillFinish(p', ProcessCompleted, answer))
        && (WillFail(p') <==> !Forking.Aborts(s.p, OfExec(ExecRecord)) && forall other :: !Publishes(v, other))
  {
    ReachableMemoryIsSound(cfg, s);
    if s.p.mem.quantum.value.exec.ending.EndCompleted? {
      Forking.AbortsAreSeen(s.p, OfExec(ExecRecord));
      CompletionIsRecorded(s.p, s.p.mem.quantum.value, s.closed, answer);
    }
  }

  lemma CompletionIsRecorded(p: Proc, q: Quantum, closed: bool, answer: string)
    requires WellFormed(ViewOf(p.mem.journal)) && p.mem.quantum == Some(q) && q.exec == Recording(EndCompleted)
    ensures var p', v := DoRecord(p, q, EndCompleted, closed), ViewOf(p.mem.journal);
      && (Publishes(v, answer) <==> WillFinish(p', ProcessCompleted, answer))
      && (WillFail(p') <==> !GuestAborted(v) && forall other :: !Publishes(v, other))
  {
    var v := ViewOf(p.mem.journal);
    AnswerIsPublished(v, answer);
    if GuestAborted(v) {
      Forking.SectionForks(p, closed);
      RecordOfAbort(p, q, closed);
    } else if AnswerFromJournal(v).Some? {
      AnswerIsPublished(v, AnswerFromJournal(v).value);
    } else {
      forall other ensures !Publishes(v, other) {
        PublishedIsUnique(v, other);
      }
    }
  }

  // ---- Every step -------------------------------------------------------

  lemma GuestEndsWell(cfg: Config, p: Proc, closed: bool, a: GuestAction)
    requires RunsSoundly(cfg, p) && WaitsForItsGuest(p) && MemEnds(p) && Enabled(cfg, p, OfGuest(a))
    ensures MemEnds(Apply(cfg, p, OfGuest(a), closed))
  {
    GuestFrame(cfg, p, a, closed);
    GuestStaysUp(cfg, p, a);
  }

  /** Only the end of a guest ends it, and a yield leaves its call open. */
  lemma GuestStaysUp(cfg: Config, p: Proc, a: GuestAction)
    requires RunsSoundly(cfg, p) && Enabled(cfg, p, OfGuest(a))
    ensures var p' := DoGuest(cfg, p, p.mem.quantum.value, a);
      p'.mem.quantum.Some? && p'.mem.quantum.value.guest.Ended? && p'.mem.quantum.value.guest.ending.EndYielded? ==>
        HasOpenIntent(ViewOf(p'.mem.journal))
  {
    var q := p.mem.quantum.value;
    match a {
      case LayersAnswer(env) => LayersKeepTheGuest(cfg, p, q.guest.side, env);
      case _ =>
    }
  }

  lemma LayersKeepTheGuest(cfg: Config, p: Proc, side: Side, env: Env)
    requires p.mem.quantum.Some? && side.act.Driving?
    ensures var m := DoLayers(cfg, p, side, env).mem; m.quantum.Some? && m.quantum.value.guest.Running?
  {
  }

  /** The executor that waits for a guest that can still act is not past it. */
  predicate WaitsForItsGuest(p: Proc) {
    p.mem.quantum.Some? && p.mem.quantum.value.guest.Running? ==>
      p.mem.quantum.value.exec.InPool? || p.mem.quantum.value.exec.Marked?
  }

  /** What a step outside the quantum stores: nothing new, a status that claims nothing, or
      the one its run finishes with. */
  ghost predicate StoresAnEnd(p: Proc, a: Action, p': Proc) {
    || (LastStored(p.log).Some? && LastStored(p'.log) == LastStored(p.log) && StoredJournal(p') == StoredJournal(p))
    || (Saved(p') && !p'.mem.status.ProcessCompleted? && !p'.mem.status.ProcessWaiting?)
    || (Saved(p') && a == OfExec(ExecFinish) && WillFinish(p, p'.mem.status, p'.mem.answer)
        && p'.mem.journal == p.mem.journal)
  }

  /** A process state event is logged for a status that claims nothing, or by the last step
      of a run. */
  predicate ClaimsItsEnd(p: Proc, a: Action, p': Proc) {
    || (!p'.mem.status.ProcessCompleted? && !p'.mem.status.ProcessWaiting?)
    || (a == OfExec(ExecFinish) && WillFinish(p, p'.mem.status, p'.mem.answer) && p'.mem.journal == p.mem.journal)
  }

  lemma ExecClaimsItsEnd(cfg: Config, p: Proc, e: ExecAction, closed: bool)
    requires Enabled(cfg, p, OfExec(e))
    ensures var p' := Apply(cfg, p, OfExec(e), closed); p'.log == p.log || ClaimsItsEnd(p, OfExec(e), p')
  {
    if e.ExecRecord? {
      RecordClaimsNothing(p, p.mem.quantum.value, closed);
    }
  }

  lemma RecordClaimsNothing(p: Proc, q: Quantum, closed: bool)
    requires p.mem.quantum == Some(q) && q.exec.Recording?
    ensures var p' := DoRecord(p, q, q.exec.ending, closed);
      p'.log == p.log || (!p'.mem.status.ProcessCompleted? && !p'.mem.status.ProcessWaiting?)
  {
    if q.exec.ending.EndCompleted? && GuestAborted(ViewOf(p.mem.journal)) {
      SectionClaimsNothing(p, closed);
      RecordOfAbort(p, q, closed);
    } else {
      RecordOtherwise(p, q, closed);
    }
  }

  lemma SectionClaimsNothing(p: Proc, closed: bool)
    ensures var p' := RetryAbortedSection(p, closed);
      p'.log == p.log || (!p'.mem.status.ProcessCompleted? && !p'.mem.status.ProcessWaiting?)
  {
  }

  lemma StepClaimsItsEnd(cfg: Config, p: Proc, a: Action, closed: bool)
    requires Enabled(cfg, p, a) && !a.OfGuest? && !a.OfTask?
    ensures var p' := Apply(cfg, p, a, closed); p'.log == p.log || ClaimsItsEnd(p, a, p')
  {
    match a {
      case OfExec(e) => ExecClaimsItsEnd(cfg, p, e, closed);
      case ApiStop =>
      case ApiRetry(restart) => RetryIsRelaunch(p, restart, closed);
    }
  }

  lemma StepStoresAnEnd(cfg: Config, p: Proc, a: Action, closed: bool)
    requires Enabled(cfg, p, a) && !a.OfGuest? && LastStored(p.log).Some?
    ensures StoresAnEnd(p, a, Apply(cfg, p, a, closed))
  {
    StepAppends(cfg, p, a, closed);
    OnlyGuestsRecord(cfg, p, a, closed);
    if a.OfTask? {
      TasksLogNoState(p, a.op);
    } else {
      StepClaimsItsEnd(cfg, p, a, closed);
    }
    AppendStoresAnEnd(p, a, Apply(cfg, p, a, closed));
  }

  lemma TasksLogNoState(p: Proc, op: Tasks.Op)
    ensures var p' := DoTask(p, op); |p'.log| == |p.log| + 1 ==> !p'.log[|p.log|].ProcessState?
  {
  }

  lemma AppendStoresAnEnd(p: Proc, a: Action, p': Proc)
    requires AppendsAtMostOne(p, p') && LastStored(p.log).Some?
    requires |p'.log| == |p.log| + 1 ==> !p'.log[|p.log|].SyscallRecorded?
    requires |p'.log| == |p.log| + 1 && p'.log[|p.log|].ProcessState? ==> ClaimsItsEnd(p, a, p')
    ensures StoresAnEnd(p, a, p')
  {
    if |p'.log| > |p.log| {
      var e := p'.log[|p.log|];
      assert p'.log == p.log + [e];
      EmitFolds(p.log, e);
    } else {
      assert p'.log == p.log;
    }
  }

  /** A step outside the quantum moves the executor on from how its guest ended. */
  lemma ExecEndsWell(cfg: Config, p: Proc, e: ExecAction, closed: bool)
    requires WellFormed(ViewOf(p.mem.journal)) && MemEnds(p) && EndingIsTheGuests(p) && Enabled(cfg, p, OfExec(e))
    ensures MemEnds(Apply(cfg, p, OfExec(e), closed))
  {
    if e.ExecRecord? {
      RecordEndsWell(p, p.mem.quantum.value, closed);
    }
  }

  predicate EndingIsTheGuests(p: Proc) {
    p.mem.quantum.Some? && p.mem.quantum.value.exec.Recording? ==>
      p.mem.quantum.value.guest.Ended? && p.mem.quantum.value.guest.ending == p.mem.quantum.value.exec.ending
  }

  lemma RecordEndsWell(p: Proc, q: Quantum, closed: bool)
    requires WellFormed(ViewOf(p.mem.journal)) && MemEnds(p) && EndingIsTheGuests(p)
    requires p.mem.quantum == Some(q) && q.exec.Recording?
    ensures MemEnds(DoRecord(p, q, q.exec.ending, closed))
  {
    if q.exec.ending.EndCompleted? && GuestAborted(ViewOf(p.mem.journal)) {
      Forking.SectionForks(p, closed);
      SectionFrame(p, closed);
      SectionStarts(p, closed);
      RecordOfAbort(p, q, closed);
    } else {
      if AnswerFromJournal(ViewOf(p.mem.journal)).Some? {
        AnswerIsPublished(ViewOf(p.mem.journal), AnswerFromJournal(ViewOf(p.mem.journal)).value);
      }
      RecordOtherwise(p, q, closed);
    }
  }

  lemma SectionStarts(p: Proc, closed: bool)
    ensures var m := RetryAbortedSection(p, closed).mem; m.quantum.Some? ==> m.quantum.value.exec.Starting?
  {
  }

  lemma OtherEndsWell(cfg: Config, p: Proc, a: Action, closed: bool)
    requires WellFormed(ViewOf(p.mem.journal)) && MemEnds(p) && EndingIsTheGuests(p)
    requires Enabled(cfg, p, a) && !a.OfGuest?
    ensures MemEnds(Apply(cfg, p, a, closed))
  {
    match a {
      case OfExec(e) => ExecEndsWell(cfg, p, e, closed);
      case ApiStop => assert DoStop(p).mem.journal == p.mem.journal;
      case ApiRetry(restart) => RetryIsRelaunch(p, restart, closed);
      case OfTask(op) => assert DoTask(p, op).mem.journal == p.mem.journal;
    }
  }

  // ---- Over a life ------------------------------------------------------

  /** What the invariant says of the quantum. */
  lemma SoundQuantum(cfg: Config, p: Proc, closed: bool)
    requires Inv(cfg, p, closed)
    ensures WellFormed(ViewOf(p.mem.journal)) && LastStored(p.log).Some?
    ensures WaitsForItsGuest(p) && EndingIsTheGuests(p)
    ensures p.mem.quantum.Some? ==> Saved(p) && IsLive(p.mem.status)
  {
  }

  lemma LogEndsWell(p: Proc, a: Action, p': Proc)
    requires EndsWell(p) && StoresAnEnd(p, a, p') && (Saved(p') ==> StoresItsJournal(p'))
    ensures LogEnds(p')
  {
  }

  lemma GuestStepEndsWell(cfg: Config, p: Proc, a: GuestAction, closed: bool)
    requires Inv(cfg, p, closed) && MemEnds(p) && Enabled(cfg, p, OfGuest(a))
    ensures EndsWell(Apply(cfg, p, OfGuest(a), closed))
  {
    StepKeeps(cfg, p, OfGuest(a), closed);
    SoundQuantum(cfg, p, closed);
    SoundQuantum(cfg, Apply(cfg, p, OfGuest(a), closed), closed);
    SoundGuestsRunSoundly(cfg, p, closed);
    GuestEndsWell(cfg, p, closed, a);
    GuestFrame(cfg, p, a, closed);
  }

  lemma OtherStepEndsWell(cfg: Config, p: Proc, a: Action, closed: bool)
    requires Inv(cfg, p, closed) && EndsWell(p) && Enabled(cfg, p, a) && !a.OfGuest?
    ensures EndsWell(Apply(cfg, p, a, closed))
  {
    StepKeeps(cfg, p, a, closed);
    SoundQuantum(cfg, p, closed);
    StepStoresAnEnd(cfg, p, a, closed);
    OtherEndsWell(cfg, p, a, closed);
    SavedStoresItsJournal(cfg, Apply(cfg, p, a, closed), closed);
    LogEndsWell(p, a, Apply(cfg, p, a, closed));
  }

  lemma RestoreEndsWell(cfg: Config, p: Proc, closed: bool)
    requires Inv(cfg, p, closed) && EndsWell(p)
    ensures EndsWell(Restored(p))
  {
    RestoredJournal(cfg, p, closed);
    RestoredClaim(p);
  }

  lemma RestoredClaim(p: Proc)
    requires LastStored(p.log).Some?
    ensures var p' := Restored(p);
      && p'.mem.quantum.None? && LastStored(p'.log).Some?
      && (!p'.mem.status.ProcessCompleted? && !p'.mem.status.ProcessWaiting? ==>
            !LastStored(p'.log).value.status.ProcessCompleted? && !LastStored(p'.log).value.status.ProcessWaiting?)
      && (p'.mem.status.ProcessCompleted? || p'.mem.status.ProcessWaiting? ==> p'.log == p.log)
  {
    var p' := Restored(p);
    if p'.log != p.log {
      EmitFolds(p.log, ProcessState(Stored(p'.id, p'.mem)));
    }
  }

  lemma HappeningEndsWell(cfg: Config, s: State, h: Happening)
    requires Inv(cfg, s.p, s.closed) && CanHappen(cfg, s, h) && EndsWell(s.p)
    ensures EndsWell(Then(cfg, s, h).p)
  {
    match h {
      case Does(a) =>
        if a.OfGuest? {
          GuestStepEndsWell(cfg, s.p, a.guest, s.closed);
        } else {
          OtherStepEndsWell(cfg, s.p, a, s.closed);
        }
      case Closes =>
      case Crashes => RestoreEndsWell(cfg, s.p, s.closed);
    }
  }

  lemma {:induction false} LivesEndWell(cfg: Config, id: Identity, life: Life, i: nat)
    requires IsLife(cfg, id, life) && i < |life.states|
    ensures EndsWell(life.states[i].p)
    decreases i, 1
  {
    if i == 0 {
      FirstIsTheCreation(cfg, id, life);
      CreationEndsWell(id);
    } else {
      LaterLivesEndWell(cfg, id, life, i);
    }
  }

  lemma CreationEndsWell(id: Identity)
    ensures EndsWell(Created(id))
  {
    EmitFolds([], ProcessState(Stored(id, Created(id).mem)));
  }

  lemma {:induction false} LaterLivesEndWell(cfg: Config, id: Identity, life: Life, i: nat)
    requires IsLife(cfg, id, life) && 0 < i < |life.states|
    ensures EndsWell(life.states[i].p)
    decreases i, 0
  {
    var before := i - 1;
    LivesEndWell(cfg, id, life, before);
    EveryStateIsSound(cfg, id, life, before);
    NextHappens(cfg, id, life, before);
    HappeningEndsWell(cfg, life.states[before], life.happenings[before]);
  }

  /** In every reachable state whose memory the log agrees with, as on every runtime that is
      not closed, a completed process's answer is the one it published by the last call of
      its journal, and a waiting process's last call is open. */
  lemma AnswersArePublished(cfg: Config, s: State)
    requires Reachable(cfg, s) && (!s.closed || Saved(s.p))
    ensures StatusFits(s.p.mem.status, s.p.mem.answer, ViewOf(s.p.mem.journal))
  {
    var id: Identity, life: Life, i: nat :| PassesThrough(cfg, id, life, i, s);
    LivesEndWell(cfg, id, life, i);
    ReachableIsSound(cfg, s);
    SavedJournal(cfg, s.p, s.closed);
  }

  /** What the log stores of it holds on a closed runtime too: a reboot finds each completed
      process with the answer its journal published. */
  lemma StoredAnswersArePublished(cfg: Config, s: State)
    requires Reachable(cfg, s)
    ensures LastStored(s.p.log).Some?
    ensures var m := Restored(s.p).mem; StatusFits(m.status, m.answer, ViewOf(m.journal))
  {
    ReachableIsSound(cfg, s);
    ReachableGoesOn(cfg, s, Crashes);
    AnswersArePublished(cfg, Then(cfg, s, Crashes));
  }

  /** A run that completes keeps a label if and only if one of its calls, or a yield of one,
      showed it: what later runs of the session inherit from it is no more and no less. */
  lemma CompletionKeepsWhatWasShown(cfg: Config, s: State, l: Label)
    requires Reachable(cfg, s) && Enabled(cfg, s.p, OfExec(ExecFinish))
    requires s.p.mem.quantum.value.exec.status.ProcessCompleted?
    ensures var v, m := ViewOf(s.p.mem.journal), Apply(cfg, s.p, OfExec(ExecFinish), s.closed).mem;
      && WellFormed(v) && m.status.ProcessCompleted?
      && (l in m.labels <==> exists j: nat :: Showed(v, s.p.mem.yielded, j, l))
  {
    CompletedTaintIsTheFold(cfg, s);
    FinishKeepsTheTaint(cfg, s.p, s.closed);
    FoldIsWhatCallsShowed(
      ViewOf(s.p.mem.journal), s.p.mem.yielded, Completed(ViewOf(s.p.mem.journal)), l,
      SourceOf(Syscall(SysLog, Undecodable(""))));
  }

  lemma FinishKeepsTheTaint(cfg: Config, p: Proc, closed: bool)
    requires Enabled(cfg, p, OfExec(ExecFinish)) && p.mem.quantum.value.exec.status.ProcessCompleted?
    ensures var m := Apply(cfg, p, OfExec(ExecFinish), closed).mem;
      m.status.ProcessCompleted? && m.labels == RunTaint(p.mem).Keys
  {
  }

  lemma CompletedTaintIsTheFold(cfg: Config, s: State)
    requires Reachable(cfg, s) && s.p.mem.quantum.Some?
    requires s.p.mem.quantum.value.exec.Finishing? && s.p.mem.quantum.value.exec.status.ProcessCompleted?
    ensures var v := ViewOf(s.p.mem.journal);
      WellFormed(v) && RunTaint(s.p.mem) == FoldAll(v, s.p.mem.yielded, Completed(v))
  {
    var id: Identity, life: Life, i: nat :| PassesThrough(cfg, id, life, i, s);
    LivesEndWell(cfg, id, life, i);
    ReachableIsSound(cfg, s);
    TaintIsTheFold(cfg, s.p, s.closed);
  }

  lemma TaintIsTheFold(cfg: Config, p: Proc, closed: bool)
    requires Inv(cfg, p, closed) && MemEnds(p) && p.mem.quantum.Some?
    requires p.mem.quantum.value.exec.Finishing? && p.mem.quantum.value.exec.status.ProcessCompleted?
    ensures WellFormed(ViewOf(p.mem.journal))
    ensures RunTaint(p.mem) == FoldAll(ViewOf(p.mem.journal), p.mem.yielded, Completed(ViewOf(p.mem.journal)))
  {
    var v := ViewOf(p.mem.journal);
    var n: nat :| TaintAt(v, p.mem.yielded, RunTaint(p.mem), SeenCount(p.mem), n);
  }
}
