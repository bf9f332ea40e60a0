/** Replay of a deterministic guest over an intent/completion journal: one quantum's
    tape and dispatch as small steps that a crash can cut anywhere, and what holds
    over every run. */
module Replay {
  import opened Sys
  import opened Journaled

  /** A guest is deterministic: the results it has seen decide its next syscall, or
      that it halts. The Validator's refusals follow from the call alone, so they
      are part of this function. */
  type Guest = seq<SyscallResult> -> Option<Syscall>

  // ---- The tape ---------------------------------------------------------

  /** What Next finds at the cursor. Broken is a record that is not of the kind its
      position says: Verify rules it out before a quantum begins. */
  datatype NextOutcome =
    | Served(result: SyscallResult)
    | Fresh
    | Open(position: nat)
    | Diverged(index: nat, want: Syscall)
    | Broken(index: nat)

  function TapeNext(v: seq<Record>, cursor: nat, call: Syscall): NextOutcome {
    if cursor >= |v| then Fresh
    else if v[cursor].syscall.None? then Broken(cursor)
    else if v[cursor].syscall.value != call then Diverged(cursor, v[cursor].syscall.value)
    else if cursor + 1 >= |v| then Open(v[cursor].position)
    else if v[cursor + 1].result.None? then Broken(cursor + 1)
    else Served(v[cursor + 1].result.value)
  }

  /** What the tape finds for any call, a conforming guest's or not. At a whole call it
      serves the recorded result of that very call, finds that very call open at the tail, or
      says which other call is recorded there. Past the end nothing is recorded. */
  lemma TapeIsExact(v: seq<Record>, k: nat, call: Syscall)
    requires WellFormed(v)
    ensures TapeNext(v, 2 * k, call) ==
      if 2 * k >= |v| then Fresh
      else if CallAt(v, k) != call then Diverged(2 * k, CallAt(v, k))
      else if k < Completed(v) then Served(ResultAt(v, k))
      else Open(2 * k)
    ensures HasOpenIntent(v) ==> TapeNext(v, |v|, call).Fresh?
  {
    if 2 * k < |v| {
      assert Sound(v[2 * k], 2 * k);
      if 2 * k + 1 < |v| {
        assert Sound(v[2 * k + 1], 2 * k + 1);
      }
    }
  }

  // ---- One quantum ------------------------------------------------------

  /** What a quantum is doing. Parked means its last call got no completion: it
      yielded, or its outcome is unknown. */
  datatype Activity =
    | Thinking
    | Driving(call: Syscall)
    | Answered(result: SyscallResult)
    | Parked(yielded: bool)

  /** The host side of one quantum: the tape's cursor and pending flag, and the
      results the guest has been handed. */
  datatype Side = Side(cursor: nat, pending: bool, seen: seq<SyscallResult>, act: Activity)

  const BOOT := Side(0, false, [], Thinking)

  /** One step's effect: the new side, and the records it appended. */
  datatype Turn = Turn(side: Side, written: seq<Record>)

  /** A call enters the replay layer: served, driven again, journaled and driven, or
      refused. Begin refuses while an intent is pending. */
  function Enter(v: seq<Record>, side: Side, call: Syscall, revision: nat): Turn {
    match TapeNext(v, side.cursor, call)
    case Served(result) => Turn(side.(cursor := side.cursor + 2, seen := side.seen + [result]), [])
    case Open(_) => Turn(side.(cursor := side.cursor + 1, pending := true, act := Driving(call)), [])
    case Diverged(_, _) | Broken(_) => Turn(Refuse(side), [])
    case Fresh =>
      if side.pending then Turn(Refuse(side), []) else
        Turn(side.(cursor := side.cursor + 1, pending := true, act := Driving(call)),
             [IntentRecord(|v|, call).(revision := revision)])
  }

  /** The call returns an error: a guest that keeps calling stays parked. */
  function Refuse(side: Side): Side {
    if side.act.Parked? then side else side.(act := Parked(false))
  }

  /** The layers below answered. A yield leaves the intent open. */
  function Answer(side: Side, result: SyscallResult): Side {
    side.(act := if result.status.Yielded? then Parked(true) else Answered(result))
  }

  /** The layers below failed: the outcome is unknown, so the intent stays open. */
  function Fault(side: Side): Side {
    side.(act := Parked(false))
  }

  /** The completion is journaled before the guest sees the result. */
  function Write(v: seq<Record>, side: Side, revision: nat): Turn
    requires side.act.Answered?
  {
    Turn(Side(side.cursor + 1, false, side.seen + [side.act.result], Thinking),
         [CompletionRecord(|v|, side.act.result).(revision := revision)])
  }

  // ---- Invariants of a quantum ------------------------------------------

  /** The journal is a prefix of the guest's own run: every recorded call is the one
      the guest makes after the results recorded before it. */
  ghost predicate Conforms(g: Guest, v: seq<Record>) {
    && WellFormed(v)
    && forall k :: 0 <= k && 2 * k < |v| ==> g(Results(v)[..k]) == Some(CallAt(v, k))
  }

  predicate SideInv(v: seq<Record>, side: Side)
    requires WellFormed(v)
  {
    && |side.seen| <= Completed(v)
    && side.seen == Results(v)[..|side.seen|]
    && match side.act
       case Thinking => side.cursor == 2 * |side.seen| && !side.pending
       case Driving(call) => AtTail(v, side) && CallAt(v, Completed(v)) == call
       case Answered(result) => AtTail(v, side) && !result.status.Yielded?
       case Parked(_) => AtTail(v, side)
  }

  /** The side owns the open intent at the tail. */
  predicate AtTail(v: seq<Record>, side: Side) {
    HasOpenIntent(v) && side.cursor == |v| && side.pending && |side.seen| == Completed(v)
  }

  /** A conforming guest never diverges: a recorded call is served its recorded
      result, the open tail is driven again, and only past the end is a call fresh. */
  lemma NeverDiverges(g: Guest, v: seq<Record>, side: Side, call: Syscall)
    requires Conforms(g, v) && SideInv(v, side)
    requires side.act.Thinking? && g(side.seen) == Some(call)
    ensures TapeNext(v, side.cursor, call) ==
            if |side.seen| < Completed(v) then Served(ResultAt(v, |side.seen|))
            else if HasOpenIntent(v) then Open(side.cursor)
            else Fresh
  {
    var k := |side.seen|;
    if 2 * k < |v| {
      assert side.seen == Results(v)[..k];
      assert CallAt(v, k) == call;
      assert Sound(v[2 * k], 2 * k);
    }
  }

  lemma ExtendResults(v: seq<Record>, rec: Record)
    requires WellFormed(v) && Sound(rec, |v|)
    ensures WellFormed(v + [rec])
    ensures Results(v + [rec]) == if |v| % 2 == 1 then Results(v) + [rec.result.value] else Results(v)
  {
    var w := v + [rec];
    assert forall i :: 0 <= i < |v| ==> w[i] == v[i];
    PrefixResults(v, w);
    assert |v| % 2 == 1 ==> ResultAt(w, Completed(v)) == rec.result.value;
  }

  /** Asking keeps the quantum sound, and whatever it journals is the guest's own call. */
  lemma EnterKeeps(g: Guest, v: seq<Record>, side: Side, call: Syscall, revision: nat)
    requires Conforms(g, v) && SideInv(v, side)
    requires side.act.Thinking? && g(side.seen) == Some(call)
    ensures var t := Enter(v, side, call, revision);
      Conforms(g, v + t.written) && SideInv(v + t.written, t.side)
  {
    NeverDiverges(g, v, side, call);
    var t := Enter(v, side, call, revision);
    if t.written == [] {
      assert v + t.written == v;
    } else {
      var w := v + t.written;
      ExtendResults(v, t.written[0]);
      assert Results(w) == Results(v) == side.seen;
      forall k | 0 <= k && 2 * k < |w| ensures g(Results(w)[..k]) == Some(CallAt(w, k)) {
        if 2 * k < |v| { assert w[2 * k] == v[2 * k]; }
      }
    }
  }

  lemma WriteKeeps(g: Guest, v: seq<Record>, side: Side, revision: nat)
    requires Conforms(g, v) && SideInv(v, side) && side.act.Answered?
    ensures var t := Write(v, side, revision);
      Conforms(g, v + t.written) && SideInv(v + t.written, t.side)
  {
    var t := Write(v, side, revision);
    var w := v + t.written;
    ExtendResults(v, t.written[0]);
    forall k | 0 <= k && 2 * k < |w| ensures g(Results(w)[..k]) == Some(CallAt(w, k)) {
      assert w[2 * k] == v[2 * k];
      assert Results(w)[..k] == Results(v)[..k];
    }
  }

  /** A guest that keeps calling after a yield or a failed call is refused: the
      journal and the tape stay as they are. */
  lemma StrayCallsAreRefused(v: seq<Record>, side: Side, call: Syscall, revision: nat)
    requires WellFormed(v) && SideInv(v, side) && side.act.Parked?
    ensures Enter(v, side, call, revision) == Turn(side, [])
  {
  }

  /** A prefix at a whole number of calls is still the guest's own run: this is why
      a fork never makes a guest diverge. */
  lemma ForkConforms(g: Guest, v: seq<Record>, k: nat)
    requires Conforms(g, v) && k <= |v| && k % 2 == 0
    ensures Conforms(g, v[..k])
  {
    var p := v[..k];
    assert forall i :: 0 <= i < k ==> p[i] == v[i];
    PrefixResults(p, v);
    forall j | 0 <= j && 2 * j < |p| ensures g(Results(p)[..j]) == Some(CallAt(p, j)) {
      assert Results(p)[..j] == Results(v)[..j];
    }
  }

  // ---- Runs of one view -------------------------------------------------

  /** What survives a crash is the view; the quantum does not. */
  datatype Sim = Sim(view: seq<Record>, quantum: Option<Side>)

  datatype Move =
    | Start                          // a quantum boots, with a fresh tape
    | Crash                          // the host dies, at any point
    | Leave                          // the quantum ends: the guest halted, or parked
    | Ask                            // the guest makes its next call
    | Stray(call: Syscall)           // a parked guest keeps calling
    | Respond(result: SyscallResult) // the layers below answer
    | Fail                           // the layers below fail
    | Commit                         // the completion is journaled

  predicate CanMove(g: Guest, s: Sim, m: Move) {
    if m.Start? then s.quantum.None? else
      && s.quantum.Some?
      && var act := s.quantum.value.act;
         match m
         case Start | Crash => true
         case Leave => act.Parked? || (act.Thinking? && g(s.quantum.value.seen).None?)
         case Ask => act.Thinking? && g(s.quantum.value.seen).Some?
         case Stray(_) => act.Parked?
         case Respond(_) | Fail => act.Driving?
         case Commit => act.Answered?
  }

  function After(g: Guest, s: Sim, m: Move): Sim
    requires CanMove(g, s, m)
  {
    match m
    case Start => s.(quantum := Some(BOOT))
    case Crash | Leave => s.(quantum := None)
    case Ask =>
      var side := s.quantum.value;
      var t := Enter(s.view, side, g(side.seen).value, 0);
      Sim(s.view + t.written, Some(t.side))
    case Stray(call) =>
      var side := s.quantum.value;
      var t := Enter(s.view, side, call, 0);
      Sim(s.view + t.written, Some(t.side))
    case Respond(result) => s.(quantum := Some(Answer(s.quantum.value, result)))
    case Fail => s.(quantum := Some(Fault(s.quantum.value)))
    case Commit =>
      var t := Write(s.view, s.quantum.value, 0);
      Sim(s.view + t.written, Some(t.side))
  }

  ghost predicate SimInv(g: Guest, s: Sim) {
    Conforms(g, s.view) && (s.quantum.Some? ==> SideInv(s.view, s.quantum.value))
  }

  lemma MoveKeepsInv(g: Guest, s: Sim, m: Move)
    requires SimInv(g, s) && CanMove(g, s, m)
    ensures SimInv(g, After(g, s, m))
    ensures s.view <= After(g, s, m).view
  {
    match m {
      case Ask => EnterKeeps(g, s.view, s.quantum.value, g(s.quantum.value.seen).value, 0);
      case Stray(call) =>
        StrayCallsAreRefused(s.view, s.quantum.value, call, 0);
        assert s.view + [] == s.view;
      case Commit => WriteKeeps(g, s.view, s.quantum.value, 0);
      case _ =>
    }
  }

  datatype Run = Run(states: seq<Sim>, moves: seq<Move>)

  /** A run from an empty journal: quanta started, cut and crashed in any order. */
  ghost predicate IsRun(g: Guest, run: Run) {
    && |run.states| == |run.moves| + 1
    && run.states[0] == Sim([], None)
    && forall i :: 0 <= i < |run.moves| ==> StepAt(g, run, i)
  }

  ghost predicate StepAt(g: Guest, run: Run, i: nat)
    requires |run.states| == |run.moves| + 1 && i < |run.moves|
  {
    && CanMove(g, run.states[i], run.moves[i])
    && run.states[i + 1] == After(g, run.states[i], run.moves[i])
  }

  lemma {:induction false} RunInvariant(g: Guest, run: Run, i: nat)
    requires IsRun(g, run) && i < |run.states|
    ensures SimInv(g, run.states[i])
  {
    if i > 0 {
      RunInvariant(g, run, i - 1);
      assert StepAt(g, run, i - 1);
      MoveKeepsInv(g, run.states[i - 1], run.moves[i - 1]);
    }
  }

  lemma {:induction false} ViewsOnlyGrow(g: Guest, run: Run, i: nat, j: nat)
    requires IsRun(g, run) && i <= j < |run.states|
    ensures run.states[i].view <= run.states[j].view
  {
    if i < j {
      ViewsOnlyGrow(g, run, i, j - 1);
      RunInvariant(g, run, j - 1);
      assert StepAt(g, run, j - 1);
      MoveKeepsInv(g, run.states[j - 1], run.moves[j - 1]);
    }
  }

  /** In every run of every deterministic guest, cut anywhere any number of times, no
      call diverges, and a call completed once is served that same result in every
      later quantum. */
  lemma ReplayIsFaithful(g: Guest, run: Run, i: nat, j: nat)
    requires IsRun(g, run) && i <= j < |run.moves| && run.moves[j].Ask?
    ensures run.states[j].quantum.Some? && g(run.states[j].quantum.value.seen).Some?
    ensures SimInv(g, run.states[i])
    ensures var side := run.states[j].quantum.value;
      var next := TapeNext(run.states[j].view, side.cursor, g(side.seen).value);
      && !next.Diverged? && !next.Broken?
      && (|side.seen| < Completed(run.states[i].view) ==> next == Served(ResultAt(run.states[i].view, |side.seen|)))
  {
    RunInvariant(g, run, i);
    RunInvariant(g, run, j);
    assert StepAt(g, run, j);
    var v, w, side := run.states[i].view, run.states[j].view, run.states[j].quantum.value;
    NeverDiverges(g, w, side, g(side.seen).value);
    ViewsOnlyGrow(g, run, i, j);
    var k := |side.seen|;
    if k < Completed(v) {
      assert v[2 * k + 1] == w[2 * k + 1];
    }
  }

  // ---- Quiescence -------------------------------------------------------

  /** The guest's whole run is recorded: it halts after the last recorded result. */
  ghost predicate Finished(g: Guest, s: Sim) {
    && Conforms(g, s.view)
    && !HasOpenIntent(s.view)
    && g(Results(s.view)).None?
  }

  /** A guest that halts has its whole run recorded, with no intent open. */
  lemma HaltingMeansFinished(g: Guest, s: Sim)
    requires SimInv(g, s) && s.quantum.Some?
    requires s.quantum.value.act.Thinking? && g(s.quantum.value.seen).None?
    ensures Finished(g, s)
  {
    var k := |s.quantum.value.seen|;
    assert 2 * k >= |s.view|;
    assert Results(s.view)[..Completed(s.view)] == Results(s.view);
  }

  /** Once a run is finished, every later quantum is pure replay: it appends nothing,
      and no call reaches the layers below. */
  lemma {:induction false} FinishedRunsAreQuiet(g: Guest, run: Run, i: nat, j: nat)
    requires IsRun(g, run) && i <= j < |run.states|
    requires Finished(g, run.states[i])
    ensures run.states[j].view == run.states[i].view
    ensures run.states[j].quantum.Some? ==> run.states[j].quantum.value.act.Thinking?
  {
    RunInvariant(g, run, j);
    if i < j {
      FinishedRunsAreQuiet(g, run, i, j - 1);
      assert StepAt(g, run, j - 1);
      RunInvariant(g, run, j - 1);
      var s, m := run.states[j - 1], run.moves[j - 1];
      if m.Ask? {
        var side := s.quantum.value;
        NeverDiverges(g, s.view, side, g(side.seen).value);
        assert Results(s.view)[..Completed(s.view)] == Results(s.view);
      }
    }
  }

  // ---- At least once ----------------------------------------------------

  /** The move sends the intent at a position to the layers below. */
  predicate Drives(s: Sim, m: Move, after: Sim, p: nat) {
    m.Ask? && after.quantum.Some? && after.quantum.value.act.Driving? && |after.view| == p + 1
  }

  /** The move ends a drive without a completion: the call yielded or failed. */
  predicate Parks(s: Sim, m: Move, p: nat) {
    && |s.view| == p + 1
    && (m.Fail? || (m.Respond? && m.result.status.Yielded?))
  }

  /** The move is a crash that cuts a drive before its completion is journaled. */
  predicate Cuts(s: Sim, m: Move, p: nat) {
    m.Crash? && InFlight(s, p)
  }

  predicate InFlight(s: Sim, p: nat) {
    && s.quantum.Some?
    && (s.quantum.value.act.Driving? || s.quantum.value.act.Answered?)
    && |s.view| == p + 1
  }

  function Count(b: bool): nat { if b then 1 else 0 }

  ghost function DriveCount(run: Run, n: nat, p: nat): nat
    requires |run.states| == |run.moves| + 1 && n <= |run.moves|
  {
    if n == 0 then 0 else
      DriveCount(run, n - 1, p) + Count(Drives(run.states[n - 1], run.moves[n - 1], run.states[n], p))
  }

  ghost function ParkCount(run: Run, n: nat, p: nat): nat
    requires |run.states| == |run.moves| + 1 && n <= |run.moves|
  {
    if n == 0 then 0 else ParkCount(run, n - 1, p) + Count(Parks(run.states[n - 1], run.moves[n - 1], p))
  }

  ghost function CutCount(run: Run, n: nat, p: nat): nat
    requires |run.states| == |run.moves| + 1 && n <= |run.moves|
  {
    if n == 0 then 0 else CutCount(run, n - 1, p) + Count(Cuts(run.states[n - 1], run.moves[n - 1], p))
  }

  /** The exact number of times an intent is driven: once for its completion if it
      has one, once more for each yield or failure, once for each crash that cut it,
      and once if a drive is under way. */
  lemma {:induction false} AtLeastOnceExactly(g: Guest, run: Run, n: nat, p: nat)
    requires IsRun(g, run) && n <= |run.moves| && p % 2 == 0
    ensures DriveCount(run, n, p) ==
      Count(p + 1 < |run.states[n].view|) + ParkCount(run, n, p) + CutCount(run, n, p)
      + Count(InFlight(run.states[n], p))
  {
    if n > 0 {
      AtLeastOnceExactly(g, run, n - 1, p);
      RunInvariant(g, run, n - 1);
      assert StepAt(g, run, n - 1);
      StepBalances(g, run.states[n - 1], run.moves[n - 1], p);
    }
  }

  lemma StepBalances(g: Guest, s: Sim, m: Move, p: nat)
    requires SimInv(g, s) && CanMove(g, s, m) && p % 2 == 0
    ensures var after := After(g, s, m);
      Count(Drives(s, m, after, p)) + Count(p + 1 < |s.view|) + Count(InFlight(s, p))
      == Count(p + 1 < |after.view|) + Count(Parks(s, m, p)) + Count(Cuts(s, m, p)) + Count(InFlight(after, p))
  {
    match m {
      case Ask => NeverDiverges(g, s.view, s.quantum.value, g(s.quantum.value.seen).value);
      case Stray(call) => StrayCallsAreRefused(s.view, s.quantum.value, call, 0);
      case _ =>
    }
  }

  /** Crashes fall on appends only: on an intent's, before its call runs, or on a
      completion's, after its call ran. */
  ghost predicate CrashesOnAppendsOnly(g: Guest, run: Run)
    requires |run.states| == |run.moves| + 1
  {
    forall i :: 0 <= i < |run.moves| && run.moves[i].Crash? && run.states[i].quantum.Some? ==>
      !run.states[i].quantum.value.act.Driving?
  }

  ghost predicate NothingYieldsOrFails(run: Run) {
    forall i :: 0 <= i < |run.moves| ==>
      !run.moves[i].Fail? && (run.moves[i].Respond? ==> !run.moves[i].result.status.Yielded?)
  }

  /** The crash cut this intent's completion append. */
  predicate CutsCompletionAppend(s: Sim, m: Move, p: nat) {
    && m.Crash? && s.quantum.Some? && s.quantum.value.act.Answered?
    && |s.view| == p + 1
  }

  ghost function CompletionCuts(run: Run, n: nat, p: nat): nat
    requires |run.states| == |run.moves| + 1 && n <= |run.moves|
  {
    if n == 0 then 0 else
      CompletionCuts(run, n - 1, p) + Count(CutsCompletionAppend(run.states[n - 1], run.moves[n - 1], p))
  }

  /** The simulation's contract, for every program and every crash schedule: a
      completed call ran once, plus once for each crash that cut its completion. */
  lemma EffectsRepeatOnlyForCutCompletions(g: Guest, run: Run, n: nat, p: nat)
    requires IsRun(g, run) && n <= |run.moves| && p % 2 == 0
    requires CrashesOnAppendsOnly(g, run) && NothingYieldsOrFails(run)
    requires p + 1 < |run.states[n].view|
    ensures DriveCount(run, n, p) == 1 + CompletionCuts(run, n, p)
  {
    AtLeastOnceExactly(g, run, n, p);
    CleanCounts(run, n, p);
  }

  lemma {:induction false} CleanCounts(run: Run, n: nat, p: nat)
    requires |run.states| == |run.moves| + 1 && n <= |run.moves|
    requires NothingYieldsOrFails(run)
    requires forall i :: 0 <= i < |run.moves| && run.moves[i].Crash? && run.states[i].quantum.Some? ==>
      !run.states[i].quantum.value.act.Driving?
    ensures ParkCount(run, n, p) == 0 && CutCount(run, n, p) == CompletionCuts(run, n, p)
  {
    if n > 0 {
      CleanCounts(run, n - 1, p);
      assert !run.moves[n - 1].Fail?;
    }
  }

  /** While a quantum lasts, its cursor never goes back below an intent it drove. */
  ghost predicate PastDrive(s: Sim, p: nat) {
    s.quantum.Some? ==> p < s.quantum.value.cursor
  }

  lemma {:induction false} StaysPast(g: Guest, run: Run, i: nat, j: nat, p: nat)
    requires IsRun(g, run) && i <= j < |run.states|
    requires PastDrive(run.states[i], p)
    requires forall k :: i <= k < j ==> !run.moves[k].Start?
    ensures PastDrive(run.states[j], p)
  {
    if i < j {
      StaysPast(g, run, i, j - 1, p);
      assert StepAt(g, run, j - 1);
    }
  }

  /** A recorded intent is driven at most once in a quantum: between two drives of it
      a new quantum starts. */
  lemma DrivenOncePerQuantum(g: Guest, run: Run, i: nat, j: nat, p: nat)
    requires IsRun(g, run) && i < j < |run.moves|
    requires Drives(run.states[i], run.moves[i], run.states[i + 1], p)
    requires Drives(run.states[j], run.moves[j], run.states[j + 1], p)
    ensures exists k :: i < k < j && run.moves[k].Start?
  {
    if forall k :: i < k < j ==> !run.moves[k].Start? {
      assert StepAt(g, run, i) && StepAt(g, run, j);
      RunInvariant(g, run, i + 1);
      RunInvariant(g, run, j + 1);
      StaysPast(g, run, i + 1, j, p);
      assert false;
    }
  }
}
