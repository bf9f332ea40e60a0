/** The bounded pool quanta run on: its senders, workers and cancellations as a state
    machine, one step per channel operation. */
module Pool {
  /** How a submission ended: it ran, or was dropped before it started. */
  datatype Outcome = Ran(result: string) | Dropped(poolClosed: bool)

  /** The goroutine that offers one submission to the workers. */
  datatype Sender = Offering | Gone

  datatype Worker = Idle | Holding(q: nat) | Executing(q: nat) | Exited

  /** sent is what each submission's result channel has received. A context is done when
      its submission is cancelled or the pool's root is. */
  datatype Pool = Pool(
    senders: seq<Sender>, workers: seq<Worker>, sent: seq<seq<Outcome>>, cancelled: set<nat>, closed: bool)

  function NewPool(size: nat): Pool {
    Pool([], seq(size, i => Idle), [], {}, false)
  }

  datatype Step =
    | Submit
    | Cancel(q: nat)
    | Close
    | Take(w: nat, q: nat)             // a worker receives the submission
    | Drop(q: nat)                     // its sender sees the context done
    | Check(w: nat)                    // the worker looks at the context
    | Finish(w: nat, result: string)   // the quantum ends
    | Exit(w: nat)

  predicate Done(s: Pool, q: nat) {
    s.closed || q in s.cancelled
  }

  predicate Enabled(s: Pool, t: Step) {
    match t
    case Submit => !s.closed
    case Cancel(q) => q < |s.senders|
    case Close => true
    case Take(w, q) => w < |s.workers| && q < |s.senders| && s.workers[w].Idle? && s.senders[q].Offering?
    case Drop(q) => q < |s.senders| && s.senders[q].Offering? && Done(s, q)
    case Check(w) => w < |s.workers| && s.workers[w].Holding?
    case Finish(w, _) => w < |s.workers| && s.workers[w].Executing?
    case Exit(w) => w < |s.workers| && s.workers[w].Idle? && s.closed
  }

  function Send(s: Pool, q: nat, outcome: Outcome): seq<seq<Outcome>> {
    if q < |s.sent| then s.sent[q := s.sent[q] + [outcome]] else s.sent
  }

  function After(s: Pool, t: Step): Pool
    requires Enabled(s, t)
  {
    match t
    case Submit => s.(senders := s.senders + [Offering], sent := s.sent + [[]])
    case Cancel(q) => s.(cancelled := s.cancelled + {q})
    case Close => s.(closed := true)
    case Take(w, q) => s.(senders := s.senders[q := Gone], workers := s.workers[w := Holding(q)])
    case Drop(q) => s.(senders := s.senders[q := Gone], sent := Send(s, q, Dropped(s.closed)))
    case Check(w) =>
      var q := s.workers[w].q;
      if Done(s, q)
      then s.(workers := s.workers[w := Idle], sent := Send(s, q, Dropped(s.closed)))
      else s.(workers := s.workers[w := Executing(q)])
    case Finish(w, result) =>
      s.(workers := s.workers[w := Idle], sent := Send(s, s.workers[w].q, Ran(result)))
    case Exit(w) => s.(workers := s.workers[w := Exited])
  }

  // ---- The invariant ----------------------------------------------------

  predicate Has(s: Pool, w: nat, q: nat) {
    w < |s.workers| && (s.workers[w] == Holding(q) || s.workers[w] == Executing(q))
  }

  /** A submission is offered, or held by one worker, or has its one result. */
  ghost predicate InOnePlace(s: Pool, q: nat)
    requires q < |s.senders| == |s.sent|
  {
    && |s.sent[q]| <= 1
    && (s.senders[q].Offering? ==> s.sent[q] == [] && forall w: nat :: !Has(s, w, q))
    && (s.senders[q].Gone? ==> (s.sent[q] == [] <==> exists w: nat :: Has(s, w, q)))
    && (forall w: nat, x: nat :: Has(s, w, q) && Has(s, x, q) ==> w == x)
  }

  ghost predicate PoolInv(s: Pool) {
    && |s.senders| == |s.sent|
    && (forall w: nat :: w < |s.workers| && (s.workers[w].Holding? || s.workers[w].Executing?) ==>
          s.workers[w].q < |s.senders|)
    && (forall q: nat :: q < |s.senders| ==> InOnePlace(s, q))
  }

  lemma StepKeepsPlace(s: Pool, t: Step, q: nat)
    requires PoolInv(s) && Enabled(s, t) && q < |After(s, t).senders|
    ensures |After(s, t).senders| == |After(s, t).sent| && InOnePlace(After(s, t), q)
  {
    var s' := After(s, t);
    if q < |s.senders| {
      assert InOnePlace(s, q);
      match t {
        case Take(w, r) =>
          assert InOnePlace(s, r);
          forall x: nat ensures Has(s', x, q) <==> if x == w then q == r else Has(s, x, q) {}
          assert q == r ==> Has(s', w, q);
        case Check(w) =>
          assert Has(s, w, s.workers[w].q);
          var kept := !Done(s, s.workers[w].q);
          forall x: nat ensures Has(s', x, q) <==> Has(s, x, q) && (x == w ==> kept) {}
        case Finish(w, _) =>
          assert Has(s, w, s.workers[w].q);
          forall x: nat ensures Has(s', x, q) <==> Has(s, x, q) && x != w {}
        case _ =>
          forall x: nat ensures Has(s', x, q) <==> Has(s, x, q) {}
      }
    }
  }

  lemma StepKeeps(s: Pool, t: Step)
    requires PoolInv(s) && Enabled(s, t)
    ensures PoolInv(After(s, t)) && |After(s, t).workers| == |s.workers|
  {
    forall q: nat | q < |After(s, t).senders| ensures InOnePlace(After(s, t), q) {
      StepKeepsPlace(s, t, q);
    }
  }

  // ---- Runs -------------------------------------------------------------

  datatype Run = Run(states: seq<Pool>, steps: seq<Step>)

  ghost predicate IsRun(size: nat, run: Run) {
    && |run.states| == |run.steps| + 1 && run.states[0] == NewPool(size)
    && forall i :: 0 <= i < |run.steps| ==> StepAt(run, i)
  }

  predicate StepAt(run: Run, i: nat)
    requires |run.states| == |run.steps| + 1 && i < |run.steps|
  {
    Enabled(run.states[i], run.steps[i]) && run.states[i + 1] == After(run.states[i], run.steps[i])
  }

  lemma {:induction false} RunKeeps(size: nat, run: Run, i: nat)
    requires IsRun(size, run) && i < |run.states|
    ensures PoolInv(run.states[i]) && |run.states[i].workers| == size
  {
    if i > 0 {
      RunKeeps(size, run, i - 1);
      assert StepAt(run, i - 1);
      StepKeeps(run.states[i - 1], run.steps[i - 1]);
    }
  }

  /** A submission has settled: no sender offers it and no worker has it. */
  ghost predicate Settled(s: Pool, q: nat)
    requires q < |s.senders|
  {
    s.senders[q].Gone? && forall w: nat :: !Has(s, w, q)
  }

  /** Every accepted submission receives at most one result, and exactly one once it has
      settled. */
  lemma OneResultEach(size: nat, run: Run, i: nat, q: nat)
    requires IsRun(size, run) && i < |run.states| && q < |run.states[i].senders|
    ensures |run.states[i].sent| == |run.states[i].senders|
    ensures |run.states[i].sent[q]| == if Settled(run.states[i], q) then 1 else 0
  {
    RunKeeps(size, run, i);
    assert InOnePlace(run.states[i], q);
  }

  // ---- Whose result it is -----------------------------------------------

  /** The step ends the submission's quantum with a result. */
  predicate Ends(s: Pool, t: Step, q: nat, result: string) {
    t.Finish? && t.result == result && t.w < |s.workers| && s.workers[t.w] == Executing(q)
  }

  /** The step drops the submission: its context was done before it started. */
  predicate Drops(s: Pool, t: Step, q: nat) {
    && Done(s, q)
    && ((t.Drop? && t.q == q) || (t.Check? && t.w < |s.workers| && s.workers[t.w] == Holding(q)))
  }

  /** What the submission was sent is what its own quantum ended with, or that it was
      dropped. */
  ghost predicate SentRight(run: Run, i: nat, q: nat)
    requires |run.states| == |run.steps| + 1 && i < |run.states| && q < |run.states[i].sent|
  {
    forall k :: 0 <= k < |run.states[i].sent[q]| ==> SentAt(run, i, q, run.states[i].sent[q][k])
  }

  ghost predicate SentAt(run: Run, i: nat, q: nat, outcome: Outcome)
    requires |run.states| == |run.steps| + 1 && i < |run.states|
  {
    match outcome
    case Ran(result) => exists m: nat :: m < i && Ends(run.states[m], run.steps[m], q, result)
    case Dropped(closed) =>
      exists m: nat :: m < i && Drops(run.states[m], run.steps[m], q) && run.states[m].closed == closed
  }

  lemma SentEarlier(run: Run, i: nat, q: nat, outcome: Outcome)
    requires |run.states| == |run.steps| + 1 && i + 1 < |run.states| && SentAt(run, i, q, outcome)
    ensures SentAt(run, i + 1, q, outcome)
  {
    match outcome {
      case Ran(result) =>
        var m: nat :| m < i && Ends(run.states[m], run.steps[m], q, result);
        assert m < i + 1;
      case Dropped(closed) =>
        var m: nat :| m < i && Drops(run.states[m], run.steps[m], q) && run.states[m].closed == closed;
        assert m < i + 1;
    }
  }

  /** A step sends at most one outcome, to the submission it ends or drops. */
  lemma SendsOwnOutcome(s: Pool, t: Step, q: nat)
    requires PoolInv(s) && Enabled(s, t) && q < |s.sent|
    ensures q < |After(s, t).sent|
    ensures After(s, t).sent[q] == s.sent[q] + SentBy(s, t, q)
  {
  }

  function SentBy(s: Pool, t: Step, q: nat): seq<Outcome> {
    if t.Finish? && Ends(s, t, q, t.result) then [Ran(t.result)]
    else if Drops(s, t, q) then [Dropped(s.closed)]
    else []
  }

  lemma {:induction false} EveryResultIsSentRight(size: nat, run: Run, i: nat, q: nat)
    requires IsRun(size, run) && i < |run.states| && q < |run.states[i].sent|
    ensures SentRight(run, i, q)
  {
    if i > 0 {
      RunKeeps(size, run, i - 1);
      assert StepAt(run, i - 1);
      var s, t := run.states[i - 1], run.steps[i - 1];
      if q < |s.sent| {
        EveryResultIsSentRight(size, run, i - 1, q);
        SendsOwnOutcome(s, t, q);
        forall k | 0 <= k < |run.states[i].sent[q]| ensures SentAt(run, i, q, run.states[i].sent[q][k]) {
          if k < |s.sent[q]| {
            SentEarlier(run, i - 1, q, s.sent[q][k]);
          }
        }
      }
    }
  }

  /** A submission is answered for its own quantum. A result it receives is what its quantum
      ended with on the worker that ran it, or that it was dropped with its context done
      before it started; and what its quantum ended with is what it receives. */
  lemma ResultsAreTheQuantasOwn(size: nat, run: Run, i: nat, q: nat)
    requires IsRun(size, run) && i < |run.states| && q < |run.states[i].senders|
    ensures q < |run.states[i].sent| && SentRight(run, i, q)
    ensures forall m: nat, result :: m < i && Ends(run.states[m], run.steps[m], q, result) ==>
      run.states[i].sent[q] == [Ran(result)]
  {
    RunKeeps(size, run, i);
    EveryResultIsSentRight(size, run, i, q);
    forall m: nat, result | m < i && Ends(run.states[m], run.steps[m], q, result)
      ensures run.states[i].sent[q] == [Ran(result)]
    {
      EndedIsSent(size, run, m, i, q, result);
    }
  }

  lemma {:induction false} EndedIsSent(size: nat, run: Run, m: nat, i: nat, q: nat, result: string)
    requires IsRun(size, run) && m < i < |run.states| && Ends(run.states[m], run.steps[m], q, result)
    ensures q < |run.states[i].sent| && run.states[i].sent[q] == [Ran(result)]
  {
    RunKeeps(size, run, i - 1);
    RunKeeps(size, run, i);
    assert StepAt(run, i - 1);
    if m < i - 1 {
      EndedIsSent(size, run, m, i - 1, q, result);
    } else {
      assert Has(run.states[m], run.steps[m].w, q);
      assert InOnePlace(run.states[m], q);
    }
    SendsOwnOutcome(run.states[i - 1], run.steps[i - 1], q);
    assert InOnePlace(run.states[i], q);
  }

  // ---- The bound --------------------------------------------------------

  function Underway(workers: seq<Worker>): set<nat> {
    if workers == [] then {} else
      var last := workers[|workers| - 1];
      Underway(workers[..|workers| - 1]) + if last.Executing? then {last.q} else {}
  }

  lemma {:induction false} UnderwayIsBounded(workers: seq<Worker>)
    ensures |Underway(workers)| <= |workers|
    ensures forall q :: q in Underway(workers) <==> Executing(q) in workers
  {
    if workers != [] {
      var front, last := workers[..|workers| - 1], workers[|workers| - 1];
      UnderwayIsBounded(front);
      assert workers == front + [last];
    }
  }

  /** At most size quanta run at once, by any interleaving, and no two workers run the
      same one. */
  lemma AtMostSizeRunAtOnce(size: nat, run: Run, i: nat)
    requires IsRun(size, run) && i < |run.states|
    ensures |Underway(run.states[i].workers)| <= size == |run.states[i].workers|
    ensures forall w: nat, x: nat, q: nat | w < size && x < size ::
      run.states[i].workers[w] == Executing(q) && run.states[i].workers[x] == Executing(q) ==> w == x
  {
    var s := run.states[i];
    RunKeeps(size, run, i);
    UnderwayIsBounded(s.workers);
    forall w: nat, x: nat, q: nat | w < size && x < size && s.workers[w] == Executing(q) && s.workers[x] == Executing(q)
      ensures w == x
    {
      assert InOnePlace(s, q);
      assert Has(s, w, q) && Has(s, x, q);
    }
  }

  // ---- Cancellation and shutdown ----------------------------------------

  /** The submission has not started, and never will: whatever result it gets says so. */
  ghost predicate NeverStarts(s: Pool, q: nat) {
    && Done(s, q)
    && Executing(q) !in s.workers
    && (q < |s.sent| ==> forall k :: 0 <= k < |s.sent[q]| ==> s.sent[q][k].Dropped?)
  }

  lemma StillNeverStarts(s: Pool, t: Step, q: nat)
    requires PoolInv(s) && Enabled(s, t) && NeverStarts(s, q)
    ensures NeverStarts(After(s, t), q)
  {
    if t.Finish? {
      assert s.workers[t.w] in s.workers;
    }
  }

  /** A submission cancelled before a worker checks it never runs, whoever cancelled it:
      its caller, or the shutdown of the pool. */
  lemma {:induction false} CancelledBeforeItsCheckNeverRuns(size: nat, run: Run, i: nat, j: nat, q: nat)
    requires IsRun(size, run) && i <= j < |run.states|
    requires q < |run.states[i].senders| && Done(run.states[i], q)
    requires Executing(q) !in run.states[i].workers && !Settled(run.states[i], q)
    ensures NeverStarts(run.states[j], q)
    ensures q < |run.states[j].senders| == |run.states[j].sent|
    ensures Settled(run.states[j], q) ==> |run.states[j].sent[q]| == 1 && run.states[j].sent[q][0].Dropped?
  {
    RunKeeps(size, run, j);
    if i < j {
      CancelledBeforeItsCheckNeverRuns(size, run, i, j - 1, q);
      RunKeeps(size, run, j - 1);
      assert StepAt(run, j - 1);
      StillNeverStarts(run.states[j - 1], run.steps[j - 1], q);
    }
    assert InOnePlace(run.states[j], q);
  }

  // ---- Draining ---------------------------------------------------------

  /** A step of the pool's own goroutines, rather than a caller's. */
  predicate Internal(t: Step) {
    t.Take? || t.Drop? || t.Check? || t.Finish? || t.Exit?
  }

  function SenderWeight(s: Sender): nat { if s.Offering? then 3 else 0 }

  function WorkerWeight(w: Worker): nat {
    match w
    case Holding(_) => 3
    case Executing(_) => 2
    case Idle => 1
    case Exited => 0
  }

  function SenderSum(ss: seq<Sender>): nat {
    if ss == [] then 0 else SenderSum(ss[..|ss| - 1]) + SenderWeight(ss[|ss| - 1])
  }

  function WorkerSum(ws: seq<Worker>): nat {
    if ws == [] then 0 else WorkerSum(ws[..|ws| - 1]) + WorkerWeight(ws[|ws| - 1])
  }

  lemma {:induction false} SenderSumAfter(ss: seq<Sender>, i: nat, x: Sender)
    requires i < |ss|
    ensures SenderSum(ss[i := x]) == SenderSum(ss) - SenderWeight(ss[i]) + SenderWeight(x)
  {
    var ts := ss[i := x];
    if i < |ss| - 1 {
      SenderSumAfter(ss[..|ss| - 1], i, x);
      assert ts[..|ts| - 1] == ss[..|ss| - 1][i := x];
    } else {
      assert ts[..|ts| - 1] == ss[..|ss| - 1];
    }
  }

  lemma {:induction false} WorkerSumAfter(ws: seq<Worker>, i: nat, x: Worker)
    requires i < |ws|
    ensures WorkerSum(ws[i := x]) == WorkerSum(ws) - WorkerWeight(ws[i]) + WorkerWeight(x)
  {
    var vs := ws[i := x];
    if i < |ws| - 1 {
      WorkerSumAfter(ws[..|ws| - 1], i, x);
      assert vs[..|vs| - 1] == ws[..|ws| - 1][i := x];
    } else {
      assert vs[..|vs| - 1] == ws[..|ws| - 1];
    }
  }

  /** How many steps the pool's goroutines can still take. */
  function Work(s: Pool): nat {
    SenderSum(s.senders) + WorkerSum(s.workers)
  }

  /** Every internal step uses some of it up, so a pool that gets no new submissions
      comes to rest. */
  lemma InternalStepsEnd(s: Pool, t: Step)
    requires Enabled(s, t) && Internal(t)
    ensures Work(After(s, t)) < Work(s)
  {
    match t {
      case Take(w, q) =>
        SenderSumAfter(s.senders, q, Gone);
        WorkerSumAfter(s.workers, w, Holding(q));
      case Drop(q) => SenderSumAfter(s.senders, q, Gone);
      case Check(w) => WorkerSumAfter(s.workers, w, After(s, t).workers[w]);
      case Finish(w, _) => WorkerSumAfter(s.workers, w, Idle);
      case Exit(w) => WorkerSumAfter(s.workers, w, Exited);
    }
  }

  /** No internal step is left. */
  ghost predicate AtRest(s: Pool) {
    forall t: Step :: Internal(t) ==> !Enabled(s, t)
  }

  /** A closed pool that has come to rest has lost no submission: each has exactly one
      result, and every worker has exited. */
  lemma ClosedPoolSettlesEverything(size: nat, run: Run, i: nat)
    requires IsRun(size, run) && i < |run.states| && run.states[i].closed && AtRest(run.states[i])
    ensures |run.states[i].sent| == |run.states[i].senders|
    ensures forall q: nat :: q < |run.states[i].senders| ==> |run.states[i].sent[q]| == 1
    ensures forall w :: w in run.states[i].workers ==> w.Exited?
  {
    var s := run.states[i];
    RunKeeps(size, run, i);
    forall w: nat | w < |s.workers| ensures s.workers[w].Exited? {
      assert !Enabled(s, Exit(w)) && !Enabled(s, Check(w)) && !Enabled(s, Finish(w, ""));
    }
    forall q: nat | q < |s.senders| ensures |s.sent[q]| == 1 {
      assert !Enabled(s, Drop(q));
      assert InOnePlace(s, q);
    }
  }
}
