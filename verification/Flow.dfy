/** Information flow: the taint a run accumulates from the results it sees, and the
    labels stamped on those results. */
module Flow {
  import opened Sys
  import opened Journaled
  import opened Durable

  /** Names a call for the human who approves a later crossing. */
  datatype Source = Source(name: Name, text: string)

  const SOURCE_LIMIT := 200

  function SourceOf(call: Syscall): Source {
    var text := call.args.raw;
    Source(call.name, if |text| <= SOURCE_LIMIT then text else text[..SOURCE_LIMIT] + "...")
  }

  /** A source names its call's syscall, and quotes its arguments up to the limit. */
  lemma SourceNamesItsCall(call: Syscall, other: Syscall)
    ensures SourceOf(call).name == call.name
    ensures |call.args.raw| <= SOURCE_LIMIT ==> SourceOf(call).text == call.args.raw
    ensures |call.args.raw| > SOURCE_LIMIT ==>
      |SourceOf(call).text| > SOURCE_LIMIT && SourceOf(call).text[..SOURCE_LIMIT] == call.args.raw[..SOURCE_LIMIT]
    ensures call.name == other.name && call.args.raw == other.args.raw ==> SourceOf(call) == SourceOf(other)
  {
  }

  /** Every label observed, and for each the calls whose results carried it, in the
      order the run made them. */
  type Taint = map<Label, seq<Source>>

  function SourcesOf(t: Taint, l: Label): seq<Source> {
    if l in t then t[l] else []
  }

  /** Adds labels, each with the call that produced it. A source is listed once. */
  function Observe(t: Taint, labels: set<Label>, source: Source): Taint {
    map l | l in t.Keys + labels ::
      if l in labels && source !in SourcesOf(t, l) then SourcesOf(t, l) + [source] else SourcesOf(t, l)
  }

  /** What Track folds in after a call: markers carry no provenance. */
  function ObserveLabels(t: Taint, call: Syscall, labels: set<Label>): Taint {
    if IsMarker(call.name) then t else Observe(t, labels, SourceOf(call))
  }

  function ObserveCall(t: Taint, call: Syscall, result: SyscallResult): Taint {
    ObserveLabels(t, call, result.labels)
  }

  /** The taint of the first n completed calls: an independent reference for what the
      shared taint map holds. */
  function FoldCalls(v: seq<Record>, n: nat): Taint
    requires WellFormed(v) && n <= Completed(v)
  {
    if n == 0 then map[] else ObserveCall(FoldCalls(v, n - 1), CallAt(v, n - 1), ResultAt(v, n - 1))
  }

  /** Call j carried the label. */
  predicate Carried(v: seq<Record>, j: nat, l: Label)
    requires WellFormed(v)
  {
    j < Completed(v) && !IsMarker(CallAt(v, j).name) && l in ResultAt(v, j).labels
  }

  /** The labels that yields of the k-th call carried before it completed. */
  type Yields = map<nat, set<Label>>

  function YieldsOf(y: Yields, k: nat): set<Label> {
    if k in y then y[k] else {}
  }

  /** The taint of the first n completed calls, each with what its yields carried too. */
  function FoldAll(v: seq<Record>, y: Yields, n: nat): Taint
    requires WellFormed(v) && n <= Completed(v)
  {
    if n == 0 then map[] else
      ObserveLabels(FoldAll(v, y, n - 1), CallAt(v, n - 1), YieldsOf(y, n - 1) + ResultAt(v, n - 1).labels)
  }

  /** Call j carried the label, on its result or on a yield before it. */
  predicate Showed(v: seq<Record>, y: Yields, j: nat, l: Label)
    requires WellFormed(v)
  {
    j < Completed(v) && !IsMarker(CallAt(v, j).name) && (l in ResultAt(v, j).labels || l in YieldsOf(y, j))
  }

  /** The fold holds exactly the labels the calls showed, each with exactly the calls
      that showed it. */
  lemma {:induction false} FoldIsWhatCallsShowed(v: seq<Record>, y: Yields, n: nat, l: Label, s: Source)
    requires WellFormed(v) && n <= Completed(v)
    ensures l in FoldAll(v, y, n) <==> exists j :: 0 <= j < n && Showed(v, y, j, l)
    ensures s in SourcesOf(FoldAll(v, y, n), l) <==>
      exists j :: 0 <= j < n && Showed(v, y, j, l) && SourceOf(CallAt(v, j)) == s
  {
    if n > 0 {
      FoldIsWhatCallsShowed(v, y, n - 1, l, s);
      LastCallShows(v, y, n, l, s);
    }
  }

  lemma LastCallShows(v: seq<Record>, y: Yields, n: nat, l: Label, s: Source)
    requires WellFormed(v) && 0 < n <= Completed(v)
    ensures l in FoldAll(v, y, n) <==> l in FoldAll(v, y, n - 1) || Showed(v, y, n - 1, l)
    ensures s in SourcesOf(FoldAll(v, y, n), l) <==>
      s in SourcesOf(FoldAll(v, y, n - 1), l) || (Showed(v, y, n - 1, l) && SourceOf(CallAt(v, n - 1)) == s)
  {
  }

  // ---- The order of the sources -----------------------------------------

  /** Call j showed the label, and is named so. */
  predicate ShowedUnder(v: seq<Record>, y: Yields, j: nat, l: Label, s: Source)
    requires WellFormed(v)
  {
    Showed(v, y, j, l) && SourceOf(CallAt(v, j)) == s
  }

  /** Among the first n calls, one named s showed the label before any named t did. */
  ghost predicate ShowedFirst(v: seq<Record>, y: Yields, n: nat, l: Label, s: Source, t: Source)
    requires WellFormed(v)
  {
    exists j: nat :: j < n && ShowedUnder(v, y, j, l, s) && NoneUpTo(v, y, j, l, t)
  }

  ghost predicate NoneUpTo(v: seq<Record>, y: Yields, j: nat, l: Label, t: Source)
    requires WellFormed(v)
  {
    forall i: nat :: i <= j ==> !ShowedUnder(v, y, i, l, t)
  }

  /** The list names each call that showed the label once, in the order they first did. */
  ghost predicate InOrderShown(v: seq<Record>, y: Yields, n: nat, l: Label, listed: seq<Source>)
    requires WellFormed(v)
  {
    && (forall s :: s in listed <==> exists j: nat :: j < n && ShowedUnder(v, y, j, l, s))
    && forall a, b :: 0 <= a < b < |listed| ==>
         listed[a] != listed[b] && ShowedFirst(v, y, n, l, listed[a], listed[b])
  }

  /** A call that shows the label adds its source at the end, unless it is listed. */
  lemma OneMoreSource(v: seq<Record>, y: Yields, n: nat, l: Label)
    requires WellFormed(v) && 0 < n <= Completed(v)
    ensures var before := SourcesOf(FoldAll(v, y, n - 1), l);
      SourcesOf(FoldAll(v, y, n), l) ==
        if Showed(v, y, n - 1, l) && SourceOf(CallAt(v, n - 1)) !in before
        then before + [SourceOf(CallAt(v, n - 1))] else before
  {
  }

  lemma StillFirst(v: seq<Record>, y: Yields, n: nat, l: Label, s: Source, t: Source)
    requires WellFormed(v) && n > 0 && ShowedFirst(v, y, n - 1, l, s, t)
    ensures ShowedFirst(v, y, n, l, s, t)
  {
  }

  lemma SameSources(v: seq<Record>, y: Yields, n: nat, l: Label, listed: seq<Source>)
    requires WellFormed(v) && 0 < n <= Completed(v) && InOrderShown(v, y, n - 1, l, listed)
    requires Showed(v, y, n - 1, l) ==> SourceOf(CallAt(v, n - 1)) in listed
    ensures InOrderShown(v, y, n, l, listed)
  {
    forall s ensures s in listed <==> exists j: nat :: j < n && ShowedUnder(v, y, j, l, s) {
      if j: nat :| j < n && ShowedUnder(v, y, j, l, s) {
        assert j < n - 1 || s == SourceOf(CallAt(v, n - 1));
      }
    }
    forall a, b | 0 <= a < b < |listed| ensures ShowedFirst(v, y, n, l, listed[a], listed[b]) {
      StillFirst(v, y, n, l, listed[a], listed[b]);
    }
  }

  lemma NewSourceComesLast(v: seq<Record>, y: Yields, n: nat, l: Label, listed: seq<Source>, t: Source)
    requires WellFormed(v) && 0 < n <= Completed(v) && InOrderShown(v, y, n - 1, l, listed)
    requires ShowedUnder(v, y, n - 1, l, t) && t !in listed
    ensures InOrderShown(v, y, n, l, listed + [t])
  {
    forall s ensures s in listed + [t] <==> exists j: nat :: j < n && ShowedUnder(v, y, j, l, s) {
      if j: nat :| j < n && ShowedUnder(v, y, j, l, s) {
        assert j < n - 1 || s == t;
      }
    }
    var longer := listed + [t];
    forall a, b | 0 <= a < b < |longer|
      ensures longer[a] != longer[b] && ShowedFirst(v, y, n, l, longer[a], longer[b])
    {
      if b < |listed| {
        StillFirst(v, y, n, l, listed[a], listed[b]);
      } else {
        assert listed[a] in listed;
        var j: nat :| j < n - 1 && ShowedUnder(v, y, j, l, listed[a]);
        assert NoneUpTo(v, y, j, l, t);
      }
    }
  }

  lemma NextSourceIsInOrder(
    v: seq<Record>, y: Yields, n: nat, l: Label, before: seq<Source>, after: seq<Source>)
    requires WellFormed(v) && 0 < n <= Completed(v) && InOrderShown(v, y, n - 1, l, before)
    requires after ==
      if Showed(v, y, n - 1, l) && SourceOf(CallAt(v, n - 1)) !in before
      then before + [SourceOf(CallAt(v, n - 1))] else before
    ensures InOrderShown(v, y, n, l, after)
  {
    if after == before {
      SameSources(v, y, n, l, before);
    } else {
      NewSourceComesLast(v, y, n, l, before, SourceOf(CallAt(v, n - 1)));
    }
  }

  /** What a human is shown: under each label, the calls that showed it, each once, in the
      order in which they first showed it. */
  lemma {:induction false} SourcesAreInOrder(v: seq<Record>, y: Yields, n: nat, l: Label)
    requires WellFormed(v) && n <= Completed(v)
    ensures InOrderShown(v, y, n, l, SourcesOf(FoldAll(v, y, n), l))
  {
    if n > 0 {
      SourcesAreInOrder(v, y, n - 1, l);
      OneMoreSource(v, y, n, l);
      NextSourceIsInOrder(
        v, y, n, l, SourcesOf(FoldAll(v, y, n - 1), l), SourcesOf(FoldAll(v, y, n), l));
    }
  }

  /** Yields that carried no more than their calls' completions leave no trace: the taint
      is the fold of the completed calls, down to the order of the sources. */
  lemma {:induction false} QuietYieldsLeaveNoTrace(v: seq<Record>, y: Yields, n: nat)
    requires WellFormed(v) && n <= Completed(v)
    requires forall k: nat, l ::
      k < n && !IsMarker(CallAt(v, k).name) && l in YieldsOf(y, k) ==> l in ResultAt(v, k).labels
    ensures FoldAll(v, y, n) == FoldCalls(v, n)
  {
    if n > 0 {
      QuietYieldsLeaveNoTrace(v, y, n - 1);
      var call, result := CallAt(v, n - 1), ResultAt(v, n - 1);
      if !IsMarker(call.name) {
        assert forall l :: l in YieldsOf(y, n - 1) ==> l in result.labels;
        assert YieldsOf(y, n - 1) + result.labels == result.labels;
      }
    }
  }

  /** The fold of the completed calls holds exactly the labels they carried, each with
      exactly the calls that carried it. */
  lemma FoldIsWhatCallsCarried(v: seq<Record>, n: nat, l: Label, s: Source)
    requires WellFormed(v) && n <= Completed(v)
    ensures l in FoldCalls(v, n) <==> exists j :: 0 <= j < n && Carried(v, j, l)
    ensures s in SourcesOf(FoldCalls(v, n), l) <==>
      exists j :: 0 <= j < n && Carried(v, j, l) && SourceOf(CallAt(v, j)) == s
  {
    QuietYieldsLeaveNoTrace(v, map[], n);
    FoldIsWhatCallsShowed(v, map[], n, l, s);
    assert forall j: nat :: Showed(v, map[], j, l) <==> Carried(v, j, l);
  }

  /** So for the completed calls alone, with no yields. */
  lemma CarriedSourcesAreInOrder(v: seq<Record>, n: nat, l: Label)
    requires WellFormed(v) && n <= Completed(v)
    ensures InOrderShown(v, map[], n, l, SourcesOf(FoldCalls(v, n), l))
  {
    QuietYieldsLeaveNoTrace(v, map[], n);
    SourcesAreInOrder(v, map[], n, l);
  }

  /** The labels are already there, each with this source. */
  predicate Absorbs(t: Taint, labels: set<Label>, source: Source) {
    forall l :: l in labels ==> l in t && source in t[l]
  }

  lemma ObserveAbsorbs(t: Taint, labels: set<Label>, source: Source)
    ensures Absorbs(Observe(t, labels, source), labels, source)
  {
  }

  lemma ObserveKeeps(t: Taint, labels: set<Label>, source: Source, early: set<Label>, s: Source)
    requires Absorbs(t, early, s)
    ensures Absorbs(Observe(t, labels, source), early, s)
  {
  }

  /** Observing a call's labels in two parts is observing them at once: this is why a
      yield and the completion after it leave one trace. */
  lemma ObserveTwice(t: Taint, early: set<Label>, late: set<Label>, source: Source)
    ensures Observe(Observe(t, early, source), late, source) == Observe(t, early + late, source)
  {
  }

  lemma {:induction false} AllIsAbsorbed(v: seq<Record>, y: Yields, n: nat, j: nat)
    requires WellFormed(v) && j < n <= Completed(v) && !IsMarker(CallAt(v, j).name)
    ensures Absorbs(FoldAll(v, y, n), ResultAt(v, j).labels, SourceOf(CallAt(v, j)))
  {
    var before, labels := FoldAll(v, y, n - 1), YieldsOf(y, n - 1) + ResultAt(v, n - 1).labels;
    if j < n - 1 {
      AllIsAbsorbed(v, y, n - 1, j);
      ObserveKeeps(before, labels, SourceOf(CallAt(v, n - 1)), ResultAt(v, j).labels, SourceOf(CallAt(v, j)));
    } else {
      ObserveAbsorbs(before, labels, SourceOf(CallAt(v, n - 1)));
      assert ResultAt(v, j).labels <= labels;
    }
  }

  /** Replaying a call whose labels are already folded in changes nothing, so a taint
      left by an earlier quantum of the same revision stays exact. */
  lemma ReplayIsAbsorbed(v: seq<Record>, y: Yields, n: nat, j: nat, t: Taint)
    requires WellFormed(v) && j < n <= Completed(v)
    requires forall ls, s :: Absorbs(FoldAll(v, y, n), ls, s) ==> Absorbs(t, ls, s)
    ensures ObserveCall(t, CallAt(v, j), ResultAt(v, j)) == t
  {
    if !IsMarker(CallAt(v, j).name) {
      AllIsAbsorbed(v, y, n, j);
    }
  }

  /** The fold reads only the first n calls, and their yields. */
  lemma {:induction false} FoldReadsAPrefix(v: seq<Record>, w: seq<Record>, y: Yields, y': Yields, n: nat)
    requires WellFormed(v) && WellFormed(w) && v <= w && n <= Completed(v)
    requires forall k: nat :: k < n ==> YieldsOf(y, k) == YieldsOf(y', k)
    ensures FoldAll(v, y, n) == FoldAll(w, y', n)
  {
    if n > 0 {
      FoldReadsAPrefix(v, w, y, y', n - 1);
      assert v[2 * (n - 1)] == w[2 * (n - 1)] && v[2 * (n - 1) + 1] == w[2 * (n - 1) + 1];
      assert CallAt(v, n - 1) == CallAt(w, n - 1) && ResultAt(v, n - 1) == ResultAt(w, n - 1);
      assert YieldsOf(y, n - 1) == YieldsOf(y', n - 1);
    }
  }

  // ---- The shared taint map ---------------------------------------------

  function TaintOf<K>(observed: map<K, Taint>, pid: K): Taint {
    if pid in observed then observed[pid] else map[]
  }

  /** The labels are added, and under each the source comes last, unless it is listed. */
  ghost predicate Gains(before: Taint, after: Taint, labels: set<Label>, source: Source) {
    && after.Keys == before.Keys + labels
    && (forall l :: l in after && (l !in labels || source in SourcesOf(before, l)) ==> after[l] == SourcesOf(before, l))
    && (forall l :: l in labels && source !in SourcesOf(before, l) ==> after[l] == SourcesOf(before, l) + [source])
  }

  /** Every label each process revision has observed. One serves the whole host. */
  class Taints {
    var observed: map<ProcessContext, Taint>

    constructor ()
      ensures observed == map[]
    {
      observed := map[];
    }

    method ForgetProcess(pid: ProcessContext)
      modifies this
      ensures observed == old(observed) - {pid}
    {
      observed := observed - {pid};
    }

    method AddLabels(pid: ProcessContext, labels: set<Label>, source: Source)
      modifies this
      ensures TaintOf(observed, pid) == Observe(TaintOf(old(observed), pid), labels, source)
      ensures Gains(TaintOf(old(observed), pid), TaintOf(observed, pid), labels, source)
      ensures observed - {pid} == old(observed) - {pid}
    {
      if labels == {} {
        return;
      }
      var taint := TaintOf(observed, pid);
      ghost var before := taint;
      var rest := labels;
      while rest != {}
        invariant rest <= labels
        invariant taint == Observe(before, labels - rest, source)
        decreases rest
      {
        var lab :| lab in rest;
        rest := rest - {lab};
        if source !in SourcesOf(taint, lab) {
          taint := taint[lab := SourcesOf(taint, lab) + [source]];
        }
      }
      assert labels - rest == labels;
      observed := observed[pid := taint];
    }

    method Snapshot(pid: ProcessContext) returns (labels: set<Label>)
      ensures forall l :: l in labels <==> l in TaintOf(observed, pid)
    {
      labels := if pid in observed then observed[pid].Keys else {};
    }
  }
}
