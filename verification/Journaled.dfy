/** The journal's record format, its structure, and the outermost open section. */
module Journaled {
  import opened Sys

  datatype Kind = Intent | Completion

  /** One journal entry. A damaged store may hand back any of these, so the
      payload is optional and only Sound says which kind belongs where. */
  datatype Record = Record(
    position: nat, kind: Kind, revision: nat, syscall: Option<Syscall>, result: Option<SyscallResult>)

  function IntentRecord(position: nat, call: Syscall): Record {
    Record(position, Intent, 0, Some(call), None)
  }

  function CompletionRecord(position: nat, result: SyscallResult): Record {
    Record(position, Completion, 0, None, Some(result))
  }

  /** The record that belongs at an index: intents at even ones, completions at odd ones. */
  predicate Sound(rec: Record, index: nat) {
    && rec.position == index
    && if index % 2 == 0 then rec.kind.Intent? && rec.syscall.Some? else rec.kind.Completion? && rec.result.Some?
  }

  predicate WellFormed(v: seq<Record>) {
    forall i :: 0 <= i < |v| ==> Sound(v[i], i)
  }

  /** How many calls completed. An odd length leaves one intent open at the tail. */
  function Completed(v: seq<Record>): nat { |v| / 2 }

  predicate HasOpenIntent(v: seq<Record>) { |v| % 2 == 1 }

  function CallAt(v: seq<Record>, k: nat): Syscall
    requires WellFormed(v) && 2 * k < |v|
  {
    assert Sound(v[2 * k], 2 * k);
    v[2 * k].syscall.value
  }

  function ResultAt(v: seq<Record>, k: nat): SyscallResult
    requires WellFormed(v) && 2 * k + 1 < |v|
  {
    assert Sound(v[2 * k + 1], 2 * k + 1);
    v[2 * k + 1].result.value
  }

  /** The results of the completed calls, in order: what a replay serves. */
  function Results(v: seq<Record>): (r: seq<SyscallResult>)
    requires WellFormed(v)
    ensures |r| == Completed(v)
  {
    seq(Completed(v), k requires 0 <= k < Completed(v) => ResultAt(v, k))
  }

  lemma PrefixResults(v: seq<Record>, w: seq<Record>)
    requires WellFormed(v) && WellFormed(w) && v <= w
    ensures Results(v) == Results(w)[..Completed(v)]
  {
    forall k | 0 <= k < Completed(v) ensures ResultAt(v, k) == ResultAt(w, k) {
      assert v[2 * k + 1] == w[2 * k + 1];
    }
  }

  // ---- Sections ---------------------------------------------------------

  /** The saturating nesting depth after the first k completed calls. */
  function Depth(v: seq<Record>, k: nat): nat
    requires WellFormed(v) && k <= Completed(v)
  {
    if k == 0 then 0 else
      var before := Depth(v, k - 1);
      match CallAt(v, k - 1).name
      case SysBegin => before + 1
      case SysCommit => if before > 0 then before - 1 else 0
      case _ => before
  }

  function Begins(v: seq<Record>, i: nat, k: nat): nat
    requires WellFormed(v) && i <= k <= Completed(v)
  {
    if i == k then 0 else Begins(v, i, k - 1) + if CallAt(v, k - 1).name.SysBegin? then 1 else 0
  }

  function Commits(v: seq<Record>, i: nat, k: nat): nat
    requires WellFormed(v) && i <= k <= Completed(v)
  {
    if i == k then 0 else Commits(v, i, k - 1) + if CallAt(v, k - 1).name.SysCommit? then 1 else 0
  }

  /** The depth counts the begins that no later commit closed, and a commit that closes
      nothing counts for nothing: it is the most by which begins outnumber commits from some
      call on. */
  lemma {:induction false} DepthIsTheHighestExcess(v: seq<Record>, k: nat)
    requires WellFormed(v) && k <= Completed(v)
    ensures forall i: nat :: i <= k ==> Begins(v, i, k) - Commits(v, i, k) <= Depth(v, k)
    ensures exists i: nat :: i <= k && Begins(v, i, k) - Commits(v, i, k) == Depth(v, k)
  {
    if k == 0 {
      assert Begins(v, 0, 0) - Commits(v, 0, 0) == 0;
    } else {
      DepthIsTheHighestExcess(v, k - 1);
      var i: nat :| i <= k - 1 && Begins(v, i, k - 1) - Commits(v, i, k - 1) == Depth(v, k - 1);
      assert Begins(v, k, k) - Commits(v, k, k) == 0;
      if Depth(v, k - 1) > 0 || !CallAt(v, k - 1).name.SysCommit? {
        assert Begins(v, i, k) - Commits(v, i, k) == Depth(v, k);
      }
    }
  }

  /** The scan's fork offset after the first k completed calls: one past the
      completion of the last begin met at depth zero. */
  function ForkPoint(v: seq<Record>, k: nat): (f: nat)
    requires WellFormed(v) && k <= Completed(v)
    ensures f <= 2 * k && f % 2 == 0
  {
    if k == 0 then 0
    else if CallAt(v, k - 1).name.SysBegin? && Depth(v, k - 1) == 0 then 2 * k
    else ForkPoint(v, k - 1)
  }

  /** Where the outermost open section's body starts, if a section is open. */
  function OutermostOpenBegin(v: seq<Record>): Option<nat>
    requires WellFormed(v)
  {
    var n := Completed(v);
    if Depth(v, n) > 0 then Some(ForkPoint(v, n)) else None
  }

  /** What the scan looks for: a completed begin met at depth zero, after which
      the depth never returns to zero. */
  predicate IsOutermostOpen(v: seq<Record>, k: nat)
    requires WellFormed(v)
  {
    && k < Completed(v)
    && CallAt(v, k).name.SysBegin?
    && Depth(v, k) == 0
    && forall j :: k < j <= Completed(v) ==> Depth(v, j) > 0
  }

  lemma {:induction false} ForkPointMarksTheLastClimb(v: seq<Record>, k: nat)
    requires WellFormed(v) && k <= Completed(v)
    ensures Depth(v, k) > 0 ==>
      var f := ForkPoint(v, k);
      && 2 <= f <= 2 * k && f % 2 == 0
      && CallAt(v, f / 2 - 1).name.SysBegin?
      && Depth(v, f / 2 - 1) == 0
      && forall j :: f / 2 - 1 < j <= k ==> Depth(v, j) > 0
  {
    if k > 0 {
      ForkPointMarksTheLastClimb(v, k - 1);
    }
  }

  /** The scan answers exactly the outermost open begin: it finds one if and only
      if one exists, and the offset is one past that begin's completion. */
  lemma OutermostOpenBeginMeetsItsSpec(v: seq<Record>)
    requires WellFormed(v)
    ensures OutermostOpenBegin(v).Some? <==> exists k :: IsOutermostOpen(v, k)
    ensures forall k :: IsOutermostOpen(v, k) ==> OutermostOpenBegin(v) == Some(2 * k + 2)
  {
    var n := Completed(v);
    ForkPointMarksTheLastClimb(v, n);
    if Depth(v, n) > 0 {
      assert IsOutermostOpen(v, ForkPoint(v, n) / 2 - 1);
    }
    forall k | IsOutermostOpen(v, k) ensures OutermostOpenBegin(v) == Some(2 * k + 2) {
      AtMostOneOutermost(v, k, ForkPoint(v, n) / 2 - 1);
    }
  }

  lemma AtMostOneOutermost(v: seq<Record>, k: nat, l: nat)
    requires WellFormed(v) && IsOutermostOpen(v, k) && IsOutermostOpen(v, l)
    ensures k == l
  {
    // The depth is zero at each begin and positive after the other, so neither is first.
  }

  /** The calls end inside a section. */
  ghost predicate InSection(v: seq<Record>)
    requires WellFormed(v)
  {
    exists k :: IsOutermostOpen(v, k)
  }

  /** The outermost open section's body starts here, right after its begin. */
  ghost predicate BodyStartsAt(v: seq<Record>, offset: nat)
    requires WellFormed(v)
  {
    offset >= 2 && offset % 2 == 0 && IsOutermostOpen(v, offset / 2 - 1)
  }

  lemma ScanFindsTheSection(v: seq<Record>)
    requires WellFormed(v)
    ensures OutermostOpenBegin(v).Some? <==> InSection(v)
    ensures OutermostOpenBegin(v).Some? ==>
      OutermostOpenBegin(v).value <= |v| && BodyStartsAt(v, OutermostOpenBegin(v).value)
  {
    OutermostOpenBeginMeetsItsSpec(v);
    ForkPointMarksTheLastClimb(v, Completed(v));
  }

  lemma {:induction false} PrefixDepth(v: seq<Record>, w: seq<Record>, k: nat)
    requires WellFormed(v) && WellFormed(w) && v <= w && k <= Completed(v)
    ensures Depth(v, k) == Depth(w, k) && ForkPoint(v, k) == ForkPoint(w, k)
  {
    if k > 0 {
      PrefixDepth(v, w, k - 1);
      assert v[2 * (k - 1)] == w[2 * (k - 1)];
    }
  }

  /** Forking at an open section is stable: the forked view has depth exactly one,
      and any extension of it that never returns to depth zero forks at the same
      place again. So every redo of a section starts at the section's own begin. */
  lemma ForkingIsStable(v: seq<Record>, w: seq<Record>, f: nat)
    requires WellFormed(v) && WellFormed(w)
    requires OutermostOpenBegin(v) == Some(f) && f <= |v|
    requires v[..f] <= w
    requires forall j :: f / 2 <= j <= Completed(w) ==> Depth(w, j) > 0
    ensures Completed(v[..f]) == f / 2 && Depth(v[..f], f / 2) == 1
    ensures OutermostOpenBegin(w) == Some(f)
  {
    ForkedAtTheBegin(v, f);
    BeginStaysOpen(v[..f], w, f / 2 - 1);
    OutermostIsFound(w, f / 2 - 1);
  }

  lemma OutermostIsFound(v: seq<Record>, k: nat)
    requires WellFormed(v) && IsOutermostOpen(v, k)
    ensures OutermostOpenBegin(v) == Some(2 * k + 2)
  {
    OutermostOpenBeginMeetsItsSpec(v);
  }

  /** The forked view ends with the section's begin. */
  lemma ForkedAtTheBegin(v: seq<Record>, f: nat)
    requires WellFormed(v) && OutermostOpenBegin(v) == Some(f) && f <= |v|
    ensures f >= 2 && f % 2 == 0 && WellFormed(v[..f]) && Completed(v[..f]) == f / 2
    ensures CallAt(v[..f], f / 2 - 1).name.SysBegin?
    ensures Depth(v[..f], f / 2 - 1) == 0 && Depth(v[..f], f / 2) == 1
  {
    var p, k := v[..f], f / 2 - 1;
    ForkPointMarksTheLastClimb(v, Completed(v));
    PrefixDepth(p, v, k);
    assert p[2 * k] == v[2 * k];
  }

  lemma BeginStaysOpen(p: seq<Record>, w: seq<Record>, k: nat)
    requires WellFormed(p) && WellFormed(w) && p <= w && k < Completed(p)
    requires CallAt(p, k).name.SysBegin? && Depth(p, k) == 0
    requires forall j :: k + 1 <= j <= Completed(w) ==> Depth(w, j) > 0
    ensures k < Completed(w) && IsOutermostOpen(w, k)
  {
    PrefixDepth(p, w, k);
    assert p[2 * k] == w[2 * k];
  }

  /** An open section has at least its begin's pair below it, so a failure length
      of zero can never be an open section's length. */
  lemma OpenSectionHasLength(v: seq<Record>)
    requires WellFormed(v)
    ensures OutermostOpenBegin(v).Some? ==>
      && 2 <= OutermostOpenBegin(v).value <= |v|
      && OutermostOpenBegin(v).value % 2 == 0
  {
    ForkPointMarksTheLastClimb(v, Completed(v));
  }
}
