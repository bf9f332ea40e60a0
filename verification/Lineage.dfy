/** The flat history as an efficient form of a simple one: one whole record sequence
    per revision, where a fork copies a prefix. */
module Lineage {
  import opened Sys
  import opened Journaled
  import opened History

  /** One revision's own sequence: a copied prefix, then what it wrote. */
  datatype Branch = Branch(forkOffset: nat, view: seq<Record>)

  /** Branch r is revision r + 1. */
  ghost predicate Line(l: seq<Branch>) {
    && |l| >= 1 && l[0].forkOffset == 0
    && forall r :: 0 <= r < |l| ==> GrownFrom(l, r)
  }

  /** Branch r starts as a prefix of the one before it, and wrote the rest itself. */
  ghost predicate GrownFrom(l: seq<Branch>, r: nat)
    requires r < |l|
  {
    var b := l[r];
    && b.forkOffset <= |b.view|
    && (r > 0 ==> b.forkOffset <= |l[r - 1].view| && b.view[..b.forkOffset] == l[r - 1].view[..b.forkOffset])
    && forall i :: b.forkOffset <= i < |b.view| ==> b.view[i].position == i && b.view[i].revision == r + 1
  }

  predicate Owns(b: Branch, p: nat) { b.forkOffset <= p < |b.view| }

  /** What the revisions wrote at a position, oldest first. */
  function OwnAt(l: seq<Branch>, p: nat): seq<Record> {
    if l == [] then [] else
      var last := l[|l| - 1];
      OwnAt(l[..|l| - 1], p) + if Owns(last, p) then [last.view[p]] else []
  }

  /** The flat history holds exactly what the revisions wrote. */
  ghost predicate Refines(h: Flat, l: seq<Branch>) {
    forall p :: At(h, p) == OwnAt(l, p)
  }

  lemma FrontIsALine(l: seq<Branch>)
    requires Line(l) && |l| > 1
    ensures Line(l[..|l| - 1])
  {
    var front := l[..|l| - 1];
    forall r | 0 <= r < |front| ensures GrownFrom(front, r) {
      assert GrownFrom(l, r);
    }
  }

  /** A record stands at a position for revision r + 1 exactly when branch r owns it. */
  lemma {:induction false} OwnRecords(l: seq<Branch>, p: nat, i: nat)
    requires Line(l) && i < |OwnAt(l, p)|
    ensures var rec := OwnAt(l, p)[i];
      && rec.position == p && 1 <= rec.revision <= |l|
      && Owns(l[rec.revision - 1], p) && rec == l[rec.revision - 1].view[p]
    ensures forall j :: 0 <= j < i ==> OwnAt(l, p)[j].revision < OwnAt(l, p)[i].revision
  {
    assert GrownFrom(l, |l| - 1);
    var front := l[..|l| - 1];
    if |l| > 1 {
      FrontIsALine(l);
      forall j | 0 <= j < |OwnAt(front, p)| && j <= i ensures OwnAt(l, p)[j] == OwnAt(front, p)[j] {}
      if i < |OwnAt(front, p)| {
        OwnRecords(front, p, i);
      } else {
        forall j | 0 <= j < i ensures OwnAt(l, p)[j].revision < |l| {
          OwnRecords(front, p, j);
        }
      }
    }
  }

  lemma {:induction false} OwnedIsWritten(l: seq<Branch>, p: nat, r: nat)
    requires Line(l) && r < |l| && Owns(l[r], p)
    ensures l[r].view[p] in OwnAt(l, p)
  {
    if r < |l| - 1 {
      FrontIsALine(l);
      OwnedIsWritten(l[..|l| - 1], p, r);
    }
  }

  /** A lookup in the flat history is indexing the revision's own sequence. */
  lemma {:induction false} FlatViewIsBranchView(l: seq<Branch>, r: nat, p: nat)
    requires Line(l) && r < |l| && p < |l[r].view|
    ensures BestOf(OwnAt(l, p), r + 1) == Some(l[r].view[p])
  {
    var last := l[|l| - 1];
    var front := l[..|l| - 1];
    assert GrownFrom(l, |l| - 1);
    var written := OwnAt(l, p);
    forall i | 0 <= i < |OwnAt(front, p)| ensures OwnAt(front, p)[i].revision < |l| {
      if |l| > 1 {
        FrontIsALine(l);
        OwnRecords(front, p, i);
      }
    }
    if Owns(last, p) {
      assert written[..|written| - 1] == OwnAt(front, p);
    } else {
      assert written == OwnAt(front, p);
    }
    if r < |l| - 1 {
      FrontIsALine(l);
      FlatViewIsBranchView(front, r, p);
    } else if Owns(last, p) {
      BestIsHighest(OwnAt(front, p), r + 1);
    } else {
      FrontIsALine(l);
      assert last.view[p] == last.view[..last.forkOffset][p] == l[r - 1].view[p];
      FlatViewIsBranchView(front, r - 1, p);
      BestIgnoresHigherBounds(OwnAt(front, p), r, r + 1);
    }
  }

  /** A length found in the flat history is the length of the revision's own sequence. */
  /** The last record of a branch past its fork is the revision's own. */
  lemma LastIsWritten(h: Flat, l: seq<Branch>, r: nat)
    requires Line(l) && Refines(h, l) && r < |l| && l[r].forkOffset < |l[r].view|
    ensures WroteAt(h, |l[r].view| - 1, r + 1)
  {
    var p := |l[r].view| - 1;
    assert GrownFrom(l, r);
    OwnedIsWritten(l, p, r);
    var i :| 0 <= i < |OwnAt(l, p)| && OwnAt(l, p)[i] == l[r].view[p];
    assert At(h, p)[i].revision == r + 1;
  }

  lemma NothingPastTheEnd(h: Flat, l: seq<Branch>, r: nat, p: nat)
    requires Line(l) && Refines(h, l) && r < |l| && |l[r].view| <= p
    ensures !WroteAt(h, p, r + 1)
  {
    forall i | 0 <= i < |At(h, p)| ensures At(h, p)[i].revision != r + 1 {
      OwnRecords(l, p, i);
    }
  }

  lemma FlatLengthIsBranchLength(h: Flat, l: seq<Branch>, r: nat)
    requires Line(l) && Refines(h, l) && r < |l|
    ensures IsLength(h, r + 1, l[r].forkOffset, |l[r].view|)
  {
    assert GrownFrom(l, r);
    if l[r].forkOffset < |l[r].view| {
      LastIsWritten(h, l, r);
    }
    var revision := r + 1;
    forall p: nat | |l[r].view| <= p ensures !WroteAt(h, p, revision) {
      NothingPastTheEnd(h, l, r, p);
    }
  }

  // ---- Appends and forks in any order -----------------------------------

  datatype Op = AppendRecord(rec: Record) | ForkAt(offset: nat)

  /** A process's journal in memory: the flat history and its current revision. */
  datatype Journal = Journal(history: Flat, revision: nat, forkOffset: nat, length: nat)

  const EMPTY := Journal(map[], 1, 0, 0)

  /** Append refuses a record that is not for the tail. A fork shares the history. */
  function Step(j: Journal, op: Op): Journal {
    match op
    case AppendRecord(rec) =>
      if rec.position != j.length then j else
        j.(history := Add(j.history, rec.(revision := j.revision)), length := j.length + 1)
    case ForkAt(offset) => Journal(j.history, j.revision + 1, offset, offset)
  }

  /** The same on whole sequences: append to the last one, or copy a prefix of it. */
  function BranchStep(l: seq<Branch>, op: Op): seq<Branch>
    requires |l| >= 1 && (op.ForkAt? ==> op.offset <= |l[|l| - 1].view|)
  {
    var last := l[|l| - 1];
    match op
    case AppendRecord(rec) =>
      if rec.position != |last.view| then l else
        l[..|l| - 1] + [last.(view := last.view + [rec.(revision := |l|)])]
    case ForkAt(offset) => l + [Branch(offset, last.view[..offset])]
  }

  ghost predicate Agrees(j: Journal, l: seq<Branch>) {
    && Line(l) && Refines(j.history, l)
    && j.revision == |l|
    && j.forkOffset == l[|l| - 1].forkOffset
    && j.length == |l[|l| - 1].view|
  }

  lemma AppendKeepsLine(l: seq<Branch>, rec: Record)
    requires Line(l) && rec.position == |l[|l| - 1].view|
    ensures Line(BranchStep(l, AppendRecord(rec)))
  {
    var l' := BranchStep(l, AppendRecord(rec));
    var n := |l| - 1;
    assert GrownFrom(l, n);
    assert l'[n].view[..l[n].forkOffset] == l[n].view[..l[n].forkOffset];
    forall r | 0 <= r < |l'| ensures GrownFrom(l', r) {
      if r < n {
        assert GrownFrom(l, r);
      }
    }
  }

  lemma AppendAgrees(j: Journal, l: seq<Branch>, rec: Record)
    requires Agrees(j, l) && rec.position == j.length
    ensures Agrees(Step(j, AppendRecord(rec)), BranchStep(l, AppendRecord(rec)))
  {
    var l' := BranchStep(l, AppendRecord(rec));
    AppendKeepsLine(l, rec);
    forall p: nat ensures At(Step(j, AppendRecord(rec)).history, p) == OwnAt(l', p) {
      AppendRefines(j, l, rec, p);
    }
  }

  lemma AppendRefines(j: Journal, l: seq<Branch>, rec: Record, p: nat)
    requires Agrees(j, l) && rec.position == j.length
    ensures At(Step(j, AppendRecord(rec)).history, p) == OwnAt(BranchStep(l, AppendRecord(rec)), p)
  {
    AtAfterAdd(j.history, rec.(revision := j.revision), p);
    assert At(j.history, p) == OwnAt(l, p);
    OwnAfterAppend(l, rec, p);
  }

  lemma OwnAfterAppend(l: seq<Branch>, rec: Record, p: nat)
    requires Line(l) && rec.position == |l[|l| - 1].view|
    ensures OwnAt(BranchStep(l, AppendRecord(rec)), p)
         == OwnAt(l, p) + if p == rec.position then [rec.(revision := |l|)] else []
  {
    var l' := BranchStep(l, AppendRecord(rec));
    assert GrownFrom(l, |l| - 1);
    assert l'[..|l'| - 1] == l[..|l| - 1];
  }

  lemma ForkAgrees(j: Journal, l: seq<Branch>, offset: nat)
    requires Agrees(j, l) && offset <= j.length
    ensures Agrees(Step(j, ForkAt(offset)), BranchStep(l, ForkAt(offset)))
  {
    var l' := BranchStep(l, ForkAt(offset));
    forall r | 0 <= r < |l'| ensures GrownFrom(l', r) {
      if r < |l| {
        assert GrownFrom(l, r);
      }
    }
    assert l'[..|l|] == l;
    forall p: nat ensures At(j.history, p) == OwnAt(l', p) {
      assert At(j.history, p) == OwnAt(l, p);
    }
  }

  lemma StepAgrees(j: Journal, l: seq<Branch>, op: Op)
    requires Agrees(j, l)
    requires op.ForkAt? ==> op.offset <= j.length
    ensures Agrees(Step(j, op), BranchStep(l, op))
  {
    match op {
      case AppendRecord(rec) => if rec.position == j.length { AppendAgrees(j, l, rec); }
      case ForkAt(offset) => ForkAgrees(j, l, offset);
    }
  }

  /** Forks fit the journal they fork, as every fork offset the runtime uses does. */
  ghost predicate Fits(j: Journal, ops: seq<Op>)
    decreases |ops|
  {
    ops != [] ==>
      && (ops[0].ForkAt? ==> ops[0].offset <= j.length)
      && Fits(Step(j, ops[0]), ops[1..])
  }

  function Steps(j: Journal, ops: seq<Op>): Journal
    decreases |ops|
  {
    if ops == [] then j else Steps(Step(j, ops[0]), ops[1..])
  }

  ghost function BranchSteps(l: seq<Branch>, j: Journal, ops: seq<Op>): seq<Branch>
    requires Agrees(j, l) && Fits(j, ops)
    decreases |ops|
  {
    if ops == [] then l else
      StepAgrees(j, l, ops[0]);
      BranchSteps(BranchStep(l, ops[0]), Step(j, ops[0]), ops[1..])
  }

  /** Every revision is served exactly its own sequence, to exactly its own length. */
  ghost predicate ServesBranches(h: Flat, l: seq<Branch>) {
    && (forall r, p :: 0 <= r < |l| && 0 <= p < |l[r].view| ==> GetAt(h, p, r + 1) == Some(l[r].view[p]))
    && (forall r :: 0 <= r < |l| ==> IsLength(h, r + 1, l[r].forkOffset, |l[r].view|))
  }

  lemma RefinementServes(h: Flat, l: seq<Branch>)
    requires Line(l) && Refines(h, l)
    ensures ServesBranches(h, l)
  {
    forall r, p | 0 <= r < |l| && 0 <= p < |l[r].view| ensures GetAt(h, p, r + 1) == Some(l[r].view[p]) {
      FlatViewIsBranchView(l, r, p);
    }
    forall r | 0 <= r < |l| ensures IsLength(h, r + 1, l[r].forkOffset, |l[r].view|) {
      FlatLengthIsBranchLength(h, l, r);
    }
  }

  /** Later steps freeze every revision but the last, and only extend that one. */
  ghost predicate Extends(l: seq<Branch>, l': seq<Branch>) {
    && 1 <= |l| <= |l'|
    && l[..|l| - 1] == l'[..|l| - 1]
    && l[|l| - 1].view <= l'[|l| - 1].view
  }

  lemma StepExtends(j: Journal, l: seq<Branch>, op: Op)
    requires Agrees(j, l) && (op.ForkAt? ==> op.offset <= j.length)
    ensures Extends(l, BranchStep(l, op))
  {
  }

  lemma ExtendsIsTransitive(l: seq<Branch>, m: seq<Branch>, n: seq<Branch>)
    requires Extends(l, m) && Extends(m, n)
    ensures Extends(l, n)
  {
    assert l[..|l| - 1] == m[..|l| - 1] == m[..|m| - 1][..|l| - 1] == n[..|m| - 1][..|l| - 1] == n[..|l| - 1];
    if |l| < |m| {
      assert m[|l| - 1] == m[..|m| - 1][|l| - 1] == n[..|m| - 1][|l| - 1] == n[|l| - 1];
    }
  }

  /** For any interleaving of appends and forks, the flat history serves every
      revision exactly its own sequence, to exactly its own length, and no later
      append or fork changes an older revision's sequence. */
  lemma {:induction false} FlatHistoryRefinesBranches(j: Journal, l: seq<Branch>, ops: seq<Op>)
    requires Agrees(j, l) && Fits(j, ops)
    ensures Agrees(Steps(j, ops), BranchSteps(l, j, ops))
    ensures ServesBranches(Steps(j, ops).history, BranchSteps(l, j, ops))
    ensures Extends(l, BranchSteps(l, j, ops))
    decreases |ops|
  {
    if ops == [] {
      RefinementServes(j.history, l);
    } else {
      StepAgrees(j, l, ops[0]);
      StepExtends(j, l, ops[0]);
      FlatHistoryRefinesBranches(Step(j, ops[0]), BranchStep(l, ops[0]), ops[1..]);
      ExtendsIsTransitive(l, BranchStep(l, ops[0]), BranchSteps(l, j, ops));
    }
  }

  lemma EmptyAgrees()
    ensures Agrees(EMPTY, [Branch(0, [])])
  {
    assert GrownFrom([Branch(0, [])], 0);
    forall p: nat ensures At(map[], p) == OwnAt([Branch(0, [])], p) {
      assert [Branch(0, [])][..0] == [];
    }
  }

  // ---- Entries conserve the history -------------------------------------

  /** A line whose revisions are well formed and fork at whole calls. */
  ghost predicate SoundLine(l: seq<Branch>) {
    && Line(l)
    && forall r :: 0 <= r < |l| ==> WellFormed(l[r].view) && l[r].forkOffset % 2 == 0
  }

  /** Branch r wrote an intent at a position. */
  predicate OwnsIntent(l: seq<Branch>, r: int, p: nat) {
    0 <= r < |l| && Owns(l[r], p) && p % 2 == 0
  }

  /** The entry of a call in a view: its completion, or in flight at the tail. */
  function CallEntry(v: seq<Record>, revision: nat, p: nat): JournalEntry
    requires WellFormed(v) && p < |v| && p % 2 == 0
  {
    JournalEntry(p, revision, CallAt(v, p / 2), if p + 1 < |v| then Some(ResultAt(v, p / 2)) else None)
  }

  lemma {:induction false} LastOfOwn(l: seq<Branch>, p: nat, r: nat)
    requires Line(l)
    ensures LastOf(OwnAt(l, p), r + 1) == if r < |l| && Owns(l[r], p) then Some(l[r].view[p]) else None
  {
    var written, front := OwnAt(l, p), l[..|l| - 1];
    var last := l[|l| - 1];
    assert GrownFrom(l, |l| - 1);
    if |l| > 1 {
      FrontIsALine(l);
      LastOfOwn(front, p, r);
    }
    if Owns(last, p) {
      assert written[..|written| - 1] == OwnAt(front, p);
    } else {
      assert written == OwnAt(front, p);
    }
  }

  lemma SoundLineIsKept(h: Flat, l: seq<Branch>)
    requires SoundLine(l) && Refines(h, l)
    ensures Ordered(h, |l|) && KindsAlternate(h)
  {
    forall p: nat, i: nat | i < |At(h, p)|
      ensures At(h, p)[i].position == p && At(h, p)[i].revision <= |l| && Sound(At(h, p)[i], p)
      ensures forall j :: 0 <= j < i ==> At(h, p)[j].revision < At(h, p)[i].revision
    {
      assert At(h, p) == OwnAt(l, p);
      OwnRecords(l, p, i);
      assert WellFormed(l[At(h, p)[i].revision - 1].view);
    }
  }

  /** The entry is the one of a call that branch r wrote. */
  ghost predicate IsOwnCall(l: seq<Branch>, e: JournalEntry, r: nat) {
    && OwnsIntent(l, r, e.position)
    && WellFormed(l[r].view)
    && e == CallEntry(l[r].view, r + 1, e.position)
  }

  lemma EntryIsAnOwnCall(h: Flat, l: seq<Branch>, e: JournalEntry)
    requires SoundLine(l) && Refines(h, l) && IsEntry(h, e)
    ensures e.revision > 0 && IsOwnCall(l, e, e.revision - 1)
  {
    var p := e.position;
    var i: nat :| i < |At(h, p)| && IntentAt(h, p, i) && e == EntryOf(h, At(h, p)[i]);
    var rec := At(h, p)[i];
    assert rec == OwnAt(l, p)[i] by { assert At(h, p) == OwnAt(l, p); }
    OwnRecords(l, p, i);
    var r := rec.revision - 1;
    EntryOfOwn(h, l, r, p);
    assert WellFormed(l[r].view);
  }

  lemma OwnCallHasAnEntry(h: Flat, l: seq<Branch>, r: nat, p: nat)
    requires SoundLine(l) && Refines(h, l) && OwnsIntent(l, r, p)
    ensures IsEntry(h, CallEntry(l[r].view, r + 1, p))
  {
    assert At(h, p) == OwnAt(l, p);
    OwnedIsWritten(l, p, r);
    var i: nat :| i < |OwnAt(l, p)| && OwnAt(l, p)[i] == l[r].view[p];
    EntryOfOwn(h, l, r, p);
    assert Sound(l[r].view[p], p);
    assert IntentAt(h, p, i);
  }

  /** Entries conserve the whole history. There is one entry for each intent each
      revision wrote, and it holds the completion that same revision wrote for it, or
      none when it wrote none. */
  lemma EntriesConserveTheHistory(h: Flat, l: seq<Branch>, e: JournalEntry)
    requires SoundLine(l) && Refines(h, l)
    ensures IsEntry(h, e) <==> e.revision > 0 && IsOwnCall(l, e, e.revision - 1)
  {
    if IsEntry(h, e) {
      EntryIsAnOwnCall(h, l, e);
    }
    if e.revision > 0 && IsOwnCall(l, e, e.revision - 1) {
      OwnCallHasAnEntry(h, l, e.revision - 1, e.position);
    }
  }

  lemma EntryOfOwn(h: Flat, l: seq<Branch>, r: nat, p: nat)
    requires SoundLine(l) && Refines(h, l) && r < |l| && Owns(l[r], p)
    ensures GrownFrom(l, r)
    ensures l[r].view[p].kind.Intent? <==> p % 2 == 0
    ensures p % 2 == 0 ==> EntryOf(h, l[r].view[p]) == CallEntry(l[r].view, r + 1, p)
  {
    assert GrownFrom(l, r);
    assert Sound(l[r].view[p], p);
    assert At(h, p + 1) == OwnAt(l, p + 1);
    LastOfOwn(l, p + 1, r);
    if p + 1 < |l[r].view| {
      assert Sound(l[r].view[p + 1], p + 1);
    }
  }

  /** A revision's view, call by call, is exactly its entries: each call's entry is
      the one its writing revision has, and a completion is never another revision's. */
  lemma {:induction false} ViewIsItsEntries(l: seq<Branch>, r: nat, p: nat)
    requires SoundLine(l) && r < |l| && p < |l[r].view| && p % 2 == 0
    ensures var v := l[r].view;
      var writer := v[p].revision;
      && 1 <= writer <= r + 1
      && OwnsIntent(l, writer - 1, p)
      && CallEntry(v, writer, p) == CallEntry(l[writer - 1].view, writer, p)
      && (p + 1 < |v| ==> v[p + 1].revision == writer)
  {
    assert GrownFrom(l, r);
    var b := l[r];
    if p < b.forkOffset {
      assert p + 1 < b.forkOffset;
      assert b.view[p] == b.view[..b.forkOffset][p] == l[r - 1].view[p];
      assert b.view[p + 1] == b.view[..b.forkOffset][p + 1] == l[r - 1].view[p + 1];
      ViewIsItsEntries(l, r - 1, p);
    }
  }
}
