/** Every record a process ever wrote, in every revision, kept by position in one
    flat map, and the view each revision has of it. */
module History {
  import opened Sys
  import opened Journaled

  type Flat = map<nat, seq<Record>>

  function At(h: Flat, position: nat): seq<Record> {
    if position in h then h[position] else []
  }

  /** A record is kept at its own position. */
  function Add(h: Flat, rec: Record): Flat {
    h[rec.position := At(h, rec.position) + [rec]]
  }

  /** The first record with the highest revision not above the bound. */
  function BestOf(written: seq<Record>, maxRev: nat): Option<Record> {
    if written == [] then None else
      var last := written[|written| - 1];
      var best := BestOf(written[..|written| - 1], maxRev);
      if last.revision <= maxRev && (best.None? || last.revision > best.value.revision) then Some(last) else best
  }

  function GetAt(h: Flat, position: nat, maxRev: nat): Option<Record> {
    BestOf(At(h, position), maxRev)
  }

  /** What BestOf promises: a record of the highest revision not above the bound,
      and none only when there is none. */
  lemma {:induction false} BestIsHighest(written: seq<Record>, maxRev: nat)
    ensures BestOf(written, maxRev).None? <==> forall i :: 0 <= i < |written| ==> written[i].revision > maxRev
    ensures var best := BestOf(written, maxRev); best.Some? ==>
      && best.value in written && best.value.revision <= maxRev
      && forall i :: 0 <= i < |written| && written[i].revision <= maxRev ==> written[i].revision <= best.value.revision
  {
    if written != [] {
      var front := written[..|written| - 1];
      BestIsHighest(front, maxRev);
      forall i | 0 <= i < |front| ensures front[i] == written[i] {}
    }
  }

  /** n is one past the last record the revision wrote, or the fork offset. */
  ghost predicate IsLength(h: Flat, revision: nat, forkOffset: nat, n: nat) {
    && forkOffset <= n
    && (n == forkOffset || WroteAt(h, n - 1, revision))
    && forall position :: n <= position ==> !WroteAt(h, position, revision)
  }

  predicate WroteAt(h: Flat, position: nat, revision: nat) {
    exists i :: 0 <= i < |At(h, position)| && At(h, position)[i].revision == revision
  }

  lemma LengthIsUnique(h: Flat, revision: nat, forkOffset: nat, n: nat, m: nat)
    requires IsLength(h, revision, forkOffset, n) && IsLength(h, revision, forkOffset, m)
    ensures n == m
  {
  }

  /** Every position below n has a record the revision sees. */
  predicate Complete(h: Flat, revision: nat, n: nat) {
    forall i :: 0 <= i < n ==> GetAt(h, i, revision).Some?
  }

  /** A revision's view: what Load serves below the length. */
  function View(h: Flat, revision: nat, n: nat): (v: seq<Record>)
    requires Complete(h, revision, n)
    ensures |v| == n
  {
    seq(n, i requires 0 <= i < n => GetAt(h, i, revision).value)
  }

  /** A history as its process writes it: no record above the current revision,
      each at its own position, and one per revision at a position, in order. */
  ghost predicate Ordered(h: Flat, revision: nat) {
    forall p, i :: 0 <= i < |At(h, p)| ==>
      && At(h, p)[i].position == p
      && At(h, p)[i].revision <= revision
      && forall j :: 0 <= j < i ==> At(h, p)[j].revision < At(h, p)[i].revision
  }

  /** The current revision's place in its history. */
  ghost predicate Placed(h: Flat, revision: nat, forkOffset: nat, n: nat) {
    && Ordered(h, revision)
    && IsLength(h, revision, forkOffset, n)
    && Complete(h, revision, n)
    && WellFormed(View(h, revision, n))
    && forkOffset % 2 == 0
  }

  lemma AtAfterAdd(h: Flat, rec: Record, p: nat)
    ensures At(Add(h, rec), p) == if p == rec.position then At(h, p) + [rec] else At(h, p)
  {
  }

  lemma OwnRecordWins(h: Flat, revision: nat, rec: Record)
    requires rec.revision == revision
    requires forall i :: 0 <= i < |At(h, rec.position)| ==> At(h, rec.position)[i].revision < revision
    ensures GetAt(Add(h, rec), rec.position, revision) == Some(rec)
  {
    var written := At(h, rec.position);
    assert (written + [rec])[..|written|] == written;
    BestIsHighest(written, revision);
  }

  lemma AppendKeepsOrder(h: Flat, revision: nat, rec: Record)
    requires Ordered(h, revision) && rec.revision == revision
    requires !WroteAt(h, rec.position, revision)
    ensures Ordered(Add(h, rec), revision)
    ensures forall i :: 0 <= i < |At(h, rec.position)| ==> At(h, rec.position)[i].revision < revision
  {
    forall i | 0 <= i < |At(h, rec.position)| ensures At(h, rec.position)[i].revision < revision {
      assert At(h, rec.position)[i].revision != revision;
    }
    forall p: nat, i | 0 <= i < |At(Add(h, rec), p)|
      ensures var w := At(Add(h, rec), p);
        && w[i].position == p && w[i].revision <= revision
        && forall j :: 0 <= j < i ==> w[j].revision < w[i].revision
    {
      AtAfterAdd(h, rec, p);
    }
  }

  lemma AppendMovesTheLength(h: Flat, revision: nat, forkOffset: nat, n: nat, rec: Record)
    requires IsLength(h, revision, forkOffset, n)
    requires rec.revision == revision && rec.position == n
    ensures IsLength(Add(h, rec), revision, forkOffset, n + 1)
  {
    var h' := Add(h, rec);
    AtAfterAdd(h, rec, n);
    assert At(h', n)[|At(h, n)|].revision == revision;
    forall p: nat | n + 1 <= p ensures !WroteAt(h', p, revision) {
      AtAfterAdd(h, rec, p);
      assert !WroteAt(h, p, revision);
    }
  }

  lemma ViewAfterAdd(h: Flat, revision: nat, n: nat, rec: Record)
    requires Complete(h, revision, n) && rec.position == n
    requires GetAt(Add(h, rec), n, revision) == Some(rec)
    ensures Complete(Add(h, rec), revision, n + 1)
    ensures View(Add(h, rec), revision, n + 1) == View(h, revision, n) + [rec]
  {
    var h' := Add(h, rec);
    forall i: nat | i < n ensures GetAt(h', i, revision) == GetAt(h, i, revision) {
      AtAfterAdd(h, rec, i);
    }
    assert Complete(h', revision, n);
  }

  /** An append at the length, stamped with the current revision, extends the
      current view by exactly that record. */
  lemma AppendExtendsTheView(h: Flat, revision: nat, forkOffset: nat, n: nat, rec: Record)
    requires Placed(h, revision, forkOffset, n)
    requires rec.revision == revision && Sound(rec, n)
    ensures Placed(Add(h, rec), revision, forkOffset, n + 1)
    ensures View(Add(h, rec), revision, n + 1) == View(h, revision, n) + [rec]
  {
    AppendKeepsOrder(h, revision, rec);
    AppendMovesTheLength(h, revision, forkOffset, n, rec);
    OwnRecordWins(h, revision, rec);
    ViewAfterAdd(h, revision, n, rec);
  }

  /** No append by a later revision changes what an older revision sees. */
  lemma OlderRevisionsSeeNoAppend(h: Flat, rec: Record, older: nat, i: nat)
    requires older < rec.revision
    ensures GetAt(Add(h, rec), i, older) == GetAt(h, i, older)
  {
    if i == rec.position {
      assert At(Add(h, rec), i)[..|At(h, i)|] == At(h, i);
    }
  }

  lemma {:induction false} BestIgnoresHigherBounds(written: seq<Record>, bound: nat, higher: nat)
    requires bound <= higher
    requires forall i :: 0 <= i < |written| ==> written[i].revision <= bound
    ensures BestOf(written, higher) == BestOf(written, bound)
  {
    if written != [] {
      BestIgnoresHigherBounds(written[..|written| - 1], bound, higher);
    }
  }

  /** A fork is a prefix copy, without copying: the new revision sees exactly the
      records below the fork offset, until it writes. */
  lemma ForkSharesThePrefix(h: Flat, revision: nat, forkOffset: nat, n: nat, k: nat)
    requires Placed(h, revision, forkOffset, n) && k <= n && k % 2 == 0
    ensures Placed(h, revision + 1, k, k)
    ensures View(h, revision + 1, k) == View(h, revision, n)[..k]
  {
    var next := revision + 1;
    forall i: nat ensures GetAt(h, i, next) == GetAt(h, i, revision) {
      BestIgnoresHigherBounds(At(h, i), revision, next);
    }
    assert Complete(h, revision, k);
    assert View(h, next, k) == View(h, revision, n)[..k];
    assert IsLength(h, revision + 1, k, k);
  }

  /** A record of a given revision is the one that revision sees at its position. */
  lemma OwnRecordIsSeen(h: Flat, current: nat, p: nat, i: nat)
    requires Ordered(h, current) && i < |At(h, p)|
    ensures GetAt(h, p, At(h, p)[i].revision) == Some(At(h, p)[i])
  {
    var written := At(h, p);
    BestIsHighest(written, written[i].revision);
    var best := BestOf(written, written[i].revision).value;
    var j :| 0 <= j < |written| && written[j] == best;
    assert j == i;
  }

  // ---- Entries ----------------------------------------------------------

  /** An intent folded together with its completion. No outcome means in flight. */
  datatype JournalEntry = JournalEntry(
    position: nat, revision: nat, syscall: Syscall, outcome: Option<SyscallResult>)

  /** Every record is of the kind its position says. */
  ghost predicate KindsAlternate(h: Flat) {
    forall p, i :: 0 <= i < |At(h, p)| ==> Sound(At(h, p)[i], p)
  }

  /** The last record of a revision among those written at a position. */
  function LastOf(written: seq<Record>, revision: nat): Option<Record> {
    if written == [] then None
    else if written[|written| - 1].revision == revision then Some(written[|written| - 1])
    else LastOf(written[..|written| - 1], revision)
  }

  function OutcomeOf(h: Flat, intent: Record): Option<SyscallResult> {
    match LastOf(At(h, intent.position + 1), intent.revision)
    case Some(completion) => completion.result
    case None => None
  }

  function EntryOf(h: Flat, intent: Record): JournalEntry
    requires intent.syscall.Some?
  {
    JournalEntry(intent.position, intent.revision, intent.syscall.value, OutcomeOf(h, intent))
  }

  /** The entry pairs some recorded intent with what its own revision wrote next. */
  ghost predicate IsEntry(h: Flat, e: JournalEntry) {
    EntryAmong(h, e.position, |At(h, e.position)|, e)
  }

  /** The entry is one of the first n records written at a position. */
  ghost predicate EntryAmong(h: Flat, p: nat, n: nat, e: JournalEntry) {
    exists i: nat :: i < n && IntentAt(h, p, i) && e == EntryOf(h, At(h, p)[i])
  }

  predicate IntentAt(h: Flat, p: nat, i: nat) {
    i < |At(h, p)| && At(h, p)[i].kind.Intent? && At(h, p)[i].syscall.Some?
  }

  lemma NextEntryIsNew(h: Flat, revision: nat, p: nat, i: nat)
    requires Ordered(h, revision) && IntentAt(h, p, i)
    ensures var entry := EntryOf(h, At(h, p)[i]);
      && entry.position == p
      && (forall e :: EntryAmong(h, p, i, e) ==> e.position == p && e.revision != entry.revision)
      && (forall e :: EntryAmong(h, p, i + 1, e) <==> EntryAmong(h, p, i, e) || e == entry)
  {
    forall e | EntryAmong(h, p, i, e) ensures e.position == p && e.revision < At(h, p)[i].revision {
      var k: nat :| k < i && IntentAt(h, p, k) && e == EntryOf(h, At(h, p)[k]);
    }
  }

  /** Entries are listed by position, then revision. */
  predicate Before(a: JournalEntry, b: JournalEntry) {
    a.position < b.position || (a.position == b.position && a.revision < b.revision)
  }

  ghost predicate Listed(es: seq<JournalEntry>) {
    forall i, j :: 0 <= i < j < |es| ==> Before(es[i], es[j])
  }

  function Insert(es: seq<JournalEntry>, e: JournalEntry): seq<JournalEntry> {
    if es == [] || Before(e, es[0]) then [e] + es else [es[0]] + Insert(es[1..], e)
  }

  lemma {:induction false} InsertKeepsListed(es: seq<JournalEntry>, e: JournalEntry)
    requires Listed(es)
    requires forall x :: x in es ==> x.position != e.position || x.revision != e.revision
    ensures Listed(Insert(es, e))
    ensures forall x :: x in Insert(es, e) <==> x in es || x == e
  {
    if es != [] && !Before(e, es[0]) {
      InsertKeepsListed(es[1..], e);
      var rest := Insert(es[1..], e);
      assert forall x :: x in es[1..] ==> Before(es[0], x);
      assert Before(es[0], e);
      assert forall x :: x in es <==> x == es[0] || x in es[1..];
    }
  }

  // ---- The mutable history ----------------------------------------------

  class ProcessHistory {
    var byPos: Flat

    constructor ()
      ensures byPos == map[]
    {
      byPos := map[];
    }

    method Admit(rec: Record)
      modifies this
      ensures byPos == Add(old(byPos), rec)
    {
      byPos := byPos[rec.position := At(byPos, rec.position) + [rec]];
    }

    /** Scans what was written at a position, keeping the first record of the
        highest revision not above the bound. */
    method Lookup(position: nat, maxRev: nat) returns (best: Option<Record>)
      ensures best == GetAt(byPos, position, maxRev)
    {
      var written := At(byPos, position);
      best := None;
      for i := 0 to |written|
        invariant best == BestOf(written[..i], maxRev)
      {
        assert written[..i + 1][..i] == written[..i];
        var rec := written[i];
        if rec.revision <= maxRev && (best.None? || rec.revision > best.value.revision) {
          best := Some(rec);
        }
      }
      assert written[..|written|] == written;
    }

    /** Walks the map in no particular order, raising the length past every record
        the revision wrote. */
    method FindLength(revision: nat, forkOffset: nat) returns (n: nat)
      ensures IsLength(byPos, revision, forkOffset, n)
    {
      n := forkOffset;
      var positions := byPos.Keys;
      while positions != {}
        invariant positions <= byPos.Keys
        invariant forkOffset <= n
        invariant n == forkOffset || WroteAt(byPos, n - 1, revision)
        invariant forall p :: p in byPos && p !in positions && n <= p ==> !WroteAt(byPos, p, revision)
        decreases positions
      {
        var position :| position in positions;
        positions := positions - {position};
        var written := byPos[position];
        for i := 0 to |written|
          invariant forkOffset <= n
          invariant n == forkOffset || WroteAt(byPos, n - 1, revision)
          invariant forall p ::
            p in byPos && p !in positions && p != position && n <= p ==> !WroteAt(byPos, p, revision)
          invariant n <= position ==> forall j :: 0 <= j < i ==> written[j].revision != revision
        {
          if written[i].revision == revision && position >= n {
            assert At(byPos, position)[i].revision == revision;
            n := position + 1;
          }
        }
      }
      forall p | n <= p ensures !WroteAt(byPos, p, revision) {
        if p in byPos { assert !WroteAt(byPos, p, revision); }
      }
    }

    /** The outcome an intent's own revision wrote one position later, if any. */
    method FindOutcome(intent: Record) returns (outcome: Option<SyscallResult>)
      ensures outcome == OutcomeOf(byPos, intent)
    {
      outcome := None;
      var following := At(byPos, intent.position + 1);
      for k := 0 to |following|
        invariant outcome == match LastOf(following[..k], intent.revision)
                             case Some(completion) => completion.result
                             case None => None
      {
        assert following[..k + 1][..k] == following[..k];
        if following[k].revision == intent.revision {
          outcome := following[k].result;
        }
      }
      assert following[..|following|] == following;
    }

    /** Lists the intents written at one position. */
    method ListAt(position: nat, listed: seq<JournalEntry>, ghost revision: nat) returns (es: seq<JournalEntry>)
      requires Ordered(byPos, revision) && KindsAlternate(byPos)
      requires Listed(listed) && forall e :: e in listed ==> e.position != position
      ensures Listed(es)
      ensures forall e :: e in es <==> e in listed || EntryAmong(byPos, position, |At(byPos, position)|, e)
    {
      es := listed;
      var written := At(byPos, position);
      for i := 0 to |written|
        invariant Listed(es)
        invariant forall e :: e in es <==> e in listed || EntryAmong(byPos, position, i, e)
      {
        var intent := written[i];
        if intent.kind.Intent? {
          var outcome := FindOutcome(intent);
          NextEntryIsNew(byPos, revision, position, i);
          var entry := JournalEntry(position, intent.revision, intent.syscall.value, outcome);
          InsertKeepsListed(es, entry);
          es := Insert(es, entry);
        } else {
          assert !IntentAt(byPos, position, i);
        }
      }
    }

    /** Pairs every intent of every revision with its completion: each intent has one
        entry, and nothing else does. The map is walked in no particular order, and
        the entries are kept sorted by position, then revision. */
    method Entries(ghost revision: nat) returns (es: seq<JournalEntry>)
      requires Ordered(byPos, revision) && KindsAlternate(byPos)
      ensures Listed(es)
      ensures forall e :: e in es <==> IsEntry(byPos, e)
    {
      es := [];
      var positions := byPos.Keys;
      while positions != {}
        invariant positions <= byPos.Keys
        invariant Listed(es)
        invariant forall e :: e in es <==> e.position in byPos && e.position !in positions && IsEntry(byPos, e)
        decreases positions
      {
        var position :| position in positions;
        positions := positions - {position};
        es := ListAt(position, es, revision);
        assert forall e :: EntryAmong(byPos, position, |At(byPos, position)|, e) ==> e.position == position;
      }
    }
  }
}
