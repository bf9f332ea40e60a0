/** One revision's journal over the session's event stream: the store a tape
    reads and writes, its structure check, and its open-section scan. */
module Journal {
  import opened Sys
  import opened Journaled
  import opened Durable
  import opened History

  /** The append-only event store. It accepts a number of appends and then refuses
      every one, as a store does once its host has died. */
  class EventLog {
    var events: seq<Event>
    var room: nat

    constructor (room: nat)
      ensures events == [] && this.room == room
    {
      events, this.room := [], room;
    }

    method Append(event: Event) returns (ok: bool)
      modifies this
      ensures ok == (old(room) > 0)
      ensures events == if ok then old(events) + [event] else old(events)
      ensures room == if ok then old(room) - 1 else 0
    {
      ok := room > 0;
      if ok {
        events := events + [event];
        room := room - 1;
      }
    }
  }

  /** A revision's view of its process's history. Positions below the fork offset
      hold an earlier revision's records, and the rest hold its own. */
  class LogJournal {
    const log: EventLog
    const process: string
    const revision: nat
    const history: ProcessHistory
    ghost const forkOffset: nat
    var length: nat

    constructor (
      log: EventLog, process: string, revision: nat, history: ProcessHistory, length: nat, ghost forkOffset: nat)
      ensures this.log == log && this.process == process && this.revision == revision
      ensures this.history == history && this.length == length && this.forkOffset == forkOffset
    {
      this.log, this.process, this.revision := log, process, revision;
      this.history, this.length, this.forkOffset := history, length, forkOffset;
    }

    ghost predicate Readable()
      reads this, history
    {
      Complete(history.byPos, revision, length)
    }

    ghost function Records(): seq<Record>
      reads this, history
      requires Readable()
    {
      View(history.byPos, revision, length)
    }

    ghost predicate Valid()
      reads this, history
    {
      Placed(history.byPos, revision, forkOffset, length)
    }

    method Load(index: nat) returns (rec: Option<Record>)
      ensures rec == if index < length then GetAt(history.byPos, index, revision) else None
    {
      rec := None;
      if index < length {
        rec := history.Lookup(index, revision);
      }
    }

    /** Refuses a record that is not for the tail. Otherwise stamps it with the
        revision, logs it, and only then admits it. */
    method Append(rec: Record) returns (ok: bool)
      modifies this, log, history
      ensures ok <==> rec.position == old(length) && old(log.room) > 0
      ensures !ok ==> length == old(length) && history.byPos == old(history.byPos) && log.events == old(log.events)
      ensures ok ==> length == old(length) + 1
      ensures ok ==> history.byPos == Add(old(history.byPos), rec.(revision := revision))
      ensures ok ==> log.events == old(log.events) + [Event(process, SyscallRecorded(rec.(revision := revision)))]
      ensures log.room == if rec.position == old(length) && old(log.room) > 0 then old(log.room) - 1 else old(log.room)
      ensures old(Valid()) && Sound(rec, old(length)) && ok ==>
        Valid() && Records() == old(Records()) + [rec.(revision := revision)]
    {
      if rec.position != length {
        return false;
      }
      var stored := rec.(revision := revision);
      ok := log.Append(Event(process, SyscallRecorded(stored)));
      if ok {
        ghost var before := history.byPos;
        history.Admit(stored);
        length := length + 1;
        if Placed(before, revision, forkOffset, length - 1) && Sound(rec, length - 1) {
          AppendExtendsTheView(before, revision, forkOffset, length - 1, stored);
        }
      }
    }

    /** Load of a verified journal. */
    method LoadSound(index: nat) returns (rec: Record)
      requires Readable() && WellFormed(Records()) && index < length
      ensures rec == Records()[index] && Sound(rec, index)
    {
      var loaded := Load(index);
      rec := loaded.value;
    }

    /** Scans the completed calls for the outermost begin that no commit closed. */
    method FindOpenBegin() returns (forkAt: nat, open: bool)
      requires Readable() && WellFormed(Records())
      ensures open == OutermostOpenBegin(Records()).Some?
      ensures open ==> forkAt == OutermostOpenBegin(Records()).value
      ensures open <==> InSection(Records())
      ensures open ==> BodyStartsAt(Records(), forkAt)
    {
      ghost var v := Records();
      var depth, i := 0, 0;
      forkAt := 0;
      while i + 1 < length
        invariant i % 2 == 0 && i <= 2 * Completed(v) && length == |v|
        invariant depth == Depth(v, i / 2) && forkAt == ForkPoint(v, i / 2)
        decreases length - i
      {
        var intent := LoadSound(i);
        assert CallAt(v, i / 2) == intent.syscall.value;
        match intent.syscall.value.name {
          case SysBegin =>
            if depth == 0 {
              forkAt := i + 2;
            }
            depth := depth + 1;
          case SysCommit =>
            if depth > 0 {
              depth := depth - 1;
            }
          case _ =>
        }
        i := i + 2;
      }
      open := depth > 0;
      ScanFindsTheSection(v);
    }
  }

  // ---- Structure check --------------------------------------------------

  datatype Verdict = Intact | Corrupt(position: nat) | Unreadable(position: nat)

  datatype Wanted = WantIntent | WantCompletion

  /** What a journal serves at an index, and whether it belongs there. */
  ghost predicate SoundAt(h: Flat, revision: nat, i: nat) {
    GetAt(h, i, revision).Some? && Sound(GetAt(h, i, revision).value, i)
  }

  lemma IntactIffAllSound(h: Flat, revision: nat, n: nat)
    ensures (Complete(h, revision, n) && WellFormed(View(h, revision, n)))
       <==> forall i :: 0 <= i < n ==> SoundAt(h, revision, i)
  {
    if Complete(h, revision, n) && WellFormed(View(h, revision, n)) {
      forall i | 0 <= i < n ensures SoundAt(h, revision, i) {
        assert Sound(View(h, revision, n)[i], i);
      }
    }
    if forall i :: 0 <= i < n ==> SoundAt(h, revision, i) {
      forall i | 0 <= i < n ensures GetAt(h, i, revision).Some? {
        assert SoundAt(h, revision, i);
      }
      assert Complete(h, revision, n);
      forall i | 0 <= i < n ensures Sound(View(h, revision, n)[i], i) {
        assert SoundAt(h, revision, i);
      }
    }
  }

  /** Verify accepts a journal if and only if every record loads, in its position
      and of the kind that belongs there, and it names the first damage. */
  method Verify(journal: LogJournal) returns (verdict: Verdict)
    ensures verdict.Intact? <==> journal.Readable() && WellFormed(journal.Records())
    ensures !verdict.Intact? ==>
      && verdict.position < journal.length
      && (forall i :: 0 <= i < verdict.position ==> SoundAt(journal.history.byPos, journal.revision, i))
      && !SoundAt(journal.history.byPos, journal.revision, verdict.position)
    ensures verdict.Unreadable? ==> GetAt(journal.history.byPos, verdict.position, journal.revision).None?
    ensures verdict.Corrupt? ==> GetAt(journal.history.byPos, verdict.position, journal.revision).Some?
  {
    IntactIffAllSound(journal.history.byPos, journal.revision, journal.length);
    var wanted := WantIntent;
    for position := 0 to journal.length
      invariant wanted == if position % 2 == 0 then WantIntent else WantCompletion
      invariant forall i :: 0 <= i < position ==> SoundAt(journal.history.byPos, journal.revision, i)
    {
      var rec := journal.Load(position);
      ghost var intact := SoundAt(journal.history.byPos, journal.revision, position);
      if rec.None? {
        return Unreadable(position);
      }
      if rec.value.position != position {
        return Corrupt(position);
      }
      match wanted {
        case WantIntent =>
          if !rec.value.kind.Intent? || rec.value.syscall.None? {
            return Corrupt(position);
          }
          wanted := WantCompletion;
        case WantCompletion =>
          if !rec.value.kind.Completion? || rec.value.result.None? {
            return Corrupt(position);
          }
          wanted := WantIntent;
      }
    }
    verdict := Intact;
  }
}
