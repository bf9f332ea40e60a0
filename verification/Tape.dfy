/** The replay tape over a journal, and the dispatcher that drives it: serve what is
    recorded, else journal the intent, run the call, journal its completion. */
module Tape {
  import opened Sys
  import opened Journaled
  import opened Journal
  import opened Replay

  /** A cursor into the records is at an intent. */
  predicate CursorFits(v: seq<Record>, cursor: nat) {
    cursor < |v| ==> cursor % 2 == 0
  }

  class ReplayTape {
    const journal: LogJournal
    var cursor: nat
    var pending: bool

    constructor (journal: LogJournal)
      ensures this.journal == journal && cursor == 0 && !pending
    {
      this.journal := journal;
      cursor, pending := 0, false;
    }

    ghost predicate Valid()
      reads this, journal, journal.history
    {
      journal.Valid() && CursorFits(journal.Records(), cursor)
    }

    /** Serves the recorded outcome of a call. An intent with no completion becomes
        this quantum's own. */
    method Next(call: Syscall) returns (next: NextOutcome)
      requires Valid()
      modifies this
      ensures next == TapeNext(journal.Records(), old(cursor), call)
      ensures cursor == old(cursor) + (if next.Served? then 2 else if next.Open? then 1 else 0)
      ensures pending == (old(pending) || next.Open?)
      ensures !next.Broken? && Valid()
    {
      if cursor >= journal.length {
        return Fresh;
      }
      var intent := journal.LoadSound(cursor);
      if intent.syscall.value != call {
        return Diverged(cursor, intent.syscall.value);
      }
      if cursor + 1 >= journal.length {
        cursor := cursor + 1;
        pending := true;
        return Open(intent.position);
      }
      var completion := journal.LoadSound(cursor + 1);
      cursor := cursor + 2;
      return Served(completion.result.value);
    }

    /** Journals the intent of a fresh call, and refuses while one is open. */
    method Begin(call: Syscall) returns (ok: bool)
      requires Valid()
      modifies this, journal, journal.log, journal.history
      ensures ok == (!old(pending) && old(journal.log.room) > 0)
      ensures !ok ==>
        && cursor == old(cursor) && pending == old(pending)
        && journal.length == old(journal.length) && journal.history.byPos == old(journal.history.byPos)
        && journal.log.events == old(journal.log.events)
      ensures ok ==>
        && cursor == old(cursor) + 1 && pending
        && journal.length == old(journal.length) + 1
        && old(journal.log.room) == journal.log.room + 1
      ensures ok && !HasOpenIntent(old(journal.Records())) ==>
        && journal.Valid()
        && journal.Records() == old(journal.Records())
           + [IntentRecord(old(journal.length), call).(revision := journal.revision)]
    {
      if pending {
        return false;
      }
      var rec := IntentRecord(journal.length, call);
      ok := journal.Append(rec);
      if ok {
        cursor := cursor + 1;
        pending := true;
      }
    }

    /** Journals the outcome of the open intent. */
    method Commit(result: SyscallResult) returns (ok: bool)
      requires journal.Valid()
      modifies this, journal, journal.log, journal.history
      ensures ok == (old(journal.log.room) > 0) && (!ok ==> journal.log.room == 0)
      ensures !ok ==>
        && cursor == old(cursor) && pending == old(pending)
        && journal.length == old(journal.length) && journal.history.byPos == old(journal.history.byPos)
        && journal.log.events == old(journal.log.events)
      ensures ok ==>
        && cursor == old(cursor) + 1 && !pending
        && journal.length == old(journal.length) + 1
        && old(journal.log.room) == journal.log.room + 1
      ensures ok && HasOpenIntent(old(journal.Records())) ==>
        && journal.Valid()
        && journal.Records() == old(journal.Records())
           + [CompletionRecord(old(journal.length), result).(revision := journal.revision)]
    {
      var rec := CompletionRecord(journal.length, result);
      ok := journal.Append(rec);
      if ok {
        cursor := cursor + 1;
        pending := false;
      }
    }
  }

  /** What the layers below answer when they are asked, or that they fail with the
      outcome unknown. */
  datatype Below = Answers(result: SyscallResult) | Fails

  datatype Outcome = Handed(result: SyscallResult) | Errored

  /** A tape between two calls: either nothing is open, or its own intent is. */
  ghost predicate Settled(tape: ReplayTape)
    reads tape, tape.journal, tape.journal.history
  {
    && tape.Valid()
    && (tape.pending ==> HasOpenIntent(tape.journal.Records()) && tape.cursor == tape.journal.length)
    && (!tape.pending ==> tape.cursor <= tape.journal.length && tape.cursor % 2 == 0)
  }

  /** The second half of a dispatch, with the intent open: run the call, and journal
      its completion before the guest observes it. */
  method Drive(tape: ReplayTape, below: Below) returns (outcome: Outcome)
    requires tape.Valid() && tape.pending
    requires HasOpenIntent(tape.journal.Records()) && tape.cursor == tape.journal.length
    modifies tape, tape.journal, tape.journal.log, tape.journal.history
    ensures Settled(tape)
    ensures var v := old(tape.journal.Records());
      if outcome.Handed? && !outcome.result.status.Yielded? then
        && !tape.pending
        && tape.journal.Records() == v + [CompletionRecord(|v|, outcome.result).(revision := tape.journal.revision)]
      else
        tape.journal.Records() == v && tape.pending
    ensures outcome ==
      if below.Answers? && (below.result.status.Yielded? || old(tape.journal.log.room) > 0)
      then Handed(below.result) else Errored
    ensures outcome.Errored? ==> below.Fails? || tape.journal.log.room == 0
  {
    match below {
      case Fails =>
        outcome := Errored;
      case Answers(result) =>
        if result.status.Yielded? {
          return Handed(result);
        }
        var committed := tape.Commit(result);
        outcome := if committed then Handed(result) else Errored;
    }
  }

  /** The call is sent below: it is open at the tail already, or fresh and journaled. */
  predicate Sends(next: NextOutcome, pending: bool, room: nat) {
    next.Open? || (next.Fresh? && !pending && room > 0)
  }

  /** The records once the call's intent is open at the tail. */
  function WithIntent(v: seq<Record>, next: NextOutcome, call: Syscall, revision: nat): seq<Record> {
    if next.Open? then v else v + [IntentRecord(|v|, call).(revision := revision)]
  }

  /** What the first half of a dispatch does is the ask step of the run machine: the same
      calls are sent below, the same intent is journaled, and a recorded result is handed
      to the guest without writing. */
  lemma OpeningIsAsking(v: seq<Record>, side: Side, call: Syscall, revision: nat, room: nat)
    requires room > 0 && !side.act.Driving?
    ensures var next, t := TapeNext(v, side.cursor, call), Enter(v, side, call, revision);
      && (Sends(next, side.pending, room) <==> t.side.act == Driving(call))
      && (Sends(next, side.pending, room) ==> v + t.written == WithIntent(v, next, call, revision) && t.side.pending)
      && (!Sends(next, side.pending, room) ==> t.written == [] && t.side.pending == side.pending)
      && t.side.seen == if next.Served? then side.seen + [next.result] else side.seen
  {
    assert v + [] == v;
  }

  /** The first half of a dispatch: the recorded outcome, a refusal, or the call's intent
      open at the tail. */
  method OpenCall(tape: ReplayTape, call: Syscall) returns (early: Option<Outcome>)
    requires Settled(tape)
    modifies tape, tape.journal, tape.journal.log, tape.journal.history
    ensures tape.Valid()
    ensures var v := old(tape.journal.Records());
      var next := TapeNext(v, old(tape.cursor), call);
      if Sends(next, old(tape.pending), old(tape.journal.log.room)) then
        && early.None? && tape.pending && tape.cursor == tape.journal.length
        && tape.journal.Records() == WithIntent(v, next, call, tape.journal.revision)
        && HasOpenIntent(tape.journal.Records())
        && tape.journal.Records()[tape.journal.length - 1].syscall == Some(call)
      else
        && early == Some(if next.Served? then Handed(next.result) else Errored)
        && Settled(tape) && tape.journal.Records() == v
  {
    var next := tape.Next(call);
    match next {
      case Served(result) =>
        return Some(Handed(result));
      case Fresh =>
        var begun := tape.Begin(call);
        if !begun {
          return Some(Errored);
        }
      case Open(_) =>
        // Driven again: its effect may have happened before a crash.
      case _ =>
        return Some(Errored);
    }
    early := None;
  }

  /** Dispatch keeps both write-ahead laws. A call reaches the layers below only with
      its intent journaled and open at the tail, and the guest is handed a result from
      below only once its completion is journaled, or if it is a yield. A recorded
      result is served without asking below and without writing. */
  method Dispatch(tape: ReplayTape, call: Syscall, below: Below) returns (outcome: Outcome, asked: bool)
    requires Settled(tape)
    modifies tape, tape.journal, tape.journal.log, tape.journal.history
    ensures Settled(tape)
    ensures var v := old(tape.journal.Records());
      var next := TapeNext(v, old(tape.cursor), call);
      && (asked <==> Sends(next, old(tape.pending), old(tape.journal.log.room)))
      && (!asked ==>
           && tape.journal.Records() == v
           && outcome == if next.Served? then Handed(next.result) else Errored)
      && (asked ==>
           // Journal before execute: one intent, this call's, is open at the tail.
           var w := WithIntent(v, next, call, tape.journal.revision);
           && HasOpenIntent(w) && w[|w| - 1].syscall == Some(call)
           && (outcome.Handed? ==> below == Answers(outcome.result))
           // Journal before observe: a handed result is recorded, unless it is a yield.
           && tape.journal.Records() ==
              if outcome.Handed? && !outcome.result.status.Yielded?
              then w + [CompletionRecord(|w|, outcome.result).(revision := tape.journal.revision)]
              else w)
    // An answer is lost only when the store refuses to record it.
    ensures asked && outcome.Errored? ==> below.Fails? || tape.journal.log.room == 0
  {
    var early := OpenCall(tape, call);
    asked := early.None?;
    if asked {
      outcome := Drive(tape, below);
    } else {
      outcome := early.value;
    }
  }
}
