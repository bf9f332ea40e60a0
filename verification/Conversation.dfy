/** The conversation a session's processes read: who spoke in it, what was said, in which
    order, and which labels came along. */
module Conversation {
  import opened Sys
  import opened Flow
  import opened Process
  import opened ProcessInv
  import opened ProcessSafety
  import opened Session
  import opened SessionInv
  import opened SessionSafety
  import opened Endings
  import Provenance

  /** The run's turn: what it was asked, and the answer it published last. Every label its
      calls carried is on it. */
  ghost predicate Spoke(p: Proc, turn: Utterance) {
    && p.mem.status.ProcessCompleted?
    && turn.input == p.id.input && Publishes(ViewOf(p.mem.journal), turn.answer)
    && forall k: nat, l :: Carried(ViewOf(p.mem.journal), k, l) ==> l in turn.labels
  }

  predicate Completes(procs: map<string, Proc>, pid: string) {
    pid in procs && procs[pid].mem.status.ProcessCompleted?
  }

  /** The positions of the completed processes of a list, in order. */
  ghost predicate CompletedAt(procs: map<string, Proc>, ids: seq<string>, positions: seq<nat>) {
    && (forall t :: 0 <= t < |positions| ==> positions[t] < |ids| && Completes(procs, ids[positions[t]]))
    && (forall t, u :: 0 <= t < u < |positions| ==> positions[t] < positions[u])
    && (forall m: nat :: m < |ids| && Completes(procs, ids[m]) ==> m in positions)
  }

  /** The history has one turn for each of them. */
  ghost predicate TurnsAt(procs: map<string, Proc>, ids: seq<string>, positions: seq<nat>, history: seq<Utterance>)
    requires CompletedAt(procs, ids, positions)
  {
    && |history| == |positions|
    && forall t :: 0 <= t < |history| ==>
         history[t] == var p := procs[ids[positions[t]]]; Utterance(p.id.input, p.mem.answer, p.mem.labels)
  }

  lemma {:induction false} HistoryIsTheCompleted(procs: map<string, Proc>, ids: seq<string>)
    returns (positions: seq<nat>)
    ensures CompletedAt(procs, ids, positions) && TurnsAt(procs, ids, positions, HistoryOf(procs, ids))
  {
    if ids == [] {
      positions := [];
    } else {
      var last: nat := |ids| - 1;
      positions := HistoryIsTheCompleted(procs, ids[..last]);
      if Completes(procs, ids[last]) {
        positions := positions + [last];
      }
    }
  }

  /** The turns of a process's conversation are the runs created before it that completed,
      in the order of their creation. */
  ghost predicate SaidBefore(s: Session, pid: string, n: nat, positions: seq<nat>, history: seq<Utterance>) {
    && n < |s.order| && s.order[n] == pid && pid !in s.order[..n]
    && CompletedAt(s.procs, s.order[..n], positions) && |history| == |positions|
    && forall t :: 0 <= t < |history| ==> Spoke(s.procs[s.order[positions[t]]], history[t])
  }

  lemma EarlierIsThePrefix(order: seq<string>, pid: string)
    requires pid in order
    ensures var n := IndexIn(order, pid);
      n < |order| && order[n] == pid && Earlier(order, pid) == order[..n] && pid !in order[..n]
  {
    IndexOfMember(order, pid);
    IndexIsFirst(order, pid);
  }

  lemma {:induction false} IndexIsFirst(ids: seq<string>, pid: string)
    ensures IndexIn(ids, pid) <= |ids| && pid !in ids[..IndexIn(ids, pid)]
  {
    if ids != [] && ids[0] != pid {
      IndexIsFirst(ids[1..], pid);
      var n := IndexIn(ids[1..], pid);
      assert ids[..n + 1] == [ids[0]] + ids[1..][..n];
    }
  }

  lemma CompletedRunSpoke(b: Binding, s: Session, q: string)
    requires Living(b, s) && Completes(s.procs, q) && Saved(s.procs[q])
    ensures var p := s.procs[q]; Spoke(p, Utterance(p.id.input, p.mem.answer, p.mem.labels))
  {
    var p := s.procs[q];
    assert LivesOn(b, s, q);
    AnswersArePublished(b(p.id), State(p, s.closed));
    forall k: nat, l | Carried(ViewOf(p.mem.journal), k, l) ensures l in p.mem.labels {
      Provenance.CompletedRunsKeepTheirLabels(b(p.id), State(p, s.closed), k, l);
    }
  }

  /** What a process reads of its session, at any time of its life, is what was said: one
      turn for each run that was created before it and completed, in the order of creation,
      with that run's own input and the answer it published, and labelled with all it
      carried. */
  lemma ConversationIsWhatWasSaid(b: Binding, run: Chronicle, i: nat, pid: string)
    requires IsChronicle(b, run) && i < |run.states| && pid in run.states[i].procs
    ensures var s := run.states[i];
      exists n: nat, positions :: SaidBefore(s, pid, n, positions, HistoryBefore(s, pid))
  {
    var s := run.states[i];
    EverySessionIsSound(b, run, i);
    EarlierIsThePrefix(s.order, pid);
    var n := IndexIn(s.order, pid);
    var positions := HistoryIsTheCompleted(s.procs, s.order[..n]);
    var history := HistoryBefore(s, pid);
    forall t | 0 <= t < |history| ensures Spoke(s.procs[s.order[positions[t]]], history[t]) {
      var q := s.order[..n][positions[t]];
      assert q in s.order[..n];
      EarlierIsNotLatest(s, pid, q);
      CompletedRunSpoke(b, s, q);
    }
    assert SaidBefore(s, pid, n, positions, history);
  }

  /** And the labels its input carries are exactly those of the turns: none of a run that
      did not complete, and none at all under a manifest that shares no history. */
  lemma InheritedExactly(s: Session, pid: string, l: Label)
    requires pid in s.procs
    ensures l in Inherited(s, pid) <==>
      && s.procs[pid].id.manifest.sharesHistory
      && exists q :: q in Earlier(s.order, pid) && Completes(s.procs, q) && l in s.procs[q].mem.labels
  {
    LabelsOfTheCompleted(s.procs, Earlier(s.order, pid), l);
  }

  lemma {:induction false} LabelsOfTheCompleted(procs: map<string, Proc>, ids: seq<string>, l: Label)
    ensures l in HistoryLabels(HistoryOf(procs, ids)) <==>
      exists q :: q in ids && Completes(procs, q) && l in procs[q].mem.labels
  {
    if ids != [] {
      var last, front := ids[|ids| - 1], ids[..|ids| - 1];
      LabelsOfTheCompleted(procs, front, l);
      assert ids == front + [last];
      if Completes(procs, last) {
        var before := HistoryOf(procs, front);
        var turn := Utterance(procs[last].id.input, procs[last].mem.answer, procs[last].mem.labels);
        assert (before + [turn])[..|before|] == before;
      }
    }
  }
}
