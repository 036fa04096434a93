/**
  Completion is written by public id alone. Exactly when a sweep that holds a copy can end a session before its own
  deadline, and exactly when it can turn "superseded" into "completed".
*/
module SessionCompletions {
  import opened Wrappers
  import opened SessionModel
  import opened SessionProtocol
  import opened SessionInvariants
  import opened SessionTheorems

  /** Sweep `a` is about to act on a due copy of session `id` that it will complete, whatever story it loads. */
  predicate HoldsDueCopy(s: State, a: Actor, id: nat) {
    var pc := At(s, a);
    && pc.Working? && pc.now.Some? && pc.todo != [] && pc.todo[0].id == id && id < |s.rows|
    && Due(pc.now, pc.todo[0]) && pc.todo[0].row.next != NextScene
  }

  /** Everyone else may do anything; `a` stays where it is. */
  predicate LeavesAlone(labels: seq<Label>, a: Actor) {
    forall k :: 0 <= k < |labels| ==> ActorOf(labels[k]) != Some(a)
  }

  /** The write of `a`, whatever it loads and whenever it reads the clock. */
  predicate IsWrite(s: State, a: Actor, l: Label) {
    l.Advance? && l.a == a && l.stamp <= s.clock
  }

  predicate Completes(s: State, l: Label, id: nat) {
    id < |s.rows| && id < |Apply(s, l).rows| && Apply(s, l).rows[id].status == Completed
  }

  predicate EndsEarly(s: State, l: Label, id: nat) {
    Completes(s, l, id) && s.rows[id].status == Active && s.clock < Deadline(s.rows[id])
  }

  predicate OverwritesSuperseded(s: State, l: Label, id: nat) {
    Completes(s, l, id) && s.rows[id].status == Superseded
  }

  lemma {:induction false} StaysPut(s: State, labels: seq<Label>, a: Actor)
    requires LeavesAlone(labels, a)
    ensures At(Run(s, labels), a) == At(s, a)
    decreases |labels|
  {
    hide Apply, ActorOf;
    if labels != [] {
      OthersStay(s, labels[0], a);
      assert forall k :: 0 <= k < |labels[1..]| ==> labels[1..][k] == labels[k + 1];
      StaysPut(Apply(s, labels[0]), labels[1..], a);
    }
  }

  /** Wherever `a` still holds the copy, its write completes the session, whatever the row has become. */
  lemma WriteCompletes(s: State, a: Actor, id: nat, l: Label)
    requires HoldsDueCopy(s, a, id) && IsWrite(s, a, l)
    ensures Completes(s, l, id)
  {
    var snap := At(s, a).todo[0];
    assert Decide(snap.row, l.graph, l.unsubscribed) == Finish;
    assert Apply(s, l) == DoAdvance(s, a, l.graph, l.unsubscribed, l.stamp);
    assert Apply(s, l).rows == CompleteRow(s.rows, id);
  }

  /** An actor that has never acted. */
  lemma {:induction false} SomeoneElse(actors: set<Actor>) returns (b: Actor)
    ensures forall x :: x in actors ==> x < b
    decreases |actors|
  {
    if forall x :: x !in actors {
      b := 0;
    } else {
      var x :| x in actors;
      var c := SomeoneElse(actors - {x});
      b := if x < c then c else x + 1;
      forall y | y in actors
        ensures y < b
      {
        assert y == x || y in actors - {x};
      }
    }
  }

  lemma TwoLabels(s: State, l: Label, m: Label)
    ensures Run(s, [l, m]) == Apply(Apply(s, l), m)
  {
    hide Apply;
    assert [l, m][1..] == [m] && [m][1..] == [];
    assert Run(s, [l, m]) == Run(Apply(s, l), [m]);
  }

  lemma ThreeLabels(s: State, l: Label, m: Label, n: Label)
    ensures Run(s, [l, m, n]) == Apply(Apply(Apply(s, l), m), n)
  {
    hide Apply;
    assert [l, m, n][1..] == [m, n];
    TwoLabels(Apply(s, l), m, n);
  }

  // ---------- Ending a session early ----------

  const IN_AN_HOUR := Enactment(true, [Some(Trigger(Some(Action(MarkComplete, Some(When(Some(Timeframe(1, "hour"))))))))])

  /** A story with one more enactment behind the session's own, which waits for an hour. */
  function OneMore(r: Row): Graph {
    seq(r.storylineIdx + 1, i => seq(r.idx + 2, j => IN_AN_HOUR))
  }

  lemma ClaimsOneMore(r: Row)
    requires r.next == NextScene
    ensures Decide(r, Some(OneMore(r)), false) == ClaimTo(r.idx + 1, 3600, MarkComplete)
  {
    assert OneMore(r)[r.storylineIdx][r.idx + 1] == IN_AN_HOUR;
    assert OnSentWait(IN_AN_HOUR) == (3600, MarkComplete);
  }

  /** Meanwhile a click moves the session on, to an enactment that has an hour to go. */
  lemma MovedOn(s: State, a: Actor, id: nat) returns (labels: seq<Label>)
    requires HoldsDueCopy(s, a, id) && s.rows[id].status == Active
    ensures LeavesAlone(labels, a)
    ensures var t := Run(s, labels); id < |t.rows| && t.rows[id].status == Active && t.clock < Deadline(t.rows[id])
  {
    var b := SomeoneElse(s.pcs.Keys);
    var copy := s.rows[id].(next := NextScene);
    var l, m := Click(b, id, NextScene), Advance(b, Some(OneMore(copy)), false, s.clock);
    labels := [l, m];
    ClaimsOneMore(copy);
    TwoLabels(s, l, m);
    var s1 := Apply(s, l);
    assert s1 == Goto(s, b, Working(None, [Snap(id, copy)]));
    assert Apply(s1, m).rows[id] == s.rows[id].(idx := copy.idx + 1, sentAt := s.clock, wait := 3600, next := MarkComplete);
  }

  /**
    A sweep that holds a due copy it will complete can end the session before the session's own deadline, in some
    schedule of everybody else, if and only if the session is still active.
  */
  lemma EndsEarlyIff(s: State, a: Actor, id: nat)
    requires HoldsDueCopy(s, a, id)
    ensures (exists labels, l :: LeavesAlone(labels, a) && IsWrite(Run(s, labels), a, l) && EndsEarly(Run(s, labels), l, id))
      <==> s.rows[id].status == Active
  {
    if s.rows[id].status == Active {
      var labels := MovedOn(s, a, id);
      var t := Run(s, labels);
      var l := Advance(a, None, false, t.clock);
      StaysPut(s, labels, a);
      WriteCompletes(t, a, id, l);
      assert LeavesAlone(labels, a) && IsWrite(t, a, l) && EndsEarly(t, l, id);
    } else {
      forall labels, l | LeavesAlone(labels, a)
        ensures !EndsEarly(Run(s, labels), l, id)
      {
        EndedStaysEnded(s, labels, id);
      }
    }
  }

  // ---------- Overwriting "superseded" ----------

  lemma CompletedStaysCompleted(s: State, l: Label, id: nat)
    requires id < |s.rows| && s.rows[id].status == Completed
    ensures id < |Apply(s, l).rows| && Apply(s, l).rows[id].status == Completed
  {
  }

  lemma {:induction false} CompletedForGood(s: State, labels: seq<Label>, id: nat)
    requires id < |s.rows| && s.rows[id].status == Completed
    ensures id < |Run(s, labels).rows| && Run(s, labels).rows[id].status == Completed
    decreases |labels|
  {
    hide Apply;
    if labels != [] {
      CompletedStaysCompleted(s, labels[0], id);
      CompletedForGood(Apply(s, labels[0]), labels[1..], id);
    }
  }

  /** Meanwhile another start of the pair supersedes the session. */
  lemma Overtaken(s: State, a: Actor, id: nat) returns (labels: seq<Label>)
    requires HoldsDueCopy(s, a, id) && s.rows[id].status == Active
    ensures LeavesAlone(labels, a)
    ensures var t := Run(s, labels); id < |t.rows| && t.rows[id].status == Superseded
  {
    var b := SomeoneElse(s.pcs.Keys);
    var r := s.rows[id];
    var l := Insert(b, r.user, r.story, r.storyId, IN_AN_HOUR, "", s.clock);
    labels := [l, BeginSupersede(b), SupersedeOne(b, id)];
    ThreeLabels(s, l, BeginSupersede(b), SupersedeOne(b, id));
    var s1 := Apply(s, l);
    assert |s1.rows| == |s.rows| + 1 && s1.rows[id] == r && At(s1, b) == Inserted(|s.rows|);
    var s2 := Apply(s1, BeginSupersede(b));
    assert s2.rows == s1.rows && At(s2, b) == Superseding(|s.rows|, |s1.rows|, {});
  }

  /**
    Such a sweep can turn "superseded" into "completed", in some schedule of everybody else, if and only if the session
    is not completed yet.
  */
  lemma OverwritesSupersededIff(s: State, a: Actor, id: nat)
    requires HoldsDueCopy(s, a, id)
    ensures (exists labels, l ::
               LeavesAlone(labels, a) && IsWrite(Run(s, labels), a, l) && OverwritesSuperseded(Run(s, labels), l, id))
      <==> s.rows[id].status != Completed
  {
    if s.rows[id].status != Completed {
      var labels: seq<Label> := [];
      if s.rows[id].status == Active {
        labels := Overtaken(s, a, id);
      }
      var t := Run(s, labels);
      var l := Advance(a, None, false, t.clock);
      StaysPut(s, labels, a);
      WriteCompletes(t, a, id, l);
      assert LeavesAlone(labels, a) && IsWrite(t, a, l) && OverwritesSuperseded(t, l, id);
    } else {
      forall labels, l | LeavesAlone(labels, a)
        ensures !OverwritesSuperseded(Run(s, labels), l, id)
      {
        CompletedForGood(s, labels, id);
      }
    }
  }

  // ---------- From the beginning ----------

  lemma {:induction false} RunAppend(s: State, a: seq<Label>, b: seq<Label>)
    ensures Run(s, a + b) == Run(Run(s, a), b)
    decreases |a|
  {
    hide Apply;
    if a == [] {
      assert a + b == b;
    } else {
      assert (a + b)[1..] == a[1..] + b;
      RunAppend(Apply(s, a[0]), a[1..], b);
    }
  }

  /** A run of the protocol in which a sweep ends a session before its deadline. */
  lemma StaleSweepCompletesEarly()
    ensures exists labels: seq<Label>, a: Actor, l: Label, id: nat ::
      HoldsDueCopy(Run(INIT, labels), a, id) && IsWrite(Run(INIT, labels), a, l) && EndsEarly(Run(INIT, labels), l, id)
  {
    var r := SweepHoldsCopy();
    var s := Run(INIT, r);
    hide Run;
    EndsEarlyIff(s, 1, 0);
    var more, l :| LeavesAlone(more, 1) && IsWrite(Run(s, more), 1, l) && EndsEarly(Run(s, more), l, 0);
    RunAppend(INIT, r, more);
    StaysPut(s, more, 1);
    var t := Run(INIT, r + more);
    assert HoldsDueCopy(t, 1, 0) && IsWrite(t, 1, l) && EndsEarly(t, l, 0);
  }

  /** A run of the protocol in which a sweep overwrites "superseded" with "completed". */
  lemma StaleSweepCompletesSuperseded()
    ensures exists labels: seq<Label>, a: Actor, l: Label, id: nat ::
      HoldsDueCopy(Run(INIT, labels), a, id) && IsWrite(Run(INIT, labels), a, l) && OverwritesSuperseded(Run(INIT, labels), l, id)
  {
    var r := SweepHoldsCopy();
    var s := Run(INIT, r);
    hide Run;
    OverwritesSupersededIff(s, 1, 0);
    var more, l :| LeavesAlone(more, 1) && IsWrite(Run(s, more), 1, l) && OverwritesSuperseded(Run(s, more), l, 0);
    RunAppend(INIT, r, more);
    StaysPut(s, more, 1);
    var t := Run(INIT, r + more);
    assert HoldsDueCopy(t, 1, 0) && IsWrite(t, 1, l) && OverwritesSuperseded(t, l, 0);
  }
}
