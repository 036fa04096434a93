/**
  What the steps of the session protocol write, row by row, said without the functions that compute it: which sessions an
  advance completes, and which wait and next action a claim leaves behind.
*/
module SessionSteps {
  import opened Wrappers
  import opened SessionModel
  import opened SessionProtocol
  import opened SessionInvariants
  import opened SessionTheorems

  // ---------- One advance ----------

  /** Actor `a` is about to act on a copy that is due. */
  predicate ActsOn(s: State, a: Actor, id: nat) {
    var pc := At(s, a);
    && pc.Working? && pc.todo != [] && pc.todo[0].id == id && id < |s.rows|
    && (pc.now.Some? ==> pc.todo[0].row.sentAt + 1000 * pc.todo[0].row.wait <= pc.now.value)
  }

  /** The copy asks for the next enactment, and the story has one with a message for a user who still wants it. */
  predicate GoesOn(r: Row, graph: Graph, unsubscribed: bool) {
    && r.next == NextScene && r.storylineIdx < |graph| && r.idx + 1 < |graph[r.storylineIdx]|
    && graph[r.storylineIdx][r.idx + 1].hasContent && !unsubscribed
  }

  /** The row is active and still at the index and send time that were read. */
  predicate StillRead(r: Row, read: Row) {
    r.status == Active && r.idx == read.idx && r.sentAt == read.sentAt
  }

  /**
    An attempt on a due copy completes the session unless the copy asks for a next scene and either the story cannot be
    loaded or it goes on; where it goes on, the row is claimed exactly if it still is what was read.
  */
  lemma AdvanceStepIs(s: State, l: Label, id: nat)
    requires l.Advance? && ActsOn(s, l.a, id) && l.stamp <= s.clock
    ensures
      var read, t := At(s, l.a).todo[0].row, Apply(s, l);
      && |t.rows| == |s.rows| && (forall i :: 0 <= i < |s.rows| && i != id ==> t.rows[i] == s.rows[i])
      && if read.next == NextScene && l.graph.None? then t.rows[id] == s.rows[id]
         else if read.next != NextScene || !GoesOn(read, l.graph.value, l.unsubscribed) then
           t.rows[id] == s.rows[id].(status := Completed)
         else if StillRead(s.rows[id], read) then
           && FollowsEnactment(l.graph.value[read.storylineIdx][read.idx + 1], t.rows[id].wait, t.rows[id].next)
           && t.rows[id] == s.rows[id].(idx := read.idx + 1, sentAt := l.stamp, wait := t.rows[id].wait, next := t.rows[id].next)
           && At(t, l.a) == NextSend(At(s, l.a).now, id, read.idx + 1, At(s, l.a).todo[1..])
         else t.rows[id] == s.rows[id]
  {
    if l.graph.Some? && GoesOn(At(s, l.a).todo[0].row, l.graph.value, l.unsubscribed) {
      var read := At(s, l.a).todo[0].row;
      OnSentWaitFollows(l.graph.value[read.storylineIdx][read.idx + 1]);
    }
  }

  /** A sweep leaves a copy alone exactly until its wait is over. */
  lemma SweepSkipsIff(s: State, a: Actor)
    requires At(s, a).Working? && At(s, a).now.Some? && At(s, a).todo != []
    ensures
      var copy := At(s, a).todo[0].row;
      Apply(s, Skip(a)) != s <==> At(s, a).now.value < copy.sentAt + 1000 * copy.wait
  {
    var pc := At(s, a);
    assert |pc.todo[1..]| < |pc.todo|;
  }

  // ---------- Every claim of every run ----------

  /** Row `id` changes from `r` to `r'` by a claim made with this story, this clock and this stamp. */
  predicate Claimed(r: Row, r': Row, graph: Option<Graph>, unsubscribed: bool, stamp: int) {
    && graph.Some? && r.storylineIdx < |graph.value|
    && r'.idx == r.idx + 1 < |graph.value[r.storylineIdx]|
    && graph.value[r.storylineIdx][r'.idx].hasContent && !unsubscribed
    && FollowsEnactment(graph.value[r.storylineIdx][r'.idx], r'.wait, r'.next)
    && r' == r.(idx := r'.idx, sentAt := stamp, wait := r'.wait, next := r'.next)
    && r.status == Active
  }

  /**
    In every run: whenever an advance changes the index of a session to n, the session takes the wait and the next action
    of enactment n of its own storyline, and a sweep does so only once the session's own wait was over.
  */
  lemma ClaimWritesItsEnactment(labels: seq<Label>, l: Label, id: nat)
    requires l.Advance? && id < |Run(INIT, labels).rows|
    requires id < |Apply(Run(INIT, labels), l).rows| && Apply(Run(INIT, labels), l).rows[id].idx != Run(INIT, labels).rows[id].idx
    ensures
      var s := Run(INIT, labels);
      && Claimed(s.rows[id], Apply(s, l).rows[id], l.graph, l.unsubscribed, l.stamp)
      && At(s, l.a).Working?
      && (At(s, l.a).now.Some? ==> s.rows[id].sentAt + 1000 * s.rows[id].wait <= s.clock)
  {
    RunInv(INIT, labels);
    var s := Run(INIT, labels);
    hide Run;
    StepClaims(s, l, id);
  }

  lemma StepClaims(s: State, l: Label, id: nat)
    requires InvCopies(s) && InvClock(s) && l.Advance? && id < |s.rows|
    requires id < |Apply(s, l).rows| && Apply(s, l).rows[id].idx != s.rows[id].idx
    ensures Claimed(s.rows[id], Apply(s, l).rows[id], l.graph, l.unsubscribed, l.stamp)
    ensures At(s, l.a).Working? && (At(s, l.a).now.Some? ==> s.rows[id].sentAt + 1000 * s.rows[id].wait <= s.clock)
  {
    assert ActsOn(s, l.a, id);
    AdvanceStepIs(s, l, id);
    assert CopiesOk(s.rows, Copies(At(s, l.a)));
    assert CopyOk(s.rows, At(s, l.a).todo[0]);
  }

  // ---------- Starts and test ticks ----------

  /** What a start inserts: a session at the first enactment, with that enactment's wait and next action. */
  lemma InsertStepIs(s: State, l: Label)
    requires l.Insert? && At(s, l.a).Idle? && l.stamp <= s.clock
    ensures
      var t := Apply(s, l);
      if l.key != "" && exists i :: 0 <= i < |s.rows| && s.rows[i].key == l.key then t == s
      else
        && |t.rows| == |s.rows| + 1 && t.rows[..|s.rows|] == s.rows
        && IsStarted(t.rows[|s.rows|], l.user, l.story, l.storyId, l.first, l.key, l.stamp)
  {
    OnSentWaitFollows(l.first);
  }

  /** A test tick moves the deadline of a row that has not been claimed since it was read by exactly its seconds. */
  lemma RewindMovesDeadline(s: State, a: Actor)
    requires At(s, a).Rewinding? && At(s, a).todo != [] && At(s, a).todo[0].id < |s.rows|
    requires s.rows[At(s, a).todo[0].id].sentAt == At(s, a).todo[0].row.sentAt
    ensures
      var id, t := At(s, a).todo[0].id, Apply(s, RewindOne(a));
      && t.rows == s.rows[id := s.rows[id].(sentAt := s.rows[id].sentAt - 1000 * At(s, a).seconds)]
      && Deadline(t.rows[id]) == Deadline(s.rows[id]) - 1000 * At(s, a).seconds
  {
  }
}
