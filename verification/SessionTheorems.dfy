/**
  The guarantees of the story-session protocol, for every run: any interleaving of starts, sweeps, ticks,
  clicks, failed writes and crashes, of any length. The last section shows, by concrete runs, what the
  protocol does NOT guarantee, and under which condition it would.
*/
module SessionTheorems {
  import opened Wrappers
  import opened SessionModel
  import opened SessionProtocol
  import opened SessionInvariants

  ghost predicate Inv(s: State) {
    && InvCopies(s) && InvClaims(s) && InvSends(s) && InvClaimed(s) && InvClock(s) && InvNeverEarly(s)
    && InvScan(s) && InvSettled(s) && InvOpen(s) && InvKills(s) && InvKeys(s) && InvOwners(s) && InvNextSend(s)
  }

  lemma KeepInv(s: State, l: Label)
    requires Inv(s)
    ensures Inv(Apply(s, l))
  {
    KeepCopies(s, l);
    KeepClaims(s, l);
    KeepSends(s, l);
    KeepClaimed(s, l);
    KeepClock(s, l);
    KeepNeverEarly(s, l);
    KeepScan(s, l);
    KeepSettled(s, l);
    KeepOpen(s, l);
    KeepKills(s, l);
    KeepKeys(s, l);
    KeepNextSend(s, l);
    KeepOwners(s, l);
  }

  lemma {:induction false} RunInv(s: State, labels: seq<Label>)
    requires Inv(s)
    ensures Inv(Run(s, labels))
    decreases |labels|
  {
    if labels != [] {
      KeepInv(s, labels[0]);
      RunInv(Apply(s, labels[0]), labels[1..]);
    }
  }

  // ---------- Claims and emails ----------

  lemma {:induction false} ClaimedForHas(claims: seq<Claim>, id: nat, k: nat)
    requires k < |claims| && claims[k].id == id
    ensures claims[k].idx in ClaimedFor(claims, id)
  {
    var n := |claims| - 1;
    if k < n {
      ClaimedForHas(claims[..n], id, k);
    } else {
      assert ClaimedFor(claims, id) == ClaimedFor(claims[..n], id) + [claims[k].idx];
    }
  }

  /** Claims of one row whose indices run 1, 2, 3, ... cannot repeat an index. */
  lemma {:induction false} OrderedClaimsDiffer(claims: seq<Claim>, id: nat, n: nat, j: nat, k: nat)
    requires ClaimedFor(claims, id) == UpTo(n)
    requires j < k < |claims| && claims[j].id == claims[k].id == id
    ensures claims[j].idx != claims[k].idx
    decreases |claims|
  {
    var m := |claims| - 1;
    var before := ClaimedFor(claims[..m], id);
    if claims[m].id == id {
      assert before + [claims[m].idx] == UpTo(n);
      assert before == UpTo(n)[..n - 1] == UpTo(n - 1);
      assert claims[m].idx == UpTo(n)[n - 1] == n;
      if k == m {
        ClaimedForHas(claims[..m], id, j);
        assert claims[j].idx in UpTo(n - 1);
      } else {
        OrderedClaimsDiffer(claims[..m], id, n - 1, j, k);
      }
    } else {
      OrderedClaimsDiffer(claims[..m], id, n, j, k);
    }
  }

  /** Each (session, index) is claimed at most once, and a session's claims are 1, 2, ... up to its index, without a gap. */
  lemma ClaimsInOrderExactlyOnce(labels: seq<Label>)
    ensures
      var s := Run(INIT, labels);
      && (forall id :: 0 <= id < |s.rows| ==> ClaimedFor(s.claims, id) == UpTo(s.rows[id].idx))
      && (forall j, k :: 0 <= j < k < |s.claims| ==> s.claims[j].id != s.claims[k].id || s.claims[j].idx != s.claims[k].idx)
  {
    RunInv(INIT, labels);
    var s := Run(INIT, labels);
    forall j, k | 0 <= j < k < |s.claims| && s.claims[j].id == s.claims[k].id
      ensures s.claims[j].idx != s.claims[k].idx
    {
      var id := s.claims[j].id;
      OrderedClaimsDiffer(s.claims, id, s.rows[id].idx, j, k);
    }
  }

  /** At most one email per (session, index); an email for an index above 0 is sent by the very actor that claimed it. */
  lemma EmailsAtMostOnce(labels: seq<Label>)
    ensures
      var s := Run(INIT, labels);
      && (forall j, k :: 0 <= j < k < |s.sends| ==> s.sends[j].id != s.sends[k].id || s.sends[j].idx != s.sends[k].idx)
      && (forall k :: 0 <= k < |s.sends| ==> s.sends[k].id < |s.rows| && s.sends[k].idx <= s.rows[s.sends[k].id].idx)
      && (forall k :: 0 <= k < |s.sends| && s.sends[k].idx > 0 ==>
            Claimed(s.claims, s.sends[k].actor, s.sends[k].id, s.sends[k].idx))
  {
    RunInv(INIT, labels);
    var s := Run(INIT, labels);
    forall k | 0 <= k < |s.sends|
      ensures s.sends[k].id < |s.rows| && s.sends[k].idx <= s.rows[s.sends[k].id].idx
    {
      assert Reached(s.rows, (s.sends[k].id, s.sends[k].idx));
    }
  }

  /** A claim by a sweep happens at or after the row's own deadline, however stale the copy it acted on. */
  lemma SweepClaimsNeverEarly(labels: seq<Label>, k: nat)
    requires k < |Run(INIT, labels).claims| && Run(INIT, labels).claims[k].swept
    ensures Run(INIT, labels).claims[k].deadline <= Run(INIT, labels).claims[k].at
  {
    RunInv(INIT, labels);
  }

  // ---------- One active session per user and story ----------

  /** While an older session of the pair is still active, the newer one's pass over the rows has not finished. */
  lemma OlderActiveMeansUnsettled(labels: seq<Label>, x: nat, y: nat)
    requires x < y < |Run(INIT, labels).rows|
    requires SamePair(Run(INIT, labels).rows[x], Run(INIT, labels).rows[y])
    requires Run(INIT, labels).rows[x].status == Active
    ensures y !in Run(INIT, labels).settled
  {
    RunInv(INIT, labels);
    var s := Run(INIT, labels);
    assert y in s.settled ==> Beaten(s.rows, y, x);
  }

  /** Once every start has finished its pass, at most one session of a pair is active, and it is the last inserted. */
  lemma AtMostOneActive(labels: seq<Label>, x: nat, y: nat)
    requires
      var s := Run(INIT, labels);
      && x < |s.rows| && y < |s.rows| && x != y
      && SamePair(s.rows[x], s.rows[y])
      && s.rows[x].status == Active
      && forall i :: 0 <= i < |s.rows| && SamePair(s.rows[i], s.rows[x]) ==> i in s.settled
    ensures y < x && Run(INIT, labels).rows[y].status != Active
  {
    var s := Run(INIT, labels);
    if x < y {
      OlderActiveMeansUnsettled(labels, x, y);
    } else if s.rows[y].status == Active {
      OlderActiveMeansUnsettled(labels, y, x);
    }
  }

  /** `v` was inserted when no start of its pair was under way, and no start of its pair followed. */
  predicate SoleStart(s: State, v: nat)
    requires |s.open| == |s.rows| && v < |s.rows|
  {
    && (forall i :: 0 <= i < v && SamePair(s.rows[i], s.rows[v]) ==> i !in s.open[v])
    && (forall i :: v < i < |s.rows| ==> !SamePair(s.rows[i], s.rows[v]))
  }

  /** A start that overlaps no other one of its pair cannot lose its session. Crashed and failed starts do not overlap. */
  lemma LastStartSurvives(labels: seq<Label>, v: nat)
    requires v < |Run(INIT, labels).rows|
    ensures |Run(INIT, labels).open| == |Run(INIT, labels).rows|
    ensures SoleStart(Run(INIT, labels), v) ==> Run(INIT, labels).rows[v].status != Superseded
  {
    RunInv(INIT, labels);
    var s := Run(INIT, labels);
    if s.rows[v].status == Superseded {
      var k :| 0 <= k < |s.kills| && s.kills[k].victim == v;
      assert KillOk(s, s.kills[k]);
    }
  }

  /** Actor `a` is in a start of the pair of `v` that has not finished its pass, for another row. */
  predicate Threatens(s: State, a: Actor, v: nat)
    requires v < |s.rows|
  {
    var own := Superseder(At(s, a));
    own.Some? && own.value < |s.rows| && own.value != v && SamePair(s.rows[v], s.rows[own.value])
  }

  predicate StartsNothing(labels: seq<Label>) {
    forall k :: 0 <= k < |labels| ==> !labels[k].Insert?
  }

  ghost predicate Unthreatened(s: State, v: nat) {
    v < |s.rows| && forall a :: !Threatens(s, a, v)
  }

  lemma KeepUnthreatened(s: State, l: Label, v: nat)
    requires Unthreatened(s, v) && s.rows[v].status != Superseded && !l.Insert?
    ensures Unthreatened(Apply(s, l), v) && Apply(s, l).rows[v].status != Superseded
  {
    var s' := Apply(s, l);
    StepEvolves(s, l);
    assert |s'.rows| == |s.rows|;
    forall a
      ensures !Threatens(s', a, v)
    {
      assert !Threatens(s, a, v);
      NoNewThreat(s, l, a);
      var own := Superseder(At(s', a));
      if own.Some? && own.value < |s.rows| {
        assert RowEvolves(s.rows[own.value], s'.rows[own.value]) && RowEvolves(s.rows[v], s'.rows[v]);
      }
    }
    NotSuperseded(s, l, v);
  }

  lemma NoNewThreat(s: State, l: Label, a: Actor)
    requires !l.Insert?
    ensures Superseder(At(Apply(s, l), a)).Some? ==> Superseder(At(Apply(s, l), a)) == Superseder(At(s, a))
  {
  }

  lemma NotSuperseded(s: State, l: Label, v: nat)
    requires Unthreatened(s, v) && s.rows[v].status != Superseded && v < |Apply(s, l).rows|
    ensures Apply(s, l).rows[v].status != Superseded
  {
    if l.SupersedeOne? {
      assert !Threatens(s, l.a, v);
    }
  }

  lemma {:induction false} UnthreatenedSurvives(s: State, labels: seq<Label>, v: nat)
    requires Unthreatened(s, v) && s.rows[v].status != Superseded && StartsNothing(labels)
    ensures v < |Run(s, labels).rows| && Run(s, labels).rows[v].status != Superseded
    decreases |labels|
  {
    hide Apply;
    if labels != [] {
      KeepUnthreatened(s, labels[0], v);
      assert forall k :: 0 <= k < |labels[1..]| ==> labels[1..][k] == labels[k + 1];
      UnthreatenedSurvives(Apply(s, labels[0]), labels[1..], v);
    }
  }

  lemma ThreatCarriedOut(s: State, a: Actor, v: nat) returns (labels: seq<Label>)
    requires v < |s.rows| && s.rows[v].status == Active && Threatens(s, a, v)
    ensures StartsNothing(labels) && v < |Run(s, labels).rows| && Run(s, labels).rows[v].status == Superseded
  {
    labels := [BeginSupersede(a), SupersedeOne(a, v)];
    var s1 := Apply(s, BeginSupersede(a));
    assert s1.rows == s.rows && At(s1, a).Superseding? && At(s1, a).id == Superseder(At(s, a)).value;
    assert Apply(s1, SupersedeOne(a, v)).rows[v].status == Superseded;
    var last := [SupersedeOne(a, v)];
    assert labels[1..] == last && last[1..] == [];
    assert Run(s, labels) == Run(s1, last) == Run(Apply(s1, SupersedeOne(a, v)), []);
  }

  /**
    From any state, an active session can never again be superseded by the starts already made, in any schedule, if and
    only if no other start of its pair is still before or in its supersede pass.
  */
  lemma SurvivesIff(s: State, v: nat)
    requires v < |s.rows| && s.rows[v].status == Active
    ensures (forall labels :: StartsNothing(labels) ==> v < |Run(s, labels).rows| && Run(s, labels).rows[v].status != Superseded)
      <==> forall a :: !Threatens(s, a, v)
  {
    hide Apply, Run;
    if forall a :: !Threatens(s, a, v) {
      forall labels | StartsNothing(labels)
        ensures v < |Run(s, labels).rows| && Run(s, labels).rows[v].status != Superseded
      {
        UnthreatenedSurvives(s, labels, v);
      }
    } else {
      var a :| Threatens(s, a, v);
      var labels := ThreatCarriedOut(s, a, v);
      assert StartsNothing(labels) && Run(s, labels).rows[v].status == Superseded;
    }
  }

  // ---------- Command keys ----------

  /** The k-th email is the first email of a session started under `key`. */
  predicate FirstEmailOf(s: State, key: string, k: int) {
    && 0 <= k < |s.sends| && s.sends[k].idx == 0
    && s.sends[k].id < |s.rows| && s.rows[s.sends[k].id].key == key
  }

  /**
    All start commands carrying the same nonempty key create at most one session, send its first email at
    most once, and only the actor that inserted it supersedes others on its behalf or sends that email.
  */
  lemma StartsAreIdempotent(labels: seq<Label>, key: string)
    requires key != ""
    ensures
      var s := Run(INIT, labels);
      && (forall i, j :: 0 <= i < |s.rows| && 0 <= j < |s.rows| && s.rows[i].key == key && s.rows[j].key == key ==> i == j)
      && (forall j, k :: FirstEmailOf(s, key, j) && FirstEmailOf(s, key, k) ==> j == k)
  {
    RunInv(INIT, labels);
    var s := Run(INIT, labels);
    forall j, k | FirstEmailOf(s, key, j) && FirstEmailOf(s, key, k)
      ensures j == k
    {
      assert s.sends[j].id == s.sends[k].id;
    }
  }

  lemma OnlyTheInserterActs(labels: seq<Label>)
    ensures
      var s := Run(INIT, labels);
      && |s.creators| == |s.rows|
      && (forall k :: 0 <= k < |s.sends| && s.sends[k].idx == 0 ==>
            s.sends[k].id < |s.rows| && s.creators[s.sends[k].id] == s.sends[k].actor)
      && (forall k :: 0 <= k < |s.kills| ==>
            s.kills[k].killer < |s.rows| && s.creators[s.kills[k].killer] == s.kills[k].actor)
  {
    RunInv(INIT, labels);
  }

  /** A replayed command key changes nothing at all. */
  lemma ReplayIsInert(s: State, l: Label)
    requires l.Insert? && l.key != "" && KeyTaken(s.rows, l.key)
    ensures Apply(s, l) == s
  {
    assert InsertRefused(s.rows, l.key);
  }

  // ---------- Runs of one session are finite ----------

  lemma {:induction false} RunEvolves(s: State, labels: seq<Label>)
    ensures Evolves(s.rows, Run(s, labels).rows)
    decreases |labels|
  {
    if labels != [] {
      StepEvolves(s, labels[0]);
      RunEvolves(Apply(s, labels[0]), labels[1..]);
      EvolvesTransitive(s.rows, Apply(s, labels[0]).rows, Run(s, labels).rows);
    }
  }

  /** From any state on, a session that is not active never becomes active and never advances again. */
  lemma EndedStaysEnded(s: State, labels: seq<Label>, id: nat)
    requires id < |s.rows| && s.rows[id].status != Active
    ensures
      var s' := Run(s, labels);
      && id < |s'.rows|
      && s'.rows[id].status != Active
      && s'.rows[id].idx == s.rows[id].idx
  {
    RunEvolves(s, labels);
    assert RowEvolves(s.rows[id], Run(s, labels).rows[id]);
  }

  lemma {:induction false} RunBound(s: State, labels: seq<Label>, bound: nat)
    requires InvBound(s, bound) && bound > 0
    requires forall k :: 0 <= k < |labels| ==> GraphBounded(labels[k], bound)
    ensures InvBound(Run(s, labels), bound)
    decreases |labels|
  {
    if labels != [] {
      KeepBound(s, labels[0], bound);
      assert forall k :: 0 <= k < |labels[1..]| ==> labels[1..][k] == labels[k + 1];
      RunBound(Apply(s, labels[0]), labels[1..], bound);
    }
  }

  /** With at most `bound` enactments per storyline, a session is claimed at most bound - 1 times. */
  lemma ClaimsAreBounded(labels: seq<Label>, bound: nat, id: nat)
    requires bound > 0
    requires forall k :: 0 <= k < |labels| ==> GraphBounded(labels[k], bound)
    requires id < |Run(INIT, labels).rows|
    ensures |ClaimedFor(Run(INIT, labels).claims, id)| <= bound - 1
  {
    RunInv(INIT, labels);
    RunBound(INIT, labels, bound);
  }

  // ---------- Repeated sweeps end a session ----------

  /** Enactments a session has not reached yet. */
  function Remaining(r: Row, graph: Graph): nat {
    if r.storylineIdx < |graph| && r.idx < |graph[r.storylineIdx]| then |graph[r.storylineIdx]| - r.idx else 0
  }

  function Passes(r: Row, env: Env, times: seq<(int, int)>): Row
    decreases |times|
  {
    if times == [] then r else Passes(PassRow(r, env, times[0].0, times[0].1), env, times[1..])
  }

  /** Every pass finds the session expired, unless it has ended. */
  predicate AllExpired(r: Row, env: Env, times: seq<(int, int)>)
    decreases |times|
  {
    times == [] ||
    ((r.status == Active ==> Deadline(r) <= times[0].0) && AllExpired(PassRow(r, env, times[0].0, times[0].1), env, times[1..]))
  }

  /** A pass that finds a session expired completes it or uses up one remaining enactment. */
  lemma ExpiredPassProgresses(r: Row, env: Env, now: int, stamp: int)
    requires r.status == Active && Deadline(r) <= now && env.graphOf(r.storyId).Some?
    ensures
      var r' := PassRow(r, env, now, stamp);
      || r'.status == Completed
      || (r'.status == Active && r'.idx == r.idx + 1
          && Remaining(r', env.graphOf(r.storyId).value) < Remaining(r, env.graphOf(r.storyId).value)
          && Remaining(r', env.graphOf(r.storyId).value) > 0)
  {
  }

  /** As many expired passes as there are enactments left, and at least one, complete the session. */
  lemma {:induction false} ExpiredPassesComplete(r: Row, env: Env, times: seq<(int, int)>)
    requires r.status == Active && env.graphOf(r.storyId).Some? && AllExpired(r, env, times)
    requires |times| >= 1 && |times| >= Remaining(r, env.graphOf(r.storyId).value)
    ensures Passes(r, env, times).status == Completed
    decreases |times|
  {
    var r' := PassRow(r, env, times[0].0, times[0].1);
    ExpiredPassProgresses(r, env, times[0].0, times[0].1);
    if r'.status == Completed {
      EndedPasses(r', env, times[1..]);
    } else {
      ExpiredPassesComplete(r', env, times[1..]);
    }
  }

  lemma {:induction false} EndedPasses(r: Row, env: Env, times: seq<(int, int)>)
    requires r.status != Active
    ensures Passes(r, env, times) == r
    decreases |times|
  {
    if times != [] {
      EndedPasses(r, env, times[1..]);
    }
  }

  // ---------- What is not guaranteed ----------

  lemma {:induction false} RunSnoc(s: State, labels: seq<Label>, l: Label)
    ensures Run(s, labels + [l]) == Apply(Run(s, labels), l)
    decreases |labels|
  {
    if labels == [] {
      assert (labels + [l])[1..] == [];
    } else {
      assert (labels + [l])[1..] == labels[1..] + [l];
      RunSnoc(Apply(s, labels[0]), labels[1..], l);
    }
  }

  lemma Extend(labels: seq<Label>, l: Label) returns (longer: seq<Label>)
    ensures longer == labels + [l] && Run(INIT, longer) == Apply(Run(INIT, labels), l)
  {
    longer := labels + [l];
    RunSnoc(INIT, labels, l);
  }

  predicate NoneLeftActive(s: State) {
    && |s.rows| == 2 && SamePair(s.rows[0], s.rows[1]) && s.settled == {0, 1}
    && s.rows[0].status == Superseded && s.rows[1].status == Superseded
  }

  /** The rows and the program counters of actors 1 and 2, as the runs below need them. */
  predicate Stage(s: State, rows: seq<Row>, pc1: Pc, pc2: Pc) {
    s.rows == rows && At(s, 1) == pc1 && At(s, 2) == pc2 && s.clock == 0
  }

  const GOES_ON := Enactment(true, [Some(Trigger(Some(Action(NextScene, Some(When(None))))))])
  const STARTED := Row("u", "s", 0, 0, 0, 0, 30, NextScene, Active, "")
  const BEATEN := STARTED.(status := Superseded)

  lemma TwoStartsInserted() returns (r: seq<Label>)
    ensures Stage(Run(INIT, r), [STARTED, STARTED], Superseding(0, 2, {}), Superseding(1, 2, {}))
    ensures Run(INIT, r).settled == {}
  {
    r := Extend([], Insert(1, "u", "s", 0, GOES_ON, "", 0));
    assert Stage(Run(INIT, r), [STARTED], Inserted(0), Idle);
    r := Extend(r, Insert(2, "u", "s", 0, GOES_ON, "", 0));
    assert Stage(Run(INIT, r), [STARTED, STARTED], Inserted(0), Inserted(1));
    r := Extend(r, BeginSupersede(1));
    r := Extend(r, BeginSupersede(2));
  }

  lemma EachBeatsTheOther() returns (r: seq<Label>)
    ensures Stage(Run(INIT, r), [BEATEN, BEATEN], Superseding(0, 2, {1}), Superseding(1, 2, {0}))
    ensures Run(INIT, r).settled == {}
  {
    r := TwoStartsInserted();
    r := Extend(r, SupersedeOne(1, 1));
    assert Stage(Run(INIT, r), [STARTED, BEATEN], Superseding(0, 2, {1}), Superseding(1, 2, {}));
    r := Extend(r, SupersedeOne(2, 0));
  }

  lemma BothPassesCovered() returns (r: seq<Label>)
    ensures Stage(Run(INIT, r), [BEATEN, BEATEN], Superseding(0, 2, {0, 1}), Superseding(1, 2, {0, 1}))
    ensures Run(INIT, r).settled == {}
  {
    r := EachBeatsTheOther();
    r := Extend(r, SupersedeOne(1, 0));
    assert Stage(Run(INIT, r), [BEATEN, BEATEN], Superseding(0, 2, {1} + {0}), Superseding(1, 2, {0}));
    r := Extend(r, SupersedeOne(2, 1));
    assert {1} + {0} == {0, 1} && {0} + {1} == {0, 1};
  }

  /** Two starts of one pair whose passes overlap can beat each other: both finish, and no session is active. */
  lemma OverlappingStartsLeaveNoneActive()
    ensures exists labels :: NoneLeftActive(Run(INIT, labels))
  {
    var r := BothPassesCovered();
    r := Extend(r, EndSupersede(1));
    assert Run(INIT, r).settled == {0} && At(Run(INIT, r), 2) == Superseding(1, 2, {0, 1});
    r := Extend(r, EndSupersede(2));
    assert NoneLeftActive(Run(INIT, r));
  }

  const ENDS_AT_ONCE := Enactment(true, [Some(Trigger(Some(Action(MarkComplete, Some(When(Some(Timeframe(0, "seconds"))))))))])
  const READ := Row("u", "s", 0, 0, 0, 0, 0, MarkComplete, Active, "")

  /** A sweep (actor 1) holds a copy of a session whose on-sent action is to complete at once. */
  lemma SweepHoldsCopy() returns (r: seq<Label>)
    ensures Stage(Run(INIT, r), [READ], Working(Some(0), [Snap(0, READ)]), Idle)
  {
    r := Extend([], Insert(2, "u", "s", 0, ENDS_AT_ONCE, "", 0));
    r := Extend(r, Crash(2));
    assert Stage(Run(INIT, r), [READ], Idle, Idle);
    r := Extend(r, BeginRead(1, None));
    assert Stage(Run(INIT, r), [READ], Reading([], None), Idle);
    r := Extend(r, ReadRow(1, 0));
    assert Stage(Run(INIT, r), [READ], Reading([Snap(0, READ)], None), Idle);
    r := Extend(r, EndRead(1));
  }

  /** The guard that is missing: whenever the row still is what the sweep read, acting on it is on time. */
  lemma FreshCopyIsOnTime(labels: seq<Label>, a: Actor)
    requires
      var s := Run(INIT, labels);
      && At(s, a).Working? && At(s, a).now.Some? && At(s, a).todo != []
      && Due(At(s, a).now, At(s, a).todo[0])
      && At(s, a).todo[0].id < |s.rows|
      && ClaimMatches(s.rows, At(s, a).todo[0])
    ensures
      var s := Run(INIT, labels);
      Deadline(s.rows[At(s, a).todo[0].id]) <= s.clock
  {
    RunInv(INIT, labels);
    var s := Run(INIT, labels);
    assert CopiesOk(s.rows, Copies(At(s, a)));
  }

  // ---------- Waits ----------

  /** The length of a unit in seconds. */
  function SecondsIn(unit: string): Option<int> {
    if unit in {"second", "seconds"} then Some(1)
    else if unit in {"minute", "minutes"} then Some(60)
    else if unit in {"hour", "hours"} then Some(3600)
    else if unit in {"day", "days"} then Some(86400)
    else None
  }

  /** A wait of any length is as long as it says exactly if it is not in days: those count as minutes. */
  lemma WaitIsItsLengthIff(t: Timeframe)
    requires SecondsIn(t.unit).Some?
    ensures UnitSeconds(t) == t.amount * SecondsIn(t.unit).value <==> t.unit !in {"day", "days"} || t.amount == 0
    ensures t.unit in {"day", "days"} ==> UnitSeconds(t) == UnitSeconds(Timeframe(t.amount, "minutes"))
  {
  }
}
