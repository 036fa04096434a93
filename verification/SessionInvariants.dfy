/**
  What every single step of the session protocol keeps. Each invariant has one lemma saying that it holds
  initially and is kept by `Apply`, for every label.
*/
module SessionInvariants {
  import opened Wrappers
  import opened SessionModel
  import opened SessionProtocol

  // ---------- How rows may change ----------

  /** A row's pair, story and key are fixed, its index only grows, its wait changes only with its index, and leaving Active is final. */
  predicate RowEvolves(r: Row, r': Row) {
    && SamePair(r, r') && r.key == r'.key && r.storyId == r'.storyId && r.storylineIdx == r'.storylineIdx
    && r.idx <= r'.idx
    && (r.idx == r'.idx ==> r.wait == r'.wait && r.next == r'.next)
    && (r.status != Active ==> r'.status != Active && r.idx == r'.idx)
  }

  predicate Evolves(rows: seq<Row>, rows': seq<Row>) {
    && |rows| <= |rows'|
    && forall i :: 0 <= i < |rows| ==> RowEvolves(rows[i], rows'[i])
  }

  lemma StartEvolves(s: State, l: Label)
    requires l.Insert? || l.SupersedeOne?
    ensures Evolves(s.rows, Apply(s, l).rows)
  {
    hide InsertRefused, UnderWay;
  }

  lemma AdvanceEvolves(s: State, l: Label)
    requires l.Advance?
    ensures Evolves(s.rows, Apply(s, l).rows)
  {
    hide Due, Deadline;
  }

  lemma RewindEvolves(s: State, l: Label)
    requires l.RewindOne?
    ensures Evolves(s.rows, Apply(s, l).rows)
  {
  }

  /** Only four kinds of step write a row. */
  lemma RowsStay(s: State, l: Label)
    requires !l.Insert? && !l.SupersedeOne? && !l.Advance? && !l.RewindOne?
    ensures Apply(s, l).rows == s.rows
  {
  }

  lemma StepEvolves(s: State, l: Label)
    ensures Evolves(s.rows, Apply(s, l).rows)
  {
    hide Apply;
    if l.Insert? || l.SupersedeOne? {
      StartEvolves(s, l);
    } else if l.Advance? {
      AdvanceEvolves(s, l);
    } else if l.RewindOne? {
      RewindEvolves(s, l);
    } else {
      RowsStay(s, l);
    }
  }

  lemma EvolvesTransitive(r1: seq<Row>, r2: seq<Row>, r3: seq<Row>)
    requires Evolves(r1, r2) && Evolves(r2, r3)
    ensures Evolves(r1, r3)
  {
    forall i | 0 <= i < |r1|
      ensures RowEvolves(r1[i], r3[i])
    {
      assert RowEvolves(r1[i], r2[i]) && RowEvolves(r2[i], r3[i]);
    }
  }

  /** Only the acting actor's program counter moves. */
  function ActorOf(l: Label): Option<Actor> {
    match l
    case Tick(_) => None
    case Crash(a) => Some(a)
    case Insert(a, _, _, _, _, _, _) => Some(a)
    case BeginSupersede(a) => Some(a)
    case SupersedeOne(a, _) => Some(a)
    case EndSupersede(a) => Some(a)
    case SupersedeError(a) => Some(a)
    case SendFirst(a, _) => Some(a)
    case BeginRead(a, _) => Some(a)
    case ReadRow(a, _) => Some(a)
    case EndRead(a) => Some(a)
    case RewindOne(a) => Some(a)
    case EndRewind(a) => Some(a)
    case Click(a, _, _) => Some(a)
    case Skip(a) => Some(a)
    case Advance(a, _, _, _) => Some(a)
    case SendNext(a, _) => Some(a)
  }

  lemma OthersStay(s: State, l: Label, b: Actor)
    requires ActorOf(l) != Some(b)
    ensures At(Apply(s, l), b) == At(s, b)
  {
  }

  // ---------- Copies ----------

  function Copies(pc: Pc): seq<Snap> {
    match pc
    case Reading(found, _) => found
    case Rewinding(_, todo) => todo
    case Working(_, todo) => todo
    case NextSend(_, _, _, todo) => todo
    case _ => []
  }

  /** A copy may be stale, but it is of the same story, and while the row still has the copy's index it has the copy's wait. */
  predicate CopyOk(rows: seq<Row>, c: Snap) {
    && c.id < |rows|
    && c.row.storyId == rows[c.id].storyId && c.row.storylineIdx == rows[c.id].storylineIdx
    && c.row.idx <= rows[c.id].idx
    && (c.row.idx == rows[c.id].idx ==> c.row.wait == rows[c.id].wait)
  }

  predicate CopiesOk(rows: seq<Row>, copies: seq<Snap>) {
    forall k :: 0 <= k < |copies| ==> CopyOk(rows, copies[k])
  }

  ghost predicate InvCopies(s: State) {
    forall a :: CopiesOk(s.rows, Copies(At(s, a)))
  }

  lemma CopiesFrame(rows: seq<Row>, rows': seq<Row>, copies: seq<Snap>)
    requires Evolves(rows, rows') && CopiesOk(rows, copies)
    ensures CopiesOk(rows', copies)
  {
    forall k | 0 <= k < |copies|
      ensures CopyOk(rows', copies[k])
    {
      assert CopyOk(rows, copies[k]);
      assert RowEvolves(rows[copies[k].id], rows'[copies[k].id]);
    }
  }

  /** The acting actor only drops copies, or adds one of a row as it is. */
  lemma ActorCopies(s: State, l: Label, a: Actor)
    requires ActorOf(l) == Some(a) && CopiesOk(s.rows, Copies(At(s, a)))
    ensures CopiesOk(s.rows, Copies(At(Apply(s, l), a)))
  {
  }

  lemma KeepCopies(s: State, l: Label)
    requires InvCopies(s)
    ensures InvCopies(Apply(s, l))
  {
    var s' := Apply(s, l);
    StepEvolves(s, l);
    forall a
      ensures CopiesOk(s'.rows, Copies(At(s', a)))
    {
      assert CopiesOk(s.rows, Copies(At(s, a)));
      if ActorOf(l) == Some(a) {
        ActorCopies(s, l, a);
      } else {
        OthersStay(s, l, a);
      }
      CopiesFrame(s.rows, s'.rows, Copies(At(s', a)));
    }
  }

  // ---------- Claims: one per index, in order, with no gap ----------

  /** The indices claimed for row `id`, in the order in which they were claimed. */
  function ClaimedFor(claims: seq<Claim>, id: nat): seq<nat> {
    if claims == [] then []
    else
      var n := |claims| - 1;
      var before := ClaimedFor(claims[..n], id);
      if claims[n].id == id then before + [claims[n].idx] else before
  }

  function UpTo(n: nat): seq<nat> {
    seq(n, i requires 0 <= i => i + 1)
  }

  ghost predicate InvClaims(s: State) {
    && (forall id :: 0 <= id < |s.rows| ==> ClaimedFor(s.claims, id) == UpTo(s.rows[id].idx))
    && (forall k :: 0 <= k < |s.claims| ==> s.claims[k].id < |s.rows|)
  }

  lemma {:induction false} NoClaims(claims: seq<Claim>, id: nat)
    requires forall k :: 0 <= k < |claims| ==> claims[k].id != id
    ensures ClaimedFor(claims, id) == []
  {
    if claims != [] {
      NoClaims(claims[..|claims| - 1], id);
    }
  }

  lemma ClaimsSameRows(s: State, s': State)
    requires InvClaims(s) && s'.claims == s.claims && |s'.rows| == |s.rows|
    requires forall i :: 0 <= i < |s.rows| ==> s'.rows[i].idx == s.rows[i].idx
    ensures InvClaims(s')
  {
  }

  lemma ClaimsInsert(s: State, s': State, row: Row)
    requires InvClaims(s) && s'.claims == s.claims && s'.rows == s.rows + [row] && row.idx == 0
    ensures InvClaims(s')
  {
    NoClaims(s.claims, |s.rows|);
  }

  lemma ClaimsExtend(s: State, s': State, c: Claim)
    requires InvClaims(s) && s'.claims == s.claims + [c] && c.id < |s.rows| == |s'.rows|
    requires c.idx == s.rows[c.id].idx + 1 == s'.rows[c.id].idx
    requires forall i :: 0 <= i < |s.rows| && i != c.id ==> s'.rows[i].idx == s.rows[i].idx
    ensures InvClaims(s')
  {
    assert s'.claims[..|s.claims|] == s.claims;
    assert UpTo(s.rows[c.id].idx) + [c.idx] == UpTo(c.idx);
  }

  lemma KeepClaims(s: State, l: Label)
    requires InvClaims(s)
    ensures InvClaims(Apply(s, l))
  {
    var s' := Apply(s, l);
    if |s'.rows| > |s.rows| {
      assert l.Insert?;
      ClaimsInsert(s, s', s'.rows[|s.rows|]);
    } else if |s'.claims| > |s.claims| {
      assert l.Advance?;
      ClaimsExtend(s, s', s'.claims[|s.claims|]);
    } else {
      ClaimsSameRows(s, s');
    }
  }

  // ---------- Emails: at most one per session and index ----------

  /** The email an actor may still send. */
  function Permit(pc: Pc): Option<(nat, nat)> {
    match pc
    case Inserted(id) => Some((id, 0))
    case Superseding(id, _, _) => Some((id, 0))
    case FirstSend(id) => Some((id, 0))
    case NextSend(_, id, idx, _) => Some((id, idx))
    case _ => None
  }

  predicate Sent(sends: seq<Send>, p: (nat, nat)) {
    exists k :: 0 <= k < |sends| && sends[k].id == p.0 && sends[k].idx == p.1
  }

  /** The index has been reached: by the insert for index 0, by a claim for the others. */
  predicate Reached(rows: seq<Row>, p: (nat, nat)) {
    p.0 < |rows| && p.1 <= rows[p.0].idx
  }

  ghost predicate PermitsOk(s: State) {
    forall a :: Permit(At(s, a)).Some? ==>
      Reached(s.rows, Permit(At(s, a)).value) && !Sent(s.sends, Permit(At(s, a)).value)
  }

  ghost predicate PermitsDiffer(s: State) {
    forall a, b :: a != b && Permit(At(s, a)).Some? ==> Permit(At(s, a)) != Permit(At(s, b))
  }

  predicate SendsOnce(sends: seq<Send>) {
    forall j, k :: 0 <= j < k < |sends| ==> sends[j].id != sends[k].id || sends[j].idx != sends[k].idx
  }

  predicate SendsReached(rows: seq<Row>, sends: seq<Send>) {
    forall k :: 0 <= k < |sends| ==> Reached(rows, (sends[k].id, sends[k].idx))
  }

  ghost predicate InvSends(s: State) {
    PermitsOk(s) && PermitsDiffer(s) && SendsOnce(s.sends) && SendsReached(s.rows, s.sends)
  }

  /** A new permit is for an index nobody had reached before the step. */
  lemma ActorPermit(s: State, l: Label, a: Actor)
    requires ActorOf(l) == Some(a) && InvClaims(s) && InvCopies(s)
    ensures
      var s' := Apply(s, l);
      var p := Permit(At(s', a));
      p.Some? ==>
        || (p == Permit(At(s, a)) && s'.sends == s.sends)
        || (!Reached(s.rows, p.value) && Reached(s'.rows, p.value) && s'.sends == s.sends)
  {
    assert CopiesOk(s.rows, Copies(At(s, a)));
  }

  /** Sending spends the actor's own permit. */
  lemma SendsGrow(s: State, l: Label)
    ensures
      var s' := Apply(s, l);
      || s'.sends == s.sends
      || (&& ActorOf(l).Some?
          && Permit(At(s, ActorOf(l).value)).Some? && Permit(At(s', ActorOf(l).value)).None?
          && var p := Permit(At(s, ActorOf(l).value)).value;
             s'.sends == s.sends + [Send(ActorOf(l).value, p.0, p.1)])
  {
  }

  lemma ReachedStays(rows: seq<Row>, rows': seq<Row>, p: (nat, nat))
    requires Evolves(rows, rows') && Reached(rows, p)
    ensures Reached(rows', p)
  {
    assert RowEvolves(rows[p.0], rows'[p.0]);
  }

  lemma KeepPermitsOk(s: State, l: Label)
    requires InvSends(s) && InvClaims(s) && InvCopies(s)
    ensures PermitsOk(Apply(s, l))
  {
    var s' := Apply(s, l);
    StepEvolves(s, l);
    SendsGrow(s, l);
    forall a | Permit(At(s', a)).Some?
      ensures Reached(s'.rows, Permit(At(s', a)).value) && !Sent(s'.sends, Permit(At(s', a)).value)
    {
      var p := Permit(At(s', a)).value;
      if ActorOf(l) == Some(a) {
        ActorPermit(s, l, a);
        if !Reached(s.rows, p) {
          assert !Sent(s.sends, p);
        } else {
          ReachedStays(s.rows, s'.rows, p);
        }
      } else {
        OthersStay(s, l, a);
        ReachedStays(s.rows, s'.rows, p);
        if s'.sends != s.sends {
          assert Permit(At(s, a)) != Permit(At(s, ActorOf(l).value));
        }
      }
    }
  }

  lemma KeepPermitsDiffer(s: State, l: Label)
    requires InvSends(s) && InvClaims(s) && InvCopies(s)
    ensures PermitsDiffer(Apply(s, l))
  {
    var s' := Apply(s, l);
    forall a, b | a != b && Permit(At(s', a)).Some?
      ensures Permit(At(s', a)) != Permit(At(s', b))
    {
      if ActorOf(l) == Some(a) {
        ActorPermit(s, l, a);
        OthersStay(s, l, b);
      } else if ActorOf(l) == Some(b) {
        ActorPermit(s, l, b);
        OthersStay(s, l, a);
      } else {
        OthersStay(s, l, a);
        OthersStay(s, l, b);
      }
    }
  }

  lemma KeepSends(s: State, l: Label)
    requires InvSends(s) && InvClaims(s) && InvCopies(s)
    ensures InvSends(Apply(s, l))
  {
    var s' := Apply(s, l);
    KeepPermitsOk(s, l);
    KeepPermitsDiffer(s, l);
    StepEvolves(s, l);
    SendsGrow(s, l);
    forall k | 0 <= k < |s'.sends|
      ensures Reached(s'.rows, (s'.sends[k].id, s'.sends[k].idx))
    {
      ReachedStays(s.rows, s'.rows, (s'.sends[k].id, s'.sends[k].idx));
    }
  }

  // ---------- Every later email follows its sender's own claim ----------

  predicate Claimed(claims: seq<Claim>, a: Actor, id: nat, idx: nat) {
    exists k :: 0 <= k < |claims| && claims[k].actor == a && claims[k].id == id && claims[k].idx == idx
  }

  ghost predicate InvClaimed(s: State) {
    && (forall a :: At(s, a).NextSend? ==> Claimed(s.claims, a, At(s, a).id, At(s, a).idx))
    && (forall k :: 0 <= k < |s.sends| && s.sends[k].idx > 0 ==>
          Claimed(s.claims, s.sends[k].actor, s.sends[k].id, s.sends[k].idx))
  }

  lemma ClaimedStays(claims: seq<Claim>, more: seq<Claim>, a: Actor, id: nat, idx: nat)
    requires Claimed(claims, a, id, idx)
    ensures Claimed(claims + more, a, id, idx)
  {
    var k :| 0 <= k < |claims| && claims[k].actor == a && claims[k].id == id && claims[k].idx == idx;
    assert (claims + more)[k] == claims[k];
  }

  lemma ClaimsGrow(s: State, l: Label)
    ensures
      var s' := Apply(s, l);
      s'.claims == s.claims
      || (&& l.Advance? && At(s', l.a).NextSend? && |s'.claims| == |s.claims| + 1
          && s'.claims[..|s.claims|] == s.claims
          && var c := s'.claims[|s.claims|];
             c.actor == l.a && c.id == At(s', l.a).id && c.idx == At(s', l.a).idx)
  {
  }

  lemma ClaimedGrows(s: State, l: Label, a: Actor, id: nat, idx: nat)
    requires Claimed(s.claims, a, id, idx)
    ensures Claimed(Apply(s, l).claims, a, id, idx)
  {
    ClaimsGrow(s, l);
    var s' := Apply(s, l);
    if s'.claims != s.claims {
      assert s'.claims == s.claims + s'.claims[|s.claims|..];
      ClaimedStays(s.claims, s'.claims[|s.claims|..], a, id, idx);
    }
  }

  lemma ActorClaimed(s: State, l: Label, a: Actor)
    requires ActorOf(l) == Some(a) && InvClaimed(s) && At(Apply(s, l), a).NextSend?
    ensures Claimed(Apply(s, l).claims, a, At(Apply(s, l), a).id, At(Apply(s, l), a).idx)
  {
    ClaimsGrow(s, l);
    var s' := Apply(s, l);
    if s'.claims != s.claims {
      assert s'.claims[|s.claims|].actor == a;
    } else {
      assert At(s', a) == At(s, a);
    }
  }

  lemma KeepClaimed(s: State, l: Label)
    requires InvClaimed(s)
    ensures InvClaimed(Apply(s, l))
  {
    var s' := Apply(s, l);
    SendsGrow(s, l);
    forall a | At(s', a).NextSend?
      ensures Claimed(s'.claims, a, At(s', a).id, At(s', a).idx)
    {
      if ActorOf(l) == Some(a) {
        ActorClaimed(s, l, a);
      } else {
        OthersStay(s, l, a);
        ClaimedGrows(s, l, a, At(s, a).id, At(s, a).idx);
      }
    }
    forall k | 0 <= k < |s'.sends| && s'.sends[k].idx > 0
      ensures Claimed(s'.claims, s'.sends[k].actor, s'.sends[k].id, s'.sends[k].idx)
    {
      var d := s'.sends[k];
      if k == |s.sends| {
        assert At(s, d.actor).NextSend?;
      }
      ClaimedGrows(s, l, d.actor, d.id, d.idx);
    }
  }

  // ---------- Claims are never early ----------

  ghost predicate InvClock(s: State) {
    forall a ::
      && (At(s, a).Working? && At(s, a).now.Some? ==> At(s, a).now.value <= s.clock)
      && (At(s, a).NextSend? && At(s, a).now.Some? ==> At(s, a).now.value <= s.clock)
  }

  predicate InvNeverEarly(s: State) {
    forall k :: 0 <= k < |s.claims| && s.claims[k].swept ==> s.claims[k].deadline <= s.claims[k].at
  }

  lemma KeepClock(s: State, l: Label)
    requires InvClock(s)
    ensures InvClock(Apply(s, l))
  {
    var s' := Apply(s, l);
    forall a
      ensures At(s', a).Working? && At(s', a).now.Some? ==> At(s', a).now.value <= s'.clock
      ensures At(s', a).NextSend? && At(s', a).now.Some? ==> At(s', a).now.value <= s'.clock
    {
      if ActorOf(l) != Some(a) {
        OthersStay(s, l, a);
      }
    }
  }

  lemma KeepNeverEarly(s: State, l: Label)
    requires InvNeverEarly(s) && InvClock(s) && InvCopies(s)
    ensures InvNeverEarly(Apply(s, l))
  {
    if l.Advance? {
      assert CopiesOk(s.rows, Copies(At(s, l.a)));
    }
  }

  // ---------- Superseding ----------

  ghost predicate ScanOk(s: State, pc: Pc) {
    match pc
    case Inserted(id) => id < |s.rows| && id !in s.settled
    case Superseding(id, limit, handled) =>
      && id < limit <= |s.rows| && id !in s.settled
      && forall i :: i in handled ==> i < |s.rows| && Beaten(s.rows, id, i)
    case FirstSend(id) => id < |s.rows|
    case _ => true
  }

  /** Row `i` no longer competes with row `id`. */
  predicate Beaten(rows: seq<Row>, id: nat, i: nat)
    requires id < |rows| && i < |rows|
  {
    i != id && SamePair(rows[i], rows[id]) ==> rows[i].status != Active
  }

  ghost predicate InvScan(s: State) {
    forall a :: ScanOk(s, At(s, a))
  }

  /** Once a start's pass over the rows has finished, every older competitor is out. */
  ghost predicate InvSettled(s: State) {
    forall id :: id in s.settled ==> id < |s.rows| && forall i :: 0 <= i < id ==> Beaten(s.rows, id, i)
  }

  lemma BeatenStays(rows: seq<Row>, rows': seq<Row>, id: nat, i: nat)
    requires Evolves(rows, rows') && id < |rows| && i < |rows| && Beaten(rows, id, i)
    ensures Beaten(rows', id, i)
  {
    assert RowEvolves(rows[id], rows'[id]) && RowEvolves(rows[i], rows'[i]);
  }

  lemma ActorScan(s: State, l: Label, a: Actor)
    requires ActorOf(l) == Some(a) && ScanOk(s, At(s, a)) && InvSettled(s)
    ensures ScanOk(Apply(s, l), At(Apply(s, l), a))
  {
    var s' := Apply(s, l);
    StepEvolves(s, l);
    var pc, pc' := At(s, a), At(s', a);
    if l.Insert? && pc'.Inserted? && pc != pc' {
      assert |s.rows| !in s.settled;
    }
    if pc'.Superseding? && pc.Superseding? {
      forall i | i in pc'.handled
        ensures i < |s'.rows| && Beaten(s'.rows, pc'.id, i)
      {
        if i in pc.handled {
          BeatenStays(s.rows, s'.rows, pc.id, i);
        }
      }
    }
  }

  lemma OtherScan(s: State, l: Label, a: Actor)
    requires ActorOf(l) != Some(a) && ScanOk(s, At(s, a)) && PermitsDiffer(s)
    ensures ScanOk(Apply(s, l), At(Apply(s, l), a))
  {
    var s' := Apply(s, l);
    OthersStay(s, l, a);
    StepEvolves(s, l);
    var pc := At(s, a);
    if l.EndSupersede? {
      assert Permit(pc).Some? ==> Permit(pc) != Permit(At(s, l.a));
    }
    if pc.Superseding? {
      forall i | i in pc.handled
        ensures i < |s'.rows| && Beaten(s'.rows, pc.id, i)
      {
        BeatenStays(s.rows, s'.rows, pc.id, i);
      }
    }
  }

  lemma KeepScan(s: State, l: Label)
    requires InvScan(s) && InvSettled(s) && PermitsDiffer(s)
    ensures InvScan(Apply(s, l))
  {
    forall a
      ensures ScanOk(Apply(s, l), At(Apply(s, l), a))
    {
      assert ScanOk(s, At(s, a));
      if ActorOf(l) == Some(a) {
        ActorScan(s, l, a);
      } else {
        OtherScan(s, l, a);
      }
    }
  }

  lemma KeepSettled(s: State, l: Label)
    requires InvScan(s) && InvSettled(s)
    ensures InvSettled(Apply(s, l))
  {
    var s' := Apply(s, l);
    StepEvolves(s, l);
    forall id | id in s'.settled
      ensures id < |s'.rows| && forall i :: 0 <= i < id ==> Beaten(s'.rows, id, i)
    {
      if id !in s.settled {
        assert l.EndSupersede? && ScanOk(s, At(s, l.a));
      }
      forall i | 0 <= i < id
        ensures Beaten(s'.rows, id, i)
      {
        BeatenStays(s.rows, s'.rows, id, i);
      }
    }
  }

  // ---------- Who superseded whom ----------

  /** A start under way was under way when each later row was inserted. */
  ghost predicate OpenFor(s: State, a: Actor)
    requires |s.open| == |s.rows|
  {
    Superseder(At(s, a)).Some? ==>
      forall v :: Superseder(At(s, a)).value < v < |s.rows| ==> Superseder(At(s, a)).value in s.open[v]
  }

  ghost predicate InvOpen(s: State) {
    |s.open| == |s.rows| && forall a :: OpenFor(s, a)
  }

  /** A row inserted earlier can beat a row only if its own pass was unfinished when that row was inserted. */
  predicate KillOk(s: State, k: Kill) {
    && k.killer < |s.rows| && k.victim < |s.rows| == |s.open| && k.killer != k.victim
    && SamePair(s.rows[k.killer], s.rows[k.victim])
    && (k.killer < k.victim ==> k.killer in s.open[k.victim])
  }

  predicate KilledBySomeone(s: State, v: nat) {
    exists k :: 0 <= k < |s.kills| && s.kills[k].victim == v
  }

  ghost predicate InvKills(s: State) {
    && (forall k :: 0 <= k < |s.kills| ==> KillOk(s, s.kills[k]))
    && (forall v :: 0 <= v < |s.rows| && s.rows[v].status == Superseded ==> KilledBySomeone(s, v))
  }

  lemma KeepOpen(s: State, l: Label)
    requires InvOpen(s) && InvScan(s)
    ensures InvOpen(Apply(s, l))
  {
    var s' := Apply(s, l);
    forall a
      ensures OpenFor(s', a)
    {
      assert OpenFor(s, a) && ScanOk(s, At(s, a));
      KeepOpenFor(s, l, a);
    }
  }

  lemma KeepOpenFor(s: State, l: Label, a: Actor)
    requires |s.open| == |s.rows| && OpenFor(s, a) && ScanOk(s, At(s, a))
    ensures |Apply(s, l).open| == |Apply(s, l).rows| && OpenFor(Apply(s, l), a)
  {
    if l.Insert? && a in s.pcs && Superseder(s.pcs[a]).Some? {
      assert Superseder(s.pcs[a]).value in UnderWay(s.pcs);
    }
  }

  lemma KillsGrow(s: State, l: Label)
    requires InvScan(s) && InvOpen(s)
    ensures
      var s' := Apply(s, l);
      s'.kills == s.kills || (|s'.kills| == |s.kills| + 1 && s'.kills[..|s.kills|] == s.kills && KillOk(s', s'.kills[|s.kills|]))
  {
    if l.SupersedeOne? {
      assert ScanOk(s, At(s, l.a)) && OpenFor(s, l.a);
    }
  }

  lemma KillOkStays(s: State, l: Label, k: Kill)
    requires KillOk(s, k)
    ensures KillOk(Apply(s, l), k)
  {
    StepEvolves(s, l);
    assert RowEvolves(s.rows[k.killer], Apply(s, l).rows[k.killer]);
    assert RowEvolves(s.rows[k.victim], Apply(s, l).rows[k.victim]);
  }

  /** A row turns Superseded only in a step that logs it as a victim. */
  lemma SupersededIsLogged(s: State, l: Label, v: nat)
    requires v < |Apply(s, l).rows| && Apply(s, l).rows[v].status == Superseded
    ensures v < |s.rows|
    ensures s.rows[v].status == Superseded
            || (|Apply(s, l).kills| == |s.kills| + 1 && Apply(s, l).kills[|s.kills|].victim == v)
  {
  }

  lemma KeepKills(s: State, l: Label)
    requires InvKills(s) && InvScan(s) && InvOpen(s)
    ensures InvKills(Apply(s, l))
  {
    var s' := Apply(s, l);
    KillsGrow(s, l);
    forall k | 0 <= k < |s'.kills|
      ensures KillOk(s', s'.kills[k])
    {
      if k < |s.kills| {
        KillOkStays(s, l, s.kills[k]);
      }
    }
    forall v | 0 <= v < |s'.rows| && s'.rows[v].status == Superseded
      ensures KilledBySomeone(s', v)
    {
      SupersededIsLogged(s, l, v);
      if s.rows[v].status == Superseded {
        var k :| 0 <= k < |s.kills| && s.kills[k].victim == v;
        assert s'.kills[k].victim == v;
      }
    }
  }

  // ---------- Command keys and the actor that inserted a row ----------

  predicate InvKeys(s: State) {
    forall i, j :: 0 <= i < j < |s.rows| && s.rows[i].key != "" ==> s.rows[i].key != s.rows[j].key
  }

  lemma KeepKeys(s: State, l: Label)
    requires InvKeys(s)
    ensures InvKeys(Apply(s, l))
  {
    var s' := Apply(s, l);
    StepEvolves(s, l);
    forall i, j | 0 <= i < j < |s'.rows| && s'.rows[i].key != ""
      ensures s'.rows[i].key != s'.rows[j].key
    {
      assert RowEvolves(s.rows[i], s'.rows[i]);
      if j < |s.rows| {
        assert RowEvolves(s.rows[j], s'.rows[j]);
      }
    }
  }

  function StartOf(pc: Pc): Option<nat> {
    match pc
    case Inserted(id) => Some(id)
    case Superseding(id, _, _) => Some(id)
    case FirstSend(id) => Some(id)
    case _ => None
  }

  ghost predicate StartsOwned(s: State) {
    forall a :: StartOf(At(s, a)).Some? ==>
      StartOf(At(s, a)).value < |s.creators| && s.creators[StartOf(At(s, a)).value] == a
  }

  ghost predicate InvOwners(s: State) {
    && |s.creators| == |s.rows|
    && StartsOwned(s)
    && (forall k :: 0 <= k < |s.sends| && s.sends[k].idx == 0 ==>
          s.sends[k].id < |s.creators| && s.creators[s.sends[k].id] == s.sends[k].actor)
    && (forall k :: 0 <= k < |s.kills| ==>
          s.kills[k].killer < |s.creators| && s.creators[s.kills[k].killer] == s.kills[k].actor)
  }

  /** Claims hand out permits for indices above 0 only. */
  ghost predicate InvNextSend(s: State) {
    forall a :: At(s, a).NextSend? ==> At(s, a).idx > 0
  }

  lemma KeepNextSend(s: State, l: Label)
    requires InvNextSend(s)
    ensures InvNextSend(Apply(s, l))
  {
    forall a | At(Apply(s, l), a).NextSend?
      ensures At(Apply(s, l), a).idx > 0
    {
      if ActorOf(l) != Some(a) {
        OthersStay(s, l, a);
      }
    }
  }

  lemma CreatorsGrow(s: State, l: Label)
    requires |s.creators| == |s.rows|
    ensures |Apply(s, l).creators| == |Apply(s, l).rows|
    ensures |s.creators| <= |Apply(s, l).creators| && Apply(s, l).creators[..|s.creators|] == s.creators
  {
  }

  /** The actor of a step that holds a start is the creator of the started row. */
  lemma ActorOwnsStart(s: State, l: Label, a: Actor)
    requires InvOwners(s) && ActorOf(l) == Some(a) && StartOf(At(Apply(s, l), a)).Some?
    ensures var s' := Apply(s, l);
            var i := StartOf(At(s', a)).value;
            i < |s'.creators| && s'.creators[i] == a
  {
    assert StartOf(At(s, a)).Some? ==> s.creators[StartOf(At(s, a)).value] == a;
  }

  lemma KeepStartsOwned(s: State, l: Label)
    requires InvOwners(s)
    ensures StartsOwned(Apply(s, l)) && |Apply(s, l).creators| == |Apply(s, l).rows|
    ensures |s.creators| <= |Apply(s, l).creators| && Apply(s, l).creators[..|s.creators|] == s.creators
  {
    hide Apply;
    CreatorsGrow(s, l);
    var s' := Apply(s, l);
    forall a | StartOf(At(s', a)).Some?
      ensures StartOf(At(s', a)).value < |s'.creators| && s'.creators[StartOf(At(s', a)).value] == a
    {
      if ActorOf(l) != Some(a) {
        OthersStay(s, l, a);
        assert s'.creators[..|s.creators|][StartOf(At(s, a)).value] == a;
      } else {
        ActorOwnsStart(s, l, a);
      }
    }
  }

  lemma KeepOwners(s: State, l: Label)
    requires InvOwners(s) && InvNextSend(s)
    ensures InvOwners(Apply(s, l))
  {
    KeepStartsOwned(s, l);
    SendsGrow(s, l);
    if ActorOf(l).Some? {
      var a := ActorOf(l).value;
      assert StartOf(At(s, a)).Some? ==> s.creators[StartOf(At(s, a)).value] == a;
    }
  }

  // ---------- A fixed bound on the number of enactments ----------

  /** Every story graph this label reads has at most `bound` enactments in each storyline. */
  predicate GraphBounded(l: Label, bound: nat) {
    l.Advance? && l.graph.Some? ==> forall i :: 0 <= i < |l.graph.value| ==> |l.graph.value[i]| <= bound
  }

  predicate InvBound(s: State, bound: nat) {
    forall i :: 0 <= i < |s.rows| ==> s.rows[i].idx < bound
  }

  lemma KeepBound(s: State, l: Label, bound: nat)
    requires InvBound(s, bound) && GraphBounded(l, bound) && bound > 0
    ensures InvBound(Apply(s, l), bound)
  {
  }
}
