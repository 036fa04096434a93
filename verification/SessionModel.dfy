/**
  The story-session rows and every database operation the story engine performs on them.

  A session row is identified by its position in `rows`, which is also the order in which the rows were
  inserted; the random object id and public id of the program are only ever compared for equality. Each
  function below is the effect of ONE row operation, so that a concurrent protocol can be built from them
  without assuming that anything larger is atomic. Times are integers in milliseconds.
*/
module SessionModel {
  import opened Wrappers

  datatype Status = Active | Completed | Superseded

  /** The stored next action; any other action name is kept as is. */
  datatype NextAction = NextScene | MarkComplete | AdvanceToNextStoryline | OtherAction(name: string)

  datatype Row = Row(
    user: string, story: string, storyId: nat, storylineIdx: nat,
    idx: nat, sentAt: int, wait: int, next: NextAction, status: Status, key: string)

  /** What a reader keeps of a row: its identity and the copy it read, which may be stale when it is used. */
  datatype Snap = Snap(id: nat, row: Row)

  const SECOND: int := 1000

  function Deadline(r: Row): int {
    r.sentAt + r.wait * SECOND
  }

  predicate SamePair(a: Row, b: Row) {
    a.user == b.user && a.story == b.story
  }

  // ---------- The story graph, as far as the engine looks at it ----------

  datatype Timeframe = Timeframe(amount: int, unit: string)
  datatype When = When(waitUntil: Option<Timeframe>)
  datatype Action = Action(name: NextAction, when: Option<When>)
  datatype Trigger = Trigger(doAction: Option<Action>)

  /** `hasContent`: the first scene exists and has a message. `onSent`: the on-sent triggers, nil pointers included. */
  datatype Enactment = Enactment(hasContent: bool, onSent: seq<Option<Trigger>>)
  type Graph = seq<seq<Enactment>>

  /** The wait and next action written when an enactment is sent. Only the first on-sent trigger counts. */
  function OnSentWait(en: Enactment): (int, NextAction) {
    if |en.onSent| == 0 || en.onSent[0].None? then (30, MarkComplete)
    else
      var tr := en.onSent[0].value;
      if tr.doAction.None? || tr.doAction.value.when.None? then (30, MarkComplete)
      else
        var act := tr.doAction.value;
        match act.when.value.waitUntil
        case None => (30, act.name)
        case Some(t) => (UnitSeconds(t), act.name)
  }

  function UnitSeconds(t: Timeframe): int {
    if t.unit == "seconds" || t.unit == "second" then t.amount
    else if t.unit == "minutes" || t.unit == "minute" then t.amount * 60
    else if t.unit == "hours" || t.unit == "hour" then t.amount * 3600
    else t.amount * 60
  }

  /** The trigger says when and how to go on. */
  predicate Scheduled(tr: Trigger) {
    tr.doAction.Some? && tr.doAction.value.when.Some?
  }

  /**
    A wait and a next action are those of an enactment: its first on-sent trigger names them, and where that trigger
    gives no duration the wait is half a minute. Without such a trigger the session completes after half a minute.
  */
  predicate FollowsEnactment(en: Enactment, wait: int, next: NextAction) {
    if |en.onSent| > 0 && en.onSent[0].Some? && Scheduled(en.onSent[0].value) then
      var act := en.onSent[0].value.doAction.value;
      var until := act.when.value.waitUntil;
      && next == act.name
      && (until.None? ==> wait == 30)
      && (until.Some? && until.value.unit in {"second", "seconds"} ==> wait == until.value.amount)
      && (until.Some? && until.value.unit in {"hour", "hours"} ==> wait == 3600 * until.value.amount)
      && (until.Some? && until.value.unit !in {"second", "seconds", "hour", "hours"} ==> wait == 60 * until.value.amount)
    else wait == 30 && next == MarkComplete
  }

  lemma OnSentWaitFollows(en: Enactment)
    ensures FollowsEnactment(en, OnSentWait(en).0, OnSentWait(en).1)
  {
  }

  /** The session a start command inserts, at the first enactment of the story. */
  function FirstRow(user: string, story: string, storyId: nat, first: Enactment, key: string, stamp: int): Row {
    var (wait, next) := OnSentWait(first);
    Row(user, story, storyId, 0, 0, stamp, wait, next, Active, key)
  }

  /** A session as it is right after its start. */
  predicate IsStarted(r: Row, user: string, story: string, storyId: nat, first: Enactment, key: string, stamp: int) {
    && r.user == user && r.story == story && r.storyId == storyId && r.key == key
    && r.storylineIdx == 0 && r.idx == 0 && r.sentAt == stamp && r.status == Active
    && FollowsEnactment(first, r.wait, r.next)
  }

  // ---------- What an advance decides from the copy it holds ----------

  datatype Decision = Drop | Finish | ClaimTo(nextIdx: nat, wait: int, next: NextAction)

  /** The branches of an advance up to its first write. `graph` is None when the story cannot be loaded. */
  function Decide(s: Row, graph: Option<Graph>, unsubscribed: bool): (d: Decision)
    ensures d.ClaimTo? ==> d.nextIdx == s.idx + 1 && s.next == NextScene
  {
    match s.next
    case MarkComplete => Finish
    case AdvanceToNextStoryline => Finish
    case OtherAction(_) => Finish
    case NextScene =>
      if graph.None? then Drop
      else if s.storylineIdx >= |graph.value| then Finish
      else
        var acts := graph.value[s.storylineIdx];
        if s.idx + 1 >= |acts| then Finish
        else if !acts[s.idx + 1].hasContent then Finish
        else if unsubscribed then Finish
        else
          var (wait, next) := OnSentWait(acts[s.idx + 1]);
          ClaimTo(s.idx + 1, wait, next)
  }

  // ---------- Single-row operations ----------

  predicate KeyTaken(rows: seq<Row>, key: string) {
    exists i :: 0 <= i < |rows| && rows[i].key == key
  }

  /** The unique index is sparse: an absent (empty) key never collides. */
  predicate InsertRefused(rows: seq<Row>, key: string) {
    key != "" && KeyTaken(rows, key)
  }

  predicate SupersedeMatches(rows: seq<Row>, owner: nat, i: nat)
    requires owner < |rows| && i < |rows|
  {
    i != owner && SamePair(rows[i], rows[owner]) && rows[i].status == Active
  }

  function SupersedeRow(rows: seq<Row>, owner: nat, i: nat): (r: seq<Row>)
    requires owner < |rows| && i < |rows|
  {
    if SupersedeMatches(rows, owner, i) then rows[i := rows[i].(status := Superseded)] else rows
  }

  /** The compare-and-set predicate of an advance: active, and still at the index and send time that were read. */
  predicate ClaimMatches(rows: seq<Row>, s: Snap)
    requires s.id < |rows|
  {
    var r := rows[s.id];
    r.status == Active && r.idx == s.row.idx && r.sentAt == s.row.sentAt
  }

  function ClaimRow(rows: seq<Row>, s: Snap, d: Decision, stamp: int): (r: seq<Row>)
    requires s.id < |rows| && d.ClaimTo?
  {
    if ClaimMatches(rows, s)
    then rows[s.id := rows[s.id].(idx := d.nextIdx, sentAt := stamp, wait := d.wait, next := d.next)]
    else rows
  }

  /** Completion is written by identity alone: no guard on status, index or send time. */
  function CompleteRow(rows: seq<Row>, id: nat): (r: seq<Row>)
    requires id < |rows|
  {
    rows[id := rows[id].(status := Completed)]
  }

  /** The test tick writes the send time it read, minus the rewind, whatever the row holds by then. */
  function RewindRow(rows: seq<Row>, s: Snap, seconds: int): (r: seq<Row>)
    requires s.id < |rows|
  {
    rows[s.id := rows[s.id].(sentAt := s.row.sentAt - seconds * SECOND)]
  }

  // ---------- Whole passes with nobody else writing ----------

  /** One uninterrupted attempt: the rows afterwards, and whether the advance was claimed. */
  function AdvanceRows(rows: seq<Row>, s: Snap, graph: Option<Graph>, unsubscribed: bool, stamp: int): seq<Row>
    requires s.id < |rows|
  {
    match Decide(s.row, graph, unsubscribed)
    case Drop => rows
    case Finish => CompleteRow(rows, s.id)
    case ClaimTo(_, _, _) => ClaimRow(rows, s, Decide(s.row, graph, unsubscribed), stamp)
  }

  predicate AdvanceClaims(rows: seq<Row>, s: Snap, graph: Option<Graph>, unsubscribed: bool)
    requires s.id < |rows|
  {
    Decide(s.row, graph, unsubscribed).ClaimTo? && ClaimMatches(rows, s)
  }

  /** Everything a pass reads besides the rows. */
  datatype Env = Env(graphOf: nat -> Option<Graph>, unsubscribed: string -> bool, refused: string -> bool)

  /** What one pass at time `now` does to a single row: nothing before its deadline, one advance after it. */
  function PassRow(r: Row, env: Env, now: int, stamp: int): Row {
    if r.status != Active || now < Deadline(r) then r
    else
      match Decide(r, env.graphOf(r.storyId), env.unsubscribed(r.user))
      case Drop => r
      case Finish => r.(status := Completed)
      case ClaimTo(n, w, a) => r.(idx := n, sentAt := stamp, wait := w, next := a)
  }

  ghost predicate Listed(snaps: seq<Snap>, i: nat) {
    exists k :: 0 <= k < |snaps| && snaps[k].id == i
  }

  lemma OneMoreActive(rest: seq<Snap>, rows: seq<Row>, n: nat)
    requires n == |rows| - 1
    requires forall i: nat :: i < n && rows[..n][i].status == Active ==> Listed(rest, i)
    ensures forall i: nat :: i < |rows| && rows[i].status == Active ==> Listed(rest + [Snap(n, rows[n])], i)
  {
    var out := rest + [Snap(n, rows[n])];
    assert out[|rest|].id == n;
    forall i: nat | i < n && rows[i].status == Active
      ensures Listed(out, i)
    {
      assert rows[..n][i] == rows[i] && Listed(rest, i);
      var k :| 0 <= k < |rest| && rest[k].id == i;
      assert out[k].id == i;
    }
  }

  function ActiveSnaps(rows: seq<Row>): (r: seq<Snap>)
    ensures forall k :: 0 <= k < |r| ==> r[k].id < |rows| && r[k].row == rows[r[k].id] && r[k].row.status == Active
    ensures forall j, k :: 0 <= j < k < |r| ==> r[j].id < r[k].id
    ensures forall i: nat :: i < |rows| && rows[i].status == Active ==> Listed(r, i)
  {
    if rows == [] then []
    else
      var n := |rows| - 1;
      var rest := ActiveSnaps(rows[..n]);
      if rows[n].status == Active then
        OneMoreActive(rest, rows, n);
        rest + [Snap(n, rows[n])]
      else
        assert forall i :: 0 <= i < n ==> rows[..n][i] == rows[i];
        rest
  }

  /** The session collection together with the emails the engine has sent, as (session, enactment index). */
  class SessionStore {
    var rows: seq<Row>
    var outbox: seq<(nat, nat)>

    constructor ()
      ensures rows == [] && outbox == []
    {
      rows, outbox := [], [];
    }

    /** The start command from its insert onwards: insert, supersede the others, send the first email. */
    method Start(user: string, story: string, storyId: nat, first: Enactment, key: string, stamp: int) returns (inserted: bool)
      modifies this
      ensures inserted == !InsertRefused(old(rows), key)
      ensures !inserted ==> rows == old(rows) && outbox == old(outbox)
      ensures inserted ==>
        && |rows| == |old(rows)| + 1
        && IsStarted(rows[|old(rows)|], user, story, storyId, first, key, stamp)
        && outbox == old(outbox) + [(|old(rows)|, 0)]
        && (forall i :: 0 <= i < |old(rows)| ==>
              rows[i] == if old(rows)[i].user == user && old(rows)[i].story == story && old(rows)[i].status == Active
                         then old(rows)[i].(status := Superseded) else old(rows)[i])
    {
      if key != "" && exists i :: 0 <= i < |rows| && rows[i].key == key {
        return false;
      }
      var id := |rows|;
      OnSentWaitFollows(first);
      rows := rows + [FirstRow(user, story, storyId, first, key, stamp)];
      SupersedeOthers(id);
      outbox := outbox + [(id, 0)];
      inserted := true;
    }

    method SupersedeOthers(id: nat)
      requires id < |rows|
      modifies this`rows
      ensures |rows| == |old(rows)|
      ensures forall i :: 0 <= i < |rows| ==>
        rows[i] == if SupersedeMatches(old(rows), id, i) then old(rows)[i].(status := Superseded) else old(rows)[i]
    {
      var i := 0;
      while i < |rows|
        invariant 0 <= i <= |rows| == |old(rows)|
        invariant forall j :: 0 <= j < i ==>
          rows[j] == if SupersedeMatches(old(rows), id, j) then old(rows)[j].(status := Superseded) else old(rows)[j]
        invariant forall j :: i <= j < |rows| ==> rows[j] == old(rows)[j]
      {
        rows := SupersedeRow(rows, id, i);
        i := i + 1;
      }
    }

    method FindActive() returns (found: seq<Snap>)
      ensures found == ActiveSnaps(rows)
    {
      found := [];
      var i := 0;
      while i < |rows|
        invariant 0 <= i <= |rows|
        invariant found == ActiveSnaps(rows[..i])
      {
        if rows[i].status == Active {
          found := found + [Snap(i, rows[i])];
        }
        i := i + 1;
        assert rows[..i][..i - 1] == rows[..i - 1];
      }
      assert rows[..i] == rows;
    }

    method AdvanceSession(s: Snap, env: Env, stamp: int)
      requires s.id < |rows|
      modifies this
      ensures rows == AdvanceRows(old(rows), s, env.graphOf(s.row.storyId), env.unsubscribed(s.row.user), stamp)
      ensures outbox == old(outbox) +
        if AdvanceClaims(old(rows), s, env.graphOf(s.row.storyId), env.unsubscribed(s.row.user))
           && !env.refused(s.row.user)
        then [(s.id, s.row.idx + 1)] else []
    {
      var d := Decide(s.row, env.graphOf(s.row.storyId), env.unsubscribed(s.row.user));
      match d {
        case Drop =>
        case Finish =>
          rows := CompleteRow(rows, s.id);
        case ClaimTo(n, wait, next) =>
          if ClaimMatches(rows, s) {
            rows := rows[s.id := rows[s.id].(idx := n, sentAt := stamp, wait := wait, next := next)];
            if !env.refused(s.row.user) {
              outbox := outbox + [(s.id, n)];
            }
          }
      }
    }

    /** One sweep with no other writer: every row makes exactly the step PassRow describes. */
    method AdvanceExpiredSessions(env: Env, now: int, stamp: int)
      modifies this
      ensures |rows| == |old(rows)|
      ensures forall i :: 0 <= i < |rows| ==> rows[i] == PassRow(old(rows)[i], env, now, stamp)
    {
      var sessions := FindActive();
      ghost var was := rows;
      var k := 0;
      while k < |sessions|
        invariant 0 <= k <= |sessions|
        invariant |rows| == |was|
        invariant SweepRows(rows, sessions[k..], env, now, stamp) == SweepRows(was, sessions, env, now, stamp)
      {
        var s := sessions[k];
        assert sessions[k..][1..] == sessions[k + 1..];
        if now >= Deadline(s.row) {
          AdvanceSession(s, env, stamp);
        }
        k := k + 1;
      }
      assert sessions[k..] == [];
      SweepIsPass(was, sessions, env, now, stamp);
    }
  }

  predicate InRange(snaps: seq<Snap>, n: nat) {
    forall k :: 0 <= k < |snaps| ==> snaps[k].id < n
  }

  /** The sweep's loop over the copies it holds, without interference. */
  function SweepRows(rows: seq<Row>, todo: seq<Snap>, env: Env, now: int, stamp: int): (r: seq<Row>)
    requires InRange(todo, |rows|)
    ensures |r| == |rows|
    decreases |todo|
  {
    if todo == [] then rows
    else
      var s := todo[0];
      var after :=
        if now >= Deadline(s.row)
        then AdvanceRows(rows, s, env.graphOf(s.row.storyId), env.unsubscribed(s.row.user), stamp)
        else rows;
      SweepRows(after, todo[1..], env, now, stamp)
  }

  lemma {:induction false} SweepRowsAt(rows: seq<Row>, todo: seq<Snap>, env: Env, now: int, stamp: int, i: nat)
    requires InRange(todo, |rows|) && i < |rows|
    requires forall k :: 0 <= k < |todo| ==> todo[k].row == rows[todo[k].id] && todo[k].row.status == Active
    requires forall j, k :: 0 <= j < k < |todo| ==> todo[j].id < todo[k].id
    ensures SweepRows(rows, todo, env, now, stamp)[i] ==
      if exists k :: 0 <= k < |todo| && todo[k].id == i then PassRow(rows[i], env, now, stamp) else rows[i]
    decreases |todo|
  {
    if todo != [] {
      var s := todo[0];
      var after :=
        if now >= Deadline(s.row)
        then AdvanceRows(rows, s, env.graphOf(s.row.storyId), env.unsubscribed(s.row.user), stamp)
        else rows;
      assert forall j :: 0 <= j < |rows| && j != s.id ==> after[j] == rows[j];
      assert after[s.id] == PassRow(rows[s.id], env, now, stamp);
      SweepRowsAt(after, todo[1..], env, now, stamp, i);
      if k :| 0 <= k < |todo| && todo[k].id == i {
        if k > 0 {
          assert todo[1..][k - 1].id == i;
        }
      }
    }
  }

  lemma SweepIsPass(rows: seq<Row>, todo: seq<Snap>, env: Env, now: int, stamp: int)
    requires todo == ActiveSnaps(rows)
    ensures forall i :: 0 <= i < |rows| ==>
      SweepRows(rows, todo, env, now, stamp)[i] == PassRow(rows[i], env, now, stamp)
  {
    forall i | 0 <= i < |rows|
      ensures SweepRows(rows, todo, env, now, stamp)[i] == PassRow(rows[i], env, now, stamp)
    {
      SweepRowsAt(rows, todo, env, now, stamp, i);
    }
  }
}
