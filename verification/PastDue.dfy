/**
  The past-due clock of a tenant: which billing events set it, which clear it, and that retries, duplicates
  and failed writes neither move nor lose it.
*/
module PastDue {
  import opened Wrappers

  datatype Event =
    | CheckoutCompleted(trialRunning: bool)
    | SubscriptionTrialing
    | SubscriptionActive
    | SubscriptionPastDue
    | SubscriptionEnded
    | SubscriptionIncomplete
    | PaymentFailed
    | OtherEvent

  /**
    One delivery of an event. The four flags are the outcomes of the writes it attempts, in order: recording
    the event, the handler's first and second write, and marking the event processed.
  */
  datatype Delivery = Delivery(id: string, event: Event, at: int, recorded: bool, first: bool, second: bool, marked: bool)

  datatype Status = Trial | Active | PastDueStatus | CanceledStatus

  datatype Dunning = Dunning(status: Status, pastDueAt: Option<int>, processed: set<string>)

  function Stamped(d: Dunning, at: int): Dunning {
    if d.pastDueAt.None? then d.(pastDueAt := Some(at)) else d
  }

  /** The handlers, write by write. The flag says whether the handler returned an error. */
  function Handle(s: Dunning, d: Delivery): (Dunning, bool) {
    match d.event
    case CheckoutCompleted(trial) =>
      if d.first then (s.(status := if trial then Trial else Active, pastDueAt := None), false) else (s, true)
    case SubscriptionTrialing => if d.first then (s.(status := Trial, pastDueAt := None), false) else (s, true)
    case SubscriptionActive => if d.first then (s.(status := Active, pastDueAt := None), false) else (s, true)
    case SubscriptionPastDue =>
      if !d.first then (s, true)
      else if !d.second then (Stamped(s, d.at), true)
      else (Stamped(s, d.at).(status := PastDueStatus), false)
    case SubscriptionEnded => if d.first then (s.(status := CanceledStatus), false) else (s, true)
    case SubscriptionIncomplete => (s, false)
    case PaymentFailed =>
      if !d.first then (s, true)
      else if !d.second then (s.(status := PastDueStatus), true)
      else (Stamped(s.(status := PastDueStatus), d.at), false)
    case OtherEvent => (s, false)
  }

  predicate Skipped(s: Dunning, d: Delivery) {
    d.id != "" && (!d.recorded || d.id in s.processed)
  }

  function Deliver(s: Dunning, d: Delivery): Dunning {
    if Skipped(s, d) then s
    else
      var (s', failed) := Handle(s, d);
      if !failed && d.id != "" && d.marked then s'.(processed := s'.processed + {d.id}) else s'
  }

  function DeliverAll(s: Dunning, ds: seq<Delivery>): Dunning {
    if ds == [] then s else Deliver(DeliverAll(s, ds[..|ds| - 1]), ds[|ds| - 1])
  }

  // ---------- The clock, described without the state machine ----------

  /** What a delivery that was not skipped reports: the tenant is late, or the tenant is clear again. */
  datatype Report = Late(at: int) | Clear | Nothing

  function ReportOf(s: Dunning, d: Delivery): Report {
    if Skipped(s, d) || !d.first then Nothing
    else if d.event.CheckoutCompleted? || d.event.SubscriptionTrialing? || d.event.SubscriptionActive? then Clear
    else if d.event.SubscriptionPastDue? then Late(d.at)
    else if d.event.PaymentFailed? && d.second then Late(d.at)
    else Nothing
  }

  function Reports(s: Dunning, ds: seq<Delivery>): (r: seq<Report>)
    ensures |r| == |ds|
  {
    if ds == [] then []
    else
      var before := ds[..|ds| - 1];
      Reports(s, before) + [ReportOf(DeliverAll(s, before), ds[|ds| - 1])]
  }

  predicate ClearBetween(r: seq<Report>, lo: int, hi: int) {
    exists m :: lo <= m < hi && 0 <= m < |r| && r[m].Clear?
  }

  /** Report `k` is the first late report since the last clear one, and nothing cleared it afterwards. */
  predicate FirstLate(r: seq<Report>, k: nat) {
    && k < |r| && r[k].Late?
    && !ClearBetween(r, k, |r|)
    && forall j :: 0 <= j < k && r[j].Late? ==> ClearBetween(r, j, k)
  }

  ghost predicate ClockIs(r: seq<Report>, clock: Option<int>) {
    match clock
    case None => forall k :: 0 <= k < |r| && r[k].Late? ==> ClearBetween(r, k, |r|)
    case Some(t) => exists k: nat :: FirstLate(r, k) && r[k].at == t
  }

  lemma ClearWidens(r: seq<Report>, x: Report, lo: int, hi: int)
    requires hi <= |r|
    ensures ClearBetween(r + [x], lo, hi) == ClearBetween(r, lo, hi)
  {
    if m :| lo <= m < hi && 0 <= m < |r| && r[m].Clear? {
      assert (r + [x])[m].Clear?;
    }
    if m :| lo <= m < hi && 0 <= m < |r + [x]| && (r + [x])[m].Clear? {
      assert r[m].Clear?;
    }
  }

  lemma ClearAtEnd(r: seq<Report>, x: Report, lo: int)
    requires 0 <= lo <= |r|
    ensures ClearBetween(r + [x], lo, |r| + 1) == (ClearBetween(r, lo, |r|) || x.Clear?)
  {
    ClearWidens(r, x, lo, |r|);
    if x.Clear? {
      assert (r + [x])[|r|].Clear?;
    }
    if m :| lo <= m < |r| + 1 && 0 <= m < |r + [x]| && (r + [x])[m].Clear? {
      if m < |r| {
        assert r[m].Clear?;
      }
    }
  }

  lemma FirstLateExtends(r: seq<Report>, x: Report, k: nat)
    requires FirstLate(r, k) && !x.Clear?
    ensures FirstLate(r + [x], k)
  {
    ClearAtEnd(r, x, k);
    forall j | 0 <= j < k && (r + [x])[j].Late?
      ensures ClearBetween(r + [x], j, k)
    {
      ClearWidens(r, x, j, k);
    }
  }

  lemma LateStartsClock(r: seq<Report>, x: Report)
    requires ClockIs(r, None) && x.Late?
    ensures FirstLate(r + [x], |r|)
  {
    forall j | 0 <= j < |r| && (r + [x])[j].Late?
      ensures ClearBetween(r + [x], j, |r|)
    {
      ClearWidens(r, x, j, |r|);
    }
    ClearAtEnd(r, x, |r|);
    assert !ClearBetween(r, |r|, |r|);
  }

  lemma StaysStopped(r: seq<Report>, x: Report)
    requires x.Clear? || (x.Nothing? && ClockIs(r, None))
    ensures ClockIs(r + [x], None)
  {
    forall k | 0 <= k < |r + [x]| && (r + [x])[k].Late?
      ensures ClearBetween(r + [x], k, |r + [x]|)
    {
      ClearAtEnd(r, x, k);
    }
  }

  lemma DeliverReports(s: Dunning, d: Delivery)
    ensures Deliver(s, d).pastDueAt ==
      match ReportOf(s, d)
      case Late(at) => if s.pastDueAt.None? then Some(at) else s.pastDueAt
      case Clear => None
      case Nothing => s.pastDueAt
  {
  }

  /**
    After any sequence of deliveries, with duplicates, retries and failed writes: past_due_at is the time of
    the first late report since the last clear one, and unset when there is none.
  */
  lemma {:induction false} ClockIsFirstLate(s: Dunning, ds: seq<Delivery>)
    requires s.pastDueAt == None
    ensures ClockIs(Reports(s, ds), DeliverAll(s, ds).pastDueAt)
  {
    if ds != [] {
      var before := ds[..|ds| - 1];
      ClockIsFirstLate(s, before);
      var s1, d, r := DeliverAll(s, before), ds[|ds| - 1], Reports(s, before);
      var x := ReportOf(s1, d);
      DeliverReports(s1, d);
      if x.Clear? || (x.Nothing? && s1.pastDueAt.None?) {
        StaysStopped(r, x);
      } else if s1.pastDueAt.None? {
        LateStartsClock(r, x);
        assert (r + [x])[|r|].at == x.at;
      } else {
        var k: nat :| FirstLate(r, k) && r[k].at == s1.pastDueAt.value;
        FirstLateExtends(r, x, k);
        assert (r + [x])[k].at == r[k].at;
      }
    }
  }

  /** Once the clock runs, it keeps its time through any deliveries none of which reports clear. */
  lemma {:induction false} NoRetryMovesTheClock(s: Dunning, ds: seq<Delivery>)
    requires s.pastDueAt.Some?
    requires forall k :: 0 <= k < |ds| ==> !Reports(s, ds)[k].Clear?
    ensures DeliverAll(s, ds).pastDueAt == s.pastDueAt
  {
    if ds != [] {
      var before := ds[..|ds| - 1];
      assert forall k :: 0 <= k < |before| ==> Reports(s, before)[k] == Reports(s, ds)[k];
      NoRetryMovesTheClock(s, before);
      DeliverReports(DeliverAll(s, before), ds[|ds| - 1]);
      assert Reports(s, ds)[|before|] == ReportOf(DeliverAll(s, before), ds[|ds| - 1]);
    }
  }

  // ---------- Duplicates ----------

  lemma {:induction false} ProcessedGrows(s: Dunning, ds: seq<Delivery>, id: string)
    requires id in s.processed
    ensures id in DeliverAll(s, ds).processed
  {
    if ds != [] {
      ProcessedGrows(s, ds[..|ds| - 1], id);
    }
  }

  /** A delivery of an event already marked processed changes nothing, whatever came in between. */
  lemma DuplicateIsInert(s: Dunning, ds: seq<Delivery>, d: Delivery)
    requires d.id != "" && d.id in s.processed
    ensures Deliver(DeliverAll(s, ds), d) == DeliverAll(s, ds)
  {
    ProcessedGrows(s, ds, d.id);
  }

  /** The handler returned an error. This depends on the delivery alone. */
  predicate Fails(d: Delivery) {
    match d.event
    case SubscriptionPastDue => !d.first || !d.second
    case PaymentFailed => !d.first || !d.second
    case SubscriptionIncomplete => false
    case OtherEvent => false
    case _ => !d.first
  }

  lemma HandleFails(s: Dunning, d: Delivery)
    ensures Handle(s, d).1 == Fails(d) && Handle(s, d).0.processed == s.processed
  {
  }

  predicate Redelivery(d: Delivery, again: Delivery) {
    again.id == d.id && again.event == d.event
  }

  /** What the delivery would report if it were not skipped. */
  predicate ReportsSomething(d: Delivery) {
    d.first && (d.event.CheckoutCompleted? || d.event.SubscriptionTrialing? || d.event.SubscriptionActive?
                || d.event.SubscriptionPastDue? || (d.event.PaymentFailed? && d.second))
  }

  /** Delivered without an id, so never skipped: a failed payment, and a renewed subscription. */
  const ANOTHER_FAILURE := Delivery("", PaymentFailed, 0, true, true, true, true)
  const ANOTHER_RENEWAL := Delivery("", SubscriptionActive, 0, true, true, true, true)

  predicate MovesNoClock(s: Dunning, d: Delivery) {
    Deliver(s, d).pastDueAt == s.pastDueAt
  }

  lemma RedeliveryMovesClock(s: Dunning, d: Delivery) returns (between: seq<Delivery>)
    requires ReportsSomething(d) && !Skipped(s, d)
    ensures !MovesNoClock(DeliverAll(s, between), d)
  {
    var x := if d.event.SubscriptionPastDue? || d.event.PaymentFailed? then ANOTHER_RENEWAL else ANOTHER_FAILURE;
    between := [x];
    assert between[..0] == [];
    assert DeliverAll(s, between) == Deliver(DeliverAll(s, []), x) == Deliver(s, x);
    HandleFails(s, x);
    assert Skipped(Deliver(s, x), d) == Skipped(s, d);
    DeliverReports(Deliver(s, x), d);
  }

  /** The event was processed before, or this delivery of it is handled without an error and its mark is written. */
  predicate MarkWritten(s: Dunning, d: Delivery) {
    d.id in s.processed || (!Skipped(s, d) && !Fails(d) && d.marked)
  }

  lemma MarkedIff(s: Dunning, d: Delivery)
    ensures d.id != "" ==> (d.id in Deliver(s, d).processed <==> MarkWritten(s, d))
  {
    HandleFails(s, d);
  }

  /**
    Exactly when a redelivered event can no longer move the clock, whatever is delivered in between: it has an id and its
    processed mark was written, or it cannot be recorded, or it has nothing to report.
  */
  lemma RedeliveryIsInertIff(s: Dunning, d: Delivery, again: Delivery)
    requires Redelivery(d, again)
    ensures (forall between :: MovesNoClock(DeliverAll(Deliver(s, d), between), again))
      <==> (d.id != "" && (MarkWritten(s, d) || !again.recorded)) || !ReportsSomething(again)
  {
    var t := Deliver(s, d);
    MarkedIff(s, d);
    if Skipped(t, again) || !ReportsSomething(again) {
      forall between
        ensures MovesNoClock(DeliverAll(t, between), again)
      {
        if again.id != "" && again.id in t.processed {
          ProcessedGrows(t, between, again.id);
        }
        DeliverReports(DeliverAll(t, between), again);
      }
    } else {
      var between := RedeliveryMovesClock(t, again);
      assert !MovesNoClock(DeliverAll(t, between), again);
    }
  }

  // ---------- A stream without its duplicates ----------

  /** Delivered with an id, recorded, handled without an error and marked processed. */
  predicate Completes(d: Delivery) {
    d.id != "" ==> d.recorded && !Fails(d) && d.marked
  }

  function Ids(ds: seq<Delivery>): set<string> {
    set k | 0 <= k < |ds| && ds[k].id != "" :: ds[k].id
  }

  /** Each event once, as it was delivered first. Deliveries without an id are all kept. */
  function WithoutDuplicates(ds: seq<Delivery>): seq<Delivery> {
    if ds == [] then []
    else
      var before, d := ds[..|ds| - 1], ds[|ds| - 1];
      WithoutDuplicates(before) + if d.id in Ids(before) then [] else [d]
  }

  lemma {:induction false} CompletedAreProcessed(s: Dunning, ds: seq<Delivery>)
    requires forall k :: 0 <= k < |ds| ==> Completes(ds[k])
    ensures DeliverAll(s, ds).processed == s.processed + Ids(ds)
  {
    if ds != [] {
      var before, d := ds[..|ds| - 1], ds[|ds| - 1];
      CompletedAreProcessed(s, before);
      HandleFails(DeliverAll(s, before), d);
      IdsSnoc(ds);
    }
  }

  lemma IdsSnoc(ds: seq<Delivery>)
    requires ds != []
    ensures var d := ds[|ds| - 1]; Ids(ds) == Ids(ds[..|ds| - 1]) + if d.id == "" then {} else {d.id}
  {
    var before, d := ds[..|ds| - 1], ds[|ds| - 1];
    forall x | x in Ids(ds)
      ensures x in Ids(before) || x == d.id
    {
      var k :| 0 <= k < |ds| && ds[k].id != "" && ds[k].id == x;
      assert k < |before| ==> before[k].id == x;
    }
    forall x | x in Ids(before)
      ensures x in Ids(ds)
    {
      var k :| 0 <= k < |before| && before[k].id != "" && before[k].id == x;
      assert ds[k].id == x;
    }
  }

  /** If every processed mark is written, the duplicates of a stream might as well never have been sent. */
  lemma {:induction false} DuplicatesChangeNothing(s: Dunning, ds: seq<Delivery>)
    requires forall k :: 0 <= k < |ds| ==> Completes(ds[k])
    ensures DeliverAll(s, WithoutDuplicates(ds)) == DeliverAll(s, ds)
  {
    if ds != [] {
      var before, d := ds[..|ds| - 1], ds[|ds| - 1];
      DuplicatesChangeNothing(s, before);
      CompletedAreProcessed(s, before);
      var once := WithoutDuplicates(before);
      if d.id in Ids(before) {
        assert WithoutDuplicates(ds) == once + [] == once;
      } else {
        assert (once + [d])[..|once + [d]| - 1] == once;
      }
    }
  }

  /** The tenant document and the processed events, updated in place as the webhook does. */
  class Webhook {
    var state: Dunning

    constructor ()
      ensures state == Dunning(Active, None, {})
    {
      state := Dunning(Active, None, {});
    }

    method StampPastDueIfUnset(at: int)
      modifies this
      ensures state == Stamped(old(state), at)
    {
      if state.pastDueAt.None? {
        state := state.(pastDueAt := Some(at));
      }
    }

    method SubscriptionUpdated(d: Delivery) returns (failed: bool)
      requires d.event.SubscriptionTrialing? || d.event.SubscriptionActive? || d.event.SubscriptionPastDue?
               || d.event.SubscriptionEnded? || d.event.SubscriptionIncomplete?
      modifies this
      ensures (state, failed) == Handle(old(state), d)
    {
      var status, clear := state.status, false;
      match d.event {
        case SubscriptionTrialing => status, clear := Trial, true;
        case SubscriptionActive => status, clear := Active, true;
        case SubscriptionPastDue =>
          status := PastDueStatus;
          if !d.first {
            return true;
          }
          StampPastDueIfUnset(d.at);
          if !d.second {
            return true;
          }
        case SubscriptionEnded => status := CanceledStatus;
        case _ => return false;
      }
      if !d.first {
        return true;
      }
      state := state.(status := status);
      if clear {
        state := state.(pastDueAt := None);
      }
      failed := false;
    }

    method InvoicePaymentFailed(d: Delivery) returns (failed: bool)
      requires d.event.PaymentFailed?
      modifies this
      ensures (state, failed) == Handle(old(state), d)
    {
      if !d.first {
        return true;
      }
      state := state.(status := PastDueStatus);
      if !d.second {
        return true;
      }
      StampPastDueIfUnset(d.at);
      failed := false;
    }

    method Receive(d: Delivery)
      modifies this
      ensures state == Deliver(old(state), d)
    {
      if d.id != "" && (!d.recorded || d.id in state.processed) {
        return;
      }
      var failed := false;
      match d.event {
        case CheckoutCompleted(trial) =>
          failed := !d.first;
          if d.first {
            state := state.(status := if trial then Trial else Active, pastDueAt := None);
          }
        case PaymentFailed => failed := InvoicePaymentFailed(d);
        case OtherEvent =>
        case _ => failed := SubscriptionUpdated(d);
      }
      if !failed && d.id != "" && d.marked {
        state := state.(processed := state.processed + {d.id});
      }
    }

    method ReceiveAll(ds: seq<Delivery>)
      modifies this
      ensures state == DeliverAll(old(state), ds)
    {
      for k := 0 to |ds|
        invariant state == DeliverAll(old(state), ds[..k])
      {
        Receive(ds[k]);
        assert ds[..k + 1][..k] == ds[..k];
      }
      assert ds[..|ds|] == ds;
    }
  }

  // ---------- The status, described without the state machine ----------

  /** The status an event stands for, if it stands for one. */
  function StatusFor(e: Event): Option<Status> {
    match e
    case CheckoutCompleted(trial) => Some(if trial then Trial else Active)
    case SubscriptionTrialing => Some(Trial)
    case SubscriptionActive => Some(Active)
    case SubscriptionPastDue => Some(PastDueStatus)
    case PaymentFailed => Some(PastDueStatus)
    case SubscriptionEnded => Some(CanceledStatus)
    case _ => None
  }

  /** A delivery that is not skipped, and whose status is written: by the second write of a late subscription, else by the first. */
  predicate SetsStatus(s: Dunning, d: Delivery) {
    !Skipped(s, d) && d.first && StatusFor(d.event).Some? && (d.event.SubscriptionPastDue? ==> d.second)
  }

  predicate SetsAt(s: Dunning, ds: seq<Delivery>, k: nat)
    requires k < |ds|
  {
    SetsStatus(DeliverAll(s, ds[..k]), ds[k])
  }

  /** After any deliveries the tenant's status is that of the last event whose status was written... */
  lemma {:induction false} StatusIsLastWritten(s: Dunning, ds: seq<Delivery>, k: nat)
    requires k < |ds| && SetsAt(s, ds, k) && forall j: nat :: k < j < |ds| ==> !SetsAt(s, ds, j)
    ensures Some(DeliverAll(s, ds).status) == StatusFor(ds[k].event)
    decreases |ds|
  {
    hide Deliver;
    var n := |ds| - 1;
    var before := ds[..n];
    OneDelivery(DeliverAll(s, before), ds[n]);
    if k < n {
      assert SetsAt(s, ds, n) == SetsStatus(DeliverAll(s, before), ds[n]);
      forall j: nat | j < n
        ensures SetsAt(s, before, j) == SetsAt(s, ds, j)
      {
        SameBefore(s, ds, j);
      }
      StatusIsLastWritten(s, before, k);
    }
  }

  /** ... and what it was, if none was. */
  lemma {:induction false} StatusIsKept(s: Dunning, ds: seq<Delivery>)
    requires forall j: nat :: j < |ds| ==> !SetsAt(s, ds, j)
    ensures DeliverAll(s, ds).status == s.status
    decreases |ds|
  {
    hide Deliver;
    if ds != [] {
      var n := |ds| - 1;
      assert SetsAt(s, ds, n) == SetsStatus(DeliverAll(s, ds[..n]), ds[n]);
      OneDelivery(DeliverAll(s, ds[..n]), ds[n]);
      forall j: nat | j < n
        ensures SetsAt(s, ds[..n], j) == SetsAt(s, ds, j)
      {
        SameBefore(s, ds, j);
      }
      StatusIsKept(s, ds[..n]);
    }
  }

  lemma SameBefore(s: Dunning, ds: seq<Delivery>, j: nat)
    requires j < |ds| - 1
    ensures SetsAt(s, ds[..|ds| - 1], j) == SetsAt(s, ds, j)
  {
    assert ds[..|ds| - 1][..j] == ds[..j];
  }

  lemma OneDelivery(s: Dunning, d: Delivery)
    ensures SetsStatus(s, d) ==> Some(Deliver(s, d).status) == StatusFor(d.event)
    ensures !SetsStatus(s, d) ==> Deliver(s, d).status == s.status
  {
  }
}
