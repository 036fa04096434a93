/**
  Where the settlement of a plan change falls short, by concrete runs, and the exact conditions under which it
  does not.
*/
module PlanFindings {
  import opened Wrappers
  import opened PlanModel
  import opened PlanProtocol
  import opened PlanInvariants
  import opened PlanTheorems

  // ---------- Withdrawing a downgrade ----------

  const CATALOG := Catalog(
    map["basic" := Plan(10, "p-basic"), "pro" := Plan(20, "p-pro"), "max" := Plan(30, "p-max")],
    map["p-basic" := "basic", "p-pro" := "pro", "p-max" := "max"])

  const BEGIN := State(Sub("p-pro", false, 100), Tenant("pro", NoChange, "", None), [], 0, Idle, [])

  const DOWNGRADE := Intent(ChangePlan, "pro", "basic", Scheduled, 0, 100, "", false)

  lemma Extend(labels: seq<Label>, l: Label) returns (longer: seq<Label>)
    ensures longer == labels + [l] && Run(CATALOG, BEGIN, longer) == Apply(CATALOG, Run(CATALOG, BEGIN, labels), l)
  {
    longer := labels + [l];
    RunAppend(CATALOG, BEGIN, labels, [l]);
    RunFirst(CATALOG, Run(CATALOG, BEGIN, labels), l, []);
    assert [l] + [] == [l];
  }

  lemma BeginIsAStart()
    ensures Consistent(CATALOG) && Start(CATALOG, BEGIN)
  {
  }

  // The states of the runs below.
  const TO_BASIC := Tenant("pro", ChangePlan, "basic", Some(100))
  const BASIC := Tenant("basic", NoChange, "", None)

  function Booked(sub: Sub, tenant: Tenant, pc: Pc, applied: seq<Applied>): State {
    State(sub, tenant, [DOWNGRADE], 200, pc, applied)
  }

  const PRO := Sub("p-pro", false, 100)
  const CHEAP := Sub("p-basic", false, 100)
  const DEAR := Sub("p-max", false, 100)
  const ONCE := [Applied(0, 200)]

  lemma BeginRuns()
    ensures Run(CATALOG, BEGIN, []) == BEGIN
  {
  }

  /** A downgrade is scheduled, falls due, and the sweep opens its due phase. */
  lemma DowngradeFallsDue() returns (r: seq<Label>)
    ensures Run(CATALOG, BEGIN, r) == Booked(PRO, TO_BASIC, Due(200, [0]), [])
  {
    BeginRuns();
    hide Run;
    r := Extend([], RequestPlan("basic", true));
    var s1 := State(PRO, TO_BASIC, [], 0, DownInsert("basic", 100), []);
    assert Apply(CATALOG, BEGIN, RequestPlan("basic", true)) == s1;
    r := Extend(r, Step(true, true));
    var s2 := s1.(intents := [DOWNGRADE], pc := Idle);
    assert Apply(CATALOG, s1, Step(true, true)) == s2;
    r := ThenSweep(r, s2.(clock := 0), 200);
  }

  lemma ThenSweep(q: seq<Label>, s: State, now: int) returns (r: seq<Label>)
    requires Run(CATALOG, BEGIN, q) == s && s.pc.Idle? && s.clock <= now && |s.intents| > 0 && IsDue(s.intents[0], now)
    ensures Run(CATALOG, BEGIN, r) == s.(clock := now, pc := Due(now, [0]))
    ensures r == q + [Tick(now), SweepStale(0, []), SweepDue([0])]
  {
    hide Run;
    r := Extend(q, Tick(now));
    assert Apply(CATALOG, s, Tick(now)) == s.(clock := now);
    r := Extend(r, SweepStale(0, []));
    assert Apply(CATALOG, s.(clock := now), SweepStale(0, [])) == s.(clock := now, pc := Recon([]));
    r := Extend(r, SweepDue([0]));
    assert [0][0] == 0 && AreDue(s.intents, [0], now);
    assert Apply(CATALOG, s.(clock := now, pc := Recon([])), SweepDue([0])) == s.(clock := now, pc := Due(now, [0]));
  }

  lemma DueStepAtStripe(s: State)
    requires s.pc == Due(200, [0]) && |s.intents| > 0 && s.intents[0] == DOWNGRADE && s.sub.price != "p-basic"
    ensures Apply(CATALOG, s, Step(true, true))
      == s.(sub := s.sub.(price := "p-basic"), pc := DueTenant(0, 200, []), applied := s.applied + ONCE)
  {
    assert CATALOG.plans["basic"].priceId == "p-basic" && [0][1..] == [];
  }

  /** The sweep changes the price at Stripe and crashes before it writes the tenant. */
  lemma SweepCrashesAfterStripe() returns (r: seq<Label>)
    ensures Run(CATALOG, BEGIN, r) == Booked(CHEAP, TO_BASIC, Idle, ONCE)
  {
    hide Run;
    r := DowngradeFallsDue();
    r := Extend(r, Step(true, true));
    DueStepAtStripe(Booked(PRO, TO_BASIC, Due(200, [0]), []));
    assert [] + ONCE == ONCE;
    r := Extend(r, Crash);
  }

  lemma WithdrawnAfterCrash() returns (r: seq<Label>)
    ensures Run(CATALOG, BEGIN, r) == Booked(CHEAP, Cleared(TO_BASIC), Idle, ONCE).(intents := [DOWNGRADE.(status := Canceled)])
  {
    hide Run;
    r := SweepCrashesAfterStripe();
    var s := Booked(CHEAP, TO_BASIC, WithdrawMark([0]), ONCE);
    r := Extend(r, RequestWithdraw([0]));
    assert Apply(CATALOG, Booked(CHEAP, TO_BASIC, Idle, ONCE), RequestWithdraw([0])) == s;
    hide DoStep;
    r := Extend(r, Step(true, true));
    r := Extend(r, Step(true, true));
    r := Extend(r, Step(true, true));
    WithdrawalOfOne(s);
  }

  lemma WithdrawalOfOne(s: State)
    requires s.pc == WithdrawMark([0]) && s.intents == [DOWNGRADE]
    ensures Next(CATALOG, Next(CATALOG, Next(CATALOG, s)))
      == s.(intents := [DOWNGRADE.(status := Canceled)], tenant := Cleared(s.tenant), pc := Idle)
  {
    WithdrawalStep(CATALOG, s);
    assert [0][1..] == [] && [DOWNGRADE][0 := DOWNGRADE.(status := Canceled)] == [DOWNGRADE.(status := Canceled)];
    WithdrawalEnds(s.(intents := [DOWNGRADE.(status := Canceled)], pc := WithdrawMark([])));
    hide Next;
  }

  lemma WithdrawalEnds(s: State)
    requires s.pc == WithdrawMark([])
    ensures Next(CATALOG, Next(CATALOG, s)) == s.(tenant := Cleared(s.tenant), pc := Idle)
  {
    assert Next(CATALOG, s) == s.(pc := WithdrawClear);
  }

  predicate SilentlyDiverged(c: Catalog, s: State) {
    s.pc.Idle? && !Safe(c, s) && s.tenant.change == NoChange
  }

  /**
    A tenant who withdraws the due downgrade after such a crash keeps the higher tier, pays the lower price,
    and no intent is left to tell.
  */
  lemma WithdrawalAfterCrashDivergesSilently()
    ensures Consistent(CATALOG) && Start(CATALOG, BEGIN)
    ensures exists r :: SilentlyDiverged(CATALOG, Run(CATALOG, BEGIN, r))
  {
    BeginIsAStart();
    hide Run;
    var r := WithdrawnAfterCrash();
    assert SilentlyDiverged(CATALOG, Run(CATALOG, BEGIN, r));
  }

  // ---------- Replaying a downgrade ----------

  /** The downgrade is applied everywhere, but the sweep crashes before it stamps the intent. */
  lemma SweepCrashesBeforeStamp() returns (r: seq<Label>)
    ensures Run(CATALOG, BEGIN, r) == Booked(CHEAP, BASIC, Idle, ONCE)
  {
    hide Run;
    r := DowngradeFallsDue();
    r := Extend(r, Step(true, true));
    var s := Booked(CHEAP, TO_BASIC, DueTenant(0, 200, []), ONCE);
    DueStepAtStripe(Booked(PRO, TO_BASIC, Due(200, [0]), []));
    assert [] + ONCE == ONCE;
    r := Extend(r, Step(true, true));
    assert Apply(CATALOG, s, Step(true, true)) == Booked(CHEAP, BASIC, DueResolve(0, 200, []), ONCE);
    r := Extend(r, Crash);
  }

  const UPGRADE := Intent(ChangePlan, "basic", "max", Confirmed, 200, 0, "max", false)

  const UPGRADED := State(DEAR, Tenant("max", NoChange, "", None), [DOWNGRADE, UPGRADE], 200, Idle, ONCE)

  /** The tenant then upgrades, without a fault: both stores agree on the new tier. */
  lemma UpgradeAfterwards() returns (r: seq<Label>)
    ensures Run(CATALOG, BEGIN, r) == UPGRADED
  {
    hide Run;
    r := SweepCrashesBeforeStamp();
    r := Extend(r, RequestPlan("max", true));
    var hoped := UPGRADE.(status := Pending, resolvedTier := "");
    var s1 := UPGRADED.(sub := CHEAP, tenant := BASIC, intents := [DOWNGRADE, hoped], pc := UpStripe(1, "max"));
    assert Apply(CATALOG, Booked(CHEAP, BASIC, Idle, ONCE), RequestPlan("max", true)) == s1;
    r := Extend(r, Step(true, true));
    var s2 := s1.(sub := DEAR, pc := UpTenant(1, "max"));
    assert Apply(CATALOG, s1, Step(true, true)) == s2;
    r := Extend(r, Step(true, true));
    var s3 := s2.(tenant := UPGRADED.tenant, pc := UpResolve(1, "max"));
    assert Apply(CATALOG, s2, Step(true, true)) == s3;
    r := Extend(r, Step(true, true));
    assert Apply(CATALOG, s3, Step(true, true)) == UPGRADED;
  }

  predicate RunLosesUpgrade(r: seq<Label>, more: seq<Label>) {
    var s, s' := Run(CATALOG, BEGIN, r), Run(CATALOG, BEGIN, r + more);
    && s.pc.Idle? && InSync(CATALOG, s) && s.tenant.tier == "max" && AsksForNoPlan(more)
    && s'.tenant.tier == "basic" && s'.sub.price == "p-basic"
  }

  /** The next sweep finds the old intent still scheduled and takes the upgraded tenant down again. */
  lemma UnstampedDowngradeUndoesUpgrade()
    ensures exists r, more :: RunLosesUpgrade(r, more)
  {
    hide Run;
    var r := UpgradeAfterwards();
    var q := ThenSweep(r, UPGRADED, 200);
    var s1 := UPGRADED.(pc := Due(200, [0]));
    q := Extend(q, Step(true, true));
    var s2 := s1.(sub := CHEAP, pc := DueTenant(0, 200, []), applied := ONCE + ONCE);
    DueStepAtStripe(s1);
    assert Apply(CATALOG, s1, Step(true, true)) == s2;
    q := Extend(q, Step(true, true));
    assert Apply(CATALOG, s2, Step(true, true)) == s2.(tenant := BASIC, pc := DueResolve(0, 200, []));
    var more := [Tick(200), SweepStale(0, []), SweepDue([0])] + [Step(true, true), Step(true, true)];
    assert q == r + more;
    assert RunLosesUpgrade(r, more);
  }

  // ---------- When a price stays ----------

  predicate AsksForNoPlan(labels: seq<Label>) {
    forall k :: 0 <= k < |labels| ==> !labels[k].RequestPlan?
  }

  predicate HasPrice(c: Catalog, t: Tier, price: Price) {
    t in c.plans && c.plans[t].priceId == price
  }

  /** Every scheduled downgrade is to a tier at this price. */
  predicate SchedulesOnly(c: Catalog, intents: seq<Intent>, price: Price) {
    forall k :: 0 <= k < |intents| && ScheduledPlan(intents[k]) ==> HasPrice(c, intents[k].to, price)
  }

  predicate Settled(c: Catalog, s: State, price: Price) {
    s.sub.price == price && SchedulesOnly(c, s.intents, price) && !InUpgrade(s.pc) && !s.pc.DownInsert?
  }

  /** No intent of this kind and status comes into being or changes. */
  lemma ScheduledComeFromScheduled(c: Catalog, s: State, ok: bool, ok2: bool)
    requires Shape(c, s) && !InUpgrade(s.pc) && !s.pc.DownInsert?
    ensures
      var s' := DoStep(c, s, ok, ok2);
      forall k :: 0 <= k < |s'.intents| && ScheduledPlan(s'.intents[k]) ==>
        k < |s.intents| && ScheduledPlan(s.intents[k]) && s'.intents[k].to == s.intents[k].to
  {
    hide Shape, TierForPrice;
    SteadyStep(c, s, ok, ok2);
    NewOnesAreNoPlans(c, s, ok, ok2);
    var s' := DoStep(c, s, ok, ok2);
    hide DoStep;
    forall k | 0 <= k < |s'.intents| && ScheduledPlan(s'.intents[k])
      ensures k < |s.intents| && ScheduledPlan(s.intents[k]) && s'.intents[k].to == s.intents[k].to
    {
      if k < |s.intents| {
        assert IntentEvolves(s.intents[k], s'.intents[k]);
      }
    }
  }

  lemma NewOnesAreNoPlans(c: Catalog, s: State, ok: bool, ok2: bool)
    requires !InUpgrade(s.pc) && !s.pc.DownInsert?
    ensures
      var s' := DoStep(c, s, ok, ok2);
      forall k :: |s.intents| <= k < |s'.intents| ==> s'.intents[k].kind != ChangePlan
  {
    hide Resolve, MarkOne;
  }

  /** A step of a settled state: the due phase finds the price already there. */
  lemma SettledStep(c: Catalog, s: State, ok: bool, ok2: bool, price: Price)
    requires Shape(c, s) && Settled(c, s, price)
    ensures Settled(c, DoStep(c, s, ok, ok2), price)
  {
    hide SchedulesOnly;
    ScheduledComeFromScheduled(c, s, ok, ok2);
    SchedulesFewer(c, s.intents, DoStep(c, s, ok, ok2).intents, price);
    PriceIsThere(c, s, ok, ok2, price);
  }

  lemma SchedulesFewer(c: Catalog, xs: seq<Intent>, ys: seq<Intent>, price: Price)
    requires SchedulesOnly(c, xs, price)
    requires forall k :: 0 <= k < |ys| && ScheduledPlan(ys[k]) ==> k < |xs| && ScheduledPlan(xs[k]) && ys[k].to == xs[k].to
    ensures SchedulesOnly(c, ys, price)
  {
  }

  lemma PriceIsThere(c: Catalog, s: State, ok: bool, ok2: bool, price: Price)
    requires Shape(c, s) && Settled(c, s, price)
    ensures var s' := DoStep(c, s, ok, ok2); s'.sub.price == price && !InUpgrade(s'.pc) && !s'.pc.DownInsert?
  {
    if InDue(s.pc) {
      DuePriceIsThere(c, s, ok, ok2, price);
    } else {
      OthersLeavePrice(c, s, ok, ok2);
    }
  }

  lemma DuePriceIsThere(c: Catalog, s: State, ok: bool, ok2: bool, price: Price)
    requires Shape(c, s) && Settled(c, s, price) && InDue(s.pc)
    ensures var s' := DoDue(c, s, ok, ok2); s'.sub.price == price && InDue(s'.pc)
  {
    hide TargetsSellable, PendingArePlans, Resolve;
    if s.pc.Due? && s.pc.todo != [] {
      assert HasPrice(c, s.intents[s.pc.todo[0]].to, price);
    }
  }

  lemma OthersLeavePrice(c: Catalog, s: State, ok: bool, ok2: bool)
    requires !InUpgrade(s.pc) && !s.pc.DownInsert? && !InDue(s.pc)
    ensures var s' := DoStep(c, s, ok, ok2); s'.sub.price == s.sub.price && !InUpgrade(s'.pc) && !s'.pc.DownInsert?
  {
    hide Resolve, MarkOne, TierForPrice, Cleared;
    if InRecon(s.pc) {
      ReconLeavesPrice(c, s, ok);
    } else if InHook(s.pc) {
      HookLeavesPrice(c, s, ok);
    } else if InCancels(s.pc) {
      CancelsLeavePrice(s, ok, ok2);
    } else if InReactivate(s.pc) {
      ReactivateLeavesPrice(s, ok);
    }
  }

  predicate LeavesPrice(s: State, s': State) {
    s'.sub.price == s.sub.price && !InUpgrade(s'.pc) && !s'.pc.DownInsert?
  }

  lemma ReconLeavesPrice(c: Catalog, s: State, ok: bool)
    requires InRecon(s.pc)
    ensures LeavesPrice(s, DoRecon(c, s, ok))
  {
  }

  lemma HookLeavesPrice(c: Catalog, s: State, ok: bool)
    requires InHook(s.pc)
    ensures LeavesPrice(s, DoHook(c, s, ok))
  {
  }

  lemma CancelsLeavePrice(s: State, ok: bool, ok2: bool)
    requires InCancels(s.pc)
    ensures LeavesPrice(s, DoCancels(s, ok, ok2))
  {
  }

  lemma ReactivateLeavesPrice(s: State, ok: bool)
    requires InReactivate(s.pc)
    ensures LeavesPrice(s, DoReactivate(s, ok))
  {
  }

  lemma KeepSettled(c: Catalog, s: State, l: Label, price: Price)
    requires Shape(c, s) && Settled(c, s, price) && !l.RequestPlan?
    ensures Settled(c, Apply(c, s, l), price)
  {
    hide Shape, DoStep;
    if l.Step? {
      SettledStep(c, s, l.ok, l.ok2, price);
    }
  }

  lemma {:induction false} RunSettled(c: Catalog, s: State, labels: seq<Label>, price: Price)
    requires Consistent(c) && Shape(c, s) && Settled(c, s, price) && AsksForNoPlan(labels)
    ensures Run(c, s, labels).sub.price == price
    decreases |labels|
  {
    hide Shape, Apply, Settled;
    assert Settled(c, s, price) ==> s.sub.price == price by {
      SettledPrice(c, s, price);
    }
    if labels != [] {
      KeepSettled(c, s, labels[0], price);
      KeepShape(c, s, labels[0]);
      assert forall k :: 0 <= k < |labels[1..]| ==> labels[1..][k] == labels[k + 1];
      RunSettled(c, Apply(c, s, labels[0]), labels[1..], price);
    }
  }

  lemma SettledPrice(c: Catalog, s: State, price: Price)
    ensures Settled(c, s, price) ==> s.sub.price == price
  {
  }

  /** A sweep long enough from now finds the downgrade due and changes the price. */
  lemma DowngradeMovesPrice(c: Catalog, s: State, k: nat) returns (labels: seq<Label>)
    requires TargetsSellable(c, s.intents) && s.pc.Idle? && k < |s.intents| && ScheduledPlan(s.intents[k])
    requires !HasPrice(c, s.intents[k].to, s.sub.price)
    ensures AsksForNoPlan(labels) && Run(c, s, labels).sub.price != s.sub.price
  {
    var now := if s.clock <= s.intents[k].effectiveAt then s.intents[k].effectiveAt else s.clock;
    labels := [SweepStale(0, [])] + ([Tick(now)] + ([SweepDue([k])] + Steps(1)));
    var s1 := s.(pc := Recon([]));
    var s2 := s1.(clock := now);
    var s3 := s2.(pc := Due(now, [k]));
    SweepComesTo(c, s, k, now);
    assert Sellable(c, s.intents[k].to);
    DueMovesPrice(c, s3, k);
    hide Apply, DoStep, Run;
    RunFirst(c, s, SweepStale(0, []), [Tick(now)] + ([SweepDue([k])] + Steps(1)));
    RunFirst(c, s1, Tick(now), [SweepDue([k])] + Steps(1));
    RunFirst(c, s2, SweepDue([k]), Steps(1));
    RunOneStep(c, s3, 1);
    RunNothing(c, Next(c, s3));
  }

  lemma SweepComesTo(c: Catalog, s: State, k: nat, now: int)
    requires s.pc.Idle? && k < |s.intents| && s.clock <= now && IsDue(s.intents[k], now)
    ensures Apply(c, s, SweepStale(0, [])) == s.(pc := Recon([]))
    ensures Apply(c, s.(pc := Recon([])), Tick(now)) == s.(pc := Recon([]), clock := now)
    ensures Apply(c, s.(pc := Recon([]), clock := now), SweepDue([k])) == s.(pc := Due(now, [k]), clock := now)
  {
    hide DoStep, DoRequestPlan;
    assert AreDue(s.intents, [k], now);
  }

  lemma DueMovesPrice(c: Catalog, s: State, k: nat)
    requires s.pc.Due? && s.pc.todo == [k] && k < |s.intents| && Sellable(c, s.intents[k].to)
    ensures Next(c, s).sub.price == c.plans[s.intents[k].to].priceId
  {
  }

  lemma RunNothing(c: Catalog, s: State)
    ensures Run(c, s, Steps(0)) == s
  {
  }

  /**
    From a state between two handlers, no run without a further change of plan moves the price if and only if every
    downgrade still scheduled is to a tier at the current price. So an upgrade is safe from an unstamped downgrade
    exactly when none is scheduled to another price.
  */
  lemma PriceStaysIff(c: Catalog, s: State)
    requires Consistent(c) && Shape(c, s) && s.pc.Idle?
    ensures (forall labels :: AsksForNoPlan(labels) ==> Run(c, s, labels).sub.price == s.sub.price)
      <==> SchedulesOnly(c, s.intents, s.sub.price)
  {
    if SchedulesOnly(c, s.intents, s.sub.price) {
      assert Settled(c, s, s.sub.price);
      hide Shape, Run, Settled;
      forall labels | AsksForNoPlan(labels)
        ensures Run(c, s, labels).sub.price == s.sub.price
      {
        RunSettled(c, s, labels, s.sub.price);
      }
    } else {
      var k :| 0 <= k < |s.intents| && ScheduledPlan(s.intents[k]) && !HasPrice(c, s.intents[k].to, s.sub.price);
      var labels := DowngradeMovesPrice(c, s, k);
      assert AsksForNoPlan(labels) && Run(c, s, labels).sub.price != s.sub.price;
    }
  }
}
