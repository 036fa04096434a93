/**
  What each billing handler leaves at Stripe, in the tenant document and among the intents, when nothing interrupts it and
  when Stripe or the database refuses; and what can never be scheduled.
*/
module PlanHandlers {
  import opened Wrappers
  import opened PlanModel
  import opened PlanProtocol
  import opened PlanInvariants
  import opened PlanTheorems

  const YES := Step(true, true)
  const NO := Step(false, false)

  lemma Run2(c: Catalog, s: State, a: Label, b: Label)
    ensures Run(c, s, [a, b]) == Apply(c, Apply(c, s, a), b)
  {
    hide Apply;
    assert [a, b][1..] == [b] && [b][1..] == [];
    assert Run(c, s, [a, b]) == Run(c, Apply(c, s, a), [b]);
  }

  lemma Run3(c: Catalog, s: State, a: Label, b: Label, d: Label)
    ensures Run(c, s, [a, b, d]) == Apply(c, Apply(c, Apply(c, s, a), b), d)
  {
    hide Apply;
    assert [a, b, d][1..] == [b, d];
    Run2(c, Apply(c, s, a), b, d);
  }

  lemma Run4(c: Catalog, s: State, a: Label, b: Label, d: Label, e: Label)
    ensures Run(c, s, [a, b, d, e]) == Apply(c, Apply(c, Apply(c, Apply(c, s, a), b), d), e)
  {
    hide Apply;
    assert [a, b, d, e][1..] == [b, d, e];
    Run3(c, Apply(c, s, a), b, d, e);
  }

  // ---------- A change of plan ----------

  /** The tenant may ask for this plan now. */
  predicate MayChange(c: Catalog, s: State, target: Tier) {
    && s.pc.Idle? && Sellable(c, target) && s.tenant.tier in c.plans && s.tenant.tier != target && s.tenant.change == NoChange
  }

  predicate Cheaper(c: Catalog, target: Tier, tier: Tier)
    requires target in c.plans && tier in c.plans
  {
    c.plans[target].priceUSD < c.plans[tier].priceUSD
  }

  /** An upgrade: paid for and recorded at once, with a confirmed intent that says from where to where. */
  lemma UpgradeRuns(c: Catalog, s: State, target: Tier, fits: bool)
    requires Consistent(c) && MayChange(c, s, target) && !Cheaper(c, target, s.tenant.tier)
    ensures Run(c, s, [RequestPlan(target, fits), YES, YES, YES]) ==
      s.(sub := s.sub.(price := c.plans[target].priceId), tenant := s.tenant.(tier := target),
         intents := s.intents + [Intent(ChangePlan, s.tenant.tier, target, Confirmed, s.clock, 0, target, false)])
  {
    Run4(c, s, RequestPlan(target, fits), YES, YES, YES);
    var n := |s.intents|;
    var hope := Intent(ChangePlan, s.tenant.tier, target, Pending, s.clock, 0, "", false);
    var s1 := s.(intents := s.intents + [hope], pc := UpStripe(n, target));
    assert Apply(c, s, RequestPlan(target, fits)) == s1;
    var s2 := s1.(sub := s.sub.(price := c.plans[target].priceId), pc := UpTenant(n, target));
    assert Apply(c, s1, YES) == s2;
    var s3 := s2.(tenant := s.tenant.(tier := target), pc := UpResolve(n, target));
    assert Apply(c, s2, YES) == s3;
    assert (s.intents + [hope])[n := hope.(status := Confirmed, resolvedTier := target)]
      == s.intents + [hope.(status := Confirmed, resolvedTier := target)];
  }

  /** An upgrade Stripe refuses: nothing changed but a failed intent. */
  lemma RefusedUpgradeRuns(c: Catalog, s: State, target: Tier, fits: bool)
    requires Consistent(c) && MayChange(c, s, target) && !Cheaper(c, target, s.tenant.tier)
    ensures Run(c, s, [RequestPlan(target, fits), NO, YES]) ==
      s.(intents := s.intents + [Intent(ChangePlan, s.tenant.tier, target, Failed, s.clock, 0, "", false)])
  {
    Run3(c, s, RequestPlan(target, fits), NO, YES);
    var n := |s.intents|;
    var hope := Intent(ChangePlan, s.tenant.tier, target, Pending, s.clock, 0, "", false);
    var s1 := s.(intents := s.intents + [hope], pc := UpStripe(n, target));
    assert Apply(c, s, RequestPlan(target, fits)) == s1;
    assert Apply(c, s1, NO) == s1.(pc := UpFail(n));
    assert (s.intents + [hope])[n := hope.(status := Failed)] == s.intents + [hope.(status := Failed)];
  }

  /** A downgrade: price and tier stay until the paid period ends, when the scheduled intent falls due. */
  lemma DowngradeRuns(c: Catalog, s: State, target: Tier)
    requires Consistent(c) && MayChange(c, s, target) && Cheaper(c, target, s.tenant.tier) && s.sub.periodEnd > s.clock
    ensures Run(c, s, [RequestPlan(target, true), YES]) ==
      s.(tenant := s.tenant.(change := ChangePlan, pendingTier := target, effectiveAt := Some(s.sub.periodEnd)),
         intents := s.intents + [Intent(ChangePlan, s.tenant.tier, target, Scheduled, s.clock, s.sub.periodEnd, "", false)])
  {
    Run2(c, s, RequestPlan(target, true), YES);
    var s1 := s.(tenant := s.tenant.(change := ChangePlan, pendingTier := target, effectiveAt := Some(s.sub.periodEnd)),
                 pc := DownInsert(target, s.sub.periodEnd));
    assert Apply(c, s, RequestPlan(target, true)) == s1;
  }

  /** A downgrade that cannot be recorded: the projection is taken back. */
  lemma UnrecordedDowngradeRuns(c: Catalog, s: State, target: Tier)
    requires Consistent(c) && MayChange(c, s, target) && Cheaper(c, target, s.tenant.tier) && s.sub.periodEnd > s.clock
    ensures Run(c, s, [RequestPlan(target, true), NO, YES]) == s.(tenant := s.tenant.(pendingTier := "", effectiveAt := None))
  {
    Run3(c, s, RequestPlan(target, true), NO, YES);
    var s1 := s.(tenant := s.tenant.(change := ChangePlan, pendingTier := target, effectiveAt := Some(s.sub.periodEnd)),
                 pc := DownInsert(target, s.sub.periodEnd));
    assert Apply(c, s, RequestPlan(target, true)) == s1;
    assert Apply(c, s1, NO) == s1.(pc := UndoProjection);
  }

  /** A request that changes nothing: exactly one that may not be made, or a downgrade that does not fit or has no boundary. */
  lemma RequestIsRefusedIff(c: Catalog, s: State, target: Tier, fits: bool)
    requires s.pc.Idle?
    ensures Apply(c, s, RequestPlan(target, fits)) == s
      <==> !MayChange(c, s, target) || (Cheaper(c, target, s.tenant.tier) && (!fits || s.sub.periodEnd <= s.clock))
  {
  }

  // ---------- What is scheduled and what is pending ----------

  /** Scheduled changes of plan go to a cheaper plan, pending ones do not. */
  predicate Directed(c: Catalog, x: Intent) {
    x.kind == ChangePlan && (x.status == Scheduled || x.status == Pending) ==>
      x.to in c.plans && x.from in c.plans && (Cheaper(c, x.to, x.from) <==> x.status == Scheduled)
  }

  predicate AllDirected(c: Catalog, s: State) {
    && (forall k :: 0 <= k < |s.intents| ==> Directed(c, s.intents[k]))
    && (s.pc.DownInsert? ==> s.pc.target in c.plans && s.tenant.tier in c.plans && Cheaper(c, s.pc.target, s.tenant.tier))
  }

  /** The intents of `s'` come from those of `s`, except for new ones that are not open changes of plan. */
  predicate NothingNewOpen(s: State, s': State) {
    forall k :: |s.intents| <= k < |s'.intents| ==> s'.intents[k].kind != ChangePlan
  }

  lemma DirectionStays(c: Catalog, s: State, s': State)
    requires AllDirected(c, s) && Steady(s, s') && NothingNewOpen(s, s') && !s'.pc.DownInsert?
    requires forall k :: 0 <= k < |s.intents| && s'.intents[k].status == Pending ==> s.intents[k].status == Pending
    ensures AllDirected(c, s')
  {
    forall k | 0 <= k < |s'.intents|
      ensures Directed(c, s'.intents[k])
    {
      if k < |s.intents| {
        assert IntentEvolves(s.intents[k], s'.intents[k]) && Directed(c, s.intents[k]);
      }
    }
  }

  lemma NeverPendingAgain(c: Catalog, s: State, ok: bool, ok2: bool)
    ensures var s' := DoStep(c, s, ok, ok2);
            forall k :: 0 <= k < |s.intents| && k < |s'.intents| && s'.intents[k].status == Pending ==> s.intents[k].status == Pending
  {
    hide TierForPrice, Cleared;
    if InHook(s.pc) {
      HookMakesNothingPending(c, s, ok);
    } else if InDue(s.pc) {
      DueMakesNothingPending(c, s, ok, ok2);
    } else if InRecon(s.pc) {
      ReconMakesNothingPending(c, s, ok);
    } else if InCancels(s.pc) {
      CancelsMakeNothingPending(s, ok, ok2);
    }
  }

  predicate NothingPending(s: State, s': State) {
    forall k :: 0 <= k < |s.intents| && k < |s'.intents| && s'.intents[k].status == Pending ==> s.intents[k].status == Pending
  }

  lemma HookMakesNothingPending(c: Catalog, s: State, ok: bool)
    requires InHook(s.pc)
    ensures NothingPending(s, DoHook(c, s, ok))
  {
  }

  lemma DueMakesNothingPending(c: Catalog, s: State, ok: bool, ok2: bool)
    requires InDue(s.pc)
    ensures NothingPending(s, DoDue(c, s, ok, ok2))
  {
  }

  lemma ReconMakesNothingPending(c: Catalog, s: State, ok: bool)
    requires InRecon(s.pc)
    ensures NothingPending(s, DoRecon(c, s, ok))
  {
  }

  lemma CancelsMakeNothingPending(s: State, ok: bool, ok2: bool)
    requires InCancels(s.pc)
    ensures NothingPending(s, DoCancels(s, ok, ok2))
  {
  }

  lemma NoNewPlans(c: Catalog, s: State, ok: bool, ok2: bool)
    requires !s.pc.DownInsert?
    ensures NothingNewOpen(s, DoStep(c, s, ok, ok2)) && !DoStep(c, s, ok, ok2).pc.DownInsert?
  {
    hide Resolve, MarkOne, TierForPrice, Cleared;
    if InHook(s.pc) {
      HookAddsNothing(c, s, ok);
    } else if InDue(s.pc) {
      DueAddsNothing(c, s, ok, ok2);
    } else if InRecon(s.pc) {
      ReconAddsNothing(c, s, ok);
    }
  }

  lemma HookAddsNothing(c: Catalog, s: State, ok: bool)
    requires InHook(s.pc)
    ensures |DoHook(c, s, ok).intents| == |s.intents| && !DoHook(c, s, ok).pc.DownInsert?
  {
  }

  lemma DueAddsNothing(c: Catalog, s: State, ok: bool, ok2: bool)
    requires InDue(s.pc)
    ensures |DoDue(c, s, ok, ok2).intents| == |s.intents| && !DoDue(c, s, ok, ok2).pc.DownInsert?
  {
  }

  lemma ReconAddsNothing(c: Catalog, s: State, ok: bool)
    requires InRecon(s.pc)
    ensures |DoRecon(c, s, ok).intents| == |s.intents| && !DoRecon(c, s, ok).pc.DownInsert?
  {
  }

  lemma KeepDirected(c: Catalog, s: State, l: Label)
    requires AllDirected(c, s)
    ensures AllDirected(c, Apply(c, s, l))
  {
    if l.Step? && !s.pc.DownInsert? {
      hide DoStep;
      SteadyStep(c, s, l.ok, l.ok2);
      NeverPendingAgain(c, s, l.ok, l.ok2);
      NoNewPlans(c, s, l.ok, l.ok2);
      DirectionStays(c, s, DoStep(c, s, l.ok, l.ok2));
    }
  }

  /** In every run, only downgrades are ever scheduled and only the other changes are ever pending. */
  lemma {:induction false} UpgradesPendDowngradesWait(c: Catalog, s: State, labels: seq<Label>)
    requires AllDirected(c, s)
    ensures AllDirected(c, Run(c, s, labels))
    decreases |labels|
  {
    hide Apply, AllDirected;
    if labels != [] {
      KeepDirected(c, s, labels[0]);
      UpgradesPendDowngradesWait(c, Apply(c, s, labels[0]), labels[1..]);
    }
  }

  predicate NothingFits(labels: seq<Label>) {
    forall k :: 0 <= k < |labels| && labels[k].RequestPlan? ==> !labels[k].fits
  }

  predicate NothingScheduled(s: State) {
    !s.pc.DownInsert? && forall k :: 0 <= k < |s.intents| ==> !ScheduledPlan(s.intents[k])
  }

  lemma KeepNothingScheduled(c: Catalog, s: State, l: Label)
    requires NothingScheduled(s) && (l.RequestPlan? ==> !l.fits)
    ensures NothingScheduled(Apply(c, s, l))
  {
    if l.Step? {
      hide DoStep;
      SteadyStep(c, s, l.ok, l.ok2);
      NoNewPlans(c, s, l.ok, l.ok2);
      var s' := DoStep(c, s, l.ok, l.ok2);
      forall k | 0 <= k < |s'.intents|
        ensures !ScheduledPlan(s'.intents[k])
      {
        if k < |s.intents| {
          assert IntentEvolves(s.intents[k], s'.intents[k]);
        }
      }
    }
  }

  /** No run schedules a downgrade if none that is asked for fits the tenant's usage. */
  lemma {:induction false} UnfitIsNeverScheduled(c: Catalog, s: State, labels: seq<Label>)
    requires NothingScheduled(s) && NothingFits(labels)
    ensures NothingScheduled(Run(c, s, labels))
    decreases |labels|
  {
    hide Apply, NothingScheduled;
    if labels != [] {
      KeepNothingScheduled(c, s, labels[0]);
      assert forall k :: 0 <= k < |labels[1..]| ==> labels[1..][k] == labels[k + 1];
      UnfitIsNeverScheduled(c, Apply(c, s, labels[0]), labels[1..]);
    }
  }

  // ---------- Cancellation and its reversal ----------

  /** Access stays to the end of the paid period, which is projected, and the intent says so. */
  lemma CancellationRuns(c: Catalog, s: State)
    requires s.pc.Idle? && s.tenant.change == NoChange && s.sub.periodEnd > s.clock
    ensures Run(c, s, [RequestCancel, YES, YES]) ==
      s.(sub := s.sub.(cancelAtPeriodEnd := true),
         tenant := s.tenant.(change := ChangeCancel, pendingTier := "", effectiveAt := Some(s.sub.periodEnd)),
         intents := s.intents + [Intent(ChangeCancel, s.tenant.tier, "", Scheduled, s.clock, s.sub.periodEnd, "", false)])
  {
    Run3(c, s, RequestCancel, YES, YES);
    var s1 := s.(tenant := s.tenant.(change := ChangeCancel, pendingTier := "", effectiveAt := Some(s.sub.periodEnd)),
                 pc := CancelInsert(s.sub.periodEnd));
    assert Apply(c, s, RequestCancel) == s1;
    var s2 := s1.(intents := s.intents + [Intent(ChangeCancel, s.tenant.tier, "", Scheduled, s.clock, s.sub.periodEnd, "", false)],
                  pc := CancelStripe(|s.intents|));
    assert Apply(c, s1, YES) == s2;
  }

  /** Refused by Stripe: a failed intent, and the projection is taken back. */
  lemma RefusedCancellationRuns(c: Catalog, s: State)
    requires s.pc.Idle? && s.tenant.change == NoChange && s.sub.periodEnd > s.clock
    ensures
      var t := Run(c, s, [RequestCancel, YES, NO, YES]);
      Apply(c, t, YES) ==
      s.(tenant := s.tenant.(pendingTier := "", effectiveAt := None),
         intents := s.intents + [Intent(ChangeCancel, s.tenant.tier, "", Failed, s.clock, s.sub.periodEnd, "", false)])
  {
    var n := |s.intents|;
    var s1 := s.(tenant := s.tenant.(change := ChangeCancel, pendingTier := "", effectiveAt := Some(s.sub.periodEnd)),
                 pc := CancelInsert(s.sub.periodEnd));
    assert Apply(c, s, RequestCancel) == s1;
    var x := Intent(ChangeCancel, s.tenant.tier, "", Scheduled, s.clock, s.sub.periodEnd, "", false);
    hide Apply;
    Run4(c, s, RequestCancel, YES, NO, YES);
    CancelInserted(c, s1);
    CancelRefused(c, s1.(intents := s.intents + [x], pc := CancelStripe(n)), n, YES);
  }

  lemma CancelInserted(c: Catalog, s: State)
    requires s.pc.CancelInsert?
    ensures Apply(c, s, YES) ==
      s.(intents := s.intents + [Intent(ChangeCancel, s.tenant.tier, "", Scheduled, s.clock, s.pc.at, "", false)],
         pc := CancelStripe(|s.intents|))
  {
  }

  lemma CancelRefused(c: Catalog, s: State, n: nat, yes: Label)
    requires s.pc == CancelStripe(n) && |s.intents| == n + 1 && yes == YES && s.intents[n].status == Scheduled && s.intents[n].resolvedTier == ""
    requires !s.intents[n].bySweep
    ensures Apply(c, Apply(c, s, NO), yes) ==
      s.(intents := s.intents[..n] + [s.intents[n].(status := Failed)], pc := UndoProjection)
    ensures var t := Apply(c, Apply(c, s, NO), yes);
            Apply(c, t, yes) == t.(tenant := Cleared(s.tenant), pc := Idle)
  {
    assert Apply(c, s, NO) == s.(pc := CancelFail(n));
    assert s.intents[n := s.intents[n].(status := Failed)] == s.intents[..n] + [s.intents[n].(status := Failed)];
  }

  lemma ReactivationStarts(c: Catalog, s: State)
    requires s.pc.Idle? && s.tenant.change == ChangeCancel
    ensures Run(c, s, [RequestReactivate, YES]) ==
      s.(sub := s.sub.(cancelAtPeriodEnd := false), tenant := s.tenant.(change := ChangeReactivate), pc := ReactMark([]))
  {
    Run2(c, s, RequestReactivate, YES);
    assert Apply(c, s, RequestReactivate) == s.(tenant := s.tenant.(change := ChangeReactivate), pc := ReactStripe);
  }

  lemma RefusedReactivationRuns(c: Catalog, s: State)
    requires s.pc.Idle? && s.tenant.change == ChangeCancel
    ensures Run(c, s, [RequestReactivate, NO, YES]) == s
  {
    Run3(c, s, RequestReactivate, NO, YES);
    var s1 := s.(tenant := s.tenant.(change := ChangeReactivate), pc := ReactStripe);
    assert Apply(c, s, RequestReactivate) == s1;
    assert Apply(c, s1, NO) == s1.(pc := ReactUndo);
    assert s.tenant.(change := ChangeReactivate).(change := ChangeCancel) == s.tenant;
  }

  /** Reversed: the scheduled cancel intent is closed, the reversal recorded, and no change is projected any more. */
  lemma ReactivationEnds(c: Catalog, s: State, i: nat)
    requires s.pc == ReactMark([]) && i < |s.intents| && IsScheduledCancel(s.intents[i])
    ensures Run(c, s, [ReactivateMarks([i]), YES, YES, YES]) ==
      s.(tenant := s.tenant.(change := NoChange, pendingTier := "", effectiveAt := None),
         intents := s.intents[i := s.intents[i].(status := Canceled)]
                    + [Intent(ChangeReactivate, s.tenant.tier, s.tenant.tier, Confirmed, s.clock, 0, "", false)],
         pc := Idle)
  {
    assert AreScheduled(s.intents, [i], ChangeCancel);
    assert Apply(c, s, ReactivateMarks([i])) == s.(pc := ReactMark([i]));
    var marked := s.intents[i := s.intents[i].(status := Canceled)];
    hide Apply;
    Run4(c, s, ReactivateMarks([i]), YES, YES, YES);
    ReactMarked(c, s.(pc := ReactMark([i])), i);
    ReactRecorded(c, s.(intents := marked, pc := ReactInsert));
  }

  lemma ReactMarked(c: Catalog, s: State, i: nat)
    requires s.pc == ReactMark([i]) && i < |s.intents| && IsScheduledCancel(s.intents[i])
    ensures Apply(c, s, YES) == s.(intents := s.intents[i := s.intents[i].(status := Canceled)], pc := ReactInsert)
  {
  }

  lemma ReactRecorded(c: Catalog, s: State)
    requires s.pc == ReactInsert
    ensures Apply(c, Apply(c, s, YES), YES) ==
      s.(tenant := s.tenant.(change := NoChange, pendingTier := "", effectiveAt := None),
         intents := s.intents + [Intent(ChangeReactivate, s.tenant.tier, s.tenant.tier, Confirmed, s.clock, 0, "", false)],
         pc := Idle)
  {
  }

  /** A withdrawn downgrade: its intent is closed, and no change is projected any more. */
  lemma WithdrawalRuns(c: Catalog, s: State, i: nat)
    requires s.pc.Idle? && s.tenant.change == ChangePlan && i < |s.intents| && ScheduledPlan(s.intents[i])
    ensures Run(c, s, [RequestWithdraw([i]), YES, YES, YES]) ==
      s.(tenant := s.tenant.(change := NoChange, pendingTier := "", effectiveAt := None),
         intents := s.intents[i := s.intents[i].(status := Canceled)])
  {
    assert AreScheduled(s.intents, [i], ChangePlan);
    assert Apply(c, s, RequestWithdraw([i])) == s.(pc := WithdrawMark([i]));
    hide Apply;
    Run4(c, s, RequestWithdraw([i]), YES, YES, YES);
    WithdrawMarked(c, s.(pc := WithdrawMark([i])), i);
  }

  lemma WithdrawMarked(c: Catalog, s: State, i: nat)
    requires s.pc == WithdrawMark([i]) && i < |s.intents| && ScheduledPlan(s.intents[i])
    ensures Apply(c, Apply(c, Apply(c, s, YES), YES), YES) ==
      s.(tenant := s.tenant.(change := NoChange, pendingTier := "", effectiveAt := None),
         intents := s.intents[i := s.intents[i].(status := Canceled)], pc := Idle)
  {
    assert [i][1..] == [];
    var s1 := s.(intents := s.intents[i := s.intents[i].(status := Canceled)], pc := WithdrawMark([]));
    assert Apply(c, s, YES) == s1;
    WithdrawCleared(c, s1);
  }

  lemma WithdrawCleared(c: Catalog, s: State)
    requires s.pc == WithdrawMark([])
    ensures Apply(c, Apply(c, s, YES), YES) == s.(tenant := s.tenant.(change := NoChange, pendingTier := "", effectiveAt := None), pc := Idle)
  {
    assert Apply(c, s, YES) == s.(pc := WithdrawClear);
  }

  // ---------- What an event and a sweep make of a cancellation ----------

  /** An event shows the cancellation Stripe holds, with its date, whatever was projected before. */
  lemma EventShowsCancellation(c: Catalog, s: State)
    requires s.pc.Idle? && s.sub.price in c.tierOfPrice && s.sub.cancelAtPeriodEnd && s.sub.periodEnd > 0
    ensures
      var paid := c.tierOfPrice[s.sub.price];
      Run(c, s, [Webhook(false, []), YES]) ==
      s.(tenant := Tenant(paid, ChangeCancel, "", Some(s.sub.periodEnd)), pc := HookConfirm(paid, []))
  {
    Run2(c, s, Webhook(false, []), YES);
    assert Apply(c, s, Webhook(false, [])) == s.(pc := HookTenant(false, false));
  }

  /** Where Stripe holds none, a projected cancellation goes, with its intent; any other projection stays. */
  lemma EventDropsCancellation(c: Catalog, s: State, i: nat)
    requires s.pc.Idle? && s.sub.price in c.tierOfPrice && !s.sub.cancelAtPeriodEnd
    requires s.tenant.change == ChangeCancel && i < |s.intents| && IsScheduledCancel(s.intents[i])
    ensures
      var paid := c.tierOfPrice[s.sub.price];
      Run(c, s, [Webhook(false, [i]), YES, YES, YES]) ==
      s.(tenant := Tenant(paid, NoChange, "", None), intents := s.intents[i := s.intents[i].(status := Canceled)],
         pc := HookConfirm(paid, []))
  {
    assert AreScheduled(s.intents, [i], ChangeCancel);
    assert Apply(c, s, Webhook(false, [i])) == s.(pc := HookMark([i], false));
    hide Apply;
    Run4(c, s, Webhook(false, [i]), YES, YES, YES);
    HookMarked(c, s.(pc := HookMark([i], false)), i);
    HookWritten(c, s.(intents := s.intents[i := s.intents[i].(status := Canceled)], pc := HookTenant(false, true)));
  }

  lemma HookMarked(c: Catalog, s: State, i: nat)
    requires s.pc == HookMark([i], false) && i < |s.intents| && IsScheduledCancel(s.intents[i])
    ensures Apply(c, Apply(c, s, YES), YES) ==
      s.(intents := s.intents[i := s.intents[i].(status := Canceled)], pc := HookTenant(false, true))
  {
    assert [i][1..] == [];
    assert Apply(c, s, YES) == s.(intents := s.intents[i := s.intents[i].(status := Canceled)], pc := HookMark([], false));
  }

  lemma HookWritten(c: Catalog, s: State)
    requires s.pc == HookTenant(false, true) && s.sub.price in c.tierOfPrice && !s.sub.cancelAtPeriodEnd
    ensures var paid := c.tierOfPrice[s.sub.price];
            Apply(c, s, YES) == s.(tenant := Tenant(paid, NoChange, "", None), pc := HookConfirm(paid, []))
  {
  }

  lemma EventKeepsProjection(c: Catalog, s: State)
    requires s.pc.Idle? && s.sub.price in c.tierOfPrice && !s.sub.cancelAtPeriodEnd && s.tenant.change != ChangeCancel
    ensures
      var paid := c.tierOfPrice[s.sub.price];
      Run(c, s, [Webhook(false, []), YES]) == s.(tenant := s.tenant.(tier := paid), pc := HookConfirm(paid, []))
  {
    Run2(c, s, Webhook(false, []), YES);
    assert Apply(c, s, Webhook(false, [])) == s.(pc := HookTenant(false, false));
  }

  /** The event then confirms a pending intent with the tier that is paid for. */
  lemma EventConfirms(c: Catalog, s: State, paid: Tier, i: nat)
    requires s.pc == HookConfirm(paid, []) && i < |s.intents| && s.intents[i].status == Pending
    ensures Run(c, s, [Confirm([i]), YES, YES]) ==
      s.(intents := s.intents[i := s.intents[i].(status := Confirmed, resolvedTier := paid, bySweep := false)], pc := Idle)
  {
    Run3(c, s, Confirm([i]), YES, YES);
    assert ArePending(s.intents, [i]);
    assert Apply(c, s, Confirm([i])) == s.(pc := HookConfirm(paid, [i]));
    assert [i][1..] == [];
  }

  /** The sweep repairs a lost projection of a cancellation, and drops one that Stripe no longer holds. */
  lemma SweepOfCancellation(c: Catalog, s: State, i: nat)
    requires s.pc == Cancels([i]) && i < |s.intents| && IsScheduledCancel(s.intents[i])
    ensures s.sub.cancelAtPeriodEnd ==>
      Apply(c, s, YES) ==
      s.(tenant := s.tenant.(change := ChangeCancel, pendingTier := "",
                             effectiveAt := Some(if s.sub.periodEnd == 0 then s.intents[i].effectiveAt else s.sub.periodEnd)),
         pc := Cancels([]))
    ensures !s.sub.cancelAtPeriodEnd ==>
      Run(c, s, [YES, YES, YES]) ==
      s.(tenant := s.tenant.(change := NoChange, pendingTier := "", effectiveAt := None),
         intents := s.intents[i := s.intents[i].(status := Canceled, resolvedTier := "", bySweep := false)], pc := Cancels([]))
  {
    assert [i][1..] == [];
    if !s.sub.cancelAtPeriodEnd {
      Run3(c, s, YES, YES, YES);
      assert Apply(c, s, YES) == s.(pc := CancelsResolve(i, []));
    }
  }
}
