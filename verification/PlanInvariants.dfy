/**
  What every step of the billing handlers keeps. `Shape` says what the running handler relies on, and holds in every
  run; `Guarded` says that a divergence is never silent, and is what a withdrawal can break.
*/
module PlanInvariants {
  import opened Wrappers
  import opened PlanModel
  import opened PlanProtocol

  /** An intent that makes a divergence between paid and recorded tier visible: still open, or failed by the sweep. */
  predicate Covers(x: Intent) {
    x.status == Pending || (x.kind == ChangePlan && (x.status == Scheduled || (x.status == Failed && x.bySweep)))
  }

  predicate ScheduledPlan(x: Intent) {
    x.kind == ChangePlan && x.status == Scheduled
  }

  predicate Covered(intents: seq<Intent>) {
    exists j :: 0 <= j < |intents| && Covers(intents[j])
  }

  predicate CoveredBut(intents: seq<Intent>, i: nat) {
    exists j :: 0 <= j < |intents| && j != i && Covers(intents[j])
  }

  /** Covered by something that a withdrawal leaves alone. */
  predicate CoveredOtherwise(intents: seq<Intent>) {
    exists k :: 0 <= k < |intents| && Covers(intents[k]) && !ScheduledPlan(intents[k])
  }

  /** The paid tier is the recorded tier, or some intent says that it may not be. */
  predicate Safe(c: Catalog, s: State) {
    InSync(c, s) || Covered(s.intents)
  }

  predicate SafeBut(c: Catalog, s: State, i: nat) {
    InSync(c, s) || CoveredBut(s.intents, i)
  }

  predicate SafeOtherwise(c: Catalog, s: State) {
    InSync(c, s) || CoveredOtherwise(s.intents)
  }

  /** Downgrades are only ever scheduled to a tier that can be bought. */
  predicate TargetsSellable(c: Catalog, intents: seq<Intent>) {
    forall k :: 0 <= k < |intents| && intents[k].kind == ChangePlan ==> Sellable(c, intents[k].to)
  }

  /** Only changes of plan are ever pending: the other kinds start scheduled or resolved. */
  predicate PendingArePlans(intents: seq<Intent>) {
    forall k :: 0 <= k < |intents| && intents[k].status == Pending ==> intents[k].kind == ChangePlan
  }

  predicate PaysFor(c: Catalog, s: State, t: Tier) {
    TierForPrice(c, s.sub.price) == Some(t)
  }

  predicate IsPending(intents: seq<Intent>, i: nat) {
    i < |intents| && intents[i].status == Pending
  }

  predicate PendingHead(intents: seq<Intent>, i: nat, todo: seq<nat>) {
    IsPending(intents, i) && ArePending(intents, todo) && i !in todo
  }

  predicate AllScheduledPlan(intents: seq<Intent>, todo: seq<nat>) {
    Distinct(todo) && forall k :: 0 <= k < |todo| ==> todo[k] < |intents| && ScheduledPlan(intents[todo[k]])
  }

  predicate ScheduledHead(intents: seq<Intent>, i: nat, todo: seq<nat>) {
    i < |intents| && ScheduledPlan(intents[i]) && AllScheduledPlan(intents, todo) && i !in todo
  }

  predicate AllCancel(intents: seq<Intent>, todo: seq<nat>) {
    forall k :: 0 <= k < |todo| ==> todo[k] < |intents| && intents[todo[k]].kind == ChangeCancel
  }

  predicate IsCancel(intents: seq<Intent>, i: nat) {
    i < |intents| && intents[i].kind == ChangeCancel
  }

  predicate PcShape(c: Catalog, s: State) {
    match s.pc
    case UpStripe(i, target) => IsPending(s.intents, i) && Sellable(c, target)
    case UpTenant(i, target) => IsPending(s.intents, i) && PaysFor(c, s, target)
    case UpResolve(i, target) => IsPending(s.intents, i) && InSync(c, s)
    case UpFail(i) => IsPending(s.intents, i)
    case DownInsert(target, _) => Sellable(c, target)
    case Recon(todo) => ArePending(s.intents, todo)
    case ReconTenant(i, paid, todo) => PendingHead(s.intents, i, todo) && PaysFor(c, s, paid)
    case ReconResolve(i, paid, todo) => PendingHead(s.intents, i, todo) && InSync(c, s)
    case ReconFail(i, todo) => PendingHead(s.intents, i, todo)
    case Due(_, todo) => AllScheduledPlan(s.intents, todo)
    case DueTenant(i, _, todo) => ScheduledHead(s.intents, i, todo) && PaysFor(c, s, s.intents[i].to)
    case DueResolve(i, _, todo) =>
      ScheduledHead(s.intents, i, todo) && InSync(c, s) && s.tenant.tier == s.intents[i].to && s.tenant.change == NoChange
    case DueFail(i, _, todo) => ScheduledHead(s.intents, i, todo)
    case DueClear(_, todo) => AllScheduledPlan(s.intents, todo)
    case HookConfirm(_, todo) => InSync(c, s) && ArePending(s.intents, todo)
    case CancelStripe(i) => IsCancel(s.intents, i)
    case CancelFail(i) => IsCancel(s.intents, i)
    case Cancels(todo) => AllCancel(s.intents, todo)
    case CancelsResolve(i, todo) => IsCancel(s.intents, i) && AllCancel(s.intents, todo)
    case CancelsClear(todo) => AllCancel(s.intents, todo)
    case _ => true
  }

  predicate Shape(c: Catalog, s: State) {
    TargetsSellable(c, s.intents) && PendingArePlans(s.intents) && PcShape(c, s)
  }

  /** What a handler that resolves intents leaves covered. */
  predicate PcGuarded(c: Catalog, s: State) {
    match s.pc
    case UpStripe(i, _) => SafeBut(c, s, i)
    case UpFail(i) => SafeBut(c, s, i)
    case WithdrawMark(_) => SafeOtherwise(c, s)
    case _ => true
  }

  predicate Guarded(c: Catalog, s: State) {
    Safe(c, s) && PcGuarded(c, s)
  }

  predicate Inv(c: Catalog, s: State) {
    Shape(c, s) && Guarded(c, s)
  }

  // ---------- Shape ----------

  lemma HeadNotInTail(todo: seq<nat>)
    requires todo != [] && Distinct(todo)
    ensures todo[0] !in todo[1..] && Distinct(todo[1..])
  {
  }

  lemma PendingTail(intents: seq<Intent>, todo: seq<nat>)
    requires ArePending(intents, todo) && todo != []
    ensures PendingHead(intents, todo[0], todo[1..])
  {
    HeadNotInTail(todo);
  }

  lemma ScheduledTail(intents: seq<Intent>, todo: seq<nat>)
    requires AllScheduledPlan(intents, todo) && todo != []
    ensures ScheduledHead(intents, todo[0], todo[1..])
  {
    HeadNotInTail(todo);
  }

  lemma ResolveKeepsPending(intents: seq<Intent>, i: nat, status: IntentStatus, tier: Tier, bySweep: bool, todo: seq<nat>)
    requires PendingHead(intents, i, todo)
    ensures ArePending(Resolve(intents, i, status, tier, bySweep), todo)
  {
    forall k | 0 <= k < |todo|
      ensures Resolve(intents, i, status, tier, bySweep)[todo[k]].status == Pending
    {
      assert todo[k] in todo;
    }
  }

  lemma ResolveKeepsScheduled(intents: seq<Intent>, i: nat, status: IntentStatus, tier: Tier, bySweep: bool, todo: seq<nat>)
    requires ScheduledHead(intents, i, todo)
    ensures AllScheduledPlan(Resolve(intents, i, status, tier, bySweep), todo)
  {
    forall k | 0 <= k < |todo|
      ensures ScheduledPlan(Resolve(intents, i, status, tier, bySweep)[todo[k]])
    {
      assert todo[k] in todo;
    }
  }

  predicate IntentsShape(c: Catalog, intents: seq<Intent>) {
    TargetsSellable(c, intents) && PendingArePlans(intents)
  }

  lemma ResolveKeepsIntents(c: Catalog, intents: seq<Intent>, i: nat, status: IntentStatus, tier: Tier, bySweep: bool)
    requires IntentsShape(c, intents) && i < |intents| && status != Pending
    ensures IntentsShape(c, Resolve(intents, i, status, tier, bySweep))
  {
  }

  lemma ShapeUpgrade(c: Catalog, s: State, ok: bool)
    requires Consistent(c) && Shape(c, s) && InUpgrade(s.pc)
    ensures Shape(c, DoUpgrade(c, s, ok))
  {
    match s.pc
    case UpResolve(i, target) => ResolveKeepsIntents(c, s.intents, i, Confirmed, target, false);
    case UpFail(i) => ResolveKeepsIntents(c, s.intents, i, Failed, "", false);
    case _ =>
  }

  lemma ShapeDowngrade(c: Catalog, s: State, ok: bool)
    requires Shape(c, s) && s.pc.DownInsert?
    ensures Shape(c, DoDowngrade(s, ok))
  {
  }

  lemma ShapeRecon(c: Catalog, s: State, ok: bool)
    requires Shape(c, s) && InRecon(s.pc)
    ensures Shape(c, DoRecon(c, s, ok))
  {
    match s.pc
    case Recon(todo) =>
      if todo != [] {
        hide ArePending, TargetsSellable, PendingArePlans;
        PendingTail(s.intents, todo);
        HeadIsPending(s.intents, todo[0], todo[1..]);
      }
    case ReconTenant(i, _, todo) =>
      hide ArePending, TargetsSellable, PendingArePlans;
    case ReconResolve(i, paid, todo) =>
      hide ArePending, TargetsSellable, PendingArePlans, Resolve;
      ResolveKeepsPending(s.intents, i, Confirmed, paid, false, todo);
      ResolveKeepsIntents(c, s.intents, i, Confirmed, paid, false);
    case ReconFail(i, todo) =>
      hide ArePending, TargetsSellable, PendingArePlans, Resolve;
      ResolveKeepsPending(s.intents, i, Failed, "", true, todo);
      ResolveKeepsIntents(c, s.intents, i, Failed, "", true);
  }

  lemma HeadIsPending(intents: seq<Intent>, i: nat, todo: seq<nat>)
    requires PendingHead(intents, i, todo)
    ensures ArePending(intents, todo)
  {
  }

  lemma ShapeDueHead(c: Catalog, s: State, ok: bool, ok2: bool)
    requires Consistent(c) && Shape(c, s) && s.pc.Due?
    ensures Shape(c, DoDue(c, s, ok, ok2))
  {
    if s.pc.todo != [] {
      ScheduledTail(s.intents, s.pc.todo);
      assert Sellable(c, s.intents[s.pc.todo[0]].to);
      hide AllScheduledPlan, TargetsSellable, PendingArePlans;
    }
  }

  lemma ShapeDueRest(c: Catalog, s: State, ok: bool, ok2: bool)
    requires Shape(c, s) && InDue(s.pc) && !s.pc.Due?
    ensures Shape(c, DoDue(c, s, ok, ok2))
  {
    hide AllScheduledPlan, TargetsSellable, PendingArePlans, Resolve;
    match s.pc
    case DueResolve(i, _, todo) =>
      ResolveKeepsScheduled(s.intents, i, Confirmed, s.intents[i].to, false, todo);
      ResolveKeepsIntents(c, s.intents, i, Confirmed, s.intents[i].to, false);
    case DueFail(i, _, todo) =>
      ResolveKeepsScheduled(s.intents, i, Failed, "", true, todo);
      ResolveKeepsIntents(c, s.intents, i, Failed, "", true);
    case _ =>
  }

  lemma ShapeCancels(c: Catalog, s: State, ok: bool, ok2: bool)
    requires Shape(c, s) && InCancels(s.pc)
    ensures Shape(c, DoCancels(s, ok, ok2))
  {
  }

  lemma MarkKeepsIntents(c: Catalog, intents: seq<Intent>, i: nat, kind: Change)
    requires IntentsShape(c, intents) && i < |intents|
    ensures IntentsShape(c, intents[i := MarkOne(intents[i], kind, Canceled)])
  {
  }

  lemma ShapeHook(c: Catalog, s: State, ok: bool)
    requires Shape(c, s) && InHook(s.pc)
    ensures Shape(c, DoHook(c, s, ok))
  {
    match s.pc
    case HookMark(marks, _) =>
      if marks != [] && marks[0] < |s.intents| {
        MarkKeepsIntents(c, s.intents, marks[0], ChangeCancel);
      }
    case HookTenant(_, _) =>
    case HookConfirm(paid, todo) =>
      if todo != [] {
        hide ArePending, TargetsSellable, PendingArePlans, Resolve;
        PendingTail(s.intents, todo);
        HeadIsPending(s.intents, todo[0], todo[1..]);
        ResolveKeepsPending(s.intents, todo[0], Confirmed, paid, false, todo[1..]);
        ResolveKeepsIntents(c, s.intents, todo[0], Confirmed, paid, false);
      }
  }

  lemma ShapeCancel(c: Catalog, s: State, ok: bool)
    requires Shape(c, s) && InCancel(s.pc)
    ensures Shape(c, DoCancel(s, ok))
  {
  }

  lemma ShapeReactivate(c: Catalog, s: State, ok: bool)
    requires Shape(c, s) && InReactivate(s.pc)
    ensures Shape(c, DoReactivate(s, ok))
  {
  }

  lemma ShapeWithdraw(c: Catalog, s: State, ok: bool)
    requires Shape(c, s) && InWithdraw(s.pc)
    ensures Shape(c, DoWithdraw(s, ok))
  {
  }

  lemma ShapeStep(c: Catalog, s: State, ok: bool, ok2: bool)
    requires Consistent(c) && Shape(c, s)
    ensures Shape(c, DoStep(c, s, ok, ok2))
  {
    hide TargetsSellable, PendingArePlans, DoUpgrade, DoDowngrade, DoRecon, DoDue, DoCancels, DoHook, DoCancel, DoReactivate, DoWithdraw;
    if InUpgrade(s.pc) {
      ShapeUpgrade(c, s, ok);
    } else if s.pc.DownInsert? {
      ShapeDowngrade(c, s, ok);
    } else if InRecon(s.pc) {
      ShapeRecon(c, s, ok);
    } else if s.pc.Due? {
      ShapeDueHead(c, s, ok, ok2);
    } else if InDue(s.pc) {
      ShapeDueRest(c, s, ok, ok2);
    } else if InCancels(s.pc) {
      ShapeCancels(c, s, ok, ok2);
    } else if InHook(s.pc) {
      ShapeHook(c, s, ok);
    } else if InCancel(s.pc) {
      ShapeCancel(c, s, ok);
    } else if InReactivate(s.pc) {
      ShapeReactivate(c, s, ok);
    } else if InWithdraw(s.pc) {
      ShapeWithdraw(c, s, ok);
    }
  }

  /** Every step of every handler, sweep and webhook keeps the shape, withdrawals included. */
  lemma KeepShape(c: Catalog, s: State, l: Label)
    requires Consistent(c) && Shape(c, s)
    ensures Shape(c, Apply(c, s, l))
  {
    hide DoStep;
    match l
    case Step(ok, ok2) => ShapeStep(c, s, ok, ok2);
    case _ =>
  }

  // ---------- Divergence is never silent ----------

  lemma CoverKept(xs: seq<Intent>, ys: seq<Intent>)
    requires |xs| <= |ys| && Covered(xs)
    requires forall j :: 0 <= j < |xs| && Covers(xs[j]) ==> Covers(ys[j])
    ensures Covered(ys)
  {
    var j :| 0 <= j < |xs| && Covers(xs[j]);
    assert Covers(ys[j]);
  }

  lemma CoverElsewhere(xs: seq<Intent>, ys: seq<Intent>, i: nat)
    requires |xs| <= |ys| && CoveredBut(xs, i)
    requires forall j :: 0 <= j < |xs| && j != i ==> ys[j] == xs[j]
    ensures CoveredBut(ys, i) && Covered(ys)
  {
    var j :| 0 <= j < |xs| && j != i && Covers(xs[j]);
    assert Covers(ys[j]);
  }

  lemma CoverHere(xs: seq<Intent>, i: nat)
    requires i < |xs| && Covers(xs[i])
    ensures Covered(xs)
  {
  }

  lemma OtherwiseCovers(xs: seq<Intent>)
    requires CoveredOtherwise(xs)
    ensures Covered(xs)
  {
    var k :| 0 <= k < |xs| && Covers(xs[k]) && !ScheduledPlan(xs[k]);
    CoverHere(xs, k);
  }

  /** Withdrawal marks scheduled changes of plan only. */
  lemma WithdrawalLeavesOtherCovers(xs: seq<Intent>, i: nat)
    requires i < |xs| && CoveredOtherwise(xs)
    ensures CoveredOtherwise(xs[i := MarkOne(xs[i], ChangePlan, Canceled)])
  {
    var k :| 0 <= k < |xs| && Covers(xs[k]) && !ScheduledPlan(xs[k]);
    var ys := xs[i := MarkOne(xs[i], ChangePlan, Canceled)];
    assert Covers(ys[k]) && !ScheduledPlan(ys[k]);
  }

  lemma GuardedRequestPlan(c: Catalog, s: State, target: Tier, fits: bool)
    requires Guarded(c, s) && s.pc.Idle?
    ensures Guarded(c, DoRequestPlan(c, s, target, fits))
  {
    var s' := DoRequestPlan(c, s, target, fits);
    if Covered(s.intents) {
      CoverKept(s.intents, s'.intents);
    }
    if s'.pc.UpStripe? && !InSync(c, s) {
      var j :| 0 <= j < |s.intents| && Covers(s.intents[j]);
      assert j != s'.pc.i && Covers(s'.intents[j]);
    }
  }

  lemma GuardedUpgrade(c: Catalog, s: State, ok: bool)
    requires Inv(c, s) && InUpgrade(s.pc)
    ensures Guarded(c, DoUpgrade(c, s, ok))
  {
    match s.pc
    case UpStripe(i, _) => CoverHere(s.intents, i);
    case UpTenant(i, _) => CoverHere(s.intents, i);
    case UpResolve(i, _) =>
    case UpFail(i) =>
      if !InSync(c, s) {
        CoverElsewhere(s.intents, DoUpgrade(c, s, ok).intents, i);
      }
  }

  lemma GuardedRecon(c: Catalog, s: State, ok: bool)
    requires Inv(c, s) && InRecon(s.pc)
    ensures Guarded(c, DoRecon(c, s, ok))
  {
    hide TargetsSellable, ArePending;
    if s.pc.ReconFail? && Covered(s.intents) {
      assert s.intents[s.pc.i].kind == ChangePlan;
      CoverKept(s.intents, DoRecon(c, s, ok).intents);
    }
  }

  lemma GuardedDue(c: Catalog, s: State, ok: bool, ok2: bool)
    requires Inv(c, s) && InDue(s.pc)
    ensures Guarded(c, DoDue(c, s, ok, ok2))
  {
    hide TargetsSellable, PendingArePlans;
    match s.pc
    case Due(_, todo) =>
      if todo != [] {
        CoverHere(s.intents, todo[0]);
      }
    case DueTenant(i, _, _) => CoverHere(s.intents, i);
    case DueResolve(_, _, _) =>
    case DueFail(i, _, _) =>
      if Covered(s.intents) {
        CoverKept(s.intents, DoDue(c, s, ok, ok2).intents);
      }
    case DueClear(_, _) =>
  }

  lemma GuardedCancels(c: Catalog, s: State, ok: bool, ok2: bool)
    requires Inv(c, s) && InCancels(s.pc)
    ensures Guarded(c, DoCancels(s, ok, ok2))
  {
    if Covered(s.intents) {
      CoverKept(s.intents, DoCancels(s, ok, ok2).intents);
    }
  }

  lemma GuardedHook(c: Catalog, s: State, ok: bool)
    requires Inv(c, s) && InHook(s.pc)
    ensures Guarded(c, DoHook(c, s, ok))
  {
    hide TargetsSellable, PendingArePlans;
    if s.pc.HookMark? && Covered(s.intents) {
      CoverKept(s.intents, DoHook(c, s, ok).intents);
    }
  }

  lemma GuardedCancel(c: Catalog, s: State, ok: bool)
    requires Inv(c, s) && InCancel(s.pc)
    ensures Guarded(c, DoCancel(s, ok))
  {
    hide TargetsSellable;
    if Covered(s.intents) {
      CoverKept(s.intents, DoCancel(s, ok).intents);
    }
  }

  lemma GuardedReactivate(c: Catalog, s: State, ok: bool)
    requires Guarded(c, s) && InReactivate(s.pc)
    ensures Guarded(c, DoReactivate(s, ok))
  {
    if Covered(s.intents) {
      CoverKept(s.intents, DoReactivate(s, ok).intents);
    }
  }

  lemma GuardedDowngrade(c: Catalog, s: State, ok: bool)
    requires Guarded(c, s) && s.pc.DownInsert?
    ensures Guarded(c, DoDowngrade(s, ok))
  {
    if Covered(s.intents) {
      CoverKept(s.intents, DoDowngrade(s, ok).intents);
    }
  }

  lemma GuardedWithdraw(c: Catalog, s: State, ok: bool)
    requires Inv(c, s) && InWithdraw(s.pc)
    ensures Guarded(c, DoWithdraw(s, ok))
  {
    hide TargetsSellable, PendingArePlans;
    if s.pc.WithdrawMark? && s.pc.marks != [] && !InSync(c, s) {
      if s.pc.marks[0] < |s.intents| {
        WithdrawalLeavesOtherCovers(s.intents, s.pc.marks[0]);
      }
      OtherwiseCovers(DoWithdraw(s, ok).intents);
    }
  }

  /** A withdrawal is asked for only while the tiers agree, or something it leaves alone covers the difference. */
  predicate WithdrawSafe(c: Catalog, s: State, l: Label) {
    l.RequestWithdraw? ==> SafeOtherwise(c, s)
  }

  lemma SyncIsTierAndPrice(c: Catalog, s: State, s': State)
    requires Guarded(c, s) && s'.sub == s.sub && s'.tenant.tier == s.tenant.tier && s'.intents == s.intents
    requires s'.pc.Idle?
    ensures Guarded(c, s')
  {
  }

  lemma GuardedStep(c: Catalog, s: State, ok: bool, ok2: bool)
    requires Inv(c, s)
    ensures Guarded(c, DoStep(c, s, ok, ok2))
  {
    hide Shape, Guarded, DoUpgrade, DoDowngrade, DoRecon, DoDue, DoCancels, DoHook, DoCancel, DoReactivate, DoWithdraw;
    if InUpgrade(s.pc) {
      GuardedUpgrade(c, s, ok);
    } else if InRecon(s.pc) {
      GuardedRecon(c, s, ok);
    } else if InDue(s.pc) {
      GuardedDue(c, s, ok, ok2);
    } else if InCancels(s.pc) {
      GuardedCancels(c, s, ok, ok2);
    } else if InHook(s.pc) {
      GuardedHook(c, s, ok);
    } else if InWithdraw(s.pc) {
      GuardedWithdraw(c, s, ok);
    } else if InCancel(s.pc) {
      GuardedCancel(c, s, ok);
    } else if InReactivate(s.pc) {
      GuardedReactivate(c, s, ok);
    } else if s.pc.DownInsert? {
      GuardedDowngrade(c, s, ok);
    } else {
      SyncIsTierAndPrice(c, s, DoStep(c, s, ok, ok2));
    }
  }

  lemma KeepInv(c: Catalog, s: State, l: Label)
    requires Consistent(c) && Inv(c, s) && WithdrawSafe(c, s, l)
    ensures Inv(c, Apply(c, s, l))
  {
    KeepShape(c, s, l);
    hide Shape, DoStep;
    match l
    case Step(ok, ok2) => GuardedStep(c, s, ok, ok2);
    case RequestPlan(target, fits) =>
      if s.pc.Idle? {
        GuardedRequestPlan(c, s, target, fits);
      }
    case _ =>
  }
}
