/**
  What holds at every point of every run of the billing handlers, with crashes and failed calls anywhere.
*/
module PlanTheorems {
  import opened Wrappers
  import opened PlanModel
  import opened PlanProtocol
  import opened PlanInvariants

  // ---------- Runs ----------

  lemma RunFirst(c: Catalog, s: State, l: Label, labels: seq<Label>)
    ensures Run(c, s, [l] + labels) == Run(c, Apply(c, s, l), labels)
  {
    assert ([l] + labels)[1..] == labels;
  }

  lemma {:induction false} RunAppend(c: Catalog, s: State, a: seq<Label>, b: seq<Label>)
    ensures Run(c, s, a + b) == Run(c, Run(c, s, a), b)
    decreases |a|
  {
    hide Apply;
    if a == [] {
      assert a + b == b;
    } else {
      assert a + b == [a[0]] + (a[1..] + b);
      RunFirst(c, s, a[0], a[1..] + b);
      RunAppend(c, Apply(c, s, a[0]), a[1..], b);
    }
  }

  /** Uninterrupted steps. */
  function Steps(n: nat): seq<Label> {
    if n == 0 then [] else [Step(true, true)] + Steps(n - 1)
  }

  function Next(c: Catalog, s: State): State {
    DoStep(c, s, true, true)
  }

  lemma RunOneStep(c: Catalog, s: State, n: nat)
    requires n > 0
    ensures Run(c, s, Steps(n)) == Run(c, Next(c, s), Steps(n - 1))
  {
    hide DoStep;
    RunFirst(c, s, Step(true, true), Steps(n - 1));
  }

  lemma RunThreeSteps(c: Catalog, s: State, n: nat)
    requires n >= 3
    ensures Run(c, s, Steps(n)) == Run(c, Next(c, Next(c, Next(c, s))), Steps(n - 3))
  {
    hide DoStep, Run;
    RunOneStep(c, s, n);
    RunOneStep(c, Next(c, s), n - 1);
    RunOneStep(c, Next(c, Next(c, s)), n - 2);
  }

  // ---------- Divergence is never silent ----------

  /** Before the first handler runs, the recorded tier is the paid one and there are no intents. */
  predicate Start(c: Catalog, s: State) {
    s.pc.Idle? && s.intents == [] && InSync(c, s) && s.applied == []
  }

  predicate WithdrawalsSafe(c: Catalog, s: State, labels: seq<Label>)
    decreases |labels|
  {
    labels == [] || (WithdrawSafe(c, s, labels[0]) && WithdrawalsSafe(c, Apply(c, s, labels[0]), labels[1..]))
  }

  lemma {:induction false} RunInv(c: Catalog, s: State, labels: seq<Label>)
    requires Consistent(c) && Inv(c, s) && WithdrawalsSafe(c, s, labels)
    ensures Inv(c, Run(c, s, labels))
    decreases |labels|
  {
    hide Inv, Apply, WithdrawSafe;
    if labels != [] {
      KeepInv(c, s, labels[0]);
      RunInv(c, Apply(c, s, labels[0]), labels[1..]);
    }
  }

  lemma {:induction false} RunShape(c: Catalog, s: State, labels: seq<Label>)
    requires Consistent(c) && Shape(c, s)
    ensures Shape(c, Run(c, s, labels))
    decreases |labels|
  {
    hide Shape, Apply;
    if labels != [] {
      KeepShape(c, s, labels[0]);
      RunShape(c, Apply(c, s, labels[0]), labels[1..]);
    }
  }

  /**
    At every point of every run in which each withdrawal is asked for while the tiers agree, or while an intent that
    it leaves alone covers the difference: the paid tier is the recorded one, or some intent is pending, scheduled,
    or was marked failed by the sweep.
  */
  lemma NeverSilentlyDiverged(c: Catalog, s: State, labels: seq<Label>)
    requires Consistent(c) && Start(c, s) && WithdrawalsSafe(c, s, labels)
    ensures Safe(c, Run(c, s, labels))
  {
    hide Run, WithdrawalsSafe;
    assert Inv(c, s);
    RunInv(c, s, labels);
  }

  // ---------- Withdrawal ----------

  /** A withdrawal is asked for first, and no other one later; anything else may follow. */
  predicate OneWithdrawal(labels: seq<Label>) {
    labels != [] && labels[0].RequestWithdraw? && forall k :: 0 < k < |labels| ==> !labels[k].RequestWithdraw?
  }

  lemma {:induction false} NoWithdrawalIsSafe(c: Catalog, s: State, labels: seq<Label>)
    requires forall k :: 0 <= k < |labels| ==> !labels[k].RequestWithdraw?
    ensures WithdrawalsSafe(c, s, labels)
    decreases |labels|
  {
    hide Apply;
    if labels != [] {
      NoWithdrawalIsSafe(c, Apply(c, s, labels[0]), labels[1..]);
    }
  }

  /** The scheduled changes of plan, in order. */
  function ScheduledPlans(intents: seq<Intent>): (r: seq<nat>)
    ensures Below(r, |intents|)
    ensures forall k :: 0 <= k < |r| ==> ScheduledPlan(intents[r[k]])
    ensures forall j :: 0 <= j < |intents| && ScheduledPlan(intents[j]) ==> j in r
  {
    if intents == [] then []
    else
      var n := |intents| - 1;
      var before := ScheduledPlans(intents[..n]);
      if ScheduledPlan(intents[n]) then before + [n] else before
  }

  function MarkEach(intents: seq<Intent>, marks: seq<nat>): (r: seq<Intent>)
    requires Below(marks, |intents|)
    ensures |r| == |intents|
    decreases |marks|
  {
    if marks == [] then intents
    else MarkEach(intents[marks[0] := MarkOne(intents[marks[0]], ChangePlan, Canceled)], marks[1..])
  }

  lemma {:induction false} MarkEachAt(intents: seq<Intent>, marks: seq<nat>, j: nat)
    requires Below(marks, |intents|) && j < |intents|
    ensures MarkEach(intents, marks)[j] == if j in marks then MarkOne(intents[j], ChangePlan, Canceled) else intents[j]
    decreases |marks|
  {
    if marks != [] {
      MarkEachAt(intents[marks[0] := MarkOne(intents[marks[0]], ChangePlan, Canceled)], marks[1..], j);
    }
  }

  lemma {:induction false} WithdrawalRuns(c: Catalog, s: State, marks: seq<nat>)
    requires s.pc == WithdrawMark(marks) && Below(marks, |s.intents|)
    ensures Run(c, s, Steps(|marks|)) == s.(intents := MarkEach(s.intents, marks), pc := WithdrawMark([]))
    decreases |marks|
  {
    if marks == [] {
      assert s.(pc := WithdrawMark([])) == s;
    } else {
      hide Next, MarkOne, MarkEach, Run, Steps;
      MarkFirst(s.intents, marks);
      RunOneStep(c, s, |marks|);
      WithdrawalStep(c, s);
      WithdrawalRuns(c, Next(c, s), marks[1..]);
    }
  }

  lemma MarkFirst(intents: seq<Intent>, marks: seq<nat>)
    requires Below(marks, |intents|) && marks != []
    ensures marks[0] < |intents| && Below(marks[1..], |intents|)
    ensures MarkEach(intents, marks) == MarkEach(intents[marks[0] := MarkOne(intents[marks[0]], ChangePlan, Canceled)], marks[1..])
  {
    hide MarkOne;
  }

  lemma WithdrawalStep(c: Catalog, s: State)
    requires s.pc.WithdrawMark? && s.pc.marks != [] && s.pc.marks[0] < |s.intents|
    ensures
      var i := s.pc.marks[0];
      Next(c, s) == s.(intents := s.intents[i := MarkOne(s.intents[i], ChangePlan, Canceled)], pc := WithdrawMark(s.pc.marks[1..]))
  {
  }

  lemma NothingLeftToCover(intents: seq<Intent>)
    requires !CoveredOtherwise(intents)
    ensures !Covered(MarkEach(intents, ScheduledPlans(intents)))
  {
    var marked := MarkEach(intents, ScheduledPlans(intents));
    forall j | 0 <= j < |marked|
      ensures !Covers(marked[j])
    {
      MarkEachAt(intents, ScheduledPlans(intents), j);
      assert ScheduledPlan(intents[j]) ==> j in ScheduledPlans(intents);
    }
  }

  lemma UnsafeWithdrawal(c: Catalog, s: State) returns (labels: seq<Label>)
    requires s.pc.Idle? && s.tenant.change == ChangePlan && !SafeOtherwise(c, s)
    ensures OneWithdrawal(labels) && !Safe(c, Run(c, s, labels))
  {
    var marks := ScheduledPlans(s.intents);
    labels := [RequestWithdraw(marks)] + Steps(|marks|);
    AllSteps(|marks|);
    RunFirst(c, s, RequestWithdraw(marks), Steps(|marks|));
    var t := s.(pc := WithdrawMark(marks));
    assert Apply(c, s, RequestWithdraw(marks)) == t;
    hide Run, Apply;
    WithdrawalRuns(c, t, marks);
    NothingLeftToCover(s.intents);
  }

  lemma {:induction false} AllSteps(n: nat)
    ensures |Steps(n)| == n && forall k :: 0 <= k < n ==> Steps(n)[k] == Step(true, true)
  {
    if n > 0 {
      AllSteps(n - 1);
    }
  }

  /**
    Exactly when withdrawing a scheduled downgrade is safe, whatever writes of the withdrawal fail and whatever
    follows it: the tiers agree, or some intent other than a scheduled downgrade covers the difference.
  */
  lemma WithdrawalSafeIff(c: Catalog, s: State)
    requires Consistent(c) && Inv(c, s) && s.pc.Idle? && s.tenant.change == ChangePlan
    ensures (forall labels :: OneWithdrawal(labels) ==> Safe(c, Run(c, s, labels))) <==> SafeOtherwise(c, s)
  {
    if SafeOtherwise(c, s) {
      hide Inv, Apply, Safe, SafeOtherwise, Run;
      forall labels | OneWithdrawal(labels)
        ensures Safe(c, Run(c, s, labels))
      {
        NoWithdrawalIsSafe(c, Apply(c, s, labels[0]), labels[1..]);
        RunInv(c, s, labels);
        InvIsSafe(c, Run(c, s, labels));
      }
    } else {
      var labels := UnsafeWithdrawal(c, s);
      assert OneWithdrawal(labels) && !Safe(c, Run(c, s, labels));
    }
  }

  lemma InvIsSafe(c: Catalog, s: State)
    requires Inv(c, s)
    ensures Safe(c, s)
  {
  }

  // ---------- Repair ----------

  lemma HookTenantSyncs(c: Catalog, s: State)
    requires s.pc.HookTenant? && !s.pc.incomplete && TierForPrice(c, s.sub.price).Some?
    ensures var s' := DoHook(c, s, true); InSync(c, s') && s'.pc.HookConfirm? && s'.pc.todo == []
  {
  }

  lemma HookStarts(c: Catalog, s: State)
    requires s.pc.Idle?
    ensures
      var s' := Apply(c, s, Webhook(false, []));
      && s'.sub == s.sub
      && (s'.pc == HookMark([], false) || (s'.pc.HookTenant? && !s'.pc.incomplete))
  {
  }

  /** One webhook processed without a fault makes the tiers equal, from any state, whatever diverged before. */
  lemma WebhookRestoresSync(c: Catalog, s: State)
    requires s.pc.Idle? && TierForPrice(c, s.sub.price).Some?
    ensures InSync(c, Run(c, s, [Webhook(false, [])] + Steps(2)))
  {
    RunFirst(c, s, Webhook(false, []), Steps(2));
    HookStarts(c, s);
    var s1 := Apply(c, s, Webhook(false, []));
    RunOneStep(c, s1, 2);
    RunOneStep(c, Next(c, s1), 1);
    hide Run, Apply;
    if s1.pc.HookTenant? {
      HookTenantSyncs(c, s1);
      var s2 := Next(c, s1);
      assert Next(c, s2) == s2.(pc := Idle);
    } else {
      assert Next(c, s1) == s1.(pc := HookTenant(false, true));
      HookTenantSyncs(c, Next(c, s1));
    }
  }

  /** Each of these intents confirmed with the paid tier. */
  function ConfirmEach(intents: seq<Intent>, todo: seq<nat>, paid: Tier): (r: seq<Intent>)
    requires ArePending(intents, todo)
    ensures |r| == |intents|
    ensures forall k :: 0 <= k < |intents| ==>
      r[k] == if k in todo then intents[k].(status := Confirmed, resolvedTier := paid, bySweep := false) else intents[k]
    decreases |todo|
  {
    if todo == [] then intents
    else
      PendingTail(intents, todo);
      ResolveKeepsPending(intents, todo[0], Confirmed, paid, false, todo[1..]);
      ConfirmEach(Resolve(intents, todo[0], Confirmed, paid, false), todo[1..], paid)
  }

  lemma ReconRound(c: Catalog, s: State, paid: Tier)
    requires s.pc.Recon? && s.pc.todo != [] && ArePending(s.intents, s.pc.todo) && TierForPrice(c, s.sub.price) == Some(paid)
    ensures
      Next(c, Next(c, Next(c, s))) ==
      s.(tenant := s.tenant.(tier := paid), intents := Resolve(s.intents, s.pc.todo[0], Confirmed, paid, false), pc := Recon(s.pc.todo[1..]))
  {
    var i, rest := s.pc.todo[0], s.pc.todo[1..];
    assert Next(c, s) == s.(pc := ReconTenant(i, paid, rest));
    assert Next(c, Next(c, s)) == s.(tenant := s.tenant.(tier := paid), pc := ReconResolve(i, paid, rest));
  }

  lemma {:induction false} ReconPass(c: Catalog, s: State, todo: seq<nat>, paid: Tier)
    requires s.pc == Recon(todo) && ArePending(s.intents, todo) && TierForPrice(c, s.sub.price) == Some(paid)
    ensures Run(c, s, Steps(3 * |todo|)) ==
      s.(tenant := if todo == [] then s.tenant else s.tenant.(tier := paid),
         intents := ConfirmEach(s.intents, todo, paid), pc := Recon([]))
    decreases |todo|
  {
    if todo == [] {
      assert s.(pc := Recon([])) == s;
    } else {
      hide Next, Resolve, Run, Steps, ConfirmEach, ArePending, TierForPrice;
      ConfirmFirst(s.intents, todo, paid);
      RunThreeSteps(c, s, 3 * |todo|);
      ReconRound(c, s, paid);
      assert 3 * |todo| - 3 == 3 * |todo[1..]|;
      ReconPass(c, Next(c, Next(c, Next(c, s))), todo[1..], paid);
    }
  }

  lemma ConfirmFirst(intents: seq<Intent>, todo: seq<nat>, paid: Tier)
    requires ArePending(intents, todo) && todo != []
    ensures todo[0] < |intents| && ArePending(Resolve(intents, todo[0], Confirmed, paid, false), todo[1..])
    ensures ConfirmEach(intents, todo, paid) == ConfirmEach(Resolve(intents, todo[0], Confirmed, paid, false), todo[1..], paid)
  {
    PendingTail(intents, todo);
    ResolveKeepsPending(intents, todo[0], Confirmed, paid, false, todo[1..]);
    hide Resolve, ArePending;
  }

  /** One sweep over stale intents without a fault makes the tiers equal and confirms each with the PAID tier. */
  lemma SweepRestoresSync(c: Catalog, s: State, olderThan: int, todo: seq<nat>)
    requires s.pc.Idle? && TierForPrice(c, s.sub.price).Some? && AreStale(s.intents, todo, olderThan) && todo != []
    ensures
      var s' := Run(c, s, [SweepStale(olderThan, todo)] + Steps(3 * |todo|));
      && InSync(c, s') && s'.sub == s.sub && s'.tenant == s.tenant.(tier := s'.tenant.tier) && |s'.intents| == |s.intents|
      && forall k :: 0 <= k < |s.intents| ==>
           s'.intents[k] == if k in todo
                            then s.intents[k].(status := Confirmed, resolvedTier := s'.tenant.tier, bySweep := false)
                            else s.intents[k]
  {
    RunFirst(c, s, SweepStale(olderThan, todo), Steps(3 * |todo|));
    assert Apply(c, s, SweepStale(olderThan, todo)) == s.(pc := Recon(todo));
    hide Run, Apply;
    ReconPass(c, s.(pc := Recon(todo)), todo, TierForPrice(c, s.sub.price).value);
  }

  // ---------- Resolved intents are final ----------

  /** Only the outcome fields of an open intent ever change, and nothing is scheduled after the fact. */
  predicate IntentEvolves(x: Intent, y: Intent) {
    && y.kind == x.kind && y.from == x.from && y.to == x.to
    && y.createdAt == x.createdAt && y.effectiveAt == x.effectiveAt
    && (!Open(x) ==> y == x) && (y.status == Scheduled ==> x.status == Scheduled)
  }

  predicate Steady(s: State, s': State) {
    && |s.intents| <= |s'.intents| && s.clock <= s'.clock
    && forall k :: 0 <= k < |s.intents| ==> IntentEvolves(s.intents[k], s'.intents[k])
  }

  /** Besides: only the due phase of the sweep logs a price change of its own. */
  predicate Quiet(s: State, s': State) {
    s'.applied == s.applied && !InDue(s'.pc)
  }

  lemma SteadyUpgrade(c: Catalog, s: State, ok: bool)
    requires InUpgrade(s.pc)
    ensures Steady(s, DoUpgrade(c, s, ok)) && Quiet(s, DoUpgrade(c, s, ok))
  {
  }

  lemma SteadyRecon(c: Catalog, s: State, ok: bool)
    requires InRecon(s.pc)
    ensures Steady(s, DoRecon(c, s, ok)) && Quiet(s, DoRecon(c, s, ok))
  {
  }

  lemma SteadyDue(c: Catalog, s: State, ok: bool, ok2: bool)
    requires InDue(s.pc)
    ensures Steady(s, DoDue(c, s, ok, ok2))
  {
  }

  lemma SteadyCancels(s: State, ok: bool, ok2: bool)
    requires InCancels(s.pc)
    ensures Steady(s, DoCancels(s, ok, ok2)) && Quiet(s, DoCancels(s, ok, ok2))
  {
  }

  lemma SteadyHook(c: Catalog, s: State, ok: bool)
    requires InHook(s.pc)
    ensures Steady(s, DoHook(c, s, ok)) && Quiet(s, DoHook(c, s, ok))
  {
  }

  lemma SteadyCancel(s: State, ok: bool)
    requires InCancel(s.pc)
    ensures Steady(s, DoCancel(s, ok)) && Quiet(s, DoCancel(s, ok))
  {
  }

  lemma SteadyReactivate(s: State, ok: bool)
    requires InReactivate(s.pc)
    ensures Steady(s, DoReactivate(s, ok)) && Quiet(s, DoReactivate(s, ok))
  {
  }

  lemma SteadyWithdraw(s: State, ok: bool)
    requires InWithdraw(s.pc)
    ensures Steady(s, DoWithdraw(s, ok)) && Quiet(s, DoWithdraw(s, ok))
  {
  }

  lemma SteadyStep(c: Catalog, s: State, ok: bool, ok2: bool)
    ensures Steady(s, DoStep(c, s, ok, ok2))
    ensures !InDue(s.pc) ==> Quiet(s, DoStep(c, s, ok, ok2))
  {
    if InUpgrade(s.pc) {
      SteadyUpgrade(c, s, ok);
    } else if InRecon(s.pc) {
      SteadyRecon(c, s, ok);
    } else if InDue(s.pc) {
      SteadyDue(c, s, ok, ok2);
    } else if InCancels(s.pc) {
      SteadyCancels(s, ok, ok2);
    } else if InHook(s.pc) {
      SteadyHook(c, s, ok);
    } else if InCancel(s.pc) {
      SteadyCancel(s, ok);
    } else if InReactivate(s.pc) {
      SteadyReactivate(s, ok);
    } else if InWithdraw(s.pc) {
      SteadyWithdraw(s, ok);
    }
  }

  lemma SteadyApply(c: Catalog, s: State, l: Label)
    ensures Steady(s, Apply(c, s, l))
  {
    if l.Step? {
      SteadyStep(c, s, l.ok, l.ok2);
    }
  }

  /** From any state on, an intent that has been resolved is never written again. */
  lemma {:induction false} ResolvedStaysResolved(c: Catalog, s: State, labels: seq<Label>, i: nat)
    requires i < |s.intents| && !Open(s.intents[i])
    ensures |s.intents| <= |Run(c, s, labels).intents| && Run(c, s, labels).intents[i] == s.intents[i]
    decreases |labels|
  {
    if labels != [] {
      SteadyApply(c, s, labels[0]);
      assert IntentEvolves(s.intents[i], Apply(c, s, labels[0]).intents[i]);
      ResolvedStaysResolved(c, Apply(c, s, labels[0]), labels[1..], i);
    }
  }

  // ---------- Scheduled downgrades ----------

  predicate IsEffective(s: State, i: nat, now: int) {
    i < |s.intents| && s.intents[i].effectiveAt <= now <= s.clock
  }

  predicate DueTodo(s: State, now: int, todo: seq<nat>) {
    now <= s.clock && forall k :: 0 <= k < |todo| ==> todo[k] < |s.intents| && s.intents[todo[k]].effectiveAt <= now
  }

  /** Every price change made by the sweep is for an intent whose effective date had passed by the sweep's clock. */
  predicate InvEffective(s: State) {
    && (forall k :: 0 <= k < |s.applied| ==>
          IsEffective(s, s.applied[k].i, s.applied[k].now))
    && (match s.pc
        case Due(now, todo) => DueTodo(s, now, todo)
        case DueTenant(i, now, todo) => IsEffective(s, i, now) && DueTodo(s, now, todo)
        case DueResolve(_, now, todo) => DueTodo(s, now, todo)
        case DueFail(_, now, todo) => DueTodo(s, now, todo)
        case DueClear(now, todo) => DueTodo(s, now, todo)
        case _ => true)
  }

  lemma DueStepEffective(c: Catalog, s: State, ok: bool, ok2: bool)
    requires InvEffective(s) && InDue(s.pc)
    ensures InvEffective(DoDue(c, s, ok, ok2))
  {
    SteadyDue(c, s, ok, ok2);
    var s' := DoDue(c, s, ok, ok2);
    forall k | 0 <= k < |s.intents|
      ensures s'.intents[k].effectiveAt == s.intents[k].effectiveAt
    {
      assert IntentEvolves(s.intents[k], s'.intents[k]);
    }
  }

  lemma AppliedStays(c: Catalog, s: State, l: Label)
    requires InvEffective(s) && Apply(c, s, l).applied == s.applied
    ensures
      var s' := Apply(c, s, l);
      forall k :: 0 <= k < |s'.applied| ==>
        s'.applied[k].i < |s'.intents| && s'.intents[s'.applied[k].i].effectiveAt <= s'.applied[k].now <= s'.clock
  {
    var s' := Apply(c, s, l);
    SteadyApply(c, s, l);
    forall k | 0 <= k < |s'.applied|
      ensures s'.applied[k].i < |s'.intents| && s'.intents[s'.applied[k].i].effectiveAt <= s'.applied[k].now <= s'.clock
    {
      assert IntentEvolves(s.intents[s.applied[k].i], s'.intents[s.applied[k].i]);
    }
  }

  lemma KeepEffective(c: Catalog, s: State, l: Label)
    requires InvEffective(s)
    ensures InvEffective(Apply(c, s, l))
  {
    if l.Step? {
      if InDue(s.pc) {
        DueStepEffective(c, s, l.ok, l.ok2);
      } else {
        SteadyStep(c, s, l.ok, l.ok2);
        AppliedStays(c, s, l);
      }
    } else {
      AppliedStays(c, s, l);
    }
  }

  lemma {:induction false} RunEffective(c: Catalog, s: State, labels: seq<Label>)
    requires InvEffective(s)
    ensures InvEffective(Run(c, s, labels))
    decreases |labels|
  {
    hide Apply, InvEffective;
    if labels != [] {
      KeepEffective(c, s, labels[0]);
      RunEffective(c, Apply(c, s, labels[0]), labels[1..]);
    }
  }

  /** The step writes, at Stripe or in the tenant document, what the scheduled downgrade `i` asks for. */
  predicate ActsFor(c: Catalog, s: State, s': State, i: nat) {
    && i < |s.intents| && ScheduledPlan(s.intents[i]) && s.intents[i].effectiveAt <= s.clock
    && (s'.sub != s.sub ==> PaysFor(c, s', s.intents[i].to))
    && (s'.tenant.tier != s.tenant.tier ==> s'.tenant.tier == s.intents[i].to)
  }

  /**
    At any point of any run, whatever crashed before: if the due phase changes the price or the recorded tier, it does
    so for a scheduled downgrade whose effective date has passed. All logged price changes were of that kind.
  */
  lemma NeverBeforeEffectiveDate(c: Catalog, s: State, labels: seq<Label>, ok: bool, ok2: bool)
    requires Consistent(c) && Start(c, s)
    ensures
      var t := Run(c, s, labels);
      var t' := Apply(c, t, Step(ok, ok2));
      && (forall k :: 0 <= k < |t.applied| ==> IsEffective(t, t.applied[k].i, t.applied[k].now))
      && (InDue(t.pc) && (t'.sub != t.sub || t'.tenant.tier != t.tenant.tier) ==> exists i :: ActsFor(c, t, t', i))
  {
    hide Run;
    RunEffective(c, s, labels);
    RunShape(c, s, labels);
    var t := Run(c, s, labels);
    if InDue(t.pc) {
      DueStepActsFor(c, t, ok, ok2);
    }
  }

  lemma DueStepActsFor(c: Catalog, t: State, ok: bool, ok2: bool)
    requires Consistent(c) && Shape(c, t) && InvEffective(t) && InDue(t.pc)
    ensures
      var t' := DoDue(c, t, ok, ok2);
      t'.sub != t.sub || t'.tenant.tier != t.tenant.tier ==> exists i :: ActsFor(c, t, t', i)
  {
    var t' := DoDue(c, t, ok, ok2);
    if t.pc.Due? && t.pc.todo != [] {
      assert t'.sub != t.sub ==> ActsFor(c, t, t', t.pc.todo[0]);
    }
    if t.pc.DueTenant? {
      assert t'.tenant.tier != t.tenant.tier ==> ActsFor(c, t, t', t.pc.i);
    }
  }

  /** Steps before the due phase confirm pending intents only. */
  lemma EarlierStepsConfirmPending(c: Catalog, s: State, ok: bool, i: nat)
    requires Shape(c, s) && i < |s.intents| && ScheduledPlan(s.intents[i])
    ensures InUpgrade(s.pc) ==> i < |DoUpgrade(c, s, ok).intents| && DoUpgrade(c, s, ok).intents[i].status != Confirmed
    ensures InRecon(s.pc) ==> i < |DoRecon(c, s, ok).intents| && DoRecon(c, s, ok).intents[i].status != Confirmed
  {
  }

  lemma WebhookConfirmsPending(c: Catalog, s: State, ok: bool, i: nat)
    requires Shape(c, s) && i < |s.intents| && ScheduledPlan(s.intents[i]) && InHook(s.pc)
    ensures i < |DoHook(c, s, ok).intents| && DoHook(c, s, ok).intents[i].status != Confirmed
  {
    if s.pc.HookConfirm? && s.pc.todo != [] {
      assert s.intents[s.pc.todo[0]].status == Pending;
    }
  }

  predicate NotConfirmed(s': State, i: nat) {
    i < |s'.intents| && s'.intents[i].status != Confirmed
  }

  lemma DueConfirmsNothingElse(c: Catalog, s: State, ok: bool, ok2: bool, i: nat)
    requires i < |s.intents| && ScheduledPlan(s.intents[i]) && InDue(s.pc) && !s.pc.DueResolve?
    ensures NotConfirmed(DoDue(c, s, ok, ok2), i)
  {
  }

  lemma CancelsConfirmNothing(s: State, ok: bool, ok2: bool, i: nat)
    requires i < |s.intents| && ScheduledPlan(s.intents[i]) && InCancels(s.pc)
    ensures NotConfirmed(DoCancels(s, ok, ok2), i)
  {
  }

  lemma RequestsConfirmNothing(s: State, ok: bool, i: nat)
    requires i < |s.intents| && ScheduledPlan(s.intents[i])
    ensures InCancel(s.pc) ==> NotConfirmed(DoCancel(s, ok), i)
    ensures InReactivate(s.pc) ==> NotConfirmed(DoReactivate(s, ok), i)
    ensures InWithdraw(s.pc) ==> NotConfirmed(DoWithdraw(s, ok), i)
    ensures s.pc.DownInsert? ==> NotConfirmed(DoDowngrade(s, ok), i)
  {
  }

  lemma OnlyDueResolveConfirms(c: Catalog, s: State, ok: bool, ok2: bool, i: nat)
    requires Shape(c, s) && i < |s.intents| && ScheduledPlan(s.intents[i]) && !s.pc.DueResolve?
    ensures NotConfirmed(DoStep(c, s, ok, ok2), i)
  {
    hide Shape, DoUpgrade, DoDowngrade, DoRecon, DoDue, DoCancels, DoHook, DoCancel, DoReactivate, DoWithdraw;
    if InUpgrade(s.pc) || InRecon(s.pc) {
      EarlierStepsConfirmPending(c, s, ok, i);
    } else if InHook(s.pc) {
      WebhookConfirmsPending(c, s, ok, i);
    } else if InDue(s.pc) {
      DueConfirmsNothingElse(c, s, ok, ok2, i);
    } else if InCancels(s.pc) {
      CancelsConfirmNothing(s, ok, ok2, i);
    } else {
      RequestsConfirmNothing(s, ok, i);
    }
  }

  /** A scheduled downgrade turns confirmed only once Stripe, the recorded tier and the projection all agree with it. */
  lemma ConfirmedMeansApplied(c: Catalog, s: State, l: Label, i: nat)
    requires Consistent(c) && Shape(c, s) && i < |s.intents| && ScheduledPlan(s.intents[i])
    requires i < |Apply(c, s, l).intents| && Apply(c, s, l).intents[i].status == Confirmed
    ensures
      var s' := Apply(c, s, l);
      PaysFor(c, s', s.intents[i].to) && s'.tenant.tier == s.intents[i].to && s'.tenant.change == NoChange
      && s'.intents[i].resolvedTier == s.intents[i].to
  {
    if l.Step? {
      if !s.pc.DueResolve? {
        OnlyDueResolveConfirms(c, s, l.ok, l.ok2, i);
      }
    }
  }

  /** Each of these downgrades confirmed with its own target. */
  function ApplyEach(intents: seq<Intent>, todo: seq<nat>): (r: seq<Intent>)
    requires AllScheduledPlan(intents, todo)
    ensures |r| == |intents|
    ensures forall k :: 0 <= k < |intents| ==>
      r[k] == if k in todo then intents[k].(status := Confirmed, resolvedTier := intents[k].to, bySweep := false) else intents[k]
    decreases |todo|
  {
    if todo == [] then intents
    else
      ScheduledTail(intents, todo);
      ResolveKeepsScheduled(intents, todo[0], Confirmed, intents[todo[0]].to, false, todo[1..]);
      ApplyEach(Resolve(intents, todo[0], Confirmed, intents[todo[0]].to, false), todo[1..])
  }

  predicate AppliedTo(c: Catalog, s: State, s': State, to: Tier) {
    PaysFor(c, s', to) && s'.tenant == Cleared(s.tenant).(tier := to)
  }

  lemma DueRound(c: Catalog, s: State)
    requires Consistent(c) && Shape(c, s) && s.pc.Due? && s.pc.todo != []
    ensures
      var i, s' := s.pc.todo[0], Next(c, Next(c, Next(c, s)));
      && i < |s.intents| && AppliedTo(c, s, s', s.intents[i].to)
      && s'.intents == Resolve(s.intents, i, Confirmed, s.intents[i].to, false) && s'.pc == Due(s.pc.now, s.pc.todo[1..])
      && Shape(c, s')
  {
    var i, now, rest := s.pc.todo[0], s.pc.now, s.pc.todo[1..];
    var to := s.intents[i].to;
    ScheduledTail(s.intents, s.pc.todo);
    assert Sellable(c, to);
    var s1 := Next(c, s);
    assert s1.pc == DueTenant(i, now, rest) && s1.intents == s.intents && s1.tenant == s.tenant && PaysFor(c, s1, to);
    ShapeStep(c, s, true, true);
    ShapeStep(c, s1, true, true);
    hide Shape;
    var s2 := Next(c, s1);
    assert s2 == s1.(tenant := Cleared(s.tenant).(tier := to), pc := DueResolve(i, now, rest));
    ShapeStep(c, s2, true, true);
    assert Next(c, s2) == s2.(intents := Resolve(s.intents, i, Confirmed, to, false), pc := Due(now, rest));
  }

  lemma DueIsScheduled(c: Catalog, s: State)
    requires Shape(c, s) && s.pc.Due?
    ensures AllScheduledPlan(s.intents, s.pc.todo)
  {
  }

  predicate PassDone(c: Catalog, s: State, s': State, todo: seq<nat>)
    requires AllScheduledPlan(s.intents, todo)
  {
    && s'.intents == ApplyEach(s.intents, todo)
    && if todo == [] then s' == s else AppliedTo(c, s, s', s.intents[todo[|todo| - 1]].to)
  }

  lemma {:induction false} DuePass(c: Catalog, s: State, todo: seq<nat>)
    requires Consistent(c) && Shape(c, s) && s.pc.Due? && s.pc.todo == todo
    ensures AllScheduledPlan(s.intents, todo) && PassDone(c, s, Run(c, s, Steps(3 * |todo|)), todo)
    decreases |todo|
  {
    hide Shape, DoStep, Apply, TierForPrice, AppliedTo, AllScheduledPlan, Resolve, PassDone, ApplyEach, Consistent;
    DueIsScheduled(c, s);
    if todo == [] {
      NothingToDo(c, s);
    } else {
      DueRound(c, s);
      var s3 := Next(c, Next(c, Next(c, s)));
      hide Run, Steps;
      RunThreeSteps(c, s, 3 * |todo|);
      DuePass(c, s3, todo[1..]);
      assert 3 * |todo| - 3 == 3 * |todo[1..]|;
      FirstThenRest(c, s, s3, Run(c, s, Steps(3 * |todo|)), todo);
    }
  }

  lemma NothingToDo(c: Catalog, s: State)
    requires AllScheduledPlan(s.intents, [])
    ensures PassDone(c, s, s, [])
  {
  }

  lemma FirstThenRest(c: Catalog, s: State, mid: State, s': State, todo: seq<nat>)
    requires todo != [] && AllScheduledPlan(s.intents, todo) && AllScheduledPlan(mid.intents, todo[1..])
    requires AppliedTo(c, s, mid, s.intents[todo[0]].to)
    requires mid.intents == Resolve(s.intents, todo[0], Confirmed, s.intents[todo[0]].to, false)
    requires PassDone(c, mid, s', todo[1..])
    ensures PassDone(c, s, s', todo)
  {
    hide AppliedTo, Resolve, AllScheduledPlan;
    DueTargets(s.intents, todo);
    if |todo| > 1 {
      AppliedTwice(c, s, mid, s', s.intents[todo[0]].to, s.intents[todo[|todo| - 1]].to);
    }
  }

  lemma AppliedTwice(c: Catalog, s: State, mid: State, s': State, first: Tier, second: Tier)
    requires AppliedTo(c, s, mid, first) && AppliedTo(c, mid, s', second)
    ensures AppliedTo(c, s, s', second)
  {
  }

  lemma DueTargets(intents: seq<Intent>, todo: seq<nat>)
    requires todo != [] && AllScheduledPlan(intents, todo)
    ensures
      var after := Resolve(intents, todo[0], Confirmed, intents[todo[0]].to, false);
      var k := todo[|todo| - 1];
      todo[0] < |intents| && k < |intents| && (|todo| > 1 ==> todo[1..][|todo| - 2] == k) && after[k].to == intents[k].to
  {
  }

  /**
    Whatever crashed attempts left behind, one uninterrupted pass over the due downgrades settles all three stores: the
    last of them decides price and tier, every one is confirmed, and the projection is gone.
  */
  lemma DuePassConverges(c: Catalog, s: State, todo: seq<nat>)
    requires Consistent(c) && Shape(c, s) && s.pc == Recon([]) && AreDue(s.intents, todo, s.clock) && todo != []
    ensures
      var s' := Run(c, s, [SweepDue(todo)] + Steps(3 * |todo|));
      && AppliedTo(c, s, s', s.intents[todo[|todo| - 1]].to) && |s'.intents| == |s.intents|
      && forall k :: 0 <= k < |s.intents| ==>
           s'.intents[k] == if k in todo
                            then s.intents[k].(status := Confirmed, resolvedTier := s.intents[k].to, bySweep := false)
                            else s.intents[k]
  {
    var t := s.(pc := Due(s.clock, todo));
    KeepShape(c, s, SweepDue(todo));
    RunFirst(c, s, SweepDue(todo), Steps(3 * |todo|));
    assert Apply(c, s, SweepDue(todo)) == t;
    hide Run, Apply, Shape;
    DuePass(c, t, todo);
  }
}
