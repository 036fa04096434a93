/**
  Cancellation at period end: when a cancellation held at Stripe has a scheduled cancel intent, which is what the sweep
  works from.
*/
module PlanCancellations {
  import opened Wrappers
  import opened PlanModel
  import opened PlanProtocol
  import opened PlanInvariants
  import opened PlanTheorems

  predicate Backed(intents: seq<Intent>) {
    exists k :: 0 <= k < |intents| && IsScheduledCancel(intents[k])
  }

  predicate BackedBut(intents: seq<Intent>, i: nat) {
    exists k :: 0 <= k < |intents| && k != i && IsScheduledCancel(intents[k])
  }

  /** A cancellation held at Stripe always has a scheduled cancel intent, so the sweep can repair its projection. */
  predicate CancelInv(s: State) {
    && s.sub.periodEnd > 0
    && (s.sub.cancelAtPeriodEnd ==> Backed(s.intents))
    && match s.pc
       case CancelStripe(i) => i < |s.intents| && IsScheduledCancel(s.intents[i]) && (s.sub.cancelAtPeriodEnd ==> BackedBut(s.intents, i))
       case CancelFail(i) => s.sub.cancelAtPeriodEnd ==> BackedBut(s.intents, i)
       case ReactMark(_) => !s.sub.cancelAtPeriodEnd
       case ReactInsert => !s.sub.cancelAtPeriodEnd
       case CancelsResolve(_, _) => !s.sub.cancelAtPeriodEnd
       case HookMark(_, _) => !s.sub.cancelAtPeriodEnd
       case _ => true
  }

  lemma BackedStays(xs: seq<Intent>, ys: seq<Intent>)
    requires Backed(xs) && |xs| <= |ys|
    requires forall k :: 0 <= k < |xs| && IsScheduledCancel(xs[k]) ==> IsScheduledCancel(ys[k])
    ensures Backed(ys)
  {
    var k :| 0 <= k < |xs| && IsScheduledCancel(xs[k]);
    assert IsScheduledCancel(ys[k]);
  }

  lemma BackedButStays(xs: seq<Intent>, ys: seq<Intent>, i: nat)
    requires BackedBut(xs, i) && |xs| <= |ys|
    requires forall k :: 0 <= k < |xs| && k != i ==> ys[k] == xs[k]
    ensures BackedBut(ys, i) && Backed(ys)
  {
    var k :| 0 <= k < |xs| && k != i && IsScheduledCancel(xs[k]);
    assert ys[k] == xs[k];
  }

  lemma CancelKeeps(s: State, ok: bool)
    requires CancelInv(s) && InCancel(s.pc)
    ensures CancelInv(DoCancel(s, ok))
  {
    var s' := DoCancel(s, ok);
    match s.pc
    case CancelInsert(_) =>
      if ok {
        assert IsScheduledCancel(s'.intents[|s.intents|]);
        if s.sub.cancelAtPeriodEnd {
          var k :| 0 <= k < |s.intents| && IsScheduledCancel(s.intents[k]);
          assert s'.intents[k] == s.intents[k] && k != |s.intents|;
        }
      }
    case CancelStripe(i) =>
      assert IsScheduledCancel(s.intents[i]);
    case CancelFail(i) =>
      if s.sub.cancelAtPeriodEnd {
        BackedButStays(s.intents, s'.intents, i);
      }
  }

  lemma ReactivateKeeps(s: State, ok: bool)
    requires CancelInv(s) && InReactivate(s.pc)
    ensures CancelInv(DoReactivate(s, ok))
  {
    if s.sub.cancelAtPeriodEnd {
      BackedStays(s.intents, DoReactivate(s, ok).intents);
    }
  }

  lemma SweepOfCancelsKeeps(s: State, ok: bool, ok2: bool)
    requires CancelInv(s) && InCancels(s.pc)
    ensures CancelInv(DoCancels(s, ok, ok2))
  {
  }

  lemma WebhookKeeps(c: Catalog, s: State, ok: bool)
    requires Shape(c, s) && CancelInv(s) && InHook(s.pc)
    ensures CancelInv(DoHook(c, s, ok))
  {
    if s.sub.cancelAtPeriodEnd {
      BackedStays(s.intents, DoHook(c, s, ok).intents);
    }
  }

  lemma UpgradeKeeps(c: Catalog, s: State, ok: bool)
    requires Shape(c, s) && CancelInv(s) && InUpgrade(s.pc)
    ensures CancelInv(DoUpgrade(c, s, ok))
  {
    if s.sub.cancelAtPeriodEnd {
      BackedStays(s.intents, DoUpgrade(c, s, ok).intents);
    }
  }

  lemma ReconKeeps(c: Catalog, s: State, ok: bool)
    requires Shape(c, s) && CancelInv(s) && InRecon(s.pc)
    ensures CancelInv(DoRecon(c, s, ok))
  {
    if s.sub.cancelAtPeriodEnd {
      BackedStays(s.intents, DoRecon(c, s, ok).intents);
    }
  }

  lemma DueKeeps(c: Catalog, s: State, ok: bool, ok2: bool)
    requires Shape(c, s) && CancelInv(s) && InDue(s.pc)
    ensures CancelInv(DoDue(c, s, ok, ok2))
  {
    if s.sub.cancelAtPeriodEnd {
      BackedStays(s.intents, DoDue(c, s, ok, ok2).intents);
    }
  }

  lemma OtherStepKeeps(c: Catalog, s: State, ok: bool, ok2: bool)
    requires CancelInv(s)
    requires s.pc.DownInsert? || s.pc.UndoProjection? || InWithdraw(s.pc) || s.pc.Idle?
    ensures CancelInv(DoStep(c, s, ok, ok2))
  {
    if s.sub.cancelAtPeriodEnd {
      BackedStays(s.intents, DoStep(c, s, ok, ok2).intents);
    }
  }

  lemma StepKeepsCancel(c: Catalog, s: State, ok: bool, ok2: bool)
    requires Shape(c, s) && CancelInv(s)
    ensures CancelInv(DoStep(c, s, ok, ok2))
  {
    if InUpgrade(s.pc) {
      UpgradeKeeps(c, s, ok);
    } else if InRecon(s.pc) {
      ReconKeeps(c, s, ok);
    } else if InDue(s.pc) {
      DueKeeps(c, s, ok, ok2);
    } else if InCancels(s.pc) {
      SweepOfCancelsKeeps(s, ok, ok2);
    } else if InHook(s.pc) {
      WebhookKeeps(c, s, ok);
    } else if InCancel(s.pc) {
      CancelKeeps(s, ok);
    } else if InReactivate(s.pc) {
      ReactivateKeeps(s, ok);
    } else {
      OtherStepKeeps(c, s, ok, ok2);
    }
  }

  /** A cancellation made in the portal finds a scheduled cancel intent, left from an earlier request. */
  predicate PortalFindsIntent(s: State, l: Label) {
    l.PortalCancel? && l.on && s.pc.Idle? ==> Backed(s.intents)
  }

  lemma RequestKeepsCancel(c: Catalog, s: State, l: Label)
    requires CancelInv(s) && !l.Step? && PortalFindsIntent(s, l)
    ensures CancelInv(Apply(c, s, l))
  {
    hide DoStep;
    if s.sub.cancelAtPeriodEnd {
      BackedStays(s.intents, Apply(c, s, l).intents);
    }
  }

  // ---------- Every run ----------

  predicate IsBacked(s: State) {
    s.sub.cancelAtPeriodEnd ==> Backed(s.intents)
  }

  predicate AlwaysBacked(c: Catalog, s: State, labels: seq<Label>)
    decreases |labels|
  {
    IsBacked(s) && (labels == [] || AlwaysBacked(c, Apply(c, s, labels[0]), labels[1..]))
  }

  predicate PortalAlwaysFindsIntent(c: Catalog, s: State, labels: seq<Label>)
    decreases |labels|
  {
    labels == [] || (PortalFindsIntent(s, labels[0]) && PortalAlwaysFindsIntent(c, Apply(c, s, labels[0]), labels[1..]))
  }

  lemma {:induction false} BackedRunIff(c: Catalog, s: State, labels: seq<Label>)
    requires Consistent(c) && Shape(c, s) && CancelInv(s)
    ensures AlwaysBacked(c, s, labels) <==> PortalAlwaysFindsIntent(c, s, labels)
    decreases |labels|
  {
    BackedByInv(s);
    if labels != [] {
      hide Apply, CancelInv, Shape, PortalFindsIntent, IsBacked;
      if PortalFindsIntent(s, labels[0]) {
        KeepCancelInv(c, s, labels[0]);
        KeepShape(c, s, labels[0]);
        BackedRunIff(c, Apply(c, s, labels[0]), labels[1..]);
      } else {
        UnbackedByPortal(c, s, labels[0]);
      }
    }
  }

  lemma BackedByInv(s: State)
    requires CancelInv(s)
    ensures IsBacked(s)
  {
  }

  lemma UnbackedByPortal(c: Catalog, s: State, l: Label)
    requires !PortalFindsIntent(s, l)
    ensures !IsBacked(Apply(c, s, l))
  {
  }

  lemma KeepCancelInv(c: Catalog, s: State, l: Label)
    requires Shape(c, s) && CancelInv(s) && PortalFindsIntent(s, l)
    ensures CancelInv(Apply(c, s, l))
  {
    if l.Step? {
      StepKeepsCancel(c, s, l.ok, l.ok2);
    } else {
      RequestKeepsCancel(c, s, l);
    }
  }

  /** Before the first handler runs: no cancellation, and Stripe reports when the paid period ends. */
  predicate StartUncanceled(c: Catalog, s: State) {
    Start(c, s) && !s.sub.cancelAtPeriodEnd && s.sub.periodEnd > 0
  }

  /**
    At every point of a run, with withdrawals and crashes anywhere, a cancellation held at Stripe has a scheduled cancel
    intent, if and only if every cancellation made in Stripe's portal found one. The service's own handlers never lose it.
  */
  lemma CancellationIsBackedIff(c: Catalog, s: State, labels: seq<Label>)
    requires Consistent(c) && StartUncanceled(c, s)
    ensures AlwaysBacked(c, s, labels) <==> PortalAlwaysFindsIntent(c, s, labels)
  {
    BackedRunIff(c, s, labels);
  }
}
