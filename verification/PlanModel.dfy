/**
  One tenant's plan: the subscription at Stripe, the plan fields of the tenant document and the
  plan-change intents, with every single write the billing handlers perform on them.
*/
module PlanModel {
  import opened Wrappers

  type Tier = string
  type Price = string

  datatype Plan = Plan(priceUSD: int, priceId: Price)

  /** The plan table and the price mapping of a deployment. An unset price id is the empty string. */
  datatype Catalog = Catalog(plans: map<Tier, Plan>, tierOfPrice: map<Price, Tier>)

  /** The two tables are configured from the same settings. */
  predicate Consistent(c: Catalog) {
    forall t :: t in c.plans && c.plans[t].priceId != "" ==>
      c.plans[t].priceId in c.tierOfPrice && c.tierOfPrice[c.plans[t].priceId] == t
  }

  function TierForPrice(c: Catalog, p: Price): Option<Tier> {
    if p in c.tierOfPrice then Some(c.tierOfPrice[p]) else None
  }

  predicate Sellable(c: Catalog, t: Tier) {
    t in c.plans && c.plans[t].priceId != ""
  }

  datatype Sub = Sub(price: Price, cancelAtPeriodEnd: bool, periodEnd: int)

  datatype Change = NoChange | ChangePlan | ChangeCancel | ChangeReactivate

  /** `effectiveAt` is the projected billing_change_effective_at. */
  datatype Tenant = Tenant(tier: Tier, change: Change, pendingTier: Tier, effectiveAt: Option<int>)

  datatype IntentStatus = Pending | Scheduled | Confirmed | Failed | Canceled

  /** `bySweep`: the failure was recorded by the reconciliation sweep, with its own note. */
  datatype Intent = Intent(
    kind: Change, from: Tier, to: Tier, status: IntentStatus,
    createdAt: int, effectiveAt: int, resolvedTier: Tier, bySweep: bool)

  predicate Open(i: Intent) {
    i.status == Pending || i.status == Scheduled
  }

  /** The guarded update that stamps an intent's outcome: it matches open intents only. */
  function Resolve(intents: seq<Intent>, i: nat, status: IntentStatus, tier: Tier, bySweep: bool): (r: seq<Intent>)
    requires i < |intents|
    ensures |r| == |intents|
  {
    if Open(intents[i])
    then intents[i := intents[i].(status := status, resolvedTier := tier, bySweep := bySweep)]
    else intents
  }

  /** One document of an update-all over the scheduled intents of a kind. */
  function MarkOne(x: Intent, kind: Change, status: IntentStatus): Intent {
    if x.kind == kind && x.status == Scheduled then x.(status := status) else x
  }

  function Cleared(t: Tenant): Tenant {
    t.(change := NoChange, pendingTier := "", effectiveAt := None)
  }

  /** The projection is guarded: it matches only a tenant with no change under way. */
  function Projected(t: Tenant, kind: Change, to: Tier, at: int): Option<Tenant> {
    if t.change == NoChange then Some(t.(change := kind, pendingTier := to, effectiveAt := Some(at))) else None
  }

  predicate IsDue(x: Intent, now: int) {
    x.kind == ChangePlan && x.status == Scheduled && x.effectiveAt <= now
  }

  predicate IsStale(x: Intent, olderThan: int) {
    x.status == Pending && x.createdAt <= olderThan
  }

  /** The documents of one tenant, with the loops of the settlement code run to the end without a fault. */
  class PlanStore {
    var sub: Sub
    var tenant: Tenant
    var intents: seq<Intent>

    constructor (sub: Sub, tenant: Tenant)
      ensures this.sub == sub && this.tenant == tenant && intents == []
    {
      this.sub, this.tenant, intents := sub, tenant, [];
    }

    method MarkScheduledIntents(kind: Change, status: IntentStatus)
      modifies this`intents
      ensures |intents| == |old(intents)|
      ensures forall k :: 0 <= k < |intents| ==> intents[k] == MarkOne(old(intents)[k], kind, status)
    {
      var i := 0;
      while i < |intents|
        invariant 0 <= i <= |intents| == |old(intents)|
        invariant forall k :: 0 <= k < i ==> intents[k] == MarkOne(old(intents)[k], kind, status)
        invariant forall k :: i <= k < |intents| ==> intents[k] == old(intents)[k]
      {
        intents := intents[i := MarkOne(intents[i], kind, status)];
        i := i + 1;
      }
    }

    /** Settles every pending intent against the tier Stripe reports, whatever the intent hoped for. */
    method ConfirmPlanIntents(tier: Tier)
      modifies this`intents
      ensures |intents| == |old(intents)|
      ensures forall k :: 0 <= k < |intents| ==>
        intents[k] == if old(intents)[k].status == Pending
                      then old(intents)[k].(status := Confirmed, resolvedTier := tier, bySweep := false)
                      else old(intents)[k]
    {
      var i := 0;
      while i < |intents|
        invariant 0 <= i <= |intents| == |old(intents)|
        invariant forall k :: 0 <= k < i ==>
          intents[k] == if old(intents)[k].status == Pending
                        then old(intents)[k].(status := Confirmed, resolvedTier := tier, bySweep := false)
                        else old(intents)[k]
        invariant forall k :: i <= k < |intents| ==> intents[k] == old(intents)[k]
      {
        if intents[i].status == Pending {
          intents := Resolve(intents, i, Confirmed, tier, false);
        }
        i := i + 1;
      }
    }

    /** A sweep over the stale pending intents with Stripe reachable: recorded tier and paid tier agree afterwards. */
    method ReconcileStale(c: Catalog, olderThan: int)
      requires TierForPrice(c, sub.price).Some?
      modifies this`tenant, this`intents
      ensures |intents| == |old(intents)|
      ensures forall k :: 0 <= k < |intents| ==>
        intents[k] == if IsStale(old(intents)[k], olderThan)
                      then old(intents)[k].(status := Confirmed, resolvedTier := TierForPrice(c, sub.price).value, bySweep := false)
                      else old(intents)[k]
      ensures tenant == old(tenant).(tier := tenant.tier)
      ensures tenant.tier ==
        if exists k :: 0 <= k < |old(intents)| && IsStale(old(intents)[k], olderThan)
        then TierForPrice(c, sub.price).value else old(tenant).tier
    {
      var tier := TierForPrice(c, sub.price).value;
      var i := 0;
      while i < |intents|
        invariant 0 <= i <= |intents| == |old(intents)|
        invariant forall k :: 0 <= k < i ==>
          intents[k] == if IsStale(old(intents)[k], olderThan)
                        then old(intents)[k].(status := Confirmed, resolvedTier := tier, bySweep := false)
                        else old(intents)[k]
        invariant forall k :: i <= k < |intents| ==> intents[k] == old(intents)[k]
        invariant tenant == old(tenant).(tier := tenant.tier)
        invariant tenant.tier ==
          if exists k :: 0 <= k < i && IsStale(old(intents)[k], olderThan) then tier else old(tenant).tier
      {
        if IsStale(intents[i], olderThan) {
          tenant := tenant.(tier := tier);
          intents := Resolve(intents, i, Confirmed, tier, false);
        }
        i := i + 1;
      }
    }

    /**
      The effective-dated downgrades that are due, with no fault. Whatever an earlier, crashed attempt left
      behind, Stripe's price, the recorded tier and the intents agree, and the projection is gone.
    */
    method ApplyDueBillingChanges(c: Catalog, now: int)
      requires Consistent(c)
      requires forall k :: 0 <= k < |intents| && IsDue(intents[k], now) ==> Sellable(c, intents[k].to)
      modifies this
      ensures |intents| == |old(intents)|
      ensures forall k :: 0 <= k < |intents| ==>
        intents[k] == if IsDue(old(intents)[k], now)
                      then old(intents)[k].(status := Confirmed, resolvedTier := old(intents)[k].to, bySweep := false)
                      else old(intents)[k]
      ensures match LastDue(old(intents), now)
              case None => sub == old(sub) && tenant == old(tenant)
              case Some(k) =>
                && TierForPrice(c, sub.price) == Some(old(intents)[k].to)
                && sub == old(sub).(price := sub.price)
                && tenant == Cleared(old(tenant)).(tier := old(intents)[k].to)
    {
      var i := 0;
      while i < |intents|
        invariant 0 <= i <= |intents| == |old(intents)|
        invariant forall k :: 0 <= k < i ==>
          intents[k] == if IsDue(old(intents)[k], now)
                        then old(intents)[k].(status := Confirmed, resolvedTier := old(intents)[k].to, bySweep := false)
                        else old(intents)[k]
        invariant forall k :: i <= k < |intents| ==> intents[k] == old(intents)[k]
        invariant match LastDue(old(intents)[..i], now)
                  case None => sub == old(sub) && tenant == old(tenant)
                  case Some(k) =>
                    && TierForPrice(c, sub.price) == Some(old(intents)[k].to)
                    && sub == old(sub).(price := sub.price)
                    && tenant == Cleared(old(tenant)).(tier := old(intents)[k].to)
      {
        assert old(intents)[..i + 1][..i] == old(intents)[..i];
        if IsDue(intents[i], now) {
          var target := intents[i].to;
          if sub.price != c.plans[target].priceId {
            sub := sub.(price := c.plans[target].priceId);
          }
          tenant := Cleared(tenant).(tier := target);
          intents := Resolve(intents, i, Confirmed, target, false);
        }
        i := i + 1;
      }
      assert old(intents)[..i] == old(intents);
    }

    /**
      Scheduled cancellations, with no fault. Stripe is authoritative: the projection shows a cancellation
      exactly when Stripe holds one, and a cancellation Stripe no longer holds is closed.
    */
    method ReconcileScheduledCancellations()
      modifies this`tenant, this`intents
      ensures |intents| == |old(intents)|
      ensures sub.cancelAtPeriodEnd ==> intents == old(intents)
      ensures !sub.cancelAtPeriodEnd ==> forall k :: 0 <= k < |intents| ==>
        intents[k] == if IsScheduledCancel(old(intents)[k])
                      then old(intents)[k].(status := Canceled, resolvedTier := "", bySweep := false)
                      else old(intents)[k]
      ensures tenant.tier == old(tenant).tier
      ensures if exists k :: 0 <= k < |old(intents)| && IsScheduledCancel(old(intents)[k])
              then tenant.change == (if sub.cancelAtPeriodEnd then ChangeCancel else NoChange)
              else tenant == old(tenant)
    {
      var i := 0;
      while i < |intents|
        invariant 0 <= i <= |intents| == |old(intents)|
        invariant sub.cancelAtPeriodEnd ==> intents == old(intents)
        invariant !sub.cancelAtPeriodEnd ==> forall k :: 0 <= k < i ==>
          intents[k] == if IsScheduledCancel(old(intents)[k])
                        then old(intents)[k].(status := Canceled, resolvedTier := "", bySweep := false)
                        else old(intents)[k]
        invariant forall k :: i <= k < |intents| ==> intents[k] == old(intents)[k]
        invariant tenant.tier == old(tenant).tier
        invariant if exists k :: 0 <= k < i && IsScheduledCancel(old(intents)[k])
                  then tenant.change == (if sub.cancelAtPeriodEnd then ChangeCancel else NoChange)
                  else tenant == old(tenant)
      {
        if IsScheduledCancel(intents[i]) {
          if !sub.cancelAtPeriodEnd {
            intents := Resolve(intents, i, Canceled, "", false);
            tenant := Cleared(tenant);
          } else {
            var at := if sub.periodEnd == 0 then intents[i].effectiveAt else sub.periodEnd;
            tenant := tenant.(change := ChangeCancel, pendingTier := "", effectiveAt := Some(at));
          }
        }
        i := i + 1;
      }
    }
  }

  predicate IsScheduledCancel(x: Intent) {
    x.kind == ChangeCancel && x.status == Scheduled
  }

  function LastDue(intents: seq<Intent>, now: int): (r: Option<nat>)
    ensures r.Some? ==> r.value < |intents| && IsDue(intents[r.value], now)
    ensures r.None? ==> forall k :: 0 <= k < |intents| ==> !IsDue(intents[k], now)
  {
    if intents == [] then None
    else
      var n := |intents| - 1;
      if IsDue(intents[n], now) then Some(n) else LastDue(intents[..n], now)
  }
}
