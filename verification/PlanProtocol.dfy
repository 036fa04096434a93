/**
  The billing handlers of one tenant as steps that can fail or crash between any two writes.

  Handlers of one tenant are not interleaved, so there is one program counter. `Step(ok, ok2)` performs the
  pending write of the running handler: `ok` is its outcome, and `ok2` the outcome of the second external
  call where a step makes two. A failed call changes nothing. `Apply` is total: a label whose guard fails
  changes nothing, so a run is any sequence of labels.
*/
module PlanProtocol {
  import opened Wrappers
  import opened PlanModel

  datatype Pc =
    | Idle
      // change of plan, upgrade: the intent is inserted first
    | UpStripe(i: nat, target: Tier)
    | UpTenant(i: nat, target: Tier)
    | UpResolve(i: nat, target: Tier)
    | UpFail(i: nat)
      // change of plan, downgrade: the projection is written first
    | DownInsert(target: Tier, at: int)
    | UndoProjection
      // reconciliation sweep: stale pending intents, due downgrades, scheduled cancellations
    | Recon(todo: seq<nat>)
    | ReconTenant(i: nat, paid: Tier, todo: seq<nat>)
    | ReconResolve(i: nat, paid: Tier, todo: seq<nat>)
    | ReconFail(i: nat, todo: seq<nat>)
    | Due(now: int, todo: seq<nat>)
    | DueTenant(i: nat, now: int, todo: seq<nat>)
    | DueResolve(i: nat, now: int, todo: seq<nat>)
    | DueFail(i: nat, now: int, todo: seq<nat>)
    | DueClear(now: int, todo: seq<nat>)
    | Cancels(todo: seq<nat>)
    | CancelsResolve(i: nat, todo: seq<nat>)
    | CancelsClear(todo: seq<nat>)
      // subscription webhook
    | HookMark(marks: seq<nat>, incomplete: bool)
    | HookTenant(incomplete: bool, unsetChange: bool)
    | HookConfirm(paid: Tier, todo: seq<nat>)
      // cancellation at period end, and its reversal
    | CancelInsert(at: int)
    | CancelStripe(i: nat)
    | CancelFail(i: nat)
    | ReactStripe
    | ReactUndo
    | ReactMark(marks: seq<nat>)
    | ReactInsert
    | ReactClear
      // withdrawal of a scheduled downgrade
    | WithdrawMark(marks: seq<nat>)
    | WithdrawClear

  /** The sweep changed Stripe's price for intent `i` while its own clock read `now`. */
  datatype Applied = Applied(i: nat, now: int)

  datatype State = State(sub: Sub, tenant: Tenant, intents: seq<Intent>, clock: int, pc: Pc, applied: seq<Applied>)

  datatype Label =
    | Tick(t: int)
    | Crash
      /** Stripe renews the subscription: the paid period ends later. */
    | Renew(end: int)
      /** The tenant cancels at period end in Stripe's own portal, or takes that back there. */
    | PortalCancel(on: bool)
    | Step(ok: bool, ok2: bool)
    | RequestPlan(target: Tier, fits: bool)
    | RequestCancel
    | RequestReactivate
    | RequestWithdraw(marks: seq<nat>)
      /** The three phases of a sweep, each with the documents its query returned, in any order and any number. */
    | SweepStale(olderThan: int, todo: seq<nat>)
    | SweepDue(todo: seq<nat>)
    | SweepCancels(todo: seq<nat>)
    | Webhook(incomplete: bool, marks: seq<nat>)
      /** The webhook's confirmation query. */
    | Confirm(todo: seq<nat>)
    | ReactivateMarks(marks: seq<nat>)

  const DAY: int := 86_400_000

  predicate Distinct(xs: seq<nat>) {
    forall j, k :: 0 <= j < k < |xs| ==> xs[j] != xs[k]
  }

  predicate Below(xs: seq<nat>, n: nat) {
    forall k :: 0 <= k < |xs| ==> xs[k] < n
  }

  predicate InSync(c: Catalog, s: State) {
    TierForPrice(c, s.sub.price) == Some(s.tenant.tier)
  }

  predicate AreStale(intents: seq<Intent>, todo: seq<nat>, olderThan: int) {
    Below(todo, |intents|) && Distinct(todo) && forall k :: 0 <= k < |todo| ==> IsStale(intents[todo[k]], olderThan)
  }

  predicate ArePending(intents: seq<Intent>, todo: seq<nat>) {
    Below(todo, |intents|) && Distinct(todo) && forall k :: 0 <= k < |todo| ==> intents[todo[k]].status == Pending
  }

  predicate AreDue(intents: seq<Intent>, todo: seq<nat>, now: int) {
    Below(todo, |intents|) && Distinct(todo) && forall k :: 0 <= k < |todo| ==> IsDue(intents[todo[k]], now)
  }

  predicate AreScheduled(intents: seq<Intent>, todo: seq<nat>, kind: Change) {
    Below(todo, |intents|) && forall k :: 0 <= k < |todo| ==> intents[todo[k]].kind == kind && intents[todo[k]].status == Scheduled
  }

  function Apply(c: Catalog, s: State, l: Label): State {
    match l
    case Tick(t) => if s.clock <= t then s.(clock := t) else s
    case Crash => s.(pc := Idle)
    case Renew(end) => if s.pc.Idle? && s.sub.periodEnd <= end then s.(sub := s.sub.(periodEnd := end)) else s
    case PortalCancel(on) => if s.pc.Idle? then s.(sub := s.sub.(cancelAtPeriodEnd := on)) else s
    case Step(ok, ok2) => DoStep(c, s, ok, ok2)
    case RequestPlan(target, fits) => if s.pc.Idle? then DoRequestPlan(c, s, target, fits) else s
    case RequestCancel =>
      if s.pc.Idle? && s.sub.periodEnd > s.clock && Projected(s.tenant, ChangeCancel, "", s.sub.periodEnd).Some? then
        s.(tenant := Projected(s.tenant, ChangeCancel, "", s.sub.periodEnd).value, pc := CancelInsert(s.sub.periodEnd))
      else s
    case RequestReactivate =>
      if s.pc.Idle? && s.tenant.change == ChangeCancel
      then s.(tenant := s.tenant.(change := ChangeReactivate), pc := ReactStripe) else s
    case RequestWithdraw(marks) =>
      if s.pc.Idle? && s.tenant.change == ChangePlan && AreScheduled(s.intents, marks, ChangePlan)
      then s.(pc := WithdrawMark(marks)) else s
    case SweepStale(olderThan, todo) =>
      if s.pc.Idle? && AreStale(s.intents, todo, olderThan) then s.(pc := Recon(todo)) else s
    case SweepDue(todo) =>
      if s.pc == Recon([]) && AreDue(s.intents, todo, s.clock) then s.(pc := Due(s.clock, todo)) else s
    case SweepCancels(todo) =>
      if s.pc.Due? && s.pc.todo == [] && AreScheduled(s.intents, todo, ChangeCancel) then s.(pc := Cancels(todo)) else s
    case Webhook(incomplete, marks) =>
      if !s.pc.Idle? || !AreScheduled(s.intents, marks, ChangeCancel) then s
      else if s.sub.cancelAtPeriodEnd && s.sub.periodEnd > 0 then s.(pc := HookTenant(incomplete, false))
      else if s.tenant.change == ChangeCancel then s.(pc := HookMark(marks, incomplete))
      else s.(pc := HookTenant(incomplete, false))
    case Confirm(todo) =>
      if s.pc.HookConfirm? && s.pc.todo == [] && ArePending(s.intents, todo) then s.(pc := HookConfirm(s.pc.paid, todo)) else s
    case ReactivateMarks(marks) =>
      if s.pc == ReactMark([]) && AreScheduled(s.intents, marks, ChangeCancel) then s.(pc := ReactMark(marks)) else s
  }

  function Run(c: Catalog, s: State, labels: seq<Label>): State
    decreases |labels|
  {
    if labels == [] then s else Run(c, Apply(c, s, labels[0]), labels[1..])
  }

  /** The request handler up to its first write. `fits`: current usage is within the target's limits. */
  function DoRequestPlan(c: Catalog, s: State, target: Tier, fits: bool): State {
    if !Sellable(c, target) || s.tenant.tier !in c.plans || s.tenant.tier == target || s.tenant.change != NoChange then s
    else if c.plans[target].priceUSD < c.plans[s.tenant.tier].priceUSD then
      if !fits || s.sub.periodEnd <= s.clock then s
      else
        s.(tenant := Projected(s.tenant, ChangePlan, target, s.sub.periodEnd).value,
           pc := DownInsert(target, s.sub.periodEnd))
    else
      s.(intents := s.intents + [Intent(ChangePlan, s.tenant.tier, target, Pending, s.clock, 0, "", false)],
         pc := UpStripe(|s.intents|, target))
  }

  predicate InUpgrade(pc: Pc) { pc.UpStripe? || pc.UpTenant? || pc.UpResolve? || pc.UpFail? }
  predicate InRecon(pc: Pc) { pc.Recon? || pc.ReconTenant? || pc.ReconResolve? || pc.ReconFail? }
  predicate InDue(pc: Pc) { pc.Due? || pc.DueTenant? || pc.DueResolve? || pc.DueFail? || pc.DueClear? }
  predicate InCancels(pc: Pc) { pc.Cancels? || pc.CancelsResolve? || pc.CancelsClear? }
  predicate InHook(pc: Pc) { pc.HookMark? || pc.HookTenant? || pc.HookConfirm? }
  predicate InCancel(pc: Pc) { pc.CancelInsert? || pc.CancelStripe? || pc.CancelFail? }
  predicate InReactivate(pc: Pc) { pc.ReactStripe? || pc.ReactUndo? || pc.ReactMark? || pc.ReactInsert? || pc.ReactClear? }
  predicate InWithdraw(pc: Pc) { pc.WithdrawMark? || pc.WithdrawClear? }

  function DoStep(c: Catalog, s: State, ok: bool, ok2: bool): State {
    if InUpgrade(s.pc) then DoUpgrade(c, s, ok)
    else if s.pc.DownInsert? then DoDowngrade(s, ok)
    else if s.pc.UndoProjection? then s.(tenant := if ok then Cleared(s.tenant) else s.tenant, pc := Idle)
    else if InRecon(s.pc) then DoRecon(c, s, ok)
    else if InDue(s.pc) then DoDue(c, s, ok, ok2)
    else if InCancels(s.pc) then DoCancels(s, ok, ok2)
    else if InHook(s.pc) then DoHook(c, s, ok)
    else if InCancel(s.pc) then DoCancel(s, ok)
    else if InReactivate(s.pc) then DoReactivate(s, ok)
    else if InWithdraw(s.pc) then DoWithdraw(s, ok)
    else s
  }

  /** A resolution whose write may fail; the failure is logged and ignored. */
  function TryResolve(s: State, ok: bool, i: nat, status: IntentStatus, tier: Tier, bySweep: bool, pc: Pc): State {
    s.(intents := if ok && i < |s.intents| then Resolve(s.intents, i, status, tier, bySweep) else s.intents, pc := pc)
  }

  function DoUpgrade(c: Catalog, s: State, ok: bool): State {
    match s.pc
    case UpStripe(i, target) =>
      if ok && target in c.plans then s.(sub := s.sub.(price := c.plans[target].priceId), pc := UpTenant(i, target))
      else s.(pc := UpFail(i))
    case UpTenant(i, target) =>
      if ok then s.(tenant := s.tenant.(tier := target), pc := UpResolve(i, target)) else s.(pc := Idle)
    case UpResolve(i, target) => TryResolve(s, ok, i, Confirmed, target, false, Idle)
    case UpFail(i) => TryResolve(s, ok, i, Failed, "", false, Idle)
    case _ => s
  }

  function DoDowngrade(s: State, ok: bool): State {
    match s.pc
    case DownInsert(target, at) =>
      if ok then
        s.(intents := s.intents + [Intent(ChangePlan, s.tenant.tier, target, Scheduled, s.clock, at, "", false)], pc := Idle)
      else s.(pc := UndoProjection)
    case _ => s
  }

  /** `ok` on a Recon step: Stripe answered the lookup. */
  function DoRecon(c: Catalog, s: State, ok: bool): State {
    match s.pc
    case Recon(todo) =>
      if todo == [] || todo[0] >= |s.intents| then s
      else
        var i, rest := todo[0], todo[1..];
        if !ok then
          if s.clock - s.intents[i].createdAt > DAY then s.(pc := ReconFail(i, rest)) else s.(pc := Recon(rest))
        else if TierForPrice(c, s.sub.price).None? then s.(pc := ReconFail(i, rest))
        else s.(pc := ReconTenant(i, TierForPrice(c, s.sub.price).value, rest))
    case ReconTenant(i, paid, todo) =>
      if ok then s.(tenant := s.tenant.(tier := paid), pc := ReconResolve(i, paid, todo)) else s.(pc := Recon(todo))
    case ReconResolve(i, paid, todo) => TryResolve(s, ok, i, Confirmed, paid, false, Recon(todo))
    case ReconFail(i, todo) => TryResolve(s, ok, i, Failed, "", true, Recon(todo))
    case _ => s
  }

  /** `ok` on a Due step: the lookup answered; `ok2`: the price update, when one is needed, was accepted. */
  function DoDue(c: Catalog, s: State, ok: bool, ok2: bool): State {
    match s.pc
    case Due(now, todo) =>
      if todo == [] || todo[0] >= |s.intents| then s
      else
        var i, rest := todo[0], todo[1..];
        var to := s.intents[i].to;
        if to !in c.plans then s.(pc := DueFail(i, now, rest))
        else if !ok then s.(pc := Due(now, rest))
        else if s.sub.price == c.plans[to].priceId then s.(pc := DueTenant(i, now, rest))
        else if ok2 && c.plans[to].priceId != "" then
          s.(sub := s.sub.(price := c.plans[to].priceId), pc := DueTenant(i, now, rest),
             applied := s.applied + [Applied(i, now)])
        else s.(pc := Due(now, rest))
    case DueTenant(i, now, todo) =>
      if ok && i < |s.intents| then s.(tenant := Cleared(s.tenant).(tier := s.intents[i].to), pc := DueResolve(i, now, todo))
      else s.(pc := Due(now, todo))
    case DueResolve(i, now, todo) =>
      TryResolve(s, ok, i, Confirmed, if i < |s.intents| then s.intents[i].to else "", false, Due(now, todo))
    case DueFail(i, now, todo) => TryResolve(s, ok, i, Failed, "", true, DueClear(now, todo))
    case DueClear(now, todo) => s.(tenant := if ok then Cleared(s.tenant) else s.tenant, pc := Due(now, todo))
    case _ => s
  }

  /** `ok` on a Cancels step: the lookup answered; `ok2`: the projection was written. */
  function DoCancels(s: State, ok: bool, ok2: bool): State {
    match s.pc
    case Cancels(todo) =>
      if todo == [] then s.(pc := Idle)
      else if todo[0] >= |s.intents| || !ok then s.(pc := Cancels(todo[1..]))
      else if !s.sub.cancelAtPeriodEnd then s.(pc := CancelsResolve(todo[0], todo[1..]))
      else
        s.(tenant := if ok2 then s.tenant.(change := ChangeCancel, pendingTier := "",
                                           effectiveAt := Some(if s.sub.periodEnd == 0 then s.intents[todo[0]].effectiveAt else s.sub.periodEnd))
                     else s.tenant,
           pc := Cancels(todo[1..]))
    case CancelsResolve(i, todo) => TryResolve(s, ok, i, Canceled, "", false, CancelsClear(todo))
    case CancelsClear(todo) => s.(tenant := if ok then Cleared(s.tenant) else s.tenant, pc := Cancels(todo))
    case _ => s
  }

  /** The event carries the current price. The tenant document is written once, after the cancel intents. */
  function DoHook(c: Catalog, s: State, ok: bool): State {
    match s.pc
    case HookMark(marks, incomplete) =>
      if marks == [] then s.(pc := HookTenant(incomplete, true))
      else
        s.(intents := if ok && marks[0] < |s.intents|
                      then s.intents[marks[0] := MarkOne(s.intents[marks[0]], ChangeCancel, Canceled)] else s.intents,
           pc := HookMark(marks[1..], incomplete))
    case HookTenant(incomplete, unsetChange) =>
      if incomplete || !ok then s.(pc := Idle)
      else
        var paid := TierForPrice(c, s.sub.price);
        var t := if s.sub.cancelAtPeriodEnd && s.sub.periodEnd > 0
                 then s.tenant.(change := ChangeCancel, pendingTier := "", effectiveAt := Some(s.sub.periodEnd))
                 else if unsetChange then Cleared(s.tenant) else s.tenant;
        if paid.None? then s.(tenant := t, pc := Idle)
        else s.(tenant := t.(tier := paid.value), pc := HookConfirm(paid.value, []))
    case HookConfirm(paid, todo) =>
      if todo == [] then s.(pc := Idle)
      else TryResolve(s, ok, todo[0], Confirmed, paid, false, HookConfirm(paid, todo[1..]))
    case _ => s
  }

  function DoCancel(s: State, ok: bool): State {
    match s.pc
    case CancelInsert(at) =>
      if ok then
        s.(intents := s.intents + [Intent(ChangeCancel, s.tenant.tier, "", Scheduled, s.clock, at, "", false)],
           pc := CancelStripe(|s.intents|))
      else s.(pc := UndoProjection)
    case CancelStripe(i) =>
      if ok then s.(sub := s.sub.(cancelAtPeriodEnd := true), pc := Idle) else s.(pc := CancelFail(i))
    case CancelFail(i) => TryResolve(s, ok, i, Failed, "", false, UndoProjection)
    case _ => s
  }

  function DoReactivate(s: State, ok: bool): State {
    match s.pc
    case ReactStripe =>
      if ok then s.(sub := s.sub.(cancelAtPeriodEnd := false), pc := ReactMark([])) else s.(pc := ReactUndo)
    case ReactUndo => s.(tenant := if ok then s.tenant.(change := ChangeCancel) else s.tenant, pc := Idle)
    case ReactMark(marks) =>
      if marks == [] then s.(pc := ReactInsert)
      else
        s.(intents := if ok && marks[0] < |s.intents|
                      then s.intents[marks[0] := MarkOne(s.intents[marks[0]], ChangeCancel, Canceled)] else s.intents,
           pc := if |marks| == 1 then ReactInsert else ReactMark(marks[1..]))
    case ReactInsert =>
      s.(intents := if ok then s.intents + [Intent(ChangeReactivate, s.tenant.tier, s.tenant.tier, Confirmed, s.clock, 0, "", false)]
                    else s.intents,
         pc := ReactClear)
    case ReactClear => s.(tenant := if ok then Cleared(s.tenant) else s.tenant, pc := Idle)
    case _ => s
  }

  function DoWithdraw(s: State, ok: bool): State {
    match s.pc
    case WithdrawMark(marks) =>
      if marks == [] then s.(pc := WithdrawClear)
      else
        s.(intents := if ok && marks[0] < |s.intents|
                      then s.intents[marks[0] := MarkOne(s.intents[marks[0]], ChangePlan, Canceled)] else s.intents,
           pc := WithdrawMark(marks[1..]))
    case WithdrawClear => s.(tenant := if ok then Cleared(s.tenant) else s.tenant, pc := Idle)
    case _ => s
  }
}
