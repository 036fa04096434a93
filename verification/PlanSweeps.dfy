/**
  When the sweep over stale intents gives one up, and what unanswered lookups cannot do to one it has not given up.
*/
module PlanSweeps {
  import opened Wrappers
  import opened PlanModel
  import opened PlanProtocol
  import opened PlanInvariants
  import opened PlanTheorems

  // ---------- Giving up ----------

  /** The intent is more than a day old, or the price that is paid stands for no tier. */
  predicate MayGiveUp(c: Catalog, s: State, i: nat) {
    i < |s.intents| && (s.clock - s.intents[i].createdAt > 24 * 3600 * 1000 || s.sub.price !in c.tierOfPrice)
  }

  predicate GivesUpRightly(c: Catalog, s: State) {
    s.pc.ReconFail? ==> MayGiveUp(c, s, s.pc.i)
  }

  lemma KeepGivesUpRightly(c: Catalog, s: State, l: Label)
    requires GivesUpRightly(c, s)
    ensures GivesUpRightly(c, Apply(c, s, l))
  {
    if l.Step? {
      if InRecon(s.pc) {
        ReconGivesUpRightly(c, s, l.ok);
      } else {
        OthersGiveNothingUp(c, s, l.ok, l.ok2);
      }
    }
  }

  lemma ReconGivesUpRightly(c: Catalog, s: State, ok: bool)
    requires GivesUpRightly(c, s) && InRecon(s.pc)
    ensures GivesUpRightly(c, DoRecon(c, s, ok))
  {
  }

  lemma OthersGiveNothingUp(c: Catalog, s: State, ok: bool, ok2: bool)
    requires !InRecon(s.pc)
    ensures !DoStep(c, s, ok, ok2).pc.ReconFail?
  {
    hide Resolve, MarkOne, TierForPrice, Cleared;
    if InHook(s.pc) {
      HookGivesNothingUp(c, s, ok);
    } else if InDue(s.pc) {
      DueGivesNothingUp(c, s, ok, ok2);
    } else if InCancels(s.pc) {
      CancelsGiveNothingUp(s, ok, ok2);
    }
  }

  lemma HookGivesNothingUp(c: Catalog, s: State, ok: bool)
    requires InHook(s.pc)
    ensures !DoHook(c, s, ok).pc.ReconFail?
  {
  }

  lemma DueGivesNothingUp(c: Catalog, s: State, ok: bool, ok2: bool)
    requires InDue(s.pc)
    ensures !DoDue(c, s, ok, ok2).pc.ReconFail?
  {
  }

  lemma CancelsGiveNothingUp(s: State, ok: bool, ok2: bool)
    requires InCancels(s.pc)
    ensures !DoCancels(s, ok, ok2).pc.ReconFail?
  {
  }

  lemma {:induction false} RunGivesUpRightly(c: Catalog, s: State, labels: seq<Label>)
    requires GivesUpRightly(c, s)
    ensures GivesUpRightly(c, Run(c, s, labels))
    decreases |labels|
  {
    hide Apply, GivesUpRightly;
    if labels != [] {
      KeepGivesUpRightly(c, s, labels[0]);
      RunGivesUpRightly(c, Apply(c, s, labels[0]), labels[1..]);
    }
  }

  /** A pending intent becomes failed by this step, by the hand of a sweep. */
  predicate GivenUp(s: State, s': State, k: nat) {
    && k < |s.intents| && k < |s'.intents| && s.intents[k].status == Pending
    && s'.intents[k].status == Failed && s'.intents[k].bySweep
  }

  lemma OnlyReconGivesUp(c: Catalog, s: State, l: Label, k: nat)
    requires Shape(c, s) && GivenUp(s, Apply(c, s, l), k)
    ensures s.pc.ReconFail? && s.pc.i == k
  {
    if l.Step? {
      if InRecon(s.pc) {
        ReconGivesUpItsOwn(c, s, l.ok, k);
      } else if InDue(s.pc) {
        DueLeavesPending(c, s, l.ok, l.ok2, k);
        assert false;
      } else {
        OthersStampNoSweep(c, s, l.ok, l.ok2, k);
        assert false;
      }
    }
  }

  lemma ReconGivesUpItsOwn(c: Catalog, s: State, ok: bool, k: nat)
    requires InRecon(s.pc) && GivenUp(s, DoRecon(c, s, ok), k)
    ensures s.pc.ReconFail? && s.pc.i == k
  {
  }

  lemma DueLeavesPending(c: Catalog, s: State, ok: bool, ok2: bool, k: nat)
    requires Shape(c, s) && InDue(s.pc) && k < |s.intents| && s.intents[k].status == Pending
    ensures k < |DoDue(c, s, ok, ok2).intents| && DoDue(c, s, ok, ok2).intents[k] == s.intents[k]
  {
  }

  lemma OthersStampNoSweep(c: Catalog, s: State, ok: bool, ok2: bool, k: nat)
    requires !InRecon(s.pc) && !InDue(s.pc) && k < |s.intents| && s.intents[k].status == Pending
    ensures !GivenUp(s, DoStep(c, s, ok, ok2), k)
  {
    hide TierForPrice;
    if InHook(s.pc) {
      HookStampsNoSweep(c, s, ok, k);
    } else if InCancels(s.pc) {
      CancelsStampNoSweep(s, ok, ok2, k);
    } else if InUpgrade(s.pc) {
      UpgradeStampsNoSweep(c, s, ok, k);
    }
  }

  lemma HookStampsNoSweep(c: Catalog, s: State, ok: bool, k: nat)
    requires InHook(s.pc)
    ensures !GivenUp(s, DoHook(c, s, ok), k)
  {
  }

  lemma CancelsStampNoSweep(s: State, ok: bool, ok2: bool, k: nat)
    requires InCancels(s.pc)
    ensures !GivenUp(s, DoCancels(s, ok, ok2), k)
  {
  }

  lemma UpgradeStampsNoSweep(c: Catalog, s: State, ok: bool, k: nat)
    requires InUpgrade(s.pc)
    ensures !GivenUp(s, DoUpgrade(c, s, ok), k)
  {
  }

  /**
    At any point of any run: a sweep gives a pending intent up only if it is more than a day old, or if the price that is
    paid stands for no tier.
  */
  lemma GivesUpOnlyLate(c: Catalog, s: State, labels: seq<Label>, l: Label, k: nat)
    requires Consistent(c) && Start(c, s) && GivenUp(Run(c, s, labels), Apply(c, Run(c, s, labels), l), k)
    ensures MayGiveUp(c, Run(c, s, labels), k)
  {
    hide Run, Apply;
    RunShape(c, s, labels);
    RunGivesUpRightly(c, s, labels);
    OnlyReconGivesUp(c, Run(c, s, labels), l, k);
  }

  // ---------- Unanswered lookups ----------

  /** A step of a sweep, in which Stripe does not answer, or of time, or a crash. */
  predicate Unanswered(s: State, l: Label) {
    || l.Tick? || l.Crash? || l.SweepStale? || l.SweepDue? || l.SweepCancels?
    || (l.Step? && (s.pc.Recon? || s.pc.Due? || s.pc.Cancels? ==> !l.ok))
  }

  predicate AllUnanswered(c: Catalog, s: State, labels: seq<Label>)
    decreases |labels|
  {
    labels == [] || (Unanswered(s, labels[0]) && AllUnanswered(c, Apply(c, s, labels[0]), labels[1..]))
  }

  predicate InSweep(pc: Pc) {
    pc.Idle? || pc.Recon? || pc.ReconFail? || pc.Due? || pc.Cancels?
  }

  /** Nothing but the giving up of old intents has been written. */
  predicate Waits(c: Catalog, s: State, t: State) {
    && InSweep(t.pc) && t.sub == s.sub && t.tenant == s.tenant && |t.intents| == |s.intents| && s.clock <= t.clock
    && GivesUpRightly(c, t) && Shape(c, t)
    && forall k :: 0 <= k < |s.intents| ==>
         t.intents[k] == s.intents[k]
         || (t.intents[k] == s.intents[k].(status := t.intents[k].status, resolvedTier := "", bySweep := true)
             && MayGiveUp(c, t, k))
  }

  lemma KeepWaiting(c: Catalog, s: State, t: State, l: Label)
    requires Consistent(c) && Waits(c, s, t) && Unanswered(t, l)
    ensures Waits(c, s, Apply(c, t, l))
  {
    KeepShape(c, t, l);
    KeepGivesUpRightly(c, t, l);
    if l.Step? {
      if InRecon(t.pc) {
        ReconWaits(c, s, t, l.ok);
      } else if t.pc.Due? {
        DueWaits(c, s, t, l.ok2);
      }
    }
  }

  lemma ReconWaits(c: Catalog, s: State, t: State, ok: bool)
    requires Waits(c, s, t) && InRecon(t.pc) && (t.pc.Recon? ==> !ok)
    requires Shape(c, DoRecon(c, t, ok)) && GivesUpRightly(c, DoRecon(c, t, ok))
    ensures Waits(c, s, DoRecon(c, t, ok))
  {
    hide Shape;
  }

  lemma DueWaits(c: Catalog, s: State, t: State, ok2: bool)
    requires Waits(c, s, t) && t.pc.Due?
    requires Shape(c, DoDue(c, t, false, ok2)) && GivesUpRightly(c, DoDue(c, t, false, ok2))
    ensures Waits(c, s, DoDue(c, t, false, ok2))
  {
    if t.pc.todo != [] {
      assert ScheduledPlan(t.intents[t.pc.todo[0]]) && Sellable(c, t.intents[t.pc.todo[0]].to);
    }
  }

  lemma {:induction false} RunWaits(c: Catalog, s: State, t: State, labels: seq<Label>)
    requires Consistent(c) && Waits(c, s, t) && AllUnanswered(c, t, labels)
    ensures Waits(c, s, Run(c, t, labels))
    decreases |labels|
  {
    hide Apply, Waits, Unanswered;
    if labels != [] {
      KeepWaiting(c, s, t, labels[0]);
      RunWaits(c, s, Apply(c, t, labels[0]), labels[1..]);
    }
  }

  /**
    However many sweeps were not answered: within a day an intent is still pending, as it was, and one answered sweep over
    it then makes the tiers equal and confirms it with the tier that is paid for.
  */
  lemma StaleIntentSettles(c: Catalog, s: State, labels: seq<Label>, olderThan: int, i: nat)
    requires Consistent(c) && Shape(c, s) && s.pc.Idle? && s.sub.price in c.tierOfPrice
    requires i < |s.intents| && s.intents[i].status == Pending && s.intents[i].createdAt <= olderThan
    requires AllUnanswered(c, s, labels) && Run(c, s, labels).pc.Idle?
    requires Run(c, s, labels).clock - s.intents[i].createdAt <= 24 * 3600 * 1000
    ensures
      var t := Run(c, s, labels);
      var u := Run(c, t, [SweepStale(olderThan, [i])] + Steps(3));
      && t.tenant == s.tenant && t.sub == s.sub && i < |t.intents| && t.intents[i] == s.intents[i]
      && u.sub == s.sub && u.tenant == s.tenant.(tier := c.tierOfPrice[s.sub.price]) && InSync(c, u)
      && i < |u.intents|
      && u.intents[i] == s.intents[i].(status := Confirmed, resolvedTier := c.tierOfPrice[s.sub.price], bySweep := false)
  {
    assert Waits(c, s, s);
    RunWaits(c, s, s, labels);
    var t := Run(c, s, labels);
    hide Run, Apply, Shape, AllUnanswered;
    assert AreStale(t.intents, [i], olderThan);
    SweepRestoresSync(c, t, olderThan, [i]);
    assert |[i]| == 1 && 3 * |[i]| == 3 && i in [i];
  }
}
