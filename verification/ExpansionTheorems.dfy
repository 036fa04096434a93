/**
  What expansion promises of its result: nothing left to expand, exact numbers, levels that can be told apart, and
  clones that say what their templates say.
*/
module ExpansionTheorems {
  import opened Wrappers
  import opened Expansion

  // ---------- Nothing is left to expand ----------

  predicate FlatEnactment(e: Enactment) {
    e.range.None? && e.uses == []
  }

  predicate FlatStoryline(sl: Storyline) {
    sl.uses == [] && sl.loops == [] && forall i :: 0 <= i < |sl.enactments| ==> FlatEnactment(sl.enactments[i])
  }

  predicate FlatStory(st: Story) {
    st.uses == [] && st.loops == [] && forall i :: 0 <= i < |st.storylines| ==> FlatStoryline(st.storylines[i])
  }

  /** No loop, use statement or scene range remains at any level, whatever the definitions and whatever was reported. */
  lemma ExpandedStoryIsFlat(env: Env, st: Story)
    ensures FlatStory(ExpandStory(env, st))
  {
    var sls := AllStorylines(env, st);
    forall i | 0 <= i < |sls|
      ensures FlatStoryline(ExpandStoryline(env, sls[i], StorySender(env, st)))
    {
      StorylineIsFlat(env, sls[i], StorySender(env, st));
    }
  }

  lemma StorylineIsFlat(env: Env, sl: Storyline, sender: Option<Sender>)
    ensures FlatStoryline(ExpandStoryline(env, sl, sender))
  {
    hide Levelled, WithDefaults, SenderAfter, LinkScenes, LinkTriggers, FillSenders, UsedTriggers, MaybeRange;
  }

  // ---------- Exact numbers ----------

  /** How many enactments one use statement stands for. */
  function UseSize(env: Env, u: Use): nat {
    if u.kind == UsePattern && PatternProblems(env, u) == [] then |env.patterns[u.target].enactments| else 0
  }

  function UsesSize(env: Env, us: seq<Use>): nat {
    if us == [] then 0 else UseSize(env, us[0]) + UsesSize(env, us[1..])
  }

  /** Every item of a loop yields the patterns' enactments and the body's. */
  function LoopSize(env: Env, l: Loop): nat {
    |LoopData(env, l.source)| * (UsesSize(env, l.uses) + |l.enactments|)
  }

  function LoopsSize(env: Env, ls: seq<Loop>): nat {
    if ls == [] then 0 else LoopSize(env, ls[0]) + LoopsSize(env, ls[1..])
  }

  lemma {:induction false} UsesSizeSnoc(env: Env, us: seq<Use>, u: Use)
    ensures UsesSize(env, us + [u]) == UsesSize(env, us) + UseSize(env, u)
  {
    if us != [] {
      UsesSizeSnoc(env, us[1..], u);
      assert (us + [u])[1..] == us[1..] + [u];
    }
  }

  lemma {:induction false} LoopsSizeSnoc(env: Env, ls: seq<Loop>, l: Loop)
    ensures LoopsSize(env, ls + [l]) == LoopsSize(env, ls) + LoopSize(env, l)
  {
    hide LoopSize;
    if ls != [] {
      LoopsSizeSnoc(env, ls[1..], l);
      assert (ls + [l])[1..] == ls[1..] + [l];
    }
  }

  lemma {:induction false} UsedInstancesSize(env: Env, us: seq<Use>, sender: Option<Sender>)
    ensures |UsedInstances(env, us, sender)| == UsesSize(env, us)
  {
    hide UseInstances, UseSize, UsesSize, SenderAfter;
    if us == [] {
      NoUsesSize(env);
    } else {
      var n := |us| - 1;
      UsedInstancesSize(env, us[..n], sender);
      UseInstancesSize(env, us[n], SenderAfter(env, us[..n], sender));
      UsesSizeSnoc(env, us[..n], us[n]);
      assert us == us[..n] + [us[n]];
    }
  }

  lemma UseInstancesSize(env: Env, u: Use, sender: Option<Sender>)
    ensures |UseInstances(env, u, sender)| == UseSize(env, u)
  {
    hide Instance, Bind;
  }

  /** The clone of a use statement has as many arguments, so it stands for as many enactments. */
  lemma CloneUseSize(env: Env, u: Use, params: map<string, string>)
    ensures UseSize(env, CloneUse(env.text, u, params)) == UseSize(env, u)
  {
    hide Substitute;
  }

  lemma {:induction false} LoopInstancesSize(env: Env, us: seq<Use>, params: map<string, string>, sender: Option<Sender>)
    ensures |LoopInstances(env, us, params, sender)| == UsesSize(env, us)
  {
    hide UseInstances, UseSize, UsesSize, CloneUse;
    if us == [] {
      NoUsesSize(env);
    } else {
      var n := |us| - 1;
      var u := CloneUse(env.text, us[n], params);
      LoopInstancesSize(env, us[..n], params, sender);
      UseInstancesSize(env, u, sender);
      CloneUseSize(env, us[n], params);
      UsesSizeSnoc(env, us[..n], us[n]);
      assert us == us[..n] + [us[n]];
    }
  }

  lemma NoUsesSize(env: Env)
    ensures UsesSize(env, []) == 0
  {
  }

  lemma {:induction false} LoopRoundsSize(env: Env, l: Loop, items: seq<map<string, string>>, sender: Option<Sender>)
    ensures |LoopRounds(env, l, items, sender)| == |items| * (UsesSize(env, l.uses) + |l.enactments|)
  {
    hide UsesSize, LoopBody, LoopInstances, BindFields;
    if items != [] {
      var n := |items| - 1;
      LoopRoundsSize(env, l, items[..n], sender);
      LoopInstancesSize(env, l.uses, BindFields(env.links, l.variable, items[n]), sender);
    }
  }

  lemma {:induction false} LoopsEnactmentsSize(env: Env, ls: seq<Loop>, sender: Option<Sender>)
    ensures |LoopsEnactments(env, ls, sender)| == LoopsSize(env, ls)
  {
    hide LoopRounds, LoopData;
    if ls != [] {
      var n := |ls| - 1;
      LoopsEnactmentsSize(env, ls[..n], sender);
      LoopRoundsSize(env, ls[n], LoopData(env, ls[n].source), sender);
      LoopsSizeSnoc(env, ls[..n], ls[n]);
      assert ls == ls[..n] + [ls[n]];
    }
  }

  /** The enactments of an expanded storyline: the direct ones, those of the patterns, and those of the loops. */
  lemma EnactmentCount(env: Env, sl: Storyline, sender: Option<Sender>)
    ensures |ExpandStoryline(env, sl, sender).enactments| == |sl.enactments| + UsesSize(env, sl.uses) + LoopsSize(env, sl.loops)
  {
    hide UsedInstances, LoopsEnactments, UsesSize, LoopsSize, AssignLevels, SenderAfter;
    UsedInstancesSize(env, sl.uses, sender);
    LoopsEnactmentsSize(env, sl.loops, SenderAfter(env, sl.uses, sender));
  }

  function StoryLoopsSize(env: Env, ls: seq<StoryLoop>): nat {
    if ls == [] then 0 else |LoopData(env, ls[0].source)| * |ls[0].body| + StoryLoopsSize(env, ls[1..])
  }

  lemma {:induction false} StoryRoundsSize(env: Env, l: StoryLoop, items: seq<map<string, string>>)
    ensures |StoryRounds(env, l, items)| == |items| * |l.body|
  {
    hide StoryRound;
    if items != [] {
      StoryRoundsSize(env, l, items[..|items| - 1]);
    }
  }

  lemma {:induction false} StoryLoopsSizeSnoc(env: Env, ls: seq<StoryLoop>, l: StoryLoop)
    ensures StoryLoopsSize(env, ls + [l]) == StoryLoopsSize(env, ls) + |LoopData(env, l.source)| * |l.body|
  {
    hide LoopData;
    if ls != [] {
      StoryLoopsSizeSnoc(env, ls[1..], l);
      assert (ls + [l])[1..] == ls[1..] + [l];
    }
  }

  lemma {:induction false} StoryLoopsCount(env: Env, ls: seq<StoryLoop>)
    ensures |StoryLoops(env, ls)| == StoryLoopsSize(env, ls)
  {
    hide StoryRounds, LoopData;
    if ls != [] {
      var n := |ls| - 1;
      StoryLoopsCount(env, ls[..n]);
      StoryRoundsSize(env, ls[n], LoopData(env, ls[n].source));
      StoryLoopsSizeSnoc(env, ls[..n], ls[n]);
      assert ls == ls[..n] + [ls[n]];
    }
  }

  /** The storylines of an expanded story: the direct ones and one per item and body of every loop. */
  lemma StorylineCount(env: Env, st: Story)
    ensures |ExpandStory(env, st).storylines| == |st.storylines| + StoryLoopsSize(env, st.loops)
  {
    StoryLoopsCount(env, st.loops);
  }

  function Max(a: int, b: int): int {
    if a < b then b else a
  }

  /** A range from a to b adds max(0, b - a + 1) scenes, numbered in order, before anything else is done to them. */
  lemma RangeAddsScenes(env: Env, e: Enactment, sender: Option<Sender>)
    ensures |ExpandEnactment(env, e, sender).scenes|
            == |e.scenes| + (if e.range.None? || e.range.value.body.None? then 0
                             else Max(0, e.range.value.end - e.range.value.start + 1))
    ensures |ExpandEnactment(env, e, sender).triggers| == |e.triggers| + |UsedTriggers(env, e.uses)|
  {
    hide UsedTriggers, SenderAfter;
  }

  // ---------- Levels ----------

  /** Once a pattern or a loop has added an enactment, every enactment has a level and no two have the same. */
  lemma GeneratedLevelsAreDistinct(env: Env, sl: Storyline, sender: Option<Sender>)
    requires UsesSize(env, sl.uses) + LoopsSize(env, sl.loops) > 0
    ensures DistinctLevels(LevelsOf(ExpandStoryline(env, sl, sender).enactments))
    ensures AllLevels(LevelsOf(ExpandStoryline(env, sl, sender).enactments))
  {
    hide UsedInstances, LoopsEnactments, UsesSize, LoopsSize, SenderAfter, LinkScenes, LinkTriggers, FillSenders, DefaultTriggers, DefaultUses;
    UsedInstancesSize(env, sl.uses, sender);
    LoopsEnactmentsSize(env, sl.loops, SenderAfter(env, sl.uses, sender));
    var all := Gathered(env, sl, sender);
    AssignedLevels(all);
    assert LevelsOf(ExpandStoryline(env, sl, sender).enactments) == LevelsOf(AssignLevels(all));
  }

  lemma AssignedLevels(es: seq<Enactment>)
    ensures DistinctLevels(LevelsOf(AssignLevels(es))) && AllLevels(LevelsOf(AssignLevels(es)))
  {
    if !(DistinctLevels(LevelsOf(es)) && AllLevels(LevelsOf(es))) {
      assert forall i :: 0 <= i < |es| ==> LevelsOf(AssignLevels(es))[i] == Some(i + 1);
    }
  }

  /** Without anything added, authored levels are kept as they are, doubles and gaps included. */
  lemma AuthoredLevelsAreKept(env: Env, sl: Storyline, sender: Option<Sender>)
    requires UsesSize(env, sl.uses) + LoopsSize(env, sl.loops) == 0
    ensures LevelsOf(ExpandStoryline(env, sl, sender).enactments) == LevelsOf(sl.enactments)
  {
    hide UsedInstances, LoopsEnactments, UsesSize, LoopsSize, SenderAfter, LinkScenes, LinkTriggers, FillSenders, DefaultTriggers, DefaultUses;
    UsedInstancesSize(env, sl.uses, sender);
    LoopsEnactmentsSize(env, sl.loops, SenderAfter(env, sl.uses, sender));
    var all := Gathered(env, sl, sender);
    assert all == sl.enactments;
  }

  // ---------- Clones ----------

  lemma {:induction false} ActionsUnchanged(t: Text, actions: seq<Action>)
    ensures CloneActions(t, actions, map[]) == actions
  {
    if actions != [] {
      ActionsUnchanged(t, actions[0].fallback);
      ActionsUnchanged(t, actions[1..]);
    }
  }

  /** Without parameters a clone is its template exactly when the template carries no generation block... */
  lemma CloneIsTemplateIff(t: Text, v: Scene)
    ensures CloneScene(t, v, map[]) == v.(generated := [])
    ensures CloneScene(t, v, map[]) == v <==> v.generated == []
  {
    assert (map k | k in v.vars :: Substitute(t, v.vars[k], map[])) == v.vars;
  }

  /** ... and for a trigger, exactly when it watches nothing. */
  lemma TriggerCloneIsTemplateIff(t: Text, v: Trigger)
    ensures CloneTrigger(t, v, map[]) == v.(watch := [])
    ensures CloneTrigger(t, v, map[]) == v <==> v.watch == []
  {
    ActionsUnchanged(t, v.actions);
    ActionsUnchanged(t, v.elseActions);
  }

  /** Without parameters a pattern's enactment is its template exactly when nothing of it is dropped or expanded. */
  lemma PatternCloneIsTemplateIff(t: Text, e: Enactment)
    ensures PatternEnactment(t, e, map[]) == e
      <==> e.levelExpr == "" && e.range.None?
           && (forall i :: 0 <= i < |e.scenes| ==> e.scenes[i].generated == [])
           && (forall i :: 0 <= i < |e.triggers| ==> e.triggers[i].watch == [])
  {
    var c := PatternEnactment(t, e, map[]);
    forall i | 0 <= i < |e.scenes|
      ensures Scenes(t, e.scenes, map[])[i] == e.scenes[i] <==> e.scenes[i].generated == []
    {
      CloneIsTemplateIff(t, e.scenes[i]);
    }
    forall i | 0 <= i < |e.triggers|
      ensures c.triggers[i] == e.triggers[i] <==> e.triggers[i].watch == []
    {
      TriggerCloneIsTemplateIff(t, e.triggers[i]);
    }
    assert e.range.None? ==> c.scenes == Scenes(t, e.scenes, map[]);
    forall i | 0 <= i < |e.uses|
      ensures c.uses[i] == e.uses[i]
    {
      assert CloneUse(t, e.uses[i], map[]).args == e.uses[i].args;
    }
    assert c.uses == e.uses;
  }

  // ---------- Senders and links ----------

  predicate Complete(s: Sender) {
    s.fromEmail != "" && s.fromName != "" && s.replyTo != ""
  }

  predicate HasSender(v: Scene) {
    v.fromEmail != "" && v.fromName != "" && v.replyTo != ""
  }

  predicate CompleteSenders(env: Env) {
    forall n :: n in env.senders ==> Complete(env.senders[n])
  }

  lemma {:induction false} SenderStaysComplete(env: Env, us: seq<Use>, sender: Option<Sender>)
    requires CompleteSenders(env) && (sender.Some? ==> Complete(sender.value))
    ensures SenderAfter(env, us, sender).Some? ==> Complete(SenderAfter(env, us, sender).value)
    ensures sender.Some? ==> SenderAfter(env, us, sender).Some?
  {
    if us != [] {
      SenderStaysComplete(env, us[..|us| - 1], sender);
    }
  }

  /** With complete senders, one of them in force, every scene leaves expansion with a complete sender. */
  lemma ExpandedScenesHaveSender(env: Env, sl: Storyline, sender: Option<Sender>)
    requires CompleteSenders(env) && (sender.Some? ==> Complete(sender.value))
    requires SenderAfter(env, sl.uses, sender).Some?
    ensures forall en :: en in ExpandStoryline(env, sl, sender).enactments ==> forall sc :: sc in en.scenes ==> HasSender(sc)
  {
    hide Levelled, WithDefaults, SenderAfter, ExpandEnactment, HasSender;
    var last := SenderAfter(env, sl.uses, sender);
    SenderStaysComplete(env, sl.uses, sender);
    var all := WithDefaults(env, Levelled(env, sl, sender));
    forall i | 0 <= i < |all|
      ensures forall sc :: sc in ExpandEnactment(env, all[i], last).scenes ==> HasSender(sc)
    {
      EnactmentHasSender(env, all[i], last);
    }
  }

  lemma EnactmentHasSender(env: Env, e: Enactment, sender: Option<Sender>)
    requires CompleteSenders(env) && sender.Some? && Complete(sender.value)
    ensures forall sc :: sc in ExpandEnactment(env, e, sender).scenes ==> HasSender(sc)
  {
    hide MaybeRange, UsedTriggers, SenderAfter;
    SenderStaysComplete(env, e.uses, sender);
  }

  /** What a scene says of its sender itself is never overwritten. */
  lemma AuthoredSenderIsKept(env: Env, e: Enactment, sender: Option<Sender>, j: nat)
    requires j < |e.scenes|
    ensures
      var own, out := e.scenes[j], ExpandEnactment(env, e, sender).scenes[j];
      && (own.fromEmail != "" ==> out.fromEmail == own.fromEmail)
      && (own.fromName != "" ==> out.fromName == own.fromName)
      && (own.replyTo != "" ==> out.replyTo == own.replyTo)
  {
    hide MaybeRange, UsedTriggers, SenderAfter;
  }

  /** If no link leads to the name of a link, no trigger waits for a link by its name after expansion. */
  lemma NoLinkNameIsLeft(env: Env, sl: Storyline, sender: Option<Sender>)
    requires "" !in env.links && forall n :: n in env.links ==> env.links[n] !in env.links
    ensures forall en :: en in ExpandStoryline(env, sl, sender).enactments ==> forall tr :: tr in en.triggers ==> tr.value !in env.links
  {
    hide Levelled, WithDefaults, SenderAfter, FillSenders, LinkScenes, MaybeRange, UsedTriggers;
  }

  // ---------- Definitions ----------

  ghost predicate IsFirst<T>(defs: seq<(string, T)>, name: string, k: int) {
    0 <= k < |defs| && defs[k].0 == name && forall j :: 0 <= j < k ==> defs[j].0 != name
  }

  /** A name stands for its first definition, and nothing else is defined. */
  lemma {:induction false} NamesStandForTheFirst<T>(defs: seq<(string, T)>, name: string)
    ensures name in FirstOf(defs) <==> exists k :: IsFirst(defs, name, k)
    ensures forall k :: IsFirst(defs, name, k) ==> FirstOf(defs)[name] == defs[k].1
  {
    if defs != [] {
      var before := defs[..|defs| - 1];
      NamesStandForTheFirst(before, name);
      assert forall k :: 0 <= k < |before| ==> (IsFirst(before, name, k) <==> IsFirst(defs, name, k));
      if name in FirstOf(before) {
        var k :| IsFirst(before, name, k);
        assert IsFirst(defs, name, k);
      } else if defs[|defs| - 1].0 == name {
        NotBefore(before, name);
        assert IsFirst(defs, name, |defs| - 1);
      }
    }
  }

  lemma {:induction false} NotBefore<T>(defs: seq<(string, T)>, name: string)
    requires name !in FirstOf(defs)
    ensures forall j :: 0 <= j < |defs| ==> defs[j].0 != name
  {
    if defs != [] {
      NotBefore(defs[..|defs| - 1], name);
    }
  }
}
