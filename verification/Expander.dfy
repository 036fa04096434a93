/**
  The expander on the tree: clones are new objects, and expansion writes to the story's own nodes only. Templates keep
  their values, and no node is reached from two places, so work on one instance never shows in another.
*/
module Expander {
  import opened Wrappers
  import opened Expansion
  import opened ExpansionSteps
  import opened AstNodes

  // ---------- Levels ----------

  /** Whether levels have to be assigned: one is missing or comes twice. */
  method NeedsLevels(nodes: seq<EnactmentNode>, ghost levels: seq<Option<int>>) returns (needed: bool)
    requires |levels| == |nodes| && forall i :: 0 <= i < |nodes| ==> levels[i] == nodes[i].level
    ensures needed <==> !(DistinctLevels(levels) && AllLevels(levels))
  {
    hide LevelsSeen, DistinctLevels, AllLevels;
    var used: set<int>, duplicates := {}, false;
    NoLevels();
    for i := 0 to |nodes|
      invariant LevelsSeen(levels[..i], used, duplicates)
    {
      OneMoreLevel(levels[..i], used, duplicates, levels[i]);
      assert levels[..i + 1] == levels[..i] + [levels[i]];
      var level := nodes[i].level;
      if level.Some? {
        if level.value in used {
          duplicates := true;
        }
        used := used + {level.value};
      }
    }
    assert levels[..|nodes|] == levels;
    AllSeen(levels, used, duplicates);
    needed := duplicates || |used| < |nodes|;
  }

  lemma LevelsAre(nodes: seq<EnactmentNode>, vals: seq<Enactment>, own: set<object>)
    requires Separate(nodes, vals, own)
    ensures forall i :: 0 <= i < |nodes| ==> LevelsOf(vals)[i] == nodes[i].level
  {
    hide SceneVals, TriggerVals;
    forall i | 0 <= i < |nodes|
      ensures LevelsOf(vals)[i] == nodes[i].level
    {
      assert EnactmentIs(nodes[i], vals[i], own);
    }
  }

  method SetLevel(en: EnactmentNode, level: int,
                  ghost nodes: seq<EnactmentNode>, ghost i: nat, ghost vals: seq<Enactment>, ghost own: set<object>)
    requires Separate(nodes, vals, own) && i < |nodes| && en == nodes[i]
    modifies en`level
    ensures Separate(nodes, vals[i := vals[i].(level := Some(level))], own)
  {
    hide SceneVals, TriggerVals, Distinct;
    assert EnactmentIs(nodes[i], vals[i], own);
    en.level := Some(level);
    assert en.Val() == vals[i].(level := Some(level));
  }

  /** Assigns the levels 1, 2, ... in order if one is missing or comes twice. */
  method AutoAssignLevels(nodes: seq<EnactmentNode>, ghost vals: seq<Enactment>, ghost own: set<object>)
    requires Separate(nodes, vals, own)
    modifies nodes
    ensures Separate(nodes, AssignLevels(vals), own)
  {
    hide Separate, AllLevels, DistinctLevels;
    LevelsAre(nodes, vals, own);
    var needed := NeedsLevels(nodes, LevelsOf(vals));
    if needed {
      ghost var cur := vals;
      for i := 0 to |nodes|
        invariant Separate(nodes, cur, own) && |cur| == |vals|
        invariant forall k :: 0 <= k < |vals| ==> cur[k] == if k < i then vals[k].(level := Some(k + 1)) else vals[k]
      {
        SetLevel(nodes[i], i + 1, nodes, i, cur, own);
        cur := cur[i := cur[i].(level := Some(i + 1))];
      }
      assert cur == AssignLevels(vals);
    }
  }

  lemma InOwn(nodes: seq<EnactmentNode>, vals: seq<Enactment>, own: set<object>, i: nat)
    requires Separate(nodes, vals, own) && i < |nodes|
    ensures nodes[i] in own && (forall s :: s in nodes[i].scenes ==> s in own) && (forall t :: t in nodes[i].triggers ==> t in own)
  {
    hide EnactmentNode.Val;
    assert EnactmentIs(nodes[i], vals[i], own);
  }

  // ---------- The expander ----------

  ghost predicate PatternDefsAre(defs: seq<(string, PatternNode)>, vals: seq<(string, Pattern)>, templates: set<object>)
    reads templates
  {
    && |defs| == |vals|
    && forall i :: 0 <= i < |defs| ==> defs[i].0 == vals[i].0 && PatternIs(defs[i].1, vals[i].1, templates)
  }

  ghost predicate PolicyDefsAre(defs: seq<(string, PolicyNode)>, vals: seq<(string, Policy)>, templates: set<object>)
    reads templates
  {
    && |defs| == |vals|
    && forall i :: 0 <= i < |defs| ==> defs[i].0 == vals[i].0 && PolicyIs(defs[i].1, vals[i].1, templates)
  }

  lemma {:induction false} PatternsByName(defs: seq<(string, PatternNode)>, vals: seq<(string, Pattern)>, templates: set<object>)
    requires PatternDefsAre(defs, vals, templates)
    ensures FirstOf(defs).Keys == FirstOf(vals).Keys
    ensures forall k :: k in FirstOf(defs) ==> PatternIs(FirstOf(defs)[k], FirstOf(vals)[k], templates)
  {
    hide PatternIs;
    if defs != [] {
      PatternsByName(defs[..|defs| - 1], vals[..|vals| - 1], templates);
    }
  }

  lemma {:induction false} PoliciesByName(defs: seq<(string, PolicyNode)>, vals: seq<(string, Policy)>, templates: set<object>)
    requires PolicyDefsAre(defs, vals, templates)
    ensures FirstOf(defs).Keys == FirstOf(vals).Keys
    ensures forall k :: k in FirstOf(defs) ==> PolicyIs(FirstOf(defs)[k], FirstOf(vals)[k], templates)
  {
    hide PolicyIs;
    if defs != [] {
      PoliciesByName(defs[..|defs| - 1], vals[..|vals| - 1], templates);
    }
  }

  class Expander {
    const text: Text
    const senders: map<string, Sender>
    const links: map<string, string>
    const patterns: map<string, PatternNode>
    const policies: map<string, PolicyNode>
    const data: map<string, seq<map<string, string>>>
    const defaults: seq<DefaultsNode>
    var problems: seq<Problem>

    /** The nodes of the definitions and of loop bodies, and the definitions' values. */
    ghost const templates: set<object>
    ghost const env: Env

    /** The templates still have their values. */
    ghost predicate Valid()
      reads templates
    {
      && this !in templates
      && text == env.text && senders == env.senders && links == env.links && data == env.data
      && patterns.Keys == env.patterns.Keys && policies.Keys == env.policies.Keys
      && (forall k :: k in patterns ==> PatternIs(patterns[k], env.patterns[k], templates))
      && (forall k :: k in policies ==> PolicyIs(policies[k], env.policies[k], templates))
      && |defaults| == |env.defaults|
      && (forall i :: 0 <= i < |defaults| ==> DefaultsIs(defaults[i], env.defaults[i], templates))
    }

    /** Collects the definitions. The values of the template nodes are what later steps must find unchanged. */
    constructor (text: Text, senders: seq<(string, Sender)>, links: map<string, string>,
                 patterns: seq<(string, PatternNode)>, policies: seq<(string, PolicyNode)>,
                 data: seq<(string, seq<map<string, string>>)>, defaults: seq<DefaultsNode>,
                 ghost templates: set<object>, ghost patternVals: seq<(string, Pattern)>,
                 ghost policyVals: seq<(string, Policy)>, ghost defaultsVals: seq<Defaults>)
      requires PatternDefsAre(patterns, patternVals, templates) && PolicyDefsAre(policies, policyVals, templates)
      requires |defaults| == |defaultsVals| && forall i :: 0 <= i < |defaults| ==> DefaultsIs(defaults[i], defaultsVals[i], templates)
      ensures Valid() && this.templates == templates
      ensures env == Env(text, FirstOf(NamedSenders(senders)), links, FirstOf(patternVals), FirstOf(policyVals), FirstOf(data), defaultsVals)
      ensures problems == DuplicateProblems(NamedSenders(senders)) + DuplicateProblems(patterns)
                          + DuplicateProblems(policies) + DuplicateProblems(data)
    {
      hide FirstOf, DuplicateProblems, PatternIs, PolicyIs, NamedSenders;
      this.text, this.links, this.defaults := text, links, defaults;
      var bySender, senderProblems := Collect(NamedSenders(senders));
      var byPattern, patternProblems := Collect(patterns);
      var byPolicy, policyProblems := Collect(policies);
      var byData, dataProblems := Collect(data);
      this.senders, this.patterns, this.policies, this.data := bySender, byPattern, byPolicy, byData;
      problems := senderProblems + patternProblems + policyProblems + dataProblems;
      this.templates := templates;
      this.env := Env(text, bySender, links, FirstOf(patternVals), FirstOf(policyVals), byData, defaultsVals);
      new;
      PatternsByName(patterns, patternVals, templates);
      PoliciesByName(policies, policyVals, templates);
    }

    // ---------- Patterns and policies ----------

    /** The range and the triggers of the pattern itself, and the sender in force. */
    method Complete(en: EnactmentNode, p: PatternNode, ghost pv: Pattern, params: map<string, string>, sender: Option<Sender>)
      requires Valid() && PatternIs(p, pv, templates) && en.Sound() && en.Own() !! templates
      modifies en, en.scenes
      ensures en.Sound() && fresh(en.Own() - old(en.Own()))
      ensures en.Val() == Completed(env, pv, old(en.Val()), params, sender)
    {
      hide RangeScenes, Triggers, FillSenders, EnactmentIs, SceneVals, TriggerVals;
      if p.range.Some? {
        var more := ExpandRange(text, p.range.value, params);
        en.AppendScenes(more);
      } else {
        assert en.Val().scenes + [] == en.Val().scenes;
      }
      ValsOfTriggers(p.triggers, pv.triggers, templates);
      var triggers := CloneTriggers(text, p.triggers, params);
      en.AppendTriggers(triggers);
      if sender.Some? {
        en.FillSender(sender.value);
      } else {
        NoSender(en.Val().scenes);
      }
    }

    /** One enactment of a used pattern. */
    method Instantiate(p: PatternNode, ghost pv: Pattern, tmpl: EnactmentNode, params: map<string, string>, sender: Option<Sender>)
      returns (en: EnactmentNode)
      requires Valid() && PatternIs(p, pv, templates)
      ensures fresh(en.Own()) && en.Sound()
      ensures en.Val() == Instance(env, pv, old(tmpl.Val()), params, sender)
    {
      hide PatternEnactment, Completed, PatternIs;
      en := CloneEnactment(text, tmpl, params);
      Complete(en, p, pv, params, sender);
    }

    /** The enactments of a used pattern, all of them new. */
    method ExpandPattern(us: Use, sender: Option<Sender>) returns (result: seq<EnactmentNode>, ghost own: set<object>)
      requires Valid()
      modifies this`problems
      ensures fresh(own) && Separate(result, Instances(env, us, sender), own)
      ensures problems == old(problems) + PatternProblems(env, us)
    {
      result, own := [], {};
      if us.target !in patterns {
        problems := problems + [UnknownPattern];
        return;
      }
      var p := patterns[us.target];
      ghost var pv := env.patterns[us.target];
      assert PatternIs(p, pv, templates);
      if |us.args| != |p.params| {
        problems := problems + [PatternArity];
        return;
      }
      var params := BindParams(links, p.params, us.args);
      result, own := InstantiateAll(p, pv, params, sender);
      assert problems == problems + [];
    }

    method InstantiateAll(p: PatternNode, ghost pv: Pattern, params: map<string, string>, sender: Option<Sender>)
      returns (result: seq<EnactmentNode>, ghost own: set<object>)
      requires Valid() && PatternIs(p, pv, templates)
      ensures fresh(own)
      ensures Separate(result, InstancesOf(env, pv, params, sender), own)
    {
      hide Valid, Separate, Instance, EnactmentNode.Own, EnactmentNode.Val, EnactmentNode.Sound;
      ghost var vals := InstancesOf(env, pv, params, sender);
      result, own := [], {};
      SeparateNone();
      for i := 0 to |p.enactments|
        invariant fresh(own) && Separate(result, vals[..i], own)
      {
        assert EnactmentIs(p.enactments[i], pv.enactments[i], templates);
        var en := Instantiate(p, pv, p.enactments[i], params, sender);
        SeparateSnoc(result, vals[..i], own, en);
        assert vals[..i + 1] == vals[..i] + [vals[i]];
        result, own := result + [en], own + en.Own();
      }
      assert vals[..|p.enactments|] == vals;
    }

    // ---------- Policies ----------

    method ExpandPolicy(us: Use) returns (result: seq<TriggerNode>)
      requires Valid()
      modifies this`problems
      ensures fresh(result) && Distinct(result) && TriggerVals(result) == PolicyTriggers(env, us)
      ensures problems == old(problems) + PolicyProblems(env, us)
    {
      hide Triggers, Bind;
      result := [];
      if us.target !in policies {
        problems := problems + [UnknownPolicy];
        return;
      }
      var p := policies[us.target];
      ghost var pv := env.policies[us.target];
      assert PolicyIs(p, pv, templates);
      if |us.args| != |p.params| {
        problems := problems + [PolicyArity];
        return;
      }
      var params := BindParams(links, p.params, us.args);
      ValsOfTriggers(p.triggers, pv.triggers, templates);
      result := CloneTriggers(text, p.triggers, params);
      assert problems == problems + [];
    }

    // ---------- Enactments ----------

    /** One use statement of an enactment: a policy's triggers, or another sender. */
    method ApplyUse(en: EnactmentNode, us: Use, sender: Option<Sender>) returns (next: Option<Sender>)
      requires Valid() && en.Sound() && en !in templates
      modifies en`triggers, this`problems
      ensures Valid() && en.Sound() && fresh(en.Own() - old(en.Own()))
      ensures old(en.triggers) <= en.triggers && fresh(en.triggers[|old(en.triggers)|..])
      ensures next == NextSender(env, us, sender) && problems == old(problems) + UseProblems(env, us)
      ensures en.Val() == old(en.Val()).(triggers := old(en.Val()).triggers
        + if us.kind == UsePolicy then PolicyTriggers(env, us) else [])
    {
      hide PolicyTriggers, PolicyProblems, TriggerVals;
      next := sender;
      assert problems + [] == problems && en.Val().triggers + [] == en.Val().triggers;
      match us.kind {
        case UsePolicy =>
          var triggers := ExpandPolicy(us);
          en.AppendTriggers(triggers);
        case UseSender =>
          var target := if us.target == "" then "default" else us.target;
          if target in senders {
            next := Some(senders[target]);
          } else {
            problems := problems + [UnknownSender];
          }
        case UsePattern =>
          problems := problems + [MisplacedUse];
        case UseOther =>
      }
    }

    method ApplyUses(en: EnactmentNode, sender: Option<Sender>) returns (last: Option<Sender>)
      requires Valid() && en.Sound() && en.Own() !! templates
      modifies en`triggers, this`problems
      ensures en.Sound() && fresh(en.Own() - old(en.Own())) && Valid()
      ensures old(en.triggers) <= en.triggers && fresh(en.triggers[|old(en.triggers)|..])
      ensures last == SenderAfter(env, en.uses, sender)
      ensures en.Val() == old(en.Val()).(triggers := old(en.Val()).triggers + UsedTriggers(env, en.uses))
      ensures problems == old(problems) + UsedProblems(env, en.uses)
    {
      hide UsedTriggers, UsedProblems, SenderAfter, NextSender, PolicyTriggers, UseProblems, Valid, TriggerVals, SceneVals;
      ghost var before := en.Val();
      var us := en.uses;
      last := sender;
      NoUses(env, before.triggers, problems, sender);
      assert en in en.Own();
      for i := 0 to |us|
        invariant Valid() && en.Sound() && fresh(en.Own() - old(en.Own()))
        invariant old(en.triggers) <= en.triggers && fresh(en.triggers[|old(en.triggers)|..])
        invariant last == SenderAfter(env, us[..i], sender)
        invariant en.Val() == before.(triggers := before.triggers + UsedTriggers(env, us[..i]))
        invariant problems == old(problems) + UsedProblems(env, us[..i])
      {
        UsesTake(env, us, i, sender);
        last := ApplyUse(en, us[i], last);
      }
      assert us[..|us|] == us;
    }

    /** A range left in the enactment becomes scenes. */
    method ExpandOwnRange(en: EnactmentNode)
      requires Valid() && en.Sound()
      modifies en`scenes, en`range
      ensures en.Sound() && fresh(en.Own() - old(en.Own()))
      ensures old(en.scenes) <= en.scenes && fresh(en.scenes[|old(en.scenes)|..])
      ensures en.Val() == old(en.Val()).(scenes := old(en.Val()).scenes + MaybeRange(env.text, old(en.Val()).range, map[]), range := None)
    {
      hide RangeScenes, SceneVals, TriggerVals;
      assert en.Val().scenes + [] == en.Val().scenes;
      if en.range.Some? {
        var scenes := ExpandRange(text, en.range.value, map[]);
        en.AppendScenes(scenes);
        en.range := None;
      }
    }

    /** The last steps, in place: senders, then links in triggers and scenes. */
    method Finish(en: EnactmentNode, sender: Option<Sender>)
      requires Valid() && en.Sound() && en.Own() !! templates
      modifies en`uses, en.scenes, en.triggers
      ensures Valid() && en.Sound() && en.Own() == old(en.Own())
      ensures var v := old(en.Val());
              en.Val() == v.(scenes := LinkScenes(env.text, FillSenders(v.scenes, sender), env.links),
                             triggers := LinkTriggers(v.triggers, env.links), uses := [])
    {
      hide SceneVals, TriggerVals, LinkScenes, LinkTriggers, FillSenders;
      en.uses := [];
      if sender.Some? {
        en.FillSender(sender.value);
      } else {
        NoSender(en.Val().scenes);
      }
      en.ResolveLinks(text, links);
    }

    method ExpandEnactmentNode(en: EnactmentNode, sender: Option<Sender>)
      requires Valid() && en.Sound() && en.Own() !! templates
      modifies en, en.scenes, en.triggers, this`problems
      ensures Valid() && en.Sound() && fresh(en.Own() - old(en.Own()))
      ensures en.Val() == ExpandEnactment(env, old(en.Val()), sender)
      ensures problems == old(problems) + UsedProblems(env, old(en.uses))
    {
      hide MaybeRange, SceneVals, TriggerVals, UsedTriggers, UsedProblems, SenderAfter, LinkScenes, LinkTriggers, FillSenders;
      ExpandOwnRange(en);
      var last := ApplyUses(en, sender);
      Finish(en, last);
    }

    // ---------- Defaults ----------

    method AddDefaultsBlock(en: EnactmentNode, d: DefaultsNode, ghost dv: Defaults)
      requires Valid() && DefaultsIs(d, dv, templates) && en.Sound() && en !in templates
      modifies en`triggers, en`uses
      ensures Valid() && en.Sound() && fresh(en.Own() - old(en.Own()))
      ensures en.Val() == old(en.Val()).(triggers := old(en.Val()).triggers + Triggers(text, dv.triggers, map[]),
                                         uses := old(en.Val()).uses + dv.uses)
    {
      hide SceneVals, TriggerVals, Triggers;
      ValsOfTriggers(d.triggers, dv.triggers, templates);
      var triggers := CloneTriggers(text, d.triggers, map[]);
      en.AppendTriggers(triggers);
      en.uses := en.uses + d.uses;
    }

    /** The defaults' triggers, cloned, and their use statements. */
    method AddDefaultsTo(en: EnactmentNode)
      requires Valid() && en.Sound() && en !in templates
      modifies en`triggers, en`uses
      ensures Valid() && en.Sound() && fresh(en.Own() - old(en.Own()))
      ensures en.Val() == AddDefaults(env, old(en.Val()))
    {
      hide SceneVals, TriggerVals, DefaultTriggers, DefaultUses, Triggers, DefaultsIs;
      ghost var before, ds := en.Val(), env.defaults;
      NoDefaults(text, before);
      for i := 0 to |defaults|
        invariant Valid() && en.Sound() && fresh(en.Own() - old(en.Own()))
        invariant en.Val() == before.(triggers := before.triggers + DefaultTriggers(text, ds[..i]),
                                      uses := before.uses + DefaultUses(ds[..i]))
      {
        DefaultsTake(text, ds, i);
        AddDefaultsBlock(en, defaults[i], ds[i]);
      }
      assert ds[..|ds|] == ds;
    }

    // ---------- Over a list of enactments ----------

    method DefaultsStep(en: EnactmentNode, ghost nodes: seq<EnactmentNode>, ghost i: nat,
                        ghost vals: seq<Enactment>, ghost own: set<object>) returns (ghost after: set<object>)
      requires Valid() && Separate(nodes, vals, own) && own !! templates && i < |nodes| && en == nodes[i]
      modifies en`triggers, en`uses
      ensures Valid() && own <= after && fresh(after - own)
      ensures Separate(nodes, vals[i := AddDefaults(env, vals[i])], after)
    {
      hide SceneVals, TriggerVals, Distinct, AddDefaults;
      assert EnactmentIs(nodes[i], vals[i], own);
      ghost var parts := Parts(nodes);
      label before:
      AddDefaultsTo(en);
      forall k | 0 <= k < |nodes| && k != i
        ensures Stays(nodes, vals, own, parts[k], i, k)
      {
        assert old@before(EnactmentIs(nodes[k], vals[k], own));
        assert parts[k] !! parts[i];
      }
      hide EnactmentNode.Val, EnactmentNode.Own, EnactmentNode.Sound, EnactmentIs, Stays;
      SeparateUpdate(nodes, vals, own, parts, i);
      after := own + en.Own();
    }

    method ApplyEnactmentDefaults(nodes: seq<EnactmentNode>, ghost vals: seq<Enactment>, ghost own: set<object>)
      returns (ghost after: set<object>)
      requires Valid() && Separate(nodes, vals, own) && own !! templates
      modifies nodes
      ensures Valid() && own <= after && fresh(after - own)
      ensures Separate(nodes, WithDefaults(env, vals), after)
    {
      hide Valid, Separate, AddDefaults;
      after := own;
      ghost var cur := vals;
      for i := 0 to |nodes|
        invariant Valid() && own <= after && fresh(after - own) && Separate(nodes, cur, after) && |cur| == |vals|
        invariant forall k :: 0 <= k < |vals| ==> cur[k] == if k < i then AddDefaults(env, vals[k]) else vals[k]
      {
        after := DefaultsStep(nodes[i], nodes, i, cur, after);
        cur := cur[i := AddDefaults(env, cur[i])];
      }
      assert cur == WithDefaults(env, vals);
    }

    method ExpandStep(en: EnactmentNode, sender: Option<Sender>, ghost nodes: seq<EnactmentNode>, ghost i: nat,
                      ghost vals: seq<Enactment>, ghost own: set<object>) returns (ghost after: set<object>)
      requires Valid() && Separate(nodes, vals, own) && own !! templates && i < |nodes| && en == nodes[i]
      modifies en, en.scenes, en.triggers, this`problems
      ensures Valid() && own <= after && fresh(after - own)
      ensures Separate(nodes, vals[i := ExpandEnactment(env, vals[i], sender)], after)
      ensures problems == old(problems) + UsedProblems(env, vals[i].uses)
    {
      hide SceneVals, TriggerVals, Distinct, ExpandEnactment, UsedProblems;
      assert EnactmentIs(nodes[i], vals[i], own);
      ghost var parts := Parts(nodes);
      label before:
      ExpandEnactmentNode(en, sender);
      forall k | 0 <= k < |nodes| && k != i
        ensures Stays(nodes, vals, own, parts[k], i, k)
      {
        assert old@before(EnactmentIs(nodes[k], vals[k], own));
        assert parts[k] !! parts[i];
      }
      hide EnactmentNode.Val, EnactmentNode.Own, EnactmentNode.Sound, EnactmentIs, Stays;
      SeparateUpdate(nodes, vals, own, parts, i);
      after := own + en.Own();
    }

    method ExpandAll(nodes: seq<EnactmentNode>, sender: Option<Sender>, ghost vals: seq<Enactment>, ghost own: set<object>)
      returns (ghost after: set<object>)
      requires Valid() && Separate(nodes, vals, own) && own !! templates
      modifies own, this`problems
      ensures Valid() && own <= after && fresh(after - own)
      ensures Separate(nodes, ExpandEach(env, vals, sender), after)
      ensures problems == old(problems) + EachProblems(env, vals)
    {
      hide Valid, Separate, ExpandEnactment, UsedProblems;
      after := own;
      ghost var cur := vals;
      assert problems + [] == problems;
      for i := 0 to |nodes|
        invariant Valid() && own <= after && fresh(after - own) && Separate(nodes, cur, after) && |cur| == |vals|
        invariant forall k :: 0 <= k < |vals| ==> cur[k] == if k < i then ExpandEnactment(env, vals[k], sender) else vals[k]
        invariant problems == old(problems) + EachProblems(env, vals[..i])
      {
        EachTake(env, vals, i);
        InOwn(nodes, cur, after, i);
        after := ExpandStep(nodes[i], sender, nodes, i, cur, after);
        cur := cur[i := ExpandEnactment(env, cur[i], sender)];
      }
      assert cur == ExpandEach(env, vals, sender);
      assert vals[..|nodes|] == vals;
    }

    // ---------- For loops ----------

    method ExpandLoopUse(us: Use, params: map<string, string>, sender: Option<Sender>)
      returns (result: seq<EnactmentNode>, ghost own: set<object>)
      requires Valid()
      modifies this`problems
      ensures fresh(own) && Separate(result, UseInstances(env, CloneUse(text, us, params), sender), own)
      ensures problems == old(problems) + LoopUseProblems(env, CloneUse(text, us, params))
    {
      hide Separate, Instances, PatternProblems;
      result, own := [], {};
      SeparateNone();
      assert problems + [] == problems;
      var expanded := CloneUseStatement(text, us, params);
      match expanded.kind {
        case UsePattern =>
          result, own := ExpandPattern(expanded, sender);
        case UsePolicy =>
          problems := problems + [MisplacedUse];
        case UseSender =>
        case UseOther =>
      }
    }

    method ExpandLoopUses(us: seq<Use>, params: map<string, string>, sender: Option<Sender>)
      returns (result: seq<EnactmentNode>, ghost own: set<object>)
      requires Valid()
      modifies this`problems
      ensures Valid() && fresh(own) && Separate(result, LoopInstances(env, us, params, sender), own)
      ensures problems == old(problems) + LoopUsesProblems(env, us, params)
    {
      hide Separate, UseInstances, LoopUseProblems, LoopInstances, LoopUsesProblems;
      result, own := [], {};
      SeparateNone();
      NoLoopUses(env, params, sender, problems);
      for i := 0 to |us|
        invariant Valid() && fresh(own) && Separate(result, LoopInstances(env, us[..i], params, sender), own)
        invariant problems == old(problems) + LoopUsesProblems(env, us[..i], params)
      {
        LoopUsesTake(env, us, i, params, sender);
        var more, moreOwn := ExpandLoopUse(us[i], params, sender);
        SeparateJoin(result, LoopInstances(env, us[..i], params, sender), own,
                     more, UseInstances(env, CloneUse(text, us[i], params), sender), moreOwn);
        result, own := result + more, own + moreOwn;
      }
      assert us[..|us|] == us;
    }

    method CloneLoopBody(nodes: seq<EnactmentNode>, ghost vals: seq<Enactment>, ghost bodies: set<object>, params: map<string, string>)
      returns (result: seq<EnactmentNode>, ghost own: set<object>)
      requires Valid() && this !in bodies && EnactmentsAre(nodes, vals, bodies)
      modifies this`problems
      ensures Valid() && fresh(own) && Separate(result, LoopBody(text, vals, params), own)
      ensures problems == old(problems) + LoopBodyProblems(text, vals, params)
    {
      hide Separate, LoopEnactment, LoopProblems, EnactmentNode.Own, EnactmentNode.Val, EnactmentNode.Sound;
      ghost var spec := LoopBody(text, vals, params);
      result, own := [], {};
      SeparateNone();
      assert problems + [] == problems;
      for i := 0 to |nodes|
        invariant Valid() && EnactmentsAre(nodes, vals, bodies)
        invariant fresh(own) && Separate(result, spec[..i], own)
        invariant problems == old(problems) + LoopBodyProblems(text, vals[..i], params)
      {
        assert EnactmentIs(nodes[i], vals[i], bodies);
        assert vals[..i + 1][..i] == vals[..i] && spec[..i + 1] == spec[..i] + [spec[i]];
        var en, found := CloneLoopEnactment(text, nodes[i], params);
        problems := problems + found;
        SeparateSnoc(result, spec[..i], own, en);
        result, own := result + [en], own + en.Own();
      }
      assert vals[..|nodes|] == vals && spec[..|nodes|] == spec;
    }

    /** One item: the patterns used in the body first, then the body's own enactments. */
    method ExpandRound(l: LoopNode, ghost lv: Loop, ghost bodies: set<object>, item: map<string, string>, sender: Option<Sender>)
      returns (result: seq<EnactmentNode>, ghost own: set<object>)
      requires Valid() && this !in bodies && LoopIs(l, lv, bodies)
      modifies this`problems
      ensures Valid() && LoopIs(l, lv, bodies)
      ensures fresh(own) && Separate(result, LoopRound(env, lv, item, sender), own)
      ensures problems == old(problems) + RoundProblems(env, lv, item)
    {
      hide Separate, BindFields, LoopInstances, LoopUsesProblems, LoopBody, LoopBodyProblems;
      var params := BuildObjectParams(links, l.variable, item);
      var first, firstOwn := ExpandLoopUses(l.uses, params, sender);
      var body, bodyOwn := CloneLoopBody(l.enactments, lv.enactments, bodies, params);
      SeparateJoin(first, LoopInstances(env, l.uses, params, sender), firstOwn,
                   body, LoopBody(text, lv.enactments, params), bodyOwn);
      result, own := first + body, firstOwn + bodyOwn;
    }

    method ResolveForLoopData(l: Source) returns (items: seq<map<string, string>>)
      requires Valid()
      modifies this`problems
      ensures items == LoopData(env, l) && problems == old(problems) + LoopDataProblems(env, l)
    {
      items := [];
      assert problems + [] == problems;
      if l.objects != [] {
        items := l.objects;
      } else if l.items != [] {
        for i := 0 to |l.items|
          invariant |items| == i && forall k :: 0 <= k < i ==> items[k] == map["_value" := l.items[k]]
        {
          items := items + [map["_value" := l.items[i]]];
        }
      } else if l.dataRef == "" {
        problems := problems + [NoData];
      } else if l.dataRef in data {
        items := data[l.dataRef];
      } else {
        problems := problems + [UnknownData];
      }
    }

    method ExpandLoop(l: LoopNode, ghost lv: Loop, ghost bodies: set<object>, sender: Option<Sender>)
      returns (result: seq<EnactmentNode>, ghost own: set<object>)
      requires Valid() && this !in bodies && LoopIs(l, lv, bodies)
      modifies this`problems
      ensures Valid()
      ensures fresh(own) && Separate(result, LoopRounds(env, lv, LoopData(env, l.source), sender), own)
      ensures problems == old(problems) + LoopDataProblems(env, l.source) + RoundsProblems(env, lv, LoopData(env, l.source))
    {
      hide Separate, LoopIs, LoopRound, RoundProblems, LoopRounds, RoundsProblems, LoopData, LoopDataProblems;
      result, own := [], {};
      SeparateNone();
      var items := ResolveForLoopData(l.source);
      ghost var before := problems;
      NoRounds(env, lv, sender, problems);
      for i := 0 to |items|
        invariant Valid() && LoopIs(l, lv, bodies)
        invariant fresh(own) && Separate(result, LoopRounds(env, lv, items[..i], sender), own)
        invariant problems == before + RoundsProblems(env, lv, items[..i])
      {
        RoundsTake(env, lv, items, i, sender);
        var more, moreOwn := ExpandRound(l, lv, bodies, items[i], sender);
        SeparateJoin(result, LoopRounds(env, lv, items[..i], sender), own, more, LoopRound(env, lv, items[i], sender), moreOwn);
        result, own := result + more, own + moreOwn;
      }
      assert items[..|items|] == items;
    }

    method ExpandLoops(ls: seq<LoopNode>, ghost lvs: seq<Loop>, ghost bodies: set<object>, sender: Option<Sender>)
      returns (result: seq<EnactmentNode>, ghost own: set<object>)
      requires Valid() && this !in bodies && LoopsAre(ls, lvs, bodies)
      modifies this`problems
      ensures Valid()
      ensures fresh(own) && Separate(result, LoopsEnactments(env, lvs, sender), own)
      ensures problems == old(problems) + LoopsProblems(env, lvs)
    {
      hide Separate, LoopIs, LoopRounds, RoundsProblems, LoopData, LoopDataProblems, LoopsEnactments, LoopsProblems;
      result, own := [], {};
      SeparateNone();
      NoLoops(env, sender, problems);
      for i := 0 to |ls|
        invariant Valid() && LoopsAre(ls, lvs, bodies)
        invariant fresh(own) && Separate(result, LoopsEnactments(env, lvs[..i], sender), own)
        invariant problems == old(problems) + LoopsProblems(env, lvs[..i])
      {
        LoopsTake(env, lvs, i, sender);
        assert ls[i].source == lvs[i].source by { SameSource(ls[i], lvs[i], bodies); }
        var more, moreOwn := ExpandLoop(ls[i], lvs[i], bodies, sender);
        SeparateJoin(result, LoopsEnactments(env, lvs[..i], sender), own,
                     more, LoopRounds(env, lvs[i], LoopData(env, lvs[i].source), sender), moreOwn);
        result, own := result + more, own + moreOwn;
      }
      assert lvs[..|ls|] == lvs;
    }

    // ---------- Storylines ----------

    /** One use statement of a storyline: a pattern's enactments, or another sender. */
    method ExpandStorylineUse(us: Use, sender: Option<Sender>)
      returns (result: seq<EnactmentNode>, ghost own: set<object>, next: Option<Sender>)
      requires Valid()
      modifies this`problems
      ensures fresh(own) && Separate(result, UseInstances(env, us, sender), own)
      ensures next == NextSender(env, us, sender) && problems == old(problems) + StorylineUseProblems(env, us)
    {
      hide Separate, Instances, PatternProblems;
      result, own, next := [], {}, sender;
      SeparateNone();
      assert problems + [] == problems;
      match us.kind {
        case UsePattern =>
          result, own := ExpandPattern(us, sender);
        case UsePolicy =>
          problems := problems + [MisplacedUse];
        case UseSender =>
          var target := if us.target == "" then "default" else us.target;
          if target in senders {
            next := Some(senders[target]);
          } else {
            problems := problems + [UnknownSender];
          }
        case UseOther =>
      }
    }

    method ExpandStorylineUses(us: seq<Use>, sender: Option<Sender>)
      returns (result: seq<EnactmentNode>, ghost own: set<object>, last: Option<Sender>)
      requires Valid()
      modifies this`problems
      ensures Valid() && fresh(own) && Separate(result, UsedInstances(env, us, sender), own)
      ensures last == SenderAfter(env, us, sender) && problems == old(problems) + StorylineUsesProblems(env, us)
    {
      hide Separate, UseInstances, StorylineUseProblems, UsedInstances, StorylineUsesProblems, NextSender, SenderAfter;
      result, own, last := [], {}, sender;
      SeparateNone();
      NoStorylineUses(env, sender, problems);
      for i := 0 to |us|
        invariant Valid() && fresh(own) && Separate(result, UsedInstances(env, us[..i], sender), own)
        invariant last == SenderAfter(env, us[..i], sender)
        invariant problems == old(problems) + StorylineUsesProblems(env, us[..i])
      {
        StorylineUsesTake(env, us, i, sender);
        ghost var before := last;
        var more, moreOwn, next := ExpandStorylineUse(us[i], last);
        SeparateJoin(result, UsedInstances(env, us[..i], sender), own, more, UseInstances(env, us[i], before), moreOwn);
        result, own, last := result + more, own + moreOwn, next;
      }
      assert us[..|us|] == us;
    }

    /** The enactments of a storyline: its own, those of its patterns, and those of its loops. */
    method Gather(direct: seq<EnactmentNode>, us: seq<Use>, ls: seq<LoopNode>, sender: Option<Sender>,
                  ghost v: Storyline, ghost own: set<object>, ghost bodies: set<object>)
      returns (all: seq<EnactmentNode>, last: Option<Sender>, ghost after: set<object>)
      requires Valid() && this !in bodies && this !in own
      requires Separate(direct, v.enactments, own) && us == v.uses && LoopsAre(ls, v.loops, bodies)
      modifies this`problems
      ensures Valid() && own <= after && fresh(after - own)
      ensures Separate(all, Gathered(env, v, sender), after) && last == SenderAfter(env, us, sender)
      ensures problems == old(problems) + StorylineUsesProblems(env, us) + LoopsProblems(env, v.loops)
    {
      hide Separate, LoopsAre, UsedInstances, LoopsEnactments, StorylineUsesProblems, LoopsProblems, SenderAfter;
      var used, usedOwn, final := ExpandStorylineUses(us, sender);
      last := final;
      SeparateJoin(direct, v.enactments, own, used, UsedInstances(env, us, sender), usedOwn);
      var looped, loopedOwn := ExpandLoops(ls, v.loops, bodies, last);
      SeparateJoin(direct + used, v.enactments + UsedInstances(env, us, sender), own + usedOwn,
                   looped, LoopsEnactments(env, v.loops, last), loopedOwn);
      all, after := direct + used + looped, own + usedOwn + loopedOwn;
    }

    /** Levels, defaults, and each enactment in turn. */
    method FinishEnactments(all: seq<EnactmentNode>, generated: bool, sender: Option<Sender>,
                            ghost vals: seq<Enactment>, ghost own: set<object>) returns (ghost after: set<object>)
      requires Valid() && Separate(all, vals, own) && own !! templates
      modifies own, this`problems
      ensures Valid() && own <= after && fresh(after - own)
      ensures var levelled := if generated then AssignLevels(vals) else vals;
              var defaulted := WithDefaults(env, levelled);
              && Separate(all, ExpandEach(env, defaulted, sender), after)
              && problems == old(problems) + EachProblems(env, defaulted)
    {
      hide Separate, AssignLevels, WithDefaults, ExpandEach, EachProblems;
      AllInOwn(all, vals, own);
      ghost var levelled := if generated then AssignLevels(vals) else vals;
      if generated {
        AutoAssignLevels(all, vals, own);
      }
      after := ApplyEnactmentDefaults(all, levelled, own);
      after := ExpandAll(all, sender, WithDefaults(env, levelled), after);
    }

    method ExpandStorylineNode(sl: StorylineNode, sender: Option<Sender>,
                               ghost v: Storyline, ghost own: set<object>, ghost bodies: set<object>)
      returns (ghost after: set<object>)
      requires Valid() && StorylineIs(sl, v, own, bodies)
      requires own !! templates && own !! bodies && sl !in own + bodies + templates && this !in own + bodies
      modifies sl, own, this`problems
      ensures Valid() && own <= after && fresh(after - own)
      ensures StorylineIs(sl, ExpandStoryline(env, v, sender), after, bodies)
      ensures problems == old(problems) + StorylineProblems(env, v, sender)
    {
      hide Separate, LoopIs, Gathered, AssignLevels, WithDefaults, ExpandEach, EachProblems, SenderAfter, StorylineUsesProblems, LoopsProblems;
      var direct := sl.enactments;
      var all, last, gathered := Gather(direct, sl.uses, sl.loops, sender, v, own, bodies);
      SameLength(all, Gathered(env, v, sender), gathered);
      SameLength(direct, v.enactments, own);
      sl.loops, sl.enactments, sl.uses := [], all, [];
      after := FinishEnactments(all, |all| > |direct|, last, Gathered(env, v, sender), gathered);
    }
  }

  lemma AllInOwn(nodes: seq<EnactmentNode>, vals: seq<Enactment>, own: set<object>)
    requires Separate(nodes, vals, own)
    ensures forall en :: en in nodes ==> en in own
  {
    forall i | 0 <= i < |nodes|
      ensures nodes[i] in own
    {
      InOwn(nodes, vals, own, i);
    }
  }

  lemma SameLength(nodes: seq<EnactmentNode>, vals: seq<Enactment>, own: set<object>)
    requires Separate(nodes, vals, own)
    ensures |nodes| == |vals|
  {
  }

  lemma SameSource(l: LoopNode, v: Loop, bodies: set<object>)
    requires LoopIs(l, v, bodies)
    ensures l.source == v.source
  {
  }
}
