/**
  Which value ends up where: arguments in the instances of patterns and policies, fields of loop items, numbers of ranges,
  levels and orders, senders and links. Said of the expanded tree, without the functions that compute it.
*/
module ExpansionValues {
  import opened Wrappers
  import opened Expansion

  // ---------- Parameters and arguments ----------

  /** An argument that is the name of a link stands for the link's address. */
  predicate Stands(links: map<string, string>, arg: string, value: string) {
    (arg in links ==> value == links[arg]) && (arg !in links ==> value == arg)
  }

  /** Position `i` is the last one at which the parameter occurs. */
  predicate LastPlace(params: seq<string>, i: int) {
    0 <= i < |params| && forall j :: i < j < |params| ==> params[j] != params[i]
  }

  /** A parameter takes the argument at its own position, the last one if it occurs twice; nothing else is bound. */
  lemma {:induction false} BindIs(links: map<string, string>, params: seq<string>, args: seq<string>)
    requires |params| == |args|
    ensures
      var bound := Bind(links, params, args);
      && (forall i :: LastPlace(params, i) ==> params[i] in bound && Stands(links, args[i], bound[params[i]]))
      && (forall name :: name in bound ==> name in params)
  {
    if params != [] {
      var n := |params| - 1;
      BindIs(links, params[..n], args[..n]);
      var bound := Bind(links, params, args);
      forall i | LastPlace(params, i)
        ensures params[i] in bound && Stands(links, args[i], bound[params[i]])
      {
        if i < n {
          assert params[i] != params[n];
          assert LastPlace(params[..n], i);
          assert params[..n][i] == params[i] && args[..n][i] == args[i];
        }
      }
      forall name | name in bound
        ensures name in params
      {
        assert params == params[..n] + [params[n]];
      }
    }
  }

  lemma DottedApart(variable: string, f: string, g: string)
    requires Dotted(variable, f) == Dotted(variable, g)
    ensures f == g
  {
    var p := variable + ".";
    assert Dotted(variable, f) == p + f && Dotted(variable, g) == p + g;
    assert (p + f)[|p|..] == f && (p + g)[|p|..] == g;
  }

  /** The field `f` of the item a loop's variable stands for is bound as `variable.f`; nothing else is bound. */
  lemma BindFieldsIs(links: map<string, string>, variable: string, fields: map<string, string>)
    ensures
      var bound := BindFields(links, variable, fields);
      && (forall f :: f in fields ==> variable + "." + f in bound && Stands(links, fields[f], bound[variable + "." + f]))
      && (forall name :: name in bound ==> exists f :: f in fields && name == variable + "." + f)
  {
    var bound := BindFields(links, variable, fields);
    forall f | f in fields
      ensures variable + "." + f in bound && Stands(links, fields[f], bound[variable + "." + f])
    {
      var name := Dotted(variable, f);
      assert name == variable + "." + f;
      assert FieldOf(variable, name) == f;
    }
  }

  // ---------- Clones ----------

  /** A text that is exactly the name of a parameter gives way to its value; with no parameters it stays. */
  predicate Takes(params: map<string, string>, text: string, clone: string) {
    && (text != "" && text in params ==> clone == params[text])
    && (text == "" || params == map[] ==> clone == text)
  }

  predicate SceneTakes(params: map<string, string>, v: Scene, c: Scene) {
    && Takes(params, v.name, c.name) && Takes(params, v.subject, c.subject) && Takes(params, v.body, c.body)
    && Takes(params, v.fromEmail, c.fromEmail) && Takes(params, v.fromName, c.fromName) && Takes(params, v.replyTo, c.replyTo)
    && c.tags == v.tags && c.vars.Keys == v.vars.Keys
    && forall k :: k in v.vars ==> Takes(params, v.vars[k], c.vars[k])
  }

  predicate ActionTakes(params: map<string, string>, a: Action, c: Action) {
    c.kind == a.kind && Takes(params, a.target, c.target) && ActionsTake(params, a.fallback, c.fallback)
  }

  predicate ActionsTake(params: map<string, string>, xs: seq<Action>, cs: seq<Action>) {
    |xs| == |cs| && forall i :: 0 <= i < |xs| ==> ActionTakes(params, xs[i], cs[i])
  }

  predicate TriggerTakes(params: map<string, string>, v: Trigger, c: Trigger) {
    && c.kind == v.kind && Takes(params, v.value, c.value)
    && ActionsTake(params, v.actions, c.actions) && ActionsTake(params, v.elseActions, c.elseActions)
  }

  predicate UseTakes(params: map<string, string>, u: Use, c: Use) {
    c.kind == u.kind && c.target == u.target && |c.args| == |u.args|
    && forall i :: 0 <= i < |u.args| ==> Takes(params, u.args[i], c.args[i])
  }

  /** A scene loses its template's name to a parameter in patterns, not in loops. */
  lemma ScenesTake(t: Text, v: Scene, params: map<string, string>)
    ensures SceneTakes(params, v, CloneScene(t, v, params)) && Takes(params, v.template, CloneScene(t, v, params).template)
    ensures SceneTakes(params, v, LoopScene(t, v, params)) && LoopScene(t, v, params).template == v.template
  {
  }

  lemma {:induction false} ClonesTake(t: Text, xs: seq<Action>, params: map<string, string>)
    ensures ActionsTake(params, xs, CloneActions(t, xs, params))
  {
    if xs != [] {
      ClonesTake(t, xs[0].fallback, params);
      ClonesTake(t, xs[1..], params);
      var cs := CloneActions(t, xs, params);
      assert cs == [CloneAction(t, xs[0], params)] + CloneActions(t, xs[1..], params);
      assert CloneAction(t, xs[0], params).fallback == CloneActions(t, xs[0].fallback, params);
      assert ActionTakes(params, xs[0], cs[0]);
      forall i | 0 <= i < |xs|
        ensures ActionTakes(params, xs[i], cs[i])
      {
        if i > 0 {
          assert ActionTakes(params, xs[1..][i - 1], CloneActions(t, xs[1..], params)[i - 1]);
        }
      }
    }
  }

  lemma TriggersTake(t: Text, v: Trigger, params: map<string, string>)
    ensures TriggerTakes(params, v, CloneTrigger(t, v, params))
  {
    ClonesTake(t, v.actions, params);
    ClonesTake(t, v.elseActions, params);
  }

  /** What an enactment made from a template under `params` takes from it. */
  predicate EnactmentTakes(params: map<string, string>, e: Enactment, c: Enactment) {
    && Takes(params, e.name, c.name)
    && |e.scenes| <= |c.scenes| && (forall i :: 0 <= i < |e.scenes| ==> SceneTakes(params, e.scenes[i], c.scenes[i]))
    && |e.triggers| <= |c.triggers| && (forall i :: 0 <= i < |e.triggers| ==> TriggerTakes(params, e.triggers[i], c.triggers[i]))
    && |e.uses| == |c.uses| && (forall i :: 0 <= i < |e.uses| ==> UseTakes(params, e.uses[i], c.uses[i]))
  }

  lemma PatternTakes(t: Text, e: Enactment, params: map<string, string>)
    ensures EnactmentTakes(params, e, PatternEnactment(t, e, params)) && PatternEnactment(t, e, params).level == e.level
  {
    hide CloneScene, CloneTrigger;
    var c := PatternEnactment(t, e, params);
    forall i | 0 <= i < |e.scenes|
      ensures SceneTakes(params, e.scenes[i], c.scenes[i])
    {
      ScenesTake(t, e.scenes[i], params);
    }
    forall i | 0 <= i < |e.triggers|
      ensures TriggerTakes(params, e.triggers[i], c.triggers[i])
    {
      TriggersTake(t, e.triggers[i], params);
    }
  }

  lemma LoopTakes(t: Text, e: Enactment, params: map<string, string>)
    ensures EnactmentTakes(params, e, LoopEnactment(t, e, params))
    ensures
      var level := LoopEnactment(t, e, params).level;
      if e.level.Some? || e.levelExpr == "" then level == e.level
      else exists text :: Takes(params, e.levelExpr, text) && level == t.atoi(text)
  {
    assert Takes(params, e.levelExpr, Substitute(t, e.levelExpr, params));
    hide LoopScene, CloneTrigger;
    var c := LoopEnactment(t, e, params);
    forall i | 0 <= i < |e.scenes|
      ensures SceneTakes(params, e.scenes[i], c.scenes[i])
    {
      ScenesTake(t, e.scenes[i], params);
    }
    forall i | 0 <= i < |e.triggers|
      ensures TriggerTakes(params, e.triggers[i], c.triggers[i])
    {
      TriggersTake(t, e.triggers[i], params);
    }
  }

  // ---------- Instances ----------

  /** Parameters bound to arguments, position by position. */
  ghost predicate Bound(links: map<string, string>, names: seq<string>, args: seq<string>, params: map<string, string>)
    requires |names| == |args|
  {
    && (forall i :: LastPlace(names, i) ==> names[i] in params && Stands(links, args[i], params[names[i]]))
    && (forall name :: name in params ==> name in names)
  }

  /** What a field of a scene becomes: the author's text, or else the one of the sender in force, if there is one. */
  function Given(own: string, sender: Option<string>): string {
    if own != "" || sender.None? then own else sender.value
  }

  predicate SceneFilled(sender: Option<Sender>, v: Scene, c: Scene) {
    && c.fromEmail == Given(v.fromEmail, if sender.Some? then Some(sender.value.fromEmail) else None)
    && c.fromName == Given(v.fromName, if sender.Some? then Some(sender.value.fromName) else None)
    && c.replyTo == Given(v.replyTo, if sender.Some? then Some(sender.value.replyTo) else None)
    && c == v.(fromEmail := c.fromEmail, fromName := c.fromName, replyTo := c.replyTo)
  }

  /** The instance of one enactment of a pattern: each field that is a parameter takes the argument at its position. */
  ghost predicate IsInstance(env: Env, u: Use, sender: Option<Sender>, e: Enactment, c: Enactment)
    requires PatternProblems(env, u) == []
  {
    exists params, own ::
      && Bound(env.links, env.patterns[u.target].params, u.args, params)
      && EnactmentTakes(params, e, own)
      && c.name == own.name && c.level == e.level && c.uses == own.uses
      && |own.scenes| <= |c.scenes| && (forall i :: 0 <= i < |own.scenes| ==> SceneFilled(sender, own.scenes[i], c.scenes[i]))
      && |own.triggers| <= |c.triggers| && c.triggers[..|own.triggers|] == own.triggers
  }

  lemma InstancesAre(env: Env, u: Use, sender: Option<Sender>, k: nat)
    requires PatternProblems(env, u) == [] && k < |env.patterns[u.target].enactments|
    ensures |Instances(env, u, sender)| == |env.patterns[u.target].enactments|
    ensures IsInstance(env, u, sender, env.patterns[u.target].enactments[k], Instances(env, u, sender)[k])
  {
    hide PatternEnactment, MaybeRange, Triggers;
    var p := env.patterns[u.target];
    var params := Bind(env.links, p.params, u.args);
    var own := PatternEnactment(env.text, p.enactments[k], params);
    BindIs(env.links, p.params, u.args);
    hide Bind;
    PatternTakes(env.text, p.enactments[k], params);
    var c := Instances(env, u, sender)[k];
    assert c == Completed(env, p, own, params, sender);
    assert Bound(env.links, p.params, u.args, params) && EnactmentTakes(params, p.enactments[k], own);
  }

  /** The triggers a used policy adds take their arguments the same way. */
  lemma PolicyTriggersAre(env: Env, u: Use, k: nat) returns (params: map<string, string>)
    requires PolicyProblems(env, u) == [] && k < |env.policies[u.target].triggers|
    ensures |PolicyTriggers(env, u)| == |env.policies[u.target].triggers|
    ensures Bound(env.links, env.policies[u.target].params, u.args, params)
    ensures TriggerTakes(params, env.policies[u.target].triggers[k], PolicyTriggers(env, u)[k])
  {
    params := Bind(env.links, env.policies[u.target].params, u.args);
    BindIs(env.links, env.policies[u.target].params, u.args);
    TriggersTake(env.text, env.policies[u.target].triggers[k], params);
  }

  /** For instance: where the subject of a pattern's scene is the name of its parameter `q`, the instance's is argument `q`. */
  lemma SubjectTakesArgument(env: Env, u: Use, sender: Option<Sender>, k: nat, j: nat, q: nat)
    requires PatternProblems(env, u) == [] && k < |env.patterns[u.target].enactments|
    requires
      var p := env.patterns[u.target];
      j < |p.enactments[k].scenes| && LastPlace(p.params, q) && p.params[q] != "" && p.enactments[k].scenes[j].subject == p.params[q]
    ensures
      var c := Instances(env, u, sender);
      k < |c| && j < |c[k].scenes| && Stands(env.links, u.args[q], c[k].scenes[j].subject)
  {
    hide Instances;
    InstancesAre(env, u, sender, k);
    var p := env.patterns[u.target];
    var c := Instances(env, u, sender)[k];
    var params, own :|
      && Bound(env.links, p.params, u.args, params)
      && EnactmentTakes(params, p.enactments[k], own)
      && c.name == own.name && c.level == p.enactments[k].level && c.uses == own.uses
      && |own.scenes| <= |c.scenes| && (forall i :: 0 <= i < |own.scenes| ==> SceneFilled(sender, own.scenes[i], c.scenes[i]))
      && |own.triggers| <= |c.triggers| && c.triggers[..|own.triggers|] == own.triggers;
    assert SceneTakes(params, p.enactments[k].scenes[j], own.scenes[j]);
  }

  // ---------- Ranges ----------

  /** Scene `i` of a range knows its number: a field that is the range's variable becomes the numeral of start + i. */
  lemma RangeSceneIs(t: Text, r: Range, params: map<string, string>, i: nat)
    requires i < |RangeScenes(t, r, params)|
    ensures r.body.Some? && r.start + i <= r.end
    ensures SceneTakes(params[r.variable := t.itoa(r.start + i)], r.body.value, RangeScenes(t, r, params)[i])
  {
    assert RangeScenes(t, r, params)[i] == RangeScene(t, r.body.value, r.variable, r.start + i, params);
    ScenesTake(t, r.body.value, params[r.variable := t.itoa(r.start + i)]);
  }

  // ---------- Levels and orders ----------

  ghost predicate NeedsNumbers(es: seq<Enactment>) {
    || (exists i :: 0 <= i < |es| && es[i].level.None?)
    || (exists i, j :: 0 <= i < j < |es| && es[i].level.Some? && es[i].level == es[j].level)
  }

  lemma AssignedIs(es: seq<Enactment>)
    ensures forall i :: 0 <= i < |es| ==>
      AssignLevels(es)[i] == es[i].(level := if NeedsNumbers(es) then Some(i + 1) else es[i].level)
  {
    if NeedsNumbers(es) {
      if DistinctLevels(LevelsOf(es)) && AllLevels(LevelsOf(es)) {
        NumberedAlready(es);
        assert false;
      }
    } else {
      assert AllLevels(LevelsOf(es)) && DistinctLevels(LevelsOf(es));
    }
  }

  lemma NumberedAlready(es: seq<Enactment>)
    requires DistinctLevels(LevelsOf(es)) && AllLevels(LevelsOf(es))
    ensures !NeedsNumbers(es)
  {
    forall i | 0 <= i < |es|
      ensures es[i].level.Some?
    {
      assert LevelsOf(es)[i].Some?;
    }
    forall i, j | 0 <= i < j < |es|
      ensures es[i].level != es[j].level
    {
      assert LevelsOf(es)[i] != LevelsOf(es)[j];
    }
  }

  /**
    The place and the level of every enactment of an expanded storyline: the direct ones come first and in order, with
    their names; if anything was generated and a level is missing or doubled, the levels are the places, from 1.
  */
  lemma PlacesAndLevels(env: Env, sl: Storyline, sender: Option<Sender>)
    ensures
      var all, out := Gathered(env, sl, sender), ExpandStoryline(env, sl, sender).enactments;
      && |out| == |all| && |sl.enactments| <= |all|
      && (forall i :: 0 <= i < |all| ==> out[i].name == all[i].name)
      && (forall i :: 0 <= i < |sl.enactments| ==> all[i] == sl.enactments[i])
      && (forall i :: 0 <= i < |all| ==>
            out[i].level == if |all| > |sl.enactments| && NeedsNumbers(all) then Some(i + 1) else all[i].level)
  {
    hide UsedInstances, LoopsEnactments, SenderAfter, LinkScenes, LinkTriggers, FillSenders, DefaultTriggers, DefaultUses, UsedTriggers,
      AssignLevels, NeedsNumbers, MaybeRange;
    AssignedIs(Gathered(env, sl, sender));
  }

  /** A storyline of the story keeps its order, or gets its place in the list. */
  lemma OrdersAre(env: Env, st: Story, k: nat)
    requires k < |st.storylines|
    ensures
      var out := ExpandStory(env, st).storylines;
      && k < |out| && out[k].name == st.storylines[k].name
      && out[k].order == if st.storylines[k].order.Some? then st.storylines[k].order else Some(k + 1)
  {
    hide StoryLoops, ExpandEach, WithDefaults, Levelled, StorySender;
  }

  // ---------- Senders and links ----------

  /** The last `use sender` that names a known sender decides. */
  lemma {:induction false} LastSenderCounts(env: Env, us: seq<Use>, k: nat, sender: Option<Sender>)
    requires k < |us| && us[k].kind == UseSender && SenderName(us[k].target) in env.senders
    requires forall j :: k < j < |us| && us[j].kind == UseSender ==> SenderName(us[j].target) !in env.senders
    ensures SenderAfter(env, us, sender) == Some(env.senders[SenderName(us[k].target)])
  {
    var n := |us| - 1;
    if k < n {
      LastSenderCounts(env, us[..n], k, sender);
    }
  }

  /** What an enactment's own scene and trigger become: empty sender fields filled, link names resolved. */
  lemma SceneSenderIs(env: Env, e: Enactment, sender: Option<Sender>, j: nat)
    requires j < |e.scenes| && SenderAfter(env, e.uses, sender).Some?
    ensures
      var own, out, s := e.scenes[j], ExpandEnactment(env, e, sender).scenes, SenderAfter(env, e.uses, sender).value;
      && j < |out|
      && out[j].fromEmail == (if own.fromEmail == "" then s.fromEmail else own.fromEmail)
      && out[j].fromName == (if own.fromName == "" then s.fromName else own.fromName)
      && out[j].replyTo == (if own.replyTo == "" then s.replyTo else own.replyTo)
  {
    hide SenderAfter, MaybeRange, UsedTriggers;
  }

  lemma TriggerLinkIs(env: Env, e: Enactment, sender: Option<Sender>, j: nat)
    requires j < |e.triggers|
    ensures
      var own, out := e.triggers[j], ExpandEnactment(env, e, sender).triggers;
      && j < |out| && out[j] == own.(value := out[j].value)
      && (own.value != "" ==> Stands(env.links, own.value, out[j].value)) && (own.value == "" ==> out[j].value == "")
  {
    hide SenderAfter, MaybeRange, UsedTriggers;
  }

  /** Every enactment gets the default triggers behind its own ones, as they were written. */
  lemma DefaultTriggerIs(env: Env, e: Enactment, d: nat, j: nat)
    requires d < |env.defaults| && j < |env.defaults[d].triggers|
    ensures exists i :: |e.triggers| <= i < |AddDefaults(env, e).triggers|
                        && TriggerTakes(map[], env.defaults[d].triggers[j], AddDefaults(env, e).triggers[i])
    ensures AddDefaults(env, e).triggers[..|e.triggers|] == e.triggers
  {
    var i := DefaultTriggerAt(env.text, env.defaults, d, j);
    assert AddDefaults(env, e).triggers[|e.triggers| + i] == DefaultTriggers(env.text, env.defaults)[i];
  }

  lemma {:induction false} DefaultTriggerAt(t: Text, ds: seq<Defaults>, d: nat, j: nat) returns (i: nat)
    requires d < |ds| && j < |ds[d].triggers|
    ensures i < |DefaultTriggers(t, ds)| && TriggerTakes(map[], ds[d].triggers[j], DefaultTriggers(t, ds)[i])
    decreases |ds|
  {
    var n := |ds| - 1;
    if d < n {
      i := DefaultTriggerAt(t, ds[..n], d, j);
    } else {
      TriggersTake(t, ds[d].triggers[j], map[]);
      i := |DefaultTriggers(t, ds[..n])| + j;
    }
  }
}
