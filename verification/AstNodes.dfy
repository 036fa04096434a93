/**
  The nodes of the tree that expansion writes to, as objects, with the operations that clone them and the notion of
  a list of enactments whose nodes are not shared.
*/
module AstNodes {
  import opened Wrappers
  import opened Expansion

  class SceneNode {
    var scene: Scene

    constructor (scene: Scene)
      ensures this.scene == scene
    {
      this.scene := scene;
    }
  }

  class TriggerNode {
    var trigger: Trigger

    constructor (trigger: Trigger)
      ensures this.trigger == trigger
    {
      this.trigger := trigger;
    }
  }

  // ---------- Values of lists of nodes ----------

  ghost function SceneVals(nodes: seq<SceneNode>): (r: seq<Scene>)
    reads nodes
    ensures |r| == |nodes|
  {
    seq(|nodes|, i requires 0 <= i < |nodes| reads nodes => nodes[i].scene)
  }

  ghost function TriggerVals(nodes: seq<TriggerNode>): (r: seq<Trigger>)
    reads nodes
    ensures |r| == |nodes|
  {
    seq(|nodes|, i requires 0 <= i < |nodes| reads nodes => nodes[i].trigger)
  }

  ghost predicate Distinct(nodes: seq<object>) {
    forall i, j :: 0 <= i < j < |nodes| ==> nodes[i] != nodes[j]
  }

  // ---------- Clones of scenes and triggers ----------

  method CloneScenes(t: Text, nodes: seq<SceneNode>, params: map<string, string>) returns (clones: seq<SceneNode>)
    ensures fresh(clones) && Distinct(clones)
    ensures SceneVals(clones) == Scenes(t, SceneVals(nodes), params)
  {
    clones := [];
    for i := 0 to |nodes|
      invariant |clones| == i && fresh(clones) && Distinct(clones)
      invariant forall k :: 0 <= k < i ==> clones[k].scene == CloneScene(t, nodes[k].scene, params)
    {
      var clone := new SceneNode(CloneScene(t, nodes[i].scene, params));
      clones := clones + [clone];
    }
  }

  method CloneLoopScenes(t: Text, nodes: seq<SceneNode>, params: map<string, string>) returns (clones: seq<SceneNode>)
    ensures fresh(clones) && Distinct(clones)
    ensures SceneVals(clones) == LoopScenes(t, SceneVals(nodes), params)
  {
    hide LoopScene;
    clones := [];
    for i := 0 to |nodes|
      invariant |clones| == i && fresh(clones) && Distinct(clones)
      invariant forall k :: 0 <= k < i ==> clones[k].scene == LoopScene(t, nodes[k].scene, params)
    {
      var clone := new SceneNode(LoopScene(t, nodes[i].scene, params));
      clones := clones + [clone];
    }
  }

  method CloneTriggers(t: Text, nodes: seq<TriggerNode>, params: map<string, string>) returns (clones: seq<TriggerNode>)
    ensures fresh(clones) && Distinct(clones)
    ensures TriggerVals(clones) == Triggers(t, TriggerVals(nodes), params)
  {
    clones := [];
    for i := 0 to |nodes|
      invariant |clones| == i && fresh(clones) && Distinct(clones)
      invariant forall k :: 0 <= k < i ==> clones[k].trigger == CloneTrigger(t, nodes[k].trigger, params)
    {
      var clone := new TriggerNode(CloneTrigger(t, nodes[i].trigger, params));
      clones := clones + [clone];
    }
  }

  method ExpandRange(t: Text, r: Range, params: map<string, string>) returns (scenes: seq<SceneNode>)
    ensures fresh(scenes) && Distinct(scenes)
    ensures SceneVals(scenes) == RangeScenes(t, r, params)
  {
    hide CloneScene;
    scenes := [];
    if r.body.None? {
      return;
    }
    var i := r.start;
    while i <= r.end
      invariant r.start <= i && (i == r.start || i <= r.end + 1)
      invariant |scenes| == i - r.start && fresh(scenes) && Distinct(scenes)
      invariant forall k :: 0 <= k < |scenes| ==>
        scenes[k].scene == RangeScene(t, r.body.value, r.variable, r.start + k, params)
    {
      var subs := params[r.variable := t.itoa(i)];
      var scene := new SceneNode(CloneScene(t, r.body.value, subs));
      assert scene.scene == RangeScene(t, r.body.value, r.variable, i, params);
      hide RangeScene;
      scenes := scenes + [scene];
      i := i + 1;
    }
  }

  // ---------- In place: senders and links ----------

  method ApplySender(nodes: seq<SceneNode>, sender: Sender)
    requires Distinct(nodes)
    modifies nodes
    ensures SceneVals(nodes) == FillSenders(old(SceneVals(nodes)), Some(sender))
  {
    for i := 0 to |nodes|
      invariant forall k :: 0 <= k < i ==> nodes[k].scene == FillSender(old(nodes[k].scene), sender)
      invariant forall k :: i <= k < |nodes| ==> nodes[k].scene == old(nodes[k].scene)
    {
      var sc := nodes[i];
      if sc.scene.fromEmail == "" && sender.fromEmail != "" {
        sc.scene := sc.scene.(fromEmail := sender.fromEmail);
      }
      if sc.scene.fromName == "" && sender.fromName != "" {
        sc.scene := sc.scene.(fromName := sender.fromName);
      }
      if sc.scene.replyTo == "" && sender.replyTo != "" {
        sc.scene := sc.scene.(replyTo := sender.replyTo);
      }
    }
  }

  method ResolveLinksInTriggers(nodes: seq<TriggerNode>, links: map<string, string>)
    requires Distinct(nodes)
    modifies nodes
    ensures TriggerVals(nodes) == LinkTriggers(old(TriggerVals(nodes)), links)
  {
    for i := 0 to |nodes|
      invariant forall k :: 0 <= k < i ==> nodes[k].trigger == LinkTriggers(old(TriggerVals(nodes)), links)[k]
      invariant forall k :: i <= k < |nodes| ==> nodes[k].trigger == old(nodes[k].trigger)
    {
      var tr := nodes[i];
      if tr.trigger.value != "" && tr.trigger.value in links {
        tr.trigger := tr.trigger.(value := links[tr.trigger.value]);
      }
    }
  }

  method SubstituteLinks(t: Text, nodes: seq<SceneNode>, links: map<string, string>)
    requires Distinct(nodes)
    modifies nodes
    ensures SceneVals(nodes) == LinkScenes(t, old(SceneVals(nodes)), links)
  {
    if links != map[] {
      for i := 0 to |nodes|
        invariant forall k :: 0 <= k < i ==> nodes[k].scene == LinkScenes(t, old(SceneVals(nodes)), links)[k]
        invariant forall k :: i <= k < |nodes| ==> nodes[k].scene == old(nodes[k].scene)
      {
        var sc := nodes[i];
        sc.scene := sc.scene.(subject := Substitute(t, sc.scene.subject, links), body := t.href(sc.scene.body, links));
      }
    }
  }

  // ---------- Enactments ----------

  class EnactmentNode {
    var name: string
    var level: Option<int>
    var levelExpr: string
    var scenes: seq<SceneNode>
    var range: Option<Range>
    var triggers: seq<TriggerNode>
    var uses: seq<Use>

    constructor (name: string, level: Option<int>, levelExpr: string,
                 scenes: seq<SceneNode>, range: Option<Range>, triggers: seq<TriggerNode>, uses: seq<Use>)
      ensures this.name == name && this.level == level && this.levelExpr == levelExpr
      ensures this.scenes == scenes && this.range == range && this.triggers == triggers && this.uses == uses
    {
      this.name, this.level, this.levelExpr := name, level, levelExpr;
      this.scenes, this.range, this.triggers, this.uses := scenes, range, triggers, uses;
    }

    /** The node itself and the nodes a later pass may write to through it. */
    ghost function Own(): set<object>
      reads this
    {
      {this} + (set o: object | o in scenes) + (set o: object | o in triggers)
    }

    ghost predicate Sound()
      reads this
    {
      Distinct(scenes) && Distinct(triggers)
    }

    ghost function Val(): Enactment
      reads this, scenes, triggers
    {
      Enactment(name, level, levelExpr, SceneVals(scenes), range, TriggerVals(triggers), uses)
    }

    method AppendScenes(more: seq<SceneNode>)
      requires Sound() && Distinct(scenes + more)
      modifies this`scenes
      ensures Sound() && Own() == old(Own()) + set o: object | o in more
      ensures Val() == old(Val()).(scenes := old(Val()).scenes + SceneVals(more))
      ensures scenes == old(scenes) + more
    {
      SceneValsJoin(scenes, more);
      scenes := scenes + more;
    }

    method AppendTriggers(more: seq<TriggerNode>)
      requires Sound() && Distinct(triggers + more)
      modifies this`triggers
      ensures Sound() && Own() == old(Own()) + set o: object | o in more
      ensures Val() == old(Val()).(triggers := old(Val()).triggers + TriggerVals(more))
      ensures triggers == old(triggers) + more
    {
      TriggerValsJoin(triggers, more);
      triggers := triggers + more;
    }

    method ResolveLinks(t: Text, links: map<string, string>)
      requires Sound()
      modifies scenes, triggers
      ensures Val() == old(Val()).(scenes := LinkScenes(t, old(Val()).scenes, links),
                                   triggers := LinkTriggers(old(Val()).triggers, links))
    {
      hide LinkScenes, LinkTriggers;
      ResolveLinksInTriggers(triggers, links);
      SubstituteLinks(t, scenes, links);
    }

    method FillSender(sender: Sender)
      requires Sound()
      modifies scenes
      ensures Val() == old(Val()).(scenes := FillSenders(old(Val()).scenes, Some(sender)))
    {
      ApplySender(scenes, sender);
    }
  }

  lemma SceneValsJoin(a: seq<SceneNode>, b: seq<SceneNode>)
    ensures SceneVals(a + b) == SceneVals(a) + SceneVals(b)
  {
  }

  lemma TriggerValsJoin(a: seq<TriggerNode>, b: seq<TriggerNode>)
    ensures TriggerVals(a + b) == TriggerVals(a) + TriggerVals(b)
  {
  }

  method CloneUseStatement(t: Text, u: Use, params: map<string, string>) returns (r: Use)
    ensures r == CloneUse(t, u, params)
  {
    hide Substitute;
    var args: seq<string> := [];
    for j := 0 to |u.args|
      invariant |args| == j && forall k :: 0 <= k < j ==> args[k] == Substitute(t, u.args[k], params)
    {
      args := args + [Substitute(t, u.args[j], params)];
    }
    r := Use(u.kind, u.target, args);
  }

  method CloneUses(t: Text, us: seq<Use>, params: map<string, string>) returns (r: seq<Use>)
    ensures r == Uses(t, us, params)
  {
    hide CloneUse;
    r := [];
    for i := 0 to |us|
      invariant |r| == i && forall k :: 0 <= k < i ==> r[k] == CloneUse(t, us[k], params)
    {
      var u := CloneUseStatement(t, us[i], params);
      r := r + [u];
    }
  }

  /** The clone of a pattern's enactment. */
  method CloneEnactment(t: Text, tmpl: EnactmentNode, params: map<string, string>) returns (en: EnactmentNode)
    ensures fresh(en.Own()) && fresh(en) && fresh(en.scenes) && en.Sound()
    ensures en.Val() == PatternEnactment(t, tmpl.Val(), params)
  {
    hide Scenes, Triggers, Uses, RangeScenes, Substitute, SceneVals, TriggerVals;
    var scenes := CloneScenes(t, tmpl.scenes, params);
    if tmpl.range.Some? {
      var more := ExpandRange(t, tmpl.range.value, params);
      SceneValsJoin(scenes, more);
      scenes := scenes + more;
    } else {
      assert SceneVals(scenes) + [] == SceneVals(scenes);
    }
    var triggers := CloneTriggers(t, tmpl.triggers, params);
    var uses := CloneUses(t, tmpl.uses, params);
    en := new EnactmentNode(Substitute(t, tmpl.name, params), tmpl.level, "", scenes, None, triggers, uses);
  }

  /** The clone of a for loop's enactment. A level expression that yields no number is reported. */
  method CloneLoopEnactment(t: Text, tmpl: EnactmentNode, params: map<string, string>)
    returns (en: EnactmentNode, problems: seq<Problem>)
    ensures fresh(en.Own()) && en.Sound()
    ensures en.Val() == LoopEnactment(t, tmpl.Val(), params)
    ensures problems == LoopProblems(t, tmpl.Val(), params)
  {
    hide LoopScenes, Triggers, Uses, Substitute, SceneVals, TriggerVals, LoopRange;
    problems := [];
    var level := tmpl.level;
    if tmpl.levelExpr != "" && level.None? {
      level := t.atoi(Substitute(t, tmpl.levelExpr, params));
      if level.None? {
        problems := [BadLevel];
      }
    }
    var scenes := CloneLoopScenes(t, tmpl.scenes, params);
    var range := if tmpl.range.None? then None else Some(LoopRange(t, tmpl.range.value, params));
    var triggers := CloneTriggers(t, tmpl.triggers, params);
    var uses := CloneUses(t, tmpl.uses, params);
    en := new EnactmentNode(Substitute(t, tmpl.name, params), level, "", scenes, range, triggers, uses);
  }

  // ---------- Definitions ----------

  datatype PatternNode = PatternNode(
    params: seq<string>, enactments: seq<EnactmentNode>, range: Option<Range>, triggers: seq<TriggerNode>)

  datatype PolicyNode = PolicyNode(params: seq<string>, triggers: seq<TriggerNode>)

  datatype DefaultsNode = DefaultsNode(triggers: seq<TriggerNode>, uses: seq<Use>)

  datatype LoopNode = LoopNode(variable: string, source: Source, uses: seq<Use>, enactments: seq<EnactmentNode>)

  ghost predicate TriggersAre(nodes: seq<TriggerNode>, vals: seq<Trigger>, templates: set<object>)
    reads templates
  {
    |nodes| == |vals| && forall i :: 0 <= i < |nodes| ==> nodes[i] in templates && nodes[i].trigger == vals[i]
  }

  ghost predicate EnactmentIs(e: EnactmentNode, v: Enactment, templates: set<object>)
    reads templates
  {
    e in templates && e.Own() <= templates && e.Val() == v
  }

  ghost predicate EnactmentsAre(nodes: seq<EnactmentNode>, vals: seq<Enactment>, templates: set<object>)
    reads templates
  {
    |nodes| == |vals| && forall i :: 0 <= i < |nodes| ==> EnactmentIs(nodes[i], vals[i], templates)
  }

  ghost predicate PatternIs(p: PatternNode, v: Pattern, templates: set<object>)
    reads templates
  {
    && p.params == v.params && p.range == v.range
    && EnactmentsAre(p.enactments, v.enactments, templates) && TriggersAre(p.triggers, v.triggers, templates)
  }

  ghost predicate PolicyIs(p: PolicyNode, v: Policy, templates: set<object>)
    reads templates
  {
    p.params == v.params && TriggersAre(p.triggers, v.triggers, templates)
  }

  ghost predicate LoopIs(l: LoopNode, v: Loop, templates: set<object>)
    reads templates
  {
    && l.variable == v.variable && l.source == v.source && l.uses == v.uses
    && EnactmentsAre(l.enactments, v.enactments, templates)
  }

  ghost predicate LoopsAre(nodes: seq<LoopNode>, vals: seq<Loop>, templates: set<object>)
    reads templates
  {
    |nodes| == |vals| && forall i :: 0 <= i < |nodes| ==> LoopIs(nodes[i], vals[i], templates)
  }

  ghost predicate DefaultsIs(d: DefaultsNode, v: Defaults, templates: set<object>)
    reads templates
  {
    d.uses == v.uses && TriggersAre(d.triggers, v.triggers, templates)
  }

  lemma ValsOfTriggers(nodes: seq<TriggerNode>, vals: seq<Trigger>, templates: set<object>)
    requires TriggersAre(nodes, vals, templates)
    ensures TriggerVals(nodes) == vals
  {
  }

  method BindParams(links: map<string, string>, params: seq<string>, args: seq<string>) returns (r: map<string, string>)
    requires |params| == |args|
    ensures r == Bind(links, params, args)
  {
    r := map[];
    for i := 0 to |params|
      invariant r == Bind(links, params[..i], args[..i])
    {
      assert params[..i + 1][..i] == params[..i] && args[..i + 1][..i] == args[..i];
      r := r[params[i] := if args[i] in links then links[args[i]] else args[i]];
    }
    assert params[..|params|] == params && args[..|args|] == args;
  }

  /** The fields of a loop's item, in whatever order the map yields them. */
  method BuildObjectParams(links: map<string, string>, variable: string, fields: map<string, string>)
    returns (params: map<string, string>)
    ensures params == BindFields(links, variable, fields)
  {
    params := map[];
    var left := fields.Keys;
    while left != {}
      invariant left <= fields.Keys
      invariant FieldsBound(links, variable, fields, fields.Keys - left, params)
      decreases |left|
    {
      var f :| f in left;
      OneMoreField(links, variable, fields, fields.Keys - left, params, f);
      assert fields.Keys - (left - {f}) == fields.Keys - left + {f};
      params := params[variable + "." + f := if fields[f] in links then links[fields[f]] else fields[f]];
      left := left - {f};
    }
    AllFieldsBound(links, variable, fields, params);
  }

  ghost predicate FieldsBound(
      links: map<string, string>, variable: string, fields: map<string, string>, done: set<string>, params: map<string, string>)
  {
    && done <= fields.Keys
    && (forall name :: name in params <==> exists f :: f in done && name == Dotted(variable, f))
    && (forall f :: f in done ==> params[Dotted(variable, f)] == Resolve(links, fields[f]))
  }

  lemma DottedField(variable: string, f: string)
    ensures |Dotted(variable, f)| > |variable| && FieldOf(variable, Dotted(variable, f)) == f
  {
  }

  lemma OneMoreField(links: map<string, string>, variable: string, fields: map<string, string>,
                     done: set<string>, params: map<string, string>, f: string)
    requires FieldsBound(links, variable, fields, done, params) && f in fields
    ensures FieldsBound(links, variable, fields, done + {f}, params[Dotted(variable, f) := Resolve(links, fields[f])])
  {
    hide Resolve, Dotted, FieldOf;
    forall g | g in done && g != f
      ensures Dotted(variable, g) != Dotted(variable, f)
    {
      DottedField(variable, g);
      DottedField(variable, f);
    }
  }

  lemma AllFieldsBound(links: map<string, string>, variable: string, fields: map<string, string>, params: map<string, string>)
    requires FieldsBound(links, variable, fields, fields.Keys, params)
    ensures params == BindFields(links, variable, fields)
  {
    hide Resolve, Dotted, FieldOf;
    var bound := BindFields(links, variable, fields);
    assert params.Keys == bound.Keys;
    forall name | name in params
      ensures params[name] == bound[name]
    {
      var f :| f in fields && name == Dotted(variable, f);
      DottedField(variable, f);
    }
  }

  // ---------- Lists of enactments ----------

  /** No node is reached through two enactments of the list, nor twice through one. */
  ghost predicate Apart(nodes: seq<EnactmentNode>)
    reads nodes
  {
    && (forall i :: 0 <= i < |nodes| ==> nodes[i].Sound())
    && (forall i, j :: 0 <= i < j < |nodes| ==> nodes[i].Own() !! nodes[j].Own())
  }

  /** Enactments with these values, all of whose nodes are in `own` and none shared. */
  ghost predicate Separate(nodes: seq<EnactmentNode>, vals: seq<Enactment>, own: set<object>)
    reads own
    ensures Separate(nodes, vals, own) ==> |nodes| == |vals|
  {
    EnactmentsAre(nodes, vals, own) && Apart(nodes)
  }

  /** In a separate list no scene and no trigger is reached from two enactments. */
  lemma InstancesShareNoNode(nodes: seq<EnactmentNode>, vals: seq<Enactment>, own: set<object>, i: nat, j: nat)
    requires Separate(nodes, vals, own) && i < |nodes| && j < |nodes| && i != j
    ensures nodes[i] != nodes[j]
    ensures forall s :: s in nodes[i].scenes ==> s !in nodes[j].scenes
    ensures forall t :: t in nodes[i].triggers ==> t !in nodes[j].triggers
  {
    assert nodes[i] in nodes[i].Own() && nodes[j] in nodes[j].Own();
    assert nodes[i].Own() !! nodes[j].Own();
    assert forall s :: s in nodes[i].scenes ==> s in nodes[i].Own();
    assert forall s :: s in nodes[j].scenes ==> s in nodes[j].Own();
    assert forall t :: t in nodes[i].triggers ==> t in nodes[i].Own();
    assert forall t :: t in nodes[j].triggers ==> t in nodes[j].Own();
  }

  lemma SeparateSnoc(nodes: seq<EnactmentNode>, vals: seq<Enactment>, own: set<object>, en: EnactmentNode)
    requires Separate(nodes, vals, own) && en.Sound() && en.Own() !! own
    ensures Separate(nodes + [en], vals + [en.Val()], own + en.Own())
  {
    hide EnactmentNode.Val;
    var all, out := nodes + [en], own + en.Own();
    forall i | 0 <= i < |all|
      ensures EnactmentIs(all[i], (vals + [en.Val()])[i], out)
    {
      if i < |nodes| {
        assert EnactmentIs(nodes[i], vals[i], own);
      }
    }
    forall i, j | 0 <= i < j < |all|
      ensures all[i].Own() !! all[j].Own()
    {
      assert EnactmentIs(nodes[i], vals[i], own);
    }
  }

  /** Enactment `k` still has its value and its nodes, and shares none with enactment `i`. */
  ghost predicate Stays(nodes: seq<EnactmentNode>, vals: seq<Enactment>, own: set<object>, part: set<object>, i: nat, k: nat)
    requires i < |nodes| && k < |nodes| == |vals|
    reads nodes, own
  {
    EnactmentIs(nodes[k], vals[k], own) && nodes[k].Sound() && nodes[k].Own() == part && part !! nodes[i].Own()
  }

  lemma SeparateUpdate(nodes: seq<EnactmentNode>, vals: seq<Enactment>, own: set<object>, parts: seq<set<object>>, i: nat)
    requires i < |nodes| == |vals| == |parts| && nodes[i].Sound()
    requires forall k :: 0 <= k < |nodes| && k != i ==> Stays(nodes, vals, own, parts[k], i, k)
    requires forall k, l :: 0 <= k < l < |nodes| ==> parts[k] !! parts[l]
    ensures Separate(nodes, vals[i := nodes[i].Val()], own + nodes[i].Own())
  {
    hide EnactmentNode.Val, EnactmentNode.Own, EnactmentNode.Sound;
    var out, after := own + nodes[i].Own(), vals[i := nodes[i].Val()];
    forall k | 0 <= k < |nodes|
      ensures EnactmentIs(nodes[k], after[k], out) && nodes[k].Sound()
    {
      if k != i {
        assert Stays(nodes, vals, own, parts[k], i, k);
      } else {
        OwnsItself(nodes[i]);
      }
    }
    forall k, l | 0 <= k < l < |nodes|
      ensures nodes[k].Own() !! nodes[l].Own()
    {
      assert k != i ==> Stays(nodes, vals, own, parts[k], i, k);
      assert l != i ==> Stays(nodes, vals, own, parts[l], i, l);
    }
  }

  lemma OwnsItself(en: EnactmentNode)
    ensures en in en.Own()
  {
  }

  ghost function Parts(nodes: seq<EnactmentNode>): (r: seq<set<object>>)
    reads nodes
    ensures |r| == |nodes|
  {
    seq(|nodes|, k requires 0 <= k < |nodes| reads nodes => nodes[k].Own())
  }

  lemma SeparateJoin(a: seq<EnactmentNode>, va: seq<Enactment>, na: set<object>,
                     b: seq<EnactmentNode>, vb: seq<Enactment>, nb: set<object>)
    requires Separate(a, va, na) && Separate(b, vb, nb) && na !! nb
    ensures Separate(a + b, va + vb, na + nb)
  {
    hide EnactmentNode.Val;
    var all, vals, own := a + b, va + vb, na + nb;
    forall i | 0 <= i < |all|
      ensures EnactmentIs(all[i], vals[i], own)
    {
      if i < |a| {
        assert EnactmentIs(a[i], va[i], na);
      } else {
        assert EnactmentIs(b[i - |a|], vb[i - |a|], nb);
      }
    }
    forall i, j | 0 <= i < j < |all|
      ensures all[i].Own() !! all[j].Own()
    {
      OwnSide(a, va, na, b, vb, nb, i, j);
    }
  }

  lemma OwnSide(a: seq<EnactmentNode>, va: seq<Enactment>, na: set<object>,
                b: seq<EnactmentNode>, vb: seq<Enactment>, nb: set<object>, i: nat, j: nat)
    requires Separate(a, va, na) && Separate(b, vb, nb) && na !! nb && i < j < |a + b|
    ensures (a + b)[i].Own() !! (a + b)[j].Own()
  {
    if i < |a| {
      assert EnactmentIs(a[i], va[i], na);
    }
    if j >= |a| {
      assert EnactmentIs(b[j - |a|], vb[j - |a|], nb);
    }
  }

  lemma SeparateNone()
    ensures Separate([], [], {})
  {
  }

  // ---------- Storylines ----------

  class StorylineNode {
    var name: string
    var order: Option<int>
    var orderExpr: string
    var enactments: seq<EnactmentNode>
    var uses: seq<Use>
    var loops: seq<LoopNode>

    constructor (name: string, order: Option<int>, orderExpr: string,
                 enactments: seq<EnactmentNode>, uses: seq<Use>, loops: seq<LoopNode>)
      ensures this.name == name && this.order == order && this.orderExpr == orderExpr
      ensures this.enactments == enactments && this.uses == uses && this.loops == loops
    {
      this.name, this.order, this.orderExpr := name, order, orderExpr;
      this.enactments, this.uses, this.loops := enactments, uses, loops;
    }
  }

  /** A storyline with this value: its enactments' nodes are in `own`, its loop bodies' nodes in `bodies`. */
  ghost predicate StorylineIs(node: StorylineNode, v: Storyline, own: set<object>, bodies: set<object>)
    reads node, own, bodies
  {
    && node.name == v.name && node.order == v.order && node.orderExpr == v.orderExpr && node.uses == v.uses
    && Separate(node.enactments, v.enactments, own) && LoopsAre(node.loops, v.loops, bodies)
  }

  /** The nodes of a list of storylines: of each one's enactments, of all of them, and of all their loop bodies. */
  datatype Hold = Hold(owns: seq<set<object>>, own: set<object>, bodies: set<object>)

  function HoldJoin(a: Hold, b: Hold): Hold {
    Hold(a.owns + b.owns, a.own + b.own, a.bodies + b.bodies)
  }

  /** Storylines with these values, no node of which is reached from two of them or from a loop body. */
  ghost predicate StorylinesAre(nodes: seq<StorylineNode>, vals: seq<Storyline>, h: Hold)
    reads nodes, h.own, h.bodies
    ensures StorylinesAre(nodes, vals, h) ==> |nodes| == |vals| == |h.owns|
  {
    && |nodes| == |vals| == |h.owns| && h.own !! h.bodies
    && (forall i :: 0 <= i < |nodes| ==> nodes[i] !in h.own + h.bodies)
    && (forall i :: 0 <= i < |nodes| ==> h.owns[i] <= h.own && StorylineIs(nodes[i], vals[i], h.owns[i], h.bodies))
    && (forall i, j :: 0 <= i < j < |nodes| ==> nodes[i] != nodes[j] && h.owns[i] !! h.owns[j])
  }

  lemma LoopsMore(nodes: seq<LoopNode>, vals: seq<Loop>, a: set<object>, b: set<object>)
    requires LoopsAre(nodes, vals, a) && a <= b
    ensures LoopsAre(nodes, vals, b)
  {
    hide EnactmentNode.Val, EnactmentNode.Own;
    forall i | 0 <= i < |nodes|
      ensures LoopIs(nodes[i], vals[i], b)
    {
      LoopMore(nodes[i], vals[i], a, b);
    }
  }

  lemma LoopMore(l: LoopNode, v: Loop, a: set<object>, b: set<object>)
    requires LoopIs(l, v, a) && a <= b
    ensures LoopIs(l, v, b)
  {
    hide EnactmentNode.Val, EnactmentNode.Own;
    assert forall i :: 0 <= i < |l.enactments| ==> EnactmentIs(l.enactments[i], v.enactments[i], a);
  }

  lemma StorylineMore(node: StorylineNode, v: Storyline, own: set<object>, a: set<object>, b: set<object>)
    requires StorylineIs(node, v, own, a) && a <= b
    ensures StorylineIs(node, v, own, b)
  {
    hide LoopsAre, Separate;
    LoopsMore(node.loops, v.loops, a, b);
  }

  /** Two lists of storylines that share no node are one list. */
  lemma StorylinesJoin(a: seq<StorylineNode>, va: seq<Storyline>, ha: Hold, b: seq<StorylineNode>, vb: seq<Storyline>, hb: Hold)
    requires StorylinesAre(a, va, ha) && StorylinesAre(b, vb, hb)
    requires ha.own + ha.bodies !! hb.own + hb.bodies
    requires forall x, y :: x in a && y in b ==> x != y
    requires forall x :: x in a ==> x !in hb.own + hb.bodies
    requires forall y :: y in b ==> y !in ha.own + ha.bodies
    ensures StorylinesAre(a + b, va + vb, HoldJoin(ha, hb))
  {
    hide StorylineIs;
    var all, vals, h := a + b, va + vb, HoldJoin(ha, hb);
    forall i | 0 <= i < |all|
      ensures h.owns[i] <= h.own && StorylineIs(all[i], vals[i], h.owns[i], h.bodies)
    {
      if i < |a| {
        StorylineMore(a[i], va[i], ha.owns[i], ha.bodies, h.bodies);
      } else {
        StorylineMore(b[i - |a|], vb[i - |a|], hb.owns[i - |a|], hb.bodies, h.bodies);
      }
    }
    forall i | 0 <= i < |all|
      ensures all[i] !in h.own + h.bodies
    {
      assert if i < |a| then a[i] in a else b[i - |a|] in b;
    }
    forall i, j | 0 <= i < j < |all|
      ensures all[i] != all[j] && h.owns[i] !! h.owns[j]
    {
      assert if i < |a| then a[i] in a && ha.owns[i] <= ha.own else b[i - |a|] in b;
      assert if j < |a| then a[j] in a else b[j - |a|] in b && hb.owns[j - |a|] <= hb.own;
    }
  }

  /** A storyline in a loop's body, with all its nodes among the templates. */
  ghost predicate StorylineTemplate(node: StorylineNode, v: Storyline, templates: set<object>)
    reads templates
  {
    && node in templates
    && node.name == v.name && node.order == v.order && node.orderExpr == v.orderExpr && node.uses == v.uses
    && EnactmentsAre(node.enactments, v.enactments, templates) && LoopsAre(node.loops, v.loops, templates)
  }

  datatype StoryLoopNode = StoryLoopNode(variable: string, source: Source, body: seq<StorylineNode>)

  ghost predicate StoryLoopIs(l: StoryLoopNode, v: StoryLoop, templates: set<object>)
    reads templates
  {
    && l.variable == v.variable && l.source == v.source && |l.body| == |v.body|
    && forall i :: 0 <= i < |l.body| ==> StorylineTemplate(l.body[i], v.body[i], templates)
  }

  ghost predicate StoryLoopsAre(ls: seq<StoryLoopNode>, vs: seq<StoryLoop>, templates: set<object>)
    reads templates
  {
    |ls| == |vs| && forall i :: 0 <= i < |ls| ==> StoryLoopIs(ls[i], vs[i], templates)
  }
}
