/**
  Where the generated enactments and storylines stand, and from which use and which item of which loop each of them is made.
*/
module ExpansionPlaces {
  import opened Wrappers
  import opened Expansion
  import opened ExpansionTheorems
  import opened ExpansionValues

  // ---------- Pieces of the lists ----------

  /** `part` stands in `all` from place `at` on. */
  predicate StandsAt<T(==)>(part: seq<T>, all: seq<T>, at: nat) {
    at + |part| <= |all| && all[at..at + |part|] == part
  }

  function Times(n: nat, size: nat): nat {
    n * size
  }

  lemma WithinPart<T>(inner: seq<T>, part: seq<T>, all: seq<T>, i: nat, at: nat)
    requires StandsAt(inner, part, i) && StandsAt(part, all, at)
    ensures StandsAt(inner, all, at + i)
  {
    assert forall k :: 0 <= k < |inner| ==> inner[k] == part[i..i + |inner|][k] == part[i + k] == all[at..at + |part|][i + k];
  }

  lemma {:induction false} UsedPart(env: Env, us: seq<Use>, sender: Option<Sender>, k: nat)
    requires k < |us|
    ensures StandsAt(UseInstances(env, us[k], SenderAfter(env, us[..k], sender)), UsedInstances(env, us, sender), UsesSize(env, us[..k]))
    decreases |us|
  {
    hide UseInstances, UsesSize, SenderAfter;
    var n := |us| - 1;
    if k == n {
      UsedInstancesSize(env, us[..n], sender);
    } else {
      UsedPart(env, us[..n], sender, k);
      assert us[..n][..k] == us[..k];
    }
  }

  lemma {:induction false} LoopUsePart(env: Env, us: seq<Use>, params: map<string, string>, sender: Option<Sender>, k: nat)
    requires k < |us|
    ensures StandsAt(UseInstances(env, CloneUse(env.text, us[k], params), sender), LoopInstances(env, us, params, sender), UsesSize(env, us[..k]))
    decreases |us|
  {
    hide UseInstances, UsesSize, CloneUse;
    var n := |us| - 1;
    if k == n {
      LoopInstancesSize(env, us[..n], params, sender);
    } else {
      LoopUsePart(env, us[..n], params, sender, k);
      assert us[..n][..k] == us[..k];
    }
  }

  /** How many enactments one item of a loop stands for. */
  function RoundSize(env: Env, l: Loop): nat {
    UsesSize(env, l.uses) + |l.enactments|
  }

  lemma {:induction false} RoundPart(env: Env, l: Loop, items: seq<map<string, string>>, sender: Option<Sender>, i: nat)
    requires i < |items|
    ensures StandsAt(LoopRound(env, l, items[i], sender), LoopRounds(env, l, items, sender), Times(i, RoundSize(env, l)))
    decreases |items|
  {
    hide LoopRound, RoundSize, Times;
    var n := |items| - 1;
    if i == n {
      RoundsSize(env, l, items[..n], sender);
    } else {
      RoundPart(env, l, items[..n], sender, i);
    }
  }

  lemma RoundsSize(env: Env, l: Loop, items: seq<map<string, string>>, sender: Option<Sender>)
    ensures |LoopRounds(env, l, items, sender)| == Times(|items|, RoundSize(env, l))
  {
    hide LoopRounds, UsesSize;
    LoopRoundsSize(env, l, items, sender);
  }

  lemma {:induction false} LoopPart(env: Env, ls: seq<Loop>, sender: Option<Sender>, d: nat)
    requires d < |ls|
    ensures StandsAt(LoopRounds(env, ls[d], LoopData(env, ls[d].source), sender), LoopsEnactments(env, ls, sender), LoopsSize(env, ls[..d]))
    decreases |ls|
  {
    hide LoopRounds, LoopData, LoopsSize;
    var n := |ls| - 1;
    if d == n {
      LoopsEnactmentsSize(env, ls[..n], sender);
    } else {
      LoopPart(env, ls[..n], sender, d);
      assert ls[..n][..d] == ls[..d];
    }
  }

  lemma GatheredParts(env: Env, sl: Storyline, sender: Option<Sender>)
    ensures StandsAt(UsedInstances(env, sl.uses, sender), Gathered(env, sl, sender), |sl.enactments|)
    ensures StandsAt(LoopsEnactments(env, sl.loops, SenderAfter(env, sl.uses, sender)), Gathered(env, sl, sender),
                     |sl.enactments| + UsesSize(env, sl.uses))
  {
    hide UsedInstances, LoopsEnactments, SenderAfter, UsesSize;
    UsedInstancesSize(env, sl.uses, sender);
  }

  /** Item `i` of loop `d` of a storyline. */
  lemma ItemPart(env: Env, sl: Storyline, sender: Option<Sender>, d: nat, i: nat)
    requires d < |sl.loops| && i < |LoopData(env, sl.loops[d].source)|
    ensures StandsAt(LoopRound(env, sl.loops[d], LoopData(env, sl.loops[d].source)[i], SenderAfter(env, sl.uses, sender)),
                     Gathered(env, sl, sender), ItemPlace(env, sl, d, i))
  {
    hide LoopRound, LoopRounds, LoopsEnactments, LoopData, Gathered, SenderAfter, UsesSize, LoopsSize, RoundSize, StandsAt, Times;
    var l, s := sl.loops[d], SenderAfter(env, sl.uses, sender);
    var items := LoopData(env, l.source);
    GatheredParts(env, sl, sender);
    LoopPart(env, sl.loops, s, d);
    RoundPart(env, l, items, s, i);
    var before := |sl.enactments| + UsesSize(env, sl.uses);
    WithinPart(LoopRounds(env, l, items, s), LoopsEnactments(env, sl.loops, s), Gathered(env, sl, sender), LoopsSize(env, sl.loops[..d]), before);
    WithinPart(LoopRound(env, l, items[i], s), LoopRounds(env, l, items, s), Gathered(env, sl, sender), Times(i, RoundSize(env, l)),
      before + LoopsSize(env, sl.loops[..d]));
  }

  function ItemPlace(env: Env, sl: Storyline, d: nat, i: nat): nat
    requires d < |sl.loops|
  {
    |sl.enactments| + UsesSize(env, sl.uses) + LoopsSize(env, sl.loops[..d]) + Times(i, RoundSize(env, sl.loops[d]))
  }

  // ---------- What stands there ----------

  /** The fields of an item, by the loop's variable. */
  ghost predicate FieldsBound(links: map<string, string>, variable: string, fields: map<string, string>, params: map<string, string>) {
    && (forall f :: f in fields ==> variable + "." + f in params && Stands(links, fields[f], params[variable + "." + f]))
    && (forall name :: name in params ==> exists f :: f in fields && name == variable + "." + f)
  }

  lemma FieldsAreBound(links: map<string, string>, variable: string, fields: map<string, string>)
    ensures FieldsBound(links, variable, fields, BindFields(links, variable, fields))
  {
    BindFieldsIs(links, variable, fields);
    hide BindFields;
  }

  ghost predicate IsLoopClone(t: Text, params: map<string, string>, e: Enactment, c: Enactment) {
    && EnactmentTakes(params, e, c)
    && if e.level.Some? || e.levelExpr == "" then c.level == e.level
       else exists text :: Takes(params, e.levelExpr, text) && c.level == t.atoi(text)
  }

  lemma BodyPart(env: Env, l: Loop, item: map<string, string>, sender: Option<Sender>)
    ensures
      var params := BindFields(env.links, l.variable, item);
      && StandsAt(LoopInstances(env, l.uses, params, sender), LoopRound(env, l, item, sender), 0)
      && StandsAt(LoopBody(env.text, l.enactments, params), LoopRound(env, l, item, sender), UsesSize(env, l.uses))
  {
    hide LoopInstances, LoopBody, BindFields, UsesSize;
    LoopInstancesSize(env, l.uses, BindFields(env.links, l.variable, item), sender);
  }

  lemma PartAt<T>(part: seq<T>, all: seq<T>, at: nat, m: nat)
    requires StandsAt(part, all, at) && m < |part|
    ensures at + m < |all| && all[at + m] == part[m]
  {
    assert all[at..at + |part|][m] == all[at + m];
  }

  /** What loop `d` makes of its body and of its uses for item `i`, in their places. */
  lemma BodyPlace(env: Env, sl: Storyline, sender: Option<Sender>, d: nat, i: nat)
    requires d < |sl.loops| && i < |LoopData(env, sl.loops[d].source)|
    ensures
      var l, all, at := sl.loops[d], Gathered(env, sl, sender), ItemPlace(env, sl, d, i);
      var params := BindFields(env.links, l.variable, LoopData(env, l.source)[i]);
      && StandsAt(LoopInstances(env, l.uses, params, SenderAfter(env, sl.uses, sender)), all, at)
      && StandsAt(LoopBody(env.text, l.enactments, params), all, at + UsesSize(env, l.uses))
  {
    hide StandsAt, Gathered, LoopData, SenderAfter, ItemPlace, UsesSize, LoopInstances, LoopBody, LoopRound, BindFields;
    var l, s, all, at := sl.loops[d], SenderAfter(env, sl.uses, sender), Gathered(env, sl, sender), ItemPlace(env, sl, d, i);
    var item := LoopData(env, l.source)[i];
    var params := BindFields(env.links, l.variable, item);
    ItemPart(env, sl, sender, d, i);
    BodyPart(env, l, item, s);
    WithinPart(LoopInstances(env, l.uses, params, s), LoopRound(env, l, item, s), all, 0, at);
    WithinPart(LoopBody(env.text, l.enactments, params), LoopRound(env, l, item, s), all, UsesSize(env, l.uses), at);
  }

  /** Enactment `j` of the body of loop `d` is made for every item, from the fields of that item, behind the item's patterns. */
  lemma LoopEnactmentIs(env: Env, sl: Storyline, sender: Option<Sender>, d: nat, i: nat, j: nat)
      returns (params: map<string, string>)
    requires d < |sl.loops| && i < |LoopData(env, sl.loops[d].source)| && j < |sl.loops[d].enactments|
    ensures FieldsBound(env.links, sl.loops[d].variable, LoopData(env, sl.loops[d].source)[i], params)
    ensures
      var at, all := ItemPlace(env, sl, d, i) + UsesSize(env, sl.loops[d].uses) + j, Gathered(env, sl, sender);
      at < |all| && IsLoopClone(env.text, params, sl.loops[d].enactments[j], all[at])
  {
    hide Gathered, LoopData, SenderAfter, ItemPlace, UsesSize, LoopBody, IsLoopClone, LoopInstances, StandsAt;
    var l := sl.loops[d];
    var item := LoopData(env, l.source)[i];
    params := BindFields(env.links, l.variable, item);
    FieldsAreBound(env.links, l.variable, item);
    hide BindFields, FieldsBound;
    BodyPlace(env, sl, sender, d, i);
    BodiesTake(env.text, l.enactments, params);
    PartAt(LoopBody(env.text, l.enactments, params), Gathered(env, sl, sender), ItemPlace(env, sl, d, i) + UsesSize(env, l.uses), j);
  }

  lemma UseIsCloned(env: Env, u: Use, params: map<string, string>)
    ensures var c := CloneUse(env.text, u, params);
            UseTakes(params, u, c) && c.kind == u.kind && c.target == u.target && PatternProblems(env, c) == PatternProblems(env, u)
  {
  }

  lemma LoopUsePlace(env: Env, sl: Storyline, sender: Option<Sender>, d: nat, i: nat, k: nat)
    requires d < |sl.loops| && i < |LoopData(env, sl.loops[d].source)| && k < |sl.loops[d].uses|
    ensures
      var l, all, at := sl.loops[d], Gathered(env, sl, sender), ItemPlace(env, sl, d, i);
      var u := CloneUse(env.text, l.uses[k], BindFields(env.links, l.variable, LoopData(env, l.source)[i]));
      StandsAt(UseInstances(env, u, SenderAfter(env, sl.uses, sender)), all, at + UsesSize(env, l.uses[..k]))
  {
    hide StandsAt, Gathered, LoopData, SenderAfter, ItemPlace, UsesSize, LoopInstances, LoopBody, BindFields, CloneUse, UseInstances;
    var l, s, all, at := sl.loops[d], SenderAfter(env, sl.uses, sender), Gathered(env, sl, sender), ItemPlace(env, sl, d, i);
    var params := BindFields(env.links, l.variable, LoopData(env, l.source)[i]);
    BodyPlace(env, sl, sender, d, i);
    LoopUsePart(env, l.uses, params, s, k);
    WithinPart(UseInstances(env, CloneUse(env.text, l.uses[k], params), s), LoopInstances(env, l.uses, params, s), all, UsesSize(env, l.uses[..k]), at);
  }

  /** An enactment made by use `k` of that body: an instance of its pattern, whose arguments take the item's fields. */
  lemma LoopPatternIs(env: Env, sl: Storyline, sender: Option<Sender>, d: nat, i: nat, k: nat, m: nat)
      returns (params: map<string, string>, u: Use)
    requires d < |sl.loops| && i < |LoopData(env, sl.loops[d].source)| && k < |sl.loops[d].uses|
    requires sl.loops[d].uses[k].kind == UsePattern && PatternProblems(env, sl.loops[d].uses[k]) == []
    requires m < |env.patterns[sl.loops[d].uses[k].target].enactments|
    ensures FieldsBound(env.links, sl.loops[d].variable, LoopData(env, sl.loops[d].source)[i], params)
    ensures UseTakes(params, sl.loops[d].uses[k], u) && PatternProblems(env, u) == []
    ensures
      var at, all := ItemPlace(env, sl, d, i) + UsesSize(env, sl.loops[d].uses[..k]) + m, Gathered(env, sl, sender);
      at < |all| && IsInstance(env, u, SenderAfter(env, sl.uses, sender), env.patterns[u.target].enactments[m], all[at])
  {
    hide Gathered, LoopData, SenderAfter, ItemPlace, UsesSize, Instances, IsInstance, StandsAt;
    var l, s := sl.loops[d], SenderAfter(env, sl.uses, sender);
    var item := LoopData(env, l.source)[i];
    params := BindFields(env.links, l.variable, item);
    FieldsAreBound(env.links, l.variable, item);
    hide BindFields, FieldsBound;
    u := CloneUse(env.text, l.uses[k], params);
    UseIsCloned(env, l.uses[k], params);
    hide CloneUse, UseTakes, PatternProblems;
    InstancesAre(env, u, s, m);
    LoopUsePlace(env, sl, sender, d, i, k);
    PartAt(UseInstances(env, u, s), Gathered(env, sl, sender), ItemPlace(env, sl, d, i) + UsesSize(env, l.uses[..k]), m);
  }

  /** An enactment made by use `k` of a storyline: an instance of its pattern, with the sender in force at that use. */
  lemma UsedPatternIs(env: Env, sl: Storyline, sender: Option<Sender>, k: nat, m: nat)
    requires k < |sl.uses| && sl.uses[k].kind == UsePattern && PatternProblems(env, sl.uses[k]) == []
    requires m < |env.patterns[sl.uses[k].target].enactments|
    ensures
      var at, all := |sl.enactments| + UsesSize(env, sl.uses[..k]) + m, Gathered(env, sl, sender);
      at < |all| && IsInstance(env, sl.uses[k], SenderAfter(env, sl.uses[..k], sender), env.patterns[sl.uses[k].target].enactments[m], all[at])
  {
    hide Gathered, SenderAfter, UsesSize, Instances, IsInstance;
    var s := SenderAfter(env, sl.uses[..k], sender);
    InstancesAre(env, sl.uses[k], s, m);
    GatheredParts(env, sl, sender);
    UsedPart(env, sl.uses, sender, k);
    hide StandsAt;
    var used := UseInstances(env, sl.uses[k], s);
    WithinPart(used, UsedInstances(env, sl.uses, sender), Gathered(env, sl, sender), UsesSize(env, sl.uses[..k]), |sl.enactments|);
    PartAt(used, Gathered(env, sl, sender), |sl.enactments| + UsesSize(env, sl.uses[..k]), m);
  }

  // ---------- Storylines ----------

  lemma {:induction false} StoryRoundPart(env: Env, l: StoryLoop, items: seq<map<string, string>>, i: nat)
    requires i < |items|
    ensures StandsAt(StoryRound(env, l, items[i]), StoryRounds(env, l, items), Times(i, |l.body|))
    decreases |items|
  {
    hide StoryRound, Times;
    var n := |items| - 1;
    if i == n {
      StoryRoundsAre(env, l, items[..n]);
    } else {
      StoryRoundPart(env, l, items[..n], i);
    }
  }

  lemma StoryRoundsAre(env: Env, l: StoryLoop, items: seq<map<string, string>>)
    ensures |StoryRounds(env, l, items)| == Times(|items|, |l.body|)
  {
    hide StoryRounds;
    StoryRoundsSize(env, l, items);
  }

  lemma {:induction false} StoryLoopPart(env: Env, ls: seq<StoryLoop>, d: nat)
    requires d < |ls|
    ensures StandsAt(StoryRounds(env, ls[d], LoopData(env, ls[d].source)), StoryLoops(env, ls), StoryLoopsSize(env, ls[..d]))
    decreases |ls|
  {
    hide StoryRounds, LoopData, StoryLoopsSize;
    var n := |ls| - 1;
    if d == n {
      StoryLoopsCount(env, ls[..n]);
    } else {
      StoryLoopPart(env, ls[..n], d);
      assert ls[..n][..d] == ls[..d];
    }
  }

  /** What a storyline of a loop takes from its template. */
  ghost predicate StorylineTakes(t: Text, params: map<string, string>, sl: Storyline, c: Storyline) {
    && Takes(params, sl.name, c.name)
    && |c.enactments| == |sl.enactments|
    && (forall j :: 0 <= j < |sl.enactments| ==> IsLoopClone(t, params, sl.enactments[j], c.enactments[j]))
    && |c.uses| == |sl.uses| && (forall j :: 0 <= j < |sl.uses| ==> UseTakes(params, sl.uses[j], c.uses[j]))
    && |c.loops| == |sl.loops| && (forall j :: 0 <= j < |sl.loops| ==> LoopIsCloned(t, params, sl.loops[j], c.loops[j]))
  }

  /** A loop inside takes the values too, but for its variable, its objects and the name of its data. */
  ghost predicate LoopIsCloned(t: Text, params: map<string, string>, l: Loop, c: Loop) {
    && c.variable == l.variable && c.source.objects == l.source.objects && c.source.dataRef == l.source.dataRef
    && |c.source.items| == |l.source.items|
    && (forall j :: 0 <= j < |l.source.items| ==> Takes(params, l.source.items[j], c.source.items[j]))
    && |c.uses| == |l.uses| && (forall j :: 0 <= j < |l.uses| ==> UseTakes(params, l.uses[j], c.uses[j]))
    && |c.enactments| == |l.enactments|
    && (forall j :: 0 <= j < |l.enactments| ==> IsLoopClone(t, params, l.enactments[j], c.enactments[j]))
  }

  lemma BodiesTake(t: Text, es: seq<Enactment>, params: map<string, string>)
    ensures forall j :: 0 <= j < |es| ==> IsLoopClone(t, params, es[j], LoopBody(t, es, params)[j])
  {
    hide LoopEnactment, EnactmentTakes, Takes;
    forall j | 0 <= j < |es|
      ensures IsLoopClone(t, params, es[j], LoopBody(t, es, params)[j])
    {
      LoopTakes(t, es[j], params);
    }
  }

  lemma UsesTake(t: Text, us: seq<Use>, params: map<string, string>)
    ensures forall j :: 0 <= j < |us| ==> UseTakes(params, us[j], Uses(t, us, params)[j])
  {
  }

  lemma LoopsTake(t: Text, ls: seq<Loop>, params: map<string, string>)
    ensures forall j :: 0 <= j < |ls| ==> LoopIsCloned(t, params, ls[j], CloneLoops(t, ls, params)[j])
  {
    hide IsLoopClone, UseTakes, LoopBody, Uses;
    forall j | 0 <= j < |ls|
      ensures LoopIsCloned(t, params, ls[j], CloneLoops(t, ls, params)[j])
    {
      BodiesTake(t, ls[j].enactments, params);
      UsesTake(t, ls[j].uses, params);
    }
  }

  lemma StorylinesTake(t: Text, sl: Storyline, params: map<string, string>)
    ensures StorylineTakes(t, params, sl, LoopStoryline(t, sl, params))
  {
    hide IsLoopClone, UseTakes, LoopIsCloned, LoopBody, Uses, CloneLoops;
    BodiesTake(t, sl.enactments, params);
    UsesTake(t, sl.uses, params);
    LoopsTake(t, sl.loops, params);
  }

  lemma StorylinePlace(env: Env, st: Story, d: nat, i: nat, j: nat)
    requires d < |st.loops| && i < |LoopData(env, st.loops[d].source)| && j < |st.loops[d].body|
    ensures
      var l := st.loops[d];
      var k := StoryLoopsSize(env, st.loops[..d]) + Times(i, |l.body|) + j;
      && k < |StoryLoops(env, st.loops)|
      && StoryLoops(env, st.loops)[k] == LoopStoryline(env.text, l.body[j], BindFields(env.links, l.variable, LoopData(env, l.source)[i]))
  {
    hide LoopData, StoryLoopsSize, StoryRounds, StoryLoops, LoopStoryline, BindFields, StandsAt, Times;
    var l := st.loops[d];
    var items := LoopData(env, l.source);
    StoryLoopPart(env, st.loops, d);
    StoryRoundPart(env, l, items, i);
    var round, before := StoryRound(env, l, items[i]), StoryLoopsSize(env, st.loops[..d]);
    WithinPart(round, StoryRounds(env, l, items), StoryLoops(env, st.loops), Times(i, |l.body|), before);
    PartAt(round, StoryLoops(env, st.loops), before + Times(i, |l.body|), j);
  }

  /** Storyline `j` of the body of loop `d` of a story is made for every item, from the fields of that item. */
  lemma LoopStorylineIs(env: Env, st: Story, d: nat, i: nat, j: nat) returns (params: map<string, string>)
    requires d < |st.loops| && i < |LoopData(env, st.loops[d].source)| && j < |st.loops[d].body|
    ensures FieldsBound(env.links, st.loops[d].variable, LoopData(env, st.loops[d].source)[i], params)
    ensures
      var at, own := |st.storylines| + (StoryLoopsSize(env, st.loops[..d]) + Times(i, |st.loops[d].body|) + j), st.loops[d].body[j];
      && at < |AllStorylines(env, st)| && StorylineTakes(env.text, params, own, AllStorylines(env, st)[at])
      && (own.order.Some? || own.orderExpr == "" ==>
            AllStorylines(env, st)[at].order == if own.order.Some? then own.order else Some(at + 1))
  {
    hide LoopData, StoryLoopsSize, StoryLoops, LoopStoryline, StorylineTakes, AllStorylines, Times;
    var l := st.loops[d];
    var item := LoopData(env, l.source)[i];
    params := BindFields(env.links, l.variable, item);
    FieldsAreBound(env.links, l.variable, item);
    hide BindFields, FieldsBound;
    StorylinePlace(env, st, d, i, j);
    var k, made := StoryLoopsSize(env, st.loops[..d]) + Times(i, |l.body|) + j, LoopStoryline(env.text, l.body[j], params);
    OrderedAt(env, st, k);
    StorylinesTake(env.text, l.body[j], params);
    LoopOrderIs(env.text, l.body[j], params);
    TakesWithoutOrder(env.text, params, l.body[j], made, AllStorylines(env, st)[|st.storylines| + k]);
  }

  lemma OrderedAt(env: Env, st: Story, k: nat)
    requires k < |StoryLoops(env, st.loops)|
    ensures
      var all, sl := AllStorylines(env, st), StoryLoops(env, st.loops)[k];
      && |st.storylines| + k < |all|
      && all[|st.storylines| + k] == sl.(order := if sl.order.None? then Some(|st.storylines| + k + 1) else sl.order)
  {
    hide StoryLoops;
  }

  lemma TakesWithoutOrder(t: Text, params: map<string, string>, sl: Storyline, c: Storyline, c': Storyline)
    requires StorylineTakes(t, params, sl, c) && c' == c.(order := c'.order)
    ensures StorylineTakes(t, params, sl, c')
  {
    hide IsLoopClone, UseTakes, LoopIsCloned, Takes;
  }

  lemma LoopOrderIs(t: Text, sl: Storyline, params: map<string, string>)
    ensures sl.order.Some? || sl.orderExpr == "" ==> LoopStoryline(t, sl, params).order == sl.order
  {
    hide LoopBody, Uses, CloneLoops;
  }

  // ---------- Data and policies ----------

  /** What a loop runs over: its own objects, or else its strings, or else the data it names. */
  lemma DataIs(env: Env, s: Source, i: nat)
    requires i < |LoopData(env, s)|
    ensures s.objects != [] ==> i < |s.objects| && LoopData(env, s)[i] == s.objects[i]
    ensures s.objects == [] && s.items != [] ==> i < |s.items| && LoopData(env, s)[i] == map["_value" := s.items[i]]
    ensures s.objects == [] && s.items == [] ==>
      s.dataRef in env.data && i < |env.data[s.dataRef]| && LoopData(env, s)[i] == env.data[s.dataRef][i]
  {
  }

  /** The triggers of every policy an enactment uses are added, in the order of the uses. */
  lemma {:induction false} PolicyPart(env: Env, us: seq<Use>, k: nat)
    requires k < |us| && us[k].kind == UsePolicy
    ensures StandsAt(PolicyTriggers(env, us[k]), UsedTriggers(env, us), |UsedTriggers(env, us[..k])|)
    decreases |us|
  {
    hide PolicyTriggers;
    var n := |us| - 1;
    if k < n {
      PolicyPart(env, us[..n], k);
      assert us[..n][..k] == us[..k];
    }
  }
}
