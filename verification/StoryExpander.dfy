/**
  The expander over whole stories: storylines from the loops of a story are clones too, and no two storylines, nor a
  storyline and a loop body, share a node.
*/
module StoryExpander {
  import opened Wrappers
  import opened Expansion
  import opened ExpansionSteps
  import opened AstNodes
  import opened Expander

  type Templates = set<object>

  // ---------- Clones of loops and storylines ----------

  method CloneLoopNode(x: Expander, l: LoopNode, ghost lv: Loop, ghost t: Templates, params: map<string, string>)
    returns (clone: LoopNode, ghost own: set<object>)
    requires x.Valid() && x !in t && LoopIs(l, lv, t)
    modifies x`problems
    ensures x.Valid() && LoopIs(l, lv, t) && fresh(own) && LoopIs(clone, CloneLoop(x.text, lv, params), own)
    ensures x.problems == old(x.problems) + LoopBodyProblems(x.text, lv.enactments, params)
  {
    hide LoopBody, LoopBodyProblems, EnactmentsAre, SubstituteAll, Uses;
    var items: seq<string> := [];
    for j := 0 to |l.source.items|
      invariant |items| == j && forall k :: 0 <= k < j ==> items[k] == Substitute(x.text, l.source.items[k], params)
    {
      items := items + [Substitute(x.text, l.source.items[j], params)];
    }
    AllSubstituted(x.text, l.source.items, params, items);
    var uses := CloneUses(x.text, l.uses, params);
    var body, bodyOwn := x.CloneLoopBody(l.enactments, lv.enactments, t, params);
    own := bodyOwn;
    SeparateAre(body, LoopBody(x.text, lv.enactments, params), own);
    clone := LoopNode(l.variable, Source(l.source.objects, items, l.source.dataRef), uses, body);
  }

  lemma AllSubstituted(t: Text, ss: seq<string>, params: map<string, string>, r: seq<string>)
    requires |r| == |ss| && forall k :: 0 <= k < |ss| ==> r[k] == Substitute(t, ss[k], params)
    ensures r == SubstituteAll(t, ss, params)
  {
  }

  lemma SeparateAre(nodes: seq<EnactmentNode>, vals: seq<Enactment>, own: set<object>)
    requires Separate(nodes, vals, own)
    ensures EnactmentsAre(nodes, vals, own)
  {
  }

  method CloneLoopNodes(x: Expander, ls: seq<LoopNode>, ghost lvs: seq<Loop>, ghost t: Templates, params: map<string, string>)
    returns (clones: seq<LoopNode>, ghost own: set<object>)
    requires x.Valid() && x !in t && LoopsAre(ls, lvs, t)
    modifies x`problems
    ensures x.Valid() && LoopsAre(ls, lvs, t) && fresh(own) && LoopsAre(clones, CloneLoops(x.text, lvs, params), own)
    ensures x.problems == old(x.problems) + CloneLoopsProblems(x.text, lvs, params)
  {
    hide LoopIs, CloneLoop, LoopBodyProblems, EnactmentNode.Own, EnactmentNode.Val;
    ghost var spec := CloneLoops(x.text, lvs, params);
    clones, own := [], {};
    assert x.problems + [] == x.problems;
    for i := 0 to |ls|
      invariant x.Valid() && LoopsAre(ls, lvs, t) && fresh(own) && LoopsAre(clones, spec[..i], own)
      invariant x.problems == old(x.problems) + CloneLoopsProblems(x.text, lvs[..i], params)
    {
      assert lvs[..i + 1][..i] == lvs[..i] && spec[..i + 1] == spec[..i] + [spec[i]];
      var clone, more := CloneLoopNode(x, ls[i], lvs[i], t, params);
      LoopsSnoc(clones, spec[..i], own, clone, spec[i], more);
      clones, own := clones + [clone], own + more;
    }
    assert lvs[..|ls|] == lvs && spec[..|ls|] == spec;
  }

  lemma LoopsSnoc(nodes: seq<LoopNode>, vals: seq<Loop>, own: set<object>, l: LoopNode, v: Loop, more: set<object>)
    requires LoopsAre(nodes, vals, own) && LoopIs(l, v, more)
    ensures LoopsAre(nodes + [l], vals + [v], own + more)
  {
    hide LoopIs;
    LoopsMore(nodes, vals, own, own + more);
    LoopMore(l, v, more, own + more);
  }

  /** The order of a cloned storyline, from its template's order or order expression. */
  method ResolveOrder(x: Expander, tmpl: StorylineNode, ghost v: Storyline, params: map<string, string>) returns (order: Option<int>)
    requires tmpl.order == v.order && tmpl.orderExpr == v.orderExpr
    modifies x`problems
    ensures order == LoopOrder(x.text, v, params) && x.problems == old(x.problems) + OrderProblems(x.text, v, params)
  {
    hide Substitute;
    order := tmpl.order;
    assert x.problems + [] == x.problems;
    if order.None? && tmpl.orderExpr != "" {
      order := x.text.atoi(Substitute(x.text, tmpl.orderExpr, params));
      if order.None? {
        x.problems := x.problems + [BadOrder];
      }
    }
  }

  method CloneStoryline(x: Expander, tmpl: StorylineNode, ghost v: Storyline, ghost t: Templates, params: map<string, string>)
    returns (sl: StorylineNode, ghost own: set<object>, ghost bodies: set<object>)
    requires x.Valid() && x !in t && StorylineTemplate(tmpl, v, t)
    modifies x`problems
    ensures x.Valid() && StorylineTemplate(tmpl, v, t)
    ensures fresh(sl) && fresh(own) && fresh(bodies) && own !! bodies && sl !in own + bodies
    ensures StorylineIs(sl, LoopStoryline(x.text, v, params), own, bodies)
    ensures x.problems == old(x.problems) + CloneProblems(x.text, v, params)
  {
    hide LoopBody, LoopBodyProblems, CloneLoops, CloneLoopsProblems, Uses, EnactmentsAre, LoopsAre, Separate, Substitute, LoopOrder, OrderProblems;
    var order := ResolveOrder(x, tmpl, v, params);
    var enactments, enactmentsOwn := x.CloneLoopBody(tmpl.enactments, v.enactments, t, params);
    var uses := CloneUses(x.text, tmpl.uses, params);
    var loops, loopsOwn := CloneLoopNodes(x, tmpl.loops, v.loops, t, params);
    own, bodies := enactmentsOwn, loopsOwn;
    sl := new StorylineNode(Substitute(x.text, tmpl.name, params), order, "", enactments, uses, loops);
  }

  // ---------- Lists of new storylines ----------

  const NOTHING := Hold([], {}, {})

  /** A list of storylines and one more, which shares no node with them. */
  lemma StorylinesSnoc(nodes: seq<StorylineNode>, vals: seq<Storyline>, h: Hold,
                       sl: StorylineNode, v: Storyline, own: set<object>, bodies: set<object>)
    requires StorylinesAre(nodes, vals, h) && StorylineIs(sl, v, own, bodies)
    requires own !! bodies && sl !in own + bodies && sl !in nodes && sl !in h.own + h.bodies
    requires own + bodies !! h.own + h.bodies && (forall n :: n in nodes ==> n !in own + bodies)
    ensures StorylinesAre(nodes + [sl], vals + [v], HoldJoin(h, Hold([own], own, bodies)))
  {
    hide StorylineIs;
    var one := Hold([own], own, bodies);
    assert StorylinesAre([sl], [v], one);
    StorylinesJoin(nodes, vals, h, [sl], [v], one);
  }

  /** The storylines of one item of a story's loop. */
  method ExpandStoryRound(x: Expander, l: StoryLoopNode, ghost lv: StoryLoop, ghost t: Templates, item: map<string, string>)
    returns (result: seq<StorylineNode>, ghost h: Hold)
    requires x.Valid() && x !in t && StoryLoopIs(l, lv, t)
    modifies x`problems
    ensures x.Valid() && StoryLoopIs(l, lv, t)
    ensures fresh(result) && fresh(h.own) && fresh(h.bodies)
    ensures StorylinesAre(result, StoryRound(x.env, lv, item), h)
    ensures x.problems == old(x.problems) + BodyProblems(x.text, lv.body, BindFields(x.links, lv.variable, item))
  {
    hide StorylineIs, StorylineTemplate, BindFields, LoopStoryline, CloneProblems, StorylinesAre, BodyProblems;
    var params := BuildObjectParams(x.links, l.variable, item);
    ghost var spec := StoryRound(x.env, lv, item);
    result, h := [], NOTHING;
    NoStorylines();
    NoBody(x.text, params, x.problems);
    for i := 0 to |l.body|
      invariant x.Valid() && StoryLoopIs(l, lv, t)
      invariant fresh(result) && fresh(h.own) && fresh(h.bodies) && StorylinesAre(result, spec[..i], h)
      invariant x.problems == old(x.problems) + BodyProblems(x.text, lv.body[..i], params)
    {
      BodyTake(x.text, lv.body, i, params);
      assert spec[..i + 1] == spec[..i] + [spec[i]];
      var sl, own, bodies := CloneStoryline(x, l.body[i], lv.body[i], t, params);
      StorylinesSnoc(result, spec[..i], h, sl, spec[i], own, bodies);
      result, h := result + [sl], HoldJoin(h, Hold([own], own, bodies));
    }
    assert lv.body[..|l.body|] == lv.body && spec[..|l.body|] == spec;
  }

  lemma NoStorylines()
    ensures StorylinesAre([], [], NOTHING)
  {
  }

  lemma NoBody(t: Text, params: map<string, string>, problems: seq<Problem>)
    ensures problems + BodyProblems(t, [], params) == problems
  {
  }

  method ExpandForLoopStorylines(x: Expander, l: StoryLoopNode, ghost lv: StoryLoop, ghost t: Templates)
    returns (result: seq<StorylineNode>, ghost h: Hold)
    requires x.Valid() && x !in t && StoryLoopIs(l, lv, t)
    modifies x`problems
    ensures x.Valid()
    ensures fresh(result) && fresh(h.own) && fresh(h.bodies)
    ensures StorylinesAre(result, StoryRounds(x.env, lv, LoopData(x.env, l.source)), h)
    ensures x.problems == old(x.problems) + LoopDataProblems(x.env, l.source)
                          + StoryRoundsProblems(x.env, lv, LoopData(x.env, l.source))
  {
    hide StorylinesAre, StoryLoopIs, StoryRound, StoryRounds, StoryRoundsProblems, BodyProblems, BindFields, LoopData, LoopDataProblems;
    var items := x.ResolveForLoopData(l.source);
    ghost var before := x.problems;
    result, h := [], NOTHING;
    NoStorylines();
    NoStoryRounds(x.env, lv, before);
    for i := 0 to |items|
      invariant x.Valid() && StoryLoopIs(l, lv, t)
      invariant fresh(result) && fresh(h.own) && fresh(h.bodies) && StorylinesAre(result, StoryRounds(x.env, lv, items[..i]), h)
      invariant x.problems == before + StoryRoundsProblems(x.env, lv, items[..i])
    {
      StoryRoundsTake(x.env, lv, items, i);
      var more, moreHold := ExpandStoryRound(x, l, lv, t, items[i]);
      StorylinesJoin(result, StoryRounds(x.env, lv, items[..i]), h, more, StoryRound(x.env, lv, items[i]), moreHold);
      result, h := result + more, HoldJoin(h, moreHold);
    }
    assert items[..|items|] == items;
  }

  method ExpandStoryLoops(x: Expander, ls: seq<StoryLoopNode>, ghost lvs: seq<StoryLoop>, ghost t: Templates)
    returns (result: seq<StorylineNode>, ghost h: Hold)
    requires x.Valid() && x !in t && StoryLoopsAre(ls, lvs, t)
    modifies x`problems
    ensures x.Valid() && StoryLoopsAre(ls, lvs, t)
    ensures fresh(result) && fresh(h.own) && fresh(h.bodies)
    ensures StorylinesAre(result, StoryLoops(x.env, lvs), h)
    ensures x.problems == old(x.problems) + StoryLoopsProblems(x.env, lvs)
  {
    hide StorylinesAre, StoryLoopIs, StoryRounds, StoryRoundsProblems, StoryLoops, StoryLoopsProblems, LoopData, LoopDataProblems;
    result, h := [], NOTHING;
    NoStorylines();
    NoStoryLoops(x.env, x.problems);
    for i := 0 to |ls|
      invariant x.Valid() && StoryLoopsAre(ls, lvs, t)
      invariant fresh(result) && fresh(h.own) && fresh(h.bodies) && StorylinesAre(result, StoryLoops(x.env, lvs[..i]), h)
      invariant x.problems == old(x.problems) + StoryLoopsProblems(x.env, lvs[..i])
    {
      StoryLoopsTake(x.env, lvs, i);
      SameStorySource(ls[i], lvs[i], t);
      var more, moreHold := ExpandForLoopStorylines(x, ls[i], lvs[i], t);
      StorylinesJoin(result, StoryLoops(x.env, lvs[..i]), h,
                     more, StoryRounds(x.env, lvs[i], LoopData(x.env, lvs[i].source)), moreHold);
      result, h := result + more, HoldJoin(h, moreHold);
    }
    assert lvs[..|ls|] == lvs;
  }

  lemma SameStorySource(l: StoryLoopNode, v: StoryLoop, t: Templates)
    requires StoryLoopIs(l, v, t)
    ensures l.source == v.source
  {
  }

  // ---------- In place: orders, and one storyline after the other ----------

  method SetOrder(sl: StorylineNode, order: int, ghost nodes: seq<StorylineNode>, ghost i: nat, ghost vals: seq<Storyline>, ghost h: Hold)
    requires StorylinesAre(nodes, vals, h) && i < |nodes| && sl == nodes[i]
    modifies sl`order
    ensures StorylinesAre(nodes, vals[i := vals[i].(order := Some(order))], h)
  {
    hide Separate, LoopsAre;
    sl.order := Some(order);
  }

  method AutoAssignStorylineOrders(nodes: seq<StorylineNode>, ghost vals: seq<Storyline>, ghost h: Hold)
    requires StorylinesAre(nodes, vals, h)
    modifies nodes
    ensures StorylinesAre(nodes, AssignOrders(vals), h)
  {
    hide StorylinesAre;
    ghost var cur := vals;
    for i := 0 to |nodes|
      invariant StorylinesAre(nodes, cur, h) && |cur| == |vals|
      invariant forall k :: 0 <= k < |vals| ==>
        cur[k] == if k < i && vals[k].order.None? then vals[k].(order := Some(k + 1)) else vals[k]
    {
      OrderIs(nodes, cur, h, i);
      if nodes[i].order.None? {
        SetOrder(nodes[i], i + 1, nodes, i, cur, h);
        cur := cur[i := cur[i].(order := Some(i + 1))];
      }
    }
    assert cur == AssignOrders(vals);
  }

  lemma OrderIs(nodes: seq<StorylineNode>, vals: seq<Storyline>, h: Hold, i: nat)
    requires StorylinesAre(nodes, vals, h) && i < |nodes|
    ensures nodes[i].order == vals[i].order
  {
    hide Separate, LoopsAre;
    assert StorylineIs(nodes[i], vals[i], h.owns[i], h.bodies);
  }

  method ExpandOneStoryline(x: Expander, sl: StorylineNode, sender: Option<Sender>,
                            ghost nodes: seq<StorylineNode>, ghost i: nat, ghost vals: seq<Storyline>, ghost h: Hold)
    returns (ghost after: Hold)
    requires x.Valid() && StorylinesAre(nodes, vals, h) && i < |nodes| && sl == nodes[i]
    requires h.own !! x.templates && x !in h.own + h.bodies && sl !in x.templates
    modifies sl, h.owns[i], x`problems
    ensures x.Valid() && h.own <= after.own && fresh(after.own - h.own) && after.bodies == h.bodies
    ensures StorylinesAre(nodes, vals[i := ExpandStoryline(x.env, vals[i], sender)], after)
    ensures x.problems == old(x.problems) + StorylineProblems(x.env, vals[i], sender)
  {
    hide Separate, LoopsAre, ExpandStoryline, StorylineProblems;
    ghost var own := x.ExpandStorylineNode(sl, sender, vals[i], h.owns[i], h.bodies);
    after := Hold(h.owns[i := own], h.own + own, h.bodies);
  }

  lemma StorylineInHold(nodes: seq<StorylineNode>, vals: seq<Storyline>, h: Hold, i: nat)
    requires StorylinesAre(nodes, vals, h) && i < |nodes|
    ensures h.owns[i] <= h.own
  {
  }

  method ExpandStorylineNodes(x: Expander, nodes: seq<StorylineNode>, sender: Option<Sender>, ghost vals: seq<Storyline>, ghost h: Hold)
    returns (ghost after: Hold)
    requires x.Valid() && StorylinesAre(nodes, vals, h)
    requires h.own !! x.templates && x !in h.own + h.bodies && (forall n :: n in nodes ==> n !in x.templates)
    modifies nodes, h.own, x`problems
    ensures x.Valid() && h.own <= after.own && fresh(after.own - h.own) && after.bodies == h.bodies
    ensures StorylinesAre(nodes, ExpandStorylines(x.env, vals, sender), after)
    ensures x.problems == old(x.problems) + StorylinesProblems(x.env, vals, sender)
  {
    hide StorylinesAre, ExpandStoryline, StorylineProblems, Expander.Valid;
    after := h;
    ghost var cur := vals;
    assert x.problems + [] == x.problems;
    for i := 0 to |nodes|
      invariant x.Valid() && StorylinesAre(nodes, cur, after) && |cur| == |vals|
      invariant h.own <= after.own && fresh(after.own - h.own) && after.bodies == h.bodies
      invariant forall k :: 0 <= k < |vals| ==> cur[k] == if k < i then ExpandStoryline(x.env, vals[k], sender) else vals[k]
      invariant x.problems == old(x.problems) + StorylinesProblems(x.env, vals[..i], sender)
    {
      StorylinesTake(x.env, vals, i, sender);
      StorylineInHold(nodes, cur, after, i);
      after := ExpandOneStoryline(x, nodes[i], sender, nodes, i, cur, after);
      cur := cur[i := ExpandStoryline(x.env, cur[i], sender)];
    }
    assert cur == ExpandStorylines(x.env, vals, sender);
    assert vals[..|nodes|] == vals;
  }

  // ---------- A story ----------

  class StoryNode {
    var storylines: seq<StorylineNode>
    var uses: seq<Use>
    var loops: seq<StoryLoopNode>
  }

  /** The sender a story starts its storylines with. */
  method ResolveStorySender(x: Expander, us: seq<Use>) returns (sender: Option<Sender>)
    requires x.Valid()
    modifies x`problems
    ensures x.Valid() && sender == SenderAfter(x.env, us, DefaultSender(x.env))
    ensures x.problems == old(x.problems) + StoryUsesProblems(x.env, us)
  {
    hide SenderAfter, StoryUsesProblems;
    sender := if "default" in x.senders then Some(x.senders["default"]) else None;
    NoStoryUses(x.env, x.problems);
    for i := 0 to |us|
      invariant x.Valid() && sender == SenderAfter(x.env, us[..i], DefaultSender(x.env))
      invariant x.problems == old(x.problems) + StoryUsesProblems(x.env, us[..i])
    {
      StoryUsesTake(x.env, us, i);
      if us[i].kind == UseSender {
        var target := if us[i].target == "" then "default" else us[i].target;
        if target in x.senders {
          sender := Some(x.senders[target]);
        } else {
          x.problems := x.problems + [UnknownSender];
        }
      }
    }
    assert us[..|us|] == us;
  }

  lemma NoStoryUses(env: Env, problems: seq<Problem>)
    ensures SenderAfter(env, [], DefaultSender(env)) == DefaultSender(env)
    ensures problems + StoryUsesProblems(env, []) == problems
  {
  }

  /** The story's own storylines and those of its loops, with an order each. */
  method GatherStorylines(x: Expander, direct: seq<StorylineNode>, ls: seq<StoryLoopNode>,
                          ghost v: Story, ghost h: Hold, ghost t: Templates)
    returns (all: seq<StorylineNode>, ghost hold: Hold)
    requires x.Valid() && x !in t && StorylinesAre(direct, v.storylines, h) && StoryLoopsAre(ls, v.loops, t)
    requires x !in h.own + h.bodies && forall n :: n in direct ==> n !in x.templates + t
    modifies direct, x`problems
    ensures x.Valid() && StoryLoopsAre(ls, v.loops, t)
    ensures forall n :: n in all ==> n !in x.templates + t && (n in direct || fresh(n))
    ensures h.own <= hold.own && fresh(hold.own - h.own) && fresh(hold.bodies - h.bodies)
    ensures StorylinesAre(all, AllStorylines(x.env, v), hold)
    ensures x.problems == old(x.problems) + StoryLoopsProblems(x.env, v.loops)
  {
    hide StorylinesAre, StoryLoopsAre, StoryLoops, StoryLoopsProblems, Expander.Valid;
    var looped, loopedHold := ExpandStoryLoops(x, ls, v.loops, t);
    StorylinesJoin(direct, v.storylines, h, looped, StoryLoops(x.env, v.loops), loopedHold);
    all, hold := direct + looped, HoldJoin(h, loopedHold);
    assert forall n :: n in all ==> n !in x.templates + t && (n in direct || fresh(n));
    assert StoryLoopsAre(ls, v.loops, t) && x.Valid();
    label Assigning:
    AutoAssignStorylineOrders(all, v.storylines + StoryLoops(x.env, v.loops), hold);
    assert forall n :: n in all ==> n !in x.templates + t;
    assert forall o: object :: o in t ==> o !in all;
    assert unchanged@Assigning(t);
  }

  /**
    Expands a story in place. Its storylines take the values of `ExpandStory` and share no node; the definitions'
    templates and the bodies of the story's own loops keep their values.
  */
  method ExpandStoryNode(x: Expander, story: StoryNode, ghost v: Story, ghost h: Hold, ghost t: Templates)
    returns (ghost after: Hold)
    requires x.Valid() && x !in t && StorylinesAre(story.storylines, v.storylines, h)
    requires story.uses == v.uses && StoryLoopsAre(story.loops, v.loops, t)
    requires h.own !! x.templates + t && x !in h.own + h.bodies && story !in t + x.templates + h.own + h.bodies
    requires forall n :: n in story.storylines ==> n !in x.templates + t
    modifies story, story.storylines, h.own, x`problems
    ensures x.Valid() && StoryLoopsAre(old(story.loops), v.loops, t)
    ensures StorylinesAre(story.storylines, ExpandStory(x.env, v).storylines, after) && story.uses == [] && story.loops == []
    ensures x.problems == old(x.problems) + StoryProblems(x.env, v)
  {
    hide StorylinesAre, StoryLoopIs, ExpandStorylines, AllStorylines, StoryUsesProblems, StoryLoopsProblems, StorylinesProblems, SenderAfter;
    var direct := story.storylines;
    var sender := ResolveStorySender(x, story.uses);
    var all, hold := GatherStorylines(x, direct, story.loops, v, h, t);
    story.storylines, story.loops := all, [];
    assert forall o :: o in hold.own ==> o in h.own || fresh(o);
    assert forall i :: 0 <= i < |all| ==> all[i] in all && (all[i] in direct || fresh(all[i]));
    after := ExpandStorylineNodes(x, all, sender, AllStorylines(x.env, v), hold);
    story.uses := [];
  }
}
