/**
  How the compiler resolves references between enactments: jumps to enactments already compiled are linked at
  once, the others leave a marker that a second pass over the storyline resolves.

  Entities live in an arena, and an index into it stands for a pointer; the index is also the entity's id.
*/
module EnactmentLinks {
  import opened Wrappers

  /** The action types, by what they do to the merged action's name and target. */
  datatype ActionKind =
    | Jump                           // jump_to_enactment, next_enactment
    | Loop(max: Option<nat>)         // loop_to_enactment
    | SetName(name: string)          // next_scene, prev_scene, retry_*, mark_*, loop_to_start_*, jump_to_storyline
    | AddName(name: string)          // jump_to_stage, start_story, send_email, redirect, provide_download
    | Silent                         // end_story, unsubscribe, badges, waits, send_immediate, advance_to_next_storyline

  datatype ActionNode = ActionNode(kind: ActionKind, target: string)

  /** `Marker(t)` is the pending name "jump_to_enactment:" followed by t. */
  datatype ActionName = NoName | Marker(target: string) | Named(name: string) | LoopName(max: Option<nat>)

  datatype Action = Action(name: ActionName, extra: seq<string>, next: Option<nat>)

  const BLANK := Action(NoName, [], None)

  /** One entry for each action list of the enactment's triggers, main and else. */
  datatype EnactmentNode = EnactmentNode(name: string, lists: seq<seq<ActionNode>>)
  datatype Enactment = Enactment(name: string, actions: seq<Action>)

  type Index = map<string, nat>

  function Key(story: string, storyline: string, name: string): string {
    story + ":" + storyline + ":" + name
  }

  function Find(m: Index, key: string): Option<nat> {
    if key in m then Some(m[key]) else None
  }

  // ---------- Merging the actions of one list ----------

  function Merge(act: Action, n: ActionNode, m: Index, story: string, storyline: string): Action {
    match n.kind
    case Jump =>
      var found := Find(m, Key(story, storyline, n.target));
      if found.Some? then act.(next := found) else act.(name := Marker(n.target))
    case Loop(max) =>
      var found := Find(m, Key(story, storyline, n.target));
      act.(next := if found.Some? then found else act.next, name := LoopName(max))
    case SetName(s) => act.(name := Named(s))
    case AddName(s) => if act.name == NoName then act.(name := Named(s)) else act.(extra := act.extra + [s])
    case Silent => act
  }

  function MergeAll(nodes: seq<ActionNode>, m: Index, story: string, storyline: string): Action {
    if nodes == [] then BLANK
    else Merge(MergeAll(nodes[..|nodes| - 1], m, story, storyline), nodes[|nodes| - 1], m, story, storyline)
  }

  /** The second pass: a pending marker whose target is known becomes a link. */
  function Resolve(act: Action, m: Index, story: string, storyline: string): Action {
    if !act.name.Marker? then act
    else
      var found := Find(m, Key(story, storyline, act.name.target));
      if found.Some? then act.(next := found, name := NoName) else act
  }

  // ---------- One storyline ----------

  /** The index once the first `k` enactments of a storyline are compiled, the first of them at `first`. */
  function IndexAfter(m: Index, story: string, storyline: string, nodes: seq<EnactmentNode>, first: nat, k: nat): Index
    requires k <= |nodes|
  {
    if k == 0 then m
    else IndexAfter(m, story, storyline, nodes, first, k - 1)[Key(story, storyline, nodes[k - 1].name) := first + k - 1]
  }

  /** The actions of enactment `k` after the first pass. */
  function FirstPass(m: Index, story: string, storyline: string, nodes: seq<EnactmentNode>, first: nat, k: nat): (r: seq<Action>)
    requires k < |nodes|
    ensures |r| == |nodes[k].lists|
  {
    var mk := IndexAfter(m, story, storyline, nodes, first, k);
    seq(|nodes[k].lists|, j requires 0 <= j < |nodes[k].lists| => MergeAll(nodes[k].lists[j], mk, story, storyline))
  }

  function ResolveAll(actions: seq<Action>, m: Index, story: string, storyline: string): (r: seq<Action>)
    ensures |r| == |actions|
  {
    seq(|actions|, j requires 0 <= j < |actions| => Resolve(actions[j], m, story, storyline))
  }

  lemma ResolveTwice(actions: seq<Action>, m: Index, story: string, storyline: string)
    ensures ResolveAll(ResolveAll(actions, m, story, storyline), m, story, storyline) == ResolveAll(actions, m, story, storyline)
  {
  }

  /**
    The actions of enactment `k` once the storyline is compiled. The second pass reaches an enactment through
    its name, so it misses one whose name was taken over by a later enactment.
  */
  function FinalActions(m: Index, story: string, storyline: string, nodes: seq<EnactmentNode>, first: nat, k: nat): seq<Action>
    requires k < |nodes|
  {
    var last := IndexAfter(m, story, storyline, nodes, first, |nodes|);
    var own := FirstPass(m, story, storyline, nodes, first, k);
    if Find(last, Key(story, storyline, nodes[k].name)) == Some(first + k)
    then ResolveAll(own, last, story, storyline) else own
  }

  lemma AreFirstPass(actions: seq<Action>, m: Index, story: string, storyline: string, nodes: seq<EnactmentNode>, first: nat, k: nat)
    requires k < |nodes| && |actions| == |nodes[k].lists|
    requires forall j :: 0 <= j < |actions| ==>
      actions[j] == MergeAll(nodes[k].lists[j], IndexAfter(m, story, storyline, nodes, first, k), story, storyline)
    ensures actions == FirstPass(m, story, storyline, nodes, first, k)
  {
    hide MergeAll, IndexAfter;
  }

  class Compiler {
    var index: Index
    var arena: seq<Enactment>

    constructor ()
      ensures index == map[] && arena == []
    {
      index, arena := map[], [];
    }

    method CompileActions(nodes: seq<ActionNode>, story: string, storyline: string) returns (act: Action)
      ensures act == MergeAll(nodes, index, story, storyline)
    {
      act := BLANK;
      for i := 0 to |nodes|
        invariant act == MergeAll(nodes[..i], index, story, storyline)
      {
        assert nodes[..i + 1][..i] == nodes[..i];
        act := Merge(act, nodes[i], index, story, storyline);
      }
      assert nodes[..|nodes|] == nodes;
    }

    method CompileEnactment(node: EnactmentNode, story: string, storyline: string) returns (en: Enactment)
      ensures en.name == node.name && |en.actions| == |node.lists|
      ensures forall j :: 0 <= j < |node.lists| ==> en.actions[j] == MergeAll(node.lists[j], index, story, storyline)
    {
      var actions: seq<Action> := [];
      for j := 0 to |node.lists|
        invariant |actions| == j
        invariant forall i :: 0 <= i < j ==> actions[i] == MergeAll(node.lists[i], index, story, storyline)
      {
        var act := CompileActions(node.lists[j], story, storyline);
        actions := actions + [act];
      }
      en := Enactment(node.name, actions);
    }

    method FirstPassOver(story: string, storyline: string, nodes: seq<EnactmentNode>)
      modifies this
      ensures |arena| == |old(arena)| + |nodes| && arena[..|old(arena)|] == old(arena)
      ensures index == IndexAfter(old(index), story, storyline, nodes, |old(arena)|, |nodes|)
      ensures forall k :: 0 <= k < |nodes| ==>
        arena[|old(arena)| + k] == Enactment(nodes[k].name, FirstPass(old(index), story, storyline, nodes, |old(arena)|, k))
    {
      hide MergeAll, Key, FirstPass;
      ghost var m, first := index, |arena|;
      for i := 0 to |nodes|
        invariant |arena| == first + i && arena[..first] == old(arena)
        invariant index == IndexAfter(m, story, storyline, nodes, first, i)
        invariant forall k :: 0 <= k < i ==>
          arena[first + k] == Enactment(nodes[k].name, FirstPass(m, story, storyline, nodes, first, k))
      {
        var en := CompileEnactment(nodes[i], story, storyline);
        AreFirstPass(en.actions, m, story, storyline, nodes, first, i);
        index := index[Key(story, storyline, nodes[i].name) := |arena|];
        arena := arena + [en];
      }
    }

    /** The linking loop over the storyline's enactments, each found again by its name. */
    method LinkPass(story: string, storyline: string, nodes: seq<EnactmentNode>)
      requires Findable(index, story, storyline, nodes, |arena|)
      modifies this`arena
      ensures arena == LinkUpTo(old(arena), index, story, storyline, nodes, |nodes|)
    {
      for i := 0 to |nodes|
        invariant arena == LinkUpTo(old(arena), index, story, storyline, nodes, i)
      {
        var p := index[Key(story, storyline, nodes[i].name)];
        arena := arena[p := arena[p].(actions := ResolveAll(arena[p].actions, index, story, storyline))];
      }
    }

    /** Both passes over one storyline. Enactment `k` of it ends up at `first + k` with its final actions. */
    method CompileStoryline(story: string, storyline: string, nodes: seq<EnactmentNode>) returns (first: nat)
      modifies this
      ensures first == |old(arena)| && |arena| == first + |nodes| && arena[..first] == old(arena)
      ensures index == IndexAfter(old(index), story, storyline, nodes, first, |nodes|)
      ensures forall k :: 0 <= k < |nodes| ==>
        arena[first + k] == Enactment(nodes[k].name, FinalActions(old(index), story, storyline, nodes, first, k))
    {
      hide FirstPass, FinalActions, IndexAfter, LinkUpTo, Key;
      first := |arena|;
      FirstPassOver(story, storyline, nodes);
      IndexHasAll(old(index), story, storyline, nodes, first);
      ghost var compiled := arena;
      LinkPass(story, storyline, nodes);
      forall p | 0 <= p < |arena|
        ensures p < first ==> arena[p] == compiled[p]
        ensures p >= first ==>
          arena[p] == Enactment(nodes[p - first].name, FinalActions(old(index), story, storyline, nodes, first, p - first))
      {
        LinkAt(compiled, index, old(index), story, storyline, nodes, first, p);
      }
      assert arena[..first] == compiled[..first];
    }
  }

  predicate Findable(index: Index, story: string, storyline: string, nodes: seq<EnactmentNode>, size: nat) {
    forall i :: 0 <= i < |nodes| ==>
      Key(story, storyline, nodes[i].name) in index && index[Key(story, storyline, nodes[i].name)] < size
  }

  function LinkUpTo(arena: seq<Enactment>, index: Index, story: string, storyline: string, nodes: seq<EnactmentNode>, i: nat): (r: seq<Enactment>)
    requires i <= |nodes| && Findable(index, story, storyline, nodes, |arena|)
    ensures |r| == |arena|
  {
    if i == 0 then arena
    else
      var a := LinkUpTo(arena, index, story, storyline, nodes, i - 1);
      var p := index[Key(story, storyline, nodes[i - 1].name)];
      a[p := a[p].(actions := ResolveAll(a[p].actions, index, story, storyline))]
  }

  lemma {:induction false} LinkUpToAt(arena: seq<Enactment>, index: Index, story: string, storyline: string,
                                      nodes: seq<EnactmentNode>, i: nat, p: nat)
    requires i <= |nodes| && Findable(index, story, storyline, nodes, |arena|) && p < |arena|
    ensures LinkUpTo(arena, index, story, storyline, nodes, i)[p] ==
      if exists k :: 0 <= k < i && index[Key(story, storyline, nodes[k].name)] == p
      then arena[p].(actions := ResolveAll(arena[p].actions, index, story, storyline)) else arena[p]
  {
    if i > 0 {
      LinkUpToAt(arena, index, story, storyline, nodes, i - 1, p);
      ResolveTwice(arena[p].actions, index, story, storyline);
    }
  }

  /** The index maps a storyline's key to the last enactment of that name, and leaves other keys alone. */
  lemma {:induction false} IndexAt(m: Index, story: string, storyline: string, nodes: seq<EnactmentNode>, first: nat, k: nat, key: string)
    requires k <= |nodes|
    ensures
      var r := IndexAfter(m, story, storyline, nodes, first, k);
      || ((forall i :: 0 <= i < k ==> Key(story, storyline, nodes[i].name) != key) && Find(r, key) == Find(m, key))
      || (exists i :: 0 <= i < k && Key(story, storyline, nodes[i].name) == key && Find(r, key) == Some(first + i)
                     && forall j :: i < j < k ==> Key(story, storyline, nodes[j].name) != key)
  {
    if k > 0 {
      IndexAt(m, story, storyline, nodes, first, k - 1, key);
    }
  }

  lemma IndexHasAll(m: Index, story: string, storyline: string, nodes: seq<EnactmentNode>, first: nat)
    ensures Findable(IndexAfter(m, story, storyline, nodes, first, |nodes|), story, storyline, nodes, first + |nodes|)
  {
    forall i | 0 <= i < |nodes|
      ensures Find(IndexAfter(m, story, storyline, nodes, first, |nodes|), Key(story, storyline, nodes[i].name)).Some?
      ensures Find(IndexAfter(m, story, storyline, nodes, first, |nodes|), Key(story, storyline, nodes[i].name)).value < first + |nodes|
    {
      IndexAt(m, story, storyline, nodes, first, |nodes|, Key(story, storyline, nodes[i].name));
    }
  }

  /** The linking loop reaches an arena slot exactly when the slot's own name still leads to it. */
  lemma LinkAt(arena: seq<Enactment>, index: Index, m: Index, story: string, storyline: string,
               nodes: seq<EnactmentNode>, first: nat, p: nat)
    requires index == IndexAfter(m, story, storyline, nodes, first, |nodes|)
    requires |arena| == first + |nodes| && p < |arena| && Findable(index, story, storyline, nodes, |arena|)
    requires forall k :: 0 <= k < |nodes| ==>
      arena[first + k] == Enactment(nodes[k].name, FirstPass(m, story, storyline, nodes, first, k))
    ensures
      var q := LinkUpTo(arena, index, story, storyline, nodes, |nodes|)[p];
      && (p < first ==> q == arena[p])
      && (p >= first ==> q == Enactment(nodes[p - first].name, FinalActions(m, story, storyline, nodes, first, p - first)))
  {
    hide Key, FirstPass, ResolveAll, LinkUpTo, IndexAfter;
    LinkUpToAt(arena, index, story, storyline, nodes, |nodes|, p);
    if k :| 0 <= k < |nodes| && index[Key(story, storyline, nodes[k].name)] == p {
      IndexAt(m, story, storyline, nodes, first, |nodes|, Key(story, storyline, nodes[k].name));
      var i :| 0 <= i < |nodes| && Key(story, storyline, nodes[i].name) == Key(story, storyline, nodes[k].name) && p == first + i;
    }
    if p >= first {
      assert arena[first + (p - first)] == arena[p];
    }
  }

  // ---------- Where references end up ----------

  predicate DistinctNames(nodes: seq<EnactmentNode>) {
    forall i, j :: 0 <= i < j < |nodes| ==> nodes[i].name != nodes[j].name
  }

  /** No earlier storyline has used one of this storyline's keys. */
  predicate Fresh(m: Index, story: string, storyline: string, nodes: seq<EnactmentNode>) {
    forall i :: 0 <= i < |nodes| ==> Key(story, storyline, nodes[i].name) !in m
  }

  /** Exactly one action of the list concerns the name or the target, and it is `a`. */
  predicate Only(list: seq<ActionNode>, a: ActionNode) {
    exists i :: 0 <= i < |list| && list[i] == a && forall j :: 0 <= j < |list| && j != i ==> list[j].kind.Silent?
  }

  lemma {:induction false} SilentMerge(list: seq<ActionNode>, m: Index, story: string, storyline: string)
    requires forall j :: 0 <= j < |list| ==> list[j].kind.Silent?
    ensures MergeAll(list, m, story, storyline) == BLANK
  {
    if list != [] {
      SilentMerge(list[..|list| - 1], m, story, storyline);
    }
  }

  lemma {:induction false} OnlyMerge(list: seq<ActionNode>, a: ActionNode, m: Index, story: string, storyline: string)
    requires Only(list, a)
    ensures MergeAll(list, m, story, storyline) == Merge(BLANK, a, m, story, storyline)
  {
    var i :| 0 <= i < |list| && list[i] == a && forall j :: 0 <= j < |list| && j != i ==> list[j].kind.Silent?;
    var n := |list| - 1;
    if i == n {
      SilentMerge(list[..n], m, story, storyline);
    } else {
      assert list[..n][i] == a;
      OnlyMerge(list[..n], a, m, story, storyline);
    }
  }

  lemma KeysDiffer(story: string, storyline: string, a: string, b: string)
    requires Key(story, storyline, a) == Key(story, storyline, b)
    ensures a == b
  {
    var p := story + ":" + storyline + ":";
    assert (p + a)[|p|..] == a && (p + b)[|p|..] == b;
    assert Key(story, storyline, a) == p + a && Key(story, storyline, b) == p + b;
  }

  /** With distinct, fresh names the index finds enactment `t` once it is compiled, and not before. */
  lemma FindsCompiled(m: Index, story: string, storyline: string, nodes: seq<EnactmentNode>, first: nat, k: nat, t: nat)
    requires k <= |nodes| && t < |nodes| && DistinctNames(nodes) && Fresh(m, story, storyline, nodes)
    ensures Find(IndexAfter(m, story, storyline, nodes, first, k), Key(story, storyline, nodes[t].name))
            == if t < k then Some(first + t) else None
  {
    var key := Key(story, storyline, nodes[t].name);
    IndexAt(m, story, storyline, nodes, first, k, key);
    forall i | 0 <= i < k && Key(story, storyline, nodes[i].name) == key
      ensures i == t
    {
      KeysDiffer(story, storyline, nodes[i].name, nodes[t].name);
    }
    assert t < k ==> Key(story, storyline, nodes[t].name) == key;
  }

  /**
    A jump to an enactment of the storyline ends linked to it, with no marker left, whether the target is
    declared earlier, later, or is the enactment itself.
  */
  lemma JumpIsLinked(m: Index, story: string, storyline: string, nodes: seq<EnactmentNode>, first: nat, k: nat, j: nat, t: nat)
    requires k < |nodes| && t < |nodes| && j < |nodes[k].lists|
    requires DistinctNames(nodes) && Fresh(m, story, storyline, nodes)
    requires Only(nodes[k].lists[j], ActionNode(Jump, nodes[t].name))
    ensures FinalActions(m, story, storyline, nodes, first, k)[j] == Action(NoName, [], Some(first + t))
  {
    OnlyMerge(nodes[k].lists[j], ActionNode(Jump, nodes[t].name),
              IndexAfter(m, story, storyline, nodes, first, k), story, storyline);
    FindsCompiled(m, story, storyline, nodes, first, k, t);
    FindsCompiled(m, story, storyline, nodes, first, |nodes|, t);
    FindsCompiled(m, story, storyline, nodes, first, |nodes|, k);
  }

  /** A loop back is linked exactly when its target is declared strictly earlier; the second pass never links it. */
  lemma LoopIsLinkedIffEarlier(m: Index, story: string, storyline: string, nodes: seq<EnactmentNode>,
                               first: nat, k: nat, j: nat, t: nat, max: Option<nat>)
    requires k < |nodes| && t < |nodes| && j < |nodes[k].lists|
    requires DistinctNames(nodes) && Fresh(m, story, storyline, nodes)
    requires Only(nodes[k].lists[j], ActionNode(Loop(max), nodes[t].name))
    ensures FinalActions(m, story, storyline, nodes, first, k)[j] == Action(LoopName(max), [], if t < k then Some(first + t) else None)
  {
    OnlyMerge(nodes[k].lists[j], ActionNode(Loop(max), nodes[t].name),
              IndexAfter(m, story, storyline, nodes, first, k), story, storyline);
    FindsCompiled(m, story, storyline, nodes, first, k, t);
  }

  /** The name leads somewhere once the first `k` enactments are compiled. */
  predicate Known(m: Index, story: string, storyline: string, nodes: seq<EnactmentNode>, k: nat, name: string)
    requires k <= |nodes|
  {
    Key(story, storyline, name) in m || exists i :: 0 <= i < k && nodes[i].name == name
  }

  predicate NamedAgain(nodes: seq<EnactmentNode>, k: nat)
    requires k < |nodes|
  {
    exists i :: k < i < |nodes| && nodes[i].name == nodes[k].name
  }

  lemma KnownIsFound(m: Index, story: string, storyline: string, nodes: seq<EnactmentNode>, first: nat, k: nat, name: string)
    requires k <= |nodes|
    ensures Known(m, story, storyline, nodes, k, name)
      <==> Find(IndexAfter(m, story, storyline, nodes, first, k), Key(story, storyline, name)).Some?
  {
    hide IndexAfter;
    var key := Key(story, storyline, name);
    IndexAt(m, story, storyline, nodes, first, k, key);
    forall i | 0 <= i < k && Key(story, storyline, nodes[i].name) == key
      ensures nodes[i].name == name
    {
      KeysDiffer(story, storyline, nodes[i].name, name);
    }
    assert forall i :: 0 <= i < k && nodes[i].name == name ==> Key(story, storyline, nodes[i].name) == key;
  }

  /** The second pass finds an enactment by its name exactly if no later one has taken the name over. */
  lemma FoundByNameIff(m: Index, story: string, storyline: string, nodes: seq<EnactmentNode>, first: nat, k: nat)
    requires k < |nodes|
    ensures Find(IndexAfter(m, story, storyline, nodes, first, |nodes|), Key(story, storyline, nodes[k].name)) == Some(first + k)
      <==> !NamedAgain(nodes, k)
  {
    hide IndexAfter;
    var key := Key(story, storyline, nodes[k].name);
    IndexAt(m, story, storyline, nodes, first, |nodes|, key);
    forall i | 0 <= i < |nodes| && Key(story, storyline, nodes[i].name) == key
      ensures nodes[i].name == nodes[k].name
    {
      KeysDiffer(story, storyline, nodes[i].name, nodes[k].name);
    }
    assert forall i :: 0 <= i < |nodes| && nodes[i].name == nodes[k].name ==> Key(story, storyline, nodes[i].name) == key;
  }

  /**
    Exactly when a jump keeps its pending marker: its target is not known where the jump is compiled, and either a later
    enactment takes over the name of the jump's own enactment, or the target is never known.
  */
  lemma MarkerRemainsIff(m: Index, story: string, storyline: string, nodes: seq<EnactmentNode>, first: nat, k: nat, j: nat, target: string)
    requires k < |nodes| && j < |nodes[k].lists| && Only(nodes[k].lists[j], ActionNode(Jump, target))
    ensures FinalActions(m, story, storyline, nodes, first, k)[j].name == Marker(target)
      <==> !Known(m, story, storyline, nodes, k, target)
           && (NamedAgain(nodes, k) || !Known(m, story, storyline, nodes, |nodes|, target))
    ensures
      var act := FinalActions(m, story, storyline, nodes, first, k)[j];
      act == Action(Marker(target), [], None) || (act.name == NoName && act.next.Some?)
  {
    hide IndexAfter, Known, NamedAgain;
    OnlyMerge(nodes[k].lists[j], ActionNode(Jump, target), IndexAfter(m, story, storyline, nodes, first, k), story, storyline);
    KnownIsFound(m, story, storyline, nodes, first, k, target);
    KnownIsFound(m, story, storyline, nodes, first, |nodes|, target);
    FoundByNameIff(m, story, storyline, nodes, first, k);
  }

  /** The same for a loop back, for any names: it is linked exactly when its target is known where it is compiled. */
  lemma LoopIsLinkedIff(m: Index, story: string, storyline: string, nodes: seq<EnactmentNode>, first: nat, k: nat, j: nat,
                        target: string, max: Option<nat>)
    requires k < |nodes| && j < |nodes[k].lists| && Only(nodes[k].lists[j], ActionNode(Loop(max), target))
    ensures
      var act := FinalActions(m, story, storyline, nodes, first, k)[j];
      && act.name == LoopName(max) && act.extra == []
      && (act.next.Some? <==> Known(m, story, storyline, nodes, k, target))
  {
    hide IndexAfter, Known;
    OnlyMerge(nodes[k].lists[j], ActionNode(Loop(max), target), IndexAfter(m, story, storyline, nodes, first, k), story, storyline);
    KnownIsFound(m, story, storyline, nodes, first, k, target);
  }

  // ---------- Whole scripts ----------

  datatype Unit = Unit(story: string, storyline: string, nodes: seq<EnactmentNode>)

  predicate ColonFree(s: string) {
    ':' !in s
  }

  predicate CleanUnit(u: Unit) {
    && ColonFree(u.story) && ColonFree(u.storyline)
    && DistinctNames(u.nodes)
    && forall i :: 0 <= i < |u.nodes| ==> ColonFree(u.nodes[i].name)
  }

  /** Colon-free names, distinct enactments within a storyline, and distinct (story, storyline) pairs. */
  predicate CleanScript(units: seq<Unit>) {
    && (forall i :: 0 <= i < |units| ==> CleanUnit(units[i]))
    && (forall i, j :: 0 <= i < j < |units| ==> units[i].story != units[j].story || units[i].storyline != units[j].storyline)
  }

  /** The first colon splits a text in one way only. */
  lemma FirstColonSplits(a: string, x: string, b: string, y: string)
    requires ColonFree(a) && ColonFree(b) && a + ":" + x == b + ":" + y
    ensures a == b && x == y
  {
    var s := a + ":" + x;
    assert s == b + ":" + y && s[|a|] == ':' && s[|b|] == ':';
    assert forall k :: 0 <= k < |a| ==> s[k] == a[k] && a[k] in a;
    assert forall k :: 0 <= k < |b| ==> s[k] == b[k] && b[k] in b;
    assert a == s[..|a|] == s[..|b|] == b;
    assert x == s[|a| + 1..] == y;
  }

  lemma ColonFreeKeys(u: Unit, i: nat, v: Unit, j: nat)
    requires CleanUnit(u) && CleanUnit(v) && i < |u.nodes| && j < |v.nodes|
    requires Key(u.story, u.storyline, u.nodes[i].name) == Key(v.story, v.storyline, v.nodes[j].name)
    ensures u.story == v.story && u.storyline == v.storyline
  {
    var x, y := u.storyline + ":" + u.nodes[i].name, v.storyline + ":" + v.nodes[j].name;
    assert Key(u.story, u.storyline, u.nodes[i].name) == u.story + ":" + x;
    assert Key(v.story, v.storyline, v.nodes[j].name) == v.story + ":" + y;
    FirstColonSplits(u.story, x, v.story, y);
    FirstColonSplits(u.storyline, u.nodes[i].name, v.storyline, v.nodes[j].name);
  }

  /** Where the storylines before the `k`-th have put the next free slot, and what they have left in the index. */
  function Slot(units: seq<Unit>, k: nat): nat
    requires k <= |units|
  {
    if k == 0 then 0 else Slot(units, k - 1) + |units[k - 1].nodes|
  }

  function IndexBefore(units: seq<Unit>, k: nat): Index
    requires k <= |units|
  {
    if k == 0 then map[]
    else
      var u := units[k - 1];
      IndexAfter(IndexBefore(units, k - 1), u.story, u.storyline, u.nodes, Slot(units, k - 1), |u.nodes|)
  }

  /** Every key in the index was made by one of the storylines compiled so far. */
  lemma {:induction false} IndexKeysAreMade(units: seq<Unit>, k: nat, key: string)
    requires k <= |units| && key in IndexBefore(units, k)
    ensures exists i, e :: 0 <= i < k && 0 <= e < |units[i].nodes| && key == Key(units[i].story, units[i].storyline, units[i].nodes[e].name)
  {
    if k > 0 {
      var u := units[k - 1];
      IndexAt(IndexBefore(units, k - 1), u.story, u.storyline, u.nodes, Slot(units, k - 1), |u.nodes|, key);
      if key in IndexBefore(units, k - 1) {
        IndexKeysAreMade(units, k - 1, key);
      }
    }
  }

  lemma CleanScriptIsFresh(units: seq<Unit>, k: nat)
    requires k < |units| && CleanScript(units)
    ensures Fresh(IndexBefore(units, k), units[k].story, units[k].storyline, units[k].nodes)
  {
    forall e | 0 <= e < |units[k].nodes|
      ensures Key(units[k].story, units[k].storyline, units[k].nodes[e].name) !in IndexBefore(units, k)
    {
      var key := Key(units[k].story, units[k].storyline, units[k].nodes[e].name);
      if key in IndexBefore(units, k) {
        IndexKeysAreMade(units, k, key);
        var i, f :| 0 <= i < k && 0 <= f < |units[i].nodes|
                    && key == Key(units[i].story, units[i].storyline, units[i].nodes[f].name);
        ColonFreeKeys(units[i], f, units[k], e);
      }
    }
  }

  /** In a clean script every jump within a storyline is linked, wherever its target is declared. */
  lemma JumpsOfCleanScriptAreLinked(units: seq<Unit>, u: nat, k: nat, j: nat, t: nat)
    requires CleanScript(units) && u < |units| && k < |units[u].nodes| && t < |units[u].nodes|
    requires j < |units[u].nodes[k].lists| && Only(units[u].nodes[k].lists[j], ActionNode(Jump, units[u].nodes[t].name))
    ensures FinalActions(IndexBefore(units, u), units[u].story, units[u].storyline, units[u].nodes, Slot(units, u), k)[j]
            == Action(NoName, [], Some(Slot(units, u) + t))
  {
    CleanScriptIsFresh(units, u);
    JumpIsLinked(IndexBefore(units, u), units[u].story, units[u].storyline, units[u].nodes, Slot(units, u), k, j, t);
  }

  predicate CompiledNode(arena: seq<Enactment>, units: seq<Unit>, u: nat, k: nat)
    requires u < |units| && k < |units[u].nodes|
  {
    var s := units[u];
    && Slot(units, u) + k < |arena|
    && arena[Slot(units, u) + k] ==
       Enactment(s.nodes[k].name, FinalActions(IndexBefore(units, u), s.story, s.storyline, s.nodes, Slot(units, u), k))
  }

  /** Storyline `u` sits in the arena with its final actions. */
  predicate Compiled(arena: seq<Enactment>, units: seq<Unit>, u: nat)
    requires u < |units|
  {
    forall k: nat :: k < |units[u].nodes| ==> CompiledNode(arena, units, u, k)
  }

  lemma CompiledStays(before: seq<Enactment>, after: seq<Enactment>, units: seq<Unit>, u: nat)
    requires u < |units| && Compiled(before, units, u)
    requires |before| <= |after| && after[..|before|] == before
    ensures Compiled(after, units, u)
  {
    forall k: nat | k < |units[u].nodes|
      ensures CompiledNode(after, units, u, k)
    {
      assert CompiledNode(before, units, u, k);
      assert after[..|before|][Slot(units, u) + k] == after[Slot(units, u) + k];
    }
  }

  lemma JustCompiled(arena: seq<Enactment>, units: seq<Unit>, u: nat)
    requires u < |units| && |arena| == Slot(units, u) + |units[u].nodes|
    requires
      var s := units[u];
      forall k :: 0 <= k < |s.nodes| ==>
        arena[Slot(units, u) + k] ==
        Enactment(s.nodes[k].name, FinalActions(IndexBefore(units, u), s.story, s.storyline, s.nodes, Slot(units, u), k))
    ensures Compiled(arena, units, u)
  {
    hide FinalActions;
  }

  /** The compiler's loop over all storylines of a script. */
  method CompileScript(units: seq<Unit>) returns (c: Compiler)
    ensures |c.arena| == Slot(units, |units|)
    ensures forall u :: 0 <= u < |units| ==> Compiled(c.arena, units, u)
  {
    hide FinalActions, IndexAfter, Compiled;
    c := new Compiler();
    for i := 0 to |units|
      invariant fresh(c)
      invariant |c.arena| == Slot(units, i) && c.index == IndexBefore(units, i)
      invariant forall u :: 0 <= u < i ==> Compiled(c.arena, units, u)
    {
      ghost var before := c.arena;
      var first := c.CompileStoryline(units[i].story, units[i].storyline, units[i].nodes);
      forall u | 0 <= u <= i
        ensures Compiled(c.arena, units, u)
      {
        if u < i {
          CompiledStays(before, c.arena, units, u);
        } else {
          JustCompiled(c.arena, units, i);
        }
      }
    }
  }

  // ---------- Lists of several actions ----------

  /** A jump or a loop back whose target is known. */
  predicate IsLink(a: ActionNode, m: Index, story: string, storyline: string) {
    (a.kind.Jump? || a.kind.Loop?) && Key(story, storyline, a.target) in m
  }

  /** What an action makes the name of the merged action, whatever it was. */
  function NameGiven(a: ActionNode, m: Index, story: string, storyline: string): Option<ActionName> {
    match a.kind
    case SetName(s) => Some(Named(s))
    case Loop(max) => Some(LoopName(max))
    case Jump => if Key(story, storyline, a.target) in m then None else Some(Marker(a.target))
    case _ => None
  }

  /** The merged action leads where the last link of the list leads... */
  lemma {:induction false} LastLinkCounts(list: seq<ActionNode>, m: Index, story: string, storyline: string, k: nat)
    requires k < |list| && IsLink(list[k], m, story, storyline)
    requires forall j :: k < j < |list| ==> !IsLink(list[j], m, story, storyline)
    ensures MergeAll(list, m, story, storyline).next == Some(m[Key(story, storyline, list[k].target)])
    decreases |list|
  {
    hide Key;
    var n := |list| - 1;
    if k < n {
      LastLinkCounts(list[..n], m, story, storyline, k);
    }
  }

  /** ... and nowhere without one. */
  lemma {:induction false} NoLinkLeadsNowhere(list: seq<ActionNode>, m: Index, story: string, storyline: string)
    requires forall j :: 0 <= j < |list| ==> !IsLink(list[j], m, story, storyline)
    ensures MergeAll(list, m, story, storyline).next == None
    decreases |list|
  {
    hide Key;
    if list != [] {
      NoLinkLeadsNowhere(list[..|list| - 1], m, story, storyline);
    }
  }

  /** Its name is the one given last... */
  lemma {:induction false} LastNameCounts(list: seq<ActionNode>, m: Index, story: string, storyline: string, k: nat)
    requires k < |list| && NameGiven(list[k], m, story, storyline).Some?
    requires forall j :: k < j < |list| ==> NameGiven(list[j], m, story, storyline).None?
    ensures Some(MergeAll(list, m, story, storyline).name) == NameGiven(list[k], m, story, storyline)
    decreases |list|
  {
    hide Key;
    var n := |list| - 1;
    if k < n {
      LastNameCounts(list[..n], m, story, storyline, k);
    }
  }

  function AddedNames(list: seq<ActionNode>): seq<string> {
    if list == [] then []
    else AddedNames(list[..|list| - 1]) + if list[|list| - 1].kind.AddName? then [list[|list| - 1].kind.name] else []
  }

  /** ... or else the first one added; the added names are kept in order, but for one that becomes the name. */
  lemma {:induction false} AddedNamesAreKept(list: seq<ActionNode>, m: Index, story: string, storyline: string)
    requires forall j :: 0 <= j < |list| ==> NameGiven(list[j], m, story, storyline).None?
    ensures
      var act, added := MergeAll(list, m, story, storyline), AddedNames(list);
      if added == [] then act.name == NoName && act.extra == [] else act.name == Named(added[0]) && act.extra == added[1..]
    decreases |list|
  {
    hide Key;
    if list != [] {
      AddedNamesAreKept(list[..|list| - 1], m, story, storyline);
    }
  }

  /** Behind an action that gives a name, every added name is kept besides. */
  lemma {:induction false} NamesBehindAName(list: seq<ActionNode>, m: Index, story: string, storyline: string, k: nat)
    requires k < |list| && NameGiven(list[k], m, story, storyline).Some?
    ensures
      MergeAll(list, m, story, storyline).name != NoName
      && MergeAll(list, m, story, storyline).extra == MergeAll(list[..k], m, story, storyline).extra + AddedNames(list[k..])
    decreases |list|
  {
    hide Key, MergeAll, Merge, AddedNames, NameGiven;
    var n := |list| - 1;
    MergeLast(list, m, story, storyline);
    var before := MergeAll(list[..n], m, story, storyline);
    if k < n {
      NamesBehindAName(list[..n], m, story, storyline, k);
      assert list[..n][..k] == list[..k] && list[..n][k..] == list[k..][..|list[k..]| - 1];
      AddedLast(list[k..]);
      AfterAName(before, list[n], m, story, storyline);
    } else {
      GivesName(before, list[n], m, story, storyline);
      assert list[k..] == [list[k]];
    }
  }

  lemma MergeLast(list: seq<ActionNode>, m: Index, story: string, storyline: string)
    requires list != []
    ensures var n := |list| - 1;
            MergeAll(list, m, story, storyline) == Merge(MergeAll(list[..n], m, story, storyline), list[n], m, story, storyline)
  {
  }

  lemma AfterAName(act: Action, a: ActionNode, m: Index, story: string, storyline: string)
    requires act.name != NoName
    ensures Merge(act, a, m, story, storyline).name != NoName
    ensures Merge(act, a, m, story, storyline).extra == act.extra + if a.kind.AddName? then [a.kind.name] else []
  {
    hide Key;
  }

  lemma GivesName(act: Action, a: ActionNode, m: Index, story: string, storyline: string)
    requires NameGiven(a, m, story, storyline).Some?
    ensures Merge(act, a, m, story, storyline).name != NoName
    ensures Merge(act, a, m, story, storyline).extra == act.extra && AddedNames([a]) == []
  {
    hide Key;
    assert [a][..0] == [];
  }

  lemma AddedLast(list: seq<ActionNode>)
    requires list != []
    ensures AddedNames(list) == AddedNames(list[..|list| - 1]) + if list[|list| - 1].kind.AddName? then [list[|list| - 1].kind.name] else []
  {
  }
}
