/**
  The order in which compiling stories asks for ids. Each compile method takes the ids of what it creates from the
  shared counter as it goes down the tree; the kinds they are for are a function of the tree.
*/
module StoryIds {
  import opened PublicIds

  // ---------- The tree, as far as ids depend on it ----------

  datatype Action = Action(hasFallback: bool)

  datatype Trigger = Trigger(actions: seq<Action>, elseActions: seq<Action>)

  datatype Scene = Scene(hasTemplate: bool)

  datatype Enactment = Enactment(scenes: seq<Scene>, triggers: seq<Trigger>)

  datatype Storyline = Storyline(enactments: seq<Enactment>)

  datatype Story = Story(storylines: seq<Storyline>)

  // ---------- What each node creates, in order ----------

  function SceneKinds(sc: Scene): seq<string> {
    ["scene", "message", "content"] + if sc.hasTemplate then ["template"] else []
  }

  /** An else comes from the trigger, or else from the first action with a fallback. */
  predicate HasElse(tr: Trigger) {
    tr.elseActions != [] || exists k :: 0 <= k < |tr.actions| && tr.actions[k].hasFallback
  }

  function TriggerKinds(tr: Trigger): seq<string> {
    ["trigger"] + (if tr.actions != [] then ["action"] else []) + (if HasElse(tr) then ["trigger", "action"] else [])
  }

  function AllSceneKinds(scs: seq<Scene>): seq<string> {
    if scs == [] then [] else AllSceneKinds(scs[..|scs| - 1]) + SceneKinds(scs[|scs| - 1])
  }

  function AllTriggerKinds(trs: seq<Trigger>): seq<string> {
    if trs == [] then [] else AllTriggerKinds(trs[..|trs| - 1]) + TriggerKinds(trs[|trs| - 1])
  }

  function EnactmentKinds(en: Enactment): seq<string> {
    ["enactment"] + AllSceneKinds(en.scenes) + AllTriggerKinds(en.triggers)
  }

  function AllEnactmentKinds(ens: seq<Enactment>): seq<string> {
    if ens == [] then [] else AllEnactmentKinds(ens[..|ens| - 1]) + EnactmentKinds(ens[|ens| - 1])
  }

  function AllStorylineKinds(sls: seq<Storyline>): seq<string> {
    if sls == [] then []
    else AllStorylineKinds(sls[..|sls| - 1]) + (["storyline"] + AllEnactmentKinds(sls[|sls| - 1].enactments))
  }

  function StoryKinds(st: Story): seq<string> {
    ["story"] + AllStorylineKinds(st.storylines)
  }

  function ScriptKinds(sts: seq<Story>): seq<string> {
    if sts == [] then [] else ScriptKinds(sts[..|sts| - 1]) + StoryKinds(sts[|sts| - 1])
  }

  lemma InOrderAppend(a: seq<string>, ka: seq<string>, b: seq<string>, kb: seq<string>, session: string, start: nat)
    requires IdsInOrder(a, ka, session, start) && IdsInOrder(b, kb, session, start + |ka|)
    ensures IdsInOrder(a + b, ka + kb, session, start)
  {
  }

  // ---------- How many ids of each kind ----------

  datatype Counts = Counts(stories: nat, storylines: nat, enactments: nat, scenes: nat, templates: nat, triggers: nat, actions: nat)

  function Plus(a: Counts, b: Counts): Counts {
    Counts(a.stories + b.stories, a.storylines + b.storylines, a.enactments + b.enactments, a.scenes + b.scenes,
      a.templates + b.templates, a.triggers + b.triggers, a.actions + b.actions)
  }

  const NOTHING := Counts(0, 0, 0, 0, 0, 0, 0)

  function Sum<T>(xs: seq<T>, f: T -> Counts): Counts {
    if xs == [] then NOTHING else Plus(Sum(xs[..|xs| - 1], f), f(xs[|xs| - 1]))
  }

  function OfScene(sc: Scene): Counts {
    NOTHING.(scenes := 1, templates := if sc.hasTemplate then 1 else 0)
  }

  /** A trigger has an action if its list is not empty, and a second trigger with its own if there is an else anywhere. */
  function OfTrigger(tr: Trigger): Counts {
    var second := if tr.elseActions != [] || (exists a :: a in tr.actions && a.hasFallback) then 1 else 0;
    NOTHING.(triggers := 1 + second, actions := second + if tr.actions != [] then 1 else 0)
  }

  function OfEnactment(en: Enactment): Counts {
    Plus(Plus(NOTHING.(enactments := 1), Sum(en.scenes, OfScene)), Sum(en.triggers, OfTrigger))
  }

  function OfStoryline(sl: Storyline): Counts {
    Plus(NOTHING.(storylines := 1), Sum(sl.enactments, OfEnactment))
  }

  function OfStory(st: Story): Counts {
    Plus(NOTHING.(stories := 1), Sum(st.storylines, OfStoryline))
  }

  /** The kinds, counted. A scene brings its message and its content. */
  function Counted(kinds: seq<string>): Counts {
    var m := multiset(kinds);
    Counts(m["story"], m["storyline"], m["enactment"], m["scene"], m["template"], m["trigger"], m["action"])
  }

  predicate ScenesAreWhole(kinds: seq<string>) {
    var m := multiset(kinds);
    m["scene"] == m["message"] == m["content"]
  }

  predicate Tallies(kinds: seq<string>, counts: Counts) {
    && Counted(kinds) == counts && ScenesAreWhole(kinds)
    && |kinds| == counts.stories + counts.storylines + counts.enactments + 3 * counts.scenes + counts.templates + counts.triggers + counts.actions
  }

  lemma TalliesAdd(a: seq<string>, x: Counts, b: seq<string>, y: Counts)
    requires Tallies(a, x) && Tallies(b, y)
    ensures Tallies(a + b, Plus(x, y))
  {
  }

  lemma SceneTallies(sc: Scene)
    ensures Tallies(SceneKinds(sc), OfScene(sc))
  {
    assert SceneKinds(sc) == if sc.hasTemplate then ["scene", "message", "content", "template"] else ["scene", "message", "content"];
  }

  lemma TriggerTallies(tr: Trigger)
    ensures Tallies(TriggerKinds(tr), OfTrigger(tr))
  {
    hide Tallies;
    ElseIsFound(tr);
    var second := OfTrigger(tr).triggers == 2;
    TriggerForms();
    assert TriggerKinds(tr) ==
      if tr.actions == [] then (if second then ["trigger", "trigger", "action"] else ["trigger"])
      else if second then ["trigger", "action", "trigger", "action"] else ["trigger", "action"];
  }

  lemma ElseIsFound(tr: Trigger)
    ensures HasElse(tr) <==> OfTrigger(tr).triggers == 2
  {
  }

  lemma TriggerForms()
    ensures Tallies(["trigger"], NOTHING.(triggers := 1))
    ensures Tallies(["trigger", "action"], NOTHING.(triggers := 1, actions := 1))
    ensures Tallies(["trigger", "trigger", "action"], NOTHING.(triggers := 2, actions := 1))
    ensures Tallies(["trigger", "action", "trigger", "action"], NOTHING.(triggers := 2, actions := 2))
  {
  }

  lemma {:induction false} ScenesTally(scs: seq<Scene>)
    ensures Tallies(AllSceneKinds(scs), Sum(scs, OfScene))
  {
    hide SceneKinds, OfScene;
    if scs != [] {
      var n := |scs| - 1;
      ScenesTally(scs[..n]);
      SceneTallies(scs[n]);
      TalliesAdd(AllSceneKinds(scs[..n]), Sum(scs[..n], OfScene), SceneKinds(scs[n]), OfScene(scs[n]));
    }
  }

  lemma {:induction false} TriggersTally(trs: seq<Trigger>)
    ensures Tallies(AllTriggerKinds(trs), Sum(trs, OfTrigger))
  {
    hide TriggerKinds, OfTrigger;
    if trs != [] {
      var n := |trs| - 1;
      TriggersTally(trs[..n]);
      TriggerTallies(trs[n]);
      TalliesAdd(AllTriggerKinds(trs[..n]), Sum(trs[..n], OfTrigger), TriggerKinds(trs[n]), OfTrigger(trs[n]));
    }
  }

  lemma EnactmentTallies(en: Enactment)
    ensures Tallies(EnactmentKinds(en), OfEnactment(en))
  {
    hide AllSceneKinds, AllTriggerKinds, Sum;
    ScenesTally(en.scenes);
    TriggersTally(en.triggers);
    var one := NOTHING.(enactments := 1);
    assert Tallies(["enactment"], one);
    TalliesAdd(["enactment"], one, AllSceneKinds(en.scenes), Sum(en.scenes, OfScene));
    TalliesAdd(["enactment"] + AllSceneKinds(en.scenes), Plus(one, Sum(en.scenes, OfScene)), AllTriggerKinds(en.triggers), Sum(en.triggers, OfTrigger));
  }

  lemma {:induction false} EnactmentsTally(ens: seq<Enactment>)
    ensures Tallies(AllEnactmentKinds(ens), Sum(ens, OfEnactment))
  {
    hide EnactmentKinds, OfEnactment;
    if ens != [] {
      var n := |ens| - 1;
      EnactmentsTally(ens[..n]);
      EnactmentTallies(ens[n]);
      TalliesAdd(AllEnactmentKinds(ens[..n]), Sum(ens[..n], OfEnactment), EnactmentKinds(ens[n]), OfEnactment(ens[n]));
    }
  }

  lemma {:induction false} StorylinesTally(sls: seq<Storyline>)
    ensures Tallies(AllStorylineKinds(sls), Sum(sls, OfStoryline))
  {
    hide AllEnactmentKinds, OfEnactment;
    if sls != [] {
      var n := |sls| - 1;
      var own, one := AllEnactmentKinds(sls[n].enactments), NOTHING.(storylines := 1);
      StorylinesTally(sls[..n]);
      EnactmentsTally(sls[n].enactments);
      assert Tallies(["storyline"], one);
      TalliesAdd(["storyline"], one, own, Sum(sls[n].enactments, OfEnactment));
      TalliesAdd(AllStorylineKinds(sls[..n]), Sum(sls[..n], OfStoryline), ["storyline"] + own, OfStoryline(sls[n]));
    }
  }

  /** A compilation takes one id for each story, storyline, enactment and so on of the tree, and no more. */
  lemma {:induction false} IdsMatchTree(sts: seq<Story>)
    ensures Tallies(ScriptKinds(sts), Sum(sts, OfStory))
  {
    hide AllStorylineKinds, OfStoryline;
    if sts != [] {
      var n := |sts| - 1;
      var one := NOTHING.(stories := 1);
      IdsMatchTree(sts[..n]);
      StorylinesTally(sts[n].storylines);
      assert Tallies(["story"], one);
      TalliesAdd(["story"], one, AllStorylineKinds(sts[n].storylines), Sum(sts[n].storylines, OfStoryline));
      TalliesAdd(ScriptKinds(sts[..n]), Sum(sts[..n], OfStory), StoryKinds(sts[n]), OfStory(sts[n]));
    }
  }

  // ---------- The compile methods, as far as they take ids ----------

  class Compiler {
    const ids: IdGenerator

    constructor (session: string)
      ensures fresh(ids) && ids.Valid() && ids.counter == 0 && ids.session == session
    {
      ids := new IdGenerator(session);
    }

    ghost predicate Took(issued: seq<string>, kinds: seq<string>, start: nat)
      reads ids
    {
      ids.Valid() && ids.counter == start + |kinds| && IdsInOrder(issued, kinds, ids.session, start)
    }

    method CompileScene(sc: Scene) returns (issued: seq<string>)
      requires ids.Valid()
      modifies ids
      ensures Took(issued, SceneKinds(sc), old(ids.counter))
    {
      hide Format;
      var scene := ids.Generate("scene");
      var message := ids.Generate("message");
      var content := ids.Generate("content");
      issued := [scene, message, content];
      if sc.hasTemplate {
        var template := ids.Generate("template");
        issued := issued + [template];
      }
    }

    /** The first action with a fallback lends it to the else, if the trigger has none. */
    method FindsElse(tr: Trigger) returns (found: bool)
      ensures found == HasElse(tr)
    {
      if tr.elseActions != [] {
        return true;
      }
      for k := 0 to |tr.actions|
        invariant forall j :: 0 <= j < k ==> !tr.actions[j].hasFallback
      {
        if tr.actions[k].hasFallback {
          return true;
        }
      }
      found := false;
    }

    method CompileTrigger(tr: Trigger) returns (issued: seq<string>)
      requires ids.Valid()
      modifies ids
      ensures Took(issued, TriggerKinds(tr), old(ids.counter))
    {
      hide Format, HasElse;
      var main := ids.Generate("trigger");
      issued := [main];
      if tr.actions != [] {
        var action := ids.Generate("action");
        issued := issued + [action];
      }
      var otherwise := FindsElse(tr);
      if otherwise {
        var second := ids.Generate("trigger");
        var action := ids.Generate("action");
        issued := issued + [second, action];
      }
    }

    method CompileEnactment(en: Enactment) returns (issued: seq<string>)
      requires ids.Valid()
      modifies ids
      ensures Took(issued, EnactmentKinds(en), old(ids.counter))
    {
      hide Format, SceneKinds, TriggerKinds;
      ghost var start := ids.counter;
      var id := ids.Generate("enactment");
      issued := [id];
      for k := 0 to |en.scenes|
        invariant Took(issued, ["enactment"] + AllSceneKinds(en.scenes[..k]), start)
      {
        var more := CompileScene(en.scenes[k]);
        assert en.scenes[..k + 1][..k] == en.scenes[..k];
        InOrderAppend(issued, ["enactment"] + AllSceneKinds(en.scenes[..k]), more, SceneKinds(en.scenes[k]), ids.session, start);
        assert ["enactment"] + AllSceneKinds(en.scenes[..k]) + SceneKinds(en.scenes[k]) == ["enactment"] + AllSceneKinds(en.scenes[..k + 1]);
        issued := issued + more;
      }
      assert en.scenes[..|en.scenes|] == en.scenes;
      ghost var before := ["enactment"] + AllSceneKinds(en.scenes);
      for k := 0 to |en.triggers|
        invariant Took(issued, before + AllTriggerKinds(en.triggers[..k]), start)
      {
        var more := CompileTrigger(en.triggers[k]);
        assert en.triggers[..k + 1][..k] == en.triggers[..k];
        InOrderAppend(issued, before + AllTriggerKinds(en.triggers[..k]), more, TriggerKinds(en.triggers[k]), ids.session, start);
        assert before + AllTriggerKinds(en.triggers[..k]) + TriggerKinds(en.triggers[k]) == before + AllTriggerKinds(en.triggers[..k + 1]);
        issued := issued + more;
      }
      assert en.triggers[..|en.triggers|] == en.triggers;
    }

    method CompileStoryline(sl: Storyline) returns (issued: seq<string>)
      requires ids.Valid()
      modifies ids
      ensures Took(issued, ["storyline"] + AllEnactmentKinds(sl.enactments), old(ids.counter))
    {
      hide Format, EnactmentKinds;
      ghost var start := ids.counter;
      var id := ids.Generate("storyline");
      issued := [id];
      for k := 0 to |sl.enactments|
        invariant Took(issued, ["storyline"] + AllEnactmentKinds(sl.enactments[..k]), start)
      {
        var more := CompileEnactment(sl.enactments[k]);
        assert sl.enactments[..k + 1][..k] == sl.enactments[..k];
        ghost var kinds := ["storyline"] + AllEnactmentKinds(sl.enactments[..k]);
        InOrderAppend(issued, kinds, more, EnactmentKinds(sl.enactments[k]), ids.session, start);
        assert kinds + EnactmentKinds(sl.enactments[k]) == ["storyline"] + AllEnactmentKinds(sl.enactments[..k + 1]);
        issued := issued + more;
      }
      assert sl.enactments[..|sl.enactments|] == sl.enactments;
    }

    method CompileStory(st: Story) returns (issued: seq<string>)
      requires ids.Valid()
      modifies ids
      ensures Took(issued, StoryKinds(st), old(ids.counter))
    {
      hide Format, AllEnactmentKinds;
      ghost var start := ids.counter;
      var id := ids.Generate("story");
      issued := [id];
      for k := 0 to |st.storylines|
        invariant Took(issued, ["story"] + AllStorylineKinds(st.storylines[..k]), start)
      {
        var more := CompileStoryline(st.storylines[k]);
        assert st.storylines[..k + 1][..k] == st.storylines[..k];
        ghost var kinds, own := ["story"] + AllStorylineKinds(st.storylines[..k]), ["storyline"] + AllEnactmentKinds(st.storylines[k].enactments);
        InOrderAppend(issued, kinds, more, own, ids.session, start);
        assert kinds + own == ["story"] + AllStorylineKinds(st.storylines[..k + 1]);
        issued := issued + more;
      }
      assert st.storylines[..|st.storylines|] == st.storylines;
    }

    method CompileStories(sts: seq<Story>) returns (issued: seq<string>)
      requires ids.Valid()
      modifies ids
      ensures Took(issued, ScriptKinds(sts), old(ids.counter))
    {
      hide Format, StoryKinds;
      ghost var start := ids.counter;
      issued := [];
      for k := 0 to |sts|
        invariant Took(issued, ScriptKinds(sts[..k]), start)
      {
        var more := CompileStory(sts[k]);
        assert sts[..k + 1][..k] == sts[..k];
        InOrderAppend(issued, ScriptKinds(sts[..k]), more, StoryKinds(sts[k]), ids.session, start);
        issued := issued + more;
      }
      assert sts[..|sts|] == sts;
    }
  }

  /**
    The ids of one compilation: badges, then tags, then what the stories create on the way down. All of them differ, and
    each is a function of the two name sets and the tree alone.
  */
  method CompilationIds(session: string, badges: set<string>, tags: set<string>, stories: seq<Story>)
    returns (badgeIds: map<string, string>, tagIds: map<string, string>, restIds: seq<string>)
    ensures IdsByRank(badgeIds, badges, "badge", session, 0)
    ensures IdsByRank(tagIds, tags, "tag", session, |badges|)
    ensures IdsInOrder(restIds, ScriptKinds(stories), session, |badges| + |tags|)
    ensures AllDiffer(badgeIds, tagIds, restIds)
  {
    var compiler := new Compiler(session);
    badgeIds := compiler.ids.Precreate("badge", badges);
    tagIds := compiler.ids.Precreate("tag", tags);
    restIds := compiler.CompileStories(stories);
    CompilationIdsDiffer(badgeIds, badges, tagIds, tags, restIds, ScriptKinds(stories), session);
  }
}
