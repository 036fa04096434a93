/**
  The functions of `Expansion` over lists, taken one element further: what each round of the expander's loops adds.
*/
module ExpansionSteps {
  import opened Wrappers
  import opened Expansion

  lemma DefinitionsTake<T>(defs: seq<(string, T)>, i: nat)
    requires i < |defs|
    ensures var m := FirstOf(defs[..i]);
      && FirstOf(defs[..i + 1]) == (if defs[i].0 in m then m else m[defs[i].0 := defs[i].1])
      && DuplicateProblems(defs[..i + 1]) == DuplicateProblems(defs[..i]) + (if defs[i].0 in m then [Duplicate] else [])
  {
    assert defs[..i + 1][..i] == defs[..i];
  }

  method Collect<T>(defs: seq<(string, T)>) returns (m: map<string, T>, problems: seq<Problem>)
    ensures m == FirstOf(defs) && problems == DuplicateProblems(defs)
  {
    m, problems := map[], [];
    for i := 0 to |defs|
      invariant m == FirstOf(defs[..i]) && problems == DuplicateProblems(defs[..i])
    {
      DefinitionsTake(defs, i);
      if defs[i].0 in m {
        problems := problems + [Duplicate];
      } else {
        m := m[defs[i].0 := defs[i].1];
      }
    }
    assert defs[..|defs|] == defs;
  }

  lemma EachTake(env: Env, es: seq<Enactment>, i: nat)
    requires i < |es|
    ensures EachProblems(env, es[..i + 1]) == EachProblems(env, es[..i]) + UsedProblems(env, es[i].uses)
  {
    assert es[..i + 1][..i] == es[..i];
  }

  lemma LoopUsesTake(env: Env, us: seq<Use>, i: nat, params: map<string, string>, sender: Option<Sender>)
    requires i < |us|
    ensures var u := CloneUse(env.text, us[i], params);
      && LoopInstances(env, us[..i + 1], params, sender) == LoopInstances(env, us[..i], params, sender) + UseInstances(env, u, sender)
      && LoopUsesProblems(env, us[..i + 1], params) == LoopUsesProblems(env, us[..i], params) + LoopUseProblems(env, u)
  {
    hide CloneUse, UseInstances, LoopUseProblems;
    assert us[..i + 1][..i] == us[..i];
  }

  lemma NoLoopUses(env: Env, params: map<string, string>, sender: Option<Sender>, problems: seq<Problem>)
    ensures LoopInstances(env, [], params, sender) == [] && problems + LoopUsesProblems(env, [], params) == problems
  {
  }

  lemma NoRounds(env: Env, l: Loop, sender: Option<Sender>, problems: seq<Problem>)
    ensures LoopRounds(env, l, [], sender) == [] && problems + RoundsProblems(env, l, []) == problems
  {
  }

  lemma RoundsTake(env: Env, l: Loop, items: seq<map<string, string>>, i: nat, sender: Option<Sender>)
    requires i < |items|
    ensures LoopRounds(env, l, items[..i + 1], sender) == LoopRounds(env, l, items[..i], sender) + LoopRound(env, l, items[i], sender)
    ensures RoundsProblems(env, l, items[..i + 1]) == RoundsProblems(env, l, items[..i]) + RoundProblems(env, l, items[i])
  {
    hide LoopRound, RoundProblems;
    assert items[..i + 1][..i] == items[..i];
  }

  lemma NoLoops(env: Env, sender: Option<Sender>, problems: seq<Problem>)
    ensures LoopsEnactments(env, [], sender) == [] && problems + LoopsProblems(env, []) == problems
  {
  }

  lemma LoopsTake(env: Env, ls: seq<Loop>, i: nat, sender: Option<Sender>)
    requires i < |ls|
    ensures LoopsEnactments(env, ls[..i + 1], sender)
            == LoopsEnactments(env, ls[..i], sender) + LoopRounds(env, ls[i], LoopData(env, ls[i].source), sender)
    ensures LoopsProblems(env, ls[..i + 1])
            == LoopsProblems(env, ls[..i]) + LoopDataProblems(env, ls[i].source) + RoundsProblems(env, ls[i], LoopData(env, ls[i].source))
  {
    hide LoopRounds, RoundsProblems, LoopData, LoopDataProblems;
    assert ls[..i + 1][..i] == ls[..i];
  }

  lemma NoStorylineUses(env: Env, sender: Option<Sender>, problems: seq<Problem>)
    ensures UsedInstances(env, [], sender) == [] && problems + StorylineUsesProblems(env, []) == problems
    ensures SenderAfter(env, [], sender) == sender
  {
  }

  lemma StorylineUsesTake(env: Env, us: seq<Use>, i: nat, sender: Option<Sender>)
    requires i < |us|
    ensures UsedInstances(env, us[..i + 1], sender)
            == UsedInstances(env, us[..i], sender) + UseInstances(env, us[i], SenderAfter(env, us[..i], sender))
    ensures StorylineUsesProblems(env, us[..i + 1]) == StorylineUsesProblems(env, us[..i]) + StorylineUseProblems(env, us[i])
    ensures SenderAfter(env, us[..i + 1], sender) == NextSender(env, us[i], SenderAfter(env, us[..i], sender))
  {
    hide UseInstances, StorylineUseProblems, NextSender;
    assert us[..i + 1][..i] == us[..i];
  }

  lemma BodyTake(t: Text, body: seq<Storyline>, i: nat, params: map<string, string>)
    requires i < |body|
    ensures BodyProblems(t, body[..i + 1], params) == BodyProblems(t, body[..i], params) + CloneProblems(t, body[i], params)
  {
    hide CloneProblems;
    assert body[..i + 1][..i] == body[..i];
  }

  lemma StoryRoundsTake(env: Env, l: StoryLoop, items: seq<map<string, string>>, i: nat)
    requires i < |items|
    ensures StoryRounds(env, l, items[..i + 1]) == StoryRounds(env, l, items[..i]) + StoryRound(env, l, items[i])
    ensures StoryRoundsProblems(env, l, items[..i + 1]) == StoryRoundsProblems(env, l, items[..i])
            + BodyProblems(env.text, l.body, BindFields(env.links, l.variable, items[i]))
  {
    hide StoryRound, BodyProblems, BindFields;
    assert items[..i + 1][..i] == items[..i];
  }

  lemma NoStoryRounds(env: Env, l: StoryLoop, problems: seq<Problem>)
    ensures StoryRounds(env, l, []) == [] && problems + StoryRoundsProblems(env, l, []) == problems
  {
  }

  lemma StoryLoopsTake(env: Env, ls: seq<StoryLoop>, i: nat)
    requires i < |ls|
    ensures var items := LoopData(env, ls[i].source);
      && StoryLoops(env, ls[..i + 1]) == StoryLoops(env, ls[..i]) + StoryRounds(env, ls[i], items)
      && StoryLoopsProblems(env, ls[..i + 1])
         == StoryLoopsProblems(env, ls[..i]) + LoopDataProblems(env, ls[i].source) + StoryRoundsProblems(env, ls[i], items)
  {
    hide StoryRounds, StoryRoundsProblems, LoopData, LoopDataProblems;
    assert ls[..i + 1][..i] == ls[..i];
  }

  lemma NoStoryLoops(env: Env, problems: seq<Problem>)
    ensures StoryLoops(env, []) == [] && problems + StoryLoopsProblems(env, []) == problems
  {
  }

  lemma StoryUsesTake(env: Env, us: seq<Use>, i: nat)
    requires i < |us|
    ensures StoryUsesProblems(env, us[..i + 1])
            == StoryUsesProblems(env, us[..i]) + (if us[i].kind == UseSender then SenderProblems(env, us[i]) else [])
    ensures SenderAfter(env, us[..i + 1], DefaultSender(env))
            == NextSender(env, us[i], SenderAfter(env, us[..i], DefaultSender(env)))
  {
    hide NextSender, SenderProblems, DefaultSender;
    assert us[..i + 1][..i] == us[..i];
  }

  lemma StorylinesTake(env: Env, sls: seq<Storyline>, i: nat, sender: Option<Sender>)
    requires i < |sls|
    ensures StorylinesProblems(env, sls[..i + 1], sender)
            == StorylinesProblems(env, sls[..i], sender) + StorylineProblems(env, sls[i], sender)
  {
    hide StorylineProblems;
    assert sls[..i + 1][..i] == sls[..i];
  }

  lemma DefaultsTake(t: Text, ds: seq<Defaults>, i: nat)
    requires i < |ds|
    ensures DefaultTriggers(t, ds[..i + 1]) == DefaultTriggers(t, ds[..i]) + Triggers(t, ds[i].triggers, map[])
    ensures DefaultUses(ds[..i + 1]) == DefaultUses(ds[..i]) + ds[i].uses
  {
    assert ds[..i + 1][..i] == ds[..i];
  }

  lemma NoDefaults(t: Text, e: Enactment)
    ensures e.triggers + DefaultTriggers(t, []) == e.triggers && e.uses + DefaultUses([]) == e.uses
  {
  }

  lemma NoUses(env: Env, triggers: seq<Trigger>, problems: seq<Problem>, sender: Option<Sender>)
    ensures triggers + UsedTriggers(env, []) == triggers && problems + UsedProblems(env, []) == problems
    ensures SenderAfter(env, [], sender) == sender
  {
  }

  lemma UsesTake(env: Env, us: seq<Use>, i: nat, sender: Option<Sender>)
    requires i < |us|
    ensures SenderAfter(env, us[..i + 1], sender) == NextSender(env, us[i], SenderAfter(env, us[..i], sender))
    ensures UsedTriggers(env, us[..i + 1]) ==
      UsedTriggers(env, us[..i]) + (if us[i].kind == UsePolicy then PolicyTriggers(env, us[i]) else [])
    ensures UsedProblems(env, us[..i + 1]) == UsedProblems(env, us[..i]) + UseProblems(env, us[i])
  {
    hide NextSender, PolicyTriggers, UseProblems;
    assert us[..i + 1][..i] == us[..i];
  }

  lemma NoSender(vs: seq<Scene>)
    ensures FillSenders(vs, None) == vs
  {
  }

  // ---------- Levels ----------

  function LevelCount(levels: seq<Option<int>>): (n: nat)
    ensures n <= |levels|
  {
    if levels == [] then 0
    else LevelCount(levels[..|levels| - 1]) + (if levels[|levels| - 1].Some? then 1 else 0)
  }

  lemma {:induction false} LevelCountFull(levels: seq<Option<int>>)
    ensures LevelCount(levels) == |levels| <==> AllLevels(levels)
  {
    if levels != [] {
      LevelCountFull(levels[..|levels| - 1]);
    }
  }

  /** What the loop over the levels knows after `levels`: the levels seen and whether one came twice. */
  ghost predicate LevelsSeen(levels: seq<Option<int>>, used: set<int>, duplicates: bool) {
    && (forall n :: n in used <==> Some(n) in levels)
    && (duplicates <==> !DistinctLevels(levels))
    && |used| <= LevelCount(levels) && (!duplicates ==> |used| == LevelCount(levels))
  }

  lemma OneMoreLevel(levels: seq<Option<int>>, used: set<int>, duplicates: bool, next: Option<int>)
    requires LevelsSeen(levels, used, duplicates)
    ensures next.None? ==> LevelsSeen(levels + [next], used, duplicates)
    ensures next.Some? ==> LevelsSeen(levels + [next], used + {next.value}, duplicates || next.value in used)
  {
    hide DistinctLevels;
    var all := levels + [next];
    assert all[..|all| - 1] == levels;
    DistinctSnoc(levels, next);
    assert LevelCount(all) == LevelCount(levels) + (if next.Some? then 1 else 0);
    if next.Some? {
      var v := next.value;
      assert v in used <==> next in levels;
      forall n
        ensures n in used + {v} <==> Some(n) in all
      {
        assert Some(n) in all <==> Some(n) in levels || Some(n) == next;
      }
      assert v in used ==> used + {v} == used;
    }
  }

  lemma DistinctSnoc(levels: seq<Option<int>>, next: Option<int>)
    ensures DistinctLevels(levels + [next]) <==> DistinctLevels(levels) && (next.None? || next !in levels)
  {
    var all := levels + [next];
    assert forall i :: 0 <= i < |levels| ==> all[i] == levels[i];
    forall i | 0 <= i < |levels| && levels[i] == next
      ensures next.None? || !DistinctLevels(all)
    {
      assert all[i] == all[|levels|];
    }
  }

  lemma NoLevels()
    ensures LevelsSeen([], {}, false)
  {
  }

  lemma AllSeen(levels: seq<Option<int>>, used: set<int>, duplicates: bool)
    requires LevelsSeen(levels, used, duplicates)
    ensures duplicates || |used| < |levels| <==> !(DistinctLevels(levels) && AllLevels(levels))
  {
    LevelCountFull(levels);
  }
}
