/**
  The grammar of the story half, written down apart from the parser, and its relation to it: the parser makes no
  report exactly on the texts of the grammar, and then returns the one reading of the text.
*/
module BlockTheorems {
  import opened Wrappers
  import ConditionParser
  import ActionParser
  import ConditionGrammar
  import ActionGrammar
  import opened BlockGrammar

  // ---------- The text of a tree ----------

  function Print(i: Item): (ts: seq<Token>)
    ensures ts != []
    decreases i, 1
  {
    match i
    case Clause(key, operand) => [key] + operand
    case Section(key, b, head, items) => [key] + (head + (PrintAll(items) + [Close(b)]))
    case ForLoop(head, source, b, items) =>
      [Key(For)] + (head + (Print(source) + ([LBrace] + (PrintAll(items) + [Close(b)]))))
  }

  function PrintAll(items: seq<Item>): seq<Token>
    decreases items, 0
  {
    if items == [] then [] else Print(items[0]) + PrintAll(items[1..])
  }

  // ---------- Words ----------

  predicate Starts(c: Class, ts: seq<Token>) {
    ts != [] && Is(c, ts[0])
  }

  /** `w` is made of the words asked for, and of every optional one that was there to take. */
  predicate Fits(slots: seq<Slot>, w: seq<Token>, after: seq<Token>)
    decreases |slots|
  {
    if slots == [] then w == []
    else if Starts(slots[0].what, w) then Fits(slots[1..], w[1..], after)
    else slots[0].Want? && !Starts(slots[0].what, w + after) && Fits(slots[1..], w, after)
  }

  lemma {:induction false} TakeFits(slots: seq<Slot>, w: seq<Token>, after: seq<Token>)
    requires Fits(slots, w, after)
    ensures Take(slots, w + after) == Parsed(Some(w), after, 0, false)
    decreases |slots|
  {
    hide Sound;
    var ts := w + after;
    if slots == [] {
      assert ts == after;
    } else if Starts(slots[0].what, w) {
      assert ts[1..] == w[1..] + after && [w[0]] + w[1..] == w;
      TakeFits(slots[1..], w[1..], after);
    } else {
      TakeFits(slots[1..], w, after);
      assert [] + w == w;
    }
  }

  lemma {:induction false} CleanFits(slots: seq<Slot>, ts: seq<Token>)
    requires Clean(Take(slots, ts))
    ensures Fits(slots, Take(slots, ts).value.value, Take(slots, ts).rest) && ts == Take(slots, ts).value.value + Take(slots, ts).rest
    decreases |slots|
  {
    if slots != [] {
      if ts != [] && Is(slots[0].what, ts[0]) {
        CleanFits(slots[1..], ts[1..]);
        var tail := Take(slots[1..], ts[1..]).value.value;
        assert ([ts[0]] + tail)[1..] == tail;
      } else {
        CleanFits(slots[1..], ts);
        assert [] + Take(slots[1..], ts).value.value == Take(slots[1..], ts).value.value;
      }
    }
  }

  predicate ParamsOk(w: seq<Token>) {
    forall i :: 0 <= i < |w| ==> NameLike(w[i]) || w[i] == Comma
  }

  lemma {:induction false} TakeParamsOk(w: seq<Token>, after: seq<Token>)
    requires ParamsOk(w) && Next(after, RParen)
    ensures TakeParams(w + after) == Parsed(Some(w), after, 0, false)
    decreases |w|
  {
    hide Sound;
    var ts := w + after;
    if w == [] {
      assert ts == after;
    } else {
      assert ts[1..] == w[1..] + after && ts[..1] == w[..1] && w[..1] + w[1..] == w;
      TakeParamsOk(w[1..], after);
    }
  }

  lemma {:induction false} CleanParamsOk(ts: seq<Token>)
    requires Clean(TakeParams(ts))
    ensures ParamsOk(TakeParams(ts).value.value)
    decreases |ts|
  {
    hide Sound;
    if ts != [] && ts[0] != RParen {
      CleanParamsOk(ts[1..]);
    }
  }

  /** Strings, commas and dotted names. */
  predicate ArgsOk(w: seq<Token>)
    decreases |w|, 0
  {
    || w == []
    || (NameLike(w[0]) && DotsOk(w[1..]))
    || ((w[0].Str? || w[0] == Comma) && ArgsOk(w[1..]))
  }

  predicate DotsOk(w: seq<Token>)
    decreases |w|, 1
  {
    if Next(w, Dot) then |w| > 1 && NameLike(w[1]) && DotsOk(w[2..]) else ArgsOk(w)
  }

  lemma {:induction false} TakeArgsOk(w: seq<Token>, after: seq<Token>)
    requires ArgsOk(w) && Next(after, RParen)
    ensures TakeArgs(w + after) == Parsed(Some(w), after, 0, false)
    decreases |w|, 0
  {
    hide Sound;
    var ts := w + after;
    if w == [] {
      assert ts == after;
    } else {
      assert ts[1..] == w[1..] + after && ts[..1] == w[..1] && w[..1] + w[1..] == w;
      if NameLike(w[0]) {
        TakeDotsOk(w[1..], after);
      } else {
        TakeArgsOk(w[1..], after);
      }
    }
  }

  lemma {:induction false} TakeDotsOk(w: seq<Token>, after: seq<Token>)
    requires DotsOk(w) && Next(after, RParen)
    ensures TakeDots(w + after) == Parsed(Some(w), after, 0, false)
    decreases |w|, 1
  {
    hide Sound, NameLike;
    var ts := w + after;
    if Next(w, Dot) {
      assert ts[2..] == w[2..] + after && ts[..2] == w[..2] && w[..2] + w[2..] == w;
      TakeDotsOk(w[2..], after);
    } else {
      assert !Next(ts, Dot);
      TakeArgsOk(w, after);
    }
  }

  lemma {:induction false} CleanArgsOk(ts: seq<Token>)
    requires Clean(TakeArgs(ts))
    ensures ArgsOk(TakeArgs(ts).value.value)
    decreases |ts|, 0
  {
    hide Sound, NameLike;
    if ts != [] && ts[0] != RParen {
      if NameLike(ts[0]) {
        CleanDotsOk(ts[1..]);
        var tail := TakeDots(ts[1..]).value.value;
        assert (ts[..1] + tail)[1..] == tail;
      } else {
        CleanArgsOk(ts[1..]);
        var tail := TakeArgs(ts[1..]).value.value;
        assert (ts[..1] + tail)[1..] == tail;
      }
    }
  }

  lemma {:induction false} CleanDotsOk(ts: seq<Token>)
    requires Clean(TakeDots(ts))
    ensures DotsOk(TakeDots(ts).value.value)
    decreases |ts|, 1
  {
    hide Sound, NameLike;
    if Next(ts, Dot) {
      CleanDotsOk(ts[2..]);
      var tail := TakeDots(ts[2..]).value.value;
      assert (ts[..2] + tail)[2..] == tail;
    } else {
      CleanArgsOk(ts);
    }
  }

  // ---------- Lists ----------

  /** Strings, each with or without a comma behind it. */
  predicate Elements(w: seq<Token>)
    decreases |w|
  {
    w == [] || (w[0].Str? && Elements(if Next(w[1..], Comma) then w[2..] else w[1..]))
  }

  predicate ListOk(w: seq<Token>) {
    |w| >= 2 && w[0] == LBracket && w[|w| - 1] == RBracket && Elements(w[1..|w| - 1])
  }

  lemma AsConditionTail(ts: seq<Token>, k: nat)
    requires k <= |ts|
    ensures AsCondition(ts)[k..] == AsCondition(ts[k..])
  {
  }

  /** One round of the list loop, on these tokens. */
  lemma RoundOnTokens(ts: seq<Token>)
    requires ts != [] && ts[0].Str?
    ensures ConditionParser.ListRound(AsCondition(ts)) == AsCondition(if Next(ts[1..], Comma) then ts[2..] else ts[1..])
    ensures ConditionParser.ExpectString(AsCondition(ts)).errs == 0
  {
    AsConditionTail(ts, 1);
    if |ts| > 1 {
      AsConditionTail(ts, 2);
    }
  }

  lemma {:induction false} ElementsAreRead(w: seq<Token>, after: seq<Token>)
    requires Elements(w) && Next(after, RBracket)
    ensures var ts := AsCondition(w + after);
            ConditionParser.StringsAndCommas(ts) && ConditionParser.ParseElements(ts).rest == AsCondition(after)
            && ConditionParser.ParseElements(ts).errs == 0
    decreases |w|
  {
    hide ConditionParser.ListRound, ConditionParser.ExpectString, ConditionParser.StringsAndCommas, ConditionParser.ParseElements;
    var ts := w + after;
    if w == [] {
      assert ts == after;
      ListEnd(AsCondition(after));
    } else {
      var k := if Next(w[1..], Comma) then 2 else 1;
      assert ts[k..] == w[k..] + after;
      assert Next(ts[1..], Comma) == Next(w[1..], Comma);
      ElementsAreRead(w[k..], after);
      RoundOnTokens(ts);
      ListStep(AsCondition(ts));
      ConditionParser.ElementsStep(AsCondition(ts), []);
    }
  }

  lemma ListEnd(ts: seq<ConditionParser.Token>)
    requires ConditionParser.ListEnds(ts)
    ensures ConditionParser.StringsAndCommas(ts) && ConditionParser.ParseElements(ts) == ConditionParser.Parsed([], ts, 0)
  {
  }

  lemma ListStep(ts: seq<ConditionParser.Token>)
    requires ts != [] && ts[0].TokString?
    ensures ConditionParser.StringsAndCommas(ts) == ConditionParser.StringsAndCommas(ConditionParser.ListRound(ts))
  {
    ConditionParser.RoundKeepsShape(ts);
  }

  lemma {:induction false} CleanElements(ts: seq<Token>)
    requires ConditionParser.StringsAndCommas(AsCondition(ts)) && ConditionParser.ParseElements(AsCondition(ts)).errs == 0
    ensures var n := |ts| - |ConditionParser.ParseElements(AsCondition(ts)).rest|;
            n >= 0 && Elements(ts[..n]) && (n < |ts| ==> ts[n] == RBracket)
    decreases |ts|
  {
    hide ConditionParser.ListRound, ConditionParser.ParseElements;
    if ConditionParser.ListEnds(AsCondition(ts)) {
      ListEnd(AsCondition(ts));
    } else {
      ConditionParser.ElementsStep(AsCondition(ts), []);
      assert ts[0].Str?;
      RoundOnTokens(ts);
      var k := if Next(ts[1..], Comma) then 2 else 1;
      CleanElements(ts[k..]);
      var n := |ts| - |ConditionParser.ParseElements(AsCondition(ts)).rest|;
      assert |ConditionParser.ParseElements(AsCondition(ts[k..])).rest| == |ts| - n;
      ElementsBefore(ts, k, n);
    }
  }

  lemma ElementsBefore(ts: seq<Token>, k: nat, n: nat)
    requires k <= n <= |ts| && ts != [] && ts[0].Str? && k == (if Next(ts[1..], Comma) then 2 else 1)
    requires Elements(ts[k..][..n - k])
    ensures Elements(ts[..n]) && (n < |ts| ==> ts[k..][n - k] == ts[n])
  {
    assert ts[..n][1..] == ts[1..n] && ts[..n][k..] == ts[k..][..n - k];
    assert Next(ts[1..n], Comma) == (k == 2);
  }

  lemma TakeListOk(w: seq<Token>, after: seq<Token>)
    requires ListOk(w)
    ensures TakeList(w + after) == Parsed(Some(w), after, 0, false)
  {
    hide ConditionParser.ParseElements, ConditionParser.StringsAndCommas, Elements;
    var ts, inner := w + after, w[1..|w| - 1];
    var close := [RBracket] + after;
    assert ts[1..] == inner + close;
    ElementsAreRead(inner, close);
    assert ts[..|ts| - |after|] == w && ts[|ts| - |after|..] == after;
  }

  lemma CleanListOk(ts: seq<Token>)
    requires Clean(TakeList(ts))
    ensures ListOk(TakeList(ts).value.value)
  {
    hide ConditionParser.ParseElements, ConditionParser.StringsAndCommas, AsCondition, Elements, Sound;
    var body := ts[1..];
    CleanElements(body);
    var n := |body| - |ConditionParser.ParseElements(AsCondition(body)).rest|;
    var w := TakeList(ts).value.value;
    assert w == ts[..n + 2] && w[1..|w| - 1] == body[..n] && w[n + 1] == body[n];
  }

  /** A list loop that hangs is one that never ends. */
  lemma ListHangsIff(ts: seq<Token>)
    ensures TakeList(ts).hangs <==> !ConditionParser.ListTerminates(AsCondition(if Next(ts, LBracket) then ts[1..] else ts))
  {
    hide ConditionParser.ListTerminates, ConditionParser.StringsAndCommas;
    ConditionParser.ListTerminatesIff(AsCondition(if Next(ts, LBracket) then ts[1..] else ts));
  }

  // ---------- Operands ----------

  predicate RefOk(w: seq<Token>, after: seq<Token>) {
    || (|w| == 1 && NameLike(w[0]) && !Next(after, Dot))
    || (|w| == 3 && NameLike(w[0]) && w[1] == Dot && NameLike(w[2]))
  }

  predicate ArgListOk(w: seq<Token>, after: seq<Token>) {
    || (w == [] && !Next(after, LParen))
    || (|w| >= 2 && w[0] == LParen && w[|w| - 1] == RParen && ArgsOk(w[1..|w| - 1]))
  }

  predicate UseOk(w: seq<Token>, after: seq<Token>) {
    if Next(w, Key(Sender)) then
      || (|w| == 2 && (w[1] == Key(Default) || w[1].Str? || w[1].Name?))
      || (|w| == 1 && !Next(after, Key(Default)) && !Starts(StringOrName, after))
    else
      |w| >= 2 && Is(AUseKind, w[0]) && NameLike(w[1]) && ArgListOk(w[2..], after)
  }

  /** What a clause may take before `after`. */
  ghost predicate OperandOk(f: Form, w: seq<Token>, after: seq<Token>)
    requires !f.Sub? && !f.Each?
  {
    match f
    case Bad => false
    case Words(slots) => Fits(slots, w, after)
    case NumberOrRef => (|w| == 1 && w[0].Int?) || RefOk(w, after)
    case List => ListOk(w)
    case ListOrText => ListOk(w) || (|w| == 1 && w[0].Str?)
    case Duration => (|w| == 1 && w[0].Time?) || (|w| == 2 && w[0].Int? && w[1].Name? && Unit(w[1].text).Some?)
    case Guard => ConditionGrammar.CondText(AsCondition(w), AsCondition(after))
    case Action => ActionGrammar.ActionText(AsAction(w), AsAction(after))
    case Otherwise => ActionGrammar.ElseText([ActionParser.TokElse] + AsAction(w), AsAction(after))
    case Using => UseOk(w, after)
  }

  /** The sub-parsers read these words exactly where the sub-grammars have them. */
  lemma GuardIsReadIff(w: seq<Token>, after: seq<Token>)
    ensures var c := ConditionParser.ParseCond(AsCondition(w + after));
            c.errs == 0 && |c.rest| == |after| <==> OperandOk(Guard, w, after)
  {
    hide ConditionParser.ParseCond, ConditionGrammar.CondText;
    assert AsCondition(w + after) == AsCondition(w) + AsCondition(after);
    ConditionGrammar.ConditionIsReadIff(AsCondition(w), AsCondition(after));
  }

  lemma ActionIsReadIff(w: seq<Token>, after: seq<Token>)
    ensures var a := ActionParser.ParseAction(AsAction(w + after));
            a.errs == 0 && |a.rest| == |after| <==> OperandOk(Action, w, after)
  {
    hide ActionParser.ParseAction, ActionGrammar.ActionText;
    assert AsAction(w + after) == AsAction(w) + AsAction(after);
    ActionGrammar.ActionIsReadIff(AsAction(w), AsAction(after));
  }

  lemma ElseIsReadIff(w: seq<Token>, after: seq<Token>)
    ensures var e := ActionParser.ParseElse(AsAction([Key(Else)] + (w + after)));
            e.errs == 0 && |e.rest| == |after| <==> OperandOk(Otherwise, w, after)
  {
    hide ActionParser.ParseElse, ActionGrammar.ElseText;
    assert AsAction([Key(Else)] + (w + after)) == ([ActionParser.TokElse] + AsAction(w)) + AsAction(after);
    ActionGrammar.ElseIsReadIff([ActionParser.TokElse] + AsAction(w), AsAction(after));
  }

  lemma ConsumedWords(w: seq<Token>, after: seq<Token>)
    ensures Consumed(w + after, |after|, 0) == Parsed(Some(w), after, 0, false)
  {
    var ts := w + after;
    assert ts[..|ts| - |after|] == w && ts[|ts| - |after|..] == after;
  }

  lemma OneSlot(s: Slot, w: seq<Token>, after: seq<Token>)
    requires !s.Want?
    ensures Fits([s], w, after) <==> |w| == 1 && Is(s.what, w[0])
  {
  }

  lemma TwoSlots(s: Slot, t: Slot, w: seq<Token>, after: seq<Token>)
    requires !s.Want? && !t.Want?
    ensures Fits([s, t], w, after) <==> |w| == 2 && Is(s.what, w[0]) && Is(t.what, w[1])
  {
    assert [s, t][1..] == [t];
    if w != [] {
      OneSlot(t, w[1..], after);
    }
  }

  lemma ThreeSlots(s: Slot, t: Slot, u: Slot, w: seq<Token>, after: seq<Token>)
    requires !s.Want? && !t.Want? && !u.Want?
    ensures Fits([s, t, u], w, after) <==> |w| == 3 && Is(s.what, w[0]) && Is(t.what, w[1]) && Is(u.what, w[2])
  {
    assert [s, t, u][1..] == [t, u];
    if w != [] {
      TwoSlots(t, u, w[1..], after);
    }
  }

  lemma OptionalSlot(s: Slot, c: Class, w: seq<Token>, after: seq<Token>)
    requires !s.Want?
    ensures Fits([s, Want(c)], w, after)
      <==> w != [] && Is(s.what, w[0]) && ((|w| == 2 && Is(c, w[1])) || (|w| == 1 && !Starts(c, after)))
  {
    assert [s, Want(c)][1..] == [Want(c)];
    if w != [] {
      LastOptional(c, w[1..], after);
    }
  }

  lemma LastOptional(c: Class, w: seq<Token>, after: seq<Token>)
    ensures Fits([Want(c)], w, after) <==> (|w| == 1 && Is(c, w[0])) || (w == [] && !Starts(c, after))
  {
    assert w == [] ==> w + after == after;
  }

  lemma RefTakes(w: seq<Token>, after: seq<Token>)
    requires RefOk(w, after)
    ensures Take(RefSlots(w + after), w + after) == Parsed(Some(w), after, 0, false)
  {
    hide Take, Fits;
    var ts := w + after;
    assert |w| == 1 ==> ts[1..] == after;
    OneSlot(Need(ANameLike), w, after);
    ThreeSlots(Need(ANameLike), Need(Exactly(Dot)), Need(ANameLike), w, after);
    TakeFits(RefSlots(ts), w, after);
  }

  lemma UseTakes(w: seq<Token>, after: seq<Token>)
    requires UseOk(w, after)
    ensures TakeUse(w + after) == Parsed(Some(w), after, 0, false)
  {
    hide Take, TakeArgList, UseOk;
    if Next(w, Key(Sender)) {
      SenderTakes(w, after);
    } else {
      TemplateUseTakes(w, after);
    }
  }

  lemma SenderTakes(w: seq<Token>, after: seq<Token>)
    requires UseOk(w, after) && Next(w, Key(Sender))
    ensures TakeUse(w + after) == Parsed(Some(w), after, 0, false)
  {
    hide Take, Fits;
    var ts := w + after;
    assert |w| == 1 ==> ts[1..] == after;
    TwoSlots(Need(Exactly(Key(Sender))), Need(Exactly(Key(Default))), w, after);
    OptionalSlot(Need(Exactly(Key(Sender))), StringOrName, w, after);
    TakeFits(SenderSlots(ts), w, after);
  }

  lemma TemplateUseTakes(w: seq<Token>, after: seq<Token>)
    requires UseOk(w, after) && !Next(w, Key(Sender))
    ensures TakeUse(w + after) == Parsed(Some(w), after, 0, false)
  {
    hide Take, TakeArgList, ArgsOk, Fits;
    var ts, target := w + after, w[..2];
    var tail := w[2..] + after;
    assert ts == target + tail;
    var slots := [SkipStop(AUseKind), Stop(ANameLike)];
    TwoSlots(SkipStop(AUseKind), Stop(ANameLike), target, tail);
    TakeFits(slots, target, tail);
    ArgListTakes(w[2..], after);
    assert target + w[2..] == w;
  }

  lemma ArgListTakes(w: seq<Token>, after: seq<Token>)
    requires ArgListOk(w, after)
    ensures TakeArgList(w + after) == Parsed(Some(w), after, 0, false)
  {
    hide TakeArgs, Take, Fits, ArgsOk;
    var ts := w + after;
    if w == [] {
      assert ts == after;
    } else {
      var args, close := w[1..|w| - 1], [RParen] + after;
      assert ts[1..] == args + close;
      TakeArgsOk(args, close);
      OneSlot(Need(Exactly(RParen)), [RParen], after);
      TakeFits(CloseParen, [RParen], after);
      assert ts[..1] + (args + [RParen]) == w;
    }
  }

  /** An operand of the grammar is taken as it stands, without a report... */
  lemma OperandTakes(f: Form, key: Token, w: seq<Token>, after: seq<Token>)
    requires !f.Sub? && !f.Each? && OperandOk(f, w, after)
    ensures TakeOperand(f, key, w + after) == Parsed(Some(w), after, 0, false)
  {
    hide Take, TakeList, TakeUse, UseOk, ListOk, RefOk, RefSlots, Consumed, Fits, Is,
      ConditionParser.ParseCond, ActionParser.ParseAction, ActionParser.ParseElse, ActionParser.ParseDuration, AsCondition, AsAction,
      ConditionGrammar.CondText, ActionGrammar.ActionText, ActionGrammar.ElseText;
    match f
    case Words(slots) => TakeFits(slots, w, after);
    case NumberOrRef => NumberOrRefTakes(w, after);
    case List => TakeListOk(w, after);
    case ListOrText => ListOrTextTakes(w, after);
    case Duration => DurationIsRead(w, after); ConsumedWords(w, after);
    case Guard => GuardIsReadIff(w, after); ConsumedWords(w, after);
    case Action => ActionIsReadIff(w, after); ConsumedWords(w, after);
    case Otherwise => ElseIsReadIff(w, after); ConsumedWords(w, after);
    case Using => UseTakes(w, after);
  }

  lemma NumberOrRefTakes(w: seq<Token>, after: seq<Token>)
    requires (|w| == 1 && w[0].Int?) || RefOk(w, after)
    ensures Take(NumberOrRefSlots(w + after), w + after) == Parsed(Some(w), after, 0, false)
  {
    hide Take, RefSlots, Fits;
    if RefOk(w, after) {
      RefTakes(w, after);
    } else {
      OneSlot(Need(AnInt), w, after);
      TakeFits([Need(AnInt)], w, after);
    }
  }

  lemma ListOrTextTakes(w: seq<Token>, after: seq<Token>)
    requires ListOk(w) || (|w| == 1 && w[0].Str?)
    ensures (if Next(w + after, LBracket) then TakeList(w + after) else Take([Need(AString)], w + after))
      == Parsed(Some(w), after, 0, false)
  {
    hide Take, TakeList, Fits, Elements;
    if ListOk(w) {
      TakeListOk(w, after);
    } else {
      OneSlot(Need(AString), w, after);
      TakeFits([Need(AString)], w, after);
    }
  }

  lemma DurationIsRead(w: seq<Token>, after: seq<Token>)
    requires OperandOk(Duration, w, after)
    ensures var d := ActionParser.ParseDuration(AsAction(w + after)); d.errs == 0 && |d.rest| == |after|
  {
    hide Unit;
  }

  /** ... and nothing else is taken without a report. */
  lemma CleanOperand(f: Form, key: Token, ts: seq<Token>)
    requires !f.Sub? && !f.Each? && Clean(TakeOperand(f, key, ts))
    ensures var r := TakeOperand(f, key, ts); !f.Bad? && OperandOk(f, r.value.value, r.rest) && ts == r.value.value + r.rest
  {
    hide Take, TakeList, TakeUse, UseOk, ListOk, RefOk, RefSlots, Fits, Is,
      ConditionParser.ParseCond, ActionParser.ParseAction, ActionParser.ParseElse, ActionParser.ParseDuration, AsCondition, AsAction,
      ConditionGrammar.CondText, ActionGrammar.ActionText, ActionGrammar.ElseText;
    var r := TakeOperand(f, key, ts);
    assert ts == r.value.value + r.rest;
    match f
    case Words(slots) => CleanFits(slots, ts);
    case NumberOrRef => CleanNumberOrRef(ts);
    case List => CleanListOk(ts);
    case ListOrText => CleanListOrText(ts);
    case Duration => CleanDuration(ts);
    case Guard => GuardIsReadIff(r.value.value, r.rest);
    case Action => ActionIsReadIff(r.value.value, r.rest);
    case Otherwise => ElseIsReadIff(r.value.value, r.rest);
    case Using => CleanUse(ts);
  }

  lemma CleanNumberOrRef(ts: seq<Token>)
    requires Clean(Take(NumberOrRefSlots(ts), ts))
    ensures var r := Take(NumberOrRefSlots(ts), ts); OperandOk(NumberOrRef, r.value.value, r.rest)
  {
    hide Take, Fits;
    var r := Take(NumberOrRefSlots(ts), ts);
    var w := r.value.value;
    CleanFits(NumberOrRefSlots(ts), ts);
    assert ts == w + r.rest;
    OneSlot(Need(AnInt), w, r.rest);
    OneSlot(Skip(AnInt), w, r.rest);
    OneSlot(Need(ANameLike), w, r.rest);
    ThreeSlots(Need(ANameLike), Need(Exactly(Dot)), Need(ANameLike), w, r.rest);
    assert |w| == 1 ==> ts[1..] == r.rest;
  }

  lemma CleanListOrText(ts: seq<Token>)
    requires Clean(TakeOperand(ListOrText, LBracket, ts))
    ensures OperandOk(ListOrText, TakeOperand(ListOrText, LBracket, ts).value.value, [])
  {
    hide Take, TakeList, Fits;
    if Next(ts, LBracket) {
      CleanListOk(ts);
    } else {
      CleanFits([Need(AString)], ts);
      OneSlot(Need(AString), Take([Need(AString)], ts).value.value, Take([Need(AString)], ts).rest);
    }
  }

  lemma CleanDuration(ts: seq<Token>)
    requires Clean(TakeOperand(Duration, LBracket, ts))
    ensures OperandOk(Duration, TakeOperand(Duration, LBracket, ts).value.value, [])
  {
  }

  lemma CleanUse(ts: seq<Token>)
    requires Clean(TakeUse(ts))
    ensures UseOk(TakeUse(ts).value.value, TakeUse(ts).rest)
  {
    hide Take, TakeArgList, ArgsOk, Fits;
    var r := TakeUse(ts);
    assert ts == r.value.value + r.rest;
    if Next(ts, Key(Sender)) {
      CleanSender(ts);
    } else {
      CleanTemplateUse(ts);
    }
  }

  lemma CleanSender(ts: seq<Token>)
    requires Clean(TakeUse(ts)) && Next(ts, Key(Sender))
    ensures UseOk(TakeUse(ts).value.value, TakeUse(ts).rest)
  {
    hide Take, TakeArgList, ArgsOk, Fits;
    var r := TakeUse(ts);
    var w := r.value.value;
    assert ts == w + r.rest;
    CleanFits(SenderSlots(ts), ts);
    TwoSlots(Need(Exactly(Key(Sender))), Need(Exactly(Key(Default))), w, r.rest);
    OptionalSlot(Need(Exactly(Key(Sender))), StringOrName, w, r.rest);
    assert |w| == 1 ==> ts[1..] == r.rest;
  }

  lemma CleanTemplateUse(ts: seq<Token>)
    requires Clean(TakeUse(ts)) && !Next(ts, Key(Sender))
    ensures UseOk(TakeUse(ts).value.value, TakeUse(ts).rest)
  {
    hide Take, TakeArgList, ArgsOk, Fits;
    var slots := [SkipStop(AUseKind), Stop(ANameLike)];
    var target := Take(slots, ts);
    CleanFits(slots, ts);
    TwoSlots(SkipStop(AUseKind), Stop(ANameLike), target.value.value, target.rest);
    CleanArgList(target.rest);
    var args := TakeArgList(target.rest).value.value;
    UseOfParts(target.value.value, args, TakeUse(ts).rest);
  }

  lemma UseOfParts(target: seq<Token>, args: seq<Token>, after: seq<Token>)
    requires |target| == 2 && Is(AUseKind, target[0]) && NameLike(target[1]) && ArgListOk(args, after)
    ensures UseOk(target + args, after)
  {
    assert (target + args)[2..] == args;
  }

  lemma CleanArgList(ts: seq<Token>)
    requires Clean(TakeArgList(ts))
    ensures ArgListOk(TakeArgList(ts).value.value, TakeArgList(ts).rest)
  {
    hide TakeArgs, Take, Fits, ArgsOk, ArgListOk, Sound, Suffix;
    if Next(ts, LParen) {
      var args := TakeArgs(ts[1..]);
      var close := Take(CloseParen, args.rest);
      CleanArgsOk(ts[1..]);
      CleanClose(args.rest);
      ArgListOfParts(args.value.value, close.rest);
      assert ts[..1] == [LParen];
    } else {
      NoArgList(ts);
    }
  }

  lemma CleanClose(ts: seq<Token>)
    requires Clean(Take(CloseParen, ts))
    ensures Take(CloseParen, ts).value == Some([RParen])
  {
    hide Take, Fits;
    CleanFits(CloseParen, ts);
    var r := Take(CloseParen, ts);
    OneSlot(Need(Exactly(RParen)), r.value.value, r.rest);
    assert r.value.value == [RParen];
  }

  lemma NoArgList(ts: seq<Token>)
    requires !Next(ts, LParen)
    ensures ArgListOk([], ts)
  {
  }

  lemma ArgListOfParts(args: seq<Token>, after: seq<Token>)
    requires ArgsOk(args)
    ensures ArgListOk([LParen] + (args + [RParen]), after)
  {
    hide ArgsOk;
    var w := [LParen] + (args + [RParen]);
    assert w[1..|w| - 1] == args;
  }

  // ---------- Heads ----------

  predicate TemplateOk(w: seq<Token>) {
    && |w| >= 4 && w[0].Name? && w[1] == LParen
    && ParamsOk(w[2..|w| - 2]) && w[|w| - 2] == RParen && w[|w| - 1] == LBrace
  }

  predicate HeadOk(key: Token, w: seq<Token>) {
    if key == Key(Pattern) || key == Key(Policy) then TemplateOk(w) else Fits(HeadSlots(key, w), w, [])
  }

  /** The last word is one that must be there. */
  predicate Anchored(slots: seq<Slot>) {
    slots == [] || !slots[|slots| - 1].Want?
  }

  lemma {:induction false} FitsAnywhere(slots: seq<Slot>, w: seq<Token>, after: seq<Token>)
    requires Anchored(slots)
    ensures Fits(slots, w, after) <==> Fits(slots, w, [])
    decreases |slots|
  {
    if slots != [] {
      if Starts(slots[0].what, w) {
        FitsAnywhere(slots[1..], w[1..], after);
      } else {
        FitsAnywhere(slots[1..], w, after);
        if w == [] && slots[0].Want? {
          NothingFits(slots[1..], after);
        }
      }
    }
  }

  lemma {:induction false} NothingFits(slots: seq<Slot>, after: seq<Token>)
    requires slots != [] && Anchored(slots)
    ensures !Fits(slots, [], after) && !Fits(slots, [], [])
    decreases |slots|
  {
    if |slots| > 1 {
      NothingFits(slots[1..], after);
    }
  }

  lemma {:induction false} LastWord(slots: seq<Slot>, t: Token, w: seq<Token>, after: seq<Token>)
    requires slots != [] && slots[|slots| - 1] == Need(Exactly(t)) && Fits(slots, w, after)
    ensures w != [] && w[|w| - 1] == t
    decreases |slots|
  {
    if |slots| > 1 {
      if Starts(slots[0].what, w) {
        LastWord(slots[1..], t, w[1..], after);
      } else {
        LastWord(slots[1..], t, w, after);
      }
    } else {
      OneSlot(slots[0], w, after);
    }
  }

  lemma EventFits(slots: seq<Slot>, w: seq<Token>, after: seq<Token>)
    requires |slots| >= 2 && slots[0] == SkipStop(AnEvent) && slots[|slots| - 1] == Need(Exactly(LBrace)) && Fits(slots, w, after)
    ensures |w| >= 2 && w[|w| - 1] == LBrace
  {
    LastWord(slots[1..], LBrace, w[1..], after);
  }

  /** The brace that ends an event's head keeps its words from depending on what follows. */
  lemma EventSlotsInside(w: seq<Token>, after: seq<Token>)
    requires |w| >= 2 && w[|w| - 1] == LBrace
    ensures EventSlots(w + after) == EventSlots(w)
  {
    var ts := w + after;
    assert ts[1..] == w[1..] + after;
    assert ts[1..][0] == w[1..][0];
  }

  lemma HeadSlotsInside(key: Token, w: seq<Token>, after: seq<Token>)
    requires key == Key(On) ==> |w| >= 2 && w[|w| - 1] == LBrace
    ensures HeadSlots(key, w + after) == HeadSlots(key, w)
  {
    hide EventSlots;
    if key == Key(On) {
      EventSlotsInside(w, after);
    }
  }

  lemma HeadIsAnchored(key: Token, ts: seq<Token>)
    ensures Anchored(HeadSlots(key, ts))
    ensures key == Key(On) ==>
      var slots := HeadSlots(key, ts);
      |slots| >= 2 && slots[0] == SkipStop(AnEvent) && slots[|slots| - 1] == Need(Exactly(LBrace))
  {
    hide EventOperand;
  }

  lemma HeadTakes(key: Token, w: seq<Token>, after: seq<Token>)
    requires HeadOk(key, w)
    ensures TakeHead(key, w + after) == Parsed(Some(w), after, 0, false)
  {
    hide Take, Fits, HeadSlots, TakeTemplate, TemplateOk;
    if key == Key(Pattern) || key == Key(Policy) {
      TemplateTakes(w, after);
    } else {
      HeadIsAnchored(key, w);
      if key == Key(On) {
        EventFits(HeadSlots(key, w), w, []);
      }
      HeadSlotsInside(key, w, after);
      FitsAnywhere(HeadSlots(key, w), w, after);
      TakeFits(HeadSlots(key, w), w, after);
    }
  }

  lemma CleanHead(key: Token, ts: seq<Token>)
    requires Clean(TakeHead(key, ts))
    ensures HeadOk(key, TakeHead(key, ts).value.value) && ts == TakeHead(key, ts).value.value + TakeHead(key, ts).rest
  {
    hide Take, Fits, HeadSlots, TakeTemplate, TemplateOk;
    if key == Key(Pattern) || key == Key(Policy) {
      CleanTemplate(ts);
    } else {
      var r := TakeHead(key, ts);
      var w := r.value.value;
      CleanFits(HeadSlots(key, ts), ts);
      HeadIsAnchored(key, ts);
      if key == Key(On) {
        EventFits(HeadSlots(key, ts), w, r.rest);
      }
      assert ts == w + r.rest;
      HeadSlotsInside(key, w, r.rest);
      FitsAnywhere(HeadSlots(key, ts), w, r.rest);
    }
  }

  lemma TemplateTakes(w: seq<Token>, after: seq<Token>)
    requires TemplateOk(w)
    ensures TakeTemplate(w + after) == Parsed(Some(w), after, 0, false)
  {
    hide Take, Fits, TakeParams, ParamsOk;
    var name, params, close := w[..2], w[2..|w| - 2], w[|w| - 2..];
    assert w == name + (params + close);
    assert w + after == name + (params + (close + after));
    TwoSlots(Stop(AName), Need(Exactly(LParen)), name, params + (close + after));
    TakeFits([Stop(AName), Need(Exactly(LParen))], name, params + (close + after));
    TakeParamsOk(params, close + after);
    TwoSlots(Need(Exactly(RParen)), Need(Exactly(LBrace)), close, after);
    TakeFits([Need(Exactly(RParen)), Need(Exactly(LBrace))], close, after);
  }

  lemma CleanTemplate(ts: seq<Token>)
    requires Clean(TakeTemplate(ts))
    ensures TemplateOk(TakeTemplate(ts).value.value)
  {
    hide Take, Fits, TakeParams, ParamsOk, TemplateOk;
    var name := Take([Stop(AName), Need(Exactly(LParen))], ts);
    var params := TakeParams(name.rest);
    var close := Take([Need(Exactly(RParen)), Need(Exactly(LBrace))], params.rest);
    CleanFits([Stop(AName), Need(Exactly(LParen))], ts);
    CleanParamsOk(name.rest);
    CleanFits([Need(Exactly(RParen)), Need(Exactly(LBrace))], params.rest);
    TwoSlots(Stop(AName), Need(Exactly(LParen)), name.value.value, name.rest);
    TwoSlots(Need(Exactly(RParen)), Need(Exactly(LBrace)), close.value.value, close.rest);
    TemplateOfParts(name.value.value, params.value.value, close.value.value);
  }

  lemma TemplateOfParts(name: seq<Token>, params: seq<Token>, close: seq<Token>)
    requires |name| == 2 && name[0].Name? && name[1] == LParen && ParamsOk(params)
    requires |close| == 2 && close[0] == RParen && close[1] == LBrace
    ensures TemplateOk(name + (params + close))
  {
    hide ParamsOk;
    var w := name + (params + close);
    assert w[2..|w| - 2] == params;
  }

  // ---------- Blocks ----------

  ghost predicate ClauseOk(f: Form, w: seq<Token>, after: seq<Token>) {
    !f.Bad? && !f.Sub? && !f.Each? && OperandOk(f, w, after)
  }

  /** What a block may hold; `after` is the text behind it. */
  ghost predicate Grammatical(b: Block, items: seq<Item>, after: seq<Token>)
    decreases items, 0
  {
    items == [] || (ItemOk(b, items[0], PrintAll(items[1..]) + after) && Grammatical(b, items[1..], after))
  }

  ghost predicate ItemOk(b: Block, i: Item, after: seq<Token>)
    decreases i, 1
  {
    match i
    case Clause(key, w) => ClauseOk(FormOf(b, key), w, after)
    case Section(key, inner, head, items) =>
      FormOf(b, key) == Sub(inner) && HeadOk(key, head) && Grammatical(inner, items, [Close(inner)] + after)
    case ForLoop(head, source, inner, items) =>
      && FormOf(b, Key(For)) == Each(inner) && |head| == 2 && NameLike(head[0]) && head[1] == Key(In)
      && SourceOk(source, [LBrace] + (PrintAll(items) + ([Close(inner)] + after)))
      && Grammatical(inner, items, [Close(inner)] + after)
  }

  /** The data of a loop: an array, or a name. */
  ghost predicate SourceOk(i: Item, after: seq<Token>)
    decreases i, 1
  {
    match i
    case Clause(key, w) => NameLike(key) && w == []
    case Section(key, inner, head, items) =>
      key == LBracket && inner == InlineArray && head == [] && Grammatical(inner, items, [Close(inner)] + after)
    case ForLoop(_, _, _, _) => false
  }

  lemma ClosingIsNoClause(b: Block, t: Token)
    requires Closes(b, t)
    ensures FormOf(b, t) == Bad
  {
  }

  lemma ItemsStep(b: Block, ts: seq<Token>)
    requires !Ended(b, ts)
    ensures var one := ParseClause(b, ts); ParseItems(b, ts) == Joined(one, ParseItems(b, one.rest))
  {
    hide Sound, Suffix;
  }

  /** A text of the grammar is read as the tree it was printed from, and what follows is read next. */
  lemma {:induction false} PrintedItems(b: Block, items: seq<Item>, after: seq<Token>)
    requires Grammatical(b, items, after)
    ensures var r := ParseItems(b, after);
            ParseItems(b, PrintAll(items) + after) == r.(value := items + r.value)
    decreases items, 0
  {
    hide Sound, Suffix, FormOf, Print, ItemOk, ParseClause, ParseItems, Ended;
    if items == [] {
      assert PrintAll(items) + after == after;
      var r := ParseItems(b, after);
      assert [] + r.value == r.value;
    } else {
      var tail := PrintAll(items[1..]) + after;
      PrintedItem(b, items[0], tail);
      NotEnded(b, items[0], tail);
      PrintedItems(b, items[1..], after);
      PrintedStep(b, items, after);
    }
  }

  lemma PrintedStep(b: Block, items: seq<Item>, after: seq<Token>)
    requires items != []
    requires var ts, tail := Print(items[0]) + (PrintAll(items[1..]) + after), PrintAll(items[1..]) + after;
             !Ended(b, ts) && ParseClause(b, ts) == Parsed(Some(items[0]), tail, 0, false)
    requires var r := ParseItems(b, after);
             ParseItems(b, PrintAll(items[1..]) + after) == r.(value := items[1..] + r.value)
    ensures var r := ParseItems(b, after);
            ParseItems(b, PrintAll(items) + after) == r.(value := items + r.value)
  {
    hide Sound, Suffix, Print, PrintAll, ParseClause, ParseItems, Ended, Joined;
    var r := ParseItems(b, after);
    PrintFirst(items, after);
    ItemsStep(b, PrintAll(items) + after);
    JoinFirst(items, PrintAll(items[1..]) + after, r);
  }

  lemma PrintFirst(items: seq<Item>, after: seq<Token>)
    requires items != []
    ensures PrintAll(items) + after == Print(items[0]) + (PrintAll(items[1..]) + after)
  {
    hide Print;
  }

  lemma JoinFirst(items: seq<Item>, tail: seq<Token>, r: Parsed<seq<Item>>)
    requires items != []
    ensures Joined(Parsed(Some(items[0]), tail, 0, false), r.(value := items[1..] + r.value)) == r.(value := items + r.value)
  {
    assert [items[0]] + (items[1..] + r.value) == items + r.value;
  }

  lemma NotEnded(b: Block, i: Item, after: seq<Token>)
    requires ItemOk(b, i, after)
    ensures !Ended(b, Print(i) + after)
  {
    hide FormOf, OperandOk, HeadOk, Grammatical, SourceOk, PrintAll;
    var t := (Print(i) + after)[0];
    if Closes(b, t) {
      ClosingIsNoClause(b, t);
    }
  }

  lemma InnerIsNoScript(b: Block, t: Token)
    ensures FormOf(b, t) != Sub(Script) && FormOf(b, t) != Each(Script)
  {
  }

  lemma {:induction false} PrintedItem(b: Block, i: Item, after: seq<Token>)
    requires ItemOk(b, i, after)
    ensures ParseClause(b, Print(i) + after) == Parsed(Some(i), after, 0, false)
    decreases i, 1
  {
    hide Sound, Suffix, FormOf, OperandOk, HeadOk, Grammatical, SourceOk, PrintAll, ParseClause, ParseSection, ParseFor, Print;
    match i
    case Clause(key, w) => PrintedClause(b, key, w, after);
    case Section(key, inner, head, items) =>
      InnerIsNoScript(b, key);
      PrintedSection(i, after);
      SectionIsClause(b, i, after);
    case ForLoop(head, source, inner, items) =>
      InnerIsNoScript(b, Key(For));
      PrintedFor(i, after);
      ForIsClause(b, i, after);
  }

  lemma PrintedClause(b: Block, key: Token, w: seq<Token>, after: seq<Token>)
    requires ClauseOk(FormOf(b, key), w, after)
    ensures ParseClause(b, Print(Clause(key, w)) + after) == Parsed(Some(Clause(key, w)), after, 0, false)
  {
    hide Sound, Suffix, FormOf, OperandOk, TakeOperand;
    var ts := Print(Clause(key, w)) + after;
    assert ts[1..] == w + after;
    OperandTakes(FormOf(b, key), key, w, after);
  }

  lemma SectionIsClause(b: Block, i: Item, after: seq<Token>)
    requires i.Section? && FormOf(b, i.key) == Sub(i.block)
    requires ParseSection(i.key, i.block, i.head + (PrintAll(i.items) + ([Close(i.block)] + after))) == Parsed(Some(i), after, 0, false)
    ensures ParseClause(b, Print(i) + after) == Parsed(Some(i), after, 0, false)
  {
    hide Sound, Suffix, FormOf, PrintAll, ParseSection, Close;
    var ts := Print(i) + after;
    assert ts[1..] == i.head + (PrintAll(i.items) + ([Close(i.block)] + after));
  }

  lemma ForIsClause(b: Block, i: Item, after: seq<Token>)
    requires i.ForLoop? && FormOf(b, Key(For)) == Each(i.block)
    requires ParseFor(i.block, i.head + (Print(i.source) + ([LBrace] + (PrintAll(i.items) + ([Close(i.block)] + after)))))
      == Parsed(Some(i), after, 0, false)
    ensures ParseClause(b, Print(i) + after) == Parsed(Some(i), after, 0, false)
  {
    hide Sound, Suffix, FormOf, PrintAll, ParseFor, Close;
    var ts := Print(i) + after;
    assert ts[1..] == i.head + (Print(i.source) + ([LBrace] + (PrintAll(i.items) + ([Close(i.block)] + after))));
  }

  lemma ForIsFor(b: Block, t: Token)
    ensures FormOf(b, t).Each? ==> t == Key(For)
  {
  }

  lemma {:induction false} PrintedSection(i: Item, after: seq<Token>)
    requires i.Section? && i.block != Script && HeadOk(i.key, i.head) && Grammatical(i.block, i.items, [Close(i.block)] + after)
    ensures ParseSection(i.key, i.block, i.head + (PrintAll(i.items) + ([Close(i.block)] + after))) == Parsed(Some(i), after, 0, false)
    decreases i, 0
  {
    hide Sound, Suffix, HeadOk, Grammatical, TakeHead, PrintAll, ParseItems, Close;
    var close := [Close(i.block)] + after;
    HeadTakes(i.key, i.head, PrintAll(i.items) + close);
    PrintedItems(i.block, i.items, close);
    BodyEnds(i.block, i.items, after);
  }

  /** The clauses of a block end at its closing token. */
  lemma BodyEnds(b: Block, items: seq<Item>, after: seq<Token>)
    requires b != Script
    requires var r := ParseItems(b, [Close(b)] + after);
             ParseItems(b, PrintAll(items) + ([Close(b)] + after)) == r.(value := items + r.value)
    ensures ParseItems(b, PrintAll(items) + ([Close(b)] + after)) == Parsed(items, [Close(b)] + after, 0, false)
    ensures ([Close(b)] + after)[1..] == after
  {
    hide Sound, Suffix, PrintAll, Close;
    assert Ended(b, [Close(b)] + after);
    assert items + [] == items;
  }

  lemma {:induction false} PrintedFor(i: Item, after: seq<Token>)
    requires i.ForLoop? && i.block != Script
    requires |i.head| == 2 && NameLike(i.head[0]) && i.head[1] == Key(In)
    requires SourceOk(i.source, [LBrace] + (PrintAll(i.items) + ([Close(i.block)] + after)))
    requires Grammatical(i.block, i.items, [Close(i.block)] + after)
    ensures ParseFor(i.block, i.head + (Print(i.source) + ([LBrace] + (PrintAll(i.items) + ([Close(i.block)] + after)))))
      == Parsed(Some(i), after, 0, false)
    decreases i, 0
  {
    hide Sound, Suffix, Grammatical, SourceOk, PrintAll, Print, ParseItems, ParseSource, Close, Take, Fits;
    var close := [Close(i.block)] + after;
    var body := [LBrace] + (PrintAll(i.items) + close);
    TwoSlots(ForHead[0], ForHead[1], i.head, Print(i.source) + body);
    TakeFits(ForHead, i.head, Print(i.source) + body);
    PrintedSource(i.source, body);
    OneSlot(Need(Exactly(LBrace)), [LBrace], PrintAll(i.items) + close);
    TakeFits(OpenBrace, [LBrace], PrintAll(i.items) + close);
    PrintedItems(i.block, i.items, close);
    BodyEnds(i.block, i.items, after);
  }

  lemma {:induction false} PrintedSource(i: Item, after: seq<Token>)
    requires SourceOk(i, after)
    ensures ParseSource(Print(i) + after) == Parsed(Some(i), after, 0, false)
    decreases i, 1
  {
    hide Sound, Suffix, Grammatical, PrintAll, ParseSection;
    var ts := Print(i) + after;
    if i.Section? {
      assert ts[1..] == i.head + (PrintAll(i.items) + ([Close(i.block)] + after));
      PrintedSection(i, after);
    } else {
      assert ts[1..] == after;
    }
  }

  // ---------- The other direction ----------

  /** What is read without a report is a text of the grammar, and the tree says all of it. */
  lemma {:induction false} CleanItems(b: Block, ts: seq<Token>)
    requires Clean(ParseItems(b, ts))
    ensures var r := ParseItems(b, ts);
            ts == PrintAll(r.value) + r.rest && Grammatical(b, r.value, r.rest)
    decreases |ts|, 2
  {
    hide Sound, Suffix, FormOf, Print, ItemOk, ParseClause;
    if !Ended(b, ts) {
      hide ParseItems, Grammatical, PrintAll;
      var one := ParseClause(b, ts);
      ItemsStep(b, ts);
      CleanItem(b, ts);
      CleanItems(b, one.rest);
      var more := ParseItems(b, one.rest);
      ItemsOfParts(b, one.value.value, more.value, more.rest);
    }
  }

  lemma ItemsOfParts(b: Block, first: Item, items: seq<Item>, after: seq<Token>)
    requires ItemOk(b, first, PrintAll(items) + after) && Grammatical(b, items, after)
    ensures Grammatical(b, [first] + items, after) && PrintAll([first] + items) + after == Print(first) + (PrintAll(items) + after)
  {
    hide ItemOk, Print;
    var all := [first] + items;
    assert all[0] == first && all[1..] == items;
  }

  lemma {:induction false} CleanItem(b: Block, ts: seq<Token>)
    requires ts != [] && Clean(ParseClause(b, ts))
    ensures var r := ParseClause(b, ts);
            ts == Print(r.value.value) + r.rest && ItemOk(b, r.value.value, r.rest)
    decreases |ts|, 1
  {
    hide Sound, Suffix, FormOf, Print, ItemOk, SectionRead, ForRead, TakeOperand, ParseSection, ParseFor;
    var f := FormOf(b, ts[0]);
    InnerIsNoScript(b, ts[0]);
    if f.Sub? {
      CleanSection(ts[0], f.inner, ts[1..]);
      var r := ParseSection(ts[0], f.inner, ts[1..]);
      SectionIsItem(b, ts, r.value.value, r.rest);
    } else if f.Each? {
      CleanFor(f.inner, ts[1..]);
      var r := ParseFor(f.inner, ts[1..]);
      ForIsItem(b, ts, r.value.value, r.rest);
    } else {
      CleanOperand(f, ts[0], ts[1..]);
      var r := TakeOperand(f, ts[0], ts[1..]);
      ClauseIsItem(b, ts, r.value.value, r.rest);
    }
  }

  lemma ClauseIsItem(b: Block, ts: seq<Token>, w: seq<Token>, rest: seq<Token>)
    requires ts != [] && ts[1..] == w + rest && ClauseOk(FormOf(b, ts[0]), w, rest)
    ensures ts == Print(Clause(ts[0], w)) + rest && ItemOk(b, Clause(ts[0], w), rest)
  {
    hide FormOf, ClauseOk;
    assert ts == [ts[0]] + ts[1..];
  }

  lemma SectionIsItem(b: Block, ts: seq<Token>, i: Item, rest: seq<Token>)
    requires ts != [] && FormOf(b, ts[0]).Sub? && SectionRead(ts[0], FormOf(b, ts[0]).inner, ts[1..], i, rest)
    ensures ts == Print(i) + rest && ItemOk(b, i, rest)
  {
    hide FormOf, HeadOk, Grammatical, PrintAll, Close;
    assert ts == [ts[0]] + ts[1..];
  }

  lemma ForIsItem(b: Block, ts: seq<Token>, i: Item, rest: seq<Token>)
    requires ts != [] && FormOf(b, ts[0]).Each? && ForRead(FormOf(b, ts[0]).inner, ts[1..], i, rest)
    ensures ts == Print(i) + rest && ItemOk(b, i, rest)
  {
    hide FormOf, SourceOk, Grammatical, PrintAll, Close;
    ForIsFor(b, ts[0]);
    assert ts == [ts[0]] + ts[1..];
  }

  ghost predicate SectionRead(key: Token, inner: Block, ts: seq<Token>, i: Item, rest: seq<Token>) {
    && i.Section? && i.key == key && i.block == inner
    && ts == i.head + (PrintAll(i.items) + ([Close(inner)] + rest))
    && HeadOk(key, i.head) && Grammatical(inner, i.items, [Close(inner)] + rest)
  }

  lemma {:induction false} CleanSection(key: Token, inner: Block, ts: seq<Token>)
    requires inner != Script && Clean(ParseSection(key, inner, ts))
    ensures SectionRead(key, inner, ts, ParseSection(key, inner, ts).value.value, ParseSection(key, inner, ts).rest)
    decreases |ts|, 3
  {
    hide Sound, Suffix, HeadOk, Grammatical, TakeHead, PrintAll, ParseItems, Close, Ended;
    var head := TakeHead(key, ts);
    CleanHead(key, ts);
    var body := ParseItems(inner, head.rest);
    CleanItems(inner, head.rest);
    assert body.rest == [Close(inner)] + body.rest[1..];
  }

  ghost predicate ForRead(inner: Block, ts: seq<Token>, i: Item, rest: seq<Token>) {
    && i.ForLoop? && i.block == inner
    && ts == i.head + (Print(i.source) + ([LBrace] + (PrintAll(i.items) + ([Close(inner)] + rest))))
    && |i.head| == 2 && NameLike(i.head[0]) && i.head[1] == Key(In)
    && SourceOk(i.source, [LBrace] + (PrintAll(i.items) + ([Close(inner)] + rest)))
    && Grammatical(inner, i.items, [Close(inner)] + rest)
  }

  lemma {:induction false} CleanFor(inner: Block, ts: seq<Token>)
    requires inner != Script && Clean(ParseFor(inner, ts))
    ensures ForRead(inner, ts, ParseFor(inner, ts).value.value, ParseFor(inner, ts).rest)
    decreases |ts|, 5
  {
    hide Sound, Suffix, Grammatical, SourceOk, PrintAll, Print, ParseItems, ParseSource, ParseForBody, Close, Take, Fits;
    var head := Take(ForHead, ts);
    var source := ParseSource(head.rest);
    CleanFits(ForHead, ts);
    TwoSlots(ForHead[0], ForHead[1], head.value.value, head.rest);
    CleanSource(head.rest);
    CleanForBody(inner, head.value.value, source.value.value, source.rest);
  }

  lemma {:induction false} CleanForBody(inner: Block, head: seq<Token>, source: Item, ts: seq<Token>)
    requires inner != Script && Clean(ParseForBody(inner, head, source, ts))
    ensures
      var r := ParseForBody(inner, head, source, ts);
      && r.value.value.ForLoop? && r.value.value.head == head && r.value.value.source == source && r.value.value.block == inner
      && ts == [LBrace] + (PrintAll(r.value.value.items) + ([Close(inner)] + r.rest))
      && Grammatical(inner, r.value.value.items, [Close(inner)] + r.rest)
    decreases |ts|, 3
  {
    hide Sound, Suffix, Grammatical, PrintAll, ParseItems, Close, Take, Fits, Ended;
    var open := Take(OpenBrace, ts);
    NeverGivesUp(OpenBrace, ts);
    CleanFits(OpenBrace, ts);
    OneSlot(Need(Exactly(LBrace)), open.value.value, open.rest);
    assert open.value.value == [LBrace];
    var body := ParseItems(inner, open.rest);
    CleanItems(inner, open.rest);
    assert body.rest == [Close(inner)] + body.rest[1..];
  }

  lemma {:induction false} CleanSource(ts: seq<Token>)
    requires Clean(ParseSource(ts))
    ensures var r := ParseSource(ts);
            ts == Print(r.value.value) + r.rest && SourceOk(r.value.value, r.rest)
    decreases |ts|, 4
  {
    hide Sound, Suffix, Grammatical, PrintAll, ParseSection;
    assert ts == [ts[0]] + ts[1..];
    if Next(ts, LBracket) {
      CleanSection(LBracket, InlineArray, ts[1..]);
      NoHeadWords(ParseSection(LBracket, InlineArray, ts[1..]).value.value.head);
    }
  }

  lemma NoHeadWords(w: seq<Token>)
    requires HeadOk(LBracket, w)
    ensures w == []
  {
  }

  // ---------- Scripts ----------

  /** A script is read as this tree without a report exactly when it is a text of the grammar for this tree. */
  lemma ScriptIff(ts: seq<Token>, items: seq<Item>)
    ensures ParseItems(Script, ts) == Parsed(items, [], 0, false) <==> ts == PrintAll(items) && Grammatical(Script, items, [])
  {
    hide Sound, Suffix, Grammatical, PrintAll;
    var r := ParseItems(Script, ts);
    WholeStreamIsRead(ts);
    if Clean(r) {
      CleanItems(Script, ts);
      assert PrintAll(r.value) + [] == PrintAll(r.value);
    }
    if ts == PrintAll(items) && Grammatical(Script, items, []) {
      PrintedItems(Script, items, []);
      assert PrintAll(items) + [] == ts && items + [] == items;
    }
  }

  /** Whatever the script holds, the parser goes on to its end. */
  lemma WholeStreamIsRead(ts: seq<Token>)
    ensures ParseItems(Script, ts).rest == []
  {
  }

  /** A report is made, or a list loop entered that never ends, exactly on texts outside the grammar. */
  lemma ReportsIff(ts: seq<Token>)
    ensures Clean(ParseItems(Script, ts)) <==> exists items :: Grammatical(Script, items, []) && ts == PrintAll(items)
  {
    hide Grammatical, PrintAll, ParseItems;
    var r := ParseItems(Script, ts);
    WholeStreamIsRead(ts);
    ScriptIff(ts, r.value);
    forall items | Grammatical(Script, items, []) && ts == PrintAll(items)
      ensures Clean(r)
    {
      ScriptIff(ts, items);
    }
  }

  /** No script can be read in two ways. */
  lemma Unambiguous(xs: seq<Item>, ys: seq<Item>)
    requires Grammatical(Script, xs, []) && Grammatical(Script, ys, []) && PrintAll(xs) == PrintAll(ys)
    ensures xs == ys
  {
    hide Grammatical, PrintAll, ParseItems;
    ScriptIff(PrintAll(xs), xs);
    ScriptIff(PrintAll(xs), ys);
  }

  /** An unexpected token between two clauses of a block costs one report, and no clause. */
  lemma JunkCostsOneReport(b: Block, xs: seq<Item>, junk: Token, ys: seq<Item>, after: seq<Token>)
    requires Grammatical(b, xs, [junk] + (PrintAll(ys) + after)) && Grammatical(b, ys, after) && Ended(b, after)
    requires FormOf(b, junk).Bad? && !Closes(b, junk)
    ensures ParseItems(b, PrintAll(xs) + ([junk] + (PrintAll(ys) + after))) == Parsed(xs + ys, after, 1, false)
  {
    hide Sound, Suffix, Grammatical, PrintAll, ParseItems, FormOf, Closes;
    var tail := PrintAll(ys) + after;
    PrintedItems(b, xs, [junk] + tail);
    PrintedItems(b, ys, after);
    NothingLeft(b, after);
    JunkStep(b, junk, tail);
    assert ys + [] == ys;
  }

  lemma NothingLeft(b: Block, ts: seq<Token>)
    requires Ended(b, ts)
    ensures ParseItems(b, ts) == Parsed([], ts, 0, false)
  {
  }

  lemma JunkStep(b: Block, junk: Token, tail: seq<Token>)
    requires FormOf(b, junk).Bad? && !Closes(b, junk)
    ensures var r := ParseItems(b, tail); ParseItems(b, [junk] + tail) == r.(errs := 1 + r.errs)
  {
    hide Sound, Suffix, FormOf, ParseItems, Closes;
    var ts := [junk] + tail;
    assert ts[1..] == tail;
    ItemsStep(b, ts);
    assert ParseClause(b, ts) == Parsed(None, tail, 1, false);
    assert [] + ParseItems(b, tail).value == ParseItems(b, tail).value;
  }

  // ---------- Termination ----------

  predicate FlatList(ts: seq<Token>) {
    ConditionParser.StringsAndCommas(AsCondition(if Next(ts, LBracket) then ts[1..] else ts))
  }

  /** Every list holds only strings and commas. The words after `tags` are a list, even without a bracket. */
  predicate ListsAreFlat(ts: seq<Token>)
    decreases |ts|
  {
    || ts == []
    || (&& (ts[0] == Key(Tags) ==> FlatList(ts[1..]))
        && ((ts[0] == Key(MustHave) || ts[0] == Key(MustNotHave)) && Next(ts[1..], LBracket) ==> FlatList(ts[1..]))
        && ListsAreFlat(ts[1..]))
  }

  lemma {:induction false} FlatSuffix(ts: seq<Token>, k: nat)
    requires ListsAreFlat(ts) && k <= |ts|
    ensures ListsAreFlat(ts[k..])
    decreases |ts|
  {
    hide FlatList;
    if k > 0 {
      FlatSuffix(ts[1..], k - 1);
      assert ts[1..][k - 1..] == ts[k..];
    }
  }

  lemma SuffixIsFlat(r: seq<Token>, ts: seq<Token>)
    requires ListsAreFlat(ts) && Suffix(r, ts)
    ensures ListsAreFlat(r)
  {
    hide ListsAreFlat;
    FlatSuffix(ts, |ts| - |r|);
  }

  lemma ListForms(b: Block, t: Token)
    ensures FormOf(b, t).List? ==> t == Key(Tags)
    ensures FormOf(b, t).ListOrText? ==> t == Key(MustHave) || t == Key(MustNotHave)
  {
  }

  /** The parser ends on every token stream whose lists hold only strings and commas. */
  lemma {:induction false} NeverHangs(b: Block, ts: seq<Token>)
    requires ListsAreFlat(ts)
    ensures !ParseItems(b, ts).hangs
    decreases |ts|, 2
  {
    hide ListsAreFlat, ParseClause;
    if !Ended(b, ts) {
      ClauseNeverHangs(b, ts);
      var one := ParseClause(b, ts);
      FlatSuffix(ts, 1);
      SuffixIsFlat(one.rest, ts[1..]);
      NeverHangs(b, one.rest);
    }
  }

  lemma {:induction false} ClauseNeverHangs(b: Block, ts: seq<Token>)
    requires ts != [] && ListsAreFlat(ts)
    ensures !ParseClause(b, ts).hangs
    decreases |ts|, 1
  {
    hide FormOf, TakeOperand, ParseSection, ParseFor, ListsAreFlat;
    FlatSuffix(ts, 1);
    var f := FormOf(b, ts[0]);
    if f.Sub? {
      SectionNeverHangs(ts[0], f.inner, ts[1..]);
    } else if f.Each? {
      ForNeverHangs(f.inner, ts[1..]);
    } else {
      OperandNeverHangs(b, ts);
    }
  }

  lemma OperandNeverHangs(b: Block, ts: seq<Token>)
    requires ts != [] && ListsAreFlat(ts) && !FormOf(b, ts[0]).Sub? && !FormOf(b, ts[0]).Each?
    ensures !TakeOperand(FormOf(b, ts[0]), ts[0], ts[1..]).hangs
  {
    hide FormOf, TakeOperand, FlatList;
    ListForms(b, ts[0]);
    OnlyListsHang(FormOf(b, ts[0]), ts[0], ts[1..]);
  }

  lemma OnlyListsHang(f: Form, key: Token, ts: seq<Token>)
    requires !f.Sub? && !f.Each?
    ensures TakeOperand(f, key, ts).hangs ==> (f.List? || (f.ListOrText? && Next(ts, LBracket))) && !FlatList(ts)
  {
    hide Take, TakeUse, ConditionParser.StringsAndCommas, Sound, Suffix,
      ConditionParser.ParseCond, ActionParser.ParseAction, ActionParser.ParseElse, ActionParser.ParseDuration, AsCondition, AsAction,
      ConditionGrammar.CondText, ActionGrammar.ActionText, ActionGrammar.ElseText;
  }

  lemma {:induction false} SectionNeverHangs(key: Token, inner: Block, ts: seq<Token>)
    requires ListsAreFlat(ts)
    ensures !ParseSection(key, inner, ts).hangs
    decreases |ts|, 3
  {
    hide ListsAreFlat, TakeHead, ParseItems;
    var head := TakeHead(key, ts);
    SuffixIsFlat(head.rest, ts);
    NeverHangs(inner, head.rest);
  }

  lemma {:induction false} ForNeverHangs(inner: Block, ts: seq<Token>)
    requires ListsAreFlat(ts)
    ensures !ParseFor(inner, ts).hangs
    decreases |ts|, 5
  {
    hide ListsAreFlat, Take, ParseSource, ParseForBody;
    var head := Take(ForHead, ts);
    SuffixIsFlat(head.rest, ts);
    SourceNeverHangs(head.rest);
    var source := ParseSource(head.rest);
    SuffixIsFlat(source.rest, head.rest);
    if head.value.Some? && source.value.Some? {
      ForBodyNeverHangs(inner, head.value.value, source.value.value, source.rest);
    }
  }

  lemma {:induction false} SourceNeverHangs(ts: seq<Token>)
    requires ListsAreFlat(ts)
    ensures !ParseSource(ts).hangs
    decreases |ts|, 4
  {
    hide ListsAreFlat, ParseSection;
    if Next(ts, LBracket) {
      FlatSuffix(ts, 1);
      SectionNeverHangs(LBracket, InlineArray, ts[1..]);
    }
  }

  lemma {:induction false} ForBodyNeverHangs(inner: Block, head: seq<Token>, source: Item, ts: seq<Token>)
    requires ListsAreFlat(ts)
    ensures !ParseForBody(inner, head, source, ts).hangs
    decreases |ts|, 3
  {
    hide ListsAreFlat, Take, ParseItems;
    var open := Take(OpenBrace, ts);
    SuffixIsFlat(open.rest, ts);
    NeverHangs(inner, open.rest);
  }

  lemma TagsClause(ts: seq<Token>)
    requires ts != [] && ts[0] == Key(Tags)
    ensures ParseClause(SceneBlock, ts).hangs == TakeList(ts[1..]).hangs && !Ended(SceneBlock, ts)
  {
    hide Sound, Suffix, TakeList;
    assert FormOf(SceneBlock, ts[0]) == List;
  }

  /** A scene whose `tags` stand before anything but a list never ends, whatever comes later. */
  lemma TagsWithoutListHang(t: Token, rest: seq<Token>)
    requires !t.Str? && t !in {Comma, LBracket, RBracket}
    ensures ParseItems(SceneBlock, [Key(Tags), t] + rest).hangs
    ensures !ConditionParser.ListTerminates(AsCondition([t] + rest))
  {
    hide Sound, Suffix, ConditionParser.ListTerminates, ParseItems, ParseClause, Ended, TakeList;
    var ts := [Key(Tags), t] + rest;
    assert ts[1..] == [t] + rest;
    NoFlatList(t, rest);
    ListHangsIff([t] + rest);
    TagsClause(ts);
    ItemsStep(SceneBlock, ts);
  }

  lemma NoFlatList(t: Token, rest: seq<Token>)
    requires !t.Str? && t !in {Comma, LBracket, RBracket}
    ensures TakeList([t] + rest).hangs
  {
  }
}
