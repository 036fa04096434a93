/**
  The grammar of actions, retry modifiers and else clauses on tokens, written down apart from the parser. The parser
  reads an action or an else without a report exactly where the grammar has one.
*/
module ActionGrammar {
  import opened Wrappers
  import opened ActionParser

  predicate DurationText(w: seq<Token>) {
    (|w| == 1 && w[0].TokDuration?) || (|w| == 2 && w[0].TokInt? && w[1].TokUnit?)
  }

  /** An action: a keyword, with a name, a duration or a yes or no, or with retry modifiers. */
  ghost predicate ActionText(w: seq<Token>, after: seq<Token>)
    decreases |w|, 0
  {
    && w != []
    && match w[0]
       case TokPlain(_) => |w| == 1
       case TokTarget(_) => |w| == 2 && w[1].TokString?
       case TokWait => DurationText(w[1..])
       case TokSendImmediate => |w| == 2 && w[1].TokBool?
       case TokRetry(_) => ModifiersText(w[1..], after)
       case TokLoop(_) => |w| >= 2 && w[1].TokString? && ModifiersText(w[2..], after)
       case _ => false
  }

  /** The words `up_to` n, with or without `times`, or nothing; every word that could belong to them does. */
  predicate MaxText(w: seq<Token>, after: seq<Token>) {
    if w == [] then !Next(after, TokUpTo)
    else |w| >= 2 && w[0] == TokUpTo && w[1].TokInt? && (if |w| == 2 then !Next(after, TokTimes) else |w| == 3 && w[2] == TokTimes)
  }

  ghost predicate ModifiersText(w: seq<Token>, after: seq<Token>)
    decreases |w|, 2
  {
    exists k :: 0 <= k <= |w| && MaxText(w[..k], w[k..] + after) && ElseText(w[k..], after)
  }

  /** Nothing, if no else follows; or `else` with a block, with one action, or alone. */
  ghost predicate ElseText(w: seq<Token>, after: seq<Token>)
    decreases |w|, 1
  {
    if w == [] then !Next(after, TokElse)
    else
      && w[0] == TokElse
      && if |w| == 1 then !Next(after, TokLBrace) && !Next(after, TokDo)
         else if w[1] == TokLBrace then |w| >= 3 && w[|w| - 1] == TokRBrace && ActionsText(w[2..|w| - 1], [TokRBrace] + after)
         else w[1] == TokDo && ActionText(w[2..], after)
  }

  /** Actions, each with or without `do`. */
  ghost predicate ActionsText(w: seq<Token>, after: seq<Token>)
    decreases |w|, 3
  {
    w == [] || exists k :: 0 < k <= |w| && OneActionText(w[..k], w[k..] + after) && ActionsText(w[k..], after)
  }

  ghost predicate OneActionText(w: seq<Token>, after: seq<Token>)
    decreases |w|, 2
  {
    if Next(w, TokDo) then ActionText(w[1..], after) else ActionText(w, after)
  }

  predicate ReadUpTo<T>(r: Parsed<T>, after: seq<Token>) {
    r.errs == 0 && r.rest == after
  }

  // ---------- What is in the grammar is read ----------

  lemma {:induction false} ActionIsRead(w: seq<Token>, after: seq<Token>)
    requires ActionText(w, after)
    ensures ReadUpTo(ParseAction(w + after), after)
    decreases |w|, 0
  {
    hide ParseModifiers, ModifiersText;
    var ts := w + after;
    assert ts[1..] == w[1..] + after;
    match w[0]
    case TokRetry(k) =>
      ModifiersAreRead(Bare(k), w[1..], after, 0);
    case TokLoop(k) =>
      assert ts[1..][1..] == w[2..] + after;
      ModifiersAreRead(To(k, w[1].literal), w[2..], after, 0);
    case _ =>
      SimpleIsRead(w, after);
  }

  lemma SimpleIsRead(w: seq<Token>, after: seq<Token>)
    requires ActionText(w, after) && !w[0].TokRetry? && !w[0].TokLoop?
    ensures ReadUpTo(ParseAction(w + after), after)
  {
    var ts := w + after;
    assert ts[1..] == w[1..] + after;
    assert |w| == 2 ==> ts[1..][1..] == after;
    if w[0] == TokWait {
      assert |w| == 3 ==> ts[1..][2..] == after;
    }
  }

  lemma MaxIsRead(w: seq<Token>, after: seq<Token>)
    requires MaxText(w, after)
    ensures ReadUpTo(ParseMax(w + after), after)
  {
    var ts := w + after;
    if w == [] {
      assert ts == after;
    } else {
      assert ts[1..] == w[1..] + after && ts[1..][1..] == w[2..] + after;
      assert |w| == 2 ==> w[2..] + after == after;
      assert |w| == 3 ==> (w[2..] + after)[1..] == after;
    }
  }

  lemma {:induction false} ModifiersAreRead(head: RetryHead, w: seq<Token>, after: seq<Token>, errs: nat)
    requires ModifiersText(w, after)
    ensures var r := ParseModifiers(head, w + after, errs); r.rest == after && r.errs == errs
    decreases |w|, 2
  {
    hide ParseMax, ParseElse, MaxText, ElseText;
    var k :| 0 <= k <= |w| && MaxText(w[..k], w[k..] + after) && ElseText(w[k..], after);
    assert w + after == w[..k] + (w[k..] + after);
    MaxIsRead(w[..k], w[k..] + after);
    ElseIsRead(w[k..], after);
  }

  lemma {:induction false} ElseIsRead(w: seq<Token>, after: seq<Token>)
    requires ElseText(w, after)
    ensures ReadUpTo(ParseElse(w + after), after)
    decreases |w|, 1
  {
    hide ParseAction, ParseActions, ActionText, ActionsText;
    var ts := w + after;
    if w == [] {
      assert ts == after;
    } else {
      assert ts[1..] == w[1..] + after;
      if |w| == 1 {
        assert ts[1..] == after;
      } else {
        assert ts[1..][1..] == w[2..] + after;
        if w[1] == TokLBrace {
          var body, close := w[2..|w| - 1], [TokRBrace] + after;
          assert w[2..] + after == body + close && close[1..] == after;
          ActionsAreRead(body, close);
        } else {
          ActionIsRead(w[2..], after);
        }
      }
    }
  }

  lemma {:induction false} ActionsAreRead(w: seq<Token>, after: seq<Token>)
    requires ActionsText(w, after) && Next(after, TokRBrace)
    ensures ReadUpTo(ParseActions(w + after), after)
    decreases |w|, 3
  {
    hide ParseAction, ParseActions, ActionText;
    var ts := w + after;
    if w == [] {
      assert ts == after;
      ActionsEnd(after);
    } else {
      var k :| 0 < k <= |w| && OneActionText(w[..k], w[k..] + after) && ActionsText(w[k..], after);
      assert ts == w[..k] + (w[k..] + after);
      OneActionIsRead(w[..k], w[k..] + after);
      OneActionStarts(w[..k], w[k..] + after);
      ActionsAreRead(w[k..], after);
      ActionsUnfold(ts);
    }
  }

  lemma {:induction false} OneActionIsRead(w: seq<Token>, after: seq<Token>)
    requires OneActionText(w, after)
    ensures var ts := w + after; ReadUpTo(ParseAction(if Next(ts, TokDo) then ts[1..] else ts), after)
    decreases |w|, 2
  {
    hide ParseAction, ActionText;
    var ts := w + after;
    if Next(w, TokDo) {
      assert ts[1..] == w[1..] + after;
      ActionIsRead(w[1..], after);
    } else {
      ActionStarts(w, after);
      assert ts[0] == w[0];
      ActionIsRead(w, after);
    }
  }

  lemma ActionStarts(w: seq<Token>, after: seq<Token>)
    requires ActionText(w, after)
    ensures w != [] && w[0] != TokRBrace && w[0] != TokDo
  {
  }

  lemma OneActionStarts(w: seq<Token>, after: seq<Token>)
    requires OneActionText(w, after)
    ensures w != [] && w[0] != TokRBrace
  {
    if !Next(w, TokDo) {
      ActionStarts(w, after);
    }
  }

  // ---------- What is read is in the grammar ----------

  lemma {:induction false} ActionIsText(ts: seq<Token>) returns (w: seq<Token>)
    requires ParseAction(ts).errs == 0
    ensures ts == w + ParseAction(ts).rest && ActionText(w, ParseAction(ts).rest)
    decreases |ts|, 3
  {
    hide ParseModifiers, ModifiersText;
    if ts[0].TokRetry? {
      var v := ModifiersAreText(Bare(ts[0].bare), ts[1..]);
      w := [ts[0]] + v;
      assert w[1..] == v;
    } else if ts[0].TokLoop? {
      var s := ExpectString(ts[1..]);
      ModifiersErrs(To(ts[0].loop, s.value), s.rest, s.errs);
      var v := ModifiersAreText(To(ts[0].loop, s.value), s.rest);
      w := [ts[0], ts[1]] + v;
      assert w[2..] == v && s.rest == ts[1..][1..];
    } else {
      w := SimpleIsText(ts);
    }
  }

  lemma SimpleIsText(ts: seq<Token>) returns (w: seq<Token>)
    requires ParseAction(ts).errs == 0 && !ts[0].TokRetry? && !ts[0].TokLoop?
    ensures ts == w + ParseAction(ts).rest && ActionText(w, ParseAction(ts).rest)
  {
    w := ts[..|ts| - |ParseAction(ts).rest|];
    if ts[0] == TokWait {
      assert w[1..] == ts[1..][..|ts| - 1 - |ParseAction(ts).rest|];
    }
  }

  lemma MaxIsText(ts: seq<Token>) returns (w: seq<Token>)
    requires ParseMax(ts).errs == 0
    ensures ts == w + ParseMax(ts).rest && MaxText(w, ParseMax(ts).rest)
  {
    if Next(ts, TokUpTo) {
      var more := ts[2..];
      assert ts[1..][1..] == more;
      if Next(more, TokTimes) {
        w := ts[..3];
        assert more[1..] == ts[3..];
      } else {
        w := ts[..2];
      }
    } else {
      w := [];
    }
  }

  lemma {:induction false} ModifiersAreText(head: RetryHead, ts: seq<Token>) returns (w: seq<Token>)
    requires ParseModifiers(head, ts, 0).errs == 0
    ensures var rest := ParseModifiers(head, ts, 0).rest; ts == w + rest && ModifiersText(w, rest)
    decreases |ts|, 2
  {
    hide ParseMax, ParseElse, MaxText, ElseText;
    var max := ParseMax(ts);
    var v := MaxIsText(ts);
    var u := ElseIsText(max.rest);
    w := v + u;
    var rest := ParseElse(max.rest).rest;
    assert w[..|v|] == v && w[|v|..] == u && u + rest == max.rest;
  }

  lemma {:induction false} ElseIsText(ts: seq<Token>) returns (w: seq<Token>)
    requires ParseElse(ts).errs == 0
    ensures ts == w + ParseElse(ts).rest && ElseText(w, ParseElse(ts).rest)
    decreases |ts|, 1
  {
    hide ParseAction, ParseActions, ActionText, ActionsText;
    var rest := ParseElse(ts).rest;
    if !Next(ts, TokElse) {
      w := [];
    } else if Next(ts[1..], TokLBrace) {
      var body := ts[1..][1..];
      var v := ActionsAreText(body);
      assert ParseActions(body).rest == [TokRBrace] + rest;
      w := [TokElse, TokLBrace] + v + [TokRBrace];
      assert w[2..|w| - 1] == v;
    } else if Next(ts[1..], TokDo) {
      var v := ActionIsText(ts[1..][1..]);
      w := [TokElse, TokDo] + v;
      assert w[2..] == v;
    } else {
      w := [TokElse];
    }
  }

  lemma {:induction false} ActionsAreText(ts: seq<Token>) returns (w: seq<Token>)
    requires ParseActions(ts).errs == 0
    ensures ts == w + ParseActions(ts).rest && ActionsText(w, ParseActions(ts).rest)
    decreases |ts|, 4
  {
    hide ParseAction, ParseActions, ActionText;
    if ts == [] || ts[0] == TokRBrace {
      ActionsEnd(ts);
      w := [];
    } else {
      hide ActionsText;
      ActionsUnfold(ts);
      var from := if Next(ts, TokDo) then ts[1..] else ts;
      var v := ActionIsText(from);
      var one := WithDo(ts, v, ParseAction(from).rest);
      var u := ActionsAreText(ParseAction(from).rest);
      w := one + u;
      OneMore(one, u, ParseActions(ts).rest);
    }
  }

  lemma WithDo(ts: seq<Token>, v: seq<Token>, after: seq<Token>) returns (one: seq<Token>)
    requires ActionText(v, after) && (if Next(ts, TokDo) then ts[1..] else ts) == v + after
    ensures one != [] && OneActionText(one, after) && ts == one + after
  {
    ActionStarts(v, after);
    hide ActionText;
    one := if Next(ts, TokDo) then [TokDo] + v else v;
    assert Next(ts, TokDo) ==> one[1..] == v;
  }

  lemma OneMore(one: seq<Token>, u: seq<Token>, rest: seq<Token>)
    requires one != [] && OneActionText(one, u + rest) && ActionsText(u, rest)
    ensures ActionsText(one + u, rest)
  {
    hide OneActionText;
    var w := one + u;
    assert w[..|one|] == one && w[|one|..] == u;
  }

  /** The parser reads exactly the words `w`, without a report, if and only if they are an action before `after`. */
  lemma ActionIsReadIff(w: seq<Token>, after: seq<Token>)
    ensures ParseAction(w + after).errs == 0 && |ParseAction(w + after).rest| == |after| <==> ActionText(w, after)
  {
    hide ParseAction, ActionText;
    if ActionText(w, after) {
      ActionIsRead(w, after);
    }
    var r := ParseAction(w + after);
    if r.errs == 0 && |r.rest| == |after| {
      var v := ActionIsText(w + after);
      SplitsOnce(v, r.rest, w, after);
    }
  }

  /** The same for an else. */
  lemma ElseIsReadIff(w: seq<Token>, after: seq<Token>)
    ensures ParseElse(w + after).errs == 0 && |ParseElse(w + after).rest| == |after| <==> ElseText(w, after)
  {
    hide ParseElse, ElseText;
    if ElseText(w, after) {
      ElseIsRead(w, after);
    }
    var r := ParseElse(w + after);
    if r.errs == 0 && |r.rest| == |after| {
      var v := ElseIsText(w + after);
      SplitsOnce(v, r.rest, w, after);
    }
  }
}
