/**
  The grammar of conditions on tokens, written down apart from the parser: which words are a condition, given what
  follows them. The parser reads a condition without a report exactly where the grammar has one.
*/
module ConditionGrammar {
  import opened Wrappers
  import opened Conditions
  import opened ConditionParser

  /** A condition that starts with `first` goes on at `t`: a block is not continued by a chain of its own kind. */
  predicate ChainsAt(first: Token, t: Token) {
    (t == TokAnd && first != TokAnd) || (t == TokOr && first != TokOr)
  }

  predicate IsLeaf(t: Token) {
    t in {TokHasBadge, TokNotHasBadge, TokHasTag, TokNotHasTag}
  }

  /** A leaf with its name, a negated condition, or `and` or `or` with or without a block. */
  ghost predicate HeadText(w: seq<Token>, after: seq<Token>)
    decreases |w|, 0
  {
    && w != []
    && if IsLeaf(w[0]) then |w| == 2 && w[1].TokString?
       else if w[0] == TokNot then CondText(w[1..], after)
       else (w[0] == TokAnd || w[0] == TokOr) && BlockText(w[1..], after)
  }

  /** Nothing, if no block follows, or conditions in braces. */
  ghost predicate BlockText(w: seq<Token>, after: seq<Token>)
    decreases |w|, 0
  {
    if w == [] then !Next(after, TokLBrace)
    else |w| >= 2 && w[0] == TokLBrace && w[|w| - 1] == TokRBrace && KidsText(w[1..|w| - 1], [TokRBrace] + after)
  }

  /** A head, and behind it either nothing that would continue it, or a chain with another condition. */
  ghost predicate CondText(w: seq<Token>, after: seq<Token>)
    decreases |w|, 1
  {
    exists k :: 0 < k <= |w| && HeadText(w[..k], w[k..] + after) && ChainText(w, k, after)
  }

  ghost predicate ChainText(w: seq<Token>, k: int, after: seq<Token>)
    requires 0 < k <= |w|
    decreases |w|, 0
  {
    if k == |w| then after == [] || !ChainsAt(w[0], after[0])
    else ChainsAt(w[0], w[k]) && CondText(w[k + 1..], after)
  }

  ghost predicate KidsText(w: seq<Token>, after: seq<Token>)
    decreases |w|, 2
  {
    w == [] || exists k :: 0 < k <= |w| && CondText(w[..k], w[k..] + after) && KidsText(w[k..], after)
  }

  // ---------- What is in the grammar is read ----------

  predicate ReadUpTo<T>(r: Parsed<T>, after: seq<Token>) {
    r.errs == 0 && r.rest == after
  }

  lemma {:induction false} HeadIsRead(w: seq<Token>, after: seq<Token>)
    requires HeadText(w, after)
    ensures var r := ParseHead(w + after);
            && ReadUpTo(r, after) && r.value.Some?
            && (r.value.value.And? <==> w[0] == TokAnd) && (r.value.value.Or? <==> w[0] == TokOr)
    decreases |w|, 0
  {
    hide ParseCond, ParseBlock, CondText, BlockText;
    var ts := w + after;
    assert ts[1..] == w[1..] + after;
    if IsLeaf(w[0]) {
      assert ts[1..][1..] == after;
    } else if w[0] == TokNot {
      CondIsRead(w[1..], after);
    } else {
      BlockIsRead(w[1..], after);
    }
  }

  lemma {:induction false} BlockIsRead(w: seq<Token>, after: seq<Token>)
    requires BlockText(w, after)
    ensures ReadUpTo(ParseBlock(w + after), after)
    decreases |w|, 0
  {
    hide ParseKids, KidsText;
    var ts := w + after;
    if w == [] {
      assert ts == after;
    } else {
      var kids, close := w[1..|w| - 1], [TokRBrace] + after;
      assert ts[1..] == kids + close && close[1..] == after;
      KidsAreRead(kids, close);
    }
  }

  predicate Chained(node: Cond, ts: seq<Token>) {
    (Next(ts, TokAnd) && !node.And?) || (Next(ts, TokOr) && !node.Or?)
  }

  /** What a chain adds to the condition before it. */
  lemma ChainAfterHead(ts: seq<Token>)
    requires ParseHead(ts).value.Some?
    ensures
      var head, r := ParseHead(ts), ParseCond(ts);
      && |head.rest| < |ts| && r.value.Some?
      && if Chained(head.value.value, head.rest) then
           r.rest == ParseCond(head.rest[1..]).rest && r.errs == head.errs + ParseCond(head.rest[1..]).errs
         else r.rest == head.rest && r.errs == head.errs
  {
    hide ParseHead;
  }

  predicate HeadRead(w: seq<Token>, after: seq<Token>) {
    var r := ParseHead(w + after);
    && w != [] && ReadUpTo(r, after) && r.value.Some?
    && (r.value.value.And? <==> w[0] == TokAnd) && (r.value.value.Or? <==> w[0] == TokOr)
  }

  lemma {:induction false} CondIsRead(w: seq<Token>, after: seq<Token>)
    requires CondText(w, after)
    ensures ReadUpTo(ParseCond(w + after), after) && ParseCond(w + after).value.Some?
    decreases |w|, 1
  {
    hide ParseCond, ParseHead, HeadText, CondText;
    var k := CondParts(w, after);
    HeadIsRead(w[..k], w[k..] + after);
    if k == |w| {
      assert w[..k] == w && w[k..] + after == after;
      HeadReadAlone(w, after);
    } else {
      CondIsRead(w[k + 1..], after);
      assert w == w[..k] + [w[k]] + w[k + 1..] && w[k..] + after == [w[k]] + (w[k + 1..] + after) && w[..k][0] == w[0];
      HeadReadThenChain(w[..k], w[k], w[k + 1..], after);
    }
  }

  lemma CondParts(w: seq<Token>, after: seq<Token>) returns (k: nat)
    requires CondText(w, after)
    ensures 0 < k <= |w| && HeadText(w[..k], w[k..] + after)
    ensures k == |w| ==> after == [] || !ChainsAt(w[0], after[0])
    ensures k < |w| ==> ChainsAt(w[0], w[k]) && CondText(w[k + 1..], after)
  {
    hide HeadText;
    k :| 0 < k <= |w| && HeadText(w[..k], w[k..] + after) && ChainText(w, k, after);
  }

  lemma HeadReadAlone(w: seq<Token>, after: seq<Token>)
    requires HeadRead(w, after) && (after == [] || !ChainsAt(w[0], after[0]))
    ensures ReadUpTo(ParseCond(w + after), after) && ParseCond(w + after).value.Some?
  {
    hide ParseCond, ParseHead;
    ChainAfterHead(w + after);
  }

  lemma HeadReadThenChain(v: seq<Token>, t: Token, u: seq<Token>, after: seq<Token>)
    requires HeadRead(v, [t] + (u + after)) && ChainsAt(v[0], t) && ReadUpTo(ParseCond(u + after), after)
    ensures ReadUpTo(ParseCond(v + [t] + u + after), after) && ParseCond(v + [t] + u + after).value.Some?
  {
    hide ParseCond, ParseHead;
    var ts := v + [t] + u + after;
    assert ts == v + ([t] + (u + after));
    assert ([t] + (u + after))[1..] == u + after;
    ChainAfterHead(ts);
  }

  lemma {:induction false} KidsAreRead(w: seq<Token>, after: seq<Token>)
    requires KidsText(w, after) && Next(after, TokRBrace)
    ensures ReadUpTo(ParseKids(w + after), after)
    decreases |w|, 2
  {
    hide ParseKids, ParseCond, CondText;
    var ts := w + after;
    if w == [] {
      assert ts == after;
      KidsEnd(after);
    } else {
      var k :| 0 < k <= |w| && CondText(w[..k], w[k..] + after) && KidsText(w[k..], after);
      assert ts == w[..k] + (w[k..] + after);
      CondIsRead(w[..k], w[k..] + after);
      CondStartsNoClose(w[..k], w[k..] + after);
      KidsAreRead(w[k..], after);
      KidsUnfold(ts);
    }
  }

  lemma CondStartsNoClose(w: seq<Token>, after: seq<Token>)
    requires CondText(w, after)
    ensures w != [] && w[0] != TokRBrace
  {
    var k :| 0 < k <= |w| && HeadText(w[..k], w[k..] + after) && ChainText(w, k, after);
    assert w[..k][0] == w[0];
  }

  // ---------- What is read is in the grammar ----------

  lemma {:induction false} HeadIsText(ts: seq<Token>) returns (w: seq<Token>)
    requires ParseHead(ts).errs == 0
    ensures ts == w + ParseHead(ts).rest && HeadText(w, ParseHead(ts).rest)
    ensures var c := ParseHead(ts).value;
            c.Some? && (c.value.And? <==> w[0] == TokAnd) && (c.value.Or? <==> w[0] == TokOr)
    decreases |ts|, 0
  {
    hide ParseCond, ParseBlock, CondText, BlockText;
    var rest := ParseHead(ts).rest;
    if IsLeaf(ts[0]) {
      w := ts[..2];
    } else if ts[0] == TokNot {
      var v := CondIsText(ts[1..]);
      w := [TokNot] + v;
      assert w[1..] == v;
    } else {
      var v := BlockIsText(ts[1..]);
      w := [ts[0]] + v;
      assert w[1..] == v;
    }
  }

  lemma {:induction false} BlockIsText(ts: seq<Token>) returns (w: seq<Token>)
    requires ParseBlock(ts).errs == 0
    ensures ts == w + ParseBlock(ts).rest && BlockText(w, ParseBlock(ts).rest)
    decreases |ts|, 3
  {
    hide ParseKids, KidsText;
    var rest := ParseBlock(ts).rest;
    if Next(ts, TokLBrace) {
      var v := KidsAreText(ts[1..]);
      assert ParseKids(ts[1..]).rest == [TokRBrace] + rest;
      w := [TokLBrace] + v + [TokRBrace];
      assert w[1..|w| - 1] == v;
    } else {
      w := [];
    }
  }

  lemma HeadThenChain(v: seq<Token>, t: Token, u: seq<Token>, after: seq<Token>)
    requires v != [] && HeadText(v, [t] + u + after) && ChainsAt(v[0], t) && CondText(u, after)
    ensures CondText(v + [t] + u, after)
  {
    hide HeadText;
    var w, k := v + [t] + u, |v|;
    assert w[..k] == v && w[k..] + after == [t] + u + after && w[k + 1..] == u;
    assert ChainText(w, k, after);
  }

  lemma HeadAlone(v: seq<Token>, after: seq<Token>)
    requires v != [] && HeadText(v, after) && (after == [] || !ChainsAt(v[0], after[0]))
    ensures CondText(v, after)
  {
    hide HeadText;
    assert v[..|v|] == v && v[|v|..] + after == after;
    assert ChainText(v, |v|, after);
  }

  lemma CondNeedsHead(ts: seq<Token>)
    requires ParseCond(ts).errs == 0
    ensures ParseHead(ts).errs == 0 && ParseHead(ts).value.Some?
  {
    hide ParseHead;
  }

  lemma {:induction false} CondIsText(ts: seq<Token>) returns (w: seq<Token>)
    requires ParseCond(ts).errs == 0
    ensures ts == w + ParseCond(ts).rest && CondText(w, ParseCond(ts).rest)
    decreases |ts|, 2
  {
    hide HeadText, CondText, ParseHead, ParseCond;
    var head := ParseHead(ts);
    var rest := ParseCond(ts).rest;
    CondNeedsHead(ts);
    var v := HeadIsText(ts);
    ChainAfterHead(ts);
    if head.rest != [] && ChainsAt(v[0], head.rest[0]) {
      var t := head.rest[0];
      assert head.rest == [t] + head.rest[1..];
      var u := CondIsText(head.rest[1..]);
      assert head.rest == [t] + u + rest;
      HeadThenChain(v, t, u, rest);
      w := v + [t] + u;
      assert ts == w + rest;
    } else {
      HeadAlone(v, head.rest);
      w := v;
    }
  }

  lemma {:induction false} KidsAreText(ts: seq<Token>) returns (w: seq<Token>)
    requires ParseKids(ts).errs == 0
    ensures ts == w + ParseKids(ts).rest && KidsText(w, ParseKids(ts).rest)
    decreases |ts|, 4
  {
    hide ParseKids, ParseCond, CondText;
    if ts == [] || ts[0] == TokRBrace {
      KidsEnd(ts);
      w := [];
    } else {
      KidsUnfold(ts);
      var first := ParseCond(ts);
      var v := CondIsText(ts);
      CondStartsNoClose(v, first.rest);
      var u := KidsAreText(first.rest);
      w := v + u;
      var rest := ParseKids(ts).rest;
      assert w[..|v|] == v && w[|v|..] == u && u + rest == first.rest;
    }
  }

  /** The parser reads exactly the words `w`, without a report, if and only if they are a condition before `after`. */
  lemma ConditionIsReadIff(w: seq<Token>, after: seq<Token>)
    ensures ParseCond(w + after).errs == 0 && |ParseCond(w + after).rest| == |after| <==> CondText(w, after)
  {
    hide ParseCond, CondText;
    if CondText(w, after) {
      CondIsRead(w, after);
    }
    var r := ParseCond(w + after);
    if r.errs == 0 && |r.rest| == |after| {
      var v := CondIsText(w + after);
      SplitsOnce(v, r.rest, w, after);
    }
  }
}
