/**
  What the parser reads of a script is all of it: the clauses read determine the typed tree, so no two scripts have
  the same text.
*/
module ScriptUniqueness {
  import opened Wrappers
  import Conditions
  import ConditionParser
  import ActionParser
  import opened BlockGrammar
  import opened ScriptTree
  import opened ScriptTheorems

  lemma SameBuilt<T>(xs: seq<T>, ys: seq<T>, f: T -> Item)
    requires Built(xs, f) == Built(ys, f)
    requires forall x, y :: x in xs && y in ys && f(x) == f(y) ==> x == y
    ensures xs == ys
  {
    forall i | 0 <= i < |xs|
      ensures xs[i] == ys[i]
    {
      assert Built(xs, f)[i] == Built(ys, f)[i];
      assert xs[i] in xs && ys[i] in ys;
    }
  }

  // ---------- Words ----------

  /** Parts without commas, at the head of two texts that go on with a comma or end, are the same. */
  lemma SameUpToComma(v: seq<Token>, w: seq<Token>, x: seq<Token>, y: seq<Token>)
    requires v + x == w + y && Comma !in v && Comma !in w && (x == [] || x[0] == Comma) && (y == [] || y[0] == Comma)
    ensures v == w && x == y
  {
    var all := v + x;
    assert forall k :: 0 <= k < |v| ==> all[k] == v[k];
    assert forall k :: 0 <= k < |w| ==> all[k] == w[k];
    assert (x != [] ==> all[|v|] == Comma) && (y != [] ==> all[|w|] == Comma);
    assert (v + x)[..|v|] == v && (w + y)[..|w|] == w && (v + x)[|v|..] == x && (w + y)[|w|..] == y;
  }

  lemma {:induction false} SameCommas<T>(xs: seq<T>, ys: seq<T>, f: T -> seq<Token>)
    requires CommaBetween(xs, f) == CommaBetween(ys, f)
    requires forall x :: x in xs || x in ys ==> f(x) != [] && Comma !in f(x)
    requires forall x, y :: x in xs && y in ys && f(x) == f(y) ==> x == y
    ensures xs == ys
    decreases |xs|
  {
    assert (xs != [] ==> xs[0] in xs) && (ys != [] ==> ys[0] in ys);
    if xs != [] && ys != [] {
      var more := if |xs| == 1 then [] else [Comma] + CommaBetween(xs[1..], f);
      var others := if |ys| == 1 then [] else [Comma] + CommaBetween(ys[1..], f);
      assert f(xs[0]) + more == CommaBetween(xs, f) && f(ys[0]) + others == CommaBetween(ys, f);
      SameUpToComma(f(xs[0]), f(ys[0]), more, others);
      if |xs| > 1 {
        assert more[1..] == CommaBetween(xs[1..], f) && others[1..] == CommaBetween(ys[1..], f);
        SameCommas(xs[1..], ys[1..], f);
      }
      assert xs == [xs[0]] + xs[1..] && ys == [ys[0]] + ys[1..];
    }
  }

  lemma SameLists(xs: seq<string>, ys: seq<string>)
    requires ListWords(xs) == ListWords(ys)
    ensures xs == ys
  {
    var v, w := ListWords(xs), ListWords(ys);
    assert v[1..|v| - 1] == CommaBetween(xs, StrWord) && w[1..|w| - 1] == CommaBetween(ys, StrWord);
    SameCommas(xs, ys, StrWord);
  }

  lemma WordIsNoComma(w: Word)
    ensures w != Comma && !w.Str? && !w.Int? && w != Dot
  {
  }

  lemma SameParams(name: string, other: string, xs: seq<Word>, ys: seq<Word>)
    requires TemplateHead(name, xs) == TemplateHead(other, ys)
    ensures name == other && xs == ys
  {
    hide MayName;
    var v, w := TemplateHead(name, xs), TemplateHead(other, ys);
    assert v[0] == w[0];
    assert v[2..|v| - 2] == CommaBetween(xs, OneWord) && w[2..|w| - 2] == CommaBetween(ys, OneWord);
    forall x: Word
      ensures Comma !in OneWord(x)
    {
      WordIsNoComma(x);
    }
    SameCommas(xs, ys, OneWord);
  }

  lemma {:induction false} SameFields(xs: seq<Word>, ys: seq<Word>)
    requires Spelled(xs, FieldPart) == Spelled(ys, FieldPart)
    ensures xs == ys
    decreases |xs|
  {
    hide MayName;
    if xs != [] && ys != [] {
      var v, w := Spelled(xs, FieldPart), Spelled(ys, FieldPart);
      assert v[1] == w[1] && v[2..] == Spelled(xs[1..], FieldPart) && w[2..] == Spelled(ys[1..], FieldPart);
      SameFields(xs[1..], ys[1..]);
      assert xs == [xs[0]] + xs[1..] && ys == [ys[0]] + ys[1..];
    }
  }

  lemma {:induction false} FieldsHaveNoComma(fields: seq<Word>)
    ensures Comma !in Spelled(fields, FieldPart)
    decreases |fields|
  {
    hide MayName;
    if fields != [] {
      WordIsNoComma(fields[0]);
      FieldsHaveNoComma(fields[1..]);
    }
  }

  lemma ArgumentHasNoComma(a: Argument)
    ensures ArgumentWords(a) != [] && Comma !in ArgumentWords(a)
  {
    hide MayName;
    if a.PathArgument? {
      WordIsNoComma(a.name);
      FieldsHaveNoComma(a.fields);
    }
  }

  lemma SameArgument(a: Argument, b: Argument)
    requires ArgumentWords(a) == ArgumentWords(b)
    ensures a == b
  {
    hide MayName;
    assert ArgumentWords(a)[0] == ArgumentWords(b)[0];
    if a.PathArgument? {
      WordIsNoComma(a.name);
    }
    if b.PathArgument? {
      WordIsNoComma(b.name);
    }
    if a.PathArgument? && b.PathArgument? {
      assert ArgumentWords(a)[1..] == Spelled(a.fields, FieldPart) && ArgumentWords(b)[1..] == Spelled(b.fields, FieldPart);
      SameFields(a.fields, b.fields);
    }
  }

  lemma SameArgs(x: Option<seq<Argument>>, y: Option<seq<Argument>>)
    requires ArgsWords(x) == ArgsWords(y)
    ensures x == y
  {
    hide ArgumentWords;
    if x.Some? && y.Some? {
      var v, w := ArgsWords(x), ArgsWords(y);
      assert v[1..|v| - 1] == CommaBetween(x.value, ArgumentWords) && w[1..|w| - 1] == CommaBetween(y.value, ArgumentWords);
      forall a
        ensures ArgumentWords(a) != [] && Comma !in ArgumentWords(a)
      {
        ArgumentHasNoComma(a);
      }
      forall a, b | ArgumentWords(a) == ArgumentWords(b)
        ensures a == b
      {
        SameArgument(a, b);
      }
      SameCommas(x.value, y.value, ArgumentWords);
    }
  }

  lemma SameUse(u: Use, v: Use)
    requires UseWords(u) == UseWords(v)
    ensures u == v
  {
    hide MayName, ArgsWords;
    var x, y := UseWords(u), UseWords(v);
    assert x[0] == y[0] && x[1] == y[1];
    if !u.UseSender? {
      assert x[2..] == ArgsWords(u.args) && y[2..] == ArgsWords(v.args);
      SameArgs(u.args, v.args);
    }
  }

  lemma SameAmount(a: Amount, b: Amount)
    requires AmountWords(a) == AmountWords(b)
    ensures a == b
  {
    hide MayName;
    assert AmountWords(a)[0] == AmountWords(b)[0];
    if a.AmountOf? {
      WordIsNoComma(a.ref.name);
    }
    if b.AmountOf? {
      WordIsNoComma(b.ref.name);
    }
    if a.AmountOf? && b.AmountOf? {
      SameRef(a.ref, b.ref);
    }
  }

  lemma SameRef(r: Ref, s: Ref)
    requires RefWords(r) == RefWords(s)
    ensures r == s
  {
    hide MayName;
    assert RefWords(r)[0] == RefWords(s)[0];
    if r.field.Some? {
      assert RefWords(r)[2] == RefWords(s)[2];
    }
  }

  lemma SameValue(v: Value, w: Value)
    requires ValueWord(v) == ValueWord(w)
    ensures v == w
  {
    hide MayName;
    if v.Named? {
      WordIsNoComma(v.word);
    }
    if w.Named? {
      WordIsNoComma(w.word);
    }
  }

  lemma SameCond(c: Readable, d: Readable)
    requires CondWords(c) == CondWords(d)
    ensures c == d
  {
    hide CondWords, ConditionParser.ParseCond, ConditionParser.Readable;
    CondIsRead(c, []);
    CondIsRead(d, []);
  }

  lemma SameAction(a: ActionParser.Action, b: ActionParser.Action)
    requires ActionWords(a) == ActionWords(b)
    ensures a == b
  {
    hide ActionWords, ActionParser.ParseAction;
    ActionIsReadBack(a, []);
    ActionIsReadBack(b, []);
  }

  lemma SameElse(xs: seq<ActionParser.Action>, ys: seq<ActionParser.Action>)
    requires ElseBlockWords(xs) == ElseBlockWords(ys)
    ensures xs == ys
  {
    hide ElseBlockWords, ActionParser.ParseElse;
    ElseBlockIsRead(xs, []);
    ElseBlockIsRead(ys, []);
  }

  // ---------- Triggers ----------

  /** An optional word, and what cannot be taken for it. */
  lemma SameOption(c: Class, o: seq<Token>, p: seq<Token>, v: seq<Token>, w: seq<Token>)
    requires o + v == p + w && |o| <= 1 && |p| <= 1
    requires (o != [] ==> Is(c, o[0])) && (p != [] ==> Is(c, p[0]))
    requires (v != [] ==> !Is(c, v[0])) && (w != [] ==> !Is(c, w[0]))
    ensures o == p && v == w
  {
    hide Is;
    var all := o + v;
    assert o != [] ==> all[0] == o[0];
    assert p != [] ==> all[0] == p[0];
    assert o == [] ==> all == v;
    assert p == [] ==> all == w;
    assert o != [] ==> all[1..] == v;
    assert p != [] ==> all[1..] == w;
  }

  lemma SameMeasure(g: Happening, h: Happening)
    requires (g.OnWatch? && h.OnWatch?) || (g.OnProgress? && h.OnProgress?)
    requires MeasureWords(g.block, g.op, g.amount, g.sign) == MeasureWords(h.block, h.op, h.amount, h.sign)
    ensures g == h
  {
    var a1, b1 := OptText(g.block), OptText(h.block);
    var a2, b2 := if g.op.Some? then [Compare(g.op.value)] else [], if h.op.Some? then [Compare(h.op.value)] else [];
    var a3, b3 := if g.amount.Some? then [Int(g.amount.value)] else [], if h.amount.Some? then [Int(h.amount.value)] else [];
    var a4, b4 := if g.sign then [Percent] else [], if h.sign then [Percent] else [];
    SameOption(AString, a1, b1, a2 + (a3 + a4), b2 + (b3 + b4));
    SameOption(AComparison, a2, b2, a3 + a4, b3 + b4);
    SameOption(AnInt, a3, b3, a4, b4);
    SameParts(g, h, a1, b1, a2, b2, a3, b3);
  }

  lemma SameParts(g: Happening, h: Happening, a1: seq<Token>, b1: seq<Token>, a2: seq<Token>, b2: seq<Token>, a3: seq<Token>, b3: seq<Token>)
    requires (g.OnWatch? && h.OnWatch?) || (g.OnProgress? && h.OnProgress?)
    requires a1 == OptText(g.block) && b1 == OptText(h.block) && a1 == b1
    requires a2 == (if g.op.Some? then [Compare(g.op.value)] else []) && b2 == (if h.op.Some? then [Compare(h.op.value)] else []) && a2 == b2
    requires a3 == (if g.amount.Some? then [Int(g.amount.value)] else []) && b3 == (if h.amount.Some? then [Int(h.amount.value)] else [])
    requires a3 == b3
    ensures g.block == h.block && g.op == h.op && g.amount == h.amount
  {
    assert a1 != [] ==> a1[0] == b1[0];
    assert a2 != [] ==> a2[0] == b2[0];
    assert a3 != [] ==> a3[0] == b3[0];
  }

  lemma SameLink(l: Option<LinkRef>, m: Option<LinkRef>)
    requires LinkWords(l) == LinkWords(m)
    ensures l == m
  {
    hide MayName;
    if l.Some? && m.Some? {
      assert LinkWords(l)[0] == LinkWords(m)[0];
      if l.value.LinkNamed? {
        WordIsNoComma(l.value.ref.name);
      }
      if m.value.LinkNamed? {
        WordIsNoComma(m.value.ref.name);
      }
      if l.value.LinkNamed? && m.value.LinkNamed? {
        SameRef(l.value.ref, m.value.ref);
      }
    }
  }

  lemma SameHappening(g: Happening, h: Happening)
    requires HappeningWords(g) == HappeningWords(h)
    ensures g == h
  {
    hide LinkWords, MeasureWords;
    var v, w := HappeningWords(g), HappeningWords(h);
    assert v[0] == w[0] && v[1..] == w[1..];
    SameKind(g, h);
    match g
    case OnClick(l) => assert v[1..] == LinkWords(l) && w[1..] == LinkWords(h.link); SameLink(l, h.link);
    case OnNotClick(l) => assert v[1..] == LinkWords(l) && w[1..] == LinkWords(h.link); SameLink(l, h.link);
    case OnWatch(b, op, n, sign) => SameMeasures(g, h);
    case OnProgress(b, op, n, sign) => SameMeasures(g, h);
    case OnSubject(_, s) => assert s.Some? ==> v[1] == Str(s.value);
    case OnWebhook(l) => assert l.Some? ==> v[1] == LabelWord(l.value);
    case _ =>
  }

  lemma SameMeasures(g: Happening, h: Happening)
    requires (g.OnWatch? && h.OnWatch?) || (g.OnProgress? && h.OnProgress?)
    requires HappeningWords(g) == HappeningWords(h)
    ensures g == h
  {
    hide MeasureWords;
    assert HappeningWords(g)[1..] == MeasureWords(g.block, g.op, g.amount, g.sign);
    assert HappeningWords(h)[1..] == MeasureWords(h.block, h.op, h.amount, h.sign);
    SameMeasure(g, h);
  }

  function Kind(h: Happening): nat {
    match h
    case OnClick(_) => 0
    case OnNotClick(_) => 1
    case OnWebhook(_) => 2
    case OnWatch(_, _, _, _) => 3
    case OnProgress(_, _, _, _) => 4
    case OnSubject(_, _) => 5
    case OnBare(_) => 6
    case OnElse => 7
    case OnUnsubscribe => 8
  }

  lemma SameKind(g: Happening, h: Happening)
    requires HappeningWords(g)[0] == HappeningWords(h)[0]
    ensures Kind(g) == Kind(h)
  {
    hide LinkWords, MeasureWords;
  }

  lemma SameBadgeClause(c: BadgeClause, d: BadgeClause)
    requires BadgeClauseItem(c) == BadgeClauseItem(d)
    ensures c == d
  {
    hide ListWords;
    var v, w := BadgeListWords(c.list), BadgeListWords(d.list);
    assert v == w;
    BadgeListStarts(c.list);
    BadgeListStarts(d.list);
    if c.list.Badges? && d.list.Badges? {
      SameLists(c.list.badges, d.list.badges);
    }
  }

  lemma BadgeListStarts(l: BadgeList)
    ensures var w := BadgeListWords(l); w != [] && (if l.OneBadge? then w[0] == Str(l.badge) else w[0] == LBracket)
  {
  }

  lemma SameBadges(cs: seq<BadgeClause>, ds: seq<BadgeClause>)
    requires BadgesItem(cs) == BadgesItem(ds)
    ensures cs == ds
  {
    hide BadgeClauseItem, Built;
    forall c, d | BadgeClauseItem(c) == BadgeClauseItem(d)
      ensures c == d
    {
      SameBadgeClause(c, d);
    }
    SameBuilt(cs, ds, BadgeClauseItem);
  }

  lemma SameSpan(s: Span, t: Span)
    requires SpanWords(s) == SpanWords(t)
    ensures s == t
  {
    assert SpanWords(s)[0] == SpanWords(t)[0];
    if s.Counted? {
      assert SpanWords(s)[1] == SpanWords(t)[1];
    }
  }

  function ClauseKind(c: TriggerClause): nat {
    match c
    case WithinSpan(_) => 0
    case PriorityOf(_) => 1
    case ScopeOf(_) => 2
    case CompleteFlag(_) => 3
    case FailedFlag(_) => 4
    case TriggerBadges(_) => 5
    case WhenCond(_) => 6
    case DoAction(_) => 7
    case ElseAction(_) => 8
    case ElseBlock(_) => 9
    case AtOnce(_) => 10
  }

  lemma SameClauseKind(c: TriggerClause, d: TriggerClause)
    requires TriggerClauseItem(c) == TriggerClauseItem(d)
    ensures ClauseKind(c) == ClauseKind(d)
  {
    hide SpanWords, CondWords, ActionWords, ActionsWords, Built;
    ElseForm(c);
    ElseForm(d);
  }

  lemma ElseForm(c: TriggerClause)
    ensures c.ElseAction? ==> TriggerClauseItem(c).operand[0] == Key(Do)
    ensures c.ElseBlock? ==> TriggerClauseItem(c).operand[0] == LBrace
  {
    hide ActionWords, ActionsWords;
  }

  lemma SameTriggerClause(c: TriggerClause, d: TriggerClause)
    requires TriggerClauseItem(c) == TriggerClauseItem(d)
    ensures c == d
  {
    hide SpanWords, CondWords, ActionWords, ActionsWords, Built;
    SameClauseKind(c, d);
    var i, j := TriggerClauseItem(c), TriggerClauseItem(d);
    match c
    case WithinSpan(s) => SameSpan(s, d.span);
    case TriggerBadges(cs) => SameBadges(cs, d.badges);
    case WhenCond(x) => SameCond(x, d.cond);
    case DoAction(a) => SameAction(a, d.action);
    case ElseAction(a) =>
      assert i.operand[1..] == ActionWords(a) && j.operand[1..] == ActionWords(d.action);
      SameAction(a, d.action);
    case ElseBlock(xs) => SameElse(xs, d.actions);
    case _ => assert i.operand[0] == j.operand[0];
  }

  lemma SameTrigger(t: Trigger, u: Trigger)
    requires TriggerItem(t) == TriggerItem(u)
    ensures t == u
  {
    hide TriggerClauseItem, HappeningWords, Built;
    var v, w := TriggerItem(t).head, TriggerItem(u).head;
    assert v[..|v| - 1] == HappeningWords(t.happening) && w[..|w| - 1] == HappeningWords(u.happening);
    SameHappening(t.happening, u.happening);
    forall c, d | TriggerClauseItem(c) == TriggerClauseItem(d)
      ensures c == d
    {
      SameTriggerClause(c, d);
    }
    SameBuilt(t.body, u.body, TriggerClauseItem);
  }

  // ---------- Scenes and enactments ----------

  lemma SameVar(v: Var, w: Var)
    requires VarItem(v) == VarItem(w)
    ensures v == w
  {
    var x, y := VarItem(v).operand, VarItem(w).operand;
    SameOption(ColonOrEquals, MarkWords(v.mark), MarkWords(w.mark),
      [Str(v.value)] + (if v.comma then [Comma] else []), [Str(w.value)] + if w.comma then [Comma] else []);
    assert MarkWords(v.mark) != [] ==> MarkWords(v.mark)[0] == MarkWords(w.mark)[0];
    SameAfterWord(Str(v.value), Str(w.value), v.comma, w.comma);
  }

  lemma SameAfterWord(t: Token, u: Token, comma: bool, other: bool)
    requires [t] + (if comma then [Comma] else []) == [u] + if other then [Comma] else []
    ensures t == u && comma == other
  {
    var v := [t] + if comma then [Comma] else [];
    var w := [u] + if other then [Comma] else [];
    assert v[0] == w[0] && |v| == |w|;
  }

  lemma SameSceneClause(c: SceneClause, d: SceneClause)
    requires SceneClauseItem(c) == SceneClauseItem(d)
    ensures c == d
  {
    hide VarItem, CertificateClauseItem, Built, ListWords, ValueWord;
    var i, j := SceneClauseItem(c), SceneClauseItem(d);
    match c
    case VarsAre(vars) => SameVars(vars, d.vars);
    case CertificateIs(cs) => SameCertificate(cs, d.certificate);
    case TagsAre(tags) => SameLists(tags, d.tags);
    case TemplateIs(_) => assert i.operand[0] == j.operand[0];
    case PackIs(_) => assert i.operand[0] == j.operand[0];
    case SubjectGenIs(_) => assert i.operand[0] == j.operand[0];
    case BodyGenIs(_) => assert i.operand[0] == j.operand[0];
    case _ =>
      assert i.operand[0] == j.operand[0];
      SameValue(c.value, d.value);
  }

  lemma SameVars(vs: seq<Var>, ws: seq<Var>)
    requires Built(vs, VarItem) == Built(ws, VarItem)
    ensures vs == ws
  {
    hide VarItem, Built;
    forall v, w | VarItem(v) == VarItem(w)
      ensures v == w
    {
      SameVar(v, w);
    }
    SameBuilt(vs, ws, VarItem);
  }

  lemma SameCertificate(cs: seq<CertificateClause>, ds: seq<CertificateClause>)
    requires Built(cs, CertificateClauseItem) == Built(ds, CertificateClauseItem)
    ensures cs == ds
  {
    hide Built;
    forall c, d | CertificateClauseItem(c) == CertificateClauseItem(d)
      ensures c == d
    {
      assert CertificateClauseItem(c).operand[0] == CertificateClauseItem(d).operand[0];
    }
    SameBuilt(cs, ds, CertificateClauseItem);
  }

  lemma SameScene(s: SceneNode, t: SceneNode)
    requires SceneItem(s) == SceneItem(t)
    ensures s == t
  {
    hide SceneClauseItem, Built;
    assert SceneItem(s).head[0] == SceneItem(t).head[0];
    forall c, d | SceneClauseItem(c) == SceneClauseItem(d)
      ensures c == d
    {
      SameSceneClause(c, d);
    }
    SameBuilt(s.clauses, t.clauses, SceneClauseItem);
  }

  lemma SameRange(r: SceneRange, q: SceneRange)
    requires RangeItem(r) == RangeItem(q)
    ensures r == q
  {
    hide SceneItem, Built;
    var v, w := RangeItem(r).head, RangeItem(q).head;
    assert v[0] == w[0] && v[2] == w[2] && v[4] == w[4];
    forall s, t | SceneItem(s) == SceneItem(t)
      ensures s == t
    {
      SameScene(s, t);
    }
    SameBuilt(r.scenes, q.scenes, SceneItem);
  }

  lemma SameEnactmentClause(c: EnactmentClause, d: EnactmentClause)
    requires EnactmentClauseItem(c) == EnactmentClauseItem(d)
    ensures c == d
  {
    hide Built, AmountWords, UseWords, HappeningWords;
    match c
    case LevelIs(n) => SameAmount(n, d.amount);
    case EnactmentOrder(n) => SameAmount(n, d.amount);
    case SkipFlag(_) => assert EnactmentClauseItem(c).operand[0] == EnactmentClauseItem(d).operand[0];
    case HasScene(s) => SameScene(s, d.scene);
    case HasTrigger(t) => SameTrigger(t, d.trigger);
    case HasUse(u) => SameUse(u, d.use);
    case HasRange(r) => SameRange(r, d.range);
  }

  lemma SameEnactment(e: EnactmentNode, f: EnactmentNode)
    requires EnactmentItem(e) == EnactmentItem(f)
    ensures e == f
  {
    hide EnactmentClauseItem, Built, ValueWord;
    assert EnactmentItem(e).head[0] == EnactmentItem(f).head[0];
    SameValue(e.name, f.name);
    forall c, d | EnactmentClauseItem(c) == EnactmentClauseItem(d)
      ensures c == d
    {
      SameEnactmentClause(c, d);
    }
    SameBuilt(e.clauses, f.clauses, EnactmentClauseItem);
  }

  // ---------- Storylines and stories ----------

  lemma SameChange(c: BadgeChange, d: BadgeChange)
    requires ChangeItem(c) == ChangeItem(d)
    ensures c == d
  {
    assert ChangeItem(c).operand[0] == ChangeItem(d).operand[0];
  }

  lemma SameBegin(cs: seq<BadgeChange>, ds: seq<BadgeChange>)
    requires BeginItem(cs) == BeginItem(ds)
    ensures cs == ds
  {
    hide ChangeItem, Built;
    forall c, d | ChangeItem(c) == ChangeItem(d)
      ensures c == d
    {
      SameChange(c, d);
    }
    SameBuilt(cs, ds, ChangeItem);
  }

  lemma SameRouteClause(c: RouteClause, d: RouteClause)
    requires RouteClauseItem(c) == RouteClauseItem(d)
    ensures c == d
  {
    hide Built;
    if c.RouteBadges? {
      SameBadges(c.badges, d.badges);
    } else {
      assert RouteClauseItem(c).operand[0] == RouteClauseItem(d).operand[0];
    }
  }

  lemma SameLineEnd(e: StorylineEnd, f: StorylineEnd)
    requires LineEndItem(e) == LineEndItem(f)
    ensures e == f
  {
    hide RouteClauseItem, Built;
    match e
    case LineBadge(c) => SameChange(c, f.change);
    case LineNext(_) => assert LineEndItem(e).operand[0] == LineEndItem(f).operand[0];
    case LineRoute(_, cs) =>
      forall c, d | RouteClauseItem(c) == RouteClauseItem(d)
        ensures c == d
      {
        SameRouteClause(c, d);
      }
      SameBuilt(cs, f.route, RouteClauseItem);
  }

  lemma SameLineEnds(xs: seq<StorylineEnd>, ys: seq<StorylineEnd>)
    requires Built(xs, LineEndItem) == Built(ys, LineEndItem)
    ensures xs == ys
  {
    hide LineEndItem, Built;
    forall e, f | LineEndItem(e) == LineEndItem(f)
      ensures e == f
    {
      SameLineEnd(e, f);
    }
    SameBuilt(xs, ys, LineEndItem);
  }

  lemma SameStoryEnds(xs: seq<StoryEnd>, ys: seq<StoryEnd>)
    requires Built(xs, StoryEndItem) == Built(ys, StoryEndItem)
    ensures xs == ys
  {
    hide Built;
    forall e, f | StoryEndItem(e) == StoryEndItem(f)
      ensures e == f
    {
      assert StoryEndItem(e).operand[0] == StoryEndItem(f).operand[0];
    }
    SameBuilt(xs, ys, StoryEndItem);
  }

  lemma SameField(f: Field, g: Field)
    requires FieldItem(f) == FieldItem(g)
    ensures f == g
  {
    hide MayName;
    var v, w := FieldItem(f).operand, FieldItem(g).operand;
    assert v[1] == w[1] && |v| == |w|;
    if f.value.FieldName? {
      WordIsNoComma(f.value.word);
    }
    if g.value.FieldName? {
      WordIsNoComma(g.value.word);
    }
  }

  lemma SameObject(xs: seq<Field>, ys: seq<Field>)
    requires ObjectItem(xs) == ObjectItem(ys)
    ensures xs == ys
  {
    hide FieldItem, Built;
    forall f, g | FieldItem(f) == FieldItem(g)
      ensures f == g
    {
      SameField(f, g);
    }
    SameBuilt(xs, ys, FieldItem);
  }

  lemma SameSource(s: Source, t: Source)
    requires SourceItem(s) == SourceItem(t)
    ensures s == t
  {
    hide LoopElementItem, Built, MayName;
    if s.InPlace? {
      forall e, f | LoopElementItem(e) == LoopElementItem(f)
        ensures e == f
      {
        SameLoopElement(e, f);
      }
      SameBuilt(s.elements, t.elements, LoopElementItem);
    }
  }

  lemma SameLoopElement(e: LoopElement, f: LoopElement)
    requires LoopElementItem(e) == LoopElementItem(f)
    ensures e == f
  {
    hide Built;
    if e.LoopObject? {
      SameObject(e.fields, f.fields);
    }
  }

  lemma SameFor<T>(l: ForNode<T>, m: ForNode<T>, b: Block, f: T -> Item)
    requires ForItem(l, b, f) == ForItem(m, b, f)
    requires forall x, y :: f(x) == f(y) ==> x == y
    ensures l == m
  {
    hide SourceItem, Built, MayName;
    assert ForItem(l, b, f).head[0] == ForItem(m, b, f).head[0];
    SameSource(l.source, m.source);
    SameBuilt(l.body, m.body, f);
  }

  lemma SameLineLoop(l: ForNode<LineLoopClause>, m: ForNode<LineLoopClause>)
    requires ForItem(l, StorylineFor, LineLoopItem) == ForItem(m, StorylineFor, LineLoopItem)
    ensures l == m
  {
    hide EnactmentItem, UseItem, ForItem, LineLoopItem;
    forall x, y | LineLoopItem(x) == LineLoopItem(y)
      ensures x == y
    {
      SameLineLoopClause(x, y);
    }
    SameFor(l, m, StorylineFor, LineLoopItem);
  }

  lemma SameLineLoopClause(x: LineLoopClause, y: LineLoopClause)
    requires LineLoopItem(x) == LineLoopItem(y)
    ensures x == y
  {
    hide Built, UseWords, ValueWord;
    match x
    case LoopEnactment(e) => SameEnactment(e, y.enactment);
    case LoopUse(u) => SameUse(u, y.use);
  }

  lemma SameStorylineClause(c: StorylineClause, d: StorylineClause)
    requires StorylineClauseItem(c) == StorylineClauseItem(d)
    ensures c == d
  {
    hide Built, AmountWords, UseWords, ValueWord, SourceItem;
    match c
    case StorylineOrder(n) => SameAmount(n, d.amount);
    case StorylineBadges(cs) => SameBadges(cs, d.badges);
    case StorylineBegins(cs) => SameBegin(cs, d.changes);
    case StorylineCompletes(ends) => SameLineEnds(ends, d.ends);
    case StorylineFails(ends) => SameLineEnds(ends, d.ends);
    case HasEnactment(e) => SameEnactment(e, d.enactment);
    case StorylineLoop(l) => SameLineLoop(l, d.enactments);
    case StorylineUse(u) => SameUse(u, d.use);
  }

  lemma SameStoryline(s: StorylineNode, t: StorylineNode)
    requires StorylineItem(s) == StorylineItem(t)
    ensures s == t
  {
    hide StorylineClauseItem, Built;
    assert StorylineItem(s).head[0] == StorylineItem(t).head[0];
    forall c, d | StorylineClauseItem(c) == StorylineClauseItem(d)
      ensures c == d
    {
      SameStorylineClause(c, d);
    }
    SameBuilt(s.clauses, t.clauses, StorylineClauseItem);
  }

  lemma SameStoryLoop(l: ForNode<StorylineNode>, m: ForNode<StorylineNode>)
    requires ForItem(l, StoryFor, StorylineItem) == ForItem(m, StoryFor, StorylineItem)
    ensures l == m
  {
    hide ForItem, StorylineItem;
    forall x, y | StorylineItem(x) == StorylineItem(y)
      ensures x == y
    {
      SameStoryline(x, y);
    }
    SameFor(l, m, StoryFor, StorylineItem);
  }

  lemma SameStoryClause(c: StoryClause, d: StoryClause)
    requires StoryClauseItem(c) == StoryClauseItem(d)
    ensures c == d
  {
    hide Built, UseWords, SourceItem;
    match c
    case StoryBegins(cs) => SameBegin(cs, d.changes);
    case StoryCompletes(ends) => SameStoryEnds(ends, d.ends);
    case StoryFails(ends) => SameStoryEnds(ends, d.ends);
    case StoryBadges(cs) => SameBadges(cs, d.badges);
    case HasStoryline(s) => SameStoryline(s, d.storyline);
    case StoryLoop(l) => SameStoryLoop(l, d.storylines);
    case StoryUse(u) => SameUse(u, d.use);
    case _ => assert StoryClauseItem(c).operand[0] == StoryClauseItem(d).operand[0];
  }

  // ---------- Declarations ----------

  lemma SamePatternClause(c: PatternClause, d: PatternClause)
    requires PatternClauseItem(c) == PatternClauseItem(d)
    ensures c == d
  {
    hide Built, ValueWord, HappeningWords;
    match c
    case PatternEnactment(e) => SameEnactment(e, d.enactment);
    case PatternScene(s) => SameScene(s, d.scene);
    case PatternRange(r) => SameRange(r, d.range);
    case PatternTrigger(t) => SameTrigger(t, d.trigger);
  }

  lemma SameDefaults(cs: seq<DefaultClause>, ds: seq<DefaultClause>)
    requires Built(cs, DefaultClauseItem) == Built(ds, DefaultClauseItem)
    ensures cs == ds
  {
    hide Built, DefaultClauseItem;
    forall c, d | DefaultClauseItem(c) == DefaultClauseItem(d)
      ensures c == d
    {
      SameDefaultClause(c, d);
    }
    SameBuilt(cs, ds, DefaultClauseItem);
  }

  lemma SameDefaultClause(c: DefaultClause, d: DefaultClause)
    requires DefaultClauseItem(c) == DefaultClauseItem(d)
    ensures c == d
  {
    hide Built, UseWords, HappeningWords;
    match c
    case DefaultTrigger(t) => SameTrigger(t, d.trigger);
    case DefaultUse(u) => SameUse(u, d.use);
  }

  lemma SameSender(c: Declaration, d: Declaration)
    requires c.SenderIs? && d.SenderIs? && DeclarationItem(c) == DeclarationItem(d)
    ensures c == d
  {
    hide Built;
    var v, w := DeclarationItem(c).head, DeclarationItem(d).head;
    assert v[1] == w[1];
    forall x, y | SenderClauseItem(x) == SenderClauseItem(y)
      ensures x == y
    {
      assert SenderClauseItem(x).operand[0] == SenderClauseItem(y).operand[0];
    }
    SameBuilt(c.sender, d.sender, SenderClauseItem);
  }

  lemma SameLinks(xs: seq<Link>, ys: seq<Link>)
    requires Built(xs, LinkItem) == Built(ys, LinkItem)
    ensures xs == ys
  {
    hide Built;
    forall x, y | LinkItem(x) == LinkItem(y)
      ensures x == y
    {
      assert LinkItem(x).operand[1] == LinkItem(y).operand[1];
    }
    SameBuilt(xs, ys, LinkItem);
  }

  lemma SameData(c: Declaration, d: Declaration)
    requires c.DataIs? && d.DataIs? && DeclarationItem(c) == DeclarationItem(d)
    ensures c == d
  {
    hide Built, MayName, ObjectItem;
    assert DeclarationItem(c).head[0] == DeclarationItem(d).head[0];
    forall x, y | DataElementItem(x) == DataElementItem(y)
      ensures x == y
    {
      SameDataElement(x, y);
    }
    SameBuilt(c.elements, d.elements, DataElementItem);
  }

  lemma SameDataElement(e: DataElement, f: DataElement)
    requires DataElementItem(e) == DataElementItem(f)
    ensures e == f
  {
    hide Built;
    if e.DataObject? {
      SameObject(e.fields, f.fields);
    }
  }

  lemma SamePattern(c: Declaration, d: Declaration)
    requires c.PatternIs? && d.PatternIs? && DeclarationItem(c) == DeclarationItem(d)
    ensures c == d
  {
    hide Built, TemplateHead, PatternClauseItem;
    SameParams(c.name, d.name, c.params, d.params);
    forall x, y | PatternClauseItem(x) == PatternClauseItem(y)
      ensures x == y
    {
      SamePatternClause(x, y);
    }
    SameBuilt(c.pattern, d.pattern, PatternClauseItem);
  }

  lemma SamePolicy(c: Declaration, d: Declaration)
    requires c.PolicyIs? && d.PolicyIs? && DeclarationItem(c) == DeclarationItem(d)
    ensures c == d
  {
    hide Built, TemplateHead, TriggerItem;
    SameParams(c.name, d.name, c.params, d.params);
    forall x, y | TriggerItem(x) == TriggerItem(y)
      ensures x == y
    {
      SameTrigger(x, y);
    }
    SameBuilt(c.triggers, d.triggers, TriggerItem);
  }

  lemma SameStory(c: Declaration, d: Declaration)
    requires c.StoryIs? && d.StoryIs? && DeclarationItem(c) == DeclarationItem(d)
    ensures c == d
  {
    hide Built, StoryClauseItem;
    assert DeclarationItem(c).head[0] == DeclarationItem(d).head[0];
    forall x, y | StoryClauseItem(x) == StoryClauseItem(y)
      ensures x == y
    {
      SameStoryClause(x, y);
    }
    SameBuilt(c.clauses, d.clauses, StoryClauseItem);
  }

  lemma SameDeclaration(c: Declaration, d: Declaration)
    requires DeclarationItem(c) == DeclarationItem(d)
    ensures c == d
  {
    hide Built, TemplateHead;
    match c
    case SenderIs(_, _) => SameSender(c, d);
    case LinksAre(links) => SameLinks(links, d.links);
    case PatternIs(_, _, _) => SamePattern(c, d);
    case PolicyIs(_, _, _) => SamePolicy(c, d);
    case DataIs(_, _) => SameData(c, d);
    case SceneDefaultsAre(cs) => SameDefaults(cs, d.defaults);
    case EnactmentDefaultsAre(cs) => SameDefaults(cs, d.defaults);
    case StoryIs(_, _) => SameStory(c, d);
  }

  lemma SameItems(s: seq<Declaration>, t: seq<Declaration>)
    requires ScriptItems(s) == ScriptItems(t)
    ensures s == t
  {
    hide Built, DeclarationItem;
    forall c, d | DeclarationItem(c) == DeclarationItem(d)
      ensures c == d
    {
      SameDeclaration(c, d);
    }
    SameBuilt(s, t, DeclarationItem);
  }

  /** The text of a typed tree is read as that tree and no other, and no other tree has it. */
  lemma ScriptIsReadAsIff(s: seq<Declaration>, t: seq<Declaration>)
    ensures ParseItems(Script, ScriptText(s)) == Parsed(ScriptItems(t), [], 0, false) <==> s == t
    ensures ScriptText(s) == ScriptText(t) <==> s == t
  {
    hide ScriptItems, ScriptText, ParseItems;
    ScriptIsRead(s);
    ScriptIsRead(t);
    if ScriptItems(s) == ScriptItems(t) {
      SameItems(s, t);
    }
  }
}
