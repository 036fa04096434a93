/**
  The parser reads every script of the typed trees: without a report, and as that tree.
*/
module ScriptTheorems {
  import opened Wrappers
  import Conditions
  import ConditionParser
  import ActionParser
  import ConditionGrammar
  import ActionGrammar
  import opened BlockGrammar
  import opened BlockTheorems
  import opened ScriptTree

  // ---------- Sequences of clauses ----------

  /** No clause but an else starts with a token that could continue the one before it. */
  predicate Mild(t: Token) {
    t !in {Dot, LParen, Comma, Key(And), Key(Or), Key(UpTo), Key(Else)}
  }

  predicate Gentle(t: Token) {
    Mild(t) || t == Key(Else)
  }

  predicate Before(m: Token -> bool, after: seq<Token>) {
    after == [] || m(after[0])
  }

  function First(i: Item): Token {
    if i.ForLoop? then Key(For) else i.key
  }

  lemma PrintStarts(i: Item)
    ensures Print(i)[0] == First(i)
  {
    hide PrintAll;
  }

  /** A clause of the block that may stand before any token of `m`, and starts with one. */
  ghost predicate Fine(b: Block, i: Item, m: Token -> bool) {
    m(First(i)) && forall a :: Before(m, a) ==> ItemOk(b, i, a)
  }

  lemma {:induction false} BuiltIsGrammatical<T(!new)>(b: Block, xs: seq<T>, f: T -> Item, m: Token -> bool, after: seq<Token>)
    requires forall x :: x in xs ==> Fine(b, f(x), m)
    requires Before(m, after)
    ensures Grammatical(b, Built(xs, f), after) && Before(m, PrintAll(Built(xs, f)) + after)
    decreases |xs|
  {
    hide ItemOk, Print, First;
    var items := Built(xs, f);
    if xs == [] {
      assert PrintAll(items) + after == after;
    } else {
      assert items[0] == f(xs[0]) && items[1..] == Built(xs[1..], f);
      assert xs[0] in xs && forall x :: x in xs[1..] ==> x in xs;
      BuiltIsGrammatical(b, xs[1..], f, m, after);
      PrintStarts(f(xs[0]));
      var tail := PrintAll(items[1..]) + after;
      assert Fine(b, f(xs[0]), m) && ItemOk(b, f(xs[0]), tail);
      assert PrintAll(items) + after == Print(items[0]) + tail;
    }
  }

  /** A block of fine clauses is fine itself. */
  lemma BlockIsFine<T(!new)>(b: Block, key: Token, inner: Block, head: seq<Token>, xs: seq<T>, f: T -> Item, m: Token -> bool, n: Token -> bool)
    requires forall x :: x in xs ==> Fine(inner, f(x), m)
    requires m(Close(inner)) && n(key) && FormOf(b, key) == Sub(inner) && HeadOk(key, head)
    ensures Fine(b, Section(key, inner, head, Built(xs, f)), n)
  {
    hide FormOf, HeadOk, Close, Grammatical, ItemOk;
    var i := Section(key, inner, head, Built(xs, f));
    forall a | Before(n, a)
      ensures ItemOk(b, i, a)
    {
      BuiltIsGrammatical(inner, xs, f, m, [Close(inner)] + a);
      SectionIsOk(b, i, a);
    }
  }

  lemma SectionIsOk(b: Block, i: Item, after: seq<Token>)
    requires i.Section? && FormOf(b, i.key) == Sub(i.block) && HeadOk(i.key, i.head)
    requires Grammatical(i.block, i.items, [Close(i.block)] + after)
    ensures ItemOk(b, i, after)
  {
    hide FormOf, HeadOk, Grammatical, Close;
  }

  // ---------- Words ----------

  lemma {:induction false} CommasAreElements(names: seq<string>)
    ensures Elements(CommaBetween(names, StrWord))
    decreases |names|
  {
    if |names| > 1 {
      var w := CommaBetween(names, StrWord);
      CommasAreElements(names[1..]);
      assert w[1..] == [Comma] + CommaBetween(names[1..], StrWord) && w[2..] == CommaBetween(names[1..], StrWord);
    }
  }

  lemma ListWordsOk(names: seq<string>)
    ensures ListOk(ListWords(names)) && Next(ListWords(names), LBracket)
  {
    hide Elements;
    CommasAreElements(names);
    var w := ListWords(names);
    assert w[1..|w| - 1] == CommaBetween(names, StrWord);
  }

  lemma WordsAreNames(w: Word)
    ensures NameLike(w)
  {
  }

  lemma RefWordsOk(r: Ref, after: seq<Token>)
    requires Before(Mild, after)
    ensures RefOk(RefWords(r), after)
  {
    hide NameLike, MayName;
    WordsAreNames(r.name);
    if r.field.Some? {
      WordsAreNames(r.field.value);
    }
  }

  lemma {:induction false} ParamsAreOk(params: seq<Word>)
    ensures ParamsOk(CommaBetween(params, OneWord))
    decreases |params|
  {
    hide NameLike, MayName;
    if params != [] {
      WordsAreNames(params[0]);
      ParamsAreOk(params[1..]);
    }
  }

  lemma TemplateHeadOk(name: string, params: seq<Word>)
    ensures TemplateOk(TemplateHead(name, params))
  {
    hide ParamsOk;
    ParamsAreOk(params);
    var w := TemplateHead(name, params);
    assert w[2..|w| - 2] == CommaBetween(params, OneWord);
  }

  /** Dotted fields, before what may follow an argument. */
  lemma {:induction false} FieldsAreOk(fields: seq<Word>, w: seq<Token>)
    requires ArgsOk(w) && !Next(w, Dot)
    ensures DotsOk(Spelled(fields, FieldPart) + w)
    decreases |fields|
  {
    hide NameLike, MayName, ArgsOk;
    var ts := Spelled(fields, FieldPart) + w;
    if fields == [] {
      assert ts == w;
    } else {
      WordsAreNames(fields[0]);
      FieldsAreOk(fields[1..], w);
      assert ts[2..] == Spelled(fields[1..], FieldPart) + w;
    }
  }

  lemma ArgumentIsOk(a: Argument, w: seq<Token>)
    requires ArgsOk(w) && !Next(w, Dot)
    ensures ArgsOk(ArgumentWords(a) + w) && !Next(ArgumentWords(a) + w, Dot)
  {
    hide NameLike, MayName, DotsOk;
    var ts := ArgumentWords(a) + w;
    if a.PathArgument? {
      WordsAreNames(a.name);
      FieldsAreOk(a.fields, w);
      assert ts[1..] == Spelled(a.fields, FieldPart) + w;
      DotIsNoName(a.name);
    } else {
      assert ts[1..] == w;
    }
  }

  lemma DotIsNoName(w: Word)
    ensures w != Dot
  {
  }

  lemma CommaIsOk(w: seq<Token>)
    requires ArgsOk(w)
    ensures ArgsOk([Comma] + w)
  {
    assert ([Comma] + w)[1..] == w;
  }

  lemma {:induction false} ArgumentsAreOk(args: seq<Argument>)
    ensures ArgsOk(CommaBetween(args, ArgumentWords)) && !Next(CommaBetween(args, ArgumentWords), Dot)
    decreases |args|
  {
    hide ArgsOk, ArgumentWords;
    if args == [] {
      NoArguments();
    } else if |args| == 1 {
      NoArguments();
      ArgumentIsOk(args[0], []);
      assert ArgumentWords(args[0]) + [] == ArgumentWords(args[0]);
    } else {
      ArgumentsAreOk(args[1..]);
      CommaIsOk(CommaBetween(args[1..], ArgumentWords));
      ArgumentIsOk(args[0], [Comma] + CommaBetween(args[1..], ArgumentWords));
    }
  }

  lemma NoArguments()
    ensures ArgsOk([])
  {
  }

  lemma UseWordsOk(u: Use, after: seq<Token>)
    requires Before(Mild, after)
    ensures UseOk(UseWords(u), after)
  {
    hide NameLike, MayName, ArgListOk, ArgsWords;
    var w := UseWords(u);
    if !u.UseSender? {
      WordsAreNames(w[1]);
      assert w[2..] == ArgsWords(u.args);
      ArgsWordsOk(u.args, after);
    }
  }

  lemma ArgsWordsOk(args: Option<seq<Argument>>, after: seq<Token>)
    requires Before(Mild, after)
    ensures ArgListOk(ArgsWords(args), after)
  {
    hide ArgsOk, CommaBetween;
    if args.Some? {
      ArgumentsAreOk(args.value);
      var w := ArgsWords(args);
      assert w[1..|w| - 1] == CommaBetween(args.value, ArgumentWords);
    }
  }

  // ---------- Conditions ----------

  lemma ConditionJoin(v: seq<Token>, w: seq<Token>)
    ensures AsCondition(v + w) == AsCondition(v) + AsCondition(w)
  {
  }

  lemma LeafIsPrinted(key: Token, n: string)
    ensures AsCondition([key, Str(n)]) == [ConditionToken(key), ConditionParser.TokString(n)]
  {
  }

  lemma {:induction false} CondIsPrinted(c: Conditions.Cond)
    ensures AsCondition(CondWords(c)) == ConditionParser.Print(c)
    decreases c, 1
  {
    hide CondsWords, CondWords, ConditionParser.PrintAll, ConditionParser.Print, AsCondition;
    if c.And? || c.Or? {
      CondsArePrinted(c, c.children);
      BlockIsPrinted(c);
    } else if c.Not? {
      NotIsPrinted(c);
    } else {
      SingleIsPrinted(c);
    }
  }

  lemma SingleIsPrinted(c: Conditions.Cond)
    requires !c.And? && !c.Or? && !c.Not?
    ensures AsCondition(CondWords(c)) == ConditionParser.Print(c)
  {
    hide AsCondition;
    LeafIsPrinted(CondWords(c)[0], c.name);
  }

  lemma BlockIsPrinted(c: Conditions.Cond)
    requires (c.And? || c.Or?) && AsCondition(CondsWords(c.children)) == ConditionParser.PrintAll(c.children)
    ensures AsCondition(CondWords(c)) == ConditionParser.Print(c)
  {
    hide CondsWords, ConditionParser.PrintAll, AsCondition;
    BracesArePrinted(CondWords(c)[0], c.children);
  }

  lemma {:induction false} NotIsPrinted(c: Conditions.Cond)
    requires c.Not?
    ensures AsCondition(CondWords(c)) == ConditionParser.Print(c)
    decreases c, 0
  {
    var cs := c.children;
    if cs != [] {
      CondIsPrinted(cs[0]);
      ConditionJoin([Key(Not)], CondWords(cs[0]));
    }
  }

  lemma BracesArePrinted(key: Token, cs: seq<Conditions.Cond>)
    requires AsCondition(CondsWords(cs)) == ConditionParser.PrintAll(cs)
    ensures AsCondition([key, LBrace] + CondsWords(cs) + [RBrace])
      == [ConditionToken(key), ConditionParser.TokLBrace] + ConditionParser.PrintAll(cs) + [ConditionParser.TokRBrace]
  {
    hide CondsWords, ConditionParser.PrintAll;
    ConditionJoin([key, LBrace] + CondsWords(cs), [RBrace]);
    ConditionJoin([key, LBrace], CondsWords(cs));
  }

  lemma {:induction false} CondsArePrinted(parent: Conditions.Cond, cs: seq<Conditions.Cond>)
    requires forall k :: 0 <= k < |cs| ==> cs[k] < parent
    ensures AsCondition(CondsWords(cs)) == ConditionParser.PrintAll(cs)
    decreases parent, 0, |cs|
  {
    if cs != [] {
      CondIsPrinted(cs[0]);
      CondsArePrinted(parent, cs[1..]);
      ConditionJoin(CondWords(cs[0]), CondsWords(cs[1..]));
    }
  }

  lemma {:induction false} OnlyAndOrContinue(c: Conditions.Cond, t: ConditionParser.Token)
    requires t != ConditionParser.TokAnd && t != ConditionParser.TokOr
    ensures !ConditionParser.Continues(c, t)
    decreases c
  {
    if c.Not? && c.children != [] {
      OnlyAndOrContinue(c.children[0], t);
    }
  }

  lemma NeitherAndNorOr(t: Token)
    requires Gentle(t)
    ensures ConditionToken(t) != ConditionParser.TokAnd && ConditionToken(t) != ConditionParser.TokOr
  {
  }

  /** A condition is read as itself. */
  lemma CondIsRead(c: Readable, after: seq<Token>)
    requires Before(Gentle, after)
    ensures ConditionParser.ParseCond(AsCondition(CondWords(c) + after)) == ConditionParser.Parsed(Some(c), AsCondition(after), 0)
  {
    hide ConditionParser.Readable, ConditionParser.ParseCond, ConditionParser.Print, CondWords, ConditionParser.Continues, ConditionToken, Gentle;
    CondIsPrinted(c);
    ConditionJoin(CondWords(c), after);
    if after != [] {
      NeitherAndNorOr(after[0]);
      OnlyAndOrContinue(c, ConditionToken(after[0]));
    }
    ConditionParser.ParsePrint(c, AsCondition(after));
  }

  lemma GuardIsOk(c: Readable, after: seq<Token>)
    requires Before(Gentle, after)
    ensures OperandOk(Guard, CondWords(c), after)
  {
    hide OperandOk, ConditionParser.ParseCond, Gentle, CondWords, ConditionParser.Readable;
    CondIsRead(c, after);
    GuardIsReadIff(CondWords(c), after);
  }

  // ---------- Actions ----------

  lemma ActionJoin(v: seq<Token>, w: seq<Token>)
    ensures AsAction(v + w) == AsAction(v) + AsAction(w)
  {
  }

  lemma {:induction false} ActionIsPrinted(a: ActionParser.Action)
    ensures AsAction(ActionWords(a)) == ActionParser.Print(a)
    decreases a, 1
  {
    if a.Retry? {
      ActionsArePrinted(a, a.fallback);
      RetryIsPrinted(a);
    }
  }

  lemma RetryIsPrinted(a: ActionParser.Action)
    requires a.Retry? && AsAction(ActionsWords(a.fallback)) == ActionParser.PrintAll(a.fallback)
    ensures AsAction(ActionWords(a)) == ActionParser.Print(a)
  {
    hide ActionsWords, ActionParser.PrintAll, AsAction, RetryWords, MaxWords, ActionParser.PrintHead, ActionParser.PrintMax;
    var tail := if a.fallback == [] then [] else [Key(Else), LBrace] + (ActionsWords(a.fallback) + [RBrace]);
    ActionJoin(RetryWords(a.head), MaxWords(a.max) + tail);
    ActionJoin(MaxWords(a.max), tail);
    BracedArePrinted([Key(Else), LBrace], a.fallback);
    RetryWordsArePrinted(a.head, a.max);
  }

  lemma RetryWordsArePrinted(h: ActionParser.RetryHead, max: Option<int>)
    ensures AsAction(RetryWords(h)) == ActionParser.PrintHead(h) && AsAction(MaxWords(max)) == ActionParser.PrintMax(max)
    ensures AsAction([Key(Else), LBrace]) == [ActionParser.TokElse, ActionParser.TokLBrace] && AsAction([]) == []
  {
  }

  lemma BracedArePrinted(w: seq<Token>, actions: seq<ActionParser.Action>)
    requires AsAction(ActionsWords(actions)) == ActionParser.PrintAll(actions)
    ensures AsAction(w + (ActionsWords(actions) + [RBrace]))
      == AsAction(w) + (ActionParser.PrintAll(actions) + [ActionParser.TokRBrace])
  {
    hide ActionsWords, ActionParser.PrintAll;
    ActionJoin(w, ActionsWords(actions) + [RBrace]);
    ActionJoin(ActionsWords(actions), [RBrace]);
  }

  lemma {:induction false} ActionsArePrinted(parent: ActionParser.Action, actions: seq<ActionParser.Action>)
    requires forall k :: 0 <= k < |actions| ==> actions[k] < parent
    ensures AsAction(ActionsWords(actions)) == ActionParser.PrintAll(actions)
    decreases parent, 0, |actions|
  {
    hide ActionWords, ActionParser.Print;
    if actions != [] {
      ActionIsPrinted(actions[0]);
      ActionsArePrinted(parent, actions[1..]);
      ActionJoin([Key(Do)] + ActionWords(actions[0]), ActionsWords(actions[1..]));
      ActionJoin([Key(Do)], ActionWords(actions[0]));
    }
  }

  /** An open retry action stands before anything but an else. */
  predicate BeforeAction(a: ActionParser.Action, after: seq<Token>) {
    Before(Mild, after) || (!ActionParser.Open(a) && Next(after, Key(Else)))
  }

  lemma NothingContinues(t: Token)
    requires Mild(t)
    ensures ActionToken(t) != ActionParser.TokElse && ActionToken(t) != ActionParser.TokUpTo
  {
    hide Unit;
  }

  /** An action is read as itself. */
  lemma ActionIsReadBack(a: ActionParser.Action, after: seq<Token>)
    requires BeforeAction(a, after)
    ensures ActionParser.ParseAction(AsAction(ActionWords(a) + after)) == ActionParser.Parsed(Some(a), AsAction(after), 0)
  {
    hide ActionParser.ParseAction, ActionParser.Print, ActionWords, ActionToken, Mild;
    ActionIsPrinted(a);
    ActionJoin(ActionWords(a), after);
    if after != [] && Mild(after[0]) {
      NothingContinues(after[0]);
    }
    ActionParser.ActionReadsBack(a, AsAction(after));
  }

  lemma ActionIsOk(a: ActionParser.Action, after: seq<Token>)
    requires BeforeAction(a, after)
    ensures OperandOk(Action, ActionWords(a), after)
  {
    hide OperandOk, ActionParser.ParseAction, BeforeAction, ActionWords;
    ActionIsReadBack(a, after);
    ActionIsReadIff(ActionWords(a), after);
  }

  /** An else is read as its actions. */
  lemma ElseBlockIsRead(actions: seq<ActionParser.Action>, after: seq<Token>)
    ensures ActionParser.ParseElse(AsAction([Key(Else)] + (ElseBlockWords(actions) + after)))
      == ActionParser.Parsed(actions, AsAction(after), 0)
  {
    hide ActionParser.ParseElse, ActionParser.PrintAll, ActionsWords;
    var parent := ActionParser.Retry(ActionParser.Bare(ActionParser.RetryScene), None, actions);
    ActionsArePrinted(parent, actions);
    BracedArePrinted([Key(Else), LBrace], actions);
    var w := [Key(Else), LBrace] + (ActionsWords(actions) + [RBrace]);
    assert [Key(Else)] + (ElseBlockWords(actions) + after) == w + after;
    ActionJoin(w, after);
    if actions == [] {
      EmptyElse(AsAction(after));
      NoActions();
      assert w == [Key(Else), LBrace, RBrace];
      assert AsAction(w) == [ActionParser.TokElse, ActionParser.TokLBrace, ActionParser.TokRBrace];
    } else {
      ActionParser.ElseReadsBack(parent, actions, AsAction(after));
      assert AsAction(w) == ActionParser.PrintElse(actions);
    }
  }

  lemma NoActions()
    ensures ActionsWords([]) == []
  {
  }

  function ElseBlockWords(actions: seq<ActionParser.Action>): seq<Token> {
    [LBrace] + (ActionsWords(actions) + [RBrace])
  }

  lemma EmptyElse(rest: seq<ActionParser.Token>)
    ensures ActionParser.ParseElse([ActionParser.TokElse, ActionParser.TokLBrace, ActionParser.TokRBrace] + rest)
      == ActionParser.Parsed([], rest, 0)
  {
    hide ActionParser.ParseActions, ActionParser.ParseAction;
    var ts, close := [ActionParser.TokElse, ActionParser.TokLBrace, ActionParser.TokRBrace] + rest, [ActionParser.TokRBrace] + rest;
    assert ts[1..][1..] == close && close[1..] == rest;
    ActionParser.ActionsEnd(close);
  }

  lemma ElseActionIsRead(a: ActionParser.Action, after: seq<Token>)
    requires BeforeAction(a, after)
    ensures ActionParser.ParseElse(AsAction([Key(Else)] + (([Key(Do)] + ActionWords(a)) + after)))
      == ActionParser.Parsed([a], AsAction(after), 0)
  {
    hide ActionParser.ParseAction, ActionParser.ParseElse, BeforeAction, ActionWords;
    ActionIsReadBack(a, after);
    var w := ActionWords(a) + after;
    assert [Key(Else)] + (([Key(Do)] + ActionWords(a)) + after) == [Key(Else), Key(Do)] + w;
    ActionJoin([Key(Else), Key(Do)], w);
    assert AsAction([Key(Else), Key(Do)]) == [ActionParser.TokElse, ActionParser.TokDo];
    ElseDo(AsAction(w));
  }

  lemma ElseDo(ts: seq<ActionParser.Token>)
    ensures var a := ActionParser.ParseAction(ts);
            ActionParser.ParseElse([ActionParser.TokElse, ActionParser.TokDo] + ts)
              == ActionParser.Parsed(ActionParser.OptSeq(a.value), a.rest, a.errs)
  {
    hide ActionParser.ParseAction, ActionParser.ParseActions;
    var all := [ActionParser.TokElse, ActionParser.TokDo] + ts;
    assert all[1..] == [ActionParser.TokDo] + ts && all[1..][1..] == ts;
  }

  lemma ElseIsOk(c: TriggerClause, after: seq<Token>)
    requires c.ElseBlock? || (c.ElseAction? && BeforeAction(c.action, after))
    ensures OperandOk(Otherwise, TriggerClauseItem(c).operand, after)
  {
    hide OperandOk, ActionParser.ParseElse, BeforeAction, ActionWords, ActionsWords;
    if c.ElseBlock? {
      ElseBlockIsRead(c.actions, after);
    } else {
      ElseActionIsRead(c.action, after);
    }
    ElseIsReadIff(TriggerClauseItem(c).operand, after);
  }

  lemma UnitIsItsInitial(u: UnitWord)
    ensures Unit(u) == Some(u[..1])
  {
    assert u[..1] == [u[0]];
  }

  /** A span of time is read as its length, in units named by their initials. */
  lemma SpanIsRead(s: Span, after: seq<Token>)
    ensures ActionParser.ParseDuration(AsAction(SpanWords(s) + after))
      == ActionParser.Parsed(match s case Exact(d) => d case Counted(n, u) => ActionParser.Duration(n, u[..1]), AsAction(after), 0)
  {
    var w := SpanWords(s);
    ActionJoin(w, after);
    var ts := AsAction(w + after);
    if s.Exact? {
      assert ts[1..] == AsAction(after);
    } else {
      hide Unit;
      UnitIsItsInitial(s.unit);
      assert ts[2..] == AsAction(after);
    }
  }

  // ---------- Clauses ----------

  lemma ClauseIsFine(b: Block, key: Token, w: seq<Token>, m: Token -> bool)
    requires m(key) && !FormOf(b, key).Sub? && !FormOf(b, key).Each? && !FormOf(b, key).Bad?
    requires forall a :: Before(m, a) ==> OperandOk(FormOf(b, key), w, a)
    ensures Fine(b, Clause(key, w), m)
  {
    hide FormOf, OperandOk;
  }

  /** Clauses of one word. */
  lemma WordIsFine(b: Block, key: Token, t: Token, m: Token -> bool)
    requires m(key) && FormOf(b, key) in {BlockGrammar.Text, Number, YesNo, TextOrName} && Is(FormOf(b, key).slots[0].what, t)
    ensures Fine(b, Clause(key, [t]), m)
  {
    hide FormOf, NameLike, Fits, Is;
    var f := FormOf(b, key);
    forall a
      ensures OperandOk(f, [t], a)
    {
      OneSlot(f.slots[0], [t], a);
    }
    ClauseIsFine(b, key, [t], m);
  }

  lemma BraceHead(key: Token)
    requires key in {Key(Links), Key(SceneDefaults), Key(EnactmentDefaults), Key(OnBegin), Key(OnComplete), Key(OnFail),
                     Key(RequiredBadges), Key(Vars), Key(Certificate), Key(Route), Key(ConditionalRoute)}
    ensures HeadOk(key, [LBrace])
  {
    hide Fits;
    OneSlot(Need(Exactly(LBrace)), [LBrace], []);
  }

  lemma NameHead(key: Token, t: Token)
    requires (key in {Key(Story), Key(Storyline), Key(Scene)} && t.Str?) || (key == Key(Enactment) && (t.Str? || NameLike(t)))
    ensures HeadOk(key, [t, LBrace])
  {
    hide Fits, NameLike;
    var slots := HeadSlots(key, [t, LBrace]);
    TwoSlots(slots[0], slots[1], [t, LBrace], []);
  }

  lemma ValueIsOk(v: Value)
    ensures Is(StringOrNameLike, ValueWord(v))
  {
    hide NameLike, MayName;
    if v.Named? {
      WordsAreNames(v.word);
    }
  }

  lemma BadgeClauseFine(c: BadgeClause)
    ensures Fine(BadgesBlock, BadgeClauseItem(c), Mild)
  {
    hide ListOk, ListWords;
    if c.list.Badges? {
      ListWordsOk(c.list.badges);
    }
    ClauseIsFine(BadgesBlock, BadgeClauseItem(c).key, BadgeListWords(c.list), Mild);
  }

  lemma BadgesFine(b: Block, cs: seq<BadgeClause>, m: Token -> bool)
    requires b in {StoryBlock, StorylineBlock, TriggerBlock, RouteBlock} && m(Key(RequiredBadges))
    ensures Fine(b, BadgesItem(cs), m)
  {
    hide BadgeClauseItem, Fine, HeadOk;
    forall c | c in cs
      ensures Fine(BadgesBlock, BadgeClauseItem(c), Mild)
    {
      BadgeClauseFine(c);
    }
    BraceHead(Key(RequiredBadges));
    BlockIsFine(b, Key(RequiredBadges), BadgesBlock, [LBrace], cs, BadgeClauseItem, Mild, m);
  }

  // ---------- Scenes ----------

  lemma VarFine(v: Var)
    ensures Fine(VarsBlock, VarItem(v), Mild)
  {
    var slots := [Want(ColonOrEquals), Need(AString), Want(Exactly(Comma))];
    forall a | Before(Mild, a)
      ensures Fits(slots, VarItem(v).operand, a)
    {
      VarFits(MarkWords(v.mark), v.value, v.comma, a);
    }
    ClauseIsFine(VarsBlock, VarItem(v).key, VarItem(v).operand, Mild);
  }

  lemma VarFits(mark: seq<Token>, value: string, comma: bool, after: seq<Token>)
    requires Before(Mild, after) && (mark == [] || (|mark| == 1 && Is(ColonOrEquals, mark[0])))
    ensures Fits([Want(ColonOrEquals), Need(AString), Want(Exactly(Comma))],
                 mark + ([Str(value)] + if comma then [Comma] else []), after)
  {
    hide Fits;
    var w := [Str(value)] + if comma then [Comma] else [];
    var more := [Need(AString), Want(Exactly(Comma))];
    OptionalSlot(Need(AString), Exactly(Comma), w, after);
    assert mark == [] ==> mark + w == w;
    assert mark != [] ==> (mark + w)[1..] == w;
    FirstSlot(Want(ColonOrEquals), more, mark + w, after);
    assert [Want(ColonOrEquals)] + more == [Want(ColonOrEquals), Need(AString), Want(Exactly(Comma))];
  }

  /** The first of some words. */
  lemma FirstSlot(s: Slot, more: seq<Slot>, w: seq<Token>, after: seq<Token>)
    ensures Fits([s] + more, w, after) <==>
      if Starts(s.what, w) then Fits(more, w[1..], after) else s.Want? && !Starts(s.what, w + after) && Fits(more, w, after)
  {
    assert ([s] + more)[1..] == more;
  }

  lemma VarsFine(vars: seq<Var>)
    ensures Fine(SceneBlock, SceneClauseItem(VarsAre(vars)), Mild)
  {
    hide VarItem, Fine, HeadOk;
    forall v | v in vars
      ensures Fine(VarsBlock, VarItem(v), Mild)
    {
      VarFine(v);
    }
    BraceHead(Key(Vars));
    BlockIsFine(SceneBlock, Key(Vars), VarsBlock, [LBrace], vars, VarItem, Mild, Mild);
  }

  lemma CertificateClauseFine(c: CertificateClause)
    ensures Fine(CertificateBlock, CertificateClauseItem(c), Mild)
  {
    hide Fine;
    WordIsFine(CertificateBlock, CertificateClauseItem(c).key, CertificateClauseItem(c).operand[0], Mild);
  }

  lemma CertificateFine(cs: seq<CertificateClause>)
    ensures Fine(SceneBlock, SceneClauseItem(CertificateIs(cs)), Mild)
  {
    hide CertificateClauseItem, Fine, HeadOk;
    forall c | c in cs
      ensures Fine(CertificateBlock, CertificateClauseItem(c), Mild)
    {
      CertificateClauseFine(c);
    }
    BraceHead(Key(Certificate));
    BlockIsFine(SceneBlock, Key(Certificate), CertificateBlock, [LBrace], cs, CertificateClauseItem, Mild, Mild);
  }

  lemma TagsFine(tags: seq<string>)
    ensures Fine(SceneBlock, Clause(Key(Tags), ListWords(tags)), Mild)
  {
    hide ListOk, ListWords;
    ListWordsOk(tags);
    ClauseIsFine(SceneBlock, Key(Tags), ListWords(tags), Mild);
  }

  lemma SceneValueFine(c: SceneClause)
    requires c.SubjectIs? || c.BodyIs? || c.FromEmailIs? || c.FromNameIs? || c.ReplyToIs?
    ensures Fine(SceneBlock, SceneClauseItem(c), Mild)
  {
    hide Fine, NameLike, MayName, ValueWord;
    ValueIsOk(c.value);
    WordIsFine(SceneBlock, SceneClauseItem(c).key, ValueWord(c.value), Mild);
  }

  lemma SceneTextFine(c: SceneClause)
    requires c.TemplateIs? || c.PackIs? || c.SubjectGenIs? || c.BodyGenIs?
    ensures Fine(SceneBlock, SceneClauseItem(c), Mild)
  {
    hide Fine;
    WordIsFine(SceneBlock, SceneClauseItem(c).key, Str(c.text), Mild);
  }

  lemma SceneClauseFine(c: SceneClause)
    ensures Fine(SceneBlock, SceneClauseItem(c), Mild)
  {
    hide Fine, SceneClauseItem;
    match c
    case VarsAre(vars) => VarsFine(vars);
    case CertificateIs(cs) => CertificateFine(cs);
    case TagsAre(tags) => TagsFine(tags); TagsItem(tags);
    case TemplateIs(_) => SceneTextFine(c);
    case PackIs(_) => SceneTextFine(c);
    case SubjectGenIs(_) => SceneTextFine(c);
    case BodyGenIs(_) => SceneTextFine(c);
    case _ => SceneValueFine(c);
  }

  lemma TagsItem(tags: seq<string>)
    ensures SceneClauseItem(TagsAre(tags)) == Clause(Key(Tags), ListWords(tags))
  {
  }

  lemma SceneFine(b: Block, s: SceneNode)
    requires b in {EnactmentBlock, PatternBlock, RangeBlock}
    ensures Fine(b, SceneItem(s), Mild)
  {
    hide SceneClauseItem, Fine, HeadOk;
    forall c | c in s.clauses
      ensures Fine(SceneBlock, SceneClauseItem(c), Mild)
    {
      SceneClauseFine(c);
    }
    NameHead(Key(Scene), Str(s.name));
    BlockIsFine(b, Key(Scene), SceneBlock, [Str(s.name), LBrace], s.clauses, SceneClauseItem, Mild, Mild);
  }

  lemma RangeFine(b: Block, r: SceneRange)
    requires b in {EnactmentBlock, PatternBlock}
    ensures Fine(b, RangeItem(r), Mild)
  {
    hide SceneItem, Fine, HeadOk;
    forall s | s in r.scenes
      ensures Fine(RangeBlock, SceneItem(s), Mild)
    {
      SceneFine(RangeBlock, s);
    }
    RangeHead(RangeItem(r).head, r);
    BlockIsFine(b, Key(Scenes), RangeBlock, RangeItem(r).head, r.scenes, SceneItem, Mild, Mild);
  }

  lemma RangeHead(w: seq<Token>, r: SceneRange)
    requires w == [Int(r.first), DotDot, Int(r.last), Key(As), Name(r.variable), LBrace]
    ensures HeadOk(Key(Scenes), w)
  {
    hide Fits;
    AllThere(HeadSlots(Key(Scenes), w), w, []);
  }

  /** Every word is there. */
  lemma {:induction false} AllThere(slots: seq<Slot>, w: seq<Token>, after: seq<Token>)
    requires |w| == |slots| && forall i :: 0 <= i < |w| ==> Is(slots[i].what, w[i])
    ensures Fits(slots, w, after)
    decreases |slots|
  {
    if slots != [] {
      AllThere(slots[1..], w[1..], after);
    }
  }

  // ---------- Triggers ----------

  lemma TriggerWordFine(c: TriggerClause)
    requires c.PriorityOf? || c.ScopeOf? || c.CompleteFlag? || c.FailedFlag? || c.AtOnce?
    ensures Fine(TriggerBlock, TriggerClauseItem(c), Gentle)
  {
    hide Fine;
    match c
    case PriorityOf(n) => WordIsFine(TriggerBlock, Key(TriggerPriority), Int(n), Gentle);
    case ScopeOf(s) => WordIsFine(TriggerBlock, Key(PersistScope), Str(s), Gentle);
    case CompleteFlag(b) => WordIsFine(TriggerBlock, Plain(ActionParser.MarkComplete), Flag(b), Gentle);
    case FailedFlag(b) => WordIsFine(TriggerBlock, Plain(ActionParser.MarkFailed), Flag(b), Gentle);
    case AtOnce(b) => WordIsFine(TriggerBlock, Key(SendImmediate), Flag(b), Gentle);
  }

  lemma SpanFine(s: Span)
    ensures Fine(TriggerBlock, Clause(Key(Within), SpanWords(s)), Gentle)
  {
    hide Unit;
    if s.Counted? {
      UnitIsItsInitial(s.unit);
    }
    ClauseIsFine(TriggerBlock, Key(Within), SpanWords(s), Gentle);
  }

  lemma WhenFine(c: Readable)
    ensures Fine(TriggerBlock, Clause(Key(When), CondWords(c)), Gentle)
  {
    hide CondWords, ConditionParser.Readable;
    forall a | Before(Gentle, a)
      ensures OperandOk(Guard, CondWords(c), a)
    {
      GuardIsOk(c, a);
    }
    ClauseIsFine(TriggerBlock, Key(When), CondWords(c), Gentle);
  }

  function Allowed(open: bool): Token -> bool {
    if open then Mild else Gentle
  }

  lemma BeforeAllowed(a: ActionParser.Action, after: seq<Token>)
    requires Before(Allowed(ActionParser.Open(a)), after)
    ensures BeforeAction(a, after)
  {
  }

  lemma DoFine(a: ActionParser.Action, after: seq<Token>)
    requires Before(Allowed(ActionParser.Open(a)), after)
    ensures ItemOk(TriggerBlock, Clause(Key(Do), ActionWords(a)), after)
  {
    hide ActionWords, OperandOk;
    BeforeAllowed(a, after);
    ActionIsOk(a, after);
  }

  lemma ElseFine(c: TriggerClause, after: seq<Token>)
    requires c.ElseBlock? || (c.ElseAction? && Before(Allowed(ActionParser.Open(c.action)), after))
    ensures ItemOk(TriggerBlock, TriggerClauseItem(c), after)
  {
    hide ActionWords, ActionsWords, OperandOk;
    if c.ElseAction? {
      BeforeAllowed(c.action, after);
    }
    ElseIsOk(c, after);
  }

  /** A trigger's clause may stand before any other, but for an else behind an open retry action. */
  lemma TriggerClauseOk(c: TriggerClause, after: seq<Token>)
    requires Before(Allowed(EndsOpen(c)), after)
    ensures ItemOk(TriggerBlock, TriggerClauseItem(c), after)
  {
    hide ItemOk;
    match c
    case WithinSpan(s) => SpanFine(s);
    case WhenCond(cond) => WhenFine(cond);
    case DoAction(a) => DoFine(a, after);
    case ElseAction(_) => ElseFine(c, after);
    case ElseBlock(_) => ElseFine(c, after);
    case TriggerBadges(cs) => BadgesFine(TriggerBlock, cs, Gentle);
    case _ => TriggerWordFine(c);
  }

  lemma TriggerClauseStarts(c: TriggerClause)
    ensures Gentle(First(TriggerClauseItem(c)))
    ensures First(TriggerClauseItem(c)) == Key(Else) ==> c.ElseAction? || c.ElseBlock?
  {
    hide SpanWords, CondWords, ActionWords, ActionsWords;
  }

  lemma {:induction false} TriggerBodyOk(cs: TriggerBody, after: seq<Token>)
    requires Next(after, RBrace)
    ensures Grammatical(TriggerBlock, Built(cs, TriggerClauseItem), after)
    decreases |cs|
  {
    hide ItemOk, TriggerClauseItem, Print, EndsOpen;
    var items := Built(cs, TriggerClauseItem);
    if cs != [] {
      assert items[1..] == Built(cs[1..], TriggerClauseItem);
      TriggerBodyOk(cs[1..], after);
      var tail := PrintAll(items[1..]) + after;
      if |cs| == 1 {
        assert tail == after;
      } else {
        TriggerClauseStarts(cs[1]);
        PrintStarts(items[1]);
        assert tail[0] == First(items[1]);
      }
      TriggerClauseOk(cs[0], tail);
    }
  }

  // ---------- What triggers wait for ----------

  /** A word that is wanted may be there or not, if what follows cannot be taken for it. */
  lemma OptionIsTaken(c: Class, more: seq<Slot>, o: seq<Token>, w: seq<Token>)
    requires o == [] || (|o| == 1 && Is(c, o[0]))
    requires w != [] && !Is(c, w[0]) && Fits(more, w, [])
    ensures Fits([Want(c)] + more, o + w, [])
  {
    hide Fits;
    FirstSlot(Want(c), more, o + w, []);
    assert o == [] ==> o + w == w && w + [] == w;
    assert o != [] ==> (o + w)[1..] == w;
  }

  lemma MeasureFits(h: Happening, w: seq<Token>)
    requires (h.OnWatch? || h.OnProgress?) && w == MeasureWords(h.block, h.op, h.amount, h.sign) + [LBrace]
    ensures Fits([Want(AString), Want(AComparison), Want(AnInt), Want(Exactly(Percent)), Need(Exactly(LBrace))], w, [])
  {
    hide Fits;
    var s4: seq<Slot> := [Need(Exactly(LBrace))];
    var s3, s2 := [Want(Exactly(Percent))] + s4, [Want(AnInt), Want(Exactly(Percent))] + s4;
    var o1, o2 := OptText(h.block), if h.op.Some? then [Compare(h.op.value)] else [];
    var o3, o4 := if h.amount.Some? then [Int(h.amount.value)] else [], if h.sign then [Percent] else [];
    OneSlot(s4[0], [LBrace], []);
    OptionIsTaken(Exactly(Percent), s4, o4, [LBrace]);
    var w3, w2 := o4 + [LBrace], o3 + (o4 + [LBrace]);
    OptionIsTaken(AnInt, s3, o3, w3);
    assert [Want(AnInt)] + s3 == s2;
    OptionIsTaken(AComparison, s2, o2, w2);
    OptionIsTaken(AString, [Want(AComparison)] + s2, o1, o2 + w2);
    assert w == o1 + (o2 + w2);
    assert [Want(AString)] + ([Want(AComparison)] + s2)
      == [Want(AString), Want(AComparison), Want(AnInt), Want(Exactly(Percent)), Need(Exactly(LBrace))];
  }

  lemma LinkFits(l: Option<LinkRef>, v: seq<Token>)
    requires v == LinkWords(l) + [LBrace]
    ensures var slots := if v[0].Str? then [Need(AString)] else if NameLike(v[0]) then RefSlots(v) else [];
            Fits(slots + [Need(Exactly(LBrace))], v, [])
  {
    hide Fits, NameLike, MayName;
    var slots := if v[0].Str? then [Need(AString)] else if NameLike(v[0]) then RefSlots(v) else [];
    BraceIsNoName();
    if l.Some? && l.value.LinkNamed? {
      RefIsNames(l.value.ref);
    }
    AllThere(slots + [Need(Exactly(LBrace))], v, []);
  }

  lemma BraceIsNoName()
    ensures !NameLike(LBrace)
  {
  }

  lemma RefIsNames(r: Ref)
    ensures NameLike(r.name) && !r.name.Str? && (r.field.Some? ==> NameLike(r.field.value))
  {
  }

  /** What an event takes, up to the brace. */
  lemma OperandFits(h: Happening)
    ensures var w := HappeningWords(h);
            Fits(EventOperand(w[0], w[1..] + [LBrace]) + [Need(Exactly(LBrace))], w[1..] + [LBrace], [])
  {
    hide Fits, RefWords, RefSlots, NameLike, MayName;
    var w := HappeningWords(h);
    var v := w[1..] + [LBrace];
    var last: seq<Slot> := [Need(Exactly(LBrace))];
    OneSlot(last[0], [LBrace], []);
    assert [Want(AString), Want(AComparison), Want(AnInt), Want(Exactly(Percent))] + last
      == [Want(AString), Want(AComparison), Want(AnInt), Want(Exactly(Percent)), Need(Exactly(LBrace))];
    match h
    case OnClick(l) => assert w[1..] == LinkWords(l); LinkFits(l, v);
    case OnNotClick(l) => assert w[1..] == LinkWords(l); LinkFits(l, v);
    case OnWebhook(l) => OptionIsTaken(StringOrName, last, w[1..], [LBrace]);
    case OnWatch(b, op, n, sign) => assert w[1..] == MeasureWords(b, op, n, sign); MeasureFits(h, v);
    case OnProgress(b, op, n, sign) => assert w[1..] == MeasureWords(b, op, n, sign); MeasureFits(h, v);
    case OnSubject(_, s) => assert w[1..] == OptText(s); OptionIsTaken(AString, last, w[1..], [LBrace]);
    case _ => BareOperand(h); assert v == [LBrace] && [] + last == last;
  }

  lemma BareOperand(h: Happening)
    requires h.OnBare? || h.OnElse? || h.OnUnsubscribe?
    ensures EventOperand(HappeningWords(h)[0], [LBrace]) == []
  {
  }

  lemma HappeningHead(h: Happening)
    ensures HeadOk(Key(On), HappeningWords(h) + [LBrace])
  {
    hide Fits, EventOperand;
    var w := HappeningWords(h) + [LBrace];
    var v := HappeningWords(h)[1..] + [LBrace];
    assert w[1..] == v;
    OperandFits(h);
    HappeningStarts(h);
    var more := EventOperand(w[0], v) + [Need(Exactly(LBrace))];
    FirstSlot(SkipStop(AnEvent), more, w, []);
    assert [SkipStop(AnEvent)] + more == EventSlots(w);
  }

  lemma HappeningStarts(h: Happening)
    ensures HappeningWords(h) != [] && Is(AnEvent, HappeningWords(h)[0])
  {
    hide LinkWords, MeasureWords, OptText;
  }

  lemma TriggerFine(b: Block, t: Trigger)
    requires b in {EnactmentBlock, PatternBlock, PolicyBlock, DefaultsBlock}
    ensures Fine(b, TriggerItem(t), Mild)
  {
    hide TriggerClauseItem, HeadOk, HappeningWords, ItemOk;
    HappeningHead(t.happening);
    forall a
      ensures ItemOk(b, TriggerItem(t), a)
    {
      TriggerBodyOk(t.body, [RBrace] + a);
      SectionIsOk(b, TriggerItem(t), a);
    }
  }

  // ---------- Enactments, storylines and stories ----------

  lemma UseFine(b: Block, u: Use)
    requires b in {StoryBlock, StorylineBlock, StorylineFor, EnactmentBlock, DefaultsBlock}
    ensures Fine(b, UseItem(u), Mild)
  {
    hide UseOk, UseWords;
    forall a | Before(Mild, a)
      ensures OperandOk(Using, UseWords(u), a)
    {
      UseWordsOk(u, a);
    }
    ClauseIsFine(b, Key(Use), UseWords(u), Mild);
  }

  lemma AmountFine(b: Block, key: Token, n: Amount)
    requires Mild(key) && FormOf(b, key) == NumberOrRef
    ensures Fine(b, Clause(key, AmountWords(n)), Mild)
  {
    hide FormOf, RefOk, RefWords;
    forall a | Before(Mild, a)
      ensures OperandOk(NumberOrRef, AmountWords(n), a)
    {
      if n.AmountOf? {
        RefWordsOk(n.ref, a);
      }
    }
    ClauseIsFine(b, key, AmountWords(n), Mild);
  }

  lemma EnactmentClauseFine(c: EnactmentClause)
    ensures Fine(EnactmentBlock, EnactmentClauseItem(c), Mild)
  {
    hide Fine, SceneItem, TriggerItem, UseItem, RangeItem, AmountWords;
    match c
    case LevelIs(n) => AmountFine(EnactmentBlock, Key(Level), n);
    case EnactmentOrder(n) => AmountFine(EnactmentBlock, Key(Order), n);
    case SkipFlag(b) => WordIsFine(EnactmentBlock, Key(SkipToNextStorylineOnExpiry), Flag(b), Mild);
    case HasScene(s) => SceneFine(EnactmentBlock, s);
    case HasTrigger(t) => TriggerFine(EnactmentBlock, t);
    case HasUse(u) => UseFine(EnactmentBlock, u);
    case HasRange(r) => RangeFine(EnactmentBlock, r);
  }

  lemma EnactmentFine(b: Block, e: EnactmentNode)
    requires b in {StorylineBlock, StorylineFor, PatternBlock}
    ensures Fine(b, EnactmentItem(e), Mild)
  {
    hide EnactmentClauseItem, Fine, HeadOk, ValueWord, NameLike;
    forall c | c in e.clauses
      ensures Fine(EnactmentBlock, EnactmentClauseItem(c), Mild)
    {
      EnactmentClauseFine(c);
    }
    ValueIsOk(e.name);
    NameHead(Key(Enactment), ValueWord(e.name));
    BlockIsFine(b, Key(Enactment), EnactmentBlock, [ValueWord(e.name), LBrace], e.clauses, EnactmentClauseItem, Mild, Mild);
  }

  lemma ChangeFine(b: Block, c: BadgeChange)
    requires b in {BeginBlock, EndBlock, StorylineEndBlock}
    ensures Fine(b, ChangeItem(c), Mild)
  {
    hide Fine;
    WordIsFine(b, ChangeItem(c).key, Str(c.badge), Mild);
  }

  lemma BeginFine(b: Block, cs: seq<BadgeChange>)
    requires b in {StoryBlock, StorylineBlock}
    ensures Fine(b, BeginItem(cs), Mild)
  {
    hide ChangeItem, Fine, HeadOk;
    forall c | c in cs
      ensures Fine(BeginBlock, ChangeItem(c), Mild)
    {
      ChangeFine(BeginBlock, c);
    }
    BraceHead(Key(OnBegin));
    BlockIsFine(b, Key(OnBegin), BeginBlock, [LBrace], cs, ChangeItem, Mild, Mild);
  }

  lemma RouteClauseFine(c: RouteClause)
    ensures Fine(RouteBlock, RouteClauseItem(c), Mild)
  {
    hide Fine, BadgesItem;
    match c
    case RouteBadges(cs) => BadgesFine(RouteBlock, cs, Mild);
    case RouteTo(s) => WordIsFine(RouteBlock, Key(NextStoryline), Str(s), Mild);
    case RoutePriority(n) => WordIsFine(RouteBlock, Key(Priority), Int(n), Mild);
  }

  lemma LineEndFine(e: StorylineEnd)
    ensures Fine(StorylineEndBlock, LineEndItem(e), Mild)
  {
    hide Fine, ChangeItem, RouteClauseItem, HeadOk;
    match e
    case LineBadge(c) => ChangeFine(StorylineEndBlock, c);
    case LineNext(s) => WordIsFine(StorylineEndBlock, Key(NextStoryline), Str(s), Mild);
    case LineRoute(conditional, cs) =>
      forall c | c in cs
        ensures Fine(RouteBlock, RouteClauseItem(c), Mild)
      {
        RouteClauseFine(c);
      }
      var key := if conditional then Key(ConditionalRoute) else Key(Route);
      BraceHead(key);
      BlockIsFine(StorylineEndBlock, key, RouteBlock, [LBrace], cs, RouteClauseItem, Mild, Mild);
  }

  lemma LineEndsFine(key: Token, ends: seq<StorylineEnd>)
    requires key in {Key(OnComplete), Key(OnFail)}
    ensures Fine(StorylineBlock, Section(key, StorylineEndBlock, [LBrace], Built(ends, LineEndItem)), Mild)
  {
    hide LineEndItem, Fine, HeadOk;
    forall e | e in ends
      ensures Fine(StorylineEndBlock, LineEndItem(e), Mild)
    {
      LineEndFine(e);
    }
    BraceHead(key);
    BlockIsFine(StorylineBlock, key, StorylineEndBlock, [LBrace], ends, LineEndItem, Mild, Mild);
  }

  lemma StoryEndFine(e: StoryEnd)
    ensures Fine(EndBlock, StoryEndItem(e), Mild)
  {
    hide Fine, ChangeItem;
    match e
    case EndBadge(c) => ChangeFine(EndBlock, c);
    case EndNext(s) => WordIsFine(EndBlock, Key(NextStory), Str(s), Mild);
  }

  lemma StoryEndsFine(key: Token, ends: seq<StoryEnd>)
    requires key in {Key(OnComplete), Key(OnFail)}
    ensures Fine(StoryBlock, Section(key, EndBlock, [LBrace], Built(ends, StoryEndItem)), Mild)
  {
    hide StoryEndItem, Fine, HeadOk;
    forall e | e in ends
      ensures Fine(EndBlock, StoryEndItem(e), Mild)
    {
      StoryEndFine(e);
    }
    BraceHead(key);
    BlockIsFine(StoryBlock, key, EndBlock, [LBrace], ends, StoryEndItem, Mild, Mild);
  }

  // ---------- Data and loops ----------

  predicate Any(t: Token) {
    true
  }

  lemma FieldFine(f: Field)
    ensures Fine(Object, FieldItem(f), Mild)
  {
    hide NameLike, MayName, Fits;
    WordsAreNames(f.key);
    if f.value.FieldName? {
      WordsAreNames(f.value.word);
    }
    var w := FieldItem(f).operand;
    var more := [SkipStop(StringIntOrNameLike), Want(Exactly(Comma))];
    assert [Need(Exactly(Colon))] + more == [Need(Exactly(Colon)), SkipStop(StringIntOrNameLike), Want(Exactly(Comma))];
    forall a | Before(Mild, a)
      ensures Fits([Need(Exactly(Colon))] + more, w, a)
    {
      OptionalSlot(SkipStop(StringIntOrNameLike), Exactly(Comma), w[1..], a);
      FirstSlot(Need(Exactly(Colon)), more, w, a);
    }
    FieldStarts(f.key);
    ClauseIsFine(Object, f.key, w, Mild);
  }

  lemma FieldStarts(w: Word)
    ensures Mild(w) && NameLike(w)
  {
  }

  lemma ObjectFine(b: Block, fields: seq<Field>)
    requires b in {DataArray, InlineArray}
    ensures Fine(b, ObjectItem(fields), Any)
  {
    hide FieldItem, Fine, HeadOk;
    forall f | f in fields
      ensures Fine(Object, FieldItem(f), Mild)
    {
      FieldFine(f);
    }
    NoHead(LBrace);
    BlockIsFine(b, LBrace, Object, [], fields, FieldItem, Mild, Any);
  }

  lemma NoHead(key: Token)
    requires key == LBrace || key == LBracket
    ensures HeadOk(key, [])
  {
  }

  lemma AloneFine(b: Block, t: Token)
    requires FormOf(b, t) == Alone
    ensures Fine(b, Clause(t, []), Any)
  {
    hide FormOf;
    ClauseIsFine(b, t, [], Any);
  }

  lemma DataElementFine(e: DataElement)
    ensures Fine(DataArray, DataElementItem(e), Any)
  {
    hide Fine, ObjectItem;
    match e
    case DataObject(fields) => ObjectFine(DataArray, fields);
    case DataComma => AloneFine(DataArray, Comma);
  }

  lemma LoopElementFine(e: LoopElement)
    ensures Fine(InlineArray, LoopElementItem(e), Any)
  {
    hide Fine, ObjectItem;
    match e
    case LoopObject(fields) => ObjectFine(InlineArray, fields);
    case LoopText(s) => AloneFine(InlineArray, Str(s));
    case LoopComma => AloneFine(InlineArray, Comma);
  }

  lemma SourceIsOk(s: Source, after: seq<Token>)
    ensures SourceOk(SourceItem(s), after)
  {
    hide LoopElementItem, Fine, NameLike, MayName;
    match s
    case DataNamed(w) => WordsAreNames(w);
    case InPlace(elements) =>
      forall e | e in elements
        ensures Fine(InlineArray, LoopElementItem(e), Any)
      {
        LoopElementFine(e);
      }
      BuiltIsGrammatical(InlineArray, elements, LoopElementItem, Any, [RBracket] + after);
  }

  /** A loop over fine clauses is fine. */
  lemma ForFine<T(!new)>(b: Block, inner: Block, l: ForNode<T>, f: T -> Item)
    requires FormOf(b, Key(For)) == Each(inner) && Close(inner) == RBrace
    requires forall x :: x in l.body ==> Fine(inner, f(x), Mild)
    ensures Fine(b, ForItem(l, inner, f), Mild)
  {
    hide FormOf, NameLike, MayName, Close, Grammatical, SourceOk, SourceItem;
    var i := ForItem(l, inner, f);
    WordsAreNames(l.variable);
    forall a
      ensures ItemOk(b, i, a)
    {
      BuiltIsGrammatical(inner, l.body, f, Mild, [RBrace] + a);
      SourceIsOk(l.source, [LBrace] + (PrintAll(i.items) + ([Close(inner)] + a)));
    }
  }

  lemma LineLoopFine(c: LineLoopClause)
    ensures Fine(StorylineFor, LineLoopItem(c), Mild)
  {
    hide Fine, EnactmentItem, UseItem;
    match c
    case LoopEnactment(e) => EnactmentFine(StorylineFor, e);
    case LoopUse(u) => UseFine(StorylineFor, u);
  }

  lemma StorylineLoopFine(l: ForNode<LineLoopClause>)
    ensures Fine(StorylineBlock, ForItem(l, StorylineFor, LineLoopItem), Mild)
  {
    hide Fine, LineLoopItem, ForItem;
    forall c | c in l.body
      ensures Fine(StorylineFor, LineLoopItem(c), Mild)
    {
      LineLoopFine(c);
    }
    ForFine(StorylineBlock, StorylineFor, l, LineLoopItem);
  }

  lemma StorylineClauseFine(c: StorylineClause)
    ensures Fine(StorylineBlock, StorylineClauseItem(c), Mild)
  {
    hide Fine, AmountWords, BadgesItem, BeginItem, EnactmentItem, ForItem, UseItem, LineEndItem, Built;
    match c
    case StorylineOrder(n) => AmountFine(StorylineBlock, Key(Order), n);
    case StorylineBadges(cs) => BadgesFine(StorylineBlock, cs, Mild);
    case StorylineBegins(cs) => BeginFine(StorylineBlock, cs);
    case StorylineCompletes(ends) => LineEndsFine(Key(OnComplete), ends);
    case StorylineFails(ends) => LineEndsFine(Key(OnFail), ends);
    case HasEnactment(e) => EnactmentFine(StorylineBlock, e);
    case StorylineLoop(l) => StorylineLoopFine(l);
    case StorylineUse(u) => UseFine(StorylineBlock, u);
  }

  lemma StorylineFine(b: Block, s: StorylineNode)
    requires b in {StoryBlock, StoryFor}
    ensures Fine(b, StorylineItem(s), Mild)
  {
    hide Fine, StorylineClauseItem, HeadOk;
    forall c | c in s.clauses
      ensures Fine(StorylineBlock, StorylineClauseItem(c), Mild)
    {
      StorylineClauseFine(c);
    }
    NameHead(Key(Storyline), Str(s.name));
    BlockIsFine(b, Key(Storyline), StorylineBlock, [Str(s.name), LBrace], s.clauses, StorylineClauseItem, Mild, Mild);
  }

  lemma StoryLoopFine(l: ForNode<StorylineNode>)
    ensures Fine(StoryBlock, ForItem(l, StoryFor, StorylineItem), Mild)
  {
    hide Fine, StorylineItem, ForItem;
    forall s | s in l.body
      ensures Fine(StoryFor, StorylineItem(s), Mild)
    {
      StorylineFine(StoryFor, s);
    }
    ForFine(StoryBlock, StoryFor, l, StorylineItem);
  }

  lemma StoryClauseFine(c: StoryClause)
    ensures Fine(StoryBlock, StoryClauseItem(c), Mild)
  {
    hide Fine, BadgesItem, BeginItem, StorylineItem, ForItem, UseItem, StoryEndItem, Built;
    match c
    case StoryPriority(n) => WordIsFine(StoryBlock, Key(Priority), Int(n), Mild);
    case Interruption(b) => WordIsFine(StoryBlock, Key(AllowInterruption), Flag(b), Mild);
    case StoryBegins(cs) => BeginFine(StoryBlock, cs);
    case StoryCompletes(ends) => StoryEndsFine(Key(OnComplete), ends);
    case StoryFails(ends) => StoryEndsFine(Key(OnFail), ends);
    case StoryBadges(cs) => BadgesFine(StoryBlock, cs, Mild);
    case StartsOn(s) => WordIsFine(StoryBlock, Key(StartTrigger), Str(s), Mild);
    case CompletesOn(s) => WordIsFine(StoryBlock, Key(CompleteTrigger), Str(s), Mild);
    case HasStoryline(s) => StorylineFine(StoryBlock, s);
    case StoryLoop(l) => StoryLoopFine(l);
    case StoryUse(u) => UseFine(StoryBlock, u);
  }

  // ---------- Declarations ----------

  lemma SenderFine(name: Option<string>, cs: seq<SenderClause>)
    ensures Fine(Script, DeclarationItem(SenderIs(name, cs)), Mild)
  {
    hide Fine, SenderClauseItem, HeadOk;
    forall c | c in cs
      ensures Fine(SenderBlock, SenderClauseItem(c), Mild)
    {
      SenderClauseFine(c);
    }
    SenderHead(name);
    BlockIsFine(Script, Key(Default), SenderBlock, [Key(Sender)] + (OptText(name) + [LBrace]), cs, SenderClauseItem, Mild, Mild);
  }

  lemma SenderClauseFine(c: SenderClause)
    ensures Fine(SenderBlock, SenderClauseItem(c), Mild)
  {
    hide Fine;
    WordIsFine(SenderBlock, SenderClauseItem(c).key, Str(c.text), Mild);
  }

  lemma SenderHead(name: Option<string>)
    ensures HeadOk(Key(Default), [Key(Sender)] + (OptText(name) + [LBrace]))
  {
    hide Fits;
    var last: seq<Slot> := [Need(Exactly(LBrace))];
    OneSlot(last[0], [LBrace], []);
    OptionIsTaken(AString, last, OptText(name), [LBrace]);
    var w := [Key(Sender)] + (OptText(name) + [LBrace]);
    FirstSlot(Need(Exactly(Key(Sender))), [Want(AString)] + last, w, []);
    assert [Need(Exactly(Key(Sender)))] + ([Want(AString)] + last)
      == [Need(Exactly(Key(Sender))), Want(AString), Need(Exactly(LBrace))];
  }

  lemma LinkFine(l: Link)
    ensures Fine(LinksBlock, LinkItem(l), Mild)
  {
    hide Fits;
    var w := [Equals, Str(l.url)];
    forall a
      ensures Fits([Need(Exactly(Equals)), Need(AString)], w, a)
    {
      TwoSlots(Need(Exactly(Equals)), Need(AString), w, a);
    }
    ClauseIsFine(LinksBlock, Name(l.name), w, Mild);
  }

  lemma LinksFine(links: seq<Link>)
    ensures Fine(Script, DeclarationItem(LinksAre(links)), Mild)
  {
    hide Fine, LinkItem, HeadOk;
    forall l | l in links
      ensures Fine(LinksBlock, LinkItem(l), Mild)
    {
      LinkFine(l);
    }
    BraceHead(Key(Links));
    BlockIsFine(Script, Key(Links), LinksBlock, [LBrace], links, LinkItem, Mild, Mild);
  }

  lemma PatternClauseFine(c: PatternClause)
    ensures Fine(PatternBlock, PatternClauseItem(c), Mild)
  {
    hide Fine, EnactmentItem, SceneItem, RangeItem, TriggerItem;
    match c
    case PatternEnactment(e) => EnactmentFine(PatternBlock, e);
    case PatternScene(s) => SceneFine(PatternBlock, s);
    case PatternRange(r) => RangeFine(PatternBlock, r);
    case PatternTrigger(t) => TriggerFine(PatternBlock, t);
  }

  lemma PatternFine(name: string, params: seq<Word>, cs: seq<PatternClause>)
    ensures Fine(Script, DeclarationItem(PatternIs(name, params, cs)), Mild)
  {
    hide Fine, PatternClauseItem, TemplateHead, TemplateOk;
    forall c | c in cs
      ensures Fine(PatternBlock, PatternClauseItem(c), Mild)
    {
      PatternClauseFine(c);
    }
    TemplateHeadOk(name, params);
    BlockIsFine(Script, Key(Pattern), PatternBlock, TemplateHead(name, params), cs, PatternClauseItem, Mild, Mild);
  }

  lemma PolicyFine(name: string, params: seq<Word>, ts: seq<Trigger>)
    ensures Fine(Script, DeclarationItem(PolicyIs(name, params, ts)), Mild)
  {
    hide Fine, TriggerItem, TemplateHead, TemplateOk;
    forall t | t in ts
      ensures Fine(PolicyBlock, TriggerItem(t), Mild)
    {
      TriggerFine(PolicyBlock, t);
    }
    TemplateHeadOk(name, params);
    BlockIsFine(Script, Key(Policy), PolicyBlock, TemplateHead(name, params), ts, TriggerItem, Mild, Mild);
  }

  lemma DataFine(w: Word, elements: seq<DataElement>)
    ensures Fine(Script, DeclarationItem(DataIs(w, elements)), Mild)
  {
    hide Fine, DataElementItem, HeadOk;
    forall e | e in elements
      ensures Fine(DataArray, DataElementItem(e), Any)
    {
      DataElementFine(e);
    }
    DataHead(w);
    BlockIsFine(Script, Key(Data), DataArray, [w, Equals, LBracket], elements, DataElementItem, Any, Mild);
  }

  lemma DataHead(w: Word)
    ensures HeadOk(Key(Data), [w, Equals, LBracket])
  {
    hide Fits, NameLike, MayName;
    WordsAreNames(w);
    AllThere(HeadSlots(Key(Data), [w, Equals, LBracket]), [w, Equals, LBracket], []);
  }

  lemma DefaultsFine(key: Token, cs: seq<DefaultClause>)
    requires key in {Key(SceneDefaults), Key(EnactmentDefaults)}
    ensures Fine(Script, Section(key, DefaultsBlock, [LBrace], Built(cs, DefaultClauseItem)), Mild)
  {
    hide Fine, DefaultClauseItem, HeadOk;
    forall c | c in cs
      ensures Fine(DefaultsBlock, DefaultClauseItem(c), Mild)
    {
      DefaultClauseFine(c);
    }
    BraceHead(key);
    BlockIsFine(Script, key, DefaultsBlock, [LBrace], cs, DefaultClauseItem, Mild, Mild);
  }

  lemma DefaultClauseFine(c: DefaultClause)
    ensures Fine(DefaultsBlock, DefaultClauseItem(c), Mild)
  {
    hide Fine, TriggerItem, UseItem;
    match c
    case DefaultTrigger(t) => TriggerFine(DefaultsBlock, t);
    case DefaultUse(u) => UseFine(DefaultsBlock, u);
  }

  lemma StoryFine(name: string, cs: seq<StoryClause>)
    ensures Fine(Script, DeclarationItem(StoryIs(name, cs)), Mild)
  {
    hide Fine, StoryClauseItem, HeadOk;
    forall c | c in cs
      ensures Fine(StoryBlock, StoryClauseItem(c), Mild)
    {
      StoryClauseFine(c);
    }
    NameHead(Key(Story), Str(name));
    BlockIsFine(Script, Key(Story), StoryBlock, [Str(name), LBrace], cs, StoryClauseItem, Mild, Mild);
  }

  lemma DeclarationFine(d: Declaration)
    ensures Fine(Script, DeclarationItem(d), Mild)
  {
    hide Fine, Built, TemplateHead;
    match d
    case SenderIs(name, cs) => SenderFine(name, cs);
    case LinksAre(links) => LinksFine(links);
    case PatternIs(name, params, cs) => PatternFine(name, params, cs);
    case PolicyIs(name, params, ts) => PolicyFine(name, params, ts);
    case DataIs(w, elements) => DataFine(w, elements);
    case SceneDefaultsAre(cs) => DefaultsFine(Key(SceneDefaults), cs);
    case EnactmentDefaultsAre(cs) => DefaultsFine(Key(EnactmentDefaults), cs);
    case StoryIs(name, cs) => StoryFine(name, cs);
  }

  // ---------- Scripts ----------

  lemma {:induction false} SpellingIsPrint(b: Block, i: Item, after: seq<Token>)
    requires ItemOk(b, i, after) || SourceOk(i, after)
    ensures Spelling(i) == Print(i)
    decreases i, 1
  {
    hide FormOf, HeadOk, OperandOk, Close;
    match i
    case Clause(_, _) =>
    case Section(key, inner, head, items) =>
      WrittenIsPrint(inner, items, [Close(inner)] + after);
      SectionEnd(b, i, after);
    case ForLoop(head, source, inner, items) =>
      SpellingIsPrint(b, source, [LBrace] + (PrintAll(items) + ([Close(inner)] + after)));
      WrittenIsPrint(inner, items, [Close(inner)] + after);
      LoopsEndWithBraces(b, Key(For));
  }

  lemma SectionEnd(b: Block, i: Item, after: seq<Token>)
    requires i.Section? && (ItemOk(b, i, after) || SourceOk(i, after))
    ensures Close(i.block) == if i.key == Key(Data) || i.key == LBracket then RBracket else RBrace
  {
    hide HeadOk, Grammatical;
  }

  lemma LoopsEndWithBraces(b: Block, key: Token)
    ensures FormOf(b, key).Each? ==> Close(FormOf(b, key).inner) == RBrace
  {
  }

  lemma {:induction false} WrittenIsPrint(b: Block, items: seq<Item>, after: seq<Token>)
    requires Grammatical(b, items, after)
    ensures Written(items) == PrintAll(items)
    decreases items, 0
  {
    hide ItemOk;
    if items != [] {
      SpellingIsPrint(b, items[0], PrintAll(items[1..]) + after);
      WrittenIsPrint(b, items[1..], after);
    }
  }

  /** Every script of the typed trees is read without a report, and as itself. */
  lemma ScriptIsRead(script: seq<Declaration>)
    ensures ParseItems(Script, ScriptText(script)) == Parsed(ScriptItems(script), [], 0, false)
  {
    hide Fine, DeclarationItem, Grammatical, PrintAll, Written, ParseItems, Built;
    forall d | d in script
      ensures Fine(Script, DeclarationItem(d), Mild)
    {
      DeclarationFine(d);
    }
    BuiltIsGrammatical(Script, script, DeclarationItem, Mild, []);
    WrittenIsPrint(Script, ScriptItems(script), []);
    ScriptIff(ScriptText(script), ScriptItems(script));
  }
}
