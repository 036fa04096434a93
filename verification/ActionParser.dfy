/**
  The grammar of actions, retry modifiers and the else of a trigger. An `else` belongs to the nearest action that can
  take one, so an else written for the trigger is lost to a retry action before it: exactly when that happens.
*/
module ActionParser {
  import opened Wrappers

  /** Actions that are a keyword alone. */
  datatype PlainKind = NextScene | PrevScene | AdvanceToNextStoryline | EndStory | MarkComplete | MarkFailed | Unsubscribe

  /** Actions that name something. */
  datatype TargetKind =
    | JumpToEnactment | JumpToStoryline | NextEnactment | JumpToStage | StartStory | SendEmail | Redirect
    | ProvideDownload | GiveBadge | RemoveBadge

  /** Actions that take retry modifiers, without and with a name. */
  datatype BareKind = RetryScene | RetryEnactment | LoopToStartEnactment | LoopToStartStoryline

  datatype LoopKind = LoopToEnactment | LoopToStoryline

  datatype RetryHead = Bare(bare: BareKind) | To(loop: LoopKind, target: string)

  datatype Duration = Duration(amount: int, unit: string)

  datatype Action =
    | Plain(plain: PlainKind)
    | Target(kind: TargetKind, target: string)
    | Wait(duration: Duration)
    | SendImmediate(immediate: bool)
    | Retry(head: RetryHead, max: Option<int>, fallback: seq<Action>)

  datatype Token =
    | TokPlain(plain: PlainKind) | TokTarget(kind: TargetKind) | TokRetry(bare: BareKind) | TokLoop(loop: LoopKind)
    | TokWait | TokSendImmediate
    | TokUpTo | TokTimes | TokElse | TokDo | TokLBrace | TokRBrace
    | TokString(literal: string) | TokInt(value: int) | TokDuration(duration: Duration) | TokUnit(unit: string)
    | TokBool(flag: bool) | Other

  datatype Parsed<T> = Parsed(value: T, rest: seq<Token>, errs: nat)

  predicate Next(ts: seq<Token>, t: Token) {
    ts != [] && ts[0] == t
  }

  /** Two reports for a missing number: the wrong token, and the empty literal that is no number. */
  function ExpectInt(ts: seq<Token>): (r: Parsed<int>)
    ensures |r.rest| <= |ts|
  {
    if ts != [] && ts[0].TokInt? then Parsed(ts[0].value, ts[1..], 0) else Parsed(0, ts, 2)
  }

  function ExpectString(ts: seq<Token>): (r: Parsed<string>)
    ensures |r.rest| <= |ts|
  {
    if ts != [] && ts[0].TokString? then Parsed(ts[0].literal, ts[1..], 0) else Parsed("", ts, 1)
  }

  /** Unlike the others, this one moves on over a wrong token. */
  function ExpectBool(ts: seq<Token>): (r: Parsed<bool>)
    ensures |r.rest| <= |ts|
  {
    if ts == [] then Parsed(false, ts, 1)
    else if ts[0].TokBool? then Parsed(ts[0].flag, ts[1..], 0)
    else Parsed(false, ts[1..], 1)
  }

  function Expect(ts: seq<Token>, t: Token): (r: Parsed<bool>)
    ensures |r.rest| <= |ts|
  {
    if Next(ts, t) then Parsed(true, ts[1..], 0) else Parsed(false, ts, 1)
  }

  /** A duration literal, or a number and a unit; a number without a unit is reported and kept. */
  function ParseDuration(ts: seq<Token>): (r: Parsed<Duration>)
    ensures |r.rest| <= |ts|
  {
    if ts != [] && ts[0].TokDuration? then Parsed(ts[0].duration, ts[1..], 0)
    else if ts != [] && ts[0].TokInt? then
      if |ts| > 1 && ts[1].TokUnit? then Parsed(Duration(ts[0].value, ts[1].unit), ts[2..], 0)
      else Parsed(Duration(ts[0].value, ""), ts[1..], 1)
    else Parsed(Duration(0, ""), ts, 1)
  }

  function ParseMax(ts: seq<Token>): (r: Parsed<Option<int>>)
    ensures |r.rest| <= |ts|
  {
    if Next(ts, TokUpTo) then
      var n := ExpectInt(ts[1..]);
      Parsed(Some(n.value), if Next(n.rest, TokTimes) then n.rest[1..] else n.rest, n.errs)
    else Parsed(None, ts, 0)
  }

  function OptSeq(a: Option<Action>): seq<Action> {
    if a.Some? then [a.value] else []
  }

  /** An action; anything else is reported and skipped. */
  function ParseAction(ts: seq<Token>): (r: Parsed<Option<Action>>)
    ensures |r.rest| <= |ts| && (ts != [] ==> |r.rest| < |ts|) && (r.value.None? ==> r.errs > 0)
    decreases |ts|, 3
  {
    if ts == [] then Parsed(None, ts, 1)
    else
      match ts[0]
      case TokPlain(k) => Parsed(Some(Plain(k)), ts[1..], 0)
      case TokTarget(k) => var s := ExpectString(ts[1..]); Parsed(Some(Target(k, s.value)), s.rest, s.errs)
      case TokWait => var d := ParseDuration(ts[1..]); Parsed(Some(Wait(d.value)), d.rest, d.errs)
      case TokSendImmediate => var b := ExpectBool(ts[1..]); Parsed(Some(SendImmediate(b.value)), b.rest, b.errs)
      case TokRetry(k) => ParseModifiers(Bare(k), ts[1..], 0)
      case TokLoop(k) => var s := ExpectString(ts[1..]); ParseModifiers(To(k, s.value), s.rest, s.errs)
      case _ => Parsed(None, ts[1..], 1)
  }

  function ParseModifiers(head: RetryHead, ts: seq<Token>, errs: nat): (r: Parsed<Option<Action>>)
    ensures |r.rest| <= |ts| && r.value.Some?
    decreases |ts|, 2
  {
    var max := ParseMax(ts);
    var fallback := ParseElse(max.rest);
    Parsed(Some(Retry(head, max.value, fallback.value)), fallback.rest, errs + max.errs + fallback.errs)
  }

  /** `else { ... }` or `else do ...`; an else followed by neither is dropped without a word. */
  function ParseElse(ts: seq<Token>): (r: Parsed<seq<Action>>)
    ensures |r.rest| <= |ts|
    decreases |ts|, 1
  {
    if !Next(ts, TokElse) then Parsed([], ts, 0)
    else if Next(ts[1..], TokLBrace) then
      var body := ParseActions(ts[1..][1..]);
      var close := Expect(body.rest, TokRBrace);
      Parsed(body.value, close.rest, body.errs + close.errs)
    else if Next(ts[1..], TokDo) then
      var a := ParseAction(ts[1..][1..]);
      Parsed(OptSeq(a.value), a.rest, a.errs)
    else Parsed([], ts[1..], 0)
  }

  /** The actions of a block, each with or without `do`, up to its closing brace. */
  function ParseActions(ts: seq<Token>): (r: Parsed<seq<Action>>)
    ensures |r.rest| <= |ts|
    decreases |ts|, 4
  {
    if ts == [] || Next(ts, TokRBrace) then Parsed([], ts, 0)
    else
      var a := ParseAction(if Next(ts, TokDo) then ts[1..] else ts);
      var more := ParseActions(a.rest);
      Parsed(OptSeq(a.value) + more.value, more.rest, a.errs + more.errs)
  }

  // ---------- Printing ----------

  function PrintHead(head: RetryHead): seq<Token> {
    match head
    case Bare(k) => [TokRetry(k)]
    case To(k, s) => [TokLoop(k), TokString(s)]
  }

  function PrintMax(max: Option<int>): seq<Token> {
    if max.None? then [] else [TokUpTo, TokInt(max.value), TokTimes]
  }

  function Print(a: Action): (ts: seq<Token>)
    ensures ts != []
    decreases a, 1
  {
    match a
    case Plain(k) => [TokPlain(k)]
    case Target(k, s) => [TokTarget(k), TokString(s)]
    case Wait(d) => [TokWait, TokDuration(d)]
    case SendImmediate(b) => [TokSendImmediate, TokBool(b)]
    case Retry(head, max, fallback) => PrintHead(head) + (PrintMax(max) + PrintElse(fallback))
  }

  function PrintElse(actions: seq<Action>): seq<Token>
    decreases actions, 1
  {
    if actions == [] then [] else [TokElse, TokLBrace] + (PrintAll(actions) + [TokRBrace])
  }

  function PrintAll(actions: seq<Action>): seq<Token>
    decreases actions, 0
  {
    if actions == [] then [] else [TokDo] + Print(actions[0]) + PrintAll(actions[1..])
  }

  /** A retry action without a fallback, which would take an `else` that follows it. */
  predicate Open(a: Action) {
    a.Retry? && a.fallback == []
  }

  /** Reading `a` stops before these tokens: they do not continue it. */
  predicate StopsBefore(a: Action, ts: seq<Token>) {
    Open(a) ==> !Next(ts, TokElse) && !(a.max.None? && Next(ts, TokUpTo))
  }

  // ---------- Reading back ----------

  /** A printed action is read back as itself, with no report, up to exactly its last token... */
  lemma {:induction false} ActionReadsBack(a: Action, rest: seq<Token>)
    requires StopsBefore(a, rest)
    ensures ParseAction(Print(a) + rest) == Parsed(Some(a), rest, 0)
    decreases a, 2
  {
    if a.Retry? {
      RetryReadsBack(a, rest);
    } else {
      SimpleReadsBack(a, rest);
    }
  }

  lemma SimpleReadsBack(a: Action, rest: seq<Token>)
    requires !a.Retry?
    ensures ParseAction(Print(a) + rest) == Parsed(Some(a), rest, 0)
  {
    var ts := Print(a) + rest;
    if a.Plain? {
      assert ts[1..] == rest;
    } else {
      var operand := Print(a)[1];
      assert ts[1..] == [operand] + rest && ([operand] + rest)[1..] == rest;
    }
  }

  /** What follows the keyword of a retry action. */
  lemma RetryKeyword(head: RetryHead, more: seq<Token>)
    ensures ParseAction(PrintHead(head) + more) == ParseModifiers(head, more, 0)
  {
    var ts := PrintHead(head) + more;
    if head.To? {
      assert ts[1..] == [TokString(head.target)] + more && ([TokString(head.target)] + more)[1..] == more;
    } else {
      assert ts[1..] == more;
    }
  }

  lemma MaxReadsBack(max: Option<int>, more: seq<Token>)
    requires max.None? ==> !Next(more, TokUpTo)
    ensures ParseMax(PrintMax(max) + more) == Parsed(max, more, 0)
  {
    var ts := PrintMax(max) + more;
    if max.Some? {
      assert ts[1..] == [TokInt(max.value), TokTimes] + more && ts[1..][1..] == [TokTimes] + more;
    } else {
      assert ts == more;
    }
  }

  lemma {:induction false} RetryReadsBack(a: Action, rest: seq<Token>)
    requires a.Retry? && StopsBefore(a, rest)
    ensures ParseAction(Print(a) + rest) == Parsed(Some(a), rest, 0)
    decreases a, 1
  {
    hide ParseAction, ParseMax, ParseElse, PrintHead, PrintMax, PrintElse, PrintAll;
    var tail := PrintElse(a.fallback) + rest;
    assert Print(a) + rest == PrintHead(a.head) + (PrintMax(a.max) + tail);
    RetryKeyword(a.head, PrintMax(a.max) + tail);
    ElseStarts(a.fallback, rest);
    MaxReadsBack(a.max, tail);
    ElseReadsBack(a, a.fallback, rest);
  }

  lemma ElseStarts(actions: seq<Action>, rest: seq<Token>)
    ensures actions != [] ==> Next(PrintElse(actions) + rest, TokElse)
    ensures actions == [] ==> PrintElse(actions) + rest == rest
  {
  }

  lemma {:induction false} ElseReadsBack(parent: Action, actions: seq<Action>, rest: seq<Token>)
    requires forall k :: 0 <= k < |actions| ==> actions[k] < parent
    requires actions == [] ==> !Next(rest, TokElse)
    ensures ParseElse(PrintElse(actions) + rest) == Parsed(actions, rest, 0)
    decreases parent, 0, |actions| + 1
  {
    hide ParseActions, PrintAll;
    if actions == [] {
      assert PrintElse(actions) + rest == rest;
    } else {
      var close := [TokRBrace] + rest;
      var body := PrintAll(actions) + close;
      var ts := PrintElse(actions) + rest;
      assert ts == [TokElse, TokLBrace] + body;
      assert ts[1..] == [TokLBrace] + body && ts[1..][1..] == body;
      ActionsReadBack(parent, actions, rest);
      assert close[1..] == rest;
    }
  }

  lemma {:induction false} ActionsReadBack(parent: Action, actions: seq<Action>, rest: seq<Token>)
    requires forall k :: 0 <= k < |actions| ==> actions[k] < parent
    ensures ParseActions(PrintAll(actions) + ([TokRBrace] + rest)) == Parsed(actions, [TokRBrace] + rest, 0)
    decreases parent, 0, |actions|
  {
    hide ParseAction, Print;
    var close := [TokRBrace] + rest;
    if actions == [] {
      assert PrintAll(actions) + close == close;
    } else {
      var after := PrintAll(actions[1..]) + close;
      var ts := PrintAll(actions) + close;
      assert ts == [TokDo] + (Print(actions[0]) + after);
      assert ts[1..] == Print(actions[0]) + after;
      NextInBlock(actions[1..], close);
      ActionReadsBack(actions[0], after);
      ActionsReadBack(parent, actions[1..], rest);
      assert [actions[0]] + actions[1..] == actions;
    }
  }

  lemma NextInBlock(actions: seq<Action>, close: seq<Token>)
    requires Next(close, TokRBrace)
    ensures Next(PrintAll(actions) + close, TokDo) || Next(PrintAll(actions) + close, TokRBrace)
  {
    if actions == [] {
      assert PrintAll(actions) + close == close;
    }
  }

  /** ... and exactly when nothing follows that would continue it. */
  lemma ActionReadsBackIff(a: Action, rest: seq<Token>)
    ensures ParseAction(Print(a) + rest) == Parsed(Some(a), rest, 0) <==> StopsBefore(a, rest)
  {
    if StopsBefore(a, rest) {
      ActionReadsBack(a, rest);
    } else {
      OpenIsContinued(a, rest);
    }
  }

  lemma OpenIsContinued(a: Action, rest: seq<Token>)
    requires !StopsBefore(a, rest)
    ensures ParseAction(Print(a) + rest) != Parsed(Some(a), rest, 0)
  {
    hide ParseAction, PrintHead, ParseActions, ExpectInt;
    assert PrintElse(a.fallback) == [];
    assert Print(a) + rest == PrintHead(a.head) + (PrintMax(a.max) + rest);
    RetryKeyword(a.head, PrintMax(a.max) + rest);
    MaxBefore(a.max, rest);
  }

  lemma MaxBefore(max: Option<int>, rest: seq<Token>)
    ensures var m := ParseMax(PrintMax(max) + rest);
            && (max.None? && Next(rest, TokUpTo) ==> m.value.Some?)
            && (max.None? && !Next(rest, TokUpTo) ==> m.rest == rest)
            && (max.Some? ==> m.rest == rest)
  {
    var ts := PrintMax(max) + rest;
    if max.Some? {
      assert ts[1..] == [TokInt(max.value), TokTimes] + rest && ts[1..][1..] == [TokTimes] + rest;
    } else {
      assert ts == rest;
    }
  }

  // ---------- The body of a trigger ----------

  datatype Body = Body(actions: seq<Action>, elseActions: seq<Action>)

  /** The `do` and `else` clauses of a trigger, in order, up to its closing brace. */
  function ParseBody(ts: seq<Token>): (r: Parsed<Body>)
    ensures |r.rest| <= |ts| && (r.rest == [] || Next(r.rest, TokRBrace))
    decreases |ts|
  {
    if ts == [] || Next(ts, TokRBrace) then Parsed(Body([], []), ts, 0)
    else if Next(ts, TokDo) then
      var a := ParseAction(ts[1..]);
      var more := ParseBody(a.rest);
      Parsed(Body(OptSeq(a.value) + more.value.actions, more.value.elseActions), more.rest, a.errs + more.errs)
    else if Next(ts, TokElse) then
      var e := ParseElse(ts);
      var more := ParseBody(e.rest);
      Parsed(Body(more.value.actions, e.value + more.value.elseActions), more.rest, e.errs + more.errs)
    else
      var more := ParseBody(ts[1..]);
      Parsed(more.value, more.rest, 1 + more.errs)
  }

  function PrintBody(b: Body): seq<Token> {
    PrintAll(b.actions) + PrintElse(b.elseActions)
  }

  /** The last action would take the trigger's else. */
  predicate LosesElse(b: Body) {
    b.elseActions != [] && b.actions != [] && Open(b.actions[|b.actions| - 1])
  }

  /** What a body is read back as: an else after an open retry action becomes that action's fallback. */
  function ReadAs(b: Body): Body {
    if LosesElse(b) then
      var n := |b.actions| - 1;
      Body(b.actions[..n] + [b.actions[n].(fallback := b.elseActions)], [])
    else b
  }

  /** A printed trigger body is read without a report, as `ReadAs` says. */
  lemma {:induction false} BodyIsReadAs(b: Body, rest: seq<Token>)
    ensures ParseBody(PrintBody(b) + ([TokRBrace] + rest)) == Parsed(ReadAs(b), [TokRBrace] + rest, 0)
    decreases |b.actions|
  {
    hide ParseAction, Print, PrintBody, ParseElse, ParseBody, ReadAs;
    var close := [TokRBrace] + rest;
    if b.actions == [] {
      ElseAlone(b.elseActions, rest);
      ReadAsElse(b);
    } else if |b.actions| == 1 && LosesElse(b) {
      LastTakesElse(b, rest);
    } else {
      var tail := Body(b.actions[1..], b.elseActions);
      var after := PrintBody(tail) + close;
      PrintBodyStep(b, close);
      BodyStarts(tail, close);
      ActionReadsBack(b.actions[0], after);
      DoStep(Print(b.actions[0]) + after, b.actions[0], after);
      BodyIsReadAs(tail, rest);
      ReadAsTail(b);
    }
  }

  lemma ReadAsElse(b: Body)
    requires b.actions == []
    ensures ReadAs(b) == b
  {
  }

  lemma PrintBodyStep(b: Body, close: seq<Token>)
    requires b.actions != []
    ensures PrintBody(b) + close
            == [TokDo] + (Print(b.actions[0]) + (PrintBody(Body(b.actions[1..], b.elseActions)) + close))
  {
    hide Print, PrintElse;
  }

  /** What one `do` contributes. */
  lemma DoStep(x: seq<Token>, a: Action, after: seq<Token>)
    requires ParseAction(x) == Parsed(Some(a), after, 0)
    ensures var more := ParseBody(after);
            ParseBody([TokDo] + x) == Parsed(Body([a] + more.value.actions, more.value.elseActions), more.rest, more.errs)
  {
    hide ParseAction, ParseElse;
    assert ([TokDo] + x)[1..] == x;
  }

  lemma BodyStarts(b: Body, close: seq<Token>)
    requires Next(close, TokRBrace)
    ensures var ts := PrintBody(b) + close;
            Next(ts, TokDo) || Next(ts, TokRBrace) || (b.actions == [] && b.elseActions != [] && Next(ts, TokElse))
  {
    if b.actions == [] {
      assert PrintBody(b) + close == PrintElse(b.elseActions) + close;
      ElseStarts(b.elseActions, close);
    }
  }

  lemma ReadAsTail(b: Body)
    requires b.actions != [] && !(|b.actions| == 1 && LosesElse(b))
    ensures var tail := ReadAs(Body(b.actions[1..], b.elseActions));
            ReadAs(b) == Body([b.actions[0]] + tail.actions, tail.elseActions)
  {
    assert b.actions == [b.actions[0]] + b.actions[1..];
    if LosesElse(b) {
      var n := |b.actions| - 1;
      assert b.actions[..n] == [b.actions[0]] + b.actions[1..][..n - 1];
    }
  }

  lemma ElseAlone(actions: seq<Action>, rest: seq<Token>)
    ensures ParseBody(PrintBody(Body([], actions)) + ([TokRBrace] + rest)) == Parsed(Body([], actions), [TokRBrace] + rest, 0)
  {
    hide ParseElse, PrintElse, ParseBody, PrintBody;
    var close := [TokRBrace] + rest;
    var ts := PrintElse(actions) + close;
    PrintElseOnly(Body([], actions));
    ElseStarts(actions, close);
    NothingInBody(close);
    if actions != [] {
      ElseReadsBack(Retry(Bare(RetryScene), None, actions), actions, close);
      ElseStep(ts);
      assert actions + [] == actions;
    }
  }

  /** What an else contributes. */
  lemma ElseStep(ts: seq<Token>)
    requires Next(ts, TokElse)
    ensures var e := ParseElse(ts);
            var more := ParseBody(e.rest);
            ParseBody(ts) == Parsed(Body(more.value.actions, e.value + more.value.elseActions), more.rest, e.errs + more.errs)
  {
    hide ParseElse, ParseAction;
  }

  lemma LastTakesElse(b: Body, rest: seq<Token>)
    requires |b.actions| == 1 && LosesElse(b)
    ensures ParseBody(PrintBody(b) + ([TokRBrace] + rest)) == Parsed(ReadAs(b), [TokRBrace] + rest, 0)
  {
    hide ParseAction, PrintBody, ParseBody, Print, PrintElse;
    var close := [TokRBrace] + rest;
    var taken := b.actions[0].(fallback := b.elseActions);
    PrintTaken(b.actions[0], b.elseActions);
    PrintBodyStep(b, close);
    var none := Body(b.actions[1..], b.elseActions);
    PrintElseOnly(none);
    assert Print(b.actions[0]) + (PrintBody(none) + close) == Print(taken) + close;
    ActionReadsBack(taken, close);
    DoStep(Print(taken) + close, taken, close);
    NothingInBody(close);
    assert b.actions[..0] + [taken] == [taken] && [taken] + [] == [taken];
  }

  lemma PrintTaken(a: Action, actions: seq<Action>)
    requires Open(a)
    ensures Print(a.(fallback := actions)) == Print(a) + PrintElse(actions)
  {
    hide PrintHead, PrintMax, PrintAll;
    assert PrintElse(a.fallback) == [];
  }

  lemma PrintElseOnly(b: Body)
    requires b.actions == []
    ensures PrintBody(b) == PrintElse(b.elseActions)
  {
  }

  lemma NothingInBody(close: seq<Token>)
    requires Next(close, TokRBrace)
    ensures ParseBody(close) == Parsed(Body([], []), close, 0)
  {
  }

  /** A trigger's else is read back as its own exactly when no open retry action stands last before it. */
  lemma TriggerReadsBackIff(b: Body, rest: seq<Token>)
    ensures ParseBody(PrintBody(b) + ([TokRBrace] + rest)) == Parsed(b, [TokRBrace] + rest, 0) <==> !LosesElse(b)
  {
    BodyIsReadAs(b, rest);
  }

  // ---------- The parser with its cursor ----------

  class Parser {
    const tokens: seq<Token>
    var pos: nat
    var errors: nat

    constructor (tokens: seq<Token>)
      ensures this.tokens == tokens && Valid() && Left() == tokens && errors == 0
    {
      this.tokens, pos, errors := tokens, 0, 0;
    }

    predicate Valid()
      reads this`pos
    {
      pos <= |tokens|
    }

    function Left(): (ts: seq<Token>)
      requires Valid()
      reads this`pos
      ensures |ts| == |tokens| - pos
    {
      tokens[pos..]
    }

    predicate Check(t: Token)
      requires Valid()
      reads this`pos
      ensures Check(t) <==> Next(Left(), t)
    {
      pos < |tokens| && tokens[pos] == t
    }

    method Advance()
      requires Valid() && pos < |tokens|
      modifies this`pos
      ensures Valid() && Left() == old(Left())[1..]
    {
      pos := pos + 1;
    }

    method ExpectToken(t: Token)
      requires Valid()
      modifies this`pos, this`errors
      ensures Valid() && Left() == Expect(old(Left()), t).rest && errors == old(errors) + Expect(old(Left()), t).errs
    {
      if Check(t) {
        Advance();
      } else {
        errors := errors + 1;
      }
    }

    method ExpectStringToken() returns (s: string)
      requires Valid()
      modifies this`pos, this`errors
      ensures Valid() && Parsed(s, Left(), errors) == Shift(ExpectString(old(Left())), old(errors))
    {
      if pos < |tokens| && tokens[pos].TokString? {
        s := tokens[pos].literal;
        Advance();
      } else {
        s, errors := "", errors + 1;
      }
    }

    method ExpectIntToken() returns (n: int)
      requires Valid()
      modifies this`pos, this`errors
      ensures Valid() && Parsed(n, Left(), errors) == Shift(ExpectInt(old(Left())), old(errors))
    {
      if pos < |tokens| && tokens[pos].TokInt? {
        n := tokens[pos].value;
        Advance();
      } else {
        errors := errors + 1;
        n, errors := 0, errors + 1;
      }
    }

    method ExpectBoolToken() returns (b: bool)
      requires Valid()
      modifies this`pos, this`errors
      ensures Valid() && Parsed(b, Left(), errors) == Shift(ExpectBool(old(Left())), old(errors))
    {
      b := false;
      if pos < |tokens| && tokens[pos].TokBool? {
        b := tokens[pos].flag;
        Advance();
      } else {
        errors := errors + 1;
        if pos < |tokens| {
          Advance();
        }
      }
    }

    method ParseDurationNode() returns (d: Duration)
      requires Valid()
      modifies this`pos, this`errors
      ensures Valid() && Parsed(d, Left(), errors) == Shift(ParseDuration(old(Left())), old(errors))
    {
      if pos < |tokens| && tokens[pos].TokDuration? {
        d := tokens[pos].duration;
        Advance();
      } else if pos < |tokens| && tokens[pos].TokInt? {
        var amount := tokens[pos].value;
        Advance();
        if pos < |tokens| && tokens[pos].TokUnit? {
          d := Duration(amount, tokens[pos].unit);
          Advance();
        } else {
          errors := errors + 1;
          d := Duration(amount, "");
        }
      } else {
        errors := errors + 1;
        d := Duration(0, "");
      }
    }

    method ParseMaxCount() returns (max: Option<int>)
      requires Valid()
      modifies this`pos, this`errors
      ensures Valid() && Parsed(max, Left(), errors) == Shift(ParseMax(old(Left())), old(errors))
    {
      max := None;
      if Check(TokUpTo) {
        Advance();
        var n := ExpectIntToken();
        max := Some(n);
        if Check(TokTimes) {
          Advance();
        }
      }
    }

    /** Every call consumes a token, so nested fallbacks end on every token stream. */
    method ParseActionNode() returns (a: Option<Action>)
      requires Valid()
      modifies this`pos, this`errors
      ensures Valid() && pos >= old(pos) && (old(pos) < |tokens| ==> pos > old(pos))
      ensures Parsed(a, Left(), errors) == Shift(ParseAction(old(Left())), old(errors))
      decreases |tokens| - pos, 3
    {
      hide ParseModifiers, ParseMax, ParseElse;
      if pos >= |tokens| {
        errors := errors + 1;
        return None;
      }
      var t := tokens[pos];
      Advance();
      match t {
        case TokPlain(k) =>
          a := Some(Plain(k));
        case TokTarget(k) =>
          var s := ExpectStringToken();
          a := Some(Target(k, s));
        case TokWait =>
          var d := ParseDurationNode();
          a := Some(Wait(d));
        case TokSendImmediate =>
          var b := ExpectBoolToken();
          a := Some(SendImmediate(b));
        case TokRetry(k) =>
          a := ParseRetryModifiers(Bare(k));
        case TokLoop(k) =>
          var s := ExpectStringToken();
          ModifiersErrs(To(k, s), Left(), ExpectString(old(Left())[1..]).errs);
          a := ParseRetryModifiers(To(k, s));
        case _ =>
          errors := errors + 1;
          a := None;
      }
    }

    method ParseRetryModifiers(head: RetryHead) returns (a: Option<Action>)
      requires Valid()
      modifies this`pos, this`errors
      ensures Valid() && pos >= old(pos)
      ensures Parsed(a, Left(), errors) == Shift(ParseModifiers(head, old(Left()), 0), old(errors))
      decreases |tokens| - pos, 2
    {
      hide ParseMax, ParseElse;
      var max := ParseMaxCount();
      var fallback := ParseElseClause();
      a := Some(Retry(head, max, fallback));
    }

    method ParseElseClause() returns (actions: seq<Action>)
      requires Valid()
      modifies this`pos, this`errors
      ensures Valid() && pos >= old(pos)
      ensures Parsed(actions, Left(), errors) == Shift(ParseElse(old(Left())), old(errors))
      decreases |tokens| - pos, 1
    {
      hide ParseAction, ParseActions;
      actions := [];
      if Check(TokElse) {
        Advance();
        if Check(TokLBrace) {
          ExpectToken(TokLBrace);
          actions := ParseActionBlock();
          ExpectToken(TokRBrace);
        } else if Check(TokDo) {
          Advance();
          var a := ParseActionNode();
          actions := OptSeq(a);
        }
      }
    }

    method ParseActionBlock() returns (actions: seq<Action>)
      requires Valid()
      modifies this`pos, this`errors
      ensures Valid() && pos >= old(pos)
      ensures Parsed(actions, Left(), errors) == Shift(ParseActions(old(Left())), old(errors))
      decreases |tokens| - pos, 4
    {
      hide ParseAction, ParseActions;
      actions := [];
      ghost var all := ParseActions(Left());
      while !Check(TokRBrace) && pos < |tokens|
        invariant Valid() && pos >= old(pos)
        invariant actions + ParseActions(Left()).value == all.value && ParseActions(Left()).rest == all.rest
        invariant errors + ParseActions(Left()).errs == old(errors) + all.errs
        decreases |tokens| - pos
      {
        ActionsUnfold(Left());
        if Check(TokDo) {
          Advance();
        }
        var a := ParseActionNode();
        actions := actions + OptSeq(a);
      }
      ActionsEnd(Left());
      assert actions + [] == actions;
    }

    /** The loop over the `do` and `else` clauses of a trigger. */
    method ParseTriggerBody() returns (b: Body)
      requires Valid()
      modifies this`pos, this`errors
      ensures Valid()
      ensures Parsed(b, Left(), errors) == Shift(ParseBody(old(Left())), old(errors))
    {
      hide ParseAction, ParseElse, ParseBody, OptSeq;
      b := Body([], []);
      ghost var all := ParseBody(Left());
      while !Check(TokRBrace) && pos < |tokens|
        invariant Valid()
        invariant Onto(b, ParseBody(Left()).value) == Onto(Body([], []), all.value)
        invariant ParseBody(Left()).rest == all.rest && errors + ParseBody(Left()).errs == old(errors) + all.errs
        decreases |tokens| - pos
      {
        BodyRound(Left(), b);
        if Check(TokDo) {
          Advance();
          var a := ParseActionNode();
          b := Body(b.actions + OptSeq(a), b.elseActions);
        } else if Check(TokElse) {
          ElseAdvances(Left());
          var e := ParseElseClause();
          b := Body(b.actions, b.elseActions + e);
        } else {
          errors := errors + 1;
          Advance();
        }
      }
      BodyEnd(Left());
      OntoNothing(b);
      OntoNothing(all.value);
    }
  }

  /** The clauses of one body before those of another. */
  function Onto(done: Body, more: Body): Body {
    Body(done.actions + more.actions, done.elseActions + more.elseActions)
  }

  lemma OntoNothing(b: Body)
    ensures Onto(b, Body([], [])) == b && Onto(Body([], []), b) == b
  {
    assert b.actions + [] == b.actions && b.elseActions + [] == b.elseActions;
    assert [] + b.actions == b.actions && [] + b.elseActions == b.elseActions;
  }

  lemma BodyRound(ts: seq<Token>, b: Body)
    requires ts != [] && ts[0] != TokRBrace
    ensures
      var r := ParseBody(ts);
      if ts[0] == TokDo then
        var a := ParseAction(ts[1..]);
        var more := ParseBody(a.rest);
        Onto(b, r.value) == Onto(Body(b.actions + OptSeq(a.value), b.elseActions), more.value)
        && r.rest == more.rest && r.errs == a.errs + more.errs
      else if ts[0] == TokElse then
        var e := ParseElse(ts);
        var more := ParseBody(e.rest);
        Onto(b, r.value) == Onto(Body(b.actions, b.elseActions + e.value), more.value)
        && r.rest == more.rest && r.errs == e.errs + more.errs
      else
        var more := ParseBody(ts[1..]);
        r == Parsed(more.value, more.rest, 1 + more.errs)
  {
    hide ParseAction, ParseElse, ParseBody, OptSeq;
    BodyUnfold(ts);
    if ts[0] == TokDo {
      var a := ParseAction(ts[1..]);
      var more := ParseBody(a.rest).value;
      assert b.actions + (OptSeq(a.value) + more.actions) == (b.actions + OptSeq(a.value)) + more.actions;
    } else if ts[0] == TokElse {
      var e := ParseElse(ts);
      var more := ParseBody(e.rest).value;
      assert b.elseActions + (e.value + more.elseActions) == (b.elseActions + e.value) + more.elseActions;
    }
  }

  /** The same parse with earlier reports counted in. */
  function Shift<T>(p: Parsed<T>, errs: nat): Parsed<T> {
    Parsed(p.value, p.rest, errs + p.errs)
  }

  lemma ModifiersErrs(head: RetryHead, ts: seq<Token>, errs: nat)
    ensures ParseModifiers(head, ts, errs) == Shift(ParseModifiers(head, ts, 0), errs)
  {
    hide ParseMax, ParseElse;
  }

  lemma ActionsUnfold(ts: seq<Token>)
    requires ts != [] && ts[0] != TokRBrace
    ensures var a := ParseAction(if Next(ts, TokDo) then ts[1..] else ts);
            var more := ParseActions(a.rest);
            ParseActions(ts) == Parsed(OptSeq(a.value) + more.value, more.rest, a.errs + more.errs)
  {
    hide ParseAction;
  }

  lemma ActionsEnd(ts: seq<Token>)
    requires ts == [] || ts[0] == TokRBrace
    ensures ParseActions(ts) == Parsed([], ts, 0)
  {
  }

  lemma BodyUnfold(ts: seq<Token>)
    requires ts != [] && ts[0] != TokRBrace
    ensures
      var r := ParseBody(ts);
      if ts[0] == TokDo then
        var a := ParseAction(ts[1..]);
        var more := ParseBody(a.rest);
        r == Parsed(Body(OptSeq(a.value) + more.value.actions, more.value.elseActions), more.rest, a.errs + more.errs)
      else if ts[0] == TokElse then
        var e := ParseElse(ts);
        var more := ParseBody(e.rest);
        r == Parsed(Body(more.value.actions, e.value + more.value.elseActions), more.rest, e.errs + more.errs)
      else
        var more := ParseBody(ts[1..]);
        r == Parsed(more.value, more.rest, 1 + more.errs)
  {
    hide ParseAction, ParseElse;
  }

  lemma BodyEnd(ts: seq<Token>)
    requires ts == [] || ts[0] == TokRBrace
    ensures ParseBody(ts) == Parsed(Body([], []), ts, 0)
  {
  }

  lemma ElseAdvances(ts: seq<Token>)
    requires Next(ts, TokElse)
    ensures |ParseElse(ts).rest| < |ts|
  {
    hide ParseAction, ParseActions;
  }
}
