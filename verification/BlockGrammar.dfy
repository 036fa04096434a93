/**
  The block structure of the story half of the language: which clause a keyword opens in which block, what a clause
  takes, and how the parser recovers. A parse is a function of the tokens that remain. Every block of the source is
  the same loop over clauses, so the dispatch of each is kept in a table, `FormOf`.
*/
module BlockGrammar {
  import opened Wrappers
  import ConditionParser
  import ActionParser

  // ---------- Tokens ----------

  datatype EventKind =
    | Click | NotClick | Open | NotOpen | Sent | Webhook | Nothing | Bounce | Spam | Failure | EmailValidated
    | UserHasTag | Badge | Submit | Abandon | Purchase | Decline | Watch | Play | Pause | Progress | Complete
    | Rewatch | CTA | Turnstile | Chapter

  datatype Keyword =
    | Default | Sender | Links | Pattern | Policy | Data | SceneDefaults | EnactmentDefaults | Story | Storyline
    | Enactment | Scene | Scenes | On | For | In | Use | As
    | Priority | AllowInterruption | OnBegin | OnComplete | OnFail | RequiredBadges | StartTrigger | CompleteTrigger
    | Order | Level | SkipToNextStorylineOnExpiry
    | Subject | Body | FromEmail | FromName | ReplyTo | Template | Vars | Tags | Certificate | CourseRef
    | ContextPack | SubjectGen | BodyGen
    | Within | TriggerPriority | PersistScope | When | Do | Else | SendImmediate | Wait | UpTo | Times
    | NextStory | NextStoryline | Route | ConditionalRoute | MustHave | MustNotHave
    | HasBadge | NotHasBadge | HasTag | NotHasTag | And | Or | Not

  /** `Soft` is a keyword of another part of the language that may serve as a name; `Foreign` any other token. */
  datatype Token =
    | Key(word: Keyword) | Event(event: EventKind)
    | Plain(plain: ActionParser.PlainKind) | Target(target: ActionParser.TargetKind)
    | Retry(bare: ActionParser.BareKind) | Loop(loop: ActionParser.LoopKind)
    | Name(text: string) | Soft(text: string) | Str(text: string)
    | Int(value: int) | Flag(flag: bool) | Time(duration: ActionParser.Duration)
    | Compare(op: string) | Percent | Comma | Colon | Equals | Dot | DotDot
    | LBrace | RBrace | LBracket | RBracket | LParen | RParen | Foreign

  /** Tokens that may stand for a name. */
  predicate NameLike(t: Token) {
    match t
    case Name(_) => true
    case Soft(_) => true
    case Key(k) =>
      k in {Links, Body, Subject, Order, Level, Priority, Template, Scene, Tags, Vars, Data, Certificate, CourseRef, Route}
    case Event(e) => e in {Badge, Chapter, Turnstile, CTA, Progress, Complete, Play, Pause, Rewatch}
    case _ => false
  }

  predicate Next(ts: seq<Token>, t: Token) {
    ts != [] && ts[0] == t
  }

  function Tail(ts: seq<Token>): seq<Token> {
    if ts == [] then [] else ts[1..]
  }

  // ---------- The grammars of conditions, lists and actions, on the same tokens ----------

  function ConditionToken(t: Token): ConditionParser.Token {
    match t
    case Key(HasBadge) => ConditionParser.TokHasBadge
    case Key(NotHasBadge) => ConditionParser.TokNotHasBadge
    case Key(HasTag) => ConditionParser.TokHasTag
    case Key(NotHasTag) => ConditionParser.TokNotHasTag
    case Key(And) => ConditionParser.TokAnd
    case Key(Or) => ConditionParser.TokOr
    case Key(Not) => ConditionParser.TokNot
    case LBrace => ConditionParser.TokLBrace
    case RBrace => ConditionParser.TokRBrace
    case LBracket => ConditionParser.TokLBracket
    case RBracket => ConditionParser.TokRBracket
    case Comma => ConditionParser.TokComma
    case Str(s) => ConditionParser.TokString(s)
    case _ => ConditionParser.Other
  }

  function ActionToken(t: Token): ActionParser.Token {
    match t
    case Plain(k) => ActionParser.TokPlain(k)
    case Target(k) => ActionParser.TokTarget(k)
    case Retry(k) => ActionParser.TokRetry(k)
    case Loop(k) => ActionParser.TokLoop(k)
    case Key(Wait) => ActionParser.TokWait
    case Key(SendImmediate) => ActionParser.TokSendImmediate
    case Key(UpTo) => ActionParser.TokUpTo
    case Key(Times) => ActionParser.TokTimes
    case Key(Else) => ActionParser.TokElse
    case Key(Do) => ActionParser.TokDo
    case LBrace => ActionParser.TokLBrace
    case RBrace => ActionParser.TokRBrace
    case Str(s) => ActionParser.TokString(s)
    case Int(n) => ActionParser.TokInt(n)
    case Time(d) => ActionParser.TokDuration(d)
    case Flag(b) => ActionParser.TokBool(b)
    case Name(n) => if Unit(n).Some? then ActionParser.TokUnit(Unit(n).value) else ActionParser.Other
    case _ => ActionParser.Other
  }

  function Unit(name: string): Option<string> {
    if name in {"day", "days", "d"} then Some("d")
    else if name in {"hour", "hours", "h"} then Some("h")
    else if name in {"minute", "minutes", "min", "m"} then Some("m")
    else if name in {"second", "seconds", "sec", "s"} then Some("s")
    else None
  }

  function AsCondition(ts: seq<Token>): (r: seq<ConditionParser.Token>)
    ensures |r| == |ts|
  {
    seq(|ts|, i requires 0 <= i < |ts| => ConditionToken(ts[i]))
  }

  function AsAction(ts: seq<Token>): (r: seq<ActionParser.Token>)
    ensures |r| == |ts|
  {
    seq(|ts|, i requires 0 <= i < |ts| => ActionToken(ts[i]))
  }

  // ---------- What a parse returns ----------

  /** The value, the tokens left, the reports made; `hangs` if a list loop was entered that never ends. */
  datatype Parsed<T> = Parsed(value: T, rest: seq<Token>, errs: nat, hangs: bool)

  type Taken = Parsed<Option<seq<Token>>>

  predicate Clean<T>(r: Parsed<T>) {
    r.errs == 0 && !r.hangs
  }

  predicate Suffix(r: seq<Token>, ts: seq<Token>) {
    |r| <= |ts| && r == ts[|ts| - |r|..]
  }

  lemma TailIsSuffix(ts: seq<Token>, k: nat)
    requires k <= |ts|
    ensures Suffix(ts[k..], ts)
  {
  }

  lemma SuffixOfSuffix(r: seq<Token>, mid: seq<Token>, ts: seq<Token>)
    requires Suffix(r, mid) && Suffix(mid, ts)
    ensures Suffix(r, ts)
  {
  }

  lemma SuffixOfTail(r: seq<Token>, ts: seq<Token>, k: nat)
    requires k <= |ts| && Suffix(r, ts[k..])
    ensures Suffix(r, ts)
  {
  }

  /** The words of a clause, none if the source drops the clause. */
  predicate Sound(r: Taken, ts: seq<Token>) {
    && Suffix(r.rest, ts)
    && (Clean(r) ==> r.value.Some? && ts == r.value.value + r.rest)
  }

  // ---------- Fixed sequences of words ----------

  datatype Class =
    | Exactly(t: Token) | AString | AnInt | ABool | AName | ANameLike | StringOrName | StringOrNameLike
    | StringIntOrNameLike | AComparison | ColonOrEquals | AnEvent | AUseKind

  predicate Is(c: Class, t: Token) {
    match c
    case Exactly(u) => t == u
    case AString => t.Str?
    case AnInt => t.Int?
    case ABool => t.Flag?
    case AName => t.Name?
    case ANameLike => NameLike(t)
    case StringOrName => t.Str? || t.Name?
    case StringOrNameLike => t.Str? || NameLike(t)
    case StringIntOrNameLike => t.Str? || t.Int? || NameLike(t)
    case AComparison => t.Compare?
    case ColonOrEquals => t == Colon || t == Equals
    case AnEvent => t.Event? || t == Key(Else) || t == Plain(ActionParser.Unsubscribe)
    case AUseKind => t == Key(Pattern) || t == Key(Policy)
  }

  /**
    How a missing word is met: `Want` lets it be; the others report it. `Need` goes on where it stands, `Skip` goes on
    behind the token found, `Stop` gives the clause up, `SkipStop` does so behind the token found.
  */
  datatype Slot = Want(what: Class) | Need(what: Class) | Skip(what: Class) | Stop(what: Class) | SkipStop(what: Class)

  /** A missing number is reported twice: as the wrong token, and as an empty literal. */
  function Cost(c: Class): nat {
    if c == AnInt then 2 else 1
  }

  function More(word: seq<Token>, errs: nat, r: Taken): Taken {
    r.(value := if r.value.Some? then Some(word + r.value.value) else None, errs := errs + r.errs)
  }

  function Take(slots: seq<Slot>, ts: seq<Token>): (r: Taken)
    ensures |r.rest| <= |ts| && Sound(r, ts) && !r.hangs
    decreases |slots|
  {
    if slots == [] then Parsed(Some([]), ts, 0, false)
    else if ts != [] && Is(slots[0].what, ts[0]) then More([ts[0]], 0, Take(slots[1..], ts[1..]))
    else
      match slots[0]
      case Want(_) => More([], 0, Take(slots[1..], ts))
      case Need(c) => More([], Cost(c), Take(slots[1..], ts))
      case Skip(_) => More([], 1, Take(slots[1..], Tail(ts)))
      case Stop(_) => Parsed(None, ts, 1, false)
      case SkipStop(_) => Parsed(None, Tail(ts), 1, false)
  }

  predicate GoesOn(slots: seq<Slot>) {
    forall s :: s in slots ==> !s.Stop? && !s.SkipStop?
  }

  lemma {:induction false} NeverGivesUp(slots: seq<Slot>, ts: seq<Token>)
    requires GoesOn(slots)
    ensures Take(slots, ts).value.Some?
    decreases |slots|
  {
    if slots != [] {
      assert slots[0] in slots;
      NeverGivesUp(slots[1..], ts);
      NeverGivesUp(slots[1..], Tail(ts));
    }
  }

  /** One parse after another, on what the first left. */
  function Then(a: Taken, b: Taken): Taken {
    Parsed(
      if a.value.Some? && b.value.Some? then Some(a.value.value + b.value.value) else None,
      b.rest, a.errs + b.errs, a.hangs || b.hangs)
  }

  lemma ThenSound(a: Taken, b: Taken, ts: seq<Token>)
    requires Sound(a, ts) && Sound(b, a.rest)
    ensures Sound(Then(a, b), ts)
  {
    hide Suffix;
    SuffixOfSuffix(b.rest, a.rest, ts);
    if Clean(a) && Clean(b) {
      assert a.value.value + (b.value.value + b.rest) == (a.value.value + b.value.value) + b.rest;
    }
  }

  lemma MoreSound(word: seq<Token>, k: nat, errs: nat, r: Taken, ts: seq<Token>)
    requires k <= |ts| && r.value.Some? && Sound(r, ts[k..])
    requires errs == 0 ==> word == ts[..k]
    ensures Sound(More(word, errs, r), ts)
  {
    hide Suffix;
    SuffixOfTail(r.rest, ts, k);
    if errs == 0 && Clean(r) {
      assert ts == ts[..k] + ts[k..] && word + (r.value.value + r.rest) == (word + r.value.value) + r.rest;
    }
  }

  lemma NothingSound(ts: seq<Token>)
    ensures Sound(Parsed(Some([]), ts, 0, false), ts)
  {
  }

  // ---------- Words of any number ----------

  /** Parameters: names, with commas anywhere. */
  function TakeParams(ts: seq<Token>): (r: Taken)
    ensures |r.rest| <= |ts| && Sound(r, ts) && !r.hangs && r.value.Some? && (r.rest == [] || r.rest[0] == RParen)
  {
    hide Sound, NameLike;
    if ts == [] || ts[0] == RParen then
      NothingSound(ts);
      Parsed(Some([]), ts, 0, false)
    else
      var r := TakeParams(ts[1..]);
      var n := if NameLike(ts[0]) || ts[0] == Comma then 1 else 0;
      MoreSound(ts[..n], 1, 1 - n, r, ts);
      More(ts[..n], 1 - n, r)
  }

  /** Arguments: strings and dotted names, with commas anywhere. */
  function TakeArgs(ts: seq<Token>): (r: Taken)
    ensures |r.rest| <= |ts| && Sound(r, ts) && !r.hangs && r.value.Some? && (r.rest == [] || r.rest[0] == RParen)
    decreases |ts|, 0
  {
    hide Sound, NameLike;
    if ts == [] || ts[0] == RParen then
      NothingSound(ts);
      Parsed(Some([]), ts, 0, false)
    else if NameLike(ts[0]) then
      var r := TakeDots(ts[1..]);
      MoreSound(ts[..1], 1, 0, r, ts);
      More(ts[..1], 0, r)
    else
      var r := TakeArgs(ts[1..]);
      var n := if ts[0].Str? || ts[0] == Comma then 1 else 0;
      MoreSound(ts[..n], 1, 1 - n, r, ts);
      More(ts[..n], 1 - n, r)
  }

  /** The fields after a name, and the arguments after them. */
  function TakeDots(ts: seq<Token>): (r: Taken)
    ensures |r.rest| <= |ts| && Sound(r, ts) && !r.hangs && r.value.Some? && (r.rest == [] || r.rest[0] == RParen)
    decreases |ts|, 1
  {
    hide Sound, NameLike;
    if !Next(ts, Dot) then TakeArgs(ts)
    else if |ts| > 1 && NameLike(ts[1]) then
      var r := TakeDots(ts[2..]);
      MoreSound(ts[..2], 2, 0, r, ts);
      More(ts[..2], 0, r)
    else
      var r := TakeArgs(ts[1..]);
      MoreSound([], 1, 1, r, ts);
      More([], 1, r)
  }

  /** What a sub-grammar consumed, given how many tokens it left. */
  function Consumed(ts: seq<Token>, left: nat, errs: nat): (r: Taken)
    requires left <= |ts|
    ensures |r.rest| <= |ts| && Sound(r, ts) && !r.hangs && r.value.Some? && |r.rest| == left
  {
    Parsed(Some(ts[..|ts| - left]), ts[|ts| - left..], errs, false)
  }

  /** A bracketed list. The loop over its elements starts even if the bracket is missing, and may never end. */
  function TakeList(ts: seq<Token>): (r: Taken)
    ensures |r.rest| <= |ts| && Sound(r, ts)
  {
    var body := if Next(ts, LBracket) then ts[1..] else ts;
    if !ConditionParser.StringsAndCommas(AsCondition(body)) then Parsed(None, ts, 1, true)
    else
      var elements := ConditionParser.ParseElements(AsCondition(body));
      var left := |elements.rest|;
      var missing := if Next(ts, LBracket) then 0 else 1;
      if left == 0 then Consumed(ts, 0, missing + elements.errs + 1)
      else Consumed(ts, left - 1, missing + elements.errs)
  }

  // ---------- Clauses ----------

  /** The loops of the source. */
  datatype Block =
    | Script | StoryBlock | StorylineBlock | StoryFor | StorylineFor | EnactmentBlock | RangeBlock | SceneBlock
    | TriggerBlock | PatternBlock | PolicyBlock | DefaultsBlock | SenderBlock | LinksBlock | VarsBlock
    | CertificateBlock | BeginBlock | EndBlock | StorylineEndBlock | RouteBlock | BadgesBlock
    | DataArray | InlineArray | Object

  /** What a clause takes after its first token. */
  datatype Form =
    | Bad | Words(slots: seq<Slot>) | NumberOrRef | List | ListOrText | Duration | Guard | Action | Otherwise | Using
    | Sub(inner: Block) | Each(inner: Block)

  const Text := Words([Need(AString)])
  const TextOrName := Words([Skip(StringOrNameLike)])
  const Number := Words([Need(AnInt)])
  const YesNo := Words([Skip(ABool)])
  const Alone := Words([])

  function FormOf(b: Block, t: Token): Form {
    match b
    case Script =>
      (match t
       case Key(Default) => Sub(SenderBlock)
       case Key(Links) => Sub(LinksBlock)
       case Key(Pattern) => Sub(PatternBlock)
       case Key(Policy) => Sub(PolicyBlock)
       case Key(Data) => Sub(DataArray)
       case Key(SceneDefaults) => Sub(DefaultsBlock)
       case Key(EnactmentDefaults) => Sub(DefaultsBlock)
       case Key(Story) => Sub(StoryBlock)
       case _ => Bad)
    case StoryBlock =>
      (match t
       case Key(Priority) => Number
       case Key(AllowInterruption) => YesNo
       case Key(OnBegin) => Sub(BeginBlock)
       case Key(OnComplete) => Sub(EndBlock)
       case Key(OnFail) => Sub(EndBlock)
       case Key(RequiredBadges) => Sub(BadgesBlock)
       case Key(StartTrigger) => Text
       case Key(CompleteTrigger) => Text
       case Key(Storyline) => Sub(StorylineBlock)
       case Key(For) => Each(StoryFor)
       case Key(Use) => Using
       case _ => Bad)
    case StorylineBlock =>
      (match t
       case Key(Order) => NumberOrRef
       case Key(RequiredBadges) => Sub(BadgesBlock)
       case Key(OnBegin) => Sub(BeginBlock)
       case Key(OnComplete) => Sub(StorylineEndBlock)
       case Key(OnFail) => Sub(StorylineEndBlock)
       case Key(Enactment) => Sub(EnactmentBlock)
       case Key(For) => Each(StorylineFor)
       case Key(Use) => Using
       case _ => Bad)
    case StoryFor => if t == Key(Storyline) then Sub(StorylineBlock) else Bad
    case StorylineFor =>
      (match t
       case Key(Enactment) => Sub(EnactmentBlock)
       case Key(Use) => Using
       case _ => Bad)
    case EnactmentBlock =>
      (match t
       case Key(Level) => NumberOrRef
       case Key(Order) => NumberOrRef
       case Key(SkipToNextStorylineOnExpiry) => YesNo
       case Key(Scene) => Sub(SceneBlock)
       case Key(On) => Sub(TriggerBlock)
       case Key(Use) => Using
       case Key(Scenes) => Sub(RangeBlock)
       case _ => Bad)
    case RangeBlock => if t == Key(Scene) then Sub(SceneBlock) else Bad
    case SceneBlock =>
      (match t
       case Key(Subject) => TextOrName
       case Key(Body) => TextOrName
       case Key(FromEmail) => TextOrName
       case Key(FromName) => TextOrName
       case Key(ReplyTo) => TextOrName
       case Key(Template) => Text
       case Key(Vars) => Sub(VarsBlock)
       case Key(Tags) => List
       case Key(Certificate) => Sub(CertificateBlock)
       case Key(ContextPack) => Text
       case Key(SubjectGen) => Text
       case Key(BodyGen) => Text
       case _ => Bad)
    case TriggerBlock =>
      (match t
       case Key(Within) => Duration
       case Key(TriggerPriority) => Number
       case Key(PersistScope) => Text
       case Plain(MarkComplete) => YesNo
       case Plain(MarkFailed) => YesNo
       case Key(RequiredBadges) => Sub(BadgesBlock)
       case Key(When) => Guard
       case Key(Do) => Action
       case Key(Else) => Otherwise
       case Key(SendImmediate) => YesNo
       case _ => Bad)
    case PatternBlock =>
      (match t
       case Key(Enactment) => Sub(EnactmentBlock)
       case Key(Scene) => Sub(SceneBlock)
       case Key(Scenes) => Sub(RangeBlock)
       case Key(On) => Sub(TriggerBlock)
       case _ => Bad)
    case PolicyBlock => if t == Key(On) then Sub(TriggerBlock) else Bad
    case DefaultsBlock =>
      (match t
       case Key(On) => Sub(TriggerBlock)
       case Key(Use) => Using
       case _ => Bad)
    case SenderBlock => if t in {Key(FromEmail), Key(FromName), Key(ReplyTo)} then Text else Bad
    case LinksBlock => if t.Name? then Words([Need(Exactly(Equals)), Need(AString)]) else Bad
    case VarsBlock =>
      if t.Str? || t.Name? then Words([Want(ColonOrEquals), Need(AString), Want(Exactly(Comma))]) else Bad
    case CertificateBlock => if t in {Key(CourseRef), Key(Template)} then Text else Bad
    case BeginBlock => if IsBadgeChange(t) then Text else Bad
    case EndBlock => if IsBadgeChange(t) || t == Key(NextStory) then Text else Bad
    case StorylineEndBlock =>
      if IsBadgeChange(t) || t == Key(NextStoryline) then Text
      else if t == Key(Route) || t == Key(ConditionalRoute) then Sub(RouteBlock)
      else Bad
    case RouteBlock =>
      (match t
       case Key(RequiredBadges) => Sub(BadgesBlock)
       case Key(NextStoryline) => Text
       case Key(Priority) => Number
       case _ => Bad)
    case BadgesBlock => if t == Key(MustHave) || t == Key(MustNotHave) then ListOrText else Bad
    case DataArray => if t == LBrace then Sub(Object) else if t == Comma then Alone else Bad
    case InlineArray => if t == LBrace then Sub(Object) else if t == Comma || t.Str? then Alone else Bad
    case Object =>
      if NameLike(t) then Words([Need(Exactly(Colon)), SkipStop(StringIntOrNameLike), Want(Exactly(Comma))]) else Bad
  }

  predicate IsBadgeChange(t: Token) {
    t == Target(ActionParser.GiveBadge) || t == Target(ActionParser.RemoveBadge)
  }

  /** A name, or a name and one field of it. */
  function RefSlots(ts: seq<Token>): seq<Slot> {
    if |ts| > 1 && ts[1] == Dot then [Need(ANameLike), Need(Exactly(Dot)), Need(ANameLike)] else [Need(ANameLike)]
  }

  function NumberOrRefSlots(ts: seq<Token>): seq<Slot> {
    if ts != [] && ts[0].Int? then [Need(AnInt)]
    else if ts != [] && NameLike(ts[0]) then RefSlots(ts)
    else [Skip(AnInt)]
  }

  const CloseParen := [Need(Exactly(RParen))]

  /** The arguments of a use, if there are any. */
  function TakeArgList(ts: seq<Token>): (r: Taken)
    ensures |r.rest| <= |ts| && Sound(r, ts) && !r.hangs && r.value.Some?
  {
    hide Sound, Take, TakeArgs;
    if Next(ts, LParen) then
      var args := TakeArgs(ts[1..]);
      var close := Take(CloseParen, args.rest);
      ThenSound(args, close, ts[1..]);
      NeverGivesUp(CloseParen, args.rest);
      MoreSound(ts[..1], 1, 0, Then(args, close), ts);
      More(ts[..1], 0, Then(args, close))
    else
      NothingSound(ts);
      Parsed(Some([]), ts, 0, false)
  }

  function SenderSlots(ts: seq<Token>): seq<Slot> {
    if |ts| > 1 && ts[1] == Key(Default) then [Need(Exactly(Key(Sender))), Need(Exactly(Key(Default)))]
    else [Need(Exactly(Key(Sender))), Want(StringOrName)]
  }

  function TakeUse(ts: seq<Token>): (r: Taken)
    ensures |r.rest| <= |ts| && Sound(r, ts) && !r.hangs
  {
    if Next(ts, Key(Sender)) then Take(SenderSlots(ts), ts)
    else
      var target := Take([SkipStop(AUseKind), Stop(ANameLike)], ts);
      if target.value.Some? then
        ThenSound(target, TakeArgList(target.rest), ts);
        Then(target, TakeArgList(target.rest))
      else target
  }

  /** The operand of a clause whose first token is `key`. */
  function TakeOperand(f: Form, key: Token, ts: seq<Token>): (r: Taken)
    requires !f.Sub? && !f.Each?
    ensures |r.rest| <= |ts| && Sound(r, ts)
  {
    match f
    case Bad => Parsed(None, ts, 1, false)
    case Words(slots) => Take(slots, ts)
    case NumberOrRef => Take(NumberOrRefSlots(ts), ts)
    case List => TakeList(ts)
    case ListOrText => if Next(ts, LBracket) then TakeList(ts) else Take([Need(AString)], ts)
    case Duration => var d := ActionParser.ParseDuration(AsAction(ts)); Consumed(ts, |d.rest|, d.errs)
    case Guard =>
      var c := ConditionParser.ParseCond(AsCondition(ts));
      if c.value.None? then Parsed(None, ts[|ts| - |c.rest|..], c.errs, false) else Consumed(ts, |c.rest|, c.errs)
    case Action =>
      var a := ActionParser.ParseAction(AsAction(ts));
      if a.value.None? then Parsed(None, ts[|ts| - |a.rest|..], a.errs, false) else Consumed(ts, |a.rest|, a.errs)
    case Otherwise =>
      ActionParser.ElseAdvances(AsAction([Key(Else)] + ts));
      var e := ActionParser.ParseElse(AsAction([Key(Else)] + ts));
      Consumed(ts, |e.rest|, e.errs)
    case Using => TakeUse(ts)
  }

  // ---------- Heads of blocks ----------

  function EventOperand(t: Token, ts: seq<Token>): seq<Slot> {
    match t
    case Event(e) =>
      if e in {Click, NotClick} then
        if ts != [] && ts[0].Str? then [Need(AString)] else if ts != [] && NameLike(ts[0]) then RefSlots(ts) else []
      else if e == Webhook then [Want(StringOrName)]
      else if e in {Watch, Progress} then [Want(AString), Want(AComparison), Want(AnInt), Want(Exactly(Percent))]
      else if e in {UserHasTag, Badge, Submit, Purchase, Decline, Play, Pause, Complete, Rewatch, CTA, Turnstile, Chapter} then
        [Want(AString)]
      else []
    case _ => []
  }

  function EventSlots(ts: seq<Token>): seq<Slot> {
    [SkipStop(AnEvent)] + (if ts == [] then [] else EventOperand(ts[0], ts[1..])) + [Need(Exactly(LBrace))]
  }

  /** What stands between a block's first token and its first clause. */
  function HeadSlots(key: Token, ts: seq<Token>): seq<Slot> {
    match key
    case Key(Story) => [Need(AString), Need(Exactly(LBrace))]
    case Key(Storyline) => [Need(AString), Need(Exactly(LBrace))]
    case Key(Scene) => [Need(AString), Need(Exactly(LBrace))]
    case Key(Enactment) => [Skip(StringOrNameLike), Need(Exactly(LBrace))]
    case Key(On) => EventSlots(ts)
    case Key(Default) => [Need(Exactly(Key(Sender))), Want(AString), Need(Exactly(LBrace))]
    case Key(Scenes) =>
      [Need(AnInt), Need(Exactly(DotDot)), Need(AnInt), Need(Exactly(Key(As))), Need(AName), Need(Exactly(LBrace))]
    case Key(Data) => [Stop(ANameLike), Need(Exactly(Equals)), Need(Exactly(LBracket))]
    case LBrace => []
    case LBracket => []
    case _ => [Need(Exactly(LBrace))]
  }

  /** The name and parameters of a pattern or policy. */
  function TakeTemplate(ts: seq<Token>): (r: Taken)
    ensures |r.rest| <= |ts| && Sound(r, ts) && !r.hangs
  {
    var name := Take([Stop(AName), Need(Exactly(LParen))], ts);
    if name.value.None? then name
    else
      var params := TakeParams(name.rest);
      var close := Take([Need(Exactly(RParen)), Need(Exactly(LBrace))], params.rest);
      ThenSound(params, close, name.rest);
      ThenSound(name, Then(params, close), ts);
      Then(name, Then(params, close))
  }

  function TakeHead(key: Token, ts: seq<Token>): (r: Taken)
    ensures |r.rest| <= |ts| && Sound(r, ts) && !r.hangs
  {
    if key == Key(Pattern) || key == Key(Policy) then TakeTemplate(ts) else Take(HeadSlots(key, ts), ts)
  }

  // ---------- Blocks ----------

  /**
    What a block holds, in order: a clause with its words, a block with the words of its head, or a for loop. Words
    are kept as written; the clauses set a node's fields in that order.
  */
  datatype Item =
    | Clause(key: Token, operand: seq<Token>)
    | Section(key: Token, block: Block, head: seq<Token>, items: seq<Item>)
    | ForLoop(head: seq<Token>, source: Item, block: Block, items: seq<Item>)

  function Close(b: Block): Token {
    if b == DataArray || b == InlineArray then RBracket else RBrace
  }

  predicate Closes(b: Block, t: Token) {
    b != Script && t == Close(b)
  }

  predicate Ended(b: Block, ts: seq<Token>) {
    ts == [] || Closes(b, ts[0])
  }

  function OptSeq<T>(o: Option<T>): seq<T> {
    if o.Some? then [o.value] else []
  }

  function Joined(one: Parsed<Option<Item>>, more: Parsed<seq<Item>>): Parsed<seq<Item>> {
    Parsed(OptSeq(one.value) + more.value, more.rest, one.errs + more.errs, one.hangs || more.hangs)
  }

  /** The clauses of a block up to its closing token, or up to the end of the stream. */
  function ParseItems(b: Block, ts: seq<Token>): (r: Parsed<seq<Item>>)
    ensures |r.rest| <= |ts| && Suffix(r.rest, ts) && Ended(b, r.rest)
    decreases |ts|, 2
  {
    hide Suffix;
    if Ended(b, ts) then
      TailIsSuffix(ts, 0);
      Parsed([], ts, 0, false)
    else
      var one := ParseClause(b, ts);
      var more := ParseItems(b, one.rest);
      SuffixOfTail(one.rest, ts, 1);
      SuffixOfSuffix(more.rest, one.rest, ts);
      Joined(one, more)
  }

  /** One round of a block's loop. An unexpected token is reported and skipped. */
  function ParseClause(b: Block, ts: seq<Token>): (r: Parsed<Option<Item>>)
    requires ts != []
    ensures |r.rest| < |ts| && Suffix(r.rest, ts[1..]) && (Clean(r) ==> r.value.Some?)
    decreases |ts|, 1
  {
    hide FormOf;
    match FormOf(b, ts[0])
    case Sub(inner) => ParseSection(ts[0], inner, ts[1..])
    case Each(inner) => ParseFor(inner, ts[1..])
    case f => AsClause(ts[0], TakeOperand(f, ts[0], ts[1..]))
  }

  function AsClause(key: Token, r: Taken): Parsed<Option<Item>> {
    Parsed(if r.value.Some? then Some(Clause(key, r.value.value)) else None, r.rest, r.errs, r.hangs)
  }

  /** A block after its first token: head, clauses, closing token. Without a proper head it may be given up. */
  function ParseSection(key: Token, inner: Block, ts: seq<Token>): (r: Parsed<Option<Item>>)
    ensures |r.rest| <= |ts| && Suffix(r.rest, ts) && (Clean(r) ==> r.value.Some?)
    decreases |ts|, 3
  {
    var head := TakeHead(key, ts);
    hide Suffix;
    if head.value.None? then Parsed(None, head.rest, head.errs, false)
    else
      var body := ParseItems(inner, head.rest);
      var r := Closed(Section(key, inner, head.value.value, body.value), head.errs, inner, body);
      SuffixOfSuffix(body.rest, head.rest, ts);
      SuffixOfSuffix(r.rest, body.rest, ts);
      r
  }

  /** A block whose clauses have been read, up to its closing token. */
  function Closed(item: Item, errs: nat, b: Block, body: Parsed<seq<Item>>): (r: Parsed<Option<Item>>)
    ensures |r.rest| <= |body.rest| && Suffix(r.rest, body.rest) && r.value == Some(item)
  {
    if Next(body.rest, Close(b)) then Parsed(Some(item), body.rest[1..], errs + body.errs, body.hangs)
    else Parsed(Some(item), body.rest, errs + body.errs + 1, body.hangs)
  }

  const ForHead := [Stop(ANameLike), Need(Exactly(Key(In)))]

  function ParseFor(inner: Block, ts: seq<Token>): (r: Parsed<Option<Item>>)
    ensures |r.rest| <= |ts| && Suffix(r.rest, ts) && (Clean(r) ==> r.value.Some?)
    decreases |ts|, 5
  {
    var head := Take(ForHead, ts);
    hide Suffix;
    if head.value.None? then Parsed(None, head.rest, head.errs, false)
    else
      var source := ParseSource(head.rest);
      SuffixOfSuffix(source.rest, head.rest, ts);
      if source.value.None? then Parsed(None, source.rest, head.errs + source.errs, source.hangs)
      else
        var r := ParseForBody(inner, head.value.value, source.value.value, source.rest);
        SuffixOfSuffix(r.rest, source.rest, ts);
        Parsed(r.value, r.rest, head.errs + source.errs + r.errs, source.hangs || r.hangs)
  }

  const OpenBrace := [Need(Exactly(LBrace))]

  function ParseForBody(inner: Block, head: seq<Token>, source: Item, ts: seq<Token>): (r: Parsed<Option<Item>>)
    ensures |r.rest| <= |ts| && Suffix(r.rest, ts) && r.value.Some?
    decreases |ts|, 3
  {
    var open := Take(OpenBrace, ts);
    hide Suffix;
    var body := ParseItems(inner, open.rest);
    var r := Closed(ForLoop(head, source, inner, body.value), open.errs, inner, body);
    SuffixOfSuffix(body.rest, open.rest, ts);
    SuffixOfSuffix(r.rest, body.rest, ts);
    r
  }

  /** The data of a loop: an array written in place, or the name of a data block. */
  function ParseSource(ts: seq<Token>): (r: Parsed<Option<Item>>)
    ensures |r.rest| <= |ts| && Suffix(r.rest, ts) && (Clean(r) ==> r.value.Some?)
    decreases |ts|, 4
  {
    hide Suffix;
    if Next(ts, LBracket) then
      var r := ParseSection(LBracket, InlineArray, ts[1..]);
      SuffixOfTail(r.rest, ts, 1);
      r
    else if ts != [] && NameLike(ts[0]) then
      TailIsSuffix(ts, 1);
      Parsed(Some(Clause(ts[0], [])), ts[1..], 0, false)
    else
      TailIsSuffix(ts, 0);
      Parsed(None, ts, 1, false)
  }
}
