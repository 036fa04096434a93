/**
  Scripts as typed trees, and how they are written. Every keyword and bracket is spelled here, block by block, apart
  from the parser's tables; `ScriptTheorems` has the parser read these spellings.
*/
module ScriptTree {
  import opened Wrappers
  import opened BlockGrammar
  import Conditions
  import ConditionParser
  import ActionParser

  // ---------- Names and values ----------

  /** A name: an identifier, or a keyword that may serve as one. */
  type Word = t: Token | MayName(t) witness Name("")

  predicate MayName(t: Token) {
    || t.Name? || t.Soft?
    || t in {Key(Links), Key(Body), Key(Subject), Key(Order), Key(Level), Key(Priority), Key(Template), Key(Scene)}
    || t in {Key(Tags), Key(Vars), Key(Data), Key(Certificate), Key(CourseRef), Key(Route)}
    || t in {Event(Badge), Event(Chapter), Event(Turnstile), Event(CTA), Event(Progress), Event(Complete)}
    || t in {Event(Play), Event(Pause), Event(Rewatch)}
  }

  /** A name, or one field of it. */
  datatype Ref = Ref(name: Word, field: Option<Word>)

  datatype Amount = Fixed(value: int) | AmountOf(ref: Ref)

  datatype Value = Quoted(text: string) | Named(word: Word)

  datatype Label = Literal(text: string) | Ident(name: string)

  /** The spellings of a unit of time. */
  type UnitWord = u: string |
    u in {"day", "days", "d", "hour", "hours", "h", "minute", "minutes", "min", "m", "second", "seconds", "sec", "s"}
    witness "d"

  datatype Span = Exact(duration: ActionParser.Duration) | Counted(count: int, unit: UnitWord)

  datatype Argument = TextArgument(text: string) | PathArgument(name: Word, fields: seq<Word>)

  datatype SenderName = DefaultSender | SenderCalled(called: Label)

  /** Arguments in parentheses, or none. */
  datatype Use =
    | UseSender(sender: SenderName)
    | UsePattern(pattern: Word, args: Option<seq<Argument>>)
    | UsePolicy(policy: Word, args: Option<seq<Argument>>)

  // ---------- Triggers ----------

  type Bare = e: EventKind | e in {Open, NotOpen, Sent, Nothing, Bounce, Spam, Failure, EmailValidated, Abandon} witness Open

  type Subjected = e: EventKind |
    e in {UserHasTag, Badge, Submit, Purchase, Decline, Play, Pause, Complete, Rewatch, CTA, Turnstile, Chapter} witness Badge

  datatype LinkRef = LinkText(text: string) | LinkNamed(ref: Ref)

  datatype Happening =
    | OnClick(link: Option<LinkRef>)
    | OnNotClick(link: Option<LinkRef>)
    | OnWebhook(hook: Option<Label>)
    | OnWatch(block: Option<string>, op: Option<string>, amount: Option<int>, sign: bool)
    | OnProgress(block: Option<string>, op: Option<string>, amount: Option<int>, sign: bool)
    | OnSubject(subjected: Subjected, subject: Option<string>)
    | OnBare(bare: Bare)
    | OnElse
    | OnUnsubscribe

  datatype BadgeList = OneBadge(badge: string) | Badges(badges: seq<string>)

  datatype BadgeClause = MustHaveAll(list: BadgeList) | MustHaveNone(list: BadgeList)

  /** A condition that can be read back: see `ConditionParser.RoundTripIff`. */
  type Readable = c: Conditions.Cond | ConditionParser.Readable(c) witness Conditions.HasBadge("")

  datatype TriggerClause =
    | WithinSpan(span: Span)
    | PriorityOf(priority: int)
    | ScopeOf(scope: string)
    | CompleteFlag(flag: bool)
    | FailedFlag(flag: bool)
    | TriggerBadges(badges: seq<BadgeClause>)
    | WhenCond(cond: Readable)
    | DoAction(action: ActionParser.Action)
    | ElseAction(action: ActionParser.Action)
    | ElseBlock(actions: seq<ActionParser.Action>)
    | AtOnce(flag: bool)

  predicate EndsOpen(c: TriggerClause) {
    (c.DoAction? || c.ElseAction?) && ActionParser.Open(c.action)
  }

  /** No else stands where an open retry action would take it: see `ActionParser.TriggerReadsBackIff`. */
  predicate KeepsElses(cs: seq<TriggerClause>) {
    forall i :: 0 <= i < |cs| - 1 && EndsOpen(cs[i]) ==> !cs[i + 1].ElseAction? && !cs[i + 1].ElseBlock?
  }

  type TriggerBody = cs: seq<TriggerClause> | KeepsElses(cs) witness []

  datatype Trigger = Trigger(happening: Happening, body: TriggerBody)

  // ---------- Scenes and enactments ----------

  datatype VarMark = WithColon | WithEquals | Unmarked

  datatype Var = Var(key: Label, mark: VarMark, value: string, comma: bool)

  datatype CertificateClause = CourseIs(ref: string) | DesignIs(template: string)

  datatype SceneClause =
    | SubjectIs(value: Value)
    | BodyIs(value: Value)
    | FromEmailIs(value: Value)
    | FromNameIs(value: Value)
    | ReplyToIs(value: Value)
    | TemplateIs(text: string)
    | VarsAre(vars: seq<Var>)
    | TagsAre(tags: seq<string>)
    | CertificateIs(certificate: seq<CertificateClause>)
    | PackIs(text: string)
    | SubjectGenIs(text: string)
    | BodyGenIs(text: string)

  datatype SceneNode = SceneNode(name: string, clauses: seq<SceneClause>)

  datatype SceneRange = SceneRange(first: int, last: int, variable: string, scenes: seq<SceneNode>)

  datatype EnactmentClause =
    | LevelIs(amount: Amount)
    | EnactmentOrder(amount: Amount)
    | SkipFlag(flag: bool)
    | HasScene(scene: SceneNode)
    | HasTrigger(trigger: Trigger)
    | HasUse(use: Use)
    | HasRange(range: SceneRange)

  datatype EnactmentNode = EnactmentNode(name: Value, clauses: seq<EnactmentClause>)

  // ---------- Storylines and stories ----------

  datatype BadgeChange = Gives(badge: string) | Removes(badge: string)

  datatype RouteClause = RouteBadges(badges: seq<BadgeClause>) | RouteTo(storyline: string) | RoutePriority(priority: int)

  datatype StorylineEnd =
    | LineBadge(change: BadgeChange)
    | LineNext(storyline: string)
    | LineRoute(conditional: bool, route: seq<RouteClause>)

  datatype StoryEnd = EndBadge(change: BadgeChange) | EndNext(story: string)

  datatype FieldValue = FieldText(text: string) | FieldNumber(value: int) | FieldName(word: Word)

  datatype Field = Field(key: Word, value: FieldValue, comma: bool)

  datatype DataElement = DataObject(fields: seq<Field>) | DataComma

  datatype LoopElement = LoopObject(fields: seq<Field>) | LoopText(text: string) | LoopComma

  datatype Source = InPlace(elements: seq<LoopElement>) | DataNamed(word: Word)

  datatype ForNode<T> = ForNode(variable: Word, source: Source, body: seq<T>)

  datatype LineLoopClause = LoopEnactment(enactment: EnactmentNode) | LoopUse(use: Use)

  datatype StorylineClause =
    | StorylineOrder(amount: Amount)
    | StorylineBadges(badges: seq<BadgeClause>)
    | StorylineBegins(changes: seq<BadgeChange>)
    | StorylineCompletes(ends: seq<StorylineEnd>)
    | StorylineFails(ends: seq<StorylineEnd>)
    | HasEnactment(enactment: EnactmentNode)
    | StorylineLoop(enactments: ForNode<LineLoopClause>)
    | StorylineUse(use: Use)

  datatype StorylineNode = StorylineNode(name: string, clauses: seq<StorylineClause>)

  datatype StoryClause =
    | StoryPriority(priority: int)
    | Interruption(flag: bool)
    | StoryBegins(changes: seq<BadgeChange>)
    | StoryCompletes(ends: seq<StoryEnd>)
    | StoryFails(ends: seq<StoryEnd>)
    | StoryBadges(badges: seq<BadgeClause>)
    | StartsOn(trigger: string)
    | CompletesOn(trigger: string)
    | HasStoryline(storyline: StorylineNode)
    | StoryLoop(storylines: ForNode<StorylineNode>)
    | StoryUse(use: Use)

  // ---------- Declarations ----------

  datatype SenderClause = EmailIs(text: string) | NameIs(text: string) | RepliesTo(text: string)

  datatype Link = Link(name: string, url: string)

  datatype PatternClause =
    | PatternEnactment(enactment: EnactmentNode)
    | PatternScene(scene: SceneNode)
    | PatternRange(range: SceneRange)
    | PatternTrigger(trigger: Trigger)

  datatype DefaultClause = DefaultTrigger(trigger: Trigger) | DefaultUse(use: Use)

  datatype Declaration =
    | SenderIs(called: Option<string>, sender: seq<SenderClause>)
    | LinksAre(links: seq<Link>)
    | PatternIs(name: string, params: seq<Word>, pattern: seq<PatternClause>)
    | PolicyIs(name: string, params: seq<Word>, triggers: seq<Trigger>)
    | DataIs(data: Word, elements: seq<DataElement>)
    | SceneDefaultsAre(defaults: seq<DefaultClause>)
    | EnactmentDefaultsAre(defaults: seq<DefaultClause>)
    | StoryIs(story: string, clauses: seq<StoryClause>)

  // ---------- Words ----------

  function Spelled<T>(xs: seq<T>, f: T -> seq<Token>): seq<Token> {
    if xs == [] then [] else f(xs[0]) + Spelled(xs[1..], f)
  }

  function CommaBetween<T>(xs: seq<T>, f: T -> seq<Token>): seq<Token> {
    if xs == [] then [] else if |xs| == 1 then f(xs[0]) else f(xs[0]) + ([Comma] + CommaBetween(xs[1..], f))
  }

  function StrWord(s: string): seq<Token> {
    [Str(s)]
  }

  function OneWord(w: Word): seq<Token> {
    [w]
  }

  function RefWords(r: Ref): seq<Token> {
    if r.field.Some? then [r.name, Dot, r.field.value] else [r.name]
  }

  function AmountWords(a: Amount): seq<Token> {
    match a
    case Fixed(n) => [Int(n)]
    case AmountOf(r) => RefWords(r)
  }

  function ValueWord(v: Value): Token {
    match v
    case Quoted(s) => Str(s)
    case Named(w) => w
  }

  function LabelWord(l: Label): Token {
    match l
    case Literal(s) => Str(s)
    case Ident(n) => Name(n)
  }

  function SpanWords(s: Span): seq<Token> {
    match s
    case Exact(d) => [Time(d)]
    case Counted(n, u) => [Int(n), Name(u)]
  }

  function FieldPart(w: Word): seq<Token> {
    [Dot, w]
  }

  function ArgumentWords(a: Argument): seq<Token> {
    match a
    case TextArgument(s) => [Str(s)]
    case PathArgument(n, fields) => [n] + Spelled(fields, FieldPart)
  }

  function ArgsWords(args: Option<seq<Argument>>): seq<Token> {
    if args.None? then [] else [LParen] + (CommaBetween(args.value, ArgumentWords) + [RParen])
  }

  function UseWords(u: Use): seq<Token> {
    match u
    case UseSender(DefaultSender) => [Key(Sender), Key(Default)]
    case UseSender(SenderCalled(l)) => [Key(Sender), LabelWord(l)]
    case UsePattern(w, args) => [Key(Pattern), w] + ArgsWords(args)
    case UsePolicy(w, args) => [Key(Policy), w] + ArgsWords(args)
  }

  function ListWords(names: seq<string>): seq<Token> {
    [LBracket] + (CommaBetween(names, StrWord) + [RBracket])
  }

  function BadgeListWords(l: BadgeList): seq<Token> {
    match l
    case OneBadge(n) => [Str(n)]
    case Badges(names) => ListWords(names)
  }

  function CondWords(c: Conditions.Cond): seq<Token>
    decreases c, 0
  {
    match c
    case HasBadge(n) => [Key(HasBadge), Str(n)]
    case NotHasBadge(n) => [Key(NotHasBadge), Str(n)]
    case HasTag(n) => [Key(HasTag), Str(n)]
    case NotHasTag(n) => [Key(NotHasTag), Str(n)]
    case And(cs) => [Key(And), LBrace] + CondsWords(cs) + [RBrace]
    case Or(cs) => [Key(Or), LBrace] + CondsWords(cs) + [RBrace]
    case Not(cs) => if cs == [] then [Key(Not)] else [Key(Not)] + CondWords(cs[0])
  }

  function CondsWords(cs: seq<Conditions.Cond>): seq<Token>
    decreases cs, 0
  {
    if cs == [] then [] else CondWords(cs[0]) + CondsWords(cs[1..])
  }

  function RetryWords(h: ActionParser.RetryHead): seq<Token> {
    match h
    case Bare(k) => [Retry(k)]
    case To(k, s) => [Loop(k), Str(s)]
  }

  function MaxWords(max: Option<int>): seq<Token> {
    if max.None? then [] else [Key(UpTo), Int(max.value), Key(Times)]
  }

  function ActionWords(a: ActionParser.Action): seq<Token>
    decreases a, 1
  {
    match a
    case Plain(k) => [Plain(k)]
    case Target(k, s) => [Target(k), Str(s)]
    case Wait(d) => [Key(Wait), Time(d)]
    case SendImmediate(b) => [Key(SendImmediate), Flag(b)]
    case Retry(h, max, fallback) =>
      RetryWords(h) + (MaxWords(max) + if fallback == [] then [] else [Key(Else), LBrace] + (ActionsWords(fallback) + [RBrace]))
  }

  function ActionsWords(actions: seq<ActionParser.Action>): seq<Token>
    decreases actions, 0
  {
    if actions == [] then [] else [Key(Do)] + ActionWords(actions[0]) + ActionsWords(actions[1..])
  }

  function OptText(o: Option<string>): seq<Token> {
    if o.Some? then [Str(o.value)] else []
  }

  function LinkWords(l: Option<LinkRef>): seq<Token> {
    match l
    case None => []
    case Some(LinkText(s)) => [Str(s)]
    case Some(LinkNamed(r)) => RefWords(r)
  }

  function MeasureWords(block: Option<string>, op: Option<string>, amount: Option<int>, sign: bool): seq<Token> {
    OptText(block) + ((if op.Some? then [Compare(op.value)] else [])
    + ((if amount.Some? then [Int(amount.value)] else []) + if sign then [Percent] else []))
  }

  function HappeningWords(h: Happening): seq<Token> {
    match h
    case OnClick(l) => [Event(Click)] + LinkWords(l)
    case OnNotClick(l) => [Event(NotClick)] + LinkWords(l)
    case OnWebhook(None) => [Event(Webhook)]
    case OnWebhook(Some(l)) => [Event(Webhook), LabelWord(l)]
    case OnWatch(b, op, n, sign) => [Event(Watch)] + MeasureWords(b, op, n, sign)
    case OnProgress(b, op, n, sign) => [Event(Progress)] + MeasureWords(b, op, n, sign)
    case OnSubject(e, s) => [Event(e)] + OptText(s)
    case OnBare(e) => [Event(e)]
    case OnElse => [Key(Else)]
    case OnUnsubscribe => [Plain(ActionParser.Unsubscribe)]
  }

  // ---------- Items ----------

  function Built<T>(xs: seq<T>, f: T -> Item): (items: seq<Item>)
    ensures |items| == |xs|
  {
    seq(|xs|, i requires 0 <= i < |xs| => f(xs[i]))
  }

  function UseItem(u: Use): Item {
    Clause(Key(Use), UseWords(u))
  }

  function BadgeClauseItem(c: BadgeClause): Item {
    match c
    case MustHaveAll(l) => Clause(Key(MustHave), BadgeListWords(l))
    case MustHaveNone(l) => Clause(Key(MustNotHave), BadgeListWords(l))
  }

  function BadgesItem(cs: seq<BadgeClause>): Item {
    Section(Key(RequiredBadges), BadgesBlock, [LBrace], Built(cs, BadgeClauseItem))
  }

  function TriggerClauseItem(c: TriggerClause): Item {
    match c
    case WithinSpan(s) => Clause(Key(Within), SpanWords(s))
    case PriorityOf(n) => Clause(Key(TriggerPriority), [Int(n)])
    case ScopeOf(s) => Clause(Key(PersistScope), [Str(s)])
    case CompleteFlag(b) => Clause(Plain(ActionParser.MarkComplete), [Flag(b)])
    case FailedFlag(b) => Clause(Plain(ActionParser.MarkFailed), [Flag(b)])
    case TriggerBadges(cs) => BadgesItem(cs)
    case WhenCond(c) => Clause(Key(When), CondWords(c))
    case DoAction(a) => Clause(Key(Do), ActionWords(a))
    case ElseAction(a) => Clause(Key(Else), [Key(Do)] + ActionWords(a))
    case ElseBlock(actions) => Clause(Key(Else), [LBrace] + (ActionsWords(actions) + [RBrace]))
    case AtOnce(b) => Clause(Key(SendImmediate), [Flag(b)])
  }

  function TriggerItem(t: Trigger): Item {
    Section(Key(On), TriggerBlock, HappeningWords(t.happening) + [LBrace], Built(t.body, TriggerClauseItem))
  }

  function MarkWords(m: VarMark): seq<Token> {
    match m
    case WithColon => [Colon]
    case WithEquals => [Equals]
    case Unmarked => []
  }

  function VarItem(v: Var): Item {
    Clause(LabelWord(v.key), MarkWords(v.mark) + ([Str(v.value)] + if v.comma then [Comma] else []))
  }

  function CertificateClauseItem(c: CertificateClause): Item {
    match c
    case CourseIs(s) => Clause(Key(CourseRef), [Str(s)])
    case DesignIs(s) => Clause(Key(Template), [Str(s)])
  }

  function SceneClauseItem(c: SceneClause): Item {
    match c
    case SubjectIs(v) => Clause(Key(Subject), [ValueWord(v)])
    case BodyIs(v) => Clause(Key(Body), [ValueWord(v)])
    case FromEmailIs(v) => Clause(Key(FromEmail), [ValueWord(v)])
    case FromNameIs(v) => Clause(Key(FromName), [ValueWord(v)])
    case ReplyToIs(v) => Clause(Key(ReplyTo), [ValueWord(v)])
    case TemplateIs(s) => Clause(Key(Template), [Str(s)])
    case VarsAre(vars) => Section(Key(Vars), VarsBlock, [LBrace], Built(vars, VarItem))
    case TagsAre(tags) => Clause(Key(Tags), ListWords(tags))
    case CertificateIs(cs) => Section(Key(Certificate), CertificateBlock, [LBrace], Built(cs, CertificateClauseItem))
    case PackIs(s) => Clause(Key(ContextPack), [Str(s)])
    case SubjectGenIs(s) => Clause(Key(SubjectGen), [Str(s)])
    case BodyGenIs(s) => Clause(Key(BodyGen), [Str(s)])
  }

  function SceneItem(s: SceneNode): Item {
    Section(Key(Scene), SceneBlock, [Str(s.name), LBrace], Built(s.clauses, SceneClauseItem))
  }

  function RangeItem(r: SceneRange): Item {
    Section(Key(Scenes), RangeBlock, [Int(r.first), DotDot, Int(r.last), Key(As), Name(r.variable), LBrace],
      Built(r.scenes, SceneItem))
  }

  function EnactmentClauseItem(c: EnactmentClause): Item {
    match c
    case LevelIs(a) => Clause(Key(Level), AmountWords(a))
    case EnactmentOrder(a) => Clause(Key(Order), AmountWords(a))
    case SkipFlag(b) => Clause(Key(SkipToNextStorylineOnExpiry), [Flag(b)])
    case HasScene(s) => SceneItem(s)
    case HasTrigger(t) => TriggerItem(t)
    case HasUse(u) => UseItem(u)
    case HasRange(r) => RangeItem(r)
  }

  function EnactmentItem(e: EnactmentNode): Item {
    Section(Key(Enactment), EnactmentBlock, [ValueWord(e.name), LBrace], Built(e.clauses, EnactmentClauseItem))
  }

  function ChangeItem(c: BadgeChange): Item {
    match c
    case Gives(n) => Clause(Target(ActionParser.GiveBadge), [Str(n)])
    case Removes(n) => Clause(Target(ActionParser.RemoveBadge), [Str(n)])
  }

  function RouteClauseItem(c: RouteClause): Item {
    match c
    case RouteBadges(cs) => BadgesItem(cs)
    case RouteTo(s) => Clause(Key(NextStoryline), [Str(s)])
    case RoutePriority(n) => Clause(Key(Priority), [Int(n)])
  }

  function LineEndItem(e: StorylineEnd): Item {
    match e
    case LineBadge(c) => ChangeItem(c)
    case LineNext(s) => Clause(Key(NextStoryline), [Str(s)])
    case LineRoute(conditional, cs) =>
      Section(if conditional then Key(ConditionalRoute) else Key(Route), RouteBlock, [LBrace], Built(cs, RouteClauseItem))
  }

  function StoryEndItem(e: StoryEnd): Item {
    match e
    case EndBadge(c) => ChangeItem(c)
    case EndNext(s) => Clause(Key(NextStory), [Str(s)])
  }

  function BeginItem(cs: seq<BadgeChange>): Item {
    Section(Key(OnBegin), BeginBlock, [LBrace], Built(cs, ChangeItem))
  }

  function FieldWord(v: FieldValue): Token {
    match v
    case FieldText(s) => Str(s)
    case FieldNumber(n) => Int(n)
    case FieldName(w) => w
  }

  function FieldItem(f: Field): Item {
    Clause(f.key, [Colon, FieldWord(f.value)] + if f.comma then [Comma] else [])
  }

  function ObjectItem(fields: seq<Field>): Item {
    Section(LBrace, Object, [], Built(fields, FieldItem))
  }

  function DataElementItem(e: DataElement): Item {
    match e
    case DataObject(fields) => ObjectItem(fields)
    case DataComma => Clause(Comma, [])
  }

  function LoopElementItem(e: LoopElement): Item {
    match e
    case LoopObject(fields) => ObjectItem(fields)
    case LoopText(s) => Clause(Str(s), [])
    case LoopComma => Clause(Comma, [])
  }

  function SourceItem(s: Source): Item {
    match s
    case InPlace(elements) => Section(LBracket, InlineArray, [], Built(elements, LoopElementItem))
    case DataNamed(w) => Clause(w, [])
  }

  function ForItem<T>(l: ForNode<T>, b: Block, f: T -> Item): Item {
    ForLoop([l.variable, Key(In)], SourceItem(l.source), b, Built(l.body, f))
  }

  function LineLoopItem(c: LineLoopClause): Item {
    match c
    case LoopEnactment(e) => EnactmentItem(e)
    case LoopUse(u) => UseItem(u)
  }

  function StorylineClauseItem(c: StorylineClause): Item {
    match c
    case StorylineOrder(a) => Clause(Key(Order), AmountWords(a))
    case StorylineBadges(cs) => BadgesItem(cs)
    case StorylineBegins(cs) => BeginItem(cs)
    case StorylineCompletes(ends) => Section(Key(OnComplete), StorylineEndBlock, [LBrace], Built(ends, LineEndItem))
    case StorylineFails(ends) => Section(Key(OnFail), StorylineEndBlock, [LBrace], Built(ends, LineEndItem))
    case HasEnactment(e) => EnactmentItem(e)
    case StorylineLoop(l) => ForItem(l, StorylineFor, LineLoopItem)
    case StorylineUse(u) => UseItem(u)
  }

  function StorylineItem(s: StorylineNode): Item {
    Section(Key(Storyline), StorylineBlock, [Str(s.name), LBrace], Built(s.clauses, StorylineClauseItem))
  }

  function StoryClauseItem(c: StoryClause): Item {
    match c
    case StoryPriority(n) => Clause(Key(Priority), [Int(n)])
    case Interruption(b) => Clause(Key(AllowInterruption), [Flag(b)])
    case StoryBegins(cs) => BeginItem(cs)
    case StoryCompletes(ends) => Section(Key(OnComplete), EndBlock, [LBrace], Built(ends, StoryEndItem))
    case StoryFails(ends) => Section(Key(OnFail), EndBlock, [LBrace], Built(ends, StoryEndItem))
    case StoryBadges(cs) => BadgesItem(cs)
    case StartsOn(s) => Clause(Key(StartTrigger), [Str(s)])
    case CompletesOn(s) => Clause(Key(CompleteTrigger), [Str(s)])
    case HasStoryline(s) => StorylineItem(s)
    case StoryLoop(l) => ForItem(l, StoryFor, StorylineItem)
    case StoryUse(u) => UseItem(u)
  }

  function SenderClauseItem(c: SenderClause): Item {
    match c
    case EmailIs(s) => Clause(Key(FromEmail), [Str(s)])
    case NameIs(s) => Clause(Key(FromName), [Str(s)])
    case RepliesTo(s) => Clause(Key(ReplyTo), [Str(s)])
  }

  function LinkItem(l: Link): Item {
    Clause(Name(l.name), [Equals, Str(l.url)])
  }

  function PatternClauseItem(c: PatternClause): Item {
    match c
    case PatternEnactment(e) => EnactmentItem(e)
    case PatternScene(s) => SceneItem(s)
    case PatternRange(r) => RangeItem(r)
    case PatternTrigger(t) => TriggerItem(t)
  }

  function DefaultClauseItem(c: DefaultClause): Item {
    match c
    case DefaultTrigger(t) => TriggerItem(t)
    case DefaultUse(u) => UseItem(u)
  }

  function TemplateHead(name: string, params: seq<Word>): seq<Token> {
    [Name(name), LParen] + (CommaBetween(params, OneWord) + [RParen, LBrace])
  }

  function DeclarationItem(d: Declaration): Item {
    match d
    case SenderIs(name, cs) => Section(Key(Default), SenderBlock, [Key(Sender)] + (OptText(name) + [LBrace]), Built(cs, SenderClauseItem))
    case LinksAre(links) => Section(Key(Links), LinksBlock, [LBrace], Built(links, LinkItem))
    case PatternIs(name, params, cs) => Section(Key(Pattern), PatternBlock, TemplateHead(name, params), Built(cs, PatternClauseItem))
    case PolicyIs(name, params, ts) => Section(Key(Policy), PolicyBlock, TemplateHead(name, params), Built(ts, TriggerItem))
    case DataIs(w, elements) => Section(Key(Data), DataArray, [w, Equals, LBracket], Built(elements, DataElementItem))
    case SceneDefaultsAre(cs) => Section(Key(SceneDefaults), DefaultsBlock, [LBrace], Built(cs, DefaultClauseItem))
    case EnactmentDefaultsAre(cs) => Section(Key(EnactmentDefaults), DefaultsBlock, [LBrace], Built(cs, DefaultClauseItem))
    case StoryIs(name, cs) => Section(Key(Story), StoryBlock, [Str(name), LBrace], Built(cs, StoryClauseItem))
  }

  // ---------- The text of a script ----------

  /** Every block ends with a brace, but for the arrays, which end with a bracket. */
  function Spelling(i: Item): seq<Token>
    decreases i, 1
  {
    match i
    case Clause(key, w) => [key] + w
    case Section(key, _, head, items) =>
      [key] + (head + (Written(items) + [if key == Key(Data) || key == LBracket then RBracket else RBrace]))
    case ForLoop(head, source, _, items) =>
      [Key(For)] + (head + (Spelling(source) + ([LBrace] + (Written(items) + [RBrace]))))
  }

  function Written(items: seq<Item>): seq<Token>
    decreases items, 0
  {
    if items == [] then [] else Spelling(items[0]) + Written(items[1..])
  }

  function ScriptItems(script: seq<Declaration>): seq<Item> {
    Built(script, DeclarationItem)
  }

  function ScriptText(script: seq<Declaration>): seq<Token> {
    Written(ScriptItems(script))
  }
}
