/**
  What the parser refuses: a token that starts no clause of the typed trees, in the block it stands in, costs one report
  and is skipped.
*/
module ScriptRefusals {
  import opened Wrappers
  import Conditions
  import ActionParser
  import opened BlockGrammar
  import opened ScriptTree
  import opened ScriptTheorems

  /** A clause of the typed trees starts like this in the block. */
  ghost predicate Opens(b: Block, t: Token) {
    match b
    case Script => exists d: Declaration :: First(DeclarationItem(d)) == t
    case StoryBlock => exists c: StoryClause :: First(StoryClauseItem(c)) == t
    case StorylineBlock => exists c: StorylineClause :: First(StorylineClauseItem(c)) == t
    case StoryFor => exists s: StorylineNode :: First(StorylineItem(s)) == t
    case StorylineFor => exists c: LineLoopClause :: First(LineLoopItem(c)) == t
    case EnactmentBlock => exists c: EnactmentClause :: First(EnactmentClauseItem(c)) == t
    case RangeBlock => exists s: SceneNode :: First(SceneItem(s)) == t
    case SceneBlock => exists c: SceneClause :: First(SceneClauseItem(c)) == t
    case TriggerBlock => exists c: TriggerClause :: First(TriggerClauseItem(c)) == t
    case PatternBlock => exists c: PatternClause :: First(PatternClauseItem(c)) == t
    case PolicyBlock => exists g: Trigger :: First(TriggerItem(g)) == t
    case DefaultsBlock => exists c: DefaultClause :: First(DefaultClauseItem(c)) == t
    case SenderBlock => exists c: SenderClause :: First(SenderClauseItem(c)) == t
    case LinksBlock => exists l: Link :: First(LinkItem(l)) == t
    case VarsBlock => exists v: Var :: First(VarItem(v)) == t
    case CertificateBlock => exists c: CertificateClause :: First(CertificateClauseItem(c)) == t
    case BeginBlock => exists c: BadgeChange :: First(ChangeItem(c)) == t
    case EndBlock => exists e: StoryEnd :: First(StoryEndItem(e)) == t
    case StorylineEndBlock => exists e: StorylineEnd :: First(LineEndItem(e)) == t
    case RouteBlock => exists c: RouteClause :: First(RouteClauseItem(c)) == t
    case BadgesBlock => exists c: BadgeClause :: First(BadgeClauseItem(c)) == t
    case DataArray => exists e: DataElement :: First(DataElementItem(e)) == t
    case InlineArray => exists e: LoopElement :: First(LoopElementItem(e)) == t
    case Object => exists f: Field :: First(FieldItem(f)) == t
  }

  const SOME_TEXT := Quoted("")
  const SOME_SCENE := SceneNode("", [])
  const SOME_ENACTMENT := EnactmentNode(SOME_TEXT, [])
  const SOME_TRIGGER := Trigger(OnElse, [])
  const SOME_USE := UseSender(DefaultSender)
  const SOME_RANGE := SceneRange(0, 0, "", [])
  const SOME_SOURCE := InPlace([])

  lemma DeclarationOpens(t: Token)
    requires !FormOf(Script, t).Bad?
    ensures Opens(Script, t)
  {
    var d :=
      match t
      case Key(Default) => SenderIs(None, [])
      case Key(Links) => LinksAre([])
      case Key(Pattern) => PatternIs("", [], [])
      case Key(Policy) => PolicyIs("", [], [])
      case Key(Data) => DataIs(Name(""), [])
      case Key(SceneDefaults) => SceneDefaultsAre([])
      case Key(EnactmentDefaults) => EnactmentDefaultsAre([])
      case _ => StoryIs("", []);
    assert First(DeclarationItem(d)) == t;
  }

  lemma StoryOpens(t: Token)
    requires !FormOf(StoryBlock, t).Bad?
    ensures Opens(StoryBlock, t)
  {
    var c :=
      match t
      case Key(Priority) => StoryPriority(0)
      case Key(AllowInterruption) => Interruption(true)
      case Key(OnBegin) => StoryBegins([])
      case Key(OnComplete) => StoryCompletes([])
      case Key(OnFail) => StoryFails([])
      case Key(RequiredBadges) => StoryBadges([])
      case Key(StartTrigger) => StartsOn("")
      case Key(CompleteTrigger) => CompletesOn("")
      case Key(Storyline) => HasStoryline(StorylineNode("", []))
      case Key(For) => StoryLoop(ForNode(Name(""), SOME_SOURCE, []))
      case _ => StoryUse(SOME_USE);
    assert First(StoryClauseItem(c)) == t;
  }

  lemma StorylineOpens(t: Token)
    requires !FormOf(StorylineBlock, t).Bad?
    ensures Opens(StorylineBlock, t)
  {
    var c :=
      match t
      case Key(Order) => StorylineOrder(Fixed(0))
      case Key(RequiredBadges) => StorylineBadges([])
      case Key(OnBegin) => StorylineBegins([])
      case Key(OnComplete) => StorylineCompletes([])
      case Key(OnFail) => StorylineFails([])
      case Key(Enactment) => HasEnactment(SOME_ENACTMENT)
      case Key(For) => StorylineLoop(ForNode(Name(""), SOME_SOURCE, []))
      case _ => StorylineUse(SOME_USE);
    assert First(StorylineClauseItem(c)) == t;
  }

  lemma LoopOpens(b: Block, t: Token)
    requires b in {StoryFor, StorylineFor, RangeBlock, PolicyBlock} && !FormOf(b, t).Bad?
    ensures Opens(b, t)
  {
    match b
    case StoryFor => assert First(StorylineItem(StorylineNode("", []))) == t;
    case RangeBlock => assert First(SceneItem(SOME_SCENE)) == t;
    case PolicyBlock => assert First(TriggerItem(SOME_TRIGGER)) == t;
    case StorylineFor =>
      var c := if t == Key(Enactment) then LoopEnactment(SOME_ENACTMENT) else LoopUse(SOME_USE);
      assert First(LineLoopItem(c)) == t;
  }

  lemma EnactmentOpens(t: Token)
    requires !FormOf(EnactmentBlock, t).Bad?
    ensures Opens(EnactmentBlock, t)
  {
    var c :=
      match t
      case Key(Level) => LevelIs(Fixed(0))
      case Key(Order) => EnactmentOrder(Fixed(0))
      case Key(SkipToNextStorylineOnExpiry) => SkipFlag(true)
      case Key(Scene) => HasScene(SOME_SCENE)
      case Key(On) => HasTrigger(SOME_TRIGGER)
      case Key(Use) => HasUse(SOME_USE)
      case _ => HasRange(SOME_RANGE);
    assert First(EnactmentClauseItem(c)) == t;
  }

  lemma SceneOpens(t: Token)
    requires !FormOf(SceneBlock, t).Bad?
    ensures Opens(SceneBlock, t)
  {
    var c :=
      match t
      case Key(Subject) => SubjectIs(SOME_TEXT)
      case Key(Body) => BodyIs(SOME_TEXT)
      case Key(FromEmail) => FromEmailIs(SOME_TEXT)
      case Key(FromName) => FromNameIs(SOME_TEXT)
      case Key(ReplyTo) => ReplyToIs(SOME_TEXT)
      case Key(Template) => TemplateIs("")
      case Key(Vars) => VarsAre([])
      case Key(Tags) => TagsAre([])
      case Key(Certificate) => CertificateIs([])
      case Key(ContextPack) => PackIs("")
      case Key(SubjectGen) => SubjectGenIs("")
      case _ => BodyGenIs("");
    assert First(SceneClauseItem(c)) == t;
  }

  lemma TriggerOpens(t: Token)
    requires !FormOf(TriggerBlock, t).Bad?
    ensures Opens(TriggerBlock, t)
  {
    var c :=
      match t
      case Key(Within) => WithinSpan(Counted(0, "d"))
      case Key(TriggerPriority) => PriorityOf(0)
      case Key(PersistScope) => ScopeOf("")
      case Plain(MarkComplete) => CompleteFlag(true)
      case Plain(MarkFailed) => FailedFlag(true)
      case Key(RequiredBadges) => TriggerBadges([])
      case Key(When) => WhenCond(Conditions.HasBadge(""))
      case Key(Do) => DoAction(ActionParser.SendImmediate(true))
      case Key(Else) => ElseBlock([])
      case _ => AtOnce(true);
    assert First(TriggerClauseItem(c)) == t;
  }

  lemma PatternOpens(t: Token)
    requires !FormOf(PatternBlock, t).Bad?
    ensures Opens(PatternBlock, t)
  {
    var c :=
      match t
      case Key(Enactment) => PatternEnactment(SOME_ENACTMENT)
      case Key(Scene) => PatternScene(SOME_SCENE)
      case Key(Scenes) => PatternRange(SOME_RANGE)
      case _ => PatternTrigger(SOME_TRIGGER);
    assert First(PatternClauseItem(c)) == t;
  }

  lemma TableOpens(b: Block, t: Token)
    requires b in {DefaultsBlock, SenderBlock, LinksBlock, VarsBlock, CertificateBlock} && !FormOf(b, t).Bad?
    ensures Opens(b, t)
  {
    match b
    case DefaultsBlock =>
      var c := if t == Key(On) then DefaultTrigger(SOME_TRIGGER) else DefaultUse(SOME_USE);
      assert First(DefaultClauseItem(c)) == t;
    case SenderBlock =>
      var c := if t == Key(FromEmail) then EmailIs("") else if t == Key(FromName) then NameIs("") else RepliesTo("");
      assert First(SenderClauseItem(c)) == t;
    case LinksBlock => assert First(LinkItem(Link(t.text, ""))) == t;
    case VarsBlock =>
      var v := Var(if t.Str? then Literal(t.text) else Ident(t.text), Unmarked, "", false);
      assert First(VarItem(v)) == t;
    case CertificateBlock =>
      var c := if t == Key(CourseRef) then CourseIs("") else DesignIs("");
      assert First(CertificateClauseItem(c)) == t;
  }

  lemma ChangeOpens(t: Token)
    requires IsBadgeChange(t)
    ensures exists c: BadgeChange :: First(ChangeItem(c)) == t
  {
    var c := if t == Target(ActionParser.GiveBadge) then Gives("") else Removes("");
    assert First(ChangeItem(c)) == t;
  }

  lemma EndOpens(b: Block, t: Token)
    requires b in {BeginBlock, EndBlock, StorylineEndBlock} && !FormOf(b, t).Bad?
    ensures Opens(b, t)
  {
    var change := if t == Target(ActionParser.GiveBadge) then Gives("") else Removes("");
    match b
    case BeginBlock => ChangeOpens(t);
    case EndBlock =>
      var e := if t == Key(NextStory) then EndNext("") else EndBadge(change);
      assert First(StoryEndItem(e)) == t;
    case StorylineEndBlock =>
      var e :=
        if t == Key(NextStoryline) then LineNext("")
        else if IsBadgeChange(t) then LineBadge(change) else LineRoute(t == Key(ConditionalRoute), []);
      assert First(LineEndItem(e)) == t;
  }

  lemma RouteOpens(b: Block, t: Token)
    requires b in {RouteBlock, BadgesBlock} && !FormOf(b, t).Bad?
    ensures Opens(b, t)
  {
    match b
    case RouteBlock =>
      var c :=
        if t == Key(RequiredBadges) then RouteBadges([]) else if t == Key(NextStoryline) then RouteTo("") else RoutePriority(0);
      assert First(RouteClauseItem(c)) == t;
    case BadgesBlock =>
      var c := if t == Key(MustHave) then MustHaveAll(OneBadge("")) else MustHaveNone(OneBadge(""));
      assert First(BadgeClauseItem(c)) == t;
  }

  lemma DataOpens(b: Block, t: Token)
    requires b in {DataArray, InlineArray, Object} && !FormOf(b, t).Bad?
    ensures Opens(b, t)
  {
    match b
    case DataArray =>
      var e := if t == Comma then DataComma else DataObject([]);
      assert First(DataElementItem(e)) == t;
    case InlineArray =>
      var e := if t == Comma then LoopComma else if t == LBrace then LoopObject([]) else LoopText(t.text);
      assert First(LoopElementItem(e)) == t;
    case Object =>
      NamesAreWords(t);
      assert First(FieldItem(Field(t, FieldNumber(0), false))) == t;
  }

  lemma NamesAreWords(t: Token)
    ensures NameLike(t) <==> MayName(t)
  {
  }

  lemma OnlyClausesOpen(b: Block, t: Token)
    requires !FormOf(b, t).Bad?
    ensures Opens(b, t)
  {
    hide Opens, FormOf;
    if b in {StoryFor, StorylineFor, RangeBlock, PolicyBlock} {
      LoopOpens(b, t);
    } else if b in {DefaultsBlock, SenderBlock, LinksBlock, VarsBlock, CertificateBlock} {
      TableOpens(b, t);
    } else if b in {BeginBlock, EndBlock, StorylineEndBlock} {
      EndOpens(b, t);
    } else if b in {RouteBlock, BadgesBlock} {
      RouteOpens(b, t);
    } else if b in {DataArray, InlineArray, Object} {
      DataOpens(b, t);
    } else {
      match b
      case Script => DeclarationOpens(t);
      case StoryBlock => StoryOpens(t);
      case StorylineBlock => StorylineOpens(t);
      case EnactmentBlock => EnactmentOpens(t);
      case SceneBlock => SceneOpens(t);
      case TriggerBlock => TriggerOpens(t);
      case PatternBlock => PatternOpens(t);
    }
  }

  /** Every other token is reported once, and skipped. */
  lemma OthersAreRefused(b: Block, ts: seq<Token>)
    requires ts != [] && !Opens(b, ts[0])
    ensures ParseClause(b, ts) == Parsed(None, ts[1..], 1, false)
  {
    hide Opens, FormOf, Sound, Suffix;
    if !FormOf(b, ts[0]).Bad? {
      OnlyClausesOpen(b, ts[0]);
    }
  }
}
