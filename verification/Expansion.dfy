/**
  What expansion makes of a story, as functions on values: patterns, policies, defaults, scene ranges and for loops
  are replaced by the enactments, scenes and triggers they stand for. `Expander` computes the same on the tree itself.
*/
module Expansion {
  import opened Wrappers

  /** Text functions of the program: interpolation of ${name}, links in a body, and decimal numbers. */
  datatype Text = Text(
    interpolate: (string, map<string, string>) -> string,
    href: (string, map<string, string>) -> string,
    itoa: int -> string,
    atoi: string -> Option<int>)

  /** `generated` stands for the certificate, context packs and generation instructions of a scene. */
  datatype Scene = Scene(
    name: string, subject: string, body: string, fromEmail: string, fromName: string, replyTo: string,
    template: string, tags: seq<string>, vars: map<string, string>, generated: seq<string>)

  datatype Action = Action(kind: string, target: string, fallback: seq<Action>)

  /** `watch` stands for the block, operator and percentage of a watch trigger. */
  datatype Trigger = Trigger(kind: string, value: string, actions: seq<Action>, elseActions: seq<Action>, watch: seq<string>)

  datatype UseKind = UsePattern | UsePolicy | UseSender | UseOther

  datatype Use = Use(kind: UseKind, target: string, args: seq<string>)

  datatype Range = Range(start: int, end: int, variable: string, body: Option<Scene>)

  datatype Enactment = Enactment(
    name: string, level: Option<int>, levelExpr: string,
    scenes: seq<Scene>, range: Option<Range>, triggers: seq<Trigger>, uses: seq<Use>)

  datatype Pattern = Pattern(params: seq<string>, enactments: seq<Enactment>, range: Option<Range>, triggers: seq<Trigger>)

  datatype Policy = Policy(params: seq<string>, triggers: seq<Trigger>)

  datatype Defaults = Defaults(triggers: seq<Trigger>, uses: seq<Use>)

  datatype Sender = Sender(fromEmail: string, fromName: string, replyTo: string)

  /** What a loop runs over: objects, or strings, or a named data block. */
  datatype Source = Source(objects: seq<map<string, string>>, items: seq<string>, dataRef: string)

  /** A loop in a storyline. */
  datatype Loop = Loop(variable: string, source: Source, uses: seq<Use>, enactments: seq<Enactment>)

  datatype Storyline = Storyline(
    name: string, order: Option<int>, orderExpr: string, enactments: seq<Enactment>, uses: seq<Use>, loops: seq<Loop>)

  /** A loop in a story. */
  datatype StoryLoop = StoryLoop(variable: string, source: Source, body: seq<Storyline>)

  datatype Story = Story(storylines: seq<Storyline>, uses: seq<Use>, loops: seq<StoryLoop>)

  /** The definitions of a script. Enactment defaults come before scene defaults. */
  datatype Env = Env(
    text: Text, senders: map<string, Sender>, links: map<string, string>, patterns: map<string, Pattern>,
    policies: map<string, Policy>, data: map<string, seq<map<string, string>>>, defaults: seq<Defaults>)

  datatype Problem =
    | UnknownPattern | PatternArity | UnknownPolicy | PolicyArity | UnknownSender | UnknownData | NoData
    | MisplacedUse | BadLevel | BadOrder | Duplicate

  // ---------- Definitions by name ----------

  /** Of several definitions of one name the first counts. */
  function FirstOf<T>(defs: seq<(string, T)>): map<string, T> {
    if defs == [] then map[]
    else
      var m := FirstOf(defs[..|defs| - 1]);
      var (name, value) := defs[|defs| - 1];
      if name in m then m else m[name := value]
  }

  /** Every later definition of a name is reported. */
  function DuplicateProblems<T>(defs: seq<(string, T)>): seq<Problem> {
    if defs == [] then []
    else
      var before := defs[..|defs| - 1];
      DuplicateProblems(before) + (if defs[|defs| - 1].0 in FirstOf(before) then [Duplicate] else [])
  }

  // ---------- Substitution ----------

  function Substitute(t: Text, s: string, params: map<string, string>): string {
    if params == map[] || s == "" then s
    else if s in params then params[s]
    else t.interpolate(s, params)
  }

  function SubstituteAll(t: Text, ss: seq<string>, params: map<string, string>): (r: seq<string>)
    ensures |r| == |ss|
  {
    seq(|ss|, i requires 0 <= i < |ss| => Substitute(t, ss[i], params))
  }

  function Resolve(links: map<string, string>, v: string): string {
    if v in links then links[v] else v
  }

  /** Parameters bound to arguments, a later parameter of the same name winning. */
  function Bind(links: map<string, string>, params: seq<string>, args: seq<string>): map<string, string>
    requires |params| == |args|
  {
    if params == [] then map[]
    else
      var n := |params| - 1;
      Bind(links, params[..n], args[..n])[params[n] := Resolve(links, args[n])]
  }

  function Dotted(variable: string, field: string): string {
    variable + "." + field
  }

  function FieldOf(variable: string, name: string): string
    requires |name| > |variable|
  {
    name[|variable| + 1..]
  }

  /** The loop variable's fields as parameters. */
  function BindFields(links: map<string, string>, variable: string, fields: map<string, string>): map<string, string> {
    map name | name in (set f | f in fields :: Dotted(variable, f)) :: Resolve(links, fields[FieldOf(variable, name)])
  }

  // ---------- Clones ----------

  function CloneScene(t: Text, v: Scene, params: map<string, string>): Scene {
    LoopScene(t, v, params).(template := Substitute(t, v.template, params))
  }

  /** The clone made inside for loops keeps the template's name as it is. */
  function LoopScene(t: Text, v: Scene, params: map<string, string>): Scene {
    Scene(
      Substitute(t, v.name, params), Substitute(t, v.subject, params), Substitute(t, v.body, params),
      Substitute(t, v.fromEmail, params), Substitute(t, v.fromName, params), Substitute(t, v.replyTo, params),
      v.template, v.tags, map k | k in v.vars :: Substitute(t, v.vars[k], params), [])
  }

  function CloneAction(t: Text, a: Action, params: map<string, string>): Action {
    Action(a.kind, Substitute(t, a.target, params), CloneActions(t, a.fallback, params))
  }

  function CloneActions(t: Text, actions: seq<Action>, params: map<string, string>): seq<Action> {
    if actions == [] then [] else [CloneAction(t, actions[0], params)] + CloneActions(t, actions[1..], params)
  }

  function CloneTrigger(t: Text, v: Trigger, params: map<string, string>): Trigger {
    Trigger(v.kind, Substitute(t, v.value, params),
      CloneActions(t, v.actions, params), CloneActions(t, v.elseActions, params), [])
  }

  function CloneUse(t: Text, u: Use, params: map<string, string>): Use {
    Use(u.kind, u.target, SubstituteAll(t, u.args, params))
  }

  function Scenes(t: Text, vs: seq<Scene>, params: map<string, string>): (r: seq<Scene>)
    ensures |r| == |vs|
  {
    seq(|vs|, i requires 0 <= i < |vs| => CloneScene(t, vs[i], params))
  }

  function LoopScenes(t: Text, vs: seq<Scene>, params: map<string, string>): (r: seq<Scene>)
    ensures |r| == |vs|
  {
    seq(|vs|, i requires 0 <= i < |vs| => LoopScene(t, vs[i], params))
  }

  function Triggers(t: Text, vs: seq<Trigger>, params: map<string, string>): (r: seq<Trigger>)
    ensures |r| == |vs|
  {
    seq(|vs|, i requires 0 <= i < |vs| => CloneTrigger(t, vs[i], params))
  }

  function Uses(t: Text, us: seq<Use>, params: map<string, string>): (r: seq<Use>)
    ensures |r| == |us|
  {
    seq(|us|, i requires 0 <= i < |us| => CloneUse(t, us[i], params))
  }

  function RangeSize(r: Range): nat {
    if r.body.None? || r.end < r.start then 0 else r.end - r.start + 1
  }

  function RangeScenes(t: Text, r: Range, params: map<string, string>): (s: seq<Scene>)
    ensures |s| == RangeSize(r)
  {
    seq(RangeSize(r), i requires 0 <= i < RangeSize(r) => RangeScene(t, r.body.value, r.variable, r.start + i, params))
  }

  /** The scene of one number of a range. */
  function RangeScene(t: Text, body: Scene, variable: string, number: int, params: map<string, string>): Scene {
    CloneScene(t, body, params[variable := t.itoa(number)])
  }

  function MaybeRange(t: Text, r: Option<Range>, params: map<string, string>): seq<Scene> {
    if r.None? then [] else RangeScenes(t, r.value, params)
  }

  /** A pattern's enactment: its own range is expanded at once, and a level expression is dropped. */
  function PatternEnactment(t: Text, e: Enactment, params: map<string, string>): Enactment {
    Enactment(Substitute(t, e.name, params), e.level, "",
      Scenes(t, e.scenes, params) + MaybeRange(t, e.range, params), None,
      Triggers(t, e.triggers, params), Uses(t, e.uses, params))
  }

  function LoopRange(t: Text, r: Range, params: map<string, string>): Range {
    Range(r.start, r.end, r.variable, if r.body.None? then None else Some(LoopScene(t, r.body.value, params)))
  }

  function LoopLevel(t: Text, e: Enactment, params: map<string, string>): Option<int> {
    if e.levelExpr == "" || e.level.Some? then e.level else t.atoi(Substitute(t, e.levelExpr, params))
  }

  /** A loop's enactment keeps its range for later. */
  function LoopEnactment(t: Text, e: Enactment, params: map<string, string>): Enactment {
    Enactment(Substitute(t, e.name, params), LoopLevel(t, e, params), "",
      LoopScenes(t, e.scenes, params), if e.range.None? then None else Some(LoopRange(t, e.range.value, params)),
      Triggers(t, e.triggers, params), Uses(t, e.uses, params))
  }

  function LoopProblems(t: Text, e: Enactment, params: map<string, string>): seq<Problem> {
    if e.levelExpr != "" && e.level.None? && t.atoi(Substitute(t, e.levelExpr, params)).None? then [BadLevel] else []
  }

  // ---------- Senders and links ----------

  function FillSender(v: Scene, s: Sender): Scene {
    v.(fromEmail := if v.fromEmail == "" then s.fromEmail else v.fromEmail,
       fromName := if v.fromName == "" then s.fromName else v.fromName,
       replyTo := if v.replyTo == "" then s.replyTo else v.replyTo)
  }

  function FillSenders(vs: seq<Scene>, sender: Option<Sender>): (r: seq<Scene>)
    ensures |r| == |vs|
  {
    seq(|vs|, i requires 0 <= i < |vs| => if sender.None? then vs[i] else FillSender(vs[i], sender.value))
  }

  function LinkTriggers(vs: seq<Trigger>, links: map<string, string>): (r: seq<Trigger>)
    ensures |r| == |vs|
  {
    seq(|vs|, i requires 0 <= i < |vs| =>
      if vs[i].value == "" then vs[i] else vs[i].(value := Resolve(links, vs[i].value)))
  }

  function LinkScenes(t: Text, vs: seq<Scene>, links: map<string, string>): (r: seq<Scene>)
    ensures |r| == |vs|
  {
    seq(|vs|, i requires 0 <= i < |vs| =>
      if links == map[] then vs[i]
      else vs[i].(subject := Substitute(t, vs[i].subject, links), body := t.href(vs[i].body, links)))
  }

  // ---------- Patterns and policies ----------

  function PatternProblems(env: Env, u: Use): seq<Problem> {
    if u.target !in env.patterns then [UnknownPattern]
    else if |u.args| != |env.patterns[u.target].params| then [PatternArity]
    else []
  }

  /** A cloned enactment with the pattern's own range and triggers, and the sender in force. */
  function Completed(env: Env, p: Pattern, own: Enactment, params: map<string, string>, sender: Option<Sender>): Enactment {
    own.(scenes := FillSenders(own.scenes + MaybeRange(env.text, p.range, params), sender),
         triggers := own.triggers + Triggers(env.text, p.triggers, params))
  }

  /** One enactment of a used pattern. */
  function Instance(env: Env, p: Pattern, e: Enactment, params: map<string, string>, sender: Option<Sender>): Enactment {
    Completed(env, p, PatternEnactment(env.text, e, params), params, sender)
  }

  function Instances(env: Env, u: Use, sender: Option<Sender>): seq<Enactment> {
    if PatternProblems(env, u) != [] then []
    else
      var p := env.patterns[u.target];
      var params := Bind(env.links, p.params, u.args);
      InstancesOf(env, p, params, sender)
  }

  function InstancesOf(env: Env, p: Pattern, params: map<string, string>, sender: Option<Sender>): (r: seq<Enactment>)
    ensures |r| == |p.enactments|
  {
    seq(|p.enactments|, i requires 0 <= i < |p.enactments| => Instance(env, p, p.enactments[i], params, sender))
  }

  function PolicyProblems(env: Env, u: Use): seq<Problem> {
    if u.target !in env.policies then [UnknownPolicy]
    else if |u.args| != |env.policies[u.target].params| then [PolicyArity]
    else []
  }

  function PolicyTriggers(env: Env, u: Use): seq<Trigger> {
    if PolicyProblems(env, u) != [] then []
    else Triggers(env.text, env.policies[u.target].triggers, Bind(env.links, env.policies[u.target].params, u.args))
  }

  // ---------- Enactments ----------

  function SenderName(target: string): string {
    if target == "" then "default" else target
  }

  function NamedSenders(defs: seq<(string, Sender)>): seq<(string, Sender)> {
    seq(|defs|, i requires 0 <= i < |defs| => (SenderName(defs[i].0), defs[i].1))
  }

  /** The sender after one use statement. */
  function NextSender(env: Env, u: Use, sender: Option<Sender>): Option<Sender> {
    if u.kind == UseSender && SenderName(u.target) in env.senders then Some(env.senders[SenderName(u.target)]) else sender
  }

  function SenderAfter(env: Env, us: seq<Use>, sender: Option<Sender>): Option<Sender> {
    if us == [] then sender else NextSender(env, us[|us| - 1], SenderAfter(env, us[..|us| - 1], sender))
  }

  function SenderProblems(env: Env, u: Use): seq<Problem> {
    if SenderName(u.target) in env.senders then [] else [UnknownSender]
  }

  /** The triggers the use statements of an enactment add. */
  function UsedTriggers(env: Env, us: seq<Use>): seq<Trigger> {
    if us == [] then []
    else
      var n := |us| - 1;
      UsedTriggers(env, us[..n]) + (if us[n].kind == UsePolicy then PolicyTriggers(env, us[n]) else [])
  }

  function UseProblems(env: Env, u: Use): seq<Problem> {
    match u.kind
    case UsePolicy => PolicyProblems(env, u)
    case UseSender => SenderProblems(env, u)
    case UsePattern => [MisplacedUse]
    case UseOther => []
  }

  function UsedProblems(env: Env, us: seq<Use>): seq<Problem> {
    if us == [] then [] else UsedProblems(env, us[..|us| - 1]) + UseProblems(env, us[|us| - 1])
  }

  function ExpandEnactment(env: Env, e: Enactment, sender: Option<Sender>): Enactment {
    var scenes := e.scenes + MaybeRange(env.text, e.range, map[]);
    e.(scenes := LinkScenes(env.text, FillSenders(scenes, SenderAfter(env, e.uses, sender)), env.links),
       range := None,
       triggers := LinkTriggers(e.triggers + UsedTriggers(env, e.uses), env.links),
       uses := [])
  }

  // ---------- Levels and defaults ----------

  function LevelsOf(es: seq<Enactment>): (r: seq<Option<int>>)
    ensures |r| == |es|
  {
    seq(|es|, i requires 0 <= i < |es| => es[i].level)
  }

  ghost predicate DistinctLevels(levels: seq<Option<int>>) {
    forall i, j :: 0 <= i < j < |levels| && levels[i].Some? ==> levels[i] != levels[j]
  }

  ghost predicate AllLevels(levels: seq<Option<int>>) {
    forall i :: 0 <= i < |levels| ==> levels[i].Some?
  }

  /** Levels 1, 2, ... unless all enactments have levels and no two the same. */
  ghost function AssignLevels(es: seq<Enactment>): (r: seq<Enactment>)
    ensures |r| == |es|
  {
    if DistinctLevels(LevelsOf(es)) && AllLevels(LevelsOf(es)) then es
    else seq(|es|, i requires 0 <= i < |es| => es[i].(level := Some(i + 1)))
  }

  function DefaultTriggers(t: Text, ds: seq<Defaults>): seq<Trigger> {
    if ds == [] then [] else DefaultTriggers(t, ds[..|ds| - 1]) + Triggers(t, ds[|ds| - 1].triggers, map[])
  }

  function DefaultUses(ds: seq<Defaults>): seq<Use> {
    if ds == [] then [] else DefaultUses(ds[..|ds| - 1]) + ds[|ds| - 1].uses
  }

  function AddDefaults(env: Env, e: Enactment): Enactment {
    e.(triggers := e.triggers + DefaultTriggers(env.text, env.defaults), uses := e.uses + DefaultUses(env.defaults))
  }

  // ---------- For loops ----------

  function LoopData(env: Env, l: Source): seq<map<string, string>> {
    if l.objects != [] then l.objects
    else if l.items != [] then seq(|l.items|, i requires 0 <= i < |l.items| => map["_value" := l.items[i]])
    else if l.dataRef != "" && l.dataRef in env.data then env.data[l.dataRef]
    else []
  }

  function LoopDataProblems(env: Env, l: Source): seq<Problem> {
    if l.objects != [] || l.items != [] then []
    else if l.dataRef == "" then [NoData]
    else if l.dataRef in env.data then []
    else [UnknownData]
  }

  /** The enactments one use statement stands for: none unless it uses a pattern. */
  function UseInstances(env: Env, u: Use, sender: Option<Sender>): seq<Enactment> {
    if u.kind == UsePattern then Instances(env, u, sender) else []
  }

  /** The enactments of the patterns used in a loop's body, for one item. */
  function LoopInstances(env: Env, us: seq<Use>, params: map<string, string>, sender: Option<Sender>): seq<Enactment> {
    if us == [] then []
    else
      var n := |us| - 1;
      LoopInstances(env, us[..n], params, sender) + UseInstances(env, CloneUse(env.text, us[n], params), sender)
  }

  /** A loop's body may use patterns only; a sender there is ignored. */
  function LoopUseProblems(env: Env, u: Use): seq<Problem> {
    match u.kind
    case UsePattern => PatternProblems(env, u)
    case UsePolicy => [MisplacedUse]
    case UseSender => []
    case UseOther => []
  }

  function LoopUsesProblems(env: Env, us: seq<Use>, params: map<string, string>): seq<Problem> {
    if us == [] then []
    else
      var n := |us| - 1;
      LoopUsesProblems(env, us[..n], params) + LoopUseProblems(env, CloneUse(env.text, us[n], params))
  }

  function LoopBodyProblems(t: Text, es: seq<Enactment>, params: map<string, string>): seq<Problem> {
    if es == [] then [] else LoopBodyProblems(t, es[..|es| - 1], params) + LoopProblems(t, es[|es| - 1], params)
  }

  function LoopBody(t: Text, es: seq<Enactment>, params: map<string, string>): (r: seq<Enactment>)
    ensures |r| == |es|
  {
    seq(|es|, i requires 0 <= i < |es| => LoopEnactment(t, es[i], params))
  }

  function LoopRound(env: Env, l: Loop, item: map<string, string>, sender: Option<Sender>): seq<Enactment> {
    var params := BindFields(env.links, l.variable, item);
    LoopInstances(env, l.uses, params, sender) + LoopBody(env.text, l.enactments, params)
  }

  function RoundProblems(env: Env, l: Loop, item: map<string, string>): seq<Problem> {
    var params := BindFields(env.links, l.variable, item);
    LoopUsesProblems(env, l.uses, params) + LoopBodyProblems(env.text, l.enactments, params)
  }

  function LoopRounds(env: Env, l: Loop, items: seq<map<string, string>>, sender: Option<Sender>): seq<Enactment> {
    if items == [] then []
    else LoopRounds(env, l, items[..|items| - 1], sender) + LoopRound(env, l, items[|items| - 1], sender)
  }

  function RoundsProblems(env: Env, l: Loop, items: seq<map<string, string>>): seq<Problem> {
    if items == [] then []
    else RoundsProblems(env, l, items[..|items| - 1]) + RoundProblems(env, l, items[|items| - 1])
  }

  function LoopsEnactments(env: Env, ls: seq<Loop>, sender: Option<Sender>): seq<Enactment> {
    if ls == [] then []
    else
      var n := |ls| - 1;
      LoopsEnactments(env, ls[..n], sender) + LoopRounds(env, ls[n], LoopData(env, ls[n].source), sender)
  }

  function LoopsProblems(env: Env, ls: seq<Loop>): seq<Problem> {
    if ls == [] then []
    else
      var n := |ls| - 1;
      LoopsProblems(env, ls[..n]) + LoopDataProblems(env, ls[n].source) + RoundsProblems(env, ls[n], LoopData(env, ls[n].source))
  }

  // ---------- Storylines ----------

  /** The enactments of the patterns a storyline uses, each with the sender in force at its use. */
  function UsedInstances(env: Env, us: seq<Use>, sender: Option<Sender>): seq<Enactment> {
    if us == [] then []
    else
      var n := |us| - 1;
      UsedInstances(env, us[..n], sender) + UseInstances(env, us[n], SenderAfter(env, us[..n], sender))
  }

  function StorylineUseProblems(env: Env, u: Use): seq<Problem> {
    match u.kind
    case UsePattern => PatternProblems(env, u)
    case UsePolicy => [MisplacedUse]
    case UseSender => SenderProblems(env, u)
    case UseOther => []
  }

  function StorylineUsesProblems(env: Env, us: seq<Use>): seq<Problem> {
    if us == [] then [] else StorylineUsesProblems(env, us[..|us| - 1]) + StorylineUseProblems(env, us[|us| - 1])
  }

  /** All enactments of a storyline before they are expanded one by one. */
  function Gathered(env: Env, sl: Storyline, sender: Option<Sender>): seq<Enactment> {
    sl.enactments + UsedInstances(env, sl.uses, sender) + LoopsEnactments(env, sl.loops, SenderAfter(env, sl.uses, sender))
  }

  ghost function Levelled(env: Env, sl: Storyline, sender: Option<Sender>): seq<Enactment> {
    var all := Gathered(env, sl, sender);
    if |all| > |sl.enactments| then AssignLevels(all) else all
  }

  function WithDefaults(env: Env, es: seq<Enactment>): (r: seq<Enactment>)
    ensures |r| == |es|
  {
    seq(|es|, i requires 0 <= i < |es| => AddDefaults(env, es[i]))
  }

  function ExpandEach(env: Env, es: seq<Enactment>, sender: Option<Sender>): (r: seq<Enactment>)
    ensures |r| == |es|
  {
    seq(|es|, i requires 0 <= i < |es| => ExpandEnactment(env, es[i], sender))
  }

  function EachProblems(env: Env, es: seq<Enactment>): seq<Problem> {
    if es == [] then [] else EachProblems(env, es[..|es| - 1]) + UsedProblems(env, es[|es| - 1].uses)
  }

  ghost function ExpandStoryline(env: Env, sl: Storyline, sender: Option<Sender>): Storyline {
    var all := WithDefaults(env, Levelled(env, sl, sender));
    sl.(enactments := ExpandEach(env, all, SenderAfter(env, sl.uses, sender)), uses := [], loops := [])
  }

  ghost function StorylineProblems(env: Env, sl: Storyline, sender: Option<Sender>): seq<Problem> {
    StorylineUsesProblems(env, sl.uses) + LoopsProblems(env, sl.loops)
    + EachProblems(env, WithDefaults(env, Levelled(env, sl, sender)))
  }

  // ---------- Stories ----------

  function CloneLoop(t: Text, l: Loop, params: map<string, string>): Loop {
    Loop(l.variable, Source(l.source.objects, SubstituteAll(t, l.source.items, params), l.source.dataRef),
      Uses(t, l.uses, params), LoopBody(t, l.enactments, params))
  }

  function CloneLoops(t: Text, ls: seq<Loop>, params: map<string, string>): (r: seq<Loop>)
    ensures |r| == |ls|
  {
    seq(|ls|, i requires 0 <= i < |ls| => CloneLoop(t, ls[i], params))
  }

  function LoopOrder(t: Text, sl: Storyline, params: map<string, string>): Option<int> {
    if sl.order.Some? then sl.order
    else if sl.orderExpr != "" then t.atoi(Substitute(t, sl.orderExpr, params))
    else None
  }

  function OrderProblems(t: Text, sl: Storyline, params: map<string, string>): seq<Problem> {
    if sl.order.None? && sl.orderExpr != "" && t.atoi(Substitute(t, sl.orderExpr, params)).None? then [BadOrder] else []
  }

  /** One storyline of a story's loop. */
  function LoopStoryline(t: Text, sl: Storyline, params: map<string, string>): Storyline {
    Storyline(Substitute(t, sl.name, params), LoopOrder(t, sl, params), "",
      LoopBody(t, sl.enactments, params), Uses(t, sl.uses, params), CloneLoops(t, sl.loops, params))
  }

  function StoryRound(env: Env, l: StoryLoop, item: map<string, string>): (r: seq<Storyline>)
    ensures |r| == |l.body|
  {
    seq(|l.body|, i requires 0 <= i < |l.body| =>
      LoopStoryline(env.text, l.body[i], BindFields(env.links, l.variable, item)))
  }

  function StoryRounds(env: Env, l: StoryLoop, items: seq<map<string, string>>): seq<Storyline> {
    if items == [] then [] else StoryRounds(env, l, items[..|items| - 1]) + StoryRound(env, l, items[|items| - 1])
  }

  function StoryLoops(env: Env, ls: seq<StoryLoop>): seq<Storyline> {
    if ls == [] then []
    else StoryLoops(env, ls[..|ls| - 1]) + StoryRounds(env, ls[|ls| - 1], LoopData(env, ls[|ls| - 1].source))
  }

  /** A storyline without an order gets its place in the list. */
  function AssignOrders(sls: seq<Storyline>): (r: seq<Storyline>)
    ensures |r| == |sls|
  {
    seq(|sls|, i requires 0 <= i < |sls| => if sls[i].order.None? then sls[i].(order := Some(i + 1)) else sls[i])
  }

  function DefaultSender(env: Env): Option<Sender> {
    if "default" in env.senders then Some(env.senders["default"]) else None
  }

  function StorySender(env: Env, st: Story): Option<Sender> {
    SenderAfter(env, st.uses, DefaultSender(env))
  }

  function AllStorylines(env: Env, st: Story): seq<Storyline> {
    AssignOrders(st.storylines + StoryLoops(env, st.loops))
  }

  ghost function ExpandStorylines(env: Env, sls: seq<Storyline>, sender: Option<Sender>): (r: seq<Storyline>)
    ensures |r| == |sls|
  {
    seq(|sls|, i requires 0 <= i < |sls| => ExpandStoryline(env, sls[i], sender))
  }

  ghost function ExpandStory(env: Env, st: Story): Story {
    Story(ExpandStorylines(env, AllStorylines(env, st), StorySender(env, st)), [], [])
  }

  // ---------- What a story's expansion reports ----------

  function StoryUsesProblems(env: Env, us: seq<Use>): seq<Problem> {
    if us == [] then []
    else
      var u := us[|us| - 1];
      StoryUsesProblems(env, us[..|us| - 1]) + (if u.kind == UseSender then SenderProblems(env, u) else [])
  }

  function CloneLoopsProblems(t: Text, ls: seq<Loop>, params: map<string, string>): seq<Problem> {
    if ls == [] then []
    else CloneLoopsProblems(t, ls[..|ls| - 1], params) + LoopBodyProblems(t, ls[|ls| - 1].enactments, params)
  }

  function CloneProblems(t: Text, sl: Storyline, params: map<string, string>): seq<Problem> {
    OrderProblems(t, sl, params) + LoopBodyProblems(t, sl.enactments, params) + CloneLoopsProblems(t, sl.loops, params)
  }

  function BodyProblems(t: Text, body: seq<Storyline>, params: map<string, string>): seq<Problem> {
    if body == [] then [] else BodyProblems(t, body[..|body| - 1], params) + CloneProblems(t, body[|body| - 1], params)
  }

  function StoryRoundsProblems(env: Env, l: StoryLoop, items: seq<map<string, string>>): seq<Problem> {
    if items == [] then []
    else
      StoryRoundsProblems(env, l, items[..|items| - 1])
      + BodyProblems(env.text, l.body, BindFields(env.links, l.variable, items[|items| - 1]))
  }

  function StoryLoopsProblems(env: Env, ls: seq<StoryLoop>): seq<Problem> {
    if ls == [] then []
    else
      var l := ls[|ls| - 1];
      StoryLoopsProblems(env, ls[..|ls| - 1]) + LoopDataProblems(env, l.source)
      + StoryRoundsProblems(env, l, LoopData(env, l.source))
  }

  ghost function StorylinesProblems(env: Env, sls: seq<Storyline>, sender: Option<Sender>): seq<Problem> {
    if sls == [] then []
    else StorylinesProblems(env, sls[..|sls| - 1], sender) + StorylineProblems(env, sls[|sls| - 1], sender)
  }

  ghost function StoryProblems(env: Env, st: Story): seq<Problem> {
    StoryUsesProblems(env, st.uses) + StoryLoopsProblems(env, st.loops)
    + StorylinesProblems(env, AllStorylines(env, st), StorySender(env, st))
  }
}
