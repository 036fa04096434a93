/**
  The story-session protocol: any number of start commands, sweeps, test ticks and click triggers, each an
  actor with a program counter and stale copies, racing on the shared rows.

  A step touches at most one row. `Apply` is total: a label whose guard fails changes nothing, so a run is
  simply any sequence of labels and every theorem quantifies over all of them. `claims`, `sends`, `kills`,
  `creators`, `settled` and `open` are history: no step reads them.
*/
module SessionProtocol {
  import opened Wrappers
  import opened SessionModel

  type Actor = int

  datatype Pc =
    | Idle
      /** Start command: the row is inserted, the supersede pass has not begun. */
    | Inserted(id: nat)
      /** Start command inside its supersede pass, which must cover every row below `limit`. */
    | Superseding(id: nat, limit: nat, handled: set<nat>)
    | FirstSend(id: nat)
      /** Reading the active rows one at a time; a test tick will rewind them by `rewind` seconds. */
    | Reading(found: seq<Snap>, rewind: Option<int>)
    | Rewinding(seconds: int, todo: seq<Snap>)
      /** Advancing the copies held. `now` is the time a sweep compares deadlines with; a click has none. */
    | Working(now: Option<int>, todo: seq<Snap>)
    | NextSend(now: Option<int>, id: nat, idx: nat, todo: seq<Snap>)

  /** `deadline` is the ROW's own deadline at the moment of the claim, whatever the claimant had read. */
  datatype Claim = Claim(actor: Actor, id: nat, idx: nat, at: int, swept: bool, deadline: int)
  datatype Send = Send(actor: Actor, id: nat, idx: nat)
  datatype Kill = Kill(actor: Actor, killer: nat, victim: nat)

  datatype State = State(
    rows: seq<Row>, pcs: map<Actor, Pc>, clock: int,
    claims: seq<Claim>, sends: seq<Send>, kills: seq<Kill>,
    creators: seq<Actor>, settled: set<nat>, open: seq<set<nat>>)

  const INIT := State([], map[], 0, [], [], [], [], {}, [])

  datatype Label =
    | Tick(t: int)
    | Crash(a: Actor)
      // start command
    | Insert(a: Actor, user: string, story: string, storyId: nat, first: Enactment, key: string, stamp: int)
    | BeginSupersede(a: Actor)
    | SupersedeOne(a: Actor, i: nat)
    | EndSupersede(a: Actor)
    | SupersedeError(a: Actor)
    | SendFirst(a: Actor, delivered: bool)
      // sweep and test tick
    | BeginRead(a: Actor, rewind: Option<int>)
    | ReadRow(a: Actor, i: nat)
    | EndRead(a: Actor)
    | RewindOne(a: Actor)
    | EndRewind(a: Actor)
      // click trigger: reads one active row and overrides the copy's next action
    | Click(a: Actor, i: nat, action: NextAction)
      // one attempt on the first copy held
    | Skip(a: Actor)
    | Advance(a: Actor, graph: Option<Graph>, unsubscribed: bool, stamp: int)
    | SendNext(a: Actor, delivered: bool)

  function At(s: State, a: Actor): Pc {
    if a in s.pcs then s.pcs[a] else Idle
  }

  function Goto(s: State, a: Actor, pc: Pc): State {
    s.(pcs := s.pcs[a := pc])
  }

  function Apply(s: State, l: Label): State {
    match l
    case Tick(t) => if s.clock <= t then s.(clock := t) else s
    case Crash(a) => Goto(s, a, Idle)
    case Insert(a, user, story, storyId, first, key, stamp) =>
      DoInsert(s, a, FirstRow(user, story, storyId, first, key, stamp))
    case BeginSupersede(a) => DoBeginSupersede(s, a)
    case SupersedeOne(a, i) => DoSupersedeOne(s, a, i)
    case EndSupersede(a) => DoEndSupersede(s, a)
    case SupersedeError(a) => DoSupersedeError(s, a)
    case SendFirst(a, delivered) => DoSendFirst(s, a, delivered)
    case BeginRead(a, rewind) => if At(s, a).Idle? then Goto(s, a, Reading([], rewind)) else s
    case ReadRow(a, i) => DoReadRow(s, a, i)
    case EndRead(a) => DoEndRead(s, a)
    case RewindOne(a) => DoRewindOne(s, a)
    case EndRewind(a) => DoEndRewind(s, a)
    case Click(a, i, action) => DoClick(s, a, i, action)
    case Skip(a) => DoSkip(s, a)
    case Advance(a, graph, unsubscribed, stamp) => DoAdvance(s, a, graph, unsubscribed, stamp)
    case SendNext(a, delivered) => DoSendNext(s, a, delivered)
  }

  function Run(s: State, labels: seq<Label>): State
    decreases |labels|
  {
    if labels == [] then s else Run(Apply(s, labels[0]), labels[1..])
  }

  // ---------- Start command ----------

  /** The row on whose behalf a start may still supersede others. */
  function Superseder(pc: Pc): Option<nat> {
    match pc
    case Inserted(id) => Some(id)
    case Superseding(id, _, _) => Some(id)
    case _ => None
  }

  /** The rows whose starts are before or in their supersede pass, neither crashed nor failed. */
  function UnderWay(pcs: map<Actor, Pc>): set<nat> {
    set a | a in pcs && Superseder(pcs[a]).Some? :: Superseder(pcs[a]).value
  }

  function DoInsert(s: State, a: Actor, row: Row): State {
    if !At(s, a).Idle? || row.sentAt > s.clock || InsertRefused(s.rows, row.key) then s
    else
      s.(rows := s.rows + [row],
         pcs := s.pcs[a := Inserted(|s.rows|)],
         creators := s.creators + [a],
         open := s.open + [UnderWay(s.pcs)])
  }

  /** The update-all starts: it is bound to visit at least the rows that exist now. */
  function DoBeginSupersede(s: State, a: Actor): State {
    var pc := At(s, a);
    if pc.Inserted? then Goto(s, a, Superseding(pc.id, |s.rows|, {})) else s
  }

  /** It visits rows in any order, including rows inserted after it started. */
  function DoSupersedeOne(s: State, a: Actor, i: nat): State {
    var pc := At(s, a);
    if pc.Superseding? && i < |s.rows| && pc.id < |s.rows| then
      s.(rows := SupersedeRow(s.rows, pc.id, i),
         pcs := s.pcs[a := pc.(handled := pc.handled + {i})],
         kills := if SupersedeMatches(s.rows, pc.id, i) then s.kills + [Kill(a, pc.id, i)] else s.kills)
    else s
  }

  function DoEndSupersede(s: State, a: Actor): State {
    var pc := At(s, a);
    if pc.Superseding? && (forall i :: 0 <= i < pc.limit ==> i in pc.handled) then
      s.(pcs := s.pcs[a := FirstSend(pc.id)], settled := s.settled + {pc.id})
    else s
  }

  /** The update-all fails part way: its error is discarded and the command goes on to send. */
  function DoSupersedeError(s: State, a: Actor): State {
    var pc := At(s, a);
    if pc.Superseding? || pc.Inserted? then Goto(s, a, FirstSend(pc.id)) else s
  }

  function DoSendFirst(s: State, a: Actor, delivered: bool): State {
    var pc := At(s, a);
    if pc.FirstSend? then
      s.(pcs := s.pcs[a := Idle], sends := if delivered then s.sends + [Send(a, pc.id, 0)] else s.sends)
    else s
  }

  // ---------- Sweeps, ticks and clicks ----------

  function DoReadRow(s: State, a: Actor, i: nat): State {
    var pc := At(s, a);
    if pc.Reading? && i < |s.rows| && s.rows[i].status == Active then
      Goto(s, a, pc.(found := pc.found + [Snap(i, s.rows[i])]))
    else s
  }

  /** A sweep reads the clock once, after reading the rows. */
  function DoEndRead(s: State, a: Actor): State {
    var pc := At(s, a);
    if !pc.Reading? then s
    else if pc.rewind.None? then Goto(s, a, Working(Some(s.clock), pc.found))
    else Goto(s, a, Rewinding(pc.rewind.value, pc.found))
  }

  function DoRewindOne(s: State, a: Actor): State {
    var pc := At(s, a);
    if pc.Rewinding? && pc.todo != [] && pc.todo[0].id < |s.rows| then
      s.(rows := RewindRow(s.rows, pc.todo[0], pc.seconds), pcs := s.pcs[a := Rewinding(pc.seconds, pc.todo[1..])])
    else s
  }

  function DoEndRewind(s: State, a: Actor): State {
    var pc := At(s, a);
    if pc.Rewinding? && pc.todo == [] then Goto(s, a, Reading([], None)) else s
  }

  function DoClick(s: State, a: Actor, i: nat, action: NextAction): State {
    if At(s, a).Idle? && i < |s.rows| && s.rows[i].status == Active && (action == NextScene || action == MarkComplete)
    then Goto(s, a, Working(None, [Snap(i, s.rows[i].(next := action))]))
    else s
  }

  predicate Due(now: Option<int>, snap: Snap) {
    now.None? || now.value >= Deadline(snap.row)
  }

  function DoSkip(s: State, a: Actor): State {
    var pc := At(s, a);
    if pc.Working? && pc.todo != [] && !Due(pc.now, pc.todo[0]) then Goto(s, a, Working(pc.now, pc.todo[1..]))
    else if pc.Working? && pc.todo == [] then Goto(s, a, Idle)
    else s
  }

  /** `stamp` is the time read for the new send time: any moment between the sweep's own clock reading and now. */
  function DoAdvance(s: State, a: Actor, graph: Option<Graph>, unsubscribed: bool, stamp: int): State {
    var pc := At(s, a);
    if !pc.Working? || pc.todo == [] || !Due(pc.now, pc.todo[0]) || pc.todo[0].id >= |s.rows| || stamp > s.clock then s
    else
      var snap, rest := pc.todo[0], pc.todo[1..];
      var d := Decide(snap.row, graph, unsubscribed);
      if d.Drop? then Goto(s, a, Working(pc.now, rest))
      else if d.Finish? then
        s.(rows := CompleteRow(s.rows, snap.id), pcs := s.pcs[a := Working(pc.now, rest)])
      else if ClaimMatches(s.rows, snap) then
        s.(rows := ClaimRow(s.rows, snap, d, stamp),
           pcs := s.pcs[a := NextSend(pc.now, snap.id, d.nextIdx, rest)],
           claims := s.claims + [Claim(a, snap.id, d.nextIdx, s.clock, pc.now.Some?, Deadline(s.rows[snap.id]))])
      else Goto(s, a, Working(pc.now, rest))
  }

  /** Not delivered covers a refusal by the send authority as well as a failed send. */
  function DoSendNext(s: State, a: Actor, delivered: bool): State {
    var pc := At(s, a);
    if pc.NextSend? then
      s.(pcs := s.pcs[a := Working(pc.now, pc.todo)],
         sends := if delivered then s.sends + [Send(a, pc.id, pc.idx)] else s.sends)
    else s
  }
}
