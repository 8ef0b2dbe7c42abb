/** The stage graph of the simulated delivery process: stores, operators, resources and the delivery alarm. */
module Workflow {
  import opened Common
  import opened TaskLedger
  import opened Work

  datatype Stage = Dev | Qa | Tool

  datatype Place =
    | InStore(state: State)
    | Queued(stage: Stage)
    | Waiting(stage: Stage)
    | Working(stage: Stage)
    | Delivered
    | SupportDone

  /**
   * One task.  `owner` is what the developer pool remembers; `visits` lists who has developed the task so far;
   * `delivered` is the value fixed when its log is closed.
   */
  datatype Card = Card(
    development: bool, terms: Terms, points: real, completed: real, log: Log, rework: bool,
    owner: Option<nat>, visits: seq<nat>, place: Place, delivered: Option<real>)

  /** Tasks held by one resource; once the work is done its outcome is known and the tasks are routed one by one. */
  datatype Shift = Shift(tasks: seq<nat>, success: Option<bool>)

  /** An operator: tasks taken from its store, batches waiting for a resource, batches being worked on. */
  datatype Desk = Desk(queue: seq<nat>, waiting: seq<seq<nat>>, working: seq<Shift>)

  datatype Flow = Flow(
    now: real, cards: map<nat, Card>, nextTask: nat,
    stores: map<State, seq<nat>>, delivered: seq<nat>, supportDone: seq<nat>,
    desks: map<Stage, Desk>, limit: nat, fired: Option<seq<nat>>)

  datatype FlowError =
    | Ledger(error: LedgerError) | NoOwner(task: nat) | NegativePoints(task: nat) | AfterAlarm(task: nat) | NoSuch

  /** Deployments may be collected and released every so often; the other stages hand tasks on one at a time. */
  datatype Plan = Plan(cadence: nat, failureCost: real)

  predicate Batched(plan: Plan, stage: Stage) { stage.Tool? && plan.cadence > 0 }

  function Source(stage: Stage): State {
    match stage
    case Dev => PENDING
    case Qa => DEV_COMPLETE
    case Tool => QA_COMPLETE
  }

  function WorkState(stage: Stage): State {
    match stage
    case Dev => DEVELOPMENT
    case Qa => QA_TESTING
    case Tool => DEPLOYMENT
  }

  /** Where a task goes when its work is done. */
  function Destination(stage: Stage, success: bool, development: bool): Place {
    match stage
    case Dev => if development then InStore(DEV_COMPLETE) else SupportDone
    case Qa => if success then InStore(QA_COMPLETE) else InStore(PENDING)
    case Tool => if success then Delivered else InStore(QA_COMPLETE)
  }

  function EntryState(p: Place): State {
    match p
    case InStore(s) => s
    case Delivered => DELIVERY
    case SupportDone => SUPPORT_COMPLETE
    case _ => PENDING
  }

  // ---------------------------------------------------------------------------------------------
  // What happens to one task

  /** A store's get records an end; the operator's monitor takes it back and keeps the task. */
  function TakeCard(c: Card, now: real, stage: Stage): Result<Card, FlowError> {
    var ended := EndLog(c.terms, c.log, now, Some(Source(stage)), SUCCESS, c.rework);
    if ended.Err? then Err(Ledger(ended.error))
    else
      var resumed := ResumeLog(ended.value, Source(stage));
      if resumed.Err? then Err(Ledger(resumed.error))
      else Ok(c.(log := resumed.value, place := Queued(stage)))
  }

  /** Who works on the task: its owner when it comes back to development, otherwise whoever is free. */
  function Assignee(stage: Stage, c: Card, free: nat): Option<nat> {
    if stage.Dev? && c.development && c.rework then c.owner else Some(free)
  }

  /** The wait for a resource ends and the work begins, at one instant. */
  function BeginCard(c: Card, now: real, stage: Stage, person: nat): Result<Card, FlowError> {
    var ended := EndLog(c.terms, c.log, now, None, SUCCESS, c.rework);
    if ended.Err? then Err(Ledger(ended.error))
    else
      var started := StartLog(c.terms, ended.value, now, WorkState(stage), c.rework);
      if started.Err? then Err(Ledger(started.error))
      else
        Ok(c.(log := started.value, place := Working(stage),
              owner := if stage.Dev? && c.development && !c.rework then Some(person) else c.owner,
              visits := if stage.Dev? then c.visits + [person] else c.visits))
  }

  function AddWork(c: Card, amount: real): Option<Card> {
    var (p, left) := DoWork(Piece(c.points, c.completed), amount);
    if left.None? then None else Some(c.(completed := p.completed))
  }

  /** What finished work does to the points: development completes them, a failed test takes some back. */
  function FinishCard(plan: Plan, c: Card, stage: Stage, success: bool): Option<Card> {
    match stage
    case Dev => AddWork(c, c.points - c.completed)
    case Qa => if success then Some(c) else AddWork(c, -(c.points * plan.failureCost))
    case Tool => Some(c)
  }

  /** The work ends and the task enters its destination at the same instant, marked as rework after a failure. */
  function RouteCard(c: Card, now: real, stage: Stage, success: bool): Result<Card, FlowError> {
    var ended := EndLog(c.terms, c.log, now, Some(WorkState(stage)), if success then SUCCESS else FAILURE, c.rework);
    if ended.Err? then Err(Ledger(ended.error))
    else
      var to := Destination(stage, success, c.development);
      var entered := if to.InStore? then StartLog(c.terms, ended.value, now, to.state, !success)
                     else TerminateLog(c.terms, ended.value, now, EntryState(to), SUCCESS, !success);
      if entered.Err? then Err(Ledger(entered.error))
      else
        Ok(c.(log := entered.value, rework := !success, place := to,
              delivered := if to.InStore? then c.delivered else Some(ValueAt(c.terms, now - c.terms.epochStart))))
  }

  // ---------------------------------------------------------------------------------------------
  // Batches

  function BeginAll(cards: map<nat, Card>, ids: seq<nat>, now: real, stage: Stage, free: nat)
    : Result<map<nat, Card>, FlowError>
  {
    if ids == [] then Ok(cards)
    else if ids[0] !in cards then Err(NoSuch)
    else
      var person := Assignee(stage, cards[ids[0]], free);
      if person.None? then Err(NoOwner(ids[0]))
      else
        var c := BeginCard(cards[ids[0]], now, stage, person.value);
        if c.Err? then Err(c.error) else BeginAll(cards[ids[0] := c.value], ids[1..], now, stage, free)
  }

  function FinishAll(plan: Plan, cards: map<nat, Card>, ids: seq<nat>, stage: Stage, success: bool)
    : Result<map<nat, Card>, FlowError>
  {
    if ids == [] then Ok(cards)
    else if ids[0] !in cards then Err(NoSuch)
    else
      var c := FinishCard(plan, cards[ids[0]], stage, success);
      if c.None? then Err(NegativePoints(ids[0]))
      else FinishAll(plan, cards[ids[0] := c.value], ids[1..], stage, success)
  }

  // ---------------------------------------------------------------------------------------------
  // Events

  datatype Event =
    | Clock(to: real)
    | Support(points: real, terms: Terms)
    | Take(stage: Stage)
    | Release
    | Begin(stage: Stage, k: nat, free: nat)
    | Slice(k: nat, amount: real)
    | Finish(stage: Stage, k: nat, success: bool)
    | Route(stage: Stage, k: nat)

  function DeskOf(f: Flow, stage: Stage): Desk {
    if stage in f.desks then f.desks[stage] else Desk([], [], [])
  }

  function StoreOf(f: Flow, s: State): seq<nat> { if s in f.stores then f.stores[s] else [] }

  function SetDesk(f: Flow, stage: Stage, d: Desk): Flow { f.(desks := f.desks[stage := d]) }

  function Without<T>(s: seq<T>, k: nat): seq<T>
    requires k < |s|
  {
    s[..k] + s[k + 1..]
  }

  /** Simultaneous tasks are routed without time passing in between. */
  predicate AllRouted(f: Flow) {
    forall stage: Stage, k :: 0 <= k < |DeskOf(f, stage).working| ==> DeskOf(f, stage).working[k].success.None?
  }

  predicate Enabled(f: Flow, ev: Event) {
    match ev
    case Clock(to) => f.now <= to && AllRouted(f)
    case Support(points, terms) => points >= 0.0 && terms.initial >= 0.0 && terms.epochStart == f.now
    case Take(stage) => StoreOf(f, Source(stage)) != []
    case Release => DeskOf(f, Tool).queue != []
    case Begin(stage, k, _) => k < |DeskOf(f, stage).waiting|
    case Slice(k, amount) =>
      k < |DeskOf(f, Dev).working| && DeskOf(f, Dev).working[k].success.None? && amount >= 0.0
      && DeskOf(f, Dev).working[k].tasks != []
      && DeskOf(f, Dev).working[k].tasks[0] in f.cards
      && amount <= f.cards[DeskOf(f, Dev).working[k].tasks[0]].points
                   - f.cards[DeskOf(f, Dev).working[k].tasks[0]].completed
    case Finish(stage, k, success) =>
      k < |DeskOf(f, stage).working| && DeskOf(f, stage).working[k].success.None? && (stage.Dev? ==> success)
    case Route(stage, k) =>
      k < |DeskOf(f, stage).working| && DeskOf(f, stage).working[k].success.Some?
      && DeskOf(f, stage).working[k].tasks != []
  }

  function Enter(f: Flow, id: nat, c: Card): Result<Flow, FlowError> {
    var g := f.(cards := f.cards[id := c]);
    match c.place
    case InStore(s) => Ok(g.(stores := g.stores[s := StoreOf(g, s) + [id]]))
    case SupportDone => Ok(g.(supportDone := g.supportDone + [id]))
    case Delivered =>
      if g.fired.Some? then Err(AfterAlarm(id))
      else
        var items := g.delivered + [id];
        Ok(g.(delivered := items, fired := if |items| == g.limit then Some(items) else None))
    case _ => Err(NoSuch)
  }

  function TakeTask(plan: Plan, f: Flow, stage: Stage): Result<Flow, FlowError> {
    var store, d := StoreOf(f, Source(stage)), DeskOf(f, stage);
    if store == [] || store[0] !in f.cards then Err(NoSuch)
    else
      var id := store[0];
      var c := TakeCard(f.cards[id], f.now, stage);
      if c.Err? then Err(c.error)
      else if Batched(plan, stage) then
        Ok(SetDesk(f, stage, d.(queue := d.queue + [id])).(
             cards := f.cards[id := c.value], stores := f.stores[Source(stage) := store[1..]]))
      else
        Ok(SetDesk(f, stage, d.(queue := [], waiting := d.waiting + [d.queue + [id]])).(
             cards := f.cards[id := c.value.(place := Waiting(stage))],
             stores := f.stores[Source(stage) := store[1..]]))
  }

  function Relocate(cards: map<nat, Card>, ids: seq<nat>, p: Place): map<nat, Card> {
    map id | id in cards :: if id in ids then cards[id].(place := p) else cards[id]
  }

  /** The release timer hands everything collected to one resource. */
  function ReleaseBatch(f: Flow): Flow {
    var d := DeskOf(f, Tool);
    SetDesk(f, Tool, d.(queue := [], waiting := d.waiting + [d.queue])).(
      cards := Relocate(f.cards, d.queue, Waiting(Tool)))
  }

  function BeginBatch(f: Flow, stage: Stage, k: nat, free: nat): Result<Flow, FlowError>
    requires k < |DeskOf(f, stage).waiting|
  {
    var d := DeskOf(f, stage);
    var cards := BeginAll(f.cards, d.waiting[k], f.now, stage, free);
    if cards.Err? then Err(cards.error)
    else Ok(SetDesk(f, stage, d.(waiting := Without(d.waiting, k), working := d.working + [Shift(d.waiting[k], None)])).(
              cards := cards.value))
  }

  function FinishBatch(plan: Plan, f: Flow, stage: Stage, k: nat, success: bool): Result<Flow, FlowError>
    requires k < |DeskOf(f, stage).working|
  {
    var d := DeskOf(f, stage);
    var cards := FinishAll(plan, f.cards, d.working[k].tasks, stage, success);
    if cards.Err? then Err(cards.error)
    else Ok(SetDesk(f, stage, d.(working := d.working[k := d.working[k].(success := Some(success))])).(
              cards := cards.value))
  }

  function RouteFirst(f: Flow, stage: Stage, k: nat): Result<Flow, FlowError>
    requires k < |DeskOf(f, stage).working| && DeskOf(f, stage).working[k].success.Some?
    requires DeskOf(f, stage).working[k].tasks != []
  {
    var d := DeskOf(f, stage);
    var shift := d.working[k];
    var id := shift.tasks[0];
    if id !in f.cards then Err(NoSuch)
    else
      var c := RouteCard(f.cards[id], f.now, stage, shift.success.value);
      if c.Err? then Err(c.error)
      else
        var rest := shift.tasks[1..];
        var working := if rest == [] then Without(d.working, k) else d.working[k := shift.(tasks := rest)];
        Enter(SetDesk(f, stage, d.(working := working)), id, c.value)
  }

  function SliceWork(f: Flow, k: nat, amount: real): Result<Flow, FlowError>
    requires k < |DeskOf(f, Dev).working| && DeskOf(f, Dev).working[k].tasks != []
  {
    var id := DeskOf(f, Dev).working[k].tasks[0];
    if id !in f.cards then Err(NoSuch)
    else
      var c := AddWork(f.cards[id], amount);
      if c.None? then Err(NegativePoints(id)) else Ok(f.(cards := f.cards[id := c.value]))
  }

  function Arrive(f: Flow, points: real, terms: Terms): Result<Flow, FlowError> {
    var started := StartLog(terms, [], f.now, PENDING, false);
    if started.Err? then Err(Ledger(started.error))
    else
      Enter(f.(nextTask := f.nextTask + 1), f.nextTask,
            Card(false, terms, points, 0.0, started.value, false, None, [], InStore(PENDING), None))
  }

  function Next(plan: Plan, f: Flow, ev: Event): Result<Flow, FlowError>
    requires Enabled(f, ev)
  {
    match ev
    case Clock(to) => Ok(f.(now := to))
    case Support(points, terms) => Arrive(f, points, terms)
    case Take(stage) => TakeTask(plan, f, stage)
    case Release => Ok(ReleaseBatch(f))
    case Begin(stage, k, free) => BeginBatch(f, stage, k, free)
    case Slice(k, amount) => SliceWork(f, k, amount)
    case Finish(stage, k, success) => FinishBatch(plan, f, stage, k, success)
    case Route(stage, k) => RouteFirst(f, stage, k)
  }
}
