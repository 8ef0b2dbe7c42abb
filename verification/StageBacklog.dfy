/** What the workflow logs about waiting, stage by stage, and why its backlog is never negative. */
module StageBacklog {
  import opened Common
  import opened TaskLedger
  import opened Workflow
  import opened WorkflowProofs
  import opened WorkflowTheorems
  import B = Backlog

  /** A batch that is ready issues a request; a batch that gets its resource has it granted. */
  function MoveOf(plan: Plan, f: Flow, ev: Event, stage: Stage): Option<B.Move> {
    match ev
    case Take(s) => if s == stage && !Batched(plan, stage) then Some(B.Issue(f.now)) else None
    case Release => if stage.Tool? then Some(B.Issue(f.now)) else None
    case Begin(s, _, _) => if s == stage then Some(B.Grant(f.now)) else None
    case _ => None
  }

  function Noted(ms: seq<B.Move>, m: Option<B.Move>): seq<B.Move> { if m.Some? then ms + [m.value] else ms }

  /** The moves of one stage in a run, after those noted before it. */
  function MovesOf(plan: Plan, f: Flow, events: seq<Event>, stage: Stage, ms: seq<B.Move>): seq<B.Move>
    decreases |events|
  {
    if events == [] || !Enabled(f, events[0]) || Next(plan, f, events[0]).Err? then ms
    else
      MovesOf(plan, Next(plan, f, events[0]).value, events[1..], stage,
              Noted(ms, MoveOf(plan, f, events[0], stage)))
  }

  ghost predicate Kept(f: Flow, stage: Stage, ms: seq<B.Move>) {
    && B.Legal(ms) && B.Outstanding(ms) == |DeskOf(f, stage).waiting|
    && (ms != [] ==> ms[|ms| - 1].time <= f.now)
  }

  /** What a move does to the number of outstanding requests. */
  function Effect(m: Option<B.Move>): int {
    match m
    case Some(Issue(_)) => 1
    case Some(Grant(_)) => -1
    case _ => 0
  }

  lemma OneMove(plan: Plan, f: Flow, ev: Event, stage: Stage, ms: seq<B.Move>)
    requires Inv(plan, f) && Enabled(f, ev) && Next(plan, f, ev).Ok? && Kept(f, stage, ms)
    ensures Kept(Next(plan, f, ev).value, stage, Noted(ms, MoveOf(plan, f, ev, stage)))
  {
    hide Inv, Next, Enabled, MoveOf, DeskOf;
    WaitingChanges(plan, f, ev, stage);
    var m := MoveOf(plan, f, ev, stage);
    if m.Some? { assert (ms + [m.value])[..|ms|] == ms; }
  }

  /** A stage's waiting batches change by one with each of its moves, and with nothing else. */
  lemma WaitingChanges(plan: Plan, f: Flow, ev: Event, stage: Stage)
    requires Inv(plan, f) && Enabled(f, ev) && Next(plan, f, ev).Ok?
    ensures var g, m := Next(plan, f, ev).value, MoveOf(plan, f, ev, stage);
            && |DeskOf(g, stage).waiting| == |DeskOf(f, stage).waiting| + Effect(m)
            && f.now <= g.now && (m.Some? ==> m.value.time == f.now)
            && (m.Some? && m.value.Grant? ==> |DeskOf(f, stage).waiting| > 0)
  {
    hide Inv, BeginAll, FinishAll, TakeCard, RouteCard, AddWork, Relocate, StartLog, AllRouted, RouteFirst, Arrive;
    match ev {
      case Route(s, k) => RouteKeeps(f, s, k, stage);
      case Support(points, terms) => ArriveKeeps(f, points, terms, stage);
      case _ =>
    }
  }

  lemma RouteKeeps(f: Flow, s: Stage, k: nat, stage: Stage)
    requires Enabled(f, Route(s, k)) && RouteFirst(f, s, k).Ok?
    ensures var g := RouteFirst(f, s, k).value;
            DeskOf(g, stage).waiting == DeskOf(f, stage).waiting && g.now == f.now
  {
    hide RouteCard;
  }

  lemma ArriveKeeps(f: Flow, points: real, terms: Terms, stage: Stage)
    requires Arrive(f, points, terms).Ok?
    ensures var g := Arrive(f, points, terms).value;
            DeskOf(g, stage).waiting == DeskOf(f, stage).waiting && g.now == f.now
  {
  }

  /** In any run of the workflow, a stage's log never grants more than was issued. */
  lemma {:induction false} RunMoves(plan: Plan, f: Flow, events: seq<Event>, g: Flow, stage: Stage, ms: seq<B.Move>)
    requires Inv(plan, f) && Leads(plan, f, events, g) && Kept(f, stage, ms)
    ensures Kept(g, stage, MovesOf(plan, f, events, stage, ms))
    decreases |events|
  {
    hide Inv, Next, Enabled, Kept, MoveOf, Noted;
    if events != [] {
      StepInv(plan, f, events[0]);
      OneMove(plan, f, events[0], stage, ms);
      RunMoves(plan, Next(plan, f, events[0]).value, events[1..], g, stage, Noted(ms, MoveOf(plan, f, events[0], stage)));
    }
  }

  /** Hence the backlog computed from the log is what was waiting at that time, and the error cannot be raised. */
  lemma BacklogNeverNegative(plan: Plan, f: Flow, events: seq<Event>, g: Flow, stage: Stage, t: real)
    requires Starts(plan, f) && Leads(plan, f, events, g)
    ensures var ms := MovesOf(plan, f, events, stage, []);
            && B.Net(B.Records(ms), t) == B.Outstanding(B.UpTo(ms, t)) >= 0
            && B.Outstanding(ms) == |DeskOf(g, stage).waiting|
  {
    hide Inv, Leads, MovesOf, Starts;
    StartsInv(plan, f);
    RunMoves(plan, f, events, g, stage, []);
    B.BacklogIsWaiting(MovesOf(plan, f, events, stage, []), t);
  }
}
