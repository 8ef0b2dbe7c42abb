/** The workflow never gets stuck: from whatever state it has reached, all submitted tasks can still be delivered. */
module WorkflowProgress {
  import opened Common
  import opened Sums
  import opened TaskLedger
  import opened Workflow
  import opened WorkflowProofs
  import opened WorkflowSteps
  import opened WorkflowTheorems

  /** How many moves a place is away from the end of the workflow, when nothing fails. */
  function Rank(p: Place): nat {
    match p
    case Delivered => 0
    case SupportDone => 0
    case Working(stage) => (match stage case Tool => 1 case Qa => 5 case Dev => 9)
    case Waiting(stage) => (match stage case Tool => 2 case Qa => 6 case Dev => 10)
    case Queued(stage) => (match stage case Tool => 3 case Qa => 7 case Dev => 11)
    case InStore(s) =>
      match s
      case QA_COMPLETE => 4
      case DEV_COMPLETE => 8
      case PENDING => 12
      case _ => 0
  }

  function CardRank(c: Card): nat { Rank(c.place) }

  function Distance(f: Flow): nat { Sum(f.cards, CardRank, f.nextTask) }

  /** Moving tasks towards the end shortens the distance. */
  lemma MovesShorten(plan: Plan, f: Flow, g: Flow, ids: seq<nat>, p: Place, q: Place)
    requires Inv(plan, f) && Moves(f, g, ids, p, q) && ids != [] && Rank(q) < Rank(p) && g.nextTask == f.nextTask
    ensures Distance(g) < Distance(f)
  {
    hide Contents, DeskOk, AlarmOk, CardOk;
    HeldAt(f, p);
    assert forall id :: id in ids ==> id in Contents(f, p);
    CardAt(plan, f, ids[0]);
    forall id: nat | id < f.nextTask ensures Part(g.cards, CardRank, id) <= Part(f.cards, CardRank, id) {
    }
    SumLess(g.cards, f.cards, CardRank, f.nextTask, ids[0]);
  }

  // ---------------------------------------------------------------------------------------------
  // Failures on their way back

  /** How many tasks have failed and are not routed back yet. */
  function FailedTasks(ws: seq<Shift>): nat {
    if ws == [] then 0
    else FailedTasks(ws[..|ws| - 1]) + if ws[|ws| - 1].success == Some(false) then |ws[|ws| - 1].tasks| else 0
  }

  function Failures(f: Flow): nat {
    FailedTasks(DeskOf(f, Dev).working) + FailedTasks(DeskOf(f, Qa).working) + FailedTasks(DeskOf(f, Tool).working)
  }

  lemma {:induction false} FailedSplit(a: seq<Shift>, b: seq<Shift>)
    ensures FailedTasks(a + b) == FailedTasks(a) + FailedTasks(b)
  {
    if b == [] {
      assert a + b == a;
    } else {
      assert (a + b)[..|a + b| - 1] == a + b[..|b| - 1];
      FailedSplit(a, b[..|b| - 1]);
    }
  }

  lemma FailedOne(s: Shift)
    ensures FailedTasks([s]) == if s.success == Some(false) then |s.tasks| else 0
  {
    assert [s][..0] == [];
  }

  lemma FailedRouted(working: seq<Shift>, k: nat)
    requires k < |working| && working[k].tasks != [] && working[k].success.Some?
    ensures FailedTasks(AfterRoute(working, k))
            == FailedTasks(working) - if working[k].success == Some(false) then 1 else 0
  {
    hide FailedTasks;
    var a, s, c := working[..k], working[k], working[k + 1..];
    var rest := s.(tasks := s.tasks[1..]);
    RoutedParts(working, k, rest);
    FailedThree(a, s, c);
    FailedSplit(a, c);
    FailedThree(a, rest, c);
    hide AfterRoute;
  }

  lemma RoutedParts(working: seq<Shift>, k: nat, rest: Shift)
    requires k < |working| && working[k].tasks != [] && rest == working[k].(tasks := working[k].tasks[1..])
    ensures working == working[..k] + [working[k]] + working[k + 1..]
    ensures AfterRoute(working, k) == if rest.tasks == [] then working[..k] + working[k + 1..]
                                      else working[..k] + [rest] + working[k + 1..]
  {
    if rest.tasks != [] { assert working[k := rest] == working[..k] + [rest] + working[k + 1..]; }
  }

  lemma FailedThree(a: seq<Shift>, s: Shift, c: seq<Shift>)
    ensures FailedTasks(a + [s] + c)
            == FailedTasks(a) + FailedTasks(c) + if s.success == Some(false) then |s.tasks| else 0
  {
    FailedOne(s);
    hide FailedTasks;
    FailedSplit(a, [s]);
    FailedSplit(a + [s], c);
  }

  lemma {:induction false} NoneFailed(ws: seq<Shift>)
    ensures FailedTasks(ws) == 0 <==> forall k :: 0 <= k < |ws| && ws[k].success == Some(false) ==> ws[k].tasks == []
  {
    if ws != [] { NoneFailed(ws[..|ws| - 1]); }
  }

  // ---------------------------------------------------------------------------------------------
  // Runs

  lemma {:induction false} LeadsOn(plan: Plan, f: Flow, events: seq<Event>, g: Flow, more: seq<Event>, h: Flow)
    requires Leads(plan, f, events, g) && Leads(plan, g, more, h)
    ensures Leads(plan, f, events + more, h)
    decreases |events|
  {
    hide Next, Enabled;
    if events == [] {
      assert events + more == more;
    } else {
      assert (events + more)[1..] == events[1..] + more;
      LeadsOn(plan, Next(plan, f, events[0]).value, events[1..], g, more, h);
    }
  }

  /** Some run leads from one state to another. */
  ghost predicate Can(plan: Plan, f: Flow, g: Flow) {
    exists events :: Leads(plan, f, events, g)
  }

  lemma CanStep(plan: Plan, f: Flow, ev: Event)
    requires Enabled(f, ev) && Next(plan, f, ev).Ok?
    ensures Can(plan, f, Next(plan, f, ev).value)
  {
    hide Next, Enabled;
    var g := Next(plan, f, ev).value;
    assert [ev][1..] == [];
    assert Leads(plan, g, [], g);
    assert Leads(plan, f, [ev], g);
  }

  lemma CanOn(plan: Plan, f: Flow, g: Flow, h: Flow)
    requires Can(plan, f, g) && Can(plan, g, h)
    ensures Can(plan, f, h)
  {
    hide Leads;
    var events, more :| Leads(plan, f, events, g) && Leads(plan, g, more, h);
    LeadsOn(plan, f, events, g, more, h);
  }

  // ---------------------------------------------------------------------------------------------
  // One step forward

  /** A step towards the end: something moves on, and nothing fails. */
  ghost predicate Forward(plan: Plan, f: Flow, g: Flow) {
    Can(plan, f, g) && Inv(plan, g) && Failures(g) == Failures(f) && Distance(g) < Distance(f) && g.nextTask == f.nextTask
  }

  lemma TakeForward(plan: Plan, f: Flow, stage: Stage) returns (g: Flow)
    requires Inv(plan, f) && StoreOf(f, Source(stage)) != []
    ensures Forward(plan, f, g)
  {
    hide Inv, Can, Moves, Distance, StoreOf;
    TakeStep(plan, f, stage);
    g := Next(plan, f, Take(stage)).value;
    CanStep(plan, f, Take(stage));
    TakeKeeps(plan, f, stage);
    MovesShorten(plan, f, g, [StoreOf(f, Source(stage))[0]], InStore(Source(stage)),
                 if plan.cadence > 0 && stage.Tool? then Queued(stage) else Waiting(stage));
  }

  lemma TakeKeeps(plan: Plan, f: Flow, stage: Stage)
    requires TakeTask(plan, f, stage).Ok?
    ensures var g := TakeTask(plan, f, stage).value;
            g.nextTask == f.nextTask && forall s: Stage :: DeskOf(g, s).working == DeskOf(f, s).working
  {
    hide TakeCard;
  }

  lemma ReleaseForward(plan: Plan, f: Flow) returns (g: Flow)
    requires Inv(plan, f) && DeskOf(f, Tool).queue != []
    ensures Forward(plan, f, g)
  {
    hide Inv, Can, Moves, Distance;
    ReleaseStep(plan, f);
    g := ReleaseBatch(f);
    CanStep(plan, f, Release);
    MovesShorten(plan, f, g, DeskOf(f, Tool).queue, Queued(Tool), Waiting(Tool));
  }

  lemma BeginForward(plan: Plan, f: Flow, stage: Stage) returns (g: Flow)
    requires Inv(plan, f) && DeskOf(f, stage).waiting != []
    ensures Forward(plan, f, g)
  {
    hide Inv, Can, Moves, Distance;
    BeginStep(plan, f, stage, 0, 0);
    WaitingBatch(plan, f, stage, 0);
    g := Next(plan, f, Begin(stage, 0, 0)).value;
    CanStep(plan, f, Begin(stage, 0, 0));
    BeginKeeps(f, stage);
    MovesShorten(plan, f, g, DeskOf(f, stage).waiting[0], Waiting(stage), Working(stage));
  }

  lemma BeginKeeps(f: Flow, stage: Stage)
    requires DeskOf(f, stage).waiting != [] && BeginBatch(f, stage, 0, 0).Ok?
    ensures var g := BeginBatch(f, stage, 0, 0).value; g.nextTask == f.nextTask && Failures(g) == Failures(f)
  {
    hide BeginAll;
    var s := Shift(DeskOf(f, stage).waiting[0], None);
    FailedOne(s);
    FailedSplit(DeskOf(f, stage).working, [s]);
    hide FailedTasks;
  }

  /** The work of a shift is over: nothing moves, and its tasks can be routed. */
  lemma FinishKeeps(plan: Plan, f: Flow, stage: Stage) returns (g: Flow)
    requires Inv(plan, f) && DeskOf(f, stage).working != [] && DeskOf(f, stage).working[0].success.None?
    ensures Can(plan, f, g) && Inv(plan, g) && g.nextTask == f.nextTask && Failures(g) == Failures(f)
    ensures Distance(g) == Distance(f)
    ensures DeskOf(g, stage).working != [] && DeskOf(g, stage).working[0].success == Some(true)
  {
    hide Inv, Can, Failures, FinishAll, Distance;
    FinishStep(plan, f, stage, 0, true);
    g := Next(plan, f, Finish(stage, 0, true)).value;
    CanStep(plan, f, Finish(stage, 0, true));
    FinishedFailures(f, g, stage);
    SameDistance(f, g, DeskOf(f, stage).working[0].tasks);
  }

  lemma SameDistance(f: Flow, g: Flow, ids: seq<nat>)
    requires Worked(f.cards, g.cards, ids) && g.nextTask == f.nextTask
    ensures Distance(g) == Distance(f)
  {
    SumSame(g.cards, f.cards, CardRank, f.nextTask);
  }

  lemma FinishedFailures(f: Flow, g: Flow, stage: Stage)
    requires DeskOf(f, stage).working != [] && DeskOf(f, stage).working[0].success.None?
    requires g.desks == f.desks[stage := DeskOf(f, stage).(
               working := DeskOf(f, stage).working[0 := DeskOf(f, stage).working[0].(success := Some(true))])]
    ensures Failures(g) == Failures(f)
  {
    var ws := DeskOf(f, stage).working;
    var s, t := ws[0], ws[0].(success := Some(true));
    FailedOne(s);
    FailedOne(t);
    FailedSplit([s], ws[1..]);
    FailedSplit([t], ws[1..]);
    assert ws == [s] + ws[1..] && ws[0 := t] == [t] + ws[1..];
    hide FailedTasks;
  }

  lemma RouteForward(plan: Plan, f: Flow, stage: Stage, k: nat) returns (g: Flow)
    requires Inv(plan, f) && k < |DeskOf(f, stage).working| && DeskOf(f, stage).working[k].success.Some?
    ensures Can(plan, f, g) && Inv(plan, g) && g.nextTask == f.nextTask
    ensures DeskOf(f, stage).working[k].success.value ==> Distance(g) < Distance(f) && Failures(g) == Failures(f)
    ensures !DeskOf(f, stage).working[k].success.value ==> Failures(g) < Failures(f)
  {
    hide Inv, Can, Failures, Moves, Distance, RouteFirst;
    WorkingShift(plan, f, stage, k);
    RouteStep(plan, f, stage, k);
    g := Next(plan, f, Route(stage, k)).value;
    CanStep(plan, f, Route(stage, k));
    RoutedFailures(f, stage, k);
    var id := DeskOf(f, stage).working[k].tasks[0];
    if DeskOf(f, stage).working[k].success.value {
      MovesShorten(plan, f, g, [id], Working(stage), Onward(stage, true, f.cards[id].development));
    }
  }

  lemma RoutedFailures(f: Flow, stage: Stage, k: nat)
    requires k < |DeskOf(f, stage).working| && DeskOf(f, stage).working[k].success.Some?
    requires DeskOf(f, stage).working[k].tasks != [] && RouteFirst(f, stage, k).Ok?
    ensures var g := RouteFirst(f, stage, k).value;
            && g.nextTask == f.nextTask
            && Failures(g) == Failures(f) - if DeskOf(f, stage).working[k].success.value then 0 else 1
  {
    hide RouteFirst, FailedTasks, AfterRoute, DeskOf;
    FailedRouted(DeskOf(f, stage).working, k);
    RoutedDesk(f, stage, k);
  }

  lemma RoutedDesk(f: Flow, stage: Stage, k: nat)
    requires k < |DeskOf(f, stage).working| && DeskOf(f, stage).working[k].success.Some?
    requires DeskOf(f, stage).working[k].tasks != [] && RouteFirst(f, stage, k).Ok?
    ensures var g := RouteFirst(f, stage, k).value;
            && g.nextTask == f.nextTask && DeskOf(g, stage).working == AfterRoute(DeskOf(f, stage).working, k)
            && forall s: Stage :: s != stage ==> DeskOf(g, s) == DeskOf(f, s)
  {
    hide RouteCard;
  }

  /** As long as some task is not at its end, something can move on. */
  lemma Advance(plan: Plan, f: Flow, id: nat) returns (g: Flow)
    requires Inv(plan, f) && Failures(f) == 0 && id in f.cards && Rank(f.cards[id].place) > 0
    ensures Forward(plan, f, g)
  {
    hide Inv, Can, Distance, Forward;
    Unfold(plan, f);
    HeldAt(f, f.cards[id].place);
    assert id in Contents(f, f.cards[id].place);
    match f.cards[id].place {
      case InStore(s) =>
        var stage := if s == PENDING then Dev else if s == DEV_COMPLETE then Qa else Tool;
        g := TakeForward(plan, f, stage);
      case Queued(stage) =>
        DeskAt(plan, f, stage);
        g := ReleaseForward(plan, f);
      case Waiting(stage) =>
        g := BeginForward(plan, f, stage);
      case Working(stage) =>
        g := WorkForward(plan, f, stage);
    }
  }

  lemma WorkForward(plan: Plan, f: Flow, stage: Stage) returns (g: Flow)
    requires Inv(plan, f) && Failures(f) == 0 && DeskOf(f, stage).working != []
    ensures Forward(plan, f, g)
  {
    hide Inv, Can, Distance;
    WorkingShift(plan, f, stage, 0);
    NoneFailed(DeskOf(f, stage).working);
    if DeskOf(f, stage).working[0].success.None? {
      var m := FinishKeeps(plan, f, stage);
      g := RouteForward(plan, m, stage, 0);
      CanOn(plan, f, m, g);
    } else {
      g := RouteForward(plan, f, stage, 0);
    }
  }

  // ---------------------------------------------------------------------------------------------
  // All the way

  /** Whatever has failed can be sent back. */
  lemma {:induction false} SendBack(plan: Plan, f: Flow) returns (g: Flow)
    requires Inv(plan, f)
    ensures Can(plan, f, g) && Inv(plan, g) && Failures(g) == 0
    decreases Failures(f)
  {
    hide Inv, Can;
    if Failures(f) == 0 {
      g := f;
      CanStay(plan, f);
    } else {
      var stage, k := SomeFailed(f);
      var m := RouteForward(plan, f, stage, k);
      g := SendBack(plan, m);
      CanOn(plan, f, m, g);
    }
  }

  lemma CanStay(plan: Plan, f: Flow)
    ensures Can(plan, f, f)
  {
    assert Leads(plan, f, [], f);
  }

  lemma SomeFailed(f: Flow) returns (stage: Stage, k: nat)
    requires Failures(f) > 0
    ensures k < |DeskOf(f, stage).working| && DeskOf(f, stage).working[k].success == Some(false)
  {
    stage := if FailedTasks(DeskOf(f, Dev).working) > 0 then Dev
             else if FailedTasks(DeskOf(f, Qa).working) > 0 then Qa else Tool;
    NoneFailed(DeskOf(f, stage).working);
    k :| 0 <= k < |DeskOf(f, stage).working| && DeskOf(f, stage).working[k].success == Some(false);
  }

  /** And then everything can be brought to its end. */
  lemma {:induction false} BringHome(plan: Plan, f: Flow) returns (g: Flow)
    requires Inv(plan, f) && Failures(f) == 0
    ensures Can(plan, f, g) && Inv(plan, g) && g.fired.Some?
    decreases Distance(f)
  {
    hide Inv, Can, Distance, Failures;
    if f.fired.Some? {
      g := f;
      CanStay(plan, f);
    } else {
      var id := SomeUndelivered(plan, f);
      var m := Advance(plan, f, id);
      g := BringHome(plan, m);
      CanOn(plan, f, m, g);
    }
  }

  /** While the alarm has not gone off, some submitted task is on its way. */
  lemma SomeUndelivered(plan: Plan, f: Flow) returns (id: nat)
    requires Inv(plan, f) && f.fired.None?
    ensures id in f.cards && Rank(f.cards[id].place) > 0
  {
    hide CardOk, DeskOk;
    HeldAt(f, Delivered);
    var all := seq(f.limit, i => i);
    assert forall i, j :: 0 <= i < j < |all| ==> all[i] != all[j];
    if forall i :: 0 <= i < f.limit ==> i in f.delivered {
      DistinctShorter(all, f.delivered);
    }
    id :| 0 <= id < f.limit && id !in f.delivered;
    OnItsWay(plan, f, id);
  }

  lemma OnItsWay(plan: Plan, f: Flow, id: nat)
    requires Inv(plan, f) && id in f.cards && id < f.limit && f.cards[id].place != Delivered
    ensures Rank(f.cards[id].place) > 0
  {
    hide LedgerOk, ValueOk, LogPlaces, WorkOk, OwnerOk, Located, DeskOk, AlarmOk;
    CardAt(plan, f, id);
  }

  /** From every state the workflow can reach, some run leads to the delivery of all submitted tasks. */
  lemma DeliveryStaysPossible(plan: Plan, f: Flow)
    requires Reached(plan, f)
    ensures exists g :: Can(plan, f, g) && g.fired.Some? && forall id :: 0 <= id < f.limit ==> id in g.fired.value
  {
    hide Reached, Inv, Can;
    ReachedInv(plan, f);
    var m := SendBack(plan, f);
    var g := BringHome(plan, m);
    CanOn(plan, f, m, g);
    AlarmHas(plan, f, g);
  }

  lemma AlarmHas(plan: Plan, f: Flow, g: Flow)
    requires Reached(plan, f) && Can(plan, f, g) && g.fired.Some?
    ensures forall id :: 0 <= id < f.limit ==> id in g.fired.value
  {
    hide Leads, Starts, Inv;
    var start, before :| Starts(plan, start) && Leads(plan, start, before, f);
    var after :| Leads(plan, f, after, g);
    LeadsOn(plan, start, before, f, after, g);
    assert Reached(plan, g);
    AlarmIsExact(plan, g);
    ReachedInv(plan, f);
    LimitStays(plan, f, after, g);
  }

  lemma {:induction false} LimitStays(plan: Plan, f: Flow, events: seq<Event>, g: Flow)
    requires Leads(plan, f, events, g)
    ensures g.limit == f.limit
    decreases |events|
  {
    if events != [] {
      LimitStep(plan, f, events[0]);
      hide Next, Enabled;
      LimitStays(plan, Next(plan, f, events[0]).value, events[1..], g);
    }
  }

  lemma LimitStep(plan: Plan, f: Flow, ev: Event)
    requires Enabled(f, ev) && Next(plan, f, ev).Ok?
    ensures Next(plan, f, ev).value.limit == f.limit
  {
    hide TakeCard, RouteCard, BeginAll, FinishAll, StartLog, AddWork, AllRouted;
  }
}
