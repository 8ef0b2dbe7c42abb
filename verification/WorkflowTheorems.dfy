/** The main results about the workflow. */
module WorkflowTheorems {
  import opened Common
  import opened TaskLedger
  import opened Work
  import opened Workflow
  import opened WorkflowProofs
  import opened WorkflowSteps

  /** A task as it is submitted: entered into the first store at the start of its epoch. */
  function Submitted(terms: Terms, points: real): Card {
    Card(true, terms, points, 0.0, [Started(0.0, PENDING, false)], false, None, [], InStore(PENDING),
         None)
  }

  /** The workflow when the alarm is set: all submitted tasks, and nothing else, wait in the first store. */
  function Initial(now: real, terms: seq<Terms>, points: seq<real>): Flow
    requires |terms| == |points|
  {
    Flow(now, map i: nat | i < |terms| :: Submitted(terms[i], points[i]), |terms|,
         map[PENDING := seq(|terms|, i => i)], [], [], map[], |terms|, None)
  }

  /** One or more development tasks, submitted at one instant. */
  ghost predicate CanStart(plan: Plan, now: real, terms: seq<Terms>, points: seq<real>) {
    && |terms| == |points| && |terms| >= 1 && 0.0 <= plan.failureCost <= 1.0
    && forall i :: 0 <= i < |terms| ==> terms[i].initial >= 0.0 && terms[i].epochStart == now && points[i] >= 0.0
  }

  lemma InitialInv(plan: Plan, now: real, terms: seq<Terms>, points: seq<real>)
    requires CanStart(plan, now, terms, points)
    ensures Inv(plan, Initial(now, terms, points))
  {
    hide CardOk, Holds;
    var f := Initial(now, terms, points);
    forall id | id in f.cards ensures CardOk(f.cards[id], now) { SubmittedOk(terms[id], points[id], now); }
    forall p: Place ensures Holds(Contents(f, p), f.cards, p) { InitialHolds(f, p); }
  }

  lemma SubmittedOk(terms: Terms, points: real, now: real)
    requires terms.initial >= 0.0 && terms.epochStart == now && points >= 0.0
    ensures CardOk(Submitted(terms, points), now)
  {
  }

  lemma InitialHolds(f: Flow, p: Place)
    requires f.stores == map[PENDING := seq(f.limit, i => i)] && f.desks == map[] && f.delivered == [] && f.supportDone == []
    requires forall id: nat :: id in f.cards <==> id < f.limit
    requires forall id :: id in f.cards ==> f.cards[id].place == InStore(PENDING)
    ensures Holds(Contents(f, p), f.cards, p)
  {
    if p == InStore(PENDING) {
      var s := Contents(f, p);
      forall id ensures id in s <==> id in f.cards && f.cards[id].place == p {
        if id in f.cards { assert s[id] == id; }
      }
    }
  }

  /** No event is ever refused: no record in a wrong state, no unknown owner, no negative points, nothing after the alarm. */
  lemma StepInv(plan: Plan, f: Flow, ev: Event)
    requires Inv(plan, f) && Enabled(f, ev)
    ensures Next(plan, f, ev).Ok? && Inv(plan, Next(plan, f, ev).value)
  {
    hide Inv, Arrive, TakeTask, ReleaseBatch, BeginBatch, SliceWork, FinishBatch, RouteFirst;
    match ev {
      case Clock(to) => ClockStep(plan, f, to);
      case Support(points, terms) => ArriveStep(plan, f, points, terms);
      case Take(stage) => TakeStep(plan, f, stage);
      case Release => ReleaseStep(plan, f);
      case Begin(stage, k, free) => BeginStep(plan, f, stage, k, free);
      case Slice(k, amount) => SliceStep(plan, f, k, amount);
      case Finish(stage, k, success) => FinishStep(plan, f, stage, k, success);
      case Route(stage, k) => RouteStep(plan, f, stage, k);
    }
  }

  /** Tasks are taken in the order they came; deployments wait for their release if there is one, others do not. */
  lemma TakeEffect(plan: Plan, f: Flow, stage: Stage)
    requires Inv(plan, f) && StoreOf(f, Source(stage)) != []
    ensures Next(plan, f, Take(stage)).Ok?
    ensures var g, store := Next(plan, f, Take(stage)).value, StoreOf(f, Source(stage));
            && StoreOf(g, Source(stage)) == store[1..]
            && (if plan.cadence > 0 && stage.Tool?
                then DeskOf(g, stage).queue == DeskOf(f, stage).queue + [store[0]]
                     && DeskOf(g, stage).waiting == DeskOf(f, stage).waiting
                else DeskOf(g, stage).waiting == DeskOf(f, stage).waiting + [[store[0]]])
  {
    hide Inv, TakeCard;
    TakeStep(plan, f, stage);
    DeskAt(plan, f, stage);
    assert [] + [StoreOf(f, Source(stage))[0]] == [StoreOf(f, Source(stage))[0]];
  }

  /** No time passes between the end of a shift's work and the routing of its tasks. */
  lemma RoutedAtOnce(plan: Plan, f: Flow, ev: Event, stage: Stage, k: nat)
    requires Enabled(f, ev) && Next(plan, f, ev).Ok?
    requires k < |DeskOf(f, stage).working| && DeskOf(f, stage).working[k].success.Some?
    ensures Next(plan, f, ev).value.now == f.now
  {
    hide TakeCard, RouteCard, BeginAll, FinishAll, StartLog, AddWork;
  }

  /** A release hands all that was collected to one resource, in the order it was collected. */
  lemma ReleaseEffect(plan: Plan, f: Flow)
    requires Enabled(f, Release)
    ensures var g := Next(plan, f, Release).value;
            DeskOf(g, Tool).queue == [] && DeskOf(g, Tool).waiting == DeskOf(f, Tool).waiting + [DeskOf(f, Tool).queue]
  {
  }

  /** A task whose work is done joins the end of the store it goes to; what is delivered is added to the delivered. */
  lemma RouteEffect(plan: Plan, f: Flow, stage: Stage, k: nat)
    requires Inv(plan, f) && Enabled(f, Route(stage, k))
    ensures Next(plan, f, Route(stage, k)).Ok?
    ensures var id, success := DeskOf(f, stage).working[k].tasks[0], DeskOf(f, stage).working[k].success.value;
            var g := Next(plan, f, Route(stage, k)).value;
            id in f.cards
            && match Onward(stage, success, f.cards[id].development)
               case InStore(s) => StoreOf(g, s) == StoreOf(f, s) + [id]
               case Delivered => g.delivered == f.delivered + [id]
               case SupportDone => g.supportDone == f.supportDone + [id]
               case _ => false
  {
    hide Inv, Next, Enabled;
    assert k < |DeskOf(f, stage).working| && DeskOf(f, stage).working[k].success.Some?
           && DeskOf(f, stage).working[k].tasks != [] && Next(plan, f, Route(stage, k)) == RouteFirst(f, stage, k) by {
      RouteIs(plan, f, stage, k);
    }
    hide RouteFirst;
    WorkingShift(plan, f, stage, k);
    RouteStep(plan, f, stage, k);
  }

  lemma RouteIs(plan: Plan, f: Flow, stage: Stage, k: nat)
    requires Enabled(f, Route(stage, k))
    ensures k < |DeskOf(f, stage).working| && DeskOf(f, stage).working[k].success.Some?
    ensures DeskOf(f, stage).working[k].tasks != [] && Next(plan, f, Route(stage, k)) == RouteFirst(f, stage, k)
  {
    hide RouteFirst;
  }

  /** Support work joins the end of the first store, as a task of its own. */
  lemma ArrivalEffect(plan: Plan, f: Flow, points: real, terms: Terms)
    requires Inv(plan, f) && Enabled(f, Support(points, terms))
    ensures var g := Next(plan, f, Support(points, terms)).value;
            && f.nextTask !in f.cards && f.nextTask in g.cards
            && StoreOf(g, PENDING) == StoreOf(f, PENDING) + [f.nextTask] && g.nextTask == f.nextTask + 1
            && g.cards[f.nextTask] == Card(false, terms, points, 0.0, [Started(0.0, PENDING, false)], false, None, [],
                                           InStore(PENDING), None)
  {
    hide Located, CardsOk, DeskOk, AlarmOk, AllRouted;
    Unfold(plan, f);
    NewTask(plan, f);
  }

  /** A sequence of events, each enabled and successful, leads from one state to another. */
  ghost predicate Leads(plan: Plan, f: Flow, events: seq<Event>, g: Flow)
    decreases |events|
  {
    if events == [] then g == f
    else
      && Enabled(f, events[0]) && Next(plan, f, events[0]).Ok?
      && Leads(plan, Next(plan, f, events[0]).value, events[1..], g)
  }

  lemma {:induction false} RunInv(plan: Plan, f: Flow, events: seq<Event>, g: Flow)
    requires Inv(plan, f) && Leads(plan, f, events, g)
    ensures Inv(plan, g)
    decreases |events|
  {
    hide Inv, Next, Enabled;
    if events != [] {
      StepInv(plan, f, events[0]);
      RunInv(plan, Next(plan, f, events[0]).value, events[1..], g);
    }
  }

  ghost predicate Starts(plan: Plan, f: Flow) {
    exists now: real, terms: seq<Terms>, points: seq<real> ::
      CanStart(plan, now, terms, points) && f == Initial(now, terms, points)
  }

  lemma StartsInv(plan: Plan, f: Flow)
    requires Starts(plan, f)
    ensures Inv(plan, f) && forall stage: Stage :: DeskOf(f, stage).waiting == []
  {
    hide Inv;
    var now: real, terms: seq<Terms>, points: seq<real> :|
      CanStart(plan, now, terms, points) && f == Initial(now, terms, points);
    InitialInv(plan, now, terms, points);
  }

  /** What the workflow can get to from a start, by any events that are possible. */
  ghost predicate Reached(plan: Plan, g: Flow) {
    exists f, events :: Starts(plan, f) && Leads(plan, f, events, g)
  }

  lemma ReachedInv(plan: Plan, g: Flow)
    requires Reached(plan, g)
    ensures Inv(plan, g)
  {
    hide Inv, Leads, Starts;
    var f, events :| Starts(plan, f) && Leads(plan, f, events, g);
    StartsInv(plan, f);
    RunInv(plan, f, events, g);
  }

  /** Every task is in exactly one place, once, and support tasks never get past development. */
  lemma OnePlaceEach(plan: Plan, f: Flow, id: nat, p: Place)
    requires Reached(plan, f) && id in f.cards
    ensures id in Contents(f, p) <==> f.cards[id].place == p
    ensures Distinct(Contents(f, p))
    ensures id in Contents(f, p) && PastDev(p) ==> id < f.limit
  {
    ReachedInv(plan, f);
    hide Reached;
    hide DeskOk, AlarmOk, LedgerOk, Contents, Distinct;
    HeldAt(f, p);
    CardAt(plan, f, id);
  }

  /** The alarm has gone off exactly when all submitted tasks are delivered, and it carries each of them once. */
  lemma AlarmIsExact(plan: Plan, f: Flow)
    requires Reached(plan, f)
    ensures f.fired.Some? <==> forall id :: 0 <= id < f.limit ==> id in f.delivered
    ensures f.fired.Some? ==> f.fired.value == f.delivered && Distinct(f.delivered) && |f.delivered| == f.limit
    ensures f.fired.Some? ==> forall id :: id in f.fired.value <==> 0 <= id < f.limit
  {
    ReachedInv(plan, f);
    hide Reached;
    hide DeskOk, CardOk;
    HeldAt(f, Delivered);
    forall id: nat | id in f.delivered ensures id < f.limit { DeliveredIsDevelopment(plan, f, id); }
    if f.fired.Some? {
      forall id: nat | id < f.limit ensures id in f.delivered {
        if f.cards[id].place != Delivered { RoomToDeliver(plan, f, id); }
      }
    } else if forall id :: 0 <= id < f.limit ==> id in f.delivered {
      var all := seq(f.limit, i => i);
      assert forall i, j :: 0 <= i < j < |all| ==> all[i] != all[j];
      DistinctShorter(all, f.delivered);
    }
  }

  /** A delivered task's losses add up to what it has lost of its value by the time of its delivery. */
  lemma DeliveredTaskLoss(plan: Plan, f: Flow, id: nat)
    requires Reached(plan, f) && id in f.delivered && id in f.cards && Depreciates(f.cards[id].terms.decay)
    ensures var c := f.cards[id];
            && GapFree(c.terms, c.log) && LastIs(c.log, TERMINAL, DELIVERY) && Complete(c)
            && c.terms.initial * LossSum(c.log) == ValueAt(c.terms, Last(c.log).time) - c.terms.initial
  {
    ReachedInv(plan, f);
    hide Reached;
    hide DeskOk, AlarmOk, GapFree, Depreciates;
    HeldAt(f, Delivered);
    CardAt(plan, f, id);
    DeliveredLoss(f.cards[id].terms, f.cards[id].log);
  }

  /** All development visits of a submitted task are by the same developer. */
  lemma SameDeveloper(plan: Plan, f: Flow, id: nat)
    requires Reached(plan, f) && id in f.cards && f.cards[id].development
    ensures forall j, k :: 0 <= j < |f.cards[id].visits| && 0 <= k < |f.cards[id].visits| ==>
              f.cards[id].visits[j] == f.cards[id].visits[k]
    ensures f.cards[id].rework && AtDev(f.cards[id].place) ==> f.cards[id].owner.Some?
  {
    ReachedInv(plan, f);
    hide Reached;
    hide DeskOk, AlarmOk, Located, LedgerOk;
    CardAt(plan, f, id);
  }
}
