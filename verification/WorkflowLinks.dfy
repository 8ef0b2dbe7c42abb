/** The workflow beside the developer pool and the clock: who is remembered as owner, and how long work takes. */
module WorkflowLinks {
  import opened Common
  import opened TaskLedger
  import opened Work
  import opened Workflow
  import opened WorkflowProofs
  import opened WorkflowSteps
  import opened WorkflowTheorems
  import Pool

  // ---------------------------------------------------------------------------------------------
  // The developer pool's owners

  /** Whether a batch for development is assigned to whoever is next, who is then remembered as its owner. */
  predicate AsksForNext(f: Flow, k: nat)
    requires k < |DeskOf(f, Dev).waiting|
  {
    var tasks := DeskOf(f, Dev).waiting[k];
    tasks != [] && tasks[0] in f.cards && f.cards[tasks[0]].development && !f.cards[tasks[0]].rework
  }

  /** What the developer pool remembers after an event. */
  function OwnersAfter(f: Flow, ev: Event, owners: map<nat, nat>): map<nat, nat>
    requires Enabled(f, ev)
  {
    if ev.Begin? && ev.stage.Dev? && AsksForNext(f, ev.k)
    then Pool.Remember(owners, DeskOf(f, Dev).waiting[ev.k], ev.free)
    else owners
  }

  function Owners(plan: Plan, f: Flow, events: seq<Event>, owners: map<nat, nat>): map<nat, nat>
    decreases |events|
  {
    if events == [] || !Enabled(f, events[0]) || Next(plan, f, events[0]).Err? then owners
    else Owners(plan, Next(plan, f, events[0]).value, events[1..], OwnersAfter(f, events[0], owners))
  }

  /** The owner on a development task's card is the one the pool remembers, and no other task is remembered. */
  ghost predicate Agree(f: Flow, owners: map<nat, nat>) {
    && (forall id :: id in f.cards && f.cards[id].development ==>
          f.cards[id].owner == if id in owners then Some(owners[id]) else None)
    && forall id :: id in owners ==> id in f.cards && f.cards[id].development
  }

  /** Everything a card remembers but its work. */
  ghost predicate SameOwners(a: map<nat, Card>, b: map<nat, Card>) {
    forall id :: id in a ==> id in b && b[id].owner == a[id].owner && b[id].development == a[id].development
  }

  lemma {:induction false} BeginAllOwners(cards: map<nat, Card>, ids: seq<nat>, now: real, stage: Stage, free: nat)
    requires BeginAll(cards, ids, now, stage, free).Ok? && !stage.Dev?
    ensures SameOwners(cards, BeginAll(cards, ids, now, stage, free).value)
    ensures BeginAll(cards, ids, now, stage, free).value.Keys == cards.Keys
    decreases |ids|
  {
    hide StartLog, EndLog;
    if ids != [] {
      var c := BeginCard(cards[ids[0]], now, stage, Assignee(stage, cards[ids[0]], free).value).value;
      BeginAllOwners(cards[ids[0] := c], ids[1..], now, stage, free);
    }
  }

  lemma {:induction false} FinishAllOwners(plan: Plan, cards: map<nat, Card>, ids: seq<nat>, stage: Stage, success: bool)
    requires FinishAll(plan, cards, ids, stage, success).Ok?
    ensures SameOwners(cards, FinishAll(plan, cards, ids, stage, success).value)
    ensures FinishAll(plan, cards, ids, stage, success).value.Keys == cards.Keys
    decreases |ids|
  {
    if ids != [] {
      var c := FinishCard(plan, cards[ids[0]], stage, success).value;
      FinishAllOwners(plan, cards[ids[0] := c], ids[1..], stage, success);
    }
  }

  /** Only beginning to develop a task, and the arrival of a new one, concern owners. */
  lemma OthersKeepOwners(plan: Plan, f: Flow, ev: Event)
    requires Enabled(f, ev) && Next(plan, f, ev).Ok? && !ev.Support? && (ev.Begin? ==> !ev.stage.Dev?)
    ensures var g := Next(plan, f, ev).value; SameOwners(f.cards, g.cards) && g.cards.Keys == f.cards.Keys
  {
    hide StartLog, EndLog, TerminateLog, ResumeLog, BeginAll, FinishAll, AllRouted;
    match ev {
      case Begin(stage, k, free) => BeginAllOwners(f.cards, DeskOf(f, stage).waiting[k], f.now, stage, free);
      case Finish(stage, k, success) => FinishAllOwners(plan, f.cards, DeskOf(f, stage).working[k].tasks, stage, success);
      case _ =>
    }
  }

  lemma StepAgrees(plan: Plan, f: Flow, ev: Event, owners: map<nat, nat>)
    requires Inv(plan, f) && Enabled(f, ev) && Next(plan, f, ev).Ok? && Agree(f, owners)
    ensures Agree(Next(plan, f, ev).value, OwnersAfter(f, ev, owners))
  {
    hide Inv, Enabled, BeginAll;
    if ev.Support? {
      hide OwnersAfter;
      ArrivalAgrees(plan, f, ev, owners);
    } else if ev.Begin? && ev.stage.Dev? {
      BeginAgrees(plan, f, ev, owners);
    } else {
      hide Next;
      OthersKeepOwners(plan, f, ev);
    }
  }

  lemma ArrivalAgrees(plan: Plan, f: Flow, ev: Event, owners: map<nat, nat>)
    requires Inv(plan, f) && ev.Support? && Enabled(f, ev) && Next(plan, f, ev).Ok? && Agree(f, owners)
    ensures Agree(Next(plan, f, ev).value, OwnersAfter(f, ev, owners))
  {
    hide Located, CardsOk, DeskOk, AlarmOk, StartLog;
    Unfold(plan, f);
    NewTask(plan, f);
  }

  lemma BeginAgrees(plan: Plan, f: Flow, ev: Event, owners: map<nat, nat>)
    requires Inv(plan, f) && ev.Begin? && ev.stage.Dev? && Enabled(f, ev) && Next(plan, f, ev).Ok? && Agree(f, owners)
    ensures Agree(Next(plan, f, ev).value, OwnersAfter(f, ev, owners))
  {
    hide Inv, BeginAll, StartLog, EndLog, DeskOf, AllRouted;
    WaitingBatch(plan, f, Dev, ev.k);
    var ids := DeskOf(f, Dev).waiting[ev.k];
    assert ids == [ids[0]];
    OneBegins(f, ids[0], Dev, ev.free);
  }

  /** A batch of one. */
  lemma OneBegins(f: Flow, id: nat, stage: Stage, free: nat)
    requires id in f.cards && BeginAll(f.cards, [id], f.now, stage, free).Ok?
    ensures var c := f.cards[id];
            && Assignee(stage, c, free).Some? && BeginCard(c, f.now, stage, Assignee(stage, c, free).value).Ok?
            && BeginAll(f.cards, [id], f.now, stage, free).value
               == f.cards[id := BeginCard(c, f.now, stage, Assignee(stage, c, free).value).value]
  {
    hide StartLog, EndLog;
    assert [id][1..] == [];
  }

  lemma {:induction false} RunAgrees(plan: Plan, f: Flow, events: seq<Event>, g: Flow, owners: map<nat, nat>)
    requires Inv(plan, f) && Leads(plan, f, events, g) && Agree(f, owners)
    ensures Inv(plan, g) && Agree(g, Owners(plan, f, events, owners))
    decreases |events|
  {
    hide Inv, Next, Enabled, Agree, OwnersAfter;
    if events != [] {
      StepInv(plan, f, events[0]);
      StepAgrees(plan, f, events[0], owners);
      RunAgrees(plan, Next(plan, f, events[0]).value, events[1..], g, OwnersAfter(f, events[0], owners));
    }
  }

  /**
   * In any run of the workflow from a submission and an empty pool, whatever is waiting to be developed again has an
   * owner the pool remembers, and that is whoever has developed it every time so far.
   */
  lemma OwnerLookupNeverFails(plan: Plan, f: Flow, events: seq<Event>, g: Flow, k: nat)
    requires Starts(plan, f) && Leads(plan, f, events, g) && k < |DeskOf(g, Dev).waiting|
    ensures var tasks, owners := DeskOf(g, Dev).waiting[k], Owners(plan, f, events, map[]);
            && |tasks| == 1 && tasks[0] in g.cards
            && var c := g.cards[tasks[0]];
            c.development && c.rework ==>
              && tasks[0] in owners && c.visits != []
              && forall v :: 0 <= v < |c.visits| ==> c.visits[v] == owners[tasks[0]]
  {
    hide Inv, Leads, Starts, Owners;
    StartsInv(plan, f);
    NoOwnersYet(plan, f);
    RunAgrees(plan, f, events, g, map[]);
    WaitingBatch(plan, g, Dev, k);
    CardAt(plan, g, DeskOf(g, Dev).waiting[k][0]);
    hide LedgerOk, ValueOk;
  }

  lemma NoOwnersYet(plan: Plan, f: Flow)
    requires Starts(plan, f)
    ensures Agree(f, map[])
  {
  }

  // ---------------------------------------------------------------------------------------------
  // Developing takes time

  function PieceOf(c: Card): Piece { Piece(c.points, c.completed) }

  /** A developer of a given efficiency works on one task in stretches of time, each after a pause. */
  function Stretches(now: real, k: nat, efficiency: real, pauses: seq<real>, slices: seq<real>): seq<Event>
    requires |pauses| == |slices|
    decreases |slices|
  {
    if slices == [] then []
    else
      var begun := now + pauses[0];
      [Clock(begun), Clock(begun + slices[0]), Slice(k, slices[0] * efficiency)]
      + Stretches(begun + slices[0], k, efficiency, pauses[1..], slices[1..])
  }

  /** The task that is developed at a place, with its work still going on. */
  ghost predicate InWork(f: Flow, k: nat, id: nat) {
    && k < |DeskOf(f, Dev).working| && DeskOf(f, Dev).working[k].success.None?
    && DeskOf(f, Dev).working[k].tasks == [id] && id in f.cards
  }

  /** One stretch: the clock moves on by it, and the task by what is worked in it. */
  lemma OneStretch(plan: Plan, f: Flow, k: nat, id: nat, efficiency: real, slice: real, amount: real)
    requires Inv(plan, f) && AllRouted(f) && InWork(f, k, id) && efficiency > 0.0
    requires AllInRange([PieceOf(f.cards[id])]) && 0.0 <= slice <= Effort([PieceOf(f.cards[id])], efficiency)
    requires amount == slice * efficiency
    ensures Enabled(f, Clock(f.now + slice))
    ensures var m := f.(now := f.now + slice);
            && Next(plan, f, Clock(f.now + slice)) == Ok(m) && Enabled(m, Slice(k, amount))
            && var r := Next(plan, m, Slice(k, amount));
            && r.Ok? && Inv(plan, r.value) && AllRouted(r.value) && InWork(r.value, k, id)
            && r.value.now == f.now + slice
            && Spread([PieceOf(f.cards[id])], amount).0 == [PieceOf(r.value.cards[id])]
            && AllInRange([PieceOf(r.value.cards[id])])
  {
    hide Inv;
    var ps := [PieceOf(f.cards[id])];
    ProductNonNegative(slice, efficiency);
    ProductNonNegative(Effort(ps, efficiency) - slice, efficiency);
    Distributes(Effort(ps, efficiency), slice, efficiency);
    EffortIsRemaining(ps, efficiency);
    assert ps[1..] == [];
    assert TotalRemaining(ps) == ps[0].Remaining();
    var m := f.(now := f.now + slice);
    assert forall stage: Stage :: DeskOf(m, stage) == DeskOf(f, stage);
    StepInv(plan, f, Clock(f.now + slice));
    StepInv(plan, m, Slice(k, amount));
    WorkedOn(plan, m, k, id, amount);
  }

  lemma WorkedOn(plan: Plan, f: Flow, k: nat, id: nat, amount: real)
    requires InWork(f, k, id) && AllRouted(f) && Enabled(f, Slice(k, amount)) && Next(plan, f, Slice(k, amount)).Ok?
    requires AllInRange([PieceOf(f.cards[id])])
    ensures var g := Next(plan, f, Slice(k, amount)).value;
            && AllRouted(g) && InWork(g, k, id) && g.now == f.now
            && Spread([PieceOf(f.cards[id])], amount).0 == [PieceOf(g.cards[id])]
            && AllInRange([PieceOf(g.cards[id])])
  {
    var g := Next(plan, f, Slice(k, amount)).value;
    assert forall stage: Stage :: DeskOf(g, stage) == DeskOf(f, stage);
    var ps := [PieceOf(f.cards[id])];
    assert ps[1..] == [];
  }

  lemma OnePause(plan: Plan, f: Flow, k: nat, id: nat, pause: real)
    requires Inv(plan, f) && AllRouted(f) && InWork(f, k, id) && pause >= 0.0
    ensures Enabled(f, Clock(f.now + pause))
    ensures var m := f.(now := f.now + pause);
            Next(plan, f, Clock(f.now + pause)) == Ok(m) && Inv(plan, m) && AllRouted(m) && InWork(m, k, id)
  {
    hide Inv;
    var m := f.(now := f.now + pause);
    assert forall stage: Stage :: DeskOf(m, stage) == DeskOf(f, stage);
    StepInv(plan, f, Clock(f.now + pause));
  }

  /**
   * A development visit interrupted any number of times, each time for any while: beyond the interruptions the clock
   * moves by the time worked, the task by what is worked in it, and the time worked and the time still needed add up to
   * what the visit needed when it began.
   */
  lemma {:induction false} VisitTakesItsTime(plan: Plan, f: Flow, k: nat, id: nat, efficiency: real,
                                             pauses: seq<real>, slices: seq<real>)
    returns (g: Flow)
    requires Inv(plan, f) && AllRouted(f) && InWork(f, k, id) && efficiency > 0.0
    requires |pauses| == |slices| && forall i :: 0 <= i < |pauses| ==> pauses[i] >= 0.0
    requires AllInRange([PieceOf(f.cards[id])]) && Interrupted([PieceOf(f.cards[id])], efficiency, slices)
    ensures Leads(plan, f, Stretches(f.now, k, efficiency, pauses, slices), g)
    ensures InWork(g, k, id) && [PieceOf(g.cards[id])] == AfterSlices([PieceOf(f.cards[id])], efficiency, slices)
    ensures g.now == f.now + Sum(pauses) + Sum(slices)
    ensures Sum(slices) + Effort([PieceOf(g.cards[id])], efficiency) == Effort([PieceOf(f.cards[id])], efficiency)
    decreases |slices|
  {
    hide Inv, Next, Enabled, Spread, Effort, AllInRange, DeskOf, AllRouted;
    if slices == [] {
      g := f;
    } else {
      var amount := slices[0] * efficiency;
      OnePause(plan, f, k, id, pauses[0]);
      var p := f.(now := f.now + pauses[0]);
      OneStretch(plan, p, k, id, efficiency, slices[0], amount);
      OneSlice([PieceOf(f.cards[id])], efficiency, slices[0], amount);
      var m := p.(now := p.now + slices[0]);
      var h := Next(plan, m, Slice(k, amount)).value;
      g := VisitTakesItsTime(plan, h, k, id, efficiency, pauses[1..], slices[1..]);
      var rest := Stretches(h.now, k, efficiency, pauses[1..], slices[1..]);
      var events := Stretches(f.now, k, efficiency, pauses, slices);
      assert events[1..][1..] == [Slice(k, amount)] + rest;
      assert events[1..][1..][1..] == rest;
      assert Leads(plan, m, events[1..][1..], g);
      assert Leads(plan, p, events[1..], g);
    }
  }
}
