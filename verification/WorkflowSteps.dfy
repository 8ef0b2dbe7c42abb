/** Every event of the workflow succeeds and keeps its invariant. */
module WorkflowSteps {
  import opened Common
  import opened TaskLedger
  import opened Work
  import opened Workflow
  import opened WorkflowProofs

  // ---------------------------------------------------------------------------------------------
  // Frames

  lemma InFlatten(bs: seq<seq<nat>>, k: nat)
    requires k < |bs|
    ensures forall id :: id in bs[k] ==> id in Flatten(bs)
  {
    FlattenAt(bs, k, bs[k]);
    assert bs[k := bs[k]] == bs;
  }

  lemma OneBatchOnly(bs: seq<seq<nat>>, j: nat, k: nat, id: nat)
    requires Distinct(Flatten(bs)) && j < |bs| && k < |bs| && j != k && id in bs[j]
    ensures id !in bs[k]
  {
    var without := Workflow.Without(bs, k);
    FlattenAt(bs, k, bs[k]);
    assert bs[k := bs[k]] == bs;
    MiddleOut(Flatten(bs[..k]), bs[k], Flatten(bs[k + 1..]));
    var j' := if j < k then j else j - 1;
    assert without[j'] == bs[j];
    InFlatten(without, j');
  }

  lemma HeldAt(f: Flow, p: Place)
    requires Located(f)
    ensures Holds(Contents(f, p), f.cards, p)
  {
  }

  lemma CardAt(plan: Plan, f: Flow, id: nat)
    requires Inv(plan, f) && id in f.cards
    ensures CardOk(f.cards[id], f.now) && id < f.nextTask && (f.cards[id].development <==> id < f.limit)
  {
    hide CardOk, Located, DeskOk, AlarmOk;
  }

  lemma WaitingBatch(plan: Plan, f: Flow, stage: Stage, k: nat)
    requires Inv(plan, f) && k < |DeskOf(f, stage).waiting|
    ensures var b := DeskOf(f, stage).waiting[k];
            && Distinct(b) && b != [] && (!stage.Tool? ==> |b| == 1)
            && forall id :: id in b ==> id in f.cards && f.cards[id].place == Waiting(stage)
  {
    hide CardsOk, AlarmOk, ShiftOk;
    var bs := DeskOf(f, stage).waiting;
    assert DeskOk(plan, f, stage);
    HeldAt(f, Waiting(stage));
    InFlatten(bs, k);
    FlattenAt(bs, k, bs[k]);
    assert bs[k := bs[k]] == bs;
    MiddleOut(Flatten(bs[..k]), bs[k], Flatten(bs[k + 1..]));
  }

  lemma WorkingShift(plan: Plan, f: Flow, stage: Stage, k: nat)
    requires Inv(plan, f) && k < |DeskOf(f, stage).working|
    ensures var s := DeskOf(f, stage).working[k];
            && ShiftOk(f.cards, stage, s) && Distinct(s.tasks)
            && forall id :: id in s.tasks ==> id in f.cards && f.cards[id].place == Working(stage)
  {
    hide CardsOk, AlarmOk, ShiftOk;
    var bs := TasksOf(DeskOf(f, stage).working);
    assert DeskOk(plan, f, stage);
    HeldAt(f, Working(stage));
    InFlatten(bs, k);
    FlattenAt(bs, k, bs[k]);
    assert bs[k := bs[k]] == bs;
    MiddleOut(Flatten(bs[..k]), bs[k], Flatten(bs[k + 1..]));
  }

  /** Points and completed work as they were. */
  ghost predicate SameWork(a: map<nat, Card>, b: map<nat, Card>) {
    forall id :: id in a ==> id in b && b[id].completed == a[id].completed && b[id].points == a[id].points
  }

  lemma ShiftSameWork(a: map<nat, Card>, b: map<nat, Card>, stage: Stage, s: Shift)
    requires ShiftOk(a, stage, s) && SameWork(a, b)
    ensures ShiftOk(b, stage, s)
  {
  }

  /** The desks after an event at one desk that leaves all points as they were. */
  lemma DesksSameWork(plan: Plan, f: Flow, g: Flow, stage: Stage)
    requires Inv(plan, f) && SameWork(f.cards, g.cards)
    requires forall s: Stage :: s != stage ==> DeskOf(g, s) == DeskOf(f, s)
    requires !Batched(plan, stage) ==> DeskOf(g, stage).queue == []
    requires forall k :: 0 <= k < |DeskOf(g, stage).waiting| ==>
               DeskOf(g, stage).waiting[k] != [] && (!stage.Tool? ==> |DeskOf(g, stage).waiting[k]| == 1)
    requires forall k :: 0 <= k < |DeskOf(g, stage).working| ==> ShiftOk(f.cards, stage, DeskOf(g, stage).working[k])
    ensures forall s: Stage :: DeskOk(plan, g, s)
  {
    hide CardsOk, AlarmOk, Located, ShiftOk, SameWork, DeskOf;
    forall s: Stage ensures DeskOk(plan, g, s) {
      assert DeskOk(plan, f, s);
      forall k | 0 <= k < |DeskOf(g, s).working| ensures ShiftOk(g.cards, s, DeskOf(g, s).working[k]) {
        ShiftSameWork(f.cards, g.cards, s, DeskOf(g, s).working[k]);
      }
    }
  }

  lemma Unfold(plan: Plan, f: Flow)
    requires Inv(plan, f)
    ensures Located(f) && CardsOk(f) && AlarmOk(f) && 0.0 <= plan.failureCost <= 1.0
    ensures forall stage: Stage :: DeskOk(plan, f, stage)
  {
    hide Located, CardsOk, AlarmOk, DeskOk;
  }

  /** The cards after an event that replaces some of them. */
  lemma CardsChanged(f: Flow, g: Flow, ids: seq<nat>)
    requires CardsOk(f) && g.cards.Keys == f.cards.Keys && g.now == f.now
    requires g.nextTask == f.nextTask && g.limit == f.limit
    requires forall id :: id in f.cards && id !in ids ==> g.cards[id] == f.cards[id]
    requires forall id :: id in ids ==> id in f.cards && CardOk(g.cards[id], g.now)
                                        && g.cards[id].development == f.cards[id].development
    ensures CardsOk(g)
  {
    hide CardOk;
  }

  // ---------------------------------------------------------------------------------------------
  // Time and arrivals

  lemma LaterCardOk(c: Card, now: real, later: real)
    requires CardOk(c, now) && now <= later
    ensures CardOk(c, later)
  {
    hide GapFree, LogPlaces, WorkOk, KindOk, OwnerOk;
  }

  lemma ClockStep(plan: Plan, f: Flow, to: real)
    requires Inv(plan, f) && f.now <= to
    ensures Inv(plan, f.(now := to))
  {
    hide CardOk, DeskOk, Holds, Contents, AlarmOk;
    var g := f.(now := to);
    forall id | id in f.cards ensures CardOk(g.cards[id], to) { LaterCardOk(f.cards[id], f.now, to); }
    SamePlacesNow(f, g);
    AlarmNow(f, g);
    forall stage: Stage ensures DeskOk(plan, g, stage) { DeskNow(plan, f, g, stage); }
  }

  lemma SamePlacesNow(f: Flow, g: Flow)
    requires Located(f) && g == f.(now := g.now)
    ensures Located(g)
  {
    assert forall r: Place :: Contents(g, r) == Contents(f, r);
    SamePlaces(f, g);
  }

  lemma AlarmNow(f: Flow, g: Flow)
    requires AlarmOk(f) && g == f.(now := g.now)
    ensures AlarmOk(g)
  {
  }

  lemma DeskNow(plan: Plan, f: Flow, g: Flow, stage: Stage)
    requires DeskOk(plan, f, stage) && g == f.(now := g.now)
    ensures DeskOk(plan, g, stage)
  {
    assert DeskOf(g, stage) == DeskOf(f, stage);
    hide DeskOf, ShiftOk;
  }

  // ---------------------------------------------------------------------------------------------
  // Taking a task from a store

  lemma TakeStep(plan: Plan, f: Flow, stage: Stage)
    requires Inv(plan, f) && StoreOf(f, Source(stage)) != []
    ensures TakeTask(plan, f, stage).Ok? && Inv(plan, TakeTask(plan, f, stage).value)
    ensures Moves(f, TakeTask(plan, f, stage).value, [StoreOf(f, Source(stage))[0]], InStore(Source(stage)),
                  if plan.cadence > 0 && stage.Tool? then Queued(stage) else Waiting(stage))
  {
    hide CardOk, Located, CardsOk, DeskOk, AlarmOk, Contents, TakeCard, Moves, ShiftOk, StoreOf, Source;
    Unfold(plan, f);
    var p := InStore(Source(stage));
    var store := StoreOf(f, Source(stage));
    var id := store[0];
    StoreHead(f, Source(stage));
    CardAt(plan, f, id);
    TakeCardOk(f.cards[id], f.now, stage);
    var g := TakeTask(plan, f, stage).value;
    var q := if Batched(plan, stage) then Queued(stage) else Waiting(stage);
    DeskAt(plan, f, stage);
    assert g.cards == f.cards[id := f.cards[id].(place := q)];
    TakeMoves(plan, f, g, stage, id, q);
    MovesLocated(f, g, [id], p, q);
    CardsChanged(f, g, [id]);
    DesksSameWork(plan, f, g, stage);
    assert AlarmOk(g) by { SameAlarm(f, g); }
  }

  lemma DeskAt(plan: Plan, f: Flow, stage: Stage)
    requires Inv(plan, f)
    ensures !Batched(plan, stage) ==> DeskOf(f, stage).queue == []
    ensures forall k :: 0 <= k < |DeskOf(f, stage).waiting| ==>
              DeskOf(f, stage).waiting[k] != [] && (!stage.Tool? ==> |DeskOf(f, stage).waiting[k]| == 1)
    ensures forall k :: 0 <= k < |DeskOf(f, stage).working| ==> ShiftOk(f.cards, stage, DeskOf(f, stage).working[k])
  {
    hide CardsOk, AlarmOk, Located, ShiftOk;
    assert DeskOk(plan, f, stage);
  }

  lemma StoreHead(f: Flow, s: State)
    requires Located(f) && StoreOf(f, s) != []
    ensures StoreOf(f, s)[0] in f.cards && f.cards[StoreOf(f, s)[0]].place == InStore(s)
  {
    HeldAt(f, InStore(s));
    assert StoreOf(f, s)[0] in Contents(f, InStore(s));
  }

  lemma SameAlarm(f: Flow, g: Flow)
    requires AlarmOk(f) && g.limit == f.limit && g.nextTask == f.nextTask && g.delivered == f.delivered
    requires g.fired == f.fired && g.cards.Keys == f.cards.Keys
    ensures AlarmOk(g)
  {
  }

  lemma TakeMoves(plan: Plan, f: Flow, g: Flow, stage: Stage, id: nat, q: Place)
    requires var store, d := StoreOf(f, Source(stage)), DeskOf(f, stage);
             && store != [] && id == store[0] && id in f.cards
             && g == SetDesk(f, stage, if Batched(plan, stage) then d.(queue := d.queue + [id])
                                       else d.(queue := [], waiting := d.waiting + [d.queue + [id]])).(
                       cards := f.cards[id := f.cards[id].(place := q)],
                       stores := f.stores[Source(stage) := store[1..]])
    requires q == if Batched(plan, stage) then Queued(stage) else Waiting(stage)
    requires !Batched(plan, stage) ==> DeskOf(f, stage).queue == []
    ensures Moves(f, g, [id], InStore(Source(stage)), q)
  {
    hide Flatten, Distinct;
    var store, p := StoreOf(f, Source(stage)), InStore(Source(stage));
    MiddleOut([], [id], store[1..]);
    assert [] + [id] + store[1..] == store && [] + store[1..] == store[1..];
    FlattenAdd(DeskOf(f, stage).waiting, [id]);
    assert [] + [id] == [id];
    hide TakesOut;
    forall r: Place | r != p && r != q ensures Contents(g, r) == Contents(f, r) {
    }
  }

  // ---------------------------------------------------------------------------------------------
  // Releasing what was collected

  lemma ReleaseStep(plan: Plan, f: Flow)
    requires Inv(plan, f) && DeskOf(f, Tool).queue != []
    ensures Inv(plan, ReleaseBatch(f))
    ensures Moves(f, ReleaseBatch(f), DeskOf(f, Tool).queue, Queued(Tool), Waiting(Tool))
  {
    hide CardOk, Located, CardsOk, DeskOk, AlarmOk, Contents, Moves;
    Unfold(plan, f);
    HeldAt(f, Queued(Tool));
    QueueContents(f, Tool);
    var g, ids := ReleaseBatch(f), DeskOf(f, Tool).queue;
    DeskAt(plan, f, Tool);
    forall id | id in ids ensures id in f.cards && CardOk(g.cards[id], f.now) {
      CardAt(plan, f, id);
      ReleasedCardOk(f.cards[id], f.now);
    }
    assert g.cards.Keys == f.cards.Keys;
    ReleaseMoves(f, g);
    MovesLocated(f, g, ids, Queued(Tool), Waiting(Tool));
    CardsChanged(f, g, ids);
    DesksSameWork(plan, f, g, Tool);
    assert AlarmOk(g) by { SameAlarm(f, g); }
  }

  lemma QueueContents(f: Flow, stage: Stage)
    ensures Contents(f, Queued(stage)) == DeskOf(f, stage).queue
  {
  }

  lemma ReleasedCardOk(c: Card, now: real)
    requires CardOk(c, now) && c.place == Queued(Tool)
    ensures CardOk(c.(place := Waiting(Tool)), now)
  {
    hide GapFree;
  }

  lemma ReleaseMoves(f: Flow, g: Flow)
    requires g == ReleaseBatch(f) && Holds(DeskOf(f, Tool).queue, f.cards, Queued(Tool))
    ensures Moves(f, g, DeskOf(f, Tool).queue, Queued(Tool), Waiting(Tool))
  {
    hide Flatten;
    var d := DeskOf(f, Tool);
    var none: seq<nat> := [];
    MiddleOut(none, d.queue, none);
    assert none + d.queue + none == d.queue && none + none == none;
    FlattenAdd(d.waiting, d.queue);
    hide TakesOut, Distinct;
    assert g.cards.Keys == f.cards.Keys;
    forall r: Place | r != Queued(Tool) && r != Waiting(Tool) ensures Contents(g, r) == Contents(f, r) {
    }
  }

  // ---------------------------------------------------------------------------------------------
  // Beginning to work on a batch

  /** Changes of single cards, done one after the other over a batch. */
  ghost predicate Begun(a: map<nat, Card>, b: map<nat, Card>, ids: seq<nat>, now: real, stage: Stage) {
    && b.Keys == a.Keys
    && (forall id :: id in a && id !in ids ==> b[id] == a[id])
    && (forall id :: id in ids ==>
          id in a && CardOk(b[id], now) && b[id].place == Working(stage) && b[id].points == a[id].points
          && b[id].completed == a[id].completed && b[id].development == a[id].development)
  }

  lemma {:induction false} BeginAllOk(cards: map<nat, Card>, ids: seq<nat>, now: real, stage: Stage, free: nat)
    requires Distinct(ids)
    requires forall id :: id in ids ==> id in cards && CardOk(cards[id], now) && cards[id].place == Waiting(stage)
    ensures BeginAll(cards, ids, now, stage, free).Ok?
    ensures Begun(cards, BeginAll(cards, ids, now, stage, free).value, ids, now, stage)
    decreases |ids|
  {
    hide CardOk, BeginCard, Assignee, Distinct;
    if ids != [] {
      DistinctTail(ids);
      BeginCardOk(cards[ids[0]], now, stage, free);
      var c := BeginCard(cards[ids[0]], now, stage, Assignee(stage, cards[ids[0]], free).value).value;
      BeginAllOk(cards[ids[0] := c], ids[1..], now, stage, free);
    }
  }

  lemma BeginStep(plan: Plan, f: Flow, stage: Stage, k: nat, free: nat)
    requires Inv(plan, f) && k < |DeskOf(f, stage).waiting|
    ensures BeginBatch(f, stage, k, free).Ok? && Inv(plan, BeginBatch(f, stage, k, free).value)
    ensures Moves(f, BeginBatch(f, stage, k, free).value, DeskOf(f, stage).waiting[k], Waiting(stage), Working(stage))
  {
    hide CardOk, Located, CardsOk, DeskOk, AlarmOk, Contents, Moves, BeginAll;
    Unfold(plan, f);
    WaitingBatch(plan, f, stage, k);
    DeskAt(plan, f, stage);
    var ids := DeskOf(f, stage).waiting[k];
    forall id | id in ids ensures CardOk(f.cards[id], f.now) && (stage.Qa? ==> Complete(f.cards[id])) {
      CardAt(plan, f, id);
      WaitingComplete(f.cards[id], f.now);
    }
    BeginAllOk(f.cards, ids, f.now, stage, free);
    var g := BeginBatch(f, stage, k, free).value;
    BeginMoves(f, g, stage, k, free);
    MovesLocated(f, g, ids, Waiting(stage), Working(stage));
    CardsChanged(f, g, ids);
    DesksSameWork(plan, f, g, stage);
    assert AlarmOk(g) by { SameAlarm(f, g); }
  }

  lemma WaitingComplete(c: Card, now: real)
    requires CardOk(c, now)
    ensures c.place == Waiting(Qa) ==> Complete(c)
  {
    hide LedgerOk;
  }

  lemma BeginMoves(f: Flow, g: Flow, stage: Stage, k: nat, free: nat)
    requires k < |DeskOf(f, stage).waiting|
    requires BeginBatch(f, stage, k, free) == Ok(g)
    requires Begun(f.cards, g.cards, DeskOf(f, stage).waiting[k], f.now, stage)
    ensures Moves(f, g, DeskOf(f, stage).waiting[k], Waiting(stage), Working(stage))
  {
    hide Flatten, BeginAll, CardOk, Distinct;
    var d, e := DeskOf(f, stage), DeskOf(g, stage);
    var ids := d.waiting[k];
    FlattenAt(d.waiting, k, ids);
    assert d.waiting[k := ids] == d.waiting;
    MiddleOut(Flatten(d.waiting[..k]), ids, Flatten(d.waiting[k + 1..]));
    assert TasksOf(e.working) == TasksOf(d.working) + [ids];
    FlattenAdd(TasksOf(d.working), ids);
    hide TakesOut;
    forall r: Place | r != Waiting(stage) && r != Working(stage) ensures Contents(g, r) == Contents(f, r) {
    }
  }

  // ---------------------------------------------------------------------------------------------
  // Working and finishing

  /** Work done on some cards, everything else as it was. */
  ghost predicate Worked(a: map<nat, Card>, b: map<nat, Card>, ids: seq<nat>) {
    && b.Keys == a.Keys
    && (forall id :: id in a && id !in ids ==> b[id] == a[id])
    && (forall id :: id in ids ==> id in a && b[id] == a[id].(completed := b[id].completed))
  }

  lemma WorkedLocated(f: Flow, g: Flow, ids: seq<nat>)
    requires Located(f) && Worked(f.cards, g.cards, ids)
    requires forall r: Place :: Contents(g, r) == Contents(f, r)
    ensures Located(g)
  {
    hide Contents, Holds;
    SamePlaces(f, g);
  }

  lemma {:induction false} FinishAllOk(plan: Plan, cards: map<nat, Card>, ids: seq<nat>, now: real, stage: Stage,
                                       success: bool)
    requires Distinct(ids) && 0.0 <= plan.failureCost <= 1.0 && (stage.Dev? ==> success)
    requires forall id :: id in ids ==>
               id in cards && CardOk(cards[id], now) && cards[id].place == Working(stage)
               && (stage.Qa? ==> Complete(cards[id]))
    ensures var r := FinishAll(plan, cards, ids, stage, success);
            && r.Ok? && Worked(cards, r.value, ids)
            && (forall id :: id in ids ==> CardOk(r.value[id], now)
                                           && ((stage.Qa? && !success) || Complete(r.value[id])))
    decreases |ids|
  {
    hide CardOk, FinishCard, Distinct, Complete;
    if ids != [] {
      DistinctTail(ids);
      FinishCardOk(plan, cards[ids[0]], now, stage, success);
      var c := FinishCard(plan, cards[ids[0]], stage, success).value;
      FinishAllOk(plan, cards[ids[0] := c], ids[1..], now, stage, success);
    }
  }

  lemma SameTasks(f: Flow, g: Flow, stage: Stage, k: nat, success: bool)
    requires k < |DeskOf(f, stage).working|
    requires g.stores == f.stores && g.delivered == f.delivered && g.supportDone == f.supportDone
    requires g.desks == f.desks[stage := DeskOf(f, stage).(
               working := DeskOf(f, stage).working[k := DeskOf(f, stage).working[k].(success := Some(success))])]
    ensures forall r: Place :: Contents(g, r) == Contents(f, r)
  {
    assert TasksOf(DeskOf(g, stage).working) == TasksOf(DeskOf(f, stage).working);
    hide Flatten;
  }

  lemma FinishStep(plan: Plan, f: Flow, stage: Stage, k: nat, success: bool)
    requires Inv(plan, f) && k < |DeskOf(f, stage).working| && DeskOf(f, stage).working[k].success.None?
    requires stage.Dev? ==> success
    ensures FinishBatch(plan, f, stage, k, success).Ok? && Inv(plan, FinishBatch(plan, f, stage, k, success).value)
    ensures var g := FinishBatch(plan, f, stage, k, success).value;
            Worked(f.cards, g.cards, DeskOf(f, stage).working[k].tasks)
  {
    hide CardOk, Located, CardsOk, DeskOk, AlarmOk, Contents, FinishAll, Complete, Worked;
    Unfold(plan, f);
    WorkingShift(plan, f, stage, k);
    var ids := DeskOf(f, stage).working[k].tasks;
    forall id | id in ids ensures CardOk(f.cards[id], f.now) && (stage.Qa? ==> Complete(f.cards[id])) {
      CardAt(plan, f, id);
      var i :| 0 <= i < |ids| && ids[i] == id;
    }
    FinishAllOk(plan, f.cards, ids, f.now, stage, success);
    var g := FinishBatch(plan, f, stage, k, success).value;
    SameTasks(f, g, stage, k, success);
    WorkedLocated(f, g, ids);
    WorkedKeys(f, g, ids);
    WorkedCards(f, g, ids);
    forall s: Stage ensures DeskOk(plan, g, s) {
      FinishedDesk(plan, f, g, stage, k, success, s);
    }
    assert AlarmOk(g) by { SameAlarm(f, g); }
  }

  lemma WorkedKeys(f: Flow, g: Flow, ids: seq<nat>)
    requires Worked(f.cards, g.cards, ids)
    ensures g.cards.Keys == f.cards.Keys
  {
  }

  lemma WorkedCards(f: Flow, g: Flow, ids: seq<nat>)
    requires CardsOk(f) && Worked(f.cards, g.cards, ids) && g.now == f.now && g.nextTask == f.nextTask
    requires g.limit == f.limit && forall id :: id in ids ==> id in g.cards && CardOk(g.cards[id], g.now)
    ensures CardsOk(g)
  {
    hide CardOk, CardsOk;
    CardsChanged(f, g, ids);
  }

  lemma FinishedDesk(plan: Plan, f: Flow, g: Flow, stage: Stage, k: nat, success: bool, s: Stage)
    requires Inv(plan, f) && k < |DeskOf(f, stage).working| && (stage.Dev? ==> success)
    requires DeskOf(f, stage).working[k].success.None?
    requires g.desks == f.desks[stage := DeskOf(f, stage).(
               working := DeskOf(f, stage).working[k := DeskOf(f, stage).working[k].(success := Some(success))])]
    requires Worked(f.cards, g.cards, DeskOf(f, stage).working[k].tasks)
    requires forall id :: id in DeskOf(f, stage).working[k].tasks ==>
               id in g.cards && ((stage.Qa? && !success) || Complete(g.cards[id]))
    ensures DeskOk(plan, g, s)
  {
    hide CardsOk, AlarmOk, ShiftOk, Worked;
    var d, e := DeskOf(f, s), DeskOf(g, s);
    assert DeskOk(plan, f, s);
    forall j | 0 <= j < |e.working| ensures ShiftOk(g.cards, s, e.working[j]) {
      if s == stage && j == k {
        FinishedShift(f.cards, g.cards, stage, DeskOf(f, stage).working[k], success);
      } else {
        OtherShift(plan, f, stage, k, s, j);
        UntouchedShift(f.cards, g.cards, DeskOf(f, stage).working[k].tasks, s, d.working[j]);
      }
    }
  }

  lemma FinishedShift(a: map<nat, Card>, b: map<nat, Card>, stage: Stage, s: Shift, success: bool)
    requires ShiftOk(a, stage, s) && Worked(a, b, s.tasks) && (stage.Dev? ==> success)
    requires forall id :: id in s.tasks ==> id in b && ((stage.Qa? && !success) || Complete(b[id]))
    ensures ShiftOk(b, stage, s.(success := Some(success)))
  {
  }

  lemma UntouchedShift(a: map<nat, Card>, b: map<nat, Card>, ids: seq<nat>, stage: Stage, s: Shift)
    requires ShiftOk(a, stage, s) && Worked(a, b, ids) && forall id :: id in s.tasks ==> id !in ids
    ensures ShiftOk(b, stage, s)
  {
  }

  /** No two shifts hold the same task. */
  lemma OtherShift(plan: Plan, f: Flow, stage: Stage, k: nat, s: Stage, j: nat)
    requires Inv(plan, f) && k < |DeskOf(f, stage).working| && j < |DeskOf(f, s).working| && (s != stage || j != k)
    ensures forall id :: id in DeskOf(f, s).working[j].tasks ==> id !in DeskOf(f, stage).working[k].tasks
  {
    hide CardsOk, AlarmOk, DeskOk, ShiftOk;
    WorkingShift(plan, f, stage, k);
    WorkingShift(plan, f, s, j);
    if s == stage {
      HeldAt(f, Working(stage));
      forall id | id in DeskOf(f, s).working[j].tasks ensures id !in DeskOf(f, stage).working[k].tasks {
        OneBatchOnly(TasksOf(DeskOf(f, stage).working), j, k, id);
      }
    }
  }

  // ---------------------------------------------------------------------------------------------
  // A slice of development

  lemma AddWorkOk(c: Card, now: real, amount: real)
    requires CardOk(c, now) && c.place == Working(Dev) && 0.0 <= amount <= c.points - c.completed
    ensures var r := AddWork(c, amount);
            && r.Some? && r.value == c.(completed := c.completed + amount) && CardOk(r.value, now)
            && (Complete(c) ==> Complete(r.value))
  {
    hide GapFree;
  }

  lemma SliceStep(plan: Plan, f: Flow, k: nat, amount: real)
    requires Inv(plan, f) && Enabled(f, Slice(k, amount))
    ensures SliceWork(f, k, amount).Ok? && Inv(plan, SliceWork(f, k, amount).value)
  {
    hide CardOk, Located, CardsOk, DeskOk, AlarmOk, Contents, Complete, AddWork, Worked;
    Unfold(plan, f);
    WorkingShift(plan, f, Dev, k);
    var id := DeskOf(f, Dev).working[k].tasks[0];
    assert id in DeskOf(f, Dev).working[k].tasks;
    CardAt(plan, f, id);
    AddWorkOk(f.cards[id], f.now, amount);
    var g := SliceWork(f, k, amount).value;
    assert Worked(f.cards, g.cards, [id]) by { OneWorked(f.cards, id, f.cards[id].completed + amount); }
    assert forall r: Place :: Contents(g, r) == Contents(f, r) by { SameContents(f, g); }
    WorkedLocated(f, g, [id]);
    WorkedCards(f, g, [id]);
    forall s: Stage ensures DeskOk(plan, g, s) { SlicedDesk(plan, f, g, id, s); }
    assert AlarmOk(g) by { SameAlarm(f, g); }
  }

  lemma OneWorked(a: map<nat, Card>, id: nat, completed: real)
    requires id in a
    ensures Worked(a, a[id := a[id].(completed := completed)], [id])
  {
  }

  lemma SameContents(f: Flow, g: Flow)
    requires g.stores == f.stores && g.desks == f.desks && g.delivered == f.delivered && g.supportDone == f.supportDone
    ensures forall r: Place :: Contents(g, r) == Contents(f, r)
  {
    hide Flatten;
  }

  lemma SlicedDesk(plan: Plan, f: Flow, g: Flow, id: nat, s: Stage)
    requires Inv(plan, f) && id in f.cards && Worked(f.cards, g.cards, [id]) && g.desks == f.desks
    requires id in g.cards && (Complete(f.cards[id]) ==> Complete(g.cards[id]))
    ensures DeskOk(plan, g, s)
  {
    hide CardsOk, AlarmOk, ShiftOk, Located;
    assert DeskOk(plan, f, s);
    forall j | 0 <= j < |DeskOf(g, s).working| ensures ShiftOk(g.cards, s, DeskOf(g, s).working[j]) {
      ShiftKeepsComplete(f.cards, g.cards, s, DeskOf(f, s).working[j]);
    }
  }

  lemma ShiftKeepsComplete(a: map<nat, Card>, b: map<nat, Card>, stage: Stage, s: Shift)
    requires ShiftOk(a, stage, s)
    requires forall id :: id in a ==> id in b && (Complete(a[id]) ==> Complete(b[id]))
    ensures ShiftOk(b, stage, s)
  {
  }

  // ---------------------------------------------------------------------------------------------
  // Routing a task whose work is done

  /** Where a task goes after a stage: on after success, back to be developed or deployed again after a failure. */
  ghost function Onward(stage: Stage, success: bool, development: bool): Place {
    match (stage, success)
    case (Dev, _) => if development then InStore(DEV_COMPLETE) else SupportDone
    case (Qa, true) => InStore(QA_COMPLETE)
    case (Qa, false) => InStore(PENDING)
    case (Tool, true) => Delivered
    case (Tool, false) => InStore(QA_COMPLETE)
  }

  lemma RouteStep(plan: Plan, f: Flow, stage: Stage, k: nat)
    requires Inv(plan, f) && Enabled(f, Route(stage, k))
    ensures RouteFirst(f, stage, k).Ok? && Inv(plan, RouteFirst(f, stage, k).value)
    ensures var id, success := DeskOf(f, stage).working[k].tasks[0], DeskOf(f, stage).working[k].success.value;
            id in f.cards &&
            Moves(f, RouteFirst(f, stage, k).value, [id], Working(stage),
                  Onward(stage, success, f.cards[id].development))
  {
    hide CardOk, Located, CardsOk, DeskOk, AlarmOk, Contents, Moves, RouteCard, Complete, Enter;
    Unfold(plan, f);
    WorkingShift(plan, f, stage, k);
    DeskAt(plan, f, stage);
    var shift := DeskOf(f, stage).working[k];
    var id, success := shift.tasks[0], shift.success.value;
    assert id in shift.tasks;
    CardAt(plan, f, id);
    RouteCardOk(f.cards[id], f.now, stage, success);
    var c := RouteCard(f.cards[id], f.now, stage, success).value;
    var to := Destination(stage, success, f.cards[id].development);
    RoutedKind(c, f.now);
    if to.Delivered? { RoomToDeliver(plan, f, id); }
    var m := SetDesk(f, stage, DeskOf(f, stage).(working := AfterRoute(DeskOf(f, stage).working, k)));
    EnterGives(m, id, c);
    assert RouteFirst(f, stage, k) == Enter(m, id, c);
    var g := RouteFirst(f, stage, k).value;
    RouteMoves(f, g, stage, k, id, c);
    MovesLocated(f, g, [id], Working(stage), to);
    CardsChanged(f, g, [id]);
    RoutedDesks(plan, f, g, stage, k, c);
    RoutedAlarm(f, g, id, c);
  }

  /** The working shifts once the first task of one of them has been routed. */
  function AfterRoute(working: seq<Shift>, k: nat): seq<Shift>
    requires k < |working| && working[k].tasks != []
  {
    var rest := working[k].tasks[1..];
    if rest == [] then Workflow.Without(working, k) else working[k := working[k].(tasks := rest)]
  }

  lemma RoutedKind(c: Card, now: real)
    requires CardOk(c, now) && (c.place.InStore? || c.place.Delivered? || c.place.SupportDone?)
    ensures c.place.Delivered? ==> c.development
    ensures c.place.InStore? ==> c.place.state == PENDING || c.place.state == DEV_COMPLETE || c.place.state == QA_COMPLETE
  {
    hide LedgerOk;
  }

  lemma EnterGives(m: Flow, id: nat, c: Card)
    requires c.place.InStore? || c.place.SupportDone? || (c.place.Delivered? && m.fired.None?)
    ensures var r := Enter(m, id, c);
            && r.Ok?
            && r.value == m.(cards := m.cards[id := c], stores := r.value.stores, delivered := r.value.delivered,
                             supportDone := r.value.supportDone, fired := r.value.fired)
            && (if c.place.InStore? then r.value.stores == m.stores[c.place.state := StoreOf(m, c.place.state) + [id]]
                else r.value.stores == m.stores)
            && r.value.delivered == (if c.place.Delivered? then m.delivered + [id] else m.delivered)
            && r.value.supportDone == (if c.place.SupportDone? then m.supportDone + [id] else m.supportDone)
            && r.value.fired == (if c.place.Delivered?
                                 then if |m.delivered| + 1 == m.limit then Some(m.delivered + [id]) else None
                                 else m.fired)
  {
  }

  /** A development task that is not delivered yet leaves room below the alarm's limit. */
  lemma RoomToDeliver(plan: Plan, f: Flow, id: nat)
    requires Inv(plan, f) && id in f.cards && f.cards[id].development && f.cards[id].place != Delivered
    ensures |f.delivered| < f.limit && f.fired.None?
  {
    hide DeskOk, CardOk;
    HeldAt(f, Delivered);
    var order := f.delivered + [id];
    DistinctConcat(f.delivered, [id]);
    var all := seq(f.limit, i => i);
    forall x | x in order ensures x in all {
      var y: nat := x;
      DeliveredIsDevelopment(plan, f, y);
      assert all[y] == y;
    }
    DistinctShorter(order, all);
  }

  lemma DeliveredIsDevelopment(plan: Plan, f: Flow, id: nat)
    requires Inv(plan, f) && id in f.cards && (f.cards[id].place == Delivered || f.cards[id].development)
    ensures id < f.limit
  {
    hide LedgerOk, DeskOk, Located, AlarmOk;
    CardAt(plan, f, id);
  }

  lemma RouteMoves(f: Flow, g: Flow, stage: Stage, k: nat, id: nat, c: Card)
    requires k < |DeskOf(f, stage).working| && DeskOf(f, stage).working[k].tasks != []
    requires id == DeskOf(f, stage).working[k].tasks[0] && id in f.cards
    requires c.place.InStore? || c.place.SupportDone? || c.place.Delivered?
    requires g.cards == f.cards[id := c]
    requires g.desks == f.desks[stage := DeskOf(f, stage).(working := AfterRoute(DeskOf(f, stage).working, k))]
    requires if c.place.InStore? then g.stores == f.stores[c.place.state := StoreOf(f, c.place.state) + [id]]
             else g.stores == f.stores
    requires g.delivered == (if c.place.Delivered? then f.delivered + [id] else f.delivered)
    requires g.supportDone == (if c.place.SupportDone? then f.supportDone + [id] else f.supportDone)
    ensures Moves(f, g, [id], Working(stage), c.place)
  {
    hide Flatten, Distinct;
    ShiftLoses(DeskOf(f, stage).working, k);
    hide TakesOut, AfterRoute;
    forall r: Place | r != Working(stage) && r != c.place ensures Contents(g, r) == Contents(f, r) {
    }
  }

  lemma ShiftLoses(working: seq<Shift>, k: nat)
    requires k < |working| && working[k].tasks != []
    ensures TakesOut(Flatten(TasksOf(working)), Flatten(TasksOf(AfterRoute(working, k))), [working[k].tasks[0]])
  {
    hide Flatten, Distinct;
    var bs, rest := TasksOf(working), working[k].tasks[1..];
    var a, c := Flatten(bs[..k]), Flatten(bs[k + 1..]);
    var first := [working[k].tasks[0]];
    FlattenAt(bs, k, bs[k]);
    assert bs[k := bs[k]] == bs;
    assert bs[k] == first + rest;
    assert a + bs[k] + c == a + first + (rest + c);
    FlattenAt(bs, k, rest);
    if rest == [] {
      assert TasksOf(AfterRoute(working, k)) == Workflow.Without(bs, k);
      assert a + c == a + (rest + c);
    } else {
      assert TasksOf(AfterRoute(working, k)) == bs[k := rest];
      assert a + rest + c == a + (rest + c);
    }
    MiddleOut(a, first, rest + c);
  }

  lemma RoutedDesks(plan: Plan, f: Flow, g: Flow, stage: Stage, k: nat, c: Card)
    requires Inv(plan, f) && k < |DeskOf(f, stage).working| && DeskOf(f, stage).working[k].tasks != []
    requires DeskOf(f, stage).working[k].tasks[0] in f.cards
    requires g.cards == f.cards[DeskOf(f, stage).working[k].tasks[0] := c]
    requires c.points == f.cards[DeskOf(f, stage).working[k].tasks[0]].points
    requires c.completed == f.cards[DeskOf(f, stage).working[k].tasks[0]].completed
    requires g.desks == f.desks[stage := DeskOf(f, stage).(working := AfterRoute(DeskOf(f, stage).working, k))]
    ensures forall s: Stage :: DeskOk(plan, g, s)
  {
    hide CardsOk, AlarmOk, ShiftOk, Located, DeskOk;
    DeskAt(plan, f, stage);
    var working, after := DeskOf(f, stage).working, AfterRoute(DeskOf(f, stage).working, k);
    forall j | 0 <= j < |after| ensures ShiftOk(f.cards, stage, after[j]) {
      ShiftAfterRoute(f.cards, stage, working, k, j);
    }
    DesksSameWork(plan, f, g, stage);
  }

  lemma ShiftAfterRoute(cards: map<nat, Card>, stage: Stage, working: seq<Shift>, k: nat, j: nat)
    requires k < |working| && working[k].tasks != [] && j < |AfterRoute(working, k)|
    requires forall i :: 0 <= i < |working| ==> ShiftOk(cards, stage, working[i])
    ensures ShiftOk(cards, stage, AfterRoute(working, k)[j])
  {
    var rest := working[k].tasks[1..];
    assert ShiftOk(cards, stage, working[k]);
    assert forall i :: 0 <= i < |rest| ==> rest[i] == working[k].tasks[i + 1];
    if rest == [] {
      assert AfterRoute(working, k)[j] == working[if j < k then j else j + 1];
    } else if j != k {
      assert AfterRoute(working, k)[j] == working[j];
    }
  }

  lemma RoutedAlarm(f: Flow, g: Flow, id: nat, c: Card)
    requires AlarmOk(f) && id in f.cards && g.cards == f.cards[id := c]
    requires g.limit == f.limit && g.nextTask == f.nextTask
    requires c.place.Delivered? ==> |f.delivered| < f.limit
    requires g.delivered == (if c.place.Delivered? then f.delivered + [id] else f.delivered)
    requires g.fired == (if c.place.Delivered?
                         then if |f.delivered| + 1 == f.limit then Some(f.delivered + [id]) else None
                         else f.fired)
    ensures AlarmOk(g)
  {
  }

  // ---------------------------------------------------------------------------------------------
  // Support tasks

  lemma ArriveStep(plan: Plan, f: Flow, points: real, terms: Terms)
    requires Inv(plan, f) && Enabled(f, Support(points, terms))
    ensures Arrive(f, points, terms).Ok? && Inv(plan, Arrive(f, points, terms).value)
  {
    hide CardOk, Located, CardsOk, DeskOk, AlarmOk, Contents, Enter;
    Unfold(plan, f);
    var id := f.nextTask;
    NewTask(plan, f);
    FirstStart(terms, PENDING, false);
    var c := Card(false, terms, points, 0.0, StartLog(terms, [], f.now, PENDING, false).value, false, None, [],
                  InStore(PENDING), None);
    SupportCardOk(c, f.now);
    var m := f.(nextTask := id + 1);
    EnterGives(m, id, c);
    var g := Enter(m, id, c).value;
    ArrivedLocated(f, g, id, c);
    ArrivedCards(f, g, id, c);
    forall s: Stage ensures DeskOk(plan, g, s) { ArrivedDesk(plan, f, g, id, c, s); }
    ArrivedAlarm(f, g, id, c);
  }

  lemma NewTask(plan: Plan, f: Flow)
    requires CardsOk(f) && AlarmOk(f)
    ensures f.nextTask !in f.cards && f.limit <= f.nextTask
  {
    hide CardOk;
  }

  lemma SupportCardOk(c: Card, now: real)
    requires !c.development && c.points >= 0.0 && c.completed == 0.0 && c.place == InStore(PENDING)
    requires c.terms.initial >= 0.0 && c.terms.epochStart == now
    requires GapFree(c.terms, c.log) && LastIs(c.log, START, PENDING) && Last(c.log).time == 0.0
    requires c.delivered.None?
    ensures CardOk(c, now)
  {
    hide GapFree;
  }

  lemma ArrivedLocated(f: Flow, g: Flow, id: nat, c: Card)
    requires Located(f) && id !in f.cards && c.place == InStore(PENDING)
    requires g.cards == f.cards[id := c] && g.desks == f.desks
    requires g.stores == f.stores[PENDING := StoreOf(f, PENDING) + [id]]
    requires g.delivered == f.delivered && g.supportDone == f.supportDone
    ensures Located(g)
  {
    hide Distinct, Flatten;
    forall r: Place ensures Holds(Contents(g, r), g.cards, r) {
      HeldAt(f, r);
      if r == InStore(PENDING) {
        assert Distinct(Contents(f, r)) && id !in Contents(f, r);
        AddDistinct(Contents(f, r), id);
      }
    }
  }

  lemma AddDistinct(s: seq<nat>, id: nat)
    requires Distinct(s) && id !in s
    ensures Distinct(s + [id])
  {
    DistinctConcat(s, [id]);
  }

  lemma ArrivedCards(f: Flow, g: Flow, id: nat, c: Card)
    requires CardsOk(f) && id == f.nextTask && f.limit <= id && CardOk(c, f.now) && !c.development
    requires g.cards == f.cards[id := c] && g.now == f.now && g.nextTask == id + 1 && g.limit == f.limit
    ensures CardsOk(g)
  {
    hide CardOk;
  }

  lemma ArrivedDesk(plan: Plan, f: Flow, g: Flow, id: nat, c: Card, s: Stage)
    requires DeskOk(plan, f, s) && id !in f.cards && g.cards == f.cards[id := c] && g.desks == f.desks
    ensures DeskOk(plan, g, s)
  {
    hide ShiftOk;
    forall j | 0 <= j < |DeskOf(g, s).working| ensures ShiftOk(g.cards, s, DeskOf(g, s).working[j]) {
      ShiftSameWork(f.cards, g.cards, s, DeskOf(f, s).working[j]);
    }
  }

  lemma ArrivedAlarm(f: Flow, g: Flow, id: nat, c: Card)
    requires AlarmOk(f) && g.cards == f.cards[id := c] && g.limit == f.limit && g.nextTask == f.nextTask + 1
    requires g.delivered == f.delivered && g.fired == f.fired
    ensures AlarmOk(g)
  {
  }
}
