/** In every run of the workflow: no task is lost or doubled, no record is refused, and the alarm tells the truth. */
module WorkflowProofs {
  import opened Common
  import opened TaskLedger
  import opened Work
  import opened Workflow

  // ---------------------------------------------------------------------------------------------
  // One task

  ghost predicate LedgerOk(c: Card, now: real) {
    && c.terms.initial >= 0.0 && GapFree(c.terms, c.log) && c.log != []
    && Last(c.log).time <= now - c.terms.epochStart
  }

  /** The last thing a task's log says is where the task is. */
  predicate LogPlaces(c: Card) {
    match c.place
    case InStore(s) => LastIs(c.log, START, s)
    case Queued(stage) => LastIs(c.log, START, Source(stage))
    case Waiting(stage) => LastIs(c.log, START, Source(stage))
    case Working(stage) => LastIs(c.log, START, WorkState(stage))
    case Delivered => LastIs(c.log, TERMINAL, DELIVERY)
    case SupportDone => LastIs(c.log, TERMINAL, SUPPORT_COMPLETE)
  }

  predicate AtDev(p: Place) { p == InStore(PENDING) || p == Queued(Dev) || p == Waiting(Dev) }

  predicate PastDev(p: Place) {
    match p
    case InStore(s) => s != PENDING
    case Queued(stage) => !stage.Dev?
    case Waiting(stage) => !stage.Dev?
    case Working(stage) => !stage.Dev?
    case Delivered => true
    case SupportDone => false
  }

  predicate Complete(c: Card) { c.completed == c.points }

  predicate WorkOk(c: Card) {
    Piece(c.points, c.completed).InRange() && (PastDev(c.place) && c.place != Working(Qa) ==> Complete(c))
  }

  /** Support tasks end after development; everything beyond it is a development task. */
  predicate KindOk(c: Card) {
    && (PastDev(c.place) ==> c.development)
    && (c.place == SupportDone ==> !c.development)
    && (c.place.InStore? ==> c.place.state == PENDING || c.place.state == DEV_COMPLETE || c.place.state == QA_COMPLETE)
  }

  /** A development task has one developer, and is rework exactly when it is back where it was developed before. */
  predicate OwnerOk(c: Card) {
    c.development ==>
      && (c.owner.Some? <==> c.visits != [])
      && (forall k :: 0 <= k < |c.visits| ==> c.owner == Some(c.visits[k]))
      && (if AtDev(c.place) then c.rework <==> c.visits != [] else c.visits != [])
  }

  /** A closed log fixes the value the task had at that time; an open one fixes none. */
  predicate ValueOk(c: Card) {
    c.log != [] &&
    c.delivered == if c.place.Delivered? || c.place.SupportDone? then Some(ValueAt(c.terms, Last(c.log).time)) else None
  }

  ghost predicate CardOk(c: Card, now: real) {
    LedgerOk(c, now) && ValueOk(c) && LogPlaces(c) && WorkOk(c) && KindOk(c) && OwnerOk(c)
  }

  lemma TakeCardOk(c: Card, now: real, stage: Stage)
    requires CardOk(c, now) && c.place == InStore(Source(stage))
    ensures TakeCard(c, now, stage) == Ok(c.(place := Queued(stage)))
    ensures CardOk(c.(place := Queued(stage)), now) && CardOk(c.(place := Waiting(stage)), now)
  {
    hide GapFree;
    TakenUp(c.terms, c.log, now, Source(stage), c.rework);
  }

  lemma BeginCardOk(c: Card, now: real, stage: Stage, free: nat)
    requires CardOk(c, now) && c.place == Waiting(stage)
    ensures Assignee(stage, c, free).Some?
    ensures var r := BeginCard(c, now, stage, Assignee(stage, c, free).value);
            && r.Ok? && CardOk(r.value, now) && r.value.place == Working(stage)
            && r.value.points == c.points && r.value.completed == c.completed && r.value.development == c.development
            && r.value.terms == c.terms
  {
    hide GapFree;
    StageOver(c.terms, c.log, now, None, SUCCESS, c.rework, WorkState(stage), c.rework);
  }

  lemma FinishCardOk(plan: Plan, c: Card, now: real, stage: Stage, success: bool)
    requires CardOk(c, now) && c.place == Working(stage) && 0.0 <= plan.failureCost <= 1.0
    requires stage.Dev? ==> success
    requires stage.Qa? ==> Complete(c)
    ensures var r := FinishCard(plan, c, stage, success);
            && r.Some? && CardOk(r.value, now) && r.value == c.(completed := r.value.completed)
            && ((stage.Qa? && !success) || Complete(r.value))
            && (stage.Qa? && !success ==> r.value.points - r.value.completed == c.points * plan.failureCost)
  {
    hide GapFree;
    if stage.Qa? && !success { RegressionRaisesIff(Piece(c.points, c.completed), plan.failureCost); }
  }

  lemma RouteCardOk(c: Card, now: real, stage: Stage, success: bool)
    requires CardOk(c, now) && c.place == Working(stage) && (stage.Dev? ==> success)
    requires stage.Dev? || (stage.Qa? && success) ==> Complete(c)
    ensures var r := RouteCard(c, now, stage, success);
            && r.Ok? && CardOk(r.value, now) && r.value.place == Destination(stage, success, c.development)
            && r.value.development == c.development && r.value.points == c.points && r.value.completed == c.completed
            && r.value.rework == !success && r.value.owner == c.owner && r.value.visits == c.visits
            && |r.value.log| == |c.log| + 2 && c.log == r.value.log[..|c.log|]
            && var end := r.value.log[|c.log|];
            && end.kind == END && end.status == (if success then SUCCESS else FAILURE)
            && end.time == Last(r.value.log).time == now - c.terms.epochStart && Last(r.value.log).rework == !success
  {
    hide GapFree;
    var to := Destination(stage, success, c.development);
    if to.InStore? {
      StageOver(c.terms, c.log, now, Some(WorkState(stage)), if success then SUCCESS else FAILURE, c.rework,
                to.state, !success);
    } else {
      StageDelivered(c.terms, c.log, now, WorkState(stage), c.rework, EntryState(to), !success);
    }
  }

  // ---------------------------------------------------------------------------------------------
  // Places

  function Flatten(bs: seq<seq<nat>>): seq<nat> {
    if bs == [] then [] else bs[0] + Flatten(bs[1..])
  }

  function TasksOf(ws: seq<Shift>): seq<seq<nat>> {
    seq(|ws|, k requires 0 <= k < |ws| => ws[k].tasks)
  }

  function Contents(f: Flow, p: Place): seq<nat> {
    match p
    case InStore(s) => StoreOf(f, s)
    case Queued(stage) => DeskOf(f, stage).queue
    case Waiting(stage) => Flatten(DeskOf(f, stage).waiting)
    case Working(stage) => Flatten(TasksOf(DeskOf(f, stage).working))
    case Delivered => f.delivered
    case SupportDone => f.supportDone
  }

  /** A place holds exactly the tasks that are there, each once. */
  ghost predicate Holds(s: seq<nat>, cards: map<nat, Card>, p: Place) {
    Distinct(s) && forall id :: id in s <==> id in cards && cards[id].place == p
  }

  ghost predicate Located(f: Flow) {
    forall p: Place :: Holds(Contents(f, p), f.cards, p)
  }

  lemma {:induction false} FlattenSplit(a: seq<seq<nat>>, b: seq<seq<nat>>)
    ensures Flatten(a + b) == Flatten(a) + Flatten(b)
  {
    if a == [] {
      assert a + b == b;
    } else {
      assert (a + b)[1..] == a[1..] + b;
      FlattenSplit(a[1..], b);
    }
  }

  lemma FlattenAt(bs: seq<seq<nat>>, k: nat, b: seq<nat>)
    requires k < |bs|
    ensures Flatten(bs[k := b]) == Flatten(bs[..k]) + b + Flatten(bs[k + 1..])
    ensures Flatten(Workflow.Without(bs, k)) == Flatten(bs[..k]) + Flatten(bs[k + 1..])
  {
    assert bs[k := b] == bs[..k] + ([b] + bs[k + 1..]);
    FlattenSplit(bs[..k], [b] + bs[k + 1..]);
    assert ([b] + bs[k + 1..])[1..] == bs[k + 1..];
    FlattenSplit(bs[..k], bs[k + 1..]);
  }

  lemma FlattenAdd(bs: seq<seq<nat>>, b: seq<nat>)
    ensures Flatten(bs + [b]) == Flatten(bs) + b
  {
    FlattenSplit(bs, [b]);
    assert [b][1..] == [];
    assert Flatten([b]) == b;
  }

  ghost predicate TakesOut(a: seq<nat>, b: seq<nat>, ids: seq<nat>) {
    Distinct(a) ==> Distinct(ids) && Distinct(b) && (forall id :: id in a <==> id in b || id in ids)
                    && forall id :: id in ids ==> id !in b
  }

  lemma MiddleOut(a: seq<nat>, ids: seq<nat>, c: seq<nat>)
    ensures TakesOut(a + ids + c, a + c, ids)
  {
    var whole := a + ids + c;
    if Distinct(whole) {
      assert forall i :: 0 <= i < |a| ==> whole[i] == a[i];
      assert forall i :: 0 <= i < |ids| ==> whole[|a| + i] == ids[i];
      assert forall i :: 0 <= i < |c| ==> whole[|a| + |ids| + i] == c[i];
      forall i, j | 0 <= i < j < |a + c| ensures (a + c)[i] != (a + c)[j] {
        var i', j' := if i < |a| then i else i + |ids|, if j < |a| then j else j + |ids|;
        assert whole[i'] == (a + c)[i] && whole[j'] == (a + c)[j];
      }
      forall i, j | 0 <= i < j < |ids| ensures ids[i] != ids[j] { assert whole[|a| + i] != whole[|a| + j]; }
    }
  }

  /** Tasks move from one place to another and nothing else moves. */
  ghost predicate Moves(f: Flow, g: Flow, ids: seq<nat>, p: Place, q: Place) {
    && p != q && g.cards.Keys == f.cards.Keys
    && (forall id :: id in f.cards && id !in ids ==> g.cards[id].place == f.cards[id].place)
    && (forall id :: id in ids ==> id in g.cards && g.cards[id].place == q)
    && (forall r: Place :: r != p && r != q ==> Contents(g, r) == Contents(f, r))
    && TakesOut(Contents(f, p), Contents(g, p), ids)
    && Contents(g, q) == Contents(f, q) + ids
  }

  lemma MovesLocated(f: Flow, g: Flow, ids: seq<nat>, p: Place, q: Place)
    requires Located(f) && Moves(f, g, ids, p, q)
    ensures Located(g)
  {
    hide Contents, Distinct;
    assert Holds(Contents(f, p), f.cards, p) && Holds(Contents(f, q), f.cards, q);
    forall r: Place ensures Holds(Contents(g, r), g.cards, r) {
      assert Holds(Contents(f, r), f.cards, r);
      if r == q {
        DistinctConcat(Contents(f, q), ids);
      }
    }
  }

  lemma SamePlaces(f: Flow, g: Flow)
    requires Located(f) && g.cards.Keys == f.cards.Keys
    requires forall id :: id in f.cards ==> g.cards[id].place == f.cards[id].place
    requires forall r: Place :: Contents(g, r) == Contents(f, r)
    ensures Located(g)
  {
    hide Contents, Distinct;
    forall r: Place ensures Holds(Contents(g, r), g.cards, r) { assert Holds(Contents(f, r), f.cards, r); }
  }

  // ---------------------------------------------------------------------------------------------
  // The whole flow

  ghost predicate CardsOk(f: Flow) {
    forall id :: id in f.cards ==> CardOk(f.cards[id], f.now) && id < f.nextTask
                                   && (f.cards[id].development <==> id < f.limit)
  }

  predicate ShiftOk(cards: map<nat, Card>, stage: Stage, s: Shift) {
    && s.tasks != [] && (!stage.Tool? ==> |s.tasks| == 1)
    && (stage.Dev? ==> s.success != Some(false))
    && forall i :: 0 <= i < |s.tasks| ==>
         s.tasks[i] in cards
         && (match stage
             case Dev => s.success.Some? ==> Complete(cards[s.tasks[i]])
             case Qa => s.success == Some(false) || Complete(cards[s.tasks[i]])
             case Tool => true)
  }

  ghost predicate DeskOk(plan: Plan, f: Flow, stage: Stage) {
    var d := DeskOf(f, stage);
    && (!Batched(plan, stage) ==> d.queue == [])
    && (forall k :: 0 <= k < |d.waiting| ==> d.waiting[k] != [] && (!stage.Tool? ==> |d.waiting[k]| == 1))
    && (forall k :: 0 <= k < |d.working| ==> ShiftOk(f.cards, stage, d.working[k]))
  }

  ghost predicate AlarmOk(f: Flow) {
    && 1 <= f.limit <= f.nextTask && (forall id :: 0 <= id < f.limit ==> id in f.cards)
    && |f.delivered| <= f.limit
    && f.fired == if |f.delivered| == f.limit then Some(f.delivered) else None
  }

  ghost predicate Inv(plan: Plan, f: Flow) {
    && 0.0 <= plan.failureCost <= 1.0
    && Located(f) && CardsOk(f) && (forall stage: Stage :: DeskOk(plan, f, stage)) && AlarmOk(f)
  }
}
