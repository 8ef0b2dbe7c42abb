/** What a finished simulation reports: totals, loss and the log of all its tasks. */
module Summary {
  import opened Common
  import opened TaskLedger
  import opened Workflow
  import opened WorkflowProofs
  import opened WorkflowSteps
  import opened WorkflowTheorems

  datatype Finished = Finished(terms: Terms, log: Log, delivered: Option<real>)

  datatype Report = Report(delivered: real, loss: real, events: Log)

  function InitialValue(ts: seq<Finished>): real {
    if ts == [] then 0.0 else InitialValue(ts[..|ts| - 1]) + ts[|ts| - 1].terms.initial
  }

  function DeliveredValue(ts: seq<Finished>): real {
    if ts == [] then 0.0
    else
      DeliveredValue(ts[..|ts| - 1])
      + if ts[|ts| - 1].delivered.Some? then ts[|ts| - 1].delivered.value else 0.0
  }

  /** The tasks' own losses, each weighted with its initial value. */
  function WeightedLoss(ts: seq<Finished>): real {
    if ts == [] then 0.0
    else WeightedLoss(ts[..|ts| - 1]) + ts[|ts| - 1].terms.initial * LossSum(ts[|ts| - 1].log)
  }

  function AllEvents(ts: seq<Finished>): Log {
    if ts == [] then [] else AllEvents(ts[..|ts| - 1]) + ts[|ts| - 1].log
  }

  /** The log of everything is the tasks' logs, one after the other and each whole. */
  lemma {:induction false} EventsAreLogs(ts: seq<Finished>, k: nat)
    requires k < |ts|
    ensures AllEvents(ts) == AllEvents(ts[..k]) + ts[k].log + AllEvents(ts[k + 1..])
    decreases |ts|
  {
    var n := |ts| - 1;
    if k < n {
      EventsAreLogs(ts[..n], k);
      assert ts[..n][..k] == ts[..k] && ts[..n][k + 1..] == ts[k + 1..][..n - k - 1];
      assert ts[k + 1..][n - k - 1] == ts[n];
    } else {
      assert ts[k + 1..] == [];
    }
  }

  function Flat(groups: seq<seq<Finished>>): seq<Finished> {
    if groups == [] then [] else Flat(groups[..|groups| - 1]) + groups[|groups| - 1]
  }

  /** What a list of tasks adds up to. */
  function ReportOf(ts: seq<Finished>): Report {
    var initial, delivered := InitialValue(ts), DeliveredValue(ts);
    Report(delivered, if initial == 0.0 then 0.0 else (delivered - initial) / initial, AllEvents(ts))
  }

  /** Adds up the tasks that the completion event carries. */
  method ProcessResults(groups: seq<seq<Finished>>) returns (r: Report)
    ensures r == ReportOf(Flat(groups))
  {
    var initial, delivered, events := 0.0, 0.0, [];
    for g := 0 to |groups|
      invariant initial == InitialValue(Flat(groups[..g])) && delivered == DeliveredValue(Flat(groups[..g]))
      invariant events == AllEvents(Flat(groups[..g]))
    {
      ghost var before := Flat(groups[..g]);
      var tasks := groups[g];
      assert before + tasks[..0] == before;
      for i := 0 to |tasks|
        invariant initial == InitialValue(before + tasks[..i]) && delivered == DeliveredValue(before + tasks[..i])
        invariant events == AllEvents(before + tasks[..i])
      {
        OneMore(before, tasks, i);
        initial := initial + tasks[i].terms.initial;
        if tasks[i].delivered.Some? {
          delivered := delivered + tasks[i].delivered.value;
        }
        events := events + tasks[i].log;
      }
      assert tasks[..|tasks|] == tasks && groups[..g + 1][..g] == groups[..g];
    }
    assert groups[..|groups|] == groups;
    r := Report(delivered, if initial == 0.0 then 0.0 else (delivered - initial) / initial, events);
  }

  lemma OneMore(before: seq<Finished>, tasks: seq<Finished>, i: nat)
    requires i < |tasks|
    ensures var ts, us := before + tasks[..i], before + tasks[..i + 1];
            && InitialValue(us) == InitialValue(ts) + tasks[i].terms.initial
            && DeliveredValue(us) == DeliveredValue(ts) + (if tasks[i].delivered.Some? then tasks[i].delivered.value else 0.0)
            && AllEvents(us) == AllEvents(ts) + tasks[i].log
  {
    var us := before + tasks[..i + 1];
    assert us[..|us| - 1] == before + tasks[..i] && us[|us| - 1] == tasks[i];
  }

  /** A delivered task: its log is gap-free and closed, and its delivered value is its value at that time. */
  ghost predicate DeliveredOk(t: Finished) {
    && Depreciates(t.terms.decay) && GapFree(t.terms, t.log) && t.log != [] && Last(t.log).kind == TERMINAL
    && t.delivered == Some(ValueAt(t.terms, Last(t.log).time))
  }

  /** The total change of value is the sum of the stage losses, each weighted with its task's initial value. */
  lemma {:induction false} LossIsWeighted(ts: seq<Finished>)
    requires forall i :: 0 <= i < |ts| ==> DeliveredOk(ts[i])
    ensures DeliveredValue(ts) - InitialValue(ts) == WeightedLoss(ts)
  {
    hide GapFree, Depreciates;
    if ts != [] {
      var t := ts[|ts| - 1];
      assert DeliveredOk(t);
      DeliveredLoss(t.terms, t.log);
      LossIsWeighted(ts[..|ts| - 1]);
    }
  }

  // ---------------------------------------------------------------------------------------------
  // The report of a run of the workflow

  function FinishedOf(c: Card): Finished { Finished(c.terms, c.log, c.delivered) }

  predicate Known(f: Flow, ids: seq<nat>) { forall k :: 0 <= k < |ids| ==> ids[k] in f.cards }

  /** The tasks with these ids, as the report reads them. */
  function Records(f: Flow, ids: seq<nat>): seq<Finished>
    requires Known(f, ids)
  {
    seq(|ids|, k requires 0 <= k < |ids| => FinishedOf(f.cards[ids[k]]))
  }

  /** No task is forgotten, none changes what it is worth, and the number of submitted ones stays. */
  ghost predicate SameSubmission(f: Flow, g: Flow) {
    g.limit == f.limit && forall id :: id in f.cards ==> id in g.cards && g.cards[id].terms == f.cards[id].terms
  }

  lemma {:induction false} BeginAllTerms(cards: map<nat, Card>, ids: seq<nat>, now: real, stage: Stage, free: nat)
    requires BeginAll(cards, ids, now, stage, free).Ok?
    ensures var b := BeginAll(cards, ids, now, stage, free).value;
            forall id :: id in cards ==> id in b && b[id].terms == cards[id].terms
    decreases |ids|
  {
    hide StartLog, EndLog;
    if ids != [] {
      var c := BeginCard(cards[ids[0]], now, stage, Assignee(stage, cards[ids[0]], free).value).value;
      BeginAllTerms(cards[ids[0] := c], ids[1..], now, stage, free);
    }
  }

  lemma {:induction false} FinishAllTerms(plan: Plan, cards: map<nat, Card>, ids: seq<nat>, stage: Stage, success: bool)
    requires FinishAll(plan, cards, ids, stage, success).Ok?
    ensures var b := FinishAll(plan, cards, ids, stage, success).value;
            forall id :: id in cards ==> id in b && b[id].terms == cards[id].terms
    decreases |ids|
  {
    if ids != [] {
      var c := FinishCard(plan, cards[ids[0]], stage, success).value;
      FinishAllTerms(plan, cards[ids[0] := c], ids[1..], stage, success);
    }
  }

  lemma StepSubmission(plan: Plan, f: Flow, ev: Event)
    requires Inv(plan, f) && Enabled(f, ev) && Next(plan, f, ev).Ok?
    ensures SameSubmission(f, Next(plan, f, ev).value)
  {
    if ev.Support? {
      hide Located, CardsOk, DeskOk, AlarmOk, StartLog;
      Unfold(plan, f);
      NewTask(plan, f);
    } else {
      hide Inv;
      KnownTasks(plan, f, ev);
    }
  }

  lemma KnownTasks(plan: Plan, f: Flow, ev: Event)
    requires Enabled(f, ev) && Next(plan, f, ev).Ok? && !ev.Support?
    ensures SameSubmission(f, Next(plan, f, ev).value)
  {
    hide StartLog, EndLog, TerminateLog, ResumeLog, BeginAll, FinishAll, AllRouted;
    match ev {
      case Begin(stage, k, free) => BeginAllTerms(f.cards, DeskOf(f, stage).waiting[k], f.now, stage, free);
      case Finish(stage, k, success) => FinishAllTerms(plan, f.cards, DeskOf(f, stage).working[k].tasks, stage, success);
      case _ =>
    }
  }

  lemma {:induction false} RunSubmission(plan: Plan, f: Flow, events: seq<Event>, g: Flow)
    requires Inv(plan, f) && Leads(plan, f, events, g)
    ensures SameSubmission(f, g)
    decreases |events|
  {
    hide Inv, Next, Enabled;
    if events != [] {
      StepInv(plan, f, events[0]);
      StepSubmission(plan, f, events[0]);
      RunSubmission(plan, Next(plan, f, events[0]).value, events[1..], g);
    }
  }

  /** What the alarm carries: each submitted task once, with its own terms, a closed log and its delivered value. */
  lemma CarriedOk(plan: Plan, now: real, terms: seq<Terms>, points: seq<real>, events: seq<Event>, f: Flow)
    requires CanStart(plan, now, terms, points) && Leads(plan, Initial(now, terms, points), events, f)
    requires f.fired.Some? && forall i :: 0 <= i < |terms| ==> Depreciates(terms[i].decay)
    ensures var ids := f.fired.value;
            && Distinct(ids) && (forall id :: id in ids <==> 0 <= id < |terms|) && Known(f, ids)
            && forall k :: 0 <= k < |ids| ==>
                 ids[k] < |terms| && Records(f, ids)[k].terms == terms[ids[k]] && DeliveredOk(Records(f, ids)[k])
  {
    hide Inv, Leads, DeliveredOk, Distinct;
    var start := Initial(now, terms, points);
    InitialInv(plan, now, terms, points);
    RunSubmission(plan, start, events, f);
    assert Starts(plan, start) && Reached(plan, f);
    hide CanStart, Starts, Reached;
    AlarmIsExact(plan, f);
    var ids: seq<nat> := f.fired.value;
    forall k | 0 <= k < |ids|
      ensures ids[k] < |terms| && ids[k] in f.cards && f.cards[ids[k]].terms == terms[ids[k]] && DeliveredOk(FinishedOf(f.cards[ids[k]]))
    {
      assert ids[k] in ids && ids[k] in start.cards;
      DeliveredRecord(plan, f, ids[k]);
    }
    assert forall k :: 0 <= k < |ids| ==> Records(f, ids)[k] == FinishedOf(f.cards[ids[k]]);
    assert forall k :: 0 <= k < |ids| ==> ids[k] in ids;
  }

  lemma DeliveredRecord(plan: Plan, f: Flow, id: nat)
    requires Reached(plan, f) && id in f.delivered && id in f.cards && Depreciates(f.cards[id].terms.decay)
    ensures DeliveredOk(FinishedOf(f.cards[id]))
  {
    ReachedInv(plan, f);
    hide Reached;
    hide DeskOk, AlarmOk, GapFree, Depreciates;
    HeldAt(f, Delivered);
    CardAt(plan, f, id);
  }

  /**
   * In any run whose alarm has gone off, the reported loss is the mean of the submitted tasks' own losses, weighted
   * with their initial values, and 0 when nothing was worth anything; the alarm carries each submitted task once.
   */
  lemma ReportedLossIsMean(plan: Plan, now: real, terms: seq<Terms>, points: seq<real>, events: seq<Event>, f: Flow)
    requires CanStart(plan, now, terms, points) && Leads(plan, Initial(now, terms, points), events, f)
    requires f.fired.Some? && forall i :: 0 <= i < |terms| ==> Depreciates(terms[i].decay)
    ensures var ids := f.fired.value;
            && Distinct(ids) && (forall id :: id in ids <==> 0 <= id < |terms|) && Known(f, ids)
            && var ts := Records(f, ids);
            && ReportOf(ts).loss == (if InitialValue(ts) == 0.0 then 0.0 else WeightedLoss(ts) / InitialValue(ts))
            && ReportOf(ts).delivered == InitialValue(ts) + WeightedLoss(ts)
  {
    hide DeliveredOk, Leads, CanStart, Distinct;
    CarriedOk(plan, now, terms, points, events, f);
    LossIsWeighted(Records(f, f.fired.value));
  }

  /** The report made when a run of the workflow has come to its end. */
  method ReportRun(plan: Plan, f: Flow, ghost now: real, ghost terms: seq<Terms>, ghost points: seq<real>,
                   ghost events: seq<Event>)
    returns (r: Report)
    requires CanStart(plan, now, terms, points) && Leads(plan, Initial(now, terms, points), events, f)
    requires f.fired.Some? && forall i :: 0 <= i < |terms| ==> Depreciates(terms[i].decay)
    ensures Known(f, f.fired.value)
    ensures var ts := Records(f, f.fired.value);
            && r.loss == (if InitialValue(ts) == 0.0 then 0.0 else WeightedLoss(ts) / InitialValue(ts))
            && r.delivered == InitialValue(ts) + WeightedLoss(ts) && r.events == AllEvents(ts)
  {
    hide Leads, CanStart, Distinct;
    ReportedLossIsMean(plan, now, terms, points, events, f);
    var ts := Records(f, f.fired.value);
    assert [ts][..0] == [] && Flat([ts]) == Flat([]) + ts == ts;
    r := ProcessResults([ts]);
  }
}
