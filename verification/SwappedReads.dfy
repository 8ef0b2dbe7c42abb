/** Why the executor reads the status before the page: with the two reads swapped, outcomes can go missing. */
module SwappedReads {
  import opened Common
  import opened Jobs
  import opened JobTable
  import opened ServiceHistory
  import opened ExecuteSteps
  import opened RunSteps
  import opened WorkspaceInvariant
  import opened Protocol
  import opened ProtocolInvariant
  import opened ProtocolTheorems
  import opened ResultCache
  import opened Sums
  import W = Workspaces

  /** The same system, except that an executor reads the page first and holds it while it asks for the status. */
  datatype Swapped = Swapped(world: World, held: map<nat, Page>)

  datatype SwappedEvent =
    | PageFirst(r: nat, now: real)
    | StatusAfter(r: nat, now: real)
    | AsBefore(ev: Event)

  predicate SwappedEnabled(cfg: Setup, x: Swapped, ev: SwappedEvent) {
    match ev
    case PageFirst(r, _) => r in x.world.app.runs && ExecOf(x.world, r).AtStatus? && r !in x.held
    case StatusAfter(r, _) => r in x.world.app.runs && ExecOf(x.world, r).AtStatus? && r in x.held
    case AsBefore(e) => !e.StatusReply? && !e.PageReply? && Enabled(cfg, x.world, e)
  }

  function SwappedNext(cfg: Setup, x: Swapped, ev: SwappedEvent): Swapped
    requires SwappedEnabled(cfg, x, ev)
  {
    match ev
    case PageFirst(r, now) =>
      var y := ReadPage(cfg, x.world, r, JobQueued, now);
      if ExecOf(y, r).GotPage? then Swapped(x.world.(service := y.service), x.held[r := ExecOf(y, r).page])
      else Swapped(y, x.held)
    case StatusAfter(r, now) =>
      var y := ReadStatus(cfg, x.world, r, now);
      var e := if ExecOf(y, r).AtPage? then GotPage(ExecOf(y, r).seen, x.held[r]) else ExecOf(y, r);
      Swapped(y.(exec := y.exec[r := e]), x.held - {r})
    case AsBefore(e) =>
      var y := Next(cfg, x.world, e);
      Swapped(y, map r | r in x.held && ExecOf(y, r).AtStatus? :: x.held[r])
  }

  predicate SwappedLegal(cfg: Setup, x: Swapped, events: seq<SwappedEvent>)
    decreases |events|
  {
    events != [] ==> SwappedEnabled(cfg, x, events[0]) && SwappedLegal(cfg, SwappedNext(cfg, x, events[0]), events[1..])
  }

  function SwappedFinal(cfg: Setup, x: Swapped, events: seq<SwappedEvent>): Swapped
    requires SwappedLegal(cfg, x, events)
    decreases |events|
  {
    if events == [] then x else SwappedFinal(cfg, SwappedNext(cfg, x, events[0]), events[1..])
  }

  ghost predicate SwappedReached(cfg: Setup, x: Swapped) {
    exists events :: SwappedLegal(cfg, Swapped(EmptyWorld(), map[]), events)
                     && x == SwappedFinal(cfg, Swapped(EmptyWorld(), map[]), events)
  }

  lemma {:induction false} SwappedAppend(cfg: Setup, x: Swapped, events: seq<SwappedEvent>, ev: SwappedEvent)
    requires SwappedLegal(cfg, x, events) && SwappedEnabled(cfg, SwappedFinal(cfg, x, events), ev)
    ensures SwappedLegal(cfg, x, events + [ev])
    ensures SwappedFinal(cfg, x, events + [ev]) == SwappedNext(cfg, SwappedFinal(cfg, x, events), ev)
    decreases |events|
  {
    hide SwappedNext, SwappedEnabled;
    var more := events + [ev];
    if events == [] {
      assert more == [ev];
    } else {
      assert more[1..] == events[1..] + [ev];
      SwappedAppend(cfg, SwappedNext(cfg, x, events[0]), events[1..], ev);
    }
  }

  lemma SwappedStep(cfg: Setup, x: Swapped, ev: SwappedEvent)
    requires SwappedReached(cfg, x) && SwappedEnabled(cfg, x, ev)
    ensures SwappedReached(cfg, SwappedNext(cfg, x, ev))
  {
    hide SwappedLegal, SwappedFinal, SwappedNext, SwappedEnabled;
    var start := Swapped(EmptyWorld(), map[]);
    var events :| SwappedLegal(cfg, start, events) && x == SwappedFinal(cfg, start, events);
    SwappedAppend(cfg, start, events, ev);
  }

  // ---------------------------------------------------------------------------------------------
  // From any point at which a page can be out of date, the error can be reached

  /** An executor about to read, all of whose job's outcomes so far it has, while a model is still open. */
  ghost predicate AboutToMiss(x: World, r: nat) {
    && r in x.app.runs && ExecOf(x, r).AtStatus? && x.app.runs[r].jobId.Some?
    && x.app.runs[r].jobId.value in x.service.table.jobs
    && var job := x.service.table.jobs[x.app.runs[r].jobId.value];
    && job.terminalAt.None? && JobInv(job) && x.app.runs[r].serviceCursor == |job.outcomes|
    && !AllComplete(x.app.runs[r])
  }

  /** The page read now is empty. */
  lemma ReadsNothing(cfg: Setup, x: Swapped, r: nat, now: real)
    requires AboutToMiss(x.world, r) && r !in x.held
    ensures r in x.world.app.runs && x.world.app.runs[r].jobId.Some?
    ensures var y := SwappedNext(cfg, x, PageFirst(r, now));
            && SwappedEnabled(cfg, x, PageFirst(r, now)) && y.world.app == x.world.app
            && AboutToMiss(y.world, r) && r in y.held && y.held == x.held[r := y.held[r]] && y.held[r].outcomes == []
  {
    hide W.Reserved, AllComplete;
    var run := x.world.app.runs[r];
    AfterIsSuffix(x.world.service.table.jobs[run.jobId.value].outcomes, run.serviceCursor);
  }

  /** Then someone cancels the job, and the status read after that finds it ended. */
  lemma EndsMeanwhile(cfg: Setup, x: Swapped, r: nat, now: real)
    requires AboutToMiss(x.world, r) && r in x.held && cfg.limits.Valid()
    ensures var cancel := CancelRequest(x.world.app.runs[r].jobId.value, now);
            && x.world.app.runs[r].jobId.Some? && SwappedEnabled(cfg, x, AsBefore(Serving(cancel)))
            && var c := SwappedNext(cfg, x, AsBefore(Serving(cancel)));
            && SwappedEnabled(cfg, c, StatusAfter(r, now))
            && var y := SwappedNext(cfg, c, StatusAfter(r, now));
            && !AllComplete(y.world.app.runs[r]) && y.world.app == x.world.app && ExecOf(y.world, r) == GotPage(JobCancelled, x.held[r])
  {
    hide JobInv, AllComplete;
    var id := x.world.app.runs[r].jobId.value;
    CancelInv(x.world.service.table.jobs[id], now);
    hide CancelFrom;
  }

  lemma MissingIsNoticed(cfg: Setup, x: Swapped, w: nat, r: nat, page: Page)
    requires RunOf(x.world.app, w, r) && ExecOf(x.world, r) == GotPage(JobCancelled, page) && page.outcomes == []
    requires !AllComplete(x.world.app.runs[r])
    ensures SwappedEnabled(cfg, x, AsBefore(Apply(w, r)))
    ensures ExecOf(SwappedNext(cfg, x, AsBefore(Apply(w, r))).world, r) == AtFailure(W.SERVICE_INVALID_RESPONSE)
  {
  }

  /** With a model still open, the swapped reads can fail a run for outcomes the service has and would have sent. */
  lemma PageThenStatusMisses(cfg: Setup, x: Swapped, w: nat, r: nat, now: real)
    requires SwappedReached(cfg, x) && cfg.limits.Valid() && r !in x.held
    requires AboutToMiss(x.world, r) && RunOf(x.world.app, w, r)
    ensures exists y :: SwappedReached(cfg, y) && ExecOf(y.world, r) == AtFailure(W.SERVICE_INVALID_RESPONSE)
  {
    hide SwappedReached, SwappedNext, SwappedEnabled, AboutToMiss;
    ReadsNothing(cfg, x, r, now);
    var cancel := AsBefore(Serving(CancelRequest(x.world.app.runs[r].jobId.value, now)));
    SwappedStep(cfg, x, PageFirst(r, now));
    var x1 := SwappedNext(cfg, x, PageFirst(r, now));
    EndsMeanwhile(cfg, x1, r, now);
    SwappedStep(cfg, x1, cancel);
    var x2 := SwappedNext(cfg, x1, cancel);
    SwappedStep(cfg, x2, StatusAfter(r, now));
    var x3 := SwappedNext(cfg, x2, StatusAfter(r, now));
    MissingIsNoticed(cfg, x3, w, r, x1.held[r]);
    SwappedStep(cfg, x3, AsBefore(Apply(w, r)));
  }

  // ---------------------------------------------------------------------------------------------
  // Such a point can be reached

  /** A user with one task set starts one run of one scenario, and the service accepts its submission. */
  ghost predicate Registering(x: World, taskSet: W.TaskSet) {
    && x == EmptyWorld().(app := x.app)
    && x.app == W.EmptyStore().(workspaces := x.app.workspaces, nextWorkspace := 1)
    && x.app.workspaces == map[0 := W.Workspace(1, [taskSet], Some(taskSet.id), None, None, [])]
  }

  lemma Edited(cfg: Setup, taskSet: W.TaskSet)
    requires cfg.settings.Valid()
    ensures Registering(Next(cfg, Next(cfg, EmptyWorld(), CreateWorkspace), SaveEditor(0, 0, true, taskSet, true)), taskSet)
  {
    var x := Next(cfg, EmptyWorld(), CreateWorkspace);
    var ws := W.Workspace(0, [], None, None, None, []);
    assert x.app.workspaces == map[0 := ws];
    assert !W.HasTaskSet(ws, taskSet.id) && [] + [taskSet] == [taskSet];
  }

  /** In an empty store there is nothing to make room for. */
  lemma NothingToPrune(cfg: Setup, x: World, taskSet: W.TaskSet, keys: seq<SimInput>)
    requires Registering(x, taskSet)
    ensures W.RoomFor(cfg.settings, x.app, 0, keys) == x.app
    ensures W.Used(x.app) == 0 && W.ActiveRuns(x.app) == 0
    ensures W.PruneHistory(cfg.settings, x.app, 0, []) == x.app
  {
    var s := x.app;
    assert W.AllEvictable(s, 1) == W.AllEvictable(s, 0) + W.EvictableIn(s, 0, []) == [];
    assert W.SortByAge(s, []) == [];
  }

  lemma Registered(cfg: Setup, x: World, taskSet: W.TaskSet, request: W.Request, scenario: W.Scenario, now: real)
    requires Registering(x, taskSet) && cfg.settings.Valid() && cfg.settings.maxRunBytes <= cfg.settings.maxResultBytes
    ensures var ev := Register(0, request, [scenario], taskSet, now, true);
            && Enabled(cfg, x, ev)
            && var y := Next(cfg, x, ev);
            && y == x.(app := y.app, sent := y.sent, exec := map[0 := AtHits])
            && RunOf(y.app, 0, 0)
            && y.app.runs[0] == W.NewRun(taskSet, request, [scenario], [0], W.Reservation(cfg.settings, 1), now)
  {
    var ws := x.app.workspaces[0];
    assert ws.taskSets[0].id == taskSet.id;
    var keys := W.Keys(taskSet, [scenario]);
    assert W.Missing(keys, map[], 1) == [];
    assert W.Missing(keys, map[], 0) == [0];
    NothingToPrune(cfg, x, taskSet, keys);
    hide W.RoomFor, W.Used, W.ActiveRuns, W.PruneHistory;
  }

  /** The executor's first steps, up to its first look at the job. */
  lemma Submitted(cfg: Setup, x: World, now: real)
    requires cfg.limits.Valid() && x.service == EmptyWorld().service && x.exec == map[0 := AtHits] && RunOf(x.app, 0, 0)
    requires x.app.runs[0].serviceIndices == [0] && |x.app.runs[0].cacheKeys| == |x.app.runs[0].outcomes| == 1
    requires x.app.runs[0].jobId.None? && x.app.runs[0].serviceCursor == 0 && !x.app.runs[0].cancelRequested
    requires x.app.runs[0].outcomes[0].cursor == 0
    ensures var a := Next(cfg, x, Begin(0, 0, true));
            && Enabled(cfg, a, Turn(0))
            && var b := Next(cfg, a, Turn(0));
            && Enabled(cfg, b, SubmitReply(0, now, now))
            && var c := Next(cfg, b, SubmitReply(0, now, now));
            && Enabled(cfg, c, Accept(0))
            && var d := Next(cfg, c, Accept(0));
            && AboutToMiss(d, 0) && RunOf(d.app, 0, 0)
  {
    var run := x.app.runs[0];
    assert CompleteHits(cfg.settings, x.app, 0, 1, 1) == (x.app, None);
    assert CompleteHits(cfg.settings, x.app, 0, 0, 1) == (x.app, None);
    var request := RequestOf(run);
    assert run.serviceIndices[1..] == [];
    assert Picked(run.outcomes, run.serviceIndices) == [run.outcomes[0].scenario];
    NewJobInv(1);
    assert !NewJob(1).states[0].Terminal();
  }

  /**
   * With the two reads swapped, a run that fails for missing outcomes can be reached from the empty system, under any
   * settings that leave room for one run.
   */
  lemma PageBeforeStatusCanMiss(cfg: Setup, taskSet: W.TaskSet, request: W.Request, scenario: W.Scenario, now: real)
    requires cfg.settings.Valid() && cfg.limits.Valid() && cfg.settings.maxRunBytes <= cfg.settings.maxResultBytes
    ensures exists y :: SwappedReached(cfg, y) && ExecOf(y.world, 0) == AtFailure(W.SERVICE_INVALID_RESPONSE)
  {
    hide SwappedReached, Next, AboutToMiss, Registering, W.NewRun;
    var x0 := Swapped(EmptyWorld(), map[]);
    Starts(cfg);
    Quietly(cfg, x0, CreateWorkspace);
    var x1 := SwappedNext(cfg, x0, AsBefore(CreateWorkspace));
    var edit := SaveEditor(0, 0, true, taskSet, true);
    Quietly(cfg, x1, edit);
    var x2 := SwappedNext(cfg, x1, AsBefore(edit));
    Edited(cfg, taskSet);
    Registered(cfg, x2.world, taskSet, request, scenario, now);
    var register := Register(0, request, [scenario], taskSet, now, true);
    Quietly(cfg, x2, register);
    var x3 := SwappedNext(cfg, x2, AsBefore(register));
    AsRegistered(x2.world, taskSet, x3.world.app.runs[0], request, scenario, W.Reservation(cfg.settings, 1), now);
    Submitted(cfg, x3.world, now);
    Quietly(cfg, x3, Begin(0, 0, true));
    var x4 := SwappedNext(cfg, x3, AsBefore(Begin(0, 0, true)));
    Quietly(cfg, x4, Turn(0));
    var x5 := SwappedNext(cfg, x4, AsBefore(Turn(0)));
    Quietly(cfg, x5, SubmitReply(0, now, now));
    var x6 := SwappedNext(cfg, x5, AsBefore(SubmitReply(0, now, now)));
    Quietly(cfg, x6, Accept(0));
    var x7 := SwappedNext(cfg, x6, AsBefore(Accept(0)));
    PageThenStatusMisses(cfg, x7, 0, 0, now);
  }

  lemma Starts(cfg: Setup)
    ensures SwappedReached(cfg, Swapped(EmptyWorld(), map[]))
  {
    assert SwappedLegal(cfg, Swapped(EmptyWorld(), map[]), []);
  }

  /** A step in which no page is held. */
  lemma Quietly(cfg: Setup, x: Swapped, ev: Event)
    requires SwappedReached(cfg, x) && x.held == map[]
    requires Enabled(cfg, x.world, ev) && !ev.StatusReply? && !ev.PageReply?
    ensures SwappedNext(cfg, x, AsBefore(ev)) == Swapped(Next(cfg, x.world, ev), map[])
    ensures SwappedReached(cfg, SwappedNext(cfg, x, AsBefore(ev)))
  {
    hide SwappedReached, Next, Enabled;
    SwappedStep(cfg, x, AsBefore(ev));
  }

  lemma AsRegistered(x: World, taskSet: W.TaskSet, run: W.Run, request: W.Request, scenario: W.Scenario, reservation: nat,
                     now: real)
    requires Registering(x, taskSet) && run == W.NewRun(taskSet, request, [scenario], [0], reservation, now)
    ensures x.service == EmptyWorld().service
    ensures run.serviceIndices == [0] && |run.cacheKeys| == |run.outcomes| == 1
    ensures run.jobId.None? && run.serviceCursor == 0 && !run.cancelRequested && run.outcomes[0].cursor == 0
  {
  }
}
