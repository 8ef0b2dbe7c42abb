/** The main results: what holds after any run of the whole system. */
module ProtocolTheorems {
  import opened Common
  import opened Jobs
  import opened JobTable
  import opened ServiceHistory
  import opened ExecuteSteps
  import opened RunSteps
  import opened ResultCache
  import opened WorkspaceInvariant
  import opened Protocol
  import opened ProtocolInvariant
  import opened ProtocolSteps
  import opened ProtocolClosing
  import opened ProtocolUsers
  import opened StoreOperations
  import opened WorkspaceEffects
  import W = Workspaces

  lemma EmptyInv(cfg: Setup)
    ensures Inv(cfg, EmptyWorld())
  {
    hide StoreInv, ServiceInv, Linked;
    EmptyStoreInv(cfg);
    EmptyServiceInv(cfg);
  }

  lemma EmptyStoreInv(cfg: Setup)
    ensures StoreInv(cfg.settings, W.EmptyStore())
  {
    hide RunOk, Holds, WorkspaceOk;
  }

  lemma EmptyServiceInv(cfg: Setup)
    ensures ServiceInv(cfg.limits, EmptyWorld().service, map[], cfg.sim)
  {
    hide JobInv, Faithful;
  }

  /** One step, whoever takes it, keeps the invariant and only advances the runs and the service. */
  lemma StepInv(cfg: Setup, x: World, ev: Event)
    requires Inv(cfg, x) && Enabled(cfg, x, ev)
    ensures Inv(cfg, Next(cfg, x, ev)) && Advances(x, Next(cfg, x, ev))
  {
    hide Inv, Advances, ExecLink, Serve, SubmitRun, Applied, LoseReply, Expected;
    hide BeginRun, TurnRun, CancelUpstream, ReadStatus, ReadPage, FailRun, CancelByUser, ResumeByUser, RegisterByUser;
    match ev {
      case Serving(e) => ServingInv(cfg, x, e);
      case Begin(w, r, bodyFits) => BeginInv(cfg, x, w, r, bodyFits);
      case Turn(r) => TurnInv(cfg, x, r);
      case SubmitReply(r, now, later) => SubmitInv(cfg, x, r, now, later);
      case Accept(r) => AcceptInv(cfg, x, r);
      case CancelReply(r, now) => CancelReplyInv(cfg, x, r, now);
      case StatusReply(r, now) => StatusReplyInv(cfg, x, r, now);
      case PageReply(r, now) => PageReplyInv(cfg, x, r, now);
      case Apply(w, r) => ApplyInv(cfg, x, w, r);
      case Unavailable(r, pause) => UnavailableInv(cfg, x, r, pause);
      case Rejected(r) => RejectedInv(cfg, x, r);
      case Fail(w, r) => FailInv(cfg, x, w, r);
      case Register(_, _, _, _, _, _) => RegisterStep(cfg, x, ev);
      case CancelRun(w, r, supersede) => CancelByUserInv(cfg, x, w, r, supersede);
      case Resume(w, r) => ResumeByUserInv(cfg, x, w, r);
      case Read(w, r, scenario) =>
        if RunOf(x.app, w, r) { ReadStep(cfg, x, w, r, scenario); } else { NothingHappens(cfg, x); }
      case _ => EditStep(cfg, x, ev);
    }
  }

  lemma RejectedInv(cfg: Setup, x: World, r: nat)
    requires Inv(cfg, x) && r in x.app.runs && Waits(ExecOf(x, r))
    ensures var y := x.(exec := x.exec[r := AtFailure(W.SERVICE_REJECTED)]);
            Inv(cfg, y) && Advances(x, y)
  {
    FailsInv(cfg, x, r, W.SERVICE_REJECTED);
  }

  /** Any run of the system keeps the invariant, and never changes what was already recorded. */
  lemma {:induction false} RunsInv(cfg: Setup, x: World, events: seq<Event>)
    requires Inv(cfg, x) && Legal(cfg, x, events)
    ensures Inv(cfg, Final(cfg, x, events)) && Advances(x, Final(cfg, x, events))
    decreases |events|
  {
    hide Inv, Advances, Next, Enabled;
    if events == [] {
      NothingHappens(cfg, x);
    } else {
      var y := Next(cfg, x, events[0]);
      StepInv(cfg, x, events[0]);
      RunsInv(cfg, y, events[1..]);
      AdvancesTransitive(cfg, x, y, Final(cfg, y, events[1..]));
    }
  }

  /** What the system can get to from its empty state, by any events in any order that are possible. */
  ghost predicate Reached(cfg: Setup, x: World) {
    exists events :: Legal(cfg, EmptyWorld(), events) && x == Final(cfg, EmptyWorld(), events)
  }

  lemma ReachedInv(cfg: Setup, x: World)
    requires Reached(cfg, x)
    ensures Inv(cfg, x)
  {
    hide Inv, Legal, Final, Advances;
    var events :| Legal(cfg, EmptyWorld(), events) && x == Final(cfg, EmptyWorld(), events);
    EmptyInv(cfg);
    RunsInv(cfg, EmptyWorld(), events);
  }

  // ---------------------------------------------------------------------------------------------
  // What that means

  /**
   * In every reachable state, asking for the result of a scenario succeeds exactly when that scenario succeeded, and
   * returns what simulating the run's own tasks, model and seed gives, whether it was computed for this run or reused.
   */
  lemma ResultsAreOwn(cfg: Setup, x: World, r: nat, i: nat)
    requires Reached(cfg, x) && r in x.app.runs && i < |x.app.runs[r].outcomes|
    ensures var run := x.app.runs[r];
            var reply := W.ResultFor(x.app, r, run.outcomes[i].scenario.id).1;
            && (reply.Ok? <==> run.outcomes[i].status == Succeeded)
            && (reply.Ok? ==> reply.value.payload
                              == cfg.sim(SimInput(run.taskSet.tasks, run.outcomes[i].scenario.model,
                                                  run.outcomes[i].scenario.seed)))
  {
    hide Reached, Inv, W.ResultFor;
    ReachedInv(cfg, x);
    OwnResult(cfg, x, r, i);
  }

  lemma OwnResult(cfg: Setup, x: World, r: nat, i: nat)
    requires Inv(cfg, x) && r in x.app.runs && i < |x.app.runs[r].outcomes|
    ensures var run := x.app.runs[r];
            var reply := W.ResultFor(x.app, r, run.outcomes[i].scenario.id).1;
            && (reply.Ok? <==> run.outcomes[i].status == Succeeded)
            && (reply.Ok? ==> reply.value.payload
                              == cfg.sim(SimInput(run.taskSet.tasks, run.outcomes[i].scenario.model,
                                                  run.outcomes[i].scenario.seed)))
  {
    hide StoreInv, ServiceInv, RunsLinked, Bookkeeping, BudgetOk, CursorsOk;
    RunAt(cfg.settings, x.app, r);
    var run := x.app.runs[r];
    var id := run.outcomes[i].scenario.id;
    if id in run.results {
      var k :| SucceededAs(run.outcomes, k, id);
      assert k == i;
    }
  }

  /** A failing executor never failed for missing outcomes, a bad index, a conflict, a cache miss or its budget. */
  lemma OnlyExpectedErrors(cfg: Setup, x: World, r: nat)
    requires Reached(cfg, x) && ExecOf(x, r).AtFailure?
    ensures Expected(ExecOf(x, r).error)
  {
    hide Reached, Inv, Linked;
    ReachedInv(cfg, x);
    ExecActive(cfg, x, r);
    LinkedAt(cfg, x, r);
    ExpectedAt(x.app.runs[r], ExecOf(x, r).error, x.service, x.sent[r], cfg.sim);
  }

  /** Whatever happens next, runs and jobs only move forward. */
  lemma NothingIsTakenBack(cfg: Setup, x: World, events: seq<Event>)
    requires Reached(cfg, x) && Legal(cfg, x, events)
    ensures Advances(x, Final(cfg, x, events))
  {
    hide Reached, Inv, Legal, Final, Advances;
    ReachedInv(cfg, x);
    RunsInv(cfg, x, events);
  }

  predicate BothActive(ids: seq<nat>, runs: map<nat, W.Run>, q: nat, r: nat) {
    q in ids && r in ids && q in runs && r in runs && runs[q].Active() && runs[r].Active()
  }

  /** In every reachable state all limits hold, and every workspace's references are to what it still has. */
  lemma LimitsHold(cfg: Setup, x: World)
    requires Reached(cfg, x)
    ensures SizesOf(x.app.cache.entries.Keys, x.app.cache.entries) + ReservedBelow(x.app.runs, x.app.nextRun)
            <= cfg.settings.maxResultBytes
    ensures |ActiveIds(x.app)| <= cfg.settings.maxActiveRuns && |x.app.workspaces| <= cfg.settings.maxWorkspaces
    ensures forall w :: w in x.app.workspaces ==>
              var ws, runs := x.app.workspaces[w], x.app.runs;
              && |ws.runs| <= cfg.settings.maxRetainedRuns && |PinnedRuns(ws.runs, runs)| <= cfg.settings.maxPins
              && (forall r :: r in ws.runs ==> r in runs && W.HasTaskSet(ws, runs[r].taskSet.id))
              && (ws.baseline.Some? ==>
                    ws.baseline.value in ws.runs && ws.baseline.value in runs
                    && ws.current == Some(runs[ws.baseline.value].taskSet.id))
              && (ws.latest.Some? ==> ws.latest.value in ws.runs)
              && (ws.current.Some? ==> W.HasTaskSet(ws, ws.current.value))
              && (forall q, r :: BothActive(ws.runs, runs, q, r) ==> q == r)
  {
    hide Reached, Inv, W.Used, W.ActiveRuns, JobTable.CapacityOk;
    ReachedInv(cfg, x);
    SoundOf(cfg, x);
    StoreCounts(cfg, x.app);
    hide JobsFaithful, NamesFaithful, JobsOk, SubmissionsOk, RunsOk, Ownership, Agrees;
    forall w | w in x.app.workspaces
      ensures WorkspaceOk(cfg.settings, x.app.workspaces[w], x.app.runs)
      ensures W.Pins(x.app.workspaces[w].runs, x.app.runs) == |PinnedRuns(x.app.workspaces[w].runs, x.app.runs)|
    {
      PinsAreRuns(x.app.workspaces[w].runs, x.app.runs);
    }
  }

  lemma StoreCounts(cfg: Setup, s: W.Store)
    requires Sound(cfg.settings, s, cfg.sim)
    ensures SizesOf(s.cache.entries.Keys, s.cache.entries) + ReservedBelow(s.runs, s.nextRun) <= cfg.settings.maxResultBytes
    ensures |ActiveIds(s)| <= cfg.settings.maxActiveRuns
  {
    hide WorkspacesOk, Ownership, W.Used, W.ActiveRuns;
    UsedIs(s, cfg.sim);
    ActiveIdsCount(cfg.settings, s);
  }

  /** And in the service: jobs, bytes and open jobs are within their limits, whatever clients and workers do. */
  lemma ServiceLimitsHold(cfg: Setup, x: World)
    requires Reached(cfg, x)
    ensures var t := x.service.table;
            && |t.jobs| <= cfg.limits.maxRetainedJobs
            && SizesBelow(t.jobs, t.nextId) <= cfg.limits.maxRetainedBytes
            && |OpenIds(t)| <= cfg.limits.maxActiveJobs + cfg.limits.maxQueuedJobs
            && forall j :: j in t.jobs ==> j < t.nextId && SizesIn(t.jobs[j].outcomes) <= cfg.limits.maxJobOutcomeBytes
  {
    hide Reached, Inv;
    ReachedInv(cfg, x);
    TableOf(cfg, x);
    TableCounts(cfg.limits, x.service.table);
  }

  /** Once recorded, an outcome stays, and its result reads the same for as long as the run is kept. */
  lemma RecordedForGood(cfg: Setup, x: World, events: seq<Event>, r: nat, i: nat)
    requires Reached(cfg, x) && Legal(cfg, x, events)
    requires r in x.app.runs && r in Final(cfg, x, events).app.runs && i < |x.app.runs[r].outcomes|
    requires x.app.runs[r].outcomes[i].cursor > 0
    ensures var y := Final(cfg, x, events);
            var id := x.app.runs[r].outcomes[i].scenario.id;
            && i < |y.app.runs[r].outcomes| && y.app.runs[r].outcomes[i] == x.app.runs[r].outcomes[i]
            && W.ResultFor(y.app, r, id).1.Ok? == W.ResultFor(x.app, r, id).1.Ok?
            && (W.ResultFor(x.app, r, id).1.Ok? ==>
                  W.ResultFor(y.app, r, id).1.value.payload == W.ResultFor(x.app, r, id).1.value.payload)
  {
    hide Reached, Inv, Legal, Final, W.ResultFor;
    ReachedInv(cfg, x);
    RunsInv(cfg, x, events);
    OwnResult(cfg, x, r, i);
    OwnResult(cfg, Final(cfg, x, events), r, i);
  }

  /** A run closed by the service's verdict is in exactly the state its outcomes call for. */
  lemma FinalStateIsVerdict(cfg: Setup, x: World, r: nat)
    requires Reached(cfg, x) && r in x.app.runs
    requires x.app.runs[r].state.Terminal() && x.app.runs[r].state != W.Failed
    ensures var run := x.app.runs[r];
            && (run.state == W.Completed <==> forall i :: 0 <= i < |run.outcomes| ==> run.outcomes[i].status == Succeeded)
            && (run.state == W.CompletedWithErrors <==>
                  (exists i :: 0 <= i < |run.outcomes| && run.outcomes[i].status == Failed)
                  && forall i :: 0 <= i < |run.outcomes| ==> run.outcomes[i].status != Cancelled)
            && (run.state == W.Cancelled <==> exists i :: 0 <= i < |run.outcomes| && run.outcomes[i].status == Cancelled)
  {
    hide Reached, Inv, JobLink, ExecLink, HitsSucceeded, RequestOf;
    ReachedInv(cfg, x);
    LinkedAt(cfg, x, r);
  }

  /** While its job is kept, a run that has not failed has recorded each model just as the job ended it. */
  lemma RecordedAsReported(cfg: Setup, x: World, r: nat, m: nat)
    requires Reached(cfg, x) && r in x.app.runs && m < |x.app.runs[r].serviceIndices|
    requires !Failing(x.app.runs[r], ExecOf(x, r)) && x.app.runs[r].jobId.Some?
    requires x.app.runs[r].jobId.value in x.service.table.jobs
    ensures var run, job := x.app.runs[r], x.service.table.jobs[x.app.runs[r].jobId.value];
            m < |job.states| && (Open(run, m) || OutcomeIs(run, m, job.states[m]))
    ensures x.app.runs[r].state.Terminal() ==> AllTerminal(x.service.table.jobs[x.app.runs[r].jobId.value].states)
  {
    var run := x.app.runs[r];
    var job := x.service.table.jobs[run.jobId.value];
    ReachedInv(cfg, x);
    hide Reached;
    LinkedAt(cfg, x, r);
    SoundOf(cfg, x);
    JobAt(cfg, x, run.jobId.value);
    hide Inv, Sound, ServiceInv;
    LengthsOf(cfg.settings, x.app, r, cfg.sim);
    RequestInputs(run);
    hide RunShape, ExecLink, HitsSucceeded, Verdict, RequestOf;
    assert Follows(run, job) && NoFurther(run, job) && |job.states| == |run.serviceIndices|;
    LogSpeaks(run, job, m);
    if run.state.Terminal() {
      RunClosedAt(cfg, x, r);
      forall n | 0 <= n < |job.states| ensures job.states[n].Terminal() { LogSpeaks(run, job, n); }
    }
  }

  lemma RunClosedAt(cfg: Setup, x: World, r: nat)
    requires Inv(cfg, x) && r in x.app.runs && x.app.runs[r].state.Terminal()
    ensures forall m: nat :: m < |x.app.runs[r].serviceIndices| ==> !Open(x.app.runs[r], m)
  {
    hide ServiceInv, RunsLinked, Bookkeeping, StoreInv, CursorsOk, Filed, BudgetOk;
    RunAt(cfg.settings, x.app, r);
  }

  lemma LogSpeaks(run: W.Run, job: Job, m: nat)
    requires JobInv(job) && Follows(run, job) && NoFurther(run, job) && m < |run.serviceIndices| == |job.states|
    ensures Open(run, m) || (OutcomeIs(run, m, job.states[m]) && job.states[m].Terminal())
  {
    if !Open(run, m) {
      assert InPage(job.outcomes[..run.serviceCursor], m);
      var k :| 0 <= k < run.serviceCursor && job.outcomes[..run.serviceCursor][k].index == m;
      assert RecordedAs(run, job.outcomes[k]);
    }
  }

  /** An executor is started only for an active run that has none. */
  lemma OneExecutorPerRun(cfg: Setup, x: World, ev: Event, r: nat)
    requires Reached(cfg, x) && Enabled(cfg, x, ev)
    requires ExecOf(Next(cfg, x, ev), r).AtHits? && !ExecOf(x, r).AtHits?
    ensures ExecOf(x, r).Absent? && r in Next(cfg, x, ev).app.runs && Next(cfg, x, ev).app.runs[r].Active()
  {
    hide Reached, Inv, Advances, Next, Enabled, W.Register;
    ReachedInv(cfg, x);
    StepInv(cfg, x, ev);
    ExecActive(cfg, Next(cfg, x, ev), r);
    if ev.Register? { RegistersNew(cfg, x, ev); }
    LaunchesOnly(cfg, x, ev, r);
  }

  lemma LaunchesOnly(cfg: Setup, x: World, ev: Event, r: nat)
    requires Enabled(cfg, x, ev) && ExecOf(Next(cfg, x, ev), r).AtHits? && !ExecOf(x, r).AtHits?
    ensures ExecOf(x, r).Absent? || (ev.Register? && Launched(cfg, x, ev) == Some(r))
  {
    hide Serve, CompleteHits, CloseRun, ApplyPage, W.Register, FailOpen, RequestOf, ReserveFor;
    hide W.Create, W.DeleteWorkspace, W.SaveEditor, W.DeleteTaskSet, W.Compare, W.ResultFor, RunOf, Admissible, PageOf;
  }

  function Launched(cfg: Setup, x: World, ev: Event): Option<nat>
    requires ev.Register?
  {
    var reply := W.Register(cfg.settings, x.app, ev.w, ev.request, ev.scenarios, ev.taskSet, ev.now, ev.inputFits).1;
    if reply.Ok? && reply.value.created then Some(reply.value.run) else None
  }

  lemma RegistersNew(cfg: Setup, x: World, ev: Event)
    requires Inv(cfg, x) && ev.Register? && Enabled(cfg, x, ev)
    ensures Launched(cfg, x, ev).Some? ==> ExecOf(x, Launched(cfg, x, ev).value).Absent?
  {
    hide StoreInv, ServiceInv, Linked, W.Register, LeavesRunsAlone, Agrees;
    RegisterInv(cfg.settings, x.app, ev.w, ev.request, ev.scenarios, ev.taskSet, ev.now, ev.inputFits);
    RunIds(cfg, x);
  }

  /** A cancellation asked for goes out before the next status is read, and ends the job if it is still there. */
  lemma CancellationReachesTheJob(cfg: Setup, x: World, r: nat, now: real)
    requires Reached(cfg, x) && r in x.app.runs && x.app.runs[r].cancelRequested
    ensures ExecOf(x, r).AtLoop? && x.app.runs[r].jobId.Some? ==> ExecOf(TurnRun(x, r), r).AtCancel?
    ensures ExecOf(x, r).GotJob? ==>
              ExecOf(Proceed(x, r, x.app.runs[r].(jobId := Some(ExecOf(x, r).job))), r).AtCancel?
    ensures ExecOf(x, r).AtCancel? ==>
              var y := CancelUpstream(cfg, x, r, now);
              x.app.runs[r].jobId.Some? &&
              if x.app.runs[r].jobId.value in y.service.table.jobs
              then ExecOf(y, r).AtStatus? && AllTerminal(y.service.table.jobs[x.app.runs[r].jobId.value].states)
              else ExecOf(y, r) == AtFailure(W.SERVICE_JOB_LOST)
  {
    hide Reached, Inv, CancelUpstream, AllTerminal;
    ReachedInv(cfg, x);
    if ExecOf(x, r).AtCancel? { CancelsItsJob(cfg, x, r, now); }
  }

  lemma CancelsItsJob(cfg: Setup, x: World, r: nat, now: real)
    requires Inv(cfg, x) && r in x.app.runs && ExecOf(x, r).AtCancel?
    ensures var y := CancelUpstream(cfg, x, r, now);
            x.app.runs[r].jobId.Some? &&
            if x.app.runs[r].jobId.value in y.service.table.jobs
            then ExecOf(y, r).AtStatus? && AllTerminal(y.service.table.jobs[x.app.runs[r].jobId.value].states)
            else ExecOf(y, r) == AtFailure(W.SERVICE_JOB_LOST)
  {
    hide Inv, Linked, CancelJob, TableInv, Evolves, AllTerminal;
    LinkedAt(cfg, x, r);
    JobKnown(x.app.runs[r], AtCancel, x.service, x.sent[r], cfg.sim);
    TableOf(cfg, x);
    CancelJobInv(cfg.limits, x.service.table, x.app.runs[r].jobId.value, now);
  }

  /** Asking for a status or a page, or holding one. */
  predicate Reads(e: Exec) { e.AtStatus? || e.AtPage? || e.GotPage? }

  /** Whatever a run whose cancellation was asked for still reads is about a job that has ended. */
  ghost predicate ReadsEnded(x: World, r: nat) {
    r in x.app.runs ==>
      && x.app.runs[r].cancelRequested
      && (Reads(ExecOf(x, r)) ==>
            && x.app.runs[r].jobId.Some?
            && (x.app.runs[r].jobId.value in x.service.table.jobs ==>
                  AllTerminal(x.service.table.jobs[x.app.runs[r].jobId.value].states)))
  }

  /** With a cancellation asked for, nothing is read again until the service has answered it. */
  lemma ReadsOnlyAfterCancel(cfg: Setup, x: World, ev: Event, r: nat)
    requires Enabled(cfg, x, ev) && r in x.app.runs && x.app.runs[r].cancelRequested
    requires Reads(ExecOf(Next(cfg, x, ev), r)) && !Reads(ExecOf(x, r))
    ensures ev.CancelReply? && ev.r == r && ExecOf(x, r).AtCancel?
  {
    hide Serve, CompleteHits, CloseRun, ApplyPage, W.Register, FailOpen, RequestOf, ReserveFor;
    hide W.Create, W.DeleteWorkspace, W.SaveEditor, W.DeleteTaskSet, W.Compare, W.ResultFor, RunOf, Admissible, PageOf;
  }

  lemma StepReadsEnded(cfg: Setup, x: World, ev: Event, r: nat)
    requires Reached(cfg, x) && Enabled(cfg, x, ev) && ReadsEnded(x, r) && r < x.app.nextRun
    ensures ReadsEnded(Next(cfg, x, ev), r)
  {
    hide Reached, Inv, Advances, Next, Enabled, Reads, Serve, AllTerminal, Linked;
    ReachedInv(cfg, x);
    StepInv(cfg, x, ev);
    var y := Next(cfg, x, ev);
    if r in y.app.runs {
      RunStays(x, y, r);
      if Reads(ExecOf(y, r)) {
        if Reads(ExecOf(x, r)) {
          StillEnded(cfg, x, y, r);
        } else {
          ReadsOnlyAfterCancel(cfg, x, ev, r);
          CancelledUpstream(cfg, x, r, ev.now);
        }
      }
    }
  }

  lemma StillEnded(cfg: Setup, x: World, y: World, r: nat)
    requires Inv(cfg, x) && Advances(x, y) && r in x.app.runs && r in y.app.runs && x.app.runs[r].jobId.Some?
    requires var j := x.app.runs[r].jobId.value;
             j in x.service.table.jobs ==> AllTerminal(x.service.table.jobs[j].states)
    ensures var j := x.app.runs[r].jobId.value;
            j in y.service.table.jobs ==> AllTerminal(y.service.table.jobs[j].states)
  {
    hide Inv, Advances, ServiceInv, Sound, Linked, Moved, AllTerminal;
    SoundOf(cfg, x);
    JobIds(cfg, x);
    RunIds(cfg, x);
    LinkedJob(cfg, x, r);
    RunStays(x, y, r);
    if x.app.runs[r].jobId.value in y.service.table.jobs {
      EndedJobStays(x.service, y.service, x.app.runs[r].jobId.value);
    }
  }

  lemma CancelledUpstream(cfg: Setup, x: World, r: nat, now: real)
    requires Reached(cfg, x) && Enabled(cfg, x, CancelReply(r, now)) && x.app.runs[r].cancelRequested
    ensures var y := Next(cfg, x, CancelReply(r, now));
            Reads(ExecOf(y, r)) && r in y.app.runs ==>
              && y.app.runs[r].jobId.Some?
              && (y.app.runs[r].jobId.value in y.service.table.jobs ==>
                    AllTerminal(y.service.table.jobs[y.app.runs[r].jobId.value].states))
  {
    hide Reached, AllTerminal, CancelUpstream, Next;
    CancellationReachesTheJob(cfg, x, r, now);
    CancelReplyIs(cfg, x, r, now);
  }

  lemma CancelReplyIs(cfg: Setup, x: World, r: nat, now: real)
    requires Enabled(cfg, x, CancelReply(r, now))
    ensures Next(cfg, x, CancelReply(r, now)) == CancelUpstream(cfg, x, r, now)
    ensures CancelUpstream(cfg, x, r, now).app == x.app
  {
  }

  lemma RunStays(x: World, y: World, r: nat)
    requires Advances(x, y) && r < x.app.nextRun && r in y.app.runs
    ensures r in x.app.runs && (x.app.runs[r].cancelRequested ==> y.app.runs[r].cancelRequested)
    ensures x.app.runs[r].jobId.Some? ==> y.app.runs[r].jobId == x.app.runs[r].jobId
    ensures Moved(x.service, y.service)
  {
    hide Moved;
  }

  lemma LinkedJob(cfg: Setup, x: World, r: nat)
    requires Inv(cfg, x) && r in x.app.runs && x.app.runs[r].jobId.Some?
    ensures x.app.runs[r].jobId.value in x.service.requests
  {
    hide Inv, ExecLink, HitsSucceeded, RequestOf, Verdict;
    LinkedAt(cfg, x, r);
  }

  lemma EndedJobStays(sv: Service, sv': Service, j: nat)
    requires Moved(sv, sv') && j in sv.requests && j < sv.table.nextId && j in sv'.table.jobs
    requires j in sv.table.jobs ==> AllTerminal(sv.table.jobs[j].states)
    ensures AllTerminal(sv'.table.jobs[j].states)
  {
    JobStays(sv, sv', j);
  }

  lemma ReachedNext(cfg: Setup, x: World, ev: Event)
    requires Reached(cfg, x) && Enabled(cfg, x, ev)
    ensures Reached(cfg, Next(cfg, x, ev)) && x.app.nextRun <= Next(cfg, x, ev).app.nextRun
  {
    hide Inv, Next, Enabled, Legal, Final;
    ReachedInv(cfg, x);
    StepInv(cfg, x, ev);
    var events :| Legal(cfg, EmptyWorld(), events) && x == Final(cfg, EmptyWorld(), events);
    OneMore(cfg, EmptyWorld(), events, ev);
  }

  lemma {:induction false} OneMore(cfg: Setup, x: World, events: seq<Event>, ev: Event)
    requires Legal(cfg, x, events) && Enabled(cfg, Final(cfg, x, events), ev)
    ensures Legal(cfg, x, events + [ev]) && Final(cfg, x, events + [ev]) == Next(cfg, Final(cfg, x, events), ev)
    decreases |events|
  {
    hide Next, Enabled;
    var more := events + [ev];
    if events == [] {
      assert more == [ev];
    } else {
      assert more[1..] == events[1..] + [ev];
      OneMore(cfg, Next(cfg, x, events[0]), events[1..], ev);
    }
  }

  lemma {:induction false} RunsReadsEnded(cfg: Setup, x: World, events: seq<Event>, r: nat)
    requires Reached(cfg, x) && Legal(cfg, x, events) && ReadsEnded(x, r) && r < x.app.nextRun
    ensures ReadsEnded(Final(cfg, x, events), r)
    decreases |events|
  {
    hide Reached, Next, Enabled, ReadsEnded;
    if events != [] {
      ReachedNext(cfg, x, events[0]);
      StepReadsEnded(cfg, x, events[0], r);
      RunsReadsEnded(cfg, Next(cfg, x, events[0]), events[1..], r);
    }
  }

  /**
   * Once a run's cancellation has been asked for and its executor is not in the middle of a read, then however the
   * system goes on, across lost replies, pauses and resumes, the request stands, and the executor reads no status or
   * page of a job with work left.
   */
  lemma CancellationComesFirst(cfg: Setup, x: World, events: seq<Event>, r: nat)
    requires Reached(cfg, x) && Legal(cfg, x, events)
    requires r in x.app.runs && x.app.runs[r].cancelRequested && !Reads(ExecOf(x, r))
    ensures ReadsEnded(Final(cfg, x, events), r)
  {
    hide Reached, Legal, Final, Inv;
    ReachedInv(cfg, x);
    SoundOf(cfg, x);
    RunIds(cfg, x);
    RunsReadsEnded(cfg, x, events, r);
  }

  lemma TableOf(cfg: Setup, x: World)
    requires Inv(cfg, x)
    ensures TableInv(cfg.limits, x.service.table)
  {
    hide Sound, RunsLinked, Bookkeeping, TableInv, JobsFaithful, NamesFaithful;
  }
}
