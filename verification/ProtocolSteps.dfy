/** Every step of a run's executor keeps the system's invariant and only advances the run. */
module ProtocolSteps {
  import opened Common
  import opened Jobs
  import opened JobTable
  import opened ServiceHistory
  import opened ExecuteSteps
  import opened RunSteps
  import opened WorkspaceInvariant
  import opened Protocol
  import opened ProtocolInvariant
  import W = Workspaces

  // ---------------------------------------------------------------------------------------------
  // A run's submission

  lemma {:induction false} PickedSame(a: seq<W.Summary>, b: seq<W.Summary>, indices: seq<nat>)
    requires |a| == |b| && forall i :: 0 <= i < |a| ==> a[i].scenario == b[i].scenario
    ensures Picked(a, indices) == Picked(b, indices)
  {
    if indices != [] { PickedSame(a, b, indices[1..]); }
  }

  lemma {:induction false} PickedAll(outcomes: seq<W.Summary>, indices: seq<nat>)
    requires forall m :: 0 <= m < |indices| ==> indices[m] < |outcomes|
    ensures |Picked(outcomes, indices)| == |indices|
    ensures forall m :: 0 <= m < |indices| ==> Picked(outcomes, indices)[m] == outcomes[indices[m]].scenario
  {
    if indices != [] { PickedAll(outcomes, indices[1..]); }
  }

  lemma RequestSame(a: W.Run, b: W.Run)
    requires b.taskSet == a.taskSet && b.serviceIndices == a.serviceIndices && |b.outcomes| == |a.outcomes|
    requires forall i :: 0 <= i < |a.outcomes| ==> b.outcomes[i].scenario == a.outcomes[i].scenario
    ensures RequestOf(b) == RequestOf(a)
  {
    PickedSame(a.outcomes, b.outcomes, a.serviceIndices);
  }

  /** The m-th model of a run's submission is simulated on exactly the input of the m-th scenario it stands for. */
  lemma RequestInputs(run: W.Run)
    requires RunShape(run)
    ensures |RequestOf(run).models| == |run.serviceIndices| && |RequestOf(run).seeds| == |run.serviceIndices|
    ensures run.serviceIndices != [] ==> RequestOf(run).Valid()
    ensures forall m :: 0 <= m < |run.serviceIndices| && RequestOf(run).Valid() ==>
              run.serviceIndices[m] < |run.cacheKeys|
              && RequestOf(run).Input(m) == run.cacheKeys[run.serviceIndices[m]]
  {
    PickedAll(run.outcomes, run.serviceIndices);
  }

  // ---------------------------------------------------------------------------------------------
  // Bookkeeping moves

  /** Two views of a run that agree on everything the protocol looks at. */
  ghost predicate SameProgress(a: W.Run, b: W.Run) {
    && b.taskSet == a.taskSet && b.outcomes == a.outcomes && b.serviceIndices == a.serviceIndices
    && b.cacheKeys == a.cacheKeys && b.serviceCursor == a.serviceCursor && b.jobId == a.jobId
  }

  lemma SameOutcomes(a: W.Run, b: W.Run)
    requires SameProgress(a, b)
    ensures forall m: nat :: Open(a, m) == Open(b, m)
    ensures forall m: nat, status :: OutcomeIs(a, m, status) == OutcomeIs(b, m, status)
    ensures forall o :: RecordedAs(a, o) == RecordedAs(b, o)
    ensures HitsDone(a) ==> HitsDone(b)
    ensures HitsSucceeded(a) ==> HitsSucceeded(b)
    ensures NothingYet(a) ==> NothingYet(b)
  {
  }

  lemma SameJobLink(a: W.Run, b: W.Run, failing: bool, failing': bool, sv: Service, request: JobRequest)
    requires SameProgress(a, b) && (failing ==> failing') && JobLink(a, failing, sv, request)
    ensures JobLink(b, failing', sv, request)
  {
    SameOutcomes(a, b);
    hide Open, OutcomeIs, NothingYet, InPage;
  }

  lemma SamePage(a: W.Run, b: W.Run, seen: JobState, page: Page, sv: Service, sim: Simulator)
    requires SameProgress(a, b) && PageOk(a, seen, page, sv, sim)
    ensures PageOk(b, seen, page, sv, sim)
  {
    SameOutcomes(a, b);
    hide Open, OutcomeIs;
    assert Fresh(b, page.outcomes, sim);
    if seen.Terminal() {
      var states :| ClosesAs(a, seen, page.outcomes, states);
      assert ClosesAs(b, seen, page.outcomes, states);
    }
  }

  /** A change of state and flags keeps a run linked, wherever its executor goes without new knowledge. */
  lemma Relink(a: W.Run, e: Exec, b: W.Run, e': Exec, sv: Service, request: JobRequest, sim: Simulator)
    requires Linked(a, e, sv, request, sim) && SameProgress(a, b) && b.Active()
    requires Failing(a, e) ==> Failing(b, e')
    requires e' == e || ExecLink(b, e', sv, request, sim)
    ensures Linked(b, e', sv, request, sim)
  {
    hide JobLink, PageOk, HitsSucceeded, HitsDone, RequestOf, EndedAs;
    RequestSame(a, b);
    SameJobLink(a, b, Failing(a, e), Failing(b, e'), sv, request);
    SameOutcomes(a, b);
    if e.GotPage? { SamePage(a, b, e.seen, e.page, sv, sim); }
  }

  lemma SetRunStep(cfg: Setup, x: World, r: nat, run: W.Run, e: Exec)
    requires Inv(cfg, x) && r in x.app.runs && r in x.sent && Moves(x.app.runs[r], run)
    requires Linked(run, e, x.service, x.sent[r], cfg.sim) && RunAdvances(x.app.runs[r], run)
    ensures Inv(cfg, SetRun(x, r, run, e)) && Advances(x, SetRun(x, r, run, e))
  {
    hide Inv, Linked, RunAdvances, Advances, StoreInv;
    SoundOf(cfg, x);
    MoveInv(cfg.settings, x.app, r, run);
    RunStepInv(cfg, x, SetRun(x, r, run, e), r);
  }

  lemma MovesAdvance(a: W.Run, b: W.Run)
    requires Moves(a, b) && (b.jobId == a.jobId || a.jobId.None?) && a.serviceCursor <= b.serviceCursor
    requires a.cancelRequested ==> b.cancelRequested
    ensures RunAdvances(a, b)
  {
  }

  lemma SameHits(a: W.Run, b: W.Run)
    requires HitsDone(a) && SameProgress(a, b)
    ensures HitsDone(b)
  {
  }

  /** With its job known, the executor goes on to cancel it or to ask for its status. */
  lemma ProceedLinked(run: W.Run, sv: Service, request: JobRequest, sim: Simulator)
    requires Linked(run, AtStatus, sv, request, sim)
    ensures Linked(run.(state := W.Cancelling), AtCancel, sv, request, sim)
  {
    var run' := run.(state := W.Cancelling);
    hide JobLink, HitsSucceeded, HitsDone, RequestOf;
    SameHits(run, run');
    Relink(run, AtStatus, run', AtCancel, sv, request, sim);
  }

  lemma TurnLinked(run: W.Run, sv: Service, request: JobRequest, sim: Simulator)
    requires Linked(run, AtLoop, sv, request, sim)
    ensures Linked(run, if run.jobId.None? then AtSubmit else AtStatus, sv, request, sim)
  {
    hide JobLink, HitsSucceeded, HitsDone, RequestOf;
    Relink(run, AtLoop, run, if run.jobId.None? then AtSubmit else AtStatus, sv, request, sim);
  }

  lemma ActiveAt(run: W.Run, e: Exec, sv: Service, request: JobRequest, sim: Simulator)
    requires Linked(run, e, sv, request, sim) && !e.Absent?
    ensures run.Active()
  {
    hide JobLink, HitsSucceeded, HitsDone, RequestOf;
  }

  /** Going on from a run whose job is known. */
  lemma ProceedInv(cfg: Setup, x: World, r: nat, run: W.Run)
    requires Inv(cfg, x) && r in x.app.runs && r in x.sent && Moves(x.app.runs[r], run)
    requires run.jobId == x.app.runs[r].jobId || x.app.runs[r].jobId.None?
    requires run.serviceCursor == x.app.runs[r].serviceCursor
    requires run.cancelRequested == x.app.runs[r].cancelRequested
    requires Linked(run, AtStatus, x.service, x.sent[r], cfg.sim)
    ensures Inv(cfg, Proceed(x, r, run)) && Advances(x, Proceed(x, r, run))
  {
    hide Inv, Advances, Linked, RunAdvances;
    MovesAdvance(x.app.runs[r], run);
    if run.cancelRequested {
      var run' := run.(state := W.Cancelling);
      ProceedLinked(run, x.service, x.sent[r], cfg.sim);
      MovesAdvance(x.app.runs[r], run');
      SetRunStep(cfg, x, r, run', AtCancel);
    } else {
      SetRunStep(cfg, x, r, run, AtStatus);
    }
  }

  lemma TurnInv(cfg: Setup, x: World, r: nat)
    requires Inv(cfg, x) && r in x.app.runs && ExecOf(x, r).AtLoop?
    ensures Inv(cfg, TurnRun(x, r)) && Advances(x, TurnRun(x, r))
  {
    hide Inv, Advances, Linked, RunAdvances;
    LinkedAt(cfg, x, r);
    var run := x.app.runs[r];
    assert x.app.runs[r := run] == x.app.runs;
    ActiveAt(run, AtLoop, x.service, x.sent[r], cfg.sim);
    TurnLinked(run, x.service, x.sent[r], cfg.sim);
    if run.jobId.None? {
      ExecStepInv(cfg, x, r, AtSubmit);
    } else {
      ProceedInv(cfg, x, r, run);
    }
  }

  /** The reply to a submission makes the executor's job known: it was created for this run's very request. */
  lemma AcceptInv(cfg: Setup, x: World, r: nat)
    requires Inv(cfg, x) && r in x.app.runs && ExecOf(x, r).GotJob?
    ensures var y := Proceed(x, r, x.app.runs[r].(jobId := Some(ExecOf(x, r).job)));
            Inv(cfg, y) && Advances(x, y)
  {
    hide Inv, Advances, Linked, RunAdvances, Proceed;
    LinkedAt(cfg, x, r);
    var a := x.app.runs[r];
    var run := a.(jobId := Some(ExecOf(x, r).job));
    ActiveAt(a, ExecOf(x, r), x.service, x.sent[r], cfg.sim);
    AcceptedLink(a, run, x.service, x.sent[r], cfg.sim);
    ProceedInv(cfg, x, r, run);
  }

  lemma AcceptedLink(a: W.Run, run: W.Run, sv: Service, request: JobRequest, sim: Simulator)
    requires run.jobId.Some? && a.Active() && run == a.(jobId := run.jobId)
    requires Linked(a, GotJob(run.jobId.value), sv, request, sim)
    ensures a.jobId.None? && Linked(run, AtStatus, sv, request, sim)
  {
    RequestSame(a, run);
    assert NothingYet(a);
    assert HitsDone(run);
    hide Open, RequestOf, HitsDone;
    if run.jobId.value in sv.table.jobs {
      var job := sv.table.jobs[run.jobId.value];
      assert forall m: nat :: m < |run.serviceIndices| ==> Open(a, m) ==> Open(run, m) by { OpenSame(a, run); }
      assert Follows(run, job) && NoFurther(run, job);
    }
  }

  lemma OpenSame(a: W.Run, b: W.Run)
    requires b.outcomes == a.outcomes && b.serviceIndices == a.serviceIndices
    ensures forall m: nat :: Open(a, m) == Open(b, m)
  {
  }

  // ---------------------------------------------------------------------------------------------
  // Replies

  lemma RequestValid(cfg: Setup, x: World, r: nat)
    requires Inv(cfg, x) && r in x.app.runs && x.app.runs[r].serviceIndices != []
    ensures RequestOf(x.app.runs[r]).Valid()
  {
    hide Inv, RequestOf;
    SoundOf(cfg, x);
    hide Sound, ServiceInv;
    LengthsOf(cfg.settings, x.app, r, cfg.sim);
    hide RunShape;
    RequestInputs(x.app.runs[r]);
  }

  lemma SubmitInv(cfg: Setup, x: World, r: nat, now: real, later: real)
    requires Inv(cfg, x) && r in x.app.runs && ExecOf(x, r).AtSubmit?
    ensures Inv(cfg, SubmitRun(cfg, x, r, now, later)) && Advances(x, SubmitRun(cfg, x, r, now, later))
  {
    hide Inv, Advances, Linked, Serve, ReserveFor, RequestOf, ServiceInv, Sound;
    LinkedAt(cfg, x, r);
    HitsDoneAt(x.app.runs[r], ExecOf(x, r), x.service, x.sent[r], cfg.sim);
    RequestValid(cfg, x, r);
    SoundOf(cfg, x);
    var ev := Submission(Some(OfRun(r)), x.sent[r], now, later);
    ResubmissionNeverConflicts(cfg.limits, x.service, x.sent, cfg.sim, r, now, later);
    ServingInv(cfg, x, ev);
    var y := x.(service := Serve(cfg.limits, x.service, ev));
    LinkedAt(cfg, y, r);
    var reply := ReserveFor(cfg.limits, x.service, ev).1;
    var e := if reply.Reserved? then GotJob(reply.job) else AtFailure(W.SERVICE_REJECTED);
    SubmittedLink(y.app.runs[r], e, y.service, y.sent[r], cfg.sim);
    ExecStepInv(cfg, y, r, e);
    AdvancesTransitive(cfg, x, y, y.(exec := y.exec[r := e]));
  }

  lemma HitsDoneAt(run: W.Run, e: Exec, sv: Service, request: JobRequest, sim: Simulator)
    requires Linked(run, e, sv, request, sim) && (e.AtLoop? || Waits(e))
    ensures HitsDone(run) && run.serviceIndices != [] && run.Active() && RequestOf(run) == request
  {
    hide JobLink, HitsSucceeded, Verdict, RequestOf, PageOk;
  }

  lemma SubmittedLink(run: W.Run, e: Exec, sv: Service, request: JobRequest, sim: Simulator)
    requires Linked(run, AtSubmit, sv, request, sim) && (e.GotJob? || e == AtFailure(W.SERVICE_REJECTED))
    requires e.GotJob? ==> e.job in sv.requests && sv.requests[e.job] == request
    ensures Linked(run, e, sv, request, sim)
  {
    hide JobLink, HitsSucceeded, Verdict, RequestOf, HitsDone;
    WaitingToFail(run, AtSubmit, sv, request, sim);
  }

  /** Whoever waits for the service may always give up. */
  lemma WaitingToFail(run: W.Run, e: Exec, sv: Service, request: JobRequest, sim: Simulator)
    requires Linked(run, e, sv, request, sim) && !e.Absent?
    ensures forall error :: Expected(error) ==> Linked(run, AtFailure(error), sv, request, sim)
  {
    hide HitsSucceeded, HitsDone, Verdict, RequestOf, Follows, NothingYet;
  }

  lemma FailsInv(cfg: Setup, x: World, r: nat, error: W.AppError)
    requires Inv(cfg, x) && r in x.app.runs && !ExecOf(x, r).Absent? && Expected(error)
    ensures var y := x.(exec := x.exec[r := AtFailure(error)]);
            Inv(cfg, y) && Advances(x, y)
  {
    hide Inv, Advances, Linked;
    LinkedAt(cfg, x, r);
    WaitingToFail(x.app.runs[r], ExecOf(x, r), x.service, x.sent[r], cfg.sim);
    ExecStepInv(cfg, x, r, AtFailure(error));
  }

  lemma JobKnown(run: W.Run, e: Exec, sv: Service, request: JobRequest, sim: Simulator)
    requires Linked(run, e, sv, request, sim) && (e.AtCancel? || e.AtStatus? || e.AtPage? || e.GotPage?)
    ensures run.jobId.Some? && HitsDone(run) && run.jobId.value in sv.requests
    ensures sv.requests[run.jobId.value] == request
  {
    hide HitsSucceeded, HitsDone, Verdict, RequestOf, PageOk, Follows, NoFurther;
  }

  lemma CancelReplyInv(cfg: Setup, x: World, r: nat, now: real)
    requires Inv(cfg, x) && r in x.app.runs && ExecOf(x, r).AtCancel?
    ensures Inv(cfg, CancelUpstream(cfg, x, r, now)) && Advances(x, CancelUpstream(cfg, x, r, now))
  {
    hide Inv, Advances, Linked, Serve;
    LinkedAt(cfg, x, r);
    JobKnown(x.app.runs[r], AtCancel, x.service, x.sent[r], cfg.sim);
    var ev := CancelRequest(x.app.runs[r].jobId.value, now);
    ServingInv(cfg, x, ev);
    var y := x.(service := Serve(cfg.limits, x.service, ev));
    LinkedAt(cfg, y, r);
    var e := if ev.job in y.service.table.jobs then AtStatus else AtFailure(W.SERVICE_JOB_LOST);
    if e.AtStatus? {
      CancelToStatus(y.app.runs[r], y.service, y.sent[r], cfg.sim);
      ExecStepInv(cfg, y, r, e);
    } else {
      FailsInv(cfg, y, r, W.SERVICE_JOB_LOST);
    }
    AdvancesTransitive(cfg, x, y, y.(exec := y.exec[r := e]));
  }

  lemma CancelToStatus(run: W.Run, sv: Service, request: JobRequest, sim: Simulator)
    requires Linked(run, AtCancel, sv, request, sim)
    ensures Linked(run, AtStatus, sv, request, sim)
  {
    hide JobLink, HitsSucceeded, HitsDone, Verdict, RequestOf;
  }

  lemma JobAt(cfg: Setup, x: World, j: nat)
    requires Inv(cfg, x) && j in x.service.table.jobs
    ensures JobInv(x.service.table.jobs[j]) && j in x.service.requests
    ensures Faithful(x.service.table.jobs[j], x.service.requests[j], cfg.sim)
  {
    hide Sound, RunsLinked, Bookkeeping, NamesFaithful, JobInv, Faithful, SubmissionsOk, JobTable.CapacityOk;
  }

  lemma StatusReplyInv(cfg: Setup, x: World, r: nat, now: real)
    requires Inv(cfg, x) && r in x.app.runs && ExecOf(x, r).AtStatus?
    ensures Inv(cfg, ReadStatus(cfg, x, r, now)) && Advances(x, ReadStatus(cfg, x, r, now))
  {
    hide Inv, Advances, Linked, Serve, JobInv, Faithful;
    LinkedAt(cfg, x, r);
    JobKnown(x.app.runs[r], AtStatus, x.service, x.sent[r], cfg.sim);
    ServingInv(cfg, x, Expire(now));
    var y := x.(service := Serve(cfg.limits, x.service, Expire(now)));
    var j := y.app.runs[r].jobId.value;
    LinkedAt(cfg, y, r);
    var e := if j in y.service.table.jobs then AtPage(y.service.table.jobs[j].status) else AtFailure(W.SERVICE_JOB_LOST);
    if e.AtPage? {
      JobAt(cfg, y, j);
      StatusToPage(y.app.runs[r], y.service, y.sent[r], cfg.sim);
      ExecStepInv(cfg, y, r, e);
    } else {
      FailsInv(cfg, y, r, W.SERVICE_JOB_LOST);
    }
    AdvancesTransitive(cfg, x, y, y.(exec := y.exec[r := e]));
  }

  lemma StatusToPage(run: W.Run, sv: Service, request: JobRequest, sim: Simulator)
    requires Linked(run, AtStatus, sv, request, sim) && run.jobId.Some? && run.jobId.value in sv.table.jobs
    requires JobInv(sv.table.jobs[run.jobId.value])
    ensures Linked(run, AtPage(sv.table.jobs[run.jobId.value].status), sv, request, sim)
  {
    hide JobLink, HitsSucceeded, HitsDone, Verdict, RequestOf, LogMatches;
  }

  // ---------------------------------------------------------------------------------------------
  // The page that follows a status

  lemma PageReplyInv(cfg: Setup, x: World, r: nat, now: real)
    requires Inv(cfg, x) && r in x.app.runs && ExecOf(x, r).AtPage?
    ensures var y := ReadPage(cfg, x, r, ExecOf(x, r).seen, now);
            Inv(cfg, y) && Advances(x, y)
  {
    hide Inv, Advances, Linked, Serve, JobInv, Faithful, PageOf, Sound, RunShape;
    var seen := ExecOf(x, r).seen;
    LinkedAt(cfg, x, r);
    JobKnown(x.app.runs[r], ExecOf(x, r), x.service, x.sent[r], cfg.sim);
    ServingInv(cfg, x, Expire(now));
    var y := x.(service := Serve(cfg.limits, x.service, Expire(now)));
    var run := y.app.runs[r];
    var j := run.jobId.value;
    LinkedAt(cfg, y, r);
    var e := if j in y.service.table.jobs then GotPage(seen, PageOf(y.service.table.jobs[j], run.serviceCursor))
             else AtFailure(W.SERVICE_JOB_LOST);
    if e.GotPage? {
      JobAt(cfg, y, j);
      SoundOf(cfg, y);
      LengthsOf(cfg.settings, y.app, r, cfg.sim);
      JobKnown(run, ExecOf(y, r), y.service, y.sent[r], cfg.sim);
      PageArrives(run, seen, y.service, y.sent[r], cfg.sim);
      ExecStepInv(cfg, y, r, e);
    } else {
      FailsInv(cfg, y, r, W.SERVICE_JOB_LOST);
    }
    AdvancesTransitive(cfg, x, y, y.(exec := y.exec[r := e]));
  }

  lemma PageArrives(run: W.Run, seen: JobState, sv: Service, request: JobRequest, sim: Simulator)
    requires Linked(run, AtPage(seen), sv, request, sim) && RunShape(run)
    requires run.jobId.Some? && run.jobId.value in sv.table.jobs && run.jobId.value in sv.requests
    requires sv.requests[run.jobId.value] == request
    requires JobInv(sv.table.jobs[run.jobId.value]) && Faithful(sv.table.jobs[run.jobId.value], request, sim)
    ensures Linked(run, GotPage(seen, PageOf(sv.table.jobs[run.jobId.value], run.serviceCursor)), sv, request, sim)
  {
    var job := sv.table.jobs[run.jobId.value];
    LinkGives(run, seen, sv, request, sim);
    PageIsSuffix(run, job);
    PageFresh(run, job, request, sim);
    RequestInputs(run);
    if seen.Terminal() { PageCloses(run, job, seen); }
    assert PageOk(run, seen, PageOf(job, run.serviceCursor), sv, sim);
    hide PageOk, JobLink, HitsSucceeded, HitsDone, Verdict, RequestOf, JobInv, Faithful, RunShape;
  }

  lemma LinkGives(run: W.Run, seen: JobState, sv: Service, request: JobRequest, sim: Simulator)
    requires Linked(run, AtPage(seen), sv, request, sim)
    requires run.jobId.Some? && run.jobId.value in sv.table.jobs
    ensures var job := sv.table.jobs[run.jobId.value];
            && Follows(run, job) && NoFurther(run, job) && RequestOf(run) == request && run.serviceIndices != []
            && (seen.Terminal() ==> EndedAs(job, seen))
  {
    hide Follows, NoFurther, HitsSucceeded, Verdict, RequestOf, EndedAs;
  }

  lemma PageIsSuffix(run: W.Run, job: Job)
    requires JobInv(job) && run.serviceCursor <= |job.outcomes|
    ensures PageOf(job, run.serviceCursor) == Page(job.outcomes[run.serviceCursor..], |job.outcomes|)
    ensures PageFrom(run, PageOf(job, run.serviceCursor), job)
  {
    AfterIsSuffix(job.outcomes, run.serviceCursor);
  }

  lemma PageFresh(run: W.Run, job: Job, request: JobRequest, sim: Simulator)
    requires RunShape(run) && JobInv(job) && Faithful(job, request, sim) && RequestOf(run) == request
    requires Follows(run, job) && NoFurther(run, job)
    ensures Fresh(run, job.outcomes[run.serviceCursor..], sim)
    ensures forall k :: 0 <= k < |job.outcomes[run.serviceCursor..]| ==>
              Open(run, job.outcomes[run.serviceCursor..][k].index)
  {
    RequestInputs(run);
    var sc, log := run.serviceCursor, job.outcomes;
    var page := log[sc..];
    hide RequestOf, StatusMatches, Open, OutcomeIs;
    forall k | 0 <= k < |page|
      ensures Genuine(run, page[k], sim) && page[k].cursor > sc && Open(run, page[k].index)
    {
      var o := log[sc + k];
      assert page[k] == o && TrueResult(o, request, sim);
      forall l | 0 <= l < |log[..sc]| ensures log[..sc][l].index != o.index { assert log[l].index != log[sc + k].index; }
      assert !InPage(log[..sc], o.index);
    }
  }

  /** Status before page: when the status said the job had ended, log and page together account for every model. */
  lemma PageCloses(run: W.Run, job: Job, seen: JobState)
    requires JobInv(job) && EndedAs(job, seen) && Follows(run, job) && |job.states| == |run.serviceIndices|
    ensures exists states :: ClosesAs(run, seen, job.outcomes[run.serviceCursor..], states)
  {
    var sc, log := run.serviceCursor, job.outcomes;
    hide OutcomeIs;
    forall m | 0 <= m < |job.states|
      ensures OutcomeIs(run, m, job.states[m]) || OnPage(log[sc..], m, job.states[m])
    {
      assert job.states[m].Terminal() && Logged(log, m);
      var k :| 0 <= k < |log| && log[k].index == m;
      if k >= sc { assert log[sc..][k - sc] == log[k]; }
    }
    assert ClosesAs(run, seen, log[sc..], job.states);
  }
}
