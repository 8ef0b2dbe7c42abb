/** What an executor gets done: a round of its loop, a lost call, and the way out of every position. */
module ProtocolProgress {
  import opened Common
  import opened Jobs
  import opened JobTable
  import opened ServiceHistory
  import opened ExecuteSteps
  import opened RunSteps
  import opened WorkspaceInvariant
  import opened Protocol
  import opened ProtocolInvariant
  import opened ProtocolSteps
  import opened ProtocolClosing
  import opened ProtocolUsers
  import opened ProtocolTheorems
  import opened StoreOperations
  import opened ResultCache
  import W = Workspaces

  /** How a run shows what the service said about its job. */
  ghost predicate Shows(state: W.RunState, seen: JobState) {
    && (state == W.Queued <==> seen == JobQueued)
    && (state == W.Running <==> seen == JobRunning)
    && (state == W.Completed <==> seen == Completed)
    && (state == W.CompletedWithErrors <==> seen == CompletedWithErrors)
    && (state == W.Cancelled <==> seen == JobCancelled)
  }

  // ---------------------------------------------------------------------------------------------
  // One round of the loop

  /** The steps of an executor, each by its own function. */
  lemma StepsAre(cfg: Setup, x: World, r: nat, now: real, later: real)
    requires r in x.app.runs
    ensures ExecOf(x, r).AtLoop? ==> Enabled(cfg, x, Turn(r)) && Next(cfg, x, Turn(r)) == TurnRun(x, r)
    ensures ExecOf(x, r).AtSubmit? ==>
              Enabled(cfg, x, SubmitReply(r, now, later))
              && Next(cfg, x, SubmitReply(r, now, later)) == SubmitRun(cfg, x, r, now, later)
    ensures ExecOf(x, r).GotJob? ==>
              Enabled(cfg, x, Accept(r))
              && Next(cfg, x, Accept(r)) == Proceed(x, r, x.app.runs[r].(jobId := Some(ExecOf(x, r).job)))
    ensures ExecOf(x, r).AtStatus? ==>
              Enabled(cfg, x, StatusReply(r, now)) && Next(cfg, x, StatusReply(r, now)) == ReadStatus(cfg, x, r, now)
    ensures ExecOf(x, r).AtPage? ==>
              Enabled(cfg, x, PageReply(r, now))
              && Next(cfg, x, PageReply(r, now)) == ReadPage(cfg, x, r, ExecOf(x, r).seen, now)
  {
    hide TurnRun, SubmitRun, Proceed, ReadStatus, ReadPage;
  }

  lemma ApplyIs(cfg: Setup, x: World, w: nat, r: nat)
    requires RunOf(x.app, w, r) && ExecOf(x, r).GotPage?
    ensures Enabled(cfg, x, Apply(w, r))
    ensures var (s, e) := Applied(cfg, x.app, w, r, ExecOf(x, r).seen, ExecOf(x, r).page);
            Next(cfg, x, Apply(w, r)) == x.(app := s, exec := x.exec[r := e])
  {
    hide Applied;
  }

  /** With its job known, the executor asks for its status, or has it cancelled first when that was asked for. */
  lemma TurnTakes(cfg: Setup, x: World, r: nat)
    requires r in x.app.runs && ExecOf(x, r).AtLoop?
    ensures var run, y := x.app.runs[r], Next(cfg, x, Turn(r));
            && Enabled(cfg, x, Turn(r)) && y.service == x.service && r in y.app.runs
            && ExecOf(y, r) == (if run.jobId.None? then AtSubmit else if run.cancelRequested then AtCancel else AtStatus)
            && y.app.runs[r] == run.(state := y.app.runs[r].state)
            && y.app.runs[r].state == (if run.jobId.Some? && run.cancelRequested then W.Cancelling else run.state)
  {
    hide Enabled, Next;
    StepsAre(cfg, x, r, 0.0, 0.0);
  }

  /** A submission either gets the run a job with its own content, kept by the service, or fails it. */
  lemma SubmissionTakes(cfg: Setup, x: World, r: nat, now: real, later: real)
    requires Reached(cfg, x) && r in x.app.runs && ExecOf(x, r).AtSubmit?
    ensures var y := Next(cfg, x, SubmitReply(r, now, later));
            && Enabled(cfg, x, SubmitReply(r, now, later)) && y.app == x.app && r in x.sent
            && (ExecOf(y, r) == AtFailure(W.SERVICE_REJECTED)
                || (ExecOf(y, r).GotJob? && ExecOf(y, r).job in y.service.table.jobs
                    && ExecOf(y, r).job in y.service.requests && y.service.requests[ExecOf(y, r).job] == x.sent[r]))
  {
    hide Reached, Inv, Linked, Enabled, Next;
    ReachedInv(cfg, x);
    StepsAre(cfg, x, r, now, later);
    LinkedAt(cfg, x, r);
    HitsDoneAt(x.app.runs[r], AtSubmit, x.service, x.sent[r], cfg.sim);
    RequestValid(cfg, x, r);
    SoundOf(cfg, x);
    hide ServiceInv, Sound, RequestOf, Serve, ReserveFor, HitsDone;
    ResubmissionNeverConflicts(cfg.limits, x.service, x.sent, cfg.sim, r, now, later);
  }

  /** The job becomes the run's own. */
  lemma AcceptTakes(cfg: Setup, x: World, r: nat)
    requires r in x.app.runs && ExecOf(x, r).GotJob?
    ensures var run, y := x.app.runs[r], Next(cfg, x, Accept(r));
            && Enabled(cfg, x, Accept(r)) && y.service == x.service && r in y.app.runs
            && y.app.runs[r].jobId == Some(ExecOf(x, r).job)
            && ExecOf(y, r) == (if run.cancelRequested then AtCancel else AtStatus)
  {
    hide Enabled, Next;
    StepsAre(cfg, x, r, 0.0, 0.0);
  }

  lemma KeptAt(cfg: Setup, x: World, j: nat, now: real)
    requires Inv(cfg, x)
    ensures var jobs := Prune(cfg.limits, x.service.table, now).jobs;
            if j in x.service.table.jobs && Lives(cfg.limits, x.service.table.jobs[j], now)
            then j in jobs && jobs[j] == x.service.table.jobs[j] && JobInv(jobs[j]) else j !in jobs
  {
    hide Inv, TableInv, Prune, JobInv, Lives;
    TableOf(cfg, x);
    PruneRemovesExpired(cfg.limits, x.service.table, now);
    if j in x.service.table.jobs { JobOf(cfg, x, j); }
  }

  lemma JobOf(cfg: Setup, x: World, j: nat)
    requires Inv(cfg, x) && j in x.service.table.jobs
    ensures JobInv(x.service.table.jobs[j])
  {
    hide Inv;
    JobAt(cfg, x, j);
  }

  lemma ExpireIs(cfg: Setup, sv: Service, now: real)
    ensures Serve(cfg.limits, sv, Expire(now)) == sv.(table := Prune(cfg.limits, sv.table, now))
  {
    hide Prune;
  }

  lemma ReadStatusIs(cfg: Setup, x: World, r: nat, now: real)
    requires r in x.app.runs && x.app.runs[r].jobId.Some?
    ensures var y, j := ReadStatus(cfg, x, r, now), x.app.runs[r].jobId.value;
            var jobs := Prune(cfg.limits, x.service.table, now).jobs;
            && y.app == x.app && y.service.table.jobs == jobs
            && ExecOf(y, r) == if j in jobs then AtPage(jobs[j].status) else AtFailure(W.SERVICE_JOB_LOST)
  {
    hide Serve, Prune, Count;
    ExpireIs(cfg, x.service, now);
  }

  lemma ReadPageIs(cfg: Setup, x: World, r: nat, seen: JobState, now: real)
    requires r in x.app.runs && x.app.runs[r].jobId.Some?
    ensures var y, j := ReadPage(cfg, x, r, seen, now), x.app.runs[r].jobId.value;
            var jobs := Prune(cfg.limits, x.service.table, now).jobs;
            && y.app == x.app && y.service.table.jobs == jobs
            && ExecOf(y, r) == if j in jobs then GotPage(seen, PageOf(jobs[j], x.app.runs[r].serviceCursor))
                               else AtFailure(W.SERVICE_JOB_LOST)
  {
    hide Serve, Prune, PageOf;
    ExpireIs(cfg, x.service, now);
  }

  /** The status is that of the run's own job, and a job the service no longer has fails the run. */
  lemma StatusTakes(cfg: Setup, x: World, r: nat, now: real)
    requires Inv(cfg, x) && r in x.app.runs && ExecOf(x, r).AtStatus? && x.app.runs[r].jobId.Some?
    ensures Enabled(cfg, x, StatusReply(r, now)) && Next(cfg, x, StatusReply(r, now)) == ReadStatus(cfg, x, r, now)
    ensures var y, j := ReadStatus(cfg, x, r, now), x.app.runs[r].jobId.value;
            && y.app == x.app
            && if j in x.service.table.jobs && Lives(cfg.limits, x.service.table.jobs[j], now)
               then ExecOf(y, r) == AtPage(x.service.table.jobs[j].status)
                    && j in y.service.table.jobs && y.service.table.jobs[j] == x.service.table.jobs[j]
               else ExecOf(y, r) == AtFailure(W.SERVICE_JOB_LOST)
  {
    hide Inv, Enabled, Next, Prune, JobInv, Lives, ReadStatus;
    StepsAre(cfg, x, r, now, now);
    ReadStatusIs(cfg, x, r, now);
    KeptAt(cfg, x, x.app.runs[r].jobId.value, now);
  }

  /** The page holds the rest of the job's log. */
  lemma PageTakes(cfg: Setup, x: World, r: nat, now: real)
    requires Inv(cfg, x) && r in x.app.runs && ExecOf(x, r).AtPage? && x.app.runs[r].jobId.Some?
    requires x.app.runs[r].jobId.value in x.service.table.jobs
    requires Lives(cfg.limits, x.service.table.jobs[x.app.runs[r].jobId.value], now)
    requires x.app.runs[r].serviceCursor <= |x.service.table.jobs[x.app.runs[r].jobId.value].outcomes|
    ensures Enabled(cfg, x, PageReply(r, now))
    ensures Next(cfg, x, PageReply(r, now)) == ReadPage(cfg, x, r, ExecOf(x, r).seen, now)
    ensures var y, j := ReadPage(cfg, x, r, ExecOf(x, r).seen, now), x.app.runs[r].jobId.value;
            var log := x.service.table.jobs[j].outcomes;
            && y.app == x.app
            && ExecOf(y, r) == GotPage(ExecOf(x, r).seen, Page(log[x.app.runs[r].serviceCursor..], |log|))
            && j in y.service.table.jobs && y.service.table.jobs[j] == x.service.table.jobs[j]
  {
    hide Inv, Enabled, Next, Prune, JobInv, Lives, PageOf, ReadPage;
    StepsAre(cfg, x, r, now, now);
    ReadPageIs(cfg, x, r, ExecOf(x, r).seen, now);
    KeptAt(cfg, x, x.app.runs[r].jobId.value, now);
    PageIsSuffix(x.app.runs[r], x.service.table.jobs[x.app.runs[r].jobId.value]);
  }

  /** What applying a page makes of a run. */
  ghost predicate AppliedTo(a: W.Run, seen: JobState, page: Page, b: W.Run, e: Exec) {
    e == AtFailure(W.RESULT_TOO_LARGE)
    || (&& b.serviceCursor == page.nextCursor && b.jobId == a.jobId && b.cancelRequested == a.cancelRequested
        && e == (if seen.Terminal() then Absent else AtLoop)
        && (if seen.Terminal() || !a.cancelRequested then Shows(b.state, seen) else b.state == W.Cancelling))
  }

  /** With a page applied, the run has read as far as the page went, and goes on or closes as the status said. */
  lemma ApplyTakes(cfg: Setup, x: World, w: nat, r: nat)
    requires Inv(cfg, x) && RunOf(x.app, w, r) && ExecOf(x, r).GotPage?
    ensures r in x.app.runs && Enabled(cfg, x, Apply(w, r))
    ensures var y := Next(cfg, x, Apply(w, r));
            && y.service == x.service && r in y.app.runs
            && AppliedTo(x.app.runs[r], ExecOf(x, r).seen, ExecOf(x, r).page, y.app.runs[r], ExecOf(y, r))
  {
    hide Inv, Applied, Enabled, Next, Advances, AppliedTo;
    ApplyIs(cfg, x, w, r);
    AppliedIs(cfg, x, w, r);
  }

  lemma AppliedIs(cfg: Setup, x: World, w: nat, r: nat)
    requires Inv(cfg, x) && RunOf(x.app, w, r) && ExecOf(x, r).GotPage?
    ensures var (s, e) := Applied(cfg, x.app, w, r, ExecOf(x, r).seen, ExecOf(x, r).page);
            r in s.runs && AppliedTo(x.app.runs[r], ExecOf(x, r).seen, ExecOf(x, r).page, s.runs[r], e)
  {
    hide Inv, Linked, ApplyPage, Sound, OnlyRun, PageOnly, Fresh, Open, AfterPage, ClosesAs, OutcomeIs, AppliedTo;
    hide HitsDone, HitsSucceeded, KeepsOutcomes, Advances;
    var seen, page := ExecOf(x, r).seen, ExecOf(x, r).page;
    LinkedAt(cfg, x, r);
    SoundOf(cfg, x);
    PageFacts(x.app.runs[r], seen, page, x.service, x.sent[r], cfg.sim);
    ApplyPageSound(cfg.settings, x.app, r, page.outcomes, cfg.sim);
    ApplyInv(cfg, x, w, r);
    var (s, e) := ApplyPage(cfg.settings, x.app, r, page.outcomes);
    OnlyRunGives(x.app, s, r);
    if e.None? {
      AfterPageIs(s, w, r, seen, page);
      PassedOn(x.app.runs[r], s.runs[r], seen, page, AfterPage(s, w, r, seen, page).0.runs[r], AfterPage(s, w, r, seen, page).1);
    } else {
      TooLargeApplied(x.app.runs[r], seen, page, s.runs[r]);
    }
  }

  lemma TooLargeApplied(a: W.Run, seen: JobState, page: Page, b: W.Run)
    ensures AppliedTo(a, seen, page, b, AtFailure(W.RESULT_TOO_LARGE))
  {
  }

  lemma PassedOn(a: W.Run, m: W.Run, seen: JobState, page: Page, b: W.Run, e: Exec)
    requires OutcomesOnly(a, m)
    requires AppliedTo(m, seen, page, b, e) || e == AtFailure(W.SERVICE_INVALID_RESPONSE)
    requires e.AtFailure? ==> e.error == W.RESULT_TOO_LARGE
    ensures AppliedTo(a, seen, page, b, e)
  {
  }

  lemma AfterPageIs(s: W.Store, w: nat, r: nat, seen: JobState, page: Page)
    requires w in s.workspaces && r in s.runs
    ensures var (s', e) := AfterPage(s, w, r, seen, page);
            r in s'.runs && (AppliedTo(s.runs[r], seen, page, s'.runs[r], e) || e == AtFailure(W.SERVICE_INVALID_RESPONSE))
  {
    hide CloseRun, AllComplete;
    CloseGives(s.(runs := s.runs[r := s.runs[r].(serviceCursor := page.nextCursor)]), w, r, RunStateOf(seen));
  }

  function Reading(w: nat, r: nat, now: real): seq<Event> { [StatusReply(r, now), PageReply(r, now), Apply(w, r)] }

  lemma ThreeSteps(cfg: Setup, x: World, a: Event, b: Event, c: Event)
    requires Enabled(cfg, x, a) && Enabled(cfg, Next(cfg, x, a), b) && Enabled(cfg, Next(cfg, Next(cfg, x, a), b), c)
    ensures Legal(cfg, x, [a, b, c])
    ensures Final(cfg, x, [a, b, c]) == Next(cfg, Next(cfg, Next(cfg, x, a), b), c)
  {
    hide Enabled, Next;
    var y := Next(cfg, x, a);
    var z := Next(cfg, y, b);
    assert [a, b, c][1..] == [b, c] && [b, c][1..] == [c] && [c][1..] == [];
    assert Legal(cfg, Next(cfg, z, c), []);
    assert Legal(cfg, z, [c]) && Legal(cfg, y, [b, c]);
    assert Final(cfg, z, [c]) == Next(cfg, z, c) && Final(cfg, y, [b, c]) == Final(cfg, z, [c]);
  }

  /** All the service has to say about a run's job is recorded, and the run shows how far the job is. */
  ghost predicate UpToDate(x: World, r: nat, job: Job) {
    && r in x.app.runs && x.app.runs[r].serviceCursor == |job.outcomes|
    && (forall k :: 0 <= k < |job.outcomes| ==> RecordedAs(x.app.runs[r], job.outcomes[k]))
    && ExecOf(x, r) == (if job.status.Terminal() then Absent else AtLoop)
    && (if job.status.Terminal() || !x.app.runs[r].cancelRequested then Shows(x.app.runs[r].state, job.status)
        else x.app.runs[r].state == W.Cancelling)
  }

  /**
   * One undisturbed round of reading: while the service keeps the job, the run records every outcome there is, and
   * when the job has ended closes as the job did; otherwise it is ready for the next round.  It fails for an over-size
   * result only.
   */
  lemma RoundReads(cfg: Setup, x: World, w: nat, r: nat, now: real)
    requires Reached(cfg, x) && RunOf(x.app, w, r) && ExecOf(x, r).AtStatus? && x.app.runs[r].jobId.Some?
    requires x.app.runs[r].jobId.value in x.service.table.jobs
    requires Lives(cfg.limits, x.service.table.jobs[x.app.runs[r].jobId.value], now)
    ensures Legal(cfg, x, Reading(w, r, now))
    ensures var y := Final(cfg, x, Reading(w, r, now));
            ExecOf(y, r) == AtFailure(W.RESULT_TOO_LARGE) || UpToDate(y, r, x.service.table.jobs[x.app.runs[r].jobId.value])
  {
    hide Reached, Inv, Advances, Next, Enabled, Shows, JobInv, Lives, Legal, Final, ReadStatus, ReadPage;
    ReachedInv(cfg, x);
    var j := x.app.runs[r].jobId.value;
    CursorWithin(cfg, x, r);
    StatusTakes(cfg, x, r, now);
    StepInv(cfg, x, StatusReply(r, now));
    var x1 := Next(cfg, x, StatusReply(r, now));
    PageTakes(cfg, x1, r, now);
    StepInv(cfg, x1, PageReply(r, now));
    var x2 := Next(cfg, x1, PageReply(r, now));
    ApplyTakes(cfg, x2, w, r);
    StepInv(cfg, x2, Apply(w, r));
    var y := Next(cfg, x2, Apply(w, r));
    ThreeSteps(cfg, x, StatusReply(r, now), PageReply(r, now), Apply(w, r));
    if ExecOf(y, r) != AtFailure(W.RESULT_TOO_LARGE) { RecordedSoFar(cfg, y, r, j); }
  }

  lemma CursorWithin(cfg: Setup, x: World, r: nat)
    requires Inv(cfg, x) && r in x.app.runs && x.app.runs[r].jobId.Some?
    requires x.app.runs[r].jobId.value in x.service.table.jobs
    ensures x.app.runs[r].serviceCursor <= |x.service.table.jobs[x.app.runs[r].jobId.value].outcomes|
  {
    hide Inv, ExecLink, HitsSucceeded, Verdict, RequestOf;
    LinkedAt(cfg, x, r);
  }

  lemma RecordedSoFar(cfg: Setup, x: World, r: nat, j: nat)
    requires Inv(cfg, x) && r in x.app.runs && x.app.runs[r].jobId == Some(j) && j in x.service.table.jobs
    ensures var log := x.service.table.jobs[j].outcomes;
            forall k :: 0 <= k < x.app.runs[r].serviceCursor ==>
              k < |log| && RecordedAs(x.app.runs[r], log[k])
  {
    hide Inv, ExecLink, HitsSucceeded, Verdict, RequestOf;
    LinkedAt(cfg, x, r);
  }

  // ---------------------------------------------------------------------------------------------
  // Lost calls, failures, and what users do

  /** A lost call costs nothing but the call: the run tries again, or waits to be resumed. */
  lemma LossTakes(cfg: Setup, x: World, r: nat, pause: bool)
    requires r in x.app.runs && Waits(ExecOf(x, r))
    ensures Enabled(cfg, x, Unavailable(r, pause)) && Next(cfg, x, Unavailable(r, pause)) == LoseReply(x, r, pause)
    ensures var y, run := LoseReply(x, r, pause), x.app.runs[r];
            && y.service == x.service && r in y.app.runs && ExecOf(y, r) == (if pause then Absent else AtLoop)
            && y.app.runs[r] == run.(state := W.Reconnecting, retryPaused := pause || run.retryPaused)
            && y.app.workspaces == x.app.workspaces && y.app.cache == x.app.cache
  {
    hide LoseReply;
    assert Next(cfg, x, Unavailable(r, pause)) == LoseReply(x, r, pause);
    LossIs(x, r, pause);
  }

  lemma LossIs(x: World, r: nat, pause: bool)
    requires r in x.app.runs
    ensures var y, run := LoseReply(x, r, pause), x.app.runs[r];
            && y.service == x.service && r in y.app.runs && ExecOf(y, r) == (if pause then Absent else AtLoop)
            && y.app.runs[r] == run.(state := W.Reconnecting, retryPaused := pause || run.retryPaused)
            && y.app.workspaces == x.app.workspaces && y.app.cache == x.app.cache
  {
  }

  lemma {:induction false} NoHitsLeft(cfg: W.Settings, s: W.Store, r: nat, i: nat, n: nat)
    requires r in s.runs && i <= n == |s.runs[r].cacheKeys| == |s.runs[r].outcomes|
    requires forall k :: 0 <= k < n && k !in s.runs[r].serviceIndices ==> s.runs[r].outcomes[k].cursor > 0
    ensures CompleteHits(cfg, s, r, i, n) == (s, None)
    decreases n - i
  {
    if i < n { NoHitsLeft(cfg, s, r, i + 1, n); }
  }

  /** A paused run that is resumed goes on where it was, with its job, its cursor and all its outcomes. */
  lemma ResumeTakes(cfg: Setup, x: World, w: nat, r: nat)
    requires Inv(cfg, x) && RunOf(x.app, w, r) && Waits(ExecOf(x, r))
    ensures var y := ResumeByUser(LoseReply(x, r, true), w, r);
            && RunOf(y.app, w, r) && ExecOf(y, r).AtHits?
            && var z := BeginRun(cfg, y, w, r, true);
            && r in z.app.runs && ExecOf(z, r).AtLoop? && z.service == x.service && z.app.cache == x.app.cache
            && z.app.runs[r] == x.app.runs[r].(state := W.Reconnecting, retryPaused := false)
  {
    ReadyAgain(cfg, x, r);
    hide Inv, HitsDone, CompleteHits, Waits;
    Relaunched(x, w, r);
    var y := ResumeByUser(LoseReply(x, r, true), w, r);
    hide ResumeByUser, LoseReply;
    NoHitsLeft(cfg.settings, y.app, r, 0, |y.app.runs[r].cacheKeys|);
  }

  lemma ReadyAgain(cfg: Setup, x: World, r: nat)
    requires Inv(cfg, x) && r in x.app.runs && Waits(ExecOf(x, r))
    ensures var run := x.app.runs[r];
            && run.serviceIndices != [] && !run.state.Terminal() && |run.cacheKeys| == |run.outcomes|
            && forall i :: 0 <= i < |run.outcomes| && i !in run.serviceIndices ==> run.outcomes[i].cursor > 0
  {
    hide Inv, Linked, Sound;
    LinkedAt(cfg, x, r);
    HitsDoneAt(x.app.runs[r], ExecOf(x, r), x.service, x.sent[r], cfg.sim);
    SoundOf(cfg, x);
    LengthsOf(cfg.settings, x.app, r, cfg.sim);
  }

  lemma Relaunched(x: World, w: nat, r: nat)
    requires RunOf(x.app, w, r)
    ensures var y := ResumeByUser(LoseReply(x, r, true), w, r);
            && RunOf(y.app, w, r) && ExecOf(y, r).AtHits? && y.service == x.service && y.app.cache == x.app.cache
            && y.app.runs[r] == x.app.runs[r].(state := W.Reconnecting, retryPaused := false)
  {
  }

  /** A launched run has all its cache hits recorded as successes; with nothing left to ask for it is completed. */
  lemma BeginTakes(cfg: Setup, x: World, w: nat, r: nat, bodyFits: bool)
    requires Inv(cfg, x) && RunOf(x.app, w, r) && ExecOf(x, r).AtHits?
    ensures var y, run := BeginRun(cfg, x, w, r, bodyFits), x.app.runs[r];
            && r in y.app.runs && y.service == x.service
            && (ExecOf(y, r).AtFailure? ==> y.app.workspaces == x.app.workspaces)
            && (ExecOf(y, r) == AtFailure(W.RESULT_TOO_LARGE)
                || (&& (forall i :: 0 <= i < |y.app.runs[r].outcomes| && i !in run.serviceIndices ==>
                          y.app.runs[r].outcomes[i].cursor > 0 && y.app.runs[r].outcomes[i].status == Succeeded)
                    && ExecOf(y, r) == (if run.serviceIndices == [] then Absent
                                        else if bodyFits then AtLoop else AtFailure(W.BODY_TOO_LARGE))
                    && (run.serviceIndices == [] ==> y.app.runs[r].state == W.Completed)))
  {
    hide Inv, Linked, CompleteHits, Sound, OnlyRun, HitsOnly, HitsSucceeded, CloseRun, Advances;
    LinkedAt(cfg, x, r);
    SoundOf(cfg, x);
    var a := x.app.runs[r];
    HitsSucceededAt(a, x.service, x.sent[r], cfg.sim);
    CompleteHitsSound(cfg.settings, x.app, r, 0, |a.cacheKeys|, cfg.sim);
    LengthsOf(cfg.settings, x.app, r, cfg.sim);
    var (s, e) := CompleteHits(cfg.settings, x.app, r, 0, |a.cacheKeys|);
    OnlyRunGives(x.app, s, r);
    HitsLinked(a, s.runs[r], x.service, x.sent[r], cfg.sim);
    HitsSucceededAt(s.runs[r], x.service, x.sent[r], cfg.sim);
    HitsAre(s.runs[r]);
    CloseGives(s, w, r, W.Completed);
  }

  lemma HitsAre(run: W.Run)
    requires HitsSucceeded(run)
    ensures forall i :: 0 <= i < |run.outcomes| && i !in run.serviceIndices && run.outcomes[i].cursor > 0 ==>
              run.outcomes[i].status == Succeeded
  {
  }

  /** A failing run closes: what was recorded stays, everything else has failed with its error. */
  lemma FailTakes(cfg: Setup, x: World, w: nat, r: nat)
    requires Inv(cfg, x) && RunOf(x.app, w, r) && ExecOf(x, r).AtFailure?
    ensures var y, a := FailRun(x, w, r, ExecOf(x, r).error), x.app.runs[r];
            && r in y.app.runs && ExecOf(y, r).Absent? && y.app.runs[r].state == W.Failed && y.service == x.service
            && |y.app.runs[r].outcomes| == |a.outcomes| && y.app.runs[r].results == a.results
            && forall i :: 0 <= i < |a.outcomes| ==>
                 var o := y.app.runs[r].outcomes[i];
                 if a.outcomes[i].cursor > 0 then o == a.outcomes[i]
                 else o.status == Failed && o.error == Some(ExecOf(x, r).error) && o.scenario == a.outcomes[i].scenario
  {
    hide Linked, FailOpen, CloseRun, RunOk, StoreInv;
    SoundOf(cfg, x);
    RunAt(cfg.settings, x.app, r);
    LinkedAt(cfg, x, r);
    ExpectedAt(x.app.runs[r], ExecOf(x, r).error, x.service, x.sent[r], cfg.sim);
    hide Inv, Sound;
    FailOpenRunOk(cfg.settings, x.app.runs[r], 0, ExecOf(x, r).error);
    var s := x.app.(runs := x.app.runs[r := FailOpen(x.app.runs[r], 0, ExecOf(x, r).error)]);
    CloseGives(s, w, r, W.Failed);
  }

  /** Cancelling marks an active run, as superseded too if a newer one takes its place, and sees to an executor. */
  lemma CancelTakes(x: World, w: nat, r: nat, supersede: bool)
    ensures var y := CancelByUser(x, w, r, supersede);
            if RunOf(x.app, w, r) && !x.app.runs[r].state.Terminal()
            then && r in y.app.runs && y.service == x.service
                 && y.app.runs[r].cancelRequested && y.app.runs[r].state == W.Cancelling
                 && y.app.runs[r].superseded == (x.app.runs[r].superseded || supersede)
                 && y.app.runs[r].outcomes == x.app.runs[r].outcomes
                 && ExecOf(y, r) == (if ExecOf(x, r).Absent? then AtHits else ExecOf(x, r))
            else y == x
  {
  }

  /** A run is launched, and its submission fixed, by the request that creates it; other requests launch nothing. */
  lemma RegisterTakes(cfg: Setup, x: World, ev: Event)
    requires Inv(cfg, x) && ev.Register? && Enabled(cfg, x, ev)
    ensures var y := RegisterByUser(cfg, x, ev);
            var reply := W.Register(cfg.settings, x.app, ev.w, ev.request, ev.scenarios, ev.taskSet, ev.now, ev.inputFits).1;
            if reply.Ok? && reply.value.created
            then && reply.value.run in y.app.runs && reply.value.run !in x.app.runs && ExecOf(y, reply.value.run).AtHits?
                 && reply.value.run in y.sent && y.sent[reply.value.run] == RequestOf(y.app.runs[reply.value.run])
            else y.exec == x.exec && y.sent == x.sent
  {
    hide StoreInv, ServiceInv, Linked, W.Register, LeavesRunsAlone, Agrees, RequestOf;
    RegisterInv(cfg.settings, x.app, ev.w, ev.request, ev.scenarios, ev.taskSet, ev.now, ev.inputFits);
    RunIds(cfg, x);
  }

  /** Users' other requests reach the store as they are, and touch neither the service nor any executor. */
  lemma EditsTake(cfg: Setup, x: World, ev: Event)
    requires Enabled(cfg, x, ev)
    requires ev.CreateWorkspace? || ev.DeleteWorkspace? || ev.SaveEditor? || ev.DeleteTaskSet? || ev.Compare? || ev.Read?
    ensures var y := Next(cfg, x, ev);
            && y == x.(app := y.app)
            && match ev
               case CreateWorkspace => y.app == W.Create(cfg.settings, x.app).0
               case DeleteWorkspace(w) => y.app == W.DeleteWorkspace(cfg.settings, x.app, w).0
               case SaveEditor(w, revision, valid, made, fits) =>
                 y.app == W.SaveEditor(cfg.settings, x.app, w, revision, valid, made, fits).0
               case DeleteTaskSet(w, id, revision) => y.app == W.DeleteTaskSet(x.app, w, id, revision).0
               case Compare(w, r, action) => y.app == W.Compare(cfg.settings, x.app, w, r, action).0
               case Read(w, r, scenario) =>
                 RunOf(x.app, w, r) ==> r in x.app.runs && y.app == W.ResultFor(x.app, r, scenario).0
               case _ => false
  {
    hide W.Create, W.DeleteWorkspace, W.SaveEditor, W.DeleteTaskSet, W.Compare, W.ResultFor;
  }

  // ---------------------------------------------------------------------------------------------
  // No run is stuck

  /** Some run of the system leads from one state to another. */
  ghost predicate LeadsTo(cfg: Setup, x: World, y: World) {
    exists events :: Legal(cfg, x, events) && y == Final(cfg, x, events)
  }

  lemma LeadsStep(cfg: Setup, x: World, ev: Event, z: World)
    requires Enabled(cfg, x, ev) && LeadsTo(cfg, Next(cfg, x, ev), z)
    ensures LeadsTo(cfg, x, z)
  {
    hide Enabled, Next;
    var more :| Legal(cfg, Next(cfg, x, ev), more) && z == Final(cfg, Next(cfg, x, ev), more);
    var events := [ev] + more;
    assert events[1..] == more;
    assert Legal(cfg, x, events) && z == Final(cfg, x, events);
  }

  lemma LeadsNowhere(cfg: Setup, x: World)
    ensures LeadsTo(cfg, x, x)
  {
    assert Legal(cfg, x, []) && x == Final(cfg, x, []);
  }

  ghost predicate Closed(x: World, r: nat) {
    r in x.app.runs && x.app.runs[r].state.Terminal() && ExecOf(x, r).Absent?
  }

  lemma StillThere(cfg: Setup, x: World, y: World, w: nat, r: nat)
    requires Inv(cfg, y) && RunOf(x.app, w, r) && r in y.app.runs && y.app.workspaces == x.app.workspaces
    ensures RunOf(y.app, w, r)
  {
  }

  lemma FromFailure(cfg: Setup, x: World, w: nat, r: nat) returns (z: World)
    requires Inv(cfg, x) && RunOf(x.app, w, r) && ExecOf(x, r).AtFailure?
    ensures LeadsTo(cfg, x, z) && Closed(z, r)
  {
    hide Inv, FailRun, Legal, Final;
    FailTakes(cfg, x, w, r);
    z := FailRun(x, w, r, ExecOf(x, r).error);
    assert Enabled(cfg, x, Fail(w, r)) && Next(cfg, x, Fail(w, r)) == z;
    hide Enabled, Next, LeadsTo;
    LeadsNowhere(cfg, z);
    LeadsStep(cfg, x, Fail(w, r), z);
  }

  lemma FromWaiting(cfg: Setup, x: World, w: nat, r: nat) returns (z: World)
    requires Inv(cfg, x) && RunOf(x.app, w, r) && Waits(ExecOf(x, r))
    ensures LeadsTo(cfg, x, z) && Closed(z, r)
  {
    hide Inv, Legal, Final, Advances;
    RejectedInv(cfg, x, r);
    var y := x.(exec := x.exec[r := AtFailure(W.SERVICE_REJECTED)]);
    assert Enabled(cfg, x, Rejected(r)) && Next(cfg, x, Rejected(r)) == y;
    hide Enabled, Next, LeadsTo;
    z := FromFailure(cfg, y, w, r);
    LeadsStep(cfg, x, Rejected(r), z);
  }

  lemma FromLoop(cfg: Setup, x: World, w: nat, r: nat) returns (z: World)
    requires Inv(cfg, x) && RunOf(x.app, w, r) && ExecOf(x, r).AtLoop?
    ensures LeadsTo(cfg, x, z) && Closed(z, r)
  {
    hide Inv, Legal, Final, Advances, Enabled, Next, LeadsTo, TurnRun;
    TurnTakes(cfg, x, r);
    StepsAre(cfg, x, r, 0.0, 0.0);
    StepInv(cfg, x, Turn(r));
    TurnStays(x, w, r);
    z := FromWaiting(cfg, Next(cfg, x, Turn(r)), w, r);
    LeadsStep(cfg, x, Turn(r), z);
  }

  lemma TurnStays(x: World, w: nat, r: nat)
    requires RunOf(x.app, w, r)
    ensures RunOf(TurnRun(x, r).app, w, r)
  {
  }

  lemma FromHits(cfg: Setup, x: World, w: nat, r: nat) returns (z: World)
    requires Inv(cfg, x) && RunOf(x.app, w, r) && ExecOf(x, r).AtHits?
    ensures LeadsTo(cfg, x, z) && Closed(z, r)
  {
    hide Inv, Legal, Final, Advances, BeginRun;
    assert Enabled(cfg, x, Begin(w, r, false)) && Next(cfg, x, Begin(w, r, false)) == BeginRun(cfg, x, w, r, false);
    hide Enabled, Next, LeadsTo;
    BeginTakes(cfg, x, w, r, false);
    BeginInv(cfg, x, w, r, false);
    var y := BeginRun(cfg, x, w, r, false);
    if ExecOf(y, r).AtFailure? {
      z := FromFailure(cfg, y, w, r);
    } else {
      z := y;
      LeadsNowhere(cfg, y);
    }
    LeadsStep(cfg, x, Begin(w, r, false), z);
  }

  /** Wherever an active run and its executor are, paused or not, the system can go on so that the run closes. */
  lemma NoRunIsStuck(cfg: Setup, x: World, w: nat, r: nat)
    requires Reached(cfg, x) && RunOf(x.app, w, r) && !x.app.runs[r].state.Terminal()
    ensures exists z :: LeadsTo(cfg, x, z) && Closed(z, r)
  {
    hide Inv, Legal, Final, Advances, LeadsTo;
    ReachedInv(cfg, x);
    hide Reached;
    match ExecOf(x, r) {
      case Absent =>
        ResumeByUserInv(cfg, x, w, r);
        var y := ResumeByUser(x, w, r);
        assert Enabled(cfg, x, Resume(w, r)) && Next(cfg, x, Resume(w, r)) == y;
        hide Enabled, Next;
        var z := FromHits(cfg, y, w, r);
        LeadsStep(cfg, x, Resume(w, r), z);
      case AtHits => var z := FromHits(cfg, x, w, r);
      case AtLoop => var z := FromLoop(cfg, x, w, r);
      case AtFailure(_) => var z := FromFailure(cfg, x, w, r);
      case _ => var z := FromWaiting(cfg, x, w, r);
    }
  }
}
