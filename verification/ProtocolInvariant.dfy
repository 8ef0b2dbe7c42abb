/** What links every run to its submission, its job and its executor, in every reachable state of the system. */
module ProtocolInvariant {
  import opened Common
  import opened Jobs
  import opened JobTable
  import opened ServiceHistory
  import opened ExecuteSteps
  import opened RunSteps
  import opened WorkspaceInvariant
  import opened Protocol
  import W = Workspaces

  // ---------------------------------------------------------------------------------------------
  // One run

  /** The errors a run can end with.  Missing outcomes, bad indices, conflicts and cache misses are not among them. */
  predicate Expected(e: W.AppError) {
    e == W.RESULT_TOO_LARGE || e == W.BODY_TOO_LARGE || e == W.SERVICE_JOB_LOST || e == W.SERVICE_REJECTED
  }

  predicate Failing(run: W.Run, e: Exec) { e.AtFailure? || run.state == W.Failed }

  /** The first entries of the job's log, up to the run's service cursor, are recorded in the run. */
  ghost predicate Follows(run: W.Run, job: Job) {
    && run.serviceCursor <= |job.outcomes|
    && forall k :: 0 <= k < run.serviceCursor ==> RecordedAs(run, job.outcomes[k])
  }

  /** And no later entry is. */
  ghost predicate NoFurther(run: W.Run, job: Job) {
    run.serviceCursor <= |job.outcomes| &&
    forall m: nat :: m < |run.serviceIndices| && !InPage(job.outcomes[..run.serviceCursor], m) ==> Open(run, m)
  }

  ghost predicate NothingYet(run: W.Run) {
    run.serviceCursor == 0 && forall m: nat :: m < |run.serviceIndices| ==> Open(run, m)
  }

  ghost predicate JobLink(run: W.Run, failing: bool, sv: Service, request: JobRequest) {
    match run.jobId
    case None => failing || NothingYet(run)
    case Some(j) =>
      && j in sv.requests && sv.requests[j] == request
      && (j in sv.table.jobs ==> Follows(run, sv.table.jobs[j]) && (failing || NoFurther(run, sv.table.jobs[j])))
  }

  ghost predicate HitsSucceeded(run: W.Run) {
    forall i :: 0 <= i < |run.outcomes| && i !in run.serviceIndices && run.outcomes[i].cursor > 0 ==>
      run.outcomes[i].status == Succeeded
  }

  ghost predicate HitsDone(run: W.Run) {
    run.serviceIndices != [] &&
    forall i :: 0 <= i < |run.outcomes| && i !in run.serviceIndices ==> run.outcomes[i].cursor > 0
  }

  /** A page closes a run as a given list of final model states: what is not recorded yet is on the page. */
  ghost predicate ClosesAs(run: W.Run, seen: JobState, page: seq<Outcome>, states: seq<ModelState>) {
    && |states| == |run.serviceIndices| && AllTerminal(states) && seen == FinalStatus(states)
    && forall m :: 0 <= m < |states| ==> OutcomeIs(run, m, states[m]) || OnPage(page, m, states[m])
  }

  ghost predicate OnPage(page: seq<Outcome>, m: nat, status: ModelState) {
    exists k :: 0 <= k < |page| && page[k].index == m && page[k].status == status
  }

  ghost predicate PageOk(run: W.Run, seen: JobState, page: Page, sv: Service, sim: Simulator) {
    && Fresh(run, page.outcomes, sim)
    && run.serviceCursor <= page.nextCursor
    && (forall k :: 0 <= k < |page.outcomes| ==> Open(run, page.outcomes[k].index))
    && (run.jobId.Some? && run.jobId.value in sv.table.jobs ==> PageFrom(run, page, sv.table.jobs[run.jobId.value]))
    && (seen.Terminal() ==> exists states :: ClosesAs(run, seen, page.outcomes, states))
  }

  ghost predicate PageFrom(run: W.Run, page: Page, job: Job) {
    && run.serviceCursor <= page.nextCursor <= |job.outcomes|
    && page.outcomes == job.outcomes[run.serviceCursor..page.nextCursor]
  }

  ghost predicate EndedAs(job: Job, seen: JobState) { job.terminalAt.Some? && job.status == seen }

  ghost predicate ExecLink(run: W.Run, e: Exec, sv: Service, request: JobRequest, sim: Simulator) {
    && (!e.Absent? ==> run.Active())
    && (e.AtFailure? ==> Expected(e.error))
    && (e.AtLoop? || Waits(e) ==> HitsDone(run))
    && (e.AtSubmit? || e.GotJob? ==> run.jobId.None?)
    && (e.AtCancel? || e.AtStatus? || e.AtPage? || e.GotPage? ==> run.jobId.Some?)
    && (e.GotJob? ==> e.job in sv.requests && sv.requests[e.job] == request)
    && (e.AtPage? && e.seen.Terminal() && run.jobId.value in sv.table.jobs ==>
          EndedAs(sv.table.jobs[run.jobId.value], e.seen))
    && (e.GotPage? ==> PageOk(run, e.seen, e.page, sv, sim))
  }

  /** What the final state of a run says about its outcomes. */
  ghost predicate Verdict(run: W.Run) {
    match run.state
    case Completed => forall i :: 0 <= i < |run.outcomes| ==> run.outcomes[i].status == Succeeded
    case CompletedWithErrors =>
      && (exists i :: 0 <= i < |run.outcomes| && run.outcomes[i].status == Failed)
      && (forall i :: 0 <= i < |run.outcomes| ==> run.outcomes[i].status != Cancelled)
    case Cancelled => exists i :: 0 <= i < |run.outcomes| && run.outcomes[i].status == Cancelled
    case _ => true
  }

  ghost predicate Linked(run: W.Run, e: Exec, sv: Service, request: JobRequest, sim: Simulator) {
    && RequestOf(run) == request
    && JobLink(run, Failing(run, e), sv, request)
    && (Failing(run, e) || HitsSucceeded(run))
    && ExecLink(run, e, sv, request, sim)
    && Verdict(run)
  }

  // ---------------------------------------------------------------------------------------------
  // The world

  ghost predicate RunsLinked(x: World, sim: Simulator) {
    forall r :: r in x.app.runs ==> r in x.sent && Linked(x.app.runs[r], ExecOf(x, r), x.service, x.sent[r], sim)
  }

  ghost predicate Bookkeeping(x: World) {
    && (forall r :: r in x.sent ==> r < x.app.nextRun)
    && (forall r :: r in x.exec && !x.exec[r].Absent? ==> r in x.app.runs)
  }

  ghost predicate Inv(cfg: Setup, x: World) {
    && Sound(cfg.settings, x.app, cfg.sim)
    && ServiceInv(cfg.limits, x.service, x.sent, cfg.sim)
    && RunsLinked(x, cfg.sim) && Bookkeeping(x)
  }

  // ---------------------------------------------------------------------------------------------
  // What one step, or many, can do to a run

  /** A run's identity and recorded outcomes are fixed, its job is chosen once; what is closed or cancelled stays so. */
  ghost predicate RunAdvances(a: W.Run, b: W.Run) {
    && b.taskSet == a.taskSet && b.request == a.request && b.cacheKeys == a.cacheKeys
    && b.serviceIndices == a.serviceIndices
    && KeepsOutcomes(a, b)
    && (a.jobId.Some? ==> b.jobId == a.jobId)
    && (a.cancelRequested ==> b.cancelRequested)
    && a.serviceCursor <= b.serviceCursor
    && (a.state.Terminal() ==> b == a.(pinned := b.pinned))
  }

  ghost predicate Advances(x: World, y: World) {
    && x.app.nextRun <= y.app.nextRun
    && (forall r :: r in y.app.runs ==>
          if r in x.app.runs then RunAdvances(x.app.runs[r], y.app.runs[r]) else x.app.nextRun <= r)
    && (forall r :: r in x.sent ==> r in y.sent && y.sent[r] == x.sent[r])
    && Moved(x.service, y.service)
  }

  lemma RunAdvancesReflexive(a: W.Run)
    ensures RunAdvances(a, a)
  {
  }

  lemma RunAdvancesTransitive(a: W.Run, b: W.Run, c: W.Run)
    requires RunAdvances(a, b) && RunAdvances(b, c)
    ensures RunAdvances(a, c)
  {
  }

  lemma MovedReflexive(sv: Service)
    ensures Moved(sv, sv)
  {
    forall id | id in sv.table.jobs ensures Extends(sv.table.jobs[id], sv.table.jobs[id]) {
      ExtendsReflexive(sv.table.jobs[id]);
    }
  }

  // ---------------------------------------------------------------------------------------------
  // The service moves, a run stays

  lemma JobStays(sv: Service, sv': Service, j: nat)
    requires Moved(sv, sv') && j in sv.requests && j < sv.table.nextId && j in sv'.table.jobs
    ensures j in sv.table.jobs && Extends(sv.table.jobs[j], sv'.table.jobs[j])
  {
  }

  lemma FollowsExtends(run: W.Run, job: Job, job': Job)
    requires Extends(job, job') && Follows(run, job)
    ensures Follows(run, job')
    ensures NoFurther(run, job) ==> NoFurther(run, job')
  {
    assert job'.outcomes[..run.serviceCursor] == job.outcomes[..run.serviceCursor];
  }

  lemma PageFromExtends(run: W.Run, page: Page, job: Job, job': Job)
    requires Extends(job, job') && PageFrom(run, page, job)
    ensures PageFrom(run, page, job')
  {
    assert job.outcomes == job'.outcomes[..|job.outcomes|];
  }

  lemma EndedExtends(job: Job, job': Job, seen: JobState)
    requires Extends(job, job') && EndedAs(job, seen)
    ensures EndedAs(job', seen)
  {
  }

  lemma LinkedServed(run: W.Run, e: Exec, sv: Service, sv': Service, request: JobRequest, sim: Simulator)
    requires Linked(run, e, sv, request, sim) && Moved(sv, sv')
    requires forall j :: j in sv.requests ==> j < sv.table.nextId
    ensures Linked(run, e, sv', request, sim)
  {
    hide Moved, Extends, Follows, NoFurther, PageFrom, EndedAs, Fresh, ClosesAs, HitsDone, HitsSucceeded, Verdict;
    hide RequestOf, NothingYet, Open;
    Remembered(sv, sv');
    if run.jobId.Some? && run.jobId.value in sv'.table.jobs {
      var j := run.jobId.value;
      JobStays(sv, sv', j);
      var job, job' := sv.table.jobs[j], sv'.table.jobs[j];
      FollowsExtends(run, job, job');
      if e.GotPage? { PageFromExtends(run, e.page, job, job'); }
      if e.AtPage? && e.seen.Terminal() { EndedExtends(job, job', e.seen); }
    }
  }

  lemma Remembered(sv: Service, sv': Service)
    requires Moved(sv, sv')
    ensures forall j :: j in sv.requests ==> j in sv'.requests && sv'.requests[j] == sv.requests[j]
  {
  }

  /** Anything may happen at the service between two steps of the executors. */
  lemma ServingInv(cfg: Setup, x: World, ev: ServiceEvent)
    requires Inv(cfg, x) && Admissible(x.service, x.sent, cfg.sim, ev)
    ensures var y := x.(service := Serve(cfg.limits, x.service, ev));
            Inv(cfg, y) && Advances(x, y)
  {
    hide Sound, ServiceInv, Linked, Serve, Moved, Admissible, RunAdvances;
    var y := x.(service := Serve(cfg.limits, x.service, ev));
    ServeKeeps(cfg.limits, x.service, x.sent, cfg.sim, ev);
    JobIds(cfg, x);
    forall r | r in y.app.runs
      ensures Linked(y.app.runs[r], ExecOf(y, r), y.service, y.sent[r], cfg.sim)
      ensures RunAdvances(x.app.runs[r], y.app.runs[r])
    {
      LinkedServed(x.app.runs[r], ExecOf(x, r), x.service, y.service, x.sent[r], cfg.sim);
      RunAdvancesReflexive(x.app.runs[r]);
    }
  }

  lemma JobIds(cfg: Setup, x: World)
    requires ServiceInv(cfg.limits, x.service, x.sent, cfg.sim)
    ensures forall j :: j in x.service.requests ==> j < x.service.table.nextId
  {
    hide TableInv, Faithful, NamesFaithful;
  }

  // ---------------------------------------------------------------------------------------------
  // One executor moves, the rest stays

  /** A step that changes one run, its executor and the cache, and leaves the run linked. */
  lemma RunStepInv(cfg: Setup, x: World, y: World, r: nat)
    requires Inv(cfg, x) && r in x.app.runs && r in y.app.runs && r in x.sent
    requires y.app.runs == x.app.runs[r := y.app.runs[r]] && y.app.nextRun == x.app.nextRun
    requires y.service == x.service && y.sent == x.sent && r in y.exec && y.exec == x.exec[r := y.exec[r]]
    requires Sound(cfg.settings, y.app, cfg.sim)
    requires Linked(y.app.runs[r], y.exec[r], x.service, x.sent[r], cfg.sim)
    requires RunAdvances(x.app.runs[r], y.app.runs[r])
    ensures Inv(cfg, y) && Advances(x, y)
  {
    hide Sound, ServiceInv, Linked, Moved, RunAdvances;
    MovedReflexive(x.service);
    forall q | q in y.app.runs
      ensures q in y.sent && Linked(y.app.runs[q], ExecOf(y, q), y.service, y.sent[q], cfg.sim)
      ensures RunAdvances(x.app.runs[q], y.app.runs[q])
    {
      RunAdvancesReflexive(x.app.runs[q]);
    }
  }

  /** A step in which only the place of one executor changes. */
  lemma ExecStepInv(cfg: Setup, x: World, r: nat, e: Exec)
    requires Inv(cfg, x) && r in x.app.runs && r in x.sent
    requires Linked(x.app.runs[r], e, x.service, x.sent[r], cfg.sim)
    ensures Inv(cfg, x.(exec := x.exec[r := e])) && Advances(x, x.(exec := x.exec[r := e]))
  {
    hide Inv, Sound, ServiceInv, Linked, Moved, RunAdvances, Advances;
    RunAdvancesReflexive(x.app.runs[r]);
    SoundOf(cfg, x);
    assert x.app.runs[r := x.app.runs[r]] == x.app.runs;
    RunStepInv(cfg, x, x.(exec := x.exec[r := e]), r);
  }

  lemma SoundOf(cfg: Setup, x: World)
    requires Inv(cfg, x)
    ensures Sound(cfg.settings, x.app, cfg.sim) && ServiceInv(cfg.limits, x.service, x.sent, cfg.sim)
  {
    hide Sound, ServiceInv, RunsLinked, Bookkeeping;
  }

  lemma LinkedAt(cfg: Setup, x: World, r: nat)
    requires Inv(cfg, x) && r in x.app.runs
    ensures r in x.sent && Linked(x.app.runs[r], ExecOf(x, r), x.service, x.sent[r], cfg.sim)
  {
    hide Sound, ServiceInv, Linked, Bookkeeping;
  }

  lemma AdvancesTransitive(cfg: Setup, x: World, y: World, z: World)
    requires Inv(cfg, x) && Advances(x, y) && Advances(y, z)
    ensures Advances(x, z)
  {
    hide RunAdvances, Moved, RunsLinked, Bookkeeping, Sound, ServiceInv;
    RunIds(cfg, x);
    MovedTransitive(cfg, x.service, y.service, z.service, x.sent);
    forall r | r in z.app.runs
      ensures if r in x.app.runs then RunAdvances(x.app.runs[r], z.app.runs[r]) else x.app.nextRun <= r
    {
      if r in x.app.runs && r in y.app.runs {
        RunAdvancesTransitive(x.app.runs[r], y.app.runs[r], z.app.runs[r]);
      }
    }
  }

  lemma RunIds(cfg: Setup, x: World)
    requires Sound(cfg.settings, x.app, cfg.sim)
    ensures forall r :: r in x.app.runs ==> r < x.app.nextRun
  {
    hide RunOk, Holds, WorkspacesOk, Ownership, WorkspaceInvariant.CapacityOk;
  }

  lemma MovedTransitive(cfg: Setup, a: Service, b: Service, c: Service, sent: map<nat, JobRequest>)
    requires ServiceInv(cfg.limits, a, sent, cfg.sim) && Moved(a, b) && Moved(b, c)
    ensures Moved(a, c)
  {
    hide JobsFaithful, NamesFaithful, Evolves, JobInv, JobTable.CapacityOk;
    EvolvesTransitive(a.table, b.table, c.table);
  }
}
