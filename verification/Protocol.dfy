/**
 * The whole system as one transition system: the application's store, at most one executor per run, a channel that
 * may lose any request or reply, and the simulation service with all its other clients.
 */
module Protocol {
  import opened Common
  import opened Jobs
  import opened JobTable
  import opened ServiceHistory
  import opened ExecuteSteps
  import opened RunSteps
  import W = Workspaces

  /** Where a run's executor is.  Between any two of its steps anything else may happen. */
  datatype Exec =
    | Absent
    | AtHits
    | AtLoop
    | AtSubmit
    | GotJob(job: nat)
    | AtCancel
    | AtStatus
    | AtPage(seen: JobState)
    | GotPage(seen: JobState, page: Page)
    | AtFailure(error: W.AppError)

  /** `sent` remembers the submission of every run ever registered. */
  datatype World = World(app: W.Store, service: Service, sent: map<nat, JobRequest>, exec: map<nat, Exec>)

  datatype Setup = Setup(settings: W.Settings, limits: Limits, sim: Simulator)

  datatype Event =
    // the service, its workers, its other clients, and requests that were delivered without a reply
    | Serving(ev: ServiceEvent)
    // one run's executor
    | Begin(w: nat, r: nat, bodyFits: bool)
    | Turn(r: nat)
    | SubmitReply(r: nat, now: real, later: real)
    | Accept(r: nat)
    | CancelReply(r: nat, now: real)
    | StatusReply(r: nat, now: real)
    | PageReply(r: nat, now: real)
    | Apply(w: nat, r: nat)
    | Unavailable(r: nat, pause: bool)
    | Rejected(r: nat)
    | Fail(w: nat, r: nat)
    // users
    | Register(w: nat, request: W.Request, scenarios: seq<W.Scenario>, taskSet: W.TaskSet, now: real, inputFits: bool)
    | CancelRun(w: nat, r: nat, supersede: bool)
    | Resume(w: nat, r: nat)
    | CreateWorkspace
    | DeleteWorkspace(w: nat)
    | SaveEditor(w: nat, revision: nat, valid: bool, made: W.TaskSet, inputFits: bool)
    | DeleteTaskSet(w: nat, id: nat, revision: nat)
    | Compare(w: nat, r: nat, action: W.Action)
    | Read(w: nat, r: nat, scenario: nat)

  function EmptyWorld(): World { World(W.EmptyStore(), Service(EmptyTable(), map[]), map[], map[]) }

  function ExecOf(x: World, r: nat): Exec { if r in x.exec then x.exec[r] else Absent }

  /** Waiting for a reply, or holding one that may still be lost. */
  predicate Waits(e: Exec) {
    e.AtSubmit? || e.GotJob? || e.AtCancel? || e.AtStatus? || e.AtPage? || e.GotPage?
  }

  function Picked(outcomes: seq<W.Summary>, indices: seq<nat>): seq<W.Scenario> {
    if indices == [] then []
    else (if indices[0] < |outcomes| then [outcomes[indices[0]].scenario] else []) + Picked(outcomes, indices[1..])
  }

  /** A run's submission: its task list, and the models and seeds the cache did not have. */
  function RequestOf(run: W.Run): JobRequest {
    var picked := Picked(run.outcomes, run.serviceIndices);
    JobRequest(run.taskSet.tasks,
               seq(|picked|, m requires 0 <= m < |picked| => picked[m].model),
               seq(|picked|, m requires 0 <= m < |picked| => picked[m].seed))
  }

  function RunStateOf(s: JobState): W.RunState {
    match s
    case JobQueued => W.Queued
    case JobRunning => W.Running
    case Completed => W.Completed
    case CompletedWithErrors => W.CompletedWithErrors
    case JobCancelled => W.Cancelled
  }

  // ---------------------------------------------------------------------------------------------
  // One run's executor

  function SetRun(x: World, r: nat, run: W.Run, e: Exec): World {
    x.(app := x.app.(runs := x.app.runs[r := run]), exec := x.exec[r := e])
  }

  /** A workspace cannot be deleted while one of its runs is active, so it is there when the run closes. */
  function CloseRun(s: W.Store, w: nat, r: nat, state: W.RunState): W.Store {
    if w in s.workspaces && r in s.runs then Close(s, w, r, state) else s
  }

  function BeginRun(cfg: Setup, x: World, w: nat, r: nat, bodyFits: bool): World
    requires r in x.app.runs
  {
    var (s, e) := CompleteHits(cfg.settings, x.app, r, 0, |x.app.runs[r].cacheKeys|);
    if e.Some? then x.(app := s, exec := x.exec[r := AtFailure(e.value)])
    else if x.app.runs[r].serviceIndices == [] then
      x.(app := CloseRun(s, w, r, W.Completed), exec := x.exec[r := Absent])
    else x.(app := s, exec := x.exec[r := if bodyFits then AtLoop else AtFailure(W.BODY_TOO_LARGE)])
  }

  /** With a job known, a requested cancellation goes out before anything else. */
  function Proceed(x: World, r: nat, run: W.Run): World {
    if run.cancelRequested then SetRun(x, r, run.(state := W.Cancelling), AtCancel) else SetRun(x, r, run, AtStatus)
  }

  function TurnRun(x: World, r: nat): World
    requires r in x.app.runs
  {
    var run := x.app.runs[r];
    if run.jobId.None? then SetRun(x, r, run, AtSubmit) else Proceed(x, r, run)
  }

  function SubmitRun(cfg: Setup, x: World, r: nat, now: real, later: real): World
    requires r in x.app.runs
  {
    var ev := Submission(Some(OfRun(r)), RequestOf(x.app.runs[r]), now, later);
    var e := match ReserveFor(cfg.limits, x.service, ev).1
             case Reserved(job, _) => GotJob(job)
             case SubmissionConflict => AtFailure(W.SUBMISSION_CONFLICT)
             case CapacityExceeded => AtFailure(W.SERVICE_REJECTED);
    x.(service := Serve(cfg.limits, x.service, ev), exec := x.exec[r := e])
  }

  function CancelUpstream(cfg: Setup, x: World, r: nat, now: real): World
    requires r in x.app.runs
  {
    var id := x.app.runs[r].jobId;
    if id.None? then x
    else
      var service := Serve(cfg.limits, x.service, CancelRequest(id.value, now));
      var e := if id.value in service.table.jobs then AtStatus else AtFailure(W.SERVICE_JOB_LOST);
      x.(service := service, exec := x.exec[r := e])
  }

  function ReadStatus(cfg: Setup, x: World, r: nat, now: real): World
    requires r in x.app.runs
  {
    var id := x.app.runs[r].jobId;
    if id.None? then x
    else
      var service := Serve(cfg.limits, x.service, Expire(now));
      var e := if id.value in service.table.jobs then AtPage(StatusOf(service.table.jobs[id.value]).status)
               else AtFailure(W.SERVICE_JOB_LOST);
      x.(service := service, exec := x.exec[r := e])
  }

  function ReadPage(cfg: Setup, x: World, r: nat, seen: JobState, now: real): World
    requires r in x.app.runs
  {
    var id := x.app.runs[r].jobId;
    if id.None? then x
    else
      var service := Serve(cfg.limits, x.service, Expire(now));
      var e := if id.value in service.table.jobs
               then GotPage(seen, PageOf(service.table.jobs[id.value], x.app.runs[r].serviceCursor))
               else AtFailure(W.SERVICE_JOB_LOST);
      x.(service := service, exec := x.exec[r := e])
  }

  /** Once its outcomes are recorded, the page moves the cursor, and the status read before it decides what is next. */
  function AfterPage(s: W.Store, w: nat, r: nat, seen: JobState, page: Page): (W.Store, Exec)
    requires r in s.runs
  {
    var run := s.runs[r].(serviceCursor := page.nextCursor);
    if !seen.Terminal() then
      var state := if run.cancelRequested then W.Cancelling else RunStateOf(seen);
      (s.(runs := s.runs[r := run.(state := state)]), AtLoop)
    else if !AllComplete(run) then (s.(runs := s.runs[r := run]), AtFailure(W.SERVICE_INVALID_RESPONSE))
    else (CloseRun(s.(runs := s.runs[r := run]), w, r, RunStateOf(seen)), Absent)
  }

  function Applied(cfg: Setup, s0: W.Store, w: nat, r: nat, seen: JobState, page: Page): (W.Store, Exec)
    requires r in s0.runs
  {
    var (s, e) := ApplyPage(cfg.settings, s0, r, page.outcomes);
    if e.Some? then (s, AtFailure(e.value))
    else if r !in s.runs then (s, AtFailure(W.INTERNAL_ERROR))
    else AfterPage(s, w, r, seen, page)
  }

  function FailRun(x: World, w: nat, r: nat, error: W.AppError): World
    requires r in x.app.runs
  {
    var s := x.app.(runs := x.app.runs[r := FailOpen(x.app.runs[r], 0, error)]);
    x.(app := CloseRun(s, w, r, W.Failed), exec := x.exec[r := Absent])
  }

  function LoseReply(x: World, r: nat, pause: bool): World
    requires r in x.app.runs
  {
    var run := x.app.runs[r].(state := W.Reconnecting);
    if pause then SetRun(x, r, run.(retryPaused := true), Absent) else SetRun(x, r, run, AtLoop)
  }

  // ---------------------------------------------------------------------------------------------
  // Users

  function Launch(x: World, r: nat, run: W.Run): World { SetRun(x, r, run.(retryPaused := false), AtHits) }

  predicate RunOf(s: W.Store, w: nat, r: nat) {
    w in s.workspaces && r in s.workspaces[w].runs && r in s.runs
  }

  function CancelByUser(x: World, w: nat, r: nat, supersede: bool): World {
    if !RunOf(x.app, w, r) || !x.app.runs[r].Active() then x
    else
      var run := x.app.runs[r];
      var run' := run.(superseded := run.superseded || supersede, cancelRequested := true, state := W.Cancelling);
      if ExecOf(x, r).Absent? then Launch(x, r, run') else SetRun(x, r, run', ExecOf(x, r))
  }

  function ResumeByUser(x: World, w: nat, r: nat): World {
    if RunOf(x.app, w, r) && x.app.runs[r].Active() && ExecOf(x, r).Absent? then Launch(x, r, x.app.runs[r]) else x
  }

  /** A run is launched in the same step that registers it. */
  function RegisterByUser(cfg: Setup, x: World, ev: Event): World
    requires ev.Register?
  {
    var (s, reply) := W.Register(cfg.settings, x.app, ev.w, ev.request, ev.scenarios, ev.taskSet, ev.now, ev.inputFits);
    if reply.Ok? && reply.value.created && reply.value.run in s.runs then
      var r := reply.value.run;
      x.(app := s, sent := x.sent[r := RequestOf(s.runs[r])], exec := x.exec[r := AtHits])
    else x.(app := s)
  }

  // ---------------------------------------------------------------------------------------------
  // Steps and runs

  predicate Enabled(cfg: Setup, x: World, ev: Event) {
    match ev
    case Serving(e) => Admissible(x.service, x.sent, cfg.sim, e)
    case Begin(w, r, _) => RunOf(x.app, w, r) && ExecOf(x, r).AtHits?
    case Turn(r) => r in x.app.runs && ExecOf(x, r).AtLoop?
    case SubmitReply(r, _, _) => r in x.app.runs && ExecOf(x, r).AtSubmit?
    case Accept(r) => r in x.app.runs && ExecOf(x, r).GotJob?
    case CancelReply(r, _) => r in x.app.runs && ExecOf(x, r).AtCancel?
    case StatusReply(r, _) => r in x.app.runs && ExecOf(x, r).AtStatus?
    case PageReply(r, _) => r in x.app.runs && ExecOf(x, r).AtPage?
    case Apply(w, r) => RunOf(x.app, w, r) && ExecOf(x, r).GotPage?
    case Unavailable(r, _) => r in x.app.runs && Waits(ExecOf(x, r))
    case Rejected(r) => r in x.app.runs && Waits(ExecOf(x, r))
    case Fail(w, r) => RunOf(x.app, w, r) && ExecOf(x, r).AtFailure?
    case Register(w, _, scenarios, taskSet, _, _) =>
      && (forall i, j :: 0 <= i < j < |scenarios| ==> scenarios[i].id != scenarios[j].id)
      && (w in x.app.workspaces ==> W.HasTaskSet(x.app.workspaces[w], taskSet.id))
    case _ => true
  }

  function Next(cfg: Setup, x: World, ev: Event): World
    requires Enabled(cfg, x, ev)
  {
    match ev
    case Serving(e) => x.(service := Serve(cfg.limits, x.service, e))
    case Begin(w, r, bodyFits) => BeginRun(cfg, x, w, r, bodyFits)
    case Turn(r) => TurnRun(x, r)
    case SubmitReply(r, now, later) => SubmitRun(cfg, x, r, now, later)
    case Accept(r) => Proceed(x, r, x.app.runs[r].(jobId := Some(ExecOf(x, r).job)))
    case CancelReply(r, now) => CancelUpstream(cfg, x, r, now)
    case StatusReply(r, now) => ReadStatus(cfg, x, r, now)
    case PageReply(r, now) => ReadPage(cfg, x, r, ExecOf(x, r).seen, now)
    case Apply(w, r) =>
      var (s, e) := Applied(cfg, x.app, w, r, ExecOf(x, r).seen, ExecOf(x, r).page);
      x.(app := s, exec := x.exec[r := e])
    case Unavailable(r, pause) => LoseReply(x, r, pause)
    case Rejected(r) => x.(exec := x.exec[r := AtFailure(W.SERVICE_REJECTED)])
    case Fail(w, r) => FailRun(x, w, r, ExecOf(x, r).error)
    case Register(_, _, _, _, _, _) => RegisterByUser(cfg, x, ev)
    case CancelRun(w, r, supersede) => CancelByUser(x, w, r, supersede)
    case Resume(w, r) => ResumeByUser(x, w, r)
    case CreateWorkspace => x.(app := W.Create(cfg.settings, x.app).0)
    case DeleteWorkspace(w) => x.(app := W.DeleteWorkspace(cfg.settings, x.app, w).0)
    case SaveEditor(w, revision, valid, made, fits) =>
      x.(app := W.SaveEditor(cfg.settings, x.app, w, revision, valid, made, fits).0)
    case DeleteTaskSet(w, id, revision) => x.(app := W.DeleteTaskSet(x.app, w, id, revision).0)
    case Compare(w, r, action) => x.(app := W.Compare(cfg.settings, x.app, w, r, action).0)
    case Read(w, r, scenario) => if RunOf(x.app, w, r) then x.(app := W.ResultFor(x.app, r, scenario).0) else x
  }

  /** A finite run of the system: every event is enabled when its turn comes. */
  predicate Legal(cfg: Setup, x: World, events: seq<Event>)
    decreases |events|
  {
    events != [] ==> Enabled(cfg, x, events[0]) && Legal(cfg, Next(cfg, x, events[0]), events[1..])
  }

  function Final(cfg: Setup, x: World, events: seq<Event>): World
    requires Legal(cfg, x, events)
    decreases |events|
  {
    if events == [] then x else Final(cfg, Next(cfg, x, events[0]), events[1..])
  }
}
