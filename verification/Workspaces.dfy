/** Workspaces, runs and the operations of the application's store, as functions of its state. */
module Workspaces {
  import opened Common
  import opened Sums
  import opened ResultCache
  import Jobs

  type OutcomeStatus = Jobs.ModelState

  /** A task-generation specification and the free content of a run request; only equality matters. */
  type Spec(0, ==, !new)
  type RequestBody(0, ==, !new)

  datatype RunState =
    | Submitting | Queued | Running | Reconnecting | Cancelling
    | Completed | CompletedWithErrors | Cancelled | Failed
  {
    predicate Terminal() { Completed? || CompletedWithErrors? || Cancelled? || Failed? }
  }

  datatype Intent = Manual | Interactive

  datatype AppError =
    | APP_CAPACITY | WORKSPACE_NOT_FOUND | RUN_NOT_FOUND | RUN_ACTIVE | REVISION_CONFLICT
    | SUBMISSION_CONFLICT | RESULT_NOT_FOUND | RESULT_TOO_LARGE | RESERVATION_EXCEEDED
    | INVALID_INPUT | COMPARISON_LIMIT | SERVICE_INVALID_RESPONSE | SERVICE_JOB_LOST | SERVICE_REJECTED
    | BODY_TOO_LARGE | MODEL_ERROR(code: Jobs.ErrorCode) | INTERNAL_ERROR

  datatype TaskSet = TaskSet(id: nat, spec: Spec, tasks: Tasks)

  datatype Scenario = Scenario(id: nat, model: Model, seed: nat)

  datatype Summary = Summary(
    scenario: Scenario, status: OutcomeStatus, cursor: nat, cached: bool, error: Option<AppError>)

  datatype Request = Request(id: nat, intent: Intent, body: RequestBody)

  datatype Run = Run(
    taskSet: TaskSet, request: Request, cacheKeys: seq<SimInput>, serviceIndices: seq<nat>, createdAt: real,
    outcomes: seq<Summary>, lastCursor: nat, results: map<nat, SimInput>,
    state: RunState, jobId: Option<nat>, serviceCursor: nat,
    reservation: nat, resultBytes: nat,
    pinned: bool, superseded: bool, cancelRequested: bool, retryPaused: bool)
  {
    predicate Active() { !state.Terminal() }
  }

  datatype Workspace = Workspace(
    revision: nat, taskSets: seq<TaskSet>, current: Option<nat>, baseline: Option<nat>, latest: Option<nat>,
    runs: seq<nat>)

  datatype Settings = Settings(
    maxWorkspaces: nat, maxTaskSets: nat, maxPins: nat, maxActiveRuns: nat, maxRetainedRuns: nat,
    maxResultBytes: nat, maxRunBytes: nat, maxModelBytes: nat, minInteractiveSeconds: real)
  {
    predicate Valid() {
      && maxWorkspaces > 0 && maxTaskSets > 0 && maxPins > 0 && maxActiveRuns > 0 && maxRetainedRuns > 0
      && maxResultBytes > 0 && maxRunBytes > 0 && maxModelBytes > 0 && minInteractiveSeconds > 0.0
    }
  }

  /** Identifiers are numbered in order of creation: only their freshness is used. */
  datatype Store = Store(
    workspaces: map<nat, Workspace>, runs: map<nat, Run>, cache: Cache, nextWorkspace: nat, nextRun: nat)

  function EmptyStore(): Store { Store(map[], map[], Cache([], map[]), 0, 0) }

  // ---------------------------------------------------------------------------------------------
  // Measures

  function ReservationOf(run: Run): nat { run.reservation }

  function ActiveOne(run: Run): nat { if run.Active() then 1 else 0 }

  function Reserved(s: Store): nat { Sum(s.runs, ReservationOf, s.nextRun) }

  function ActiveRuns(s: Store): nat { Sum(s.runs, ActiveOne, s.nextRun) }

  function Used(s: Store): nat { Bytes(s.cache) + Reserved(s) }

  function Pins(ids: seq<nat>, runs: map<nat, Run>): nat {
    if ids == [] then 0
    else Pins(ids[1..], runs) + (if ids[0] in runs && runs[ids[0]].pinned then 1 else 0)
  }

  predicate HasTaskSet(w: Workspace, id: nat) {
    exists k :: 0 <= k < |w.taskSets| && w.taskSets[k].id == id
  }

  /** Keys no pruning may touch: those a run's results name, and all keys of a run still going on. */
  function KeptBy(run: Run): set<SimInput> {
    run.results.Values + if run.Active() then (set k | k in run.cacheKeys) else {}
  }

  function KeptKeys(runs: map<nat, Run>): set<SimInput> {
    set r, k | r in runs && k in KeptBy(runs[r]) :: k
  }

  // ---------------------------------------------------------------------------------------------
  // Pruning

  function PruneCache(cfg: Settings, s: Store, required: nat, protect: set<SimInput>): Store {
    s.(cache := Pruned(s.cache, required, KeptKeys(s.runs) + protect, Reserved(s), cfg.maxResultBytes))
  }

  /** Whether the store may discard a run of a workspace to make room. */
  predicate Evictable(w: Workspace, r: nat, runs: map<nat, Run>) {
    r in runs && runs[r].state.Terminal() && !runs[r].pinned && w.baseline != Some(r) && w.latest != Some(r)
  }

  function RemoveRun(s: Store, w: nat, r: nat): Store
    requires w in s.workspaces
  {
    var ws := s.workspaces[w];
    s.(workspaces := s.workspaces[w := ws.(runs := Without(ws.runs, r))], runs := s.runs - {r})
  }

  /** Discards the oldest evictable runs of a workspace until it is below its limit. */
  function PruneHistory(cfg: Settings, s: Store, w: nat, ids: seq<nat>): Store
    requires w in s.workspaces
    decreases |ids|
  {
    if ids == [] || |s.workspaces[w].runs| < cfg.maxRetainedRuns then s
    else
      var next := if Evictable(s.workspaces[w], ids[0], s.runs) then RemoveRun(s, w, ids[0]) else s;
      PruneHistory(cfg, next, w, ids[1..])
  }

  datatype Candidate = Candidate(workspace: nat, run: nat)

  function EvictableIn(s: Store, w: nat, ids: seq<nat>): seq<Candidate>
    requires w in s.workspaces
  {
    if ids == [] then []
    else
      (if Evictable(s.workspaces[w], ids[0], s.runs) then [Candidate(w, ids[0])] else [])
      + EvictableIn(s, w, ids[1..])
  }

  /** All evictable runs, workspace by workspace in order of creation. */
  function AllEvictable(s: Store, n: nat): seq<Candidate> {
    if n == 0 then []
    else
      AllEvictable(s, n - 1)
      + (if n - 1 in s.workspaces then EvictableIn(s, n - 1, s.workspaces[n - 1].runs) else [])
  }

  function CreatedAt(s: Store, c: Candidate): real {
    if c.run in s.runs then s.runs[c.run].createdAt else 0.0
  }

  /** Stable insertion by age. */
  function InsertByAge(s: Store, c: Candidate, sorted: seq<Candidate>): seq<Candidate> {
    if sorted == [] || CreatedAt(s, c) < CreatedAt(s, sorted[0]) then [c] + sorted
    else [sorted[0]] + InsertByAge(s, c, sorted[1..])
  }

  function SortByAge(s: Store, cs: seq<Candidate>): seq<Candidate> {
    if cs == [] then [] else InsertByAge(s, cs[|cs| - 1], SortByAge(s, cs[..|cs| - 1]))
  }

  function Candidates(s: Store): seq<Candidate> { SortByAge(s, AllEvictable(s, s.nextWorkspace)) }

  function EvictRuns(cfg: Settings, s: Store, required: nat, protect: set<SimInput>, cs: seq<Candidate>): Store
    decreases |cs|
  {
    if cs == [] || cs[0].workspace !in s.workspaces || Used(s) + required <= cfg.maxResultBytes then s
    else
      var next := PruneCache(cfg, RemoveRun(s, cs[0].workspace, cs[0].run), required, protect);
      EvictRuns(cfg, next, required, protect, cs[1..])
  }

  function PruneForCapacity(cfg: Settings, s: Store, required: nat, protect: set<SimInput>): Store {
    EvictRuns(cfg, s, required, protect, Candidates(s))
  }

  // ---------------------------------------------------------------------------------------------
  // Workspace operations

  function Create(cfg: Settings, s: Store): (Store, Result<nat, AppError>) {
    if |s.workspaces| >= cfg.maxWorkspaces then (s, Err(APP_CAPACITY))
    else
      (s.(workspaces := s.workspaces[s.nextWorkspace := Workspace(0, [], None, None, None, [])],
          nextWorkspace := s.nextWorkspace + 1),
       Ok(s.nextWorkspace))
  }

  predicate AnyActive(ids: seq<nat>, runs: map<nat, Run>) {
    exists k :: 0 <= k < |ids| && ids[k] in runs && runs[ids[k]].Active()
  }

  function AsSet(ids: seq<nat>): set<nat> { set r | r in ids }

  function DeleteWorkspace(cfg: Settings, s: Store, w: nat): (Store, Result<(), AppError>) {
    if w !in s.workspaces then (s, Err(WORKSPACE_NOT_FOUND))
    else if AnyActive(s.workspaces[w].runs, s.runs) then (s, Err(RUN_ACTIVE))
    else
      var gone := AsSet(s.workspaces[w].runs);
      (PruneCache(cfg, s.(workspaces := s.workspaces - {w}, runs := s.runs - gone), 0, {}), Ok(()))
  }

  function RemoveTaskSet(ts: seq<TaskSet>, id: nat): seq<TaskSet> {
    if ts == [] then [] else (if ts[0].id == id then [] else [ts[0]]) + RemoveTaskSet(ts[1..], id)
  }

  predicate UsedByRuns(ids: seq<nat>, runs: map<nat, Run>, taskSet: nat) {
    exists k :: 0 <= k < |ids| && ids[k] in runs && runs[ids[k]].taskSet.id == taskSet
  }

  function DeleteTaskSet(s: Store, w: nat, id: nat, revision: nat): (Store, Result<(), AppError>) {
    if w !in s.workspaces then (s, Err(WORKSPACE_NOT_FOUND))
    else
      var ws := s.workspaces[w];
      if ws.revision != revision then (s, Err(REVISION_CONFLICT))
      else if ws.current == Some(id) || UsedByRuns(ws.runs, s.runs, id) then (s, Err(REVISION_CONFLICT))
      else if !HasTaskSet(ws, id) then (s, Err(RESULT_NOT_FOUND))
      else
        (s.(workspaces := s.workspaces[w :=
            ws.(taskSets := RemoveTaskSet(ws.taskSets, id), revision := ws.revision + 1)]), Ok(()))
  }

  function FindSpec(ts: seq<TaskSet>, spec: Spec): Option<TaskSet> {
    if ts == [] then None else if ts[0].spec == spec then Some(ts[0]) else FindSpec(ts[1..], spec)
  }

  /** An edit reuses the task set with the same specification or adds the one given as materialized. */
  function SaveEditor(cfg: Settings, s: Store, w: nat, revision: nat, valid: bool, made: TaskSet, inputFits: bool)
    : (Store, Result<nat, AppError>)
  {
    if w !in s.workspaces then (s, Err(WORKSPACE_NOT_FOUND))
    else
      var ws := s.workspaces[w];
      var found := FindSpec(ws.taskSets, made.spec);
      if ws.revision != revision then (s, Err(REVISION_CONFLICT))
      else if !valid then (s, Err(INVALID_INPUT))
      else if found.None? && |ws.taskSets| >= cfg.maxTaskSets then (s, Err(APP_CAPACITY))
      else if !inputFits then (s, Err(APP_CAPACITY))
      else
        var taskSet := if found.Some? then found.value else made;
        var moved := ws.current != Some(taskSet.id);
        (s.(workspaces := s.workspaces[w := Workspace(
            ws.revision + 1,
            if HasTaskSet(ws, taskSet.id) then ws.taskSets else ws.taskSets + [taskSet],
            Some(taskSet.id),
            if moved then None else ws.baseline,
            if moved then None else ws.latest,
            ws.runs)]),
         Ok(taskSet.id))
  }

  // ---------------------------------------------------------------------------------------------
  // Registering a run

  function KeyOf(taskSet: TaskSet, scenario: Scenario): SimInput {
    SimInput(taskSet.tasks, scenario.model, scenario.seed)
  }

  function Keys(taskSet: TaskSet, scenarios: seq<Scenario>): seq<SimInput> {
    seq(|scenarios|, i requires 0 <= i < |scenarios| => KeyOf(taskSet, scenarios[i]))
  }

  /** The indices whose key is not cached, in order. */
  function Missing(keys: seq<SimInput>, entries: map<SimInput, CacheEntry>, i: nat): seq<nat>
    requires i <= |keys|
    decreases |keys| - i
  {
    if i == |keys| then []
    else (if keys[i] in entries then [] else [i]) + Missing(keys, entries, i + 1)
  }

  function FindRequest(ids: seq<nat>, runs: map<nat, Run>, id: nat): Option<nat> {
    if ids == [] then None
    else if ids[0] in runs && runs[ids[0]].request.id == id then Some(ids[0])
    else FindRequest(ids[1..], runs, id)
  }

  function Reservation(cfg: Settings, missing: nat): nat {
    Min(cfg.maxRunBytes, cfg.maxModelBytes * missing)
  }

  function NewRun(taskSet: TaskSet, request: Request, scenarios: seq<Scenario>, missing: seq<nat>,
                  reservation: nat, now: real): Run
  {
    Run(taskSet, request, Keys(taskSet, scenarios), missing, now,
        seq(|scenarios|, i requires 0 <= i < |scenarios| => Summary(scenarios[i], Jobs.Queued, 0, false, None)),
        0, map[], Submitting, None, 0, reservation, 0, false, false, false, false)
  }

  /** The store after the pruning that registration does before it decides. */
  function RoomFor(cfg: Settings, s: Store, w: nat, keys: seq<SimInput>): Store
    requires w in s.workspaces
  {
    var reservation := Reservation(cfg, |Missing(keys, s.cache.entries, 0)|);
    var protect := set k | k in keys;
    PruneForCapacity(cfg, PruneCache(cfg, s, reservation, protect), reservation, protect)
  }

  predicate TooSoon(cfg: Settings, s: Store, w: nat, request: Request, now: real)
    requires w in s.workspaces
  {
    var ids := s.workspaces[w].runs;
    request.intent == Interactive && ids != [] && ids[|ids| - 1] in s.runs
    && now - s.runs[ids[|ids| - 1]].createdAt < cfg.minInteractiveSeconds
  }

  datatype Registered = Registered(run: nat, created: bool)

  function AddRun(s: Store, w: nat, run: Run): Store
    requires w in s.workspaces
  {
    var ws := s.workspaces[w];
    s.(runs := s.runs[s.nextRun := run],
       workspaces := s.workspaces[w := ws.(
         runs := ws.runs + [s.nextRun],
         latest := if run.request.intent == Interactive then Some(s.nextRun) else ws.latest)],
       nextRun := s.nextRun + 1)
  }

  /** Why a request is turned away before anything is pruned. */
  function Refusal(cfg: Settings, s: Store, w: nat, request: Request, now: real): Option<AppError>
    requires w in s.workspaces
  {
    if AnyActive(s.workspaces[w].runs, s.runs) then Some(RUN_ACTIVE)
    else if ActiveRuns(s) >= cfg.maxActiveRuns then Some(APP_CAPACITY)
    else if TooSoon(cfg, s, w, request, now) then Some(APP_CAPACITY)
    else None
  }

  /** Registration proper: history, cache and capacity are pruned even when room is refused in the end. */
  function Admit(cfg: Settings, s: Store, w: nat, request: Request, scenarios: seq<Scenario>, taskSet: TaskSet,
                 now: real, inputFits: bool): (Store, Result<Registered, AppError>)
    requires w in s.workspaces
  {
    var h := PruneHistory(cfg, s, w, s.workspaces[w].runs);
    if w !in h.workspaces || |h.workspaces[w].runs| >= cfg.maxRetainedRuns then (h, Err(APP_CAPACITY))
    else
      var keys := Keys(taskSet, scenarios);
      var missing := Missing(keys, h.cache.entries, 0);
      var reservation := Reservation(cfg, |missing|);
      var p := RoomFor(cfg, h, w, keys);
      if w !in p.workspaces || Used(p) + reservation > cfg.maxResultBytes then (p, Err(APP_CAPACITY))
      else if !inputFits then (p, Err(APP_CAPACITY))
      else
        (AddRun(p, w, NewRun(taskSet, request, scenarios, missing, reservation, now)),
         Ok(Registered(p.nextRun, true)))
  }

  function Register(cfg: Settings, s: Store, w: nat, request: Request, scenarios: seq<Scenario>, taskSet: TaskSet,
                    now: real, inputFits: bool): (Store, Result<Registered, AppError>)
  {
    if w !in s.workspaces then (s, Err(WORKSPACE_NOT_FOUND))
    else
      var previous := FindRequest(s.workspaces[w].runs, s.runs, request.id);
      if previous.Some? && previous.value in s.runs then
        if s.runs[previous.value].request != request then (s, Err(SUBMISSION_CONFLICT))
        else (s, Ok(Registered(previous.value, false)))
      else
        var refusal := Refusal(cfg, s, w, request, now);
        if refusal.Some? then (s, Err(refusal.value))
        else Admit(cfg, s, w, request, scenarios, taskSet, now, inputFits)
  }

  // ---------------------------------------------------------------------------------------------
  // Results of a run

  /** Keeping the result of one scenario: charged to the reservation unless the key is cached already. */
  function RetainResult(cfg: Settings, s: Store, r: nat, i: nat, result: ResultData): (Store, Result<(), AppError>)
    requires r in s.runs && i < |s.runs[r].cacheKeys| && i < |s.runs[r].outcomes|
  {
    var run := s.runs[r];
    var key, size := run.cacheKeys[i], result.size;
    if size > cfg.maxModelBytes || run.resultBytes + size > cfg.maxRunBytes then (s, Err(RESULT_TOO_LARGE))
    else if key !in s.cache.entries && size > run.reservation then (s, Err(RESERVATION_EXCEEDED))
    else
      var isNew := key !in s.cache.entries;
      var kept := run.(
        reservation := if isNew then run.reservation - size else run.reservation,
        resultBytes := run.resultBytes + size,
        results := run.results[run.outcomes[i].scenario.id := key]);
      (s.(runs := s.runs[r := kept],
          cache := if isNew then Add(s.cache, key, CacheEntry(result, size)) else Touch(s.cache, key)),
       Ok(()))
  }

  function CachedResult(s: Store, key: SimInput): (Store, Result<ResultData, AppError>) {
    if key in s.cache.entries then (s.(cache := Touch(s.cache, key)), Ok(s.cache.entries[key].result))
    else (s, Err(INTERNAL_ERROR))
  }

  function ResultFor(s: Store, r: nat, scenario: nat): (Store, Result<ResultData, AppError>)
    requires r in s.runs
  {
    var run := s.runs[r];
    if scenario in run.results && run.results[scenario] in s.cache.entries then
      (s.(cache := Touch(s.cache, run.results[scenario])), Ok(s.cache.entries[run.results[scenario]].result))
    else (s, Err(RESULT_NOT_FOUND))
  }

  predicate AnySucceeded(run: Run) {
    exists i :: 0 <= i < |run.outcomes| && run.outcomes[i].status == Jobs.Succeeded
  }

  /** Closing a run releases its reservation and may make it the baseline or the latest comparison. */
  function FinishRun(s: Store, w: nat, r: nat): Store
    requires w in s.workspaces && r in s.runs
  {
    var run, ws := s.runs[r], s.workspaces[w];
    var chosen := AnySucceeded(run) && !run.superseded;
    var baseline := if chosen && ws.baseline.None? && ws.current == Some(run.taskSet.id) then Some(r) else ws.baseline;
    var latest := if chosen && run.request.intent == Manual && baseline != Some(r) then Some(r) else ws.latest;
    s.(runs := s.runs[r := run.(reservation := 0)],
       workspaces := s.workspaces[w := ws.(baseline := baseline, latest := latest)])
  }

  datatype Action = Pin | Unpin | Baseline | Delete

  function Compare(cfg: Settings, s: Store, w: nat, r: nat, action: Action): (Store, Result<(), AppError>) {
    if w !in s.workspaces then (s, Err(WORKSPACE_NOT_FOUND))
    else if r !in s.workspaces[w].runs || r !in s.runs then (s, Err(RUN_NOT_FOUND))
    else
      var ws, run := s.workspaces[w], s.runs[r];
      if run.Active() then (s, Err(RUN_ACTIVE))
      else if (action == Pin || action == Baseline) && run.results == map[] then (s, Err(INVALID_INPUT))
      else
        match action
        case Pin =>
          if !run.pinned && Pins(ws.runs, s.runs) >= cfg.maxPins then (s, Err(COMPARISON_LIMIT))
          else (s.(runs := s.runs[r := run.(pinned := true)]), Ok(()))
        case Unpin => (s.(runs := s.runs[r := run.(pinned := false)]), Ok(()))
        case Baseline =>
          var stale := ws.latest.Some? && ws.latest.value in s.runs
                       && s.runs[ws.latest.value].taskSet.id != run.taskSet.id;
          (s.(workspaces := s.workspaces[w := ws.(
                baseline := Some(r), current := Some(run.taskSet.id),
                latest := if stale then None else ws.latest, revision := ws.revision + 1)]), Ok(()))
        case Delete =>
          var gone := RemoveRun(s, w, r);
          var ws' := gone.workspaces[w];
          (PruneCache(cfg, gone.(workspaces := gone.workspaces[w := ws'.(
                baseline := if ws.baseline == Some(r) then None else ws.baseline,
                latest := if ws.latest == Some(r) then None else ws.latest)]), 0, {}), Ok(()))
  }
}
