/** The coordinator's writes to one run: completing an outcome, moving its state, closing it. */
module RunSteps {
  import opened Common
  import opened ResultCache
  import opened Workspaces
  import opened WorkspaceInvariant
  import Jobs

  /** An outcome that already has a cursor is left alone; a result is retained before its outcome is marked. */
  function CompleteOutcome(cfg: Settings, s: Store, r: nat, i: nat, status: OutcomeStatus,
                           result: Option<ResultData>, error: Option<AppError>, cached: bool)
    : (Store, Result<(), AppError>)
    requires r in s.runs && i < |s.runs[r].outcomes| && i < |s.runs[r].cacheKeys|
  {
    if s.runs[r].outcomes[i].cursor > 0 then (s, Ok(()))
    else
      var (kept, ok) := if result.Some? then RetainResult(cfg, s, r, i, result.value) else (s, Ok(()));
      if ok.Err? then (kept, ok) else (kept.(runs := kept.runs[r := Mark(kept.runs[r], i, status, error, cached)]), ok)
  }

  function Mark(run: Run, i: nat, status: OutcomeStatus, error: Option<AppError>, cached: bool): Run
    requires i < |run.outcomes|
  {
    run.(outcomes := run.outcomes[i := run.outcomes[i].(
           status := status, error := error, cached := cached, cursor := run.lastCursor + 1)],
         lastCursor := run.lastCursor + 1)
  }

  /** Setting the final state and letting the store finish the run. */
  function Close(s: Store, w: nat, r: nat, state: RunState): Store
    requires w in s.workspaces && r in s.runs
  {
    FinishRun(s.(runs := s.runs[r := s.runs[r].(state := state)]), w, r)
  }

  /** Marking every outcome without a cursor as failed. */
  function FailOpen(run: Run, i: nat, error: AppError): Run
    requires i <= |run.outcomes|
    decreases |run.outcomes| - i
  {
    if i == |run.outcomes| then run
    else if run.outcomes[i].cursor > 0 then FailOpen(run, i + 1, error)
    else FailOpen(Mark(run, i, Jobs.Failed, Some(error), false), i + 1, error)
  }

  // ---------------------------------------------------------------------------------------------
  // One outcome

  lemma CursorsAfter(outcomes: seq<Summary>, last: nat, i: nat, marked: Summary)
    requires CursorsOk(outcomes, last) && i < |outcomes| && outcomes[i].cursor == 0
    requires marked.cursor == last + 1 && marked.status.Terminal()
    ensures CursorsOk(outcomes[i := marked], last + 1)
  {
    var outcomes' := outcomes[i := marked];
    forall c | 1 <= c <= last + 1 ensures HasCursor(outcomes', c) {
      if c == last + 1 {
        assert outcomes'[i].cursor == c;
      } else {
        assert HasCursor(outcomes, c);
        var k :| 0 <= k < |outcomes| && outcomes[k].cursor == c;
        assert outcomes'[k].cursor == c;
      }
    }
  }

  lemma {:induction false} OpenAfter(indices: seq<nat>, outcomes: seq<Summary>, i: nat, marked: Summary)
    requires Increasing(indices) && i < |outcomes| && outcomes[i].cursor == 0 && marked.cursor > 0
    ensures OpenIndices(indices, outcomes[i := marked])
            == OpenIndices(indices, outcomes) - (if i in indices then 1 else 0)
  {
    if indices != [] {
      var rest := indices[1..];
      assert forall k :: 0 <= k < |rest| ==> rest[k] == indices[k + 1];
      OpenAfter(rest, outcomes, i, marked);
      assert indices == [indices[0]] + rest;
      assert indices[0] == i ==> i !in rest;
    }
  }

  /** Charging one result against the reservation leaves enough for the indices still open. */
  lemma BudgetStep(maxRun: nat, maxModel: nat, reservation: nat, bytes: nat, open: nat, size: nat, charged: bool)
    requires open >= 1 && size <= maxModel && bytes + size <= maxRun
    requires reservation >= Min(maxRun - bytes, maxModel * open)
    ensures size <= reservation
    ensures reservation - (if charged then size else 0) >= Min(maxRun - (bytes + size), maxModel * (open - 1))
  {
    assert maxModel * open == maxModel * (open - 1) + maxModel;
  }

  lemma BudgetMonotone(maxRun: nat, maxModel: nat, reservation: nat, bytes: nat, open: nat, bytes': nat, open': nat)
    requires bytes <= bytes' <= maxRun && open' <= open
    requires reservation >= Min(maxRun - bytes, maxModel * open)
    ensures reservation >= Min(maxRun - bytes', maxModel * open')
  {
    assert maxModel * open' <= maxModel * open;
  }

  /** Which outcomes the coordinator ever writes: successes carry a result, hits come from the cache. */
  ghost predicate ProperOutcome(s: Store, r: nat, i: nat, status: OutcomeStatus, result: Option<ResultData>)
    requires r in s.runs && i < |s.runs[r].cacheKeys|
  {
    && status.Terminal() && (status == Jobs.Succeeded <==> result.Some?)
    && (result.Some? && i !in s.runs[r].serviceIndices ==> s.runs[r].cacheKeys[i] in s.cache.entries)
  }

  /** The reservation made at registration always suffices: that error cannot happen. */
  lemma ReservationSuffices(cfg: Settings, s: Store, r: nat, i: nat, result: ResultData)
    requires r in s.runs && RunOk(cfg, s.runs[r]) && s.runs[r].Active()
    requires i < |s.runs[r].outcomes| && s.runs[r].outcomes[i].cursor == 0
    requires i !in s.runs[r].serviceIndices ==> s.runs[r].cacheKeys[i] in s.cache.entries
    ensures RetainResult(cfg, s, r, i, result).1 != Err(RESERVATION_EXCEEDED)
  {
    var run := s.runs[r];
    if run.cacheKeys[i] !in s.cache.entries && result.size <= cfg.maxModelBytes
       && run.resultBytes + result.size <= cfg.maxRunBytes
    {
      SomeOpen(run.serviceIndices, run.outcomes, i);
      BudgetStep(cfg.maxRunBytes, cfg.maxModelBytes, run.reservation, run.resultBytes,
                 OpenIndices(run.serviceIndices, run.outcomes), result.size, true);
    }
  }

  lemma {:induction false} SomeOpen(indices: seq<nat>, outcomes: seq<Summary>, i: nat)
    requires i in indices && i < |outcomes| && outcomes[i].cursor == 0
    ensures OpenIndices(indices, outcomes) >= 1
  {
    if indices[0] != i {
      assert i in indices[1..];
      SomeOpen(indices[1..], outcomes, i);
    }
  }

  /** The run after its outcome is completed, as one step. */
  function WithOutcome(run: Run, i: nat, status: OutcomeStatus, result: Option<ResultData>, error: Option<AppError>,
                     cached: bool, isNew: bool): Run
    requires i < |run.outcomes| && i < |run.cacheKeys|
    requires result.Some? && isNew ==> result.value.size <= run.reservation
  {
    var kept := if result.None? then run else run.(
      reservation := if isNew then run.reservation - result.value.size else run.reservation,
      resultBytes := run.resultBytes + result.value.size,
      results := run.results[run.outcomes[i].scenario.id := run.cacheKeys[i]]);
    Mark(kept, i, status, error, cached)
  }

  lemma CompletedRunOk(cfg: Settings, run: Run, i: nat, status: OutcomeStatus, result: Option<ResultData>,
                       error: Option<AppError>, cached: bool, isNew: bool)
    requires RunOk(cfg, run) && run.Active() && i < |run.outcomes| && run.outcomes[i].cursor == 0
    requires status.Terminal() && (status == Jobs.Succeeded <==> result.Some?)
    requires result.Some? ==> result.value.size <= cfg.maxModelBytes
                              && run.resultBytes + result.value.size <= cfg.maxRunBytes
    requires isNew ==> i in run.serviceIndices
    requires result.Some? && isNew ==> result.value.size <= run.reservation
    ensures RunOk(cfg, WithOutcome(run, i, status, result, error, cached, isNew))
  {
    hide CursorsOk, Filed, BudgetOk;
    var run' := WithOutcome(run, i, status, result, error, cached, isNew);
    CursorsAfter(run.outcomes, run.lastCursor, i, run'.outcomes[i]);
    NotYetTerminal(run.outcomes, run.lastCursor, i);
    FiledAfter(run.outcomes, run.cacheKeys, run.results, i, run'.outcomes[i]);
    CompletedBudget(cfg, run, i, status, result, error, cached, isNew);
  }

  lemma FiledAfter(outcomes: seq<Summary>, keys: seq<SimInput>, results: map<nat, SimInput>, i: nat, marked: Summary)
    requires |keys| == |outcomes| && Filed(outcomes, keys, results)
    requires i < |outcomes| && outcomes[i].status != Jobs.Succeeded && marked.scenario == outcomes[i].scenario
    requires forall j, k :: 0 <= j < k < |outcomes| ==> outcomes[j].scenario.id != outcomes[k].scenario.id
    ensures Filed(outcomes[i := marked], keys,
                  if marked.status == Jobs.Succeeded then results[marked.scenario.id := keys[i]] else results)
  {
    var outcomes' := outcomes[i := marked];
    if marked.status == Jobs.Succeeded { assert SucceededAs(outcomes', i, marked.scenario.id); }
    forall id | id in results ensures exists k :: SucceededAs(outcomes', k, id) {
      var k :| SucceededAs(outcomes, k, id);
      assert SucceededAs(outcomes', k, id);
    }
  }

  lemma NotYetTerminal(outcomes: seq<Summary>, last: nat, i: nat)
    requires CursorsOk(outcomes, last) && i < |outcomes| && outcomes[i].cursor == 0
    ensures !outcomes[i].status.Terminal()
  {
  }

  lemma CompletedBudget(cfg: Settings, run: Run, i: nat, status: OutcomeStatus, result: Option<ResultData>,
                        error: Option<AppError>, cached: bool, isNew: bool)
    requires RunShape(run) && BudgetOk(cfg, run) && run.Active()
    requires i < |run.outcomes| && run.outcomes[i].cursor == 0
    requires result.Some? ==> result.value.size <= cfg.maxModelBytes
                              && run.resultBytes + result.value.size <= cfg.maxRunBytes
    requires isNew ==> i in run.serviceIndices
    requires result.Some? && isNew ==> result.value.size <= run.reservation
    ensures BudgetOk(cfg, WithOutcome(run, i, status, result, error, cached, isNew))
  {
    var run' := WithOutcome(run, i, status, result, error, cached, isNew);
    var open := OpenIndices(run.serviceIndices, run.outcomes);
    var open' := OpenIndices(run.serviceIndices, run'.outcomes);
    OpenAfter(run.serviceIndices, run.outcomes, i, run'.outcomes[i]);
    hide OpenIndices;
    if result.Some? && isNew {
      SomeOpenUnlessClosed(run, i);
      BudgetStep(cfg.maxRunBytes, cfg.maxModelBytes, run.reservation, run.resultBytes, open, result.value.size, true);
    } else {
      BudgetMonotone(cfg.maxRunBytes, cfg.maxModelBytes, run.reservation, run.resultBytes, open,
                     run'.resultBytes, open');
    }
  }

  lemma SomeOpenUnlessClosed(run: Run, i: nat)
    requires i in run.serviceIndices && i < |run.outcomes| && run.outcomes[i].cursor == 0
    ensures OpenIndices(run.serviceIndices, run.outcomes) >= 1
  {
    SomeOpen(run.serviceIndices, run.outcomes, i);
  }

  /** Completing an outcome keeps the store consistent; the only failure left is a result over the size limits. */
  lemma CompleteOutcomeInv(cfg: Settings, s: Store, r: nat, i: nat, status: OutcomeStatus,
                           result: Option<ResultData>, error: Option<AppError>, cached: bool)
    requires StoreInv(cfg, s) && r in s.runs && s.runs[r].Active()
    requires i < |s.runs[r].outcomes| && i < |s.runs[r].cacheKeys| && ProperOutcome(s, r, i, status, result)
    ensures var (s', ok) := CompleteOutcome(cfg, s, r, i, status, result, error, cached);
            && StoreInv(cfg, s')
            && (ok.Err? ==> s' == s && ok.error == RESULT_TOO_LARGE)
  {
    hide StoreInv, RunOk, Holds, OpenIndices;
    var (s', ok) := CompleteOutcome(cfg, s, r, i, status, result, error, cached);
    var run := s.runs[r];
    if run.outcomes[i].cursor == 0 {
      RunAt(cfg, s, r);
      if result.Some? { ReservationSuffices(cfg, s, r, i, result.value); }
      CompleteOutcomeIs(cfg, s, r, i, status, result, error, cached);
      if ok.Ok? { CompletedStoreInv(cfg, s, r, i, status, result, error, cached); }
    }
  }

  lemma CompletedStoreInv(cfg: Settings, s: Store, r: nat, i: nat, status: OutcomeStatus,
                          result: Option<ResultData>, error: Option<AppError>, cached: bool)
    requires StoreInv(cfg, s) && r in s.runs && s.runs[r].Active()
    requires i < |s.runs[r].outcomes| && i < |s.runs[r].cacheKeys| && ProperOutcome(s, r, i, status, result)
    requires s.runs[r].outcomes[i].cursor == 0
    requires result.Some? ==> result.value.size <= cfg.maxModelBytes
                              && s.runs[r].resultBytes + result.value.size <= cfg.maxRunBytes
    requires result.Some? && s.runs[r].cacheKeys[i] !in s.cache.entries ==> result.value.size <= s.runs[r].reservation
    ensures var run, key := s.runs[r], s.runs[r].cacheKeys[i];
            var isNew := result.Some? && key !in s.cache.entries;
            StoreInv(cfg, s.(runs := s.runs[r := WithOutcome(run, i, status, result, error, cached, isNew)],
                             cache := CacheWith(s, key, result)))
  {
    hide StoreInv, RunOk, Holds, WithOutcome, CacheWith;
    RunAt(cfg, s, r);
    var run := s.runs[r];
    var isNew := result.Some? && run.cacheKeys[i] !in s.cache.entries;
    var run', cache := WithOutcome(run, i, status, result, error, cached, isNew), CacheWith(s, run.cacheKeys[i], result);
    CompletedRunOk(cfg, run, i, status, result, error, cached, isNew);
    CacheAfter(cfg, s, r, i, result, isNew);
    CompletedFields(run, i, status, result, error, cached, isNew);
    CompletedHolds(run, run', i, s.cache.entries, cache.entries);
    SetRunInv(cfg, s, r, run', cache);
  }

  lemma CompletedFields(run: Run, i: nat, status: OutcomeStatus, result: Option<ResultData>,
                        error: Option<AppError>, cached: bool, isNew: bool)
    requires i < |run.outcomes| && i < |run.cacheKeys|
    requires result.Some? && isNew ==> result.value.size <= run.reservation
    ensures var run' := WithOutcome(run, i, status, result, error, cached, isNew);
            && run'.cacheKeys == run.cacheKeys && run'.serviceIndices == run.serviceIndices
            && run'.state == run.state && run'.taskSet == run.taskSet && run'.pinned == run.pinned
            && run'.reservation == run.reservation - (if result.Some? && isNew then result.value.size else 0)
            && (forall id :: id in run'.results ==>
                  (id in run.results && run'.results[id] == run.results[id])
                  || (result.Some? && run'.results[id] == run.cacheKeys[i]))
  {
  }

  /** A result over the limit on one result, or on those of the run. */
  ghost predicate TooLarge(cfg: Settings, run: Run, result: ResultData) {
    result.size > cfg.maxModelBytes || run.resultBytes + result.size > cfg.maxRunBytes
  }

  /** Completing an outcome either fails on the size limits, changing nothing, or is one change of run and cache. */
  lemma CompleteOutcomeIs(cfg: Settings, s: Store, r: nat, i: nat, status: OutcomeStatus,
                          result: Option<ResultData>, error: Option<AppError>, cached: bool)
    requires r in s.runs && i < |s.runs[r].outcomes| && i < |s.runs[r].cacheKeys| && s.runs[r].outcomes[i].cursor == 0
    requires result.Some? ==> RetainResult(cfg, s, r, i, result.value).1 != Err(RESERVATION_EXCEEDED)
    ensures var (s', ok) := CompleteOutcome(cfg, s, r, i, status, result, error, cached);
            var run, key := s.runs[r], s.runs[r].cacheKeys[i];
            var isNew := result.Some? && key !in s.cache.entries;
            && (ok.Err? ==> s' == s && ok.error == RESULT_TOO_LARGE)
            && (ok.Err? <==> result.Some? && TooLarge(cfg, run, result.value))
            && (ok.Ok? ==>
                  && (result.Some? ==> result.value.size <= cfg.maxModelBytes
                                       && run.resultBytes + result.value.size <= cfg.maxRunBytes)
                  && (isNew ==> result.value.size <= run.reservation)
                  && s' == s.(runs := s.runs[r := WithOutcome(run, i, status, result, error, cached, isNew)],
                              cache := CacheWith(s, key, result)))
  {
  }

  lemma RunAt(cfg: Settings, s: Store, r: nat)
    requires StoreInv(cfg, s) && r in s.runs
    ensures RunOk(cfg, s.runs[r]) && Holds(s.runs[r], s.cache.entries) && WellFormed(s.cache)
  {
    hide RunOk, Holds, WorkspacesOk, Ownership;
  }

  /** The cache a completed outcome leaves behind. */
  function CacheWith(s: Store, key: SimInput, result: Option<ResultData>): Cache {
    if result.None? then s.cache
    else if key in s.cache.entries then Touch(s.cache, key)
    else Add(s.cache, key, CacheEntry(result.value, result.value.size))
  }

  lemma CacheAfter(cfg: Settings, s: Store, r: nat, i: nat, result: Option<ResultData>, isNew: bool)
    requires WellFormed(s.cache) && r in s.runs && i < |s.runs[r].cacheKeys|
    requires isNew <==> result.Some? && s.runs[r].cacheKeys[i] !in s.cache.entries
    ensures var key, cache := s.runs[r].cacheKeys[i], CacheWith(s, s.runs[r].cacheKeys[i], result);
            && WellFormed(cache)
            && (forall k :: k in s.cache.entries ==> k in cache.entries && cache.entries[k] == s.cache.entries[k])
            && (forall k :: k in cache.entries ==> k in s.cache.entries || k == key)
            && (result.Some? ==> key in cache.entries)
            && Bytes(cache) == Bytes(s.cache) + (if isNew then result.value.size else 0)
  {
    var key := s.runs[r].cacheKeys[i];
    if result.Some? {
      if isNew {
        AddKeeps(s.cache, key, CacheEntry(result.value, result.value.size));
      } else {
        TouchKeeps(s.cache, key);
      }
    }
  }

  lemma CompletedHolds(run: Run, run': Run, i: nat, entries: map<SimInput, CacheEntry>,
                       entries': map<SimInput, CacheEntry>)
    requires Holds(run, entries) && i < |run.cacheKeys|
    requires forall k :: k in entries ==> k in entries'
    requires run'.cacheKeys == run.cacheKeys && run'.serviceIndices == run.serviceIndices && run'.state == run.state
    requires forall id :: id in run'.results ==>
               (id in run.results && run'.results[id] == run.results[id]) || run'.results[id] in entries'
    ensures Holds(run', entries')
  {
  }

  /** The cache keeps agreeing with the simulator when the retained result does. */
  lemma CompleteOutcomeAgrees(cfg: Settings, s: Store, r: nat, i: nat, status: OutcomeStatus,
                              result: Option<ResultData>, error: Option<AppError>, cached: bool, sim: Simulator)
    requires r in s.runs && i < |s.runs[r].outcomes| && i < |s.runs[r].cacheKeys|
    requires Agrees(s.cache, sim) && (result.Some? ==> result.value.payload == sim(s.runs[r].cacheKeys[i]))
    ensures Agrees(CompleteOutcome(cfg, s, r, i, status, result, error, cached).0.cache, sim)
  {
  }

  // ---------------------------------------------------------------------------------------------
  // Moving and closing

  /** Bookkeeping on an active run: state among the open ones, job id, service cursor and flags. */
  ghost predicate Moves(run: Run, run': Run) {
    && run.Active() && run'.Active()
    && run' == run.(state := run'.state, jobId := run'.jobId, serviceCursor := run'.serviceCursor,
                    cancelRequested := run'.cancelRequested, superseded := run'.superseded,
                    retryPaused := run'.retryPaused)
  }

  lemma MoveInv(cfg: Settings, s: Store, r: nat, run': Run)
    requires StoreInv(cfg, s) && r in s.runs && Moves(s.runs[r], run')
    ensures StoreInv(cfg, s.(runs := s.runs[r := run']))
  {
    hide StoreInv, RunOk, Holds;
    RunAt(cfg, s, r);
    MovedRunOk(cfg, s.runs[r], run', s.cache.entries);
    SetRunInv(cfg, s, r, run', s.cache);
    assert s.(runs := s.runs[r := run'], cache := s.cache) == s.(runs := s.runs[r := run']);
  }

  lemma MovedRunOk(cfg: Settings, run: Run, run': Run, entries: map<SimInput, CacheEntry>)
    requires RunOk(cfg, run) && Holds(run, entries) && Moves(run, run')
    ensures RunOk(cfg, run') && Holds(run', entries)
  {
  }

  predicate AllComplete(run: Run) {
    forall i :: 0 <= i < |run.outcomes| ==> run.outcomes[i].cursor > 0
  }

  lemma ClosedRunOk(cfg: Settings, run: Run, run': Run, entries: map<SimInput, CacheEntry>)
    requires RunOk(cfg, run) && Holds(run, entries) && AllComplete(run)
    requires run' == run.(state := run'.state, reservation := 0) && run'.state.Terminal()
    ensures RunOk(cfg, run') && Holds(run', entries)
  {
  }

  /** Closing a run whose outcomes are all in keeps the store consistent and releases its reservation. */
  lemma CloseInv(cfg: Settings, s: Store, w: nat, r: nat, state: RunState)
    requires StoreInv(cfg, s) && w in s.workspaces && r in s.workspaces[w].runs && r in s.runs
    requires s.runs[r].Active() && AllComplete(s.runs[r]) && state.Terminal()
    ensures StoreInv(cfg, Close(s, w, r, state))
  {
    hide StoreInv, WorkspaceOk, AllComplete, FinishRun;
    var c := s.(runs := s.runs[r := s.runs[r].(state := state, reservation := 0)]);
    ReleasedInv(cfg, s, r, state);
    FinishedWorkspaceOk(cfg, c, w, r);
    CloseIs(s, w, r, state);
    SetWorkspaceInv(cfg, c, w, FinishRun(c, w, r).workspaces[w]);
  }

  lemma ReleasedInv(cfg: Settings, s: Store, r: nat, state: RunState)
    requires StoreInv(cfg, s) && r in s.runs && s.runs[r].Active() && AllComplete(s.runs[r]) && state.Terminal()
    ensures StoreInv(cfg, s.(runs := s.runs[r := s.runs[r].(state := state, reservation := 0)]))
  {
    hide StoreInv, RunOk, Holds, AllComplete;
    var run' := s.runs[r].(state := state, reservation := 0);
    RunAt(cfg, s, r);
    ClosedRunOk(cfg, s.runs[r], run', s.cache.entries);
    SetRunInv(cfg, s, r, run', s.cache);
    assert s.(runs := s.runs[r := run'], cache := s.cache) == s.(runs := s.runs[r := run']);
  }

  lemma CloseIs(s: Store, w: nat, r: nat, state: RunState)
    requires w in s.workspaces && r in s.runs
    ensures var c := s.(runs := s.runs[r := s.runs[r].(state := state, reservation := 0)]);
            && w in FinishRun(c, w, r).workspaces
            && Close(s, w, r, state) == c.(workspaces := c.workspaces[w := FinishRun(c, w, r).workspaces[w]])
            && FinishRun(c, w, r).workspaces[w].runs == s.workspaces[w].runs
  {
  }

  lemma FinishedWorkspaceOk(cfg: Settings, c: Store, w: nat, r: nat)
    requires StoreInv(cfg, c) && w in c.workspaces && r in c.workspaces[w].runs && r in c.runs
    ensures WorkspaceOk(cfg, FinishRun(c, w, r).workspaces[w], c.runs)
  {
    hide StoreInv;
    WorkspaceAt(cfg, c, w);
    var ws, ws' := c.workspaces[w], FinishRun(c, w, r).workspaces[w];
    assert forall k :: HasTaskSet(ws, k) ==> HasTaskSet(ws', k);
  }

  // ---------------------------------------------------------------------------------------------
  // Failing

  /** Marking the open outcomes as failed completes the run and leaves what was there before. */
  lemma {:induction false} FailOpenRunOk(cfg: Settings, run: Run, i: nat, error: AppError)
    requires RunOk(cfg, run) && run.Active() && i <= |run.outcomes|
    requires forall k :: 0 <= k < i ==> run.outcomes[k].cursor > 0
    ensures var run' := FailOpen(run, i, error);
            && RunOk(cfg, run') && AllComplete(run')
            && run' == run.(outcomes := run'.outcomes, lastCursor := run'.lastCursor)
            && |run'.outcomes| == |run.outcomes|
            && (forall k :: 0 <= k < |run.outcomes| && run.outcomes[k].cursor > 0 ==>
                  run'.outcomes[k] == run.outcomes[k])
            && (forall k :: 0 <= k < |run.outcomes| && run.outcomes[k].cursor == 0 ==>
                  run'.outcomes[k].status == Jobs.Failed && run'.outcomes[k].error == Some(error)
                  && run'.outcomes[k].scenario == run.outcomes[k].scenario)
    decreases |run.outcomes| - i
  {
    hide RunOk;
    if i < |run.outcomes| {
      if run.outcomes[i].cursor > 0 {
        FailOpenRunOk(cfg, run, i + 1, error);
      } else {
        var next := Mark(run, i, Jobs.Failed, Some(error), false);
        SameLengths(cfg, run);
        CompletedRunOk(cfg, run, i, Jobs.Failed, None, Some(error), false, false);
        assert WithOutcome(run, i, Jobs.Failed, None, Some(error), false, false) == next;
        FailOpenRunOk(cfg, next, i + 1, error);
      }
    }
  }

  lemma SameLengths(cfg: Settings, run: Run)
    requires RunOk(cfg, run)
    ensures |run.cacheKeys| == |run.outcomes|
  {
  }

  lemma FailOpenInv(cfg: Settings, s: Store, r: nat, error: AppError)
    requires StoreInv(cfg, s) && r in s.runs && s.runs[r].Active()
    ensures StoreInv(cfg, s.(runs := s.runs[r := FailOpen(s.runs[r], 0, error)]))
  {
    hide StoreInv, RunOk, Holds;
    RunAt(cfg, s, r);
    FailOpenRunOk(cfg, s.runs[r], 0, error);
    var run' := FailOpen(s.runs[r], 0, error);
    SameHolds(s.runs[r], run', s.cache.entries);
    SetRunInv(cfg, s, r, run', s.cache);
    assert s.(runs := s.runs[r := run'], cache := s.cache) == s.(runs := s.runs[r := run']);
  }

  lemma SameHolds(run: Run, run': Run, entries: map<SimInput, CacheEntry>)
    requires Holds(run, entries)
    requires run' == run.(outcomes := run'.outcomes, lastCursor := run'.lastCursor)
    ensures Holds(run', entries)
  {
  }

  /** Reading a cached result moves it to the end of the order of use and changes nothing else. */
  lemma TouchInv(cfg: Settings, s: Store, key: SimInput)
    requires StoreInv(cfg, s) && key in s.cache.entries
    ensures StoreInv(cfg, s.(cache := Touch(s.cache, key)))
  {
    hide RunOk, Holds, WorkspaceOk, Bytes;
    var s' := s.(cache := Touch(s.cache, key));
    TouchKeeps(s.cache, key);
    assert Ownership(s') by { SameOwners(s, s'); }
    forall r | r in s.runs ensures Holds(s.runs[r], s'.cache.entries) {
      assert s'.cache.entries == s.cache.entries;
    }
  }
}
