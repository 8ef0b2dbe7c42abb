/** The application's store as it runs: dictionaries and an ordered cache changed in place, behind one lock. */
module WorkspaceStore {
  import opened Common
  import opened Sums
  import opened ResultCache
  import opened Workspaces
  import opened WorkspaceInvariant
  import opened Eviction
  import opened StoreOperations
  import opened WorkspaceEffects
  import opened RunSteps
  import Jobs

  class InMemoryWorkspaceStore {
    const settings: Settings
    var workspaces: map<nat, Workspace>
    var runs: map<nat, Run>
    var cache: Cache
    var nextWorkspace: nat
    var nextRun: nat

    ghost function State(): Store
      reads this
    {
      Store(workspaces, runs, cache, nextWorkspace, nextRun)
    }

    ghost predicate Valid()
      reads this
    {
      settings.Valid() && StoreInv(settings, State())
    }

    constructor (settings: Settings)
      requires settings.Valid()
      ensures Valid() && State() == EmptyStore() && this.settings == settings
    {
      this.settings := settings;
      workspaces, runs, cache := map[], map[], Cache([], map[]);
      nextWorkspace, nextRun := 0, 0;
    }

    // -------------------------------------------------------------------------------------------
    // Pruning

    /** Walks a snapshot of the cache in order of use, keeping a running total of the bytes in use. */
    method PruneCache(required: nat, protect: set<SimInput>)
      requires Valid()
      modifies this`cache
      ensures Valid() && State() == Workspaces.PruneCache(settings, old(State()), required, protect)
    {
      hide StoreInv, KeptKeys, Bytes, Sum;
      PruneCacheInv(settings, State(), required, protect);
      CacheAt(settings, State());
      var keep := KeptKeys(runs) + protect;
      var used := Bytes(cache) + Sum(runs, ReservationOf, nextRun);
      ghost var start, reserved := cache, Reserved(State());
      var keys := cache.order;
      for i := 0 to |keys|
        invariant WellFormed(cache) && used == Bytes(cache) + reserved
        invariant forall j :: i <= j < |keys| ==> keys[j] in cache.entries
        invariant PruneKeys(cache, keys[i..], required, keep, reserved, settings.maxResultBytes)
                  == PruneKeys(start, keys, required, keep, reserved, settings.maxResultBytes)
      {
        var key := keys[i];
        assert keys[i..][1..] == keys[i + 1..] && keys[i..][0] == key;
        if key !in keep && (required == 0 || used + required > settings.maxResultBytes) {
          DropKeeps(cache, key);
          used := used - cache.entries[key].size;
          cache := Cache(Without(cache.order, key), cache.entries - {key});
        }
      }
    }

    /** Discards the oldest closed, unprotected runs of a workspace; false when its history stays full. */
    method PruneHistory(w: nat) returns (room: bool)
      requires Valid() && w in workspaces
      modifies this`workspaces, this`runs
      ensures Valid() && w in workspaces
      ensures State() == Workspaces.PruneHistory(settings, old(State()), w, old(workspaces[w].runs))
      ensures room == (|workspaces[w].runs| < settings.maxRetainedRuns)
    {
      hide StoreInv, Trims;
      ghost var start := State();
      ghost var goal := Workspaces.PruneHistory(settings, start, w, start.workspaces[w].runs);
      DistinctIn(settings, start, w);
      PruneHistoryTrims(settings, start, w, start.workspaces[w].runs);
      assert w in goal.workspaces by { SameWorkspaces(start, goal, w); }
      var protected := {workspaces[w].baseline, workspaces[w].latest};
      var ids := workspaces[w].runs;
      var i := 0;
      while i < |ids| && |workspaces[w].runs| >= settings.maxRetainedRuns
        invariant 0 <= i <= |ids| && w in workspaces
        invariant workspaces[w].baseline == start.workspaces[w].baseline
        invariant workspaces[w].latest == start.workspaces[w].latest
        invariant goal == Workspaces.PruneHistory(settings, State(), w, ids[i..])
      {
        var r := ids[i];
        assert ids[i..][1..] == ids[i + 1..] && ids[i..][0] == r;
        if r in runs && runs[r].state.Terminal() && !runs[r].pinned && Some(r) !in protected {
          workspaces := workspaces[w := workspaces[w].(runs := Without(workspaces[w].runs, r))];
          runs := runs - {r};
        }
        i := i + 1;
      }
      room := |workspaces[w].runs| < settings.maxRetainedRuns;
    }

    /** Discards evictable runs of all workspaces, the oldest first, pruning the cache after each. */
    method PruneForCapacity(required: nat, protect: set<SimInput>)
      requires Valid()
      modifies this`workspaces, this`runs, this`cache
      ensures Valid() && State() == Workspaces.PruneForCapacity(settings, old(State()), required, protect)
    {
      hide StoreInv, Candidates, Used, IsCandidate, OldestFirst, Distinct, Trims, Protects;
      hide EvictRuns, Evictable, Workspaces.PruneCache, AllEvictable, SortByAge;
      ghost var start := State();
      var candidates := SortByAge(Store(workspaces, runs, cache, nextWorkspace, nextRun),
                                  AllEvictable(Store(workspaces, runs, cache, nextWorkspace, nextRun), nextWorkspace));
      assert candidates == Candidates(start) by { CandidatesAre(start); }
      CandidatesOf(settings, start);
      assert candidates[0..] == candidates;
      var i := 0;
      while i < |candidates| && Used(Store(workspaces, runs, cache, nextWorkspace, nextRun)) + required
                                > settings.maxResultBytes
        invariant 0 <= i <= |candidates| && Valid()
        invariant Distinct(candidates[i..]) && forall c :: c in candidates[i..] ==> IsCandidate(State(), c)
        invariant EvictRuns(settings, State(), required, protect, candidates[i..])
                  == EvictRuns(settings, start, required, protect, candidates)
      {
        var c := candidates[i];
        ghost var s := State();
        ghost var rest := candidates[i..];
        assert rest[1..] == candidates[i + 1..] && rest[0] == c && c in rest;
        assert Distinct(rest[1..]) && c !in rest[1..] by { TailDistinct(rest); }
        CandidateFacts(s, c);
        EvictOne(settings, s, required, protect, c);
        RemovedInv(settings, s, c);
        EvictRunsStep(settings, s, required, protect, rest);
        workspaces := workspaces[c.workspace :=
          workspaces[c.workspace].(runs := Without(workspaces[c.workspace].runs, c.run))];
        runs := runs - {c.run};
        PruneCache(required, protect);
        forall d | d in candidates[i + 1..] ensures IsCandidate(State(), d) { assert d in rest && d != c; }
        i := i + 1;
      }
      assert EvictRuns(settings, State(), required, protect, candidates[i..]) == State() by {
        EvictRunsStops(settings, State(), required, protect, candidates[i..]);
      }
    }

    // -------------------------------------------------------------------------------------------
    // Workspaces

    method Create() returns (reply: Result<nat, AppError>)
      requires Valid()
      modifies this
      ensures Valid() && (State(), reply) == Workspaces.Create(settings, old(State()))
    {
      hide StoreInv;
      CreateInv(settings, State());
      if |workspaces| >= settings.maxWorkspaces {
        return Err(APP_CAPACITY);
      }
      workspaces := workspaces[nextWorkspace := Workspace(0, [], None, None, None, [])];
      reply := Ok(nextWorkspace);
      nextWorkspace := nextWorkspace + 1;
    }

    method DeleteWorkspace(w: nat) returns (reply: Result<(), AppError>)
      requires Valid()
      modifies this
      ensures Valid() && (State(), reply) == Workspaces.DeleteWorkspace(settings, old(State()), w)
    {
      hide StoreInv;
      if w !in workspaces {
        return Err(WORKSPACE_NOT_FOUND);
      }
      ghost var s := State();
      var ids := workspaces[w].runs;
      if AnyActive(ids, runs) {
        return Err(RUN_ACTIVE);
      }
      DropWorkspaceInv(settings, s, w);
      ghost var gone: set<nat> := {};
      for i := 0 to |ids|
        invariant runs == s.runs - gone && forall r :: r in gone <==> r in ids[..i]
        invariant workspaces == s.workspaces && cache == s.cache
        invariant nextWorkspace == s.nextWorkspace && nextRun == s.nextRun
      {
        runs := runs - {ids[i]};
        gone := gone + {ids[i]};
      }
      assert gone == AsSet(ids) by { assert ids[..|ids|] == ids; }
      workspaces := workspaces - {w};
      PruneCache(0, {});
      reply := Ok(());
    }

    method DeleteTaskSet(w: nat, id: nat, revision: nat) returns (reply: Result<(), AppError>)
      requires Valid()
      modifies this`workspaces
      ensures Valid() && (State(), reply) == Workspaces.DeleteTaskSet(old(State()), w, id, revision)
    {
      hide StoreInv;
      DeleteTaskSetInv(settings, State(), w, id, revision);
      if w !in workspaces {
        return Err(WORKSPACE_NOT_FOUND);
      }
      var ws := workspaces[w];
      if ws.revision != revision {
        return Err(REVISION_CONFLICT);
      }
      if ws.current == Some(id) || UsedByRuns(ws.runs, runs, id) {
        return Err(REVISION_CONFLICT);
      }
      if !HasTaskSet(ws, id) {
        return Err(RESULT_NOT_FOUND);
      }
      var kept := [];
      for i := 0 to |ws.taskSets|
        invariant kept + RemoveTaskSet(ws.taskSets[i..], id) == RemoveTaskSet(ws.taskSets, id)
      {
        assert ws.taskSets[i..][1..] == ws.taskSets[i + 1..];
        if ws.taskSets[i].id != id { kept := kept + [ws.taskSets[i]]; }
      }
      assert kept + RemoveTaskSet([], id) == kept;
      workspaces := workspaces[w := ws.(taskSets := kept, revision := ws.revision + 1)];
      reply := Ok(());
    }

    /** `valid` and `inputFits` stand for the checks on the definitions and on the size of the inputs. */
    method SaveEditor(w: nat, revision: nat, valid: bool, made: TaskSet, inputFits: bool)
      returns (reply: Result<nat, AppError>)
      requires Valid()
      modifies this`workspaces
      ensures Valid()
      ensures (State(), reply) == Workspaces.SaveEditor(settings, old(State()), w, revision, valid, made, inputFits)
    {
      hide StoreInv;
      SaveEditorInv(settings, State(), w, revision, valid, made, inputFits);
      if w !in workspaces {
        return Err(WORKSPACE_NOT_FOUND);
      }
      var ws := workspaces[w];
      if ws.revision != revision {
        return Err(REVISION_CONFLICT);
      }
      if !valid {
        return Err(INVALID_INPUT);
      }
      var taskSet := made;
      var found := FindSpec(ws.taskSets, made.spec);
      if found.None? {
        if |ws.taskSets| >= settings.maxTaskSets {
          return Err(APP_CAPACITY);
        }
      } else {
        taskSet := found.value;
      }
      var candidate := ws;
      if !HasTaskSet(candidate, taskSet.id) {
        candidate := candidate.(taskSets := candidate.taskSets + [taskSet]);
      }
      candidate := candidate.(current := Some(taskSet.id));
      if ws.current != Some(taskSet.id) {
        candidate := candidate.(baseline := None, latest := None);
      }
      candidate := candidate.(revision := candidate.revision + 1);
      if !inputFits {
        return Err(APP_CAPACITY);
      }
      workspaces := workspaces[w := candidate];
      reply := Ok(taskSet.id);
    }

    // -------------------------------------------------------------------------------------------
    // Runs

    /** The earlier run of the same request, if the workspace still has it. */
    method Previous(w: nat, request: Request) returns (reply: Result<Option<nat>, AppError>)
      requires Valid() && w in workspaces
      ensures var found := FindRequest(workspaces[w].runs, runs, request.id);
              reply == if found.None? then Ok(None)
                       else if found.value in runs && runs[found.value].request == request then Ok(found)
                       else Err(SUBMISSION_CONFLICT)
    {
      hide StoreInv;
      var ids := workspaces[w].runs;
      for i := 0 to |ids|
        invariant FindRequest(ids[i..], runs, request.id) == FindRequest(ids, runs, request.id)
      {
        assert ids[i..][1..] == ids[i + 1..];
        if ids[i] in runs && runs[ids[i]].request.id == request.id {
          if runs[ids[i]].request != request {
            return Err(SUBMISSION_CONFLICT);
          }
          return Ok(Some(ids[i]));
        }
      }
      reply := Ok(None);
    }

    method Register(w: nat, request: Request, scenarios: seq<Scenario>, taskSet: TaskSet, now: real, inputFits: bool)
      returns (reply: Result<Registered, AppError>)
      requires Valid() && DistinctScenarios(scenarios)
      requires w in workspaces ==> HasTaskSet(workspaces[w], taskSet.id)
      modifies this
      ensures Valid()
      ensures (State(), reply)
              == Workspaces.Register(settings, old(State()), w, request, scenarios, taskSet, now, inputFits)
      ensures LeavesRunsAlone(old(State()), State()) && Announces(old(State()), State(), reply)
    {
      hide StoreInv, Workspaces.PruneForCapacity, Workspaces.PruneCache, LeavesRunsAlone, Announces, DistinctScenarios;
      ghost var s := State();
      RegisterInv(settings, s, w, request, scenarios, taskSet, now, inputFits);
      if w !in workspaces {
        return Err(WORKSPACE_NOT_FOUND);
      }
      var previous := Previous(w, request);
      SameRequestSameRun(workspaces[w].runs, runs, request.id);
      if previous.Err? {
        return Err(previous.error);
      }
      if previous.value.Some? {
        return Ok(Registered(previous.value.value, false));
      }
      if AnyActive(workspaces[w].runs, runs) {
        return Err(RUN_ACTIVE);
      }
      if Sum(runs, ActiveOne, nextRun) >= settings.maxActiveRuns {
        return Err(APP_CAPACITY);
      }
      var ids := workspaces[w].runs;
      if request.intent == Interactive && ids != [] && ids[|ids| - 1] in runs
         && now - runs[ids[|ids| - 1]].createdAt < settings.minInteractiveSeconds
      {
        return Err(APP_CAPACITY);
      }
      assert Workspaces.Register(settings, s, w, request, scenarios, taskSet, now, inputFits)
             == Admit(settings, s, w, request, scenarios, taskSet, now, inputFits);
      reply := AdmitRequest(w, request, scenarios, taskSet, now, inputFits);
    }

    /** The part of registration after the refusals: make room, then add the run. */
    method AdmitRequest(w: nat, request: Request, scenarios: seq<Scenario>, taskSet: TaskSet, now: real,
                        inputFits: bool)
      returns (reply: Result<Registered, AppError>)
      requires Valid() && w in workspaces
      modifies this
      ensures (State(), reply) == Admit(settings, old(State()), w, request, scenarios, taskSet, now, inputFits)
    {
      hide StoreInv, Workspaces.PruneForCapacity, Workspaces.PruneCache, Workspaces.PruneHistory, NewRun, Missing, Keys, Used;
      var room := PruneHistory(w);
      if !room {
        return Err(APP_CAPACITY);
      }
      ghost var h := State();
      var keys := Keys(taskSet, scenarios);
      var missing := MissingFrom(keys);
      var reservation := Reservation(settings, |missing|);
      var protect := set k | k in keys;
      PruneCache(reservation, protect);
      PruneForCapacity(reservation, protect);
      MakingRoom(settings, h, w, keys);
      assert State() == RoomFor(settings, h, w, keys);
      SameWorkspaces(h, State(), w);
      var used := Used(Store(workspaces, runs, cache, nextWorkspace, nextRun));
      if used + reservation > settings.maxResultBytes {
        return Err(APP_CAPACITY);
      }
      var record := NewRun(taskSet, request, scenarios, missing, reservation, now);
      if !inputFits {
        return Err(APP_CAPACITY);
      }
      runs := runs[nextRun := record];
      var ws := workspaces[w].(runs := workspaces[w].runs + [nextRun]);
      if record.request.intent == Interactive {
        ws := ws.(latest := Some(nextRun));
      }
      workspaces := workspaces[w := ws];
      reply := Ok(Registered(nextRun, true));
      NewRunFields(taskSet, request, scenarios, missing, reservation, now);
      nextRun := nextRun + 1;
    }

    method MissingFrom(keys: seq<SimInput>) returns (missing: seq<nat>)
      ensures missing == Missing(keys, cache.entries, 0)
    {
      missing := [];
      for i := 0 to |keys|
        invariant missing + Missing(keys, cache.entries, i) == Missing(keys, cache.entries, 0)
      {
        if keys[i] !in cache.entries { missing := missing + [i]; }
      }
    }

    /** Leaves the run between two states: its outcome is marked by the coordinator right after. */
    method RetainResult(r: nat, i: nat, result: ResultData) returns (reply: Result<(), AppError>)
      requires r in runs && i < |runs[r].cacheKeys| && i < |runs[r].outcomes|
      modifies this`runs, this`cache
      ensures (State(), reply) == Workspaces.RetainResult(settings, old(State()), r, i, result)
      ensures reply.Ok? && WellFormed(old(cache)) ==> PutLast(old(cache.order), cache.order, old(runs[r]).cacheKeys[i])
    {
      hide PutLast;
      if WellFormed(cache) { RetainUses(settings, State(), r, i, result); }
      var record := runs[r];
      var key := record.cacheKeys[i];
      if result.size > settings.maxModelBytes || record.resultBytes + result.size > settings.maxRunBytes {
        return Err(RESULT_TOO_LARGE);
      }
      if key !in cache.entries {
        if result.size > record.reservation {
          return Err(RESERVATION_EXCEEDED);
        }
        record := record.(reservation := record.reservation - result.size);
        cache := Add(cache, key, CacheEntry(result, result.size));
      } else {
        cache := Touch(cache, key);
      }
      record := record.(resultBytes := record.resultBytes + result.size,
                        results := record.results[record.outcomes[i].scenario.id := key]);
      runs := runs[r := record];
      reply := Ok(());
    }

    method CachedResult(key: SimInput) returns (reply: Result<ResultData, AppError>)
      requires Valid()
      modifies this`cache
      ensures Valid() && (State(), reply) == Workspaces.CachedResult(old(State()), key)
      ensures if reply.Ok? then PutLast(old(cache.order), cache.order, key) else key !in old(cache.entries)
    {
      hide StoreInv, PutLast;
      CacheAt(settings, State());
      CachedReadUses(State(), key);
      if key !in cache.entries {
        return Err(INTERNAL_ERROR);
      }
      TouchInv(settings, State(), key);
      cache := Touch(cache, key);
      reply := Ok(cache.entries[key].result);
    }

    method GetResult(r: nat, scenario: nat) returns (reply: Result<ResultData, AppError>)
      requires Valid() && r in runs
      modifies this`cache
      ensures Valid() && (State(), reply) == ResultFor(old(State()), r, scenario)
      ensures reply.Ok? ==>
                scenario in runs[r].results && PutLast(old(cache.order), cache.order, runs[r].results[scenario])
    {
      hide StoreInv, PutLast;
      CacheAt(settings, State());
      RunReadUses(State(), r, scenario);
      var run := runs[r];
      if scenario !in run.results || run.results[scenario] !in cache.entries {
        return Err(RESULT_NOT_FOUND);
      }
      var key := run.results[scenario];
      TouchInv(settings, State(), key);
      cache := Touch(cache, key);
      reply := Ok(cache.entries[key].result);
    }

    method Finish(w: nat, r: nat)
      requires w in workspaces && r in runs
      modifies this`runs, this`workspaces
      ensures State() == FinishRun(old(State()), w, r)
      ensures Shown(old(workspaces[w]), workspaces[w], r, old(runs[r]))
    {
      FinishShows(State(), w, r);
      var record := runs[r].(reservation := 0);
      runs := runs[r := record];
      var ws := workspaces[w];
      if AnySucceeded(record) && !record.superseded {
        if ws.baseline.None? && ws.current == Some(record.taskSet.id) {
          ws := ws.(baseline := Some(r));
        }
        if record.request.intent == Manual && ws.baseline != Some(r) {
          ws := ws.(latest := Some(r));
        }
      }
      workspaces := workspaces[w := ws];
    }

    method Comparison(w: nat, r: nat, action: Action) returns (reply: Result<(), AppError>)
      requires Valid()
      modifies this
      ensures Valid() && (State(), reply) == Compare(settings, old(State()), w, r, action)
    {
      hide StoreInv, Workspaces.PruneCache;
      ghost var s := State();
      CompareInv(settings, s, w, r, action);
      if w !in workspaces {
        return Err(WORKSPACE_NOT_FOUND);
      }
      var ws := workspaces[w];
      if r !in ws.runs || r !in runs {
        return Err(RUN_NOT_FOUND);
      }
      var run := runs[r];
      if run.Active() {
        return Err(RUN_ACTIVE);
      }
      if (action == Pin || action == Baseline) && run.results == map[] {
        return Err(INVALID_INPUT);
      }
      if action == Pin {
        if !run.pinned && Pins(ws.runs, runs) >= settings.maxPins {
          return Err(COMPARISON_LIMIT);
        }
        runs := runs[r := run.(pinned := true)];
      } else if action == Unpin {
        runs := runs[r := run.(pinned := false)];
      } else if action == Baseline {
        ws := ws.(baseline := Some(r), current := Some(run.taskSet.id));
        if ws.latest.Some? && ws.latest.value in runs && runs[ws.latest.value].taskSet.id != run.taskSet.id {
          ws := ws.(latest := None);
        }
        workspaces := workspaces[w := ws.(revision := ws.revision + 1)];
      } else {
        DeletionInv(settings, s, w, r);
        ws := ws.(runs := Without(ws.runs, r));
        runs := runs - {r};
        if ws.baseline == Some(r) {
          ws := ws.(baseline := None);
        }
        if ws.latest == Some(r) {
          ws := ws.(latest := None);
        }
        workspaces := workspaces[w := ws];
        assert State() == AfterDeletion(s, w, r);
        PruneCache(0, {});
      }
      reply := Ok(());
    }
  }

  lemma CacheAt(cfg: Settings, s: Store)
    requires StoreInv(cfg, s)
    ensures WellFormed(s.cache)
  {
    hide RunsOk, WorkspacesOk, Ownership;
  }

  lemma DistinctIn(cfg: Settings, s: Store, w: nat)
    requires StoreInv(cfg, s) && w in s.workspaces
    ensures Distinct(s.workspaces[w].runs)
  {
    hide StoreInv;
    WorkspaceAt(cfg, s, w);
  }

  lemma SameWorkspaces(s: Store, s': Store, w: nat)
    requires Trims(s, s') && w in s.workspaces
    ensures w in s'.workspaces
  {
    hide Used, ActiveRuns, TrimsWorkspace;
  }

  lemma CandidatesAre(s: Store)
    ensures Candidates(s) == SortByAge(s, AllEvictable(s, s.nextWorkspace))
  {
  }

  lemma CandidatesOf(cfg: Settings, s: Store)
    requires StoreInv(cfg, s)
    ensures Distinct(Candidates(s)) && forall c :: c in Candidates(s) ==> IsCandidate(s, c)
  {
    hide StoreInv, IsCandidate, Distinct, OldestFirst, Candidates;
    Unfold(cfg, s);
    CandidatesAreEvictable(cfg, s);
  }

  lemma TailDistinct(cs: seq<Candidate>)
    requires Distinct(cs) && cs != []
    ensures Distinct(cs[1..]) && cs[0] !in cs[1..]
  {
    DistinctTail(cs);
  }

  lemma RemovedInv(cfg: Settings, s: Store, c: Candidate)
    requires StoreInv(cfg, s) && c.workspace in s.workspaces && c.run in s.workspaces[c.workspace].runs
    requires Evictable(s.workspaces[c.workspace], c.run, s.runs)
    ensures StoreInv(cfg, RemoveRun(s, c.workspace, c.run))
  {
    hide StoreInv;
    RemoveRunInv(cfg, s, c.workspace, c.run);
  }

  lemma EvictRunsStep(cfg: Settings, s: Store, required: nat, protect: set<SimInput>, cs: seq<Candidate>)
    requires cs != [] && cs[0].workspace in s.workspaces && Used(s) + required > cfg.maxResultBytes
    ensures EvictRuns(cfg, s, required, protect, cs)
            == EvictRuns(cfg, AfterEvicting(cfg, s, required, protect, cs[0]), required, protect, cs[1..])
  {
    hide Used;
  }

  lemma EvictRunsStops(cfg: Settings, s: Store, required: nat, protect: set<SimInput>, cs: seq<Candidate>)
    requires cs == [] || Used(s) + required <= cfg.maxResultBytes
    ensures EvictRuns(cfg, s, required, protect, cs) == s
  {
    hide Used;
  }
}
