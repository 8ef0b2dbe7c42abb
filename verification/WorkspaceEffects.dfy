/** What each operation of the application's store answers, and what is different afterwards. */
module WorkspaceEffects {
  import opened Common
  import opened Sums
  import opened ResultCache
  import opened Workspaces
  import opened WorkspaceInvariant
  import opened Eviction
  import opened StoreOperations
  import Jobs

  // ---------------------------------------------------------------------------------------------
  // Results

  /** Reading a cached result succeeds exactly when it is there, and makes it the one used last. */
  lemma CachedReadUses(s: Store, key: SimInput)
    requires WellFormed(s.cache)
    ensures var (s', reply) := CachedResult(s, key);
            && (reply.Ok? <==> key in s.cache.entries) && (reply.Err? ==> s' == s)
            && (reply.Ok? ==>
                  && reply.value == s.cache.entries[key].result
                  && PutLast(s.cache.order, s'.cache.order, key)
                  && s' == s.(cache := s'.cache) && s'.cache.entries == s.cache.entries)
  {
    if key in s.cache.entries { TouchUses(s.cache, key); }
  }

  lemma RunReadUses(s: Store, r: nat, scenario: nat)
    requires WellFormed(s.cache) && r in s.runs
    ensures var (s', reply) := ResultFor(s, r, scenario);
            var results := s.runs[r].results;
            && (reply.Ok? <==> scenario in results && results[scenario] in s.cache.entries) && (reply.Err? ==> s' == s)
            && (reply.Ok? ==>
                  && reply.value == s.cache.entries[results[scenario]].result
                  && PutLast(s.cache.order, s'.cache.order, results[scenario])
                  && s' == s.(cache := s'.cache) && s'.cache.entries == s.cache.entries)
  {
    var results := s.runs[r].results;
    if scenario in results && results[scenario] in s.cache.entries { TouchUses(s.cache, results[scenario]); }
  }

  /**
   * A result is retained exactly when it fits its own and the run's limit and, if the cache does not have it yet, the
   * reservation; it is then the one used last, found by its scenario, and charged once.
   */
  lemma RetainUses(cfg: Settings, s: Store, r: nat, i: nat, result: ResultData)
    requires WellFormed(s.cache) && r in s.runs && i < |s.runs[r].cacheKeys| && i < |s.runs[r].outcomes|
    ensures var (s', reply) := RetainResult(cfg, s, r, i, result);
            var run, key := s.runs[r], s.runs[r].cacheKeys[i];
            var isNew := key !in s.cache.entries;
            && (reply.Ok? <==>
                  && result.size <= cfg.maxModelBytes && run.resultBytes + result.size <= cfg.maxRunBytes
                  && (isNew ==> result.size <= run.reservation))
            && (reply.Err? ==> s' == s)
            && (reply.Ok? ==>
                  && PutLast(s.cache.order, s'.cache.order, key) && r in s'.runs
                  && s'.cache.entries == (if isNew then s.cache.entries[key := CacheEntry(result, result.size)]
                                          else s.cache.entries)
                  && Bytes(s'.cache) + s'.runs[r].reservation == Bytes(s.cache) + run.reservation
                  && s'.runs[r].resultBytes == run.resultBytes + result.size
                  && s'.runs[r].results == run.results[run.outcomes[i].scenario.id := key]
                  && s'.runs[r].outcomes == run.outcomes && s'.runs.Keys == s.runs.Keys
                  && forall q :: q in s.runs && q != r ==> s'.runs[q] == s.runs[q])
  {
    hide Bytes, PutLast, WellFormed, Touch, Add;
    var key := s.runs[r].cacheKeys[i];
    if key in s.cache.entries {
      TouchUses(s.cache, key);
      TouchKeeps(s.cache, key);
    } else {
      AddUses(s.cache, key, CacheEntry(result, result.size));
      AddKeeps(s.cache, key, CacheEntry(result, result.size));
    }
  }

  /** To make room, the result used last goes only when all other results go that nothing needs. */
  lemma UsedLastGoesLast(cfg: Settings, order: seq<SimInput>, s: Store, key: SimInput, required: nat,
                         protect: set<SimInput>)
    requires WellFormed(s.cache) && PutLast(order, s.cache.order, key) && required > 0
    requires key !in PruneCache(cfg, s, required, protect).cache.entries
    ensures forall k :: k in PruneCache(cfg, s, required, protect).cache.entries ==> Needed(s.runs, k) || k in protect
  {
    hide Pruned, PutLast, KeptKeys, Needed;
    KeptIsNeeded(s.runs);
    LastUsedGoesLast(order, s.cache, key, required, KeptKeys(s.runs) + protect, Reserved(s), cfg.maxResultBytes);
  }

  // ---------------------------------------------------------------------------------------------
  // Workspaces

  /** A new workspace is empty and has a new number; it is refused exactly when there are as many as may be. */
  lemma CreateEffect(cfg: Settings, s: Store)
    requires StoreInv(cfg, s)
    ensures var (s', reply) := Create(cfg, s);
            && (reply.Err? <==> |s.workspaces| == cfg.maxWorkspaces) && (reply.Err? ==> s' == s)
            && (reply.Ok? ==>
                  && reply.value !in s.workspaces
                  && s'.workspaces == s.workspaces[reply.value := Workspace(0, [], None, None, None, [])]
                  && s'.runs == s.runs && s'.cache == s.cache)
  {
    hide RunsOk, Ownership, CapacityOk, WorkspaceOk;
  }

  /** One of a workspace's runs is still active. */
  ghost predicate Busy(s: Store, w: nat)
    requires w in s.workspaces
  {
    exists r :: r in s.workspaces[w].runs && r in s.runs && !s.runs[r].state.Terminal()
  }

  lemma BusyIs(s: Store, w: nat)
    requires w in s.workspaces
    ensures AnyActive(s.workspaces[w].runs, s.runs) <==> Busy(s, w)
  {
    var ids := s.workspaces[w].runs;
    if Busy(s, w) {
      var r :| r in ids && r in s.runs && !s.runs[r].state.Terminal();
      var k :| 0 <= k < |ids| && ids[k] == r;
    }
  }

  lemma DeleteWorkspaceReply(cfg: Settings, s: Store, w: nat)
    ensures DeleteWorkspace(cfg, s, w).1
            == if w !in s.workspaces then Err(WORKSPACE_NOT_FOUND) else if Busy(s, w) then Err(RUN_ACTIVE) else Ok(())
  {
    if w in s.workspaces { BusyIs(s, w); }
  }

  /** A task set is deleted, and nothing else, exactly when the edit is current, the task set there and unused. */
  lemma DeleteTaskSetEffect(s: Store, w: nat, id: nat, revision: nat)
    ensures var (s', reply) := DeleteTaskSet(s, w, id, revision);
            && (reply.Ok? <==>
                  && w in s.workspaces && s.workspaces[w].revision == revision && s.workspaces[w].current != Some(id)
                  && (forall r :: r in s.workspaces[w].runs && r in s.runs ==> s.runs[r].taskSet.id != id)
                  && exists t :: t in s.workspaces[w].taskSets && t.id == id)
            && (reply.Err? ==> s' == s)
            && (reply.Ok? ==>
                  && w in s'.workspaces
                  && s' == s.(workspaces := s.workspaces[w := s'.workspaces[w]])
                  && s'.workspaces[w] == s.workspaces[w].(taskSets := s'.workspaces[w].taskSets, revision := revision + 1)
                  && forall t :: t in s'.workspaces[w].taskSets <==> t in s.workspaces[w].taskSets && t.id != id)
  {
    if w in s.workspaces {
      var ws := s.workspaces[w];
      RemoveTaskSetKeeps(ws.taskSets, id);
      if UsedByRuns(ws.runs, s.runs, id) {
        var k :| 0 <= k < |ws.runs| && ws.runs[k] in s.runs && s.runs[ws.runs[k]].taskSet.id == id;
        assert ws.runs[k] in ws.runs;
      }
      if exists t :: t in ws.taskSets && t.id == id {
        var t :| t in ws.taskSets && t.id == id;
        HasTaskSetMember(ws, t);
      }
      if HasTaskSet(ws, id) {
        var k :| 0 <= k < |ws.taskSets| && ws.taskSets[k].id == id;
        assert ws.taskSets[k] in ws.taskSets;
      }
    }
  }

  /**
   * An edit makes the task set of its specification the current one, adding it only when no task set has that
   * specification; baseline and latest are dropped exactly when the current task set changes.
   */
  lemma SaveEditorEffect(cfg: Settings, s: Store, w: nat, revision: nat, valid: bool, made: TaskSet, inputFits: bool)
    requires w in s.workspaces ==> |s.workspaces[w].taskSets| <= cfg.maxTaskSets
    requires w in s.workspaces ==> forall t :: t in s.workspaces[w].taskSets ==> t.id != made.id
    ensures var (s', reply) := SaveEditor(cfg, s, w, revision, valid, made, inputFits);
            && (reply.Err? ==> s' == s)
            && (reply.Ok? <==>
                  && w in s.workspaces && s.workspaces[w].revision == revision && valid && inputFits
                  && (|s.workspaces[w].taskSets| == cfg.maxTaskSets ==>
                        exists t :: t in s.workspaces[w].taskSets && t.spec == made.spec))
            && (reply.Ok? ==>
                  && w in s'.workspaces && s' == s.(workspaces := s.workspaces[w := s'.workspaces[w]])
                  && var ws, ws' := s.workspaces[w], s'.workspaces[w];
                  && ws'.revision == revision + 1 && ws'.runs == ws.runs && ws'.current == Some(reply.value)
                  && (exists t :: t in ws'.taskSets && t.id == reply.value && t.spec == made.spec)
                  && ws'.taskSets == (if exists t :: t in ws.taskSets && t.spec == made.spec then ws.taskSets
                                      else ws.taskSets + [made])
                  && (if ws.current == Some(reply.value) then ws'.baseline == ws.baseline && ws'.latest == ws.latest
                      else ws'.baseline.None? && ws'.latest.None?))
  {
    if w in s.workspaces {
      var ws := s.workspaces[w];
      FindSpecFinds(ws.taskSets, made.spec);
      var found := FindSpec(ws.taskSets, made.spec);
      if found.Some? {
        HasTaskSetMember(ws, found.value);
      } else {
        forall k | 0 <= k < |ws.taskSets| ensures ws.taskSets[k].id != made.id { assert ws.taskSets[k] in ws.taskSets; }
        assert made in ws.taskSets + [made];
      }
    }
  }

  // ---------------------------------------------------------------------------------------------
  // Finished runs

  /** A run worth showing: some scenario succeeded, and no newer run took its place. */
  ghost predicate Worth(run: Run) {
    !run.superseded && exists i :: 0 <= i < |run.outcomes| && run.outcomes[i].status == Jobs.Succeeded
  }

  /** How a workspace shows a run that has just finished. */
  ghost predicate Shown(ws: Workspace, ws': Workspace, r: nat, run: Run) {
    var first := Worth(run) && ws.baseline.None? && ws.current == Some(run.taskSet.id);
    && ws'.baseline == (if first then Some(r) else ws.baseline)
    && ws'.latest == (if Worth(run) && run.request.intent == Manual && ws'.baseline != Some(r) then Some(r)
                      else ws.latest)
    && ws' == ws.(baseline := ws'.baseline, latest := ws'.latest)
  }

  /**
   * A finished run becomes the baseline exactly when it is worth showing, there is none yet, and its task set is the
   * current one; a manual run worth showing that is not the baseline becomes the latest; nothing else changes.
   */
  lemma FinishShows(s: Store, w: nat, r: nat)
    requires w in s.workspaces && r in s.runs
    ensures var s' := FinishRun(s, w, r);
            && Shown(s.workspaces[w], s'.workspaces[w], r, s.runs[r])
            && s' == s.(workspaces := s.workspaces[w := s'.workspaces[w]], runs := s.runs[r := s.runs[r].(reservation := 0)])
  {
  }

  // ---------------------------------------------------------------------------------------------
  // Comparisons

  /** Why a comparison is refused. */
  function ComparisonRefused(cfg: Settings, s: Store, w: nat, r: nat, action: Action, pins: nat): Option<AppError> {
    if w !in s.workspaces then Some(WORKSPACE_NOT_FOUND)
    else if r !in s.workspaces[w].runs || r !in s.runs then Some(RUN_NOT_FOUND)
    else if !s.runs[r].state.Terminal() then Some(RUN_ACTIVE)
    else if (action.Pin? || action.Baseline?) && s.runs[r].results == map[] then Some(INVALID_INPUT)
    else if action.Pin? && !s.runs[r].pinned && pins == cfg.maxPins then Some(COMPARISON_LIMIT)
    else None
  }

  ghost function PinnedRuns(ids: seq<nat>, runs: map<nat, Run>): set<nat> {
    set r | r in ids && r in runs && runs[r].pinned
  }

  lemma {:induction false} PinsAreRuns(ids: seq<nat>, runs: map<nat, Run>)
    requires Distinct(ids)
    ensures Pins(ids, runs) == |PinnedRuns(ids, runs)|
  {
    if ids != [] {
      DistinctTail(ids);
      PinsAreRuns(ids[1..], runs);
      assert PinnedRuns(ids, runs)
             == PinnedRuns(ids[1..], runs) + if ids[0] in runs && runs[ids[0]].pinned then {ids[0]} else {};
    } else {
      assert PinnedRuns(ids, runs) == {};
    }
  }

  /** What a comparison leaves of a workspace. */
  ghost predicate Compared(s: Store, s': Store, w: nat, r: nat, action: Action)
    requires w in s.workspaces && r in s.runs
  {
    && w in s'.workspaces && s'.workspaces == s.workspaces[w := s'.workspaces[w]]
    && var ws, ws' := s.workspaces[w], s'.workspaces[w];
    match action
    case Pin => ws' == ws && s'.cache == s.cache && s'.runs == s.runs[r := s.runs[r].(pinned := true)]
    case Unpin => ws' == ws && s'.cache == s.cache && s'.runs == s.runs[r := s.runs[r].(pinned := false)]
    case Baseline =>
      && s'.runs == s.runs && s'.cache == s.cache
      && ws'.baseline == Some(r) && ws'.current == Some(s.runs[r].taskSet.id) && ws'.revision == ws.revision + 1
      && ws'.latest == (if ws.latest.Some? && ws.latest.value in s.runs
                           && s.runs[ws.latest.value].taskSet.id != s.runs[r].taskSet.id then None else ws.latest)
      && ws'.taskSets == ws.taskSets && ws'.runs == ws.runs
    case Delete =>
      && s'.runs == s.runs - {r} && (forall q :: q in ws'.runs <==> q in ws.runs && q != r)
      && ws'.baseline == (if ws.baseline == Some(r) then None else ws.baseline)
      && ws'.latest == (if ws.latest == Some(r) then None else ws.latest)
      && ws'.taskSets == ws.taskSets && ws'.current == ws.current && ws'.revision == ws.revision
      && forall k :: k in s'.cache.entries <==> k in s.cache.entries && Needed(s'.runs, k)
  }

  lemma CompareEffect(cfg: Settings, s: Store, w: nat, r: nat, action: Action)
    requires StoreInv(cfg, s)
    ensures var (s', reply) := Compare(cfg, s, w, r, action);
            var pins := if w in s.workspaces then |PinnedRuns(s.workspaces[w].runs, s.runs)| else 0;
            var refused := ComparisonRefused(cfg, s, w, r, action, pins);
            && reply == (if refused.Some? then Err(refused.value) else Ok(()))
            && if refused.Some? then s' == s else Compared(s, s', w, r, action)
  {
    hide StoreInv, PruneCache, PinnedRuns, Needed;
    if w in s.workspaces {
      WorkspaceAt(cfg, s, w);
      PinsAreRuns(s.workspaces[w].runs, s.runs);
      hide WorkspaceOk, Pins;
      if Compare(cfg, s, w, r, action).1.Ok? {
        assert s.workspaces[w := s.workspaces[w]] == s.workspaces;
        if action.Delete? { DeleteEffect(cfg, s, w, r); }
      }
    }
  }

  lemma DeleteEffect(cfg: Settings, s: Store, w: nat, r: nat)
    requires StoreInv(cfg, s) && Compare(cfg, s, w, r, Delete).1.Ok?
    ensures Compared(s, Compare(cfg, s, w, r, Delete).0, w, r, Delete)
  {
    hide StoreInv, PruneCache, Needed, KeptKeys;
    DeletionInv(cfg, s, w, r);
    PurgeKeeps(cfg, AfterDeletion(s, w, r));
    KeptIsNeeded(AfterDeletion(s, w, r).runs);
    WithoutMembers(s.workspaces[w].runs, r);
  }

  // ---------------------------------------------------------------------------------------------
  // Registration

  /** The memory of the store is full, though everything that may go has gone. */
  ghost predicate MemoryFull(cfg: Settings, s: Store, reservation: nat, keys: seq<SimInput>) {
    && Used(s) + reservation > cfg.maxResultBytes
    && (forall v, r :: v in s.workspaces && r in s.workspaces[v].runs ==> Guarded(s.workspaces[v], r, s.runs))
    && (forall k :: k in s.cache.entries ==> Needed(s.runs, k) || k in keys)
  }

  /** An interactive request that follows the workspace's last run too closely. */
  ghost predicate Hasty(cfg: Settings, s: Store, w: nat, request: Request, now: real)
    requires w in s.workspaces
  {
    var ids := s.workspaces[w].runs;
    && request.intent == Interactive && ids != [] && ids[|ids| - 1] in s.runs
    && now < s.runs[ids[|ids| - 1]].createdAt + cfg.minInteractiveSeconds
  }

  ghost function GuardedRuns(ws: Workspace, runs: map<nat, Run>): set<nat> {
    set r | r in ws.runs && Guarded(ws, r, runs)
  }

  ghost function ActiveIds(s: Store): set<nat> { set r | r in s.runs && !s.runs[r].state.Terminal() }

  lemma {:induction false} ActiveCount(runs: map<nat, Run>, n: nat)
    ensures Sum(runs, ActiveOne, n) == |set r | 0 <= r < n && r in runs && !runs[r].state.Terminal()|
  {
    var active := set r | 0 <= r < n && r in runs && !runs[r].state.Terminal();
    if n > 0 {
      ActiveCount(runs, n - 1);
      var before := set r | 0 <= r < n - 1 && r in runs && !runs[r].state.Terminal();
      assert active == before + if n - 1 in runs && !runs[n - 1].state.Terminal() then {n - 1} else {};
    } else {
      assert active == {};
    }
  }

  lemma ActiveIdsCount(cfg: Settings, s: Store)
    requires RunsOk(cfg, s)
    ensures ActiveRuns(s) == |ActiveIds(s)|
  {
    hide RunOk, Holds;
    ActiveCount(s.runs, s.nextRun);
    assert ActiveIds(s) == set r | 0 <= r < s.nextRun && r in s.runs && !s.runs[r].state.Terminal();
  }

  lemma {:induction false} DistinctSize(ids: seq<nat>)
    requires Distinct(ids)
    ensures |AsSet(ids)| == |ids|
  {
    if ids != [] {
      DistinctTail(ids);
      DistinctSize(ids[1..]);
      assert AsSet(ids) == {ids[0]} + AsSet(ids[1..]);
    }
  }

  lemma {:induction false} SmallerSet(a: set<nat>, b: set<nat>)
    requires a <= b
    ensures |a| <= |b|
  {
    if a != {} {
      var x :| x in a;
      SmallerSet(a - {x}, b - {x});
    }
  }

  /** Cutting a workspace's history makes room for one more run exactly when fewer are guarded than may be kept. */
  lemma HistoryRoom(cfg: Settings, s: Store, w: nat)
    requires StoreInv(cfg, s) && w in s.workspaces && cfg.maxRetainedRuns > 0
    ensures var h := PruneHistory(cfg, s, w, s.workspaces[w].runs);
            && w in h.workspaces
            && (|h.workspaces[w].runs| < cfg.maxRetainedRuns
                <==> |GuardedRuns(s.workspaces[w], s.runs)| < cfg.maxRetainedRuns)
  {
    hide StoreInv, Trims, TrimsWorkspace, PruneHistory, Evictable, Guarded;
    var ids := s.workspaces[w].runs;
    WorkspaceAt(cfg, s, w);
    DistinctIdsOf(cfg, s, w);
    PruneHistoryTrims(cfg, s, w, ids);
    HistoryMinimal(cfg, s, w, ids);
    var h := PruneHistory(cfg, s, w, ids);
    TrimmedRuns(s, h, w);
    DistinctIdsOf(cfg, h, w);
    DistinctSize(h.workspaces[w].runs);
    SmallerSet(GuardedRuns(s.workspaces[w], s.runs), AsSet(h.workspaces[w].runs));
    GuardedIs();
    if |h.workspaces[w].runs| >= cfg.maxRetainedRuns {
      RunsOfOthers(cfg, h);
      forall r | r in h.workspaces[w].runs ensures Guarded(s.workspaces[w], r, s.runs) {
        assert r in ids && r in h.runs;
        SameGuard(s, h, w, r);
      }
      SmallerSet(AsSet(h.workspaces[w].runs), GuardedRuns(s.workspaces[w], s.runs));
    }
  }

  lemma DistinctIdsOf(cfg: Settings, s: Store, w: nat)
    requires StoreInv(cfg, s) && w in s.workspaces
    ensures Distinct(s.workspaces[w].runs) && |s.workspaces[w].runs| <= cfg.maxRetainedRuns
  {
    hide StoreInv;
    WorkspaceAt(cfg, s, w);
  }

  lemma TrimmedRuns(s: Store, s': Store, w: nat)
    requires Trims(s, s') && w in s.workspaces
    ensures w in s'.workspaces
    ensures forall r :: r in s'.workspaces[w].runs ==> r in s.workspaces[w].runs
    ensures forall r :: r in GuardedRuns(s.workspaces[w], s.runs) ==> r in s'.workspaces[w].runs
  {
    hide Used, ActiveRuns;
    assert TrimsWorkspace(s.workspaces[w], s'.workspaces[w], s.runs);
  }

  lemma SameGuard(s: Store, s': Store, w: nat, r: nat)
    requires Trims(s, s') && w in s.workspaces && w in s'.workspaces && r in s'.runs
    ensures Guarded(s'.workspaces[w], r, s'.runs) <==> Guarded(s.workspaces[w], r, s.runs)
  {
    hide Used, ActiveRuns;
    assert TrimsWorkspace(s.workspaces[w], s'.workspaces[w], s.runs);
  }

  /** What making room may take, and what is so when it was not enough. */
  lemma RoomEffect(cfg: Settings, s: Store, w: nat, keys: seq<SimInput>)
    requires StoreInv(cfg, s) && w in s.workspaces
    ensures var s' := RoomFor(cfg, s, w, keys);
            var required := Reservation(cfg, |Missing(keys, s.cache.entries, 0)|);
            && s'.workspaces.Keys == s.workspaces.Keys
            && (forall v, r :: v in s.workspaces && r in GuardedRuns(s.workspaces[v], s.runs) ==> r in s'.workspaces[v].runs)
            && (forall r :: r in s'.runs ==> r in s.runs && s'.runs[r] == s.runs[r])
            && (forall k :: k in s.cache.entries && k in keys ==> k in s'.cache.entries)
            && (Used(s') + required > cfg.maxResultBytes ==> MemoryFull(cfg, s', required, keys))
  {
    hide StoreInv, Used, KeptKeys, Needed, Guarded, Evictable, RoomFor, Missing, TrimsWorkspace;
    MakingRoom(cfg, s, w, keys);
    GuardedIs();
    KeptIsNeeded(RoomFor(cfg, s, w, keys).runs);
    hide ActiveRuns;
    forall v | v in s.workspaces
      ensures forall r :: r in GuardedRuns(s.workspaces[v], s.runs) ==> r in RoomFor(cfg, s, w, keys).workspaces[v].runs
    {
      TrimmedRuns(s, RoomFor(cfg, s, w, keys), v);
    }
  }

  /** A new run: one open outcome per scenario, and to be sent exactly what the cache does not have. */
  ghost predicate Fresh(cfg: Settings, run: Run, request: Request, scenarios: seq<Scenario>, taskSet: TaskSet,
                        entries: map<SimInput, CacheEntry>, now: real) {
    && run.request == request && run.taskSet == taskSet && run.createdAt == now && run.state == Submitting
    && |run.outcomes| == |run.cacheKeys| == |scenarios|
    && (forall i :: 0 <= i < |scenarios| ==>
          && run.cacheKeys[i] == SimInput(taskSet.tasks, scenarios[i].model, scenarios[i].seed)
          && run.outcomes[i] == Summary(scenarios[i], Jobs.Queued, 0, false, None)
          && (i in run.serviceIndices <==> run.cacheKeys[i] !in entries))
    && Increasing(run.serviceIndices) && (forall i :: i in run.serviceIndices ==> i < |scenarios|)
    && run.reservation == Min(cfg.maxRunBytes, cfg.maxModelBytes * |run.serviceIndices|)
    && run.results == map[] && run.jobId.None? && run.serviceCursor == run.resultBytes == run.lastCursor == 0
    && !run.pinned && !run.superseded && !run.cancelRequested && !run.retryPaused
  }

  lemma FreshRun(cfg: Settings, request: Request, scenarios: seq<Scenario>, taskSet: TaskSet,
                 entries: map<SimInput, CacheEntry>, now: real)
    ensures var missing := Missing(Keys(taskSet, scenarios), entries, 0);
            Fresh(cfg, NewRun(taskSet, request, scenarios, missing, Reservation(cfg, |missing|), now),
                  request, scenarios, taskSet, entries, now)
  {
    MissingMembers(Keys(taskSet, scenarios), entries, 0);
    MissingIncreases(Keys(taskSet, scenarios), entries, 0);
    hide Missing;
  }

  /** What stands in the way of a new run, before any room is made for it. */
  ghost predicate Blocked(cfg: Settings, s: Store, w: nat, request: Request, now: real)
    requires w in s.workspaces
  {
    Busy(s, w) || |ActiveIds(s)| == cfg.maxActiveRuns || Hasty(cfg, s, w, request, now)
  }

  lemma RefusedIfBlocked(cfg: Settings, s: Store, w: nat, request: Request, now: real)
    requires StoreInv(cfg, s) && w in s.workspaces
    ensures Refusal(cfg, s, w, request, now).Some? <==> Blocked(cfg, s, w, request, now)
    ensures Refusal(cfg, s, w, request, now).Some? ==>
              Refusal(cfg, s, w, request, now).value == if Busy(s, w) then RUN_ACTIVE else APP_CAPACITY
  {
    hide WorkspacesOk, Ownership, Used;
    BusyIs(s, w);
    ActiveIdsCount(cfg, s);
    hide AnyActive, Busy, RunsOk, ActiveIds, ActiveRuns;
  }

  /**
   * A request that has no run yet gets one exactly when its workspace is idle, another run may be active, it is not
   * hasty, the workspace has room in its history, the inputs fit, and memory can be made for what the cache lacks.
   */
  lemma RegisterEffect(cfg: Settings, s: Store, w: nat, request: Request, scenarios: seq<Scenario>, taskSet: TaskSet,
                       now: real, inputFits: bool)
    requires StoreInv(cfg, s) && w in s.workspaces && cfg.Valid()
    requires forall r :: r in s.workspaces[w].runs && r in s.runs ==> s.runs[r].request.id != request.id
    ensures var (s', reply) := Register(cfg, s, w, request, scenarios, taskSet, now, inputFits);
            && (reply.Ok? ==>
                  && reply.value == Registered(s.nextRun, true) && s.nextRun in s'.runs && w in s'.workspaces
                  && !Blocked(cfg, s, w, request, now) && inputFits
                  && |GuardedRuns(s.workspaces[w], s.runs)| < cfg.maxRetainedRuns
                  && Fresh(cfg, s'.runs[s.nextRun], request, scenarios, taskSet, s.cache.entries, now)
                  && s'.workspaces[w].latest == (if request.intent == Interactive then Some(s.nextRun)
                                                 else s.workspaces[w].latest)
                  && s'.workspaces[w].baseline == s.workspaces[w].baseline
                  && s'.workspaces[w].current == s.workspaces[w].current)
            && (reply.Err? ==>
                  || (reply.error == RUN_ACTIVE && Busy(s, w))
                  || (reply.error == APP_CAPACITY && !Busy(s, w)
                      && (|| Blocked(cfg, s, w, request, now) || !inputFits
                          || |GuardedRuns(s.workspaces[w], s.runs)| >= cfg.maxRetainedRuns
                          || exists p, needed :: MemoryFull(cfg, p, needed, Keys(taskSet, scenarios)))))
  {
    hide StoreInv, Admit, Refusal, Hasty, Busy, Fresh, GuardedRuns, MemoryFull;
    SameRequestSameRun(s.workspaces[w].runs, s.runs, request.id);
    RefusedIfBlocked(cfg, s, w, request, now);
    if Refusal(cfg, s, w, request, now).None? {
      AdmitEffect(cfg, s, w, request, scenarios, taskSet, now, inputFits);
    }
  }

  lemma AdmitEffect(cfg: Settings, s: Store, w: nat, request: Request, scenarios: seq<Scenario>, taskSet: TaskSet,
                    now: real, inputFits: bool)
    requires StoreInv(cfg, s) && w in s.workspaces && cfg.Valid()
    ensures var (s', reply) := Admit(cfg, s, w, request, scenarios, taskSet, now, inputFits);
            && (reply.Ok? ==>
                  && reply.value == Registered(s.nextRun, true) && s.nextRun in s'.runs && w in s'.workspaces
                  && inputFits && |GuardedRuns(s.workspaces[w], s.runs)| < cfg.maxRetainedRuns
                  && Fresh(cfg, s'.runs[s.nextRun], request, scenarios, taskSet, s.cache.entries, now)
                  && s'.workspaces[w].latest == (if request.intent == Interactive then Some(s.nextRun)
                                                 else s.workspaces[w].latest)
                  && s'.workspaces[w].baseline == s.workspaces[w].baseline
                  && s'.workspaces[w].current == s.workspaces[w].current)
            && (reply.Err? ==>
                  reply.error == APP_CAPACITY
                  && (|| !inputFits || |GuardedRuns(s.workspaces[w], s.runs)| >= cfg.maxRetainedRuns
                      || exists p, needed :: MemoryFull(cfg, p, needed, Keys(taskSet, scenarios))))
  {
    hide StoreInv, Used, PruneHistory, RoomFor, Missing, Keys, NewRun, GuardedRuns, MemoryFull, Fresh, Reservation;
    var h := PruneHistory(cfg, s, w, s.workspaces[w].runs);
    HistoryRoom(cfg, s, w);
    DistinctIdsOf(cfg, s, w);
    PruneHistoryTrims(cfg, s, w, s.workspaces[w].runs);
    SameLabels(s, h, w);
    if |h.workspaces[w].runs| < cfg.maxRetainedRuns {
      var keys := Keys(taskSet, scenarios);
      RoomEffect(cfg, h, w, keys);
      MakingRoom(cfg, h, w, keys);
      SameLabels(h, RoomFor(cfg, h, w, keys), w);
      FreshRun(cfg, request, scenarios, taskSet, h.cache.entries, now);
      NewRunFields(taskSet, request, scenarios, Missing(keys, h.cache.entries, 0),
                   Reservation(cfg, |Missing(keys, h.cache.entries, 0)|), now);
      hide Trims, Protects, Guarded, Evictable, Needed, KeptKeys;
    }
  }

  lemma SameLabels(s: Store, s': Store, w: nat)
    requires Trims(s, s') && w in s.workspaces
    ensures w in s'.workspaces && s'.nextRun == s.nextRun && s'.workspaces[w].latest == s.workspaces[w].latest
    ensures s'.workspaces[w].baseline == s.workspaces[w].baseline && s'.workspaces[w].current == s.workspaces[w].current
  {
    hide Used, ActiveRuns;
    assert TrimsWorkspace(s.workspaces[w], s'.workspaces[w], s.runs);
  }

  // ---------------------------------------------------------------------------------------------
  // Memory

  /** The sizes of the cached results with these keys. */
  ghost function SizesOf(keys: set<SimInput>, entries: map<SimInput, CacheEntry>): nat
    requires keys <= entries.Keys
  {
    if keys == {} then 0
    else
      var k :| k in keys;
      entries[k].result.size + SizesOf(keys - {k}, entries)
  }

  lemma {:induction false} SizesWithout(keys: set<SimInput>, entries: map<SimInput, CacheEntry>, k: SimInput)
    requires keys <= entries.Keys && k in keys
    ensures SizesOf(keys, entries) == entries[k].result.size + SizesOf(keys - {k}, entries)
  {
    var l :| l in keys && SizesOf(keys, entries) == entries[l].result.size + SizesOf(keys - {l}, entries);
    if l != k {
      SizesWithout(keys - {l}, entries, k);
      SizesWithout(keys - {k}, entries, l);
      assert keys - {l} - {k} == keys - {k} - {l};
    }
  }

  lemma {:induction false} OrderSizes(order: seq<SimInput>, entries: map<SimInput, CacheEntry>)
    requires Distinct(order) && forall k :: k in order ==> k in entries && entries[k].size == entries[k].result.size
    ensures (set k | k in order) <= entries.Keys && OrderBytes(order, entries) == SizesOf((set k | k in order), entries)
  {
    var keys := set k | k in order;
    if order != [] {
      DistinctTail(order);
      OrderSizes(order[1..], entries);
      SizesWithout(keys, entries, order[0]);
      assert keys - {order[0]} == set k | k in order[1..];
    } else {
      assert keys == {};
    }
  }

  /** What is reserved by the runs below an id. */
  ghost function ReservedBelow(runs: map<nat, Run>, n: nat): nat {
    if n == 0 then 0 else ReservedBelow(runs, n - 1) + if n - 1 in runs then runs[n - 1].reservation else 0
  }

  lemma {:induction false} ReservedIs(runs: map<nat, Run>, n: nat)
    ensures Sum(runs, ReservationOf, n) == ReservedBelow(runs, n)
  {
    if n > 0 { ReservedIs(runs, n - 1); }
  }

  /** The memory in use is the sizes of all cached results and what the runs have reserved. */
  lemma UsedIs(s: Store, sim: Simulator)
    requires WellFormed(s.cache) && Agrees(s.cache, sim)
    ensures Used(s) == SizesOf(s.cache.entries.Keys, s.cache.entries) + ReservedBelow(s.runs, s.nextRun)
  {
    OrderSizes(s.cache.order, s.cache.entries);
    assert s.cache.entries.Keys == set k | k in s.cache.order;
    ReservedIs(s.runs, s.nextRun);
    hide SizesOf, OrderBytes, Sum;
  }
}
