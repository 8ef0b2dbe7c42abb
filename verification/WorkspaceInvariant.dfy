/** What every state of the application's store satisfies, and the changes that keep it so. */
module WorkspaceInvariant {
  import opened Common
  import opened Sums
  import opened ResultCache
  import opened Workspaces
  import Jobs

  // ---------------------------------------------------------------------------------------------
  // One run

  ghost predicate Increasing(s: seq<nat>) {
    forall i, j :: 0 <= i < j < |s| ==> s[i] < s[j]
  }

  ghost predicate RunShape(run: Run) {
    && |run.cacheKeys| == |run.outcomes|
    && (forall i :: 0 <= i < |run.outcomes| ==> run.cacheKeys[i] == KeyOf(run.taskSet, run.outcomes[i].scenario))
    && (forall i, j :: 0 <= i < j < |run.outcomes| ==> run.outcomes[i].scenario.id != run.outcomes[j].scenario.id)
    && Increasing(run.serviceIndices)
    && (forall m :: 0 <= m < |run.serviceIndices| ==> run.serviceIndices[m] < |run.outcomes|)
  }

  ghost predicate HasCursor(outcomes: seq<Summary>, c: nat) {
    exists i :: 0 <= i < |outcomes| && outcomes[i].cursor == c
  }

  /** The nonzero cursors are exactly 1, 2, ..., lastCursor, each once; they mark the outcomes that ended. */
  ghost predicate CursorsOk(outcomes: seq<Summary>, last: nat) {
    && (forall i :: 0 <= i < |outcomes| ==>
          && outcomes[i].cursor <= last
          && (outcomes[i].cursor > 0 <==> outcomes[i].status.Terminal()))
    && (forall i, j :: 0 <= i < j < |outcomes| && outcomes[i].cursor > 0 ==> outcomes[i].cursor != outcomes[j].cursor)
    && (forall c :: 1 <= c <= last ==> HasCursor(outcomes, c))
  }

  ghost predicate SucceededAs(outcomes: seq<Summary>, i: int, scenario: nat) {
    0 <= i < |outcomes| && outcomes[i].scenario.id == scenario && outcomes[i].status == Jobs.Succeeded
  }

  /** There is a result for exactly the scenarios that succeeded, filed under the scenario's own input. */
  ghost predicate Filed(outcomes: seq<Summary>, keys: seq<SimInput>, results: map<nat, SimInput>)
    requires |keys| == |outcomes|
  {
    && (forall i :: 0 <= i < |outcomes| && outcomes[i].status == Jobs.Succeeded ==>
          outcomes[i].scenario.id in results && results[outcomes[i].scenario.id] == keys[i])
    && (forall id :: id in results ==> exists i :: SucceededAs(outcomes, i, id))
  }

  /** How many of the indices sent to the service have no outcome yet. */
  function OpenIndices(indices: seq<nat>, outcomes: seq<Summary>): nat {
    if indices == [] then 0
    else OpenIndices(indices[1..], outcomes)
         + (if indices[0] < |outcomes| && outcomes[indices[0]].cursor == 0 then 1 else 0)
  }

  /** What is left of the reservation covers whatever the open indices may still produce. */
  ghost predicate BudgetOk(cfg: Settings, run: Run) {
    && run.resultBytes <= cfg.maxRunBytes
    && (run.state.Terminal() ==> run.reservation == 0)
    && (run.Active() ==>
          run.reservation >= Min(cfg.maxRunBytes - run.resultBytes,
                                 cfg.maxModelBytes * OpenIndices(run.serviceIndices, run.outcomes)))
  }

  ghost predicate ClosedOk(run: Run) {
    run.state.Terminal() ==> forall i :: 0 <= i < |run.outcomes| ==> run.outcomes[i].cursor > 0
  }

  ghost predicate RunOk(cfg: Settings, run: Run) {
    RunShape(run) && CursorsOk(run.outcomes, run.lastCursor)
    && Filed(run.outcomes, run.cacheKeys, run.results) && BudgetOk(cfg, run) && ClosedOk(run)
  }

  /** Results named by a run, and the hits an active run still counts on, are cached. */
  ghost predicate Holds(run: Run, entries: map<SimInput, CacheEntry>) {
    && (forall id :: id in run.results ==> run.results[id] in entries)
    && (run.Active() ==>
          forall i :: 0 <= i < |run.cacheKeys| && i !in run.serviceIndices ==> run.cacheKeys[i] in entries)
  }

  // ---------------------------------------------------------------------------------------------
  // One workspace

  ghost predicate WorkspaceOk(cfg: Settings, w: Workspace, runs: map<nat, Run>) {
    && Distinct(w.runs)
    && (forall r :: r in w.runs ==> r in runs && HasTaskSet(w, runs[r].taskSet.id))
    && (w.current.Some? ==> HasTaskSet(w, w.current.value))
    && (w.baseline.Some? ==> w.baseline.value in w.runs && w.current == Some(runs[w.baseline.value].taskSet.id))
    && (w.latest.Some? ==> w.latest.value in w.runs)
    && |w.runs| <= cfg.maxRetainedRuns
    && |w.taskSets| <= cfg.maxTaskSets
    && Pins(w.runs, runs) <= cfg.maxPins
    && (forall q, r :: q in w.runs && r in w.runs && runs[q].Active() && runs[r].Active() ==> q == r)
  }

  ghost predicate Owned(s: Store, r: nat) {
    exists w :: w in s.workspaces && r in s.workspaces[w].runs
  }

  // ---------------------------------------------------------------------------------------------
  // The store

  ghost predicate RunsOk(cfg: Settings, s: Store) {
    forall r :: r in s.runs ==> r < s.nextRun && RunOk(cfg, s.runs[r]) && Holds(s.runs[r], s.cache.entries)
  }

  ghost predicate WorkspacesOk(cfg: Settings, s: Store) {
    && |s.workspaces| <= cfg.maxWorkspaces
    && (forall w :: w in s.workspaces ==> w < s.nextWorkspace && WorkspaceOk(cfg, s.workspaces[w], s.runs))
  }

  /** Every run belongs to exactly one workspace. */
  ghost predicate Ownership(s: Store) {
    && (forall r :: r in s.runs ==> Owned(s, r))
    && (forall v, w, r ::
          v in s.workspaces && w in s.workspaces && r in s.workspaces[v].runs && r in s.workspaces[w].runs ==> v == w)
  }

  ghost predicate CapacityOk(cfg: Settings, s: Store) {
    WellFormed(s.cache) && Used(s) <= cfg.maxResultBytes && ActiveRuns(s) <= cfg.maxActiveRuns
  }

  ghost predicate StoreInv(cfg: Settings, s: Store) {
    RunsOk(cfg, s) && WorkspacesOk(cfg, s) && Ownership(s) && CapacityOk(cfg, s)
  }

  // ---------------------------------------------------------------------------------------------
  // A workspace depends on its own runs only

  ghost predicate SameForWorkspace(a: Run, b: Run) {
    a.taskSet.id == b.taskSet.id && a.pinned == b.pinned && (b.Active() ==> a.Active())
  }

  lemma {:induction false} PinsFrame(ids: seq<nat>, runs: map<nat, Run>, runs': map<nat, Run>)
    requires forall r :: r in ids && r in runs' ==> r in runs && runs'[r].pinned == runs[r].pinned
    ensures Pins(ids, runs') <= Pins(ids, runs)
  {
    if ids != [] { PinsFrame(ids[1..], runs, runs'); }
  }

  lemma WorkspaceFrame(cfg: Settings, w: Workspace, runs: map<nat, Run>, runs': map<nat, Run>)
    requires WorkspaceOk(cfg, w, runs)
    requires forall r :: r in w.runs ==> r in runs' && SameForWorkspace(runs[r], runs'[r])
    ensures WorkspaceOk(cfg, w, runs')
  {
    PinsFrame(w.runs, runs, runs');
  }

  lemma {:induction false} PinsWithout(ids: seq<nat>, r: nat, runs: map<nat, Run>)
    ensures Pins(Without(ids, r), runs) <= Pins(ids, runs)
  {
    if ids != [] {
      PinsWithout(ids[1..], r, runs);
      if ids[0] != r { assert Without(ids, r)[1..] == Without(ids[1..], r); }
    }
  }

  lemma WorkspaceWithout(cfg: Settings, w: Workspace, r: nat, runs: map<nat, Run>)
    requires WorkspaceOk(cfg, w, runs) && w.baseline != Some(r) && w.latest != Some(r)
    ensures WorkspaceOk(cfg, w.(runs := Without(w.runs, r)), runs)
  {
    WithoutMembers(w.runs, r);
    WithoutDistinct(w.runs, r);
    PinsWithout(w.runs, r, runs);
    assert forall id :: HasTaskSet(w, id) ==> HasTaskSet(w.(runs := Without(w.runs, r)), id);
  }

  // ---------------------------------------------------------------------------------------------
  // Elementary changes

  /** Discarding a closed run that is neither baseline nor latest. */
  lemma RemoveRunInv(cfg: Settings, s: Store, w: nat, r: nat)
    requires StoreInv(cfg, s) && w in s.workspaces && r in s.workspaces[w].runs
    requires s.workspaces[w].baseline != Some(r) && s.workspaces[w].latest != Some(r)
    ensures StoreInv(cfg, RemoveRun(s, w, r))
  {
    hide RunOk, Holds, WorkspaceOk;
    RemoveRunWorkspaces(cfg, s, w, r);
    RemoveRunOwnership(cfg, s, w, r);
    RemoveRunCapacity(cfg, s, w, r);
  }

  lemma RemoveRunWorkspaces(cfg: Settings, s: Store, w: nat, r: nat)
    requires WorkspacesOk(cfg, s) && Ownership(s) && w in s.workspaces && r in s.workspaces[w].runs
    requires s.workspaces[w].baseline != Some(r) && s.workspaces[w].latest != Some(r)
    ensures WorkspacesOk(cfg, RemoveRun(s, w, r))
  {
    hide WorkspaceOk;
    var s' := RemoveRun(s, w, r);
    forall v | v in s'.workspaces ensures WorkspaceOk(cfg, s'.workspaces[v], s'.runs) {
      if v == w {
        WorkspaceWithout(cfg, s.workspaces[w], r, s.runs);
        WithoutMembers(s.workspaces[w].runs, r);
      }
      RunsPresent(cfg, s'.workspaces[v], s.runs);
      WorkspaceFrame(cfg, s'.workspaces[v], s.runs, s'.runs);
    }
    assert s'.workspaces.Keys == s.workspaces.Keys;
    assert |s'.workspaces.Keys| == |s'.workspaces| && |s.workspaces.Keys| == |s.workspaces|;
  }

  lemma WorkspaceAt(cfg: Settings, s: Store, w: nat)
    requires StoreInv(cfg, s) && w in s.workspaces
    ensures WorkspaceOk(cfg, s.workspaces[w], s.runs)
  {
    hide WorkspaceOk, RunsOk, Ownership, CapacityOk;
  }

  lemma RunsPresent(cfg: Settings, w: Workspace, runs: map<nat, Run>)
    requires WorkspaceOk(cfg, w, runs)
    ensures forall r :: r in w.runs ==> r in runs
  {
  }

  lemma RemoveRunOwnership(cfg: Settings, s: Store, w: nat, r: nat)
    requires Ownership(s) && w in s.workspaces && r in s.workspaces[w].runs
    ensures Ownership(RemoveRun(s, w, r))
  {
    var s' := RemoveRun(s, w, r);
    WithoutMembers(s.workspaces[w].runs, r);
    forall q | q in s'.runs ensures Owned(s', q) {
      assert Owned(s, q);
      var v :| v in s.workspaces && q in s.workspaces[v].runs;
      assert q in s'.workspaces[v].runs;
    }
  }

  lemma RemoveRunCapacity(cfg: Settings, s: Store, w: nat, r: nat)
    requires CapacityOk(cfg, s) && w in s.workspaces
    ensures CapacityOk(cfg, RemoveRun(s, w, r)) && Used(RemoveRun(s, w, r)) <= Used(s)
    ensures ActiveRuns(RemoveRun(s, w, r)) <= ActiveRuns(s)
  {
    var s' := RemoveRun(s, w, r);
    SumLe(s'.runs, s.runs, ReservationOf, s.nextRun);
    SumLe(s'.runs, s.runs, ActiveOne, s.nextRun);
  }

  /** Pruning the cache keeps every key a run names or still counts on. */
  lemma PruneCacheInv(cfg: Settings, s: Store, required: nat, protect: set<SimInput>)
    requires StoreInv(cfg, s)
    ensures StoreInv(cfg, PruneCache(cfg, s, required, protect))
  {
    hide RunOk, WorkspaceOk, Pruned, Bytes, KeptKeys;
    var s' := PruneCache(cfg, s, required, protect);
    CacheShrinks(cfg, s, required, protect);
    forall r | r in s.runs ensures Holds(s.runs[r], s'.cache.entries) {
      HeldKeysKept(s, r);
    }
    assert Ownership(s') by { SameOwners(s, s'); }
  }

  lemma CacheShrinks(cfg: Settings, s: Store, required: nat, protect: set<SimInput>)
    requires WellFormed(s.cache)
    ensures var c' := PruneCache(cfg, s, required, protect).cache;
            && WellFormed(c') && Bytes(c') <= Bytes(s.cache)
            && (forall k :: k in c'.entries ==> k in s.cache.entries && c'.entries[k] == s.cache.entries[k])
            && (forall k :: k in s.cache.entries && (k in KeptKeys(s.runs) || k in protect) ==> k in c'.entries)
  {
    hide KeptKeys, Bytes;
    PruneKeysShrinks(s.cache, s.cache.order, required, KeptKeys(s.runs) + protect, Reserved(s), cfg.maxResultBytes);
  }

  lemma HeldKeysKept(s: Store, r: nat)
    requires r in s.runs
    ensures forall id :: id in s.runs[r].results ==> s.runs[r].results[id] in KeptKeys(s.runs)
    ensures s.runs[r].Active() ==>
              forall i :: 0 <= i < |s.runs[r].cacheKeys| ==> s.runs[r].cacheKeys[i] in KeptKeys(s.runs)
  {
    var run := s.runs[r];
    forall id | id in run.results ensures run.results[id] in KeptKeys(s.runs) {
      assert run.results[id] in KeptBy(run);
    }
    if run.Active() {
      forall i | 0 <= i < |run.cacheKeys| ensures run.cacheKeys[i] in KeptKeys(s.runs) {
        assert run.cacheKeys[i] in KeptBy(run);
      }
    }
  }

  /** A run names a result, or is active and still counts on it. */
  ghost predicate NeededBy(run: Run, k: SimInput) {
    (exists id :: id in run.results && run.results[id] == k) || (!run.state.Terminal() && k in run.cacheKeys)
  }

  ghost predicate Needed(runs: map<nat, Run>, k: SimInput) {
    exists r :: r in runs && NeededBy(runs[r], k)
  }

  /** The keys no pruning touches are those that are needed, and no other. */
  lemma KeptIsNeeded(runs: map<nat, Run>)
    ensures forall k :: k in KeptKeys(runs) <==> Needed(runs, k)
  {
    forall k ensures k in KeptKeys(runs) <==> Needed(runs, k) {
      forall r | r in runs ensures k in KeptBy(runs[r]) <==> NeededBy(runs[r], k) {
      }
    }
  }

  lemma SameOwners(s: Store, s': Store)
    requires Ownership(s) && s'.workspaces == s.workspaces && s'.runs.Keys <= s.runs.Keys
    ensures Ownership(s')
  {
    forall r | r in s'.runs ensures Owned(s', r) {
      assert Owned(s, r);
      var w :| w in s.workspaces && r in s.workspaces[w].runs;
      assert r in s'.workspaces[w].runs;
    }
  }

  /** Changing a workspace's own fields, runs untouched. */
  lemma SetWorkspaceInv(cfg: Settings, s: Store, w: nat, ws: Workspace)
    requires StoreInv(cfg, s) && w in s.workspaces && ws.runs == s.workspaces[w].runs
    requires WorkspaceOk(cfg, ws, s.runs)
    ensures StoreInv(cfg, s.(workspaces := s.workspaces[w := ws]))
  {
    hide RunOk, Holds, WorkspaceOk, Bytes;
    var s' := s.(workspaces := s.workspaces[w := ws]);
    assert s'.workspaces.Keys == s.workspaces.Keys;
    assert |s'.workspaces.Keys| == |s'.workspaces| && |s.workspaces.Keys| == |s.workspaces|;
    forall r | r in s'.runs ensures Owned(s', r) {
      assert Owned(s, r);
      var v :| v in s.workspaces && r in s.workspaces[v].runs;
      assert r in s'.workspaces[v].runs;
    }
  }

  /** Changing one run and growing or touching the cache within the budget. */
  lemma SetRunInv(cfg: Settings, s: Store, r: nat, run: Run, cache: Cache)
    requires StoreInv(cfg, s) && r in s.runs
    requires RunOk(cfg, run) && Holds(run, cache.entries) && SameForWorkspace(s.runs[r], run)
    requires WellFormed(cache) && (forall k :: k in s.cache.entries ==> k in cache.entries)
    requires Bytes(cache) + run.reservation <= Bytes(s.cache) + s.runs[r].reservation
    ensures StoreInv(cfg, s.(runs := s.runs[r := run], cache := cache))
  {
    hide RunOk, WorkspaceOk, Bytes;
    var s' := s.(runs := s.runs[r := run], cache := cache);
    assert RunsOk(cfg, s') by { RunsOkAfter(cfg, s, r, run, cache); }
    assert Ownership(s') by { SameOwners(s, s'); }
    assert WorkspacesOk(cfg, s') by { WorkspacesOkAfter(cfg, s, r, run, cache); }
    hide Holds, RunsOk, WorkspacesOk, Ownership;
    SumChange(s.runs, s'.runs, ReservationOf, s.nextRun, r);
    SumChange(s.runs, s'.runs, ActiveOne, s.nextRun, r);
  }

  lemma RunsOkAfter(cfg: Settings, s: Store, r: nat, run: Run, cache: Cache)
    requires RunsOk(cfg, s) && r in s.runs && RunOk(cfg, run) && Holds(run, cache.entries)
    requires forall k :: k in s.cache.entries ==> k in cache.entries
    ensures RunsOk(cfg, s.(runs := s.runs[r := run], cache := cache))
  {
    hide RunOk;
  }

  lemma WorkspacesOkAfter(cfg: Settings, s: Store, r: nat, run: Run, cache: Cache)
    requires WorkspacesOk(cfg, s) && r in s.runs && SameForWorkspace(s.runs[r], run)
    ensures WorkspacesOk(cfg, s.(runs := s.runs[r := run], cache := cache))
  {
    hide WorkspaceOk;
    var runs := s.runs[r := run];
    forall w | w in s.workspaces ensures WorkspaceOk(cfg, s.workspaces[w], runs) {
      RunsPresent(cfg, s.workspaces[w], s.runs);
      WorkspaceFrame(cfg, s.workspaces[w], s.runs, runs);
    }
  }
}
