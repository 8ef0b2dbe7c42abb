/** Registration, edits and comparisons keep the store's invariant. */
module StoreOperations {
  import opened Common
  import opened Sums
  import opened ResultCache
  import opened Workspaces
  import opened WorkspaceInvariant
  import opened Eviction
  import Jobs

  // ---------------------------------------------------------------------------------------------
  // Registration

  lemma {:induction false} MissingMembers(keys: seq<SimInput>, entries: map<SimInput, CacheEntry>, i: nat)
    requires i <= |keys|
    ensures forall m :: m in Missing(keys, entries, i) <==> i <= m < |keys| && keys[m] !in entries
    decreases |keys| - i
  {
    if i < |keys| { MissingMembers(keys, entries, i + 1); }
  }

  lemma {:induction false} MissingIncreases(keys: seq<SimInput>, entries: map<SimInput, CacheEntry>, i: nat)
    requires i <= |keys|
    ensures Increasing(Missing(keys, entries, i))
    decreases |keys| - i
  {
    if i < |keys| {
      MissingIncreases(keys, entries, i + 1);
      MissingMembers(keys, entries, i + 1);
      PrependIncreasing(i, Missing(keys, entries, i + 1));
      assert [] + Missing(keys, entries, i + 1) == Missing(keys, entries, i + 1);
    }
  }

  lemma PrependIncreasing(i: nat, rest: seq<nat>)
    requires Increasing(rest) && forall m :: m in rest ==> i < m
    ensures Increasing([i] + rest)
  {
    assert forall k :: 0 <= k < |rest| ==> rest[k] in rest;
  }

  lemma {:induction false} AllOpen(indices: seq<nat>, outcomes: seq<Summary>)
    requires forall k :: 0 <= k < |indices| ==> indices[k] < |outcomes| && outcomes[indices[k]].cursor == 0
    ensures OpenIndices(indices, outcomes) == |indices|
  {
    if indices != [] { AllOpen(indices[1..], outcomes); }
  }

  predicate DistinctScenarios(scenarios: seq<Scenario>) {
    forall i, j :: 0 <= i < j < |scenarios| ==> scenarios[i].id != scenarios[j].id
  }

  /** A new run is consistent, and its reservation covers every index it will send to the service. */
  lemma NewRunOk(cfg: Settings, taskSet: TaskSet, request: Request, scenarios: seq<Scenario>,
                 entries: map<SimInput, CacheEntry>, now: real)
    requires DistinctScenarios(scenarios)
    ensures var missing := Missing(Keys(taskSet, scenarios), entries, 0);
            RunOk(cfg, NewRun(taskSet, request, scenarios, missing, Reservation(cfg, |missing|), now))
  {
    var missing := Missing(Keys(taskSet, scenarios), entries, 0);
    MissingMembers(Keys(taskSet, scenarios), entries, 0);
    MissingIncreases(Keys(taskSet, scenarios), entries, 0);
    assert forall m :: 0 <= m < |missing| ==> missing[m] in missing;
    hide Missing;
    FreshRunOk(cfg, taskSet, request, scenarios, missing, now);
  }

  lemma FreshRunOk(cfg: Settings, taskSet: TaskSet, request: Request, scenarios: seq<Scenario>, missing: seq<nat>,
                   now: real)
    requires DistinctScenarios(scenarios) && Increasing(missing)
    requires forall k :: 0 <= k < |missing| ==> missing[k] < |scenarios|
    ensures RunOk(cfg, NewRun(taskSet, request, scenarios, missing, Reservation(cfg, |missing|), now))
  {
    var run := NewRun(taskSet, request, scenarios, missing, Reservation(cfg, |missing|), now);
    AllOpen(missing, run.outcomes);
    assert RunShape(run);
    assert BudgetOk(cfg, run);
  }

  /** Adding an active run to a workspace that has none. */
  lemma AddRunInv(cfg: Settings, s: Store, w: nat, run: Run)
    requires StoreInv(cfg, s) && w in s.workspaces && s.nextRun !in s.runs
    requires RunOk(cfg, run) && Holds(run, s.cache.entries) && run.Active() && !run.pinned
    requires !AnyActive(s.workspaces[w].runs, s.runs) && HasTaskSet(s.workspaces[w], run.taskSet.id)
    requires |s.workspaces[w].runs| < cfg.maxRetainedRuns && ActiveRuns(s) < cfg.maxActiveRuns
    requires Used(s) + run.reservation <= cfg.maxResultBytes
    ensures StoreInv(cfg, AddRun(s, w, run))
  {
    hide RunOk, Holds, WorkspaceOk, Bytes;
    var s' := AddRun(s, w, run);
    assert WorkspacesOk(cfg, s') && Ownership(s') by {
      AddRunWorkspaces(cfg, s, w, run);
      AddRunOwnership(s, w, run);
    }
    assert RunsOk(cfg, s') by { hide WorkspacesOk, Ownership, CapacityOk; }
    hide RunsOk, WorkspacesOk, Ownership;
    SumSame(s.runs, s'.runs, ReservationOf, s.nextRun);
    SumSame(s.runs, s'.runs, ActiveOne, s.nextRun);
  }

  lemma AddRunOwnership(s: Store, w: nat, run: Run)
    requires Ownership(s) && w in s.workspaces && s.nextRun !in s.runs
    requires forall v, r :: v in s.workspaces && r in s.workspaces[v].runs ==> r in s.runs
    ensures Ownership(AddRun(s, w, run))
  {
    var s' := AddRun(s, w, run);
    forall r | r in s'.runs ensures Owned(s', r) {
      if r == s.nextRun {
        assert r in s'.workspaces[w].runs;
      } else {
        assert Owned(s, r);
        var v :| v in s.workspaces && r in s.workspaces[v].runs;
        assert r in s'.workspaces[v].runs;
      }
    }
  }

  lemma {:induction false} PinsAppend(ids: seq<nat>, r: nat, runs: map<nat, Run>)
    requires r in runs && !runs[r].pinned
    ensures Pins(ids + [r], runs) == Pins(ids, runs)
  {
    if ids == [] {
      assert ids + [r] == [r];
    } else {
      assert (ids + [r])[1..] == ids[1..] + [r];
      PinsAppend(ids[1..], r, runs);
    }
  }

  lemma AddRunWorkspaces(cfg: Settings, s: Store, w: nat, run: Run)
    requires WorkspacesOk(cfg, s) && w in s.workspaces && s.nextRun !in s.runs && !run.pinned
    requires !AnyActive(s.workspaces[w].runs, s.runs) && HasTaskSet(s.workspaces[w], run.taskSet.id)
    requires |s.workspaces[w].runs| < cfg.maxRetainedRuns
    ensures WorkspacesOk(cfg, AddRun(s, w, run))
    ensures forall v, r :: v in s.workspaces && r in s.workspaces[v].runs ==> r in s.runs
  {
    hide WorkspaceOk;
    var s' := AddRun(s, w, run);
    forall v | v in s.workspaces
      ensures WorkspaceOk(cfg, s'.workspaces[v], s'.runs)
      ensures forall r :: r in s.workspaces[v].runs ==> r in s.runs
    {
      RunsPresent(cfg, s.workspaces[v], s.runs);
      WorkspaceFrame(cfg, s.workspaces[v], s.runs, s'.runs);
      if v == w {
        AddRunWorkspace(cfg, s.workspaces[w], s.runs, s.nextRun, run);
      }
    }
    assert s'.workspaces.Keys == s.workspaces.Keys;
    assert |s'.workspaces.Keys| == |s'.workspaces| && |s.workspaces.Keys| == |s.workspaces|;
  }

  lemma AddRunWorkspace(cfg: Settings, ws: Workspace, runs: map<nat, Run>, id: nat, run: Run)
    requires WorkspaceOk(cfg, ws, runs[id := run]) && id !in runs && !run.pinned
    requires forall r :: r in ws.runs ==> r in runs
    requires !AnyActive(ws.runs, runs) && HasTaskSet(ws, run.taskSet.id) && |ws.runs| < cfg.maxRetainedRuns
    ensures WorkspaceOk(cfg, ws.(runs := ws.runs + [id],
                                 latest := if run.request.intent == Interactive then Some(id) else ws.latest),
                        runs[id := run])
  {
    var ws' := ws.(runs := ws.runs + [id],
                   latest := if run.request.intent == Interactive then Some(id) else ws.latest);
    PinsAppend(ws.runs, id, runs[id := run]);
    assert forall k :: HasTaskSet(ws, k) ==> HasTaskSet(ws', k);
    DistinctConcat(ws.runs, [id]);
    forall r | r in ws.runs ensures !runs[r].Active() {
      var k :| 0 <= k < |ws.runs| && ws.runs[k] == r;
    }
  }

  lemma TrimsKeepIdle(s: Store, s': Store, w: nat)
    requires Trims(s, s') && w in s.workspaces && !AnyActive(s.workspaces[w].runs, s.runs)
    ensures !AnyActive(s'.workspaces[w].runs, s'.runs)
  {
    hide Used, ActiveRuns;
    var ids := s'.workspaces[w].runs;
    assert TrimsWorkspace(s.workspaces[w], s'.workspaces[w], s.runs);
    forall k | 0 <= k < |ids| && ids[k] in s'.runs ensures !s'.runs[ids[k]].Active() {
      assert ids[k] in s.workspaces[w].runs;
    }
  }

  lemma TrimsTaskSets(s: Store, s': Store, w: nat, id: nat)
    requires Trims(s, s') && w in s.workspaces && HasTaskSet(s.workspaces[w], id)
    ensures HasTaskSet(s'.workspaces[w], id)
  {
    hide Used, ActiveRuns;
    assert TrimsWorkspace(s.workspaces[w], s'.workspaces[w], s.runs);
  }

  /** Discarding runs does not make a workspace's list of runs longer. */
  lemma TrimsShorten(cfg: Settings, s: Store, s': Store, w: nat)
    requires WorkspacesOk(cfg, s) && WorkspacesOk(cfg, s') && Trims(s, s') && w in s.workspaces
    ensures |s'.workspaces[w].runs| <= |s.workspaces[w].runs|
  {
    hide Used, ActiveRuns;
    assert TrimsWorkspace(s.workspaces[w], s'.workspaces[w], s.runs);
    assert WorkspaceOk(cfg, s'.workspaces[w], s'.runs);
    DistinctShorter(s'.workspaces[w].runs, s.workspaces[w].runs);
  }

  /** The cached keys that registration counts as hits are still cached when the run is added. */
  lemma HitsRemain(keys: seq<SimInput>, before: Store, after: Store, run: Run)
    requires Protects(before, after, set k | k in keys)
    requires run.cacheKeys == keys && run.results == map[]
    requires run.serviceIndices == Missing(keys, before.cache.entries, 0)
    ensures Holds(run, after.cache.entries)
  {
    MissingMembers(keys, before.cache.entries, 0);
  }

  // ---------------------------------------------------------------------------------------------
  // What users' operations may do to runs

  predicate Untouched(run: Run) {
    && run.state == Submitting && run.jobId.None? && run.serviceCursor == 0
    && forall i :: 0 <= i < |run.outcomes| ==> run.outcomes[i].cursor == 0
  }

  /** At most one new run is added, active runs stay, and the runs that are left differ in their pins only. */
  ghost predicate LeavesRunsAlone(s: Store, s': Store) {
    && s.nextRun <= s'.nextRun
    && (forall r :: r in s'.runs ==>
          if r in s.runs then s'.runs[r] == s.runs[r].(pinned := s'.runs[r].pinned)
          else r == s.nextRun < s'.nextRun && Untouched(s'.runs[r]))
    && (forall r :: r in s.runs && s.runs[r].Active() ==> r in s'.runs)
    && (forall k :: k in s'.cache.entries ==> k in s.cache.entries && s'.cache.entries[k] == s.cache.entries[k])
  }

  lemma TrimsLeavesRuns(cfg: Settings, s: Store, s': Store)
    requires StoreInv(cfg, s) && StoreInv(cfg, s') && Trims(s, s')
    ensures LeavesRunsAlone(s, s')
  {
    hide StoreInv, Used, ActiveRuns, TrimsWorkspace;
    forall r | r in s.runs && s.runs[r].Active() ensures r in s'.runs {
      Unfold(cfg, s);
      Unfold(cfg, s');
      hide RunsOk, CapacityOk, WorkspacesOk;
      assert Owned(s, r);
      var w :| w in s.workspaces && r in s.workspaces[w].runs;
      ActiveStays(s, s', w, r);
      PresentIn(cfg, s', w);
    }
  }

  lemma ActiveStays(s: Store, s': Store, w: nat, r: nat)
    requires Trims(s, s') && w in s.workspaces && r in s.workspaces[w].runs && r in s.runs && s.runs[r].Active()
    ensures w in s'.workspaces && r in s'.workspaces[w].runs
  {
    hide Used, ActiveRuns;
    assert TrimsWorkspace(s.workspaces[w], s'.workspaces[w], s.runs);
  }

  lemma PresentIn(cfg: Settings, s: Store, w: nat)
    requires WorkspacesOk(cfg, s) && w in s.workspaces
    ensures forall r :: r in s.workspaces[w].runs ==> r in s.runs
  {
    hide WorkspaceOk;
    RunsPresent(cfg, s.workspaces[w], s.runs);
  }

  lemma AddRunLeavesRuns(s: Store, p: Store, w: nat, run: Run)
    requires LeavesRunsAlone(s, p) && p.nextRun == s.nextRun && w in p.workspaces && Untouched(run)
    requires p.nextRun !in p.runs && p.nextRun !in s.runs
    requires forall r :: r in p.runs ==> r in s.runs
    ensures LeavesRunsAlone(s, AddRun(p, w, run))
  {
  }

  /** What a reply to a registration says about the store. */
  ghost predicate Announces(s: Store, s': Store, reply: Result<Registered, AppError>) {
    if reply.Ok? && reply.value.created
    then reply.value.run == s.nextRun && s.nextRun in s'.runs && s'.nextRun == s.nextRun + 1
    else s'.nextRun == s.nextRun
  }

  /** A workspace's runs after one was added: the new one, and none that was not there before. */
  ghost predicate Lists(s: Store, s': Store, w: nat, request: Request) {
    && w in s.workspaces && w in s'.workspaces && s.nextRun in s'.workspaces[w].runs
    && s.nextRun in s'.runs && s'.runs[s.nextRun].request == request
    && (request.intent == Interactive ==> s'.workspaces[w].latest == Some(s.nextRun))
    && forall r :: r in s'.workspaces[w].runs && r != s.nextRun ==>
         r in s.workspaces[w].runs && (r in s'.runs ==> r in s.runs && s'.runs[r].request == s.runs[r].request)
  }

  /** Registration may refuse, return the earlier run of the same request, or add one new active run. */
  lemma RegisterInv(cfg: Settings, s: Store, w: nat, request: Request, scenarios: seq<Scenario>, taskSet: TaskSet,
                    now: real, inputFits: bool)
    requires StoreInv(cfg, s) && DistinctScenarios(scenarios)
    requires w in s.workspaces ==> HasTaskSet(s.workspaces[w], taskSet.id)
    ensures var (s', reply) := Register(cfg, s, w, request, scenarios, taskSet, now, inputFits);
            && StoreInv(cfg, s') && LeavesRunsAlone(s, s') && Announces(s, s', reply)
            && (reply.Ok? && reply.value.created ==> Lists(s, s', w, request))
  {
    hide StoreInv, Used, ActiveRuns, Trims, LeavesRunsAlone, DistinctScenarios, Lists;
    TrimsReflexive(s);
    TrimsLeavesRuns(cfg, s, s);
    if w in s.workspaces {
      var previous := FindRequest(s.workspaces[w].runs, s.runs, request.id);
      if !(previous.Some? && previous.value in s.runs) && Refusal(cfg, s, w, request, now).None? {
        AdmitInv(cfg, s, w, request, scenarios, taskSet, now, inputFits);
      }
    }
  }

  lemma AdmitInv(cfg: Settings, s: Store, w: nat, request: Request, scenarios: seq<Scenario>, taskSet: TaskSet,
                 now: real, inputFits: bool)
    requires StoreInv(cfg, s) && w in s.workspaces && DistinctScenarios(scenarios)
    requires HasTaskSet(s.workspaces[w], taskSet.id)
    requires !AnyActive(s.workspaces[w].runs, s.runs) && ActiveRuns(s) < cfg.maxActiveRuns
    ensures var (s', reply) := Admit(cfg, s, w, request, scenarios, taskSet, now, inputFits);
            && StoreInv(cfg, s') && LeavesRunsAlone(s, s') && Announces(s, s', reply)
            && (reply.Ok? ==> Lists(s, s', w, request))
  {
    hide Lists;
    hide StoreInv, Used, ActiveRuns, TrimsWorkspace, RoomFor, PruneHistory, AnyActive, HasTaskSet, Missing;
    hide RunsOk, WorkspacesOk, Ownership, CapacityOk, DistinctScenarios, NewRun, Keys, LeavesRunsAlone, AddRun;
    var h := PruneHistory(cfg, s, w, s.workspaces[w].runs);
    Unfold(cfg, s);
    DistinctRunsOf(cfg, s, w);
    PruneHistoryTrims(cfg, s, w, s.workspaces[w].runs);
    TrimsLeavesRuns(cfg, s, h);
    if |h.workspaces[w].runs| < cfg.maxRetainedRuns {
      var keys := Keys(taskSet, scenarios);
      MakingRoom(cfg, h, w, keys);
      var p := RoomFor(cfg, h, w, keys);
      Unfold(cfg, h);
      TrimsTransitive(cfg, s, h, p);
      TrimsLeavesRuns(cfg, s, p);
      if Used(p) + Reservation(cfg, |Missing(keys, h.cache.entries, 0)|) <= cfg.maxResultBytes && inputFits {
        AdmitRun(cfg, s, h, p, w, request, scenarios, taskSet, now);
      }
    }
  }

  /** Adding the run once there is room. */
  lemma AdmitRun(cfg: Settings, s: Store, h: Store, p: Store, w: nat, request: Request, scenarios: seq<Scenario>,
                 taskSet: TaskSet, now: real)
    requires StoreInv(cfg, s) && StoreInv(cfg, h) && StoreInv(cfg, p)
    requires Trims(s, p) && Trims(h, p) && LeavesRunsAlone(s, p)
    requires w in s.workspaces && w in h.workspaces && DistinctScenarios(scenarios)
    requires HasTaskSet(s.workspaces[w], taskSet.id)
    requires !AnyActive(s.workspaces[w].runs, s.runs) && ActiveRuns(s) < cfg.maxActiveRuns
    requires |h.workspaces[w].runs| < cfg.maxRetainedRuns
    requires Protects(h, p, set k | k in Keys(taskSet, scenarios))
    requires var missing := Missing(Keys(taskSet, scenarios), h.cache.entries, 0);
             Used(p) + Reservation(cfg, |missing|) <= cfg.maxResultBytes
    ensures var missing := Missing(Keys(taskSet, scenarios), h.cache.entries, 0);
            var run := NewRun(taskSet, request, scenarios, missing, Reservation(cfg, |missing|), now);
            && w in p.workspaces && StoreInv(cfg, AddRun(p, w, run)) && LeavesRunsAlone(s, AddRun(p, w, run))
            && p.nextRun == s.nextRun
            && AddRun(p, w, run).nextRun == s.nextRun + 1 && s.nextRun in AddRun(p, w, run).runs
            && Lists(s, AddRun(p, w, run), w, request)
  {
    hide StoreInv, Used, ActiveRuns, TrimsWorkspace, AnyActive, HasTaskSet, Missing;
    hide RunsOk, WorkspacesOk, Ownership, CapacityOk, Holds, DistinctScenarios, NewRun, Keys, LeavesRunsAlone, RunOk;
    hide Untouched, Lists;
    var keys := Keys(taskSet, scenarios);
    var missing := Missing(keys, h.cache.entries, 0);
    var run := NewRun(taskSet, request, scenarios, missing, Reservation(cfg, |missing|), now);
    Unfold(cfg, h);
    Unfold(cfg, p);
    Unfold(cfg, s);
    TrimsKeepIdle(s, p, w);
    TrimsTaskSets(s, p, w, taskSet.id);
    TrimsShorten(cfg, h, p, w);
    FreshId(cfg, p);
    FreshId(cfg, s);
    NewRunOk(cfg, taskSet, request, scenarios, h.cache.entries, now);
    NewRunFields(taskSet, request, scenarios, missing, Reservation(cfg, |missing|), now);
    HitsRemain(keys, h, p, run);
    AddRunInv(cfg, p, w, run);
    AddRunLeavesRuns(s, p, w, run);
    AddRunLists(s, p, w, request, run);
  }

  lemma AddRunLists(s: Store, p: Store, w: nat, request: Request, run: Run)
    requires Trims(s, p) && w in s.workspaces && run.request == request
    ensures w in p.workspaces && Lists(s, AddRun(p, w, run), w, request)
  {
    hide Used, ActiveRuns;
    assert TrimsWorkspace(s.workspaces[w], p.workspaces[w], s.runs);
  }

  lemma NewRunFields(taskSet: TaskSet, request: Request, scenarios: seq<Scenario>, missing: seq<nat>,
                     reservation: nat, now: real)
    ensures var run := NewRun(taskSet, request, scenarios, missing, reservation, now);
            && run.cacheKeys == Keys(taskSet, scenarios) && run.results == map[] && run.serviceIndices == missing
            && run.reservation == reservation && run.Active() && !run.pinned && run.taskSet == taskSet
            && run.request == request && Untouched(run)
  {
  }

  lemma DistinctRunsOf(cfg: Settings, s: Store, w: nat)
    requires WorkspacesOk(cfg, s) && w in s.workspaces
    ensures Distinct(s.workspaces[w].runs)
  {
    assert WorkspaceOk(cfg, s.workspaces[w], s.runs);
  }

  lemma FreshId(cfg: Settings, s: Store)
    requires RunsOk(cfg, s)
    ensures s.nextRun !in s.runs
  {
  }

  /** Registering the same request again returns the same run as long as it is kept, and changes nothing. */
  lemma {:induction false} SameRequestSameRun(ids: seq<nat>, runs: map<nat, Run>, id: nat)
    ensures FindRequest(ids, runs, id).Some? <==> exists r :: r in ids && r in runs && runs[r].request.id == id
    ensures FindRequest(ids, runs, id).Some? ==>
              FindRequest(ids, runs, id).value in ids && FindRequest(ids, runs, id).value in runs
              && runs[FindRequest(ids, runs, id).value].request.id == id
  {
    if ids != [] { SameRequestSameRun(ids[1..], runs, id); }
  }

  // ---------------------------------------------------------------------------------------------
  // Edits and comparisons

  lemma CreateInv(cfg: Settings, s: Store)
    requires StoreInv(cfg, s)
    ensures StoreInv(cfg, Create(cfg, s).0)
  {
    hide RunsOk, WorkspacesOk, CapacityOk, Ownership;
    if |s.workspaces| < cfg.maxWorkspaces {
      FreshWorkspace(cfg, s);
      SameRunsAndCache(cfg, s, Create(cfg, s).0);
      EmptyOwnership(s, s.nextWorkspace);
    }
  }

  lemma FreshWorkspace(cfg: Settings, s: Store)
    requires WorkspacesOk(cfg, s) && |s.workspaces| < cfg.maxWorkspaces
    ensures s.nextWorkspace !in s.workspaces && WorkspacesOk(cfg, Create(cfg, s).0)
  {
    hide WorkspaceOk;
    var s' := Create(cfg, s).0;
    assert s'.workspaces.Keys == s.workspaces.Keys + {s.nextWorkspace};
    assert |s'.workspaces.Keys| == |s'.workspaces| && |s.workspaces.Keys| == |s.workspaces|;
    EmptyWorkspaceOk(cfg, s.runs);
  }

  lemma EmptyOwnership(s: Store, w: nat)
    requires Ownership(s) && w !in s.workspaces
    ensures Ownership(s.(workspaces := s.workspaces[w := Workspace(0, [], None, None, None, [])],
                         nextWorkspace := s.nextWorkspace + 1))
  {
    var s' := s.(workspaces := s.workspaces[w := Workspace(0, [], None, None, None, [])],
                 nextWorkspace := s.nextWorkspace + 1);
    forall r | r in s'.runs ensures Owned(s', r) {
      assert Owned(s, r);
      var v :| v in s.workspaces && r in s.workspaces[v].runs;
      assert r in s'.workspaces[v].runs;
    }
  }

  lemma SameRunsAndCache(cfg: Settings, s: Store, s': Store)
    requires RunsOk(cfg, s) && CapacityOk(cfg, s)
    requires s'.runs == s.runs && s'.cache == s.cache && s'.nextRun == s.nextRun
    ensures RunsOk(cfg, s') && CapacityOk(cfg, s')
  {
    hide RunOk, Holds;
  }

  lemma EmptyWorkspaceOk(cfg: Settings, runs: map<nat, Run>)
    ensures WorkspaceOk(cfg, Workspace(0, [], None, None, None, []), runs)
  {
  }

  lemma {:induction false} RemoveTaskSetKeeps(ts: seq<TaskSet>, id: nat)
    ensures |RemoveTaskSet(ts, id)| <= |ts|
    ensures forall t :: t in RemoveTaskSet(ts, id) <==> t in ts && t.id != id
  {
    if ts != [] { RemoveTaskSetKeeps(ts[1..], id); }
  }

  lemma HasTaskSetMember(w: Workspace, t: TaskSet)
    requires t in w.taskSets
    ensures HasTaskSet(w, t.id)
  {
    var k :| 0 <= k < |w.taskSets| && w.taskSets[k] == t;
  }

  lemma DeleteTaskSetInv(cfg: Settings, s: Store, w: nat, id: nat, revision: nat)
    requires StoreInv(cfg, s)
    ensures StoreInv(cfg, DeleteTaskSet(s, w, id, revision).0)
  {
    hide StoreInv, WorkspaceOk;
    if DeleteTaskSet(s, w, id, revision).1.Ok? {
      var ws := s.workspaces[w];
      WorkspaceAt(cfg, s, w);
      WithoutTaskSetOk(cfg, ws, s.runs, id);
      SetWorkspaceInv(cfg, s, w, ws.(taskSets := RemoveTaskSet(ws.taskSets, id), revision := ws.revision + 1));
    }
  }

  lemma WithoutTaskSetOk(cfg: Settings, ws: Workspace, runs: map<nat, Run>, id: nat)
    requires WorkspaceOk(cfg, ws, runs) && ws.current != Some(id) && !UsedByRuns(ws.runs, runs, id)
    ensures WorkspaceOk(cfg, ws.(taskSets := RemoveTaskSet(ws.taskSets, id), revision := ws.revision + 1), runs)
  {
    var ws' := ws.(taskSets := RemoveTaskSet(ws.taskSets, id), revision := ws.revision + 1);
    RemoveTaskSetKeeps(ws.taskSets, id);
    forall k: nat | HasTaskSet(ws, k) && k != id ensures HasTaskSet(ws', k) {
      var j :| 0 <= j < |ws.taskSets| && ws.taskSets[j].id == k;
      HasTaskSetMember(ws', ws.taskSets[j]);
    }
    forall r | r in ws.runs ensures runs[r].taskSet.id != id {
      var k :| 0 <= k < |ws.runs| && ws.runs[k] == r;
    }
  }

  lemma {:induction false} FindSpecFinds(ts: seq<TaskSet>, spec: Spec)
    ensures FindSpec(ts, spec).Some? ==> FindSpec(ts, spec).value in ts && FindSpec(ts, spec).value.spec == spec
    ensures FindSpec(ts, spec).None? ==> forall t :: t in ts ==> t.spec != spec
  {
    if ts != [] { FindSpecFinds(ts[1..], spec); }
  }

  lemma SaveEditorInv(cfg: Settings, s: Store, w: nat, revision: nat, valid: bool, made: TaskSet, inputFits: bool)
    requires StoreInv(cfg, s)
    ensures StoreInv(cfg, SaveEditor(cfg, s, w, revision, valid, made, inputFits).0)
  {
    hide StoreInv, WorkspaceOk;
    var (s', r) := SaveEditor(cfg, s, w, revision, valid, made, inputFits);
    if r.Ok? {
      var ws, ws' := s.workspaces[w], s'.workspaces[w];
      WorkspaceAt(cfg, s, w);
      FindSpecFinds(ws.taskSets, made.spec);
      SavedWorkspaceOk(cfg, ws, ws', s.runs, FindSpec(ws.taskSets, made.spec), made);
      SetWorkspaceInv(cfg, s, w, ws');
    }
  }

  lemma SavedWorkspaceOk(cfg: Settings, ws: Workspace, ws': Workspace, runs: map<nat, Run>, found: Option<TaskSet>,
                         made: TaskSet)
    requires WorkspaceOk(cfg, ws, runs)
    requires found.Some? ==> found.value in ws.taskSets
    requires found.None? ==> |ws.taskSets| < cfg.maxTaskSets
    requires var taskSet := if found.Some? then found.value else made;
             var moved := ws.current != Some(taskSet.id);
             && ws'.taskSets == (if HasTaskSet(ws, taskSet.id) then ws.taskSets else ws.taskSets + [taskSet])
             && ws'.current == Some(taskSet.id) && ws'.runs == ws.runs
             && ws'.baseline == (if moved then None else ws.baseline)
             && ws'.latest == (if moved then None else ws.latest)
    ensures WorkspaceOk(cfg, ws', runs)
  {
    var taskSet := if found.Some? then found.value else made;
    if found.Some? { HasTaskSetMember(ws, taskSet); }
    if !HasTaskSet(ws, taskSet.id) {
      assert ws'.taskSets[|ws.taskSets|] == taskSet;
      forall k: nat | HasTaskSet(ws, k) ensures HasTaskSet(ws', k) {
        var j :| 0 <= j < |ws.taskSets| && ws.taskSets[j].id == k;
        assert ws'.taskSets[j].id == k;
      }
    }
  }

  /** Setting a run's pin within the limit. */
  lemma SetPinInv(cfg: Settings, s: Store, w: nat, r: nat, pinned: bool)
    requires StoreInv(cfg, s) && w in s.workspaces && r in s.workspaces[w].runs && r in s.runs
    requires pinned && !s.runs[r].pinned ==> Pins(s.workspaces[w].runs, s.runs) < cfg.maxPins
    ensures StoreInv(cfg, s.(runs := s.runs[r := s.runs[r].(pinned := pinned)]))
  {
    hide RunsOk, WorkspacesOk, Ownership, CapacityOk;
    var s' := s.(runs := s.runs[r := s.runs[r].(pinned := pinned)]);
    SetPinRuns(cfg, s, r, pinned);
    SameOwners(s, s');
    SetPinWorkspaces(cfg, s, w, r, pinned);
  }

  lemma SetPinRuns(cfg: Settings, s: Store, r: nat, pinned: bool)
    requires RunsOk(cfg, s) && CapacityOk(cfg, s) && r in s.runs
    ensures var s' := s.(runs := s.runs[r := s.runs[r].(pinned := pinned)]); RunsOk(cfg, s') && CapacityOk(cfg, s')
  {
    hide RunOk, Holds, Bytes;
    var s' := s.(runs := s.runs[r := s.runs[r].(pinned := pinned)]);
    assert RunOk(cfg, s.runs[r]) && Holds(s.runs[r], s.cache.entries);
    SameRunOk(cfg, s.runs[r], s.runs[r].(pinned := pinned), s.cache.entries);
    SumSame(s.runs, s'.runs, ReservationOf, s.nextRun);
    SumSame(s.runs, s'.runs, ActiveOne, s.nextRun);
  }

  lemma SameRunOk(cfg: Settings, run: Run, run': Run, entries: map<SimInput, CacheEntry>)
    requires RunOk(cfg, run) && Holds(run, entries)
    requires run' == run.(pinned := run'.pinned)
    ensures RunOk(cfg, run') && Holds(run', entries)
  {
  }

  lemma {:induction false} PinsOneMore(ids: seq<nat>, runs: map<nat, Run>, r: nat, run: Run)
    requires Distinct(ids) && r in runs
    ensures Pins(ids, runs[r := run]) <= Pins(ids, runs) + (if run.pinned && !runs[r].pinned then 1 else 0)
  {
    if ids != [] {
      DistinctTail(ids);
      if ids[0] == r {
        PinsFrame(ids[1..], runs, runs[r := run]);
      } else {
        PinsOneMore(ids[1..], runs, r, run);
      }
    }
  }

  lemma SetPinWorkspaces(cfg: Settings, s: Store, w: nat, r: nat, pinned: bool)
    requires WorkspacesOk(cfg, s) && Ownership(s) && w in s.workspaces && r in s.workspaces[w].runs && r in s.runs
    requires pinned && !s.runs[r].pinned ==> Pins(s.workspaces[w].runs, s.runs) < cfg.maxPins
    ensures WorkspacesOk(cfg, s.(runs := s.runs[r := s.runs[r].(pinned := pinned)]))
  {
    hide WorkspaceOk;
    var run := s.runs[r].(pinned := pinned);
    forall v | v in s.workspaces ensures WorkspaceOk(cfg, s.workspaces[v], s.runs[r := run]) {
      RunsPresent(cfg, s.workspaces[v], s.runs);
      if v == w {
        SetPinWorkspace(cfg, s.workspaces[w], s.runs, r, pinned);
      } else {
        WorkspaceFrame(cfg, s.workspaces[v], s.runs, s.runs[r := run]);
      }
    }
  }

  lemma SetPinWorkspace(cfg: Settings, ws: Workspace, runs: map<nat, Run>, r: nat, pinned: bool)
    requires WorkspaceOk(cfg, ws, runs) && r in ws.runs && r in runs
    requires pinned && !runs[r].pinned ==> Pins(ws.runs, runs) < cfg.maxPins
    ensures WorkspaceOk(cfg, ws, runs[r := runs[r].(pinned := pinned)])
  {
    PinsOneMore(ws.runs, runs, r, runs[r].(pinned := pinned));
  }

  lemma CompareInv(cfg: Settings, s: Store, w: nat, r: nat, action: Action)
    requires StoreInv(cfg, s)
    ensures StoreInv(cfg, Compare(cfg, s, w, r, action).0)
  {
    hide StoreInv, Used, ActiveRuns, PruneCache;
    if Compare(cfg, s, w, r, action).1.Ok? {
      match action {
        case Pin => SetPinInv(cfg, s, w, r, true);
        case Unpin => SetPinInv(cfg, s, w, r, false);
        case Baseline =>
          BaselineWorkspaceOk(cfg, s, w, r);
          SetWorkspaceInv(cfg, s, w, Compare(cfg, s, w, r, Baseline).0.workspaces[w]);
        case Delete => DeleteRunInv(cfg, s, w, r);
      }
    }
  }

  lemma BaselineWorkspaceOk(cfg: Settings, s: Store, w: nat, r: nat)
    requires StoreInv(cfg, s) && w in s.workspaces && r in s.workspaces[w].runs && r in s.runs
    ensures var ws, id := s.workspaces[w], s.runs[r].taskSet.id;
            var stale := ws.latest.Some? && ws.latest.value in s.runs && s.runs[ws.latest.value].taskSet.id != id;
            WorkspaceOk(cfg, ws.(baseline := Some(r), current := Some(id), revision := ws.revision + 1,
                                 latest := if stale then None else ws.latest), s.runs)
  {
    hide StoreInv;
    WorkspaceAt(cfg, s, w);
    RelabelOk(cfg, s.workspaces[w], s.runs, Some(r), s.workspaces[w].latest, Some(s.runs[r].taskSet.id));
    RelabelOk(cfg, s.workspaces[w], s.runs, Some(r), None, Some(s.runs[r].taskSet.id));
  }

  /** Moving the baseline, the latest run and the current task set consistently. */
  lemma RelabelOk(cfg: Settings, ws: Workspace, runs: map<nat, Run>, baseline: Option<nat>, latest: Option<nat>,
                  current: Option<nat>)
    requires WorkspaceOk(cfg, ws, runs)
    requires baseline.Some? ==> baseline.value in ws.runs && current == Some(runs[baseline.value].taskSet.id)
    requires latest.Some? ==> latest.value in ws.runs
    requires current.Some? ==> HasTaskSet(ws, current.value)
    ensures forall revision :: WorkspaceOk(cfg,
              Workspace(revision, ws.taskSets, current, baseline, latest, ws.runs), runs)
  {
    forall revision
      ensures WorkspaceOk(cfg, Workspace(revision, ws.taskSets, current, baseline, latest, ws.runs), runs)
    {
      var ws' := Workspace(revision, ws.taskSets, current, baseline, latest, ws.runs);
      assert forall k :: HasTaskSet(ws, k) ==> HasTaskSet(ws', k);
    }
  }

  /** Deleting a run is clearing the workspace's references to it, then removing it, then pruning. */
  lemma DeleteRunInv(cfg: Settings, s: Store, w: nat, r: nat)
    requires StoreInv(cfg, s) && Compare(cfg, s, w, r, Delete).1.Ok?
    ensures StoreInv(cfg, Compare(cfg, s, w, r, Delete).0)
  {
    hide StoreInv, Used, ActiveRuns, WorkspaceOk, PruneCache;
    DeletionInv(cfg, s, w, r);
    PruneCacheInv(cfg, AfterDeletion(s, w, r), 0, {});
  }

  lemma ClearedWorkspaceOk(cfg: Settings, s: Store, w: nat, r: nat)
    requires StoreInv(cfg, s) && w in s.workspaces
    ensures var ws := s.workspaces[w];
            WorkspaceOk(cfg, ws.(baseline := if ws.baseline == Some(r) then None else ws.baseline,
                                 latest := if ws.latest == Some(r) then None else ws.latest), s.runs)
  {
    hide StoreInv;
    var ws := s.workspaces[w];
    WorkspaceAt(cfg, s, w);
    RelabelOk(cfg, ws, s.runs, if ws.baseline == Some(r) then None else ws.baseline,
              if ws.latest == Some(r) then None else ws.latest, ws.current);
  }

  /** The store without a workspace and its runs. */
  function WithoutWorkspace(s: Store, w: nat): Store
    requires w in s.workspaces
  {
    s.(workspaces := s.workspaces - {w}, runs := s.runs - AsSet(s.workspaces[w].runs))
  }

  /**
   * Deleting a workspace takes its runs with it, no run of another workspace, and exactly those cached results that
   * no remaining run names or still counts on.
   */
  lemma DeleteWorkspaceInv(cfg: Settings, s: Store, w: nat)
    requires StoreInv(cfg, s)
    ensures StoreInv(cfg, DeleteWorkspace(cfg, s, w).0)
    ensures var (s', reply) := DeleteWorkspace(cfg, s, w);
            && (reply.Err? ==> s' == s)
            && (reply.Ok? ==>
                  && w in s.workspaces && s'.workspaces == s.workspaces - {w}
                  && (forall r :: r in s'.runs <==> r in s.runs && r !in s.workspaces[w].runs)
                  && (forall r :: r in s'.runs ==> s'.runs[r] == s.runs[r])
                  && (forall r :: r in s.runs && r in s.workspaces[w].runs ==> s.runs[r].state.Terminal())
                  && (forall v, r :: v in s'.workspaces && r in s'.workspaces[v].runs ==> r in s'.runs)
                  && forall k :: k in s'.cache.entries <==> k in s.cache.entries && k in KeptKeys(s'.runs))
  {
    hide StoreInv, PruneCache, KeptKeys;
    if DeleteWorkspace(cfg, s, w).1.Ok? {
      var gone := WithoutWorkspace(s, w);
      DropWorkspaceInv(cfg, s, w);
      PruneCacheInv(cfg, gone, 0, {});
      PurgeKeeps(cfg, gone);
      assert DeleteWorkspace(cfg, s, w).0 == PruneCache(cfg, gone, 0, {});
      RunsOfOthers(cfg, PruneCache(cfg, gone, 0, {}));
      forall r | r in s.runs && r in s.workspaces[w].runs ensures s.runs[r].state.Terminal() {
        var k :| 0 <= k < |s.workspaces[w].runs| && s.workspaces[w].runs[k] == r;
      }
    }
  }

  lemma RunsOfOthers(cfg: Settings, s: Store)
    requires StoreInv(cfg, s)
    ensures forall v, r :: v in s.workspaces && r in s.workspaces[v].runs ==> r in s.runs
  {
    hide RunsOk, CapacityOk, Ownership;
    forall v | v in s.workspaces ensures forall r :: r in s.workspaces[v].runs ==> r in s.runs {
      assert WorkspaceOk(cfg, s.workspaces[v], s.runs);
    }
  }

  /** A requirement of zero leaves exactly the results that are named or awaited. */
  lemma PurgeKeeps(cfg: Settings, s: Store)
    requires StoreInv(cfg, s)
    ensures var p := PruneCache(cfg, s, 0, {});
            && p == s.(cache := p.cache)
            && forall k :: k in p.cache.entries <==> k in s.cache.entries && k in KeptKeys(s.runs)
  {
    hide StoreInv, Pruned, KeptKeys, Bytes, Sum;
    assert WellFormed(s.cache) by { Unfold(cfg, s); }
    PruningIsMinimalPrefix(s.cache, 0, KeptKeys(s.runs) + {}, Reserved(s), cfg.maxResultBytes);
  }

  lemma DropCapacity(cfg: Settings, s: Store, w: nat)
    requires RunsOk(cfg, s) && CapacityOk(cfg, s) && w in s.workspaces
    ensures var s' := s.(workspaces := s.workspaces - {w}, runs := s.runs - AsSet(s.workspaces[w].runs));
            RunsOk(cfg, s') && CapacityOk(cfg, s')
  {
    hide RunOk, Holds, Bytes;
    var runs := s.runs - AsSet(s.workspaces[w].runs);
    SumLe(runs, s.runs, ReservationOf, s.nextRun);
    SumLe(runs, s.runs, ActiveOne, s.nextRun);
  }

  lemma DropWorkspaces(cfg: Settings, s: Store, w: nat)
    requires WorkspacesOk(cfg, s) && Ownership(s) && w in s.workspaces
    ensures WorkspacesOk(cfg, s.(workspaces := s.workspaces - {w}, runs := s.runs - AsSet(s.workspaces[w].runs)))
  {
    hide WorkspaceOk;
    var runs := s.runs - AsSet(s.workspaces[w].runs);
    var ws := s.workspaces - {w};
    forall v | v in ws ensures WorkspaceOk(cfg, ws[v], runs) {
      RunsPresent(cfg, s.workspaces[v], s.runs);
      WorkspaceFrame(cfg, s.workspaces[v], s.runs, runs);
    }
    assert ws.Keys == s.workspaces.Keys - {w};
    assert |ws.Keys| == |ws| && |s.workspaces.Keys| == |s.workspaces|;
  }

  lemma DropOwnership(s: Store, w: nat)
    requires Ownership(s) && w in s.workspaces
    ensures Ownership(s.(workspaces := s.workspaces - {w}, runs := s.runs - AsSet(s.workspaces[w].runs)))
  {
    var s' := s.(workspaces := s.workspaces - {w}, runs := s.runs - AsSet(s.workspaces[w].runs));
    forall r | r in s'.runs ensures Owned(s', r) {
      assert Owned(s, r);
      var v :| v in s.workspaces && r in s.workspaces[v].runs;
      assert r in s'.workspaces[v].runs;
    }
  }

  lemma DropWorkspaceInv(cfg: Settings, s: Store, w: nat)
    requires StoreInv(cfg, s) && w in s.workspaces
    ensures StoreInv(cfg, WithoutWorkspace(s, w))
  {
    hide RunsOk, WorkspacesOk, Ownership, CapacityOk;
    DropWorkspaces(cfg, s, w);
    DropOwnership(s, w);
    DropCapacity(cfg, s, w);
  }

  function AfterDeletion(s: Store, w: nat, r: nat): Store
    requires w in s.workspaces
  {
    var ws, gone := s.workspaces[w], RemoveRun(s, w, r);
    gone.(workspaces := gone.workspaces[w := gone.workspaces[w].(
      baseline := if ws.baseline == Some(r) then None else ws.baseline,
      latest := if ws.latest == Some(r) then None else ws.latest)])
  }

  lemma DeletionInv(cfg: Settings, s: Store, w: nat, r: nat)
    requires StoreInv(cfg, s) && w in s.workspaces && r in s.workspaces[w].runs && r in s.runs
    ensures StoreInv(cfg, AfterDeletion(s, w, r))
  {
    hide StoreInv, WorkspaceOk;
    var ws := s.workspaces[w];
    var cleared := ws.(baseline := if ws.baseline == Some(r) then None else ws.baseline,
                       latest := if ws.latest == Some(r) then None else ws.latest);
    ClearedWorkspaceOk(cfg, s, w, r);
    SetWorkspaceInv(cfg, s, w, cleared);
    var c := s.(workspaces := s.workspaces[w := cleared]);
    RemoveRunInv(cfg, c, w, r);
    assert RemoveRun(c, w, r) == AfterDeletion(s, w, r);
  }
}
