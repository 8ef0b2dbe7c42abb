/** Users' operations keep the system's invariant, whatever the executors and the service are doing. */
module ProtocolUsers {
  import opened Common
  import opened Jobs
  import opened JobTable
  import opened ServiceHistory
  import opened ExecuteSteps
  import opened RunSteps
  import opened ResultCache
  import opened WorkspaceInvariant
  import opened StoreOperations
  import opened Protocol
  import opened ProtocolInvariant
  import opened ProtocolSteps
  import opened ProtocolClosing
  import Eviction
  import W = Workspaces

  // ---------------------------------------------------------------------------------------------
  // Runs across a user's operation

  lemma PinnedLinked(a: W.Run, e: Exec, b: W.Run, sv: Service, request: JobRequest, sim: Simulator)
    requires Linked(a, e, sv, request, sim) && b == a.(pinned := b.pinned)
    ensures Linked(b, e, sv, request, sim) && RunAdvances(a, b)
  {
    RequestSame(a, b);
    SameJobLink(a, b, Failing(a, e), Failing(b, e), sv, request);
    SameOutcomes(a, b);
    if e.GotPage? { SamePage(a, b, e.seen, e.page, sv, sim); }
    hide JobLink, HitsSucceeded, HitsDone, RequestOf, PageOk, SameProgress;
  }

  /** A run registered a moment ago is linked to the submission it is about to make. */
  lemma NewLinked(run: W.Run, sv: Service, sim: Simulator)
    requires Untouched(run) && RunShape(run)
    ensures Linked(run, AtHits, sv, RequestOf(run), sim)
  {
    hide RequestOf;
    assert NothingYet(run);
  }

  lemma AgreesShrinks(s: W.Store, s': W.Store, sim: Simulator)
    requires Agrees(s.cache, sim) && LeavesRunsAlone(s, s')
    ensures Agrees(s'.cache, sim)
  {
  }

  lemma AloneAt(s: W.Store, s': W.Store, r: nat)
    requires LeavesRunsAlone(s, s')
    ensures r in s'.runs && r in s.runs ==> s'.runs[r] == s.runs[r].(pinned := s'.runs[r].pinned)
    ensures r in s'.runs && r !in s.runs ==> r == s.nextRun < s'.nextRun && Untouched(s'.runs[r])
    ensures r in s.runs && s.runs[r].Active() ==> r in s'.runs
    ensures s.nextRun <= s'.nextRun
  {
  }

  lemma ExecActive(cfg: Setup, x: World, r: nat)
    requires Inv(cfg, x) && r in x.exec && !x.exec[r].Absent?
    ensures r in x.app.runs && x.app.runs[r].Active()
  {
    hide Sound, ServiceInv, Linked;
    LinkedAt(cfg, x, r);
    ActiveAt(x.app.runs[r], x.exec[r], x.service, x.sent[r], cfg.sim);
  }

  /** No new run. */
  lemma UserStep(cfg: Setup, x: World, s: W.Store)
    requires Inv(cfg, x) && StoreInv(cfg.settings, s) && LeavesRunsAlone(x.app, s) && s.nextRun == x.app.nextRun
    ensures Inv(cfg, x.(app := s)) && Advances(x, x.(app := s))
  {
    hide StoreInv, ServiceInv, Linked, RunAdvances, Moved, LeavesRunsAlone, Untouched, Agrees;
    var y := x.(app := s);
    AgreesShrinks(x.app, s, cfg.sim);
    MovedReflexive(x.service);
    forall r | r in s.runs
      ensures r in x.app.runs && r in x.sent
      ensures Linked(s.runs[r], ExecOf(y, r), x.service, x.sent[r], cfg.sim) && RunAdvances(x.app.runs[r], s.runs[r])
    {
      AloneAt(x.app, s, r);
      PinnedLinked(x.app.runs[r], ExecOf(x, r), s.runs[r], x.service, x.sent[r], cfg.sim);
    }
    forall r | r in x.exec && !x.exec[r].Absent? ensures r in s.runs {
      ExecActive(cfg, x, r);
      AloneAt(x.app, s, r);
    }
  }

  lemma NewShape(cfg: Setup, s: W.Store, r: nat)
    requires StoreInv(cfg.settings, s) && r in s.runs
    ensures RunShape(s.runs[r])
  {
    hide StoreInv;
    RunAt(cfg.settings, s, r);
  }

  /** One new run, launched at once. */
  lemma RegisteredStep(cfg: Setup, x: World, s: W.Store)
    requires Inv(cfg, x) && StoreInv(cfg.settings, s) && LeavesRunsAlone(x.app, s)
    requires s.nextRun == x.app.nextRun + 1 && x.app.nextRun in s.runs
    ensures var r := x.app.nextRun;
            var y := x.(app := s, sent := x.sent[r := RequestOf(s.runs[r])], exec := x.exec[r := AtHits]);
            Inv(cfg, y) && Advances(x, y)
  {
    hide StoreInv, ServiceInv, Linked, RunAdvances, Moved, LeavesRunsAlone, Untouched, Agrees, RunShape, RequestOf;
    var n := x.app.nextRun;
    var y := x.(app := s, sent := x.sent[n := RequestOf(s.runs[n])], exec := x.exec[n := AtHits]);
    AgreesShrinks(x.app, s, cfg.sim);
    RunIds(cfg, x);
    SentGrows(cfg.limits, x.service, x.sent, cfg.sim, n, RequestOf(s.runs[n]));
    MovedReflexive(x.service);
    AloneAt(x.app, s, n);
    NewShape(cfg, s, n);
    NewLinked(s.runs[n], x.service, cfg.sim);
    forall r | r in s.runs && r != n
      ensures r in x.app.runs && r in x.sent
      ensures Linked(s.runs[r], ExecOf(y, r), x.service, x.sent[r], cfg.sim) && RunAdvances(x.app.runs[r], s.runs[r])
    {
      AloneAt(x.app, s, r);
      PinnedLinked(x.app.runs[r], ExecOf(x, r), s.runs[r], x.service, x.sent[r], cfg.sim);
    }
    forall r | r in x.exec && !x.exec[r].Absent? ensures r in s.runs {
      ExecActive(cfg, x, r);
      AloneAt(x.app, s, r);
    }
  }

  lemma StoreOf(cfg: Setup, x: World)
    requires Inv(cfg, x)
    ensures StoreInv(cfg.settings, x.app)
  {
    hide ServiceInv, RunsLinked, Bookkeeping, StoreInv;
  }

  lemma RegisterStep(cfg: Setup, x: World, ev: Event)
    requires Inv(cfg, x) && ev.Register? && Enabled(cfg, x, ev)
    ensures Inv(cfg, RegisterByUser(cfg, x, ev)) && Advances(x, RegisterByUser(cfg, x, ev))
  {
    hide Inv, Advances, StoreInv, LeavesRunsAlone, W.Register, RequestOf;
    StoreOf(cfg, x);
    RegisterInv(cfg.settings, x.app, ev.w, ev.request, ev.scenarios, ev.taskSet, ev.now, ev.inputFits);
    var (s, reply) := W.Register(cfg.settings, x.app, ev.w, ev.request, ev.scenarios, ev.taskSet, ev.now, ev.inputFits);
    if reply.Ok? && reply.value.created {
      RegisteredStep(cfg, x, s);
    } else {
      UserStep(cfg, x, s);
    }
  }

  // ---------------------------------------------------------------------------------------------
  // The other operations

  lemma SameRunsAlone(s: W.Store, s': W.Store)
    requires s'.runs == s.runs && s'.nextRun == s.nextRun && s'.cache.entries == s.cache.entries
    ensures LeavesRunsAlone(s, s')
  {
  }

  /** Forgetting closed runs and then pruning the cache. */
  lemma ForgetAlone(cfg: W.Settings, s: W.Store, gone: W.Store)
    requires StoreInv(cfg, gone) && gone.cache == s.cache && gone.nextRun == s.nextRun
    requires forall r :: r in gone.runs ==> r in s.runs && gone.runs[r] == s.runs[r]
    requires forall r :: r in s.runs && s.runs[r].Active() ==> r in gone.runs
    ensures LeavesRunsAlone(s, W.PruneCache(cfg, gone, 0, {}))
  {
    hide Pruned, W.KeptKeys, RunsOk, WorkspacesOk, Ownership;
    CacheShrinks(cfg, gone, 0, {});
  }

  lemma DeleteWorkspaceAlone(cfg: W.Settings, s: W.Store, w: nat)
    requires StoreInv(cfg, s)
    ensures var s' := W.DeleteWorkspace(cfg, s, w).0;
            StoreInv(cfg, s') && LeavesRunsAlone(s, s') && s'.nextRun == s.nextRun
  {
    hide RunsOk, WorkspacesOk, Ownership, WorkspaceInvariant.CapacityOk, W.PruneCache;
    DeleteWorkspaceInv(cfg, s, w);
    if W.DeleteWorkspace(cfg, s, w).1.Ok? {
      var ids := s.workspaces[w].runs;
      forall r | r in ids && r in s.runs ensures !s.runs[r].Active() {
        var k :| 0 <= k < |ids| && ids[k] == r;
      }
      var gone := s.(workspaces := s.workspaces - {w}, runs := s.runs - W.AsSet(ids));
      DropWorkspaceInv(cfg, s, w);
      ForgetAlone(cfg, s, gone);
      PruneKeepsIds(cfg, gone);
    } else {
      SameRunsAlone(s, s);
    }
  }

  lemma PruneKeepsIds(cfg: W.Settings, s: W.Store)
    ensures W.PruneCache(cfg, s, 0, {}).nextRun == s.nextRun
  {
  }

  lemma CompareAlone(cfg: W.Settings, s: W.Store, w: nat, r: nat, action: W.Action)
    requires StoreInv(cfg, s)
    ensures var s' := W.Compare(cfg, s, w, r, action).0;
            StoreInv(cfg, s') && LeavesRunsAlone(s, s') && s'.nextRun == s.nextRun
  {
    hide StoreInv, W.PruneCache, LeavesRunsAlone;
    CompareInv(cfg, s, w, r, action);
    if W.Compare(cfg, s, w, r, action).1.Ok? && action == W.Delete {
      var gone := AfterDeletion(s, w, r);
      DeletionInv(cfg, s, w, r);
      ForgetAlone(cfg, s, gone);
      PruneKeepsIds(cfg, gone);
    } else {
      PinAlone(s, W.Compare(cfg, s, w, r, action).0, r);
    }
  }

  lemma PinAlone(s: W.Store, s': W.Store, r: nat)
    requires s'.nextRun == s.nextRun && s'.cache == s.cache
    requires s'.runs == s.runs || (r in s.runs && r in s'.runs && s'.runs == s.runs[r := s'.runs[r]]
                                   && s'.runs[r] == s.runs[r].(pinned := s'.runs[r].pinned))
    ensures LeavesRunsAlone(s, s')
  {
  }

  /** Every operation of the store that users call directly. */
  lemma EditStep(cfg: Setup, x: World, ev: Event)
    requires Inv(cfg, x) && Enabled(cfg, x, ev)
    requires ev.CreateWorkspace? || ev.DeleteWorkspace? || ev.SaveEditor? || ev.DeleteTaskSet? || ev.Compare?
    ensures Inv(cfg, Next(cfg, x, ev)) && Advances(x, Next(cfg, x, ev))
  {
    hide Inv, Advances, StoreInv, LeavesRunsAlone, W.Compare, W.DeleteWorkspace;
    StoreOf(cfg, x);
    match ev {
      case CreateWorkspace =>
        StoreOperations.CreateInv(cfg.settings, x.app);
        SameRunsAlone(x.app, W.Create(cfg.settings, x.app).0);
        UserStep(cfg, x, W.Create(cfg.settings, x.app).0);
      case DeleteWorkspace(w) =>
        DeleteWorkspaceAlone(cfg.settings, x.app, w);
        UserStep(cfg, x, W.DeleteWorkspace(cfg.settings, x.app, w).0);
      case SaveEditor(w, revision, valid, made, fits) =>
        SaveEditorInv(cfg.settings, x.app, w, revision, valid, made, fits);
        SameRunsAlone(x.app, W.SaveEditor(cfg.settings, x.app, w, revision, valid, made, fits).0);
        UserStep(cfg, x, W.SaveEditor(cfg.settings, x.app, w, revision, valid, made, fits).0);
      case DeleteTaskSet(w, id, revision) =>
        DeleteTaskSetInv(cfg.settings, x.app, w, id, revision);
        SameRunsAlone(x.app, W.DeleteTaskSet(x.app, w, id, revision).0);
        UserStep(cfg, x, W.DeleteTaskSet(x.app, w, id, revision).0);
      case Compare(w, r, action) =>
        CompareAlone(cfg.settings, x.app, w, r, action);
        UserStep(cfg, x, W.Compare(cfg.settings, x.app, w, r, action).0);
    }
  }

  lemma ReadStep(cfg: Setup, x: World, w: nat, r: nat, scenario: nat)
    requires Inv(cfg, x) && RunOf(x.app, w, r)
    ensures var y := x.(app := W.ResultFor(x.app, r, scenario).0);
            Inv(cfg, y) && Advances(x, y)
  {
    hide Inv, Advances, LeavesRunsAlone, Sound, ServiceInv, Touch;
    SoundOf(cfg, x);
    var run := x.app.runs[r];
    var s := W.ResultFor(x.app, r, scenario).0;
    if scenario in run.results && run.results[scenario] in x.app.cache.entries {
      TouchSound(cfg.settings, x.app, r, run.results[scenario], cfg.sim);
      TouchEntries(x.app.cache, run.results[scenario]);
      hide OnlyRun;
      SoundStore(cfg, s);
    } else {
      StoreOf(cfg, x);
    }
    SameRunsAlone(x.app, s);
    UserStep(cfg, x, s);
  }

  lemma SoundStore(cfg: Setup, s: W.Store)
    requires Sound(cfg.settings, s, cfg.sim)
    ensures StoreInv(cfg.settings, s)
  {
    hide StoreInv;
  }
}
