/** The coordinator's loops as they run: they write to one run's record while the store keeps cache and budget. */
module Coordinator {
  import opened Common
  import opened ResultCache
  import opened Workspaces
  import opened WorkspaceInvariant
  import opened RunSteps
  import opened ExecuteSteps
  import opened WorkspaceStore
  import Jobs
  import JobTable
  import P = Protocol
  import PI = ProtocolInvariant
  import PS = ProtocolSteps
  import PC = ProtocolClosing

  /** The store changes only between two suspensions of an executor; each such stretch is one method here. */
  class RunCoordinator {
    const store: InMemoryWorkspaceStore
    /** The runs that have an executor. */
    var tasks: set<nat>

    constructor (store: InMemoryWorkspaceStore)
      ensures this.store == store && tasks == {}
    {
      this.store, tasks := store, {};
    }

    /** The store is the application's part of a world, and the executors are those of that world. */
    ghost predicate Shows(cfg: P.Setup, x: P.World)
      reads this, store
    {
      && cfg.settings == store.settings && x.app == store.State() && PI.Inv(cfg, x) && store.settings.Valid()
      && forall r :: r in tasks <==> !P.ExecOf(x, r).Absent?
    }

    // -------------------------------------------------------------------------------------------
    // What users ask for

    method Launch(r: nat)
      requires r in store.runs
      modifies this`tasks, store`runs
      ensures tasks == old(tasks) + {r}
      ensures store.runs == old(store.runs)[r := old(store.runs[r]).(retryPaused := false)]
    {
      store.runs := store.runs[r := store.runs[r].(retryPaused := false)];
      tasks := tasks + {r};
    }

    /** Marks an active run for cancellation and makes sure that someone carries it out. */
    method CancelRun(w: nat, r: nat, ghost cfg: P.Setup, ghost x: P.World) returns (reply: Result<(), AppError>)
      requires Shows(cfg, x)
      modifies this`tasks, store`runs
      ensures Shows(cfg, P.CancelByUser(x, w, r, false))
      ensures reply.Err? <==> !P.RunOf(x.app, w, r)
    {
      hide PI.Inv;
      PC.CancelByUserInv(cfg, x, w, r, false);
      ListedRuns(cfg, x, w);
      if w !in store.workspaces {
        return Err(WORKSPACE_NOT_FOUND);
      }
      if r !in store.workspaces[w].runs {
        return Err(RUN_NOT_FOUND);
      }
      if store.runs[r].Active() {
        var record := store.runs[r];
        store.runs := store.runs[r := record.(cancelRequested := true, state := Cancelling)];
        if r !in tasks {
          Launch(r);
        }
      }
      reply := Ok(());
    }

    /** Gives an active run an executor again, if it has none. */
    method Resume(w: nat, r: nat, ghost cfg: P.Setup, ghost x: P.World) returns (reply: Result<(), AppError>)
      requires Shows(cfg, x)
      modifies this`tasks, store`runs
      ensures Shows(cfg, P.ResumeByUser(x, w, r))
      ensures reply.Err? <==> !P.RunOf(x.app, w, r)
    {
      hide PI.Inv;
      PC.ResumeByUserInv(cfg, x, w, r);
      ListedRuns(cfg, x, w);
      if w !in store.workspaces {
        return Err(WORKSPACE_NOT_FOUND);
      }
      if r !in store.workspaces[w].runs {
        return Err(RUN_NOT_FOUND);
      }
      if store.runs[r].Active() && r !in tasks {
        Launch(r);
      }
      reply := Ok(());
    }

    // -------------------------------------------------------------------------------------------
    // What an executor does between two suspensions

    /** From its launch to its first request: the cache hits, and the end if that is all there is to do. */
    method Begin(w: nat, r: nat, bodyFits: bool, ghost cfg: P.Setup, ghost x: P.World) returns (next: P.Exec)
      requires Shows(cfg, x) && P.RunOf(x.app, w, r) && P.ExecOf(x, r).AtHits?
      modifies store`runs, store`cache, store`workspaces
      ensures store.Valid()
      ensures P.BeginRun(cfg, x, w, r, bodyFits) == x.(app := store.State(), exec := x.exec[r := next])
    {
      hide PI.Inv, ExecuteSteps.CompleteHits, StoreInv;
      PC.BeginInv(cfg, x, w, r, bodyFits);
      StoreOf(cfg, P.BeginRun(cfg, x, w, r, bodyFits));
      StoreOf(cfg, x);
      RunActive(cfg, x, r);
      var error := CompleteHits(r);
      if error.Some? {
        return P.AtFailure(error.value);
      }
      HitsKeep(cfg.settings, x.app, r);
      if store.runs[r].serviceIndices == [] {
        Close(w, r, Completed);
        return P.Absent;
      }
      next := if bodyFits then P.AtLoop else P.AtFailure(BODY_TOO_LARGE);
    }

    /** Sets the final state and lets the store finish the run. */
    method Close(w: nat, r: nat, state: RunState)
      requires w in store.workspaces && r in store.runs
      modifies store`runs, store`workspaces
      ensures store.State() == P.CloseRun(old(store.State()), w, r, state)
    {
      store.runs := store.runs[r := store.runs[r].(state := state)];
      store.Finish(w, r);
    }

    /** From a page's arrival to the next request, or to the end of the run. */
    method Apply(w: nat, r: nat, seen: Jobs.JobState, page: JobTable.Page, ghost cfg: P.Setup, ghost x: P.World)
      returns (next: P.Exec)
      requires Shows(cfg, x) && P.RunOf(x.app, w, r) && P.ExecOf(x, r) == P.GotPage(seen, page)
      modifies store`runs, store`cache, store`workspaces
      ensures store.Valid()
      ensures P.Applied(cfg, x.app, w, r, seen, page) == (store.State(), next)
      ensures next.AtFailure? ==> next.error == RESULT_TOO_LARGE
    {
      hide PI.Inv, ExecuteSteps.ApplyPage, StoreInv, P.CloseRun;
      PC.ApplyInv(cfg, x, w, r);
      ghost var goal := P.Applied(cfg, x.app, w, r, seen, page);
      StoreOf(cfg, x.(app := goal.0, exec := x.exec[r := goal.1]));
      StoreOf(cfg, x);
      RunActive(cfg, x, r);
      PageShapes(cfg, x, r);
      var error := ApplyPage(r, page.outcomes);
      if error.Some? {
        return P.AtFailure(error.value);
      }
      PageKeeps(cfg.settings, x.app, r, page.outcomes);
      ghost var s := store.State();
      var record := store.runs[r].(serviceCursor := page.nextCursor);
      store.runs := store.runs[r := record];
      if seen.Terminal() {
        if !AllComplete(record) {
          return P.AtFailure(SERVICE_INVALID_RESPONSE);
        }
        Close(w, r, P.RunStateOf(seen));
        return P.Absent;
      }
      var state := if record.cancelRequested then Cancelling else P.RunStateOf(seen);
      store.runs := store.runs[r := record.(state := state)];
      assert store.runs == s.runs[r := record.(state := state)];
      next := P.AtLoop;
    }

    /** After a lost request or reply: try again later, or pause until the run is resumed. */
    method Unavailable(r: nat, pause: bool, ghost cfg: P.Setup, ghost x: P.World)
      requires Shows(cfg, x) && r in x.app.runs && P.Waits(P.ExecOf(x, r))
      modifies this`tasks, store`runs
      ensures Shows(cfg, P.LoseReply(x, r, pause))
    {
      hide PI.Inv;
      PC.UnavailableInv(cfg, x, r, pause);
      var record := store.runs[r].(state := Reconnecting);
      if pause {
        tasks := tasks - {r};
        record := record.(retryPaused := true);
      }
      store.runs := store.runs[r := record];
    }

    /** From a failure to the end: whatever has no outcome yet has failed. */
    method Fail(w: nat, r: nat, error: AppError, ghost cfg: P.Setup, ghost x: P.World)
      requires Shows(cfg, x) && P.RunOf(x.app, w, r) && P.ExecOf(x, r) == P.AtFailure(error)
      modifies store`runs, store`cache, store`workspaces
      ensures store.Valid()
      ensures P.FailRun(x, w, r, error) == x.(app := store.State(), exec := x.exec[r := P.Absent])
    {
      hide PI.Inv, FailOpen, StoreInv, P.CloseRun;
      PC.FailInv(cfg, x, w, r);
      StoreOf(cfg, P.FailRun(x, w, r, error));
      StoreOf(cfg, x);
      RunActive(cfg, x, r);
      FailRest(r, error);
      Close(w, r, Failed);
    }

    // -------------------------------------------------------------------------------------------
    // Outcomes

    method CompleteOutcome(r: nat, i: nat, status: OutcomeStatus, result: Option<ResultData>, error: Option<AppError>,
                           cached: bool)
      returns (reply: Result<(), AppError>)
      requires store.Valid() && r in store.runs && store.runs[r].Active()
      requires i < |store.runs[r].outcomes| && i < |store.runs[r].cacheKeys|
      requires ProperOutcome(store.State(), r, i, status, result)
      modifies store`runs, store`cache
      ensures store.Valid()
      ensures (store.State(), reply)
              == RunSteps.CompleteOutcome(store.settings, old(store.State()), r, i, status, result, error, cached)
    {
      hide StoreInv;
      CompleteOutcomeInv(store.settings, store.State(), r, i, status, result, error, cached);
      if store.runs[r].outcomes[i].cursor > 0 {
        return Ok(());
      }
      if result.Some? {
        var kept := store.RetainResult(r, i, result.value);
        if kept.Err? {
          return kept;
        }
      }
      var record := store.runs[r];
      var last := record.lastCursor + 1;
      var outcome := record.outcomes[i].(status := status, error := error, cached := cached, cursor := last);
      store.runs := store.runs[r := record.(outcomes := record.outcomes[i := outcome], lastCursor := last)];
      reply := Ok(());
    }

    /** Completes the scenarios whose results were cached when the run was registered. */
    method CompleteHits(r: nat) returns (error: Option<AppError>)
      requires store.Valid() && r in store.runs && store.runs[r].Active()
      modifies store`runs, store`cache
      ensures store.Valid()
      ensures (store.State(), error)
              == ExecuteSteps.CompleteHits(store.settings, old(store.State()), r, 0, |old(store.runs[r].cacheKeys)|)
    {
      hide StoreInv, RunOk, RunSteps.CompleteOutcome, Holds, Touch;
      ghost var start := store.State();
      var n := |store.runs[r].cacheKeys|;
      for i := 0 to n
        invariant store.Valid() && r in store.runs && store.runs[r].Active() && |store.runs[r].cacheKeys| == n
        invariant ExecuteSteps.CompleteHits(store.settings, store.State(), r, i, n)
                  == ExecuteSteps.CompleteHits(store.settings, start, r, 0, n)
      {
        RunAt(store.settings, store.State(), r);
        SameLengths(store.settings, store.runs[r]);
        if i !in store.runs[r].serviceIndices && store.runs[r].outcomes[i].cursor == 0 {
          HitCached(store.runs[r], store.cache.entries, i);
          TouchEntries(store.cache, store.runs[r].cacheKeys[i]);
          var found := store.CachedResult(store.runs[r].cacheKeys[i]);
          if found.Err? {
            return Some(INTERNAL_ERROR);
          }
          ghost var read := store.State();
          var ok := CompleteOutcome(r, i, Jobs.Succeeded, Some(found.value), None, true);
          if ok.Err? {
            return Some(ok.error);
          }
          Identity(store.settings, read, r, i, Jobs.Succeeded, Some(found.value), None, true);
        }
      }
      error := None;
    }

    /** Records a page of outcomes, skipping those already read and refusing an index the run never sent. */
    method ApplyPage(r: nat, page: seq<Jobs.Outcome>) returns (error: Option<AppError>)
      requires store.Valid() && r in store.runs && store.runs[r].Active()
      requires forall k :: 0 <= k < |page| ==> page[k].ValidShape()
      modifies store`runs, store`cache
      ensures store.Valid()
      ensures (store.State(), error) == ExecuteSteps.ApplyPage(store.settings, old(store.State()), r, page)
    {
      hide StoreInv, RunOk, RunSteps.CompleteOutcome, Holds;
      ghost var start := store.State();
      for k := 0 to |page|
        invariant store.Valid() && r in store.runs && store.runs[r].Active()
        invariant ExecuteSteps.ApplyPage(store.settings, store.State(), r, page[k..])
                  == ExecuteSteps.ApplyPage(store.settings, start, r, page)
      {
        var outcome, record := page[k], store.runs[r];
        assert page[k..][0] == outcome && page[k..][1..] == page[k + 1..];
        if outcome.cursor > record.serviceCursor {
          if outcome.index >= |record.serviceIndices| {
            return Some(SERVICE_INVALID_RESPONSE);
          }
          RunAt(store.settings, store.State(), r);
          IndicesInRange(store.settings, record);
          var i := record.serviceIndices[outcome.index];
          ghost var before := store.State();
          var failure := if outcome.error.Some? then Some(MODEL_ERROR(outcome.error.value.code)) else None;
          var ok := CompleteOutcome(r, i, outcome.status, outcome.result, failure, false);
          if ok.Err? {
            return Some(ok.error);
          }
          Identity(store.settings, before, r, i, outcome.status, outcome.result, failure, false);
        }
      }
      error := None;
    }

    /** Marks every outcome still open as failed. */
    method FailRest(r: nat, error: AppError)
      requires store.Valid() && r in store.runs && store.runs[r].Active()
      modifies store`runs, store`cache
      ensures store.Valid()
      ensures store.State() == old(store.State()).(
                runs := old(store.runs)[r := FailOpen(old(store.runs[r]), 0, error)])
    {
      hide StoreInv, RunOk, Holds;
      ghost var start := store.State();
      var n := |store.runs[r].outcomes|;
      assert store.runs[r := store.runs[r]] == store.runs;
      for i := 0 to n
        invariant store.Valid() && r in store.runs && store.runs[r].Active() && |store.runs[r].outcomes| == n
        invariant store.State() == start.(runs := start.runs[r := store.runs[r]])
        invariant FailOpen(store.runs[r], i, error) == FailOpen(start.runs[r], 0, error)
      {
        RunAt(store.settings, store.State(), r);
        SameLengths(store.settings, store.runs[r]);
        if store.runs[r].outcomes[i].cursor == 0 {
          var _ := CompleteOutcome(r, i, Jobs.Failed, None, Some(error), false);
        }
      }
    }
  }

  lemma StoreOf(cfg: P.Setup, x: P.World)
    requires PI.Inv(cfg, x)
    ensures StoreInv(cfg.settings, x.app)
  {
    hide PI.Inv, StoreInv;
    PI.SoundOf(cfg, x);
  }

  lemma ListedRuns(cfg: P.Setup, x: P.World, w: nat)
    requires PI.Inv(cfg, x)
    ensures w in x.app.workspaces ==> forall r :: r in x.app.workspaces[w].runs ==> r in x.app.runs
  {
    hide PI.Inv, StoreInv;
    StoreOf(cfg, x);
    if w in x.app.workspaces {
      WorkspaceAt(cfg.settings, x.app, w);
      RunsPresent(cfg.settings, x.app.workspaces[w], x.app.runs);
    }
  }

  lemma RunActive(cfg: P.Setup, x: P.World, r: nat)
    requires PI.Inv(cfg, x) && r in x.app.runs && !P.ExecOf(x, r).Absent?
    ensures x.app.runs[r].Active()
  {
    hide PI.Inv, PI.Linked;
    PI.LinkedAt(cfg, x, r);
    PS.ActiveAt(x.app.runs[r], P.ExecOf(x, r), x.service, x.sent[r], cfg.sim);
  }

  lemma PageShapes(cfg: P.Setup, x: P.World, r: nat)
    requires PI.Inv(cfg, x) && r in x.app.runs && P.ExecOf(x, r).GotPage?
    ensures var page := P.ExecOf(x, r).page.outcomes;
            forall k :: 0 <= k < |page| ==> page[k].ValidShape()
  {
    hide PI.Inv, PI.Linked;
    PI.LinkedAt(cfg, x, r);
    PC.PageFacts(x.app.runs[r], P.ExecOf(x, r).seen, P.ExecOf(x, r).page, x.service, x.sent[r], cfg.sim);
  }

  lemma {:induction false} HitsKeepFrom(cfg: Settings, s: Store, r: nat, i: nat, n: nat)
    requires r in s.runs && i <= n
    ensures var s' := ExecuteSteps.CompleteHits(cfg, s, r, i, n).0;
            && r in s'.runs && s'.runs[r].serviceIndices == s.runs[r].serviceIndices && s'.workspaces == s.workspaces
    decreases n - i
  {
    hide RunSteps.CompleteOutcome;
    if i < n && i < |s.runs[r].cacheKeys| && i < |s.runs[r].outcomes| {
      var run := s.runs[r];
      if i in run.serviceIndices || run.outcomes[i].cursor > 0 {
        HitsKeepFrom(cfg, s, r, i + 1, n);
      } else {
        var (read, found) := CachedResult(s, run.cacheKeys[i]);
        if found.Ok? {
          OutcomeKeeps(cfg, read, r, i, Jobs.Succeeded, Some(found.value), None, true);
          var (next, ok) := RunSteps.CompleteOutcome(cfg, read, r, i, Jobs.Succeeded, Some(found.value), None, true);
          if ok.Ok? { HitsKeepFrom(cfg, next, r, i + 1, n); }
        }
      }
    }
  }

  lemma HitsKeep(cfg: Settings, s: Store, r: nat)
    requires r in s.runs
    ensures var s' := ExecuteSteps.CompleteHits(cfg, s, r, 0, |s.runs[r].cacheKeys|).0;
            && r in s'.runs && s'.runs[r].serviceIndices == s.runs[r].serviceIndices && s'.workspaces == s.workspaces
  {
    HitsKeepFrom(cfg, s, r, 0, |s.runs[r].cacheKeys|);
  }

  lemma {:induction false} PageKeeps(cfg: Settings, s: Store, r: nat, page: seq<Jobs.Outcome>)
    requires r in s.runs
    ensures var s' := ExecuteSteps.ApplyPage(cfg, s, r, page).0;
            r in s'.runs && s'.workspaces == s.workspaces
    decreases |page|
  {
    hide RunSteps.CompleteOutcome;
    if page != [] {
      var run, o := s.runs[r], page[0];
      if o.cursor <= run.serviceCursor {
        PageKeeps(cfg, s, r, page[1..]);
      } else if o.index < |run.serviceIndices| {
        var i := run.serviceIndices[o.index];
        if i < |run.outcomes| && i < |run.cacheKeys| {
          OutcomeKeeps(cfg, s, r, i, o.status, o.result, ErrorOf(o), false);
          var (next, ok) := RunSteps.CompleteOutcome(cfg, s, r, i, o.status, o.result, ErrorOf(o), false);
          if ok.Ok? { PageKeeps(cfg, next, r, page[1..]); }
        }
      }
    }
  }

  lemma OutcomeKeeps(cfg: Settings, s: Store, r: nat, i: nat, status: OutcomeStatus, result: Option<ResultData>,
                     error: Option<AppError>, cached: bool)
    requires r in s.runs && i < |s.runs[r].outcomes| && i < |s.runs[r].cacheKeys|
    ensures var s' := RunSteps.CompleteOutcome(cfg, s, r, i, status, result, error, cached).0;
            && r in s'.runs && s'.workspaces == s.workspaces
            && s'.runs[r].serviceIndices == s.runs[r].serviceIndices
  {
    hide RetainResult, Mark;
    var kept := if result.Some? then RetainResult(cfg, s, r, i, result.value).0 else s;
    if result.Some? { RetainKeeps(cfg, s, r, i, result.value); }
    MarkKeeps(kept.runs[r], i, status, error, cached);
  }

  lemma IndicesInRange(cfg: Settings, run: Run)
    requires RunOk(cfg, run)
    ensures |run.cacheKeys| == |run.outcomes|
    ensures forall m :: 0 <= m < |run.serviceIndices| ==> run.serviceIndices[m] < |run.outcomes|
  {
  }

  lemma Identity(cfg: Settings, s: Store, r: nat, i: nat, status: OutcomeStatus, result: Option<ResultData>,
                 error: Option<AppError>, cached: bool)
    requires r in s.runs && i < |s.runs[r].outcomes| && i < |s.runs[r].cacheKeys|
    ensures var s' := RunSteps.CompleteOutcome(cfg, s, r, i, status, result, error, cached).0;
            && r in s'.runs && s'.runs[r].cacheKeys == s.runs[r].cacheKeys && s'.runs[r].state == s.runs[r].state
            && |s'.runs[r].outcomes| == |s.runs[r].outcomes|
  {
    hide RetainResult, Mark;
    var kept := if result.Some? then RetainResult(cfg, s, r, i, result.value).0 else s;
    if result.Some? { RetainKeeps(cfg, s, r, i, result.value); }
    MarkKeeps(kept.runs[r], i, status, error, cached);
  }

  lemma MarkKeeps(run: Run, i: nat, status: OutcomeStatus, error: Option<AppError>, cached: bool)
    requires i < |run.outcomes|
    ensures var run' := Mark(run, i, status, error, cached);
            && run'.cacheKeys == run.cacheKeys && run'.state == run.state && |run'.outcomes| == |run.outcomes|
            && run'.serviceIndices == run.serviceIndices
  {
  }

  lemma RetainKeeps(cfg: Settings, s: Store, r: nat, i: nat, result: ResultData)
    requires r in s.runs && i < |s.runs[r].cacheKeys| && i < |s.runs[r].outcomes|
    ensures var s' := RetainResult(cfg, s, r, i, result).0;
            && r in s'.runs && s'.runs[r].cacheKeys == s.runs[r].cacheKeys && s'.runs[r].state == s.runs[r].state
            && s'.runs[r].outcomes == s.runs[r].outcomes && s'.workspaces == s.workspaces
            && s'.runs[r].serviceIndices == s.runs[r].serviceIndices
  {
  }
}
