/** The two loops of a run's executor: completing the cache hits, and reading one page of service outcomes. */
module ExecuteSteps {
  import opened Common
  import opened ResultCache
  import opened Workspaces
  import opened WorkspaceInvariant
  import opened RunSteps
  import Jobs

  /** Completes, from an index on, the outcomes whose result was cached when the run was registered. */
  function CompleteHits(cfg: Settings, s: Store, r: nat, i: nat, n: nat): (Store, Option<AppError>)
    requires r in s.runs && i <= n
    decreases n - i
  {
    if i == n then (s, None)
    else
      var run := s.runs[r];
      if i >= |run.cacheKeys| || i >= |run.outcomes| then (s, Some(INTERNAL_ERROR))
      else if i in run.serviceIndices || run.outcomes[i].cursor > 0 then CompleteHits(cfg, s, r, i + 1, n)
      else
        var (read, found) := CachedResult(s, run.cacheKeys[i]);
        if found.Err? then (read, Some(found.error))
        else
          var (next, ok) := CompleteOutcome(cfg, read, r, i, Jobs.Succeeded, Some(found.value), None, true);
          if ok.Err? then (next, Some(ok.error)) else CompleteHits(cfg, next, r, i + 1, n)
  }

  function ErrorOf(o: Jobs.Outcome): Option<AppError> {
    if o.error.Some? then Some(MODEL_ERROR(o.error.value.code)) else None
  }

  /** Completes the outcomes of a page, translating the service's model indices to the run's scenario indices. */
  function ApplyPage(cfg: Settings, s: Store, r: nat, page: seq<Jobs.Outcome>): (Store, Option<AppError>)
    requires r in s.runs
    decreases |page|
  {
    if page == [] then (s, None)
    else
      var run, o := s.runs[r], page[0];
      if o.cursor <= run.serviceCursor then ApplyPage(cfg, s, r, page[1..])
      else if o.index >= |run.serviceIndices| then (s, Some(SERVICE_INVALID_RESPONSE))
      else
        var i := run.serviceIndices[o.index];
        if i >= |run.outcomes| || i >= |run.cacheKeys| then (s, Some(INTERNAL_ERROR))
        else
          var (next, ok) := CompleteOutcome(cfg, s, r, i, o.status, o.result, ErrorOf(o), false);
          if ok.Err? then (next, Some(ok.error)) else ApplyPage(cfg, next, r, page[1..])
  }

  // ---------------------------------------------------------------------------------------------
  // What these loops may change

  /** A consistent store whose cache agrees with the simulator. */
  ghost predicate Sound(cfg: Settings, s: Store, sim: Simulator) {
    StoreInv(cfg, s) && Agrees(s.cache, sim)
  }

  /** Outcomes that have a cursor stay as they are, and so does everything that identifies the run. */
  ghost predicate OutcomesOnly(a: Run, b: Run) {
    && b == a.(outcomes := b.outcomes, lastCursor := b.lastCursor, results := b.results,
               reservation := b.reservation, resultBytes := b.resultBytes)
    && KeepsOutcomes(a, b)
  }

  ghost predicate KeepsOutcomes(a: Run, b: Run) {
    && |b.outcomes| == |a.outcomes|
    && (forall i :: 0 <= i < |a.outcomes| ==>
          b.outcomes[i].scenario == a.outcomes[i].scenario
          && (a.outcomes[i].cursor > 0 ==> b.outcomes[i] == a.outcomes[i]))
    && (forall id :: id in a.results ==> id in b.results && b.results[id] == a.results[id])
  }

  /** Only the outcomes of one run and the cache change. */
  ghost predicate OnlyRun(s: Store, s': Store, r: nat) {
    && r in s.runs && r in s'.runs
    && s' == s.(runs := s.runs[r := s'.runs[r]], cache := s'.cache)
    && OutcomesOnly(s.runs[r], s'.runs[r])
  }

  lemma OnlyRunReflexive(s: Store, r: nat)
    requires r in s.runs
    ensures OnlyRun(s, s, r)
  {
    assert s.runs[r := s.runs[r]] == s.runs;
  }

  lemma OnlyRunTransitive(a: Store, b: Store, c: Store, r: nat)
    requires OnlyRun(a, b, r) && OnlyRun(b, c, r)
    ensures OnlyRun(a, c, r)
  {
  }

  lemma TouchSound(cfg: Settings, s: Store, r: nat, key: SimInput, sim: Simulator)
    requires Sound(cfg, s, sim) && r in s.runs && key in s.cache.entries
    ensures Sound(cfg, s.(cache := Touch(s.cache, key)), sim) && OnlyRun(s, s.(cache := Touch(s.cache, key)), r)
  {
    hide StoreInv, OnlyRun;
    TouchInv(cfg, s, key);
    TouchOnly(s, r, Touch(s.cache, key));
  }

  lemma TouchOnly(s: Store, r: nat, cache: Cache)
    requires r in s.runs
    ensures OnlyRun(s, s.(cache := cache), r)
  {
    assert s.runs[r := s.runs[r]] == s.runs;
  }

  /** The next outcome of a run, marked with how it ended. */
  ghost predicate Marks(a: Run, b: Run, i: nat, status: OutcomeStatus, result: Option<ResultData>,
                        error: Option<AppError>, cached: bool)
    requires i < |a.outcomes| && i < |a.cacheKeys|
  {
    && b.outcomes == a.outcomes[i := Summary(a.outcomes[i].scenario, status, a.lastCursor + 1, cached, error)]
    && b.lastCursor == a.lastCursor + 1
    && b.results == (if result.Some? then a.results[a.outcomes[i].scenario.id := a.cacheKeys[i]] else a.results)
    && b.resultBytes == a.resultBytes + (if result.Some? then result.value.size else 0)
  }

  /** Completing one outcome: it is marked and no other; refused exactly when its result is over the limits. */
  lemma CompleteOne(cfg: Settings, s: Store, r: nat, i: nat, status: OutcomeStatus, result: Option<ResultData>,
                    error: Option<AppError>, cached: bool, sim: Simulator)
    requires Sound(cfg, s, sim) && r in s.runs && s.runs[r].Active()
    requires i < |s.runs[r].outcomes| && i < |s.runs[r].cacheKeys| && ProperOutcome(s, r, i, status, result)
    requires result.Some? ==> result.value.payload == sim(s.runs[r].cacheKeys[i])
    ensures var (s', ok) := CompleteOutcome(cfg, s, r, i, status, result, error, cached);
            && Sound(cfg, s', sim) && OnlyRun(s, s', r)
            && (ok.Err? ==> s' == s && ok.error == RESULT_TOO_LARGE)
            && (ok.Err? <==> s.runs[r].outcomes[i].cursor == 0 && result.Some? && TooLarge(cfg, s.runs[r], result.value))
            && (ok.Ok? ==> s'.runs[r].outcomes[i].cursor > 0)
            && (ok.Ok? && s.runs[r].outcomes[i].cursor == 0 ==>
                  Marks(s.runs[r], s'.runs[r], i, status, result, error, cached))
            && (ok.Ok? && s.runs[r].outcomes[i].cursor == 0 ==>
                  s'.runs[r].outcomes[i].status == status
                  && forall k :: 0 <= k < |s.runs[r].outcomes| && k != i ==>
                       s'.runs[r].outcomes[k] == s.runs[r].outcomes[k])
  {
    hide StoreInv, RunOk, Holds, CompleteOutcome, RetainResult, OnlyRun, Marks, TooLarge;
    OnlyRunReflexive(s, r);
    RunAt(cfg, s, r);
    CompleteOutcomeInv(cfg, s, r, i, status, result, error, cached);
    CompleteOutcomeAgrees(cfg, s, r, i, status, result, error, cached, sim);
    if s.runs[r].outcomes[i].cursor == 0 {
      if result.Some? { ReservationSuffices(cfg, s, r, i, result.value); }
      CompleteOutcomeIs(cfg, s, r, i, status, result, error, cached);
      var run := s.runs[r];
      if CompleteOutcome(cfg, s, r, i, status, result, error, cached).1.Ok? {
        var isNew := result.Some? && run.cacheKeys[i] !in s.cache.entries;
        NewResult(cfg, run, i);
        CompletedOnly(run, i, status, result, error, cached, isNew);
        StoredOnly(s, r, WithOutcome(run, i, status, result, error, cached, isNew), CacheWith(s, run.cacheKeys[i], result));
      }
    } else {
      AlreadyComplete(cfg, s, r, i, status, result, error, cached);
    }
  }

  lemma AlreadyComplete(cfg: Settings, s: Store, r: nat, i: nat, status: OutcomeStatus, result: Option<ResultData>,
                        error: Option<AppError>, cached: bool)
    requires r in s.runs && i < |s.runs[r].outcomes| && i < |s.runs[r].cacheKeys| && s.runs[r].outcomes[i].cursor > 0
    ensures CompleteOutcome(cfg, s, r, i, status, result, error, cached) == (s, Ok(()))
  {
  }

  /** A scenario without an outcome has no result yet. */
  lemma NewResult(cfg: Settings, run: Run, i: nat)
    requires RunOk(cfg, run) && i < |run.outcomes| && run.outcomes[i].cursor == 0
    ensures run.outcomes[i].scenario.id !in run.results
  {
    hide BudgetOk;
    var id := run.outcomes[i].scenario.id;
    NotYetTerminal(run.outcomes, run.lastCursor, i);
    forall k ensures !SucceededAs(run.outcomes, k, id) {
      if 0 <= k < |run.outcomes| && k != i { assert run.outcomes[k].scenario.id != run.outcomes[i].scenario.id; }
    }
  }

  lemma CompletedOnly(run: Run, i: nat, status: OutcomeStatus, result: Option<ResultData>, error: Option<AppError>,
                      cached: bool, isNew: bool)
    requires i < |run.outcomes| && i < |run.cacheKeys| && run.outcomes[i].cursor == 0
    requires run.outcomes[i].scenario.id !in run.results
    requires result.Some? && isNew ==> result.value.size <= run.reservation
    ensures var run' := WithOutcome(run, i, status, result, error, cached, isNew);
            && OutcomesOnly(run, run') && run'.outcomes[i].cursor > 0 && run'.outcomes[i].status == status
            && Marks(run, run', i, status, result, error, cached)
            && forall k :: 0 <= k < |run.outcomes| && k != i ==> run'.outcomes[k] == run.outcomes[k]
  {
  }

  lemma StoredOnly(s: Store, r: nat, run: Run, cache: Cache)
    requires r in s.runs && OutcomesOnly(s.runs[r], run)
    ensures OnlyRun(s, s.(runs := s.runs[r := run], cache := cache), r)
  {
  }

  // ---------------------------------------------------------------------------------------------
  // Cache hits

  ghost predicate HitsOnly(a: Run, b: Run) {
    && |b.outcomes| == |a.outcomes|
    && forall k :: 0 <= k < |a.outcomes| ==>
         b.outcomes[k] == a.outcomes[k] || (k !in a.serviceIndices && b.outcomes[k].status == Jobs.Succeeded)
  }

  /** The results counted as cached at registration are all still there; only their size can be refused. */
  lemma {:induction false} CompleteHitsSound(cfg: Settings, s: Store, r: nat, i: nat, n: nat, sim: Simulator)
    requires Sound(cfg, s, sim) && r in s.runs && s.runs[r].Active() && i <= n == |s.runs[r].cacheKeys|
    ensures var (s', e) := CompleteHits(cfg, s, r, i, n);
            && Sound(cfg, s', sim) && OnlyRun(s, s', r) && HitsOnly(s.runs[r], s'.runs[r])
            && (e.Some? ==> e.value == RESULT_TOO_LARGE)
            && (e.None? ==> forall k :: i <= k < n && k < |s'.runs[r].outcomes| && k !in s.runs[r].serviceIndices ==>
                              s'.runs[r].outcomes[k].cursor > 0)
    decreases n - i
  {
    hide Sound, OnlyRun, CompleteOutcome, CachedResult;
    OnlyRunReflexive(s, r);
    LengthsOf(cfg, s, r, sim);
    if i < n {
      var run := s.runs[r];
      if i in run.serviceIndices || run.outcomes[i].cursor > 0 {
        CompleteHitsSound(cfg, s, r, i + 1, n, sim);
        if run.outcomes[i].cursor > 0 { StaysComplete(s, CompleteHits(cfg, s, r, i + 1, n).0, r, i); }
      } else {
        OneHit(cfg, s, r, i, sim);
        var (read, found) := CachedResult(s, run.cacheKeys[i]);
        var (next, ok) := CompleteOutcome(cfg, read, r, i, Jobs.Succeeded, Some(found.value), None, true);
        if ok.Ok? {
          CompleteHitsSound(cfg, next, r, i + 1, n, sim);
          var last := CompleteHits(cfg, next, r, i + 1, n).0;
          OnlyRunTransitive(s, next, last, r);
          StaysComplete(next, last, r, i);
          LengthsOf(cfg, next, r, sim);
        }
      }
    }
  }

  lemma LengthsOf(cfg: Settings, s: Store, r: nat, sim: Simulator)
    requires Sound(cfg, s, sim) && r in s.runs
    ensures |s.runs[r].cacheKeys| == |s.runs[r].outcomes|
    ensures forall m :: 0 <= m < |s.runs[r].serviceIndices| ==> s.runs[r].serviceIndices[m] < |s.runs[r].outcomes|
    ensures RunShape(s.runs[r])
  {
    hide StoreInv;
    RunAt(cfg, s, r);
  }

  lemma StaysComplete(s: Store, s': Store, r: nat, i: nat)
    requires OnlyRun(s, s', r) && i < |s.runs[r].outcomes| && s.runs[r].outcomes[i].cursor > 0
    ensures |s'.runs[r].outcomes| == |s.runs[r].outcomes| && s'.runs[r].outcomes[i] == s.runs[r].outcomes[i]
    ensures s'.runs[r].serviceIndices == s.runs[r].serviceIndices && s'.runs[r].cacheKeys == s.runs[r].cacheKeys
    ensures s'.runs[r].serviceCursor == s.runs[r].serviceCursor
    ensures s'.runs[r].Active() == s.runs[r].Active()
  {
  }

  lemma OneHit(cfg: Settings, s: Store, r: nat, i: nat, sim: Simulator)
    requires Sound(cfg, s, sim) && r in s.runs && s.runs[r].Active()
    requires i < |s.runs[r].outcomes| && i < |s.runs[r].cacheKeys|
    requires i !in s.runs[r].serviceIndices && s.runs[r].outcomes[i].cursor == 0
    ensures var (read, found) := CachedResult(s, s.runs[r].cacheKeys[i]);
            && found.Ok? && r in read.runs && read.runs[r] == s.runs[r]
            && var (next, ok) := CompleteOutcome(cfg, read, r, i, Jobs.Succeeded, Some(found.value), None, true);
            && r in next.runs && Sound(cfg, next, sim) && OnlyRun(s, next, r) && HitsOnly(s.runs[r], next.runs[r])
            && next.runs[r].serviceIndices == s.runs[r].serviceIndices
            && next.runs[r].cacheKeys == s.runs[r].cacheKeys && next.runs[r].Active()
            && (ok.Err? ==> ok.error == RESULT_TOO_LARGE)
            && (ok.Ok? ==> next.runs[r].outcomes[i].cursor > 0)
  {
    hide StoreInv, RunOk, Holds, CompleteOutcome, Touch, OnlyRun;
    RunAt(cfg, s, r);
    HitCached(s.runs[r], s.cache.entries, i);
    var key := s.runs[r].cacheKeys[i];
    TouchSound(cfg, s, r, key, sim);
    TouchEntries(s.cache, key);
    var read := s.(cache := Touch(s.cache, key));
    var found := s.cache.entries[key].result;
    CompleteOne(cfg, read, r, i, Jobs.Succeeded, Some(found), None, true, sim);
    var next := CompleteOutcome(cfg, read, r, i, Jobs.Succeeded, Some(found), None, true).0;
    OnlyRunTransitive(s, read, next, r);
    SameIdentity(s, next, r);
  }

  lemma TouchEntries(c: Cache, key: SimInput)
    ensures Touch(c, key).entries == c.entries
  {
  }

  lemma HitCached(run: Run, entries: map<SimInput, CacheEntry>, i: nat)
    requires Holds(run, entries) && run.Active() && i < |run.cacheKeys| && i !in run.serviceIndices
    ensures run.cacheKeys[i] in entries
  {
  }

  lemma SameIdentity(s: Store, s': Store, r: nat)
    requires OnlyRun(s, s', r)
    ensures s'.runs[r].serviceIndices == s.runs[r].serviceIndices && s'.runs[r].cacheKeys == s.runs[r].cacheKeys
    ensures s'.runs[r].Active() == s.runs[r].Active() && s'.runs[r].serviceCursor == s.runs[r].serviceCursor
    ensures |s'.runs[r].outcomes| == |s.runs[r].outcomes|
  {
  }

  // ---------------------------------------------------------------------------------------------
  // One page

  /** A log entry a run may rely on: it is in range, well formed, and its result is what simulating it gives. */
  ghost predicate Genuine(run: Run, o: Jobs.Outcome, sim: Simulator) {
    && o.index < |run.serviceIndices| && o.ValidShape()
    && run.serviceIndices[o.index] < |run.cacheKeys|
    && (o.result.Some? ==> o.result.value.payload == sim(run.cacheKeys[run.serviceIndices[o.index]]))
  }

  ghost predicate InPage(page: seq<Jobs.Outcome>, m: int) {
    exists k :: 0 <= k < |page| && page[k].index == m
  }

  /** What a page that was not seen before looks like: cursors above the run's, no model twice. */
  ghost predicate Fresh(run: Run, page: seq<Jobs.Outcome>, sim: Simulator) {
    && (forall k :: 0 <= k < |page| ==> Genuine(run, page[k], sim) && page[k].cursor > run.serviceCursor)
    && (forall k, l :: 0 <= k < l < |page| ==> page[k].index != page[l].index)
  }

  ghost predicate OutcomeIs(run: Run, m: nat, status: OutcomeStatus) {
    && m < |run.serviceIndices| && run.serviceIndices[m] < |run.outcomes|
    && run.outcomes[run.serviceIndices[m]].cursor > 0 && run.outcomes[run.serviceIndices[m]].status == status
  }

  /** A run has recorded what an entry of its job's log says: how the model ended, and with which error. */
  ghost predicate RecordedAs(run: Run, o: Jobs.Outcome) {
    && OutcomeIs(run, o.index, o.status)
    && !run.outcomes[run.serviceIndices[o.index]].cached
    && match o.error
       case None => run.outcomes[run.serviceIndices[o.index]].error.None?
       case Some(e) => run.outcomes[run.serviceIndices[o.index]].error == Some(MODEL_ERROR(e.code))
  }

  predicate Open(run: Run, m: nat) {
    && m < |run.serviceIndices| && run.serviceIndices[m] < |run.outcomes|
    && run.outcomes[run.serviceIndices[m]].cursor == 0
  }

  /** Which outcomes a page may change: those of its models, and no other. */
  ghost predicate PageOnly(a: Run, b: Run, page: seq<Jobs.Outcome>) {
    && |b.outcomes| == |a.outcomes| && b.serviceIndices == a.serviceIndices
    && (forall i :: 0 <= i < |a.outcomes| && i !in a.serviceIndices ==> b.outcomes[i] == a.outcomes[i])
    && (forall m: nat :: Open(a, m) && !InPage(page, m) ==> Open(b, m))
  }

  /**
   * Reading a page of genuine, fresh outcomes of models still open records each of them with its status and leaves
   * the rest alone.  No index is invalid and no reservation is exceeded; only over-size results are refused.
   */
  lemma {:induction false} ApplyPageSound(cfg: Settings, s: Store, r: nat, page: seq<Jobs.Outcome>, sim: Simulator)
    requires Sound(cfg, s, sim) && r in s.runs && s.runs[r].Active() && Fresh(s.runs[r], page, sim)
    requires forall k :: 0 <= k < |page| ==> Open(s.runs[r], page[k].index)
    ensures var (s', e) := ApplyPage(cfg, s, r, page);
            && Sound(cfg, s', sim) && OnlyRun(s, s', r) && PageOnly(s.runs[r], s'.runs[r], page)
            && (e.Some? ==> e.value == RESULT_TOO_LARGE)
            && (e.None? ==> forall k :: 0 <= k < |page| ==> RecordedAs(s'.runs[r], page[k]))
    decreases |page|
  {
    hide Sound, OnlyRun, CompleteOutcome, Genuine, PageOnly;
    OnlyRunReflexive(s, r);
    PageOnlyReflexive(s.runs[r], page);
    if page != [] {
      var run, o := s.runs[r], page[0];
      FirstOf(run, page, sim);
      LengthsOf(cfg, s, r, sim);
      OneOutcome(cfg, s, r, o, sim);
      var i := run.serviceIndices[o.index];
      var (next, ok) := CompleteOutcome(cfg, s, r, i, o.status, o.result, ErrorOf(o), false);
      if ok.Err? {
        PageOnlySame(run, next.runs[r], page);
      } else {
        RestFresh(run, next.runs[r], page, sim);
        ApplyPageSound(cfg, next, r, page[1..], sim);
        var last := ApplyPage(cfg, next, r, page[1..]).0;
        OnlyRunTransitive(s, next, last, r);
        StaysComplete(next, last, r, i);
        PageOnlyStep(run, next.runs[r], last.runs[r], page);
      }
    }
  }

  /** A page that was read before, in whole or in part, changes nothing when it is read again. */
  lemma {:induction false} ReadIsSkipped(cfg: Settings, s: Store, r: nat, page: seq<Jobs.Outcome>)
    requires r in s.runs && forall k :: 0 <= k < |page| ==> page[k].cursor <= s.runs[r].serviceCursor
    ensures ApplyPage(cfg, s, r, page) == (s, None)
    decreases |page|
  {
    if page != [] { ReadIsSkipped(cfg, s, r, page[1..]); }
  }

  lemma FirstOf(run: Run, page: seq<Jobs.Outcome>, sim: Simulator)
    requires Fresh(run, page, sim) && page != []
    ensures Genuine(run, page[0], sim) && page[0].cursor > run.serviceCursor && page[0].index < |run.serviceIndices|
  {
  }

  lemma OneOutcome(cfg: Settings, s: Store, r: nat, o: Jobs.Outcome, sim: Simulator)
    requires Sound(cfg, s, sim) && r in s.runs && s.runs[r].Active()
    requires Genuine(s.runs[r], o, sim) && Open(s.runs[r], o.index)
    ensures var run, i := s.runs[r], s.runs[r].serviceIndices[o.index];
            && i < |run.outcomes| && i < |run.cacheKeys|
            && var (next, ok) := CompleteOutcome(cfg, s, r, i, o.status, o.result, ErrorOf(o), false);
            && r in next.runs && Sound(cfg, next, sim) && OnlyRun(s, next, r)
            && (ok.Err? ==> next == s && ok.error == RESULT_TOO_LARGE)
            && OutcomesOnly(run, next.runs[r])
            && (ok.Ok? ==> RecordedAs(next.runs[r], o)
                           && next.runs[r].outcomes == run.outcomes[i := next.runs[r].outcomes[i]])
  {
    hide Sound, CompleteOutcome;
    var run, i := s.runs[r], s.runs[r].serviceIndices[o.index];
    CompleteOne(cfg, s, r, i, o.status, o.result, ErrorOf(o), false, sim);
    var (next, ok) := CompleteOutcome(cfg, s, r, i, o.status, o.result, ErrorOf(o), false);
    if ok.Ok? { assert next.runs[r].outcomes == run.outcomes[i := next.runs[r].outcomes[i]]; }
  }

  lemma PageOnlyReflexive(a: Run, page: seq<Jobs.Outcome>)
    ensures PageOnly(a, a, page)
  {
  }

  lemma PageOnlySame(a: Run, b: Run, page: seq<Jobs.Outcome>)
    requires a == b
    ensures PageOnly(a, b, page)
  {
  }

  /** The rest of the page is still fresh and its models still open after its first outcome is recorded. */
  lemma RestFresh(a: Run, b: Run, page: seq<Jobs.Outcome>, sim: Simulator)
    requires page != [] && Fresh(a, page, sim) && OutcomesOnly(a, b) && Increasing(a.serviceIndices)
    requires Open(a, page[0].index)
    requires forall k :: 0 <= k < |page| ==> Open(a, page[k].index)
    requires b.outcomes == a.outcomes[a.serviceIndices[page[0].index] := b.outcomes[a.serviceIndices[page[0].index]]]
    ensures Fresh(b, page[1..], sim)
    ensures forall k :: 0 <= k < |page[1..]| ==> Open(b, page[1..][k].index)
    ensures b.Active() == a.Active()
  {
    var rest := page[1..];
    forall k | 0 <= k < |rest| ensures Genuine(b, rest[k], sim) && Open(b, rest[k].index) {
      assert rest[k] == page[k + 1];
      assert Genuine(a, page[k + 1], sim) && Open(a, page[k + 1].index);
      OtherIndex(a.serviceIndices, page[0].index, page[k + 1].index);
    }
  }

  lemma OtherIndex(indices: seq<nat>, m: nat, n: nat)
    requires Increasing(indices) && m < |indices| && n < |indices| && m != n
    ensures indices[m] != indices[n]
  {
  }

  lemma PageOnlyStep(a: Run, b: Run, c: Run, page: seq<Jobs.Outcome>)
    requires page != [] && OutcomesOnly(a, b) && Increasing(a.serviceIndices) && Open(a, page[0].index)
    requires b.outcomes == a.outcomes[a.serviceIndices[page[0].index] := b.outcomes[a.serviceIndices[page[0].index]]]
    requires PageOnly(b, c, page[1..])
    ensures PageOnly(a, c, page)
  {
    var first := a.serviceIndices[page[0].index];
    forall m: nat | Open(a, m) && !InPage(page, m) ensures Open(c, m) {
      assert page[0].index != m;
      OtherIndex(a.serviceIndices, page[0].index, m);
      forall k | 0 <= k < |page[1..]| ensures page[1..][k].index != m { assert page[k + 1].index != m; }
    }
  }
}
