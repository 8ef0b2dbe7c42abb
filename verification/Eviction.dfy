/** Every operation of the application's store keeps its invariant; eviction is safe, ordered and complete. */
module Eviction {
  import opened Common
  import opened Sums
  import opened ResultCache
  import opened Workspaces
  import opened WorkspaceInvariant

  /** What protects a run: it is active, pinned, the baseline or the latest. */
  ghost predicate Guarded(w: Workspace, r: nat, runs: map<nat, Run>) {
    r !in runs || !runs[r].state.Terminal() || runs[r].pinned || w.baseline == Some(r) || w.latest == Some(r)
  }

  lemma GuardedIs()
    ensures forall w: Workspace, r: nat, runs: map<nat, Run> {:trigger Evictable(w, r, runs)} ::
              Guarded(w, r, runs) <==> !Evictable(w, r, runs)
  {
  }

  /** A workspace may lose evictable runs and nothing else. */
  ghost predicate TrimsWorkspace(w: Workspace, w': Workspace, runs: map<nat, Run>) {
    && w' == w.(runs := w'.runs)
    && (forall r :: r in w'.runs ==> r in w.runs)
    && (forall r :: r in w.runs && !Evictable(w, r, runs) ==> r in w'.runs)
  }

  /** Pruning may discard evictable runs and cache entries, and does nothing else. */
  ghost predicate Trims(s: Store, s': Store) {
    && s'.nextRun == s.nextRun && s'.nextWorkspace == s.nextWorkspace
    && s'.workspaces.Keys == s.workspaces.Keys
    && (forall w :: w in s.workspaces ==> TrimsWorkspace(s.workspaces[w], s'.workspaces[w], s.runs))
    && (forall r :: r in s'.runs ==> r in s.runs && s'.runs[r] == s.runs[r])
    && (forall k :: k in s'.cache.entries ==> k in s.cache.entries && s'.cache.entries[k] == s.cache.entries[k])
    && Used(s') <= Used(s) && ActiveRuns(s') <= ActiveRuns(s)
  }

  ghost predicate Protects(s: Store, s': Store, protect: set<SimInput>) {
    forall k :: k in protect && k in s.cache.entries ==> k in s'.cache.entries
  }

  lemma TrimsTransitive(cfg: Settings, a: Store, b: Store, c: Store)
    requires WorkspacesOk(cfg, b) && Trims(a, b) && Trims(b, c)
    ensures Trims(a, c)
  {
    hide Used, ActiveRuns, WorkspaceOk, TrimsWorkspace;
    forall w | w in a.workspaces ensures TrimsWorkspace(a.workspaces[w], c.workspaces[w], a.runs) {
      RunsPresent(cfg, b.workspaces[w], b.runs);
      TrimsWorkspaceTransitive(a.workspaces[w], b.workspaces[w], c.workspaces[w], a.runs, b.runs);
    }
  }

  lemma TrimsReflexive(s: Store)
    ensures Trims(s, s)
  {
    hide Used, ActiveRuns;
    assert forall w :: w in s.workspaces ==> TrimsWorkspace(s.workspaces[w], s.workspaces[w], s.runs);
  }

  lemma TrimsWorkspaceTransitive(a: Workspace, b: Workspace, c: Workspace, runs: map<nat, Run>, runs': map<nat, Run>)
    requires TrimsWorkspace(a, b, runs) && TrimsWorkspace(b, c, runs')
    requires forall r :: r in runs' ==> r in runs && runs'[r] == runs[r]
    ensures TrimsWorkspace(a, c, runs)
  {
  }

  lemma RemoveRunTrims(cfg: Settings, s: Store, w: nat, r: nat)
    requires StoreInv(cfg, s) && w in s.workspaces && r in s.workspaces[w].runs
    requires Evictable(s.workspaces[w], r, s.runs)
    ensures StoreInv(cfg, RemoveRun(s, w, r)) && Trims(s, RemoveRun(s, w, r))
    ensures forall q :: q in RemoveRun(s, w, r).workspaces[w].runs <==> q in s.workspaces[w].runs && q != r
  {
    hide RunOk, Holds, WorkspaceOk, Used, ActiveRuns;
    RemoveRunInv(cfg, s, w, r);
    RemoveRunCapacity(cfg, s, w, r);
    WithoutMembers(s.workspaces[w].runs, r);
    var s' := RemoveRun(s, w, r);
    assert s'.workspaces.Keys == s.workspaces.Keys;
  }

  lemma PruneCacheTrims(cfg: Settings, s: Store, required: nat, protect: set<SimInput>)
    requires StoreInv(cfg, s)
    ensures var s' := PruneCache(cfg, s, required, protect);
            StoreInv(cfg, s') && Trims(s, s') && Protects(s, s', protect)
  {
    hide RunsOk, WorkspacesOk, Ownership, Pruned, Bytes, KeptKeys;
    PruneCacheInv(cfg, s, required, protect);
    CacheShrinks(cfg, s, required, protect);
  }

  // ---------------------------------------------------------------------------------------------
  // History

  lemma {:induction false} PruneHistoryTrims(cfg: Settings, s: Store, w: nat, ids: seq<nat>)
    requires StoreInv(cfg, s) && w in s.workspaces
    requires Distinct(ids) && forall r :: r in ids ==> r in s.workspaces[w].runs
    ensures var s' := PruneHistory(cfg, s, w, ids);
            StoreInv(cfg, s') && Trims(s, s') && s'.cache == s.cache
    decreases |ids|
  {
    hide StoreInv, Used, ActiveRuns;
    if ids != [] && |s.workspaces[w].runs| >= cfg.maxRetainedRuns {
      DistinctTail(ids);
      if Evictable(s.workspaces[w], ids[0], s.runs) {
        var next := RemoveRun(s, w, ids[0]);
        RemoveRunTrims(cfg, s, w, ids[0]);
        PruneHistoryTrims(cfg, next, w, ids[1..]);
        Unfold(cfg, next);
        TrimsTransitive(cfg, s, next, PruneHistory(cfg, next, w, ids[1..]));
      } else {
        PruneHistoryTrims(cfg, s, w, ids[1..]);
      }
    }
  }

  /** The history is cut from its oldest end: a run goes only if every evictable run before it goes. */
  lemma {:induction false} HistoryInOrder(cfg: Settings, s: Store, w: nat, ids: seq<nat>, i: nat, j: nat)
    requires StoreInv(cfg, s) && w in s.workspaces
    requires Distinct(ids) && (forall r :: r in ids ==> r in s.workspaces[w].runs)
    requires i < j < |ids| && Evictable(s.workspaces[w], ids[i], s.runs) && ids[j] in s.runs
    requires ids[j] !in PruneHistory(cfg, s, w, ids).runs
    ensures ids[i] !in PruneHistory(cfg, s, w, ids).runs
    decreases |ids|
  {
    hide StoreInv, Trims;
    if |s.workspaces[w].runs| >= cfg.maxRetainedRuns {
      DistinctTail(ids);
      if Evictable(s.workspaces[w], ids[0], s.runs) {
        var next := RemoveRun(s, w, ids[0]);
        RemoveRunTrims(cfg, s, w, ids[0]);
        if i == 0 {
          PruneHistoryTrims(cfg, next, w, ids[1..]);
          StaysGone(next, PruneHistory(cfg, next, w, ids[1..]), ids[0]);
        } else {
          HistoryInOrder(cfg, next, w, ids[1..], i - 1, j - 1);
        }
      } else {
        HistoryInOrder(cfg, s, w, ids[1..], i - 1, j - 1);
      }
    }
  }

  lemma StaysGone(s: Store, s': Store, r: nat)
    requires Trims(s, s') && r !in s.runs
    ensures r !in s'.runs
  {
    hide Used, ActiveRuns, TrimsWorkspace;
  }

  /** No more is cut than needed: the history ends one below its limit, or with nothing evictable left. */
  lemma {:induction false} HistoryMinimal(cfg: Settings, s: Store, w: nat, ids: seq<nat>)
    requires StoreInv(cfg, s) && w in s.workspaces && cfg.maxRetainedRuns > 0
    requires Distinct(ids) && (forall r :: r in ids ==> r in s.workspaces[w].runs)
    ensures var s' := PruneHistory(cfg, s, w, ids);
            && w in s'.workspaces
            && (|s.workspaces[w].runs| < cfg.maxRetainedRuns ==> s' == s)
            && (|s.workspaces[w].runs| >= cfg.maxRetainedRuns ==>
                  |s'.workspaces[w].runs| == cfg.maxRetainedRuns - 1
                  || (|s'.workspaces[w].runs| >= cfg.maxRetainedRuns
                      && forall r :: r in ids && r in s'.runs ==> !Evictable(s'.workspaces[w], r, s'.runs)))
    decreases |ids|
  {
    hide StoreInv, Trims;
    if ids != [] && |s.workspaces[w].runs| >= cfg.maxRetainedRuns {
      DistinctTail(ids);
      if Evictable(s.workspaces[w], ids[0], s.runs) {
        var next := RemoveRun(s, w, ids[0]);
        RemoveRunTrims(cfg, s, w, ids[0]);
        Unfold(cfg, s);
        DistinctRuns(cfg, s);
        WithoutDistinct(s.workspaces[w].runs, ids[0]);
        HistoryMinimal(cfg, next, w, ids[1..]);
        PruneHistoryTrims(cfg, next, w, ids[1..]);
        StaysGone(next, PruneHistory(cfg, next, w, ids[1..]), ids[0]);
      } else {
        HistoryMinimal(cfg, s, w, ids[1..]);
        PruneHistoryTrims(cfg, s, w, ids[1..]);
        StaysProtected(s, PruneHistory(cfg, s, w, ids[1..]), w, ids[0]);
      }
    }
  }

  lemma StaysProtected(s: Store, s': Store, w: nat, r: nat)
    requires Trims(s, s') && w in s.workspaces && w in s'.workspaces && !Evictable(s.workspaces[w], r, s.runs)
    ensures r in s'.runs ==> !Evictable(s'.workspaces[w], r, s'.runs)
  {
    hide Used, ActiveRuns;
    assert TrimsWorkspace(s.workspaces[w], s'.workspaces[w], s.runs);
  }

  lemma Unfold(cfg: Settings, s: Store)
    requires StoreInv(cfg, s)
    ensures WorkspacesOk(cfg, s) && CapacityOk(cfg, s) && Ownership(s) && RunsOk(cfg, s)
  {
  }

  // ---------------------------------------------------------------------------------------------
  // Candidates

  ghost predicate IsCandidate(s: Store, c: Candidate) {
    && c.workspace in s.workspaces && c.run in s.workspaces[c.workspace].runs
    && Evictable(s.workspaces[c.workspace], c.run, s.runs)
  }

  lemma {:induction false} EvictableInMembers(s: Store, w: nat, ids: seq<nat>)
    requires w in s.workspaces && Distinct(ids)
    ensures forall c :: c in EvictableIn(s, w, ids) <==>
              c.workspace == w && c.run in ids && Evictable(s.workspaces[w], c.run, s.runs)
    ensures Distinct(EvictableIn(s, w, ids))
  {
    if ids != [] {
      DistinctTail(ids);
      EvictableInMembers(s, w, ids[1..]);
    }
  }

  lemma {:induction false} AllEvictableMembers(s: Store, n: nat)
    requires forall w :: w in s.workspaces ==> Distinct(s.workspaces[w].runs)
    ensures forall c :: c in AllEvictable(s, n) <==> c.workspace < n && IsCandidate(s, c)
    ensures Distinct(AllEvictable(s, n))
  {
    hide Evictable, EvictableIn, Distinct;
    if n == 0 {
      NoneDistinct();
    } else {
      AllEvictableMembers(s, n - 1);
      if n - 1 in s.workspaces {
        var ids := s.workspaces[n - 1].runs;
        EvictableInMembers(s, n - 1, ids);
        DistinctConcat(AllEvictable(s, n - 1), EvictableIn(s, n - 1, ids));
      } else {
        assert AllEvictable(s, n) == AllEvictable(s, n - 1);
      }
    }
  }

  lemma NoneDistinct()
    ensures Distinct<Candidate>([])
  {
  }

  lemma {:induction false} InsertByAgeMembers(s: Store, c: Candidate, sorted: seq<Candidate>)
    ensures forall d :: d in InsertByAge(s, c, sorted) <==> d == c || d in sorted
    ensures Distinct(sorted) && c !in sorted ==> Distinct(InsertByAge(s, c, sorted))
  {
    if sorted != [] && !(CreatedAt(s, c) < CreatedAt(s, sorted[0])) {
      InsertByAgeMembers(s, c, sorted[1..]);
      assert sorted == [sorted[0]] + sorted[1..];
      if Distinct(sorted) && c !in sorted {
        DistinctTail(sorted);
        DistinctConcat([sorted[0]], InsertByAge(s, c, sorted[1..]));
      }
    } else if Distinct(sorted) && c !in sorted {
      DistinctConcat([c], sorted);
    }
  }

  ghost predicate OldestFirst(s: Store, cs: seq<Candidate>) {
    forall i, j :: 0 <= i < j < |cs| ==> CreatedAt(s, cs[i]) <= CreatedAt(s, cs[j])
  }

  lemma {:induction false} InsertByAgeSorted(s: Store, c: Candidate, sorted: seq<Candidate>)
    requires OldestFirst(s, sorted)
    ensures OldestFirst(s, InsertByAge(s, c, sorted))
  {
    if sorted != [] && !(CreatedAt(s, c) < CreatedAt(s, sorted[0])) {
      var rest := InsertByAge(s, c, sorted[1..]);
      InsertByAgeSorted(s, c, sorted[1..]);
      InsertByAgeMembers(s, c, sorted[1..]);
      assert forall d :: d in rest ==> CreatedAt(s, sorted[0]) <= CreatedAt(s, d);
      assert forall j :: 0 <= j < |rest| ==> rest[j] in rest;
    }
  }

  lemma {:induction false} SortByAgeSorts(s: Store, cs: seq<Candidate>)
    ensures OldestFirst(s, SortByAge(s, cs))
    ensures forall c :: c in SortByAge(s, cs) <==> c in cs
    ensures Distinct(cs) ==> Distinct(SortByAge(s, cs))
  {
    if cs != [] {
      var init, last := cs[..|cs| - 1], cs[|cs| - 1];
      SortByAgeSorts(s, init);
      InsertByAgeSorted(s, last, SortByAge(s, init));
      InsertByAgeMembers(s, last, SortByAge(s, init));
      assert cs == init + [last];
    }
  }

  /** The order of candidates of one age: by workspace, and within a workspace as its runs were added. */
  ghost predicate Earlier(s: Store, c: Candidate, d: Candidate) {
    || c.workspace < d.workspace
    || (c.workspace == d.workspace && c.workspace in s.workspaces
        && exists i, j :: 0 <= i < j < |s.workspaces[c.workspace].runs|
                          && s.workspaces[c.workspace].runs[i] == c.run && s.workspaces[c.workspace].runs[j] == d.run)
  }

  ghost predicate InTurn(s: Store, cs: seq<Candidate>) {
    forall i, j :: 0 <= i < j < |cs| ==> Earlier(s, cs[i], cs[j])
  }

  /** Candidates of one age are in turn. */
  ghost predicate TiesInTurn(s: Store, cs: seq<Candidate>) {
    forall i, j :: 0 <= i < j < |cs| && CreatedAt(s, cs[i]) == CreatedAt(s, cs[j]) ==> Earlier(s, cs[i], cs[j])
  }

  lemma {:induction false} EvictableInTurn(s: Store, w: nat, k: nat)
    requires w in s.workspaces && k <= |s.workspaces[w].runs| && Distinct(s.workspaces[w].runs)
    ensures InTurn(s, EvictableIn(s, w, s.workspaces[w].runs[k..]))
    decreases |s.workspaces[w].runs| - k
  {
    hide Distinct, Evictable;
    var ids := s.workspaces[w].runs;
    if k < |ids| {
      EvictableInTurn(s, w, k + 1);
      assert ids[k..][1..] == ids[k + 1..];
      var rest := EvictableIn(s, w, ids[k + 1..]);
      DistinctRest(ids, k + 1);
      EvictableInMembers(s, w, ids[k + 1..]);
      forall j | 0 <= j < |rest| ensures Earlier(s, Candidate(w, ids[k]), rest[j]) {
        assert rest[j] in rest;
        var l :| 0 <= l < |ids[k + 1..]| && ids[k + 1..][l] == rest[j].run;
        assert ids[k + 1 + l] == rest[j].run;
      }
      FirstInTurn(s, Candidate(w, ids[k]), rest);
      assert [] + rest == rest;
    } else {
      assert ids[k..] == [];
    }
  }

  lemma DistinctRest(ids: seq<nat>, k: nat)
    requires Distinct(ids) && k <= |ids|
    ensures Distinct(ids[k..])
  {
  }

  lemma FirstInTurn(s: Store, c: Candidate, rest: seq<Candidate>)
    requires InTurn(s, rest) && forall j :: 0 <= j < |rest| ==> Earlier(s, c, rest[j])
    ensures InTurn(s, [c] + rest)
  {
    hide Earlier;
  }

  lemma {:induction false} AllInTurn(s: Store, n: nat)
    requires forall w :: w in s.workspaces ==> Distinct(s.workspaces[w].runs)
    ensures InTurn(s, AllEvictable(s, n))
  {
    hide Distinct, Evictable, EvictableIn;
    if n > 0 {
      AllInTurn(s, n - 1);
      AllEvictableMembers(s, n - 1);
      if n - 1 in s.workspaces {
        var before, here := AllEvictable(s, n - 1), EvictableIn(s, n - 1, s.workspaces[n - 1].runs);
        EvictableInTurn(s, n - 1, 0);
        assert s.workspaces[n - 1].runs[0..] == s.workspaces[n - 1].runs;
        EvictableInMembers(s, n - 1, s.workspaces[n - 1].runs);
        assert forall i :: 0 <= i < |before| ==> before[i] in before;
        assert forall j :: 0 <= j < |here| ==> here[j] in here;
        BothInTurn(s, before, here);
      } else {
        assert AllEvictable(s, n) == AllEvictable(s, n - 1);
      }
    }
  }

  lemma BothInTurn(s: Store, a: seq<Candidate>, b: seq<Candidate>)
    requires InTurn(s, a) && InTurn(s, b)
    requires forall i, j :: 0 <= i < |a| && 0 <= j < |b| ==> a[i].workspace < b[j].workspace
    ensures InTurn(s, a + b)
  {
    hide Distinct;
    forall i, j | 0 <= i < j < |a + b| ensures Earlier(s, (a + b)[i], (a + b)[j]) {
      if i < |a| <= j { assert (a + b)[j] == b[j - |a|]; }
    }
  }

  lemma {:induction false} InsertByAgeTies(s: Store, c: Candidate, sorted: seq<Candidate>)
    requires OldestFirst(s, sorted) && TiesInTurn(s, sorted) && forall d :: d in sorted ==> Earlier(s, d, c)
    ensures TiesInTurn(s, InsertByAge(s, c, sorted))
  {
    hide Earlier;
    if sorted != [] && !(CreatedAt(s, c) < CreatedAt(s, sorted[0])) {
      var rest := InsertByAge(s, c, sorted[1..]);
      InsertByAgeTies(s, c, sorted[1..]);
      InsertByAgeMembers(s, c, sorted[1..]);
      forall j | 0 <= j < |rest| && CreatedAt(s, rest[j]) == CreatedAt(s, sorted[0]) ensures Earlier(s, sorted[0], rest[j]) {
        assert rest[j] in rest;
        if rest[j] != c {
          var k :| 0 <= k < |sorted[1..]| && sorted[1..][k] == rest[j];
          assert sorted[k + 1] == rest[j];
        }
      }
      assert forall i :: 0 < i < |InsertByAge(s, c, sorted)| ==> InsertByAge(s, c, sorted)[i] == rest[i - 1];
    } else if sorted != [] {
      assert forall j :: 0 <= j < |sorted| ==> CreatedAt(s, sorted[0]) <= CreatedAt(s, sorted[j]);
    }
  }

  lemma {:induction false} SortByAgeTies(s: Store, cs: seq<Candidate>)
    requires InTurn(s, cs)
    ensures TiesInTurn(s, SortByAge(s, cs))
  {
    hide Earlier;
    if cs != [] {
      var init, last := cs[..|cs| - 1], cs[|cs| - 1];
      SortByAgeTies(s, init);
      SortByAgeSorts(s, init);
      assert forall d :: d in init ==> Earlier(s, d, last);
      InsertByAgeTies(s, last, SortByAge(s, init));
    }
  }

  lemma DistinctRuns(cfg: Settings, s: Store)
    requires WorkspacesOk(cfg, s)
    ensures forall w :: w in s.workspaces ==> Distinct(s.workspaces[w].runs)
  {
    forall w | w in s.workspaces ensures Distinct(s.workspaces[w].runs) {
      assert WorkspaceOk(cfg, s.workspaces[w], s.runs);
    }
  }

  /** The candidates are all the evictable runs, each once, oldest first and those of one age in turn. */
  lemma CandidatesAreEvictable(cfg: Settings, s: Store)
    requires WorkspacesOk(cfg, s)
    ensures forall c :: c in Candidates(s) <==> IsCandidate(s, c)
    ensures Distinct(Candidates(s)) && OldestFirst(s, Candidates(s)) && TiesInTurn(s, Candidates(s))
  {
    DistinctRuns(cfg, s);
    hide WorkspaceOk, OldestFirst, Distinct, InTurn, TiesInTurn;
    AllInTurn(s, s.nextWorkspace);
    SortByAgeTies(s, AllEvictable(s, s.nextWorkspace));
    AllEvictableMembers(s, s.nextWorkspace);
    SortByAgeSorts(s, AllEvictable(s, s.nextWorkspace));
  }

  // ---------------------------------------------------------------------------------------------
  // Making room

  /** Evicting runs and pruning after each one. */
  lemma {:induction false} EvictRunsTrims(
      cfg: Settings, s: Store, required: nat, protect: set<SimInput>, cs: seq<Candidate>)
    requires StoreInv(cfg, s) && Distinct(cs) && forall c :: c in cs ==> IsCandidate(s, c)
    ensures var s' := EvictRuns(cfg, s, required, protect, cs);
            StoreInv(cfg, s') && Trims(s, s') && Protects(s, s', protect)
    decreases |cs|
  {
    hide StoreInv, TrimsWorkspace, Used, ActiveRuns, PruneCache;
    TrimsReflexive(s);
    if cs != [] && Used(s) + required > cfg.maxResultBytes {
      assert IsCandidate(s, cs[0]);
      DistinctTail(cs);
      EvictOne(cfg, s, required, protect, cs[0]);
      var next := AfterEvicting(cfg, s, required, protect, cs[0]);
      EvictRunsTrims(cfg, next, required, protect, cs[1..]);
      Unfold(cfg, next);
      TrimsTransitive(cfg, s, next, EvictRuns(cfg, next, required, protect, cs[1..]));
    }
  }

  function AfterEvicting(cfg: Settings, s: Store, required: nat, protect: set<SimInput>, c: Candidate): Store
    requires c.workspace in s.workspaces
  {
    PruneCache(cfg, RemoveRun(s, c.workspace, c.run), required, protect)
  }

  lemma EvictOne(cfg: Settings, s: Store, required: nat, protect: set<SimInput>, c: Candidate)
    requires StoreInv(cfg, s) && IsCandidate(s, c)
    ensures var next := AfterEvicting(cfg, s, required, protect, c);
            && StoreInv(cfg, next) && Trims(s, next) && Protects(s, next, protect)
            && (forall d :: IsCandidate(s, d) && d != c ==> IsCandidate(next, d))
            && c.run !in next.runs
  {
    hide StoreInv, TrimsWorkspace, Used, ActiveRuns;
    hide IsCandidate, RunsOk, WorkspacesOk, Ownership, CapacityOk, Pruned, KeptKeys;
    CandidateFacts(s, c);
    var removed := RemoveRun(s, c.workspace, c.run);
    RemoveRunTrims(cfg, s, c.workspace, c.run);
    PruneCacheTrims(cfg, removed, required, protect);
    var next := PruneCache(cfg, removed, required, protect);
    Unfold(cfg, removed);
    TrimsTransitive(cfg, s, removed, next);
    Unfold(cfg, s);
    forall d | IsCandidate(s, d) && d != c ensures IsCandidate(next, d) {
      StaysCandidate(s, c, d, next);
    }
  }

  lemma CandidateFacts(s: Store, c: Candidate)
    requires IsCandidate(s, c)
    ensures c.workspace in s.workspaces && c.run in s.workspaces[c.workspace].runs
    ensures Evictable(s.workspaces[c.workspace], c.run, s.runs)
  {
  }

  lemma StaysCandidate(s: Store, c: Candidate, d: Candidate, next: Store)
    requires Ownership(s) && IsCandidate(s, c) && IsCandidate(s, d) && c != d
    requires next.workspaces == RemoveRun(s, c.workspace, c.run).workspaces
    requires next.runs == RemoveRun(s, c.workspace, c.run).runs
    ensures IsCandidate(next, d)
  {
    OtherRun(s, c, d);
    WithoutMembers(s.workspaces[c.workspace].runs, c.run);
  }

  lemma OtherRun(s: Store, c: Candidate, d: Candidate)
    requires Ownership(s) && IsCandidate(s, c) && IsCandidate(s, d) && c != d
    ensures c.run != d.run
  {
  }

  /** Eviction takes the candidates in order: whoever comes before an evicted run is evicted too. */
  lemma {:induction false} EvictsInOrder(
      cfg: Settings, s: Store, required: nat, protect: set<SimInput>, cs: seq<Candidate>, i: nat, j: nat)
    requires StoreInv(cfg, s) && Distinct(cs) && forall c :: c in cs ==> IsCandidate(s, c)
    requires i < j < |cs| && cs[j].run !in EvictRuns(cfg, s, required, protect, cs).runs
    ensures cs[i].run !in EvictRuns(cfg, s, required, protect, cs).runs
    decreases |cs|
  {
    hide StoreInv, TrimsWorkspace, Used, ActiveRuns, PruneCache;
    assert IsCandidate(s, cs[j]) && IsCandidate(s, cs[0]);
    if Used(s) + required > cfg.maxResultBytes {
      DistinctTail(cs);
      EvictOne(cfg, s, required, protect, cs[0]);
      var next := AfterEvicting(cfg, s, required, protect, cs[0]);
      EvictRunsTrims(cfg, next, required, protect, cs[1..]);
      if i > 0 {
        EvictsInOrder(cfg, next, required, protect, cs[1..], i - 1, j - 1);
      }
    }
  }

  /** Eviction stops only when there is room or no candidate is left. */
  lemma {:induction false} EvictsUntilRoom(
      cfg: Settings, s: Store, required: nat, protect: set<SimInput>, cs: seq<Candidate>)
    requires StoreInv(cfg, s) && Distinct(cs) && forall c :: c in cs ==> IsCandidate(s, c)
    requires CacheExhausted(cfg, s, required, protect)
    ensures var s' := EvictRuns(cfg, s, required, protect, cs);
            && CacheExhausted(cfg, s', required, protect)
            && (Used(s') + required <= cfg.maxResultBytes || forall c :: c in cs ==> c.run !in s'.runs)
    decreases |cs|
  {
    hide StoreInv, TrimsWorkspace, Used, ActiveRuns, PruneCache, CacheExhausted;
    if cs != [] && Used(s) + required > cfg.maxResultBytes {
      assert IsCandidate(s, cs[0]);
      DistinctTail(cs);
      EvictOne(cfg, s, required, protect, cs[0]);
      var removed := RemoveRun(s, cs[0].workspace, cs[0].run);
      RemoveRunTrims(cfg, s, cs[0].workspace, cs[0].run);
      PruneExhausts(cfg, removed, required, protect);
      var next := PruneCache(cfg, removed, required, protect);
      EvictsUntilRoom(cfg, next, required, protect, cs[1..]);
      EvictRunsTrims(cfg, next, required, protect, cs[1..]);
    }
  }

  /** There is room, or every cached key is referenced, needed by an active run, or asked for. */
  ghost predicate CacheExhausted(cfg: Settings, s: Store, required: nat, protect: set<SimInput>) {
    || Used(s) + required <= cfg.maxResultBytes
    || forall k :: k in s.cache.entries ==> k in KeptKeys(s.runs) || k in protect
  }

  lemma PruneExhausts(cfg: Settings, s: Store, required: nat, protect: set<SimInput>)
    requires StoreInv(cfg, s)
    ensures CacheExhausted(cfg, PruneCache(cfg, s, required, protect), required, protect)
  {
    hide KeptKeys, Bytes, RunsOk, WorkspacesOk, Ownership, Pruned;
    PruningIsMinimalPrefix(s.cache, required, KeptKeys(s.runs) + protect, Reserved(s), cfg.maxResultBytes);
  }

  /**
   * Making room for a run only ever discards closed runs that are neither pinned, nor baseline, nor latest, the
   * oldest first, and never a result that is named, awaited or asked for; and when there is still not enough room,
   * no such run and no such result is left.
   */
  lemma MakingRoom(cfg: Settings, s: Store, w: nat, keys: seq<SimInput>)
    requires StoreInv(cfg, s) && w in s.workspaces
    ensures var s' := RoomFor(cfg, s, w, keys);
            var required := Reservation(cfg, |Missing(keys, s.cache.entries, 0)|);
            && StoreInv(cfg, s') && Trims(s, s') && Protects(s, s', set k | k in keys)
            && (Used(s') + required > cfg.maxResultBytes ==>
                  && (forall v, r :: v in s'.workspaces && r in s'.workspaces[v].runs ==>
                        !Evictable(s'.workspaces[v], r, s'.runs))
                  && (forall k :: k in s'.cache.entries ==> k in KeptKeys(s'.runs) || k in keys))
  {
    hide StoreInv, TrimsWorkspace, Used, ActiveRuns, PruneCache, CacheExhausted, KeptKeys, Candidates, Evictable;
    var required := Reservation(cfg, |Missing(keys, s.cache.entries, 0)|);
    var protect := set k | k in keys;
    PruneCacheTrims(cfg, s, required, protect);
    PruneExhausts(cfg, s, required, protect);
    var p := PruneCache(cfg, s, required, protect);
    CapacityMade(cfg, p, required, protect);
    var s' := PruneForCapacity(cfg, p, required, protect);
    Unfold(cfg, p);
    TrimsTransitive(cfg, s, p, s');
  }

  lemma CapacityMade(cfg: Settings, p: Store, required: nat, protect: set<SimInput>)
    requires StoreInv(cfg, p) && CacheExhausted(cfg, p, required, protect)
    ensures var s' := PruneForCapacity(cfg, p, required, protect);
            && StoreInv(cfg, s') && Trims(p, s') && Protects(p, s', protect)
            && (Used(s') + required > cfg.maxResultBytes ==>
                  && (forall v, r :: v in s'.workspaces && r in s'.workspaces[v].runs ==>
                        !Evictable(s'.workspaces[v], r, s'.runs))
                  && (forall k :: k in s'.cache.entries ==> k in KeptKeys(s'.runs) || k in protect))
  {
    hide StoreInv, Trims, Protects, Used, CacheExhausted, KeptKeys, Candidates, Evictable;
    Unfold(cfg, p);
    CandidatesAreEvictable(cfg, p);
    EvictRunsTrims(cfg, p, required, protect, Candidates(p));
    EvictsUntilRoom(cfg, p, required, protect, Candidates(p));
    var s' := EvictRuns(cfg, p, required, protect, Candidates(p));
    if Used(s') + required > cfg.maxResultBytes {
      Exhausted(cfg, s', required, protect);
      forall v, r | v in s'.workspaces && r in s'.workspaces[v].runs
        ensures !Evictable(s'.workspaces[v], r, s'.runs)
      {
        NoCandidateLeft(cfg, p, s', v, r);
      }
    }
  }

  lemma Exhausted(cfg: Settings, s: Store, required: nat, protect: set<SimInput>)
    requires CacheExhausted(cfg, s, required, protect) && Used(s) + required > cfg.maxResultBytes
    ensures forall k :: k in s.cache.entries ==> k in KeptKeys(s.runs) || k in protect
  {
  }

  lemma NoCandidateLeft(cfg: Settings, p: Store, s': Store, v: nat, r: nat)
    requires Trims(p, s') && v in s'.workspaces && r in s'.workspaces[v].runs
    requires forall c :: IsCandidate(p, c) ==> c.run !in s'.runs
    ensures !Evictable(s'.workspaces[v], r, s'.runs)
  {
    hide Used, ActiveRuns;
    assert IsCandidate(p, Candidate(v, r)) <==> Evictable(p.workspaces[v], r, p.runs);
  }

  /** Among the candidates, an older run is never spared while a younger one goes. */
  lemma OldestGoesFirst(cfg: Settings, s: Store, required: nat, protect: set<SimInput>, c: Candidate, d: Candidate)
    requires StoreInv(cfg, s) && IsCandidate(s, c) && IsCandidate(s, d)
    requires c.run in s.runs && d.run in s.runs && s.runs[c.run].createdAt < s.runs[d.run].createdAt
    requires d.run !in PruneForCapacity(cfg, s, required, protect).runs
    ensures c.run !in PruneForCapacity(cfg, s, required, protect).runs
  {
    hide StoreInv, IsCandidate, Used, EvictRuns, Candidates, Distinct, OldestFirst;
    hide RunsOk, WorkspacesOk, Ownership, CapacityOk;
    Unfold(cfg, s);
    CandidatesAreEvictable(cfg, s);
    var cs := Candidates(s);
    assert c in cs && d in cs;
    var i :| 0 <= i < |cs| && cs[i] == c;
    var j :| 0 <= j < |cs| && cs[j] == d;
    IndexedByAge(s, cs, i, j);
    EvictsInOrder(cfg, s, required, protect, cs, i, j);
  }

  lemma IndexedByAge(s: Store, cs: seq<Candidate>, i: nat, j: nat)
    requires OldestFirst(s, cs) && i < |cs| && j < |cs| && CreatedAt(s, cs[i]) < CreatedAt(s, cs[j])
    ensures i < j
  {
  }

  /**
   * A request whose results are all cached reserves nothing, and registering it then discards every cached result
   * that is neither named by a run, nor awaited by an active one, nor asked for, however much room there is.
   */
  lemma FullHitPurges(cfg: Settings, s: Store, w: nat, keys: seq<SimInput>)
    requires StoreInv(cfg, s) && w in s.workspaces && Missing(keys, s.cache.entries, 0) == []
    ensures forall k :: k in RoomFor(cfg, s, w, keys).cache.entries <==>
              k in s.cache.entries && (k in KeptKeys(s.runs) || k in keys)
    ensures RoomFor(cfg, s, w, keys).runs == s.runs
  {
    hide StoreInv, Pruned, KeptKeys, Bytes, Missing, TrimsWorkspace, Sum, EvictRuns, Candidates;
    var protect := set k | k in keys;
    Unfold(cfg, s);
    PruneCacheTrims(cfg, s, 0, protect);
    var p := PruneCache(cfg, s, 0, protect);
    CacheShrinks(cfg, s, 0, protect);
    PruningIsMinimalPrefix(s.cache, 0, KeptKeys(s.runs) + protect, Reserved(s), cfg.maxResultBytes);
    RoomAlready(cfg, p, protect);
  }

  lemma RoomAlready(cfg: Settings, p: Store, protect: set<SimInput>)
    requires StoreInv(cfg, p)
    ensures PruneForCapacity(cfg, p, 0, protect) == p
  {
    hide RunsOk, WorkspacesOk, Ownership, Candidates, Used;
  }
}
