/** Applying a page, losing a reply, starting, failing and closing a run keep the system's invariant. */
module ProtocolClosing {
  import opened Common
  import opened Jobs
  import opened JobTable
  import opened ServiceHistory
  import opened ExecuteSteps
  import opened RunSteps
  import opened WorkspaceInvariant
  import opened Protocol
  import opened ProtocolInvariant
  import opened ProtocolSteps
  import W = Workspaces

  // ---------------------------------------------------------------------------------------------
  // Outcomes only

  lemma OutcomesAdvance(a: W.Run, b: W.Run)
    requires OutcomesOnly(a, b) && a.Active()
    ensures RunAdvances(a, b) && b.Active()
  {
  }

  lemma OutcomesKept(a: W.Run, b: W.Run)
    requires OutcomesOnly(a, b)
    ensures forall m: nat, status :: OutcomeIs(a, m, status) ==> OutcomeIs(b, m, status)
    ensures forall o :: RecordedAs(a, o) ==> RecordedAs(b, o)
    ensures HitsDone(a) ==> HitsDone(b)
    ensures RequestOf(b) == RequestOf(a)
  {
    RequestSame(a, b);
  }

  /** Outcomes recorded before an executor failed stay recorded. */
  lemma PartialLinked(a: W.Run, e: Exec, b: W.Run, sv: Service, request: JobRequest, sim: Simulator,
                      error: W.AppError)
    requires Linked(a, e, sv, request, sim) && !e.Absent? && OutcomesOnly(a, b) && Expected(error)
    ensures Linked(b, AtFailure(error), sv, request, sim)
  {
    OutcomesKept(a, b);
    hide OutcomeIs, RequestOf, HitsDone, HitsSucceeded, NothingYet, NoFurther, PageOk, KeepsOutcomes;
  }

  // ---------------------------------------------------------------------------------------------
  // Applying a page

  /** The run once the whole page is recorded and the cursor moved behind it. */
  lemma PageRecorded(a: W.Run, b: W.Run, seen: JobState, page: Page, sv: Service, request: JobRequest, sim: Simulator)
    requires Linked(a, GotPage(seen, page), sv, request, sim)
    requires OutcomesOnly(a, b) && PageOnly(a, b, page.outcomes)
    requires forall k :: 0 <= k < |page.outcomes| ==> RecordedAs(b, page.outcomes[k])
    ensures Linked(b.(serviceCursor := page.nextCursor), AtLoop, sv, request, sim)
  {
    var c := b.(serviceCursor := page.nextCursor);
    OutcomesKept(a, b);
    RecordedHits(a, b, c, page.outcomes);
    RequestSame(b, c);
    RecordedJob(a, b, c, page, sv, request);
    hide OutcomeIs, RequestOf, HitsDone, HitsSucceeded, NothingYet, NoFurther, Follows, KeepsOutcomes, PageOnly;
    hide JobLink, PageOk;
    assert a.Active();
  }

  lemma RecordedHits(a: W.Run, b: W.Run, c: W.Run, page: seq<Outcome>)
    requires OutcomesOnly(a, b) && PageOnly(a, b, page) && SameOutcomeList(b, c)
    ensures HitsSucceeded(a) ==> HitsSucceeded(c)
    ensures HitsDone(a) ==> HitsDone(c)
  {
  }

  ghost predicate SameOutcomeList(b: W.Run, c: W.Run) {
    c.outcomes == b.outcomes && c.serviceIndices == b.serviceIndices
  }

  lemma SameList(b: W.Run, c: W.Run)
    requires SameOutcomeList(b, c)
    ensures forall m: nat :: Open(b, m) == Open(c, m)
    ensures forall m: nat, status :: OutcomeIs(b, m, status) == OutcomeIs(c, m, status)
    ensures forall o :: RecordedAs(b, o) == RecordedAs(c, o)
  {
  }

  lemma RecordedJob(a: W.Run, b: W.Run, c: W.Run, page: Page, sv: Service, request: JobRequest)
    requires JobLink(a, false, sv, request) && a.jobId.Some?
    requires a.jobId.value in sv.table.jobs ==> PageFrom(a, page, sv.table.jobs[a.jobId.value])
    requires OutcomesOnly(a, b) && PageOnly(a, b, page.outcomes) && c == b.(serviceCursor := page.nextCursor)
    requires forall k :: 0 <= k < |page.outcomes| ==> RecordedAs(b, page.outcomes[k])
    ensures JobLink(c, false, sv, request)
  {
    if a.jobId.value in sv.table.jobs {
      var job := sv.table.jobs[a.jobId.value];
      OutcomesKept(a, b);
      SameList(b, c);
      hide OutcomeIs, RequestOf, Open;
      RecordedFollows(a, c, page, job);
      forall m: nat | m < |c.serviceIndices| && !InPage(job.outcomes[..c.serviceCursor], m) ensures Open(c, m) {
        SplitPages(job.outcomes, a.serviceCursor, page.nextCursor, m);
        assert Open(a, m) && !InPage(page.outcomes, m);
      }
    }
  }

  lemma RecordedFollows(a: W.Run, c: W.Run, page: Page, job: Job)
    requires Follows(a, job) && PageFrom(a, page, job) && c.serviceCursor == page.nextCursor
    requires forall o :: RecordedAs(a, o) ==> RecordedAs(c, o)
    requires forall k :: 0 <= k < |page.outcomes| ==> RecordedAs(c, page.outcomes[k])
    ensures Follows(c, job)
  {
    hide OutcomeIs;
    forall k | 0 <= k < c.serviceCursor ensures RecordedAs(c, job.outcomes[k]) {
      if k >= a.serviceCursor { assert page.outcomes[k - a.serviceCursor] == job.outcomes[k]; }
    }
  }

  lemma SplitPages(log: seq<Outcome>, from: nat, to: nat, m: nat)
    requires from <= to <= |log| && !InPage(log[..to], m)
    ensures !InPage(log[..from], m) && !InPage(log[from..to], m)
  {
    forall k | 0 <= k < from ensures log[..from][k].index != m { assert log[..to][k].index != m; }
    forall k | 0 <= k < to - from ensures log[from..to][k].index != m { assert log[..to][from + k].index != m; }
  }

  /** After the last page of an ended job no outcome is missing, and the run's state says what they are. */
  lemma NothingMissing(a: W.Run, b: W.Run, seen: JobState, page: seq<Outcome>)
    requires exists states :: ClosesAs(a, seen, page, states)
    requires OutcomesOnly(a, b) && HitsDone(b) && HitsSucceeded(b) && seen.Terminal()
    requires forall k :: 0 <= k < |page| ==> RecordedAs(b, page[k])
    requires forall m :: 0 <= m < |a.serviceIndices| ==> a.serviceIndices[m] < |a.outcomes|
    ensures AllComplete(b) && Verdict(b.(state := RunStateOf(seen)))
  {
    var states :| ClosesAs(a, seen, page, states);
    OutcomesKept(a, b);
    forall m | 0 <= m < |states| ensures OutcomeIs(b, m, states[m]) {
      if !OutcomeIs(a, m, states[m]) {
        var k :| 0 <= k < |page| && page[k].index == m && page[k].status == states[m];
        assert RecordedAs(b, page[k]);
      }
    }
    hide ClosesAs, OutcomesOnly, RequestOf;
    ClosedAs(a, b, seen, page, states);
  }

  lemma ClosedAs(a: W.Run, b: W.Run, seen: JobState, page: seq<Outcome>, states: seq<ModelState>)
    requires |states| == |b.serviceIndices| && AllTerminal(states) && seen == FinalStatus(states)
    requires HitsDone(b) && HitsSucceeded(b)
    requires forall m :: 0 <= m < |states| ==> OutcomeIs(b, m, states[m])
    ensures AllComplete(b) && Verdict(b.(state := RunStateOf(seen)))
  {
    forall i | 0 <= i < |b.outcomes|
      ensures b.outcomes[i].cursor > 0
      ensures b.outcomes[i].status == Succeeded || b.outcomes[i].status in states
    {
      if i in b.serviceIndices {
        var m :| 0 <= m < |b.serviceIndices| && b.serviceIndices[m] == i;
        assert OutcomeIs(b, m, states[m]);
        assert b.outcomes[i].status == states[m];
      }
    }
    assert forall m :: 0 <= m < |states| ==> states[m].Terminal();
    if seen == CompletedWithErrors {
      var m :| 0 <= m < |states| && states[m] == Failed;
      assert OutcomeIs(b, m, states[m]);
      assert b.outcomes[b.serviceIndices[m]].status == Failed;
    } else if seen == JobCancelled {
      var m :| 0 <= m < |states| && states[m] == Cancelled;
      assert OutcomeIs(b, m, states[m]);
      assert b.outcomes[b.serviceIndices[m]].status == Cancelled;
    }
  }

  lemma PageFacts(run: W.Run, seen: JobState, page: Page, sv: Service, request: JobRequest, sim: Simulator)
    requires Linked(run, GotPage(seen, page), sv, request, sim)
    ensures run.Active() && Fresh(run, page.outcomes, sim) && run.serviceCursor <= page.nextCursor
    ensures forall k :: 0 <= k < |page.outcomes| ==> Open(run, page.outcomes[k].index)
    ensures seen.Terminal() ==> exists states :: ClosesAs(run, seen, page.outcomes, states)
    ensures HitsDone(run) && HitsSucceeded(run)
  {
    hide JobLink, RequestOf, Fresh, Open, ClosesAs;
  }

  lemma Undisturbed(run: W.Run, sv: Service, request: JobRequest, sim: Simulator)
    requires Linked(run, AtLoop, sv, request, sim)
    ensures HitsDone(run) && HitsSucceeded(run) && run.Active()
  {
    hide JobLink, RequestOf;
  }

  /** A run that goes on from the loop under another open state. */
  lemma LoopLinked(run: W.Run, state: W.RunState, sv: Service, request: JobRequest, sim: Simulator)
    requires Linked(run, AtLoop, sv, request, sim) && !state.Terminal()
    ensures Linked(run.(state := state), AtLoop, sv, request, sim)
  {
    hide JobLink, HitsSucceeded, HitsDone, RequestOf;
    Relink(run, AtLoop, run.(state := state), AtLoop, sv, request, sim);
  }

  /** Applying a page never finds an outcome missing or an index out of range; only an over-size result can fail it. */
  lemma ApplyInv(cfg: Setup, x: World, w: nat, r: nat)
    requires Inv(cfg, x) && RunOf(x.app, w, r) && ExecOf(x, r).GotPage?
    ensures var (s, e) := Applied(cfg, x.app, w, r, ExecOf(x, r).seen, ExecOf(x, r).page);
            var y := x.(app := s, exec := x.exec[r := e]);
            Inv(cfg, y) && Advances(x, y)
            && (e.AtFailure? ==> e.error == W.RESULT_TOO_LARGE)
  {
    hide Inv, Advances, Linked, RunAdvances, ApplyPage, Sound, OnlyRun, PageOnly, OutcomesOnly, Fresh, Open, AfterPage;
    hide ClosesAs, HitsDone, HitsSucceeded, OutcomeIs;
    var seen, page := ExecOf(x, r).seen, ExecOf(x, r).page;
    LinkedAt(cfg, x, r);
    SoundOf(cfg, x);
    PageFacts(x.app.runs[r], seen, page, x.service, x.sent[r], cfg.sim);
    ApplyPageSound(cfg.settings, x.app, r, page.outcomes, cfg.sim);
    var (s, e) := ApplyPage(cfg.settings, x.app, r, page.outcomes);
    OnlyRunGives(x.app, s, r);
    OutcomesAdvance(x.app.runs[r], s.runs[r]);
    if e.Some? {
      PartialLinked(x.app.runs[r], ExecOf(x, r), s.runs[r], x.service, x.sent[r], cfg.sim, e.value);
      RunStepInv(cfg, x, x.(app := s, exec := x.exec[r := AtFailure(e.value)]), r);
    } else {
      AfterPageInv(cfg, x, s, w, r);
    }
  }

  lemma AfterPageInv(cfg: Setup, x: World, s: W.Store, w: nat, r: nat)
    requires Inv(cfg, x) && RunOf(x.app, w, r) && ExecOf(x, r).GotPage? && OnlyRun(x.app, s, r)
    requires Sound(cfg.settings, s, cfg.sim) && PageOnly(x.app.runs[r], s.runs[r], ExecOf(x, r).page.outcomes)
    requires forall k :: 0 <= k < |ExecOf(x, r).page.outcomes| ==>
               RecordedAs(s.runs[r], ExecOf(x, r).page.outcomes[k])
    ensures var (s', e) := AfterPage(s, w, r, ExecOf(x, r).seen, ExecOf(x, r).page);
            var y := x.(app := s', exec := x.exec[r := e]);
            Inv(cfg, y) && Advances(x, y) && !e.AtFailure?
  {
    hide Inv, Advances, Linked, RunAdvances, Sound, OnlyRun, PageOnly, OutcomesOnly, Fresh, Open, AllComplete;
    hide ClosesAs, HitsDone, HitsSucceeded, OutcomeIs, CloseRun, Verdict;
    var seen, page := ExecOf(x, r).seen, ExecOf(x, r).page;
    LinkedAt(cfg, x, r);
    PageFacts(x.app.runs[r], seen, page, x.service, x.sent[r], cfg.sim);
    OnlyRunGives(x.app, s, r);
    PageRecorded(x.app.runs[r], s.runs[r], seen, page, x.service, x.sent[r], cfg.sim);
    SameIdentity(x.app, s, r);
    var run := s.runs[r].(serviceCursor := page.nextCursor);
    Undisturbed(run, x.service, x.sent[r], cfg.sim);
    if !seen.Terminal() {
      GoesOn(cfg, x, s, r, run, if run.cancelRequested then W.Cancelling else RunStateOf(seen));
    } else {
      SoundOf(cfg, x);
      LengthsOf(cfg.settings, x.app, r, cfg.sim);
      PageClosesRun(x.app.runs[r], s.runs[r], run, seen, page.outcomes);
      LoopToHits(run, x.service, x.sent[r], cfg.sim);
      ClosedStep(cfg, x, s, w, r, run, RunStateOf(seen));
    }
  }

  /** A run that has read a page and goes on, in some state that is not final. */
  lemma GoesOn(cfg: Setup, x: World, s: W.Store, r: nat, run: W.Run, state: W.RunState)
    requires Inv(cfg, x) && r in x.app.runs && r in x.sent && OnlyRun(x.app, s, r) && Sound(cfg.settings, s, cfg.sim)
    requires x.app.runs[r].Active() && run == s.runs[r].(serviceCursor := run.serviceCursor) && !state.Terminal()
    requires s.runs[r].serviceCursor <= run.serviceCursor && run.Active()
    requires Linked(run, AtLoop, x.service, x.sent[r], cfg.sim)
    ensures var y := x.(app := s.(runs := s.runs[r := run.(state := state)]), exec := x.exec[r := AtLoop]);
            Inv(cfg, y) && Advances(x, y)
  {
    hide Inv, Advances, Linked, Sound, OnlyRun;
    LoopLinked(run, state, x.service, x.sent[r], cfg.sim);
    MovedStep(cfg, x, s, r, run.(state := state), AtLoop);
  }

  lemma PageClosesRun(a: W.Run, b: W.Run, run: W.Run, seen: JobState, page: seq<Outcome>)
    requires exists states :: ClosesAs(a, seen, page, states)
    requires OutcomesOnly(a, b) && SameOutcomeList(b, run) && HitsDone(run) && HitsSucceeded(run) && seen.Terminal()
    requires forall k :: 0 <= k < |page| ==> RecordedAs(b, page[k])
    requires forall m :: 0 <= m < |a.serviceIndices| ==> a.serviceIndices[m] < |a.outcomes|
    ensures AllComplete(run) && Verdict(run.(state := RunStateOf(seen)))
  {
    Recorded(b, run);
    hide OutcomesOnly, HitsDone, HitsSucceeded, OutcomeIs, ClosesAs;
    NothingMissing(a, b, seen, page);
    CompleteSame(b, run, RunStateOf(seen));
  }

  lemma Recorded(b: W.Run, run: W.Run)
    requires SameOutcomeList(b, run) && HitsDone(run) && HitsSucceeded(run)
    ensures HitsDone(b) && HitsSucceeded(b)
  {
  }

  lemma CompleteSame(b: W.Run, run: W.Run, state: W.RunState)
    requires run.outcomes == b.outcomes && AllComplete(b) && Verdict(b.(state := state))
    ensures AllComplete(run) && Verdict(run.(state := state))
  {
  }

  lemma OnlyRunGives(s: W.Store, s': W.Store, r: nat)
    requires OnlyRun(s, s', r)
    ensures r in s.runs && r in s'.runs && OutcomesOnly(s.runs[r], s'.runs[r])
    ensures s'.runs == s.runs[r := s'.runs[r]] && s'.nextRun == s.nextRun && s'.workspaces == s.workspaces
  {
  }

  /** Outcomes recorded, then bookkeeping on the run, seen as one step of the system. */
  lemma MovedStep(cfg: Setup, x: World, s: W.Store, r: nat, run: W.Run, e: Exec)
    requires Inv(cfg, x) && r in x.app.runs && r in x.sent && OnlyRun(x.app, s, r) && Sound(cfg.settings, s, cfg.sim)
    requires x.app.runs[r].Active() && Moves(s.runs[r], run) && s.runs[r].serviceCursor <= run.serviceCursor
    requires run.jobId == s.runs[r].jobId && run.cancelRequested == s.runs[r].cancelRequested
    requires Linked(run, e, x.service, x.sent[r], cfg.sim)
    ensures var y := x.(app := s.(runs := s.runs[r := run]), exec := x.exec[r := e]);
            Inv(cfg, y) && Advances(x, y)
  {
    hide Inv, Advances, Linked, RunAdvances, StoreInv, OnlyRun, OutcomesOnly;
    OnlyRunGives(x.app, s, r);
    MoveInv(cfg.settings, s, r, run);
    OutcomesAdvance(x.app.runs[r], s.runs[r]);
    MovesAdvance(s.runs[r], run);
    RunAdvancesTransitive(x.app.runs[r], s.runs[r], run);
    RunStepInv(cfg, x, x.(app := s.(runs := s.runs[r := run]), exec := x.exec[r := e]), r);
  }

  lemma ClosedAdvance(a: W.Run, run: W.Run, state: W.RunState)
    requires RunAdvances(a, run) && a.Active()
    ensures RunAdvances(a, run.(state := state, reservation := 0))
  {
  }

  lemma CloseGives(s: W.Store, w: nat, r: nat, state: W.RunState)
    requires w in s.workspaces && r in s.runs
    ensures var c := CloseRun(s, w, r, state);
            && c.runs == s.runs[r := s.runs[r].(state := state, reservation := 0)]
            && c.nextRun == s.nextRun && c.cache == s.cache
  {
    hide W.FinishRun;
    CloseIs(s, w, r, state);
  }

  /** Closing a run whose last outcome has just been recorded. */
  lemma ClosedStep(cfg: Setup, x: World, s: W.Store, w: nat, r: nat, run: W.Run, state: W.RunState)
    requires Inv(cfg, x) && RunOf(x.app, w, r) && r in x.sent && OnlyRun(x.app, s, r) && Sound(cfg.settings, s, cfg.sim)
    requires x.app.runs[r].Active() && state.Terminal() && state != W.Failed
    requires run == s.runs[r].(serviceCursor := run.serviceCursor) && s.runs[r].serviceCursor <= run.serviceCursor
    requires Linked(run, AtHits, x.service, x.sent[r], cfg.sim)
    requires AllComplete(run) && Verdict(run.(state := state))
    ensures var y := x.(app := CloseRun(s.(runs := s.runs[r := run]), w, r, state), exec := x.exec[r := Absent]);
            Inv(cfg, y) && Advances(x, y)
  {
    hide Inv, Advances, Linked, RunAdvances, StoreInv, OnlyRun, OutcomesOnly, AllComplete, Close, Verdict;
    OnlyRunGives(x.app, s, r);
    OutcomesAdvance(x.app.runs[r], s.runs[r]);
    MovesAdvance(s.runs[r], run);
    RunAdvancesTransitive(x.app.runs[r], s.runs[r], run);
    MoveInv(cfg.settings, s, r, run);
    var moved := s.(runs := s.runs[r := run]);
    CloseInv(cfg.settings, moved, w, r, state);
    CloseGives(moved, w, r, state);
    ClosedAdvance(x.app.runs[r], run, state);
    ClosedLinked(run, state, x.service, x.sent[r], cfg.sim);
    var y := x.(app := CloseRun(moved, w, r, state), exec := x.exec[r := Absent]);
    assert y.app.runs == x.app.runs[r := run.(state := state, reservation := 0)];
    RunStepInv(cfg, x, y, r);
  }

  lemma ClosedLinked(run: W.Run, state: W.RunState, sv: Service, request: JobRequest, sim: Simulator)
    requires Linked(run, AtHits, sv, request, sim) && state.Terminal() && state != W.Failed
    requires Verdict(run.(state := state))
    ensures Linked(run.(state := state, reservation := 0), Absent, sv, request, sim)
  {
    var closed := run.(state := state, reservation := 0);
    RequestSame(run, closed);
    SameJobLink(run, closed, false, false, sv, request);
    SameOutcomes(run, closed);
    hide JobLink, HitsSucceeded, HitsDone, RequestOf, SameProgress;
  }

  lemma LoopToHits(run: W.Run, sv: Service, request: JobRequest, sim: Simulator)
    requires Linked(run, AtLoop, sv, request, sim)
    ensures Linked(run, AtHits, sv, request, sim)
  {
    hide JobLink, HitsSucceeded, HitsDone, RequestOf;
  }

  // ---------------------------------------------------------------------------------------------
  // Starting

  lemma HitsLinked(a: W.Run, b: W.Run, sv: Service, request: JobRequest, sim: Simulator)
    requires Linked(a, AtHits, sv, request, sim) && OutcomesOnly(a, b) && HitsOnly(a, b)
    ensures Linked(b, AtHits, sv, request, sim)
    ensures HitsDone(b) ==> Linked(b, AtLoop, sv, request, sim)
  {
    OutcomesKept(a, b);
    HitsKeepOpen(a, b);
    HitsStaySucceeded(a, b);
    hide OutcomeIs, Open, RequestOf, HitsDone, HitsSucceeded, KeepsOutcomes, HitsOnly, InPage;
  }

  lemma HitsStaySucceeded(a: W.Run, b: W.Run)
    requires HitsOnly(a, b) && HitsSucceeded(a) && b.serviceIndices == a.serviceIndices
    ensures HitsSucceeded(b)
  {
  }

  lemma HitsKeepOpen(a: W.Run, b: W.Run)
    requires HitsOnly(a, b) && b.serviceIndices == a.serviceIndices
    ensures forall m: nat :: Open(a, m) ==> Open(b, m)
  {
  }

  lemma AllHits(run: W.Run)
    requires run.serviceIndices == [] && HitsSucceeded(run)
    requires forall i :: 0 <= i < |run.outcomes| ==> run.outcomes[i].cursor > 0
    ensures AllComplete(run) && Verdict(run.(state := W.Completed))
  {
  }

  lemma HitsSucceededAt(run: W.Run, sv: Service, request: JobRequest, sim: Simulator)
    requires Linked(run, AtHits, sv, request, sim)
    ensures HitsSucceeded(run) && run.Active()
  {
    hide JobLink, RequestOf, HitsDone;
  }

  /** A launched run first completes its cache hits; if that is all, it closes as completed. */
  lemma BeginInv(cfg: Setup, x: World, w: nat, r: nat, bodyFits: bool)
    requires Inv(cfg, x) && RunOf(x.app, w, r) && ExecOf(x, r).AtHits?
    ensures Inv(cfg, BeginRun(cfg, x, w, r, bodyFits)) && Advances(x, BeginRun(cfg, x, w, r, bodyFits))
  {
    hide Inv, Advances, Linked, RunAdvances, CompleteHits, Sound, OnlyRun, OutcomesOnly, AllComplete, HitsOnly;
    hide HitsSucceeded, HitsDone, CloseRun, Verdict;
    LinkedAt(cfg, x, r);
    SoundOf(cfg, x);
    var a := x.app.runs[r];
    HitsSucceededAt(a, x.service, x.sent[r], cfg.sim);
    CompleteHitsSound(cfg.settings, x.app, r, 0, |a.cacheKeys|, cfg.sim);
    var (s, e) := CompleteHits(cfg.settings, x.app, r, 0, |a.cacheKeys|);
    OnlyRunGives(x.app, s, r);
    var b := s.runs[r];
    OutcomesAdvance(a, b);
    if e.Some? || (a.serviceIndices != [] && !bodyFits) {
      var error := if e.Some? then e.value else W.BODY_TOO_LARGE;
      PartialLinked(a, AtHits, b, x.service, x.sent[r], cfg.sim, error);
      RunStepInv(cfg, x, x.(app := s, exec := x.exec[r := AtFailure(error)]), r);
    } else {
      HitsLinked(a, b, x.service, x.sent[r], cfg.sim);
      LengthsOf(cfg.settings, s, r, cfg.sim);
      SameIdentity(x.app, s, r);
      if a.serviceIndices == [] {
        HitsSucceededAt(b, x.service, x.sent[r], cfg.sim);
        AllHits(b);
        assert s.(runs := s.runs[r := b]) == s by { assert s.runs[r := b] == s.runs; }
        ClosedStep(cfg, x, s, w, r, b, W.Completed);
      } else {
        HitsAllDone(b);
        RunStepInv(cfg, x, x.(app := s, exec := x.exec[r := AtLoop]), r);
      }
    }
  }

  lemma HitsAllDone(run: W.Run)
    requires run.serviceIndices != []
    requires forall i :: 0 <= i < |run.outcomes| && i !in run.serviceIndices ==> run.outcomes[i].cursor > 0
    ensures HitsDone(run)
  {
  }

  // ---------------------------------------------------------------------------------------------
  // Failing

  lemma FailedOnly(a: W.Run, b: W.Run)
    requires b == a.(outcomes := b.outcomes, lastCursor := b.lastCursor) && |b.outcomes| == |a.outcomes|
    requires forall k :: 0 <= k < |a.outcomes| && a.outcomes[k].cursor > 0 ==> b.outcomes[k] == a.outcomes[k]
    requires forall k :: 0 <= k < |a.outcomes| && a.outcomes[k].cursor == 0 ==>
               b.outcomes[k].scenario == a.outcomes[k].scenario
    ensures OutcomesOnly(a, b)
  {
  }

  lemma FailedLinked(b: W.Run, error: W.AppError, sv: Service, request: JobRequest, sim: Simulator)
    requires Linked(b, AtFailure(error), sv, request, sim)
    ensures Linked(b.(state := W.Failed, reservation := 0), Absent, sv, request, sim)
  {
    var closed := b.(state := W.Failed, reservation := 0);
    RequestSame(b, closed);
    SameJobLink(b, closed, true, true, sv, request);
    hide JobLink, HitsSucceeded, HitsDone, RequestOf;
  }

  lemma ExpectedAt(run: W.Run, error: W.AppError, sv: Service, request: JobRequest, sim: Simulator)
    requires Linked(run, AtFailure(error), sv, request, sim)
    ensures Expected(error) && run.Active()
  {
    hide JobLink, HitsSucceeded, HitsDone, RequestOf;
  }

  /** A failing run keeps what succeeded before, marks the rest as failed, and closes. */
  lemma FailInv(cfg: Setup, x: World, w: nat, r: nat)
    requires Inv(cfg, x) && RunOf(x.app, w, r) && ExecOf(x, r).AtFailure?
    ensures var y := FailRun(x, w, r, ExecOf(x, r).error);
            Inv(cfg, y) && Advances(x, y)
  {
    hide Inv, Advances, Linked, RunAdvances, StoreInv, RunOk, FailOpen, OutcomesOnly, AllComplete, Close;
    var error := ExecOf(x, r).error;
    LinkedAt(cfg, x, r);
    SoundOf(cfg, x);
    var a := x.app.runs[r];
    ExpectedAt(a, error, x.service, x.sent[r], cfg.sim);
    RunAt(cfg.settings, x.app, r);
    FailOpenRunOk(cfg.settings, a, 0, error);
    FailOpenInv(cfg.settings, x.app, r, error);
    var b := FailOpen(a, 0, error);
    var s := x.app.(runs := x.app.runs[r := b]);
    FailedOnly(a, b);
    PartialLinked(a, AtFailure(error), b, x.service, x.sent[r], cfg.sim, error);
    FailedLinked(b, error, x.service, x.sent[r], cfg.sim);
    CloseInv(cfg.settings, s, w, r, W.Failed);
    CloseGives(s, w, r, W.Failed);
    OutcomesAdvance(a, b);
    ClosedAdvance(a, b, W.Failed);
    var y := FailRun(x, w, r, error);
    assert y.app.runs == x.app.runs[r := b.(state := W.Failed, reservation := 0)];
    RunStepInv(cfg, x, y, r);
  }

  // ---------------------------------------------------------------------------------------------
  // Losing a reply; users

  lemma RetryLinked(a: W.Run, e: Exec, b: W.Run, sv: Service, request: JobRequest, sim: Simulator)
    requires Linked(a, e, sv, request, sim) && Waits(e) && SameProgress(a, b) && b.Active()
    ensures Linked(b, AtLoop, sv, request, sim) && Linked(b, Absent, sv, request, sim)
  {
    hide JobLink, HitsSucceeded, HitsDone, RequestOf, PageOk;
    SameHits(a, b);
    Relink(a, e, b, AtLoop, sv, request, sim);
    Relink(a, e, b, Absent, sv, request, sim);
  }

  /** A lost request or reply leaves the run to be tried again, now or after it is resumed. */
  lemma UnavailableInv(cfg: Setup, x: World, r: nat, pause: bool)
    requires Inv(cfg, x) && r in x.app.runs && Waits(ExecOf(x, r))
    ensures Inv(cfg, LoseReply(x, r, pause)) && Advances(x, LoseReply(x, r, pause))
  {
    hide Inv, Advances, Linked, RunAdvances;
    LinkedAt(cfg, x, r);
    var a := x.app.runs[r];
    ActiveAt(a, ExecOf(x, r), x.service, x.sent[r], cfg.sim);
    var b := a.(state := W.Reconnecting, retryPaused := a.retryPaused || pause);
    RetryLinked(a, ExecOf(x, r), b, x.service, x.sent[r], cfg.sim);
    MovesAdvance(a, b);
    SetRunStep(cfg, x, r, b, if pause then Absent else AtLoop);
  }

  lemma RelabelLinked(a: W.Run, e: Exec, b: W.Run, sv: Service, request: JobRequest, sim: Simulator)
    requires Linked(a, e, sv, request, sim) && SameProgress(a, b) && a.Active() && b.Active()
    ensures Linked(b, if e.Absent? then AtHits else e, sv, request, sim)
    ensures Linked(b, e, sv, request, sim)
  {
    hide JobLink, HitsSucceeded, HitsDone, RequestOf, PageOk;
    Relink(a, e, b, e, sv, request, sim);
    if e.Absent? { Relink(a, e, b, AtHits, sv, request, sim); }
  }

  lemma CancelByUserInv(cfg: Setup, x: World, w: nat, r: nat, supersede: bool)
    requires Inv(cfg, x)
    ensures Inv(cfg, CancelByUser(x, w, r, supersede)) && Advances(x, CancelByUser(x, w, r, supersede))
  {
    hide Inv, Advances, Linked, RunAdvances;
    if RunOf(x.app, w, r) && x.app.runs[r].Active() {
      LinkedAt(cfg, x, r);
      var a := x.app.runs[r];
      var b := a.(superseded := a.superseded || supersede, cancelRequested := true, state := W.Cancelling);
      if ExecOf(x, r).Absent? {
        var c := b.(retryPaused := false);
        RelabelLinked(a, Absent, c, x.service, x.sent[r], cfg.sim);
        MovesAdvance(a, c);
        SetRunStep(cfg, x, r, c, AtHits);
      } else {
        RelabelLinked(a, ExecOf(x, r), b, x.service, x.sent[r], cfg.sim);
        MovesAdvance(a, b);
        SetRunStep(cfg, x, r, b, ExecOf(x, r));
      }
    } else {
      NothingHappens(cfg, x);
    }
  }

  lemma NothingHappens(cfg: Setup, x: World)
    requires Inv(cfg, x)
    ensures Advances(x, x)
  {
    hide Inv, RunAdvances, Moved;
    MovedReflexive(x.service);
    forall r | r in x.app.runs ensures RunAdvances(x.app.runs[r], x.app.runs[r]) {
      RunAdvancesReflexive(x.app.runs[r]);
    }
  }

  lemma ResumeByUserInv(cfg: Setup, x: World, w: nat, r: nat)
    requires Inv(cfg, x)
    ensures Inv(cfg, ResumeByUser(x, w, r)) && Advances(x, ResumeByUser(x, w, r))
  {
    hide Inv, Advances, Linked, RunAdvances;
    if RunOf(x.app, w, r) && x.app.runs[r].Active() && ExecOf(x, r).Absent? {
      LinkedAt(cfg, x, r);
      var a := x.app.runs[r];
      var b := a.(retryPaused := false);
      RelabelLinked(a, Absent, b, x.service, x.sent[r], cfg.sim);
      MovesAdvance(a, b);
      SetRunStep(cfg, x, r, b, AtHits);
    } else {
      NothingHappens(cfg, x);
    }
  }
}
