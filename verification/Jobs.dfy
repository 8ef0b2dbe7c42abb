/** One job of the simulation service: per-model states and the outcome log. */
module Jobs {
  import opened Common

  datatype ModelState = Queued | Running | Succeeded | Failed | Cancelled {
    predicate Terminal() { Succeeded? || Failed? || Cancelled? }
  }

  datatype JobState = JobQueued | JobRunning | Completed | CompletedWithErrors | JobCancelled {
    predicate Terminal() { Completed? || CompletedWithErrors? || JobCancelled? }
  }

  datatype ErrorCode = RESULT_TOO_LARGE | WORKER_FAILED | MODEL_FAILED | MODEL_TIMEOUT

  datatype ModelError = ModelError(index: nat, code: ErrorCode)

  datatype Outcome = Outcome(
    cursor: nat, index: nat, status: ModelState, result: Option<ResultData>, error: Option<ModelError>)
  {
    /** The shape the wire schema enforces on every outcome it constructs. */
    predicate ValidShape() {
      match status
      case Succeeded => result.Some? && error.None? && result.value.index == index
      case Failed => result.None? && error.Some? && error.value.index == index
      case Cancelled => result.None? && error.None?
      case _ => false
    }
  }

  datatype Job = Job(
    states: seq<ModelState>, status: JobState, outcomes: seq<Outcome>, resultBytes: nat, terminalAt: Option<real>)

  datatype Limits = Limits(
    maxModelOutcomeBytes: nat, maxJobOutcomeBytes: nat, maxRetainedBytes: nat,
    maxRetainedJobs: nat, maxActiveJobs: nat, maxQueuedJobs: nat, jobTtl: real)
  {
    predicate Valid() {
      && maxModelOutcomeBytes > 0 && maxJobOutcomeBytes > 0 && maxRetainedBytes > 0
      && maxRetainedJobs > 0 && maxActiveJobs > 0 && maxQueuedJobs > 0 && jobTtl > 0.0
    }
  }

  /** What a worker hands back for one model: a result, an error, both or neither. */
  datatype Report = Report(result: Option<ResultData>, error: Option<ModelError>)

  function NewJob(n: nat): Job {
    Job(seq(n, _ => Queued), JobQueued, [], 0, None)
  }

  predicate AllTerminal(states: seq<ModelState>) {
    forall i :: 0 <= i < |states| ==> states[i].Terminal()
  }

  // ---------------------------------------------------------------------------------------------
  // Steps

  function StartModel(job: Job, i: nat): (Job, bool)
    requires i < |job.states|
  {
    if job.states[i] != Queued then (job, false)
    else (job.(states := job.states[i := Running], status := JobRunning), true)
  }

  /** Writes a terminal state and appends its outcome with the next cursor. */
  function Record(job: Job, i: nat, status: ModelState, report: Report): Job
    requires i < |job.states|
  {
    job.(states := job.states[i := status],
         outcomes := job.outcomes + [Outcome(|job.outcomes| + 1, i, status, report.result, report.error)])
  }

  function SetTerminal(job: Job, now: real): Job {
    if AllTerminal(job.states) then
      job.(status := if job.status == JobCancelled then JobCancelled
                     else if Failed in job.states then CompletedWithErrors
                     else Completed,
           terminalAt := Some(now))
    else job
  }

  /** The report the store keeps, after its size limits and its default error are applied. */
  function Kept(lim: Limits, retained: nat, job: Job, i: nat, report: Report): Report {
    if report.result.Some? then
      var size := report.result.value.size;
      if size > lim.maxModelOutcomeBytes || job.resultBytes + size > lim.maxJobOutcomeBytes
         || retained + size > lim.maxRetainedBytes
      then Report(None, Some(ModelError(i, RESULT_TOO_LARGE)))
      else report
    else if report.error.None? then Report(None, Some(ModelError(i, WORKER_FAILED)))
    else report
  }

  function KeptStatus(kept: Report): ModelState {
    if kept.result.Some? then Succeeded else Failed
  }

  function KeptBytes(kept: Report): nat {
    if kept.result.Some? then kept.result.value.size else 0
  }

  /** Whether the outcome built from a kept report passes the wire schema; if not, building it raises. */
  predicate Accepted(i: nat, kept: Report) {
    Outcome(1, i, KeptStatus(kept), kept.result, kept.error).ValidShape()
  }

  /** The job once an accepted outcome is counted, recorded, and possibly closes it. */
  function Finished(job: Job, i: nat, kept: Report, now: real): Job
    requires i < |job.states|
  {
    SetTerminal(Record(job.(resultBytes := job.resultBytes + KeptBytes(kept)), i, KeptStatus(kept), kept), now)
  }

  /** Recording the end of a model.  A rejected outcome raises after the state was written, before the log was. */
  function FinishModel(lim: Limits, retained: nat, job: Job, i: nat, report: Report, now: real): Job
    requires i < |job.states|
  {
    if job.states[i].Terminal() then job
    else
      var kept := Kept(lim, retained, job, i, report);
      var counted := job.(resultBytes := job.resultBytes + KeptBytes(kept));
      if Accepted(i, kept) then Finished(job, i, kept, now)
      else counted.(states := job.states[i := KeptStatus(kept)])
  }

  function CancelFrom(job: Job, i: nat): Job
    requires i <= |job.states|
    decreases |job.states| - i
  {
    if i == |job.states| then job
    else if job.states[i].Terminal() then CancelFrom(job, i + 1)
    else CancelFrom(Record(job, i, Cancelled, Report(None, None)), i + 1)
  }

  function Cancel(job: Job, now: real): Job {
    if job.terminalAt.Some? then job
    else CancelFrom(job.(status := JobCancelled), 0).(terminalAt := Some(now))
  }

  // ---------------------------------------------------------------------------------------------
  // Invariant

  ghost predicate Logged(log: seq<Outcome>, i: nat) {
    exists k :: 0 <= k < |log| && log[k].index == i
  }

  function LogBytes(log: seq<Outcome>): nat {
    if log == [] then 0
    else LogBytes(log[..|log| - 1]) + KeptBytes(Report(log[|log| - 1].result, log[|log| - 1].error))
  }

  /** The outcome log is in bijection with the terminal models, in order of cursors 1, 2, ... */
  ghost predicate LogMatches(states: seq<ModelState>, log: seq<Outcome>) {
    && (forall k :: 0 <= k < |log| ==>
          && log[k].cursor == k + 1
          && log[k].index < |states|
          && log[k].status.Terminal()
          && states[log[k].index] == log[k].status
          && log[k].ValidShape())
    && (forall k, l :: 0 <= k < l < |log| ==> log[k].index != log[l].index)
    && (forall i :: 0 <= i < |states| && states[i].Terminal() ==> Logged(log, i))
  }

  /** The final status of a job whose models have all ended. */
  function FinalStatus(states: seq<ModelState>): JobState {
    if Cancelled in states then JobCancelled
    else if Failed in states then CompletedWithErrors
    else Completed
  }

  ghost predicate StatusMatches(job: Job) {
    && (job.terminalAt.Some? <==> AllTerminal(job.states))
    && (job.status.Terminal() <==> AllTerminal(job.states))
    && (AllTerminal(job.states) ==> job.status == FinalStatus(job.states))
    && (!AllTerminal(job.states) ==> Cancelled !in job.states)
    && (job.status == JobQueued ==> Running !in job.states)
  }

  ghost predicate JobInv(job: Job) {
    && |job.states| >= 1
    && LogMatches(job.states, job.outcomes)
    && StatusMatches(job)
    && job.resultBytes == LogBytes(job.outcomes)
  }

  /** The only way a job ever moves: its log grows at the end and what is terminal stays as it is. */
  ghost predicate Extends(old_: Job, new_: Job) {
    && |new_.states| == |old_.states|
    && old_.outcomes <= new_.outcomes
    && (forall i :: 0 <= i < |old_.states| && old_.states[i].Terminal() ==> new_.states[i] == old_.states[i])
    && (old_.terminalAt.Some? ==> new_ == old_)
  }

  lemma ExtendsReflexive(job: Job)
    ensures Extends(job, job)
  {
  }

  lemma OnlyOpenJobsMove(old_: Job, new_: Job)
    requires Extends(old_, new_)
    ensures new_.terminalAt.None? ==> old_.terminalAt.None?
  {
  }

  lemma ExtendsTransitive(a: Job, b: Job, c: Job)
    requires Extends(a, b) && Extends(b, c)
    ensures Extends(a, c)
  {
  }

  lemma NewJobInv(n: nat)
    requires n >= 1
    ensures JobInv(NewJob(n)) && |NewJob(n).states| == n && NewJob(n).outcomes == [] && NewJob(n).resultBytes == 0
    ensures forall i :: 0 <= i < n ==> NewJob(n).states[i] == Queued
    ensures NewJob(n).status == JobQueued
  {
    assert NewJob(n).states[0] == Queued;
  }

  lemma StartModelInv(job: Job, i: nat)
    requires JobInv(job) && i < |job.states|
    ensures JobInv(StartModel(job, i).0) && Extends(job, StartModel(job, i).0)
    ensures var (job', started) := StartModel(job, i);
            && (started <==> job.states[i] == Queued)
            && (started ==> job'.states[i] == Running && job'.status == JobRunning)
            && (!started ==> job' == job)
            && |job'.states| == |job.states| && job'.outcomes == job.outcomes && job'.resultBytes == job.resultBytes
            && forall k :: 0 <= k < |job.states| && k != i ==> job'.states[k] == job.states[k]
  {
    if job.states[i] == Queued {
      var job' := StartModel(job, i).0;
      assert !job'.states[i].Terminal();
      assert forall k :: 0 <= k < |job.outcomes| ==> job.outcomes[k].index != i;
      assert forall k :: 0 <= k < |job.states| ==> job.states[k] in job.states;
    }
  }

  /** Appending an outcome for a model that had none keeps the bijection. */
  lemma RecordKeepsLog(job: Job, i: nat, status: ModelState, report: Report)
    requires i < |job.states| && !job.states[i].Terminal() && status.Terminal()
    requires LogMatches(job.states, job.outcomes)
    requires Outcome(1, i, status, report.result, report.error).ValidShape()
    ensures LogMatches(Record(job, i, status, report).states, Record(job, i, status, report).outcomes)
    ensures LogBytes(Record(job, i, status, report).outcomes) == LogBytes(job.outcomes) + KeptBytes(report)
  {
    var job' := Record(job, i, status, report);
    var log, log' := job.outcomes, job'.outcomes;
    assert forall k :: 0 <= k < |log| ==> log[k].index != i;
    assert log'[..|log'| - 1] == log;
    forall j | 0 <= j < |job'.states| && job'.states[j].Terminal()
      ensures Logged(log', j)
    {
      if j == i {
        assert log'[|log|].index == i;
      } else {
        assert Logged(log, j);
        var k :| 0 <= k < |log| && log[k].index == j;
        assert log'[k].index == j;
      }
    }
  }

  /** A model end keeps the job consistent exactly when its outcome passes the schema, or it was ended already. */
  lemma FinishModelInvIff(lim: Limits, retained: nat, job: Job, i: nat, report: Report, now: real)
    requires JobInv(job) && i < |job.states|
    ensures JobInv(FinishModel(lim, retained, job, i, report, now))
            <==> job.states[i].Terminal() || Accepted(i, Kept(lim, retained, job, i, report))
  {
    if !job.states[i].Terminal() {
      if Accepted(i, Kept(lim, retained, job, i, report)) {
        AcceptedFinish(lim, retained, job, i, report, now);
      } else {
        RejectedFinish(lim, retained, job, i, report, now);
      }
    }
  }

  /** A job that has ended did so at this reading of the clock. */
  ghost predicate EndsNow(job: Job, now: real) {
    job.terminalAt == if forall i :: 0 <= i < |job.states| ==> job.states[i].Terminal() then Some(now) else None
  }

  lemma AcceptedFinish(lim: Limits, retained: nat, job: Job, i: nat, report: Report, now: real)
    requires JobInv(job) && i < |job.states| && !job.states[i].Terminal()
    requires Accepted(i, Kept(lim, retained, job, i, report))
    ensures JobInv(FinishModel(lim, retained, job, i, report, now))
    ensures Extends(job, FinishModel(lim, retained, job, i, report, now))
    ensures EndsNow(FinishModel(lim, retained, job, i, report, now), now)
  {
    FinishedInv(job, i, Kept(lim, retained, job, i, report), now);
  }

  lemma FinishedInv(job: Job, i: nat, kept: Report, now: real)
    requires JobInv(job) && i < |job.states| && !job.states[i].Terminal() && Accepted(i, kept)
    ensures JobInv(Finished(job, i, kept, now)) && Extends(job, Finished(job, i, kept, now))
  {
    var counted := job.(resultBytes := job.resultBytes + KeptBytes(kept));
    var recorded := Record(counted, i, KeptStatus(kept), kept);
    assert Finished(job, i, kept, now) == SetTerminal(recorded, now);
    RecordKeepsLog(counted, i, KeptStatus(kept), kept);
    FinishCloses(job, recorded, i, now);
    hide LogMatches, StatusMatches, Extends, LogBytes;
  }

  lemma FinishCloses(job: Job, recorded: Job, i: nat, now: real)
    requires StatusMatches(job) && i < |job.states| && !job.states[i].Terminal()
    requires recorded.status == job.status && recorded.terminalAt == job.terminalAt
    requires |recorded.states| == |job.states| && recorded.states == job.states[i := recorded.states[i]]
    requires recorded.states[i].Succeeded? || recorded.states[i].Failed?
    requires job.outcomes <= recorded.outcomes
    ensures StatusMatches(SetTerminal(recorded, now)) && Extends(job, SetTerminal(recorded, now))
  {
    FinishStatus(job, recorded, i, now);
  }

  /** A result is stored exactly when it fits all three limits; otherwise the model fails as too large. */
  lemma StoredIffFits(lim: Limits, retained: nat, job: Job, i: nat, report: Report, now: real)
    requires i < |job.states| && !job.states[i].Terminal()
    requires report.result.Some? && report.error.None? && report.result.value.index == i
    ensures var size, job' := report.result.value.size, FinishModel(lim, retained, job, i, report, now);
            && |job'.outcomes| == |job.outcomes| + 1 && job.outcomes <= job'.outcomes
            && var last := job'.outcomes[|job.outcomes|];
            && last.index == i && last.cursor == |job.outcomes| + 1
            && (last.result == report.result && last.status == Succeeded
                && job'.resultBytes == job.resultBytes + size
                <==> size <= lim.maxModelOutcomeBytes && job.resultBytes + size <= lim.maxJobOutcomeBytes
                     && retained + size <= lim.maxRetainedBytes)
            && (last.result.None? ==> last.error == Some(ModelError(i, RESULT_TOO_LARGE))
                                      && job'.resultBytes == job.resultBytes)
  {
  }

  /** The rejected outcome leaves a terminal model that the log does not mention. */
  lemma RejectedFinish(lim: Limits, retained: nat, job: Job, i: nat, report: Report, now: real)
    requires JobInv(job) && i < |job.states| && !job.states[i].Terminal()
    requires !Accepted(i, Kept(lim, retained, job, i, report))
    ensures !LogMatches(FinishModel(lim, retained, job, i, report, now).states, job.outcomes)
    ensures FinishModel(lim, retained, job, i, report, now).outcomes == job.outcomes
  {
    assert FinishModel(lim, retained, job, i, report, now).states[i].Terminal();
    assert !Logged(job.outcomes, i);
  }

  /** A report with both a result and an error, or with another model's index, is such an input. */
  lemma BothOrOtherIsRejected(payload: Payload, now: real)
    ensures var lim, job := Limits(9, 9, 9, 1, 1, 1, 1.0), NewJob(2);
            var both := FinishModel(lim, 0, job, 0, Report(Some(ResultData(0, payload, 5)),
                                                           Some(ModelError(0, MODEL_FAILED))), now);
            var other := FinishModel(lim, 0, job, 0, Report(Some(ResultData(1, payload, 5)), None), now);
            && lim.Valid() && JobInv(job) && !JobInv(both) && !JobInv(other)
            && both.states == other.states == [Succeeded, Queued] && both.outcomes == other.outcomes == []
            && both.resultBytes == other.resultBytes == 5
  {
    var lim, job := Limits(9, 9, 9, 1, 1, 1, 1.0), NewJob(2);
    NewJobInv(2);
    FinishModelInvIff(lim, 0, job, 0, Report(Some(ResultData(0, payload, 5)), Some(ModelError(0, MODEL_FAILED))), now);
    FinishModelInvIff(lim, 0, job, 0, Report(Some(ResultData(1, payload, 5)), None), now);
  }

  lemma FinishStatus(job: Job, recorded: Job, i: nat, now: real)
    requires StatusMatches(job) && i < |job.states| && !job.states[i].Terminal()
    requires recorded.status == job.status && recorded.terminalAt == job.terminalAt
    requires |recorded.states| == |job.states| && recorded.states == job.states[i := recorded.states[i]]
    requires recorded.states[i].Succeeded? || recorded.states[i].Failed?
    ensures StatusMatches(SetTerminal(recorded, now))
  {
    assert !AllTerminal(job.states);
    assert forall k :: 0 <= k < |job.states| ==> job.states[k] in job.states;
  }

  /** Cancelling from an index on touches nothing but the models still open there. */
  lemma {:induction false} CancelFromStates(job: Job, i: nat)
    requires i <= |job.states|
    ensures var job' := CancelFrom(job, i);
            && |job'.states| == |job.states|
            && job' == job.(states := job'.states, outcomes := job'.outcomes)
            && job.outcomes <= job'.outcomes
            && (forall k :: 0 <= k < |job.states| ==>
                  job'.states[k] == if k < i || job.states[k].Terminal() then job.states[k] else Cancelled)
    decreases |job.states| - i
  {
    if i < |job.states| {
      CancelFromStates(if job.states[i].Terminal() then job else Record(job, i, Cancelled, Report(None, None)), i + 1);
    }
  }

  lemma {:induction false} CancelFromLog(job: Job, i: nat)
    requires i <= |job.states| && LogMatches(job.states, job.outcomes)
    ensures var job' := CancelFrom(job, i);
            LogMatches(job'.states, job'.outcomes) && LogBytes(job'.outcomes) == LogBytes(job.outcomes)
    decreases |job.states| - i
  {
    if i < |job.states| {
      if job.states[i].Terminal() {
        CancelFromLog(job, i + 1);
      } else {
        RecordKeepsLog(job, i, Cancelled, Report(None, None));
        CancelFromLog(Record(job, i, Cancelled, Report(None, None)), i + 1);
      }
    }
  }

  lemma CancelInv(job: Job, now: real)
    requires JobInv(job)
    ensures JobInv(Cancel(job, now)) && Extends(job, Cancel(job, now))
    ensures AllTerminal(Cancel(job, now).states)
    ensures Cancel(job, now).terminalAt == if job.terminalAt.Some? then job.terminalAt else Some(now)
    ensures job.terminalAt.None? ==>
              && Cancel(job, now).status == JobCancelled
              && forall k :: 0 <= k < |job.states| ==>
                   Cancel(job, now).states[k] == if job.states[k].Terminal() then job.states[k] else Cancelled
  {
    if job.terminalAt.None? {
      CancelFromStates(job.(status := JobCancelled), 0);
      CancelFromLog(job.(status := JobCancelled), 0);
      var k :| 0 <= k < |job.states| && !job.states[k].Terminal();
      assert Cancel(job, now).states[k] == Cancelled;
    }
  }

  // ---------------------------------------------------------------------------------------------
  // Status counts and pages

  function Count(states: seq<ModelState>, s: ModelState): nat {
    if states == [] then 0
    else Count(states[..|states| - 1], s) + (if states[|states| - 1] == s then 1 else 0)
  }

  lemma {:induction false} CountsSumToTotal(states: seq<ModelState>)
    ensures Count(states, Queued) + Count(states, Running) + Count(states, Succeeded)
            + Count(states, Failed) + Count(states, Cancelled) == |states|
  {
    if states != [] { CountsSumToTotal(states[..|states| - 1]); }
  }

  lemma {:induction false} CountZeroIff(states: seq<ModelState>, s: ModelState)
    ensures Count(states, s) == 0 <==> s !in states
  {
    if states != [] { CountZeroIff(states[..|states| - 1], s); }
  }

  /** The models in a state. */
  ghost function InState(states: seq<ModelState>, s: ModelState): set<nat> {
    set i | 0 <= i < |states| && states[i] == s
  }

  /** The entries of a log with a status. */
  ghost function InLog(log: seq<Outcome>, s: ModelState): set<nat> {
    set k | 0 <= k < |log| && log[k].status == s
  }

  lemma {:induction false} CountIsSize(states: seq<ModelState>, s: ModelState)
    ensures Count(states, s) == |InState(states, s)|
  {
    if states != [] {
      var n := |states| - 1;
      CountIsSize(states[..n], s);
      assert InState(states, s) == InState(states[..n], s) + if states[n] == s then {n} else {};
    }
  }

  /** A set and its image under numbering without repeats are of one size. */
  lemma {:induction false} ImageSize(ks: set<nat>, log: seq<Outcome>, image: set<nat>)
    requires forall k :: k in ks ==> k < |log| && log[k].index in image
    requires forall i :: i in image ==> exists k :: k in ks && log[k].index == i
    requires forall k, l :: 0 <= k < l < |log| ==> log[k].index != log[l].index
    ensures |image| == |ks|
  {
    if ks == {} {
      assert image == {};
    } else {
      var k :| k in ks;
      ImageSize(ks - {k}, log, image - {log[k].index});
    }
  }

  /** As many models have ended in some way as the log has outcomes that say so. */
  lemma LogCounts(job: Job, s: ModelState)
    requires LogMatches(job.states, job.outcomes) && s.Terminal()
    ensures |InLog(job.outcomes, s)| == |InState(job.states, s)|
  {
    var states, log := job.states, job.outcomes;
    forall i | i in InState(states, s) ensures exists k :: k in InLog(log, s) && log[k].index == i {
      assert Logged(log, i);
      var k :| 0 <= k < |log| && log[k].index == i;
      assert k in InLog(log, s);
    }
    ImageSize(InLog(log, s), log, InState(states, s));
  }

  /** A job is terminal exactly when its status report counts no queued and no running model. */
  lemma TerminalIffNothingLeft(job: Job)
    requires JobInv(job)
    ensures job.status.Terminal() <==> Count(job.states, Queued) == 0 && Count(job.states, Running) == 0
  {
    CountZeroIff(job.states, Queued);
    CountZeroIff(job.states, Running);
    if Queued !in job.states && Running !in job.states {
      forall i | 0 <= i < |job.states| ensures job.states[i].Terminal() {
        assert job.states[i] in job.states;
      }
    }
  }

  /** The outcomes after a cursor. */
  function After(log: seq<Outcome>, cursor: nat): seq<Outcome> {
    if log == [] then []
    else
      var init, last := log[..|log| - 1], log[|log| - 1];
      After(init, cursor) + (if last.cursor > cursor then [last] else [])
  }

  /** On a log with cursors 1..n, the outcomes after a cursor are the rest of the log. */
  lemma {:induction false} AfterIsSuffix(log: seq<Outcome>, cursor: nat)
    requires forall k :: 0 <= k < |log| ==> log[k].cursor == k + 1
    ensures After(log, cursor) == if cursor <= |log| then log[cursor..] else []
  {
    if log != [] {
      var init := log[..|log| - 1];
      AfterIsSuffix(init, cursor);
      assert log == init + [log[|log| - 1]];
      assert cursor <= |init| ==> log[cursor..] == init[cursor..] + [log[|log| - 1]];
    }
  }

  lemma AfterSplits(log: seq<Outcome>, m: nat, cursor: nat)
    requires forall k :: 0 <= k < |log| ==> log[k].cursor == k + 1
    requires cursor <= m <= |log|
    ensures After(log[..m], cursor) + After(log, m) == After(log, cursor)
  {
    AfterIsSuffix(log[..m], cursor);
    AfterIsSuffix(log, m);
    AfterIsSuffix(log, cursor);
  }

  /** Two page reads joined at the first one's next cursor give what one later read would have given. */
  lemma PagesConcatenate(early: Job, late: Job, cursor: nat)
    requires JobInv(late) && early.outcomes <= late.outcomes
    requires cursor <= |early.outcomes|
    ensures After(early.outcomes, cursor) + After(late.outcomes, |early.outcomes|) == After(late.outcomes, cursor)
  {
    assert early.outcomes == late.outcomes[..|early.outcomes|];
    AfterSplits(late.outcomes, |early.outcomes|, cursor);
  }

  /** A completed job's log holds one accepted result per model. */
  lemma CompletedMeansAllSucceeded(job: Job)
    requires JobInv(job) && job.status.Terminal()
    ensures job.status == Completed <==> forall i :: 0 <= i < |job.states| ==> job.states[i] == Succeeded
    ensures job.status == CompletedWithErrors <==> Failed in job.states && Cancelled !in job.states
    ensures job.status == JobCancelled <==> Cancelled in job.states
    ensures |job.outcomes| == |job.states|
  {
    AllLogged(job.states, job.outcomes);
    if job.status == Completed {
      forall i | 0 <= i < |job.states| ensures job.states[i] == Succeeded {
        assert job.states[i] in job.states;
      }
    }
  }

  function Indices(log: seq<Outcome>): set<nat> {
    if log == [] then {} else Indices(log[..|log| - 1]) + {log[|log| - 1].index}
  }

  function Below(n: nat): set<nat> {
    if n == 0 then {} else Below(n - 1) + {n - 1}
  }

  lemma {:induction false} IndicesMembers(log: seq<Outcome>)
    ensures forall i :: i in Indices(log) <==> exists k :: 0 <= k < |log| && log[k].index == i
  {
    if log != [] {
      IndicesMembers(log[..|log| - 1]);
    }
  }

  lemma {:induction false} IndicesSize(log: seq<Outcome>)
    requires forall k, l :: 0 <= k < l < |log| ==> log[k].index != log[l].index
    ensures |Indices(log)| == |log|
  {
    if log != [] {
      var init := log[..|log| - 1];
      IndicesSize(init);
      IndicesMembers(init);
    }
  }

  lemma {:induction false} BelowMembers(n: nat)
    ensures forall i :: i in Below(n) <==> 0 <= i < n
    ensures |Below(n)| == n
  {
    if n > 0 { BelowMembers(n - 1); }
  }

  lemma AllLogged(states: seq<ModelState>, log: seq<Outcome>)
    requires LogMatches(states, log) && AllTerminal(states)
    ensures |log| == |states|
  {
    IndicesMembers(log);
    IndicesSize(log);
    BelowMembers(|states|);
    forall i ensures i in Indices(log) <==> i in Below(|states|) {
      assert 0 <= i < |states| ==> Logged(log, i);
    }
    assert Indices(log) == Below(|states|);
  }
}
