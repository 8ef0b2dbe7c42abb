/** The store as the service runs it: one table behind a lock, changed in place. */
module JobStore {
  import opened Common
  import opened Sums
  import opened Jobs
  import opened JobTable

  class InMemoryJobStore {
    const limits: Limits
    var jobs: map<nat, Job>
    var submissions: map<SubmissionId, Entry>
    var nextId: nat

    ghost function State(): Table
      reads this
    {
      Table(jobs, submissions, nextId)
    }

    ghost predicate Valid()
      reads this
    {
      limits.Valid() && TableInv(limits, State())
    }

    constructor (limits: Limits)
      requires limits.Valid()
      ensures Valid() && State() == EmptyTable() && this.limits == limits
    {
      this.limits := limits;
      jobs, submissions, nextId := map[], map[], 0;
    }

    method PruneJobs(now: real)
      requires Valid()
      modifies this
      ensures Valid() && State() == Prune(limits, old(State()), now) && Evolves(old(State()), State())
      ensures forall id :: id in jobs <==> id in old(jobs) && Lives(limits, old(jobs[id]), now)
      ensures forall id :: id in jobs ==> jobs[id] == old(jobs[id])
    {
      hide TableInv, Evolves;
      ghost var t := State();
      PruneInv(limits, t, now);
      PruneRemovesExpired(limits, t, now);
      var expired := set id | id in jobs && Expired(limits, jobs[id], now);
      while expired != {}
        invariant forall id :: id in expired ==> id in t.jobs && Expired(limits, t.jobs[id], now)
        invariant forall id :: id in jobs <==> id in t.jobs && (!Expired(limits, t.jobs[id], now) || id in expired)
        invariant forall id :: id in jobs ==> jobs[id] == t.jobs[id]
        invariant submissions == t.submissions && nextId == t.nextId
        decreases expired
      {
        var id :| id in expired;
        jobs := jobs - {id};
        expired := expired - {id};
      }
      assert jobs == Prune(limits, t, now).jobs;
      submissions := map s | s in submissions && submissions[s].job in jobs :: submissions[s];
    }

    method Create(n: nat, now: real) returns (id: Option<nat>)
      requires Valid() && n >= 1
      modifies this
      ensures Valid() && Evolves(old(State()), State())
      ensures (State(), id) == JobTable.Create(limits, old(State()), n, now)
    {
      hide TableInv, Evolves;
      CreateInv(limits, State(), n, now);
      PruneJobs(now);
      if |jobs| >= limits.maxRetainedJobs
         || Sum(jobs, JobBytes, nextId) >= limits.maxRetainedBytes
         || Sum(jobs, OpenJobs, nextId) >= limits.maxActiveJobs + limits.maxQueuedJobs
      {
        return None;
      }
      id := Some(nextId);
      jobs := jobs[nextId := NewJob(n)];
      nextId := nextId + 1;
    }

    method Reserve(n: nat, sub: Option<SubmissionId>, fp: JobRequest, now: real, later: real) returns (r: Reservation)
      requires Valid() && n >= 1
      modifies this
      ensures Valid() && Evolves(old(State()), State())
      ensures (State(), r) == JobTable.Reserve(limits, old(State()), n, sub, fp, now, later)
      ensures sub.Some? && sub.value in old(submissions) && Lives(limits, old(jobs[submissions[sub.value].job]), now) ==>
                r == if old(submissions[sub.value]).fingerprint == fp
                     then Reserved(old(submissions[sub.value]).job, false) else SubmissionConflict
    {
      hide TableInv, Evolves;
      ReserveInv(limits, State(), n, sub, fp, now, later);
      PruneRemovesExpired(limits, State(), now);
      PruneJobs(now);
      if sub.Some? && sub.value in submissions {
        var entry := submissions[sub.value];
        if entry.fingerprint != fp {
          return SubmissionConflict;
        }
        return Reserved(entry.job, false);
      }
      var id := Create(n, later);
      if id.None? {
        return CapacityExceeded;
      }
      if sub.Some? {
        submissions := submissions[sub.value := Entry(fp, id.value)];
      }
      r := Reserved(id.value, true);
    }

    /** None when the job is unknown or has been ended for its time to live. */
    method Status(id: nat, now: real) returns (r: Option<StatusReport>)
      requires Valid()
      modifies this
      ensures Valid() && State() == Prune(limits, old(State()), now) && Evolves(old(State()), State())
      ensures r.Some? <==> id in old(jobs) && Lives(limits, old(jobs[id]), now)
      ensures r.Some? ==> id in jobs && jobs[id] == old(jobs[id]) && r.value == StatusOf(jobs[id])
      ensures r.Some? ==> Reports(r.value, jobs[id]) && SpeaksTruly(r.value)
    {
      hide JobInv, Extends;
      PruneJobs(now);
      if id !in jobs {
        return None;
      }
      ReportIsTrue(jobs[id]);
      r := Some(StatusOf(jobs[id]));
    }

    /** The part of the log after the cursor, and the cursor to ask from next. */
    method GetPage(id: nat, after: nat, now: real) returns (r: Option<Page>)
      requires Valid()
      modifies this
      ensures Valid() && State() == Prune(limits, old(State()), now) && Evolves(old(State()), State())
      ensures r.Some? <==> id in old(jobs) && Lives(limits, old(jobs[id]), now)
      ensures r.Some? ==> id in jobs && jobs[id] == old(jobs[id])
      ensures r.Some? && after <= |jobs[id].outcomes| ==>
                r.value == Page(jobs[id].outcomes[after..], |jobs[id].outcomes|)
    {
      hide Extends;
      PruneJobs(now);
      if id !in jobs {
        return None;
      }
      assert JobInv(jobs[id]);
      var log := jobs[id].outcomes;
      AfterIsSuffix(log, after);
      var outcomes := OutcomesAfter(log, after);
      r := Some(Page(outcomes, |log|));
    }

    static method OutcomesAfter(log: seq<Outcome>, after: nat) returns (outcomes: seq<Outcome>)
      ensures outcomes == After(log, after)
    {
      outcomes := [];
      for k := 0 to |log|
        invariant outcomes == After(log[..k], after)
      {
        assert log[..k + 1][..k] == log[..k];
        if log[k].cursor > after {
          outcomes := outcomes + [log[k]];
        }
      }
      assert log[..|log|] == log;
    }

    method Start(id: nat, i: nat, now: real) returns (r: Option<bool>)
      requires Valid() && (id in jobs ==> i < |jobs[id].states|)
      modifies this
      ensures Valid() && Evolves(old(State()), State())
      ensures (State(), r) == JobTable.Start(limits, old(State()), id, i, now)
      ensures r.Some? <==> id in old(jobs) && Lives(limits, old(jobs[id]), now)
    {
      hide TableInv, Evolves;
      StartInv(limits, State(), id, i, now);
      PruneJobs(now);
      if id !in jobs {
        return None;
      }
      var job := jobs[id];
      if job.states[i] != Queued {
        assert jobs[id := job] == jobs;
        return Some(false);
      }
      jobs := jobs[id := job.(states := job.states[i := Running], status := JobRunning)];
      r := Some(true);
    }

    /** A report the schema rejects raises half way; every other report leaves the store consistent. */
    method Finish(id: nat, i: nat, report: Report, now: real) returns (found: bool, raised: bool)
      requires Valid() && (id in jobs ==> i < |jobs[id].states|)
      modifies this
      ensures (State(), found) == JobTable.Finish(limits, old(State()), id, i, report, now)
      ensures found <==> id in old(jobs) && Lives(limits, old(jobs[id]), now)
      ensures raised <==> !FinishAccepted(limits, old(State()), id, i, report, now)
      ensures !raised ==> Valid() && Evolves(old(State()), State())
      ensures raised ==> !Valid()
    {
      hide JobInv, Extends;
      ghost var t := State();
      PruneJobs(now);
      ghost var p := State();
      if id !in jobs {
        return false, false;
      }
      var job := jobs[id];
      if job.states[i].Terminal() {
        assert jobs[id := job] == jobs;
        return true, false;
      }
      var result, error := KeptReport(limits, Sum(jobs, JobBytes, nextId), job, i, report);
      if result.Some? {
        job := job.(resultBytes := job.resultBytes + result.value.size);
      }
      var status := if result.Some? then Succeeded else Failed;
      var outcome := Outcome(|job.outcomes| + 1, i, status, result, error);
      job := job.(states := job.states[i := status]);
      if !outcome.ValidShape() {
        jobs := jobs[id := job];
        FinishModelInvIff(limits, RetainedBytes(p), p.jobs[id], i, report, now);
        assert jobs[id] == FinishModel(limits, RetainedBytes(p), p.jobs[id], i, report, now);
        return true, true;
      }
      job := job.(outcomes := job.outcomes + [outcome]);
      job := CloseIfDone(job, now);
      jobs := jobs[id := job];
      FinishInv(limits, t, id, i, report, now);
      return true, false;
    }

    /** The size limits and the default error. */
    static method KeptReport(limits: Limits, retained: nat, job: Job, i: nat, report: Report)
      returns (result: Option<ResultData>, error: Option<ModelError>)
      ensures Report(result, error) == Kept(limits, retained, job, i, report)
    {
      result, error := report.result, report.error;
      if result.Some? {
        var size := result.value.size;
        if size > limits.maxModelOutcomeBytes
           || job.resultBytes + size > limits.maxJobOutcomeBytes
           || retained + size > limits.maxRetainedBytes
        {
          result, error := None, Some(ModelError(i, RESULT_TOO_LARGE));
        }
      }
      if result.None? && error.None? {
        error := Some(ModelError(i, WORKER_FAILED));
      }
    }

    static method CloseIfDone(job: Job, now: real) returns (closed: Job)
      ensures closed == SetTerminal(job, now)
    {
      closed := job;
      var done, anyFailed := true, false;
      for k := 0 to |job.states|
        invariant done <==> forall i :: 0 <= i < k ==> job.states[i].Terminal()
        invariant anyFailed <==> Failed in job.states[..k]
      {
        if !job.states[k].Terminal() { done := false; }
        if job.states[k] == Failed { anyFailed := true; }
      }
      assert job.states[..|job.states|] == job.states;
      if done {
        if closed.status != JobCancelled {
          closed := closed.(status := if anyFailed then CompletedWithErrors else Completed);
        }
        closed := closed.(terminalAt := Some(now));
      }
    }

    method Cancel(id: nat, now: real) returns (found: bool)
      requires Valid()
      modifies this
      ensures Valid() && Evolves(old(State()), State())
      ensures (State(), found) == CancelJob(limits, old(State()), id, now)
      ensures found <==> id in old(jobs) && Lives(limits, old(jobs[id]), now)
    {
      hide TableInv, Evolves;
      CancelJobInv(limits, State(), id, now);
      PruneJobs(now);
      if id !in jobs {
        return false;
      }
      var job := jobs[id];
      if job.terminalAt.Some? {
        assert jobs[id := job] == jobs;
        return true;
      }
      job := job.(status := JobCancelled);
      ghost var start := job;
      for i := 0 to |job.states|
        invariant |job.states| == |start.states|
        invariant CancelFrom(job, i) == CancelFrom(start, 0)
      {
        if !job.states[i].Terminal() {
          job := job.(states := job.states[i := Cancelled],
                      outcomes := job.outcomes + [Outcome(|job.outcomes| + 1, i, Cancelled, None, None)]);
        }
      }
      job := job.(terminalAt := Some(now));
      jobs := jobs[id := job];
      found := true;
    }
  }
}
