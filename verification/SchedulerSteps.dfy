/** How the job store's operations look to the scheduler. */
module SchedulerSteps {
  import opened Common
  import opened Jobs
  import opened JobTable
  import opened ServiceHistory
  import opened Scheduling

  lemma PruneSteps(lim: Limits, t: Table, now: real, j: nat, i: nat)
    requires TableInv(lim, t)
    ensures Steps(t, Prune(lim, t, now), j, i)
  {
    PruneInv(lim, t, now);
    hide JobInv, Extends, TableInv;
  }

  /** Replacing one job's states at one index, or closing all of them, after a prune. */
  lemma PutSteps(lim: Limits, t: Table, now: real, id: nat, job: Job, i: nat)
    requires id in Prune(lim, t, now).jobs && Evolves(t, Put(Prune(lim, t, now), id, job))
    requires |job.states| == |t.jobs[id].states|
    requires forall l :: 0 <= l < |job.states| && l != i ==>
               job.states[l] == t.jobs[id].states[l] || job.states[l].Terminal()
    ensures Steps(t, Put(Prune(lim, t, now), id, job), id, i)
  {
    hide Evolves;
  }

  lemma StartSteps(lim: Limits, t: Table, id: nat, i: nat, now: real)
    requires TableInv(lim, t) && ModelFresh(t, id, i)
    ensures var (t', reply) := Start(lim, t, id, i, now);
            Steps(t, t', id, i) && (reply != Some(true) ==> ModelEnded(t', id, i))
  {
    hide JobInv, Extends, TableInv, Evolves;
    StartInv(lim, t, id, i, now);
    if id in Prune(lim, t, now).jobs {
      PutSteps(lim, t, now, id, StartModel(t.jobs[id], i).0, i);
    } else {
      PruneSteps(lim, t, now, id, i);
    }
  }

  lemma FinishSteps(lim: Limits, t: Table, id: nat, i: nat, report: Report, now: real)
    requires TableInv(lim, t) && (id in t.jobs ==> i < |t.jobs[id].states|) && OwnReport(i, report)
    ensures FinishAccepted(lim, t, id, i, report, now)
    ensures var t' := Finish(lim, t, id, i, report, now).0;
            Steps(t, t', id, i) && ModelEnded(t', id, i)
  {
    hide JobInv, Extends, TableInv, Evolves, Kept, Accepted;
    var p := Prune(lim, t, now);
    if id in p.jobs {
      OwnReportAccepted(lim, RetainedBytes(p), p.jobs[id], i, report);
      FinishInv(lim, t, id, i, report, now);
      FinishedStates(lim, RetainedBytes(p), t.jobs[id], i, report, now);
      hide FinishModel;
      PutSteps(lim, t, now, id, FinishModel(lim, RetainedBytes(p), t.jobs[id], i, report, now), i);
    } else {
      PruneSteps(lim, t, now, id, i);
    }
  }

  lemma FinishedStates(lim: Limits, retained: nat, job: Job, i: nat, report: Report, now: real)
    requires i < |job.states|
    ensures var job' := FinishModel(lim, retained, job, i, report, now);
            && |job'.states| == |job.states| && job'.states[i].Terminal()
            && forall l :: 0 <= l < |job.states| && l != i ==> job'.states[l] == job.states[l]
  {
    hide Kept, Accepted;
  }

  lemma CancelSteps(lim: Limits, t: Table, id: nat, now: real, j: nat, i: nat)
    requires TableInv(lim, t)
    ensures var (t', found) := CancelJob(lim, t, id, now);
            && Steps(t, t', j, i) && Ended(t', id) && (!found ==> id !in t'.jobs)
  {
    hide JobInv, Extends, TableInv, Evolves;
    CancelJobInv(lim, t, id, now);
    if id in Prune(lim, t, now).jobs {
      CancelledStates(t.jobs[id], now);
      hide Cancel;
      PutSteps(lim, t, now, id, Cancel(t.jobs[id], now), |t.jobs[id].states|);
      StepsAnywhere(t, CancelJob(lim, t, id, now).0, id, |t.jobs[id].states|, j, i);
    } else {
      PruneSteps(lim, t, now, j, i);
    }
  }

  lemma StepsAnywhere(t: Table, t': Table, k: nat, n: nat, j: nat, i: nat)
    requires Steps(t, t', k, n) && k in t.jobs && n == |t.jobs[k].states|
    ensures Steps(t, t', j, i)
  {
    hide Evolves;
    forall m, l | m in t.jobs && m in t'.jobs && 0 <= l < |t.jobs[m].states|
      ensures t'.jobs[m].states[l] == t.jobs[m].states[l] || t'.jobs[m].states[l].Terminal()
    {
      assert m != k || l != n;
    }
  }

  lemma CancelledStates(job: Job, now: real)
    ensures var job' := Cancel(job, now);
            && |job'.states| == |job.states|
            && forall l :: 0 <= l < |job.states| ==> job'.states[l] == job.states[l] || job'.states[l].Terminal()
  {
    if job.terminalAt.None? { CancelFromStates(job.(status := JobCancelled), 0); }
  }

  lemma ReserveSteps(lim: Limits, t: Table, n: nat, sub: Option<SubmissionId>, fp: JobRequest, now: real, later: real,
                     j: nat, i: nat)
    requires TableInv(lim, t) && n >= 1
    ensures Steps(t, Reserve(lim, t, n, sub, fp, now, later).0, j, i)
  {
    hide JobInv, Extends, Full, TableInv;
    ReserveInv(lim, t, n, sub, fp, now, later);
    FreshIdOf(lim, t);
    hide Evolves;
  }

  lemma FreshIdOf(lim: Limits, t: Table)
    requires TableInv(lim, t)
    ensures t.nextId !in t.jobs
  {
    hide JobInv;
  }

  lemma EndedStays(t: Table, t': Table, j: nat)
    requires Evolves(t, t') && j < t.nextId && Ended(t, j)
    ensures Ended(t', j)
  {
  }
}
