/** The service's job table: capacity, deduplicated submissions, byte budgets and expiry. */
module JobTable {
  import opened Common
  import opened Sums
  import opened Jobs

  /** A run derives its submission id injectively from its own id; other clients choose theirs. */
  datatype SubmissionId = OfRun(run: nat) | Other(id: nat)

  datatype Entry = Entry(fingerprint: JobRequest, job: nat)

  /** Job ids are numbered in order of creation: only their freshness is used. */
  datatype Table = Table(jobs: map<nat, Job>, submissions: map<SubmissionId, Entry>, nextId: nat)

  datatype Reservation = Reserved(job: nat, created: bool) | SubmissionConflict | CapacityExceeded

  datatype StatusReport = StatusReport(
    status: JobState, total: nat, queued: nat, running: nat, succeeded: nat, failed: nat, cancelled: nat,
    lastCursor: nat)

  datatype Page = Page(outcomes: seq<Outcome>, nextCursor: nat)

  function EmptyTable(): Table { Table(map[], map[], 0) }

  predicate Expired(lim: Limits, job: Job, now: real) {
    job.terminalAt.Some? && now - job.terminalAt.value >= lim.jobTtl
  }

  function JobBytes(job: Job): nat { job.resultBytes }

  function OpenJobs(job: Job): nat { if job.terminalAt.None? then 1 else 0 }

  function RetainedBytes(t: Table): nat { Sum(t.jobs, JobBytes, t.nextId) }

  function NonTerminal(t: Table): nat { Sum(t.jobs, OpenJobs, t.nextId) }

  // ---------------------------------------------------------------------------------------------
  // Operations

  function Prune(lim: Limits, t: Table, now: real): Table {
    var jobs := map id | id in t.jobs && !Expired(lim, t.jobs[id], now) :: t.jobs[id];
    Table(jobs, map s | s in t.submissions && t.submissions[s].job in jobs :: t.submissions[s], t.nextId)
  }

  predicate Full(lim: Limits, t: Table) {
    || |t.jobs| >= lim.maxRetainedJobs
    || RetainedBytes(t) >= lim.maxRetainedBytes
    || NonTerminal(t) >= lim.maxActiveJobs + lim.maxQueuedJobs
  }

  function Insert(t: Table, n: nat): Table {
    t.(jobs := t.jobs[t.nextId := NewJob(n)], nextId := t.nextId + 1)
  }

  function Create(lim: Limits, t: Table, n: nat, now: real): (Table, Option<nat>) {
    var p := Prune(lim, t, now);
    if Full(lim, p) then (p, None) else (Insert(p, n), Some(p.nextId))
  }

  /** The clock is read once for the lookup and again when a job is created. */
  function Reserve(lim: Limits, t: Table, n: nat, sub: Option<SubmissionId>, fp: JobRequest, now: real, later: real)
    : (Table, Reservation)
  {
    var p := Prune(lim, t, now);
    if sub.Some? && sub.value in p.submissions then
      if p.submissions[sub.value].fingerprint != fp then (p, SubmissionConflict)
      else (p, Reserved(p.submissions[sub.value].job, false))
    else
      var (c, id) := Create(lim, p, n, later);
      if id.None? then (c, CapacityExceeded)
      else if sub.None? then (c, Reserved(id.value, true))
      else (c.(submissions := c.submissions[sub.value := Entry(fp, id.value)]), Reserved(id.value, true))
  }

  function Put(t: Table, id: nat, job: Job): Table { t.(jobs := t.jobs[id := job]) }

  function Start(lim: Limits, t: Table, id: nat, i: nat, now: real): (Table, Option<bool>)
    requires id in t.jobs ==> i < |t.jobs[id].states|
  {
    var p := Prune(lim, t, now);
    if id !in p.jobs then (p, None)
    else
      var (job, started) := StartModel(p.jobs[id], i);
      (Put(p, id, job), Some(started))
  }

  function Finish(lim: Limits, t: Table, id: nat, i: nat, report: Report, now: real): (Table, bool)
    requires id in t.jobs ==> i < |t.jobs[id].states|
  {
    var p := Prune(lim, t, now);
    if id !in p.jobs then (p, false)
    else (Put(p, id, FinishModel(lim, RetainedBytes(p), p.jobs[id], i, report, now)), true)
  }

  function CancelJob(lim: Limits, t: Table, id: nat, now: real): (Table, bool) {
    var p := Prune(lim, t, now);
    if id !in p.jobs then (p, false) else (Put(p, id, Cancel(p.jobs[id], now)), true)
  }

  function StatusOf(job: Job): StatusReport {
    StatusReport(job.status, |job.states|, Count(job.states, Queued), Count(job.states, Running),
                 Count(job.states, Succeeded), Count(job.states, Failed), Count(job.states, Cancelled),
                 |job.outcomes|)
  }

  function PageOf(job: Job, after: nat): Page { Page(After(job.outcomes, after), |job.outcomes|) }

  // ---------------------------------------------------------------------------------------------
  // Invariant

  ghost predicate JobsOk(lim: Limits, t: Table) {
    forall id :: id in t.jobs ==>
      id < t.nextId && JobInv(t.jobs[id]) && t.jobs[id].resultBytes <= lim.maxJobOutcomeBytes
  }

  ghost predicate SubmissionsOk(t: Table) {
    && (forall s :: s in t.submissions ==> t.submissions[s].job in t.jobs)
    && (forall r, s :: r in t.submissions && s in t.submissions && r != s ==>
          t.submissions[r].job != t.submissions[s].job)
  }

  ghost predicate CapacityOk(lim: Limits, t: Table) {
    && |t.jobs| <= lim.maxRetainedJobs
    && RetainedBytes(t) <= lim.maxRetainedBytes
    && NonTerminal(t) <= lim.maxActiveJobs + lim.maxQueuedJobs
  }

  ghost predicate TableInv(lim: Limits, t: Table) {
    JobsOk(lim, t) && SubmissionsOk(t) && CapacityOk(lim, t)
  }

  /** No job moves except by extension, no id is used twice, and a removed job stays removed. */
  ghost predicate Evolves(old_: Table, new_: Table) {
    && old_.nextId <= new_.nextId
    && (forall id :: id in new_.jobs ==>
          if id in old_.jobs then Extends(old_.jobs[id], new_.jobs[id]) else old_.nextId <= id)
  }

  lemma EvolvesTransitive(a: Table, b: Table, c: Table)
    requires Evolves(a, b) && Evolves(b, c)
    requires forall id :: id in a.jobs ==> id < a.nextId
    ensures Evolves(a, c)
  {
    hide JobInv, Extends;
    forall id | id in c.jobs
      ensures if id in a.jobs then Extends(a.jobs[id], c.jobs[id]) else a.nextId <= id
    {
      if id in a.jobs && id in b.jobs {
        ExtendsTransitive(a.jobs[id], b.jobs[id], c.jobs[id]);
      }
    }
  }

  /** Pruning removes exactly the expired jobs, hence no job that still has work. */
  lemma PruneInv(lim: Limits, t: Table, now: real)
    requires TableInv(lim, t)
    ensures TableInv(lim, Prune(lim, t, now)) && Evolves(t, Prune(lim, t, now))
  {
    hide JobInv, Extends, CapacityOk;
    PruneCapacity(lim, t, now);
    forall id | id in Prune(lim, t, now).jobs ensures Extends(t.jobs[id], t.jobs[id]) {
      ExtendsReflexive(t.jobs[id]);
    }
  }

  /** A job is kept as long as it has work left and, once it ended, until its time to live is over. */
  ghost predicate Lives(lim: Limits, job: Job, now: real) {
    job.terminalAt.Some? ==> now < job.terminalAt.value + lim.jobTtl
  }

  /** Any reading of the clock removes exactly the jobs that ended at least a time to live before, with their names. */
  lemma PruneRemovesExpired(lim: Limits, t: Table, now: real)
    requires TableInv(lim, t)
    ensures var p := Prune(lim, t, now);
            && (forall id :: id in p.jobs <==> id in t.jobs && Lives(lim, t.jobs[id], now))
            && (forall id :: id in p.jobs ==> p.jobs[id] == t.jobs[id])
            && (forall s :: s in p.submissions <==> s in t.submissions && Lives(lim, t.jobs[t.submissions[s].job], now))
            && (forall s :: s in p.submissions ==> p.submissions[s] == t.submissions[s])
    ensures forall id :: id in t.jobs && !t.jobs[id].status.Terminal() ==> id in Prune(lim, t, now).jobs
  {
    forall id | id in t.jobs && !t.jobs[id].status.Terminal() ensures id in Prune(lim, t, now).jobs {
      assert StatusMatches(t.jobs[id]);
    }
  }

  lemma PruneCapacity(lim: Limits, t: Table, now: real)
    requires CapacityOk(lim, t)
    ensures CapacityOk(lim, Prune(lim, t, now))
  {
    var p := Prune(lim, t, now);
    SumLe(p.jobs, t.jobs, JobBytes, t.nextId);
    SumLe(p.jobs, t.jobs, OpenJobs, t.nextId);
    SubsetSize(p.jobs.Keys, t.jobs.Keys);
    assert |p.jobs.Keys| == |p.jobs| && |t.jobs.Keys| == |t.jobs|;
  }

  lemma {:induction false} SubsetSize(a: set<nat>, b: set<nat>)
    requires a <= b
    ensures |a| <= |b|
  {
    if a != {} {
      var x :| x in a;
      SubsetSize(a - {x}, b - {x});
    }
  }

  lemma InsertInv(lim: Limits, t: Table, n: nat)
    requires TableInv(lim, t) && !Full(lim, t) && n >= 1
    ensures TableInv(lim, Insert(t, n)) && Evolves(t, Insert(t, n))
  {
    hide JobInv, Extends, CapacityOk, Full;
    NewJobInv(n);
    InsertCapacity(lim, t, n);
    forall id | id in t.jobs ensures Extends(t.jobs[id], t.jobs[id]) {
      ExtendsReflexive(t.jobs[id]);
    }
  }

  lemma InsertCapacity(lim: Limits, t: Table, n: nat)
    requires CapacityOk(lim, t) && !Full(lim, t) && t.nextId !in t.jobs
    ensures CapacityOk(lim, Insert(t, n))
  {
    var jobs := t.jobs[t.nextId := NewJob(n)];
    SumSame(t.jobs, jobs, JobBytes, t.nextId);
    SumSame(t.jobs, jobs, OpenJobs, t.nextId);
    assert jobs.Keys == t.jobs.Keys + {t.nextId};
    assert |jobs.Keys| == |jobs| && |t.jobs.Keys| == |t.jobs|;
  }

  /** Replacing a job by an extension of it that stays within the byte budgets keeps the table consistent. */
  lemma PutInv(lim: Limits, t: Table, id: nat, job: Job)
    requires TableInv(lim, t) && id in t.jobs
    requires JobInv(job) && Extends(t.jobs[id], job)
    requires job.resultBytes <= lim.maxJobOutcomeBytes
    requires RetainedBytes(t) - t.jobs[id].resultBytes + job.resultBytes <= lim.maxRetainedBytes
    ensures TableInv(lim, Put(t, id, job)) && Evolves(t, Put(t, id, job))
  {
    hide JobInv, Extends, CapacityOk, RetainedBytes;
    OnlyOpenJobsMove(t.jobs[id], job);
    PutCapacity(lim, t, id, job);
    forall k | k in t.jobs ensures Extends(t.jobs[k], t.jobs[k]) {
      ExtendsReflexive(t.jobs[k]);
    }
  }

  lemma PutCapacity(lim: Limits, t: Table, id: nat, job: Job)
    requires CapacityOk(lim, t) && id in t.jobs && id < t.nextId
    requires job.terminalAt.None? ==> t.jobs[id].terminalAt.None?
    requires RetainedBytes(t) - t.jobs[id].resultBytes + job.resultBytes <= lim.maxRetainedBytes
    ensures CapacityOk(lim, Put(t, id, job))
  {
    var t' := Put(t, id, job);
    SumChange(t.jobs, t'.jobs, JobBytes, t.nextId, id);
    SumChange(t.jobs, t'.jobs, OpenJobs, t.nextId, id);
    assert t'.jobs.Keys == t.jobs.Keys;
    assert |t'.jobs.Keys| == |t'.jobs| && |t.jobs.Keys| == |t.jobs|;
  }

  // ---------------------------------------------------------------------------------------------
  // Every operation keeps the invariant and only extends jobs

  lemma CreateInv(lim: Limits, t: Table, n: nat, now: real)
    requires TableInv(lim, t) && n >= 1
    ensures TableInv(lim, Create(lim, t, n, now).0) && Evolves(t, Create(lim, t, n, now).0)
  {
    hide JobInv, Extends, CapacityOk, Full;
    var p := Prune(lim, t, now);
    PruneInv(lim, t, now);
    if !Full(lim, p) {
      InsertInv(lim, p, n);
      EvolvesTransitive(t, p, Insert(p, n));
    }
  }

  lemma ReserveInv(lim: Limits, t: Table, n: nat, sub: Option<SubmissionId>, fp: JobRequest, now: real, later: real)
    requires TableInv(lim, t) && n >= 1
    ensures TableInv(lim, Reserve(lim, t, n, sub, fp, now, later).0)
    ensures Evolves(t, Reserve(lim, t, n, sub, fp, now, later).0)
  {
    hide JobInv, Extends, CapacityOk, Full, Prune;
    var p := Prune(lim, t, now);
    PruneInv(lim, t, now);
    if !(sub.Some? && sub.value in p.submissions) {
      CreateInv(lim, p, n, later);
      var (c, id) := Create(lim, p, n, later);
      EvolvesTransitive(t, p, c);
      if id.Some? && sub.Some? {
        PruneInv(lim, p, later);
        NameInv(lim, Prune(lim, p, later), n, sub.value, fp);
      }
    }
  }

  /** Naming a job right after its creation keeps submission ids and jobs one to one. */
  lemma NameInv(lim: Limits, t: Table, n: nat, sub: SubmissionId, fp: JobRequest)
    requires TableInv(lim, t) && TableInv(lim, Insert(t, n))
    ensures var c := Insert(t, n);
            TableInv(lim, c.(submissions := c.submissions[sub := Entry(fp, t.nextId)]))
  {
    hide JobInv, CapacityOk, RetainedBytes, NonTerminal;
    var c := Insert(t, n);
    var d := c.(submissions := c.submissions[sub := Entry(fp, t.nextId)]);
    assert CapacityOk(lim, d) by { SameJobsCapacity(lim, c, d); }
  }

  lemma SameJobsCapacity(lim: Limits, c: Table, d: Table)
    requires CapacityOk(lim, c) && d.jobs == c.jobs && d.nextId == c.nextId
    ensures CapacityOk(lim, d)
  {
  }

  lemma StartInv(lim: Limits, t: Table, id: nat, i: nat, now: real)
    requires TableInv(lim, t) && (id in t.jobs ==> i < |t.jobs[id].states|)
    ensures TableInv(lim, Start(lim, t, id, i, now).0) && Evolves(t, Start(lim, t, id, i, now).0)
  {
    hide JobInv, Extends, CapacityOk;
    var p := Prune(lim, t, now);
    PruneInv(lim, t, now);
    if id in p.jobs {
      StartModelInv(p.jobs[id], i);
      PutWithinBudget(lim, p, id, StartModel(p.jobs[id], i).0);
      EvolvesTransitive(t, p, Put(p, id, StartModel(p.jobs[id], i).0));
    }
  }

  lemma PutWithinBudget(lim: Limits, p: Table, id: nat, job: Job)
    requires TableInv(lim, p) && id in p.jobs
    requires JobInv(job) && Extends(p.jobs[id], job) && job.resultBytes == p.jobs[id].resultBytes
    ensures TableInv(lim, Put(p, id, job)) && Evolves(p, Put(p, id, job))
  {
    hide JobInv, Extends;
    PutInv(lim, p, id, job);
  }

  /** Whether the outcome the store would build for this report passes the wire schema. */
  ghost predicate FinishAccepted(lim: Limits, t: Table, id: nat, i: nat, report: Report, now: real)
    requires id in t.jobs ==> i < |t.jobs[id].states|
  {
    var p := Prune(lim, t, now);
    id in p.jobs ==>
      p.jobs[id].states[i].Terminal() || Accepted(i, Kept(lim, RetainedBytes(p), p.jobs[id], i, report))
  }

  lemma FinishInv(lim: Limits, t: Table, id: nat, i: nat, report: Report, now: real)
    requires TableInv(lim, t) && (id in t.jobs ==> i < |t.jobs[id].states|)
    requires FinishAccepted(lim, t, id, i, report, now)
    ensures TableInv(lim, Finish(lim, t, id, i, report, now).0)
    ensures Evolves(t, Finish(lim, t, id, i, report, now).0)
    ensures id in Finish(lim, t, id, i, report, now).0.jobs ==>
              Finish(lim, t, id, i, report, now).0.jobs[id].states[i].Terminal()
  {
    hide JobInv, Extends, CapacityOk, FinishModel;
    var p := Prune(lim, t, now);
    PruneInv(lim, t, now);
    if id in p.jobs {
      var job := FinishModel(lim, RetainedBytes(p), p.jobs[id], i, report, now);
      FinishExtends(lim, RetainedBytes(p), p.jobs[id], i, report, now);
      FinishWithinBudget(lim, p, id, i, report, now);
      PutInv(lim, p, id, job);
      EvolvesTransitive(t, p, Put(p, id, job));
    }
  }

  lemma FinishExtends(lim: Limits, retained: nat, job: Job, i: nat, report: Report, now: real)
    requires JobInv(job) && i < |job.states|
    requires job.states[i].Terminal() || Accepted(i, Kept(lim, retained, job, i, report))
    ensures JobInv(FinishModel(lim, retained, job, i, report, now))
    ensures Extends(job, FinishModel(lim, retained, job, i, report, now))
  {
    hide JobInv, Extends;
    if job.states[i].Terminal() {
      ExtendsReflexive(job);
    } else {
      AcceptedFinish(lim, retained, job, i, report, now);
    }
  }

  lemma FinishWithinBudget(lim: Limits, p: Table, id: nat, i: nat, report: Report, now: real)
    requires CapacityOk(lim, p) && id in p.jobs && i < |p.jobs[id].states|
    requires p.jobs[id].resultBytes <= lim.maxJobOutcomeBytes
    ensures var job := FinishModel(lim, RetainedBytes(p), p.jobs[id], i, report, now);
            && job.resultBytes <= lim.maxJobOutcomeBytes
            && RetainedBytes(p) - p.jobs[id].resultBytes + job.resultBytes <= lim.maxRetainedBytes
            && |job.states| == |p.jobs[id].states| && job.states[i].Terminal()
  {
  }

  lemma CancelJobInv(lim: Limits, t: Table, id: nat, now: real)
    requires TableInv(lim, t)
    ensures TableInv(lim, CancelJob(lim, t, id, now).0) && Evolves(t, CancelJob(lim, t, id, now).0)
    ensures id in CancelJob(lim, t, id, now).0.jobs ==> AllTerminal(CancelJob(lim, t, id, now).0.jobs[id].states)
  {
    hide JobInv, Extends, CapacityOk, Cancel;
    var p := Prune(lim, t, now);
    PruneInv(lim, t, now);
    if id in p.jobs {
      CancelInv(p.jobs[id], now);
      CancelBytes(p.jobs[id], now);
      PutWithinBudget(lim, p, id, Cancel(p.jobs[id], now));
      EvolvesTransitive(t, p, Put(p, id, Cancel(p.jobs[id], now)));
    }
  }

  lemma CancelBytes(job: Job, now: real)
    ensures Cancel(job, now).resultBytes == job.resultBytes
  {
    if job.terminalAt.None? { CancelFromStates(job.(status := JobCancelled), 0); }
  }

  // ---------------------------------------------------------------------------------------------
  // Capacity

  /** The jobs that still have work. */
  ghost function OpenIds(t: Table): set<nat> { set id | id in t.jobs && t.jobs[id].terminalAt.None? }

  /** The sizes of all results in a log. */
  ghost function SizesIn(log: seq<Outcome>): nat {
    if log == [] then 0
    else
      SizesIn(log[..|log| - 1])
      + if log[|log| - 1].result.Some? then log[|log| - 1].result.value.size else 0
  }

  /** The sizes of all results in the logs of the jobs below an id. */
  ghost function SizesBelow(jobs: map<nat, Job>, n: nat): nat {
    if n == 0 then 0 else SizesBelow(jobs, n - 1) + if n - 1 in jobs then SizesIn(jobs[n - 1].outcomes) else 0
  }

  lemma {:induction false} LogBytesAreSizes(log: seq<Outcome>)
    ensures LogBytes(log) == SizesIn(log)
  {
    if log != [] { LogBytesAreSizes(log[..|log| - 1]); }
  }

  lemma {:induction false} BytesAreSizes(jobs: map<nat, Job>, n: nat)
    requires forall id :: id in jobs ==> JobInv(jobs[id])
    ensures Sum(jobs, JobBytes, n) == SizesBelow(jobs, n)
  {
    hide LogMatches, StatusMatches;
    if n > 0 {
      BytesAreSizes(jobs, n - 1);
      if n - 1 in jobs { LogBytesAreSizes(jobs[n - 1].outcomes); }
    }
  }

  lemma {:induction false} OpenCount(jobs: map<nat, Job>, n: nat)
    ensures Sum(jobs, OpenJobs, n) == |set id | 0 <= id < n && id in jobs && jobs[id].terminalAt.None?|
  {
    var open := set id | 0 <= id < n && id in jobs && jobs[id].terminalAt.None?;
    if n > 0 {
      OpenCount(jobs, n - 1);
      var before := set id | 0 <= id < n - 1 && id in jobs && jobs[id].terminalAt.None?;
      assert open == before + if n - 1 in jobs && jobs[n - 1].terminalAt.None? then {n - 1} else {};
    } else {
      assert open == {};
    }
  }

  /**
   * A new job is refused exactly when one of the limits is reached: on the jobs kept, on the bytes of their results,
   * or on the jobs with work left, whether they run or wait.
   */
  lemma RefusedWhenFull(lim: Limits, t: Table, n: nat, now: real)
    requires TableInv(lim, t)
    ensures var p := Prune(lim, t, now);
            Create(lim, t, n, now).1.None? <==>
              |p.jobs| == lim.maxRetainedJobs || SizesBelow(p.jobs, p.nextId) == lim.maxRetainedBytes
              || |OpenIds(p)| == lim.maxActiveJobs + lim.maxQueuedJobs
    ensures Create(lim, t, n, now).1.None? ==> Create(lim, t, n, now).0 == Prune(lim, t, now)
    ensures Create(lim, t, n, now).1.Some? ==>
              var (t', id) := Create(lim, t, n, now);
              && id.value !in t.jobs && t'.jobs == Prune(lim, t, now).jobs[id.value := NewJob(n)]
              && t'.submissions == Prune(lim, t, now).submissions
  {
    hide JobInv, Extends, SizesBelow, Prune;
    PruneInv(lim, t, now);
    var p := Prune(lim, t, now);
    BytesAreSizes(p.jobs, p.nextId);
    OpenCount(p.jobs, p.nextId);
    assert OpenIds(p) == set id | 0 <= id < p.nextId && id in p.jobs && p.jobs[id].terminalAt.None?;
    FreshId(lim, t);
    PrunedIds(lim, t, now);
  }

  lemma TableCounts(lim: Limits, t: Table)
    requires TableInv(lim, t)
    ensures |t.jobs| <= lim.maxRetainedJobs && SizesBelow(t.jobs, t.nextId) <= lim.maxRetainedBytes
    ensures |OpenIds(t)| <= lim.maxActiveJobs + lim.maxQueuedJobs
    ensures forall j :: j in t.jobs ==> j < t.nextId && SizesIn(t.jobs[j].outcomes) <= lim.maxJobOutcomeBytes
  {
    hide LogMatches, StatusMatches, SizesBelow;
    BytesAreSizes(t.jobs, t.nextId);
    OpenCount(t.jobs, t.nextId);
    assert OpenIds(t) == set id | 0 <= id < t.nextId && id in t.jobs && t.jobs[id].terminalAt.None?;
    forall j | j in t.jobs ensures SizesIn(t.jobs[j].outcomes) <= lim.maxJobOutcomeBytes {
      LogBytesAreSizes(t.jobs[j].outcomes);
    }
  }

  lemma PrunedIds(lim: Limits, t: Table, now: real)
    ensures Prune(lim, t, now).nextId == t.nextId
  {
  }

  // ---------------------------------------------------------------------------------------------
  // Status reports

  /** Each figure of a report is the number of outcomes in the log, or of models, that it names. */
  ghost predicate Reports(r: StatusReport, job: Job) {
    && r.status == job.status && r.total == |job.states| && r.lastCursor == |job.outcomes|
    && r.queued == |InState(job.states, Queued)| && r.running == |InState(job.states, Running)|
    && r.succeeded == |InLog(job.outcomes, Succeeded)| && r.failed == |InLog(job.outcomes, Failed)|
    && r.cancelled == |InLog(job.outcomes, Cancelled)|
  }

  /** What a client may conclude from a report alone. */
  predicate SpeaksTruly(r: StatusReport) {
    && r.queued + r.running + r.succeeded + r.failed + r.cancelled == r.total
    && r.lastCursor == r.succeeded + r.failed + r.cancelled
    && (r.status.Terminal() <==> r.queued == 0 && r.running == 0)
    && (r.status == Completed <==> r.succeeded == r.total)
    && (r.status == CompletedWithErrors <==> r.queued == 0 && r.running == 0 && r.failed > 0 && r.cancelled == 0)
    && (r.status == JobCancelled <==> r.cancelled > 0)
    && (r.status == JobQueued ==> r.running == 0)
  }

  lemma CountIsOutcomes(job: Job, s: ModelState)
    requires JobInv(job)
    ensures Count(job.states, s) == |InState(job.states, s)|
    ensures s.Terminal() ==> Count(job.states, s) == |InLog(job.outcomes, s)|
    ensures Count(job.states, s) == 0 <==> s !in job.states
  {
    CountIsSize(job.states, s);
    CountZeroIff(job.states, s);
    if s.Terminal() { LogCounts(job, s); }
  }

  lemma ReportIsTrue(job: Job)
    requires JobInv(job)
    ensures Reports(StatusOf(job), job) && SpeaksTruly(StatusOf(job))
  {
    hide LogMatches, InState, InLog, Count;
    CountsSumToTotal(job.states);
    TerminalIffNothingLeft(job);
    CountIsOutcomes(job, Queued);
    CountIsOutcomes(job, Running);
    CountIsOutcomes(job, Succeeded);
    CountIsOutcomes(job, Failed);
    CountIsOutcomes(job, Cancelled);
    LogLength(job);
  }

  /** Every entry of the log says how one model ended. */
  lemma LogLength(job: Job)
    requires JobInv(job)
    ensures |job.outcomes| == Count(job.states, Succeeded) + Count(job.states, Failed) + Count(job.states, Cancelled)
  {
    CountIsOutcomes(job, Succeeded);
    CountIsOutcomes(job, Failed);
    CountIsOutcomes(job, Cancelled);
    hide Count;
    LogDivides(job.outcomes, job.states);
  }

  lemma LogDivides(log: seq<Outcome>, states: seq<ModelState>)
    requires LogMatches(states, log)
    ensures |log| == |InLog(log, Succeeded)| + |InLog(log, Failed)| + |InLog(log, Cancelled)|
  {
    assert forall k :: 0 <= k < |log| ==> log[k].status.Terminal();
    hide LogMatches;
    var a, b, c := InLog(log, Succeeded), InLog(log, Failed), InLog(log, Cancelled);
    BelowMembers(|log|);
    assert Below(|log|) == a + b + c;
    assert a !! b && (a + b) !! c;
  }

  // ---------------------------------------------------------------------------------------------
  // Submissions

  /**
   * Sending the same submission again returns its job, however full the table is, exactly until the job has been ended
   * for its time to live; from then on the job is not found again.
   */
  lemma RetryIsIdempotent(lim: Limits, t: Table, sub: SubmissionId, fp: JobRequest, now: real, later: real)
    requires TableInv(lim, t) && sub in t.submissions
    ensures var id := t.submissions[sub].job;
            var (t', reply) := Reserve(lim, t, |fp.models|, Some(sub), fp, now, later);
            && id in t.jobs
            && (Lives(lim, t.jobs[id], now) ==>
                  && t' == Prune(lim, t, now) && id in t'.jobs
                  && reply == if fp == t.submissions[sub].fingerprint then Reserved(id, false) else SubmissionConflict)
            && (!Lives(lim, t.jobs[id], now) ==>
                  id !in t'.jobs && (reply == CapacityExceeded || reply == Reserved(t.nextId, true)))
  {
    hide JobInv, Extends, Full;
    PruneRemovesExpired(lim, t, now);
    FreshId(lim, t);
  }

  lemma FreshId(lim: Limits, t: Table)
    requires TableInv(lim, t)
    ensures t.nextId !in t.jobs
  {
    hide JobInv;
  }

  /** A created job is new, and from then on its submission id names it and nothing else does. */
  lemma CreationIsFresh(lim: Limits, t: Table, n: nat, sub: SubmissionId, fp: JobRequest, now: real, later: real)
    requires TableInv(lim, t) && n >= 1
    requires Reserve(lim, t, n, Some(sub), fp, now, later).1.Reserved?
    requires Reserve(lim, t, n, Some(sub), fp, now, later).1.created
    ensures var (t', r) := Reserve(lim, t, n, Some(sub), fp, now, later);
            && r.job !in t.jobs && r.job in t'.jobs && t'.jobs[r.job] == NewJob(n)
            && sub in t'.submissions && t'.submissions[sub] == Entry(fp, r.job)
            && forall s :: s in t'.submissions && t'.submissions[s].job == r.job ==> s == sub
  {
    hide JobInv, Extends;
    ReserveInv(lim, t, n, Some(sub), fp, now, later);
  }
}
