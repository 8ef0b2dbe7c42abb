/** The service as its clients meet it: jobs with the content they were submitted with, and results that are true. */
module ServiceHistory {
  import opened Common
  import opened Jobs
  import opened JobTable

  /** `requests` remembers the content of every job ever created, expired ones included. */
  datatype Service = Service(table: Table, requests: map<nat, JobRequest>)

  datatype ServiceEvent =
    | Expire(now: real)
    | Submission(sub: Option<SubmissionId>, request: JobRequest, now: real, later: real)
    | StartWork(job: nat, index: nat, now: real)
    | EndWork(job: nat, index: nat, report: Report, now: real)
    | CancelRequest(job: nat, now: real)

  function ReserveFor(lim: Limits, sv: Service, ev: ServiceEvent): (Table, Reservation)
    requires ev.Submission?
  {
    Reserve(lim, sv.table, |ev.request.models|, ev.sub, ev.request, ev.now, ev.later)
  }

  predicate InRange(sv: Service, job: nat, i: nat) {
    job in sv.table.jobs ==> i < |sv.table.jobs[job].states|
  }

  function Serve(lim: Limits, sv: Service, ev: ServiceEvent): Service {
    match ev
    case Expire(now) => sv.(table := Prune(lim, sv.table, now))
    case Submission(_, request, _, _) =>
      var (table, reply) := ReserveFor(lim, sv, ev);
      Service(table, if reply.Reserved? && reply.created then sv.requests[reply.job := request] else sv.requests)
    case StartWork(job, i, now) =>
      if InRange(sv, job, i) then sv.(table := Start(lim, sv.table, job, i, now).0) else sv
    case EndWork(job, i, report, now) =>
      if InRange(sv, job, i) then sv.(table := Finish(lim, sv.table, job, i, report, now).0) else sv
    case CancelRequest(job, now) => sv.(table := CancelJob(lim, sv.table, job, now).0)
  }

  /** A worker reports at most one of result and error, for the index it was given. */
  predicate OwnReport(i: nat, report: Report) {
    && !(report.result.Some? && report.error.Some?)
    && (report.result.Some? ==> report.result.value.index == i)
    && (report.error.Some? ==> report.error.value.index == i)
  }

  /** A submission under a run's id carries what that run sent; a worker's result is the simulation of its input. */
  predicate Admissible(sv: Service, sent: map<nat, JobRequest>, sim: Simulator, ev: ServiceEvent) {
    match ev
    case Expire(_) => true
    case Submission(sub, request, _, _) =>
      request.Valid() && (sub.Some? && sub.value.OfRun? ==> sub.value.run in sent && request == sent[sub.value.run])
    case StartWork(job, i, _) => InRange(sv, job, i)
    case EndWork(job, i, report, _) =>
      && InRange(sv, job, i) && OwnReport(i, report)
      && (report.result.Some? && job in sv.requests && sv.requests[job].Valid() && i < |sv.requests[job].models| ==>
            report.result.value.payload == sim(sv.requests[job].Input(i)))
    case CancelRequest(_, _) => true
  }

  // ---------------------------------------------------------------------------------------------
  // Invariant

  ghost predicate TrueResult(o: Outcome, request: JobRequest, sim: Simulator) {
    o.result.Some? ==>
      request.Valid() && o.index < |request.models| && o.result.value.payload == sim(request.Input(o.index))
  }

  ghost predicate Faithful(job: Job, request: JobRequest, sim: Simulator) {
    && request.Valid() && |job.states| == |request.models|
    && forall k :: 0 <= k < |job.outcomes| ==> TrueResult(job.outcomes[k], request, sim)
  }

  ghost predicate JobsFaithful(sv: Service, sim: Simulator) {
    && (forall j :: j in sv.table.jobs ==> j in sv.requests && Faithful(sv.table.jobs[j], sv.requests[j], sim))
    && (forall j :: j in sv.requests ==> j < sv.table.nextId)
  }

  /** A submission id names a job with the very content it was submitted with. */
  ghost predicate NamesFaithful(sv: Service, sent: map<nat, JobRequest>) {
    forall s :: s in sv.table.submissions ==>
      && sv.table.submissions[s].job in sv.requests
      && sv.table.submissions[s].fingerprint == sv.requests[sv.table.submissions[s].job]
      && (s.OfRun? ==> s.run in sent && sv.table.submissions[s].fingerprint == sent[s.run])
  }

  ghost predicate ServiceInv(lim: Limits, sv: Service, sent: map<nat, JobRequest>, sim: Simulator) {
    TableInv(lim, sv.table) && JobsFaithful(sv, sim) && NamesFaithful(sv, sent)
  }

  /** What clients may rely on between any two moments. */
  ghost predicate Moved(a: Service, b: Service) {
    && Evolves(a.table, b.table)
    && forall j :: j in a.requests ==> j in b.requests && b.requests[j] == a.requests[j]
  }

  // ---------------------------------------------------------------------------------------------
  // Events

  lemma {:induction false} CancelFromSilent(job: Job, i: nat)
    requires i <= |job.states|
    ensures var log := CancelFrom(job, i).outcomes;
            && |job.outcomes| <= |log| && log[..|job.outcomes|] == job.outcomes
            && forall k :: |job.outcomes| <= k < |log| ==> log[k].result.None?
    decreases |job.states| - i
  {
    if i < |job.states| {
      var next := if job.states[i].Terminal() then job else Record(job, i, Cancelled, Report(None, None));
      CancelFromSilent(next, i + 1);
      var log := CancelFrom(next, i + 1).outcomes;
      if !job.states[i].Terminal() {
        assert log[|job.outcomes|] == log[..|next.outcomes|][|job.outcomes|];
        assert log[..|job.outcomes|] == log[..|next.outcomes|][..|job.outcomes|];
      }
    }
  }

  lemma CancelFaithful(job: Job, now: real, request: JobRequest, sim: Simulator)
    requires Faithful(job, request, sim)
    ensures Faithful(Cancel(job, now), request, sim)
  {
    if job.terminalAt.None? {
      var start := job.(status := JobCancelled);
      CancelFromSilent(start, 0);
      CancelFromStates(start, 0);
      hide TrueResult;
      var log := CancelFrom(start, 0).outcomes;
      forall k | 0 <= k < |log| ensures TrueResult(log[k], request, sim) {
        if k < |job.outcomes| {
          assert log[k] == log[..|job.outcomes|][k];
        } else {
          SilentIsTrue(log[k], request, sim);
        }
      }
    }
  }

  lemma SilentIsTrue(o: Outcome, request: JobRequest, sim: Simulator)
    requires o.result.None?
    ensures TrueResult(o, request, sim)
  {
  }

  lemma FinishFaithful(lim: Limits, retained: nat, job: Job, i: nat, report: Report, now: real, request: JobRequest,
                       sim: Simulator)
    requires Faithful(job, request, sim) && i < |job.states|
    requires report.result.Some? ==> report.result.value.payload == sim(request.Input(i))
    ensures Faithful(FinishModel(lim, retained, job, i, report, now), request, sim)
  {
  }

  /** Replacing one job by a faithful one. */
  lemma PutFaithful(p: Service, id: nat, job: Job, sim: Simulator)
    requires JobsFaithful(p, sim) && id in p.table.jobs && Faithful(job, p.requests[id], sim)
    ensures JobsFaithful(p.(table := Put(p.table, id, job)), sim)
  {
    hide Faithful;
  }

  lemma PutNames(p: Service, id: nat, job: Job, sent: map<nat, JobRequest>)
    requires NamesFaithful(p, sent)
    ensures NamesFaithful(p.(table := Put(p.table, id, job)), sent)
  {
  }

  lemma PruneFaithful(lim: Limits, sv: Service, now: real, sent: map<nat, JobRequest>, sim: Simulator)
    requires JobsFaithful(sv, sim) && NamesFaithful(sv, sent)
    ensures JobsFaithful(sv.(table := Prune(lim, sv.table, now)), sim)
    ensures NamesFaithful(sv.(table := Prune(lim, sv.table, now)), sent)
  {
    hide Faithful;
  }

  lemma OwnReportAccepted(lim: Limits, retained: nat, job: Job, i: nat, report: Report)
    requires OwnReport(i, report)
    ensures Accepted(i, Kept(lim, retained, job, i, report))
  {
  }

  lemma EndWorkKeeps(lim: Limits, sv: Service, sent: map<nat, JobRequest>, sim: Simulator, ev: ServiceEvent)
    requires ServiceInv(lim, sv, sent, sim) && Admissible(sv, sent, sim, ev) && ev.EndWork?
    ensures ServiceInv(lim, Serve(lim, sv, ev), sent, sim) && Moved(sv, Serve(lim, sv, ev))
  {
    hide TableInv, Evolves, Faithful, FinishModel, Prune, NamesFaithful, RetainedBytes, Kept, Accepted;
    var p := sv.(table := Prune(lim, sv.table, ev.now));
    PruneFaithful(lim, sv, ev.now, sent, sim);
    PrunedStates(lim, sv.table, ev.job, ev.now);
    if ev.job in p.table.jobs {
      OwnReportAccepted(lim, RetainedBytes(p.table), p.table.jobs[ev.job], ev.index, ev.report);
      var job := FinishModel(lim, RetainedBytes(p.table), p.table.jobs[ev.job], ev.index, ev.report, ev.now);
      FaithfulRange(p.table.jobs[ev.job], p.requests[ev.job], sim);
      FinishFaithful(lim, RetainedBytes(p.table), p.table.jobs[ev.job], ev.index, ev.report, ev.now,
                     p.requests[ev.job], sim);
      PutFaithful(p, ev.job, job, sim);
      PutNames(p, ev.job, job, sent);
    }
    FinishInv(lim, sv.table, ev.job, ev.index, ev.report, ev.now);
  }

  lemma PrunedStates(lim: Limits, t: Table, id: nat, now: real)
    ensures id in Prune(lim, t, now).jobs ==> id in t.jobs && Prune(lim, t, now).jobs[id] == t.jobs[id]
  {
  }

  lemma FaithfulRange(job: Job, request: JobRequest, sim: Simulator)
    requires Faithful(job, request, sim)
    ensures request.Valid() && |job.states| == |request.models|
  {
  }

  lemma StartFaithful(job: Job, i: nat, request: JobRequest, sim: Simulator)
    requires Faithful(job, request, sim) && i < |job.states|
    ensures Faithful(StartModel(job, i).0, request, sim)
  {
  }

  lemma StartWorkKeeps(lim: Limits, sv: Service, sent: map<nat, JobRequest>, sim: Simulator, ev: ServiceEvent)
    requires ServiceInv(lim, sv, sent, sim) && Admissible(sv, sent, sim, ev) && ev.StartWork?
    ensures ServiceInv(lim, Serve(lim, sv, ev), sent, sim) && Moved(sv, Serve(lim, sv, ev))
  {
    hide TableInv, Evolves, Faithful, StartModel, Prune, NamesFaithful;
    var p := sv.(table := Prune(lim, sv.table, ev.now));
    PruneFaithful(lim, sv, ev.now, sent, sim);
    PrunedStates(lim, sv.table, ev.job, ev.now);
    if ev.job in p.table.jobs {
      StartFaithful(p.table.jobs[ev.job], ev.index, p.requests[ev.job], sim);
      PutFaithful(p, ev.job, StartModel(p.table.jobs[ev.job], ev.index).0, sim);
      PutNames(p, ev.job, StartModel(p.table.jobs[ev.job], ev.index).0, sent);
    }
    StartInv(lim, sv.table, ev.job, ev.index, ev.now);
  }

  lemma CancelKeeps(lim: Limits, sv: Service, sent: map<nat, JobRequest>, sim: Simulator, ev: ServiceEvent)
    requires ServiceInv(lim, sv, sent, sim) && ev.CancelRequest?
    ensures ServiceInv(lim, Serve(lim, sv, ev), sent, sim) && Moved(sv, Serve(lim, sv, ev))
  {
    hide TableInv, Evolves, Faithful, Cancel, Prune, NamesFaithful;
    var p := sv.(table := Prune(lim, sv.table, ev.now));
    PruneFaithful(lim, sv, ev.now, sent, sim);
    if ev.job in p.table.jobs {
      CancelFaithful(p.table.jobs[ev.job], ev.now, p.requests[ev.job], sim);
      PutFaithful(p, ev.job, Cancel(p.table.jobs[ev.job], ev.now), sim);
      PutNames(p, ev.job, Cancel(p.table.jobs[ev.job], ev.now), sent);
    }
    CancelJobInv(lim, sv.table, ev.job, ev.now);
  }

  lemma NewFaithful(request: JobRequest, sim: Simulator)
    requires request.Valid()
    ensures Faithful(NewJob(|request.models|), request, sim)
  {
  }

  /** Creating a job for a request and naming it. */
  lemma CreatedFaithful(p: Service, ev: ServiceEvent, sent: map<nat, JobRequest>, sim: Simulator)
    requires JobsFaithful(p, sim) && NamesFaithful(p, sent) && ev.Submission? && Admissible(p, sent, sim, ev)
    requires p.table.nextId !in p.requests
    ensures var c := Insert(p.table, |ev.request.models|);
            var named := if ev.sub.None? then c.submissions
                         else c.submissions[ev.sub.value := Entry(ev.request, p.table.nextId)];
            var s' := Service(c.(submissions := named), p.requests[p.table.nextId := ev.request]);
            JobsFaithful(s', sim) && NamesFaithful(s', sent)
  {
    hide Faithful;
    NewFaithful(ev.request, sim);
  }

  lemma SubmissionKeeps(lim: Limits, sv: Service, sent: map<nat, JobRequest>, sim: Simulator, ev: ServiceEvent)
    requires ServiceInv(lim, sv, sent, sim) && Admissible(sv, sent, sim, ev) && ev.Submission?
    ensures ServiceInv(lim, Serve(lim, sv, ev), sent, sim) && Moved(sv, Serve(lim, sv, ev))
  {
    hide TableInv, Evolves, Faithful, Prune, Full, NamesFaithful;
    var p := sv.(table := Prune(lim, sv.table, ev.now));
    PruneFaithful(lim, sv, ev.now, sent, sim);
    ReserveInv(lim, sv.table, |ev.request.models|, ev.sub, ev.request, ev.now, ev.later);
    PruneIds(lim, sv.table, ev.now);
    if !(ev.sub.Some? && ev.sub.value in p.table.submissions) {
      var q := p.(table := Prune(lim, p.table, ev.later));
      PruneFaithful(lim, p, ev.later, sent, sim);
      PruneIds(lim, p.table, ev.later);
      if !Full(lim, q.table) { CreatedFaithful(q, ev, sent, sim); }
    }
  }

  lemma PruneIds(lim: Limits, t: Table, now: real)
    ensures Prune(lim, t, now).nextId == t.nextId
  {
  }

  /** Every event keeps the service's word, and only ever extends what clients have seen. */
  lemma ServeKeeps(lim: Limits, sv: Service, sent: map<nat, JobRequest>, sim: Simulator, ev: ServiceEvent)
    requires ServiceInv(lim, sv, sent, sim) && Admissible(sv, sent, sim, ev)
    ensures ServiceInv(lim, Serve(lim, sv, ev), sent, sim) && Moved(sv, Serve(lim, sv, ev))
  {
    match ev {
      case Expire(now) =>
        hide TableInv, Evolves, Faithful, Prune, NamesFaithful;
        PruneInv(lim, sv.table, now);
        PruneFaithful(lim, sv, now, sent, sim);
      case Submission(_, _, _, _) => hide ServiceInv, Moved, Serve; SubmissionKeeps(lim, sv, sent, sim, ev);
      case StartWork(_, _, _) => hide ServiceInv, Moved, Serve; StartWorkKeeps(lim, sv, sent, sim, ev);
      case EndWork(_, _, _, _) => hide ServiceInv, Moved, Serve; EndWorkKeeps(lim, sv, sent, sim, ev);
      case CancelRequest(_, _) => hide ServiceInv, Moved, Serve; CancelKeeps(lim, sv, sent, sim, ev);
    }
  }

  lemma SentGrows(lim: Limits, sv: Service, sent: map<nat, JobRequest>, sim: Simulator, r: nat, request: JobRequest)
    requires ServiceInv(lim, sv, sent, sim) && r !in sent
    ensures ServiceInv(lim, sv, sent[r := request], sim)
  {
    hide TableInv, JobsFaithful;
  }

  /** A run's submission never conflicts, whatever was lost, repeated or delayed before. */
  lemma ResubmissionNeverConflicts(lim: Limits, sv: Service, sent: map<nat, JobRequest>, sim: Simulator, r: nat,
                                   now: real, later: real)
    requires ServiceInv(lim, sv, sent, sim) && r in sent && sent[r].Valid()
    ensures var ev := Submission(Some(OfRun(r)), sent[r], now, later);
            var reply := ReserveFor(lim, sv, ev).1;
            && !reply.SubmissionConflict?
            && (OfRun(r) in sv.table.submissions
                && Lives(lim, sv.table.jobs[sv.table.submissions[OfRun(r)].job], now) ==>
                  reply == Reserved(sv.table.submissions[OfRun(r)].job, false))
            && (reply.Reserved? ==>
                  reply.job in Serve(lim, sv, ev).requests && Serve(lim, sv, ev).requests[reply.job] == sent[r]
                  && reply.job in Serve(lim, sv, ev).table.jobs)
  {
    hide JobInv, Faithful, CapacityOk, Full;
    if OfRun(r) in sv.table.submissions {
      PruneRemovesExpired(lim, sv.table, now);
    }
  }

  // ---------------------------------------------------------------------------------------------
  // What workers get done

  /** A model that was queued is running afterwards, and nothing else of a kept job changes. */
  lemma StartWorkRecords(lim: Limits, sv: Service, ev: ServiceEvent)
    requires TableInv(lim, sv.table) && ev.StartWork? && InRange(sv, ev.job, ev.index)
    requires ev.job in sv.table.jobs && Lives(lim, sv.table.jobs[ev.job], ev.now)
    ensures var jobs, job := Serve(lim, sv, ev).table.jobs, sv.table.jobs[ev.job];
            && ev.job in jobs && jobs[ev.job].outcomes == job.outcomes
            && jobs[ev.job].states == (if job.states[ev.index] == Queued then job.states[ev.index := Running] else job.states)
            && (job.states[ev.index] == Queued ==> jobs[ev.job].status == JobRunning)
  {
    hide JobInv, Prune;
    PruneRemovesExpired(lim, sv.table, ev.now);
  }

  /** A worker's report ends its model in a kept job: one outcome more, with the result if it fits, else an error. */
  lemma EndWorkRecords(lim: Limits, sv: Service, ev: ServiceEvent)
    requires TableInv(lim, sv.table) && ev.EndWork? && InRange(sv, ev.job, ev.index) && OwnReport(ev.index, ev.report)
    requires ev.job in sv.table.jobs && Lives(lim, sv.table.jobs[ev.job], ev.now)
    requires !sv.table.jobs[ev.job].states[ev.index].Terminal()
    ensures var jobs, job := Serve(lim, sv, ev).table.jobs, sv.table.jobs[ev.job];
            var bytes := SizesBelow(Prune(lim, sv.table, ev.now).jobs, sv.table.nextId);
            var result := ev.report.result;
            var fits := result.Some? && result.value.size <= lim.maxModelOutcomeBytes
                        && job.resultBytes + result.value.size <= lim.maxJobOutcomeBytes
                        && bytes + result.value.size <= lim.maxRetainedBytes;
            && ev.job in jobs && |jobs[ev.job].outcomes| == |job.outcomes| + 1 && job.outcomes <= jobs[ev.job].outcomes
            && jobs[ev.job].states == job.states[ev.index := if fits then Succeeded else Failed]
            && var last := jobs[ev.job].outcomes[|job.outcomes|];
            && last.index == ev.index && last.status == (if fits then Succeeded else Failed)
            && last.result == (if fits then result else None)
            && (fits ==> last.error.None? && jobs[ev.job].resultBytes == job.resultBytes + result.value.size)
            && (!fits ==> last.error.Some? && jobs[ev.job].resultBytes == job.resultBytes
                          && last.error.value.code == (if result.Some? then RESULT_TOO_LARGE
                                                       else if ev.report.error.Some? then ev.report.error.value.code
                                                       else WORKER_FAILED))
  {
    var p := Prune(lim, sv.table, ev.now);
    PruneRemovesExpired(lim, sv.table, ev.now);
    PruneInv(lim, sv.table, ev.now);
    PruneIds(lim, sv.table, ev.now);
    JobsHold(lim, p);
    BytesAreSizes(p.jobs, p.nextId);
    Recorded(lim, SizesBelow(p.jobs, p.nextId), sv.table.jobs[ev.job], ev.index, ev.report, ev.now);
    hide Prune, TableInv, FinishModel, OwnReport, SizesBelow;
  }

  lemma JobsHold(lim: Limits, t: Table)
    requires TableInv(lim, t)
    ensures forall id :: id in t.jobs ==> JobInv(t.jobs[id])
  {
    hide JobInv;
  }

  lemma Recorded(lim: Limits, retained: nat, job: Job, i: nat, report: Report, now: real)
    requires i < |job.states| && !job.states[i].Terminal() && OwnReport(i, report)
    ensures var job' := FinishModel(lim, retained, job, i, report, now);
            var fits := report.result.Some? && report.result.value.size <= lim.maxModelOutcomeBytes
                        && job.resultBytes + report.result.value.size <= lim.maxJobOutcomeBytes
                        && retained + report.result.value.size <= lim.maxRetainedBytes;
            && |job'.outcomes| == |job.outcomes| + 1 && job.outcomes <= job'.outcomes
            && job'.states == job.states[i := if fits then Succeeded else Failed]
            && var last := job'.outcomes[|job.outcomes|];
            && last.index == i && last.status == (if fits then Succeeded else Failed)
            && last.result == (if fits then report.result else None)
            && (fits ==> last.error.None? && job'.resultBytes == job.resultBytes + report.result.value.size)
            && (!fits ==> last.error.Some? && job'.resultBytes == job.resultBytes
                          && last.error.value.code == (if report.result.Some? then RESULT_TOO_LARGE
                                                       else if report.error.Some? then report.error.value.code
                                                       else WORKER_FAILED))
  {
  }
}
