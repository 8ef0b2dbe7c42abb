/** The Python client against the service as it runs, with the coordinator and all other clients beside it. */
module ServedClient {
  import opened Common
  import opened Jobs
  import opened JobTable
  import opened ServiceHistory
  import opened Protocol
  import opened ProtocolInvariant
  import opened ProtocolTheorems
  import opened ProtocolClosing
  import opened ProtocolProgress
  import opened RunSteps
  import opened ExecuteSteps
  import opened WebClient

  /** The system at successive moments; anything may happen between two of them. */
  type Moments = seq<World>

  ghost predicate Successive(cfg: Setup, ms: Moments) {
    forall k {:trigger ms[k]} :: 0 < k < |ms| ==> LeadsTo(cfg, ms[k - 1], ms[k])
  }

  function ViewOf(sv: Service, id: nat): Option<Job> {
    if id in sv.table.jobs then Some(sv.table.jobs[id]) else None
  }

  function ViewsOf(ms: Moments, id: nat): Views { seq(|ms|, k requires 0 <= k < |ms| => ViewOf(ms[k].service, id)) }

  lemma LeadsInv(cfg: Setup, x: World, y: World)
    requires Inv(cfg, x) && LeadsTo(cfg, x, y)
    ensures Inv(cfg, y) && Advances(x, y)
  {
    hide Inv, Advances, Legal, Final;
    var events :| Legal(cfg, x, events) && y == Final(cfg, x, events);
    RunsInv(cfg, x, events);
  }

  lemma {:induction false} Later(cfg: Setup, ms: Moments, a: nat, b: nat)
    requires Successive(cfg, ms) && a <= b < |ms| && Inv(cfg, ms[0])
    ensures Inv(cfg, ms[a]) && Inv(cfg, ms[b]) && Advances(ms[a], ms[b])
    decreases b
  {
    hide Inv, Advances, LeadsTo;
    if a < b {
      Later(cfg, ms, a, b - 1);
      LeadsInv(cfg, ms[b - 1], ms[b]);
      AdvancesTransitive(cfg, ms[a], ms[b - 1], ms[b]);
    } else {
      if b > 0 {
        Later(cfg, ms, b - 1, b - 1);
        LeadsInv(cfg, ms[b - 1], ms[b]);
      }
      NothingHappens(cfg, ms[b]);
    }
  }

  /** A job the service knew is, as long as it is kept, the same job further on; once gone it stays gone. */
  lemma JobSeen(cfg: Setup, x: World, y: World, id: nat)
    requires Inv(cfg, x) && Inv(cfg, y) && Advances(x, y) && id < x.service.table.nextId && id in y.service.table.jobs
    ensures id in x.service.table.jobs && Extends(x.service.table.jobs[id], y.service.table.jobs[id])
    ensures JobInv(y.service.table.jobs[id])
  {
    hide Sound, RunsLinked, Bookkeeping, JobsFaithful, NamesFaithful, JobInv, Extends, RunAdvances;
  }

  lemma IdTaken(cfg: Setup, x: World, id: nat)
    requires Inv(cfg, x) && id in x.service.table.jobs
    ensures id < x.service.table.nextId && id in x.service.requests
    ensures |x.service.table.jobs[id].states| == |x.service.requests[id].models| >= 1
    ensures JobInv(x.service.table.jobs[id])
  {
    hide Sound, RunsLinked, Bookkeeping, NamesFaithful;
  }

  /** What any client sees of a job, over any run of the system, is one job that only grows or expires for good. */
  lemma SystemIsObservable(cfg: Setup, ms: Moments, id: nat)
    requires ms != [] && Reached(cfg, ms[0]) && Successive(cfg, ms) && id in ms[0].service.table.jobs
    ensures Observable(|ms[0].service.table.jobs[id].states|, ViewsOf(ms, id))
  {
    hide Reached, Inv, Successive, Observable;
    ReachedInv(cfg, ms[0]);
    InvIsObservable(cfg, ms, id);
  }

  lemma InvIsObservable(cfg: Setup, ms: Moments, id: nat)
    requires ms != [] && Inv(cfg, ms[0]) && Successive(cfg, ms) && id in ms[0].service.table.jobs
    ensures Observable(|ms[0].service.table.jobs[id].states|, ViewsOf(ms, id))
  {
    hide Inv, Advances, Successive, JobInv, Extends;
    var views := ViewsOf(ms, id);
    IdTaken(cfg, ms[0], id);
    forall k | 0 <= k < |views| && views[k].Some?
      ensures JobInv(views[k].value) && |views[k].value.states| == |ms[0].service.table.jobs[id].states|
    {
      Later(cfg, ms, 0, k);
      JobSeen(cfg, ms[0], ms[k], id);
      SameLength(ms[0].service.table.jobs[id], views[k].value);
    }
    forall a, b | 0 <= a <= b < |views| && views[b].Some?
      ensures views[a].Some? && Extends(views[a].value, views[b].value)
    {
      Later(cfg, ms, a, b);
      Later(cfg, ms, 0, a);
      IdsStay(ms[0], ms[a]);
      JobSeen(cfg, ms[a], ms[b], id);
    }
  }

  lemma SameLength(a: Job, b: Job)
    requires Extends(a, b)
    ensures |b.states| == |a.states|
  {
  }

  lemma IdsStay(x: World, y: World)
    requires Advances(x, y)
    ensures x.service.table.nextId <= y.service.table.nextId
    ensures forall j :: j in x.service.requests ==> j in y.service.requests && y.service.requests[j] == x.service.requests[j]
  {
    hide RunAdvances, Extends;
  }

  // ---------------------------------------------------------------------------------------------
  // From submission to results

  /** A submission that is accepted leads to a kept job with the very content that was submitted. */
  lemma AcceptedIsOwn(cfg: Setup, x: World, ev: ServiceEvent)
    requires Inv(cfg, x) && ev.Submission? && ev.sub.None? && ev.request.Valid()
    ensures var y, reply := Next(cfg, x, Serving(ev)), ReserveFor(cfg.limits, x.service, ev).1;
            reply.Reserved? ==> reply.job in y.service.table.jobs && reply.job in y.service.requests
                                && y.service.requests[reply.job] == ev.request
  {
    hide Inv, Full, Prune;
  }

  lemma OwnResults(cfg: Setup, x: World, id: nat, i: nat, result: ResultData)
    requires Inv(cfg, x) && id in x.service.table.jobs && Retains(x.service.table.jobs[id].outcomes, i, result)
    ensures id in x.service.requests && x.service.requests[id].Valid() && i < |x.service.requests[id].models|
    ensures result.payload == cfg.sim(x.service.requests[id].Input(i))
  {
    hide Sound, RunsLinked, Bookkeeping, NamesFaithful, TableInv;
    var log := x.service.table.jobs[id].outcomes;
    var k :| 0 <= k < |log| && log[k].index == i && log[k].result == Some(result);
    assert TrueResult(log[k], x.service.requests[id], cfg.sim);
  }

  /** What a client may be told about its request. */
  ghost predicate Honest(cfg: Setup, request: JobRequest, reply: Reply)
    requires request.Valid()
  {
    match reply
    case Results(rs) =>
      && |rs| == |request.models|
      && forall i :: 0 <= i < |rs| ==> rs[i].index == i && rs[i].payload == cfg.sim(request.Input(i))
    case BatchErrors(rs, errors) =>
      && errors != map[] && |rs| + |errors| == |request.models|
      && (forall i :: i in errors ==> i < |request.models|)
      && (forall k :: 0 <= k < |rs| ==> rs[k].index < |request.models| && rs[k].index !in errors
                                        && rs[k].payload == cfg.sim(request.Input(rs[k].index)))
      && (forall j, k :: 0 <= j < k < |rs| ==> rs[j].index < rs[k].index)
    case _ => reply.JobWasCancelled? || reply.JobGone? || reply.WaitedTooLong?
  }

  lemma AnswerIsHonest(cfg: Setup, x: World, id: nat, reply: Reply)
    requires Inv(cfg, x) && id in x.service.table.jobs && Answers(reply, x.service.table.jobs[id])
    ensures id in x.service.requests && x.service.requests[id].Valid() && Honest(cfg, x.service.requests[id], reply)
  {
    hide Inv, JobInv, ErrorsOf, Retains;
    var job := x.service.table.jobs[id];
    IdTaken(cfg, x, id);
    RequestValid(cfg, x, id);
    var rs := if reply.Results? then reply.results else if reply.BatchErrors? then reply.successful else [];
    forall k | 0 <= k < |rs|
      ensures rs[k].index < |x.service.requests[id].models|
      ensures rs[k].payload == cfg.sim(x.service.requests[id].Input(rs[k].index))
    {
      OwnResults(cfg, x, id, rs[k].index, rs[k]);
    }
    if reply.BatchErrors? { FailedAndSucceeded(job, reply); }
  }

  lemma RequestValid(cfg: Setup, x: World, id: nat)
    requires Inv(cfg, x) && id in x.service.table.jobs
    ensures id in x.service.requests && x.service.requests[id].Valid()
  {
    hide Sound, RunsLinked, Bookkeeping, NamesFaithful, TableInv;
  }

  /** With errors there is a failed model, and no model both failed and has a result. */
  lemma FailedAndSucceeded(job: Job, reply: Reply)
    requires JobInv(job) && reply.BatchErrors? && Answers(reply, job)
    ensures reply.errors != map[] && forall k :: 0 <= k < |reply.successful| ==> reply.successful[k].index !in reply.errors
  {
    hide ErrorsOf, JobInv, Retains;
    CompletedMeansAllSucceeded(job);
    var i :| 0 <= i < |job.states| && job.states[i] == Failed;
    assert At(job.states, i, Failed);
    forall k | 0 <= k < |reply.successful| ensures reply.successful[k].index !in reply.errors {
      RetainedSucceeded(job, reply.successful[k].index, reply.successful[k]);
    }
  }

  lemma RetainedSucceeded(job: Job, i: nat, result: ResultData)
    requires JobInv(job) && Retains(job.outcomes, i, result)
    ensures At(job.states, i, Succeeded)
  {
    var l :| 0 <= l < |job.outcomes| && job.outcomes[l].index == i && job.outcomes[l].result == Some(result);
    assert job.outcomes[l].ValidShape();
  }

  /**
   * The client from submission to reply.  `ms` starts with its submission, then come its requests; whatever happens
   * in the system at and between them, it is refused for want of capacity, or told the truth about its own request.
   */
  method SubmitAndWait(cfg: Setup, request: JobRequest, now: real, later: real, x: World, ms: Moments)
    returns (reply: Option<Reply>)
    requires Reached(cfg, x) && request.Valid() && ms != [] && Successive(cfg, ms)
    requires ms[0] == Next(cfg, x, Serving(Submission(None, request, now, later)))
    ensures reply.None? <==>
              ReserveFor(cfg.limits, x.service, Submission(None, request, now, later)).1 == CapacityExceeded
    ensures reply.Some? ==> Honest(cfg, request, reply.value)
  {
    hide Reached, Inv, Advances, Successive, Honest, Answers, Observable, Serve, ReserveFor;
    var ev := Submission(None, request, now, later);
    var reserved := ReserveFor(cfg.limits, x.service, ev).1;
    ReachedInv(cfg, x);
    NoConflict(cfg, x, ev);
    if reserved.CapacityExceeded? {
      return None;
    }
    var id := reserved.job;
    AcceptedIsOwn(cfg, x, ev);
    StepInv(cfg, x, Serving(ev));
    IdTaken(cfg, ms[0], id);
    InvIsObservable(cfg, ms, id);
    ghost var final;
    var answer;
    LaterIsObservable(|request.models|, ViewsOf(ms, id));
    answer, final := Execute(|request.models|, ViewsOf(ms, id)[1..]);
    if !answer.JobGone? && !answer.WaitedTooLong? {
      Later(cfg, ms, 0, final + 1);
      IdsStay(ms[0], ms[final + 1]);
      AnswerIsHonest(cfg, ms[final + 1], id, answer);
    } else {
      NoAnswerIsHonest(cfg, request, answer);
    }
    reply := Some(answer);
  }

  lemma LaterIsObservable(n: nat, views: Views)
    requires Observable(n, views) && views != []
    ensures Observable(n, views[1..])
  {
    hide JobInv, Extends;
    var rest := views[1..];
    assert forall k :: 0 <= k < |rest| ==> rest[k] == views[k + 1];
    forall a, b | 0 <= a <= b < |rest| && rest[b].Some? ensures rest[a].Some? && Extends(rest[a].value, rest[b].value) {
      assert views[b + 1].Some?;
    }
  }

  lemma NoAnswerIsHonest(cfg: Setup, request: JobRequest, reply: Reply)
    requires request.Valid() && (reply.JobGone? || reply.WaitedTooLong?)
    ensures Honest(cfg, request, reply)
  {
  }

  lemma NoConflict(cfg: Setup, x: World, ev: ServiceEvent)
    requires ev.Submission? && ev.sub.None?
    ensures !ReserveFor(cfg.limits, x.service, ev).1.SubmissionConflict?
  {
    hide Full, Prune;
  }
}
