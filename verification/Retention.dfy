/** How long the service keeps a job: while it has work, and from its end for exactly its time to live. */
module Retention {
  import opened Common
  import opened Jobs
  import opened JobTable
  import opened ServiceHistory

  /** Everything an event does happens before a reading of the clock. */
  predicate Before(ev: ServiceEvent, deadline: real) {
    ev.now < deadline && (ev.Submission? ==> ev.later < deadline)
  }

  /** Events that can follow one another from a state of the service. */
  ghost predicate Possible(lim: Limits, sv: Service, sent: map<nat, JobRequest>, sim: Simulator, events: seq<ServiceEvent>)
    decreases |events|
  {
    events != [] ==>
      && Admissible(sv, sent, sim, events[0])
      && Possible(lim, Serve(lim, sv, events[0]), sent, sim, events[1..])
  }

  function ServeAll(lim: Limits, sv: Service, events: seq<ServiceEvent>): Service
    decreases |events|
  {
    if events == [] then sv else ServeAll(lim, Serve(lim, sv, events[0]), events[1..])
  }

  /** A job with an end, kept under a submission id. */
  ghost predicate Ended(sv: Service, s: SubmissionId, j: nat, e: real) {
    && j in sv.table.jobs && sv.table.jobs[j].terminalAt == Some(e)
    && s in sv.table.submissions && sv.table.submissions[s].job == j
  }

  lemma EndedStep(lim: Limits, sv: Service, sent: map<nat, JobRequest>, sim: Simulator, ev: ServiceEvent,
                  s: SubmissionId, j: nat, e: real)
    requires ServiceInv(lim, sv, sent, sim) && Admissible(sv, sent, sim, ev) && Ended(sv, s, j, e)
    requires Before(ev, e + lim.jobTtl)
    ensures var sv' := Serve(lim, sv, ev);
            && ServiceInv(lim, sv', sent, sim) && Ended(sv', s, j, e) && sv'.table.jobs[j] == sv.table.jobs[j]
            && sv'.table.submissions[s] == sv.table.submissions[s]
  {
    ServeKeeps(lim, sv, sent, sim, ev);
    TableAt(lim, sv, sent, sim);
    PrunedEnded(lim, sv.table, s, j, e, ev.now);
    KeptPresent(lim, sv, ev, s, j, e);
    hide Serve, ServiceInv;
    EndedSame(sv, Serve(lim, sv, ev), j);
  }

  lemma TableAt(lim: Limits, sv: Service, sent: map<nat, JobRequest>, sim: Simulator)
    requires ServiceInv(lim, sv, sent, sim)
    ensures TableInv(lim, sv.table) && forall j :: j in sv.table.jobs ==> j < sv.table.nextId
  {
    hide JobsFaithful, NamesFaithful, JobInv;
  }

  lemma EndedSame(sv: Service, sv': Service, j: nat)
    requires Moved(sv, sv') && j in sv.table.jobs && j in sv'.table.jobs && sv.table.jobs[j].terminalAt.Some?
    ensures sv'.table.jobs[j] == sv.table.jobs[j]
  {
  }

  lemma PrunedEnded(lim: Limits, t: Table, s: SubmissionId, j: nat, e: real, now: real)
    requires TableInv(lim, t) && j in t.jobs && t.jobs[j].terminalAt == Some(e)
    requires s in t.submissions && t.submissions[s].job == j && now < e + lim.jobTtl
    ensures var p := Prune(lim, t, now);
            && j in p.jobs && p.jobs[j] == t.jobs[j] && s in p.submissions && p.submissions[s] == t.submissions[s]
  {
    hide TableInv;
    PruneRemovesExpired(lim, t, now);
  }

  /** No event done in time removes the job or its name. */
  lemma KeptPresent(lim: Limits, sv: Service, ev: ServiceEvent, s: SubmissionId, j: nat, e: real)
    requires TableInv(lim, sv.table) && Ended(sv, s, j, e) && Before(ev, e + lim.jobTtl)
    ensures var t := Serve(lim, sv, ev).table;
            j in t.jobs && s in t.submissions && t.submissions[s] == sv.table.submissions[s]
  {
    hide TableInv, Prune, Reserve;
    PrunedEnded(lim, sv.table, s, j, e, ev.now);
    if ev.Submission? {
      PruneInv(lim, sv.table, ev.now);
      PrunedEnded(lim, Prune(lim, sv.table, ev.now), s, j, e, ev.later);
      ReserveKeepsNames(lim, sv.table, |ev.request.models|, ev.sub, ev.request, ev.now, ev.later, s, j);
    } else {
      hide FinishModel, StartModel, Cancel;
    }
  }

  lemma ReserveKeepsNames(lim: Limits, t: Table, n: nat, sub: Option<SubmissionId>, fp: JobRequest, now: real,
                          later: real, s: SubmissionId, j: nat)
    requires var p := Prune(lim, t, now); j in p.jobs && s in p.submissions && p.submissions[s] == t.submissions[s]
    requires var q := Prune(lim, Prune(lim, t, now), later);
             j in q.jobs && s in q.submissions && q.submissions[s] == Prune(lim, t, now).submissions[s]
    requires s in t.submissions
    ensures var t' := Reserve(lim, t, n, sub, fp, now, later).0;
            j in t'.jobs && s in t'.submissions && t'.submissions[s] == t.submissions[s]
  {
    hide Prune, Full, NewJob;
  }

  /** An ended job is kept, unchanged and under its name, by any events as long as the clock is before its deadline. */
  lemma {:induction false} KeptForItsTime(lim: Limits, sv: Service, sent: map<nat, JobRequest>, sim: Simulator,
                                          events: seq<ServiceEvent>, s: SubmissionId, j: nat, e: real)
    requires ServiceInv(lim, sv, sent, sim) && Possible(lim, sv, sent, sim, events) && Ended(sv, s, j, e)
    requires forall i :: 0 <= i < |events| ==> Before(events[i], e + lim.jobTtl)
    ensures var sv' := ServeAll(lim, sv, events);
            && ServiceInv(lim, sv', sent, sim) && Ended(sv', s, j, e) && sv'.table.jobs[j] == sv.table.jobs[j]
            && sv'.table.submissions[s] == sv.table.submissions[s]
    decreases |events|
  {
    hide ServiceInv, Serve, Ended, Before, Admissible;
    if events != [] {
      EndedStep(lim, sv, sent, sim, events[0], s, j, e);
      KeptForItsTime(lim, Serve(lim, sv, events[0]), sent, sim, events[1..], s, j, e);
    }
  }

  /**
   * From the end of a job until its time to live is over, whatever the service does meanwhile, asking for it answers
   * and submitting it again returns it; at the first reading from then on it is gone, and submitting it again makes a
   * new job or is refused for want of capacity.
   */
  lemma AnswersForItsTime(lim: Limits, sv: Service, sent: map<nat, JobRequest>, sim: Simulator,
                          events: seq<ServiceEvent>, s: SubmissionId, j: nat, e: real, now: real, later: real)
    requires ServiceInv(lim, sv, sent, sim) && Possible(lim, sv, sent, sim, events) && Ended(sv, s, j, e)
    requires forall i :: 0 <= i < |events| ==> Before(events[i], e + lim.jobTtl)
    ensures var sv', request := ServeAll(lim, sv, events), sv.table.submissions[s].fingerprint;
            var reply := ReserveFor(lim, sv', Submission(Some(s), request, now, later)).1;
            && (j in Serve(lim, sv', Expire(now)).table.jobs <==> now < e + lim.jobTtl)
            && (reply == Reserved(j, false) <==> now < e + lim.jobTtl)
            && (now >= e + lim.jobTtl ==> reply == CapacityExceeded || (reply.Reserved? && reply.created && reply.job != j))
  {
    KeptForItsTime(lim, sv, sent, sim, events, s, j, e);
    hide Possible;
    var sv' := ServeAll(lim, sv, events);
    TableAt(lim, sv', sent, sim);
    hide ServiceInv, Prune, ServeAll, TableInv;
    PruneRemovesExpired(lim, sv'.table, now);
    RetryIsIdempotent(lim, sv'.table, s, sv.table.submissions[s].fingerprint, now, later);
    hide Reserve;
  }

  /** A job that was open is still there, and if it has ended by now, did so at this reading in a call about it. */
  ghost predicate EndsHere(t: Table, j: nat, ev: ServiceEvent) {
    && j in t.jobs
    && (t.jobs[j].terminalAt.Some? ==>
          t.jobs[j].terminalAt == Some(ev.now) && (ev.EndWork? || ev.CancelRequest?) && ev.job == j)
  }

  /** The end of a job is the reading at which its last model ended or it was cancelled. */
  lemma EndIsReading(lim: Limits, sv: Service, sent: map<nat, JobRequest>, sim: Simulator, ev: ServiceEvent, j: nat)
    requires ServiceInv(lim, sv, sent, sim) && Admissible(sv, sent, sim, ev)
    requires j in sv.table.jobs && sv.table.jobs[j].terminalAt.None?
    ensures EndsHere(Serve(lim, sv, ev).table, j, ev)
  {
    hide TableInv, Serve, EndsHere, Prune, OwnReport;
    TableAt(lim, sv, sent, sim);
    OpenStays(lim, sv.table, j, ev.now);
    hide ServiceInv;
    match ev {
      case Expire(_) => OpenLater(lim, sv, ev, j);
      case StartWork(_, _, _) => OpenLater(lim, sv, ev, j);
      case EndWork(_, _, _, _) => EndOfWork(lim, sv, ev, j);
      case CancelRequest(_, _) => EndOfCancelled(lim, sv, ev, j);
      case Submission(_, _, _, _) => hide Admissible; SubmissionEndsNone(lim, sv, ev, j);
    }
  }

  lemma OpenLater(lim: Limits, sv: Service, ev: ServiceEvent, j: nat)
    requires ev.Expire? || ev.StartWork?
    requires j in sv.table.jobs && sv.table.jobs[j].terminalAt.None?
    requires j in Prune(lim, sv.table, ev.now).jobs && Prune(lim, sv.table, ev.now).jobs[j] == sv.table.jobs[j]
    ensures EndsHere(Serve(lim, sv, ev).table, j, ev)
  {
    hide Prune;
  }

  lemma EndOfWork(lim: Limits, sv: Service, ev: ServiceEvent, j: nat)
    requires ev.EndWork? && InRange(sv, ev.job, ev.index) && OwnReport(ev.index, ev.report)
    requires j in sv.table.jobs && sv.table.jobs[j].terminalAt.None?
    requires j in Prune(lim, sv.table, ev.now).jobs && Prune(lim, sv.table, ev.now).jobs[j] == sv.table.jobs[j]
    ensures EndsHere(Serve(lim, sv, ev).table, j, ev)
  {
    hide Prune, FinishModel, RetainedBytes, OwnReport;
    if ev.job == j {
      EndsAtReading(lim, RetainedBytes(Prune(lim, sv.table, ev.now)), sv.table.jobs[j], ev.index, ev.report, ev.now);
    }
  }

  lemma EndOfCancelled(lim: Limits, sv: Service, ev: ServiceEvent, j: nat)
    requires ev.CancelRequest? && j in sv.table.jobs && sv.table.jobs[j].terminalAt.None?
    requires j in Prune(lim, sv.table, ev.now).jobs && Prune(lim, sv.table, ev.now).jobs[j] == sv.table.jobs[j]
    ensures EndsHere(Serve(lim, sv, ev).table, j, ev)
  {
    hide Prune, CancelFrom;
  }

  lemma SubmissionEndsNone(lim: Limits, sv: Service, ev: ServiceEvent, j: nat)
    requires TableInv(lim, sv.table) && ev.Submission? && j in sv.table.jobs && sv.table.jobs[j].terminalAt.None?
    ensures EndsHere(Serve(lim, sv, ev).table, j, ev)
  {
    hide TableInv, Prune, Reserve;
    OpenStays(lim, sv.table, j, ev.now);
    PruneInv(lim, sv.table, ev.now);
    OpenStays(lim, Prune(lim, sv.table, ev.now), j, ev.later);
    FreshId(lim, sv.table);
    NewNumber(lim, sv.table, ev.now, ev.later);
    ReserveKeeps(lim, sv.table, |ev.request.models|, ev.sub, ev.request, ev.now, ev.later, j);
  }

  lemma ReserveKeeps(lim: Limits, t: Table, n: nat, sub: Option<SubmissionId>, fp: JobRequest, now: real, later: real,
                     j: nat)
    requires j in t.jobs && j in Prune(lim, t, now).jobs && Prune(lim, t, now).jobs[j] == t.jobs[j]
    requires var q := Prune(lim, Prune(lim, t, now), later); j in q.jobs && q.jobs[j] == t.jobs[j] && j != q.nextId
    ensures var t' := Reserve(lim, t, n, sub, fp, now, later).0; j in t'.jobs && t'.jobs[j] == t.jobs[j]
  {
    hide Prune, Full, NewJob;
  }

  lemma NewNumber(lim: Limits, t: Table, now: real, later: real)
    ensures Prune(lim, Prune(lim, t, now), later).nextId == Prune(lim, t, now).nextId == t.nextId
  {
  }

  lemma EndsAtReading(lim: Limits, retained: nat, job: Job, i: nat, report: Report, now: real)
    requires i < |job.states| && OwnReport(i, report) && job.terminalAt.None?
    ensures var job' := FinishModel(lim, retained, job, i, report, now);
            job'.terminalAt.Some? ==> job'.terminalAt == Some(now)
  {
    OwnReportAccepted(lim, retained, job, i, report);
    hide Kept, Accepted;
  }

  lemma OpenStays(lim: Limits, t: Table, j: nat, now: real)
    requires TableInv(lim, t) && j in t.jobs && t.jobs[j].terminalAt.None?
    ensures j in Prune(lim, t, now).jobs && Prune(lim, t, now).jobs[j] == t.jobs[j]
  {
    hide TableInv;
    PruneRemovesExpired(lim, t, now);
  }
}
