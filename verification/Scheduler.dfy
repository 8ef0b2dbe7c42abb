/** The scheduler as it runs: sets, queue and futures changed in place, callbacks re-entering it. */
module Scheduler {
  import opened Common
  import opened Jobs
  import opened JobTable
  import opened JobStore
  import opened ServiceHistory
  import opened Scheduling
  import opened SchedulerSteps

  /** No callback of these futures is called or forgotten, what is done stays done, and nothing is begun twice. */
  ghost predicate CallsKept(a: seq<FutureState>, b: seq<FutureState>) {
    && |a| == |b|
    && forall i :: 0 <= i < |a| ==>
         Called(a[i]) == Called(b[i]) && (a[i].Done? ==> b[i].Done?) && (b[i].Waiting? ==> a[i].Waiting?)
  }

  /** What one step of the scheduler leaves alone: other jobs' callbacks, and the order of starts. */
  ghost predicate Settles(a: Schedule, b: Schedule, extra: set<nat>) {
    && (forall j :: j in b.futures ==> j in a.futures || j in Ids(a.pending) || j in extra)
    && (forall j :: j in a.futures && j in b.futures && j !in extra ==> CallsKept(a.futures[j], b.futures[j]))
    && (forall j :: j in Ids(b.pending) ==> j in Ids(a.pending))
    && |b.pending| <= |a.pending| && a.started <= b.started && b.submitted == a.submitted
  }

  ghost predicate Apart(s: Schedule, extra: set<nat>) {
    forall j :: j in s.futures ==> j !in Ids(s.pending) && j !in extra
  }

  /** No model of a job is waiting for a worker. */
  ghost predicate CalledOffAll(futures: map<nat, seq<FutureState>>, job: nat) {
    job in futures ==> forall i :: 0 <= i < |futures[job]| ==> !futures[job][i].Waiting?
  }

  lemma SettlesTransitive(a: Schedule, b: Schedule, c: Schedule, extra: set<nat>)
    requires Apart(a, extra) && Settles(a, b, extra) && Settles(b, c, extra)
    ensures Settles(a, c, extra)
  {
    forall j | j in a.futures && j in c.futures && j !in extra ensures CallsKept(a.futures[j], c.futures[j]) {
      assert j in b.futures;
      assert CallsKept(a.futures[j], b.futures[j]) && CallsKept(b.futures[j], c.futures[j]);
    }
  }

  class ModelScheduler {
    const store: InMemoryJobStore
    const slots: nat
    var active: set<nat>
    var pending: seq<Pending>
    var futures: map<nat, seq<FutureState>>
    var closed: bool
    ghost var submitted: seq<nat>
    ghost var started: seq<nat>

    ghost function State(): Schedule
      reads this
    {
      Schedule(active, pending, futures, submitted, started)
    }

    /** What holds even in the middle of a refill. */
    ghost predicate Sound()
      reads this, store
    {
      store.Valid() && slots == store.limits.maxActiveJobs && Core(store.State(), State(), slots)
    }

    /** What holds whenever the lock is free. */
    ghost predicate Valid()
      reads this, store
    {
      Sound() && NoneLost(State()) && Conserved(State(), slots, closed)
    }

    constructor (store: InMemoryJobStore)
      requires store.Valid()
      ensures Valid() && this.store == store && !closed && State() == Schedule({}, [], map[], [], [])
    {
      this.store, slots := store, store.limits.maxActiveJobs;
      active, pending, futures, closed := {}, [], map[], false;
      submitted, started := [], [];
    }

    // -------------------------------------------------------------------------------------------
    // Workers and the store's other users

    /** A worker takes up a waiting model, or ends one it was working on. */
    method WorkerStep(j: nat, i: nat)
      requires Sound() && j in futures && i < |futures[j]|
      modifies this`futures, store
      ensures Sound() && Settles(old(State()), State(), {}) && (old(NoneLost(State())) ==> NoneLost(State()))
      ensures futures.Keys == old(futures.Keys) && Evolves(old(store.State()), store.State())
      ensures old(futures[j][i]).Done? ==> futures == old(futures) && store.State() == old(store.State())
      ensures !old(futures[j][i]).Done? ==>
                && j in futures && i < |futures[j]|
                && (futures[j][i].Working? || (futures[j][i] == Done(false) && ModelEnded(store.State(), j, i)))
    {
      hide TableInv, Core, Steps, Evolves, NoneLost, Settles, ModelEnded;
      SettlesSame(State());
      EvolvesSame(store.State());
      if futures[j][i].Waiting? {
        TakeUp(j, i);
      } else if futures[j][i].Working? {
        ReportBack(j, i);
      }
    }

    /** The store is told that the model starts; if it has been cancelled or its job is gone, it is done already. */
    method TakeUp(j: nat, i: nat)
      requires Sound() && j in futures && i < |futures[j]| && futures[j][i].Waiting?
      modifies this`futures, store
      ensures Sound() && Settles(old(State()), State(), {}) && (old(NoneLost(State())) ==> NoneLost(State()))
      ensures futures.Keys == old(futures.Keys) && Evolves(old(store.State()), store.State())
      ensures j in futures && i < |futures[j]|
      ensures futures[j][i] == Working || (futures[j][i] == Done(false) && ModelEnded(store.State(), j, i))
    {
      hide TableInv, Core, Steps, Evolves, NoneLost, Settles, ModelEnded;
      ghost var s, t := State(), store.State();
      var now: real := *;
      FutureAt(t, s, slots, j, i);
      futures := futures[j := futures[j][i := Working]];
      assert State() == SetFuture(s, j, i, Working);
      SetFutureCore(t, s, slots, j, i, Working);
      SetSettles(s, j, i, Working);
      StartSteps(store.limits, t, j, i, now);
      var reply := store.Start(j, i, now);
      MoveOn(store.limits, t, store.State(), State(), slots, j, i);
      if reply != Some(true) {
        ghost var working := State();
        futures := futures[j := futures[j][i := Done(false)]];
        SetFutureCore(store.State(), working, slots, j, i, Done(false));
        SetSettles(s, j, i, Done(false));
        assert futures[j] == s.futures[j][i := Done(false)];
        assert State() == SetFuture(s, j, i, Done(false));
      }
    }

    /** The worker may report an outcome of its own model, which then is done. */
    method ReportBack(j: nat, i: nat)
      requires Sound() && j in futures && i < |futures[j]| && futures[j][i].Working?
      modifies this`futures, store
      ensures Sound() && Settles(old(State()), State(), {}) && (old(NoneLost(State())) ==> NoneLost(State()))
      ensures futures.Keys == old(futures.Keys) && Evolves(old(store.State()), store.State())
      ensures j in futures && i < |futures[j]|
      ensures futures[j][i] == Working || (futures[j][i] == Done(false) && ModelEnded(store.State(), j, i))
    {
      hide TableInv, Core, Steps, Evolves, FinishAccepted, NoneLost, Settles, ModelEnded;
      ghost var s, t := State(), store.State();
      SettlesSame(s);
      EvolvesSame(t);
      FutureAt(t, s, slots, j, i);
      var now: real := *;
      var report: Report := *;
      if OwnReport(i, report) {
        FinishSteps(store.limits, t, j, i, report, now);
        var _, _ := store.Finish(j, i, report, now);
        MoveOn(store.limits, t, store.State(), s, slots, j, i);
        futures := futures[j := futures[j][i := Done(false)]];
        SetFutureCore(store.State(), s, slots, j, i, Done(false));
        SetSettles(s, j, i, Done(false));
        assert State() == SetFuture(s, j, i, Done(false));
      }
    }

    /** Someone else uses the store: a job is created, cancelled, or looked up after it may have expired. */
    method ClientStep(j: nat)
      requires Sound()
      modifies store
      ensures Sound() && Evolves(old(store.State()), store.State())
    {
      hide TableInv, Core, Steps, Evolves;
      ghost var s, t := State(), store.State();
      var now: real, later: real := *, *;
      ghost var nowhere := t.nextId;
      if * {
        CancelSteps(store.limits, t, j, now, nowhere, 0);
        var _ := store.Cancel(j, now);
      } else {
        var sub: Option<SubmissionId>, request: JobRequest := *, *;
        if |request.models| >= 1 {
          ReserveSteps(store.limits, t, |request.models|, sub, request, now, later, nowhere, 0);
          var _ := store.Reserve(|request.models|, sub, request, now, later);
        } else {
          PruneSteps(store.limits, t, now, nowhere, 0);
          var _ := store.Status(j, now);
        }
      }
      Nowhere(t, s, slots);
      MoveOn(store.limits, t, store.State(), s, slots, nowhere, 0);
    }

    /** One thing that may happen in another thread. */
    method OtherStep()
      requires Sound()
      modifies this`futures, store
      ensures Sound() && Settles(old(State()), State(), {}) && (old(NoneLost(State())) ==> NoneLost(State()))
      ensures futures.Keys == old(futures.Keys) && Evolves(old(store.State()), store.State())
    {
      hide TableInv, Core, Evolves, NoneLost, Settles;
      var j: nat, i: nat := *, *;
      if j in futures && i < |futures[j]| {
        WorkerStep(j, i);
      } else {
        SettlesSame(State());
        ClientStep(j);
      }
    }

    /** Any number of such things. */
    method Others()
      requires Sound()
      modifies this`futures, store
      ensures Sound() && Settles(old(State()), State(), {}) && (old(NoneLost(State())) ==> NoneLost(State()))
      ensures futures.Keys == old(futures.Keys) && Evolves(old(store.State()), store.State())
    {
      hide TableInv, Core, NoneLost, Settles, Evolves;
      ghost var s, t := State(), store.State();
      SettlesSame(s);
      EvolvesSame(t);
      InvAt(t, s, slots);
      var n: int := *;
      while n > 0
        invariant Sound() && Settles(s, State(), {}) && (NoneLost(s) ==> NoneLost(State()))
        invariant futures.Keys == s.futures.Keys && Evolves(t, store.State())
      {
        ghost var s1, t1 := State(), store.State();
        OtherStep();
        SettlesTransitive(s, s1, State(), {});
        EvolvesOn(store.limits, t, t1, store.State());
        n := n - 1;
      }
    }

    // -------------------------------------------------------------------------------------------
    // Starting and forgetting, each calling the other

    /** Hands every model to the workers, then attaches the callbacks; on models done by then they run at once. */
    method StartJob(p: Pending)
      requires p.models >= 1 && p.job !in futures && p.job in started && p.job in submitted
      requires p.job !in Ids(pending) && Apart(State(), {p.job})
      requires store.Valid() && slots == store.limits.maxActiveJobs && NoneLost(State())
      requires Core(store.State(), State().(futures := futures[p.job := seq(p.models, _ => Waiting)]), slots)
      modifies this`active, this`pending, this`futures, this`started, store
      ensures Sound() && NoneLost(State()) && Settles(old(State()), State(), {p.job})
      ensures old(Conserved(State(), slots, closed)) ==> Conserved(State(), slots, closed)
      ensures Evolves(old(store.State()), store.State())
      decreases |pending|, 3
    {
      hide TableInv, Core, NoneLost, Settles, Evolves, Apart;
      ghost var s, t := State(), store.State();
      futures := futures[p.job := seq(p.models, _ => Waiting)];
      StartedNoneLost(s, p);
      StartedSettles(s, p);
      EvolvesSame(t);
      for i := 0 to p.models
        invariant Sound() && NoneLost(State()) && Settles(s, State(), {p.job}) && |pending| <= |s.pending|
        invariant p.job in futures ==> |futures[p.job]| == p.models && forall k :: i <= k < p.models ==> !Called(futures[p.job][k])
        invariant Conserved(s, slots, closed) ==> Conserved(State(), slots, closed)
        invariant Evolves(t, store.State()) && p.job !in Ids(pending)
      {
        ghost var s1, t1 := State(), store.State();
        AttachCallback(p.job, i);
        SettlesTransitive(s, s1, State(), {p.job});
        StartsKept(s1, State(), {p.job});
        EvolvesOn(store.limits, t, t1, store.State());
      }
    }

    /** Attaches a job's callback to one of its futures, which calls it at once if the model is done by now. */
    method AttachCallback(j: nat, i: nat)
      requires Sound() && NoneLost(State()) && j !in Ids(pending)
      requires j in futures ==> i < |futures[j]| && !Called(futures[j][i])
      modifies this`active, this`pending, this`futures, this`started, store
      ensures Sound() && NoneLost(State()) && Settles(old(State()), State(), {j}) && |pending| <= |old(pending)|
      ensures old(Conserved(State(), slots, closed)) ==> Conserved(State(), slots, closed)
      ensures Evolves(old(store.State()), store.State())
      ensures j in futures ==>
                && j in old(futures) && |futures[j]| == |old(futures[j])|
                && forall k :: 0 <= k < |futures[j]| && k != i ==> Called(futures[j][k]) == Called(old(futures[j])[k])
      decreases |pending|, 2
    {
      hide TableInv, Core, NoneLost, Settles, Evolves, Apart;
      ghost var s, t := State(), store.State();
      Others();
      ghost var s1, t1 := State(), store.State();
      Wider(s, s1, j);
      KeepsLength(s, s1, j);
      InvAt(t1, s1, slots);
      if j in futures && futures[j][i].Done? {
        CallSettles(t1, s1, slots, j, i);
        futures := futures[j := futures[j][i := Done(true)]];
        ghost var s2 := State();
        assert s2 == SetFuture(s1, j, i, Done(true));
        ForgetFinished(j);
        InvAt(t, s, slots);
        CalledThenForgot(s, s1, s2, State(), j, i);
        EvolvesOn(store.limits, t, t1, store.State());
      }
    }

    /** Takes the head of the queue and starts it, unless it was cancelled or has expired meanwhile. */
    method AdmitNext()
      requires Sound() && NoneLost(State()) && pending != [] && |active| < slots
      modifies this`active, this`pending, this`futures, this`started, store
      ensures Sound() && NoneLost(State()) && Settles(old(State()), State(), {})
      ensures |pending| < |old(pending)| && Evolves(old(store.State()), store.State())
      decreases |pending|, 0
    {
      hide TableInv, Core, NoneLost, Settles, Evolves, Apart, Ended;
      ghost var s, t := State(), store.State();
      var next := pending[0];
      var now: real := *;
      InvAt(t, s, slots);
      PruneSteps(store.limits, t, now, t.nextId, 0);
      var status := store.Status(next.job, now);
      Nowhere(t, s, slots);
      MoveOn(store.limits, t, store.State(), s, slots, t.nextId, 0);
      ghost var t1 := store.State();
      pending := pending[1..];
      if status.None? || status.value.status == JobCancelled {
        NextEnded(store.limits, t1, next.job);
        DropCore(t1, s, slots, 0);
        assert s.pending[..0] + s.pending[1..] == s.pending[1..];
        PopSettles(s);
      } else {
        active := active + {next.job};
        started := started + [next.job];
        StartCore(t1, s, slots);
        StartReady(t1, s, slots, State());
        ghost var s1 := State();
        StartJob(next);
        StartTookNext(s, s1, State(), next);
        EvolvesOn(store.limits, t, t1, store.State());
      }
    }

    /** Once all of a job's models are done it gives up its slot, and waiting jobs take the free slots in turn. */
    method ForgetFinished(j: nat)
      requires Sound() && NoneLost(Forget(State(), j)) && (j in futures ==> Awaited(futures[j]) || AllDone(futures[j]))
      modifies this`active, this`pending, this`futures, this`started, store
      ensures Sound() && NoneLost(State()) && Settles(old(State()), State(), {})
      ensures old(Conserved(State(), slots, closed)) ==> Conserved(State(), slots, closed)
      ensures Evolves(old(store.State()), store.State())
      ensures if old(j in futures && AllDone(futures[j]))
              then j !in futures && Ended(store.State(), j) && Conserved(State(), slots, closed)
              else State() == old(State()) && store.State() == old(store.State())
      decreases |pending|, 1
    {
      hide TableInv, Core, NoneLost, Settles, Evolves, Apart, Awaited, Ended;
      ghost var s, t := State(), store.State();
      EvolvesSame(t);
      SettlesSame(s);
      InvAt(t, s, slots);
      if j in futures && AllDone(futures[j]) {
        ForgetCore(t, s, slots, j);
        ForgetSettles(s, j);
        futures := futures - {j};
        active := active - {j};
        assert State() == Forget(s, j);
        while !closed && pending != [] && |active| < slots
          invariant Sound() && NoneLost(State()) && Settles(s, State(), {}) && |pending| <= |s.pending|
          invariant Evolves(t, store.State()) && j !in futures && Ended(store.State(), j)
          decreases |pending|
        {
          ghost var s1, t1 := State(), store.State();
          AdmitNext();
          SettlesTransitive(s, s1, State(), {});
          StaysForgotten(s, s1, State(), j);
          EvolvesOn(store.limits, t, t1, store.State());
          EndedLater(t, t1, store.State(), j);
        }
      } else {
        StillAwaited(s, j);
      }
    }

    // -------------------------------------------------------------------------------------------
    // What the service calls

    /** A job starts at once when a slot is free, and then nobody was waiting; otherwise it joins the queue. */
    method Submit(job: nat, models: nat) returns (accepted: bool)
      requires Valid() && job !in submitted && job < store.nextId && PendingOk(store.State(), Pending(job, models))
      modifies this`active, this`pending, this`futures, this`submitted, this`started, store
      ensures Valid() && accepted == !closed && Evolves(old(store.State()), store.State())
      ensures !accepted ==> State() == old(State())
      ensures accepted ==> submitted == old(submitted) + [job]
      ensures accepted && |old(active)| >= slots ==>
                started == old(started) && pending == old(pending) + [Pending(job, models)]
      ensures accepted && |old(active)| < slots ==> old(pending) == [] && old(started) + [job] <= started
    {
      hide TableInv, Core, NoneLost, Settles, Evolves, Apart;
      ghost var s, t := State(), store.State();
      EvolvesSame(t);
      InvAt(t, s, slots);
      if closed {
        return false;
      }
      var p := Pending(job, models);
      QueueCore(t, s, slots, p);
      ghost var queued := s.(pending := s.pending + [p], submitted := s.submitted + [job]);
      submitted := submitted + [job];
      if |active| >= slots {
        pending := pending + [p];
        SameFutures(s, queued);
      } else {
        active := active + {job};
        started := started + [job];
        StartCore(t, queued, slots);
        SameFutures(s, queued);
        assert queued.pending[1..] == pending && queued.pending[0] == p;
        StartReady(t, queued, slots, State());
        ghost var s1 := State();
        StartJob(p);
        StartsKept(s1, State(), {job});
      }
      accepted := true;
    }

    /** A worker's thread calls the callback of a future that is done. */
    method Callback(j: nat, i: nat)
      requires Valid() && j in futures && i < |futures[j]| && futures[j][i] == Done(false)
      modifies this`active, this`pending, this`futures, this`started, store
      ensures Valid() && Evolves(old(store.State()), store.State())
      ensures old(AllDone(futures[j])) ==> j !in active && Ended(store.State(), j)
      ensures !old(AllDone(futures[j])) ==>
                State() == SetFuture(old(State()), j, i, Done(true)) && store.State() == old(store.State())
      ensures submitted == old(submitted) && old(started) <= started
    {
      hide TableInv, Core, NoneLost, Settles, Evolves, Ended;
      ghost var s := State();
      CallSettles(store.State(), s, slots, j, i);
      futures := futures[j := futures[j][i := Done(true)]];
      assert State() == SetFuture(s, j, i, Done(true));
      SameDone(s.futures[j], i);
      ghost var s1 := State();
      ForgetFinished(j);
      StartsKept(s1, State(), {});
      InvAt(store.State(), State(), slots);
    }

    /** The job's open models end in the store first; then it leaves the queue, or its waiting models are called off. */
    method Cancel(job: nat) returns (found: bool)
      requires Valid() && job < store.nextId
      modifies this`active, this`pending, this`futures, this`started, store
      ensures Valid() && Ended(store.State(), job) && Evolves(old(store.State()), store.State())
      ensures !found ==> State() == old(State())
      ensures found ==> job !in Ids(pending) && CalledOffAll(futures, job)
      ensures submitted == old(submitted) && old(started) <= started
    {
      hide TableInv, Core, NoneLost, Settles, Evolves, Ended, Apart;
      ghost var s, t := State(), store.State();
      var now: real := *;
      EvolvesSame(t);
      Nowhere(t, s, slots);
      CancelSteps(store.limits, t, job, now, t.nextId, 0);
      found := store.Cancel(job, now);
      MoveOn(store.limits, t, store.State(), s, slots, t.nextId, 0);
      if !found {
        return;
      }
      ghost var t1 := store.State();
      LeaveQueue(job);
      CallOff(job);
      EvolvesOn(store.limits, t, t1, store.State());
      EndedLater(t, t1, store.State(), job);
    }

    /** Removes a job from the queue. */
    method LeaveQueue(job: nat)
      requires Valid() && Ended(store.State(), job)
      modifies this`pending
      ensures Valid() && job !in Ids(pending) && (forall j :: j in Ids(pending) ==> j in Ids(old(pending)))
    {
      hide TableInv, Core, NoneLost, Ended;
      ghost var s := State();
      var k := 0;
      while k < |pending|
        invariant 0 <= k <= |pending| && Valid()
        invariant forall l :: 0 <= l < k ==> pending[l].job != job
        invariant forall j :: j in Ids(pending) ==> j in Ids(s.pending)
        decreases |pending| - k
      {
        if pending[k].job == job {
          ghost var s1 := State();
          DropCore(store.State(), s1, slots, k);
          DropIds(pending, k);
          pending := pending[..k] + pending[k + 1..];
          SameFutures(s1, State());
        } else {
          k := k + 1;
        }
      }
    }

    /** Cancels the futures of a job that have not begun; each cancelled future calls its callback at once. */
    method CallOff(job: nat)
      requires Valid() && Ended(store.State(), job) && job !in Ids(pending) && job < store.nextId
      modifies this`active, this`pending, this`futures, this`started, store
      ensures Valid() && job !in Ids(pending) && Evolves(old(store.State()), store.State())
      ensures CalledOffAll(futures, job)
      ensures submitted == old(submitted) && old(started) <= started
    {
      hide TableInv, Core, NoneLost, Settles, Evolves, Ended, Apart;
      ghost var s, t := State(), store.State();
      EvolvesSame(t);
      if job in futures {
        var n := |futures[job]|;
        for i := 0 to n
          invariant Valid() && job !in Ids(pending) && Evolves(t, store.State()) && Ended(store.State(), job)
          invariant job in futures ==> |futures[job]| == n && forall k :: 0 <= k < i ==> !futures[job][k].Waiting?
          invariant s.started <= started && submitted == s.submitted
        {
          if job in futures && futures[job][i].Waiting? {
            ghost var s1, t1 := State(), store.State();
            CalledOff(t1, s1, slots, job, i);
            futures := futures[job := futures[job][i := Done(true)]];
            assert State() == SetFuture(s1, job, i, Done(true));
            ghost var s2 := State();
            ForgetFinished(job);
            EvolvesOn(store.limits, t, t1, store.State());
            EndedLater(t, t1, store.State(), job);
            KeepsLength(s2, State(), job);
          }
        }
      }
    }

    /**
     * Another thread comes in while the scheduler is closing: to cancel a job, to report a model done, or to use the
     * store.  Handing in a job is refused by then and changes nothing.
     */
    method OtherCall()
      requires Valid() && closed
      modifies this`active, this`pending, this`futures, this`submitted, this`started, store
      ensures Valid() && Evolves(old(store.State()), store.State())
      ensures submitted == old(submitted) && old(started) <= started
    {
      hide TableInv, Core, NoneLost, Settles, Evolves, Ended;
      ghost var s := State();
      EvolvesSame(store.State());
      var job: nat, i: nat := *, *;
      if * {
        if job < store.nextId {
          var _ := Cancel(job);
        }
      } else if job in futures && i < |futures[job]| && futures[job][i] == Done(false) {
        Callback(job, i);
      } else {
        Others();
        StartsKept(s, State(), {});
        OpenOnly(State(), slots);
      }
    }

    /** Any number of such calls. */
    method OtherCalls()
      requires Valid() && closed
      modifies this`active, this`pending, this`futures, this`submitted, this`started, store
      ensures Valid() && Evolves(old(store.State()), store.State())
      ensures submitted == old(submitted) && old(started) <= started
    {
      hide TableInv, Core, NoneLost, Settles, Evolves;
      ghost var s, t := State(), store.State();
      EvolvesSame(t);
      var n: int := *;
      while n > 0
        invariant Valid() && closed && Evolves(t, store.State()) && submitted == s.submitted && s.started <= started
      {
        ghost var t1 := store.State();
        OtherCall();
        EvolvesOn(store.limits, t, t1, store.State());
        n := n - 1;
      }
    }

    /**
     * Refuses new jobs and cancels all it knows: afterwards every job ever handed in has ended, whatever other threads
     * call before, between and after its own cancellations.
     */
    method Close()
      requires Valid()
      modifies this, store
      ensures Valid() && closed && Evolves(old(store.State()), store.State())
      ensures submitted == old(submitted)
      ensures !old(closed) ==> forall j :: j in submitted ==> Ended(store.State(), j)
    {
      hide TableInv, Core, NoneLost, Settles, Evolves, Ended;
      ghost var s, t := State(), store.State();
      EvolvesSame(t);
      if closed {
        return;
      }
      closed := true;
      var known := futures.Keys + set k | 0 <= k < |pending| :: pending[k].job;
      Known(t, s, slots, known);
      OtherCalls();
      forall j | j in s.submitted && j !in known ensures Ended(store.State(), j) {
        SubmittedIds(t, s, slots, j);
        EndedStays(t, store.State(), j);
      }
      while known != {}
        invariant Valid() && closed && submitted == s.submitted && Evolves(t, store.State())
        invariant forall j :: j in known ==> j < t.nextId
        invariant forall j :: j in s.submitted ==> j in known || Ended(store.State(), j)
        decreases known
      {
        var job :| job in known;
        ghost var t1 := store.State();
        EvolvesIds(t, t1);
        var _ := Cancel(job);
        ghost var t2 := store.State();
        OtherCalls();
        EvolvesOn(store.limits, t1, t2, store.State());
        EvolvesOn(store.limits, t, t1, store.State());
        forall j | j in s.submitted && j !in known - {job} ensures Ended(store.State(), j) {
          SubmittedIds(t, s, slots, j);
          EvolvesIds(t, t1);
          EvolvesIds(t1, t2);
          if j == job {
            EndedStays(t2, store.State(), j);
          } else {
            EndedStays(t1, store.State(), j);
          }
        }
        known := known - {job};
      }
    }
  }

  // ---------------------------------------------------------------------------------------------
  // Facts the methods use

  lemma InvAt(t: Table, s: Schedule, slots: nat)
    requires Core(t, s, slots)
    ensures Apart(s, {}) && s.active == s.futures.Keys && |s.active| <= slots
    ensures forall k :: k in s.submitted ==> k < t.nextId
    ensures forall k :: k in s.futures ==> k < t.nextId
  {
    hide FuturesOk, PendingOk, Fifo;
    KnownIds(t, s, slots);
  }

  lemma FutureAt(t: Table, s: Schedule, slots: nat, j: nat, i: nat)
    requires Core(t, s, slots) && j in s.futures && i < |s.futures[j]|
    ensures j in t.jobs ==> i < |t.jobs[j].states|
    ensures s.futures[j][i].Waiting? ==> ModelFresh(t, j, i)
    ensures j !in Ids(s.pending) && j < t.nextId
  {
    hide PendingOk, Fifo, ModelFresh;
    KnownIds(t, s, slots);
    assert FuturesOk(t, j, s.futures[j]);
  }

  lemma MoveOn(lim: Limits, t: Table, t': Table, s: Schedule, slots: nat, j: nat, i: nat)
    requires Core(t, s, slots) && Steps(t, t', j, i)
    requires j in s.futures ==> i < |s.futures[j]| && !s.futures[j][i].Waiting?
    requires j !in Ids(s.pending)
    ensures Core(t', s, slots) && Evolves(t, t')
  {
    hide Core;
    KnownIds(t, s, slots);
    CoreSteps(t, t', s, slots, j, i);
  }

  lemma Nowhere(t: Table, s: Schedule, slots: nat)
    requires Core(t, s, slots)
    ensures t.nextId !in s.futures && t.nextId !in Ids(s.pending)
  {
    hide FuturesOk, PendingOk, Fifo, Accounted;
    KnownIds(t, s, slots);
  }

  lemma SettlesSame(s: Schedule)
    ensures Settles(s, s, {})
  {
  }

  lemma EvolvesSame(t: Table)
    ensures Evolves(t, t)
  {
    forall id | id in t.jobs ensures Extends(t.jobs[id], t.jobs[id]) { ExtendsReflexive(t.jobs[id]); }
  }

  lemma EvolvesOn(lim: Limits, a: Table, b: Table, c: Table)
    requires TableInv(lim, a) && Evolves(a, b) && Evolves(b, c)
    ensures Evolves(a, c)
  {
    hide JobInv, SubmissionsOk, CapacityOk, Extends;
    EvolvesTransitive(a, b, c);
  }

  lemma SetSettles(s: Schedule, j: nat, i: nat, f: FutureState)
    requires j in s.futures && i < |s.futures[j]| && !s.futures[j][i].Done? && !Called(f) && !f.Waiting?
    ensures Settles(s, SetFuture(s, j, i, f), {})
    ensures NoneLost(s) ==> NoneLost(SetFuture(s, j, i, f))
    ensures SetFuture(s, j, i, f).futures.Keys == s.futures.Keys
  {
    if NoneLost(s) { SetFutureNoneLost(s, j, i, f); }
  }

  // ---------------------------------------------------------------------------------------------
  // Facts about starting and forgetting

  lemma StartedNoneLost(s: Schedule, p: Pending)
    requires NoneLost(s) && p.models >= 1 && p.job !in s.futures
    ensures NoneLost(s.(futures := s.futures[p.job := seq(p.models, _ => Waiting)]))
  {
    var fs := seq(p.models, _ => Waiting);
    assert !Called(fs[0]);
  }

  lemma StartedSettles(s: Schedule, p: Pending)
    requires p.job !in s.futures
    ensures Settles(s, s.(futures := s.futures[p.job := seq(p.models, _ => Waiting)]), {p.job})
  {
  }

  lemma Wider(a: Schedule, b: Schedule, j: nat)
    requires Settles(a, b, {})
    ensures Settles(a, b, {j})
  {
    hide CallsKept;
  }

  /** Calling one callback of a job, just before looking whether the job is finished. */
  lemma CallSettles(t: Table, s: Schedule, slots: nat, j: nat, i: nat)
    requires Core(t, s, slots) && NoneLost(s) && j in s.futures && i < |s.futures[j]| && s.futures[j][i].Done?
    ensures var b := SetFuture(s, j, i, Done(true));
            && Core(t, b, slots) && NoneLost(Forget(b, j)) && (Awaited(b.futures[j]) || AllDone(b.futures[j]))
            && Settles(s, b, {j}) && b.futures.Keys == s.futures.Keys
  {
    var b := SetFuture(s, j, i, Done(true));
    EndedFuture(t, s, slots, j, i);
    SetFutureCore(t, s, slots, j, i, Done(true));
    hide Core, ModelEnded;
    OthersAwaited(s, b, j);
  }

  lemma EndedFuture(t: Table, s: Schedule, slots: nat, j: nat, i: nat)
    requires Core(t, s, slots) && j in s.futures && i < |s.futures[j]| && s.futures[j][i].Done?
    ensures ModelEnded(t, j, i)
  {
    hide PendingOk, Fifo, Accounted, ModelEnded;
    assert FuturesOk(t, j, s.futures[j]);
  }

  lemma OthersAwaited(s: Schedule, b: Schedule, j: nat)
    requires NoneLost(s) && j in b.futures && b.futures.Keys == s.futures.Keys
    requires forall k :: k in s.futures && k != j ==> b.futures[k] == s.futures[k]
    ensures NoneLost(Forget(b, j)) && (Awaited(b.futures[j]) || AllDone(b.futures[j]))
  {
  }

  /** A callback called, and what followed from it. */
  lemma CalledThenForgot(s: Schedule, s1: Schedule, s2: Schedule, f: Schedule, j: nat, i: nat)
    requires Apart(s, {}) && Settles(s, s1, {}) && Settles(s1, s2, {j}) && Settles(s2, f, {}) && j !in Ids(s.pending)
    requires j in s1.futures && i < |s1.futures[j]| && s2 == SetFuture(s1, j, i, Done(true))
    ensures Settles(s, f, {j}) && |f.pending| <= |s.pending|
    ensures j in f.futures ==>
              && j in s.futures && |f.futures[j]| == |s.futures[j]|
              && forall k :: 0 <= k < |f.futures[j]| && k != i ==> Called(f.futures[j][k]) == Called(s.futures[j][k])
  {
    hide Ids;
    if j in f.futures {
      assert CallsKept(s.futures[j], s1.futures[j]) && CallsKept(s2.futures[j], f.futures[j]);
    }
    forall k | k in s.futures && k in f.futures && k != j ensures CallsKept(s.futures[k], f.futures[k]) {
      assert CallsKept(s.futures[k], s1.futures[k]) && CallsKept(s1.futures[k], s2.futures[k]);
      assert CallsKept(s2.futures[k], f.futures[k]);
    }
  }

  lemma ForgetSettles(s: Schedule, j: nat)
    ensures Settles(s, Forget(s, j), {})
  {
  }

  lemma PopSettles(s: Schedule)
    requires s.pending != []
    ensures Settles(s, s.(pending := s.pending[1..]), {})
    ensures NoneLost(s) ==> NoneLost(s.(pending := s.pending[1..]))
  {
    PopIds(s.pending);
  }

  lemma PopIds(pending: seq<Pending>)
    requires pending != []
    ensures forall j :: j in Ids(pending[1..]) ==> j in Ids(pending)
    ensures pending[0].job in Ids(pending)
  {
    assert Ids(pending)[0] == pending[0].job;
    forall j | j in Ids(pending[1..]) ensures j in Ids(pending) {
      var k :| 0 <= k < |pending[1..]| && Ids(pending[1..])[k] == j;
      assert Ids(pending)[k + 1] == j;
    }
  }

  lemma EndedLater(t0: Table, t1: Table, t2: Table, j: nat)
    requires Evolves(t0, t1) && Evolves(t1, t2) && j < t0.nextId && Ended(t1, j)
    ensures Ended(t2, j)
  {
    EndedStays(t1, t2, j);
  }

  lemma NextEnded(lim: Limits, t: Table, j: nat)
    requires TableInv(lim, t) && (j in t.jobs ==> t.jobs[j].status == JobCancelled)
    ensures Ended(t, j)
  {
    if j in t.jobs { assert StatusMatches(t.jobs[j]); }
  }

  /** The head of the queue may be started. */
  lemma StartReady(t: Table, s: Schedule, slots: nat, b: Schedule)
    requires Core(t, s, slots) && s.pending != [] && NoneLost(s)
    requires b == s.(pending := s.pending[1..], active := s.active + {s.pending[0].job},
                     started := s.started + [s.pending[0].job])
    ensures var p := s.pending[0];
            && p.models >= 1 && p.job !in b.futures && p.job in b.started && p.job in b.submitted
            && p.job !in Ids(b.pending) && Apart(b, {p.job}) && NoneLost(b)
            && b.(futures := b.futures[p.job := seq(p.models, _ => Waiting)])
               == Begun(s.(pending := s.pending[1..]), p)
  {
    var p := s.pending[0];
    KnownIds(t, s, slots);
    assert PendingOk(t, p);
    PopIds(s.pending);
    var order := s.started + Ids(s.pending);
    assert order[|s.started|] == p.job;
    forall k | 0 <= k < |b.pending| ensures Ids(b.pending)[k] != p.job {
      assert order[|s.started| + k + 1] == Ids(b.pending)[k];
    }
  }

  lemma StartTookNext(s: Schedule, s1: Schedule, f: Schedule, next: Pending)
    requires Apart(s, {}) && s.pending != [] && next == s.pending[0]
    requires s1 == s.(pending := s.pending[1..], active := s.active + {next.job}, started := s.started + [next.job])
    requires Settles(s1, f, {next.job})
    ensures Settles(s, f, {}) && |f.pending| < |s.pending|
  {
    PopIds(s.pending);
    hide CallsKept, Ids;
  }

  /** A job that left the active set does not come back. */
  lemma StaysForgotten(s: Schedule, s1: Schedule, f: Schedule, j: nat)
    requires Apart(s, {}) && Settles(s, s1, {}) && Settles(s1, f, {}) && j in s.futures && j !in s1.futures
    ensures j !in f.futures
  {
    hide CallsKept;
  }

  lemma StillAwaited(s: Schedule, j: nat)
    requires NoneLost(Forget(s, j)) && (j in s.futures ==> Awaited(s.futures[j]))
    ensures NoneLost(s)
  {
    hide Awaited;
    forall k | k in s.futures ensures Awaited(s.futures[k]) {
      if k != j { assert k in Forget(s, j).futures; }
    }
  }

  // ---------------------------------------------------------------------------------------------
  // Facts about the queue and about closing

  lemma SameFutures(s: Schedule, s': Schedule)
    requires s'.futures == s.futures
    ensures NoneLost(s) ==> NoneLost(s')
  {
  }

  lemma StartsKept(s: Schedule, s': Schedule, extra: set<nat>)
    requires Settles(s, s', extra)
    ensures s.started <= s'.started && s'.submitted == s.submitted
    ensures forall j :: j in Ids(s'.pending) ==> j in Ids(s.pending)
  {
    hide CallsKept, Ids;
  }

  lemma SameDone(fs: seq<FutureState>, i: nat)
    requires i < |fs| && fs[i].Done?
    ensures AllDone(fs[i := Done(true)]) <==> AllDone(fs)
  {
    var gs := fs[i := Done(true)];
    assert forall k :: 0 <= k < |fs| ==> gs[k].Done? == fs[k].Done?;
  }

  lemma DropIds(pending: seq<Pending>, k: nat)
    requires k < |pending|
    ensures forall j :: j in Ids(pending[..k] + pending[k + 1..]) ==> j in Ids(pending)
  {
    var rest := pending[..k] + pending[k + 1..];
    forall j | j in Ids(rest) ensures j in Ids(pending) {
      var l :| 0 <= l < |rest| && Ids(rest)[l] == j;
      assert Ids(pending)[if l < k then l else l + 1] == j;
    }
  }

  /** A waiting model of a job that has ended counts as done. */
  lemma CalledOff(t: Table, s: Schedule, slots: nat, j: nat, i: nat)
    requires Core(t, s, slots) && NoneLost(s) && Ended(t, j) && j in s.futures && i < |s.futures[j]|
    requires s.futures[j][i].Waiting?
    ensures var b := SetFuture(s, j, i, Done(true));
            && Core(t, b, slots) && NoneLost(Forget(b, j)) && (Awaited(b.futures[j]) || AllDone(b.futures[j]))
  {
    EndedModel(t, s, slots, j, i);
    SetFutureCore(t, s, slots, j, i, Done(true));
    hide Core, ModelEnded, Ended;
  }

  lemma EndedModel(t: Table, s: Schedule, slots: nat, j: nat, i: nat)
    requires Core(t, s, slots) && Ended(t, j) && j in s.futures && i < |s.futures[j]|
    ensures ModelEnded(t, j, i)
  {
    hide PendingOk, Fifo, Accounted;
    assert FuturesOk(t, j, s.futures[j]);
  }

  lemma KeepsLength(s: Schedule, s': Schedule, j: nat)
    requires Settles(s, s', {}) && j !in Ids(s.pending)
    ensures j in s'.futures ==>
              j in s.futures && CallsKept(s.futures[j], s'.futures[j]) && |s'.futures[j]| == |s.futures[j]|
    ensures j !in Ids(s'.pending) && s.started <= s'.started && s'.submitted == s.submitted
  {
    hide Ids;
  }

  lemma Known(t: Table, s: Schedule, slots: nat, known: set<nat>)
    requires Core(t, s, slots)
    requires known == s.futures.Keys + set k | 0 <= k < |s.pending| :: s.pending[k].job
    ensures forall j :: j in known ==> j < t.nextId
    ensures forall j :: j in s.submitted ==> j in known || Ended(t, j)
  {
    KnownIds(t, s, slots);
    hide FuturesOk, PendingOk, Fifo, Ended;
    forall j | j in s.submitted ensures j in known || Ended(t, j) {
      assert Accounted(t, s, j);
      if j in Ids(s.pending) {
        var k :| 0 <= k < |s.pending| && Ids(s.pending)[k] == j;
        assert s.pending[k].job == j;
      }
    }
  }

  lemma EvolvesIds(a: Table, b: Table)
    requires Evolves(a, b)
    ensures a.nextId <= b.nextId
  {
  }

  lemma SubmittedIds(t: Table, s: Schedule, slots: nat, j: nat)
    requires Core(t, s, slots) && j in s.submitted
    ensures j < t.nextId
  {
    hide FuturesOk, PendingOk, Fifo, Accounted;
  }

  /** A closed scheduler owes nobody a slot. */
  lemma OpenOnly(s: Schedule, slots: nat)
    ensures Conserved(s, slots, true)
  {
  }
}
