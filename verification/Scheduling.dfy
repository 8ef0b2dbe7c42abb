/** What the model scheduler promises, as predicates over its state and the job table. */
module Scheduling {
  import opened Common
  import opened Jobs
  import opened JobTable

  /** A model's future; once done its callback is called, at once or later by the worker's thread. */
  datatype FutureState = Waiting | Working | Done(called: bool)

  datatype Pending = Pending(job: nat, models: nat)

  /** `submitted` and `started` remember all jobs handed in and all jobs started, in order. */
  datatype Schedule = Schedule(
    active: set<nat>, pending: seq<Pending>, futures: map<nat, seq<FutureState>>,
    submitted: seq<nat>, started: seq<nat>)

  function Ids(pending: seq<Pending>): seq<nat> {
    seq(|pending|, k requires 0 <= k < |pending| => pending[k].job)
  }

  // ---------------------------------------------------------------------------------------------
  // Subsequences

  predicate InOrder(a: seq<nat>, b: seq<nat>)
    decreases |b|
  {
    if a == [] then true
    else if b == [] then false
    else if a[|a| - 1] == b[|b| - 1] then InOrder(a[..|a| - 1], b[..|b| - 1])
    else InOrder(a, b[..|b| - 1])
  }

  lemma {:induction false} InOrderLonger(a: seq<nat>, b: seq<nat>, x: nat)
    requires InOrder(a, b)
    ensures InOrder(a, b + [x]) && (a != [] ==> InOrder(a[..|a| - 1], b))
    decreases |b|
  {
    assert (b + [x])[..|b|] == b;
    if a != [] {
      var b' := b[..|b| - 1];
      if a[|a| - 1] == b[|b| - 1] {
        InOrderLonger(a[..|a| - 1], b', b[|b| - 1]);
        assert b' + [b[|b| - 1]] == b;
      } else {
        InOrderLonger(a, b', b[|b| - 1]);
        InOrderLonger(a[..|a| - 1], b', b[|b| - 1]);
        assert b' + [b[|b| - 1]] == b;
      }
    }
  }

  lemma InOrderBoth(a: seq<nat>, b: seq<nat>, x: nat)
    requires InOrder(a, b)
    ensures InOrder(a + [x], b + [x])
  {
    assert (a + [x])[..|a|] == a && (b + [x])[..|b|] == b;
  }

  /** Deleting one element keeps the order of the others. */
  lemma {:induction false} InOrderWithout(a: seq<nat>, b: seq<nat>, k: nat)
    requires InOrder(a, b) && k < |a|
    ensures InOrder(a[..k] + a[k + 1..], b)
    decreases |b|
  {
    var last := |a| - 1;
    var c := a[..k] + a[k + 1..];
    var b' := b[..|b| - 1];
    assert b == b' + [b[|b| - 1]];
    if k == last {
      InOrderLonger(a, b, 0);
      assert c == a[..last];
    } else if a[last] == b[|b| - 1] {
      InOrderWithout(a[..last], b', k);
      assert c == (a[..last][..k] + a[..last][k + 1..]) + [a[last]];
      InOrderBoth(a[..last][..k] + a[..last][k + 1..], b', a[last]);
    } else {
      InOrderWithout(a, b', k);
      InOrderLonger(c, b', b[|b| - 1]);
    }
  }

  lemma {:induction false} InOrderMembers(a: seq<nat>, b: seq<nat>)
    requires InOrder(a, b)
    ensures forall x :: x in a ==> x in b
    decreases |b|
  {
    if a != [] {
      var last := |b| - 1;
      assert b == b[..last] + [b[last]] && a == a[..|a| - 1] + [a[|a| - 1]];
      if a[|a| - 1] == b[last] {
        InOrderMembers(a[..|a| - 1], b[..last]);
      } else {
        InOrderMembers(a, b[..last]);
      }
    }
  }

  // ---------------------------------------------------------------------------------------------
  // Jobs and models, as the table sees them

  predicate Ended(t: Table, j: nat) { j in t.jobs ==> AllTerminal(t.jobs[j].states) }

  predicate ModelEnded(t: Table, j: nat, i: nat) {
    j in t.jobs ==> i < |t.jobs[j].states| && t.jobs[j].states[i].Terminal()
  }

  /** Not begun: queued still, or cancelled before it could begin. */
  predicate ModelFresh(t: Table, j: nat, i: nat) {
    j in t.jobs ==> i < |t.jobs[j].states| && (t.jobs[j].states[i] == Queued || t.jobs[j].states[i].Terminal())
  }

  /** What any of the store's operations does, except that it may begin or end model i of job j. */
  ghost predicate Steps(t: Table, t': Table, j: nat, i: nat) {
    && Evolves(t, t')
    && (forall k :: k in t.jobs && k in t'.jobs ==> |t'.jobs[k].states| == |t.jobs[k].states|)
    && forall k, l :: k in t.jobs && k in t'.jobs && 0 <= l < |t.jobs[k].states| && (k != j || l != i) ==>
         t'.jobs[k].states[l] == t.jobs[k].states[l] || t'.jobs[k].states[l].Terminal()
  }

  // ---------------------------------------------------------------------------------------------
  // The invariant

  ghost predicate FuturesOk(t: Table, j: nat, fs: seq<FutureState>) {
    && |fs| >= 1 && (j in t.jobs ==> |fs| == |t.jobs[j].states|)
    && forall i :: 0 <= i < |fs| ==>
         (fs[i].Waiting? ==> ModelFresh(t, j, i)) && (fs[i].Done? ==> ModelEnded(t, j, i))
  }

  ghost predicate PendingOk(t: Table, p: Pending) {
    && p.models >= 1 && (p.job in t.jobs ==> p.models == |t.jobs[p.job].states|)
    && forall i :: 0 <= i < p.models ==> ModelFresh(t, p.job, i)
  }

  predicate Accounted(t: Table, s: Schedule, j: nat) {
    j in Ids(s.pending) || j in s.futures || Ended(t, j)
  }

  /** Jobs start in the order they were handed in, some are dropped on the way, none is started twice. */
  ghost predicate Fifo(s: Schedule) {
    && InOrder(s.started + Ids(s.pending), s.submitted)
    && Distinct(s.started + Ids(s.pending))
    && forall j :: j in s.futures ==> j in s.started
  }

  ghost predicate Core(t: Table, s: Schedule, slots: nat) {
    && s.active == s.futures.Keys && |s.active| <= slots
    && (forall j :: j in s.futures ==> FuturesOk(t, j, s.futures[j]))
    && (forall k :: 0 <= k < |s.pending| ==> PendingOk(t, s.pending[k]))
    && (forall j :: j in s.submitted ==> j < t.nextId && Accounted(t, s, j))
    && Fifo(s)
  }

  predicate Called(f: FutureState) { f.Done? && f.called }

  /** Some callback of the job is still to come. */
  ghost predicate Awaited(fs: seq<FutureState>) {
    exists i :: 0 <= i < |fs| && !Called(fs[i])
  }

  ghost predicate NoneLost(s: Schedule) {
    forall j :: j in s.futures ==> Awaited(s.futures[j])
  }

  /** While the scheduler is open, a job waits only if all slots are taken. */
  predicate Conserved(s: Schedule, slots: nat, closed: bool) {
    closed || s.pending == [] || |s.active| >= slots
  }

  predicate AllDone(fs: seq<FutureState>) { forall i :: 0 <= i < |fs| ==> fs[i].Done? }

  // ---------------------------------------------------------------------------------------------
  // The table moves

  lemma StepsEnded(t: Table, t': Table, j: nat, i: nat, k: nat)
    requires Steps(t, t', j, i) && k < t.nextId
    ensures Ended(t, k) ==> Ended(t', k)
    ensures forall l: nat :: ModelEnded(t, k, l) ==> ModelEnded(t', k, l)
    ensures forall l: nat :: ModelFresh(t, k, l) && (k != j || l != i) ==> ModelFresh(t', k, l)
    ensures k in t'.jobs ==> k in t.jobs && |t'.jobs[k].states| == |t.jobs[k].states|
  {
  }

  /** A step of the table that begins or ends no waiting model keeps everything. */
  lemma CoreSteps(t: Table, t': Table, s: Schedule, slots: nat, j: nat, i: nat)
    requires Core(t, s, slots) && Steps(t, t', j, i) && t.nextId <= t'.nextId
    requires j in s.futures ==> i < |s.futures[j]| && !s.futures[j][i].Waiting?
    requires j !in Ids(s.pending)
    requires forall k :: k in s.started ==> k < t.nextId
    requires forall k :: 0 <= k < |s.pending| ==> s.pending[k].job < t.nextId
    ensures Core(t', s, slots)
  {
    hide Steps, Fifo, ModelFresh, ModelEnded, Ended;
    forall k | k in s.futures ensures FuturesOk(t', k, s.futures[k]) {
      FutureInStarted(s, k);
      StepsEnded(t, t', j, i, k);
    }
    forall k | 0 <= k < |s.pending| ensures PendingOk(t', s.pending[k]) {
      assert Ids(s.pending)[k] == s.pending[k].job;
      StepsEnded(t, t', j, i, s.pending[k].job);
    }
    forall k | k in s.submitted ensures Accounted(t', s, k) {
      StepsEnded(t, t', j, i, k);
    }
  }

  lemma FutureInStarted(s: Schedule, k: nat)
    requires Fifo(s) && k in s.futures
    ensures k in s.started
  {
  }

  lemma KnownIds(t: Table, s: Schedule, slots: nat)
    requires Core(t, s, slots)
    ensures forall k :: k in s.started ==> k < t.nextId
    ensures forall k :: 0 <= k < |s.pending| ==> s.pending[k].job < t.nextId
    ensures forall k :: k in s.futures ==> k in s.submitted
    ensures forall k :: 0 <= k < |s.pending| ==> s.pending[k].job !in s.futures && s.pending[k].job in s.submitted
    ensures forall k :: k in s.futures ==> k !in Ids(s.pending)
  {
    var order := s.started + Ids(s.pending);
    InOrderMembers(order, s.submitted);
    forall k | 0 <= k < |s.pending|
      ensures s.pending[k].job in s.submitted && s.pending[k].job !in s.futures
    {
      assert order[|s.started| + k] == s.pending[k].job;
      forall l | 0 <= l < |s.started| ensures s.started[l] != s.pending[k].job {
        assert order[l] == s.started[l];
      }
    }
    forall k | k in s.started ensures k in s.submitted { assert k in order; }
    forall k | k in Ids(s.pending) ensures k !in s.futures {
      var l :| 0 <= l < |s.pending| && Ids(s.pending)[l] == k;
    }
  }

  // ---------------------------------------------------------------------------------------------
  // The schedule moves

  /** A future moves on: a waiting model begins, or a model ends. */
  function SetFuture(s: Schedule, j: nat, i: nat, f: FutureState): Schedule
    requires j in s.futures && i < |s.futures[j]|
  {
    s.(futures := s.futures[j := s.futures[j][i := f]])
  }

  lemma SetFutureCore(t: Table, s: Schedule, slots: nat, j: nat, i: nat, f: FutureState)
    requires Core(t, s, slots) && j in s.futures && i < |s.futures[j]|
    requires !f.Waiting? && (f.Done? ==> ModelEnded(t, j, i))
    ensures Core(t, SetFuture(s, j, i, f), slots)
  {
    hide Ended, ModelFresh, ModelEnded, InOrder, Distinct;
    var s' := SetFuture(s, j, i, f);
    assert s'.futures.Keys == s.futures.Keys;
  }

  lemma SetFutureNoneLost(s: Schedule, j: nat, i: nat, f: FutureState)
    requires NoneLost(s) && j in s.futures && i < |s.futures[j]| && !Called(f)
    ensures NoneLost(SetFuture(s, j, i, f))
  {
    var fs := s.futures[j][i := f];
    assert !Called(fs[i]);
  }

  /** A job whose models have all ended leaves the active set. */
  function Forget(s: Schedule, j: nat): Schedule {
    s.(active := s.active - {j}, futures := s.futures - {j})
  }

  lemma ForgetCore(t: Table, s: Schedule, slots: nat, j: nat)
    requires Core(t, s, slots) && j in s.futures && AllDone(s.futures[j])
    ensures Core(t, Forget(s, j), slots) && Ended(t, j)
  {
    hide InOrder, Distinct;
    var s' := Forget(s, j);
    assert Ended(t, j) by { AllDoneEnded(t, j, s.futures[j]); }
    hide Ended, FuturesOk, PendingOk;
    SmallerSet(s.active, j);
    forall k | k in s.submitted ensures Accounted(t, s', k) { assert Accounted(t, s, k); }
  }

  lemma AllDoneEnded(t: Table, j: nat, fs: seq<FutureState>)
    requires FuturesOk(t, j, fs) && AllDone(fs)
    ensures Ended(t, j)
  {
    if j in t.jobs {
      forall i | 0 <= i < |t.jobs[j].states| ensures t.jobs[j].states[i].Terminal() {
        assert fs[i].Done? && ModelEnded(t, j, i);
      }
    }
  }

  lemma SmallerSet(a: set<nat>, j: nat)
    ensures |a - {j}| <= |a|
  {
    if j in a { assert a == (a - {j}) + {j}; } else { assert a - {j} == a; }
  }

  /** A job that has ended is dropped from the queue. */
  lemma DropCore(t: Table, s: Schedule, slots: nat, k: nat)
    requires Core(t, s, slots) && k < |s.pending| && Ended(t, s.pending[k].job)
    ensures Core(t, s.(pending := s.pending[..k] + s.pending[k + 1..]), slots)
  {
    hide Ended, FuturesOk, PendingOk, InOrder, Distinct;
    var s' := s.(pending := s.pending[..k] + s.pending[k + 1..]);
    DropFifo(s, k);
    DropAccounts(t, s, k);
  }

  lemma DropFifo(s: Schedule, k: nat)
    requires Fifo(s) && k < |s.pending|
    ensures Fifo(s.(pending := s.pending[..k] + s.pending[k + 1..]))
  {
    var order, at := s.started + Ids(s.pending), |s.started| + k;
    assert s.started + Ids(s.pending[..k] + s.pending[k + 1..]) == order[..at] + order[at + 1..];
    InOrderWithout(order, s.submitted, at);
    hide InOrder;
  }

  lemma DropAccounts(t: Table, s: Schedule, k: nat)
    requires k < |s.pending| && Ended(t, s.pending[k].job)
    ensures forall j :: Accounted(t, s, j) ==> Accounted(t, s.(pending := s.pending[..k] + s.pending[k + 1..]), j)
  {
    hide Ended;
    var rest := s.pending[..k] + s.pending[k + 1..];
    forall j | j in Ids(s.pending) && j != s.pending[k].job ensures j in Ids(rest) {
      var l :| 0 <= l < |s.pending| && Ids(s.pending)[l] == j;
      assert Ids(rest)[if l < k then l else l - 1] == j;
    }
  }

  /** A job is started: from the head of the queue, or straight away when nobody waits. */
  function Begun(s: Schedule, p: Pending): Schedule {
    s.(active := s.active + {p.job}, started := s.started + [p.job],
       futures := s.futures[p.job := seq(p.models, _ => Waiting)])
  }

  lemma StartCore(t: Table, s: Schedule, slots: nat)
    requires Core(t, s, slots) && s.pending != [] && |s.active| < slots
    ensures Core(t, Begun(s.(pending := s.pending[1..]), s.pending[0]), slots)
  {
    hide Ended, ModelFresh, ModelEnded, InOrder, Distinct;
    KnownIds(t, s, slots);
    var p := s.pending[0];
    var s' := Begun(s.(pending := s.pending[1..]), p);
    assert s'.started + Ids(s'.pending) == s.started + Ids(s.pending);
    assert PendingOk(t, p);
    StartAccounts(t, s);
    assert p.job !in s.futures;
    assert |s'.active| <= |s.active| + 1;
    assert FuturesOk(t, p.job, s'.futures[p.job]);
  }

  lemma StartAccounts(t: Table, s: Schedule)
    requires s.pending != []
    ensures forall j :: Accounted(t, s, j) ==> Accounted(t, Begun(s.(pending := s.pending[1..]), s.pending[0]), j)
  {
    hide Ended;
    var p := s.pending[0];
    var s' := Begun(s.(pending := s.pending[1..]), p);
    forall j | j in Ids(s.pending) && j != p.job ensures j in Ids(s'.pending) {
      var l :| 0 <= l < |s.pending| && Ids(s.pending)[l] == j;
      assert Ids(s'.pending)[l - 1] == j;
    }
  }

  /** A job handed in joins the queue. */
  lemma QueueCore(t: Table, s: Schedule, slots: nat, p: Pending)
    requires Core(t, s, slots) && p.job !in s.submitted && p.job < t.nextId && PendingOk(t, p)
    ensures Core(t, s.(pending := s.pending + [p], submitted := s.submitted + [p.job]), slots)
  {
    hide Ended, FuturesOk, PendingOk, InOrder, Distinct;
    var s' := s.(pending := s.pending + [p], submitted := s.submitted + [p.job]);
    QueueFifo(s, p);
    QueueAccounts(t, s, p);
    assert p.job in Ids(s'.pending) by { assert Ids(s'.pending)[|s.pending|] == p.job; }
  }

  lemma QueueFifo(s: Schedule, p: Pending)
    requires Fifo(s) && p.job !in s.submitted
    ensures Fifo(s.(pending := s.pending + [p], submitted := s.submitted + [p.job]))
  {
    var order := s.started + Ids(s.pending);
    assert s.started + Ids(s.pending + [p]) == order + [p.job];
    InOrderMembers(order, s.submitted);
    InOrderBoth(order, s.submitted, p.job);
    hide InOrder;
    assert forall k :: 0 <= k < |order| ==> order[k] in order;
  }

  lemma QueueAccounts(t: Table, s: Schedule, p: Pending)
    ensures forall j :: Accounted(t, s, j) ==>
              Accounted(t, s.(pending := s.pending + [p], submitted := s.submitted + [p.job]), j)
  {
    hide Ended;
    forall j | j in Ids(s.pending) ensures j in Ids(s.pending + [p]) {
      var l :| 0 <= l < |s.pending| && Ids(s.pending)[l] == j;
      assert Ids(s.pending + [p])[l] == j;
    }
  }
}
