/** The backlog series of one stage: requests for a resource that were issued and not yet granted. */
module Backlog {
  import opened Common
  import opened Metrics

  /** A record of the resource tracker, as far as waiting is concerned: +1, -1 or 0. */
  datatype Record = Record(time: real, waiting: int)

  /** The sum of all records up to and including a time, in whatever order they were logged. */
  function Net(log: seq<Record>, t: real): int {
    if log == [] then 0
    else Net(log[..|log| - 1], t) + (if log[|log| - 1].time <= t then log[|log| - 1].waiting else 0)
  }

  function At(log: seq<Record>, t: real): int {
    if log == [] then 0
    else At(log[..|log| - 1], t) + (if log[|log| - 1].time == t then log[|log| - 1].waiting else 0)
  }

  predicate Logged(log: seq<Record>, t: real) { exists k :: 0 <= k < |log| && log[k].time == t }

  ghost predicate Rising(ts: seq<real>) { forall i, j :: 0 <= i < j < |ts| ==> ts[i] < ts[j] }

  lemma {:induction false} NetStep(log: seq<Record>, a: real, b: real)
    requires a < b && forall t :: Logged(log, t) ==> t <= a || b <= t
    ensures Net(log, b) == Net(log, a) + At(log, b)
  {
    if log != [] {
      var last := |log| - 1;
      assert Logged(log, log[last].time);
      ShorterLogged(log);
      forall t | Logged(log[..last], t) ensures t <= a || b <= t { assert Logged(log, t); }
      NetStep(log[..last], a, b);
    }
  }

  lemma {:induction false} NetFirst(log: seq<Record>, b: real)
    requires forall t :: Logged(log, t) ==> b <= t
    ensures Net(log, b) == At(log, b)
  {
    if log != [] {
      var init := log[..|log| - 1];
      assert Logged(log, log[|log| - 1].time);
      ShorterLogged(log);
      forall t | Logged(init, t) ensures b <= t { assert Logged(log, t); }
      NetFirst(init, b);
    }
  }

  lemma ShorterLogged(log: seq<Record>)
    requires log != []
    ensures forall t :: Logged(log, t) <==> Logged(log[..|log| - 1], t) || t == log[|log| - 1].time
  {
    var init := log[..|log| - 1];
    forall t ensures Logged(log, t) <==> Logged(init, t) || t == log[|log| - 1].time {
      if Logged(log, t) && t != log[|log| - 1].time {
        var k :| 0 <= k < |log| && log[k].time == t;
        assert init[k].time == t;
      }
      if Logged(init, t) {
        var k :| 0 <= k < |init| && init[k].time == t;
        assert log[k].time == t;
      }
    }
  }

  // ---------------------------------------------------------------------------------------------
  // Computing the series

  /** Adds up the records of equal times. */
  method Group(log: seq<Record>) returns (groups: map<real, int>)
    ensures forall t :: t in groups <==> Logged(log, t)
    ensures forall t :: t in groups ==> groups[t] == At(log, t)
  {
    groups := map[];
    for i := 0 to |log|
      invariant forall t :: t in groups <==> Logged(log[..i], t)
      invariant forall t :: At(log[..i], t) == if t in groups then groups[t] else 0
    {
      var r := log[i];
      assert log[..i + 1][..i] == log[..i] && log[..i + 1][i] == r;
      ShorterLogged(log[..i + 1]);
      groups := groups[r.time := (if r.time in groups then groups[r.time] else 0) + r.waiting];
    }
    assert log[..|log|] == log;
  }

  /** The logged times in order, each once. */
  function Times(log: seq<Record>): seq<real> {
    if log == [] then []
    else
      var ts, t := Times(log[..|log| - 1]), log[|log| - 1].time;
      if t in ts then ts else Inserted(ts, t)
  }

  lemma {:induction false} TimesInOrder(log: seq<Record>)
    ensures Rising(Times(log)) && forall t :: t in Times(log) <==> Logged(log, t)
  {
    if log != [] {
      TimesInOrder(log[..|log| - 1]);
      ShorterLogged(log);
      if log[|log| - 1].time !in Times(log[..|log| - 1]) {
        InsertedOk(Times(log[..|log| - 1]), log[|log| - 1].time);
      }
    }
  }

  function Inserted(ts: seq<real>, t: real): seq<real> {
    if ts == [] || t < ts[0] then [t] + ts else [ts[0]] + Inserted(ts[1..], t)
  }

  lemma {:induction false} InsertedOk(ts: seq<real>, t: real)
    requires Rising(ts) && t !in ts
    ensures Rising(Inserted(ts, t)) && forall u :: u in Inserted(ts, t) <==> u in ts || u == t
  {
    if ts != [] && !(t < ts[0]) {
      var rest := Inserted(ts[1..], t);
      assert ts == [ts[0]] + ts[1..];
      InsertedOk(ts[1..], t);
      forall k | 0 <= k < |rest| ensures ts[0] < rest[k] {
        assert rest[k] in rest;
      }
    }
  }

  /** The points between the first and the last one. */
  function Series(log: seq<Record>, ts: seq<real>): seq<Point> {
    seq(|ts|, k requires 0 <= k < |ts| => Point(ts[k], Net(log, ts[k])))
  }

  /**
   * None stands for the error that the backlog became negative; it is raised exactly when it is negative at some logged
   * time.  Otherwise the series gives, at every logged time, the sum of all records up to it.
   */
  method BacklogSeries(log: seq<Record>, completion: real) returns (r: Option<seq<Point>>)
    ensures r.None? <==> exists t :: Logged(log, t) && Net(log, t) < 0
    ensures r.Some? ==>
              r.value == [Point(0.0, 0)] + Series(log, Times(log))
                         + [Point(completion, if log == [] then 0 else Net(log, Times(log)[|Times(log)| - 1]))]
  {
    hide Times, Logged, Rising;
    var groups := Group(log);
    var ts := Times(log);
    TimesInOrder(log);
    NoTimes(log);
    var points, current := [Point(0.0, 0)], 0;
    for i := 0 to |ts|
      invariant points == [Point(0.0, 0)] + Series(log, ts[..i])
      invariant current == if i == 0 then 0 else Net(log, ts[i - 1])
      invariant forall k :: 0 <= k < i ==> Net(log, ts[k]) >= 0
    {
      assert ts[i] in groups;
      StepAt(log, ts, i);
      current := current + groups[ts[i]];
      if current < 0 {
        return None;
      }
      points := points + [Point(ts[i], current)];
      assert Series(log, ts[..i + 1]) == Series(log, ts[..i]) + [Point(ts[i], Net(log, ts[i]))];
    }
    assert ts[..|ts|] == ts;
    r := Some(points + [Point(completion, current)]);
  }

  lemma NoTimes(log: seq<Record>)
    ensures Times(log) == [] <==> log == []
  {
    TimesInOrder(log);
    if log != [] { assert Logged(log, log[0].time); }
  }

  lemma StepAt(log: seq<Record>, ts: seq<real>, i: nat)
    requires Rising(ts) && i < |ts| && forall t :: t in ts <==> Logged(log, t)
    ensures Net(log, ts[i]) == (if i == 0 then 0 else Net(log, ts[i - 1])) + At(log, ts[i])
  {
    forall t | Logged(log, t) ensures ts[i] <= t || (i > 0 && t <= ts[i - 1]) {
      var k :| 0 <= k < |ts| && ts[k] == t;
    }
    if i == 0 { NetFirst(log, ts[0]); } else { NetStep(log, ts[i - 1], ts[i]); }
  }

  // ---------------------------------------------------------------------------------------------
  // The logs the simulation writes

  /** What an operator logs: a request issued, a request granted, or something that does not concern waiting. */
  datatype Move = Issue(time: real) | Grant(time: real) | Other(time: real)

  function RecordOf(m: Move): Record {
    match m
    case Issue(t) => Record(t, 1)
    case Grant(t) => Record(t, -1)
    case Other(t) => Record(t, 0)
  }

  function Records(ms: seq<Move>): seq<Record> {
    seq(|ms|, k requires 0 <= k < |ms| => RecordOf(ms[k]))
  }

  /** How many of the requests issued have not been granted. */
  function Outstanding(ms: seq<Move>): int {
    if ms == [] then 0
    else
      Outstanding(ms[..|ms| - 1])
      + match ms[|ms| - 1] { case Issue(_) => 1 case Grant(_) => -1 case Other(_) => 0 }
  }

  /** The clock does not go back, and only an outstanding request is granted. */
  predicate Legal(ms: seq<Move>) {
    ms != [] ==>
      && Legal(ms[..|ms| - 1])
      && (|ms| > 1 ==> ms[|ms| - 2].time <= ms[|ms| - 1].time)
      && (ms[|ms| - 1].Grant? ==> Outstanding(ms[..|ms| - 1]) > 0)
  }

  /** The moves up to and including a time. */
  function UpTo(ms: seq<Move>, t: real): seq<Move> {
    if ms == [] then []
    else if ms[|ms| - 1].time <= t then ms
    else UpTo(ms[..|ms| - 1], t)
  }

  lemma {:induction false} NeverNegative(ms: seq<Move>)
    requires Legal(ms)
    ensures Outstanding(ms) >= 0
  {
    if ms != [] { NeverNegative(ms[..|ms| - 1]); }
  }

  lemma {:induction false} UpToLegal(ms: seq<Move>, t: real)
    requires Legal(ms)
    ensures Legal(UpTo(ms, t))
  {
    if ms != [] && !(ms[|ms| - 1].time <= t) { UpToLegal(ms[..|ms| - 1], t); }
  }

  lemma {:induction false} TimesRise(ms: seq<Move>, k: nat)
    requires Legal(ms) && k < |ms|
    ensures ms[k].time <= ms[|ms| - 1].time
  {
    if k < |ms| - 1 {
      TimesRise(ms[..|ms| - 1], k);
    }
  }

  /** With a clock that does not go back, the sum up to a time is what was outstanding at that time. */
  lemma {:induction false} NetIsOutstanding(ms: seq<Move>, t: real)
    requires Legal(ms)
    ensures Net(Records(ms), t) == Outstanding(UpTo(ms, t))
  {
    if ms != [] {
      var init := ms[..|ms| - 1];
      assert Records(ms)[..|ms| - 1] == Records(init);
      NetIsOutstanding(init, t);
      if ms[|ms| - 1].time <= t {
        AllUpTo(init, t, ms);
      }
    }
  }

  lemma AllUpTo(init: seq<Move>, t: real, ms: seq<Move>)
    requires Legal(ms) && ms != [] && init == ms[..|ms| - 1] && ms[|ms| - 1].time <= t
    ensures UpTo(init, t) == init
  {
    if init != [] { TimesRise(ms, |ms| - 2); }
  }

  /** For any log the simulation writes, the backlog is the number of waiting requests, and never negative. */
  lemma BacklogIsWaiting(ms: seq<Move>, t: real)
    requires Legal(ms)
    ensures Net(Records(ms), t) == Outstanding(UpTo(ms, t)) >= 0
  {
    NetIsOutstanding(ms, t);
    UpToLegal(ms, t);
    NeverNegative(UpTo(ms, t));
  }
}
