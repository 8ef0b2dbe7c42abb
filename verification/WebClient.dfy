/** The Python client's polling loop: page, then status, until the job has ended and its log is read out. */
module WebClient {
  import opened Common
  import opened Jobs
  import opened JobTable

  datatype Reply =
    | Results(results: seq<ResultData>)
    | BatchErrors(successful: seq<ResultData>, errors: map<nat, ModelError>)
    | JobWasCancelled
    | Omitted
    | InvalidIndex
    | UnexpectedCount
    | JobGone
    | WaitedTooLong

  /** The job as the service holds it at each of the client's requests: page, status, page, status, ... */
  type Views = seq<Option<Job>>

  /** Between two requests the job may only be extended, or expire for good. */
  ghost predicate Observable(n: nat, views: Views) {
    && (forall k :: 0 <= k < |views| && views[k].Some? ==> JobInv(views[k].value) && |views[k].value.states| == n)
    && (forall a, b :: 0 <= a <= b < |views| && views[b].Some? ==>
          views[a].Some? && Extends(views[a].value, views[b].value))
  }

  function ResultsOf(log: seq<Outcome>): map<nat, ResultData> {
    if log == [] then map[]
    else
      var m, last := ResultsOf(log[..|log| - 1]), log[|log| - 1];
      if last.status == Succeeded && last.result.Some? then m[last.index := last.result.value] else m
  }

  function ErrorsOf(log: seq<Outcome>): map<nat, ModelError> {
    if log == [] then map[]
    else
      var m, last := ErrorsOf(log[..|log| - 1]), log[|log| - 1];
      if last.status == Failed && last.error.Some? then m[last.index := last.error.value] else m
  }

  predicate At(states: seq<ModelState>, i: int, s: ModelState) {
    0 <= i < |states| && states[i] == s
  }

  /** The result the log retained for a model. */
  ghost predicate Retains(log: seq<Outcome>, i: nat, result: ResultData) {
    exists k :: 0 <= k < |log| && log[k].index == i && log[k].result == Some(result)
  }

  /** What reading a log collects: the results of the models that succeeded and the errors of those that failed. */
  lemma {:induction false} Collected(states: seq<ModelState>, log: seq<Outcome>)
    requires forall k :: 0 <= k < |log| ==>
               log[k].index < |states| && states[log[k].index] == log[k].status && log[k].ValidShape()
    ensures forall i :: i in ResultsOf(log) <==> At(states, i, Succeeded) && Logged(log, i)
    ensures forall i :: i in ErrorsOf(log) <==> At(states, i, Failed) && Logged(log, i)
    ensures forall i :: i in ResultsOf(log) ==> Retains(log, i, ResultsOf(log)[i]) && ResultsOf(log)[i].index == i
  {
    if log != [] {
      var init, last := log[..|log| - 1], log[|log| - 1];
      Collected(states, init);
      assert log[|log| - 1].index == last.index;
      forall i ensures Logged(log, i) <==> Logged(init, i) || i == last.index {
        if Logged(init, i) {
          var k :| 0 <= k < |init| && init[k].index == i;
          assert log[k].index == i;
        }
        if Logged(log, i) && i != last.index {
          var k :| 0 <= k < |log| && log[k].index == i;
          assert init[k].index == i;
        }
      }
      forall i | i in ResultsOf(log) ensures Retains(log, i, ResultsOf(log)[i]) && ResultsOf(log)[i].index == i {
        if i != last.index || last.status != Succeeded {
          var k :| 0 <= k < |init| && init[k].index == i && init[k].result == Some(ResultsOf(init)[i]);
          assert log[k].index == i;
        }
      }
    }
  }

  /** On a job that ended, the collected results and errors are those of the models that succeeded and failed. */
  lemma CollectedFromTerminal(job: Job)
    requires JobInv(job) && job.status.Terminal()
    ensures forall i :: i in ResultsOf(job.outcomes) <==> At(job.states, i, Succeeded)
    ensures forall i :: i in ErrorsOf(job.outcomes) <==> At(job.states, i, Failed)
    ensures forall i :: i in ResultsOf(job.outcomes) ==>
              Retains(job.outcomes, i, ResultsOf(job.outcomes)[i]) && ResultsOf(job.outcomes)[i].index == i
    ensures |job.outcomes| == |job.states|
  {
    hide Retains;
    Collected(job.states, job.outcomes);
    AllLogged(job.states, job.outcomes);
    forall i | 0 <= i < |job.states| ensures Logged(job.outcomes, i) { assert job.states[i].Terminal(); }
    hide Logged;
  }

  /** When none was cancelled, together they account for every model. */
  lemma CollectedCounts(job: Job)
    requires JobInv(job) && job.status.Terminal() && job.status != JobCancelled
    ensures |ResultsOf(job.outcomes)| + |ErrorsOf(job.outcomes)| == |job.states|
  {
    hide JobInv, Retains, ResultsOf, ErrorsOf;
    var rs, es := ResultsOf(job.outcomes), ErrorsOf(job.outcomes);
    CollectedFromTerminal(job);
    CompletedMeansAllSucceeded(job);
    TerminalStates(job);
    assert forall i :: 0 <= i < |job.states| ==> job.states[i] in job.states;
    PartitionSize(|job.states|, rs.Keys, es.Keys);
    assert |rs.Keys| == |rs| && |es.Keys| == |es|;
  }

  lemma PartitionSize(n: nat, a: set<nat>, b: set<nat>)
    requires forall i :: i in a || i in b <==> 0 <= i < n
    requires a !! b
    ensures |a| + |b| == n
  {
    BelowMembers(n);
    assert a + b == Below(n);
  }

  lemma TerminalStates(job: Job)
    requires JobInv(job) && job.status.Terminal()
    ensures forall i :: 0 <= i < |job.states| ==> job.states[i].Terminal()
  {
  }

  /** The replies a client of a job in a given final state gets. */
  ghost predicate Answers(reply: Reply, job: Job) {
    match job.status
    case Completed =>
      && reply.Results? && |reply.results| == |job.states|
      && forall i :: 0 <= i < |job.states| ==>
           reply.results[i].index == i && Retains(job.outcomes, i, reply.results[i])
    case CompletedWithErrors =>
      && reply.BatchErrors?
      && reply.errors == ErrorsOf(job.outcomes)
      && (forall i :: i in reply.errors <==> At(job.states, i, Failed))
      && (forall k :: 0 <= k < |reply.successful| ==>
            Retains(job.outcomes, reply.successful[k].index, reply.successful[k]))
      && (forall j, k :: 0 <= j < k < |reply.successful| ==> reply.successful[j].index < reply.successful[k].index)
      && |reply.successful| + |reply.errors| == |job.states|
    case JobCancelled => reply.JobWasCancelled?
    case _ => false
  }

  /** Gives up after the last poll allowed by its deadline. */
  method Execute(n: nat, views: Views) returns (reply: Reply, ghost final: nat)
    requires n >= 1 && Observable(n, views)
    ensures reply.JobGone? || reply.WaitedTooLong? ||
            (final < |views| && views[final].Some? && Answers(reply, views[final].value))
    ensures reply.WaitedTooLong? ==>
              forall k: nat {:trigger views[2 * k + 1]} :: 2 * k + 3 < |views| ==>
                views[2 * k + 1].Some? && !views[2 * k + 1].value.status.Terminal()
    ensures reply.JobGone? ==> exists k :: 0 <= k < |views| && views[k].None?
  {
    hide JobInv, Extends, ResultsOf, ErrorsOf, Answers;
    var results: map<nat, ResultData>, errors: map<nat, ModelError>, cursor := map[], map[], 0;
    ghost var seen: seq<Outcome> := [];
    NothingCollected();
    final := 0;
    var poll: nat := 0;
    while 2 * poll + 1 < |views|
      invariant 2 * poll <= |views| && cursor == |seen|
      invariant results == ResultsOf(seen) && errors == ErrorsOf(seen)
      invariant 2 * poll < |views| && views[2 * poll].Some? ==> seen <= views[2 * poll].value.outcomes
      invariant forall k: nat {:trigger views[2 * k + 1]} :: k + 1 < poll ==>
                  views[2 * k + 1].Some? && !views[2 * k + 1].value.status.Terminal()
      invariant poll > 0 ==> views[2 * poll - 1].Some?
      decreases |views| - 2 * poll
    {
      var atPage, atStatus := views[2 * poll], views[2 * poll + 1];
      if atPage.None? {
        return JobGone, final;
      }
      var page := PageOf(atPage.value, cursor);
      var valid;
      results, errors, valid := Collect(n, page, results, errors, seen, atPage.value);
      if !valid {
        return InvalidIndex, final;
      }
      seen := atPage.value.outcomes;
      cursor := page.nextCursor;
      if atStatus.None? {
        return JobGone, final;
      }
      var status := StatusOf(atStatus.value);
      if status.total != n {
        return UnexpectedCount, final;
      }
      PrefixOf(atPage.value, atStatus.value);
      if status.status.Terminal() {
        final := 2 * poll + 1;
        AllRead(atStatus.value);
        if cursor >= status.total {
          assert seen == atStatus.value.outcomes;
          if status.status == JobCancelled {
            CancelledAnswer(atStatus.value);
            return JobWasCancelled, final;
          }
          reply := Summarize(n, results, errors, atStatus.value);
          return reply, final;
        }
      }
      if poll > 0 && views[2 * poll - 1].value.status.Terminal() {
        TerminalIsFinal(views[2 * poll - 1].value, atPage.value);
        TerminalIsFinal(atPage.value, atStatus.value);
        AllRead(atPage.value);
        assert false;
      }
      if 2 * poll + 2 < |views| && views[2 * poll + 2].Some? {
        PrefixOf(atPage.value, views[2 * poll + 2].value);
      }
      poll := poll + 1;
    }
    reply := WaitedTooLong;
  }

  /** Adds a page to what was collected from the log before it. */
  method Collect(n: nat, page: Page, results0: map<nat, ResultData>, errors0: map<nat, ModelError>,
                 ghost seen: seq<Outcome>, ghost job: Job)
    returns (results: map<nat, ResultData>, errors: map<nat, ModelError>, valid: bool)
    requires JobInv(job) && |job.states| == n && seen <= job.outcomes && page == PageOf(job, |seen|)
    requires results0 == ResultsOf(seen) && errors0 == ErrorsOf(seen)
    ensures valid && results == ResultsOf(job.outcomes) && errors == ErrorsOf(job.outcomes)
  {
    hide JobInv, ResultsOf, ErrorsOf;
    results, errors, valid := results0, errors0, true;
    SuffixOf(job, |seen|);
    assert seen + page.outcomes[..0] == seen;
    for k := 0 to |page.outcomes|
      invariant results == ResultsOf(seen + page.outcomes[..k])
      invariant errors == ErrorsOf(seen + page.outcomes[..k])
    {
      var outcome := page.outcomes[k];
      IndexBelow(job, |seen| + k);
      if !(outcome.index < n) {
        return results, errors, false;
      }
      CollectNext(seen + page.outcomes[..k], outcome);
      assert seen + page.outcomes[..k + 1] == seen + page.outcomes[..k] + [outcome];
      if outcome.status == Succeeded && outcome.result.Some? {
        results := results[outcome.index := outcome.result.value];
      } else if outcome.status == Failed && outcome.error.Some? {
        errors := errors[outcome.index := outcome.error.value];
      }
    }
    assert seen + page.outcomes[..|page.outcomes|] == job.outcomes;
  }

  /** The collected results in order of their models. */
  method InOrder(n: nat, results: map<nat, ResultData>) returns (successful: seq<ResultData>)
    requires forall i :: i in results ==> i < n && results[i].index == i
    ensures |successful| == |results|
    ensures forall k :: 0 <= k < |successful| ==>
              successful[k].index in results && results[successful[k].index] == successful[k]
    ensures forall j, k :: 0 <= j < k < |successful| ==> successful[j].index < successful[k].index
  {
    successful := [];
    ghost var taken: set<nat> := {};
    for i := 0 to n
      invariant forall k :: 0 <= k < |successful| ==>
                  successful[k].index < i && successful[k].index in results
                  && results[successful[k].index] == successful[k]
      invariant forall j, k :: 0 <= j < k < |successful| ==> successful[j].index < successful[k].index
      invariant |successful| == |taken|
      invariant forall k :: k in taken <==> k in results && k < i
    {
      if i in results {
        successful := successful + [results[i]];
        taken := taken + {i};
      }
    }
    assert taken == results.Keys;
    assert |results.Keys| == |results|;
  }

  /** Strictly increasing indices below n, n of them, are 0, 1, ..., n - 1. */
  lemma {:induction false} OrderedFillsUp(n: nat, s: seq<ResultData>)
    requires |s| == n && forall k :: 0 <= k < |s| ==> s[k].index < n
    requires forall j, k :: 0 <= j < k < |s| ==> s[j].index < s[k].index
    ensures forall k :: 0 <= k < n ==> s[k].index == k
  {
    if n > 0 {
      OrderedAtLeast(s, n - 1);
      OrderedFillsUp(n - 1, s[..n - 1]);
    }
  }

  lemma {:induction false} OrderedAtLeast(s: seq<ResultData>, k: nat)
    requires k < |s| && forall i, j :: 0 <= i < j < |s| ==> s[i].index < s[j].index
    ensures s[k].index >= k
  {
    if k > 0 { OrderedAtLeast(s, k - 1); }
  }

  /** Orders the results by model and checks that nothing is missing. */
  method Summarize(n: nat, results: map<nat, ResultData>, errors: map<nat, ModelError>, ghost job: Job)
    returns (reply: Reply)
    requires n >= 1 && JobInv(job) && |job.states| == n && job.status.Terminal() && job.status != JobCancelled
    requires results == ResultsOf(job.outcomes) && errors == ErrorsOf(job.outcomes)
    ensures Answers(reply, job) && (reply.Results? || reply.BatchErrors?)
  {
    hide JobInv, Retains, ResultsOf, ErrorsOf;
    CollectedFromTerminal(job);
    CollectedCounts(job);
    var successful := InOrder(n, results);
    if errors != map[] {
      if |successful| + |errors| != n {
        return Omitted;
      }
      NoErrorsWhenCompleted(job);
      return BatchErrors(successful, errors);
    }
    if |successful| != n {
      return Omitted;
    }
    ErrorsWhenNotCompleted(job);
    OrderedFillsUp(n, successful);
    reply := Results(successful);
  }

  lemma NoErrorsWhenCompleted(job: Job)
    requires JobInv(job) && job.status.Terminal() && ErrorsOf(job.outcomes) != map[]
    ensures job.status != Completed
  {
    CollectedFromTerminal(job);
    CompletedMeansAllSucceeded(job);
    var i :| i in ErrorsOf(job.outcomes);
    assert job.states[i] == Failed;
  }

  lemma ErrorsWhenNotCompleted(job: Job)
    requires JobInv(job) && job.status.Terminal() && ErrorsOf(job.outcomes) == map[]
    ensures job.status != CompletedWithErrors
    ensures job.status == Completed ==> forall i :: 0 <= i < |job.states| ==> i in ResultsOf(job.outcomes)
  {
    CollectedFromTerminal(job);
    CompletedMeansAllSucceeded(job);
    forall i | 0 <= i < |job.states| ensures job.states[i] != Failed {
      assert At(job.states, i, Failed) ==> i in ErrorsOf(job.outcomes);
    }
  }

  lemma CancelledAnswer(job: Job)
    requires job.status == JobCancelled
    ensures Answers(JobWasCancelled, job)
  {
  }

  lemma AllRead(job: Job)
    requires JobInv(job) && job.status.Terminal()
    ensures |job.outcomes| == |job.states|
  {
    AllLogged(job.states, job.outcomes);
  }

  lemma NothingCollected()
    ensures ResultsOf([]) == map[] && ErrorsOf([]) == map[]
  {
  }

  lemma CollectNext(log: seq<Outcome>, o: Outcome)
    ensures ResultsOf(log + [o]) == if o.status == Succeeded && o.result.Some?
                                    then ResultsOf(log)[o.index := o.result.value] else ResultsOf(log)
    ensures ErrorsOf(log + [o]) == if o.status == Failed && o.error.Some?
                                   then ErrorsOf(log)[o.index := o.error.value] else ErrorsOf(log)
  {
    assert (log + [o])[..|log|] == log;
  }

  lemma SuffixOf(job: Job, cursor: nat)
    requires JobInv(job) && cursor <= |job.outcomes|
    ensures After(job.outcomes, cursor) == job.outcomes[cursor..]
  {
    AfterIsSuffix(job.outcomes, cursor);
  }

  lemma IndexBelow(job: Job, k: nat)
    requires JobInv(job) && k < |job.outcomes|
    ensures job.outcomes[k].index < |job.states|
  {
  }

  lemma PrefixOf(a: Job, b: Job)
    requires Extends(a, b)
    ensures a.outcomes <= b.outcomes
  {
  }

  lemma TerminalIsFinal(a: Job, b: Job)
    requires JobInv(a) && Extends(a, b) && a.status.Terminal()
    ensures b == a
  {
  }
}
