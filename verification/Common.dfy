/** Vocabulary shared by the service, the application and the simulation models. */
module Common {
  datatype Option<+T> = None | Some(value: T)

  datatype Result<+T, +E> = Ok(value: T) | Err(error: E)

  /** Serialized task list, model configuration and simulation output.  Only equality matters here. */
  type Tasks(0, ==, !new)
  type Model(0, ==, !new)
  type Payload(0, ==, !new)

  /** Everything one simulation depends on. */
  datatype SimInput = SimInput(tasks: Tasks, model: Model, seed: nat)

  /** A simulation is a function of its input; resource identifiers are ignored. */
  type Simulator = SimInput -> Payload

  /** A serialized result: the index the worker echoed, the output and its encoded size. */
  datatype ResultData = ResultData(index: nat, payload: Payload, size: nat)

  /** A job submission.  The service's fingerprint is injective, so the request stands for its own digest. */
  datatype JobRequest = JobRequest(tasks: Tasks, models: seq<Model>, seeds: seq<nat>) {
    predicate Valid() { |models| == |seeds| && |models| >= 1 }

    function Input(i: nat): SimInput
      requires Valid() && i < |models|
    {
      SimInput(tasks, models[i], seeds[i])
    }
  }

  predicate Distinct<T(==)>(s: seq<T>) {
    forall i, j :: 0 <= i < j < |s| ==> s[i] != s[j]
  }

  lemma DistinctTail<T>(s: seq<T>)
    requires Distinct(s) && s != []
    ensures Distinct(s[1..]) && s[0] !in s[1..] && forall x :: x in s <==> x == s[0] || x in s[1..]
  {
    assert s == [s[0]] + s[1..];
  }

  lemma DistinctConcat<T>(a: seq<T>, b: seq<T>)
    requires Distinct(a) && Distinct(b) && forall x :: x in a ==> x !in b
    ensures Distinct(a + b) && forall x :: x in a + b <==> x in a || x in b
  {
    var c := a + b;
    forall i, j | 0 <= i < j < |c| ensures c[i] != c[j] {
      if i < |a| <= j { assert c[i] in a && c[j] in b; }
    }
  }

  /** A sequence without repeats is no longer than one that has all its elements. */
  lemma {:induction false} DistinctShorter<T>(a: seq<T>, b: seq<T>)
    requires Distinct(a) && forall x :: x in a ==> x in b
    ensures |a| <= |b|
  {
    if a != [] {
      DistinctTail(a);
      var k :| 0 <= k < |b| && b[k] == a[0];
      var c := b[..k] + b[k + 1..];
      forall x | x in a[1..] ensures x in c {
        var j :| 0 <= j < |b| && b[j] == x;
        assert c[if j < k then j else j - 1] == x;
      }
      DistinctShorter(a[1..], c);
    }
  }

  function Min(a: int, b: int): int { if a <= b then a else b }
}
