/** Story points: how work fills a list of tasks, how interruptions slice it, and how a failed test takes it back. */
module Work {
  import opened Common

  /** A task as far as work is concerned. */
  datatype Piece = Piece(points: real, completed: real) {
    function Remaining(): real { points - completed }

    predicate InRange() { 0.0 <= completed <= points }
  }

  /** Negative amounts take work back; taking back more than was done is an error. */
  function DoWork(p: Piece, amount: real): (Piece, Option<real>) {
    if amount <= p.Remaining() then
      (p.(completed := p.completed + amount), if p.completed + amount < 0.0 then None else Some(0.0))
    else (p.(completed := p.points), Some(amount - p.Remaining()))
  }

  /** Fills the tasks in order, each passing on what it does not need. */
  function Spread(ps: seq<Piece>, amount: real): (seq<Piece>, real) {
    if ps == [] then ([], amount)
    else
      var (p, left) := DoWork(ps[0], amount);
      var (rest, last) := Spread(ps[1..], if left.Some? then left.value else 0.0);
      ([p] + rest, last)
  }

  function TotalRemaining(ps: seq<Piece>): real {
    if ps == [] then 0.0 else ps[0].Remaining() + TotalRemaining(ps[1..])
  }

  function TotalCompleted(ps: seq<Piece>): real {
    if ps == [] then 0.0 else ps[0].completed + TotalCompleted(ps[1..])
  }

  predicate AllInRange(ps: seq<Piece>) { forall i :: 0 <= i < |ps| ==> ps[i].InRange() }

  predicate Full(ps: seq<Piece>) { forall i :: 0 <= i < |ps| ==> ps[i].completed == ps[i].points }

  /** Points are fixed, work only grows, and what is applied is either done or left over. */
  lemma {:induction false} SpreadConserves(ps: seq<Piece>, amount: real)
    requires AllInRange(ps) && amount >= 0.0
    ensures var (qs, left) := Spread(ps, amount);
            && |qs| == |ps| && AllInRange(qs) && left >= 0.0
            && (forall i :: 0 <= i < |ps| ==> qs[i].points == ps[i].points && ps[i].completed <= qs[i].completed)
            && TotalCompleted(qs) + left == TotalCompleted(ps) + amount
            && TotalRemaining(qs) == TotalRemaining(ps) - (amount - left)
  {
    if ps != [] {
      var (p, left) := DoWork(ps[0], amount);
      SpreadConserves(ps[1..], left.value);
      var (qs, last) := Spread(ps, amount);
      assert qs[1..] == Spread(ps[1..], left.value).0;
      forall i | 0 <= i < |ps| ensures qs[i].points == ps[i].points && ps[i].completed <= qs[i].completed && qs[i].InRange() {
        if i > 0 { assert qs[i] == qs[1..][i - 1] && ps[i] == ps[1..][i - 1]; }
      }
    }
  }

  /** Work goes to a task only when all before it are complete, and is left over only when all are. */
  lemma {:induction false} SpreadIsGreedy(ps: seq<Piece>, amount: real, j: nat)
    requires AllInRange(ps) && amount >= 0.0 && j <= |ps|
    requires var (qs, left) := Spread(ps, amount);
             |qs| == |ps| && (if j < |ps| then qs[j].completed > ps[j].completed else left > 0.0)
    ensures forall i :: 0 <= i < j ==> Spread(ps, amount).0[i].completed == ps[i].points
    decreases |ps|
  {
    if j > 0 {
      var (p, left) := DoWork(ps[0], amount);
      var (rest, last) := Spread(ps[1..], left.value);
      SpreadConserves(ps[1..], left.value);
      assert Spread(ps, amount).0 == [p] + rest;
      if left.value == 0.0 {
        NothingSpread(ps[1..]);
      }
      SpreadIsGreedy(ps[1..], left.value, j - 1);
      forall i | 0 <= i < j ensures Spread(ps, amount).0[i].completed == ps[i].points {
        if i > 0 { assert Spread(ps, amount).0[i] == rest[i - 1]; }
      }
    }
  }

  lemma {:induction false} NothingSpread(ps: seq<Piece>)
    requires AllInRange(ps)
    ensures Spread(ps, 0.0) == (ps, 0.0)
  {
    if ps != [] {
      NothingSpread(ps[1..]);
      assert ps == [ps[0]] + ps[1..];
    }
  }

  lemma {:induction false} NoneRemaining(ps: seq<Piece>)
    requires AllInRange(ps)
    ensures TotalRemaining(ps) >= 0.0
    ensures TotalRemaining(ps) == 0.0 <==> Full(ps)
  {
    if ps != [] {
      NoneRemaining(ps[1..]);
      if Full(ps[1..]) && ps[0].completed == ps[0].points {
        forall i | 0 <= i < |ps| ensures ps[i].completed == ps[i].points {
          if i > 0 { assert ps[i] == ps[1..][i - 1]; }
        }
      }
      if Full(ps) {
        assert forall i :: 0 <= i < |ps[1..]| ==> ps[1..][i] == ps[i + 1];
      }
    }
  }

  // ---------------------------------------------------------------------------------------------
  // A developer's visit

  function Effort(ps: seq<Piece>, efficiency: real): real
    requires efficiency > 0.0
  {
    if ps == [] then 0.0 else ps[0].Remaining() / efficiency + Effort(ps[1..], efficiency)
  }

  lemma {:induction false} EffortIsRemaining(ps: seq<Piece>, efficiency: real)
    requires efficiency > 0.0
    ensures Effort(ps, efficiency) * efficiency == TotalRemaining(ps)
  {
    if ps != [] {
      EffortIsRemaining(ps[1..], efficiency);
      var r, e := ps[0].Remaining(), Effort(ps[1..], efficiency);
      assert (r / efficiency + e) * efficiency == r / efficiency * efficiency + e * efficiency;
      assert r / efficiency * efficiency == r;
    }
  }

  function Sum(slices: seq<real>): real {
    if slices == [] then 0.0 else slices[0] + Sum(slices[1..])
  }

  /** The tasks after a number of interrupted slices of work. */
  function AfterSlices(ps: seq<Piece>, efficiency: real, slices: seq<real>): seq<Piece>
    requires efficiency > 0.0
    decreases |slices|
  {
    if slices == [] then ps
    else AfterSlices(Spread(ps, slices[0] * efficiency).0, efficiency, slices[1..])
  }

  /** No slice lasts longer than the work left when it begins, which is when its timer would have gone off. */
  predicate Interrupted(ps: seq<Piece>, efficiency: real, slices: seq<real>)
    requires efficiency > 0.0
    decreases |slices|
  {
    slices != [] ==>
      && 0.0 <= slices[0] <= Effort(ps, efficiency)
      && Interrupted(Spread(ps, slices[0] * efficiency).0, efficiency, slices[1..])
  }

  lemma OneSlice(ps: seq<Piece>, efficiency: real, slice: real, amount: real)
    requires efficiency > 0.0 && AllInRange(ps) && 0.0 <= slice <= Effort(ps, efficiency)
    requires amount == slice * efficiency
    ensures var (qs, left) := Spread(ps, amount);
            && |qs| == |ps| && AllInRange(qs) && left == 0.0
            && Effort(qs, efficiency) == Effort(ps, efficiency) - slice
  {
    hide Spread, Effort, TotalRemaining, TotalCompleted, AllInRange;
    var (qs, left) := Spread(ps, amount);
    var before, after := Effort(ps, efficiency), Effort(qs, efficiency);
    ProductNonNegative(slice, efficiency);
    ProductNonNegative(before - slice, efficiency);
    EffortIsRemaining(ps, efficiency);
    EffortIsRemaining(qs, efficiency);
    Distributes(before, slice, efficiency);
    SpreadConserves(ps, amount);
    NothingLeftOver(ps, amount);
    Cancels(before - slice, after, efficiency);
  }

  lemma Distributes(x: real, y: real, z: real)
    ensures (x - y) * z == x * z - y * z
  {
  }

  lemma ProductNonNegative(x: real, y: real)
    requires x >= 0.0 && y >= 0.0
    ensures x * y >= 0.0
  {
  }

  lemma Cancels(x: real, y: real, z: real)
    requires z > 0.0 && x * z == y * z
    ensures x == y
  {
  }

  /** Applying no more than what remains leaves nothing over. */
  lemma NothingLeftOver(ps: seq<Piece>, amount: real)
    requires AllInRange(ps) && 0.0 <= amount <= TotalRemaining(ps)
    ensures Spread(ps, amount).1 == 0.0
  {
    hide Spread, TotalRemaining, TotalCompleted, AllInRange, Full;
    SpreadConserves(ps, amount);
    NoneRemaining(Spread(ps, amount).0);
    if Spread(ps, amount).1 > 0.0 { LeftOverMeansFull(ps, amount); }
  }

  lemma LeftOverMeansFull(ps: seq<Piece>, amount: real)
    requires AllInRange(ps) && amount >= 0.0 && Spread(ps, amount).1 > 0.0
    ensures Full(Spread(ps, amount).0)
  {
    hide Spread;
    SpreadConserves(ps, amount);
    SpreadIsGreedy(ps, amount, |ps|);
  }

  /**
   * However a visit is interrupted, the time already worked and the time still needed add up to the remaining points
   * over the efficiency, and nothing worked is lost.
   */
  lemma {:induction false} SlicesConserve(ps: seq<Piece>, efficiency: real, slices: seq<real>)
    requires efficiency > 0.0 && AllInRange(ps) && Interrupted(ps, efficiency, slices)
    ensures var qs := AfterSlices(ps, efficiency, slices);
            && AllInRange(qs) && |qs| == |ps|
            && Sum(slices) + Effort(qs, efficiency) == Effort(ps, efficiency)
    decreases |slices|
  {
    hide Spread, Effort, AllInRange;
    if slices != [] {
      OneSlice(ps, efficiency, slices[0], slices[0] * efficiency);
      SlicesConserve(Spread(ps, slices[0] * efficiency).0, efficiency, slices[1..]);
    }
  }

  /** A visit that runs to its end leaves every task complete, with nothing left over. */
  lemma VisitCompletes(ps: seq<Piece>, efficiency: real, slices: seq<real>, amount: real)
    requires efficiency > 0.0 && AllInRange(ps) && Interrupted(ps, efficiency, slices)
    requires amount == Effort(AfterSlices(ps, efficiency, slices), efficiency) * efficiency
    ensures var (done, left) := Spread(AfterSlices(ps, efficiency, slices), amount);
            Full(done) && left == 0.0 && |done| == |ps|
  {
    hide Spread, Effort, AllInRange, Full, TotalRemaining, TotalCompleted, Interrupted, Sum;
    SlicesConserve(ps, efficiency, slices);
    var qs := AfterSlices(ps, efficiency, slices);
    EffortIsRemaining(qs, efficiency);
    RestCompletes(qs, amount);
  }

  /** Applying exactly what remains completes everything. */
  lemma RestCompletes(qs: seq<Piece>, amount: real)
    requires AllInRange(qs) && amount == TotalRemaining(qs)
    ensures var (done, left) := Spread(qs, amount);
            Full(done) && left == 0.0 && |done| == |qs|
  {
    hide Spread, AllInRange, Full, TotalRemaining, TotalCompleted;
    NoneRemaining(qs);
    SpreadConserves(qs, amount);
    NothingLeftOver(qs, amount);
    NoneRemaining(Spread(qs, amount).0);
  }

  // ---------------------------------------------------------------------------------------------
  // A failed test

  /** A failed test takes back a share of each task's points; it raises exactly when less than that was done. */
  lemma RegressionRaisesIff(p: Piece, cost: real)
    requires p.InRange() && 0.0 <= cost
    ensures DoWork(p, -(p.points * cost)).1.None? <==> p.completed < p.points * cost
    ensures p.completed == p.points && cost <= 1.0 ==>
              && DoWork(p, -(p.points * cost)).1 == Some(0.0)
              && DoWork(p, -(p.points * cost)).0.InRange()
              && DoWork(p, -(p.points * cost)).0.Remaining() == p.points * cost
  {
    ProductNonNegative(p.points, cost);
    if cost <= 1.0 {
      ProductNonNegative(p.points, 1.0 - cost);
      assert p.points * (1.0 - cost) == p.points - p.points * cost;
    }
  }
}
