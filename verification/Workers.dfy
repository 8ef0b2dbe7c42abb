/** The work of developers and testers on task objects, as it runs. */
module Workers {
  import opened Common
  import opened Tasks
  import opened Work

  ghost function Histories(tasks: seq<Task>): set<object> { set k | 0 <= k < |tasks| :: tasks[k].history }

  ghost function PieceOf(t: Task): Piece
    reads t.history
  {
    Piece(t.points, t.history.completed)
  }

  ghost function Pieces(tasks: seq<Task>): seq<Piece>
    reads Histories(tasks)
  {
    seq(|tasks|, k requires 0 <= k < |tasks| reads Histories(tasks) => PieceOf(tasks[k]))
  }

  /** Different tasks have different histories. */
  ghost predicate Separate(tasks: seq<Task>) {
    forall i, j :: 0 <= i < j < |tasks| ==> tasks[i].history != tasks[j].history
  }

  /** Adds work to one task, or takes it back; None when more would be taken back than was done. */
  method DoTask(t: Task, amount: real) returns (left: Option<real>)
    modifies t.history`completed
    ensures (PieceOf(t), left) == DoWork(old(PieceOf(t)), amount)
  {
    var remaining := t.points - t.history.completed;
    if amount <= remaining {
      t.history.completed := t.history.completed + amount;
      if t.history.completed < 0.0 {
        return None;
      }
      return Some(0.0);
    }
    t.history.completed := t.points;
    left := Some(amount - remaining);
  }

  class Developer {
    const efficiency: real

    constructor (efficiency: real)
      requires efficiency > 0.0
      ensures this.efficiency == efficiency
    {
      this.efficiency := efficiency;
    }

    /** Applies the points worked in a stretch of time, one task after the other. */
    method DoWork(tasks: seq<Task>, elapsed: real) returns (left: real)
      requires efficiency > 0.0 && elapsed >= 0.0 && Separate(tasks) && AllInRange(Pieces(tasks))
      modifies Histories(tasks)
      ensures (Pieces(tasks), left) == Spread(old(Pieces(tasks)), elapsed * efficiency)
    {
      ProductNonNegative(elapsed, efficiency);
      var amount := elapsed * efficiency;
      left := FillTasks(tasks, amount);
    }

    method FillTasks(tasks: seq<Task>, amount: real) returns (left: real)
      requires amount >= 0.0 && Separate(tasks) && AllInRange(Pieces(tasks))
      modifies Histories(tasks)
      ensures (Pieces(tasks), left) == Spread(old(Pieces(tasks)), amount)
    {
      ghost var start := Pieces(tasks);
      SpreadConserves(start, amount);
      ghost var goal := Spread(start, amount);
      left := amount;
      assert start[0..] == start && goal.0[0..] == goal.0;
      for i := 0 to |tasks|
        invariant forall k :: i <= k < |tasks| ==> PieceOf(tasks[k]) == start[k]
        invariant forall k :: 0 <= k < i ==> PieceOf(tasks[k]) == goal.0[k]
        invariant Spread(start[i..], left) == (goal.0[i..], goal.1) && left >= 0.0
      {
        SpreadStep(start[i..], left);
        assert start[i..][0] == start[i] && start[i..][1..] == start[i + 1..];
        assert goal.0[i..][1..] == goal.0[i + 1..] && goal.0[i..][0] == goal.0[i];
        assert start[i].InRange();
        var rest := DoTask(tasks[i], left);
        left := rest.value;
      }
      assert start[|tasks|..] == [];
      assert Pieces(tasks) == goal.0;
    }
  }

  lemma SpreadStep(ps: seq<Piece>, amount: real)
    requires ps != [] && ps[0].InRange() && amount >= 0.0
    ensures var (p, left) := DoWork(ps[0], amount);
            && left.Some? && left.value >= 0.0
            && |Spread(ps, amount).0| > 0 && Spread(ps, amount).0[0] == p
            && Spread(ps[1..], left.value) == (Spread(ps, amount).0[1..], Spread(ps, amount).1)
  {
  }

  class QATester {
    const failureCost: real

    constructor (failureCost: real)
      requires 0.0 <= failureCost <= 1.0
      ensures this.failureCost == failureCost
    {
      this.failureCost := failureCost;
    }

    /** After a failed test, takes back the cost of the remedy from each task; on finished tasks it cannot fail. */
    method TakeBack(tasks: seq<Task>) returns (raised: bool)
      requires 0.0 <= failureCost <= 1.0 && Separate(tasks) && AllInRange(Pieces(tasks)) && Full(Pieces(tasks))
      modifies Histories(tasks)
      ensures !raised && AllInRange(Pieces(tasks))
      ensures forall k :: 0 <= k < |tasks| ==>
                PieceOf(tasks[k]).points == old(PieceOf(tasks[k])).points
                && PieceOf(tasks[k]).Remaining() == tasks[k].points * failureCost
    {
      ghost var start := Pieces(tasks);
      for i := 0 to |tasks|
        invariant forall k :: i <= k < |tasks| ==> PieceOf(tasks[k]) == start[k]
        invariant forall k :: 0 <= k < i ==>
                    PieceOf(tasks[k]).InRange() && PieceOf(tasks[k]).Remaining() == tasks[k].points * failureCost
      {
        assert start[i].InRange() && start[i].completed == start[i].points;
        RegressionRaisesIff(start[i], failureCost);
        var left := DoTask(tasks[i], -(tasks[i].points * failureCost));
        if left.None? {
          return true;
        }
      }
      raised := false;
    }
  }
}
