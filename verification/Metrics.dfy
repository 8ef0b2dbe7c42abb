/** Display measures computed from a finished simulation. */
module Metrics {
  import opened Common

  datatype Point = Point(time: real, value: int)

  // ---------------------------------------------------------------------------------------------
  // Thinning a series

  predicate SubseqAt(r: seq<Point>, at: seq<nat>, s: seq<Point>) {
    && |at| == |r|
    && (forall i :: 0 <= i < |at| ==> at[i] < |s| && r[i] == s[at[i]])
    && (forall i, j :: 0 <= i < j < |at| ==> at[i] < at[j])
  }

  /** Positions of the first point with the least, and the first with the greatest value. */
  method Extremes(chunk: seq<Point>) returns (least: nat, most: nat)
    requires chunk != []
    ensures least < |chunk| && most < |chunk|
    ensures forall i :: 0 <= i < |chunk| ==> chunk[least].value <= chunk[i].value <= chunk[most].value
    ensures forall i :: 0 <= i < least ==> chunk[i].value > chunk[least].value
    ensures forall i :: 0 <= i < most ==> chunk[i].value < chunk[most].value
  {
    least, most := 0, 0;
    for k := 1 to |chunk|
      invariant least < k && most < k
      invariant forall i :: 0 <= i < k ==> chunk[least].value <= chunk[i].value <= chunk[most].value
      invariant forall i :: 0 <= i < least ==> chunk[i].value > chunk[least].value
      invariant forall i :: 0 <= i < most ==> chunk[i].value < chunk[most].value
    {
      if chunk[k].value < chunk[least].value { least := k; }
      if chunk[k].value > chunk[most].value { most := k; }
    }
  }

  ghost predicate Ascending(s: seq<nat>) { forall i, j :: 0 <= i < j < |s| ==> s[i] < s[j] }

  /** The elements of a set of positions, in order. */
  method InOrder(wanted: set<nat>, n: nat) returns (s: seq<nat>)
    requires forall i :: i in wanted ==> i < n
    ensures Ascending(s) && |s| == |wanted| && forall i :: i in s <==> i in wanted
  {
    s := [];
    ghost var taken: set<nat> := {};
    for i := 0 to n
      invariant Ascending(s) && |s| == |taken| && forall k :: 0 <= k < |s| ==> s[k] < i
      invariant forall k :: k in s <==> k in taken
      invariant forall k :: k in taken <==> k in wanted && k < i
    {
      if i in wanted {
        s := s + [i];
        taken := taken + {i};
      }
    }
    assert taken == wanted;
  }

  /** The positions kept from one chunk: its ends and its extremes. */
  method Kept(chunk: seq<Point>) returns (kept: seq<nat>, ghost least: nat, ghost most: nat)
    requires chunk != []
    ensures 1 <= |kept| <= 4 && Ascending(kept)
    ensures forall k :: 0 <= k < |kept| ==> kept[k] < |chunk|
    ensures kept[0] == 0 && kept[|kept| - 1] == |chunk| - 1
    ensures least in kept && most in kept && Bounds(chunk, least, most)
    ensures |chunk| == 1 ==> kept == [0]
  {
    var lo, hi := Extremes(chunk);
    least, most := lo, hi;
    var last := |chunk| - 1;
    kept := InOrder({0, last, lo, hi}, |chunk|);
    FewWanted(0, last, lo, hi);
    Ends(kept, last);
  }

  lemma Ends(s: seq<nat>, last: nat)
    requires Ascending(s) && 0 in s && last in s && forall k :: k in s ==> k <= last
    ensures |s| >= 1 && s[0] == 0 && s[|s| - 1] == last
    ensures last == 0 ==> s == [0]
  {
    var z :| 0 <= z < |s| && s[z] == 0;
    var l :| 0 <= l < |s| && s[l] == last;
    assert forall k :: 0 <= k < |s| ==> s[k] in s;
  }

  lemma FewWanted(a: nat, b: nat, c: nat, d: nat)
    ensures |{a, b, c, d}| <= 4
  {
    assert {a, b, c, d} == {a} + {b} + {c} + {d};
    assert |{a} + {b}| <= 2;
    assert |{a} + {b} + {c}| <= 3;
  }

  /** Every value of the chunk lies between the values at a and b. */
  ghost predicate Bounds(chunk: seq<Point>, a: nat, b: nat) {
    a < |chunk| && b < |chunk| && forall i :: 0 <= i < |chunk| ==> chunk[a].value <= chunk[i].value <= chunk[b].value
  }

  /** Integer division rounding down, also for a negative divisor. */
  function FloorDiv(a: int, b: int): int
    requires b != 0
  {
    if b > 0 then a / b else (-a) / (-b)
  }

  function Width(n: nat, limit: int): nat
    requires limit / 4 != 0
  {
    var w := FloorDiv(n + limit / 4 - 1, limit / 4);
    if w < 1 then 1 else w
  }

  /** The width is the least that leaves no more than a quarter of the limit in chunks. */
  lemma LeastWidth(n: nat, limit: int)
    requires limit >= 4 && n >= 1
    ensures var w := Width(n, limit); w >= 1 && w * (limit / 4) >= n && (w - 1) * (limit / 4) < n
  {
    var q := limit / 4;
    var w := (n + q - 1) / q;
    assert w * q > n + q - 1 - q && w * q <= n + q - 1;
    assert (w - 1) * q == w * q - q;
  }

  /** A negative limit makes chunks of one point. */
  lemma NegativeLimit(n: nat, limit: int)
    requires limit < 0 && n >= 1
    ensures Width(n, limit) == 1
  {
    var p := -(limit / 4);
    assert p >= 1 && (p - (n - 1)) / p <= 1;
  }

  /** An ascending list of all positions is 0, 1, 2, ... */
  lemma {:induction false} AllPositions(at: seq<nat>, n: nat)
    requires Ascending(at) && forall i: nat :: i in at <==> i < n
    ensures |at| == n && forall k :: 0 <= k < n ==> at[k] == k
  {
    forall k | 0 <= k < |at| ensures at[k] < n { assert at[k] in at; }
    if n > 0 {
      var last: nat := n - 1;
      assert last in at;
      LastIsLargest(at);
      var l := |at| - 1;
      assert at[l] == last;
      var rest := at[..l];
      forall i: nat ensures i in rest <==> i < n - 1 {
        if i < n - 1 {
          assert i in at;
          var k :| 0 <= k < |at| && at[k] == i;
          assert rest[k] == i;
        }
        if i in rest {
          var k :| 0 <= k < |rest| && rest[k] == i;
          assert at[k] < at[l];
        }
      }
      AllPositions(rest, n - 1);
    }
  }

  lemma LastIsLargest(at: seq<nat>)
    requires Ascending(at)
    ensures forall i :: i in at ==> i <= at[|at| - 1]
  {
  }

  lemma NothingDropped(points: seq<Point>, thinned: seq<Point>, at: seq<nat>, limit: int)
    requires limit < 0 && SubseqAt(thinned, at, points)
    requires forall i :: 0 <= i < |points| ==> Covered(points, at, i, Width(|points|, limit))
    ensures thinned == points
  {
    if points != [] { NegativeLimit(|points|, limit); }
    forall i: nat ensures i in at <==> i < |points| {
      if i < |points| {
        assert Covered(points, at, i, 1);
        var a, b :| Between(points, at, i, a, b, 1);
      }
    }
    AllPositions(at, |points|);
  }

  /** Between two kept points of its own chunk. */
  ghost predicate Between(points: seq<Point>, at: seq<nat>, i: nat, a: nat, b: nat, width: nat)
    requires width >= 1
  {
    && i < |points| && a in at && b in at && a < |points| && b < |points|
    && a / width == i / width == b / width
    && points[a].value <= points[i].value <= points[b].value
  }

  ghost predicate Covered(points: seq<Point>, at: seq<nat>, i: nat, width: nat)
    requires width >= 1
  {
    exists a, b :: Between(points, at, i, a, b, width)
  }

  /** An ordered selection that keeps both ends. */
  ghost predicate Selection(thinned: seq<Point>, at: seq<nat>, points: seq<Point>) {
    && SubseqAt(thinned, at, points)
    && (points != [] ==> thinned != [] && thinned[0] == points[0]
                         && thinned[|thinned| - 1] == points[|points| - 1])
  }

  /** The first and the last point of a block of a given width are kept. */
  ghost predicate KeepsEnds(at: seq<nat>, n: nat, block: nat, width: nat) {
    block * width < n ==> block * width in at && Min(block * width + width, n) - 1 in at
  }

  /**
   * None stands for the division by zero that a limit from 0 to 3 causes on a longer series.  Otherwise the result is
   * an ordered selection of the points that keeps the first and last; a negative limit keeps all.  For a limit of at
   * least 4 it is no longer than the limit, and made block by block, the blocks being as small as that many points
   * allow at four to a block: each block keeps its first and last point, and of every point dropped a point of its
   * block at or below it and one at or above it.
   */
  method ReducePoints(points: seq<Point>, limit: int)
    returns (result: Option<seq<Point>>, ghost at: seq<nat>, ghost width: nat)
    ensures result.None? <==> |points| > limit && 0 <= limit < 4
    ensures |points| <= limit || limit < 0 ==> result == Some(points)
    ensures result.Some? ==> Selection(result.value, at, points)
    ensures limit >= 4 ==> |result.value| <= limit
    ensures limit >= 4 && |points| > limit ==>
              && width >= 1 && width * (limit / 4) >= |points| && (width - 1) * (limit / 4) < |points|
              && (forall i :: 0 <= i < |points| ==> Covered(points, at, i, width))
              && forall block :: KeepsEnds(at, |points|, block, width)
  {
    at, width := [], 0;
    if |points| <= limit {
      at := seq(|points|, i => i);
      return Some(points), at, width;
    }
    if limit / 4 == 0 {
      return None, at, width;
    }
    var w := Width(|points|, limit);
    width := w;
    var thinned;
    ghost var chunks;
    thinned, at, chunks := Thin(points, w);
    if limit < 0 {
      NothingDropped(points, thinned, at, limit);
    } else {
      LeastWidth(|points|, limit);
      FewChunks(chunks, w, limit / 4, |points|);
    }
    result := Some(thinned);
  }

  /** Goes through the series chunk by chunk. */
  method Thin(points: seq<Point>, width: nat) returns (thinned: seq<Point>, ghost at: seq<nat>, ghost chunks: nat)
    requires width >= 1
    ensures Selection(thinned, at, points) && |thinned| <= 4 * chunks
    ensures chunks > 0 ==> (chunks - 1) * width < |points|
    ensures forall i :: 0 <= i < |points| ==> Covered(points, at, i, width)
    ensures forall block :: KeepsEnds(at, |points|, block, width)
  {
    hide Covered, SubseqAt, Ascending, Bounds, KeepsEnds;
    thinned, at, chunks := [], [], 0;
    NothingPicked(points);
    var start := 0;
    while start < |points|
      invariant start == chunks * width
      invariant SubseqAt(thinned, at, points) && (forall k :: 0 <= k < |at| ==> at[k] < start)
      invariant |thinned| <= 4 * chunks && (chunks > 0 ==> (chunks - 1) * width < |points|)
      invariant start == 0 ==> thinned == []
      invariant start > 0 ==> points != [] && thinned != [] && thinned[0] == points[0]
      invariant start >= |points| > 0 ==> thinned != [] && thinned[|thinned| - 1] == points[|points| - 1]
      invariant forall i :: 0 <= i < start && i < |points| ==> Covered(points, at, i, width)
      invariant forall block :: 0 <= block < chunks ==> KeepsEnds(at, |points|, block, width)
      decreases |points| - start
    {
      var end := if start + width <= |points| then start + width else |points|;
      var chunk := points[start..end];
      var kept, least, most := Kept(chunk);
      ghost var before := at;
      var picked := seq(|kept|, k requires 0 <= k < |kept| => chunk[kept[k]]);
      at := at + seq(|kept|, k requires 0 <= k < |kept| => start + kept[k]);
      AllCovered(points, before, at, start, chunks, width, chunk, kept, least, most);
      PickedInOrder(points, thinned, before, start, chunk, kept);
      EndsKept(before, at, |points|, start, chunks, width, kept);
      thinned := thinned + picked;
      NextStart(chunks, width);
      chunks := chunks + 1;
      start := start + width;
    }
    NoMoreBlocks(at, |points|, chunks, width);
  }

  /** The ends of the block just taken are kept, and those of the blocks before it stay so. */
  lemma EndsKept(before: seq<nat>, at: seq<nat>, n: nat, start: nat, chunks: nat, width: nat, kept: seq<nat>)
    requires width >= 1 && start == chunks * width < n && kept != []
    requires kept[0] == 0 && kept[|kept| - 1] == Min(width, n - start) - 1
    requires at == before + seq(|kept|, k requires 0 <= k < |kept| => start + kept[k])
    requires forall block :: 0 <= block < chunks ==> KeepsEnds(before, n, block, width)
    ensures forall block :: 0 <= block <= chunks ==> KeepsEnds(at, n, block, width)
  {
    assert at[|before|] == start && at[|at| - 1] == Min(start + width, n) - 1;
    forall block: nat | block <= chunks ensures KeepsEnds(at, n, block, width) {
      if block < chunks { assert KeepsEnds(before, n, block, width); }
    }
  }

  lemma NoMoreBlocks(at: seq<nat>, n: nat, chunks: nat, width: nat)
    requires chunks * width >= n && forall block :: 0 <= block < chunks ==> KeepsEnds(at, n, block, width)
    ensures forall block :: KeepsEnds(at, n, block, width)
  {
    forall block: nat ensures KeepsEnds(at, n, block, width) {
      if block >= chunks { Grows(chunks, block, width); }
    }
  }

  lemma NothingPicked(points: seq<Point>)
    ensures SubseqAt([], [], points)
  {
  }

  lemma PickedInOrder(points: seq<Point>, thinned: seq<Point>, before: seq<nat>, start: nat, chunk: seq<Point>,
                      kept: seq<nat>)
    requires SubseqAt(thinned, before, points) && forall k :: 0 <= k < |before| ==> before[k] < start
    requires start + |chunk| <= |points| && chunk == points[start..start + |chunk|]
    requires Ascending(kept) && forall k :: 0 <= k < |kept| ==> kept[k] < |chunk|
    ensures var at := before + seq(|kept|, k requires 0 <= k < |kept| => start + kept[k]);
            && SubseqAt(thinned + seq(|kept|, k requires 0 <= k < |kept| => chunk[kept[k]]), at, points)
            && forall k :: 0 <= k < |at| ==> at[k] < start + |chunk|
  {
  }

  lemma NextStart(chunks: nat, width: nat)
    ensures (chunks + 1) * width == chunks * width + width
    ensures (chunks + 1 - 1) * width == chunks * width
  {
  }

  lemma FewChunks(chunks: nat, width: nat, q: nat, n: nat)
    requires chunks > 0 ==> (chunks - 1) * width < n
    requires n <= width * q
    ensures chunks <= q
  {
    if chunks > 0 { CancelLess(chunks - 1, q, width); }
  }

  lemma CancelLess(a: nat, b: nat, w: nat)
    requires a * w < b * w
    ensures a < b
  {
    if a >= b { Grows(b, a, w); }
  }

  lemma Grows(a: nat, b: nat, w: nat)
    requires a <= b
    ensures a * w <= b * w
  {
  }

  lemma SameChunk(i: nat, chunks: nat, width: nat)
    requires width >= 1 && chunks * width <= i < chunks * width + width
    ensures i / width == chunks
  {
    var d := i / width;
    assert d * width <= i < d * width + width;
    NextStart(d, width);
    NextStart(chunks, width);
    CancelLess(d, chunks + 1, width);
    CancelLess(chunks, d + 1, width);
  }

  /** The chunk just taken is covered, and those before it stay so. */
  lemma AllCovered(points: seq<Point>, before: seq<nat>, at: seq<nat>, start: nat, chunks: nat, width: nat,
                   chunk: seq<Point>, kept: seq<nat>, least: nat, most: nat)
    requires width >= 1 && start == chunks * width && start + |chunk| <= |points| && |chunk| <= width
    requires chunk == points[start..start + |chunk|]
    requires at == before + seq(|kept|, k requires 0 <= k < |kept| => start + kept[k])
    requires least in kept && most in kept && Bounds(chunk, least, most)
    requires forall i :: 0 <= i < start && i < |points| ==> Covered(points, before, i, width)
    ensures forall i :: 0 <= i < start + |chunk| ==> Covered(points, at, i, width)
  {
    forall i: nat | i < start + |chunk| ensures Covered(points, at, i, width) {
      if i < start {
        assert Covered(points, before, i, width);
        var a, b :| Between(points, before, i, a, b, width);
        assert Between(points, at, i, a, b, width);
      } else {
        var x :| 0 <= x < |kept| && kept[x] == least;
        var y :| 0 <= y < |kept| && kept[y] == most;
        assert at[|before| + x] == start + least && at[|before| + y] == start + most;
        SameChunk(i, chunks, width);
        SameChunk(start + least, chunks, width);
        SameChunk(start + most, chunks, width);
        assert chunk[i - start] == points[i] && chunk[least] == points[start + least] && chunk[most] == points[start + most];
        assert Between(points, at, i, start + least, start + most, width);
      }
    }
  }
}
