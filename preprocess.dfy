/** Path preprocessing: densifyPath (split long segments into equal steps) and smoothPath
    (repeated three-point moving average with pinned endpoints), each as the loop that
    flythrough_core.cpp runs and the specification function it computes. */
module Preprocess {
  import opened Geometry

  /** How many points densifyPath appends for a segment of measured length dist: one (the
      segment's end) when dist <= interval, otherwise one more than for a segment one interval
      shorter, which is ceil(dist / interval) (SegmentCountIsCeil). */
  function SegmentCount(dist: real, interval: real): (n: nat)
    requires interval > 0.0
    ensures n >= 1
    ensures dist > interval ==> n >= 2
    decreases if dist <= interval then 0 else Ceil(dist / interval)
  {
    if dist <= interval then 1
    else
      CeilDecreases(dist, interval);
      1 + SegmentCount(dist - interval, interval)
  }

  lemma CeilDecreases(dist: real, interval: real)
    requires interval > 0.0 && dist > interval
    ensures 0 <= Ceil((dist - interval) / interval) < Ceil(dist / interval)
  {
    DivShift(dist, interval);
  }

  lemma RatioInUnit(a: real, b: real)
    requires 0.0 < a <= b
    ensures 0.0 < a / b <= 1.0
  {
  }

  lemma DivShift(a: real, b: real)
    requires b > 0.0
    ensures (a - b) / b == a / b - 1.0
  {
    assert b / b == 1.0;
    assert (a - b) / b == a / b - b / b;
  }

  /** For a segment longer than the interval the count is numSegments = ceil(dist / interval). */
  lemma {:induction false} SegmentCountIsCeil(dist: real, interval: real)
    requires interval > 0.0 && dist > interval
    ensures SegmentCount(dist, interval) == Ceil(dist / interval)
    decreases Ceil(dist / interval)
  {
    var rest := dist - interval;
    DivShift(dist, interval);
    CeilDecreases(dist, interval);
    if rest > interval {
      SegmentCountIsCeil(rest, interval);
    } else {
      RatioInUnit(rest, interval);
    }
  }

  /** The points appended for segment p1 -> p2: p2 alone, or p1 + j * (p2 - p1) / n for
      j = 1 .. n. */
  function SegmentPoints(p1: Point, p2: Point, dist: real, interval: real): (s: seq<Point>)
    requires interval > 0.0
    ensures |s| == SegmentCount(dist, interval)
    ensures s[|s| - 1] == p2
  {
    if dist <= interval then [p2]
    else
      var n := SegmentCount(dist, interval);
      var dx, dy := (p2.x - p1.x) / n as real, (p2.y - p1.y) / n as real;
      StepEndsAt(p1.x, p2.x, n);
      StepEndsAt(p1.y, p2.y, n);
      assert StepPoint(p1, dx, dy, n) == p2;
      Steps(p1, dx, dy, n)
  }

  /** The point j steps of (dx, dy) away from p. */
  function StepPoint(p: Point, dx: real, dy: real, j: nat): Point
  {
    Point(p.x + dx * j as real, p.y + dy * j as real)
  }

  /** The points 1, 2, .., j steps of (dx, dy) away from p, in that order. */
  function Steps(p: Point, dx: real, dy: real, j: nat): (s: seq<Point>)
    ensures |s| == j
    ensures j > 0 ==> s[j - 1] == StepPoint(p, dx, dy, j)
  {
    if j == 0 then [] else Steps(p, dx, dy, j - 1) + [StepPoint(p, dx, dy, j)]
  }

  lemma {:induction false} StepsAt(p: Point, dx: real, dy: real, j: nat, i: nat)
    requires i < j
    ensures Steps(p, dx, dy, j)[i] == StepPoint(p, dx, dy, i + 1)
  {
    if i < j - 1 {
      StepsAt(p, dx, dy, j - 1, i);
    }
  }

  /** Over the reals, n steps of (b - a) / n from a land exactly on b. */
  lemma StepEndsAt(a: real, b: real, n: nat)
    requires n > 0
    ensures a + (b - a) / n as real * n as real == b
  {
  }

  /** A split segment is cut into equal pieces: the first appended point is one step from p1,
      and each further point is one more step along. */
  lemma SegmentPointsEvenlySpaced(p1: Point, p2: Point, dist: real, interval: real, j: nat)
    requires interval > 0.0 && dist > interval
    requires j < SegmentCount(dist, interval)
    ensures var s, n := SegmentPoints(p1, p2, dist, interval), SegmentCount(dist, interval);
            var prev := if j == 0 then p1 else s[j - 1];
            s[j].x - prev.x == (p2.x - p1.x) / n as real &&
            s[j].y - prev.y == (p2.y - p1.y) / n as real
  {
    var n := SegmentCount(dist, interval);
    var dx, dy := (p2.x - p1.x) / n as real, (p2.y - p1.y) / n as real;
    assert SegmentPoints(p1, p2, dist, interval) == Steps(p1, dx, dy, n);
    StepsAt(p1, dx, dy, n, j);
    if j > 0 {
      StepsAt(p1, dx, dy, n, j - 1);
    }
    StepPointDelta(p1, dx, dy, j);
  }

  /** Consecutive steps differ by exactly (dx, dy), and step 0 is p itself. */
  lemma StepPointDelta(p: Point, dx: real, dy: real, j: nat)
    ensures StepPoint(p, dx, dy, j + 1).x - StepPoint(p, dx, dy, j).x == dx
    ensures StepPoint(p, dx, dy, j + 1).y - StepPoint(p, dx, dy, j).y == dy
    ensures StepPoint(p, dx, dy, 0) == p
  {
    assert dx * (j + 1) as real == dx * j as real + dx;
    assert dy * (j + 1) as real == dy * j as real + dy;
  }

  /** The first vertex of v followed by pieces(v[i], v[i + 1]) for the segments i < k, in
      order: what densifyPath has built after k segments when pieces gives each segment's
      appended points. */
  function DensePrefix(v: seq<Point>, k: nat, pieces: (Point, Point) -> seq<Point>): (s: seq<Point>)
    requires k < |v|
    ensures |s| >= 1
  {
    if k == 0 then [v[0]] else DensePrefix(v, k - 1, pieces) + pieces(v[k - 1], v[k])
  }

  /** The points densifyPath appends for each segment, given the interval and the measure. */
  function SegmentPieces(interval: real, distance: Distance): (Point, Point) -> seq<Point>
    requires interval > 0.0
  {
    (p1: Point, p2: Point) => SegmentPoints(p1, p2, distance(p1, p2), interval)
  }

  /** densifyPath's result: the input itself when it has fewer than two vertices, otherwise
      the first vertex followed by every segment's points. */
  function Densify(v: seq<Point>, interval: real, distance: Distance): seq<Point>
    requires interval > 0.0
  {
    if |v| < 2 then v else DensePrefix(v, |v| - 1, SegmentPieces(interval, distance))
  }

  /** densifyPath (flythrough_core.cpp:305-333). */
  method DensifyPath(vertices: seq<Point>, interval: real, distance: Distance)
    returns (dense: seq<Point>)
    requires interval > 0.0
    ensures dense == Densify(vertices, interval, distance)
  {
    if |vertices| < 2 {
      return vertices;
    }
    ghost var pieces := SegmentPieces(interval, distance);
    dense := [vertices[0]];
    var i := 0;
    while i < |vertices| - 1
      invariant 0 <= i <= |vertices| - 1
      invariant dense == DensePrefix(vertices, i, pieces)
    {
      dense := AppendSegment(dense, vertices[i], vertices[i + 1], interval, distance);
      assert pieces(vertices[i], vertices[i + 1]) ==
             SegmentPoints(vertices[i], vertices[i + 1], distance(vertices[i], vertices[i + 1]), interval);
      i := i + 1;
    }
  }

  /** One iteration of densifyPath's loop: appends p2 alone when the segment is no longer than
      the interval, otherwise ceil(dist / interval) equal steps from p1 to p2. */
  method AppendSegment(dense: seq<Point>, p1: Point, p2: Point, interval: real, distance: Distance)
    returns (r: seq<Point>)
    requires interval > 0.0
    ensures r == dense + SegmentPoints(p1, p2, distance(p1, p2), interval)
  {
    var dist := distance(p1, p2);
    if dist <= interval {
      r := dense + [p2];
    } else {
      var numSegments := Ceil(dist / interval);
      var dx := (p2.x - p1.x) / numSegments as real;
      var dy := (p2.y - p1.y) / numSegments as real;
      SegmentCountIsCeil(dist, interval);
      r := AppendSteps(dense, p1, dx, dy, numSegments);
    }
  }

  /** The inner loop of densifyPath: appends p1 + j * (dx, dy) for j = 1 .. n. */
  method AppendSteps(dense: seq<Point>, p1: Point, dx: real, dy: real, n: int)
    returns (r: seq<Point>)
    requires n >= 1
    ensures r == dense + Steps(p1, dx, dy, n)
  {
    r := dense;
    var j := 1;
    while j <= n
      invariant 1 <= j <= n + 1
      invariant r == dense + Steps(p1, dx, dy, j - 1)
    {
      assert Steps(p1, dx, dy, j) == Steps(p1, dx, dy, j - 1) + [StepPoint(p1, dx, dy, j)];
      r := r + [StepPoint(p1, dx, dy, j)];
      j := j + 1;
    }
  }

  /** Every piece is non-empty and ends at the segment's second vertex. */
  ghost predicate EndsAtTarget(pieces: (Point, Point) -> seq<Point>)
  {
    forall p, q :: |pieces(p, q)| >= 1 && pieces(p, q)[|pieces(p, q)| - 1] == q
  }

  lemma SegmentPiecesEndAtTarget(interval: real, distance: Distance)
    requires interval > 0.0
    ensures EndsAtTarget(SegmentPieces(interval, distance))
  {
    var pieces := SegmentPieces(interval, distance);
    forall p, q
      ensures |pieces(p, q)| >= 1 && pieces(p, q)[|pieces(p, q)| - 1] == q
    {
      assert pieces(p, q) == SegmentPoints(p, q, distance(p, q), interval);
    }
  }

  /** The last point built after k segments is vertex k. */
  lemma DensePrefixLast(v: seq<Point>, k: nat, pieces: (Point, Point) -> seq<Point>)
    requires k < |v| && EndsAtTarget(pieces)
    ensures var s := DensePrefix(v, k, pieces); s[|s| - 1] == v[k]
  {
    if k > 0 {
      var tail := pieces(v[k - 1], v[k]);
      assert DensePrefix(v, k, pieces) == DensePrefix(v, k - 1, pieces) + tail;
    }
  }

  /** Later segments only append: what was built after k segments is still there, at the same
      indices, after m >= k segments. */
  lemma {:induction false} DensePrefixKeeps(v: seq<Point>, k: nat, m: nat,
                                            pieces: (Point, Point) -> seq<Point>, at: nat)
    requires k <= m < |v| && at < |DensePrefix(v, k, pieces)|
    ensures at < |DensePrefix(v, m, pieces)|
    ensures DensePrefix(v, m, pieces)[at] == DensePrefix(v, k, pieces)[at]
  {
    if k < m {
      DensePrefixKeeps(v, k, m - 1, pieces, at);
      assert DensePrefix(v, m, pieces) == DensePrefix(v, m - 1, pieces) + pieces(v[m - 1], v[m]);
    }
  }

  /** With non-empty pieces, each segment moves the end of the list on by at least one. */
  lemma DensePrefixGrows(v: seq<Point>, k: nat, pieces: (Point, Point) -> seq<Point>)
    requires k + 1 < |v| && EndsAtTarget(pieces)
    ensures |DensePrefix(v, k, pieces)| < |DensePrefix(v, k + 1, pieces)|
  {
    assert |pieces(v[k], v[k + 1])| >= 1;
  }

  /** Densifying keeps every input vertex: vertex k sits at index |DensePrefix(v, k)| - 1. */
  lemma DensifyKeepsVertices(v: seq<Point>, interval: real, distance: Distance, k: nat)
    requires interval > 0.0 && 2 <= |v| && k < |v|
    ensures var d, at := Densify(v, interval, distance),
                         |DensePrefix(v, k, SegmentPieces(interval, distance))| - 1;
            at < |d| && d[at] == v[k]
  {
    var pieces := SegmentPieces(interval, distance);
    SegmentPiecesEndAtTarget(interval, distance);
    DensePrefixLast(v, k, pieces);
    DensePrefixKeeps(v, k, |v| - 1, pieces, |DensePrefix(v, k, pieces)| - 1);
    assert Densify(v, interval, distance) == DensePrefix(v, |v| - 1, pieces);
  }

  /** ... in their order: the index of vertex k + 1 is larger than that of vertex k. */
  lemma DensifyKeepsOrder(v: seq<Point>, interval: real, distance: Distance, k: nat)
    requires interval > 0.0 && k + 1 < |v|
    ensures var pieces := SegmentPieces(interval, distance);
            |DensePrefix(v, k, pieces)| < |DensePrefix(v, k + 1, pieces)|
  {
    SegmentPiecesEndAtTarget(interval, distance);
    DensePrefixGrows(v, k, SegmentPieces(interval, distance));
  }

  /** The first and last points of the densified path are the first and last vertices. */
  lemma DensifyEndpoints(v: seq<Point>, interval: real, distance: Distance)
    requires interval > 0.0 && 1 <= |v|
    ensures Densify(v, interval, distance)[0] == v[0]
    ensures var d := Densify(v, interval, distance); d[|d| - 1] == v[|v| - 1]
  {
    if |v| >= 2 {
      var pieces := SegmentPieces(interval, distance);
      SegmentPiecesEndAtTarget(interval, distance);
      DensePrefixKeeps(v, 0, |v| - 1, pieces, 0);
      DensePrefixLast(v, |v| - 1, pieces);
    }
  }

  /** (a + b + c) / 3 coordinate by coordinate. */
  function Average3(a: Point, b: Point, c: Point): Point
  {
    Point((a.x + b.x + c.x) / 3.0, (a.y + b.y + c.y) / 3.0)
  }

  /** The averages for the interior points 1 .. k of s, in order. */
  function Averages(s: seq<Point>, k: nat): (r: seq<Point>)
    requires k + 1 < |s|
    ensures |r| == k
  {
    if k == 0 then [] else Averages(s, k - 1) + [Average3(s[k - 1], s[k], s[k + 1])]
  }

  lemma {:induction false} AveragesAt(s: seq<Point>, k: nat, i: nat)
    requires k + 1 < |s| && i < k
    ensures Averages(s, k)[i] == Average3(s[i], s[i + 1], s[i + 2])
  {
    if i < k - 1 {
      AveragesAt(s, k - 1, i);
    }
  }

  /** One smoothing pass, computed from the previous pass's list: the first and last points
      are kept and every interior point becomes the average of itself and its neighbours. */
  function SmoothPass(s: seq<Point>): (r: seq<Point>)
    requires |s| >= 2
    ensures |r| == |s|
  {
    [s[0]] + Averages(s, |s| - 2) + [s[|s| - 1]]
  }

  lemma SmoothPassAt(s: seq<Point>, i: nat)
    requires |s| >= 2 && i < |s|
    ensures SmoothPass(s)[i] == if i == 0 then s[0]
                                else if i == |s| - 1 then s[|s| - 1]
                                else Average3(s[i - 1], s[i], s[i + 1])
  {
    if 0 < i < |s| - 1 {
      AveragesAt(s, |s| - 2, i - 1);
      assert SmoothPass(s)[i] == Averages(s, |s| - 2)[i - 1];
    }
  }

  /** smoothPath's result: the input when iterations <= 0 or fewer than three points,
      otherwise `iterations` passes. */
  function Smooth(s: seq<Point>, iterations: int): (r: seq<Point>)
    ensures |r| == |s|
    decreases if iterations < 0 then 0 else iterations
  {
    if iterations <= 0 || |s| < 3 then s else SmoothPass(Smooth(s, iterations - 1))
  }

  /** smoothPath (flythrough_core.cpp:335-359). */
  method SmoothPath(vertices: seq<Point>, iterations: int) returns (smoothed: seq<Point>)
    ensures smoothed == Smooth(vertices, iterations)
  {
    if iterations <= 0 || |vertices| < 3 {
      return vertices;
    }
    smoothed := vertices;
    var iter := 0;
    while iter < iterations
      invariant 0 <= iter <= iterations
      invariant smoothed == Smooth(vertices, iter)
    {
      smoothed := SmoothOnce(smoothed);
      iter := iter + 1;
    }
  }

  /** One iteration of smoothPath's outer loop: newSmoothed built point by point. */
  method SmoothOnce(smoothed: seq<Point>) returns (next: seq<Point>)
    requires |smoothed| >= 3
    ensures next == SmoothPass(smoothed)
  {
    next := [smoothed[0]];
    var i := 1;
    while i < |smoothed| - 1
      invariant 1 <= i <= |smoothed| - 1
      invariant next == [smoothed[0]] + Averages(smoothed, i - 1)
    {
      var newX := (smoothed[i - 1].x + smoothed[i].x + smoothed[i + 1].x) / 3.0;
      var newY := (smoothed[i - 1].y + smoothed[i].y + smoothed[i + 1].y) / 3.0;
      assert Averages(smoothed, i) == Averages(smoothed, i - 1) + [Point(newX, newY)];
      next := next + [Point(newX, newY)];
      i := i + 1;
    }
    next := next + [smoothed[|smoothed| - 1]];
  }

  /** Smoothing keeps the first and last points, pass after pass. */
  lemma {:induction false} SmoothPinsEndpoints(s: seq<Point>, iterations: int)
    requires |s| >= 1
    ensures var r := Smooth(s, iterations); r[0] == s[0] && r[|s| - 1] == s[|s| - 1]
    decreases if iterations < 0 then 0 else iterations
  {
    if iterations > 0 && |s| >= 3 {
      SmoothPinsEndpoints(s, iterations - 1);
      var prev := Smooth(s, iterations - 1);
      SmoothPassAt(prev, 0);
      SmoothPassAt(prev, |s| - 1);
    }
  }

  /** Each pass replaces every interior point by the three-point average of the previous pass. */
  lemma SmoothInterior(s: seq<Point>, iterations: int, i: nat)
    requires iterations > 0 && |s| >= 3 && 0 < i < |s| - 1
    ensures var prev := Smooth(s, iterations - 1);
            Smooth(s, iterations)[i] == Average3(prev[i - 1], prev[i], prev[i + 1])
  {
    SmoothPassAt(Smooth(s, iterations - 1), i);
  }

  /** Every point lies in the axis-aligned box [xlo, xhi] x [ylo, yhi]. */
  ghost predicate InBox(s: seq<Point>, xlo: real, xhi: real, ylo: real, yhi: real)
  {
    forall i :: 0 <= i < |s| ==> xlo <= s[i].x <= xhi && ylo <= s[i].y <= yhi
  }

  /** Smoothing never leaves the bounding box of the input: every pass only takes averages. */
  lemma {:induction false} SmoothStaysInBox(s: seq<Point>, iterations: int, xlo: real, xhi: real, ylo: real, yhi: real)
    requires InBox(s, xlo, xhi, ylo, yhi)
    ensures InBox(Smooth(s, iterations), xlo, xhi, ylo, yhi)
    decreases if iterations < 0 then 0 else iterations
  {
    if iterations > 0 && |s| >= 3 {
      SmoothStaysInBox(s, iterations - 1, xlo, xhi, ylo, yhi);
      var prev := Smooth(s, iterations - 1);
      var r := SmoothPass(prev);
      forall i | 0 <= i < |r|
        ensures xlo <= r[i].x <= xhi && ylo <= r[i].y <= yhi
      {
        SmoothPassAt(prev, i);
      }
    }
  }

  /** Equally spaced points on a straight line: each differs from the one before by step. */
  ghost predicate EvenSteps(s: seq<Point>, step: Point)
  {
    forall i :: 0 < i < |s| ==> s[i].x - s[i - 1].x == step.x && s[i].y - s[i - 1].y == step.y
  }

  /** A path of equally spaced points on a straight line is left exactly as it is by any
      number of smoothing passes. */
  lemma {:induction false} SmoothFixesEvenSteps(s: seq<Point>, iterations: int, step: Point)
    requires EvenSteps(s, step)
    ensures Smooth(s, iterations) == s
    decreases if iterations < 0 then 0 else iterations
  {
    if iterations > 0 && |s| >= 3 {
      SmoothFixesEvenSteps(s, iterations - 1, step);
      PassFixesEvenSteps(s, step);
    }
  }

  /** One pass maps an evenly stepped path to itself: the average of three equally spaced
      points is the middle one. */
  lemma PassFixesEvenSteps(s: seq<Point>, step: Point)
    requires |s| >= 2 && EvenSteps(s, step)
    ensures SmoothPass(s) == s
  {
    var r := SmoothPass(s);
    forall i | 0 < i < |s| - 1
      ensures r[i] == s[i]
    {
      SmoothPassAt(s, i);
      assert s[i + 1].x - s[i].x == step.x && s[i + 1].y - s[i].y == step.y;
    }
    forall i | i == 0 || i == |s| - 1
      ensures r[i] == s[i]
    {
      SmoothPassAt(s, i);
    }
  }
}
