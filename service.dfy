/** The client-side geometry helpers of client/js/ProcessingService.js:
    one-pass simplification against the original neighbours, point to
    segment distance, and the bounding rectangle. Grid snapping is
    `Common.SnapToGrid`. Distances are compared squared, so no square root
    is taken. */
module ProcessingService {
  import opened Common

  /** Products of coordinates go through this function, so that facts
      about a square are stated about `Sq(x)` rather than about `x * x`. */
  function Product(a: real, b: real): real
  {
    a * b
  }

  lemma ProductOfPositives(a: real, b: real)
    requires a > 0.0 && b > 0.0
    ensures Product(a, b) > 0.0
  {
  }

  lemma ProductOfNegatives(a: real, b: real)
    requires a < 0.0 && b < 0.0
    ensures Product(a, b) > 0.0
  {
  }

  function Sq(x: real): real
  {
    Product(x, x)
  }

  lemma Square(x: real)
    ensures Sq(x) >= 0.0
    ensures x != 0.0 ==> Sq(x) > 0.0
  {
    if x > 0.0 {
      ProductOfPositives(x, x);
    } else if x < 0.0 {
      ProductOfNegatives(x, x);
    }
  }

  // Proof helper (real arithmetic) for the projection parameter of
  // PointToLineDistSq; not part of the model.
  lemma DivSame(a: real, b: real)
    requires b != 0.0 && a == b
    ensures a / b == 1.0
  {
  }

  /** The squared Euclidean distance: zero exactly between equal points. */
  function DistSq(p: Point, q: Point): (d: real)
    ensures d >= 0.0
    ensures p == q ==> d == 0.0
    ensures p != q ==> d > 0.0
  {
    Square(p.x - q.x);
    Square(p.y - q.y);
    Sq(p.x - q.x) + Sq(p.y - q.y)
  }

  /** Only a point is at distance zero from itself. */
  lemma DistSqZero(p: Point, q: Point)
    ensures DistSq(p, q) == 0.0 <==> p == q
  {
  }

  /** The point of segment [a, b] at parameter s. */
  function OnSegment(a: Point, b: Point, s: real): Point
  {
    Point(a.x + s * (b.x - a.x), a.y + s * (b.y - a.y))
  }

  /** The dot product of `point - a` with `b - a`. */
  function Dot(point: Point, a: Point, b: Point): real
  {
    (point.x - a.x) * (b.x - a.x) + (point.y - a.y) * (b.y - a.y)
  }

  /** `pointToLineDistance`, squared: the distance to the projection of
      `point` on the segment, the projection parameter clamped to [0, 1]; a
      zero-length segment measures to its start. */
  function PointToLineDistSq(point: Point, lineStart: Point, lineEnd: Point): (d: real)
    ensures d >= 0.0
    ensures lineStart == lineEnd ==> d == DistSq(point, lineStart)
    ensures point == lineStart || point == lineEnd ==> d == 0.0
  {
    var lenSq := DistSq(lineEnd, lineStart);
    if lenSq == 0.0 then DistSq(point, lineStart)
    else
      var param := Dot(point, lineStart, lineEnd) / lenSq;
      ParamAtEnds(point, lineStart, lineEnd);
      var nearest := if param < 0.0 then lineStart
                     else if param > 1.0 then lineEnd
                     else OnSegment(lineStart, lineEnd, param);
      DistSq(point, nearest)
  }

  /** At either end of a segment of positive length the projection
      parameter is 0 or 1, and the point there is that end. */
  lemma ParamAtEnds(point: Point, a: Point, b: Point)
    requires DistSq(b, a) != 0.0
    ensures point == a ==> Dot(point, a, b) / DistSq(b, a) == 0.0 && OnSegment(a, b, 0.0) == a
    ensures point == b ==> Dot(point, a, b) / DistSq(b, a) == 1.0 && OnSegment(a, b, 1.0) == b
  {
    if point == b {
      DivSame(Dot(point, a, b), DistSq(b, a));
    }
  }

  /** The squared distance to the point at parameter t, as a polynomial in t. */
  function Quadratic(point: Point, a: Point, b: Point, t: real): real
  {
    DistSq(point, a) - 2.0 * t * Dot(point, a, b) + t * t * DistSq(b, a)
  }

  /** (A - t C)^2 expanded. */
  lemma ExpandSq(A: real, C: real, t: real)
    ensures Sq(A - t * C) == Sq(A) - 2.0 * t * (A * C) + t * t * Sq(C)
  {
  }

  lemma ExpandSumSq(A: real, B: real, C: real, D: real, t: real)
    ensures Sq(A - t * C) + Sq(B - t * D) ==
      (Sq(A) + Sq(B)) - 2.0 * t * (A * C + B * D) + t * t * (Sq(C) + Sq(D))
  {
    ExpandSq(A, C, t);
    ExpandSq(B, D, t);
  }

  lemma QuadraticIsDistSq(point: Point, a: Point, b: Point, t: real)
    ensures DistSq(point, OnSegment(a, b, t)) == Quadratic(point, a, b, t)
  {
    var A, B := point.x - a.x, point.y - a.y;
    var C, D := b.x - a.x, b.y - a.y;
    var q := OnSegment(a, b, t);
    assert point.x - q.x == A - t * C;
    assert point.y - q.y == B - t * D;
    ExpandSumSq(A, B, C, D, t);
  }

  /** The factor of f(s) - f(t), for f the squared distance to the point at
      a parameter, lenSq the squared length and dot the dot product. */
  function Gap(s: real, t: real, lenSq: real, dot: real): real
  {
    (s - t) * ((s + t) * lenSq - 2.0 * dot)
  }

  lemma Factor(dist: real, dot: real, lenSq: real, s: real, t: real)
    ensures (dist - 2.0 * s * dot + s * s * lenSq) - (dist - 2.0 * t * dot + t * t * lenSq) ==
      Gap(s, t, lenSq, dot)
  {
    assert s * s * lenSq - t * t * lenSq == (s - t) * (s + t) * lenSq;
  }

  lemma QuadraticDifference(point: Point, a: Point, b: Point, s: real, t: real)
    ensures Quadratic(point, a, b, s) - Quadratic(point, a, b, t) ==
      Gap(s, t, DistSq(b, a), Dot(point, a, b))
  {
    Factor(DistSq(point, a), Dot(point, a, b), DistSq(b, a), s, t);
  }

  function Clamp01(p: real): (t: real)
    ensures 0.0 <= t <= 1.0
  {
    if p < 0.0 then 0.0 else if p > 1.0 then 1.0 else p
  }

  /** For a proper segment, the measured point is the one at the clamped
      projection parameter. */
  lemma PointToLineDistSqAt(point: Point, a: Point, b: Point)
    requires DistSq(b, a) != 0.0
    ensures PointToLineDistSq(point, a, b) ==
      DistSq(point, OnSegment(a, b, Clamp01(Dot(point, a, b) / DistSq(b, a))))
  {
    assert OnSegment(a, b, 0.0) == a;
    assert OnSegment(a, b, 1.0) == b;
  }

  /** On reals: with dot == p * lenSq and t the clamped p, the factor
      (s - t) * ((s + t) * lenSq - 2 * dot) is never negative on [0, 1]. */
  lemma ClampedFactorNonneg(s: real, p: real, lenSq: real, dot: real)
    requires 0.0 <= s <= 1.0 && lenSq > 0.0 && dot == p * lenSq
    ensures Gap(s, Clamp01(p), lenSq, dot) >= 0.0
  {
    if p < 0.0 {
      MulNonneg(s, lenSq);
      MulNonneg(-p, lenSq);
      MulNonneg(s, s * lenSq - 2.0 * dot);
    } else if p > 1.0 {
      MulNonneg(1.0 - s, lenSq);
      MulNonneg(p - 1.0, lenSq);
      MulNonneg(1.0 - s, 2.0 * dot - (s + 1.0) * lenSq);
    } else {
      assert (s + p) * lenSq - 2.0 * dot == (s - p) * lenSq;
      Square(s - p);
      MulNonneg((s - p) * (s - p), lenSq);
    }
  }

  lemma ProperSegmentMinimal(point: Point, a: Point, b: Point, s: real)
    requires 0.0 <= s <= 1.0 && DistSq(b, a) > 0.0
    ensures PointToLineDistSq(point, a, b) <= DistSq(point, OnSegment(a, b, s))
  {
    var dot := Dot(point, a, b);
    var lenSq := DistSq(b, a);
    var p := dot / lenSq;
    assert p * lenSq == dot;
    var t := Clamp01(p);
    PointToLineDistSqAt(point, a, b);
    QuadraticIsDistSq(point, a, b, s);
    QuadraticIsDistSq(point, a, b, t);
    QuadraticDifference(point, a, b, s, t);
    ClampedFactorNonneg(s, p, lenSq, dot);
  }

  /** The clamped projection is the point of the segment nearest to `point`. */
  lemma PointToLineDistIsMinimal(point: Point, a: Point, b: Point, s: real)
    requires 0.0 <= s <= 1.0
    ensures PointToLineDistSq(point, a, b) <= DistSq(point, OnSegment(a, b, s))
  {
    DistSqZero(b, a);
    if a == b {
      assert OnSegment(a, b, s) == a;
    } else {
      ProperSegmentMinimal(point, a, b, s);
    }
  }

  /** `distance > tolerance`, with both sides squared: a distance is never
      negative, so a negative tolerance is exceeded by every point. */
  predicate Exceeds(distSq: real, tolerance: real)
  {
    tolerance < 0.0 || distSq > tolerance * tolerance
  }

  /** Interior point i survives when it is farther than `tolerance` from the
      segment between its ORIGINAL neighbours. */
  predicate KeepInterior(c: seq<Point>, tolerance: real, i: nat)
    requires 1 <= i < |c| - 1
  {
    Exceeds(PointToLineDistSq(c[i], c[i - 1], c[i + 1]), tolerance)
  }

  /** The indices among 1 .. k-1 of the interior points that survive. */
  function KeptIndices(c: seq<Point>, tolerance: real, k: nat): (idx: seq<nat>)
    requires 1 <= k <= |c| - 1
    ensures forall j :: 0 <= j < |idx| ==> 1 <= idx[j] < k
    ensures Increasing(idx)
    ensures forall i :: 1 <= i < k ==> (i in idx <==> KeepInterior(c, tolerance, i))
  {
    if k == 1 then []
    else
      var before := KeptIndices(c, tolerance, k - 1);
      if KeepInterior(c, tolerance, k - 1) then before + [k - 1] else before
  }

  /** The indices `simplifyPolygon` keeps: always the first and the last,
      and the surviving interior points in between. */
  function SimplifiedIndices(c: seq<Point>, tolerance: real): (idx: seq<nat>)
    requires |c| > 3
    ensures |idx| >= 2 && idx[0] == 0 && idx[|idx| - 1] == |c| - 1
    ensures Increasing(idx) && forall j :: 0 <= j < |idx| ==> idx[j] < |c|
  {
    [0] + KeptIndices(c, tolerance, |c| - 1) + [|c| - 1]
  }

  /** What `simplifyPolygon` returns. */
  function SimplifiedPolygon(c: seq<Point>, tolerance: real): (r: seq<Point>)
    ensures |c| <= 3 ==> r == c
    ensures |c| > 3 ==> |r| >= 2 && r[0] == c[0] && r[|r| - 1] == c[|c| - 1]
  {
    if |c| <= 3 then c else Pick(c, SimplifiedIndices(c, tolerance))
  }

  /** The output is an in-order subsequence of the input, never longer. */
  lemma SimplifiedIsSubseq(c: seq<Point>, tolerance: real)
    ensures Subseq(SimplifiedPolygon(c, tolerance), c)
    ensures |SimplifiedPolygon(c, tolerance)| <= |c|
  {
    if |c| > 3 {
      PickSubseq(c, SimplifiedIndices(c, tolerance));
    } else {
      SubseqReflexive(c);
    }
    SubseqLength(SimplifiedPolygon(c, tolerance), c);
  }

  /** Interior point i of the input is in the output exactly when it is
      farther than `tolerance` from the segment between its original
      neighbours. */
  lemma SimplifiedKeepsExactly(c: seq<Point>, tolerance: real, i: nat)
    requires |c| > 3 && 1 <= i < |c| - 1
    ensures i in SimplifiedIndices(c, tolerance) <==> KeepInterior(c, tolerance, i)
  {
    var kept := KeptIndices(c, tolerance, |c| - 1);
    assert SimplifiedIndices(c, tolerance) == [0] + kept + [|c| - 1];
  }

  lemma PickAppend(c: seq<Point>, idx: seq<nat>, i: nat)
    requires forall k :: 0 <= k < |idx| ==> idx[k] < |c|
    requires i < |c|
    ensures Pick(c, idx + [i]) == Pick(c, idx) + [c[i]]
  {
  }

  /** One iteration of the loop: point i is appended exactly when it is kept. */
  lemma KeptPointsStep(c: seq<Point>, tolerance: real, i: nat)
    requires 1 <= i < |c| - 1
    ensures Pick(c, KeptIndices(c, tolerance, i + 1)) ==
      Pick(c, KeptIndices(c, tolerance, i)) + if KeepInterior(c, tolerance, i) then [c[i]] else []
  {
    if KeepInterior(c, tolerance, i) {
      PickAppend(c, KeptIndices(c, tolerance, i), i);
    }
  }

  /** The output is the first point, the kept interior points, the last point. */
  lemma SimplifiedPolygonParts(c: seq<Point>, tolerance: real)
    requires |c| > 3
    ensures SimplifiedPolygon(c, tolerance) ==
      [c[0]] + Pick(c, KeptIndices(c, tolerance, |c| - 1)) + [c[|c| - 1]]
  {
    var kept := KeptIndices(c, tolerance, |c| - 1);
    var r := SimplifiedPolygon(c, tolerance);
    var parts := [c[0]] + Pick(c, kept) + [c[|c| - 1]];
    assert |r| == |parts|;
    forall k | 0 <= k < |r|
      ensures r[k] == parts[k]
    {
      if k == 0 {
      } else if k <= |kept| {
        assert SimplifiedIndices(c, tolerance)[k] == kept[k - 1];
      } else {
        assert SimplifiedIndices(c, tolerance)[k] == |c| - 1;
      }
    }
  }

  /** The loop body's test for interior point i. */
  method IsKept(coordinates: seq<Point>, tolerance: real, i: nat) returns (keep: bool)
    requires 1 <= i < |coordinates| - 1
    ensures keep == KeepInterior(coordinates, tolerance, i)
  {
    var prev := coordinates[i - 1];
    var curr := coordinates[i];
    var next := coordinates[i + 1];
    var distance := PointToLineDistSq(curr, prev, next);
    keep := Exceeds(distance, tolerance);
  }

  /** The simplification loop. */
  method SimplifyPolygon(coordinates: seq<Point>, tolerance: real) returns (simplified: seq<Point>)
    ensures simplified == SimplifiedPolygon(coordinates, tolerance)
  {
    if |coordinates| <= 3 {
      return coordinates;
    }
    simplified := [coordinates[0]];
    for i := 1 to |coordinates| - 1
      invariant simplified == [coordinates[0]] + Pick(coordinates, KeptIndices(coordinates, tolerance, i))
    {
      var keep := IsKept(coordinates, tolerance, i);
      KeptPointsStep(coordinates, tolerance, i);
      if keep {
        simplified := simplified + [coordinates[i]];
      }
    }
    SimplifiedPolygonParts(coordinates, tolerance);
    simplified := simplified + [coordinates[|coordinates| - 1]];
  }

  /** The five corners of a bounding rectangle, counter-clockwise from the
      south-west, the last repeating the first. */
  function Rectangle(b: Bounds): (r: seq<Point>)
    ensures |r| == 5 && r[0] == r[4]
  {
    [Point(b.minX, b.minY), Point(b.maxX, b.minY), Point(b.maxX, b.maxY),
     Point(b.minX, b.maxY), Point(b.minX, b.minY)]
  }

  /** `createBoundingBox`. The running bounds start at +/-Infinity, which
      the first point replaces; an empty input leaves them infinite, which
      the model reports as None. */
  method CreateBoundingBox(coordinates: seq<Point>) returns (r: Option<seq<Point>>)
    ensures r.None? <==> coordinates == []
    ensures r.Some? ==>
      var box := r.value;
      |box| == 5 && box[0] == box[4] &&
      box[0].x == box[3].x && box[1].x == box[2].x &&
      box[0].y == box[1].y && box[2].y == box[3].y &&
      (forall i :: 0 <= i < |coordinates| ==> Within(coordinates[i], Bounds(box[0].x, box[0].y, box[2].x, box[2].y))) &&
      (exists i :: 0 <= i < |coordinates| && coordinates[i].x == box[0].x) &&
      (exists i :: 0 <= i < |coordinates| && coordinates[i].y == box[0].y) &&
      (exists i :: 0 <= i < |coordinates| && coordinates[i].x == box[2].x) &&
      (exists i :: 0 <= i < |coordinates| && coordinates[i].y == box[2].y)
  {
    var bounds: Option<Bounds> := None;
    for i := 0 to |coordinates|
      invariant i == 0 <==> bounds.None?
      invariant i > 0 ==> bounds == Some(BoundsOf(coordinates[..i]))
    {
      var p := coordinates[i];
      if bounds.None? {
        bounds := Some(Bounds(p.x, p.y, p.x, p.y));
      } else {
        var b := bounds.value;
        bounds := Some(Bounds(Min(b.minX, p.x), Min(b.minY, p.y), Max(b.maxX, p.x), Max(b.maxY, p.y)));
        assert coordinates[..i + 1][..i] == coordinates[..i];
      }
    }
    if bounds.None? {
      return None;
    }
    assert coordinates[..|coordinates|] == coordinates;
    BoundsContain(coordinates);
    BoundsAttained(coordinates);
    r := Some(Rectangle(bounds.value));
  }
}
