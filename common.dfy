/** Shared vocabulary of the footprint pipeline and the renderers: JavaScript
    values, planar points, `Math.round`, grid snapping, bounding boxes,
    subsequences, ASCII upper-casing and the even-odd ray-casting rule. */
module Common {

  datatype Option<T> = None | Some(value: T)

  /** A property value of a GeoJSON feature, as JavaScript sees it. */
  datatype Json = JNull | JBool(b: bool) | JNum(n: real) | JStr(s: string)

  /** JavaScript truthiness of a value that is present. */
  predicate Truthy(v: Json)
  {
    match v
    case JNull => false
    case JBool(b) => b
    case JNum(n) => n != 0.0
    case JStr(s) => s != ""
  }

  /** Truthiness of `obj[key]`: an absent key reads as `undefined`, which is falsy. */
  predicate TruthyAt(m: map<string, Json>, key: string)
  {
    key in m && Truthy(m[key])
  }

  /** A position `[x, y]` (longitude/latitude, or canvas pixels in the renderers). */
  datatype Point = Point(x: real, y: real)

  function Abs(r: real): (a: real)
    ensures a >= 0.0 && (a == r || a == -r)
  {
    if r < 0.0 then -r else r
  }

  function Min(a: real, b: real): (m: real)
    ensures m <= a && m <= b && (m == a || m == b)
  {
    if a <= b then a else b
  }

  function Max(a: real, b: real): (m: real)
    ensures m >= a && m >= b && (m == a || m == b)
  {
    if a >= b then a else b
  }

  // ---------------------------------------------------------------------------
  // Math.round and grid snapping

  /** `Math.round(v)`: the integer nearest to v, halves rounded up. */
  function Round(v: real): (k: int)
    ensures v - 0.5 < k as real <= v + 0.5
  {
    (v + 0.5).Floor
  }

  /** v is an integer multiple of the grid size g. A negative g gives the
      same grid as -g. */
  predicate OnGrid(v: real, g: real)
    requires g != 0.0
  {
    (v / g).Floor as real == v / g
  }

  /** `Math.round(v / g) * g`: v moved to a nearest multiple of g. */
  function Snap(v: real, g: real): (s: real)
    requires g != 0.0
    ensures OnGrid(s, g)
    ensures Abs(s - v) <= Abs(g) / 2.0
  {
    var k := Round(v / g);
    assert (k as real * g) / g == k as real;
    var d := k as real - v / g;
    assert k as real * g - v == d * g;
    HalfCell(d, g);
    k as real * g
  }

  /** A shift of at most half a unit, scaled by g, stays within half a cell. */
  lemma HalfCell(d: real, g: real)
    requires -0.5 <= d <= 0.5
    ensures Abs(d * g) <= Abs(g) / 2.0
  {
    if g >= 0.0 {
      MulNonneg(0.5 - d, g);
      MulNonneg(d + 0.5, g);
      assert (0.5 - d) * g == 0.5 * g - d * g && (d + 0.5) * g == d * g + 0.5 * g;
    } else {
      MulNonneg(0.5 - d, -g);
      MulNonneg(d + 0.5, -g);
      assert (0.5 - d) * -g == d * g - 0.5 * g && (d + 0.5) * -g == -(d * g) - 0.5 * g;
    }
  }

  // Proof helpers (real arithmetic) for Snap (through HalfCell),
  // IsComplexShape, the ray-cast lemmas, FillColumn, BetweenEnds and the
  // projection bounds of PointToLineDistSq; not part of the model.
  lemma MulNonneg(a: real, b: real)
    requires a >= 0.0 && b >= 0.0
    ensures a * b >= 0.0
  {
  }

  lemma MulPos(a: real, b: real)
    requires a > 0.0 && b > 0.0
    ensures a * b > 0.0
  {
  }

  /** Snapping a value that is already on the grid leaves it where it is. */
  lemma SnapFixesOnGrid(v: real, g: real)
    requires g != 0.0 && OnGrid(v, g)
    ensures Snap(v, g) == v
  {
    var m := (v / g).Floor;
    assert Round(v / g) == m;
    assert m as real * g == v;
  }

  /** Snapping twice is snapping once. */
  lemma SnapIdempotent(v: real, g: real)
    requires g != 0.0
    ensures Snap(Snap(v, g), g) == Snap(v, g)
  {
    SnapFixesOnGrid(Snap(v, g), g);
  }

  function SnapPoint(p: Point, g: real): (q: Point)
    requires g != 0.0
    ensures OnGrid(q.x, g) && OnGrid(q.y, g)
  {
    Point(Snap(p.x, g), Snap(p.y, g))
  }

  predicate PointOnGrid(p: Point, g: real)
    requires g != 0.0
  {
    OnGrid(p.x, g) && OnGrid(p.y, g)
  }

  /** Every position of a list snapped to the grid, per axis. */
  function SnapToGrid(pts: seq<Point>, g: real): (r: seq<Point>)
    requires g != 0.0
    ensures |r| == |pts|
    ensures forall i :: 0 <= i < |r| ==> PointOnGrid(r[i], g)
    ensures forall i :: 0 <= i < |r| ==>
      Abs(r[i].x - pts[i].x) <= Abs(g) / 2.0 && Abs(r[i].y - pts[i].y) <= Abs(g) / 2.0
  {
    seq(|pts|, i requires 0 <= i < |pts| => SnapPoint(pts[i], g))
  }

  /** Snapping a snapped list again changes nothing. */
  lemma SnapToGridIdempotent(pts: seq<Point>, g: real)
    requires g != 0.0
    ensures SnapToGrid(SnapToGrid(pts, g), g) == SnapToGrid(pts, g)
  {
    var s := SnapToGrid(pts, g);
    forall i | 0 <= i < |s|
      ensures SnapPoint(s[i], g) == s[i]
    {
      SnapFixesOnGrid(s[i].x, g);
      SnapFixesOnGrid(s[i].y, g);
    }
  }

  // ---------------------------------------------------------------------------
  // Bounding boxes, as the running min/max loops compute them

  datatype Bounds = Bounds(minX: real, minY: real, maxX: real, maxY: real)

  /** One step of the running `Math.min` / `Math.max` loop. */
  function Extend(b: Bounds, p: Point): Bounds
  {
    Bounds(Min(b.minX, p.x), Min(b.minY, p.y), Max(b.maxX, p.x), Max(b.maxY, p.y))
  }

  /** The bounds after visiting every point of a non-empty list in order
      (`Math.min(Infinity, v) == v`, so the first point starts the box). */
  function BoundsOf(pts: seq<Point>): Bounds
    requires |pts| > 0
  {
    var p := pts[|pts| - 1];
    if |pts| == 1 then Bounds(p.x, p.y, p.x, p.y)
    else Extend(BoundsOf(pts[..|pts| - 1]), p)
  }

  predicate Within(p: Point, b: Bounds)
  {
    b.minX <= p.x <= b.maxX && b.minY <= p.y <= b.maxY
  }

  /** Every point lies inside the bounds. */
  lemma {:induction false} BoundsContain(pts: seq<Point>)
    requires |pts| > 0
    ensures forall i :: 0 <= i < |pts| ==> Within(pts[i], BoundsOf(pts))
  {
    if |pts| > 1 {
      var init := pts[..|pts| - 1];
      BoundsContain(init);
      forall i | 0 <= i < |pts| - 1
        ensures Within(pts[i], BoundsOf(pts))
      {
        assert pts[i] == init[i];
      }
    }
  }

  /** Each of the four bounds is a coordinate of some point. */
  lemma {:induction false} BoundsAttained(pts: seq<Point>)
    requires |pts| > 0
    ensures exists i :: 0 <= i < |pts| && pts[i].x == BoundsOf(pts).minX
    ensures exists i :: 0 <= i < |pts| && pts[i].y == BoundsOf(pts).minY
    ensures exists i :: 0 <= i < |pts| && pts[i].x == BoundsOf(pts).maxX
    ensures exists i :: 0 <= i < |pts| && pts[i].y == BoundsOf(pts).maxY
  {
    var n := |pts|;
    if n == 1 {
      assert pts[0].x == BoundsOf(pts).minX && pts[0].x == BoundsOf(pts).maxX;
      assert pts[0].y == BoundsOf(pts).minY && pts[0].y == BoundsOf(pts).maxY;
    } else {
      var init := pts[..n - 1];
      BoundsAttained(init);
      var b := BoundsOf(init);
      var i1 :| 0 <= i1 < n - 1 && init[i1].x == b.minX;
      var i2 :| 0 <= i2 < n - 1 && init[i2].y == b.minY;
      var i3 :| 0 <= i3 < n - 1 && init[i3].x == b.maxX;
      var i4 :| 0 <= i4 < n - 1 && init[i4].y == b.maxY;
      var B := BoundsOf(pts);
      assert pts[i1] == init[i1] && pts[i2] == init[i2] && pts[i3] == init[i3] && pts[i4] == init[i4];
      var j1 := if B.minX == b.minX then i1 else n - 1;
      var j2 := if B.minY == b.minY then i2 else n - 1;
      var j3 := if B.maxX == b.maxX then i3 else n - 1;
      var j4 := if B.maxY == b.maxY then i4 else n - 1;
      assert pts[j1].x == B.minX && pts[j2].y == B.minY && pts[j3].x == B.maxX && pts[j4].y == B.maxY;
    }
  }

  // ---------------------------------------------------------------------------
  // Subsequences

  /** a is an in-order subsequence of b. */
  predicate Subseq<T(==)>(a: seq<T>, b: seq<T>)
    decreases |b|
  {
    a == [] ||
    (b != [] &&
     ((a[|a| - 1] == b[|b| - 1] && Subseq(a[..|a| - 1], b[..|b| - 1])) ||
      Subseq(a, b[..|b| - 1])))
  }

  lemma {:induction false} SubseqLength<T>(a: seq<T>, b: seq<T>)
    requires Subseq(a, b)
    ensures |a| <= |b|
    decreases |b|
  {
    if a != [] {
      if a[|a| - 1] == b[|b| - 1] && Subseq(a[..|a| - 1], b[..|b| - 1]) {
        SubseqLength(a[..|a| - 1], b[..|b| - 1]);
      } else {
        SubseqLength(a, b[..|b| - 1]);
      }
    }
  }

  lemma {:induction false} SubseqReflexive<T>(a: seq<T>)
    ensures Subseq(a, a)
    decreases |a|
  {
    if a != [] {
      SubseqReflexive(a[..|a| - 1]);
    }
  }

  /** The elements of b at the given indices, in that order. */
  function Pick<T>(b: seq<T>, idx: seq<nat>): (r: seq<T>)
    requires forall k :: 0 <= k < |idx| ==> idx[k] < |b|
    ensures |r| == |idx| && forall k :: 0 <= k < |idx| ==> r[k] == b[idx[k]]
  {
    seq(|idx|, k requires 0 <= k < |idx| => b[idx[k]])
  }

  predicate Increasing(idx: seq<nat>)
  {
    forall k, l :: 0 <= k < l < |idx| ==> idx[k] < idx[l]
  }

  /** Picking at strictly increasing indices gives a subsequence. */
  lemma {:induction false} PickSubseq<T>(b: seq<T>, idx: seq<nat>)
    requires forall k :: 0 <= k < |idx| ==> idx[k] < |b|
    requires Increasing(idx)
    ensures Subseq(Pick(b, idx), b)
    decreases |b|
  {
    var a := Pick(b, idx);
    if a != [] {
      var m := |idx|;
      assert idx[0] < |b|;
      var b' := b[..|b| - 1];
      if idx[m - 1] == |b| - 1 {
        var idx' := idx[..m - 1];
        assert forall k :: 0 <= k < |idx'| ==> idx'[k] < |b'| by {
          forall k | 0 <= k < |idx'| ensures idx'[k] < |b'| {
            assert idx[k] < idx[m - 1];
          }
        }
        PickSubseq(b', idx');
        assert Pick(b', idx') == a[..m - 1];
      } else {
        PickSubseq(b', idx);
        assert Pick(b', idx) == a;
      }
    }
  }

  // ---------------------------------------------------------------------------
  // String.prototype.toUpperCase on ASCII letters

  function UpperChar(c: char): char
  {
    if 'a' <= c <= 'z' then (c as int - 32) as char else c
  }

  function ToUpper(s: string): string
  {
    if s == [] then [] else [UpperChar(s[0])] + ToUpper(s[1..])
  }

  /** Upper-casing an upper-cased string changes nothing. */
  lemma {:induction false} ToUpperIdempotent(s: string)
    ensures ToUpper(ToUpper(s)) == ToUpper(s)
  {
    if s != [] {
      ToUpperIdempotent(s[1..]);
      assert ToUpper(s)[1..] == ToUpper(s[1..]);
    }
  }

  // ---------------------------------------------------------------------------
  // Position-based sprite choice of the renderers

  /** JavaScript's `a % n` on integers: the remainder takes the sign of a. */
  function JsRem(a: int, n: int): (r: int)
    requires n > 0
    ensures a >= 0 ==> 0 <= r < n
    ensures a < 0 ==> -n < r <= 0
  {
    if a >= 0 then a % n else -((-a) % n)
  }

  /** `Math.floor((x - minX) / step + (y - minY) / step) % count`. */
  function GridSpriteIndex(x: real, y: real, minX: real, minY: real, step: real, count: int): int
    requires step > 0.0 && count > 0
  {
    JsRem(((x - minX) / step + (y - minY) / step).Floor, count)
  }

  /** Inside the fill loops x and y never drop below the minimum, so the
      index is a valid position in the sprite list. */
  lemma GridSpriteIndexInRange(x: real, y: real, minX: real, minY: real, step: real, count: int)
    requires step > 0.0 && count > 0
    requires x >= minX && y >= minY
    ensures 0 <= GridSpriteIndex(x, y, minX, minY, step, count) < count
  {
    RatioNonneg(x - minX, step);
    RatioNonneg(y - minY, step);
  }

  lemma RatioNonneg(a: real, b: real)
    requires a >= 0.0 && b > 0.0
    ensures a / b >= 0.0
  {
  }

  /** The cell i columns and j rows from the corner shows sprite (i + j) mod
      count, so neighbouring cells cycle through the list. */
  lemma GridSpriteIndexOfCell(minX: real, minY: real, step: real, count: int, i: nat, j: nat)
    requires step > 0.0 && count > 0
    ensures GridSpriteIndex(minX + i as real * step, minY + j as real * step, minX, minY, step, count) == (i + j) % count
  {
    assert (minX + i as real * step - minX) / step == i as real;
    assert (minY + j as real * step - minY) / step == j as real;
    assert ((i + j) as real).Floor == i + j;
  }

  // ---------------------------------------------------------------------------
  // Even-odd ray casting

  /** The edge from a (index i) to b (index j) straddles the horizontal line
      through p, and its crossing with that line lies strictly right of p.
      The division is only reached when a.y != b.y: the straddle test
      short-circuits first. */
  predicate Crosses(p: Point, a: Point, b: Point)
  {
    ((a.y > p.y) != (b.y > p.y)) && (p.x < (b.x - a.x) * (p.y - a.y) / (b.y - a.y) + a.x)
  }

  /** Number of edges (poly[i], poly[j]) with i < k crossing the ray from p,
      where j is the previous index (the last one for i == 0). */
  function CrossingCount(p: Point, poly: seq<Point>, k: nat): nat
    requires k <= |poly|
  {
    if k == 0 then 0
    else
      var i := k - 1;
      var j := if i == 0 then |poly| - 1 else i - 1;
      CrossingCount(p, poly, k - 1) + (if Crosses(p, poly[i], poly[j]) then 1 else 0)
  }

  /** The even-odd rule: p is inside when the ray crosses the outline an odd
      number of times. */
  predicate InsidePolygon(p: Point, poly: seq<Point>)
  {
    CrossingCount(p, poly, |poly|) % 2 == 1
  }

  /** The two-index loop of the ray-casting test (`j` trails `i`, starting
      at the last vertex), flipping `inside` at every crossing. */
  method RayCast(point: Point, polygon: seq<Point>) returns (inside: bool)
    ensures inside == InsidePolygon(point, polygon)
  {
    inside := false;
    if |polygon| == 0 {
      return;
    }
    var i, j := 0, |polygon| - 1;
    while i < |polygon|
      invariant 0 <= i <= |polygon|
      invariant j == if i == 0 then |polygon| - 1 else i - 1
      invariant inside == (CrossingCount(point, polygon, i) % 2 == 1)
    {
      if Crosses(point, polygon[i], polygon[j]) {
        inside := !inside;
      }
      j := i;
      i := i + 1;
    }
  }

  lemma RatioInUnit(num: real, den: real)
    requires (den < 0.0 && den <= num <= 0.0) || (den > 0.0 && 0.0 <= num <= den)
    ensures 0.0 <= num / den <= 1.0
  {
    var t := num / den;
    assert t * den == num;
    assert (1.0 - t) * den == den - num;
    if den < 0.0 {
      if 1.0 - t < 0.0 { assert (1.0 - t) * den > 0.0; }
    }
  }

  /** A crossing lies between the x-coordinates of the edge's two ends, so a
      point at or right of both ends never sees that edge cross its ray. */
  lemma NoCrossingRightOfEdge(p: Point, a: Point, b: Point)
    requires p.x >= a.x && p.x >= b.x
    ensures !Crosses(p, a, b)
  {
    if (a.y > p.y) != (b.y > p.y) {
      var t := (p.y - a.y) / (b.y - a.y);
      RatioInUnit(p.y - a.y, b.y - a.y);
      MulDiv(b.x - a.x, p.y - a.y, b.y - a.y);
      ConvexAtMost(a.x, b.x, p.x, t);
    }
  }

  // Proof helpers (real arithmetic) for NoCrossingRightOfEdge; not part of
  // the model.
  lemma MulDiv(c: real, n: real, d: real)
    requires d != 0.0
    ensures c * n / d == c * (n / d)
  {
    var t := n / d;
    assert t * d == n;
    assert (c * t) * d == c * n;
  }

  /** A point between a and b lies at or left of anything at or right of both. */
  lemma ConvexAtMost(a: real, b: real, p: real, t: real)
    requires 0.0 <= t <= 1.0 && p >= a && p >= b
    ensures (b - a) * t + a <= p
  {
    MulNonneg(p - a, 1.0 - t);
    MulNonneg(p - b, t);
    assert (p - a) * (1.0 - t) == p - a - p * t + a * t;
    assert (p - b) * t == p * t - b * t;
    assert (b - a) * t == b * t - a * t;
  }

  /** A point at or right of every vertex, or strictly below every vertex, or
      at or above every vertex, is outside the polygon. */
  lemma {:induction false} OutsideBoundsIsOutside(p: Point, poly: seq<Point>, k: nat)
    requires k <= |poly|
    requires |poly| > 0
    requires (forall i :: 0 <= i < |poly| ==> p.x >= poly[i].x)
          || (forall i :: 0 <= i < |poly| ==> p.y < poly[i].y)
          || (forall i :: 0 <= i < |poly| ==> p.y >= poly[i].y)
    ensures CrossingCount(p, poly, k) == 0
  {
    if k > 0 {
      OutsideBoundsIsOutside(p, poly, k - 1);
      var i := k - 1;
      var j := if i == 0 then |poly| - 1 else i - 1;
      if forall i :: 0 <= i < |poly| ==> p.x >= poly[i].x {
        NoCrossingRightOfEdge(p, poly[i], poly[j]);
      }
    }
  }

  /** So those points are not inside. */
  lemma OutsideBoundsNotInside(p: Point, poly: seq<Point>)
    requires |poly| > 0
    requires p.x >= BoundsOf(poly).maxX || p.y < BoundsOf(poly).minY || p.y >= BoundsOf(poly).maxY
    ensures !InsidePolygon(p, poly)
  {
    BoundsContain(poly);
    OutsideBoundsIsOutside(p, poly, |poly|);
  }
}
