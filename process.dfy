/** The footprint normalisation pipeline of the server's `/orthogonalize`
    route (server/routes/process.js): grid snapping, one angle-correction
    sweep, one forward edge-forcing pass, stride decimation, the complexity
    fallback and the batch map/filter around them. */
module Process {
  import opened Common
  import opened GeoJson

  // ---------------------------------------------------------------------------
  // Options

  datatype Options = Options(
    tolerance: real,       // simplification tolerance handed to turf.simplify
    gridSize: real,        // grid cell edge
    minArea: real,         // features whose original area is below this are dropped
    maxVertices: int,      // ring length above which decimation runs
    angleTolerance: real,  // degrees a corner may deviate before it is corrected
    forceOrthogonal: bool, // run the edge-forcing pass
    preserveShape: bool)   // halve the nudge factor

  /** The options the pipeline handles. A zero grid makes every snapped
      coordinate NaN (`Math.round(x / 0) * 0`). A negative vertex cap makes
      the stride `Math.ceil(n / m)` zero or negative, so the stride loop never
      ends. A negative grid snaps to multiples of its absolute value, and a
      cap of 0 gives the stride `Infinity`, which keeps only the first
      position. */
  predicate ValidOptions(o: Options)
  {
    o.gridSize != 0.0 && o.maxVertices >= 0
  }

  /** The options a request may carry; a missing one takes its default. */
  datatype RequestOptions = RequestOptions(
    tolerance: Option<real>, gridSize: Option<real>, minArea: Option<real>,
    maxVertices: Option<int>, angleTolerance: Option<real>,
    forceOrthogonal: Option<bool>, preserveShape: Option<bool>)

  function OrElse<T>(v: Option<T>, default: T): T
  {
    if v.Some? then v.value else default
  }

  /** The destructuring with defaults at the top of the route. */
  function WithDefaults(r: RequestOptions): (o: Options)
    ensures r.tolerance.None? ==> o.tolerance == 0.0001
    ensures r.gridSize.None? ==> o.gridSize == 0.0001
    ensures r.minArea.None? ==> o.minArea == 0.000001
    ensures r.maxVertices.None? ==> o.maxVertices == 20
    ensures r.angleTolerance.None? ==> o.angleTolerance == 15.0
    ensures r.forceOrthogonal.None? ==> o.forceOrthogonal
    ensures r.preserveShape.None? ==> !o.preserveShape
    ensures r.tolerance.Some? ==> o.tolerance == r.tolerance.value
    ensures r.gridSize.Some? ==> o.gridSize == r.gridSize.value
    ensures r.minArea.Some? ==> o.minArea == r.minArea.value
    ensures r.maxVertices.Some? ==> o.maxVertices == r.maxVertices.value
    ensures r.angleTolerance.Some? ==> o.angleTolerance == r.angleTolerance.value
    ensures r.forceOrthogonal.Some? ==> o.forceOrthogonal == r.forceOrthogonal.value
    ensures r.preserveShape.Some? ==> o.preserveShape == r.preserveShape.value
  {
    Options(
      OrElse(r.tolerance, 0.0001),
      OrElse(r.gridSize, 0.0001),
      OrElse(r.minArea, 0.000001),
      OrElse(r.maxVertices, 20),
      OrElse(r.angleTolerance, 15.0),
      OrElse(r.forceOrthogonal, true),
      OrElse(r.preserveShape, false))
  }

  // ---------------------------------------------------------------------------
  // Angles

  /** Stand-ins for `Math.sqrt` and `Math.acos` (the latter already converted
      to degrees), which the model does not compute. */
  datatype Trig = Trig(sqrt: real -> real, acosDeg: real -> real)

  /** The properties of the two stand-ins the range of `calculateAngle` rests on. */
  ghost predicate SoundTrig(t: Trig)
  {
    (forall v :: v >= 0.0 ==> t.sqrt(v) >= 0.0 && (t.sqrt(v) == 0.0 <==> v == 0.0)) &&
    (forall c :: 0.0 <= t.acosDeg(c) <= 180.0)
  }

  /** `calculateAngle(p1, p2, p3)`: the angle at p2 between the vectors to p1
      and to p3, in degrees, made reflex (360 minus it) when the turn is
      clockwise; 0 when either vector has zero length. */
  function CalculateAngle(trig: Trig, p1: Point, p2: Point, p3: Point): real
  {
    var v1x, v1y := p1.x - p2.x, p1.y - p2.y;
    var v2x, v2y := p3.x - p2.x, p3.y - p2.y;
    var dot := v1x * v2x + v1y * v2y;
    var mag1 := trig.sqrt(v1x * v1x + v1y * v1y);
    var mag2 := trig.sqrt(v2x * v2x + v2y * v2y);
    if mag1 == 0.0 || mag2 == 0.0 then 0.0
    else
      var cosAngle := Max(-1.0, Min(1.0, dot / (mag1 * mag2)));
      var angle := trig.acosDeg(cosAngle);
      var cross := v1x * v2y - v1y * v2x;
      if cross < 0.0 then 360.0 - angle else angle
  }

  /** The angle lies in [0, 360], and a zero-length edge gives 0. */
  lemma CalculateAngleRange(trig: Trig, p1: Point, p2: Point, p3: Point)
    requires SoundTrig(trig)
    ensures 0.0 <= CalculateAngle(trig, p1, p2, p3) <= 360.0
    ensures p1 == p2 || p3 == p2 ==> CalculateAngle(trig, p1, p2, p3) == 0.0
  {
    var v1x, v1y := p1.x - p2.x, p1.y - p2.y;
    var v2x, v2y := p3.x - p2.x, p3.y - p2.y;
    assert v1x * v1x + v1y * v1y >= 0.0 && v2x * v2x + v2y * v2y >= 0.0;
  }

  /** Truncation toward zero. */
  function Trunc(x: real): int
  {
    if x >= 0.0 then x.Floor else -((-x).Floor)
  }

  /** JavaScript's `a % 360` on numbers: the remainder has the sign of the
      dividend. */
  function Rem360(a: real): (r: real)
    ensures a >= 0.0 ==> 0.0 <= r < 360.0
    ensures a < 0.0 ==> -360.0 < r <= 0.0
  {
    a - 360.0 * Trunc(a / 360.0) as real
  }

  /** `((angle % 360) + 360) % 360`. */
  function NormalizeAngle(angle: real): (n: real)
    ensures 0.0 <= n < 360.0
    ensures n == angle - 360.0 * (angle / 360.0).Floor as real
  {
    var b := Rem360(angle) + 360.0;
    Rem360OfSmall(b);
    var k := if b < 360.0 then Trunc(angle / 360.0) - 1 else Trunc(angle / 360.0);
    FloorUnique(angle / 360.0, k);
    Rem360(b)
  }

  // Proof helpers (real arithmetic) for NormalizeAngle: the floor of a
  // quotient, and the remainder on [0, 720). Not part of the model.
  /** The floor of q is the one integer k with k <= q < k + 1. */
  lemma FloorUnique(q: real, k: int)
    requires k as real <= q < k as real + 1.0
    ensures q.Floor == k
  {
  }

  /** On [0, 720) the remainder removes at most one turn. */
  lemma Rem360OfSmall(b: real)
    requires 0.0 <= b < 720.0
    ensures Rem360(b) == if b < 360.0 then b else b - 360.0
  {
    FloorUnique(b / 360.0, if b < 360.0 then 0 else 1);
  }

  /** `snapToRightAngle`: the right angle whose quadrant holds the normalised
      angle, with [0,45] and (315,360) going to 0. */
  function SnapToRightAngle(angle: real): (target: real)
    ensures target == 0.0 || target == 90.0 || target == 180.0 || target == 270.0
  {
    var n := NormalizeAngle(angle);
    if n <= 45.0 || n > 315.0 then 0.0
    else if n <= 135.0 then 90.0
    else if n <= 225.0 then 180.0
    else 270.0
  }

  /** Distance between two directions in [0, 360) going round the circle. */
  function AngularGap(a: real, b: real): real
  {
    Min(Abs(a - b), 360.0 - Abs(a - b))
  }

  /** The target is a right angle nearest to the normalised angle, within 45
      degrees of it. */
  lemma SnapToRightAngleNearest(angle: real)
    ensures AngularGap(NormalizeAngle(angle), SnapToRightAngle(angle)) <= 45.0
    ensures AngularGap(NormalizeAngle(angle), SnapToRightAngle(angle)) <= AngularGap(NormalizeAngle(angle), 0.0)
    ensures AngularGap(NormalizeAngle(angle), SnapToRightAngle(angle)) <= AngularGap(NormalizeAngle(angle), 90.0)
    ensures AngularGap(NormalizeAngle(angle), SnapToRightAngle(angle)) <= AngularGap(NormalizeAngle(angle), 180.0)
    ensures AngularGap(NormalizeAngle(angle), SnapToRightAngle(angle)) <= AngularGap(NormalizeAngle(angle), 270.0)
  {
  }

  /** Whole turns do not change the target. */
  lemma SnapToRightAnglePeriodic(angle: real, turns: int)
    ensures SnapToRightAngle(angle + 360.0 * turns as real) == SnapToRightAngle(angle)
  {
    var a' := angle + 360.0 * turns as real;
    assert a' / 360.0 == angle / 360.0 + turns as real;
    assert (a' / 360.0).Floor == (angle / 360.0).Floor + turns;
    assert NormalizeAngle(a') == NormalizeAngle(angle);
  }

  /** How far the corner angle at `curr` is from the right angle it snaps to,
      measured linearly (not round the circle). */
  function Deviation(trig: Trig, prev: Point, curr: Point, next: Point): (d: real)
    ensures d >= 0.0
    ensures 0.0 <= CalculateAngle(trig, prev, curr, next) <= 315.0 ==> d <= 45.0
    ensures 315.0 < CalculateAngle(trig, prev, curr, next) < 360.0 ==> d > 315.0
  {
    var angle := CalculateAngle(trig, prev, curr, next);
    assert 0.0 <= angle < 360.0 ==> (angle / 360.0).Floor == 0;
    Abs(angle - SnapToRightAngle(angle))
  }

  /** With sound trigonometry no corner deviates by more than a full turn. */
  lemma DeviationAtMostFullTurn(trig: Trig, prev: Point, curr: Point, next: Point)
    requires SoundTrig(trig)
    ensures Deviation(trig, prev, curr, next) <= 360.0
  {
    CalculateAngleRange(trig, prev, curr, next);
  }

  // ---------------------------------------------------------------------------
  // Moving one vertex

  /** `alignVertexToGrid`: snap either x or y, whichever moves the vertex
      less; on a tie, y. */
  function AlignVertexToGrid(v: Point, g: real): (r: Point)
    requires g != 0.0
    ensures (r.y == v.y && OnGrid(r.x, g)) || (r.x == v.x && OnGrid(r.y, g))
    ensures Abs(r.x - v.x) + Abs(r.y - v.y) ==
      Min(Abs(Snap(v.x, g) - v.x), Abs(Snap(v.y, g) - v.y))
    ensures Abs(r.x - v.x) + Abs(r.y - v.y) <= Abs(g) / 2.0
    ensures Abs(Snap(v.x, g) - v.x) >= Abs(Snap(v.y, g) - v.y) ==> r.x == v.x
  {
    var xAligned := Point(Snap(v.x, g), v.y);
    var yAligned := Point(v.x, Snap(v.y, g));
    var distX := Abs(v.x - xAligned.x);
    var distY := Abs(v.y - yAligned.y);
    if distX < distY then xAligned else yAligned
  }

  /** A vertex already on the grid is not moved by alignment. */
  lemma AlignFixesGridPoint(v: Point, g: real)
    requires g != 0.0 && PointOnGrid(v, g)
    ensures AlignVertexToGrid(v, g) == v
  {
    SnapFixesOnGrid(v.x, g);
    SnapFixesOnGrid(v.y, g);
  }

  /** The position `adjustVertexForAngle` nudges a vertex towards: `curr`
      moved by `factor` times the sum of the vectors to its neighbours. */
  function Nudged(prev: Point, curr: Point, next: Point, factor: real): Point
  {
    Point(curr.x + (prev.x - curr.x + next.x - curr.x) * factor,
          curr.y + (prev.y - curr.y + next.y - curr.y) * factor)
  }

  function NudgeFactor(preserveShape: bool): real
  {
    if preserveShape then 0.05 else 0.1
  }

  /** `adjustVertexForAngle`: a corner within 30 degrees of its target is
      nudged along the bisector and snapped to the grid; any other corner is
      aligned to a grid line. */
  function AdjustVertexForAngle(trig: Trig, prev: Point, curr: Point, next: Point,
                                target: real, g: real, preserveShape: bool): (r: Point)
    requires g != 0.0
    ensures Abs(target - CalculateAngle(trig, prev, curr, next)) < 30.0 ==>
      var p := Nudged(prev, curr, next, NudgeFactor(preserveShape));
      r == SnapPoint(p, g) &&
      PointOnGrid(r, g) && Abs(r.x - p.x) <= Abs(g) / 2.0 && Abs(r.y - p.y) <= Abs(g) / 2.0
    ensures Abs(target - CalculateAngle(trig, prev, curr, next)) >= 30.0 ==>
      r == AlignVertexToGrid(curr, g) &&
      ((r.y == curr.y && OnGrid(r.x, g)) || (r.x == curr.x && OnGrid(r.y, g)))
  {
    var currentAngle := CalculateAngle(trig, prev, curr, next);
    var angleDiff := target - currentAngle;
    if Abs(angleDiff) < 30.0 then
      SnapPoint(Nudged(prev, curr, next, NudgeFactor(preserveShape)), g)
    else
      AlignVertexToGrid(curr, g)
  }

  /** One iteration of the correction loop: a corner deviating by more than
      `angleTolerance` is adjusted, any other is left alone. */
  function CorrectVertex(trig: Trig, prev: Point, curr: Point, next: Point, o: Options): (r: Point)
    requires o.gridSize != 0.0
    ensures Deviation(trig, prev, curr, next) <= o.angleTolerance ==> r == curr
    ensures Deviation(trig, prev, curr, next) > o.angleTolerance ==>
      r == AdjustVertexForAngle(trig, prev, curr, next,
             SnapToRightAngle(CalculateAngle(trig, prev, curr, next)), o.gridSize, o.preserveShape)
  {
    var angle := CalculateAngle(trig, prev, curr, next);
    var target := SnapToRightAngle(angle);
    if Abs(angle - target) > o.angleTolerance then
      AdjustVertexForAngle(trig, prev, curr, next, target, o.gridSize, o.preserveShape)
    else curr
  }

  // ---------------------------------------------------------------------------
  // The correction sweep

  /** Cyclic neighbours of index `i` in a ring of `n` vertices. */
  function PrevIndex(i: nat, n: nat): (j: nat)
    requires i < n
    ensures j < n && (i == 0 ==> j == n - 1) && (i > 0 ==> j == i - 1)
  {
    (i - 1 + n) % n
  }

  function NextIndex(i: nat, n: nat): (j: nat)
    requires i < n
    ensures j < n && (i == n - 1 ==> j == 0) && (i < n - 1 ==> j == i + 1)
  {
    (i + 1) % n
  }

  /** Iteration `i` of the sweep on the working copy `s`. */
  function SweepStep(trig: Trig, s: seq<Point>, i: nat, o: Options): (r: seq<Point>)
    requires o.gridSize != 0.0 && i < |s|
    ensures |r| == |s|
    ensures forall j :: 0 <= j < |s| && j != i ==> r[j] == s[j]
    ensures r[i] == CorrectVertex(trig, s[PrevIndex(i, |s|)], s[i], s[NextIndex(i, |s|)], o)
  {
    s[i := CorrectVertex(trig, s[PrevIndex(i, |s|)], s[i], s[NextIndex(i, |s|)], o)]
  }

  /** A left-to-right sweep over a working copy, after its first `k`
      iterations: iteration i replaces vertex i by `corr(s, i)`, where `s` is
      the copy as the earlier iterations left it. */
  function Sweep(corr: (seq<Point>, nat) -> Point, vs: seq<Point>, k: nat): (s: seq<Point>)
    requires k <= |vs|
    ensures |s| == |vs|
  {
    if k == 0 then vs
    else
      var s := Sweep(corr, vs, k - 1);
      s[k - 1 := corr(s, k - 1)]
  }

  /** Vertices a sweep has not reached yet are untouched. */
  lemma {:induction false} SweepAhead(corr: (seq<Point>, nat) -> Point, vs: seq<Point>, k: nat)
    requires k <= |vs|
    ensures forall j :: k <= j < |vs| ==> Sweep(corr, vs, k)[j] == vs[j]
  {
    if k > 0 {
      SweepAhead(corr, vs, k - 1);
    }
  }

  /** Vertices a sweep has passed are never revisited. */
  lemma {:induction false} SweepStable(corr: (seq<Point>, nat) -> Point, vs: seq<Point>, k: nat, k2: nat)
    requires k <= k2 <= |vs|
    ensures forall j :: 0 <= j < k ==> Sweep(corr, vs, k2)[j] == Sweep(corr, vs, k)[j]
    decreases k2
  {
    if k2 > k {
      SweepStable(corr, vs, k, k2 - 1);
    }
  }

  /** A sweep whose every iteration would keep the vertex of the input
      changes nothing. */
  lemma {:induction false} SweepFixed(corr: (seq<Point>, nat) -> Point, vs: seq<Point>, k: nat)
    requires k <= |vs|
    requires forall i :: 0 <= i < |vs| ==> corr(vs, i) == vs[i]
    ensures Sweep(corr, vs, k) == vs
  {
    if k > 0 {
      SweepFixed(corr, vs, k - 1);
    }
  }

  /** The correction of vertex `i` of the working copy `s` against its
      current neighbours. */
  function Corrector(trig: Trig, o: Options): (corr: (seq<Point>, nat) -> Point)
    requires o.gridSize != 0.0
  {
    (w: seq<Point>, i: nat) =>
      if i < |w| then CorrectVertex(trig, w[PrevIndex(i, |w|)], w[i], w[NextIndex(i, |w|)], o)
      else Point(0.0, 0.0)
  }

  /** The working copy after the first `k` iterations of the correction
      loop. Each iteration reads its neighbours from the working copy, so the
      vertex before it is already corrected and, at the last vertex, so is
      vertex 0. */
  function AngleSweep(trig: Trig, vs: seq<Point>, k: nat, o: Options): (s: seq<Point>)
    requires o.gridSize != 0.0 && k <= |vs|
    ensures |s| == |vs|
  {
    Sweep(Corrector(trig, o), vs, k)
  }

  /** Iteration k - 1 of the correction loop turns the copy after k - 1
      iterations into the copy after k. */
  lemma AngleSweepStep(trig: Trig, vs: seq<Point>, k: nat, o: Options)
    requires o.gridSize != 0.0 && 0 < k <= |vs|
    ensures AngleSweep(trig, vs, k, o) == SweepStep(trig, AngleSweep(trig, vs, k - 1, o), k - 1, o)
  {
    var corr := Corrector(trig, o);
    var s := Sweep(corr, vs, k - 1);
    CorrectorAt(trig, o, s, k - 1, s[PrevIndex(k - 1, |s|)], s[NextIndex(k - 1, |s|)]);
  }

  /** The corrector applied at vertex i of w, with w's cyclic neighbours
      named. */
  lemma CorrectorAt(trig: Trig, o: Options, w: seq<Point>, i: nat, prev: Point, next: Point)
    requires o.gridSize != 0.0 && i < |w|
    requires prev == w[PrevIndex(i, |w|)] && next == w[NextIndex(i, |w|)]
    ensures Corrector(trig, o)(w, i) == CorrectVertex(trig, prev, w[i], next, o)
  {
  }

  /** In a full sweep, vertex i is corrected against the copy as the
      iterations before it left it: its predecessor already swept (the
      original last vertex, for vertex 0), itself and its successor not yet
      swept (the swept vertex 0, for the last vertex). */
  lemma SweepVertex(corr: (seq<Point>, nat) -> Point, vs: seq<Point>, i: nat)
    requires 2 <= |vs| && i < |vs|
    ensures var r, n, s := Sweep(corr, vs, |vs|), |vs|, Sweep(corr, vs, i);
      r[i] == corr(s, i) && s[i] == vs[i] &&
      s[PrevIndex(i, n)] == (if i == 0 then vs[n - 1] else r[i - 1]) &&
      s[NextIndex(i, n)] == (if i == n - 1 then r[0] else vs[i + 1])
  {
    var n := |vs|;
    SweepAhead(corr, vs, i);
    SweepStable(corr, vs, i + 1, n);
    SweepStable(corr, vs, i, n);
    assert Sweep(corr, vs, n)[i] == Sweep(corr, vs, i + 1)[i];
  }

  /** The final value of each vertex: corrected against its already
      corrected predecessor (the original last vertex, for vertex 0) and its
      original successor (the corrected vertex 0, for the last vertex). */
  lemma AngleSweepVertex(trig: Trig, vs: seq<Point>, o: Options, i: nat)
    requires o.gridSize != 0.0 && 2 <= |vs| && i < |vs|
    ensures var r, n := AngleSweep(trig, vs, |vs|, o), |vs|;
      r[i] == CorrectVertex(trig, if i == 0 then vs[n - 1] else r[i - 1], vs[i],
                            if i == n - 1 then r[0] else vs[i + 1], o)
  {
    var corr := Corrector(trig, o);
    var n := |vs|;
    var r, s := Sweep(corr, vs, n), Sweep(corr, vs, i);
    SweepVertex(corr, vs, i);
    CorrectorAt(trig, o, s, i, if i == 0 then vs[n - 1] else r[i - 1],
                if i == n - 1 then r[0] else vs[i + 1]);
  }

  /** A vertex the sweep moves is one whose corner, as the sweep saw it,
      deviated by more than the tolerance. */
  lemma AngleSweepMovesOnlyDeviating(trig: Trig, vs: seq<Point>, o: Options, i: nat)
    requires o.gridSize != 0.0 && 2 <= |vs| && i < |vs|
    requires AngleSweep(trig, vs, |vs|, o)[i] != vs[i]
    ensures var r, n := AngleSweep(trig, vs, |vs|, o), |vs|;
      Deviation(trig, if i == 0 then vs[n - 1] else r[i - 1], vs[i],
                if i == n - 1 then r[0] else vs[i + 1]) > o.angleTolerance
  {
    AngleSweepVertex(trig, vs, o, i);
  }

  /** When no corner of the input deviates by more than the tolerance, the
      sweep changes nothing. */
  lemma AngleSweepIdentity(trig: Trig, vs: seq<Point>, o: Options)
    requires o.gridSize != 0.0
    requires forall i :: 0 <= i < |vs| ==>
      Deviation(trig, vs[PrevIndex(i, |vs|)], vs[i], vs[NextIndex(i, |vs|)]) <= o.angleTolerance
    ensures AngleSweep(trig, vs, |vs|, o) == vs
  {
    SweepFixed(Corrector(trig, o), vs, |vs|);
  }

  /** A tolerance of a full turn or more switches the sweep off. */
  lemma FullTurnToleranceIsIdentity(trig: Trig, vs: seq<Point>, o: Options)
    requires SoundTrig(trig) && o.gridSize != 0.0 && o.angleTolerance >= 360.0
    ensures AngleSweep(trig, vs, |vs|, o) == vs
  {
    forall i | 0 <= i < |vs|
      ensures Deviation(trig, vs[PrevIndex(i, |vs|)], vs[i], vs[NextIndex(i, |vs|)]) <= o.angleTolerance
    {
      DeviationAtMostFullTurn(trig, vs[PrevIndex(i, |vs|)], vs[i], vs[NextIndex(i, |vs|)]);
    }
    AngleSweepIdentity(trig, vs, o);
  }

  // ---------------------------------------------------------------------------
  // Forcing edges

  /** An edge is straight when it is horizontal or vertical to within `tol`. */
  predicate Straight(a: Point, b: Point, tol: real)
  {
    Abs(b.x - a.x) <= tol || Abs(b.y - a.y) <= tol
  }

  /** Every edge of the open chain `r` is straight (the closing edge from
      the last vertex to the first is not among them). */
  predicate AllStraight(r: seq<Point>, tol: real)
  {
    forall i :: 0 <= i < |r| - 1 ==> Straight(r[i], r[i + 1], tol)
  }

  /** One iteration of `ensureOrthogonalEdges`: a diagonal edge from `curr`
      gets its end moved so that the edge follows its longer axis; an edge
      with equal extents becomes vertical. */
  function ForceNext(curr: Point, next: Point, tol: real): (r: Point)
    ensures Straight(curr, r, Abs(tol))
    ensures tol >= 0.0 ==> (r == next <==> Straight(curr, next, tol))
    ensures r == next || (r.x == next.x && r.y == curr.y) || (r.x == curr.x && r.y == next.y)
    ensures r != next && Abs(next.x - curr.x) > Abs(next.y - curr.y) ==> r.y == curr.y
    ensures r != next && Abs(next.x - curr.x) <= Abs(next.y - curr.y) ==> r.x == curr.x
  {
    var dx := Abs(next.x - curr.x);
    var dy := Abs(next.y - curr.y);
    if dx > tol && dy > tol then
      if dx > dy then Point(next.x, curr.y) else Point(curr.x, next.y)
    else next
  }

  /** The working copy after the forward pass over the prefix `vs`: each
      vertex after the first is forced against its already forced
      predecessor. */
  function ForcedEdges(vs: seq<Point>, tol: real): (r: seq<Point>)
    ensures |r| == |vs|
    ensures |vs| > 0 ==> r[0] == vs[0]
  {
    if |vs| <= 1 then vs
    else
      var init := ForcedEdges(vs[..|vs| - 1], tol);
      init + [ForceNext(init[|init| - 1], vs[|vs| - 1], tol)]
  }

  /** After the pass every vertex keeps one of its own coordinates, and
      every edge (i, i + 1) is straight. */
  lemma {:induction false} ForcedEdgesShape(vs: seq<Point>, tol: real)
    ensures var r := ForcedEdges(vs, tol);
      forall i :: 0 <= i < |vs| ==> r[i].x == vs[i].x || r[i].y == vs[i].y
    ensures AllStraight(ForcedEdges(vs, tol), Abs(tol))
    decreases |vs|
  {
    if |vs| > 1 {
      var front := vs[..|vs| - 1];
      ForcedEdgesShape(front, tol);
      var init := ForcedEdges(front, tol);
      var r := ForcedEdges(vs, tol);
      assert r == init + [ForceNext(init[|init| - 1], vs[|vs| - 1], tol)];
      forall i | 0 <= i < |vs|
        ensures r[i].x == vs[i].x || r[i].y == vs[i].y
      {
        if i < |vs| - 1 {
          assert r[i] == init[i] && front[i] == vs[i];
        }
      }
      forall i | 0 <= i < |r| - 1
        ensures Straight(r[i], r[i + 1], Abs(tol))
      {
        if i < |r| - 2 {
          assert r[i] == init[i] && r[i + 1] == init[i + 1];
        }
      }
    }
  }

  /** The pass does not look at the closing edge from the last vertex back to
      the first: a triangle keeps a diagonal there. */
  lemma ClosingEdgeMayStayDiagonal()
    ensures var r := ForcedEdges([Point(0.0, 0.0), Point(10.0, 0.0), Point(5.0, 5.0)], 0.1);
      r == [Point(0.0, 0.0), Point(10.0, 0.0), Point(10.0, 5.0)] && !Straight(r[2], r[0], 0.1)
  {
    var vs := [Point(0.0, 0.0), Point(10.0, 0.0), Point(5.0, 5.0)];
    assert vs[..2][..1] == [Point(0.0, 0.0)];
    assert ForcedEdges(vs[..2], 0.1) == [Point(0.0, 0.0), Point(10.0, 0.0)];
  }

  /** Extending the prefix by one vertex forces that vertex against the last
      forced one. */
  lemma ForcedEdgesExtend(vs: seq<Point>, i: nat, tol: real)
    requires i + 1 < |vs|
    ensures ForcedEdges(vs[..i + 2], tol) ==
      ForcedEdges(vs[..i + 1], tol) + [ForceNext(ForcedEdges(vs[..i + 1], tol)[i], vs[i + 1], tol)]
  {
    assert vs[..i + 2][..i + 1] == vs[..i + 1];
  }

  /** One iteration of the edge loop on the working copy `w`, forced up to
      position i, extends the forced prefix by one position. */
  lemma ForcedPrefixStep(vs: seq<Point>, i: nat, tol: real, w: seq<Point>)
    requires i + 1 < |vs| && w == ForcedEdges(vs[..i + 1], tol) + vs[i + 1..]
    ensures w[i + 1 := ForceNext(w[i], w[i + 1], tol)] == ForcedEdges(vs[..i + 2], tol) + vs[i + 2..]
  {
    ForcedEdgesExtend(vs, i, tol);
    var f := ForcedEdges(vs[..i + 1], tol);
    assert w[i] == f[i] && w[i + 1] == vs[i + 1];
    assert w[i + 1 := ForceNext(w[i], w[i + 1], tol)] ==
      f + [ForceNext(f[i], vs[i + 1], tol)] + vs[i + 2..];
  }

  /** The body of the edge loop: the end of edge `i` is forced in place. */
  method ForceInPlace(a: array<Point>, i: nat, tol: real)
    requires i + 1 < a.Length
    modifies a
    ensures a[..] == old(a[..])[i + 1 := ForceNext(old(a[i]), old(a[i + 1]), tol)]
  {
    var curr := a[i];
    var next := a[i + 1];
    var dx := Abs(next.x - curr.x);
    var dy := Abs(next.y - curr.y);
    if dx > tol && dy > tol {
      if dx > dy {
        a[i + 1] := Point(next.x, curr.y);
      } else {
        a[i + 1] := Point(curr.x, next.y);
      }
    }
  }

  /** The edge loop of `ensureOrthogonalEdges`, in place: the end of each
      edge is forced against its already forced start. */
  method ForceEdgesInPlace(a: array<Point>, tol: real)
    modifies a
    ensures a[..] == ForcedEdges(old(a[..]), tol)
  {
    ghost var vs := a[..];
    var i := 0;
    while i < a.Length - 1
      invariant 0 <= i && (a.Length > 0 ==> i <= a.Length - 1)
      invariant a.Length > 0 ==> a[..] == ForcedEdges(vs[..i + 1], tol) + vs[i + 1..]
      invariant a.Length == 0 ==> a[..] == vs
    {
      ForcedPrefixStep(vs, i, tol, a[..]);
      ForceInPlace(a, i, tol);
      i := i + 1;
    }
    if a.Length > 0 {
      assert vs[..i + 1] == vs;
    }
  }

  /** `ensureOrthogonalEdges`: the edge loop runs on a copy of the vertices,
      with a tolerance of a tenth of the grid size. */
  method EnsureOrthogonalEdges(vertices: seq<Point>, gridSize: real) returns (result: seq<Point>)
    ensures result == ForcedEdges(vertices, gridSize * 0.1)
  {
    var a := new Point[|vertices|](j requires 0 <= j < |vertices| => vertices[j]);
    assert a[..] == vertices;
    ForceEdgesInPlace(a, gridSize * 0.1);
    result := a[..];
  }

  // ---------------------------------------------------------------------------
  // Orthogonalising a ring

  /** What `orthogonalizeVertices` returns: fewer than three vertices come
      back as they are; otherwise one correction sweep, then the edge-forcing
      pass when `forceOrthogonal` is set. */
  function OrthogonalizedVertices(trig: Trig, vs: seq<Point>, o: Options): (r: seq<Point>)
    requires o.gridSize != 0.0
    ensures |r| == |vs|
    ensures |vs| < 3 ==> r == vs
  {
    if |vs| < 3 then vs
    else
      var swept := AngleSweep(trig, vs, |vs|, o);
      if o.forceOrthogonal then ForcedEdges(swept, o.gridSize * 0.1) else swept
  }

  /** With `forceOrthogonal`, every edge of the result but the closing one
      is straight to within a tenth of the grid size. */
  lemma OrthogonalizedStraight(trig: Trig, vs: seq<Point>, o: Options)
    requires o.gridSize != 0.0 && |vs| >= 3 && o.forceOrthogonal
    ensures AllStraight(OrthogonalizedVertices(trig, vs, o), Abs(o.gridSize * 0.1))
  {
    ForcedEdgesShape(AngleSweep(trig, vs, |vs|, o), o.gridSize * 0.1);
  }

  /** The body of the correction loop: vertex `i` of the working copy is
      checked against its current neighbours and moved when it deviates. */
  method CorrectInPlace(trig: Trig, result: array<Point>, i: nat, o: Options)
    requires o.gridSize != 0.0 && i < result.Length
    modifies result
    ensures result[..] == SweepStep(trig, old(result[..]), i, o)
  {
    ghost var s := result[..];
    var n := result.Length;
    var prev := result[(i - 1 + n) % n];
    var curr := result[i];
    var next := result[(i + 1) % n];
    assert prev == s[PrevIndex(i, n)] && curr == s[i] && next == s[NextIndex(i, n)];
    var angle := CalculateAngle(trig, prev, curr, next);
    var targetAngle := SnapToRightAngle(angle);
    if Abs(angle - targetAngle) > o.angleTolerance {
      result[i] := AdjustVertexForAngle(trig, prev, curr, next, targetAngle, o.gridSize, o.preserveShape);
    }
    assert result[i] == CorrectVertex(trig, prev, curr, next, o);
  }

  /** The correction loop over the whole working copy. */
  method SweepInPlace(trig: Trig, result: array<Point>, o: Options)
    requires o.gridSize != 0.0
    modifies result
    ensures result[..] == AngleSweep(trig, old(result[..]), result.Length, o)
  {
    ghost var vertices := result[..];
    var n := result.Length;
    for i := 0 to n
      invariant result[..] == AngleSweep(trig, vertices, i, o)
    {
      CorrectInPlace(trig, result, i, o);
      AngleSweepStep(trig, vertices, i + 1, o);
    }
  }

  /** Past the length guard, the result is the swept copy, edge-forced when
      `forceOrthogonal` is set. */
  lemma OrthogonalizedFromSwept(trig: Trig, vs: seq<Point>, o: Options, swept: seq<Point>, r: seq<Point>)
    requires o.gridSize != 0.0 && |vs| >= 3 && swept == AngleSweep(trig, vs, |vs|, o)
    requires o.forceOrthogonal ==> r == ForcedEdges(swept, o.gridSize * 0.1)
    requires !o.forceOrthogonal ==> r == swept
    ensures r == OrthogonalizedVertices(trig, vs, o)
  {
  }

  /** `orthogonalizeVertices`: fewer than three vertices are returned as
      they are; otherwise the correction loop runs on a copy and, with
      `forceOrthogonal`, the edge pass follows. */
  method OrthogonalizeVertices(trig: Trig, vertices: seq<Point>, o: Options) returns (r: seq<Point>)
    requires o.gridSize != 0.0
    ensures r == OrthogonalizedVertices(trig, vertices, o)
  {
    if |vertices| < 3 {
      return vertices;
    }
    var swept := SweptCopy(trig, vertices, o);
    if o.forceOrthogonal {
      r := EnsureOrthogonalEdges(swept, o.gridSize);
      OrthogonalizedFromSwept(trig, vertices, o, swept, r);
    } else {
      r := swept;
      OrthogonalizedFromSwept(trig, vertices, o, swept, r);
    }
  }

  /** The correction loop of `orthogonalizeVertices`, run in place on an
      array copy of the vertices. */
  method SweptCopy(trig: Trig, vertices: seq<Point>, o: Options) returns (swept: seq<Point>)
    requires o.gridSize != 0.0
    ensures swept == AngleSweep(trig, vertices, |vertices|, o)
  {
    var result := new Point[|vertices|](j requires 0 <= j < |vertices| => vertices[j]);
    assert result[..] == vertices;
    SweepInPlace(trig, result, o);
    swept := result[..];
  }

  /** `orthogonalizePolygon`: the outer ring (absent rings make the source
      throw) is opened, snapped, orthogonalised and closed again; holes are
      dropped. A ring of fewer than four positions is returned unchanged,
      holes included. */
  function OrthogonalizePolygon(trig: Trig, rings: seq<Ring>, o: Options): (r: Option<seq<Ring>>)
    requires o.gridSize != 0.0
    ensures r.None? <==> rings == []
    ensures r.Some? && |rings[0]| < 4 ==> r.value == rings
    ensures r.Some? && |rings[0]| >= 4 ==>
      |r.value| == 1 && |r.value[0]| == |rings[0]| && Closed(r.value[0])
  {
    if rings == [] then None
    else
      var coordinates := rings[0];
      if |coordinates| < 4 then Some(rings)
      else
        var vertices := coordinates[..|coordinates| - 1];
        var snapped := SnapToGrid(vertices, o.gridSize);
        var orthogonalized := OrthogonalizedVertices(trig, snapped, o);
        Some([orthogonalized + [orthogonalized[0]]])
  }

  /** With `forceOrthogonal`, every edge of an orthogonalised ring is
      straight except possibly the one closing it. */
  lemma OrthogonalizePolygonStraightEdges(trig: Trig, rings: seq<Ring>, o: Options)
    requires o.gridSize != 0.0 && o.forceOrthogonal
    requires rings != [] && |rings[0]| >= 4
    ensures var ring := OrthogonalizePolygon(trig, rings, o).value[0];
      forall i :: 0 <= i < |ring| - 2 ==> Straight(ring[i], ring[i + 1], Abs(o.gridSize * 0.1))
  {
    var coordinates := rings[0];
    var snapped := SnapToGrid(coordinates[..|coordinates| - 1], o.gridSize);
    var orthogonalized := OrthogonalizedVertices(trig, snapped, o);
    OrthogonalizedStraight(trig, snapped, o);
    var ring := orthogonalized + [orthogonalized[0]];
    forall i | 0 <= i < |ring| - 2
      ensures Straight(ring[i], ring[i + 1], Abs(o.gridSize * 0.1))
    {
      assert ring[i] == orthogonalized[i] && ring[i + 1] == orthogonalized[i + 1];
    }
  }

  /** With the sweep and the edge pass both switched off, orthogonalising a
      ring only snaps its vertices to the grid. */
  lemma OrthogonalizePolygonSnapOnly(trig: Trig, rings: seq<Ring>, o: Options)
    requires SoundTrig(trig) && o.gridSize != 0.0 && !o.forceOrthogonal && o.angleTolerance >= 360.0
    requires rings != [] && |rings[0]| >= 4
    ensures var ring := OrthogonalizePolygon(trig, rings, o).value[0];
      var vs := SnapToGrid(rings[0][..|rings[0]| - 1], o.gridSize);
      ring == vs + [vs[0]]
  {
    FullTurnToleranceIsIdentity(trig, SnapToGrid(rings[0][..|rings[0]| - 1], o.gridSize), o);
  }

  // ---------------------------------------------------------------------------
  // Decimation

  /** `Math.ceil(n / m)`, characterised as the least step whose `m` strides
      cover `n` positions. */
  function StepSize(n: nat, m: int): (step: int)
    requires m >= 1
    ensures (step - 1) * m < n <= step * m
    ensures n > m ==> step >= 2
  {
    var q := (n + m - 1) / m;
    assert q * m <= n + m - 1 < q * m + m;
    assert (q - 1) * m == q * m - m;
    assert n > m && q < 2 ==> q * m <= m;
    q
  }

  // Proof helper (integer arithmetic) for ReducedRingLength; not part of
  // the model.
  lemma MulCancel(a: int, b: int, c: int)
    requires c >= 1 && a * c < b * c
    ensures a < b
  {
  }

  /** The positions at indices 0, step, 2*step, ... */
  function Strided<T>(s: seq<T>, step: int): (r: seq<T>)
    requires step >= 1
    ensures |s| > 0 ==> |r| > 0 && r[0] == s[0]
    decreases |s|
  {
    if |s| == 0 then []
    else if |s| <= step then [s[0]]
    else [s[0]] + Strided(s[step..], step)
  }

  /** Position `k` of the decimated list is position `k * step` of the input. */
  lemma {:induction false} StridedAt<T>(s: seq<T>, step: int, k: nat)
    requires step >= 1 && k < |Strided(s, step)|
    ensures k * step < |s| && Strided(s, step)[k] == s[k * step]
    decreases |s|
  {
    if k > 0 {
      assert |s| > step;
      var t := s[step..];
      assert Strided(s, step) == [s[0]] + Strided(t, step);
      StridedAt(t, step, k - 1);
      MulSucc(k - 1, step);
    }
  }

  // Proof helper (integer arithmetic) for StridedAt; not part of the model.
  lemma MulSucc(j: int, step: int)
    ensures (j + 1) * step == j * step + step
  {
  }

  /** Decimating from index i keeps position i and continues `step`
      positions further on, if any are left. */
  lemma StridedFrom<T>(s: seq<T>, i: nat, step: int)
    requires step >= 1 && i < |s|
    ensures i + step < |s| ==> Strided(s[i..], step) == [s[i]] + Strided(s[i + step..], step)
    ensures i + step >= |s| ==> Strided(s[i..], step) == [s[i]]
  {
    if i + step < |s| {
      assert s[i..][step..] == s[i + step..];
    }
  }

  /** Pushing position i onto a list that the decimation from i completes
      leaves a list that the decimation from i + step completes. */
  lemma StridedPush<T>(s: seq<T>, i: nat, step: int, done: seq<T>)
    requires step >= 1 && i < |s| && done + Strided(s[i..], step) == Strided(s, step)
    ensures i + step < |s| ==> (done + [s[i]]) + Strided(s[i + step..], step) == Strided(s, step)
    ensures i + step >= |s| ==> done + [s[i]] == Strided(s, step)
  {
    StridedFrom(s, i, step);
    if i + step < |s| {
      var rest := Strided(s[i + step..], step);
      assert (done + [s[i]]) + rest == done + ([s[i]] + rest);
    }
  }

  /** The decimated list has no more entries than strides that fit. */
  lemma {:induction false} StridedLength<T>(s: seq<T>, step: int)
    requires step >= 1
    ensures (|Strided(s, step)| - 1) * step < |s|
    decreases |s|
  {
    if |s| > step {
      StridedLength(s[step..], step);
      var l := |Strided(s[step..], step)|;
      assert (l + 1 - 1) * step == (l - 1) * step + step;
    }
  }

  /** The stride of `reduceVertices`, `Math.ceil(n / maxVertices)`. A cap
      of 0 makes it `Infinity`, so the loop stops after position 0; a stride
      of n does the same. */
  function Stride(n: nat, maxVertices: int): (step: int)
    requires 0 <= maxVertices < n
    ensures step >= 1
    ensures maxVertices == 0 ==> step >= n
    ensures maxVertices >= 1 ==> (step - 1) * maxVertices < n <= step * maxVertices
  {
    if maxVertices == 0 then n else StepSize(n, maxVertices)
  }

  /** Whether positions i and j of a ring of n positions are the same array,
      as `!==` sees them. Positions parsed from the request or built by the
      pipeline are arrays of their own; the one exception is the closing
      position `orthogonalizePolygon` pushes, which is its first array again
      (`sharedClose`). */
  predicate SameArray(i: int, j: int, n: int, sharedClose: bool)
  {
    i == j || (sharedClose && ((i == 0 && j == n - 1) || (i == n - 1 && j == 0)))
  }

  /** The positions the stride loop of `reduceVertices` keeps. */
  function KeptOf(coordinates: Ring, maxVertices: int): (kept: Ring)
    requires 0 <= maxVertices < |coordinates|
    ensures |kept| >= 1 && kept[0] == coordinates[0]
  {
    Strided(coordinates, Stride(|coordinates|, maxVertices))
  }

  /** The input index of the last kept position. */
  function LastKept(coordinates: Ring, maxVertices: int): (last: nat)
    requires 0 <= maxVertices < |coordinates|
    ensures last < |coordinates|
    ensures KeptOf(coordinates, maxVertices)[|KeptOf(coordinates, maxVertices)| - 1] == coordinates[last]
    ensures last == 0 <==> |KeptOf(coordinates, maxVertices)| == 1
  {
    var step := Stride(|coordinates|, maxVertices);
    var kept := Strided(coordinates, step);
    StridedAt(coordinates, step, |kept| - 1);
    MulPos1(|kept| - 1, step);
    (|kept| - 1) * step
  }

  // Proof helper (integer arithmetic) for LastKept; not part of the model.
  lemma MulPos1(k: int, step: int)
    requires k >= 0 && step >= 1
    ensures k * step >= k && (k * step == 0 <==> k == 0)
  {
  }

  /** `reduceVertices` on the outer ring: keep every `step`-th position, and
      push the first kept position again when the last kept one is a
      different array. */
  function ReducedRing(coordinates: Ring, maxVertices: int, sharedClose: bool): (r: Ring)
    requires maxVertices >= 0 && (sharedClose ==> Closed(coordinates))
    ensures |coordinates| <= maxVertices ==> r == coordinates
    ensures |coordinates| > maxVertices ==>
      r == KeptOf(coordinates, maxVertices) +
        (if SameArray(LastKept(coordinates, maxVertices), 0, |coordinates|, sharedClose) then []
         else [coordinates[0]])
    ensures |coordinates| > maxVertices ==> Closed(r) && r[0] == coordinates[0]
  {
    if |coordinates| <= maxVertices then coordinates
    else
      var reduced := KeptOf(coordinates, maxVertices);
      if !SameArray(LastKept(coordinates, maxVertices), 0, |coordinates|, sharedClose) then reduced + [reduced[0]]
      else reduced
  }

  /** A decimated ring has at most `maxVertices` kept positions plus the
      closing one. */
  lemma ReducedRingLength(coordinates: Ring, maxVertices: int, sharedClose: bool)
    requires maxVertices >= 0 && (sharedClose ==> Closed(coordinates)) && |coordinates| > maxVertices
    ensures |ReducedRing(coordinates, maxVertices, sharedClose)| <= maxVertices + 1
  {
    var n, m := |coordinates|, maxVertices;
    var step := Stride(n, m);
    var l := |KeptOf(coordinates, m)|;
    if m == 0 {
      assert KeptOf(coordinates, m) == [coordinates[0]];
    } else {
      StridedLength(coordinates, step);
      assert (l - 1) * step < n <= step * m;
      MulCancel(l - 1, m, step);
    }
  }

  /** Each kept position of a decimated ring is taken in order from the
      input, `step` positions apart. */
  lemma ReducedRingAt(coordinates: Ring, maxVertices: int, sharedClose: bool)
    requires maxVertices >= 0 && (sharedClose ==> Closed(coordinates)) && |coordinates| > maxVertices
    ensures var step := Stride(|coordinates|, maxVertices);
      forall k :: 0 <= k < |KeptOf(coordinates, maxVertices)| ==>
        k * step < |coordinates| &&
        ReducedRing(coordinates, maxVertices, sharedClose)[k] == coordinates[k * step]
  {
    var step := Stride(|coordinates|, maxVertices);
    var reduced := KeptOf(coordinates, maxVertices);
    var l := |reduced|;
    var r := ReducedRing(coordinates, maxVertices, sharedClose);
    forall k | 0 <= k < l
      ensures k * step < |coordinates| && r[k] == coordinates[k * step]
    {
      StridedAt(coordinates, step, k);
      assert r[k] == reduced[k];
    }
  }

  /** `reduceVertices`, on the outer ring: the stride loop, then the
      closing step. `reduced[reduced.length - 1]` is input position
      `(|reduced| - 1) * step`, so the `!==` test is asked of that index. */
  method ReduceVertices(coordinates: Ring, maxVertices: int, sharedClose: bool) returns (reduced: Ring)
    requires maxVertices >= 0 && (sharedClose ==> Closed(coordinates))
    ensures reduced == ReducedRing(coordinates, maxVertices, sharedClose)
  {
    if |coordinates| <= maxVertices {
      return coordinates;
    }
    var step := Stride(|coordinates|, maxVertices);
    reduced := TakeEvery(coordinates, step);
    var last := (|reduced| - 1) * step;
    assert last == LastKept(coordinates, maxVertices);
    if !SameArray(last, 0, |coordinates|, sharedClose) {
      reduced := reduced + [reduced[0]];
    }
  }

  /** The stride loop of `reduceVertices`: positions 0, step, 2*step, ...
      are pushed in order. */
  method TakeEvery(coordinates: Ring, step: int) returns (reduced: Ring)
    requires step >= 1
    ensures reduced == Strided(coordinates, step)
  {
    reduced := [];
    var i := 0;
    while i < |coordinates|
      invariant 0 <= i
      invariant i < |coordinates| ==>
        reduced + Strided(coordinates[i..], step) == Strided(coordinates, step)
      invariant i >= |coordinates| ==> reduced == Strided(coordinates, step)
      decreases |coordinates| - i
    {
      StridedPush(coordinates, i, step, reduced);
      reduced := reduced + [coordinates[i]];
      i := i + step;
    }
  }

  /** Step 4 of `processFeature`: an outer ring longer than `maxVertices` is
      decimated (holes are dropped with it). */
  function LimitVertices(rings: seq<Ring>, maxVertices: int, sharedClose: bool): (r: seq<Ring>)
    requires rings != [] && maxVertices >= 0 && (sharedClose ==> Closed(rings[0]))
    ensures r != []
    ensures |rings[0]| <= maxVertices ==> r == rings
    ensures |rings[0]| > maxVertices ==> |r| == 1 && |r[0]| <= maxVertices + 1 && Closed(r[0])
  {
    if |rings[0]| > maxVertices then
      ReducedRingLength(rings[0], maxVertices, sharedClose);
      [ReducedRing(rings[0], maxVertices, sharedClose)]
    else rings
  }

  // ---------------------------------------------------------------------------
  // One feature

  /** Stand-ins for the turf.js calls, on a polygon's rings. `simplify`
      returns None where turf throws; `bboxPolygon` is `bboxPolygon(bbox(.))`. */
  datatype Turf = Turf(
    simplify: (seq<Ring>, real) -> Option<seq<Ring>>,
    area: seq<Ring> -> real,
    length: seq<Ring> -> real,
    bboxPolygon: seq<Ring> -> seq<Ring>)

  /** `isComplexShape`: more than 15 outer positions, or a squared perimeter
      over 50 times a positive area. */
  function IsComplexShape(turf: Turf, rings: seq<Ring>): (complex: bool)
    requires rings != []
    ensures complex <==>
      |rings[0]| > 15 ||
      (turf.area(rings) > 0.0 && turf.length(rings) * turf.length(rings) > 50.0 * turf.area(rings))
  {
    if |rings[0]| > 15 then true
    else
      var area := turf.area(rings);
      var perimeter := turf.length(rings);
      assert area > 0.0 ==> (perimeter * perimeter / area > 50.0 <==> perimeter * perimeter > 50.0 * area) by {
        if area > 0.0 {
          var q := perimeter * perimeter / area;
          assert q * area == perimeter * perimeter;
          assert q > 50.0 <==> q * area > 50.0 * area by {
            if q > 50.0 { MulPos(q - 50.0, area); }
            if q <= 50.0 { MulNonneg(50.0 - q, area); }
          }
        }
      }
      area > 0.0 && perimeter * perimeter / area > 50.0
  }

  /** What processing one feature gives: the source throws (and the route
      returns the feature as it came), the feature is dropped (`null`), or a
      feature is kept. */
  datatype Outcome = Threw | Dropped | Kept(feature: Feature)

  /** The properties of a processed feature: those of the input (none when
      absent) with the three bookkeeping entries set. */
  function ProcessedProperties(props: Option<map<string, Json>>, originalArea: real, processedArea: real): (r: map<string, Json>)
    ensures "_processed" in r && r["_processed"] == JBool(true)
    ensures "_originalArea" in r && r["_originalArea"] == JNum(originalArea)
    ensures "_processedArea" in r && r["_processedArea"] == JNum(processedArea)
    ensures props.Some? ==> forall k :: k in props.value ==> k in r
    ensures props.Some? ==> forall k :: k in props.value && k != "_processed" && k != "_originalArea" && k != "_processedArea" ==>
      r[k] == props.value[k]
    ensures forall k :: k in r ==> k in {"_processed", "_originalArea", "_processedArea"} || (props.Some? && k in props.value)
  {
    var base := if props.Some? then props.value else map[];
    base["_processed" := JBool(true)]["_originalArea" := JNum(originalArea)]["_processedArea" := JNum(processedArea)]
  }

  /** Step 1 of `processFeature`: simplification runs only for a positive
      tolerance. */
  function Simplified(turf: Turf, rings: seq<Ring>, tolerance: real): (r: Option<seq<Ring>>)
    ensures tolerance <= 0.0 ==> r == Some(rings)
  {
    if tolerance > 0.0 then turf.simplify(rings, tolerance) else Some(rings)
  }

  predicate IsPolygon(f: Feature)
  {
    f.geometry.Some? && f.geometry.value.Polygon?
  }

  /** `processFeature`. The area filter reads the ORIGINAL feature's area,
      before simplification; `_processedArea` is the area of the final
      geometry. */
  function ProcessFeature(turf: Turf, trig: Trig, f: Feature, o: Options): (out: Outcome)
    requires ValidOptions(o)
    ensures !IsPolygon(f) ==> out == Kept(f)
    ensures IsPolygon(f) && out.Dropped? ==> turf.area(f.geometry.value.rings) < o.minArea
    ensures IsPolygon(f) && turf.area(f.geometry.value.rings) < o.minArea ==> out.Dropped? || out.Threw?
    ensures IsPolygon(f) && out.Kept? ==>
      IsPolygon(out.feature) &&
      out.feature.properties.Some? &&
      "_processed" in out.feature.properties.value &&
      out.feature.properties.value["_processed"] == JBool(true) &&
      "_originalArea" in out.feature.properties.value &&
      out.feature.properties.value["_originalArea"] == JNum(turf.area(f.geometry.value.rings))
    ensures out.Threw? <==>
      IsPolygon(f) &&
      var simplified := Simplified(turf, f.geometry.value.rings, o.tolerance);
      simplified.None? ||
      (turf.area(f.geometry.value.rings) >= o.minArea && simplified.value == [])
    ensures IsPolygon(f) && out.Kept? ==>
      var area := turf.area(f.geometry.value.rings);
      var simplified := Simplified(turf, f.geometry.value.rings, o.tolerance).value;
      var limited := LimitVertices(OrthogonalizePolygon(trig, simplified, o).value, o.maxVertices,
                                   |simplified[0]| >= 4);
      var final := if IsComplexShape(turf, limited) then turf.bboxPolygon(limited) else limited;
      out.feature.geometry == Some(Polygon(final)) &&
      out.feature.properties == Some(ProcessedProperties(f.properties, area, turf.area(final))) &&
      out.feature.properties.value["_processedArea"] == JNum(turf.area(final)) &&
      (!IsComplexShape(turf, limited) ==> |final[0]| <= o.maxVertices + 1)
  {
    if !IsPolygon(f) then Kept(f)
    else
      var rings := f.geometry.value.rings;
      var simplified := Simplified(turf, rings, o.tolerance);
      if simplified.None? then Threw
      else
        var area := turf.area(rings);
        if area < o.minArea then Dropped
        else
          match OrthogonalizePolygon(trig, simplified.value, o)
          case None => Threw
          case Some(orthogonal) =>
            var limited := LimitVertices(orthogonal, o.maxVertices, |simplified.value[0]| >= 4);
            var final := if IsComplexShape(turf, limited) then turf.bboxPolygon(limited) else limited;
            Kept(Feature(Some(Polygon(final)), Some(ProcessedProperties(f.properties, area, turf.area(final)))))
  }

  // ---------------------------------------------------------------------------
  // The batch

  /** The map callback of the route: a thrown error gives back the input
      feature, a dropped one `null`. A `null` input makes `processFeature`
      throw on `feature.geometry`, and what the catch returns is that `null`. */
  function ResultOf(turf: Turf, trig: Trig, f: Option<Feature>, o: Options): (r: Option<Feature>)
    requires ValidOptions(o)
    ensures f.None? ==> r.None?
    ensures f.Some? && !IsPolygon(f.value) ==> r == f
    ensures f.Some? && r.None? ==> ProcessFeature(turf, trig, f.value, o).Dropped?
    ensures f.Some? && ProcessFeature(turf, trig, f.value, o).Threw? ==> r == f
    ensures f.Some? && ProcessFeature(turf, trig, f.value, o).Dropped? ==> r.None?
    ensures f.Some? && ProcessFeature(turf, trig, f.value, o).Kept? ==>
      r == Some(ProcessFeature(turf, trig, f.value, o).feature)
  {
    match f
    case None => None
    case Some(feature) =>
      match ProcessFeature(turf, trig, feature, o)
      case Threw => Some(feature)
      case Dropped => None
      case Kept(g) => Some(g)
  }

  /** `.filter(feature => feature !== null)`. */
  function Present<T>(xs: seq<Option<T>>): (r: seq<T>)
    ensures |r| <= |xs|
  {
    if xs == [] then []
    else
      var init := Present(xs[..|xs| - 1]);
      if xs[|xs| - 1].Some? then init + [xs[|xs| - 1].value] else init
  }

  /** Filtering distributes over concatenation: what survives keeps its
      order. */
  lemma {:induction false} PresentAppend<T>(a: seq<Option<T>>, b: seq<Option<T>>)
    ensures Present(a + b) == Present(a) + Present(b)
    decreases |b|
  {
    if b != [] {
      var b' := b[..|b| - 1];
      assert (a + b)[..|a + b| - 1] == a + b';
      PresentAppend(a, b');
    } else {
      assert a + b == a;
    }
  }

  /** An entry survives the filter exactly when it is not null. */
  lemma {:induction false} PresentMembers<T>(xs: seq<Option<T>>)
    ensures forall y :: y in Present(xs) <==> Some(y) in xs
  {
    if xs != [] {
      var init := xs[..|xs| - 1];
      PresentMembers(init);
      assert xs == init + [xs[|xs| - 1]];
    }
  }

  /** With no null entries nothing is removed. */
  lemma {:induction false} PresentAll<T>(xs: seq<Option<T>>)
    requires forall i :: 0 <= i < |xs| ==> xs[i].Some?
    ensures |Present(xs)| == |xs|
    ensures forall i :: 0 <= i < |xs| ==> Present(xs)[i] == xs[i].value
  {
    if xs != [] {
      PresentAll(xs[..|xs| - 1]);
    }
  }

  function Results(turf: Turf, trig: Trig, fs: seq<Option<Feature>>, o: Options): (r: seq<Option<Feature>>)
    requires ValidOptions(o)
    ensures |r| == |fs|
    ensures forall i :: 0 <= i < |fs| ==> r[i] == ResultOf(turf, trig, fs[i], o)
  {
    seq(|fs|, i requires 0 <= i < |fs| => ResultOf(turf, trig, fs[i], o))
  }

  /** `features.map(...).filter(...)`. */
  function Batch(turf: Turf, trig: Trig, fs: seq<Option<Feature>>, o: Options): (r: seq<Feature>)
    requires ValidOptions(o)
  {
    Present(Results(turf, trig, fs, o))
  }

  /** Features are processed independently and come out in input order. */
  lemma BatchAppend(turf: Turf, trig: Trig, a: seq<Option<Feature>>, b: seq<Option<Feature>>, o: Options)
    requires ValidOptions(o)
    ensures Batch(turf, trig, a + b, o) == Batch(turf, trig, a, o) + Batch(turf, trig, b, o)
  {
    assert Results(turf, trig, a + b, o) == Results(turf, trig, a, o) + Results(turf, trig, b, o);
    PresentAppend(Results(turf, trig, a, o), Results(turf, trig, b, o));
  }

  /** A batch without polygons (and without nulls) comes back unchanged. */
  lemma BatchPassesNonPolygons(turf: Turf, trig: Trig, fs: seq<Option<Feature>>, o: Options)
    requires ValidOptions(o)
    requires forall i :: 0 <= i < |fs| ==> fs[i].Some? && !IsPolygon(fs[i].value)
    ensures |Batch(turf, trig, fs, o)| == |fs|
    ensures forall i :: 0 <= i < |fs| ==> Batch(turf, trig, fs, o)[i] == fs[i].value
  {
    PresentAll(Results(turf, trig, fs, o));
  }

  /** Every feature in the output is the result of some non-null input, and
      every input that was not dropped is in the output. */
  lemma BatchMembers(turf: Turf, trig: Trig, fs: seq<Option<Feature>>, o: Options)
    requires ValidOptions(o)
    ensures forall g :: g in Batch(turf, trig, fs, o) <==>
      exists i :: 0 <= i < |fs| && ResultOf(turf, trig, fs[i], o) == Some(g)
  {
    var rs := Results(turf, trig, fs, o);
    PresentMembers(rs);
    forall g | Some(g) in rs
      ensures exists i :: 0 <= i < |fs| && ResultOf(turf, trig, fs[i], o) == Some(g)
    {
      var i :| 0 <= i < |rs| && rs[i] == Some(g);
      assert ResultOf(turf, trig, fs[i], o) == Some(g);
    }
  }

  /** Each surviving result sits in the output right after those of the
      features before it. */
  lemma BatchAt(turf: Turf, trig: Trig, fs: seq<Option<Feature>>, o: Options, i: nat)
    requires ValidOptions(o) && i < |fs| && ResultOf(turf, trig, fs[i], o).Some?
    ensures var before := Batch(turf, trig, fs[..i], o);
      |before| < |Batch(turf, trig, fs, o)| &&
      Batch(turf, trig, fs, o)[|before|] == ResultOf(turf, trig, fs[i], o).value
  {
    assert fs == fs[..i] + [fs[i]] + fs[i + 1..];
    BatchAppend(turf, trig, fs[..i] + [fs[i]], fs[i + 1..], o);
    BatchAppend(turf, trig, fs[..i], [fs[i]], o);
    assert Results(turf, trig, [fs[i]], o) == [ResultOf(turf, trig, fs[i], o)];
    assert Present(Results(turf, trig, [fs[i]], o)) == [ResultOf(turf, trig, fs[i], o).value];
  }

  /** A feature whose processing throws comes back as it was sent, in its
      place among the features that survive. */
  lemma BatchKeepsThrown(turf: Turf, trig: Trig, fs: seq<Option<Feature>>, o: Options, i: nat)
    requires ValidOptions(o) && i < |fs| && fs[i].Some?
    requires ProcessFeature(turf, trig, fs[i].value, o).Threw?
    ensures Results(turf, trig, fs, o)[i] == fs[i]
    ensures var before := Batch(turf, trig, fs[..i], o);
      |before| < |Batch(turf, trig, fs, o)| && Batch(turf, trig, fs, o)[|before|] == fs[i].value
  {
    BatchAt(turf, trig, fs, o, i);
  }

  /** The route's answer: 400 when `features` is missing or not an array,
      500 when the outer `try` catches. */
  datatype Response =
    | BadRequest
    | ServerError
    | Collection(features: seq<Feature>, originalCount: nat, processedCount: nat)

  /** `POST /orthogonalize`. `options` is None for an explicit `options:
      null`, whose destructuring throws; a missing `options` is the empty
      object, every field None. The echoed `options` object of the metadata
      is not modelled. */
  function OrthogonalizeRoute(turf: Turf, trig: Trig, features: Option<seq<Option<Feature>>>,
                              options: Option<RequestOptions>): (resp: Response)
    requires options.Some? ==> ValidOptions(WithDefaults(options.value))
    ensures resp.BadRequest? <==> features.None?
    ensures resp.ServerError? <==> features.Some? && options.None?
    ensures resp.Collection? ==>
      resp.originalCount == |features.value| &&
      resp.processedCount == |resp.features| <= resp.originalCount &&
      resp.features == Batch(turf, trig, features.value, WithDefaults(options.value))
  {
    if features.None? then BadRequest
    else if options.None? then ServerError
    else
      var processed := Batch(turf, trig, features.value, WithDefaults(options.value));
      Collection(processed, |features.value|, |processed|)
  }
}
