// The `Bezier` class of project/bezier.h: an append-only list of control points that is read
// either as one Bezier curve of degree count - 1 or as a chain of cubic pieces joined at knots.
module Curve {
  import opened Vectors
  import opened BernsteinBasis

  /** `spline_degree`: every completed piece is cubic. */
  const Degree: int := 3

  // ---------------------------------------------------------------------------------------------
  // The blend computed by `calculateBezier`

  /** The weights `bernstein(t, degree, 0) .. bernstein(t, degree, degree)` of one piece. */
  function Weights(t: real, degree: nat): (ws: seq<real>)
    ensures |ws| == degree + 1
    ensures forall i :: 0 <= i <= degree ==> ws[i] == Bernstein(t, degree, i)
  {
    seq(degree + 1, i requires 0 <= i <= degree => Bernstein(t, degree, i))
  }

  /** The first m terms `cp[start + i] * ws[i]` of the loop in `calculateBezier`. */
  function Blend(cp: seq<Vec3>, start: nat, ws: seq<real>, m: nat): Vec3
    requires start + |ws| <= |cp| && m <= |ws|
  {
    if m == 0 then Origin3 else Add(Blend(cp, start, ws, m - 1), Scale(cp[start + m - 1], ws[m - 1]))
  }

  /** The sum of the first m weights. */
  function Total(ws: seq<real>, m: nat): real
    requires m <= |ws|
  {
    if m == 0 then 0.0 else Total(ws, m - 1) + ws[m - 1]
  }

  /** The Bezier curve of `cp[start..end]` at local parameter t; the loop is empty when end < start. */
  function Segment(cp: seq<Vec3>, t: real, start: int, end: int): Vec3
    requires 0 <= start && end < |cp|
  {
    if end < start then Origin3 else Blend(cp, start, Weights(t, end - start), end - start + 1)
  }

  // ---------------------------------------------------------------------------------------------
  // Blends with weights of a known shape

  /** With all weight on the first point, the blend of m >= 1 terms is that point. */
  lemma {:induction false} BlendFirstOnly(cp: seq<Vec3>, start: nat, ws: seq<real>, m: nat)
    requires start + |ws| <= |cp| && 1 <= m <= |ws|
    requires ws[0] == 1.0 && forall i :: 1 <= i < |ws| ==> ws[i] == 0.0
    ensures Blend(cp, start, ws, m) == cp[start]
  {
    if m > 1 {
      BlendFirstOnly(cp, start, ws, m - 1);
    }
  }

  /** With no weight on the first m points, the blend of m terms is the origin. */
  lemma {:induction false} BlendOfZeroWeights(cp: seq<Vec3>, start: nat, ws: seq<real>, m: nat)
    requires start + |ws| <= |cp| && m <= |ws|
    requires forall i :: 0 <= i < m ==> ws[i] == 0.0
    ensures Blend(cp, start, ws, m) == Origin3
  {
    if m > 0 {
      BlendOfZeroWeights(cp, start, ws, m - 1);
    }
  }

  /** Blending copies of one point scales it by the total weight. */
  lemma {:induction false} BlendOfEqualPoints(cp: seq<Vec3>, start: nat, ws: seq<real>, m: nat, p: Vec3)
    requires start + |ws| <= |cp| && m <= |ws|
    requires forall i :: start <= i < start + |ws| ==> cp[i] == p
    ensures Blend(cp, start, ws, m) == Scale(p, Total(ws, m))
  {
    if m > 0 {
      BlendOfEqualPoints(cp, start, ws, m - 1, p);
      ScaleSum(p, Total(ws, m - 1), ws[m - 1]);
    }
  }

  lemma ScaleSum(p: Vec3, a: real, b: real)
    ensures Add(Scale(p, a), Scale(p, b)) == Scale(p, a + b)
  {
    assert p.x * a + p.x * b == p.x * (a + b);
    assert p.y * a + p.y * b == p.y * (a + b);
    assert p.z * a + p.z * b == p.z * (a + b);
  }

  /** A vector coordinate, so that one bound lemma covers x, y and z. */
  datatype Axis = X | Y | Z

  function Coord(v: Vec3, a: Axis): real {
    match a
    case X => v.x
    case Y => v.y
    case Z => v.z
  }

  /** With weights that are not negative, a coordinate of the blend lies between the weighted bounds. */
  lemma {:induction false} BlendBounds(cp: seq<Vec3>, start: nat, ws: seq<real>, m: nat, a: Axis, lo: real, hi: real)
    requires start + |ws| <= |cp| && m <= |ws|
    requires forall i :: 0 <= i < |ws| ==> 0.0 <= ws[i]
    requires forall i :: start <= i < start + |ws| ==> lo <= Coord(cp[i], a) <= hi
    ensures WithinWeighted(Coord(Blend(cp, start, ws, m), a), lo, hi, Total(ws, m))
  {
    if m > 0 {
      BlendBounds(cp, start, ws, m - 1, a, lo, hi);
      BlendBoundsStep(Blend(cp, start, ws, m - 1), cp[start + m - 1], ws[m - 1], a, lo, hi, Total(ws, m - 1));
    }
  }

  /** One more term `p * w` keeps a coordinate of the blend between the weighted bounds. */
  lemma BlendBoundsStep(prev: Vec3, p: Vec3, w: real, a: Axis, lo: real, hi: real, total: real)
    requires WithinWeighted(Coord(prev, a), lo, hi, total) && lo <= Coord(p, a) <= hi && 0.0 <= w
    ensures WithinWeighted(Coord(Add(prev, Scale(p, w)), a), lo, hi, total + w)
  {
    CoordAddScaled(prev, p, w, a);
    BoundsStep(lo, hi, Coord(prev, a), total, Coord(p, a), w, Coord(Add(prev, Scale(p, w)), a), total + w);
  }

  lemma CoordAddScaled(u: Vec3, v: Vec3, w: real, a: Axis)
    ensures Coord(Add(u, Scale(v, w)), a) == Coord(u, a) + Coord(v, a) * w
  {
  }

  /** One more weighted term keeps a weighted sum between its weighted bounds. */
  /** `lo * total <= s <= hi * total`. */
  predicate WithinWeighted(s: real, lo: real, hi: real, total: real) {
    lo * total <= s <= hi * total
  }

  lemma BoundsStep(lo: real, hi: real, s: real, total: real, c: real, w: real, s': real, total': real)
    requires WithinWeighted(s, lo, hi, total) && lo <= c <= hi && 0.0 <= w
    requires s' == s + c * w && total' == total + w
    ensures WithinWeighted(s', lo, hi, total')
  {
    WeightedBounds(c, lo, hi, w);
    Distribute(lo, total, w);
    Distribute(hi, total, w);
  }

  lemma WeightedBounds(c: real, lo: real, hi: real, w: real)
    requires lo <= c <= hi && 0.0 <= w
    ensures lo * w <= c * w <= hi * w
  {
    assert (c - lo) * w >= 0.0;
    assert (hi - c) * w >= 0.0;
  }

  lemma Distribute(k: real, a: real, b: real)
    ensures k * (a + b) == k * a + k * b
  {
  }

  // ---------------------------------------------------------------------------------------------
  // The Bernstein weights of one piece

  /** At t = 0 all weight is on the first point, at t = 1 all of it on the last. */
  lemma WeightsAtEnds(degree: nat)
    ensures var ws := Weights(0.0, degree); ws[0] == 1.0 && forall i :: 1 <= i < |ws| ==> ws[i] == 0.0
    ensures var ws := Weights(1.0, degree); ws[degree] == 1.0 && forall i :: 0 <= i < degree ==> ws[i] == 0.0
  {
    forall i | 0 <= i <= degree
      ensures Bernstein(0.0, degree, i) == (if i == 0 then 1.0 else 0.0)
      ensures Bernstein(1.0, degree, i) == (if i == degree then 1.0 else 0.0)
    {
      BernsteinEndpoints(degree, i);
    }
  }

  /** The weights of a piece add up to 1, and inside the unit interval none is negative. */
  lemma WeightsPartitionUnity(t: real, degree: nat)
    ensures Total(Weights(t, degree), degree + 1) == 1.0
    ensures 0.0 <= t <= 1.0 ==> forall i :: 0 <= i <= degree ==> 0.0 <= Weights(t, degree)[i]
  {
    TotalIsWeightSum(t, degree, degree + 1);
    PartitionOfUnity(t, degree);
    if 0.0 <= t <= 1.0 {
      forall i | 0 <= i <= degree
        ensures 0.0 <= Weights(t, degree)[i]
      {
        BernsteinNonNegative(t, degree, i);
      }
    }
  }

  lemma {:induction false} TotalIsWeightSum(t: real, degree: nat, m: nat)
    requires m <= degree + 1
    ensures Total(Weights(t, degree), m) == WeightSum(t, degree, m)
  {
    if m > 0 {
      TotalIsWeightSum(t, degree, m - 1);
    }
  }

  // ---------------------------------------------------------------------------------------------
  // Facts about one piece

  /** At local parameter 0 a piece is at its first control point. */
  lemma SegmentAtZero(cp: seq<Vec3>, start: nat, end: nat)
    requires start <= end < |cp|
    ensures Segment(cp, 0.0, start, end) == cp[start]
  {
    WeightsAtEnds(end - start);
    BlendFirstOnly(cp, start, Weights(0.0, end - start), end - start + 1);
  }

  /** At local parameter 1 a piece is at its last control point. */
  lemma SegmentAtOne(cp: seq<Vec3>, start: nat, end: nat)
    requires start <= end < |cp|
    ensures Segment(cp, 1.0, start, end) == cp[end]
  {
    var d := end - start;
    var ws := Weights(1.0, d);
    WeightsAtEnds(d);
    BlendOfZeroWeights(cp, start, ws, d);
    assert Blend(cp, start, ws, d + 1) == Add(Origin3, Scale(cp[end], 1.0));
  }

  /** A piece whose control points all coincide is that point for every parameter. */
  lemma SegmentOfEqualPoints(cp: seq<Vec3>, t: real, start: nat, end: nat, p: Vec3)
    requires start <= end < |cp|
    requires forall i :: start <= i <= end ==> cp[i] == p
    ensures Segment(cp, t, start, end) == p
  {
    var d := end - start;
    BlendOfEqualPoints(cp, start, Weights(t, d), d + 1, p);
    WeightsPartitionUnity(t, d);
  }

  /**
   * Convex hull, one coordinate at a time: for a local parameter in [0, 1], a coordinate of the
   * curve lies between the smallest and the largest value of that coordinate among the control points.
   */
  lemma SegmentWithinBounds(cp: seq<Vec3>, t: real, start: nat, end: nat, a: Axis, lo: real, hi: real)
    requires start <= end < |cp| && 0.0 <= t <= 1.0
    requires forall i :: start <= i <= end ==> lo <= Coord(cp[i], a) <= hi
    ensures lo <= Coord(Segment(cp, t, start, end), a) <= hi
  {
    var d := end - start;
    WeightsPartitionUnity(t, d);
    BlendBounds(cp, start, Weights(t, d), d + 1, a, lo, hi);
  }

  // ---------------------------------------------------------------------------------------------
  // Appending control points

  /** `splines` after `count` appends: an append with old count c > 3, c % 3 == 0 closes a piece. */
  function SplinesAfter(count: nat): nat {
    if count == 0 then 0
    else SplinesAfter(count - 1) + (if count - 1 > Degree && (count - 1) % Degree == 0 then 1 else 0)
  }

  /** The counter in closed form: no piece for up to 6 points, then one per further multiple of 3. */
  lemma {:induction false} SplinesClosedForm(count: nat)
    ensures SplinesAfter(count) == if count <= 6 then 0 else (count - 1) / 3 - 1
  {
    if count > 0 {
      SplinesClosedForm(count - 1);
    }
  }

  /** An append at old count c closes a piece: `c > 3 && c % 3 == 0`. */
  predicate ClosesPiece(c: int) {
    c > Degree && c % Degree == 0
  }

  /**
   * The control points after `addControlPoint(p)`: p goes last, and an append that closes a piece
   * first moves the knot `cp[c - 3]` to the midpoint of its neighbours. Nothing else changes.
   */
  function Appended(cp: seq<Vec3>, p: Vec3): (r: seq<Vec3>)
    ensures |r| == |cp| + 1 && r[|cp|] == p
    ensures ClosesPiece(|cp|) ==> |cp| >= 6 && r[|cp| - 3] == Midpoint(cp[|cp| - 4], cp[|cp| - 2])
    ensures forall i :: 0 <= i < |cp| && !(ClosesPiece(|cp|) && i == |cp| - 3) ==> r[i] == cp[i]
  {
    var c := |cp|;
    if ClosesPiece(c) then cp[c - 3 := Midpoint(cp[c - 4], cp[c - 2])] + [p] else cp + [p]
  }

  /** Knot k of a chain: the point `cp[3k]` in the middle of its two neighbours. */
  predicate KnotHolds(cp: seq<Vec3>, k: int) {
    1 <= k && 3 * k + 1 < |cp| && cp[3 * k] == Midpoint(cp[3 * k - 1], cp[3 * k + 1])
  }

  predicate KnotsHold(cp: seq<Vec3>, splines: int) {
    forall k :: 1 <= k <= splines ==> KnotHolds(cp, k)
  }

  // ---------------------------------------------------------------------------------------------
  // Choosing the piece for a curve parameter

  datatype Window = Window(start: int, end: int)

  /** The window `getBezier` picks as written: `start = 3 * floor(t / 3)`, widened to the last point past the last knot. */
  function WrittenWindow(count: int, splines: int, t: real): Window {
    var start := Degree * (t / (Degree as real)).Floor;
    Window(start, if start + Degree > splines * Degree then count - 1 else start + Degree)
  }

  /** The window the widening is meant to give: past the last knot, the one piece from that knot to the last point. */
  function KnotWindow(count: int, splines: int, t: real): Window {
    var k := (t / (Degree as real)).Floor;
    if k < splines then Window(Degree * k, Degree * k + Degree) else Window(Degree * splines, count - 1)
  }

  /**
   * `(t - start) / (end - start)`. A window of width 0 is a piece of degree 0, whose single weight
   * `binomial(0, 0) * pow(_, 0) * pow(_, 0)` is 1 whatever the parameter, so 0 stands for the 0 / 0.
   */
  function LocalParam(t: real, w: Window): real {
    if w.end == w.start then 0.0 else (t - w.start as real) / ((w.end - w.start) as real)
  }

  /** What the callers guarantee: in piece mode, a parameter between 0 and count - 1. */
  predicate Evaluable(cp: seq<Vec3>, splines: nat, t: real) {
    splines >= 1 ==> 3 * splines < |cp| && 0.0 <= t <= (|cp| - 1) as real
  }

  lemma WrittenWindowInBounds(cp: seq<Vec3>, splines: nat, t: real)
    requires splines >= 1 && Evaluable(cp, splines, t)
    ensures var w := WrittenWindow(|cp|, splines, t); 0 <= w.start <= w.end < |cp| && w.start as real <= t
  {
  }

  lemma KnotWindowInBounds(cp: seq<Vec3>, splines: nat, t: real)
    requires splines >= 1 && Evaluable(cp, splines, t)
    ensures var w := KnotWindow(|cp|, splines, t);
      0 <= w.start <= w.end < |cp| && w.start as real <= t && (w.end == w.start ==> t == w.start as real)
  {
  }

  /** The local parameter of a window holding t lies in the unit interval. */
  lemma LocalParamInUnit(t: real, w: Window)
    requires w.start as real <= t <= w.end as real
    ensures 0.0 <= LocalParam(t, w) <= 1.0
  {
  }

  /** Short mode: the whole point set is one curve, evaluated at `t / count`; no points give the origin. */
  function ShortCurve(cp: seq<Vec3>, t: real): Vec3 {
    if |cp| == 0 then Origin3 else Segment(cp, t / (|cp| as real), 0, |cp| - 1)
  }

  /** `getBezier(t)` as written. */
  function EvalAsWritten(cp: seq<Vec3>, splines: nat, t: real): Vec3
    requires Evaluable(cp, splines, t)
  {
    if splines < 1 then ShortCurve(cp, t)
    else
      WrittenWindowInBounds(cp, splines, t);
      var w := WrittenWindow(|cp|, splines, t);
      Segment(cp, LocalParam(t, w), w.start, w.end)
  }

  /** `getBezier(t)` with the widened last piece kept to the end of the curve. */
  function Eval(cp: seq<Vec3>, splines: nat, t: real): Vec3
    requires Evaluable(cp, splines, t)
  {
    if splines < 1 then ShortCurve(cp, t)
    else
      KnotWindowInBounds(cp, splines, t);
      var w := KnotWindow(|cp|, splines, t);
      Segment(cp, LocalParam(t, w), w.start, w.end)
  }

  // ---------------------------------------------------------------------------------------------
  // The curve as a whole

  /** A chain as appends build it: the counter and the knots of the class invariant. */
  predicate Chain(cp: seq<Vec3>, splines: nat) {
    splines == SplinesAfter(|cp|) && KnotsHold(cp, splines)
  }

  /** A chain with a completed piece has at least 7 points and a last knot at least 3 points before the end. */
  lemma ChainShape(cp: seq<Vec3>, splines: nat)
    requires Chain(cp, splines)
    ensures splines >= 1 <==> |cp| >= 7
    ensures splines >= 1 ==> 3 * splines + 3 <= |cp| - 1 <= 3 * splines + 5
  {
    SplinesClosedForm(|cp|);
  }

  /** Every curve with a point starts at its first control point. */
  lemma EvalStartsAtFirstPoint(cp: seq<Vec3>, splines: nat)
    requires |cp| >= 1 && Evaluable(cp, splines, 0.0)
    ensures Eval(cp, splines, 0.0) == cp[0]
    ensures EvalAsWritten(cp, splines, 0.0) == cp[0]
  {
    if splines < 1 {
      assert 0.0 / (|cp| as real) == 0.0;
      SegmentAtZero(cp, 0, |cp| - 1);
    } else {
      SegmentAtZero(cp, 0, 3);
    }
  }

  /** In piece mode the curve ends, at t = count - 1, at its last control point. */
  lemma EvalEndsAtLastPoint(cp: seq<Vec3>, splines: nat)
    requires Chain(cp, splines) && splines >= 1
    ensures Evaluable(cp, splines, (|cp| - 1) as real)
    ensures Eval(cp, splines, (|cp| - 1) as real) == cp[|cp| - 1]
    ensures EvalAsWritten(cp, splines, (|cp| - 1) as real) == cp[|cp| - 1]
  {
    ChainShape(cp, splines);
    var t := (|cp| - 1) as real;
    var w := KnotWindow(|cp|, splines, t);
    assert w == Window(3 * splines, |cp| - 1);
    assert LocalParam(t, w) == 1.0;
    SegmentAtOne(cp, 3 * splines, |cp| - 1);
    assert (t / 3.0).Floor == splines + 1;
    var v := WrittenWindow(|cp|, splines, t);
    assert v == Window(3 * splines + 3, |cp| - 1);
    if v.start < v.end {
      assert LocalParam(t, v) == 1.0;
      SegmentAtOne(cp, v.start, v.end);
    } else {
      SegmentAtZero(cp, v.start, v.end);
    }
  }

  /** Before the last knot, t in [3j, 3j + 3) is read on the cubic piece `cp[3j..3j + 3]` at `(t - 3j) / 3`. */
  lemma EvalOnCubicPiece(cp: seq<Vec3>, splines: nat, j: nat, t: real)
    requires Evaluable(cp, splines, t) && j < splines
    requires (3 * j) as real <= t < (3 * j + 3) as real
    ensures Eval(cp, splines, t) == Segment(cp, (t - (3 * j) as real) / 3.0, 3 * j, 3 * j + 3)
    ensures EvalAsWritten(cp, splines, t) == Eval(cp, splines, t)
  {
    assert (t / 3.0).Floor == j;
  }

  /** From the last knot on, the corrected curve stays on the one piece `cp[3s..count - 1]`. */
  lemma EvalOnLastPiece(cp: seq<Vec3>, splines: nat, t: real)
    requires Evaluable(cp, splines, t) && splines >= 1 && (3 * splines) as real <= t
    ensures KnotWindow(|cp|, splines, t) == Window(3 * splines, |cp| - 1)
    ensures Eval(cp, splines, t) == Segment(cp, LocalParam(t, Window(3 * splines, |cp| - 1)), 3 * splines, |cp| - 1)
  {
    assert (t / 3.0).Floor >= splines;
  }

  /** As written, every multiple of 3 past the last knot opens a new window that reaches to the last point. */
  lemma WrittenWindowPastLastPiece(cp: seq<Vec3>, splines: nat, t: real)
    requires Evaluable(cp, splines, t) && splines >= 1 && (3 * splines + 3) as real <= t
    ensures var w := WrittenWindow(|cp|, splines, t);
      w.start > 3 * splines && w.start as real <= t && w.end == |cp| - 1
  {
    assert (t / 3.0).Floor >= splines + 1;
  }

  /**
   * Continuity at knot k: the piece that ends at the knot ends where the curve is at t = 3k, and
   * the two control-polygon legs through the knot are equal, so the tangent direction carries over.
   */
  lemma KnotContinuity(cp: seq<Vec3>, splines: nat, k: nat)
    requires Chain(cp, splines) && 1 <= k <= splines
    ensures Evaluable(cp, splines, (3 * k) as real)
    ensures 3 * k + 1 < |cp|
    ensures Segment(cp, 1.0, 3 * k - 3, 3 * k) == Eval(cp, splines, (3 * k) as real) == cp[3 * k]
    ensures Sub(cp[3 * k], cp[3 * k - 1]) == Sub(cp[3 * k + 1], cp[3 * k])
  {
    ChainShape(cp, splines);
    assert KnotHolds(cp, k);
    SegmentAtOne(cp, 3 * k - 3, 3 * k);
    var t := (3 * k) as real;
    if k < splines {
      EvalOnCubicPiece(cp, splines, k, t);
      assert (t - (3 * k) as real) / 3.0 == 0.0;
      SegmentAtZero(cp, 3 * k, 3 * k + 3);
    } else {
      EvalOnLastPiece(cp, splines, t);
      assert LocalParam(t, Window(3 * splines, |cp| - 1)) == 0.0;
      SegmentAtZero(cp, 3 * splines, |cp| - 1);
    }
  }

  /** Inside the curve's span every coordinate stays between the extremes of that coordinate among the points. */
  lemma EvalWithinBounds(cp: seq<Vec3>, splines: nat, t: real, a: Axis, lo: real, hi: real)
    requires Chain(cp, splines) && |cp| >= 1 && Evaluable(cp, splines, t) && 0.0 <= t <= (|cp| - 1) as real
    requires forall i :: 0 <= i < |cp| ==> lo <= Coord(cp[i], a) <= hi
    ensures lo <= Coord(Eval(cp, splines, t), a) <= hi
  {
    if splines < 1 {
      var n := |cp| as real;
      QuotientInUnit(t, n);
      SegmentWithinBounds(cp, t / n, 0, |cp| - 1, a, lo, hi);
    } else {
      KnotWindowInBounds(cp, splines, t);
      var w := KnotWindow(|cp|, splines, t);
      LocalParamInUnit(t, w);
      SegmentWithinBounds(cp, LocalParam(t, w), w.start, w.end, a, lo, hi);
    }
  }

  lemma QuotientInUnit(t: real, n: real)
    requires 0.0 <= t <= n && 0.0 < n
    ensures 0.0 <= t / n <= 1.0
  {
    assert t / n * n == t;
  }

  /** A curve of one point is that point for every parameter. */
  lemma SinglePointCurve(cp: seq<Vec3>, t: real)
    requires |cp| == 1
    ensures Eval(cp, 0, t) == cp[0]
  {
    SegmentOfEqualPoints(cp, t / 1.0, 0, 0, cp[0]);
  }

  /** A curve without points is the origin: the loop of `calculateBezier` runs no step. */
  lemma EmptyCurve(t: real)
    ensures Eval([], 0, t) == Origin3 && EvalAsWritten([], 0, t) == Origin3
  {
  }

  /** Short mode ends early: two points at t = count - 1 = 1 give their midpoint, not the last point. */
  lemma ShortCurveStopsShort(p: Vec3, q: Vec3)
    ensures Eval([p, q], 0, 1.0) == Midpoint(p, q)
  {
    var cp := [p, q];
    assert (1.0 / (|cp| as real)) == 0.5;
    assert Eval(cp, 0, 1.0) == Segment(cp, 0.5, 0, 1);
    LinearWeightsAtHalf();
    BlendOfTwo(cp, Weights(0.5, 1));
  }

  lemma LinearWeightsAtHalf()
    ensures Weights(0.5, 1)[0] == 0.5 && Weights(0.5, 1)[1] == 0.5
  {
    BinomialEnds(1);
    assert Pow(0.5, 0) == 1.0 && Pow(0.5, 1) == 0.5;
  }

  lemma BlendOfTwo(cp: seq<Vec3>, ws: seq<real>)
    requires |cp| == 2 && |ws| == 2 && ws[0] == 0.5 && ws[1] == 0.5
    ensures Blend(cp, 0, ws, 2) == Midpoint(cp[0], cp[1])
  {
    assert Blend(cp, 0, ws, 1) == Add(Origin3, Scale(cp[0], 0.5));
  }

  /** Four points (0,0,0), (1,0,0), (2,1,0), (3,1,0) at t = 2 give the cubic blend at 1/2. */
  lemma FourPointExample()
    ensures Eval([Origin3, Vec3(1.0, 0.0, 0.0), Vec3(2.0, 1.0, 0.0), Vec3(3.0, 1.0, 0.0)], 0, 2.0) == Vec3(1.5, 0.5, 0.0)
  {
    var cp := [Origin3, Vec3(1.0, 0.0, 0.0), Vec3(2.0, 1.0, 0.0), Vec3(3.0, 1.0, 0.0)];
    assert 2.0 / (|cp| as real) == 0.5;
    assert Eval(cp, 0, 2.0) == Segment(cp, 0.5, 0, 3);
    CubicWeightsAtHalf();
    SameFourWeights(Weights(0.5, 3));
    BlendOfFour();
  }

  lemma SameFourWeights(ws: seq<real>)
    requires |ws| == 4 && ws[0] == 0.125 && ws[1] == 0.375 && ws[2] == 0.375 && ws[3] == 0.125
    ensures ws == [0.125, 0.375, 0.375, 0.125]
  {
  }

  lemma BlendOfFour()
    ensures Blend([Origin3, Vec3(1.0, 0.0, 0.0), Vec3(2.0, 1.0, 0.0), Vec3(3.0, 1.0, 0.0)], 0, [0.125, 0.375, 0.375, 0.125], 4)
         == Vec3(1.5, 0.5, 0.0)
  {
    BlendOfFourTerms(Origin3, Vec3(1.0, 0.0, 0.0), Vec3(2.0, 1.0, 0.0), Vec3(3.0, 1.0, 0.0), 0.125, 0.375, 0.375, 0.125);
  }

  lemma BlendOfFourTerms(p0: Vec3, p1: Vec3, p2: Vec3, p3: Vec3, w0: real, w1: real, w2: real, w3: real)
    ensures Blend([p0, p1, p2, p3], 0, [w0, w1, w2, w3], 4)
         == Add(Add(Add(Add(Origin3, Scale(p0, w0)), Scale(p1, w1)), Scale(p2, w2)), Scale(p3, w3))
  {
    var cp := [p0, p1, p2, p3];
    var ws := [w0, w1, w2, w3];
    assert Blend(cp, 0, ws, 1) == Add(Origin3, Scale(p0, w0));
    assert Blend(cp, 0, ws, 2) == Add(Blend(cp, 0, ws, 1), Scale(p1, w1));
    assert Blend(cp, 0, ws, 3) == Add(Blend(cp, 0, ws, 2), Scale(p2, w2));
  }

  lemma CubicWeightsAtHalf()
    ensures var ws := Weights(0.5, 3); ws[0] == 0.125 && ws[1] == 0.375 && ws[2] == 0.375 && ws[3] == 0.125
  {
    BinomialEnds(3);
    BinomialSymmetric(3, 1);
    assert Binomial(3, 1) == 3.0 by {
      assert Factorial(2) == 2.0;
      assert Factorial(3) == 6.0;
      assert Ratio(6.0, 2.0, 1.0) == 3.0;
    }
    assert Pow(0.5, 0) == 1.0 && Pow(0.5, 1) == 0.5 && Pow(0.5, 2) == 0.25 && Pow(0.5, 3) == 0.125;
  }

  // ---------------------------------------------------------------------------------------------
  // The widened last piece, as written and as meant

  /** Up to the first multiple of 3 past the last knot both window rules give the same curve. */
  lemma EvalAgreesBeforeLastWindow(cp: seq<Vec3>, splines: nat, t: real)
    requires Evaluable(cp, splines, t) && t < (3 * splines + 3) as real
    ensures EvalAsWritten(cp, splines, t) == Eval(cp, splines, t)
  {
    if splines >= 1 {
      assert (t / 3.0).Floor <= splines;
      assert WrittenWindow(|cp|, splines, t) == KnotWindow(|cp|, splines, t);
    }
  }

  /** Eight points, all at the origin except `cp[6] = (1, 0, 0)`: a chain with one completed piece. */
  predicate JumpPoints(cp: seq<Vec3>) {
    |cp| == 8 && cp[6] == Vec3(1.0, 0.0, 0.0) && forall i :: 0 <= i < 8 && i != 6 ==> cp[i] == Origin3
  }

  lemma JumpPointsChain(cp: seq<Vec3>)
    requires JumpPoints(cp)
    ensures Chain(cp, 1)
  {
    SplinesClosedForm(8);
    assert cp[2] == Origin3 && cp[3] == Origin3 && cp[4] == Origin3;
    assert KnotHolds(cp, 1);
  }

  /**
   * As written, the curve of `JumpPoints` jumps at t = 6: on [3, 6) it runs along the piece
   * `cp[3..7]`, which at t = 6 would be at (27/64, 0, 0), but at t = 6 it is at (1, 0, 0).
   */
  lemma WrittenCurveJumps(cp: seq<Vec3>)
    requires JumpPoints(cp)
    ensures Chain(cp, 1)
    ensures forall t :: 3.0 <= t < 6.0 ==> EvalAsWritten(cp, 1, t) == Segment(cp, (t - 3.0) / 4.0, 3, 7)
    ensures Segment(cp, 0.75, 3, 7) == Vec3(27.0 / 64.0, 0.0, 0.0)
    ensures EvalAsWritten(cp, 1, 6.0) == Vec3(1.0, 0.0, 0.0)
  {
    JumpPointsChain(cp);
    forall t | 3.0 <= t < 6.0
      ensures EvalAsWritten(cp, 1, t) == Segment(cp, (t - 3.0) / 4.0, 3, 7)
    {
      WrittenJumpBefore(cp, t);
    }
    JumpPieceAtSixth(cp);
    WrittenJumpAt(cp);
  }

  lemma WrittenJumpBefore(cp: seq<Vec3>, t: real)
    requires JumpPoints(cp) && 3.0 <= t < 6.0
    ensures Chain(cp, 1)
    ensures EvalAsWritten(cp, 1, t) == Segment(cp, (t - 3.0) / 4.0, 3, 7)
  {
    JumpPointsChain(cp);
    assert (t / 3.0).Floor == 1;
    assert WrittenWindow(8, 1, t) == Window(3, 7);
  }

  lemma WrittenJumpAt(cp: seq<Vec3>)
    requires JumpPoints(cp)
    ensures Chain(cp, 1)
    ensures EvalAsWritten(cp, 1, 6.0) == Vec3(1.0, 0.0, 0.0)
  {
    JumpPointsChain(cp);
    WrittenWindowAtSix();
    SegmentAtZero(cp, 6, 7);
  }

  /** With the last piece kept to the end, the curve of `JumpPoints` at t = 6 is still on `cp[3..7]`. */
  lemma KnotCurveContinues(cp: seq<Vec3>)
    requires JumpPoints(cp)
    ensures Chain(cp, 1)
    ensures forall t :: 3.0 <= t <= 7.0 ==> Eval(cp, 1, t) == Segment(cp, (t - 3.0) / 4.0, 3, 7)
    ensures Eval(cp, 1, 6.0) == Vec3(27.0 / 64.0, 0.0, 0.0)
  {
    JumpPointsChain(cp);
    forall t | 3.0 <= t <= 7.0
      ensures Eval(cp, 1, t) == Segment(cp, (t - 3.0) / 4.0, 3, 7)
    {
      KnotJumpFree(cp, t);
    }
    KnotJumpFree(cp, 6.0);
    JumpPieceAtSixth(cp);
    assert (6.0 - 3.0) / 4.0 == 0.75;
  }

  lemma KnotJumpFree(cp: seq<Vec3>, t: real)
    requires JumpPoints(cp) && 3.0 <= t <= 7.0
    ensures Chain(cp, 1)
    ensures Eval(cp, 1, t) == Segment(cp, (t - 3.0) / 4.0, 3, 7)
  {
    JumpPointsChain(cp);
    EvalOnLastPiece(cp, 1, t);
  }

  lemma WrittenWindowAtSix()
    ensures WrittenWindow(8, 1, 6.0) == Window(6, 7)
    ensures LocalParam(6.0, Window(6, 7)) == 0.0
  {
    assert 6.0 / 3.0 == 2.0;
  }

  lemma JumpPieceAtSixth(cp: seq<Vec3>)
    requires JumpPoints(cp)
    ensures Segment(cp, 0.75, 3, 7) == Vec3(27.0 / 64.0, 0.0, 0.0)
  {
    var ws := Weights(0.75, 4);
    QuarticWeightAtThreeQuarters();
    BlendOfOnePoint(cp, 3, ws, 5, 3);
  }

  /** A blend where every point but `cp[start + j]` is the origin is that point times its weight. */
  lemma {:induction false} BlendOfOnePoint(cp: seq<Vec3>, start: nat, ws: seq<real>, m: nat, j: nat)
    requires start + |ws| <= |cp| && m <= |ws| && j < |ws|
    requires forall i :: start <= i < start + |ws| && i != start + j ==> cp[i] == Origin3
    ensures Blend(cp, start, ws, m) == if j < m then Scale(cp[start + j], ws[j]) else Origin3
  {
    if m > 0 {
      BlendOfOnePoint(cp, start, ws, m - 1, j);
    }
  }

  lemma QuarticWeightAtThreeQuarters()
    ensures Weights(0.75, 4)[3] == 27.0 / 64.0
  {
    BinomialSymmetric(4, 1);
    assert Binomial(4, 1) == 4.0 by {
      assert Factorial(3) == 6.0;
      assert Factorial(4) == 24.0;
      assert Ratio(24.0, 6.0, 1.0) == 4.0;
    }
    assert Pow(0.75, 3) == 27.0 / 64.0;
    assert Pow(1.0 - 0.75, 1) == 0.25;
  }

  // ---------------------------------------------------------------------------------------------
  // The class

  class Bezier {
    var controlPoints: seq<Vec3>
    var elementCount: int
    var splines: int

    ghost predicate Valid()
      reads this
    {
      elementCount == |controlPoints| && splines == SplinesAfter(elementCount) && KnotsHold(controlPoints, splines)
    }

    constructor ()
      ensures Valid() && controlPoints == []
    {
      controlPoints := [];
      elementCount := 0;
      splines := 0;
    }

    /** `addControlPoint`: closing a piece first moves its knot to the midpoint of the knot's neighbours. */
    method AddControlPoint(p: Vec3)
      requires Valid()
      modifies this
      ensures Valid()
      ensures elementCount == old(elementCount) + 1
      ensures controlPoints == Appended(old(controlPoints), p)
      ensures splines == old(splines) + if ClosesPiece(old(elementCount)) then 1 else 0
    {
      if elementCount > Degree && elementCount % Degree == 0 {
        SplinesClosedForm(elementCount);
        var knot := elementCount - Degree;
        controlPoints := controlPoints[knot := Midpoint(controlPoints[knot - 1], controlPoints[knot + 1])];
        splines := splines + 1;
      }
      controlPoints := controlPoints + [p];
      elementCount := elementCount + 1;
      KnotsAfterAppend(old(controlPoints), controlPoints, old(splines), splines, p);
    }

    /** `getCount`. */
    method GetCount() returns (n: int)
      requires Valid()
      ensures n == |controlPoints|
    {
      n := elementCount;
    }

    /** `calculateBezier(t, start, end)`: the loop that sums the weighted control points of one piece. */
    method CalculateBezier(t: real, start: int, end: int) returns (sum: Vec3)
      requires Valid()
      requires 0 <= start && end < |controlPoints|
      ensures sum == Segment(controlPoints, t, start, end)
    {
      sum := Origin3;
      var i := 0;
      while i < end - start + 1
        invariant start <= end ==> 0 <= i <= end - start + 1 && sum == Blend(controlPoints, start, Weights(t, end - start), i)
        invariant end < start ==> i == 0 && sum == Origin3
      {
        var bi := Scale(controlPoints[start + i], Bernstein(t, end - start, i));
        sum := Add(sum, bi);
        i := i + 1;
      }
    }

    /** `getBezier(t)`, with the last piece running to the end of the curve. */
    method GetBezier(t: real) returns (p: Vec3)
      requires Valid() && Evaluable(controlPoints, splines, t)
      ensures p == Eval(controlPoints, splines, t)
      ensures t < (3 * splines + 3) as real ==> p == EvalAsWritten(controlPoints, splines, t)
    {
      if t < (3 * splines + 3) as real {
        EvalAgreesBeforeLastWindow(controlPoints, splines, t);
      }
      if splines < 1 {
        if elementCount == 0 {
          p := CalculateBezier(0.0, 0, -1);
        } else {
          p := CalculateBezier(t / (elementCount as real), 0, elementCount - 1);
        }
      } else {
        KnotWindowInBounds(controlPoints, splines, t);
        var w := KnotWindow(elementCount, splines, t);
        var newT := LocalParam(t, w);
        p := CalculateBezier(newT, w.start, w.end);
      }
    }
  }

  /** The knots of the old chain survive an append, and the knot the append closes holds. */
  lemma KnotsAfterAppend(before: seq<Vec3>, after: seq<Vec3>, splinesBefore: int, splinesAfter: int, p: Vec3)
    requires splinesBefore == SplinesAfter(|before|) && KnotsHold(before, splinesBefore)
    requires after == Appended(before, p)
    requires splinesAfter == splinesBefore + if ClosesPiece(|before|) then 1 else 0
    ensures splinesAfter == SplinesAfter(|after|) && KnotsHold(after, splinesAfter)
  {
    var c := |before|;
    SplinesClosedForm(c);
    SplinesClosedForm(c + 1);
    forall k | 1 <= k <= splinesAfter
      ensures KnotHolds(after, k)
    {
      if k <= splinesBefore {
        assert KnotHolds(before, k);
      } else {
        assert 3 * k == c - 3;
      }
    }
  }
}
