/** Plane geometry used by movement, targeting and the build rule.
    Distances are compared squared; the one place a square root is needed
    (a normalised step) takes the Euclidean norm as a parameter. */
module Geometry {
  datatype Point = Point(x: real, y: real)

  function Sq(a: real): real { a * a }

  function DistSq(a: Point, b: Point): (r: real)
    ensures r >= 0.0
  {
    Sq(a.x - b.x) + Sq(a.y - b.y)
  }

  predicate Within(dx: real, dy: real, r: real) {
    r >= 0.0 && Sq(dx) + Sq(dy) < Sq(r)
  }

  predicate WithinOrOn(dx: real, dy: real, r: real) {
    r >= 0.0 && Sq(dx) + Sq(dy) <= Sq(r)
  }

  ghost predicate IsNorm(norm: (real, real) -> real) {
    forall dx: real, dy: real {:trigger norm(dx, dy)} ::
      norm(dx, dy) >= 0.0 && Sq(norm(dx, dy)) == Sq(dx) + Sq(dy)
  }

  lemma SqMonoLt(a: real, b: real)
    requires 0.0 <= a < b
    ensures Sq(a) < Sq(b)
  {
    var aa, ab, bb := a * a, a * b, b * b;
    assert aa <= ab;
    assert ab < bb;
  }

  lemma SqMonoLe(a: real, b: real)
    requires 0.0 <= a <= b
    ensures Sq(a) <= Sq(b)
  {
    var aa, ab, bb := a * a, a * b, b * b;
    assert aa <= ab;
    assert ab <= bb;
  }

  lemma NormCompare(norm: (real, real) -> real, dx: real, dy: real, r: real)
    requires IsNorm(norm)
    ensures norm(dx, dy) < r <==> Within(dx, dy, r)
    ensures norm(dx, dy) <= r <==> WithinOrOn(dx, dy, r)
  {
    var d := norm(dx, dy);
    assert d >= 0.0 && Sq(d) == Sq(dx) + Sq(dy);
    if d < r { SqMonoLt(d, r); }
    if d <= r { SqMonoLe(d, r); }
    if r >= 0.0 && d >= r { SqMonoLe(r, d); }
    if r >= 0.0 && d > r { SqMonoLt(r, d); }
  }

  lemma NormPositive(norm: (real, real) -> real, dx: real, dy: real)
    requires IsNorm(norm) && Sq(dx) + Sq(dy) > 0.0
    ensures norm(dx, dy) > 0.0
  {
    var d := norm(dx, dy);
    assert Sq(d) > 0.0;
  }

  function StepToward(from: Point, to: Point, speed: real, norm: (real, real) -> real): Point
    requires IsNorm(norm) && speed > 0.0
    requires !Within(to.x - from.x, to.y - from.y, speed)
  {
    var dx := to.x - from.x;
    var dy := to.y - from.y;
    SqMonoLt(0.0, speed);
    NormPositive(norm, dx, dy);
    var d := norm(dx, dy);
    Point(from.x + dx / d * speed, from.y + dy / d * speed)
  }

  lemma ScaleSq(a: real, k: real)
    ensures Sq(a * k) == Sq(k) * Sq(a)
  {
    var ak := a * k;
    assert ak * ak == (k * k) * (a * a);
  }

  lemma MulGrows(k: real, d: real)
    requires k > 1.0 && d > 0.0
    ensures k * d > d
  {
    var kd := k * d;
    assert kd - d == (k - 1.0) * d;
  }

  lemma Distrib(a: real, b: real, c: real)
    ensures a * b + a * c == a * (b + c)
  {}

  lemma DivMul(a: real, d: real, s: real)
    requires d != 0.0
    ensures a / d * s == a * (s / d)
  {
    var q := a / d;
    var k := s / d;
    assert q * d == a;
    assert k * d == s;
    calc {
      q * s;
      q * (k * d);
      k * (q * d);
      k * a;
    }
  }

  /** The scaled vector k (dx, dy), k = speed / d, has length speed. */
  lemma ScaledLength(dx: real, dy: real, d: real, speed: real)
    requires d > 0.0 && Sq(d) == Sq(dx) + Sq(dy)
    ensures Sq(dx * (speed / d)) + Sq(dy * (speed / d)) == Sq(speed)
  {
    var k := speed / d;
    assert k * d == speed;
    ScaleSq(dx, k);
    ScaleSq(dy, k);
    Distrib(Sq(k), Sq(dx), Sq(dy));
    var kk, dd := k * k, d * d;
    assert kk * dd == (k * d) * (k * d);
  }

  /** What remains of (dx, dy) after the step is shorter than (dx, dy). */
  lemma RemainderShorter(dx: real, dy: real, m: real)
    requires 0.0 <= m < 1.0 && Sq(dx) + Sq(dy) > 0.0
    ensures Sq(dx * m) + Sq(dy * m) < Sq(dx) + Sq(dy)
  {
    ScaleSq(dx, m);
    ScaleSq(dy, m);
    Distrib(Sq(m), Sq(dx), Sq(dy));
    SqMonoLt(m, 1.0);
    var q := Sq(dx) + Sq(dy);
    var mm := Sq(m);
    assert mm * q < q by { assert q - mm * q == (1.0 - mm) * q; assert (1.0 - mm) * q > 0.0; }
  }

  lemma SqNeg(a: real)
    ensures Sq(-a) == Sq(a)
  {}

  /** The step, seen as k (dx, dy) with k = speed / d in (0, 1]. */
  lemma StepScale(from: Point, to: Point, speed: real, norm: (real, real) -> real)
    returns (k: real)
    requires IsNorm(norm) && speed > 0.0
    requires !Within(to.x - from.x, to.y - from.y, speed)
    ensures 0.0 < k <= 1.0 && norm(to.x - from.x, to.y - from.y) > 0.0
    ensures k == speed / norm(to.x - from.x, to.y - from.y)
    ensures StepToward(from, to, speed, norm) ==
            Point(from.x + (to.x - from.x) * k, from.y + (to.y - from.y) * k)
  {
    var dx := to.x - from.x;
    var dy := to.y - from.y;
    SqMonoLt(0.0, speed);
    NormPositive(norm, dx, dy);
    var d := norm(dx, dy);
    NormCompare(norm, dx, dy, speed);
    UnitFactor(speed, d);
    k := speed / d;
    DivMul(dx, d, speed);
    DivMul(dy, d, speed);
  }

  lemma UnitFactor(speed: real, d: real)
    requires speed > 0.0 && d >= speed
    ensures 0.0 < speed / d <= 1.0
  {
    var k := speed / d;
    assert k * d == speed;
    if k > 1.0 { MulGrows(k, d); }
  }

  /** A step covers exactly `speed`. */
  lemma StepTowardLength(from: Point, to: Point, speed: real, norm: (real, real) -> real)
    requires IsNorm(norm) && speed > 0.0
    requires !Within(to.x - from.x, to.y - from.y, speed)
    ensures DistSq(from, StepToward(from, to, speed, norm)) == Sq(speed)
  {
    var dx := to.x - from.x;
    var dy := to.y - from.y;
    var k := StepScale(from, to, speed, norm);
    var n := StepToward(from, to, speed, norm);
    var d := norm(dx, dy);
    assert Sq(d) == Sq(dx) + Sq(dy);
    assert from.x - n.x == -(dx * k) && from.y - n.y == -(dy * k);
    SqNeg(dx * k);
    SqNeg(dy * k);
    ScaledLength(dx, dy, d, speed);
    assert DistSq(from, n) == Sq(dx * k) + Sq(dy * k);
  }

  /** A step does not overshoot: it ends strictly closer to the target. */
  lemma StepTowardApproaches(from: Point, to: Point, speed: real, norm: (real, real) -> real)
    requires IsNorm(norm) && speed > 0.0
    requires !Within(to.x - from.x, to.y - from.y, speed)
    ensures DistSq(StepToward(from, to, speed, norm), to) < DistSq(from, to)
  {
    var dx := to.x - from.x;
    var dy := to.y - from.y;
    var k := StepScale(from, to, speed, norm);
    var n := StepToward(from, to, speed, norm);
    var m := 1.0 - k;
    assert n.x - to.x == -(dx * m) && n.y - to.y == -(dy * m);
    SqNeg(dx * m);
    SqNeg(dy * m);
    SqMonoLt(0.0, speed);
    RemainderShorter(dx, dy, m);
    assert DistSq(n, to) == Sq(dx * m) + Sq(dy * m);
    assert DistSq(from, to) == Sq(dx) + Sq(dy) by { SqNeg(dx); SqNeg(dy); }
  }

  function Clamp01(t: real): (r: real)
    ensures 0.0 <= r <= 1.0
    ensures 0.0 <= t <= 1.0 ==> r == t
  {
    if t < 0.0 then 0.0 else if t > 1.0 then 1.0 else t
  }

  /** Outside [0, 1] the clamp gives the nearer end. */
  lemma Clamp01Ends(t: real)
    ensures t < 0.0 ==> Clamp01(t) == 0.0
    ensures t > 1.0 ==> Clamp01(t) == 1.0
  {
  }

  /** The point `v + s (w - v)` of the line through v and w. */
  function SegmentPoint(v: Point, w: Point, s: real): Point {
    Point(v.x + s * (w.x - v.x), v.y + s * (w.y - v.y))
  }

  /** Squared length of the segment vw. */
  function SegmentLenSq(v: Point, w: Point): real {
    Sq(w.x - v.x) + Sq(w.y - v.y)
  }

  /** Dot product of p - v with w - v. */
  function SegmentDot(p: Point, v: Point, w: Point): real {
    (p.x - v.x) * (w.x - v.x) + (p.y - v.y) * (w.y - v.y)
  }

  /** Squared distance from p to the segment vw (`distToSegmentSq`):
      the squared distance to v when the segment is a point, otherwise to
      the point at the projection parameter clamped to [0, 1]. */
  function DistToSegmentSq(p: Point, v: Point, w: Point): real {
    var l2 := SegmentLenSq(v, w);
    if l2 == 0.0 then DistSq(p, v)
    else DistSq(p, SegmentPoint(v, w, Clamp01(SegmentDot(p, v, w) / l2)))
  }

  lemma ExpandSq(a: real, s: real, d: real)
    ensures Sq(a - s * d) == Sq(a) - 2.0 * s * (a * d) + Sq(s) * Sq(d)
  {
    var sd := s * d;
    assert (a - sd) * (a - sd) == a * a - 2.0 * (a * sd) + sd * sd;
    assert a * sd == s * (a * d);
    assert sd * sd == (s * s) * (d * d);
  }

  lemma QuadraticExpansion(a: real, b: real, dx: real, dy: real, s: real)
    ensures Sq(a - s * dx) + Sq(b - s * dy) ==
            Sq(a) + Sq(b) - 2.0 * s * (a * dx + b * dy) + Sq(s) * (Sq(dx) + Sq(dy))
  {
    ExpandSq(a, s, dx);
    ExpandSq(b, s, dy);
    Distrib(Sq(s), Sq(dx), Sq(dy));
    var sa, sb := s * (a * dx), s * (b * dy);
    assert sa + sb == s * (a * dx + b * dy);
  }

  /** The squared distance to `v + s (w - v)` as a quadratic in s. */
  lemma SegmentQuadratic(p: Point, v: Point, w: Point, s: real)
    ensures DistSq(p, SegmentPoint(v, w, s)) ==
            DistSq(p, v) - 2.0 * s * SegmentDot(p, v, w) + Sq(s) * SegmentLenSq(v, w)
  {
    var q := SegmentPoint(v, w, s);
    assert p.x - q.x == (p.x - v.x) - s * (w.x - v.x);
    assert p.y - q.y == (p.y - v.y) - s * (w.y - v.y);
    QuadraticExpansion(p.x - v.x, p.y - v.y, w.x - v.x, w.y - v.y, s);
  }

  lemma SqNonneg(a: real)
    ensures Sq(a) >= 0.0
  {
    if a != 0.0 { SqPositive(a); }
  }

  lemma SqPositive(a: real)
    requires a != 0.0
    ensures Sq(a) > 0.0
  {
    if a > 0.0 { SqMonoLt(0.0, a); } else { SqMonoLt(0.0, -a); SqNeg(a); }
  }

  /** A degenerate segment is its end point. */
  lemma DegenerateSegment(v: Point, w: Point)
    requires SegmentLenSq(v, w) == 0.0
    ensures v == w
  {
    var dx, dy := w.x - v.x, w.y - v.y;
    SqNonneg(dx);
    SqNonneg(dy);
    if dx != 0.0 { SqPositive(dx); }
    if dy != 0.0 { SqPositive(dy); }
  }

  /** `distToSegmentSq` is the squared distance to the closest point of
      the segment: it is attained at some point of the segment and no
      point of the segment is closer. For v == w it is the squared
      distance to v. */
  lemma DistToSegmentIsMinimum(p: Point, v: Point, w: Point)
    ensures DistToSegmentSq(p, v, w) >= 0.0
    ensures v == w ==> DistToSegmentSq(p, v, w) == DistSq(p, v)
    ensures exists s: real :: 0.0 <= s <= 1.0 && DistToSegmentSq(p, v, w) == DistSq(p, SegmentPoint(v, w, s))
    ensures forall s: real :: 0.0 <= s <= 1.0 ==> DistToSegmentSq(p, v, w) <= DistSq(p, SegmentPoint(v, w, s))
  {
    if SegmentLenSq(v, w) == 0.0 {
      DegenerateSegment(v, w);
      forall s: real ensures SegmentPoint(v, w, s) == v {
        DegeneratePoint(v, w, s);
      }
      assert DistToSegmentSq(p, v, w) == DistSq(p, SegmentPoint(v, w, 0.0));
    } else {
      var tc := Clamp01(SegmentDot(p, v, w) / SegmentLenSq(v, w));
      assert DistToSegmentSq(p, v, w) == DistSq(p, SegmentPoint(v, w, tc));
      forall s: real | 0.0 <= s <= 1.0
        ensures DistToSegmentSq(p, v, w) <= DistSq(p, SegmentPoint(v, w, s))
      {
        ClampedIsClosest(p, v, w, s);
      }
    }
  }

  lemma DegeneratePoint(v: Point, w: Point, s: real)
    requires v == w
    ensures SegmentPoint(v, w, s) == v
  {
    assert s * (w.x - v.x) == 0.0 && s * (w.y - v.y) == 0.0;
  }

  /** On a proper segment the clamped parameter is no farther than any s in [0, 1]. */
  lemma ClampedIsClosest(p: Point, v: Point, w: Point, s: real)
    requires SegmentLenSq(v, w) != 0.0 && 0.0 <= s <= 1.0
    ensures DistToSegmentSq(p, v, w) <= DistSq(p, SegmentPoint(v, w, s))
  {
    var tc := Clamp01(SegmentDot(p, v, w) / SegmentLenSq(v, w));
    LenPositive(v, w);
    ClampedValue(p, v, w, tc);
    SegmentQuadratic(p, v, w, s);
    QuadraticMinimum(DistSq(p, v), SegmentDot(p, v, w), SegmentLenSq(v, w), s, tc);
    LeChain(DistToSegmentSq(p, v, w),
            DistSq(p, v) - 2.0 * tc * SegmentDot(p, v, w) + Sq(tc) * SegmentLenSq(v, w),
            DistSq(p, v) - 2.0 * s * SegmentDot(p, v, w) + Sq(s) * SegmentLenSq(v, w),
            DistSq(p, SegmentPoint(v, w, s)));
  }

  lemma LeChain(d: real, x: real, y: real, e: real)
    requires d == x && x <= y && y == e
    ensures d <= e
  {
  }

  lemma LenPositive(v: Point, w: Point)
    requires SegmentLenSq(v, w) != 0.0
    ensures SegmentLenSq(v, w) > 0.0
  {
    SqNonneg(w.x - v.x);
    SqNonneg(w.y - v.y);
  }

  /** On a proper segment `distToSegmentSq` is the quadratic at the
      clamped parameter tc. */
  lemma ClampedValue(p: Point, v: Point, w: Point, tc: real)
    requires SegmentLenSq(v, w) != 0.0 && tc == Clamp01(SegmentDot(p, v, w) / SegmentLenSq(v, w))
    ensures DistToSegmentSq(p, v, w) ==
            DistSq(p, v) - 2.0 * tc * SegmentDot(p, v, w) + Sq(tc) * SegmentLenSq(v, w)
  {
    SegmentQuadratic(p, v, w, tc);
  }

  lemma MulNonneg(a: real, b: real)
    requires a >= 0.0 && b >= 0.0
    ensures a * b >= 0.0
  {}

  /** For L > 0 and tc the clamp of B / L to [0, 1], the quadratic
      -2 s B + s^2 L is no smaller at any s in [0, 1] than at tc. */
  lemma QuadraticMinimum(a: real, bb: real, l: real, s: real, tc: real)
    requires l > 0.0 && 0.0 <= s <= 1.0
    requires tc == Clamp01(bb / l)
    ensures a - 2.0 * tc * bb + Sq(tc) * l <= a - 2.0 * s * bb + Sq(s) * l
  {
    var t := bb / l;
    assert bb == t * l;
    var ss := Sq(s);
    MulNonneg(s, s);
    MulNonneg(ss, l);
    if t < 0.0 {
      assert bb <= 0.0 by { MulNonneg(-t, l); assert (-t) * l == -(t * l); }
      MulNonneg(s, -bb);
      assert -2.0 * s * bb == 2.0 * (s * (-bb));
    } else if t > 1.0 {
      assert bb > l by { MulGrows(t, l); }
      var lhs := -2.0 * bb + l;
      var rhs := -2.0 * s * bb + ss * l;
      var g := l * (s + 1.0) - 2.0 * bb;
      assert rhs - lhs == (1.0 - s) * (-g);
      assert l * (s + 1.0) <= 2.0 * l by { MulNonneg(1.0 - s, l); }
      MulNonneg(1.0 - s, -g);
    } else {
      assert tc == t;
      var lhs := -2.0 * t * bb + Sq(t) * l;
      var rhs := -2.0 * s * bb + ss * l;
      var e := s - t;
      assert rhs - lhs == l * Sq(e) by {
        assert -2.0 * s * bb == -2.0 * s * (t * l);
        assert -2.0 * t * bb == -2.0 * t * (t * l);
      }
      SqNonneg(e);
      MulNonneg(l, Sq(e));
    }
  }
}
