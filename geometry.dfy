/**
 * Integer line geometry shared by the three tile-line rasterisers.
 *
 * `Line(p0, p1)` is a closed-form reference definition of the Bresenham line:
 * the major axis is x when |dx| >= |dy| (otherwise y), point i lies i steps
 * along the major axis, and its minor-axis offset is the integer nearest to
 * i * minor / major, a tie being rounded towards the start point.
 */
module Geometry {

  datatype Point = Point(x: int, y: int)

  function Abs(n: int): nat { if n < 0 then -n else n }

  function Max(a: nat, b: nat): nat { if a < b then b else a }

  /** Direction of travel from `from` to `to` as the sources compute it: -1 when equal. */
  function Step(from: int, to: int): int { if from < to then 1 else -1 }

  /** The coordinate d steps from `from` in the direction of `to` (Step(from, to) * d). */
  function Toward(from: int, to: int, d: int): int { if from < to then from + d else from - d }

  /** Number of steps from p0 to p1: max(|dx|, |dy|). */
  function Span(p0: Point, p1: Point): nat {
    Max(Abs(p1.x - p0.x), Abs(p1.y - p0.y))
  }

  /** Minor-axis offset after i major steps: i * minor / major rounded to nearest, ties down. */
  function Nearest(i: nat, major: nat, minor: nat): int {
    if major == 0 then 0 else (2 * minor * i + major - 1) / (2 * major)
  }

  /** Offsets (along x, along y) of point i from p0, both counted towards p1. */
  function Offsets(p0: Point, p1: Point, i: nat): (int, int) {
    var dx := Abs(p1.x - p0.x);
    var dy := Abs(p1.y - p0.y);
    if dx >= dy then (i, Nearest(i, dx, dy)) else (Nearest(i, dy, dx), i)
  }

  function LinePoint(p0: Point, p1: Point, i: nat): Point {
    var o := Offsets(p0, p1, i);
    Point(Toward(p0.x, p1.x, o.0), Toward(p0.y, p1.y, o.1))
  }

  /** The reference line from p0 to p1, both endpoints included. */
  function Line(p0: Point, p1: Point): seq<Point> {
    seq(Span(p0, p1) + 1, (i: int) requires 0 <= i <= Span(p0, p1) => LinePoint(p0, p1, i))
  }

  /** 8-neighbours that are not the same point. */
  predicate Adjacent(a: Point, b: Point) {
    a != b && Abs(a.x - b.x) <= 1 && Abs(a.y - b.y) <= 1
  }

  /** p lies in the axis-aligned box spanned by p0 and p1. */
  predicate Within(p: Point, p0: Point, p1: Point) {
    && (p0.x <= p.x <= p1.x || p1.x <= p.x <= p0.x)
    && (p0.y <= p.y <= p1.y || p1.y <= p.y <= p0.y)
  }

  /** Twice the signed area spanned by p0->p1 and p0->p: zero exactly on the ideal line. */
  function Cross(p0: Point, p1: Point, p: Point): int {
    (p.y - p0.y) * (p1.x - p0.x) - (p.x - p0.x) * (p1.y - p0.y)
  }

  // ---------------------------------------------------------------------
  // Nearest: its characterisation

  /** Nearest(i) is within half a step of i * minor / major, ties towards zero. */
  lemma NearestBounds(i: nat, major: int, minor: nat)
    requires major > 0
    ensures -major <= 2 * (major * Nearest(i, major, minor) - minor * i) < major
  {
    var n := 2 * minor * i + major - 1;
    var d := 2 * major;
    var q := n / d;
    assert q == Nearest(i, major, minor);
    assert n == d * q + n % d && 0 <= n % d < d;
    assert d * q == 2 * (major * q);
  }

  /** The bounds of NearestBounds determine the offset uniquely. */
  lemma NearestUnique(i: nat, major: int, minor: nat, t: int)
    requires major > 0
    requires -major <= 2 * (major * t - minor * i) < major
    ensures t == Nearest(i, major, minor)
  {
    var q := Nearest(i, major, minor);
    NearestBounds(i, major, minor);
    var k := t - q;
    assert major * t - major * q == major * k;
    assert major * k < major * 1;
    CancelFactor(major, k, 1);
    assert major * -1 < major * k;
    CancelFactor(major, -1, k);
  }

  /** Dividing both sides of a strict inequality by a positive factor. */
  lemma CancelFactor(a: int, u: int, v: int)
    requires a > 0 && a * u < a * v
    ensures u < v
  {
  }

  /** A line of shallower slope never gains more than one minor step per major step. */
  lemma NearestStep(i: nat, major: int, minor: nat)
    requires 0 <= minor <= major && major > 0
    ensures 0 <= Nearest(i + 1, major, minor) - Nearest(i, major, minor) <= 1
  {
    var a := Nearest(i, major, minor);
    var b := Nearest(i + 1, major, minor);
    NearestBounds(i, major, minor);
    NearestBounds(i + 1, major, minor);
    var k := b - a;
    assert major * b - major * a == major * k;
    assert minor * (i + 1) == minor * i + minor;
    assert major * k < major * 2;
    CancelFactor(major, k, 2);
    assert major * -1 < major * k;
    CancelFactor(major, -1, k);
  }

  /**
   * Advancing one major step: with deviation g = major * c - minor * i, the
   * next offset is c + 1 exactly when 2g < 2 minor - major, and 2g never
   * drops to minor - 2 major or below.
   */
  lemma NearestAdvance(i: nat, major: int, minor: nat)
    requires 0 <= minor <= major && major > 0
    ensures var c := Nearest(i, major, minor);
      var g := major * c - minor * i;
      var up := 2 * g < 2 * minor - major;
      && 2 * g > minor - 2 * major
      && Nearest(i + 1, major, minor) == (if up then c + 1 else c)
      && major * Nearest(i + 1, major, minor) - minor * (i + 1)
         == g - minor + (if up then major else 0)
  {
    var c := Nearest(i, major, minor);
    var g := major * c - minor * i;
    NearestBounds(i, major, minor);
    if major == minor {
      NearestUnique(i, major, minor, i);
    }
    var c' := if 2 * g < 2 * minor - major then c + 1 else c;
    assert major * c' == major * c + (if 2 * g < 2 * minor - major then major else 0);
    assert minor * (i + 1) == minor * i + minor;
    NearestUnique(i + 1, major, minor, c');
  }

  /** Between the endpoints the offset stays between 0 and the minor extent. */
  lemma NearestRange(i: nat, major: nat, minor: nat)
    requires 0 <= minor <= major && i <= major
    ensures 0 <= Nearest(i, major, minor) <= minor
  {
    if major > 0 {
      var t := Nearest(i, major, minor);
      NearestBounds(i, major, minor);
      assert minor * i <= minor * major;
      assert major * -1 < major * t;
      CancelFactor(major, -1, t);
      assert major * minor + major == major * (minor + 1);
      assert major * t < major * (minor + 1);
      CancelFactor(major, t, minor + 1);
    }
  }

  // ---------------------------------------------------------------------
  // Properties of the reference line

  /** Offsets at the two ends of the line: none, and the full extents. */
  lemma OffsetsAtEnds(p0: Point, p1: Point)
    ensures Offsets(p0, p1, 0) == (0, 0)
    ensures Offsets(p0, p1, Span(p0, p1)) == (Abs(p1.x - p0.x), Abs(p1.y - p0.y))
  {
    var dx, dy := Abs(p1.x - p0.x), Abs(p1.y - p0.y);
    if dx >= dy {
      if dx > 0 {
        NearestUnique(0, dx, dy, 0);
        NearestUnique(dx, dx, dy, dy);
      }
    } else {
      NearestUnique(0, dy, dx, 0);
      NearestUnique(dy, dy, dx, dx);
    }
  }

  /** The line starts at p0, ends at p1 and has max(|dx|, |dy|) + 1 points. */
  lemma {:induction false} LineEnds(p0: Point, p1: Point)
    ensures |Line(p0, p1)| == Span(p0, p1) + 1
    ensures Line(p0, p1)[0] == p0
    ensures Line(p0, p1)[Span(p0, p1)] == p1
  {
    OffsetsAtEnds(p0, p1);
  }

  /** Only the last point of the line is the end point. */
  lemma ReachesEndOnlyAtSpan(p0: Point, p1: Point, i: nat)
    requires i <= Span(p0, p1) && LinePoint(p0, p1, i) == p1
    ensures i == Span(p0, p1)
  {
  }

  /** Identical endpoints give exactly that one point. */
  lemma LineOfOnePoint(p: Point)
    ensures Line(p, p) == [p]
  {
    LineEnds(p, p);
  }

  /**
   * Each step of the line moves x by 0 or by Step(p0.x, p1.x) and y by 0 or
   * by Step(p0.y, p1.y): never away from p1.
   */
  lemma PointSteps(p0: Point, p1: Point, i: nat)
    requires i < Span(p0, p1)
    ensures var a, b := LinePoint(p0, p1, i), LinePoint(p0, p1, i + 1);
      && (b.x == a.x || b.x == a.x + Step(p0.x, p1.x))
      && (b.y == a.y || b.y == a.y + Step(p0.y, p1.y))
  {
    var dx, dy := Abs(p1.x - p0.x), Abs(p1.y - p0.y);
    if dx >= dy {
      NearestStep(i, dx, dy);
    } else {
      NearestStep(i, dy, dx);
    }
  }

  lemma PointsAdjacent(p0: Point, p1: Point, i: nat)
    requires i < Span(p0, p1)
    ensures Adjacent(LinePoint(p0, p1, i), LinePoint(p0, p1, i + 1))
  {
    var dx, dy := Abs(p1.x - p0.x), Abs(p1.y - p0.y);
    if dx >= dy {
      NearestStep(i, dx, dy);
    } else {
      NearestStep(i, dy, dx);
    }
  }

  /** Consecutive points are distinct 8-neighbours. */
  lemma LineAdjacent(p0: Point, p1: Point)
    ensures forall i :: 0 <= i < Span(p0, p1) ==> Adjacent(Line(p0, p1)[i], Line(p0, p1)[i + 1])
  {
    forall i | 0 <= i < Span(p0, p1)
      ensures Adjacent(Line(p0, p1)[i], Line(p0, p1)[i + 1])
    {
      PointsAdjacent(p0, p1, i);
    }
  }

  /** No point repeats: the major coordinate moves by one at every step. */
  lemma LineDistinct(p0: Point, p1: Point)
    ensures forall i, j :: 0 <= i < j <= Span(p0, p1) ==> Line(p0, p1)[i] != Line(p0, p1)[j]
  {
  }

  lemma PointWithin(p0: Point, p1: Point, i: nat)
    requires i <= Span(p0, p1)
    ensures Within(LinePoint(p0, p1, i), p0, p1)
  {
    var dx, dy := Abs(p1.x - p0.x), Abs(p1.y - p0.y);
    if dx >= dy {
      NearestRange(i, dx, dy);
    } else {
      NearestRange(i, dy, dx);
    }
  }

  /** Every point lies in the box spanned by the endpoints. */
  lemma LineWithin(p0: Point, p1: Point)
    ensures forall p :: p in Line(p0, p1) ==> Within(p, p0, p1)
  {
    forall i | 0 <= i <= Span(p0, p1)
      ensures Within(Line(p0, p1)[i], p0, p1)
    {
      PointWithin(p0, p1, i);
    }
  }

  /** The deviation of point i from the ideal line, in units of 1/major. */
  lemma DeviationBound(p0: Point, p1: Point, i: nat)
    requires i <= Span(p0, p1)
    ensures var o := Offsets(p0, p1, i);
      2 * Abs(Abs(p1.x - p0.x) * o.1 - Abs(p1.y - p0.y) * o.0) <= Span(p0, p1)
  {
    var dx, dy := Abs(p1.x - p0.x), Abs(p1.y - p0.y);
    if dx >= dy {
      if dx > 0 {
        NearestBounds(i, dx, dy);
      }
    } else {
      NearestBounds(i, dy, dx);
    }
  }

  /**
   * Up to sign, the cross product of the point a steps along x and b steps
   * along y from p0 (each towards p1) is b * |dx| - a * |dy|.
   */
  lemma CrossIsDeviation(p0: Point, p1: Point, a: int, b: int)
    ensures var c := Cross(p0, p1, Point(Toward(p0.x, p1.x, a), Toward(p0.y, p1.y, b)));
      var dev := Abs(p1.x - p0.x) * b - Abs(p1.y - p0.y) * a;
      c == dev || c == -dev
  {
    var dx, dy := p1.x - p0.x, p1.y - p0.y;
    if p0.x < p1.x && p0.y < p1.y {
    } else if p0.x < p1.x {
      assert (-b) * dx - a * dy == -(b * dx - a * (-dy));
    } else if p0.y < p1.y {
      assert b * dx - (-a) * dy == -(b * (-dx) - a * dy);
    } else {
      assert (-b) * dx - (-a) * dy == b * (-dx) - a * (-dy);
    }
  }

  /** Every point is within half a step of the true segment, measured along the minor axis. */
  lemma LineNearSegment(p0: Point, p1: Point)
    ensures forall p :: p in Line(p0, p1) ==> 2 * Abs(Cross(p0, p1, p)) <= Span(p0, p1)
  {
    forall i | 0 <= i <= Span(p0, p1)
      ensures 2 * Abs(Cross(p0, p1, Line(p0, p1)[i])) <= Span(p0, p1)
    {
      DeviationBound(p0, p1, i);
      var o := Offsets(p0, p1, i);
      CrossIsDeviation(p0, p1, o.0, o.1);
    }
  }
}
