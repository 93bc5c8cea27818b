/**
 * The steep-swap Bresenham loop that `TileCalculator.get_line` runs in both
 * map-downloader.py and calculator.py once the two endpoints are tile
 * indices: swap x and y when the line is steep, order the endpoints so
 * that x0 <= x1, then step x from x0 up to (not including) x1 while an
 * error term that starts at deltax / 2 decides when y moves by ystep.
 *
 * The loop is proved to emit the first Span points of the reference line
 * `Geometry.Line` drawn from the near end (the endpoint the ordering puts
 * first) to the far end.
 */
module ClassicLine {
  import opened Geometry
  import opened Coords

  /** `steep`: the line crosses more rows than columns. */
  predicate Steep(p0: Point, p1: Point) {
    Abs(p1.y - p0.y) > Abs(p1.x - p0.x)
  }

  /** The steep swap of x and y; it is its own inverse. */
  function Flip(steep: bool, p: Point): Point {
    if steep then Point(p.y, p.x) else p
  }

  /** The `x0 > x1` test that makes the loop start from p1. */
  predicate Reversed(p0: Point, p1: Point) {
    Flip(Steep(p0, p1), p0).x > Flip(Steep(p0, p1), p1).x
  }

  /** The endpoint the loop starts from. */
  function NearEnd(p0: Point, p1: Point): Point {
    if Reversed(p0, p1) then p1 else p0
  }

  /** The endpoint the loop stops short of. */
  function FarEnd(p0: Point, p1: Point): Point {
    if Reversed(p0, p1) then p0 else p1
  }

  /** The near and far ends in the loop's own frame (x and y swapped when steep). */
  function FrameNear(p0: Point, p1: Point): Point {
    Flip(Steep(p0, p1), NearEnd(p0, p1))
  }

  function FrameFar(p0: Point, p1: Point): Point {
    Flip(Steep(p0, p1), FarEnd(p0, p1))
  }

  /** What the loop emits: the reference line from the near end, the far end left off. */
  function ClassicPoints(p0: Point, p1: Point): seq<Point> {
    Line(NearEnd(p0, p1), FarEnd(p0, p1))[..Span(p0, p1)]
  }

  /** The tile coordinates the loop appends to `line_list`. */
  function ClassicTiles(p0: Point, p1: Point, zoom: int): seq<TileCoord> {
    CoordsAt(ClassicPoints(p0, p1), zoom)
  }

  // ---------------------------------------------------------------------
  // The error term

  /** `error` after i steps along a major extent D and minor extent m, starting from D / 2. */
  function ClassicError(i: nat, D: nat, m: nat): int {
    D / 2 - m * i + D * Nearest(i, D, m)
  }

  /** Before the first step: no offset yet, and the error is deltax / 2. */
  lemma ClassicStart(D: nat, m: nat)
    ensures Nearest(0, D, m) == 0 && ClassicError(0, D, m) == D / 2
  {
  }

  /** The loop invariant 0 <= error < deltax of the classic algorithm. */
  lemma ClassicErrorRange(i: nat, D: nat, m: nat)
    requires 0 <= m <= D && D > 0
    ensures 0 <= ClassicError(i, D, m) < D
  {
    NearestBounds(i, D, m);
    var g := D * Nearest(i, D, m) - m * i;
    assert ClassicError(i, D, m) == D / 2 + g;
    assert D == 2 * (D / 2) || D == 2 * (D / 2) + 1;
  }

  /**
   * One pass of the loop body: subtracting deltay and, when the error turns
   * negative, moving y and adding deltax gives the error and the offset of
   * the next step.
   */
  lemma ClassicStep(i: nat, D: nat, m: nat)
    requires 0 <= m <= D && D > 0
    ensures var e := ClassicError(i, D, m) - m;
      if e < 0 then
        Nearest(i + 1, D, m) == Nearest(i, D, m) + 1 && ClassicError(i + 1, D, m) == e + D
      else
        Nearest(i + 1, D, m) == Nearest(i, D, m) && ClassicError(i + 1, D, m) == e
  {
    var c0, c1 := Nearest(i, D, m), Nearest(i + 1, D, m);
    NearestStep(i, D, m);
    ClassicErrorRange(i, D, m);
    ClassicErrorRange(i + 1, D, m);
    assert m * (i + 1) == m * i + m;
    assert D * c1 == D * c0 + D * (c1 - c0);
    if c1 == c0 + 1 {
      assert D * (c1 - c0) == D;
    }
  }

  /**
   * The loop body on the loop's own variables: from the error and row of
   * step i it computes those of step i + 1, y moving by ystep exactly when
   * the error turns negative.
   */
  lemma ClimbStep(i: nat, D: nat, m: nat, y0: int, y1: int, y: int, error: int)
    requires 0 <= m <= D && D > 0
    requires y == Toward(y0, y1, Nearest(i, D, m)) && error == ClassicError(i, D, m)
    ensures var e := error - m;
      var ystep := if y0 < y1 then 1 else -1;
      && (if e < 0 then y + ystep else y) == Toward(y0, y1, Nearest(i + 1, D, m))
      && (if e < 0 then e + D else e) == ClassicError(i + 1, D, m)
  {
    ClassicStep(i, D, m);
  }

  // ---------------------------------------------------------------------
  // The loop's frame

  /** After the swaps the loop runs from x0 to x1 = x0 + Span, over a minor extent of at most Span. */
  lemma FrameExtents(p0: Point, p1: Point)
    ensures var a, b := FrameNear(p0, p1), FrameFar(p0, p1);
      && a.x <= b.x
      && b.x - a.x == Span(p0, p1)
      && Abs(b.y - a.y) <= b.x - a.x
      && Span(NearEnd(p0, p1), FarEnd(p0, p1)) == Span(p0, p1)
  {
  }

  /**
   * Point i of the reference line, seen in the loop's frame from (x0, y0) to
   * (x1, y1), lies i columns after the near end and Nearest(i) rows towards
   * the far end.
   */
  lemma FramePoint(p0: Point, p1: Point, i: nat, x0: int, y0: int, x1: int, y1: int)
    requires i <= Span(p0, p1)
    requires Point(x0, y0) == FrameNear(p0, p1) && Point(x1, y1) == FrameFar(p0, p1)
    ensures x0 <= x1
    ensures Flip(Steep(p0, p1), LinePoint(NearEnd(p0, p1), FarEnd(p0, p1), i))
      == Point(x0 + i, Toward(y0, y1, Nearest(i, x1 - x0, Abs(y1 - y0))))
  {
    FrameExtents(p0, p1);
  }

  /** A list holding point j of the line at every index j below Span is the loop's output. */
  lemma TraceTiles(p0: Point, p1: Point, zoom: int, line: seq<TileCoord>)
    requires |line| == Span(p0, p1)
    requires forall j {:trigger line[j]} :: 0 <= j < |line| ==>
      line[j] == CoordAt(LinePoint(NearEnd(p0, p1), FarEnd(p0, p1), j), zoom)
    ensures line == ClassicTiles(p0, p1, zoom)
  {
    FrameExtents(p0, p1);
    var t := ClassicTiles(p0, p1, zoom);
    assert |t| == |line|;
    forall j | 0 <= j < |line|
      ensures line[j] == t[j]
    {
    }
  }

  /** The steep swap and the `x0 > x1` ordering of the endpoints. */
  method Orient(p0: Point, p1: Point) returns (steep: bool, x0: int, y0: int, x1: int, y1: int)
    ensures steep == Steep(p0, p1)
    ensures Point(x0, y0) == FrameNear(p0, p1) && Point(x1, y1) == FrameFar(p0, p1)
    ensures x0 <= x1
  {
    x0, y0, x1, y1 := p0.x, p0.y, p1.x, p1.y;
    steep := Abs(y1 - y0) > Abs(x1 - x0);
    if steep {
      x0, y0 := y0, x0;
      x1, y1 := y1, x1;
    }
    if x0 > x1 {
      x0, x1 := x1, x0;
      y0, y1 := y1, y0;
    }
  }

  /**
   * The body of get_line after conversion, up to the loop's last append:
   * from the tile indices p0, p1 to the coordinates the loop appends at `zoom`.
   */
  method Trace(p0: Point, p1: Point, zoom: int) returns (line: seq<TileCoord>)
    ensures line == ClassicTiles(p0, p1, zoom)
  {
    var steep, x0, y0, x1, y1 := Orient(p0, p1);
    var deltax := x1 - x0;
    var deltay := Abs(y1 - y0);
    var error := deltax / 2;
    var y := y0;
    var ystep;
    if y0 < y1 {
      ystep := 1;
    } else {
      ystep := -1;
    }
    ghost var near, far := NearEnd(p0, p1), FarEnd(p0, p1);
    FrameExtents(p0, p1);
    ClassicStart(deltax, deltay);
    line := [];
    for x := x0 to x1
      invariant error == ClassicError(x - x0, deltax, deltay)
      invariant y == Toward(y0, y1, Nearest(x - x0, deltax, deltay))
      invariant |line| == x - x0
      invariant forall j {:trigger line[j]} :: 0 <= j < |line| ==>
        line[j] == CoordAt(LinePoint(near, far, j), zoom)
    {
      ghost var p := LinePoint(near, far, x - x0);
      FramePoint(p0, p1, x - x0, x0, y0, x1, y1);
      assert Flip(steep, p) == Point(x, y);
      var t := if steep then TileCoord(y, x, zoom) else TileCoord(x, y, zoom);
      assert t == CoordAt(p, zoom);
      line := line + [t];
      ClimbStep(x - x0, deltax, deltay, y0, y1, y, error);
      error := error - deltay;
      if error < 0 {
        y := y + ystep;
        error := error + deltax;
      }
    }
    TraceTiles(p0, p1, zoom, line);
  }

  // ---------------------------------------------------------------------
  // What the loop emits

  /** The loop emits deltax = max(|x1 - x0|, |y1 - y0|) points. */
  lemma ClassicLength(p0: Point, p1: Point)
    ensures |ClassicPoints(p0, p1)| == Max(Abs(p1.x - p0.x), Abs(p1.y - p0.y))
  {
    FrameExtents(p0, p1);
    LineEnds(NearEnd(p0, p1), FarEnd(p0, p1));
  }

  /** Identical endpoints give no points at all. */
  lemma ClassicOfOne(p: Point)
    ensures ClassicPoints(p, p) == []
  {
    ClassicLength(p, p);
  }

  /**
   * Of two distinct endpoints exactly one is emitted: the near one, first;
   * the far one never.
   */
  lemma ClassicEndpoints(p0: Point, p1: Point)
    requires p0 != p1
    ensures |ClassicPoints(p0, p1)| > 0 && ClassicPoints(p0, p1)[0] == NearEnd(p0, p1)
    ensures FarEnd(p0, p1) !in ClassicPoints(p0, p1)
    ensures p0 in ClassicPoints(p0, p1) <==> !Reversed(p0, p1)
    ensures p1 in ClassicPoints(p0, p1) <==> Reversed(p0, p1)
  {
    var near, far := NearEnd(p0, p1), FarEnd(p0, p1);
    FrameExtents(p0, p1);
    LineEnds(near, far);
    LineDistinct(near, far);
    var pts := ClassicPoints(p0, p1);
    var n := Span(p0, p1);
    assert Line(near, far)[n] == far;
    forall i | 0 <= i < n
      ensures pts[i] != far
    {
      assert pts[i] == Line(near, far)[i];
    }
  }

  /** The primary coordinate of point i is the loop's x: x0 + i in the loop's frame. */
  lemma ClassicPrimary(p0: Point, p1: Point, i: nat)
    requires i < |ClassicPoints(p0, p1)|
    ensures Flip(Steep(p0, p1), ClassicPoints(p0, p1)[i]).x == FrameNear(p0, p1).x + i
  {
    var a, b := FrameNear(p0, p1), FrameFar(p0, p1);
    FrameExtents(p0, p1);
    FramePoint(p0, p1, i, a.x, a.y, b.x, b.y);
  }

  /** From one point to the next the secondary coordinate stays or moves by one ystep. */
  lemma ClassicSecondary(p0: Point, p1: Point, i: nat)
    requires i + 1 < |ClassicPoints(p0, p1)|
    ensures var pts, s := ClassicPoints(p0, p1), Steep(p0, p1);
      var ystep := if FrameNear(p0, p1).y < FrameFar(p0, p1).y then 1 else -1;
      var move := Flip(s, pts[i + 1]).y - Flip(s, pts[i]).y;
      move == 0 || move == ystep
  {
    var a, b := FrameNear(p0, p1), FrameFar(p0, p1);
    FrameExtents(p0, p1);
    FramePoint(p0, p1, i, a.x, a.y, b.x, b.y);
    FramePoint(p0, p1, i + 1, a.x, a.y, b.x, b.y);
    NearestStep(i, b.x - a.x, Abs(b.y - a.y));
  }

  /** Consecutive points are distinct 8-neighbours and no point repeats. */
  lemma ClassicConnected(p0: Point, p1: Point)
    ensures var pts := ClassicPoints(p0, p1);
      && (forall i :: 0 <= i < |pts| - 1 ==> Adjacent(pts[i], pts[i + 1]))
      && (forall i, j :: 0 <= i < j < |pts| ==> pts[i] != pts[j])
  {
    var near, far := NearEnd(p0, p1), FarEnd(p0, p1);
    FrameExtents(p0, p1);
    LineEnds(near, far);
    LineAdjacent(near, far);
    LineDistinct(near, far);
  }

  /** Every point lies in the box spanned by the two endpoints, in their own orientation. */
  lemma ClassicWithin(p0: Point, p1: Point)
    ensures forall p :: p in ClassicPoints(p0, p1) ==> Within(p, p0, p1)
  {
    var near, far := NearEnd(p0, p1), FarEnd(p0, p1);
    LineWithin(near, far);
    forall p | p in ClassicPoints(p0, p1)
      ensures Within(p, p0, p1)
    {
      assert p in Line(near, far);
    }
  }

  /** Every emitted tile coordinate carries the zoom argument. */
  lemma ClassicTilesZoom(p0: Point, p1: Point, zoom: int)
    ensures forall t :: t in ClassicTiles(p0, p1, zoom) ==> t.zoom == zoom
  {
  }

  /** When the loop starts from p0, it emits the reference line from p0 without its last point. */
  lemma ClassicIsLinePrefix(p0: Point, p1: Point)
    requires !Reversed(p0, p1)
    ensures ClassicPoints(p0, p1) == Line(p0, p1)[..Span(p0, p1)]
  {
  }
}
