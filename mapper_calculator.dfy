/**
 * `TileCalculator.get_line` of mapper.py: the simplified (error-accumulator)
 * Bresenham line between two tiles.
 */
module MapperCalculator {
  import opened Wrappers
  import opened Geometry
  import opened MapperTile

  /** The tiles get_line returns: the reference line from tile0 to tile1 at tile0's zoom. */
  function LineTiles(tile0: Tile, tile1: Tile): seq<Tile> {
    AtZoom(Line(Position(tile0), Position(tile1)), tile0.zoom)
  }

  /** The value of `err` after i iterations: dx - dy, moved by -dy per x step and +dx per y step. */
  function ErrorTerm(p0: Point, p1: Point, i: nat): int {
    var o := Offsets(p0, p1, i);
    Abs(p1.x - p0.x) - Abs(p1.y - p0.y) + Abs(p1.x - p0.x) * o.1 - Abs(p1.y - p0.y) * o.0
  }

  /** The loop's position (x0, y0) and its error accumulator err. */
  datatype State = State(at: Point, err: int)

  /** The constants get_line fixes before its loop: dx, dy, sx and sy. */
  datatype Slope = Slope(dx: int, dy: int, sx: int, sy: int)

  function SlopeOf(p0: Point, p1: Point): Slope {
    Slope(Abs(p1.x - p0.x), Abs(p1.y - p0.y), Step(p0.x, p1.x), Step(p0.y, p1.y))
  }

  /** The body of get_line's loop after the append: the two error comparisons and moves. */
  function Advance(k: Slope, s: State): State {
    var e2 := 2 * s.err;
    var s1 := if e2 > -k.dy then State(Point(s.at.x + k.sx, s.at.y), s.err - k.dy) else s;
    if e2 < k.dx then State(Point(s1.at.x, s1.at.y + k.sy), s1.err + k.dx) else s1
  }

  /** The loop's (x0, y0) and err after i iterations, obtained by running the loop. */
  function Walk(p0: Point, k: Slope, i: nat): State {
    if i == 0 then State(p0, k.dx - k.dy) else Advance(k, Walk(p0, k, i - 1))
  }

  /** The loop's state after i iterations on the line from p0 to p1. */
  function LoopState(p0: Point, p1: Point, i: nat): State {
    Walk(p0, SlopeOf(p0, p1), i)
  }

  /**
   * One iteration of the loop: at point i of the reference line with error
   * term err, comparing 2*err against -dy and dx moves to point i + 1 and
   * keeps the error term.
   */
  lemma ErrorStep(p0: Point, p1: Point, i: nat)
    requires i < Span(p0, p1)
    ensures var here := State(LinePoint(p0, p1, i), ErrorTerm(p0, p1, i));
      Advance(SlopeOf(p0, p1), here) == State(LinePoint(p0, p1, i + 1), ErrorTerm(p0, p1, i + 1))
  {
    if Abs(p1.x - p0.x) >= Abs(p1.y - p0.y) {
      ShallowStep(p0, p1, i);
    } else {
      SteepStep(p0, p1, i);
    }
  }

  /** ErrorStep when x is the major axis: err = dx - dy + g, where g = dx * c - dy * i. */
  lemma ShallowStep(p0: Point, p1: Point, i: nat)
    requires Abs(p1.x - p0.x) >= Abs(p1.y - p0.y) && i < Span(p0, p1)
    ensures var here := State(LinePoint(p0, p1, i), ErrorTerm(p0, p1, i));
      Advance(SlopeOf(p0, p1), here) == State(LinePoint(p0, p1, i + 1), ErrorTerm(p0, p1, i + 1))
  {
    var dx, dy := Abs(p1.x - p0.x), Abs(p1.y - p0.y);
    var k := SlopeOf(p0, p1);
    var here := State(LinePoint(p0, p1, i), ErrorTerm(p0, p1, i));
    var c := Nearest(i, dx, dy);
    var g := dx * c - dy * i;
    NearestAdvance(i, dx, dy);
    assert here.err == dx - dy + g;
    var up := 2 * g < 2 * dy - dx;
    assert Offsets(p0, p1, i + 1) == (i + 1, if up then c + 1 else c);
    assert ErrorTerm(p0, p1, i + 1) == dx - dy + g - dy + (if up then dx else 0);
    assert 2 * here.err > -dy && (2 * here.err < dx <==> up);
    assert LinePoint(p0, p1, i + 1)
        == Point(here.at.x + k.sx, if up then here.at.y + k.sy else here.at.y);
  }

  /** ErrorStep when y is the major axis: err = dx - dy - g, where g = dy * c - dx * i. */
  lemma SteepStep(p0: Point, p1: Point, i: nat)
    requires Abs(p1.x - p0.x) < Abs(p1.y - p0.y) && i < Span(p0, p1)
    ensures var here := State(LinePoint(p0, p1, i), ErrorTerm(p0, p1, i));
      Advance(SlopeOf(p0, p1), here) == State(LinePoint(p0, p1, i + 1), ErrorTerm(p0, p1, i + 1))
  {
    var dx, dy := Abs(p1.x - p0.x), Abs(p1.y - p0.y);
    var k := SlopeOf(p0, p1);
    var here := State(LinePoint(p0, p1, i), ErrorTerm(p0, p1, i));
    var c := Nearest(i, dy, dx);
    var g := dy * c - dx * i;
    NearestAdvance(i, dy, dx);
    assert here.err == dx - dy - g;
    var up := 2 * g < 2 * dx - dy;
    assert Offsets(p0, p1, i + 1) == (if up then c + 1 else c, i + 1);
    assert ErrorTerm(p0, p1, i + 1) == dx - dy - g + dx - (if up then dy else 0);
    assert 2 * here.err < dx && (2 * here.err > -dy <==> up);
    assert LinePoint(p0, p1, i + 1)
        == Point(if up then here.at.x + k.sx else here.at.x, here.at.y + k.sy);
  }

  /** Running the loop visits exactly the reference line: its i-th point and error term. */
  lemma {:induction false} WalkIsLine(p0: Point, p1: Point, i: nat)
    requires i <= Span(p0, p1)
    ensures LoopState(p0, p1, i) == State(LinePoint(p0, p1, i), ErrorTerm(p0, p1, i))
    decreases i
  {
    if i == 0 {
      OffsetsAtEnds(p0, p1);
    } else {
      WalkIsLine(p0, p1, i - 1);
      ErrorStep(p0, p1, i - 1);
    }
  }

  /** The loop stops exactly when it reaches p1, after Span steps. */
  lemma WalkEnds(p0: Point, p1: Point, i: nat, x: int, y: int)
    requires i <= Span(p0, p1) && LoopState(p0, p1, i).at == Point(x, y)
    ensures x == p1.x && y == p1.y <==> i == Span(p0, p1)
  {
    WalkIsLine(p0, p1, i);
    OffsetsAtEnds(p0, p1);
    if LinePoint(p0, p1, i) == p1 {
      ReachesEndOnlyAtSpan(p0, p1, i);
    }
  }

  /** Tiles collected at the walked points, one per step up to Span, are LineTiles. */
  lemma WalkTiles(tile0: Tile, tile1: Tile, line: seq<Tile>)
    requires |line| == Span(Position(tile0), Position(tile1)) + 1
    requires forall j :: 0 <= j < |line| ==>
      line[j] == AtPoint(LoopState(Position(tile0), Position(tile1), j).at, tile0.zoom)
    ensures line == LineTiles(tile0, tile1)
  {
    forall j | 0 <= j < |line|
      ensures line[j] == LineTiles(tile0, tile1)[j]
    {
      WalkIsLine(Position(tile0), Position(tile1), j);
    }
  }

  /**
   * The end of each iteration of get_line's loop: e2 = 2 * err is compared
   * with -dy (step along x) and with dx (step along y).
   */
  method Move(x0: int, y0: int, err: int, dx: int, dy: int, sx: int, sy: int)
    returns (x: int, y: int, e: int)
    ensures State(Point(x, y), e) == Advance(Slope(dx, dy, sx, sy), State(Point(x0, y0), err))
  {
    x, y, e := x0, y0, err;
    var e2 := 2 * err;
    if e2 > -dy {
      e := e - dy;
      x := x + sx;
    }
    if e2 < dx {
      e := e + dx;
      y := y + sy;
    }
  }

  /** `TileCalculator.get_line`. */
  method GetLine(tile0: Tile, tile1: Tile) returns (r: Result<seq<Tile>, Error>)
    ensures tile0.zoom != tile1.zoom ==> r == Err(ZoomMismatch)
    ensures tile0.zoom == tile1.zoom ==> r == Ok(LineTiles(tile0, tile1))
  {
    if tile0.zoom != tile1.zoom {
      return Err(ZoomMismatch);
    }
    var x0, y0 := tile0.x, tile0.y;
    var x1, y1 := tile1.x, tile1.y;
    var dx: int := Abs(x1 - x0);
    var dy: int := Abs(y1 - y0);
    var sx := if x0 < x1 then 1 else -1;
    var sy := if y0 < y1 then 1 else -1;
    var err := dx - dy;
    var line: seq<Tile> := [];
    ghost var p0, p1 := Position(tile0), Position(tile1);
    ghost var n := Span(p0, p1);
    ghost var i: nat := 0;
    assert SlopeOf(p0, p1) == Slope(dx, dy, sx, sy);
    while true
      invariant i == |line| <= n
      invariant LoopState(p0, p1, i) == State(Point(x0, y0), err)
      invariant forall j {:trigger line[j]} :: 0 <= j < |line| ==> line[j] == AtPoint(LoopState(p0, p1, j).at, tile0.zoom)
      decreases n - i
    {
      var t := FromGoogle(x0, y0, tile0.zoom);
      line := line + [t.value];
      WalkEnds(p0, p1, i, x0, y0);
      if x0 == x1 && y0 == y1 {
        break;
      }
      i := i + 1;
      x0, y0, err := Move(x0, y0, err, dx, dy, sx, sy);
    }
    WalkTiles(tile0, tile1, line);
    return Ok(line);
  }

  // ---------------------------------------------------------------------
  // What get_line's result looks like

  /**
   * The line starts at tile0 and ends at tile1, has max(|dx|, |dy|) + 1
   * tiles, and every tile carries tile0's zoom.
   */
  lemma LineTilesEnds(tile0: Tile, tile1: Tile)
    requires tile0.zoom == tile1.zoom
    ensures |LineTiles(tile0, tile1)| == Span(Position(tile0), Position(tile1)) + 1
    ensures LineTiles(tile0, tile1)[0] == tile0
    ensures LineTiles(tile0, tile1)[|LineTiles(tile0, tile1)| - 1] == tile1
    ensures forall t :: t in LineTiles(tile0, tile1) ==> t.zoom == tile0.zoom
  {
    LineEnds(Position(tile0), Position(tile1));
  }

  /** Identical endpoints give exactly one tile. */
  lemma LineTilesOfOne(tile: Tile)
    ensures LineTiles(tile, tile) == [tile]
  {
    LineOfOnePoint(Position(tile));
  }

  /** Consecutive tiles are distinct 8-neighbours, and no tile repeats. */
  lemma LineTilesConnected(tile0: Tile, tile1: Tile)
    ensures var l := LineTiles(tile0, tile1);
      && (forall i :: 0 <= i < |l| - 1 ==> Adjacent(Position(l[i]), Position(l[i + 1])))
      && (forall i, j :: 0 <= i < j < |l| ==> l[i] != l[j])
  {
    var p0, p1 := Position(tile0), Position(tile1);
    LineAdjacent(p0, p1);
    LineDistinct(p0, p1);
  }

  /**
   * Each pass of the loop moves x by 0 or by sx and y by 0 or by sy, the
   * directions towards tile1 that get_line fixes before the loop.
   */
  lemma LineTilesSteps(tile0: Tile, tile1: Tile, i: nat)
    requires i + 1 < |LineTiles(tile0, tile1)|
    ensures var l := LineTiles(tile0, tile1);
      && (l[i + 1].x == l[i].x || l[i + 1].x == l[i].x + Step(tile0.x, tile1.x))
      && (l[i + 1].y == l[i].y || l[i + 1].y == l[i].y + Step(tile0.y, tile1.y))
  {
    PointSteps(Position(tile0), Position(tile1), i);
  }

  /** Every tile of the line lies in the box spanned by the endpoints. */
  lemma LineTilesWithin(tile0: Tile, tile1: Tile)
    ensures forall t :: t in LineTiles(tile0, tile1) ==> Within(Position(t), Position(tile0), Position(tile1))
  {
    var p0, p1 := Position(tile0), Position(tile1);
    LineWithin(p0, p1);
    forall t | t in LineTiles(tile0, tile1)
      ensures Within(Position(t), p0, p1)
    {
      var i :| 0 <= i < |LineTiles(tile0, tile1)| && LineTiles(tile0, tile1)[i] == t;
      assert Position(t) == Line(p0, p1)[i];
    }
  }
}
