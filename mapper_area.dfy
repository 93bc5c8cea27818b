/**
 * `TileCalculator.get_area` of mapper.py: the preamble (empty input, zoom
 * check, scan for the furthest vertex in each direction) and the union of
 * the vertices with the lines between consecutive vertices.
 *
 * As written, the line union iterates over `tile_vertices`, a name that is
 * defined nowhere, so every non-empty same-zoom call raises NameError
 * (GetAreaAsWritten). GetArea is the evident intent, iterating over
 * `vertices`. The scanline fill is an empty TODO loop in the source and
 * adds nothing.
 */
module MapperArea {
  import opened Wrappers
  import opened Geometry
  import opened MapperTile
  import opened MapperCalculator

  /** All vertices share the first vertex's zoom (the `all(...)` check). */
  predicate SameZoom(vs: seq<Tile>) {
    forall i :: 0 <= i < |vs| ==> vs[i].zoom == vs[0].zoom
  }

  // ---------------------------------------------------------------------
  // The scan for the furthest vertices

  /** The four directions get_area looks for the furthest vertex in. */
  datatype Side = Left | Right | Top | Bottom

  /** a lies strictly further towards `side` than b: the scan's strict comparisons. */
  predicate Beyond(side: Side, a: Tile, b: Tile) {
    match side
    case Left => a.x < b.x
    case Right => a.x > b.x
    case Top => a.y < b.y
    case Bottom => a.y > b.y
  }

  /**
   * Index of the vertex the scan keeps for `side`: no vertex lies beyond it,
   * and it lies beyond every vertex before it, so among equally far vertices
   * the first one wins.
   */
  function FirstExtreme(vs: seq<Tile>, side: Side): (k: nat)
    requires |vs| > 0
    ensures k < |vs|
    ensures forall j :: 0 <= j < |vs| ==> !Beyond(side, vs[j], vs[k])
    ensures forall j :: 0 <= j < k ==> Beyond(side, vs[k], vs[j])
    decreases |vs|
  {
    if |vs| == 1 then 0
    else
      var k := FirstExtreme(vs[..|vs| - 1], side);
      if Beyond(side, vs[|vs| - 1], vs[k]) then |vs| - 1 else k
  }

  /** The two properties of FirstExtreme single out one index. */
  lemma FirstExtremeUnique(vs: seq<Tile>, side: Side, k: nat)
    requires k < |vs|
    requires forall j :: 0 <= j < |vs| ==> !Beyond(side, vs[j], vs[k])
    requires forall j :: 0 <= j < k ==> Beyond(side, vs[k], vs[j])
    ensures k == FirstExtreme(vs, side)
  {
    var f := FirstExtreme(vs, side);
    if k < f {
      assert false;
    } else if f < k {
      assert false;
    }
  }

  /** One comparison of the scan: keep `best` unless there is none yet or v lies beyond it. */
  function Keep(side: Side, best: Option<Tile>, v: Tile): Option<Tile> {
    if best.None? || Beyond(side, v, best.value) then Some(v) else best
  }

  /** What the scan holds for `side` after the vertices vs: None before any vertex. */
  function Scanned(vs: seq<Tile>, side: Side): Option<Tile> {
    if |vs| == 0 then None else Some(vs[FirstExtreme(vs, side)])
  }

  /** One more vertex moves the scan on by one Keep. */
  lemma ScanStep(vs: seq<Tile>, k: nat, side: Side)
    requires k < |vs|
    ensures Scanned(vs[..k + 1], side) == Keep(side, Scanned(vs[..k], side), vs[k])
  {
    assert vs[..k + 1][..k] == vs[..k];
  }

  /** The `for vertex in vertices` scan for `left`, `right`, `top` and `bottom`. */
  method FindExtremes(vertices: seq<Tile>)
    returns (top: Option<Tile>, bottom: Option<Tile>, left: Option<Tile>, right: Option<Tile>)
    ensures |vertices| == 0 ==> top == bottom == left == right == None
    ensures |vertices| > 0 ==>
      && top == Some(vertices[FirstExtreme(vertices, Top)])
      && bottom == Some(vertices[FirstExtreme(vertices, Bottom)])
      && left == Some(vertices[FirstExtreme(vertices, Left)])
      && right == Some(vertices[FirstExtreme(vertices, Right)])
  {
    top, bottom, left, right := None, None, None, None;
    for k := 0 to |vertices|
      invariant top == Scanned(vertices[..k], Top)
      invariant bottom == Scanned(vertices[..k], Bottom)
      invariant left == Scanned(vertices[..k], Left)
      invariant right == Scanned(vertices[..k], Right)
    {
      var vertex := vertices[k];
      ScanStep(vertices, k, Left);
      ScanStep(vertices, k, Right);
      ScanStep(vertices, k, Top);
      ScanStep(vertices, k, Bottom);
      left := Keep(Left, left, vertex);
      right := Keep(Right, right, vertex);
      top := Keep(Top, top, vertex);
      bottom := Keep(Bottom, bottom, vertex);
    }
    assert vertices[..|vertices|] == vertices;
  }

  // ---------------------------------------------------------------------
  // The area

  function Elements(s: seq<Tile>): set<Tile> {
    set t | t in s
  }

  /** The tiles of the lines between consecutive vertices (the closing edge excluded). */
  function EdgeTiles(vs: seq<Tile>): set<Tile>
    decreases |vs|
  {
    if |vs| < 2 then {}
    else EdgeTiles(vs[..|vs| - 1]) + Elements(LineTiles(vs[|vs| - 2], vs[|vs| - 1]))
  }

  /** One more vertex adds the line from its predecessor. */
  lemma EdgeStep(vs: seq<Tile>, k: nat)
    requires 1 <= k < |vs|
    ensures EdgeTiles(vs[..k + 1]) == EdgeTiles(vs[..k]) + Elements(LineTiles(vs[k - 1], vs[k]))
  {
    assert vs[..k + 1][..k] == vs[..k];
  }

  /** What get_area evidently means to return: the vertices and the edge lines. */
  function AreaTiles(vs: seq<Tile>): set<Tile> {
    Elements(vs) + EdgeTiles(vs)
  }

  /**
   * `TileCalculator.get_area` with the line union over `vertices`: no
   * vertices give the empty set, mixed zooms a ValueError.
   */
  method GetArea(vertices: seq<Tile>) returns (r: Result<set<Tile>, Error>)
    ensures |vertices| == 0 ==> r == Ok({})
    ensures |vertices| > 0 && !SameZoom(vertices) ==> r == Err(MixedZooms)
    ensures |vertices| > 0 && SameZoom(vertices) ==> r == Ok(AreaTiles(vertices))
  {
    if |vertices| == 0 {
      return Ok({});
    }
    if !SameZoom(vertices) {
      return Err(MixedZooms);
    }
    var top, bottom, left, right := FindExtremes(vertices);
    var result := Elements(vertices);
    var prev := vertices[0];
    for k := 1 to |vertices|
      invariant prev == vertices[k - 1]
      invariant result == Elements(vertices) + EdgeTiles(vertices[..k])
    {
      var vertex := vertices[k];
      var line := GetLine(prev, vertex);
      EdgeStep(vertices, k);
      result := result + Elements(line.value);
      prev := vertex;
    }
    assert vertices[..|vertices|] == vertices;
    // The scanline fill between the top and bottom rows is an empty TODO.
    for y := top.value.y to bottom.value.y {
    }
    return Ok(result);
  }

  /**
   * get_area as written: the line union reads `tile_vertices`, which is
   * undefined, so every non-empty same-zoom input raises NameError.
   */
  function GetAreaAsWritten(vertices: seq<Tile>): (r: Result<set<Tile>, Error>)
    ensures r.Ok? <==> |vertices| == 0
    ensures |vertices| == 0 ==> r == Ok({})
    ensures |vertices| > 0 && !SameZoom(vertices) ==> r == Err(MixedZooms)
    ensures |vertices| > 0 && SameZoom(vertices) ==> r == Err(NameError("tile_vertices"))
  {
    if |vertices| == 0 then Ok({})
    else if !SameZoom(vertices) then Err(MixedZooms)
    else Err(NameError("tile_vertices"))
  }

  // ---------------------------------------------------------------------
  // What the area holds

  /** Every tile of the line between two consecutive vertices is an edge tile. */
  lemma {:induction false} EdgeTileOfLine(vs: seq<Tile>, k: nat, t: Tile)
    requires 1 <= k < |vs| && t in LineTiles(vs[k - 1], vs[k])
    ensures t in EdgeTiles(vs)
    decreases |vs|
  {
    if k < |vs| - 1 {
      var front := vs[..|vs| - 1];
      assert front[k - 1] == vs[k - 1] && front[k] == vs[k];
      EdgeTileOfLine(front, k, t);
    }
  }

  /** Every edge tile lies on the line between two consecutive vertices. */
  lemma {:induction false} EdgeTileOnLine(vs: seq<Tile>, t: Tile)
    requires t in EdgeTiles(vs)
    ensures exists k :: 1 <= k < |vs| && t in LineTiles(vs[k - 1], vs[k])
    decreases |vs|
  {
    var front := vs[..|vs| - 1];
    if t in EdgeTiles(front) {
      EdgeTileOnLine(front, t);
      var k :| 1 <= k < |front| && t in LineTiles(front[k - 1], front[k]);
      assert front[k - 1] == vs[k - 1] && front[k] == vs[k];
    } else {
      var k := |vs| - 1;
      assert t in LineTiles(vs[k - 1], vs[k]);
    }
  }

  /** A tile is an edge tile exactly when it lies on the line between some two consecutive vertices. */
  lemma EdgeTilesExactly(vs: seq<Tile>, t: Tile)
    ensures t in EdgeTiles(vs) <==> exists k :: 1 <= k < |vs| && t in LineTiles(vs[k - 1], vs[k])
  {
    if t in EdgeTiles(vs) {
      EdgeTileOnLine(vs, t);
    } else if exists k :: 1 <= k < |vs| && t in LineTiles(vs[k - 1], vs[k]) {
      var k :| 1 <= k < |vs| && t in LineTiles(vs[k - 1], vs[k]);
      EdgeTileOfLine(vs, k, t);
    }
  }

  /** The area is the vertices together with the tiles of every line between consecutive vertices. */
  lemma AreaTilesExactly(vs: seq<Tile>, t: Tile)
    ensures t in AreaTiles(vs) <==> t in vs || exists k :: 1 <= k < |vs| && t in LineTiles(vs[k - 1], vs[k])
  {
    EdgeTilesExactly(vs, t);
  }

  /** Every tile of the area carries the vertices' zoom. */
  lemma AreaZoom(vs: seq<Tile>, t: Tile)
    requires |vs| > 0 && SameZoom(vs)
    requires t in AreaTiles(vs)
    ensures t.zoom == vs[0].zoom
  {
    AreaTilesExactly(vs, t);
    if t !in vs {
      var k :| 1 <= k < |vs| && t in LineTiles(vs[k - 1], vs[k]);
      LineTilesEnds(vs[k - 1], vs[k]);
    }
  }

  /** Every vertex lies within the rows and columns of the furthest vertices. */
  lemma VertexWithinExtremes(vs: seq<Tile>, j: nat)
    requires j < |vs|
    ensures vs[FirstExtreme(vs, Left)].x <= vs[j].x <= vs[FirstExtreme(vs, Right)].x
    ensures vs[FirstExtreme(vs, Top)].y <= vs[j].y <= vs[FirstExtreme(vs, Bottom)].y
  {
    assert !Beyond(Left, vs[j], vs[FirstExtreme(vs, Left)]);
    assert !Beyond(Right, vs[j], vs[FirstExtreme(vs, Right)]);
    assert !Beyond(Top, vs[j], vs[FirstExtreme(vs, Top)]);
    assert !Beyond(Bottom, vs[j], vs[FirstExtreme(vs, Bottom)]);
  }

  /** Every tile of the area lies within the rows and columns of the furthest vertices. */
  lemma AreaWithinExtremes(vs: seq<Tile>, t: Tile)
    requires |vs| > 0
    requires t in AreaTiles(vs)
    ensures vs[FirstExtreme(vs, Left)].x <= t.x <= vs[FirstExtreme(vs, Right)].x
    ensures vs[FirstExtreme(vs, Top)].y <= t.y <= vs[FirstExtreme(vs, Bottom)].y
  {
    AreaTilesExactly(vs, t);
    if t in vs {
      var j :| 0 <= j < |vs| && vs[j] == t;
      VertexWithinExtremes(vs, j);
    } else {
      var k :| 1 <= k < |vs| && t in LineTiles(vs[k - 1], vs[k]);
      LineTilesWithin(vs[k - 1], vs[k]);
      EdgeWithinExtremes(vs, k, Position(t));
    }
  }

  /** A point in the box of two consecutive vertices lies within the rows and columns of the furthest vertices. */
  lemma EdgeWithinExtremes(vs: seq<Tile>, k: nat, p: Point)
    requires 1 <= k < |vs|
    requires Within(p, Position(vs[k - 1]), Position(vs[k]))
    ensures vs[FirstExtreme(vs, Left)].x <= p.x <= vs[FirstExtreme(vs, Right)].x
    ensures vs[FirstExtreme(vs, Top)].y <= p.y <= vs[FirstExtreme(vs, Bottom)].y
  {
    VertexWithinExtremes(vs, k - 1);
    VertexWithinExtremes(vs, k);
  }

  /** A single vertex is its own area. */
  lemma AreaOfOneVertex(v: Tile)
    ensures AreaTiles([v]) == {v}
  {
  }

  /** Two vertices give exactly the line between them. */
  lemma AreaOfTwoVertices(a: Tile, b: Tile)
    requires a.zoom == b.zoom
    ensures AreaTiles([a, b]) == Elements(LineTiles(a, b))
  {
    LineTilesEnds(a, b);
    var l := LineTiles(a, b);
    assert [a, b][..1] == [a];
    assert EdgeTiles([a, b]) == Elements(l);
    assert a == l[0] && b == l[|l| - 1];
    assert a in Elements(l) && b in Elements(l);
  }

  /**
   * The edge from the last vertex back to the first is not drawn: for the
   * corner (0,0), (2,0), (2,2) the diagonal tile (1,1) is missing.
   */
  lemma ClosingEdgeOmitted()
    ensures Tile(1, 1, 0) in LineTiles(Tile(2, 2, 0), Tile(0, 0, 0))
    ensures Tile(1, 1, 0) !in AreaTiles([Tile(0, 0, 0), Tile(2, 0, 0), Tile(2, 2, 0)])
  {
    var vs := [Tile(0, 0, 0), Tile(2, 0, 0), Tile(2, 2, 0)];
    assert LinePoint(Point(2, 2), Point(0, 0), 1) == Point(1, 1);
    assert LineTiles(Tile(2, 2, 0), Tile(0, 0, 0))[1] == Tile(1, 1, 0);
    AreaTilesExactly(vs, Tile(1, 1, 0));
    if Tile(1, 1, 0) in AreaTiles(vs) {
      var k :| 1 <= k < |vs| && Tile(1, 1, 0) in LineTiles(vs[k - 1], vs[k]);
      LineTilesWithin(vs[k - 1], vs[k]);
      assert false;
    }
  }

  /** As written, a one-vertex polygon raises NameError where its area is the vertex itself. */
  lemma AsWrittenFailsOnOneVertex(v: Tile)
    ensures GetAreaAsWritten([v]) == Err(NameError("tile_vertices"))
    ensures AreaTiles([v]) == {v}
  {
  }
}
