/**
 * `TileCalculator.get_line` of calculator.py: set both coordinates' zoom,
 * convert them to tiles and run the steep-swap loop, returning only what
 * the loop appends.
 *
 * The docstring promises the tiles "excluding endpoints"; the loop in fact
 * emits the near endpoint (the one its ordering starts from) and leaves out
 * only the far one (ClassicLine.ClassicEndpoints).
 */
module Calculator {
  import opened Geometry
  import opened Coords
  import opened ClassicLine
  import MapperTile
  import MapperCalculator

  method GetLine(merc0: MercatorCoord, merc1: MercatorCoord, zoom: int, project: Projection)
    returns (line: seq<TileCoord>)
    modifies merc0, merc1
    ensures merc0.zoom == zoom && merc1.zoom == zoom
    ensures merc0.latitude == old(merc0.latitude) && merc0.longitude == old(merc0.longitude)
    ensures merc1.latitude == old(merc1.latitude) && merc1.longitude == old(merc1.longitude)
    ensures line == ClassicTiles(Pos(merc0.Convert(project)), Pos(merc1.Convert(project)), zoom)
  {
    merc0.zoom := zoom;
    merc1.zoom := zoom;
    var tile0 := merc0.Convert(project);
    var tile1 := merc1.Convert(project);
    line := Trace(Pos(tile0), Pos(tile1), zoom);
  }

  /**
   * What a call returns, on the converted tiles t0, t1: max(|dx|, |dy|)
   * coordinates at `zoom`, none for equal endpoints, and of two distinct
   * endpoints only the near one.
   */
  lemma GetLineShape(t0: TileCoord, t1: TileCoord, zoom: int)
    ensures var line := ClassicTiles(Pos(t0), Pos(t1), zoom);
      && |line| == Max(Abs(t1.x - t0.x), Abs(t1.y - t0.y))
      && (Pos(t0) == Pos(t1) ==> line == [])
      && (Pos(t0) != Pos(t1) ==>
            (CoordAt(Pos(t0), zoom) in line <==> !Reversed(Pos(t0), Pos(t1))) &&
            (CoordAt(Pos(t1), zoom) in line <==> Reversed(Pos(t0), Pos(t1))))
  {
    var p0, p1 := Pos(t0), Pos(t1);
    var line := ClassicTiles(p0, p1, zoom);
    ClassicLength(p0, p1);
    if p0 != p1 {
      ClassicEndpoints(p0, p1);
      var pts := ClassicPoints(p0, p1);
      forall p | p == p0 || p == p1
        ensures CoordAt(p, zoom) in line <==> p in pts
      {
        if CoordAt(p, zoom) in line {
          var i :| 0 <= i < |line| && line[i] == CoordAt(p, zoom);
          assert pts[i] == p;
        }
        if p in pts {
          var i :| 0 <= i < |pts| && pts[i] == p;
          assert line[i] == CoordAt(p, zoom);
        }
      }
    }
  }

  /**
   * With a tie and reversed endpoints the interior tiles differ from
   * mapper.py's get_line: from (2, 1) to (0, 0) mapper.py passes (1, 1), while
   * this loop starts from (0, 0) and passes (1, 0).
   */
  lemma TieDiffersFromMapper()
    ensures MapperCalculator.LineTiles(MapperTile.Tile(2, 1, 0), MapperTile.Tile(0, 0, 0))
            == [MapperTile.Tile(2, 1, 0), MapperTile.Tile(1, 1, 0), MapperTile.Tile(0, 0, 0)]
    ensures ClassicTiles(Point(2, 1), Point(0, 0), 0) == [TileCoord(0, 0, 0), TileCoord(1, 0, 0)]
  {
  }
}
