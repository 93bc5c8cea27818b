/**
 * `TileCalculator.get_line` and `get_area` of map-downloader.py.
 *
 * get_line runs the same steep-swap loop as calculator.py but opens the
 * list with the first converted tile and closes it with the second, so the
 * near endpoint appears twice whenever the endpoints differ.
 *
 * get_area, after converting its input, scans the vertices with `left`,
 * `top` and `bottom` still None and reads `left.x`, which raises
 * AttributeError for every non-empty input.
 */
module MapDownloader {
  import opened Wrappers
  import opened Geometry
  import opened Coords
  import opened ClassicLine

  /** The list get_line returns for the converted tiles t0 and t1. */
  function BracketedTiles(t0: TileCoord, t1: TileCoord, zoom: int): seq<TileCoord> {
    [t0] + ClassicTiles(Pos(t0), Pos(t1), zoom) + [t1]
  }

  method GetLine(merc0: MercatorCoord, merc1: MercatorCoord, zoom: int, project: Projection)
    returns (line: seq<TileCoord>)
    modifies merc0, merc1
    ensures merc0.zoom == zoom && merc1.zoom == zoom
    ensures merc0.latitude == old(merc0.latitude) && merc0.longitude == old(merc0.longitude)
    ensures merc1.latitude == old(merc1.latitude) && merc1.longitude == old(merc1.longitude)
    ensures line == BracketedTiles(merc0.Convert(project), merc1.Convert(project), zoom)
  {
    merc0.zoom := zoom;
    merc1.zoom := zoom;
    var tile0 := merc0.Convert(project);
    var tile1 := merc1.Convert(project);
    var middle := Trace(Pos(tile0), Pos(tile1), zoom);
    line := [tile0] + middle;
    line := line + [tile1];
  }

  /**
   * The list starts with t0, ends with t1 and has deltax + 2 entries, so
   * equal endpoints give [t0, t1].
   */
  lemma BracketedShape(t0: TileCoord, t1: TileCoord, zoom: int)
    ensures var line := BracketedTiles(t0, t1, zoom);
      && |line| == Max(Abs(t1.x - t0.x), Abs(t1.y - t0.y)) + 2
      && line[0] == t0 && line[|line| - 1] == t1
      && (Pos(t0) == Pos(t1) ==> line == [t0, t1])
  {
    ClassicLength(Pos(t0), Pos(t1));
    if Pos(t0) == Pos(t1) {
      ClassicOfOne(Pos(t0));
    }
  }

  /**
   * With distinct endpoints at the requested zoom, the entry after t0
   * repeats the near endpoint: t0 itself, or t1 when the loop runs from t1.
   */
  lemma BracketedRepeatsNearEnd(t0: TileCoord, t1: TileCoord, zoom: int)
    requires t0.zoom == zoom && t1.zoom == zoom && Pos(t0) != Pos(t1)
    ensures var line := BracketedTiles(t0, t1, zoom);
      |line| > 2 && line[1] == (if Reversed(Pos(t0), Pos(t1)) then t1 else t0)
  {
    ClassicEndpoints(Pos(t0), Pos(t1));
  }

  /** Every entry carries the requested zoom when both converted tiles do. */
  lemma BracketedZoom(t0: TileCoord, t1: TileCoord, zoom: int)
    requires t0.zoom == zoom && t1.zoom == zoom
    ensures forall t :: t in BracketedTiles(t0, t1, zoom) ==> t.zoom == zoom
  {
    ClassicTilesZoom(Pos(t0), Pos(t1), zoom);
  }

  /** The exception get_area raises: an attribute read on None. */
  datatype AreaError = AttributeOfNone(attribute: string)

  /**
   * `TileCalculator.get_area` as written: no coordinates give the empty set;
   * otherwise the first comparison reads `left.x` with `left` still None.
   */
  function GetArea(mercCoords: seq<MercatorCoord>, zoom: int): (r: Result<set<TileCoord>, AreaError>)
    ensures r.Ok? <==> |mercCoords| == 0
    ensures r.Ok? ==> r.value == {}
  {
    if |mercCoords| == 0 then Ok({}) else Err(AttributeOfNone("x"))
  }
}
