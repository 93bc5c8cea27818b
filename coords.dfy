/**
 * The coordinate classes of map-downloader.py: `TileCoord`, an (x, y, zoom)
 * triple, and `MercatorCoord`, a latitude/longitude pair with a zoom level
 * that get_line overwrites before converting. coordinates.py's
 * `MercatorCoord` has the same fields and is modelled by the same class.
 */
module Coords {
  import opened Geometry

  datatype TileCoord = TileCoord(x: int, y: int, zoom: int)

  /** `TileCoord.__eq__`: holds exactly when the (x, y, zoom) triples are equal. */
  predicate Equals(a: TileCoord, b: TileCoord): (r: bool)
    ensures r <==> a == b
  {
    a.x == b.x && a.y == b.y && a.zoom == b.zoom
  }

  function Pos(t: TileCoord): Point { Point(t.x, t.y) }

  function CoordAt(p: Point, zoom: int): TileCoord { TileCoord(p.x, p.y, zoom) }

  /** The tile coordinates at the given positions, all at one zoom level. */
  function CoordsAt(ps: seq<Point>, zoom: int): (r: seq<TileCoord>)
    ensures |r| == |ps|
    ensures forall i :: 0 <= i < |ps| ==> r[i] == CoordAt(ps[i], zoom)
  {
    seq(|ps|, (i: int) requires 0 <= i < |ps| => CoordAt(ps[i], zoom))
  }

  /**
   * The floating-point Mercator-to-tile conversion: latitude, longitude and
   * zoom to the tile indices (x, y).
   */
  type Projection = (real, real, int) -> (int, int)

  class MercatorCoord {
    var latitude: real
    var longitude: real
    var zoom: int

    constructor (lat: real, lon: real, zoom: int)
      ensures latitude == lat && longitude == lon && this.zoom == zoom
    {
      latitude := lat;
      longitude := lon;
      this.zoom := zoom;
    }

    /** `MercatorCoord.convert`: the tile holding this coordinate at its own zoom. */
    function Convert(project: Projection): (t: TileCoord)
      reads this
      ensures t.zoom == zoom
      ensures (t.x, t.y) == project(latitude, longitude, zoom)
    {
      var xy := project(latitude, longitude, zoom);
      TileCoord(xy.0, xy.1, zoom)
    }
  }
}
