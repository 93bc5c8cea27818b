/**
 * The `Tile` value of mapper.py: a tile is identified by its (x, y, zoom)
 * triple, which is all that equality and hashing look at.
 */
module MapperTile {
  import opened Wrappers
  import opened Geometry

  /** The exceptions the modelled part of mapper.py raises. */
  datatype Error =
    | NegativeZoom                        // AssertionError from `assert zoom >= 0`
    | ZoomMismatch                        // ValueError raised by get_line
    | MixedZooms                          // ValueError raised by get_area
    | UnrecognizedTileType(tileType: string)
    | NameError(name: string)

  datatype Tile = Tile(x: int, y: int, zoom: nat)

  /** `Tile.from_google`: a tile built from tile indices; the zoom must not be negative. */
  function FromGoogle(x: int, y: int, zoom: int): (r: Result<Tile, Error>)
    ensures r.Ok? <==> zoom >= 0
    ensures r.Ok? ==> r.value.x == x && r.value.y == y && r.value.zoom == zoom
  {
    if zoom >= 0 then Ok(Tile(x, y, zoom)) else Err(NegativeZoom)
  }

  /** `Tile.__eq__`: holds exactly when the (x, y, zoom) triples are equal. */
  predicate Equals(a: Tile, b: Tile): (r: bool)
    ensures r <==> a == b
  {
    a.x == b.x && a.y == b.y && a.zoom == b.zoom
  }

  /**
   * `Tile.__hash__`: the arithmetic of the source on unbounded integers,
   * which multiplies out to one factor per field.
   */
  function Hash(t: Tile): (h: int)
    ensures h == 119 * (1 + 13 * t.x) * (1 + 43 * t.y) * (1 + 19 * t.zoom)
  {
    var r0 := 17;
    var r1 := r0 + r0 * t.x * 13;
    var r2 := r1 + r1 * t.y * 43;
    var r3 := r2 + r2 * t.zoom * 19;
    r3 * 7
  }

  /** Two tiles built by FromGoogle are equal exactly when their indices and zooms are. */
  lemma FromGoogleIdentity(x0: int, y0: int, z0: int, x1: int, y1: int, z1: int)
    requires z0 >= 0 && z1 >= 0
    ensures Equals(FromGoogle(x0, y0, z0).value, FromGoogle(x1, y1, z1).value)
            <==> (x0, y0, z0) == (x1, y1, z1)
  {
  }

  /** Equal tiles hash equally: the hash reads nothing but the identity triple. */
  lemma HashRespectsEquals(a: Tile, b: Tile)
    requires Equals(a, b)
    ensures Hash(a) == Hash(b)
  {
  }

  function Position(t: Tile): Point { Point(t.x, t.y) }

  function AtPoint(p: Point, zoom: nat): Tile { Tile(p.x, p.y, zoom) }

  /** The tiles at the given positions, all at one zoom level. */
  function AtZoom(ps: seq<Point>, zoom: nat): (r: seq<Tile>)
    ensures |r| == |ps|
    ensures forall i :: 0 <= i < |ps| ==> r[i] == AtPoint(ps[i], zoom)
  {
    seq(|ps|, (i: int) requires 0 <= i < |ps| => Tile(ps[i].x, ps[i].y, zoom))
  }
}
