/**
 * The tile types of `TileDownloader` in mapper.py: `TYPE_MAP` maps each
 * type name to the one-letter `v` parameter of the tile URL, and both
 * `build_request` and `insert_tile` refuse a type that is not a key.
 */
module MapperTypes {
  import opened Wrappers
  import opened MapperTile

  /** `TYPE_MAP`, keys spelled as in the source (including "sattelite_plain"). */
  const TypeMap: map<string, string> := map[
    "map" := "m",
    "terrain" := "p",
    "terrain_plain" := "t",
    "overlay" := "h",
    "satellite" := "y",
    "sattelite_plain" := "s",
    "bike" := "r"
  ]

  /** The type name a URL letter stands for, written out letter by letter. */
  function TypeForCode(code: string): Option<string> {
    if code == "m" then Some("map")
    else if code == "p" then Some("terrain")
    else if code == "t" then Some("terrain_plain")
    else if code == "h" then Some("overlay")
    else if code == "y" then Some("satellite")
    else if code == "s" then Some("sattelite_plain")
    else if code == "r" then Some("bike")
    else None
  }

  /** build_request's lookup of `v`: an unknown type raises ValueError. */
  function TypeCode(tileType: string): (r: Result<string, Error>)
    ensures r.Ok? <==> tileType in TypeMap
    ensures r.Ok? ==> |r.value| == 1 && TypeForCode(r.value) == Some(tileType)
    ensures r.Err? ==> r.error == UnrecognizedTileType(tileType)
  {
    if tileType in TypeMap then Ok(TypeMap[tileType]) else Err(UnrecognizedTileType(tileType))
  }

  /** Every letter names at most one type, and names one only through TypeMap. */
  lemma TypeForCodeInverts(code: string, tileType: string)
    ensures TypeForCode(code) == Some(tileType) <==> TypeCode(tileType) == Ok(code)
  {
  }

  /** Distinct accepted types get distinct letters. */
  lemma TypeCodeInjective(a: string, b: string)
    requires a in TypeMap && b in TypeMap && a != b
    ensures TypeCode(a).value != TypeCode(b).value
  {
    assert TypeForCode(TypeCode(a).value) == Some(a);
  }

  /** The request of build_request without its URL text: server, type letter and tile. */
  datatype Request = Request(server: int, v: string, x: int, y: int, zoom: nat)

  /**
   * `TileDownloader.build_request`: the server number random.randint(0, 3)
   * is a parameter; an unknown type raises ValueError.
   */
  function BuildRequest(tileType: string, tile: Tile, server: int): (r: Result<Request, Error>)
    requires 0 <= server <= 3
    ensures r.Ok? <==> tileType in TypeMap
    ensures r.Ok? ==> && TypeForCode(r.value.v) == Some(tileType)
                      && r.value.server == server
                      && (r.value.x, r.value.y, r.value.zoom) == (tile.x, tile.y, tile.zoom)
    ensures r.Err? ==> r.error == UnrecognizedTileType(tileType)
  {
    match TypeCode(tileType)
    case Ok(v) => Ok(Request(server, v, tile.x, tile.y, tile.zoom))
    case Err(e) => Err(e)
  }

  /** The row insert_tile writes, without its image bytes and time stamp. */
  datatype Row = Row(x: int, y: int, zoom: nat, kind: string)

  /** `TileDownloader.insert_tile` up to the database write: the type check and the row. */
  function InsertRow(tileType: string, tile: Tile): (r: Result<Row, Error>)
    ensures r.Ok? <==> tileType in TypeMap
    ensures r.Ok? ==> r.value == Row(tile.x, tile.y, tile.zoom, tileType)
    ensures r.Err? ==> r.error == UnrecognizedTileType(tileType)
  {
    if tileType !in TypeMap then Err(UnrecognizedTileType(tileType))
    else Ok(Row(tile.x, tile.y, tile.zoom, tileType))
  }

  /** A tile type that can be requested can be stored, and the other way round. */
  lemma RequestAndInsertAgree(tileType: string, tile: Tile, server: int)
    requires 0 <= server <= 3
    ensures BuildRequest(tileType, tile, server).Ok? <==> InsertRow(tileType, tile).Ok?
  {
  }
}
