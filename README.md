# Tile-grid geometry of the mapper tile downloader

This project models the integer core of a Google Maps tile downloader written in Python 2. A tile is identified by its column x, its row y and its zoom level. The modelled parts are:

- **mapper.py**
  - `Tile`'s identity: `from_google`, `__eq__` and `__hash__`.
  - `TileCalculator.get_line`: the simplified, error-accumulator form of Bresenham's line algorithm between two tiles. Both endpoints are included, and tiles of different zoom levels are refused.
  - `TileCalculator.get_area`: the empty and mixed-zoom checks, the scan for the furthest vertex in each direction, and the union of the vertices with the lines between consecutive vertices.
  - `TileDownloader`'s `TYPE_MAP` and the tile-type checks of `build_request` and `insert_tile`.
- **map-downloader.py**
  - `TileCoord.__eq__`.
  - The classic steep-swap Bresenham `get_line`, which brackets its output with the two endpoint tiles.
  - `get_area`, which fails on every non-empty input.
- **calculator.py**: the same classic `get_line` without the brackets.

All three line rasterisers are proved against one closed-form reference line, `Geometry.Line(p0, p1)`:

- The major axis is x when |dx| >= |dy|, otherwise y.
- Point i lies i steps from p0 along the major axis.
- Its offset along the minor axis is i · minor / major rounded to the nearest integer, with a tie rounded towards p0.

Against that line:

- mapper.py's `get_line` returns exactly `Line(tile0, tile1)`.
- The classic loop returns the first max(|dx|, |dy|) points of the line drawn from the *near* end to the *far* end. The near end is whichever endpoint the `x0 > x1` ordering puts first, in the frame after the steep swap. calculator.py returns exactly those points. map-downloader.py returns `[tile0] + those + [tile1]`.

The three variants therefore differ as follows:

- mapper.py has max(|dx|, |dy|) + 1 tiles, each endpoint once.
- calculator.py has max(|dx|, |dy|) tiles: the near endpoint and not the far one. Equal endpoints give nothing.
- map-downloader.py has max(|dx|, |dy|) + 2 tiles, with the near endpoint twice. Equal endpoints give `[tile0, tile1]`.
- The interior tiles can differ too. When the classic ordering reverses the endpoints and the line has a tie, the classic loop rounds the tie towards tile1, where mapper.py rounds it towards tile0. From (2, 1) to (0, 0), mapper.py passes (1, 1), while calculator.py emits (0, 0), (1, 0) (`Calculator.TieDiffersFromMapper`).

calculator.py's docstring (calculator.py:17) promises the tiles "excluding endpoints". The code includes the near endpoint and leaves out only the far one. The model follows the code: `ClassicLine.ClassicEndpoints` and `Calculator.GetLineShape` state what it does.

`get_area` in mapper.py reads `tile_vertices` at line 326. That name is defined nowhere, so every non-empty call with a single zoom raises NameError. `MapperArea.GetAreaAsWritten` models the code as written. `MapperArea.GetArea` models the evident intent, iterating over `vertices`. The rest of the model uses `GetArea`. Its scanline fill (mapper.py:333-335) is an empty TODO loop; the method keeps it as an empty loop.

Modules:

| module | file | what it holds |
|---|---|---|
| `Wrappers` | wrappers.dfy | `Option`, and `Result` for operations that raise |
| `Geometry` | geometry.dfy | points, the reference line and its properties |
| `MapperTile` | mapper_tile.dfy | mapper.py's `Tile` and the exceptions |
| `MapperTypes` | mapper_types.dfy | `TYPE_MAP` and the type checks |
| `MapperCalculator` | mapper_calculator.dfy | mapper.py's `get_line` |
| `MapperArea` | mapper_area.dfy | mapper.py's `get_area` |
| `Coords` | coords.dfy | `TileCoord` and `MercatorCoord` |
| `ClassicLine` | classic_line.dfy | the steep-swap loop shared by map-downloader.py and calculator.py |
| `Calculator` | calculator.dfy | calculator.py's `get_line` |
| `MapDownloader` | map_downloader.dfy | map-downloader.py's `get_line` and `get_area` |

The Mercator→tile conversion is floating-point. It is the parameter `project: Projection`, a function from (latitude, longitude, zoom) to tile indices. `MercatorCoord` is a class, because `get_line` overwrites the `zoom` field of both of its arguments.

## Model

| member | source | states |
|---|---|---|
| MapperTile.FromGoogle | mapper.py:33-79 | a Google tile keeps the given x, y and zoom, and a negative zoom fails the assertion |
| MapperTile.Equals | mapper.py:135-139 | `Tile.__eq__` holds exactly when the (x, y, zoom) triples are equal |
| MapperTile.Hash | mapper.py:127-133 | `Tile.__hash__` equals 119 · (1 + 13x) · (1 + 43y) · (1 + 19·zoom), one factor per field |
| MapperTile.FromGoogleIdentity | mapper.py:114-119 | two tiles from `from_google` are equal exactly when their x, y and zoom arguments are |
| MapperTile.HashRespectsEquals | mapper.py:121-133 | equal tiles have equal `__hash__` values, because the hash reads only x, y and zoom |
| MapperTypes.TypeCode | mapper.py:155-163 | a known type gives a one-letter code that decodes back to that type; an unknown type gives `UnrecognizedTileType` |
| MapperTypes.TypeForCodeInverts | mapper.py:155-163 | the letter-by-letter decoding and `TYPE_MAP` are inverse relations |
| MapperTypes.TypeCodeInjective | mapper.py:155-163 | distinct accepted types get distinct URL letters |
| MapperTypes.BuildRequest | mapper.py:261-268 | a request is built exactly for types in `TYPE_MAP`; it carries the decoded letter, the server number and the tile's x, y and zoom; an unknown type raises ValueError |
| MapperTypes.InsertRow | mapper.py:228-235 | a row is produced exactly for types in `TYPE_MAP` and holds the tile's x, y, zoom and the type name; an unknown type raises ValueError |
| MapperTypes.RequestAndInsertAgree | mapper.py:228-229 | `build_request` and `insert_tile` accept the same tile types |
| Geometry.LineNearSegment | mapper.py:343-349 | every point lies within half a step of the true segment along the minor axis, as Bresenham's algorithm promises |
| MapperCalculator.ErrorStep | mapper.py:376-384 | one pass of the loop body turns point i and its error term dx - dy + dx·oy - dy·ox into point i + 1 and its error term |
| MapperCalculator.WalkIsLine | mapper.py:366-384 | after i passes, the loop's position and `err` are point i of the reference line and its error term |
| MapperCalculator.WalkEnds | mapper.py:373-374 | the loop reaches (x1, y1) exactly at step max(\|dx\|, \|dy\|), so it stops there and nowhere earlier |
| MapperCalculator.GetLine | mapper.py:340-386 | different zooms raise ValueError; otherwise the result is the reference line from tile0 to tile1 at tile0's zoom |
| MapperCalculator.Move | mapper.py:376-384 | one pass of the loop's two conditional updates is the `Advance` step, the step that WalkIsLine proves keeps the loop on the reference line |
| MapperCalculator.LineTilesEnds | mapper.py:369-374 | the result starts at tile0, ends at tile1, has max(\|dx\|, \|dy\|) + 1 tiles, and every tile has tile0's zoom |
| MapperCalculator.LineTilesOfOne | mapper.py:369-374 | identical endpoints give exactly one tile |
| MapperCalculator.LineTilesConnected | mapper.py:376-384 | consecutive tiles are distinct 8-neighbours and no tile repeats |
| MapperCalculator.LineTilesSteps | mapper.py:378-384 | each pass moves x by 0 or by `sx` and y by 0 or by `sy`, never away from tile1 |
| MapperCalculator.LineTilesWithin | mapper.py:360-384 | every tile lies in the box spanned by tile0 and tile1 |
| MapperArea.FirstExtreme | mapper.py:305-320 | the kept vertex has no vertex strictly beyond it, and it lies strictly beyond every earlier vertex, so the first of equally far vertices wins |
| MapperArea.FirstExtremeUnique | mapper.py:305-320 | those two properties single out one vertex index |
| MapperArea.ScanStep | mapper.py:305-320 | one more vertex moves the scan on by one strict comparison |
| MapperArea.FindExtremes | mapper.py:301-320 | `left`, `right`, `top` and `bottom` are the first vertices of least x, greatest x, least y and greatest y; all are None when there are no vertices |
| MapperArea.GetArea | mapper.py:286-337 | no vertices give the empty set; mixed zooms raise ValueError; otherwise the result is the vertices plus the tiles of each line between consecutive vertices |
| MapperArea.GetAreaAsWritten | mapper.py:293-329 | as written, only the empty vertex list succeeds, with the empty set; mixed zooms raise ValueError; every other non-empty list raises NameError on `tile_vertices` |
| MapperArea.EdgeTileOfLine | mapper.py:326-329 | every tile of a line between consecutive vertices is in the union |
| MapperArea.EdgeTileOnLine | mapper.py:326-329 | every tile of the union lies on a line between consecutive vertices |
| MapperArea.EdgeTilesExactly | mapper.py:326-329 | a tile is in the line union exactly when it lies on a line between some two consecutive vertices |
| MapperArea.AreaTilesExactly | mapper.py:323-329 | a tile is in the area exactly when it is a vertex or lies on a line between consecutive vertices |
| MapperArea.AreaZoom | mapper.py:297-298 | every tile of the area has the vertices' common zoom |
| MapperArea.VertexWithinExtremes | mapper.py:305-320 | every vertex lies between the columns of `left` and `right` and the rows of `top` and `bottom` |
| MapperArea.EdgeWithinExtremes | mapper.py:305-329 | a point in the box of two consecutive vertices lies within those extreme rows and columns |
| MapperArea.AreaWithinExtremes | mapper.py:305-333 | every tile of the area lies within the extreme rows and columns |
| MapperArea.AreaOfOneVertex | mapper.py:323 | one vertex is its own area |
| MapperArea.AreaOfTwoVertices | mapper.py:323-329 | two vertices of one zoom give exactly the tiles of the line between them |
| MapperArea.ClosingEdgeOmitted | mapper.py:326-329 | the edge from the last vertex back to the first is not drawn: for (0,0), (2,0), (2,2) the tile (1,1) on that edge is missing |
| MapperArea.AsWrittenFailsOnOneVertex | mapper.py:326 | as written, a one-vertex polygon raises NameError, while its intended area is that vertex |
| Coords.Equals | map-downloader.py:134-138 | `TileCoord.__eq__` holds exactly when the (x, y, zoom) triples are equal |
| Coords.MercatorCoord.constructor | map-downloader.py:13-16 | a new coordinate holds the given latitude, longitude and zoom |
| Coords.MercatorCoord.Convert | map-downloader.py:18-49 | conversion gives the projected tile indices at the coordinate's own zoom |
| ClassicLine.ClassicErrorRange | calculator.py:44-67 | the loop invariant 0 <= error < deltax holds whenever deltax > 0 |
| ClassicLine.ClassicStep | calculator.py:63-67 | subtracting deltay, and adding deltax when the result is negative, gives the next step's error, with the row moving exactly when the error went negative |
| ClassicLine.ClimbStep | calculator.py:63-67 | the loop body keeps y and error equal to the reference line's row and error term for the next x |
| ClassicLine.FrameExtents | calculator.py:34-46 | after the steep swap and the ordering, x0 <= x1, x1 - x0 = max(\|dx\|, \|dy\|) and \|y1 - y0\| <= x1 - x0 |
| ClassicLine.FramePoint | calculator.py:34-61 | point i of the reference line from the near end, seen in the swapped frame, is (x0 + i, y0 moved Nearest(i) rows towards y1) |
| ClassicLine.Trace | calculator.py:28-67 | the loop appends the first max(\|dx\|, \|dy\|) points of the reference line from the near end to the far end, swapped back to the original orientation, at `zoom` |
| ClassicLine.Orient | calculator.py:34-42 | `steep` holds exactly when \|dy\| > \|dx\|; the returned endpoints are the two tiles in the frame whose major axis is x, ordered so that x0 <= x1 (FrameNear and FrameFar) |
| ClassicLine.ClassicLength | calculator.py:44-57 | the loop emits max(\|x1 - x0\|, \|y1 - y0\|) points |
| ClassicLine.ClassicOfOne | calculator.py:44-57 | identical endpoints emit nothing |
| ClassicLine.ClassicEndpoints | calculator.py:40-61 | of two distinct endpoints, the near one is emitted first and the far one never; p0 is emitted exactly when the ordering keeps it first |
| ClassicLine.ClassicPrimary | calculator.py:40-57 | the primary coordinate of point i is x0 + i, so it runs x0, x0 + 1, …, x1 - 1 |
| ClassicLine.ClassicSecondary | calculator.py:47-67 | from one point to the next, the secondary coordinate stays the same or moves by one `ystep` |
| ClassicLine.ClassicConnected | calculator.py:57-67 | consecutive points are distinct 8-neighbours and no point repeats |
| ClassicLine.ClassicWithin | calculator.py:36-61 | every emitted point lies in the box spanned by the two original endpoints |
| ClassicLine.ClassicTilesZoom | calculator.py:58-61 | every emitted coordinate carries the `zoom` argument |
| ClassicLine.ClassicIsLinePrefix | calculator.py:40-57 | when no endpoint swap happens, the emitted points are the reference line from p0 without its last point |
| Calculator.GetLine | calculator.py:14-69 | both inputs' zoom is set to `zoom` and nothing else of them changes; the result is the classic loop's output on the converted tiles |
| Calculator.GetLineShape | calculator.py:14-69 | the result has max(\|dx\|, \|dy\|) coordinates; equal tiles give none; of two distinct tiles only the near one appears |
| Calculator.TieDiffersFromMapper | calculator.py:34-67 | from (2, 1) to (0, 0) the loop emits (0, 0), (1, 0), while mapper.py's get_line (mapper.py:340-386) passes (1, 1): the reversed ordering rounds the tie the other way |
| MapDownloader.GetLine | map-downloader.py:315-373 | both inputs' zoom is set to `zoom`; the result is tile0, then the classic loop's output, then tile1 |
| MapDownloader.BracketedShape | map-downloader.py:358-373 | the result starts with tile0, ends with tile1 and has deltax + 2 entries, so equal tiles give [tile0, tile1] |
| MapDownloader.BracketedRepeatsNearEnd | map-downloader.py:358-363 | with distinct tiles, the second entry repeats the near endpoint, so one endpoint appears twice |
| MapDownloader.BracketedZoom | map-downloader.py:323-363 | every entry carries `zoom` |
| MapDownloader.GetArea | map-downloader.py:259-288 | no coordinates give the empty set; any other input fails reading `left.x` on None |

## Left out

- Floating-point conversions are not modelled: both branches of `Tile.__init__` (mapper.py:49-100), `MercatorCoord.convert` (map-downloader.py:18-49, coordinates.py:13-44), and `TileCoord.convert` in map-downloader.py and coordinates.py, with its latitude/longitude caps. The `logitude` typo is in the google branch of `Tile.__init__` (mapper.py:93) and in `TileCoord.convert` (map-downloader.py:105, coordinates.py:83). The Mercator-to-tile conversion is the `project` parameter; in Calculator.GetLine it stands for coordinates.py:13-44.
- MapperTile.FromGoogle and MapperCalculator.GetLine do not model the latitude/longitude computation of the google branch of `Tile.__init__`. That computation can fail: for x < 0 the normalising loop assigns the misspelt `logitude` (mapper.py:93) and raises NameError, and for a far-negative y `exp` (mapper.py:97) overflows. The model builds those tiles without failing.
- `Tile` is modelled by its x, y and zoom only. `tile_size`, latitude and longitude, and the "mercator" kind are left out. They play no part in equality, hashing or the tile calculations.
- The hashes of `TileCoord` and `MercatorCoord` are left out, because they hash floats. Equality of `MercatorCoord` is left out for the same reason.
- `TileDownloader.download` and `download_tile` are left out: they use threads, a queue, HTTP requests and file names.
- The sqlite write of `insert_tile`, and its image bytes and time stamp, are I/O. Only the type check and the row values are modelled.
- The URL text and user-agent header of `build_request` are left out. The request keeps the server number, the type letter and the tile.
- The scanline fill of mapper.py's `get_area` is an empty TODO loop. It adds no tiles, and no fill is invented.
- map-downloader.py's `get_area` is modelled only as failing on non-empty input. Its vertex conversion, line union and fill are not modelled, because it never gets past the first comparison. That it is declared without `@staticmethod` is not modelled either.
- The Flask servers, the JavaScript UI, downloader.py, TileDownloader.py, Coordinates.py and test_mapper.py are not part of this model. coordinates.py is modelled only through `MercatorCoord` and the `project` parameter. Its `TileCoord` defines no `__eq__`, so its tiles compare by identity; that equality is not modelled. test_mapper.py exercises classes that the modelled mapper.py does not define.
- MapperCalculator.GetLine applies the loop body's two conditional updates through the helper method `Move`. ClassicLine.Trace does the steep swap and the endpoint ordering in the helper method `Orient`. Both helpers carry out the same updates as the source, in the same order.
- ClassicLine.Trace is the loop that calculator.py and map-downloader.py both contain, modelled once. map-downloader.py's `line_list = [tile0]` start and its final append of `tile1` are added around it in MapDownloader.GetLine.

## Findings

| source | as written | input that shows it | evidently intended | confidence | as-written member | corrected member |
|---|---|---|---|---|---|---|
| mapper.py:326 | the line union reads `tile_vertices[0]`, a name defined nowhere in `get_area` | `get_area([Tile.from_google(0, 0, 1)])` raises NameError | iterate over `vertices`: the area is the vertices plus the lines between consecutive vertices | not executed; high | MapperArea.AsWrittenFailsOnOneVertex | MapperArea.AreaTilesExactly |
