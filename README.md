# Route engine and tile cache of the HovedOpgave map game

This project models the bookkeeping core of a Unity location game. A player
walks a generated route on a map assembled from vector tiles. The model
covers four parts of that core.

- **The route engine** (`Route`, module `Routing`, file `route.dfy`). It
  builds the query for the routing service: the player's position serves as
  both start and end, then come the via points joined by `%20`, then the
  fixed walking profile. It then handles the answer. A body holding `Error`,
  or a distance outside 0.8 to 1.2 times the requested length, makes it ask
  for new via points. Otherwise it keeps the route, with each point taken
  relative to the centre of the tile of the first point, and records the
  distance and the estimated time.
- **The tile cache** (`TileManager`, module `TileCache`, file
  `tile_manager.dfy`). It walks the (2r+1) x (2r+1) square of tile indices
  around a centre tile. It creates a tile, and issues one fetch, only for an
  index that is not yet a key of its dictionary.
- **The conversion helpers** (module `Extensions`, file `extensions.dfy`).
  These are the plane/ground-plane swizzles, a per-axis truncated Manhattan
  distance, and the road-name and road-width tables.
- **The route-start button** (module `UiController`, file
  `ui_controller.dfy`). It maps 2, 5 and 10 km to the three route lengths
  and is guarded by the presence of a world map.

`geometry.dfy` (module `Geometry`) holds the shared value types. Unity's
vectors become datatypes over reals, and tile indices become integer pairs.
The projection library `GM` is not part of this model: its three functions
are a `GeoMath` value of function type that the model takes as input.
C#'s float-to-string conversion is likewise an input `fmt`.

Effects that leave the process are recorded as logs on the objects:
- `Route.requests`: every routing query sent;
- `Route.recalculations`: every call to `RouteManager.RecalculateViaPoints`;
- `TileManager.fetches`: every tile request.

An asynchronous answer becomes a later call of `ConvertAPIData`. That call
takes the body text plus what the route extractor reads from the body.

Where the written behaviour of the code and the intended behaviour of the
system differ, the model follows the code:
- `LoadAPIData` cuts three characters off the via string with
  `Remove(Length - 3)`. With no via point that call throws, so no request
  is sent (`FormatViaPoints` returns `None`). An empty via list therefore
  never reaches the routing service.
- The rejection test uses strict comparisons, so both ends of the band,
  exactly 0.8 and exactly 1.2 times the target, are accepted.
- An answer within tolerance but with no point throws when it reads point 0.
  By then `routeLatLongs` has already been replaced, and nothing else
  changes (`RouteEmpty`).

## Model

| member | source | states |
|---|---|---|
| Routing.TargetMetres | EgenMapTest/Assets/Scripts/Routeting/Route.cs:167 | the target is 1000 times the length's integer value: 2000, 5000 or 10000 metres |
| Routing.TrailingIsJoinPlusSeparator | EgenMapTest/Assets/Scripts/Routeting/Route.cs:97-100 | for a non-empty via list, the string the loop accumulates is the `%20`-joined via string followed by one extra `%20` |
| Routing.FormatViaPoints | EgenMapTest/Assets/Scripts/Routeting/Route.cs:94-102 | building the via string fails exactly when the via list is empty (`Remove(-3)` throws); otherwise the result is each point as `y,x` joined by `%20`, with no trailing separator |
| Routing.JoinViaSeparators | EgenMapTest/Assets/Scripts/Routeting/Route.cs:97-102 | n via points give exactly n - 1 separators, provided the number formatter writes no `%` |
| Routing.ViaExample | EgenMapTest/Assets/Scripts/Routeting/Route.cs:99-102 | points (10,20) and (11,21) give `20,10%2021,11` |
| Routing.QueryParameters | EgenMapTest/Assets/Scripts/Routeting/Route.cs:90-105 | start and end are the same `y,x` text, followed by `en`, `M`, `Pedestrian`, `Recommended` in template order |
| Routing.ContainsIffOccurs | EgenMapTest/Assets/Scripts/Routeting/Route.cs:157 | the substring test used for the `Error` marker holds iff the marker occurs at some index of the body |
| Routing.ToleranceIsClosedBand | EgenMapTest/Assets/Scripts/Routeting/Route.cs:167 | the negated strict rejection test is exactly the closed band 0.8·target ≤ distance ≤ 1.2·target |
| Routing.InBandIsPositive | EgenMapTest/Assets/Scripts/Routeting/Route.cs:167 | an accepted distance is at least 1600 m, so never zero |
| Routing.ToleranceExamples | EgenMapTest/Assets/Scripts/Routeting/Route.cs:167 | for a 5 km route: 4000 m and 6000 m pass, 3950 m and 6050 m fail, 5200 m passes and 7000 m fails |
| Routing.Classify | EgenMapTest/Assets/Scripts/Routeting/Route.cs:157-176 | the answer is a service error iff the body holds `Error`; it is out of tolerance iff there is no marker and the distance is outside the band; it is accepted iff there is no marker, the distance is in the band and the route has a point |
| Routing.LocalPolyline | EgenMapTest/Assets/Scripts/Routeting/Route.cs:176-188 | one local point per route point; point i is its Mercator projection minus the centre of the tile that holds point 0 |
| Routing.FirstPointRelativeToItsTile | EgenMapTest/Assets/Scripts/Routeting/Route.cs:176-188 | the first local point is the origin iff the first route point projects onto the centre of its own tile |
| Routing.Route.constructor | EgenMapTest/Assets/Scripts/Routeting/Route.cs:26-35 | a new route is not loaded, has distance 0, zoom 16, no local points, and has sent and signalled nothing |
| Routing.Route.Initialize | EgenMapTest/Assets/Scripts/Routeting/Route.cs:70-83 | stores the via list, zoom, length and start; clears the loaded flag and the distance; sends one query iff the via list is non-empty; keeps the route lists, the time and the signals |
| Routing.Route.LoadAPIData | EgenMapTest/Assets/Scripts/Routeting/Route.cs:90-111 | appends exactly the query for this start and via list to the request log iff the via list is non-empty; changes nothing else |
| Routing.Route.FailToGetRouteAPIData | EgenMapTest/Assets/Scripts/Routeting/Route.cs:117-120 | a failed fetch changes no field |
| Routing.Route.ConvertAPIData | EgenMapTest/Assets/Scripts/Routeting/Route.cs:126-194 | the outcome is `Classify` of the answer. On a service error or out-of-tolerance answer: one recalculation is signalled with the stored start and length, and no route field changes. On an empty route: only `routeLatLongs` changes. On acceptance: the route, distance and seconds are the extracted ones, the flag is set, and the local points grow by exactly `LocalPolyline` of the route with earlier entries kept. In every case the request parameters are kept and a loaded route stays in the band |
| Routing.Route.AppendRelative | EgenMapTest/Assets/Scripts/Routeting/Route.cs:183-188 | the loop appends `LocalPolyline` of the route to the local points, keeping earlier entries |
| Routing.Route.Retry | EgenMapTest/Assets/Scripts/Routeting/Route.cs:202-207 | replaces only the via list and sends one query iff it is non-empty; the length, stored start, flag, distance and route lists are kept |
| Routing.AcceptedMiddleRoute | EgenMapTest/Assets/Scripts/Routeting/Route.cs:157-193 | a 5 km request answered with 5200 m, 3600 s and three points is accepted, loaded, holds three local points and an estimated 3600 s |
| Routing.RejectedMiddleRoute | EgenMapTest/Assets/Scripts/Routeting/Route.cs:165-172 | the same request answered with 7000 m is refused: exactly one recalculation, from the stored start with the 5 km length, and nothing is loaded |
| TileCache.FetchLog | EgenMapTest/Assets/Scripts/TileManager.cs:94-96 | one request per created index, in order, each with parameters layers, zoom, x, y, format, key |
| TileCache.AddTilesContents | EgenMapTest/Assets/Scripts/TileManager.cs:76-86 | adding tiles for a list of indices gives exactly the old keys plus the listed ones; a listed key holds the tile created for its own index, and an unlisted old key keeps its entry |
| TileCache.SquareOrderMembers | EgenMapTest/Assets/Scripts/TileManager.cs:56-60 | the nested loops visit exactly the indices (c.x+i, c.y+j) with -range ≤ i, j ≤ range |
| TileCache.SquareOrderShape | EgenMapTest/Assets/Scripts/TileManager.cs:56-60 | the loops visit no index twice and visit (2·range+1)² indices, 9 for range 1 |
| TileCache.MissingExactlyNew | EgenMapTest/Assets/Scripts/TileManager.cs:61-63 | the walk creates each index that is visited and not yet a key, exactly once, and creates nothing else |
| TileCache.ReloadCreatesNothing | EgenMapTest/Assets/Scripts/TileManager.cs:61-63 | when every index of the square is already a key, the walk creates nothing and issues no fetch |
| TileCache.FreshSquare | EgenMapTest/Assets/Scripts/TileManager.cs:36-63 | from an empty dictionary every visited index is created, in visiting order, and the dictionary ends with (2·range+1)² keys |
| TileCache.CentreTileAtOrigin | EgenMapTest/Assets/Scripts/TileManager.cs:76-88 | the tile whose centre is the map origin is placed at (0, 0, 0) |
| TileCache.LoadTilesEffect | EgenMapTest/Assets/Scripts/TileManager.cs:54-66 | after the walk, a key is present iff it was before or lies in the square; old entries are kept; every entry is the tile of its own index |
| TileCache.TileManager.constructor | EgenMapTest/Assets/Scripts/TileManager.cs:19-24 | zoom 16, range 1, an empty dictionary and no fetches |
| TileCache.TileManager.Initialize | EgenMapTest/Assets/Scripts/TileManager.cs:26-52 | the centre tile is the projection of the configured position; zoom, range and image flag come from the settings. The dictionary holds exactly the square around the centre, (2·range+1)² tiles, and one fetch per tile is issued in visiting order. The centre tile sits at the origin |
| TileCache.TileManager.LoadTiles | EgenMapTest/Assets/Scripts/TileManager.cs:54-66 | every index of the square becomes a key; no key is removed and no other key is added; existing entries are not replaced. One fetch is issued for each new index, in visiting order, and none for existing ones. A square that is already loaded changes nothing |
| TileCache.TileManager.LoadRow | EgenMapTest/Assets/Scripts/TileManager.cs:58-64 | the inner loop for one column extends the walk by that column and creates exactly the indices of it that are missing |
| TileCache.TileManager.VisitTile | EgenMapTest/Assets/Scripts/TileManager.cs:60-63 | an index that is already a key is skipped; otherwise its tile is created and fetched |
| TileCache.TileManager.CreateTile | EgenMapTest/Assets/Scripts/TileManager.cs:74-92 | adds the tile for the new index, with the manager's zoom, its own index, its tile centre and its offset from the map origin, and issues its fetch |
| TileCache.TileManager.LoadTile | EgenMapTest/Assets/Scripts/TileManager.cs:94-101 | appends one fetch with parameters layers, zoom, x, y, format, key |
| TileCache.NineTilesThenReload | EgenMapTest/Assets/Scripts/TileManager.cs:26-66 | with range 1, initialising creates and fetches nine tiles, and walking the same centre again adds neither tiles nor fetches |
| Extensions.ManhattanTo | TechRun_Project/Assets/Helpers/Extensions.cs:11-14 | the distance is non-negative and undercounts the real Manhattan distance by less than two, because each axis is truncated |
| Extensions.ManhattanSymmetric | TechRun_Project/Assets/Helpers/Extensions.cs:11-14 | the distance is symmetric |
| Extensions.ManhattanToSelf | TechRun_Project/Assets/Helpers/Extensions.cs:11-14 | the distance from a vector to itself is 0 |
| Extensions.ManhattanTruncatesPerAxis | TechRun_Project/Assets/Helpers/Extensions.cs:13 | (0,0) to (0.6,0.6) gives 0, while truncating the summed distance would give 1 |
| Extensions.ToVector2xz | TechRun_Project/Assets/Helpers/Extensions.cs:16-19 | keeps x and takes z as the plane's y |
| Extensions.ToVector3xz | TechRun_Project/Assets/Helpers/Extensions.cs:21-24 | the lifted vector lies at height 0 and projects back to the original |
| Extensions.LiftOfProjection | TechRun_Project/Assets/Helpers/Extensions.cs:16-24 | projecting then lifting gives the original vector iff its y is 0 |
| Extensions.ToRoadType | TechRun_Project/Assets/Helpers/Extensions.cs:47-64 | each of the five names maps to its road type, and every other string maps to PATH |
| Extensions.RoadNameRoundTrip | TechRun_Project/Assets/Helpers/Extensions.cs:47-64 | every road type is recovered from its own name |
| Extensions.ToWidthFloat | TechRun_Project/Assets/Helpers/Extensions.cs:66-83 | highway 10, major road 5, minor road and rail 3, path 2; every width lies in [2, 10] |
| Extensions.WidthOrder | TechRun_Project/Assets/Helpers/Extensions.cs:66-83 | highway is wider than major road, which is wider than minor road; minor road equals rail, which is wider than path |
| Extensions.UnknownRoadWidth | TechRun_Project/Assets/Helpers/Extensions.cs:47-83 | a road whose name is not recognised is drawn with width 2 |
| UiController.ButtonLength | EgenMapTest/Assets/Scripts/UIController.cs:125-137 | a length is selected iff the input is 2, 5 or 10, and the selected length's value is the input |
| UiController.ClickStartRoute | EgenMapTest/Assets/Scripts/UIController.cs:121-141 | route generation starts iff a map is present and the input is 2, 5 or 10; it starts once, with the length whose value is the input |
| UiController.ClickRoundTrip | EgenMapTest/Assets/Scripts/UIController.cs:126-140 | each of SHORT, MIDDLE and LONG is started by the button carrying its own kilometres |
| UiController.NoMapNoRoute | EgenMapTest/Assets/Scripts/UIController.cs:123 | without a map, no input starts a route |
| UiController.ClickTarget | EgenMapTest/Assets/Scripts/UIController.cs:140 | a started route's target is 1000 times the clicked input, in metres (the target is computed at Route.cs:167) |

## Left out

- The HTTP requests (`ObservableWWW.Get`) are not modelled as I/O. Each request is appended to a log, and each answer is a later call with its body.
- The projection functions `GM.LatLonToMeters`, `GM.MetersToTile` and `GM.TileBounds` are not part of this model. They are function-valued inputs, and no projection fact is proved.
- `LatLonToTile` and `TileToLatLon` are not modelled. They are floating-point trigonometry.
- Float-to-string formatting is an input function. Single-precision floats are reals, and the tolerance factors `1.2f` and `0.8f` are the exact decimals.
- The routing-service extractor `APIDataExtractor` is not part of this model. Its result is an input of `ConvertAPIData`.
- `RouteManager` is not part of this model. `RecalculateViaPoints` is recorded as a signal in `recalculations`.
- `Tile.Initialize` and `Tile.ConstructTile` are not part of this model. A tile is its settings plus its world position, and a fetch's completion is not modelled.
- Unity scene-graph work is not modelled: game objects, parenting, the debug sphere, `print` and `Debug.Log`.
- The coroutine around `CreateTile` is not modelled. It runs to its first `yield` at once, so the model performs the insert and the fetch synchronously.
- Tile keys are integer pairs rather than float `Vector2` keys. Float keys compare exactly, so the integer model assumes tile coordinates that floats represent exactly.
- Routing.Route.constructor: the C# field `length` starts at the enum's unnamed value 0. The model starts it at SHORT, and no contract depends on it.
- Routing.Route.ConvertAPIData: `TimeSpan(0, 0, s)` is kept as the number of seconds. The range limits of `TimeSpan` are not modelled.
- Extensions.ManhattanTo: the `(int)` cast is modelled as truncation of an unbounded value. Overflow for distances beyond the 32-bit range is not modelled.
- Extensions.ToWidthFloat: the trailing `return 2` after the switch is not modelled. It is unreachable for the five enum values.
- TileCache.TileManager.CreateTile: `Dictionary.Add` throws on a duplicate key. The model makes a fresh index a precondition, which `LoadTiles` always meets.
- `centerMerc`, the `_centerInMercator` parameter of `LoadTiles` and `CreateTile`, is passed along unused, as in the code. The tile position uses the field `centerInMercator`.
- The `Url` template's flag suffix is carried as a constant. No property of the formatted URL string beyond its seven parameters is stated.
- The rest of the repository is not part of this model: `User`, `WorldMap`, `ErrorPanel`, `BasketBall`, and the rest of `UIController` (including scene loading).
