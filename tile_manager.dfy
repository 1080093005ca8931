/** The tile cache: a dictionary from tile index to tile, filled with the
    (2r+1) x (2r+1) square of tiles around a centre tile. A tile is created
    and fetched only if its index is not yet a key. */
module TileCache {
  import opened Geometry
  import opened Extensions

  const MapzenKey := "mapzen-ncia6gL"
  const MapzenLayer := "buildings,roads"
  const MapzenFormat := "json"

  /** What WorldMap.Settings supplies to Initialize. */
  datatype MapSettings = MapSettings(
    latitude: real, longtitude: real, detailLevel: int, range: int, loadImages: bool)

  /** The settings a new tile is created with (Tile.Settings). */
  datatype TileSettings = TileSettings(
    zoom: int, tileTMS: TileIndex, tileCenter: Vector2, loadImages: bool)

  /** The positional parameters of one tile request, in the order of the URL
      template: layers, zoom, x, y, format, key. */
  datatype TileFetch = TileFetch(
    layers: string, zoom: int, x: int, y: int, format: string, key: string)

  /** A created tile: its settings and its world position, the offset of its
      centre from the map origin laid on the ground plane. */
  datatype Tile = Tile(settings: TileSettings, position: Vector3)

  /** The tile CreateTile makes for index k, with the map origin `origin`. */
  function TileFor(gm: GeoMath, zoom: int, loadImages: bool, origin: Vector2, k: TileIndex): Tile
  {
    var centre := gm.tileCenter(k, zoom);
    Tile(TileSettings(zoom, k, centre, loadImages), ToVector3xz(Minus(centre, origin)))
  }

  function FetchFor(zoom: int, k: TileIndex): TileFetch
  {
    TileFetch(MapzenLayer, zoom, k.x, k.y, MapzenFormat, MapzenKey)
  }

  /** One request per index, in order. */
  function FetchLog(zoom: int, ks: seq<TileIndex>): (log: seq<TileFetch>)
    ensures |log| == |ks|
    ensures forall i :: 0 <= i < |ks| ==> log[i] == FetchFor(zoom, ks[i])
  {
    seq(|ks|, i requires 0 <= i < |ks| => FetchFor(zoom, ks[i]))
  }

  lemma FetchLogSnoc(zoom: int, ks: seq<TileIndex>, k: TileIndex)
    ensures FetchLog(zoom, ks + [k]) == FetchLog(zoom, ks) + [FetchFor(zoom, k)]
  {
  }

  lemma SnocAssociates<T>(a: seq<T>, b: seq<T>, x: T)
    ensures (a + b) + [x] == a + (b + [x])
  {
  }

  /** The dictionary after adding a fresh tile for each index of `ks`, in order. */
  function AddTiles(gm: GeoMath, zoom: int, loadImages: bool, origin: Vector2,
                    m: map<TileIndex, Tile>, ks: seq<TileIndex>): map<TileIndex, Tile>
  {
    if ks == [] then m
    else
      var last := ks[|ks| - 1];
      AddTiles(gm, zoom, loadImages, origin, m, ks[..|ks| - 1])[last := TileFor(gm, zoom, loadImages, origin, last)]
  }

  lemma AddTilesSnoc(gm: GeoMath, zoom: int, loadImages: bool, origin: Vector2,
                     m: map<TileIndex, Tile>, ks: seq<TileIndex>, k: TileIndex)
    ensures AddTiles(gm, zoom, loadImages, origin, m, ks + [k])
         == AddTiles(gm, zoom, loadImages, origin, m, ks)[k := TileFor(gm, zoom, loadImages, origin, k)]
  {
    assert (ks + [k])[..|ks|] == ks;
  }

  /** Adding tiles keeps every key and entry not in `ks`, and every added
      entry is the fresh tile for its index. */
  lemma {:induction false} AddTilesContents(gm: GeoMath, zoom: int, loadImages: bool, origin: Vector2,
                                            m: map<TileIndex, Tile>, ks: seq<TileIndex>, k: TileIndex)
    ensures k in AddTiles(gm, zoom, loadImages, origin, m, ks) <==> k in m || k in ks
    ensures k in ks ==> AddTiles(gm, zoom, loadImages, origin, m, ks)[k] == TileFor(gm, zoom, loadImages, origin, k)
    ensures k in m && k !in ks ==> AddTiles(gm, zoom, loadImages, origin, m, ks)[k] == m[k]
  {
    if ks != [] {
      var init := ks[..|ks| - 1];
      assert ks == init + [ks[|ks| - 1]];
      AddTilesContents(gm, zoom, loadImages, origin, m, init, k);
    }
  }

  // ---------------------------------------------------------------------
  // The square walked by LoadTiles

  /** Number of offsets in -r..r. */
  function Side(r: int): nat
  {
    if r >= 0 then 2 * r + 1 else 0
  }

  /** The first n steps of the inner loop for offset i: (c.x+i, c.y+j) for
      j = -r .. -r+n-1. */
  function RowPrefix(c: TileIndex, i: int, r: int, n: nat): seq<TileIndex>
  {
    if n == 0 then [] else RowPrefix(c, i, r, n - 1) + [TileIndex(c.x + i, c.y - r + n - 1)]
  }

  /** The whole inner loop for offset i. */
  function Row(c: TileIndex, i: int, r: int): seq<TileIndex>
  {
    RowPrefix(c, i, r, Side(r))
  }

  /** The first n rows of the outer loop, i = -r .. -r+n-1. */
  function Rows(c: TileIndex, r: int, n: nat): seq<TileIndex>
  {
    if n == 0 then [] else Rows(c, r, n - 1) + Row(c, -r + n - 1, r)
  }

  /** Every index the nested loops of LoadTiles visit, in visiting order. */
  function SquareOrder(c: TileIndex, r: int): seq<TileIndex>
  {
    Rows(c, r, Side(r))
  }

  /** One inner step extends the walk by the index (c.x+i, c.y+j). */
  lemma WalkStep(c: TileIndex, r: int, i: int, j: int, n: nat, before: seq<TileIndex>)
    requires n == j + r
    ensures before + RowPrefix(c, i, r, n + 1)
         == (before + RowPrefix(c, i, r, n)) + [TileIndex(c.x + i, c.y + j)]
  {
    assert RowPrefix(c, i, r, n + 1) == RowPrefix(c, i, r, n) + [TileIndex(c.x + i, c.y + j)];
    SnocAssociates(before, RowPrefix(c, i, r, n), TileIndex(c.x + i, c.y + j));
  }

  /** One outer step appends the whole row for offset i. */
  lemma RowsStep(c: TileIndex, r: int, i: int, m: nat)
    requires -r <= i <= r && m == i + r
    ensures Rows(c, r, m + 1) == Rows(c, r, m) + RowPrefix(c, i, r, Side(r))
  {
  }

  /** When the outer loop exits, the walk is the whole square. */
  lemma WalkDone(c: TileIndex, r: int, i: int, m: nat)
    requires -r <= i && (r >= 0 ==> i == r + 1) && (r < 0 ==> i == -r) && m == i + r
    ensures Rows(c, r, m) == SquareOrder(c, r)
  {
  }

  predicate InSquare(c: TileIndex, r: int, k: TileIndex)
  {
    -r <= k.x - c.x <= r && -r <= k.y - c.y <= r
  }

  predicate Distinct<T(==)>(s: seq<T>)
  {
    forall a, b :: 0 <= a < b < |s| ==> s[a] != s[b]
  }

  lemma {:induction false} RowPrefixMembers(c: TileIndex, i: int, r: int, n: nat, k: TileIndex)
    ensures k in RowPrefix(c, i, r, n) <==> k.x == c.x + i && -r <= k.y - c.y < -r + n
  {
    if n > 0 {
      RowPrefixMembers(c, i, r, n - 1, k);
    }
  }

  lemma RowMembers(c: TileIndex, i: int, r: int, k: TileIndex)
    ensures k in Row(c, i, r) <==> r >= 0 && k.x == c.x + i && -r <= k.y - c.y <= r
  {
    RowPrefixMembers(c, i, r, Side(r), k);
  }

  lemma {:induction false} RowPrefixDistinct(c: TileIndex, i: int, r: int, n: nat)
    ensures Distinct(RowPrefix(c, i, r, n))
    ensures |RowPrefix(c, i, r, n)| == n
  {
    if n > 0 {
      RowPrefixDistinct(c, i, r, n - 1);
      RowPrefixMembers(c, i, r, n - 1, TileIndex(c.x + i, c.y - r + n - 1));
    }
  }

  lemma {:induction false} RowsMembers(c: TileIndex, r: int, n: nat, k: TileIndex)
    ensures k in Rows(c, r, n) <==> r >= 0 && -r <= k.x - c.x < -r + n && -r <= k.y - c.y <= r
  {
    if n > 0 {
      RowsMembers(c, r, n - 1, k);
      RowMembers(c, -r + n - 1, r, k);
    }
  }

  /** The loops visit exactly the square. */
  lemma SquareOrderMembers(c: TileIndex, r: int, k: TileIndex)
    ensures k in SquareOrder(c, r) <==> InSquare(c, r, k)
  {
    RowsMembers(c, r, Side(r), k);
  }

  lemma {:induction false} RowsLength(c: TileIndex, r: int, n: nat)
    ensures |Rows(c, r, n)| == n * Side(r)
  {
    if n > 0 {
      RowsLength(c, r, n - 1);
      RowPrefixDistinct(c, -r + n - 1, r, Side(r));
      assert (n - 1) * Side(r) + Side(r) == n * Side(r);
    }
  }

  /** The loops visit no index twice. */
  lemma {:induction false} RowsDistinct(c: TileIndex, r: int, n: nat)
    ensures Distinct(Rows(c, r, n))
  {
    if n > 0 {
      RowsDistinct(c, r, n - 1);
      RowPrefixDistinct(c, -r + n - 1, r, Side(r));
      var front, row := Rows(c, r, n - 1), Row(c, -r + n - 1, r);
      forall a | 0 <= a < |front|
        ensures front[a] !in row
      {
        RowsMembers(c, r, n - 1, front[a]);
        RowMembers(c, -r + n - 1, r, front[a]);
      }
      assert Rows(c, r, n) == front + row;
    }
  }

  /** The square holds (2r+1)^2 distinct indices, 9 for r = 1. */
  lemma SquareOrderShape(c: TileIndex, r: int)
    ensures Distinct(SquareOrder(c, r))
    ensures |SquareOrder(c, r)| == Side(r) * Side(r)
    ensures r == 1 ==> |SquareOrder(c, r)| == 9
  {
    RowsDistinct(c, r, Side(r));
    RowsLength(c, r, Side(r));
  }

  // ---------------------------------------------------------------------
  // De-duplication

  /** The indices of `order` that are created, in order: those not already
      present and not met earlier in `order`. */
  function Missing<T(==)>(present: set<T>, order: seq<T>): seq<T>
    decreases |order|
  {
    if order == [] then []
    else if order[0] in present then Missing(present, order[1..])
    else [order[0]] + Missing(present + {order[0]}, order[1..])
  }

  /** Visiting one more index adds it iff it was neither present nor visited. */
  lemma {:induction false} MissingSnoc<T>(present: set<T>, order: seq<T>, x: T)
    ensures Missing(present, order + [x]) ==
            Missing(present, order) + (if x in present || x in order then [] else [x])
    decreases |order|
  {
    if order == [] {
      assert [x][1..] == [];
    } else {
      assert (order + [x])[1..] == order[1..] + [x];
      if order[0] in present {
        MissingSnoc(present, order[1..], x);
      } else {
        MissingSnoc(present + {order[0]}, order[1..], x);
      }
    }
  }

  /** The created indices are the new ones, each exactly once. */
  lemma {:induction false} MissingExactlyNew<T>(present: set<T>, order: seq<T>)
    ensures Distinct(Missing(present, order))
    ensures forall k :: k in Missing(present, order) <==> k in order && k !in present
    ensures forall k :: k in Missing(present, order) ==> k !in present
    decreases |order|
  {
    if order != [] {
      var rest := order[1..];
      if order[0] in present {
        MissingExactlyNew(present, rest);
        assert order == [order[0]] + rest;
      } else {
        MissingExactlyNew(present + {order[0]}, rest);
        assert order == [order[0]] + rest;
      }
    }
  }

  /** When every index is already present, nothing is created. */
  lemma {:induction false} MissingOfPresent<T>(present: set<T>, order: seq<T>)
    requires forall k :: k in order ==> k in present
    ensures Missing(present, order) == []
  {
    if order != [] {
      MissingOfPresent(present, order[1..]);
    }
  }

  /** When no index is present and none repeats, every index is created. */
  lemma {:induction false} MissingOfFresh<T>(present: set<T>, order: seq<T>)
    requires Distinct(order)
    requires forall k :: k in order ==> k !in present
    ensures Missing(present, order) == order
    decreases |order|
  {
    if order != [] {
      MissingOfFresh(present + {order[0]}, order[1..]);
    }
  }

  lemma {:induction false} DistinctCardinality<T>(s: seq<T>)
    requires Distinct(s)
    ensures |set k | k in s| == |s|
  {
    if s != [] {
      DistinctCardinality(s[1..]);
      assert (set k | k in s) == {s[0]} + (set k | k in s[1..]);
    }
  }

  /** A second walk around the same centre creates nothing: it adds no key
      and issues no request. */
  lemma ReloadCreatesNothing(present: set<TileIndex>, c: TileIndex, r: int, zoom: int)
    requires forall k :: InSquare(c, r, k) ==> k in present
    ensures Missing(present, SquareOrder(c, r)) == []
    ensures FetchLog(zoom, Missing(present, SquareOrder(c, r))) == []
  {
    forall k | k in SquareOrder(c, r)
      ensures k in present
    {
      SquareOrderMembers(c, r, k);
    }
    MissingOfPresent(present, SquareOrder(c, r));
  }

  /** From an empty dictionary the walk creates every index of the square,
      in order, and the dictionary ends with (2r+1)^2 keys. */
  lemma FreshSquare(c: TileIndex, r: int, keys: set<TileIndex>)
    requires forall k :: k in keys <==> InSquare(c, r, k)
    ensures Missing({}, SquareOrder(c, r)) == SquareOrder(c, r)
    ensures |keys| == Side(r) * Side(r)
  {
    SquareOrderShape(c, r);
    MissingOfFresh({}, SquareOrder(c, r));
    forall k
      ensures k in keys <==> k in SquareOrder(c, r)
    {
      SquareOrderMembers(c, r, k);
    }
    assert keys == set k | k in SquareOrder(c, r);
    DistinctCardinality(SquareOrder(c, r));
  }

  /** The tile whose centre is the map origin sits at (0, 0, 0). */
  lemma CentreTileAtOrigin(gm: GeoMath, zoom: int, loadImages: bool, c: TileIndex)
    ensures TileFor(gm, zoom, loadImages, gm.tileCenter(c, zoom), c).position == Vector3(0.0, 0.0, 0.0)
  {
  }

  /** The walk of LoadTiles, key by key: it keeps every tile, adds a fresh
      tile for exactly the indices of the square that were missing, and keeps
      every tile the one of its own index. */
  lemma LoadTilesEffect(gm: GeoMath, zoom: int, loadImages: bool, origin: Vector2,
                        m: map<TileIndex, Tile>, c: TileIndex, r: int,
                        m': map<TileIndex, Tile>)
    requires forall k :: k in m ==> m[k] == TileFor(gm, zoom, loadImages, origin, k)
    requires m' == AddTiles(gm, zoom, loadImages, origin, m, Missing(m.Keys, SquareOrder(c, r)))
    ensures forall k :: k in m' <==> k in m || InSquare(c, r, k)
    ensures forall k :: k in m ==> m'[k] == m[k]
    ensures forall k :: k in m' ==> m'[k] == TileFor(gm, zoom, loadImages, origin, k)
  {
    var created := Missing(m.Keys, SquareOrder(c, r));
    MissingExactlyNew(m.Keys, SquareOrder(c, r));
    forall k
      ensures k in AddTiles(gm, zoom, loadImages, origin, m, created) <==> k in m || InSquare(c, r, k)
    {
      SquareOrderMembers(c, r, k);
      AddTilesContents(gm, zoom, loadImages, origin, m, created, k);
    }
    forall k | k in AddTiles(gm, zoom, loadImages, origin, m, created)
      ensures AddTiles(gm, zoom, loadImages, origin, m, created)[k] == TileFor(gm, zoom, loadImages, origin, k)
    {
      AddTilesContents(gm, zoom, loadImages, origin, m, created, k);
    }
  }

  // ---------------------------------------------------------------------
  // The manager

  class TileManager {
    /** The projection collaborator. */
    const gm: GeoMath

    var loadImages: bool
    var zoom: int
    var range: int
    var tiles: map<TileIndex, Tile>
    var centerTMS: TileIndex
    var centerInMercator: Vector2
    /** Every tile request handed to the fetch client, in order. */
    var fetches: seq<TileFetch>

    /** Every cached tile was created for its own index with the manager's zoom. */
    ghost predicate Valid()
      reads this
    {
      forall k :: k in tiles ==> tiles[k] == TileFor(gm, zoom, loadImages, centerInMercator, k)
    }

    /** The field initialisers; the dictionary, null until Initialize, is empty. */
    constructor(gm: GeoMath)
      ensures Valid()
      ensures this.gm == gm && zoom == 16 && range == 1
      ensures tiles == map[] && fetches == []
    {
      this.gm := gm;
      loadImages := false;
      zoom := 16;
      range := 1;
      tiles := map[];
      centerTMS := TileIndex(0, 0);
      centerInMercator := Vector2(0.0, 0.0);
      fetches := [];
    }

    /** Starts a fresh cache around the configured position and loads the
        square of `range` tiles around its tile. */
    method Initialize(settings: MapSettings)
      modifies this
      ensures Valid()
      ensures centerTMS == gm.metersToTile(gm.latLonToMeters(settings.latitude, settings.longtitude),
                                          settings.detailLevel)
      ensures zoom == settings.detailLevel && range == settings.range
      ensures loadImages == settings.loadImages
      ensures centerInMercator == gm.tileCenter(centerTMS, zoom)
      ensures forall k :: k in tiles <==> InSquare(centerTMS, range, k)
      ensures |tiles| == Side(range) * Side(range)
      ensures fetches == old(fetches) + FetchLog(zoom, SquareOrder(centerTMS, range))
      ensures range >= 0 ==> centerTMS in tiles && tiles[centerTMS].position == Vector3(0.0, 0.0, 0.0)
    {
      var vector := gm.latLonToMeters(settings.latitude, settings.longtitude);
      var tile := gm.metersToTile(vector, settings.detailLevel);
      tiles := map[];
      centerTMS := tile;
      zoom := settings.detailLevel;
      centerInMercator := gm.tileCenter(centerTMS, zoom);
      range := settings.range;
      loadImages := settings.loadImages;
      assert tiles.Keys == {};
      LoadTiles(centerTMS, centerInMercator);
      FreshSquare(centerTMS, range, tiles.Keys);
      CentreTileAtOrigin(gm, zoom, loadImages, centerTMS);
    }

    /** Walks the square of `range` around `tileTMS` and creates every tile
        whose index is not yet a key. `centerMerc` is passed on unused, as in
        the source. */
    method LoadTiles(tileTMS: TileIndex, centerMerc: Vector2)
      requires Valid()
      modifies this`tiles, this`fetches
      ensures Valid()
      ensures forall k :: k in tiles <==> k in old(tiles) || InSquare(tileTMS, range, k)
      ensures forall k :: k in old(tiles) ==> tiles[k] == old(tiles)[k]
      ensures fetches == old(fetches) + FetchLog(zoom, Missing(old(tiles).Keys, SquareOrder(tileTMS, range)))
      ensures (forall k :: InSquare(tileTMS, range, k) ==> k in old(tiles)) ==>
                tiles == old(tiles) && fetches == old(fetches)
    {
      ghost var t0, f0, present := tiles, fetches, tiles.Keys;
      ghost var visited: seq<TileIndex> := [];
      ghost var created: seq<TileIndex> := [];
      var r := range;
      var i := -r;
      ghost var m: nat := 0;
      while i <= r
        invariant -r <= i && (r >= 0 ==> i <= r + 1) && (r < 0 ==> i == -r) && m == i + r
        invariant visited == Rows(tileTMS, r, m)
        invariant created == Missing(present, visited)
        invariant tiles == AddTiles(gm, zoom, loadImages, centerInMercator, t0, created)
        invariant fetches == f0 + FetchLog(zoom, created)
      {
        visited, created := LoadRow(tileTMS, i, centerMerc, t0, f0, present, visited, created);
        RowsStep(tileTMS, r, i, m);
        i, m := i + 1, m + 1;
      }
      WalkDone(tileTMS, r, i, m);
      LoadTilesEffect(gm, zoom, loadImages, centerInMercator, t0, tileTMS, r, tiles);
      if forall k :: InSquare(tileTMS, r, k) ==> k in present {
        ReloadCreatesNothing(present, tileTMS, r, zoom);
      }
    }

    /** The inner loop of LoadTiles for the column offset i: visits
        (x+i, y+j) for j = -range .. range and creates each tile that is not
        yet a key. The ghost parameters carry the walk so far. */
    method LoadRow(tileTMS: TileIndex, i: int, centerMerc: Vector2,
                   ghost t0: map<TileIndex, Tile>, ghost f0: seq<TileFetch>,
                   ghost present: set<TileIndex>, ghost visited: seq<TileIndex>,
                   ghost created: seq<TileIndex>)
        returns (ghost visited': seq<TileIndex>, ghost created': seq<TileIndex>)
      requires present == t0.Keys
      requires created == Missing(present, visited)
      requires tiles == AddTiles(gm, zoom, loadImages, centerInMercator, t0, created)
      requires fetches == f0 + FetchLog(zoom, created)
      modifies this`tiles, this`fetches
      ensures visited' == visited + RowPrefix(tileTMS, i, range, Side(range))
      ensures created' == Missing(present, visited')
      ensures tiles == AddTiles(gm, zoom, loadImages, centerInMercator, t0, created')
      ensures fetches == f0 + FetchLog(zoom, created')
    {
      visited', created' := visited, created;
      var r := range;
      var j := -r;
      ghost var n: nat := 0;
      while j <= r
        invariant (r >= 0 ==> -r <= j <= r + 1) && (r < 0 ==> j == -r) && n == j + r
        invariant visited' == visited + RowPrefix(tileTMS, i, r, n)
        invariant created' == Missing(present, visited')
        invariant tiles == AddTiles(gm, zoom, loadImages, centerInMercator, t0, created')
        invariant fetches == f0 + FetchLog(zoom, created')
      {
        var vec := TileIndex(tileTMS.x + i, tileTMS.y + j);
        WalkStep(tileTMS, r, i, j, n, visited);
        created' := VisitTile(vec, centerMerc, t0, f0, present, visited', created');
        visited' := visited' + [vec];
        j, n := j + 1, n + 1;
      }
      assert n == Side(r);
    }

    /** The body of the inner loop of LoadTiles: skips an index that is
        already a key, and otherwise creates its tile. */
    method VisitTile(vec: TileIndex, centerMerc: Vector2,
                     ghost t0: map<TileIndex, Tile>, ghost f0: seq<TileFetch>,
                     ghost present: set<TileIndex>, ghost visited: seq<TileIndex>,
                     ghost created: seq<TileIndex>)
        returns (ghost created': seq<TileIndex>)
      requires present == t0.Keys
      requires created == Missing(present, visited)
      requires tiles == AddTiles(gm, zoom, loadImages, centerInMercator, t0, created)
      requires fetches == f0 + FetchLog(zoom, created)
      modifies this`tiles, this`fetches
      ensures created' == Missing(present, visited + [vec])
      ensures tiles == AddTiles(gm, zoom, loadImages, centerInMercator, t0, created')
      ensures fetches == f0 + FetchLog(zoom, created')
    {
      VisitStep(t0, present, visited, created, vec);
      created' := created;
      if vec in tiles {
        return;
      }
      SnocAssociates(f0, FetchLog(zoom, created), FetchFor(zoom, vec));
      CreateTile(vec, centerMerc);
      created' := created + [vec];
    }

    /** One step of the walk: the tile is created iff its index is not yet a
        key, and creating it extends the dictionary and the fetch log as
        visiting it extends the walk. */
    lemma VisitStep(t0: map<TileIndex, Tile>, present: set<TileIndex>,
                    visited: seq<TileIndex>, created: seq<TileIndex>, vec: TileIndex)
      requires present == t0.Keys
      requires created == Missing(present, visited)
      requires tiles == AddTiles(gm, zoom, loadImages, centerInMercator, t0, created)
      ensures vec in tiles <==> vec in present || vec in visited
      ensures vec !in tiles ==>
        && Missing(present, visited + [vec]) == created + [vec]
        && AddTiles(gm, zoom, loadImages, centerInMercator, t0, created + [vec]) == tiles[vec := TileFor(gm, zoom, loadImages, centerInMercator, vec)]
        && FetchLog(zoom, created + [vec]) == FetchLog(zoom, created) + [FetchFor(zoom, vec)]
      ensures vec in tiles ==> Missing(present, visited + [vec]) == created
    {
      MissingSnoc(present, visited, vec);
      MissingExactlyNew(present, visited);
      AddTilesContents(gm, zoom, loadImages, centerInMercator, t0, created, vec);
      if vec !in tiles {
        AddTilesSnoc(gm, zoom, loadImages, centerInMercator, t0, created, vec);
        FetchLogSnoc(zoom, created, vec);
      } else {
        assert Missing(present, visited + [vec]) == created + [];
      }
    }

    /** Creates the tile for a new index, adds it to the dictionary and
        requests its content. */
    method CreateTile(tileTMS: TileIndex, centerMerc: Vector2)
      requires tileTMS !in tiles
      modifies this`tiles, this`fetches
      ensures tiles == old(tiles)[tileTMS := TileFor(gm, zoom, loadImages, centerInMercator, tileTMS)]
      ensures fetches == old(fetches) + [FetchFor(zoom, tileTMS)]
    {
      var rect := gm.tileCenter(tileTMS, zoom);
      var settings := TileSettings(zoom, tileTMS, rect, loadImages);
      var tile := Tile(settings, ToVector3xz(Minus(rect, centerInMercator)));
      tiles := tiles[tileTMS := tile];
      LoadTile(tileTMS);
    }

    /** Hands the request for one tile to the fetch client. */
    method LoadTile(tileTMS: TileIndex)
      modifies this`fetches
      ensures fetches == old(fetches) + [FetchFor(zoom, tileTMS)]
    {
      fetches := fetches + [TileFetch(MapzenLayer, zoom, tileTMS.x, tileTMS.y, MapzenFormat, MapzenKey)];
    }
  }

  // ---------------------------------------------------------------------
  // End-to-end run

  /** The default range of 1: Initialize creates and fetches nine tiles, and
      walking the same centre again creates and fetches nothing more. */
  method NineTilesThenReload(gm: GeoMath, latitude: real, longtitude: real, detailLevel: int)
      returns (created: int, requested: int, createdAgain: int, requestedAgain: int)
    ensures created == 9 && requested == 9
    ensures createdAgain == 9 && requestedAgain == 9
  {
    var manager := new TileManager(gm);
    manager.Initialize(MapSettings(latitude, longtitude, detailLevel, 1, false));
    SquareOrderShape(manager.centerTMS, 1);
    created, requested := |manager.tiles|, |manager.fetches|;
    manager.LoadTiles(manager.centerTMS, manager.centerInMercator);
    createdAgain, requestedAgain := |manager.tiles|, |manager.fetches|;
  }
}
