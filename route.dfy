/** The route engine: one Route builds a request to the routing service,
    receives its answer, checks the answer's length against the requested
    route length, and either keeps the route (in coordinates relative to the
    tile of its first point) or signals that new via points are needed. */
module Routing {
  import opened Geometry

  /** The target length class of a route; its integer value is the length in km. */
  datatype RouteLength = SHORT | MIDDLE | LONG {
    function Kilometres(): int
    {
      match this
      case SHORT => 2
      case MIDDLE => 5
      case LONG => 10
    }
  }

  /** The target in metres: `1000 * (int)length`. */
  function TargetMetres(length: RouteLength): (m: int)
    ensures m == 1000 * length.Kilometres()
    ensures length == SHORT ==> m == 2000
    ensures length == MIDDLE ==> m == 5000
    ensures length == LONG ==> m == 10000
  {
    1000 * length.Kilometres()
  }

  // ---------------------------------------------------------------------
  // The request

  const ApiUrlBase := "http://openls.geog.uni-heidelberg.de/route?api_key=ee0b8233adff52ce9fd6afc2a2859a28"
  const ApiUrlFlags := "&avoidAreas=&useTMC=false&noMotorways=true&noTollways=false&noUnpavedroads=&noSteps=&noFerries=true&instructions=false"
  const RoutingLanguage := "en"
  const DistanceFormat := "M"
  const TransportType := "Pedestrian"
  const RouteWeight := "Recommended"
  const ViaSeparator := "%20"

  /** The seven positional parameters of the routing URL, in template order. */
  datatype RouteQuery = RouteQuery(
    start: string, end: string, via: string,
    lang: string, distUnit: string, routePref: string, weighting: string)

  /** The URL the template produces from a query. */
  function Url(q: RouteQuery): string
  {
    ApiUrlBase + "&start=" + q.start + "&end=" + q.end + "&via=" + q.via
    + "&lang=" + q.lang + "&distunit=" + q.distUnit + "&routepref=" + q.routePref
    + "&weighting=" + q.weighting + ApiUrlFlags
  }

  /** A position written as the service expects it: y (latitude), a comma, x
      (longitude); `fmt` is C#'s float-to-string conversion. */
  function LatLonText(fmt: real -> string, v: Vector2): string
  {
    fmt(v.y) + "," + fmt(v.x)
  }

  /** The intended via parameter: the positions joined by "%20". */
  function JoinVia(fmt: real -> string, via: seq<Vector2>): string
  {
    if |via| == 0 then ""
    else if |via| == 1 then LatLonText(fmt, via[0])
    else JoinVia(fmt, via[..|via| - 1]) + ViaSeparator + LatLonText(fmt, via[|via| - 1])
  }

  /** What the loop of LoadAPIData accumulates: every position followed by "%20". */
  function ViaWithTrailing(fmt: real -> string, via: seq<Vector2>): string
  {
    if via == [] then ""
    else ViaWithTrailing(fmt, via[..|via| - 1]) + LatLonText(fmt, via[|via| - 1]) + ViaSeparator
  }

  /** The accumulated string is the joined one with one separator too many. */
  lemma {:induction false} TrailingIsJoinPlusSeparator(fmt: real -> string, via: seq<Vector2>)
    requires via != []
    ensures ViaWithTrailing(fmt, via) == JoinVia(fmt, via) + ViaSeparator
  {
    var init := via[..|via| - 1];
    if init != [] {
      TrailingIsJoinPlusSeparator(fmt, init);
    }
  }

  /** The via-string construction of LoadAPIData: append each position and a
      separator, then cut the last three characters off. With no via point the
      cut is `Remove(-3)`, which throws: that is the `None` result. */
  method FormatViaPoints(fmt: real -> string, via: seq<Vector2>) returns (r: Option<string>)
    ensures r.None? <==> via == []
    ensures r.Some? ==> r.value == JoinVia(fmt, via)
  {
    var s := "";
    for i := 0 to |via|
      invariant s == ViaWithTrailing(fmt, via[..i])
    {
      assert via[..i + 1][..i] == via[..i];
      s := s + LatLonText(fmt, via[i]) + ViaSeparator;
    }
    assert via[..|via|] == via;
    if |s| - 3 < 0 {
      return None;
    }
    if via != [] {
      TrailingIsJoinPlusSeparator(fmt, via);
      assert s[..|s| - 3] == JoinVia(fmt, via);
    }
    r := Some(s[..|s| - 3]);
  }

  function CountChar(c: char, s: string): nat
  {
    if s == [] then 0 else (if s[0] == c then 1 else 0) + CountChar(c, s[1..])
  }

  lemma {:induction false} CountCharAppend(c: char, a: string, b: string)
    ensures CountChar(c, a + b) == CountChar(c, a) + CountChar(c, b)
  {
    if a == [] {
      assert a + b == b;
    } else {
      assert (a + b)[0] == a[0];
      assert (a + b)[1..] == a[1..] + b;
      CountCharAppend(c, a[1..], b);
    }
  }

  /** When the number formatter writes no '%', the via string of n positions
      holds exactly n - 1 separators, so none trails. */
  lemma {:induction false} JoinViaSeparators(fmt: real -> string, via: seq<Vector2>)
    requires via != []
    requires forall i :: 0 <= i < |via| ==> CountChar('%', LatLonText(fmt, via[i])) == 0
    ensures CountChar('%', JoinVia(fmt, via)) == |via| - 1
  {
    if |via| > 1 {
      var init := via[..|via| - 1];
      JoinViaSeparators(fmt, init);
      CountCharAppend('%', JoinVia(fmt, init), ViaSeparator);
      CountCharAppend('%', JoinVia(fmt, init) + ViaSeparator, LatLonText(fmt, via[|via| - 1]));
    }
  }

  /** Two via points (10,20) and (11,21) give "20,10%2021,11". */
  lemma ViaExample(fmt: real -> string)
    requires fmt(10.0) == "10" && fmt(20.0) == "20" && fmt(11.0) == "11" && fmt(21.0) == "21"
    ensures JoinVia(fmt, [Vector2(10.0, 20.0), Vector2(11.0, 21.0)]) == "20,10%2021,11"
  {
    var via := [Vector2(10.0, 20.0), Vector2(11.0, 21.0)];
    assert via[..1] == [Vector2(10.0, 20.0)];
  }

  /** The query LoadAPIData sends: the start doubles as the end, followed by
      the via string and the fixed profile. */
  function Query(fmt: real -> string, startPos: Vector2, via: seq<Vector2>): RouteQuery
  {
    var startEnd := LatLonText(fmt, startPos);
    RouteQuery(startEnd, startEnd, JoinVia(fmt, via),
               RoutingLanguage, DistanceFormat, TransportType, RouteWeight)
  }

  lemma QueryParameters(fmt: real -> string, startPos: Vector2, via: seq<Vector2>)
    ensures var q := Query(fmt, startPos, via);
      && q.start == q.end == fmt(startPos.y) + "," + fmt(startPos.x)
      && q.lang == "en" && q.distUnit == "M"
      && q.routePref == "Pedestrian" && q.weighting == "Recommended"
  {
  }

  // ---------------------------------------------------------------------
  // The response

  const ErrorMarker := "Error"

  /** C#'s ordinal `String.Contains`. */
  function Contains(s: string, pat: string): bool
    decreases |s|
  {
    if |s| < |pat| then false
    else s[..|pat|] == pat || Contains(s[1..], pat)
  }

  /** The pattern occurs in `s` starting at index `i`. */
  predicate OccursAt(s: string, pat: string, i: int)
  {
    0 <= i <= |s| - |pat| && s[i..i + |pat|] == pat
  }

  /** Contains finds exactly the occurrences of the pattern. */
  lemma {:induction false} ContainsIffOccurs(s: string, pat: string)
    ensures Contains(s, pat) <==> exists i :: OccursAt(s, pat, i)
    decreases |s|
  {
    if |s| < |pat| {
      // no index leaves room for the pattern
    } else if s[..|pat|] == pat {
      assert OccursAt(s, pat, 0);
    } else {
      ContainsIffOccurs(s[1..], pat);
      if Contains(s[1..], pat) {
        var i :| OccursAt(s[1..], pat, i);
        assert s[i + 1..i + 1 + |pat|] == s[1..][i..i + |pat|];
        assert OccursAt(s, pat, i + 1);
      }
      if exists i :: OccursAt(s, pat, i) {
        var i :| OccursAt(s, pat, i);
        assert i != 0;
        assert s[1..][i - 1..i - 1 + |pat|] == s[i..i + |pat|];
        assert OccursAt(s[1..], pat, i - 1);
      }
    }
  }

  /** What the route extractor reads from a response body. */
  datatype RouteData = RouteData(
    distanceOfRoute: real, routeLatLongs: seq<Vector2>, totalTimeInSeconds: int)

  /** The four ways ConvertAPIData can end. */
  datatype Outcome =
    | ServiceError     // the body holds "Error": new via points are asked for
    | OutOfTolerance   // the route is too long or too short: new via points are asked for
    | RouteEmpty       // within tolerance but no point: reading point 0 throws
    | Accepted         // the route is kept

  /** The source's test, as written: the route is rejected when it is longer
      than 1.2 or shorter than 0.8 times the target. */
  predicate WithinTolerance(distance: real, length: RouteLength)
  {
    var target := (1000 * length.Kilometres()) as real;
    !(distance > target * 1.2 || distance < target * 0.8)
  }

  /** The band the test accepts, both ends included. */
  predicate InBand(distance: real, length: RouteLength)
  {
    0.8 * TargetMetres(length) as real <= distance <= 1.2 * TargetMetres(length) as real
  }

  lemma ToleranceIsClosedBand(distance: real, length: RouteLength)
    ensures WithinTolerance(distance, length) <==> InBand(distance, length)
  {
  }

  /** A route in the band is never of zero length. */
  lemma InBandIsPositive(distance: real, length: RouteLength)
    requires InBand(distance, length)
    ensures distance >= 1600.0
  {
  }

  /** For a 5 km route: both ends of the band pass, 0.79 and 1.21 times the
      target and 7 km fail, 5.2 km passes. */
  lemma ToleranceExamples()
    ensures WithinTolerance(4000.0, MIDDLE) && WithinTolerance(6000.0, MIDDLE)
    ensures !WithinTolerance(3950.0, MIDDLE) && !WithinTolerance(6050.0, MIDDLE)
    ensures WithinTolerance(5200.0, MIDDLE) && !WithinTolerance(7000.0, MIDDLE)
  {
  }

  /** How a response ends, in the order ConvertAPIData tests it. */
  function Classify(text: string, data: RouteData, length: RouteLength): (o: Outcome)
    ensures o == ServiceError <==> Contains(text, ErrorMarker)
    ensures o == OutOfTolerance <==> !Contains(text, ErrorMarker) && !InBand(data.distanceOfRoute, length)
    ensures o == Accepted <==>
      !Contains(text, ErrorMarker) && InBand(data.distanceOfRoute, length) && data.routeLatLongs != []
  {
    ToleranceIsClosedBand(data.distanceOfRoute, length);
    if Contains(text, ErrorMarker) then ServiceError
    else if !WithinTolerance(data.distanceOfRoute, length) then OutOfTolerance
    else if |data.routeLatLongs| == 0 then RouteEmpty
    else Accepted
  }

  /** The centre of the tile that holds the first point of the route. */
  function ReferenceCentre(gm: GeoMath, zoom: int, pts: seq<Vector2>): Vector2
    requires pts != []
  {
    gm.tileCenter(gm.metersToTile(gm.latLonToMeters(pts[0].x, pts[0].y), zoom), zoom)
  }

  /** Every route point projected to Mercator metres, relative to that centre. */
  function LocalPolyline(gm: GeoMath, zoom: int, pts: seq<Vector2>): (local: seq<Vector2>)
    requires pts != []
    ensures |local| == |pts|
    ensures forall i :: 0 <= i < |pts| ==>
      local[i] == Minus(gm.latLonToMeters(pts[i].x, pts[i].y), ReferenceCentre(gm, zoom, pts))
  {
    var centre := ReferenceCentre(gm, zoom, pts);
    seq(|pts|, i requires 0 <= i < |pts| => Minus(gm.latLonToMeters(pts[i].x, pts[i].y), centre))
  }

  /** The first point of a kept route sits at the origin only if it projects
      onto the centre of its own tile. */
  lemma FirstPointRelativeToItsTile(gm: GeoMath, zoom: int, pts: seq<Vector2>)
    requires pts != []
    ensures LocalPolyline(gm, zoom, pts)[0] == Vector2(0.0, 0.0)
        <==> gm.latLonToMeters(pts[0].x, pts[0].y) == ReferenceCentre(gm, zoom, pts)
  {
  }

  // ---------------------------------------------------------------------
  // The route object

  class Route {
    /** C#'s float-to-string conversion, used to write coordinates. */
    const fmt: real -> string
    /** The projection collaborator. */
    const gm: GeoMath

    var distance: real
    var viaLatLongs: seq<Vector2>
    var routeLatLongs: seq<Vector2>
    var routeInMercCoords: seq<Vector2>
    var dataLoaded: bool
    /** TimeSpan(0, 0, s), kept as its total number of seconds. */
    var estimatedSeconds: int
    var zoom: int
    var startPosition: Vector2
    var length: RouteLength

    /** Every request handed to the fetch client, in order. */
    var requests: seq<RouteQuery>
    /** Every call of RouteManager.RecalculateViaPoints, with its arguments. */
    var recalculations: seq<(Vector2, RouteLength)>

    /** A loaded route has a length in the band of its class and at least one
        point in local coordinates. */
    ghost predicate Valid()
      reads this
    {
      dataLoaded ==> InBand(distance, length) && routeInMercCoords != []
    }

    /** `new Route()`: the field initialisers. */
    constructor(fmt: real -> string, gm: GeoMath)
      ensures Valid()
      ensures this.fmt == fmt && this.gm == gm
      ensures !dataLoaded && distance == 0.0 && zoom == 16
      ensures routeInMercCoords == [] && requests == [] && recalculations == []
    {
      this.fmt := fmt;
      this.gm := gm;
      distance := 0.0;
      viaLatLongs := [];
      routeLatLongs := [];
      routeInMercCoords := [];
      dataLoaded := false;
      estimatedSeconds := 0;
      zoom := 16;
      startPosition := Vector2(0.0, 0.0);
      length := SHORT;
      requests := [];
      recalculations := [];
    }

    /** Stores the request parameters, clears the loaded flag and distance, and
        sends the first request. `sent` is false when the request could not be
        built (no via point). */
    method Initialize(startPos: Vector2, via: seq<Vector2>, zoom': int, length': RouteLength)
      returns (sent: bool)
      modifies this
      ensures Valid()
      ensures viaLatLongs == via && zoom == zoom' && length == length' && startPosition == startPos
      ensures !dataLoaded && distance == 0.0
      ensures sent <==> via != []
      ensures requests == old(requests) + (if sent then [Query(fmt, startPos, via)] else [])
      ensures routeLatLongs == old(routeLatLongs) && routeInMercCoords == old(routeInMercCoords)
      ensures estimatedSeconds == old(estimatedSeconds) && recalculations == old(recalculations)
    {
      viaLatLongs := via;
      zoom := zoom';
      dataLoaded := false;
      distance := 0.0;
      length := length';
      startPosition := startPos;
      sent := LoadAPIData(startPos, via);
    }

    /** Builds the query and hands it to the fetch client. */
    method LoadAPIData(startPos: Vector2, via: seq<Vector2>) returns (sent: bool)
      modifies this`requests
      ensures sent <==> via != []
      ensures requests == old(requests) + (if sent then [Query(fmt, startPos, via)] else [])
    {
      var startEnd := LatLonText(fmt, startPos);
      var viaText := FormatViaPoints(fmt, via);
      if viaText.None? {
        return false;
      }
      requests := requests + [RouteQuery(startEnd, startEnd, viaText.value,
                                         RoutingLanguage, DistanceFormat, TransportType, RouteWeight)];
      sent := true;
    }

    /** The fetch failed: the error is only logged. */
    method FailToGetRouteAPIData(ex: string)
      ensures unchanged(this)
    {
    }

    /** The fetch succeeded with body `text`; `data` is what the extractor
        reads from it. */
    method ConvertAPIData(text: string, data: RouteData) returns (outcome: Outcome)
      requires Valid()
      modifies this
      ensures Valid()
      ensures outcome == Classify(text, data, length)
      ensures zoom == old(zoom) && startPosition == old(startPosition) && length == old(length)
      ensures viaLatLongs == old(viaLatLongs) && requests == old(requests)
      ensures outcome == ServiceError || outcome == OutOfTolerance ==>
        && recalculations == old(recalculations) + [(startPosition, length)]
        && dataLoaded == old(dataLoaded) && distance == old(distance)
        && estimatedSeconds == old(estimatedSeconds)
        && routeLatLongs == old(routeLatLongs) && routeInMercCoords == old(routeInMercCoords)
      ensures outcome == RouteEmpty ==>
        && routeLatLongs == []
        && recalculations == old(recalculations)
        && dataLoaded == old(dataLoaded) && distance == old(distance)
        && estimatedSeconds == old(estimatedSeconds) && routeInMercCoords == old(routeInMercCoords)
      ensures outcome == Accepted ==>
        && routeLatLongs == data.routeLatLongs
        && routeInMercCoords == old(routeInMercCoords) + LocalPolyline(gm, zoom, data.routeLatLongs)
        && distance == data.distanceOfRoute
        && estimatedSeconds == data.totalTimeInSeconds
        && dataLoaded
        && recalculations == old(recalculations)
    {
      ToleranceIsClosedBand(data.distanceOfRoute, length);
      if Contains(text, ErrorMarker) {
        recalculations := recalculations + [(startPosition, length)];
        return ServiceError;
      }
      if data.distanceOfRoute > (1000 * length.Kilometres()) as real * 1.2
         || data.distanceOfRoute < (1000 * length.Kilometres()) as real * 0.8
      {
        recalculations := recalculations + [(startPosition, length)];
        return OutOfTolerance;
      }
      var pts := data.routeLatLongs;
      routeLatLongs := pts;
      if |pts| == 0 {
        return RouteEmpty;
      }
      var vector := gm.latLonToMeters(pts[0].x, pts[0].y);
      var tile := gm.metersToTile(vector, zoom);
      var centerInMercator := gm.tileCenter(tile, zoom);
      AppendRelative(pts, centerInMercator);
      distance := data.distanceOfRoute;
      estimatedSeconds := data.totalTimeInSeconds;
      dataLoaded := true;
      outcome := Accepted;
    }

    /** The loop of ConvertAPIData that appends every route point, projected
        to Mercator metres and taken relative to `centre`, the centre of the
        tile of the first point. Earlier entries are kept. */
    method AppendRelative(pts: seq<Vector2>, centre: Vector2)
      requires pts != [] && centre == ReferenceCentre(gm, zoom, pts)
      modifies this`routeInMercCoords
      ensures routeInMercCoords == old(routeInMercCoords) + LocalPolyline(gm, zoom, pts)
    {
      ghost var expected := LocalPolyline(gm, zoom, pts);
      var i := 0;
      while i < |pts|
        invariant 0 <= i <= |pts|
        invariant routeInMercCoords == old(routeInMercCoords) + expected[..i]
      {
        var vector := gm.latLonToMeters(pts[i].x, pts[i].y);
        assert expected[..i + 1] == expected[..i] + [Minus(vector, centre)];
        routeInMercCoords := routeInMercCoords + [Minus(vector, centre)];
        i := i + 1;
      }
      assert expected[..|pts|] == expected;
    }

    /** Sends a new request with new via points; the stored start position and
        route length stay as Initialize left them. */
    method Retry(startPos: Vector2, via: seq<Vector2>) returns (sent: bool)
      requires Valid()
      modifies this
      ensures Valid()
      ensures viaLatLongs == via
      ensures sent <==> via != []
      ensures requests == old(requests) + (if sent then [Query(fmt, startPos, via)] else [])
      ensures length == old(length) && startPosition == old(startPosition) && zoom == old(zoom)
      ensures dataLoaded == old(dataLoaded) && distance == old(distance)
      ensures estimatedSeconds == old(estimatedSeconds) && recalculations == old(recalculations)
      ensures routeLatLongs == old(routeLatLongs) && routeInMercCoords == old(routeInMercCoords)
    {
      viaLatLongs := via;
      sent := LoadAPIData(startPos, via);
    }
  }

  // ---------------------------------------------------------------------
  // End-to-end runs

  /** A 5 km route whose answer reports 5200 m, 3600 s and three points:
      it is kept, with three local points and an estimated hour. */
  method AcceptedMiddleRoute(fmt: real -> string, gm: GeoMath, start: Vector2,
                             via: seq<Vector2>, text: string, pts: seq<Vector2>)
      returns (sent: bool, outcome: Outcome, points: int, seconds: int, loaded: bool)
    requires via != [] && |pts| == 3 && !Contains(text, ErrorMarker)
    ensures sent && outcome == Accepted && loaded
    ensures points == 3 && seconds == 3600
  {
    var route := new Route(fmt, gm);
    sent := route.Initialize(start, via, 16, MIDDLE);
    outcome := route.ConvertAPIData(text, RouteData(5200.0, pts, 3600));
    points, seconds, loaded := |route.routeInMercCoords|, route.estimatedSeconds, route.dataLoaded;
  }

  /** The same request answered with 7000 m: the route is refused, new via
      points are asked for once, from the stored start and length, and
      nothing is loaded. */
  method RejectedMiddleRoute(fmt: real -> string, gm: GeoMath, start: Vector2,
                             via: seq<Vector2>, text: string, pts: seq<Vector2>)
      returns (outcome: Outcome, asked: seq<(Vector2, RouteLength)>, loaded: bool, points: int)
    requires !Contains(text, ErrorMarker)
    ensures outcome == OutOfTolerance
    ensures asked == [(start, MIDDLE)] && !loaded && points == 0
  {
    var route := new Route(fmt, gm);
    var _ := route.Initialize(start, via, 16, MIDDLE);
    outcome := route.ConvertAPIData(text, RouteData(7000.0, pts, 3600));
    asked, loaded, points := route.recalculations, route.dataLoaded, |route.routeInMercCoords|;
  }
}
