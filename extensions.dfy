/** The static helpers of Assets.Helpers.Extensions: swizzles between the
    xy plane and the xz ground plane, a truncated Manhattan distance, and the
    road-name and road-width tables used when meshing roads. */
module Extensions {
  import opened Geometry

  datatype RoadType = HIGHWAY | MAJORROAD | MINORROAD | RAIL | PATH

  function Abs(x: real): real
  {
    if x < 0.0 then -x else x
  }

  /** C#'s `(int)` cast of a non-negative value: truncation toward zero. */
  function Truncate(x: real): int
    requires x >= 0.0
  {
    x.Floor
  }

  /** Truncation drops less than one unit and never goes below zero. */
  lemma TruncateBounds(x: real)
    requires x >= 0.0
    ensures 0 <= Truncate(x)
    ensures Truncate(x) as real <= x < Truncate(x) as real + 1.0
  {
  }

  /** Sum of the per-axis distances, each truncated before the sum: it
      undercounts the real Manhattan distance by less than two. */
  function ManhattanTo(v: Vector2, t: Vector2): (d: int)
    ensures d >= 0
    ensures d as real <= Abs(v.x - t.x) + Abs(v.y - t.y) < d as real + 2.0
  {
    TruncateBounds(Abs(v.x - t.x));
    TruncateBounds(Abs(v.y - t.y));
    Truncate(Abs(v.x - t.x)) + Truncate(Abs(v.y - t.y))
  }

  lemma ManhattanSymmetric(v: Vector2, t: Vector2)
    ensures ManhattanTo(v, t) == ManhattanTo(t, v)
  {
    assert Abs(v.x - t.x) == Abs(t.x - v.x);
    assert Abs(v.y - t.y) == Abs(t.y - v.y);
  }

  lemma ManhattanToSelf(v: Vector2)
    ensures ManhattanTo(v, v) == 0
  {
  }

  /** Truncating per axis is not truncating the sum: (0,0) to (0.6,0.6) is 0,
      while the truncated total 1.2 would give 1. */
  lemma ManhattanTruncatesPerAxis()
    ensures ManhattanTo(Vector2(0.0, 0.0), Vector2(0.6, 0.6)) == 0
    ensures Truncate(Abs(0.0 - 0.6) + Abs(0.0 - 0.6)) == 1
  {
  }

  /** Drops the y component: (x, y, z) becomes (x, z). */
  function ToVector2xz(v: Vector3): (w: Vector2)
    ensures w.x == v.x && w.y == v.z
  {
    Vector2(v.x, v.z)
  }

  /** Lifts a plane vector onto the ground plane at height 0; projecting back
      gives the original vector. */
  function ToVector3xz(v: Vector2): (w: Vector3)
    ensures w.y == 0.0
    ensures ToVector2xz(w) == v
  {
    Vector3(v.x, 0.0, v.y)
  }

  /** Lifting after projecting is the identity exactly on the ground plane. */
  lemma LiftOfProjection(w: Vector3)
    ensures ToVector3xz(ToVector2xz(w)) == w <==> w.y == 0.0
  {
  }

  /** The names the tile service gives each road type. */
  function RoadName(t: RoadType): string
  {
    match t
    case HIGHWAY => "highway"
    case MAJORROAD => "major_road"
    case MINORROAD => "minor"
    case RAIL => "rail"
    case PATH => "path"
  }

  predicate IsKnownRoadName(s: string)
  {
    s == "highway" || s == "major_road" || s == "minor" || s == "rail" || s == "path"
  }

  /** Parses a road-kind name; anything unrecognised is a path. */
  function ToRoadType(s: string): (t: RoadType)
    ensures t == HIGHWAY <==> s == "highway"
    ensures t == MAJORROAD <==> s == "major_road"
    ensures t == MINORROAD <==> s == "minor"
    ensures t == RAIL <==> s == "rail"
    ensures t == PATH <==> !IsKnownRoadName(s) || s == "path"
  {
    if s == "highway" then HIGHWAY
    else if s == "major_road" then MAJORROAD
    else if s == "minor" then MINORROAD
    else if s == "rail" then RAIL
    else if s == "path" then PATH
    else PATH
  }

  /** Every road type survives the round trip through its name. */
  lemma RoadNameRoundTrip(t: RoadType)
    ensures IsKnownRoadName(RoadName(t))
    ensures ToRoadType(RoadName(t)) == t
  {
  }

  /** Road width in world units. */
  function ToWidthFloat(t: RoadType): (w: real)
    ensures 2.0 <= w <= 10.0
    ensures w == 10.0 <==> t == HIGHWAY
    ensures w == 5.0 <==> t == MAJORROAD
    ensures w == 3.0 <==> t == MINORROAD || t == RAIL
    ensures w == 2.0 <==> t == PATH
  {
    match t
    case HIGHWAY => 10.0
    case MAJORROAD => 5.0
    case MINORROAD => 3.0
    case RAIL => 3.0
    case PATH => 2.0
  }

  /** Wider roads come first in the table: highway, major, minor = rail, path. */
  lemma WidthOrder()
    ensures ToWidthFloat(HIGHWAY) > ToWidthFloat(MAJORROAD) > ToWidthFloat(MINORROAD)
    ensures ToWidthFloat(MINORROAD) == ToWidthFloat(RAIL) > ToWidthFloat(PATH)
  {
  }

  /** A road whose name the parser does not know is drawn with width 2. */
  lemma UnknownRoadWidth(s: string)
    requires !IsKnownRoadName(s)
    ensures ToWidthFloat(ToRoadType(s)) == 2.0
  {
  }
}
