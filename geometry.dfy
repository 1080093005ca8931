/** Value types shared by the tile cache and the route engine: Unity's
    Vector2/Vector3, integer tile indices, and the projection helpers (GM.*)
    that the core calls but whose code is not part of this model. */
module Geometry {

  datatype Option<T> = None | Some(value: T)

  /** Unity's Vector2; the source's single-precision floats are modelled as reals. */
  datatype Vector2 = Vector2(x: real, y: real)

  /** Unity's Vector3. */
  datatype Vector3 = Vector3(x: real, y: real, z: real)

  /** Unity's component-wise `a - b` on Vector2. */
  function Minus(a: Vector2, b: Vector2): Vector2
  {
    Vector2(a.x - b.x, a.y - b.y)
  }

  /** A tile of the slippy-map grid at some zoom level (TMS x and y). */
  datatype TileIndex = TileIndex(x: int, y: int)

  /** The projection collaborator GM: its floating-point trigonometry is not
      modelled, so every function of it is an input of the model. */
  datatype GeoMath = GeoMath(
    latLonToMeters: (real, real) -> Vector2,         // GM.LatLonToMeters
    metersToTile: (Vector2, int) -> TileIndex,       // GM.MetersToTile
    tileCenter: (TileIndex, int) -> Vector2)         // GM.TileBounds(...).center
}
