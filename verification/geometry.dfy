/** Coordinates and the spherical-geometry operations the zones rely on.

    The three operations come from a foreign library (great-circle
    trigonometry in floating point). They are not defined here: every
    operation of the model takes a `Sphere` value whose three fields are
    arbitrary total functions, so nothing proved depends on how the library
    computes. */
module Geo {

  /** A geographic coordinate in degrees. */
  datatype LatLng = LatLng(latitude: real, longitude: real)

  /** The spherical-geometry library, as three uninterpreted functions:
      - `computeOffset(from, distance, heading)`: the point `distance` metres
        from `from` along `heading` degrees clockwise from north;
      - `computeDistanceBetween(a, b)`: metres between two points;
      - `computeHeading(from, to)`: the heading in degrees from `from` to `to`. */
  datatype Sphere = Sphere(
    computeOffset: (LatLng, real, real) -> LatLng,
    computeDistanceBetween: (LatLng, LatLng) -> real,
    computeHeading: (LatLng, LatLng) -> real)

  /** `Math.abs` on a real. */
  function Abs(x: real): (r: real)
    ensures r >= 0.0
    ensures r == x || r == -x
  {
    if x < 0.0 then -x else x
  }
}
