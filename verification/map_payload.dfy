/** What the forms hand to the map surface when a point is added to it. */
module MapPayload {

  /** The `{ lat, lon }` object passed to the map callback. */
  datatype Coordinate = Coordinate(lat: real, lon: real)
}
