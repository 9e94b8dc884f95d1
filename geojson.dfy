/** GeoJSON features as the server routes receive them. */
module GeoJson {
  import opened Common

  /** A linear ring or line: positions in order. A closed ring repeats its
      first position at the end (section 3.1.6 of RFC 7946). */
  type Ring = seq<Point>

  datatype Geometry =
    | Polygon(rings: seq<Ring>)      // coordinates[0] is the outer ring
    | LineString(line: seq<Point>)
    | PointGeometry(position: Point)
    | OtherGeometry(kind: string)    // MultiPolygon and the rest

  /** `properties` may be absent (or null) in the input. */
  datatype Feature = Feature(geometry: Option<Geometry>, properties: Option<map<string, Json>>)

  predicate Closed(r: Ring)
  {
    |r| > 0 && r[0] == r[|r| - 1]
  }
}
