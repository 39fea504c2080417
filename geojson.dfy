/**
 * The GeoJSON objects (RFC 7946) that the plugin's shape test dispatches on.
 * A GeoJSON object is identified by its `type` member; the datatype has one
 * constructor per type the code names, plus the types it does not handle.
 */
module GeoJson {

  /** A position, section 3.1.1 of RFC 7946: an array of numbers. */
  type Position = seq<real>

  datatype Shape =
    | Point(coordinates: Position)                      // section 3.1.2
    | MultiPoint(points: seq<Position>)                 // section 3.1.3
    | LineString(line: seq<Position>)                   // section 3.1.4
    | MultiLineString(lines: seq<seq<Position>>)        // section 3.1.5
    | Polygon(rings: seq<seq<Position>>)                // section 3.1.6
    | MultiPolygon(polygons: seq<seq<seq<Position>>>)   // section 3.1.7
    | GeometryCollection(geometries: seq<Shape>)        // section 3.1.8
    | Feature(geometry: Shape)                          // section 3.2
    | FeatureCollection(features: seq<Shape>)           // section 3.3
    | Other(typeName: string)                           // any other `type` member

  /**
   * The point-in-polygon test of the turf library, applied to a position
   * (wrapped as a GeoJSON point) and a shape. It is foreign floating-point
   * geometry, so the model takes it as a parameter. It is assumed to answer
   * a boolean and never to throw; nothing else is assumed of it.
   */
  type PointInPolygon = (Position, Shape) -> bool

  /** The concatenation of a sequence of sequences, in order. */
  function Flatten<T>(xss: seq<seq<T>>): seq<T>
  {
    if xss == [] then [] else xss[0] + Flatten(xss[1..])
  }

  lemma {:induction false} InFlatten<T>(xss: seq<seq<T>>, v: T)
    ensures v in Flatten(xss) <==> exists xs :: xs in xss && v in xs
  {
    if xss != [] {
      InFlatten(xss[1..], v);
      assert forall xs :: xs in xss <==> xs == xss[0] || xs in xss[1..];
    }
  }
}
