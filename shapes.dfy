/**
 * `src/Shapes.js`: the vertex-containment shape test. `shapesIntersect(a, b)`
 * answers whether some vertex of `a` that the dispatch looks at lies inside
 * `b`; it is not a true polygon intersection.
 *
 * The dispatch over GeoJSON types is the same text in `src/Shapes.js` and in
 * `dist/bundle.js`; only the vertex test differs (two-way here, one-way in
 * the bundle). `ShapesIntersectBy` is that dispatch, parameterised by the
 * vertex test; each file's `ShapesIntersect` instantiates it.
 */
module Shapes {
  import opened Js
  import opened GeoJson

  /** `coordsIntersectPolygon`: the point inside the shape, or the shape "inside" the point. */
  function CoordsIntersectPolygon(inside: PointInPolygon, swapped: PointInPolygon,
                                  coords: Position, shape: Shape): bool
  {
    inside(coords, shape) || swapped(coords, shape)
  }

  /** The vertex test `src/Shapes.js` passes to the dispatch. */
  function VertexTest(inside: PointInPolygon, swapped: PointInPolygon): PointInPolygon
  {
    (coords, shape) => CoordsIntersectPolygon(inside, swapped, coords, shape)
  }

  /** The `shapesIntersect` dispatch, with `some` at every array level. */
  function ShapesIntersectBy(test: PointInPolygon, shape1: Shape, shape2: Shape): bool
    decreases shape1, 1
  {
    match shape1
    case Point(c) => test(c, shape2)
    case Polygon(rings) => AnyOf(rings, ring => AnyOf(ring, c => test(c, shape2)))
    case MultiLineString(lines) => AnyOf(lines, line => AnyOf(line, c => test(c, shape2)))
    case MultiPolygon(polys) =>
      AnyOf(polys, poly => AnyOf(poly, ring => AnyOf(ring, c => test(c, shape2))))
    case Feature(g) => ShapesIntersectBy(test, g, shape2)
    case GeometryCollection(gs) => AnyMemberIntersects(test, gs, shape2)
    case FeatureCollection(fs) => AnyMemberIntersects(test, fs, shape2)
    case _ => false
  }

  /** `members.some(m => shapesIntersect(m, shape2))`. */
  function AnyMemberIntersects(test: PointInPolygon, members: seq<Shape>, shape2: Shape): (r: bool)
    ensures r ==> exists m :: m in members && ShapesIntersectBy(test, m, shape2)
    ensures (exists m :: m in members && ShapesIntersectBy(test, m, shape2)) ==> r
    decreases members, 0
  {
    if members == [] then false
    else
      assert forall m :: m in members <==> m == members[0] || m in members[1..];
      ShapesIntersectBy(test, members[0], shape2) || AnyMemberIntersects(test, members[1..], shape2)
  }

  /** `shapesIntersect` as `src/Shapes.js` defines it. */
  function ShapesIntersect(inside: PointInPolygon, swapped: PointInPolygon,
                           shape1: Shape, shape2: Shape): bool
  {
    ShapesIntersectBy(VertexTest(inside, swapped), shape1, shape2)
  }

  /**
   * The positions of a shape that the dispatch tests, in order: the point of
   * a Point, every position of every ring or line, of every polygon, and of
   * every member of a collection. MultiPoint, LineString and unknown types
   * contribute none.
   */
  function TestedVertices(s: Shape): seq<Position>
    decreases s, 1
  {
    match s
    case Point(c) => [c]
    case Polygon(rings) => Flatten(rings)
    case MultiLineString(lines) => Flatten(lines)
    case MultiPolygon(polys) => Flatten(seq(|polys|, i requires 0 <= i < |polys| => Flatten(polys[i])))
    case Feature(g) => TestedVertices(g)
    case GeometryCollection(gs) => MembersTestedVertices(gs)
    case FeatureCollection(fs) => MembersTestedVertices(fs)
    case _ => []
  }

  function MembersTestedVertices(members: seq<Shape>): seq<Position>
    decreases members, 0
  {
    if members == [] then [] else TestedVertices(members[0]) + MembersTestedVertices(members[1..])
  }

  /** Some position in some line of `lines` passes `test` iff one of the flattened positions does. */
  lemma {:induction false} NestedAnyIsFlatAny(test: PointInPolygon, lines: seq<seq<Position>>, shape2: Shape)
    ensures AnyOf(lines, line => AnyOf(line, c => test(c, shape2)))
        <==> exists v :: v in Flatten(lines) && test(v, shape2)
  {
    forall v | v in Flatten(lines) && test(v, shape2)
      ensures AnyOf(lines, line => AnyOf(line, c => test(c, shape2)))
    {
      InFlatten(lines, v);
      var line :| line in lines && v in line;
      assert AnyOf(line, c => test(c, shape2));
    }
    if AnyOf(lines, line => AnyOf(line, c => test(c, shape2))) {
      var line :| line in lines && AnyOf(line, c => test(c, shape2));
      var v :| v in line && test(v, shape2);
      InFlatten(lines, v);
    }
  }

  /**
   * The vertex-containment reading of the dispatch: `shape1` intersects
   * `shape2` exactly when some tested vertex of `shape1` passes the test
   * against `shape2`.
   */
  lemma {:induction false} IntersectsIffTestedVertexInside(test: PointInPolygon, shape1: Shape, shape2: Shape)
    ensures ShapesIntersectBy(test, shape1, shape2)
        <==> exists v :: v in TestedVertices(shape1) && test(v, shape2)
    decreases shape1, 1
  {
    match shape1
    case Point(c) =>
    case Polygon(rings) => NestedAnyIsFlatAny(test, rings, shape2);
    case MultiLineString(lines) => NestedAnyIsFlatAny(test, lines, shape2);
    case MultiPolygon(polys) =>
      var rings := seq(|polys|, i requires 0 <= i < |polys| => Flatten(polys[i]));
      forall v ensures v in Flatten(rings) <==> exists poly :: poly in polys && v in Flatten(poly) {
        InFlatten(rings, v);
        if exists poly :: poly in polys && v in Flatten(poly) {
          var poly :| poly in polys && v in Flatten(poly);
          var i :| 0 <= i < |polys| && polys[i] == poly;
          assert rings[i] in rings;
        }
      }
      forall poly | poly in polys
        ensures AnyOf(poly, ring => AnyOf(ring, c => test(c, shape2)))
            <==> exists v :: v in Flatten(poly) && test(v, shape2)
      {
        NestedAnyIsFlatAny(test, poly, shape2);
      }
    case Feature(g) => IntersectsIffTestedVertexInside(test, g, shape2);
    case GeometryCollection(gs) => MembersIntersectIffTestedVertexInside(test, gs, shape2);
    case FeatureCollection(fs) => MembersIntersectIffTestedVertexInside(test, fs, shape2);
    case MultiPoint(_) =>
    case LineString(_) =>
    case Other(_) =>
  }

  lemma {:induction false} MembersIntersectIffTestedVertexInside(test: PointInPolygon, members: seq<Shape>, shape2: Shape)
    ensures AnyMemberIntersects(test, members, shape2)
        <==> exists v :: v in MembersTestedVertices(members) && test(v, shape2)
    decreases members, 0
  {
    if members != [] {
      IntersectsIffTestedVertexInside(test, members[0], shape2);
      MembersIntersectIffTestedVertexInside(test, members[1..], shape2);
      assert MembersTestedVertices(members)
          == TestedVertices(members[0]) + MembersTestedVertices(members[1..]);
    }
  }

  /**
   * The dispatch case by case: a Point is its vertex test, a Polygon or
   * MultiLineString asks for some position in some ring or line, a
   * MultiPolygon for some position in some ring of some polygon, a Feature is
   * its geometry, a collection asks for some member, and every other type is
   * false whatever the test says.
   */
  lemma ShapesIntersectCases(test: PointInPolygon, shape1: Shape, shape2: Shape)
    ensures shape1.Point? ==> (ShapesIntersectBy(test, shape1, shape2) <==> test(shape1.coordinates, shape2))
    ensures shape1.Polygon? ==> (ShapesIntersectBy(test, shape1, shape2) <==>
              exists ring, c :: ring in shape1.rings && c in ring && test(c, shape2))
    ensures shape1.MultiLineString? ==> (ShapesIntersectBy(test, shape1, shape2) <==>
              exists line, c :: line in shape1.lines && c in line && test(c, shape2))
    ensures shape1.MultiPolygon? ==> (ShapesIntersectBy(test, shape1, shape2) <==>
              exists poly, ring, c :: poly in shape1.polygons && ring in poly && c in ring && test(c, shape2))
    ensures shape1.Feature? ==> ShapesIntersectBy(test, shape1, shape2) == ShapesIntersectBy(test, shape1.geometry, shape2)
    ensures shape1.GeometryCollection? ==> (ShapesIntersectBy(test, shape1, shape2) <==>
              exists g :: g in shape1.geometries && ShapesIntersectBy(test, g, shape2))
    ensures shape1.FeatureCollection? ==> (ShapesIntersectBy(test, shape1, shape2) <==>
              exists f :: f in shape1.features && ShapesIntersectBy(test, f, shape2))
    ensures shape1.MultiPoint? || shape1.LineString? || shape1.Other? ==> !ShapesIntersectBy(test, shape1, shape2)
  {
  }

  /** A Polygon or a MultiLineString asks for some position of some ring (line) to pass `test`. */
  lemma LinesCase(test: PointInPolygon, lines: seq<seq<Position>>, shape1: Shape, shape2: Shape)
    requires shape1 == Polygon(lines) || shape1 == MultiLineString(lines)
    ensures ShapesIntersectBy(test, shape1, shape2) <==> exists line, c :: line in lines && c in line && test(c, shape2)
  {
  }

  /** Some position in some ring of the polygon passes `test` against `shape2`. */
  predicate PolygonPasses(test: PointInPolygon, poly: seq<seq<Position>>, shape2: Shape)
  {
    exists ring, c :: ring in poly && c in ring && test(c, shape2)
  }

  /** The MultiPolygon case one polygon at a time. */
  lemma MultiPolygonCase(test: PointInPolygon, polys: seq<seq<seq<Position>>>, shape2: Shape)
    ensures ShapesIntersectBy(test, MultiPolygon(polys), shape2)
        <==> exists poly :: poly in polys && PolygonPasses(test, poly, shape2)
  {
  }

  /** A shape without a tested vertex (all coordinate arrays empty) intersects nothing. */
  lemma NoTestedVertexNoIntersection(test: PointInPolygon, shape1: Shape, shape2: Shape)
    requires TestedVertices(shape1) == []
    ensures !ShapesIntersectBy(test, shape1, shape2)
  {
    IntersectsIffTestedVertexInside(test, shape1, shape2);
  }

  /**
   * The answer depends on `shape1` only through its tested vertices: two
   * shapes with the same tested vertices get the same answer. This is why a
   * large shape can contain a small one without either test noticing.
   */
  lemma OnlyTestedVerticesMatter(test: PointInPolygon, a: Shape, b: Shape, shape2: Shape)
    requires TestedVertices(a) == TestedVertices(b)
    ensures ShapesIntersectBy(test, a, shape2) == ShapesIntersectBy(test, b, shape2)
  {
    IntersectsIffTestedVertexInside(test, a, shape2);
    IntersectsIffTestedVertexInside(test, b, shape2);
  }

  /**
   * Reflexivity: when the point-in-polygon test counts a shape's own
   * vertices as inside it (turf counts the boundary as inside), a shape with
   * at least one tested vertex intersects itself.
   */
  lemma SelfIntersection(test: PointInPolygon, shape: Shape)
    requires TestedVertices(shape) != []
    requires forall v :: v in TestedVertices(shape) ==> test(v, shape)
    ensures ShapesIntersectBy(test, shape, shape)
  {
    IntersectsIffTestedVertexInside(test, shape, shape);
    assert TestedVertices(shape)[0] in TestedVertices(shape);
  }

  /**
   * `src/Shapes.js` as a whole: some tested vertex of `shape1` is inside
   * `shape2` by the turf test, or passes the swapped-argument turf call.
   */
  lemma SrcShapesIntersectIsTwoWayVertexTest(inside: PointInPolygon, swapped: PointInPolygon,
                                             shape1: Shape, shape2: Shape)
    ensures ShapesIntersect(inside, swapped, shape1, shape2)
        <==> exists v :: v in TestedVertices(shape1) && (inside(v, shape2) || swapped(v, shape2))
  {
    IntersectsIffTestedVertexInside(VertexTest(inside, swapped), shape1, shape2);
  }
}
