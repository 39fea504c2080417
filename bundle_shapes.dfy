/**
 * The shape test as built into `dist/bundle.js`: the same dispatch as
 * `src/Shapes.js`, but `coordsIntersectPolygon` makes a single turf call.
 */
module BundleShapes {
  import opened GeoJson
  import Shapes

  /** `coordsIntersectPolygon` of the bundle: the point inside the shape, one way only. */
  function CoordsIntersectPolygon(inside: PointInPolygon, coords: Position, shape: Shape): bool
  {
    inside(coords, shape)
  }

  function VertexTest(inside: PointInPolygon): PointInPolygon
  {
    (coords, shape) => CoordsIntersectPolygon(inside, coords, shape)
  }

  /** `shapesIntersect` of the bundle. */
  function ShapesIntersect(inside: PointInPolygon, shape1: Shape, shape2: Shape): bool
  {
    Shapes.ShapesIntersectBy(VertexTest(inside), shape1, shape2)
  }

  /** The bundle's test: some tested vertex of `shape1` is inside `shape2`. */
  lemma BundleShapesIntersectIsOneWayVertexTest(inside: PointInPolygon, shape1: Shape, shape2: Shape)
    ensures ShapesIntersect(inside, shape1, shape2)
        <==> exists v :: v in Shapes.TestedVertices(shape1) && inside(v, shape2)
  {
    Shapes.IntersectsIffTestedVertexInside(VertexTest(inside), shape1, shape2);
  }

  /**
   * The bundle's answer implies the `src/Shapes.js` answer, and the two agree
   * whenever the swapped-argument turf call never holds.
   */
  lemma BundleRefinesSrc(inside: PointInPolygon, swapped: PointInPolygon, shape1: Shape, shape2: Shape)
    ensures ShapesIntersect(inside, shape1, shape2) ==> Shapes.ShapesIntersect(inside, swapped, shape1, shape2)
    ensures (forall v :: v in Shapes.TestedVertices(shape1) ==> !swapped(v, shape2)) ==>
              ShapesIntersect(inside, shape1, shape2) == Shapes.ShapesIntersect(inside, swapped, shape1, shape2)
  {
    BundleShapesIntersectIsOneWayVertexTest(inside, shape1, shape2);
    Shapes.SrcShapesIntersectIsTwoWayVertexTest(inside, swapped, shape1, shape2);
  }
}
