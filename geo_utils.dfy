/**
 * `src/GeoUtils.js`: the older shape test, written with `find` instead of
 * `some`. It returns whatever `find` returns (a ring, a member, or
 * `undefined`), so callers use its truthiness. Its MultiPolygon branch calls
 * `coordsIntersect`, a name the file never defines: calling it raises a
 * ReferenceError.
 *
 * `ShapesIntersectWith` is the file's dispatch with the callback of the
 * innermost MultiPolygon `find` as a parameter: `ShapesIntersect` passes the
 * undefined name as written, `ShapesIntersectCorrected` the evidently
 * intended `coordsIntersectPolygon`.
 */
module GeoUtils {
  import opened Js
  import opened GeoJson
  import Shapes
  import BundleShapes

  /** The JavaScript values `shapesIntersect` can return. */
  datatype JsValue =
    | Undefined
    | Boolean(b: bool)
    | RingValue(ring: seq<Position>)               // a ring or line, found by `find`
    | PolygonValue(polygon: seq<seq<Position>>)    // a polygon of a MultiPolygon, found by `find`
    | ShapeValue(shape: Shape)                     // a collection member, found by `find`

  /** JavaScript truthiness; arrays and objects are truthy even when empty. */
  predicate Truthy(v: JsValue)
  {
    match v
    case Undefined => false
    case Boolean(b) => b
    case _ => true
  }

  /** How a JavaScript call ends: with a value, or by raising a ReferenceError. */
  datatype Completion<+T> = Normal(value: T) | ReferenceError

  /**
   * `xs.find(p)` where the callback may raise: the first element whose
   * callback answers true, `undefined` (None) when every callback answers
   * false, or the error of the first callback that raises.
   */
  function Find<T>(xs: seq<T>, p: T -> Completion<bool>): (r: Completion<Option<T>>)
    ensures r == Normal(None) <==> forall i :: 0 <= i < |xs| ==> p(xs[i]) == Normal(false)
    ensures r.ReferenceError? <==> exists i :: 0 <= i < |xs| && p(xs[i]).ReferenceError? &&
                                      forall k :: 0 <= k < i ==> p(xs[k]) == Normal(false)
    ensures r.Normal? && r.value.Some? ==>
              exists i :: 0 <= i < |xs| && xs[i] == r.value.value && p(xs[i]) == Normal(true) &&
                          forall k :: 0 <= k < i ==> p(xs[k]) == Normal(false)
  {
    if xs == [] then Normal(None)
    else
      match p(xs[0])
      case ReferenceError => ReferenceError
      case Normal(b) =>
        if b then Normal(Some(xs[0]))
        else
          var rest := Find(xs[1..], p);
          assert forall k :: 1 <= k < |xs| ==> xs[k] == xs[1..][k - 1];
          assert rest.ReferenceError? ==> exists i :: 0 <= i < |xs| && p(xs[i]).ReferenceError? &&
                                             forall k :: 0 <= k < i ==> p(xs[k]) == Normal(false) by {
            if rest.ReferenceError? {
              var i :| 0 <= i < |xs[1..]| && p(xs[1..][i]).ReferenceError? &&
                       forall k :: 0 <= k < i ==> p(xs[1..][k]) == Normal(false);
              assert p(xs[i + 1]).ReferenceError?;
            }
          }
          assert rest.Normal? && rest.value.Some? ==>
                   exists i :: 0 <= i < |xs| && xs[i] == rest.value.value && p(xs[i]) == Normal(true) &&
                               forall k :: 0 <= k < i ==> p(xs[k]) == Normal(false) by {
            if rest.Normal? && rest.value.Some? {
              var i :| 0 <= i < |xs[1..]| && xs[1..][i] == rest.value.value && p(xs[1..][i]) == Normal(true) &&
                       forall k :: 0 <= k < i ==> p(xs[1..][k]) == Normal(false);
              assert xs[i + 1] == rest.value.value;
            }
          }
          rest
  }

  /** Truthiness of what an inner `find` returned: a found position or ring is an array, so truthy. */
  function Found<T>(c: Completion<Option<T>>): Completion<bool>
  {
    match c
    case ReferenceError => ReferenceError
    case Normal(o) => Normal(o.Some?)
  }

  /** A `find` whose callback never raises answers normally, and finds something iff some callback answers true. */
  lemma FindTotal<T>(xs: seq<T>, p: T -> Completion<bool>)
    requires forall x :: x in xs ==> p(x).Normal?
    ensures Find(xs, p).Normal?
    ensures Find(xs, p).value.Some? <==> exists x :: x in xs && p(x) == Normal(true)
  {
    forall i | 0 <= i < |xs| ensures p(xs[i]).Normal? {
      assert xs[i] in xs;
    }
    var r := Find(xs, p);
    if exists x :: x in xs && p(x) == Normal(true) {
      var x :| x in xs && p(x) == Normal(true);
      var j :| 0 <= j < |xs| && xs[j] == x;
      assert p(xs[j]) != Normal(false);
    }
    if r.value.Some? {
      var i :| 0 <= i < |xs| && xs[i] == r.value.value && p(xs[i]) == Normal(true) &&
               forall k :: 0 <= k < i ==> p(xs[k]) == Normal(false);
      assert xs[i] in xs;
    }
  }

  /** A `find` whose callback never answers true raises iff some callback raises, and otherwise finds nothing. */
  lemma FindNeverTrue<T>(xs: seq<T>, p: T -> Completion<bool>)
    requires forall x :: x in xs ==> p(x) != Normal(true)
    ensures Find(xs, p) == if exists x :: x in xs && p(x).ReferenceError? then ReferenceError else Normal(None)
  {
    forall i | 0 <= i < |xs| ensures p(xs[i]) != Normal(true) {
      assert xs[i] in xs;
    }
    if exists x :: x in xs && p(x).ReferenceError? {
      var x :| x in xs && p(x).ReferenceError?;
      var j :| 0 <= j < |xs| && xs[j] == x;
      assert p(xs[j]) != Normal(false);
    } else {
      forall i | 0 <= i < |xs| ensures p(xs[i]) == Normal(false) {
        assert xs[i] in xs;
        var v := p(xs[i]);
        assert !v.ReferenceError?;
        assert v != Normal(true);
        assert v.value == false;
      }
    }
  }

  /** `coordsIntersectPolygon` of `src/GeoUtils.js`: one turf call. */
  function CoordsIntersectPolygon(inside: PointInPolygon, coords: Position, shape: Shape): bool
  {
    inside(coords, shape)
  }

  /** The innermost MultiPolygon callback as written: `coordsIntersect` is not defined. */
  function CoordsIntersect(coords: Position, shape: Shape): Completion<bool>
  {
    ReferenceError
  }

  /** The innermost MultiPolygon callback as evidently intended. */
  function CoordsIntersectIntended(inside: PointInPolygon): (Position, Shape) -> Completion<bool>
  {
    (coords, shape) => Normal(CoordsIntersectPolygon(inside, coords, shape))
  }

  /** The callback of the outer `find` of a Polygon or MultiLineString: its inner `find` over positions succeeds. */
  function LineCallback(inside: PointInPolygon, shape2: Shape): seq<Position> -> Completion<bool>
  {
    line => Found(Find(line, c => Normal(CoordsIntersectPolygon(inside, c, shape2))))
  }

  /** The three nested callbacks of the MultiPolygon branch, innermost first. */
  function PositionCallback(innermost: (Position, Shape) -> Completion<bool>, shape2: Shape): Position -> Completion<bool>
  {
    c => innermost(c, shape2)
  }

  function RingCallback(innermost: (Position, Shape) -> Completion<bool>, shape2: Shape): seq<Position> -> Completion<bool>
  {
    ring => Found(Find(ring, PositionCallback(innermost, shape2)))
  }

  function PolygonCallback(innermost: (Position, Shape) -> Completion<bool>, shape2: Shape): seq<seq<Position>> -> Completion<bool>
  {
    poly => Found(Find(poly, RingCallback(innermost, shape2)))
  }

  function RingResult(c: Completion<Option<seq<Position>>>): Completion<JsValue>
  {
    match c
    case ReferenceError => ReferenceError
    case Normal(None) => Normal(Undefined)
    case Normal(Some(ring)) => Normal(RingValue(ring))
  }

  function PolygonResult(c: Completion<Option<seq<seq<Position>>>>): Completion<JsValue>
  {
    match c
    case ReferenceError => ReferenceError
    case Normal(None) => Normal(Undefined)
    case Normal(Some(poly)) => Normal(PolygonValue(poly))
  }

  function MemberResult(c: Completion<Option<Shape>>): Completion<JsValue>
  {
    match c
    case ReferenceError => ReferenceError
    case Normal(None) => Normal(Undefined)
    case Normal(Some(m)) => Normal(ShapeValue(m))
  }

  /** The `shapesIntersect` dispatch of `src/GeoUtils.js`, given the innermost MultiPolygon callback. */
  function ShapesIntersectWith(inside: PointInPolygon, innermost: (Position, Shape) -> Completion<bool>,
                               shape1: Shape, shape2: Shape): Completion<JsValue>
    decreases shape1, 1
  {
    match shape1
    case Point(c) => Normal(Boolean(CoordsIntersectPolygon(inside, c, shape2)))
    case Polygon(rings) => RingResult(Find(rings, LineCallback(inside, shape2)))
    case MultiLineString(lines) => RingResult(Find(lines, LineCallback(inside, shape2)))
    case MultiPolygon(polys) => PolygonResult(Find(polys, PolygonCallback(innermost, shape2)))
    case Feature(g) => ShapesIntersectWith(inside, innermost, g, shape2)
    case GeometryCollection(gs) => MemberResult(FindMember(inside, innermost, gs, shape2))
    case FeatureCollection(fs) => MemberResult(FindMember(inside, innermost, fs, shape2))
    case _ => Normal(Boolean(false))
  }

  /** `members.find(m => shapesIntersect(m, shape2))`: the first member with a truthy answer. */
  function FindMember(inside: PointInPolygon, innermost: (Position, Shape) -> Completion<bool>,
                      members: seq<Shape>, shape2: Shape): (r: Completion<Option<Shape>>)
    ensures r.Normal? && r.value.Some? ==>
              exists i :: 0 <= i < |members| && members[i] == r.value.value &&
                          var a := ShapesIntersectWith(inside, innermost, members[i], shape2);
                          a.Normal? && Truthy(a.value)
    decreases members, 0
  {
    if members == [] then Normal(None)
    else
      match ShapesIntersectWith(inside, innermost, members[0], shape2)
      case ReferenceError => ReferenceError
      case Normal(v) =>
        if Truthy(v) then Normal(Some(members[0]))
        else
          var rest := FindMember(inside, innermost, members[1..], shape2);
          assert rest.Normal? && rest.value.Some? ==>
                   exists i :: 1 <= i < |members| && members[i] == rest.value.value &&
                               var a := ShapesIntersectWith(inside, innermost, members[i], shape2);
                               a.Normal? && Truthy(a.value) by {
            if rest.Normal? && rest.value.Some? {
              var i :| 0 <= i < |members[1..]| && members[1..][i] == rest.value.value &&
                       var a := ShapesIntersectWith(inside, innermost, members[1..][i], shape2);
                       a.Normal? && Truthy(a.value);
              assert members[i + 1] == members[1..][i];
            }
          }
          rest
  }

  /** `shapesIntersect` of `src/GeoUtils.js` as written. */
  function ShapesIntersect(inside: PointInPolygon, shape1: Shape, shape2: Shape): Completion<JsValue>
  {
    ShapesIntersectWith(inside, CoordsIntersect, shape1, shape2)
  }

  /** `shapesIntersect` of `src/GeoUtils.js` with `coordsIntersectPolygon` in the MultiPolygon branch. */
  function ShapesIntersectCorrected(inside: PointInPolygon, shape1: Shape, shape2: Shape): Completion<JsValue>
  {
    ShapesIntersectWith(inside, CoordsIntersectIntended(inside), shape1, shape2)
  }

  /**
   * Some MultiPolygon in the shape has a position. This is a sufficient
   * condition for the innermost callback to be reachable, not a statement
   * that `find` reaches it: `find` stops at the first truthy member.
   */
  predicate HasMultiPolygonVertex(s: Shape)
    decreases s, 1
  {
    match s
    case MultiPolygon(_) => Shapes.TestedVertices(s) != []
    case Feature(g) => HasMultiPolygonVertex(g)
    case GeometryCollection(gs) => AnyHasMultiPolygonVertex(gs)
    case FeatureCollection(fs) => AnyHasMultiPolygonVertex(fs)
    case _ => false
  }

  predicate AnyHasMultiPolygonVertex(members: seq<Shape>)
    decreases members, 0
  {
    members != [] && (HasMultiPolygonVertex(members[0]) || AnyHasMultiPolygonVertex(members[1..]))
  }

  /** Some position of the ring or line is inside `shape2`. */
  predicate LineHasInside(inside: PointInPolygon, line: seq<Position>, shape2: Shape)
  {
    exists c :: c in line && inside(c, shape2)
  }

  /** The callback over one ring or line answers, without raising, whether some position is inside `shape2`. */
  lemma LineCallbackAnswers(inside: PointInPolygon, line: seq<Position>, shape2: Shape)
    ensures LineCallback(inside, shape2)(line) == Normal(LineHasInside(inside, line, shape2))
  {
    FindTotal(line, c => Normal(CoordsIntersectPolygon(inside, c, shape2)));
  }

  /**
   * A Polygon or MultiLineString answers the first ring (line) holding a
   * position inside `shape2`, or `undefined` when there is none; it never
   * raises.
   */
  lemma RingsFindFirstRingInside(inside: PointInPolygon, rings: seq<seq<Position>>, shape2: Shape)
    ensures var r := Find(rings, LineCallback(inside, shape2));
            && r.Normal?
            && (r.value.None? <==> forall ring :: ring in rings ==> !LineHasInside(inside, ring, shape2))
            && (r.value.Some? ==>
                  exists i :: 0 <= i < |rings| && rings[i] == r.value.value && LineHasInside(inside, rings[i], shape2) &&
                    forall k :: 0 <= k < i ==> !LineHasInside(inside, rings[k], shape2))
  {
    var p := LineCallback(inside, shape2);
    forall ring | ring in rings
      ensures p(ring) == Normal(LineHasInside(inside, ring, shape2))
    {
      LineCallbackAnswers(inside, ring, shape2);
    }
    FindTotal(rings, p);
    var r := Find(rings, p);
    if r.value.Some? {
      var i :| 0 <= i < |rings| && rings[i] == r.value.value && p(rings[i]) == Normal(true) &&
               forall k :: 0 <= k < i ==> p(rings[k]) == Normal(false);
      assert rings[i] in rings;
      forall k | 0 <= k < i ensures !LineHasInside(inside, rings[k], shape2) {
        assert rings[k] in rings;
      }
    }
  }

  /**
   * The Polygon and MultiLineString branches agree with the bundle's: they
   * never raise, and answer a truthy value iff some position of some ring
   * (line) is inside `shape2`.
   */
  lemma RingsAgreeWithBundle(inside: PointInPolygon, rings: seq<seq<Position>>, shape2: Shape)
    ensures var r := RingResult(Find(rings, LineCallback(inside, shape2)));
            r.Normal? && (Truthy(r.value) <==> exists ring :: ring in rings && LineHasInside(inside, ring, shape2))
  {
    RingsFindFirstRingInside(inside, rings, shape2);
  }

  /** The bundle's Polygon or MultiLineString answer, one ring (line) at a time. */
  lemma BundleRingsIffRingInside(inside: PointInPolygon, rings: seq<seq<Position>>, shape1: Shape, shape2: Shape)
    requires shape1 == Polygon(rings) || shape1 == MultiLineString(rings)
    ensures BundleShapes.ShapesIntersect(inside, shape1, shape2)
        <==> exists ring :: ring in rings && LineHasInside(inside, ring, shape2)
  {
    var test := BundleShapes.VertexTest(inside);
    Shapes.LinesCase(test, rings, shape1, shape2);
    if exists ring, c :: ring in rings && c in ring && test(c, shape2) {
      var ring, c :| ring in rings && c in ring && test(c, shape2);
      assert LineHasInside(inside, ring, shape2);
    }
    if exists ring :: ring in rings && LineHasInside(inside, ring, shape2) {
      var ring :| ring in rings && LineHasInside(inside, ring, shape2);
      var c :| c in ring && inside(c, shape2);
      assert test(c, shape2);
    }
  }

  /** As written, the ring callback raises as soon as the ring has a position. */
  lemma RingCallbackRaises(ring: seq<Position>, shape2: Shape)
    ensures RingCallback(CoordsIntersect, shape2)(ring) == if exists c :: c in ring then ReferenceError else Normal(false)
  {
    var pc := PositionCallback(CoordsIntersect, shape2);
    forall c ensures pc(c) == ReferenceError {
      assert pc(c) == CoordsIntersect(c, shape2);
    }
    FindNeverTrue(ring, pc);
    if ring != [] {
      assert ring[0] in ring;
    }
  }

  /** The polygon has a position in one of its rings. */
  predicate PolygonHasPosition(poly: seq<seq<Position>>)
  {
    exists ring, c :: ring in poly && c in ring
  }

  /** As written, the polygon callback raises as soon as one of the polygon's rings has a position. */
  lemma PolygonCallbackRaises(poly: seq<seq<Position>>, shape2: Shape)
    ensures PolygonCallback(CoordsIntersect, shape2)(poly)
         == if PolygonHasPosition(poly) then ReferenceError else Normal(false)
  {
    var rc := RingCallback(CoordsIntersect, shape2);
    forall ring | ring in poly
      ensures rc(ring) == if exists c :: c in ring then ReferenceError else Normal(false)
    {
      RingCallbackRaises(ring, shape2);
    }
    FindNeverTrue(poly, rc);
    assert PolygonCallback(CoordsIntersect, shape2)(poly) == Found(Find(poly, rc));
    if PolygonHasPosition(poly) {
      var ring, c :| ring in poly && c in ring;
      assert rc(ring).ReferenceError?;
    }
  }

  /**
   * As written, a MultiPolygon raises a ReferenceError as soon as one of its
   * polygons has a position, because the innermost callback calls the
   * undefined `coordsIntersect`; without positions it answers `undefined`.
   */
  lemma MultiPolygonRaisesReferenceError(inside: PointInPolygon, polys: seq<seq<seq<Position>>>, shape2: Shape)
    ensures ShapesIntersect(inside, MultiPolygon(polys), shape2)
         == if exists poly :: poly in polys && PolygonHasPosition(poly) then ReferenceError else Normal(Undefined)
  {
    var pc := PolygonCallback(CoordsIntersect, shape2);
    forall poly | poly in polys
      ensures pc(poly) == if PolygonHasPosition(poly) then ReferenceError else Normal(false)
    {
      PolygonCallbackRaises(poly, shape2);
    }
    FindNeverTrue(polys, pc);
    assert ShapesIntersect(inside, MultiPolygon(polys), shape2) == PolygonResult(Find(polys, pc));
  }

  /** With a callback that answers the turf test, a polygon's callback answers whether one of its positions is inside. */
  lemma PolygonCallbackAnswers(inside: PointInPolygon, innermost: (Position, Shape) -> Completion<bool>,
                               poly: seq<seq<Position>>, shape2: Shape)
    requires forall c :: innermost(c, shape2) == Normal(inside(c, shape2))
    ensures PolygonCallback(innermost, shape2)(poly)
         == Normal(exists ring, c :: ring in poly && c in ring && inside(c, shape2))
  {
    var rc := RingCallback(innermost, shape2);
    forall ring | ring in poly
      ensures rc(ring) == Normal(exists c :: c in ring && inside(c, shape2))
    {
      var pc := PositionCallback(innermost, shape2);
      forall c ensures pc(c) == Normal(inside(c, shape2)) {
        assert pc(c) == innermost(c, shape2);
      }
      FindTotal(ring, pc);
    }
    FindTotal(poly, rc);
    assert PolygonCallback(innermost, shape2)(poly) == Found(Find(poly, rc));
  }

  /** A polygon without positions gets a false answer from its callback, which then never calls the innermost one. */
  lemma EmptyPolygonCallback(innermost: (Position, Shape) -> Completion<bool>, poly: seq<seq<Position>>, shape2: Shape)
    requires !PolygonHasPosition(poly)
    ensures PolygonCallback(innermost, shape2)(poly) == Normal(false)
  {
    var rc := RingCallback(innermost, shape2);
    forall ring | ring in poly ensures rc(ring) == Normal(false) {
      EmptyIffNoMember(ring);
    }
    FindTotal(poly, rc);
    assert PolygonCallback(innermost, shape2)(poly) == Found(Find(poly, rc));
  }

  lemma EmptyIffNoMember<T>(xs: seq<T>)
    ensures xs == [] <==> forall x :: x !in xs
  {
    if xs != [] {
      assert xs[0] in xs;
    }
  }

  /**
   * Wherever the innermost callback is the turf test, or is never reached,
   * the `find`-based dispatch raises nothing and its answer is truthy
   * exactly when the bundle's `some`-based dispatch answers true.
   */
  lemma {:induction false} AgreesWithBundle(inside: PointInPolygon, innermost: (Position, Shape) -> Completion<bool>,
                                            shape1: Shape, shape2: Shape)
    requires (forall c, s :: innermost(c, s) == Normal(inside(c, s))) || !HasMultiPolygonVertex(shape1)
    ensures var r := ShapesIntersectWith(inside, innermost, shape1, shape2);
            r.Normal? && Truthy(r.value) == BundleShapes.ShapesIntersect(inside, shape1, shape2)
    decreases shape1, 1
  {
    match shape1
    case Point(c) =>
    case Polygon(rings) =>
      BundleRingsIffRingInside(inside, rings, shape1, shape2);
      RingsAgreeWithBundle(inside, rings, shape2);
    case MultiLineString(lines) =>
      BundleRingsIffRingInside(inside, lines, shape1, shape2);
      RingsAgreeWithBundle(inside, lines, shape2);
    case MultiPolygon(polys) => MultiPolygonAgreesWithBundle(inside, innermost, polys, shape2);
    case Feature(g) => AgreesWithBundle(inside, innermost, g, shape2);
    case GeometryCollection(gs) => MembersAgreeWithBundle(inside, innermost, gs, shape2);
    case FeatureCollection(fs) => MembersAgreeWithBundle(inside, innermost, fs, shape2);
    case MultiPoint(_) =>
    case LineString(_) =>
    case Other(_) =>
  }

  lemma MultiPolygonAgreesWithBundle(inside: PointInPolygon, innermost: (Position, Shape) -> Completion<bool>,
                                     polys: seq<seq<seq<Position>>>, shape2: Shape)
    requires (forall c, s :: innermost(c, s) == Normal(inside(c, s))) || !HasMultiPolygonVertex(MultiPolygon(polys))
    ensures var r := ShapesIntersectWith(inside, innermost, MultiPolygon(polys), shape2);
            r.Normal? && Truthy(r.value) == BundleShapes.ShapesIntersect(inside, MultiPolygon(polys), shape2)
  {
    if forall c, s :: innermost(c, s) == Normal(inside(c, s)) {
      TurfMultiPolygonAgrees(inside, innermost, polys, shape2);
    } else {
      EmptyMultiPolygonAgrees(inside, innermost, polys, shape2);
    }
  }

  /** With the turf test innermost, the MultiPolygon branch agrees with the bundle's. */
  lemma TurfMultiPolygonAgrees(inside: PointInPolygon, innermost: (Position, Shape) -> Completion<bool>,
                               polys: seq<seq<seq<Position>>>, shape2: Shape)
    requires forall c :: innermost(c, shape2) == Normal(inside(c, shape2))
    ensures var r := ShapesIntersectWith(inside, innermost, MultiPolygon(polys), shape2);
            r.Normal? && Truthy(r.value) == BundleShapes.ShapesIntersect(inside, MultiPolygon(polys), shape2)
  {
    FoundPolygonIffInside(inside, innermost, polys, shape2);
    BundleMultiPolygonIffPolygonInside(inside, polys, shape2);
    assert ShapesIntersectWith(inside, innermost, MultiPolygon(polys), shape2)
        == PolygonResult(Find(polys, PolygonCallback(innermost, shape2)));
  }

  /** Some position of the polygon is inside `shape2`. */
  predicate PolygonHasInside(inside: PointInPolygon, poly: seq<seq<Position>>, shape2: Shape)
  {
    exists ring, c :: ring in poly && c in ring && inside(c, shape2)
  }

  /** Some polygon has a position inside `shape2`. */
  predicate AnyPolygonHasInside(inside: PointInPolygon, polys: seq<seq<seq<Position>>>, shape2: Shape)
  {
    exists poly :: poly in polys && PolygonHasInside(inside, poly, shape2)
  }

  /** The bundle's MultiPolygon answer, one polygon at a time. */
  lemma BundleMultiPolygonIffPolygonInside(inside: PointInPolygon, polys: seq<seq<seq<Position>>>, shape2: Shape)
    ensures BundleShapes.ShapesIntersect(inside, MultiPolygon(polys), shape2)
        <==> AnyPolygonHasInside(inside, polys, shape2)
  {
    Shapes.MultiPolygonCase(BundleShapes.VertexTest(inside), polys, shape2);
    forall poly | poly in polys
      ensures PolygonHasInside(inside, poly, shape2) == Shapes.PolygonPasses(BundleShapes.VertexTest(inside), poly, shape2)
    {
    }
  }

  /** With the turf test innermost, the MultiPolygon branch answers a truthy value iff one polygon has a position inside. */
  lemma FoundPolygonIffInside(inside: PointInPolygon, innermost: (Position, Shape) -> Completion<bool>,
                              polys: seq<seq<seq<Position>>>, shape2: Shape)
    requires forall c :: innermost(c, shape2) == Normal(inside(c, shape2))
    ensures var r := PolygonResult(Find(polys, PolygonCallback(innermost, shape2)));
            r.Normal? && (Truthy(r.value) <==> AnyPolygonHasInside(inside, polys, shape2))
  {
    var pc := PolygonCallback(innermost, shape2);
    forall poly | poly in polys
      ensures pc(poly) == Normal(PolygonHasInside(inside, poly, shape2))
    {
      PolygonCallbackAnswers(inside, innermost, poly, shape2);
    }
    FindTotal(polys, pc);
  }

  lemma EmptyMultiPolygonAgrees(inside: PointInPolygon, innermost: (Position, Shape) -> Completion<bool>,
                                polys: seq<seq<seq<Position>>>, shape2: Shape)
    requires !HasMultiPolygonVertex(MultiPolygon(polys))
    ensures var r := ShapesIntersectWith(inside, innermost, MultiPolygon(polys), shape2);
            r.Normal? && Truthy(r.value) == BundleShapes.ShapesIntersect(inside, MultiPolygon(polys), shape2)
  {
    var always: PointInPolygon := (c, s) => true;
    Shapes.NoTestedVertexNoIntersection(always, MultiPolygon(polys), shape2);
    Shapes.ShapesIntersectCases(always, MultiPolygon(polys), shape2);
    Shapes.NoTestedVertexNoIntersection(BundleShapes.VertexTest(inside), MultiPolygon(polys), shape2);
    var pc := PolygonCallback(innermost, shape2);
    forall poly | poly in polys ensures pc(poly) == Normal(false) {
      EmptyPolygonCallback(innermost, poly, shape2);
    }
    FindTotal(polys, pc);
    assert ShapesIntersectWith(inside, innermost, MultiPolygon(polys), shape2) == PolygonResult(Find(polys, pc));
  }

  lemma {:induction false} MembersAgreeWithBundle(inside: PointInPolygon, innermost: (Position, Shape) -> Completion<bool>,
                                                  members: seq<Shape>, shape2: Shape)
    requires (forall c, s :: innermost(c, s) == Normal(inside(c, s))) || !AnyHasMultiPolygonVertex(members)
    ensures var r := FindMember(inside, innermost, members, shape2);
            r.Normal? && r.value.Some? == Shapes.AnyMemberIntersects(BundleShapes.VertexTest(inside), members, shape2)
    decreases members, 0
  {
    if members != [] {
      AgreesWithBundle(inside, innermost, members[0], shape2);
      MembersAgreeWithBundle(inside, innermost, members[1..], shape2);
    }
  }

  /**
   * The corrected test never raises, and its answer is truthy exactly when
   * the bundle's `shapesIntersect` holds.
   */
  lemma CorrectedAgreesWithBundle(inside: PointInPolygon, shape1: Shape, shape2: Shape)
    ensures ShapesIntersectCorrected(inside, shape1, shape2).Normal?
    ensures Truthy(ShapesIntersectCorrected(inside, shape1, shape2).value) == BundleShapes.ShapesIntersect(inside, shape1, shape2)
  {
    AgreesWithBundle(inside, CoordsIntersectIntended(inside), shape1, shape2);
  }

  /**
   * The test as written agrees with the bundle's on every shape whose
   * dispatch reaches no MultiPolygon with a position.
   */
  lemma AsWrittenAgreesWithoutMultiPolygons(inside: PointInPolygon, shape1: Shape, shape2: Shape)
    requires !HasMultiPolygonVertex(shape1)
    ensures ShapesIntersect(inside, shape1, shape2).Normal?
    ensures Truthy(ShapesIntersect(inside, shape1, shape2).value) == BundleShapes.ShapesIntersect(inside, shape1, shape2)
  {
    AgreesWithBundle(inside, CoordsIntersect, shape1, shape2);
  }
}
