/**
 * The foreign geometry the core calls into, kept abstract: CanvasKit path
 * construction, contour measures and boolean operations, the SDK's transforms and
 * distance, and the visibility-polygon library. Native path objects are handles
 * whose liveness is tracked by `Natives`.
 */
module CanvasKit {
  import opened Wrappers
  import opened Scene

  /** A contour measure: its arc length and its position function (getPosTan). */
  datatype RawContour = RawContour(length: real, pos: real -> Vec2)

  type Contour = c: RawContour | c.length >= 0.0 witness RawContour(0.0, (s: real) => Vec2(0.0, 0.0))

  /** The data of a native path: its flat command stream (toCmds) and its contours. */
  datatype Geom = Geom(cmds: seq<real>, contours: seq<Contour>)

  /** A native path object: a handle that must be released, and its current data. */
  datatype SkPath = SkPath(handle: nat, geom: Geom)

  datatype Segment = Segment(a: Vec2, b: Vec2)

  /** The foreign operations, as uninterpreted functions. */
  datatype Kit = Kit(
    // PathHelpers.shapeToSkPath, curveToSkPath, lineToSkPath and Path.MakeFromCmds
    shapePath: Item -> Geom,
    curvePath: Item -> Geom,
    linePath: Item -> Geom,
    fromCmds: seq<real> -> Option<Geom>,
    // ContourMeasure.getSegment(start, end, true)
    segment: (Contour, real, real) -> Geom,
    // a door segment stroked to strokeWidth + 1 and moved into world space
    strokeDoor: (Geom, Item) -> Geom,
    // an outline stroked with the drawing's width, cap and join, moved into world space
    strokeOutline: (Geom, Item) -> Geom,
    // PathOp.Difference
    difference: (Geom, Geom) -> Geom,
    // the inverse of the drawing's transform
    toItemSpace: (Geom, Item) -> Geom,
    // getSkPathPoint, which the door overlay calls on PathHelpers but PathHelpers does not define
    pathPoint: Geom -> Option<Vec2>,
    // transformPoint / inverseTransformPoint with MathM.fromItem
    toWorld: (Transform, Vec2) -> Vec2,
    toLocal: (Transform, Vec2) -> Vec2,
    // Math2.distance
    distance: (Vec2, Vec2) -> real,
    // breakIntersections(convertToSegments(lines))
    segments: seq<seq<Vec2>> -> seq<Segment>,
    // computeViewport(position, segments, viewportMin, viewportMax)
    viewport: (Vec2, seq<Segment>, Vec2, Vec2) -> seq<Vec2>)

  /** The native heap of path objects: every allocation gets a new handle. */
  class Natives {
    var next: nat
    ghost var live: set<nat>

    ghost predicate Valid()
      reads this
    {
      forall h :: h in live ==> h < next
    }

    constructor ()
      ensures Valid() && live == {} && next == 0
    {
      next := 0;
      live := {};
    }

    /** A native path object is created. */
    method Alloc(g: Geom) returns (p: SkPath)
      requires Valid()
      modifies this
      ensures Valid()
      ensures p.handle == old(next) && p.geom == g
      ensures next == old(next) + 1 && live == old(live) + {p.handle}
    {
      p := SkPath(next, g);
      live := live + {next};
      next := next + 1;
    }

    /** `skPath.delete()`: only a live path may be released. */
    method Release(p: SkPath)
      requires Valid() && p.handle in live
      modifies this
      ensures Valid()
      ensures next == old(next) && live == old(live) - {p.handle}
    {
      live := live - {p.handle};
    }
  }
}
