/**
 * The geometry kernel of the obstacle view: `polarToSvg` and `makeWedgePath`.
 *
 * Angles are in degrees, 0 along +X and counter-clockwise in the robot's own
 * (north-up) frame; the SVG surface has its vertical axis pointing down, so every
 * point the kernel emits has its Y negated. `Math.cos` and `Math.sin` (with the
 * conversion from degrees) are not modelled: they arrive as a `Trig` value.
 */
module Geometry {

  /** A point in the plane (logical or SVG, as the name of the function says). */
  datatype Point = Point(x: real, y: real)

  /** Cosine and sine of an angle given in degrees. */
  datatype Trig = Trig(cosDeg: real -> real, sinDeg: real -> real)

  /** The trigonometric identity the browser's `Math.cos`/`Math.sin` satisfy (up to rounding). */
  ghost predicate Pythagorean(trig: Trig, angleDeg: real)
  {
    trig.cosDeg(angleDeg) * trig.cosDeg(angleDeg) + trig.sinDeg(angleDeg) * trig.sinDeg(angleDeg) == 1.0
  }

  /** The point at `radius` along `angleDeg` from (cx, cy), in the robot's north-up frame. */
  function LogicalPolar(cx: real, cy: real, radius: real, angleDeg: real, trig: Trig): Point
  {
    Point(cx + radius * trig.cosDeg(angleDeg), cy + radius * trig.sinDeg(angleDeg))
  }

  /** Reflection of a logical point onto the SVG surface, whose Y axis points down. */
  function ToScreen(p: Point): (q: Point)
    ensures q.x == p.x && q.y == -p.y
  {
    Point(p.x, -p.y)
  }

  /** `polarToSvg`: the same point as `LogicalPolar`, seen on the SVG surface. */
  function PolarToSvg(cx: real, cy: real, radius: real, angleDeg: real, trig: Trig): (p: Point)
    ensures p == ToScreen(LogicalPolar(cx, cy, radius, angleDeg, trig))
  {
    var cxSvg := cx;
    var cySvg := -cy;
    var logical := LogicalPolar(cx, cy, radius, angleDeg, trig);
    var offset := radius * trig.sinDeg(angleDeg);
    assert logical.y == cy + offset;
    Point(cxSvg + radius * trig.cosDeg(angleDeg), cySvg - offset)
  }

  /** Squared Euclidean distance between two points. */
  function DistSq(p: Point, q: Point): real
  {
    (p.x - q.x) * (p.x - q.x) + (p.y - q.y) * (p.y - q.y)
  }

  /** A point produced by `polarToSvg` lies on the circle of `radius` about the mirrored centre. */
  lemma PolarOnCircle(cx: real, cy: real, radius: real, angleDeg: real, trig: Trig)
    requires Pythagorean(trig, angleDeg)
    ensures DistSq(PolarToSvg(cx, cy, radius, angleDeg, trig), Point(cx, -cy)) == radius * radius
  {
    var c, s := trig.cosDeg(angleDeg), trig.sinDeg(angleDeg);
    var p := PolarToSvg(cx, cy, radius, angleDeg, trig);
    assert p.x - cx == radius * c;
    assert p.y - -cy == -(radius * s);
    calc {
      DistSq(p, Point(cx, -cy));
      (radius * c) * (radius * c) + (radius * s) * (radius * s);
      radius * radius * (c * c + s * s);
      radius * radius;
    }
  }

  /** The `fov` of `makeWedgePath`: the angular span, with 360 added once when negative. */
  function WedgeSpan(startAngle: real, endAngle: real): (span: real)
    ensures span == endAngle - startAngle || span == endAngle - startAngle + 360.0
    ensures -360.0 <= endAngle - startAngle < 360.0 ==> 0.0 <= span < 360.0
  {
    var fov := endAngle - startAngle;
    if fov < 0.0 then fov + 360.0 else fov
  }

  /** The SVG arc's large-arc flag for a span. */
  function LargeArcFlag(fov: real): (flag: int)
    ensures flag == 0 || flag == 1
    ensures flag == 1 <==> fov > 180.0
  {
    if fov > 180.0 then 1 else 0
  }

  /** The SVG arc's sweep flag: the wedge is always swept in the same direction. */
  const SweepFlag: int := 0

  /**
   * The path `M centre L start A r r 0 large sweep end Z`, kept as its parts; the
   * number-to-text formatting of the SVG string is not modelled.
   */
  datatype WedgePath = WedgePath(
    center: Point,
    arcStart: Point,
    radius: real,
    largeArc: int,
    sweep: int,
    arcEnd: Point)

  /** `makeWedgePath`: a pie slice about (cx, cy) from `startAngle` to `endAngle`. */
  function MakeWedgePath(cx: real, cy: real, radius: real, startAngle: real, endAngle: real, trig: Trig): (p: WedgePath)
    ensures p.center == Point(cx, -cy) && p.radius == radius && p.sweep == SweepFlag
    ensures p.arcStart == PolarToSvg(cx, cy, radius, startAngle, trig)
    ensures p.arcEnd == PolarToSvg(cx, cy, radius, endAngle, trig)
    ensures p.largeArc == 1 <==> WedgeSpan(startAngle, endAngle) > 180.0
  {
    var start := PolarToSvg(cx, cy, radius, startAngle, trig);
    var end := PolarToSvg(cx, cy, radius, endAngle, trig);
    var fov := WedgeSpan(startAngle, endAngle);
    WedgePath(Point(cx, -cy), start, radius, LargeArcFlag(fov), SweepFlag, end)
  }

  /**
   * Swapping the two angles selects the complementary arc: the two spans make one
   * full turn, so at most one of the two wedges is drawn with the large-arc flag.
   */
  lemma ComplementarySpans(startAngle: real, endAngle: real)
    requires -360.0 < endAngle - startAngle < 360.0
    requires startAngle != endAngle
    ensures WedgeSpan(startAngle, endAngle) + WedgeSpan(endAngle, startAngle) == 360.0
    ensures !(LargeArcFlag(WedgeSpan(startAngle, endAngle)) == 1 && LargeArcFlag(WedgeSpan(endAngle, startAngle)) == 1)
  {
  }

  /** Both ends of the arc lie on the wedge's circle, given the trigonometric identity. */
  lemma WedgeEndsOnCircle(cx: real, cy: real, radius: real, startAngle: real, endAngle: real, trig: Trig)
    requires Pythagorean(trig, startAngle) && Pythagorean(trig, endAngle)
    ensures var w := MakeWedgePath(cx, cy, radius, startAngle, endAngle, trig);
      && DistSq(w.arcStart, w.center) == radius * radius
      && DistSq(w.arcEnd, w.center) == radius * radius
  {
    PolarOnCircle(cx, cy, radius, startAngle, trig);
    PolarOnCircle(cx, cy, radius, endAngle, trig);
  }
}
