/**
 * The route synthesiser behind `generateCrookedRoute`: a five-point path from the
 * bot to a destination whose three interior points sit on the straight line at the
 * quarter marks, each nudged on both axes by a bounded random jitter.
 *
 * `Math.random` is not modelled: its six draws (latitude, then longitude, for each
 * interior point in order) arrive as a sequence of reals in [0, 1).
 */
module Routes {
  import opened Common

  /** A geographic position in degrees. */
  datatype LatLng = LatLng(lat: real, lng: real)

  /** Number of interior points between the two ends. */
  const InteriorPoints: nat := 3

  /** Upper bound on the jitter amplitude, in degrees. */
  const JitterCap: real := 0.0003

  /** Number of random draws one route consumes. */
  const DrawsPerRoute: nat := 2 * InteriorPoints

  /** Draws as `Math.random` yields them: each in [0, 1). */
  predicate ValidDraws(rnd: seq<real>)
  {
    |rnd| == DrawsPerRoute && forall i :: 0 <= i < |rnd| ==> 0.0 <= rnd[i] < 1.0
  }

  /** The jitter amplitude: half the larger of the two spans, capped at `JitterCap`. */
  function MaxJitter(from: LatLng, to: LatLng): (j: real)
    ensures 0.0 <= j <= JitterCap
    ensures j <= 0.5 * AbsReal(to.lat - from.lat) || j <= 0.5 * AbsReal(to.lng - from.lng)
    ensures j == JitterCap || j == 0.5 * MaxReal(AbsReal(to.lat - from.lat), AbsReal(to.lng - from.lng))
  {
    var latDiff := AbsReal(to.lat - from.lat);
    var lngDiff := AbsReal(to.lng - from.lng);
    var scale := MaxReal(latDiff, lngDiff) * 0.5;
    MinReal(scale, JitterCap)
  }

  /** The point a fraction `k / 4` of the way from `from` to `to` (k = 1, 2, 3 for the interior). */
  function Quarter(from: LatLng, to: LatLng, k: nat): (q: LatLng)
    ensures k == 0 ==> q == from
    ensures k == InteriorPoints + 1 ==> q == to
  {
    LatLng(from.lat + (to.lat - from.lat) * (k as real) / ((InteriorPoints + 1) as real),
           from.lng + (to.lng - from.lng) * (k as real) / ((InteriorPoints + 1) as real))
  }

  /** The random displacement of one coordinate: `(draw - 0.5) * maxJitter`. */
  function Jitter(draw: real, jitter: real): (offset: real)
    ensures jitter == 0.0 || draw == 0.5 ==> offset == 0.0
  {
    (draw - 0.5) * jitter
  }

  /** Interior point `k` (1-based): its quarter mark displaced on each axis by its own draw. */
  function Waypoint(from: LatLng, to: LatLng, k: nat, jitter: real, drawLat: real, drawLng: real): (w: LatLng)
    ensures jitter == 0.0 ==> w == Quarter(from, to, k)
  {
    var q := Quarter(from, to, k);
    LatLng(q.lat + Jitter(drawLat, jitter), q.lng + Jitter(drawLng, jitter))
  }

  /** The whole path: `from`, the three jittered interior points, `to`. */
  function CrookedRoute(from: LatLng, to: LatLng, rnd: seq<real>): (route: seq<LatLng>)
    requires |rnd| == DrawsPerRoute
    ensures |route| == InteriorPoints + 2 && route[0] == from && route[|route| - 1] == to
  {
    var j := MaxJitter(from, to);
    [from,
     Waypoint(from, to, 1, j, rnd[0], rnd[1]),
     Waypoint(from, to, 2, j, rnd[2], rnd[3]),
     Waypoint(from, to, 3, j, rnd[4], rnd[5]),
     to]
  }

  /**
   * The path-building loop of `generateCrookedRoute`: start at `from`, push the three
   * interior points in order, each taking the next two draws, then push `to`.
   */
  method BuildRoute(from: LatLng, to: LatLng, rnd: seq<real>) returns (latlngs: seq<LatLng>)
    requires |rnd| == DrawsPerRoute
    ensures latlngs == CrookedRoute(from, to, rnd)
  {
    latlngs := [from];
    var jitter := MaxJitter(from, to);
    for i := 0 to InteriorPoints
      invariant |latlngs| == i + 1
      invariant latlngs == CrookedRoute(from, to, rnd)[..i + 1]
    {
      var q := Quarter(from, to, i + 1);
      var lat := q.lat + Jitter(rnd[2 * i], jitter);
      var lng := q.lng + Jitter(rnd[2 * i + 1], jitter);
      latlngs := latlngs + [LatLng(lat, lng)];
    }
    latlngs := latlngs + [to];
  }

  /** A product of two non-negative reals is non-negative. */
  lemma ProductNonNegative(a: real, b: real)
    ensures a >= 0.0 && b >= 0.0 ==> a * b >= 0.0
  {
  }

  /** A draw in [0, 1) moves a coordinate by at most half the jitter amplitude. */
  lemma JitterBound(draw: real, jitter: real)
    requires 0.0 <= jitter && 0.0 <= draw < 1.0
    ensures -jitter / 2.0 <= Jitter(draw, jitter) <= jitter / 2.0
  {
    assert Jitter(draw, jitter) + jitter / 2.0 == draw * jitter;
    assert jitter / 2.0 - Jitter(draw, jitter) == (1.0 - draw) * jitter;
    ProductNonNegative(draw, jitter);
    ProductNonNegative(1.0 - draw, jitter);
  }

  /** An interior point lies within half the jitter amplitude of its quarter mark on both axes. */
  lemma WaypointNear(from: LatLng, to: LatLng, k: nat, jitter: real, drawLat: real, drawLng: real)
    requires 0.0 <= jitter && 0.0 <= drawLat < 1.0 && 0.0 <= drawLng < 1.0
    ensures var w, q := Waypoint(from, to, k, jitter, drawLat, drawLng), Quarter(from, to, k);
      && AbsReal(w.lat - q.lat) <= jitter / 2.0
      && AbsReal(w.lng - q.lng) <= jitter / 2.0
  {
    JitterBound(drawLat, jitter);
    JitterBound(drawLng, jitter);
  }

  /**
   * Five points, starting at `from` and ending at `to`; each interior point lies within
   * half the jitter amplitude (so within 0.00015 degrees) of its quarter mark on both axes.
   */
  lemma RouteShape(from: LatLng, to: LatLng, rnd: seq<real>)
    requires ValidDraws(rnd)
    ensures var route := CrookedRoute(from, to, rnd);
      && |route| == 5
      && route[0] == from
      && route[4] == to
      && forall k :: 1 <= k <= 3 ==>
           && AbsReal(route[k].lat - Quarter(from, to, k).lat) <= MaxJitter(from, to) / 2.0
           && AbsReal(route[k].lng - Quarter(from, to, k).lng) <= MaxJitter(from, to) / 2.0
           && AbsReal(route[k].lat - Quarter(from, to, k).lat) <= JitterCap / 2.0
           && AbsReal(route[k].lng - Quarter(from, to, k).lng) <= JitterCap / 2.0
  {
    var j := MaxJitter(from, to);
    var route := CrookedRoute(from, to, rnd);
    forall k | 1 <= k <= 3
      ensures AbsReal(route[k].lat - Quarter(from, to, k).lat) <= j / 2.0
      ensures AbsReal(route[k].lng - Quarter(from, to, k).lng) <= j / 2.0
    {
      assert route[k] == Waypoint(from, to, k, j, rnd[2 * k - 2], rnd[2 * k - 1]);
      WaypointNear(from, to, k, j, rnd[2 * k - 2], rnd[2 * k - 1]);
    }
  }

  /** A destination equal to the start gives no jitter: the path is five copies of the start. */
  lemma StayPutRoute(from: LatLng, rnd: seq<real>)
    requires |rnd| == DrawsPerRoute
    ensures CrookedRoute(from, from, rnd) == [from, from, from, from, from]
  {
    assert MaxJitter(from, from) == 0.0;
    forall k: nat, d: real
      ensures Waypoint(from, from, k, 0.0, d, d) == from
    {
      assert Jitter(d, 0.0) == 0.0;
      assert (from.lat - from.lat) * (k as real) == 0.0;
      assert (from.lng - from.lng) * (k as real) == 0.0;
    }
  }
}
