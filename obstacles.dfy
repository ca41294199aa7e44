/**
 * The obstacle field: the five fixed ultrasonic sensors around the robot, the wedge
 * drawn for each, and how an `ultrasonic` frame reshapes and recolours the wedges.
 */
module Obstacles {
  import opened Common
  import opened Geometry

  /** A ranging sensor: mount point (m), boresight (deg), maximum range (m), field of view (deg). */
  datatype SensorDescriptor = SensorDescriptor(x: real, y: real, angle: real, maxR: real, fov: real)

  /** The fixed sensor set, index-aligned with the distances of an `ultrasonic` frame. */
  const Sensors: seq<SensorDescriptor> := [
    SensorDescriptor(0.0, 2.5, 90.0, 4.0, 30.0),
    SensorDescriptor(-1.75, 2.5, 110.0, 4.0, 30.0),
    SensorDescriptor(1.75, 2.5, 70.0, 4.0, 30.0),
    SensorDescriptor(-1.75, 0.0, 180.0, 3.0, 30.0),
    SensorDescriptor(1.75, 0.0, 0.0, 3.0, 30.0)
  ]

  /** Proximity bands used to colour a wedge. */
  datatype Fill = Alarm | Caution | Clear

  /** The fill attribute written for each band. */
  function FillColor(f: Fill): string
  {
    match f
    case Alarm => "rgba(255,0,0,0.5)"
    case Caution => "rgba(255,255,0,0.3)"
    case Clear => "rgba(0,0,255,0.3)"
  }

  /** Band of a raw (unclamped) distance: under 1 m alarm, under 2 m caution, else clear. */
  function FillFor(distance: real): (f: Fill)
    ensures f == Alarm <==> distance < 1.0
    ensures f == Caution <==> 1.0 <= distance < 2.0
    ensures f == Clear <==> 2.0 <= distance
  {
    if distance < 1.0 then Alarm else if distance < 2.0 then Caution else Clear
  }

  /** One SVG wedge: its path and its fill attribute (absent until the first reading). */
  datatype Wedge = Wedge(path: WedgePath, fill: Option<Fill>)

  /** The wedge of sensor `s` at `radius`, centred on the boresight, `fov` wide. */
  function SensorPath(s: SensorDescriptor, radius: real, trig: Trig): (p: WedgePath)
    ensures p.center == Point(s.x, -s.y) && p.radius == radius
    ensures 0.0 <= s.fov <= 180.0 ==> p.largeArc == 0
  {
    MakeWedgePath(s.x, s.y, radius, s.angle - s.fov / 2.0, s.angle + s.fov / 2.0, trig)
  }

  /** The wedge drawn at start-up: full range, no fill attribute. */
  function InitialWedge(s: SensorDescriptor, trig: Trig): (w: Wedge)
    ensures w.path.radius == s.maxR && w.fill == None
  {
    Wedge(SensorPath(s, s.maxR, trig), None)
  }

  /** The wedge after sensor `s` reports `distance`. */
  function RangeWedge(s: SensorDescriptor, distance: real, trig: Trig): (w: Wedge)
    ensures w.path.radius <= s.maxR
    ensures w.path.radius <= distance
    ensures distance <= s.maxR ==> w.path.radius == distance
    ensures distance >= s.maxR ==> w.path.radius == s.maxR
    ensures w.fill == Some(FillFor(distance))
    ensures w.path.center == Point(s.x, -s.y)
  {
    var radius := MinReal(s.maxR, distance);
    Wedge(SensorPath(s, radius, trig), Some(FillFor(distance)))
  }

  /** Whether index `i` of a frame has both a wedge and a sensor descriptor. */
  predicate Covered(wedgeCount: nat, distanceCount: nat, i: nat)
  {
    i < wedgeCount && i < distanceCount && i < |Sensors|
  }

  /** The wedges after an `ultrasonic` frame: covered indices redrawn, all others kept. */
  function ApplyRanges(wedges: seq<Wedge>, dist: seq<real>, trig: Trig): (r: seq<Wedge>)
    ensures |r| == |wedges|
  {
    seq(|wedges|, j requires 0 <= j < |wedges| =>
      if Covered(|wedges|, |dist|, j) then RangeWedge(Sensors[j], dist[j], trig) else wedges[j])
  }

  /** Every wedge of a frame is redrawn from its own sensor; the others are left alone. */
  lemma ApplyRangesEffect(wedges: seq<Wedge>, dist: seq<real>, trig: Trig, j: nat)
    requires j < |wedges|
    ensures Covered(|wedges|, |dist|, j) ==>
      && ApplyRanges(wedges, dist, trig)[j].path == MakeWedgePath(Sensors[j].x, Sensors[j].y,
           MinReal(Sensors[j].maxR, dist[j]),
           Sensors[j].angle - Sensors[j].fov / 2.0, Sensors[j].angle + Sensors[j].fov / 2.0, trig)
      && ApplyRanges(wedges, dist, trig)[j].path.radius == MinReal(Sensors[j].maxR, dist[j])
      && ApplyRanges(wedges, dist, trig)[j].path.radius <= Sensors[j].maxR
      && ApplyRanges(wedges, dist, trig)[j].fill == Some(FillFor(dist[j]))
    ensures !Covered(|wedges|, |dist|, j) ==> ApplyRanges(wedges, dist, trig)[j] == wedges[j]
  {
  }

  /** Feeding the same frame twice gives the same wedges as feeding it once. */
  lemma ApplyRangesIdempotent(wedges: seq<Wedge>, dist: seq<real>, trig: Trig)
    ensures ApplyRanges(ApplyRanges(wedges, dist, trig), dist, trig) == ApplyRanges(wedges, dist, trig)
  {
    var once := ApplyRanges(wedges, dist, trig);
    var twice := ApplyRanges(once, dist, trig);
    forall j | 0 <= j < |wedges|
      ensures twice[j] == once[j]
    {
    }
  }

  /** A frame's result depends on the previous wedges only at the indices it does not cover. */
  lemma ApplyRangesOverwrites(w1: seq<Wedge>, w2: seq<Wedge>, dist: seq<real>, trig: Trig)
    requires |w1| == |w2| && |Sensors| <= |dist| && |Sensors| <= |w1|
    requires forall j :: |Sensors| <= j < |w1| ==> w1[j] == w2[j]
    ensures ApplyRanges(w1, dist, trig) == ApplyRanges(w2, dist, trig)
  {
    var a, b := ApplyRanges(w1, dist, trig), ApplyRanges(w2, dist, trig);
    forall j | 0 <= j < |w1|
      ensures a[j] == b[j]
    {
    }
  }

  /** Every default sensor spans 30 degrees, so none of their wedges needs the large arc. */
  lemma DefaultSensorsNarrow(i: nat, radius: real, trig: Trig)
    requires i < |Sensors|
    ensures WedgeSpan(Sensors[i].angle - Sensors[i].fov / 2.0, Sensors[i].angle + Sensors[i].fov / 2.0) == 30.0
    ensures SensorPath(Sensors[i], radius, trig).largeArc == 0
    ensures SensorPath(Sensors[i], radius, trig).sweep == 0
  {
  }

  /**
   * A 0.5 m echo on the front sensor, 3 m elsewhere: the front wedge turns to alarm at
   * 0.5 m and the four others are clear at 3 m, which is also the side sensors' maximum.
   */
  lemma FrontObstacleScenario(trig: Trig)
    ensures var ws := ApplyRanges(seq(5, i requires 0 <= i < 5 => InitialWedge(Sensors[i], trig)), [0.5, 3.0, 3.0, 3.0, 3.0], trig);
      && ws[0].fill == Some(Alarm) && ws[0].path.radius == 0.5
      && ws[1].fill == Some(Clear) && ws[1].path.radius == 3.0
      && ws[2].fill == Some(Clear) && ws[2].path.radius == 3.0
      && ws[3].fill == Some(Clear) && ws[3].path.radius == 3.0
      && ws[4].fill == Some(Clear) && ws[4].path.radius == 3.0
  {
    var dist := [0.5, 3.0, 3.0, 3.0, 3.0];
    var init := seq(5, i requires 0 <= i < 5 => InitialWedge(Sensors[i], trig));
    ApplyRangesEffect(init, dist, trig, 0);
    ApplyRangesEffect(init, dist, trig, 1);
    ApplyRangesEffect(init, dist, trig, 2);
    ApplyRangesEffect(init, dist, trig, 3);
    ApplyRangesEffect(init, dist, trig, 4);
  }

  /** One step of the `forEach` over a frame's distances: index `i` is redrawn if covered. */
  lemma ApplyRangesExtend(wedges: seq<Wedge>, dist: seq<real>, i: nat, trig: Trig)
    requires i < |dist|
    ensures i < |wedges| && i < |Sensors| ==>
      ApplyRanges(wedges, dist[..i + 1], trig) == ApplyRanges(wedges, dist[..i], trig)[i := RangeWedge(Sensors[i], dist[i], trig)]
    ensures !(i < |wedges| && i < |Sensors|) ==>
      ApplyRanges(wedges, dist[..i + 1], trig) == ApplyRanges(wedges, dist[..i], trig)
  {
    var before, after := ApplyRanges(wedges, dist[..i], trig), ApplyRanges(wedges, dist[..i + 1], trig);
    if i < |wedges| && i < |Sensors| {
      forall j | 0 <= j < |wedges|
        ensures after[j] == before[i := RangeWedge(Sensors[i], dist[i], trig)][j]
      {
      }
    } else {
      forall j | 0 <= j < |wedges|
        ensures after[j] == before[j]
      {
      }
    }
  }

  /** The `forEach` of an `ultrasonic` frame: redraw, index by index, each wedge that has a sensor. */
  method RedrawWedges(wedges: seq<Wedge>, dist: seq<real>, trig: Trig) returns (ws: seq<Wedge>)
    ensures ws == ApplyRanges(wedges, dist, trig)
  {
    ws := wedges;
    for i := 0 to |dist|
      invariant ws == ApplyRanges(wedges, dist[..i], trig)
    {
      ApplyRangesExtend(wedges, dist, i, trig);
      if i < |ws| && i < |Sensors| {
        var radius := MinReal(Sensors[i].maxR, dist[i]);
        var fill := FillFor(dist[i]);
        ws := ws[i := Wedge(SensorPath(Sensors[i], radius, trig), Some(fill))];
      }
    }
    assert dist[..|dist|] == dist;
  }
}
