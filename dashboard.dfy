/**
 * The console page of the robot dashboard as one object: the state its handlers share
 * (chart arrays, bot position, active route and destination pin, obstacle wedges,
 * thermal canvas, control mode, terminal output, frames sent to the robot) and one
 * method per event the page reacts to.
 *
 * The page's optional elements become constants fixed at construction: whether the
 * gas chart canvas and the thermal canvas exist, and whether a global `setProgress`
 * is defined for the gauge bars (the page script calls it without defining it).
 */
module DashConsole {
  import opened Common
  import opened Geometry
  import opened Obstacles
  import opened Thermal
  import opened GasWindow
  import opened Routes
  import opened Terminal

  /** One decoded WebSocket frame from the robot, by its `type` field. */
  datatype Message =
    | GasFrame(mq9: real, mq135: real)
    | GpsFrame(fix: bool, lat: real, lng: real)
    | UltrasonicFrame(dist: seq<real>)
    | ThermalFrame(data: seq<real>)
    | MotorFrame(status: string, speed: real, steeringDeg: real)
    | AvoidanceFrame(decision: string)
    | UnknownFrame(kind: string)
    | Malformed

  /** A frame the page sends to the robot. */
  datatype Outbound = CommandOut(cmd: string) | Ping

  /** The destination pin and the action its popup names. */
  datatype Marker = Marker(at: LatLng, action: string)

  /** The bot's position until the first GPS fix. */
  const DefaultPosition: LatLng := LatLng(7.351136, -2.341782)

  /** Route actions: the terminal and the map menu's first button, and its second button. */
  const GoTo: string := "Go To"
  const Inspect: string := "Inspect"

  /** The thermal canvas before any frame: every byte 0 (transparent black). */
  const BlankCanvas: seq<int> := seq(RasterBytes, _ => 0)

  /** The wedges drawn at start-up, one per sensor, at full range. */
  function InitialWedges(trig: Trig): (ws: seq<Wedge>)
    ensures |ws| == |Sensors|
    ensures forall i :: 0 <= i < |ws| ==> ws[i].path.radius == Sensors[i].maxR && ws[i].fill == None
  {
    seq(|Sensors|, i requires 0 <= i < |Sensors| => InitialWedge(Sensors[i], trig))
  }

  /** The warning printed when a command cannot be sent. */
  function LinkNote(linkOpen: bool): (notes: seq<LogLine>)
    ensures linkOpen <==> notes == []
    ensures !linkOpen ==> notes == [Printed(NotConnected)]
  {
    if linkOpen then [] else [Printed(NotConnected)]
  }

  class Dashboard {
    /** Terminal output, oldest line first. */
    var log: seq<LogLine>
    /** Frames sent over the WebSocket, oldest first. */
    var sent: seq<Outbound>
    /** Whether the WebSocket exists and is open. */
    var linkOpen: bool
    var mode: string
    /** The text of the mode badge. */
    var modeStatus: string
    /** The line chart, when the page has its canvas. */
    const gasChart: Option<GasChart>
    const hasThermalCanvas: bool
    const progressDefined: bool
    /** The last values handed to `setProgress` for the CO, methane, LPG and air bars. */
    var bars: seq<real>
    var botPosition: LatLng
    var route: Option<seq<LatLng>>
    var destination: Option<Marker>
    var wedges: seq<Wedge>
    /** The RGBA bytes last put on the thermal canvas. */
    var thermalImage: seq<int>
    const trig: Trig

    /** The chart object, if any: the one object besides this page that a handler changes. */
    ghost function ChartObjects(): set<object>
      reads this
    {
      if gasChart.Some? then {gasChart.value} else {}
    }

    /** The invariants every handler keeps. */
    ghost predicate Valid()
      reads this, ChartObjects()
    {
      && (gasChart.Some? ==> gasChart.value.Valid())
      && (bars == [] || |bars| == ChannelCount)
      && IsMode(mode)
      && modeStatus == ModeStatusText(mode)
      && (route.Some? <==> destination.Some?)
      && (route.Some? ==> |route.value| >= 5 && route.value[4] == destination.value.at)
      && |wedges| == |Sensors|
      && |thermalImage| == RasterBytes
    }

    /** The page after loading: empty chart and terminal, five full-range wedges, manual mode. */
    constructor (trig: Trig, hasGasChart: bool, hasThermalCanvas: bool, progressDefined: bool)
      ensures Valid()
      ensures this.trig == trig && gasChart.Some? == hasGasChart
      ensures gasChart.Some? ==> fresh(gasChart.value) && gasChart.value.labels == [] && gasChart.value.charted == []
      ensures this.hasThermalCanvas == hasThermalCanvas && this.progressDefined == progressDefined
      ensures log == [] && sent == [] && !linkOpen && bars == []
      ensures mode == Manual && modeStatus == "MODE: MANUAL"
      ensures botPosition == DefaultPosition && route == None && destination == None
      ensures wedges == InitialWedges(trig)
      ensures thermalImage == BlankCanvas
    {
      this.trig := trig;
      if hasGasChart {
        var chart := new GasChart();
        gasChart := Some(chart);
      } else {
        gasChart := None;
      }
      this.hasThermalCanvas := hasThermalCanvas;
      this.progressDefined := progressDefined;
      log := [];
      sent := [];
      linkOpen := false;
      mode := Manual;
      bars := [];
      botPosition := DefaultPosition;
      route := None;
      destination := None;
      thermalImage := BlankCanvas;
      var drawn: seq<Wedge> := [];
      for i := 0 to |Sensors|
        invariant drawn == InitialWedges(trig)[..i]
      {
        drawn := drawn + [InitialWedge(Sensors[i], trig)];
      }
      wedges := drawn;
      modeStatus := ModeStatusText(Manual);
      ModeBadges();
    }

    /**
     * `generateCrookedRoute`: replace any route and pin by a new pin at `to` and the
     * five-point path from `from`, and log the action.
     */
    method GenerateCrookedRoute(from: LatLng, to: LatLng, action: string, rnd: seq<real>)
      requires Valid() && |rnd| == DrawsPerRoute
      modifies this
      ensures Valid()
      ensures route == Some(CrookedRoute(from, to, rnd))
      ensures destination == Some(Marker(to, action))
      ensures log == old(log) + [RouteStarted(action, to)]
      ensures sent == old(sent) && linkOpen == old(linkOpen) && mode == old(mode)
      ensures modeStatus == old(modeStatus) && bars == old(bars)
      ensures botPosition == old(botPosition) && wedges == old(wedges)
      ensures thermalImage == old(thermalImage)
    {
      destination := Some(Marker(to, action));
      var latlngs := BuildRoute(from, to, rnd);
      route := Some(latlngs);
      log := log + [RouteStarted(action, to)];
    }

    /** A button of the map's click menu: a route from the bot to the clicked point. */
    method MapMenuAction(at: LatLng, inspect: bool, rnd: seq<real>)
      requires Valid() && |rnd| == DrawsPerRoute
      modifies this
      ensures Valid()
      ensures route == Some(CrookedRoute(old(botPosition), at, rnd))
      ensures destination == Some(Marker(at, if inspect then Inspect else GoTo))
      ensures log == old(log) + [RouteStarted(if inspect then Inspect else GoTo, at)]
      ensures sent == old(sent) && linkOpen == old(linkOpen) && mode == old(mode)
      ensures modeStatus == old(modeStatus) && bars == old(bars)
      ensures botPosition == old(botPosition) && wedges == old(wedges)
      ensures thermalImage == old(thermalImage)
    {
      GenerateCrookedRoute(botPosition, at, if inspect then Inspect else GoTo, rnd);
    }

    /**
     * The first half of Enter: echo the line, then send it to the robot if the link is
     * open, or warn that it was not sent.
     */
    method EchoAndSend(command: string)
      requires Valid()
      modifies this
      ensures Valid()
      ensures log == old(log) + [Echo(command)] + LinkNote(linkOpen)
      ensures sent == old(sent) + (if linkOpen then [CommandOut(command)] else [])
      ensures unchanged(this`linkOpen, this`mode, this`modeStatus, this`bars, this`botPosition)
      ensures unchanged(this`route, this`destination, this`wedges, this`thermalImage)
    {
      log := log + [Echo(command)];
      if linkOpen {
        sent := sent + [CommandOut(command)];
      } else {
        log := log + [Printed(NotConnected)];
      }
    }

    /**
     * The second half of Enter: the local reaction to a classified line; `clear` empties
     * the output and a well-formed `goto` draws a route from the bot.
     */
    method HandleLocally(c: Command, rnd: seq<real>)
      requires Valid() && |rnd| == DrawsPerRoute
      modifies this
      ensures Valid()
      ensures c == ClearCmd ==> log == []
      ensures c != ClearCmd && !(c.GotoCmd? && c.outcome.Navigate?) ==> log == old(log) + LocalReply(c, mode)
      ensures !(c.GotoCmd? && c.outcome.Navigate?) ==> route == old(route) && destination == old(destination)
      ensures c.GotoCmd? && c.outcome.Navigate? ==>
        && log == old(log) + [RouteStarted(GoTo, c.outcome.to)]
        && route == Some(CrookedRoute(botPosition, c.outcome.to, rnd))
        && destination == Some(Marker(c.outcome.to, GoTo))
      ensures unchanged(this`sent, this`linkOpen, this`mode, this`modeStatus, this`bars)
      ensures unchanged(this`botPosition, this`wedges, this`thermalImage)
    {
      match c
      case HelpCmd =>
        log := log + [HelpText];
      case AboutCmd =>
        log := log + [AboutText];
      case ClearCmd =>
        log := [];
      case ModeCmd =>
        log := log + [ModeReport(Upper(mode))];
      case GotoCmd(outcome) =>
        match outcome {
          case Navigate(to) =>
            GenerateCrookedRoute(botPosition, to, GoTo, rnd);
          case BadFormat =>
            log := log + [InvalidFormat];
          case NotANumber =>
        }
      case UnknownCmd(text) =>
        log := log + [NotFound(text)];
      case EmptyCmd =>
    }

    /**
     * Enter in the terminal: trim the line, echo it, send it or warn, then handle it
     * locally; `clear` empties the output, the echo included.
     */
    method Enter(typed: string, parseFloat: string -> Option<real>, rnd: seq<real>)
      requires Valid() && |rnd| == DrawsPerRoute
      modifies this
      ensures Valid()
      ensures var command := Trim(typed);
        sent == old(sent) + (if linkOpen then [CommandOut(command)] else [])
      ensures Classify(Trim(typed), parseFloat) == ClearCmd ==> log == []
      ensures var command := Trim(typed); var c := Classify(command, parseFloat);
        c != ClearCmd && !(c.GotoCmd? && c.outcome.Navigate?) ==>
          log == old(log) + [Echo(command)] + LinkNote(linkOpen) + LocalReply(c, mode)
      ensures var c := Classify(Trim(typed), parseFloat);
        !(c.GotoCmd? && c.outcome.Navigate?) ==> route == old(route) && destination == old(destination)
      ensures var command := Trim(typed); var c := Classify(command, parseFloat);
        c.GotoCmd? && c.outcome.Navigate? ==>
          && log == old(log) + [Echo(command)] + LinkNote(linkOpen) + [RouteStarted(GoTo, c.outcome.to)]
          && route == Some(CrookedRoute(botPosition, c.outcome.to, rnd))
          && destination == Some(Marker(c.outcome.to, GoTo))
      ensures unchanged(this`linkOpen, this`mode, this`modeStatus, this`bars)
      ensures unchanged(this`botPosition, this`wedges, this`thermalImage)
    {
      var command := Trim(typed);
      EchoAndSend(command);
      HandleLocally(Classify(command, parseFloat), rnd);
    }

    /** The mode button: flip the mode, report it, and refresh the badge. */
    method ToggleMode()
      requires Valid()
      modifies this
      ensures Valid()
      ensures mode == Toggled(old(mode))
      ensures modeStatus == ModeStatusText(mode)
      ensures log == old(log) + [Printed(ModeSwitched(Upper(mode)))]
      ensures sent == old(sent) && linkOpen == old(linkOpen) && bars == old(bars)
      ensures botPosition == old(botPosition) && route == old(route)
      ensures destination == old(destination) && wedges == old(wedges)
      ensures thermalImage == old(thermalImage)
    {
      mode := if mode == Manual then Auto else Manual;
      log := log + [Printed(ModeSwitched(Upper(mode)))];
      modeStatus := ModeStatusText(mode);
    }

    /** The ten-second timer: a `ping` goes out only while the link is open. */
    method Heartbeat()
      requires Valid()
      modifies this
      ensures Valid()
      ensures sent == old(sent) + (if linkOpen then [Ping] else [])
      ensures log == old(log) && linkOpen == old(linkOpen) && mode == old(mode)
      ensures modeStatus == old(modeStatus) && bars == old(bars)
      ensures botPosition == old(botPosition) && route == old(route)
      ensures destination == old(destination) && wedges == old(wedges)
      ensures thermalImage == old(thermalImage)
    {
      if linkOpen {
        sent := sent + [Ping];
      }
    }

    /**
     * A `gas` frame: CO, methane and LPG all show the MQ-9 reading and air quality the
     * MQ-135 reading, first on the gauges, then on the chart. Without a `setProgress`
     * the first gauge call throws and the frame changes nothing.
     */
    method OnGas(mq9: real, mq135: real, now: string)
      requires Valid()
      modifies this, ChartObjects()
      ensures Valid()
      ensures !progressDefined ==> unchanged(this) && unchanged(ChartObjects())
      ensures progressDefined ==> bars == [mq9, mq9, mq9, mq135]
      ensures progressDefined && gasChart.Some? ==>
        && gasChart.value.charted == old(gasChart.value.charted) + [GasSample(now, mq9, mq135)]
        && gasChart.value.labels == Slide(old(gasChart.value.labels), now)
        && gasChart.value.datasets == SlideEach(old(gasChart.value.datasets), GasSample(now, mq9, mq135))
      ensures log == old(log) && sent == old(sent) && linkOpen == old(linkOpen) && mode == old(mode)
      ensures modeStatus == old(modeStatus) && botPosition == old(botPosition) && route == old(route)
      ensures destination == old(destination) && wedges == old(wedges)
      ensures thermalImage == old(thermalImage)
    {
      if !progressDefined {
        return;
      }
      var coVal, ch4Val, lpgVal, airVal := mq9, mq9, mq9, mq135;
      bars := [coVal, ch4Val, lpgVal, airVal];
      if gasChart.Some? {
        gasChart.value.Append(GasSample(now, mq9, mq135));
      }
    }

    /**
     * A `gps` frame: with a fix, move the bot, extend the active route (never start
     * one) and log the position; without one, only log that there is no fix.
     */
    method OnGps(fix: bool, lat: real, lng: real)
      requires Valid()
      modifies this
      ensures Valid()
      ensures fix ==> botPosition == LatLng(lat, lng)
      ensures fix && old(route).Some? ==> route == Some(old(route).value + [LatLng(lat, lng)])
      ensures !fix || old(route).None? ==> route == old(route)
      ensures !fix ==> botPosition == old(botPosition)
      ensures log == old(log) + [Printed(if fix then GpsFix(lat, lng) else GpsNoFix)]
      ensures sent == old(sent) && linkOpen == old(linkOpen) && mode == old(mode)
      ensures modeStatus == old(modeStatus) && bars == old(bars)
      ensures destination == old(destination) && wedges == old(wedges)
      ensures thermalImage == old(thermalImage)
    {
      if fix {
        botPosition := LatLng(lat, lng);
        if route.Some? {
          route := Some(route.value + [LatLng(lat, lng)]);
        }
        log := log + [Printed(GpsFix(lat, lng))];
      } else {
        log := log + [Printed(GpsNoFix)];
      }
    }

    /** An `ultrasonic` frame: log the distances, then redraw each wedge that has a sensor. */
    method OnUltrasonic(dist: seq<real>)
      requires Valid()
      modifies this
      ensures Valid()
      ensures wedges == ApplyRanges(old(wedges), dist, trig)
      ensures log == old(log) + [Printed(Distances(dist))]
      ensures sent == old(sent) && linkOpen == old(linkOpen) && mode == old(mode)
      ensures modeStatus == old(modeStatus) && bars == old(bars)
      ensures botPosition == old(botPosition) && route == old(route)
      ensures destination == old(destination) && thermalImage == old(thermalImage)
    {
      log := log + [Printed(Distances(dist))];
      wedges := RedrawWedges(wedges, dist, trig);
    }

    /** A `thermal` frame: without a canvas or with other than 768 readings, nothing happens. */
    method OnThermal(data: seq<real>)
      requires Valid()
      modifies this
      ensures Valid()
      ensures hasThermalCanvas && |data| == FrameLen ==> thermalImage == ThermalRaster(data)
      ensures !(hasThermalCanvas && |data| == FrameLen) ==> unchanged(this)
      ensures log == old(log) && sent == old(sent) && linkOpen == old(linkOpen) && mode == old(mode)
      ensures modeStatus == old(modeStatus) && bars == old(bars)
      ensures botPosition == old(botPosition) && route == old(route)
      ensures destination == old(destination) && wedges == old(wedges)
    {
      if !hasThermalCanvas || |data| != FrameLen {
        return;
      }
      var image := RenderFrame(data);
      thermalImage := image[..];
    }

    /**
     * The connect button: its first listener announces an attempt and starts a one-second
     * timer; its second opens a fresh socket, which is not open yet.
     */
    method ConnectClicked()
      requires Valid()
      modifies this
      ensures Valid()
      ensures !linkOpen && log == old(log) + [Printed(Attempting), Printed(Connecting)]
      ensures sent == old(sent) && mode == old(mode)
      ensures modeStatus == old(modeStatus) && bars == old(bars)
      ensures botPosition == old(botPosition) && route == old(route)
      ensures destination == old(destination) && wedges == old(wedges)
      ensures thermalImage == old(thermalImage)
    {
      log := log + [Printed(Attempting)];
      log := log + [Printed(Connecting)];
      linkOpen := false;
    }

    /** The connect button's timer: it reports success whatever the socket's state. */
    method ConnectTimerFired()
      requires Valid()
      modifies this
      ensures Valid()
      ensures log == old(log) + [Printed(Established)]
      ensures sent == old(sent) && linkOpen == old(linkOpen) && mode == old(mode)
      ensures modeStatus == old(modeStatus) && bars == old(bars)
      ensures botPosition == old(botPosition) && route == old(route)
      ensures destination == old(destination) && wedges == old(wedges)
      ensures thermalImage == old(thermalImage)
    {
      log := log + [Printed(Established)];
    }

    /** The robot opened the WebSocket. */
    method LinkOpened()
      requires Valid()
      modifies this
      ensures Valid()
      ensures linkOpen && log == old(log) + [Printed(LinkUp)]
      ensures sent == old(sent) && mode == old(mode)
      ensures modeStatus == old(modeStatus) && bars == old(bars)
      ensures botPosition == old(botPosition) && route == old(route)
      ensures destination == old(destination) && wedges == old(wedges)
      ensures thermalImage == old(thermalImage)
    {
      linkOpen := true;
      log := log + [Printed(LinkUp)];
    }

    /** The WebSocket closed. */
    method LinkClosed()
      requires Valid()
      modifies this
      ensures Valid()
      ensures !linkOpen && log == old(log) + [Printed(LinkDown)]
      ensures sent == old(sent) && mode == old(mode)
      ensures modeStatus == old(modeStatus) && bars == old(bars)
      ensures botPosition == old(botPosition) && route == old(route)
      ensures destination == old(destination) && wedges == old(wedges)
      ensures thermalImage == old(thermalImage)
    {
      linkOpen := false;
      log := log + [Printed(LinkDown)];
    }

    /** `onmessage`: dispatch on the frame's type; unknown and malformed frames change nothing. */
    method OnMessage(msg: Message, now: string)
      requires Valid()
      modifies this, ChartObjects()
      ensures Valid()
      ensures msg.UnknownFrame? || msg.Malformed? ==> unchanged(this) && unchanged(ChartObjects())
      ensures msg.GasFrame? && progressDefined ==> bars == [msg.mq9, msg.mq9, msg.mq9, msg.mq135]
      ensures msg.GasFrame? && progressDefined && gasChart.Some? ==>
        var sample := GasSample(now, msg.mq9, msg.mq135);
        && gasChart.value.charted == old(gasChart.value.charted) + [sample]
        && gasChart.value.labels == Slide(old(gasChart.value.labels), now)
        && gasChart.value.datasets == SlideEach(old(gasChart.value.datasets), sample)
      ensures msg.GasFrame? && !progressDefined ==> unchanged(this) && unchanged(ChartObjects())
      ensures msg.GpsFrame? && msg.fix ==> botPosition == LatLng(msg.lat, msg.lng)
      ensures msg.GpsFrame? && !msg.fix ==> botPosition == old(botPosition)
      ensures msg.GpsFrame? && msg.fix && old(route).Some? ==>
        route == Some(old(route).value + [LatLng(msg.lat, msg.lng)])
      ensures msg.GpsFrame? && (!msg.fix || old(route).None?) ==> route == old(route)
      ensures msg.GpsFrame? ==> log == old(log) + [Printed(if msg.fix then GpsFix(msg.lat, msg.lng) else GpsNoFix)]
      ensures msg.UltrasonicFrame? ==> wedges == ApplyRanges(old(wedges), msg.dist, trig)
      ensures msg.UltrasonicFrame? ==> log == old(log) + [Printed(Distances(msg.dist))]
      ensures msg.ThermalFrame? && hasThermalCanvas && |msg.data| == FrameLen ==>
        thermalImage == ThermalRaster(msg.data)
      ensures msg.ThermalFrame? && !(hasThermalCanvas && |msg.data| == FrameLen) ==> unchanged(this)
      ensures msg.MotorFrame? ==>
        log == old(log) + [Printed(MotorReport(msg.status, msg.speed, msg.steeringDeg))]
      ensures msg.AvoidanceFrame? ==> log == old(log) + [Printed(AvoidanceReport(msg.decision))]
      ensures msg.GasFrame? || msg.ThermalFrame? ==> log == old(log)
      ensures !msg.GasFrame? ==> unchanged(ChartObjects()) && bars == old(bars)
      ensures !msg.GpsFrame? ==> botPosition == old(botPosition) && route == old(route)
      ensures !msg.UltrasonicFrame? ==> wedges == old(wedges)
      ensures !msg.ThermalFrame? ==> thermalImage == old(thermalImage)
      ensures sent == old(sent) && linkOpen == old(linkOpen) && mode == old(mode)
      ensures modeStatus == old(modeStatus) && destination == old(destination)
    {
      match msg
      case GasFrame(mq9, mq135) =>
        OnGas(mq9, mq135, now);
      case GpsFrame(fix, lat, lng) =>
        OnGps(fix, lat, lng);
      case UltrasonicFrame(dist) =>
        OnUltrasonic(dist);
      case ThermalFrame(data) =>
        OnThermal(data);
      case MotorFrame(status, speed, steeringDeg) =>
        log := log + [Printed(MotorReport(status, speed, steeringDeg))];
      case AvoidanceFrame(decision) =>
        log := log + [Printed(AvoidanceReport(decision))];
      case UnknownFrame(_) =>
      case Malformed =>
    }
  }
}
