# Argus robot dashboard console, in Dafny

This project models the console page of the Argus inspection robot's web dashboard
(`dashboard/web_dashboard/pages/dash_console.js`) and proves properties of that model.
The page is single-threaded and event-driven, and every handler runs to completion.
The page's shared state is one class, `DashConsole.Dashboard`, with one method per event:

- a frame from the robot (`gas`, `gps`, `ultrasonic`, `thermal`, `motor`, `avoidance`,
  unknown or malformed);
- Enter in the terminal;
- the mode button;
- the map's click menu;
- the connect button and its timer;
- the socket opening and closing;
- the ten-second heartbeat.

The page's computations live in their own modules:

| module | file | what it covers |
|---|---|---|
| `Common` | `common.dfy` | `Option`, and `Math.min`/`Math.max`/`Math.abs` on reals |
| `Geometry` | `geometry.dfy` | `polarToSvg` and `makeWedgePath`: SVG y-flip, angular span, arc flags |
| `Obstacles` | `obstacles.dfy` | the five ultrasonic sensors, wedge radius clamping, the three fill bands, the `forEach` that redraws the wedges |
| `Thermal` | `thermal.dfy` | `drawThermalFrame` and `mapTempToColor`: grid position, clamped neighbours, bilinear blend, heat ramp, the RGBA buffer filled by two nested loops |
| `GasWindow` | `gas_window.dfy` | the chart's 20-slot rolling window: one label array and four value arrays pushed and shifted in place (class `GasChart`) |
| `Routes` | `routes.dfy` | `generateCrookedRoute`: the five-point path with capped, bounded jitter |
| `Terminal` | `terminal.dfy` | the terminal's string handling (`trim`, `replace`, `split`, `toUpperCase`), command classification, `goto` parsing, the mode toggle, the console lines |
| `DashConsole` | `dashboard.dfy` | the page object and its event handlers |

Values the page takes from the browser are parameters:

- `Math.cos`/`Math.sin` (with the conversion from degrees) arrive as a `Trig` value.
- The six `Math.random()` draws of a route arrive as a sequence of reals in [0, 1).
- `parseFloat` arrives as a function returning `None` where the browser gives `NaN`.
- The time label from `toLocaleTimeString` arrives as a string.

The console's `innerHTML` is a sequence of structured `LogLine` values rather than HTML text.
Frames sent to the robot are a sequence of `Outbound` values.

The page calls `setProgress` for the four gauge bars but never defines it.
Whether another script defines it is a constant of the page, `progressDefined`:

- When it is defined, a `gas` frame records the four bar values and then updates the chart.
- When it is not, the first call throws a `ReferenceError`. The `catch` in `onmessage`
  swallows it, and the frame changes nothing: the chart is never reached.

A flat thermal frame is one where every reading is equal. Such a frame is meant to render
uniformly blue (ratio 0). The code differs: it has no guard. Over exact arithmetic every blended
value then equals the common reading, so the code computes 0/0 = NaN in every channel, and the
clamped pixel array stores NaN as 0. The model follows the code: `MapTempToColor` returns
`None`, and `FlatFrameBlack` proves the raster is opaque black.

The local commands (`help`, `about`, `clear`, `mode`) are meant to have no network effect.
The code differs: it (lines 200-204) sends every trimmed line while the link is open, before
it looks at the command, including the empty line and the local commands.
`EchoAndSend` and `Enter` follow the code.

## Model

| member | source | states |
|---|---|---|
| `Common.MinReal` | dashboard/web_dashboard/pages/dash_console.js:119 | `Math.min` is a lower bound of both arguments and equals one of them |
| `Common.MaxReal` | dashboard/web_dashboard/pages/dash_console.js:118 | `Math.max` is an upper bound of both arguments and equals one of them |
| `Common.AbsReal` | dashboard/web_dashboard/pages/dash_console.js:116-117 | `Math.abs` is non-negative and is the value or its negation |
| `Geometry.ToScreen` | dashboard/web_dashboard/pages/dash_console.js:373-374 | the SVG surface keeps x and negates y |
| `Geometry.PolarToSvg` | dashboard/web_dashboard/pages/dash_console.js:372-379 | the result is the north-up polar point (centre + radius·(cos, sin)) reflected onto the y-down SVG surface |
| `Geometry.PolarOnCircle` | dashboard/web_dashboard/pages/dash_console.js:372-379 | given cos² + sin² = 1, the point lies at distance `radius` from the mirrored centre (cx, −cy) |
| `Geometry.LargeArcFlag` | dashboard/web_dashboard/pages/dash_console.js:387 | the flag is 0 or 1, and 1 exactly when the span exceeds 180 degrees |
| `Geometry.WedgeSpan` | dashboard/web_dashboard/pages/dash_console.js:385-386 | the span is end − start or end − start + 360, and lies in [0, 360) when end − start is in [−360, 360) |
| `Geometry.MakeWedgePath` | dashboard/web_dashboard/pages/dash_console.js:381-391 | the path starts at the mirrored centre (cx, −cy), runs out to `polarToSvg` of the start angle, arcs with the given radius and sweep flag 0 to `polarToSvg` of the end angle, and takes the large arc exactly when the span exceeds 180 degrees |
| `Geometry.ComplementarySpans` | dashboard/web_dashboard/pages/dash_console.js:385-387 | swapping distinct angles less than a turn apart gives spans that sum to 360, so at most one of the two wedges uses the large arc |
| `Geometry.WedgeEndsOnCircle` | dashboard/web_dashboard/pages/dash_console.js:381-390 | both arc endpoints lie on the wedge's circle about its centre |
| `Obstacles.FillFor` | dashboard/web_dashboard/pages/dash_console.js:498-500 | the band is alarm iff distance < 1, caution iff 1 ≤ distance < 2, clear iff distance ≥ 2 (raw, unclamped distance) |
| `Obstacles.FillColor` | dashboard/web_dashboard/pages/dash_console.js:498-500 | alarm is `rgba(255,0,0,0.5)`, caution `rgba(255,255,0,0.3)`, clear `rgba(0,0,255,0.3)` (no contract; `FillFor` states the bands) |
| `Obstacles.InitialWedge` | dashboard/web_dashboard/pages/dash_console.js:394-399 | a start-up wedge has the sensor's full range and no fill |
| `Obstacles.SensorPath` | dashboard/web_dashboard/pages/dash_console.js:489-494 | a sensor's wedge is centred on its mirrored mount, has the given radius, and uses the small arc whenever the field of view is at most 180 degrees |
| `Obstacles.Covered` | dashboard/web_dashboard/pages/dash_console.js:484-486 | an index is redrawn only when it has a wedge, a sensor and a distance (no contract; used by `ApplyRangesEffect` and `ApplyRangesExtend`) |
| `Obstacles.RangeWedge` | dashboard/web_dashboard/pages/dash_console.js:489-501 | the radius is at most both the maximum range and the distance, equals the distance when it is in range and the maximum range otherwise; the fill is the distance's band; the wedge is centred on the mirrored sensor mount |
| `Obstacles.ApplyRanges` | dashboard/web_dashboard/pages/dash_console.js:483-502 | an `ultrasonic` frame keeps the number of wedges |
| `Obstacles.ApplyRangesEffect` | dashboard/web_dashboard/pages/dash_console.js:483-501 | each index with a wedge, a sensor and a distance gets the path of that sensor at angle ± fov/2 with radius min(max range, distance) ≤ max range, and the band of the distance; every other wedge is unchanged |
| `Obstacles.ApplyRangesIdempotent` | dashboard/web_dashboard/pages/dash_console.js:483-501 | applying the same frame twice equals applying it once |
| `Obstacles.ApplyRangesOverwrites` | dashboard/web_dashboard/pages/dash_console.js:483-501 | a frame with a distance for every sensor makes the result independent of the previous sensor wedges |
| `Obstacles.DefaultSensorsNarrow` | dashboard/web_dashboard/pages/dash_console.js:307-313 | every default sensor's wedge spans 30 degrees, so its large-arc and sweep flags are both 0 |
| `Obstacles.FrontObstacleScenario` | dashboard/web_dashboard/pages/dash_console.js:483-501 | after start-up, a 0.5 m echo on the front sensor with 3 m on the others turns the front wedge to alarm at 0.5 m and each of the other four wedges to clear at 3 m |
| `Obstacles.ApplyRangesExtend` | dashboard/web_dashboard/pages/dash_console.js:483-502 | one more distance of the `forEach` redraws exactly that index when it has a wedge and a sensor, and changes nothing otherwise |
| `Obstacles.RedrawWedges` | dashboard/web_dashboard/pages/dash_console.js:483-502 | the index-by-index `forEach` loop produces exactly `ApplyRanges` |
| `Thermal.SeqMin` | dashboard/web_dashboard/pages/dash_console.js:330 | `Math.min(...frame)` is a reading of the frame and at most every reading |
| `Thermal.SeqMax` | dashboard/web_dashboard/pages/dash_console.js:331 | `Math.max(...frame)` is a reading of the frame and at least every reading |
| `Thermal.ToGrid` | dashboard/web_dashboard/pages/dash_console.js:338-347 | with an upscale of 8, `floor(x / 8)` is the integer quotient and the offset is the remainder in eighths, within [0, 7/8] |
| `Thermal.LerpBetween` | dashboard/web_dashboard/pages/dash_console.js:354-356 | interpolating between two values in [lo, hi] at a weight in [0, 1] stays in [lo, hi] |
| `Thermal.CellIndex` | dashboard/web_dashboard/pages/dash_console.js:349-352 | every read index `gy * 32 + gx` is inside the 768-reading frame |
| `Thermal.NeighboursOf` | dashboard/web_dashboard/pages/dash_console.js:341-344 | x0 ≤ 31 and y0 ≤ 23; the high neighbours are clamped to 31 and 23 and are at most one cell past the low ones |
| `Thermal.Blend` | dashboard/web_dashboard/pages/dash_console.js:349-356 | the bilinear blend of the four neighbouring readings (no contract; `BlendAtGrid` and `BlendWithinFrame` state its properties) |
| `Thermal.BlendAtGrid` | dashboard/web_dashboard/pages/dash_console.js:338-356 | at a grid-aligned pixel (x mod 8 = y mod 8 = 0), the blend is exactly that cell's reading |
| `Thermal.BlendWithinFrame` | dashboard/web_dashboard/pages/dash_console.js:349-356 | every blended value lies between the frame's minimum and maximum |
| `Thermal.Ramp` | dashboard/web_dashboard/pages/dash_console.js:322-324 | every channel is a byte value, and red + blue is 254 or 255 |
| `Thermal.MapTempToColor` | dashboard/web_dashboard/pages/dash_console.js:319-326 | the colour is NaN exactly when max = min and the reading equals them; otherwise every channel is a byte value |
| `Thermal.ColorExtremes` | dashboard/web_dashboard/pages/dash_console.js:319-326 | for min < max, readings at or below the minimum are pure blue (0, 0, 255), readings at or above the maximum are pure red (255, 0, 0), and the midpoint has full green |
| `Thermal.ColorMonotone` | dashboard/web_dashboard/pages/dash_console.js:319-326 | a hotter reading is never less red and never more blue |
| `Thermal.ChannelByte` | dashboard/web_dashboard/pages/dash_console.js:360-363 | bytes 0, 1 and 2 of a pixel are its red, green and blue; alpha is 255; a NaN channel is stored as 0; a byte colour stores byte values |
| `Thermal.PixelColor` | dashboard/web_dashboard/pages/dash_console.js:349-358 | the colour of pixel (x, y) from its blend and the frame's extremes (no contract; `NonFlatFrameColoured`, `GridAlignedPixel` and `FlatFrameBlack` state its properties) |
| `Thermal.PixelColors` | dashboard/web_dashboard/pages/dash_console.js:336-358 | there is one colour per pixel of the 256 x 192 raster |
| `Thermal.RasterOf` | dashboard/web_dashboard/pages/dash_console.js:359-363 | there are four bytes per pixel: 196,608 in all |
| `Thermal.ThermalRaster` | dashboard/web_dashboard/pages/dash_console.js:328-367 | the raster of a frame has 256 · 192 · 4 bytes |
| `Thermal.DecodeIndex` | dashboard/web_dashboard/pages/dash_console.js:359 | every write index `(y * 256 + x) * 4 + k` lies in [0, 196608) and decodes back to pixel (x, y) and channel k |
| `Thermal.ColorAt` | dashboard/web_dashboard/pages/dash_console.js:336-358 | entry y · 256 + x of the colour row is the colour of pixel (x, y) |
| `Thermal.RasterOfAt` | dashboard/web_dashboard/pages/dash_console.js:359-363 | byte (y · 256 + x) · 4 + k of a raster is channel k of pixel (x, y) |
| `Thermal.PixelLayout` | dashboard/web_dashboard/pages/dash_console.js:359-363 | each write lands inside the buffer, on channel k of pixel (x, y) |
| `Thermal.RasterOpaqueBytes` | dashboard/web_dashboard/pages/dash_console.js:336-365 | all 49,152 pixels have alpha 255 and every byte of the raster is in [0, 255] |
| `Thermal.GridAlignedPixel` | dashboard/web_dashboard/pages/dash_console.js:338-358 | on a non-flat frame, a grid-aligned pixel has exactly the colour of its cell's reading |
| `Thermal.NonFlatFrameColoured` | dashboard/web_dashboard/pages/dash_console.js:319-358 | on a non-flat frame, every pixel gets a byte colour (no division by zero) |
| `Thermal.FlatFrameBlack` | dashboard/web_dashboard/pages/dash_console.js:320-363 | on a flat frame, every pixel's colour bytes are 0 and its alpha is 255 |
| `Thermal.PrefixStep` | dashboard/web_dashboard/pages/dash_console.js:359-363 | writing pixel (x, y)'s four bytes extends the correctly drawn prefix by one pixel |
| `Thermal.ShadePixel` | dashboard/web_dashboard/pages/dash_console.js:338-358 | the loop body's floor, clamp, blend and colour steps give exactly that pixel's colour |
| `Thermal.RenderFrame` | dashboard/web_dashboard/pages/dash_console.js:330-365 | the two nested loops over a fresh buffer leave exactly the frame's raster |
| `GasWindow.ChannelValue` | dashboard/web_dashboard/pages/dash_console.js:428-431 | CO, CH4 and LPG take the MQ-9 percentage; air quality takes the MQ-135 percentage |
| `GasWindow.Recent` | dashboard/web_dashboard/pages/dash_console.js:448-451 | the window holds min(n, 20) elements |
| `GasWindow.RecentIsNewest` | dashboard/web_dashboard/pages/dash_console.js:448-451 | the window is the newest suffix of the history in arrival order, ending with the latest element |
| `GasWindow.Slide` | dashboard/web_dashboard/pages/dash_console.js:442-451 | below capacity a push appends; at capacity the oldest element is dropped and the new one appended; the length stays ≤ 20 |
| `GasWindow.SlideRecent` | dashboard/web_dashboard/pages/dash_console.js:442-451 | sliding a new element into the recent window gives the recent window of the longer history |
| `GasWindow.SlideAllRecent` | dashboard/web_dashboard/pages/dash_console.js:442-451 | any run of frames turns the recent window of a history into the recent window of the extended history |
| `GasWindow.FromEmptyChart` | dashboard/web_dashboard/pages/dash_console.js:442-451 | starting from an empty chart, after N frames the chart holds the last min(N, 20) of them in order |
| `GasWindow.Labels` | dashboard/web_dashboard/pages/dash_console.js:442 | the label axis has one time label per sample, in order |
| `GasWindow.Series` | dashboard/web_dashboard/pages/dash_console.js:443-446 | a series has one channel value per sample, in order |
| `GasWindow.RecentProjections` | dashboard/web_dashboard/pages/dash_console.js:442-451 | windowing and projecting to labels or to one series commute |
| `GasWindow.SlideProjections` | dashboard/web_dashboard/pages/dash_console.js:442-451 | sliding a sample in and then projecting equals sliding its projection into the projection |
| `GasWindow.ChartAligned` | dashboard/web_dashboard/pages/dash_console.js:442-451 | the label array and the four series have one common length ≤ 20, and the last label is the newest sample's |
| `GasWindow.SlideEach` | dashboard/web_dashboard/pages/dash_console.js:443-450 | each of the four series receives its own channel's value |
| `GasWindow.ChartStep` | dashboard/web_dashboard/pages/dash_console.js:442-451 | one frame keeps the five arrays equal to the recent window of all charted samples |
| `GasWindow.ShiftEach` | dashboard/web_dashboard/pages/dash_console.js:450 | the `forEach` drops the first element of every series and nothing else |
| `GasWindow.PushAndShift` | dashboard/web_dashboard/pages/dash_console.js:442-451 | the five pushes and the conditional shifts give exactly one `Slide` per array |
| `GasWindow.GasChart.constructor` | dashboard/web_dashboard/pages/dash_console.js:16-54 | the chart starts with no labels and four empty series |
| `GasWindow.GasChart.Append` | dashboard/web_dashboard/pages/dash_console.js:440-452 | one frame slides the label and the four values in, and the chart still holds the recent window of every charted sample |
| `Routes.MaxJitter` | dashboard/web_dashboard/pages/dash_console.js:116-119 | the amplitude lies in [0, 0.0003], equals the cap or half the larger span, and is at most half of one span |
| `Routes.Quarter` | dashboard/web_dashboard/pages/dash_console.js:122-129 | the k-th quarter mark is `from` at k = 0 and `to` at k = 4 |
| `Routes.Jitter` | dashboard/web_dashboard/pages/dash_console.js:125 | a draw of 0.5 or a zero amplitude moves a coordinate by nothing |
| `Routes.Waypoint` | dashboard/web_dashboard/pages/dash_console.js:121-130 | without jitter an interior point is exactly its quarter mark |
| `Routes.CrookedRoute` | dashboard/web_dashboard/pages/dash_console.js:112-132 | the path has 5 points, the first is `from` and the last is `to` |
| `Routes.BuildRoute` | dashboard/web_dashboard/pages/dash_console.js:112-132 | the push loop, with its draws consumed in order, builds exactly `CrookedRoute` |
| `Routes.JitterBound` | dashboard/web_dashboard/pages/dash_console.js:125 | a draw in [0, 1) moves a coordinate by at most half the amplitude either way |
| `Routes.WaypointNear` | dashboard/web_dashboard/pages/dash_console.js:121-130 | an interior point is within half the amplitude of its quarter mark on both axes |
| `Routes.RouteShape` | dashboard/web_dashboard/pages/dash_console.js:112-132 | 5 points from `from` to `to`; each interior point k is within maxJitter/2 (hence 0.00015) of from + (to − from)·k/4 on both axes |
| `Routes.StayPutRoute` | dashboard/web_dashboard/pages/dash_console.js:116-132 | a route to the bot's own position has no jitter and is five copies of it |
| `Terminal.IsTrimmable` | dashboard/web_dashboard/pages/dash_console.js:195 | the white space and line terminators `trim` removes (no contract; a set of code points) |
| `Terminal.FirstNonSpace` | dashboard/web_dashboard/pages/dash_console.js:195 | the index found is the first at or after k that is not white space, everything skipped is white space, and it is `|s|` when there is none |
| `Terminal.EndOfNonSpace` | dashboard/web_dashboard/pages/dash_console.js:195 | scanning back from k, never below lo, everything skipped is white space and the character before the index found is not |
| `Terminal.Trim` | dashboard/web_dashboard/pages/dash_console.js:195 | the trimmed line is the contiguous middle of the line, with only white space before and after it and no white space at either of its own ends |
| `Terminal.TrimKeeps` | dashboard/web_dashboard/pages/dash_console.js:195 | a line without leading or trailing white space is its own trim |
| `Terminal.TrimPadded` | dashboard/web_dashboard/pages/dash_console.js:195 | one blank in front of a line with non-blank ends is removed and nothing else is |
| `Terminal.TrimIdempotent` | dashboard/web_dashboard/pages/dash_console.js:195 | trimming twice is trimming once |
| `Terminal.StartsWith` | dashboard/web_dashboard/pages/dash_console.js:265 | `startsWith`: the prefix is no longer than the line and equals its first characters (no contract) |
| `Terminal.RemoveFirst` | dashboard/web_dashboard/pages/dash_console.js:266 | removing `goto` from a line that starts with it drops exactly that prefix; otherwise the line keeps its length and is unchanged, or loses `|pat|` characters |
| `Terminal.RemoveFirstOccurrence` | dashboard/web_dashboard/pages/dash_console.js:266 | when the first occurrence of the pattern starts at i, the result is the line with exactly that occurrence cut out |
| `Terminal.RemoveFirstAbsent` | dashboard/web_dashboard/pages/dash_console.js:266 | a line without an occurrence of the pattern is unchanged |
| `Terminal.RemoveFirstSkips` | dashboard/web_dashboard/pages/dash_console.js:266 | where the pattern does not occur at the front, the first character is kept and the search goes on |
| `Terminal.Split` | dashboard/web_dashboard/pages/dash_console.js:266 | there is one more part than commas, and no part contains a comma |
| `Terminal.JoinSplit` | dashboard/web_dashboard/pages/dash_console.js:266 | joining the parts with the separator gives back the line |
| `Terminal.SplitFirst` | dashboard/web_dashboard/pages/dash_console.js:266 | a comma-free head before the first comma is the first part |
| `Terminal.SplitNone` | dashboard/web_dashboard/pages/dash_console.js:266 | a line without a comma splits into itself alone |
| `Terminal.UpperChar` | dashboard/web_dashboard/pages/dash_console.js:288 | a lower-case letter becomes its capital; every other character is kept |
| `Terminal.Upper` | dashboard/web_dashboard/pages/dash_console.js:288 | `toUpperCase` maps each character and leaves no lower-case letter |
| `Terminal.UpperIdempotent` | dashboard/web_dashboard/pages/dash_console.js:288 | upper-casing twice is upper-casing once |
| `Terminal.Toggled` | dashboard/web_dashboard/pages/dash_console.js:302 | the toggle always yields a mode, and a different one when it starts from a mode |
| `Terminal.ToggleTwice` | dashboard/web_dashboard/pages/dash_console.js:302 | toggling twice restores the mode |
| `Terminal.ModeStatusText` | dashboard/web_dashboard/pages/dash_console.js:288 | the badge text `MODE: ` followed by the mode in capitals (no contract; `ModeBadges` states both values) |
| `Terminal.ModeBadges` | dashboard/web_dashboard/pages/dash_console.js:287-289 | the badge reads `MODE: MANUAL` or `MODE: AUTO` |
| `Terminal.GotoArgument` | dashboard/web_dashboard/pages/dash_console.js:266 | for a line starting with `goto`, the argument is the trim of the rest of the line; it neither starts nor ends with white space |
| `Terminal.ParseGoto` | dashboard/web_dashboard/pages/dash_console.js:265-276 | the line is badly formatted iff its argument does not hold exactly one comma; it navigates iff there is one comma and both parts parse, and then to exactly the parsed position |
| `Terminal.Classify` | dashboard/web_dashboard/pages/dash_console.js:207-279 | the line is empty iff it is `""`; `help`, `about`, `clear` and `mode` iff it is exactly that word; a `goto` iff it starts with `goto`, and then its outcome is `ParseGoto` of the line; unknown iff it is none of these, and then it carries its own text |
| `Terminal.LocalReply` | dashboard/web_dashboard/pages/dash_console.js:207-279 | `help` and `about` print their texts; `mode` prints the mode in capitals; `clear` and the empty line print nothing; an unknown line prints `Command not found` with the line; a badly formatted `goto` prints `Invalid format`; any other `goto` prints nothing |
| `Terminal.GotoArgumentOf` | dashboard/web_dashboard/pages/dash_console.js:265-266 | the argument of `goto <lat>,<lng>` is `<lat>,<lng>` |
| `Terminal.GotoNavigates` | dashboard/web_dashboard/pages/dash_console.js:265-272 | `goto <lat>,<lng>` with two parsing, comma-free numbers navigates to exactly (lat, lng) |
| `Terminal.GotoParses` | dashboard/web_dashboard/pages/dash_console.js:265-273 | `goto <lat>,<lng>` with two parsing, comma-free numbers parses to navigation to exactly (lat, lng) |
| `Terminal.TwoPartSplit` | dashboard/web_dashboard/pages/dash_console.js:266 | two comma-free parts joined by one comma split back into exactly those two parts |
| `Terminal.GluedGotoIsBadFormat` | dashboard/web_dashboard/pages/dash_console.js:265-276 | `goto1` is a `goto` line whose argument `1` holds no comma, so it is reported as badly formatted |
| `Terminal.BareGotoIsBadFormat` | dashboard/web_dashboard/pages/dash_console.js:265-276 | a bare `goto` is reported as badly formatted |
| `DashConsole.InitialWedges` | dashboard/web_dashboard/pages/dash_console.js:394-404 | start-up draws one wedge per sensor, at full range and without fill |
| `DashConsole.LinkNote` | dashboard/web_dashboard/pages/dash_console.js:200-204 | nothing is added while the link is open; otherwise exactly the not-connected warning |
| `DashConsole.Dashboard.constructor` | dashboard/web_dashboard/pages/dash_console.js:9-407 | the page starts in manual mode with badge `MODE: MANUAL`, an empty chart when its canvas exists, the bot at (7.351136, −2.341782), no route or pin, five full-range wedges, a blank thermal canvas and no link |
| `DashConsole.Dashboard.GenerateCrookedRoute` | dashboard/web_dashboard/pages/dash_console.js:101-148 | the route and the pin are replaced by the new path and a pin at `to`, one line is logged, and nothing else changes |
| `DashConsole.Dashboard.MapMenuAction` | dashboard/web_dashboard/pages/dash_console.js:163-190 | either menu button routes from the bot's position to the clicked point, with action `Go To` or `Inspect` |
| `DashConsole.Dashboard.EchoAndSend` | dashboard/web_dashboard/pages/dash_console.js:196-204 | the line is echoed, then sent when the link is open and otherwise followed by the not-connected warning |
| `DashConsole.Dashboard.HandleLocally` | dashboard/web_dashboard/pages/dash_console.js:207-279 | `clear` empties the output; a navigating `goto` draws a route from the bot and pins its target; every other line appends its reply; only a navigating `goto` changes the route and the pin, and nothing else changes |
| `DashConsole.Dashboard.Enter` | dashboard/web_dashboard/pages/dash_console.js:193-284 | the trimmed line is echoed and sent (or warned about) before it is handled; `clear` leaves an empty output, the echo included; only a navigating `goto` changes the route and the pin |
| `DashConsole.Dashboard.ToggleMode` | dashboard/web_dashboard/pages/dash_console.js:301-305 | the mode flips, the switch is logged in capitals, and the badge follows |
| `DashConsole.Dashboard.Heartbeat` | dashboard/web_dashboard/pages/dash_console.js:549-553 | a `ping` is sent only while the link is open, and nothing else changes |
| `DashConsole.Dashboard.OnGas` | dashboard/web_dashboard/pages/dash_console.js:427-455 | the bars read MQ-9 three times and MQ-135 once, then the chart slides the sample in; without `setProgress` nothing changes |
| `DashConsole.Dashboard.OnGps` | dashboard/web_dashboard/pages/dash_console.js:458-477 | a fix moves the bot, appends the fix to an active route without ever starting one, and is logged; no fix only logs |
| `DashConsole.Dashboard.OnUltrasonic` | dashboard/web_dashboard/pages/dash_console.js:480-504 | the distances are logged and the wedges become `ApplyRanges` of the old wedges |
| `DashConsole.Dashboard.OnThermal` | dashboard/web_dashboard/pages/dash_console.js:508-512 | with a canvas and 768 readings the canvas holds the frame's raster; otherwise nothing changes |
| `DashConsole.Dashboard.ConnectClicked` | dashboard/web_dashboard/pages/dash_console.js:296-299 | the two click listeners log the attempt and the connection in that order, and the fresh socket is not open |
| `DashConsole.Dashboard.ConnectTimerFired` | dashboard/web_dashboard/pages/dash_console.js:298 | the timer logs success whatever the socket's state |
| `DashConsole.Dashboard.LinkOpened` | dashboard/web_dashboard/pages/dash_console.js:417-420 | the link is open and the connection is logged |
| `DashConsole.Dashboard.LinkClosed` | dashboard/web_dashboard/pages/dash_console.js:534-536 | the link is closed and the disconnection is logged |
| `DashConsole.Dashboard.OnMessage` | dashboard/web_dashboard/pages/dash_console.js:422-531 | each frame type has exactly its handler's effect: `gas` sets the bars and slides the sample into the chart (or changes nothing without `setProgress`), `gps` with a fix moves the bot and extends an active route, without one leaves both alone, and logs either way, `ultrasonic` logs the distances and redraws the wedges, `thermal` redraws the canvas or changes nothing, `motor` and `avoidance` log one line, unknown and malformed frames change nothing; every handler keeps the page invariant and leaves the sent frames, link, mode, badge and pin alone |

## Left out

- Rendering through the DOM, Leaflet and Chart.js is not modelled. This covers markers, popups, `fitBounds`, `panTo`, `chart.update()`, `putImageData`, the injected CSS and scrolling. The model keeps the state these calls draw from.
- The SVG path string and every `toFixed` and number-to-text conversion are not modelled. A wedge path is kept as its parts (`WedgePath`), and a console line as a `LogLine` value.
- The console's HTML is not modelled. The help and about texts are the constants `HelpText` and `AboutText`. The echoed command is not HTML-escaped in the source, and the model keeps it as plain text.
- `JSON.parse` and the payload's field types are not modelled. A frame arrives as a typed `Message`, and `Malformed` stands for text that does not parse. Payloads with missing or non-numeric fields are not modelled: they can push `undefined` onto the chart, or throw after the bot has moved.
- `Math.cos`, `Math.sin`, `Math.random`, `parseFloat` and `toLocaleTimeString` are parameters. `PolarOnCircle` and `WedgeEndsOnCircle` assume cos² + sin² = 1.
- `Thermal.FlatFrameBlack`: this holds over exact arithmetic. In IEEE-754 doubles the blend of four equal readings can round away from them. The ratio is then ±Infinity rather than NaN, and such a pixel comes out pure red or pure blue.
- IEEE-754 floating point is not modelled: numbers are `real`. NaN appears only where the thermal colour computes 0/0, where it is the `None` of `MapTempToColor`. An infinite ratio appears only when the flat frame's minimum and maximum are equal but the reading differs from them, and then it clamps to 1 or 0.
- `Terminal.Upper`: only ASCII letters are upper-cased, not all of Unicode. This covers both mode names.
- `Terminal.IsTrimmable`: this is the white space and line-terminator set of `String.prototype.trim`, written as code points. No Unicode database is consulted.
- `Terminal.Split` handles only a one-character separator, the only kind the page uses.
- `DashConsole.Dashboard.OnGas`: the arguments of `setProgress` are recorded in `bars`, because its body is not part of this model.
- `DashConsole.Dashboard.LinkOpened`: the link is a boolean. The socket's CONNECTING and CLOSING states count as not open.
- `DashConsole.Dashboard.LinkClosed`: this sets the link to closed even when the closing socket is an old one that a later connect click has already replaced. The model keeps a single socket.
- The order of events is not constrained. The one-second connect timer (`ConnectTimerFired`) and the ten-second heartbeat (`Heartbeat`) are events like any other, and their scheduling is not modelled.
- `onerror`, `console.warn` and `console.error` only write to the browser console and are not modelled.
- The two ESP32 firmware programs under `tests/ESP32` are not part of this model. They are hardware I/O, and they only serve to document the shapes of the frames.
- The thermal raster is fixed at 32 x 24 readings upscaled by 8, as in the source. The wedges are the five start-up wedges, so `ApplyRanges` also allows other counts for generality.
