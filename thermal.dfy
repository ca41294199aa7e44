/**
 * The thermal reconstructor: `drawThermalFrame` and `mapTempToColor`.
 *
 * A frame is 768 readings of a 32 x 24 sensor grid, row-major. Each pixel (x, y) of
 * the 256 x 192 RGBA raster sits at grid position (x / 8, y / 8); its value is the
 * bilinear blend of the four grid cells around it (the high neighbour clamped to the
 * last column or row), coloured on a blue-green-red ramp normalised to the frame's
 * own minimum and maximum. Floating point is modelled by `real`.
 */
module Thermal {
  import opened Common

  /** Readings per frame: 32 columns by 24 rows. */
  const FrameLen: nat := 768
  /** Raster size in bytes: 256 x 192 pixels, 4 channels each. */
  const RasterBytes: nat := 196608
  /** Pixels per raster. */
  const RasterPixels: nat := 49152

  /** `Math.min(...frame)`. */
  function SeqMin(s: seq<real>): (m: real)
    requires |s| > 0
    ensures m in s
    ensures forall i :: 0 <= i < |s| ==> m <= s[i]
  {
    if |s| == 1 then s[0] else MinReal(s[0], SeqMin(s[1..]))
  }

  /** `Math.max(...frame)`. */
  function SeqMax(s: seq<real>): (m: real)
    requires |s| > 0
    ensures m in s
    ensures forall i :: 0 <= i < |s| ==> s[i] <= m
  {
    if |s| == 1 then s[0] else MaxReal(s[0], SeqMax(s[1..]))
  }

  /** A raster coordinate seen on the grid: the cell below it and the offset into that cell. */
  datatype GridPos = GridPos(cell: nat, frac: real)

  /**
   * `gx = x / upscaleX; x0 = Math.floor(gx); dx = gx - x0` with an upscale of exactly 8:
   * the cell is the integer quotient and the offset is the remainder in eighths.
   */
  function ToGrid(p: nat): (g: GridPos)
    ensures g.cell == p / 8
    ensures g.frac == (p % 8) as real / 8.0
    ensures 0.0 <= g.frac <= 0.875
  {
    var gp := p as real / 8.0;
    var q, r := p / 8, p % 8;
    assert gp == q as real + r as real / 8.0;
    assert gp.Floor == q;
    GridPos(q, gp - gp.Floor as real)
  }

  /** Linear interpolation between `a` and `b` at `t`, as written in the source. */
  function Lerp(a: real, b: real, t: real): real
  {
    a * (1.0 - t) + b * t
  }

  /** Interpolating between two values in [lo, hi] stays in [lo, hi]. */
  lemma LerpBetween(a: real, b: real, t: real, lo: real, hi: real)
    requires lo <= a <= hi && lo <= b <= hi && 0.0 <= t <= 1.0
    ensures lo <= Lerp(a, b, t) <= hi
  {
    assert Lerp(a, b, t) - lo == (a - lo) * (1.0 - t) + (b - lo) * t;
    assert hi - Lerp(a, b, t) == (hi - a) * (1.0 - t) + (hi - b) * t;
    assert (a - lo) * (1.0 - t) >= 0.0;
    assert (b - lo) * t >= 0.0;
    assert (hi - a) * (1.0 - t) >= 0.0;
    assert (hi - b) * t >= 0.0;
  }

  /** The grid index `gy * 32 + gx` of a cell: always inside the frame. */
  function CellIndex(gx: nat, gy: nat): (i: nat)
    requires gx < 32 && gy < 24
    ensures i < FrameLen
  {
    gy * 32 + gx
  }

  /** The four grid cells around a raster pixel: (x0, y0), (x1, y0), (x0, y1), (x1, y1). */
  datatype Neighbours = Neighbours(x0: nat, y0: nat, x1: nat, y1: nat)

  /** The cells read for pixel (x, y); the high neighbours are clamped to column 31 and row 23. */
  function NeighboursOf(x: nat, y: nat): (n: Neighbours)
    requires x < 256 && y < 192
    ensures n.x0 <= 31 && n.y0 <= 23 && n.x1 <= 31 && n.y1 <= 23
    ensures n.x0 <= n.x1 <= n.x0 + 1 && n.y0 <= n.y1 <= n.y0 + 1
  {
    var x0, y0 := ToGrid(x).cell, ToGrid(y).cell;
    Neighbours(x0, y0, if x0 + 1 < 31 then x0 + 1 else 31, if y0 + 1 < 23 then y0 + 1 else 23)
  }

  /** The bilinear value of raster pixel (x, y). */
  function Blend(frame: seq<real>, x: nat, y: nat): real
    requires |frame| == FrameLen && x < 256 && y < 192
  {
    var n := NeighboursOf(x, y);
    var dx, dy := ToGrid(x).frac, ToGrid(y).frac;
    var f00 := frame[CellIndex(n.x0, n.y0)];
    var f10 := frame[CellIndex(n.x1, n.y0)];
    var f01 := frame[CellIndex(n.x0, n.y1)];
    var f11 := frame[CellIndex(n.x1, n.y1)];
    Lerp(Lerp(f00, f10, dx), Lerp(f01, f11, dx), dy)
  }

  /** At a pixel that falls exactly on a grid cell, the blend is that cell's reading. */
  lemma BlendAtGrid(frame: seq<real>, x: nat, y: nat)
    requires |frame| == FrameLen && x < 256 && y < 192
    requires x % 8 == 0 && y % 8 == 0
    ensures Blend(frame, x, y) == frame[(y / 8) * 32 + x / 8]
  {
    assert ToGrid(x).frac == 0.0 && ToGrid(y).frac == 0.0;
  }

  /** The blend is a convex combination: it lies between the frame's minimum and maximum. */
  lemma BlendWithinFrame(frame: seq<real>, x: nat, y: nat)
    requires |frame| == FrameLen && x < 256 && y < 192
    ensures SeqMin(frame) <= Blend(frame, x, y) <= SeqMax(frame)
  {
    var lo, hi := SeqMin(frame), SeqMax(frame);
    var n := NeighboursOf(x, y);
    var dx, dy := ToGrid(x).frac, ToGrid(y).frac;
    var f00 := frame[CellIndex(n.x0, n.y0)];
    var f10 := frame[CellIndex(n.x1, n.y0)];
    var f01 := frame[CellIndex(n.x0, n.y1)];
    var f11 := frame[CellIndex(n.x1, n.y1)];
    LerpBetween(f00, f10, dx, lo, hi);
    LerpBetween(f01, f11, dx, lo, hi);
    LerpBetween(Lerp(f00, f10, dx), Lerp(f01, f11, dx), dy, lo, hi);
  }

  /** A colour as three channel values. */
  datatype Rgb = Rgb(r: int, g: int, b: int)

  /** Every channel is a byte value. */
  predicate IsByteColor(c: Rgb)
  {
    0 <= c.r <= 255 && 0 <= c.g <= 255 && 0 <= c.b <= 255
  }

  /** The heat ramp at a clamped ratio: red rises, blue falls, green peaks in the middle. */
  function Ramp(clamped: real): (c: Rgb)
    requires 0.0 <= clamped <= 1.0
    ensures IsByteColor(c)
    ensures 254 <= c.r + c.b <= 255
  {
    var r := (255.0 * clamped).Floor;
    var g := (255.0 * (1.0 - AbsReal(clamped - 0.5) * 2.0)).Floor;
    var b := (255.0 * (1.0 - clamped)).Floor;
    assert r as real <= 255.0 * clamped < r as real + 1.0;
    assert b as real <= 255.0 - 255.0 * clamped < b as real + 1.0;
    Rgb(r, g, b)
  }

  /**
   * `mapTempToColor`. The source divides by `max - min` without a guard, so the
   * zero-width case follows IEEE division: 0/0 gives NaN in every channel (`None`),
   * and a nonzero numerator gives an infinity that the clamp turns into 1 or 0.
   */
  function MapTempToColor(temp: real, lo: real, hi: real): (c: Option<Rgb>)
    ensures c.None? <==> hi == lo && temp == lo
    ensures c.Some? ==> IsByteColor(c.value)
  {
    if hi - lo == 0.0 then
      if temp - lo == 0.0 then None
      else Some(Ramp(if temp - lo > 0.0 then 1.0 else 0.0))
    else
      var ratio := (temp - lo) / (hi - lo);
      var clamped := MinReal(1.0, MaxReal(0.0, ratio));
      Some(Ramp(clamped))
  }

  /** A product of two positive reals is positive. */
  lemma ProductPositive(a: real, b: real)
    ensures a > 0.0 && b > 0.0 ==> a * b > 0.0
  {
  }

  /** A non-positive amount over a positive width gives a non-positive ratio. */
  lemma QuotientNonPositive(n: real, d: real)
    requires d > 0.0 && n <= 0.0
    ensures n / d <= 0.0
  {
    var q := n / d;
    assert q * d == n;
    if q > 0.0 {
      ProductPositive(q, d);
      assert false;
    }
  }

  /** An amount of at least the width gives a ratio of at least one. */
  lemma QuotientAtLeastOne(n: real, d: real)
    requires d > 0.0 && n >= d
    ensures n / d >= 1.0
  {
    var q := n / d;
    assert q * d == n;
    assert (1.0 - q) * d == d - q * d;
    if q < 1.0 {
      ProductPositive(1.0 - q, d);
      assert false;
    }
  }

  /** Half the width gives a ratio of one half. */
  lemma QuotientHalf(n: real, d: real)
    requires d > 0.0 && n == d / 2.0
    ensures n / d == 0.5
  {
    assert n / d == (n - d / 2.0) / d + 0.5;
  }

  /** The ramp's ends and middle: at or below the minimum pure blue, at or above the maximum pure red. */
  lemma ColorExtremes(temp: real, lo: real, hi: real)
    requires lo < hi
    ensures temp <= lo ==> MapTempToColor(temp, lo, hi) == Some(Rgb(0, 0, 255))
    ensures temp >= hi ==> MapTempToColor(temp, lo, hi) == Some(Rgb(255, 0, 0))
    ensures temp == (lo + hi) / 2.0 ==> MapTempToColor(temp, lo, hi).value.g == 255
  {
    if temp <= lo {
      QuotientNonPositive(temp - lo, hi - lo);
    }
    if temp >= hi {
      QuotientAtLeastOne(temp - lo, hi - lo);
    }
    if temp == (lo + hi) / 2.0 {
      QuotientHalf(temp - lo, hi - lo);
    }
  }

  /** A hotter reading is never less red and never more blue. */
  lemma ColorMonotone(t1: real, t2: real, lo: real, hi: real)
    requires lo < hi && t1 <= t2
    ensures MapTempToColor(t1, lo, hi).value.r <= MapTempToColor(t2, lo, hi).value.r
    ensures MapTempToColor(t1, lo, hi).value.b >= MapTempToColor(t2, lo, hi).value.b
  {
    var q1, q2 := (t1 - lo) / (hi - lo), (t2 - lo) / (hi - lo);
    assert q1 <= q2 by {
      assert q2 - q1 == (t2 - t1) / (hi - lo);
    }
    var c1, c2 := MinReal(1.0, MaxReal(0.0, q1)), MinReal(1.0, MaxReal(0.0, q2));
    assert c1 <= c2;
    assert 255.0 * c1 <= 255.0 * c2;
    assert 255.0 * (1.0 - c1) >= 255.0 * (1.0 - c2);
  }

  /** What the pixel buffer holds for one channel: a NaN channel is stored as 0, alpha is 255. */
  function ChannelByte(c: Option<Rgb>, k: nat): (v: int)
    requires k < 4
    ensures k == 3 ==> v == 255
    ensures c.Some? && k == 0 ==> v == c.value.r
    ensures c.Some? && k == 1 ==> v == c.value.g
    ensures c.Some? && k == 2 ==> v == c.value.b
    ensures c.None? ==> k == 3 || v == 0
    ensures c.Some? && IsByteColor(c.value) ==> 0 <= v <= 255
  {
    if k == 3 then 255
    else match c
      case None => 0
      case Some(rgb) => if k == 0 then rgb.r else if k == 1 then rgb.g else rgb.b
  }

  /** The colour of raster pixel (x, y) for a frame. */
  function PixelColor(frame: seq<real>, x: nat, y: nat): Option<Rgb>
    requires |frame| == FrameLen && x < 256 && y < 192
  {
    MapTempToColor(Blend(frame, x, y), SeqMin(frame), SeqMax(frame))
  }

  /** The colour of every pixel of the raster, in row-major order. */
  function PixelColors(frame: seq<real>): (cs: seq<Option<Rgb>>)
    requires |frame| == FrameLen
    ensures |cs| == RasterPixels
  {
    seq(RasterPixels, p requires 0 <= p < RasterPixels => PixelColor(frame, p % 256, p / 256))
  }

  /** The RGBA bytes of a row of pixel colours: four bytes per pixel, alpha last. */
  function RasterOf(colors: seq<Option<Rgb>>): (r: seq<int>)
    requires |colors| == RasterPixels
    ensures |r| == RasterBytes
  {
    seq(RasterBytes, i requires 0 <= i < RasterBytes => ChannelByte(colors[i / 4], i % 4))
  }

  /** The whole raster `drawThermalFrame` puts on the canvas for a frame. */
  function ThermalRaster(frame: seq<real>): (r: seq<int>)
    requires |frame| == FrameLen
    ensures |r| == RasterBytes
  {
    RasterOf(PixelColors(frame))
  }

  /** Row-major index arithmetic: byte (y * 256 + x) * 4 + k decodes back to x, y and k. */
  lemma DecodeIndex(x: nat, y: nat, k: nat)
    requires x < 256 && y < 192 && k < 4
    ensures y * 256 + x < RasterPixels
    ensures (y * 256 + x) * 4 + k < RasterBytes
    ensures ((y * 256 + x) * 4 + k) / 4 == y * 256 + x
    ensures ((y * 256 + x) * 4 + k) % 4 == k
    ensures (y * 256 + x) % 256 == x && (y * 256 + x) / 256 == y
  {
  }

  /** Pixel y * 256 + x of the colour row is pixel (x, y). */
  lemma ColorAt(frame: seq<real>, x: nat, y: nat)
    requires |frame| == FrameLen && x < 256 && y < 192
    ensures y * 256 + x < RasterPixels
    ensures PixelColors(frame)[y * 256 + x] == PixelColor(frame, x, y)
  {
    DecodeIndex(x, y, 0);
  }

  /** Byte (y * 256 + x) * 4 + k of a raster is channel k of pixel (x, y). */
  lemma RasterOfAt(colors: seq<Option<Rgb>>, x: nat, y: nat, k: nat)
    requires |colors| == RasterPixels && x < 256 && y < 192 && k < 4
    ensures y * 256 + x < RasterPixels && (y * 256 + x) * 4 + k < RasterBytes
    ensures RasterOf(colors)[(y * 256 + x) * 4 + k] == ChannelByte(colors[y * 256 + x], k)
  {
    DecodeIndex(x, y, k);
  }

  /** The write index `(y * 256 + x) * 4 + k` lands on pixel (x, y), channel k, inside the buffer. */
  lemma PixelLayout(frame: seq<real>, x: nat, y: nat, k: nat)
    requires |frame| == FrameLen && x < 256 && y < 192 && k < 4
    ensures (y * 256 + x) * 4 + k < RasterBytes
    ensures ThermalRaster(frame)[(y * 256 + x) * 4 + k] == ChannelByte(PixelColor(frame, x, y), k)
  {
    RasterOfAt(PixelColors(frame), x, y, k);
    ColorAt(frame, x, y);
  }

  /** Every one of the 49,152 pixels is opaque and every byte of the raster is a byte value. */
  lemma RasterOpaqueBytes(frame: seq<real>)
    requires |frame| == FrameLen
    ensures forall p :: 0 <= p < RasterPixels ==> ThermalRaster(frame)[p * 4 + 3] == 255
    ensures forall i :: 0 <= i < RasterBytes ==> 0 <= ThermalRaster(frame)[i] <= 255
  {
    var cs := PixelColors(frame);
    forall p | 0 <= p < RasterPixels
      ensures ThermalRaster(frame)[p * 4 + 3] == 255
    {
      assert (p * 4 + 3) % 4 == 3;
    }
    forall i | 0 <= i < RasterBytes
      ensures 0 <= ThermalRaster(frame)[i] <= 255
    {
      var c := cs[i / 4];
      assert c.Some? ==> IsByteColor(c.value);
    }
  }

  /** With a non-flat frame, a grid-aligned pixel shows exactly the colour of its cell's reading. */
  lemma GridAlignedPixel(frame: seq<real>, x: nat, y: nat)
    requires |frame| == FrameLen && x < 256 && y < 192
    requires x % 8 == 0 && y % 8 == 0
    requires SeqMin(frame) < SeqMax(frame)
    ensures PixelColor(frame, x, y) == MapTempToColor(frame[(y / 8) * 32 + x / 8], SeqMin(frame), SeqMax(frame))
    ensures PixelColor(frame, x, y).Some?
  {
    BlendAtGrid(frame, x, y);
  }

  /** The colour mapping never divides by zero on a non-flat frame: every pixel gets a colour. */
  lemma NonFlatFrameColoured(frame: seq<real>, x: nat, y: nat)
    requires |frame| == FrameLen && x < 256 && y < 192
    requires SeqMin(frame) < SeqMax(frame)
    ensures PixelColor(frame, x, y).Some?
    ensures IsByteColor(PixelColor(frame, x, y).value)
  {
  }

  /**
   * A flat frame (every reading equal) has no guard in the source: every pixel computes
   * 0/0, and the pixel buffer stores the NaN channels as 0 under an opaque alpha.
   */
  lemma FlatFrameBlack(frame: seq<real>, x: nat, y: nat, k: nat)
    requires |frame| == FrameLen && x < 256 && y < 192 && k < 3
    requires forall i :: 0 <= i < |frame| ==> frame[i] == frame[0]
    ensures ThermalRaster(frame)[(y * 256 + x) * 4 + k] == 0
    ensures ThermalRaster(frame)[(y * 256 + x) * 4 + 3] == 255
  {
    var v := frame[0];
    assert SeqMin(frame) == v && SeqMax(frame) == v;
    BlendWithinFrame(frame, x, y);
    PixelLayout(frame, x, y, k);
    PixelLayout(frame, x, y, 3);
  }

  /** The first `n` bytes of `s` are those of the raster of `colors`. */
  ghost predicate DrawnUpTo(colors: seq<Option<Rgb>>, s: seq<int>, n: nat)
  {
    |colors| == RasterPixels && |s| == RasterBytes && n <= RasterBytes &&
    forall i :: 0 <= i < n ==> s[i] == ChannelByte(colors[i / 4], i % 4)
  }

  /** Writing the four bytes of pixel (x, y) extends the drawn prefix by one pixel. */
  lemma PrefixStep(colors: seq<Option<Rgb>>, before: seq<int>, x: nat, y: nat)
    requires x < 256 && y < 192
    requires DrawnUpTo(colors, before, (y * 256 + x) * 4)
    ensures var p := y * 256 + x;
      && p < RasterPixels
      && DrawnUpTo(colors, before[p * 4 := ChannelByte(colors[p], 0)][p * 4 + 1 := ChannelByte(colors[p], 1)]
                                 [p * 4 + 2 := ChannelByte(colors[p], 2)][p * 4 + 3 := 255], p * 4 + 4)
  {
    var p := y * 256 + x;
    var s := before[p * 4 := ChannelByte(colors[p], 0)][p * 4 + 1 := ChannelByte(colors[p], 1)]
                   [p * 4 + 2 := ChannelByte(colors[p], 2)][p * 4 + 3 := 255];
    forall i | 0 <= i < p * 4 + 4
      ensures s[i] == ChannelByte(colors[i / 4], i % 4)
    {
      if i >= p * 4 {
        DecodeIndex(x, y, i - p * 4);
      }
    }
  }

  /**
   * The body of the inner drawing loop for pixel (x, y): locate it on the grid, read the
   * four cells around it, blend them and colour the result against the frame's range.
   */
  method ShadePixel(frame: seq<real>, lo: real, hi: real, x: nat, y: nat) returns (color: Option<Rgb>)
    requires |frame| == FrameLen && x < 256 && y < 192
    requires lo == SeqMin(frame) && hi == SeqMax(frame)
    ensures color == PixelColor(frame, x, y)
  {
    // gx = x / upscaleX, x0 = Math.floor(gx), dx = gx - x0 (and the same for y)
    var x0, dx := ToGrid(x).cell, ToGrid(x).frac;
    var y0, dy := ToGrid(y).cell, ToGrid(y).frac;
    var x1 := if x0 + 1 < 31 then x0 + 1 else 31;
    var y1 := if y0 + 1 < 23 then y0 + 1 else 23;
    assert Neighbours(x0, y0, x1, y1) == NeighboursOf(x, y);

    var f00 := frame[CellIndex(x0, y0)];
    var f10 := frame[CellIndex(x1, y0)];
    var f01 := frame[CellIndex(x0, y1)];
    var f11 := frame[CellIndex(x1, y1)];

    var fxy0 := Lerp(f00, f10, dx);
    var fxy1 := Lerp(f01, f11, dx);
    var fxy := Lerp(fxy0, fxy1, dy);
    assert fxy == Blend(frame, x, y);

    color := MapTempToColor(fxy, lo, hi);
  }

  /**
   * The nested loops of `drawThermalFrame` over a fresh all-zero image buffer: every
   * pixel of the raster is written, channel by channel, in row-major order.
   */
  method RenderFrame(frame: seq<real>) returns (image: array<int>)
    requires |frame| == FrameLen
    ensures image[..] == ThermalRaster(frame)
  {
    var lo := SeqMin(frame);
    var hi := SeqMax(frame);
    image := new int[RasterBytes];
    ghost var colors := PixelColors(frame);
    for y := 0 to 192
      invariant image.Length == RasterBytes
      invariant DrawnUpTo(colors, image[..], y * 1024)
    {
      for x := 0 to 256
        invariant DrawnUpTo(colors, image[..], (y * 256 + x) * 4)
      {
        var color := ShadePixel(frame, lo, hi, x, y);
        ColorAt(frame, x, y);
        var idx := (y * 256 + x) * 4;
        PrefixStep(colors, image[..], x, y);
        // a NaN channel is stored as 0 by the clamped pixel array
        image[idx] := ChannelByte(color, 0);
        image[idx + 1] := ChannelByte(color, 1);
        image[idx + 2] := ChannelByte(color, 2);
        image[idx + 3] := 255;
      }
    }
    assert image[..] == RasterOf(colors);
  }
}
