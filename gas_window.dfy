/**
 * The gas chart's rolling window: every `gas` frame appends one time label and one
 * value per channel, and once more than 20 labels are held the oldest entry of every
 * series is dropped. The functions here say what the window holds after any number
 * of frames; the `Dashboard` class updates its arrays in place and keeps them equal
 * to these.
 */
module GasWindow {

  /** Number of samples the chart keeps. */
  const Capacity: nat := 20

  /** Number of plotted series: CO, CH4, LPG, air quality. */
  const ChannelCount: nat := 4

  /** One `gas` frame as charted: the local time label and the two sensor percentages. */
  datatype GasSample = GasSample(stamp: string, mq9: real, mq135: real)

  /** The value a series receives: CO, CH4 and LPG all show MQ-9, air quality shows MQ-135. */
  function ChannelValue(s: GasSample, channel: nat): (v: real)
    requires channel < ChannelCount
    ensures channel < 3 ==> v == s.mq9
    ensures channel == 3 ==> v == s.mq135
  {
    if channel == 3 then s.mq135 else s.mq9
  }

  /** The most recent `Capacity` elements of `s`, oldest first. */
  function Recent<T>(s: seq<T>): (r: seq<T>)
    ensures |r| <= Capacity
    ensures |r| == if |s| <= Capacity then |s| else Capacity
  {
    if |s| <= Capacity then s else s[|s| - Capacity..]
  }

  /** The window is the newest part of the history, in arrival order. */
  lemma RecentIsNewest<T>(s: seq<T>)
    ensures Recent(s) == s[|s| - |Recent(s)|..]
    ensures |s| > 0 ==> Recent(s)[|Recent(s)| - 1] == s[|s| - 1]
  {
  }

  /** One chart update on one array: push, then shift once if the array now exceeds the capacity. */
  function Slide<T>(window: seq<T>, x: T): (r: seq<T>)
    ensures |window| <= Capacity ==> |r| <= Capacity
    ensures |r| > 0 && r[|r| - 1] == x
    ensures |window| < Capacity ==> r == window + [x]
    ensures |window| >= Capacity ==> r == window[1..] + [x]
  {
    var pushed := window + [x];
    if |pushed| > Capacity then
      assert pushed[1..] == window[1..] + [x];
      pushed[1..]
    else
      pushed
  }

  /** Sliding a new element into the recent window gives the recent window of the longer history. */
  lemma SlideRecent<T>(s: seq<T>, x: T)
    ensures Slide(Recent(s), x) == Recent(s + [x])
  {
    var t := s + [x];
    if |s| < Capacity {
      assert Recent(s) == s;
      assert Recent(t) == t;
    } else {
      assert Recent(s) + [x] == t[|t| - Capacity - 1..];
      assert (Recent(s) + [x])[1..] == t[|t| - Capacity..];
    }
  }

  /** A run of chart updates, applied in arrival order (the last element slides in last). */
  function SlideAll<T>(window: seq<T>, xs: seq<T>): seq<T>
    decreases |xs|
  {
    if |xs| == 0 then window else Slide(SlideAll(window, xs[..|xs| - 1]), xs[|xs| - 1])
  }

  /** Any run of updates on a recent window leaves the recent window of the whole history. */
  lemma {:induction false} SlideAllRecent<T>(s: seq<T>, xs: seq<T>)
    ensures SlideAll(Recent(s), xs) == Recent(s + xs)
    decreases |xs|
  {
    if |xs| == 0 {
      assert s + xs == s;
    } else {
      var init, last := xs[..|xs| - 1], xs[|xs| - 1];
      SlideAllRecent(s, init);
      SlideRecent(s + init, last);
      assert s + init + [last] == s + xs;
    }
  }

  /** From an empty chart, the window after any frames is the last `Capacity` of them, in order. */
  lemma FromEmptyChart<T>(xs: seq<T>)
    ensures SlideAll([], xs) == Recent(xs)
    ensures |SlideAll([], xs)| == if |xs| <= Capacity then |xs| else Capacity
  {
    var empty: seq<T> := [];
    assert Recent(empty) == empty;
    SlideAllRecent(empty, xs);
    assert empty + xs == xs;
  }

  /** The label axis of a run of samples. */
  function Labels(samples: seq<GasSample>): (r: seq<string>)
    ensures |r| == |samples|
    ensures forall i :: 0 <= i < |samples| ==> r[i] == samples[i].stamp
  {
    seq(|samples|, i requires 0 <= i < |samples| => samples[i].stamp)
  }

  /** One plotted series of a run of samples. */
  function Series(samples: seq<GasSample>, channel: nat): (r: seq<real>)
    requires channel < ChannelCount
    ensures |r| == |samples|
    ensures forall i :: 0 <= i < |samples| ==> r[i] == ChannelValue(samples[i], channel)
  {
    seq(|samples|, i requires 0 <= i < |samples| => ChannelValue(samples[i], channel))
  }

  /** Taking the recent window and projecting commute, so all five arrays stay aligned. */
  lemma RecentProjections(samples: seq<GasSample>, channel: nat)
    requires channel < ChannelCount
    ensures Labels(Recent(samples)) == Recent(Labels(samples))
    ensures Series(Recent(samples), channel) == Recent(Series(samples, channel))
  {
  }

  /** Sliding a sample in, then projecting, equals sliding its projection into the projection. */
  lemma SlideProjections(window: seq<GasSample>, s: GasSample, channel: nat)
    requires channel < ChannelCount
    ensures Labels(Slide(window, s)) == Slide(Labels(window), s.stamp)
    ensures Series(Slide(window, s), channel) == Slide(Series(window, channel), ChannelValue(s, channel))
  {
    assert Labels(window + [s]) == Labels(window) + [s.stamp];
    assert Series(window + [s], channel) == Series(window, channel) + [ChannelValue(s, channel)];
  }

  /** The chart's five arrays hold exactly the recent window of the charted samples. */
  ghost predicate ChartHolds(labels: seq<string>, datasets: seq<seq<real>>, samples: seq<GasSample>)
  {
    && |datasets| == ChannelCount
    && labels == Labels(Recent(samples))
    && forall c :: 0 <= c < ChannelCount ==> datasets[c] == Series(Recent(samples), c)
  }

  /** Whatever was charted, the five arrays have one common length of at most `Capacity`. */
  lemma ChartAligned(labels: seq<string>, datasets: seq<seq<real>>, samples: seq<GasSample>)
    requires ChartHolds(labels, datasets, samples)
    ensures |labels| <= Capacity
    ensures forall c :: 0 <= c < ChannelCount ==> |datasets[c]| == |labels|
    ensures |samples| > 0 ==> labels[|labels| - 1] == samples[|samples| - 1].stamp
  {
  }

  /** Each series with its own channel's value of `s` slid in. */
  function SlideEach(datasets: seq<seq<real>>, s: GasSample): (r: seq<seq<real>>)
    requires |datasets| == ChannelCount
    ensures |r| == ChannelCount
    ensures forall c :: 0 <= c < ChannelCount ==> r[c] == Slide(datasets[c], ChannelValue(s, c))
  {
    seq(ChannelCount, c requires 0 <= c < ChannelCount => Slide(datasets[c], ChannelValue(s, c)))
  }

  /** Sliding one sample into every array keeps the chart equal to the recent window. */
  lemma ChartStep(labels: seq<string>, datasets: seq<seq<real>>, samples: seq<GasSample>, s: GasSample)
    requires ChartHolds(labels, datasets, samples)
    ensures ChartHolds(Slide(labels, s.stamp), SlideEach(datasets, s), samples + [s])
  {
    var window := Recent(samples);
    SlideRecent(samples, s);
    SlideProjections(window, s, 0);
    forall c | 0 <= c < ChannelCount
      ensures SlideEach(datasets, s)[c] == Series(Recent(samples + [s]), c)
    {
      SlideProjections(window, s, c);
    }
  }

  /** The `forEach` that shifts every series once. */
  method ShiftEach(series: seq<seq<real>>) returns (r: seq<seq<real>>)
    requires forall c :: 0 <= c < |series| ==> |series[c]| > 0
    ensures |r| == |series|
    ensures forall c :: 0 <= c < |series| ==> r[c] == series[c][1..]
  {
    r := series;
    for i := 0 to |r|
      invariant |r| == |series|
      invariant forall c :: 0 <= c < i ==> r[c] == series[c][1..]
      invariant forall c :: i <= c < |series| ==> r[c] == series[c]
    {
      r := r[i := r[i][1..]];
    }
  }

  /**
   * The array updates of one `gas` frame: push the label and each channel's value, then,
   * when the labels exceed `Capacity`, shift the labels and every series once.
   */
  method PushAndShift(labels: seq<string>, datasets: seq<seq<real>>, sample: GasSample)
    returns (newLabels: seq<string>, newDatasets: seq<seq<real>>)
    requires |datasets| == ChannelCount
    requires forall c :: 0 <= c < ChannelCount ==> |datasets[c]| == |labels|
    ensures newLabels == Slide(labels, sample.stamp)
    ensures newDatasets == SlideEach(datasets, sample)
  {
    newLabels := labels + [sample.stamp];
    var pushed := datasets;
    pushed := pushed[0 := pushed[0] + [ChannelValue(sample, 0)]];
    pushed := pushed[1 := pushed[1] + [ChannelValue(sample, 1)]];
    pushed := pushed[2 := pushed[2] + [ChannelValue(sample, 2)]];
    pushed := pushed[3 := pushed[3] + [ChannelValue(sample, 3)]];
    assert forall c :: 0 <= c < ChannelCount ==> pushed[c] == datasets[c] + [ChannelValue(sample, c)];
    if |newLabels| > Capacity {
      newLabels := newLabels[1..];
      pushed := ShiftEach(pushed);
    }
    newDatasets := pushed;
    assert forall c :: 0 <= c < ChannelCount ==> newDatasets[c] == SlideEach(datasets, sample)[c];
  }

  /** The line chart's data: one label array and four parallel value arrays. */
  class GasChart {
    var labels: seq<string>
    var datasets: seq<seq<real>>
    /** Every sample ever pushed onto the chart, oldest first. */
    ghost var charted: seq<GasSample>

    ghost predicate Valid()
      reads this
    {
      ChartHolds(labels, datasets, charted)
    }

    /** A chart with empty labels and four empty series. */
    constructor ()
      ensures Valid()
      ensures labels == [] && charted == [] && datasets == [[], [], [], []]
    {
      labels := [];
      datasets := [[], [], [], []];
      charted := [];
    }

    /**
     * One `gas` frame on the chart: push the label and one value per series, then, once
     * there are more than `Capacity` labels, shift every array once.
     */
    method Append(sample: GasSample)
      requires Valid()
      modifies this
      ensures Valid()
      ensures charted == old(charted) + [sample]
      ensures labels == Slide(old(labels), sample.stamp)
      ensures datasets == SlideEach(old(datasets), sample)
    {
      ChartAligned(labels, datasets, charted);
      ChartStep(labels, datasets, charted, sample);
      labels, datasets := PushAndShift(labels, datasets, sample);
      charted := charted + [sample];
    }
  }
}
