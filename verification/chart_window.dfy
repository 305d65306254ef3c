/** The rolling live-chart window of the greenhouse control panel, as values.
    Three series of samples (temperature, humidity, light intensity) sit over
    the fixed x-axis labels 0..59. Each timer tick drops the oldest sample of
    every series and appends one freshly generated sample to every series, in
    a single state update. The random source is a parameter: a draw `u` in
    [0, 1) stands for one call of the browser's uniform generator. */
module ChartWindow {

  /** Number of samples in every series and number of x-axis labels. */
  const Capacity: nat := 60

  /** Number of datasets the chart holds: temperature, humidity, light. */
  const SeriesCount: nat := 3

  /** A half-open interval [lo, hi) of sample values. */
  datatype Range = Range(lo: real, hi: real) {
    predicate Contains(x: real) {
      lo <= x < hi
    }

    predicate NonEmpty() {
      lo < hi
    }

    predicate Within(outer: Range) {
      outer.lo <= lo && hi <= outer.hi
    }
  }

  const TemperatureRange := Range(24.0, 30.0)
  const HumidityTickRange := Range(65.0, 80.0)
  const LightInitialRange := Range(850.0, 1200.0)
  const LightTickRange := Range(850.0, 900.0)

  /** Range of the samples a tick appends to series `i`. */
  function TickRange(i: nat): Range
    requires i < SeriesCount
  {
    if i == 0 then TemperatureRange
    else if i == 1 then HumidityTickRange
    else LightTickRange
  }

  /** Range of the samples that fill series `i` when the panel is mounted,
      as the source writes it: humidity is filled from the temperature range. */
  function InitialRangeAsWritten(i: nat): Range
    requires i < SeriesCount
  {
    if i == 0 then TemperatureRange
    else if i == 1 then TemperatureRange
    else LightInitialRange
  }

  /** Range of the samples that fill series `i` when the panel is mounted,
      with humidity filled from the humidity range that the ticks use. */
  function InitialRange(i: nat): Range
    requires i < SeriesCount
  {
    if i == 0 then TemperatureRange
    else if i == 1 then HumidityTickRange
    else LightInitialRange
  }

  /** A value the uniform generator can return. */
  predicate IsDraw(u: real) {
    0.0 <= u < 1.0
  }

  predicate AllDraws(us: seq<real>) {
    forall k :: 0 <= k < |us| ==> IsDraw(us[k])
  }

  /** One generated sample: the draw scaled onto the range. */
  function Draw(u: real, range: Range): (x: real)
    requires IsDraw(u) && range.NonEmpty()
    ensures range.Contains(x)
  {
    ScaledInRange(u, range.lo, range.hi);
    u * (range.hi - range.lo) + range.lo
  }

  /** A draw in [0, 1) scaled onto [lo, hi) stays in [lo, hi). */
  lemma ScaledInRange(u: real, lo: real, hi: real)
    requires 0.0 <= u < 1.0 && lo < hi
    ensures lo <= u * (hi - lo) + lo < hi
  {
    var width := hi - lo;
    ProductSigns(u, width);
    ProductSigns(1.0 - u, width);
    assert (1.0 - u) * width == width - u * width;
    assert u * width < width;
    assert u * (hi - lo) == u * width;
  }

  lemma ProductSigns(a: real, b: real)
    requires 0.0 <= a && 0.0 < b
    ensures 0.0 <= a * b
    ensures 0.0 < a ==> 0.0 < a * b
  {
  }

  /** Drop the oldest sample and append `v`, as a copied array does under
      `shift()` then `push(v)`. Shifting an empty array removes nothing. */
  function ShiftPush(s: seq<real>, v: real): (r: seq<real>)
    ensures |s| > 0 ==> |r| == |s|
    ensures |s| == 0 ==> r == [v]
    ensures forall k :: 0 <= k < |s| - 1 ==> r[k] == s[k + 1]
    ensures |r| > 0 && r[|r| - 1] == v
  {
    (if |s| == 0 then [] else s[1..]) + [v]
  }

  /** The gradient a dataset's border is painted with, by its two colour stops. */
  datatype Gradient = Gradient(top: string, bottom: string)

  datatype Dataset = Dataset(
    name: string,  // the source's `label` (a reserved word in Dafny)
    data: seq<real>,
    borderColor: Gradient,
    borderWidth: int,
    fill: bool,
    tension: real)

  datatype ChartData = ChartData(labels: seq<int>, datasets: seq<Dataset>)

  /** The three draws of one tick, one per series. */
  datatype Draws = Draws(temperature: real, humidity: real, light: real) {
    predicate Valid() {
      IsDraw(temperature) && IsDraw(humidity) && IsDraw(light)
    }

    function At(i: nat): real
      requires i < SeriesCount
    {
      if i == 0 then temperature else if i == 1 then humidity else light
    }
  }

  predicate AllValid(ds: seq<Draws>) {
    forall k :: 0 <= k < |ds| ==> ds[k].Valid()
  }

  /** The sample a tick with draws `d` appends to series `i`. */
  function TickSample(d: Draws, i: nat): (x: real)
    requires d.Valid() && i < SeriesCount
    ensures TickRange(i).Contains(x)
  {
    Draw(d.At(i), TickRange(i))
  }

  /** The x-axis labels 0..59. */
  function Labels(): (r: seq<int>)
    ensures |r| == Capacity
    ensures forall k :: 0 <= k < |r| ==> r[k] == k
  {
    seq(Capacity, k => k)
  }

  /** Every field of a dataset except its samples. */
  predicate SameStyle(a: Dataset, b: Dataset) {
    a.name == b.name && a.borderColor == b.borderColor &&
    a.borderWidth == b.borderWidth && a.fill == b.fill && a.tension == b.tension
  }

  /** The shape the chart keeps for its whole life: labels 0..59 and three
      datasets of exactly Capacity samples each. */
  predicate Shaped(cd: ChartData) {
    cd.labels == Labels() &&
    |cd.datasets| == SeriesCount &&
    forall i :: 0 <= i < SeriesCount ==> |cd.datasets[i].data| == Capacity
  }

  /** The style of dataset `i` as the panel creates it. */
  function Style(i: nat, data: seq<real>): (d: Dataset)
    requires i < SeriesCount
    ensures d.data == data && d.borderWidth == 2 && !d.fill && d.tension == 0.2
  {
    if i == 0 then
      Dataset("Temperature (°C)", data, Gradient("rgba(255, 165, 0, 0.6)", "rgba(255, 69, 0, 0.6)"), 2, false, 0.2)
    else if i == 1 then
      Dataset("Humidity (%)", data, Gradient("rgba(0, 0, 255, 0.6)", "rgba(0, 191, 255, 0.6)"), 2, false, 0.2)
    else
      Dataset("Light Intensity (lux)", data, Gradient("rgba(255, 255, 0, 0.6)", "rgba(255, 215, 0, 0.6)"), 2, false, 0.2)
  }

  /** A series filled by calling the generator once per draw, in order. */
  function Fill(us: seq<real>, range: Range): (r: seq<real>)
    requires AllDraws(us) && range.NonEmpty()
    ensures |r| == |us|
    ensures forall k :: 0 <= k < |r| ==> range.Contains(r[k])
  {
    seq(|us|, k requires 0 <= k < |us| => Draw(us[k], range))
  }

  /** Initial chart state from the 60 draws of each series and the ranges
      each series is filled from. */
  function Mount(uT: seq<real>, uH: seq<real>, uL: seq<real>, rT: Range, rH: Range, rL: Range): (cd: ChartData)
    requires |uT| == Capacity && |uH| == Capacity && |uL| == Capacity
    requires AllDraws(uT) && AllDraws(uH) && AllDraws(uL)
    requires rT.NonEmpty() && rH.NonEmpty() && rL.NonEmpty()
    ensures Shaped(cd)
    ensures forall k :: 0 <= k < Capacity ==>
      rT.Contains(cd.datasets[0].data[k]) && rH.Contains(cd.datasets[1].data[k]) && rL.Contains(cd.datasets[2].data[k])
    ensures forall i :: 0 <= i < SeriesCount ==> cd.datasets[i] == Style(i, cd.datasets[i].data)
  {
    ChartData(Labels(), [Style(0, Fill(uT, rT)), Style(1, Fill(uH, rH)), Style(2, Fill(uL, rL))])
  }

  /** The chart state as the source creates it at mount. */
  function InitialChartDataAsWritten(uT: seq<real>, uH: seq<real>, uL: seq<real>): (cd: ChartData)
    requires |uT| == Capacity && |uH| == Capacity && |uL| == Capacity
    requires AllDraws(uT) && AllDraws(uH) && AllDraws(uL)
    ensures Shaped(cd)
    ensures forall i, k :: 0 <= i < SeriesCount && 0 <= k < Capacity ==> InitialRangeAsWritten(i).Contains(cd.datasets[i].data[k])
  {
    Mount(uT, uH, uL, InitialRangeAsWritten(0), InitialRangeAsWritten(1), InitialRangeAsWritten(2))
  }

  /** The chart state at mount with humidity filled from its own range. */
  function InitialChartData(uT: seq<real>, uH: seq<real>, uL: seq<real>): (cd: ChartData)
    requires |uT| == Capacity && |uH| == Capacity && |uL| == Capacity
    requires AllDraws(uT) && AllDraws(uH) && AllDraws(uL)
    ensures Shaped(cd)
    ensures InDisplayRange(cd)
  {
    Mount(uT, uH, uL, InitialRange(0), InitialRange(1), InitialRange(2))
  }

  /** Every sample of every series lies in the range its series is filled from. */
  predicate InDisplayRange(cd: ChartData)
    requires Shaped(cd)
  {
    forall i, k :: 0 <= i < SeriesCount && 0 <= k < Capacity ==> InitialRange(i).Contains(cd.datasets[i].data[k])
  }

  /** One timer tick: every series shifts left by one and takes one new
      sample at its end; labels and dataset styles are carried over, and
      the result holds exactly the three datasets the tick rebuilds. */
  function Advance(cd: ChartData, d: Draws): (r: ChartData)
    requires |cd.datasets| >= SeriesCount && d.Valid()
    ensures r.labels == cd.labels && |r.datasets| == SeriesCount
    ensures forall i :: 0 <= i < SeriesCount ==>
      SameStyle(r.datasets[i], cd.datasets[i]) &&
      r.datasets[i].data == ShiftPush(cd.datasets[i].data, TickSample(d, i))
  {
    cd.(datasets := [
      cd.datasets[0].(data := ShiftPush(cd.datasets[0].data, TickSample(d, 0))),
      cd.datasets[1].(data := ShiftPush(cd.datasets[1].data, TickSample(d, 1))),
      cd.datasets[2].(data := ShiftPush(cd.datasets[2].data, TickSample(d, 2)))])
  }

  /** The chart after one tick per element of `ds`, in order. */
  function AdvanceMany(cd: ChartData, ds: seq<Draws>): (r: ChartData)
    requires |cd.datasets| >= SeriesCount && AllValid(ds)
    ensures r.labels == cd.labels && |r.datasets| >= SeriesCount
    ensures ds != [] ==> |r.datasets| == SeriesCount
    decreases |ds|
  {
    if ds == [] then cd
    else Advance(AdvanceMany(cd, ds[..|ds| - 1]), ds[|ds| - 1])
  }

  /** The samples the ticks of `ds` append to series `i`, oldest first. */
  function TickSamples(ds: seq<Draws>, i: nat): (r: seq<real>)
    requires AllValid(ds) && i < SeriesCount
    ensures |r| == |ds|
    ensures forall k :: 0 <= k < |r| ==> TickRange(i).Contains(r[k])
  {
    seq(|ds|, k requires 0 <= k < |ds| => TickSample(ds[k], i))
  }

  /** Series `i` of the window that `cd` turns into after the ticks of
      `ds`: the last Capacity samples of its mount-time samples followed by
      every tick sample. */
  function Window(cd: ChartData, ds: seq<Draws>, i: nat): (w: seq<real>)
    requires Shaped(cd) && AllValid(ds) && i < SeriesCount
    ensures |w| == Capacity
  {
    (cd.datasets[i].data + TickSamples(ds, i))[|ds|..]
  }

  /** One more sample slides a window of the history along by one. */
  lemma HistoryStep(s0: seq<real>, t: seq<real>, v: real)
    requires |s0| > 0
    ensures ShiftPush((s0 + t)[|t|..], v) == (s0 + (t + [v]))[|t| + 1..]
  {
    assert s0 + (t + [v]) == (s0 + t) + [v];
    assert (s0 + t)[|t|..][1..] == (s0 + t)[|t| + 1..];
  }

  lemma TickSamplesSnoc(ds: seq<Draws>, i: nat)
    requires AllValid(ds) && ds != [] && i < SeriesCount
    ensures TickSamples(ds, i) == TickSamples(ds[..|ds| - 1], i) + [TickSample(ds[|ds| - 1], i)]
  {
  }

  /** A tick moves every series' window along by the same one sample. */
  lemma WindowStep(cd: ChartData, ds: seq<Draws>, i: nat)
    requires Shaped(cd) && AllValid(ds) && ds != [] && i < SeriesCount
    ensures Window(cd, ds, i) == ShiftPush(Window(cd, ds[..|ds| - 1], i), TickSample(ds[|ds| - 1], i))
  {
    TickSamplesSnoc(ds, i);
    HistoryStep(cd.datasets[i].data, TickSamples(ds[..|ds| - 1], i), TickSample(ds[|ds| - 1], i));
  }

  /** The chart after the ticks of `ds` is its windows, in the styles of the mount. */
  predicate WindowsOf(cd: ChartData, ds: seq<Draws>, r: ChartData)
    requires Shaped(cd) && AllValid(ds)
  {
    Shaped(r) &&
    forall i :: 0 <= i < SeriesCount ==>
      SameStyle(r.datasets[i], cd.datasets[i]) && r.datasets[i].data == Window(cd, ds, i)
  }

  /** The whole life of a chart: after the ticks of `ds`, each series is the
      window of its mount-time samples followed by every tick sample, at the
      same offset |ds| for every series (no series is ever a tick ahead of
      another), and labels and styles are those of the mount. */
  lemma {:induction false} AdvanceManyWindow(cd: ChartData, ds: seq<Draws>)
    requires Shaped(cd) && AllValid(ds)
    ensures WindowsOf(cd, ds, AdvanceMany(cd, ds))
    decreases |ds|
  {
    if ds == [] {
      forall i | 0 <= i < SeriesCount
        ensures Window(cd, ds, i) == cd.datasets[i].data
      {
      }
    } else {
      var prefix := ds[..|ds| - 1];
      AdvanceManyWindow(cd, prefix);
      forall i | 0 <= i < SeriesCount
        ensures AdvanceMany(cd, ds).datasets[i].data == Window(cd, ds, i)
      {
        WindowStep(cd, ds, i);
      }
    }
  }

  /** Once the window has turned over (60 ticks or more), every sample of
      every series was produced by a tick and lies in that series' tick
      range, whatever the chart was filled with at mount. */
  lemma TurnedOverInTickRange(cd: ChartData, ds: seq<Draws>)
    requires Shaped(cd) && AllValid(ds) && |ds| >= Capacity
    ensures Shaped(AdvanceMany(cd, ds))
    ensures forall i, k :: 0 <= i < SeriesCount && 0 <= k < Capacity ==>
      TickRange(i).Contains(AdvanceMany(cd, ds).datasets[i].data[k])
  {
    AdvanceManyWindow(cd, ds);
    forall i, k | 0 <= i < SeriesCount && 0 <= k < Capacity
      ensures TickRange(i).Contains(Window(cd, ds, i)[k])
    {
      var t := TickSamples(ds, i);
      assert Window(cd, ds, i)[k] == t[|ds| - Capacity + k];
    }
  }

  /** A tick keeps every sample inside its series' display range, because
      every tick range lies within the matching fill range. */
  lemma AdvanceInDisplayRange(cd: ChartData, d: Draws)
    requires Shaped(cd) && InDisplayRange(cd) && d.Valid()
    ensures Shaped(Advance(cd, d)) && InDisplayRange(Advance(cd, d))
  {
    var r := Advance(cd, d);
    forall i, k | 0 <= i < SeriesCount && 0 <= k < Capacity
      ensures InitialRange(i).Contains(r.datasets[i].data[k])
    {
      assert TickRange(i).Within(InitialRange(i));
      if k < Capacity - 1 {
        assert r.datasets[i].data[k] == cd.datasets[i].data[k + 1];
      }
    }
  }

  /** The whole reachable life of the chart, mounted with humidity drawn
      from its own range, stays in range: each series is always within the
      range it was filled from. */
  lemma {:induction false} AlwaysInDisplayRange(uT: seq<real>, uH: seq<real>, uL: seq<real>, ds: seq<Draws>)
    requires |uT| == Capacity && |uH| == Capacity && |uL| == Capacity
    requires AllDraws(uT) && AllDraws(uH) && AllDraws(uL) && AllValid(ds)
    ensures Shaped(AdvanceMany(InitialChartData(uT, uH, uL), ds))
    ensures InDisplayRange(AdvanceMany(InitialChartData(uT, uH, uL), ds))
    decreases |ds|
  {
    if ds != [] {
      AlwaysInDisplayRange(uT, uH, uL, ds[..|ds| - 1]);
      AdvanceInDisplayRange(AdvanceMany(InitialChartData(uT, uH, uL), ds[..|ds| - 1]), ds[|ds| - 1]);
    }
  }

  /** As written, the mount fills humidity from the temperature range, so
      until the window has turned over the oldest humidity sample on screen
      lies below every humidity sample a tick can produce. */
  lemma AsWrittenHumidityBelowTickRange(uT: seq<real>, uH: seq<real>, uL: seq<real>, ds: seq<Draws>)
    requires |uT| == Capacity && |uH| == Capacity && |uL| == Capacity
    requires AllDraws(uT) && AllDraws(uH) && AllDraws(uL) && AllValid(ds)
    requires |ds| < Capacity
    ensures Shaped(AdvanceMany(InitialChartDataAsWritten(uT, uH, uL), ds))
    ensures AdvanceMany(InitialChartDataAsWritten(uT, uH, uL), ds).datasets[1].data[0] < HumidityTickRange.lo
  {
    OldestFromMount(InitialChartDataAsWritten(uT, uH, uL), ds, 1);
  }

  /** Until the window has turned over, the oldest sample of a series is
      still one of its mount-time samples. */
  lemma OldestFromMount(cd: ChartData, ds: seq<Draws>, i: nat)
    requires Shaped(cd) && AllValid(ds) && |ds| < Capacity && i < SeriesCount
    ensures Shaped(AdvanceMany(cd, ds))
    ensures AdvanceMany(cd, ds).datasets[i].data[0] == cd.datasets[i].data[|ds|]
  {
    AdvanceManyWindow(cd, ds);
    assert Window(cd, ds, i)[0] == cd.datasets[i].data[|ds|];
  }
}
