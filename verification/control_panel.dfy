/** The control panel's state cells: the ventilation and water switches, the
    lighting schedule and the live chart. Every setter overwrites one cell;
    the timer tick replaces the chart with a copy whose series have each
    been shifted by one sample. */
module ControlPanel {
  import opened ChartWindow

  /** The times the grow lights switch on and off, as the time inputs hold them. */
  datatype LightSchedule = LightSchedule(on: string, off: string)

  const InitialSchedule := LightSchedule("06:00 AM", "06:00 PM")

  class Panel {
    var ventilationOn: bool
    var waterOn: bool
    var lightSchedule: LightSchedule
    var chartData: ChartData

    /** The chart as it was filled at mount, and the draws of every tick since. */
    ghost var mounted: ChartData
    ghost var ticks: seq<Draws>

    /** The chart is always the mount-time chart advanced by every tick so
        far, and it keeps its shape. */
    ghost predicate Valid()
      reads this
    {
      Shaped(mounted) && AllValid(ticks) &&
      chartData == AdvanceMany(mounted, ticks) &&
      Shaped(chartData)
    }

    /** Mount the panel with the 60 draws that fill each series. The chart is
        filled as the component writes it, humidity from the temperature range
        included (see `ChartWindow.AsWrittenHumidityBelowTickRange`). */
    constructor (uT: seq<real>, uH: seq<real>, uL: seq<real>)
      requires |uT| == Capacity && |uH| == Capacity && |uL| == Capacity
      requires AllDraws(uT) && AllDraws(uH) && AllDraws(uL)
      ensures Valid()
      ensures chartData == InitialChartDataAsWritten(uT, uH, uL) && ticks == []
      ensures !ventilationOn && !waterOn && lightSchedule == InitialSchedule
    {
      ventilationOn, waterOn := false, false;
      lightSchedule := InitialSchedule;
      chartData := InitialChartDataAsWritten(uT, uH, uL);
      mounted := chartData;
      ticks := [];
    }

    /** One timer tick: copy each series, shift out its oldest sample, push
        one generated sample, and store all three in one update. */
    method Tick(d: Draws)
      requires Valid() && d.Valid()
      modifies this
      ensures Valid()
      ensures chartData == Advance(old(chartData), d)
      ensures chartData.labels == old(chartData.labels)
      ensures forall i :: 0 <= i < SeriesCount ==>
        SameStyle(chartData.datasets[i], old(chartData.datasets[i])) &&
        chartData.datasets[i].data == old(chartData.datasets[i].data)[1..] + [TickSample(d, i)]
      ensures ticks == old(ticks) + [d] && mounted == old(mounted)
      ensures ventilationOn == old(ventilationOn) && waterOn == old(waterOn)
      ensures lightSchedule == old(lightSchedule)
    {
      var newTemp := chartData.datasets[0].data;
      var newHumidity := chartData.datasets[1].data;
      var newLight := chartData.datasets[2].data;

      newTemp := newTemp[1..];
      newTemp := newTemp + [Draw(d.temperature, TemperatureRange)];

      newHumidity := newHumidity[1..];
      newHumidity := newHumidity + [Draw(d.humidity, HumidityTickRange)];

      newLight := newLight[1..];
      newLight := newLight + [Draw(d.light, LightTickRange)];

      chartData := chartData.(datasets := [
        chartData.datasets[0].(data := newTemp),
        chartData.datasets[1].(data := newHumidity),
        chartData.datasets[2].(data := newLight)]);
      ticks := ticks + [d];
      assert ticks[..|ticks| - 1] == old(ticks);
    }

    method ToggleVentilation()
      modifies this
      ensures ventilationOn == !old(ventilationOn)
      ensures waterOn == old(waterOn) && lightSchedule == old(lightSchedule)
      ensures chartData == old(chartData) && ticks == old(ticks) && mounted == old(mounted)
    {
      ventilationOn := !ventilationOn;
    }

    method ToggleWater()
      modifies this
      ensures waterOn == !old(waterOn)
      ensures ventilationOn == old(ventilationOn) && lightSchedule == old(lightSchedule)
      ensures chartData == old(chartData) && ticks == old(ticks) && mounted == old(mounted)
    {
      waterOn := !waterOn;
    }

    /** Edit the "lights on" time; the "lights off" time is kept. */
    method SetLightsOn(time: string)
      modifies this
      ensures lightSchedule.on == time && lightSchedule.off == old(lightSchedule.off)
      ensures ventilationOn == old(ventilationOn) && waterOn == old(waterOn)
      ensures chartData == old(chartData) && ticks == old(ticks) && mounted == old(mounted)
    {
      lightSchedule := lightSchedule.(on := time);
    }

    /** Edit the "lights off" time; the "lights on" time is kept. */
    method SetLightsOff(time: string)
      modifies this
      ensures lightSchedule.off == time && lightSchedule.on == old(lightSchedule.on)
      ensures ventilationOn == old(ventilationOn) && waterOn == old(waterOn)
      ensures chartData == old(chartData) && ticks == old(ticks) && mounted == old(mounted)
    {
      lightSchedule := lightSchedule.(off := time);
    }
  }

  /** Pressing a switch twice leaves the panel as it was. */
  method ToggleTwice(p: Panel)
    modifies p
    ensures p.ventilationOn == old(p.ventilationOn) && p.waterOn == old(p.waterOn)
    ensures p.lightSchedule == old(p.lightSchedule) && p.chartData == old(p.chartData)
  {
    p.ToggleVentilation();
    p.ToggleVentilation();
    p.ToggleWater();
    p.ToggleWater();
  }

  /** After sixty ticks every sample on the chart came from the tick
      generator, so it lies in its series' tick range. */
  method TurnOver(p: Panel, ds: seq<Draws>)
    requires p.Valid() && AllValid(ds) && |ds| == Capacity
    modifies p
    ensures p.Valid() && p.ticks == old(p.ticks) + ds
    ensures forall i, k :: 0 <= i < SeriesCount && 0 <= k < Capacity ==>
      TickRange(i).Contains(p.chartData.datasets[i].data[k])
  {
    var n := 0;
    while n < |ds|
      invariant 0 <= n <= |ds|
      invariant p.Valid() && p.mounted == old(p.mounted)
      invariant p.ticks == old(p.ticks) + ds[..n]
    {
      p.Tick(ds[n]);
      assert ds[..n + 1] == ds[..n] + [ds[n]];
      n := n + 1;
    }
    assert ds[..n] == ds;
    TurnedOverInTickRange(p.mounted, p.ticks);
  }
}
