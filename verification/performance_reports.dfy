/** The performance report: seven months of temperature, humidity and light
    readings, and the average, maximum and minimum of each series shown in
    its statistics table. */
module PerformanceReports {

  /** Sum of the series, as `reduce((a, b) => a + b, 0)` computes it. */
  function Sum(s: seq<int>): int {
    if s == [] then 0 else Sum(s[..|s| - 1]) + s[|s| - 1]
  }

  /** `Math.round(sum / length)`. For integer data this is the floor of
      sum / length + 1/2, which Euclidean division by the positive 2 * length
      computes exactly (halves round up, also for negative sums). */
  function Average(s: seq<int>): (r: int)
    requires |s| > 0
    ensures |s| * (2 * r - 1) <= 2 * Sum(s) < |s| * (2 * r + 1)
  {
    var n := |s|;
    var q := (2 * Sum(s) + n) / (2 * n);
    assert (2 * n) * q <= 2 * Sum(s) + n < (2 * n) * q + 2 * n;
    assert n * (2 * q - 1) == (2 * n) * q - n;
    assert n * (2 * q + 1) == (2 * n) * q + n;
    q
  }

  /** `Math.max(...arr)`: an element of the series no smaller than any other. */
  function Max(s: seq<int>): (r: int)
    requires |s| > 0
    ensures r in s
    ensures forall k :: 0 <= k < |s| ==> s[k] <= r
  {
    if |s| == 1 then s[0]
    else
      var m := Max(s[1..]);
      if s[0] >= m then s[0] else m
  }

  /** `Math.min(...arr)`: an element of the series no larger than any other. */
  function Min(s: seq<int>): (r: int)
    requires |s| > 0
    ensures r in s
    ensures forall k :: 0 <= k < |s| ==> r <= s[k]
  {
    if |s| == 1 then s[0]
    else
      var m := Min(s[1..]);
      if s[0] <= m then s[0] else m
  }

  /** A series bounded below by `lo` sums to at least |s| * lo. */
  lemma {:induction false} SumAtLeast(s: seq<int>, lo: int)
    requires forall k :: 0 <= k < |s| ==> lo <= s[k]
    ensures |s| * lo <= Sum(s)
  {
    if s != [] {
      var init := s[..|s| - 1];
      SumAtLeast(init, lo);
      assert |s| * lo == |init| * lo + lo;
    }
  }

  /** A series bounded above by `hi` sums to at most |s| * hi. */
  lemma {:induction false} SumAtMost(s: seq<int>, hi: int)
    requires forall k :: 0 <= k < |s| ==> s[k] <= hi
    ensures Sum(s) <= |s| * hi
  {
    if s != [] {
      var init := s[..|s| - 1];
      SumAtMost(init, hi);
      assert |s| * hi == |init| * hi + hi;
    }
  }

  /** The rounded average lies between the minimum and the maximum. */
  lemma {:induction false} AverageBetweenMinAndMax(s: seq<int>)
    requires |s| > 0
    ensures Min(s) <= Average(s) <= Max(s)
  {
    SumAtLeast(s, Min(s));
    SumAtMost(s, Max(s));
    NearestBetween(|s|, Sum(s), Average(s), Min(s), Max(s));
  }

  /** The integer nearest to a mean lies between bounds of the mean. */
  lemma NearestBetween(n: int, total: int, r: int, lo: int, hi: int)
    requires n > 0
    requires n * lo <= total <= n * hi
    requires n * (2 * r - 1) <= 2 * total < n * (2 * r + 1)
    ensures lo <= r <= hi
  {
    assert n * (2 * lo) == 2 * (n * lo);
    MulCancel(n, 2 * lo, 2 * r + 1);
    assert n * (2 * hi) == 2 * (n * hi);
    MulCancel(n, 2 * r - 1, 2 * hi + 1);
  }

  /** Multiplying by a positive factor keeps a strict order, both ways. */
  lemma MulCancel(n: int, a: int, b: int)
    requires n > 0
    ensures n * a < n * b <==> a < b
  {
    if a < b {
      assert n * b - n * a == n * (b - a);
    } else {
      assert n * a - n * b == n * (a - b);
    }
  }

  /** A constant series averages to its value. */
  lemma {:induction false} ConstantAverage(s: seq<int>, c: int)
    requires |s| > 0 && forall k :: 0 <= k < |s| ==> s[k] == c
    ensures Average(s) == c && Max(s) == c && Min(s) == c
  {
    SumAtLeast(s, c);
    SumAtMost(s, c);
    AverageBetweenMinAndMax(s);
  }

  datatype Series = Series(name: string, data: seq<int>)

  datatype Report = Report(labels: seq<string>, datasets: seq<Series>)

  function MonthlyReport(): Report {
    Report(
      ["January", "February", "March", "April", "May", "June", "July"],
      [ Series("Temperature", [30, 25, 27, 28, 26, 29, 31]),
        Series("Humidity", [70, 65, 68, 72, 75, 78, 80]),
        Series("Light Intensity", [800, 820, 850, 870, 900, 950, 1000]) ])
  }

  /** Every series has one reading per month, so the data table is rectangular. */
  predicate Rectangular(r: Report) {
    forall i :: 0 <= i < |r.datasets| ==> |r.datasets[i].data| == |r.labels|
  }

  /** One row of the statistics table: average, maximum, minimum. */
  datatype Stats = Stats(average: int, max: int, min: int)

  function Statistics(s: seq<int>): (st: Stats)
    requires |s| > 0
    ensures st.min <= st.average <= st.max
  {
    AverageBetweenMinAndMax(s);
    Stats(Average(s), Max(s), Min(s))
  }

  /** The statistics table of the monthly report. */
  lemma MonthlyStatistics()
    ensures Rectangular(MonthlyReport()) && |MonthlyReport().datasets| == 3
    ensures Statistics(MonthlyReport().datasets[0].data) == Stats(28, 31, 25)
    ensures Statistics(MonthlyReport().datasets[1].data) == Stats(73, 80, 65)
    ensures Statistics(MonthlyReport().datasets[2].data) == Stats(884, 1000, 800)
  {
    var report := MonthlyReport();
    assert |report.labels| == 7;
    forall i | 0 <= i < |report.datasets|
      ensures |report.datasets[i].data| == 7
    {
      assert i == 0 || i == 1 || i == 2;
    }
    TemperatureStatistics(report.datasets[0].data);
    HumidityStatistics(report.datasets[1].data);
    LightStatistics(report.datasets[2].data);
  }

  lemma TemperatureStatistics(t: seq<int>)
    requires t == [30, 25, 27, 28, 26, 29, 31]
    ensures Statistics(t) == Stats(28, 31, 25)
  {
    assert Sum(t) == 196 by { SumOfSeven(t); }
    assert Average(t) == 28;
    assert Max(t) == 31 by { assert t[6] == 31; }
    assert Min(t) == 25 by { assert t[1] == 25; }
  }

  lemma HumidityStatistics(h: seq<int>)
    requires h == [70, 65, 68, 72, 75, 78, 80]
    ensures Statistics(h) == Stats(73, 80, 65)
  {
    assert Sum(h) == 508 by { SumOfSeven(h); }
    assert Average(h) == 73;
    assert Max(h) == 80 by { assert h[6] == 80; }
    assert Min(h) == 65 by { assert h[1] == 65; }
  }

  lemma LightStatistics(l: seq<int>)
    requires l == [800, 820, 850, 870, 900, 950, 1000]
    ensures Statistics(l) == Stats(884, 1000, 800)
  {
    assert Sum(l) == 6190 by { SumOfSeven(l); }
    assert Average(l) == 884;
    assert Max(l) == 1000 by { assert l[6] == 1000; }
    assert Min(l) == 800 by { assert l[0] == 800; }
  }

  lemma SumOfSeven(s: seq<int>)
    requires |s| == 7
    ensures Sum(s) == s[0] + s[1] + s[2] + s[3] + s[4] + s[5] + s[6]
  {
    assert s[..1][..0] == [];
    assert Sum(s[..1]) == s[0];
    assert s[..2][..1] == s[..1];
    assert Sum(s[..2]) == Sum(s[..1]) + s[1];
    assert s[..3][..2] == s[..2];
    assert Sum(s[..3]) == Sum(s[..2]) + s[2];
    assert s[..4][..3] == s[..3];
    assert Sum(s[..4]) == Sum(s[..3]) + s[3];
    assert s[..5][..4] == s[..4];
    assert Sum(s[..5]) == Sum(s[..4]) + s[4];
    assert s[..6][..5] == s[..5];
    assert Sum(s[..6]) == Sum(s[..5]) + s[5];
    assert s[..6] == s[..|s| - 1];
  }
}
