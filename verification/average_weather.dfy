/** The running-mean accumulator `AverageWeatherReport` and the two folds
    built on it: the mean of a list of reports, and the positional mean of
    several forecast series. */
module AverageWeather {
  import opened Reports

  // ---------------------------------------------------------------------
  // Specification: arithmetic means over a list of reports.

  /** The two quantities the accumulator averages. */
  datatype Measure = Temperature | Timestamp

  function Value(r: WeatherReport, m: Measure): real {
    match m
    case Temperature => r.temperature
    case Timestamp => r.unixTimestamp as real
  }

  function Sum(rs: seq<WeatherReport>, m: Measure): real
    decreases |rs|
  {
    if rs == [] then 0.0 else Sum(rs[..|rs| - 1], m) + Value(rs[|rs| - 1], m)
  }

  /** The arithmetic mean; 0 for no reports, as a fresh running mean reads. */
  function Average(rs: seq<WeatherReport>, m: Measure): real {
    if rs == [] then 0.0 else Sum(rs, m) / |rs| as real
  }

  /** Rust's `as i64` on a float: drop the fraction, rounding toward zero. */
  function TruncateTowardZero(x: real): (t: int)
    ensures 0.0 <= x ==> t as real <= x < t as real + 1.0
    ensures x < 0.0 ==> t as real - 1.0 < x <= t as real
  {
    if 0.0 <= x then x.Floor else -((-x).Floor)
  }

  /** The report the accumulator reads back after the reports `rs`. */
  function MeanOf(rs: seq<WeatherReport>): WeatherReport {
    WeatherReport(Average(rs, Temperature), TruncateTowardZero(Average(rs, Timestamp)))
  }

  // ---------------------------------------------------------------------
  // The accumulator.

  /** Two running means, of the temperatures and of the timestamps, over the
      reports added so far. Memory does not grow with the reports: `Added` is
      ghost and only names what the means stand for. */
  class AverageWeatherReport {
    var count: nat
    var temperatureMean: real
    var timestampMean: real
    ghost var Added: seq<WeatherReport>

    ghost predicate Valid()
      reads this
    {
      && count == |Added|
      && temperatureMean == Average(Added, Temperature)
      && timestampMean == Average(Added, Timestamp)
    }

    constructor ()
      ensures Valid() && Added == []
    {
      count := 0;
      temperatureMean := 0.0;
      timestampMean := 0.0;
      Added := [];
    }

    /** Feeds one report in, updating each mean by `avg += (x - avg) / n`. */
    method Add(report: WeatherReport)
      requires Valid()
      modifies this
      ensures Valid() && Added == old(Added) + [report]
    {
      IncrementalMean(Added, report, Temperature);
      IncrementalMean(Added, report, Timestamp);
      count := count + 1;
      temperatureMean := temperatureMean + (report.temperature - temperatureMean) / count as real;
      timestampMean := timestampMean + (report.unixTimestamp as real - timestampMean) / count as real;
      Added := Added + [report];
    }

    /** The mean report: the mean temperature, and the mean timestamp cast to
        an integer. */
    function Mean(): (r: WeatherReport)
      reads this
      requires Valid()
      ensures r == MeanOf(Added)
    {
      WeatherReport(temperatureMean, TruncateTowardZero(timestampMean))
    }
  }

  /** The incremental update keeps the running value equal to the mean of
      everything added: the mean of `rs + [r]` is the mean of `rs` moved a
      `1/(n+1)` part of the way toward the new value. */
  lemma IncrementalMean(rs: seq<WeatherReport>, r: WeatherReport, m: Measure)
    ensures Average(rs + [r], m)
         == Average(rs, m) + (Value(r, m) - Average(rs, m)) / (|rs| + 1) as real
  {
    assert (rs + [r])[..|rs|] == rs;
    assert Sum(rs + [r], m) == Sum(rs, m) + Value(r, m);
    if rs != [] {
      MeanStep(Sum(rs, m), |rs| as real, Value(r, m));
    }
  }

  /** The running-mean update on plain numbers: the mean `s/n` of `n` values
      moved `1/(n+1)` of the way toward `x` is the mean of the `n+1` values. */
  lemma MeanStep(s: real, n: real, x: real)
    requires n > 0.0
    ensures s / n + (x - s / n) / (n + 1.0) == (s + x) / (n + 1.0)
  {
    var a := s / n;
    assert a * n == s;
    assert a == (a * (n + 1.0)) / (n + 1.0);
    assert a + (x - a) / (n + 1.0) == (a * (n + 1.0) + (x - a)) / (n + 1.0);
    assert a * (n + 1.0) + (x - a) == a * n + x;
  }

  // ---------------------------------------------------------------------
  // Properties of the mean.

  lemma TruncateInteger(i: int)
    ensures TruncateTowardZero(i as real) == i
  {
  }

  /** The mean of one report is that report. */
  lemma MeanOfSingle(r: WeatherReport)
    ensures MeanOf([r]) == r
  {
    assert [r][..0] == [];
    assert Sum([r], Temperature) == r.temperature;
    assert Sum([r], Timestamp) == r.unixTimestamp as real;
    TruncateInteger(r.unixTimestamp);
  }

  lemma {:induction false} SumOfCopies(r: WeatherReport, n: nat, m: Measure)
    ensures Sum(seq(n, _ => r), m) == n as real * Value(r, m)
  {
    if n > 0 {
      SumOfCopies(r, n - 1, m);
      assert seq(n, _ => r)[..n - 1] == seq(n - 1, _ => r);
    }
  }

  /** The mean of several identical reports is that report. */
  lemma MeanOfCopies(r: WeatherReport, n: nat)
    requires n > 0
    ensures MeanOf(seq(n, _ => r)) == r
  {
    var k := n as real;
    var copies := seq(n, _ => r);
    SumOfCopies(r, n, Temperature);
    SumOfCopies(r, n, Timestamp);
    assert Sum(copies, Temperature) == k * r.temperature;
    assert Sum(copies, Timestamp) == k * r.unixTimestamp as real;
    assert (k * r.temperature) / k == r.temperature;
    assert (k * r.unixTimestamp as real) / k == r.unixTimestamp as real;
    assert Average(copies, Temperature) == r.temperature;
    assert Average(copies, Timestamp) == r.unixTimestamp as real;
    TruncateInteger(r.unixTimestamp);
  }

  /** Taking one report out of a list takes its value out of the sum. */
  lemma {:induction false} SumRemove(rs: seq<WeatherReport>, k: nat, m: Measure)
    requires k < |rs|
    ensures Sum(rs, m) == Sum(rs[..k] + rs[k + 1..], m) + Value(rs[k], m)
    decreases |rs|
  {
    var last := |rs| - 1;
    var init := rs[..last];
    if k == last {
      assert rs[..k] + rs[k + 1..] == init;
    } else {
      SumRemove(init, k, m);
      var rest := init[..k] + init[k + 1..];
      assert rs[..k] + rs[k + 1..] == rest + [rs[last]];
      assert (rest + [rs[last]])[..|rest|] == rest;
    }
  }

  /** Sums do not depend on the order of the reports. */
  lemma {:induction false} SumPermutation(a: seq<WeatherReport>, b: seq<WeatherReport>, m: Measure)
    requires multiset(a) == multiset(b)
    ensures Sum(a, m) == Sum(b, m)
    decreases |a|
  {
    if a == [] {
      assert |multiset(b)| == 0;
    } else {
      var last := |a| - 1;
      var x := a[last];
      assert a == a[..last] + [x];
      assert x in multiset(b);
      var k :| 0 <= k < |b| && b[k] == x;
      assert b == b[..k] + [x] + b[k + 1..];
      var rest := b[..k] + b[k + 1..];
      assert multiset(b) == multiset(b[..k]) + multiset{x} + multiset(b[k + 1..]);
      assert multiset(rest) == multiset(b[..k]) + multiset(b[k + 1..]);
      assert multiset(a) == multiset(a[..last]) + multiset{x};
      assert multiset(a[..last]) == multiset(a) - multiset{x};
      assert multiset(rest) == multiset(b) - multiset{x};
      SumPermutation(a[..last], rest, m);
      SumRemove(b, k, m);
    }
  }

  /** The mean depends only on which reports were added, not on their order. */
  lemma MeanOfPermutation(a: seq<WeatherReport>, b: seq<WeatherReport>)
    requires multiset(a) == multiset(b)
    ensures MeanOf(a) == MeanOf(b)
  {
    assert |a| == |multiset(a)| == |multiset(b)| == |b|;
    SumPermutation(a, b, Temperature);
    SumPermutation(a, b, Timestamp);
  }

  lemma SumOfFour(rs: seq<WeatherReport>, m: Measure)
    requires |rs| == 4
    ensures Sum(rs, m) == Value(rs[0], m) + Value(rs[1], m) + Value(rs[2], m) + Value(rs[3], m)
  {
    var s1, s2, s3 := rs[..1], rs[..2], rs[..3];
    assert s1[..0] == [] && s2[..1] == s1 && s3[..2] == s2 && rs[..3] == s3;
    assert Sum(s1, m) == Value(rs[0], m);
    assert Sum(s2, m) == Sum(s1, m) + Value(rs[1], m);
    assert Sum(s3, m) == Sum(s2, m) + Value(rs[2], m);
  }

  /** Temperatures 2, 4, 2, 8 at times 10, 20, 10, 20 average to 4 at time 15. */
  lemma MeanOfFourReports()
    ensures MeanOf([WeatherReport(2.0, 10), WeatherReport(4.0, 20),
                    WeatherReport(2.0, 10), WeatherReport(8.0, 20)])
         == WeatherReport(4.0, 15)
  {
    var rs := [WeatherReport(2.0, 10), WeatherReport(4.0, 20),
               WeatherReport(2.0, 10), WeatherReport(8.0, 20)];
    SumOfFour(rs, Temperature);
    SumOfFour(rs, Timestamp);
  }

  /** The mean of two reports: the midpoint temperature, and the midpoint
      timestamp rounded toward zero. */
  lemma MeanOfPair(a: WeatherReport, b: WeatherReport)
    ensures MeanOf([a, b]) == WeatherReport((a.temperature + b.temperature) / 2.0,
                                           TruncateTowardZero((a.unixTimestamp + b.unixTimestamp) as real / 2.0))
  {
    var rs := [a, b];
    assert rs[..1] == [a] && [a][..0] == [];
    assert Sum([a], Temperature) == a.temperature;
    assert Sum([a], Timestamp) == a.unixTimestamp as real;
    assert Sum(rs, Temperature) == a.temperature + b.temperature;
    assert Sum(rs, Timestamp) == a.unixTimestamp as real + b.unixTimestamp as real;
  }

  // ---------------------------------------------------------------------
  // Folding a list of reports.

  /** `average_report`: all reports through one fresh accumulator. */
  method AverageReport(reports: seq<WeatherReport>) returns (r: WeatherReport)
    ensures r == MeanOf(reports)
  {
    var average := new AverageWeatherReport();
    for k := 0 to |reports|
      invariant average.Valid() && average.Added == reports[..k]
    {
      assert reports[..k + 1] == reports[..k] + [reports[k]];
      average.Add(reports[k]);
    }
    assert reports[..|reports|] == reports;
    r := average.Mean();
  }

  // ---------------------------------------------------------------------
  // Folding forecast series position by position.

  /** The length left after zipping a list of `start` accumulators with each
      series in turn: the shortest of `start` and the series' lengths. */
  function ZipLength(start: nat, rs: seq<seq<WeatherReport>>): (n: nat)
    ensures n <= start && forall k :: 0 <= k < |rs| ==> n <= |rs[k]|
    decreases |rs|
  {
    if rs == [] then start
    else
      var n0 := ZipLength(start, rs[..|rs| - 1]);
      var len := |rs[|rs| - 1]|;
      if n0 <= len then n0 else len
  }

  /** The zipped length is the start or the length of one of the series. */
  lemma {:induction false} ZipLengthIsALength(start: nat, rs: seq<seq<WeatherReport>>)
    ensures ZipLength(start, rs) == start || exists k :: 0 <= k < |rs| && ZipLength(start, rs) == |rs[k]|
    decreases |rs|
  {
    if rs != [] {
      var init := rs[..|rs| - 1];
      ZipLengthIsALength(start, init);
      if ZipLength(start, rs) != |rs[|rs| - 1]| && ZipLength(start, init) != start {
        var k :| 0 <= k < |init| && ZipLength(start, init) == |init[k]|;
        assert rs[k] == init[k];
      }
    }
  }

  /** Day `i` of every series. */
  function Column(rs: seq<seq<WeatherReport>>, i: nat): seq<WeatherReport>
    requires forall k :: 0 <= k < |rs| ==> i < |rs[k]|
  {
    seq(|rs|, k requires 0 <= k < |rs| => rs[k][i])
  }

  /** The mean of every series' day `i`, for every day all series have. */
  function PositionalMean(rs: seq<seq<WeatherReport>>): (r: seq<WeatherReport>)
    requires |rs| > 0
    ensures forall k :: 0 <= k < |rs| ==> |r| <= |rs[k]|
    ensures exists k :: 0 <= k < |rs| && |r| == |rs[k]|
  {
    var n := ZipLength(|rs[0]|, rs);
    ZipLengthIsALength(|rs[0]|, rs);
    seq(n, i requires 0 <= i < n => MeanOf(Column(rs, i)))
  }

  predicate Distinct(averages: seq<AverageWeatherReport>) {
    forall j, l :: 0 <= j < l < |averages| ==> averages[j] != averages[l]
  }

  /** `vec![AverageWeatherReport::new(); n]`: `n` separate fresh accumulators. */
  method NewAverages(n: nat) returns (averages: seq<AverageWeatherReport>)
    ensures |averages| == n && Distinct(averages)
    ensures forall j :: 0 <= j < n ==>
              fresh(averages[j]) && averages[j].Valid() && averages[j].Added == []
  {
    averages := [];
    for i := 0 to n
      invariant |averages| == i && Distinct(averages)
      invariant forall j :: 0 <= j < i ==>
                  fresh(averages[j]) && averages[j].Valid() && averages[j].Added == []
    {
      var average := new AverageWeatherReport();
      averages := averages + [average];
    }
  }

  /** One step of the fold: `averages.zip(series)` with each pair's report
      added to its accumulator. */
  method ZipAdd(averages: seq<AverageWeatherReport>, series: seq<WeatherReport>)
    returns (zipped: seq<AverageWeatherReport>)
    requires Distinct(averages)
    requires forall j :: 0 <= j < |averages| ==> averages[j].Valid()
    modifies set j | 0 <= j < |averages| :: averages[j]
    ensures |zipped| == (if |averages| <= |series| then |averages| else |series|)
    ensures zipped == averages[..|zipped|] && Distinct(zipped)
    ensures forall j :: 0 <= j < |zipped| ==>
              zipped[j].Valid() && zipped[j].Added == old(zipped[j].Added) + [series[j]]
  {
    var n := if |averages| <= |series| then |averages| else |series|;
    zipped := averages[..n];
    for i := 0 to n
      invariant forall j :: 0 <= j < i ==>
                  zipped[j].Valid() && zipped[j].Added == old(zipped[j].Added) + [series[j]]
      invariant forall j :: i <= j < n ==>
                  zipped[j].Valid() && zipped[j].Added == old(zipped[j].Added)
    {
      zipped[i].Add(series[i]);
    }
  }

  /** Adding day `j` of one more series to day `j`'s column. */
  lemma ColumnGrows(rs: seq<seq<WeatherReport>>, k: nat, j: nat)
    requires k < |rs| && forall l :: 0 <= l <= k ==> j < |rs[l]|
    ensures Column(rs[..k + 1], j) == Column(rs[..k], j) + [rs[k][j]]
  {
  }

  /** Reads every accumulator back, in order. */
  method ReadMeans(averages: seq<AverageWeatherReport>) returns (r: seq<WeatherReport>)
    requires forall j :: 0 <= j < |averages| ==> averages[j].Valid()
    ensures |r| == |averages|
    ensures forall j :: 0 <= j < |r| ==> r[j] == MeanOf(averages[j].Added)
  {
    r := [];
    for i := 0 to |averages|
      invariant |r| == i
      invariant forall j :: 0 <= j < i ==> r[j] == MeanOf(averages[j].Added)
    {
      r := r + [averages[i].Mean()];
    }
  }

  /** Folds series `k` into accumulators that hold days of the series
      before it: each kept accumulator's column grows by that series' day. */
  method FoldSeries(averages: seq<AverageWeatherReport>, reports: seq<seq<WeatherReport>>, k: nat)
    returns (next: seq<AverageWeatherReport>)
    requires k < |reports|
    requires |averages| == ZipLength(|reports[0]|, reports[..k]) && Distinct(averages)
    requires forall j :: 0 <= j < |averages| ==>
               averages[j].Valid() && averages[j].Added == Column(reports[..k], j)
    modifies set j | 0 <= j < |averages| :: averages[j]
    ensures |next| == ZipLength(|reports[0]|, reports[..k + 1]) && Distinct(next)
    ensures |next| <= |averages| && next == averages[..|next|]
    ensures forall j :: 0 <= j < |next| ==>
              next[j].Valid() && next[j].Added == Column(reports[..k + 1], j)
  {
    assert reports[..k + 1][..k] == reports[..k];
    assert ZipLength(|reports[0]|, reports[..k + 1]) == Min(|averages|, |reports[k]|);
    next := ZipAdd(averages, reports[k]);
    forall j | 0 <= j < |next|
      ensures next[j].Added == Column(reports[..k + 1], j)
    {
      assert next[j] == averages[j];
      ColumnGrows(reports, k, j);
    }
  }

  /** `average_forecast_report`: one fresh accumulator per day of the first
      series, each series zipped into them in turn (the zip stops at the
      shorter side), then every accumulator read back. */
  method AverageForecastReport(reports: seq<seq<WeatherReport>>) returns (r: seq<WeatherReport>)
    requires |reports| > 0
    ensures r == PositionalMean(reports)
  {
    var averages := NewAverages(|reports[0]|);
    assert reports[..0] == [];
    for k := 0 to |reports|
      invariant |averages| == ZipLength(|reports[0]|, reports[..k]) && Distinct(averages)
      invariant forall j :: 0 <= j < |averages| ==> fresh(averages[j])
      invariant forall j :: 0 <= j < |averages| ==>
                  averages[j].Valid() && averages[j].Added == Column(reports[..k], j)
    {
      averages := FoldSeries(averages, reports, k);
    }
    assert reports[..|reports|] == reports;
    r := ReadMeans(averages);
  }

  /** A lone series comes back unchanged, day by day. */
  lemma PositionalMeanOfOne(s: seq<WeatherReport>)
    ensures PositionalMean([s]) == s
  {
    assert ZipLength(|s|, [s]) == |s| by {
      assert [s][..0] == [];
    }
    forall i | 0 <= i < |s|
      ensures PositionalMean([s])[i] == s[i]
    {
      assert Column([s], i) == [s[i]];
      MeanOfSingle(s[i]);
    }
  }

  /** Two series average day by day, over the days both have. */
  lemma PositionalMeanOfTwo(a: seq<WeatherReport>, b: seq<WeatherReport>)
    ensures |PositionalMean([a, b])| == Min(|a|, |b|)
    ensures forall i :: 0 <= i < Min(|a|, |b|) ==> PositionalMean([a, b])[i] == MeanOf([a[i], b[i]])
  {
    assert [a, b][..1][..0] == [] && [a, b][..1] == [a];
    forall i | 0 <= i < Min(|a|, |b|)
      ensures PositionalMean([a, b])[i] == MeanOf([a[i], b[i]])
    {
      assert Column([a, b], i) == [a[i], b[i]];
    }
  }

  function Min(a: nat, b: nat): nat {
    if a <= b then a else b
  }

  /** Four series of three days average to (5, 10), (4, 15), (3.5, 20). */
  lemma PositionalMeanOfFourSeries()
    ensures PositionalMean([
              [WeatherReport(4.0, 10), WeatherReport(4.0, 10), WeatherReport(2.0, 10)],
              [WeatherReport(4.0, 10), WeatherReport(4.0, 20), WeatherReport(4.0, 30)],
              [WeatherReport(6.0, 10), WeatherReport(4.0, 20), WeatherReport(6.0, 20)],
              [WeatherReport(6.0, 10), WeatherReport(4.0, 10), WeatherReport(2.0, 20)]])
         == [WeatherReport(5.0, 10), WeatherReport(4.0, 15), WeatherReport(3.5, 20)]
  {
    var rs := [
      [WeatherReport(4.0, 10), WeatherReport(4.0, 10), WeatherReport(2.0, 10)],
      [WeatherReport(4.0, 10), WeatherReport(4.0, 20), WeatherReport(4.0, 30)],
      [WeatherReport(6.0, 10), WeatherReport(4.0, 20), WeatherReport(6.0, 20)],
      [WeatherReport(6.0, 10), WeatherReport(4.0, 10), WeatherReport(2.0, 20)]];
    assert rs[..1][..0] == [] && rs[..2][..1] == rs[..1] && rs[..3][..2] == rs[..2];
    assert ZipLength(3, rs[..1]) == 3;
    assert ZipLength(3, rs[..2]) == 3;
    assert ZipLength(3, rs[..3]) == 3;
    assert ZipLength(3, rs) == 3;
    var c0, c1, c2 := Column(rs, 0), Column(rs, 1), Column(rs, 2);
    SumOfFour(c0, Temperature);
    SumOfFour(c0, Timestamp);
    SumOfFour(c1, Temperature);
    SumOfFour(c1, Timestamp);
    SumOfFour(c2, Temperature);
    SumOfFour(c2, Timestamp);
    assert MeanOf(c0) == WeatherReport(5.0, 10);
    assert MeanOf(c1) == WeatherReport(4.0, 15);
    assert MeanOf(c2) == WeatherReport(3.5, 20);
  }

  /** Two series of three days average to (5, 10), (4, 15), (4, 15). */
  lemma PositionalMeanOfTwoSeries()
    ensures PositionalMean([
              [WeatherReport(4.0, 10), WeatherReport(4.0, 10), WeatherReport(2.0, 10)],
              [WeatherReport(6.0, 10), WeatherReport(4.0, 20), WeatherReport(6.0, 20)]])
         == [WeatherReport(5.0, 10), WeatherReport(4.0, 15), WeatherReport(4.0, 15)]
  {
    var a := [WeatherReport(4.0, 10), WeatherReport(4.0, 10), WeatherReport(2.0, 10)];
    var b := [WeatherReport(6.0, 10), WeatherReport(4.0, 20), WeatherReport(6.0, 20)];
    PositionalMeanOfTwo(a, b);
    MeanOfPair(a[0], b[0]);
    MeanOfPair(a[1], b[1]);
    MeanOfPair(a[2], b[2]);
    var r := PositionalMean([a, b]);
    assert r == [r[0], r[1], r[2]];
  }
}
