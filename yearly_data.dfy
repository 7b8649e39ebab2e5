/** The yearly mock data (`yearlyData.ts`): twelve monthly readings of UV,
    PM2.5 and PM1.0 per station, the per-station bar-chart data and the
    month-by-month average over all stations. */
module YearlyData {
  import opened Common

  /** Twelve monthly values per indicator. */
  datatype MonthlySeries = MonthlySeries(uv: seq<real>, pm25: seq<real>, pm1_0: seq<real>)

  /** `MonthlyAirQualityData` */
  datatype StationYear = StationYear(id: string, name: string, monthlyData: MonthlySeries)

  /** `yearlyStationData` */
  const YearlyStationData: seq<StationYear> := [
    StationYear("A001", "Trung Tâm R&D", MonthlySeries(
      [7.2, 7.8, 8.4, 8.9, 9.2, 9.8, 10.1, 9.7, 9.3, 8.6, 8.1, 7.5],
      [28.5, 26.2, 24.8, 22.1, 25.7, 29.3, 32.4, 35.1, 31.8, 28.9, 30.2, 33.6],
      [45.2, 42.8, 40.1, 38.7, 44.5, 48.9, 52.3, 55.8, 51.2, 47.6, 49.3, 53.1])),
    StationYear("A002", "Ban Quản Lý Khu CNC", MonthlySeries(
      [6.8, 7.4, 8.0, 8.5, 8.8, 9.4, 9.7, 9.3, 8.9, 8.2, 7.7, 7.1],
      [25.1, 23.8, 21.5, 19.7, 23.3, 26.9, 29.8, 32.5, 28.4, 25.6, 27.8, 30.2],
      [41.8, 39.4, 36.7, 35.3, 41.1, 45.5, 48.9, 52.4, 47.8, 44.2, 46.9, 49.7])),
    StationYear("A003", "Vườn Ươm Doanh Nghiệp", MonthlySeries(
      [7.6, 8.2, 8.8, 9.3, 9.6, 10.2, 10.5, 10.1, 9.7, 9.0, 8.5, 7.9],
      [31.2, 28.9, 26.5, 24.2, 28.1, 31.7, 35.0, 38.2, 34.5, 31.3, 33.6, 36.9],
      [48.6, 46.2, 43.5, 42.1, 47.9, 52.3, 55.7, 59.2, 54.6, 51.0, 53.7, 56.5]))
  ]

  const MonthNames: seq<string> :=
    ["Jan", "Feb", "Mar", "Apr", "May", "Jun", "Jul", "Aug", "Sep", "Oct", "Nov", "Dec"]

  const UvLabel := "UV Index"
  const Pm25Label := "PM2.5"
  const Pm10Label := "PM1.0"
  const UvColor := "#3B82F6"
  const Pm25Color := "#F59E0B"
  const Pm10Color := "#10B981"
  const BarRadius: nat := 4

  /** One bar series of the chart; `seriesLabel` is its `label`. */
  datatype Dataset = Dataset(seriesLabel: string, data: seq<Number>, backgroundColor: string, borderRadius: nat)

  datatype ChartData = ChartData(labels: seq<string>, datasets: seq<Dataset>)

  /** The chart for one station: its three arrays as they are. */
  function StationChart(s: StationYear): ChartData
  {
    ChartData(MonthNames, [
      Dataset(UvLabel, Numbers(s.monthlyData.uv), UvColor, BarRadius),
      Dataset(Pm25Label, Numbers(s.monthlyData.pm25), Pm25Color, BarRadius),
      Dataset(Pm10Label, Numbers(s.monthlyData.pm1_0), Pm10Color, BarRadius)])
  }

  /** The numbers of an array, unchanged. */
  function Numbers(s: seq<real>): (r: seq<Number>)
    ensures |r| == |s|
    ensures forall i :: 0 <= i < |s| ==> r[i] == Finite(s[i])
  {
    seq(|s|, i requires 0 <= i < |s| => Finite(s[i]))
  }

  /** `getStationMonthlyData(stationId)` over the station list `data`
      (`yearlyStationData` in the source); `None` is `null`. */
  function GetStationMonthlyData(data: seq<StationYear>, stationId: string): Option<ChartData>
  {
    match Find(data, (s: StationYear) => s.id == stationId)
    case None => None
    case Some(s) => Some(StationChart(s))
  }

  /** An id that no station has yields `null`, and only such an id does. */
  lemma UnknownStationIsNull(data: seq<StationYear>, stationId: string)
    ensures GetStationMonthlyData(data, stationId).None? <==>
              forall i :: 0 <= i < |data| ==> data[i].id != stationId
  {
    FindFirst(data, (s: StationYear) => s.id == stationId);
  }

  /** For a known id the chart is the first matching station's: the labels
      Jan..Dec in order and the datasets UV Index, PM2.5 and PM1.0 carrying
      that station's arrays unchanged. */
  lemma KnownStationChart(data: seq<StationYear>, stationId: string, i: nat)
    requires i < |data| && data[i].id == stationId
    requires forall j :: 0 <= j < i ==> data[j].id != stationId
    ensures GetStationMonthlyData(data, stationId).Some?
    ensures var c := GetStationMonthlyData(data, stationId).value;
            c.labels == MonthNames && |c.datasets| == 3
            && c.datasets[0].seriesLabel == UvLabel && c.datasets[1].seriesLabel == Pm25Label
            && c.datasets[2].seriesLabel == Pm10Label
            && c.datasets[0].data == Numbers(data[i].monthlyData.uv)
            && c.datasets[1].data == Numbers(data[i].monthlyData.pm25)
            && c.datasets[2].data == Numbers(data[i].monthlyData.pm1_0)
  {
    FindAt(data, (s: StationYear) => s.id == stationId, i);
  }

  /** `sum` in the `reduce` over the stations for one month: `NaN` as soon
      as a station has no value for that month. */
  function MonthSum(data: seq<StationYear>, pick: StationYear -> seq<real>, m: nat): Number
  {
    if data == [] then Finite(0.0)
    else match (MonthSum(data[..|data| - 1], pick, m), NumberAt(pick(data[|data| - 1]), m))
         case (Finite(a), Finite(b)) => Finite(a + b)
         case _ => NaN
  }

  /** `sum / yearlyStationData.length`: `0 / 0` is `NaN` for an empty list. */
  function MonthAverage(data: seq<StationYear>, pick: StationYear -> seq<real>, m: nat): Number
  {
    match MonthSum(data, pick, m)
    case Finite(a) => if |data| == 0 then NaN else Finite(a / |data| as real)
    case NaN => NaN
  }

  /** `Array.from({ length: 12 }, ...)`: one average per month index. */
  function AveragedSeries(data: seq<StationYear>, pick: StationYear -> seq<real>): seq<Number>
  {
    seq(12, m requires 0 <= m < 12 => MonthAverage(data, pick, m))
  }

  /** `calculateMonthlyAverageData()` over `data`. */
  function CalculateMonthlyAverageData(data: seq<StationYear>): ChartData
  {
    ChartData(MonthNames, [
      Dataset(UvLabel, AveragedSeries(data, (s: StationYear) => s.monthlyData.uv), UvColor, BarRadius),
      Dataset(Pm25Label, AveragedSeries(data, (s: StationYear) => s.monthlyData.pm25), Pm25Color, BarRadius),
      Dataset(Pm10Label, AveragedSeries(data, (s: StationYear) => s.monthlyData.pm1_0), Pm10Color, BarRadius)])
  }

  /** The average chart has twelve labels and three datasets of exactly
      twelve entries, entry `m` being month `m`'s average. */
  lemma AverageChartShape(data: seq<StationYear>)
    ensures var c := CalculateMonthlyAverageData(data);
            c.labels == MonthNames && |c.labels| == 12 && |c.datasets| == 3
            && c.datasets[0].seriesLabel == UvLabel && c.datasets[1].seriesLabel == Pm25Label
            && c.datasets[2].seriesLabel == Pm10Label
            && (forall d :: 0 <= d < 3 ==> |c.datasets[d].data| == 12)
            && (forall m :: 0 <= m < 12 ==>
                  c.datasets[0].data[m] == MonthAverage(data, (s: StationYear) => s.monthlyData.uv, m)
                  && c.datasets[1].data[m] == MonthAverage(data, (s: StationYear) => s.monthlyData.pm25, m)
                  && c.datasets[2].data[m] == MonthAverage(data, (s: StationYear) => s.monthlyData.pm1_0, m))
  {
  }

  /** When every station has a value for month `m` and all of them lie in
      `[lo, hi]`, the sum is a number between `lo` and `hi` times the
      number of stations. */
  lemma {:induction false} MonthSumBounds(data: seq<StationYear>, pick: StationYear -> seq<real>, m: nat, lo: real, hi: real)
    requires forall i :: 0 <= i < |data| ==> m < |pick(data[i])| && lo <= pick(data[i])[m] <= hi
    ensures MonthSum(data, pick, m).Finite?
    ensures lo * (|data| as real) <= MonthSum(data, pick, m).r <= hi * (|data| as real)
  {
    if data != [] {
      var init := data[..|data| - 1];
      assert forall i :: 0 <= i < |init| ==> init[i] == data[i];
      MonthSumBounds(init, pick, m, lo, hi);
      assert lo * (|data| as real) == lo * (|init| as real) + lo;
      assert hi * (|data| as real) == hi * (|init| as real) + hi;
    }
  }

  /** The average of values that all lie in `[lo, hi]` lies there too. */
  lemma MonthAverageBounds(data: seq<StationYear>, pick: StationYear -> seq<real>, m: nat, lo: real, hi: real)
    requires |data| > 0
    requires forall i :: 0 <= i < |data| ==> m < |pick(data[i])| && lo <= pick(data[i])[m] <= hi
    ensures MonthAverage(data, pick, m).Finite?
    ensures lo <= MonthAverage(data, pick, m).r <= hi
  {
    MonthSumBounds(data, pick, m, lo, hi);
    var n := |data| as real;
    var a := MonthSum(data, pick, m).r;
    assert a / n * n == a;
    if a / n < lo {
      assert a / n * n < lo * n;
    }
    if a / n > hi {
      assert a / n * n > hi * n;
    }
  }

  /** Every station of the shipped data has twelve values per indicator, so
      no entry of the shipped average chart is `NaN`. */
  lemma ShippedDataIsComplete()
    ensures forall i :: 0 <= i < |YearlyStationData| ==>
              |YearlyStationData[i].monthlyData.uv| == 12
              && |YearlyStationData[i].monthlyData.pm25| == 12
              && |YearlyStationData[i].monthlyData.pm1_0| == 12
    ensures forall d, m :: 0 <= d < 3 && 0 <= m < 12 ==>
              CalculateMonthlyAverageData(YearlyStationData).datasets[d].data[m].Finite?
  {
    AverageChartShape(YearlyStationData);
    var c := CalculateMonthlyAverageData(YearlyStationData);
    forall d, m | 0 <= d < 3 && 0 <= m < 12
      ensures c.datasets[d].data[m].Finite?
    {
      if d == 0 {
        ShippedValuesBounded((s: StationYear) => s.monthlyData.uv, m);
      } else if d == 1 {
        ShippedValuesBounded((s: StationYear) => s.monthlyData.pm25, m);
      } else {
        ShippedValuesBounded((s: StationYear) => s.monthlyData.pm1_0, m);
      }
    }
  }

  /** Every shipped reading of an indicator lies in `[0, 100]`, so each
      month's average over the three stations is a number in that range. */
  lemma ShippedValuesBounded(pick: StationYear -> seq<real>, m: nat)
    requires m < 12
    requires pick == ((s: StationYear) => s.monthlyData.uv) || pick == ((s: StationYear) => s.monthlyData.pm25)
             || pick == ((s: StationYear) => s.monthlyData.pm1_0)
    ensures MonthAverage(YearlyStationData, pick, m).Finite?
    ensures 0.0 <= MonthAverage(YearlyStationData, pick, m).r <= 100.0
  {
    assert forall i :: 0 <= i < |YearlyStationData| ==>
             m < |pick(YearlyStationData[i])| && 0.0 <= pick(YearlyStationData[i])[m] <= 100.0;
    MonthAverageBounds(YearlyStationData, pick, m, 0.0, 100.0);
  }
}
