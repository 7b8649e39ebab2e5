/** The historical report data (`historicalData.ts`): for a station and a
    year, twelve monthly rows built from the yearly data, or one daily row
    per sample of the station's June series, each reading scaled by the
    year's multiplier and a random factor. */
module HistoricalData {
  import opened Common
  import opened JsText
  import opened Dates
  import opened YearlyData

  /** `HistoricalReportData`. The source keeps `date` as the string
      `DateText(date)`; `pm10` holds the PM1.0 reading. */
  datatype ReportRow = ReportRow(period: string, uv: Number, pm25: Number, pm10: Number, date: Date)

  const AvailableYears: seq<int> := [2024, 2023, 2022, 2021, 2020]

  datatype Multipliers = Multipliers(uv: real, pm25: real, pm10: real)

  const BaseMultipliers := Multipliers(1.0, 1.0, 1.0)

  /** `yearDataMultipliers[year] || yearDataMultipliers[2024]`: every entry
      is an object, so only a missing year falls back. */
  function YearMultipliers(year: int): Multipliers
  {
    if year == 2023 then Multipliers(0.95, 1.08, 1.06)
    else if year == 2022 then Multipliers(0.92, 1.15, 1.12)
    else if year == 2021 then Multipliers(0.88, 1.22, 1.18)
    else if year == 2020 then Multipliers(0.85, 1.28, 1.25)
    else BaseMultipliers
  }

  /** A year outside the table reads with the 2024 multipliers, and every
      year in the table has its own. */
  lemma UnlistedYearUsesBase(year: int)
    ensures year !in AvailableYears ==> YearMultipliers(year) == YearMultipliers(2024)
    ensures year in AvailableYears && year != 2024 ==> YearMultipliers(year) != YearMultipliers(2024)
  {
  }

  /** `base * multiplier * (0.95 + Math.random() * 0.1)` before rounding;
      `random` is the value `Math.random()` returned. */
  function Jittered(base: Number, multiplier: real, random: real): Number
  {
    match base
    case Finite(b) => Finite(b * multiplier * (0.95 + random * 0.1))
    case NaN => NaN
  }

  /** A random value in `[0, 1)` keeps a non-negative reading within five
      per cent of `base * multiplier`. */
  lemma JitterBounds(b: real, multiplier: real, random: real)
    requires 0.0 <= random < 1.0 && 0.0 <= b && 0.0 <= multiplier
    ensures Jittered(Finite(b), multiplier, random).Finite?
    ensures 0.95 * (b * multiplier) <= Jittered(Finite(b), multiplier, random).r <= 1.05 * (b * multiplier)
  {
    var bm := b * multiplier;
    var x := random * 0.1;
    NonNegativeProduct(b, multiplier);
    NonNegativeProduct(bm, x);
    NonNegativeProduct(bm, 0.1 - x);
    assert bm * (0.95 + x) == bm * 0.95 + bm * x;
    assert bm * (0.1 - x) == bm * 0.1 - bm * x;
  }

  lemma NonNegativeProduct(a: real, b: real)
    requires 0.0 <= a && 0.0 <= b
    ensures 0.0 <= a * b
  {
  }

  /** The three random draws of row `index`: `random(index, 0)` for UV,
      `random(index, 1)` for PM2.5 and `random(index, 2)` for PM1.0. */
  type Randoms = (nat, nat) -> real

  const MonthLabels: seq<string> :=
    ["Tháng 1", "Tháng 2", "Tháng 3", "Tháng 4", "Tháng 5", "Tháng 6",
     "Tháng 7", "Tháng 8", "Tháng 9", "Tháng 10", "Tháng 11", "Tháng 12"]

  /** The string the source stores: `${year}-${mm}-${dd}`. */
  function DateText(d: Date): string
    requires d.month >= 0 && d.day >= 0
  {
    IntToString(d.year) + "-" + Pad2(d.month) + "-" + Pad2(d.day)
  }

  function MonthlyRow(s: StationYear, year: int, index: nat, random: Randoms): ReportRow
    requires index < 12
  {
    var m := YearMultipliers(year);
    ReportRow(MonthLabels[index],
              Jittered(NumberAt(s.monthlyData.uv, index), m.uv, random(index, 0)),
              Jittered(NumberAt(s.monthlyData.pm25, index), m.pm25, random(index, 1)),
              Jittered(NumberAt(s.monthlyData.pm1_0, index), m.pm10, random(index, 2)),
              Date(year, index + 1, 1))
  }

  /** `getMonthlyHistoricalData(stationId, year)` over the station list
      `data` (`yearlyStationData` in the source). */
  function GetMonthlyHistoricalData(data: seq<StationYear>, stationId: string, year: int, random: Randoms): seq<ReportRow>
  {
    match Find(data, (s: StationYear) => s.id == stationId)
    case None => []
    case Some(s) => seq(12, i requires 0 <= i < 12 => MonthlyRow(s, year, i, random))
  }

  /** A station of `chartSampleData`: its daily series. */
  datatype SampleStation = SampleStation(id: string, uv: seq<real>, pm25: seq<real>, pm1_0: seq<real>)

  function DailyRow(s: SampleStation, year: int, index: nat, random: Randoms): ReportRow
  {
    var m := YearMultipliers(year);
    ReportRow("Ngày " + NatToString(index + 1),
              Jittered(NumberAt(s.uv, index), m.uv, random(index, 0)),
              Jittered(NumberAt(s.pm25, index), m.pm25, random(index, 1)),
              Jittered(NumberAt(s.pm1_0, index), m.pm10, random(index, 2)),
              Date(year, 6, index + 1))
  }

  /** `getDailyHistoricalData(stationId, year)` over the sample stations
      `samples` (`chartSampleData` in the source). */
  function GetDailyHistoricalData(samples: seq<SampleStation>, stationId: string, year: int, random: Randoms): seq<ReportRow>
  {
    match Find(samples, (s: SampleStation) => s.id == stationId)
    case None => []
    case Some(s) => seq(|s.uv|, i requires 0 <= i < |s.uv| => DailyRow(s, year, i, random))
  }

  /** An unknown station id yields no rows in either variant. */
  lemma UnknownStationHasNoRows(data: seq<StationYear>, samples: seq<SampleStation>, stationId: string, year: int, random: Randoms)
    requires forall i :: 0 <= i < |data| ==> data[i].id != stationId
    requires forall i :: 0 <= i < |samples| ==> samples[i].id != stationId
    ensures GetMonthlyHistoricalData(data, stationId, year, random) == []
    ensures GetDailyHistoricalData(samples, stationId, year, random) == []
  {
    FindFirst(data, (s: StationYear) => s.id == stationId);
    FindFirst(samples, (s: SampleStation) => s.id == stationId);
  }

  /** Month label `k` is `Tháng ` followed by `k + 1`. */
  lemma MonthLabelsNumbered()
    ensures |MonthLabels| == 12
    ensures forall k :: 0 <= k < 12 ==> MonthLabels[k] == "Tháng " + NatToString(k + 1)
  {
    assert NatToString(10) == "10" && NatToString(11) == "11" && NatToString(12) == "12";
  }

  /** Two-digit padding of a month or day number below ten prepends one zero. */
  lemma Pad2Small(n: nat)
    requires n < 10
    ensures Pad2(n) == ['0', DigitChar(n)]
  {
    assert NatToString(n) == [DigitChar(n)];
    assert PadStart([DigitChar(n)], 2, '0') == seq(1, _ => '0') + [DigitChar(n)];
  }

  /** A known station gives twelve monthly rows, row `k` dated the first
      of month `k + 1` of `year`. */
  lemma MonthlyRowDates(data: seq<StationYear>, stationId: string, year: int, random: Randoms, i: nat)
    requires i < |data| && data[i].id == stationId
    requires forall j :: 0 <= j < i ==> data[j].id != stationId
    ensures var rows := GetMonthlyHistoricalData(data, stationId, year, random);
            |rows| == 12 && forall k :: 0 <= k < 12 ==> rows[k].date == Date(year, k + 1, 1)
  {
    FindAt(data, (s: StationYear) => s.id == stationId, i);
  }

  /** A known station gives exactly twelve monthly rows, in month order:
      row `k` is `Tháng k+1`, dated the first of month `k + 1` of `year`,
      whose text is `year-MM-01`, and carries month `k`'s readings scaled by
      the year's multipliers. */
  lemma MonthlyRows(data: seq<StationYear>, stationId: string, year: int, random: Randoms, i: nat)
    requires i < |data| && data[i].id == stationId
    requires forall j :: 0 <= j < i ==> data[j].id != stationId
    ensures var rows := GetMonthlyHistoricalData(data, stationId, year, random);
            |rows| == 12
            && forall k :: 0 <= k < 12 ==>
                 rows[k].period == MonthLabels[k]
                 && rows[k].date == Date(year, k + 1, 1) && Valid(rows[k].date)
                 && DateText(rows[k].date) == IntToString(year) + "-" + Pad2(k + 1) + "-01"
                 && rows[k].uv == Jittered(NumberAt(data[i].monthlyData.uv, k), YearMultipliers(year).uv, random(k, 0))
  {
    FindAt(data, (s: StationYear) => s.id == stationId, i);
    Pad2Small(1);
    assert Pad2(1) == "01";
  }

  /** Daily row `k` is `Ngày k+1`, dated day `k + 1` of June, written
      `year-06-DD`. */
  lemma DailyRowShape(s: SampleStation, year: int, k: nat, random: Randoms)
    ensures DailyRow(s, year, k, random).period == "Ngày " + NatToString(k + 1)
    ensures DailyRow(s, year, k, random).date == Date(year, 6, k + 1)
    ensures DateText(DailyRow(s, year, k, random).date) == IntToString(year) + "-06-" + Pad2(k + 1)
  {
    Pad2Small(6);
    assert "-" + Pad2(6) + "-" == "-06-";
  }

  /** A known sample station gives one daily row per entry of its UV series:
      row `k` is `Ngày k+1`, dated day `k + 1` of June of `year`, whose text
      is `year-06-DD`. */
  lemma DailyRows(samples: seq<SampleStation>, stationId: string, year: int, random: Randoms, i: nat)
    requires i < |samples| && samples[i].id == stationId
    requires forall j :: 0 <= j < i ==> samples[j].id != stationId
    ensures var rows := GetDailyHistoricalData(samples, stationId, year, random);
            |rows| == |samples[i].uv|
            && forall k :: 0 <= k < |rows| ==>
                 rows[k].period == "Ngày " + NatToString(k + 1)
                 && rows[k].date == Date(year, 6, k + 1)
                 && DateText(rows[k].date) == IntToString(year) + "-06-" + Pad2(k + 1)
  {
    FindAt(samples, (s: SampleStation) => s.id == stationId, i);
    var rows := GetDailyHistoricalData(samples, stationId, year, random);
    assert rows == seq(|samples[i].uv|, k requires 0 <= k < |samples[i].uv| => DailyRow(samples[i], year, k, random));
    forall k | 0 <= k < |rows|
      ensures rows[k].period == "Ngày " + NatToString(k + 1)
      ensures rows[k].date == Date(year, 6, k + 1)
      ensures DateText(rows[k].date) == IntToString(year) + "-06-" + Pad2(k + 1)
    {
      DailyRowShape(samples[i], year, k, random);
    }
  }

  /** A daily row names a real calendar day exactly for the first thirty
      entries, since June has thirty days. */
  lemma DailyDateValidIff(year: int, k: nat)
    ensures Valid(Date(year, 6, k + 1)) <==> k < 30
  {
  }

  /** A number from 1000 on is written with at least four digits. */
  lemma FourDigits(n: nat)
    requires n >= 1000
    ensures |NatToString(n)| >= 4
  {
    assert NatToString(n) == NatToString(n / 10) + [DigitChar(n % 10)];
    assert NatToString(n / 10) == NatToString(n / 100) + [DigitChar(n / 10 % 10)];
    assert NatToString(n / 100) == NatToString(n / 1000) + [DigitChar(n / 100 % 10)];
  }

  /** For a four-digit year the stored text is the ISO date form of the
      row's date, which is what `new Date(text)` reads back. */
  lemma DateTextIsIso(d: Date)
    requires Valid(d) && 1000 <= d.year <= 9999
    ensures DateText(d) == IsoDateString(d)
  {
    FourDigits(d.year);
    assert PadStart(NatToString(d.year), 4, '0') == NatToString(d.year);
  }
}
