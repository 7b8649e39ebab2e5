/** The reports page (`Reports`): a search over a station's historical
    data between two dates, shown as a table whose columns follow the chosen
    indicators, with severity chips on the readings and an export of the
    rows for a spreadsheet. */
module Reports {
  import opened Common
  import opened Dates
  import opened YearlyData
  import opened HistoricalData

  /** `ViewType`: `'monthly' | 'yearly'`; the second reads daily data. */
  datatype ViewType = Monthly | Yearly

  /** The three indicators, in the order their columns appear; `Pm10` is
      the PM1.0 reading (`pm10` in the source). */
  datatype Indicator = Uv | Pm10 | Pm25

  const IndicatorOrder: seq<Indicator> := [Uv, Pm10, Pm25]

  /** `DataType`: `'all'` or one indicator. */
  datatype DataType = AllData | Only(indicator: Indicator)

  /** `dataType === 'all' || dataType === <indicator>` */
  predicate Shows(dt: DataType, i: Indicator)
  {
    dt.AllData? || dt.indicator == i
  }

  /** The indicators a data type shows, in column order. */
  function ShownIndicators(dt: DataType): (r: seq<Indicator>)
  {
    Filter(IndicatorOrder, (i: Indicator) => Shows(dt, i))
  }

  /** `'all'` shows the three indicators in the order UV, PM1.0, PM2.5; any
      other data type shows its own indicator alone. */
  lemma ShownIndicatorsCases(dt: DataType)
    ensures dt.AllData? ==> ShownIndicators(dt) == [Uv, Pm10, Pm25]
    ensures dt.Only? ==> ShownIndicators(dt) == [dt.indicator]
  {
    var p := (i: Indicator) => Shows(dt, i);
    assert Filter(IndicatorOrder, p) == (if p(Uv) then [Uv] else []) + Filter([Pm10, Pm25], p);
    assert Filter([Pm10, Pm25], p) == (if p(Pm10) then [Pm10] else []) + Filter([Pm25], p);
    assert Filter([Pm25], p) == (if p(Pm25) then [Pm25] else []) + Filter([], p);
  }

  function Reading(row: ReportRow, i: Indicator): Number
  {
    match i
    case Uv => row.uv
    case Pm10 => row.pm10
    case Pm25 => row.pm25
  }

  // ---------------------------------------------------------------------
  // The search

  /** `new Date(item.date) >= from && new Date(item.date) <= to`: inclusive
      at both ends; any comparison with an invalid date is false. */
  predicate InRange(d: Date, from: Date, to: Date)
  {
    Valid(d) && Valid(from) && Valid(to) && LessEq(from, d) && LessEq(d, to)
  }

  /** The range test is the comparison of the dates' time values. */
  lemma InRangeIffTimeValues(d: Date, from: Date, to: Date)
    requires Valid(d) && Valid(from) && Valid(to)
    ensures InRange(d, from, to) <==> DayNumber(from) <= DayNumber(d) <= DayNumber(to)
  {
    LessEqIffDayNumber(from, d);
    LessEqIffDayNumber(d, to);
  }

  /** `data.filter(...)` by date range. */
  function FilterByRange(rows: seq<ReportRow>, from: Date, to: Date): seq<ReportRow>
  {
    Filter(rows, (r: ReportRow) => InRange(r.date, from, to))
  }

  /** The kept rows are exactly the rows dated from `from` to `to`, both
      included, in their source order. */
  lemma FilterByRangeSpec(rows: seq<ReportRow>, from: Date, to: Date)
    ensures forall r :: r in FilterByRange(rows, from, to) <==> r in rows && InRange(r.date, from, to)
    ensures Subsequence(FilterByRange(rows, from, to), rows)
  {
    var p := (r: ReportRow) => InRange(r.date, from, to);
    FilterIsSubsequence(rows, p);
    forall r | r in Filter(rows, p)
      ensures r in rows && p(r)
    {
      var i :| 0 <= i < |Filter(rows, p)| && Filter(rows, p)[i] == r;
    }
    forall r | r in rows && p(r)
      ensures r in Filter(rows, p)
    {
      var i :| 0 <= i < |rows| && rows[i] == r;
    }
  }

  /** The rows a search reads: the year comes from the start date alone,
      `Monthly` reads the monthly data and the other view the daily data. */
  function SourceRows(yearly: seq<StationYear>, samples: seq<SampleStation>, view: ViewType,
                      stationId: string, year: int, random: Randoms): seq<ReportRow>
  {
    if view == Monthly then GetMonthlyHistoricalData(yearly, stationId, year, random)
    else GetDailyHistoricalData(samples, stationId, year, random)
  }

  /** The rows a completed search shows. */
  function SearchResult(yearly: seq<StationYear>, samples: seq<SampleStation>, view: ViewType,
                        stationId: string, from: Date, to: Date, random: Randoms): seq<ReportRow>
  {
    FilterByRange(SourceRows(yearly, samples, view, stationId, from.year, random), from, to)
  }

  /** A monthly search over a whole calendar year keeps all twelve months
      of a known station, in order. */
  lemma WholeYearKeepsEveryMonth(yearly: seq<StationYear>, samples: seq<SampleStation>,
                                 stationId: string, year: int, random: Randoms, i: nat)
    requires i < |yearly| && yearly[i].id == stationId
    requires forall j :: 0 <= j < i ==> yearly[j].id != stationId
    ensures SearchResult(yearly, samples, Monthly, stationId, Date(year, 1, 1), Date(year, 12, 31), random)
            == GetMonthlyHistoricalData(yearly, stationId, year, random)
    ensures |SearchResult(yearly, samples, Monthly, stationId, Date(year, 1, 1), Date(year, 12, 31), random)| == 12
  {
    var rows := GetMonthlyHistoricalData(yearly, stationId, year, random);
    MonthlyRowDates(yearly, stationId, year, random, i);
    var p := (r: ReportRow) => InRange(r.date, Date(year, 1, 1), Date(year, 12, 31));
    forall k | 0 <= k < |rows|
      ensures p(rows[k])
    {
      assert rows[k].date == Date(year, k + 1, 1);
    }
    FilterAll(rows, p);
  }

  /** A search starting after the last month of its year finds no monthly
      row, since every monthly row lies in the start date's year. */
  lemma StartAfterYearFindsNothing(yearly: seq<StationYear>, samples: seq<SampleStation>,
                                   stationId: string, from: Date, to: Date, random: Randoms)
    requires LessEq(Date(from.year, 12, 1), from) && from != Date(from.year, 12, 1)
    ensures SearchResult(yearly, samples, Monthly, stationId, from, to, random) == []
  {
    var rows := GetMonthlyHistoricalData(yearly, stationId, from.year, random);
    var p := (r: ReportRow) => InRange(r.date, from, to);
    FindFirst(yearly, (s: StationYear) => s.id == stationId);
    if Find(yearly, (s: StationYear) => s.id == stationId).Some? {
      assert forall k :: 0 <= k < |rows| ==> rows[k].date == Date(from.year, k + 1, 1);
      if Filter(rows, p) != [] {
        assert Filter(rows, p)[0] in rows;
      }
    }
  }

  // ---------------------------------------------------------------------
  // Severity chips

  datatype Severity = Green | Yellow | Orange | Red

  function Rank(s: Severity): nat
  {
    match s
    case Green => 0
    case Yellow => 1
    case Orange => 2
    case Red => 3
  }

  /** The lower bounds of the red, orange and yellow chips. */
  datatype Thresholds = Thresholds(red: real, orange: real, yellow: real)

  const UvThresholds := Thresholds(8.0, 6.0, 3.0)
  const Pm10Thresholds := Thresholds(50.0, 40.0, 30.0)
  const Pm25Thresholds := Thresholds(35.0, 25.0, 15.0)

  function IndicatorThresholds(i: Indicator): Thresholds
  {
    match i
    case Uv => UvThresholds
    case Pm10 => Pm10Thresholds
    case Pm25 => Pm25Thresholds
  }

  predicate Descending(t: Thresholds)
  {
    t.yellow <= t.orange <= t.red
  }

  /** The chip of a reading; `NaN` fails every comparison and is green. */
  function SeverityOf(v: Number, t: Thresholds): Severity
  {
    match v
    case NaN => Green
    case Finite(x) =>
      if x >= t.red then Red else if x >= t.orange then Orange else if x >= t.yellow then Yellow else Green
  }

  function ChipClass(s: Severity): string
  {
    match s
    case Red => "bg-red-100 text-red-800"
    case Orange => "bg-orange-100 text-orange-800"
    case Yellow => "bg-yellow-100 text-yellow-800"
    case Green => "bg-green-100 text-green-800"
  }

  /** With descending thresholds each chip is a half-open band: red from
      the first threshold on, orange and yellow below the previous one, and
      green below the third. */
  lemma SeverityBands(x: real, t: Thresholds)
    requires Descending(t)
    ensures SeverityOf(Finite(x), t) == Red <==> t.red <= x
    ensures SeverityOf(Finite(x), t) == Orange <==> t.orange <= x < t.red
    ensures SeverityOf(Finite(x), t) == Yellow <==> t.yellow <= x < t.orange
    ensures SeverityOf(Finite(x), t) == Green <==> x < t.yellow
  {
  }

  /** A larger reading never gets a milder chip. */
  lemma SeverityMonotone(x: real, y: real, t: Thresholds)
    requires Descending(t) && x <= y
    ensures Rank(SeverityOf(Finite(x), t)) <= Rank(SeverityOf(Finite(y), t))
  {
  }

  /** The three indicators' thresholds are descending and the four chips
      have distinct classes. */
  lemma ShippedThresholdsDescend()
    ensures forall i :: Descending(IndicatorThresholds(i))
    ensures forall s, u :: s != u ==> ChipClass(s) != ChipClass(u)
  {
  }

  // ---------------------------------------------------------------------
  // Columns and export rows

  /** How a column shows its value: as it is, as a severity chip, or as a
      date in the `vi-VN` locale. */
  datatype Render = Plain | Chip(thresholds: Thresholds) | LocaleDate

  datatype ReportColumn = ReportColumn(key: string, title: string, render: Render)

  /** The title of the period column and the key of the period export cell. */
  function PeriodTitle(view: ViewType): string
  {
    if view == Monthly then "THÁNG" else "NGÀY"
  }

  function IndicatorColumn(i: Indicator): ReportColumn
  {
    match i
    case Uv => ReportColumn("uv", "UV Index", Chip(UvThresholds))
    case Pm10 => ReportColumn("pm10", "PM1.0 (μg/m³)", Chip(Pm10Thresholds))
    case Pm25 => ReportColumn("pm25", "PM2.5 (μg/m³)", Chip(Pm25Thresholds))
  }

  const DateColumn := ReportColumn("date", "Ngày cập nhật", LocaleDate)

  /** `getColumns()`: the period column, then one column per shown
      indicator in the order UV, PM1.0, PM2.5, then the date column. */
  method GetColumns(view: ViewType, dt: DataType) returns (cols: seq<ReportColumn>)
    ensures |cols| == |ShownIndicators(dt)| + 2
    ensures |cols| == if dt.AllData? then 5 else 3
    ensures cols[0] == ReportColumn("period", PeriodTitle(view), Plain)
    ensures forall k :: 0 <= k < |ShownIndicators(dt)| ==> cols[k + 1] == IndicatorColumn(ShownIndicators(dt)[k])
    ensures cols[|cols| - 1] == DateColumn
  {
    ShownIndicatorsCases(dt);
    cols := [ReportColumn("period", PeriodTitle(view), Plain)];
    if Shows(dt, Uv) {
      cols := cols + [IndicatorColumn(Uv)];
    }
    if Shows(dt, Pm10) {
      cols := cols + [IndicatorColumn(Pm10)];
    }
    if Shows(dt, Pm25) {
      cols := cols + [IndicatorColumn(Pm25)];
    }
    cols := cols + [DateColumn];
  }

  /** A cell of an export row: the position, the period text, a reading,
      or the row's date in the `vi-VN` locale. */
  datatype ExportValue = Position(n: nat) | Text(s: string) | Value(v: Number) | LocalDate(d: Date)

  type ExportRow = seq<(string, ExportValue)>

  function ExportKey(i: Indicator): string
  {
    match i
    case Uv => "UV INDEX"
    case Pm10 => "PM1.0 (μg/m³)"
    case Pm25 => "PM2.5 (μg/m³)"
  }

  const PositionKey := "STT"
  const UpdatedKey := "NGÀY CẬP NHẬT"

  /** `e` is the export of `row` at position `index`: `STT` is the position
      counted from 1, then the period under the view's key, then one
      reading per shown indicator, then the update date. */
  predicate IsExportRow(e: ExportRow, row: ReportRow, index: nat, view: ViewType, dt: DataType)
  {
    var shown := ShownIndicators(dt);
    |e| == |shown| + 3
    && e[0] == (PositionKey, Position(index + 1))
    && e[1] == (PeriodTitle(view), Text(row.period))
    && (forall k :: 0 <= k < |shown| ==> e[k + 2] == (ExportKey(shown[k]), Value(Reading(row, shown[k]))))
    && e[|e| - 1] == (UpdatedKey, LocalDate(row.date))
  }

  /** The keys of an export row, in insertion order. */
  function Keys(e: ExportRow): (ks: seq<string>)
    ensures |ks| == |e|
  {
    seq(|e|, k requires 0 <= k < |e| => e[k].0)
  }

  /** An export row has six keys under `'all'` and four otherwise, each
      once. */
  lemma ExportRowKeys(e: ExportRow, row: ReportRow, index: nat, view: ViewType, dt: DataType)
    requires IsExportRow(e, row, index, view, dt)
    ensures dt.AllData? ==> Keys(e) == [PositionKey, PeriodTitle(view), ExportKey(Uv), ExportKey(Pm10), ExportKey(Pm25), UpdatedKey]
    ensures dt.Only? ==> Keys(e) == [PositionKey, PeriodTitle(view), ExportKey(dt.indicator), UpdatedKey]
    ensures forall j, k :: 0 <= j < k < |e| ==> Keys(e)[j] != Keys(e)[k]
  {
    ShownIndicatorsCases(dt);
  }

  /** The export of one table row, built key by key. */
  method BuildExportRow(row: ReportRow, index: nat, view: ViewType, dt: DataType) returns (e: ExportRow)
    ensures IsExportRow(e, row, index, view, dt)
  {
    ShownIndicatorsCases(dt);
    e := [(PositionKey, Position(index + 1)), (PeriodTitle(view), Text(row.period))];
    if Shows(dt, Uv) {
      e := e + [(ExportKey(Uv), Value(row.uv))];
    }
    if Shows(dt, Pm10) {
      e := e + [(ExportKey(Pm10), Value(row.pm10))];
    }
    if Shows(dt, Pm25) {
      e := e + [(ExportKey(Pm25), Value(row.pm25))];
    }
    e := e + [(UpdatedKey, LocalDate(row.date))];
  }

  // ---------------------------------------------------------------------
  // The page

  class Page {
    /** `yearlyStationData` and `chartSampleData`, the two data sources. */
    const yearly: seq<StationYear>
    const samples: seq<SampleStation>

    var selectedStation: Option<string>
    var viewType: ViewType
    var dataType: DataType
    /** `None` is the empty date string. */
    var fromDate: Option<Date>
    var toDate: Option<Date>
    var loading: bool
    var tableData: seq<ReportRow>
    var hasSearched: bool
    /** The view of the last completed search, which titles the table. */
    var currentDataViewType: ViewType

    constructor (yearly: seq<StationYear>, samples: seq<SampleStation>, initialStation: Option<string>)
      ensures this.yearly == yearly && this.samples == samples && selectedStation == initialStation
      ensures viewType == Monthly && dataType == AllData
      ensures fromDate == Some(Date(2024, 1, 1)) && toDate == Some(Date(2024, 12, 31))
      ensures !loading && tableData == [] && !hasSearched && currentDataViewType == Monthly
    {
      this.yearly := yearly;
      this.samples := samples;
      selectedStation := initialStation;
      viewType := Monthly;
      dataType := AllData;
      fromDate := Some(Date(2024, 1, 1));
      toDate := Some(Date(2024, 12, 31));
      loading := false;
      tableData := [];
      hasSearched := false;
      currentDataViewType := Monthly;
    }

    method SetStation(stationId: string)
      modifies this`selectedStation
      ensures selectedStation == Some(stationId)
    {
      selectedStation := Some(stationId);
    }

    method SetViewType(v: ViewType)
      modifies this`viewType
      ensures viewType == v
    {
      viewType := v;
    }

    method SetDataType(dt: DataType)
      modifies this`dataType
      ensures dataType == dt
    {
      dataType := dt;
    }

    method SetFromDate(d: Option<Date>)
      modifies this`fromDate
      ensures fromDate == d
    {
      fromDate := d;
    }

    method SetToDate(d: Option<Date>)
      modifies this`toDate
      ensures toDate == d
    {
      toDate := d;
    }

    /** `generateTableData()` with its timer run at once; `random` gives the
        data sources' random draws. Without a station or with an empty
        date the table is emptied and nothing else changes. */
    method GenerateTableData(random: Randoms)
      modifies this`tableData, this`loading, this`hasSearched, this`currentDataViewType
      ensures selectedStation.None? || fromDate.None? || toDate.None? ==>
                tableData == [] && loading == old(loading) && hasSearched == old(hasSearched)
                && currentDataViewType == old(currentDataViewType)
      ensures selectedStation.Some? && fromDate.Some? && toDate.Some? ==>
                tableData == SearchResult(yearly, samples, viewType, selectedStation.value,
                                          fromDate.value, toDate.value, random)
                && currentDataViewType == viewType && !loading && hasSearched
    {
      if selectedStation.None? || fromDate.None? || toDate.None? {
        tableData := [];
        return;
      }
      loading := true;
      hasSearched := true;
      var data := SourceRows(yearly, samples, viewType, selectedStation.value, fromDate.value.year, random);
      tableData := FilterByRange(data, fromDate.value, toDate.value);
      currentDataViewType := viewType;
      loading := false;
    }

    /** The mount effect: `generateTableData()` runs once if a station and
        both dates are set, and nothing happens otherwise. */
    method Mount(random: Randoms)
      modifies this`tableData, this`loading, this`hasSearched, this`currentDataViewType
      ensures selectedStation.None? || fromDate.None? || toDate.None? ==> unchanged(this)
      ensures selectedStation.Some? && fromDate.Some? && toDate.Some? ==>
                tableData == SearchResult(yearly, samples, viewType, selectedStation.value,
                                          fromDate.value, toDate.value, random)
                && currentDataViewType == viewType && !loading && hasSearched
    {
      if selectedStation.Some? && fromDate.Some? && toDate.Some? {
        GenerateTableData(random);
      }
    }

    /** `getColumns()` for the current state. */
    method Columns() returns (cols: seq<ReportColumn>)
      ensures |cols| == |ShownIndicators(dataType)| + 2
      ensures cols[0].title == PeriodTitle(currentDataViewType)
      ensures forall k :: 0 <= k < |ShownIndicators(dataType)| ==>
                cols[k + 1] == IndicatorColumn(ShownIndicators(dataType)[k])
    {
      cols := GetColumns(currentDataViewType, dataType);
    }

    /** `handleExportExcel()` up to the workbook: nothing on an empty
        table, otherwise one export row per table row in order, keyed by
        the view of the last search and the current data type. */
    method ExportRows() returns (rows: Option<seq<ExportRow>>)
      ensures rows.None? <==> tableData == []
      ensures rows.Some? ==> |rows.value| == |tableData|
      ensures rows.Some? ==> forall k :: 0 <= k < |tableData| ==>
                IsExportRow(rows.value[k], tableData[k], k, currentDataViewType, dataType)
    {
      if |tableData| == 0 {
        return None;
      }
      var out: seq<ExportRow> := [];
      var i := 0;
      while i < |tableData|
        invariant 0 <= i <= |tableData|
        invariant |out| == i
        invariant forall k :: 0 <= k < i ==> IsExportRow(out[k], tableData[k], k, currentDataViewType, dataType)
      {
        var e := BuildExportRow(tableData[i], i, currentDataViewType, dataType);
        out := out + [e];
        i := i + 1;
      }
      rows := Some(out);
    }
  }

  /** The page as first shown for station `stationId` (`mockStations[0]`):
      the mount effect has already searched the monthly data of 2024 over
      the whole year. */
  method ShowPage(yearly: seq<StationYear>, samples: seq<SampleStation>, stationId: string, random: Randoms)
    returns (p: Page)
    ensures fresh(p) && p.yearly == yearly && p.samples == samples
    ensures p.selectedStation == Some(stationId) && p.viewType == Monthly && p.dataType == AllData
    ensures p.hasSearched && !p.loading && p.currentDataViewType == Monthly
    ensures p.tableData == SearchResult(yearly, samples, Monthly, stationId,
                                        Date(2024, 1, 1), Date(2024, 12, 31), random)
  {
    p := new Page(yearly, samples, Some(stationId));
    p.Mount(random);
  }
}
