/** The date picker (`DatePicker`): a dropdown calendar of one month, laid
    out from Sunday, that moves a month at a time and reports the chosen day
    as a `YYYY-MM-DD` string. */
module DatePicker {
  import opened Common
  import opened JsText
  import opened Dates

  datatype Direction = Prev | Next

  /** The (year, month) one month before or after `(y, m)`. */
  function NeighbourMonth(y: int, m: int, dir: Direction): (r: (int, int))
    requires 1 <= m <= 12
    ensures 1 <= r.1 <= 12
  {
    match dir
    case Next => if m == 12 then (y + 1, 1) else (y, m + 1)
    case Prev => if m == 1 then (y - 1, 12) else (y, m - 1)
  }

  /** `new Date(d).setMonth(d.getMonth() ± 1)`: the same day of the
      neighbouring month, and when that month is too short the overflow
      days run into the month after it, as `Date` does. */
  function SetMonth(d: Date, dir: Direction): Date
    requires Valid(d)
  {
    var (y, m) := NeighbourMonth(d.year, d.month, dir);
    if d.day <= DaysInMonth(y, m) then Date(y, m, d.day)
    else
      var (y2, m2) := NeighbourMonth(y, m, Next);
      Date(y2, m2, d.day - DaysInMonth(y, m))
  }

  /** The shifted date is a real date, and it is the day `d.day - 1` days
      after the first of the neighbouring month, which is how `Date` reads
      a day number past the end of a month. */
  lemma SetMonthIsDayOffset(d: Date, dir: Direction)
    requires Valid(d)
    ensures Valid(SetMonth(d, dir))
    ensures var (y, m) := NeighbourMonth(d.year, d.month, dir);
            DayNumber(SetMonth(d, dir)) == DayNumber(Date(y, m, 1)) + d.day - 1
  {
    var (y, m) := NeighbourMonth(d.year, d.month, dir);
    if d.day > DaysInMonth(y, m) {
      NextMonthStart(y, m);
    }
  }

  /** On a day up to the 28th the picker moves exactly one month, across
      the turn of the year too. */
  lemma NavigateMovesOneMonth(d: Date, dir: Direction)
    requires Valid(d) && d.day <= 28
    ensures dir == Next ==> SetMonth(d, dir) == (if d.month == 12 then Date(d.year + 1, 1, d.day) else Date(d.year, d.month + 1, d.day))
    ensures dir == Prev ==> SetMonth(d, dir) == (if d.month == 1 then Date(d.year - 1, 12, d.day) else Date(d.year, d.month - 1, d.day))
  {
  }

  /** The last day of a month, `new Date(y, m + 1, 0)`, is the day right
      before the first of the next month. */
  lemma LastDayPrecedesNextMonth(y: int, m: int)
    requires 1 <= m <= 12
    ensures var (y2, m2) := NeighbourMonth(y, m, Next);
            DayNumber(Date(y, m, DaysInMonth(y, m))) + 1 == DayNumber(Date(y2, m2, 1))
  {
    NextMonthStart(y, m);
  }

  /** `formatDate(value)`: the empty string for an empty value, otherwise
      the date in the `vi-VN` locale. */
  datatype Display = EmptyText | LocaleDate(d: Date)

  function FormatDate(value: Option<Date>): (r: Display)
    ensures r == EmptyText <==> value.None?
  {
    match value
    case None => EmptyText
    case Some(d) => LocaleDate(d)
  }

  /** `getSelectedDay()` for the month shown on `shown`: the value's day
      when it lies in that month of that year, `None` (`null`) otherwise. */
  function SelectedDay(value: Option<Date>, shown: Date): (r: Option<int>)
    ensures r.Some? <==> value.Some? && value.value.year == shown.year && value.value.month == shown.month
    ensures r.Some? ==> r.value == value.value.day
  {
    if value.None? then None
    else if value.value.year == shown.year && value.value.month == shown.month then Some(value.value.day)
    else None
  }

  /** The grid the calendar renders: `start` empty cells, then the days
      `1..n` in order. */
  predicate IsGrid(days: seq<Option<int>>, start: nat, n: nat)
  {
    |days| == start + n
    && (forall i :: 0 <= i < start ==> days[i].None?)
    && (forall i :: start <= i < |days| ==> days[i] == Some(i - start + 1))
  }

  /** A day `k` of the month sits in cell `start + k - 1`. */
  lemma DayCell(days: seq<Option<int>>, start: nat, n: nat, k: int)
    requires IsGrid(days, start, n) && 1 <= k <= n
    ensures days[start + k - 1] == Some(k)
    ensures forall i :: 0 <= i < |days| && days[i] == Some(k) ==> i == start + k - 1
  {
  }

  class Picker {
    var isOpen: bool
    /** The month shown, kept as a full date as the source does. */
    var currentMonth: Date

    ghost predicate Valid()
      reads this
    {
      Dates.Valid(currentMonth)
    }

    /** `today` is `new Date()`. */
    constructor (today: Date)
      requires Dates.Valid(today)
      ensures currentMonth == today && !isOpen && Valid()
    {
      currentMonth := today;
      isOpen := false;
    }

    /** The field's button. */
    method Toggle()
      modifies this`isOpen
      ensures isOpen == !old(isOpen)
    {
      isOpen := !isOpen;
    }

    /** A mouse-down outside the dropdown. */
    method ClickOutside()
      modifies this`isOpen
      ensures !isOpen
    {
      isOpen := false;
    }

    /** `getDaysInMonth()`: one empty cell per weekday before the first of
        the month, then its days. */
    method DaysGrid() returns (days: seq<Option<int>>)
      requires Valid()
      ensures IsGrid(days, Weekday(Date(currentMonth.year, currentMonth.month, 1)),
                     DaysInMonth(currentMonth.year, currentMonth.month))
      ensures 28 <= |days| <= 37
    {
      var year := currentMonth.year;
      var month := currentMonth.month;
      var daysInMonth := DaysInMonth(year, month);
      var startingDayOfWeek := Weekday(Date(year, month, 1));
      days := [];
      var i := 0;
      while i < startingDayOfWeek
        invariant 0 <= i <= startingDayOfWeek
        invariant |days| == i
        invariant forall j :: 0 <= j < i ==> days[j].None?
      {
        days := days + [None];
        i := i + 1;
      }
      var day := 1;
      while day <= daysInMonth
        invariant 1 <= day <= daysInMonth + 1
        invariant |days| == startingDayOfWeek + day - 1
        invariant forall j :: 0 <= j < startingDayOfWeek ==> days[j].None?
        invariant forall j :: startingDayOfWeek <= j < |days| ==> days[j] == Some(j - startingDayOfWeek + 1)
      {
        days := days + [Some(day)];
        day := day + 1;
      }
    }

    /** The arrows: `setMonth(getMonth() ± 1)` on the shown date. */
    method NavigateMonth(dir: Direction)
      requires Valid()
      modifies this`currentMonth
      ensures currentMonth == SetMonth(old(currentMonth), dir) && Valid()
    {
      SetMonthIsDayOffset(currentMonth, dir);
      currentMonth := SetMonth(currentMonth, dir);
    }

    /** `handleDateSelect(day)` for a day of the grid: the date is emitted as
        its `YYYY-MM-DD` string and the dropdown closes. */
    method HandleDateSelect(day: int) returns (emitted: string)
      requires Valid() && 1 <= day <= DaysInMonth(currentMonth.year, currentMonth.month)
      modifies this`isOpen
      ensures emitted == IsoDateString(Date(currentMonth.year, currentMonth.month, day))
      ensures !isOpen
    {
      emitted := IsoDateString(Date(currentMonth.year, currentMonth.month, day));
      isOpen := false;
    }

    function GetSelectedDay(value: Option<Date>): Option<int>
      reads this
    {
      SelectedDay(value, currentMonth)
    }
  }

  /** Choosing a day and receiving that date back as the value highlights
      the chosen cell, and only it, in the grid. */
  method SelectThenHighlight(p: Picker, day: int) returns (emitted: string, days: seq<Option<int>>, cell: nat)
    requires p.Valid() && 1 <= day <= DaysInMonth(p.currentMonth.year, p.currentMonth.month)
    modifies p`isOpen
    ensures !p.isOpen && p.currentMonth == old(p.currentMonth)
    ensures emitted == IsoDateString(Date(p.currentMonth.year, p.currentMonth.month, day))
    ensures p.GetSelectedDay(Some(Date(p.currentMonth.year, p.currentMonth.month, day))) == Some(day)
    ensures cell < |days| && days[cell] == Some(day)
    ensures forall i :: 0 <= i < |days| && days[i] == Some(day) ==> i == cell
  {
    emitted := p.HandleDateSelect(day);
    days := p.DaysGrid();
    var start := Weekday(Date(p.currentMonth.year, p.currentMonth.month, 1));
    DayCell(days, start, DaysInMonth(p.currentMonth.year, p.currentMonth.month), day);
    cell := start + day - 1;
  }
}
