/** The analytics dashboard: the reporting window chosen by the period tabs, the
    month picker and the custom range, and the query parameters sent for it.
    Instants are UTC milliseconds; the device's local time is UTC plus
    `offset` milliseconds. */
module Analytics {
  import opened Wrappers
  import opened Calendar
  import opened Numbers

  const Month := "month"
  const Year := "year"
  const AllTime := "all"
  const Custom := "custom"
  const Tabs: seq<string> := [Month, Year, AllTime, Custom]

  /** The last second of a day, `23:59:59`. */
  const EndOfDay := MakeTime(23, 59, 59, 0)

  /** The local wall-clock reading of `new Date()`; `month` is 0-based. */
  datatype Now = Now(year: int, month: int, day: int, hour: int, minute: int, second: int, ms: int)

  /** A calendar date; `month` is 0-based. */
  datatype CivilDate = CivilDate(year: int, month: int, day: int)

  /** The custom range as typed: two `YYYY-MM-DD` texts. */
  datatype CustomRange = CustomRange(start: string, end: string)

  /** `{ start, end }` of `dateRange`: `None` is `null`. */
  datatype Window = Window(start: Option<int>, end: Option<int>)

  /** `toISOString` throws on an invalid date. */
  datatype RangeError = InvalidTimeValue

  /** The `Date` constructor's year: 0-99 mean 1900-1999. */
  function FullYear(y: int): (r: int)
    ensures 0 <= y <= 99 ==> r == 1900 + y
    ensures !(0 <= y <= 99) ==> r == y
  {
    if 0 <= y <= 99 then 1900 + y else y
  }

  /** `new Date(y, m, d, h, min, s)` in local time, as a UTC instant. */
  function LocalDate(y: int, m: int, d: int, h: int, min: int, s: int, offset: int): int {
    MakeDate(MakeDay(FullYear(y), m, d), MakeTime(h, min, s, 0)) - offset
  }

  function NowInstant(now: Now, offset: int): int {
    MakeDate(MakeDay(now.year, now.month, now.day), MakeTime(now.hour, now.minute, now.second, now.ms)) - offset
  }

  /** The date of a `YYYY-MM-DD` text; `None` for any other text or a day the
      month does not have. */
  function ParseIsoDate(text: string): (r: Option<CivilDate>)
    ensures r.Some? ==> 0 <= r.value.month < 12 && 1 <= r.value.day <= DaysInMonth(r.value.year, r.value.month)
    ensures r.Some? ==> |text| == 10 && text[4] == '-' && text[7] == '-'
  {
    if |text| != 10 || text[4] != '-' || text[7] != '-' then None
    else if !(forall i :: 0 <= i < 10 && i != 4 && i != 7 ==> IsDigit(text[i])) then None
    else
      var y, m, d := Digits(text[..4]), Digits(text[5..7]), Digits(text[8..]);
      if 1 <= m <= 12 && 1 <= d <= DaysInMonth(y, m - 1) then Some(CivilDate(y, m - 1, d)) else None
  }

  /** `YYYY-MM-DD`, the date part of an ISO string, for years 0-9999. */
  function IsoDateText(d: CivilDate): (text: string)
    requires 0 <= d.year <= 9999 && 0 <= d.month < 12 && 1 <= d.day <= 31
    ensures |text| == 10 && text[4] == '-' && text[7] == '-'
  {
    var y, m := d.year, d.month + 1;
    [DigitChar(y / 1000), DigitChar(y / 100 % 10), DigitChar(y / 10 % 10), DigitChar(y % 10), '-',
     DigitChar(m / 10), DigitChar(m % 10), '-',
     DigitChar(d.day / 10), DigitChar(d.day % 10)]
  }

  /** A real calendar date that `toISOString` writes with a four-digit year. */
  predicate RealIsoDate(d: CivilDate) {
    0 <= d.year <= 9999 && 0 <= d.month < 12 && 1 <= d.day <= DaysInMonth(d.year, d.month)
  }

  lemma PositionalYear(y: int)
    requires 0 <= y <= 9999
    ensures ((y / 1000 * 10 + y / 100 % 10) * 10 + y / 10 % 10) * 10 + y % 10 == y
  {
  }

  /** Reading back the date part of an ISO string gives the date it was made
      from, for every real date of years 0-9999. */
  lemma ParseIsoDateText(d: CivilDate)
    requires 0 <= d.year <= 9999 && 0 <= d.month < 12 && 1 <= d.day <= DaysInMonth(d.year, d.month)
    ensures ParseIsoDate(IsoDateText(d)) == Some(d)
  {
    var t := IsoDateText(d);
    var y, m := d.year, d.month + 1;
    assert t[..4] == [t[0], t[1], t[2], t[3]];
    assert t[5..7] == [t[5], t[6]];
    assert t[8..] == [t[8], t[9]];
    DigitsOfFour(t[0], t[1], t[2], t[3]);
    DigitsOfTwo(t[5], t[6]);
    DigitsOfTwo(t[8], t[9]);
    PositionalYear(y);
    assert Digits(t[..4]) == y;
    assert Digits(t[5..7]) == m;
    assert Digits(t[8..]) == d.day;
  }

  /** The selected month: from its first day at 00:00:00 to its last day at
      23:59:59, local time. */
  function MonthWindow(y: int, m: int, offset: int): (w: Window)
    requires 0 <= m < 12
    ensures w.start == Some(LocalDate(y, m, 1, 0, 0, 0, offset))
    ensures w.end.Some? && w.end.value == w.start.value + DaysInMonth(FullYear(y), m) * MsPerDay - 1000
  {
    DayZeroIsLastDay(FullYear(y), m);
    Window(Some(LocalDate(y, m, 1, 0, 0, 0, offset)), Some(LocalDate(y, m + 1, 0, 23, 59, 59, offset)))
  }

  /** Consecutive month windows leave no gap: the next month starts one second
      after this one ends, across the end of the year too. */
  lemma MonthWindowsAbut(y: int, m: int, offset: int)
    requires 0 <= m < 12
    requires !(0 <= y <= 99) && !(0 <= y + 1 <= 99)
    ensures var next := if m == 11 then MonthWindow(y + 1, 0, offset) else MonthWindow(y, m + 1, offset);
      next.start.value == MonthWindow(y, m, offset).end.value + 1000
  {
    NextMonthStart(y, m);
    if m == 11 {
      NextStartIsEndPlusSecond(y, m, y + 1, 0, offset);
    } else {
      NextStartIsEndPlusSecond(y, m, y, m + 1, offset);
    }
  }

  lemma NextStartIsEndPlusSecond(y: int, m: int, ny: int, nm: int, offset: int)
    requires 0 <= m < 12 && 0 <= nm < 12
    requires !(0 <= y <= 99) && !(0 <= ny <= 99)
    requires MakeDay(ny, nm, 1) == MakeDay(y, m, 1) + DaysInMonth(y, m)
    ensures MonthWindow(ny, nm, offset).start.value == MonthWindow(y, m, offset).end.value + 1000
  {
    var a, dim := MakeDay(y, m, 1), DaysInMonth(y, m);
    LocalMidnight(y, m, offset);
    LocalMidnight(ny, nm, offset);
    assert MakeDay(ny, nm, 1) * MsPerDay == a * MsPerDay + dim * MsPerDay;
  }

  /** Midnight at the start of a month's first day, as an instant. */
  lemma LocalMidnight(y: int, m: int, offset: int)
    ensures LocalDate(y, m, 1, 0, 0, 0, offset) == MakeDay(FullYear(y), m, 1) * MsPerDay - offset
  {
    assert MakeTime(0, 0, 0, 0) == 0;
  }

  /** The year so far: from January 1 of the current year to now. */
  function YearWindow(now: Now, offset: int): (w: Window)
    ensures w.start == Some(LocalDate(now.year, 0, 1, 0, 0, 0, offset))
    ensures w.end == Some(NowInstant(now, offset))
  {
    Window(Some(LocalDate(now.year, 0, 1, 0, 0, 0, offset)), Some(NowInstant(now, offset)))
  }

  /** For a real local time of a year past 99, the year window is not empty. */
  lemma YearWindowIsOrdered(now: Now, offset: int)
    requires !(0 <= now.year <= 99)
    requires 0 <= now.month < 12 && 1 <= now.day
    requires 0 <= now.hour && 0 <= now.minute && 0 <= now.second && 0 <= now.ms
    ensures YearWindow(now, offset).start.value <= YearWindow(now, offset).end.value
  {
    DaysBeforeMonthNonNegative(now.year, now.month);
  }

  lemma {:induction false} DaysBeforeMonthNonNegative(y: int, m: int)
    requires 0 <= m <= 12
    ensures DaysBeforeMonth(y, m) >= 0
  {
    if m > 0 {
      DaysBeforeMonthNonNegative(y, m - 1);
    }
  }

  /** The custom range: the start text is read as a date-only ISO string (UTC
      midnight), the end text with `T23:59:59` appended (local time). */
  function CustomWindow(range: CustomRange, offset: int): (r: Result<Window, RangeError>)
    ensures r.Ok? <==> ParseIsoDate(range.start).Some? && ParseIsoDate(range.end).Some?
    ensures r.Ok? ==> r.value.start.Some? && r.value.end.Some?
    ensures r.Ok? ==> var s := ParseIsoDate(range.start).value;
      r.value.start.value == MakeDate(MakeDay(s.year, s.month, s.day), 0)
    ensures r.Ok? ==> var e := ParseIsoDate(range.end).value;
      r.value.end.value == MakeDate(MakeDay(e.year, e.month, e.day), EndOfDay) - offset
  {
    match (ParseIsoDate(range.start), ParseIsoDate(range.end))
    case (Some(s), Some(e)) =>
      Ok(Window(Some(MakeDate(MakeDay(s.year, s.month, s.day), 0)),
                Some(MakeDate(MakeDay(e.year, e.month, e.day), EndOfDay) - offset)))
    case _ => Err(InvalidTimeValue)
  }

  /** `dateRange` for the current screen state. */
  function DateRange(period: string, month: int, year: int, custom: CustomRange, now: Now, offset: int)
      : (r: Result<Window, RangeError>)
    requires 0 <= month < 12
    ensures period == Month ==> r == Ok(MonthWindow(year, month, offset))
    ensures period == Year ==> r == Ok(YearWindow(now, offset))
    ensures period == Custom ==> r == CustomWindow(custom, offset)
    ensures period !in Tabs || period == AllTime ==> r == Ok(Window(None, None))
  {
    if period == Month then Ok(MonthWindow(year, month, offset))
    else if period == Year then Ok(YearWindow(now, offset))
    else if period == Custom then CustomWindow(custom, offset)
    else Ok(Window(None, None))
  }

  datatype ParamValue = Text(text: string) | Instant(ms: int)

  /** The query of both report requests: `period` always, each bound only when
      it is not null. */
  method BuildParams(period: string, range: Window) returns (params: map<string, ParamValue>)
    ensures "period" in params && params["period"] == Text(period)
    ensures "start_date" in params <==> range.start.Some?
    ensures "end_date" in params <==> range.end.Some?
    ensures range.start.Some? ==> params["start_date"] == Instant(range.start.value)
    ensures range.end.Some? ==> params["end_date"] == Instant(range.end.value)
    ensures params.Keys <= {"period", "start_date", "end_date"}
  {
    params := map["period" := Text(period)];
    if range.start.Some? {
      params := params["start_date" := Instant(range.start.value)];
    }
    if range.end.Some? {
      params := params["end_date" := Instant(range.end.value)];
    }
  }

  /** The screen's state fields. */
  class AnalyticsScreen {
    var period: string
    var selectedMonth: int
    var selectedYear: int
    var showMonthPicker: bool
    var showCustomModal: bool
    var customRange: CustomRange
    var tempRange: CustomRange

    ghost predicate Valid()
      reads this
    {
      0 <= selectedMonth < 12
    }

    /** Initial state. The custom range holds the date parts of the ISO
        strings of local midnight on the month's first day (`startUtc`) and of
        now (`endUtc`), each the UTC calendar date of that instant. */
    constructor (now: Now, startUtc: CivilDate, endUtc: CivilDate)
      requires 0 <= now.month < 12
      requires RealIsoDate(startUtc) && RealIsoDate(endUtc)
      ensures Valid()
      ensures period == Month && selectedMonth == now.month && selectedYear == now.year
      ensures !showMonthPicker && !showCustomModal
      ensures customRange == CustomRange(IsoDateText(startUtc), IsoDateText(endUtc)) && tempRange == customRange
      ensures ParseIsoDate(customRange.start) == Some(startUtc) && ParseIsoDate(customRange.end) == Some(endUtc)
    {
      period := Month;
      selectedMonth, selectedYear := now.month, now.year;
      showMonthPicker, showCustomModal := false, false;
      customRange := CustomRange(IsoDateText(startUtc), IsoDateText(endUtc));
      tempRange := customRange;
      ParseIsoDateText(startUtc);
      ParseIsoDateText(endUtc);
    }

    function CurrentWindow(now: Now, offset: int): Result<Window, RangeError>
      reads this
      requires Valid()
    {
      DateRange(period, selectedMonth, selectedYear, customRange, now, offset)
    }

    method EditTempStart(text: string)
      modifies this
      ensures tempRange == old(tempRange).(start := text)
      ensures period == old(period) && customRange == old(customRange)
      ensures selectedMonth == old(selectedMonth) && selectedYear == old(selectedYear)
      ensures showMonthPicker == old(showMonthPicker) && showCustomModal == old(showCustomModal)
    {
      tempRange := tempRange.(start := text);
    }

    method EditTempEnd(text: string)
      modifies this
      ensures tempRange == old(tempRange).(end := text)
      ensures period == old(period) && customRange == old(customRange)
      ensures selectedMonth == old(selectedMonth) && selectedYear == old(selectedYear)
      ensures showMonthPicker == old(showMonthPicker) && showCustomModal == old(showCustomModal)
    {
      tempRange := tempRange.(end := text);
    }

    /** Closing the custom modal without applying keeps the typed range pending. */
    method DismissCustomModal()
      modifies this
      ensures !showCustomModal
      ensures period == old(period) && customRange == old(customRange) && tempRange == old(tempRange)
      ensures selectedMonth == old(selectedMonth) && selectedYear == old(selectedYear)
      ensures showMonthPicker == old(showMonthPicker)
    {
      showCustomModal := false;
    }

    /** Closing the month picker keeps the year the chevrons moved to. */
    method DismissMonthPicker()
      modifies this
      ensures !showMonthPicker
      ensures period == old(period) && customRange == old(customRange) && tempRange == old(tempRange)
      ensures selectedMonth == old(selectedMonth) && selectedYear == old(selectedYear)
      ensures showCustomModal == old(showCustomModal)
    {
      showMonthPicker := false;
    }

    /** `handleApplyCustom` */
    method ApplyCustom()
      modifies this
      ensures customRange == old(tempRange) && tempRange == old(tempRange)
      ensures !showCustomModal && period == Custom
      ensures selectedMonth == old(selectedMonth) && selectedYear == old(selectedYear)
      ensures showMonthPicker == old(showMonthPicker)
    {
      customRange := tempRange;
      showCustomModal := false;
      period := Custom;
    }

    /** `handleMonthSelect` */
    method SelectMonth(index: int)
      requires 0 <= index < 12
      modifies this
      ensures Valid()
      ensures selectedMonth == index && !showMonthPicker && period == Month
      ensures selectedYear == old(selectedYear) && showCustomModal == old(showCustomModal)
      ensures customRange == old(customRange) && tempRange == old(tempRange)
    {
      selectedMonth := index;
      showMonthPicker := false;
      period := Month;
    }

    /** The left chevron of the month picker. */
    method PreviousYear()
      modifies this
      ensures selectedYear == old(selectedYear) - 1
      ensures period == old(period) && selectedMonth == old(selectedMonth)
      ensures showMonthPicker == old(showMonthPicker) && showCustomModal == old(showCustomModal)
      ensures customRange == old(customRange) && tempRange == old(tempRange)
    {
      selectedYear := selectedYear - 1;
    }

    /** The right chevron of the month picker. */
    method NextYear()
      modifies this
      ensures selectedYear == old(selectedYear) + 1
      ensures period == old(period) && selectedMonth == old(selectedMonth)
      ensures showMonthPicker == old(showMonthPicker) && showCustomModal == old(showCustomModal)
      ensures customRange == old(customRange) && tempRange == old(tempRange)
    {
      selectedYear := selectedYear + 1;
    }

    /** A filter tab: `custom` only opens the modal; `month` opens the picker when
        already on it, else selects it; any other tab becomes the period. */
    method PressTab(tab: string)
      modifies this
      ensures tab == Custom ==> showCustomModal && period == old(period) && showMonthPicker == old(showMonthPicker)
      ensures tab == Month && old(period) == Month ==> showMonthPicker && period == Month && showCustomModal == old(showCustomModal)
      ensures tab == Month && old(period) != Month ==> period == Month && showMonthPicker == old(showMonthPicker) && showCustomModal == old(showCustomModal)
      ensures tab != Custom && tab != Month ==> period == tab && showMonthPicker == old(showMonthPicker) && showCustomModal == old(showCustomModal)
      ensures selectedMonth == old(selectedMonth) && selectedYear == old(selectedYear)
      ensures customRange == old(customRange) && tempRange == old(tempRange)
    {
      if tab == Custom {
        showCustomModal := true;
      } else if tab == Month {
        if period == Month {
          showMonthPicker := true;
        } else {
          period := Month;
        }
      } else {
        period := tab;
      }
    }

    /** The period badge in the header reopens the picker or the custom modal. */
    method PressBadge()
      modifies this
      ensures period == old(period)
      ensures showMonthPicker == (old(showMonthPicker) || period == Month)
      ensures showCustomModal == (old(showCustomModal) || period == Custom)
      ensures selectedMonth == old(selectedMonth) && selectedYear == old(selectedYear)
      ensures customRange == old(customRange) && tempRange == old(tempRange)
    {
      if period == Month {
        showMonthPicker := true;
      } else if period == Custom {
        showCustomModal := true;
      }
    }
  }
}
