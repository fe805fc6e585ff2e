/**
 * The date picker of src/components/Calendar.tsx: Gregorian month lengths,
 * the weekday of the first of a month, the `YYYY-MM-DD` strings the picker
 * hands back, the month grid (leading blank cells, then one button per day)
 * and the month shown, which the arrows move by one with year wrap-around.
 *
 * A date is a (year, month, day) triple with a 1-based month; the source's
 * `getMonth()` is `month - 1`. Days are counted from 0001-01-01 on the
 * proleptic Gregorian calendar, which is the calendar JavaScript's `Date` uses.
 */
module Calendar {

  import opened Wrappers
  import opened Text

  datatype Date = Date(year: int, month: int, day: int)

  predicate IsLeapYear(y: int) {
    y % 4 == 0 && (y % 100 != 0 || y % 400 == 0)
  }

  function YearLength(y: int): int {
    if IsLeapYear(y) then 366 else 365
  }

  /** `daysInMonth(year, month)`: the day number of `new Date(year, month + 1, 0)`,
      the day before the first of the next month. */
  function DaysInMonth(y: int, m: int): (n: int)
    requires 1 <= m <= 12
    ensures 28 <= n <= 31
  {
    if m == 2 then (if IsLeapYear(y) then 29 else 28)
    else if m == 4 || m == 6 || m == 9 || m == 11 then 30
    else 31
  }

  predicate ValidDate(dt: Date) {
    1 <= dt.month <= 12 && 1 <= dt.day <= DaysInMonth(dt.year, dt.month)
  }

  /** Days in the years before `y`, counted from year 1 (negative before year 1):
      year after year, each adds its own length. */
  function DaysBeforeYear(y: int): int
    decreases if y >= 1 then y - 1 else 1 - y
  {
    if y == 1 then 0
    else if y > 1 then DaysBeforeYear(y - 1) + YearLength(y - 1)
    else DaysBeforeYear(y + 1) - YearLength(y)
  }

  /** The closed form of DaysBeforeYear: a day per year, plus the leap days the
      4/100/400 rule inserts before year `y`. */
  function LeapCountFormula(y: int): int {
    365 * (y - 1) + (y - 1) / 4 - (y - 1) / 100 + (y - 1) / 400
  }

  /** Days in the months of year `y` before month `m`; month 13 stands for the whole year. */
  function DaysBeforeMonth(y: int, m: int): int
    requires 1 <= m <= 13
    decreases m
  {
    if m == 1 then 0 else DaysBeforeMonth(y, m - 1) + DaysInMonth(y, m - 1)
  }

  /** Days from 0001-01-01 to `dt`; the ordering JavaScript compares dates by. */
  function DayNumber(dt: Date): int
    requires 1 <= dt.month <= 12
  {
    DaysBeforeYear(dt.year) + DaysBeforeMonth(dt.year, dt.month) + dt.day - 1
  }

  /** `getDay()`: 0 is Sunday. 0001-01-01 was a Monday. */
  function Weekday(dt: Date): (w: int)
    requires 1 <= dt.month <= 12
    ensures 0 <= w < 7
  {
    (DayNumber(dt) + 1) % 7
  }

  /** `firstDayOfMonth(year, month)`: the weekday of the first, and so the number of blank cells. */
  function FirstDayOfMonth(y: int, m: int): (w: int)
    requires 1 <= m <= 12
    ensures 0 <= w < 7
  {
    Weekday(Date(y, m, 1))
  }

  /** Strictly earlier on the calendar: by year, then month, then day. */
  predicate Before(a: Date, b: Date) {
    a.year < b.year
    || (a.year == b.year && a.month < b.month)
    || (a.year == b.year && a.month == b.month && a.day < b.day)
  }

  /** The months since month 1 of year 0: consecutive months have consecutive indices. */
  function MonthIndex(y: int, m: int): int {
    12 * y + m - 1
  }

  /** `new Date(year, month + delta, 1)`: JavaScript carries a month out of range into the year. */
  function MonthStart(y: int, m: int, delta: int): (r: Date)
    requires 1 <= m <= 12
    ensures ValidDate(r) && r.day == 1
    ensures MonthIndex(r.year, r.month) == MonthIndex(y, m) + delta
  {
    var k := MonthIndex(y, m) + delta;
    Date(k / 12, k % 12 + 1, 1)
  }

  // ---------------------------------------------------------------------
  // Day counting

  /** Consecutive years are a year's length apart. */
  lemma YearStep(y: int)
    ensures DaysBeforeYear(y + 1) == DaysBeforeYear(y) + YearLength(y)
  {
  }

  lemma Div4Step(y: int)
    ensures y / 4 - (y - 1) / 4 == if y % 4 == 0 then 1 else 0
  {
  }

  lemma Div100Step(y: int)
    ensures y / 100 - (y - 1) / 100 == if y % 100 == 0 then 1 else 0
  {
  }

  lemma Div400Step(y: int)
    ensures y / 400 - (y - 1) / 400 == if y % 400 == 0 then 1 else 0
  {
  }

  /** A multiple of 400 is a multiple of 100, which is a multiple of 4. */
  lemma CenturyDivisors(y: int)
    ensures y % 400 == 0 ==> y % 100 == 0
    ensures y % 100 == 0 ==> y % 4 == 0
  {
    if y % 400 == 0 {
      var q := y / 400;
      assert y == 100 * (4 * q);
      assert y / 100 == 4 * q;
    }
    if y % 100 == 0 {
      var q := y / 100;
      assert y == 4 * (25 * q);
      assert y / 4 == 25 * q;
    }
  }

  /** The closed form grows by a year's length too: a year `y` divisible by 4 adds a leap
      day unless it is a century year not divisible by 400. */
  lemma LeapCountStep(y: int)
    ensures LeapCountFormula(y + 1) == LeapCountFormula(y) + YearLength(y)
  {
    Div4Step(y);
    Div100Step(y);
    Div400Step(y);
    CenturyDivisors(y);
    var a, b, c := y / 4 - (y - 1) / 4, y / 100 - (y - 1) / 100, y / 400 - (y - 1) / 400;
    assert LeapCountFormula(y + 1) == LeapCountFormula(y) + 365 + a - b + c;
  }

  /** Counting year by year and the leap-year formula agree on every year. */
  lemma {:induction false} DaysBeforeYearFormula(y: int)
    ensures DaysBeforeYear(y) == LeapCountFormula(y)
    decreases if y >= 1 then y - 1 else 1 - y
  {
    if y > 1 {
      DaysBeforeYearFormula(y - 1);
      LeapCountStep(y - 1);
    } else if y < 1 {
      DaysBeforeYearFormula(y + 1);
      LeapCountStep(y);
    }
  }

  /** The twelve month lengths add up to the year's length. */
  lemma MonthsFillYear(y: int)
    ensures DaysBeforeMonth(y, 13) == YearLength(y)
  {
    var leap := if IsLeapYear(y) then 1 else 0;
    assert DaysBeforeMonth(y, 3) == 59 + leap;
    assert DaysBeforeMonth(y, 6) == 151 + leap;
    assert DaysBeforeMonth(y, 9) == 243 + leap;
    assert DaysBeforeMonth(y, 12) == 334 + leap;
  }

  lemma {:induction false} DaysBeforeMonthGrows(y: int, m1: int, m2: int)
    requires 1 <= m1 <= m2 <= 13
    ensures DaysBeforeMonth(y, m1) <= DaysBeforeMonth(y, m2)
    decreases m2 - m1
  {
    if m1 < m2 {
      DaysBeforeMonthGrows(y, m1, m2 - 1);
    }
  }

  lemma {:induction false} DaysBeforeYearGrows(y1: int, y2: int)
    requires y1 <= y2
    ensures DaysBeforeYear(y1) <= DaysBeforeYear(y2)
    decreases y2 - y1
  {
    if y1 < y2 {
      DaysBeforeYearGrows(y1, y2 - 1);
      YearStep(y2 - 1);
    }
  }

  /** A valid date lies inside its year's block of day numbers. */
  lemma DayNumberWithinYear(dt: Date)
    requires ValidDate(dt)
    ensures DaysBeforeYear(dt.year) <= DayNumber(dt) < DaysBeforeYear(dt.year + 1)
  {
    var y, m := dt.year, dt.month;
    assert DaysBeforeMonth(y, m + 1) == DaysBeforeMonth(y, m) + DaysInMonth(y, m);
    DaysBeforeMonthGrows(y, m + 1, 13);
    MonthsFillYear(y);
    YearStep(y);
  }

  lemma EarlierYearSmallerDayNumber(a: Date, b: Date)
    requires ValidDate(a) && ValidDate(b) && a.year < b.year
    ensures DayNumber(a) < DayNumber(b)
  {
    DayNumberWithinYear(a);
    DayNumberWithinYear(b);
    DaysBeforeYearGrows(a.year + 1, b.year);
  }

  lemma EarlierMonthSmallerDayNumber(a: Date, b: Date)
    requires ValidDate(a) && ValidDate(b) && a.year == b.year && a.month < b.month
    ensures DayNumber(a) < DayNumber(b)
  {
    DaysBeforeMonthGrows(a.year, a.month + 1, b.month);
  }

  lemma BeforeHasSmallerDayNumber(a: Date, b: Date)
    requires ValidDate(a) && ValidDate(b) && Before(a, b)
    ensures DayNumber(a) < DayNumber(b)
  {
    if a.year < b.year {
      EarlierYearSmallerDayNumber(a, b);
    } else if a.month < b.month {
      EarlierMonthSmallerDayNumber(a, b);
    }
  }

  /** Comparing two dates as `Date` objects is comparing them on the calendar. */
  lemma DayNumberOrder(a: Date, b: Date)
    requires ValidDate(a) && ValidDate(b)
    ensures DayNumber(a) < DayNumber(b) <==> Before(a, b)
    ensures DayNumber(a) == DayNumber(b) <==> a == b
  {
    if Before(a, b) {
      BeforeHasSmallerDayNumber(a, b);
    } else if Before(b, a) {
      BeforeHasSmallerDayNumber(b, a);
    }
  }

  /** `new Date(y, m + 1, 0)` names the day before the first of the next month:
      the last day of month `m` is immediately followed by the first of the next. */
  lemma LastDayPrecedesNextMonth(y: int, m: int)
    requires 1 <= m <= 12
    ensures DayNumber(Date(y, m, DaysInMonth(y, m))) + 1 == DayNumber(MonthStart(y, m, 1))
  {
    if m == 12 {
      MonthsFillYear(y);
      YearStep(y);
      assert MonthStart(y, m, 1) == Date(y + 1, 1, 1);
    } else {
      assert MonthStart(y, m, 1) == Date(y, m + 1, 1);
    }
  }

  /** The grid's day-of-week header starts on Sunday: 2026-10-16 is a Friday. */
  lemma KnownWeekday()
    ensures Weekday(Date(2026, 10, 16)) == 5
  {
    DaysBeforeYearFormula(2026);
    assert DaysBeforeYear(2026) == 739616;
    assert DaysBeforeMonth(2026, 10) == 273;
  }

  lemma ModSevenShift(n: int, k: int)
    ensures (n % 7 + k) % 7 == (n + k) % 7
  {
    var q := n / 7;
    assert n % 7 + k == (n + k) - 7 * q;
  }

  /** Day `d` of a month lands in the grid column of its own weekday. */
  lemma DayColumnIsWeekday(y: int, m: int, d: int)
    requires 1 <= m <= 12 && 1 <= d
    ensures (FirstDayOfMonth(y, m) + d - 1) % 7 == Weekday(Date(y, m, d))
  {
    var n := DayNumber(Date(y, m, 1)) + 1;
    assert DayNumber(Date(y, m, d)) + 1 == n + (d - 1);
    ModSevenShift(n, d - 1);
  }

  /** The day after `dt`: the next day of the month, or the first of the next month. */
  function NextDay(dt: Date): (r: Date)
    requires ValidDate(dt)
    ensures ValidDate(r) && DayNumber(r) == DayNumber(dt) + 1
  {
    if dt.day < DaysInMonth(dt.year, dt.month) then Date(dt.year, dt.month, dt.day + 1)
    else
      LastDayPrecedesNextMonth(dt.year, dt.month);
      MonthStart(dt.year, dt.month, 1)
  }

  /** `d.setDate(d.getDate() + n)`: the date `n` days later, carried across months and years. */
  function AddDays(dt: Date, n: nat): (r: Date)
    requires ValidDate(dt)
    ensures ValidDate(r) && DayNumber(r) == DayNumber(dt) + n
    decreases n
  {
    if n == 0 then dt else NextDay(AddDays(dt, n - 1))
  }

  // ---------------------------------------------------------------------
  // Month navigation

  /** `prevMonth` and `nextMonth` wrap across the new year and stay inside a year otherwise. */
  lemma MonthStartWraps(y: int, m: int)
    requires 1 <= m <= 12
    ensures MonthStart(y, 12, 1) == Date(y + 1, 1, 1)
    ensures MonthStart(y, 1, -1) == Date(y - 1, 12, 1)
    ensures m < 12 ==> MonthStart(y, m, 1) == Date(y, m + 1, 1)
    ensures m > 1 ==> MonthStart(y, m, -1) == Date(y, m - 1, 1)
  {
  }

  /** Going forward a month and back again returns to the first of the month. */
  lemma MonthStartInverse(y: int, m: int, delta: int)
    requires 1 <= m <= 12
    ensures MonthStart(MonthStart(y, m, delta).year, MonthStart(y, m, delta).month, -delta) == Date(y, m, 1)
  {
    var r := MonthStart(y, m, delta);
    var back := MonthStart(r.year, r.month, -delta);
    assert MonthIndex(back.year, back.month) == MonthIndex(y, m);
  }

  // ---------------------------------------------------------------------
  // Date strings

  /** `getLocalDateString`: the year, then the month and day padded to two digits. */
  function LocalDateString(dt: Date): (s: string)
    requires ValidDate(dt)
  {
    IntToString(dt.year) + "-" + PadStart2(dt.month as nat) + "-" + PadStart2(dt.day as nat)
  }

  /** Reads back a `Y-MM-DD` string; the inverse of LocalDateString. */
  function ParseDateString(s: string): (r: Option<Date>)
  {
    if |s| >= 7 && s[|s| - 6] == '-' && s[|s| - 3] == '-'
       && AllDigits(s[|s| - 5..|s| - 3]) && AllDigits(s[|s| - 2..])
    then
      match ParseInt(s[..|s| - 6])
      case Some(y) => Some(Date(y, ParseNat(s[|s| - 5..|s| - 3]), ParseNat(s[|s| - 2..])))
      case None => None
    else None
  }

  /** The three fields of `Y-MM-DD` sit at fixed offsets from the end of the string. */
  lemma DateStringFields(ys: string, ms: string, ds: string)
    requires |ms| == 2 && |ds| == 2
    ensures var s := ys + "-" + ms + "-" + ds;
      |s| == |ys| + 6 && s[|s| - 6] == '-' && s[|s| - 3] == '-'
      && s[..|s| - 6] == ys && s[|s| - 5..|s| - 3] == ms && s[|s| - 2..] == ds
  {
    var s := ys + "-" + ms + "-" + ds;
    assert s[..|s| - 6] == ys;
    assert s[|s| - 5..|s| - 3] == ms;
    assert s[|s| - 2..] == ds;
  }

  lemma ParseLocalDateString(dt: Date)
    requires ValidDate(dt)
    ensures ParseDateString(LocalDateString(dt)) == Some(dt)
  {
    var ys, ms, ds := IntToString(dt.year), PadStart2(dt.month as nat), PadStart2(dt.day as nat);
    DateStringFields(ys, ms, ds);
    ParseIntToString(dt.year);
    ParsePadStart2(dt.month as nat);
    ParsePadStart2(dt.day as nat);
  }

  /** Two days have the same string exactly when they are the same day. */
  lemma LocalDateStringInjective(a: Date, b: Date)
    requires ValidDate(a) && ValidDate(b)
    ensures LocalDateString(a) == LocalDateString(b) <==> a == b
  {
    ParseLocalDateString(a);
    ParseLocalDateString(b);
  }

  // ---------------------------------------------------------------------
  // The grid

  /** One grid cell: a blank before the first, or a day button (disabled when past). */
  datatype Cell =
    | Padding
    | DayButton(day: int, dateStr: string, isSelected: bool, isToday: bool, isPast: bool)

  /** The button for day `d`: selected when `selectedDate` is its string, marked
      when it is today, and past when its midnight is before today's. */
  function DayCell(y: int, m: int, d: int, selectedDate: string, today: Date): (c: Cell)
    requires ValidDate(Date(y, m, d)) && ValidDate(today)
    ensures c.DayButton? && c.day == d
  {
    var s := LocalDateString(Date(y, m, d));
    DayButton(d, s, selectedDate == s, LocalDateString(today) == s, DayNumber(Date(y, m, d)) < DayNumber(today))
  }

  /** What the flags of a day button mean on the calendar: its string names that day,
      it is today exactly when it is that date, and past exactly when it comes earlier;
      so today is never past. */
  lemma DayCellMeaning(y: int, m: int, d: int, selectedDate: string, today: Date)
    requires ValidDate(Date(y, m, d)) && ValidDate(today)
    ensures ParseDateString(DayCell(y, m, d, selectedDate, today).dateStr) == Some(Date(y, m, d))
    ensures DayCell(y, m, d, selectedDate, today).isSelected ==> ParseDateString(selectedDate) == Some(Date(y, m, d))
    ensures DayCell(y, m, d, selectedDate, today).isToday <==> today == Date(y, m, d)
    ensures DayCell(y, m, d, selectedDate, today).isPast <==> Before(Date(y, m, d), today)
    ensures DayCell(y, m, d, selectedDate, today).isToday ==> !DayCell(y, m, d, selectedDate, today).isPast
  {
    var dt := Date(y, m, d);
    ParseLocalDateString(dt);
    LocalDateStringInjective(dt, today);
    DayNumberOrder(dt, today);
  }

  /** The `onClick` of a cell: a date string handed to `onSetDate`, or nothing. */
  function Click(c: Cell): (r: Option<string>)
    ensures r.Some? <==> c.DayButton? && !c.isPast
  {
    if c.DayButton? && !c.isPast then Some(c.dateStr) else None
  }

  /** Clicking a day picks that very day, and only days from today on can be picked. */
  lemma ClickPicksThatDay(y: int, m: int, d: int, selectedDate: string, today: Date)
    requires ValidDate(Date(y, m, d)) && ValidDate(today)
    ensures Click(DayCell(y, m, d, selectedDate, today)).None? <==> Before(Date(y, m, d), today)
    ensures Click(DayCell(y, m, d, selectedDate, today)).Some? ==>
              ParseDateString(Click(DayCell(y, m, d, selectedDate, today)).value) == Some(Date(y, m, d))
    ensures Click(DayCell(y, m, today.day, selectedDate, today)).Some? <== today.year == y && today.month == m
  {
    DayCellMeaning(y, m, d, selectedDate, today);
    if today.year == y && today.month == m {
      DayCellMeaning(y, m, today.day, selectedDate, today);
    }
  }

  /** At most one day of a month shows as selected. */
  lemma AtMostOneSelected(y: int, m: int, d1: int, d2: int, selectedDate: string, today: Date)
    requires ValidDate(Date(y, m, d1)) && ValidDate(Date(y, m, d2)) && ValidDate(today)
    requires DayCell(y, m, d1, selectedDate, today).isSelected
    requires DayCell(y, m, d2, selectedDate, today).isSelected
    ensures d1 == d2
  {
    DayCellMeaning(y, m, d1, selectedDate, today);
    DayCellMeaning(y, m, d2, selectedDate, today);
  }

  /** The buttons for days 1 to `n` of a month, in order. */
  function DayCells(y: int, m: int, n: int, selectedDate: string, today: Date): (cs: seq<Cell>)
    requires 1 <= m <= 12 && 0 <= n <= DaysInMonth(y, m) && ValidDate(today)
    ensures |cs| == n
    decreases n
  {
    if n == 0 then [] else DayCells(y, m, n - 1, selectedDate, today) + [DayCell(y, m, n, selectedDate, today)]
  }

  /** The cells of the month grid: `startDay` blanks, then a button for every day. */
  function Grid(y: int, m: int, selectedDate: string, today: Date): seq<Cell>
    requires 1 <= m <= 12 && ValidDate(today)
  {
    seq(FirstDayOfMonth(y, m), _ => Padding) + DayCells(y, m, DaysInMonth(y, m), selectedDate, today)
  }

  lemma {:induction false} DayCellsAt(y: int, m: int, n: int, selectedDate: string, today: Date, d: int)
    requires 1 <= m <= 12 && 0 <= n <= DaysInMonth(y, m) && ValidDate(today)
    requires 1 <= d <= n
    ensures DayCells(y, m, n, selectedDate, today)[d - 1] == DayCell(y, m, d, selectedDate, today)
    decreases n
  {
    if d < n {
      DayCellsAt(y, m, n - 1, selectedDate, today, d);
    }
  }

  /** The grid holds as many blanks as the weekday of the first, then the buttons for
      days 1 to `daysInMonth` in order, so each day sits in its weekday's column. */
  lemma GridLayout(y: int, m: int, selectedDate: string, today: Date)
    requires 1 <= m <= 12 && ValidDate(today)
    ensures |Grid(y, m, selectedDate, today)| == FirstDayOfMonth(y, m) + DaysInMonth(y, m)
    ensures forall i :: 0 <= i < FirstDayOfMonth(y, m) ==> Grid(y, m, selectedDate, today)[i] == Padding
    ensures forall d :: 1 <= d <= DaysInMonth(y, m) ==>
              Grid(y, m, selectedDate, today)[FirstDayOfMonth(y, m) + d - 1] == DayCell(y, m, d, selectedDate, today)
  {
    var start, total := FirstDayOfMonth(y, m), DaysInMonth(y, m);
    var pad, days := seq(start, _ => Padding), DayCells(y, m, total, selectedDate, today);
    var g := Grid(y, m, selectedDate, today);
    assert g == pad + days;
    forall i | 0 <= i < start
      ensures g[i] == Padding
    {
      assert g[i] == pad[i];
    }
    forall d | 1 <= d <= total
      ensures g[start + d - 1] == DayCell(y, m, d, selectedDate, today)
    {
      assert g[start + d - 1] == days[d - 1];
      DayCellsAt(y, m, total, selectedDate, today, d);
    }
  }

  /** The two loops of the component: `startDay` blanks, then the buttons for days 1 to `totalDays`. */
  method BuildGrid(year: int, month: int, selectedDate: string, today: Date) returns (cells: seq<Cell>)
    requires 1 <= month <= 12 && ValidDate(today)
    ensures cells == Grid(year, month, selectedDate, today)
  {
    var totalDays := DaysInMonth(year, month);
    var startDay := FirstDayOfMonth(year, month);
    cells := [];
    for i := 0 to startDay
      invariant cells == seq(i, _ => Padding)
    {
      assert seq(i + 1, _ => Padding) == seq(i, _ => Padding) + [Padding];
      cells := cells + [Padding];
    }
    ghost var pad := cells;
    for d := 1 to totalDays + 1
      invariant cells == pad + DayCells(year, month, d - 1, selectedDate, today)
    {
      var cell := DayCell(year, month, d, selectedDate, today);
      assert DayCells(year, month, d, selectedDate, today) == DayCells(year, month, d - 1, selectedDate, today) + [cell];
      cells := cells + [cell];
    }
  }

  /** The month on display (`currentMonth`); only its year and month are read. */
  class CalendarState {
    var currentMonth: Date

    predicate Valid()
      reads this
    {
      ValidDate(currentMonth)
    }

    /** The picker opens on the month of the selected date. */
    constructor(selected: Date)
      requires ValidDate(selected)
      ensures Valid() && currentMonth == selected
    {
      currentMonth := selected;
    }

    /** `prevMonth`: the first of the month before. */
    method PrevMonth()
      requires Valid()
      modifies this
      ensures Valid()
      ensures currentMonth == MonthStart(old(currentMonth.year), old(currentMonth.month), -1)
      ensures MonthIndex(currentMonth.year, currentMonth.month) == MonthIndex(old(currentMonth.year), old(currentMonth.month)) - 1
    {
      currentMonth := MonthStart(currentMonth.year, currentMonth.month, -1);
    }

    /** `nextMonth`: the first of the month after. */
    method NextMonth()
      requires Valid()
      modifies this
      ensures Valid()
      ensures currentMonth == MonthStart(old(currentMonth.year), old(currentMonth.month), 1)
      ensures MonthIndex(currentMonth.year, currentMonth.month) == MonthIndex(old(currentMonth.year), old(currentMonth.month)) + 1
    {
      currentMonth := MonthStart(currentMonth.year, currentMonth.month, 1);
    }
  }
}
