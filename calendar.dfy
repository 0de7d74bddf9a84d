/**
 * The calendar the pages work with, in place of date-fns and `Date`.
 *
 * A calendar day is an integer day index in local time (day 0 is
 * 1970-01-01, a Thursday); a moment is a day plus the milliseconds since
 * local midnight. The "yyyy-MM-dd" rendering used as a key for check-ins is
 * abstracted by `DateStr`, which is only ever compared for equality, so all
 * that matters about it is that distinct days get distinct strings.
 */
module Calendar {
  import Text

  const DayMs: nat := 86400000
  const HourMs: nat := 3600000

  type Day = int

  /** A local date-time: a calendar day and the milliseconds since its midnight. */
  datatype Instant = Instant(day: Day, ms: nat)

  predicate ValidInstant(t: Instant) {
    t.ms < DayMs
  }

  /** Milliseconds since the epoch (`Date.prototype.getTime`, time zones aside). */
  function Millis(t: Instant): int {
    t.day * DayMs + t.ms
  }

  /** `a <= b` on two `Date` objects. */
  predicate AtOrBefore(a: Instant, b: Instant) {
    a.day < b.day || (a.day == b.day && a.ms <= b.ms)
  }

  /** `a < b` on two `Date` objects. */
  predicate Before(a: Instant, b: Instant) {
    a.day < b.day || (a.day == b.day && a.ms < b.ms)
  }

  /** On valid moments the field-wise order is the order of the timestamps. */
  lemma AtOrBeforeIsMillisOrder(a: Instant, b: Instant)
    requires ValidInstant(a) && ValidInstant(b)
    ensures AtOrBefore(a, b) <==> Millis(a) <= Millis(b)
    ensures Before(a, b) <==> Millis(a) < Millis(b)
  {
    if a.day < b.day {
      assert Millis(a) < (a.day + 1) * DayMs <= b.day * DayMs <= Millis(b);
    } else if a.day > b.day {
      assert Millis(b) < (b.day + 1) * DayMs <= a.day * DayMs <= Millis(a);
    }
  }

  /** date-fns `addDays`/`subDays`: same time of day, `n` calendar days later. */
  function AddDays(t: Instant, n: int): (r: Instant)
    ensures r.day == t.day + n && r.ms == t.ms
  {
    Instant(t.day + n, t.ms)
  }

  /** `setHours(0, 0, 0, 0)` / date-fns `startOfDay`. */
  function StartOfDay(t: Instant): (r: Instant)
    ensures r.day == t.day && r.ms == 0 && AtOrBefore(r, t)
  {
    Instant(t.day, 0)
  }

  /** `getHours()`. */
  function Hour(t: Instant): (h: nat)
    requires ValidInstant(t)
    ensures h < 24
  {
    t.ms / HourMs
  }

  /** `getDay()`: 0 is Sunday, 6 is Saturday. */
  function Weekday(d: Day): (w: nat)
    ensures w < 7
  {
    (d + 4) % 7
  }

  lemma WeekdayNext(d: Day)
    ensures Weekday(d + 1) == (Weekday(d) + 1) % 7
  {
  }

  const WeekdayNames: seq<string> := ["Sun", "Mon", "Tue", "Wed", "Thu", "Fri", "Sat"]

  /** `days[date.getDay()]` and `format(date, 'EEE')`. */
  function WeekdayName(d: Day): string {
    WeekdayNames[Weekday(d)]
  }

  /** `format(day, 'yyyy-MM-dd')`, abstracted as an injective rendering of the day. */
  function DateStr(d: Day): string {
    Text.IntToString(d)
  }

  lemma DateStrInjective(a: Day, b: Day)
    ensures DateStr(a) == DateStr(b) <==> a == b
  {
    Text.IntToStringInjective(a, b);
  }

  // ---------------------------------------------------------------------------
  // Months
  // ---------------------------------------------------------------------------

  predicate IsLeapYear(y: int) {
    y % 4 == 0 && (y % 100 != 0 || y % 400 == 0)
  }

  /** Days in month `m` (1-12) of year `y` in the Gregorian calendar. */
  function DaysInMonth(y: int, m: int): (n: nat)
    requires 1 <= m <= 12
    ensures 28 <= n <= 31
  {
    if m == 2 then (if IsLeapYear(y) then 29 else 28)
    else if m == 4 || m == 6 || m == 9 || m == 11 then 30
    else 31
  }

  /** The day index of the Gregorian date `y`-`m`-`d` (days since 1970-01-01). */
  function DayOfDate(y: int, m: int, d: int): Day
    requires 1 <= m <= 12
  {
    var y' := if m <= 2 then y - 1 else y;
    var era := y' / 400;
    var yoe := y' - era * 400;
    var mp := if m > 2 then m - 3 else m + 9;
    var doy := (153 * mp + 2) / 5 + d - 1;
    var doe := yoe * 365 + yoe / 4 - yoe / 100 + doy;
    era * 146097 + doe - 719468
  }

  lemma DayOfDateNext(y: int, m: int, d: int)
    requires 1 <= m <= 12
    ensures DayOfDate(y, m, d + 1) == DayOfDate(y, m, d) + 1
  {
  }

  /** `startOfMonth`: the first day of month `m` of year `y`. */
  function MonthStart(y: int, m: int): Day
    requires 1 <= m <= 12
  {
    DayOfDate(y, m, 1)
  }

  /** `endOfMonth`, as a day: the month's days are `MonthStart .. MonthEnd`. */
  function MonthEnd(y: int, m: int): Day
    requires 1 <= m <= 12
  {
    MonthStart(y, m) + DaysInMonth(y, m) - 1
  }

  /** The month's days run without gaps from its 1st to its last date. */
  lemma MonthEndIsLastDate(y: int, m: int)
    requires 1 <= m <= 12
    ensures MonthEnd(y, m) == DayOfDate(y, m, DaysInMonth(y, m))
    ensures forall d :: 1 <= d <= DaysInMonth(y, m) ==> DayOfDate(y, m, d) == MonthStart(y, m) + d - 1
  {
    var n := DaysInMonth(y, m);
    var d := 1;
    while d < n
      invariant 1 <= d <= n
      invariant forall e :: 1 <= e <= d ==> DayOfDate(y, m, e) == MonthStart(y, m) + e - 1
    {
      DayOfDateNext(y, m, d);
      d := d + 1;
    }
  }

  /** A `Date` seen through its calendar fields: year, month 1-12, day of month, time of day. */
  datatype DateTime = DateTime(year: int, month: int, dayOfMonth: int, ms: nat)

  predicate ValidDateTime(t: DateTime) {
    1 <= t.month <= 12 && 1 <= t.dayOfMonth <= DaysInMonth(t.year, t.month) && t.ms < DayMs
  }

  /** Months counted from year 0: the order in which months follow each other. */
  function MonthIndex(t: DateTime): int {
    t.year * 12 + (t.month - 1)
  }

  function ToInstant(t: DateTime): Instant
    requires 1 <= t.month <= 12
  {
    Instant(DayOfDate(t.year, t.month, t.dayOfMonth), t.ms)
  }

  /** `a <= b` on two valid `Date` objects: calendar fields compared in order. */
  predicate DateTimeAtOrBefore(a: DateTime, b: DateTime) {
    MonthIndex(a) < MonthIndex(b)
    || (MonthIndex(a) == MonthIndex(b)
        && (a.dayOfMonth < b.dayOfMonth || (a.dayOfMonth == b.dayOfMonth && a.ms <= b.ms)))
  }

  /**
   * date-fns `addMonths` (and `subMonths` with a negative `n`): the same time of
   * day in the month `n` months later, with the day of month clamped to that
   * month's last day.
   */
  function AddMonths(t: DateTime, n: int): (r: DateTime)
    requires ValidDateTime(t)
    ensures ValidDateTime(r)
    ensures MonthIndex(r) == MonthIndex(t) + n && r.ms == t.ms
    ensures r.dayOfMonth <= t.dayOfMonth
    ensures t.dayOfMonth <= DaysInMonth(r.year, r.month) ==> r.dayOfMonth == t.dayOfMonth
    ensures t.dayOfMonth > DaysInMonth(r.year, r.month) ==> r.dayOfMonth == DaysInMonth(r.year, r.month)
  {
    var idx := MonthIndex(t) + n;
    var y := idx / 12;
    var m := idx % 12 + 1;
    var last := DaysInMonth(y, m);
    DateTime(y, m, if t.dayOfMonth <= last then t.dayOfMonth else last, t.ms)
  }
}
