/**
 * The routine tracker (src/components/RoutinePage.jsx): a seven-day window
 * of check boxes per routine, stepped a week at a time and never past today,
 * today's completion figure, and the add-routine form.
 */
module RoutinePage {
  import opened Wrappers
  import opened Text
  import opened Calendar
  import opened Store
  import opened Percent

  /** A column of the week: its instant, its key, its weekday, and whether it is today or later than now. */
  datatype Column = Column(date: Instant, dateStr: string, dayName: string, isToday: bool, isFuture: bool)

  /**
   * `getDates()`: seven consecutive days from `startDate`, each at the start
   * date's time of day. "Today" compares the date keys; "future" compares
   * instants with now.
   */
  method GetDates(startDate: Instant, now: Instant) returns (dates: seq<Column>)
    ensures |dates| == 7
    ensures forall k :: 0 <= k < 7 ==>
      && dates[k].date == AddDays(startDate, k)
      && dates[k].dateStr == DateStr(startDate.day + k)
      && dates[k].dayName == WeekdayName(startDate.day + k)
      && (dates[k].isToday <==> startDate.day + k == now.day)
      && (dates[k].isFuture <==> Before(now, AddDays(startDate, k)))
  {
    dates := [];
    var i := 0;
    while i < 7
      invariant 0 <= i <= 7
      invariant |dates| == i
      invariant forall k :: 0 <= k < i ==>
        && dates[k].date == AddDays(startDate, k)
        && dates[k].dateStr == DateStr(startDate.day + k)
        && dates[k].dayName == WeekdayName(startDate.day + k)
        && (dates[k].isToday <==> startDate.day + k == now.day)
        && (dates[k].isFuture <==> Before(now, AddDays(startDate, k)))
    {
      var date := AddDays(startDate, i);
      DateStrInjective(date.day, now.day);
      dates := dates + [Column(date, DateStr(date.day), WeekdayName(date.day),
                               DateStr(date.day) == DateStr(now.day), Before(now, date))];
      i := i + 1;
    }
  }

  /** While the window starts no later in the day than now, today's column is never "future". */
  lemma TodayColumnNotFuture(startDate: Instant, now: Instant, k: int)
    requires 0 <= k < 7 && startDate.day + k == now.day && startDate.ms <= now.ms
    ensures !Before(now, AddDays(startDate, k))
  {
  }

  /**
   * The window keeps the time of day it was opened at, so a window started
   * late in the day can show today's column as "future": opened at 23:00 on
   * day 9 (start day 3, 23:00) and stepped on at 01:00 on day 11, the next
   * week is allowed and its second column is today, yet later than now, so
   * its check box does not react.
   */
  lemma TodayColumnCanBeFuture()
    ensures var start := Instant(3, 23 * HourMs);
      var now := Instant(11, HourMs);
      var next := AddDays(start, 7);
      && AtOrBefore(next, now)
      && next.day + 1 == now.day
      && Before(now, AddDays(next, 1))
      && CellClick("r", Column(AddDays(next, 1), DateStr(now.day), WeekdayName(now.day), true, true), now).None?
  {
  }

  /** `isChecked(routineId, dateStr)`: false when the date has no entry. */
  function IsChecked(checks: map<string, seq<string>>, routineId: string, dateStr: string): (b: bool)
    ensures dateStr !in checks ==> !b
    ensures b <==> dateStr in checks && routineId in checks[dateStr]
  {
    routineId in ChecksOn(checks, dateStr)
  }

  /** A check box click: `!d.isFuture && toggleRoutineCheck(routine.id, d.dateStr)`. */
  function CellClick(routineId: string, column: Column, now: Instant): (a: Option<Action>)
    ensures a.None? <==> column.isFuture
    ensures a.Some? ==> a.value == ToggleRoutineCheck(routineId, column.dateStr)
  {
    if column.isFuture then None else Some(RoutineCheckAction(routineId, Some(DateKey(column.dateStr)), now))
  }

  /** Clicking a past or present box flips exactly that box and no other. */
  lemma CellClickFlips(s: State, routineId: string, column: Column, now: Instant)
    requires !column.isFuture
    ensures var s' := AppReducer(s, CellClick(routineId, column, now).value);
      && (IsChecked(s'.routineChecks, routineId, column.dateStr) <==> !IsChecked(s.routineChecks, routineId, column.dateStr))
      && (forall d :: d != column.dateStr ==> ChecksOn(s'.routineChecks, d) == ChecksOn(s.routineChecks, d))
      && (forall other :: other != routineId ==>
            (IsChecked(s'.routineChecks, other, column.dateStr) <==> IsChecked(s.routineChecks, other, column.dateStr)))
  {
    var s' := AppReducer(s, CellClick(routineId, column, now).value);
    assert s'.routineChecks == ToggleCheck(s.routineChecks, routineId, column.dateStr);
  }

  /**
   * Today's figure: the length of today's check list over the number of
   * routines, rounded; 0 without routines. Checks left behind by deleted
   * routines still count.
   */
  function TodayProgress(routines: seq<Routine>, checks: map<string, seq<string>>, now: Instant): (p: int)
    ensures routines == [] ==> p == 0
    ensures routines != [] ==>
      var done, total := |ChecksOn(checks, DateStr(now.day))|, |routines|;
      200 * done - total < 2 * total * p <= 200 * done + total
  {
    var completedToday := |ChecksOn(checks, DateStr(now.day))|;
    if |routines| > 0 then RoundDiv(100 * completedToday, |routines|) else 0
  }

  /** With no more checks than routines the figure is a percentage. */
  lemma TodayProgressInRange(routines: seq<Routine>, checks: map<string, seq<string>>, now: Instant)
    requires |ChecksOn(checks, DateStr(now.day))| <= |routines|
    ensures 0 <= TodayProgress(routines, checks, now) <= 100
  {
    if routines != [] {
      RoundedShareInRange(|ChecksOn(checks, DateStr(now.day))|, |routines|);
    }
  }

  /** Deleting a routine after checking it leaves its check behind: one routine, two checks, 200%. */
  lemma ProgressAfterDeletionCanExceedHundred(now: Instant)
    ensures var s := State([], [], [Routine("a", "Read", now), Routine("b", "Walk", now)],
                           map[DateStr(now.day) := ["a", "b"]], User("", None), false,
                           DefaultNotificationSettings, false, None);
      TodayProgress(AppReducer(s, DeleteRoutine("b")).routines, AppReducer(s, DeleteRoutine("b")).routineChecks, now) == 200
  {
    var s := State([], [], [Routine("a", "Read", now), Routine("b", "Walk", now)],
                   map[DateStr(now.day) := ["a", "b"]], User("", None), false,
                   DefaultNotificationSettings, false, None);
    var s' := AppReducer(s, DeleteRoutine("b"));
    assert s'.routines == RemoveWhere(s.routines, RoutineId, "b");
    assert RemoveWhere(s.routines, RoutineId, "b") == [Routine("a", "Read", now)];
    assert ChecksOn(s'.routineChecks, DateStr(now.day)) == ["a", "b"];
  }

  /** `handleAddRoutine`: a blank title does nothing; otherwise the trimmed title is added and the form cleared and closed. */
  datatype RoutineForm = RoutineForm(text: string, open: bool)

  function HandleAddRoutine(form: RoutineForm, id: string, now: Instant): (r: (Option<Action>, RoutineForm))
    ensures r.0.None? <==> AllWhitespace(form.text)
    ensures r.0.None? ==> r.1 == form
    ensures r.0.Some? ==>
      && r.0.value == AddRoutine(Routine(id, Trim(form.text), now))
      && r.0.value.routine.title != []
      && r.1 == RoutineForm("", false)
  {
    TrimEmptyIffBlank(form.text);
    if Trim(form.text) == [] then (None, form)
    else (Some(AddRoutine(NewRoutine(id, Trim(form.text), now))), RoutineForm("", false))
  }

  // ---------------------------------------------------------------------------
  // Week navigation
  // ---------------------------------------------------------------------------

  /** `startDate` state: the first column of the shown week. */
  class WeekWindow {
    var startDate: Instant

    /** The window never starts later than now. */
    ghost predicate StartsBy(now: Instant)
      reads this
    {
      ValidInstant(startDate) && AtOrBefore(startDate, now)
    }

    /** The initial window ends today: `subDays(today, 6)`. */
    constructor (now: Instant)
      requires ValidInstant(now)
      ensures startDate == AddDays(now, -6) && StartsBy(now)
    {
      startDate := AddDays(now, -6);
    }

    /** `canGoNext`: a week later still starts no later than now. */
    function CanGoNext(now: Instant): (b: bool)
      reads this
      ensures b <==> startDate.day + 7 < now.day || (startDate.day + 7 == now.day && startDate.ms <= now.ms)
    {
      AtOrBefore(AddDays(startDate, 7), now)
    }

    /** `handlePrevWeek`: seven days back, always. */
    method PrevWeek(now: Instant)
      requires StartsBy(now)
      modifies this
      ensures startDate == AddDays(old(startDate), -7) && StartsBy(now)
    {
      startDate := AddDays(startDate, -7);
    }

    /** `handleNextWeek`: seven days on, exactly when `canGoNext` allows it. */
    method NextWeek(now: Instant)
      requires StartsBy(now)
      modifies this
      ensures StartsBy(now)
      ensures old(CanGoNext(now)) ==> startDate == AddDays(old(startDate), 7)
      ensures !old(CanGoNext(now)) ==> startDate == old(startDate)
    {
      var nextStart := AddDays(startDate, 7);
      if AtOrBefore(nextStart, now) {
        startDate := nextStart;
      }
    }

    /**
     * When the next button is disabled, today lies within the shown week, or
     * just past it when today's time is earlier than the window's.
     */
    lemma AtLatestWeekTodayShown(now: Instant)
      requires StartsBy(now) && !CanGoNext(now)
      ensures startDate.day <= now.day <= startDate.day + 7
      ensures startDate.ms <= now.ms ==> now.day <= startDate.day + 6
    {
    }
  }
}
