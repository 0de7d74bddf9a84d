/**
 * The month calendar (src/components/CalendarView.jsx): the grid of whole
 * weeks around the shown month, which tasks and goals are shown on each day, how a
 * day is marked for its goals, and the month stepping.
 */
module CalendarView {
  import opened Wrappers
  import opened Calendar
  import opened Store

  // ---------------------------------------------------------------------------
  // The grid
  // ---------------------------------------------------------------------------

  /**
   * `eachDayOfInterval({ start: startOfWeek(first), end: endOfWeek(last) })`:
   * every day from the Sunday on or before `first` to the Saturday on or
   * after `last`. `first` and `last` are the month's first and last days.
   */
  function GridDays(first: Day, last: Day): (days: seq<Day>)
    requires first <= last
    ensures |days| > 0 && |days| % 7 == 0
    ensures Weekday(days[0]) == 0 && Weekday(days[|days| - 1]) == 6
    ensures forall k :: 0 <= k < |days| ==> days[k] == days[0] + k
    ensures days[0] <= first && last <= days[|days| - 1]
    ensures first - days[0] < 7 && days[|days| - 1] - last < 7
  {
    var start := first - Weekday(first);
    var end := last + 6 - Weekday(last);
    seq(end - start + 1, k => start + k)
  }

  /** The shown month's grid covers every day of that month, and holds at most six weeks. */
  lemma GridCoversMonth(y: int, m: int)
    requires 1 <= m <= 12
    ensures var days := GridDays(MonthStart(y, m), MonthEnd(y, m));
      && (forall d :: 1 <= d <= DaysInMonth(y, m) ==> DayOfDate(y, m, d) in days)
      && 28 <= |days| <= 42
  {
    MonthEndIsLastDate(y, m);
    var days := GridDays(MonthStart(y, m), MonthEnd(y, m));
    forall d | 1 <= d <= DaysInMonth(y, m) ensures DayOfDate(y, m, d) in days {
      assert days[DayOfDate(y, m, d) - days[0]] == DayOfDate(y, m, d);
    }
  }

  /** `Math.ceil(days.length / 7)`: the grid's rows. */
  function NumWeeks(days: seq<Day>): (n: nat)
    requires |days| % 7 == 0
    ensures 7 * n == |days|
  {
    |days| / 7
  }

  // ---------------------------------------------------------------------------
  // What a day shows
  // ---------------------------------------------------------------------------

  /**
   * `getActiveGoalsForDay(day)`: the goals whose span contains the day's
   * midnight, comparing against the raw start instant and the same time of
   * day `durationDays` later, both ends included. A goal started after
   * midnight is therefore not yet active on its own first day.
   */
  function ActiveGoalsForDay(goals: seq<Goal>, day: Day): (r: seq<Goal>)
    ensures |r| <= |goals|
    ensures forall g :: g in r <==>
      g in goals && AtOrBefore(g.startDate, Instant(day, 0))
      && AtOrBefore(Instant(day, 0), AddDays(g.startDate, g.durationDays))
  {
    if goals == [] then []
    else
      var g := goals[0];
      var active := AtOrBefore(g.startDate, Instant(day, 0))
        && AtOrBefore(Instant(day, 0), AddDays(g.startDate, g.durationDays));
      (if active then [g] else []) + ActiveGoalsForDay(goals[1..], day)
  }

  /** In day terms: a goal is active from the day after its start (or its start day, if it began at midnight) through start + durationDays. */
  lemma ActiveGoalDays(goals: seq<Goal>, day: Day, g: Goal)
    requires g in goals
    ensures g in ActiveGoalsForDay(goals, day) <==>
      (g.startDate.day < day || (g.startDate.day == day && g.startDate.ms == 0))
      && day <= g.startDate.day + g.durationDays
  {
  }

  /** `isGoalCheckedForDay(goal, day)`. */
  function IsGoalCheckedForDay(g: Goal, day: Day): (b: bool)
    ensures g.progress.None? ==> !b
    ensures b <==> g.progress.Some? && DateStr(day) in g.progress.value
  {
    DateStr(day) in CheckIns(g)
  }

  /**
   * `isGoalMissedForDay(goal, day)`: on or after the goal's start day, before
   * today, and not checked in; all three compared at midnight.
   */
  function IsGoalMissedForDay(g: Goal, day: Day, today: Day): (b: bool)
    ensures b ==> g.startDate.day <= day < today
    ensures b ==> !IsGoalCheckedForDay(g, day)
  {
    && AtOrBefore(StartOfDay(g.startDate), Instant(day, 0))
    && Before(Instant(day, 0), Instant(today, 0))
    && !IsGoalCheckedForDay(g, day)
  }

  /** Missed means: from the start day, strictly before today, not checked in. */
  lemma MissedDays(g: Goal, day: Day, today: Day)
    ensures IsGoalMissedForDay(g, day, today) <==>
      g.startDate.day <= day < today && DateStr(day) !in CheckIns(g)
  {
  }

  /** A day is never both checked and missed for the same goal, and today and later are never missed. */
  lemma CheckedAndMissedExclusive(g: Goal, day: Day, today: Day)
    ensures !(IsGoalCheckedForDay(g, day) && IsGoalMissedForDay(g, day, today))
    ensures day >= today ==> !IsGoalMissedForDay(g, day, today)
  {
  }

  /** `activeGoals.some(g => isGoalMissedForDay(g, day))`. */
  function HasMissedGoal(goals: seq<Goal>, day: Day, today: Day): (b: bool)
    ensures day >= today ==> !b
    ensures b ==> exists g :: g in goals && g.startDate.day <= day && DateStr(day) !in CheckIns(g)
  {
    exists g :: g in ActiveGoalsForDay(goals, day) && IsGoalMissedForDay(g, day, today)
  }

  /** `activeGoals.some(g => isGoalCheckedForDay(g, day))`. */
  function HasCheckedGoal(goals: seq<Goal>, day: Day): (b: bool)
    ensures goals == [] ==> !b
    ensures b ==> exists g :: g in goals && DateStr(day) in CheckIns(g)
  {
    exists g :: g in ActiveGoalsForDay(goals, day) && IsGoalCheckedForDay(g, day)
  }

  /** The cell's background and border tint. */
  datatype Tint = MissedTint | CheckedTint | TodayTint | PlainTint

  /** Background: a missed goal wins over a checked one, which wins over "today". */
  function CellBackground(hasMissed: bool, hasChecked: bool, isToday: bool): (t: Tint)
    ensures t == MissedTint <==> hasMissed
    ensures t == CheckedTint <==> !hasMissed && hasChecked
    ensures t == TodayTint <==> !hasMissed && !hasChecked && isToday
  {
    if hasMissed then MissedTint
    else if hasChecked then CheckedTint
    else if isToday then TodayTint
    else PlainTint
  }

  /** Border: "today" wins over a missed goal, which wins over a checked one. */
  function CellBorder(hasMissed: bool, hasChecked: bool, isToday: bool): (t: Tint)
    ensures t == TodayTint <==> isToday
    ensures t == MissedTint <==> !isToday && hasMissed
    ensures t == CheckedTint <==> !isToday && !hasMissed && hasChecked
  {
    if isToday then TodayTint
    else if hasMissed then MissedTint
    else if hasChecked then CheckedTint
    else PlainTint
  }

  /** Today's cell is never tinted as missed: with only today's goals to judge, it shows today or checked. */
  lemma TodayCellNeverMissed(goals: seq<Goal>, today: Day)
    ensures !HasMissedGoal(goals, today, today)
    ensures CellBackground(HasMissedGoal(goals, today, today), HasCheckedGoal(goals, today), true) != MissedTint
  {
  }

  /** The goal marker: a check when any active goal is checked in, else a cross when one is missed. */
  datatype Marker = CheckMark | CrossMark | NoMark

  function GoalMarker(hasMissed: bool, hasChecked: bool): (mark: Marker)
    ensures mark == CheckMark <==> hasChecked
    ensures mark == CrossMark <==> !hasChecked && hasMissed
  {
    if hasChecked then CheckMark else if hasMissed then CrossMark else NoMark
  }

  /**
   * The preview of a day's tasks: `dayTasks.slice(0, 2)` and, beyond two, a "+k" note
   * with `k = dayTasks.length - 2`.
   */
  function TaskPreview(dayTasks: seq<Task>): (r: (seq<Task>, Option<nat>))
    ensures |r.0| <= 2 && r.0 <= dayTasks
    ensures r.1.None? <==> |dayTasks| <= 2
    ensures r.1.None? ==> r.0 == dayTasks
    ensures r.1.Some? ==> |r.0| + r.1.value == |dayTasks| && r.1.value >= 1
  {
    if |dayTasks| > 2 then (dayTasks[..2], Some(|dayTasks| - 2)) else (dayTasks, None)
  }

  /** A cell's content: its tasks (in list order), its active goals, its marks. */
  datatype Cell = Cell(
    day: Day,
    inMonth: bool,
    isToday: bool,
    tasks: seq<Task>,
    activeGoals: seq<Goal>,
    background: Tint,
    border: Tint,
    marker: Marker)

  /** One cell of the grid for `day`, in the month running from `first` to `last`. */
  function CellFor(tasks: seq<Task>, goals: seq<Goal>, day: Day, first: Day, last: Day, today: Day): (c: Cell)
    ensures c.day == day && (c.inMonth <==> first <= day <= last) && (c.isToday <==> day == today)
    ensures forall t :: t in c.tasks <==> t in tasks && t.date.day == day
    ensures c.background == MissedTint ==> day < today
    ensures c.marker == CheckMark ==> exists g :: g in c.activeGoals && DateStr(day) in CheckIns(g)
  {
    var hasMissed := HasMissedGoal(goals, day, today);
    var hasChecked := HasCheckedGoal(goals, day);
    Cell(day, first <= day <= last, day == today, TasksOn(tasks, day), ActiveGoalsForDay(goals, day),
      CellBackground(hasMissed, hasChecked, day == today),
      CellBorder(hasMissed, hasChecked, day == today),
      GoalMarker(hasMissed, hasChecked))
  }

  // ---------------------------------------------------------------------------
  // Month stepping
  // ---------------------------------------------------------------------------

  /** `addMonths(currentDate, 1)`: no upper limit, unlike the analytics selector. */
  function NextMonth(current: DateTime): (r: DateTime)
    requires ValidDateTime(current)
    ensures ValidDateTime(r) && MonthIndex(r) == MonthIndex(current) + 1
  {
    AddMonths(current, 1)
  }

  /** `subMonths(currentDate, 1)`. */
  function PrevMonth(current: DateTime): (r: DateTime)
    requires ValidDateTime(current)
    ensures ValidDateTime(r) && MonthIndex(r) == MonthIndex(current) - 1
  {
    AddMonths(current, -1)
  }

  /** Stepping forward then back returns to the same month, on a day no later than the start. */
  lemma NextThenPrevSameMonth(current: DateTime)
    requires ValidDateTime(current)
    ensures var back := PrevMonth(NextMonth(current));
      MonthIndex(back) == MonthIndex(current) && back.year == current.year && back.month == current.month
      && back.dayOfMonth <= current.dayOfMonth
  {
    var back := PrevMonth(NextMonth(current));
    assert back.year * 12 + back.month == current.year * 12 + current.month;
  }
}
