/**
 * The dashboard (src/components/Dashboard.jsx): the greeting, today's task
 * progress and its pie, the seven-day activity bars, and the card of the most
 * recently added goal.
 */
module Dashboard {
  import opened Wrappers
  import opened Text
  import opened Calendar
  import opened Store
  import opened Percent
  import Notifications
  import Analytics
  import GoalsPage

  /** `getGreeting()` for the current hour. */
  function GetGreeting(hour: nat): (greeting: string)
    ensures greeting == "Good Morning" <==> hour < 12
    ensures greeting == "Good Afternoon" <==> 12 <= hour < 17
    ensures greeting == "Good Evening" <==> 17 <= hour
  {
    if hour < 12 then "Good Morning"
    else if hour < 17 then "Good Afternoon"
    else "Good Evening"
  }

  /** The greeting follows the same hour buckets as the notification texts. */
  lemma GreetingAgreesWithTimeOfDay(hour: nat)
    ensures GetGreeting(hour) == "Good Morning" <==> Notifications.GetTimeOfDay(hour) == Notifications.Morning
    ensures GetGreeting(hour) == "Good Afternoon" <==> Notifications.GetTimeOfDay(hour) == Notifications.Afternoon
    ensures GetGreeting(hour) == "Good Evening" <==> Notifications.GetTimeOfDay(hour) == Notifications.Evening
  {
  }

  /** `user?.name || 'user'`: an empty name shows as "user". */
  function DisplayName(u: User): (name: string)
    ensures name != []
    ensures u.name != [] ==> name == u.name
    ensures u.name == [] ==> name == "user"
  {
    if u.name == [] then "user" else u.name
  }

  // ---------------------------------------------------------------------------
  // Today's progress
  // ---------------------------------------------------------------------------

  /** `(done / total) * 100` on exact reals. */
  function Share(done: nat, total: nat): (p: real)
    requires done <= total && total > 0
    ensures 0.0 <= p <= 100.0
    ensures p * total as real == 100.0 * done as real
  {
    (done as real / total as real) * 100.0
  }

  /** `(completedToday / todayTasks.length) * 100`, or 0 without tasks today. */
  function Progress(todayTasks: seq<Task>): (p: real)
    ensures 0.0 <= p <= 100.0
    ensures todayTasks == [] ==> p == 0.0
    ensures todayTasks != [] ==> p == Share(CompletedCount(todayTasks), |todayTasks|)
  {
    if |todayTasks| > 0 then Share(CompletedCount(todayTasks), |todayTasks|) else 0.0
  }

  /** `Math.round(progress)`, the figure in the ring. */
  function ShownProgress(todayTasks: seq<Task>): (n: int)
    ensures 0 <= n <= 100
    ensures todayTasks == [] ==> n == 0
    ensures todayTasks != [] ==>
      var total, done := |todayTasks|, CompletedCount(todayTasks);
      200 * done - total < 2 * total * n <= 200 * done + total
    ensures todayTasks != [] && CompletedCount(todayTasks) == |todayTasks| ==> n == 100
  {
    if |todayTasks| > 0 then
      var total, done := |todayTasks|, CompletedCount(todayTasks);
      RoundedShareInRange(done, total);
      RoundedShareExtremes(done, total);
      RoundDiv(100 * done, total)
    else 0
  }

  datatype Slice = Slice(name: string, value: int)

  /**
   * `safePieData`: a single "No Tasks" slice on a day without tasks,
   * otherwise the completed and remaining slices, which add up to the day's
   * task count.
   */
  function PieData(todayTasks: seq<Task>): (slices: seq<Slice>)
    ensures todayTasks == [] ==> slices == [Slice("No Tasks", 1)]
    ensures todayTasks != [] ==>
      && |slices| == 2
      && slices[0] == Slice("Completed", CompletedCount(todayTasks))
      && slices[1] == Slice("Remaining", PendingCount(todayTasks))
      && slices[0].value + slices[1].value == |todayTasks|
      && slices[1].value >= 0
  {
    var done := CompletedCount(todayTasks);
    var rest := |todayTasks| - done;
    if |todayTasks| == 0 then [Slice("No Tasks", 1)]
    else [Slice("Completed", done), Slice("Remaining", if rest > 0 then rest else 0)]
  }

  /** The line under the greeting. */
  function Subtitle(todayTasks: seq<Task>): (line: string)
    ensures PendingCount(todayTasks) > 0 ==>
      line == "You have " + IntToString(PendingCount(todayTasks)) + " tasks remaining today. Stay focused!"
    ensures PendingCount(todayTasks) == 0 && todayTasks != [] ==>
      line == "Great job! You've completed all tasks for today! ðŸŽ‰"
    ensures todayTasks == [] ==> line == "No tasks for today. Add one to get started!"
  {
    var remaining := |todayTasks| - CompletedCount(todayTasks);
    if remaining > 0 then "You have " + IntToString(remaining) + " tasks remaining today. Stay focused!"
    else if |todayTasks| > 0 then "Great job! You've completed all tasks for today! ðŸŽ‰"
    else "No tasks for today. Add one to get started!"
  }

  // ---------------------------------------------------------------------------
  // Activity bars
  // ---------------------------------------------------------------------------

  /** A bar: `{ name, tasks: completedCount, total }`. */
  datatype Activity = Activity(name: string, tasks: nat, total: nat)

  /** `getActivityData()`: the last seven days, oldest first, done over total. */
  method GetActivityData(tasks: seq<Task>, today: Day) returns (data: seq<Activity>)
    ensures |data| == 7
    ensures forall k :: 0 <= k < 7 ==>
      && data[k].name == WeekdayName(today - 6 + k)
      && data[k].total == |TasksOn(tasks, today - 6 + k)|
      && data[k].tasks == CompletedCount(TasksOn(tasks, today - 6 + k))
      && data[k].tasks <= data[k].total
  {
    data := [];
    var i := 6;
    while i >= 0
      invariant -1 <= i <= 6
      invariant |data| == 6 - i
      invariant forall k :: 0 <= k < |data| ==>
        && data[k].name == WeekdayName(today - 6 + k)
        && data[k].total == |TasksOn(tasks, today - 6 + k)|
        && data[k].tasks == CompletedCount(TasksOn(tasks, today - 6 + k))
        && data[k].tasks <= data[k].total
    {
      var date := today - i;
      var dayTasks := TasksOn(tasks, date);
      data := data + [Activity(WeekdayName(date), CompletedCount(dayTasks), |dayTasks|)];
      i := i - 1;
    }
  }

  /** The dashboard's bars count the same days and tasks as the analytics page's weekly chart. */
  lemma ActivityAgreesWithWeeklyChart(tasks: seq<Task>, today: Day, data: seq<Activity>, k: int)
    requires |data| == 7 && 0 <= k < 7
    requires data[k].name == WeekdayName(today - 6 + k)
    requires data[k].total == |TasksOn(tasks, today - 6 + k)|
    requires data[k].tasks == CompletedCount(TasksOn(tasks, today - 6 + k))
    ensures var b := Analytics.WeekBucket(tasks, today - 6 + k);
      b.name == data[k].name && b.completed == data[k].tasks && b.total == data[k].total
  {
  }

  // ---------------------------------------------------------------------------
  // The goal card
  // ---------------------------------------------------------------------------

  /** `activeGoal`: the goal added last, or none. */
  function ActiveGoal(goals: seq<Goal>): (g: Option<Goal>)
    ensures g.None? <==> goals == []
    ensures g.Some? ==> g.value == goals[|goals| - 1]
  {
    if |goals| > 0 then Some(goals[|goals| - 1]) else None
  }

  /** Adding a goal makes it the dashboard's goal. */
  lemma AddedGoalBecomesActive(s: State, g: Goal)
    ensures ActiveGoal(AppReducer(s, AddGoal(g)).goals) == Some(g)
  {
  }

  datatype GoalInfo = GoalInfo(currentDay: int, endDate: Instant, isCheckedToday: bool, totalChecked: nat, streakPercent: int)

  /**
   * `getGoalInfo(goal)`: the same day count as the goals page, but the streak
   * divides by the day count itself, today included.
   */
  function GetGoalInfo(g: Goal, now: Instant): (info: GoalInfo)
    ensures info.currentDay == GoalsPage.CurrentDay(g, now) && info.currentDay >= 1
    ensures info.endDate == AddDays(g.startDate, g.durationDays)
    ensures info.isCheckedToday <==> DateStr(now.day) in CheckIns(g)
    ensures info.totalChecked == |CheckIns(g)|
    ensures 200 * info.totalChecked - info.currentDay < 2 * info.currentDay * info.streakPercent
                                                     <= 200 * info.totalChecked + info.currentDay
  {
    var currentDay := GoalsPage.CurrentDay(g, now);
    var totalChecked := |CheckIns(g)|;
    GoalInfo(currentDay, AddDays(g.startDate, g.durationDays), DateStr(now.day) in CheckIns(g),
      totalChecked, RoundDiv(100 * totalChecked, currentDay))
  }

  /** On a goal's first day the dashboard shows 100% once checked in, 0% before. */
  lemma FirstDayStreak(g: Goal, now: Instant)
    requires Millis(now) < Millis(g.startDate) + DayMs
    requires CheckIns(g) == [] || CheckIns(g) == [DateStr(now.day)]
    ensures GetGoalInfo(g, now).streakPercent == (if CheckIns(g) == [] then 0 else 100)
  {
    RoundedShareExtremes(|CheckIns(g)|, 1);
  }

  /**
   * The two pages disagree: after one day checked in and one missed, the
   * dashboard shows 50% on day 2 where the goals page shows 100%.
   */
  lemma StreakFormulasDiffer()
    ensures var g := Goal("g", "Run", Instant(0, 0), 30, Some([DateStr(0)]));
      GetGoalInfo(g, Instant(1, 0)).streakPercent == 50
      && GoalsPage.GetGoalStats(g, Instant(1, 0)).streakPercent == 100
  {
    var g := Goal("g", "Run", Instant(0, 0), 30, Some([DateStr(0)]));
    assert CheckIns(g) == [DateStr(0)];
    assert GoalsPage.CurrentDay(g, Instant(1, 0)) == 2;
  }

  /** The card's "Day n / total": the day count clamped to the goal's length. */
  function ShownDay(g: Goal, now: Instant): (n: int)
    ensures n <= g.durationDays
    ensures n <= GetGoalInfo(g, now).currentDay
    ensures n == GetGoalInfo(g, now).currentDay || n == g.durationDays
  {
    var d := GetGoalInfo(g, now).currentDay;
    if d < g.durationDays then d else g.durationDays
  }

  /** The card's check-in button: toggles today on the shown goal. */
  function CheckInClick(g: Goal, now: Instant): (a: Action)
    ensures a == ToggleGoalDay(g.id, DateStr(now.day))
  {
    GoalDayAction(g.id, DateValue(now))
  }

  /** Clicking check-in on a stored goal flips today's check-in of that goal and of no other day. */
  lemma CheckInClickTogglesToday(s: State, now: Instant, i: int)
    requires 0 <= i < |s.goals|
    ensures var g := s.goals[i];
      var g' := AppReducer(s, CheckInClick(g, now)).goals[i];
      (DateStr(now.day) in CheckIns(g') <==> DateStr(now.day) !in CheckIns(g))
      && (forall d :: d != DateStr(now.day) ==> (d in CheckIns(g') <==> d in CheckIns(g)))
  {
    var g := s.goals[i];
    var r := AppReducer(s, CheckInClick(g, now)).goals;
    assert r == ToggleGoalDays(s.goals, g.id, DateStr(now.day));
    assert r[i].progress == Some(ToggleDate(g.progress, DateStr(now.day)));
  }
}
