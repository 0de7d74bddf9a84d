/**
 * The series behind the analytics page (src/components/AnalyticsPage.jsx):
 * per-day task counts for the last seven days and for the current month,
 * per-day goal check-in rows for the last seven days and for a selected
 * month, the completed/total sums shown in the card headers, and the month
 * selector with its forward limit.
 */
module Analytics {
  import opened Wrappers
  import opened Text
  import opened Calendar
  import opened Store

  // ---------------------------------------------------------------------------
  // Task series
  // ---------------------------------------------------------------------------

  /**
   * One bar of a task chart. The weekly chart also carries `pending`; the
   * monthly chart has no such key.
   */
  datatype TaskBucket = TaskBucket(name: string, completed: nat, total: nat, pending: Option<int>)

  /** A day's task counts: `[done, all]` of the tasks dated on `day`. */
  function DayCounts(tasks: seq<Task>, day: Day): (c: (nat, nat))
    ensures c.1 == |TasksOn(tasks, day)|
    ensures c.0 == CompletedCount(TasksOn(tasks, day))
    ensures c.0 <= c.1
    ensures c.0 == DoneInWindow(tasks, day, day + 1)
  {
    DoneInOneDay(tasks, day);
    var dayTasks := TasksOn(tasks, day);
    (CompletedCount(dayTasks), |dayTasks|)
  }

  /** The weekly bar for `day`: that day's tasks, split into done and open. */
  function WeekBucket(tasks: seq<Task>, day: Day): (b: TaskBucket)
    ensures b.name == WeekdayName(day)
    ensures b.total == |TasksOn(tasks, day)|
    ensures b.completed == CompletedCount(TasksOn(tasks, day)) <= b.total
    ensures b.completed == DoneInWindow(tasks, day, day + 1)
    ensures b.pending == Some(b.total - b.completed)
  {
    var counts := DayCounts(tasks, day);
    TaskBucket(WeekdayName(day), counts.0, counts.1, Some(counts.1 - counts.0))
  }

  /** A day's bar is empty of completions, or full, exactly when its tasks are all open, or all done. */
  lemma WeekBucketExtremes(tasks: seq<Task>, day: Day)
    ensures var b := WeekBucket(tasks, day);
      && (b.completed == 0 <==> forall t :: t in tasks && t.date.day == day ==> !t.completed)
      && (b.completed == b.total <==> forall t :: t in tasks && t.date.day == day ==> t.completed)
  {
  }

  /** `getWeeklyTasksData`: one bar per day from six days ago up to today, oldest first. */
  method WeeklyTasksData(tasks: seq<Task>, today: Day) returns (data: seq<TaskBucket>)
    ensures |data| == 7
    ensures forall k :: 0 <= k < 7 ==> data[k] == WeekBucket(tasks, today - 6 + k)
  {
    data := [];
    var i := 6;
    while i >= 0
      invariant -1 <= i <= 6
      invariant |data| == 6 - i
      invariant forall k :: 0 <= k < |data| ==> data[k] == WeekBucket(tasks, today - 6 + k)
    {
      var date := today - i;
      var dayTasks := TasksOn(tasks, date);
      var completed := CompletedCount(dayTasks);
      var total := |dayTasks|;
      var bucket := TaskBucket(WeekdayName(date), completed, total, Some(total - completed));
      assert date == today - 6 + |data|;
      assert bucket == WeekBucket(tasks, date);
      data := data + [bucket];
      i := i - 1;
    }
  }

  /** The monthly bar for `day`, labelled with its day of month `dayOfMonth`. */
  function MonthBucket(tasks: seq<Task>, day: Day, dayOfMonth: int): (b: TaskBucket)
    ensures b.name == IntToString(dayOfMonth) && b.pending.None?
    ensures b.total == |TasksOn(tasks, day)| && b.completed <= b.total
    ensures b.completed == CompletedCount(TasksOn(tasks, day))
    ensures b.completed == DoneInWindow(tasks, day, day + 1)
  {
    var counts := DayCounts(tasks, day);
    TaskBucket(IntToString(dayOfMonth), counts.0, counts.1, None)
  }

  /**
   * `getMonthlyTasksData`: one bar per calendar day of the month, labelled
   * with the day of month 1, 2, ... in order.
   */
  function MonthlyTasksData(tasks: seq<Task>, y: int, m: int): (data: seq<TaskBucket>)
    requires 1 <= m <= 12
    ensures |data| == DaysInMonth(y, m)
    ensures forall k :: 0 <= k < |data| ==> data[k] == MonthBucket(tasks, MonthStart(y, m) + k, k + 1)
  {
    seq(DaysInMonth(y, m), k requires 0 <= k => MonthBucket(tasks, MonthStart(y, m) + k, k + 1))
  }

  // ---------------------------------------------------------------------------
  // Totals
  // ---------------------------------------------------------------------------

  /** `data.reduce((sum, d) => sum + d.completed, 0)`. */
  function SumCompleted(data: seq<TaskBucket>): (r: nat)
    ensures data == [] ==> r == 0
    ensures forall k :: 0 <= k < |data| ==> data[k].completed <= r
  {
    if data == [] then 0 else data[0].completed + SumCompleted(data[1..])
  }

  /** `data.reduce((sum, d) => sum + d.total, 0)`. */
  function SumTotal(data: seq<TaskBucket>): (r: nat)
    ensures data == [] ==> r == 0
    ensures forall k :: 0 <= k < |data| ==> data[k].total <= r
  {
    if data == [] then 0 else data[0].total + SumTotal(data[1..])
  }

  /** The "completed/total" header never shows more completed than total. */
  lemma {:induction false} SumCompletedAtMostTotal(data: seq<TaskBucket>)
    requires forall k :: 0 <= k < |data| ==> data[k].completed <= data[k].total
    ensures SumCompleted(data) <= SumTotal(data)
  {
    if data != [] {
      SumCompletedAtMostTotal(data[1..]);
    }
  }

  /** The number of tasks whose day lies in `[lo, hi)`. */
  function CountInWindow(tasks: seq<Task>, lo: Day, hi: Day): nat {
    if tasks == [] then 0
    else (if lo <= tasks[0].date.day < hi then 1 else 0) + CountInWindow(tasks[1..], lo, hi)
  }

  lemma {:induction false} CountInWindowSplit(tasks: seq<Task>, lo: Day, hi: Day)
    requires lo < hi
    ensures CountInWindow(tasks, lo, hi) == |TasksOn(tasks, lo)| + CountInWindow(tasks, lo + 1, hi)
  {
    if tasks != [] {
      CountInWindowSplit(tasks[1..], lo, hi);
    }
  }

  /**
   * A header total counts every task of the charted days exactly once: a
   * series of consecutive days from `lo` sums to the number of tasks dated
   * in that window.
   */
  lemma {:induction false} SumTotalCountsWindow(data: seq<TaskBucket>, tasks: seq<Task>, lo: Day)
    requires forall k :: 0 <= k < |data| ==> data[k].total == |TasksOn(tasks, lo + k)|
    ensures SumTotal(data) == CountInWindow(tasks, lo, lo + |data|)
  {
    if data == [] {
      CountInWindowEmpty(tasks, lo);
    } else {
      SumTotalCountsWindow(data[1..], tasks, lo + 1);
      CountInWindowSplit(tasks, lo, lo + |data|);
    }
  }

  lemma {:induction false} CountInWindowEmpty(tasks: seq<Task>, lo: Day)
    ensures CountInWindow(tasks, lo, lo) == 0
  {
    if tasks != [] {
      CountInWindowEmpty(tasks[1..], lo);
    }
  }

  /** The number of done tasks dated in the days `lo` up to, but not including, `hi`. */
  function DoneInWindow(tasks: seq<Task>, lo: Day, hi: Day): nat {
    if tasks == [] then 0
    else (if lo <= tasks[0].date.day < hi && tasks[0].completed then 1 else 0) + DoneInWindow(tasks[1..], lo, hi)
  }

  /** Cutting the window after its first day. */
  lemma {:induction false} DoneInWindowCut(tasks: seq<Task>, lo: Day, hi: Day)
    requires lo < hi
    ensures DoneInWindow(tasks, lo, hi) == DoneInWindow(tasks, lo, lo + 1) + DoneInWindow(tasks, lo + 1, hi)
  {
    if tasks != [] {
      DoneInWindowCut(tasks[1..], lo, hi);
    }
  }

  /** A one-day window counts the done tasks of that day's list. */
  lemma {:induction false} DoneInOneDay(tasks: seq<Task>, day: Day)
    ensures DoneInWindow(tasks, day, day + 1) == CompletedCount(TasksOn(tasks, day))
  {
    if tasks != [] {
      DoneInOneDay(tasks[1..], day);
      var rest := TasksOn(tasks[1..], day);
      if tasks[0].date.day == day {
        var ts := [tasks[0]] + rest;
        assert ts[0] == tasks[0] && ts[1..] == rest;
        assert TasksOn(tasks, day) == ts;
      } else {
        assert TasksOn(tasks, day) == [] + rest;
        assert [] + rest == rest;
      }
    }
  }

  lemma {:induction false} DoneInWindowEmpty(tasks: seq<Task>, lo: Day)
    ensures DoneInWindow(tasks, lo, lo) == 0
  {
    if tasks != [] {
      DoneInWindowEmpty(tasks[1..], lo);
    }
  }

  /**
   * A header's completed figure counts every done task of the charted days
   * exactly once: a series of consecutive days from `lo`, each bar holding
   * its day's done tasks, sums to the number of done tasks in that window.
   */
  lemma {:induction false} SumCompletedCountsWindow(data: seq<TaskBucket>, tasks: seq<Task>, lo: Day)
    requires forall k :: 0 <= k < |data| ==> data[k].completed == DoneInWindow(tasks, lo + k, lo + k + 1)
    ensures SumCompleted(data) == DoneInWindow(tasks, lo, lo + |data|)
  {
    if data == [] {
      DoneInWindowEmpty(tasks, lo);
    } else {
      SumCompletedCountsWindow(data[1..], tasks, lo + 1);
      DoneInWindowCut(tasks, lo, lo + |data|);
    }
  }

  /** The weekly header: completed ≤ total, and total counts every task dated in the last seven days. */
  lemma WeeklyTotals(tasks: seq<Task>, today: Day, data: seq<TaskBucket>)
    requires |data| == 7
    requires forall k :: 0 <= k < 7 ==> data[k] == WeekBucket(tasks, today - 6 + k)
    ensures SumCompleted(data) <= SumTotal(data)
    ensures SumTotal(data) == CountInWindow(tasks, today - 6, today + 1)
    ensures SumCompleted(data) == DoneInWindow(tasks, today - 6, today + 1)
  {
    var lo := today - 6;
    forall k | 0 <= k < |data|
      ensures data[k].completed <= data[k].total && data[k].total == |TasksOn(tasks, lo + k)|
      ensures data[k].completed == DoneInWindow(tasks, lo + k, lo + k + 1)
    {
      assert data[k] == WeekBucket(tasks, lo + k);
    }
    SumCompletedAtMostTotal(data);
    SumTotalCountsWindow(data, tasks, lo);
    SumCompletedCountsWindow(data, tasks, lo);
    assert lo + |data| == today + 1;
  }

  /**
   * The monthly header: completed ≤ total, and total counts every task dated in the
   * month. `data` is `MonthlyTasksData(tasks, y, m)` and `first` that month's
   * first day (`MonthStart(y, m)`).
   */
  lemma MonthlyTotals(tasks: seq<Task>, first: Day, data: seq<TaskBucket>)
    requires forall k :: 0 <= k < |data| ==> data[k] == MonthBucket(tasks, first + k, k + 1)
    ensures SumCompleted(data) <= SumTotal(data)
    ensures SumTotal(data) == CountInWindow(tasks, first, first + |data|)
    ensures SumCompleted(data) == DoneInWindow(tasks, first, first + |data|)
  {
    forall k | 0 <= k < |data|
      ensures data[k].completed <= data[k].total && data[k].total == |TasksOn(tasks, first + k)|
      ensures data[k].completed == DoneInWindow(tasks, first + k, first + k + 1)
    {
      assert data[k] == MonthBucket(tasks, first + k, k + 1);
    }
    SumCompletedAtMostTotal(data);
    SumTotalCountsWindow(data, tasks, first);
    SumCompletedCountsWindow(data, tasks, first);
  }

  // ---------------------------------------------------------------------------
  // Goal series
  // ---------------------------------------------------------------------------

  /** A value of a goal-chart row: the `name` caption or a goal's 0/1 check-in flag. */
  datatype Cell = Label(text: string) | Flag(bit: int)

  /** `goal.progress?.includes(dateStr) ? 1 : 0`. */
  function CheckedFlag(g: Goal, dateStr: string): (bit: int)
    ensures bit == 1 <==> dateStr in CheckIns(g)
    ensures bit == 0 <==> dateStr !in CheckIns(g)
  {
    if dateStr in CheckIns(g) then 1 else 0
  }

  /**
   * The row object `{ name: caption, [goal.title]: flag, ... }` after the
   * goals have been written into it in list order: a later goal with the
   * same title, or a goal titled `name`, overwrites the earlier key.
   */
  function RowOf(goals: seq<Goal>, caption: string, dateStr: string): (row: map<string, Cell>)
    ensures row.Keys == {"name"} + set g | g in goals :: g.title
    ensures forall k :: k in row && k != "name" ==> row[k].Flag? && (row[k].bit == 0 || row[k].bit == 1)
  {
    if |goals| == 0 then map["name" := Label(caption)]
    else
      var last := goals[|goals| - 1];
      var row := RowOf(goals[..|goals| - 1], caption, dateStr);
      assert forall g :: g in goals <==> g in goals[..|goals| - 1] || g == last by {
        assert goals == goals[..|goals| - 1] + [last];
      }
      row[last.title := Flag(CheckedFlag(last, dateStr))]
  }

  /** Fills one row: `goals.forEach(goal => { dayData[goal.title] = flag })`. */
  method GoalRow(goals: seq<Goal>, caption: string, dateStr: string) returns (row: map<string, Cell>)
    ensures row == RowOf(goals, caption, dateStr)
  {
    row := map["name" := Label(caption)];
    var i := 0;
    while i < |goals|
      invariant 0 <= i <= |goals|
      invariant row == RowOf(goals[..i], caption, dateStr)
    {
      assert goals[..i + 1][..i] == goals[..i];
      row := row[goals[i].title := Flag(CheckedFlag(goals[i], dateStr))];
      i := i + 1;
    }
    assert goals[..|goals|] == goals;
  }

  predicate DistinctTitles(goals: seq<Goal>) {
    forall i, j :: 0 <= i < j < |goals| ==> goals[i].title != goals[j].title
  }

  /**
   * With distinct titles, none of them `name`, a row keeps its caption and holds
   * each goal's own flag: 1 exactly when that day is in its check-ins,
   * whether or not the goal had started by then.
   */
  lemma {:induction false} RowOfDistinct(goals: seq<Goal>, caption: string, dateStr: string)
    requires DistinctTitles(goals)
    requires forall g :: g in goals ==> g.title != "name"
    ensures var row := RowOf(goals, caption, dateStr);
      row["name"] == Label(caption)
      && forall i :: 0 <= i < |goals| ==> row[goals[i].title] == Flag(CheckedFlag(goals[i], dateStr))
  {
    RowOfName(goals, caption, dateStr);
    forall i | 0 <= i < |goals|
      ensures RowOf(goals, caption, dateStr)[goals[i].title] == Flag(CheckedFlag(goals[i], dateStr))
    {
      RowOfAt(goals, caption, dateStr, i);
    }
  }

  /** With no goal titled `name`, the caption survives every update. */
  lemma {:induction false} RowOfName(goals: seq<Goal>, caption: string, dateStr: string)
    requires forall g :: g in goals ==> g.title != "name"
    ensures RowOf(goals, caption, dateStr)["name"] == Label(caption)
  {
    if |goals| > 0 {
      var init := goals[..|goals| - 1];
      assert forall g :: g in init ==> g in goals;
      RowOfName(init, caption, dateStr);
      RowOfLast(goals, caption, dateStr);
    }
  }

  /** With distinct titles, the key of goal `i` holds goal `i`'s own flag. */
  lemma {:induction false} RowOfAt(goals: seq<Goal>, caption: string, dateStr: string, i: int)
    requires DistinctTitles(goals) && 0 <= i < |goals|
    ensures RowOf(goals, caption, dateStr)[goals[i].title] == Flag(CheckedFlag(goals[i], dateStr))
  {
    var n := |goals| - 1;
    RowOfLast(goals, caption, dateStr);
    if i < n {
      var init := goals[..n];
      assert DistinctTitles(init) by {
        forall a, b | 0 <= a < b < n ensures init[a].title != init[b].title {
          assert init[a] == goals[a] && init[b] == goals[b];
        }
      }
      RowOfAt(init, caption, dateStr, i);
      assert init[i] == goals[i] && goals[i].title != goals[n].title;
      assert RowOf(goals, caption, dateStr)[goals[i].title] == RowOf(init, caption, dateStr)[goals[i].title];
    }
  }

  /** The row of a list is the row of all but its last goal, updated by the last goal's flag. */
  lemma RowOfLast(goals: seq<Goal>, caption: string, dateStr: string)
    requires |goals| > 0
    ensures var last := goals[|goals| - 1];
      RowOf(goals, caption, dateStr)
      == RowOf(goals[..|goals| - 1], caption, dateStr)[last.title := Flag(CheckedFlag(last, dateStr))]
  {
  }

  /** A goal titled `name` takes the place of the row's day caption. */
  lemma GoalNamedNameHidesLabel(goals: seq<Goal>, caption: string, dateStr: string)
    requires |goals| > 0 && goals[|goals| - 1].title == "name"
    ensures RowOf(goals, caption, dateStr)["name"] == Flag(CheckedFlag(goals[|goals| - 1], dateStr))
  {
  }

  /** `getWeeklyGoalsData`: seven rows from six days ago up to today, labelled by weekday. */
  method WeeklyGoalsData(goals: seq<Goal>, today: Day) returns (rows: seq<map<string, Cell>>)
    ensures |rows| == 7
    ensures forall k :: 0 <= k < 7 ==>
      rows[k] == RowOf(goals, WeekdayName(today - 6 + k), DateStr(today - 6 + k))
  {
    rows := [];
    var i := 6;
    while i >= 0
      invariant -1 <= i <= 6
      invariant |rows| == 6 - i
      invariant forall k :: 0 <= k < |rows| ==>
        rows[k] == RowOf(goals, WeekdayName(today - 6 + k), DateStr(today - 6 + k))
    {
      var date := today - i;
      var row := GoalRow(goals, WeekdayName(date), DateStr(date));
      ghost var prev := rows;
      rows := rows + [row];
      forall k | 0 <= k < |rows|
        ensures rows[k] == RowOf(goals, WeekdayName(today - 6 + k), DateStr(today - 6 + k))
      {
        if k < |prev| {
          assert rows[k] == prev[k];
        } else {
          assert today - 6 + k == date;
        }
      }
      i := i - 1;
    }
  }

  /** `getMonthlyGoalsData(month)`: one row per day of the month, labelled 1, 2, ... */
  method MonthlyGoalsData(goals: seq<Goal>, y: int, m: int) returns (rows: seq<map<string, Cell>>)
    requires 1 <= m <= 12
    ensures |rows| == DaysInMonth(y, m)
    ensures forall k :: 0 <= k < |rows| ==>
      rows[k] == RowOf(goals, IntToString(k + 1), DateStr(MonthStart(y, m) + k))
  {
    rows := NumberedGoalRows(goals, MonthStart(y, m), DaysInMonth(y, m));
  }

  /** `allDays.map(day => ...)` over `n` days from `first`, each row labelled by its position. */
  method NumberedGoalRows(goals: seq<Goal>, first: Day, n: nat) returns (rows: seq<map<string, Cell>>)
    ensures |rows| == n
    ensures forall k :: 0 <= k < n ==> rows[k] == RowOf(goals, IntToString(k + 1), DateStr(first + k))
  {
    rows := [];
    var k := 0;
    while k < n
      invariant 0 <= k <= n
      invariant |rows| == k
      invariant forall j :: 0 <= j < k ==> rows[j] == RowOf(goals, IntToString(j + 1), DateStr(first + j))
    {
      var row := GoalRow(goals, IntToString(k + 1), DateStr(first + k));
      rows := rows + [row];
      k := k + 1;
    }
  }

  // ---------------------------------------------------------------------------
  // Month selector
  // ---------------------------------------------------------------------------

  /**
   * `selectedMonth` state. It starts at `today`; the previous-month button
   * always steps back, the next-month button steps forward only while the
   * result is not later than `today`.
   */
  class MonthNavigator {
    const today: DateTime
    var selected: DateTime

    /** The selection never passes the current month and keeps today's time of day. */
    ghost predicate Valid()
      reads this
    {
      && ValidDateTime(today) && ValidDateTime(selected)
      && MonthIndex(selected) <= MonthIndex(today)
      && selected.dayOfMonth <= today.dayOfMonth
      && selected.ms == today.ms
    }

    constructor (now: DateTime)
      requires ValidDateTime(now)
      ensures Valid() && today == now && selected == now
    {
      today := now;
      selected := now;
    }

    /** The next-month button is disabled while `format(selected, 'yyyy-MM')` equals today's. */
    function NextDisabled(): (b: bool)
      reads this
      ensures 1 <= today.month <= 12 && 1 <= selected.month <= 12 ==>
        (b <==> selected.year == today.year && selected.month == today.month)
    {
      MonthIndex(selected) == MonthIndex(today)
    }

    /** `handlePrevMonth`: `subMonths(prev, 1)`. */
    method Prev()
      requires Valid()
      modifies this
      ensures Valid()
      ensures selected == AddMonths(old(selected), -1)
      ensures MonthIndex(selected) == MonthIndex(old(selected)) - 1
    {
      selected := AddMonths(selected, -1);
    }

    /** `handleNextMonth`: move one month on, only if that is not later than today. */
    method Next()
      requires Valid()
      modifies this
      ensures Valid()
      ensures var next := AddMonths(old(selected), 1);
        selected == if DateTimeAtOrBefore(next, today) then next else old(selected)
      ensures old(NextDisabled()) ==> selected == old(selected)
      ensures !old(NextDisabled()) ==> MonthIndex(selected) == MonthIndex(old(selected)) + 1
    {
      var next := AddMonths(selected, 1);
      if DateTimeAtOrBefore(next, today) {
        selected := next;
      }
    }
  }
}
