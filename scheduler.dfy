/**
 * The notification scheduler of the app provider (src/context/AppContext.jsx):
 * what each recurring timer emits when it fires, what the on-demand test
 * notification emits, and the registry of running intervals that is re-armed
 * whenever the settings or the watched collections change.
 *
 * A fire is a pure function of the clock, the state and the template index
 * that `Math.random` would have drawn; it yields the notification to show
 * (title, body, tag) or nothing.
 */
module Scheduler {
  import opened Wrappers
  import opened Text
  import opened Calendar
  import opened Store
  import opened Notifications

  datatype Notification = Notification(title: string, body: string, tag: string)

  function Show(t: Template, tag: string): Notification {
    Notification(t.title, t.body, tag)
  }

  // ---------------------------------------------------------------------------
  // Tasks timer
  // ---------------------------------------------------------------------------

  /** The `{count, remaining}` data of a task reminder. */
  function TaskData(count: nat, remaining: nat): seq<(string, string)> {
    [("count", IntToString(count)), ("remaining", IntToString(remaining))]
  }

  /**
   * One fire of the timer for tasks: a time-of-day reminder while any of today's
   * tasks is open, a celebration once all of them are done, nothing on a day
   * without tasks.
   */
  function TasksFire(tasks: seq<Task>, now: Instant, choice: nat): (n: Option<Notification>)
    requires ValidInstant(now) && choice < 3
    ensures n.None? <==> TasksOn(tasks, now.day) == []
    ensures n.Some? && n.value.tag == "task-reminder" <==>
      exists t :: t in tasks && t.date.day == now.day && !t.completed
    ensures n.Some? && n.value.tag == "task-reminder" ==>
      var today := TasksOn(tasks, now.day);
      Template(n.value.title, n.value.body) ==
        Formatted(TaskMessages(GetTimeOfDay(Hour(now)))[choice], TaskData(|today|, PendingCount(today)))
    ensures n.Some? && n.value.tag != "task-reminder" ==>
      n.value.tag == "task-completion" && Template(n.value.title, n.value.body) == TaskCompletion[choice]
  {
    PoolSizes();
    var today := TasksOn(tasks, now.day);
    var remaining := PendingCount(today);
    if remaining > 0 then
      var template := GetRandomMessage(TaskMessages(GetTimeOfDay(Hour(now))), choice);
      Some(Show(Formatted(template, TaskData(|today|, remaining)), "task-reminder"))
    else if |today| > 0 then
      Some(Show(GetRandomMessage(TaskCompletion, choice), "task-completion"))
    else
      None
  }

  // ---------------------------------------------------------------------------
  // Goals timer
  // ---------------------------------------------------------------------------

  /** `Math.floor((now - startDate) / 86400000)`: whole days since the goal started. */
  function ElapsedDays(start: Instant, now: Instant): int {
    (Millis(now) - Millis(start)) / DayMs
  }

  /** The `{title, day, total, streak}` data of a goal check-in reminder. */
  datatype CheckInValues = CheckInValues(title: string, day: int, total: int, streak: nat)

  function CheckInValuesOf(g: Goal, now: Instant): (v: CheckInValues)
    ensures v.title == g.title && v.total == g.durationDays && v.streak == |CheckIns(g)|
    ensures v.day <= g.durationDays
    ensures v.day <= ElapsedDays(g.startDate, now) + 1
    ensures v.day == g.durationDays || v.day == ElapsedDays(g.startDate, now) + 1
  {
    var day := ElapsedDays(g.startDate, now) + 1;
    CheckInValues(g.title, if day < g.durationDays then day else g.durationDays, g.durationDays, |CheckIns(g)|)
  }

  function CheckInData(v: CheckInValues): seq<(string, string)> {
    [("title", v.title), ("day", IntToString(v.day)), ("total", IntToString(v.total)), ("streak", IntToString(v.streak))]
  }

  /** The check-in reminder for one goal, drawn from the check-in pool. */
  function CheckInMessage(g: Goal, now: Instant, choice: nat): (t: Template)
    requires choice < 3
    ensures t == Formatted(GoalCheckIn[choice], CheckInData(CheckInValuesOf(g, now)))
  {
    PoolSizes();
    Formatted(GetRandomMessage(GoalCheckIn, choice), CheckInData(CheckInValuesOf(g, now)))
  }

  /**
   * One fire of the goals timer: one reminder per goal not checked in today,
   * in list order, tagged with the goal's id. `choices[i]` is the template
   * drawn for `goals[i]`.
   */
  function GoalsFire(goals: seq<Goal>, now: Instant, choices: seq<nat>): (ns: seq<Notification>)
    requires |choices| == |goals|
    requires forall i :: 0 <= i < |choices| ==> choices[i] < 3
    ensures var unchecked := UncheckedGoals(goals, DateStr(now.day));
      |ns| == |unchecked|
      && forall i :: 0 <= i < |ns| ==> ns[i].tag == "goal-" + unchecked[i].id
  {
    if goals == [] then []
    else
      var first := if DateStr(now.day) in CheckIns(goals[0]) then []
        else [Show(CheckInMessage(goals[0], now, choices[0]), "goal-" + goals[0].id)];
      first + GoalsFire(goals[1..], now, choices[1..])
  }

  /**
   * Each reminder of a goals-timer fire is the check-in reminder of the
   * matching unchecked goal, filled from one of the check-in templates.
   */
  lemma {:induction false} GoalsFireReminds(goals: seq<Goal>, now: Instant, choices: seq<nat>)
    requires |choices| == |goals|
    requires forall i :: 0 <= i < |choices| ==> choices[i] < 3
    ensures var ns := GoalsFire(goals, now, choices);
      var unchecked := UncheckedGoals(goals, DateStr(now.day));
      forall i :: 0 <= i < |ns| ==> IsCheckInReminder(ns[i], unchecked[i], now)
  {
    if goals != [] {
      var today := DateStr(now.day);
      var ns := GoalsFire(goals, now, choices);
      var rest := GoalsFire(goals[1..], now, choices[1..]);
      var unchecked := UncheckedGoals(goals, today);
      GoalsFireReminds(goals[1..], now, choices[1..]);
      if today in CheckIns(goals[0]) {
        assert ns == rest;
        assert unchecked == UncheckedGoals(goals[1..], today);
      } else {
        var n := Show(CheckInMessage(goals[0], now, choices[0]), "goal-" + goals[0].id);
        assert IsCheckInReminder(n, goals[0], now);
        assert ns == [n] + rest;
        assert unchecked == [goals[0]] + UncheckedGoals(goals[1..], today);
        forall i | 0 <= i < |ns|
          ensures IsCheckInReminder(ns[i], unchecked[i], now)
        {
          if i > 0 {
            assert ns[i] == rest[i - 1];
            assert unchecked[i] == UncheckedGoals(goals[1..], today)[i - 1];
          }
        }
      }
    }
  }

  /** `n` is the check-in reminder for `g`, for one of the three templates. */
  ghost predicate IsCheckInReminder(n: Notification, g: Goal, now: Instant) {
    exists c :: 0 <= c < 3 && n == Show(CheckInMessage(g, now, c), "goal-" + g.id)
  }

  // ---------------------------------------------------------------------------
  // Routines timer
  // ---------------------------------------------------------------------------

  /** The `{completed, total, emoji, message}` data of the evening summary. */
  function EveningData(completed: nat, total: nat): seq<(string, string)> {
    [("completed", IntToString(completed)), ("total", IntToString(total)),
     ("emoji", GetCompletionEmoji(completed, total)), ("message", GetCompletionMessage(completed, total))]
  }

  /**
   * One fire of the routines timer. `completed` is the length of today's
   * check list (ids of deleted routines included). The hour windows are fixed
   * (7-9 and 19-20); the configured morning and evening times play no part.
   */
  function RoutinesFire(routines: seq<Routine>, checks: map<string, seq<string>>, now: Instant, choice: nat)
    : (n: Option<Notification>)
    requires ValidInstant(now) && choice < 3
    ensures var completed := |ChecksOn(checks, DateStr(now.day))|;
      var total := |routines|;
      var hour := Hour(now);
      && (n.Some? && n.value.tag == "routine-morning" <==> 0 < total && completed < total && 7 <= hour < 10)
      && (n.Some? && n.value.tag == "routine-evening" <==> 0 < total && completed < total && 19 <= hour < 21)
      && (n.Some? && n.value.tag == "routine-complete" <==> 0 < total && completed == total)
      && (n.Some? ==> n.value.tag in {"routine-morning", "routine-evening", "routine-complete"})
    ensures n.Some? && n.value.tag == "routine-morning" ==>
      Template(n.value.title, n.value.body) == Formatted(RoutineMorning[choice], [("count", IntToString(|routines|))])
    ensures n.Some? && n.value.tag == "routine-evening" ==>
      var completed := |ChecksOn(checks, DateStr(now.day))|;
      Template(n.value.title, n.value.body) == Formatted(RoutineEvening[choice], EveningData(completed, |routines|))
    ensures n.Some? && n.value.tag == "routine-complete" ==>
      Template(n.value.title, n.value.body) == RoutineCompletion[choice]
  {
    PoolSizes();
    var completed := |ChecksOn(checks, DateStr(now.day))|;
    var total := |routines|;
    if total > 0 && completed < total then
      var hour := Hour(now);
      if 7 <= hour < 10 then
        Some(Show(Formatted(GetRandomMessage(RoutineMorning, choice), [("count", IntToString(total))]), "routine-morning"))
      else if 19 <= hour < 21 then
        Some(Show(Formatted(GetRandomMessage(RoutineEvening, choice), EveningData(completed, total)), "routine-evening"))
      else
        None
    else if total > 0 && completed == total then
      Some(Show(GetRandomMessage(RoutineCompletion, choice), "routine-complete"))
    else
      None
  }

  /** With two routines and none checked, the 20:00 summary says "Tomorrow's a new day!" with 🤗. */
  lemma EveningSummaryNothingDone(routines: seq<Routine>, checks: map<string, seq<string>>, now: Instant, choice: nat)
    requires ValidInstant(now) && choice < 3
    requires |routines| == 2 && ChecksOn(checks, DateStr(now.day)) == [] && Hour(now) == 20
    ensures var n := RoutinesFire(routines, checks, now, choice);
      n.Some? && n.value.tag == "routine-evening"
      && EveningData(0, 2)[2].1 == "🤗" && EveningData(0, 2)[3].1 == "Tomorrow's a new day!"
  {
  }

  // ---------------------------------------------------------------------------
  // Motivation timer
  // ---------------------------------------------------------------------------

  /** One fire of the motivation timer: always one motivational message. */
  function MotivationFire(choice: nat): (n: Notification)
    requires choice < 12
    ensures Template(n.title, n.body) in MotivationalMessages && n.tag == "motivation"
  {
    PoolSizes();
    Show(GetRandomMessage(MotivationalMessages, choice), "motivation")
  }

  // ---------------------------------------------------------------------------
  // Test notification (`sendTestNotification(type)`)
  // ---------------------------------------------------------------------------

  const NoTasksNotice: Notification :=
    Notification("ðŸ“‹ No Tasks", "You have no tasks for today. Enjoy your free time! ðŸŽ‰", "test-task")
  const NoGoalsNotice: Notification :=
    Notification("ðŸŽ¯ No Goals", "Create a goal to start tracking your progress! âœ¨", "test-goal")
  const AllGoalsCheckedNotice: Notification :=
    Notification("ðŸŽ¯ All Checked In!", "You've checked in all your goals today! Amazing! ðŸ†", "test-goal")
  const NoRoutinesNotice: Notification :=
    Notification("â˜€ï¸ No Routines", "Add some daily routines to build great habits! ðŸŒ±", "test-routine")

  /**
   * The test notification for `kind`, computed from the live state. Unlike the
   * timers it has fixed texts for the empty cases, reminds about the first
   * unchecked goal only, and counts pending routines without any hour window.
   * An unknown kind shows nothing.
   */
  function SendTestNotification(kind: string, s: State, now: Instant, choice: nat): (n: Option<Notification>)
    requires ValidInstant(now) && choice < 12
    requires kind != "motivation" ==> choice < 3
    ensures kind !in {"tasks", "goals", "routines", "motivation"} <==> n.None?
    ensures kind == "tasks" && TasksOn(s.tasks, now.day) == [] ==> n == Some(NoTasksNotice)
    ensures kind == "tasks" && TasksOn(s.tasks, now.day) != [] && PendingCount(TasksOn(s.tasks, now.day)) == 0 ==>
      n == Some(Show(TaskCompletion[choice], "test-task"))
    ensures kind == "tasks" && PendingCount(TasksOn(s.tasks, now.day)) > 0 ==>
      var today := TasksOn(s.tasks, now.day);
      n == Some(Show(Formatted(TaskMessages(GetTimeOfDay(Hour(now)))[choice], TaskData(|today|, PendingCount(today))), "test-task"))
    ensures kind == "goals" && s.goals == [] ==> n == Some(NoGoalsNotice)
    ensures kind == "goals" && s.goals != [] && UncheckedGoals(s.goals, DateStr(now.day)) == [] ==>
      n == Some(AllGoalsCheckedNotice)
    ensures kind == "goals" && UncheckedGoals(s.goals, DateStr(now.day)) != [] ==>
      n == Some(Show(CheckInMessage(UncheckedGoals(s.goals, DateStr(now.day))[0], now, choice), "test-goal"))
    ensures kind == "routines" && s.routines == [] ==> n == Some(NoRoutinesNotice)
    ensures (kind == "routines" && s.routines != [] &&
             PendingRoutines(s.routines, ChecksOn(s.routineChecks, DateStr(now.day))) == []) ==>
      n == Some(Show(RoutineCompletion[choice], "test-routine"))
    ensures kind == "routines" && PendingRoutines(s.routines, ChecksOn(s.routineChecks, DateStr(now.day))) != [] ==>
      var pending := PendingRoutines(s.routines, ChecksOn(s.routineChecks, DateStr(now.day)));
      n == Some(Show(Formatted(RoutineMorning[choice], [("count", IntToString(|pending|))]), "test-routine"))
    ensures kind == "motivation" ==> n == Some(Show(MotivationalMessages[choice], "test-motivation"))
  {
    PoolSizes();
    var todayStr := DateStr(now.day);
    if kind == "tasks" then
      var todayTasks := TasksOn(s.tasks, now.day);
      var pending := PendingCount(todayTasks);
      if pending == 0 && |todayTasks| == 0 then Some(NoTasksNotice)
      else if pending == 0 then Some(Show(GetRandomMessage(TaskCompletion, choice), "test-task"))
      else
        var template := GetRandomMessage(TaskMessages(GetTimeOfDay(Hour(now))), choice);
        Some(Show(Formatted(template, TaskData(|todayTasks|, pending)), "test-task"))
    else if kind == "goals" then
      var unchecked := UncheckedGoals(s.goals, todayStr);
      if |s.goals| == 0 then Some(NoGoalsNotice)
      else if |unchecked| == 0 then Some(AllGoalsCheckedNotice)
      else Some(Show(CheckInMessage(unchecked[0], now, choice), "test-goal"))
    else if kind == "routines" then
      var todayChecks := ChecksOn(s.routineChecks, todayStr);
      var pending := PendingRoutines(s.routines, todayChecks);
      if |s.routines| == 0 then Some(NoRoutinesNotice)
      else if |pending| == 0 then Some(Show(GetRandomMessage(RoutineCompletion, choice), "test-routine"))
      else Some(Show(Formatted(GetRandomMessage(RoutineMorning, choice), [("count", IntToString(|pending|))]), "test-routine"))
    else if kind == "motivation" then
      Some(Show(GetRandomMessage(MotivationalMessages, choice), "test-motivation"))
    else
      None
  }

  /**
   * While tasks are open today, the test notification shows exactly the
   * reminder the timer for tasks would show with the same draw; only the tag differs.
   */
  lemma TestTasksMatchesTimer(s: State, now: Instant, choice: nat)
    requires ValidInstant(now) && choice < 3
    requires PendingCount(TasksOn(s.tasks, now.day)) > 0
    ensures var timer := TasksFire(s.tasks, now, choice);
      var test := SendTestNotification("tasks", s, now, choice);
      timer.Some? && test.Some?
      && timer.value.(tag := "test-task") == test.value
  {
  }

  /** The first reminder of a goals-timer fire is the goal the test notification picks. */
  lemma {:induction false} TestGoalIsFirstTimerReminder(goals: seq<Goal>, now: Instant, choices: seq<nat>)
    requires |choices| == |goals|
    requires forall i :: 0 <= i < |choices| ==> choices[i] < 3
    requires UncheckedGoals(goals, DateStr(now.day)) != []
    ensures exists j :: (0 <= j < |goals| &&
      goals[j] == UncheckedGoals(goals, DateStr(now.day))[0] &&
      GoalsFire(goals, now, choices)[0] == Show(CheckInMessage(goals[j], now, choices[j]), "goal-" + goals[j].id))
  {
    if DateStr(now.day) in CheckIns(goals[0]) {
      TestGoalIsFirstTimerReminder(goals[1..], now, choices[1..]);
      var j :| 0 <= j < |goals[1..]| &&
        goals[1..][j] == UncheckedGoals(goals[1..], DateStr(now.day))[0] &&
        GoalsFire(goals[1..], now, choices[1..])[0] ==
          Show(CheckInMessage(goals[1..][j], now, choices[1..][j]), "goal-" + goals[1..][j].id);
      assert goals[j + 1] == goals[1..][j] && choices[j + 1] == choices[1..][j];
      assert GoalsFire(goals, now, choices) == GoalsFire(goals[1..], now, choices[1..]);
      assert UncheckedGoals(goals, DateStr(now.day)) == UncheckedGoals(goals[1..], DateStr(now.day));
    } else {
      assert goals[0] == UncheckedGoals(goals, DateStr(now.day))[0];
      assert GoalsFire(goals, now, choices)[0] == Show(CheckInMessage(goals[0], now, choices[0]), "goal-" + goals[0].id);
    }
  }

  // ---------------------------------------------------------------------------
  // Re-arming the timers
  // ---------------------------------------------------------------------------

  datatype Category = TasksTimer | GoalsTimer | RoutinesTimer | MotivationTimer

  /** A running `setInterval`: which category it serves and its period. */
  datatype Interval = Interval(category: Category, periodMs: int)

  /** The period each category's timer is armed with. */
  function PeriodOf(c: Category, ns: NotificationSettings): (ms: int)
    ensures c == GoalsTimer ==> ms == 2 * 3600000
    ensures c == RoutinesTimer ==> ms == 3600000
    ensures c == TasksTimer ==> ms == 60000 * ns.tasks.intervalMinutes
    ensures c == MotivationTimer ==> ms == 3600000 * ns.motivation.intervalHours
  {
    match c
    case TasksTimer => MinutesToMs(ns.tasks.intervalMinutes)
    case GoalsTimer => HoursToMs(2)
    case RoutinesTimer => HoursToMs(1)
    case MotivationTimer => HoursToMs(ns.motivation.intervalHours)
  }

  /** The categories that get a timer under the given settings. */
  function EnabledCategories(ns: NotificationSettings): (cs: set<Category>)
    ensures TasksTimer in cs <==> ns.tasks.enabled
    ensures GoalsTimer in cs <==> ns.goals.enabled
    ensures RoutinesTimer in cs <==> ns.routines.enabled
    ensures MotivationTimer in cs <==> ns.motivation.enabled
  {
    When(ns.tasks.enabled, TasksTimer) + When(ns.goals.enabled, GoalsTimer)
    + When(ns.routines.enabled, RoutinesTimer) + When(ns.motivation.enabled, MotivationTimer)
  }

  function When(enabled: bool, c: Category): set<Category> {
    if enabled then {c} else {}
  }

  /**
   * `notificationIntervals.current` together with the host's running
   * intervals. Handles are issued in increasing order, so a new one is never
   * a handle seen before.
   */
  class TimerRegistry {
    var intervals: map<Category, nat>
    var live: map<nat, Interval>
    var nextHandle: nat

    /** Every running interval is reachable from the registry: none has leaked. */
    ghost predicate Valid()
      reads this
    {
      && live.Keys <= intervals.Values
      && (forall h :: h in live ==> h < nextHandle)
      && (forall c :: c in intervals ==> intervals[c] < nextHandle)
    }

    constructor ()
      ensures Valid() && intervals == map[] && live == map[]
    {
      intervals := map[];
      live := map[];
      nextHandle := 0;
    }

    /** `Object.values(notificationIntervals.current).forEach(clearInterval)`. */
    method ClearAll()
      requires Valid()
      modifies this
      ensures Valid() && live == map[]
      ensures intervals == old(intervals) && nextHandle == old(nextHandle)
    {
      ghost var before := live;
      live := live - intervals.Values;
      assert forall h :: h in live ==> h in before && h !in intervals.Values;
      assert live.Keys == {};
    }

    /** `notificationIntervals.current[c] = setInterval(fire, periodMs)`. */
    method Arm(c: Category, periodMs: int)
      requires Valid() && c !in intervals
      modifies this
      ensures Valid()
      ensures intervals == old(intervals)[c := old(nextHandle)]
      ensures live == old(live)[old(nextHandle) := Interval(c, periodMs)]
      ensures nextHandle == old(nextHandle) + 1
    {
      var h := nextHandle;
      ghost var handles := intervals.Values;
      nextHandle := nextHandle + 1;
      live := live[h := Interval(c, periodMs)];
      intervals := intervals[c := h];
      assert intervals.Values == handles + {h} by {
        forall x | x in handles ensures x in intervals.Values {
          var d :| d in old(intervals) && old(intervals)[d] == x;
          assert intervals[d] == x;
        }
        forall x | x in intervals.Values ensures x in handles + {h} {
          var d :| d in intervals && intervals[d] == x;
          if d != c {
            assert old(intervals)[d] == x;
          }
        }
        assert h in intervals.Values by {
          assert intervals[c] == h;
        }
      }
    }

    /**
     * Every interval running now was created at or after handle `start`, and
     * the registry holds exactly them, each with its category's period.
     */
    ghost predicate ArmedSince(ns: NotificationSettings, start: nat)
      reads this
    {
      && live.Keys == intervals.Values
      && (forall c :: c in intervals ==> live[intervals[c]] == Interval(c, PeriodOf(c, ns)))
      && (forall h :: h in live ==> h >= start)
    }

    /** Arms one category with its configured period, keeping `ArmedSince`. */
    method ArmWith(c: Category, ns: NotificationSettings, ghost start: nat)
      requires Valid() && ArmedSince(ns, start) && c !in intervals && start <= nextHandle
      modifies this
      ensures Valid() && ArmedSince(ns, start) && start <= nextHandle
      ensures intervals.Keys == old(intervals.Keys) + {c}
    {
      Arm(c, PeriodOf(c, ns));
      assert forall d :: d in old(intervals) ==> intervals[d] == old(intervals[d]) && intervals[d] != old(nextHandle);
    }

    /** `if (enabled) { ...arm c... }` */
    method ArmIf(enabled: bool, c: Category, ns: NotificationSettings, ghost start: nat)
      requires Valid() && ArmedSince(ns, start) && c !in intervals && start <= nextHandle
      modifies this
      ensures Valid() && ArmedSince(ns, start) && start <= nextHandle
      ensures intervals.Keys == old(intervals.Keys) + When(enabled, c)
    {
      if enabled {
        ArmWith(c, ns, start);
      }
    }

    /**
     * The scheduling effect: every previous interval is cancelled before any
     * new one is created; with notifications on, each enabled category gets
     * exactly one fresh interval with its period.
     */
    method Rearm(notificationsEnabled: bool, ns: NotificationSettings)
      requires Valid()
      modifies this
      ensures Valid() && ArmedSince(ns, old(nextHandle))
      ensures notificationsEnabled ==> intervals.Keys == EnabledCategories(ns)
      ensures !notificationsEnabled ==> intervals == map[] && live == map[]
    {
      ClearAll();
      intervals := map[];
      ghost var start := nextHandle;
      assert ArmedSince(ns, start);
      if !notificationsEnabled {
        return;
      }
      assert intervals.Keys == {};
      ArmIf(ns.tasks.enabled, TasksTimer, ns, start);
      ArmIf(ns.goals.enabled, GoalsTimer, ns, start);
      ArmIf(ns.routines.enabled, RoutinesTimer, ns, start);
      ArmIf(ns.motivation.enabled, MotivationTimer, ns, start);
    }

    /** The effect's cleanup: every interval is cancelled; the handles stay recorded. */
    method Cleanup()
      requires Valid()
      modifies this
      ensures Valid() && live == map[] && intervals == old(intervals)
    {
      ClearAll();
    }
  }
}
