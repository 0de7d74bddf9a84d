/**
 * The goals page (src/components/GoalsPage.jsx): the statistics shown on a
 * goal card, the seven-day check-in strip, and the new-goal form.
 */
module GoalsPage {
  import opened Wrappers
  import opened Text
  import opened Calendar
  import opened Store
  import opened Percent

  // ---------------------------------------------------------------------------
  // Goal statistics
  // ---------------------------------------------------------------------------

  /**
   * date-fns `differenceInDays(later, earlier)`: whole days between two
   * instants, truncated toward zero.
   */
  function DifferenceInDays(later: Instant, earlier: Instant): (n: int)
    ensures Millis(earlier) <= Millis(later) ==>
      n >= 0 && n * DayMs <= Millis(later) - Millis(earlier) < (n + 1) * DayMs
    ensures Millis(later) < Millis(earlier) ==>
      n <= 0 && -n * DayMs <= Millis(earlier) - Millis(later) < (-n + 1) * DayMs
  {
    var d := Millis(later) - Millis(earlier);
    if d >= 0 then d / DayMs else -((-d) / DayMs)
  }

  /** `Math.max(1, differenceInDays(today, startDate) + 1)`: the goal's day number, from 1. */
  function CurrentDay(g: Goal, now: Instant): (day: int)
    ensures day >= 1
    ensures Millis(g.startDate) <= Millis(now) ==> day == DifferenceInDays(now, g.startDate) + 1
    ensures Millis(now) < Millis(g.startDate) + DayMs ==> day == 1
  {
    var d := DifferenceInDays(now, g.startDate) + 1;
    if d > 1 then d else 1
  }

  /**
   * `Math.min((currentDay / durationDays) * 100, 100)`. A zero length divides
   * to infinity, which the cap turns into 100.
   */
  function ProgressPercent(currentDay: int, durationDays: int): (p: real)
    requires currentDay >= 1
    ensures p <= 100.0
    ensures durationDays > 0 ==> 0.0 < p
    ensures durationDays > 0 && currentDay >= durationDays ==> p == 100.0
    ensures durationDays > 0 && currentDay < durationDays ==> p * durationDays as real == 100.0 * currentDay as real
    ensures durationDays == 0 ==> p == 100.0
  {
    if durationDays == 0 then 100.0
    else
      var q := (currentDay as real / durationDays as real) * 100.0;
      if q < 100.0 then q else 100.0
  }

  /**
   * `currentDay > 1 ? Math.round((totalChecked / (currentDay - 1)) * 100) : 0`:
   * the rounded share of check-ins over the days before today.
   */
  function GoalsStreakPercent(totalChecked: nat, currentDay: int): (p: int)
    ensures currentDay <= 1 ==> p == 0
    ensures currentDay > 1 ==>
      var past := currentDay - 1;
      200 * totalChecked - past < 2 * past * p <= 200 * totalChecked + past
  {
    if currentDay > 1 then RoundDiv(100 * totalChecked, currentDay - 1) else 0
  }

  datatype GoalStats = GoalStats(
    currentDay: int,
    endDate: Instant,
    progressPercent: real,
    totalChecked: nat,
    missedDays: nat,
    streakPercent: int,
    isCheckedToday: bool,
    startDate: Instant)

  /**
   * `getGoalStats(goal)`. The reported day is clamped to the goal's length;
   * the progress bar is capped at 100 (a zero length divides to infinity,
   * which the cap turns into 100); missed days are never negative; the streak
   * is 0 on the first day and otherwise the rounded share of check-ins over
   * the days before today.
   */
  function GetGoalStats(g: Goal, now: Instant): (s: GoalStats)
    ensures s.currentDay <= g.durationDays
    ensures s.currentDay == (if CurrentDay(g, now) < g.durationDays then CurrentDay(g, now) else g.durationDays)
    ensures s.startDate == g.startDate && s.endDate == AddDays(g.startDate, g.durationDays)
    ensures s.progressPercent == ProgressPercent(CurrentDay(g, now), g.durationDays)
    ensures s.totalChecked == |CheckIns(g)|
    ensures s.missedDays == if CurrentDay(g, now) - 1 > s.totalChecked then CurrentDay(g, now) - 1 - s.totalChecked else 0
    ensures s.streakPercent == GoalsStreakPercent(s.totalChecked, CurrentDay(g, now))
    ensures s.isCheckedToday <==> DateStr(now.day) in CheckIns(g)
  {
    var currentDay := CurrentDay(g, now);
    var progress := ProgressPercent(currentDay, g.durationDays);
    var totalChecked := |CheckIns(g)|;
    var missed := currentDay - 1 - totalChecked;
    var streak := GoalsStreakPercent(totalChecked, currentDay);
    GoalStats(
      if currentDay < g.durationDays then currentDay else g.durationDays,
      AddDays(g.startDate, g.durationDays),
      progress,
      totalChecked,
      if missed > 0 then missed else 0,
      streak,
      DateStr(now.day) in CheckIns(g),
      g.startDate)
  }

  /** The "Left" figure: the goal's length minus the reported day, never negative. */
  function DaysLeft(g: Goal, now: Instant): (n: int)
    ensures n >= 0
    ensures g.durationDays >= 1 ==> n <= g.durationDays - 1
  {
    g.durationDays - GetGoalStats(g, now).currentDay
  }

  /** While check-ins do not outnumber the days before today, the streak stays within 0..100. */
  lemma StreakWithinRange(g: Goal, now: Instant)
    requires |CheckIns(g)| <= CurrentDay(g, now) - 1
    ensures 0 <= GetGoalStats(g, now).streakPercent <= 100
  {
    if CurrentDay(g, now) > 1 {
      RoundedShareInRange(|CheckIns(g)|, CurrentDay(g, now) - 1);
    }
  }

  /**
   * Today's check-in counts in the numerator but not in the denominator, so
   * on day 2 with both days checked in the card shows a 200% streak.
   */
  lemma StreakCanExceedHundred()
    ensures var g := Goal("g", "Run", Instant(0, 0), 30, Some([DateStr(0), DateStr(1)]));
      GetGoalStats(g, Instant(1, 0)).streakPercent == 200
  {
    var g := Goal("g", "Run", Instant(0, 0), 30, Some([DateStr(0), DateStr(1)]));
    assert CheckIns(g) == [DateStr(0), DateStr(1)];
    assert CurrentDay(g, Instant(1, 0)) == 2;
  }

  /** On the first day the streak is 0 even after checking in. */
  lemma FirstDayStreakIsZero(g: Goal, now: Instant)
    requires DateStr(now.day) in CheckIns(g)
    requires Millis(now) < Millis(g.startDate) + DayMs
    ensures GetGoalStats(g, now).streakPercent == 0
    ensures GetGoalStats(g, now).isCheckedToday
  {
  }

  // ---------------------------------------------------------------------------
  // The seven-day strip
  // ---------------------------------------------------------------------------

  /** One square of the strip. */
  datatype StripDay = StripDay(date: Instant, dateStr: string, isActive: bool, isChecked: bool, isTodayDate: bool)

  /**
   * `getLast7Days(goal)`: the last seven days, oldest first, each at midnight.
   * A day is active once the goal has started (compared at midnight) and
   * checked when its key is among the check-ins; only the last is today.
   */
  method GetLast7Days(g: Goal, now: Instant) returns (days: seq<StripDay>)
    ensures |days| == 7
    ensures forall k :: 0 <= k < 7 ==>
      && days[k].date == Instant(now.day - 6 + k, 0)
      && days[k].dateStr == DateStr(now.day - 6 + k)
      && (days[k].isActive <==> now.day - 6 + k >= g.startDate.day)
      && (days[k].isChecked <==> DateStr(now.day - 6 + k) in CheckIns(g))
      && (days[k].isTodayDate <==> k == 6)
  {
    days := [];
    var i := 6;
    while i >= 0
      invariant -1 <= i <= 6
      invariant |days| == 6 - i
      invariant forall k :: 0 <= k < |days| ==>
        && days[k].date == Instant(now.day - 6 + k, 0)
        && days[k].dateStr == DateStr(now.day - 6 + k)
        && (days[k].isActive <==> now.day - 6 + k >= g.startDate.day)
        && (days[k].isChecked <==> DateStr(now.day - 6 + k) in CheckIns(g))
        && (days[k].isTodayDate <==> k == 6)
    {
      var date := AddDays(now, -i);
      var dateStr := DateStr(date.day);
      var goalStart := StartOfDay(g.startDate);
      date := StartOfDay(date);
      var isActive := AtOrBefore(goalStart, date);
      var isChecked := dateStr in CheckIns(g);
      days := days + [StripDay(date, dateStr, isActive, isChecked, i == 0)];
      i := i - 1;
    }
  }

  /** Clicking a square: `day.isActive && toggleGoalDay(goal.id, day.date)`. */
  function StripClick(g: Goal, day: StripDay): (a: Option<Action>)
    ensures a.Some? <==> day.isActive
    ensures a.Some? ==> a.value == ToggleGoalDay(g.id, DateStr(day.date.day))
  {
    if day.isActive then Some(GoalDayAction(g.id, DateValue(day.date))) else None
  }

  /** How a square is drawn. */
  datatype StripLook = Inactive | CheckedLook | TodayLook | MissedLook

  function StripLookOf(day: StripDay): (look: StripLook)
    ensures look == Inactive <==> !day.isActive
    ensures look == CheckedLook <==> day.isActive && day.isChecked
    ensures look == MissedLook <==> day.isActive && !day.isChecked && !day.isTodayDate
  {
    if !day.isActive then Inactive
    else if day.isChecked then CheckedLook
    else if day.isTodayDate then TodayLook
    else MissedLook
  }

  /** Clicking a square of the strip toggles exactly that day on the goal, and only from today back to its start. */
  lemma StripClickTogglesThatDay(g: Goal, now: Instant, days: seq<StripDay>, k: int, s: State)
    requires |days| == 7 && 0 <= k < 7
    requires days[k].date == Instant(now.day - 6 + k, 0)
    requires days[k].isActive <==> now.day - 6 + k >= g.startDate.day
    requires g in s.goals
    ensures StripClick(g, days[k]).Some? <==> g.startDate.day <= now.day - 6 + k
    ensures StripClick(g, days[k]).Some? ==>
      var s' := AppReducer(s, StripClick(g, days[k]).value);
      exists i :: 0 <= i < |s'.goals| && s.goals[i] == g &&
        (DateStr(now.day - 6 + k) in CheckIns(s'.goals[i]) <==> DateStr(now.day - 6 + k) !in CheckIns(g))
  {
    if StripClick(g, days[k]).Some? {
      var i :| 0 <= i < |s.goals| && s.goals[i] == g;
      var s' := AppReducer(s, StripClick(g, days[k]).value);
      assert s'.goals == ToggleGoalDays(s.goals, g.id, DateStr(now.day - 6 + k));
    }
  }

  // ---------------------------------------------------------------------------
  // The new-goal form
  // ---------------------------------------------------------------------------

  /** `parseInt(e.target.value) || 30`: an unparsable or zero input gives 30. */
  function DurationInput(text: string): (days: int)
    ensures days != 0
    ensures ParseInt(text).None? ==> days == 30
    ensures ParseInt(text).Some? && ParseInt(text).value != 0 ==> days == ParseInt(text).value
  {
    match ParseInt(text)
    case None => 30
    case Some(n) => if n == 0 then 30 else n
  }

  /** Typing a non-zero number gives back that number. */
  lemma DurationInputOfNumber(n: int)
    requires n != 0
    ensures DurationInput(IntToString(n)) == n
  {
    ParseIntRoundTrip(n);
  }

  /** The form's fields: the title and length being typed, and whether the form is shown. */
  datatype GoalForm = GoalForm(title: string, days: int, open: bool)

  /**
   * `handleAddGoal`: a blank or whitespace-only title does nothing; otherwise
   * the goal is added with the title as typed (not trimmed) and the typed
   * length, and the form is cleared, reset to 30 days and closed.
   */
  function HandleAddGoal(form: GoalForm, id: string, now: Instant): (r: (Option<Action>, GoalForm))
    ensures r.0.None? <==> AllWhitespace(form.title)
    ensures r.0.None? ==> r.1 == form
    ensures r.0.Some? ==>
      && r.0.value == AddGoal(Goal(id, form.title, now, form.days, Some([])))
      && r.1 == GoalForm("", 30, false)
  {
    TrimEmptyIffBlank(form.title);
    if Trim(form.title) == [] then (None, form)
    else (Some(AddGoal(NewGoal(id, form.title, Some(form.days), now))), GoalForm("", 30, false))
  }
}
