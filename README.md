# ApexTask core in Dafny

ApexTask is a small React productivity tracker. It stores tasks, long-running goals with daily check-ins, and daily routines in one reducer. Browser notifications are fired on timers. Several pages derive charts, calendars and progress figures from the stored lists. This project models three parts of it:

- **The store.** The `appReducer` state transitions, the action creators that build their payloads, and the rule that fills in default notification settings when a saved blob is loaded. These live in `Store`.
- **The notification decisions.** These are the message pools and helpers of `notificationService.js` (`Notifications`). They also include what each timer fires, what the test-fire preview shows, and the registry of interval handles that is cleared and re-armed whenever the settings change (`Scheduler`).
- **The derived views.** These are the charts and month navigation of AnalyticsPage, the goal statistics and seven-day strip of GoalsPage, and the month grid and day classification of CalendarView. They also cover the greeting, progress, pie, activity and goal card of Dashboard, and the week window and progress of RoutinePage. Each page is a module of the same name.

Conventions used throughout:

- **Days.** A calendar day is an integer (`Calendar.Day`, day 0 = 1 January 1970).
  - An instant is a day plus the milliseconds since its midnight (`Calendar.Instant`).
  - The `yyyy-MM-dd` key under which check-ins are stored is `Calendar.DateStr`. It is proved injective, which is the only fact about the format the views rely on.
  - Year, month and day-of-month arithmetic (`addMonths`, `startOfMonth`, `endOfMonth`) is written out in `Calendar`.
- **Randomness and the clock.** Fresh ids (uuid), the current time and the random index chosen by `getRandomMessage` are parameters.
- **Loops.** Where the source fills an array in a loop, the model is a method with a loop, specified by a function of its inputs. This covers `formatMessage`, the weekly chart builders, `getLast7Days`, `getActivityData`, `getDates` and the goal rows of the charts.
- **Mutable state.** Where the source keeps state that it updates in place, the model is a class. This covers the interval-handle registry, the analytics month selector and the routine week window.
- **Percentages.** `Math.round(a / b)` is `Percent.RoundDiv`, characterised by `2a − b < 2b·r ≤ 2a + b`. Percentages the source keeps unrounded are `real`.
- **Mis-encoded text.** Several notification and dashboard strings in the source are mis-encoded (UTF-8 read as Latin-1). They are kept byte for byte as they appear.

Behaviour that looks unintended is modelled as written, and a lemma exhibits it:

- GoalsPage's streak can reach 200% (`GoalsPage.StreakCanExceedHundred`).
- Dashboard and GoalsPage compute different streaks for the same goal (`Dashboard.StreakFormulasDiffer`).
- Routine progress can exceed 100% after a checked routine is deleted (`RoutinePage.ProgressAfterDeletionCanExceedHundred`).
- A goal titled `name` overwrites the day label of a chart row (`Analytics.GoalNamedNameHidesLabel`).
- The routine week window keeps the time of day at which it was opened. After stepping on from a late-evening start, today's column can be marked future and cannot be checked (`RoutinePage.TodayColumnCanBeFuture`).
- The goal timer always uses a 2-hour period and ignores the reminder time. The routine windows are fixed at 7–9 and 19–20 and ignore the morning and evening times (`Scheduler.PeriodOf`, `Scheduler.RoutinesFire`).

## Model

| member | source | states |
|---|---|---|
| Store.TasksOn | src/context/AppContext.jsx:197 | exactly those tasks whose date falls on the given day, in a list no longer than the input |
| Store.TasksOnConcat | src/context/AppContext.jsx:197 | the day filter distributes over concatenation, so the kept tasks stay in list order |
| Store.CompletedCount | src/context/AppContext.jsx:198-210 | the completed count is at most the list length; it is 0 iff no task is done and equals the length iff every task is done |
| Store.PendingCount | src/context/AppContext.jsx:198 | pending and completed tasks together make up the whole list |
| Store.ChecksOn | src/context/AppContext.jsx:240 | the checked ids of a date, or the empty list when the date has no entry |
| Store.PendingRoutines | src/context/AppContext.jsx:418 | exactly the routines whose id is not checked for the day |
| Store.UncheckedGoals | src/context/AppContext.jsx:395 | exactly the goals whose progress (missing counts as empty) lacks the date key |
| Store.RemoveWhere | src/context/AppContext.jsx:75-79 | the filter keeps exactly the entries whose key differs from the id; with no matching entry it returns the list unchanged |
| Store.RemoveWhereConcat | src/context/AppContext.jsx:75-86 | filtering distributes over concatenation, so survivors keep their original order |
| Store.RemoveWhereNoDuplicates | src/context/AppContext.jsx:75-86 | deleting never introduces a duplicate |
| Store.RemoveWhereSubsequenceIds | src/context/AppContext.jsx:75-86 | a list with distinct ids still has distinct ids after a delete |
| Store.ToggleTasks | src/context/AppContext.jsx:68-74 | same length; each task changes only in `completed`, and that flips exactly for tasks with the id |
| Store.ToggleTasksInvolution | src/context/AppContext.jsx:68-74 | toggling the same id twice restores the list of tasks |
| Store.ToggleDate | src/context/AppContext.jsx:87-100 | the date's membership flips (missing progress counts as empty); every other date keeps its membership |
| Store.ToggleDateNoDuplicates | src/context/AppContext.jsx:92-96 | toggling a date never creates a duplicate entry |
| Store.ToggleDateTwiceAbsent | src/context/AppContext.jsx:92-96 | toggling an absent date twice gives back the identical list |
| Store.ToggleDateTwicePresent | src/context/AppContext.jsx:92-96 | toggling a present date twice keeps the same members, with that date moved to the end |
| Store.ToggleGoalDays | src/context/AppContext.jsx:87-100 | other goals are untouched; the matching goal changes only in progress, where the date's membership flips |
| Store.ToggleCheck | src/context/AppContext.jsx:108-121 | creates the date entry if absent; flips the routine's membership on that date only; other ids and other dates are unchanged; existence of the routine is not checked |
| Store.ToggleCheckLastRemoval | src/context/AppContext.jsx:108-121 | removing the last id leaves an empty list under the date, not a deleted key |
| Store.ToggleCheckNoDuplicates | src/context/AppContext.jsx:108-121 | duplicate-free check lists stay duplicate-free |
| Store.MergeUser | src/context/AppContext.jsx:64-65 | only the keys present in the patch replace the user's fields |
| Store.MergeSettings | src/context/AppContext.jsx:124-134 | only the named category changes; in it each key (enabled, interval, reminder times, streak alerts, morning and evening times) takes the supplied value and keeps its old value when not supplied |
| Store.MergeSettingsIdempotent | src/context/AppContext.jsx:124-134 | applying the same settings patch twice equals applying it once |
| Store.LoadBlob | src/context/AppContext.jsx:60-61 | each of tasks, goals, routines, routine checks, user, notifications-enabled and settings takes the blob's value when present and keeps the state's when absent; the modal fields are kept |
| Store.AppReducer | src/context/AppContext.jsx:58-138 | each action changes only its own field: adds append at the end, SET_NOTIFICATIONS sets the flag, unknown types return the state unchanged |
| Store.ToggleTaskTwice | src/context/AppContext.jsx:68-74 | TOGGLE_TASK twice on one id restores the whole state |
| Store.DeleteAbsentIsNoOp | src/context/AppContext.jsx:75-86 | deleting an id no task, goal or routine carries leaves the state unchanged |
| Store.DeleteTaskRemovesExactly | src/context/AppContext.jsx:75-79 | after DELETE_TASK a task is present iff it was present and has another id |
| Store.ReducerKeepsIdsUnique | src/context/AppContext.jsx:58-138 | given fresh ids for added entities and distinct ids in each list a loaded blob carries, no action makes two tasks, goals or routines share an id |
| Store.NewTask | src/context/AppContext.jsx:291-302 | a new task is open, due now when no date is given; its priority and category are the supplied ones, or medium and general when not supplied |
| Store.NewGoal | src/context/AppContext.jsx:307-316 | a new goal starts now with 90 days by default and an empty progress list |
| Store.NewRoutine | src/context/AppContext.jsx:325-332 | a new routine carries the given id and title and the creation time |
| Store.DateKeyOf | src/context/AppContext.jsx:321 | a string argument is used as the key; a date argument becomes its day's key |
| Store.SameDayDatesGiveSameAction | src/context/AppContext.jsx:320-323 | two date arguments produce the same toggle action iff they fall on the same day |
| Store.RoutineCheckAction | src/context/AppContext.jsx:336-339 | without a date argument, the routine is toggled for today's key |
| Store.LoadAction | src/context/AppContext.jsx:153-163 | no blob, no dispatch; a blob without settings is loaded as saved with only the settings set to the defaults; otherwise the blob is loaded as saved |
| Store.LoadWithoutSettingsGivesDefaults | src/context/AppContext.jsx:21-41 | loading a blob without notification settings leaves exactly the default settings in the state |
| Notifications.PoolSizes | src/services/notificationService.js:4-94 | every time-of-day bucket holds 3 templates, and there are 12 motivational messages |
| Notifications.GetRandomMessage | src/services/notificationService.js:97-99 | the chosen template is an element of its pool |
| Notifications.FormatMessage | src/services/notificationService.js:102-109 | the loop's result is the template with each key's first placeholder replaced in title and body, in key order |
| Notifications.Formatted | src/services/notificationService.js:102-109 | with no data the template comes back unchanged; with one key its first placeholder is filled in title and body |
| Notifications.FormattedPlaceholderFree | src/services/notificationService.js:102-109 | a template with none of the placeholders is returned unchanged |
| Notifications.FormattedReplacesFirstOnly | src/services/notificationService.js:102-109 | exactly the first occurrence of the placeholder is replaced; text before and after is kept |
| Notifications.FormattedSecondOccurrenceKept | src/services/notificationService.js:102-109 | a second occurrence of the same placeholder stays in the text |
| Notifications.GetTimeOfDay | src/services/notificationService.js:112-117 | hours 0–11 are morning, 12–16 afternoon, 17 and later evening, one bucket per hour |
| Notifications.CompletionSummaryAgrees | src/services/notificationService.js:120-137 | emoji and message are always taken from the same one of the five tiers |
| Notifications.GetCompletionEmoji | src/services/notificationService.js:120-127 | one of the five tier emojis; 🎉 exactly when all of a non-empty list is done; 🤗 with nothing to do or under 25%; 🌟 from 80% up to but not at 100% |
| Notifications.GetCompletionMessage | src/services/notificationService.js:130-137 | one of the five tier messages; "Perfect score!" exactly when all of a non-empty list is done; "Tomorrow's a new day!" with nothing to do or under 25%; "Great job today!" from 80% up to but not at 100% |
| Notifications.CompletionTierMonotone | src/services/notificationService.js:120-137 | for a fixed total, completing more never lowers the tier |
| Notifications.CompletionSummaryExamples | src/services/notificationService.js:120-137 | total 0 gives 🤗; 0 of 2 gives 🤗 with "Tomorrow's a new day!"; 2 of 2 gives 🎉; 4 of 5 gives 🌟 |
| Notifications.CompletionTierPastTotal | src/services/notificationService.js:120-137 | more completed than total falls out of the 100% tier, because the top test is equality |
| Notifications.MinutesToMs | src/services/notificationService.js:165 | a minute is 60 000 ms |
| Notifications.HoursToMs | src/services/notificationService.js:166 | an hour is sixty minutes in milliseconds |
| Scheduler.TasksFire | src/context/AppContext.jsx:195-212 | nothing when today has no tasks; a reminder with count and remaining when some task of today is open; otherwise the chosen completion template |
| Scheduler.CheckInValuesOf | src/context/AppContext.jsx:223-228 | the day number is the minimum of the elapsed whole days plus one and the duration (at most each, equal to one of them); the total is the duration and the streak the number of check-ins |
| Scheduler.CheckInMessage | src/context/AppContext.jsx:222-229 | the reminder is the chosen check-in template filled with the goal's title, day, total and streak |
| Scheduler.GoalsFire | src/context/AppContext.jsx:215-234 | one check-in notification per goal not checked today, in list order, tagged with the goal id |
| Scheduler.GoalsFireReminds | src/context/AppContext.jsx:219-231 | the i-th notification of a fire is the check-in reminder of the i-th unchecked goal, filled from one of the three check-in templates |
| Scheduler.RoutinesFire | src/context/AppContext.jsx:237-269 | morning reminder only at hours 7–9 and evening summary only at 19–20, both only while total > 0 and completed < total (nothing done included); completion iff completed = total > 0; morning, evening and completion each show the chosen template of their pool, the first two filled with the counts |
| Scheduler.EveningSummaryNothingDone | src/context/AppContext.jsx:251-262 | at 20:00 with 0 of 2 routines done the evening summary still fires, with 🤗 and "Tomorrow's a new day!" |
| Scheduler.MotivationFire | src/context/AppContext.jsx:272-277 | a motivation message drawn from the pool, tagged "motivation" |
| Scheduler.SendTestNotification | src/context/AppContext.jsx:373-440 | unknown kinds show nothing; empty lists show the fixed notices; all tasks done and all routines checked show the chosen completion template; pending tasks show the time-of-day template filled with today's and pending counts; the first unchecked goal gets its check-in reminder; routines use the pending count with no hour gate; motivation shows the chosen motivational template |
| Scheduler.TestTasksMatchesTimer | src/context/AppContext.jsx:378-392 | with open tasks today the preview shows the same reminder as the timer for tasks |
| Scheduler.TestGoalIsFirstTimerReminder | src/context/AppContext.jsx:394-414 | the goal preview equals the timer's check-in for the first unchecked goal |
| Scheduler.PeriodOf | src/context/AppContext.jsx:195-277 | tasks every interval-minutes, goals every 2 hours regardless of settings, routines hourly, motivation every interval-hours |
| Scheduler.EnabledCategories | src/context/AppContext.jsx:195-277 | a category's timer is wanted exactly when that category is enabled |
| Scheduler.TimerRegistry.constructor | src/context/AppContext.jsx:180-192 | a fresh registry holds no handles |
| Scheduler.TimerRegistry.ClearAll | src/context/AppContext.jsx:183-186 | every live interval is cleared; the handle map and counter are kept |
| Scheduler.TimerRegistry.Arm | src/context/AppContext.jsx:195-212 | a fresh handle is recorded for the category and becomes live with the given period |
| Scheduler.TimerRegistry.ArmWith | src/context/AppContext.jsx:195-277 | arms one category with its configured period |
| Scheduler.TimerRegistry.ArmIf | src/context/AppContext.jsx:195-277 | arms the category only when it is enabled |
| Scheduler.TimerRegistry.Rearm | src/context/AppContext.jsx:180-192 | old intervals are cleared before new ones are created; afterwards exactly the enabled categories hold a fresh handle, or none when notifications are off |
| Scheduler.TimerRegistry.Cleanup | src/context/AppContext.jsx:279-281 | unmounting clears every live interval |
| Analytics.DayCounts | src/components/AnalyticsPage.jsx:33-35 | a day's done count is the completed count of its tasks, at most its task count, and equals the number of done tasks in the one-day window |
| Analytics.WeekBucket | src/components/AnalyticsPage.jsx:33-40 | a day's bucket counts that day's tasks as total and its done tasks as completed; pending = total − completed |
| Analytics.WeekBucketExtremes | src/components/AnalyticsPage.jsx:33-40 | pending is 0 iff every task of the day is done, and the whole total iff none is |
| Analytics.WeeklyTasksData | src/components/AnalyticsPage.jsx:28-44 | exactly 7 buckets, from today − 6 to today |
| Analytics.MonthBucket | src/components/AnalyticsPage.jsx:53-59 | a monthly bucket is labelled with its day of month, counts that day's tasks as total and its done tasks as completed, and has no pending key |
| Analytics.MonthlyTasksData | src/components/AnalyticsPage.jsx:47-61 | one bucket per calendar day of the month, labelled 1..n in order |
| Analytics.SumCompleted | src/components/AnalyticsPage.jsx:112-115 | zero for no buckets; at least each bucket's completed count |
| Analytics.SumTotal | src/components/AnalyticsPage.jsx:112-115 | zero for no buckets; at least each bucket's total |
| Analytics.SumCompletedAtMostTotal | src/components/AnalyticsPage.jsx:112-115 | summed completed never exceeds summed total |
| Analytics.SumTotalCountsWindow | src/components/AnalyticsPage.jsx:112-115 | the summed total counts exactly those tasks in the chart's window of days |
| Analytics.WeeklyTotals | src/components/AnalyticsPage.jsx:112-113 | weekly completed ≤ weekly total; the total counts every task of the last 7 days and the completed figure every done task of them |
| Analytics.MonthlyTotals | src/components/AnalyticsPage.jsx:114-115 | monthly completed ≤ monthly total; the total counts every task of the month's days and the completed figure every done task of them |
| Analytics.DoneInOneDay | src/components/AnalyticsPage.jsx:33-34 | counting done tasks over a one-day window gives the completed count of that day's tasks |
| Analytics.SumCompletedCountsWindow | src/components/AnalyticsPage.jsx:112-115 | the summed completed figure counts exactly the done tasks in the chart's window of days |
| Analytics.CheckedFlag | src/components/AnalyticsPage.jsx:71-74 | the value is 1 iff the date key is in the goal's progress, else 0, even before the goal starts |
| Analytics.RowOf | src/components/AnalyticsPage.jsx:69-74 | the row's keys are "name" and the goal titles; every goal key holds 0 or 1 |
| Analytics.GoalRow | src/components/AnalyticsPage.jsx:71-74 | the forEach over goals builds exactly the row defined by RowOf |
| Analytics.RowOfDistinct | src/components/AnalyticsPage.jsx:69-74 | with distinct titles other than "name", the row keeps the day label and holds each goal's own flag |
| Analytics.GoalNamedNameHidesLabel | src/components/AnalyticsPage.jsx:69-74 | a last goal titled "name" replaces the day label by its flag |
| Analytics.WeeklyGoalsData | src/components/AnalyticsPage.jsx:64-79 | 7 rows, from today − 6 to today, each the row of that day |
| Analytics.MonthlyGoalsData | src/components/AnalyticsPage.jsx:82-98 | one row per day of the selected month, each the row of that day |
| Analytics.MonthNavigator.constructor | src/components/AnalyticsPage.jsx:9-10 | the selection starts at the current month |
| Analytics.MonthNavigator.Prev | src/components/AnalyticsPage.jsx:106 | always moves back exactly one month |
| Analytics.MonthNavigator.NextDisabled | src/components/AnalyticsPage.jsx:296 | for valid months, disabled exactly when the selection has today's year and month |
| Analytics.MonthNavigator.Next | src/components/AnalyticsPage.jsx:107-108 | moves forward one month only when the result is not after today, so the selection never passes the current month; it moves exactly when the button's `yyyy-MM` test (line 296) leaves it enabled |
| Calendar.DateStrInjective | src/context/AppContext.jsx:320-323 | distinct days have distinct date keys |
| Calendar.MonthEndIsLastDate | src/components/AnalyticsPage.jsx:47-61 | the month's days are consecutive from its first to its last |
| Calendar.AddMonths | src/components/AnalyticsPage.jsx:105-109 | moves the month index by n, keeps the time, and keeps the day of month when the target month has it, otherwise takes that month's last day |
| Text.TrimEmptyIffBlank | src/components/RoutinePage.jsx:36-42 | a title trims to empty iff it consists only of whitespace |
| Text.ParseIntRoundTrip | src/components/GoalsPage.jsx:124 | parsing the decimal text of a number gives back the number |
| Text.ReplaceFirstAtFirstOccurrence | src/services/notificationService.js:102-109 | a string replace substitutes at the first occurrence only |
| Percent.RoundDiv | src/components/Dashboard.jsx:112 | Math.round(a / b): the result is within one half of the exact quotient |
| Percent.RoundedShareInRange | src/components/RoutinePage.jsx:57-60 | a rounded share of a part of a whole lies between 0 and 100 |
| Percent.RoundedShareExtremes | src/components/Dashboard.jsx:112 | the rounded share is 100 when all is done and 0 when nothing is |
| Percent.RoundDivMonotone | src/components/GoalsPage.jsx:44 | rounding preserves order of the numerator |
| GoalsPage.DifferenceInDays | src/components/GoalsPage.jsx:39 | whole days between two instants, truncated toward zero |
| GoalsPage.CurrentDay | src/components/GoalsPage.jsx:39 | at least 1; days since the start plus one once started; 1 during the first day |
| GoalsPage.ProgressPercent | src/components/GoalsPage.jsx:41 | at most 100; 100 once the duration is reached; otherwise currentDay/duration·100 |
| GoalsPage.GoalsStreakPercent | src/components/GoalsPage.jsx:44 | 0 while currentDay ≤ 1, else the rounding of 100·checked/(currentDay − 1) |
| GoalsPage.GetGoalStats | src/components/GoalsPage.jsx:36-57 | the reported day is clamped to the duration; missed = max(0, currentDay − 1 − checked); checked-today iff today's key is in progress |
| GoalsPage.DaysLeft | src/components/GoalsPage.jsx:297 | days left are never negative |
| GoalsPage.StreakWithinRange | src/components/GoalsPage.jsx:44 | the streak stays within 0..100 while check-ins do not exceed the elapsed days |
| GoalsPage.StreakCanExceedHundred | src/components/GoalsPage.jsx:44 | two check-ins on day 2 give a streak of 200 |
| GoalsPage.FirstDayStreakIsZero | src/components/GoalsPage.jsx:44-46 | on the first day the streak is 0 even when checked in today |
| GoalsPage.GetLast7Days | src/components/GoalsPage.jsx:59-77 | 7 days oldest first; only the last is today; a day is active iff it is not before the start day |
| GoalsPage.StripClick | src/components/GoalsPage.jsx:226 | only an active day can be toggled, and the toggle uses that day's key |
| GoalsPage.StripLookOf | src/components/GoalsPage.jsx:231-237 | inactive, checked, missed (active, unchecked and not today) or open, exactly one each |
| GoalsPage.StripClickTogglesThatDay | src/components/GoalsPage.jsx:226 | clicking a strip day toggles that goal's check-in for that day when the goal has started by then |
| GoalsPage.DurationInput | src/components/GoalsPage.jsx:124 | unparsable or zero input falls back to 30 |
| GoalsPage.DurationInputOfNumber | src/components/GoalsPage.jsx:124 | a typed non-zero number is taken as is |
| GoalsPage.HandleAddGoal | src/components/GoalsPage.jsx:27-34 | a blank title adds nothing and keeps the form; otherwise the goal is added and the form resets to an empty title and 30 days |
| CalendarView.GridDays | src/components/CalendarView.jsx:27-36 | consecutive days from a Sunday to a Saturday, a multiple of 7 long, covering the month with less than a week of padding at either end |
| CalendarView.GridCoversMonth | src/components/CalendarView.jsx:27-36 | a month grid has between 28 and 42 days |
| CalendarView.NumWeeks | src/components/CalendarView.jsx:27-36 | the grid splits into whole weeks |
| CalendarView.ActiveGoalsForDay | src/components/CalendarView.jsx:42-49 | a goal is active on a day iff the day's midnight lies between the raw start instant and start + duration, both inclusive |
| CalendarView.ActiveGoalDays | src/components/CalendarView.jsx:42-49 | a goal is active from its start day if it started at midnight, otherwise from the next day, through day start + duration inclusive |
| CalendarView.IsGoalCheckedForDay | src/components/CalendarView.jsx:51-54 | checked iff the goal has a progress list holding the day's key; never for a goal without progress |
| CalendarView.IsGoalMissedForDay | src/components/CalendarView.jsx:56-66 | a missed day is on or after the start day, before today, and not checked |
| CalendarView.MissedDays | src/components/CalendarView.jsx:56-66 | missed iff the day is not before the start day, is before today, and is not checked |
| CalendarView.CheckedAndMissedExclusive | src/components/CalendarView.jsx:51-66 | no day is both checked and missed; today and future days are never missed |
| CalendarView.HasMissedGoal | src/components/CalendarView.jsx:158 | never for today or later; when it holds, some goal started by that day is not checked on it |
| CalendarView.HasCheckedGoal | src/components/CalendarView.jsx:159 | never without goals; when it holds, some goal is checked on that day |
| CalendarView.CellBackground | src/components/CalendarView.jsx:166-172 | background priority is missed, then checked, then today |
| CalendarView.CellBorder | src/components/CalendarView.jsx:173-179 | border priority is today, then missed, then checked |
| CalendarView.TodayCellNeverMissed | src/components/CalendarView.jsx:153-172 | today's cell never shows the missed background |
| CalendarView.GoalMarker | src/components/CalendarView.jsx:244-248 | a check mark iff some goal is checked, else a cross iff some goal is missed |
| CalendarView.TaskPreview | src/components/CalendarView.jsx:261-280 | at most two titles are shown, plus "+k" with k = count − 2 when there are more |
| CalendarView.CellFor | src/components/CalendarView.jsx:153-159 | a cell shows exactly those tasks dated on its day; a missed background only on past days; a check mark only if some active goal is checked that day |
| CalendarView.NextMonth | src/components/CalendarView.jsx:24 | moves forward exactly one month |
| CalendarView.PrevMonth | src/components/CalendarView.jsx:25 | moves back exactly one month |
| CalendarView.NextThenPrevSameMonth | src/components/CalendarView.jsx:24-25 | next then previous returns to the same month |
| Dashboard.GetGreeting | src/components/Dashboard.jsx:13-18 | morning before 12, afternoon before 17, evening after |
| Dashboard.GreetingAgreesWithTimeOfDay | src/components/Dashboard.jsx:13-18 | the greeting uses the same hour thresholds as the notifications' time of day |
| Dashboard.DisplayName | src/components/Dashboard.jsx:82 | the user's name, or `"user"` when it is empty |
| Dashboard.Share | src/components/Dashboard.jsx:22 | a share of a positive whole is within 0..100 and equals done/total·100 |
| Dashboard.Progress | src/components/Dashboard.jsx:20-22 | 0 with no tasks today, else the completed share of today's tasks, within 0..100 |
| Dashboard.ShownProgress | src/components/Dashboard.jsx:112 | the rounded progress is within 0..100, 0 with no tasks, and 100 when all of today's tasks are done |
| Dashboard.PieData | src/components/Dashboard.jsx:38-42 | an empty day shows a single "No Tasks" slice; otherwise Completed and Remaining slices with remaining = total − completed |
| Dashboard.Subtitle | src/components/Dashboard.jsx:85-89 | remaining count when tasks are open, congratulations when all are done, the "No tasks" text otherwise |
| Dashboard.GetActivityData | src/components/Dashboard.jsx:24-35 | 7 entries oldest first, each with completed ≤ total for its day |
| Dashboard.ActivityAgreesWithWeeklyChart | src/components/Dashboard.jsx:24-35 | each activity entry has the same name, completed and total as the analytics weekly bucket of its day |
| Dashboard.ActiveGoal | src/components/Dashboard.jsx:60 | the last goal in the list, or none when there are no goals |
| Dashboard.AddedGoalBecomesActive | src/components/Dashboard.jsx:60 | the goal added most recently is the one the dashboard shows |
| Dashboard.GetGoalInfo | src/components/Dashboard.jsx:62-72 | the streak is the rounding of 100·checked/currentDay with currentDay ≥ 1; checked-today iff today's key is in progress |
| Dashboard.FirstDayStreak | src/components/Dashboard.jsx:62-72 | a goal started today scores 100 if checked in today and 0 if not |
| Dashboard.StreakFormulasDiffer | src/components/Dashboard.jsx:70 | for the same goal the dashboard and the goals page show different streaks |
| Dashboard.ShownDay | src/components/Dashboard.jsx:130 | the shown day is the minimum of the current day and the duration: at most each, equal to one of them |
| Dashboard.CheckInClick | src/components/Dashboard.jsx:133 | the check-in button dispatches a toggle of the shown goal at today's key |
| Dashboard.CheckInClickTogglesToday | src/components/Dashboard.jsx:133 | the check-in button flips today's check-in of the shown goal and no other day's |
| RoutinePage.GetDates | src/components/RoutinePage.jsx:17-32 | 7 consecutive days from the window start; today iff the date key equals today's; future iff later than now |
| RoutinePage.TodayColumnNotFuture | src/components/RoutinePage.jsx:17-32 | when the window's time of day is not later than now's, the column for today is not marked future |
| RoutinePage.TodayColumnCanBeFuture | src/components/RoutinePage.jsx:17-32 | a window stepped on from a late-evening start can show today's column as future, and its check box then does nothing |
| RoutinePage.IsChecked | src/components/RoutinePage.jsx:44-46 | checked iff the id is listed under the date; false when the date has no entry |
| RoutinePage.CellClick | src/components/RoutinePage.jsx:251-252 | future days cannot be toggled; other days toggle the routine for the column's key |
| RoutinePage.CellClickFlips | src/components/RoutinePage.jsx:251-252 | a click flips that routine on that day only |
| RoutinePage.TodayProgress | src/components/RoutinePage.jsx:57-60 | 0 with no routines, else the rounding of 100·checked-today/routines |
| RoutinePage.TodayProgressInRange | src/components/RoutinePage.jsx:57-60 | within 0..100 while today's checks do not outnumber the routines |
| RoutinePage.ProgressAfterDeletionCanExceedHundred | src/components/RoutinePage.jsx:57-60 | after deleting a checked routine the progress can exceed 100 |
| RoutinePage.HandleAddRoutine | src/components/RoutinePage.jsx:36-42 | a blank title adds nothing; otherwise the trimmed title is added and the input cleared |
| RoutinePage.WeekWindow.constructor | src/components/RoutinePage.jsx:11-12 | the initial window ends today: it starts six days before now |
| RoutinePage.WeekWindow.PrevWeek | src/components/RoutinePage.jsx:48 | moves back exactly 7 days |
| RoutinePage.WeekWindow.NextWeek | src/components/RoutinePage.jsx:49-52 | moves forward 7 days iff start + 7 is not after now, the same condition as canGoNext |
| RoutinePage.WeekWindow.CanGoNext | src/components/RoutinePage.jsx:54 | next is enabled iff the start day plus 7 is before today, or is today at a time of day not later than now's |
| RoutinePage.WeekWindow.AtLatestWeekTodayShown | src/components/RoutinePage.jsx:54 | when next is disabled, today is between the start day and the start day plus 7; when in addition the window's time of day is not later than now's, today lies within the shown week |

## Left out

- Rendering: JSX layout, styles, theme colours, animation and chart wiring have no stateable behaviour. The theme toggle is not modelled.
- `sendNotification` (src/services/notificationService.js:140-162) needs the browser Notification API and an auto-close timeout. A fire is modelled as the notification it would show (`Scheduler.Show`).
- Timer timing: when `setInterval` callbacks run, and their concurrency with renders, is not modelled. The registry models only which handles are cleared and created.
- The permission request in `toggleNotifications` (src/context/AppContext.jsx:349-364) is an asynchronous browser call and is not modelled.
- Persistence: `localStorage` and JSON are I/O. The parse is unguarded, so a corrupt blob throws; the model starts from an already parsed blob. Saving on every change is not modelled.
- `uuidv4` and `Math.random` are parameters. Freshness of ids, and distinct ids within each list of a loaded blob, are preconditions of `Store.ReducerKeepsIdsUnique`.
- date-fns is not part of this model. Time zones and daylight saving are not modelled: every day has 86 400 000 ms. The labels `format(day, 'EEE')`, `'d'` and `'MMM'` are either an abstract weekday name or left out.
- Floating point: percentages the source keeps unrounded are exact reals. `Math.round` is exact rounding; halves round up, as in `Math.round` for non-negative values.
- `Percent.RoundDiv`: defined for a positive divisor only. The source divides only after guarding against zero.
- Text: a replacement string containing `$` patterns is taken literally. `parseInt` prefixes other than sign and decimal digits (hex, exponents) are not modelled.
- `isRoutineCheckedToday` (src/context/AppContext.jsx:341-344) is `RoutinePage.IsChecked` at today's key and has no member of its own.
- `openModal`/`closeModal` (src/context/AppContext.jsx:442-443) are modelled only through the TOGGLE_MODAL action. The ISO string the calendar passes, and AddTaskModal's parsing of it, are not modelled.
- `Analytics.MonthNavigator`: `today` is fixed when the selector is created. The source reads `new Date()` again on every render, which only matters across midnight.
- SettingsPage, ProfileModal, AddTaskModal, Sidebar, Layout and App only forward values or route, and are not modelled.
