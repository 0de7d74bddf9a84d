/**
 * The domain store: the entities the tracker keeps, the actions that change
 * them, the reducer `appReducer` and the helpers that build action payloads
 * (src/context/AppContext.jsx).
 *
 * The reducer is pure: every action yields a new state built from the old
 * one. Ids, the clock and the persisted blob are parameters; the model never
 * generates ids itself.
 */
module Store {
  import opened Wrappers
  import opened Calendar

  // ---------------------------------------------------------------------------
  // Entities
  // ---------------------------------------------------------------------------

  datatype Priority = Low | Medium | High

  datatype Task = Task(
    id: string,
    title: string,
    date: Instant,
    completed: bool,
    priority: Priority,
    category: string,
    createdAt: Instant)

  /** `progress` is `None` for a stored goal that has no `progress` key. */
  datatype Goal = Goal(
    id: string,
    title: string,
    startDate: Instant,
    durationDays: int,
    progress: Option<seq<string>>)

  datatype Routine = Routine(id: string, title: string, createdAt: Instant)

  datatype User = User(name: string, avatar: Option<string>)

  datatype TaskSettings = TaskSettings(enabled: bool, intervalMinutes: int, reminderTime: string)
  datatype GoalSettings = GoalSettings(enabled: bool, reminderTime: string, streakAlerts: bool)
  datatype RoutineSettings = RoutineSettings(enabled: bool, morningTime: string, eveningTime: string)
  datatype MotivationSettings = MotivationSettings(enabled: bool, intervalHours: int)

  datatype NotificationSettings = NotificationSettings(
    tasks: TaskSettings,
    goals: GoalSettings,
    routines: RoutineSettings,
    motivation: MotivationSettings)

  const DefaultNotificationSettings: NotificationSettings :=
    NotificationSettings(
      TaskSettings(true, 60, "morning"),
      GoalSettings(true, "09:00", true),
      RoutineSettings(true, "07:00", "20:00"),
      MotivationSettings(true, 3))

  datatype State = State(
    tasks: seq<Task>,
    goals: seq<Goal>,
    routines: seq<Routine>,
    routineChecks: map<string, seq<string>>,
    user: User,
    notificationsEnabled: bool,
    notificationSettings: NotificationSettings,
    isModalOpen: bool,
    modalSelectedDate: Option<string>)

  const InitialState: State :=
    State([], [], [], map[], User("", None), false, DefaultNotificationSettings, false, None)

  /** The check-ins of a goal; a goal without `progress` has none (`goal.progress || []`). */
  function CheckIns(g: Goal): seq<string> {
    g.progress.GetOr([])
  }

  function TaskId(t: Task): string { t.id }
  function GoalId(g: Goal): string { g.id }
  function RoutineId(r: Routine): string { r.id }
  function Self(s: string): string { s }

  // ---------------------------------------------------------------------------
  // Queries shared by the timers and the pages
  // ---------------------------------------------------------------------------

  /** `tasks.filter(t => isSameDay(new Date(t.date), day))`, in list order. */
  function TasksOn(tasks: seq<Task>, day: Day): (r: seq<Task>)
    ensures |r| <= |tasks|
    ensures forall t :: t in r <==> t in tasks && t.date.day == day
  {
    if tasks == [] then []
    else (if tasks[0].date.day == day then [tasks[0]] else []) + TasksOn(tasks[1..], day)
  }

  /** The day filter keeps list order: it distributes over concatenation. */
  lemma {:induction false} TasksOnConcat(xs: seq<Task>, ys: seq<Task>, day: Day)
    ensures TasksOn(xs + ys, day) == TasksOn(xs, day) + TasksOn(ys, day)
  {
    if xs != [] {
      assert (xs + ys)[0] == xs[0];
      assert (xs + ys)[1..] == xs[1..] + ys;
      TasksOnConcat(xs[1..], ys, day);
      var head := if xs[0].date.day == day then [xs[0]] else [];
      assert TasksOn(xs + ys, day) == head + (TasksOn(xs[1..], day) + TasksOn(ys, day));
    } else {
      assert xs + ys == ys;
    }
  }

  /** `ts.filter(t => t.completed).length`. */
  function CompletedCount(ts: seq<Task>): (n: nat)
    ensures n <= |ts|
    ensures n == 0 <==> forall t :: t in ts ==> !t.completed
    ensures n == |ts| <==> forall t :: t in ts ==> t.completed
  {
    if ts == [] then 0 else (if ts[0].completed then 1 else 0) + CompletedCount(ts[1..])
  }

  /** `ts.filter(t => !t.completed).length`. */
  function PendingCount(ts: seq<Task>): (n: nat)
    ensures n + CompletedCount(ts) == |ts|
  {
    if ts == [] then 0 else (if ts[0].completed then 0 else 1) + PendingCount(ts[1..])
  }

  /** `routineChecks[dateStr] || []`. */
  function ChecksOn(checks: map<string, seq<string>>, dateStr: string): (r: seq<string>)
    ensures dateStr in checks ==> r == checks[dateStr]
    ensures dateStr !in checks ==> r == []
  {
    if dateStr in checks then checks[dateStr] else []
  }

  /** `routines.filter(r => !todayChecks.includes(r.id))`. */
  function PendingRoutines(routines: seq<Routine>, todayChecks: seq<string>): (r: seq<Routine>)
    ensures |r| <= |routines|
    ensures forall rt :: rt in r <==> rt in routines && rt.id !in todayChecks
  {
    if routines == [] then []
    else (if routines[0].id in todayChecks then [] else [routines[0]]) + PendingRoutines(routines[1..], todayChecks)
  }

  /** `goals.filter(g => !g.progress?.includes(dateStr))`. */
  function UncheckedGoals(goals: seq<Goal>, dateStr: string): (r: seq<Goal>)
    ensures |r| <= |goals|
    ensures forall g :: g in r <==> g in goals && dateStr !in CheckIns(g)
  {
    if goals == [] then []
    else (if dateStr in CheckIns(goals[0]) then [] else [goals[0]]) + UncheckedGoals(goals[1..], dateStr)
  }

  // ---------------------------------------------------------------------------
  // Actions and their payloads
  // ---------------------------------------------------------------------------

  /** A partial user: the keys present in `updateUser`'s argument. */
  datatype UserPatch = UserPatch(name: Option<string>, avatar: Option<Option<string>>)

  /** The `settings` passed to `updateNotificationSettings`, tagged with its category. */
  datatype SettingsPatch =
    | TasksPatch(enabled: Option<bool>, intervalMinutes: Option<int>, taskReminderTime: Option<string>)
    | GoalsPatch(enabled: Option<bool>, goalReminderTime: Option<string>, streakAlerts: Option<bool>)
    | RoutinesPatch(enabled: Option<bool>, morningTime: Option<string>, eveningTime: Option<string>)
    | MotivationPatch(enabled: Option<bool>, intervalHours: Option<int>)

  /** The persisted blob after parsing: every key may be missing. */
  datatype Blob = Blob(
    tasks: Option<seq<Task>>,
    goals: Option<seq<Goal>>,
    routines: Option<seq<Routine>>,
    routineChecks: Option<map<string, seq<string>>>,
    user: Option<User>,
    notificationsEnabled: Option<bool>,
    notificationSettings: Option<NotificationSettings>)

  datatype Action =
    | LoadData(payload: Blob)
    | ToggleModal(open: bool, date: Option<string>)
    | UpdateUser(userPatch: UserPatch)
    | AddTask(task: Task)
    | ToggleTask(taskId: string)
    | DeleteTask(taskId: string)
    | AddGoal(goal: Goal)
    | DeleteGoal(goalId: string)
    | ToggleGoalDay(goalId: string, dateStr: string)
    | AddRoutine(routine: Routine)
    | DeleteRoutine(routineId: string)
    | ToggleRoutineCheck(routineId: string, dateStr: string)
    | SetNotifications(enabled: bool)
    | UpdateNotificationSettings(settingsPatch: SettingsPatch)
    | Unknown(kind: string)

  // ---------------------------------------------------------------------------
  // List operations the reducer is built from
  // ---------------------------------------------------------------------------

  /** `xs.filter(x => key(x) !== id)`. */
  function RemoveWhere<T(==,!new)>(xs: seq<T>, key: T -> string, id: string): (r: seq<T>)
    ensures |r| <= |xs|
    ensures forall x :: x in r <==> x in xs && key(x) != id
    ensures (forall x :: x in xs ==> key(x) != id) ==> r == xs
  {
    if xs == [] then []
    else (if key(xs[0]) == id then [] else [xs[0]]) + RemoveWhere(xs[1..], key, id)
  }

  /** Filtering keeps the survivors in their original order. */
  lemma {:induction false} RemoveWhereConcat<T(!new)>(xs: seq<T>, ys: seq<T>, key: T -> string, id: string)
    ensures RemoveWhere(xs + ys, key, id) == RemoveWhere(xs, key, id) + RemoveWhere(ys, key, id)
  {
    if xs != [] {
      assert (xs + ys)[0] == xs[0];
      assert (xs + ys)[1..] == xs[1..] + ys;
      RemoveWhereConcat(xs[1..], ys, key, id);
      var head := if key(xs[0]) == id then [] else [xs[0]];
      assert RemoveWhere(xs + ys, key, id) == head + (RemoveWhere(xs[1..], key, id) + RemoveWhere(ys, key, id));
    } else {
      assert xs + ys == ys;
    }
  }

  predicate NoDuplicates<T(==)>(s: seq<T>) {
    forall i, j :: 0 <= i < j < |s| ==> s[i] != s[j]
  }

  lemma {:induction false} RemoveWhereNoDuplicates<T(!new)>(xs: seq<T>, key: T -> string, id: string)
    requires NoDuplicates(xs)
    ensures NoDuplicates(RemoveWhere(xs, key, id))
  {
    if xs != [] {
      RemoveWhereNoDuplicates(xs[1..], key, id);
      assert xs[0] !in xs[1..];
    }
  }

  /** `tasks.map(t => t.id === id ? { ...t, completed: !t.completed } : t)`. */
  function ToggleTasks(tasks: seq<Task>, id: string): (r: seq<Task>)
    ensures |r| == |tasks|
    ensures forall i :: 0 <= i < |r| ==> r[i].(completed := tasks[i].completed) == tasks[i]
    ensures forall i :: 0 <= i < |r| ==> (r[i].completed != tasks[i].completed <==> tasks[i].id == id)
  {
    seq(|tasks|, i requires 0 <= i < |tasks| =>
      if tasks[i].id == id then tasks[i].(completed := !tasks[i].completed) else tasks[i])
  }

  /** Toggling the same id twice restores the list of tasks. */
  lemma ToggleTasksInvolution(tasks: seq<Task>, id: string)
    ensures ToggleTasks(ToggleTasks(tasks, id), id) == tasks
  {
    var once := ToggleTasks(tasks, id);
    var twice := ToggleTasks(once, id);
    forall i | 0 <= i < |tasks| ensures twice[i] == tasks[i] {
      assert once[i].id == tasks[i].id;
    }
  }

  /** The new check-in list of one goal: `dateStr` removed if present, appended if not. */
  function ToggleDate(progress: Option<seq<string>>, dateStr: string): (r: seq<string>)
    ensures dateStr in r <==> dateStr !in progress.GetOr([])
    ensures forall d :: d != dateStr ==> (d in r <==> d in progress.GetOr([]))
  {
    var current := progress.GetOr([]);
    if dateStr in current then RemoveWhere(current, Self, dateStr) else current + [dateStr]
  }

  /** A check-in list without duplicates stays without duplicates. */
  lemma ToggleDateNoDuplicates(progress: Option<seq<string>>, dateStr: string)
    requires NoDuplicates(progress.GetOr([]))
    ensures NoDuplicates(ToggleDate(progress, dateStr))
  {
    if dateStr in progress.GetOr([]) {
      RemoveWhereNoDuplicates(progress.GetOr([]), Self, dateStr);
    }
  }

  /** Toggling a date that was not checked in, twice, gives back the very same list. */
  lemma ToggleDateTwiceAbsent(progress: Option<seq<string>>, dateStr: string)
    requires dateStr !in progress.GetOr([])
    ensures ToggleDate(Some(ToggleDate(progress, dateStr)), dateStr) == progress.GetOr([])
  {
    var p := progress.GetOr([]);
    RemoveWhereConcat(p, [dateStr], Self, dateStr);
    assert RemoveWhere([dateStr], Self, dateStr) == [];
  }

  /**
   * Toggling a date that was checked in, twice, gives back the same set of
   * dates, with that date now last.
   */
  lemma ToggleDateTwicePresent(progress: Option<seq<string>>, dateStr: string)
    requires dateStr in progress.GetOr([])
    ensures var r := ToggleDate(Some(ToggleDate(progress, dateStr)), dateStr);
      (forall d :: d in r <==> d in progress.GetOr([])) && r[|r| - 1] == dateStr
  {
  }

  /** `goals.map(...)` of TOGGLE_GOAL_DAY: every goal with the id gets its date toggled. */
  function ToggleGoalDays(goals: seq<Goal>, goalId: string, dateStr: string): (r: seq<Goal>)
    ensures |r| == |goals|
    ensures forall i :: 0 <= i < |r| && goals[i].id != goalId ==> r[i] == goals[i]
    ensures forall i :: 0 <= i < |r| && goals[i].id == goalId ==>
      r[i].(progress := goals[i].progress) == goals[i]
      && (dateStr in CheckIns(r[i]) <==> dateStr !in CheckIns(goals[i]))
  {
    seq(|goals|, i requires 0 <= i < |goals| =>
      if goals[i].id == goalId then goals[i].(progress := Some(ToggleDate(goals[i].progress, dateStr)))
      else goals[i])
  }

  /** TOGGLE_ROUTINE_CHECK on the date → checked-ids map. */
  function ToggleCheck(checks: map<string, seq<string>>, routineId: string, dateStr: string)
    : (r: map<string, seq<string>>)
    ensures r.Keys == checks.Keys + {dateStr}
    ensures forall k :: k in checks && k != dateStr ==> r[k] == checks[k]
    ensures routineId in r[dateStr] <==> !(dateStr in checks && routineId in checks[dateStr])
    ensures forall x :: x != routineId ==> (x in r[dateStr] <==> dateStr in checks && x in checks[dateStr])
  {
    var current := if dateStr in checks then checks[dateStr] else [];
    var next := if routineId in current then RemoveWhere(current, Self, routineId) else current + [routineId];
    checks[dateStr := next]
  }

  /** Unchecking the only routine of a date leaves an empty list under that date, not a missing key. */
  lemma ToggleCheckLastRemoval(checks: map<string, seq<string>>, routineId: string, dateStr: string)
    requires dateStr in checks && checks[dateStr] == [routineId]
    ensures dateStr in ToggleCheck(checks, routineId, dateStr)
    ensures ToggleCheck(checks, routineId, dateStr)[dateStr] == []
  {
    assert RemoveWhere([routineId], Self, routineId) == [];
  }

  /** A routine is never listed twice under one date. */
  lemma ToggleCheckNoDuplicates(checks: map<string, seq<string>>, routineId: string, dateStr: string)
    requires forall k :: k in checks ==> NoDuplicates(checks[k])
    ensures var r := ToggleCheck(checks, routineId, dateStr);
      forall k :: k in r ==> NoDuplicates(r[k])
  {
    if dateStr in checks && routineId in checks[dateStr] {
      RemoveWhereNoDuplicates(checks[dateStr], Self, routineId);
    }
  }

  /** `{ ...user, ...patch }`. */
  function MergeUser(u: User, p: UserPatch): (r: User)
    ensures p.name.None? ==> r.name == u.name
    ensures p.name.Some? ==> r.name == p.name.value
    ensures p.avatar.None? ==> r.avatar == u.avatar
    ensures p.avatar.Some? ==> r.avatar == p.avatar.value
  {
    User(p.name.GetOr(u.name), p.avatar.GetOr(u.avatar))
  }

  /** `{ ...settings, [category]: { ...settings[category], ...patch } }`. */
  function MergeSettings(ns: NotificationSettings, p: SettingsPatch): (r: NotificationSettings)
    ensures !p.TasksPatch? ==> r.tasks == ns.tasks
    ensures !p.GoalsPatch? ==> r.goals == ns.goals
    ensures !p.RoutinesPatch? ==> r.routines == ns.routines
    ensures !p.MotivationPatch? ==> r.motivation == ns.motivation
    ensures p.enabled.None? ==>
      r.tasks.enabled == ns.tasks.enabled && r.goals.enabled == ns.goals.enabled
      && r.routines.enabled == ns.routines.enabled && r.motivation.enabled == ns.motivation.enabled
    ensures p.enabled.Some? ==>
      match p
      case TasksPatch(_, _, _) => r.tasks.enabled == p.enabled.value
      case GoalsPatch(_, _, _) => r.goals.enabled == p.enabled.value
      case RoutinesPatch(_, _, _) => r.routines.enabled == p.enabled.value
      case MotivationPatch(_, _) => r.motivation.enabled == p.enabled.value
    ensures p.TasksPatch? ==>
      && r.tasks.intervalMinutes == (if p.intervalMinutes.Some? then p.intervalMinutes.value else ns.tasks.intervalMinutes)
      && r.tasks.reminderTime == (if p.taskReminderTime.Some? then p.taskReminderTime.value else ns.tasks.reminderTime)
    ensures p.GoalsPatch? ==>
      && r.goals.reminderTime == (if p.goalReminderTime.Some? then p.goalReminderTime.value else ns.goals.reminderTime)
      && r.goals.streakAlerts == (if p.streakAlerts.Some? then p.streakAlerts.value else ns.goals.streakAlerts)
    ensures p.RoutinesPatch? ==>
      && r.routines.morningTime == (if p.morningTime.Some? then p.morningTime.value else ns.routines.morningTime)
      && r.routines.eveningTime == (if p.eveningTime.Some? then p.eveningTime.value else ns.routines.eveningTime)
    ensures p.MotivationPatch? ==>
      r.motivation.intervalHours == (if p.intervalHours.Some? then p.intervalHours.value else ns.motivation.intervalHours)
  {
    match p
    case TasksPatch(enabled, interval, reminder) =>
      ns.(tasks := TaskSettings(
        enabled.GetOr(ns.tasks.enabled),
        interval.GetOr(ns.tasks.intervalMinutes),
        reminder.GetOr(ns.tasks.reminderTime)))
    case GoalsPatch(enabled, reminder, streak) =>
      ns.(goals := GoalSettings(
        enabled.GetOr(ns.goals.enabled),
        reminder.GetOr(ns.goals.reminderTime),
        streak.GetOr(ns.goals.streakAlerts)))
    case RoutinesPatch(enabled, morning, evening) =>
      ns.(routines := RoutineSettings(
        enabled.GetOr(ns.routines.enabled),
        morning.GetOr(ns.routines.morningTime),
        evening.GetOr(ns.routines.eveningTime)))
    case MotivationPatch(enabled, hours) =>
      ns.(motivation := MotivationSettings(
        enabled.GetOr(ns.motivation.enabled),
        hours.GetOr(ns.motivation.intervalHours)))
  }

  /** Applying the same partial settings twice is the same as applying them once. */
  lemma MergeSettingsIdempotent(ns: NotificationSettings, p: SettingsPatch)
    ensures MergeSettings(MergeSettings(ns, p), p) == MergeSettings(ns, p)
  {
  }

  /** `{ ...state, ...payload }`: the keys present in the blob replace the state's. */
  function LoadBlob(s: State, b: Blob): (r: State)
    ensures r.isModalOpen == s.isModalOpen && r.modalSelectedDate == s.modalSelectedDate
    ensures b.tasks.Some? ==> r.tasks == b.tasks.value
    ensures b.tasks.None? ==> r.tasks == s.tasks
    ensures b.notificationSettings.Some? ==> r.notificationSettings == b.notificationSettings.value
    ensures b.notificationSettings.None? ==> r.notificationSettings == s.notificationSettings
    ensures r.goals == (if b.goals.Some? then b.goals.value else s.goals)
    ensures r.routines == (if b.routines.Some? then b.routines.value else s.routines)
    ensures r.routineChecks == (if b.routineChecks.Some? then b.routineChecks.value else s.routineChecks)
    ensures r.user == (if b.user.Some? then b.user.value else s.user)
    ensures r.notificationsEnabled == (if b.notificationsEnabled.Some? then b.notificationsEnabled.value else s.notificationsEnabled)
  {
    s.(tasks := b.tasks.GetOr(s.tasks),
       goals := b.goals.GetOr(s.goals),
       routines := b.routines.GetOr(s.routines),
       routineChecks := b.routineChecks.GetOr(s.routineChecks),
       user := b.user.GetOr(s.user),
       notificationsEnabled := b.notificationsEnabled.GetOr(s.notificationsEnabled),
       notificationSettings := b.notificationSettings.GetOr(s.notificationSettings))
  }

  // ---------------------------------------------------------------------------
  // The reducer
  // ---------------------------------------------------------------------------

  /** `appReducer(state, action)`. */
  function AppReducer(s: State, a: Action): (r: State)
    ensures a.Unknown? ==> r == s
    ensures a.AddTask? ==> r == s.(tasks := s.tasks + [a.task])
    ensures a.AddGoal? ==> r == s.(goals := s.goals + [a.goal])
    ensures a.AddRoutine? ==> r == s.(routines := s.routines + [a.routine])
    ensures a.ToggleTask? ==> r.(tasks := s.tasks) == s
    ensures a.DeleteTask? ==> r.(tasks := s.tasks) == s
    ensures a.DeleteGoal? || a.ToggleGoalDay? ==> r.(goals := s.goals) == s
    ensures a.DeleteRoutine? ==> r.(routines := s.routines) == s
    ensures a.ToggleRoutineCheck? ==> r.(routineChecks := s.routineChecks) == s
    ensures a.UpdateUser? ==> r.(user := s.user) == s
    ensures a.UpdateNotificationSettings? ==> r.(notificationSettings := s.notificationSettings) == s
    ensures a.SetNotifications? ==> r == s.(notificationsEnabled := a.enabled)
    ensures a.ToggleModal? ==> r.(isModalOpen := s.isModalOpen, modalSelectedDate := s.modalSelectedDate) == s
  {
    match a
    case LoadData(payload) => LoadBlob(s, payload)
    case ToggleModal(open, date) =>
      // `action.date || null`: an empty string counts as no date.
      s.(isModalOpen := open, modalSelectedDate := if date == Some("") then None else date)
    case UpdateUser(p) => s.(user := MergeUser(s.user, p))
    case AddTask(t) => s.(tasks := s.tasks + [t])
    case ToggleTask(id) => s.(tasks := ToggleTasks(s.tasks, id))
    case DeleteTask(id) => s.(tasks := RemoveWhere(s.tasks, TaskId, id))
    case AddGoal(g) => s.(goals := s.goals + [g])
    case DeleteGoal(id) => s.(goals := RemoveWhere(s.goals, GoalId, id))
    case ToggleGoalDay(goalId, dateStr) => s.(goals := ToggleGoalDays(s.goals, goalId, dateStr))
    case AddRoutine(rt) => s.(routines := s.routines + [rt])
    case DeleteRoutine(id) => s.(routines := RemoveWhere(s.routines, RoutineId, id))
    case ToggleRoutineCheck(routineId, dateStr) =>
      s.(routineChecks := ToggleCheck(s.routineChecks, routineId, dateStr))
    case SetNotifications(enabled) => s.(notificationsEnabled := enabled)
    case UpdateNotificationSettings(p) => s.(notificationSettings := MergeSettings(s.notificationSettings, p))
    case Unknown(_) => s
  }

  /** TOGGLE_TASK twice on the same id gives back the same state. */
  lemma ToggleTaskTwice(s: State, id: string)
    ensures AppReducer(AppReducer(s, ToggleTask(id)), ToggleTask(id)) == s
  {
    ToggleTasksInvolution(s.tasks, id);
  }

  /** Deleting an id that no entity carries leaves the state as it was. */
  lemma DeleteAbsentIsNoOp(s: State, id: string)
    ensures (forall t :: t in s.tasks ==> t.id != id) ==> AppReducer(s, DeleteTask(id)) == s
    ensures (forall g :: g in s.goals ==> g.id != id) ==> AppReducer(s, DeleteGoal(id)) == s
    ensures (forall rt :: rt in s.routines ==> rt.id != id) ==> AppReducer(s, DeleteRoutine(id)) == s
  {
  }

  /** Deleting removes every entry with the id and keeps all others. */
  lemma DeleteTaskRemovesExactly(s: State, id: string)
    ensures forall t :: t in AppReducer(s, DeleteTask(id)).tasks <==> t in s.tasks && t.id != id
  {
  }

  /** No two entries of `xs` carry the same key. */
  predicate DistinctKeys<T>(xs: seq<T>, key: T -> string) {
    forall i, j :: 0 <= i < j < |xs| ==> key(xs[i]) != key(xs[j])
  }

  /** No two tasks, goals or routines share an id. */
  predicate UniqueIds(s: State) {
    DistinctKeys(s.tasks, TaskId) && DistinctKeys(s.goals, GoalId) && DistinctKeys(s.routines, RoutineId)
  }

  /** With fresh ids for new entities, no two entities of a kind ever share an id. */
  lemma ReducerKeepsIdsUnique(s: State, a: Action)
    requires UniqueIds(s)
    requires a.AddTask? ==> forall t :: t in s.tasks ==> t.id != a.task.id
    requires a.AddGoal? ==> forall g :: g in s.goals ==> g.id != a.goal.id
    requires a.AddRoutine? ==> forall rt :: rt in s.routines ==> rt.id != a.routine.id
    requires a.LoadData? && a.payload.tasks.Some? ==> DistinctKeys(a.payload.tasks.value, TaskId)
    requires a.LoadData? && a.payload.goals.Some? ==> DistinctKeys(a.payload.goals.value, GoalId)
    requires a.LoadData? && a.payload.routines.Some? ==> DistinctKeys(a.payload.routines.value, RoutineId)
    ensures UniqueIds(AppReducer(s, a))
  {
    match a
    case DeleteTask(id) => RemoveWhereSubsequenceIds(s.tasks, TaskId, id);
    case DeleteGoal(id) => RemoveWhereSubsequenceIds(s.goals, GoalId, id);
    case DeleteRoutine(id) => RemoveWhereSubsequenceIds(s.routines, RoutineId, id);
    case _ =>
  }

  /** Filtering a list whose keys are distinct leaves a list whose keys are distinct. */
  lemma {:induction false} RemoveWhereSubsequenceIds<T(!new)>(xs: seq<T>, key: T -> string, id: string)
    requires DistinctKeys(xs, key)
    ensures DistinctKeys(RemoveWhere(xs, key, id), key)
  {
    if xs != [] {
      RemoveWhereSubsequenceIds(xs[1..], key, id);
      var rest := RemoveWhere(xs[1..], key, id);
      var r := RemoveWhere(xs, key, id);
      forall y | y in rest ensures key(y) != key(xs[0]) {
        assert y in xs[1..];
        var k :| 0 <= k < |xs[1..]| && xs[1..][k] == y;
        assert xs[k + 1] == y;
      }
      if key(xs[0]) != id {
        assert r == [xs[0]] + rest;
        forall i, j | 0 <= i < j < |r| ensures key(r[i]) != key(r[j]) {
          if i == 0 {
            assert r[j] == rest[j - 1];
          } else {
            assert r[i] == rest[i - 1] && r[j] == rest[j - 1];
          }
        }
      }
    }
  }

  // ---------------------------------------------------------------------------
  // Payload builders and loading
  // ---------------------------------------------------------------------------

  /**
   * `addTask(title, date, priority = 'medium', category = 'general')`: a new,
   * not yet completed task; without a date it is due now. `id` stands for the
   * fresh uuid and `now` for the clock.
   */
  function NewTask(id: string, title: string, date: Option<Instant>, priority: Option<Priority>,
                   category: Option<string>, now: Instant): (t: Task)
    ensures t.id == id && t.title == title && !t.completed && t.createdAt == now
    ensures t.date == (if date.Some? then date.value else now)
    ensures priority.None? ==> t.priority == Medium
    ensures priority.Some? ==> t.priority == priority.value
    ensures category.None? ==> t.category == "general"
    ensures category.Some? ==> t.category == category.value
  {
    Task(id, title, date.GetOr(now), false, priority.GetOr(Medium), category.GetOr("general"), now)
  }

  /** `addGoal(title, durationDays = 90)`: starts now with no check-ins. */
  function NewGoal(id: string, title: string, durationDays: Option<int>, now: Instant): (g: Goal)
    ensures g.id == id && g.title == title && g.startDate == now && g.progress == Some([])
    ensures g.durationDays == (if durationDays.Some? then durationDays.value else 90)
  {
    Goal(id, title, now, durationDays.GetOr(90), Some([]))
  }

  /** `addRoutine(title)`. */
  function NewRoutine(id: string, title: string, now: Instant): (rt: Routine)
    ensures rt.id == id && rt.title == title && rt.createdAt == now
  {
    Routine(id, title, now)
  }

  /** The `date` argument of `toggleGoalDay`/`toggleRoutineCheck`: a ready key or a `Date`. */
  datatype DateArg = DateKey(key: string) | DateValue(at: Instant)

  /** `typeof date === 'string' ? date : format(date, 'yyyy-MM-dd')`. */
  function DateKeyOf(d: DateArg): (key: string)
    ensures d.DateKey? ==> key == d.key
    ensures d.DateValue? ==> key == DateStr(d.at.day)
  {
    match d
    case DateKey(k) => k
    case DateValue(t) => DateStr(t.day)
  }

  /** `toggleGoalDay(goalId, date)`. */
  function GoalDayAction(goalId: string, date: DateArg): (a: Action)
    ensures a == ToggleGoalDay(goalId, DateKeyOf(date))
  {
    ToggleGoalDay(goalId, DateKeyOf(date))
  }

  /** Two `Date` arguments toggle the same check-in exactly when they fall on the same day. */
  lemma SameDayDatesGiveSameAction(goalId: string, a: Instant, b: Instant)
    ensures GoalDayAction(goalId, DateValue(a)) == GoalDayAction(goalId, DateValue(b)) <==> a.day == b.day
  {
    if DateStr(a.day) == DateStr(b.day) {
      DateStrInjective(a.day, b.day);
    }
  }

  /** `toggleRoutineCheck(routineId, date = new Date())`: without a date, today's key. */
  function RoutineCheckAction(routineId: string, date: Option<DateArg>, now: Instant): (a: Action)
    ensures date.None? ==> a == ToggleRoutineCheck(routineId, DateStr(now.day))
    ensures date.Some? ==> a == ToggleRoutineCheck(routineId, DateKeyOf(date.value))
  {
    ToggleRoutineCheck(routineId, DateKeyOf(date.GetOr(DateValue(now))))
  }

  /**
   * Startup load: with no saved blob nothing is dispatched; a blob without
   * notification settings gets the defaults before LOAD_DATA is dispatched.
   */
  function LoadAction(saved: Option<Blob>): (a: Option<Action>)
    ensures saved.None? <==> a.None?
    ensures saved.Some? ==> a.value.LoadData? && a.value.payload.notificationSettings.Some?
    ensures saved.Some? && saved.value.notificationSettings.None? ==>
      a.value.payload == saved.value.(notificationSettings := Some(DefaultNotificationSettings))
    ensures saved.Some? && saved.value.notificationSettings.Some? ==> a.value.payload == saved.value
  {
    match saved
    case None => None
    case Some(b) =>
      if b.notificationSettings.None? then Some(LoadData(b.(notificationSettings := Some(DefaultNotificationSettings))))
      else Some(LoadData(b))
  }

  /** Loading a blob without notification settings yields exactly the defaults. */
  lemma LoadWithoutSettingsGivesDefaults(s: State, b: Blob)
    requires b.notificationSettings.None?
    ensures AppReducer(s, LoadAction(Some(b)).value).notificationSettings == DefaultNotificationSettings
  {
  }
}
