/**
 * The notification service (src/services/notificationService.js): the fixed
 * message pools, template filling, the time-of-day buckets, the five-tier
 * completion summary and the unit conversions used for timer periods.
 *
 * `Math.random` in `getRandomMessage` is replaced by an index chosen by the
 * caller; showing a notification through the browser is not modelled.
 */
module Notifications {
  import opened Text

  datatype Template = Template(title: string, body: string)

  // ---------------------------------------------------------------------------
  // Message pools
  // ---------------------------------------------------------------------------

  const TaskMorning: seq<Template> := [
    Template("☀️ Good Morning!", "You have {count} tasks lined up today. Let's make it count! 💪"),
    Template("🌅 Rise & Shine!", "Ready to crush {count} tasks today? I believe in you! ✨"),
    Template("☕ Morning Check-in", "{count} tasks await you. Start strong, finish stronger! 🚀")
  ]

  const TaskAfternoon: seq<Template> := [
    Template("🌤️ Afternoon Nudge", "Hey! {remaining} tasks still on your list. Keep going! 💪"),
    Template("⏰ Quick Reminder", "Don't forget about your remaining {remaining} tasks! 🎯"),
    Template("🔔 Midday Check", "{remaining} tasks left. You're doing awesome! Keep it up! ⭐")
  ]

  const TaskEvening: seq<Template> := [
    Template("🌆 Evening Heads Up", "{remaining} tasks for today. Still time to finish strong! 💫"),
    Template("🌙 Final Push!", "Only {remaining} tasks left. You've got this! 🙌"),
    Template("✨ Almost There!", "Just {remaining} more tasks. End the day on a high note! 🎉")
  ]

  const TaskCompletion: seq<Template> := [
    Template("🎉 AMAZING!", "All tasks completed! You're a productivity rockstar! 🌟"),
    Template("🏆 Champion!", "Every task done! Treat yourself, you earned it! 🍰"),
    Template("🥳 Woohoo!", "Zero tasks remaining! Now that's what I call crushing it! 💪")
  ]

  const TaskIndividual: seq<Template> := [
    Template("📋 Task Reminder", "Don't forget: '{title}' - You can do this! ✨"),
    Template("🎯 Focus Time", "'{title}' is waiting for you. Small steps, big wins! 🚶"),
    Template("⭐ Gentle Nudge", "Remember '{title}'? Now's a great time to tackle it! 💪")
  ]

  const GoalCheckIn: seq<Template> := [
    Template("🔥 Streak Alert!", "Time to check in for '{title}'! Day {day} of {total} 💪"),
    Template("🎯 Daily Check-in", "Keep your '{title}' streak alive! You're on Day {day}! 🏃"),
    Template("💪 Don't Break It!", "'{title}' check-in time! {streak}% consistency so far! ⭐")
  ]

  const GoalMotivation: seq<Template> := [
    Template("🌟 You're Amazing!", "Day {day} on '{title}'! Every day counts! 💫"),
    Template("🏆 Keep Going!", "'{title}' - You've checked in {checkedDays} times! Incredible! 🎊"),
    Template("🚀 Momentum!", "Your '{title}' journey continues! Stay consistent! 💪")
  ]

  const GoalMilestone: seq<Template> := [
    Template("🎉 7-Day Streak!", "One week on '{title}'! You're building real habits! 🏅"),
    Template("🏅 14-Day Milestone!", "Two weeks strong on '{title}'! Unstoppable! 🔥"),
    Template("🥇 30-Day Champion!", "A full month on '{title}'! You're a legend! 👑")
  ]

  const GoalMissed: seq<Template> := [
    Template("👋 Hey there!", "Haven't seen you check in for '{title}' today. Still time! ⏰"),
    Template("🤗 Friendly Reminder", "'{title}' misses you! A quick check-in keeps the momentum! 💫"),
    Template("💭 Psst...", "Your '{title}' goal is waiting. Every check-in counts! ✨")
  ]

  const RoutineMorning: seq<Template> := [
    Template("☀️ Good Morning!", "Your {count} routines are ready! Start your day right! 🌅"),
    Template("🌞 Rise & Routine!", "Time to kick off {count} daily habits! Let's go! 💪"),
    Template("☕ Morning Ritual", "{count} routines await! Build the day you deserve! ✨")
  ]

  const RoutineIndividual: seq<Template> := [
    Template("✨ Routine Time!", "'{title}' is up! Small habits, big changes! 🌱"),
    Template("🔔 Quick Reminder", "Time for '{title}'! You've got this! 💪"),
    Template("🎯 Habit Check", "Don't forget '{title}' today! Every day counts! ⭐")
  ]

  const RoutineEvening: seq<Template> := [
    Template("🌙 Evening Summary", "You completed {completed}/{total} routines today! {emoji}"),
    Template("📊 Daily Wrap-up", "{completed}/{total} routines done. {message} 💫"),
    Template("🌆 End of Day", "Routine check: {completed}/{total}. {message} ✨")
  ]

  const RoutineCompletion: seq<Template> := [
    Template("🎉 Perfect Day!", "All routines completed! You're building an amazing lifestyle! 🏆"),
    Template("🥳 Routine Master!", "Every single routine done! Consistency is your superpower! 💪"),
    Template("🌟 Flawless!", "100% routine completion! Keep being awesome! ⭐")
  ]

  const MotivationalMessages: seq<Template> := [
    Template("💫 Daily Inspiration", "Every expert was once a beginner. Keep going! 🚀"),
    Template("🌟 You've Got This!", "Small progress is still progress. Be proud of yourself! 💪"),
    Template("✨ Believe", "You're capable of amazing things. Trust the process! 🌈"),
    Template("🔥 Fire Within", "Your dedication is inspiring! Keep that fire burning! 🔥"),
    Template("🌱 Growth Mindset", "Challenges help you grow. Embrace them! 💚"),
    Template("💪 Strength", "You're stronger than you think. Keep pushing! 🏋️"),
    Template("🎯 Focus", "Stay focused on your goals. You're doing incredible! ⭐"),
    Template("🌻 Positivity", "Choose to see the good. Your mindset shapes your day! ☀️"),
    Template("🚀 Momentum", "Keep the momentum going! Every step matters! 🌟"),
    Template("💖 Self-Care", "Remember to be kind to yourself today. You deserve it! 🌸"),
    Template("🎨 Creativity", "You bring something unique to the world. Never forget that! ✨"),
    Template("🏆 Champion", "You're writing your own success story. Make it legendary! 📖")
  ]
  datatype TimeOfDay = Morning | Afternoon | Evening

  /** `taskMessages[timeOfDay]`. */
  function TaskMessages(b: TimeOfDay): seq<Template> {
    match b
    case Morning => TaskMorning
    case Afternoon => TaskAfternoon
    case Evening => TaskEvening
  }

  /** Every pool can be drawn from: three templates per situation, twelve motivational ones. */
  lemma PoolSizes()
    ensures |TaskMorning| == |TaskAfternoon| == |TaskEvening| == |TaskCompletion| == |TaskIndividual| == 3
    ensures |GoalCheckIn| == |GoalMotivation| == |GoalMilestone| == |GoalMissed| == 3
    ensures |RoutineMorning| == |RoutineIndividual| == |RoutineEvening| == |RoutineCompletion| == 3
    ensures |MotivationalMessages| == 12
    ensures forall b :: |TaskMessages(b)| == 3
  {
  }

  /**
   * `getRandomMessage(messages)` with the random draw `Math.floor(Math.random() * n)`
   * given as `index`.
   */
  function GetRandomMessage(pool: seq<Template>, index: nat): (t: Template)
    requires index < |pool|
    ensures t in pool
  {
    pool[index]
  }

  // ---------------------------------------------------------------------------
  // Template filling
  // ---------------------------------------------------------------------------

  /** The placeholder `{key}`. */
  function Placeholder(key: string): string {
    "{" + key + "}"
  }

  /** One step of `formatMessage`: the first `{key}` in title and in body replaced by `value`. */
  function Fill(t: Template, key: string, value: string): Template {
    Template(ReplaceFirst(t.title, Placeholder(key), value), ReplaceFirst(t.body, Placeholder(key), value))
  }

  /**
   * What `formatMessage(template, data)` returns: the keys of `data` taken in
   * order, each filled into the result of the previous ones. Values are
   * already rendered as text (`String(value)`).
   */
  function Formatted(t: Template, data: seq<(string, string)>): (r: Template)
    ensures data == [] ==> r == t
    ensures |data| == 1 ==> r == Fill(t, data[0].0, data[0].1)
  {
    if data == [] then t
    else
      var (key, value) := data[|data| - 1];
      Fill(Formatted(t, data[..|data| - 1]), key, value)
  }

  /** `formatMessage(template, data)`: copies the template and rewrites its title and body key by key. */
  method FormatMessage(template: Template, data: seq<(string, string)>) returns (result: Template)
    ensures result == Formatted(template, data)
  {
    result := template;
    var i := 0;
    while i < |data|
      invariant 0 <= i <= |data|
      invariant result == Formatted(template, data[..i])
    {
      var (key, value) := data[i];
      result := result.(title := ReplaceFirst(result.title, Placeholder(key), value));
      result := result.(body := ReplaceFirst(result.body, Placeholder(key), value));
      assert data[..i + 1][..i] == data[..i];
      i := i + 1;
    }
    assert data[..|data|] == data;
  }

  /** A template mentioning none of the keys comes back unchanged. */
  lemma {:induction false} FormattedPlaceholderFree(t: Template, data: seq<(string, string)>)
    requires forall i :: 0 <= i < |data| ==>
      !Contains(t.title, Placeholder(data[i].0)) && !Contains(t.body, Placeholder(data[i].0))
    ensures Formatted(t, data) == t
  {
    if data != [] {
      var (key, value) := data[|data| - 1];
      FormattedPlaceholderFree(t, data[..|data| - 1]);
      ReplaceFirstAbsent(t.title, Placeholder(key), value);
      ReplaceFirstAbsent(t.body, Placeholder(key), value);
    }
  }

  /**
   * With a single key, only the first `{key}` of the body is replaced: the text
   * before it and everything after it, including any later `{key}`, is kept.
   */
  lemma FormattedReplacesFirstOnly(t: Template, key: string, value: string, k: nat)
    requires OccursAt(t.body, Placeholder(key), k)
    requires forall j: nat :: j < k ==> !OccursAt(t.body, Placeholder(key), j)
    ensures Formatted(t, [(key, value)]).body ==
      t.body[..k] + value + t.body[k + |Placeholder(key)|..]
  {
    assert [(key, value)][..0] == [];
    ReplaceFirstAtFirstOccurrence(t.body, Placeholder(key), value, k);
  }

  /** A placeholder written twice is filled once: "{n} of {n}" with n = 1 gives "1 of {n}". */
  lemma FormattedSecondOccurrenceKept()
    ensures Formatted(Template("", "{n} of {n}"), [("n", "1")]) == Template("", "1 of {n}")
  {
    var t := Template("", "{n} of {n}");
    assert [("n", "1")][..0] == [];
    assert !Contains("", Placeholder("n"));
    ReplaceFirstAbsent("", Placeholder("n"), "1");
    assert OccursAt(t.body, Placeholder("n"), 0);
    ReplaceFirstAtFirstOccurrence(t.body, Placeholder("n"), "1", 0);
  }

  // ---------------------------------------------------------------------------
  // Time of day and completion tiers
  // ---------------------------------------------------------------------------

  /** `getTimeOfDay()` for the current hour. */
  function GetTimeOfDay(hour: nat): (b: TimeOfDay)
    ensures b == Morning <==> hour < 12
    ensures b == Afternoon <==> 12 <= hour < 17
    ensures b == Evening <==> 17 <= hour
  {
    if hour < 12 then Morning
    else if hour < 17 then Afternoon
    else Evening
  }

  /** `percent === 100` with `percent = total > 0 ? completed / total * 100 : 0`. */
  predicate IsPerfect(completed: nat, total: nat) {
    total > 0 && 100 * completed == 100 * total
  }

  /** `percent >= p`, by cross-multiplication. */
  predicate PercentAtLeast(completed: nat, total: nat, p: nat) {
    if total > 0 then 100 * completed >= p * total else 0 >= p
  }

  /** `getCompletionEmoji(completed, total)`. */
  function GetCompletionEmoji(completed: nat, total: nat): (e: string)
    ensures e in TierEmojis
    ensures e == "🎉" <==> 0 < total == completed
    ensures total == 0 || 4 * completed < total ==> e == "🤗"
    ensures completed < total && 5 * completed >= 4 * total ==> e == "🌟"
  {
    if IsPerfect(completed, total) then "🎉"
    else if PercentAtLeast(completed, total, 80) then "🌟"
    else if PercentAtLeast(completed, total, 50) then "👍"
    else if PercentAtLeast(completed, total, 25) then "💪"
    else "🤗"
  }

  /** `getCompletionMessage(completed, total)`. */
  function GetCompletionMessage(completed: nat, total: nat): (m: string)
    ensures m in TierMessages
    ensures m == "Perfect score! Amazing!" <==> 0 < total == completed
    ensures total == 0 || 4 * completed < total ==> m == "Tomorrow's a new day!"
    ensures completed < total && 5 * completed >= 4 * total ==> m == "Great job today!"
  {
    if IsPerfect(completed, total) then "Perfect score! Amazing!"
    else if PercentAtLeast(completed, total, 80) then "Great job today!"
    else if PercentAtLeast(completed, total, 50) then "Solid effort! Keep it up!"
    else if PercentAtLeast(completed, total, 25) then "Every bit counts!"
    else "Tomorrow's a new day!"
  }

  const TierEmojis: seq<string> := ["🤗", "💪", "👍", "🌟", "🎉"]
  const TierMessages: seq<string> :=
    ["Tomorrow's a new day!", "Every bit counts!", "Solid effort! Keep it up!", "Great job today!", "Perfect score! Amazing!"]

  /**
   * The tier of a day's completion, 0 (below 25%) to 4 (all done), read off
   * the exact ratio `completed / total`.
   */
  function CompletionTier(completed: nat, total: nat): (tier: nat)
    ensures tier < 5
  {
    if total == 0 then 0
    else if completed == total then 4
    else if 5 * completed >= 4 * total then 3
    else if 2 * completed >= total then 2
    else if 4 * completed >= total then 1
    else 0
  }

  /** Emoji and message are always taken from the same tier. */
  lemma CompletionSummaryAgrees(completed: nat, total: nat)
    ensures GetCompletionEmoji(completed, total) == TierEmojis[CompletionTier(completed, total)]
    ensures GetCompletionMessage(completed, total) == TierMessages[CompletionTier(completed, total)]
  {
  }

  /** With a fixed total, completing more routines (up to the total) never lowers the tier. */
  lemma CompletionTierMonotone(c1: nat, c2: nat, total: nat)
    requires c1 <= c2 <= total
    ensures CompletionTier(c1, total) <= CompletionTier(c2, total)
  {
  }

  /** Nothing to do gives the lowest tier; so does nothing done out of two. */
  lemma CompletionSummaryExamples()
    ensures GetCompletionEmoji(5, 0) == "🤗"
    ensures GetCompletionEmoji(0, 2) == "🤗" && GetCompletionMessage(0, 2) == "Tomorrow's a new day!"
    ensures GetCompletionEmoji(2, 2) == "🎉" && GetCompletionEmoji(4, 5) == "🌟"
  {
  }

  /**
   * More checks than routines (checks of deleted routines still count) fall
   * back from the top tier to the 80% tier.
   */
  lemma CompletionTierPastTotal(total: nat)
    requires total > 0
    ensures CompletionTier(total + 1, total) == 3 < CompletionTier(total, total)
  {
  }

  // ---------------------------------------------------------------------------
  // Timer periods
  // ---------------------------------------------------------------------------

  /** `minutesToMs(minutes)`. */
  function MinutesToMs(minutes: int): (ms: int)
    ensures ms == 60000 * minutes
  {
    minutes * 60 * 1000
  }

  /** `hoursToMs(hours)`. */
  function HoursToMs(hours: int): (ms: int)
    ensures ms == MinutesToMs(60 * hours)
  {
    hours * 60 * 60 * 1000
  }
}
