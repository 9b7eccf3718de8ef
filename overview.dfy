/** The overview command: today's total against the goal, in one of three
    tiers. */
module OverviewCommand {
  import opened Wrappers
  import opened Models

  datatype Tier = MetGoal | AlmostMetGoal | KeepDrinking

  /** The tier for `consumed` ml against `goal` ml: the goal met, at least
      four fifths of it, or less. */
  function GoalTier(consumed: int, goal: int): (t: Tier)
    ensures t == MetGoal <==> consumed >= goal
    ensures t == AlmostMetGoal <==> consumed < goal && 5 * consumed >= 4 * goal
    ensures t == KeepDrinking <==> consumed < goal && 5 * consumed < 4 * goal
  {
    if consumed >= goal then MetGoal
    else if 5 * consumed >= 4 * goal then AlmostMetGoal
    else KeepDrinking
  }

  /** Tiers ordered from furthest to closest to the goal. */
  function Rank(t: Tier): nat
  {
    match t
    case KeepDrinking => 0
    case AlmostMetGoal => 1
    case MetGoal => 2
  }

  /** Drinking more never moves the overview to a lower tier. */
  lemma GoalTierMonotone(consumed: int, more: int, goal: int)
    requires consumed <= more
    ensures Rank(GoalTier(consumed, goal)) <= Rank(GoalTier(more, goal))
  {
  }

  /** The overview for the record, or None when its setup is unfinished;
      the record is only read. */
  function ShowOverview(settings: TelegramSettings): (r: Option<Tier>)
    reads settings
    ensures r.None? <==> !settings.is_initialized
    ensures r.Some? ==> (r.value == MetGoal <==> settings.consumed_today_ml >= settings.daily_goal_ml)
    ensures r.Some? ==> r.value == GoalTier(settings.consumed_today_ml, settings.daily_goal_ml)
  {
    if !settings.is_initialized then None
    else Some(GoalTier(settings.consumed_today_ml, settings.daily_goal_ml))
  }
}
