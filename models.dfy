/** The per-user record of the Telegram bot, which the commands update in
    place, and its read-only projections onto the scheduler. */
module Models {
  import opened Wrappers
  import opened Scheduling

  /** The fields only the setup flow writes: goal, window, dose, intervals,
      reminder text and the initialisation flag. */
  datatype SetupFields = SetupFields(
    daily_goal_ml: int,
    reminder_window_start: TimeOfDay,
    reminder_window_end: TimeOfDay,
    consumption_size_ml: int,
    reminder_repeat_interval_seconds: int,
    minimum_interval_seconds: int,
    reminder_text: string,
    is_initialized: bool)

  class TelegramSettings {
    var daily_goal_ml: int
    var reminder_window_start: TimeOfDay
    var reminder_window_end: TimeOfDay
    var consumption_size_ml: int
    var reminder_repeat_interval_seconds: int
    var minimum_interval_seconds: int
    var reminder_text: string
    var next_reminder_at: Option<TimeOfDay>
    var consumed_today_ml: int
    var is_initialized: bool
    var last_reminder_sent_at: Option<TimeOfDay>

    /** A fresh record carries the field defaults. */
    constructor ()
      ensures daily_goal_ml == 3000
      ensures reminder_window_start == At(8, 0, 0) && reminder_window_end == At(22, 0, 0)
      ensures consumption_size_ml == 250
      ensures reminder_repeat_interval_seconds == 900
      ensures minimum_interval_seconds == 1200
      ensures reminder_text == "Time to hydrate!"
      ensures next_reminder_at.None? && last_reminder_sent_at.None?
      ensures consumed_today_ml == 0 && !is_initialized
      ensures Valid() && WindowOrdered()
    {
      daily_goal_ml := 3000;
      reminder_window_start := At(8, 0, 0);
      reminder_window_end := At(22, 0, 0);
      consumption_size_ml := 250;
      reminder_repeat_interval_seconds := 900;
      minimum_interval_seconds := 1200;
      reminder_text := "Time to hydrate!";
      next_reminder_at := None;
      consumed_today_ml := 0;
      is_initialized := false;
      last_reminder_sent_at := None;
    }

    /** The dose lies in the range the field's validators allow. */
    predicate Valid()
      reads this
    {
      100 <= consumption_size_ml <= 500
    }

    /** The window does not span midnight. */
    predicate WindowOrdered()
      reads this
    {
      reminder_window_start <= reminder_window_end
    }

    /** A scheduled reminder, if any, lies inside the window. */
    predicate NextReminderInWindow()
      reads this
    {
      next_reminder_at.Some? ==> InReminderWindow(next_reminder_at.value)
    }

    /** A reminder has already gone out for the slot now scheduled. */
    predicate SlotAlreadySent()
      reads this
    {
      last_reminder_sent_at.Some? && next_reminder_at.Some? &&
      last_reminder_sent_at.value >= next_reminder_at.value
    }

    function Setup(): SetupFields
      reads this
    {
      SetupFields(daily_goal_ml, reminder_window_start, reminder_window_end,
                  consumption_size_ml, reminder_repeat_interval_seconds,
                  minimum_interval_seconds, reminder_text, is_initialized)
    }

    /** The scheduler's view of this record: its goal, today's total, its
        dose, its window and its minimum interval. */
    function HydrationSchedule(): (h: Scheduling.HydrationSchedule)
      reads this
      ensures h.goal_ml == daily_goal_ml && h.consumed_ml == consumed_today_ml
      ensures h.consumption_size_ml == consumption_size_ml
      ensures h.window_start == reminder_window_start && h.window_end == reminder_window_end
      ensures h.minimum_interval_seconds == minimum_interval_seconds
    {
      Scheduling.HydrationSchedule(
        goal_ml := daily_goal_ml,
        consumed_ml := consumed_today_ml,
        consumption_size_ml := consumption_size_ml,
        window_start := reminder_window_start,
        window_end := reminder_window_end,
        minimum_interval_seconds := minimum_interval_seconds)
    }

    /** Whether `t` lies in this record's reminder window, both ends included. */
    predicate InReminderWindow(t: TimeOfDay)
      reads this
      ensures InReminderWindow(t) <==> reminder_window_start <= t <= reminder_window_end
    {
      HydrationSchedule().InReminderWindow(t)
    }

    /** When the next reminder is due, counted from `from`, for this record's
        current goal, total and settings. */
    function ComputeNextReminderDatetime(from: TimeOfDay): (r: TimeOfDay)
      reads this
      requires Valid()
      ensures WindowOrdered() ==> InReminderWindow(r)
      ensures !InReminderWindow(from) ==> r == reminder_window_start
      ensures InReminderWindow(from) && consumed_today_ml == 0 ==> r == from
      ensures consumed_today_ml != 0 && consumed_today_ml >= daily_goal_ml ==>
        r == reminder_window_start
    {
      HydrationSchedule().ComputeNextReminder(from)
    }
  }
}
