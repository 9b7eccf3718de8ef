/** The reminder command: `Remind` decides on each polling tick whether to
    send a reminder, and `ScheduleNext` handles the "Done" button. */
module ReminderCommand {
  import opened Wrappers
  import opened Scheduling
  import opened Models

  /** What one `Remind` tick did; `ReminderSent` stands for the message sent
      to the chat. */
  datatype RemindOutcome =
    | NotInitialized
    | FirstReminderScheduled
    | NotDue
    | AlreadySent
    | OutsideWindow
    | ReminderSent(text: string)

  /** One polling tick for one user at time of day `now`. */
  method Remind(settings: TelegramSettings, now: TimeOfDay) returns (outcome: RemindOutcome)
    requires settings.Valid()
    modifies settings
    ensures settings.Setup() == old(settings.Setup())
    ensures settings.consumed_today_ml == old(settings.consumed_today_ml)
    // which branch is taken
    ensures outcome == NotInitialized <==> !old(settings.is_initialized)
    ensures outcome == FirstReminderScheduled <==>
      old(settings.is_initialized && settings.next_reminder_at.None?)
    ensures outcome == NotDue <==>
      old(settings.is_initialized && settings.next_reminder_at.Some? &&
          settings.next_reminder_at.value > now)
    ensures outcome == AlreadySent <==>
      old(settings.is_initialized && settings.next_reminder_at.Some? &&
          settings.next_reminder_at.value <= now && settings.SlotAlreadySent())
    ensures outcome == OutsideWindow <==>
      old(settings.is_initialized && settings.next_reminder_at.Some? &&
          settings.next_reminder_at.value <= now && !settings.SlotAlreadySent() &&
          !settings.InReminderWindow(now))
    ensures outcome.ReminderSent? <==>
      old(settings.is_initialized && settings.next_reminder_at.Some? &&
          settings.next_reminder_at.value <= now && !settings.SlotAlreadySent() &&
          settings.InReminderWindow(now))
    // the new state
    ensures outcome == FirstReminderScheduled ==>
      settings.next_reminder_at == Some(old(settings.ComputeNextReminderDatetime(now)))
    ensures outcome != FirstReminderScheduled ==>
      settings.next_reminder_at == old(settings.next_reminder_at)
    ensures outcome.ReminderSent? ==>
      outcome.text == settings.reminder_text && settings.last_reminder_sent_at == Some(now)
    ensures !outcome.ReminderSent? ==>
      settings.last_reminder_sent_at == old(settings.last_reminder_sent_at)
    // at most one reminder per scheduled slot
    ensures outcome.ReminderSent? ==> settings.SlotAlreadySent()
    ensures old(settings.SlotAlreadySent()) ==> !outcome.ReminderSent?
    // the scheduled reminder stays inside the window
    ensures settings.WindowOrdered() && old(settings.NextReminderInWindow()) ==>
      settings.NextReminderInWindow()
  {
    if !settings.is_initialized {
      return NotInitialized;
    }
    if settings.next_reminder_at.None? {
      settings.next_reminder_at := Some(settings.ComputeNextReminderDatetime(now));
      return FirstReminderScheduled;
    }
    if settings.next_reminder_at.value > now {
      return NotDue;
    }
    if settings.last_reminder_sent_at.Some? &&
       settings.last_reminder_sent_at.value >= settings.next_reminder_at.value {
      return AlreadySent;
    }
    if !settings.InReminderWindow(now) {
      return OutsideWindow;
    }
    outcome := ReminderSent(settings.reminder_text);
    settings.last_reminder_sent_at := Some(now);
  }

  /** The "Done" button at time of day `now`: one dose more, and the next
      reminder recomputed from the new total. */
  method ScheduleNext(settings: TelegramSettings, now: TimeOfDay)
    requires settings.Valid()
    modifies settings
    ensures settings.Setup() == old(settings.Setup())
    ensures settings.consumed_today_ml ==
      old(settings.consumed_today_ml) + settings.consumption_size_ml
    ensures settings.next_reminder_at == Some(settings.ComputeNextReminderDatetime(now))
    ensures settings.last_reminder_sent_at == old(settings.last_reminder_sent_at)
    ensures settings.WindowOrdered() ==> settings.NextReminderInWindow()
  {
    settings.consumed_today_ml := settings.consumed_today_ml + settings.consumption_size_ml;
    settings.next_reminder_at := Some(settings.ComputeNextReminderDatetime(now));
  }

  /** Two ticks with no "Done" in between never both send, whatever their
      times. */
  method RemindTwice(settings: TelegramSettings, first: TimeOfDay, second: TimeOfDay)
    returns (a: RemindOutcome, b: RemindOutcome)
    requires settings.Valid()
    modifies settings
    ensures !(a.ReminderSent? && b.ReminderSent?)
  {
    a := Remind(settings, first);
    b := Remind(settings, second);
  }
}
