/** The hydrate command: ask how much was drunk, then log it. */
module HydrateCommand {
  import opened Wrappers
  import opened Scheduling
  import opened Models

  /** What the first step does: refuse an unfinished setup, or prompt for an
      amount offering the record's dose as the default. */
  datatype AskOutcome = NotInitialized | PromptConsumptionSize(default_ml: int)

  /** What the second step does: send the user back on input that is not an
      integer, or log the amount and report the new next reminder. */
  datatype LogOutcome = InvalidInput | Logged(amount_ml: int, next_reminder_at: TimeOfDay)

  /** The first step; it reads the record and changes nothing. */
  method AskConsumptionSize(settings: TelegramSettings) returns (outcome: AskOutcome)
    ensures outcome.NotInitialized? <==> !settings.is_initialized
    ensures outcome.PromptConsumptionSize? ==>
      outcome.default_ml == settings.consumption_size_ml
  {
    if !settings.is_initialized {
      return NotInitialized;
    }
    outcome := PromptConsumptionSize(settings.consumption_size_ml);
  }

  /** The second step at time of day `now`; `parsed` is the reply read as an
      integer, or None when it is not one. */
  method LogConsumption(settings: TelegramSettings, parsed: Option<int>, now: TimeOfDay)
    returns (outcome: LogOutcome)
    requires settings.Valid()
    modifies settings
    ensures settings.Setup() == old(settings.Setup())
    ensures settings.last_reminder_sent_at == old(settings.last_reminder_sent_at)
    ensures parsed.None? ==> outcome == InvalidInput
    ensures parsed.None? ==>
      settings.consumed_today_ml == old(settings.consumed_today_ml) &&
      settings.next_reminder_at == old(settings.next_reminder_at)
    ensures parsed.Some? ==>
      settings.consumed_today_ml == old(settings.consumed_today_ml) + parsed.value
    ensures parsed.Some? ==>
      settings.next_reminder_at == Some(settings.ComputeNextReminderDatetime(now)) &&
      outcome == Logged(parsed.value, settings.next_reminder_at.value)
    ensures parsed.Some? && settings.WindowOrdered() ==> settings.NextReminderInWindow()
  {
    if parsed.None? {
      return InvalidInput;
    }
    settings.consumed_today_ml := settings.consumed_today_ml + parsed.value;
    var next := settings.ComputeNextReminderDatetime(now);
    settings.next_reminder_at := Some(next);
    outcome := Logged(parsed.value, next);
  }
}
