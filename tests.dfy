/** The reminder day of the bot's own test suite, played through the model:
    goal 2000 ml in doses of 250 ml, window 08:00-22:00, minimum gap 300 s. */
module TelegramTests {
  import opened Wrappers
  import opened Scheduling
  import opened Models
  import ReminderCommand
  import HydrateCommand
  import ResetReminderState

  /** The test user's schedule with `consumed` ml drunk. */
  function TestSchedule(consumed: int): HydrationSchedule
  {
    HydrationSchedule(2000, consumed, 250, At(8, 0, 0), At(22, 0, 0), 300)
  }

  /** Cancelling a positive factor keeps a strict order. */
  lemma MulCancel(n: int, a: int, b: int)
    requires n > 0 && a * n < b * n
    ensures a < b
  {
  }

  /** After the (k+1)-th dose, acknowledged at 08:00 + 2k h, the next
      reminder is two hours later. */
  lemma TwoHourPacing(k: int)
    requires 0 <= k < 7
    ensures TestSchedule(250 * (k + 1)).ComputeNextReminder(At(8, 0, 0) + 7200 * k)
            == At(8, 0, 0) + 7200 * (k + 1)
  {
    var h := TestSchedule(250 * (k + 1));
    var from := At(8, 0, 0) + 7200 * k;
    var n := h.RemainingReminders();
    assert n == 7 - k;
    var window := RemainingWindowSeconds(from, h.window_end);
    assert window == 7200 * n;
    var q := h.IdealIntervalSeconds(from).value;
    MulCancel(n, q - 1, 7200);
    MulCancel(n, 7199, q);
  }

  /** The test user's record before round `k`: `k` doses drunk, the next
      reminder at 08:00 + 2k h and the previous one sent two hours before. */
  predicate BeforeRound(settings: TelegramSettings, k: int)
    reads settings
  {
    0 <= k <= 7 &&
    settings.HydrationSchedule() == TestSchedule(250 * k) &&
    settings.is_initialized &&
    settings.reminder_text == "Time to hydrate!" &&
    settings.next_reminder_at == Some(At(8, 0, 0) + 7200 * k) &&
    (k == 0 ==> settings.last_reminder_sent_at.None?) &&
    (k > 0 ==> settings.last_reminder_sent_at == Some(At(8, 0, 0) + 7200 * (k - 1)))
  }

  /** The test user as set up, ticked once at 07:00. */
  method FirstTick() returns (settings: TelegramSettings, outcome: ReminderCommand.RemindOutcome)
    ensures outcome == ReminderCommand.FirstReminderScheduled
    ensures fresh(settings) && BeforeRound(settings, 0)
  {
    settings := new TelegramSettings();
    settings.daily_goal_ml := 2000;
    settings.consumption_size_ml := 250;
    settings.minimum_interval_seconds := 300;
    settings.is_initialized := true;
    outcome := ReminderCommand.Remind(settings, At(7, 0, 0));
    assert settings.HydrationSchedule() == TestSchedule(0);
  }

  /** One round of the test: a tick that sends at the scheduled time, "Done"
      at that time, and a tick half an hour later that sends nothing. */
  method RemindAndDone(settings: TelegramSettings, k: int)
    returns (sent: ReminderCommand.RemindOutcome, later: ReminderCommand.RemindOutcome)
    requires BeforeRound(settings, k) && k < 7
    modifies settings
    ensures sent == ReminderCommand.ReminderSent("Time to hydrate!")
    ensures later == ReminderCommand.NotDue
    ensures BeforeRound(settings, k + 1)
  {
    var now := At(8, 0, 0) + 7200 * k;
    sent := ReminderCommand.Remind(settings, now);
    ReminderCommand.ScheduleNext(settings, now);
    TwoHourPacing(k);
    later := ReminderCommand.Remind(settings, now + 1800);
  }

  /** The last round at 22:00 meets the goal and moves the next reminder back
      to 08:00, after which a tick stays silent. */
  method LastRound(settings: TelegramSettings)
    returns (sent: ReminderCommand.RemindOutcome, later: ReminderCommand.RemindOutcome)
    requires BeforeRound(settings, 7)
    modifies settings
    ensures sent == ReminderCommand.ReminderSent("Time to hydrate!")
    ensures later == ReminderCommand.AlreadySent
    ensures settings.consumed_today_ml == settings.daily_goal_ml == 2000
    ensures settings.next_reminder_at == Some(At(8, 0, 0))
    ensures settings.last_reminder_sent_at == Some(At(22, 0, 0))
  {
    sent := ReminderCommand.Remind(settings, At(22, 0, 0));
    ReminderCommand.ScheduleNext(settings, At(22, 0, 0));
    later := ReminderCommand.Remind(settings, At(22, 30, 0));
  }

  /** Seven rounds two hours apart from 08:00 reach 22:00, where the last
      round meets the goal. */
  method ReminderCommandDay() returns (settings: TelegramSettings)
    ensures settings.consumed_today_ml == settings.daily_goal_ml == 2000
    ensures settings.next_reminder_at == Some(At(8, 0, 0))
  {
    var first;
    settings, first := FirstTick();
    var k := 0;
    while k < 7
      invariant fresh(settings) && BeforeRound(settings, k)
    {
      var sent, later := RemindAndDone(settings, k);
      k := k + 1;
    }
    var sent, later := LastRound(settings);
  }

  /** The goal met before the day's first reminder: after the daily reset,
      2000 ml logged at 07:30 leaves the next reminder at 08:00 with none sent
      yet, so a tick at 09:00 still sends one. */
  method GoalMetBeforeFirstReminder()
    returns (settings: TelegramSettings, logged: HydrateCommand.LogOutcome,
             outcome: ReminderCommand.RemindOutcome)
    ensures logged == HydrateCommand.Logged(2000, At(8, 0, 0))
    ensures settings.consumed_today_ml == settings.daily_goal_ml == 2000
    ensures outcome == ReminderCommand.ReminderSent("Time to hydrate!")
  {
    settings := new TelegramSettings();
    settings.daily_goal_ml := 2000;
    settings.minimum_interval_seconds := 300;
    settings.is_initialized := true;
    var records := new TelegramSettings[1][settings];
    var reset := ResetReminderState.ResetAll(records);
    logged := HydrateCommand.LogConsumption(settings, Some(2000), At(7, 30, 0));
    outcome := ReminderCommand.Remind(settings, At(9, 0, 0));
  }

  /** An invalid reply logs nothing; "300" then logs 300 ml on top of
      nothing drunk. */
  method HydrateCommandFlow(now: TimeOfDay)
    returns (settings: TelegramSettings, invalid: HydrateCommand.LogOutcome,
             consumedAfterInvalid: int, logged: HydrateCommand.LogOutcome)
    ensures invalid == HydrateCommand.InvalidInput && consumedAfterInvalid == 0
    ensures logged.Logged? && logged.amount_ml == 300
    ensures settings.consumed_today_ml == 300
    ensures settings.next_reminder_at == Some(logged.next_reminder_at)
  {
    settings := new TelegramSettings();
    settings.daily_goal_ml := 2000;
    settings.minimum_interval_seconds := 300;
    settings.is_initialized := true;
    var asked := HydrateCommand.AskConsumptionSize(settings);
    assert asked == HydrateCommand.PromptConsumptionSize(250);
    invalid := HydrateCommand.LogConsumption(settings, None, now);
    consumedAfterInvalid := settings.consumed_today_ml;
    logged := HydrateCommand.LogConsumption(settings, Some(300), now);
  }
}
