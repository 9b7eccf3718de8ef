# H2Oh hydration reminders in Dafny

A Dafny model of the core of H2Oh, a Telegram bot that reminds a user to
drink water during a daily window and paces the reminders by how much is
still to drink and how much of the window is left.

- `scheduling.dfy` (module `Scheduling`): the pure calculator
  `HydrationSchedule`. It gives the millilitres left, the number of doses
  left (rounded up), the whole seconds left in the window, the ideal gap
  between reminders, that gap floored at the minimum interval, and the time
  of the next reminder. A time of day is a whole number of seconds in
  `[0, 86400)`; a candidate past midnight wraps with `% 86400`, as
  `datetime.combine(...) + timedelta` followed by `.time()` does.
- `models.dfy` (module `Models`): the per-user record `TelegramSettings` as
  a class whose fields the commands assign, with its defaults, the validator
  range of the dose (`Valid`), and the projections `HydrationSchedule`,
  `InReminderWindow` and `ComputeNextReminderDatetime`.
- `reminder.dfy` (module `ReminderCommand`): `Remind`, one polling tick. It
  checks the initialisation gate, schedules the first reminder lazily, and
  guards "not due", "already sent for this slot" and "outside the window".
  When it sends, it stamps `last_reminder_sent_at`. `ScheduleNext` is the
  "Done" button: it adds one dose and reschedules. A send is returned as an
  outcome value instead of a chat message.
- `hydrate.dfy` (module `HydrateCommand`): the initialisation gate of the
  consumption prompt, and `LogConsumption`. The latter takes the reply as
  an already parsed optional integer, adds it and reschedules.
- `resetreminderstate.dfy` (module `ResetReminderState`): the daily reset,
  a loop over an array of records.
- `overview.dfy` (module `OverviewCommand`): the three-tier overview of
  today's total against the goal.
- `timezoneinfo.dfy` (module `TimezoneInfo`): `normalize_timezone`, built
  from models of `str.strip`, `str.upper`, `str.replace(" ", "_")` and
  `str.title`.
- `tests.dfy` (module `TelegramTests`): the bot's reminder-day and hydrate
  test scenarios, played through the model.

The time "now" is a parameter of every operation that reads the clock. Each
path through `Remind` that reads the clock reads it once, and that one read
is `now`; the path for an uninitialised record reads no clock.

Behaviour of the code that the model keeps, and that a reader might not
expect:

- Neither "Done" (`ScheduleNext`) nor logging (`LogConsumption`) clears
  `last_reminder_sent_at`; only the daily reset does. So once the goal is
  met and the next reminder falls back to the window's start, every later
  tick that day answers "already sent" if a reminder went out earlier that
  day (`TelegramTests.LastRound`). If none did, the first tick inside the
  window still sends one, although the goal is met
  (`TelegramTests.GoalMetBeforeFirstReminder`).
- The deferral target is the time of day `window_start`, with no notion of
  "tomorrow". A reminder scheduled like that is already due at the next
  tick inside the window unless the idempotency guard stops it.
- There is no postponement branch. `reminder_repeat_interval_seconds` is a
  field of the record but nothing reads it.
- `compute_next_reminder` returns `from_time` itself when nothing has been
  drunk yet and `from_time` is in the window.
- A minimum interval longer than what is left of the day wraps the
  candidate past midnight. If it lands inside the window again, the code
  keeps it, even though it is earlier in the day than `from_time`
  (`Scheduling.WrappedCandidateStaysInWindow`).
- The docstring example `" europe / paris " -> "Europe/Paris"` does not hold.
  The code yields `"Europe_/_Paris"`
  (`TimezoneInfo.NormalizeKeepsSpacesAroundSlash`).

## Model

| member | source | states |
|---|---|---|
| `Scheduling.WrapDay` | src/reminders/scheduling.py:67-69 | the time of day differs from the candidate by a whole number of days, whatever the number of days; below one day it is the candidate, in the second day the candidate less one day |
| `Scheduling.CeilDiv` | src/reminders/scheduling.py:27 | `math.ceil(a / b)` on integers: the least `q` with `a <= q * b` for `b > 0`, and the mirror bounds for `b < 0` |
| `Scheduling.RemainingWindowSeconds` | src/reminders/scheduling.py:29-34 | never negative, at least `end - start`, and either 0 or exactly `end - start` |
| `Scheduling.HydrationSchedule.RemainingMl` | src/reminders/scheduling.py:19-22 | never negative, at least `goal - consumed`, and either 0 or exactly `goal - consumed` |
| `Scheduling.HydrationSchedule.RemainingReminders` | src/reminders/scheduling.py:24-27 | for a positive dose: the rounded-up number of doses covering what is left, `(r - 1) * dose < remaining <= r * dose`, and 0 exactly when nothing is left; never positive for a negative dose |
| `Scheduling.HydrationSchedule.IdealIntervalSeconds` | src/reminders/scheduling.py:36-44 | None exactly when no reminders or no window seconds remain; otherwise positive, and the remaining window divided by the remaining reminders, rounded up |
| `Scheduling.HydrationSchedule.IntervalSeconds` | src/reminders/scheduling.py:46-51 | None exactly when the ideal gap is None; otherwise at least the minimum interval and at least the ideal gap, and equal to one of them |
| `Scheduling.HydrationSchedule.InReminderWindow` | src/reminders/scheduling.py:76-78 | a time in the window implies the window is ordered; the window's own bounds are in it exactly when it is ordered |
| `Scheduling.HydrationSchedule.ComputeNextReminder` | src/reminders/scheduling.py:53-78 | inside the window whenever the window is ordered; the window's start when `from` is outside the window; `from` itself when it is inside the window and nothing has been drunk, whatever the goal; after some drinking, the window's start when the goal is met, when no interval can be computed, or when `from` is the window's end; otherwise, with candidate `c = from + interval`: `c` when it is at most the window's end, the window's start when it overshoots the end on the same day, and past midnight the wrapped time when that is in the window, else the window's start |
| `Scheduling.NextReminderIsPaced` | src/reminders/scheduling.py:36-74 | when the result is a paced candidate (no deferral, no wrap), it is exactly `from + interval`; it lies after `from`, by at least the minimum interval, no later than the window's end, and that gap times the remaining reminders covers the rest of the window |
| `Scheduling.WrappedCandidateStaysInWindow` | src/reminders/scheduling.py:67-74 | with a 22 h minimum interval, acknowledging at 12:00 schedules 10:00: the wrap is only caught when it lands outside the window |
| `Scheduling.FirstReminderAtWindowStart` | src/apps/telegram/tests.py:74-77 | goal 2000, dose 250, window 08:00-22:00: from 07:00 with nothing drunk the next reminder is 08:00 |
| `Scheduling.TwoHourPacingAfterFirstDose` | src/apps/telegram/tests.py:59-73 | the same user with 250 ml drunk at 08:00 is next reminded at 10:00 |
| `Models.TelegramSettings.constructor` | src/apps/telegram/models.py:17-86 | a fresh record: goal 3000, window 08:00-22:00, dose 250, repeat 900, minimum 1200, default text, nothing drunk, not initialised, nothing scheduled or sent |
| `Models.TelegramSettings.HydrationSchedule` | src/apps/telegram/models.py:88-98 | the scheduler's parameters are the record's goal, total, dose, window bounds and minimum interval, field for field |
| `Models.TelegramSettings.InReminderWindow` | src/apps/telegram/models.py:100-104 | true exactly when `t` lies between the record's own window bounds, both included |
| `Models.TelegramSettings.ComputeNextReminderDatetime` | src/apps/telegram/models.py:106-110 | inside the record's window when it is ordered; its start when `from` is outside the window; `from` itself when it is inside the window and nothing has been drunk, whatever the goal; its start when the goal is met after some drinking |
| `ReminderCommand.Remind` | src/apps/telegram/telegrambot/commands/reminder.py:26-64 | exactly one of six outcomes, each iff its guard; the first scheduling sets `next_reminder_at` and nothing else; a send stamps `last_reminder_sent_at = now` and returns the reminder text; otherwise nothing changes; no send when the slot was already sent, and after a send the slot counts as sent; the next reminder stays in the window |
| `ReminderCommand.ScheduleNext` | src/apps/telegram/telegrambot/commands/reminder.py:70-76 | adds exactly one dose; sets the next reminder from the new total; leaves `last_reminder_sent_at` and every setup field alone; the next reminder lies in the window |
| `ReminderCommand.RemindTwice` | src/apps/telegram/telegrambot/commands/reminder.py:44-63 | two ticks without a "Done" between them never both send |
| `HydrateCommand.AskConsumptionSize` | src/apps/telegram/telegrambot/commands/hydrate.py:24-45 | refuses exactly the uninitialised record, offers the record's dose as default, changes nothing |
| `HydrateCommand.LogConsumption` | src/apps/telegram/telegrambot/commands/hydrate.py:51-68 | an unparsable reply changes nothing; a parsed amount is added exactly, the next reminder is recomputed from the new total and lies in the window; `last_reminder_sent_at` and the setup fields are untouched |
| `ResetReminderState.ResetAll` | src/apps/telegram/management/commands/resetreminderstate.py:14-26 | reports "nothing to do" exactly for no records; afterwards every record has nothing drunk, its next reminder at its own window start and no reminder sent, and no setup field changed |
| `OverviewCommand.GoalTier` | src/apps/telegram/telegrambot/commands/overview.py:36-41 | met goal iff `consumed >= goal`; almost iff below the goal but `5 * consumed >= 4 * goal`; keep drinking iff below both |
| `OverviewCommand.GoalTierMonotone` | src/apps/telegram/telegrambot/commands/overview.py:36-41 | drinking more never lowers the tier |
| `OverviewCommand.ShowOverview` | src/apps/telegram/telegrambot/commands/overview.py:24-41 | no overview exactly for an uninitialised record; otherwise the tier of its total against its goal, read without changing the record |
| `TimezoneInfo.StripLeading` | src/apps/telegram/telegrambot/timezoneinfo.py:60-61 | a suffix of the input, with only whitespace cut off, starting with a non-whitespace character; the input itself when it does not start with whitespace |
| `TimezoneInfo.StripTrailing` | src/apps/telegram/telegrambot/timezoneinfo.py:60-61 | a prefix of the input, with only whitespace cut off, ending with a non-whitespace character; the input itself when it does not end with whitespace |
| `TimezoneInfo.Strip` | src/apps/telegram/telegrambot/timezoneinfo.py:60-61 | one contiguous slice of the input with only whitespace before and after it, itself without whitespace at either end; the input itself when already trimmed |
| `TimezoneInfo.StripKeeps` | src/apps/telegram/telegrambot/timezoneinfo.py:60-61 | stripping keeps exactly the non-whitespace characters of the input: each occurs in the result iff it occurs in the input |
| `TimezoneInfo.Upper` | src/apps/telegram/telegrambot/timezoneinfo.py:60 | same length, no lower-case letter; each lower-case letter becomes the upper-case letter whose lower case it is; every other character kept |
| `TimezoneInfo.ReplaceSpaces` | src/apps/telegram/telegrambot/timezoneinfo.py:61 | same length, no space; each space becomes "_", every other character kept |
| `TimezoneInfo.TitleFrom` | src/apps/telegram/telegrambot/timezoneinfo.py:61 | same length, letters stay letters, every non-letter kept |
| `TimezoneInfo.Title` | src/apps/telegram/telegrambot/timezoneinfo.py:61 | same length, and every position follows the title-case rule: a letter is lowered after a letter and raised otherwise |
| `TimezoneInfo.TitleAt` | src/apps/telegram/telegrambot/timezoneinfo.py:61 | the left-to-right title-casing agrees at every position with the rule "lower after a letter, raise otherwise" |
| `TimezoneInfo.TitleByCharacters` | src/apps/telegram/telegrambot/timezoneinfo.py:61 | any string that follows that rule at every position is the title-cased form |
| `TimezoneInfo.TitleIdempotent` | src/apps/telegram/telegrambot/timezoneinfo.py:61 | title-casing twice is title-casing once |
| `TimezoneInfo.NormalizeTimezone` | src/apps/telegram/telegrambot/timezoneinfo.py:58-61 | the result contains "/" iff the input does; it has no whitespace at either end; with a "/" it has no space; without one it has no lower-case letter |
| `TimezoneInfo.NormalizeIdempotent` | src/apps/telegram/telegrambot/timezoneinfo.py:58-61 | normalising twice gives the same result as once |
| `TimezoneInfo.NormalizeSingleWord` | src/apps/telegram/telegrambot/timezoneinfo.py:56-60 | `" utc "` becomes `"UTC"` |
| `TimezoneInfo.NormalizeRegionAndCity` | src/apps/telegram/telegrambot/timezoneinfo.py:54 | `"america/new york"` becomes `"America/New_York"` |
| `TimezoneInfo.NormalizeKeepsSpacesAroundSlash` | src/apps/telegram/telegrambot/timezoneinfo.py:55 | `" europe / paris "` becomes `"Europe_/_Paris"`, not the documented `"Europe/Paris"` |
| `TelegramTests.TwoHourPacing` | src/apps/telegram/tests.py:78-85 | after the (k+1)-th dose, acknowledged at 08:00 + 2k h, the next reminder is two hours later, for every k below 7 |
| `TelegramTests.FirstTick` | src/apps/telegram/tests.py:74-77 | the tick at 07:00 schedules the first reminder, at 08:00, and sends nothing |
| `TelegramTests.RemindAndDone` | src/apps/telegram/tests.py:79-106 | one round sends the reminder text at the scheduled time, reschedules two hours on, and a tick half an hour later answers "not due" |
| `TelegramTests.LastRound` | src/apps/telegram/tests.py:87-91 | the tick at 22:00 sends, the Done then meets the goal and sets the next reminder to 08:00, and a later tick answers "already sent" |
| `TelegramTests.ReminderCommandDay` | src/apps/telegram/tests.py:59-91 | the whole test day ends with the goal drunk and the next reminder at 08:00 |
| `TelegramTests.GoalMetBeforeFirstReminder` | src/apps/telegram/telegrambot/commands/reminder.py:44-53 | after the daily reset, logging the whole goal at 07:30 leaves the next reminder at 08:00 with none sent, and a tick at 09:00 still sends the reminder text: the "already sent" guard needs an earlier send |
| `TelegramTests.HydrateCommandFlow` | src/apps/telegram/tests.py:126-138 | an invalid reply is refused and leaves the total at 0; "300" then logs 300 ml and schedules the reminder it reports |

## Left out

- Chat I/O: `bot.send_message`, keyboards, callback data and step navigation
  (`next_step`, `previous_step`, `finish`). A send is an outcome value.
- Persistence: `.save()`, `refresh_from_db`, `transaction.atomic`, ORM
  queries. The reset takes the records as an array.
- The setup and unsubscribe flows and the base classes
  (`src/apps/telegram/telegrambot/commands/start.py`,
  `src/apps/telegram/telegrambot/commands/stop.py`,
  `src/apps/telegram/telegrambot/base.py`): conversational glue.
- The polling commands `src/apps/telegram/management/commands/startreminder.py`
  and `src/apps/telegram/management/commands/startoverview.py`: ORM filters
  and fake-update construction. Not modelled either is the write
  startoverview.py makes before each overview: it sets `next_reminder_at` to
  the window start and leaves `last_reminder_sent_at` alone, so after an
  overview `Remind` answers "already sent" until the next "Done" or log if a
  reminder was sent earlier that day.
- The ambient clock `timezone.now()` and `date.today()`: "now" is a parameter.
- Floating point and microseconds. Times are whole seconds. The ideal gap
  is the float quotient rounded up to a whole second, so the returned time
  can differ from the code's by under a second. The window test on the
  candidate agrees with the code's unless a wrap lands in the last second
  before midnight. `minimum_interval_seconds` is a whole number of seconds.
  The overview's `0.8 * goal` is the exact `5 * consumed >= 4 * goal`.
- `datetime` overflow past year 9999 for huge intervals: not modelled.
- Python's `int()` parsing of the reply: `LogConsumption` takes its result
  as an optional integer.
- `zoneinfo.available_timezones()` and the `COMMON_TIMEZONES` table:
  constant data.
- Letter case outside ASCII. `Upper`, `LowerChar` and `TitleFrom` map only
  ASCII letters, and only ASCII letters count as cased. `Strip` uses the
  full set of characters Python treats as whitespace.
- `get_next_reminder_at_display`: display formatting, and not defined in the
  shown source.
- `last_reminder_sent_at` is declared as a date-time field but assigned a
  time of day. It is modelled as an optional time of day, as the dispatch
  code uses it.
- `chat_id`: read only to address chat messages, which are left out above.
  The other fields of the abstract base record are not read by the core.
- The admin and app configuration (`src/apps/users/admin.py`,
  `src/apps/telegram/apps.py`).
- Scheduling.HydrationSchedule.ComputeNextReminder: requires a nonzero dose even on
  the paths that return before dividing (outside the window, nothing drunk).
  The code raises `ZeroDivisionError` only on the path that divides.
- Models.TelegramSettings.ComputeNextReminderDatetime: requires `Valid()`,
  the dose range 100..500 that the field's validators declare, in place of
  only a nonzero dose. `ReminderCommand.Remind`, `ReminderCommand.ScheduleNext`
  and `HydrateCommand.LogConsumption` carry the same requirement.
