/** The reminder scheduling calculator: how much is left to drink, how many
    reminders that takes, how far apart they go, and when the next one is. */
module Scheduling {
  import opened Wrappers

  const SecondsPerDay: int := 86400

  /** A time of day, in whole seconds since midnight. */
  type TimeOfDay = t: int | 0 <= t < 86400

  /** The time of day `hour:minute:second`. */
  function At(hour: int, minute: int, second: int): (t: TimeOfDay)
    requires 0 <= hour < 24 && 0 <= minute < 60 && 0 <= second < 60
    ensures t / 3600 == hour && t % 3600 / 60 == minute && t % 60 == second
  {
    hour * 3600 + minute * 60 + second
  }

  /** The time of day reached by counting `t` seconds from midnight of some day:
      what `.time()` gives for a datetime `t` seconds after midnight. */
  function WrapDay(t: int): (r: TimeOfDay)
    ensures (t - r) % SecondsPerDay == 0
    ensures 0 <= t < SecondsPerDay ==> r == t
    ensures SecondsPerDay <= t < 2 * SecondsPerDay ==> r == t - SecondsPerDay
  {
    var r := t % SecondsPerDay;
    assert t - r == SecondsPerDay * (t / SecondsPerDay);
    r
  }

  /** Python's `math.ceil(a / b)`, computed exactly on integers. */
  function CeilDiv(a: int, b: int): (q: int)
    requires b != 0
    ensures b > 0 ==> (q - 1) * b < a <= q * b
    ensures b < 0 ==> q * b <= a < (q - 1) * b
  {
    if b > 0 then
      var k := (-a) / b;
      assert b * k <= -a < b * k + b;
      -k
    else
      var k := a / (-b);
      assert (-b) * k <= a < (-b) * k + (-b);
      -k
  }

  /** Whole seconds from `start` to `end` on the same day, or 0 when `end`
      is not after `start`. */
  function RemainingWindowSeconds(start: TimeOfDay, end: TimeOfDay): (r: nat)
    ensures r >= end - start
    ensures r == 0 || r == end - start
    ensures r < SecondsPerDay
  {
    var remaining := end - start;
    if remaining > 0 then remaining else 0
  }

  /** One user's pacing parameters; the scheduler never changes them. */
  datatype HydrationSchedule = HydrationSchedule(
    goal_ml: int,
    consumed_ml: int,
    consumption_size_ml: int,
    window_start: TimeOfDay,
    window_end: TimeOfDay,
    minimum_interval_seconds: int)
  {
    /** Millilitres still to drink today; never negative. */
    function RemainingMl(): (r: nat)
      ensures r >= goal_ml - consumed_ml
      ensures r == 0 || r == goal_ml - consumed_ml
    {
      if goal_ml - consumed_ml > 0 then goal_ml - consumed_ml else 0
    }

    /** How many doses of `consumption_size_ml` still cover the remaining
        millilitres: the rounded-up quotient. */
    function RemainingReminders(): (r: int)
      requires consumption_size_ml != 0
      ensures consumption_size_ml > 0 ==>
        (r - 1) * consumption_size_ml < RemainingMl() <= r * consumption_size_ml
      ensures consumption_size_ml > 0 ==> (r == 0 <==> RemainingMl() == 0)
      ensures consumption_size_ml > 0 ==> r >= 0
      ensures consumption_size_ml < 0 ==> r <= 0
    {
      CeilDiv(RemainingMl(), consumption_size_ml)
    }

    /** The evenly spread gap between the remaining reminders, in whole
        seconds rounded up, or None when there is nothing left to pace. */
    function IdealIntervalSeconds(from: TimeOfDay): (r: Option<int>)
      requires consumption_size_ml != 0
      ensures r.None? <==>
        RemainingReminders() <= 0 || RemainingWindowSeconds(from, window_end) == 0
      ensures r.Some? ==> r.value > 0
      ensures r.Some? ==>
        (r.value - 1) * RemainingReminders() < RemainingWindowSeconds(from, window_end)
        <= r.value * RemainingReminders()
    {
      var reminders := RemainingReminders();
      if reminders <= 0 then None
      else
        var window := RemainingWindowSeconds(from, window_end);
        if window <= 0 then None
        else
          Some(CeilDiv(window, reminders))
    }

    /** The ideal gap, but never below the minimum interval. */
    function IntervalSeconds(from: TimeOfDay): (r: Option<int>)
      requires consumption_size_ml != 0
      ensures r.None? <==> IdealIntervalSeconds(from).None?
      ensures r.Some? ==> r.value >= minimum_interval_seconds
      ensures r.Some? ==> r.value >= IdealIntervalSeconds(from).value
      ensures r.Some? ==>
        r.value == minimum_interval_seconds || r.value == IdealIntervalSeconds(from).value
    {
      match IdealIntervalSeconds(from)
      case None => None
      case Some(ideal) =>
        Some(if ideal >= minimum_interval_seconds then ideal else minimum_interval_seconds)
    }

    /** Whether `t` lies in the reminder window, both ends included. */
    predicate InReminderWindow(t: TimeOfDay)
      ensures InReminderWindow(t) ==> window_start <= window_end
      ensures t == window_start || t == window_end ==>
        (InReminderWindow(t) <==> window_start <= window_end)
    {
      window_start <= t <= window_end
    }

    /** When the next reminder is due, counted from `from`. */
    function ComputeNextReminder(from: TimeOfDay): (r: TimeOfDay)
      requires consumption_size_ml != 0
      ensures window_start <= window_end ==> InReminderWindow(r)
      ensures !InReminderWindow(from) ==> r == window_start
      ensures InReminderWindow(from) && consumed_ml == 0 ==> r == from
      ensures consumed_ml != 0 && RemainingMl() == 0 ==> r == window_start
      ensures InReminderWindow(from) && consumed_ml != 0 && from == window_end ==>
        r == window_start
      ensures InReminderWindow(from) && consumed_ml != 0 && IntervalSeconds(from).None? ==>
        r == window_start
      ensures InReminderWindow(from) && consumed_ml != 0 && IntervalSeconds(from).Some? ==>
        var c := from + IntervalSeconds(from).value;
        (c <= window_end ==> r == c) &&
        (window_end < c < SecondsPerDay ==> r == window_start) &&
        (SecondsPerDay <= c && InReminderWindow(WrapDay(c)) ==> r == WrapDay(c)) &&
        (SecondsPerDay <= c && !InReminderWindow(WrapDay(c)) ==> r == window_start)
    {
      if !InReminderWindow(from) then window_start
      else if consumed_ml == 0 then from
      else
        match IntervalSeconds(from)
        case None => window_start
        case Some(interval) =>
          var candidate := WrapDay(from + interval);
          if !InReminderWindow(candidate) then window_start else candidate
    }
  }

  /** Away from the goal and the window's end, the next reminder comes at
      least the minimum interval after `from`, no later than the window's
      end, and far enough out that the reminders still needed, spaced like
      this one, cover the rest of the window. */
  lemma {:induction false} NextReminderIsPaced(h: HydrationSchedule, from: TimeOfDay)
    requires h.consumption_size_ml != 0
    requires h.InReminderWindow(from) && h.consumed_ml != 0
    requires from + h.minimum_interval_seconds < SecondsPerDay
    requires h.ComputeNextReminder(from) != h.window_start
    ensures h.IntervalSeconds(from).Some?
    ensures h.ComputeNextReminder(from) == from + h.IntervalSeconds(from).value
    ensures var r := h.ComputeNextReminder(from);
      from < r <= h.window_end &&
      r - from >= h.minimum_interval_seconds &&
      (r - from) * h.RemainingReminders() >= h.window_end - from
  {
    var n := h.RemainingReminders();
    var window := RemainingWindowSeconds(from, h.window_end);
    var ideal := h.IdealIntervalSeconds(from).value;
    var interval := h.IntervalSeconds(from).value;
    MulMonotone(ideal - 1, 1, n);
    assert ideal <= window;
    assert h.ComputeNextReminder(from) == from + interval;
    MulMonotone(n, ideal, interval);
  }

  /** Multiplying by a non-negative factor keeps the order. */
  lemma MulMonotone(k: int, a: int, b: int)
    requires k >= 0 && a <= b
    ensures k * a <= k * b
  {
  }

  /** A minimum interval longer than what is left of the day wraps the
      candidate past midnight, and when it lands inside the window again it
      is kept: here a reminder acknowledged at 12:00 is next due at 10:00. */
  lemma WrappedCandidateStaysInWindow()
    ensures var h := HydrationSchedule(2000, 250, 250, At(8, 0, 0), At(22, 0, 0), 79200);
      h.ComputeNextReminder(At(12, 0, 0)) == At(10, 0, 0)
  {
    var h := HydrationSchedule(2000, 250, 250, At(8, 0, 0), At(22, 0, 0), 79200);
    assert h.RemainingReminders() == 7;
    assert h.IdealIntervalSeconds(At(12, 0, 0)) == Some(5143);
  }

  /** Before the window opens, with nothing drunk, the first reminder is the
      window's start. */
  lemma FirstReminderAtWindowStart()
    ensures HydrationSchedule(2000, 0, 250, At(8, 0, 0), At(22, 0, 0), 300)
      .ComputeNextReminder(At(7, 0, 0)) == At(8, 0, 0)
  {
  }

  /** One dose of 250 ml at 08:00 towards a 2000 ml goal leaves seven doses
      over fourteen hours: the next reminder is at 10:00. */
  lemma TwoHourPacingAfterFirstDose()
    ensures HydrationSchedule(2000, 250, 250, At(8, 0, 0), At(22, 0, 0), 300)
      .ComputeNextReminder(At(8, 0, 0)) == At(10, 0, 0)
  {
    var h := HydrationSchedule(2000, 250, 250, At(8, 0, 0), At(22, 0, 0), 300);
    assert h.RemainingReminders() == 7;
    assert h.IdealIntervalSeconds(At(8, 0, 0)) == Some(7200);
  }
}
