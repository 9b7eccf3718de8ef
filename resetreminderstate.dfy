/** The daily reset job: every record starts the day with nothing drunk, the
    next reminder at its window's start and no reminder sent. */
module ResetReminderState {
  import opened Wrappers
  import opened Models

  datatype ResetOutcome = NothingToDo | ResetDone

  /** A record as the reset leaves it. */
  predicate IsReset(s: TelegramSettings)
    reads s
  {
    s.consumed_today_ml == 0 &&
    s.next_reminder_at == Some(s.reminder_window_start) &&
    s.last_reminder_sent_at.None?
  }

  /** Resets every record of `records`, one after the other. */
  method ResetAll(records: array<TelegramSettings>) returns (outcome: ResetOutcome)
    modifies records[..]
    ensures outcome == NothingToDo <==> records.Length == 0
    ensures forall i :: 0 <= i < records.Length ==> IsReset(records[i])
    ensures forall i :: 0 <= i < records.Length ==>
      records[i].Setup() == old(records[i].Setup())
    ensures forall i :: 0 <= i < records.Length ==>
      records[i].WindowOrdered() ==> records[i].NextReminderInWindow()
  {
    if records.Length == 0 {
      return NothingToDo;
    }
    var k := 0;
    while k < records.Length
      invariant 0 <= k <= records.Length
      invariant forall i :: 0 <= i < k ==> IsReset(records[i])
      invariant forall i :: 0 <= i < records.Length ==>
        records[i].Setup() == old(records[i].Setup())
    {
      var s := records[k];
      s.consumed_today_ml := 0;
      s.next_reminder_at := Some(s.reminder_window_start);
      s.last_reminder_sent_at := None;
      k := k + 1;
    }
    outcome := ResetDone;
  }
}
