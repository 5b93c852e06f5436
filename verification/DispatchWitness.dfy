/** Concrete runs of the dispatchers that show where their limits are. */
module DispatchWitness {
  import opened Domain
  import opened Schedule
  import opened Dispatchers

  const LETTER := Letter(0, 0, InvoiceCreated, CreatedPayload(0, 0))

  /** The only row is due and free: the next batch selects it. */
  lemma SelectsTheRow(s: State) returns (s': State)
    requires Reachable(s) && s.batches == map[] && s.rows.Keys == {0} && Due(s.rows[0], s.now)
    ensures Reachable(s') && s' == s.(batches := map[0 := Sending(s.now, map[0 := s.rows[0].attemptCount], [0], map[])])
  {
    ReachableStep(s, Begin(0));
    var begun := Next(s, Begin(0));
    assert LockedRows(begun) == {};
    ReachableStep(begun, Select(0, [0]));
    s' := Next(begun, Select(0, [0]));
    assert ReadCounts(s.rows, [0]) == map[0 := s.rows[0].attemptCount];
  }

  lemma SendsTheRow(s: State, answer: Answer, e: Event) returns (s': State)
    requires Reachable(s) && 0 in s.batches && s.batches[0].Sending? && s.batches[0].todo == [0] && 0 in s.sent
        && e in {Commit(0), Abort(0)}
    ensures var b := s.batches[0].(todo := [], results := s.batches[0].results[0 := answer]);
            var sent := s.(batches := s.batches[0 := b], sent := s.sent[0 := s.sent[0] + [Sent(s.now, answer)]]);
            Reachable(sent) && Enabled(sent, e) && s' == Next(sent, e) && Reachable(s')
  {
    ReachableStep(s, Send(0, answer));
    var sent := Next(s, Send(0, answer));
    ReachableStep(sent, e);
    s' := Next(sent, e);
  }

  /** One row, one batch that has just selected it. */
  lemma FirstBatch() returns (s: State)
    ensures Reachable(s) && s == State(map[0 := NewDelivery(LETTER, 0)], 0,
        map[0 := Sending(0, map[0 := 0], [0], map[])], map[0 := []], map[0 := []])
  {
    assert Runs(EMPTY, [], EMPTY);
    ReachableStep(EMPTY, Enqueue(0, LETTER, 0));
    s := SelectsTheRow(Next(EMPTY, Enqueue(0, LETTER, 0)));
  }

  /** The first send goes out 100 seconds after its batch began, and fails. */
  lemma FirstSendFailsLate() returns (s: State)
    ensures Reachable(s) && s.now == 100 && s.batches == map[]
    ensures s.rows == map[0 := NewDelivery(LETTER, 0).(attemptCount := 1, nextAttemptAt := 30)]
    ensures s.counted == map[0 := [0]] && s.sent == map[0 := [Sent(100, Unreached)]]
  {
    s := FirstBatch();
    ReachableStep(s, Wait(100));
    s := SendsTheRow(Next(s, Wait(100)), Unreached, Commit(0));
    assert s.counted[0] == [0] && s.sent[0] == [Sent(100, Unreached)];
  }

  /** The waiting time is kept between batch starts, not between requests: the
      first two requests for a row may go out at the same instant, although the
      schedule puts 30 seconds between them. */
  lemma RequestsMayBeClose() returns (s: State)
    ensures Reachable(s) && 0 in s.sent && s.sent[0] == [Sent(100, Unreached), Sent(100, Unreached)]
    ensures 0 in s.counted && s.counted[0] == [0, 100]
  {
    s := FirstSendFailsLate();
    s := SelectsTheRow(s);
    s := SendsTheRow(s, Unreached, Commit(0));
  }

  /** An abort after an acknowledged request makes the receiver get the delivery again. */
  lemma AbortMayRepeat() returns (s: State)
    ensures Reachable(s) && s.batches == map[] && 0 in s.sent
        && s.sent[0] == [Sent(0, Acknowledged), Sent(0, Acknowledged)]
  {
    s := FirstBatch();
    s := SendsTheRow(s, Acknowledged, Abort(0));
    assert s.rows == map[0 := NewDelivery(LETTER, 0)] && s.batches == map[];
    s := SelectsTheRow(s);
    s := SendsTheRow(s, Acknowledged, Commit(0));
  }

  /** The first request reaches its receiver, which does not acknowledge it. */
  lemma FirstSendIsNotAcknowledged() returns (s: State)
    ensures Reachable(s) && s.now == 30 && s.batches == map[]
    ensures s.rows == map[0 := NewDelivery(LETTER, 0).(attemptCount := 1, nextAttemptAt := 30)]
    ensures 0 in s.sent && s.sent[0] == [Sent(0, Unacknowledged)]
  {
    s := FirstBatch();
    s := SendsTheRow(s, Unacknowledged, Commit(0));
    ReachableStep(s, Wait(30));
    s := Next(s, Wait(30));
  }

  /** So does a receiver that answers too late, without any abort. */
  lemma SlowReceiverGetsItAgain() returns (s: State)
    ensures Reachable(s) && s.batches == map[] && 0 in s.sent
    ensures s.sent[0] == [Sent(0, Unacknowledged), Sent(30, Unacknowledged)]
  {
    s := FirstSendIsNotAcknowledged();
    s := SelectsTheRow(s);
    s := SendsTheRow(s, Unacknowledged, Commit(0));
  }
}
