/** How often a receiver gets the same delivery, whether or not it acknowledges it:
    at most once, until a batch that has reached it is aborted, or records the
    request as failed with attempts left. Either of these, and nothing else, makes a
    second receipt possible. */
module Receipts {
  import opened Domain
  import opened Dispatchers
  import opened Waits

  /** The requests that have reached the receiver. */
  function Receipts(sent: seq<Sent>): nat {
    if sent == [] then 0 else Receipts(sent[..|sent| - 1]) + if sent[|sent| - 1].answer.Reached() then 1 else 0
  }

  /** The open batch has reached the receiver of the row. */
  predicate HasReached(b: Batch, d: DeliveryId) {
    b.Sending? && d in b.results && b.results[d].Reached()
  }

  /** Some open batch has reached the receiver, and has yet to say so. */
  predicate AwaitsRecord(s: State, d: DeliveryId) {
    exists x :: x in s.batches && HasReached(s.batches[x], d)
  }

  /** At most one receipt, and none while the row waits to be sent. */
  ghost predicate ReceiptsOk(s: State, d: DeliveryId)
    requires d in s.rows && d in s.sent
  {
    && Receipts(s.sent[d]) <= 1
    && (s.rows[d].status.DeliveryPending? && !AwaitsRecord(s, d) ==> Receipts(s.sent[d]) == 0)
  }

  // ---- What loses a receipt ----

  /** The batch rolls back, and with it what it would have recorded. */
  ghost predicate AbortLoses(s: State, x: DispatcherId, d: DeliveryId) {
    x in s.batches && HasReached(s.batches[x], d)
  }

  /** The receiver was reached but gave no success status in time: the batch records a
      failure, and the row has attempts left. */
  ghost predicate CommitLoses(s: State, x: DispatcherId, d: DeliveryId) {
    FailsWithRetry(s, x, d) && HasReached(s.batches[x], d)
  }

  ghost predicate Loses(s: State, e: Event, d: DeliveryId) {
    (e.Abort? && AbortLoses(s, e.x, d)) || (e.Commit? && CommitLoses(s, e.x, d))
  }

  /** No event of the run loses a receipt of the row. */
  ghost predicate KeepsReceipts(s: State, events: seq<Event>, d: DeliveryId)
    decreases |events|
  {
    events == []
    || (Enabled(s, events[0]) && !Loses(s, events[0], d) && KeepsReceipts(Next(s, events[0]), events[1..], d))
  }

  // ---- At most one receipt ----

  lemma ReachedIsClaimed(s: State, d: DeliveryId)
    requires Inv(s)
    ensures forall y :: y in s.batches && HasReached(s.batches[y], d) ==> d in s.batches[y].Claimed() && d in s.rows
  {
    forall y | y in s.batches && HasReached(s.batches[y], d) ensures d in s.batches[y].Claimed() && d in s.rows {
      ResultsAreClaimed(s, y);
    }
  }

  lemma OneMoreReceipt(sent: seq<Sent>, last: Sent)
    ensures Receipts(sent + [last]) == Receipts(sent) + match last.answer
                                                      case Acknowledged => 1
                                                      case Unacknowledged => 1
                                                      case Unreached => 0
  {
    assert (sent + [last])[..|sent|] == sent;
  }

  /** A row about to be sent is pending, and no open batch has reached its receiver. */
  lemma NotReachedYet(s: State, x: DispatcherId, answer: Answer)
    requires Inv(s) && Enabled(s, Send(x, answer))
    ensures var d := s.batches[x].todo[0]; d in s.rows && s.rows[d].status.DeliveryPending? && !AwaitsRecord(s, d)
  {
    var b, d := s.batches[x], s.batches[x].todo[0];
    assert Holds(s, BatchPart) && Holds(s, LockPart) && BatchOk(s, b);
    assert d in b.todo && d in b.read && ClaimOk(s, b, d);
    ReachedIsClaimed(s, d);
  }

  lemma SendReaches(s: State, x: DispatcherId, answer: Answer, d: DeliveryId)
    requires Enabled(s, Send(x, answer))
    ensures var s', first := Next(s, Send(x, answer)), s.batches[x].todo[0];
            && (d != first ==> (AwaitsRecord(s', d) <==> AwaitsRecord(s, d)))
            && (d == first && !AwaitsRecord(s, d) ==> (AwaitsRecord(s', d) <==> answer.Reached()))
  {
    var s', first := Next(s, Send(x, answer)), s.batches[x].todo[0];
    assert forall y :: y in s.batches && y != x ==> s'.batches[y] == s.batches[y];
    assert d != first ==> (HasReached(s'.batches[x], d) <==> HasReached(s.batches[x], d));
    assert d == first ==> (HasReached(s'.batches[x], d) <==> answer.Reached());
    if d != first {
      forall y | y in s.batches ensures HasReached(s'.batches[y], d) <==> HasReached(s.batches[y], d) {
      }
    }
  }

  lemma SendKeepsReceipts(s: State, x: DispatcherId, answer: Answer, d: DeliveryId)
    requires Inv(s) && Enabled(s, Send(x, answer)) && d in s.rows && d in s.sent && ReceiptsOk(s, d)
    ensures ReceiptsOk(Next(s, Send(x, answer)), d)
  {
    NotReachedYet(s, x, answer);
    SendReaches(s, x, answer, d);
    OneMoreReceipt(s.sent[d], Sent(s.now, answer));
  }

  lemma CommitKeepsReceipts(s: State, x: DispatcherId, d: DeliveryId)
    requires Inv(s) && Enabled(s, Commit(x)) && !CommitLoses(s, x, d) && d in s.rows && d in s.sent && ReceiptsOk(s, d)
    ensures ReceiptsOk(Next(s, Commit(x)), d)
  {
    var s', b := Next(s, Commit(x)), s.batches[x];
    CommitIsAtomic(s, x);
    if d in b.results {
      ResultsAreClaimed(s, x);
      assert Holds(s, BatchPart) && Holds(s, LockPart) && BatchOk(s, b) && ClaimOk(s, b, d);
      ReachedIsClaimed(s, d);
      assert AwaitsRecord(s, d) ==> HasReached(b, d);
    } else {
      forall y | y in s.batches && HasReached(s.batches[y], d) ensures y in s'.batches && HasReached(s'.batches[y], d) {
      }
    }
  }

  lemma StepKeepsReceipts(s: State, e: Event, d: DeliveryId)
    requires Inv(s) && Enabled(s, e) && !Loses(s, e, d) && d in Next(s, e).rows && d in Next(s, e).sent
    requires d in s.rows ==> d in s.sent && ReceiptsOk(s, d)
    ensures ReceiptsOk(Next(s, e), d)
  {
    var s' := Next(s, e);
    if e.Send? {
      SendKeepsReceipts(s, e.x, e.answer, d);
    } else if e.Commit? {
      CommitKeepsReceipts(s, e.x, d);
    } else if d in s.rows {
      forall y | y in s.batches && HasReached(s.batches[y], d) ensures y in s'.batches && HasReached(s'.batches[y], d) {
      }
    }
  }

  lemma {:induction false} RunKeepsReceipts(s: State, events: seq<Event>, end: State, d: DeliveryId)
    requires Inv(s) && Runs(s, events, end) && KeepsReceipts(s, events, d)
    requires d in s.rows ==> d in s.sent && ReceiptsOk(s, d)
    ensures Inv(end) && (d in end.rows ==> d in end.sent && ReceiptsOk(end, d))
    decreases |events|
  {
    if events != [] {
      var next := Next(s, events[0]);
      StepKeeps(s, events[0]);
      assert Holds(next, RowPart);
      if d in next.rows { StepKeepsReceipts(s, events[0], d); }
      RunKeepsReceipts(next, events[1..], end, d);
    }
  }

  /** However many dispatchers run, a receiver gets a delivery at most once, as long as
      no batch that has reached it is aborted or records a failure with attempts left. */
  lemma ReceivedAtMostOnce(events: seq<Event>, s: State, d: DeliveryId)
    requires Runs(EMPTY, events, s) && KeepsReceipts(EMPTY, events, d) && d in s.rows
    ensures d in s.sent && Receipts(s.sent[d]) <= 1
  {
    EmptyIsOk();
    RunKeepsReceipts(EMPTY, events, s, d);
  }

  // ---- A second receipt ----

  lemma ReachedWasReceived(s: State, x: DispatcherId, d: DeliveryId)
    requires Inv(s) && x in s.batches && HasReached(s.batches[x], d)
    ensures d in s.sent && Receipts(s.sent[d]) >= 1
  {
    assert Holds(s, RequestPart) && OwnRequest(s, s.batches[x], d);
  }

  /** An event that loses a receipt leaves the row pending and free. */
  lemma LossLeavesRowFree(s: State, e: Event, d: DeliveryId)
    requires Inv(s) && Enabled(s, e) && Loses(s, e, d)
    ensures var s' := Next(s, e);
            && d in s'.rows && s'.rows[d].status.DeliveryPending? && d !in LockedRows(s')
            && d in s.sent && d in s'.sent && s'.sent[d] == s.sent[d]
  {
    ReachedWasReceived(s, e.x, d);
    if e.Abort? {
      ResultsAreClaimed(s, e.x);
      assert Holds(s, BatchPart) && Holds(s, LockPart) && BatchOk(s, s.batches[e.x]) && ClaimOk(s, s.batches[e.x], d);
    } else {
      RetryIsScheduled(s, e.x, d);
    }
  }

  /** A pending and free row can be received, without a commit or an abort. */
  lemma CanBeReceived(s: State, d: DeliveryId) returns (events: seq<Event>, end: State)
    requires Inv(s) && d in s.rows && s.rows[d].status.DeliveryPending? && d !in LockedRows(s)
    ensures Runs(s, events, end) && forall e :: e in events ==> !e.Abort? && !e.Commit?
    ensures d in s.sent && d in end.sent && Receipts(end.sent[d]) == Receipts(s.sent[d]) + 1
  {
    var before, ready, x := RequestAsSoonAsDue(s, d);
    end := Next(ready, Send(x, Acknowledged));
    OneStep(ready, Send(x, Acknowledged));
    RunsCompose(s, before, ready, [Send(x, Acknowledged)], end);
    events := before + [Send(x, Acknowledged)];
    OneMoreReceipt(s.sent[d], Sent(ready.now, Acknowledged));
  }

  lemma {:induction false} OpenBatchesKeepReceipts(s: State, events: seq<Event>, end: State, d: DeliveryId)
    requires Runs(s, events, end) && forall e :: e in events ==> !e.Abort? && !e.Commit?
    ensures KeepsReceipts(s, events, d)
    decreases |events|
  {
    if events != [] {
      assert events[0] in events;
      OpenBatchesKeepReceipts(Next(s, events[0]), events[1..], end, d);
    }
  }

  /** After an event that loses a receipt, some run has the row received once more. */
  lemma LossCanRepeat(s: State, e: Event, d: DeliveryId) returns (events: seq<Event>, end: State)
    requires Inv(s) && Enabled(s, e) && Loses(s, e, d)
    ensures Runs(Next(s, e), events, end) && KeepsReceipts(Next(s, e), events, d)
    ensures d in s.sent && d in end.sent && Receipts(end.sent[d]) == Receipts(s.sent[d]) + 1 >= 2
  {
    LossLeavesRowFree(s, e, d);
    ReachedWasReceived(s, e.x, d);
    StepKeeps(s, e);
    events, end := CanBeReceived(Next(s, e), d);
    OpenBatchesKeepReceipts(Next(s, e), events, end, d);
  }

  /** Some continuation that loses no further receipt of the row has it received twice. */
  ghost predicate CanBeReceivedTwice(s: State, d: DeliveryId) {
    exists events, end ::
      Runs(s, events, end) && KeepsReceipts(s, events, d) && d in end.sent && Receipts(end.sent[d]) >= 2
  }

  /** After a run that has lost no receipt, an event makes a second receipt possible
      exactly when it loses the first: it aborts a batch that has reached the receiver,
      or records as failed, with attempts left, a request that has. */
  lemma TwiceIffReceiptLost(events: seq<Event>, s: State, e: Event, d: DeliveryId)
    requires Runs(EMPTY, events, s) && KeepsReceipts(EMPTY, events, d) && d in s.rows && Enabled(s, e)
    ensures CanBeReceivedTwice(Next(s, e), d) <==> Loses(s, e, d)
  {
    EmptyIsOk();
    RunKeepsReceipts(EMPTY, events, s, d);
    var next := Next(s, e);
    StepKeeps(s, e);
    if Loses(s, e, d) {
      var more, end := LossCanRepeat(s, e, d);
    } else {
      assert Holds(next, RowPart);
      NextHasRow(s, e, d);
      StepKeepsReceipts(s, e, d);
      forall more, end | Runs(next, more, end) && KeepsReceipts(next, more, d) && d in end.sent
        ensures Receipts(end.sent[d]) <= 1
      {
        RunKeepsReceipts(next, more, end, d);
        assert Holds(end, RowPart);
      }
    }
  }

  lemma NextHasRow(s: State, e: Event, d: DeliveryId)
    requires Enabled(s, e) && d in s.rows
    ensures d in Next(s, e).rows
  {
  }

  // ---- At most seven requests ----

  predicate InFlight(s: State, d: DeliveryId) {
    exists x :: x in s.batches && s.batches[x].Sending? && d in s.batches[x].results
  }

  /** Every request is counted, or about to be. */
  ghost predicate AllCounted(s: State, d: DeliveryId)
    requires d in s.sent && d in s.counted
  {
    |s.sent[d]| == |s.counted[d]| + if InFlight(s, d) then 1 else 0
  }

  lemma SendIsInFlight(s: State, x: DispatcherId, answer: Answer, d: DeliveryId)
    requires Inv(s) && Enabled(s, Send(x, answer))
    ensures var s', first := Next(s, Send(x, answer)), s.batches[x].todo[0];
            && (d != first ==> (InFlight(s', d) <==> InFlight(s, d)))
            && (d == first ==> !InFlight(s, d) && InFlight(s', d))
  {
    var s', first := Next(s, Send(x, answer)), s.batches[x].todo[0];
    assert Holds(s, BatchPart) && Holds(s, LockPart) && BatchOk(s, s.batches[x]);
    assert first in s.batches[x].todo && first in s.batches[x].Claimed();
    forall y | y in s.batches && s.batches[y].Sending? ensures first !in s.batches[y].results {
      ResultsAreClaimed(s, y);
    }
    assert first in s'.batches[x].results;
    if d != first {
      forall y | y in s.batches && s.batches[y].Sending?
        ensures d in s'.batches[y].results <==> d in s.batches[y].results
      {
      }
    }
  }

  lemma CommitIsCounted(s: State, x: DispatcherId, d: DeliveryId)
    requires Inv(s) && Enabled(s, Commit(x)) && d in s.counted && d in s.sent && AllCounted(s, d)
    ensures AllCounted(Next(s, Commit(x)), d)
  {
    var s', b := Next(s, Commit(x)), s.batches[x];
    if d in b.results {
      assert Holds(s, LockPart);
      forall y | y in s'.batches && s'.batches[y].Sending? ensures d !in s'.batches[y].results {
        ResultsAreClaimed(s, x);
        ResultsAreClaimed(s, y);
      }
    } else {
      forall y | y in s.batches && s.batches[y].Sending? && d in s.batches[y].results ensures y in s'.batches {
      }
    }
  }

  lemma StepIsCounted(s: State, e: Event, d: DeliveryId)
    requires Inv(s) && Enabled(s, e) && !e.Abort? && d in Next(s, e).rows
    requires d in s.rows ==> d in s.sent && d in s.counted && AllCounted(s, d)
    ensures d in Next(s, e).sent && d in Next(s, e).counted && AllCounted(Next(s, e), d)
  {
    var s' := Next(s, e);
    StepKeeps(s, e);
    assert Holds(s', RowPart);
    if e.Send? {
      SendIsInFlight(s, e.x, e.answer, d);
    } else if e.Commit? {
      CommitIsCounted(s, e.x, d);
    } else if d in s.rows {
      forall y | y in s.batches && s.batches[y].Sending? && d in s.batches[y].results
        ensures y in s'.batches && s'.batches[y] == s.batches[y]
      {
      }
    } else {
      forall y | y in s.batches && s.batches[y].Sending? ensures d !in s.batches[y].results { ResultsAreClaimed(s, y); }
      assert !InFlight(s', d);
    }
  }

  lemma {:induction false} RunIsCounted(s: State, events: seq<Event>, end: State, d: DeliveryId)
    requires Inv(s) && Runs(s, events, end) && forall e :: e in events ==> !e.Abort?
    requires d in s.rows ==> d in s.sent && d in s.counted && AllCounted(s, d)
    ensures Inv(end) && (d in end.rows ==> d in end.sent && d in end.counted && AllCounted(end, d))
    decreases |events|
  {
    if events != [] {
      var next := Next(s, events[0]);
      assert events[0] in events;
      StepKeeps(s, events[0]);
      if d in next.rows { StepIsCounted(s, events[0], d); }
      RunIsCounted(next, events[1..], end, d);
    }
  }

  /** Without aborts at most seven requests are made for a delivery, answered or not. */
  lemma AtMostSevenRequests(events: seq<Event>, s: State, d: DeliveryId)
    requires Runs(EMPTY, events, s) && d in s.rows && forall e :: e in events ==> !e.Abort?
    ensures d in s.sent && |s.sent[d]| <= 7
  {
    EmptyIsOk();
    RunIsCounted(EMPTY, events, s, d);
    assert Holds(s, RowPart) && RowOk(s.rows[d], s.counted[d]);
    if InFlight(s, d) {
      var x :| x in s.batches && s.batches[x].Sending? && d in s.batches[x].results;
      ResultsAreClaimed(s, x);
      assert Holds(s, BatchPart) && BatchOk(s, s.batches[x]) && ClaimOk(s, s.batches[x], d);
    }
  }
}
