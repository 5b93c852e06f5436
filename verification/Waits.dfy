/** When the requests for a delivery may go out. The waiting times hold between
    batch starts; what they mean for the requests themselves is stated exactly. */
module Waits {
  import opened Domain
  import opened Schedule
  import opened Dispatchers
  import opened Claimable

  /** A request goes out in a batch that began when the row was due, that is, after
      the waiting time since the last counted batch began. */
  lemma RequestIsDue(s: State, x: DispatcherId, d: DeliveryId)
    requires Reachable(s) && Sends(s, x, d)
    ensures d in s.rows && d in s.counted && s.rows[d].status.DeliveryPending? && |s.counted[d]| < MAX_ATTEMPTS
    ensures s.now >= s.batches[x].start >= s.rows[d].nextAttemptAt == DueAfter(s.rows[d].createdAt, s.counted[d])
  {
    ReachableIsOk(s);
    assert Holds(s, BatchPart) && Holds(s, RowPart) && BatchOk(s, s.batches[x]);
    assert d in s.batches[x].todo && d in s.batches[x].read && ClaimOk(s, s.batches[x], d);
    assert RowOk(s.rows[d], s.counted[d]);
  }

  /** Time and due times only move forward. */
  lemma DueMovesForward(s: State, e: Event, d: DeliveryId)
    requires Inv(s) && Enabled(s, e) && d in s.rows
    ensures d in Next(s, e).rows && Next(s, e).now >= s.now
        && Next(s, e).rows[d].nextAttemptAt >= s.rows[d].nextAttemptAt
  {
    if e.Commit? {
      CommitIsAtomic(s, e.x);
    }
  }

  lemma {:induction false} DueNeverMovesBack(s: State, events: seq<Event>, end: State, d: DeliveryId)
    requires Inv(s) && Runs(s, events, end) && d in s.rows
    ensures d in end.rows && end.now >= s.now && end.rows[d].nextAttemptAt >= s.rows[d].nextAttemptAt
    decreases |events|
  {
    if events != [] {
      DueMovesForward(s, events[0], d);
      StepKeeps(s, events[0]);
      DueNeverMovesBack(Next(s, events[0]), events[1..], end, d);
    }
  }

  /** Whatever happens next, no request for the row goes out before `t`. */
  ghost predicate NoRequestBefore(s: State, d: DeliveryId, t: Time) {
    forall events, end, x :: Runs(s, events, end) && Sends(end, x, d) ==> end.now >= t
  }

  function Later(t: Time, t': Time): Time {
    if t >= t' then t else t'
  }

  /** Some continuation requests a free pending row as soon as it is due. */
  lemma RequestAsSoonAsDue(s: State, d: DeliveryId) returns (events: seq<Event>, end: State, x: DispatcherId)
    requires Inv(s) && d in s.rows && s.rows[d].status.DeliveryPending? && d !in LockedRows(s)
    ensures Runs(s, events, end) && Sends(end, x, d) && end.now == Later(s.now, s.rows[d].nextAttemptAt)
    ensures Inv(end) && d in s.sent && end.sent[d] == s.sent[d] && forall e :: e in events ==> e.Wait? || Harmless(e)
  {
    var wait := Wait(Later(s.now, s.rows[d].nextAttemptAt) - s.now);
    var waited := Next(s, wait);
    StepKeeps(s, wait);
    OneStep(s, wait);
    assert LockedRows(waited) == LockedRows(s);
    var more;
    more, end, x := CanBeRequested(waited, d);
    RunsCompose(s, [wait], waited, more, end);
    events := [wait] + more;
  }

  /** The exact earliest time of the next request for a free pending row. */
  lemma EarliestRequest(s: State, d: DeliveryId, t: Time)
    requires Reachable(s) && d in s.rows && s.rows[d].status.DeliveryPending? && d !in LockedRows(s)
    ensures NoRequestBefore(s, d, t) <==> t <= Later(s.now, s.rows[d].nextAttemptAt)
  {
    ReachableIsOk(s);
    var soon, end, x := RequestAsSoonAsDue(s, d);
    assert NoRequestBefore(s, d, t) ==> end.now >= t;
    forall events, end, x | Runs(s, events, end) && Sends(end, x, d)
        ensures end.now >= Later(s.now, s.rows[d].nextAttemptAt) {
      DueNeverMovesBack(s, events, end, d);
      RunKeeps(s, events, end);
      SendsDueRow(end, x, d);
    }
  }

  lemma SendsDueRow(s: State, x: DispatcherId, d: DeliveryId)
    requires Inv(s) && Sends(s, x, d)
    ensures d in s.rows && s.now >= s.rows[d].nextAttemptAt
  {
    assert Holds(s, BatchPart) && BatchOk(s, s.batches[x]);
    assert d in s.batches[x].todo && d in s.batches[x].read && ClaimOk(s, s.batches[x], d);
  }

  /** The batch is about to record a failed request that leaves a waiting time. */
  ghost predicate FailsWithRetry(s: State, x: DispatcherId, d: DeliveryId) {
    && Enabled(s, Commit(x)) && d in s.batches[x].results && d in s.batches[x].read
    && !s.batches[x].results[d].Acknowledged? && s.batches[x].read[d] + 1 < MAX_ATTEMPTS
  }

  /** After such a commit the row is pending and free, and waits from the batch start. */
  lemma RetryIsScheduled(s: State, x: DispatcherId, d: DeliveryId)
    requires Inv(s) && FailsWithRetry(s, x, d)
    ensures var b, s' := s.batches[x], Next(s, Commit(x));
            && d in s'.rows && s'.rows[d].status.DeliveryPending? && d !in LockedRows(s')
            && s'.rows[d].nextAttemptAt == b.start + BACKOFF_SECONDS[b.read[d]] && s'.now == s.now
  {
    CommitIsAtomic(s, x);
    ResultsAreClaimed(s, x);
    assert Holds(s, BatchPart) && Holds(s, LockPart) && BatchOk(s, s.batches[x]) && ClaimOk(s, s.batches[x], d);
  }

  /** The documented waiting time after a failed request is guaranteed, whatever
      happens next, exactly when the request went out at the very start of its batch
      or the waiting time had already passed when the batch committed. */
  lemma WaitIsKeptIff(s: State, x: DispatcherId, d: DeliveryId)
    requires Reachable(s) && FailsWithRetry(s, x, d)
    ensures d in s.sent && s.sent[d] != []
    ensures var requested, wait := Last(s.sent[d]).at, BACKOFF_SECONDS[s.batches[x].read[d]];
            NoRequestBefore(Next(s, Commit(x)), d, requested + wait) <==>
            requested == s.batches[x].start || s.now >= requested + wait
  {
    ReachableIsOk(s);
    assert Holds(s, RequestPart) && OwnRequest(s, s.batches[x], d);
    RetryIsScheduled(s, x, d);
    ReachableStep(s, Commit(x));
    EarliestRequest(Next(s, Commit(x)), d, Last(s.sent[d]).at + BACKOFF_SECONDS[s.batches[x].read[d]]);
  }
}
