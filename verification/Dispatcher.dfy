/** `dispatch_due_batch` and `send_and_record` on the mutable outbox table. */
module Dispatcher {
  import opened Domain
  import opened Schedule

  datatype DueDelivery = DueDelivery(id: DeliveryId, attemptCount: nat)

  lemma BatchInDetail(rows: map<DeliveryId, Delivery>, locked: set<DeliveryId>, now: Time, batch: seq<DeliveryId>)
    requires IsBatch(rows, locked, now, batch)
    ensures |batch| <= 20
    ensures forall n :: 0 <= n < |batch| ==>
        batch[n] in rows && batch[n] !in locked && rows[batch[n]].status == DeliveryPending
        && rows[batch[n]].nextAttemptAt <= now
    ensures forall m, n :: 0 <= m < n < |batch| ==>
        batch[m] != batch[n] && rows[batch[m]].nextAttemptAt <= rows[batch[n]].nextAttemptAt
    ensures forall d :: (d in rows && d !in locked && rows[d].status == DeliveryPending
        && rows[d].nextAttemptAt <= now && d !in batch) ==>
          |batch| == 20 && forall n :: 0 <= n < 20 ==> rows[batch[n]].nextAttemptAt <= rows[d].nextAttemptAt
  {
    forall n | 0 <= n < |batch| ensures Eligible(rows, locked, now, batch[n]) {
      assert batch[n] in batch;
    }
    forall d | Eligible(rows, locked, now, d) && d !in batch
        ensures |batch| == 20 && forall n :: 0 <= n < 20 ==> NotLater(rows, batch[n], d) {
      forall n | 0 <= n < |batch| ensures NotLater(rows, batch[n], d) {
        assert batch[n] in batch;
      }
    }
    forall m, n | 0 <= m < n < |batch| ensures batch[m] != batch[n] && NotLater(rows, batch[m], batch[n]) {
    }
  }

  class Outbox {
    var rows: map<DeliveryId, Delivery>

    /** No statement fails and every commit takes effect. */
    const reliable: bool

    constructor (rows: map<DeliveryId, Delivery>, reliable: bool)
      ensures this.rows == rows && this.reliable == reliable
    {
      this.rows, this.reliable := rows, reliable;
    }

    method Fails() returns (fault: bool)
      ensures reliable ==> !fault
    {
      fault := *;
      fault := fault && !reliable;
    }

    /** A row of the set with the least next_attempt_at. */
    method Earliest(ids: set<DeliveryId>) returns (first: DeliveryId)
      requires ids != {} && ids <= rows.Keys
      ensures first in ids && forall d :: d in ids ==> rows[first].nextAttemptAt <= rows[d].nextAttemptAt
    {
      first :| first in ids;
      var rest := ids - {first};
      while rest != {}
        invariant first in ids && rest <= ids
        invariant forall d :: d in ids - rest ==> rows[first].nextAttemptAt <= rows[d].nextAttemptAt
        decreases rest
      {
        var d :| d in rest;
        rest := rest - {d};
        if rows[d].nextAttemptAt < rows[first].nextAttemptAt {
          first := d;
        }
      }
    }

    /** The SELECT of a batch, in due order, skipping the rows other batches hold. */
    method SelectDue(locked: set<DeliveryId>, now: Time) returns (batch: seq<DeliveryId>)
      ensures IsBatch(rows, locked, now, batch)
      ensures |batch| <= 20
      ensures forall n :: 0 <= n < |batch| ==>
          batch[n] in rows && batch[n] !in locked && rows[batch[n]].status == DeliveryPending
          && rows[batch[n]].nextAttemptAt <= now
      ensures forall m, n :: 0 <= m < n < |batch| ==>
          batch[m] != batch[n] && rows[batch[m]].nextAttemptAt <= rows[batch[n]].nextAttemptAt
      ensures forall d :: (d in rows && d !in locked && rows[d].status == DeliveryPending
          && rows[d].nextAttemptAt <= now && d !in batch) ==>
            |batch| == 20 && forall n :: 0 <= n < 20 ==> rows[batch[n]].nextAttemptAt <= rows[d].nextAttemptAt
    {
      batch := [];
      var rest := set d | d in rows && d !in locked && Due(rows[d], now);
      while rest != {} && |batch| < BATCH_LIMIT
        invariant Filling(rows, locked, now, batch, rest)
        decreases rest
      {
        var d := Earliest(rest);
        rest := rest - {d};
        batch := batch + [d];
      }
      BatchInDetail(rows, locked, now, batch);
    }

    /** One send and the UPDATE that records it; `received` is what the receiver makes of
        it: a success status in time, or anything else. */
    method SendAndRecord(due: DueDelivery, start: Time, received: bool)
      requires due.id in rows
      modifies this
      ensures rows == old(rows)[due.id := Written(old(rows)[due.id], due.attemptCount, received, start)]
      ensures var row, n := old(rows)[due.id], due.attemptCount + 1;
              && (received ==> rows[due.id] == row.(status := DeliverySucceeded))
              && (!received && n >= 7 ==> rows[due.id] == row.(status := DeliveryExhausted, attemptCount := n))
              && (!received && n < 7 ==> rows[due.id] == row.(attemptCount := n, nextAttemptAt := start
                   + if n == 1 then 30 else if n == 2 then 300 else if n == 3 then 1800
                     else if n == 4 then 7200 else if n == 5 then 43200 else 86400))
    {
      var row := rows[due.id];
      if received {
        row := row.(status := DeliverySucceeded);
      } else {
        var newAttemptCount := due.attemptCount + 1;
        if newAttemptCount >= MAX_ATTEMPTS {
          row := row.(status := DeliveryExhausted, attemptCount := newAttemptCount);
        } else {
          var delay := BACKOFF_SECONDS[newAttemptCount - 1];
          row := row.(attemptCount := newAttemptCount, nextAttemptAt := start + delay);
        }
      }
      rows := rows[due.id := row];
    }

    /** One transaction of the dispatcher, whatever the receivers answer. It processes
        exactly the batch it has selected; a failure rolls every UPDATE back, although
        requests were sent. */
    method DispatchDueBatch(locked: set<DeliveryId>, start: Time, receives: DeliveryId -> bool)
      returns (committed: bool, batch: seq<DeliveryId>, outcomes: map<DeliveryId, bool>)
      modifies this
      ensures IsBatch(old(rows), locked, start, batch)
      ensures forall d :: d in outcomes ==> outcomes[d] == receives(d)
      ensures committed ==> outcomes.Keys == Elements(batch) && rows == Processed(old(rows), outcomes, start)
      ensures !committed ==> rows == old(rows)
      ensures reliable ==> committed
    {
      var begun := rows;
      outcomes := map[];
      batch := SelectDue(locked, start);
      assert forall n :: 0 <= n < |batch| ==> batch[n] in batch && Eligible(begun, locked, start, batch[n]);
      var due := seq(|batch|, n requires 0 <= n < |batch| => DueDelivery(batch[n], begun[batch[n]].attemptCount));
      for n := 0 to |due|
        invariant outcomes.Keys == Elements(batch[..n])
        invariant forall d :: d in outcomes ==> outcomes[d] == receives(d)
        invariant rows == Processed(begun, outcomes, start)
      {
        var fault := Fails();
        if fault {
          rows := begun;
          return false, batch, outcomes;
        }
        var d := batch[n];
        assert d in batch && Eligible(begun, locked, start, d) && d !in batch[..n];
        var received := receives(d);
        SendAndRecord(due[n], start, received);
        ProcessOneMore(begun, outcomes, start, d, received);
        outcomes := outcomes[d := received];
        assert batch[..n + 1] == batch[..n] + [d];
      }
      assert batch[..|batch|] == batch;
      var fault := Fails();
      committed := !fault;
      if !committed {
        rows := begun;
      }
    }
  }
}
