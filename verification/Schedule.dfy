/** The delivery schedule of the outbox: which rows a batch takes, and what one
    send makes of a row. */
module Schedule {
  import opened Domain

  const MAX_ATTEMPTS: nat := 7
  const BACKOFF_SECONDS: seq<nat> := [30, 300, 1800, 7200, 43200, 86400]
  const BATCH_LIMIT: nat := 20

  predicate Due(row: Delivery, now: Time) {
    row.status.DeliveryPending? && row.nextAttemptAt <= now
  }

  /** The UPDATE that `send_and_record` issues; `read` is the attempt count that the
      batch's SELECT returned, and `start` is now() of the batch's transaction. */
  function Written(row: Delivery, read: nat, received: bool, start: Time): Delivery {
    if received then row.(status := DeliverySucceeded)
    else if read + 1 >= MAX_ATTEMPTS then row.(status := DeliveryExhausted, attemptCount := read + 1)
    else row.(attemptCount := read + 1, nextAttemptAt := start + BACKOFF_SECONDS[read])
  }

  /** A batch committed on the rows it has read. */
  function Processed(rows: map<DeliveryId, Delivery>, outcomes: map<DeliveryId, bool>,
      start: Time): map<DeliveryId, Delivery>
  {
    map d | d in rows :: if d in outcomes then Written(rows[d], rows[d].attemptCount, outcomes[d], start) else rows[d]
  }

  lemma ProcessOneMore(rows: map<DeliveryId, Delivery>, outcomes: map<DeliveryId, bool>, start: Time, d: DeliveryId,
      received: bool)
    requires d in rows && d !in outcomes
    ensures Processed(rows, outcomes, start)[d] == rows[d]
    ensures Processed(rows, outcomes[d := received], start)
         == Processed(rows, outcomes, start)[d := Written(rows[d], rows[d].attemptCount, received, start)]
  {
  }

  predicate Eligible(rows: map<DeliveryId, Delivery>, locked: set<DeliveryId>, now: Time, d: DeliveryId) {
    d in rows && d !in locked && Due(rows[d], now)
  }

  predicate NotLater(rows: map<DeliveryId, Delivery>, d: DeliveryId, e: DeliveryId) {
    d in rows && e in rows && rows[d].nextAttemptAt <= rows[e].nextAttemptAt
  }

  predicate InDueOrder(rows: map<DeliveryId, Delivery>, batch: seq<DeliveryId>) {
    forall m, n :: 0 <= m < n < |batch| ==> batch[m] != batch[n] && NotLater(rows, batch[m], batch[n])
  }

  /** What SELECT ... ORDER BY next_attempt_at LIMIT 20 FOR UPDATE SKIP LOCKED may return. */
  ghost predicate IsBatch(rows: map<DeliveryId, Delivery>, locked: set<DeliveryId>, now: Time, batch: seq<DeliveryId>) {
    && |batch| <= BATCH_LIMIT
    && (forall d :: d in batch ==> Eligible(rows, locked, now, d))
    && InDueOrder(rows, batch)
    && (forall d, e :: Eligible(rows, locked, now, d) && d !in batch && e in batch ==> NotLater(rows, e, d))
    && (forall d :: Eligible(rows, locked, now, d) && d !in batch ==> |batch| == BATCH_LIMIT)
  }

  /** A batch being filled in due order: `rest` is what is still eligible. */
  ghost predicate Filling(rows: map<DeliveryId, Delivery>, locked: set<DeliveryId>, now: Time, batch: seq<DeliveryId>,
      rest: set<DeliveryId>)
  {
    && |batch| <= BATCH_LIMIT
    && (forall d :: d in batch ==> Eligible(rows, locked, now, d))
    && (forall d :: Eligible(rows, locked, now, d) <==> d in rest || (d in batch && d in rows))
    && (forall d :: d in rest ==> d !in batch)
    && InDueOrder(rows, batch)
    && (forall d, e :: d in rest && e in batch ==> NotLater(rows, e, d))
  }

  lemma {:induction false} EarliestExists(rows: map<DeliveryId, Delivery>, ids: set<DeliveryId>)
      returns (first: DeliveryId)
    requires ids != {} && ids <= rows.Keys
    ensures first in ids && forall d :: d in ids ==> NotLater(rows, first, d)
  {
    var d :| d in ids;
    first := d;
    if ids != {d} {
      var other := EarliestExists(rows, ids - {d});
      first := if rows[other].nextAttemptAt < rows[d].nextAttemptAt then other else d;
    }
    forall e | e in ids ensures NotLater(rows, first, e) {
      assert e == d || e in ids - {d};
    }
  }

  lemma {:induction false} FillBatch(rows: map<DeliveryId, Delivery>, locked: set<DeliveryId>, now: Time,
                                     batch: seq<DeliveryId>, rest: set<DeliveryId>) returns (full: seq<DeliveryId>)
    requires Filling(rows, locked, now, batch, rest)
    ensures IsBatch(rows, locked, now, full)
    decreases rest
  {
    if rest == {} || |batch| == BATCH_LIMIT {
      full := batch;
    } else {
      assert forall d :: d in rest ==> Eligible(rows, locked, now, d);
      var d := EarliestExists(rows, rest);
      full := FillBatch(rows, locked, now, batch + [d], rest - {d});
    }
  }

  /** The SELECT of a batch always has a result. */
  lemma BatchExists(rows: map<DeliveryId, Delivery>, locked: set<DeliveryId>, now: Time)
      returns (batch: seq<DeliveryId>)
    ensures IsBatch(rows, locked, now, batch)
  {
    batch := FillBatch(rows, locked, now, [], set d | d in rows && d !in locked && Due(rows[d], now));
  }

  /** The sum of the first `k` waiting times. */
  function BackoffSum(k: nat): nat
    requires k <= |BACKOFF_SECONDS|
  {
    if k == 0 then 0 else BackoffSum(k - 1) + BACKOFF_SECONDS[k - 1]
  }

  lemma WholeSchedule()
    ensures BackoffSum(0) == 0 && BackoffSum(1) == 30 && BackoffSum(2) == 330 && BackoffSum(3) == 2130
    ensures BackoffSum(4) == 9330 && BackoffSum(5) == 52530 && BackoffSum(6) == 138930
  {
    assert BackoffSum(2) == 330;
    assert BackoffSum(4) == 9330;
  }

  /** How often a row has been sent by batches that committed. */
  function SentCount(row: Delivery): nat {
    row.attemptCount + if row.status.DeliverySucceeded? then 1 else 0
  }

  predicate DeliveryOk(row: Delivery) {
    && SentCount(row) <= MAX_ATTEMPTS
    && (row.status.DeliveryExhausted? <==> row.attemptCount == MAX_ATTEMPTS)
  }

  lemma DistinctElements<T>(s: seq<T>)
    requires forall m, n :: 0 <= m < n < |s| ==> s[m] != s[n]
    ensures |Elements(s)| == |s|
  {
    if s != [] {
      var last := |s| - 1;
      DistinctElements(s[..last]);
      assert Elements(s) == Elements(s[..last]) + {s[last]};
      assert s[last] !in s[..last];
    }
  }
}
