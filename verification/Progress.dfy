/** Progress of the outbox, over whole runs of the dispatchers: while one batch at a
    time is open and all commit, no due delivery starves; and without new events the
    outbox drains. */
module Progress {
  import opened Domain
  import opened Schedule
  import opened Dispatchers

  type Rows = map<DeliveryId, Delivery>

  /** Every batch begins when none is open, and none is aborted. */
  ghost predicate OneAtATime(s: State, events: seq<Event>)
    decreases |events|
  {
    events == [] ||
    (Enabled(s, events[0]) && !events[0].Abort? && (events[0].Begin? ==> s.batches == map[])
        && OneAtATime(Next(s, events[0]), events[1..]))
  }

  ghost predicate Lone(s: State) {
    forall x, y :: x in s.batches && y in s.batches ==> x == y
  }

  function Commits(events: seq<Event>): nat {
    if events == [] then 0 else (if events[0].Commit? then 1 else 0) + Commits(events[1..])
  }

  // ---- No starvation ----

  /** The other pending rows at or before a row in due order. */
  function Ahead(rows: Rows, d: DeliveryId): set<DeliveryId>
    requires d in rows
  {
    set e | e in rows && e != d && rows[e].status.DeliveryPending? && rows[e].nextAttemptAt <= rows[d].nextAttemptAt
  }

  /** A batch that is open while `d` waits will send it, or holds twenty rows ahead of it. */
  ghost predicate Serves(s: State, b: Batch, d: DeliveryId)
    requires d in s.rows
  {
    && b.start >= s.rows[d].nextAttemptAt
    && (b.Sending? ==> d in b.todo || (d !in b.read && b.read.Keys <= Ahead(s.rows, d) && |b.read.Keys| == BATCH_LIMIT))
  }

  /** A due row waits while at most one batch is open. */
  ghost predicate Waiting(s: State, d: DeliveryId) {
    && d in s.rows && d in s.sent && Due(s.rows[d], s.now) && Lone(s)
    && forall x :: x in s.batches ==> Serves(s, s.batches[x], d)
  }

  /** The row still waits, with the same requests, and `n` fewer rows ahead of it. */
  ghost predicate StillWaits(s: State, s': State, d: DeliveryId, n: nat) {
    && d in s.rows && d in s.sent && Waiting(s', d)
    && s'.rows[d] == s.rows[d] && s'.sent[d] == s.sent[d]
    && |Ahead(s'.rows, d)| + n <= |Ahead(s.rows, d)|
  }

  lemma SelectServes(s: State, x: DispatcherId, batch: seq<DeliveryId>, d: DeliveryId)
    requires Inv(s) && Waiting(s, d) && Enabled(s, Select(x, batch))
    ensures StillWaits(s, Next(s, Select(x, batch)), d, 0)
  {
    var start, b := s.batches[x].start, Next(s, Select(x, batch)).batches[x];
    assert LockedRows(s) == {};
    assert Eligible(s.rows, {}, start, d) && Serves(s, s.batches[x], d);
    forall e | e in batch ensures Eligible(s.rows, {}, start, e) && (d !in batch ==> e in Ahead(s.rows, d)) {
      assert d !in batch ==> NotLater(s.rows, e, d);
    }
    assert b.read.Keys == Elements(batch);
    DistinctElements(batch);
  }

  lemma SendServes(s: State, x: DispatcherId, answer: Answer, d: DeliveryId)
    requires Inv(s) && Waiting(s, d) && Enabled(s, Send(x, answer))
    ensures var s' := Next(s, Send(x, answer));
        d in s'.sent && (|s'.sent[d]| > |s.sent[d]| || StillWaits(s, s', d, 0))
  {
    var b := s.batches[x];
    assert Serves(s, b, d);
    assert b.todo == [b.todo[0]] + b.todo[1..];
  }

  /** A processed row leaves pending or moves past the start of its batch. */
  lemma ProcessedRowMovesOn(row: Delivery, received: bool, start: Time)
    requires Due(row, start)
    ensures !Due(Written(row, row.attemptCount, received, start), start)
  {
  }

  /** A commit that passes the row over leaves twenty fewer ahead of it. */
  lemma CommitPassesOver(s: State, x: DispatcherId, d: DeliveryId)
    requires Inv(s) && Waiting(s, d) && Enabled(s, Commit(x))
    ensures StillWaits(s, Next(s, Commit(x)), d, BATCH_LIMIT)
  {
    var b, s' := s.batches[x], Next(s, Commit(x));
    CommitIsAtomic(s, x);
    assert Holds(s, BatchPart) && BatchOk(s, b) && Serves(s, b, d);
    assert b.results.Keys == b.read.Keys;
    forall e | e in b.read.Keys ensures e in s'.rows && !Due(s'.rows[e], b.start) {
      assert e in b.results;
      ProcessedRowMovesOn(s.rows[e], b.results[e].Acknowledged?, b.start);
    }
    assert forall e :: e in b.results <==> e in b.read.Keys;
    forall e | e in Ahead(s'.rows, d) ensures e in Ahead(s.rows, d) && e !in b.read.Keys {
    }
    Subtract(Ahead(s'.rows, d), b.read.Keys, Ahead(s.rows, d));
  }

  lemma WaitingStep(s: State, e: Event, d: DeliveryId)
    requires Inv(s) && Waiting(s, d) && Enabled(s, e) && !e.Abort? && (e.Begin? ==> s.batches == map[])
    requires e.Enqueue? ==> e.at > s.rows[d].nextAttemptAt
    ensures d in Next(s, e).sent
    ensures |Next(s, e).sent[d]| > |s.sent[d]| || StillWaits(s, Next(s, e), d, if e.Commit? then BATCH_LIMIT else 0)
  {
    match e
    case Select(x, batch) => SelectServes(s, x, batch, d);
    case Send(x, answer) => SendServes(s, x, answer, d);
    case Commit(x) => CommitPassesOver(s, x, d);
    case Enqueue(_, _, _) => assert Ahead(Next(s, e).rows, d) == Ahead(s.rows, d);
    case _ =>
  }

  lemma {:induction false} SentGrows(s: State, events: seq<Event>, end: State, d: DeliveryId)
    requires Inv(s) && Runs(s, events, end) && d in s.sent
    ensures d in end.sent && |end.sent[d]| >= |s.sent[d]|
    decreases |events|
  {
    if events != [] {
      StepKeeps(s, events[0]);
      assert Holds(s, RowPart);
      SentGrows(Next(s, events[0]), events[1..], end, d);
    }
  }

  lemma {:induction false} WaitingRowIsSent(s: State, events: seq<Event>, end: State, d: DeliveryId)
    requires Inv(s) && Waiting(s, d) && Runs(s, events, end) && OneAtATime(s, events)
    requires forall e :: e in events && e.Enqueue? ==> e.at > s.rows[d].nextAttemptAt
    requires BATCH_LIMIT * Commits(events) > |Ahead(s.rows, d)|
    ensures d in end.sent && |end.sent[d]| > |s.sent[d]|
    decreases |events|
  {
    var e, next := events[0], Next(s, events[0]);
    assert e in events;
    StepKeeps(s, e);
    WaitingStep(s, e, d);
    if |next.sent[d]| > |s.sent[d]| {
      SentGrows(next, events[1..], end, d);
    } else {
      WaitingRowIsSent(next, events[1..], end, d);
    }
  }

  /** A due delivery with r others at or before it in due order is sent by the time
      ⌊r/20⌋ + 1 batches have committed, in every run of the dispatchers in which
      batches do not overlap, all commit, and rows added meanwhile are due later. */
  lemma NoStarvation(s: State, events: seq<Event>, end: State, d: DeliveryId)
    requires Reachable(s) && s.batches == map[] && d in s.rows && Due(s.rows[d], s.now)
    requires Runs(s, events, end) && OneAtATime(s, events)
    requires forall e :: e in events && e.Enqueue? ==> e.at > s.rows[d].nextAttemptAt
    requires Commits(events) > |Ahead(s.rows, d)| / BATCH_LIMIT
    ensures d in s.sent && d in end.sent && |end.sent[d]| > |s.sent[d]|
  {
    ReachableIsOk(s);
    assert Holds(s, RowPart);
    WaitingRowIsSent(s, events, end, d);
  }

  // ---- Draining ----

  /** The sends that are still allowed: one token for each attempt not yet used. */
  function Tokens(rows: Rows): set<(DeliveryId, nat)> {
    set d, k: nat | d in rows && rows[d].status.DeliveryPending? && rows[d].attemptCount <= k < MAX_ATTEMPTS :: (d, k)
  }

  ghost predicate AllFinal(rows: Rows) {
    forall d :: d in rows ==> Final(rows[d])
  }

  predicate AddsNothing(events: seq<Event>) {
    forall e :: e in events ==> !e.Enqueue?
  }

  lemma {:induction false} SpentTokens(rows: Rows, sent: set<DeliveryId>) returns (spent: set<(DeliveryId, nat)>)
    requires sent <= rows.Keys
    ensures |spent| == |sent|
    ensures forall t :: t in spent <==> t.0 in sent && t.0 in rows && t.1 == rows[t.0].attemptCount
  {
    if sent == {} {
      spent := {};
    } else {
      var d :| d in sent;
      var others := SpentTokens(rows, sent - {d});
      spent := others + {(d, rows[d].attemptCount)};
    }
  }

  lemma ProcessedUsesTokens(rows: Rows, outcomes: map<DeliveryId, bool>, start: Time)
    requires forall d :: d in outcomes ==>
        d in rows && rows[d].status.DeliveryPending? && rows[d].attemptCount < MAX_ATTEMPTS
    ensures |Tokens(Processed(rows, outcomes, start))| + |outcomes.Keys| <= |Tokens(rows)|
  {
    var after := Processed(rows, outcomes, start);
    var spent := SpentTokens(rows, outcomes.Keys);
    forall t | t in Tokens(after) ensures t in Tokens(rows) && t !in spent {
      assert t.0 in rows;
    }
    assert spent <= Tokens(rows);
    Subtract(Tokens(after), spent, Tokens(rows));
  }

  /** Every send that is recorded uses up a token. */
  lemma CommitUsesTokens(s: State, x: DispatcherId)
    requires Inv(s) && Enabled(s, Commit(x))
    ensures |Tokens(Next(s, Commit(x)).rows)| + |s.batches[x].results| <= |Tokens(s.rows)|
  {
    var b := s.batches[x];
    CommitIsAtomic(s, x);
    assert Holds(s, RowPart);
    forall d | d in b.results ensures s.rows[d].attemptCount < MAX_ATTEMPTS {
      assert RowOk(s.rows[d], s.counted[d]);
    }
    ProcessedUsesTokens(s.rows, b.Outcomes(), b.start);
    assert b.Outcomes().Keys == b.results.Keys && |b.results.Keys| == |b.results|;
  }

  /** How many sends the commits of a run record. */
  ghost function RecordedSends(s: State, events: seq<Event>): nat
    decreases |events|
  {
    if events == [] || !Enabled(s, events[0]) then 0
    else
      (if events[0].Commit? then |s.batches[events[0].x].results| else 0)
          + RecordedSends(Next(s, events[0]), events[1..])
  }

  lemma TokensStep(s: State, e: Event)
    requires Inv(s) && Enabled(s, e) && !e.Enqueue?
    ensures |Tokens(Next(s, e).rows)| + (if e.Commit? then |s.batches[e.x].results| else 0) <= |Tokens(s.rows)|
  {
    if e.Commit? {
      CommitUsesTokens(s, e.x);
    } else {
      assert Next(s, e).rows == s.rows;
    }
  }

  lemma {:induction false} RecordedSendsUseTokens(s: State, events: seq<Event>, end: State)
    requires Inv(s) && Runs(s, events, end) && AddsNothing(events)
    ensures RecordedSends(s, events) + |Tokens(end.rows)| <= |Tokens(s.rows)|
    decreases |events|
  {
    if events != [] {
      assert events[0] in events;
      TokensStep(s, events[0]);
      StepKeeps(s, events[0]);
      RecordedSendsUseTokens(Next(s, events[0]), events[1..], end);
    }
  }

  lemma {:induction false} AtMostSevenEach(rows: Rows)
    ensures |Tokens(rows)| <= MAX_ATTEMPTS * |rows|
    decreases |rows|
  {
    if rows == map[] {
      assert Tokens(rows) == {};
    } else {
      var d :| d in rows;
      var rest := rows - {d};
      AtMostSevenEach(rest);
      assert rest.Keys == rows.Keys - {d};
      var own: set<(DeliveryId, nat)> := {(d, 0), (d, 1), (d, 2), (d, 3), (d, 4), (d, 5), (d, 6)};
      SubsetSize(Tokens(rows), Tokens(rest) + own);
    }
  }

  lemma PendingHasToken(s: State, d: DeliveryId)
    requires Inv(s) && d in s.rows && s.rows[d].status.DeliveryPending?
    ensures (d, s.rows[d].attemptCount) in Tokens(s.rows)
  {
    assert Holds(s, RowPart) && RowOk(s.rows[d], s.counted[d]);
  }

  lemma FinalWithoutTokens(s: State)
    requires Inv(s) && |Tokens(s.rows)| == 0
    ensures AllFinal(s.rows)
  {
    forall d | d in s.rows && s.rows[d].status.DeliveryPending? ensures false {
      PendingHasToken(s, d);
    }
  }

  /** Without new events, N deliveries have at most 7·N sends recorded, by any number
      of dispatchers, aborts included; and once there are 7·N, all are final. */
  lemma SendsAreBounded(s: State, events: seq<Event>, end: State)
    requires Reachable(s) && Runs(s, events, end) && AddsNothing(events)
    ensures RecordedSends(s, events) <= 7 * |s.rows|
    ensures RecordedSends(s, events) == 7 * |s.rows| ==> AllFinal(end.rows)
  {
    ReachableIsOk(s);
    RunKeeps(s, events, end);
    RecordedSendsUseTokens(s, events, end);
    AtMostSevenEach(s.rows);
    if RecordedSends(s, events) == 7 * |s.rows| { FinalWithoutTokens(end); }
  }

  ghost predicate SomeDue(rows: Rows, now: Time) {
    exists d :: d in rows && Due(rows[d], now)
  }

  /** A batch begins only when a row is due, or none is left to send. */
  ghost predicate Patient(s: State, events: seq<Event>)
    decreases |events|
  {
    events == [] ||
    (Enabled(s, events[0]) && (events[0].Begin? ==> AllFinal(s.rows) || SomeDue(s.rows, s.now))
        && Patient(Next(s, events[0]), events[1..]))
  }

  /** The open batch, if there is one, has something to send. */
  ghost predicate Busy(s: State) {
    && Lone(s)
    && forall x :: x in s.batches && !AllFinal(s.rows) ==>
         if s.batches[x].Begun? then SomeDue(s.rows, s.batches[x].start) else s.batches[x].read.Keys != {}
  }

  lemma SelectIsBusy(s: State, x: DispatcherId, batch: seq<DeliveryId>)
    requires Busy(s) && Enabled(s, Select(x, batch))
    ensures Busy(Next(s, Select(x, batch)))
  {
    assert LockedRows(s) == {};
    if !AllFinal(s.rows) {
      var d :| d in s.rows && Due(s.rows[d], s.batches[x].start);
      assert Eligible(s.rows, {}, s.batches[x].start, d);
      assert batch[0] in batch && Eligible(s.rows, {}, s.batches[x].start, batch[0]);
      assert batch[0] in ReadCounts(s.rows, batch);
    }
  }

  lemma AllFinalStays(s: State, e: Event)
    requires Inv(s) && Enabled(s, e) && !e.Enqueue? && AllFinal(s.rows)
    ensures AllFinal(Next(s, e).rows)
  {
    forall d | d in s.rows ensures d in Next(s, e).rows && Next(s, e).rows[d] == s.rows[d] { FinalStep(s, e, d); }
  }

  lemma BusyCommitSends(s: State, x: DispatcherId)
    requires Inv(s) && Busy(s) && Enabled(s, Commit(x)) && !AllFinal(s.rows)
    ensures |s.batches[x].results| >= 1
  {
    assert Holds(s, BatchPart) && BatchOk(s, s.batches[x]);
    assert s.batches[x].results.Keys == s.batches[x].read.Keys;
  }

  lemma BusyStep(s: State, e: Event)
    requires Inv(s) && Busy(s) && Enabled(s, e) && !e.Abort? && !e.Enqueue? && (e.Begin? ==> s.batches == map[])
    requires e.Begin? ==> AllFinal(s.rows) || SomeDue(s.rows, s.now)
    ensures Busy(Next(s, e)) && (AllFinal(s.rows) ==> AllFinal(Next(s, e).rows))
    ensures |Tokens(Next(s, e).rows)| + (if e.Commit? && !AllFinal(s.rows) then 1 else 0) <= |Tokens(s.rows)|
  {
    TokensStep(s, e);
    if AllFinal(s.rows) { AllFinalStays(s, e); }
    if e.Select? {
      SelectIsBusy(s, e.x, e.batch);
    } else if e.Commit? {
      if !AllFinal(s.rows) { BusyCommitSends(s, e.x); }
      assert Next(s, e).batches == map[];
    } else {
      assert Next(s, e).rows == s.rows;
    }
  }

  lemma {:induction false} BusyRunDrains(s: State, events: seq<Event>, end: State)
    requires Inv(s) && Busy(s) && Runs(s, events, end) && OneAtATime(s, events) && AddsNothing(events)
        && Patient(s, events)
    requires AllFinal(s.rows) || Commits(events) >= |Tokens(s.rows)|
    ensures AllFinal(end.rows)
    decreases |events|
  {
    if events == [] {
      if !AllFinal(s.rows) { FinalWithoutTokens(s); }
    } else {
      assert events[0] in events;
      BusyStep(s, events[0]);
      StepKeeps(s, events[0]);
      BusyRunDrains(Next(s, events[0]), events[1..], end);
    }
  }

  /** Without new events, N deliveries are all final once 7·N batches have committed,
      in every run of the dispatchers in which batches do not overlap, all commit,
      and each waits for a due row. */
  lemma OutboxDrains(s: State, events: seq<Event>, end: State)
    requires Reachable(s) && s.batches == map[] && Runs(s, events, end)
    requires OneAtATime(s, events) && AddsNothing(events) && Patient(s, events)
    requires Commits(events) >= 7 * |s.rows|
    ensures AllFinal(end.rows)
  {
    ReachableIsOk(s);
    AtMostSevenEach(s.rows);
    BusyRunDrains(s, events, end);
  }

  // ---- Sizes ----

  lemma Subtract<T>(a: set<T>, b: set<T>, whole: set<T>)
    requires a !! b && a <= whole && b <= whole
    ensures |a| + |b| <= |whole|
  {
    assert |a + b| == |a| + |b|;
    SubsetSize(a + b, whole);
  }

  lemma {:induction false} SubsetSize<T>(a: set<T>, b: set<T>)
    requires a <= b
    ensures |a| <= |b|
  {
    if a != {} {
      var x :| x in a;
      SubsetSize(a - {x}, b - {x});
    }
  }
}
