/** A row that is due and free can be requested at once, whatever else is due: as
    long as other rows fill the batches, further dispatchers lock them away. */
module Claimable {
  import opened Domain
  import opened Schedule
  import opened Dispatchers

  /** Events that let no time pass and reach no receiver. */
  predicate Harmless(e: Event) {
    e.Begin? || e.Select? || (e.Send? && e.answer.Unreached?)
  }

  predicate AllHarmless(events: seq<Event>) {
    forall e :: e in events ==> Harmless(e)
  }

  /** The tables and the clock are as before, and so are the requests for `d`. */
  predicate SameFor(s: State, s': State, d: DeliveryId) {
    && s'.rows == s.rows && s'.now == s.now && s'.counted == s.counted
    && d in s.sent && d in s'.sent && s'.sent[d] == s.sent[d]
  }

  ghost function FreeRows(s: State): set<DeliveryId> {
    set d | d in s.rows && Eligible(s.rows, LockedRows(s), s.now, d)
  }

  lemma BeginLocksNothing(s: State, x: DispatcherId)
    requires x !in s.batches
    ensures LockedRows(Next(s, Begin(x))) == LockedRows(s)
  {
    var begun := Next(s, Begin(x));
    forall d | d in LockedRows(s) ensures d in LockedRows(begun) {
      var y :| y in s.batches && d in s.batches[y].Claimed();
      assert d in begun.batches[y].Claimed();
    }
  }

  /** A new dispatcher opens a transaction and selects a batch. */
  lemma OpenBatch(s: State) returns (x: DispatcherId, batch: seq<DeliveryId>, s': State)
    requires Inv(s)
    ensures x !in s.batches && IsBatch(s.rows, LockedRows(s), s.now, batch)
    ensures s' == s.(batches := s.batches[x := Sending(s.now, ReadCounts(s.rows, batch), batch, map[])])
    ensures Runs(s, [Begin(x), Select(x, batch)], s') && Inv(s')
    ensures LockedRows(s') == LockedRows(s) + Elements(batch)
  {
    x := AboveAll(s.batches.Keys);
    assert x !in s.batches;
    var begun := Next(s, Begin(x));
    StepKeeps(s, Begin(x));
    BeginLocksNothing(s, x);
    batch := BatchExists(s.rows, LockedRows(s), s.now);
    s' := Next(begun, Select(x, batch));
    StepKeeps(begun, Select(x, batch));
    OneStep(s, Begin(x));
    OneStep(begun, Select(x, batch));
    RunsCompose(s, [Begin(x)], begun, [Select(x, batch)], s');
    assert [Begin(x)] + [Select(x, batch)] == [Begin(x), Select(x, batch)];
    LocksTheBatch(s, x, batch, s');
  }

  lemma LocksTheBatch(s: State, x: DispatcherId, batch: seq<DeliveryId>, s': State)
    requires x !in s.batches && IsBatch(s.rows, LockedRows(s), s.now, batch)
    requires s' == s.(batches := s.batches[x := Sending(s.now, ReadCounts(s.rows, batch), batch, map[])])
    ensures LockedRows(s') == LockedRows(s) + Elements(batch)
  {
    assert s'.batches[x].Claimed() == Elements(batch) by {
      assert forall d :: d in batch ==> Eligible(s.rows, LockedRows(s), s.now, d);
    }
    forall d | d in LockedRows(s) + Elements(batch) ensures d in LockedRows(s') {
      if d in Elements(batch) {
        assert d in s'.batches[x].Claimed();
      } else {
        var y :| y in s.batches && d in s.batches[y].Claimed();
        assert d in s'.batches[y].Claimed();
      }
    }
  }

  /** Batch after batch is opened until one claims the row. */
  lemma {:induction false} CanBeClaimed(s: State, d: DeliveryId)
      returns (events: seq<Event>, s': State, x: DispatcherId)
    requires Inv(s) && Eligible(s.rows, LockedRows(s), s.now, d)
    ensures Runs(s, events, s') && AllHarmless(events) && Inv(s') && SameFor(s, s', d)
    ensures x in s'.batches && s'.batches[x].Sending? && s'.batches[x].start == s.now && d in s'.batches[x].todo
    decreases FreeRows(s)
  {
    assert Holds(s, RowPart);
    var batch, locked;
    x, batch, locked := OpenBatch(s);
    events, s' := [Begin(x), Select(x, batch)], locked;
    if d !in batch {
      assert |batch| == BATCH_LIMIT && batch[0] in batch;
      assert batch[0] in FreeRows(s) && batch[0] !in FreeRows(locked);
      assert FreeRows(locked) < FreeRows(s);
      var more;
      more, s', x := CanBeClaimed(locked, d);
      RunsCompose(s, events, locked, more, s');
      events := events + more;
    }
  }

  /** The batch works through its rows until the row is next. */
  lemma {:induction false} CanBeNext(s: State, x: DispatcherId, d: DeliveryId) returns (events: seq<Event>, s': State)
    requires Inv(s) && x in s.batches && s.batches[x].Sending? && d in s.batches[x].todo
    ensures Runs(s, events, s') && AllHarmless(events) && Inv(s') && SameFor(s, s', d)
    ensures x in s'.batches && s'.batches[x].Sending? && s'.batches[x].start == s.batches[x].start
    ensures s'.batches[x].todo != [] && s'.batches[x].todo[0] == d
    decreases |s.batches[x].todo|
  {
    var todo := s.batches[x].todo;
    assert Holds(s, RowPart) && Holds(s, BatchPart) && BatchOk(s, s.batches[x]);
    assert forall e :: e in todo ==> e in s.batches[x].read && ClaimOk(s, s.batches[x], e);
    events, s' := [], s;
    if todo[0] != d {
      var e := Send(x, Unreached);
      assert todo[0] in todo;
      var next := Next(s, e);
      StepKeeps(s, e);
      OneStep(s, e);
      var more;
      more, s' := CanBeNext(next, x, d);
      RunsCompose(s, [e], next, more, s');
      events := [e] + more;
    }
  }

  /** A due and free row can be the next one that a batch begun right now sends. */
  lemma CanBeRequested(s: State, d: DeliveryId) returns (events: seq<Event>, s': State, x: DispatcherId)
    requires Inv(s) && Eligible(s.rows, LockedRows(s), s.now, d)
    ensures Runs(s, events, s') && AllHarmless(events) && Inv(s') && SameFor(s, s', d)
    ensures Sends(s', x, d) && s'.batches[x].start == s.now
  {
    var first, claimed;
    first, claimed, x := CanBeClaimed(s, d);
    var second;
    second, s' := CanBeNext(claimed, x, d);
    RunsCompose(s, first, claimed, second, s');
    events := first + second;
  }

  /** The next request of batch `x` is for the row. */
  predicate Sends(s: State, x: DispatcherId, d: DeliveryId) {
    x in s.batches && s.batches[x].Sending? && s.batches[x].todo != [] && s.batches[x].todo[0] == d && d in s.sent
  }
}
