/** No starvation with any number of dispatchers at once: counted in selections
    rather than commits, the bound of `Progress` holds for batches that overlap. */
module Selections {
  import opened Domain
  import opened Schedule
  import opened Dispatchers
  import opened Progress

  /** A selection by a batch that began when a row due at `due` was due. */
  predicate Late(s: State, e: Event, due: Time) {
    e.Select? && e.x in s.batches && s.batches[e.x].start >= due
  }

  ghost function LateSelections(s: State, events: seq<Event>, due: Time): nat
    decreases |events|
  {
    if events == [] || !Enabled(s, events[0]) then 0
    else (if Late(s, events[0], due) then 1 else 0) + LateSelections(Next(s, events[0]), events[1..], due)
  }

  /** The rows held by batches that began when `due` had come. */
  function HeldLate(s: State, due: Time): set<DeliveryId> {
    set x, d | x in s.batches && s.batches[x].start >= due && d in s.batches[x].Claimed() :: d
  }

  /** The rows ahead that such a batch could still take. */
  function Takeable(s: State, d: DeliveryId): set<DeliveryId>
    requires d in s.rows
  {
    Ahead(s.rows, d) - HeldLate(s, s.rows[d].nextAttemptAt)
  }

  predicate Free(s: State, d: DeliveryId) {
    d in s.rows && d in s.sent && s.rows[d].status.DeliveryPending? && d !in LockedRows(s)
  }

  /** A batch has selected the row and is about to send it. */
  predicate BeingSent(s: State, d: DeliveryId) {
    exists x :: x in s.batches && s.batches[x].Sending? && d in s.batches[x].todo
  }

  /** The row is still free, with the same requests, and `n` fewer rows can be taken before it. */
  ghost predicate StillFree(s: State, s': State, d: DeliveryId, n: nat) {
    && Free(s, d) && Free(s', d) && s'.rows[d] == s.rows[d] && s'.sent[d] == s.sent[d]
    && |Takeable(s', d)| + n <= |Takeable(s, d)|
  }

  /** A late selection that passes the row over takes twenty rows ahead of it. */
  lemma PassedOverTakesTwenty(s: State, x: DispatcherId, batch: seq<DeliveryId>, d: DeliveryId)
    requires Free(s, d) && Enabled(s, Select(x, batch)) && d !in batch && s.batches[x].start >= s.rows[d].nextAttemptAt
    ensures |Elements(batch)| == BATCH_LIMIT && Elements(batch) <= Takeable(s, d)
  {
    var start := s.batches[x].start;
    assert Eligible(s.rows, LockedRows(s), start, d);
    forall e | e in batch ensures e in Takeable(s, d) {
      assert Eligible(s.rows, LockedRows(s), start, e) && NotLater(s.rows, e, d);
      forall y | y in s.batches ensures e !in s.batches[y].Claimed() {
        assert e in s.batches[y].Claimed() ==> e in LockedRows(s);
      }
    }
    DistinctElements(batch);
  }

  lemma SelectHolds(s: State, x: DispatcherId, batch: seq<DeliveryId>, due: Time)
    requires Enabled(s, Select(x, batch))
    ensures var s' := Next(s, Select(x, batch));
            && LockedRows(s') <= LockedRows(s) + Elements(batch)
            && HeldLate(s, due) <= HeldLate(s', due)
            && (s.batches[x].start >= due ==> Elements(batch) <= HeldLate(s', due))
  {
    var s', b := Next(s, Select(x, batch)), Next(s, Select(x, batch)).batches[x];
    forall d | d in batch ensures d in b.read {
      assert Eligible(s.rows, LockedRows(s), s.batches[x].start, d);
    }
    forall d | d in HeldLate(s, due) ensures d in HeldLate(s', due) {
      var y :| y in s.batches && s.batches[y].start >= due && d in s.batches[y].Claimed();
      assert y != x && s'.batches[y] == s.batches[y];
    }
    if b.start >= due {
      forall d | d in Elements(batch) ensures d in HeldLate(s', due) {
        assert d in s'.batches[x].Claimed();
      }
    }
  }

  lemma SelectPasses(s: State, x: DispatcherId, batch: seq<DeliveryId>, d: DeliveryId)
    requires Free(s, d) && Enabled(s, Select(x, batch)) && d !in batch
    ensures var late := s.batches[x].start >= s.rows[d].nextAttemptAt;
            StillFree(s, Next(s, Select(x, batch)), d, if late then BATCH_LIMIT else 0)
  {
    var s', due := Next(s, Select(x, batch)), s.rows[d].nextAttemptAt;
    SelectHolds(s, x, batch, due);
    if s.batches[x].start >= due {
      PassedOverTakesTwenty(s, x, batch, d);
      Subtract(Takeable(s', d), Elements(batch), Takeable(s, d));
    } else {
      SubsetSize(Takeable(s', d), Takeable(s, d));
    }
  }

  /** What a commit publishes stays behind the row, or is still held. */
  lemma CommitTakesNone(s: State, x: DispatcherId, d: DeliveryId)
    requires Inv(s) && Free(s, d) && Enabled(s, Commit(x))
    ensures StillFree(s, Next(s, Commit(x)), d, 0)
  {
    var s', b, due := Next(s, Commit(x)), s.batches[x], s.rows[d].nextAttemptAt;
    CommitIsAtomic(s, x);
    ResultsAreClaimed(s, x);
    assert d !in b.results by {
      assert d in b.Claimed() ==> d in LockedRows(s);
    }
    assert LockedRows(s') <= LockedRows(s);
    forall e | e in Takeable(s', d) ensures e in Takeable(s, d) {
      StaysTakeable(s, x, d, e);
    }
    SubsetSize(Takeable(s', d), Takeable(s, d));
  }

  lemma StaysTakeable(s: State, x: DispatcherId, d: DeliveryId, e: DeliveryId)
    requires Inv(s) && Free(s, d) && Enabled(s, Commit(x)) && d in Next(s, Commit(x)).rows
    requires Next(s, Commit(x)).rows[d] == s.rows[d] && e in Takeable(Next(s, Commit(x)), d)
    ensures e in Takeable(s, d)
  {
    var s', b, due := Next(s, Commit(x)), s.batches[x], s.rows[d].nextAttemptAt;
    CommitIsAtomic(s, x);
    assert Holds(s, BatchPart) && BatchOk(s, b);
    assert b.results.Keys == b.read.Keys;
    if e in b.results { ProcessedRowMovesOn(s.rows[e], b.results[e].Acknowledged?, b.start); }
    assert e in b.Claimed() <==> e in b.results;
    forall y | y in s.batches && s.batches[y].start >= due ensures e !in s.batches[y].Claimed() {
      if y != x { assert e in s'.batches[y].Claimed() ==> e in HeldLate(s', due); }
    }
  }

  lemma SendElsewhere(s: State, x: DispatcherId, answer: Answer, d: DeliveryId)
    requires Inv(s) && Free(s, d) && Enabled(s, Send(x, answer))
    ensures StillFree(s, Next(s, Send(x, answer)), d, 0)
  {
    var s', b := Next(s, Send(x, answer)), s.batches[x];
    assert Holds(s, BatchPart) && BatchOk(s, b);
    assert b.todo[0] in b.todo && b.todo[0] in b.Claimed();
    assert b.todo[0] in LockedRows(s);
    SameClaims(s, s', s.rows[d].nextAttemptAt);
  }

  /** The same rows are held by batches with the same starts. */
  lemma SameClaims(s: State, s': State, due: Time)
    requires forall x :: x in s'.batches ==>
               if x in s.batches then s'.batches[x].start == s.batches[x].start
                   && s'.batches[x].Claimed() == s.batches[x].Claimed()
               else s'.batches[x].Claimed() == {}
    requires s.batches.Keys <= s'.batches.Keys
    ensures LockedRows(s') == LockedRows(s) && HeldLate(s', due) == HeldLate(s, due)
  {
    forall d | d in LockedRows(s) ensures d in LockedRows(s') {
      var x :| x in s.batches && d in s.batches[x].Claimed();
      assert d in s'.batches[x].Claimed();
    }
    forall d | d in HeldLate(s, due) ensures d in HeldLate(s', due) {
      var x :| x in s.batches && s.batches[x].start >= due && d in s.batches[x].Claimed();
      assert d in s'.batches[x].Claimed();
    }
  }

  lemma FreeStep(s: State, e: Event, d: DeliveryId)
    requires Inv(s) && Free(s, d) && Enabled(s, e) && !e.Abort?
    requires e.Enqueue? ==> e.at > s.rows[d].nextAttemptAt
    ensures BeingSent(Next(s, e), d)
         || StillFree(s, Next(s, e), d, if Late(s, e, s.rows[d].nextAttemptAt) then BATCH_LIMIT else 0)
  {
    var s' := Next(s, e);
    if e.Select? {
      if d in e.batch {
        assert d in s'.batches[e.x].todo;
      } else {
        SelectPasses(s, e.x, e.batch, d);
      }
    } else if e.Send? {
      SendElsewhere(s, e.x, e.answer, d);
    } else if e.Commit? {
      CommitTakesNone(s, e.x, d);
    } else {
      SameClaims(s, s', s.rows[d].nextAttemptAt);
      assert Ahead(s'.rows, d) == Ahead(s.rows, d);
    }
  }

  /** Without aborts, a row about to be sent is sent before its batch can end. */
  lemma {:induction false} BeingSentIsSent(s: State, events: seq<Event>, end: State, d: DeliveryId)
    requires Inv(s) && Runs(s, events, end) && (forall e :: e in events ==> !e.Abort?) && d in s.sent && BeingSent(s, d)
    ensures d in end.sent && |end.sent[d]| >= |s.sent[d]| && (BeingSent(end, d) || |end.sent[d]| > |s.sent[d]|)
    decreases |events|
  {
    if events != [] {
      var e, next := events[0], Next(s, events[0]);
      assert e in events;
      StepKeeps(s, e);
      BeingSentStep(s, e, d);
      if BeingSent(next, d) {
        BeingSentIsSent(next, events[1..], end, d);
      } else {
        SentGrows(next, events[1..], end, d);
      }
    }
  }

  lemma BeingSentStep(s: State, e: Event, d: DeliveryId)
    requires Inv(s) && Enabled(s, e) && !e.Abort? && d in s.sent && BeingSent(s, d)
    ensures d in Next(s, e).sent && |Next(s, e).sent[d]| >= |s.sent[d]|
    ensures BeingSent(Next(s, e), d) || |Next(s, e).sent[d]| > |s.sent[d]|
  {
    var x :| x in s.batches && s.batches[x].Sending? && d in s.batches[x].todo;
    assert Holds(s, RowPart);
    var s', todo := Next(s, e), s.batches[x].todo;
    if e.Send? && e.x == x {
      assert todo == [todo[0]] + todo[1..];
      assert d != todo[0] ==> d in s'.batches[x].todo;
    } else {
      assert x in s'.batches && s'.batches[x] == s.batches[x];
    }
  }

  lemma {:induction false} FreeRowIsTaken(s: State, events: seq<Event>, end: State, d: DeliveryId)
    requires Inv(s) && Free(s, d) && Runs(s, events, end) && forall e :: e in events ==> !e.Abort?
    requires forall e :: e in events && e.Enqueue? ==> e.at > s.rows[d].nextAttemptAt
    requires BATCH_LIMIT * LateSelections(s, events, s.rows[d].nextAttemptAt) > |Takeable(s, d)|
    ensures d in end.sent && (BeingSent(end, d) || |end.sent[d]| > |s.sent[d]|)
    decreases |events|
  {
    var e, next := events[0], Next(s, events[0]);
    assert e in events;
    StepKeeps(s, e);
    FreeStep(s, e, d);
    assert d in next.sent && |next.sent[d]| >= |s.sent[d]|;
    if BeingSent(next, d) {
      BeingSentIsSent(next, events[1..], end, d);
    } else {
      FreeRowIsTaken(next, events[1..], end, d);
    }
  }

  /** With any number of dispatchers and no abort: a free pending row with r others at
      or before it in due order is taken by the time ⌊r/20⌋ + 1 batches that began when
      it was due have selected, if rows added meanwhile are due later. It is then sent
      before its batch ends. */
  lemma TakenWithinSelections(s: State, events: seq<Event>, end: State, d: DeliveryId)
    requires Reachable(s) && d in s.rows && s.rows[d].status.DeliveryPending? && d !in LockedRows(s)
    requires Runs(s, events, end) && forall e :: e in events ==> !e.Abort?
    requires forall e :: e in events && e.Enqueue? ==> e.at > s.rows[d].nextAttemptAt
    requires LateSelections(s, events, s.rows[d].nextAttemptAt) > |Ahead(s.rows, d)| / BATCH_LIMIT
    ensures d in s.sent && d in end.sent && (BeingSent(end, d) || |end.sent[d]| > |s.sent[d]|)
  {
    ReachableIsOk(s);
    assert Holds(s, RowPart);
    SubsetSize(Takeable(s, d), Ahead(s.rows, d));
    FreeRowIsTaken(s, events, end, d);
  }
}
