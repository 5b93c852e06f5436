/** What a crash leaves behind, exactly: a pending attempt can still be settled if
    and only if someone is left to settle it, and a reserved key can still get a
    response if and only if the request that owns it is still running. */
module Orphans {
  import opened Domain
  import opened Transactions
  import opened Protocol
  import opened Frames
  import opened Evolution
  import opened Invariant
  import opened Preservation

  // ---- Pending attempts ----

  /** The handler is about to spawn the task of its attempt, or the task is running. */
  predicate HasWorker(w: World, a: AttemptId) {
    a in w.origin &&
    (var r := w.origin[a];
     (r in w.requests && w.requests[r].pc == Fetching(a)) || (r in w.tasks && w.tasks[r].Active()))
  }

  predicate Orphaned(w: World, a: AttemptId) {
    a in w.db.attempts && w.db.attempts[a].status.AttemptPending? && !HasWorker(w, a)
  }

  /** The attempts of one invoice. */
  function AttemptsFor(db: Db, i: InvoiceId): map<AttemptId, Attempt> {
    map a | a in db.attempts && db.attempts[a].invoice == i :: db.attempts[a]
  }

  /** The PSP calls for one invoice, in order. */
  ghost function CallsFor(calls: seq<PspCall>, i: InvoiceId): seq<PspCall> {
    if calls == [] then []
    else CallsFor(calls[..|calls| - 1], i) + if calls[|calls| - 1].invoice == i then [calls[|calls| - 1]] else []
  }

  /** Whoever could still work for an invoice with a pending attempt works for that attempt. */
  lemma WorkerIsOfThePending(w: World, a: AttemptId, r: RequestId)
    requires Inv(w) && a in w.db.attempts && w.db.attempts[a].status.AttemptPending?
    requires r in w.tasks && w.tasks[r].Active() && w.tasks[r].invoice == w.db.attempts[a].invoice
    ensures w.tasks[r].attempt == a && HasWorker(w, a)
  {
    TaskFacts(w, r);
    assert BothLive(w.db.attempts[w.tasks[r].attempt], w.db.attempts[a]);
    assert Holds(w, Attempts);
  }

  lemma ClaimIsRefused(w: World, a: AttemptId, b: BusinessId)
    requires a in w.db.attempts && w.db.attempts[a].status.AttemptPending?
    ensures ClaimRefusal(w.db, b, w.db.attempts[a].invoice).Some?
  {
    assert HasPending(w.db, w.db.attempts[a].invoice);
  }

  lemma HandlerAddsNoWorker(w: World, s: Step, a: AttemptId)
    requires Inv(w) && Enabled(w, s) && Orphaned(w, a) && OfHandler(s)
    ensures !HasWorker(Next(w, s), a)
  {
    assert Holds(w, Origins) && OriginOk(w, a);
    HandlerFrame(w, s);
    assert Extends(w.origin, Next(w, s).origin) by {
      StepKeeps(w, s);
      assert EvolvesIn(w, Next(w, s), HistoryPart);
    }
    if s.FetchAndSpawn? {
      SpawnFrame(w, s.r);
      HandlerFacts(w, s.r);
    }
    FramedAddsNoWorker(w, s, Next(w, s), a);
  }

  lemma FramedAddsNoWorker(w: World, s: Step, w': World, a: AttemptId)
    requires OriginsOk(w) && Orphaned(w, a) && OfHandler(s) && HandlerFramed(w, s, w') && Extends(w.origin, w'.origin)
    requires s.FetchAndSpawn? ==> w.origin[a] != s.r && forall x :: x != s.r ==>
        (x in w'.tasks <==> x in w.tasks) && (x in w.tasks ==> w'.tasks[x] == w.tasks[x])
    requires s.Claim? ==> s.a !in w.db.attempts
    requires s.Arrive? ==> s.r !in w.requests
    ensures !HasWorker(w', a)
  {
    assert OriginOk(w, a);
  }

  /** No handler or task starts to work for the attempt. */
  lemma NoNewWorker(w: World, s: Step, a: AttemptId)
    requires Inv(w) && Enabled(w, s) && Orphaned(w, a)
    ensures !HasWorker(Next(w, s), a)
  {
    if OfHandler(s) {
      HandlerAddsNoWorker(w, s, a);
    } else if OfTask(s) {
      assert a in w.origin by {
        assert Holds(w, Origins);
      }
      TaskFrame(w, s);
    } else {
      TrafficFrame(w, s);
    }
  }

  lemma ClaimAddsNoAttempt(w: World, r: RequestId, x: AttemptId, ack: bool, a: AttemptId)
    requires r in w.requests && x !in w.db.attempts && a in w.db.attempts && w.db.attempts[a].status.AttemptPending?
    ensures AttemptsFor(AfterClaim(w, r, x, ack).db, w.db.attempts[a].invoice) ==
        AttemptsFor(w.db, w.db.attempts[a].invoice)
  {
    if w.requests[r].invoice == w.db.attempts[a].invoice { ClaimIsRefused(w, a, w.requests[r].key.business); }
  }

  lemma SettleIsElsewhere(w: World, r: RequestId, ids: map<DeliveryId, EndpointId>, ack: bool, a: AttemptId)
    requires Inv(w) && Enabled(w, Settle(r, ids, ack)) && Orphaned(w, a)
    ensures AttemptsFor(AfterSettle(w, r, ids, ack).db, w.db.attempts[a].invoice) ==
        AttemptsFor(w.db, w.db.attempts[a].invoice)
  {
    SettleFindsPending(w, r);
    if w.tasks[r].invoice == w.db.attempts[a].invoice { WorkerIsOfThePending(w, a, r); }
  }

  /** Nothing happens to the attempts of the invoice. */
  lemma NoNewAttempt(w: World, s: Step, a: AttemptId)
    requires Inv(w) && Enabled(w, s) && Orphaned(w, a)
    ensures AttemptsFor(Next(w, s).db, w.db.attempts[a].invoice) == AttemptsFor(w.db, w.db.attempts[a].invoice)
  {
    if s.Settle? {
      SettleIsElsewhere(w, s.r, s.ids, s.ack, a);
    } else if s.Claim? {
      ClaimAddsNoAttempt(w, s.r, s.a, s.ack, a);
    } else {
      AttemptsFrame(w, s);
    }
  }

  /** The PSP is not called for the invoice. */
  lemma NoNewCall(w: World, s: Step, a: AttemptId)
    requires Inv(w) && Enabled(w, s) && Orphaned(w, a)
    ensures CallsFor(Next(w, s).calls, w.db.attempts[a].invoice) == CallsFor(w.calls, w.db.attempts[a].invoice)
  {
    var i, w' := w.db.attempts[a].invoice, Next(w, s);
    if s.Call? {
      if w.tasks[s.r].invoice == i { WorkerIsOfThePending(w, a, s.r); }
      assert w'.calls[..|w'.calls| - 1] == w.calls;
    } else if OfHandler(s) {
      HandlerFrame(w, s);
    } else if OfTask(s) {
      TaskFrame(w, s);
    } else {
      TrafficFrame(w, s);
    }
  }

  /** A pending attempt that has lost its worker: in every continuation it stays
      pending, its invoice gets no further attempt and no further PSP call, and is
      never paid. */
  lemma {:induction false} OrphanedForEver(w: World, steps: seq<Step>, w': World, a: AttemptId)
    requires Inv(w) && Runs(w, steps, w') && Orphaned(w, a)
    ensures Orphaned(w', a) && w'.db.attempts[a] == w.db.attempts[a]
    ensures var i := w.db.attempts[a].invoice;
            && AttemptsFor(w'.db, i) == AttemptsFor(w.db, i)
            && CallsFor(w'.calls, i) == CallsFor(w.calls, i)
            && i in w'.db.invoices && !w'.db.invoices[i].state.Paid?
    decreases |steps|
  {
    if steps == [] {
      assert Holds(w, Attempts);
      PendingIsNotPaid(w.db, a);
    } else {
      var next := Next(w, steps[0]);
      StepKeeps(w, steps[0]);
      NoNewWorker(w, steps[0], a);
      NoNewAttempt(w, steps[0], a);
      NoNewCall(w, steps[0], a);
      assert a in AttemptsFor(w.db, w.db.attempts[a].invoice);
      assert a in AttemptsFor(next.db, w.db.attempts[a].invoice);
      OrphanedForEver(next, steps[1..], w', a);
    }
  }

  /** Whenever a task dies before its settlement commits, whatever the PSP has
      answered, its attempt is orphaned. */
  lemma CrashOrphans(w: World, r: RequestId)
    requires Reachable(w) && r in w.tasks && w.tasks[r].Active()
    ensures Enabled(w, KillTask(r)) && Orphaned(Next(w, KillTask(r)), w.tasks[r].attempt)
  {
    ReachableIsOk(w);
    TaskFacts(w, r);
  }

  // ---- The way back: with a worker left, the attempt can be settled ----

  /** UUIDs never run out: every listing can be addressed. */
  lemma {:induction false} FreshIds(listed: set<EndpointId>, deliveries: map<DeliveryId, Delivery>, from: nat)
      returns (ids: map<DeliveryId, EndpointId>)
    requires forall d :: d in deliveries ==> d < from
    ensures Addressed(ids, listed, deliveries) && forall d :: d in ids ==> d >= from
    decreases listed
  {
    if listed == {} {
      ids := map[];
    } else {
      var e :| e in listed;
      var rest := FreshIds(listed - {e}, deliveries, from + 1);
      ids := rest[from := e];
      assert Addressed(rest, listed - {e}, deliveries);
      forall x | x in listed ensures exists d :: d in ids && ids[d] == x {
        if x == e {
          assert ids[from] == e;
        } else {
          assert x in listed - {e};
          var d :| d in rest && rest[d] == x;
          assert ids[d] == x;
        }
      }
    }
  }

  function Rank(pc: TaskPc): nat {
    match pc
    case Ready => 4
    case Charging => 3
    case Settling(_) => 2
    case Listed(_, _, _) => 1
    case _ => 0
  }

  /** Nothing but failures has been heard of the task's charge. */
  predicate Doomed(t: Task) {
    t.answer.Some? && !t.answer.value.Succeeded?
  }

  /** A running task, left alone with the PSP and the database, settles its attempt,
      as succeeded unless the PSP has already failed it; no invoice is moved. */
  lemma {:induction false} TaskCanSettle(w: World, r: RequestId) returns (steps: seq<Step>, w': World)
    requires Inv(w) && r in w.tasks && w.tasks[r].Active()
    ensures Runs(w, steps, w') && w.tasks[r].attempt in w'.db.attempts
    ensures w'.db.attempts[w.tasks[r].attempt].status == if Doomed(w.tasks[r]) then AttemptFailed else AttemptSucceeded
    ensures forall n :: 0 <= n < |steps| ==> OfTask(steps[n])
    decreases Rank(w.tasks[r].pc)
  {
    TaskFacts(w, r);
    var s: Step;
    match w.tasks[r].pc {
      case Ready => s := Call(r);
      case Charging => s := Answer(r, Succeeded(""));
      case Settling(_) => s := ListEndpoints(r);
      case Listed(_, _, _) =>
        var from := AboveAll(w.db.deliveries.Keys);
        var ids := FreshIds(w.tasks[r].pc.endpoints, w.db.deliveries, from);
        s := Settle(r, ids, true);
        SettleFindsPending(w, r);
    }
    var next := Next(w, s);
    StepKeeps(w, s);
    assert OfTask(s);
    if s.Settle? {
      steps, w' := [s], next;
      assert steps[1..] == [];
    } else {
      var rest, end := TaskCanSettle(next, r);
      steps, w' := [s] + rest, end;
      assert steps[1..] == rest;
    }
  }

  ghost predicate CanBeSettled(w: World, a: AttemptId) {
    exists steps, w' :: Runs(w, steps, w') && a in w'.db.attempts && !w'.db.attempts[a].status.AttemptPending?
  }

  /** A pending attempt can still be settled if and only if it has a worker. */
  lemma SettleableIffWorker(w: World, a: AttemptId)
    requires Reachable(w) && a in w.db.attempts && w.db.attempts[a].status.AttemptPending?
    ensures CanBeSettled(w, a) <==> HasWorker(w, a)
  {
    ReachableIsOk(w);
    if HasWorker(w, a) {
      WorkerCanSettle(w, a);
    } else if CanBeSettled(w, a) {
      var steps, w' :| Runs(w, steps, w') && a in w'.db.attempts && !w'.db.attempts[a].status.AttemptPending?;
      OrphanedForEver(w, steps, w', a);
    }
  }

  lemma WorkerCanSettle(w: World, a: AttemptId)
    requires Inv(w) && a in w.db.attempts && HasWorker(w, a)
    ensures CanBeSettled(w, a)
  {
    var r := w.origin[a];
    if r in w.tasks && w.tasks[r].Active() {
      TaskFacts(w, r);
      assert Holds(w, Origins);
      var steps, w' := TaskCanSettle(w, r);
    } else {
      HandlerFacts(w, r);
      assert OriginOk(w, a) by {
        assert Holds(w, Origins);
      }
      var s := FetchAndSpawn(r);
      StepKeeps(w, s);
      var rest, w' := TaskCanSettle(Next(w, s), r);
      assert ([s] + rest)[1..] == rest;
      assert Runs(w, [s] + rest, w');
    }
  }
}
