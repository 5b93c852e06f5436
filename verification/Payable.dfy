/** Which invoices can still be paid: drafts, and open invoices without an orphaned attempt. */
module Payable {
  import opened Domain
  import opened Transactions
  import opened Idempotency
  import opened Protocol
  import opened Frames
  import opened Evolution
  import opened Invariant
  import opened Preservation
  import opened Guarantees
  import opened Orphans

  predicate IsPaid(w: World, i: InvoiceId) {
    i in w.db.invoices && w.db.invoices[i].state.Paid?
  }

  predicate IsOpen(w: World, i: InvoiceId) {
    i in w.db.invoices && w.db.invoices[i].state.Open?
  }

  ghost predicate CanBePaid(w: World, i: InvoiceId) {
    exists steps, w' :: Runs(w, steps, w') && IsPaid(w', i)
  }

  lemma CanBePaidLater(w: World, steps: seq<Step>, later: World, i: InvoiceId)
    requires Runs(w, steps, later) && CanBePaid(later, i)
    ensures CanBePaid(w, i)
  {
    var rest, w' :| Runs(later, rest, w') && IsPaid(w', i);
    RunsCompose(w, steps, later, rest, w');
  }

  /** Steps that claim no attempt and move no invoice but to paid. */
  predicate Working(s: Step) {
    OfTask(s) || s.FetchAndSpawn?
  }

  predicate AllWorking(steps: seq<Step>) {
    forall n :: 0 <= n < |steps| ==> Working(steps[n])
  }

  lemma WorkingStep(w: World, s: Step, i: InvoiceId)
    requires Inv(w) && Enabled(w, s) && Working(s)
    ensures Next(w, s).db.attempts.Keys == w.db.attempts.Keys
    ensures IsOpen(w, i) ==> IsOpen(Next(w, s), i) || IsPaid(Next(w, s), i)
    ensures IsPaid(w, i) ==> IsPaid(Next(w, s), i)
  {
    if s.Settle? {
      SettleFindsPending(w, s.r);
    } else {
      QuietFrame(w, s);
    }
  }

  lemma {:induction false} WorkingRun(w: World, steps: seq<Step>, w': World, i: InvoiceId)
    requires Inv(w) && Runs(w, steps, w') && AllWorking(steps)
    ensures Inv(w') && Evolves(w, w') && w'.db.attempts.Keys == w.db.attempts.Keys
    ensures IsOpen(w, i) ==> IsOpen(w', i) || IsPaid(w', i)
    ensures IsPaid(w, i) ==> IsPaid(w', i)
    decreases |steps|
  {
    RunKeeps(w, steps, w');
    if steps != [] {
      WorkingStep(w, steps[0], i);
      StepKeeps(w, steps[0]);
      WorkingRun(Next(w, steps[0]), steps[1..], w', i);
    }
  }

  // ---- Finishing the attempt that is pending ----

  /** The handler has yet to spawn its task, or the charge has not failed. */
  predicate MaySucceed(w: World, r: RequestId) {
    r in w.tasks ==> !Doomed(w.tasks[r])
  }

  lemma WorkerSettles(w: World, a: AttemptId) returns (steps: seq<Step>, w': World)
    requires Inv(w) && a in w.db.attempts && HasWorker(w, a)
    ensures Runs(w, steps, w') && AllWorking(steps) && a in w'.db.attempts
    ensures !w'.db.attempts[a].status.AttemptPending?
    ensures MaySucceed(w, w.origin[a]) ==> w'.db.attempts[a].status.AttemptSucceeded?
  {
    var r := w.origin[a];
    assert OriginOk(w, a) by {
      assert Holds(w, Origins);
    }
    if r in w.tasks && w.tasks[r].Active() {
      SameOrigin(w, r, a);
      steps, w' := TaskCanSettle(w, r);
    } else {
      HandlerFacts(w, r);
      SpawnForAttempt(w, r, a);
      StepKeeps(w, FetchAndSpawn(r));
      var rest;
      rest, w' := TaskCanSettle(Next(w, FetchAndSpawn(r)), r);
      steps := [FetchAndSpawn(r)] + rest;
      assert steps[1..] == rest;
    }
  }

  lemma SameOrigin(w: World, r: RequestId, a: AttemptId)
    requires Inv(w) && r in w.tasks && a in w.origin && w.origin[a] == r
    ensures w.tasks[r].attempt == a
  {
    TaskFacts(w, r);
    assert Holds(w, Origins);
  }

  lemma SpawnForAttempt(w: World, r: RequestId, a: AttemptId)
    requires Inv(w) && r in w.requests && w.requests[r].pc == Fetching(a) && OriginOkFor(w, a)
    ensures Enabled(w, FetchAndSpawn(r))
    ensures var w' := Next(w, FetchAndSpawn(r));
            r in w'.tasks && w'.tasks[r].attempt == a && w'.tasks[r].Active() && !Doomed(w'.tasks[r])
  {
    HandlerFacts(w, r);
  }

  ghost predicate OriginOkFor(w: World, a: AttemptId) {
    a in w.origin && a in w.db.attempts && OriginOk(w, a)
  }

  // ---- A new payment ----

  lemma FreshKey(keys: map<KeyId, KeyRow>, b: BusinessId) returns (k: KeyId)
    ensures k !in keys && k.business == b
  {
    var lengths := set x | x in keys :: |x.key|;
    var n := AboveAll(lengths);
    k := KeyId(b, seq(n, _ => 'k'));
    assert forall x :: x in keys ==> |x.key| in lengths;
    assert |k.key| == n;
  }

  /** The request stands at `pc`; no attempt or invoice has changed. */
  predicate Stands(w: World, w': World, r: RequestId, k: KeyId, i: InvoiceId, pc: RequestPc) {
    && w'.db.attempts == w.db.attempts && w'.db.invoices == w.db.invoices
    && r in w'.requests && w'.requests[r].pc == pc && w'.requests[r].key == k && w'.requests[r].invoice == i
  }

  lemma FreshArrives(w: World, r: RequestId, k: KeyId, i: InvoiceId)
    requires r !in w.requests
    ensures var s := Arrive(r, k, i, "");
            Enabled(w, s) && Stands(w, Next(w, s), r, k, i, Reserving(Polling(0))) && Next(w, s).db.keys == w.db.keys
  {
  }

  lemma FreshSelects(w: World, r: RequestId, k: KeyId, i: InvoiceId)
    requires Stands(w, w, r, k, i, Reserving(Polling(0))) && k !in w.db.keys
    ensures Enabled(w, SelectKey(r)) && Stands(w, Next(w, SelectKey(r)), r, k, i, Reserving(Inserting(0)))
    ensures Next(w, SelectKey(r)).db.keys == w.db.keys
  {
  }

  lemma FreshInserts(w: World, r: RequestId, k: KeyId, i: InvoiceId)
    requires Stands(w, w, r, k, i, Reserving(Inserting(0))) && k !in w.db.keys
    ensures Enabled(w, InsertKey(r, true)) && Stands(w, Next(w, InsertKey(r, true)), r, k, i, Claiming)
  {
  }

  /** A new request with a key of its own gets as far as its claim. */
  lemma NewRequestClaims(w: World, i: InvoiceId, b: BusinessId) returns (steps: seq<Step>, w': World, r: RequestId)
    requires Inv(w)
    ensures Runs(w, steps, w') && Inv(w') && w'.db.attempts == w.db.attempts && w'.db.invoices == w.db.invoices
    ensures r in w'.requests && w'.requests[r].pc.Claiming?
    ensures w'.requests[r].invoice == i && w'.requests[r].key.business == b
  {
    r := AboveAll(w.requests.Keys);
    var k := FreshKey(w.db.keys, b);
    FreshArrives(w, r, k, i);
    var arrived := Next(w, Arrive(r, k, i, ""));
    FreshSelects(arrived, r, k, i);
    var selected := Next(arrived, SelectKey(r));
    FreshInserts(selected, r, k, i);
    w' := Next(selected, InsertKey(r, true));
    steps := [Arrive(r, k, i, ""), SelectKey(r), InsertKey(r, true)];
    ThreeSteps(w, steps, arrived, selected, w');
    RunKeeps(w, steps, w');
  }

  lemma ThreeSteps(w: World, steps: seq<Step>, w1: World, w2: World, w3: World)
    requires |steps| == 3 && Enabled(w, steps[0]) && w1 == Next(w, steps[0])
    requires Enabled(w1, steps[1]) && w2 == Next(w1, steps[1]) && Enabled(w2, steps[2]) && w3 == Next(w2, steps[2])
    ensures Runs(w, steps, w3)
  {
    assert steps[1..][0] == steps[1] && steps[1..][1..][0] == steps[2] && steps[1..][1..][1..] == [];
    assert Runs(w2, steps[1..][1..], w3);
    assert Runs(w1, steps[1..], w3);
  }

  /** A claim of an open invoice without a pending attempt can go all the way. */
  lemma ClaimCanPay(w: World, r: RequestId) returns (steps: seq<Step>, w': World)
    requires Inv(w) && r in w.requests && w.requests[r].pc.Claiming?
    requires ClaimRefusal(w.db, w.requests[r].key.business, w.requests[r].invoice).None?
    ensures Runs(w, steps, w') && IsPaid(w', w.requests[r].invoice)
  {
    var a := AboveAll(w.db.attempts.Keys);
    var s := Claim(r, a, true);
    var claimed := Next(w, s);
    StepKeeps(w, s);
    ClaimIsOnTrack(w, r, a, true);
    ClaimerHasWorker(w, r, a);
    var rest;
    rest, w' := WorkerSettles(claimed, a);
    SuccessPaysUnlessMoved(claimed, rest, w', a);
    RunKeeps(claimed, rest, w');
    assert EvolvesIn(claimed, w', AttemptPart);
    steps := [s] + rest;
    assert steps[1..] == rest;
  }

  lemma ClaimerHasWorker(w: World, r: RequestId, a: AttemptId)
    requires Inv(w) && Enabled(w, Claim(r, a, true))
    requires ClaimRefusal(w.db, w.requests[r].key.business, w.requests[r].invoice).None?
    ensures var w' := Next(w, Claim(r, a, true));
            a in w'.db.attempts && HasWorker(w', a) && w'.origin[a] == r && MaySucceed(w', r)
  {
    HandlerFacts(w, r);
  }

  lemma OpenCanBePaidAgain(w: World, i: InvoiceId)
    requires Inv(w) && IsOpen(w, i) && !HasPending(w.db, i)
    ensures CanBePaid(w, i)
  {
    var first, claiming, r := NewRequestClaims(w, i, w.db.invoices[i].business);
    assert !HasPending(claiming.db, i);
    var second, w' := ClaimCanPay(claiming, r);
    CanBePaidLater(w, first, claiming, i);
  }

  /** Once its pending attempt is settled, an open invoice has none. */
  lemma SettledLeavesNonePending(w: World, w': World, a: AttemptId)
    requires Inv(w) && Evolves(w, w') && w'.db.attempts.Keys == w.db.attempts.Keys && a in w.db.attempts
        && a in w'.db.attempts
    requires w.db.attempts[a].status.AttemptPending? && !w'.db.attempts[a].status.AttemptPending?
    ensures !HasPending(w'.db, w.db.attempts[a].invoice)
  {
    var i := w.db.attempts[a].invoice;
    assert EvolvesIn(w, w', AttemptPart) && Holds(w, Attempts);
    forall x | x in w'.db.attempts && w'.db.attempts[x].invoice == i ensures !w'.db.attempts[x].status.AttemptPending? {
      assert w.db.attempts[x].status.AttemptPending? ==> BothLive(w.db.attempts[x], w.db.attempts[a]);
    }
  }

  lemma OpenCanBePaid(w: World, i: InvoiceId)
    requires Inv(w) && IsOpen(w, i) && forall a :: Orphaned(w, a) ==> w.db.attempts[a].invoice != i
    ensures CanBePaid(w, i)
  {
    if HasPending(w.db, i) {
      var a :| a in w.db.attempts && w.db.attempts[a].invoice == i && w.db.attempts[a].status.AttemptPending?;
      assert !Orphaned(w, a);
      var first, settled := WorkerSettles(w, a);
      WorkingRun(w, first, settled, i);
      if !IsPaid(settled, i) {
        SettledLeavesNonePending(w, settled, a);
        OpenCanBePaidAgain(settled, i);
        CanBePaidLater(w, first, settled, i);
      }
    } else {
      OpenCanBePaidAgain(w, i);
    }
  }

  lemma DraftCanBePaid(w: World, i: InvoiceId)
    requires Inv(w) && i in w.db.invoices && w.db.invoices[i].state.Draft?
    ensures CanBePaid(w, i)
  {
    var s := Transition(i, w.db.invoices[i].business, FinalizeInvoice);
    var next := Next(w, s);
    StepKeeps(w, s);
    forall a | a in w.db.attempts ensures w.db.attempts[a].invoice != i {
      assert Holds(w, Attempts) && AttemptOk(w.db, w.db.attempts[a]);
    }
    OpenCanBePaidAgain(next, i);
    assert [s][1..] == [];
    CanBePaidLater(w, [s], next, i);
  }

  /** An invoice that is not paid can still become paid exactly when it is a draft, or
      open without a pending attempt that has lost its worker. */
  lemma PayableIff(w: World, i: InvoiceId)
    requires Reachable(w) && i in w.db.invoices && !w.db.invoices[i].state.Paid?
    ensures CanBePaid(w, i) <==>
              w.db.invoices[i].state.Draft? ||
              (w.db.invoices[i].state.Open? && forall a :: Orphaned(w, a) ==> w.db.attempts[a].invoice != i)
  {
    ReachableIsOk(w);
    if w.db.invoices[i].state.Draft? {
      DraftCanBePaid(w, i);
    } else if !w.db.invoices[i].state.Open? {
      forall steps, w' | Runs(w, steps, w') ensures !IsPaid(w', i) {
        RunKeeps(w, steps, w');
        assert EvolvesIn(w, w', InvoicePart);
      }
    } else if a :| Orphaned(w, a) && w.db.attempts[a].invoice == i {
      forall steps, w' | Runs(w, steps, w') ensures !IsPaid(w', i) {
        OrphanedForEver(w, steps, w', a);
      }
    } else {
      OpenCanBePaid(w, i);
    }
  }
}
