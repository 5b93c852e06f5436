/** What the payment protocol guarantees in every reachable state and along every
    run, under any schedule of requests, tasks, transitions and faults. */
module Guarantees {
  import opened Domain
  import opened Totals
  import opened Transactions
  import opened Idempotency
  import opened Protocol
  import opened Frames
  import opened Evolution
  import opened Invariant
  import opened Preservation

  // ---- Charging ----

  /** No invoice ever has two attempts that are pending or succeeded. */
  lemma OneLiveAttemptPerInvoice(w: World)
    requires Reachable(w)
    ensures OneLiveAttempt(w.db)
  {
    ReachableIsOk(w);
    assert Holds(w, Attempts);
  }

  /** An observed success belongs to an attempt that is still live. */
  lemma SuccessIsLive(w: World, n: nat)
    requires Inv(w) && n < |w.answers| && w.answers[n].outcome.Succeeded?
    ensures var a := w.answers[n].attempt;
            a in w.db.attempts && w.db.attempts[a].Live() && w.db.attempts[a].invoice == w.answers[n].invoice
  {
    assert Holds(w, Ledger);
    var a := w.answers[n].attempt;
    assert AnswerOk(w, w.answers[n]);
    if !w.db.attempts[a].status.AttemptPending? {
      assert SettledByAnswer(w, a);
    }
  }

  /** Over a whole run, at most one PSP call for an invoice is observed to succeed. */
  lemma AtMostOneObservedSuccess(w: World, n: nat, n': nat)
    requires Reachable(w) && n < |w.answers| && n' < |w.answers|
    requires w.answers[n].outcome.Succeeded? && w.answers[n'].outcome.Succeeded?
        && w.answers[n].invoice == w.answers[n'].invoice
    ensures n == n'
  {
    ReachableIsOk(w);
    SuccessIsLive(w, n);
    SuccessIsLive(w, n');
    assert BothLive(w.db.attempts[w.answers[n].attempt], w.db.attempts[w.answers[n'].attempt]);
    assert Holds(w, Attempts) && Holds(w, Ledger);
  }

  /** One attempt is charged at most once, with its own card, and for the total
      fixed when the invoice was created: the wrapping sum of its lines. */
  lemma EveryCallIsForTheTotal(w: World, steps: seq<Step>, w': World, n: nat)
    requires Reachable(w) && Runs(w, steps, w') && n < |w'.calls| && w'.calls[n].invoice in w.db.invoices
    ensures var c := w'.calls[n];
            && c.amountCents == w.db.invoices[c.invoice].totalCents == WrappingTotal(w.db.invoices[c.invoice].lines)
            && c.attempt in w'.db.attempts && w'.db.attempts[c.attempt].invoice == c.invoice
            && w'.db.attempts[c.attempt].card == c.card
            && forall n' :: 0 <= n' < |w'.calls| && w'.calls[n'].attempt == c.attempt ==> n' == n
  {
    ReachableIsOk(w);
    RunKeeps(w, steps, w');
    assert Holds(w, Attempts) && InvoiceOk(w.db, w'.calls[n].invoice);
    assert EvolvesIn(w, w', InvoicePart);
    assert Holds(w', Ledger) && CallOk(w', w'.calls[n]);
  }

  // ---- Idempotency keys ----

  predicate ProceededOn(w: World, r: RequestId, k: KeyId) {
    r in w.requests && w.requests[r].proceeded && w.requests[r].key == k
  }

  predicate ClaimedUnder(w: World, a: AttemptId, k: KeyId) {
    a in w.origin && w.origin[a] in w.requests && w.requests[w.origin[a]].key == k
  }

  /** For one key at most one request ever proceeds, and at most one attempt is claimed. */
  lemma OneProceedAndOneAttemptPerKey(w: World, k: KeyId)
    requires Reachable(w)
    ensures forall r, r' :: ProceededOn(w, r, k) && ProceededOn(w, r', k) ==> r == r'
    ensures forall a, a' :: ClaimedUnder(w, a, k) && ClaimedUnder(w, a', k) ==> a == a'
  {
    ReachableIsOk(w);
    forall r, r' | ProceededOn(w, r, k) && ProceededOn(w, r', k) ensures r == r' {
      assert Holds(w, Keys);
      assert SameKeyProceeded(w.requests[r], w.requests[r']);
    }
    forall a, a' | ClaimedUnder(w, a, k) && ClaimedUnder(w, a', k) ensures a == a' {
      assert Holds(w, Origins);
      assert OriginOk(w, a) && OriginOk(w, a');
      assert ProceededOn(w, w.origin[a], k) && ProceededOn(w, w.origin[a'], k);
    }
  }

  /** The UPDATE that stores a response has no status condition, yet it never overwrites one. */
  lemma StoreNeverOverwrites(w: World, r: RequestId, ack: bool)
    requires Reachable(w) && Enabled(w, Step.Store(r, ack))
    ensures var k := w.requests[r].key;
            && k in w.db.keys && w.db.keys[k] == KeyRow(w.requests[r].Hash(), None)
            && Next(w, Step.Store(r, ack)).db.keys[k].response == Some(w.requests[r].pc.response)
  {
    ReachableIsOk(w);
    HandlerFacts(w, r);
  }

  /** A key is never released, keeps its hash, and keeps its first response for ever. */
  lemma StoredResponseIsPermanent(w: World, steps: seq<Step>, w': World)
    requires Reachable(w) && Runs(w, steps, w')
    ensures Grows(w.db.keys, w'.db.keys)
  {
    ReachableIsOk(w);
    RunKeeps(w, steps, w');
    assert EvolvesIn(w, w', KeyPart);
  }

  /** A reply is the response stored under its key, now and in every continuation,
      or "in progress", "key reused" exactly on a hash mismatch, or a database error. */
  lemma ReplyIsTheStoredResponse(w: World, steps: seq<Step>, w': World, r: RequestId)
    requires Reachable(w) && Runs(w, steps, w') && r in w.requests && w.requests[r].pc.Replied?
    ensures r in w'.requests && w'.requests[r] == w.requests[r]
    ensures ReplyExplained(w', w.requests[r], w.requests[r].pc.response)
  {
    ReachableIsOk(w);
    RunKeeps(w, steps, w');
    assert EvolvesIn(w, w', RequestPart);
    HandlerFacts(w', r);
  }

  /** Two replies to the same key and hash that carry a result carry the same one. */
  lemma ReplaysAreIdentical(w: World, r: RequestId, r': RequestId)
    requires Reachable(w) && r in w.requests && r' in w.requests
    requires w.requests[r].pc.Replied? && w.requests[r'].pc.Replied?
    requires w.requests[r].key == w.requests[r'].key && w.requests[r].Hash() == w.requests[r'].Hash()
    requires forall x :: x in [r, r'] ==> w.requests[x].pc.response !in {Refused(InternalError),
        Refused(RequestInProgress), Refused(IdempotencyKeyReused)}
    ensures w.requests[r].pc.response == w.requests[r'].pc.response
  {
    ReachableIsOk(w);
    HandlerFacts(w, r);
    HandlerFacts(w, r');
    assert r in [r, r'] && r' in [r, r'];
  }

  // ---- Responses ----

  /** A 200 body that was replied or stored agrees with its attempt row in all
      later states, and a named attempt is the one claimed under that very key. */
  lemma ResponsesStayTrue(w: World, steps: seq<Step>, w': World, k: KeyId, response: Response)
    requires Reachable(w) && Runs(w, steps, w')
    requires (k in w.db.keys && w.db.keys[k].response == Some(response))
      || exists r :: r in w.requests && w.requests[r].key == k && w.requests[r].pc == Replied(response)
    ensures ResponseOk(w', k, response)
  {
    ReachableIsOk(w);
    RunKeeps(w, steps, w');
    if r :| r in w.requests && w.requests[r].key == k && w.requests[r].pc == Replied(response) {
      HandlerFacts(w, r);
    } else {
      assert Holds(w, Responses);
    }
    ResponseStable(w, w', k, response);
  }

  /** Responses under different keys never name the same attempt. */
  lemma KeysNeverShareAttempts(w: World, k: KeyId, k': KeyId)
    requires Reachable(w) && k in w.db.keys && k' in w.db.keys && k != k'
    requires w.db.keys[k].response.Some? && w.db.keys[k'].response.Some?
    requires w.db.keys[k].response.value.Names().Some?
    ensures w.db.keys[k].response.value.Names() != w.db.keys[k'].response.value.Names()
  {
    ReachableIsOk(w);
    assert Holds(w, Responses);
    assert ResponseOk(w, k, w.db.keys[k].response.value) && ResponseOk(w, k', w.db.keys[k'].response.value);
  }

  /** An attempt is settled at most once, with the outcome its one PSP call returned. */
  lemma SettledOnce(w: World, steps: seq<Step>, w': World, a: AttemptId)
    requires Reachable(w) && Runs(w, steps, w') && a in w.db.attempts && !w.db.attempts[a].status.AttemptPending?
    ensures a in w'.db.attempts && w'.db.attempts[a] == w.db.attempts[a]
    ensures SettledByAnswer(w, a)
  {
    ReachableIsOk(w);
    RunKeeps(w, steps, w');
    assert EvolvesIn(w, w', AttemptPart);
    assert Holds(w, Ledger);
  }

  /** The branch "payment attempt was already finalized" is unreachable. */
  lemma NeverAlreadyFinalized(w: World, r: RequestId, ids: map<DeliveryId, EndpointId>)
    requires Reachable(w) && Enabled(w, Step.Settle(r, ids, true))
    ensures var t := w.tasks[r];
            && t.attempt in w.db.attempts && w.db.attempts[t.attempt].status.AttemptPending?
            && Next(w, Step.Settle(r, ids, true)).tasks[r].pc == Done(Ok(ResultOf(t.attempt, t.invoice, t.pc.outcome)))
  {
    ReachableIsOk(w);
    SettleFindsPending(w, r);
  }

  // ---- Invoice states ----

  /** A paid invoice has exactly one succeeded attempt and no pending one; a
      succeeded attempt has a terminal invoice; a pending attempt has an invoice
      that is open, void or uncollectible. */
  lemma StatesAgree(w: World, a: AttemptId)
    requires Reachable(w) && a in w.db.attempts && w.db.attempts[a].invoice in w.db.invoices
    ensures var row, state := w.db.attempts[a], w.db.invoices[w.db.attempts[a].invoice].state;
            && (row.status.AttemptSucceeded? ==> state.IsTerminal())
            && (row.status.AttemptPending? ==> state.Open? || state.Void? || state.Uncollectible?)
  {
    ReachableIsOk(w);
    assert Holds(w, Attempts);
    assert AttemptOk(w.db, w.db.attempts[a]) && InvoiceOk(w.db, w.db.attempts[a].invoice);
    if w.db.attempts[a].status.AttemptPending? {
      PendingIsNotPaid(w.db, a);
    }
  }

  lemma PaidHasOneSuccess(w: World, i: InvoiceId)
    requires Reachable(w) && i in w.db.invoices && w.db.invoices[i].state.Paid?
    ensures exists a :: SucceededFor(w.db, a, i) && forall a' :: SucceededFor(w.db, a', i) ==> a' == a
  {
    ReachableIsOk(w);
    assert Holds(w, Attempts) && InvoiceOk(w.db, i);
    var a :| a in w.db.attempts && w.db.attempts[a].invoice == i && w.db.attempts[a].status.AttemptSucceeded?;
    assert SucceededFor(w.db, a, i);
    forall a' | SucceededFor(w.db, a', i) ensures a' == a {
      assert BothLive(w.db.attempts[a], w.db.attempts[a']);
    }
  }

  predicate SucceededFor(db: Db, a: AttemptId, i: InvoiceId) {
    a in db.attempts && db.attempts[a].invoice == i && db.attempts[a].status.AttemptSucceeded?
  }

  /** An invoice moves only along draft -> open -> terminal or draft -> terminal,
      keeps its tenant, lines and total, and is never deleted. */
  lemma InvoicesOnlyMoveForward(w: World, steps: seq<Step>, w': World)
    requires Reachable(w) && Runs(w, steps, w')
    ensures InvoicesEvolve(w.db, w'.db)
  {
    ReachableIsOk(w);
    RunKeeps(w, steps, w');
    assert EvolvesIn(w, w', InvoicePart);
  }

  predicate MovesInvoice(s: Step, i: InvoiceId) {
    s.Transition? && s.i == i
  }

  /** While no transition hits it, an open invoice with a pending attempt stays so
      until the attempt is settled, and a success then pays it. */
  ghost predicate OnTrack(db: Db, a: AttemptId) {
    && a in db.attempts && db.attempts[a].invoice in db.invoices
    && (db.attempts[a].status.AttemptPending? ==> db.invoices[db.attempts[a].invoice].state.Open?)
    && (db.attempts[a].status.AttemptSucceeded? ==> db.invoices[db.attempts[a].invoice].state.Paid?)
  }

  lemma StaysOnTrack(w: World, s: Step, a: AttemptId)
    requires Inv(w) && Enabled(w, s) && OnTrack(w.db, a) && !MovesInvoice(s, w.db.attempts[a].invoice)
    ensures OnTrack(Next(w, s).db, a)
  {
    var i, w' := w.db.attempts[a].invoice, Next(w, s);
    StepKeeps(w, s);
    assert EvolvesIn(w, w', InvoicePart) && EvolvesIn(w, w', AttemptPart);
    if s.Settle? {
      TaskFacts(w, s.r);
      SettleFindsPending(w, s.r);
      var t := w.tasks[s.r];
      if t.invoice == i && t.attempt != a && w.db.attempts[a].status.AttemptPending? {
        assert Holds(w, Attempts) && BothLive(w.db.attempts[a], w.db.attempts[t.attempt]);
      }
    } else {
      SameUnlessSettled(w, s, a);
    }
  }

  /** Only a settlement changes an attempt; only a settlement or a transition changes an invoice. */
  lemma SameUnlessSettled(w: World, s: Step, a: AttemptId)
    requires Enabled(w, s) && !s.Settle? && a in w.db.attempts && w.db.attempts[a].invoice in w.db.invoices
    requires !MovesInvoice(s, w.db.attempts[a].invoice)
    ensures var db', i := Next(w, s).db, w.db.attempts[a].invoice;
            a in db'.attempts && db'.attempts[a] == w.db.attempts[a] && i in db'.invoices
                && db'.invoices[i] == w.db.invoices[i]
  {
    if OfHandler(s) {
      HandlerFrame(w, s);
    }
    match s
    case Claim(r, x, ack) => ClaimOnlyInserts(w, r, x, ack);
    case CreateInvoice(_, _, _, _, _) =>
    case Transition(_, _, _) =>
    case _ => if Quiet(s) { QuietFrame(w, s); }
  }

  lemma ClaimOnlyInserts(w: World, r: RequestId, a: AttemptId, ack: bool)
    requires r in w.requests && a !in w.db.attempts
    ensures Extends(w.db.attempts, AfterClaim(w, r, a, ack).db.attempts)
  {
  }

  /** If no transition hits the invoice between the claim and the settlement, a
      success pays it, whatever else happens in between. */
  lemma {:induction false} SuccessPaysUnlessMoved(w: World, steps: seq<Step>, w': World, a: AttemptId)
    requires Inv(w) && Runs(w, steps, w') && OnTrack(w.db, a)
    requires forall n :: 0 <= n < |steps| ==> !MovesInvoice(steps[n], w.db.attempts[a].invoice)
    ensures OnTrack(w'.db, a)
    decreases |steps|
  {
    if steps != [] {
      var next := Next(w, steps[0]);
      StepKeeps(w, steps[0]);
      StaysOnTrack(w, steps[0], a);
      assert EvolvesIn(w, next, AttemptPart);
      SuccessPaysUnlessMoved(next, steps[1..], w', a);
    }
  }

  /** A claim that inserts its attempt puts it on track. */
  lemma ClaimIsOnTrack(w: World, r: RequestId, a: AttemptId, ack: bool)
    requires Enabled(w, Step.Claim(r, a, ack))
    requires ClaimRefusal(w.db, w.requests[r].key.business, w.requests[r].invoice).None?
    ensures OnTrack(Next(w, Step.Claim(r, a, ack)).db, a)
    ensures Next(w, Step.Claim(r, a, ack)).db.attempts[a].invoice == w.requests[r].invoice
  {
  }

  lemma MoveEndsUnpaid(w: World, s: Step, i: InvoiceId)
    requires Enabled(w, s) && MovesInvoice(s, i) && i in w.db.invoices && !w.db.invoices[i].state.Draft?
    ensures i in Next(w, s).db.invoices
    ensures Next(w, s).db.invoices[i].state.IsTerminal() && !Next(w, s).db.invoices[i].state.Paid?
  {
  }

  /** A transition of an invoice that has left draft ends it unpaid, for ever. */
  lemma {:induction false} MovedIsNeverPaid(w: World, steps: seq<Step>, w': World, i: InvoiceId, n: nat)
    requires Inv(w) && Runs(w, steps, w') && i in w.db.invoices && !w.db.invoices[i].state.Draft?
    requires n < |steps| && MovesInvoice(steps[n], i)
    ensures i in w'.db.invoices && !w'.db.invoices[i].state.Paid?
    decreases |steps|
  {
    var next := Next(w, steps[0]);
    StepKeeps(w, steps[0]);
    assert EvolvesIn(w, next, InvoicePart);
    if n == 0 {
      MoveEndsUnpaid(w, steps[0], i);
      RunKeeps(next, steps[1..], w');
      assert EvolvesIn(next, w', InvoicePart);
    } else {
      MovedIsNeverPaid(next, steps[1..], w', i, n - 1);
    }
  }

  /** From the claim on, over whole runs: an attempt that has succeeded has paid its
      invoice if and only if no transition has hit the invoice since the claim. */
  lemma SuccessPaysIffNotMoved(w: World, r: RequestId, a: AttemptId, ack: bool, steps: seq<Step>, w': World)
    requires Reachable(w) && Enabled(w, Step.Claim(r, a, ack))
    requires ClaimRefusal(w.db, w.requests[r].key.business, w.requests[r].invoice).None?
    requires Runs(Next(w, Step.Claim(r, a, ack)), steps, w') && SucceededFor(w'.db, a, w.requests[r].invoice)
    ensures var i := w.requests[r].invoice;
            && i in w'.db.invoices
            && (w'.db.invoices[i].state.Paid? <==> forall n :: 0 <= n < |steps| ==> !MovesInvoice(steps[n], i))
  {
    var i, claimed := w.requests[r].invoice, Next(w, Step.Claim(r, a, ack));
    ReachableIsOk(w);
    ClaimIsOnTrack(w, r, a, ack);
    StepKeeps(w, Step.Claim(r, a, ack));
    if n :| 0 <= n < |steps| && MovesInvoice(steps[n], i) {
      ClaimedIsNotDraft(claimed, a);
      MovedIsNeverPaid(claimed, steps, w', i, n);
    } else {
      SuccessPaysUnlessMoved(claimed, steps, w', a);
    }
  }

  lemma ClaimedIsNotDraft(w: World, a: AttemptId)
    requires Inv(w) && a in w.db.attempts
    ensures w.db.attempts[a].invoice in w.db.invoices && !w.db.invoices[w.db.attempts[a].invoice].state.Draft?
  {
    assert Holds(w, Attempts) && AttemptOk(w.db, w.db.attempts[a]);
  }

  /** Exactly when a successful settlement pays the invoice: it finds it open. */
  lemma SettlementPaysIffOpen(w: World, r: RequestId, ids: map<DeliveryId, EndpointId>, ack: bool)
    requires Reachable(w) && Enabled(w, Step.Settle(r, ids, ack)) && w.tasks[r].pc.outcome.Succeeded?
    ensures var w', t := Next(w, Step.Settle(r, ids, ack)), w.tasks[r];
            && SucceededFor(w'.db, t.attempt, t.invoice) && t.invoice in w.db.invoices
            && (w'.db.invoices[t.invoice].state.Paid? <==> w.db.invoices[t.invoice].state.Open?)
  {
    ReachableIsOk(w);
    SettleFindsPending(w, r);
    StatesAgree(w, w.tasks[r].attempt);
  }
}
