/** What the service keeps and tells of a PSP answer: each settled attempt goes back to
    one call and one answer, and its row, its webhook events and its 200 responses all
    tell of that answer. */
module Outcomes {
  import opened Domain
  import opened Transactions
  import opened Protocol
  import opened Frames
  import opened Evolution
  import opened Invariant
  import opened Preservation

  // ---- Every call and every answer is on record ----

  predicate CalledAt(w: World, n: nat, t: Task) {
    n < |w.calls| && w.calls[n] == PspCall(t.attempt, t.invoice, t.amountCents, t.card)
  }

  predicate AnsweredAt(w: World, n: nat, t: Task) {
    n < |w.answers| && t.answer.Some? && w.answers[n] == PspAnswer(t.attempt, t.invoice, t.answer.value)
  }

  ghost predicate OnRecord(w: World, t: Task) {
    && (t.called ==> exists n: nat :: CalledAt(w, n, t))
    && (t.answer.Some? ==> t.called && exists n: nat :: AnsweredAt(w, n, t))
  }

  ghost predicate AllOnRecord(w: World) {
    forall r :: r in w.tasks ==> OnRecord(w, w.tasks[r])
  }

  lemma StaysOnRecord(w: World, w': World, t: Task)
    requires OnRecord(w, t) && w.calls <= w'.calls && w.answers <= w'.answers
    ensures OnRecord(w', t)
  {
    if t.called {
      var n: nat :| CalledAt(w, n, t);
      assert CalledAt(w', n, t);
    }
    if t.answer.Some? {
      var n: nat :| AnsweredAt(w, n, t);
      assert AnsweredAt(w', n, t);
    }
  }

  /** What a task's own step, or its spawn, does to it. */
  lemma OwnStepIsRecorded(w: World, s: Step, r: RequestId)
    requires Inv(w) && Enabled(w, s) && r in Next(w, s).tasks && ((OfTask(s) && s.r == r) || s == FetchAndSpawn(r))
    requires r in w.tasks ==> OnRecord(w, w.tasks[r])
    ensures OnRecord(Next(w, s), Next(w, s).tasks[r])
  {
    var w' := Next(w, s);
    if s.FetchAndSpawn? {
      HandlerFacts(w, r);
    } else if s.Call? {
      assert CalledAt(w', |w.calls|, w'.tasks[r]);
      if w.tasks[r].answer.Some? { TaskFacts(w, r); }
    } else if s.Answer? {
      TaskFacts(w, r);
      var n: nat :| CalledAt(w, n, w.tasks[r]);
      assert CalledAt(w', n, w'.tasks[r]) && AnsweredAt(w', |w.answers|, w'.tasks[r]);
    } else {
      OtherTaskStep(w, s, r);
    }
  }

  lemma OtherTaskStep(w: World, s: Step, r: RequestId)
    requires Enabled(w, s) && OfTask(s) && s.r == r && !s.Call? && !s.Answer? && OnRecord(w, w.tasks[r])
    ensures r in Next(w, s).tasks && OnRecord(Next(w, s), Next(w, s).tasks[r])
  {
    var t, w' := w.tasks[r], Next(w, s);
    TaskFrame(w, s);
    assert w'.tasks[r] == t.(pc := w'.tasks[r].pc);
    if t.called {
      var n: nat :| CalledAt(w, n, t);
      assert CalledAt(w', n, w'.tasks[r]);
    }
    if t.answer.Some? {
      var n: nat :| AnsweredAt(w, n, t);
      assert AnsweredAt(w', n, w'.tasks[r]);
    }
  }

  lemma StepRecords(w: World, s: Step)
    requires Inv(w) && AllOnRecord(w) && Enabled(w, s)
    ensures AllOnRecord(Next(w, s))
  {
    var w' := Next(w, s);
    StepKeeps(w, s);
    assert EvolvesIn(w, w', HistoryPart);
    forall r | r in w'.tasks ensures OnRecord(w', w'.tasks[r]) {
      if (OfTask(s) && s.r == r) || s == FetchAndSpawn(r) {
        OwnStepIsRecorded(w, s, r);
      } else {
        TaskStands(w, s, r);
        StaysOnRecord(w, w', w.tasks[r]);
      }
    }
  }

  lemma {:induction false} RunRecords(w: World, steps: seq<Step>, w': World)
    requires Inv(w) && AllOnRecord(w) && Runs(w, steps, w')
    ensures AllOnRecord(w')
    decreases |steps|
  {
    if steps != [] {
      StepKeeps(w, steps[0]);
      StepRecords(w, steps[0]);
      RunRecords(Next(w, steps[0]), steps[1..], w');
    }
  }

  lemma ReachableIsOnRecord(w: World, r: RequestId)
    requires Reachable(w) && r in w.tasks
    ensures OnRecord(w, w.tasks[r])
  {
    var steps :| Runs(START, steps, w);
    StartIsOk();
    RunRecords(START, steps, w);
  }

  /** A settled attempt has the outcome that its task has observed. */
  lemma SettledByItsTask(w: World, a: AttemptId)
    requires Inv(w) && a in w.db.attempts && w.db.attempts[a].status != AttemptPending
    ensures a in w.origin && w.origin[a] in w.tasks
    ensures var t := w.tasks[w.origin[a]];
            && t.answer.Some? && TellsOf(w.db.attempts[a], t.answer.value) && t.attempt == a
            && t.invoice == w.db.attempts[a].invoice && t.card == w.db.attempts[a].card
            && t.invoice in w.db.invoices && t.amountCents == w.db.invoices[t.invoice].totalCents
  {
    assert SettledByAnswer(w, a) by {
      assert Holds(w, Ledger);
    }
    TaskFacts(w, w.origin[a]);
    assert w.tasks[w.origin[a]].attempt == a by {
      assert Holds(w, Origins);
    }
  }

  /** A settled attempt was charged by exactly one call, for the invoice's total and to
      its own card; exactly one answer to it was observed, and its row tells of that. */
  lemma SettledMeansChargedOnce(w: World, a: AttemptId) returns (call: nat, answer: nat)
    requires Reachable(w) && a in w.db.attempts && w.db.attempts[a].status != AttemptPending
    ensures var row := w.db.attempts[a];
            && row.invoice in w.db.invoices && call < |w.calls| && answer < |w.answers|
            && w.calls[call] == PspCall(a, row.invoice, w.db.invoices[row.invoice].totalCents, row.card)
            && w.answers[answer].attempt == a && w.answers[answer].invoice == row.invoice
            && TellsOf(row, w.answers[answer].outcome)
    ensures forall n :: 0 <= n < |w.calls| && w.calls[n].attempt == a ==> n == call
    ensures forall n :: 0 <= n < |w.answers| && w.answers[n].attempt == a ==> n == answer
  {
    ReachableIsOk(w);
    SettledByItsTask(w, a);
    ReachableIsOnRecord(w, w.origin[a]);
    call :| CalledAt(w, call, w.tasks[w.origin[a]]);
    answer :| AnsweredAt(w, answer, w.tasks[w.origin[a]]);
    assert Holds(w, Ledger);
  }

  // ---- What is told of an answer ----

  /** The body is the payload of a webhook event, or the body of a response that is
      stored under a key or has been replied, or what a task has returned. */
  ghost predicate Told(w: World, body: PayResult) {
    || (exists d :: d in w.db.deliveries && w.db.deliveries[d].letter.payload == AttemptPayload(body))
    || (exists k :: k in w.db.keys && w.db.keys[k].response == Some(Settled(body)))
    || (exists r :: r in w.requests && w.requests[r].pc == Replied(Settled(body)))
    || (exists r :: r in w.tasks && w.tasks[r].pc == Done(Ok(body)))
  }

  lemma ToldAgrees(w: World, body: PayResult)
    requires Inv(w) && Told(w, body)
    ensures Agrees(w.db, body)
  {
    if d :| d in w.db.deliveries && w.db.deliveries[d].letter.payload == AttemptPayload(body) {
      assert Holds(w, Outbox) && LetterOk(w, w.db.deliveries[d].letter);
    } else if k :| k in w.db.keys && w.db.keys[k].response == Some(Settled(body)) {
      assert Holds(w, Responses) && ResponseOk(w, k, Settled(body));
    } else if r :| r in w.requests && w.requests[r].pc == Replied(Settled(body)) {
      HandlerFacts(w, r);
    } else {
      var r :| r in w.tasks && w.tasks[r].pc == Done(Ok(body));
      TaskFacts(w, r);
    }
  }

  /** An answer that was observed is what the row of its attempt tells of once that is
      settled, and whatever is told of the attempt, by webhook, in a stored or replied
      response or by its task, repeats that row. */
  lemma OutcomeIsTold(w: World, n: nat, body: PayResult)
    requires Reachable(w) && n < |w.answers|
    ensures w.answers[n].attempt in w.db.attempts
    ensures var a, row := w.answers[n].attempt, w.db.attempts[w.answers[n].attempt];
            && (row.status != AttemptPending ==> TellsOf(row, w.answers[n].outcome))
            && (Told(w, body) && body.attempt == a ==>
                  && row.status != AttemptPending
                  && body == PayResult(a, row.invoice, row.status, row.failureCode, row.pspRef))
  {
    ReachableIsOk(w);
    var a := w.answers[n].attempt;
    assert AnswerOk(w, w.answers[n]) by {
      assert Holds(w, Ledger);
    }
    if w.db.attempts[a].status != AttemptPending { SettledByItsTask(w, a); }
    if Told(w, body) { ToldAgrees(w, body); }
  }

  /** A webhook event about an attempt is `invoice.paid` if the answer was a success,
      and `invoice.payment_failed` otherwise. */
  lemma EventFollowsOutcome(w: World, n: nat, d: DeliveryId)
    requires Reachable(w) && n < |w.answers| && d in w.db.deliveries
    requires w.db.deliveries[d].letter.payload.AttemptPayload?
    requires w.db.deliveries[d].letter.payload.result.attempt == w.answers[n].attempt
    ensures w.db.deliveries[d].letter.event ==
        if w.answers[n].outcome.Succeeded? then InvoicePaid else InvoicePaymentFailed
  {
    ReachableIsOk(w);
    OutcomeIsTold(w, n, w.db.deliveries[d].letter.payload.result);
    assert Holds(w, Outbox) && LetterOk(w, w.db.deliveries[d].letter);
  }

  // ---- What a settlement writes ----

  /** The commit of a settlement, row by row: the attempt tells of the outcome, the
      invoice becomes paid if the outcome is a success and it is open, and each listed
      endpoint gets one row, pending, never sent and due at once. Nothing else changes. */
  lemma SettlementWrites(w: World, r: RequestId, ids: map<DeliveryId, EndpointId>, ack: bool) returns (body: PayResult)
    requires Reachable(w) && Enabled(w, Settle(r, ids, ack))
    ensures var t := w.tasks[r];
            && t.attempt in w.db.attempts && w.db.attempts[t.attempt].invoice == t.invoice
            && Reported(w.db, Next(w, Settle(r, ids, ack)).db, t.invoice, t.attempt, t.pc.outcome, ids, w.now, body)
  {
    ReachableIsOk(w);
    SettleFindsPending(w, r);
    var t := w.tasks[r];
    body := ResultOf(t.attempt, t.invoice, t.pc.outcome);
    SettlementIsReported(w.db, t.invoice, t.attempt, t.pc.outcome, ids, w.now);
  }
}
