/** Every step keeps the invariant, so every reachable state has it. One lemma for
    each kind of change; the last ones put them together. */
module Preservation {
  import opened Domain
  import opened Transactions
  import opened Idempotency
  import opened Protocol
  import opened Evolution
  import opened Invariant

  // ---- Handlers ----

  /** A step of handler or task `r` that settles nothing: the others stay as they
      are, so only what it changed itself is left to check. */
  ghost predicate LocalStep(w: World, w': World, r: RequestId) {
    && OthersWait(w, w', r)
    && OtherTasksWait(w, w', r)
    && NothingSettled(w, w')
    && w'.db.deliveries == w.db.deliveries
    && w'.db.endpoints == w.db.endpoints && w'.listed == w.listed && w'.now == w.now + 1
    && (r in w'.requests ==> HandlerOk(w', r))
    && (r in w'.tasks ==> TaskOk(w', r))
  }

  lemma LocalStepKeeps(w: World, w': World, r: RequestId)
    requires Inv(w) && Evolves(w, w') && LocalStep(w, w', r)
    requires forall group: Group :: group.OfTables() ==> Holds(w', group)
    ensures Inv(w')
  {
    forall group ensures Holds(w', group) {
      assert Holds(w, group);
      match group
      case Handlers => HandlersStable(w, w', r);
      case Tasks => TasksStable(w, w', r);
      case Outbox =>
        assert EvolvesIn(w, w', HistoryPart);
        OutboxStable(w, w');
      case _ =>
    }
  }

  /** As above, for a handler that inserts no attempt and stores no response. */
  lemma HandlerStepKeeps(w: World, w': World, r: RequestId)
    requires Inv(w) && Evolves(w, w') && LocalStep(w, w', r) && Holds(w', Keys)
    requires w'.db.attempts == w.db.attempts && w'.db.invoices == w.db.invoices && w'.origin == w.origin
    requires w'.calls == w.calls && w'.answers == w.answers
    requires forall k :: k in w'.db.keys && w'.db.keys[k].response.Some? ==>
        k in w.db.keys && w.db.keys[k].response == w'.db.keys[k].response
    ensures Inv(w')
  {
    forall group: Group | group.OfTables() ensures Holds(w', group) {
      assert Holds(w, group);
      match group
      case Attempts =>
      case Origins => OriginsStable(w, w');
      case Responses => ResponsesStable(w, w');
      case Ledger => LedgerStable(w, w');
      case Keys =>
    }
    LocalStepKeeps(w, w', r);
  }

  /** What the invariant says of one handler and its task. */
  lemma HandlerFacts(w: World, r: RequestId)
    requires Inv(w) && r in w.requests
    ensures RequestKeyOk(w, w.requests[r]) && HandlerOk(w, r) && (r in w.tasks ==> TaskOk(w, r))
  {
    assert Holds(w, Keys) && Holds(w, Handlers) && Holds(w, Tasks);
  }

  /** A handler moves on without touching the tables. */
  lemma HandlerMoves(w: World, r: RequestId, pc: RequestPc)
    requires Inv(w) && r in w.requests && RequestEvolves(w.requests[r], w.requests[r].(pc := pc))
    requires pc.Reserving? ==> w.requests[r].pc.Reserving?
    requires !pc.Claiming? && !pc.Fetching? && !pc.Waiting?
    requires RequestKeyOk(w, w.requests[r].(pc := pc))
    requires pc.Storing? ==> ResponseOk(w, w.requests[r].key, pc.response)
    requires pc.Replied? ==> ResponseOk(w, w.requests[r].key, pc.response)
    ensures Inv(Tick(SetPc(w, r, pc))) && Evolves(w, Tick(SetPc(w, r, pc)))
  {
    var w' := Tick(SetPc(w, r, pc));
    SetPcEvolves(w, r, pc);
    HandlerFacts(w, r);
    assert LocalStep(w, w', r);
    assert Holds(w', Keys) by {
      assert Holds(w, Keys);
      KeysStable(w, w', r);
    }
    HandlerStepKeeps(w, w', r);
  }

  lemma ArriveKeeps(w: World, r: RequestId, q: Request)
    requires Inv(w) && r !in w.requests && !q.proceeded && q.pc == Reserving(Polling(0))
    ensures var w' := Tick(w.(requests := w.requests[r := q])); Inv(w') && Evolves(w, w')
  {
    var w' := Tick(w.(requests := w.requests[r := q]));
    ArriveEvolves(w, r, q);
    assert r !in w.tasks by {
      assert Holds(w, Tasks) && Holds(w, Origins);
    }
    assert LocalStep(w, w', r);
    assert Holds(w', Keys) by {
      assert Holds(w, Keys);
      KeysStable(w, w', r);
    }
    HandlerStepKeeps(w, w', r);
  }

  /** The INSERT reserved the key; the handler proceeds, or never learns of it. */
  lemma ReserveKeeps(w: World, r: RequestId, pc: RequestPc, proceeded: bool)
    requires Inv(w) && r in w.requests && w.requests[r].key !in w.db.keys && w.requests[r].pc.Reserving?
    requires if proceeded then pc == Claiming else pc == Replied(Refused(InternalError))
    ensures var w' := Tick(AfterReserve(w, r, pc, proceeded)); Inv(w') && Evolves(w, w')
  {
    var w' := Tick(AfterReserve(w, r, pc, proceeded));
    HandlerFacts(w, r);
    ReserveEvolves(w, r, pc, proceeded);
    assert LocalStep(w, w', r);
    assert Holds(w', Keys) by {
      assert Holds(w, Keys);
      KeysStable(w, w', r);
    }
    HandlerStepKeeps(w, w', r);
  }

  lemma SpawnIsLocal(w: World, r: RequestId)
    requires r in w.requests && w.requests[r].pc.Fetching? && HandlerOk(w, r)
    requires OriginOk(w, w.requests[r].pc.attempt)
    ensures LocalStep(w, Tick(AfterFetch(w, r, w.requests[r].pc.attempt)), r)
  {
  }

  lemma SpawnKeeps(w: World, r: RequestId)
    requires Inv(w) && r in w.requests && w.requests[r].pc.Fetching?
    ensures var w' := Tick(AfterFetch(w, r, w.requests[r].pc.attempt)); Inv(w') && Evolves(w, w')
  {
    var a := w.requests[r].pc.attempt;
    HandlerFacts(w, r);
    assert OriginOk(w, a) by {
      assert Holds(w, Origins);
    }
    var w' := Tick(AfterFetch(w, r, a));
    SpawnEvolves(w, r, a);
    SpawnIsLocal(w, r);
    assert Holds(w', Keys) by {
      assert Holds(w, Keys);
      KeysStable(w, w', r);
    }
    HandlerStepKeeps(w, w', r);
  }

  /** Only the owner of a key stores its response, and finds none there. */
  lemma StoreKeeps(w: World, r: RequestId, ack: bool)
    requires Inv(w) && r in w.requests && w.requests[r].pc.Storing?
    ensures var w' := Tick(AfterStore(w, r, w.requests[r].pc.response, ack)); Inv(w') && Evolves(w, w')
  {
    var response, k := w.requests[r].pc.response, w.requests[r].key;
    HandlerFacts(w, r);
    var w' := Tick(AfterStore(w, r, response, ack));
    StoreEvolves(w, r, response, ack);
    ResponseStable(w, w', k, response);
    assert LocalStep(w, w', r);
    forall group: Group | group.OfTables() ensures Holds(w', group) {
      assert Holds(w, group);
      match group
      case Keys => KeysStable(w, w', r);
      case Attempts =>
      case Origins => OriginsStable(w, w');
      case Responses =>
        forall x | x in w'.db.keys && w'.db.keys[x].response.Some?
            ensures ResponseOk(w', x, w'.db.keys[x].response.value) {
          if x != k { ResponseStable(w, w', x, w.db.keys[x].response.value); }
        }
      case Ledger => LedgerStable(w, w');
    }
    LocalStepKeeps(w, w', r);
  }

  /** The claim inserted a pending attempt; the unique index and the row check
      make it the only live one of its invoice. */
  lemma ClaimKeeps(w: World, r: RequestId, a: AttemptId, pc: RequestPc)
    requires Inv(w) && r in w.requests && w.requests[r].pc.Claiming? && a !in w.db.attempts
    requires ClaimRefusal(w.db, w.requests[r].key.business, w.requests[r].invoice).None?
    requires pc == Fetching(a) || pc == Storing(Refused(InternalError))
    ensures var w' := Tick(AfterInsertAttempt(w, r, a, pc)); Inv(w') && Evolves(w, w')
  {
    var w' := Tick(AfterInsertAttempt(w, r, a, pc));
    HandlerFacts(w, r);
    assert a !in w.origin by {
      assert Holds(w, Origins);
    }
    ClaimEvolves(w, r, a, pc);
    ClaimIsLocal(w, r, a, pc);
    forall group: Group | group.OfTables() ensures Holds(w', group) {
      assert Holds(w, group);
      match group
      case Keys => KeysStable(w, w', r);
      case Attempts => ClaimKeepsAttempts(w.db, w.requests[r].key.business, w.requests[r].invoice, a,
          w.requests[r].card);
      case Origins => ClaimKeepsOrigins(w, r, a, pc);
      case Responses => ResponsesStable(w, w');
      case Ledger => LedgerStable(w, w');
    }
    LocalStepKeeps(w, w', r);
  }

  lemma ClaimIsLocal(w: World, r: RequestId, a: AttemptId, pc: RequestPc)
    requires r in w.requests && w.requests[r].pc.Claiming? && HandlerOk(w, r) && a !in w.db.attempts
    requires pc == Fetching(a) || pc == Storing(Refused(InternalError))
    ensures LocalStep(w, Tick(AfterInsertAttempt(w, r, a, pc)), r)
  {
  }

  lemma ClaimKeepsAttempts(db: Db, b: BusinessId, i: InvoiceId, a: AttemptId, card: string)
    requires AttemptsOk(db) && a !in db.attempts && ClaimRefusal(db, b, i).None?
    ensures AttemptsOk(InsertAttempt(db, i, a, card))
  {
    var db' := InsertAttempt(db, i, a, card);
    forall x | x in db.attempts && db.attempts[x].invoice == i ensures !db.attempts[x].Live() {
      assert AttemptOk(db, db.attempts[x]);
    }
    forall j | j in db'.invoices ensures InvoiceOk(db', j) {
      InvoiceStable(db, db', j);
    }
  }

  /** An invoice stays in order while it keeps its state and its attempts stay settled. */
  lemma InvoiceStable(db: Db, db': Db, i: InvoiceId)
    requires i in db.invoices && InvoiceOk(db, i) && i in db'.invoices && AttemptsEvolve(db, db')
    requires InvoiceEvolves(db.invoices[i], db'.invoices[i])
        && (db'.invoices[i].state.Paid? ==> db.invoices[i].state.Paid?)
    ensures InvoiceOk(db', i)
  {
    if db'.invoices[i].state.Paid? {
      var x :| x in db.attempts && db.attempts[x].invoice == i && db.attempts[x].status.AttemptSucceeded?;
      assert db'.attempts[x] == db.attempts[x];
    }
  }

  lemma ClaimKeepsOrigins(w: World, r: RequestId, a: AttemptId, pc: RequestPc)
    requires OriginsOk(w) && r in w.requests && w.requests[r].pc.Claiming? && w.requests[r].proceeded
        && a !in w.db.attempts
    requires ClaimRefusal(w.db, w.requests[r].key.business, w.requests[r].invoice).None?
    requires pc == Fetching(a) || pc == Storing(Refused(InternalError))
    ensures OriginsOk(Tick(AfterInsertAttempt(w, r, a, pc)))
  {
    var w' := Tick(AfterInsertAttempt(w, r, a, pc));
    forall x | x in w'.origin ensures OriginOk(w', x) && (x != a ==> w'.origin[x] != r) {
      assert x != a ==> OriginOk(w, x);
    }
  }

  // ---- Tasks ----

  /** What the invariant says of one task, its attempt and the request that spawned it. */
  lemma TaskFacts(w: World, r: RequestId)
    requires Inv(w) && r in w.tasks
    ensures TaskOk(w, r) && r in w.requests && HandlerOk(w, r) && OriginOk(w, w.tasks[r].attempt)
  {
    assert Holds(w, Tasks) && Holds(w, Origins);
    HandlerFacts(w, r);
  }

  /** A task moves on, perhaps calling the PSP, without touching the tables. */
  ghost predicate TaskStep(w: World, w': World, r: RequestId)
    requires r in w.tasks
  {
    && r in w'.tasks && w.tasks[r].Active()
    && w' == w.(tasks := w.tasks[r := w'.tasks[r]], calls := w'.calls, answers := w'.answers, now := w.now + 1)
    && TaskOk(w', r)
  }

  lemma TaskStepKeeps(w: World, w': World, r: RequestId)
    requires Inv(w) && Evolves(w, w') && r in w.tasks && TaskStep(w, w', r) && Holds(w', Ledger)
    ensures Inv(w')
  {
    TaskFacts(w, r);
    assert EvolvesIn(w, w', TaskPart);
    assert w.requests[r].pc.Storing? ==> ResponseOk(w', w.requests[r].key, w.requests[r].pc.response);
    assert w.requests[r].pc.Replied? ==> ResponseOk(w', w.requests[r].key, w.requests[r].pc.response);
    assert LocalStep(w, w', r);
    forall group: Group | group.OfTables() ensures Holds(w', group) {
      assert Holds(w, group);
      match group
      case Keys => KeysStable(w, w', r);
      case Attempts =>
      case Origins => OriginsStable(w, w');
      case Responses => ResponsesStable(w, w');
      case Ledger =>
    }
    LocalStepKeeps(w, w', r);
  }

  lemma TaskMoves(w: World, r: RequestId, pc: TaskPc)
    requires Inv(w) && r in w.tasks && w.tasks[r].Active()
    requires if w.tasks[r].pc.Listed? then pc.Done? || pc.Dead? else pc.Listed? ==> pc.at >= w.now
    requires TaskOk(Tick(SetTask(w, r, pc)), r)
    ensures Inv(Tick(SetTask(w, r, pc))) && Evolves(w, Tick(SetTask(w, r, pc)))
  {
    var w' := Tick(SetTask(w, r, pc));
    SetTaskEvolves(w, r, pc);
    assert Holds(w', Ledger) by {
      assert Holds(w, Ledger);
      LedgerStable(w, w');
    }
    TaskStepKeeps(w, w', r);
  }

  lemma CallKeeps(w: World, r: RequestId)
    requires Inv(w) && r in w.tasks && w.tasks[r].pc.Ready?
    ensures Inv(Tick(AfterCall(w, r))) && Evolves(w, Tick(AfterCall(w, r)))
  {
    var w' := Tick(AfterCall(w, r));
    TaskFacts(w, r);
    CallEvolves(w, r);
    assert Holds(w', Ledger) by {
      assert Holds(w, Ledger);
      CallKeepsLedger(w, r);
    }
    TaskStepKeeps(w, w', r);
  }

  lemma CallKeepsLedger(w: World, r: RequestId)
    requires LedgerOk(w) && r in w.tasks && TaskOk(w, r) && w.tasks[r].pc.Ready?
    ensures LedgerOk(Tick(AfterCall(w, r)))
  {
    var w' := Tick(AfterCall(w, r));
    CallEvolves(w, r);
    assert EvolvesIn(w, w', TaskPart);
    forall n | 0 <= n < |w.calls| ensures CallOk(w', w.calls[n]) && w.calls[n].attempt != w.tasks[r].attempt {
      assert CallOk(w, w.calls[n]);
    }
    forall n | 0 <= n < |w.answers| ensures AnswerOk(w', w.answers[n]) {
      assert AnswerOk(w, w.answers[n]);
    }
    forall a | a in w.db.attempts && !w.db.attempts[a].status.AttemptPending? ensures SettledByAnswer(w', a) {
      assert SettledByAnswer(w, a);
    }
  }

  lemma AnswerKeeps(w: World, r: RequestId, outcome: PspOutcome)
    requires Inv(w) && r in w.tasks && w.tasks[r].pc.Charging?
    ensures var w' := Tick(AfterAnswer(w, r, outcome)); Inv(w') && Evolves(w, w')
  {
    var w' := Tick(AfterAnswer(w, r, outcome));
    TaskFacts(w, r);
    AnswerEvolves(w, r, outcome);
    assert Holds(w', Ledger) by {
      assert Holds(w, Ledger);
      AnswerKeepsLedger(w, r, outcome);
    }
    TaskStepKeeps(w, w', r);
  }

  lemma AnswerKeepsLedger(w: World, r: RequestId, outcome: PspOutcome)
    requires LedgerOk(w) && r in w.tasks && TaskOk(w, r) && w.tasks[r].pc.Charging?
    ensures LedgerOk(Tick(AfterAnswer(w, r, outcome)))
  {
    var w' := Tick(AfterAnswer(w, r, outcome));
    AnswerEvolves(w, r, outcome);
    assert EvolvesIn(w, w', TaskPart);
    forall n | 0 <= n < |w.calls| ensures CallOk(w', w.calls[n]) {
      assert CallOk(w, w.calls[n]);
    }
    forall n | 0 <= n < |w.answers| ensures AnswerOk(w', w.answers[n]) && w.answers[n].attempt != w.tasks[r].attempt {
      assert AnswerOk(w, w.answers[n]);
    }
    forall a | a in w.db.attempts && !w.db.attempts[a].status.AttemptPending? ensures SettledByAnswer(w', a) {
      assert SettledByAnswer(w, a);
    }
  }

  // ---- Settling ----

  /** The "already finalized" branch is never taken: a task that can settle finds its attempt pending. */
  lemma SettleFindsPending(w: World, r: RequestId)
    requires Inv(w) && r in w.tasks && w.tasks[r].pc.Listed?
    ensures var t := w.tasks[r];
            && t.attempt in w.db.attempts && w.db.attempts[t.attempt].status.AttemptPending?
            && w.db.attempts[t.attempt].invoice == t.invoice && t.invoice in w.db.invoices
            && t.attempt !in w.listed
  {
    TaskFacts(w, r);
    assert Holds(w, Outbox);
  }

  /** The settled attempt, its invoice and the new outbox rows. */
  lemma SettleKeepsAttempts(db: Db, i: InvoiceId, a: AttemptId, outcome: PspOutcome, ids: map<DeliveryId, EndpointId>,
      now: Time)
    requires AttemptsOk(db) && a in db.attempts && db.attempts[a].status.AttemptPending?
        && db.attempts[a].invoice == i && i in db.invoices
    ensures AttemptsOk(SettleAttempt(db, i, a, outcome, ids, now))
  {
    var db' := SettleAttempt(db, i, a, outcome, ids, now);
    forall x | x in db'.attempts ensures AttemptOk(db', db'.attempts[x]) {
      assert AttemptOk(db, db.attempts[x]);
    }
    forall x | x in db.attempts && x != a && db.attempts[x].invoice == i ensures !db.attempts[x].Live() {
      assert !BothLive(db.attempts[x], db.attempts[a]);
    }
    forall j | j in db'.invoices ensures InvoiceOk(db', j) {
      if j == i && db'.invoices[i].state.Paid? && !db.invoices[i].state.Paid? {
        assert db'.attempts[a].invoice == i && db'.attempts[a].status.AttemptSucceeded?;
      } else {
        InvoiceStable(db, db', j);
      }
    }
  }

  /** No row tells of an attempt that is still pending. */
  lemma PendingIsNotReported(w: World, a: AttemptId)
    requires OutboxOk(w) && a in w.db.attempts && w.db.attempts[a].status.AttemptPending?
    ensures forall d, e :: d in w.db.deliveries ==> !Reports(w.db.deliveries[d], e, a)
  {
    forall d, e | d in w.db.deliveries ensures !Reports(w.db.deliveries[d], e, a) {
      assert LetterOk(w, w.db.deliveries[d].letter);
    }
  }

  /** One event posts one row to each listed endpoint, whatever is there already. */
  lemma EnqueuePostsOnce(before: map<DeliveryId, Delivery>, ids: map<DeliveryId, EndpointId>, listed: set<EndpointId>,
                         b: BusinessId, event: EventType, result: PayResult, now: Time)
    requires PostedOnce(before) && Addressed(ids, listed, before)
    requires forall d, e :: d in before ==> !Reports(before[d], e, result.attempt)
    ensures var after := Enqueue(before, ids, b, event, AttemptPayload(result), now);
            PostedOnce(after) && forall e :: e in listed ==> DeliversIn(after, e, result.attempt)
  {
    var after := Enqueue(before, ids, b, event, AttemptPayload(result), now);
    forall d, d' | d in after && d' in after && SameReport(after[d], after[d']) ensures d == d' {
      var e, a := after[d].letter.endpoint, after[d].letter.payload.result.attempt;
      assert Reports(after[d], e, a) && Reports(after[d'], e, a);
      if d in before {
        assert d' in before;
      } else {
        assert ids[d] == ids[d'];
      }
    }
    forall e | e in listed ensures DeliversIn(after, e, result.attempt) {
      var d :| d in ids && ids[d] == e;
      assert Reports(after[d], e, result.attempt);
    }
  }

  lemma NewLettersOk(w: World, r: RequestId, ids: map<DeliveryId, EndpointId>, ack: bool)
    requires Enabled(w, Step.Settle(r, ids, ack)) && TaskOk(w, r)
    ensures var w', t := Tick(AfterSettle(w, r, ids, ack)), w.tasks[r];
            forall d :: d in ids ==>
              LetterOk(w', Letter(ids[d], w.db.invoices[t.invoice].business, t.pc.outcome.Event(),
                  AttemptPayload(ResultOf(t.attempt, t.invoice, t.pc.outcome))))
  {
  }

  lemma SettleKeepsOutbox(w: World, w': World, r: RequestId, ids: map<DeliveryId, EndpointId>, ack: bool)
    requires OutboxOk(w) && Enabled(w, Step.Settle(r, ids, ack)) && TaskOk(w, r)
    requires w' == Tick(AfterSettle(w, r, ids, ack)) && Evolves(w, w')
    ensures OutboxOk(w')
  {
    var t := w.tasks[r];
    PendingIsNotReported(w, t.attempt);
    EnqueuePostsOnce(w.db.deliveries, ids, t.pc.endpoints, w.db.invoices[t.invoice].business, t.pc.outcome.Event(),
                     ResultOf(t.attempt, t.invoice, t.pc.outcome), w.now);
    NewLettersOk(w, r, ids, ack);
    forall d | d in w'.db.deliveries ensures LetterOk(w', w'.db.deliveries[d].letter) {
      if d in w.db.deliveries { LetterStable(w, w', w.db.deliveries[d].letter); }
    }
    forall x | x in w'.db.attempts && !w'.db.attempts[x].status.AttemptPending? ensures SettledIsPosted(w', x) {
      if x != t.attempt { PostedStable(w, w', x); }
    }
  }

  /** The commit of `finalize_payment_attempt` as the rest of the state sees it. */
  ghost predicate SettleStep(w: World, w': World, r: RequestId)
    requires r in w.tasks
  {
    && w'.requests == w.requests && w'.origin == w.origin && w'.calls == w.calls && w'.answers == w.answers
    && w'.db.keys == w.db.keys && w'.db.endpoints == w.db.endpoints && w'.db.attempts.Keys == w.db.attempts.Keys
    && OtherTasksWait(w, w', r) && w'.tasks.Keys == w.tasks.Keys && TaskOk(w', r)
    && (r in w.requests ==> HandlerOk(w', r))
    && (forall a :: a in w.db.attempts && a != w.tasks[r].attempt ==> w'.db.attempts[a] == w.db.attempts[a])
    && w.tasks[r].attempt in w.db.attempts && SettledByAnswer(w', w.tasks[r].attempt)
  }

  lemma SettleIsStep(w: World, r: RequestId, ids: map<DeliveryId, EndpointId>, ack: bool)
    requires Enabled(w, Step.Settle(r, ids, ack)) && TaskOk(w, r) && r in w.requests && HandlerOk(w, r)
    requires Evolves(w, Tick(AfterSettle(w, r, ids, ack)))
    ensures SettleStep(w, Tick(AfterSettle(w, r, ids, ack)), r)
  {
    var w' := Tick(AfterSettle(w, r, ids, ack));
    match w.requests[r].pc
    case Storing(response) => ResponseStable(w, w', w.requests[r].key, response);
    case Replied(response) => ResponseStable(w, w', w.requests[r].key, response);
    case _ =>
  }

  lemma SettleStepKeepsTables(w: World, w': World, r: RequestId, group: Group)
    requires Inv(w) && Evolves(w, w') && r in w.tasks && SettleStep(w, w', r) && OthersWait(w, w', r)
    requires group.OfTables() && !group.Attempts?
    ensures Holds(w', group)
  {
    assert Holds(w, group);
    match group
    case Keys => KeysStable(w, w', r);
    case Origins => OriginsStable(w, w');
    case Responses => ResponsesStable(w, w');
    case Ledger => LedgerStable(w, w');
  }

  lemma SettleStepKeeps(w: World, w': World, r: RequestId)
    requires Inv(w) && Evolves(w, w') && r in w.tasks && SettleStep(w, w', r)
    requires Holds(w', Attempts) && Holds(w', Outbox)
    ensures Inv(w')
  {
    TaskFacts(w, r);
    assert SettlesOnly(w, w', r) && OthersWait(w, w', r);
    forall group ensures Holds(w', group) {
      assert Holds(w, group);
      match group
      case Handlers => HandlersStable(w, w', r);
      case Tasks => TasksStable(w, w', r);
      case Attempts =>
      case Outbox =>
      case _ => SettleStepKeepsTables(w, w', r, group);
    }
  }

  lemma SettleKeeps(w: World, r: RequestId, ids: map<DeliveryId, EndpointId>, ack: bool)
    requires Inv(w) && Enabled(w, Step.Settle(r, ids, ack))
    ensures var w' := Tick(AfterSettle(w, r, ids, ack)); Inv(w') && Evolves(w, w')
  {
    var w', t := Tick(AfterSettle(w, r, ids, ack)), w.tasks[r];
    TaskFacts(w, r);
    SettleFindsPending(w, r);
    SettleEvolves(w, r, ids, ack);
    SettleIsStep(w, r, ids, ack);
    assert Holds(w', Attempts) by {
      assert Holds(w, Attempts);
      SettleKeepsAttempts(w.db, t.invoice, t.attempt, t.pc.outcome, ids, w.now);
    }
    assert Holds(w', Outbox) by {
      assert Holds(w, Outbox);
      SettleKeepsOutbox(w, w', r, ids, ack);
    }
    SettleStepKeeps(w, w', r);
  }

  // ---- Other traffic ----

  /** A change of the tables by neither a handler nor a task. */
  lemma TrafficKeeps(w: World, db: Db)
    requires Inv(w) && InvoicesEvolve(w.db, db) && Extends(w.db.endpoints, db.endpoints) && LettersEvolve(w.db, db)
    requires db.attempts == w.db.attempts && db.keys == w.db.keys && AttemptsOk(db)
    requires forall e :: e in db.endpoints ==> e in w.db.endpoints || db.endpoints[e].createdAt == w.now
    requires forall d :: d in db.deliveries ==>
               d in w.db.deliveries || (LetterOk(Tick(w.(db := db)), db.deliveries[d].letter)
                   && db.deliveries[d].letter.payload.CreatedPayload?)
    ensures Inv(Tick(w.(db := db))) && Evolves(w, Tick(w.(db := db)))
  {
    var w' := Tick(w.(db := db));
    TrafficEvolves(w, db);
    forall group ensures Holds(w', group) {
      assert Holds(w, group);
      match group
      case Keys =>
      case Attempts =>
      case Origins => OriginsStable(w, w');
      case Responses => ResponsesStable(w, w');
      case Ledger => LedgerStable(w, w');
      case Handlers => CodeStands(w, w');
      case Tasks => CodeStands(w, w');
      case Outbox => OutboxStable(w, w');
    }
  }

  /** No handler or task has moved, and no attempt is settled. */
  lemma CodeStands(w: World, w': World)
    requires Inv(w) && Evolves(w, w') && NothingSettled(w, w')
    requires w'.requests == w.requests && w'.tasks == w.tasks
    requires forall e :: e in w'.db.endpoints ==> e in w.db.endpoints || w'.db.endpoints[e].createdAt >= w.now
    ensures HandlersOk(w') && TasksOk(w')
  {
    assert Holds(w, Handlers) && Holds(w, Tasks);
    HandlersStable(w, w', 0);
    HandlersStable(w, w', 1);
    TasksStable(w, w', 0);
    TasksStable(w, w', 1);
  }

  lemma CreateKeeps(w: World, b: BusinessId, i: InvoiceId, lines: seq<LineItem>,
      ids: map<DeliveryId, EndpointId>, at: Time)
    requires Inv(w) && Enabled(w, CreateInvoice(i, b, lines, ids, at))
    ensures var w' := Tick(w.(db := InsertInvoice(w.db, b, i, lines, ids, w.now))); Inv(w') && Evolves(w, w')
  {
    var db := InsertInvoice(w.db, b, i, lines, ids, w.now);
    assert AttemptsOk(db) by {
      assert Holds(w, Attempts);
      forall x | x in db.attempts ensures AttemptOk(db, db.attempts[x]) {
        assert AttemptOk(w.db, db.attempts[x]);
      }
      forall j | j in db.invoices ensures InvoiceOk(db, j) {
        if j != i { InvoiceStable(w.db, db, j); }
      }
    }
    TrafficKeeps(w, db);
  }

  lemma TransitionKeeps(w: World, i: InvoiceId, b: BusinessId, action: Action)
    requires Inv(w) && TransitionAllowed(w.db, b, i, action)
    ensures var w' := Tick(w.(db := MoveInvoice(w.db, i, action.Target()))); Inv(w') && Evolves(w, w')
  {
    var db := MoveInvoice(w.db, i, action.Target());
    assert AttemptsOk(db) by {
      assert Holds(w, Attempts);
      forall x | x in db.attempts ensures AttemptOk(db, db.attempts[x]) {
        assert AttemptOk(w.db, db.attempts[x]);
      }
      forall j | j in db.invoices ensures InvoiceOk(db, j) {
        InvoiceStable(w.db, db, j);
      }
    }
    TrafficKeeps(w, db);
  }

  // ---- Step by step ----

  lemma SelectKeeps(w: World, r: RequestId)
    requires Inv(w) && Enabled(w, SelectKey(r))
    ensures Inv(Next(w, SelectKey(r))) && Evolves(w, Next(w, SelectKey(r)))
  {
    var q := w.requests[r];
    var pc := PcAfter(AfterSelect(KeyLookup(w.db, q.key), q.Hash(), q.pc.at.round));
    HandlerFacts(w, r);
    if pc.Replied? && pc.response.Names().Some? {
      assert Holds(w, Responses);
      assert ResponseOk(w, q.key, pc.response);
    }
    HandlerMoves(w, r, pc);
  }

  lemma InsertKeeps(w: World, r: RequestId, ack: bool)
    requires Inv(w) && Enabled(w, InsertKey(r, ack))
    ensures Inv(Next(w, InsertKey(r, ack))) && Evolves(w, Next(w, InsertKey(r, ack)))
  {
    var q := w.requests[r];
    HandlerFacts(w, r);
    var created := q.key !in w.db.keys;
    var pc := if ack then PcAfter(AfterInsert(created, q.pc.at.round)) else Replied(Refused(InternalError));
    if created {
      ReserveKeeps(w, r, pc, ack);
    } else {
      assert AfterReserve(w, r, pc, false) == SetPc(w, r, pc);
      HandlerMoves(w, r, pc);
    }
  }

  lemma ClaimStepKeeps(w: World, r: RequestId, a: AttemptId, ack: bool)
    requires Inv(w) && Enabled(w, Step.Claim(r, a, ack))
    ensures Inv(Next(w, Step.Claim(r, a, ack))) && Evolves(w, Next(w, Step.Claim(r, a, ack)))
  {
    HandlerFacts(w, r);
    match ClaimRefusal(w.db, w.requests[r].key.business, w.requests[r].invoice)
    case Some(code) => HandlerMoves(w, r, Storing(Refused(code)));
    case None => ClaimKeeps(w, r, a, if ack then Fetching(a) else Storing(Refused(InternalError)));
  }

  lemma JoinKeeps(w: World, r: RequestId)
    requires Inv(w) && Enabled(w, Join(r))
    ensures Inv(Next(w, Join(r))) && Evolves(w, Next(w, Join(r)))
  {
    TaskFacts(w, r);
    HandlerFacts(w, r);
    HandlerMoves(w, r, Storing(ResponseOfTask(w.tasks[r])));
  }

  lemma TimeOutKeeps(w: World, r: RequestId)
    requires Inv(w) && Enabled(w, TimeOut(r))
    ensures Inv(Next(w, TimeOut(r))) && Evolves(w, Next(w, TimeOut(r)))
  {
    HandlerFacts(w, r);
    TaskFacts(w, r);
    HandlerMoves(w, r, Storing(Accepted(w.requests[r].pc.attempt, w.requests[r].invoice)));
  }

  lemma HandlerFaultKeeps(w: World, r: RequestId, s: Step)
    requires Inv(w) && Enabled(w, s) && (s == DbError(r) || s == KillRequest(r))
    ensures Inv(Next(w, s)) && Evolves(w, Next(w, s))
  {
    HandlerFacts(w, r);
    HandlerMoves(w, r, if s.DbError? then PcAfterDbError(w.requests[r].pc) else Killed);
  }

  lemma ListKeeps(w: World, r: RequestId)
    requires Inv(w) && Enabled(w, ListEndpoints(r))
    ensures Inv(Next(w, ListEndpoints(r))) && Evolves(w, Next(w, ListEndpoints(r)))
  {
    TaskFacts(w, r);
    var b := w.db.invoices[w.tasks[r].invoice].business;
    assert EndpointsOf(w.db, b) == Seen(w.db, b, w.now) by {
      assert Holds(w, Outbox);
    }
    TaskMoves(w, r, Listed(w.tasks[r].pc.outcome, EndpointsOf(w.db, b), w.now));
  }

  lemma TaskFaultKeeps(w: World, r: RequestId, s: Step)
    requires Inv(w) && Enabled(w, s) && (s == SettleFails(r) || s == KillTask(r))
    ensures Inv(Next(w, s)) && Evolves(w, Next(w, s))
  {
    TaskFacts(w, r);
    TaskMoves(w, r, if s.SettleFails? then Done(Err(InternalError)) else Dead);
  }

  lemma RegisterKeeps(w: World, e: EndpointId, b: BusinessId)
    requires Inv(w) && Enabled(w, RegisterEndpoint(e, b))
    ensures Inv(Next(w, RegisterEndpoint(e, b))) && Evolves(w, Next(w, RegisterEndpoint(e, b)))
  {
    assert Holds(w, Attempts);
    TrafficKeeps(w, w.db.(endpoints := w.db.endpoints[e := Endpoint(b, w.now)]));
  }

  lemma DispatchKeeps(w: World, deliveries: map<DeliveryId, Delivery>)
    requires Inv(w) && Enabled(w, Dispatch(deliveries))
    ensures Inv(Next(w, Dispatch(deliveries))) && Evolves(w, Next(w, Dispatch(deliveries)))
  {
    assert Holds(w, Attempts);
    TrafficKeeps(w, w.db.(deliveries := deliveries));
  }

  /** Every step keeps the invariant and undoes nothing. */
  lemma StepKeeps(w: World, s: Step)
    requires Inv(w) && Enabled(w, s)
    ensures Inv(Next(w, s)) && Evolves(w, Next(w, s))
  {
    match s
    case RegisterEndpoint(e, b) => RegisterKeeps(w, e, b);
    case CreateInvoice(i, b, lines, ids, at) => CreateKeeps(w, b, i, lines, ids, at);
    case Transition(i, b, action) => TransitionKeeps(w, i, b, action);
    case Dispatch(deliveries) => DispatchKeeps(w, deliveries);
    case Arrive(r, k, i, card) => ArriveKeeps(w, r, Request(k, i, card, false, Reserving(Polling(0))));
    case SelectKey(r) => SelectKeeps(w, r);
    case InsertKey(r, ack) => InsertKeeps(w, r, ack);
    case Claim(r, a, ack) => ClaimStepKeeps(w, r, a, ack);
    case FetchAndSpawn(r) => SpawnKeeps(w, r);
    case Call(r) => CallKeeps(w, r);
    case Answer(r, outcome) => AnswerKeeps(w, r, outcome);
    case ListEndpoints(r) => ListKeeps(w, r);
    case Settle(r, ids, ack) => SettleKeeps(w, r, ids, ack);
    case SettleFails(r) => TaskFaultKeeps(w, r, s);
    case Join(r) => JoinKeeps(w, r);
    case TimeOut(r) => TimeOutKeeps(w, r);
    case Store(r, ack) => StoreKeeps(w, r, ack);
    case DbError(r) => HandlerFaultKeeps(w, r, s);
    case KillRequest(r) => HandlerFaultKeeps(w, r, s);
    case KillTask(r) => TaskFaultKeeps(w, r, s);
  }

  /** Whole runs: the invariant holds at the end, and the end evolves from the start. */
  lemma {:induction false} RunKeeps(w: World, steps: seq<Step>, end: World)
    requires Inv(w) && Runs(w, steps, end)
    ensures Inv(end) && Evolves(w, end)
    decreases |steps|
  {
    if steps == [] {
      EvolvesIsReflexive(w);
    } else {
      var next := Next(w, steps[0]);
      StepKeeps(w, steps[0]);
      RunKeeps(next, steps[1..], end);
      EvolvesIsTransitive(w, next, end);
    }
  }

  lemma ReachableIsOk(w: World)
    requires Reachable(w)
    ensures Inv(w)
  {
    var steps :| Runs(START, steps, w);
    StartIsOk();
    RunKeeps(START, steps, w);
  }

  lemma ReachableStep(w: World, s: Step)
    requires Reachable(w) && Enabled(w, s)
    ensures Reachable(Next(w, s))
  {
    var steps :| Runs(START, steps, w);
    assert Runs(w, [s], Next(w, s)) by {
      assert [s][1..] == [];
    }
    RunsCompose(START, steps, w, [s], Next(w, s));
  }
}
