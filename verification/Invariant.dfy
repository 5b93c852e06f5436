/** What holds in every reachable state of the payment protocol, in groups that
    are proved to survive every step. */
module Invariant {
  import opened Domain
  import opened Totals
  import opened Transactions
  import opened Idempotency
  import opened Protocol
  import opened Evolution

  // ---- Idempotency keys ----

  /** A reply before any work: the stored response, "in progress", a mismatch or a database error. */
  ghost predicate ReplyExplained(w: World, q: Request, response: Response) {
    || response == Refused(InternalError)
    || (q.key in w.db.keys &&
        if w.db.keys[q.key].hash != q.Hash() then response == Refused(IdempotencyKeyReused)
        else response == Refused(RequestInProgress) || w.db.keys[q.key].response == Some(response))
  }

  ghost predicate RequestKeyOk(w: World, q: Request) {
    && (q.proceeded ==> q.key in w.db.keys && w.db.keys[q.key].hash == q.Hash())
    && match q.pc
       case Reserving(Polling(round)) => !q.proceeded && round < ROUNDS && (round > 0 ==> q.key in w.db.keys)
       case Reserving(Inserting(round)) => !q.proceeded && round == 0
       case Reserving(_) => false
       case Replied(response) => ReplyExplained(w, q, response)
       case Killed => true
       case _ => q.proceeded && w.db.keys[q.key].response.None?
  }

  predicate SameKeyProceeded(q: Request, q': Request) {
    q.proceeded && q'.proceeded && q.key == q'.key
  }

  ghost predicate KeysOk(w: World) {
    && (forall r :: r in w.requests ==> RequestKeyOk(w, w.requests[r]))
    && (forall r, r' ::
          r in w.requests && r' in w.requests && SameKeyProceeded(w.requests[r], w.requests[r']) ==> r == r')
  }

  // ---- Invoices and attempts ----

  ghost predicate AttemptOk(db: Db, row: Attempt) {
    && row.invoice in db.invoices
    && !db.invoices[row.invoice].state.Draft?
    && (row.status.AttemptPending? ==> row.failureCode.None? && row.pspRef.None?)
    && (row.status.AttemptSucceeded? ==> db.invoices[row.invoice].state.IsTerminal())
  }

  predicate BothLive(row: Attempt, row': Attempt) {
    row.Live() && row'.Live() && row.invoice == row'.invoice
  }

  ghost predicate OneLiveAttempt(db: Db) {
    forall a, a' :: a in db.attempts && a' in db.attempts && BothLive(db.attempts[a], db.attempts[a']) ==> a == a'
  }

  ghost predicate HasSucceeded(db: Db, i: InvoiceId) {
    exists a :: a in db.attempts && db.attempts[a].invoice == i && db.attempts[a].status.AttemptSucceeded?
  }

  ghost predicate InvoiceOk(db: Db, i: InvoiceId)
    requires i in db.invoices
  {
    && ValidLines(db.invoices[i].lines)
    && db.invoices[i].totalCents == WrappingTotal(db.invoices[i].lines)
    && (db.invoices[i].state.Paid? ==> HasSucceeded(db, i))
  }

  ghost predicate AttemptsOk(db: Db) {
    && (forall a :: a in db.attempts ==> AttemptOk(db, db.attempts[a]))
    && OneLiveAttempt(db)
    && (forall i :: i in db.invoices ==> InvoiceOk(db, i))
  }

  // ---- Who works for which attempt ----

  /** The request that claimed the attempt is of the same tenant, invoice and card. */
  ghost predicate OriginOk(w: World, a: AttemptId)
    requires a in w.origin && a in w.db.attempts
  {
    var r, row := w.origin[a], w.db.attempts[a];
    && r in w.requests
    && w.requests[r].proceeded && !w.requests[r].pc.Reserving? && !w.requests[r].pc.Claiming?
    && w.requests[r].invoice == row.invoice && w.requests[r].card == row.card
    && row.invoice in w.db.invoices && w.db.invoices[row.invoice].business == w.requests[r].key.business
  }

  ghost predicate OriginsOk(w: World) {
    && w.origin.Keys == w.db.attempts.Keys
    && (forall a :: a in w.origin ==> OriginOk(w, a))
    && (forall a, a' :: a in w.origin && a' in w.origin && w.origin[a] == w.origin[a'] ==> a == a')
  }

  /** A body that settles an attempt says what its row says. */
  predicate Agrees(db: Db, body: PayResult) {
    && body.attempt in db.attempts
    && db.attempts[body.attempt].invoice == body.invoice
    && db.attempts[body.attempt].status == body.status
    && db.attempts[body.attempt].failureCode == body.failureCode
    && db.attempts[body.attempt].pspRef == body.pspRef
    && !body.status.AttemptPending?
  }

  /** A response under a key names only the attempt claimed under that key. */
  ghost predicate ResponseOk(w: World, k: KeyId, response: Response) {
    && (response.Settled? ==> Agrees(w.db, response.body))
    && (response.Accepted? ==>
        response.attempt in w.db.attempts && w.db.attempts[response.attempt].invoice == response.invoice)
    && (response.Names().Some? ==>
          var a := response.Names().value;
          a in w.origin && w.origin[a] in w.requests && w.requests[w.origin[a]].key == k)
  }

  ghost predicate HandlerOk(w: World, r: RequestId)
    requires r in w.requests
  {
    match w.requests[r].pc
    case Reserving(_) => r !in w.tasks
    case Claiming => r !in w.tasks
    case Fetching(a) =>
      && a in w.origin && w.origin[a] == r && r !in w.tasks
      && a in w.db.attempts && w.db.attempts[a].status.AttemptPending?
    case Waiting(a) => r in w.tasks && w.tasks[r].attempt == a
    case Storing(response) => ResponseOk(w, w.requests[r].key, response)
    case Replied(response) => ResponseOk(w, w.requests[r].key, response)
    case Killed => true
  }

  ghost predicate HandlersOk(w: World) {
    forall r :: r in w.requests ==> HandlerOk(w, r)
  }

  ghost predicate TaskOk(w: World, r: RequestId)
    requires r in w.tasks
  {
    var t := w.tasks[r];
    && t.attempt in w.origin && w.origin[t.attempt] == r
    && t.attempt in w.db.attempts && t.invoice == w.db.attempts[t.attempt].invoice
    && t.card == w.db.attempts[t.attempt].card
    && t.invoice in w.db.invoices && t.amountCents == w.db.invoices[t.invoice].totalCents
    && (t.Active() ==> w.db.attempts[t.attempt].status.AttemptPending?)
    && match t.pc
       case Ready => !t.called && t.answer.None?
       case Charging => t.called && t.answer.None?
       case Settling(outcome) => t.called && t.answer == Some(outcome)
       case Listed(outcome, endpoints, at) =>
         && t.called && t.answer == Some(outcome) && at < w.now
         && endpoints == Seen(w.db, w.db.invoices[t.invoice].business, at)
       case Done(result) => t.called && t.answer.Some?
           && (result.Ok? ==> Agrees(w.db, result.value) && result.value.attempt == t.attempt)
       case Dead => true
  }

  ghost predicate TasksOk(w: World) {
    forall r :: r in w.tasks ==> TaskOk(w, r)
  }

  /** A stored response is true of the attempt claimed under its key. */
  ghost predicate ResponsesOk(w: World) {
    forall k :: k in w.db.keys && w.db.keys[k].response.Some? ==> ResponseOk(w, k, w.db.keys[k].response.value)
  }

  // ---- The PSP ledger ----

  ghost predicate CallOk(w: World, c: PspCall) {
    && c.attempt in w.origin && c.attempt in w.db.attempts
    && w.db.attempts[c.attempt].invoice == c.invoice && w.db.attempts[c.attempt].card == c.card
    && c.invoice in w.db.invoices && c.amountCents == w.db.invoices[c.invoice].totalCents
    && w.origin[c.attempt] in w.tasks && w.tasks[w.origin[c.attempt]].called
  }

  ghost predicate AnswerOk(w: World, s: PspAnswer) {
    && s.attempt in w.origin && s.attempt in w.db.attempts
    && w.db.attempts[s.attempt].invoice == s.invoice
    && w.origin[s.attempt] in w.tasks && w.tasks[w.origin[s.attempt]].answer == Some(s.outcome)
  }

  /** An attempt that is not pending was settled with the answer its task observed. */
  ghost predicate SettledByAnswer(w: World, a: AttemptId)
    requires a in w.db.attempts
  {
    && a in w.origin && w.origin[a] in w.tasks
    && w.tasks[w.origin[a]].answer.Some?
    && w.db.attempts[a] == SettledAttempt(w.db.attempts[a], w.tasks[w.origin[a]].answer.value)
  }

  ghost predicate LedgerOk(w: World) {
    && (forall n :: 0 <= n < |w.calls| ==> CallOk(w, w.calls[n]))
    && (forall n, n' :: 0 <= n < n' < |w.calls| ==> w.calls[n].attempt != w.calls[n'].attempt)
    && (forall n :: 0 <= n < |w.answers| ==> AnswerOk(w, w.answers[n]))
    && (forall n, n' :: 0 <= n < n' < |w.answers| ==> w.answers[n].attempt != w.answers[n'].attempt)
    && (forall a :: a in w.db.attempts && !w.db.attempts[a].status.AttemptPending? ==> SettledByAnswer(w, a))
  }

  // ---- The outbox ----

  ghost predicate LetterOk(w: World, letter: Letter) {
    && letter.endpoint in w.db.endpoints && w.db.endpoints[letter.endpoint].business == letter.business
    && letter.payload.Invoice() in w.db.invoices && w.db.invoices[letter.payload.Invoice()].business == letter.business
    && match letter.payload
       case CreatedPayload(i, total) => letter.event.InvoiceCreated? && total == w.db.invoices[i].totalCents
       case AttemptPayload(result) =>
         && Agrees(w.db, result)
         && letter.event == (if result.status.AttemptSucceeded? then InvoicePaid else InvoicePaymentFailed)
         && result.attempt in w.listed
         && letter.endpoint in Seen(w.db, letter.business, w.listed[result.attempt])
  }

  /** Two rows that tell the same endpoint about the same attempt. */
  predicate SameReport(delivery: Delivery, delivery': Delivery) {
    && delivery.letter.payload.AttemptPayload?
    && Reports(delivery', delivery.letter.endpoint, delivery.letter.payload.result.attempt)
  }

  predicate Reports(delivery: Delivery, e: EndpointId, a: AttemptId) {
    delivery.letter.endpoint == e && delivery.letter.payload.AttemptPayload?
        && delivery.letter.payload.result.attempt == a
  }

  ghost predicate DeliversIn(deliveries: map<DeliveryId, Delivery>, e: EndpointId, a: AttemptId) {
    exists d :: d in deliveries && Reports(deliveries[d], e, a)
  }

  ghost predicate PostedOnce(deliveries: map<DeliveryId, Delivery>) {
    forall d, d' :: d in deliveries && d' in deliveries && SameReport(deliveries[d], deliveries[d']) ==> d == d'
  }

  ghost predicate SettledIsPosted(w: World, a: AttemptId)
    requires a in w.db.attempts
  {
    && a in w.listed && w.listed[a] < w.now
    && w.db.attempts[a].invoice in w.db.invoices
    && forall e :: e in Seen(w.db, w.db.invoices[w.db.attempts[a].invoice].business, w.listed[a]) ==>
        DeliversIn(w.db.deliveries, e, a)
  }

  ghost predicate OutboxOk(w: World) {
    && (forall a :: a in w.listed ==> a in w.db.attempts && !w.db.attempts[a].status.AttemptPending?)
    && (forall e :: e in w.db.endpoints ==> w.db.endpoints[e].createdAt < w.now)
    && (forall d :: d in w.db.deliveries ==> LetterOk(w, w.db.deliveries[d].letter))
    && PostedOnce(w.db.deliveries)
    && (forall a :: a in w.db.attempts && !w.db.attempts[a].status.AttemptPending? ==> SettledIsPosted(w, a))
  }

  datatype Group = Keys | Attempts | Origins | Responses | Ledger | Handlers | Tasks | Outbox {
    predicate OfTables() {
      !Handlers? && !Tasks? && !Outbox?
    }
  }

  ghost predicate Holds(w: World, group: Group) {
    match group
    case Keys => KeysOk(w)
    case Attempts => AttemptsOk(w.db)
    case Origins => OriginsOk(w)
    case Handlers => HandlersOk(w)
    case Tasks => TasksOk(w)
    case Responses => ResponsesOk(w)
    case Ledger => LedgerOk(w)
    case Outbox => OutboxOk(w)
  }

  /** The invariant. A proof takes from it only the groups it names. */
  ghost predicate Inv(w: World) {
    forall group :: Holds(w, group)
  }

  lemma StartIsOk()
    ensures Inv(START)
  {
    forall group ensures Holds(START, group) {
    }
  }

  // ---- What carries over from a state to a later one ----

  /** Between the states no attempt is settled, except perhaps the one that `r` claimed. */
  ghost predicate SettlesOnly(w: World, w': World, r: RequestId) {
    forall a :: a in w'.db.attempts && !w'.db.attempts[a].status.AttemptPending? ==>
      a in w.db.attempts && (!w.db.attempts[a].status.AttemptPending? || (a in w.origin && w.origin[a] == r))
  }

  ghost predicate NothingSettled(w: World, w': World) {
    forall a :: a in w'.db.attempts && !w'.db.attempts[a].status.AttemptPending? ==>
      a in w.db.attempts && !w.db.attempts[a].status.AttemptPending?
  }

  /** Every other request stands where it stood, and has no new task. */
  ghost predicate OthersWait(w: World, w': World, r: RequestId) {
    forall x :: x in w'.requests && x != r ==>
      x in w.requests && w'.requests[x] == w.requests[x] && (x in w'.tasks ==> x in w.tasks)
  }

  ghost predicate OtherTasksWait(w: World, w': World, r: RequestId) {
    forall x :: x in w'.tasks && x != r ==> x in w.tasks && w'.tasks[x] == w.tasks[x]
  }

  lemma ResponseStable(w: World, w': World, k: KeyId, response: Response)
    requires Evolves(w, w') && ResponseOk(w, k, response)
    ensures ResponseOk(w', k, response)
  {
    assert EvolvesIn(w, w', AttemptPart) && EvolvesIn(w, w', RequestPart) && EvolvesIn(w, w', HistoryPart);
  }

  lemma LedgerStable(w: World, w': World)
    requires Evolves(w, w') && LedgerOk(w) && w'.calls == w.calls && w'.answers == w.answers
    requires forall a :: a in w'.db.attempts && !w'.db.attempts[a].status.AttemptPending? ==>
               (a in w.db.attempts && !w.db.attempts[a].status.AttemptPending?) || SettledByAnswer(w', a)
    ensures LedgerOk(w')
  {
    assert EvolvesIn(w, w', InvoicePart) && EvolvesIn(w, w', AttemptPart) && EvolvesIn(w, w', TaskPart)
        && EvolvesIn(w, w', HistoryPart);
  }

  lemma ResponsesStable(w: World, w': World)
    requires Evolves(w, w') && ResponsesOk(w)
    requires forall k :: k in w'.db.keys && w'.db.keys[k].response.Some? ==>
        k in w.db.keys && w.db.keys[k].response == w'.db.keys[k].response
    ensures ResponsesOk(w')
  {
    forall k | k in w'.db.keys && w'.db.keys[k].response.Some? ensures ResponseOk(w', k, w'.db.keys[k].response.value) {
      ResponseStable(w, w', k, w'.db.keys[k].response.value);
    }
  }

  lemma LetterStable(w: World, w': World, letter: Letter)
    requires Evolves(w, w') && LetterOk(w, letter)
    ensures LetterOk(w', letter)
  {
    assert EvolvesIn(w, w', InvoicePart) && EvolvesIn(w, w', AttemptPart) && EvolvesIn(w, w', EndpointPart)
        && EvolvesIn(w, w', HistoryPart);
  }

  lemma PostedStable(w: World, w': World, a: AttemptId)
    requires Evolves(w, w') && OutboxOk(w) && a in w.db.attempts && !w.db.attempts[a].status.AttemptPending?
    requires forall e :: e in w'.db.endpoints ==> e in w.db.endpoints || w'.db.endpoints[e].createdAt >= w.now
    ensures a in w'.db.attempts && SettledIsPosted(w', a)
  {
    assert EvolvesIn(w, w', InvoicePart) && EvolvesIn(w, w', AttemptPart) && EvolvesIn(w, w', EndpointPart)
        && EvolvesIn(w, w', LetterPart) && EvolvesIn(w, w', HistoryPart);
    var b := w.db.invoices[w.db.attempts[a].invoice].business;
    forall e | e in Seen(w'.db, b, w'.listed[a]) ensures DeliversIn(w'.db.deliveries, e, a) {
      assert e in Seen(w.db, b, w.listed[a]);
      var d :| d in w.db.deliveries && Reports(w.db.deliveries[d], e, a);
      assert Reports(w'.db.deliveries[d], e, a);
    }
  }

  lemma OutboxStable(w: World, w': World)
    requires Evolves(w, w') && NothingSettled(w, w') && OutboxOk(w) && w'.listed == w.listed
    requires forall e :: e in w'.db.endpoints ==>
        w'.db.endpoints[e].createdAt < w'.now && (e in w.db.endpoints || w'.db.endpoints[e].createdAt >= w.now)
    requires forall d :: d in w'.db.deliveries ==>
               d in w.db.deliveries || (LetterOk(w', w'.db.deliveries[d].letter)
                   && w'.db.deliveries[d].letter.payload.CreatedPayload?)
    ensures OutboxOk(w')
  {
    assert EvolvesIn(w, w', AttemptPart) && EvolvesIn(w, w', LetterPart) && EvolvesIn(w, w', HistoryPart);
    forall d | d in w'.db.deliveries ensures LetterOk(w', w'.db.deliveries[d].letter) {
      if d in w.db.deliveries { LetterStable(w, w', w.db.deliveries[d].letter); }
    }
    forall a | a in w'.db.attempts && !w'.db.attempts[a].status.AttemptPending? ensures SettledIsPosted(w', a) {
      PostedStable(w, w', a);
    }
  }

  lemma OriginsStable(w: World, w': World)
    requires Evolves(w, w') && OriginsOk(w) && w'.origin == w.origin && w'.db.attempts.Keys == w.db.attempts.Keys
    ensures OriginsOk(w')
  {
    assert EvolvesIn(w, w', InvoicePart) && EvolvesIn(w, w', AttemptPart) && EvolvesIn(w, w', RequestPart);
  }

  lemma HandlersStable(w: World, w': World, r: RequestId)
    requires Evolves(w, w') && HandlersOk(w) && SettlesOnly(w, w', r) && OthersWait(w, w', r)
    ensures forall x :: x in w'.requests && x != r ==> HandlerOk(w', x)
  {
    assert EvolvesIn(w, w', AttemptPart) && EvolvesIn(w, w', TaskPart) && EvolvesIn(w, w', HistoryPart);
    forall x | x in w'.requests && x != r ensures HandlerOk(w', x) {
      assert HandlerOk(w, x);
      match w.requests[x].pc
      case Storing(response) => ResponseStable(w, w', w.requests[x].key, response);
      case Replied(response) => ResponseStable(w, w', w.requests[x].key, response);
      case _ =>
    }
  }

  lemma TasksStable(w: World, w': World, r: RequestId)
    requires Evolves(w, w') && TasksOk(w) && SettlesOnly(w, w', r) && OtherTasksWait(w, w', r)
    requires forall e :: e in w'.db.endpoints ==> e in w.db.endpoints || w'.db.endpoints[e].createdAt >= w.now
    ensures forall x :: x in w'.tasks && x != r ==> TaskOk(w', x)
  {
    assert EvolvesIn(w, w', InvoicePart) && EvolvesIn(w, w', AttemptPart) && EvolvesIn(w, w', EndpointPart)
        && EvolvesIn(w, w', HistoryPart);
    forall x | x in w'.tasks && x != r ensures TaskOk(w', x) {
      assert TaskOk(w, x);
      if w.tasks[x].pc.Listed? {
        var b, at := w.db.invoices[w.tasks[x].invoice].business, w.tasks[x].pc.at;
        assert Seen(w'.db, b, at) == Seen(w.db, b, at);
      }
    }
  }

  /** A key row changes only by the hand of the request that proceeded on it. */
  lemma KeysStable(w: World, w': World, r: RequestId)
    requires KeysOk(w) && Evolves(w, w') && OthersWait(w, w', r)
    requires forall k :: k in w.db.keys && KeyLookup(w'.db, k) != KeyLookup(w.db, k) ==>
               r in w.requests && w.requests[r].proceeded && w.requests[r].key == k
    requires r in w'.requests ==> RequestKeyOk(w', w'.requests[r])
    requires r in w'.requests && w'.requests[r].proceeded ==>
               w'.requests[r].key !in w.db.keys || (r in w.requests && w.requests[r].proceeded
                   && w.requests[r].key == w'.requests[r].key)
    ensures KeysOk(w')
  {
    assert EvolvesIn(w, w', KeyPart);
  }

  /** An invoice with a pending attempt is not paid: a success would be a second live attempt. */
  lemma PendingIsNotPaid(db: Db, a: AttemptId)
    requires AttemptsOk(db) && a in db.attempts && db.attempts[a].status.AttemptPending?
    ensures db.attempts[a].invoice in db.invoices && !db.invoices[db.attempts[a].invoice].state.Paid?
  {
    var i := db.attempts[a].invoice;
    assert AttemptOk(db, db.attempts[a]) && InvoiceOk(db, i);
    forall x | x in db.attempts && db.attempts[x].invoice == i ensures !db.attempts[x].status.AttemptSucceeded? {
      assert BothLive(db.attempts[x], db.attempts[a]) ==> x == a;
    }
  }
}
