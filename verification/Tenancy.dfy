/** Tenant isolation: a step taken for one business leaves the rows of every other
    business as they are, although the detached settlement checks only ids. */
module Tenancy {
  import opened Domain
  import opened Transactions
  import opened Protocol
  import opened Frames
  import opened Invariant
  import opened Preservation

  /** The rows of one business; of a delivery, the part that is not its schedule. */
  datatype Rows = Rows(
    invoices: map<InvoiceId, Invoice>,
    attempts: map<AttemptId, Attempt>,
    keys: map<KeyId, KeyRow>,
    endpoints: map<EndpointId, Endpoint>,
    letters: map<DeliveryId, Letter>)

  predicate AttemptOf(db: Db, a: AttemptId, b: BusinessId) {
    a in db.attempts && db.attempts[a].invoice in db.invoices && db.invoices[db.attempts[a].invoice].business == b
  }

  function RowsOf(db: Db, b: BusinessId): Rows {
    Rows(
      map i | i in db.invoices && db.invoices[i].business == b :: db.invoices[i],
      map a | a in db.attempts && AttemptOf(db, a, b) :: db.attempts[a],
      map k | k in db.keys && k.business == b :: db.keys[k],
      map e | e in db.endpoints && db.endpoints[e].business == b :: db.endpoints[e],
      map d | d in db.deliveries && db.deliveries[d].letter.business == b :: db.deliveries[d].letter)
  }

  /** The business a step is taken for; the dispatcher works for none in particular. */
  function ActsFor(w: World, s: Step): Option<BusinessId>
    requires Enabled(w, s)
  {
    match s
    case RegisterEndpoint(_, b) => Some(b)
    case CreateInvoice(_, b, _, _, _) => Some(b)
    case Transition(_, b, _) => Some(b)
    case Dispatch(_) => None
    case Arrive(_, k, _, _) => Some(k.business)
    case _ => if s.r in w.requests then Some(w.requests[s.r].key.business) else None
  }

  // ---- One lemma for each change of the tables ----

  lemma InsertAttemptIsLocal(db: Db, i: InvoiceId, a: AttemptId, card: string, b: BusinessId)
    requires a !in db.attempts && i in db.invoices && db.invoices[i].business != b
    ensures RowsOf(InsertAttempt(db, i, a, card), b) == RowsOf(db, b)
  {
  }

  lemma EnqueueIsLocal(deliveries: map<DeliveryId, Delivery>, ids: map<DeliveryId, EndpointId>,
                       owner: BusinessId, event: EventType, payload: Payload, now: Time, b: BusinessId)
    requires ids.Keys !! deliveries.Keys && owner != b
    ensures var after := Enqueue(deliveries, ids, owner, event, payload, now);
            forall d :: (d in after && after[d].letter.business == b <==>
                d in deliveries && deliveries[d].letter.business == b)
              && (d in deliveries ==> after[d] == deliveries[d])
  {
  }

  lemma SettleIsLocal(db: Db, i: InvoiceId, a: AttemptId, outcome: PspOutcome, ids: map<DeliveryId, EndpointId>,
      now: Time, b: BusinessId)
    requires a in db.attempts && i in db.invoices && db.attempts[a].invoice == i && ids.Keys !! db.deliveries.Keys
    requires db.invoices[i].business != b
    ensures RowsOf(SettleAttempt(db, i, a, outcome, ids, now), b) == RowsOf(db, b)
  {
    EnqueueIsLocal(db.deliveries, ids, db.invoices[i].business, outcome.Event(),
        AttemptPayload(ResultOf(a, i, outcome)), now, b);
  }

  lemma InsertInvoiceIsLocal(db: Db, owner: BusinessId, i: InvoiceId, lines: seq<LineItem>,
      ids: map<DeliveryId, EndpointId>, now: Time, b: BusinessId)
    requires i !in db.invoices && ids.Keys !! db.deliveries.Keys && owner != b
    requires forall a :: a in db.attempts ==> db.attempts[a].invoice in db.invoices
    ensures RowsOf(InsertInvoice(db, owner, i, lines, ids, now), b) == RowsOf(db, b)
  {
    EnqueueIsLocal(db.deliveries, ids, owner, InvoiceCreated,
        CreatedPayload(i, InsertInvoice(db, owner, i, lines, ids, now).invoices[i].totalCents), now, b);
  }

  lemma MoveIsLocal(db: Db, i: InvoiceId, state: InvoiceState, b: BusinessId)
    requires i in db.invoices && db.invoices[i].business != b
    ensures RowsOf(MoveInvoice(db, i, state), b) == RowsOf(db, b)
  {
  }

  lemma KeyRowIsLocal(db: Db, k: KeyId, hash: RequestHash, response: Response, b: BusinessId)
    requires k.business != b
    ensures RowsOf(ReserveKey(db, k, hash), b) == RowsOf(db, b)
    ensures RowsOf(StoreResponse(db, k, response), b) == RowsOf(db, b)
  {
  }

  lemma RegisterIsLocal(db: Db, e: EndpointId, row: Endpoint, b: BusinessId)
    requires e !in db.endpoints && row.business != b
    ensures RowsOf(db.(endpoints := db.endpoints[e := row]), b) == RowsOf(db, b)
  {
  }

  lemma DispatchIsLocal(db: Db, deliveries: map<DeliveryId, Delivery>, b: BusinessId)
    requires SameLetters(db.deliveries, deliveries)
    ensures RowsOf(db.(deliveries := deliveries), b) == RowsOf(db, b)
  {
  }

  lemma SettleStepIsLocal(w: World, r: RequestId, ids: map<DeliveryId, EndpointId>, ack: bool, b: BusinessId)
    requires Inv(w) && Enabled(w, Settle(r, ids, ack)) && r in w.requests && w.requests[r].key.business != b
    ensures RowsOf(AfterSettle(w, r, ids, ack).db, b) == RowsOf(w.db, b)
  {
    TaskFacts(w, r);
    SettleFindsPending(w, r);
    SettleIsLocal(w.db, w.tasks[r].invoice, w.tasks[r].attempt, w.tasks[r].pc.outcome, ids, w.now, b);
  }

  lemma HandlerStepIsLocal(w: World, s: Step, b: BusinessId)
    requires Enabled(w, s) && (s.InsertKey? || s.Claim? || s.Store?) && w.requests[s.r].key.business != b
    ensures RowsOf(Act(w, s).db, b) == RowsOf(w.db, b)
  {
    var q := w.requests[s.r];
    match s
    case InsertKey(r, ack) => KeyRowIsLocal(w.db, q.key, q.Hash(), Refused(InternalError), b);
    case Claim(r, a, ack) =>
      if ClaimRefusal(w.db, q.key.business, q.invoice).None? {
        InsertAttemptIsLocal(w.db, q.invoice, a, q.card, b);
      }
    case Store(r, ack) => KeyRowIsLocal(w.db, q.key, q.Hash(), q.pc.response, b);
  }

  lemma TrafficStepIsLocal(w: World, s: Step, b: BusinessId)
    requires Inv(w) && Enabled(w, s) && OfTraffic(s) && ActsFor(w, s) != Some(b)
    ensures RowsOf(Act(w, s).db, b) == RowsOf(w.db, b)
  {
    match s
    case RegisterEndpoint(e, owner) => RegisterIsLocal(w.db, e, Endpoint(owner, w.now), b);
    case CreateInvoice(i, owner, lines, ids, _) =>
      assert Holds(w, Attempts);
      InsertInvoiceIsLocal(w.db, owner, i, lines, ids, w.now, b);
    case Transition(i, owner, action) => MoveIsLocal(w.db, i, action.Target(), b);
    case Dispatch(deliveries) => DispatchIsLocal(w.db, deliveries, b);
  }

  /** No step changes a row of a business other than the one it is taken for. */
  lemma NonInterference(w: World, s: Step, b: BusinessId)
    requires Reachable(w) && Enabled(w, s) && ActsFor(w, s) != Some(b)
    ensures RowsOf(Next(w, s).db, b) == RowsOf(w.db, b)
  {
    ReachableIsOk(w);
    if OfTraffic(s) {
      TrafficStepIsLocal(w, s, b);
    } else if s.InsertKey? || s.Claim? || s.Store? {
      HandlerStepIsLocal(w, s, b);
    } else if s.Settle? {
      TaskFacts(w, s.r);
      SettleStepIsLocal(w, s.r, s.ids, s.ack, b);
    } else {
      QuietFrame(w, s);
    }
  }

  /** Along a whole run: while every step is taken for other businesses, the rows stay. */
  ghost predicate NoStepFor(w: World, steps: seq<Step>, b: BusinessId)
    decreases |steps|
  {
    steps == [] || (Enabled(w, steps[0]) && ActsFor(w, steps[0]) != Some(b)
        && NoStepFor(Next(w, steps[0]), steps[1..], b))
  }

  lemma {:induction false} OthersCannotInterfere(w: World, steps: seq<Step>, w': World, b: BusinessId)
    requires Reachable(w) && Runs(w, steps, w') && NoStepFor(w, steps, b)
    ensures RowsOf(w'.db, b) == RowsOf(w.db, b)
    decreases |steps|
  {
    if steps != [] {
      var next := Next(w, steps[0]);
      NonInterference(w, steps[0], b);
      ReachableStep(w, steps[0]);
      OthersCannotInterfere(next, steps[1..], w', b);
    }
  }

  /** In every reachable state a delivery, its endpoint and its invoice belong to one business. */
  lemma DeliveriesAgreeOnTheTenant(w: World, d: DeliveryId)
    requires Reachable(w) && d in w.db.deliveries
    ensures var letter := w.db.deliveries[d].letter;
            && letter.endpoint in w.db.endpoints && w.db.endpoints[letter.endpoint].business == letter.business
            && letter.payload.Invoice() in w.db.invoices
            && w.db.invoices[letter.payload.Invoice()].business == letter.business
  {
    ReachableIsOk(w);
    assert Holds(w, Outbox) && LetterOk(w, w.db.deliveries[d].letter);
  }
}
