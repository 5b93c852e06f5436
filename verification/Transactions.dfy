/** What each database transaction does to the tables, taken as one atomic step.
    `Store` proves the statement-by-statement code equal to these functions, and
    `Isolation` proves that interleaved statements still behave like them. */
module Transactions {
  import opened Domain
  import opened Totals

  /** Does the partial unique index hold an entry for this invoice? */
  predicate HasPending(db: Db, i: InvoiceId) {
    exists a :: a in db.attempts && db.attempts[a].invoice == i && db.attempts[a].status.AttemptPending?
  }

  /** Why `claim_payment_attempt` refuses, or None if it inserts a pending attempt. */
  function ClaimRefusal(db: Db, b: BusinessId, i: InvoiceId): Option<ErrorCode> {
    if i !in db.invoices || db.invoices[i].business != b then Some(InvoiceNotFound)
    else if !db.invoices[i].state.CanAcceptPayment() then
      Some(if db.invoices[i].state.Paid? then InvoiceAlreadyPaid else InvoiceNotPayable)
    else if HasPending(db, i) then Some(PaymentAttemptInProgress)
    else None
  }

  function InsertAttempt(db: Db, i: InvoiceId, a: AttemptId, card: string): Db {
    db.(attempts := db.attempts[a := Attempt(i, card, AttemptPending, None, None)])
  }

  function SettledAttempt(row: Attempt, outcome: PspOutcome): Attempt {
    row.(status := outcome.Status(), failureCode := outcome.FailureCode(), pspRef := outcome.Reference())
  }

  function ResultOf(a: AttemptId, i: InvoiceId, outcome: PspOutcome): PayResult {
    PayResult(a, i, outcome.Status(), outcome.FailureCode(), outcome.Reference())
  }

  /** The endpoints `enqueue_event` lists; `disabled_at` is never set by this service. */
  function EndpointsOf(db: Db, b: BusinessId): set<EndpointId> {
    set e | e in db.endpoints && db.endpoints[e].business == b
  }

  /** The endpoints that a transaction listed at an earlier time: those registered before it. */
  function Seen(db: Db, b: BusinessId, at: Time): set<EndpointId> {
    set e | e in db.endpoints && db.endpoints[e].business == b && db.endpoints[e].createdAt < at
  }

  /** The row ids drawn for one event: one new id for each listed endpoint. */
  predicate Addressed(ids: map<DeliveryId, EndpointId>, listed: set<EndpointId>,
      deliveries: map<DeliveryId, Delivery>)
  {
    && ids.Keys !! deliveries.Keys
    && (forall d :: d in ids ==> ids[d] in listed)
    && (forall e :: e in listed ==> exists d :: d in ids && ids[d] == e)
    && (forall d, d' :: d in ids && d' in ids && ids[d] == ids[d'] ==> d == d')
  }

  function Enqueue(deliveries: map<DeliveryId, Delivery>, ids: map<DeliveryId, EndpointId>,
                   b: BusinessId, event: EventType, payload: Payload, now: Time): map<DeliveryId, Delivery>
  {
    deliveries + map d | d in ids :: NewDelivery(Letter(ids[d], b, event, payload), now)
  }

  /** `finalize_payment_attempt` for an attempt that is still pending. */
  function SettleAttempt(db: Db, i: InvoiceId, a: AttemptId, outcome: PspOutcome,
                         ids: map<DeliveryId, EndpointId>, now: Time): Db
    requires a in db.attempts && i in db.invoices
  {
    var invoice := db.invoices[i];
    var paid := if outcome.Succeeded? && invoice.state.Open? then invoice.(state := Paid) else invoice;
    db.(attempts := db.attempts[a := SettledAttempt(db.attempts[a], outcome)],
        invoices := db.invoices[i := paid],
        deliveries := Enqueue(db.deliveries, ids, invoice.business, outcome.Event(),
            AttemptPayload(ResultOf(a, i, outcome)), now))
  }

  /** What a settlement leaves behind, table by table. */
  ghost predicate Reported(before: Db, after: Db, i: InvoiceId, a: AttemptId, outcome: PspOutcome,
      ids: map<DeliveryId, EndpointId>, now: Time, body: PayResult)
  {
    && i in before.invoices && a in before.attempts && a in after.attempts
    && TellsOf(after.attempts[a], outcome)
    && body == PayResult(a, i, after.attempts[a].status, after.attempts[a].failureCode, after.attempts[a].pspRef)
    && after == before.(attempts := after.attempts, invoices := after.invoices, deliveries := after.deliveries)
    && after.attempts == before.attempts[a := after.attempts[a]]
    && after.attempts[a].invoice == before.attempts[a].invoice && after.attempts[a].card == before.attempts[a].card
    && after.invoices == (if outcome.Succeeded? && before.invoices[i].state == Open then
           before.invoices[i := before.invoices[i].(state := Paid)]
         else before.invoices)
    && after.deliveries.Keys == before.deliveries.Keys + ids.Keys
    && (forall d :: d in before.deliveries ==> after.deliveries[d] == before.deliveries[d])
    && (forall d :: d in ids ==>
          after.deliveries[d] == Delivery(
            Letter(ids[d], before.invoices[i].business,
                if outcome.Succeeded? then InvoicePaid else InvoicePaymentFailed, AttemptPayload(body)),
            DeliveryPending, 0, now, now))
  }

  lemma SettlementIsReported(db: Db, i: InvoiceId, a: AttemptId, outcome: PspOutcome,
      ids: map<DeliveryId, EndpointId>, now: Time)
    requires a in db.attempts && i in db.invoices && ids.Keys !! db.deliveries.Keys
    ensures Reported(db, SettleAttempt(db, i, a, outcome, ids, now), i, a, outcome, ids, now, ResultOf(a, i, outcome))
  {
    assert db.invoices[i := db.invoices[i]] == db.invoices;
  }

  predicate TransitionAllowed(db: Db, b: BusinessId, i: InvoiceId, action: Action) {
    i in db.invoices && db.invoices[i].business == b && action.Allows(db.invoices[i].state)
  }

  function MoveInvoice(db: Db, i: InvoiceId, state: InvoiceState): Db
    requires i in db.invoices
  {
    db.(invoices := db.invoices[i := db.invoices[i].(state := state)])
  }

  /** `create_invoice` after validation, in a release build, when the CHECK constraints accept the rows. */
  function InsertInvoice(db: Db, b: BusinessId, i: InvoiceId, lines: seq<LineItem>,
                         ids: map<DeliveryId, EndpointId>, now: Time): Db
  {
    var total := WrappingTotal(lines);
    db.(invoices := db.invoices[i := Invoice(b, Draft, lines, total)],
        deliveries := Enqueue(db.deliveries, ids, b, InvoiceCreated, CreatedPayload(i, total), now))
  }

  /** `idempotency::finalize`: an UPDATE without a status condition; no row, no effect. */
  function StoreResponse(db: Db, k: KeyId, response: Response): Db {
    if k in db.keys then db.(keys := db.keys[k := db.keys[k].(response := Some(response))]) else db
  }

  function ReserveKey(db: Db, k: KeyId, hash: RequestHash): Db {
    if k in db.keys then db else db.(keys := db.keys[k := KeyRow(hash, None)])
  }

  function KeyLookup(db: Db, k: KeyId): Option<KeyRow> {
    if k in db.keys then Some(db.keys[k]) else None
  }
}
