/** The values and tables of the invoice service.

    A table is a map from its primary key to a row. Only the columns that some
    decision of the service depends on are kept. Identifiers are numbers where
    the service draws UUIDs; every place that inserts a row takes a fresh one. */
module Domain {

  datatype Option<+T> = None | Some(value: T)

  datatype Result<+T, +E> = Ok(value: T) | Err(error: E)

  type BusinessId = nat
  type InvoiceId = nat
  type AttemptId = nat
  type EndpointId = nat
  type DeliveryId = nat
  type RequestId = nat
  type Time = nat

  /** The five states of `state_machine.rs` and its guards. */
  datatype InvoiceState = Draft | Open | Paid | Void | Uncollectible {
    predicate IsTerminal() {
      Paid? || Void? || Uncollectible?
    }

    predicate CanFinalize() {
      Draft?
    }

    predicate CanVoid() {
      Draft? || Open?
    }

    predicate CanMarkUncollectible() {
      Open?
    }

    predicate CanAcceptPayment() {
      Open?
    }
  }

  /** The three callers of `transition`: each has its guard and its target. */
  datatype Action = FinalizeInvoice | VoidInvoice | MarkUncollectible {
    predicate Allows(state: InvoiceState) {
      match this
      case FinalizeInvoice => state.CanFinalize()
      case VoidInvoice => state.CanVoid()
      case MarkUncollectible => state.CanMarkUncollectible()
    }

    function Target(): InvoiceState {
      match this
      case FinalizeInvoice => Open
      case VoidInvoice => Void
      case MarkUncollectible => Uncollectible
    }
  }

  datatype LineItem = LineItem(quantity: int, unitAmountCents: int)

  datatype Invoice = Invoice(business: BusinessId, state: InvoiceState, lines: seq<LineItem>, totalCents: int)

  datatype AttemptStatus = AttemptPending | AttemptSucceeded | AttemptFailed

  datatype Attempt = Attempt(
    invoice: InvoiceId,
    card: string,
    status: AttemptStatus,
    failureCode: Option<string>,
    pspRef: Option<string>)
  {
    /** Pending or succeeded: the attempt still stands for money taken or about to be. */
    predicate Live() {
      !status.AttemptFailed?
    }
  }

  const PSP_UNAVAILABLE := "psp_unavailable"

  /** What the service observes of one PSP call. */
  datatype PspOutcome = Succeeded(pspRef: string) | Declined(code: string) | Unavailable(detail: string) {
    function Status(): AttemptStatus {
      if Succeeded? then AttemptSucceeded else AttemptFailed
    }

    function FailureCode(): Option<string> {
      match this
      case Succeeded(_) => None
      case Declined(code) => Some(code)
      case Unavailable(_) => Some(PSP_UNAVAILABLE)
    }

    function Reference(): Option<string> {
      match this
      case Succeeded(pspRef) => Some(pspRef)
      case _ => None
    }

    function Event(): EventType {
      if Succeeded? then InvoicePaid else InvoicePaymentFailed
    }
  }

  /** The row tells of the outcome: a success by its reference, a decline by its code,
      an unavailable PSP by one fixed code. */
  predicate TellsOf(row: Attempt, outcome: PspOutcome) {
    match outcome
    case Succeeded(reference) =>
      row.status == AttemptSucceeded && row.failureCode == None && row.pspRef == Some(reference)
    case Declined(code) => row.status == AttemptFailed && row.failureCode == Some(code) && row.pspRef == None
    case Unavailable(_) =>
      row.status == AttemptFailed && row.failureCode == Some("psp_unavailable") && row.pspRef == None
  }

  datatype ErrorCode =
    | InvoiceNotFound
    | InvoiceAlreadyPaid
    | InvoiceNotPayable
    | PaymentAttemptInProgress
    | IdempotencyKeyReused
    | RequestInProgress
    | InternalError
  {
    function HttpStatus(): nat {
      match this
      case InvoiceNotFound => 404
      case IdempotencyKeyReused => 422
      case InternalError => 500
      case _ => 409
    }
  }

  /** The body of a settled payment; also the payload of its webhook event. */
  datatype PayResult = PayResult(
    attempt: AttemptId,
    invoice: InvoiceId,
    status: AttemptStatus,
    failureCode: Option<string>,
    pspRef: Option<string>)

  /** A response of POST /pay: 200 with a body, 202 with the attempt id, or an error. */
  datatype Response =
    | Settled(body: PayResult)
    | Accepted(attempt: AttemptId, invoice: InvoiceId)
    | Refused(code: ErrorCode)
  {
    function HttpStatus(): nat {
      match this
      case Settled(_) => 200
      case Accepted(_, _) => 202
      case Refused(code) => code.HttpStatus()
    }

    /** The attempt a response names, if it names one. */
    function Names(): Option<AttemptId> {
      match this
      case Settled(body) => Some(body.attempt)
      case Accepted(attempt, _) => Some(attempt)
      case Refused(_) => None
    }
  }

  /** SHA-256 of (invoice_id, card_token), taken to be injective. */
  datatype RequestHash = RequestHash(invoice: InvoiceId, card: string)

  datatype KeyId = KeyId(business: BusinessId, key: string)

  /** A reserved key; the response is NULL until the owner stores one. */
  datatype KeyRow = KeyRow(hash: RequestHash, response: Option<Response>)

  datatype Endpoint = Endpoint(business: BusinessId, createdAt: Time)

  datatype EventType = InvoiceCreated | InvoicePaid | InvoicePaymentFailed

  datatype Payload = CreatedPayload(invoice: InvoiceId, totalCents: int) | AttemptPayload(result: PayResult) {
    function Invoice(): InvoiceId {
      match this
      case CreatedPayload(invoice, _) => invoice
      case AttemptPayload(result) => result.invoice
    }
  }

  /** The part of an outbox row that is fixed when it is inserted. */
  datatype Letter = Letter(endpoint: EndpointId, business: BusinessId, event: EventType, payload: Payload)

  datatype DeliveryStatus = DeliveryPending | DeliverySucceeded | DeliveryExhausted

  datatype Delivery = Delivery(
    letter: Letter,
    status: DeliveryStatus,
    attemptCount: nat,
    nextAttemptAt: Time,
    createdAt: Time)

  datatype Db = Db(
    invoices: map<InvoiceId, Invoice>,
    attempts: map<AttemptId, Attempt>,
    keys: map<KeyId, KeyRow>,
    endpoints: map<EndpointId, Endpoint>,
    deliveries: map<DeliveryId, Delivery>)

  const EMPTY_DB := Db(map[], map[], map[], map[], map[])

  /** A row as `enqueue_event` inserts it: pending, never sent, due at once. */
  function NewDelivery(letter: Letter, now: Time): Delivery {
    Delivery(letter, DeliveryPending, 0, now, now)
  }

  /** The two tables hold the same letters; only the delivery schedule may differ. */
  predicate SameLetters(before: map<DeliveryId, Delivery>, after: map<DeliveryId, Delivery>) {
    && before.Keys == after.Keys
    && forall d :: d in before ==> after[d].letter == before[d].letter
  }

  /** A fresh id can always be drawn. */
  lemma {:induction false} AboveAll(s: set<nat>) returns (n: nat)
    ensures forall x :: x in s ==> x < n
  {
    n := 0;
    if s != {} {
      var x :| x in s;
      var m := AboveAll(s - {x});
      n := if m > x then m else x + 1;
      assert forall y :: y in s ==> y == x || y in s - {x};
    }
  }

  function Elements<T(==)>(s: seq<T>): set<T> {
    set x | x in s
  }
}
