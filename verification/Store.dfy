/** The transactions as the service runs them: one statement after the other on
    mutable tables, any of which may fail, with a commit or a rollback at the end.
    Each is proved equal to its one-step function of `Transactions`. */
module Store {
  import opened Domain
  import opened Totals
  import opened Transactions

  /** A row of `invoice_line_items`. */
  datatype LineRow = LineRow(invoice: InvoiceId, item: LineItem, amountCents: int)

  datatype Created = Created(id: InvoiceId, totalCents: int, rows: seq<LineRow>)

  /** The errors of the invoice handlers. */
  datatype InvoiceError =
    | InvalidInvoice | InvalidLineItem | InvalidCustomer
    | NoSuchInvoice | InvalidTransition | DatabaseError

  datatype Snapshot = Snapshot(db: Db, lineItems: seq<LineRow>)

  /** What a committed `finalize_payment_attempt` has done that had listed these endpoints. */
  ghost predicate SettlesListed(before: Db, after: Db, i: InvoiceId, a: AttemptId, outcome: PspOutcome,
      listed: set<EndpointId>, ids: map<DeliveryId, EndpointId>, now: Time)
  {
    && CanSettle(before, i, a) && Addressed(ids, listed, before.deliveries)
    && after == SettleAttempt(before, i, a, outcome, ids, now)
  }

  /** The same, with nobody else's step between the listing and the commit. */
  ghost predicate Settles(before: Db, after: Db, i: InvoiceId, a: AttemptId, outcome: PspOutcome,
      ids: map<DeliveryId, EndpointId>, now: Time)
  {
    CanSettle(before, i, a)
    && SettlesListed(before, after, i, a, outcome, EndpointsOf(before, before.invoices[i].business), ids, now)
  }

  predicate CanSettle(db: Db, i: InvoiceId, a: AttemptId) {
    a in db.attempts && db.attempts[a].status.AttemptPending? && i in db.invoices
  }

  /** What a committed claim has done. */
  ghost predicate Claims(before: Db, after: Db, b: BusinessId, i: InvoiceId, a: AttemptId, card: string) {
    && ClaimRefusal(before, b, i).None?
    && a !in before.attempts
    && after == InsertAttempt(before, i, a, card)
  }

  /** What a committed transition has done. */
  ghost predicate Moves(before: Db, after: Db, b: BusinessId, i: InvoiceId, action: Action) {
    && i in before.invoices && before.invoices[i].business == b && i in after.invoices
    && after == before.(invoices := before.invoices[i := before.invoices[i].(state := after.invoices[i].state)])
    && match action
       case FinalizeInvoice => before.invoices[i].state == Draft && after.invoices[i].state == Open
       case VoidInvoice => before.invoices[i].state in {Draft, Open} && after.invoices[i].state == Void
       case MarkUncollectible => before.invoices[i].state == Open && after.invoices[i].state == Uncollectible
  }

  /** What a committed `create_invoice` has done: the line rows carry the wrapped amounts. */
  ghost predicate Creates(before: Snapshot, after: Snapshot, b: BusinessId, items: seq<LineItem>, made: Created,
      ids: map<DeliveryId, EndpointId>, now: Time)
  {
    && ValidLines(items) && PassesChecks(items)
    && made.id !in before.db.invoices && made.totalCents == WrappingTotal(items)
    && Addressed(ids, EndpointsOf(before.db, b), before.db.deliveries)
    && after.db == InsertInvoice(before.db, b, made.id, items, ids, now)
    && after.lineItems == before.lineItems + made.rows
    && RowsOf(made.id, items, made.rows)
  }

  ghost predicate RowsOf(i: InvoiceId, items: seq<LineItem>, rows: seq<LineRow>) {
    && |rows| == |items|
    && forall n :: 0 <= n < |rows| ==> rows[n] == LineRow(i, items[n], LineAmount(items[n]))
  }

  lemma EnqueueOneMore(deliveries: map<DeliveryId, Delivery>, ids: map<DeliveryId, EndpointId>,
      d: DeliveryId, e: EndpointId, b: BusinessId, event: EventType, payload: Payload, now: Time)
    requires d !in Enqueue(deliveries, ids, b, event, payload, now)
    ensures d !in ids && d !in deliveries
    ensures Enqueue(deliveries, ids[d := e], b, event, payload, now)
         == Enqueue(deliveries, ids, b, event, payload, now)[d := NewDelivery(Letter(e, b, event, payload), now)]
  {
  }

  lemma AddressOneMore(deliveries: map<DeliveryId, Delivery>, ids: map<DeliveryId, EndpointId>, d: DeliveryId,
      e: EndpointId, listed: set<EndpointId>)
    requires Addressed(ids, listed, deliveries) && e !in listed && d !in ids && d !in deliveries
    ensures Addressed(ids[d := e], listed + {e}, deliveries)
  {
    var more := ids[d := e];
    forall x | x in listed + {e} ensures exists y :: y in more && more[y] == x {
      if x == e {
        assert more[d] == x;
      } else {
        var y :| y in ids && ids[y] == x;
        assert more[y] == x;
      }
    }
  }

  class Database {
    var invoices: map<InvoiceId, Invoice>
    var attempts: map<AttemptId, Attempt>
    var keys: map<KeyId, KeyRow>
    var endpoints: map<EndpointId, Endpoint>
    var deliveries: map<DeliveryId, Delivery>
    var lineItems: seq<LineRow>

    /** No statement fails and every commit is acknowledged. */
    const reliable: bool

    constructor (reliable: bool)
      ensures this.reliable == reliable
      ensures Content() == Snapshot(EMPTY_DB, [])
    {
      this.reliable := reliable;
      invoices, attempts, keys, endpoints, deliveries, lineItems := map[], map[], map[], map[], map[], [];
    }

    function Tables(): Db
      reads this
    {
      Db(invoices, attempts, keys, endpoints, deliveries)
    }

    function Content(): Snapshot
      reads this
    {
      Snapshot(Tables(), lineItems)
    }

    // ---- Transactions ----

    /** A lost connection, a timeout, a serialization or deadlock abort. */
    method Fails() returns (fault: bool)
      ensures reliable ==> !fault
    {
      fault := *;
      fault := fault && !reliable;
    }

    method Rollback(begun: Snapshot)
      modifies this
      ensures Content() == begun
    {
      invoices, attempts, keys := begun.db.invoices, begun.db.attempts, begun.db.keys;
      endpoints, deliveries, lineItems := begun.db.endpoints, begun.db.deliveries, begun.lineItems;
    }

    /** A commit that is not acknowledged may or may not have taken effect. */
    method Commit(begun: Snapshot) returns (acknowledged: bool)
      modifies this
      ensures Content() == old(Content()) || (!acknowledged && Content() == begun)
      ensures reliable ==> acknowledged
    {
      acknowledged := *;
      acknowledged := acknowledged || reliable;
      var lost := *;
      if !acknowledged && lost {
        Rollback(begun);
      }
    }

    // ---- Payments ----

    method SelectInvoiceForUpdate(b: BusinessId, i: InvoiceId) returns (state: Option<InvoiceState>)
      ensures state == if i in invoices && invoices[i].business == b then Some(invoices[i].state) else None
    {
      state := if i in invoices && invoices[i].business == b then Some(invoices[i].state) else None;
    }

    /** The INSERT of a pending attempt; None if the partial unique index refuses it. */
    method InsertPendingAttempt(i: InvoiceId, card: string) returns (id: Option<AttemptId>)
      modifies this`attempts
      ensures id.None? <==> HasPending(old(Tables()), i)
      ensures id.None? ==> Tables() == old(Tables())
      ensures id.Some? ==> id.value !in old(attempts) && Tables() == InsertAttempt(old(Tables()), i, id.value, card)
    {
      if HasPending(Tables(), i) {
        return None;
      }
      ghost var top := AboveAll(attempts.Keys);
      assert top !in attempts;
      var a: AttemptId :| a !in attempts;
      attempts := attempts[a := Attempt(i, card, AttemptPending, None, None)];
      id := Some(a);
    }

    /** `claim_payment_attempt`: refused exactly as `ClaimRefusal` says, and otherwise
        one fresh pending attempt; an error changes nothing unless it is a commit
        whose acknowledgement was lost. */
    method ClaimPaymentAttempt(b: BusinessId, i: InvoiceId, card: string)
      returns (result: Result<AttemptId, ErrorCode>, id: AttemptId)
      modifies this
      ensures result.Ok? ==> id == result.value && Claims(old(Tables()), Tables(), b, i, id, card)
      ensures result.Err? && result.error != InternalError ==>
                ClaimRefusal(old(Tables()), b, i) == Some(result.error) && Tables() == old(Tables())
      ensures reliable ==> result != Err(InternalError)
      ensures result.Err? ==> Tables() == old(Tables()) || Claims(old(Tables()), Tables(), b, i, id, card)
      ensures result.Ok? ==> attempts == old(attempts)[id := Attempt(i, card, AttemptPending, None, None)]
      ensures result.Ok? ==>
          i in old(invoices) && old(invoices)[i].business == b && old(invoices)[i].state == Open
      ensures result.Ok? ==>
          forall x :: x in old(attempts) && old(attempts)[x].invoice == i ==> old(attempts)[x].status != AttemptPending
      ensures result == Err(InvoiceNotFound) ==> i !in old(invoices) || old(invoices)[i].business != b
      ensures result == Err(InvoiceAlreadyPaid) ==> i in old(invoices) && old(invoices)[i].state == Paid
      ensures result == Err(InvoiceNotPayable) ==>
          i in old(invoices) && old(invoices)[i].state in {Draft, Void, Uncollectible}
      ensures result == Err(PaymentAttemptInProgress) ==>
          i in old(invoices) && old(invoices)[i].state == Open && exists x ::
            x in old(attempts) && old(attempts)[x].invoice == i && old(attempts)[x].status == AttemptPending
      ensures lineItems == old(lineItems)
    {
      var begun := Content();
      id := 0;
      var fault := Fails();
      if fault {
        return Err(InternalError), id;
      }
      var row := SelectInvoiceForUpdate(b, i);
      if row.None? {
        return Err(InvoiceNotFound), id;
      }
      if !row.value.CanAcceptPayment() {
        return Err(if row.value.Paid? then InvoiceAlreadyPaid else InvoiceNotPayable), id;
      }
      fault := Fails();
      if fault {
        return Err(InternalError), id;
      }
      var inserted := InsertPendingAttempt(i, card);
      if inserted.None? {
        return Err(PaymentAttemptInProgress), id;
      }
      id := inserted.value;
      var acknowledged := Commit(begun);
      result := if acknowledged then Ok(inserted.value) else Err(InternalError);
    }

    /** `fetch_total_cents`. */
    method FetchTotalCents(i: InvoiceId) returns (total: Result<int, ErrorCode>)
      ensures total.Ok? ==> i in invoices && total.value == invoices[i].totalCents
      ensures total.Err? ==> total.error == InternalError
      ensures reliable && i in invoices ==> total.Ok?
    {
      var fault := Fails();
      total := if fault || i !in invoices then Err(InternalError) else Ok(invoices[i].totalCents);
    }

    /** UPDATE ... WHERE id = a AND status = 'pending'. */
    method UpdatePendingAttempt(a: AttemptId, outcome: PspOutcome) returns (rows: nat)
      modifies this`attempts
      ensures rows == 1 <==> a in old(attempts) && old(attempts)[a].status.AttemptPending?
      ensures rows == 1 ==> attempts == old(attempts)[a := SettledAttempt(old(attempts)[a], outcome)]
      ensures rows == 1 ==> TellsOf(attempts[a], outcome)
      ensures rows != 1 ==> rows == 0 && attempts == old(attempts)
    {
      if a in attempts && attempts[a].status.AttemptPending? {
        attempts := attempts[a := attempts[a].(status := outcome.Status(), failureCode := outcome.FailureCode(),
            pspRef := outcome.Reference())];
        rows := 1;
      } else {
        rows := 0;
      }
    }

    /** UPDATE invoices SET state = 'paid' WHERE id = i AND state = 'open'. */
    method MarkPaidIfOpen(i: InvoiceId)
      modifies this`invoices
      ensures i !in old(invoices) || !old(invoices)[i].state.Open? ==> invoices == old(invoices)
      ensures i in old(invoices) && old(invoices)[i].state.Open? ==>
          invoices == old(invoices)[i := old(invoices)[i].(state := Paid)]
    {
      if i in invoices && invoices[i].state.Open? {
        invoices := invoices[i := invoices[i].(state := Paid)];
      }
    }

    /** `finalize_payment_attempt`: it settles the attempt if that is still pending,
        pays the invoice if that is still open, and writes one outbox row for each
        endpoint; all of it or nothing. */
    method FinalizePaymentAttempt(i: InvoiceId, a: AttemptId, outcome: PspOutcome, now: Time)
      returns (result: Result<PayResult, ErrorCode>, ids: map<DeliveryId, EndpointId>)
      modifies this
      ensures result.Ok? ==>
          result.value == ResultOf(a, i, outcome) && Settles(old(Tables()), Tables(), i, a, outcome, ids, now)
      ensures result.Ok? ==> Reported(old(Tables()), Tables(), i, a, outcome, ids, now, result.value)
      ensures result.Err? ==> result.error == InternalError
      ensures result.Err? ==> Tables() == old(Tables()) || Settles(old(Tables()), Tables(), i, a, outcome, ids, now)
      ensures !CanSettle(old(Tables()), i, a) ==> result.Err? && Tables() == old(Tables())
      ensures reliable && CanSettle(old(Tables()), i, a) ==> result.Ok?
      ensures lineItems == old(lineItems)
    {
      var begun := Content();
      ids := map[];
      var updated := UpdateSettled(i, a, outcome);
      if !updated {
        Rollback(begun);
        return Err(InternalError), ids;
      }
      var result' := ResultOf(a, i, outcome);
      var queued;
      queued, ids := EnqueueEvent(invoices[i].business, outcome.Event(), AttemptPayload(result'), now);
      if !queued {
        Rollback(begun);
        return Err(InternalError), ids;
      }
      assert Settles(begun.db, Tables(), i, a, outcome, ids, now) by {
        assert begun.db.invoices[i := begun.db.invoices[i]] == begun.db.invoices;
      }
      SettlementIsReported(begun.db, i, a, outcome, ids, now);
      var acknowledged := Commit(begun);
      result := if acknowledged then Ok(result') else Err(InternalError);
    }

    /** The UPDATEs of `finalize_payment_attempt` and the SELECT of the business. */
    method UpdateSettled(i: InvoiceId, a: AttemptId, outcome: PspOutcome) returns (updated: bool)
      modifies this`attempts, this`invoices
      ensures updated ==> CanSettle(old(Tables()), i, a)
      ensures updated ==> i in invoices && invoices[i].business == old(invoices)[i].business
      ensures updated ==> attempts == old(attempts)[a := SettledAttempt(old(attempts)[a], outcome)]
      ensures updated && outcome.Succeeded? && old(invoices)[i].state.Open? ==>
          invoices == old(invoices)[i := old(invoices)[i].(state := Paid)]
      ensures updated && !(outcome.Succeeded? && old(invoices)[i].state.Open?) ==> invoices == old(invoices)
      ensures reliable && CanSettle(old(Tables()), i, a) ==> updated
    {
      var fault := Fails();
      if fault {
        return false;
      }
      var rows := UpdatePendingAttempt(a, outcome);
      if rows == 0 {
        return false;
      }
      fault := Fails();
      if fault {
        return false;
      }
      if outcome.Succeeded? {
        MarkPaidIfOpen(i);
      }
      fault := Fails();
      updated := !fault && i in invoices;
    }

    /** The same transaction seen at its commit, with the endpoints it listed before
        others took steps. The row locks that its UPDATEs take make those as good as
        done now. */
    method SettleListed(i: InvoiceId, a: AttemptId, outcome: PspOutcome, listed: seq<EndpointId>, now: Time)
      returns (result: Result<PayResult, ErrorCode>, ids: map<DeliveryId, EndpointId>)
      requires forall m, n :: 0 <= m < n < |listed| ==> listed[m] != listed[n]
      modifies this
      ensures result.Ok? ==> result.value == ResultOf(a, i, outcome)
      ensures result.Ok? ==> Reported(old(Tables()), Tables(), i, a, outcome, ids, now, result.value)
      ensures result.Ok? ==> SettlesListed(old(Tables()), Tables(), i, a, outcome, Elements(listed), ids, now)
      ensures result.Err? ==> result.error == InternalError
      ensures result.Err? ==>
          || Tables() == old(Tables())
          || SettlesListed(old(Tables()), Tables(), i, a, outcome, Elements(listed), ids, now)
      ensures reliable && CanSettle(old(Tables()), i, a) ==> result.Ok?
      ensures lineItems == old(lineItems)
    {
      var begun := Content();
      ids := map[];
      var updated := UpdateSettled(i, a, outcome);
      if !updated {
        Rollback(begun);
        return Err(InternalError), ids;
      }
      var result' := ResultOf(a, i, outcome);
      var queued;
      queued, ids := InsertDeliveries(listed, invoices[i].business, outcome.Event(), AttemptPayload(result'), now);
      if !queued {
        Rollback(begun);
        return Err(InternalError), ids;
      }
      assert SettlesListed(begun.db, Tables(), i, a, outcome, Elements(listed), ids, now) by {
        assert begun.db.invoices[i := begun.db.invoices[i]] == begun.db.invoices;
      }
      SettlementIsReported(begun.db, i, a, outcome, ids, now);
      var acknowledged := Commit(begun);
      result := if acknowledged then Ok(result') else Err(InternalError);
    }

    /** INSERT ... ON CONFLICT DO NOTHING: the primary key decides. */
    method InsertKey(k: KeyId, hash: RequestHash) returns (rows: nat, acknowledged: bool)
      modifies this
      ensures reliable ==> acknowledged
      ensures acknowledged ==> (rows == 1 <==> k !in old(keys)) && rows <= 1
      ensures acknowledged ==> Tables() == ReserveKey(old(Tables()), k, hash)
      ensures !acknowledged ==> Tables() == old(Tables()) || Tables() == ReserveKey(old(Tables()), k, hash)
      ensures lineItems == old(lineItems)
    {
      var begun := Content();
      rows := 0;
      if k !in keys {
        keys := keys[k := KeyRow(hash, None)];
        rows := 1;
      }
      acknowledged := Commit(begun);
    }

    /** `idempotency::finalize`: the UPDATE has no status condition. */
    method FinalizeKey(k: KeyId, response: Response) returns (acknowledged: bool)
      modifies this
      ensures reliable ==> acknowledged
      ensures acknowledged ==> Tables() == StoreResponse(old(Tables()), k, response)
      ensures !acknowledged ==> Tables() == old(Tables()) || Tables() == StoreResponse(old(Tables()), k, response)
      ensures lineItems == old(lineItems)
    {
      var begun := Content();
      if k in keys {
        keys := keys[k := keys[k].(response := Some(response))];
      }
      acknowledged := Commit(begun);
    }

    // ---- The outbox ----

    /** The rows of SELECT id FROM webhook_endpoints, in whatever order. */
    method SelectEndpoints(b: BusinessId) returns (listed: seq<EndpointId>)
      ensures Elements(listed) == EndpointsOf(Tables(), b)
      ensures forall m, n :: 0 <= m < n < |listed| ==> listed[m] != listed[n]
    {
      listed := [];
      var rest := EndpointsOf(Tables(), b);
      while rest != {}
        invariant Elements(listed) + rest == EndpointsOf(Tables(), b)
        invariant forall e :: e in listed ==> e !in rest
        invariant forall m, n :: 0 <= m < n < |listed| ==> listed[m] != listed[n]
        decreases rest
      {
        var e :| e in rest;
        rest := rest - {e};
        listed := listed + [e];
      }
    }

    /** `enqueue_event`: inside the caller's transaction, one pending row for each
        endpoint of the business; on a database error the caller rolls back. */
    method EnqueueEvent(b: BusinessId, event: EventType, payload: Payload, now: Time)
      returns (ok: bool, ids: map<DeliveryId, EndpointId>)
      modifies this`deliveries
      ensures reliable ==> ok
      ensures ok ==> Addressed(ids, EndpointsOf(old(Tables()), b), old(deliveries))
      ensures ok ==> deliveries == Enqueue(old(deliveries), ids, b, event, payload, now)
    {
      var listed := SelectEndpoints(b);
      ok, ids := InsertDeliveries(listed, b, event, payload, now);
    }

    /** The INSERTs of `enqueue_event`. */
    method InsertDeliveries(listed: seq<EndpointId>, b: BusinessId, event: EventType, payload: Payload, now: Time)
      returns (ok: bool, ids: map<DeliveryId, EndpointId>)
      requires forall m, n :: 0 <= m < n < |listed| ==> listed[m] != listed[n]
      modifies this`deliveries
      ensures reliable ==> ok
      ensures ok ==> Addressed(ids, Elements(listed), old(deliveries))
      ensures ok ==> deliveries == Enqueue(old(deliveries), ids, b, event, payload, now)
    {
      ids := map[];
      for n := 0 to |listed|
        invariant Addressed(ids, Elements(listed[..n]), old(deliveries))
        invariant deliveries == Enqueue(old(deliveries), ids, b, event, payload, now)
      {
        var fault := Fails();
        if fault {
          return false, ids;
        }
        ghost var top := AboveAll(deliveries.Keys);
        assert top !in deliveries;
        var d: DeliveryId :| d !in deliveries;
        EnqueueOneMore(old(deliveries), ids, d, listed[n], b, event, payload, now);
        AddressOneMore(old(deliveries), ids, d, listed[n], Elements(listed[..n]));
        deliveries := deliveries[d := NewDelivery(Letter(listed[n], b, event, payload), now)];
        ids := ids[d := listed[n]];
        assert listed[..n + 1] == listed[..n] + [listed[n]];
        assert Elements(listed[..n + 1]) == Elements(listed[..n]) + {listed[n]};
      }
      assert listed[..|listed|] == listed;
      ok := true;
    }

    // ---- Invoices ----

    /** `transition` behind finalize, void and mark-uncollectible: it looks at the
        state of the invoice and at nothing else. */
    method Transition(b: BusinessId, i: InvoiceId, action: Action) returns (result: Result<Invoice, InvoiceError>)
      modifies this
      ensures result.Ok? ==>
          TransitionAllowed(old(Tables()), b, i, action) && Tables() == MoveInvoice(old(Tables()), i, action.Target())
      ensures result.Ok? ==> Moves(old(Tables()), Tables(), b, i, action) && result.value == invoices[i]
      ensures reliable ==> result != Err(DatabaseError)
      ensures result == Err(NoSuchInvoice) ==> i !in old(invoices) || old(invoices)[i].business != b
      ensures result == Err(InvalidTransition) ==>
                i in old(invoices) && old(invoices)[i].business == b && !action.Allows(old(invoices)[i].state)
      ensures result == Err(InvalidTransition) ==>
                match action
                case FinalizeInvoice => old(invoices)[i].state != Draft
                case VoidInvoice => old(invoices)[i].state in {Paid, Void, Uncollectible}
                case MarkUncollectible => old(invoices)[i].state != Open
      ensures result.Err? ==> result.error in {NoSuchInvoice, InvalidTransition, DatabaseError}
      ensures result.Err? ==>
                Tables() == old(Tables()) ||
                (result.error.DatabaseError? && Moves(old(Tables()), Tables(), b, i, action))
      ensures lineItems == old(lineItems)
    {
      var begun := Content();
      var fault := Fails();
      if fault {
        return Err(DatabaseError);
      }
      var row := SelectInvoiceForUpdate(b, i);
      if row.None? {
        return Err(NoSuchInvoice);
      }
      if !action.Allows(row.value) {
        return Err(InvalidTransition);
      }
      fault := Fails();
      if fault {
        return Err(DatabaseError);
      }
      invoices := invoices[i := invoices[i].(state := action.Target())];
      var updated := invoices[i];
      var acknowledged := Commit(begun);
      result := if acknowledged then Ok(updated) else Err(DatabaseError);
    }

    /** The validation loop of `create_invoice`. */
    method Validate(items: seq<LineItem>) returns (error: Option<InvoiceError>)
      ensures error == if items == [] then Some(InvalidInvoice) else if !ValidLines(items) then Some(InvalidLineItem)
          else None
    {
      if items == [] {
        return Some(InvalidInvoice);
      }
      for n := 0 to |items|
        invariant forall m :: 0 <= m < n ==> ValidLine(items[m])
      {
        if items[n].quantity <= 0 {
          return Some(InvalidLineItem);
        }
        if items[n].unitAmountCents < 0 {
          return Some(InvalidLineItem);
        }
      }
      error := None;
    }

    /** The loop that inserts the lines; the CHECK constraint refuses a negative amount. */
    method InsertLines(i: InvoiceId, items: seq<LineItem>) returns (ok: bool, rows: seq<LineRow>)
      requires i in invoices && invoices[i].lines == []
      modifies this`invoices, this`lineItems
      ensures ok ==> invoices == old(invoices)[i := old(invoices)[i].(lines := items)]
      ensures ok ==> RowsOf(i, items, rows) && lineItems == old(lineItems) + rows
      ensures reliable && (forall n :: 0 <= n < |items| ==> LineAmount(items[n]) >= 0) ==> ok
      ensures ok ==> forall n :: 0 <= n < |items| ==> LineAmount(items[n]) >= 0
    {
      rows := [];
      for n := 0 to |items|
        invariant i in invoices && invoices == old(invoices)[i := old(invoices)[i].(lines := items[..n])]
        invariant RowsOf(i, items[..n], rows) && lineItems == old(lineItems) + rows
        invariant forall m :: 0 <= m < n ==> LineAmount(items[m]) >= 0
      {
        var amount := LineAmount(items[n]);
        var fault := Fails();
        if fault || amount < 0 {
          return false, rows;
        }
        var row := LineRow(i, items[n], amount);
        lineItems := lineItems + [row];
        invoices := invoices[i := invoices[i].(lines := invoices[i].lines + [items[n]])];
        rows := rows + [row];
        assert items[..n + 1] == items[..n] + [items[n]];
      }
      assert items[..|items|] == items;
      ok := true;
    }

    /** `create_invoice` in a release build: the total and the line amounts wrap, and
        the constraints refuse what wraps to a negative number. */
    method CreateInvoice(b: BusinessId, customerExists: bool, items: seq<LineItem>, now: Time)
      returns (result: Result<Created, InvoiceError>, made: Created, ids: map<DeliveryId, EndpointId>)
      modifies this
      ensures result.Ok? ==>
          customerExists && made == result.value && Creates(old(Content()), Content(), b, items, made, ids, now)
      ensures result == Err(InvalidInvoice) <==> items == []
      ensures result == Err(InvalidLineItem) <==> items != [] && !ValidLines(items)
      ensures result == Err(InvalidCustomer) ==> !customerExists
      ensures result.Err? ==> result.error in {InvalidInvoice, InvalidLineItem, InvalidCustomer, DatabaseError}
      ensures result.Err? ==>
                || Content() == old(Content())
                || (result.error.DatabaseError? && customerExists
                    && Creates(old(Content()), Content(), b, items, made, ids, now))
      ensures reliable && ValidLines(items) && !customerExists ==> result == Err(InvalidCustomer)
      ensures reliable && customerExists && ValidLines(items) && PassesChecks(items) ==> result.Ok?
      ensures !customerExists || !ValidLines(items) || !PassesChecks(items) ==>
          result.Err? && Content() == old(Content())
    {
      var begun := Content();
      ids, made := map[], Created(0, 0, []);
      var invalid := Validate(items);
      if invalid.Some? {
        return Err(invalid.value), made, ids;
      }
      var fault := Fails();
      if fault {
        return Err(DatabaseError), made, ids;
      }
      if !customerExists {
        return Err(InvalidCustomer), made, ids;
      }
      var total := WrappingTotal(items);
      fault := Fails();
      if fault || total < 0 {
        return Err(DatabaseError), made, ids;
      }
      ghost var top := AboveAll(invoices.Keys);
      assert top !in invoices;
      var i: InvoiceId :| i !in invoices;
      invoices := invoices[i := Invoice(b, Draft, [], total)];
      var ok, rows := InsertLines(i, items);
      if !ok {
        Rollback(begun);
        return Err(DatabaseError), made, ids;
      }
      ok, ids := EnqueueEvent(b, InvoiceCreated, CreatedPayload(i, total), now);
      if !ok {
        Rollback(begun);
        return Err(DatabaseError), made, ids;
      }
      made := Created(i, total, rows);
      assert Creates(begun, Content(), b, items, made, ids, now) by {
        assert invoices == begun.db.invoices[i := Invoice(b, Draft, items, total)];
      }
      var acknowledged := Commit(begun);
      result := if acknowledged then Ok(Created(i, total, rows)) else Err(DatabaseError);
    }
  }
}
