/** The transactions of the payment protocol one SQL statement at a time, with row
    locks, the partial unique index and aborts. The committed tables are those of
    the `World`; what a transaction has written so far is private to its session.

    Assumed of PostgreSQL at READ COMMITTED: a row lock excludes other lockers and
    writers until its transaction ends; a blocked statement is simply not enabled,
    and sees the committed row once it runs; an INSERT waits for any open
    transaction whose outcome decides the unique index; a commit is atomic, an
    abort (deadlock included) leaves nothing; drawn UUIDs never collide. */
module Isolation {
  import opened Domain
  import opened Transactions
  import opened Protocol

  type TxId = nat

  /** `claim_payment_attempt` holds the invoice row, and then has inserted its attempt. */
  datatype ClaimTx = Locked | Inserted(attempt: AttemptId)

  /** `finalize_payment_attempt` has updated the attempt; `pays` says that its UPDATE
      of the invoice matched, so that it holds that row too; `ids` are its outbox rows so far. */
  datatype SettleTx = SettleTx(invoiceDone: bool, pays: bool, ids: map<DeliveryId, EndpointId>)

  /** `transition` holds the invoice row, and then has updated it. */
  datatype MoveTx = MoveTx(i: InvoiceId, business: BusinessId, action: Action, updated: bool)

  datatype Sessions = Sessions(
    w: World,
    claims: map<RequestId, ClaimTx>,
    settles: map<RequestId, SettleTx>,
    moves: map<TxId, MoveTx>)

  const IDLE := Sessions(START, map[], map[], map[])

  datatype Statement =
    | Single(s: Step)
    | ClaimSelect(r: RequestId)
    | ClaimInsert(r: RequestId, a: AttemptId)
    | ClaimCommit(r: RequestId, ack: bool)
    | ClaimAbort(r: RequestId)
    | SettleUpdateAttempt(r: RequestId)
    | SettleUpdateInvoice(r: RequestId)
    | SettleSelectEndpoints(r: RequestId)
    | SettleInsertDelivery(r: RequestId, e: EndpointId, d: DeliveryId)
    | SettleCommit(r: RequestId, ack: bool)
    | SettleAbort(r: RequestId)
    | MoveSelect(x: TxId, business: BusinessId, i: InvoiceId, action: Action)
    | MoveUpdate(x: TxId)
    | MoveCommit(x: TxId)
    | MoveAbort(x: TxId)

  datatype Owner = ByClaim(r: RequestId) | BySettle(r: RequestId) | ByMove(x: TxId)

  /** Does the session hold the lock on this invoice row? */
  predicate HoldsInvoice(f: Sessions, owner: Owner, i: InvoiceId) {
    match owner
    case ByClaim(r) => r in f.claims && r in f.w.requests && f.w.requests[r].invoice == i
    case BySettle(r) => r in f.settles && f.settles[r].pays && r in f.w.tasks && f.w.tasks[r].invoice == i
    case ByMove(x) => x in f.moves && f.moves[x].i == i
  }

  ghost predicate InvoiceFree(f: Sessions, i: InvoiceId) {
    forall owner :: !HoldsInvoice(f, owner, i)
  }

  /** An open transaction has taken a pending attempt of the invoice out of the
      unique index, or put one in: an INSERT there has to wait for it. */
  ghost predicate IndexBusy(f: Sessions, i: InvoiceId) {
    || (exists t :: t in f.settles && t in f.w.tasks && f.w.tasks[t].invoice == i)
    || (exists r :: r in f.claims && f.claims[r].Inserted? && r in f.w.requests && f.w.requests[r].invoice == i)
  }

  predicate FreshAttempt(f: Sessions, a: AttemptId) {
    a !in f.w.db.attempts && forall r :: r in f.claims && f.claims[r].Inserted? ==> f.claims[r].attempt != a
  }

  predicate FreshDelivery(f: Sessions, d: DeliveryId) {
    d !in f.w.db.deliveries && forall t :: t in f.settles ==> d !in f.settles[t].ids
  }

  /** Single statements, PSP calls, and faults outside an open transaction. */
  ghost predicate SingleEnabled(f: Sessions, s: Step) {
    && Enabled(f.w, s)
    && match s
       case Claim(_, _, _) => false
       case ListEndpoints(_) => false
       case Settle(_, _, _) => false
       case Transition(_, _, _) => false
       case SettleFails(r) => r !in f.settles
       case DbError(r) => r !in f.claims
       case CreateInvoice(_, _, _, ids, _) => forall d :: d in ids ==> FreshDelivery(f, d)
       case _ => true
  }

  /** The row that `SELECT ... WHERE id = $1 AND business_id = $2 FOR UPDATE` finds. */
  predicate ClaimFindsRow(w: World, r: RequestId)
    requires r in w.requests
  {
    w.requests[r].invoice in w.db.invoices && w.db.invoices[w.requests[r].invoice].business ==
        w.requests[r].key.business
  }

  ghost predicate StatementEnabled(f: Sessions, st: Statement) {
    var w := f.w;
    match st
    case Single(s) => SingleEnabled(f, s)
    case ClaimSelect(r) =>
      && r in w.requests && w.requests[r].pc.Claiming? && r !in f.claims
      && (ClaimFindsRow(w, r) ==> InvoiceFree(f, w.requests[r].invoice))
    case ClaimInsert(r, a) =>
      && r in f.claims && f.claims[r].Locked? && r in w.requests && FreshAttempt(f, a)
      && !IndexBusy(f, w.requests[r].invoice)
    case ClaimCommit(r, ack) => r in f.claims && f.claims[r].Inserted? && r in w.requests
    case ClaimAbort(r) => r in f.claims && r in w.requests
    case SettleUpdateAttempt(r) =>
      && r in w.tasks && w.tasks[r].pc.Settling? && r !in f.settles
      && forall t :: t in f.settles && t in w.tasks ==> w.tasks[t].attempt != w.tasks[r].attempt
    case SettleUpdateInvoice(r) =>
      && r in f.settles && !f.settles[r].invoiceDone && r in w.tasks
      && w.tasks[r].pc.Settling? && w.tasks[r].pc.outcome.Succeeded? && w.tasks[r].invoice in w.db.invoices
      && (w.db.invoices[w.tasks[r].invoice].state.Open? ==> InvoiceFree(f, w.tasks[r].invoice))
    case SettleSelectEndpoints(r) =>
      && r in f.settles && Enabled(w, ListEndpoints(r))
      && (w.tasks[r].pc.outcome.Succeeded? ==> f.settles[r].invoiceDone)
    case SettleInsertDelivery(r, e, d) =>
      && r in f.settles && r in w.tasks && w.tasks[r].pc.Listed? && e in w.tasks[r].pc.endpoints
      && e !in f.settles[r].ids.Values && FreshDelivery(f, d)
    case SettleCommit(r, ack) =>
      && r in f.settles && r in w.tasks && w.tasks[r].pc.Listed? && f.settles[r].ids.Values == w.tasks[r].pc.endpoints
      && w.tasks[r].attempt in w.db.attempts && w.tasks[r].invoice in w.db.invoices
    case SettleAbort(r) => r in f.settles && r in w.tasks
    case MoveSelect(x, b, i, action) => x !in f.moves && TransitionAllowed(w.db, b, i, action) && InvoiceFree(f, i)
    case MoveUpdate(x) => x in f.moves && !f.moves[x].updated
    case MoveCommit(x) => x in f.moves && f.moves[x].updated && f.moves[x].i in w.db.invoices
    case MoveAbort(x) => x in f.moves
  }

  /** Refused inside the claim: rollback, and the error is the result to store. */
  function Refuse(f: Sessions, r: RequestId, code: ErrorCode): Sessions
    requires r in f.w.requests
  {
    f.(w := Tick(SetPc(f.w, r, Storing(Refused(code)))), claims := f.claims - {r})
  }

  function AfterClaimSelect(f: Sessions, r: RequestId): Sessions
    requires r in f.w.requests
  {
    if !ClaimFindsRow(f.w, r) then Refuse(f, r, InvoiceNotFound)
    else
      var state := f.w.db.invoices[f.w.requests[r].invoice].state;
      if state.Open? then f.(claims := f.claims[r := Locked])
      else Refuse(f, r, if state.Paid? then InvoiceAlreadyPaid else InvoiceNotPayable)
  }

  function AfterClaimInsert(f: Sessions, r: RequestId, a: AttemptId): Sessions
    requires r in f.w.requests
  {
    if HasPending(f.w.db, f.w.requests[r].invoice) then Refuse(f, r, PaymentAttemptInProgress)
    else f.(claims := f.claims[r := Inserted(a)])
  }

  /** The commit publishes the private writes: the attempt, the invoice if its
      UPDATE matched, and the outbox rows. */
  function AfterSettleCommit(f: Sessions, r: RequestId, ack: bool): Sessions
    requires r in f.settles && r in f.w.tasks && f.w.tasks[r].pc.Listed?
    requires f.w.tasks[r].attempt in f.w.db.attempts && f.w.tasks[r].invoice in f.w.db.invoices
  {
    var w, t, tx := f.w, f.w.tasks[r], f.settles[r];
    var result := ResultOf(t.attempt, t.invoice, t.pc.outcome);
    var invoice := w.db.invoices[t.invoice];
    var db := w.db.(
      attempts := w.db.attempts[t.attempt := SettledAttempt(w.db.attempts[t.attempt], t.pc.outcome)],
      invoices := if tx.pays then w.db.invoices[t.invoice := invoice.(state := Paid)] else w.db.invoices,
      deliveries := Enqueue(w.db.deliveries, tx.ids, invoice.business, t.pc.outcome.Event(), AttemptPayload(result),
          w.now));
    var settled := w.(db := db, listed := w.listed[t.attempt := t.pc.at]);
    f.(w := Tick(SetTask(settled, r, Done(if ack then Ok(result) else Err(InternalError)))), settles := f.settles - {r})
  }

  /** A statement of the settlement found its attempt pending, or it rolls back. */
  function AfterUpdateAttempt(f: Sessions, r: RequestId): Sessions
    requires r in f.w.tasks
  {
    var a := f.w.tasks[r].attempt;
    if a in f.w.db.attempts && f.w.db.attempts[a].status.AttemptPending? then
      f.(settles := f.settles[r := SettleTx(false, false, map[])])
    else f.(w := Tick(SetTask(f.w, r, Done(Err(InternalError)))))
  }

  /** Killing the code that runs a transaction rolls it back. */
  function AfterSingle(f: Sessions, s: Step): Sessions
    requires SingleEnabled(f, s)
  {
    f.(w := Next(f.w, s),
       claims := if s.KillRequest? then f.claims - {s.r} else f.claims,
       settles := if s.KillTask? then f.settles - {s.r} else f.settles)
  }

  function AfterStatement(f: Sessions, st: Statement): Sessions
    requires StatementEnabled(f, st)
  {
    var w := f.w;
    match st
    case Single(s) => AfterSingle(f, s)
    case ClaimSelect(r) => AfterClaimSelect(f, r)
    case ClaimInsert(r, a) => AfterClaimInsert(f, r, a)
    case ClaimCommit(r, ack) =>
      var a := f.claims[r].attempt;
      f.(w := Tick(AfterInsertAttempt(w, r, a, if ack then Fetching(a) else Storing(Refused(InternalError)))),
          claims := f.claims - {r})
    case ClaimAbort(r) => Refuse(f, r, InternalError)
    case SettleUpdateAttempt(r) => AfterUpdateAttempt(f, r)
    case SettleUpdateInvoice(r) =>
      f.(settles := f.settles[r := f.settles[r].(invoiceDone := true,
          pays := w.db.invoices[w.tasks[r].invoice].state.Open?)])
    case SettleSelectEndpoints(r) => f.(w := Next(w, ListEndpoints(r)))
    case SettleInsertDelivery(r, e, d) => f.(settles := f.settles[r := f.settles[r].(ids := f.settles[r].ids[d := e])])
    case SettleCommit(r, ack) => AfterSettleCommit(f, r, ack)
    case SettleAbort(r) => f.(w := Tick(SetTask(w, r, Done(Err(InternalError)))), settles := f.settles - {r})
    case MoveSelect(x, b, i, action) => f.(moves := f.moves[x := MoveTx(i, b, action, false)])
    case MoveUpdate(x) => f.(moves := f.moves[x := f.moves[x].(updated := true)])
    case MoveCommit(x) =>
      f.(w := Tick(w.(db := MoveInvoice(w.db, f.moves[x].i, f.moves[x].action.Target()))), moves := f.moves - {x})
    case MoveAbort(x) => f.(moves := f.moves - {x})
  }

  ghost predicate Interleaving(f: Sessions, statements: seq<Statement>, end: Sessions)
    decreases |statements|
  {
    if statements == [] then end == f
    else StatementEnabled(f, statements[0]) && Interleaving(AfterStatement(f, statements[0]), statements[1..], end)
  }
}
