/** The payment protocol as a step system: any number of POST /pay handlers and
    their detached tasks, invoice transitions and other traffic share the tables.
    Every database transaction is one step here; `Isolation` justifies that.

    Faults are steps too: any handler or task may be killed, any transaction may
    fail, and any commit may take effect while its acknowledgement is lost
    (`ack` is false), in which case the code sees a database error. */
module Protocol {
  import opened Domain
  import opened Totals
  import opened Transactions
  import opened Idempotency

  /** Where a handler of POST /pay stands. Each value is an await point. */
  datatype RequestPc =
    | Reserving(at: Reservation)
    | Claiming
    | Fetching(attempt: AttemptId)
    | Waiting(attempt: AttemptId)
    | Storing(response: Response)
    | Replied(response: Response)
    | Killed

  /** `proceeded` records that `reserve_or_get` answered `Proceed`. */
  datatype Request = Request(key: KeyId, invoice: InvoiceId, card: string, proceeded: bool, pc: RequestPc) {
    function Hash(): RequestHash {
      RequestHash(invoice, card)
    }
  }

  /** Where a detached task stands: before the PSP call, during it, then in the
      transaction of `finalize_payment_attempt` before and after it has listed
      the webhook endpoints. */
  datatype TaskPc =
    | Ready
    | Charging
    | Settling(outcome: PspOutcome)
    | Listed(outcome: PspOutcome, endpoints: set<EndpointId>, at: Time)
    | Done(result: Result<PayResult, ErrorCode>)
    | Dead

  /** `called` and `answer` record what the task has done with the PSP. */
  datatype Task = Task(invoice: InvoiceId, attempt: AttemptId, amountCents: int, card: string,
                       called: bool, answer: Option<PspOutcome>, pc: TaskPc)
  {
    /** Can this task still settle its attempt? */
    predicate Active() {
      !pc.Done? && !pc.Dead?
    }
  }

  datatype PspCall = PspCall(attempt: AttemptId, invoice: InvoiceId, amountCents: int, card: string)

  datatype PspAnswer = PspAnswer(attempt: AttemptId, invoice: InvoiceId, outcome: PspOutcome)

  /** The tables, the running code, and four histories: which request claimed an
      attempt, every PSP call, every PSP answer the service observed, and when the
      transaction that settled an attempt listed the endpoints. A task is kept
      under the request that spawned it; `now` counts steps. */
  datatype World = World(
    db: Db,
    requests: map<RequestId, Request>,
    tasks: map<RequestId, Task>,
    origin: map<AttemptId, RequestId>,
    calls: seq<PspCall>,
    answers: seq<PspAnswer>,
    listed: map<AttemptId, Time>,
    now: Time)

  const START := World(EMPTY_DB, map[], map[], map[], [], [], map[], 0)

  /** `CreateInvoice` is the commit of a transaction that listed the endpoints at `at`. */
  datatype Step =
    | RegisterEndpoint(e: EndpointId, business: BusinessId)
    | CreateInvoice(i: InvoiceId, business: BusinessId, lines: seq<LineItem>, ids: map<DeliveryId, EndpointId>,
        at: Time)
    | Transition(i: InvoiceId, business: BusinessId, action: Action)
    | Dispatch(deliveries: map<DeliveryId, Delivery>)
    | Arrive(r: RequestId, key: KeyId, i: InvoiceId, card: string)
    | SelectKey(r: RequestId)
    | InsertKey(r: RequestId, ack: bool)
    | Claim(r: RequestId, a: AttemptId, ack: bool)
    | FetchAndSpawn(r: RequestId)
    | Call(r: RequestId)
    | Answer(r: RequestId, outcome: PspOutcome)
    | ListEndpoints(r: RequestId)
    | Settle(r: RequestId, ids: map<DeliveryId, EndpointId>, ack: bool)
    | SettleFails(r: RequestId)
    | Join(r: RequestId)
    | TimeOut(r: RequestId)
    | Store(r: RequestId, ack: bool)
    | DbError(r: RequestId)
    | KillRequest(r: RequestId)
    | KillTask(r: RequestId)

  function PcAfter(reservation: Reservation): RequestPc {
    match reservation
    case Proceed => Claiming
    case UseCached(response) => Replied(response)
    case Rejected(code) => Replied(Refused(code))
    case _ => Reserving(reservation)
  }

  /** What a handler does when a database call of its own fails: inside the claim
      and the fetch the error is a result to store, elsewhere it is the reply. */
  function PcAfterDbError(pc: RequestPc): RequestPc {
    if pc.Claiming? || pc.Fetching? then Storing(Refused(InternalError)) else Replied(Refused(InternalError))
  }

  predicate Enabled(w: World, s: Step) {
    match s
    case RegisterEndpoint(e, b) => e !in w.db.endpoints
    case CreateInvoice(i, b, lines, ids, at) =>
      && i !in w.db.invoices && ValidLines(lines) && PassesChecks(lines)
      && at <= w.now && Addressed(ids, Seen(w.db, b, at), w.db.deliveries)
    case Transition(i, b, action) => TransitionAllowed(w.db, b, i, action)
    case Dispatch(deliveries) => SameLetters(w.db.deliveries, deliveries)
    case Arrive(r, k, i, card) => r !in w.requests
    case SelectKey(r) => r in w.requests && w.requests[r].pc.Reserving? && w.requests[r].pc.at.Polling?
    case InsertKey(r, ack) => r in w.requests && w.requests[r].pc.Reserving? && w.requests[r].pc.at.Inserting?
    case Claim(r, a, ack) => r in w.requests && w.requests[r].pc.Claiming? && a !in w.db.attempts
    case FetchAndSpawn(r) => r in w.requests && w.requests[r].pc.Fetching?
    case Call(r) => r in w.tasks && w.tasks[r].pc.Ready?
    case Answer(r, outcome) => r in w.tasks && w.tasks[r].pc.Charging?
    case ListEndpoints(r) => r in w.tasks && w.tasks[r].pc.Settling? && w.tasks[r].invoice in w.db.invoices
    case Settle(r, ids, ack) => r in w.tasks && w.tasks[r].pc.Listed?
        && Addressed(ids, w.tasks[r].pc.endpoints, w.db.deliveries)
    case SettleFails(r) => r in w.tasks && (w.tasks[r].pc.Settling? || w.tasks[r].pc.Listed?)
    case Join(r) => r in w.requests && w.requests[r].pc.Waiting? && r in w.tasks && !w.tasks[r].Active()
    case TimeOut(r) => r in w.requests && w.requests[r].pc.Waiting?
    case Store(r, ack) => r in w.requests && w.requests[r].pc.Storing?
    case DbError(r) => r in w.requests && !w.requests[r].pc.Waiting? && !w.requests[r].pc.Replied?
        && !w.requests[r].pc.Killed?
    case KillRequest(r) => r in w.requests && !w.requests[r].pc.Replied?
    case KillTask(r) => r in w.tasks && w.tasks[r].Active()
  }

  function SetPc(w: World, r: RequestId, pc: RequestPc): World
    requires r in w.requests
  {
    w.(requests := w.requests[r := w.requests[r].(pc := pc)])
  }

  function SetTask(w: World, r: RequestId, pc: TaskPc): World
    requires r in w.tasks
  {
    w.(tasks := w.tasks[r := w.tasks[r].(pc := pc)])
  }

  /** The INSERT of `reserve_or_get` made the row. */
  function AfterReserve(w: World, r: RequestId, pc: RequestPc, proceeded: bool): World
    requires r in w.requests
  {
    var q := w.requests[r];
    w.(db := ReserveKey(w.db, q.key, q.Hash()), requests := w.requests[r := q.(proceeded := proceeded, pc := pc)])
  }

  function AfterInsertKey(w: World, r: RequestId, round: nat, ack: bool): World
    requires r in w.requests
  {
    var created := w.requests[r].key !in w.db.keys;
    if !ack then AfterReserve(w, r, Replied(Refused(InternalError)), false)
    else AfterReserve(w, r, PcAfter(AfterInsert(created, round)), created)
  }

  function AfterInsertAttempt(w: World, r: RequestId, a: AttemptId, pc: RequestPc): World
    requires r in w.requests
  {
    SetPc(w.(db := InsertAttempt(w.db, w.requests[r].invoice, a, w.requests[r].card), origin := w.origin[a := r]), r,
        pc)
  }

  function AfterClaim(w: World, r: RequestId, a: AttemptId, ack: bool): World
    requires r in w.requests
  {
    match ClaimRefusal(w.db, w.requests[r].key.business, w.requests[r].invoice)
    case Some(code) => SetPc(w, r, Storing(Refused(code)))
    case None => AfterInsertAttempt(w, r, a, if ack then Fetching(a) else Storing(Refused(InternalError)))
  }

  /** `fetch_total_cents` and the spawn that follows it without an await between. */
  function AfterFetch(w: World, r: RequestId, a: AttemptId): World
    requires r in w.requests
  {
    var q := w.requests[r];
    if q.invoice !in w.db.invoices then SetPc(w, r, Storing(Refused(InternalError)))
    else
      var task := Task(q.invoice, a, w.db.invoices[q.invoice].totalCents, q.card, false, None, Ready);
      SetPc(w, r, Waiting(a)).(tasks := w.tasks[r := task])
  }

  function AfterCall(w: World, r: RequestId): World
    requires r in w.tasks
  {
    var t := w.tasks[r];
    w.(tasks := w.tasks[r := t.(called := true, pc := Charging)],
       calls := w.calls + [PspCall(t.attempt, t.invoice, t.amountCents, t.card)])
  }

  function AfterAnswer(w: World, r: RequestId, outcome: PspOutcome): World
    requires r in w.tasks
  {
    var t := w.tasks[r];
    w.(tasks := w.tasks[r := t.(answer := Some(outcome), pc := Settling(outcome))],
       answers := w.answers + [PspAnswer(t.attempt, t.invoice, outcome)])
  }

  /** The commit of `finalize_payment_attempt`; an attempt that is not pending
      makes it roll back with "payment attempt was already finalized". */
  function AfterSettle(w: World, r: RequestId, ids: map<DeliveryId, EndpointId>, ack: bool): World
    requires r in w.tasks && w.tasks[r].pc.Listed?
  {
    var t := w.tasks[r];
    if t.attempt !in w.db.attempts || t.invoice !in w.db.invoices
        || !w.db.attempts[t.attempt].status.AttemptPending? then
      SetTask(w, r, Done(Err(InternalError)))
    else
      var settled := w.(db := SettleAttempt(w.db, t.invoice, t.attempt, t.pc.outcome, ids, w.now),
                        listed := w.listed[t.attempt := t.pc.at]);
      SetTask(settled, r, Done(if ack then Ok(ResultOf(t.attempt, t.invoice, t.pc.outcome)) else Err(InternalError)))
  }

  function ResponseOfTask(t: Task): Response {
    match t.pc
    case Done(Ok(body)) => Settled(body)
    case _ => Refused(InternalError)
  }

  function AfterStore(w: World, r: RequestId, response: Response, ack: bool): World
    requires r in w.requests
  {
    SetPc(w.(db := StoreResponse(w.db, w.requests[r].key, response)), r,
          Replied(if ack then response else Refused(InternalError)))
  }

  function Act(w: World, s: Step): World
    requires Enabled(w, s)
  {
    match s
    case RegisterEndpoint(e, b) => w.(db := w.db.(endpoints := w.db.endpoints[e := Endpoint(b, w.now)]))
    case CreateInvoice(i, b, lines, ids, at) => w.(db := InsertInvoice(w.db, b, i, lines, ids, w.now))
    case Transition(i, b, action) => w.(db := MoveInvoice(w.db, i, action.Target()))
    case Dispatch(deliveries) => w.(db := w.db.(deliveries := deliveries))
    case Arrive(r, k, i, card) => w.(requests := w.requests[r := Request(k, i, card, false, Reserving(Polling(0)))])
    case SelectKey(r) =>
      var q := w.requests[r];
      SetPc(w, r, PcAfter(AfterSelect(KeyLookup(w.db, q.key), q.Hash(), q.pc.at.round)))
    case InsertKey(r, ack) => AfterInsertKey(w, r, w.requests[r].pc.at.round, ack)
    case Claim(r, a, ack) => AfterClaim(w, r, a, ack)
    case FetchAndSpawn(r) => AfterFetch(w, r, w.requests[r].pc.attempt)
    case Call(r) => AfterCall(w, r)
    case Answer(r, outcome) => AfterAnswer(w, r, outcome)
    case ListEndpoints(r) =>
      var listed := EndpointsOf(w.db, w.db.invoices[w.tasks[r].invoice].business);
      SetTask(w, r, Listed(w.tasks[r].pc.outcome, listed, w.now))
    case Settle(r, ids, ack) => AfterSettle(w, r, ids, ack)
    case SettleFails(r) => SetTask(w, r, Done(Err(InternalError)))
    case Join(r) => SetPc(w, r, Storing(ResponseOfTask(w.tasks[r])))
    case TimeOut(r) => SetPc(w, r, Storing(Accepted(w.requests[r].pc.attempt, w.requests[r].invoice)))
    case Store(r, ack) => AfterStore(w, r, w.requests[r].pc.response, ack)
    case DbError(r) => SetPc(w, r, PcAfterDbError(w.requests[r].pc))
    case KillRequest(r) => SetPc(w, r, Killed)
    case KillTask(r) => SetTask(w, r, Dead)
  }

  function Tick(w: World): World {
    w.(now := w.now + 1)
  }

  function Next(w: World, s: Step): World
    requires Enabled(w, s)
  {
    Tick(Act(w, s))
  }

  /** The run that takes these steps leads from `w` to `end`. */
  ghost predicate Runs(w: World, steps: seq<Step>, end: World)
    decreases |steps|
  {
    if steps == [] then end == w
    else Enabled(w, steps[0]) && Runs(Next(w, steps[0]), steps[1..], end)
  }

  ghost predicate Reachable(w: World) {
    exists steps :: Runs(START, steps, w)
  }

  /** Runs compose. */
  lemma {:induction false} RunsCompose(w: World, first: seq<Step>, middle: World, second: seq<Step>, end: World)
    requires Runs(w, first, middle) && Runs(middle, second, end)
    ensures Runs(w, first + second, end)
    decreases |first|
  {
    if first == [] {
      assert first + second == second;
    } else {
      RunsCompose(Next(w, first[0]), first[1..], middle, second, end);
      assert (first + second)[1..] == first[1..] + second;
    }
  }
}
