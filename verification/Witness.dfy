/** A concrete run against the comment at payments.rs:299-302 and against counting
    events by commit time: the invoice is voided while its payment is in flight. */
module Witness {
  import opened Domain
  import opened Totals
  import opened Transactions
  import opened Idempotency
  import opened Protocol
  import opened Preservation
  import opened Orphans
  import opened OutboxGuarantees

  const LINES := [LineItem(1, 500)]
  const KEY := KeyId(0, "key")
  const HASH := RequestHash(0, "tok_success")
  const BODY := PayResult(0, 0, AttemptSucceeded, None, Some("ref"))

  /** One invoice of business 0 in some state, and its endpoint 0, registered at time 1. */
  function Shop(state: InvoiceState): Db {
    Db(map[0 := Invoice(0, state, LINES, 500)], map[], map[], map[0 := Endpoint(0, 1)], map[])
  }

  /** The one request of the run, and its task. */
  function Payer(proceeded: bool, pc: RequestPc): map<RequestId, Request> {
    map[0 := Request(KEY, 0, "tok_success", proceeded, pc)]
  }

  function Charge(called: bool, answer: Option<PspOutcome>, pc: TaskPc): map<RequestId, Task> {
    map[0 := Task(0, 0, 500, "tok_success", called, answer, pc)]
  }

  const SUCCESS := Succeeded("ref")
  const PENDING := Attempt(0, "tok_success", AttemptPending, None, None)
  const CALLS := [PspCall(0, 0, 500, "tok_success")]
  const ANSWERS := [PspAnswer(0, 0, SUCCESS)]

  function Keyed(state: InvoiceState): Db {
    Shop(state).(keys := map[KEY := KeyRow(HASH, None)])
  }

  function Claimed(state: InvoiceState): Db {
    Keyed(state).(attempts := map[0 := PENDING])
  }

  /** Before the request comes: only tables, and the time. */
  function Quiet(db: Db, now: Time): World {
    World(db, map[], map[], map[], [], [], map[], now)
  }

  function Before(db: Db, proceeded: bool, pc: RequestPc, now: Time): World {
    World(db, Payer(proceeded, pc), map[], map[], [], [], map[], now)
  }

  function During(db: Db, tasks: map<RequestId, Task>, calls: seq<PspCall>, answers: seq<PspAnswer>, now: Time): World {
    World(db, Payer(true, Waiting(0)), tasks, map[0 := 0], calls, answers, map[], now)
  }

  const CREATED := EMPTY_DB.(invoices := map[0 := Invoice(0, Draft, LINES, 500)])

  lemma Advance(w: World, s: Step, w': World)
    requires Reachable(w) && Enabled(w, s) && Next(w, s) == w'
    ensures Reachable(w')
  {
    ReachableStep(w, s);
  }

  lemma Create()
    ensures var s := CreateInvoice(0, 0, LINES, map[], 0);
            Enabled(START, s) && Next(START, s) == Quiet(CREATED, 1)
  {
    assert LINES[..0] == [] && WrappingTotal(LINES) == 500 && LineAmount(LINES[0]) == 500;
  }

  lemma Register()
    ensures var s := RegisterEndpoint(0, 0);
            Enabled(Quiet(CREATED, 1), s) && Next(Quiet(CREATED, 1), s) == Quiet(Shop(Draft), 2)
  {
  }

  lemma Finalize()
    ensures var s := Transition(0, 0, FinalizeInvoice);
            Enabled(Quiet(Shop(Draft), 2), s) && Next(Quiet(Shop(Draft), 2), s) == Quiet(Shop(Open), 3)
  {
  }

  lemma Reserve()
    ensures var w := Quiet(Shop(Open), 3);
            var s := Arrive(0, KEY, 0, "tok_success");
            Enabled(w, s) && Next(w, s) == Before(Shop(Open), false, Reserving(Polling(0)), 4)
    ensures var w := Before(Shop(Open), false, Reserving(Polling(0)), 4);
            Enabled(w, SelectKey(0)) && Next(w, SelectKey(0)) == Before(Shop(Open), false, Reserving(Inserting(0)), 5)
  {
  }

  lemma Insert()
    ensures var w := Before(Shop(Open), false, Reserving(Inserting(0)), 5);
            Enabled(w, InsertKey(0, true)) && Next(w, InsertKey(0, true)) == Before(Keyed(Open), true, Claiming, 6)
  {
  }

  const FETCHING := World(Claimed(Open), Payer(true, Fetching(0)), map[], map[0 := 0], [], [], map[], 7)

  lemma ClaimIt()
    ensures var w := Before(Keyed(Open), true, Claiming, 6);
            Enabled(w, Claim(0, 0, true)) && Next(w, Claim(0, 0, true)) == FETCHING
  {
  }

  lemma Spawn()
    ensures Enabled(FETCHING, FetchAndSpawn(0))
      && Next(FETCHING, FetchAndSpawn(0)) == During(Claimed(Open), Charge(false, None, Ready), [], [], 8)
  {
  }

  lemma CallIt()
    ensures var w := During(Claimed(Open), Charge(false, None, Ready), [], [], 8);
            Enabled(w, Call(0)) && Next(w, Call(0)) == During(Claimed(Open), Charge(true, None, Charging), CALLS, [], 9)
  {
  }

  lemma AnswerIt()
    ensures var w := During(Claimed(Open), Charge(true, None, Charging), CALLS, [], 9);
            var s := Answer(0, SUCCESS);
            Enabled(w, s) && Next(w, s) == During(Claimed(Open), Charge(true, Some(SUCCESS), Settling(SUCCESS)),
                CALLS, ANSWERS, 10)
  {
  }

  lemma VoidIt()
    ensures var w := During(Claimed(Open), Charge(true, Some(SUCCESS), Settling(SUCCESS)), CALLS, ANSWERS, 10);
            var s := Transition(0, 0, VoidInvoice);
            Enabled(w, s) && Next(w, s) == During(Claimed(Void), Charge(true, Some(SUCCESS), Settling(SUCCESS)),
                CALLS, ANSWERS, 11)
  {
  }

  const LISTED := Charge(true, Some(SUCCESS), Listed(SUCCESS, {0}, 11))

  lemma ListThem()
    ensures var w := During(Claimed(Void), Charge(true, Some(SUCCESS), Settling(SUCCESS)), CALLS, ANSWERS, 11);
            Enabled(w, ListEndpoints(0)) && Next(w, ListEndpoints(0)) ==
                During(Claimed(Void), LISTED, CALLS, ANSWERS, 12)
  {
    assert EndpointsOf(Claimed(Void), 0) == {0};
  }

  const LATE := Claimed(Void).(endpoints := map[0 := Endpoint(0, 1), 1 := Endpoint(0, 12)])

  lemma RegisterLate()
    ensures var w := During(Claimed(Void), LISTED, CALLS, ANSWERS, 12);
            var s := RegisterEndpoint(1, 0);
            Enabled(w, s) && Next(w, s) == During(LATE, LISTED, CALLS, ANSWERS, 13)
  {
  }

  const IDS: map<DeliveryId, EndpointId> := map[0 := 0]

  lemma SettleIt(w: World)
    requires w == During(LATE, LISTED, CALLS, ANSWERS, 13)
    ensures var s := Settle(0, IDS, true);
            && Enabled(w, s)
            && Next(w, s).db.invoices == map[0 := Invoice(0, Void, LINES, 500)]
            && Next(w, s).db.attempts == map[0 := Attempt(0, "tok_success", AttemptSucceeded, None, Some("ref"))]
            && Next(w, s).db.endpoints == LATE.endpoints
            && Next(w, s).db.deliveries == map[0 := NewDelivery(Letter(0, 0, InvoicePaid, AttemptPayload(BODY)), 13)]
  {
    assert 0 in IDS && IDS[0] == 0;
  }

  lemma SettledLateIsReachable() returns (w: World)
    ensures Reachable(w) && w.db.invoices == map[0 := Invoice(0, Void, LINES, 500)]
    ensures w.db.attempts == map[0 := Attempt(0, "tok_success", AttemptSucceeded, None, Some("ref"))]
    ensures w.db.endpoints == LATE.endpoints
    ensures w.db.deliveries == map[0 := NewDelivery(Letter(0, 0, InvoicePaid, AttemptPayload(BODY)), 13)]
  {
    FetchingIsReachable();
    SuccessIsReachable();
    var last := LateListingIsReachable();
    SettleIt(last);
    ReachableStep(last, Settle(0, IDS, true));
    w := Next(last, Settle(0, IDS, true));
  }

  /** A void invoice with a succeeded attempt, announced as `invoice.paid`; and an
      endpoint that was registered before that commit and never hears of it. */
  lemma PaidButVoid() returns (w: World)
    ensures Reachable(w) && w.db.invoices == map[0 := Invoice(0, Void, LINES, 500)]
    ensures w.db.attempts == map[0 := Attempt(0, "tok_success", AttemptSucceeded, None, Some("ref"))]
    ensures w.db.endpoints.Keys == {0, 1} && w.db.endpoints[1].business == 0
    ensures w.db.deliveries.Keys == {0} && w.db.deliveries[0].letter == Letter(0, 0, InvoicePaid, AttemptPayload(BODY))
    ensures RowsFor(w.db, 1, 0) == {}
  {
    w := SettledLateIsReachable();
  }

  lemma OpenShopIsReachable()
    ensures Reachable(Quiet(Shop(Open), 3))
  {
    assert Runs(START, [], START);
    Create();
    Advance(START, CreateInvoice(0, 0, LINES, map[], 0), Quiet(CREATED, 1));
    Register();
    Advance(Quiet(CREATED, 1), RegisterEndpoint(0, 0), Quiet(Shop(Draft), 2));
    Finalize();
    Advance(Quiet(Shop(Draft), 2), Transition(0, 0, FinalizeInvoice), Quiet(Shop(Open), 3));
  }

  lemma FetchingIsReachable()
    ensures Reachable(FETCHING)
  {
    OpenShopIsReachable();
    Reserve();
    Advance(Quiet(Shop(Open), 3), Arrive(0, KEY, 0, "tok_success"),
        Before(Shop(Open), false, Reserving(Polling(0)), 4));
    Advance(Before(Shop(Open), false, Reserving(Polling(0)), 4), SelectKey(0),
        Before(Shop(Open), false, Reserving(Inserting(0)), 5));
    Insert();
    Advance(Before(Shop(Open), false, Reserving(Inserting(0)), 5), InsertKey(0, true),
        Before(Keyed(Open), true, Claiming, 6));
    ClaimIt();
    Advance(Before(Keyed(Open), true, Claiming, 6), Claim(0, 0, true), FETCHING);
  }

  /** The PSP has answered, and nothing is settled. */
  const ANSWERED := During(Claimed(Open), Charge(true, Some(SUCCESS), Settling(SUCCESS)), CALLS, ANSWERS, 10)

  lemma SuccessIsReachable()
    requires Reachable(FETCHING)
    ensures Reachable(ANSWERED)
  {
    Spawn();
    Advance(FETCHING, FetchAndSpawn(0), During(Claimed(Open), Charge(false, None, Ready), [], [], 8));
    CallIt();
    Advance(During(Claimed(Open), Charge(false, None, Ready), [], [], 8), Call(0),
        During(Claimed(Open), Charge(true, None, Charging), CALLS, [], 9));
    AnswerIt();
    Advance(During(Claimed(Open), Charge(true, None, Charging), CALLS, [], 9), Answer(0, SUCCESS),
            ANSWERED);
  }

  lemma LateListingIsReachable() returns (w: World)
    requires Reachable(ANSWERED)
    ensures Reachable(w) && w == During(LATE, LISTED, CALLS, ANSWERS, 13)
  {
    VoidIt();
    Advance(ANSWERED, Transition(0, 0, VoidInvoice),
            During(Claimed(Void), Charge(true, Some(SUCCESS), Settling(SUCCESS)), CALLS, ANSWERS, 11));
    ListThem();
    Advance(During(Claimed(Void), Charge(true, Some(SUCCESS), Settling(SUCCESS)), CALLS, ANSWERS, 11), ListEndpoints(0),
            During(Claimed(Void), LISTED, CALLS, ANSWERS, 12));
    RegisterLate();
    w := During(LATE, LISTED, CALLS, ANSWERS, 13);
    Advance(During(Claimed(Void), LISTED, CALLS, ANSWERS, 12), RegisterEndpoint(1, 0), w);
  }

  /** The card is charged, the service has seen it, and dies: the attempt is pending
      for ever on an open invoice. */
  lemma ChargedButOrphaned() returns (w: World)
    ensures Reachable(w) && Orphaned(w, 0) && w.answers == [PspAnswer(0, 0, Succeeded("ref"))]
    ensures w.db.attempts[0].invoice == 0 && w.db.invoices == map[0 := Invoice(0, Open, LINES, 500)]
  {
    FetchingIsReachable();
    SuccessIsReachable();
    CrashOrphans(ANSWERED, 0);
    ReachableStep(ANSWERED, KillTask(0));
    w := Next(ANSWERED, KillTask(0));
  }
}
