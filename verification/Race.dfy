/** N payments with distinct keys race for one open invoice while any other traffic
    goes on, faults included. Without faults of their own and without a transition
    of the invoice, exactly one of them pays it and the others are answered 409. */
module Race {
  import opened Domain
  import opened Transactions
  import opened Idempotency
  import opened Protocol
  import opened Frames
  import opened Evolution
  import opened Invariant
  import opened Preservation
  import opened Orphans
  import opened Answers

  /** The racers, the invoice they race for and the attempts it had before. */
  datatype Field = Field(racers: set<RequestId>, invoice: InvoiceId, before: map<AttemptId, Attempt>)

  predicate Racer(w: World, f: Field, r: RequestId) {
    && r in w.requests && w.requests[r].invoice == f.invoice
    && f.invoice in w.db.invoices && w.requests[r].key.business == w.db.invoices[f.invoice].business
  }

  predicate KeysApart(w: World, r: RequestId, x: RequestId)
    requires r in w.requests && x in w.requests
  {
    r == x || w.requests[r].key != w.requests[x].key
  }

  /** What holds of the field throughout: the racers pay the same invoice of their
      own business under keys that nobody else uses; nobody else is about to claim. */
  ghost predicate Lined(w: World, f: Field) {
    && f.invoice in w.db.invoices
    && (forall a :: a in f.before ==> !f.before[a].Live())
    && (forall r :: r in f.racers ==> Racer(w, f, r))
    && (forall r, x :: r in f.racers && x in w.requests ==> KeysApart(w, r, x))
    && (forall x :: x in w.requests && x !in f.racers ==> Bystander(w.requests[x], f.invoice))
  }

  predicate Bystander(q: Request, i: InvoiceId) {
    q.invoice != i || (!q.pc.Reserving? && !q.pc.Claiming?)
  }

  /** A racer that has not claimed. */
  predicate Racing(w: World, q: Request) {
    || (q.pc == Reserving(Polling(0)) && q.key !in w.db.keys)
    || (q.pc == Reserving(Inserting(0)) && q.key !in w.db.keys)
    || q.pc.Claiming?
  }

  predicate LosingCode(code: ErrorCode) {
    code.PaymentAttemptInProgress? || code.InvoiceAlreadyPaid?
  }

  predicate LostOrRacing(w: World, q: Request) {
    || Racing(w, q)
    || (q.pc.Storing? && q.pc.response.Refused? && LosingCode(q.pc.response.code))
    || (q.pc.Replied? && q.pc.response.Refused? && LosingCode(q.pc.response.code))
  }

  predicate WinningResponse(response: Response, a: AttemptId) {
    response.Names() == Some(a)
  }

  predicate Winning(w: World, r: RequestId, a: AttemptId)
    requires r in w.requests
  {
    match w.requests[r].pc
    case Fetching(x) => x == a
    case Waiting(x) => x == a && r in w.tasks
    case Storing(response) => WinningResponse(response, a) && r in w.tasks
    case Replied(response) => WinningResponse(response, a) && r in w.tasks
    case _ => false
  }

  predicate WinningTask(t: Task) {
    match t.pc
    case Settling(outcome) => outcome.Succeeded?
    case Listed(outcome, _, _) => outcome.Succeeded?
    case Done(result) => result.Ok?
    case Dead => false
    case _ => true
  }

  /** Nobody has claimed yet. */
  ghost predicate NobodyAhead(w: World, f: Field)
    requires Lined(w, f)
  {
    && AttemptsFor(w.db, f.invoice) == f.before
    && w.db.invoices[f.invoice].state.Open?
    && forall r :: r in f.racers ==> Racer(w, f, r) && Racing(w, w.requests[r])
  }

  /** `r` has claimed attempt `a`. */
  ghost predicate Ahead(w: World, f: Field, r: RequestId, a: AttemptId)
    requires Lined(w, f)
  {
    && r in f.racers && Racer(w, f, r) && a in w.db.attempts && a !in f.before
    && AttemptsFor(w.db, f.invoice) == f.before[a := w.db.attempts[a]]
    && a in w.origin && w.origin[a] == r
    && Winning(w, r, a)
    && (r in w.tasks ==> w.tasks[r].attempt == a && WinningTask(w.tasks[r]))
    && (if w.db.attempts[a].status.AttemptPending? then w.db.invoices[f.invoice].state.Open?
        else w.db.attempts[a].status.AttemptSucceeded? && w.db.invoices[f.invoice].state.Paid?)
    && forall x :: x in f.racers && x != r ==> Racer(w, f, x) && LostOrRacing(w, w.requests[x]) && x !in w.tasks
  }

  ghost predicate InRace(w: World, f: Field) {
    && Lined(w, f)
    && (NobodyAhead(w, f) || exists r, a :: Ahead(w, f, r, a))
  }

  /** Steps without a fault of a racer, a transition of the invoice, or a newcomer
      that reuses a racer's key or pays the invoice without joining the race.
      Everything else may happen. */
  predicate FairStep(w: World, s: Step, f: Field) {
    match s
    case Transition(i, _, _) => i != f.invoice
    case Arrive(_, k, i, _) => i != f.invoice && forall r :: r in f.racers && r in w.requests ==> w.requests[r].key != k
    case InsertKey(r, ack) => r in f.racers ==> ack
    case Claim(r, _, ack) => r in f.racers ==> ack
    case Settle(r, _, ack) => r in f.racers ==> ack
    case Store(r, ack) => r in f.racers ==> ack
    case Answer(r, outcome) => r in f.racers ==> outcome.Succeeded?
    case SettleFails(r) => r !in f.racers
    case DbError(r) => r !in f.racers
    case KillRequest(r) => r !in f.racers
    case KillTask(r) => r !in f.racers
    case _ => true
  }

  /** A payment of the invoice by its business under a new key joins the race, at any time. */
  predicate Joins(w: World, s: Step, f: Field) {
    && s.Arrive? && s.i == f.invoice
    && f.invoice in w.db.invoices && w.db.invoices[f.invoice].business == s.key.business
    && s.key !in w.db.keys && forall x :: x in w.requests ==> w.requests[x].key != s.key
  }

  function JoinedBy(w: World, s: Step, f: Field): Field {
    if Joins(w, s, f) then f.(racers := f.racers + {s.r}) else f
  }

  ghost predicate FairRun(w: World, steps: seq<Step>, f: Field)
    decreases |steps|
  {
    steps == []
    || (Enabled(w, steps[0]) && (Joins(w, steps[0], f) || FairStep(w, steps[0], f))
        && FairRun(Next(w, steps[0]), steps[1..], JoinedBy(w, steps[0], f)))
  }

  /** The field at the end of a run: those who were there, and those who have joined. */
  ghost function FieldAfter(w: World, steps: seq<Step>, f: Field): Field
    decreases |steps|
  {
    if steps == [] || !Enabled(w, steps[0]) then f
    else FieldAfter(Next(w, steps[0]), steps[1..], JoinedBy(w, steps[0], f))
  }

  /** Requests that are new between two states are bystanders with keys of their own. */
  ghost predicate FairNewcomers(w: World, w': World, f: Field)
    requires Lined(w, f)
  {
    forall x :: x in w'.requests && x !in w.requests ==>
      Bystander(w'.requests[x], f.invoice) && forall r :: r in f.racers ==>
          Racer(w, f, r) && w.requests[r].key != w'.requests[x].key
  }

  lemma NewcomersAreFair(w: World, s: Step, f: Field)
    requires Lined(w, f) && Enabled(w, s) && FairStep(w, s, f)
    ensures FairNewcomers(w, Next(w, s), f)
  {
    if OfHandler(s) {
      HandlerFrame(w, s);
    } else if OfTask(s) {
      TaskFrame(w, s);
    } else {
      TrafficFrame(w, s);
    }
  }

  lemma LinedEvolves(w: World, w': World, f: Field)
    requires Inv(w) && Lined(w, f) && Evolves(w, w') && FairNewcomers(w, w', f)
    ensures Lined(w', f)
  {
    assert EvolvesIn(w, w', InvoicePart) && EvolvesIn(w, w', RequestPart);
    forall x | x in w'.requests && x !in f.racers ensures Bystander(w'.requests[x], f.invoice) {
      if x in w.requests { HandlerFacts(w, x); }
    }
  }

  lemma StaysLined(w: World, s: Step, f: Field)
    requires Inv(w) && Lined(w, f) && Enabled(w, s) && FairStep(w, s, f)
    ensures Lined(Next(w, s), f)
  {
    StepKeeps(w, s);
    NewcomersAreFair(w, s, f);
    LinedEvolves(w, Next(w, s), f);
  }

  // ---- Steps of others ----

  /** The step leaves racer `x` where it is. */
  ghost predicate Untouched(w: World, w': World, x: RequestId)
    requires x in w.requests
  {
    && x in w'.requests && w'.requests[x] == w.requests[x]
    && (x in w'.tasks <==> x in w.tasks) && (x in w.tasks ==> w'.tasks[x] == w.tasks[x])
    && (w.requests[x].key !in w.db.keys ==> w.requests[x].key !in w'.db.keys)
  }

  /** The step leaves the attempts and the state of the invoice as they are. */
  ghost predicate InvoiceUntouched(w: World, w': World, f: Field)
    requires Lined(w, f)
  {
    && AttemptsFor(w'.db, f.invoice) == AttemptsFor(w.db, f.invoice)
    && f.invoice in w'.db.invoices && w'.db.invoices[f.invoice].state == w.db.invoices[f.invoice].state
    && Extends(w.origin, w'.origin)
  }

  ghost predicate Elsewhere(w: World, w': World, f: Field, except: set<RequestId>)
    requires Lined(w, f)
  {
    InvoiceUntouched(w, w', f) && forall x :: x in f.racers - except ==> Racer(w, f, x) && Untouched(w, w', x)
  }

  lemma ElsewhereKeeps(w: World, w': World, f: Field)
    requires InRace(w, f) && Lined(w', f) && Elsewhere(w, w', f, {})
    ensures InRace(w', f)
  {
    if NobodyAhead(w, f) {
      assert NobodyAhead(w', f);
    } else {
      var r, a :| Ahead(w, f, r, a);
      assert a in AttemptsFor(w.db, f.invoice);
      assert a in AttemptsFor(w'.db, f.invoice) && w'.db.attempts[a] == w.db.attempts[a];
      assert Ahead(w', f, r, a);
    }
  }

  /** A live attempt of the invoice was claimed by a racer. */
  lemma LiveIsOfARacer(w: World, f: Field, a: AttemptId)
    requires InRace(w, f) && a in w.db.attempts && w.db.attempts[a].invoice == f.invoice && w.db.attempts[a].Live()
    ensures a in w.origin && w.origin[a] in f.racers && Ahead(w, f, w.origin[a], a)
  {
    assert a in AttemptsFor(w.db, f.invoice);
    if !NobodyAhead(w, f) {
      var r, x :| Ahead(w, f, r, x);
      assert a == x;
    }
  }

  /** A handler's step leaves every other racer where it is. */
  lemma HandlerLeaves(w: World, s: Step, f: Field, x: RequestId)
    requires Lined(w, f) && Enabled(w, s) && OfHandler(s) && Lined(Next(w, s), f) && x in f.racers && x != s.r
    ensures Racer(w, f, x) && Untouched(w, Next(w, s), x)
  {
    HandlerFrame(w, s);
    if s.FetchAndSpawn? { SpawnFrame(w, s.r); }
    assert Racer(w, f, x) && Racer(Next(w, s), f, x) && KeysApart(Next(w, s), x, s.r);
  }

  lemma BystanderIsElsewhere(w: World, s: Step, f: Field)
    requires Inv(w) && InRace(w, f) && Enabled(w, s) && OfHandler(s) && s.r !in f.racers && Lined(Next(w, s), f)
    requires Extends(w.origin, Next(w, s).origin)
    ensures Elsewhere(w, Next(w, s), f, {})
  {
    var w' := Next(w, s);
    HandlerFrame(w, s);
    forall x | x in f.racers ensures Racer(w, f, x) && Untouched(w, w', x) { HandlerLeaves(w, s, f, x); }
    if s.Claim? {
      ClaimElsewhere(w, s.r, s.a, s.ack, f.invoice);
    }
  }

  lemma ClaimElsewhere(w: World, r: RequestId, a: AttemptId, ack: bool, i: InvoiceId)
    requires Enabled(w, Claim(r, a, ack)) && w.requests[r].invoice != i
    ensures AttemptsFor(Next(w, Claim(r, a, ack)).db, i) == AttemptsFor(w.db, i)
  {
  }

  lemma SettleElsewhere(w: World, r: RequestId, ids: map<DeliveryId, EndpointId>, ack: bool, i: InvoiceId)
    requires Inv(w) && Enabled(w, Settle(r, ids, ack)) && w.tasks[r].invoice != i && i in w.db.invoices
    ensures AttemptsFor(Next(w, Settle(r, ids, ack)).db, i) == AttemptsFor(w.db, i)
    ensures i in Next(w, Settle(r, ids, ack)).db.invoices
    ensures Next(w, Settle(r, ids, ack)).db.invoices[i] == w.db.invoices[i]
  {
    var t := w.tasks[r];
    SettleFindsPending(w, r);
    SettleAttemptElsewhere(w.db, t.invoice, t.attempt, t.pc.outcome, ids, w.now, i);
  }

  lemma SettleAttemptElsewhere(db: Db, j: InvoiceId, a: AttemptId, outcome: PspOutcome,
      ids: map<DeliveryId, EndpointId>, now: Time, i: InvoiceId)
    requires a in db.attempts && db.attempts[a].invoice == j && j in db.invoices && i in db.invoices && i != j
    ensures var db' := SettleAttempt(db, j, a, outcome, ids, now);
            AttemptsFor(db', i) == AttemptsFor(db, i) && i in db'.invoices && db'.invoices[i] == db.invoices[i]
  {
  }

  lemma BystandersTaskIsElsewhere(w: World, s: Step, f: Field)
    requires Inv(w) && InRace(w, f) && Enabled(w, s) && OfTask(s) && s.r !in f.racers
    ensures Elsewhere(w, Next(w, s), f, {})
  {
    TaskFrame(w, s);
    if s.Settle? {
      TaskFacts(w, s.r);
      if w.tasks[s.r].invoice == f.invoice { LiveIsOfARacer(w, f, w.tasks[s.r].attempt); }
      SettleElsewhere(w, s.r, s.ids, s.ack, f.invoice);
    } else {
      QuietFrame(w, s);
    }
    assert forall x :: x in f.racers ==> Racer(w, f, x) && Untouched(w, Next(w, s), x);
  }

  lemma TrafficIsElsewhere(w: World, s: Step, f: Field)
    requires InRace(w, f) && Enabled(w, s) && OfTraffic(s) && FairStep(w, s, f)
    ensures Elsewhere(w, Next(w, s), f, {})
  {
    TrafficFrame(w, s);
    assert forall x :: x in f.racers ==> Racer(w, f, x) && Untouched(w, Next(w, s), x);
  }

  // ---- Steps of the racers ----

  /** A racer that prepares its claim, is refused, or stores its refusal: everything else stays. */
  lemma RacerMoves(w: World, w': World, f: Field, r: RequestId)
    requires InRace(w, f) && Lined(w', f) && r in f.racers && Elsewhere(w, w', f, {r})
    requires r in w.requests && LostOrRacing(w, w.requests[r]) && r !in w.tasks
    requires r in w'.requests && r !in w'.tasks
    requires if NobodyAhead(w, f) then Racing(w', w'.requests[r]) else LostOrRacing(w', w'.requests[r])
    ensures InRace(w', f)
  {
    if NobodyAhead(w, f) {
      assert NobodyAhead(w', f);
    } else {
      var x, a :| Ahead(w, f, x, a);
      assert a in AttemptsFor(w.db, f.invoice);
      assert a in AttemptsFor(w'.db, f.invoice) && w'.db.attempts[a] == w.db.attempts[a];
      assert Ahead(w', f, x, a);
    }
  }

  lemma RacerHandlerFrame(w: World, s: Step, f: Field)
    requires Inv(w) && InRace(w, f) && Enabled(w, s) && OfHandler(s) && !s.Arrive? && s.r in f.racers
        && Lined(Next(w, s), f)
    ensures s.r in w.requests && RequestKeyOk(w, w.requests[s.r]) && HandlerOk(w, s.r)
    ensures !s.Claim? ==> Elsewhere(w, Next(w, s), f, {s.r})
    ensures forall x :: x in f.racers - {s.r} ==> Racer(w, f, x) && Untouched(w, Next(w, s), x)
    ensures !s.FetchAndSpawn? ==> Next(w, s).tasks == w.tasks
  {
    var w' := Next(w, s);
    HandlerFrame(w, s);
    HandlerFacts(w, s.r);
    forall x | x in f.racers - {s.r} ensures Racer(w, f, x) && Untouched(w, w', x) { HandlerLeaves(w, s, f, x); }
  }

  lemma NobodyAheadIsFree(w: World, f: Field)
    requires Lined(w, f) && NobodyAhead(w, f)
    ensures !HasPending(w.db, f.invoice)
  {
    forall x | x in w.db.attempts && w.db.attempts[x].invoice == f.invoice ensures !w.db.attempts[x].Live() {
      assert x in AttemptsFor(w.db, f.invoice);
    }
  }

  lemma FirstClaimInserts(w: World, f: Field, r: RequestId, a: AttemptId)
    requires Lined(w, f) && NobodyAhead(w, f) && Enabled(w, Claim(r, a, true)) && r in f.racers
    ensures var w' := Next(w, Claim(r, a, true));
            && w' == Tick(AfterInsertAttempt(w, r, a, Fetching(a))) && a !in f.before
            && AttemptsFor(w'.db, f.invoice) == f.before[a := w'.db.attempts[a]]
  {
    NobodyAheadIsFree(w, f);
    assert Racer(w, f, r);
    assert a !in AttemptsFor(w.db, f.invoice);
  }

  /** The first racer to claim is ahead. */
  lemma FirstClaimWins(w: World, f: Field, r: RequestId, a: AttemptId)
    requires Inv(w) && Lined(w, f) && NobodyAhead(w, f) && Enabled(w, Claim(r, a, true)) && r in f.racers
    requires Lined(Next(w, Claim(r, a, true)), f)
    ensures InRace(Next(w, Claim(r, a, true)), f)
  {
    var w' := Next(w, Claim(r, a, true));
    RacerHandlerFrame(w, Claim(r, a, true), f);
    FirstClaimInserts(w, f, r, a);
    forall x | x in f.racers && x != r ensures Racer(w', f, x) && LostOrRacing(w', w'.requests[x]) && x !in w'.tasks {
      assert Racer(w, f, x) && Untouched(w, w', x);
      HandlerFacts(w, x);
    }
    assert Racer(w', f, r);
    assert Ahead(w', f, r, a);
  }

  /** Every later claim is refused, because the attempt is pending or has paid the invoice. */
  lemma LaterClaimLoses(w: World, f: Field, r: RequestId, x: AttemptId, winner: RequestId, a: AttemptId)
    requires Lined(w, f) && Ahead(w, f, winner, a) && Enabled(w, Claim(r, x, true)) && r in f.racers
    ensures var w' := Next(w, Claim(r, x, true));
            && w'.db == w.db && w'.origin == w.origin
            && LostOrRacing(w', w'.requests[r])
  {
    assert Racer(w, f, r);
    assert a in AttemptsFor(w.db, f.invoice);
    assert w.db.attempts[a].status.AttemptPending? ==> HasPending(w.db, f.invoice);
  }

  /** What a racer without a claim can do besides claiming: look up or reserve its key, or store its refusal. */
  lemma LoserStep(w: World, s: Step, f: Field)
    requires Enabled(w, s) && OfHandler(s) && !s.Claim? && !s.Arrive? && FairStep(w, s, f) && s.r in f.racers
        && s.r in w.requests
    requires LostOrRacing(w, w.requests[s.r]) && RequestKeyOk(w, w.requests[s.r])
    ensures var w' := Next(w, s);
            s.r in w'.requests && LostOrRacing(w', w'.requests[s.r])
                && (Racing(w, w.requests[s.r]) ==> Racing(w', w'.requests[s.r])) && w'.tasks == w.tasks
  {
  }

  lemma LoserMoves(w: World, s: Step, f: Field)
    requires Inv(w) && InRace(w, f) && Enabled(w, s) && OfHandler(s) && FairStep(w, s, f) && Lined(Next(w, s), f)
    requires s.r in f.racers && s.r in w.requests && LostOrRacing(w, w.requests[s.r]) && s.r !in w.tasks
    ensures InRace(Next(w, s), f)
  {
    var w' := Next(w, s);
    RacerHandlerFrame(w, s, f);
    if !s.Claim? {
      LoserStep(w, s, f);
      RacerMoves(w, w', f, s.r);
    } else if NobodyAhead(w, f) {
      FirstClaimWins(w, f, s.r, s.a);
    } else {
      var winner, a :| Ahead(w, f, winner, a);
      LaterClaimLoses(w, f, s.r, s.a, winner, a);
      RacerMoves(w, w', f, s.r);
    }
  }

  /** The winner spawns its task, gets its result or times out, and replies. */
  lemma WinnerStep(w: World, s: Step, f: Field, a: AttemptId)
    requires Enabled(w, s) && OfHandler(s) && !s.Arrive? && FairStep(w, s, f) && s.r in f.racers && s.r in w.requests
        && Winning(w, s.r, a)
    requires w.requests[s.r].invoice in w.db.invoices && HandlerOk(w, s.r)
    requires s.r in w.tasks ==> TaskOk(w, s.r) && w.tasks[s.r].attempt == a && WinningTask(w.tasks[s.r])
    ensures var w' := Next(w, s);
            && s.r in w'.requests && Winning(w', s.r, a)
            && (s.r in w'.tasks ==> w'.tasks[s.r].attempt == a && WinningTask(w'.tasks[s.r]))
            && w'.tasks.Keys <= w.tasks.Keys + {s.r}
  {
  }

  lemma WinnerMoves(w: World, s: Step, f: Field, a: AttemptId)
    requires Inv(w) && Lined(w, f) && Enabled(w, s) && OfHandler(s) && FairStep(w, s, f) && Lined(Next(w, s), f)
    requires !s.Arrive? && !s.Claim? && s.r in f.racers && Ahead(w, f, s.r, a)
    ensures InRace(Next(w, s), f)
  {
    var w' := Next(w, s);
    RacerHandlerFrame(w, s, f);
    if s.r in w.tasks { TaskFacts(w, s.r); }
    WinnerStep(w, s, f, a);
    WinnerKeeps(w, w', f, s.r, a);
  }

  lemma WinnerKeeps(w: World, w': World, f: Field, r: RequestId, a: AttemptId)
    requires Lined(w, f) && Ahead(w, f, r, a) && Lined(w', f) && Elsewhere(w, w', f, {r})
    requires r in w'.requests && Winning(w', r, a) && w'.tasks.Keys <= w.tasks.Keys + {r}
    requires r in w'.tasks ==> w'.tasks[r].attempt == a && WinningTask(w'.tasks[r])
    ensures InRace(w', f)
  {
    assert a in AttemptsFor(w.db, f.invoice);
    assert a in AttemptsFor(w'.db, f.invoice) && w'.db.attempts[a] == w.db.attempts[a];
    OthersStillLose(w, w', f, r, a);
    assert Racer(w', f, r);
    assert Ahead(w', f, r, a);
  }

  /** The settlement of the winner's task changes the attempt and pays the invoice. */
  lemma WinnerSettles(w: World, f: Field, r: RequestId, ids: map<DeliveryId, EndpointId>, a: AttemptId)
    requires Inv(w) && Lined(w, f) && Ahead(w, f, r, a) && Enabled(w, Settle(r, ids, true)) && w.tasks[r].attempt == a
    ensures var w' := Next(w, Settle(r, ids, true));
            && a in w'.db.attempts && w'.db.attempts[a].status.AttemptSucceeded?
            && AttemptsFor(w'.db, f.invoice) == f.before[a := w'.db.attempts[a]]
            && f.invoice in w'.db.invoices && w'.db.invoices[f.invoice].state.Paid?
            && r in w'.tasks && w'.tasks[r].attempt == a && WinningTask(w'.tasks[r])
  {
    SettleFindsPending(w, r);
    assert a in AttemptsFor(w.db, f.invoice);
    SettlesOne(w.db, f.invoice, a, w.tasks[r].pc.outcome, ids, w.now);
  }

  lemma SettlesOne(db: Db, i: InvoiceId, a: AttemptId, outcome: PspOutcome, ids: map<DeliveryId, EndpointId>, now: Time)
    requires a in db.attempts && i in db.invoices && db.attempts[a].invoice == i
    ensures var db' := SettleAttempt(db, i, a, outcome, ids, now);
            AttemptsFor(db', i) == AttemptsFor(db, i)[a := db'.attempts[a]]
  {
  }

  /** Before it settles, the winner's task touches no table. */
  lemma WinnersTaskWorks(w: World, s: Step, f: Field)
    requires Enabled(w, s) && OfTask(s) && !s.Settle? && FairStep(w, s, f) && s.r in f.racers
        && WinningTask(w.tasks[s.r])
    ensures var w' := Next(w, s);
            && w'.db == w.db && s.r in w'.tasks && w'.tasks[s.r].attempt == w.tasks[s.r].attempt
            && WinningTask(w'.tasks[s.r])
  {
  }

  /** The winner's task charges, succeeds and settles. */
  lemma WinnersTaskMoves(w: World, s: Step, f: Field)
    requires Inv(w) && InRace(w, f) && Enabled(w, s) && OfTask(s) && FairStep(w, s, f) && Lined(Next(w, s), f)
        && s.r in f.racers
    ensures InRace(Next(w, s), f)
  {
    var w', a := Next(w, s), w.tasks[s.r].attempt;
    TaskFacts(w, s.r);
    TaskFrame(w, s);
    LiveIsOfARacer(w, f, a);
    if s.Settle? {
      WinnerSettles(w, f, s.r, s.ids, a);
    } else {
      WinnersTaskWorks(w, s, f);
    }
    OthersStillLose(w, w', f, s.r, a);
    assert Ahead(w', f, s.r, a);
  }

  /** A step of the winner leaves the losers where they are. */
  lemma OthersStillLose(w: World, w': World, f: Field, r: RequestId, a: AttemptId)
    requires Lined(w, f) && Ahead(w, f, r, a) && Lined(w', f)
    requires forall x :: x in f.racers - {r} ==> Racer(w, f, x) && x in w'.requests && w'.requests[x] == w.requests[x]
    requires w'.tasks.Keys <= w.tasks.Keys + {r}
    requires forall x :: x in f.racers - {r} && w.requests[x].key !in w.db.keys ==> w.requests[x].key !in w'.db.keys
    ensures forall x :: x in f.racers && x != r ==>
        Racer(w', f, x) && LostOrRacing(w', w'.requests[x]) && x !in w'.tasks
  {
  }

  // ---- The race ----

  lemma StepInRace(w: World, s: Step, f: Field)
    requires Inv(w) && InRace(w, f) && Enabled(w, s) && FairStep(w, s, f)
    ensures InRace(Next(w, s), f)
  {
    StaysLined(w, s, f);
    if OfTraffic(s) {
      TrafficIsElsewhere(w, s, f);
      ElsewhereKeeps(w, Next(w, s), f);
    } else if OfTask(s) && s.r !in f.racers {
      BystandersTaskIsElsewhere(w, s, f);
      ElsewhereKeeps(w, Next(w, s), f);
    } else if OfTask(s) {
      WinnersTaskMoves(w, s, f);
    } else if s.r !in f.racers {
      assert Extends(w.origin, Next(w, s).origin) by {
        StepKeeps(w, s);
        assert EvolvesIn(w, Next(w, s), HistoryPart);
      }
      BystanderIsElsewhere(w, s, f);
      ElsewhereKeeps(w, Next(w, s), f);
    } else {
      RacerStepInRace(w, s, f);
    }
  }

  lemma RacerStepInRace(w: World, s: Step, f: Field)
    requires Inv(w) && InRace(w, f) && Enabled(w, s) && FairStep(w, s, f) && OfHandler(s) && s.r in f.racers
        && Lined(Next(w, s), f)
    ensures InRace(Next(w, s), f)
  {
    assert Racer(w, f, s.r);
    if a :| Ahead(w, f, s.r, a) {
      WinnerHasClaimed(w, s, f, a);
      WinnerMoves(w, s, f, a);
    } else {
      NotAheadIsLosing(w, f, s.r);
      LoserMoves(w, s, f);
    }
  }

  lemma WinnerHasClaimed(w: World, s: Step, f: Field, a: AttemptId)
    requires Lined(w, f) && OfHandler(s) && Ahead(w, f, s.r, a) && Enabled(w, s)
    ensures !s.Arrive? && !s.Claim?
  {
  }

  lemma NotAheadIsLosing(w: World, f: Field, r: RequestId)
    requires Inv(w) && InRace(w, f) && r in f.racers && forall a :: !Ahead(w, f, r, a)
    ensures r in w.requests && LostOrRacing(w, w.requests[r]) && r !in w.tasks
  {
    assert Racer(w, f, r);
    if NobodyAhead(w, f) {
      HandlerFacts(w, r);
    }
  }

  lemma {:induction false} RunInRace(w: World, steps: seq<Step>, w': World, f: Field)
    requires Inv(w) && InRace(w, f) && Runs(w, steps, w') && FairRun(w, steps, f)
    ensures Inv(w') && InRace(w', FieldAfter(w, steps, f)) && f.racers <= FieldAfter(w, steps, f).racers
    ensures FieldAfter(w, steps, f).invoice == f.invoice && FieldAfter(w, steps, f).before == f.before
    decreases |steps|
  {
    if steps != [] {
      StepKeeps(w, steps[0]);
      if Joins(w, steps[0], f) {
        ArrivalJoins(w, steps[0], f);
      } else {
        StepInRace(w, steps[0], f);
      }
      RunInRace(Next(w, steps[0]), steps[1..], w', JoinedBy(w, steps[0], f));
    }
  }

  /** A newcomer is a racer like the others, even if somebody has already won. */
  lemma ArrivalJoins(w: World, s: Step, f: Field)
    requires Inv(w) && InRace(w, f) && Enabled(w, s) && Joins(w, s, f)
    ensures InRace(Next(w, s), JoinedBy(w, s, f))
  {
    var w', g := Next(w, s), JoinedBy(w, s, f);
    ArrivalIsLined(w, s, f);
    assert s.r !in w.tasks by {
      if s.r in w.tasks { TaskFacts(w, s.r); }
    }
    if NobodyAhead(w, f) {
      assert NobodyAhead(w', g);
    } else {
      var winner, a :| Ahead(w, f, winner, a);
      assert Ahead(w', g, winner, a);
    }
  }

  lemma ArrivalIsLined(w: World, s: Step, f: Field)
    requires Lined(w, f) && Enabled(w, s) && Joins(w, s, f)
    ensures Lined(Next(w, s), JoinedBy(w, s, f))
  {
    var w', g := Next(w, s), JoinedBy(w, s, f);
    forall r | r in g.racers ensures Racer(w', g, r) {
      assert r in f.racers ==> Racer(w, f, r);
    }
    forall r, x | r in g.racers && x in w'.requests ensures KeysApart(w', r, x) {
      assert r in f.racers && x in w.requests ==> Racer(w, f, r) && KeysApart(w, r, x);
    }
  }

  /** The invoice is open without a live attempt, and the racers that are there, if
      any, have just arrived. */
  ghost predicate AtTheStart(w: World, f: Field) {
    && Lined(w, f)
    && AttemptsFor(w.db, f.invoice) == f.before
    && w.db.invoices[f.invoice].state.Open?
    && forall r :: r in f.racers ==>
        Racer(w, f, r) && w.requests[r].pc == Reserving(Polling(0)) && w.requests[r].key !in w.db.keys
  }

  /** Every racer has its reply, and no task of a racer is still running. */
  ghost predicate Finished(w: World, f: Field) {
    forall r :: r in f.racers ==>
        r in w.requests && w.requests[r].pc.Replied? && (r in w.tasks ==> !w.tasks[r].Active())
  }

  function Status(w: World, r: RequestId): nat
    requires r in w.requests && w.requests[r].pc.Replied?
  {
    w.requests[r].pc.response.HttpStatus()
  }

  /** Every complete fair run with N >= 1 racers, whenever each of them has arrived,
      creates exactly one attempt, which succeeds and pays the invoice; its request is
      answered 202 if its wait timed out and 200 if not, and all N - 1 others 409. */
  lemma ExactlyOnePays(w: World, steps: seq<Step>, w': World, f: Field) returns (winner: RequestId, a: AttemptId)
    requires Reachable(w) && AtTheStart(w, f) && Runs(w, steps, w') && FairRun(w, steps, f)
    requires FieldAfter(w, steps, f).racers != {} && Finished(w', FieldAfter(w, steps, f))
    ensures var racers := FieldAfter(w, steps, f).racers;
            && winner in racers && f.racers <= racers
            && (set r | r in racers && Status(w', r) == 409) == racers - {winner}
            && |racers - {winner}| == |racers| - 1
    ensures a !in f.before && a in w'.db.attempts && a in w'.origin && w'.origin[a] == winner
    ensures AttemptsFor(w'.db, f.invoice) == f.before[a := w'.db.attempts[a]]
        && w'.db.attempts[a].status.AttemptSucceeded?
    ensures f.invoice in w'.db.invoices && w'.db.invoices[f.invoice].state.Paid?
    ensures w'.requests[winner].pc.response.Names() == Some(a)
    ensures Status(w', winner) == if TimeOut(winner) in steps then 202 else 200
  {
    ReachableIsOk(w);
    assert NobodyAhead(w, f);
    RunInRace(w, steps, w', f);
    var g := FieldAfter(w, steps, f);
    winner, a := FinishedHasWinner(w', g);
    TaskFacts(w', winner);
    FinalResult(w', g, winner, a);
    if TimeOut(winner) in steps {
      LateWinner(w, steps, w', f, winner);
    } else {
      InTimeWinner(w, steps, w', f, winner, a);
    }
  }

  lemma LateWinner(w: World, steps: seq<Step>, w': World, f: Field, winner: RequestId)
    requires Runs(w, steps, w') && FairRun(w, steps, f) && winner in FieldAfter(w, steps, f).racers
    requires TimeOut(winner) in steps && winner in w'.requests && w'.requests[winner].pc.Replied?
    ensures w'.requests[winner].pc.response.Accepted?
  {
    FairToRacers(w, steps, f, winner);
    TimeOutAnswers(w, steps, w', winner);
  }

  lemma InTimeWinner(w: World, steps: seq<Step>, w': World, f: Field, winner: RequestId, a: AttemptId)
    requires Inv(w) && Runs(w, steps, w') && TimeOut(winner) !in steps
    requires AttemptsFor(w.db, f.invoice) == f.before && a !in f.before
    requires a in w'.db.attempts && w'.db.attempts[a].invoice == f.invoice
    requires a in w'.origin && w'.origin[a] == winner
    requires winner in w'.requests && w'.requests[winner].pc.Replied?
        && w'.requests[winner].pc.response.Names() == Some(a)
    ensures w'.requests[winner].pc.response.Settled?
  {
    var response := w'.requests[winner].pc.response;
    if response.Accepted? {
      NotGivenBefore(w, steps, w', f, a, response);
      assert GivenBy(w', winner, response);
      GivenAlong(w, steps, w', response);
    }
  }

  /** A newcomer that does not join on arrival never does. */
  lemma {:induction false} StrangersStay(w: World, steps: seq<Step>, f: Field, r: RequestId)
    requires FairRun(w, steps, f) && r in w.requests && r !in f.racers
    ensures r !in FieldAfter(w, steps, f).racers
    decreases |steps|
  {
    if steps != [] {
      var s := steps[0];
      if OfHandler(s) && s.r == r {
        HandlerFrame(w, s);
      } else {
        RequestStands(w, s, r);
      }
      StrangersStay(Next(w, s), steps[1..], JoinedBy(w, s, f), r);
    }
  }

  /** No handler of a racer meets a fault in a fair run. */
  lemma {:induction false} FairToRacers(w: World, steps: seq<Step>, f: Field, r: RequestId)
    requires FairRun(w, steps, f) && r in FieldAfter(w, steps, f).racers
    ensures forall n :: 0 <= n < |steps| ==> !HandlerFaultOf(steps[n], r)
    decreases |steps|
  {
    if steps != [] {
      if r in w.requests && r !in f.racers { StrangersStay(w, steps, f, r); }
      assert !HandlerFaultOf(steps[0], r);
      FairToRacers(Next(w, steps[0]), steps[1..], JoinedBy(w, steps[0], f), r);
    }
  }

  /** Nobody speaks of an attempt before it is claimed. */
  lemma NotGivenBefore(w: World, steps: seq<Step>, w': World, f: Field, a: AttemptId, response: Response)
    requires Inv(w) && Runs(w, steps, w') && AttemptsFor(w.db, f.invoice) == f.before && a !in f.before
    requires a in w'.db.attempts && w'.db.attempts[a].invoice == f.invoice && response.Names() == Some(a)
    ensures !Given(w, response)
  {
    RunKeeps(w, steps, w');
    assert a !in w.db.attempts by {
      assert EvolvesIn(w, w', AttemptPart);
      assert a in w.db.attempts ==> a in AttemptsFor(w.db, f.invoice);
    }
    assert a !in w.origin by {
      assert Holds(w, Origins);
    }
    assert Holds(w, Responses);
    forall r ensures !GivenBy(w, r, response) {
      if GivenBy(w, r, response) { HandlerFacts(w, r); }
    }
    forall k | k in w.db.keys ensures w.db.keys[k].response != Some(response) {
      assert w.db.keys[k].response.Some? ==> ResponseOk(w, k, w.db.keys[k].response.value);
    }
  }

  lemma FinishedHasWinner(w: World, f: Field) returns (winner: RequestId, a: AttemptId)
    requires InRace(w, f) && f.racers != {} && Finished(w, f)
    ensures Ahead(w, f, winner, a) && winner in w.tasks
  {
    var r :| r in f.racers;
    assert Racer(w, f, r);
    winner, a :| Ahead(w, f, winner, a);
  }

  lemma FinalResult(w: World, f: Field, winner: RequestId, a: AttemptId)
    requires Lined(w, f) && Ahead(w, f, winner, a) && Finished(w, f) && winner in w.tasks && TaskOk(w, winner)
    ensures w.db.attempts[a].status.AttemptSucceeded? && w.db.invoices[f.invoice].state.Paid?
    ensures w.requests[winner].pc.response.Names() == Some(a) && Status(w, winner) in {200, 202}
    ensures (set r | r in f.racers && Status(w, r) == 409) == f.racers - {winner}
  {
    forall x | x in f.racers && x != winner ensures Status(w, x) == 409 {
      assert Racer(w, f, x) && LostOrRacing(w, w.requests[x]);
    }
  }
}
