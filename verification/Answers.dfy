/** What a client of POST /pay is answered: what each statement of the handler makes
    of the rows it finds, and what follows for the replies of whole runs. */
module Answers {
  import opened Domain
  import opened Transactions
  import opened Idempotency
  import opened Protocol
  import opened Frames
  import opened Evolution
  import opened Invariant
  import opened Preservation

  // ---- The reservation ----

  /** The SELECT of round `n`: a free key is to be inserted, another body is refused
      with 422, a stored response is replayed, and an unfinished one is waited for,
      with 409 after the fifteenth look. Nothing else changes. */
  lemma SelectAnswers(w: World, r: RequestId)
    requires Enabled(w, SelectKey(r))
    ensures var q, w' := w.requests[r], Next(w, SelectKey(r));
            && r in w'.requests
            && w' == w.(requests := w.requests[r := q.(pc := w'.requests[r].pc)], now := w.now + 1)
            && var pc, n := w'.requests[r].pc, q.pc.at.round;
            && (q.key !in w.db.keys ==> pc == Reserving(Inserting(n)))
            && (q.key in w.db.keys ==>
                  var row := w.db.keys[q.key];
                  if row.hash != RequestHash(q.invoice, q.card) then
                    pc == Replied(Refused(IdempotencyKeyReused)) && pc.response.HttpStatus() == 422
                  else if row.response.Some? then pc == Replied(row.response.value)
                  else if n < 14 then pc == Reserving(Polling(n + 1))
                  else pc == Replied(Refused(RequestInProgress)) && pc.response.HttpStatus() == 409)
  {
  }

  /** The INSERT of round `n`: it reserves a free key and proceeds; if another request
      was faster it looks again, and gives up in the fifteenth round. */
  lemma InsertAnswers(w: World, r: RequestId, ack: bool)
    requires Enabled(w, InsertKey(r, ack))
    ensures var q, w', free := w.requests[r], Next(w, InsertKey(r, ack)), w.requests[r].key !in w.db.keys;
            && w'.db == (if free then w.db.(keys := w.db.keys[q.key := KeyRow(RequestHash(q.invoice, q.card), None)])
                else w.db)
            && r in w'.requests
            && var pc, n := w'.requests[r].pc, q.pc.at.round;
            if !ack then pc == Replied(Refused(InternalError)) && pc.response.HttpStatus() == 500
            else if free then pc == Claiming && w'.requests[r].proceeded
            else pc == if n == 14 then Replied(Refused(RequestInProgress)) else Reserving(Polling(n + 1))
  {
  }

  /** The key is decided for this hash: it has its response, or belongs to another body. */
  predicate Decided(w: World, k: KeyId, hash: RequestHash) {
    k in w.db.keys && (w.db.keys[k].hash != hash || w.db.keys[k].response.Some?)
  }

  /** The look that a request is about to take, or will take first. */
  predicate Looks(w: World, r: RequestId, k: KeyId, hash: RequestHash, n: nat) {
    if r in w.requests then w.requests[r].key == k && w.requests[r].Hash() == hash && !w.requests[r].proceeded
        && w.requests[r].pc == Reserving(Polling(n))
    else n == 0
  }

  lemma StaysDecided(w: World, s: Step, k: KeyId, hash: RequestHash)
    requires Inv(w) && Enabled(w, s) && Decided(w, k, hash)
    ensures Inv(Next(w, s)) && Decided(Next(w, s), k, hash)
    ensures Next(w, s).db.keys[k].hash == w.db.keys[k].hash
    ensures w.db.keys[k].response.Some? ==> Next(w, s).db.keys[k].response == w.db.keys[k].response
  {
    StepKeeps(w, s);
    assert EvolvesIn(w, Next(w, s), KeyPart);
  }

  /** Where a request can be whose key is decided: before look `n`, or answered by it. */
  predicate Served(q: Request, row: KeyRow, steps: seq<Step>, r: RequestId, n: nat) {
    && !q.proceeded
    && match q.pc
       case Reserving(at) => at == Polling(n)
       case Replied(response) =>
         || (response == Refused(InternalError) && DbError(r) in steps)
         || (row.hash != RequestHash(q.invoice, q.card) && response == Refused(IdempotencyKeyReused))
         || (row.hash == RequestHash(q.invoice, q.card) && Some(response) == row.response)
       case Killed => KillRequest(r) in steps
       case _ => false
  }

  lemma NewcomerLooks(w: World, s: Step, r: RequestId)
    requires Enabled(w, s) && r !in w.requests && r in Next(w, s).requests
    ensures Next(w, s).requests[r].pc == Reserving(Polling(0)) && !Next(w, s).requests[r].proceeded
  {
    if OfHandler(s) {
      HandlerFrame(w, s);
    } else if OfTask(s) {
      TaskFrame(w, s);
    } else {
      TrafficFrame(w, s);
    }
  }

  lemma ServedStep(w: World, s: Step, r: RequestId, k: KeyId, hash: RequestHash, n: nat)
    requires Inv(w) && Enabled(w, s) && Decided(w, k, hash) && Looks(w, r, k, hash, n)
    requires r in Next(w, s).requests && Next(w, s).requests[r].key == k && Next(w, s).requests[r].Hash() == hash
    ensures Served(Next(w, s).requests[r], w.db.keys[k], [s], r, n)
  {
    if r in w.requests && !(OfHandler(s) && s.r == r) {
      RequestStands(w, s, r);
    } else if r in w.requests && s.SelectKey? {
      SelectAnswers(w, r);
    } else if r !in w.requests {
      NewcomerLooks(w, s, r);
    }
  }

  /** An answer is final. */
  lemma ServedStays(w: World, r: RequestId, row: KeyRow, steps: seq<Step>, n: nat, rest: seq<Step>, w': World)
    requires Inv(w) && Runs(w, rest, w') && r in w.requests && !w.requests[r].pc.Reserving?
    requires Served(w.requests[r], row, steps, r, n)
    ensures r in w'.requests && Served(w'.requests[r], row, steps + rest, r, n)
  {
    RunKeeps(w, rest, w');
    assert EvolvesIn(w, w', RequestPart);
  }

  lemma ServedSooner(q: Request, row: KeyRow, row': KeyRow, steps: seq<Step>, more: seq<Step>, r: RequestId, n: nat)
    requires Served(q, row', steps, r, n) && (row.hash != q.Hash() || row.response.Some?)
    requires row'.hash == row.hash && (row.response.Some? ==> row'.response == row.response)
    requires forall s :: s in steps ==> s in more
    ensures Served(q, row, more, r, n)
  {
  }

  lemma KeepsIdentity(w: World, steps: seq<Step>, w': World, r: RequestId)
    requires Inv(w) && Runs(w, steps, w') && r in w.requests
    ensures r in w'.requests && w'.requests[r].key == w.requests[r].key
        && w'.requests[r].Hash() == w.requests[r].Hash()
  {
    RunKeeps(w, steps, w');
    assert EvolvesIn(w, w', RequestPart);
  }

  /** After one step it still looks, or has its answer. */
  lemma ServedFirst(w: World, s: Step, next: World, rest: seq<Step>, w': World, r: RequestId, k: KeyId,
      hash: RequestHash, n: nat)
    requires Inv(w) && Enabled(w, s) && next == Next(w, s) && Decided(w, k, hash) && Looks(w, r, k, hash, n)
    requires Runs(next, rest, w') && r in w'.requests && w'.requests[r].key == k && w'.requests[r].Hash() == hash
    ensures Inv(next) && Decided(next, k, hash) && next.db.keys[k].hash == w.db.keys[k].hash
    ensures w.db.keys[k].response.Some? ==> next.db.keys[k].response == w.db.keys[k].response
    ensures Looks(next, r, k, hash, n)
      || (r in next.requests && !next.requests[r].pc.Reserving?
          && Served(next.requests[r], w.db.keys[k], [s], r, n))
  {
    StaysDecided(w, s, k, hash);
    if r in next.requests {
      KeepsIdentity(next, rest, w', r);
      ServedStep(w, s, r, k, hash, n);
    } else if r in w.requests {
      RequestStands(w, s, r);
    }
  }

  lemma {:induction false} ServedAlong(w: World, steps: seq<Step>, w': World, r: RequestId, k: KeyId,
      hash: RequestHash, n: nat)
    requires Inv(w) && Runs(w, steps, w') && Decided(w, k, hash) && Looks(w, r, k, hash, n)
    requires r in w'.requests && w'.requests[r].key == k && w'.requests[r].Hash() == hash
    ensures Served(w'.requests[r], w.db.keys[k], steps, r, n)
    decreases |steps|
  {
    if steps != [] {
      var s, rest, next := steps[0], steps[1..], Next(w, steps[0]);
      ServedFirst(w, s, next, rest, w', r, k, hash, n);
      if Looks(next, r, k, hash, n) {
        ServedAlong(next, rest, w', r, k, hash, n);
        ServedSooner(w'.requests[r], w.db.keys[k], next.db.keys[k], rest, steps, r, n);
      } else {
        ServedStays(next, r, w.db.keys[k], [s], n, rest, w');
        assert steps == [s] + rest;
      }
    }
  }

  /** A request that arrives when its key has a response or belongs to another body, or
      has been waiting until then, is served by its next SELECT: it never looks twice,
      inserts or proceeds, and its reply is the stored response, or "key reused"
      exactly on a mismatch, unless a database call of its own fails. */
  lemma RepliesAtOnce(w: World, steps: seq<Step>, w': World, r: RequestId, k: KeyId)
    requires Reachable(w) && Runs(w, steps, w') && k in w.db.keys && r in w'.requests && w'.requests[r].key == k
    requires r in w.requests ==> w.requests[r].pc.Reserving? && w.requests[r].pc.at.Polling?
    requires w.db.keys[k].response.Some?
        || w.db.keys[k].hash != RequestHash(w'.requests[r].invoice, w'.requests[r].card)
    ensures var q, row := w'.requests[r], w.db.keys[k];
            && !q.proceeded
            && (|| q.pc == (if r in w.requests then w.requests[r].pc else Reserving(Polling(0)))
                || q.pc.Replied?
                || (q.pc.Killed? && KillRequest(r) in steps))
            && (q.pc.Replied? ==>
                  || (q.pc.response == Refused(InternalError) && DbError(r) in steps)
                  || (if row.hash != RequestHash(q.invoice, q.card) then q.pc.response == Refused(IdempotencyKeyReused)
                      else Some(q.pc.response) == row.response))
  {
    ReachableIsOk(w);
    var n := 0;
    if r in w.requests {
      KeepsIdentity(w, steps, w', r);
      HandlerFacts(w, r);
      n := w.requests[r].pc.at.round;
    }
    ServedAlong(w, steps, w', r, k, w'.requests[r].Hash(), n);
  }

  // ---- The claim ----

  /** An open invoice of the business without a pending attempt. */
  ghost predicate Claimable(db: Db, b: BusinessId, i: InvoiceId) {
    && i in db.invoices && db.invoices[i].business == b && db.invoices[i].state == Open
    && forall x :: x in db.attempts && db.attempts[x].invoice == i ==> db.attempts[x].status != AttemptPending
  }

  /** Why an invoice that is not claimable is refused: by its row, or by the pending attempt. */
  predicate RefusedWith(db: Db, b: BusinessId, i: InvoiceId, code: ErrorCode) {
    if i !in db.invoices || db.invoices[i].business != b then
      code == InvoiceNotFound && code.HttpStatus() == 404
    else
      && code.HttpStatus() == 409
      && code == match db.invoices[i].state
                 case Paid => InvoiceAlreadyPaid
                 case Draft => InvoiceNotPayable
                 case Void => InvoiceNotPayable
                 case Uncollectible => InvoiceNotPayable
                 case Open => PaymentAttemptInProgress
  }

  lemma ClaimIsDecided(db: Db, b: BusinessId, i: InvoiceId)
    ensures ClaimRefusal(db, b, i).None? <==> Claimable(db, b, i)
    ensures ClaimRefusal(db, b, i).Some? ==> RefusedWith(db, b, i, ClaimRefusal(db, b, i).value)
  {
    assert HasPending(db, i) ==>
        exists x :: x in db.attempts && db.attempts[x].invoice == i && db.attempts[x].status == AttemptPending;
  }

  lemma RefusalIsStored(w: World, r: RequestId, a: AttemptId, ack: bool, code: ErrorCode)
    requires Enabled(w, Claim(r, a, ack))
    requires ClaimRefusal(w.db, w.requests[r].key.business, w.requests[r].invoice) == Some(code)
    ensures Next(w, Claim(r, a, ack)) == Tick(SetPc(w, r, Storing(Refused(code))))
  {
  }

  /** The rows decide the claim. It inserts a pending attempt with the request's card if
      the invoice is claimable; otherwise it stores the refusal, 404 without a row of the
      business and 409 else, and writes nothing. */
  lemma ClaimAnswers(w: World, r: RequestId, a: AttemptId, ack: bool)
    requires Enabled(w, Claim(r, a, ack))
    ensures var q, w' := w.requests[r], Next(w, Claim(r, a, ack));
            && r in w'.requests
            && var pc := w'.requests[r].pc;
               if Claimable(w.db, q.key.business, q.invoice) then
                 && w'.db == w.db.(attempts :=
                      w.db.attempts[a := Attempt(q.invoice, q.card, AttemptPending, None, None)])
                 && w'.origin == w.origin[a := r]
                 && pc == if ack then Fetching(a) else Storing(Refused(InternalError))
               else
                 && w' == w.(requests := w.requests[r := q.(pc := pc)], now := w.now + 1)
                 && pc.Storing? && pc.response.Refused?
                 && RefusedWith(w.db, q.key.business, q.invoice, pc.response.code)
  {
    var b, i := w.requests[r].key.business, w.requests[r].invoice;
    ClaimIsDecided(w.db, b, i);
    if ClaimRefusal(w.db, b, i).Some? {
      RefusalIsStored(w, r, a, ack, ClaimRefusal(w.db, b, i).value);
    }
  }

  // ---- The wait ----

  /** `fetch_total_cents` and the spawn: the task charges the invoice's total to the
      request's card for the claimed attempt. */
  lemma FetchSpawns(w: World, r: RequestId)
    requires Enabled(w, FetchAndSpawn(r)) && w.requests[r].invoice in w.db.invoices
    ensures var q, w' := w.requests[r], Next(w, FetchAndSpawn(r));
            && r in w'.tasks && r in w'.requests && w'.requests[r].pc == Waiting(q.pc.attempt)
            && w'.tasks[r] == Task(q.invoice, q.pc.attempt, w.db.invoices[q.invoice].totalCents, q.card, false, None,
                Ready)
  {
  }

  /** A handler that finds its task over stores what the task returned: 200 with the
      body, which says what the attempt's row says, or 500. */
  lemma JoinAnswers(w: World, r: RequestId)
    requires Reachable(w) && Enabled(w, Join(r))
    ensures var pc, t := w.tasks[r].pc, w.tasks[r];
            r in Next(w, Join(r)).requests &&
            var stored := Next(w, Join(r)).requests[r].pc;
            if pc.Done? && pc.result.Ok? then
              var body := pc.result.value;
              && stored == Storing(Settled(body)) && stored.response.HttpStatus() == 200
              && body.attempt in w.db.attempts && body.attempt in w.origin && w.origin[body.attempt] == r
              && w.db.attempts[body.attempt] == Attempt(w.requests[r].invoice, w.requests[r].card, body.status,
                  body.failureCode, body.pspRef)
              && body.invoice == w.requests[r].invoice && body.status != AttemptPending
            else stored == Storing(Refused(InternalError)) && stored.response.HttpStatus() == 500
  {
    ReachableIsOk(w);
    if w.tasks[r].pc.Done? && w.tasks[r].pc.result.Ok? { ResultIsOfTheRow(w, r); }
  }

  /** What a task has returned is what the row of its attempt says. */
  lemma ResultIsOfTheRow(w: World, r: RequestId)
    requires Inv(w) && r in w.requests && r in w.tasks && w.tasks[r].pc.Done? && w.tasks[r].pc.result.Ok?
    ensures var body := w.tasks[r].pc.result.value;
            && body.attempt in w.db.attempts && body.attempt in w.origin && w.origin[body.attempt] == r
            && w.db.attempts[body.attempt] == Attempt(w.requests[r].invoice, w.requests[r].card, body.status,
                body.failureCode, body.pspRef)
            && body.invoice == w.requests[r].invoice && body.status != AttemptPending
  {
    TaskFacts(w, r);
    assert OriginOk(w, w.tasks[r].attempt) by {
      assert Holds(w, Origins);
    }
  }

  /** What a handler does when a database call of its own fails, and when the client
      or the process goes away. */
  lemma FaultAnswers(w: World, r: RequestId)
    requires r in w.requests
    ensures Enabled(w, DbError(r)) ==>
      && r in Next(w, DbError(r)).requests
      && Next(w, DbError(r)).requests[r].pc ==
          if w.requests[r].pc.Claiming? || w.requests[r].pc.Fetching? then Storing(Refused(InternalError))
          else Replied(Refused(InternalError))
    ensures Enabled(w, KillRequest(r)) ==>
      r in Next(w, KillRequest(r)).requests && Next(w, KillRequest(r)).requests[r].pc == Killed
  {
  }

  /** A step in which something fails for the handler or the task of `r`. */
  predicate FaultOf(s: Step, r: RequestId) {
    || s in {DbError(r), KillRequest(r), KillTask(r), SettleFails(r), Store(r, false)}
    || (s.Settle? && s.r == r && !s.ack)
  }

  /** Where a request stands that has claimed `a` and met no fault since; `late` says
      that its wait has timed out. */
  ghost predicate OnCourse(w: World, r: RequestId, a: AttemptId, late: bool) {
    && r in w.requests && a in w.origin && w.origin[a] == r
    && match w.requests[r].pc
       case Fetching(x) => x == a && !late && r !in w.tasks
       case Waiting(x) => x == a && !late && r in w.tasks && !w.tasks[r].pc.Dead?
           && (w.tasks[r].pc.Done? ==> w.tasks[r].pc.result.Ok?)
       case Storing(response) => InTime(w.requests[r], a, response, late)
       case Replied(response) => InTime(w.requests[r], a, response, late)
       case _ => false
  }

  predicate InTime(q: Request, a: AttemptId, response: Response, late: bool) {
    if late then response == Accepted(a, q.invoice) else response.Settled? && response.body.attempt == a
  }

  lemma CourseOfSpawn(w: World, r: RequestId, a: AttemptId, late: bool)
    requires Inv(w) && OnCourse(w, r, a, late) && Enabled(w, FetchAndSpawn(r))
    ensures OnCourse(Next(w, FetchAndSpawn(r)), r, a, late)
  {
    assert OriginOk(w, a) by {
      assert Holds(w, Origins);
    }
  }

  lemma CourseOfJoin(w: World, r: RequestId, a: AttemptId, late: bool)
    requires Inv(w) && OnCourse(w, r, a, late) && Enabled(w, Join(r))
    ensures OnCourse(Next(w, Join(r)), r, a, late)
  {
    HandlerFacts(w, r);
  }

  lemma CourseOfHandler(w: World, s: Step, r: RequestId, a: AttemptId, late: bool)
    requires Inv(w) && OnCourse(w, r, a, late) && Enabled(w, s) && !FaultOf(s, r) && OfHandler(s) && s.r == r
    ensures OnCourse(Next(w, s), r, a, late || s == TimeOut(r))
  {
    if s.FetchAndSpawn? {
      CourseOfSpawn(w, r, a, late);
    } else if s.Join? {
      CourseOfJoin(w, r, a, late);
    }
  }

  lemma CourseOfTask(w: World, s: Step, r: RequestId, a: AttemptId, late: bool)
    requires Inv(w) && OnCourse(w, r, a, late) && Enabled(w, s) && !FaultOf(s, r) && OfTask(s) && s.r == r
    ensures OnCourse(Next(w, s), r, a, late)
  {
    if s.Settle? { SettleFindsPending(w, r); }
    TaskFrame(w, s);
  }

  lemma CourseOfOthers(w: World, s: Step, r: RequestId, a: AttemptId, late: bool)
    requires Inv(w) && OnCourse(w, r, a, late) && Enabled(w, s)
    requires !(OfHandler(s) && s.r == r) && !(OfTask(s) && s.r == r)
    ensures OnCourse(Next(w, s), r, a, late)
  {
    RequestStands(w, s, r);
    TaskStands(w, s, r);
    StepKeeps(w, s);
    assert EvolvesIn(w, Next(w, s), HistoryPart);
  }

  lemma CourseStep(w: World, s: Step, r: RequestId, a: AttemptId, late: bool)
    requires Inv(w) && OnCourse(w, r, a, late) && Enabled(w, s) && !FaultOf(s, r)
    ensures OnCourse(Next(w, s), r, a, late || s == TimeOut(r))
  {
    if OfHandler(s) && s.r == r {
      CourseOfHandler(w, s, r, a, late);
    } else if OfTask(s) && s.r == r {
      CourseOfTask(w, s, r, a, late);
    } else {
      CourseOfOthers(w, s, r, a, late);
    }
  }

  lemma {:induction false} StaysOnCourse(w: World, steps: seq<Step>, w': World, r: RequestId, a: AttemptId, late: bool)
    requires Inv(w) && Runs(w, steps, w') && OnCourse(w, r, a, late)
    requires forall n :: 0 <= n < |steps| ==> !FaultOf(steps[n], r)
    ensures Inv(w') && OnCourse(w', r, a, late || TimeOut(r) in steps)
    decreases |steps|
  {
    if steps != [] {
      StepKeeps(w, steps[0]);
      CourseStep(w, steps[0], r, a, late);
      StaysOnCourse(Next(w, steps[0]), steps[1..], w', r, a, late || steps[0] == TimeOut(r));
      assert steps == [steps[0]] + steps[1..];
    }
  }

  lemma ClaimIsOnCourse(w: World, r: RequestId, a: AttemptId)
    requires Inv(w) && Enabled(w, Claim(r, a, true)) && a in Next(w, Claim(r, a, true)).db.attempts
    ensures OnCourse(Next(w, Claim(r, a, true)), r, a, false)
  {
    HandlerFacts(w, r);
    ClaimAnswers(w, r, a, true);
    HandlerFrame(w, Claim(r, a, true));
  }

  /** The reply to a request that stayed on course. */
  ghost predicate Answered(w: World, q: Request, a: AttemptId, reply: Response, late: bool) {
    && a in w.db.attempts
    && var row := w.db.attempts[a];
       && row.invoice == q.invoice && row.card == q.card
       && if late then reply == Accepted(a, q.invoice) && reply.HttpStatus() == 202
          else
            && reply == Settled(PayResult(a, row.invoice, row.status, row.failureCode, row.pspRef))
            && reply.HttpStatus() == 200 && row.status != AttemptPending
  }

  lemma CourseEnds(w: World, r: RequestId, a: AttemptId, late: bool)
    requires Inv(w) && OnCourse(w, r, a, late) && w.requests[r].pc.Replied?
    ensures Answered(w, w.requests[r], a, w.requests[r].pc.response, late)
  {
    HandlerFacts(w, r);
    assert a in w.db.attempts && OriginOk(w, a) by {
      assert Holds(w, Origins);
    }
  }

  /** A request that has claimed an attempt and met no fault since, and has replied: its
      reply is 202 with the attempt id if its wait timed out, and otherwise 200 with
      what the row of the settled attempt says. */
  lemma AnsweredNowOrLater(w: World, r: RequestId, a: AttemptId, steps: seq<Step>, w': World)
    requires Reachable(w) && Enabled(w, Claim(r, a, true)) && a in Next(w, Claim(r, a, true)).db.attempts
    requires Runs(Next(w, Claim(r, a, true)), steps, w') && r in w'.requests && w'.requests[r].pc.Replied?
    requires forall n :: 0 <= n < |steps| ==> !FaultOf(steps[n], r)
    ensures Answered(w', w'.requests[r], a, w'.requests[r].pc.response, TimeOut(r) in steps)
  {
    ReachableIsOk(w);
    ClaimIsOnCourse(w, r, a);
    StepKeeps(w, Claim(r, a, true));
    StaysOnCourse(Next(w, Claim(r, a, true)), steps, w', r, a, false);
    CourseEnds(w', r, a, TimeOut(r) in steps);
  }

  // ---- Where a 202 comes from ----

  /** A handler is about to store or has replied the response, or it is stored under a key. */
  ghost predicate Given(w: World, response: Response) {
    || (exists k :: k in w.db.keys && w.db.keys[k].response == Some(response))
    || (exists r :: GivenBy(w, r, response))
  }

  predicate GivenBy(w: World, r: RequestId, response: Response) {
    r in w.requests && (w.requests[r].pc == Storing(response) || w.requests[r].pc == Replied(response))
  }

  /** The wait of the request that claimed the attempt times out. */
  predicate TimesOutFor(w: World, s: Step, a: AttemptId) {
    a in w.origin && s == TimeOut(w.origin[a])
  }

  lemma AcceptedByItself(w: World, s: Step, r: RequestId, response: Response)
    requires Inv(w) && Enabled(w, s) && OfHandler(s) && s.r == r && r in w.requests
    requires response.Accepted? && GivenBy(Next(w, s), r, response) && !GivenBy(w, r, response)
    ensures (s.SelectKey? && w.requests[r].key in w.db.keys
        && w.db.keys[w.requests[r].key].response == Some(response)) || TimesOutFor(w, s, response.attempt)
  {
    if s.SelectKey? {
      SelectAnswers(w, r);
    } else if s.TimeOut? {
      HandlerFacts(w, r);
    } else {
      AcceptedByNoOther(w, s, r, response);
    }
  }

  lemma AcceptedByNoOther(w: World, s: Step, r: RequestId, response: Response)
    requires Enabled(w, s) && OfHandler(s) && s.r == r && r in w.requests && !s.SelectKey? && !s.TimeOut?
    requires response.Accepted? && !GivenBy(w, r, response)
    ensures !GivenBy(Next(w, s), r, response)
  {
    if s.Claim? { ClaimAnswers(w, r, s.a, s.ack); }
  }

  lemma AcceptedByTimeOut(w: World, s: Step, r: RequestId, response: Response)
    requires Inv(w) && Enabled(w, s) && response.Accepted? && GivenBy(Next(w, s), r, response) && !Given(w, response)
    ensures TimesOutFor(w, s, response.attempt)
  {
    assert !GivenBy(w, r, response);
    if r in w.requests && !(OfHandler(s) && s.r == r) {
      RequestStands(w, s, r);
    } else if r in w.requests {
      AcceptedByItself(w, s, r, response);
    } else {
      NewcomerLooks(w, s, r);
    }
  }

  lemma GivenStep(w: World, s: Step, response: Response)
    requires Inv(w) && Enabled(w, s) && response.Accepted? && Given(Next(w, s), response)
    ensures Given(w, response) || TimesOutFor(w, s, response.attempt)
  {
    var w' := Next(w, s);
    if r :| GivenBy(w', r, response) {
      if !Given(w, response) { AcceptedByTimeOut(w, s, r, response); }
    } else {
      var k :| k in w'.db.keys && w'.db.keys[k].response == Some(response);
      if s.Store? && w.requests[s.r].key == k {
        StoreGives(w, s.r, s.ack, response);
      } else if k in w.db.keys {
        KeyRowFrame(w, s, k);
      } else {
        NewKeyIsOpen(w, s, k);
      }
    }
  }

  lemma StoreGives(w: World, r: RequestId, ack: bool, response: Response)
    requires Inv(w) && Enabled(w, Store(r, ack))
    requires var k, w' := w.requests[r].key, Next(w, Store(r, ack));
             k in w'.db.keys && w'.db.keys[k].response == Some(response)
    ensures GivenBy(w, r, response)
  {
    HandlerFacts(w, r);
  }

  lemma NewKeyIsOpen(w: World, s: Step, k: KeyId)
    requires Enabled(w, s) && k !in w.db.keys && k in Next(w, s).db.keys
    ensures Next(w, s).db.keys[k].response.None?
  {
    if OfHandler(s) {
      HandlerFrame(w, s);
    } else if OfTask(s) {
      TaskFrame(w, s);
    } else {
      TrafficFrame(w, s);
    }
  }

  lemma {:induction false} GivenAlong(w: World, steps: seq<Step>, w': World, response: Response)
    requires Inv(w) && Runs(w, steps, w') && response.Accepted? && Given(w', response) && !Given(w, response)
    ensures response.attempt in w'.origin && TimeOut(w'.origin[response.attempt]) in steps
    decreases |steps|
  {
    if steps != [] {
      var next, a := Next(w, steps[0]), response.attempt;
      StepKeeps(w, steps[0]);
      if Given(next, response) {
        GivenStep(w, steps[0], response);
        RunKeeps(w, steps, w');
        assert EvolvesIn(w, w', HistoryPart);
      } else {
        GivenAlong(next, steps[1..], w', response);
      }
    }
  }

  /** A 202 is stored or replied, by the request itself or as a replay, only for an
      attempt whose own request has timed out waiting for it. */
  lemma AcceptedOnlyAfterTimeOut(steps: seq<Step>, w: World, a: AttemptId, i: InvoiceId)
    requires Runs(START, steps, w) && Given(w, Accepted(a, i))
    ensures a in w.origin && TimeOut(w.origin[a]) in steps
  {
    StartIsOk();
    GivenAlong(START, steps, w, Accepted(a, i));
  }

  /** A step in which the handler of `r` dies or a database call of its own fails. */
  predicate HandlerFaultOf(s: Step, r: RequestId) {
    s in {DbError(r), KillRequest(r), Store(r, false)}
  }

  lemma ResultStays(w: World, s: Step, r: RequestId, response: Response)
    requires Enabled(w, s) && GivenBy(w, r, response) && !HandlerFaultOf(s, r)
    ensures GivenBy(Next(w, s), r, response)
  {
    if !(OfHandler(s) && s.r == r) { RequestStands(w, s, r); }
  }

  lemma {:induction false} ResultStaysAlong(w: World, steps: seq<Step>, w': World, r: RequestId, response: Response)
    requires Runs(w, steps, w') && GivenBy(w, r, response)
    requires forall n :: 0 <= n < |steps| ==> !HandlerFaultOf(steps[n], r)
    ensures GivenBy(w', r, response)
    decreases |steps|
  {
    if steps != [] {
      ResultStays(w, steps[0], r, response);
      ResultStaysAlong(Next(w, steps[0]), steps[1..], w', r, response);
    }
  }

  /** A request that has timed out, and whose handler meets no fault, answers 202. */
  lemma {:induction false} TimeOutAnswers(w: World, steps: seq<Step>, w': World, r: RequestId)
    requires Runs(w, steps, w') && TimeOut(r) in steps
    requires forall n :: 0 <= n < |steps| ==> !HandlerFaultOf(steps[n], r)
    ensures r in w'.requests && (w'.requests[r].pc.Storing? || w'.requests[r].pc.Replied?)
        && w'.requests[r].pc.response.Accepted?
    decreases |steps|
  {
    if steps[0] == TimeOut(r) {
      var response := Accepted(w.requests[r].pc.attempt, w.requests[r].invoice);
      assert GivenBy(Next(w, steps[0]), r, response);
      ResultStaysAlong(Next(w, steps[0]), steps[1..], w', r, response);
    } else {
      assert steps == [steps[0]] + steps[1..];
      TimeOutAnswers(Next(w, steps[0]), steps[1..], w', r);
    }
  }
}
