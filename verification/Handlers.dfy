/** The handler of POST /pay and its detached task, as the service runs them: effect
    after effect on the mutable tables, with any steps of everybody else in between.
    Each effect is proved to be a step of the protocol, so what holds of the
    protocol's runs holds of this code. */
module Handlers {
  import opened Domain
  import opened Transactions
  import opened Idempotency
  import opened Protocol
  import opened Frames
  import opened Evolution
  import opened Invariant
  import opened Preservation
  import opened Store
  import opened Answers
  import Outcomes

  datatype Part = Mirror | History

  /** The piece of code that is running. */
  datatype Runner = HandlerOf(r: RequestId) | TaskOf(r: RequestId) {
    /** Is this a step of some other piece of code? */
    predicate Leaves(s: Step) {
      match this
      case HandlerOf(r) => !(OfHandler(s) && s.r == r)
      case TaskOf(r) => !(OfTask(s) && s.r == r) && s != FetchAndSpawn(r)
    }
  }

  /** What follows a first part of a run leads from where that part ended. */
  lemma {:induction false} RunsSplit(start: World, first: seq<Step>, w: World, whole: seq<Step>, w': World)
    requires Runs(start, first, w) && Runs(start, whole, w') && first <= whole
    ensures Runs(w, whole[|first|..], w')
    decreases |first|
  {
    if first == [] {
      assert whole[0..] == whole;
    } else {
      assert first[0] == whole[0] && first[1..] <= whole[1..];
      RunsSplit(Next(start, first[0]), first[1..], w, whole[1..], w');
      assert whole[1..][|first[1..]|..] == whole[|first|..];
    }
  }

  lemma RunExtends(steps: seq<Step>, w: World, s: Step)
    requires Runs(START, steps, w) && Enabled(w, s)
    ensures Runs(START, steps + [s], Next(w, s))
  {
    assert [s][1..] == [];
    RunsCompose(START, steps, w, [s], Next(w, s));
  }

  lemma KeysGrow(first: seq<Step>, w: World, whole: seq<Step>, w': World)
    requires Runs(START, first, w) && Runs(START, whole, w') && first <= whole
    ensures Grows(w.db.keys, w'.db.keys)
  {
    RunsSplit(START, first, w, whole, w');
    ReachableIsOk(w);
    RunKeeps(w, whole[|first|..], w');
    assert EvolvesIn(w, w', KeyPart);
  }

  /** The steps of others leave the running code where it is. */
  lemma OthersLeave(w: World, s: Step, runner: Runner)
    requires Enabled(w, s) && runner.Leaves(s)
    ensures runner.HandlerOf? && runner.r in w.requests ==>
              runner.r in Next(w, s).requests && Next(w, s).requests[runner.r] == w.requests[runner.r]
    ensures runner.TaskOf? && runner.r in w.tasks ==>
              runner.r in Next(w, s).tasks && Next(w, s).tasks[runner.r] == w.tasks[runner.r]
  {
    if runner.HandlerOf? && runner.r in w.requests { RequestStands(w, s, runner.r); }
    if runner.TaskOf? { TaskStands(w, s, runner.r); }
  }

  /** What the transaction of a task that has listed the endpoints commits. */
  ghost predicate SettlesFor(w: World, after: Db, r: RequestId, ids: map<DeliveryId, EndpointId>)
    requires r in w.tasks && w.tasks[r].pc.Listed?
  {
    var t := w.tasks[r];
    SettlesListed(w.db, after, t.invoice, t.attempt, t.pc.outcome, t.pc.endpoints, ids, w.now)
  }

  function Settlement(t: Task, ack: bool): TaskPc
    requires t.pc.Listed?
  {
    Done(if ack then Ok(ResultOf(t.attempt, t.invoice, t.pc.outcome)) else Err(InternalError))
  }

  lemma CommitIsAStep(w: World, after: Db, r: RequestId, ids: map<DeliveryId, EndpointId>, ack: bool)
    requires r in w.tasks && w.tasks[r].pc.Listed? && SettlesFor(w, after, r, ids)
    ensures Enabled(w, Settle(r, ids, ack))
    ensures var w' := AfterSettle(w, r, ids, ack);
            w'.db == after && r in w'.tasks && w'.tasks[r] == w.tasks[r].(pc := Settlement(w.tasks[r], ack))
  {
  }

  lemma ReservingHasNotProceeded(w: World, r: RequestId)
    requires Inv(w) && r in w.requests && w.requests[r].pc.Reserving?
    ensures !w.requests[r].proceeded
  {
    HandlerFacts(w, r);
  }

  lemma SettlerCanSettle(w: World, r: RequestId)
    requires Inv(w) && r in w.tasks && (w.tasks[r].pc.Settling? || w.tasks[r].pc.Listed?)
    ensures CanSettle(w.db, w.tasks[r].invoice, w.tasks[r].attempt)
  {
    TaskFacts(w, r);
  }

  lemma SettlesChanges(w: World, after: Db, r: RequestId, ids: map<DeliveryId, EndpointId>)
    requires r in w.tasks && w.tasks[r].pc.Listed? && SettlesFor(w, after, r, ids)
    ensures after != w.db
  {
    var a := w.tasks[r].attempt;
    assert a in after.attempts && after.attempts[a].status != w.db.attempts[a].status;
  }

  /** The body says what the row says of the settled attempt that the request has claimed. */
  predicate Repeats(w: World, r: RequestId, body: PayResult) {
    && body.attempt in w.origin && w.origin[body.attempt] == r && body.attempt in w.db.attempts
    && var row := w.db.attempts[body.attempt];
       && row.status != AttemptPending
       && body == PayResult(body.attempt, row.invoice, row.status, row.failureCode, row.pspRef)
  }

  class Service {
    const db: Database

    /** The tables with the histories, and where every handler and task stands. */
    var world: World

    /** The steps taken since the start. */
    ghost var run: seq<Step>

    constructor (db: Database)
      requires db.Tables() == EMPTY_DB
      ensures Valid() && this.db == db && world == START
    {
      this.db := db;
      world, run := START, [];
      new;
      forall part ensures Sound(part) {
      }
    }

    ghost predicate Valid()
      reads this, db
    {
      forall part :: Sound(part)
    }

    /** The database has the tables of the world, and the run leads to that world. */
    ghost predicate Sound(part: Part)
      reads this, db
    {
      match part
      case Mirror => db.Tables() == world.db
      case History => Runs(START, run, world)
    }

    lemma Facts()
      requires Valid()
      ensures db.Tables() == world.db && Sound(History) && Inv(world)
    {
      assert Sound(Mirror) && Sound(History);
      ReachableIsOk(world);
    }

    /** The wait of the handler has timed out among the steps after the first `since`. */
    ghost predicate TimedOut(r: RequestId, since: nat)
      reads this
    {
      exists n :: since <= n < |run| && run[n] == TimeOut(r)
    }

    lemma IsValid()
      requires db.Tables() == world.db && Sound(History)
      ensures Valid()
    {
      forall part ensures Sound(part) {
      }
    }

    /** One step of the protocol, beside its effect on the database. */
    method Take(s: Step)
      requires Sound(History) && Enabled(world, s)
      modifies this
      ensures Sound(History) && world == Next(old(world), s) && run == old(run) + [s]
    {
      RunExtends(run, world, s);
      world, run := Next(world, s), run + [s];
    }

    /** Any number of steps of everybody else. */
    method Others(runner: Runner)
      requires Valid()
      modifies this, db
      ensures db.Tables() == world.db && Sound(History) && Inv(world)
      ensures old(run) <= run && Grows(old(world.db.keys), world.db.keys)
      ensures forall n :: |old(run)| <= n < |run| ==> runner.Leaves(run[n])
      ensures runner.HandlerOf? && runner.r in old(world.requests) ==>
                runner.r in world.requests && world.requests[runner.r] == old(world.requests)[runner.r]
      ensures runner.TaskOf? && runner.r in old(world.tasks) ==>
                runner.r in world.tasks && world.tasks[runner.r] == old(world.tasks)[runner.r]
    {
      Facts();
      var n :| 0 <= n;
      for k := 0 to n
        invariant Sound(History) && old(run) <= run
        invariant forall m :: |old(run)| <= m < |run| ==> runner.Leaves(run[m])
        invariant runner.HandlerOf? && runner.r in old(world.requests) ==>
                    runner.r in world.requests && world.requests[runner.r] == old(world.requests)[runner.r]
        invariant runner.TaskOf? && runner.r in old(world.tasks) ==>
                    runner.r in world.tasks && world.tasks[runner.r] == old(world.tasks)[runner.r]
      {
        var s: Step := *;
        if Enabled(world, s) && runner.Leaves(s) {
          OthersLeave(world, s, runner);
          Take(s);
        }
      }
      db.Rollback(Snapshot(world.db, db.lineItems));
      ReachableIsOk(world);
      KeysGrow(old(run), old(world), run, world);
    }

    /** A database call of a handler failed without an effect. */
    method GiveUp(r: RequestId)
      requires Sound(History) && Enabled(world, DbError(r))
      modifies this
      ensures Sound(History) && world.db == old(world.db) && run == old(run) + [DbError(r)]
      ensures r in world.requests && world.requests[r] ==
          old(world.requests)[r].(pc := PcAfterDbError(old(world.requests)[r].pc))
    {
      Take(DbError(r));
    }

    // ---- The reservation ----

    /** A request comes in. */
    method Receive(r: RequestId, k: KeyId, i: InvoiceId, card: string)
      requires Valid() && r !in world.requests
      modifies this
      ensures Valid() && old(run) <= run && world.db == old(world.db)
      ensures r in world.requests && world.requests[r] == Request(k, i, card, false, Reserving(Polling(0)))
    {
      Facts();
      Take(Arrive(r, k, i, card));
      IsValid();
    }

    /** The SELECT of a round. */
    method SelectRound(r: RequestId, round: nat) returns (row: Result<Option<KeyRow>, ErrorCode>)
      requires Valid() && r in world.requests && world.requests[r].pc == Reserving(Polling(round))
      modifies this, db
      ensures Valid() && old(run) <= run && Grows(old(world.db.keys), world.db.keys)
      ensures db.reliable ==> row.Ok?
      ensures var q := old(world.requests)[r];
              && (if row.Ok? then row.value == KeyLookup(world.db, q.key) else row.error == InternalError)
              && r in world.requests
              && world.requests[r] ==
                  q.(pc := PcAfter(if row.Ok? then AfterSelect(row.value, q.Hash(), round)
                  else Rejected(InternalError)))
    {
      Others(HandlerOf(r));
      var fault := db.Fails();
      if fault {
        row := Err(InternalError);
        GiveUp(r);
      } else {
        row := Ok(KeyLookup(db.Tables(), world.requests[r].key));
        Take(SelectKey(r));
      }
      IsValid();
    }

    /** The INSERT took effect, or met the row of another request. */
    method TakeInsert(r: RequestId, round: nat, ack: bool)
      requires Sound(History) && r in world.requests && world.requests[r].pc == Reserving(Inserting(round))
      modifies this
      ensures Sound(History) && old(run) <= run
      ensures var q, created := old(world.requests)[r], old(world.requests)[r].key !in old(world.db.keys);
              && world.db == ReserveKey(old(world.db), q.key, q.Hash())
              && r in world.requests
              && world.requests[r] == q.(
                   proceeded := ack && created,
                   pc := PcAfter(if ack then AfterInsert(created, round) else Rejected(InternalError)))
    {
      Take(Step.InsertKey(r, ack));
    }

    /** The INSERT of a round. */
    method InsertRound(r: RequestId, round: nat) returns (created: Result<bool, ErrorCode>)
      requires Valid() && r in world.requests && world.requests[r].pc == Reserving(Inserting(round))
      modifies this, db
      ensures Valid() && old(run) <= run && Grows(old(world.db.keys), world.db.keys)
      ensures db.reliable ==> created.Ok?
      ensures var q := old(world.requests)[r];
              && r in world.requests
              && world.requests[r] == q.(proceeded := created == Ok(true),
                  pc := PcAfter(if created.Ok? then AfterInsert(created.value, round) else Rejected(InternalError)))
              && (created.Err? ==> created.error == InternalError)
              && (created == Ok(true) ==>
                  q.key !in old(world.db.keys) && KeyLookup(world.db, q.key) == Some(KeyRow(q.Hash(), None)))
              && (created == Ok(false) ==> q.key in world.db.keys)
    {
      Others(HandlerOf(r));
      ReservingHasNotProceeded(world, r);
      var q, before := world.requests[r], db.Tables();
      var rows, acknowledged := db.InsertKey(q.key, q.Hash());
      created := if acknowledged then Ok(rows == 1) else Err(InternalError);
      if !acknowledged && db.Tables() == before {
        GiveUp(r);
      } else {
        TakeInsert(r, round, acknowledged);
      }
      IsValid();
    }

    /** One round of `reserve_or_get`: where it leaves the call, and whether it tried
        the INSERT. Only round 0 can try it: later rounds have seen the row. */
    method Round(r: RequestId, round: nat) returns (next: Reservation, inserted: bool)
      requires Valid() && r in world.requests && world.requests[r].pc == Reserving(Polling(round))
      modifies this, db
      ensures Valid() && old(run) <= run && Grows(old(world.db.keys), world.db.keys)
      ensures r in world.requests && world.requests[r] ==
          old(world.requests)[r].(proceeded := next.Proceed?, pc := PcAfter(next))
      ensures inserted ==> round == 0 && old(world.requests)[r].key !in old(world.db.keys)
      ensures db.reliable ==> next != Rejected(InternalError)
      ensures Outcome(old(world.requests)[r].Hash(), round, KeyLookup(world.db, old(world.requests)[r].key), next,
          inserted)
      ensures var q := old(world.requests)[r];
              q.key in old(world.db.keys) ==>
                var row := old(world.db.keys)[q.key];
                && !inserted
                && (row.hash != q.Hash() ==> next in {Rejected(IdempotencyKeyReused), Rejected(InternalError)})
                && (row.hash == q.Hash() && row.response.Some? ==>
                      next in {UseCached(row.response.value), Rejected(InternalError)})
    {
      Facts();
      HandlerFacts(world, r);
      var hash := world.requests[r].Hash();
      inserted := false;
      var existing := SelectRound(r, round);
      if existing.Err? {
        return Rejected(InternalError), inserted;
      }
      next := AfterSelect(existing.value, hash, round);
      if existing.value.None? {
        inserted := true;
        var created := InsertRound(r, round);
        next := if created.Ok? then AfterInsert(created.value, round) else Rejected(InternalError);
      }
    }

    /** `reserve_or_get`, with the steps of others before every statement and across
        every sleep. The counters are of this call's own statements and sleeps;
        `trace` is its path. Whatever the others do, the INSERT runs at most once
        and only in round 0, so the `break` of the last round is never taken. */
    method ReserveOrGet(r: RequestId, k: KeyId, i: InvoiceId, card: string)
      returns (result: Reservation, inserts: nat, sleeps: nat, ghost trace: seq<Reservation>)
      requires Valid() && r !in world.requests
      modifies this, db
      ensures Valid() && old(run) <= run
      ensures r in world.requests && world.requests[r] == Request(k, i, card, result.Proceed?, PcAfter(result))
      ensures Traced(trace, RequestHash(i, card), inserts)
      ensures result == Rejected(InternalError) || trace[|trace| - 1] == result
      ensures sleeps + inserts <= 15
      ensures result.Proceed? ==> inserts == 1 && sleeps == 0
      ensures inserts > 0 ==> k !in old(world.db.keys)
      ensures Explains(KeyLookup(world.db, k), RequestHash(i, card), result)
      ensures db.reliable ==> result != Rejected(InternalError)
      ensures result == Rejected(RequestInProgress) ==> sleeps + inserts == 15
      ensures k in old(world.db.keys) ==>
                var row := old(world.db.keys)[k];
                && (row.hash != RequestHash(i, card) ==>
                      && result in {Rejected(IdempotencyKeyReused), Rejected(InternalError)}
                      && sleeps == 0 && inserts == 0)
                && (row.hash == RequestHash(i, card) && row.response.Some? ==>
                      && result in {UseCached(row.response.value), Rejected(InternalError)}
                      && sleeps == 0 && inserts == 0)
    {
      inserts, sleeps := 0, 0;
      trace := [Polling(0)];
      var hash := RequestHash(i, card);
      Receive(r, k, i, card);
      for round := 0 to ROUNDS
        invariant Valid() && old(run) <= run && Grows(old(world.db.keys), world.db.keys)
        invariant r in world.requests
        invariant world.requests[r] == Request(k, i, card, false,
            PcAfter(if round < ROUNDS then Polling(round) else Rejected(RequestInProgress)))
        invariant Traced(trace, hash, inserts)
        invariant trace[|trace| - 1] == if round < ROUNDS then Polling(round) else Rejected(RequestInProgress)
        invariant sleeps + inserts == round
        invariant inserts > 0 ==> k !in old(world.db.keys)
        invariant round == 0 ==> |trace| == 1
        invariant k in old(world.db.keys) && old(world.db.keys)[k].hash != hash ==> round == 0
        invariant k in old(world.db.keys) && old(world.db.keys)[k].response.Some? ==> round == 0
        invariant round == ROUNDS ==> Explains(KeyLookup(world.db, k), hash, Rejected(RequestInProgress))
      {
        var next, inserted := Round(r, round);
        trace := Traces(trace, hash, inserts, round, next, inserted);
        if inserted {
          inserts := inserts + 1;
        } else if next.Polling? || next == Rejected(RequestInProgress) {
          sleeps := sleeps + 1;
        }
        if !next.Polling? && next != Rejected(RequestInProgress) {
          result := next;
          return;
        }
      }
      result := Rejected(RequestInProgress);
    }

    // ---- The payment ----

    /** The claim has inserted its attempt. */
    method TakeClaim(r: RequestId, a: AttemptId, ack: bool)
      requires Sound(History) && r in world.requests && world.requests[r].pc.Claiming?
      requires Claims(world.db, db.Tables(), world.requests[r].key.business, world.requests[r].invoice, a,
                 world.requests[r].card)
      modifies this
      ensures Sound(History) && world.db == db.Tables() && run == old(run) + [Step.Claim(r, a, ack)]
      ensures r in world.requests && world.requests[r] ==
          old(world.requests)[r].(pc := if ack then Fetching(a) else Storing(Refused(InternalError)))
    {
      Take(Step.Claim(r, a, ack));
    }

    /** The claim was refused. */
    method TakeRefusal(r: RequestId, code: ErrorCode)
      requires Sound(History) && r in world.requests && world.requests[r].pc.Claiming?
      requires ClaimRefusal(world.db, world.requests[r].key.business, world.requests[r].invoice) == Some(code)
      modifies this
      ensures Sound(History) && world.db == old(world.db)
      ensures |run| == |old(run)| + 1 && old(run) <= run && run[|old(run)|].Claim?
      ensures r in world.requests && world.requests[r] == old(world.requests)[r].(pc := Storing(Refused(code)))
    {
      ghost var top := AboveAll(world.db.attempts.Keys);
      assert top !in world.db.attempts;
      var a: AttemptId :| a !in world.db.attempts;
      Take(Step.Claim(r, a, true));
    }

    /** The transaction of the claim. */
    method RunClaim(r: RequestId) returns (result: Result<AttemptId, ErrorCode>)
      requires db.Tables() == world.db && Sound(History) && r in world.requests && world.requests[r].pc.Claiming?
      modifies this, db
      ensures db.Tables() == world.db && Sound(History)
      ensures |run| == |old(run)| + 1 && old(run) <= run && (run[|old(run)|].Claim? || run[|old(run)|].DbError?)
      ensures r in world.requests && world.requests[r] == old(world.requests)[r].(
                pc := if result.Ok? then Fetching(result.value) else Storing(Refused(result.error)))
      ensures db.reliable ==> result != Err(InternalError)
    {
      var q, before := world.requests[r], db.Tables();
      var id;
      result, id := db.ClaimPaymentAttempt(q.key.business, q.invoice, q.card);
      if db.Tables() != before {
        TakeClaim(r, id, result.Ok?);
      } else if result == Err(InternalError) {
        GiveUp(r);
      } else {
        assert result.Err?;
        TakeRefusal(r, result.error);
      }
    }

    /** `claim_payment_attempt`, whose error is the result to store. */
    method Claim(r: RequestId) returns (result: Result<AttemptId, ErrorCode>)
      requires Valid() && r in world.requests && world.requests[r].pc.Claiming?
      modifies this, db
      ensures Valid() && old(run) <= run
      ensures r in world.requests && world.requests[r] == old(world.requests)[r].(
                pc := if result.Ok? then Fetching(result.value) else Storing(Refused(result.error)))
      ensures !TimedOut(r, |old(run)|)
      ensures db.reliable ==> result != Err(InternalError)
    {
      Others(HandlerOf(r));
      result := RunClaim(r);
      IsValid();
    }

    /** `fetch_total_cents` and the spawn of the task. */
    method FetchTotalAndSpawn(r: RequestId, a: AttemptId) returns (total: Result<int, ErrorCode>)
      requires Valid() && r in world.requests && world.requests[r].pc == Fetching(a)
      modifies this, db
      ensures Valid() && old(run) <= run
      ensures r in world.requests && world.requests[r] == old(world.requests)[r].(
                pc := if total.Ok? then Waiting(a) else Storing(Refused(InternalError)))
      ensures total.Ok? ==> var q := old(world.requests)[r];
                r in world.tasks && world.tasks[r] == Task(q.invoice, a, total.value, q.card, false, None, Ready)
      ensures !TimedOut(r, |old(run)|)
      ensures db.reliable ==> total.Ok?
    {
      Others(HandlerOf(r));
      assert world.requests[r].invoice in world.db.invoices by {
        HandlerFacts(world, r);
        assert Holds(world, Origins) && OriginOk(world, a);
      }
      total := db.FetchTotalCents(world.requests[r].invoice);
      if total.Ok? {
        Take(FetchAndSpawn(r));
      } else {
        GiveUp(r);
      }
      IsValid();
    }

    /** The task is over: its result is the result to store. */
    method TakeJoin(r: RequestId) returns (result: Response)
      requires Sound(History) && Inv(world) && Enabled(world, Join(r))
      modifies this
      ensures Sound(History) && run == old(run) + [Join(r)]
      ensures world.db == old(world.db) && world.tasks == old(world.tasks) && world.origin == old(world.origin)
      ensures r in world.requests && world.requests[r] == old(world.requests)[r].(pc := Storing(result))
      ensures r in world.tasks
      ensures result == if world.tasks[r].pc.Done? && world.tasks[r].pc.result.Ok? then
                          Settled(world.tasks[r].pc.result.value)
                        else Refused(InternalError)
      ensures result.Settled? ==> Repeats(world, r, result.body)
    {
      TaskFacts(world, r);
      result := ResponseOfTask(world.tasks[r]);
      Take(Join(r));
    }

    /** The wait for the task, which may have `elapsed` before the task is over, even if it
        is over now: 202 if so, and otherwise what the task has returned. */
    method Await(r: RequestId, a: AttemptId, elapsed: bool) returns (result: Response)
      requires Valid() && r in world.requests && world.requests[r].pc == Waiting(a)
      modifies this, db
      ensures Valid() && old(run) <= run
      ensures r in world.requests && world.requests[r] == old(world.requests)[r].(pc := Storing(result))
      ensures r in world.tasks && (TimedOut(r, |old(run)|) <==> elapsed || world.tasks[r].Active())
      ensures result ==
                if elapsed || world.tasks[r].Active() then Accepted(a, old(world.requests)[r].invoice)
                else if world.tasks[r].pc.Done? && world.tasks[r].pc.result.Ok? then
                  Settled(world.tasks[r].pc.result.value)
                else Refused(InternalError)
      ensures result.Settled? ==> Repeats(world, r, result.body)
    {
      Others(HandlerOf(r));
      HandlerFacts(world, r);
      if elapsed || world.tasks[r].Active() {
        Take(TimeOut(r));
        assert run[|run| - 1] == TimeOut(r);
        result := Accepted(a, world.requests[r].invoice);
      } else {
        result := TakeJoin(r);
      }
      IsValid();
    }

    /** `try_claim_and_pay`: a refusal of the claim, or what the wait has brought. */
    method TryClaimAndPay(r: RequestId, elapsed: bool) returns (result: Response)
      requires Valid() && r in world.requests && world.requests[r].pc.Claiming?
      modifies this, db
      ensures Valid() && old(run) <= run
      ensures r in world.requests && world.requests[r] == old(world.requests)[r].(pc := Storing(result))
      ensures result.Accepted? <==> TimedOut(r, |old(run)|)
      ensures result.Accepted? ==> r in world.tasks && (elapsed || world.tasks[r].Active())
      ensures result.Settled? ==> Repeats(world, r, result.body)
      ensures db.reliable && result == Refused(InternalError) ==>
          r in world.tasks && (world.tasks[r].pc.Dead? || (world.tasks[r].pc.Done? && world.tasks[r].pc.result.Err?))
    {
      var claimed := Claim(r);
      if claimed.Err? {
        return Refused(claimed.error);
      }
      var total := FetchTotalAndSpawn(r, claimed.value);
      if total.Err? {
        return Refused(InternalError);
      }
      result := Await(r, claimed.value, elapsed);
    }

    /** `idempotency::finalize` and the reply: what the client gets is what is
        stored under its key, or a database error. */
    method StoreAndReply(r: RequestId, response: Response) returns (reply: Response)
      requires Valid() && r in world.requests && world.requests[r].pc == Storing(response)
      modifies this, db
      ensures Valid() && old(run) <= run
      ensures r in world.requests && world.requests[r] == old(world.requests)[r].(pc := Replied(reply))
      ensures var k := old(world.requests)[r].key;
              reply == Refused(InternalError) || (reply == response && k in world.db.keys
                  && world.db.keys[k].response == Some(reply))
      ensures db.reliable ==> reply == response
    {
      Others(HandlerOf(r));
      HandlerFacts(world, r);
      var before := db.Tables();
      var acknowledged := db.FinalizeKey(world.requests[r].key, response);
      reply := if acknowledged then response else Refused(InternalError);
      if !acknowledged && db.Tables() == before {
        GiveUp(r);
      } else {
        Take(Step.Store(r, acknowledged));
      }
      IsValid();
    }

    /** `pay_invoice`: from the arrival to the reply it makes a run of the protocol,
        and its reply is explained by the row of its key. */
    method PayInvoice(r: RequestId, k: KeyId, i: InvoiceId, card: string, elapsed: bool) returns (reply: Response)
      requires Valid() && r !in world.requests
      modifies this, db
      ensures Valid() && old(run) <= run
      ensures r in world.requests && world.requests[r].(proceeded := false) ==
          Request(k, i, card, false, Replied(reply))
      ensures ReplyExplained(world, world.requests[r], reply)
      ensures k in old(world.db.keys) ==>
                var row := old(world.db.keys)[k];
                && (row.hash != RequestHash(i, card) ==>
                      reply == Refused(IdempotencyKeyReused) || (!db.reliable && reply == Refused(InternalError)))
                && (row.hash == RequestHash(i, card) && row.response.Some? ==>
                      reply == row.response.value || (!db.reliable && reply == Refused(InternalError)))
      ensures reply.Accepted? ==>
          reply.attempt in world.origin && TimeOut(world.origin[reply.attempt]) in run
    {
      var reservation, inserts, sleeps;
      ghost var trace;
      reservation, inserts, sleeps, trace := ReserveOrGet(r, k, i, card);
      if reservation.UseCached? {
        reply := reservation.response;
      } else if reservation.Rejected? {
        reply := Refused(reservation.code);
      } else {
        var result := TryClaimAndPay(r, elapsed);
        reply := StoreAndReply(r, result);
      }
      Facts();
      HandlerFacts(world, r);
      if reply.Accepted? {
        assert GivenBy(world, r, reply);
        AcceptedOnlyAfterTimeOut(run, world, reply.attempt, reply.invoice);
      }
    }

    // ---- The detached task ----

    /** The PSP call; `outcome` is what the service observes of it. */
    method Charge(r: RequestId, outcome: PspOutcome)
      requires Valid() && r in world.tasks && world.tasks[r].pc.Ready?
      modifies this, db
      ensures Valid() && old(run) <= run
      ensures r in world.tasks && world.tasks[r] ==
          old(world.tasks)[r].(called := true, answer := Some(outcome), pc := Settling(outcome))
    {
      Others(TaskOf(r));
      Take(Call(r));
      IsValid();
      Others(TaskOf(r));
      Take(Answer(r, outcome));
      IsValid();
    }

    /** The settlement failed without an effect. */
    method FailSettlement(r: RequestId)
      requires Sound(History) && r in world.tasks && (world.tasks[r].pc.Settling? || world.tasks[r].pc.Listed?)
      modifies this
      ensures Sound(History) && world.db == old(world.db) && old(run) <= run
      ensures r in world.tasks && world.tasks[r] == old(world.tasks)[r].(pc := Done(Err(InternalError)))
    {
      Take(SettleFails(r));
    }

    /** The settlement has committed. */
    method TakeSettlement(r: RequestId, ids: map<DeliveryId, EndpointId>, ack: bool)
      requires Sound(History) && r in world.tasks && world.tasks[r].pc.Listed?
      requires SettlesFor(world, db.Tables(), r, ids)
      modifies this
      ensures Sound(History) && world.db == db.Tables() && old(run) <= run
      ensures r in world.tasks && world.tasks[r] == old(world.tasks)[r].(pc := Settlement(old(world.tasks)[r], ack))
    {
      CommitIsAStep(world, db.Tables(), r, ids, ack);
      Take(Settle(r, ids, ack));
    }

    /** The first half of `finalize_payment_attempt`: it lists the endpoints. */
    method ListForSettlement(r: RequestId) returns (listed: Option<seq<EndpointId>>)
      requires Valid() && r in world.tasks && world.tasks[r].pc.Settling?
      modifies this, db
      ensures Valid() && old(run) <= run && r in world.tasks
      ensures db.reliable ==> listed.Some?
      ensures listed.None? ==> world.tasks[r] == old(world.tasks)[r].(pc := Done(Err(InternalError)))
      ensures listed.Some? ==>
          && (forall m, n :: 0 <= m < n < |listed.value| ==> listed.value[m] != listed.value[n])
          && world.tasks[r].pc.Listed? && world.tasks[r].pc.endpoints == Elements(listed.value)
          && world.tasks[r] == old(world.tasks)[r].(pc := world.tasks[r].pc)
          && world.tasks[r].pc.outcome == old(world.tasks)[r].pc.outcome
    {
      Others(TaskOf(r));
      SettlerCanSettle(world, r);
      var fault := db.Fails();
      if fault {
        listed := None;
        FailSettlement(r);
      } else {
        var endpoints := db.SelectEndpoints(world.db.invoices[world.tasks[r].invoice].business);
        listed := Some(endpoints);
        Take(ListEndpoints(r));
      }
      IsValid();
    }

    /** The writes of the settlement and its commit. */
    method RunSettlement(r: RequestId, listed: seq<EndpointId>) returns (result: Result<PayResult, ErrorCode>)
      requires db.Tables() == world.db && Sound(History) && Inv(world)
      requires r in world.tasks && world.tasks[r].pc.Listed? && world.tasks[r].pc.endpoints == Elements(listed)
      requires forall m, n :: 0 <= m < n < |listed| ==> listed[m] != listed[n]
      modifies this, db
      ensures db.Tables() == world.db && Sound(History) && old(run) <= run
      ensures r in world.tasks && world.tasks[r] == old(world.tasks)[r].(pc := Done(result))
      ensures db.reliable ==> result.Ok?
    {
      SettlerCanSettle(world, r);
      var t, before := world.tasks[r], db.Tables();
      var ids;
      result, ids := db.SettleListed(t.invoice, t.attempt, t.pc.outcome, listed, world.now);
      var after := db.Tables();
      assert after != before || result.Err? by {
        if result.Ok? { SettlesChanges(world, after, r, ids); }
      }
      if after == before {
        FailSettlement(r);
      } else {
        TakeSettlement(r, ids, result.Ok?);
      }
    }

    /** The second half: it writes and commits. */
    method CommitSettlement(r: RequestId, listed: seq<EndpointId>) returns (result: Result<PayResult, ErrorCode>)
      requires Valid() && r in world.tasks && world.tasks[r].pc.Listed?
          && world.tasks[r].pc.endpoints == Elements(listed)
      requires forall m, n :: 0 <= m < n < |listed| ==> listed[m] != listed[n]
      modifies this, db
      ensures Valid() && old(run) <= run
      ensures r in world.tasks && world.tasks[r] == old(world.tasks)[r].(pc := Done(result))
      ensures db.reliable ==> result.Ok?
    {
      Others(TaskOf(r));
      result := RunSettlement(r, listed);
      IsValid();
    }

    /** `finalize_payment_attempt`, with steps of others before it and between its
        listing of the endpoints and its commit. It always finds its attempt pending,
        so it is never turned away as "already finalized". */
    method Finalize(r: RequestId) returns (result: Result<PayResult, ErrorCode>)
      requires Valid() && r in world.tasks && world.tasks[r].pc.Settling?
      modifies this, db
      ensures Valid() && old(run) <= run
      ensures r in world.tasks && world.tasks[r] == old(world.tasks)[r].(pc := Done(result))
      ensures db.reliable ==> result.Ok?
    {
      var listed := ListForSettlement(r);
      if listed.None? {
        return Err(InternalError);
      }
      result := CommitSettlement(r, listed.value);
    }

    /** The detached task: the row of its attempt, and what it returns, tell of the outcome. */
    method RunTask(r: RequestId, outcome: PspOutcome) returns (result: Result<PayResult, ErrorCode>)
      requires Valid() && r in world.tasks && world.tasks[r].pc.Ready?
      modifies this, db
      ensures Valid() && old(run) <= run
      ensures r in world.tasks && world.tasks[r] ==
          old(world.tasks)[r].(called := true, answer := Some(outcome), pc := Done(result))
      ensures db.reliable ==> result.Ok?
      ensures result.Ok? ==>
          Repeats(world, r, result.value) && TellsOf(world.db.attempts[result.value.attempt], outcome)
    {
      Charge(r, outcome);
      result := Finalize(r);
      Facts();
      if result.Ok? {
        TaskFacts(world, r);
        Outcomes.SettledByItsTask(world, result.value.attempt);
      }
    }
  }
}
