/** The same question for idempotency keys: a reserved key without a response can
    still get one if and only if the request that owns it is still running. */
module StuckKeys {
  import opened Domain
  import opened Protocol
  import opened Frames
  import opened Evolution
  import opened Invariant
  import opened Preservation

  predicate Owns(q: Request, k: KeyId) {
    q.proceeded && q.key == k && !q.pc.Replied? && !q.pc.Killed?
  }

  predicate HasOwner(w: World, k: KeyId) {
    exists r :: r in w.requests && Owns(w.requests[r], k)
  }

  predicate Unanswered(w: World, k: KeyId) {
    k in w.db.keys && w.db.keys[k].response.None?
  }

  predicate Abandoned(w: World, k: KeyId) {
    Unanswered(w, k) && !HasOwner(w, k)
  }

  /** A key that is taken gets no new owner. */
  lemma NoNewOwner(w: World, s: Step, r: RequestId, k: KeyId)
    requires Inv(w) && Enabled(w, s) && k in w.db.keys && r in Next(w, s).requests && Owns(Next(w, s).requests[r], k)
    ensures r in w.requests && Owns(w.requests[r], k)
  {
    StepKeeps(w, s);
    assert EvolvesIn(w, Next(w, s), RequestPart);
    if OfHandler(s) {
      HandlerFrame(w, s);
    } else if OfTask(s) {
      TaskFrame(w, s);
    } else {
      TrafficFrame(w, s);
    }
  }

  lemma AbandonedStep(w: World, s: Step, k: KeyId)
    requires Inv(w) && Enabled(w, s) && Abandoned(w, k)
    ensures Abandoned(Next(w, s), k)
  {
    forall r | r in Next(w, s).requests ensures !Owns(Next(w, s).requests[r], k) {
      if Owns(Next(w, s).requests[r], k) { NoNewOwner(w, s, r, k); }
    }
    if s.Store? {
      HandlerFacts(w, s.r);
      assert !Owns(w.requests[s.r], k);
    }
    KeyRowFrame(w, s, k);
  }

  lemma {:induction false} AbandonedForEver(w: World, steps: seq<Step>, w': World, k: KeyId)
    requires Inv(w) && Runs(w, steps, w') && Abandoned(w, k)
    ensures Abandoned(w', k)
    decreases |steps|
  {
    if steps != [] {
      StepKeeps(w, steps[0]);
      AbandonedStep(w, steps[0], k);
      AbandonedForEver(Next(w, steps[0]), steps[1..], w', k);
    }
  }

  /** A retry under an abandoned key never proceeds; if it gets a reply at all it
      is "in progress", "key reused" or a database error. */
  lemma RetryUnderAbandonedKey(w: World, steps: seq<Step>, w': World, k: KeyId, r: RequestId)
    requires Reachable(w) && Runs(w, steps, w') && Abandoned(w, k)
    requires r in w'.requests && w'.requests[r].key == k && (r in w.requests ==> w.requests[r].pc.Reserving?)
    ensures w'.requests[r].pc.Reserving? || w'.requests[r].pc.Killed?
      || (w'.requests[r].pc.Replied? && w'.requests[r].pc.response.Refused?
          && w'.requests[r].pc.response.code in {RequestInProgress, IdempotencyKeyReused, InternalError})
  {
    ReachableIsOk(w);
    RunKeeps(w, steps, w');
    AbandonedForEver(w, steps, w', k);
    HandlerFacts(w', r);
    assert !Owns(w'.requests[r], k);
  }

  // ---- How a key gets stuck ----

  /** Whenever the owner of a key dies, wherever it stands, the key is abandoned. */
  lemma CrashAbandons(w: World, r: RequestId)
    requires Reachable(w) && r in w.requests && Owns(w.requests[r], w.requests[r].key)
    ensures Enabled(w, KillRequest(r)) && Abandoned(Next(w, KillRequest(r)), w.requests[r].key)
  {
    ReachableIsOk(w);
    HandlerFacts(w, r);
    assert Holds(w, Keys);
    forall x | x in w.requests && x != r ensures !Owns(w.requests[x], w.requests[r].key) {
      assert SameKeyProceeded(w.requests[x], w.requests[r]) ==> x == r;
    }
  }

  /** For every key, invoice and card: a request that dies before its claim leaves
      nothing behind, no attempt and no call, but its key. */
  lemma CrashBeforeTheClaim(k: KeyId, i: InvoiceId, card: string) returns (w: World)
    ensures Reachable(w) && Abandoned(w, k) && w.db.keys[k].hash == RequestHash(i, card)
    ensures w.db.attempts == map[] && w.calls == []
  {
    assert Runs(START, [], START);
    ReachableStep(START, Arrive(0, k, i, card));
    w := Next(START, Arrive(0, k, i, card));
    ReachableStep(w, SelectKey(0));
    w := Next(w, SelectKey(0));
    ReachableStep(w, InsertKey(0, true));
    w := Next(w, InsertKey(0, true));
    CrashAbandons(w, 0);
    ReachableStep(w, KillRequest(0));
    w := Next(w, KillRequest(0));
  }

  // ---- The way back: with an owner left, the key can be answered ----

  function StepsLeft(pc: RequestPc): nat {
    match pc
    case Claiming => 4
    case Fetching(_) => 3
    case Waiting(_) => 2
    case Storing(_) => 1
    case _ => 0
  }

  /** The next step of an owner that meets no fault. */
  function OwnerStep(w: World, r: RequestId, a: AttemptId): Step
    requires r in w.requests
  {
    match w.requests[r].pc
    case Claiming => Claim(r, a, true)
    case Fetching(_) => FetchAndSpawn(r)
    case Waiting(_) => TimeOut(r)
    case _ => Store(r, true)
  }

  lemma OwnerAdvances(w: World, r: RequestId, a: AttemptId)
    requires Inv(w) && r in w.requests && Owns(w.requests[r], w.requests[r].key) && a !in w.db.attempts
        && !w.requests[r].pc.Storing?
    ensures var s := OwnerStep(w, r, a);
            && Enabled(w, s) && !s.Store? && r in Next(w, s).requests
            && Owns(Next(w, s).requests[r], w.requests[r].key)
            && StepsLeft(Next(w, s).requests[r].pc) < StepsLeft(w.requests[r].pc)
  {
    HandlerFacts(w, r);
  }

  lemma OwnerStores(w: World, r: RequestId)
    requires Inv(w) && r in w.requests && Owns(w.requests[r], w.requests[r].key) && w.requests[r].pc.Storing?
    ensures Enabled(w, Store(r, true))
    ensures var k, w' := w.requests[r].key, Next(w, Store(r, true)); k in w'.db.keys && w'.db.keys[k].response.Some?
  {
    HandlerFacts(w, r);
  }

  /** The owner of a key, left alone, stores a response. */
  lemma {:induction false} OwnerCanAnswer(w: World, r: RequestId) returns (steps: seq<Step>, w': World)
    requires Inv(w) && r in w.requests && Owns(w.requests[r], w.requests[r].key)
    ensures Runs(w, steps, w') && w.requests[r].key in w'.db.keys && w'.db.keys[w.requests[r].key].response.Some?
    decreases StepsLeft(w.requests[r].pc)
  {
    if w.requests[r].pc.Storing? {
      OwnerStores(w, r);
      steps, w' := [Store(r, true)], Next(w, Store(r, true));
      assert steps[1..] == [];
    } else {
      var a := AboveAll(w.db.attempts.Keys);
      OwnerAdvances(w, r, a);
      var s := OwnerStep(w, r, a);
      StepKeeps(w, s);
      var rest, end := OwnerCanAnswer(Next(w, s), r);
      steps, w' := [s] + rest, end;
      assert steps[1..] == rest;
    }
  }

  ghost predicate CanBeAnswered(w: World, k: KeyId) {
    exists steps, w' :: Runs(w, steps, w') && k in w'.db.keys && w'.db.keys[k].response.Some?
  }

  lemma AnswerableIffOwner(w: World, k: KeyId)
    requires Reachable(w) && Unanswered(w, k)
    ensures CanBeAnswered(w, k) <==> HasOwner(w, k)
  {
    ReachableIsOk(w);
    if HasOwner(w, k) {
      var r :| r in w.requests && Owns(w.requests[r], k);
      var steps, w' := OwnerCanAnswer(w, r);
    } else if CanBeAnswered(w, k) {
      var steps, w' :| Runs(w, steps, w') && k in w'.db.keys && w'.db.keys[k].response.Some?;
      AbandonedForEver(w, steps, w', k);
    }
  }
}
