/** Which steps can change which part of the state. */
module Frames {
  import opened Domain
  import opened Protocol

  predicate OfHandler(s: Step) {
    s.Arrive? || s.SelectKey? || s.InsertKey? || s.Claim? || s.FetchAndSpawn? || s.Join? || s.TimeOut? || s.Store?
        || s.DbError? || s.KillRequest?
  }

  predicate OfTask(s: Step) {
    s.Call? || s.Answer? || s.ListEndpoints? || s.Settle? || s.SettleFails? || s.KillTask?
  }

  predicate OfTraffic(s: Step) {
    s.RegisterEndpoint? || s.CreateInvoice? || s.Transition? || s.Dispatch?
  }

  /** Steps that change no table. */
  predicate Quiet(s: Step) {
    !OfTraffic(s) && !s.InsertKey? && !s.Claim? && !s.Store? && !s.Settle?
  }

  lemma QuietFrame(w: World, s: Step)
    requires Enabled(w, s) && Quiet(s)
    ensures Next(w, s).db == w.db
  {
  }

  lemma TrafficFrame(w: World, s: Step)
    requires Enabled(w, s) && OfTraffic(s)
    ensures Next(w, s) == w.(db := Next(w, s).db, now := w.now + 1)
    ensures Next(w, s).db.attempts == w.db.attempts && Next(w, s).db.keys == w.db.keys
  {
  }

  lemma TaskFrame(w: World, s: Step)
    requires Enabled(w, s) && OfTask(s)
    ensures s.r in w.tasks
    ensures var w' := Next(w, s);
            && w'.requests == w.requests && w'.origin == w.origin && w'.db.keys == w.db.keys
            && w'.db.endpoints == w.db.endpoints
            && s.r in w'.tasks && w'.tasks == w.tasks[s.r := w'.tasks[s.r]]
            && (!s.Call? ==> w'.calls == w.calls) && (!s.Answer? ==> w'.answers == w.answers)
  {
  }

  /** What any step of a handler leaves alone, step kind by step kind. */
  ghost predicate HandlerFramed(w: World, s: Step, w': World)
    requires OfHandler(s)
  {
    && w'.calls == w.calls && w'.answers == w.answers && w'.listed == w.listed
    && w'.db.invoices == w.db.invoices && w'.db.endpoints == w.db.endpoints && w'.db.deliveries == w.db.deliveries
    && s.r in w'.requests && w'.requests == w.requests[s.r := w'.requests[s.r]]
    && (!s.FetchAndSpawn? ==> w'.tasks == w.tasks)
    && (!s.Claim? ==> w'.db.attempts == w.db.attempts && w'.origin == w.origin)
    && (!s.InsertKey? && !s.Store? ==> w'.db.keys == w.db.keys)
    && w'.db.keys.Keys <= w.db.keys.Keys + {w'.requests[s.r].key}
    && (if s.Arrive? then !w'.requests[s.r].proceeded
        else s.r in w.requests && (w'.requests[s.r].proceeded ==>
            w.requests[s.r].proceeded || (s.InsertKey? && w.requests[s.r].key !in w.db.keys)))
    && (w'.requests[s.r].pc.Fetching? ==> s.Claim? && w'.requests[s.r].pc.attempt == s.a)
  }

  lemma InsertKeyFrame(w: World, r: RequestId, ack: bool)
    requires Enabled(w, InsertKey(r, ack))
    ensures HandlerFramed(w, InsertKey(r, ack), Next(w, InsertKey(r, ack)))
  {
  }

  lemma AfterClaimFrame(w: World, r: RequestId, a: AttemptId, ack: bool)
    requires r in w.requests
    ensures HandlerFramed(w, Claim(r, a, ack), Tick(AfterClaim(w, r, a, ack)))
  {
  }

  lemma ClaimFrame(w: World, r: RequestId, a: AttemptId, ack: bool)
    requires Enabled(w, Claim(r, a, ack))
    ensures HandlerFramed(w, Claim(r, a, ack), Next(w, Claim(r, a, ack)))
  {
    AfterClaimFrame(w, r, a, ack);
  }

  lemma AfterFetchFrame(w: World, r: RequestId, a: AttemptId)
    requires r in w.requests
    ensures HandlerFramed(w, FetchAndSpawn(r), Tick(AfterFetch(w, r, a)))
  {
  }

  lemma FetchFrame(w: World, r: RequestId)
    requires Enabled(w, FetchAndSpawn(r))
    ensures HandlerFramed(w, FetchAndSpawn(r), Next(w, FetchAndSpawn(r)))
  {
    AfterFetchFrame(w, r, w.requests[r].pc.attempt);
  }

  /** A spawn adds the handler's own task and touches no other. */
  lemma SpawnFrame(w: World, r: RequestId)
    requires Enabled(w, FetchAndSpawn(r))
    ensures forall x :: x != r ==> (x in Next(w, FetchAndSpawn(r)).tasks <==> x in w.tasks)
    ensures forall x :: x != r && x in w.tasks ==> Next(w, FetchAndSpawn(r)).tasks[x] == w.tasks[x]
  {
  }

  lemma StoreFrame(w: World, r: RequestId, ack: bool)
    requires Enabled(w, Store(r, ack))
    ensures HandlerFramed(w, Store(r, ack), Next(w, Store(r, ack)))
  {
  }

  lemma HandlerFrame(w: World, s: Step)
    requires Enabled(w, s) && OfHandler(s)
    ensures HandlerFramed(w, s, Next(w, s))
  {
    match s
    case InsertKey(r, ack) => InsertKeyFrame(w, r, ack);
    case Claim(r, a, ack) => ClaimFrame(w, r, a, ack);
    case FetchAndSpawn(r) => FetchFrame(w, r);
    case Store(r, ack) => StoreFrame(w, r, ack);
    case _ =>
  }

  /** Only its own steps move a handler. */
  lemma RequestStands(w: World, s: Step, r: RequestId)
    requires Enabled(w, s) && r in w.requests && !(OfHandler(s) && s.r == r)
    ensures r in Next(w, s).requests && Next(w, s).requests[r] == w.requests[r]
  {
    if OfHandler(s) {
      HandlerFrame(w, s);
    } else if OfTask(s) {
      TaskFrame(w, s);
    } else {
      TrafficFrame(w, s);
    }
  }

  /** Only its own steps, and the spawn, touch a task. */
  lemma TaskStands(w: World, s: Step, r: RequestId)
    requires Enabled(w, s) && !(OfTask(s) && s.r == r) && s != FetchAndSpawn(r)
    ensures r in Next(w, s).tasks <==> r in w.tasks
    ensures r in w.tasks ==> Next(w, s).tasks[r] == w.tasks[r]
  {
    if OfHandler(s) {
      HandlerFrame(w, s);
      if s.FetchAndSpawn? { SpawnFrame(w, s.r); }
    } else if OfTask(s) {
      TaskFrame(w, s);
    } else {
      TrafficFrame(w, s);
    }
  }

  /** Only a claim and a settlement touch the attempts. */
  lemma AttemptsFrame(w: World, s: Step)
    requires Enabled(w, s) && !s.Claim? && !s.Settle?
    ensures Next(w, s).db.attempts == w.db.attempts
  {
    if OfHandler(s) {
      HandlerFrame(w, s);
    } else if OfTraffic(s) {
      TrafficFrame(w, s);
    } else {
      QuietFrame(w, s);
    }
  }

  lemma InsertKeepsRow(w: World, r: RequestId, ack: bool, k: KeyId)
    requires Enabled(w, InsertKey(r, ack)) && k in w.db.keys
    ensures k in Next(w, InsertKey(r, ack)).db.keys && Next(w, InsertKey(r, ack)).db.keys[k] == w.db.keys[k]
  {
  }

  lemma StoreKeepsRow(w: World, r: RequestId, ack: bool, k: KeyId)
    requires Enabled(w, Store(r, ack)) && k in w.db.keys && w.requests[r].key != k
    ensures k in Next(w, Store(r, ack)).db.keys && Next(w, Store(r, ack)).db.keys[k] == w.db.keys[k]
  {
  }

  /** A key row changes only when a response is stored under it. */
  lemma KeyRowFrame(w: World, s: Step, k: KeyId)
    requires Enabled(w, s) && k in w.db.keys && (s.Store? ==> w.requests[s.r].key != k)
    ensures k in Next(w, s).db.keys && Next(w, s).db.keys[k] == w.db.keys[k]
  {
    if s.InsertKey? {
      InsertKeepsRow(w, s.r, s.ack, k);
    } else if s.Store? {
      StoreKeepsRow(w, s.r, s.ack, k);
    } else if OfHandler(s) {
      HandlerFrame(w, s);
    } else if OfTask(s) {
      TaskFrame(w, s);
    } else {
      TrafficFrame(w, s);
    }
  }
}
