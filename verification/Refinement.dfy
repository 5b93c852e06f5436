/** Interleaving the transactions statement by statement refines the protocol in
    which each of them is one step: every reachable interleaving has a reachable
    `World`, so all guarantees about those hold of it too. */
module Refinement {
  import opened Domain
  import opened Transactions
  import opened Protocol
  import opened Frames
  import opened Evolution
  import opened Invariant
  import opened Preservation
  import opened Orphans
  import opened Isolation

  // ---- What holds between the statements ----

  ghost predicate LocksExclude(f: Sessions) {
    forall o, o', i :: HoldsInvoice(f, o, i) && HoldsInvoice(f, o', i) ==> o == o'
  }

  /** A claim that holds its row still sees it open; one that has inserted its
      attempt still has the unique index to itself. */
  ghost predicate ClaimOk(f: Sessions, r: RequestId)
    requires r in f.claims
  {
    && r in f.w.requests && f.w.requests[r].pc.Claiming? && ClaimFindsRow(f.w, r)
    && f.w.db.invoices[f.w.requests[r].invoice].state.Open?
    && (f.claims[r].Inserted? ==>
          f.claims[r].attempt !in f.w.db.attempts && !HasPending(f.w.db, f.w.requests[r].invoice))
  }

  ghost predicate ClaimsOk(f: Sessions) {
    && (forall r :: r in f.claims ==> ClaimOk(f, r))
    && (forall r, r' :: r in f.claims && r' in f.claims && f.claims[r].Inserted? && f.claims[r] == f.claims[r'] ==>
        r == r')
  }

  /** A settlement that has passed its UPDATE of the invoice will do with the
      committed row what that UPDATE decided. */
  ghost predicate SettleOk(f: Sessions, r: RequestId)
    requires r in f.settles
  {
    && r in f.w.tasks && f.w.tasks[r].invoice in f.w.db.invoices
    && match f.w.tasks[r].pc
       case Settling(outcome) => f.settles[r].ids == map[] && UpdateDecided(f, r, outcome)
       case Listed(outcome, endpoints, _) =>
         && f.settles[r].ids.Values <= endpoints && UpdateDecided(f, r, outcome)
         && (outcome.Succeeded? ==> f.settles[r].invoiceDone)
       case _ => false
  }

  predicate UpdateDecided(f: Sessions, r: RequestId, outcome: PspOutcome)
    requires r in f.settles && r in f.w.tasks && f.w.tasks[r].invoice in f.w.db.invoices
  {
    && (f.settles[r].pays ==> f.settles[r].invoiceDone && outcome.Succeeded?)
    && (f.settles[r].invoiceDone ==> (f.settles[r].pays <==> f.w.db.invoices[f.w.tasks[r].invoice].state.Open?))
  }

  ghost predicate OneRowEach(ids: map<DeliveryId, EndpointId>) {
    forall d, d' :: d in ids && d' in ids && ids[d] == ids[d'] ==> d == d'
  }

  ghost predicate IdsOk(f: Sessions) {
    && (forall r :: r in f.settles ==> f.settles[r].ids.Keys !! f.w.db.deliveries.Keys)
    && (forall r :: r in f.settles ==> OneRowEach(f.settles[r].ids))
    && (forall r, r', d :: r in f.settles && r' in f.settles && d in f.settles[r].ids && d in f.settles[r'].ids ==>
        r == r')
  }

  ghost predicate MovesOk(f: Sessions) {
    forall x :: x in f.moves ==> TransitionAllowed(f.w.db, f.moves[x].business, f.moves[x].i, f.moves[x].action)
  }

  datatype Aspect = Atomic | Locks | Claims | Settles | Ids | Moves

  ghost predicate GoodIn(f: Sessions, aspect: Aspect) {
    match aspect
    case Atomic => Inv(f.w)
    case Locks => LocksExclude(f)
    case Claims => ClaimsOk(f)
    case Settles => forall r :: r in f.settles ==> SettleOk(f, r)
    case Ids => IdsOk(f)
    case Moves => MovesOk(f)
  }

  ghost predicate Good(f: Sessions) {
    forall aspect :: GoodIn(f, aspect)
  }

  /** The atomic protocol can do what the statement did to the world, or it did nothing. */
  ghost predicate Simulates(w: World, w': World) {
    w' == w || exists s :: Enabled(w, s) && w' == Next(w, s)
  }

  lemma IdleIsGood()
    ensures Good(IDLE)
  {
    StartIsOk();
    forall aspect ensures GoodIn(IDLE, aspect) {
    }
  }

  // ---- Statements that change only their session ----

  lemma ClaimSelectLocks(f: Sessions, r: RequestId)
    requires Good(f) && StatementEnabled(f, ClaimSelect(r)) && ClaimFindsRow(f.w, r)
    requires f.w.db.invoices[f.w.requests[r].invoice].state.Open?
    ensures Good(AfterClaimSelect(f, r)) && AfterClaimSelect(f, r).w == f.w
  {
    var f' := AfterClaimSelect(f, r);
    forall aspect ensures GoodIn(f', aspect) {
      assert GoodIn(f, aspect);
      if aspect.Locks? {
        forall o, o', i | HoldsInvoice(f', o, i) && HoldsInvoice(f', o', i) ensures o == o' {
          assert o == ByClaim(r) || HoldsInvoice(f, o, i);
          assert o' == ByClaim(r) || HoldsInvoice(f, o', i);
        }
      }
    }
  }

  ghost predicate FewerLocks(f: Sessions, f': Sessions) {
    forall o, i :: HoldsInvoice(f', o, i) ==> HoldsInvoice(f, o, i)
  }

  lemma ClaimInserts(f: Sessions, r: RequestId, a: AttemptId)
    requires Good(f) && StatementEnabled(f, Statement.ClaimInsert(r, a)) && !HasPending(f.w.db, f.w.requests[r].invoice)
    ensures Good(AfterClaimInsert(f, r, a)) && AfterClaimInsert(f, r, a).w == f.w
  {
    var f' := AfterClaimInsert(f, r, a);
    assert FewerLocks(f, f');
    forall aspect ensures GoodIn(f', aspect) {
      assert GoodIn(f, aspect);
    }
  }

  lemma SettleStarts(f: Sessions, r: RequestId)
    requires Good(f) && StatementEnabled(f, SettleUpdateAttempt(r))
    ensures Good(AfterUpdateAttempt(f, r)) && AfterUpdateAttempt(f, r).w == f.w
  {
    var f' := AfterUpdateAttempt(f, r);
    assert GoodIn(f, Atomic);
    TaskFacts(f.w, r);
    assert FewerLocks(f, f');
    forall aspect ensures GoodIn(f', aspect) {
      assert GoodIn(f, aspect);
    }
  }

  lemma SettleDecides(f: Sessions, r: RequestId)
    requires Good(f) && StatementEnabled(f, SettleUpdateInvoice(r))
    ensures Good(AfterStatement(f, SettleUpdateInvoice(r))) && AfterStatement(f, SettleUpdateInvoice(r)).w == f.w
  {
    var f' := AfterStatement(f, SettleUpdateInvoice(r));
    forall aspect ensures GoodIn(f', aspect) {
      assert GoodIn(f, aspect);
      if aspect.Locks? {
        forall o, o', i | HoldsInvoice(f', o, i) && HoldsInvoice(f', o', i) ensures o == o' {
          assert o == BySettle(r) || HoldsInvoice(f, o, i);
          assert o' == BySettle(r) || HoldsInvoice(f, o', i);
        }
      }
    }
  }

  lemma SettleInserts(f: Sessions, r: RequestId, e: EndpointId, d: DeliveryId)
    requires Good(f) && StatementEnabled(f, SettleInsertDelivery(r, e, d))
    ensures Good(AfterStatement(f, SettleInsertDelivery(r, e, d)))
        && AfterStatement(f, SettleInsertDelivery(r, e, d)).w == f.w
  {
    var f' := AfterStatement(f, SettleInsertDelivery(r, e, d));
    assert FewerLocks(f, f');
    forall aspect ensures GoodIn(f', aspect) {
      assert GoodIn(f, aspect);
      if aspect.Settles? {
        assert f'.settles[r].ids.Values <= f.settles[r].ids.Values + {e};
      }
    }
  }

  lemma MoveStatement(f: Sessions, st: Statement)
    requires Good(f) && StatementEnabled(f, st) && (st.MoveSelect? || st.MoveUpdate? || st.MoveAbort?)
    ensures Good(AfterStatement(f, st)) && AfterStatement(f, st).w == f.w
  {
    var f' := AfterStatement(f, st);
    forall aspect ensures GoodIn(f', aspect) {
      assert GoodIn(f, aspect);
      if aspect.Locks? {
        forall o, o', i | HoldsInvoice(f', o, i) && HoldsInvoice(f', o', i) ensures o == o' {
          assert (st.MoveSelect? && o == ByMove(st.x)) || HoldsInvoice(f, o, i);
          assert (st.MoveSelect? && o' == ByMove(st.x)) || HoldsInvoice(f, o', i);
        }
      }
    }
  }

  // ---- Statements that end a transaction without a write ----

  lemma RefuseKeeps(f: Sessions, r: RequestId, code: ErrorCode)
    requires Good(f) && r in f.w.requests && f.w.requests[r].pc.Claiming? && Inv(Refuse(f, r, code).w)
    ensures Good(Refuse(f, r, code))
  {
    var f' := Refuse(f, r, code);
    assert FewerLocks(f, f');
    forall aspect ensures GoodIn(f', aspect) {
      assert GoodIn(f, aspect);
    }
  }

  /** A refusal before or by the INSERT is the refusal of the atomic claim. */
  lemma ClaimRefuses(f: Sessions, r: RequestId, code: ErrorCode)
    requires Good(f) && r in f.w.requests && f.w.requests[r].pc.Claiming?
    requires ClaimRefusal(f.w.db, f.w.requests[r].key.business, f.w.requests[r].invoice) == Some(code)
    ensures Good(Refuse(f, r, code)) && Simulates(f.w, Refuse(f, r, code).w)
  {
    var a := AboveAll(f.w.db.attempts.Keys);
    var s := Claim(r, a, true);
    assert Enabled(f.w, s) && Next(f.w, s) == Refuse(f, r, code).w;
    assert GoodIn(f, Atomic);
    StepKeeps(f.w, s);
    RefuseKeeps(f, r, code);
  }

  lemma ClaimAborts(f: Sessions, r: RequestId)
    requires Good(f) && StatementEnabled(f, ClaimAbort(r))
    ensures Good(Refuse(f, r, InternalError)) && Simulates(f.w, Refuse(f, r, InternalError).w)
  {
    assert GoodIn(f, Claims) && GoodIn(f, Atomic);
    var s := DbError(r);
    assert Enabled(f.w, s) && Next(f.w, s) == Refuse(f, r, InternalError).w;
    StepKeeps(f.w, s);
    RefuseKeeps(f, r, InternalError);
  }

  /** The task of a session moves on, or its session ends. */
  lemma TaskMovesKeeps(f: Sessions, f': Sessions, r: RequestId, pc: TaskPc)
    requires Good(f) && r in f.w.tasks && f'.w == Tick(SetTask(f.w, r, pc)) && Inv(f'.w)
    requires f'.claims == f.claims && f'.moves == f.moves
    requires f'.settles == f.settles - {r} || (f'.settles == f.settles && r in f.settles && SettleOk(f', r))
    ensures Good(f')
  {
    assert FewerLocks(f, f');
    forall aspect ensures GoodIn(f', aspect) {
      assert GoodIn(f, aspect);
    }
  }

  lemma SettleAborts(f: Sessions, r: RequestId)
    requires Good(f) && StatementEnabled(f, SettleAbort(r))
    ensures Good(AfterStatement(f, SettleAbort(r))) && Simulates(f.w, AfterStatement(f, SettleAbort(r)).w)
  {
    var f' := AfterStatement(f, SettleAbort(r));
    var s := SettleFails(r);
    assert GoodIn(f, Settles) && GoodIn(f, Atomic);
    assert SettleOk(f, r);
    assert Enabled(f.w, s) && Next(f.w, s) == f'.w;
    StepKeeps(f.w, s);
    TaskMovesKeeps(f, f', r, Done(Err(InternalError)));
  }

  lemma SettleLists(f: Sessions, r: RequestId)
    requires Good(f) && StatementEnabled(f, SettleSelectEndpoints(r))
    ensures Good(AfterStatement(f, SettleSelectEndpoints(r)))
        && Simulates(f.w, AfterStatement(f, SettleSelectEndpoints(r)).w)
  {
    var f' := AfterStatement(f, SettleSelectEndpoints(r));
    assert GoodIn(f, Atomic) && GoodIn(f, Settles) && SettleOk(f, r);
    StepKeeps(f.w, ListEndpoints(r));
    TaskMovesKeeps(f, f', r, f'.w.tasks[r].pc);
  }

  // ---- Single statements ----

  /** The task is in the transaction of `finalize_payment_attempt`. */
  predicate Finalizing(t: Task) {
    t.pc.Settling? || t.pc.Listed?
  }

  /** What a single statement cannot change under an open transaction. */
  ghost predicate SingleFramed(f: Sessions, s: Step, w': World) {
    && w'.db.attempts == f.w.db.attempts && Extends(f.w.db.invoices, w'.db.invoices)
    && (forall r :: r in f.claims && r in f.w.requests && f.w.requests[r].pc.Claiming? && s != KillRequest(r) ==>
          r in w'.requests && w'.requests[r] == f.w.requests[r])
    && (forall r :: r in f.settles && r in f.w.tasks && Finalizing(f.w.tasks[r]) && s != KillTask(r) ==>
          r in w'.tasks && w'.tasks[r] == f.w.tasks[r])
    && (forall d :: d in w'.db.deliveries && d !in f.w.db.deliveries ==> FreshDelivery(f, d))
  }

  lemma SingleFrame(f: Sessions, s: Step)
    requires Inv(f.w) && SingleEnabled(f, s)
    ensures SingleFramed(f, s, Next(f.w, s))
  {
    if OfHandler(s) {
      HandlerFrame(f.w, s);
      if s.FetchAndSpawn? { HandlerFacts(f.w, s.r); }
    } else if OfTask(s) {
      SingleTaskFrame(f, s);
    } else {
      TrafficFrame(f.w, s);
    }
  }

  lemma SingleTaskFrame(f: Sessions, s: Step)
    requires SingleEnabled(f, s) && OfTask(s)
    ensures SingleFramed(f, s, Next(f.w, s))
  {
    TaskFrame(f.w, s);
    QuietFrame(f.w, s);
  }

  ghost predicate ClaimKept(f: Sessions, f': Sessions, r: RequestId) {
    && r in f.claims && r in f'.claims && f'.claims[r] == f.claims[r]
    && r in f.w.requests && r in f'.w.requests && f'.w.requests[r] == f.w.requests[r]
    && SameInvoice(f, f', f.w.requests[r].invoice)
    && (f.claims[r].Inserted? ==>
          f.claims[r].attempt !in f'.w.db.attempts
              && (HasPending(f'.w.db, f.w.requests[r].invoice) ==> HasPending(f.w.db, f.w.requests[r].invoice)))
  }

  predicate SameInvoice(f: Sessions, f': Sessions, i: InvoiceId) {
    i in f.w.db.invoices && i in f'.w.db.invoices && f'.w.db.invoices[i] == f.w.db.invoices[i]
  }

  ghost predicate SettleKept(f: Sessions, f': Sessions, r: RequestId) {
    && r in f.settles && r in f'.settles && f'.settles[r] == f.settles[r]
    && r in f.w.tasks && r in f'.w.tasks && f'.w.tasks[r] == f.w.tasks[r]
    && f.w.tasks[r].invoice in f'.w.db.invoices
    && (f.settles[r].invoiceDone ==> SameInvoice(f, f', f.w.tasks[r].invoice))
    && f.settles[r].ids.Keys !! f'.w.db.deliveries.Keys
  }

  ghost predicate MoveKept(f: Sessions, f': Sessions, x: TxId) {
    x in f.moves && x in f'.moves && f'.moves[x] == f.moves[x] && SameInvoice(f, f', f.moves[x].i)
  }

  /** Every session of `f'` was one of `f`, and the rows it relies on are the same. */
  ghost predicate Undisturbed(f: Sessions, f': Sessions) {
    && (forall r :: r in f'.claims ==> ClaimKept(f, f', r))
    && (forall r :: r in f'.settles ==> SettleKept(f, f', r))
    && (forall x :: x in f'.moves ==> MoveKept(f, f', x))
  }

  lemma UndisturbedIsGood(f: Sessions, f': Sessions)
    requires Good(f) && Inv(f'.w) && Undisturbed(f, f')
    ensures Good(f')
  {
    assert FewerLocks(f, f');
    forall aspect ensures GoodIn(f', aspect) {
      assert GoodIn(f, aspect);
      match aspect
      case Claims =>
        forall r | r in f'.claims ensures ClaimOk(f', r) {
          assert ClaimKept(f, f', r) && ClaimOk(f, r);
        }
      case Settles =>
        forall r | r in f'.settles ensures SettleOk(f', r) {
          assert SettleKept(f, f', r) && SettleOk(f, r);
        }
      case _ =>
    }
  }

  lemma FramedKeepsClaim(f: Sessions, f': Sessions, s: Step, r: RequestId)
    requires Good(f) && SingleFramed(f, s, f'.w) && s != KillRequest(r)
    requires r in f.claims && r in f'.claims && f'.claims[r] == f.claims[r]
    ensures ClaimKept(f, f', r)
  {
    assert GoodIn(f, Claims) && ClaimOk(f, r);
  }

  lemma FramedKeepsSettle(f: Sessions, f': Sessions, s: Step, r: RequestId)
    requires Good(f) && SingleFramed(f, s, f'.w) && s != KillTask(r)
    requires r in f.settles && r in f'.settles && f'.settles[r] == f.settles[r]
    ensures SettleKept(f, f', r)
  {
    assert GoodIn(f, Settles) && SettleOk(f, r) && GoodIn(f, Ids);
  }

  lemma SingleKeeps(f: Sessions, s: Step)
    requires Good(f) && SingleEnabled(f, s)
    ensures Good(AfterSingle(f, s)) && Simulates(f.w, AfterSingle(f, s).w)
  {
    var f' := AfterSingle(f, s);
    assert GoodIn(f, Atomic);
    StepKeeps(f.w, s);
    SingleFrame(f, s);
    forall r | r in f'.claims ensures ClaimKept(f, f', r) { FramedKeepsClaim(f, f', s, r); }
    forall r | r in f'.settles ensures SettleKept(f, f', r) { FramedKeepsSettle(f, f', s, r); }
    forall x | x in f'.moves ensures MoveKept(f, f', x) {
      assert GoodIn(f, Moves);
    }
    UndisturbedIsGood(f, f');
  }

  // ---- Commits ----

  /** Two sessions cannot hold the same invoice. */
  lemma HoldersDiffer(f: Sessions, o: Owner, o': Owner, i: InvoiceId)
    requires Good(f) && HoldsInvoice(f, o, i) && HoldsInvoice(f, o', i)
    ensures o == o'
  {
    assert GoodIn(f, Locks);
  }

  /** An invoice read as open FOR UPDATE is still open when the claim commits, and
      the unique index is still free: the commit is the atomic claim. */
  lemma ClaimCommitIsAtomic(f: Sessions, r: RequestId, ack: bool)
    requires Good(f) && StatementEnabled(f, ClaimCommit(r, ack))
    ensures var s := Claim(r, f.claims[r].attempt, ack);
            && ClaimRefusal(f.w.db, f.w.requests[r].key.business, f.w.requests[r].invoice).None?
            && Enabled(f.w, s) && AfterStatement(f, ClaimCommit(r, ack)).w == Next(f.w, s)
  {
    assert GoodIn(f, Claims) && ClaimOk(f, r);
  }

  /** The other claims do not notice a committed claim: none is at the same invoice. */
  lemma ClaimCommitKeepsClaim(f: Sessions, r: RequestId, ack: bool, x: RequestId)
    requires Good(f) && StatementEnabled(f, ClaimCommit(r, ack)) && x in f.claims && x != r
    ensures ClaimKept(f, AfterStatement(f, ClaimCommit(r, ack)), x)
  {
    assert GoodIn(f, Claims) && ClaimOk(f, r) && ClaimOk(f, x);
    if f.w.requests[x].invoice == f.w.requests[r].invoice {
      HoldersDiffer(f, ByClaim(r), ByClaim(x), f.w.requests[r].invoice);
    }
  }

  lemma ClaimCommits(f: Sessions, r: RequestId, ack: bool)
    requires Good(f) && StatementEnabled(f, ClaimCommit(r, ack))
    ensures Good(AfterStatement(f, ClaimCommit(r, ack))) && Simulates(f.w, AfterStatement(f, ClaimCommit(r, ack)).w)
  {
    var f' := AfterStatement(f, ClaimCommit(r, ack));
    ClaimCommitIsAtomic(f, r, ack);
    assert GoodIn(f, Atomic);
    StepKeeps(f.w, Claim(r, f.claims[r].attempt, ack));
    forall x | x in f'.claims ensures ClaimKept(f, f', x) { ClaimCommitKeepsClaim(f, r, ack, x); }
    forall x | x in f'.settles ensures SettleKept(f, f', x) {
      assert GoodIn(f, Settles) && SettleOk(f, x) && GoodIn(f, Ids);
    }
    forall x | x in f'.moves ensures MoveKept(f, f', x) {
      assert GoodIn(f, Moves);
    }
    UndisturbedIsGood(f, f');
  }

  lemma SettleIsAddressed(f: Sessions, r: RequestId, ack: bool)
    requires Good(f) && StatementEnabled(f, SettleCommit(r, ack))
    ensures Addressed(f.settles[r].ids, f.w.tasks[r].pc.endpoints, f.w.db.deliveries)
  {
    var ids := f.settles[r].ids;
    assert GoodIn(f, Ids);
    forall e | e in f.w.tasks[r].pc.endpoints ensures exists d :: d in ids && ids[d] == e {
      assert e in ids.Values;
    }
    assert forall d :: d in ids ==> ids[d] in ids.Values;
  }

  /** What the UPDATE of the invoice decided is what the atomic settlement decides at the commit. */
  lemma SettleCommitIsAtomic(f: Sessions, r: RequestId, ack: bool)
    requires Good(f) && StatementEnabled(f, SettleCommit(r, ack))
    ensures var s := Settle(r, f.settles[r].ids, ack);
            Enabled(f.w, s) && AfterStatement(f, SettleCommit(r, ack)).w == Next(f.w, s)
  {
    SettleIsAddressed(f, r, ack);
    assert GoodIn(f, Settles) && SettleOk(f, r);
    SettleWritesTheSame(f, r, ack);
  }

  lemma SettleWritesTheSame(f: Sessions, r: RequestId, ack: bool)
    requires Good(f) && r in f.settles && SettleOk(f, r) && r in f.w.tasks && f.w.tasks[r].pc.Listed?
    ensures f.w.tasks[r].attempt in f.w.db.attempts
    ensures AfterSettleCommit(f, r, ack).w == Tick(AfterSettle(f.w, r, f.settles[r].ids, ack))
  {
    assert GoodIn(f, Atomic);
    SettleFindsPending(f.w, r);
    var i := f.w.tasks[r].invoice;
    assert f.w.db.invoices[i := f.w.db.invoices[i]] == f.w.db.invoices;
  }

  /** No other settlement is at the same invoice: both attempts would be live. */
  lemma SettlersDiffer(f: Sessions, r: RequestId, x: RequestId)
    requires Good(f) && r in f.settles && x in f.settles && r in f.w.tasks && x in f.w.tasks
        && f.w.tasks[r].invoice == f.w.tasks[x].invoice
    ensures r == x
  {
    assert GoodIn(f, Settles) && SettleOk(f, r) && SettleOk(f, x);
    assert GoodIn(f, Atomic);
    TaskFacts(f.w, r);
    TaskFacts(f.w, x);
    WorkerIsOfThePending(f.w, f.w.tasks[r].attempt, x);
  }

  lemma SettleCommitKeepsClaim(f: Sessions, r: RequestId, ack: bool, x: RequestId)
    requires Good(f) && StatementEnabled(f, SettleCommit(r, ack)) && x in f.claims
    ensures ClaimKept(f, AfterSettleCommit(f, r, ack), x)
  {
    assert GoodIn(f, Claims) && ClaimOk(f, x);
    if f.settles[r].pays && f.w.requests[x].invoice == f.w.tasks[r].invoice {
      HoldersDiffer(f, ByClaim(x), BySettle(r), f.w.tasks[r].invoice);
    }
  }

  lemma SettleCommitKeepsSettle(f: Sessions, r: RequestId, ack: bool, x: RequestId)
    requires Good(f) && StatementEnabled(f, SettleCommit(r, ack)) && x in f.settles && x != r
    ensures SettleKept(f, AfterSettleCommit(f, r, ack), x)
  {
    assert GoodIn(f, Settles) && SettleOk(f, x) && GoodIn(f, Ids);
    if f.w.tasks[x].invoice == f.w.tasks[r].invoice { SettlersDiffer(f, r, x); }
  }

  lemma SettleCommitKeepsMove(f: Sessions, r: RequestId, ack: bool, x: TxId)
    requires Good(f) && StatementEnabled(f, SettleCommit(r, ack)) && x in f.moves
    ensures MoveKept(f, AfterSettleCommit(f, r, ack), x)
  {
    assert GoodIn(f, Moves);
    if f.settles[r].pays && f.moves[x].i == f.w.tasks[r].invoice {
      HoldersDiffer(f, ByMove(x), BySettle(r), f.moves[x].i);
    }
  }

  lemma SettleCommits(f: Sessions, r: RequestId, ack: bool)
    requires Good(f) && StatementEnabled(f, SettleCommit(r, ack))
    ensures Good(AfterStatement(f, SettleCommit(r, ack))) && Simulates(f.w, AfterStatement(f, SettleCommit(r, ack)).w)
  {
    var f' := AfterStatement(f, SettleCommit(r, ack));
    SettleCommitIsAtomic(f, r, ack);
    assert GoodIn(f, Atomic);
    StepKeeps(f.w, Settle(r, f.settles[r].ids, ack));
    forall x | x in f'.claims ensures ClaimKept(f, f', x) { SettleCommitKeepsClaim(f, r, ack, x); }
    forall x | x in f'.settles ensures SettleKept(f, f', x) { SettleCommitKeepsSettle(f, r, ack, x); }
    forall x | x in f'.moves ensures MoveKept(f, f', x) { SettleCommitKeepsMove(f, r, ack, x); }
    UndisturbedIsGood(f, f');
  }

  lemma MoveCommitIsAtomic(f: Sessions, x: TxId)
    requires Good(f) && StatementEnabled(f, MoveCommit(x))
    ensures var s := Transition(f.moves[x].i, f.moves[x].business, f.moves[x].action);
            Enabled(f.w, s) && AfterStatement(f, MoveCommit(x)).w == Next(f.w, s)
  {
    assert GoodIn(f, Moves);
  }

  /** A settlement whose UPDATE of the invoice has run excludes a transition: it
      holds the row, or the row is terminal. */
  lemma DecidedExcludesMove(f: Sessions, x: TxId, r: RequestId)
    requires Good(f) && x in f.moves && r in f.settles && f.settles[r].invoiceDone && r in f.w.tasks
    ensures f.w.tasks[r].invoice != f.moves[x].i
  {
    assert GoodIn(f, Settles) && SettleOk(f, r) && GoodIn(f, Moves) && GoodIn(f, Atomic);
    TaskFacts(f.w, r);
    assert Holds(f.w, Attempts) && AttemptOk(f.w.db, f.w.db.attempts[f.w.tasks[r].attempt]);
    if f.settles[r].pays && f.w.tasks[r].invoice == f.moves[x].i {
      HoldersDiffer(f, ByMove(x), BySettle(r), f.moves[x].i);
    }
  }

  lemma MoveCommitKeepsSettle(f: Sessions, x: TxId, r: RequestId)
    requires Good(f) && StatementEnabled(f, MoveCommit(x)) && r in f.settles
    ensures SettleKept(f, AfterStatement(f, MoveCommit(x)), r)
  {
    assert GoodIn(f, Settles) && SettleOk(f, r) && GoodIn(f, Ids);
    if f.settles[r].invoiceDone { DecidedExcludesMove(f, x, r); }
  }

  lemma MoveCommits(f: Sessions, x: TxId)
    requires Good(f) && StatementEnabled(f, MoveCommit(x))
    ensures Good(AfterStatement(f, MoveCommit(x))) && Simulates(f.w, AfterStatement(f, MoveCommit(x)).w)
  {
    var f', i := AfterStatement(f, MoveCommit(x)), f.moves[x].i;
    MoveCommitIsAtomic(f, x);
    assert GoodIn(f, Atomic);
    StepKeeps(f.w, Transition(f.moves[x].i, f.moves[x].business, f.moves[x].action));
    forall r | r in f'.claims ensures ClaimKept(f, f', r) {
      assert GoodIn(f, Claims) && ClaimOk(f, r);
      if f.w.requests[r].invoice == i { HoldersDiffer(f, ByClaim(r), ByMove(x), i); }
    }
    forall r | r in f'.settles ensures SettleKept(f, f', r) { MoveCommitKeepsSettle(f, x, r); }
    forall y | y in f'.moves ensures MoveKept(f, f', y) {
      assert GoodIn(f, Moves);
      if f.moves[y].i == i { HoldersDiffer(f, ByMove(x), ByMove(y), i); }
    }
    UndisturbedIsGood(f, f');
  }

  // ---- Every statement, and whole interleavings ----

  lemma ClaimStatementKeeps(f: Sessions, st: Statement)
    requires Good(f) && StatementEnabled(f, st)
        && (st.ClaimSelect? || st.ClaimInsert? || st.ClaimCommit? || st.ClaimAbort?)
    ensures Good(AfterStatement(f, st)) && Simulates(f.w, AfterStatement(f, st).w)
  {
    var w, q := f.w, f.w.requests[st.r];
    match st
    case ClaimSelect(r) =>
      if ClaimFindsRow(w, r) && w.db.invoices[q.invoice].state.Open? {
        ClaimSelectLocks(f, r);
      } else {
        ClaimRefuses(f, r, ClaimRefusal(w.db, q.key.business, q.invoice).value);
      }
    case ClaimInsert(r, a) =>
      if HasPending(w.db, q.invoice) {
        assert GoodIn(f, Claims) && ClaimOk(f, r);
        ClaimRefuses(f, r, PaymentAttemptInProgress);
      } else {
        ClaimInserts(f, r, a);
      }
    case ClaimCommit(r, ack) => ClaimCommits(f, r, ack);
    case ClaimAbort(r) => ClaimAborts(f, r);
  }

  lemma SettleStatementKeeps(f: Sessions, st: Statement)
    requires Good(f) && StatementEnabled(f, st)
    requires st.SettleUpdateAttempt? || st.SettleUpdateInvoice? || st.SettleSelectEndpoints?
        || st.SettleInsertDelivery? || st.SettleCommit? || st.SettleAbort?
    ensures Good(AfterStatement(f, st)) && Simulates(f.w, AfterStatement(f, st).w)
  {
    match st
    case SettleUpdateAttempt(r) => SettleStarts(f, r);
    case SettleUpdateInvoice(r) => SettleDecides(f, r);
    case SettleSelectEndpoints(r) => SettleLists(f, r);
    case SettleInsertDelivery(r, e, d) => SettleInserts(f, r, e, d);
    case SettleCommit(r, ack) => SettleCommits(f, r, ack);
    case SettleAbort(r) => SettleAborts(f, r);
  }

  /** Every statement keeps the locks' promises, and the world moves as in the
      atomic protocol or stands still. */
  lemma StatementKeeps(f: Sessions, st: Statement)
    requires Good(f) && StatementEnabled(f, st)
    ensures Good(AfterStatement(f, st)) && Simulates(f.w, AfterStatement(f, st).w)
  {
    if st.Single? {
      SingleKeeps(f, st.s);
    } else if st.ClaimSelect? || st.ClaimInsert? || st.ClaimCommit? || st.ClaimAbort? {
      ClaimStatementKeeps(f, st);
    } else if st.MoveCommit? {
      MoveCommits(f, st.x);
    } else if st.MoveSelect? || st.MoveUpdate? || st.MoveAbort? {
      MoveStatement(f, st);
    } else {
      SettleStatementKeeps(f, st);
    }
  }

  lemma {:induction false} InterleavingKeeps(f: Sessions, statements: seq<Statement>, end: Sessions)
    requires Good(f) && Reachable(f.w) && Interleaving(f, statements, end)
    ensures Good(end) && Reachable(end.w)
    decreases |statements|
  {
    if statements == [] {
    } else {
      var next := AfterStatement(f, statements[0]);
      StatementKeeps(f, statements[0]);
      if next.w != f.w {
        var s :| Enabled(f.w, s) && next.w == Next(f.w, s);
        ReachableStep(f.w, s);
      }
      InterleavingKeeps(next, statements[1..], end);
    }
  }

  /** Whatever way the statements of any number of transactions interleave, the
      committed tables are ones that whole transactions, one after the other, reach. */
  lemma InterleavingRefines(statements: seq<Statement>, end: Sessions)
    requires Interleaving(IDLE, statements, end)
    ensures Good(end) && Reachable(end.w)
  {
    IdleIsGood();
    assert Runs(START, [], START);
    InterleavingKeeps(IDLE, statements, end);
  }

  /** In every interleaving, a claim that commits finds the invoice open and
      without a pending attempt, although it read the state two statements ago. */
  lemma ClaimCommitsOnOpenInvoice(statements: seq<Statement>, end: Sessions, r: RequestId, ack: bool)
    requires Interleaving(IDLE, statements, end) && StatementEnabled(end, ClaimCommit(r, ack))
    ensures var i := end.w.requests[r].invoice;
            && i in end.w.db.invoices && end.w.db.invoices[i].state.Open? && !HasPending(end.w.db, i)
            && end.w.db.invoices[i].business == end.w.requests[r].key.business
  {
    InterleavingRefines(statements, end);
    ClaimCommitIsAtomic(end, r, ack);
  }

  /** In every interleaving, whether a settlement pays is settled by the invoice's
      state at its commit, although its UPDATE ran before. */
  lemma SettlePaysByTheStateAtCommit(statements: seq<Statement>, end: Sessions, r: RequestId, ack: bool)
    requires Interleaving(IDLE, statements, end) && StatementEnabled(end, SettleCommit(r, ack))
    ensures var t := end.w.tasks[r];
            && end.w.db.attempts[t.attempt].status.AttemptPending?
            && (end.settles[r].pays <==> t.pc.outcome.Succeeded? && end.w.db.invoices[t.invoice].state.Open?)
  {
    InterleavingRefines(statements, end);
    assert GoodIn(end, Settles) && SettleOk(end, r) && GoodIn(end, Atomic);
    SettleFindsPending(end.w, r);
  }
}
