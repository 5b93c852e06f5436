/** The other direction of the refinement: what the protocol does with whole
    transactions, one after the other, the statements can do. So the locks, the index
    and the guards of the statements shut out nothing that a serial schedule allows. */
module Serial {
  import opened Domain
  import opened Transactions
  import opened Protocol
  import opened Invariant
  import opened Preservation
  import opened Isolation

  /** No transaction is open. */
  function Alone(w: World): Sessions {
    Sessions(w, map[], map[], map[])
  }

  lemma {:induction false} InterleavingsCompose(f: Sessions, first: seq<Statement>, middle: Sessions,
      second: seq<Statement>, end: Sessions)
    requires Interleaving(f, first, middle) && Interleaving(middle, second, end)
    ensures Interleaving(f, first + second, end)
    decreases |first|
  {
    if first == [] {
      assert first + second == second;
    } else {
      InterleavingsCompose(AfterStatement(f, first[0]), first[1..], middle, second, end);
      assert (first + second)[1..] == first[1..] + second;
    }
  }

  lemma Then(f: Sessions, statements: seq<Statement>, middle: Sessions, st: Statement, end: Sessions)
    requires Interleaving(f, statements, middle) && StatementEnabled(middle, st) && AfterStatement(middle, st) == end
    ensures Interleaving(f, statements + [st], end)
  {
    assert [st][1..] == [];
    InterleavingsCompose(f, statements, middle, [st], end);
  }

  // ---- Transactions alone ----

  lemma SingleAlone(w: World, s: Step)
    requires Enabled(w, s) && !s.Claim? && !s.ListEndpoints? && !s.Settle? && !s.Transition?
    ensures SingleEnabled(Alone(w), s) && AfterSingle(Alone(w), s) == Alone(Next(w, s))
  {
  }

  lemma ClaimLocksAlone(w: World, r: RequestId)
    requires r in w.requests && w.requests[r].pc.Claiming? && ClaimFindsRow(w, r)
    requires w.db.invoices[w.requests[r].invoice].state.Open?
    ensures StatementEnabled(Alone(w), ClaimSelect(r))
    ensures AfterStatement(Alone(w), ClaimSelect(r)) == Sessions(w, map[r := Locked], map[], map[])
  {
  }

  lemma ClaimIsRefusedAlone(w: World, r: RequestId, a: AttemptId, ack: bool)
    requires Enabled(w, Claim(r, a, ack))
    requires !ClaimFindsRow(w, r) || !w.db.invoices[w.requests[r].invoice].state.Open?
    ensures StatementEnabled(Alone(w), ClaimSelect(r))
    ensures AfterStatement(Alone(w), ClaimSelect(r)) == Alone(Next(w, Claim(r, a, ack)))
  {
  }

  lemma ClaimInsertsAlone(w: World, r: RequestId, a: AttemptId, ack: bool)
    requires Enabled(w, Claim(r, a, ack)) && ClaimFindsRow(w, r)
    requires w.db.invoices[w.requests[r].invoice].state.Open?
    ensures var f := Sessions(w, map[r := Locked], map[], map[]);
            && StatementEnabled(f, ClaimInsert(r, a))
            && AfterStatement(f, ClaimInsert(r, a)) ==
                if HasPending(w.db, w.requests[r].invoice) then Alone(Next(w, Claim(r, a, ack)))
                else Sessions(w, map[r := Inserted(a)], map[], map[])
  {
  }

  lemma ClaimCommitsAlone(w: World, r: RequestId, a: AttemptId, ack: bool)
    requires Enabled(w, Claim(r, a, ack)) && ClaimFindsRow(w, r)
    requires w.db.invoices[w.requests[r].invoice].state.Open? && !HasPending(w.db, w.requests[r].invoice)
    ensures var f := Sessions(w, map[r := Inserted(a)], map[], map[]);
            && StatementEnabled(f, ClaimCommit(r, ack))
            && AfterStatement(f, ClaimCommit(r, ack)) == Alone(Next(w, Claim(r, a, ack)))
  {
  }

  lemma ClaimAlone(w: World, r: RequestId, a: AttemptId, ack: bool) returns (statements: seq<Statement>)
    requires Enabled(w, Claim(r, a, ack))
    ensures Interleaving(Alone(w), statements, Alone(Next(w, Claim(r, a, ack))))
  {
    var end := Alone(Next(w, Claim(r, a, ack)));
    if !ClaimFindsRow(w, r) || !w.db.invoices[w.requests[r].invoice].state.Open? {
      ClaimIsRefusedAlone(w, r, a, ack);
      Then(Alone(w), [], Alone(w), ClaimSelect(r), end);
      statements := [] + [ClaimSelect(r)];
    } else {
      var locked, inserted := Sessions(w, map[r := Locked], map[], map[]), Sessions(w, map[r := Inserted(a)], map[],
          map[]);
      ClaimLocksAlone(w, r);
      Then(Alone(w), [], Alone(w), ClaimSelect(r), locked);
      statements := [] + [ClaimSelect(r)];
      ClaimInsertsAlone(w, r, a, ack);
      if HasPending(w.db, w.requests[r].invoice) {
        Then(Alone(w), statements, locked, ClaimInsert(r, a), end);
        statements := statements + [ClaimInsert(r, a)];
      } else {
        Then(Alone(w), statements, locked, ClaimInsert(r, a), inserted);
        statements := statements + [ClaimInsert(r, a)];
        ClaimCommitsAlone(w, r, a, ack);
        Then(Alone(w), statements, inserted, ClaimCommit(r, ack), end);
        statements := statements + [ClaimCommit(r, ack)];
      }
    }
  }

  lemma MoveAlone(w: World, i: InvoiceId, b: BusinessId, action: Action) returns (statements: seq<Statement>)
    requires Enabled(w, Transition(i, b, action))
    ensures Interleaving(Alone(w), statements, Alone(Next(w, Transition(i, b, action))))
  {
    var select, f := MoveSelect(0, b, i, action), Alone(w);
    var locked := f.(moves := map[0 := MoveTx(i, b, action, false)]);
    var updated := f.(moves := map[0 := MoveTx(i, b, action, true)]);
    Then(f, [], f, select, locked);
    Then(f, [] + [select], locked, MoveUpdate(0), updated);
    Then(f, [] + [select] + [MoveUpdate(0)], updated, MoveCommit(0), Alone(Next(w, Transition(i, b, action))));
    statements := [] + [select] + [MoveUpdate(0)] + [MoveCommit(0)];
  }

  /** The one open settlement. */
  function OneSettlement(w: World, r: RequestId, tx: SettleTx): Sessions {
    Sessions(w, map[], map[r := tx], map[])
  }

  /** What the UPDATE of the invoice decides. */
  function Decision(w: World, r: RequestId, ids: map<DeliveryId, EndpointId>): SettleTx
    requires r in w.tasks && (w.tasks[r].pc.Settling? || w.tasks[r].pc.Listed?) && w.tasks[r].invoice in w.db.invoices
  {
    SettleTx(w.tasks[r].pc.outcome.Succeeded?,
             w.tasks[r].pc.outcome.Succeeded? && w.db.invoices[w.tasks[r].invoice].state.Open?, ids)
  }

  lemma UpdatesAlone(w: World, r: RequestId) returns (statements: seq<Statement>)
    requires Inv(w) && Enabled(w, ListEndpoints(r))
    ensures Interleaving(Alone(w), statements, OneSettlement(w, r, Decision(w, r, map[])))
  {
    TaskFacts(w, r);
    var updated := OneSettlement(w, r, SettleTx(false, false, map[]));
    var decided := OneSettlement(w, r, Decision(w, r, map[]));
    Then(Alone(w), [], Alone(w), SettleUpdateAttempt(r), updated);
    statements := [] + [SettleUpdateAttempt(r)];
    if w.tasks[r].pc.outcome.Succeeded? {
      assert InvoiceFree(updated, w.tasks[r].invoice);
      Then(Alone(w), statements, updated, SettleUpdateInvoice(r), decided);
      statements := statements + [SettleUpdateInvoice(r)];
    }
  }

  lemma ListsAlone(w: World, r: RequestId)
    requires Enabled(w, ListEndpoints(r))
    ensures var f, w' := OneSettlement(w, r, Decision(w, r, map[])), Next(w, ListEndpoints(r));
            && r in w'.tasks && w'.tasks[r].pc.Listed? && w'.tasks[r].invoice in w'.db.invoices
            && StatementEnabled(f, SettleSelectEndpoints(r))
            && AfterStatement(f, SettleSelectEndpoints(r)) == OneSettlement(w', r, Decision(w', r, map[]))
  {
  }

  /** The outbox rows, one INSERT after the other. */
  lemma {:induction false} InsertsAlone(w: World, r: RequestId, ids: map<DeliveryId, EndpointId>,
      done: map<DeliveryId, EndpointId>) returns (statements: seq<Statement>)
    requires r in w.tasks && w.tasks[r].pc.Listed? && w.tasks[r].invoice in w.db.invoices
    requires Addressed(ids, w.tasks[r].pc.endpoints, w.db.deliveries)
    requires forall d :: d in done ==> d in ids && done[d] == ids[d]
    ensures Interleaving(OneSettlement(w, r, Decision(w, r, done)), statements,
                OneSettlement(w, r, Decision(w, r, ids)))
    decreases ids.Keys - done.Keys
  {
    if d :| d in ids && d !in done {
      var st, more := SettleInsertDelivery(r, ids[d], d), done[d := ids[d]];
      assert ids[d] !in done.Values;
      var f, next := OneSettlement(w, r, Decision(w, r, done)), OneSettlement(w, r, Decision(w, r, more));
      assert StatementEnabled(f, st) && AfterStatement(f, st) == next;
      assert d in ids.Keys - done.Keys && d !in ids.Keys - more.Keys;
      assert ids.Keys - more.Keys <= ids.Keys - done.Keys;
      var rest := InsertsAlone(w, r, ids, more);
      statements := [st] + rest;
      assert statements[1..] == rest;
    } else {
      assert done == ids;
      statements := [];
    }
  }

  lemma CommitsAlone(w: World, r: RequestId, ids: map<DeliveryId, EndpointId>, ack: bool)
    requires Inv(w) && Enabled(w, Settle(r, ids, ack))
    ensures w.tasks[r].invoice in w.db.invoices
    ensures var f := OneSettlement(w, r, Decision(w, r, ids));
            && StatementEnabled(f, SettleCommit(r, ack))
            && AfterStatement(f, SettleCommit(r, ack)) == Alone(Next(w, Settle(r, ids, ack)))
  {
    SettleFindsPending(w, r);
    forall e | e in w.tasks[r].pc.endpoints ensures e in ids.Values {
    }
    assert ids.Values == w.tasks[r].pc.endpoints;
    var i := w.tasks[r].invoice;
    assert w.db.invoices[i := w.db.invoices[i]] == w.db.invoices;
  }

  /** How a settlement ends that has listed the endpoints. */
  predicate EndsSettlement(s: Step, r: RequestId) {
    (s.Settle? && s.r == r) || s == SettleFails(r) || s == KillTask(r)
  }

  lemma EndsAlone(w: World, r: RequestId, s: Step) returns (statements: seq<Statement>)
    requires Inv(w) && r in w.tasks && w.tasks[r].pc.Listed? && w.tasks[r].invoice in w.db.invoices
    requires Enabled(w, s) && EndsSettlement(s, r)
    ensures Interleaving(OneSettlement(w, r, Decision(w, r, map[])), statements, Alone(Next(w, s)))
  {
    var f, end := OneSettlement(w, r, Decision(w, r, map[])), Alone(Next(w, s));
    if s.Settle? {
      var inserts := InsertsAlone(w, r, s.ids, map[]);
      CommitsAlone(w, r, s.ids, s.ack);
      Then(f, inserts, OneSettlement(w, r, Decision(w, r, s.ids)), SettleCommit(r, s.ack), end);
      statements := inserts + [SettleCommit(r, s.ack)];
    } else if s.SettleFails? {
      Then(f, [], f, SettleAbort(r), end);
      statements := [] + [SettleAbort(r)];
    } else {
      Then(f, [], f, Single(s), end);
      statements := [] + [Single(s)];
    }
  }

  lemma SettleAlone(w: World, r: RequestId, s: Step) returns (statements: seq<Statement>)
    requires Inv(w) && Enabled(w, ListEndpoints(r)) && Enabled(Next(w, ListEndpoints(r)), s) && EndsSettlement(s, r)
    ensures Interleaving(Alone(w), statements, Alone(Next(Next(w, ListEndpoints(r)), s)))
  {
    var w' := Next(w, ListEndpoints(r));
    StepKeeps(w, ListEndpoints(r));
    statements := UpdatesAlone(w, r);
    ListsAlone(w, r);
    Then(Alone(w), statements, OneSettlement(w, r, Decision(w, r, map[])), SettleSelectEndpoints(r),
         OneSettlement(w', r, Decision(w', r, map[])));
    var rest := EndsAlone(w', r, s);
    statements := statements + [SettleSelectEndpoints(r)];
    InterleavingsCompose(Alone(w), statements, OneSettlement(w', r, Decision(w', r, map[])), rest, Alone(Next(w', s)));
    statements := statements + rest;
  }

  // ---- Serial runs ----

  /** Once a settlement has listed the endpoints it ends before anything else happens. */
  predicate IsSerial(steps: seq<Step>)
    decreases |steps|
  {
    steps == [] ||
    (if steps[0].ListEndpoints? then
       |steps| >= 2 && EndsSettlement(steps[1], steps[0].r) && IsSerial(steps[2..])
     else IsSerial(steps[1..]))
  }

  predicate NoneListed(w: World) {
    forall r :: r in w.tasks ==> !w.tasks[r].pc.Listed?
  }

  lemma StepAlone(w: World, s: Step) returns (statements: seq<Statement>)
    requires Enabled(w, s) && !s.ListEndpoints? && NoneListed(w)
    ensures Interleaving(Alone(w), statements, Alone(Next(w, s))) && NoneListed(Next(w, s))
  {
    if s.Claim? {
      statements := ClaimAlone(w, s.r, s.a, s.ack);
    } else if s.Transition? {
      statements := MoveAlone(w, s.i, s.business, s.action);
    } else {
      SingleAlone(w, s);
      Then(Alone(w), [], Alone(w), Single(s), Alone(Next(w, s)));
      statements := [] + [Single(s)];
    }
  }

  lemma PairKeeps(w: World, r: RequestId, s: Step)
    requires Inv(w) && NoneListed(w) && Enabled(w, ListEndpoints(r)) && Enabled(Next(w, ListEndpoints(r)), s)
    requires EndsSettlement(s, r)
    ensures Inv(Next(Next(w, ListEndpoints(r)), s)) && NoneListed(Next(Next(w, ListEndpoints(r)), s))
  {
    StepKeeps(w, ListEndpoints(r));
    EndLeavesNone(Next(w, ListEndpoints(r)), r, s);
    StepKeeps(Next(w, ListEndpoints(r)), s);
  }

  lemma EndLeavesNone(w: World, r: RequestId, s: Step)
    requires Enabled(w, s) && EndsSettlement(s, r) && forall x :: x in w.tasks && x != r ==> !w.tasks[x].pc.Listed?
    ensures NoneListed(Next(w, s))
  {
  }

  lemma {:induction false} SerialFrom(w: World, steps: seq<Step>, w': World) returns (statements: seq<Statement>)
    requires Inv(w) && NoneListed(w) && Runs(w, steps, w') && IsSerial(steps)
    ensures Interleaving(Alone(w), statements, Alone(w'))
    decreases |steps|
  {
    if steps == [] {
      statements := [];
    } else {
      var s, rest, next, first := steps[0], steps[1..], Next(w, steps[0]), [];
      if s.ListEndpoints? {
        assert rest[1..] == steps[2..] && rest[0] == steps[1];
        PairKeeps(w, s.r, rest[0]);
        first := SettleAlone(w, s.r, rest[0]);
        next, rest := Next(next, rest[0]), rest[1..];
      } else {
        StepKeeps(w, s);
        first := StepAlone(w, s);
      }
      statements := SerialFrom(next, rest, w');
      InterleavingsCompose(Alone(w), first, Alone(next), statements, Alone(w'));
      statements := first + statements;
    }
  }

  /** Every run of the protocol in which nothing happens between a settlement's listing
      of the endpoints and its end is an interleaving of the statements. */
  lemma SerialRunsAreInterleavings(steps: seq<Step>, w: World) returns (statements: seq<Statement>)
    requires Runs(START, steps, w) && IsSerial(steps)
    ensures Interleaving(IDLE, statements, Alone(w))
  {
    StartIsOk();
    statements := SerialFrom(START, steps, w);
  }
}
