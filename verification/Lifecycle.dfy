/** The life of an invoice: which actions are allowed in which state, where they lead,
    and how its state tells what has happened to it since its creation. */
module Lifecycle {
  import opened Domain
  import opened Totals
  import opened Protocol
  import opened Frames
  import opened Invariant
  import opened Preservation

  /** The creation of an invoice: a draft with the wrapping sum of its lines as total, and
      for each endpoint listed one row, pending, never sent and due at once. */
  lemma CreationWrites(w: World, i: InvoiceId, b: BusinessId, lines: seq<LineItem>, ids: map<DeliveryId, EndpointId>,
      at: Time)
    requires Enabled(w, CreateInvoice(i, b, lines, ids, at))
    ensures var total, w' := WrappingTotal(lines), Next(w, CreateInvoice(i, b, lines, ids, at));
            && i !in w.db.invoices && w'.db.invoices == w.db.invoices[i := Invoice(b, Draft, lines, total)]
            && w'.db.deliveries.Keys == w.db.deliveries.Keys + ids.Keys
            && (forall d :: d in w.db.deliveries ==> w'.db.deliveries[d] == w.db.deliveries[d])
            && (forall d :: d in ids ==> w'.db.deliveries[d] == Delivery(
                  Letter(ids[d], b, InvoiceCreated, CreatedPayload(i, total)), DeliveryPending, 0, w.now, w.now))
  {
  }

  predicate Owned(w: World, i: InvoiceId, b: BusinessId) {
    i in w.db.invoices && w.db.invoices[i].business == b
  }

  /** An action is open to the owner of an invoice: finalizing of a draft, voiding of a
      draft or an open invoice, marking uncollectible of an open one. */
  lemma AllowedByState(w: World, i: InvoiceId, b: BusinessId)
    ensures Enabled(w, Transition(i, b, FinalizeInvoice)) <==> Owned(w, i, b) && w.db.invoices[i].state == Draft
    ensures Enabled(w, Transition(i, b, VoidInvoice)) <==>
              Owned(w, i, b) && w.db.invoices[i].state in {Draft, Open}
    ensures Enabled(w, Transition(i, b, MarkUncollectible)) <==>
              Owned(w, i, b) && w.db.invoices[i].state == Open
  {
  }

  /** Finalizing makes it open, voiding void, marking uncollectible; nothing else changes. */
  lemma ActionsLeadTo(w: World, i: InvoiceId, b: BusinessId, action: Action)
    requires Enabled(w, Transition(i, b, action))
    ensures i in w.db.invoices
    ensures var w' := Next(w, Transition(i, b, action));
            && i in w'.db.invoices
            && w' == w.(db := w.db.(invoices := w.db.invoices[i := w'.db.invoices[i]]), now := w.now + 1)
            && w'.db.invoices[i] == w.db.invoices[i].(state := w'.db.invoices[i].state)
            && match action
               case FinalizeInvoice => w'.db.invoices[i].state == Open
               case VoidInvoice => w'.db.invoices[i].state == Void
               case MarkUncollectible => w'.db.invoices[i].state == Uncollectible
  {
  }

  // ---- Whole lives ----

  predicate Takes(s: Step, i: InvoiceId, action: Action) {
    s.Transition? && s.i == i && s.action == action
  }

  ghost predicate Taken(steps: seq<Step>, i: InvoiceId, action: Action) {
    exists n :: 0 <= n < |steps| && Takes(steps[n], i, action)
  }

  ghost predicate Untouched(steps: seq<Step>, i: InvoiceId) {
    forall n :: 0 <= n < |steps| ==> !(steps[n].Transition? && steps[n].i == i)
  }

  predicate InState(w: World, i: InvoiceId, state: InvoiceState) {
    i in w.db.invoices && w.db.invoices[i].state == state
  }

  lemma TakenFirst(steps: seq<Step>, i: InvoiceId, action: Action)
    requires steps != []
    ensures Taken(steps, i, action) <==> Takes(steps[0], i, action) || Taken(steps[1..], i, action)
  {
    if n :| 0 <= n < |steps| && Takes(steps[n], i, action) {
      assert n > 0 ==> Takes(steps[1..][n - 1], i, action);
    }
    if n :| 0 <= n < |steps[1..]| && Takes(steps[1..][n], i, action) {
      assert Takes(steps[n + 1], i, action);
    }
  }

  /** What one step makes of the state of an invoice. */
  ghost predicate StateFollows(w: World, s: Step, w': World, i: InvoiceId) {
    && (InState(w', i, Uncollectible) <==> InState(w, i, Uncollectible) || Takes(s, i, MarkUncollectible))
    && (InState(w', i, Void) <==> InState(w, i, Void) || Takes(s, i, VoidInvoice))
    && (InState(w', i, Draft) ==> InState(w, i, Draft) || i !in w.db.invoices)
    && (i in w'.db.invoices && (InState(w, i, Draft) || i !in w.db.invoices) ==>
          (InState(w', i, Draft) <==> !(s.Transition? && s.i == i)))
    && (i !in w'.db.invoices ==> i !in w.db.invoices && !(s.Transition? && s.i == i))
  }

  lemma StateAfterAction(w: World, s: Step, i: InvoiceId)
    requires Enabled(w, s) && s.Transition?
    ensures StateFollows(w, s, Next(w, s), i)
  {
    ActionsLeadTo(w, s.i, s.business, s.action);
    AllowedByState(w, s.i, s.business);
  }

  lemma StateAfterSettlement(w: World, s: Step, i: InvoiceId)
    requires Inv(w) && Enabled(w, s) && s.Settle?
    ensures StateFollows(w, s, Next(w, s), i)
  {
    SettleFindsPending(w, s.r);
    assert Holds(w, Attempts) && AttemptOk(w.db, w.db.attempts[w.tasks[s.r].attempt]);
  }

  lemma StateStep(w: World, s: Step, i: InvoiceId)
    requires Inv(w) && Enabled(w, s)
    ensures StateFollows(w, s, Next(w, s), i)
  {
    if s.Transition? {
      StateAfterAction(w, s, i);
    } else if s.Settle? {
      StateAfterSettlement(w, s, i);
    } else if s.CreateInvoice? {
      CreationWrites(w, s.i, s.business, s.lines, s.ids, s.at);
    } else {
      InvoicesStand(w, s);
    }
  }

  lemma InvoicesStand(w: World, s: Step)
    requires Enabled(w, s) && !s.Transition? && !s.Settle? && !s.CreateInvoice?
    ensures Next(w, s).db.invoices == w.db.invoices
  {
    if OfHandler(s) {
      HandlerFrame(w, s);
    } else if OfTask(s) {
      QuietFrame(w, s);
    }
  }

  lemma {:induction false} StateAlong(w: World, steps: seq<Step>, w': World, i: InvoiceId)
    requires Inv(w) && Runs(w, steps, w')
    ensures InState(w', i, Uncollectible) <==> InState(w, i, Uncollectible) || Taken(steps, i, MarkUncollectible)
    ensures InState(w', i, Void) <==> InState(w, i, Void) || Taken(steps, i, VoidInvoice)
    ensures InState(w', i, Draft) ==> InState(w, i, Draft) || i !in w.db.invoices
    ensures i in w'.db.invoices && (InState(w, i, Draft) || i !in w.db.invoices) ==>
              (InState(w', i, Draft) <==> Untouched(steps, i))
    decreases |steps|
  {
    if steps != [] {
      var next, rest := Next(w, steps[0]), steps[1..];
      StepKeeps(w, steps[0]);
      StateStep(w, steps[0], i);
      StateAlong(next, rest, w', i);
      TakenFirst(steps, i, MarkUncollectible);
      TakenFirst(steps, i, VoidInvoice);
      assert forall n :: 0 < n < |steps| ==> steps[n] == rest[n - 1];
      assert forall n :: 0 <= n < |rest| ==> rest[n] == steps[n + 1];
    }
  }

  /** The state of an invoice tells its history: it is a draft if and only if no action was
      taken on it, uncollectible if and only if it was marked so, void if and only if it was
      voided, and otherwise paid if and only if one of its attempts has succeeded. */
  lemma StateTellsHistory(steps: seq<Step>, w: World, i: InvoiceId)
    requires Runs(START, steps, w) && i in w.db.invoices
    ensures var state := w.db.invoices[i].state;
            && (state == Draft <==> Untouched(steps, i))
            && (state == Uncollectible <==> Taken(steps, i, MarkUncollectible))
            && (state == Void <==> Taken(steps, i, VoidInvoice))
            && (state == Paid <==>
                  && !Taken(steps, i, MarkUncollectible) && !Taken(steps, i, VoidInvoice)
                  && exists a :: a in w.db.attempts && w.db.attempts[a].invoice == i
                      && w.db.attempts[a].status == AttemptSucceeded)
  {
    StartIsOk();
    StateAlong(START, steps, w, i);
    ReachableIsOk(w);
    assert Holds(w, Attempts) && InvoiceOk(w.db, i);
    if a :| a in w.db.attempts && w.db.attempts[a].invoice == i && w.db.attempts[a].status == AttemptSucceeded {
      assert AttemptOk(w.db, w.db.attempts[a]);
    }
  }
}
