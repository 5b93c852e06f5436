/** Conservation of webhook events: which attempt is announced to which endpoint. */
module OutboxGuarantees {
  import opened Domain
  import opened Transactions
  import opened Protocol
  import opened Frames
  import opened Evolution
  import opened Invariant
  import opened Preservation

  /** The outbox rows that tell endpoint `e` about attempt `a`. */
  ghost function RowsFor(db: Db, e: EndpointId, a: AttemptId): set<DeliveryId> {
    set d | d in db.deliveries && Reports(db.deliveries[d], e, a)
  }

  /** The attempt is settled, by a transaction that listed the endpoints after
      `e` was registered for the business of the invoice. */
  ghost predicate SettledAfterRegistration(w: World, e: EndpointId, a: AttemptId) {
    && a in w.db.attempts && !w.db.attempts[a].status.AttemptPending?
    && a in w.listed && w.db.attempts[a].invoice in w.db.invoices
    && e in Seen(w.db, w.db.invoices[w.db.attempts[a].invoice].business, w.listed[a])
  }

  lemma ConservationInv(w: World, e: EndpointId, a: AttemptId)
    requires Inv(w)
    ensures |RowsFor(w.db, e, a)| == if SettledAfterRegistration(w, e, a) then 1 else 0
    ensures forall d :: d in RowsFor(w.db, e, a) ==>
              var letter := w.db.deliveries[d].letter;
              Agrees(w.db, letter.payload.result) && (letter.event.InvoicePaid? <==>
                  w.db.attempts[a].status.AttemptSucceeded?)
  {
    assert Holds(w, Outbox);
    var rows := RowsFor(w.db, e, a);
    forall d | d in rows ensures LetterOk(w, w.db.deliveries[d].letter) && SettledAfterRegistration(w, e, a) {
    }
    if SettledAfterRegistration(w, e, a) {
      var d :| d in w.db.deliveries && Reports(w.db.deliveries[d], e, a);
      forall d' | d' in rows ensures d' == d {
        assert SameReport(w.db.deliveries[d], w.db.deliveries[d']);
      }
      assert rows == {d};
    } else {
      assert rows == {};
    }
  }

  /** In every reachable state each endpoint has exactly one row for each settled
      attempt of its business whose transaction listed it, and no other row. The
      row repeats the attempt, and is `invoice.paid` exactly when it succeeded. */
  lemma Conservation(w: World, e: EndpointId, a: AttemptId)
    requires Reachable(w)
    ensures |RowsFor(w.db, e, a)| == if SettledAfterRegistration(w, e, a) then 1 else 0
    ensures forall d :: d in RowsFor(w.db, e, a) ==>
              var letter := w.db.deliveries[d].letter;
              Agrees(w.db, letter.payload.result) && (letter.event.InvoicePaid? <==>
                  w.db.attempts[a].status.AttemptSucceeded?)
  {
    ReachableIsOk(w);
    ConservationInv(w, e, a);
  }

  /** The transaction that settles the attempt has not listed the endpoints yet. */
  predicate NotListedYet(w: World, a: AttemptId) {
    && a in w.db.attempts && w.db.attempts[a].status.AttemptPending?
    && (a in w.origin && w.origin[a] in w.tasks ==> !w.tasks[w.origin[a]].pc.Listed?)
  }

  /** The transaction that settles the attempt has listed the endpoints, or is over. */
  predicate ListedBefore(w: World, a: AttemptId) {
    && a in w.db.attempts
    && (!w.db.attempts[a].status.AttemptPending? ||
        (a in w.origin && w.origin[a] in w.tasks && w.tasks[w.origin[a]].pc.Listed?))
  }

  /** An endpoint registered before the listing hears of the attempt exactly once;
      one registered after it never does, even if the commit is still to come. */
  lemma RegistrationDecides(w: World, steps: seq<Step>, w': World, e: EndpointId, a: AttemptId)
    requires Reachable(w) && Runs(w, steps, w') && a in w.db.attempts && w.db.attempts[a].invoice in w.db.invoices
    requires e in w'.db.endpoints && w'.db.endpoints[e].business == w.db.invoices[w.db.attempts[a].invoice].business
    ensures a in w'.db.attempts
    ensures e in w.db.endpoints && NotListedYet(w, a) && !w'.db.attempts[a].status.AttemptPending? ==>
        |RowsFor(w'.db, e, a)| == 1
    ensures e !in w.db.endpoints && ListedBefore(w, a) ==> RowsFor(w'.db, e, a) == {}
  {
    ReachableIsOk(w);
    RunKeeps(w, steps, w');
    ConservationInv(w', e, a);
    AttemptKept(w, w', a);
    EndpointTimes(w, w', e);
    if !w'.db.attempts[a].status.AttemptPending? {
      ListingTimes(w, w', a);
    }
  }

  lemma AttemptKept(w: World, w': World, a: AttemptId)
    requires Evolves(w, w') && a in w.db.attempts && w.db.attempts[a].invoice in w.db.invoices
    ensures a in w'.db.attempts && w'.db.attempts[a].invoice == w.db.attempts[a].invoice
    ensures w.db.attempts[a].invoice in w'.db.invoices
    ensures w'.db.invoices[w.db.attempts[a].invoice].business == w.db.invoices[w.db.attempts[a].invoice].business
  {
    assert EvolvesIn(w, w', InvoicePart) && EvolvesIn(w, w', AttemptPart);
  }

  /** The creation time tells whether an endpoint was there already. */
  lemma EndpointTimes(w: World, w': World, e: EndpointId)
    requires Inv(w) && Evolves(w, w') && e in w'.db.endpoints
    ensures e in w.db.endpoints <==> w'.db.endpoints[e].createdAt < w.now
    ensures e in w.db.endpoints ==> w'.db.endpoints[e] == w.db.endpoints[e]
  {
    assert Holds(w, Outbox);
    assert EvolvesIn(w, w', EndpointPart) && EvolvesIn(w, w', TimePart);
  }

  /** The listing of a settled attempt is from before `w` exactly if it had been made in `w`. */
  lemma ListingTimes(w: World, w': World, a: AttemptId)
    requires Inv(w) && Inv(w') && Evolves(w, w') && a in w.db.attempts && a in w'.db.attempts
    requires !w'.db.attempts[a].status.AttemptPending?
    ensures a in w'.listed
    ensures ListedBefore(w, a) ==> w'.listed[a] < w.now
    ensures NotListedYet(w, a) ==> w'.listed[a] >= w.now
  {
    assert a in w'.listed by {
      assert Holds(w', Outbox);
    }
    assert EvolvesIn(w, w', HistoryPart) && EvolvesIn(w, w', TimePart);
    assert a in w.origin by {
      assert Holds(w, Origins);
    }
    if w.db.attempts[a].status.AttemptPending? {
      assert a !in w.listed by {
        assert Holds(w, Outbox);
      }
      if w.origin[a] in w.tasks {
        TaskFacts(w, w.origin[a]);
      }
    } else {
      assert SettledIsPosted(w, a) by {
        assert Holds(w, Outbox);
      }
    }
  }

  // ---- The event of a new invoice ----

  /** The outbox rows that tell endpoint `e` that invoice `i` was created. */
  ghost function CreatedRows(deliveries: map<DeliveryId, Delivery>, e: EndpointId, i: InvoiceId): set<DeliveryId> {
    set d | d in deliveries && AnnouncesCreation(deliveries[d].letter, e, i)
  }

  predicate AnnouncesCreation(letter: Letter, e: EndpointId, i: InvoiceId) {
    letter.endpoint == e && letter.payload.CreatedPayload? && letter.payload.invoice == i
  }

  lemma EnqueueElsewhere(deliveries: map<DeliveryId, Delivery>, ids: map<DeliveryId, EndpointId>, b: BusinessId,
                         event: EventType, payload: Payload, now: Time, e: EndpointId, i: InvoiceId)
    requires ids.Keys !! deliveries.Keys && (payload.CreatedPayload? ==> payload.invoice != i)
    ensures CreatedRows(Enqueue(deliveries, ids, b, event, payload, now), e, i) == CreatedRows(deliveries, e, i)
  {
  }

  /** No step after the creation adds or removes such a row. */
  lemma CreatedRowsStay(w: World, s: Step, e: EndpointId, i: InvoiceId)
    requires Inv(w) && Enabled(w, s) && i in w.db.invoices
    ensures CreatedRows(Next(w, s).db.deliveries, e, i) == CreatedRows(w.db.deliveries, e, i)
  {
    if s.CreateInvoice? {
      var total := Next(w, s).db.invoices[s.i].totalCents;
      EnqueueElsewhere(w.db.deliveries, s.ids, s.business, InvoiceCreated, CreatedPayload(s.i, total), w.now, e, i);
    } else if s.Settle? {
      SettleFindsPending(w, s.r);
      var t := w.tasks[s.r];
      EnqueueElsewhere(w.db.deliveries, s.ids, w.db.invoices[t.invoice].business, t.pc.outcome.Event(),
                       AttemptPayload(ResultOf(t.attempt, t.invoice, t.pc.outcome)), w.now, e, i);
    } else if OfHandler(s) {
      HandlerFrame(w, s);
    } else if OfTask(s) {
      QuietFrame(w, s);
    }
  }

  lemma {:induction false} CreatedRowsStayAlong(w: World, steps: seq<Step>, w': World, e: EndpointId, i: InvoiceId)
    requires Inv(w) && Runs(w, steps, w') && i in w.db.invoices
    ensures CreatedRows(w'.db.deliveries, e, i) == CreatedRows(w.db.deliveries, e, i)
    decreases |steps|
  {
    if steps != [] {
      StepKeeps(w, steps[0]);
      assert EvolvesIn(w, Next(w, steps[0]), InvoicePart);
      CreatedRowsStay(w, steps[0], e, i);
      CreatedRowsStayAlong(Next(w, steps[0]), steps[1..], w', e, i);
    }
  }

  /** What the creation itself writes: one row for each endpoint listed. */
  lemma CreationWrites(deliveries: map<DeliveryId, Delivery>, ids: map<DeliveryId, EndpointId>, listed: set<EndpointId>,
                       b: BusinessId, total: int, now: Time, e: EndpointId, i: InvoiceId)
    requires Addressed(ids, listed, deliveries) && CreatedRows(deliveries, e, i) == {}
    ensures var after := Enqueue(deliveries, ids, b, InvoiceCreated, CreatedPayload(i, total), now);
            |CreatedRows(after, e, i)| == if e in listed then 1 else 0
  {
    var after := Enqueue(deliveries, ids, b, InvoiceCreated, CreatedPayload(i, total), now);
    var rows := CreatedRows(after, e, i);
    forall d | d in rows ensures d in ids && ids[d] == e {
      assert d in deliveries ==> d in CreatedRows(deliveries, e, i);
    }
    if e in listed {
      var d :| d in ids && ids[d] == e;
      assert rows == {d};
    } else {
      assert rows == {};
    }
  }

  /** A listing of the endpoints at some time is what that SELECT would have returned then. */
  lemma SeenIsTheListing(w: World, steps: seq<Step>, w': World, b: BusinessId)
    requires Reachable(w) && Runs(w, steps, w')
    ensures Seen(w'.db, b, w.now) == set e | e in w.db.endpoints && w.db.endpoints[e].business == b
  {
    ReachableIsOk(w);
    RunKeeps(w, steps, w');
    assert EvolvesIn(w, w', EndpointPart);
    forall e | e in w'.db.endpoints ensures e in w.db.endpoints <==> w'.db.endpoints[e].createdAt < w.now {
      EndpointTimes(w, w', e);
    }
  }

  /** In every continuation each endpoint has exactly one `invoice.created` row for an
      invoice if it was registered for the business before the creating transaction
      listed the endpoints, and none otherwise, even if it was there at the commit. */
  lemma CreationIsAnnouncedOnce(w: World, i: InvoiceId, b: BusinessId, lines: seq<LineItem>,
      ids: map<DeliveryId, EndpointId>, at: Time, steps: seq<Step>, w': World, e: EndpointId)
    requires Reachable(w) && Enabled(w, CreateInvoice(i, b, lines, ids, at))
    requires Runs(Next(w, CreateInvoice(i, b, lines, ids, at)), steps, w')
    ensures |CreatedRows(w'.db.deliveries, e, i)| == if e in Seen(w.db, b, at) then 1 else 0
  {
    var s := CreateInvoice(i, b, lines, ids, at);
    ReachableIsOk(w);
    StepKeeps(w, s);
    forall d | d in w.db.deliveries ensures !AnnouncesCreation(w.db.deliveries[d].letter, e, i) {
      assert Holds(w, Outbox) && LetterOk(w, w.db.deliveries[d].letter);
    }
    assert CreatedRows(w.db.deliveries, e, i) == {};
    CreationWrites(w.db.deliveries, ids, Seen(w.db, b, at), b, Next(w, s).db.invoices[i].totalCents, w.now, e, i);
    CreatedRowsStayAlong(Next(w, s), steps, w', e, i);
  }
}
