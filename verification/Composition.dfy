/** The payment protocol and the dispatchers at work on one outbox. A step of the
    protocol adds rows to it as the dispatchers' `Enqueue` events; a commit of a
    dispatcher is a `Dispatch` step of the protocol. So what is proved of either
    holds of the two together. */
module Composition {
  import opened Domain
  import opened Invariant
  import opened Preservation
  import opened Evolution
  import opened OutboxGuarantees
  import P = Protocol
  import D = Dispatchers
  import C = Claimable

  /** The outbox is `s.rows`; the world has the same rows with the same letters, but
      leaves their schedule to the dispatchers. */
  datatype Joint = Joint(w: P.World, s: D.State)

  const IDLE := Joint(P.START, D.EMPTY)

  /** A step of the protocol, by a transaction that began at `at` on the dispatchers'
      clock; or an event of a dispatcher. */
  datatype Move = Pay(step: P.Step, at: Time) | Deliver(e: D.Event)

  ghost predicate MoveEnabled(j: Joint, m: Move) {
    match m
    case Pay(step, at) => P.Enabled(j.w, step) && !step.Dispatch? && at <= j.s.now
    case Deliver(e) => D.Enabled(j.s, e) && !e.Enqueue?
  }

  function NewLetters(before: map<DeliveryId, Delivery>, after: map<DeliveryId, Delivery>): map<DeliveryId, Letter> {
    map d | d in after && d !in before :: after[d].letter
  }

  function EnqueueAll(s: D.State, letters: map<DeliveryId, Letter>, at: Time): D.State {
    s.(rows := Posted(s.rows, letters, at), counted := Blank(s.counted, letters.Keys),
        sent := Blank(s.sent, letters.Keys))
  }

  function Posted(rows: map<DeliveryId, Delivery>, letters: map<DeliveryId, Letter>, at: Time)
      : map<DeliveryId, Delivery>
  {
    rows + map d | d in letters :: NewDelivery(letters[d], at)
  }

  /** New rows start without history. */
  function Blank<T>(histories: map<DeliveryId, seq<T>>, ids: set<DeliveryId>): map<DeliveryId, seq<T>> {
    histories + map d | d in ids :: []
  }

  function AfterMove(j: Joint, m: Move): Joint
    requires MoveEnabled(j, m)
  {
    match m
    case Pay(step, at) =>
      var w' := P.Next(j.w, step);
      Joint(w', EnqueueAll(j.s, NewLetters(j.w.db.deliveries, w'.db.deliveries), at))
    case Deliver(e) => Joint(j.w, D.Next(j.s, e))
  }

  ghost predicate Moves(j: Joint, moves: seq<Move>, end: Joint)
    decreases |moves|
  {
    if moves == [] then end == j
    else MoveEnabled(j, moves[0]) && Moves(AfterMove(j, moves[0]), moves[1..], end)
  }

  ghost predicate Reachable(j: Joint) {
    exists moves :: Moves(IDLE, moves, j)
  }

  // ---- Each side sees a run of its own ----

  lemma EnqueueOneMore(s: D.State, letters: map<DeliveryId, Letter>, d: DeliveryId, at: Time)
    requires d in letters && letters.Keys !! s.rows.Keys
    ensures EnqueueAll(EnqueueOne(s, d, letters[d], at), letters - {d}, at) == EnqueueAll(s, letters, at)
  {
    PostedOneMore(s.rows, letters, d, at);
    assert (letters - {d}).Keys == letters.Keys - {d};
    BlankOneMore(s.counted, letters.Keys, d);
    BlankOneMore(s.sent, letters.Keys, d);
  }

  lemma PostedOneMore(rows: map<DeliveryId, Delivery>, letters: map<DeliveryId, Letter>, d: DeliveryId, at: Time)
    requires d in letters
    ensures Posted(rows[d := NewDelivery(letters[d], at)], letters - {d}, at) == Posted(rows, letters, at)
  {
  }

  lemma BlankOneMore<T>(histories: map<DeliveryId, seq<T>>, ids: set<DeliveryId>, d: DeliveryId)
    requires d in ids
    ensures Blank(histories[d := []], ids - {d}) == Blank(histories, ids)
  {
  }

  function EnqueueOne(s: D.State, d: DeliveryId, letter: Letter, at: Time): D.State {
    s.(rows := s.rows[d := NewDelivery(letter, at)], counted := s.counted[d := []], sent := s.sent[d := []])
  }

  /** The rows that a step adds are `Enqueue` events to the dispatchers. */
  lemma {:induction false} EnqueueAllRuns(s: D.State, letters: map<DeliveryId, Letter>, at: Time)
      returns (events: seq<D.Event>)
    requires at <= s.now && letters.Keys !! s.rows.Keys
    ensures D.Runs(s, events, EnqueueAll(s, letters, at)) && forall e :: e in events ==> e.Enqueue?
    decreases letters.Keys
  {
    if letters == map[] {
      events := [];
      assert EnqueueAll(s, letters, at) == s;
    } else {
      var d :| d in letters;
      var e := D.Enqueue(d, letters[d], at);
      var next := D.Next(s, e);
      EnqueueOneMore(s, letters, d, at);
      var more := EnqueueAllRuns(next, letters - {d}, at);
      events := [e] + more;
    }
  }

  lemma EnqueueAllIsReachable(s: D.State, letters: map<DeliveryId, Letter>, at: Time)
    requires D.Reachable(s) && at <= s.now && letters.Keys !! s.rows.Keys
    ensures D.Reachable(EnqueueAll(s, letters, at))
  {
    var events := EnqueueAllRuns(s, letters, at);
    var before :| D.Runs(D.EMPTY, before, s);
    D.RunsCompose(D.EMPTY, before, s, events, EnqueueAll(s, letters, at));
  }

  lemma EnqueueAllKeepsLetters(s: D.State, before: map<DeliveryId, Delivery>, after: map<DeliveryId, Delivery>,
      at: Time)
    requires SameLetters(before, s.rows)
    requires forall d :: d in before ==> d in after && after[d].letter == before[d].letter
    ensures SameLetters(after, EnqueueAll(s, NewLetters(before, after), at).rows)
  {
    var rows := EnqueueAll(s, NewLetters(before, after), at).rows;
    forall d | d in after ensures d in rows && rows[d].letter == after[d].letter {
    }
    assert rows.Keys == after.Keys;
  }

  /** An event of a dispatcher changes no letter. */
  lemma DeliverKeepsLetters(s: D.State, e: D.Event)
    requires D.Inv(s) && D.Enabled(s, e) && !e.Enqueue?
    ensures SameLetters(s.rows, D.Next(s, e).rows)
  {
    if e.Commit? { D.CommitIsAtomic(s, e.x); }
  }

  /** So, to the payment protocol, the commit of a batch is a `Dispatch` step. */
  lemma CommitIsDispatch(j: Joint, x: D.DispatcherId)
    requires Reachable(j) && D.Enabled(j.s, D.Commit(x))
    ensures var rows := D.Next(j.s, D.Commit(x)).rows;
            P.Enabled(j.w, P.Dispatch(rows)) && P.Next(j.w, P.Dispatch(rows)).db == j.w.db.(deliveries := rows)
  {
    JointIsBoth(j);
    D.ReachableIsOk(j.s);
    DeliverKeepsLetters(j.s, D.Commit(x));
  }

  ghost predicate Coupled(j: Joint) {
    P.Reachable(j.w) && D.Reachable(j.s) && SameLetters(j.w.db.deliveries, j.s.rows)
  }

  lemma PayKeepsCoupled(j: Joint, step: P.Step, at: Time)
    requires Coupled(j) && MoveEnabled(j, Pay(step, at))
    ensures Coupled(AfterMove(j, Pay(step, at)))
  {
    var before, w' := j.w.db.deliveries, P.Next(j.w, step);
    ReachableStep(j.w, step);
    LettersStay(j.w, step);
    EnqueueAllKeepsLetters(j.s, before, w'.db.deliveries, at);
    EnqueueAllIsReachable(j.s, NewLetters(before, w'.db.deliveries), at);
  }

  lemma LettersStay(w: P.World, step: P.Step)
    requires P.Reachable(w) && P.Enabled(w, step)
    ensures LettersEvolve(w.db, P.Next(w, step).db)
  {
    ReachableIsOk(w);
    StepKeeps(w, step);
    assert EvolvesIn(w, P.Next(w, step), LetterPart);
  }

  lemma MoveKeepsCoupled(j: Joint, m: Move)
    requires Coupled(j) && MoveEnabled(j, m)
    ensures Coupled(AfterMove(j, m))
  {
    match m
    case Pay(step, at) => PayKeepsCoupled(j, step, at);
    case Deliver(e) =>
      D.ReachableIsOk(j.s);
      DeliverKeepsLetters(j.s, e);
      D.ReachableStep(j.s, e);
  }

  lemma {:induction false} MovesKeepCoupled(j: Joint, moves: seq<Move>, end: Joint)
    requires Coupled(j) && Moves(j, moves, end)
    ensures Coupled(end)
    decreases |moves|
  {
    if moves != [] {
      MoveKeepsCoupled(j, moves[0]);
      MovesKeepCoupled(AfterMove(j, moves[0]), moves[1..], end);
    }
  }

  /** However the two interleave, each reaches a state it reaches alone, and they agree
      on the outbox. */
  lemma JointIsBoth(j: Joint)
    requires Reachable(j)
    ensures P.Reachable(j.w) && D.Reachable(j.s) && SameLetters(j.w.db.deliveries, j.s.rows)
  {
    var moves :| Moves(IDLE, moves, j);
    assert P.Runs(P.START, [], P.START) && D.Runs(D.EMPTY, [], D.EMPTY);
    MovesKeepCoupled(IDLE, moves, j);
  }

  /** What a step of the protocol adds to the outbox, at a settlement or a creation,
      are `Enqueue` events to the dispatchers; and it does nothing else to them. */
  lemma PayIsEnqueues(j: Joint, step: P.Step, at: Time) returns (events: seq<D.Event>)
    requires Reachable(j) && MoveEnabled(j, Pay(step, at))
    ensures D.Runs(j.s, events, AfterMove(j, Pay(step, at)).s) && forall e :: e in events ==> e.Enqueue?
  {
    JointIsBoth(j);
    events := EnqueueAllRuns(j.s, NewLetters(j.w.db.deliveries, P.Next(j.w, step).db.deliveries), at);
  }

  // ---- What follows for the two together ----

  /** The outbox rows that tell endpoint `e` about attempt `a`. */
  ghost function JointRowsFor(j: Joint, e: EndpointId, a: AttemptId): set<DeliveryId> {
    set d | d in j.s.rows && Reports(j.s.rows[d], e, a)
  }

  /** From the settlement to the last retry: each endpoint that was listed has exactly
      one row for the attempt, whatever the dispatchers do; it is sent by at most seven
      committed batches, and given up exactly after seven failures. */
  lemma OneRowUpToTheLastRetry(j: Joint, e: EndpointId, a: AttemptId)
    requires Reachable(j)
    ensures |JointRowsFor(j, e, a)| == if SettledAfterRegistration(j.w, e, a) then 1 else 0
    ensures forall d :: d in JointRowsFor(j, e, a) ==> d in j.s.counted && |j.s.counted[d]| <= 7
    ensures forall d :: d in JointRowsFor(j, e, a) ==>
        (j.s.rows[d].status.DeliveryExhausted? <==> j.s.rows[d].attemptCount == 7)
  {
    JointIsBoth(j);
    Conservation(j.w, e, a);
    assert JointRowsFor(j, e, a) == RowsFor(j.w.db, e, a);
    forall d | d in JointRowsFor(j, e, a)
      ensures d in j.s.counted && |j.s.counted[d]| <= 7
      ensures j.s.rows[d].status.DeliveryExhausted? <==> j.s.rows[d].attemptCount == 7
    {
      D.CountersAreExact(j.s, d);
    }
  }

  /** Whatever a request says about an attempt is what the tables say, when it goes out
      and ever after; and it goes to an endpoint of the business that owns the invoice. */
  lemma RequestsTellTheTruth(j: Joint, x: D.DispatcherId, d: DeliveryId)
    requires Reachable(j) && C.Sends(j.s, x, d)
    ensures d in j.s.rows
    ensures var letter := j.s.rows[d].letter;
            && letter.endpoint in j.w.db.endpoints && j.w.db.endpoints[letter.endpoint].business == letter.business
            && letter.payload.Invoice() in j.w.db.invoices
            && j.w.db.invoices[letter.payload.Invoice()].business == letter.business
            && (letter.payload.AttemptPayload? ==>
                  Agrees(j.w.db, letter.payload.result) &&
                  (letter.event.InvoicePaid? <==> letter.payload.result.status.AttemptSucceeded?))
  {
    JointIsBoth(j);
    D.ReachableIsOk(j.s);
    assert D.Holds(j.s, D.RowPart);
    ReachableIsOk(j.w);
    assert Holds(j.w, Outbox) && LetterOk(j.w, j.w.db.deliveries[d].letter);
  }
}
