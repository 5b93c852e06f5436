/** Any number of dispatchers on one outbox, statement by statement: each opens a
    transaction, selects a batch under SKIP LOCKED, sends its rows one after the
    other, and commits or aborts. What a batch has written stays private until it
    commits. Time passes, and committed transactions add rows.

    Assumed of PostgreSQL: the SELECT of a batch takes effect at one instant and
    locks what it returns; a commit is atomic, an abort leaves nothing; now() is
    fixed when a transaction begins. */
module Dispatchers {
  import opened Domain
  import opened Schedule

  type DispatcherId = nat

  /** What becomes of a request. The dispatcher sees only whether a success status
      came back in time; a receiver that answers late, or with another status, has
      been reached all the same. */
  datatype Answer = Acknowledged | Unacknowledged | Unreached {
    predicate Reached() {
      !Unreached?
    }
  }

  /** A batch's transaction: begun, or sending what it has claimed. `read` holds the
      attempt counts its SELECT returned, `results` what became of its requests. */
  datatype Batch =
    | Begun(start: Time)
    | Sending(start: Time, read: map<DeliveryId, nat>, todo: seq<DeliveryId>, results: map<DeliveryId, Answer>)
  {
    function Claimed(): set<DeliveryId> {
      if Sending? then read.Keys else {}
    }

    /** What the batch records: a success status, or a failure. */
    function Outcomes(): map<DeliveryId, bool>
      requires Sending?
    {
      map d | d in results :: results[d].Acknowledged?
    }
  }

  /** A request for a delivery. */
  datatype Sent = Sent(at: Time, answer: Answer)

  /** `counted` records for each row the starts of the committed batches that sent
      it, `sent` every request made for it. */
  datatype State = State(
    rows: map<DeliveryId, Delivery>,
    now: Time,
    batches: map<DispatcherId, Batch>,
    counted: map<DeliveryId, seq<Time>>,
    sent: map<DeliveryId, seq<Sent>>)

  const EMPTY := State(map[], 0, map[], map[], map[])

  /** `Enqueue` is the commit of a transaction that began at `at`. */
  datatype Event =
    | Enqueue(d: DeliveryId, letter: Letter, at: Time)
    | Begin(x: DispatcherId)
    | Select(x: DispatcherId, batch: seq<DeliveryId>)
    | Send(x: DispatcherId, answer: Answer)
    | Commit(x: DispatcherId)
    | Abort(x: DispatcherId)
    | Wait(seconds: nat)

  function LockedRows(s: State): set<DeliveryId> {
    set x, d | x in s.batches && d in s.batches[x].Claimed() :: d
  }

  ghost predicate Enabled(s: State, e: Event) {
    match e
    case Enqueue(d, letter, at) => d !in s.rows && at <= s.now
    case Begin(x) => x !in s.batches
    case Select(x, batch) => x in s.batches && s.batches[x].Begun?
        && IsBatch(s.rows, LockedRows(s), s.batches[x].start, batch)
    case Send(x, answer) => x in s.batches && s.batches[x].Sending? && s.batches[x].todo != []
        && s.batches[x].todo[0] in s.sent
    case Commit(x) => x in s.batches && s.batches[x].Sending? && s.batches[x].todo == []
    case Abort(x) => x in s.batches
    case Wait(seconds) => true
  }

  function ReadCounts(rows: map<DeliveryId, Delivery>, batch: seq<DeliveryId>): map<DeliveryId, nat> {
    map d | d in batch && d in rows :: rows[d].attemptCount
  }

  /** The commit publishes the UPDATEs; they write counts computed from what the
      SELECT read, not from the rows as they are now. */
  function Published(rows: map<DeliveryId, Delivery>, b: Batch): map<DeliveryId, Delivery>
    requires b.Sending?
  {
    map d | d in rows :: if d in b.results && d in b.read then
        Written(rows[d], b.read[d], b.results[d].Acknowledged?, b.start)
        else rows[d]
  }

  function Counted(counted: map<DeliveryId, seq<Time>>, b: Batch): map<DeliveryId, seq<Time>>
    requires b.Sending?
  {
    map d | d in counted :: if d in b.results then counted[d] + [b.start] else counted[d]
  }

  function Next(s: State, e: Event): State
    requires Enabled(s, e)
  {
    match e
    case Enqueue(d, letter, at) =>
      s.(rows := s.rows[d := NewDelivery(letter, at)], counted := s.counted[d := []], sent := s.sent[d := []])
    case Begin(x) => s.(batches := s.batches[x := Begun(s.now)])
    case Select(x, batch) =>
      s.(batches := s.batches[x := Sending(s.batches[x].start, ReadCounts(s.rows, batch), batch, map[])])
    case Send(x, answer) =>
      var b := s.batches[x];
      var d := b.todo[0];
      s.(batches := s.batches[x := b.(todo := b.todo[1..], results := b.results[d := answer])],
         sent := s.sent[d := s.sent[d] + [Sent(s.now, answer)]])
    case Commit(x) =>
      var b := s.batches[x];
      s.(rows := Published(s.rows, b), counted := Counted(s.counted, b), batches := s.batches - {x})
    case Abort(x) => s.(batches := s.batches - {x})
    case Wait(seconds) => s.(now := s.now + seconds)
  }

  ghost predicate Runs(s: State, events: seq<Event>, end: State)
    decreases |events|
  {
    if events == [] then end == s
    else Enabled(s, events[0]) && Runs(Next(s, events[0]), events[1..], end)
  }

  ghost predicate Reachable(s: State) {
    exists events :: Runs(EMPTY, events, s)
  }

  // ---- The invariant ----

  /** When a pending row with these counted sends is due again. */
  function DueAfter(createdAt: Time, starts: seq<Time>): Time
    requires |starts| < MAX_ATTEMPTS
  {
    if starts == [] then createdAt else starts[|starts| - 1] + BACKOFF_SECONDS[|starts| - 1]
  }

  predicate WaitKept(starts: seq<Time>, k: nat) {
    k + 1 < |starts| && k < |BACKOFF_SECONDS| && starts[k + 1] >= starts[k] + BACKOFF_SECONDS[k]
  }

  /** Each counted send starts no earlier than its waiting time after the one before. */
  predicate Paced(createdAt: Time, starts: seq<Time>) {
    && (starts != [] ==> starts[0] >= createdAt)
    && forall k :: 0 <= k < |starts| - 1 ==> WaitKept(starts, k)
  }

  ghost predicate RowOk(row: Delivery, starts: seq<Time>) {
    && DeliveryOk(row) && |starts| == SentCount(row) && Paced(row.createdAt, starts)
    && (row.status.DeliveryPending? ==> row.nextAttemptAt == DueAfter(row.createdAt, starts))
  }

  ghost predicate RowsOk(s: State) {
    && s.counted.Keys == s.rows.Keys && s.sent.Keys == s.rows.Keys
    && forall d :: d in s.rows ==> RowOk(s.rows[d], s.counted[d])
  }

  /** A claimed row is as the batch read it, and due. */
  ghost predicate ClaimOk(s: State, b: Batch, d: DeliveryId)
    requires b.Sending? && d in b.read
  {
    d in s.rows && Due(s.rows[d], b.start) && s.rows[d].attemptCount == b.read[d]
  }

  ghost predicate NotSentYet(todo: seq<DeliveryId>, results: map<DeliveryId, Answer>) {
    && (forall m, n :: 0 <= m < n < |todo| ==> todo[m] != todo[n])
    && (forall d :: d in todo ==> d !in results)
  }

  ghost predicate BatchOk(s: State, b: Batch) {
    && b.start <= s.now
    && (b.Sending? ==>
          && Elements(b.todo) + b.results.Keys == b.read.Keys
          && NotSentYet(b.todo, b.results)
          && forall d :: d in b.read ==> ClaimOk(s, b, d))
  }

  ghost predicate BatchesOk(s: State) {
    forall x :: x in s.batches ==> BatchOk(s, s.batches[x])
  }

  /** No two open batches have claimed the same row. */
  ghost predicate Disjoint(s: State) {
    forall x, y, d :: x in s.batches && y in s.batches && d in s.batches[x].Claimed() && d in s.batches[y].Claimed() ==>
        x == y
  }

  /** The last request for a row that a batch has sent is its own. */
  ghost predicate OwnRequest(s: State, b: Batch, d: DeliveryId)
    requires b.Sending? && d in b.results
  {
    && d in s.sent && s.sent[d] != []
    && b.start <= Last(s.sent[d]).at <= s.now && Last(s.sent[d]).answer == b.results[d]
  }

  function Last<T>(s: seq<T>): T
    requires s != []
  {
    s[|s| - 1]
  }

  ghost predicate RequestsOk(s: State) {
    forall x, d :: x in s.batches && s.batches[x].Sending? && d in s.batches[x].results ==>
        OwnRequest(s, s.batches[x], d)
  }

  datatype Part = RowPart | BatchPart | LockPart | RequestPart

  ghost predicate Holds(s: State, part: Part) {
    match part
    case RowPart => RowsOk(s)
    case BatchPart => BatchesOk(s)
    case LockPart => Disjoint(s)
    case RequestPart => RequestsOk(s)
  }

  ghost predicate Inv(s: State) {
    forall part :: Holds(s, part)
  }

  /** A send that is due keeps the waiting times, and the row waits its backoff from the batch start. */
  lemma WrittenIsOk(row: Delivery, starts: seq<Time>, received: bool, start: Time)
    requires RowOk(row, starts) && Due(row, start)
    ensures RowOk(Written(row, row.attemptCount, received, start), starts + [start])
  {
    var more := starts + [start];
    forall k | 0 <= k < |more| - 1 ensures WaitKept(more, k) {
      assert k < |starts| - 1 ==> WaitKept(starts, k);
    }
  }

  /** What a batch has sent it had claimed. */
  lemma ResultsAreClaimed(s: State, x: DispatcherId)
    requires Inv(s) && x in s.batches && s.batches[x].Sending?
    ensures forall d :: d in s.batches[x].results ==> d in s.batches[x].Claimed() && d in s.rows
  {
    assert Holds(s, BatchPart) && BatchOk(s, s.batches[x]);
    forall d | d in s.batches[x].results ensures d in s.batches[x].Claimed() && d in s.rows {
      assert d in s.batches[x].results.Keys;
      assert ClaimOk(s, s.batches[x], d);
    }
  }

  lemma EnqueueKeeps(s: State, d: DeliveryId, letter: Letter, at: Time)
    requires Inv(s) && Enabled(s, Enqueue(d, letter, at))
    ensures Inv(Next(s, Enqueue(d, letter, at)))
  {
    var s' := Next(s, Enqueue(d, letter, at));
    forall part ensures Holds(s', part) {
      assert Holds(s, part);
      if part.BatchPart? {
        forall x | x in s'.batches ensures BatchOk(s', s'.batches[x]) {
          assert BatchOk(s, s.batches[x]);
        }
      }
      if part.RequestPart? {
        forall x | x in s.batches && s.batches[x].Sending?
            ensures d !in s.batches[x].results { ResultsAreClaimed(s, x); }
      }
    }
  }

  lemma SelectKeeps(s: State, x: DispatcherId, batch: seq<DeliveryId>)
    requires Inv(s) && Enabled(s, Select(x, batch))
    ensures Inv(Next(s, Select(x, batch)))
  {
    var s' := Next(s, Select(x, batch));
    forall part ensures Holds(s', part) {
      assert Holds(s, part);
      match part
      case RowPart =>
      case RequestPart =>
      case BatchPart =>
        assert BatchOk(s, s.batches[x]);
        forall d | d in batch ensures Eligible(s.rows, LockedRows(s), s.batches[x].start, d) {
        }
      case LockPart =>
        forall y, d | y in s.batches && d in s.batches[y].Claimed() ensures d !in batch {
          assert d in LockedRows(s);
          assert d in batch ==> Eligible(s.rows, LockedRows(s), s.batches[x].start, d);
        }
    }
  }

  lemma SendKeepsRequests(s: State, x: DispatcherId, answer: Answer)
    requires Inv(s) && Enabled(s, Send(x, answer))
    ensures RequestsOk(Next(s, Send(x, answer)))
  {
    var s', first := Next(s, Send(x, answer)), s.batches[x].todo[0];
    assert Holds(s, BatchPart) && Holds(s, LockPart) && Holds(s, RequestPart) && BatchOk(s, s.batches[x]);
    assert first in s.batches[x].todo && first in s.batches[x].Claimed();
    forall y | y in s.batches && y != x && s.batches[y].Sending? ensures first !in s.batches[y].results {
      ResultsAreClaimed(s, y);
    }
    forall y, d | y in s'.batches && s'.batches[y].Sending? && d in s'.batches[y].results
        ensures OwnRequest(s', s'.batches[y], d) {
      assert d != first ==> OwnRequest(s, s.batches[y], d);
    }
  }

  lemma SendKeeps(s: State, x: DispatcherId, answer: Answer)
    requires Inv(s) && Enabled(s, Send(x, answer))
    ensures Inv(Next(s, Send(x, answer)))
  {
    var s', b := Next(s, Send(x, answer)), s.batches[x];
    assert Elements(b.todo) == {b.todo[0]} + Elements(b.todo[1..]) by {
      assert b.todo == [b.todo[0]] + b.todo[1..];
    }
    SendKeepsRequests(s, x, answer);
    forall part ensures Holds(s', part) {
      assert Holds(s, part);
      if part.BatchPart? {
        forall y | y in s'.batches ensures BatchOk(s', s'.batches[y]) {
          assert BatchOk(s, s.batches[y]);
        }
      }
    }
  }

  /** At the commit every row is still as the batch read it, so what is published is
      the whole batch done at once on the committed rows: no update is lost. */
  lemma CommitIsAtomic(s: State, x: DispatcherId)
    requires Inv(s) && Enabled(s, Commit(x))
    ensures Published(s.rows, s.batches[x]) == Processed(s.rows, s.batches[x].Outcomes(), s.batches[x].start)
    ensures forall d :: d in s.batches[x].results ==> d in s.rows && Due(s.rows[d], s.batches[x].start)
  {
    assert Holds(s, BatchPart) && BatchOk(s, s.batches[x]);
    var b := s.batches[x];
    forall d | d in b.results ensures d in b.read && ClaimOk(s, b, d) {
      assert d in b.results.Keys;
    }
  }

  lemma CommitKeepsOthers(s: State, x: DispatcherId, y: DispatcherId)
    requires Inv(s) && Enabled(s, Commit(x)) && y in s.batches && y != x
    ensures BatchOk(Next(s, Commit(x)), s.batches[y])
  {
    assert Holds(s, BatchPart) && BatchOk(s, s.batches[x]) && BatchOk(s, s.batches[y]);
    assert Holds(s, LockPart);
    var b, s' := s.batches[y], Next(s, Commit(x));
    if b.Sending? {
      forall d | d in b.read ensures ClaimOk(s', b, d) {
        assert ClaimOk(s, b, d) && d in b.Claimed();
        assert d !in s.batches[x].Claimed();
      }
    }
  }

  lemma CommitKeeps(s: State, x: DispatcherId)
    requires Inv(s) && Enabled(s, Commit(x))
    ensures Inv(Next(s, Commit(x)))
  {
    var s', b := Next(s, Commit(x)), s.batches[x];
    CommitIsAtomic(s, x);
    forall part ensures Holds(s', part) {
      assert Holds(s, part);
      match part
      case RowPart =>
        forall d | d in s'.rows ensures RowOk(s'.rows[d], s'.counted[d]) {
          assert RowOk(s.rows[d], s.counted[d]);
          if d in b.results { WrittenIsOk(s.rows[d], s.counted[d], b.results[d].Acknowledged?, b.start); }
        }
      case BatchPart =>
        forall y | y in s'.batches ensures BatchOk(s', s'.batches[y]) { CommitKeepsOthers(s, x, y); }
      case LockPart =>
      case RequestPart =>
    }
  }

  lemma StepKeeps(s: State, e: Event)
    requires Inv(s) && Enabled(s, e)
    ensures Inv(Next(s, e))
  {
    match e
    case Enqueue(d, letter, at) => EnqueueKeeps(s, d, letter, at);
    case Select(x, batch) => SelectKeeps(s, x, batch);
    case Send(x, answer) => SendKeeps(s, x, answer);
    case Commit(x) => CommitKeeps(s, x);
    case _ =>
      forall part ensures Holds(Next(s, e), part) {
        assert Holds(s, part);
      }
  }

  lemma {:induction false} RunKeeps(s: State, events: seq<Event>, end: State)
    requires Inv(s) && Runs(s, events, end)
    ensures Inv(end)
    decreases |events|
  {
    if events != [] {
      StepKeeps(s, events[0]);
      RunKeeps(Next(s, events[0]), events[1..], end);
    }
  }

  lemma EmptyIsOk()
    ensures Inv(EMPTY)
  {
    forall part ensures Holds(EMPTY, part) {
    }
  }

  lemma ReachableIsOk(s: State)
    requires Reachable(s)
    ensures Inv(s)
  {
    var events :| Runs(EMPTY, events, s);
    EmptyIsOk();
    RunKeeps(EMPTY, events, s);
  }

  // ---- What follows ----

  /** Batches that are open at the same time never send the same row. */
  lemma BatchesAreDisjoint(s: State, x: DispatcherId, y: DispatcherId)
    requires Reachable(s) && x in s.batches && y in s.batches && x != y
    ensures s.batches[x].Claimed() !! s.batches[y].Claimed()
  {
    ReachableIsOk(s);
    assert Holds(s, LockPart);
  }

  /** The counters are exact: committed sends are the attempt count, plus the one
      that succeeded; there are at most seven, and seven failures exhaust the row. */
  lemma CountersAreExact(s: State, d: DeliveryId)
    requires Reachable(s) && d in s.rows
    ensures d in s.counted && |s.counted[d]| == s.rows[d].attemptCount
        + (if s.rows[d].status.DeliverySucceeded? then 1 else 0)
    ensures |s.counted[d]| <= 7
    ensures s.rows[d].status.DeliveryExhausted? <==> s.rows[d].attemptCount == 7
    ensures s.rows[d].status.DeliveryPending? ==> s.rows[d].attemptCount < 7
  {
    ReachableIsOk(s);
    assert Holds(s, RowPart) && RowOk(s.rows[d], s.counted[d]);
  }

  /** The documented waiting times are kept between the starts of the batches that
      make consecutive counted sends. */
  lemma CountedSendsArePaced(s: State, d: DeliveryId, k: nat)
    requires Reachable(s) && d in s.rows && d in s.counted && k + 1 < |s.counted[d]|
    ensures k < |BACKOFF_SECONDS| && s.counted[d][k + 1] >= s.counted[d][k] + BACKOFF_SECONDS[k]
  {
    ReachableIsOk(s);
    assert Holds(s, RowPart) && RowOk(s.rows[d], s.counted[d]) && WaitKept(s.counted[d], k);
  }

  lemma {:induction false} PacedAddsUp(createdAt: Time, starts: seq<Time>, k: nat)
    requires Paced(createdAt, starts) && k < |starts| <= MAX_ATTEMPTS
    ensures starts[k] >= createdAt + BackoffSum(k)
  {
    if k > 0 {
      PacedAddsUp(createdAt, starts, k - 1);
      assert WaitKept(starts, k - 1);
    }
  }

  /** So the batch of a counted send begins no earlier than the creation of the row, plus
      30, 330, 2130, 9330, 52530 or 138930 seconds for the second to the seventh. */
  lemma SendsKeepTheSchedule(s: State, d: DeliveryId, k: nat)
    requires Reachable(s) && d in s.rows && d in s.counted && k < |s.counted[d]|
    ensures var waited := s.counted[d][k] - s.rows[d].createdAt;
            && k <= 6 && waited >= 0
            && (k == 1 ==> waited >= 30)
            && (k == 2 ==> waited >= 330)
            && (k == 3 ==> waited >= 2130)
            && (k == 4 ==> waited >= 9330)
            && (k == 5 ==> waited >= 52530)
            && (k == 6 ==> waited >= 138930)
  {
    ReachableIsOk(s);
    assert Holds(s, RowPart) && RowOk(s.rows[d], s.counted[d]);
    PacedAddsUp(s.rows[d].createdAt, s.counted[d], k);
    WholeSchedule();
  }

  /** What the commit of a batch makes of a row it has sent: acknowledged, the row has
      succeeded; otherwise one more failure is counted, and the row is due 30, 300, 1800,
      7200, 43200 or 86400 seconds after the batch began, or given up after the seventh.
      Other rows stay. */
  lemma CommitWrites(s: State, x: DispatcherId, d: DeliveryId)
    requires Reachable(s) && Enabled(s, Commit(x)) && d in s.rows
    ensures d in Next(s, Commit(x)).rows
    ensures var b, row, row' := s.batches[x], s.rows[d], Next(s, Commit(x)).rows[d];
            if d !in b.results then row' == row
            else if b.results[d].Acknowledged? then row' == row.(status := DeliverySucceeded)
            else
              && var n, wait := row.attemptCount + 1, row'.nextAttemptAt - b.start;
              && row' == row.(status := row'.status, attemptCount := n, nextAttemptAt := row'.nextAttemptAt)
              && 1 <= n <= 7
              && (n < 7 ==> row'.status == DeliveryPending)
              && (n == 1 ==> wait == 30)
              && (n == 2 ==> wait == 300)
              && (n == 3 ==> wait == 1800)
              && (n == 4 ==> wait == 7200)
              && (n == 5 ==> wait == 43200)
              && (n == 6 ==> wait == 86400)
              && (n == 7 ==> row'.status == DeliveryExhausted && row'.nextAttemptAt == row.nextAttemptAt)
  {
    ReachableIsOk(s);
    CommitIsAtomic(s, x);
    assert Holds(s, RowPart) && RowOk(s.rows[d], s.counted[d]);
  }

  /** The index into the backoff table is in range whenever it is used. */
  lemma BackoffIndexInRange(s: State, x: DispatcherId, d: DeliveryId)
    requires Reachable(s) && x in s.batches && s.batches[x].Sending? && d in s.batches[x].read
    ensures 0 <= s.batches[x].read[d] < MAX_ATTEMPTS
    ensures s.batches[x].read[d] + 1 < MAX_ATTEMPTS ==> 0 <= s.batches[x].read[d] <= 5
  {
    ReachableIsOk(s);
    assert Holds(s, BatchPart) && BatchOk(s, s.batches[x]) && ClaimOk(s, s.batches[x], d);
    assert Holds(s, RowPart) && RowOk(s.rows[d], s.counted[d]);
  }

  predicate Final(row: Delivery) {
    !row.status.DeliveryPending?
  }

  lemma FinalStep(s: State, e: Event, d: DeliveryId)
    requires Inv(s) && Enabled(s, e) && d in s.rows && Final(s.rows[d])
    ensures d in Next(s, e).rows && Next(s, e).rows[d] == s.rows[d]
  {
    if e.Commit? {
      CommitIsAtomic(s, e.x);
    }
  }

  /** A succeeded or exhausted row never changes again. */
  lemma {:induction false} FinalIsPermanent(s: State, events: seq<Event>, end: State, d: DeliveryId)
    requires Inv(s) && Runs(s, events, end) && d in s.rows && Final(s.rows[d])
    ensures d in end.rows && end.rows[d] == s.rows[d]
    decreases |events|
  {
    if events != [] {
      StepKeeps(s, events[0]);
      FinalStep(s, events[0], d);
      FinalIsPermanent(Next(s, events[0]), events[1..], end, d);
    }
  }

  // ---- Runs ----

  lemma {:induction false} RunsCompose(s: State, first: seq<Event>, middle: State, second: seq<Event>, end: State)
    requires Runs(s, first, middle) && Runs(middle, second, end)
    ensures Runs(s, first + second, end)
    decreases |first|
  {
    if first == [] {
      assert first + second == second;
    } else {
      RunsCompose(Next(s, first[0]), first[1..], middle, second, end);
      assert (first + second)[1..] == first[1..] + second;
    }
  }

  lemma OneStep(s: State, e: Event)
    requires Enabled(s, e)
    ensures Runs(s, [e], Next(s, e))
  {
    assert [e][1..] == [];
  }

  lemma ReachableStep(s: State, e: Event)
    requires Reachable(s) && Enabled(s, e)
    ensures Reachable(Next(s, e))
  {
    var events :| Runs(EMPTY, events, s);
    OneStep(s, e);
    RunsCompose(EMPTY, events, s, [e], Next(s, e));
  }
}
