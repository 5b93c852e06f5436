/** The branches of `idempotency::reserve_or_get`; `Handlers` has the loop itself. */
module Idempotency {
  import opened Domain

  const ROUNDS: nat := 15

  /** Where one call stands: about to SELECT or about to INSERT in some round, or done. */
  datatype Reservation =
    | Polling(round: nat)
    | Inserting(round: nat)
    | Proceed
    | UseCached(response: Response)
    | Rejected(code: ErrorCode)

  function NextRound(round: nat): Reservation {
    if round + 1 < ROUNDS then Polling(round + 1) else Rejected(RequestInProgress)
  }

  /** The branch taken on what the SELECT of a round returns. */
  function AfterSelect(row: Option<KeyRow>, hash: RequestHash, round: nat): Reservation {
    match row
    case None => Inserting(round)
    case Some(KeyRow(stored, response)) =>
      if stored != hash then Rejected(IdempotencyKeyReused)
      else if response.Some? then UseCached(response.value)
      else NextRound(round)
  }

  /** The branch taken on whether the INSERT ... ON CONFLICT DO NOTHING made a row. */
  function AfterInsert(created: bool, round: nat): Reservation {
    if created then Proceed
    else if round == ROUNDS - 1 then Rejected(RequestInProgress)
    else Polling(round + 1)
  }

  /** A path of one call through the rounds: it starts at the first SELECT, and
      every step is a branch the code can take on some result of its statement. */
  ghost predicate Path(trace: seq<Reservation>, hash: RequestHash) {
    && trace != []
    && trace[0] == Polling(0)
    && forall j :: 0 <= j < |trace| - 1 ==> CanFollow(trace[j], trace[j + 1], hash)
  }

  ghost predicate CanFollow(here: Reservation, next: Reservation, hash: RequestHash) {
    match here
    case Polling(round) => exists row :: next == AfterSelect(row, hash, round)
    case Inserting(round) => exists created :: next == AfterInsert(created, round)
    case _ => false
  }

  /** What other requests may do to the table between two statements: rows are
      never deleted, keep their hash, and keep a response once they have one. */
  predicate Grows(before: map<KeyId, KeyRow>, after: map<KeyId, KeyRow>) {
    forall k :: k in before ==>
      && k in after
      && after[k].hash == before[k].hash
      && (before[k].response.Some? ==> after[k].response == before[k].response)
  }

  /** What a result means for the row of its key. */
  predicate Explains(row: Option<KeyRow>, hash: RequestHash, result: Reservation) {
    match result
    case Proceed => row == Some(KeyRow(hash, None))
    case UseCached(response) => row == Some(KeyRow(hash, Some(response)))
    case Rejected(IdempotencyKeyReused) => row.Some? && row.value.hash != hash
    case Rejected(RequestInProgress) => row.Some? && row.value.hash == hash
    case Rejected(code) => code.InternalError?
    case _ => false
  }

  /** What one round may leave behind. */
  ghost predicate Outcome(hash: RequestHash, round: nat, row: Option<KeyRow>, next: Reservation, inserted: bool) {
    if inserted then
      && round == 0
      && (next in {Polling(1), Rejected(InternalError)} || (next.Proceed? && Explains(row, hash, next)))
    else
      && !next.Proceed?
      && (next == NextRound(round) || Explains(row, hash, next))
      && (next == NextRound(round) ==> row.Some? && row.value.hash == hash)
      && (next == Rejected(RequestInProgress) ==> round + 1 == ROUNDS)
      && (next == Rejected(InternalError) || CanFollow(Polling(round), next, hash))
  }

  /** A path with at most one INSERT, and that one in round 0. */
  ghost predicate Traced(trace: seq<Reservation>, hash: RequestHash, inserts: nat) {
    && Path(trace, hash)
    && inserts <= 1
    && (forall j :: 0 <= j < |trace| - 1 ==> trace[j].Polling? || trace[j] == Inserting(0))
    && (forall j :: 0 <= j < |trace| ==> (trace[j].Inserting? <==> j == 1 && inserts == 1))
  }

  lemma Traces(trace: seq<Reservation>, hash: RequestHash, inserts: nat, round: nat, next: Reservation, inserted: bool)
    returns (longer: seq<Reservation>)
    requires Traced(trace, hash, inserts) && trace[|trace| - 1] == Polling(round) && round < ROUNDS
    requires exists row :: Outcome(hash, round, row, next, inserted)
    requires round == 0 ==> |trace| == 1 && inserts == 0
    ensures Traced(longer, hash, if inserted then inserts + 1 else inserts)
    ensures next == Rejected(InternalError) || longer[|longer| - 1] == next
  {
    longer := trace;
    if inserted {
      assert AfterSelect(None, hash, round) == Inserting(round);
      longer := longer + [Inserting(round)];
      if next != Rejected(InternalError) {
        assert next == AfterInsert(next.Proceed?, round);
        longer := longer + [next];
      }
    } else if next != Rejected(InternalError) {
      longer := longer + [next];
    }
  }
}
