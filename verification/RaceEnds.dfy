/** Every fair race can be run to its end, from wherever it stands: the complete
    runs that `Race` speaks about exist for any number of racers. */
module RaceEnds {
  import opened Domain
  import opened Idempotency
  import opened Protocol
  import opened Frames
  import opened Invariant
  import opened Preservation
  import opened Orphans
  import opened Race
  import Witness

  function HandlerRank(pc: RequestPc): nat {
    match pc
    case Reserving(Polling(_)) => 6
    case Reserving(_) => 5
    case Claiming => 4
    case Fetching(_) => 3
    case Waiting(_) => 2
    case Storing(_) => 1
    case _ => 0
  }

  /** How far a racer and its task still have to go. */
  function Left(w: World, r: RequestId): nat
    requires r in w.requests
  {
    5 * HandlerRank(w.requests[r].pc) + if r in w.tasks then Rank(w.tasks[r].pc) else 0
  }

  predicate Ended(w: World, r: RequestId) {
    r in w.requests && w.requests[r].pc.Replied? && (r in w.tasks ==> !w.tasks[r].Active())
  }

  /** A racer in its reservation has its key to itself, and no racer is killed. */
  lemma RacerFacts(w: World, f: Field, r: RequestId)
    requires InRace(w, f) && r in f.racers
    ensures r in w.requests && !w.requests[r].pc.Killed?
    ensures w.requests[r].pc.Reserving? ==>
              w.requests[r].key !in w.db.keys && w.requests[r].pc.at in {Polling(0), Inserting(0)}
  {
    assert Racer(w, f, r);
    if !NobodyAhead(w, f) {
      var winner, a :| Ahead(w, f, winner, a);
    }
  }

  /** What a step of one racer does to the others: nothing. */
  ghost predicate OnlyMoves(w: World, w': World, r: RequestId) {
    forall x :: x in w.requests && x != r ==>
      x in w'.requests && w'.requests[x] == w.requests[x]
          && (x in w'.tasks ==> x in w.tasks && w'.tasks[x] == w.tasks[x])
  }

  lemma ReserverCanMove(w: World, f: Field, r: RequestId) returns (s: Step)
    requires InRace(w, f) && r in f.racers && r in w.requests
        && (w.requests[r].pc.Reserving? || w.requests[r].pc.Claiming?)
    ensures Enabled(w, s) && FairStep(w, s, f) && OfHandler(s) && s.r == r && !s.Arrive? && !s.FetchAndSpawn?
    ensures r in Next(w, s).requests && HandlerRank(Next(w, s).requests[r].pc) < HandlerRank(w.requests[r].pc)
  {
    RacerFacts(w, f, r);
    var pc := w.requests[r].pc;
    if pc.Claiming? {
      var a := AboveAll(w.db.attempts.Keys);
      s := Claim(r, a, true);
    } else {
      s := if pc.at.Polling? then SelectKey(r) else InsertKey(r, true);
    }
  }

  lemma HandlerCanMove(w: World, f: Field, r: RequestId) returns (s: Step)
    requires Inv(w) && InRace(w, f) && r in f.racers && r in w.requests && !w.requests[r].pc.Replied?
    requires r in w.tasks ==> !w.tasks[r].Active()
    ensures Enabled(w, s) && FairStep(w, s, f) && OfHandler(s) && s.r == r && !s.Arrive?
    ensures r in Next(w, s).requests && Left(Next(w, s), r) < Left(w, r)
  {
    RacerFacts(w, f, r);
    var pc := w.requests[r].pc;
    if pc.Reserving? || pc.Claiming? {
      s := ReserverCanMove(w, f, r);
      HandlerFrame(w, s);
    } else {
      s := PayerCanMove(w, f, r);
    }
  }

  lemma PayerCanMove(w: World, f: Field, r: RequestId) returns (s: Step)
    requires Inv(w) && r in w.requests && (r in w.tasks ==> !w.tasks[r].Active())
    requires w.requests[r].pc.Fetching? || w.requests[r].pc.Waiting? || w.requests[r].pc.Storing?
    ensures Enabled(w, s) && FairStep(w, s, f) && OfHandler(s) && s.r == r && !s.Arrive?
    ensures r in Next(w, s).requests && Left(Next(w, s), r) < Left(w, r)
  {
    HandlerFacts(w, r);
    var pc := w.requests[r].pc;
    s := if pc.Fetching? then FetchAndSpawn(r) else if pc.Waiting? then Join(r) else Store(r, true);
  }


  lemma TaskCanMove(w: World, f: Field, r: RequestId) returns (s: Step)
    requires Inv(w) && InRace(w, f) && r in f.racers && r in w.tasks && w.tasks[r].Active()
    ensures Enabled(w, s) && FairStep(w, s, f) && OfTask(s) && s.r == r
    ensures r in Next(w, s).tasks && Rank(Next(w, s).tasks[r].pc) < Rank(w.tasks[r].pc)
  {
    TaskFacts(w, r);
    match w.tasks[r].pc
    case Ready => s := Call(r);
    case Charging => s := Answer(r, Succeeded(""));
    case Settling(_) => s := ListEndpoints(r);
    case Listed(_, endpoints, _) =>
      var from := AboveAll(w.db.deliveries.Keys);
      var ids := FreshIds(endpoints, w.db.deliveries, from);
      s := Settle(r, ids, true);
  }

  lemma StepOnlyMoves(w: World, s: Step, r: RequestId)
    requires Enabled(w, s) && (OfHandler(s) || OfTask(s)) && s.r == r && !s.Arrive?
    ensures OnlyMoves(w, Next(w, s), r)
  {
    if OfHandler(s) {
      HandlerFrame(w, s);
      if s.FetchAndSpawn? { SpawnFrame(w, r); }
    } else {
      TaskFrame(w, s);
    }
  }

  /** A racer that has not ended, or its task, has a fair step that brings it closer. */
  lemma RacerCanMove(w: World, f: Field, r: RequestId) returns (s: Step)
    requires Inv(w) && InRace(w, f) && r in f.racers && r in w.requests && !Ended(w, r)
    ensures Enabled(w, s) && FairStep(w, s, f) && !s.Arrive? && OnlyMoves(w, Next(w, s), r)
    ensures r in Next(w, s).requests && Left(Next(w, s), r) < Left(w, r)
  {
    if r in w.tasks && w.tasks[r].Active() {
      s := TaskCanMove(w, f, r);
      TaskFrame(w, s);
    } else {
      s := HandlerCanMove(w, f, r);
    }
    StepOnlyMoves(w, s, r);
  }

  /** A fair run that nobody joins. */
  ghost predicate ClosedFairRun(w: World, steps: seq<Step>, f: Field) {
    FairRun(w, steps, f) && forall n :: 0 <= n < |steps| ==> !steps[n].Arrive?
  }

  lemma ClosedFirstStep(w: World, steps: seq<Step>, f: Field)
    requires steps != [] && ClosedFairRun(w, steps, f)
    ensures Enabled(w, steps[0]) && JoinedBy(w, steps[0], f) == f && ClosedFairRun(Next(w, steps[0]), steps[1..], f)
  {
  }

  /** The field is the same at its end. */
  lemma {:induction false} ClosedKeepsField(w: World, steps: seq<Step>, f: Field)
    requires ClosedFairRun(w, steps, f)
    ensures FieldAfter(w, steps, f) == f
    decreases |steps|
  {
    if steps != [] {
      ClosedFirstStep(w, steps, f);
      ClosedKeepsField(Next(w, steps[0]), steps[1..], f);
    }
  }

  lemma {:induction false} FairRunsCompose(w: World, first: seq<Step>, middle: World, second: seq<Step>, f: Field)
    requires Runs(w, first, middle) && ClosedFairRun(w, first, f) && ClosedFairRun(middle, second, f)
    ensures ClosedFairRun(w, first + second, f)
    decreases |first|
  {
    if first == [] {
      assert first + second == second;
    } else {
      ClosedFirstStep(w, first, f);
      FairRunsCompose(Next(w, first[0]), first[1..], middle, second, f);
      assert (first + second)[1..] == first[1..] + second;
    }
  }

  /** One racer runs alone to its end; those that have ended stay so. */
  lemma {:induction false} RacerEnds(w: World, f: Field, r: RequestId) returns (steps: seq<Step>, w': World)
    requires Inv(w) && InRace(w, f) && r in f.racers && r in w.requests
    ensures Runs(w, steps, w') && ClosedFairRun(w, steps, f) && Ended(w', r)
    ensures forall x :: x in w.requests && Ended(w, x) ==> Ended(w', x)
    decreases Left(w, r)
  {
    if Ended(w, r) {
      steps, w' := [], w;
    } else {
      var s := RacerCanMove(w, f, r);
      var next := Next(w, s);
      StepKeeps(w, s);
      StepInRace(w, s, f);
      var rest;
      rest, w' := RacerEnds(next, f, r);
      steps := [s] + rest;
      assert steps[1..] == rest;
      forall x | x in w.requests && Ended(w, x) ensures Ended(w', x) {
        assert Ended(next, x);
      }
    }
  }

  lemma {:induction false} RacersEnd(w: World, f: Field, rest: set<RequestId>) returns (steps: seq<Step>, w': World)
    requires Inv(w) && InRace(w, f) && rest <= f.racers && forall r :: r in f.racers - rest ==> Ended(w, r)
    ensures Runs(w, steps, w') && ClosedFairRun(w, steps, f) && Finished(w', f)
    decreases rest
  {
    if rest == {} {
      steps, w' := [], w;
      forall r | r in f.racers ensures Ended(w, r) {
      }
    } else {
      var r :| r in rest;
      RacerFacts(w, f, r);
      var first, middle := RacerEnds(w, f, r);
      RunInRace(w, first, middle, f);
      ClosedKeepsField(w, first, f);
      forall x | x in f.racers - (rest - {r}) ensures Ended(middle, x) {
        if x != r {
          assert x in f.racers - rest;
        }
      }
      var second;
      second, w' := RacersEnd(middle, f, rest - {r});
      steps := first + second;
      RunsCompose(w, first, middle, second, w');
      FairRunsCompose(w, first, middle, second, f);
    }
  }

  /** From any point of a fair race some fair run completes it. */
  lemma RaceCanFinish(w: World, f: Field) returns (steps: seq<Step>, w': World)
    requires Reachable(w) && InRace(w, f)
    ensures Runs(w, steps, w') && FairRun(w, steps, f) && FieldAfter(w, steps, f) == f && Finished(w', f)
  {
    ReachableIsOk(w);
    steps, w' := RacersEnd(w, f, f.racers);
    ClosedKeepsField(w, steps, f);
  }

  // ---- Races of every size ----

  /** A key of its own for each racer. */
  function RacerKey(r: RequestId): KeyId {
    KeyId(0, seq(r, _ => 'k'))
  }

  function Arrived(r: RequestId): Request {
    Request(RacerKey(r), 0, "tok_success", false, Reserving(Polling(0)))
  }

  lemma KeysDiffer(r: RequestId, x: RequestId)
    requires r != x
    ensures RacerKey(r) != RacerKey(x)
  {
    assert |RacerKey(r).key| == r && |RacerKey(x).key| == x;
  }

  function FirstRequests(n: nat): (s: set<RequestId>)
    ensures |s| == n
    ensures forall r: RequestId :: r in s <==> r < n
  {
    if n == 0 then {} else FirstRequests(n - 1) + {n - 1}
  }

  lemma {:induction false} RacersArrive(n: nat) returns (w: World)
    ensures Reachable(w) && w.db == Witness.Shop(Open) && w.tasks == map[]
    ensures w.requests.Keys == FirstRequests(n) && forall r :: r in w.requests ==> w.requests[r] == Arrived(r)
  {
    if n == 0 {
      Witness.OpenShopIsReachable();
      w := Witness.Quiet(Witness.Shop(Open), 3);
    } else {
      var before := RacersArrive(n - 1);
      var s := Arrive(n - 1, RacerKey(n - 1), 0, "tok_success");
      ReachableStep(before, s);
      w := Next(before, s);
    }
  }

  /** For every N >= 1 there is a reachable start of a race of N. */
  lemma RaceCanStart(n: nat) returns (w: World, f: Field)
    requires n >= 1
    ensures Reachable(w) && AtTheStart(w, f) && InRace(w, f) && |f.racers| == n
  {
    w := RacersArrive(n);
    f := Field(FirstRequests(n), 0, map[]);
    assert 0 in f.racers;
    assert AttemptsFor(w.db, 0) == map[];
    forall r, x | r in f.racers && x in w.requests ensures KeysApart(w, r, x) {
      if r != x { KeysDiffer(r, x); }
    }
  }
}
