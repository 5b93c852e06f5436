/** When a card is charged again: only after the service has seen the earlier charges fail. */
module Charges {
  import opened Domain
  import opened Protocol
  import opened Frames
  import opened Evolution
  import opened Invariant
  import opened Preservation

  ghost predicate Failed(w: World, n: nat)
    requires n < |w.calls|
  {
    w.calls[n].attempt in w.db.attempts && w.db.attempts[w.calls[n].attempt].status.AttemptFailed?
  }

  predicate SameInvoice(w: World, n: nat, m: nat) {
    n < m < |w.calls| && w.calls[n].invoice == w.calls[m].invoice
  }

  /** Every call for an invoice but the last is for an attempt that has failed. */
  ghost predicate Sequential(w: World) {
    forall n: nat, m: nat :: SameInvoice(w, n, m) ==> Failed(w, n)
  }

  /** A new call finds every earlier attempt of its invoice failed. */
  lemma CallIsSequential(w: World, r: RequestId, n: nat)
    requires Inv(w) && Enabled(w, Call(r)) && n < |w.calls| && w.calls[n].invoice == w.tasks[r].invoice
    ensures Failed(w, n)
  {
    TaskFacts(w, r);
    assert Holds(w, Ledger) && CallOk(w, w.calls[n]);
    var a := w.calls[n].attempt;
    assert a != w.tasks[r].attempt;
    assert !BothLive(w.db.attempts[a], w.db.attempts[w.tasks[r].attempt]) by {
      assert Holds(w, Attempts);
    }
  }

  lemma StepIsSequential(w: World, s: Step)
    requires Inv(w) && Sequential(w) && Enabled(w, s)
    ensures Sequential(Next(w, s))
  {
    var w' := Next(w, s);
    StepKeeps(w, s);
    assert EvolvesIn(w, w', AttemptPart);
    CallsFrame(w, s);
    forall n: nat, m: nat | SameInvoice(w', n, m) ensures Failed(w', n) {
      if m == |w.calls| {
        CallIsSequential(w, s.r, n);
      } else {
        assert SameInvoice(w, n, m);
      }
    }
  }

  function CallOf(t: Task): PspCall {
    PspCall(t.attempt, t.invoice, t.amountCents, t.card)
  }

  /** Only a call adds to the calls. */
  lemma CallsFrame(w: World, s: Step)
    requires Enabled(w, s)
    ensures s.Call? ==> Next(w, s).calls == w.calls + [CallOf(w.tasks[s.r])]
    ensures !s.Call? ==> Next(w, s).calls == w.calls
  {
    if OfHandler(s) {
      HandlerFrame(w, s);
    } else if OfTask(s) {
      TaskFrame(w, s);
    } else {
      TrafficFrame(w, s);
    }
  }

  lemma {:induction false} RunIsSequential(w: World, steps: seq<Step>, w': World)
    requires Inv(w) && Sequential(w) && Runs(w, steps, w')
    ensures Sequential(w')
    decreases |steps|
  {
    if steps != [] {
      StepKeeps(w, steps[0]);
      StepIsSequential(w, steps[0]);
      RunIsSequential(Next(w, steps[0]), steps[1..], w');
    }
  }

  /** The PSP is called again for an invoice only after the attempt of every earlier
      call was settled as failed, on an answer that was observed and was no success. So
      a card pays twice for an invoice only if the PSP took money and did not say so. */
  lemma CalledAgainOnlyAfterFailure(w: World, n: nat, m: nat)
    requires Reachable(w) && n < m < |w.calls| && w.calls[n].invoice == w.calls[m].invoice
    ensures var a := w.calls[n].attempt;
            && a in w.db.attempts && w.db.attempts[a].status.AttemptFailed? && a in w.origin && w.origin[a] in w.tasks
            && w.tasks[w.origin[a]].answer.Some? && !w.tasks[w.origin[a]].answer.value.Succeeded?
  {
    var steps :| Runs(START, steps, w);
    StartIsOk();
    RunIsSequential(START, steps, w);
    ReachableIsOk(w);
    assert SameInvoice(w, n, m) && Failed(w, n);
    assert Holds(w, Ledger) && SettledByAnswer(w, w.calls[n].attempt);
  }
}
