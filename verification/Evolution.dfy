/** What no step ever undoes. `Evolves` relates any state to every later one: rows
    and histories only grow, identities never change, and whatever is final stays. */
module Evolution {
  import opened Domain
  import opened Idempotency
  import opened Protocol

  ghost predicate Extends<K, V>(m: map<K, V>, m': map<K, V>) {
    forall k :: k in m ==> k in m' && m'[k] == m[k]
  }

  /** The invoice states that may follow a state, in any number of steps. */
  predicate Reaches(state: InvoiceState, state': InvoiceState) {
    state == state' || (state.Draft? && !state'.Draft?) || (state.Open? && state'.IsTerminal())
  }

  predicate InvoiceEvolves(row: Invoice, row': Invoice) {
    row' == row.(state := row'.state) && Reaches(row.state, row'.state)
  }

  predicate AttemptEvolves(row: Attempt, row': Attempt) {
    && row'.invoice == row.invoice && row'.card == row.card
    && (!row.status.AttemptPending? ==> row' == row)
  }

  predicate RequestEvolves(q: Request, q': Request) {
    && q'.key == q.key && q'.invoice == q.invoice && q'.card == q.card
    && (q.proceeded && !q.pc.Reserving? ==> q'.proceeded && !q'.pc.Reserving?)
    && (q.proceeded && !q.pc.Reserving? && !q.pc.Claiming? ==> !q'.pc.Claiming?)
    && (q.pc.Replied? || q.pc.Killed? ==> q' == q)
  }

  predicate TaskEvolves(t: Task, t': Task) {
    && t' == t.(called := t'.called, answer := t'.answer, pc := t'.pc)
    && (t.called ==> t'.called)
    && (t.answer.Some? ==> t'.answer == t.answer)
    && (!t.Active() ==> t' == t)
  }

  ghost predicate InvoicesEvolve(db: Db, db': Db) {
    forall i :: i in db.invoices ==> i in db'.invoices && InvoiceEvolves(db.invoices[i], db'.invoices[i])
  }

  ghost predicate AttemptsEvolve(db: Db, db': Db) {
    forall a :: a in db.attempts ==> a in db'.attempts && AttemptEvolves(db.attempts[a], db'.attempts[a])
  }

  ghost predicate RequestsEvolve(w: World, w': World) {
    forall r :: r in w.requests ==> r in w'.requests && RequestEvolves(w.requests[r], w'.requests[r])
  }

  ghost predicate TasksEvolve(w: World, w': World) {
    forall r :: r in w.tasks ==> r in w'.tasks && TaskEvolves(w.tasks[r], w'.tasks[r])
  }

  ghost predicate LettersEvolve(db: Db, db': Db) {
    forall d :: d in db.deliveries ==> d in db'.deliveries && db'.deliveries[d].letter == db.deliveries[d].letter
  }

  ghost predicate HistoriesEvolve(w: World, w': World) {
    && Extends(w.origin, w'.origin)
    && Extends(w.listed, w'.listed)
    && w.calls <= w'.calls
    && w.answers <= w'.answers
    && w.now <= w'.now
  }

  /** The time `at` of a listing by task `r`: the one made before `w` if there is
      one, else not before `w`. A task that is over makes none. */
  predicate ListingEvolves(w: World, r: RequestId, at: Time) {
    if r in w.tasks && w.tasks[r].pc.Listed? then w.tasks[r].pc.at == at
    else at >= w.now && (r in w.tasks ==> w.tasks[r].Active())
  }

  /** New endpoints and new listings carry times not before `w`. */
  ghost predicate TimesEvolve(w: World, w': World) {
    && (forall e :: e in w'.db.endpoints && e !in w.db.endpoints ==> w'.db.endpoints[e].createdAt >= w.now)
    && (forall r :: r in w'.tasks && w'.tasks[r].pc.Listed? ==> ListingEvolves(w, r, w'.tasks[r].pc.at))
    && (forall r :: r in w.tasks && w.tasks[r].pc.Listed? && r in w'.tasks && w'.tasks[r].Active() ==>
        w'.tasks[r].pc.Listed?)
    && (forall a :: a in w'.listed && a !in w.listed ==>
        a in w'.origin && ListingEvolves(w, w'.origin[a], w'.listed[a]))
    && w.now <= w'.now
  }

  datatype Part =
    | InvoicePart | AttemptPart | KeyPart | EndpointPart | LetterPart
    | RequestPart | TaskPart | HistoryPart | TimePart

  ghost predicate EvolvesIn(w: World, w': World, part: Part) {
    match part
    case InvoicePart => InvoicesEvolve(w.db, w'.db)
    case AttemptPart => AttemptsEvolve(w.db, w'.db)
    case KeyPart => Grows(w.db.keys, w'.db.keys)
    case EndpointPart => Extends(w.db.endpoints, w'.db.endpoints)
    case LetterPart => LettersEvolve(w.db, w'.db)
    case RequestPart => RequestsEvolve(w, w')
    case TaskPart => TasksEvolve(w, w')
    case HistoryPart => HistoriesEvolve(w, w')
    case TimePart => TimesEvolve(w, w')
  }

  /** The relation, part by part; a proof takes from it only the parts it names. */
  ghost predicate Evolves(w: World, w': World) {
    forall part :: EvolvesIn(w, w', part)
  }

  lemma EvolvesIsReflexive(w: World)
    ensures Evolves(w, w)
  {
    forall part ensures EvolvesIn(w, w, part) {
    }
  }

  lemma EvolvesIsTransitive(w: World, w': World, w'': World)
    requires Evolves(w, w') && Evolves(w', w'')
    ensures Evolves(w, w'')
  {
    forall part ensures EvolvesIn(w, w'', part) {
      assert EvolvesIn(w, w', part) && EvolvesIn(w', w'', part);
      assert EvolvesIn(w, w', EndpointPart) && EvolvesIn(w', w'', EndpointPart);
      assert EvolvesIn(w, w', TaskPart) && EvolvesIn(w', w'', TaskPart);
      assert EvolvesIn(w, w', HistoryPart) && EvolvesIn(w', w'', HistoryPart);
    }
  }


  // ---- The changes that the steps are made of, one lemma each ----

  lemma SetPcEvolves(w: World, r: RequestId, pc: RequestPc)
    requires r in w.requests && RequestEvolves(w.requests[r], w.requests[r].(pc := pc))
    ensures Evolves(w, Tick(SetPc(w, r, pc)))
  {
    forall part ensures EvolvesIn(w, Tick(SetPc(w, r, pc)), part) {
    }
  }

  lemma SetTaskEvolves(w: World, r: RequestId, pc: TaskPc)
    requires r in w.tasks && w.tasks[r].Active()
        && (if w.tasks[r].pc.Listed? then !SetTask(w, r, pc).tasks[r].Active() else pc.Listed? ==> pc.at >= w.now)
    ensures Evolves(w, Tick(SetTask(w, r, pc)))
  {
    forall part ensures EvolvesIn(w, Tick(SetTask(w, r, pc)), part) {
    }
  }

  lemma ReserveEvolves(w: World, r: RequestId, pc: RequestPc, proceeded: bool)
    requires r in w.requests && w.requests[r].key !in w.db.keys
    requires RequestEvolves(w.requests[r], w.requests[r].(pc := pc, proceeded := proceeded))
    ensures Evolves(w, Tick(AfterReserve(w, r, pc, proceeded)))
  {
    forall part ensures EvolvesIn(w, Tick(AfterReserve(w, r, pc, proceeded)), part) {
    }
  }

  lemma ClaimEvolves(w: World, r: RequestId, a: AttemptId, pc: RequestPc)
    requires r in w.requests && w.requests[r].pc.Claiming? && (pc.Fetching? || pc.Storing?)
    requires a !in w.db.attempts && a !in w.origin
    ensures Evolves(w, Tick(AfterInsertAttempt(w, r, a, pc)))
  {
    forall part ensures EvolvesIn(w, Tick(AfterInsertAttempt(w, r, a, pc)), part) {
    }
  }

  lemma SpawnEvolves(w: World, r: RequestId, a: AttemptId)
    requires r in w.requests && w.requests[r].pc.Fetching? && r !in w.tasks && w.requests[r].invoice in w.db.invoices
    ensures Evolves(w, Tick(AfterFetch(w, r, a)))
  {
    forall part ensures EvolvesIn(w, Tick(AfterFetch(w, r, a)), part) {
    }
  }

  lemma CallEvolves(w: World, r: RequestId)
    requires r in w.tasks && w.tasks[r].pc.Ready?
    ensures Evolves(w, Tick(AfterCall(w, r)))
  {
    forall part ensures EvolvesIn(w, Tick(AfterCall(w, r)), part) {
    }
  }

  lemma AnswerEvolves(w: World, r: RequestId, outcome: PspOutcome)
    requires r in w.tasks && w.tasks[r].pc.Charging? && w.tasks[r].answer.None?
    ensures Evolves(w, Tick(AfterAnswer(w, r, outcome)))
  {
    forall part ensures EvolvesIn(w, Tick(AfterAnswer(w, r, outcome)), part) {
    }
  }

  lemma SettleEvolves(w: World, r: RequestId, ids: map<DeliveryId, EndpointId>, ack: bool)
    requires r in w.tasks && w.tasks[r].pc.Listed? && w.tasks[r].attempt in w.db.attempts
        && w.tasks[r].invoice in w.db.invoices
    requires w.db.attempts[w.tasks[r].attempt].status.AttemptPending? && w.tasks[r].attempt !in w.listed
    requires w.tasks[r].attempt in w.origin && w.origin[w.tasks[r].attempt] == r
    requires ids.Keys !! w.db.deliveries.Keys
    ensures Evolves(w, Tick(AfterSettle(w, r, ids, ack)))
  {
    forall part ensures EvolvesIn(w, Tick(AfterSettle(w, r, ids, ack)), part) {
    }
  }

  lemma StoreEvolves(w: World, r: RequestId, response: Response, ack: bool)
    requires r in w.requests && w.requests[r].pc.Storing? && w.requests[r].key in w.db.keys
        && w.db.keys[w.requests[r].key].response.None?
    ensures Evolves(w, Tick(AfterStore(w, r, response, ack)))
  {
    forall part ensures EvolvesIn(w, Tick(AfterStore(w, r, response, ack)), part) {
    }
  }

  lemma ArriveEvolves(w: World, r: RequestId, q: Request)
    requires r !in w.requests
    ensures Evolves(w, Tick(w.(requests := w.requests[r := q])))
  {
    var w' := Tick(w.(requests := w.requests[r := q]));
    forall part ensures EvolvesIn(w, w', part) {
    }
  }

  /** Steps of other traffic change only the tables, and those only by what they insert or move on. */
  lemma TrafficEvolves(w: World, db: Db)
    requires InvoicesEvolve(w.db, db) && LettersEvolve(w.db, db) && Extends(w.db.endpoints, db.endpoints)
    requires db.attempts == w.db.attempts && db.keys == w.db.keys
    requires forall e :: e in db.endpoints && e !in w.db.endpoints ==> db.endpoints[e].createdAt >= w.now
    ensures Evolves(w, Tick(w.(db := db)))
  {
    forall part ensures EvolvesIn(w, Tick(w.(db := db)), part) {
    }
  }
}
