# A verified model of the invoice and payment service

The service lets a business create invoices, have customers pay them through a
payment service provider (PSP), and learn of the results through webhooks. What
is hard about it is that everything happens at once: any number of
`POST /pay` handlers, their detached tasks, invoice transitions, webhook
dispatchers, crashes and lost acknowledgements share five tables. This project
models that as step systems over the tables, models the code itself as
imperative methods on mutable tables, and proves what the two promise.

## The payment protocol

`Domain` holds the tables and values, `Transactions` what each database
transaction does to the tables, taken as one step. `Protocol` is the step
system: a `World` has the tables, the program counter of every handler and every
detached task, and histories (which request claimed an attempt, PSP calls, PSP
answers, when the endpoints were listed). Faults are steps: a handler or a task
is killed, a transaction fails, a commit takes effect but its acknowledgement is
lost. `Invariant`, `Evolution` and `Preservation` prove a global invariant and
that no step undoes anything; `Guarantees`, `OutboxGuarantees`, `Tenancy`,
`Orphans` and `StuckKeys` state what follows for every reachable state and every
run. `Answers` says what a client is answered and when, `Outcomes` what is kept and
told of a PSP answer, and `Lifecycle` what the state of an invoice tells. `Charges` says
when the PSP is called again and `Payable` which invoices can still be paid. `Race` and
`RaceEnds` treat N payments racing for one invoice. `Witness` holds a concrete run.

Three layers tie the step system to the code:

- `Isolation` and `Refinement`: the transactions one SQL statement at a time,
  with row locks, the partial unique index and aborts, refine the system in which
  each is one step. `Serial` has the other direction, for serial schedules.
- `Store`: the transactions as imperative methods on a `Database` object, statement
  by statement, with failures, rollback and lost acknowledgements, each proved equal
  to its function of `Transactions`.
- `Handlers`: `pay_invoice`, with the loop of `reserve_or_get`, and the detached task
  as imperative code on that database, with arbitrary steps of everybody else between
  any two effects. Every effect is proved to be a step of the protocol: the ghost
  field `run` lists the steps taken, and each method only extends it. What the PSP and
  the receivers answer and whether the wait elapses are parameters; on a `reliable`
  database no call fails.

## The webhook outbox

`Schedule` says which rows a batch takes and what a send makes of a row.
`Dispatcher` is `dispatch_due_batch` on the mutable table. `Dispatchers` is the
step system of any number of dispatchers with open transactions. `Claimable` proves
that a due row can be requested at once, `Waits` when requests may go out, `Receipts`
how often a delivery is received, and `Progress` and `Selections` that no due delivery
starves and that the outbox drains. `DispatchWitness` holds concrete runs.
`Composition` puts the protocol and the dispatchers to work on one outbox.

## Invoice totals

`Totals` proves what 64-bit arithmetic makes of an invoice total.

## Where the code and its documentation disagree

The model follows the code.

- The comment at `invoice-service/src/handlers/payments.rs:299-302` and
  `DESIGN.md:143-146` say that a settlement cannot meet an invoice that is no longer
  open. It can: `transition` never looks at pending attempts. `Witness.PaidButVoid`
  reaches a void invoice with a succeeded attempt, announced as `invoice.paid`;
  `Guarantees.SettlementPaysIffOpen` and `Guarantees.SuccessPaysIffNotMoved` say exactly
  when a success pays.
- `DESIGN.md:118-120` says that after a crash before the claim a retry starts clean.
  That holds for a fresh key only: `StuckKeys.CrashBeforeTheClaim` reaches, for every
  key, a state in which nothing but the key is left, and it is never answered.
  `StuckKeys.AnswerableIffOwner` says exactly when a key still can be.
- The comment at `invoice-service/src/webhook_dispatcher.rs:97-99` says replicas never
  double-send a delivery. Batches are disjoint, but two things make a receiver get it
  again, and nothing else does: the batch that has reached it is aborted, or it gives no
  success status within the timeout and the request counts as failed
  (`Receipts.ReceivedAtMostOnce`, `Receipts.TwiceIffReceiptLost`).
- `DESIGN.md:158-159` gives waiting times between attempts. They are kept between the
  starts of the batches (`Dispatchers.CountedSendsArePaced`). Between requests they can
  fail (`DispatchWitness.RequestsMayBeClose`); `Waits.WaitIsKeptIff` says exactly when
  they are guaranteed.
- An event reaches the endpoints registered when its transaction listed them, which
  may be before it commits (`OutboxGuarantees.RegistrationDecides`).

## Assumptions

- PostgreSQL at READ COMMITTED: a row lock excludes other lockers and writers until
  its transaction ends; an INSERT waits for open transactions that decide the unique
  index; a commit is atomic and an abort leaves nothing; `now()` is the start of the
  transaction and the clock does not go back; the SELECT of a batch takes effect at
  one instant. Deadlock aborts are ordinary aborts.
- Drawn UUIDs are fresh. The request hash is an injective function of the invoice id
  and the card token.
- The PSP and the receivers may answer anything. A charge that the PSP made but that
  the client saw as unavailable is not observed, so "charged at most once" is about
  observed successes. A webhook request may have reached its receiver whether or not a
  success status came back in time; `Receipts` counts every request that did.
- The service runs as a release build: no profile in `Cargo.toml` turns overflow
  checks on.

## Model

| member | source | states |
|---|---|---|
| Guarantees.OneLiveAttemptPerInvoice | migrations/0001_init.sql:71-77 | in every reachable state an invoice has at most one attempt that is pending or succeeded (stronger than the index, which covers pending only) |
| Guarantees.AtMostOneObservedSuccess | invoice-service/src/handlers/payments.rs:178-333 | over a whole run at most one PSP call for an invoice is observed as Succeeded |
| Guarantees.EveryCallIsForTheTotal | invoice-service/src/handlers/payments.rs:140-146 | each attempt is charged at most once, with its own card, for the total fixed when the invoice was created, in every continuation |
| Charges.CalledAgainOnlyAfterFailure | invoice-service/src/handlers/payments.rs:212-230 | the PSP is called again for an invoice only after the attempt of every earlier call was settled as failed, on an answer that was observed and was no success |
| Outcomes.SettledMeansChargedOnce | invoice-service/src/handlers/payments.rs:143-146 | a settled attempt goes back to exactly one PSP call, for the invoice's total and to its card, and exactly one observed answer, which its row tells of |
| Outcomes.OutcomeIsTold | invoice-service/src/handlers/payments.rs:252-277 | the row of a settled attempt tells of its observed answer: a success by its reference alone, a decline by its code alone, an unavailable PSP by "psp_unavailable" alone; and every webhook payload, stored or replied 200 body and task result about the attempt repeats that row |
| Outcomes.EventFollowsOutcome | invoice-service/src/handlers/payments.rs:252-277 | an event about an attempt is invoice.paid after an observed success and invoice.payment_failed after any other answer |
| Outcomes.SettlementWrites | invoice-service/src/handlers/payments.rs:281-324 | the commit of a settlement changes the attempt, the invoice if open and the outcome a success, and adds one pending, never sent row for each listed endpoint, and nothing else |
| Answers.SelectAnswers | invoice-service/src/idempotency.rs:48-79 | from any row: no row leads to the INSERT, another hash to 422, a stored response to its replay, an unfinished one to the next look or, after the fifteenth, to 409 |
| Answers.RepliesAtOnce | invoice-service/src/idempotency.rs:61-79 | over runs: a request that arrives, or is still waiting, when its key has a response or belongs to another body never looks twice, inserts or proceeds; its reply is the stored response, or key-reused exactly on a mismatch, unless a database call of its own fails |
| Answers.ClaimAnswers | invoice-service/src/handlers/payments.rs:186-234 | the rows decide the claim: 404 without a row of the business, already-paid, not-payable or in-progress by the state and a pending attempt, with nothing written; else one pending attempt with the request's card |
| Answers.JoinAnswers | invoice-service/src/handlers/payments.rs:148-157 | a handler that finds its task over stores 200 with the task's body, which says what the row of the attempt it has claimed says, or 500 |
| Answers.AnsweredNowOrLater | invoice-service/src/handlers/payments.rs:148-174 | over runs: a request that has claimed an attempt, met no fault since and replied was answered 202 with the attempt id if its wait timed out, and otherwise 200 with what the row of the settled attempt says |
| Answers.AcceptedOnlyAfterTimeOut | invoice-service/src/handlers/payments.rs:158-174 | over runs: a 202 is stored or replied, replays included, only for an attempt whose own request timed out waiting |
| Guarantees.OneProceedAndOneAttemptPerKey | invoice-service/src/idempotency.rs:79-97 | per (business, key) at most one request ever proceeds and at most one attempt is claimed |
| Guarantees.StoreNeverOverwrites | invoice-service/src/idempotency.rs:114-138 | whenever the unconditional UPDATE runs, the row exists, has the request's hash and no response yet |
| Guarantees.StoredResponseIsPermanent | invoice-service/src/idempotency.rs:114-138 | along every run a key is never released, keeps its hash, and keeps its first response |
| Guarantees.ReplyIsTheStoredResponse | invoice-service/src/handlers/payments.rs:82-122 | a reply is for ever the response stored under its key, or request_in_progress, or idempotency_key_reused exactly on a hash mismatch, or a database error |
| Guarantees.ReplaysAreIdentical | invoice-service/src/idempotency.rs:1-14 | two replies to the same key and body that carry a result carry the same result |
| Guarantees.ResponsesStayTrue | invoice-service/src/handlers/payments.rs:89-122 | a replied or stored 200 body agrees with its attempt row in all later states, and names the attempt claimed under that key |
| Guarantees.KeysNeverShareAttempts | invoice-service/src/handlers/payments.rs:148-174 | responses under different keys never name the same attempt |
| Guarantees.SettledOnce | invoice-service/src/handlers/payments.rs:279-296 | a settled attempt never changes again, and was settled with the outcome its task observed |
| Guarantees.NeverAlreadyFinalized | invoice-service/src/handlers/payments.rs:292-296 | the "already finalized" branch is unreachable: every settlement finds its attempt pending |
| Guarantees.StatesAgree | invoice-service/src/handlers/payments.rs:199-210 | a succeeded attempt has a terminal invoice, a pending one an open, void or uncollectible invoice |
| Guarantees.PaidHasOneSuccess | invoice-service/src/handlers/payments.rs:298-308 | a paid invoice has exactly one succeeded attempt |
| Guarantees.InvoicesOnlyMoveForward | invoice-service/src/handlers/invoices.rs:203-211 | along every run an invoice moves only draft to open to terminal or draft to terminal, and keeps tenant, lines and total |
| Guarantees.SuccessPaysIffNotMoved | invoice-service/src/handlers/payments.rs:298-308 | from the claim on, over whole runs: an attempt that has succeeded has paid its invoice if and only if no transition has hit the invoice since the claim |
| Guarantees.SuccessPaysUnlessMoved | invoice-service/src/handlers/payments.rs:298-308 | from a claim on, or any later point with the invoice still open, a success pays it if no transition hits it, whatever else happens |
| Guarantees.ClaimIsOnTrack | invoice-service/src/handlers/payments.rs:184-233 | a claim that inserts its attempt leaves it pending on an open invoice, where the previous row starts |
| Guarantees.SettlementPaysIffOpen | invoice-service/src/handlers/payments.rs:298-308 | a successful settlement leaves the invoice paid if and only if it found it open |
| Lifecycle.AllowedByState | invoice-service/src/state_machine.rs:50-64 | finalizing is open to the owner of a draft, voiding to that of a draft or open invoice, marking uncollectible to that of an open one, and to nobody else |
| Lifecycle.ActionsLeadTo | invoice-service/src/handlers/invoices.rs:203-281 | finalizing makes an invoice open, voiding void, marking uncollectible uncollectible, and nothing else changes |
| Lifecycle.StateTellsHistory | invoice-service/src/handlers/invoices.rs:182-281 | over whole runs: an invoice is a draft iff no action was taken on it, void iff it was voided, uncollectible iff it was marked so, and otherwise paid iff one of its attempts succeeded |
| Lifecycle.CreationWrites | invoice-service/src/handlers/invoices.rs:55-108 | a creation adds a draft with the wrapping total and one pending, never sent invoice.created row for each listed endpoint, and changes nothing else |
| Witness.PaidButVoid | invoice-service/src/handlers/invoices.rs:182-211 | a reachable state with a void invoice, a succeeded attempt and an invoice.paid row, and an endpoint registered before the commit that gets none |
| OutboxGuarantees.Conservation | invoice-service/src/webhook_dispatcher.rs:40-69 | each endpoint has exactly one row for each settled attempt of its business whose transaction listed it, none otherwise; invoice.paid exactly when the attempt succeeded |
| OutboxGuarantees.RegistrationDecides | invoice-service/src/webhook_dispatcher.rs:46-54 | an endpoint registered before the listing hears of the attempt once, one registered after it never, along every run |
| OutboxGuarantees.SeenIsTheListing | invoice-service/src/webhook_dispatcher.rs:46-54 | the endpoints that a transaction listed at some time of a run are those of the business that were registered at that time, whatever is registered later |
| OutboxGuarantees.CreationIsAnnouncedOnce | invoice-service/src/handlers/invoices.rs:92-108 | in every continuation of a creation each endpoint has exactly one invoice.created row if it was registered for the business before the creating transaction listed the endpoints, and none otherwise, even if it was there at the commit |
| Tenancy.NonInterference | invoice-service/src/handlers/payments.rs:244-324 | no step changes a row of a business other than the one it is taken for, the id-only settlement included |
| Tenancy.OthersCannotInterfere | invoice-service/src/handlers/payments.rs:186-194 | along a run whose steps are all for other businesses, the rows of a business stay as they are |
| Tenancy.DeliveriesAgreeOnTheTenant | invoice-service/src/webhook_dispatcher.rs:56-67 | a delivery, its endpoint and its invoice belong to one business |
| Orphans.OrphanedForEver | DESIGN.md:118-129 | a pending attempt without a worker stays pending in every continuation; its invoice gets no further attempt and no further PSP call and is never paid |
| Orphans.SettleableIffWorker | DESIGN.md:216-221 | a pending attempt can still be settled if and only if its handler is about to spawn the detached task or that task is running |
| Orphans.CrashOrphans | DESIGN.md:120-122 | whenever a detached task dies before its settlement commits, whatever the PSP has answered, its attempt is orphaned |
| Payable.PayableIff | DESIGN.md:118-129 | an invoice that is not paid can still become paid if and only if it is a draft, or open without an orphaned attempt |
| Witness.ChargedButOrphaned | DESIGN.md:120-122 | a reachable state in which a success was observed, and the attempt is orphaned on an open invoice |
| StuckKeys.AbandonedForEver | invoice-service/src/idempotency.rs:68-75 | a reserved key whose request is gone never gets a response |
| StuckKeys.CrashAbandons | invoice-service/src/handlers/payments.rs:82-122 | whenever the request that owns a key dies, wherever it stands, the key is abandoned |
| StuckKeys.CrashBeforeTheClaim | DESIGN.md:118-120 | for every key, invoice and card: a reachable state in which a request died before its claim, there is no attempt and no PSP call, and the key is abandoned |
| StuckKeys.RetryUnderAbandonedKey | DESIGN.md:118-120 | a retry under such a key never proceeds and is answered in-progress, key-reused or a database error |
| StuckKeys.AnswerableIffOwner | invoice-service/src/handlers/payments.rs:89-122 | a reserved key without a response can still get one if and only if the request that owns it is running |
| Race.ExactlyOnePays | invoice-service/tests/concurrency_test.rs:12-58 | for any N >= 1 distinct-key payments of an open invoice, each arriving at any time, and any schedule without racers' faults or transitions of it, a complete run has exactly one new attempt, which succeeded; the invoice is paid; its request got 200, or 202 iff its wait timed out, and the N-1 others 409 |
| Race.ArrivalJoins | invoice-service/tests/concurrency_test.rs:12-58 | a payment that arrives late, even after somebody has won, is in the race like the others |
| RaceEnds.RaceCanFinish | invoice-service/tests/concurrency_test.rs:12-58 | from every point of such a race some fair run completes it |
| RaceEnds.RaceCanStart | invoice-service/tests/concurrency_test.rs:12-58 | for every N there is a reachable start of a race of N |
| Preservation.StepKeeps | invoice-service/src/handlers/payments.rs:56-333 | every step keeps the global invariant and undoes nothing |
| Preservation.RunKeeps | invoice-service/src/handlers/payments.rs:56-333 | so does every run |
| Refinement.InterleavingRefines | invoice-service/src/handlers/payments.rs:178-333 | every statement-level interleaving with locks, index waits and aborts ends in tables that whole transactions, one after the other, reach |
| Serial.SerialRunsAreInterleavings | invoice-service/src/handlers/payments.rs:184-333 | conversely every run of whole transactions in which nothing happens between a settlement's listing of the endpoints and its end is an interleaving of the statements: the locks and the index shut out no serial schedule |
| Refinement.StatementKeeps | invoice-service/src/handlers/payments.rs:184-324 | each statement does to the committed tables what a step of the protocol does, or nothing, and keeps what the locks promise |
| Refinement.ClaimCommitsOnOpenInvoice | invoice-service/src/handlers/payments.rs:184-233 | in every interleaving a claim that commits finds the invoice open and without a pending attempt |
| Refinement.SettlePaysByTheStateAtCommit | invoice-service/src/handlers/payments.rs:281-324 | in every interleaving what the invoice UPDATE decided is what the invoice's state at the commit decides |
| Refinement.ClaimCommitIsAtomic | invoice-service/src/handlers/payments.rs:212-233 | the commit of a claim is the one-step claim |
| Refinement.SettleCommitIsAtomic | invoice-service/src/handlers/payments.rs:281-324 | the commit of a settlement is the one-step settlement |
| Refinement.MoveCommitIsAtomic | invoice-service/src/handlers/invoices.rs:190-228 | the commit of a transition is the one-step transition |
| Refinement.DecidedExcludesMove | invoice-service/src/handlers/payments.rs:298-308 | no transition holds an invoice that an open settlement has already decided about |
| Store.Database.ClaimPaymentAttempt | invoice-service/src/handlers/payments.rs:178-234 | refused exactly for the row's reason with nothing changed, else one fresh pending attempt on an open invoice without one; a lost acknowledgement is the only error with an effect |
| Store.Database.FinalizePaymentAttempt | invoice-service/src/handlers/payments.rs:244-333 | settles the attempt iff pending with what the table of outcomes says, pays the invoice iff success and open, one outbox row per endpoint, all or nothing |
| Store.Database.SettleListed | invoice-service/src/handlers/payments.rs:279-324 | the same transaction at its commit, with the endpoints it listed before others took steps |
| Store.Database.EnqueueEvent | invoice-service/src/webhook_dispatcher.rs:40-69 | exactly one new pending row for each endpoint of the business |
| Store.Database.FinalizeKey | invoice-service/src/idempotency.rs:114-138 | the response is stored if the key exists, without a condition |
| Store.Database.Transition | invoice-service/src/handlers/invoices.rs:182-230 | each action from exactly its states to exactly its state; the error tells why, and only the state changes |
| Store.Database.Validate | invoice-service/src/handlers/invoices.rs:22-38 | the error of the validation loop |
| Store.Database.InsertLines | invoice-service/src/handlers/invoices.rs:73-90 | one line row per item with the wrapped amount, unless a CHECK refuses |
| Store.Database.CreateInvoice | invoice-service/src/handlers/invoices.rs:17-114 | invoice, lines and event in one transaction; refused by validation, customer or CHECK, in that order, with nothing changed |
| Handlers.Service.PayInvoice | invoice-service/src/handlers/payments.rs:82-122 | whatever the others do meanwhile, the code makes a run of the protocol from arrival to reply; the reply is the response stored under the key, in-progress, key-reused exactly on a hash mismatch, or a database error; it is the response that was there on arrival if there was one and the database works; a 202 only after a timeout |
| Handlers.Service.StoreAndReply | invoice-service/src/handlers/payments.rs:91-122 | what a request that proceeded replies is what it has stored, or a database error |
| Handlers.Service.TryClaimAndPay | invoice-service/src/handlers/payments.rs:125-176 | claim, fetch, spawn and wait make a run of the protocol; the result is 202 iff the wait timed out, 200 with what the row of the attempt it claimed says, a refusal of the claim, or on a working database 500 only for a task that failed |
| Handlers.Service.FetchTotalAndSpawn | invoice-service/src/handlers/payments.rs:140-146 | the spawned task is for the total just read, the claimed attempt and the request's card |
| Handlers.Service.RunTask | invoice-service/src/handlers/payments.rs:143-146 | the detached task makes a run of the protocol, on a working database it always settles its attempt, and the row and the body tell of the outcome observed |
| Handlers.Service.Finalize | invoice-service/src/handlers/payments.rs:244-333 | whatever the others do before it and between its listing of the endpoints and its commit, it makes a run of the protocol, and without database faults it succeeds |
| Handlers.Service.ReserveOrGet | invoice-service/src/idempotency.rs:42-112 | whatever the others do meanwhile: at most one INSERT, at most 15 sleeps, 14 after an INSERT; Proceed only by its own INSERT of a fresh row; a response stored or a mismatch found on arrival is answered without a sleep or an INSERT; in-progress only after all 15 rounds; each answer explained by the row |
| Handlers.Service.Round | invoice-service/src/idempotency.rs:48-105 | one round tries the INSERT only in round 0 and only if the key was free, so the break of the last round is unreachable |
| Store.Database.InsertKey | invoice-service/src/idempotency.rs:82-97 | ON CONFLICT DO NOTHING: one row if the key was free, otherwise none and no change |
| Totals.WrappingTotalIsExactIff | invoice-service/src/handlers/invoices.rs:57-61 | for validated lines the release total is the true sum if and only if that is below 2^63 |
| Totals.CheckedTotalIsExact | invoice-service/src/handlers/invoices.rs:57-61 | checked arithmetic succeeds if and only if the true sum is below 2^63, and then equals it |
| Totals.TotalModulo | invoice-service/src/handlers/invoices.rs:57-76 | the stored total is the true sum modulo 2^64 and the wrapped sum of the stored line amounts |
| Totals.OverflowStoredAsZero | migrations/0001_init.sql:41-57 | a validated invoice over 2^64 cents that every CHECK accepts and that is stored as 0 |
| Dispatcher.Outbox.SelectDue | invoice-service/src/webhook_dispatcher.rs:97-109 | at most 20 due rows that nobody holds, the earliest ones, in due order |
| Dispatcher.Outbox.SendAndRecord | invoice-service/src/webhook_dispatcher.rs:134-202 | acknowledged, the row has succeeded; else one more failure is counted and the row is due 30, 300, 1800, 7200, 43200 or 86400 s after the batch began, or given up at the seventh |
| Dispatcher.Outbox.DispatchDueBatch | invoice-service/src/webhook_dispatcher.rs:94-132 | a committed batch processes exactly the selected rows, each as it was read and as its receiver answered; a failed one changes nothing; on a working database it commits |
| Dispatchers.BatchesAreDisjoint | invoice-service/src/webhook_dispatcher.rs:97-109 | batches open at the same time never hold the same row |
| Dispatchers.CommitIsAtomic | invoice-service/src/webhook_dispatcher.rs:126-132 | the commit of a batch is the whole batch at once on the committed rows: no update is lost, although counts are computed from what was read |
| Dispatchers.CountersAreExact | invoice-service/src/webhook_dispatcher.rs:160-199 | committed sends equal attempt_count plus one if succeeded, never exceed 7, and failed_exhausted holds exactly at 7 |
| Dispatchers.CommitWrites | invoice-service/src/webhook_dispatcher.rs:160-199 | a commit leaves an acknowledged row succeeded with its count, counts one failure otherwise and makes the row due 30, 300, 1800, 7200, 43200 or 86400 s after the batch began by the failure counted, or gives it up at the seventh, and touches no row it has not sent |
| Dispatchers.BackoffIndexInRange | invoice-service/src/webhook_dispatcher.rs:184-185 | the index into the backoff table is always 0 to 5 |
| Dispatchers.FinalIsPermanent | invoice-service/src/webhook_dispatcher.rs:100-104 | a succeeded or exhausted row never changes again |
| Dispatchers.CountedSendsArePaced | invoice-service/src/webhook_dispatcher.rs:184-196 | the batch of each counted send starts no earlier than its waiting time after the batch of the one before |
| Dispatchers.SendsKeepTheSchedule | invoice-service/src/webhook_dispatcher.rs:19-20 | so the batch of the second to seventh counted send starts no earlier than creation plus 30, 330, 2130, 9330, 52530, 138930 s |
| Waits.RequestIsDue | invoice-service/src/webhook_dispatcher.rs:100-107 | every request goes out in a batch that began when the row was due: its waiting time after the last counted batch start, or its creation |
| Waits.EarliestRequest | invoice-service/src/webhook_dispatcher.rs:184-196 | for a free pending row, no continuation requests it before t if and only if t is at most the later of now and its due time, however many rows are due before it |
| Waits.WaitIsKeptIff | DESIGN.md:158-159 | the documented waiting time after a failed request is kept in every continuation if and only if that request went out at the start of its batch or the time had passed when the batch committed |
| DispatchWitness.RequestsMayBeClose | DESIGN.md:158-159 | a reachable state in which the first two requests went out at the same instant |
| Receipts.ReceivedAtMostOnce | invoice-service/src/webhook_dispatcher.rs:97-99 | a delivery reaches its receiver at most once, acknowledged or not, as long as no batch that has reached it is aborted or records the request as failed with attempts left |
| Receipts.TwiceIffReceiptLost | invoice-service/src/webhook_dispatcher.rs:145-199 | after a run that has lost no receipt, an event makes a second receipt possible, without losing another one, if and only if it loses the first: it aborts a batch that has reached the receiver, or records as failed, with attempts left, a request that has |
| Receipts.LossCanRepeat | invoice-service/src/webhook_dispatcher.rs:126-132 | from every state after such an event some run that loses no receipt has the row received once more |
| Receipts.AtMostSevenRequests | invoice-service/src/webhook_dispatcher.rs:169-199 | without aborts at most seven requests are made for a delivery, whatever the receiver answers |
| DispatchWitness.AbortMayRepeat | invoice-service/src/webhook_dispatcher.rs:97-99 | a reachable state in which one delivery was received and acknowledged twice |
| DispatchWitness.SlowReceiverGetsItAgain | invoice-service/src/webhook_dispatcher.rs:145-158 | a reachable state, without any abort, in which a receiver that gives no success status in time was reached twice |
| Claimable.CanBeRequested | invoice-service/src/webhook_dispatcher.rs:97-107 | a due and free row can be requested at once: dispatchers lock other rows away, twenty at a time, until a batch holds it |
| Progress.NoStarvation | invoice-service/src/webhook_dispatcher.rs:100-107 | in every run with one batch at a time, no abort and only later rows added, a due delivery with r others at or before it is sent by the time r/20 (rounded down) plus 1 batches have committed |
| Selections.TakenWithinSelections | invoice-service/src/webhook_dispatcher.rs:97-109 | with any number of dispatchers at once and no abort, a free pending row with r others at or before it is taken by the time r/20 (rounded down) plus 1 batches that began when it was due have selected, if rows added meanwhile are due later; its batch sends it before it ends |
| Progress.CommitPassesOver | invoice-service/src/webhook_dispatcher.rs:184-196 | a committed batch that passes a due row over leaves twenty fewer rows ahead of it |
| Progress.CommitUsesTokens | invoice-service/src/webhook_dispatcher.rs:160-199 | the sum of 7 - attempt_count over pending rows falls with each recorded send |
| Progress.SendsAreBounded | invoice-service/src/webhook_dispatcher.rs:160-199 | in every run without new events, with any number of dispatchers and aborts, N deliveries have at most 7·N sends recorded, and all are final at 7·N |
| Progress.OutboxDrains | invoice-service/src/webhook_dispatcher.rs:126-132 | in every run without new events, with one batch at a time that each wait for a due row, and no abort, N deliveries are all final once 7·N batches have committed |
| Composition.JointIsBoth | DESIGN.md:168-176 | however the protocol and the dispatchers interleave on one outbox, each reaches a state it reaches alone, and they agree on the rows and their letters |
| Composition.PayIsEnqueues | invoice-service/src/webhook_dispatcher.rs:56-67 | what a settlement or a creation adds to the outbox are enqueue events to the dispatchers |
| Composition.CommitIsDispatch | invoice-service/src/webhook_dispatcher.rs:126-132 | the commit of a batch is a dispatch step of the payment protocol |
| Composition.OneRowUpToTheLastRetry | DESIGN.md:158-176 | with both at work, each endpoint listed has exactly one row for a settled attempt and no other endpoint has any; it is sent by at most seven committed batches and given up exactly after seven failures |
| Composition.RequestsTellTheTruth | invoice-service/src/handlers/payments.rs:310-322 | whenever a request goes out, what it says of an attempt is what the tables say, and it goes to an endpoint of the business that owns the invoice |

## Left out

- HTTP routing, JSON, headers, tracing, configuration, connection pools and migrations running: plumbing around the protocol.
- The 400 answers for a missing Idempotency-Key header and an empty card token: they come before anything is touched.
- Authentication, API keys, webhook signing, SHA-256 and argon2: library calls; a request comes with its authenticated business.
- The HTTP exchange with the PSP and the mock PSP: an outcome is an arbitrary `PspOutcome`.
- Read-only list and get handlers, and the creation of businesses and customers: easy members. Customer existence is an input of `CreateInvoice`, endpoint registration a step.
- The columns that no decision reads: created_at and updated_at outside the outbox, currency, due_date, description, last_error, disabled_at (never set), and invoice_id and payment_attempt_id of a key row.
- The length of the synchronous wait and of the PSP timeout: they may end at any moment, so no bound on response times is stated.
- Isolation: `create_invoice`, the reservation, the fetch and the response write are single steps there; each writes only rows that nobody else has seen, or is one statement. A creation reads the endpoints before it commits: its step says when it listed them. Refused transitions change nothing and are not steps.
- Handlers.Service.Finalize: its UPDATEs are applied when it commits, not before the steps of others; that the row locks make this the same is what `Refinement` proves. `Store.Database.FinalizePaymentAttempt` has the statements in their order.
- Progress.NoStarvation: for runs in which batches do not overlap and all commit, and rows added meanwhile are due later; with several dispatchers at once the bound on commits does not hold, and `Selections.TakenWithinSelections` bounds selections instead; aborts free rows again and are in neither bound.
- Progress.OutboxDrains: for such runs too; `Progress.SendsAreBounded` has no such restriction.
- Race.ExactlyOnePays: the winner is answered 200 unless its wait times out before the PSP answers; how long either takes is not modelled.
