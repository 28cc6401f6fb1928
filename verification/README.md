# PACTRA verification model

A Dafny model of PACTRA's payment core and the proofs of what it promises. The centre is the
crash-tolerant payment protocol: a request commits an intent together with its instruction, leased
workers dispatch or reconcile it, webhooks race with them, and any process may die between two
commits. Around it stand the audit ledger and the replay that has to describe the same history, the
concurrent request path with its one-time authorizations, the canonical encoder on which digests,
approvals and fingerprints rest, and the offer policy.

Verify with `dafny verify dfyconfig.toml` (Dafny 4.11).

## How the model is organised

| file | holds |
|---|---|
| `Vocabulary`, `AuditEvents`, `Tables` | states and transition tables, provider answers, event payloads, the committed rows |
| `Executor`, `Reconciliation`, `Webhooks` | each handler as functions from committed rows to committed rows, one per section between two commits |
| `ExecutorProofs`, `ReconciliationProofs`, `WebhookProofs` | what every section keeps |
| `Outcomes` | what each provider answer, poll and delivery does to the rows, case by case, in the provider's vocabulary |
| `Protocol`, `ProtocolProofs`, `ProtocolTheorems`, `Settlement`, `Effort` | processes, crashes and interleavings as a transition system; invariants; theorems over whole runs |
| `Session`, `Worker` | the same handlers as they run: rows updated in place, savepoints, rollback, the worker loop |
| `Witnesses` | runs that reach the cases the theorems speak about |
| `Claims` | the conditional claim of an outbox row |
| `Requests`, `RequestProofs`, `RequestSession`, `Founding` | interleaved payment requests over shared tables, the request in place, and the founding request as the start of the protocol |
| `Ledger` | appending, first-failure verification, tampering |
| `ReplayCore`, `Replay`, `ReplayProofs`, `Reducer`, `TrustedReplay` | the fold over all 34 event types, its refinement theorem, the accumulator in place, and verify-then-replay over the hashed chain |
| `Projections`, `Legibility`, `ReplayedRuns` | what every projected field tells of the history, which histories are refused, and both over whole runs |
| `Canonical`, `CanonicalProofs`, `CanonicalForm`, `Commitments` | printer, parser, round trip, the printed form itself, and what digests and messages commit to |
| `Policy`, `PolicyPipeline`, `Sorting` | normalize, rank, evaluate; stable sorting and when order is forgotten |

The proofs lean on a few decisions:

* The row lock makes a section atomic with respect to its intent; a crash may fall anywhere,
  including between a provider create call and the commit that would have recorded it. Create calls
  and claims are counted in two fields of the system state that no handler reads.
* A provider is any answer at any time: found, not found, each error class, or an unexpected failure.
  "Fenced provider" means one whose creates are not idempotent; the flag is fixed for a run.
* Hashing is a parameter of which nothing is assumed but, for the ledger, the shape of its output.
  Commitment results say "equal, or these two preimages collide".
* Outcomes of code outside the model arrive as inputs: routing, proof verification, the rebuilt digest.
* An audit payload holds the keys replay reads; strings that name an enumeration value are told apart
  from other text. Identifiers are integers or text, instants are seconds.
* `replay.py` reads events in the order of the text of their ids; ids are integers in that order here.

A repeated request is two steps: it reads the payment state without the row lock, and appends its
event later, with anything in between. Its event may therefore report a state that is no longer the
committed one, and replay adopts it. Every run-wide guarantee covers those runs.

Where code and documentation part ways the model follows the code. Five findings are theorems, each
with a run or an input that reaches the case:

* Replay gives the persisted mission state and attempts after every run, and the persisted payment
  state exactly unless the last event that named one was a repeated request's stale report
  (`ReplayRefinesExecution`, reached in `StaleReuseHappens`). The payment's next move ends the
  disagreement (`NextMoveCatchesUp`); a payment already settled makes none.
* A refused request is documented as changing nothing, but examining one can mark its authorization
  expired: exactly under the condition `Demotes` on the request and the rows before the call
  (`LosersSpendNothing`, reached in `DemotionHappens`).
* The attempt budget binds handlers that return, not processes that die: claims are bounded by two
  budgets plus the number of deaths (`EffortPaidByDeaths`), and by nothing less (`CrashesAreNotBudgeted`).
* The conditional claim needs no assumption about clocks (`ClaimsAreExclusive`), but does need that no
  turn outlives its lease (`OutlivedLeaseBreaksClaims`).
* The canonical encoding is injective except for strings with adjacent surrogate halves (`RoundTrip`,
  `SurrogatesCollide`).

## Model

| member | source | states |
|---|---|---|
| `ProtocolTheorems.AtMostOneCreate` | services/payment_executor/executor.py:651-918 | For a fenced provider, over every interleaving, crash and re-claim, at most one create call reaches the provider and FAILED_RETRYABLE is never committed |
| `ProtocolTheorems.RunIsSafe` | services/payment_executor/worker.py:96-152 | The protocol invariant (lawful history, mission and attempts as replay has them, commit-point states, fence, live instruction) holds after every run, repeated requests that read and append separately included, and nothing write-once is ever undone |
| `ProtocolTheorems.StartIsSafe` | services/payment_executor/intents.py:282-360 | What a successful request commits satisfies the protocol invariant, replay agreement included |
| `ProtocolTheorems.RequestLedger` | services/payment_executor/intents.py:306-360 | After the three request events, replaying the ledger gives the new mission and payment state |
| `ProtocolTheorems.WrittenOnce` | services/payment_executor/executor.py:166-207 | Between any two points of a run the fence, the ambiguity mark, the provider identities and the bound columns never change once set, and provider attempts never decrease |
| `ProtocolTheorems.NoLostInstruction` | services/payment_executor/executor.py:905-918 | In every reachable committed state an unsettled intent has an outbox row that is pending, in progress or dead-lettered |
| `ProtocolTheorems.AmbiguityFreezes` | services/payment_executor/executor.py:404-475 | Once ambiguity is observed, whatever follows leaves the intent PROVIDER_PENDING with reason PROVIDER_AMBIGUITY and settles, links and creates nothing |
| `ProtocolTheorems.CommitPoint` | services/payment_executor/reconciliation.py:361-409 | CREATED and PROCESSING are never committed; a reference implies pending or terminal; an unlinked intent has no order, receipt or transaction id |
| `ProtocolTheorems.ReferenceIsOurs` | services/payment_executor/executor.py:223-254 | A reference appears only from blank, and only in a step that brought a response naming the intent's provider, amount, currency and key |
| `ProtocolTheorems.HistoryIsAPath` | services/payment_executor/state_machine.py:25-82 | Every value ever written to the state column follows the transition table and terminal states absorb |
| `Settlement.SettledOnTheProvidersWord` | services/payment_executor/executor.py:309-385 | Over every run, a step that newly makes the payment SUCCEEDED or FAILED_TERMINAL heard the provider say exactly that of a payment with the intent's provider, amount, currency, key and reference, or was a credible delivery of that kind, or (failed) a create refused for good |
| `Settlement.FirstAnswer` | services/payment_executor/executor.py:882-918 | Over every run, the answer to the first create: CREATED and PENDING leave the payment PROVIDER_PENDING with a new reconcile row; SUCCEEDED and FAILED settle it with its mission and close the row; an answer about another payment links nothing and is polled on |
| `Settlement.ForeignPaymentIsNotAdopted` | services/payment_executor/reconciliation.py:361-409 | Over every run, a reconciliation that finds a payment differing in provider, amount, currency, key or held reference leaves state, mission, attempts and every provider column as they were |
| `Settlement.MissionFollowsPayment` | services/payment_executor/executor.py:106-121 | Over every run the mission is PAYMENT_SUCCEEDED, PAYMENT_FAILED or PAYMENT_PENDING exactly as the payment succeeded, failed or neither |
| `Settlement.StepIsJust` | services/payment_executor/executor.py:309-385 | Every single step changes state, reference and mission only as the provider's word it brought allows |
| `ProtocolProofs.StepIsSafe` | services/payment_executor/executor.py:673-918 | Every single step of the system keeps the invariant and owes its starting state: growth, freezing, justified links, no create while ambiguous; and every step but a repeated request's append moves the payment state only together with an event that names the new one |
| `ProtocolProofs.ReuseSafe` | services/payment_executor/intents.py:163-178 | A repeated request that appends a state it read earlier, current or not, keeps the invariant |
| `ProtocolProofs.RefusedSafe` | services/security_kernel/authorization.py:806-876 | The security events of a refused request keep the invariant and move nothing replay compares |
| `ProtocolTheorems.AgreesUnlessLagging` | services/payment_executor/intents.py:235-279 | Over every run the small replay fold agrees with the rows on mission and attempts, and on the payment state if and only if the last event that named one was not a stale repeated request |
| `ProtocolTheorems.NextMoveCatchesUp` | services/payment_executor/executor.py:124-163 | From every reachable state, a step that changes the committed payment state leaves replay in agreement, whatever was reported before |
| `Witnesses.StaleReuseHappens` | services/payment_executor/intents.py:163-178 | A run in which the request reads QUEUED, the payment succeeds, and replay then says QUEUED of a SUCCEEDED payment |
| `Witnesses.OneCreateHappens` | services/payment_executor/executor.py:651-918 | A run in which the one create of a fenced provider happens and the payment succeeds |
| `Witnesses.AmbiguityHappens` | services/payment_executor/executor.py:404-475 | A run in which an ambiguity is observed |
| `ProtocolProofs.FenceSafe` | services/payment_executor/executor.py:651-748 | Committing the fence keeps the create permission spent at most once and held by at most one process |
| `ProtocolProofs.DieSafe` | services/payment_executor/worker.py:132-152 | A process that dies, before or after its provider call, leaves the invariant intact |
| `Effort.BoundedEffort` | services/payment_executor/outbox.py:232-262 | For a fenced provider with no crash and no outlived lease one payment causes at most twice the attempt budget of claims and at most two outbox rows |
| `Effort.EffortPaidByDeaths` | services/payment_executor/outbox.py:98-262 | For a fenced provider with no outlived lease, claims are at most twice the attempt budget plus the number of processes that died holding a row, and there are at most two rows |
| `Effort.CrashesAreNotBudgeted` | services/payment_executor/outbox.py:128-132 | For every n there is a run with no outlived lease, n deaths and n claims, so the deaths cannot be left out of the bound |
| `ExecutorProofs.DispatchBeginAdvances` | services/payment_executor/executor.py:673-735 | Every ending of the first dispatch section commits sound rows and retires its instruction by closing it or delegating to a reconcile row |
| `ExecutorProofs.DispatchIdempotentAdvances` | services/payment_executor/executor.py:750-918 | The same for the whole dispatch of an idempotent provider, retries and dead-lettering included |
| `ExecutorProofs.DispatchFencedAdvances` | services/payment_executor/executor.py:737-843 | The section behind the fence creates only for the winner on a QUEUED row, and every ending is sound |
| `ExecutorProofs.RecoverFencedAdvances` | services/payment_executor/executor.py:598-648 | The search-only path of a fenced intent never creates and never loses the instruction |
| `ExecutorProofs.FinishExistingAdvances` | services/payment_executor/executor.py:511-595 | Adopting a payment found before create is sound, validated and delegated while pending |
| `ExecutorProofs.MarkUncertainSound` | services/payment_executor/executor.py:388-468 | Uncertainty keeps replay in step, remembers ambiguity monotonically and enqueues a reconcile row |
| `ExecutorProofs.ApplySound` | services/payment_executor/executor.py:309-385 | Folding a provider answer keeps every invariant and writes provider identities at most once |
| `ExecutorProofs.RecordAttemptSound` | services/payment_executor/executor.py:478-508 | An attempt is counted exactly when its event is written, from QUEUED only |
| `Outcomes.CreateTable` | services/payment_executor/executor.py:750-918 | The committed state, reason, reference, mission, attempts and outbox rows for every lookup and every create answer, from a row nothing is known about |
| `Outcomes.CreateAnsweredTable` | services/payment_executor/executor.py:882-918 | A create that answered: folded in by its status if it names this intent, otherwise uncertain with nothing linked |
| `Outcomes.CreateRefusedTable` | services/payment_executor/executor.py:800-880 | A create that raised: pending after a timeout, failed for good after a terminal error, pending or retryable after the others as creates are idempotent or not |
| `Outcomes.FinishTable` | services/payment_executor/executor.py:511-595 | A payment found before create is adopted by its status exactly if it is ours, keyed and consistent; otherwise the intent is uncertain and, if it is not ours, nothing is linked |
| `Outcomes.RecoverTable` | services/payment_executor/executor.py:598-648 | Every ending of the search behind the fence, and none creates |
| `Outcomes.DispatchTable` | services/payment_executor/executor.py:673-735 | Which ending or section a create instruction leads to, by adapter, state, fence and authorization |
| `Outcomes.FencedTable` | services/payment_executor/executor.py:737-748 | Behind the fence commit only the winner on a row still QUEUED goes on to create |
| `Outcomes.FoldTable` | services/payment_executor/executor.py:309-385 | An answer is folded in by its status exactly if it is ours and consistent; anything else leaves the row, and what is not ours every column |
| `Outcomes.FoldRecords` | services/payment_executor/executor.py:166-207 | What an accepted answer leaves in the order, receipt, transaction and status columns |
| `Outcomes.LinkTable` | services/payment_executor/executor.py:166-207 | Linking succeeds exactly when nothing held is contradicted |
| `Outcomes.MatchesTable` | services/payment_executor/executor.py:223-254 | A response passes validation and names the held reference exactly if provider, amount, currency and key are this intent's |
| `Outcomes.UncertainTable` | services/payment_executor/executor.py:388-468 | An uncertain ending: pending, the observed reason unless an ambiguity outweighs it, a reconcile row in place of the create row |
| `Outcomes.MarkEvents` | services/payment_executor/executor.py:388-468 | Uncertainty is narrated once, after the timeout that caused it if one did |
| `Outcomes.AttemptTable` | services/payment_executor/executor.py:478-508 | An attempt moves QUEUED and FAILED_RETRYABLE to PROCESSING, clears the reason and counts; from other states nothing |
| `Outcomes.CreateRetryEvents` | services/payment_executor/executor.py:921-942 | A retryable create failure is recorded, then whether it will be retried or was dead-lettered |
| `Outcomes.PaymentMovesTable` | services/payment_executor/state_machine.py:25-61 | The permitted payment moves are these sixteen, and exactly the terminal states have none |
| `Tables.SettledSound` | services/payment_executor/executor.py:124-163 | A transition's event replays as the transition itself: state, mission move and attempts |
| `Tables.LinkSound` | services/payment_executor/executor.py:166-207 | Linking is write-once per column and cannot fail on an intent with no reference |
| `Vocabulary.BackoffFor` | services/payment_executor/outbox.py:62-65 | The delay is never zero and never above the last step |
| `Outcomes.RescheduleTable` | services/payment_executor/outbox.py:232-262 | A rescheduled row is dead-lettered exactly when its budget is spent and otherwise waits 1, 1, 2, 5, 15, 30, 60, 120 or 300 seconds by its claims; nothing else changes |
| `Outcomes.BackoffTable` | services/payment_executor/outbox.py:57-65 | The delay after each number of claims, never decreasing |
| `Outcomes.EnqueueTable` | services/payment_executor/outbox.py:68-95 | A new instruction is pending at once, unclaimed, with a budget of eight |
| `ReconciliationProofs.ReconcileSectionAdvances` | services/payment_executor/reconciliation.py:128-435 | Every ending of a reconciliation poll is sound and closes, defers or (idempotent providers only) delegates its row |
| `ReconciliationProofs.ReconcileBeginAdvances` | services/payment_executor/reconciliation.py:67-126 | The section up to the fence commit is sound, and an unfenced non-idempotent intent is fenced before it is polled |
| `ReconciliationProofs.ReconcileFencedAdvances` | services/payment_executor/reconciliation.py:97-435 | Polling behind the sealed fence never reopens the create |
| `ReconciliationProofs.FoldedAdvances` | services/payment_executor/reconciliation.py:361-435 | After the attempt is recorded the link cannot fail, so PROCESSING is never committed |
| `ReconciliationProofs.ResolveNoneAdvances` | services/payment_executor/reconciliation.py:438-500 | Reopening a create happens only for an idempotent provider and enqueues its create row in the same commit |
| `ReconciliationProofs.StillAmbiguousAdvances` | services/payment_executor/reconciliation.py:188-239 | A later empty or single answer never erases an observed ambiguity |
| `Outcomes.FoundTable` | services/payment_executor/reconciliation.py:361-435 | A found payment is folded in by its status exactly if it is ours and consistent, and polled on while open; otherwise state, reason, mission and attempts stay and the row is put off |
| `Outcomes.UnansweredPollTable` | services/payment_executor/reconciliation.py:127-186 | A poll that failed changes only what an ambiguity changes, and the row is put off |
| `Outcomes.NotFoundTable` | services/payment_executor/reconciliation.py:241-359 | A poll that finds nothing: unchanged if linked, uncertain if fenced, otherwise back to a create with its instruction |
| `Outcomes.ReconcileTable` | services/payment_executor/reconciliation.py:67-126 | Which ending or poll a reconcile instruction leads to, by adapter, state, authorization and fence |
| `Outcomes.RetryEvents` | services/payment_executor/reconciliation.py:127-186 | A poll put off says whether it will be tried again or was dead-lettered, and why |
| `Outcomes.PollEvents` | services/payment_executor/reconciliation.py:410-435 | An adopted payment is narrated last, with the state it left and its reference |
| `WebhookProofs.HandleWebhookAdvances` | services/payment_executor/webhooks.py:107-392 | A delivery keeps every invariant, leaves the outbox alone and stores exactly its own event id |
| `WebhookProofs.EvidenceKept` | services/payment_executor/webhooks.py:395-409 | Stored evidence never rewrites an identity and provider attempts never decrease |
| `WebhookProofs.AcceptedIffCredible` | services/payment_executor/webhooks.py:138-177 | A delivery is accepted if and only if provider and reference are the intent's, its amount and currency are absent or equal, its order contradicts none held and a success contradicts no held transaction id; any other leaves every row and the ledger |
| `Outcomes.DeliveryTable` | services/payment_executor/webhooks.py:239-392 | The state, reason, mission and stored verdict after a credible new delivery, for each kind and each reachable state |
| `Outcomes.DeliveryRecords` | services/payment_executor/webhooks.py:395-409 | What a delivery leaves in the order, transaction, status and attempt columns |
| `Outcomes.DeliveryEvents` | services/payment_executor/webhooks.py:191-392 | Which events a delivery writes: only a note for a repetition; otherwise verified first, then held, ignored or applied |
| `WebhookProofs.DuplicateChangesNothing` | services/payment_executor/webhooks.py:191-215 | A delivery whose event id is stored changes no row but the ledger |
| `WebhookProofs.DuplicatesAreInert` | services/payment_executor/webhooks.py:145-215 | Any delivery sequence and the same sequence without its duplicates end in the same rows |
| `WebhookProofs.FirstVerdictWins` | services/payment_executor/webhooks.py:239-392 | Conflicting deliveries in any order cause exactly one terminal transition, to SUCCEEDED or FAILED_TERMINAL as the first credible new success or failure says |
| `Session.Rows.DispatchCreate` | services/payment_executor/executor.py:673-735 | In place: leaves the rows exactly as the first dispatch section specifies, or stops in front of the fence with nothing changed |
| `Session.Rows.AcquireProviderCreateFence` | services/payment_executor/executor.py:651-670 | In place: the one-way compare-and-set, won only on a QUEUED unfenced row |
| `Session.Rows.DispatchAfterFence` | services/payment_executor/executor.py:737-918 | In place: the section behind the fence, with the number of create calls it made |
| `Session.Rows.LookupAndCreate` | services/payment_executor/executor.py:750-918 | In place: look first, create only on a clean not-found, then fold the answer |
| `Session.Rows.FinishExistingBeforeCreate` | services/payment_executor/executor.py:511-595 | In place: adopt or refuse a payment found before create |
| `Session.Rows.RecoverFencedCreate` | services/payment_executor/executor.py:598-648 | In place: search only, never create |
| `Session.Rows.MarkUncertain` | services/payment_executor/executor.py:388-468 | In place: timeout event, remembered ambiguity, uncertain transition or repeat, reconcile row |
| `Session.Rows.ApplyProviderPayment` | services/payment_executor/executor.py:309-385 | In place: validate, link column by column, move if there is a move to make |
| `Session.Rows.LinkProviderPayment` | services/payment_executor/executor.py:166-207 | In place: the columns assigned before a refusal stay assigned, exactly as specified |
| `Session.Rows.RecordPaymentAttempt` | services/payment_executor/executor.py:478-508 | In place: requeue, move to PROCESSING, count |
| `Session.Rows.RescheduleEvent` | services/payment_executor/outbox.py:232-262 | In place: back to the queue with backoff, or dead-lettered once the budget is spent |
| `Session.Rows.ReconcileIntent` | services/payment_executor/reconciliation.py:67-126 | In place: the first reconciliation section up to the fence |
| `Session.Rows.PollProvider` | services/payment_executor/reconciliation.py:128-435 | In place: every branch of the poll, as its specification says |
| `Session.Rows.ResolveNoProviderPayment` | services/payment_executor/reconciliation.py:438-500 | In place: reopen the create together with its instruction |
| `Session.Rows.HandleDelivery` | services/payment_executor/webhooks.py:145-392 | In place: resolve, deduplicate, apply; a rejected delivery leaves no trace |
| `Session.Rows.ProcessClaimedEvent` | services/payment_executor/worker.py:60-152 | In place: run the first section of a claimed row; if it raises, roll back its work and reschedule the row |
| `Session.Rows.ProcessFencedEvent` | services/payment_executor/worker.py:132-152 | In place: the section behind the fence with the same recovery |
| `Worker.FindDue` | services/payment_executor/outbox.py:128-195 | Finds the due row first by schedule and then by creation, or proves that none is due |
| `Worker.ClaimTable` | services/payment_executor/outbox.py:98-168 | A claim succeeds exactly on a pending or in-progress row whose moment has come; it counts the attempt, signs the row and hides it for the lease |
| `Worker.ClaimNextEvent` | services/payment_executor/outbox.py:98-168 | In place: exactly that row becomes in progress under the worker's lease, with its attempt counted |
| `Worker.RunOnce` | services/payment_executor/worker.py:96-152 | In place: an uninterrupted turn ends where a run of the protocol ends, with the same create calls, and does nothing exactly when nothing is due |
| `Worker.Drain` | services/payment_executor/worker.py:155-174 | In place: the loop is a run of the protocol, and stops early only when nothing is due or a handler raised |
| `Claims.ClaimsAreExclusive` | services/payment_executor/outbox.py:171-215 | In every history of a row in which no turn outlives its lease, two claims that observed the same status and schedule never both succeed |
| `Claims.OutlivedLeaseBreaksClaims` | services/payment_executor/outbox.py:171-262 | A concrete history under a clock that never goes back in which an outlived turn lets two claims with the same observation both win |
| `Claims.Row.ClaimConditional` | services/payment_executor/outbox.py:197-215 | In place: claims exactly when the row still shows both observed values, else changes nothing |
| `RequestProofs.OnePaymentPerKey` | services/payment_executor/intents.py:282-386 | Under every interleaving no two intents share an idempotency key or an authorization, and each has its create instruction exactly once |
| `RequestProofs.SpentIffPaid` | services/security_kernel/authorization.py:652-708 | An authorization is CONSUMED if and only if a committed intent names it, and then exactly one does |
| `RequestProofs.SameKeySamePayment` | services/payment_executor/intents.py:150-197 | Requests that succeed under one key were given the same payment, only one founded it, and they are the same request or their fingerprints collide |
| `RequestProofs.LosersSpendNothing` | services/payment_executor/intents.py:235-386 | A retried, conflicting, losing or refused request leaves intents, outbox and missions unchanged; entering the savepoint and losing changes no authorization; examining one changes an authorization if and only if the caller commits, the request reaches the status check, is no retry of its own payment, and presents a pending or active authorization past its expiry |
| `RequestProofs.CheckDemotes` | services/security_kernel/authorization.py:597-621 | Under that condition on the inputs the check refuses for expiry and marks exactly that authorization expired; otherwise it changes none |
| `RequestProofs.DemotionHappens` | services/security_kernel/authorization.py:616-621 | A run in which a committed refusal takes an authorization from ACTIVE to EXPIRED |
| `RequestProofs.ClassifyIsBound` | services/security_kernel/authorization.py:846-862 | The binding-failure branch of the classification is not reached from a payment request: the request presents the digest of its own row, which is never rewritten |
| `RequestProofs.FoundersCommitAll` | services/payment_executor/intents.py:281-360 | A founding request spends an active, unexpired authorization and commits an intent that copies its terms, its instruction and the mission move, all at once |
| `RequestProofs.PaidOnlyIfApproved` | services/security_kernel/authorization.py:581-649 | Over every interleaving, a request that founded or was handed a payment was examined with a binding that rebuilt and an approval proof that verified |
| `RequestProofs.FreshRequestExamined` | services/security_kernel/authorization.py:581-649 | A new request under a fresh active authorization goes on exactly if binding and proof both verify, and is refused in the name of the first that does not |
| `RequestProofs.ExamineTable` | services/payment_executor/intents.py:225-279 | The examination case by case: mission, binding, status, expiry, proof, then the intent the key already names |
| `RequestProofs.EnterTable` | services/payment_executor/intents.py:281-386 | The savepoint case by case: the key, the authorization's one use, and its state now |
| `RequestProofs.RunSafe` | services/payment_executor/intents.py:200-386 | The tables' invariant survives every interleaving of requests with issue, activation, revocation and expiry |
| `RequestSession.PaymentRows.CreatePaymentIntent` | services/payment_executor/intents.py:200-386 | In place: one whole request, as the step functions specify |
| `RequestSession.PaymentRows.EnterSavepoint` | services/payment_executor/intents.py:281-386 | In place: insert, consume, narrate, enqueue, move; a refusal restores every row of the savepoint |
| `RequestSession.PaymentRows.InsertIntent` | apps/api/db/models.py:267-275 | In place: refused exactly when the key or the authorization is taken |
| `RequestSession.PaymentRows.ConsumeAuthorization` | services/security_kernel/authorization.py:666-691 | In place: the conditional update that spends an authorization once |
| `RequestSession.PaymentRows.ClassifyRefusal` | services/security_kernel/authorization.py:806-876 | In place: replay, then a transaction other than the approved one, then expiry with demotion, then wrong status |
| `RequestSession.PaymentRows.VerifyForPayment` | services/security_kernel/authorization.py:581-649 | In place: binding, status, expiry and proof in that order |
| `RequestSession.PaymentRows.ExpireIfStale` | services/security_kernel/authorization.py:758-800 | In place: demotes exactly a stale pending or active authorization |
| `RequestSession.PaymentRows.ResolveHeld` | services/payment_executor/intents.py:150-197 | In place: reuse on an equal fingerprint, conflict otherwise |
| `RequestSession.UninterruptedIsARun` | services/payment_executor/intents.py:200-386 | A request that runs alone is one of the interleavings |
| `Founding.FoundingIsStart` | services/payment_executor/intents.py:281-360 | What a founding request commits to the shared tables is what the protocol starts from: mission state, one create row, and the same three events in order |
| `Founding.FoundedIsCreatedOnce` | services/payment_executor/executor.py:651-918 | Whatever follows a founding request, a fenced provider is asked to create its payment at most once |
| `Ledger.Chain.AppendEvent` | services/audit_ledger/ledger.py:31-74 | In place: appends one row with the next sequence, linked to the previous hash or to genesis |
| `Ledger.BuiltChainsVerify` | services/audit_ledger/ledger.py:31-74 | Every chain the appender builds is a chain, and valid is its verdict |
| `Ledger.VerifyEvents` | services/audit_ledger/verify.py:162-259 | The verdict on the sorted stream: valid exactly for a chain, else everything before the reported position is a chain and the reported failure is real |
| `Ledger.FailurePosition` | services/audit_ledger/verify.py:186-259 | A failure is reported at the first event that is not linked, and nowhere else |
| `Ledger.ReportTable` | services/audit_ledger/verify.py:97-259 | Which code a failure carries, by shape, place, link and content in that order, and what it reports as expected and actual |
| `Ledger.BuildRecords` | services/audit_ledger/ledger.py:31-74 | Each row of a built chain holds what was asked to be recorded, its place, and the hash of the row before or sixty-four zeros |
| `Ledger.VerdictIsUnique` | services/audit_ledger/verify.py:162-259 | A stream has one verdict only |
| `Ledger.VerdictForgetsOrder` | services/audit_ledger/verify.py:167-173 | With distinct event ids the verdict does not depend on the retrieval order |
| `Ledger.PrefixesChain` | services/audit_ledger/verify.py:186-259 | Every prefix of a chain is a chain, so tail truncation is invisible |
| `Ledger.HeadCommitsToHistory` | services/audit_ledger/hashing.py:73-122 | Two chains of one length with the same head hash agree on every hashed field of every event, or exhibit a collision at some position |
| `Ledger.HeadCommitsToLength` | services/audit_ledger/hashing.py:73-122 | Chains of different lengths share a head hash only by a collision of their heads |
| `Ledger.RewriteIsLocated` | services/audit_ledger/verify.py:186-259 | Rewriting a non-last event fails at that position or the next, unless the new content collides with the old |
| `Ledger.DeletionIsLocated` | services/audit_ledger/verify.py:191-199 | Deleting a non-last event gives a sequence gap exactly there |
| `ReplayProofs.ReplayRefinesExecution` | services/audit_ledger/replay.py:983-1022 | After any run of the protocol, reducing the ledger succeeds and gives exactly the persisted mission state and attempt count, and the persisted payment state if and only if the last event that named one was not a stale repeated request |
| `ReplayProofs.FoldHasCore` | services/audit_ledger/replay.py:289-343 | The full reducer's mission, payment state and attempts are those of the small fold the protocol invariant speaks about |
| `ReplayProofs.WrittenIsApplied` | services/audit_ledger/replay.py:536-636 | Replay never refuses an event the executor wrote |
| `ReplayProofs.TimelyReplayIsExact` | services/audit_ledger/replay.py:983-1022 | When every repeated request that appends reports the committed state, replay is exactly the persisted mission, payment state and attempts |
| `TrustedReplay.ReplayMission` | services/audit_ledger/replay.py:1090-1147 | Verify, then reduce: no projection from rows that do not verify, the refusal if the history is refused, otherwise the projection |
| `TrustedReplay.ReportIsUnique` | services/audit_ledger/replay.py:1090-1147 | The rows determine the report |
| `TrustedReplay.RecordedHolds` | services/audit_ledger/ledger.py:31-74 | The chain appended for a ledger of events holds exactly those events |
| `TrustedReplay.TrustedReplayIsExact` | services/audit_ledger/replay.py:1028-1147 | After any run of the protocol its hashed chain verifies at every length, and the gated replay gives the persisted mission and attempts, and the payment state exactly unless a stale repeated request was the last to name one |
| `ReplayProofs.ReduceForgetsOrder` | services/audit_ledger/replay.py:991-996 | With distinct event ids every retrieval order gives the same projection or the same refusal |
| `ReplayProofs.ReduceIgnoresAdvice` | services/audit_ledger/replay.py:639-680 | Erasing every readable advisory event changes only the advice list and the event count, never a refusal |
| `Reducer.ReduceEvents` | services/audit_ledger/replay.py:983-1022 | The loop over the sorted events computes the fold, refusals included |
| `Reducer.ReplayState.Apply` | services/audit_ledger/replay.py:959-980 | In place: one event folded into the accumulator, or the refusal of the whole replay with its code |
| `Reducer.ReplayState.AdvanceMission` | services/audit_ledger/replay.py:289-318 | In place: moves when the live guard would, otherwise records the skipped transition |
| `Reducer.ReplayState.AdoptPaymentFields` | services/audit_ledger/replay.py:321-370 | In place: adopts identifiers by truth, the reason by presence, the state on transition events only |
| `Reducer.ReplayState.RecordSecurity` | services/audit_ledger/replay.py:373-382 | In place: appends one record with the allow-listed detail |
| `Reducer.HandleRefusesMalformed` | services/audit_ledger/replay.py:234-283 | A handler refuses in one way only: malformed, at the event's own sequence |
| `Reducer.RefusalSticks` | services/audit_ledger/replay.py:994-996 | A refusal of any prefix refuses the whole history with the same words |
| `Projections.FoldTells` | services/audit_ledger/replay.py:388-680 | Of every accepted history the projection says, field by field: what the last event that recorded the field recorded, how many events of each kind there were, the mission's path and refused moves, and one record per security and advisory event |
| `Projections.ReduceTells` | services/audit_ledger/replay.py:983-1022 | The same of rows in any retrieval order |
| `Projections.PaymentStep` | services/audit_ledger/replay.py:346-370 | One event: each payment field takes what the event recorded or stays, and its counter grows by one |
| `Projections.AuthorizationStep` | services/audit_ledger/replay.py:471-533 | One event: each authorization field, the status included, takes what the event recorded or stays |
| `Projections.AdmissionStep` | services/audit_ledger/replay.py:388-461 | One event: each admission field takes what the event recorded or stays |
| `Projections.MovesTable` | services/agent_orchestrator/state_machine.py:14-31 | The permitted mission moves are these twenty-four |
| `Projections.TargetTable` | services/audit_ledger/replay.py:388-594 | The mission state each event type asks for |
| `Legibility.AppliesIffLegible` | services/audit_ledger/replay.py:234-283 | An event is accepted if and only if its type is declared, its payload an object and each field it must read of its shape; otherwise the refusal has its code and sequence |
| `Legibility.FoldsIffLegible` | services/audit_ledger/replay.py:959-996 | A history is refused exactly for its first unreadable event, in that event's name |
| `Legibility.ReducesIffLegible` | services/audit_ledger/replay.py:983-996 | The same of rows in any retrieval order |
| `ReplayedRuns.RunTells` | services/audit_ledger/replay.py:983-1022 | After every run of the protocol every projected field tells the whole ledger |
| `ReplayedRuns.ReplayedAuthorizationIsSpent` | services/audit_ledger/replay.py:505-528 | After every run the replayed authorization is CONSUMED, exactly unless an expiry was the last to name a status since the request |
| `ReplayedRuns.ReplayedPaymentIsTheRequested` | services/audit_ledger/replay.py:346-370 | After every run the replayed payment carries the intent's id, provider, key, currency and amount; a blank one is not adopted |
| `CanonicalProofs.RoundTrip` | packages/schemas/canonical.py:102-109 | The parser recovers domain and every typed field from a message if and only if no string holds adjacent surrogate halves |
| `CanonicalProofs.MessageParses` | packages/schemas/canonical.py:85-109 | What the parser makes of any message at all, surrogates included |
| `CanonicalProofs.MessagesAreDistinct` | packages/schemas/canonical.py:102-109 | Different domains or different mappings give different bytes |
| `CanonicalProofs.DomainsSeparate` | packages/schemas/canonical.py:102-109 | Messages of different domains differ whatever their fields hold |
| `CanonicalProofs.BodyHasNoSeparator` | packages/schemas/canonical.py:85-99 | The body is printable ASCII and never holds the separator byte |
| `CanonicalProofs.OrderDoesNotMatter` | packages/schemas/canonical.py:88-99 | The bytes do not depend on the mapping's insertion order |
| `CanonicalProofs.MessageFailsIff` | packages/schemas/canonical.py:62-109 | A message is built exactly for a non-empty ASCII domain and supported values |
| `CanonicalProofs.QuotedAlikeIff` | packages/schemas/canonical.py:93-99 | Two strings are printed alike if and only if they spell the same text after joining surrogate pairs |
| `CanonicalProofs.SurrogatesCollide` | packages/schemas/canonical.py:93-99 | The two halves of a pair and the code point they spell are printed alike |
| `CanonicalProofs.StringReads` | packages/schemas/canonical.py:93-99 | Escaping as in section 7 of RFC 8259 is undone by reading, for every string and every continuation |
| `CanonicalProofs.ContentReads` | packages/schemas/canonical.py:62-75 | Under its tag every value reads back as itself |
| `CanonicalProofs.StampReads` | packages/schemas/canonical.py:52-59 | A timestamp's text determines the instant |
| `CanonicalForm.NamesAscend` | packages/schemas/canonical.py:85-99 | The printed names are the mapping's, each once, ascending by code point |
| `CanonicalForm.EscapeTable` | packages/schemas/canonical.py:93-99 | How each code point is written: seven letters, printable ASCII as itself, the rest as four lower-case hexadecimal digits, beyond the basic plane as two halves |
| `CanonicalForm.EscapeJoins` | packages/schemas/canonical.py:93-99 | Strings are escaped code point by code point |
| `CanonicalForm.TaggedTable` | packages/schemas/canonical.py:62-75 | The tag and the text of each kind of value |
| `CanonicalForm.MemberTable` | packages/schemas/canonical.py:93-99 | A member is its quoted name, a colon and its tagged value, without white space |
| `CanonicalForm.ObjectTable` | packages/schemas/canonical.py:93-99 | Members stand between commas and braces, without white space |
| `CanonicalForm.DecimalTable` | packages/schemas/canonical.py:93-99 | Integers have no leading zeros and a sign only if negative |
| `CanonicalForm.StampTable` | packages/schemas/canonical.py:48-59 | Twenty-seven characters with their separators in place |
| `CanonicalForm.TransactionLayout` | packages/schemas/transaction.py:114-120 | The bytes a digest hashes: domain, separator and the nine named fields in order |
| `CanonicalForm.ApprovalLayout` | packages/schemas/approval.py:45-75 | The bytes an approver signs: domain, separator and the five named fields in order |
| `CanonicalForm.RequestLayout` | packages/schemas/payment.py:240-269 | The bytes a fingerprint hashes: domain, separator and the seven named fields in order |
| `Commitments.DigestCommits` | packages/schemas/transaction.py:114-120 | A transaction digest commits to all nine bound fields, up to a collision of its preimages |
| `Commitments.ApprovalCommits` | packages/schemas/approval.py:45-75 | Equal approval messages mean equal approvals in all five fields |
| `Commitments.ApprovalBuiltIff` | packages/schemas/approval.py:54-62 | A message is built exactly for a 64-digit lower-case hexadecimal digest and non-empty version and key |
| `Commitments.FingerprintCommits` | packages/schemas/payment.py:240-269 | Equal request fingerprints mean equal requests in all seven fields, up to a collision |
| `Commitments.PurposesNeverMeet` | packages/schemas/canonical.py:102-109 | No digest preimage, approval message or fingerprint preimage is one of another purpose |
| `Policy.DecisionIsRight` | services/policy_engine/engine.py:29-78 | A decision other than DENY selects an acceptable offer no other acceptable offer beats, within the hard limit; DENY and ALLOW hold exactly under their conditions |
| `Policy.DecisionDependsOnAcceptable` | services/policy_engine/ranking.py:27-37 | Outcome, reasons and amount depend only on which acceptable offers were quoted |
| `Policy.DecisionForgetsOrder` | services/policy_engine/normalization.py:66-73 | Permuting the quotes changes neither outcome, reasons nor amount |
| `Policy.BestIsBest` | services/policy_engine/ranking.py:17-37 | The best offer is acceptable and minimal under the ranking key; there is none exactly when nothing is acceptable |
| `Policy.KeyLeIsTotal` | services/policy_engine/ranking.py:17-24 | The ranking key orders all offers totally and transitively |
| `Policy.RejectionsIff` | services/policy_engine/normalization.py:32-63 | An offer has no rejection reasons if and only if it meets every constraint |
| `Policy.DecisionFollowsPreference` | services/policy_engine/engine.py:29-78 | A decision is about an acceptable quoted offer to which no other is preferred, and says where its price falls; with nothing acceptable it is DENY for want of offers |
| `Policy.RankedByPreference` | services/policy_engine/ranking.py:17-32 | The ranking holds the acceptable offers, none after one it is preferred to: higher rating, lower price, higher trust, then merchant and product in string order |
| `Policy.KeyLeIsPreference` | services/policy_engine/ranking.py:17-24 | The ranking key is that preference |
| `Policy.RejectionsTable` | services/policy_engine/normalization.py:32-63 | Each reason is given exactly when its own constraint is broken, once, in the order of checking |
| `PolicyPipeline.NormalizeOffer` | services/policy_engine/normalization.py:32-63 | A new offer that carries exactly the reasons it earned |
| `PolicyPipeline.NormalizeOffers` | services/policy_engine/normalization.py:66-73 | Every quoted offer once, each judged under the identity that quoted it |
| `PolicyPipeline.RankOffers` | services/policy_engine/ranking.py:27-32 | In place: valid offers ranked from one in key order, the others untouched |
| `PolicyPipeline.DecideMission` | services/policy_engine/ranking.py:27-37 | The loops together compute the decision |

## Left out

- HTTP routes, database sessions and drivers, capability checks, provider adapters, the web console and scripts: I/O around the modelled code.
- SHA-256, Ed25519 and HMAC: hashing is a parameter, and verification outcomes are inputs.
- The unique keys on provider references across intents (apps/api/db/models.py:271-275): the protocol model holds one mission with one intent, so a link that collides with another intent is only a handler that raises.
- Free-text columns, processing timestamps and response objects: nothing reads them back.
- Replayed `last_reason_code` and `provider_payment_id` are told from the events (`FoldTells`) but not compared with the intent row: narration events may carry values the row never adopts.
- Progress of idempotent-create providers: their create and reconcile rows may alternate for as long as the provider's answers do.
- The text of audit hash preimages (services/audit_ledger/hashing.py:57-70): the body record is hashed as a whole.
- Calendar arithmetic and years before 1000 in timestamps; an instant is its UTC calendar fields.
- Rounding of quoted prices and binary floating point: amounts are integers and ratings are reals.
- Issuing and approving authorizations beyond their status changes, decision traces, risk engine, merchant adapters, attack lab and metrics: they would add only easier members.
