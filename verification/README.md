# A model of the payment engine's settlement, ledger and treasury cores

The engine takes a crypto deposit and pays out fiat. This project models the parts of it in which money can be lost or
paid twice, and proves what they keep.

- **The settlement protocol over the double-entry ledger.** `Settlement` states what each entry point does to one
  session's rows (worker, callbacks, ops retry, payment by hand, timeout sweep, reversal resolution), together with the
  transactions that the ledger has accepted under the session's keys and a marker for where the bank has the money,
  which no code reads. `SettlementInvariant` and `SettlementSteps` prove the invariant that every entry point keeps;
  `SettlementRuns`, `SettlementPolicy`, `SettlementRetries` and `SettlementProgress` draw the consequences over whole
  runs; `SettlementEdges` shows where the books part from the money. `HandOff` ties the protocol to the session machine:
  the rows it starts from, and the moves it makes of a session. `SettlementStore` is the same protocol as methods
  over the rows of all sessions and one shared `LedgerStore`, each proved equal to its specification. `Hyparrow` shows
  that the Hyparrow adapter gives the rejections that the protocol relies on. `DispatchOutcomes`, `OpsOutcomes` and
  `Callbacks` say row by row what each answer, each decision of ops and each callback event leaves;
  `Destinations` says where payouts go, and `QuotePayout` what a quoted deposit pays.
- **The same protocol, statement by statement.** In `Interleaving` any number of processes run the entry points at once,
  every database statement is a step of its own, and a process may die between any two. Claims, calls and reversals
  keep their at-most-once properties there. That one attempt at most is open does not hold of every interleaving:
  `InterleavingSerial` proves it for processes that come one after the other, dying where they may, under informed
  confirmations, and `InterleavingEdges` shows that neither condition can be dropped. `InterleavingStatus` says which
  statements change the status, from where, and which moves page ops. `CrashInvariant` and `CrashRecovery` say what a
  crash costs: which rows no later run moves, for which no provider is called again, and which can never be paid.
  `InterleavingMoves` holds the stretches of statements that the runs are made of. `StatementRuns` proves that the two
  models agree: every run of whole steps is a run of statements.
- **Deposits, outbox and sessions.** `Deposits`, `Sessions`, `SessionRuns` and `SessionStore`: reports arrive repeated
  and out of order, move sessions through a transactional outbox, and each session is handed to settlement once.
  `OutboxOrder` says which events a batch reaches and what a failing event holds back; `Holds` follows compliance
  holds and the cases behind them; `SessionEffects` says what requests, decisions, the TTL job and deposits leave of a
  session, status by status. `Screenings` runs session creation and travel-rule screening in one model, statement by
  statement, next to everything else that happens to the sessions.
- **Ledger and reconciliation** (`Ledger`, `Reconcile`), **RLP and the EIP-1559 envelope** (`Rlp`, `EvmTx`; the
  standards are Appendix B of the Ethereum Yellow Paper and the Specification section of EIP-1559), the
  **sliding-window limiter** (`RateLimit`), **travel-rule screening** under concurrent creation (`TravelRule`), the
  **deposit quote** (`Quote`) and the **HD account allocator** (`HdAllocation`). `Keys` shows that the spelt idempotency
  keys and client references are as distinct as the model takes them to be.

Assumptions that the theorems carry in their `requires`: a rejection, a failure or return callback and an admin's
confirmation are only given when the attempt they name is not in flight; a human sends money by hand only while the
settlement is parked, and ops do not retry a parked settlement for which money was sent by hand (`Truthful`, `HonestEnv`;
no code checks the last, and `SettlementEdges.RetryPaysTwiceIffSentByHand` says what happens without it); a deposit is
fixed where a theorem says so; the limiter's clock does not run backwards and a key keeps its limit; one threshold and one
window per tenant in `TravelRule` and `Screenings`; distinct derivation paths give distinct addresses. Amounts are exact
rationals.

The model rests on unique keys of the schema, as refusals of a second insert:

- `UNIQUE (settlement_id, attempt_number)` (`migrations/000019_create_settlement.up.sql:63`) in `Interleaving`,
  `InterleavingSerial` and `CrashRecovery`;
- `UNIQUE (address)` (`migrations/000011_create_self_custody_wallets.up.sql:37`, kept by migration 000016) in
  `HdAllocation`;
- the ledger's unique idempotency key, and one settlement row per session.

The outbox is modelled with one dispatcher and with the order of publication as the order of `created_at`
(`internal/platform/eventbus/eventbus.go:153-160`). Two things are outside of that, and so outside of what `OutboxOrder`
says about events that are held back: a second dispatcher running at the same time steps over a row that the first one
has locked, and an event of a transaction that began earlier and commits later sorts in front of what was published
meanwhile.

The model follows the code where its documentation or comments say otherwise, or where it does what a reader may not
expect:

- `docs/ARCHITECTURE.md:300` lets ops retry a `reversed` settlement; `RetryPayout` refuses it, and the only way on is
  `ResolveReversal` (`SettlementSteps.RetryKeeps`).
- `docs/ARCHITECTURE.md:476` releases the deposit address at `rejected` and `expired` too; the code releases it at
  `settled` and `settlement_failed` only (`SettlementPolicy.ReleasedExactlyOnceTerminal`).
- `internal/platform/eventbus/eventbus.go:130-132` says that a failing handler only blocks its own event; the batch
  returns at the first error and the oldest event is tried first every time (`OutboxOrder.BatchDispatchesExactly`,
  `OutboxOrder.FailingEventHoldsBackAll`).
- `internal/settlement/ops.go:56-60` takes a parked settlement to have nothing in flight, so that a retry is safe; it is
  exactly as long as the human has not sent the money yet (`SettlementEdges.RetryPaysTwiceIffSentByHand`).
- A `payout.returned` callback is not tied to the attempt that succeeded (`SettlementEdges.ReturnIsRightIffLatest`,
  `SettlementEdges.ReturnOfAnotherAttempt`).
- A corrected payout destination is kept by the attempt that carried it. When the retry that brought it made no attempt,
  a second retry without a correction goes back to the old destination (`Destinations.CorrectionRememberedIffTried`).
- Approving a hold closes its compliance case before a rate is locked, so a lock that fails cannot be tried again
  (`Holds.FailedLockIsFinal`).
- The travel-rule volume counts the new session twice, which only makes the bound stricter
  (`TravelRule.ApprovedStaysBelowThreshold`).
- The RLP item decoder returns errors for malformed input, except that on a long-string header whose end does not fit a
  64-bit int it slices out of range (`Rlp.PanicsIffOverlong`, and for whole lists `Rlp.ListPanicsIff`).
- The sign of a negative fee or value is lost in the encoding (`EvmTx.SignIsLost`).
- The two EVM chains count indices separately but derive the same addresses, so saving one fails when the other chain
  was first (`HdAllocation.SaveFailsIffSiblingSaved`).

## Model

| member | source | states |
|---|---|---|
| `Ledger.LedgerStore.ValidateBalance` | internal/ledger/ledger.go:170-186 | answers yes exactly when the signed amounts cancel for every asset code |
| `Ledger.LedgerStore.Post` | internal/ledger/ledger.go:94-164 | the first failing check decides the refusal; a refused transaction changes no table, an accepted one claims its key, adds its entries and moves each touched balance |
| `Ledger.LedgerStore.GetBalance` | internal/ledger/ledger.go:209-219 | the cached balance, zero for an untouched account, which is the signed sum of the entries while the tables are consistent |
| `Ledger.PostKeepsConsistent` | internal/ledger/ledger.go:94-164 | accepted or refused, a post keeps every cached balance equal to its entries and every asset at zero |
| `Ledger.CacheAgreesAfterAnyRun` | internal/ledger/ledger.go:94-164 | cache agreement and zero sums after any sequence of posts |
| `Ledger.KeyIsAcceptedOnce` | internal/ledger/ledger.go:119-132 | over any sequence a key is accepted once if a well-formed transaction with it was posted, and never otherwise |
| `Ledger.PairRefusal` | internal/ledger/ledger.go:94-186 | a two-legged transaction is refused only for its amount, its asset code or a claimed key |
| `Ledger.RefusalByCause` | internal/ledger/ledger.go:94-186 | each of the four refusals is given exactly for its own cause, and a transaction is taken exactly when it is well formed and its key is free |
| `Ledger.PairMovesBalances` | internal/ledger/ledger.go:134-159 | a two-legged transaction moves the cached balance of its debit account up and of its credit account down by its amount, and no other |
| `Reconcile.ReconcileJob.FlagDrift` | internal/ledger/reconcile.go:141-198 | opens and publishes a case unless the account has one open |
| `Reconcile.ReconcileJob.SweepOnce` | internal/ledger/reconcile.go:93-135 | a sweep opens exactly one case for each drifted account that has none open, and publishes those |
| `Reconcile.ReconcileJob.ResolveDiscrepancy` | internal/ledger/reconcile.go:233-248 | a case is closed once |
| `Reconcile.SweepOpensExactly` | internal/ledger/reconcile.go:93-198 | a sweep opens a case for exactly the accounts whose cached balance is not the sum of their entries and that have none open, with both numbers and their difference |
| `Reconcile.SweepOfPostedBookFlagsNothing` | internal/ledger/reconcile.go:93-135 | tables written through posts alone are never flagged |
| `Reconcile.SecondSweepFlagsNothing` | internal/ledger/reconcile.go:93-198 | no account is paged twice for one drift |
| `Reconcile.OneOpenInEveryRun` | internal/ledger/reconcile.go:141-198 | under arbitrary outside drift, sweeps and resolutions, one open case per account at most |
| `Keys.SpellingIsInjective` | internal/settlement/dispatch.go:159-173 | the spelt idempotency keys of sessions and attempts collide exactly when they are the same key |
| `Keys.ClientReferenceIsOwn` | internal/settlement/hyparrow.go:90-92 | no two attempts share a client reference |
| `Keys.Spellings` | internal/settlement/dispatch.go:159-173 | the spellings that the unique key column and the provider get to see |
| `Settlement.FirstUntried` | internal/settlement/dispatch.go:218-239 | the first enabled provider in priority order that was not tried |
| `Settlement.Choose` | internal/settlement/dispatch.go:218-239 | nobody only when none is enabled; a tried provider only when all were tried, and then the first |
| `SettlementInvariant.ClaimKeeps` | internal/settlement/dispatch.go:283-329 | when the provider is called its key was free, and the claim with its attempt row keeps every invariant whatever becomes of the transfer |
| `SettlementInvariant.FailureKeeps` | internal/settlement/dispatch.go:390-424 | failing the open attempt and posting its reversal leaves nothing claimed and the amount owed again |
| `SettlementInvariant.FailSettlementKeeps` | internal/settlement/dispatch.go:457-494 | giving up closes settlement, session and address together, or parks for payment by hand |
| `SettlementInvariant.DispatchKeeps` | internal/settlement/dispatch.go:265-447 | the dispatch and retry recursion, from a settlement with nothing in flight, ends in a sound state after at most three attempts or one more |
| `SettlementInvariant.HandleFailureKeeps` | internal/settlement/dispatch.go:390-447 | a reported failure is a no-op unless it meets the open attempt, and ends in a sound state |
| `SettlementSteps.WorkKeeps` | internal/settlement/dispatch.go:107-209 | a worker keeps every invariant, claims pending rows only, and meets no session conflict |
| `SettlementSteps.HookKeeps` | internal/settlement/webhook.go:140-182 | every callback kind keeps every invariant and meets no conflict |
| `SettlementSteps.SucceededKeeps` | internal/settlement/webhook.go:242-288 | success of the open attempt settles row and session and releases the address; any other success changes nothing |
| `SettlementSteps.ReturnedKeeps` | internal/settlement/webhook.go:293-337 | a return reopens the liability once |
| `SettlementSteps.ReversedUpToIs` | internal/settlement/ops.go:97-145 | the admin confirmation posts exactly one reversal, that of the open attempt |
| `SettlementSteps.RetryKeeps` | internal/settlement/ops.go:38-90 | an ops retry is accepted exactly from failed, parked or paged-and-confirmed settlements, and puts row and session back together |
| `SettlementSteps.ManualKeeps` | internal/settlement/manual.go:118-179 | a payment by hand is accepted once, as an attempt of its own with its own claim |
| `SettlementSteps.ResolveKeeps` | internal/settlement/ops.go:166-229 | a reversal case is closed once, from reversed only |
| `SettlementSteps.TimeoutKeeps` | internal/settlement/timeout_job.go:50-65 | paging keeps every invariant and no status moves |
| `SettlementSteps.HandKeeps` | internal/settlement/manual.go:66-117 | money sent by hand for a parked settlement, before its button is pressed, keeps every invariant |
| `SettlementSteps.StepKeeps` | internal/settlement/dispatch.go:128-494 | every entry point keeps the whole invariant, and no compare-and-set on the session ever misses |
| `SettlementRuns.RunIsSound` | internal/settlement/dispatch.go:128-494 | the invariant holds after every run of entry points, bank moves and further deposits |
| `SettlementRuns.NoDoublePayout` | internal/settlement/providers.go:22-41 | in no reachable state are two payouts of a session in flight or paid: its attempts, and the transfer a human sends by hand from the moment it is sent |
| `SettlementRuns.DispatchedExactlyWhileSettling` | internal/settlement/webhook.go:242-268 | a dispatched attempt exists exactly while settling, a succeeded one exactly from settled on |
| `SettlementRuns.StatusOfAttempt` | internal/settlement/dispatch.go:390-398 | only the latest attempt is ever open or paid |
| `SettlementRuns.SessionsInLockstep` | internal/session/session.go:424-481 | the session status is a function of the settlement status and of whether a first conversion happened, and the next step meets no conflict |
| `SettlementRuns.LedgerFollowsMachine` | internal/settlement/dispatch.go:158-184 | net of the one fx credit, tenant_payable shows the outstanding payout and treasury_fiat_operating mirrors it; while paid out it is zero exactly when the amount is the fx amount |
| `SettlementPolicy.FixedAmountLedger` | internal/settlement/dispatch.go:137-184 | with the deposit fixed at a value V, tenant_payable is zero exactly while settling or settled and -V otherwise, and the operating account mirrors it |
| `SettlementPolicy.EveryKeyPostedOnce` | internal/settlement/dispatch.go:158-184 | no key is posted twice, and from the first dispatch on the journal begins with the deposit posting and its conversion, for the total confirmed at that moment, however many retries run |
| `SettlementPolicy.ReleasedExactlyOnceTerminal` | internal/treasury/treasury.go:377-387 | the deposit address is released exactly when the settlement has ever been settled or settlement_failed |
| `SettlementPolicy.RunIsSteady` | internal/settlement/dispatch.go:137-151 | with a fixed deposit every retry pays the amount of the first conversion |
| `SettlementRetries.AttemptBudget` | internal/settlement/settlement.go:56-60 | at most three automatic attempts, one more per accepted ops retry, and one by hand |
| `SettlementRetries.ChoiceFollowsOrder` | internal/settlement/dispatch.go:218-260 | the tried set after n attempts makes the next choice the (n+1)-th enabled provider |
| `SettlementRetries.FailoverOrder` | internal/settlement/dispatch.go:218-260 | with unchanged bindings attempt i goes to the i-th enabled provider, later ones to the first, over whole runs |
| `SettlementRetries.CorrectionSticks` | internal/settlement/manual.go:40-64 | a destination corrected with an accepted retry is what every later automatic attempt pays to, until the next accepted retry |
| `Destinations.UncorrectedPaysOwn` | internal/settlement/manual.go:40-64 | over every run without a correction each automatic attempt pays the destination that the session was created with |
| `Destinations.CorrectionRememberedIffTried` | internal/settlement/manual.go:40-64 | after a correction, a second retry without one still pays the corrected destination exactly when an attempt was made in between |
| `SettlementProgress.MovesOnIffNotStranded` | internal/settlement/ops.go:38-90 | an unfinished settlement has a truthful way on exactly when its worker did not stop before the conversion and its live payout can be matched to a callback |
| `SettlementProgress.StrandedForever` | internal/settlement/ops.go:50-65 | no entry point moves a stranded settlement |
| `SettlementProgress.StrandsIffNothingToPost` | internal/settlement/dispatch.go:128-192 | a worker leaves its row in dispatching exactly when lock, reservation, deposit, assets or value give nothing to post |
| `SettlementProgress.TakenUpIsRecorded` | internal/settlement/dispatch.go:308-376 | an accepted or uncertain payout goes out once to the resolved destination, keeps its reference, and pages ops when uncertain |
| `SettlementProgress.TakenUpPayoutSettles` | internal/settlement/webhook.go:242-288 | its success callback then settles the session and releases the address |
| `DispatchOutcomes.AnswerIsRecorded` | internal/settlement/dispatch.go:286-382 | every row after an accepted, an uncertain and an unanswered dispatch: attempt, reference, reason, claim, pending destination and page |
| `DispatchOutcomes.RejectionIsRecorded` | internal/settlement/dispatch.go:337-447 | a rejected attempt has failed in bucket 4 if terminally and in bucket 1 otherwise, its claim and reversal are in the books, and nothing follows a terminal or a third one |
| `DispatchOutcomes.ChoiceIsEnabled` | internal/settlement/dispatch.go:218-239 | the provider is bound, registered and enabled, untried while there is such a one, and the first of them by priority when that was not tried or all were; nobody is chosen exactly when nobody is enabled |
| `DispatchOutcomes.GivesUpAsTold` | internal/settlement/dispatch.go:457-494 | over every run, a step that gives up parks the settlement exactly when Telegram is on, the alert was delivered and the destination has an account number; otherwise it fails; ops are paged either way |
| `DispatchOutcomes.ParkedMeansToldWhomToPay` | internal/settlement/manual.go:66-117 | a settlement that waits for a payment by hand has an account that can be paid, and ops were told in the step that gave up, at every point of every run |
| `OpsOutcomes.RetryIsRecorded` | internal/settlement/ops.go:38-145 | every row after a retry, by status: queued with the correction and no page; behind a confirmation with the open attempt in bucket 3 and its claim taken back; refused and untouched |
| `OpsOutcomes.HandPaymentIsRecorded` | internal/settlement/manual.go:118-179 | every row after a payment by hand: an attempt of the provider manual under its own key with who settled it, its claim, and row, session and address settled |
| `OpsOutcomes.SweepPagesSettling` | internal/settlement/timeout_job.go:50-65 | a due settlement is paged exactly when it is settling |
| `OpsOutcomes.ReversalIsResolved` | internal/settlement/ops.go:166-229 | the one case of a reversed settlement is closed by an acceptable adjustment, posted with its legs as given; each refusal has its cause |
| `QuotePayout.WorkerPaysTotal` | internal/settlement/dispatch.go:137-184 | a worker that dispatches pays the confirmed total times price times rate, and credits the tenant with it at the first conversion |
| `QuotePayout.QuotedDepositPaysTheFiat` | internal/settlement/dispatch.go:137-184 | in every run whose confirmed deposit is the amount that was quoted for a fiat sum, what the tenant is owed and every payout are that sum, within the rounding of two divisions and one sendable unit |
| `QuotePayout.OtherDepositsPayInProportion` | internal/rate/rate.go:71-80 | a larger deposit pays at least the fiat sum, up to the rounding, and every deposit its share of what the quoted amount would have paid |
| `QuotePayout.AskedIsSendable` | internal/session/session.go:265-271 | the quoted amount is a whole number of millionths for USDT and USDC and of hundred-millionths otherwise |
| `SettlementEdges.LateDepositLeavesGap` | internal/settlement/dispatch.go:137-151 | a run in which a deposit grew between dispatches: the claim exceeds the one fx credit by the late part |
| `SettlementEdges.RetryLeavesGapIffDepositChanged` | internal/settlement/dispatch.go:137-184 | after a retried dispatch tenant_payable is zero exactly when the deposit found is worth the fx credit |
| `SettlementEdges.ReturnIgnoresAttempt` | internal/settlement/webhook.go:170-171 | a return callback reverses a settled settlement whichever of its attempts it names |
| `SettlementEdges.ReturnIsRightIffLatest` | internal/settlement/webhook.go:293-337 | whatever the bank has done behind the rows, a truthful return is booked with nothing left out exactly when the callback names the latest attempt |
| `SettlementEdges.ReturnOfAnotherAttempt` | internal/settlement/webhook.go:293-299 | a truthful run from a fresh row, each attempt with its own reference, in which a late return of the failed first attempt books back what the second attempt paid |
| `SettlementEdges.RetryPaysTwiceIffSentByHand` | internal/settlement/ops.go:56-60 | a parked settlement that is retried and taken up has two payouts out exactly when a human had sent the money already, and the button is then refused |
| `SettlementStore.PostMirrored` | internal/ledger/ledger.go:119-159 | a posting under one session's key shows in that session's contribution to the shared ledger and in no other |
| `SettlementStore.PostKeepsCoherent` | internal/ledger/ledger.go:94-164 | an accepted posting keeps the ledger consistent and every session's journal equal to its share of it |
| `SettlementStore.RefusedByOwnJournal` | internal/ledger/ledger.go:119-132 | the shared ledger refuses a posting by the session's own journal alone |
| `SettlementStore.SettlementStore.HandleDepositConfirmed` | internal/settlement/events.go:30-43 | one row per session, with its own payout destination pending; a redelivery changes nothing |
| `SettlementStore.SettlementStore.PostFor` | internal/ledger/ledger.go:94-164 | posting through the shared ledger is decided by the session's own keys |
| `SettlementStore.SettlementStore.TriedProviderNames` | internal/settlement/dispatch.go:241-260 | the set of providers of all attempts |
| `SettlementStore.SettlementStore.SelectProvider` | internal/settlement/dispatch.go:218-239 | the loops compute the specified choice |
| `SettlementStore.SettlementStore.ResolveDestination` | internal/settlement/manual.go:40-64 | pending correction, else latest payload, else the session's own destination |
| `SettlementStore.SettlementStore.FailSettlement` | internal/settlement/dispatch.go:457-494 | refines the specified give-up, other sessions untouched |
| `SettlementStore.SettlementStore.DispatchAttempt` | internal/settlement/dispatch.go:265-329 | claim, insert and call refine the specified dispatch and terminate |
| `SettlementStore.SettlementStore.TakeUpAnswer` | internal/settlement/dispatch.go:337-382 | the answer clears the pending destination and is routed |
| `SettlementStore.SettlementStore.HandleAttemptFailure` | internal/settlement/dispatch.go:390-447 | mark, reverse, then retry or give up, as specified |
| `SettlementStore.SettlementStore.ClaimNextPendingDispatch` | internal/settlement/dispatch.go:107-121 | the oldest pending settlement is claimed, or there is none |
| `SettlementStore.SettlementStore.ProcessSettlement` | internal/settlement/dispatch.go:128-209 | the two postings, the row and the session move as specified |
| `SettlementStore.SettlementStore.DispatchBatch` | internal/settlement/dispatch.go:91-105 | drains the queue: afterwards nothing is pending, every pending settlement was worked once and all others are unchanged |
| `SettlementStore.SettlementStore.HandlePayoutSucceeded` | internal/settlement/webhook.go:242-268 | refines the specified success |
| `SettlementStore.SettlementStore.HandlePayoutReturned` | internal/settlement/webhook.go:293-337 | refines the specified return |
| `SettlementStore.SettlementStore.FlagDeclinedAttempt` | internal/settlement/webhook.go:188-213 | a decline is noted and paged once, nothing else |
| `SettlementStore.SettlementStore.FindAttemptByProviderReference` | internal/settlement/webhook.go:223-240 | the latest dispatched of all attempts with the provider and the reference, or none exactly when there is none |
| `SettlementStore.SettlementStore.HandleSettlementWebhook` | internal/settlement/webhook.go:140-182 | routes each kind to its handler on the attempt that is found; an unknown provider or reference changes nothing |
| `SettlementStore.SettlementStore.ResolveConfirmedFailedAttempts` | internal/settlement/ops.go:97-145 | all open attempts are failed in one statement and reversed one by one |
| `SettlementStore.SettlementStore.ReverseDispatched` | internal/settlement/ops.go:124-143 | the loop posts the reversals of exactly the attempts that were open, or stops at the first refusal |
| `SettlementStore.SettlementStore.RetryPayout` | internal/settlement/ops.go:38-90 | refines the specified retry, with its error cases |
| `SettlementStore.SettlementStore.ManualSettle` | internal/settlement/manual.go:118-179 | refines the specified payment by hand |
| `SettlementStore.SettlementStore.PageOpsForTimedOutConfirmations` | internal/settlement/timeout_job.go:50-65 | pages the due settlements with an open attempt and touches nothing else |
| `SettlementStore.SettlementStore.ResolveReversal` | internal/settlement/ops.go:166-229 | refines the specified resolution, with its error cases; of all balances it moves the debited one up and the credited one down by the amount |
| `SettlementStore.UnequalAssetsRefused` | internal/ledger/ledger.go:170-186 | an adjustment across two assets is refused by the ledger |
| `Interleaving.EveryInterleavingIsSafe` | internal/settlement/dispatch.go:128-447 | ownership of claims, order of reversals and uniqueness hold in every interleaving of statements, with processes that die anywhere |
| `Interleaving.CalledAtMostOnce` | internal/settlement/dispatch.go:286-329 | a provider is called at most once per session and attempt number, and only after that attempt's claim |
| `Interleaving.ReversedAtMostOnceAfterClaim` | internal/settlement/dispatch.go:390-424 | an attempt is reversed at most once, and at no point before its claim |
| `Interleaving.NetCountsOpen` | internal/settlement/ops.go:97-145 | claims minus reversals is the number of claimed attempts not reversed |
| `Interleaving.NetNeverNegative` | internal/settlement/ops.go:97-145 | claims minus reversals never goes negative, at any point of any interleaving |
| `InterleavingStatus.PagedExactlyBy` | internal/settlement/timeout_job.go:50-65 | ops are paged by exactly the timeout sweep over a settling row with an open attempt, a decline of an open attempt, an uncertain answer while settling and giving up, and the page is taken back by exactly the retry that queues the row |
| `InterleavingStatus.StatusOnlyFollows` | internal/settlement/webhook.go:344-371 | in every interleaving with crashes a statement changes the status only from where it may, whatever stale values its process holds: given up or settled from settling, or from parked by hand, reversed from settled, queued again from failed, parked or a confirmed settling |
| `InterleavingSerial.DisciplinedRunsOpenOne` | internal/settlement/dispatch.go:128-447 | when processes come one after the other and no failure is confirmed while an attempt has succeeded, one attempt at most is open or has succeeded, with processes that die between any two statements |
| `StatementRuns.StepRuns` | internal/settlement/dispatch.go:128-447 | one step of the whole-step protocol is a stretch of single statements that one process runs alone |
| `StatementRuns.StepsAreStatements` | internal/settlement/dispatch.go:91-447 | every truthful run of whole steps, until a reversed case is closed, is a run of statements by processes one after the other, with the same status, attempts, paging and keys in the same order |
| `InterleavingEdges.OvertakenRunLeavesTwoPayouts` | internal/settlement/dispatch.go:426-446 | the first of the two conditions is needed: a run overtaken during its back-off parks the settlement while a later attempt is open |
| `InterleavingEdges.RetryAfterHalfSuccessPaysAgain` | internal/settlement/ops.go:97-145 | so is the second: after a success callback that died half way the retry looks at open attempts only and pays again |
| `CrashRecovery.MovesOnIffNotStalled` | internal/settlement/ops.go:50-65 | after any careful run with crashes, an unfinished settlement can still change its status exactly when its row is not stalled: dispatching, or settling without an open attempt and with ops not paged or an attempt recorded as succeeded |
| `CrashRecovery.StalledForever` | internal/settlement/timeout_job.go:50-65 | nothing moves a stalled row, whatever interleaves and dies, as long as confirmations are informed |
| `CrashRecovery.StallsIffDiesThere` | internal/settlement/dispatch.go:128-447 | in front of which of its statements a process must not die: from the deposit posting to the settling update, on a success after its attempt, and around a claim, a reversal or a give-up unless ops were paged |
| `CrashRecovery.CalledAgainIffUnclaimed` | internal/settlement/dispatch.go:286-307 | a provider is called again in some later careful run exactly when the row is not stalled and the key of the next attempt is free; a worker that finds it taken returns without an error |
| `CrashRecovery.SettlesIffNotInserted` | internal/settlement/dispatch.go:313-330 | an unfinished settlement can still be settled, by a provider or by hand, exactly when it is not stalled and the row of its next attempt is not there already |
| `CrashRecovery.InsertedOnlyIsNeverPaid` | internal/settlement/dispatch.go:313-330 | a process that dies between the insert of the first attempt and its count leaves a settlement that is not stalled, and yet no provider is ever called and nothing is ever paid |
| `Hyparrow.RejectsIffProvenDead` | internal/settlement/hyparrow.go:124-183 | Dispatch rejects exactly when the answers seen prove that nothing is in flight |
| `Hyparrow.AcceptedWasThere` | internal/settlement/hyparrow.go:155-182 | an accepted payout was known to the remote |
| `Hyparrow.TerminalIffUnpayable` | internal/settlement/hyparrow.go:130-150 | a rejection is terminal exactly when the currency is not NGN or bank details are missing, that is when no answer of the remote could have led to acceptance |
| `Hyparrow.UnpayableIsGivenUpAtOnce` | internal/settlement/dispatch.go:390-447 | such a settlement is given up or parked after a single attempt |
| `Hyparrow.DispatchIsHonest` | internal/settlement/providers.go:22-41 | the adapter meets the rejection contract |
| `Hyparrow.HyparrowEnvIsHonest` | internal/settlement/hyparrow.go:130-183 | a corridor served by it satisfies what the no-double-payout theorem asks |
| `Hyparrow.HyparrowWorkKeepsOneLive` | internal/settlement/hyparrow.go:130-183 | a worker's run against it leaves one live payout at most |
| `Hyparrow.CallbackKeepsSound` | internal/settlement/hyparrow.go:373-413 | its callbacks are truthful when reversals are, and a decline never counts as a failure |
| `Hyparrow.SentIffPrepared` | internal/settlement/hyparrow.go:130-160 | a request is sent, and its reference kept, exactly for NGN, an account with a bank code and an inquiry that found a name; what was not sent is rejected for good or for another try accordingly |
| `Callbacks.SettlesIffSettledEvent` | internal/settlement/hyparrow.go:385-397 | a callback settles a settlement exactly when its event is transfer.settled and its reference names the open attempt; then attempt, row, session and address are settled and nothing else changes |
| `Callbacks.DeclineOnlyPages` | internal/settlement/hyparrow.go:396-404 | transfer.failed leaves its reason on an open attempt without one and pages ops, and changes nothing else |
| `Callbacks.ReversalFailsOpenAttempt` | internal/settlement/hyparrow.go:405-410 | transfer.reversed fails the open attempt in bucket 2, takes its claim back, and tries again before the third attempt, or gives up |
| `Callbacks.ReversalReversesSettled` | internal/settlement/webhook.go:172-176 | transfer.reversed makes a settled payout reversed, with a case and its claim taken back; on any other attempt it changes nothing |
| `Callbacks.OtherEventsChangeNothing` | internal/settlement/hyparrow.go:385-413 | any other event, an event without a reference and a reference of no attempt change nothing |
| `Callbacks.GenericEvents` | internal/settlement/webhook.go:107-133 | the placeholder adapters know three events, which do what the same events of Hyparrow do; any other is an error |
| `Rlp.BigEndianReadsBack` | internal/treasury/wallet/rlp.go:28-40 | the minimal big-endian form reads back and has no leading zero |
| `Rlp.MinimalIsUnique` | internal/treasury/wallet/rlp.go:28-40 | it is the only form without a leading zero |
| `Rlp.BigEndianLength` | internal/treasury/wallet/rlp.go:20-40 | a number fits k bytes exactly when it is below 256^k |
| `Rlp.BigEndianMinimal` | internal/treasury/wallet/rlp.go:30-40 | the loop computes that form, in eight bytes at most |
| `Rlp.EncodeListOf` | internal/treasury/wallet/rlp.go:43-49 | the loop concatenates the items behind their length |
| `Rlp.DecodeOneString` | internal/treasury/wallet/rlp.go:122-155 | one item and the rest, an error, or a slice out of range |
| `Rlp.DecodeTopLevelList` | internal/treasury/wallet/rlp.go:74-116 | terminates on every input with the items, the first error, or a slice out of range |
| `Rlp.ItemReadsBack` | internal/treasury/wallet/rlp.go:122-155 | decoding an encoded item followed by anything gives that item and what followed |
| `Rlp.ListReadsBack` | internal/treasury/wallet/rlp.go:74-116 | an encoded list reads back as its items, the empty access list as an empty string |
| `Rlp.RoundTrip` | internal/treasury/wallet/rlp.go:10-116 | decoding inverts encoding on every list of byte strings that Go can hold |
| `Rlp.StringsByForm` | internal/treasury/wallet/rlp.go:10-27 | a byte by itself, a short and a long string have the forms of the standard |
| `Rlp.ListsByForm` | internal/treasury/wallet/rlp.go:20-49 | and so have short and long lists |
| `Rlp.SmallestForms` | internal/treasury/wallet/rlp.go:10-66 | zero is the empty string, and an empty list one byte |
| `Rlp.PanicsIffOverlong` | internal/treasury/wallet/rlp.go:138-151 | the item decoder runs out of range exactly on long-string headers whose end does not fit a 64-bit int |
| `Rlp.ListPanicsIff` | internal/treasury/wallet/rlp.go:74-116 | reading a list runs out of range exactly when its header is right and an overlong header stands where an item should start |
| `Rlp.TenBytesStopTheDecoder` | internal/treasury/wallet/rlp.go:138-151 | ten bytes that do |
| `Rlp.ItemAnswers` | internal/treasury/wallet/rlp.go:122-155 | the answer of the item decoder to every input, with lengths of any size: 64-bit wrapping decides nothing but where it runs out of range |
| `Rlp.ListAnswers` | internal/treasury/wallet/rlp.go:74-116 | the answer of the list decoder to every header |
| `Rlp.ItemIsAPiece` | internal/treasury/wallet/rlp.go:122-155 | what is decoded lies in the input in one piece just before the rest |
| `EvmTx.UnsignedReadsBack` | internal/treasury/wallet/evm.go:118-131 | the unsigned payload holds the nine fields in order |
| `EvmTx.SignedOverDeterminesPayment` | internal/treasury/wallet/evm.go:118-131 | two transactions are signed over the same bytes exactly when chain, nonce, fees, gas, recipient, value and data agree |
| `EvmTx.SignIsLost` | internal/treasury/wallet/rlp.go:57-66 | a negative value is signed as its absolute value |
| `EvmTx.NonnegativeFieldsAreDetermined` | internal/treasury/wallet/rlp.go:57-66 | with fields that are not negative only nil and zero are identified |
| `EvmTx.SignedEnvelopeReadsBack` | internal/treasury/wallet/evm.go:136-167 | the raw transaction holds the same nine fields, then parity, r and s, behind the type byte |
| `EvmTx.EnvelopeInOrder` | internal/treasury/wallet/evm.go:118-167 | behind the type byte 2 the list reads back as chain id, nonce, both fees, gas limit, destination, amount, data, access list, parity, r and s, in this order, numbers by their value |
| `EvmTx.ScalarsReadBack` | internal/treasury/wallet/evm.go:145-162 | parity, r and s read back as the numbers they were |
| `EvmTx.BuildErc20TransferData` | internal/treasury/wallet/evm.go:172-181 | 68 bytes of selector, recipient and amount; out of range exactly when the amount needs more than 32 bytes |
| `EvmTx.Erc20DataDeterminesTransfer` | internal/treasury/wallet/evm.go:172-181 | call data determines recipient and amount |
| `RateLimit.Limiter.Allow` | internal/platform/ratelimit/ratelimit.go:44-82 | admits by the blended estimate and records the admission in the rolled bucket |
| `RateLimit.Limiter.Sweep` | internal/platform/ratelimit/ratelimit.go:102-111 | the loop drops exactly the buckets older than two windows |
| `RateLimit.EveryTraceIsGood` | internal/platform/ratelimit/ratelimit.go:44-82 | in every trace of requests and sweeps the two counters count exactly the admissions of their windows, each at most the limit |
| `RateLimit.AtMostTwiceTheLimit` | internal/platform/ratelimit/ratelimit.go:44-82 | no closed interval of one window's length admits more than twice the limit |
| `RateLimit.TwiceTheLimitIsReached` | internal/platform/ratelimit/ratelimit.go:75-81 | that bound is met |
| `RateLimit.RequestIsBlended` | internal/platform/ratelimit/ratelimit.go:75-81 | after a request the weight is in (0, 1] and admissions in the window are below limit + 1 - prev * weight |
| `RateLimit.EveryTraceIsBlended` | internal/platform/ratelimit/ratelimit.go:59-81 | the blend bound holds after every event of a trace |
| `RateLimit.AdmittedIffBelowBlend` | internal/platform/ratelimit/ratelimit.go:53-81 | in every trace, with p let through in the window before and c in this one, a request is let through exactly when p * (time left of the window) + c * window < limit * window; windows follow from the times of the requests alone |
| `RateLimit.SweepsAreUnobservable` | internal/platform/ratelimit/ratelimit.go:84-111 | every request is answered as if no sweep ever ran |
| `Deposits.DepositStore.InsertDepositIfAbsent` | internal/treasury/webhook.go:234-247 | inserts only a new reference of a known reservation |
| `Deposits.DepositStore.RecordDepositTransition` | internal/treasury/webhook.go:157-215 | row and event change together, and only on a real transition |
| `Deposits.DepositStore.GetConfirmedDepositTotal` | internal/treasury/treasury.go:358-369 | the loop adds up the confirmed rows of the reservation |
| `Deposits.EveryRowIs` | internal/treasury/webhook.go:157-247 | a row ends confirmed with the first confirmation's amount, else detected with the first report's |
| `Deposits.Confluence` | internal/treasury/webhook.go:157-247 | the same reports in any order and repetition leave the same table |
| `Deposits.TotalCountsEachOnce` | internal/treasury/treasury.go:358-369 | the confirmed total is the sum over distinct confirmed references |
| `Deposits.AnnouncedOnce` | internal/treasury/webhook.go:188-211 | per reference one confirmed event if ever confirmed, and one detected event exactly if detected first |
| `Deposits.OneTransferConfirmsOnce` | internal/treasury/webhook.go:125-143 | funds_received and completed of one transfer confirm it once |
| `Deposits.CountedIffReceived` | internal/treasury/webhook.go:125-143 | over any sequence of callbacks a transfer is counted exactly when one of them is an intact transfer.funds_received or transfer.completed for it, and is on record as detected exactly when it has only intact transfer.processing ones; a receipt is announced once |
| `Deposits.FirstReceiptCounts` | internal/treasury/webhook.go:157-215 | it is counted with the amount of the first receipt |
| `Sessions.EveryRunIsSane` | internal/session/session.go:148-326 | what was published and handed off follows from the rows, in every run of requests, TTL jobs, reports, dispatches and rollbacks |
| `Sessions.HandOffKeepsSane` | internal/settlement/events.go:30-43 | dispatching a confirmation leaves exactly one settlement row |
| `Sessions.DispatchKeepsSane` | internal/platform/eventbus/eventbus.go:146-191 | handlers and mark commit together or not at all |
| `Sessions.BreachesKeepSane` | internal/session/ttl.go:108-168 | marking and publishing breaches in one transaction publishes each once |
| `SessionRuns.HandedOffOnce` | internal/session/events.go:47-84 | session.deposit_confirmed is published once at most, exactly for sessions at deposit_confirmed or later, and settlement rows are unique and follow its dispatch |
| `SessionRuns.SettlementMeansConfirmed` | internal/settlement/events.go:30-43 | only sessions with a confirmed deposit get a settlement |
| `SessionRuns.SessionInvariants` | internal/session/session.go:219-326 | lock and own reservation from pending on, the case in compliance_hold, one SLA breach at most |
| `SessionRuns.StepMoves` | internal/session/session.go:424-481 | one step moves a session along the state diagram and keeps lock, reservation and breach |
| `SessionRuns.ExpiredRejectedAndConfirmedAreFinal` | internal/session/ttl.go:62-93 | expired and rejected are never left, and confirmed or later is never taken back |
| `SessionRuns.ExpiresOnlyBeforeDeposit` | internal/session/ttl.go:62-93 | expired is entered only from screening, pending or compliance_hold |
| `SessionRuns.DispatchedConfirmationConfirms` | internal/session/events.go:28-84 | a confirmed deposit dispatched while its session waits confirms it for good, with or without a detection before |
| `SessionRuns.OverlookedIffDispatchedBeforePending` | internal/session/session.go:271-304 | a confirmation is overlooked exactly when its dispatch came before the session was pending on the reservation |
| `SessionRuns.DispatchStaysCaught` | internal/session/events.go:47-84 | no dispatch overlooks a waiting session |
| `SessionRuns.EarlyDepositIsOverlooked` | internal/session/session.go:271-304 | a run in which that happens |
| `OutboxOrder.RepeatingTheReportDoesNotHelp` | internal/treasury/webhook.go:174-189 | once overlooked, a session is never confirmed in any run whose reports about its reservation only repeat confirmed ones |
| `OutboxOrder.EarlyDepositStaysOverlooked` | internal/session/session.go:271-304 | the session of that run stays pending, or expires, for good |
| `SessionStore.Store.CreateSession` | internal/session/session.go:148-217 | refines the specified request, with what each failed check leaves behind |
| `SessionEffects.RequestLeaves` | internal/session/session.go:148-217 | what a request leaves, by status: held with its case iff screening holds it, rejected iff it refuses, pending with lock, reservation and one session.created iff it approves and a rate is locked, screening otherwise; no row without corridor, destination and entitlement |
| `SessionEffects.DecisionLeaves` | internal/session/session.go:395-417 | what an analyst leaves of an open hold: the case closed, the session rejected, or pending with lock, reservation and announcement, or still held when no rate could be locked |
| `SessionEffects.RefusedDecisionLeavesAll` | internal/session/session.go:395-406 | a decision without an open case changes nothing, and says whether there was none or it was closed |
| `SessionEffects.ExpiryByStatus` | internal/session/ttl.go:62-93 | due sessions expire from screening and pending by one statement and from compliance_hold by the other, and no other row changes |
| `SessionEffects.BreachIsPublished` | internal/session/ttl.go:108-168 | a due session is marked and session.sla_breached published once exactly when it is not marked and in one of the nine statuses other than settled, expired and rejected |
| `SessionEffects.DepositMoves` | internal/session/events.go:28-84 | a dispatched deposit report moves the one session with the reservation from pending to detected or confirmed or from detected to confirmed, with its event; nothing else changes |
| `SessionStore.Store.TransitionToPending` | internal/session/session.go:256-326 | lock, reservation, status and session.created in one transaction |
| `SessionStore.Store.TransitionToHold` | internal/session/session.go:219-231 | from screening only, with the case |
| `SessionStore.Store.ResolveComplianceHold` | internal/session/session.go:395-417 | closes the case, then rejects, or locks and goes pending; a closed case refuses the decision |
| `SessionStore.Store.ResolveHold` | internal/compliance/compliance.go:580-606 | a case is resolved once |
| `Holds.FailedLockIsFinal` | internal/session/session.go:403-417 | after an approval whose lock failed every later decision is refused, and the session can only expire, whatever else runs |
| `SessionStore.Store.CasTransition` | internal/session/session.go:424-436 | moves the status from the expected one or nothing |
| `SessionStore.Store.ExpirePreDeposit` | internal/session/ttl.go:62-74 | expires the due screening and pending sessions |
| `SessionStore.Store.ExpireTimedOutHolds` | internal/session/ttl.go:80-93 | expires the due holds |
| `SessionStore.Store.MarkSLABreaches` | internal/session/ttl.go:108-168 | the loops publish each newly marked session once |
| `SessionStore.Store.RecordDepositTransition` | internal/treasury/webhook.go:157-215 | the deposit row and its event |
| `SessionStore.Store.TransitionByReservation` | internal/session/events.go:47-84 | moves and announces the one session with the reservation |
| `SessionStore.Store.HandleDepositConfirmed` | internal/settlement/events.go:30-43 | a conflict-ignoring insert |
| `SessionStore.Store.DispatchOne` | internal/platform/eventbus/eventbus.go:146-191 | the oldest undispatched event, all or nothing |
| `SessionStore.Store.DispatchBatch` | internal/platform/eventbus/eventbus.go:133-144 | oldest first until the batch is full, nothing is left or a handler fails |
| `SessionStore.BatchKeepsSane` | internal/platform/eventbus/eventbus.go:133-144 | a batch keeps the session invariants |
| `OutboxOrder.BatchDispatchesExactly` | internal/platform/eventbus/eventbus.go:130-144 | a batch dispatches an event exactly when no waiting event up to and including it fails and fewer than a batch wait before it |
| `OutboxOrder.FailingEventHoldsBackAll` | internal/platform/eventbus/eventbus.go:130-144 | over whole runs, while one event keeps failing no event behind it is ever dispatched, whatever requests, jobs, reports and batches do |
| `OutboxOrder.ConfirmedDepositIsHeldBack` | internal/platform/eventbus/eventbus.go:133-191 | a reachable world with a confirmed deposit whose session is never confirmed while the announcement in front of it fails |
| `HandOff.StepFollowsPath` | internal/session/session.go:424-481 | every step of a settlement moves its session along at most two pairs of the state diagram |
| `HandOff.SessionFollowsSettlement` | internal/session/session.go:424-481 | for every truthful run of a settlement a run of the session machine leads the session to the status the settlement leaves it in |
| `HandOff.EveryMoveIsMade` | internal/session/session.go:445-481 | and every such pair of the diagram is one that some settlement makes |
| `HandOff.HandedOffRowHasBoth` | internal/settlement/events.go:30-43 | a row that the session machine hands off has a lock and a reserved address |
| `HandOff.HandedOffStrandsIffNoAmount` | internal/settlement/dispatch.go:128-192 | such a row, after any run, is left in dispatching only for want of an amount or a name to post under |
| `TravelRule.ComplianceStore.TravelRuleThresholdExceeded` | internal/compliance/compliance.go:428-442 | the loop compares the rolling non-rejected volume plus the amount with the threshold |
| `TravelRule.ComplianceStore.ScreenSession` | internal/compliance/compliance.go:268-338 | the volume decides before any provider; holds expire and are announced |
| `TravelRule.OutcomeByCause` | internal/compliance/compliance.go:268-306 | held on a hit, without a provider or when it holds; failed when it does not answer; otherwise approved or rejected as it says |
| `TravelRule.ScreenedIsBelow` | internal/session/session.go:176-202 | a screening that is not over the threshold saw every session that can still be approved, its own included |
| `TravelRule.EveryRunIsBounded` | internal/compliance/compliance.go:428-442 | every candidate's window is below the threshold, in every interleaving of session creations |
| `TravelRule.ApprovedStaysBelowThreshold` | internal/compliance/compliance.go:268-306 | automatically approved volume within a window ending at the last approving screening is below the threshold |
| `Screenings.EveryInterleavingFits` | internal/session/session.go:148-217 | in every interleaving of requests, screenings, decisions and everything else, a session past screening was approved by its screening or by an analyst |
| `Screenings.HitIffOverThreshold` | internal/compliance/compliance.go:423-442 | a screening is a hit exactly when the amounts of the tenant's sessions in the table that are not rejected and fall in the window, plus its own, reach the threshold |
| `Screenings.OverThresholdNeedsAnalyst` | internal/compliance/compliance.go:261-306 | a session over the threshold is never pending or further in any interleaving unless an analyst approved its open case |
| `Screenings.UnreviewedStaysBelow` | internal/compliance/compliance.go:268-306 | what is pending or further without an analyst, within one window of the last approving screening, is below the threshold |
| `Screenings.RequestIsItsStatements` | internal/session/session.go:175-217 | the specified request is its statements run one after the other, with the decision that volume and provider give |
| `Screenings.DecisionIsItsStatements` | internal/session/session.go:395-417 | and so is an analyst's decision |
| `Quote.NearestIsNear` | internal/rate/rate.go:71-74 | a rounded value is within half a unit |
| `Quote.RoundUpIsLeast` | internal/session/session.go:271 | rounding up gives the least number of units that is no smaller |
| `Quote.HalvesGoAway` | internal/rate/rate.go:71-74 | halves round away from zero, and amounts below zero round like those above |
| `Quote.QuoteIsWorthTheFiat` | internal/session/session.go:265-271 | the requested amount, converted back at the lock, is worth the fiat amount within the stated rounding bounds |
| `Quote.BufferIsMargin` | internal/rate/rate.go:181-182 | while the market stays at or above the locked rate the requested amount is worth the fiat asked, and at the rate of the quote a ninety-ninth of it more, up to the rounding |
| `HdAllocation.EveryInterleavingIsApart` | internal/treasury/hdwallet.go:98-217 | numbers, slots and addresses stay apart in every interleaving, lost races included |
| `HdAllocation.AccountIsForever` | internal/treasury/hdwallet.go:98-133 | a tenant keeps its account number |
| `HdAllocation.AccountsAreOwn` | internal/treasury/hdwallet.go:98-133 | tenants have different numbers, all at least 2, while 32 bits can tell them apart |
| `HdAllocation.EveryoneUsesTheAssignedNumber` | internal/treasury/hdwallet.go:119-131 | a process that lost the race works with the winner's number |
| `HdAllocation.NothingHandedOutTwice` | internal/treasury/hdwallet.go:199-217 | no (chain, tenant, index) is handed out twice and no two saved addresses are the same |
| `HdAllocation.PathsByChain` | internal/treasury/wallet/wallet.go:53-58 | coin types 0, 60, 60 and 195; the two EVM chains alone derive alike |
| `HdAllocation.SaveFailsIffSiblingSaved` | internal/treasury/hdwallet.go:165-174 | a derived address cannot be saved exactly when the tenant has saved that index on the other EVM chain |
| `HdAllocation.SecondEvmChainFails` | internal/treasury/hdwallet.go:165-174 | a run in which it cannot: the first BSC address after the first Ethereum address |
| `HdAllocation.HdStore.GetOrAllocateTenantAccount` | internal/treasury/hdwallet.go:98-133 | the tenant's number, new from the counter on first use only |
| `HdAllocation.HdStore.AllocateNextIndex` | internal/treasury/hdwallet.go:203-217 | the next index of the chain and tenant |

## Left out

- SettlementStore.SettlementStore.FailSettlement: whether Telegram is configured and the alert delivered are parameters; the message is not modelled.
- Hyparrow.DispatchIsHonest: speaks of Hyparrow alone; the placeholder HTTP adapters treat a lost response as a rejection and do not meet the contract.
- TravelRule.ComplianceStore.ScreenSession: the provider's decision is a parameter; KYC matching is not modelled.
- HdAllocation.HdStore.GetOrAllocateTenantAccount: one process alone; lost races are in the interleaved model of the same module.
- SessionStore.Store.CreateSession: corridor, entitlement, screening and rate-lock outcomes are parameters, and so are the fresh id and reservation.
- InterleavingSerial.DisciplinedRunsOpenOne: counts the rows of attempts; where the bank has the money, and a transfer by hand before its button is pressed, are events of `Settlement` and not of the statement-level model.
- CrashRecovery.SettlesIffNotInserted: speaks of the settlement's own rows and keys; the session's row, which the code moves in statements of its own, is not part of the statement-level model.
- StatementRuns.StepsAreStatements: stops at the closing of a reversed case, which the statement-level model does not have; amounts, destinations, references and the session's row are not part of the statement-level model either.
- Screenings.OverThresholdNeedsAnalyst: sessions of one tenant under one corridor's threshold and window; a corridor without a threshold never hits.
- The comparison of a deposit callback's currency, network and address with its reservation, and the lookup of the reservation by the provider's reference.
- The back-off sleep between attempts: in `Settlement` time does not pass inside an entry point; in `Interleaving` any other process may move while one sleeps.
- Other keys in the ledger, account ids (the model uses the unique key of the accounts table), NUMERIC column scale and rounding on storage.
- Notifications, settlement and ledger outbox events, audit fields, timestamps other than those compared.
- Database errors other than unique violations; a process that meets one stops, which the interleaved models allow anywhere.
- The sandbox provider's automatic confirmation, and the telegram update handler in front of `ManualSettle`.
- Signatures of callbacks, keccak, ECDSA, BIP32 and address formats: uninterpreted or absent.
- float64 rounding in the limiter (exact rationals instead), wall-clock jumps, limits that change for a key, windows that are not positive.
- Provider failover of deposit addresses, custody balances, sweeping, and which address is reused for a tenant.
- Rate providers, current-rate computation, lock expiry and the instruction's expiry time.
- HTTP handlers, configuration, corridor and catalogue administration, tenant credentials, portal login, email.
