/** The settlement protocol: the rows of one session's settlement and what each entry point does to them. */
module Settlement {
  import opened Common
  import opened Ledger

  type SessionId = string

  datatype Status =
    | PendingDispatch | Dispatching | Settling | Settled | SettlementFailed
    | AwaitingManualPayout | Reversed | ReversalResolved

  /** The part of the session machine that the settlement pipeline drives. */
  datatype SessionStatus =
    | SessionConfirmed | SessionSettling | SessionSettled | SessionFailed | SessionReversed | SessionReversalResolved

  datatype ReservationStatus = NoReservation | Reserved | Released

  /** Failure buckets: 1 rejected before acceptance, 2 failed by callback, 3 confirmed by an admin, 4 terminal. */
  datatype AttemptStatus = Dispatched | Succeeded | Failed(bucket: nat)

  /** A stored payout destination as its readers see it; NoDetails is the empty JSON object. */
  datatype Destination = NoDetails | Bank(accountNumber: string, bankCode: string) | OtherPayload(text: string)

  /** Where the money of an attempt is. The bank decides this; no code reads it. */
  datatype Funds = NotSent | InFlight | Paid | Returned

  datatype Attempt = Attempt(provider: string, key: Key, status: AttemptStatus, reference: Option<string>,
                             reason: Option<string>, payload: Destination, funds: Funds)

  /** A two-legged ledger transaction. */
  datatype Posting = Posting(key: Key, debit: Account, credit: Account, amount: real, asset: string)

  /** The transactions the ledger has accepted under this session's keys, oldest first. */
  datatype Journal = Empty | Then(earlier: Journal, last: Posting)

  datatype Lock = Lock(rate: real, price: real)

  /** What is fixed when the settlement row is created. */
  datatype Terms = Terms(tenant: string, asset: string, currency: string, destination: Destination)

  datatype ReversalStatus = Open | Closed

  /**
   * All rows that belong to one session. Attempt n is attempts[n - 1], and attempt_count is their number. Money that a
   * human has sent and not reported yet is in `hand`, which no code reads.
   */
  datatype Case = Case(
    terms: Terms, lock: Option<Lock>, confirmedTotal: real, reservation: ReservationStatus, session: SessionStatus,
    status: Status, amount: real, opsPaged: bool, pending: Option<Destination>,
    attempts: seq<Attempt>, hand: Funds, reversals: seq<ReversalStatus>, journal: Journal)

  datatype ReplyKind = Accepted | Uncertain | RejectedRetryable | RejectedTerminal | CallFailed

  /** A provider's synchronous answer; `sent` says whether it took the transfer. */
  datatype Reply = Reply(kind: ReplyKind, reference: Option<string>, reason: string, sent: bool)

  /** What a step meets outside: the corridor's bindings, the adapters, their answers, the alert channel. */
  datatype Env = Env(bindings: seq<string>, registry: map<string, bool>, replies: nat -> Reply,
                     telegramOn: bool, alertDelivered: bool)

  datatype Outcome =
    | Done
    | NotFound | NotRetryable | NotAwaitingManualPayout | ReversalNotFound | ReversalAlreadyResolved
    | UnknownAttempt | UnknownProvider | MissingLock | LedgerRefused | DispatchCallFailed | SessionConflict

  datatype Effect = Effect(c: Case, outcome: Outcome)

  const MAX_AUTO_RETRY_ATTEMPTS: nat := 3
  const MANUAL_PROVIDER := "manual"

  // ----- ledger -----

  function TreasuryInTransit(t: Terms): Account { Account(None, "treasury_in_transit", t.asset) }
  function CryptoFxClearing(t: Terms): Account { Account(None, "crypto_fx_clearing", t.asset) }
  function FiatFxClearing(t: Terms): Account { Account(None, "fiat_fx_clearing", t.currency) }
  function FiatOperating(t: Terms): Account { Account(None, "treasury_fiat_operating", t.currency) }
  function TenantPayable(t: Terms): Account { Account(Some(t.tenant), "tenant_payable", t.currency) }

  function DepositPosting(id: SessionId, c: Case): Posting {
    Posting(DepositConfirmed(id), TreasuryInTransit(c.terms), CryptoFxClearing(c.terms), c.confirmedTotal,
            c.terms.asset)
  }

  function FxPosting(id: SessionId, c: Case, value: real): Posting {
    Posting(FxConversion(id), FiatFxClearing(c.terms), TenantPayable(c.terms), value, c.terms.currency)
  }

  function ClaimPosting(key: Key, c: Case): Posting {
    Posting(key, TenantPayable(c.terms), FiatOperating(c.terms), c.amount, c.terms.currency)
  }

  function ReversalPosting(key: Key, c: Case): Posting {
    Posting(key, FiatOperating(c.terms), TenantPayable(c.terms), c.amount, c.terms.currency)
  }

  function Keys(j: Journal): set<Key> {
    match j
    case Empty => {}
    case Then(earlier, p) => Keys(earlier) + {p.key}
  }

  /** The ledger takes a pair with a positive amount and an asset code, unless its key is claimed. */
  predicate Postable(p: Posting) {
    p.amount > 0.0 && p.asset != ""
  }

  /** A duplicate is as good as posted. */
  function Recorded(j: Journal, p: Posting): Journal {
    if p.key in Keys(j) then j else Then(j, p)
  }

  /** The fiat value of the confirmed deposit at the session's lock. */
  function LockedValue(total: real, lock: Lock): real {
    total * lock.price * lock.rate
  }

  // ----- provider choice and destination -----

  /** Bound providers whose adapter is registered and enabled, in priority order. */
  function EnabledAmong(bindings: seq<string>, registry: map<string, bool>): (names: seq<string>) {
    if bindings == [] then []
    else
      var last := bindings[|bindings| - 1];
      EnabledAmong(bindings[..|bindings| - 1], registry) + (if last in registry && registry[last] then [last] else [])
  }

  function Enabled(env: Env): seq<string> {
    EnabledAmong(env.bindings, env.registry)
  }

  function Tried(attempts: seq<Attempt>): set<string> {
    set i | 0 <= i < |attempts| :: attempts[i].provider
  }

  function FirstUntried(enabled: seq<string>, tried: set<string>): (i: nat)
    ensures i <= |enabled|
    ensures forall j | 0 <= j < i :: enabled[j] in tried
    ensures i < |enabled| ==> enabled[i] !in tried
  {
    if enabled == [] || enabled[0] !in tried then 0 else 1 + FirstUntried(enabled[1..], tried)
  }

  /** The first untried provider, else the first one, else nobody. */
  function Choose(enabled: seq<string>, tried: set<string>): (choice: Option<string>)
    ensures choice == None <==> enabled == []
    ensures choice.Some? ==> choice.value in enabled
    ensures choice.Some? && choice.value in tried ==>
            choice.value == enabled[0] && forall p | p in enabled :: p in tried
  {
    if enabled == [] then None
    else
      var i := FirstUntried(enabled, tried);
      if i < |enabled| then Some(enabled[i]) else Some(enabled[0])
  }

  /** The payload of the latest attempt that carries any details. */
  function LatestPayload(attempts: seq<Attempt>): Option<Destination> {
    if attempts == [] then None
    else
      var last := attempts[|attempts| - 1];
      if last.payload != NoDetails then Some(last.payload) else LatestPayload(attempts[..|attempts| - 1])
  }

  /** A pending correction, else what the previous attempt used, else the session's own destination. */
  function ResolvedDestination(c: Case): Destination {
    if c.pending.Some? then c.pending.value
    else
      match LatestPayload(c.attempts)
      case Some(d) => d
      case None => c.terms.destination
  }

  predicate PayableByHand(d: Destination) {
    d.Bank? && d.accountNumber != ""
  }

  // ----- the dispatch loop -----

  function Release(c: Case): Case {
    if c.reservation == Reserved then c.(reservation := Released) else c
  }

  /** settling -> settlement_failed, or awaiting_manual_payout when ops could be told whom to pay. */
  function FailSettlement(c: Case, env: Env): Effect {
    if env.telegramOn && PayableByHand(ResolvedDestination(c)) && env.alertDelivered then
      Effect(if c.status == Settling then c.(status := AwaitingManualPayout, opsPaged := true) else c, Done)
    else if c.status != Settling then Effect(c, Done)
    else
      var failed := c.(status := SettlementFailed, opsPaged := true);
      if c.session != SessionSettling then Effect(failed, SessionConflict)
      else Effect(Release(failed.(session := SessionFailed)), Done)
  }

  /** The claim and the attempt row as they stand once the provider has been called. */
  function Called(id: SessionId, c: Case, provider: string, reply: Reply): Case {
    var key := Payout(id, |c.attempts| + 1);
    c.(journal := Then(c.journal, ClaimPosting(key, c)),
       attempts := c.attempts + [Attempt(provider, key, Dispatched, None, None, ResolvedDestination(c),
                                         if reply.sent then InFlight else NotSent)])
  }

  /** What an accepted or uncertain answer leaves on the latest attempt. */
  function Answered(c: Case, reply: Reply): Case
    requires c.attempts != []
  {
    var last := |c.attempts| - 1;
    if c.status != Settling then c
    else if reply.kind == Accepted
        then c.(attempts := c.attempts[last := c.attempts[last].(reference := reply.reference)])
    else c.(attempts := c.attempts[last := c.attempts[last].(reference := reply.reference,
                                                             reason := Some(reply.reason))],
            opsPaged := true)
  }

  function RetryBudget(n: nat): nat {
    if n < MAX_AUTO_RETRY_ATTEMPTS then MAX_AUTO_RETRY_ATTEMPTS - n else 0
  }

  /** Claims the payout key, then calls the provider and routes its answer. */
  function DispatchAttempt(id: SessionId, c: Case, env: Env): Effect
    decreases 2 * RetryBudget(|c.attempts|) + 1
  {
    match Choose(Enabled(env), Tried(c.attempts))
    case None => FailSettlement(c, env)
    case Some(provider) =>
      var n := |c.attempts| + 1;
      var claim := ClaimPosting(Payout(id, n), c);
      if !Postable(claim) then Effect(c, LedgerRefused)
      else if claim.key in Keys(c.journal) then Effect(c, Done)
      else
        Routed(id, Called(id, c, provider, env.replies(n)), env, n, env.replies(n))
  }

  predicate Rejected(reply: Reply) {
    reply.kind in {RejectedRetryable, RejectedTerminal}
  }

  /**
   * What follows the provider's answer to attempt n; an answer, unlike a failed call, uses up the pending destination.
   */
  function Routed(id: SessionId, called: Case, env: Env, n: nat, reply: Reply): Effect
    requires called.attempts != []
    decreases if n >= MAX_AUTO_RETRY_ATTEMPTS then 0 else 2 * RetryBudget(|called.attempts|) + 2, 1
  {
    if reply.kind == CallFailed then Effect(called, DispatchCallFailed)
    else if Rejected(reply) then
      HandleAttemptFailure(id, called.(pending := None), env, n, if reply.kind == RejectedTerminal then 4 else 1,
                           reply.reason, reply.kind == RejectedTerminal)
    else Effect(Answered(called.(pending := None), reply), Done)
  }

  predicate IsDispatched(c: Case, n: nat) {
    1 <= n <= |c.attempts| && c.attempts[n - 1].status == Dispatched
  }

  function MarkFailed(c: Case, n: nat, bucket: nat, reason: string): Case
    requires 1 <= n <= |c.attempts|
  {
    c.(attempts := c.attempts[n - 1 := c.attempts[n - 1].(status := Failed(bucket), reason := Some(reason))])
  }

  /** Marks a dispatched attempt failed, reverses its claim, then retries or gives up. */
  function HandleAttemptFailure(id: SessionId, c: Case, env: Env, n: nat, bucket: nat, reason: string,
                                terminal: bool): Effect
    decreases if n >= MAX_AUTO_RETRY_ATTEMPTS then 0 else 2 * RetryBudget(|c.attempts|) + 2, 0
  {
    if !IsDispatched(c, n) then Effect(c, Done)
    else
      var marked := MarkFailed(c, n, bucket, reason);
      var reversal := ReversalPosting(AttemptReversal(id, n), c);
      if !Postable(reversal) then Effect(marked, LedgerRefused)
      else
        var reversed := marked.(journal := Recorded(c.journal, reversal));
        if terminal || n >= MAX_AUTO_RETRY_ATTEMPTS then FailSettlement(reversed, env)
        else DispatchAttempt(id, reversed, env)
  }

  // ----- entry points -----

  /** The worker's run over a claimed row: the two deposit postings, then the first dispatch. */
  function ProcessSettlement(id: SessionId, c: Case, env: Env): Effect {
    if c.reservation == NoReservation || c.lock == None then Effect(c, MissingLock)
    else
      var value := LockedValue(c.confirmedTotal, c.lock.value);
      if !Postable(DepositPosting(id, c)) then Effect(c, LedgerRefused)
      else
        var deposited := c.(journal := Recorded(c.journal, DepositPosting(id, c)));
        if !Postable(FxPosting(id, c, value)) then Effect(deposited, LedgerRefused)
        else
          var converted := deposited.(journal := Recorded(deposited.journal, FxPosting(id, c, value)));
          var settling :=
            if c.status == Dispatching then converted.(status := Settling, amount := value) else converted;
          if c.session == SessionSettling then DispatchAttempt(id, settling, env)
          else if c.session == SessionConfirmed then DispatchAttempt(id, settling.(session := SessionSettling), env)
          else Effect(settling, SessionConflict)
  }

  /** Claim and process, when the row is there to be claimed. */
  function Work(id: SessionId, c: Case, env: Env): Effect {
    if c.status == PendingDispatch then ProcessSettlement(id, c.(status := Dispatching), env) else Effect(c, Done)
  }

  /** The session side of any settled transition. */
  function CompleteSession(c: Case): Effect {
    if c.session != SessionSettling then Effect(c, SessionConflict)
    else Effect(Release(c.(session := SessionSettled)), Done)
  }

  function PayoutSucceeded(c: Case, n: nat): Effect {
    if !IsDispatched(c, n) then Effect(c, Done)
    else
      var marked := c.(attempts := c.attempts[n - 1 := c.attempts[n - 1].(status := Succeeded)]);
      if c.status != Settling then Effect(marked, Done) else CompleteSession(marked.(status := Settled))
  }

  /** settled -> reversed. Which attempt the callback names plays no part. */
  function PayoutReturned(id: SessionId, c: Case): Effect {
    if c.status != Settled then Effect(c, Done)
    else
      var reversed := c.(status := Reversed, reversals := c.reversals + [Open]);
      if c.session != SessionSettled then Effect(reversed, SessionConflict)
      else
        var moved := reversed.(session := SessionReversed);
        var posting := ReversalPosting(SettlementReversal(id), c);
        if Postable(posting) then Effect(moved.(journal := Recorded(c.journal, posting)), Done)
            else Effect(moved, LedgerRefused)
  }

  /** A decline that may still land: ops are told once, nothing else moves. */
  function DeclineFlagged(c: Case, n: nat, reason: string): Effect {
    if IsDispatched(c, n) && c.attempts[n - 1].reason == None then
      Effect(c.(attempts := c.attempts[n - 1 := c.attempts[n - 1].(reason := Some(reason))], opsPaged := true), Done)
    else Effect(c, Done)
  }

  datatype HookKind = HookIgnored | HookSucceeded | HookFailed | HookReturned | HookReversed | HookDeclined

  /** A callback reaches the attempt stored under its reference, and is routed by its kind. */
  function Hook(id: SessionId, c: Case, env: Env, kind: HookKind, n: nat, reason: string): Effect {
    if kind != HookIgnored && !(1 <= n <= |c.attempts| && c.attempts[n - 1].reference.Some?)
        then Effect(c, UnknownAttempt)
    else
      match kind
      case HookIgnored => Effect(c, Done)
      case HookSucceeded => PayoutSucceeded(c, n)
      case HookReturned => PayoutReturned(id, c)
      case HookFailed => HandleAttemptFailure(id, c, env, n, 2, reason, false)
      case HookReversed =>
        if c.attempts[n - 1].status == Succeeded then PayoutReturned(id, c)
        else HandleAttemptFailure(id, c, env, n, 2, reason, false)
      case HookDeclined => DeclineFlagged(c, n, reason)
  }

  function ConfirmedFailed(a: Attempt, note: string): Attempt {
    if a.status != Dispatched then a
    else a.(status := Failed(3), reason := Some((if a.reason.Some? then a.reason.value + "; " else "") + note))
  }

  /** Marks every dispatched attempt failed and posts one reversal for each. */
  function ResolveConfirmedFailed(id: SessionId, c: Case, note: string): Case {
    c.(attempts := seq(|c.attempts|, i requires 0 <= i < |c.attempts| => ConfirmedFailed(c.attempts[i], note)),
       journal := ReversedUpTo(id, c, |c.attempts|))
  }

  function ReversedUpTo(id: SessionId, c: Case, n: nat): Journal {
    if n == 0 then c.journal
    else if IsDispatched(c, n) then Recorded(ReversedUpTo(id, c, n - 1), ReversalPosting(AttemptReversal(id, n), c))
    else ReversedUpTo(id, c, n - 1)
  }

  /** The ops retry: back to pending_dispatch from a failed, parked or confirmed-failed settlement. */
  function RetryPayout(id: SessionId, c: Case, corrected: Option<Destination>, confirmedFailed: bool,
                       admin: string): Effect {
    if c.status == SettlementFailed then Requeue(c, corrected, SessionFailed)
    else if c.status == AwaitingManualPayout then Requeue(c, corrected, SessionSettling)
    else if c.status == Settling && c.opsPaged && confirmedFailed then
      var resolved := ResolveConfirmedFailed(id, c, "confirmed failed by admin " + admin);
      if resolved.attempts != c.attempts && !Postable(ReversalPosting(AttemptReversal(id, 1), c)) then
        Effect(c.(attempts := resolved.attempts), LedgerRefused)
      else Requeue(resolved, corrected, SessionSettling)
    else Effect(c, NotRetryable)
  }

  function Requeue(c: Case, corrected: Option<Destination>, sessionFrom: SessionStatus): Effect {
    var queued := c.(status := PendingDispatch, opsPaged := false, pending := corrected);
    if c.session != sessionFrom then Effect(queued, SessionConflict)
    else Effect(queued.(session := SessionSettling), Done)
  }

  /** The attempt that records a payment by hand. */
  function ByHand(id: SessionId, c: Case, settledBy: string): Attempt {
    Attempt(MANUAL_PROVIDER, ManualPayout(id), Succeeded, None, None, OtherPayload(settledBy), c.hand)
  }

  /** awaiting_manual_payout -> settled: what a human has sent becomes an attempt of its own, reported as paid. */
  function ManualSettle(id: SessionId, c: Case, settledBy: string): Effect {
    if c.status != AwaitingManualPayout then Effect(c, NotAwaitingManualPayout)
    else
      var key := ManualPayout(id);
      var paid := c.(status := Settled,
                     attempts := c.attempts + [ByHand(id, c, settledBy)], hand := NotSent);
      if !Postable(ClaimPosting(key, c)) then Effect(paid, LedgerRefused)
      else CompleteSession(paid.(journal := Recorded(c.journal, ClaimPosting(key, c))))
  }

  /** The timeout sweep pages ops for a payout nobody confirmed; it never touches the status. */
  function PageTimedOut(c: Case): Case {
    if c.status == Settling && !c.opsPaged && exists i :: 0 <= i < |c.attempts| && c.attempts[i].status == Dispatched
    then c.(opsPaged := true) else c
  }

  datatype Adjustment = Adjustment(debit: Account, credit: Account, amount: real)

  function AdjustmentPosting(id: SessionId, index: nat, adj: Adjustment): Posting {
    Posting(ManualAdjustment(id, index), adj.debit, adj.credit, adj.amount, adj.debit.asset)
  }

  /** Closes an open reversal case with a manual adjustment; legs of two assets do not balance. */
  function ResolveReversal(id: SessionId, c: Case, index: nat, adj: Adjustment): Effect {
    if index >= |c.reversals| then Effect(c, ReversalNotFound)
    else if c.reversals[index] != Open then Effect(c, ReversalAlreadyResolved)
    else if !Postable(AdjustmentPosting(id, index, adj)) || adj.debit.asset != adj.credit.asset
        then Effect(c, LedgerRefused)
    else
      var closed := c.(journal := Recorded(c.journal, AdjustmentPosting(id, index, adj)),
                       reversals := c.reversals[index := Closed],
                       status := if c.status == Reversed then ReversalResolved else c.status);
      if c.session != SessionReversed then Effect(closed, SessionConflict)
      else Effect(closed.(session := SessionReversalResolved), Done)
  }
}
