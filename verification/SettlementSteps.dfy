/** Every entry point, taken as one step, keeps the settlement invariant and never meets a conflicting session. */
module SettlementSteps {
  import opened Common
  import opened Ledger
  import opened Settlement
  import opened SettlementInvariant

  /** One run of an entry point, or one move of the world outside. */
  datatype Event =
    | Worker(env: Env)
    | Callback(env: Env, kind: HookKind, attempt: nat, reason: string)
    | Retry(corrected: Option<Destination>, confirmedFailed: bool, admin: string)
    | PaidByHand(settledBy: string)
    | TimeoutSweep
    | Resolve(index: nat, adjustment: Adjustment)
    | BankMoves(attempt: nat, to: Funds)
    | HandMoves(to: Funds)
    | DepositGrows(more: real)

  /** The bank settles or returns a transfer in flight, and may return a settled one. */
  predicate BankAllows(from: Funds, to: Funds) {
    (from == InFlight && to in {Paid, Returned}) || (from == Paid && to == Returned)
  }

  function BankStep(c: Case, n: nat, to: Funds): Case {
    if 1 <= n <= |c.attempts| && BankAllows(c.attempts[n - 1].funds, to)
    then c.(attempts := c.attempts[n - 1 := c.attempts[n - 1].(funds := to)]) else c
  }

  /** A human sends the money for a parked payout, and the bank settles or returns that transfer. */
  function HandStep(c: Case, to: Funds): Case {
    if BankAllows(c.hand, to) || (!Live(c.hand) && to == InFlight) then c.(hand := to) else c
  }

  function Step(id: SessionId, c: Case, ev: Event): Effect {
    match ev
    case Worker(env) => Work(id, c, env)
    case Callback(env, kind, n, reason) => Hook(id, c, env, kind, n, reason)
    case Retry(corrected, confirmed, admin) => RetryPayout(id, c, corrected, confirmed, admin)
    case PaidByHand(who) => ManualSettle(id, c, who)
    case TimeoutSweep => Effect(PageTimedOut(c), Done)
    case Resolve(index, adj) => ResolveReversal(id, c, index, adj)
    case BankMoves(n, to) => Effect(BankStep(c, n, to), Done)
    case HandMoves(to) => Effect(HandStep(c, to), Done)
    case DepositGrows(more) => Effect(if more > 0.0 then c.(confirmedTotal := c.confirmedTotal + more) else c, Done)
  }

  predicate InFlightNow(c: Case, n: nat) {
    1 <= n <= |c.attempts| && Live(c.attempts[n - 1].funds)
  }

  /**
   * Rejections, failure and return callbacks and admin confirmations are only given when nothing is in flight; a parked
   * settlement is only retried when nothing was sent by hand for it, and money is only sent by hand while it is parked.
   */
  ghost predicate Truthful(c: Case, ev: Event) {
    match ev
    case Worker(env) => HonestEnv(env)
    case Callback(env, kind, n, _) =>
      HonestEnv(env) && (kind in {HookFailed, HookReversed, HookReturned} ==> !InFlightNow(c, n))
    case Retry(_, confirmed, _) =>
      && (confirmed && c.status == Settling ==> forall n: nat | IsDispatched(c, n) :: !InFlightNow(c, n))
      && (c.status == AwaitingManualPayout ==> !Live(c.hand))
    case HandMoves(to) => to == InFlight ==> c.status == AwaitingManualPayout
    case _ => true
  }

  // ----- the worker -----

  /** The two deposit postings are made once and touch neither of the tracked accounts' payouts. */
  lemma DepositedIsSound(id: SessionId, c: Case)
    requires c in Sound(id) && c.status == Dispatching && Postable(DepositPosting(id, c))
    ensures c.(journal := Recorded(c.journal, DepositPosting(id, c))) in Sound(id)
  {
  }

  lemma ConvertedIsReady(id: SessionId, c: Case, value: real)
    requires c in Sound(id) && c.status == Dispatching && c.reservation != NoReservation
    requires DepositConfirmed(id) in Keys(c.journal) && Postable(FxPosting(id, c, value))
    ensures c.(journal := Recorded(c.journal, FxPosting(id, c, value)),
               status := Settling, amount := value, session := SessionSettling) in Rounds(id)
  {
  }

  /** The row a worker has claimed. */
  lemma ClaimedIsSound(id: SessionId, c: Case)
    requires c in Sound(id) && c.status == PendingDispatch
    ensures c.(status := Dispatching) in Sound(id) && c.session in {SessionConfirmed, SessionSettling}
  {
  }

  /** The state in which a worker starts to dispatch. */
  function Converted(id: SessionId, c: Case): Case
    requires c.lock.Some?
  {
    var deposited := Recorded(c.journal, DepositPosting(id, c));
    var value := LockedValue(c.confirmedTotal, c.lock.value);
    c.(journal := Recorded(deposited, FxPosting(id, c, value)), status := Settling, amount := value,
       session := SessionSettling)
  }

  /** Both deposit postings are well formed, so that the worker gets as far as a dispatch. */
  predicate Convertible(id: SessionId, c: Case) {
    && c.reservation != NoReservation && c.lock.Some? && Postable(DepositPosting(id, c))
    && Postable(FxPosting(id, c, LockedValue(c.confirmedTotal, c.lock.value)))
  }

  lemma ConvertibleIsReady(id: SessionId, c: Case)
    requires c in Sound(id) && c.status == PendingDispatch && Convertible(id, c)
    ensures Converted(id, c) in Rounds(id)
  {
    var claimed := c.(status := Dispatching);
    ClaimedIsSound(id, c);
    DepositedIsSound(id, claimed);
    var deposited := claimed.(journal := Recorded(c.journal, DepositPosting(id, c)));
    ConvertedIsReady(id, deposited, LockedValue(c.confirmedTotal, c.lock.value));
  }

  /** Such a row is worked to the end. */
  lemma WorkDispatches(id: SessionId, c: Case, env: Env)
    requires c in Sound(id) && c.status == PendingDispatch && Convertible(id, c)
    ensures Work(id, c, env) == DispatchAttempt(id, Converted(id, c), env)
  {
    ClaimedIsSound(id, c);
  }

  /** Any other is left in dispatching, with at most the deposit posted. */
  lemma WorkStops(id: SessionId, c: Case, env: Env)
    requires c in Sound(id) && c.status == PendingDispatch && !Convertible(id, c)
    ensures var e := Work(id, c, env);
            e.c in Sound(id) && e.outcome in {MissingLock, LedgerRefused} && e.c.attempts == c.attempts
  {
    var claimed := c.(status := Dispatching);
    ClaimedIsSound(id, c);
    if Postable(DepositPosting(id, c)) {
      DepositedIsSound(id, claimed);
    }
  }

  lemma WorkKeeps(id: SessionId, c: Case, env: Env)
    requires c in Sound(id) && HonestEnv(env)
    ensures var e := Work(id, c, env);
            && e.c in Sound(id) && e.outcome in {Done, DispatchCallFailed, MissingLock, LedgerRefused}
            && (c.status != PendingDispatch ==> e.c == c)
            && |c.attempts| <= |e.c.attempts|
            && (|e.c.attempts| <= MAX_AUTO_RETRY_ATTEMPTS || |e.c.attempts| <= |c.attempts| + 1)
  {
    if c.status == PendingDispatch {
      if Convertible(id, c) {
        ConvertibleIsReady(id, c);
        WorkDispatches(id, c, env);
        DispatchKeeps(id, Converted(id, c), env);
      } else {
        WorkStops(id, c, env);
      }
    }
  }

  // ----- callbacks -----

  /** The open attempt is the latest of a settling settlement. */
  lemma OpenIsLatest(id: SessionId, c: Case, n: nat)
    requires c in Sound(id) && IsDispatched(c, n)
    ensures n == |c.attempts| && c.status == Settling && c.session == SessionSettling && c.reservation != NoReservation
  {
  }

  /** The rows after the latest attempt is reported paid. */
  function MarkedPaid(c: Case): Case
    requires c.attempts != []
  {
    var last := |c.attempts| - 1;
    Release(c.(attempts := c.attempts[last := c.attempts[last].(status := Succeeded)], status := Settled,
               session := SessionSettled))
  }

  lemma PaidAttempts(id: SessionId, c: Case)
    requires c.attempts != [] && c.attempts[|c.attempts| - 1].status == Dispatched
    requires AttemptsInOrder(id, c) && KeysInStep(id, c) && c.status == Settling
    ensures AttemptsInOrder(id, MarkedPaid(c)) && KeysInStep(id, MarkedPaid(c))
  {
  }

  lemma PaidRest(id: SessionId, c: Case)
    requires Invariant(id, c) && c.status == Settling
    ensures var paid := MarkedPaid(c);
            LedgerInStep(paid) && SessionInStep(id, paid) && CasesInStep(paid) && HandInStep(paid) && Phase(paid)
  {
  }

  lemma PaidIsSound(id: SessionId, c: Case)
    requires c in Sound(id) && IsDispatched(c, |c.attempts|)
    ensures MarkedPaid(c) in Sound(id)
  {
    OpenIsLatest(id, c, |c.attempts|);
    PaidAttempts(id, c);
    PaidRest(id, c);
  }

  lemma SucceededKeeps(id: SessionId, c: Case, n: nat)
    requires c in Sound(id)
    ensures var e := PayoutSucceeded(c, n);
            e.c in Sound(id) && e.outcome == Done && |e.c.attempts| == |c.attempts|
    ensures IsDispatched(c, n) ==> PayoutSucceeded(c, n).c.status == Settled
  {
    if IsDispatched(c, n) {
      OpenIsLatest(id, c, n);
      PaidIsSound(id, c);
      assert PayoutSucceeded(c, n).c == MarkedPaid(c);
    }
  }

  lemma ReturnedKeeps(id: SessionId, c: Case)
    requires c in Sound(id)
    ensures var e := PayoutReturned(id, c);
            e.c in Sound(id) && e.outcome == Done && e.c.attempts == c.attempts
  {
  }

  lemma DeclineKeeps(id: SessionId, c: Case, n: nat, reason: string)
    requires c in Sound(id)
    ensures var e := DeclineFlagged(c, n, reason);
            e.c in Sound(id) && e.outcome == Done && |e.c.attempts| == |c.attempts|
  {
    NotesDoNotMatter(id, c, DeclineFlagged(c, n, reason).c);
  }

  lemma HookKeeps(id: SessionId, c: Case, env: Env, kind: HookKind, n: nat, reason: string)
    requires c in Sound(id) && Truthful(c, Callback(env, kind, n, reason))
    ensures var e := Hook(id, c, env, kind, n, reason);
            && e.c in Sound(id) && e.outcome in {Done, DispatchCallFailed, UnknownAttempt}
            && |c.attempts| <= |e.c.attempts|
            && (|e.c.attempts| <= MAX_AUTO_RETRY_ATTEMPTS || |e.c.attempts| == |c.attempts|)
  {
    match kind
    case HookSucceeded => SucceededKeeps(id, c, n);
    case HookReturned => ReturnedKeeps(id, c);
    case HookDeclined => DeclineKeeps(id, c, n, reason);
    case HookIgnored =>
    case HookFailed => HandleFailureKeeps(id, c, env, n, 2, reason, false);
    case HookReversed =>
      ReturnedKeeps(id, c);
      HandleFailureKeeps(id, c, env, n, 2, reason, false);
  }

  // ----- ops -----

  /** With one attempt dispatched at most, and that the latest, the admin's confirmation reverses exactly it. */
  lemma {:induction false} ReversedUpToIs(id: SessionId, c: Case, n: nat)
    requires c in Sound(id) && c.status == Settling && n <= |c.attempts|
    ensures ReversedUpTo(id, c, n) == if n < |c.attempts| then c.journal
                                      else Then(c.journal, ReversalPosting(AttemptReversal(id, n), c))
  {
    if n > 0 {
      ReversedUpToIs(id, c, n - 1);
    }
  }

  lemma ConfirmedFailedIsFailure(id: SessionId, c: Case, admin: string)
    requires c in Sound(id) && c.status == Settling && !Live(c.attempts[|c.attempts| - 1].funds)
    ensures Postable(ReversalPosting(AttemptReversal(id, 1), c))
    ensures ResolveConfirmedFailed(id, c, admin) in Rounds(id)
    ensures |ResolveConfirmedFailed(id, c, admin).attempts| == |c.attempts|
  {
    var last := |c.attempts| - 1;
    var reason := ConfirmedFailed(c.attempts[last], admin).reason.value;
    FailureKeeps(id, c, |c.attempts|, 3, reason);
    ReversedUpToIs(id, c, |c.attempts|);
    assert ResolveConfirmedFailed(id, c, admin).attempts == MarkFailed(c, |c.attempts|, 3, reason).attempts;
  }

  /** A settlement with no open attempt, failed, parked or just confirmed failed, may go back to the queue. */
  lemma QueuedIsSound(id: SessionId, c: Case, corrected: Option<Destination>)
    requires (c in Sound(id) && c.status in {SettlementFailed, AwaitingManualPayout} && !Live(c.hand))
             || c in Rounds(id)
    ensures c.session == (if c.status == SettlementFailed then SessionFailed else SessionSettling)
    ensures c.(status := PendingDispatch, opsPaged := false, pending := corrected, session := SessionSettling)
            in Sound(id)
  {
  }

  lemma RetryKeeps(id: SessionId, c: Case, corrected: Option<Destination>, confirmed: bool, admin: string)
    requires c in Sound(id) && Truthful(c, Retry(corrected, confirmed, admin))
    ensures var e := RetryPayout(id, c, corrected, confirmed, admin);
            && e.c in Sound(id) && e.outcome in {Done, NotRetryable} && |e.c.attempts| == |c.attempts|
            && (e.outcome == Done <==>
                  (c.status in {SettlementFailed, AwaitingManualPayout}
                   || (c.status == Settling && c.opsPaged && confirmed)))
            && (e.outcome == Done ==> e.c.status == PendingDispatch && e.c.session == SessionSettling)
            && (e.outcome == NotRetryable ==> e.c == c)
  {
    if c.status in {SettlementFailed, AwaitingManualPayout} {
      QueuedIsSound(id, c, corrected);
    } else if c.status == Settling && c.opsPaged && confirmed {
      assert IsDispatched(c, |c.attempts|);
      ConfirmedFailedIsFailure(id, c, "confirmed failed by admin " + admin);
      QueuedIsSound(id, ResolveConfirmedFailed(id, c, "confirmed failed by admin " + admin), corrected);
    }
  }

  /** The rows after a payment by hand, up to the release of the deposit address. */
  function HandPaid(id: SessionId, c: Case, who: string): Case {
    c.(status := Settled, session := SessionSettled, journal := Then(c.journal, ClaimPosting(ManualPayout(id), c)),
       attempts := c.attempts + [ByHand(id, c, who)], hand := NotSent)
  }

  lemma ParkedIsPayable(id: SessionId, c: Case)
    requires c in Sound(id) && c.status == AwaitingManualPayout
    ensures Postable(ClaimPosting(ManualPayout(id), c)) && ManualPayout(id) !in Keys(c.journal)
    ensures c.session == SessionSettling && c.reservation != NoReservation
  {
  }

  lemma HandPaidAttempts(id: SessionId, c: Case, who: string)
    requires Invariant(id, c) && c.status == AwaitingManualPayout
    ensures AttemptsInOrder(id, HandPaid(id, c, who))
  {
  }

  lemma HandPaidKeys(id: SessionId, c: Case, who: string)
    requires KeysInStep(id, c) && !Claimed(c) && AttemptsInOrder(id, c) && c.status == AwaitingManualPayout
    ensures KeysInStep(id, Release(HandPaid(id, c, who)))
  {
  }

  lemma HandPaidRest(id: SessionId, c: Case, who: string)
    requires Invariant(id, c) && c.status == AwaitingManualPayout
    ensures var paid := Release(HandPaid(id, c, who));
            LedgerInStep(paid) && SessionInStep(id, paid) && CasesInStep(paid) && HandInStep(paid) && Phase(paid)
  {
  }

  lemma HandPaidIsSound(id: SessionId, c: Case, who: string)
    requires c in Sound(id) && c.status == AwaitingManualPayout
    ensures Release(HandPaid(id, c, who)) in Sound(id)
  {
    HandPaidAttempts(id, c, who);
    HandPaidKeys(id, c, who);
    HandPaidRest(id, c, who);
  }

  lemma ManualKeeps(id: SessionId, c: Case, who: string)
    requires c in Sound(id)
    ensures var e := ManualSettle(id, c, who);
            && e.c in Sound(id) && e.outcome in {Done, NotAwaitingManualPayout}
            && (e.outcome == Done ==> e.c.status == Settled && |e.c.attempts| == |c.attempts| + 1)
            && (e.outcome == NotAwaitingManualPayout ==> e.c == c)
  {
    if c.status == AwaitingManualPayout {
      ParkedIsPayable(id, c);
      HandPaidIsSound(id, c, who);
      assert ManualSettle(id, c, who).c == Release(HandPaid(id, c, who));
    }
  }

  lemma ResolveKeeps(id: SessionId, c: Case, index: nat, adj: Adjustment)
    requires c in Sound(id)
    ensures var e := ResolveReversal(id, c, index, adj);
            && e.c in Sound(id) && e.c.attempts == c.attempts
            && e.outcome in {Done, ReversalNotFound, ReversalAlreadyResolved, LedgerRefused}
            && (e.outcome == Done ==> c.status == Reversed && e.c.status == ReversalResolved)
  {
  }

  lemma BankKeeps(id: SessionId, c: Case, n: nat, to: Funds)
    requires c in Sound(id)
    ensures BankStep(c, n, to) in Sound(id) && |BankStep(c, n, to).attempts| == |c.attempts|
  {
  }

  lemma HandKeeps(id: SessionId, c: Case, to: Funds)
    requires c in Sound(id) && Truthful(c, HandMoves(to))
    ensures HandStep(c, to) in Sound(id) && HandStep(c, to).attempts == c.attempts
  {
  }

  lemma TimeoutKeeps(id: SessionId, c: Case)
    requires c in Sound(id)
    ensures PageTimedOut(c) in Sound(id) && PageTimedOut(c).attempts == c.attempts
  {
    NotesDoNotMatter(id, c, PageTimedOut(c));
  }

  lemma GrowthKeeps(id: SessionId, c: Case, more: real)
    requires c in Sound(id)
    ensures c.(confirmedTotal := c.confirmedTotal + more) in Sound(id)
  {
  }

  /** What a step may come to. */
  ghost function Landed(id: SessionId): iset<Effect> {
    iset e: Effect | e.c in Sound(id) && e.outcome != SessionConflict
  }

  lemma Lands(id: SessionId, e: Effect)
    requires e.c in Sound(id) && e.outcome != SessionConflict
    ensures e in Landed(id)
  {
  }

  lemma RetryLands(id: SessionId, c: Case, corrected: Option<Destination>, confirmed: bool, admin: string)
    requires c in Sound(id) && Truthful(c, Retry(corrected, confirmed, admin))
    ensures RetryPayout(id, c, corrected, confirmed, admin) in Landed(id)
  {
    RetryKeeps(id, c, corrected, confirmed, admin);
    Lands(id, RetryPayout(id, c, corrected, confirmed, admin));
  }

  lemma ManualLands(id: SessionId, c: Case, who: string)
    requires c in Sound(id)
    ensures ManualSettle(id, c, who) in Landed(id)
  {
    ManualKeeps(id, c, who);
    Lands(id, ManualSettle(id, c, who));
  }

  lemma ResolveLands(id: SessionId, c: Case, index: nat, adj: Adjustment)
    requires c in Sound(id)
    ensures ResolveReversal(id, c, index, adj) in Landed(id)
  {
    ResolveKeeps(id, c, index, adj);
    Lands(id, ResolveReversal(id, c, index, adj));
  }

  lemma WorkLands(id: SessionId, c: Case, env: Env)
    requires c in Sound(id) && HonestEnv(env)
    ensures Work(id, c, env) in Landed(id)
  {
    WorkKeeps(id, c, env);
    Lands(id, Work(id, c, env));
  }

  lemma HookLands(id: SessionId, c: Case, env: Env, kind: HookKind, n: nat, reason: string)
    requires c in Sound(id) && Truthful(c, Callback(env, kind, n, reason))
    ensures Hook(id, c, env, kind, n, reason) in Landed(id)
  {
    HookKeeps(id, c, env, kind, n, reason);
    Lands(id, Hook(id, c, env, kind, n, reason));
  }

  lemma TimeoutLands(id: SessionId, c: Case)
    requires c in Sound(id)
    ensures Effect(PageTimedOut(c), Done) in Landed(id)
  {
    TimeoutKeeps(id, c);
    Lands(id, Effect(PageTimedOut(c), Done));
  }

  lemma BankLands(id: SessionId, c: Case, n: nat, to: Funds)
    requires c in Sound(id)
    ensures Effect(BankStep(c, n, to), Done) in Landed(id)
  {
    BankKeeps(id, c, n, to);
    Lands(id, Effect(BankStep(c, n, to), Done));
  }

  lemma HandLands(id: SessionId, c: Case, to: Funds)
    requires c in Sound(id) && Truthful(c, HandMoves(to))
    ensures Effect(HandStep(c, to), Done) in Landed(id)
  {
    HandKeeps(id, c, to);
    Lands(id, Effect(HandStep(c, to), Done));
  }

  lemma GrowthLands(id: SessionId, c: Case, more: real)
    requires c in Sound(id)
    ensures Step(id, c, DepositGrows(more)) in Landed(id)
  {
    GrowthKeeps(id, c, more);
    Lands(id, Effect(c.(confirmedTotal := c.confirmedTotal + more), Done));
    Lands(id, Effect(c, Done));
  }

  lemma StepLands(id: SessionId, c: Case, ev: Event)
    requires c in Sound(id) && Truthful(c, ev)
    ensures Step(id, c, ev) in Landed(id)
  {
    match ev
    case Worker(env) => WorkLands(id, c, env);
    case Callback(env, kind, n, reason) => HookLands(id, c, env, kind, n, reason);
    case Retry(corrected, confirmed, admin) => RetryLands(id, c, corrected, confirmed, admin);
    case PaidByHand(who) => ManualLands(id, c, who);
    case TimeoutSweep => TimeoutLands(id, c);
    case Resolve(index, adj) => ResolveLands(id, c, index, adj);
    case BankMoves(n, to) => BankLands(id, c, n, to);
    case HandMoves(to) => HandLands(id, c, to);
    case DepositGrows(more) => GrowthLands(id, c, more);
  }

  /** No step ever fails half-way on another module's status. */
  lemma StepKeeps(id: SessionId, c: Case, ev: Event)
    requires c in Sound(id) && Truthful(c, ev)
    ensures Step(id, c, ev).c in Sound(id)
    ensures Step(id, c, ev).outcome != SessionConflict
  {
    StepLands(id, c, ev);
    assert Step(id, c, ev) in Landed(id);
  }
}
