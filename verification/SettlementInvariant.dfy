/** What every entry point keeps: one live attempt, a ledger in step with the state machine, sessions in lockstep. */
module SettlementInvariant {
  import opened Common
  import opened Ledger
  import opened Settlement

  /** What one transaction does to an account. */
  function Effective(p: Posting, account: Account): real {
    (if p.debit == account then p.amount else 0.0) - (if p.credit == account then p.amount else 0.0)
  }

  /** A session's net contribution to an account. Adjustments land wherever ops say and are not counted. */
  function Contribution(j: Journal, account: Account): real {
    match j
    case Empty => 0.0
    case Then(earlier, p) =>
      Contribution(earlier, account) + (if p.key.ManualAdjustment? then 0.0 else Effective(p, account))
  }

  /** The fiat value credited to the tenant by the session's one fx posting. */
  function Owed(j: Journal): real {
    match j
    case Empty => 0.0
    case Then(earlier, p) => if p.key.FxConversion? then p.amount else Owed(earlier)
  }

  predicate Live(f: Funds) {
    f in {InFlight, Paid}
  }

  /** The latest attempt holds a claim that was not reversed. */
  predicate Claimed(c: Case) {
    c.attempts != [] && !c.attempts[|c.attempts| - 1].status.Failed?
  }

  function SessionOf(status: Status): SessionStatus {
    match status
    case Settled => SessionSettled
    case SettlementFailed => SessionFailed
    case Reversed => SessionReversed
    case ReversalResolved => SessionReversalResolved
    case _ => SessionSettling
  }

  /** The amount the ledger currently shows as paid out: the claim of an unreversed payout. */
  function Outstanding(c: Case): real {
    if Claimed(c) && c.status !in {Reversed, ReversalResolved} then c.amount else 0.0
  }

  predicate FirstDispatched(id: SessionId, c: Case) {
    FxConversion(id) in Keys(c.journal)
  }

  /** Every attempt but the latest has failed; a failed attempt has nothing in flight. */
  ghost predicate AttemptsInOrder(id: SessionId, c: Case) {
    forall i | 0 <= i < |c.attempts| ::
      var a := c.attempts[i];
      && (i < |c.attempts| - 1 ==> a.status.Failed?)
      && (a.status.Failed? ==> !Live(a.funds) && a.key == Payout(id, i + 1))
      && (a.key == Payout(id, i + 1) || (a.key == ManualPayout(id) && a.status == Succeeded))
  }

  /** Which payout and reversal keys of this session are claimed. */
  ghost predicate KeysInStep(id: SessionId, c: Case) {
    var keys := Keys(c.journal);
    && (forall n: nat :: Payout(id, n) in keys <==> 1 <= n <= |c.attempts| && c.attempts[n - 1].key == Payout(id, n))
    && (forall n: nat :: AttemptReversal(id, n) in keys <==> 1 <= n <= |c.attempts| && c.attempts[n - 1].status.Failed?)
    && (ManualPayout(id) in keys <==> c.attempts != [] && c.attempts[|c.attempts| - 1].key == ManualPayout(id))
    && (SettlementReversal(id) in keys <==> c.status in {Reversed, ReversalResolved})
    && (forall n: nat :: ManualAdjustment(id, n) in keys <==> n == 0 && c.status == ReversalResolved)
  }

  predicate LedgerInStep(c: Case) {
    && Contribution(c.journal, TenantPayable(c.terms)) == -Owed(c.journal) + Outstanding(c)
    && Contribution(c.journal, FiatOperating(c.terms)) == -Outstanding(c)
  }

  /** Before and after the first dispatch. */
  predicate SessionInStep(id: SessionId, c: Case) {
    if FirstDispatched(id, c) then
      && c.session == SessionOf(c.status)
      && c.reservation != NoReservation && c.amount > 0.0 && c.terms.currency != ""
      && DepositConfirmed(id) in Keys(c.journal) && Owed(c.journal) > 0.0
    else
      && c.session == SessionConfirmed && c.status in {PendingDispatch, Dispatching} && c.attempts == []
      && Owed(c.journal) == 0.0
  }

  predicate CasesInStep(c: Case) {
    && (if c.status == Reversed then c.reversals == [Open]
        else if c.status == ReversalResolved then c.reversals == [Closed] else c.reversals == [])
    && (c.status in {Settled, SettlementFailed, Reversed, ReversalResolved} ==> c.reservation == Released)
  }

  /** A dispatched attempt exists exactly when the settlement is settling; a paid one exactly from settled on. */
  predicate Phase(c: Case) {
    match c.status
    case Settling => c.attempts != [] && c.attempts[|c.attempts| - 1].status == Dispatched
    case Settled => c.attempts != [] && c.attempts[|c.attempts| - 1].status == Succeeded
    case Reversed => c.attempts != [] && c.attempts[|c.attempts| - 1].status == Succeeded
    case ReversalResolved => c.attempts != [] && c.attempts[|c.attempts| - 1].status == Succeeded
    case _ => !Claimed(c)
  }

  /** Money sent by hand is only ever out while the settlement is parked. */
  predicate HandInStep(c: Case) {
    Live(c.hand) ==> c.status == AwaitingManualPayout
  }

  /** Everything but the relation between the status and the latest attempt. */
  ghost predicate Core(id: SessionId, c: Case) {
    && AttemptsInOrder(id, c) && KeysInStep(id, c) && LedgerInStep(c) && SessionInStep(id, c) && CasesInStep(c)
    && HandInStep(c)
  }

  ghost predicate Invariant(id: SessionId, c: Case) {
    Core(id, c) && Phase(c)
  }

  /** Mid-step: settling with every attempt failed, about to dispatch or to give up. */
  ghost predicate Ready(id: SessionId, c: Case) {
    Core(id, c) && c.status == Settling && !Claimed(c) && FirstDispatched(id, c)
  }

  /** The states between steps. */
  ghost function Sound(id: SessionId): iset<Case> {
    iset c: Case | Invariant(id, c)
  }

  /** The states in which the dispatch loop starts a round. */
  ghost function Rounds(id: SessionId): iset<Case> {
    iset c: Case | Ready(id, c)
  }

  /** The rejection contract of a provider: a rejection means that nothing is in flight. */
  predicate Honest(reply: Reply) {
    reply.kind in {RejectedRetryable, RejectedTerminal} ==> !reply.sent
  }

  ghost predicate HonestEnv(env: Env) {
    forall n: nat :: Honest(env.replies(n))
  }

  // ----- the dispatch loop -----

  lemma FailSettlementKeeps(id: SessionId, c: Case, env: Env)
    requires c in Rounds(id)
    ensures var e := FailSettlement(c, env);
            e.c in Sound(id) && e.outcome == Done && e.c.attempts == c.attempts
  {
  }

  /** Equal up to notes: references, reasons, paging and the pending correction. */
  ghost predicate SameUpToNotes(c: Case, c': Case) {
    && c' == c.(pending := c'.pending, opsPaged := c'.opsPaged, attempts := c'.attempts)
    && |c'.attempts| == |c.attempts|
    && forall i | 0 <= i < |c.attempts| ::
         c'.attempts[i] == c.attempts[i].(reference := c'.attempts[i].reference, reason := c'.attempts[i].reason)
  }

  lemma NotesDoNotMatter(id: SessionId, c: Case, c': Case)
    requires c in Sound(id) && SameUpToNotes(c, c')
    ensures c' in Sound(id)
  {
  }

  /** Every invariant but the answer's is in place when the provider is called. */
  lemma ClaimKeeps(id: SessionId, c: Case, provider: string, reply: Reply)
    requires c in Rounds(id)
    ensures var claim := ClaimPosting(Payout(id, |c.attempts| + 1), c);
            && Postable(claim) && claim.key !in Keys(c.journal)
            && Called(id, c, provider, reply) in Sound(id)
  {
  }

  /** Failing the open attempt and posting its reversal leaves the settlement ready for the next one. */
  lemma FailureKeeps(id: SessionId, c: Case, n: nat, bucket: nat, reason: string)
    requires c in Sound(id) && IsDispatched(c, n) && !Live(c.attempts[n - 1].funds)
    ensures n == |c.attempts|
    ensures var reversal := ReversalPosting(AttemptReversal(id, n), c);
            && Postable(reversal) && reversal.key !in Keys(c.journal)
            && MarkFailed(c, n, bucket, reason).(journal := Then(c.journal, reversal)) in Rounds(id)
  {
  }

  /** With a free key the provider is called, and its answer decides. */
  lemma DispatchUnfolds(id: SessionId, c: Case, env: Env, provider: string)
    requires Choose(Enabled(env), Tried(c.attempts)) == Some(provider)
    requires Postable(ClaimPosting(Payout(id, |c.attempts| + 1), c)) && Payout(id, |c.attempts| + 1) !in Keys(c.journal)
    ensures var n := |c.attempts| + 1;
            var reply := env.replies(n);
            DispatchAttempt(id, c, env) == Routed(id, Called(id, c, provider, reply), env, n, reply)
  {
  }

  /** Where a run of the dispatch loop may end. */
  ghost function Landings(id: SessionId, before: nat): iset<Effect> {
    iset e: Effect |
      && e.c in Sound(id) && e.outcome in {Done, DispatchCallFailed}
      && before <= |e.c.attempts|
      && (|e.c.attempts| <= MAX_AUTO_RETRY_ATTEMPTS || |e.c.attempts| <= before + 1)
  }

  /** An answer that is not a rejection ends the run: taking it up writes notes only. */
  lemma AnswerLands(id: SessionId, called: Case, reply: Reply, before: nat)
    requires called in Sound(id) && |called.attempts| == before + 1
    ensures called.(pending := None) in Sound(id)
    ensures Effect(called, DispatchCallFailed) in Landings(id, before)
    ensures Effect(Answered(called.(pending := None), reply), Done) in Landings(id, before)
  {
    NotesDoNotMatter(id, called, called.(pending := None));
    NotesDoNotMatter(id, called, Answered(called.(pending := None), reply));
  }

  /** A run that gives up keeps its attempts. */
  lemma GivingUpLands(id: SessionId, c: Case, env: Env)
    requires c in Rounds(id)
    ensures FailSettlement(c, env) in Landings(id, |c.attempts|)
    ensures |FailSettlement(c, env).c.attempts| == |c.attempts|
  {
    FailSettlementKeeps(id, c, env);
  }

  lemma LandingsGrow(id: SessionId, before: nat, e: Effect)
    requires e in Landings(id, before + 1)
             && (|e.c.attempts| <= MAX_AUTO_RETRY_ATTEMPTS || |e.c.attempts| == before + 1)
    ensures e in Landings(id, before)
  {
  }

  /** Dispatching from a ready settlement never conflicts and ends in a state that satisfies the invariant. */
  lemma {:induction false} DispatchKeeps(id: SessionId, c: Case, env: Env)
    requires c in Rounds(id) && HonestEnv(env)
    ensures DispatchAttempt(id, c, env) in Landings(id, |c.attempts|)
    decreases 2 * RetryBudget(|c.attempts|) + 1, 0
  {
    match Choose(Enabled(env), Tried(c.attempts))
    case None => GivingUpLands(id, c, env);
    case Some(provider) =>
      var n := |c.attempts| + 1;
      var reply := env.replies(n);
      assert Honest(reply);
      ClaimKeeps(id, c, provider, reply);
      DispatchUnfolds(id, c, env, provider);
      RoutedLands(id, Called(id, c, provider, reply), env, reply);
  }

  /** Whatever the answer to the latest attempt, the run lands. */
  lemma {:induction false} RoutedLands(id: SessionId, called: Case, env: Env, reply: Reply)
    requires called in Sound(id) && HonestEnv(env) && Honest(reply) && called.attempts != []
    requires called.attempts[|called.attempts| - 1].funds == if reply.sent then InFlight else NotSent
    ensures Routed(id, called, env, |called.attempts|, reply) in Landings(id, |called.attempts| - 1)
    decreases (if |called.attempts| >= MAX_AUTO_RETRY_ATTEMPTS then 0 else 2 * RetryBudget(|called.attempts|) + 2), 2
  {
    AnswerLands(id, called, reply, |called.attempts| - 1);
    if Rejected(reply) {
      var terminal := reply.kind == RejectedTerminal;
      RejectionLands(id, called.(pending := None), env, if terminal then 4 else 1, reply.reason, terminal);
    }
  }

  /** A rejection of the latest attempt, seen from before that attempt. */
  lemma {:induction false} RejectionLands(id: SessionId, c: Case, env: Env, bucket: nat, reason: string, terminal: bool)
    requires c in Sound(id) && HonestEnv(env)
    requires c.attempts != [] && !Live(c.attempts[|c.attempts| - 1].funds)
    ensures HandleAttemptFailure(id, c, env, |c.attempts|, bucket, reason, terminal) in Landings(id, |c.attempts| - 1)
    decreases (if |c.attempts| >= MAX_AUTO_RETRY_ATTEMPTS then 0 else 2 * RetryBudget(|c.attempts|) + 2), 1
  {
    HandleFailureKeeps(id, c, env, |c.attempts|, bucket, reason, terminal);
    LandingsGrow(id, |c.attempts| - 1, HandleAttemptFailure(id, c, env, |c.attempts|, bucket, reason, terminal));
  }

  lemma {:induction false} HandleFailureKeeps(id: SessionId, c: Case, env: Env, n: nat, bucket: nat, reason: string,
                                              terminal: bool)
    requires c in Sound(id) && HonestEnv(env)
    requires IsDispatched(c, n) ==> !Live(c.attempts[n - 1].funds)
    ensures var e := HandleAttemptFailure(id, c, env, n, bucket, reason, terminal);
            && e in Landings(id, |c.attempts|)
            && (|e.c.attempts| <= MAX_AUTO_RETRY_ATTEMPTS || |e.c.attempts| == |c.attempts|)
    decreases (if n >= MAX_AUTO_RETRY_ATTEMPTS then 0 else 2 * RetryBudget(|c.attempts|) + 2), 0
  {
    if IsDispatched(c, n) {
      FailureKeeps(id, c, n, bucket, reason);
      var marked := MarkFailed(c, n, bucket, reason);
      var reversed := marked.(journal := Then(c.journal, ReversalPosting(AttemptReversal(id, n), c)));
      if terminal || n >= MAX_AUTO_RETRY_ATTEMPTS {
        GivingUpLands(id, reversed, env);
      } else {
        DispatchKeeps(id, reversed, env);
      }
    }
  }
}
