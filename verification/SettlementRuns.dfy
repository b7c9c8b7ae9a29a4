/** Whole runs of one session's settlement: at most one payout, a ledger that follows, bounded retries. */
module SettlementRuns {
  import opened Common
  import opened Ledger
  import opened Settlement
  import opened SettlementInvariant
  import opened SettlementSteps

  /** The row as the deposit_confirmed handler inserts it, next to a confirmed session. */
  predicate Initial(c: Case) {
    && c.status == PendingDispatch && c.session == SessionConfirmed && c.reservation != Released
    && c.attempts == [] && c.hand == NotSent && c.reversals == [] && c.journal == Empty && !c.opsPaged
        && c.amount == 0.0
  }

  /** The state after a run of steps. */
  function After(id: SessionId, c: Case, evs: seq<Event>): Case {
    if evs == [] then c else Step(id, After(id, c, evs[..|evs| - 1]), evs[|evs| - 1]).c
  }

  /** Every step of the run tells the truth about the money at the time it is taken. */
  ghost predicate TruthfulRun(id: SessionId, c: Case, evs: seq<Event>) {
    evs == [] || (TruthfulRun(id, c, evs[..|evs| - 1]) && Truthful(After(id, c, evs[..|evs| - 1]), evs[|evs| - 1]))
  }

  lemma {:induction false} RunKeepsSound(id: SessionId, c: Case, evs: seq<Event>)
    requires c in Sound(id) && TruthfulRun(id, c, evs)
    ensures After(id, c, evs) in Sound(id)
  {
    if evs != [] {
      RunKeepsSound(id, c, evs[..|evs| - 1]);
      StepKeeps(id, After(id, c, evs[..|evs| - 1]), evs[|evs| - 1]);
    }
  }

  lemma InitialIsSound(id: SessionId, c: Case)
    requires Initial(c)
    ensures c in Sound(id)
  {
  }

  lemma {:induction false} RunIsSound(id: SessionId, c: Case, evs: seq<Event>)
    requires Initial(c) && TruthfulRun(id, c, evs)
    ensures After(id, c, evs) in Sound(id)
  {
    InitialIsSound(id, c);
    RunKeepsSound(id, c, evs);
  }

  /** Money out under attempt n, or, for n = 0, sent by hand and not reported yet. */
  predicate OutNow(c: Case, n: nat) {
    if n == 0 then Live(c.hand) else InFlightNow(c, n)
  }

  /** No double payout: in no reachable state are two payouts in flight or paid, those by hand included. */
  lemma {:induction false} NoDoublePayout(id: SessionId, c: Case, evs: seq<Event>, m: nat, n: nat)
    requires Initial(c) && TruthfulRun(id, c, evs)
    requires OutNow(After(id, c, evs), m) && OutNow(After(id, c, evs), n)
    ensures m == n
  {
    RunIsSound(id, c, evs);
    OneOut(id, After(id, c, evs), m, n);
  }

  lemma OneOut(id: SessionId, s: Case, m: nat, n: nat)
    requires s in Sound(id) && OutNow(s, m) && OutNow(s, n)
    ensures m == n
  {
  }

  /** Only the latest attempt can be open or paid, and the status says which. */
  lemma StatusOfAttempt(id: SessionId, s: Case, n: nat)
    requires s in Sound(id) && 1 <= n <= |s.attempts|
    ensures s.attempts[n - 1].status == Dispatched <==> n == |s.attempts| && s.status == Settling
    ensures s.attempts[n - 1].status == Succeeded <==>
            n == |s.attempts| && s.status in {Settled, Reversed, ReversalResolved}
  {
  }

  /** A dispatched attempt exists exactly while settling, and a paid one exactly from settled on. */
  lemma SoundPhases(id: SessionId, s: Case)
    requires s in Sound(id)
    ensures s.status == Settling ==> IsDispatched(s, |s.attempts|)
    ensures s.status in {Settled, Reversed, ReversalResolved} ==> IsSucceeded(s, |s.attempts|)
  {
  }

  predicate IsSucceeded(s: Case, n: nat) {
    1 <= n <= |s.attempts| && s.attempts[n - 1].status == Succeeded
  }

  /** Between steps a dispatched attempt exists exactly while settling, and a paid one exactly from settled on. */
  lemma DispatchedExactlyWhileSettling(id: SessionId, c: Case, evs: seq<Event>)
    requires Initial(c) && TruthfulRun(id, c, evs)
    ensures var s := After(id, c, evs);
            && (s.status == Settling <==> exists n: nat :: IsDispatched(s, n))
            && (s.status in {Settled, Reversed, ReversalResolved} <==> exists n: nat :: IsSucceeded(s, n))
  {
    var s := After(id, c, evs);
    RunIsSound(id, c, evs);
    SoundPhases(id, s);
    forall n: nat | 1 <= n <= |s.attempts|
      ensures IsDispatched(s, n) ==> s.status == Settling
      ensures IsSucceeded(s, n) ==> s.status in {Settled, Reversed, ReversalResolved}
    {
      StatusOfAttempt(id, s, n);
    }
  }

  /**
   * Lockstep: the session's status is a function of the settlement's and of whether a first dispatch happened,
   * and the next step, whatever it is, meets no conflict.
   */
  lemma {:induction false} SessionsInLockstep(id: SessionId, c: Case, evs: seq<Event>, ev: Event)
    requires Initial(c) && TruthfulRun(id, c, evs + [ev])
    ensures var s := After(id, c, evs);
            && s.session == (if FirstDispatched(id, s) then SessionOf(s.status) else SessionConfirmed)
            && (!FirstDispatched(id, s) ==> s.status in {PendingDispatch, Dispatching})
            && Step(id, s, ev).outcome != SessionConflict
  {
    assert (evs + [ev])[..|evs|] == evs;
    RunIsSound(id, c, evs);
    StepKeeps(id, After(id, c, evs), ev);
  }

  // ----- the ledger -----

  /**
   * What the session owes the tenant is lowered by exactly the unreversed claim, and the operating account mirrors it.
   */
  lemma LedgerFollowsMachine(id: SessionId, c: Case, evs: seq<Event>)
    requires Initial(c) && TruthfulRun(id, c, evs)
    ensures var s := After(id, c, evs);
            var paidOut := if s.status in {Settling, Settled} then s.amount else 0.0;
            && Contribution(s.journal, TenantPayable(s.terms)) == paidOut - Owed(s.journal)
            && Contribution(s.journal, FiatOperating(s.terms)) == -paidOut
            && (Owed(s.journal) > 0.0 <==> FirstDispatched(id, s))
            && (s.status in {Settling, Settled} ==>
                  (Contribution(s.journal, TenantPayable(s.terms)) == 0.0 <==> s.amount == Owed(s.journal)))
  {
    RunIsSound(id, c, evs);
  }

  /** Keys under which this session posts. */
  predicate OwnKey(id: SessionId, key: Key) {
    !key.OtherKey? && key.session == id
  }

  /** No key twice. */
  predicate Distinct(j: Journal) {
    j == Empty || (j.last.key !in Keys(j.earlier) && Distinct(j.earlier))
  }

  /** The journal only grows, and only under this session's keys. */
  predicate Extends(id: SessionId, j: Journal, j': Journal) {
    j' == j || (j'.Then? && OwnKey(id, j'.last.key) && Extends(id, j, j'.earlier))
  }

  lemma {:induction false} ExtendsTransitive(id: SessionId, j: Journal, k: Journal, l: Journal)
    requires Extends(id, j, k) && Extends(id, k, l)
    ensures Extends(id, j, l)
  {
    if l != k {
      ExtendsTransitive(id, j, k, l.earlier);
    }
  }

  /** What the dispatch loop and every step but the first conversion and a growing deposit leave alone. */
  ghost predicate Frame(id: SessionId, c: Case, c': Case) {
    && c'.terms == c.terms && c'.lock == c.lock
    && Extends(id, c.journal, c'.journal)
    && (Distinct(c.journal) ==> Distinct(c'.journal))
  }

  ghost predicate LoopFrame(id: SessionId, c: Case, c': Case) {
    Frame(id, c, c') && c'.amount == c.amount && c'.confirmedTotal == c.confirmedTotal
        && Owed(c'.journal) == Owed(c.journal)
  }

  /** A payout or reversal on top of the journal. */
  lemma PostingFrame(id: SessionId, c: Case, c': Case, p: Posting)
    requires OwnKey(id, p.key) && !p.key.FxConversion?
    requires c' == c.(journal := Recorded(c.journal, p), attempts := c'.attempts, opsPaged := c'.opsPaged,
                      pending := c'.pending)
    ensures LoopFrame(id, c, c')
  {
    assert Owed(Then(c.journal, p)) == Owed(c.journal);
  }

  /** What a claim and the answer leave alone, up to where a rejection is handled. */
  lemma CalledFrame(id: SessionId, c: Case, provider: string, reply: Reply)
    requires Payout(id, |c.attempts| + 1) !in Keys(c.journal)
    ensures LoopFrame(id, c, Called(id, c, provider, reply).(pending := None))
  {
    var claim := ClaimPosting(Payout(id, |c.attempts| + 1), c);
    PostingFrame(id, c, Called(id, c, provider, reply).(pending := None), claim);
  }

  lemma FrameTransitive(id: SessionId, c: Case, d: Case, e: Case)
    requires LoopFrame(id, c, d) && LoopFrame(id, d, e)
    ensures LoopFrame(id, c, e)
  {
    ExtendsTransitive(id, c.journal, d.journal, e.journal);
  }

  lemma {:induction false} DispatchFrame(id: SessionId, c: Case, env: Env)
    ensures LoopFrame(id, c, DispatchAttempt(id, c, env).c)
    decreases 2 * RetryBudget(|c.attempts|) + 1
  {
    match Choose(Enabled(env), Tried(c.attempts))
    case None =>
    case Some(provider) =>
      var n := |c.attempts| + 1;
      var reply := env.replies(n);
      if Postable(ClaimPosting(Payout(id, n), c)) && Payout(id, n) !in Keys(c.journal) {
        DispatchUnfolds(id, c, env, provider);
        var answered := Called(id, c, provider, reply).(pending := None);
        CalledFrame(id, c, provider, reply);
        if Rejected(reply) {
          var terminal := reply.kind == RejectedTerminal;
          HandleFailureFrame(id, answered, env, n, if terminal then 4 else 1, reply.reason, terminal);
          FrameTransitive(id, c, answered, DispatchAttempt(id, c, env).c);
        }
      }
  }

  lemma {:induction false} HandleFailureFrame(id: SessionId, c: Case, env: Env, n: nat, bucket: nat, reason: string,
                                              terminal: bool)
    ensures LoopFrame(id, c, HandleAttemptFailure(id, c, env, n, bucket, reason, terminal).c)
    decreases if n >= MAX_AUTO_RETRY_ATTEMPTS then 0 else 2 * RetryBudget(|c.attempts|) + 2
  {
    var reversal := ReversalPosting(AttemptReversal(id, n), c);
    if IsDispatched(c, n) && Postable(reversal) {
      var reversed := MarkFailed(c, n, bucket, reason).(journal := Recorded(c.journal, reversal));
      PostingFrame(id, c, reversed, reversal);
      if !terminal && n < MAX_AUTO_RETRY_ATTEMPTS {
        DispatchFrame(id, reversed, env);
        ExtendsTransitive(id, c.journal, reversed.journal, DispatchAttempt(id, reversed, env).c.journal);
      }
    }
  }

  lemma {:induction false} ReversedUpToFrame(id: SessionId, c: Case, n: nat)
    ensures LoopFrame(id, c, c.(journal := ReversedUpTo(id, c, n)))
  {
    if n > 0 {
      ReversedUpToFrame(id, c, n - 1);
    }
  }

  /**
   * Once the fx posting is made, its amount is what every later claim pays, as long as the deposit stays what it was.
   */
  predicate Steady(id: SessionId, c: Case) {
    FirstDispatched(id, c) ==>
        c.lock.Some? && Owed(c.journal) == c.amount == LockedValue(c.confirmedTotal, c.lock.value)
  }

  lemma SuccessFrame(id: SessionId, c: Case, n: nat, reason: string)
    ensures LoopFrame(id, c, PayoutSucceeded(c, n).c) && LoopFrame(id, c, DeclineFlagged(c, n, reason).c)
    ensures LoopFrame(id, c, c)
  {
  }

  /** The results of callbacks, which leave those things alone. */
  ghost function Framed(id: SessionId, c: Case): iset<Case> {
    iset c': Case | LoopFrame(id, c, c')
  }

  lemma HookIsFramed(id: SessionId, c: Case, env: Env, kind: HookKind, n: nat, reason: string)
    ensures Hook(id, c, env, kind, n, reason).c in Framed(id, c)
  {
    SuccessFrame(id, c, n, reason);
    match kind
    case HookFailed => HandleFailureFrame(id, c, env, n, 2, reason, false);
    case HookReversed =>
      HandleFailureFrame(id, c, env, n, 2, reason, false);
      ReturnFrame(id, c);
    case HookReturned => ReturnFrame(id, c);
    case HookSucceeded =>
    case HookDeclined =>
    case HookIgnored =>
  }

  lemma HookFrame(id: SessionId, c: Case, env: Env, kind: HookKind, n: nat, reason: string)
    ensures LoopFrame(id, c, Hook(id, c, env, kind, n, reason).c)
  {
    HookIsFramed(id, c, env, kind, n, reason);
    assert Hook(id, c, env, kind, n, reason).c in Framed(id, c);
  }

  lemma ReturnFrame(id: SessionId, c: Case)
    ensures LoopFrame(id, c, PayoutReturned(id, c).c)
  {
    var p := ReversalPosting(SettlementReversal(id), c);
    PostingFrame(id, c, c.(journal := Recorded(c.journal, p)), p);
  }

  lemma ManualFrame(id: SessionId, c: Case, who: string)
    ensures LoopFrame(id, c, ManualSettle(id, c, who).c)
  {
    var p := ClaimPosting(ManualPayout(id), c);
    PostingFrame(id, c, c.(journal := Recorded(c.journal, p)), p);
  }

  lemma RetryFrame(id: SessionId, c: Case, corrected: Option<Destination>, confirmed: bool, admin: string)
    ensures LoopFrame(id, c, RetryPayout(id, c, corrected, confirmed, admin).c)
  {
    ReversedUpToFrame(id, c, |c.attempts|);
  }

  lemma ResolveFrame(id: SessionId, c: Case, index: nat, adj: Adjustment)
    ensures LoopFrame(id, c, ResolveReversal(id, c, index, adj).c)
  {
    var p := AdjustmentPosting(id, index, adj);
    PostingFrame(id, c, c.(journal := Recorded(c.journal, p)), p);
  }

  /** Every step but the worker's and a growing deposit leaves the amount and the fx posting alone. */
  lemma OpsFrame(id: SessionId, c: Case, ev: Event)
    requires !ev.Worker? && !ev.DepositGrows?
    ensures LoopFrame(id, c, Step(id, c, ev).c)
  {
    match ev
    case Callback(env, kind, n, reason) => HookFrame(id, c, env, kind, n, reason);
    case Retry(corrected, confirmed, admin) => RetryFrame(id, c, corrected, confirmed, admin);
    case PaidByHand(who) => ManualFrame(id, c, who);
    case Resolve(index, adj) => ResolveFrame(id, c, index, adj);
    case TimeoutSweep =>
    case BankMoves(_, _) =>
    case HandMoves(_) =>
  }

  /** A worker's run either stops before the conversion or dispatches from the converted state. */
  lemma WorkUnfolds(id: SessionId, c: Case, env: Env)
    requires c in Sound(id) && c.status == PendingDispatch
    ensures var e := Work(id, c, env);
            || (c.lock.Some? && e == DispatchAttempt(id, Converted(id, c), env))
            || e.c == c.(status := Dispatching)
            || e.c == c.(status := Dispatching, journal := Recorded(c.journal, DepositPosting(id, c)))
  {
    assert c.session in {SessionConfirmed, SessionSettling};
  }

  lemma ConvertedFrame(id: SessionId, c: Case)
    requires c.lock.Some? && c in Sound(id)
    ensures Frame(id, c, Converted(id, c))
    ensures Steady(id, c) ==> Steady(id, Converted(id, c))
  {
    var deposited := Recorded(c.journal, DepositPosting(id, c));
    PostingFrame(id, c, c.(journal := deposited), DepositPosting(id, c));
    assert FxConversion(id) in Keys(deposited) <==> FxConversion(id) in Keys(c.journal);
  }

  /** The worker keeps the frame, and with it the one fx amount. */
  lemma WorkerFrame(id: SessionId, c: Case, env: Env)
    requires c in Sound(id)
    ensures Frame(id, c, Work(id, c, env).c) && Work(id, c, env).c.confirmedTotal == c.confirmedTotal
    ensures Steady(id, c) ==> Steady(id, Work(id, c, env).c)
  {
    if c.status == PendingDispatch {
      WorkUnfolds(id, c, env);
      PostingFrame(id, c, c.(journal := Recorded(c.journal, DepositPosting(id, c))), DepositPosting(id, c));
      if c.lock.Some? && Work(id, c, env) == DispatchAttempt(id, Converted(id, c), env) {
        ConvertedFrame(id, c);
        DispatchFrame(id, Converted(id, c), env);
        ExtendsTransitive(id, c.journal, Converted(id, c).journal, Work(id, c, env).c.journal);
        DispatchedStays(id, Converted(id, c).journal, Work(id, c, env).c.journal);
      }
    }
  }

  lemma {:induction false} DispatchedStays(id: SessionId, j: Journal, j': Journal)
    requires Extends(id, j, j')
    ensures Keys(j) <= Keys(j')
  {
    if j' != j {
      DispatchedStays(id, j, j'.earlier);
    }
  }
}
