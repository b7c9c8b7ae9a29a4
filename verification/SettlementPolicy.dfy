/** Retry policy over whole runs: amounts, releases, budgets, failover order and destinations. */
module SettlementPolicy {
  import opened Common
  import opened Ledger
  import opened Settlement
  import opened SettlementInvariant
  import opened SettlementSteps
  import opened SettlementRuns

  // ----- a fixed amount -----

  lemma OwedOnceDispatched(id: SessionId, s: Case)
    requires s in Sound(id)
    ensures Owed(s.journal) > 0.0 <==> FirstDispatched(id, s)
  {
  }

  lemma OpsStaySteady(id: SessionId, s: Case, s': Case)
    requires s in Sound(id) && s' in Sound(id) && LoopFrame(id, s, s') && Steady(id, s)
    ensures Steady(id, s')
  {
    OwedOnceDispatched(id, s);
    OwedOnceDispatched(id, s');
  }

  lemma StepIsSteady(id: SessionId, s: Case, ev: Event)
    requires s in Sound(id) && Truthful(s, ev) && Steady(id, s) && !ev.DepositGrows?
    ensures var s' := Step(id, s, ev).c;
            Steady(id, s') && s'.confirmedTotal == s.confirmedTotal && s'.terms == s.terms && s'.lock == s.lock
  {
    if ev.Worker? {
      WorkerFrame(id, s, ev.env);
    } else {
      OpsFrame(id, s, ev);
      StepKeeps(id, s, ev);
      OpsStaySteady(id, s, Step(id, s, ev).c);
    }
  }

  predicate NoDepositGrows(evs: seq<Event>) {
    forall i | 0 <= i < |evs| :: !evs[i].DepositGrows?
  }

  lemma {:induction false} RunIsSteady(id: SessionId, c: Case, evs: seq<Event>)
    requires Initial(c) && TruthfulRun(id, c, evs) && NoDepositGrows(evs)
    ensures Steady(id, After(id, c, evs))
    ensures After(id, c, evs).terms == c.terms && After(id, c, evs).lock == c.lock
    ensures After(id, c, evs).confirmedTotal == c.confirmedTotal
  {
    if evs != [] {
      var before := evs[..|evs| - 1];
      RunIsSteady(id, c, before);
      RunIsSound(id, c, before);
      StepIsSteady(id, After(id, c, before), evs[|evs| - 1]);
    }
  }

  /** The two contributions of a session whose fx posting and claims carry one amount. */
  lemma LedgerOfSteady(id: SessionId, s: Case)
    requires s in Sound(id) && Steady(id, s) && FirstDispatched(id, s)
    ensures var paidOut := if s.status in {Settling, Settled} then s.amount else 0.0;
            && Contribution(s.journal, TenantPayable(s.terms)) == paidOut - s.amount
            && Contribution(s.journal, FiatOperating(s.terms)) == -paidOut
            && s.lock.Some? && s.amount == LockedValue(s.confirmedTotal, s.lock.value)
  {
  }

  lemma LedgerOfUndispatched(id: SessionId, s: Case)
    requires s in Sound(id) && !FirstDispatched(id, s)
    ensures Contribution(s.journal, TenantPayable(s.terms)) == 0.0 == Contribution(s.journal, FiatOperating(s.terms))
  {
  }

  /** With the deposit fixed at a value V: the tenant is owed V, or nothing while V is being or has been paid out. */
  lemma FixedAmountLedger(id: SessionId, c: Case, evs: seq<Event>)
    requires Initial(c) && TruthfulRun(id, c, evs) && NoDepositGrows(evs)
    ensures var s := After(id, c, evs);
            var payable := Contribution(s.journal, TenantPayable(c.terms));
            var operating := Contribution(s.journal, FiatOperating(c.terms));
            if !FirstDispatched(id, s) then payable == operating == 0.0
            else
              && c.lock.Some?
              && var value := LockedValue(c.confirmedTotal, c.lock.value);
              if s.status in {Settling, Settled} then payable == 0.0 && operating == -value
              else payable == -value && operating == 0.0
  {
    var s := After(id, c, evs);
    RunIsSteady(id, c, evs);
    RunIsSound(id, c, evs);
    if FirstDispatched(id, s) {
      LedgerOfSteady(id, s);
    } else {
      LedgerOfUndispatched(id, s);
    }
  }

  lemma StepFrame(id: SessionId, s: Case, ev: Event)
    requires s in Sound(id)
    ensures Frame(id, s, Step(id, s, ev).c)
  {
    if ev.Worker? {
      WorkerFrame(id, s, ev.env);
    } else if !ev.DepositGrows? {
      OpsFrame(id, s, ev);
    }
  }

  lemma {:induction false} RunFrame(id: SessionId, c: Case, evs: seq<Event>)
    requires Initial(c) && TruthfulRun(id, c, evs)
    ensures Frame(id, c, After(id, c, evs))
  {
    if evs != [] {
      var before := evs[..|evs| - 1];
      var s := After(id, c, before);
      RunFrame(id, c, before);
      RunIsSound(id, c, before);
      StepFrame(id, s, evs[|evs| - 1]);
      ExtendsTransitive(id, c.journal, s.journal, Step(id, s, evs[|evs| - 1]).c.journal);
    }
  }

  // ----- the first two postings -----

  /** The deposit and its conversion, with the total that was confirmed when they were made. */
  function FirstPostings(id: SessionId, terms: Terms, total: real, lock: Lock): Journal {
    Then(Then(Empty, Posting(DepositConfirmed(id), Account(None, "treasury_in_transit", terms.asset),
                             Account(None, "crypto_fx_clearing", terms.asset), total, terms.asset)),
         Posting(FxConversion(id), Account(None, "fiat_fx_clearing", terms.currency),
                 Account(Some(terms.tenant), "tenant_payable", terms.currency), total * lock.price * lock.rate,
                 terms.currency))
  }

  /** The total that was confirmed when the first conversion was made. */
  function ConvertedTotal(id: SessionId, c: Case, evs: seq<Event>): real {
    if evs == [] then 0.0
    else
      var before := evs[..|evs| - 1];
      if FirstDispatched(id, After(id, c, before)) then ConvertedTotal(id, c, before)
          else After(id, c, before).confirmedTotal
  }

  /** Before a conversion nothing is posted, or the settlement is stuck with a deposit that could not be converted. */
  ghost predicate BooksUnopened(id: SessionId, s: Case) {
    !FirstDispatched(id, s) && (s.journal == Empty || s.status == Dispatching)
  }

  lemma OthersLeaveUnopened(id: SessionId, s: Case, ev: Event)
    requires s in Sound(id) && Truthful(s, ev) && BooksUnopened(id, s) && !ev.Worker?
    ensures Step(id, s, ev).c.journal == s.journal && Step(id, s, ev).c.status == s.status
  {
    assert s.attempts == [] && s.reversals == [] && s.status in {PendingDispatch, Dispatching};
    match ev
    case Callback(_, _, _, _) =>
    case Retry(_, _, _) =>
    case PaidByHand(_) =>
    case TimeoutSweep =>
    case Resolve(_, _) =>
    case BankMoves(_, _) =>
    case HandMoves(_) =>
    case DepositGrows(_) =>
  }

  /** The worker opens the books with both postings at once, or gets stuck. */
  lemma WorkerOpens(id: SessionId, s: Case, env: Env)
    requires s in Sound(id) && HonestEnv(env) && BooksUnopened(id, s)
    ensures var s' := Work(id, s, env).c;
            || BooksUnopened(id, s')
            || (s.lock.Some? && FirstDispatched(id, s')
                && Extends(id, FirstPostings(id, s.terms, s.confirmedTotal, s.lock.value), s'.journal))
  {
    if s.status == PendingDispatch {
      if Convertible(id, s) {
        WorkDispatches(id, s, env);
        DispatchFrame(id, Converted(id, s), env);
        assert Converted(id, s).journal == FirstPostings(id, s.terms, s.confirmedTotal, s.lock.value);
        DispatchedStays(id, Converted(id, s).journal, Work(id, s, env).c.journal);
      } else {
        WorkStopsUnopened(id, s, env);
      }
    }
  }

  lemma WorkStopsUnopened(id: SessionId, s: Case, env: Env)
    requires s in Sound(id) && s.status == PendingDispatch && !Convertible(id, s) && BooksUnopened(id, s)
    ensures BooksUnopened(id, Work(id, s, env).c)
  {
    assert s.journal == Empty && s.session == SessionConfirmed;
  }

  /** What one step makes of the books. */
  lemma StepKeepsBooks(id: SessionId, s: Case, ev: Event)
    requires s in Sound(id) && Truthful(s, ev)
    ensures var s' := Step(id, s, ev).c;
            && (FirstDispatched(id, s) ==> FirstDispatched(id, s') && Extends(id, s.journal, s'.journal))
            && (BooksUnopened(id, s) ==>
                  || BooksUnopened(id, s')
                  || (s.lock.Some? && FirstDispatched(id, s')
                      && Extends(id, FirstPostings(id, s.terms, s.confirmedTotal, s.lock.value), s'.journal)))
  {
    StepFrame(id, s, ev);
    if FirstDispatched(id, s) {
      DispatchedStays(id, s.journal, Step(id, s, ev).c.journal);
    } else if BooksUnopened(id, s) {
      if ev.Worker? {
        WorkerOpens(id, s, ev.env);
      } else {
        OthersLeaveUnopened(id, s, ev);
      }
    }
  }

  lemma {:induction false} BooksOpenOnce(id: SessionId, c: Case, evs: seq<Event>)
    requires Initial(c) && TruthfulRun(id, c, evs)
    ensures var s := After(id, c, evs);
            || BooksUnopened(id, s)
            || (c.lock.Some? && FirstDispatched(id, s)
                && Extends(id, FirstPostings(id, c.terms, ConvertedTotal(id, c, evs), c.lock.value), s.journal))
  {
    if evs != [] {
      var before := evs[..|evs| - 1];
      var s := After(id, c, before);
      BooksOpenOnce(id, c, before);
      RunIsSound(id, c, before);
      RunFrame(id, c, before);
      StepKeepsBooks(id, s, evs[|evs| - 1]);
      if FirstDispatched(id, s) {
        ExtendsTransitive(id, FirstPostings(id, c.terms, ConvertedTotal(id, c, before), c.lock.value), s.journal,
                          After(id, c, evs).journal);
      }
    }
  }

  lemma {:induction false} ConvertedTotalIsFixed(id: SessionId, c: Case, evs: seq<Event>)
    requires Initial(c) && TruthfulRun(id, c, evs) && NoDepositGrows(evs) && FirstDispatched(id, After(id, c, evs))
    ensures ConvertedTotal(id, c, evs) == c.confirmedTotal
  {
    if evs == [] {
      assert false;
    } else {
      var before := evs[..|evs| - 1];
      if FirstDispatched(id, After(id, c, before)) {
        ConvertedTotalIsFixed(id, c, before);
      } else {
        RunIsSteady(id, c, before);
      }
    }
  }

  /**
   * However many retries run, no key is posted twice. From the first dispatch on the books begin with the one deposit
   * posting and the one conversion, both for the total confirmed at that moment, which is the total of the start unless
   * the deposit grew; and everything after them was posted under this session's keys.
   */
  lemma EveryKeyPostedOnce(id: SessionId, c: Case, evs: seq<Event>)
    requires Initial(c) && TruthfulRun(id, c, evs)
    ensures var s := After(id, c, evs);
            && Distinct(s.journal) && Extends(id, Empty, s.journal)
            && (FirstDispatched(id, s) ==>
                  && c.lock.Some?
                  && Extends(id, FirstPostings(id, c.terms, ConvertedTotal(id, c, evs), c.lock.value), s.journal)
                  && (NoDepositGrows(evs) ==> ConvertedTotal(id, c, evs) == c.confirmedTotal))
            && (!FirstDispatched(id, s) ==> s.journal == Empty || s.status == Dispatching)
  {
    RunFrame(id, c, evs);
    BooksOpenOnce(id, c, evs);
    if FirstDispatched(id, After(id, c, evs)) && NoDepositGrows(evs) {
      ConvertedTotalIsFixed(id, c, evs);
    }
  }

  // ----- the deposit address -----

  lemma {:induction false} DispatchReleases(id: SessionId, c: Case, env: Env)
    ensures var c' := DispatchAttempt(id, c, env).c;
            c'.reservation == c.reservation || (c'.reservation == Released && c'.status == SettlementFailed)
    decreases 2 * RetryBudget(|c.attempts|) + 1
  {
    match Choose(Enabled(env), Tried(c.attempts))
    case None =>
    case Some(provider) =>
      var n := |c.attempts| + 1;
      var reply := env.replies(n);
      if Postable(ClaimPosting(Payout(id, n), c)) && Payout(id, n) !in Keys(c.journal) {
        DispatchUnfolds(id, c, env, provider);
        if Rejected(reply) {
          var terminal := reply.kind == RejectedTerminal;
          HandleFailureReleases(id, Called(id, c, provider, reply).(pending := None), env, n,
                                if terminal then 4 else 1, reply.reason, terminal);
        }
      }
  }

  lemma {:induction false} HandleFailureReleases(id: SessionId, c: Case, env: Env, n: nat, bucket: nat,
                                                 reason: string, terminal: bool)
    ensures var c' := HandleAttemptFailure(id, c, env, n, bucket, reason, terminal).c;
            c'.reservation == c.reservation || (c'.reservation == Released && c'.status == SettlementFailed)
    decreases if n >= MAX_AUTO_RETRY_ATTEMPTS then 0 else 2 * RetryBudget(|c.attempts|) + 2
  {
    var reversal := ReversalPosting(AttemptReversal(id, n), c);
    if IsDispatched(c, n) && Postable(reversal) && !terminal && n < MAX_AUTO_RETRY_ATTEMPTS {
      DispatchReleases(id, MarkFailed(c, n, bucket, reason).(journal := Recorded(c.journal, reversal)), env);
    }
  }

  predicate Terminal(s: Status) {
    s in {Settled, SettlementFailed}
  }

  lemma HookReleases(id: SessionId, c: Case, env: Env, kind: HookKind, n: nat, reason: string)
    ensures var c' := Hook(id, c, env, kind, n, reason).c;
            c'.reservation == c.reservation || (c'.reservation == Released && Terminal(c'.status))
  {
    if kind in {HookFailed, HookReversed} {
      HandleFailureReleases(id, c, env, n, 2, reason, false);
    }
  }

  lemma StepReleases(id: SessionId, c: Case, ev: Event)
    requires c in Sound(id)
    ensures var c' := Step(id, c, ev).c;
            c'.reservation == c.reservation || (c'.reservation == Released && Terminal(c'.status))
  {
    match ev
    case Worker(env) =>
      if c.status == PendingDispatch {
        WorkUnfolds(id, c, env);
        if c.lock.Some? {
          DispatchReleases(id, Converted(id, c), env);
        }
      }
    case Callback(env, kind, n, reason) => HookReleases(id, c, env, kind, n, reason);
    case _ =>
  }

  /** Whether the settlement has been settled or settlement_failed at the start or after some step. */
  predicate EverTerminal(id: SessionId, c: Case, evs: seq<Event>) {
    Terminal(After(id, c, evs).status) || (evs != [] && EverTerminal(id, c, evs[..|evs| - 1]))
  }

  /** The address is released exactly when the settlement has at some point been settled or settlement_failed. */
  lemma {:induction false} ReleasedExactlyOnceTerminal(id: SessionId, c: Case, evs: seq<Event>)
    requires Initial(c) && TruthfulRun(id, c, evs)
    ensures After(id, c, evs).reservation == Released <==> EverTerminal(id, c, evs)
  {
    if evs != [] {
      var before := evs[..|evs| - 1];
      var s := After(id, c, before);
      ReleasedExactlyOnceTerminal(id, c, before);
      RunIsSound(id, c, before);
      StepReleases(id, s, evs[|evs| - 1]);
      StepKeeps(id, s, evs[|evs| - 1]);
      TerminalIsReleased(id, Step(id, s, evs[|evs| - 1]).c);
    }
  }

  lemma TerminalIsReleased(id: SessionId, s: Case)
    requires s in Sound(id)
    ensures Terminal(s.status) ==> s.reservation == Released
  {
  }
}
