/** What a dispatch leaves for each answer of the provider, and how a settlement is given up. */
module DispatchOutcomes {
  import opened Common
  import opened Ledger
  import opened Settlement
  import opened SettlementInvariant
  import opened SettlementSteps
  import opened SettlementRuns
  import opened SettlementRetries

  /** A transaction is in the books. */
  predicate Has(j: Journal, p: Posting) {
    j.Then? && (j.last == p || Has(j.earlier, p))
  }

  lemma {:induction false} StillHas(id: SessionId, j: Journal, j': Journal, p: Posting)
    requires Extends(id, j, j') && Has(j, p)
    ensures Has(j', p)
  {
    if j' != j {
      StillHas(id, j, j'.earlier, p);
    }
  }

  /** A dispatch adds attempts behind those that were there. */
  lemma {:induction false} DispatchKeepsEarlier(id: SessionId, c: Case, env: Env)
    ensures c.attempts <= DispatchAttempt(id, c, env).c.attempts
    decreases 2 * RetryBudget(|c.attempts|) + 1
  {
    match Choose(Enabled(env), Tried(c.attempts))
    case None =>
    case Some(provider) =>
      var n := |c.attempts| + 1;
      var reply := env.replies(n);
      if Postable(ClaimPosting(Payout(id, n), c)) && Payout(id, n) !in Keys(c.journal) {
        DispatchUnfolds(id, c, env, provider);
        if Rejected(reply) {
          var terminal := reply.kind == RejectedTerminal;
          FailureKeepsEarlier(id, Called(id, c, provider, reply).(pending := None), env, n,
                              if terminal then 4 else 1, reply.reason, terminal);
        }
      }
  }

  /** A failure rewrites the attempt it names and adds others behind. */
  lemma {:induction false} FailureKeepsEarlier(id: SessionId, c: Case, env: Env, n: nat, bucket: nat, reason: string,
                                               terminal: bool)
    ensures var after := HandleAttemptFailure(id, c, env, n, bucket, reason, terminal).c.attempts;
            if IsDispatched(c, n) then MarkFailed(c, n, bucket, reason).attempts <= after else after == c.attempts
    decreases if n >= MAX_AUTO_RETRY_ATTEMPTS then 0 else 2 * RetryBudget(|c.attempts|) + 2
  {
    var reversal := ReversalPosting(AttemptReversal(id, n), c);
    if IsDispatched(c, n) && Postable(reversal) && !terminal && n < MAX_AUTO_RETRY_ATTEMPTS {
      DispatchKeepsEarlier(id, MarkFailed(c, n, bucket, reason).(journal := Recorded(c.journal, reversal)), env);
    }
  }

  /** The claim taken back: the operating account has the money again, and the tenant is owed it. */
  function TakenBack(key: Key, c: Case): Posting {
    Posting(key, Account(None, "treasury_fiat_operating", c.terms.currency),
            Account(Some(c.terms.tenant), "tenant_payable", c.terms.currency), c.amount, c.terms.currency)
  }

  /** The tenant is owed less, and the operating account has paid it. */
  function PaidOut(key: Key, c: Case): Posting {
    Posting(key, Account(Some(c.terms.tenant), "tenant_payable", c.terms.currency),
            Account(None, "treasury_fiat_operating", c.terms.currency), c.amount, c.terms.currency)
  }

  lemma ReversalIsPosted(id: SessionId, c: Case, env: Env, n: nat, bucket: nat, reason: string, terminal: bool)
    requires c in Sound(id) && IsDispatched(c, n) && !Live(c.attempts[n - 1].funds)
    ensures Has(HandleAttemptFailure(id, c, env, n, bucket, reason, terminal).c.journal,
                TakenBack(AttemptReversal(id, n), c))
  {
    FailureKeeps(id, c, n, bucket, reason);
    var reversal := ReversalPosting(AttemptReversal(id, n), c);
    var reversed := MarkFailed(c, n, bucket, reason).(journal := Then(c.journal, reversal));
    DispatchFrame(id, reversed, env);
    StillHas(id, reversed.journal, DispatchAttempt(id, reversed, env).c.journal, reversal);
  }

  // ----- the answers -----

  /** The provider whose turn it is gives this answer to the next attempt. */
  predicate Answers(c: Case, env: Env, provider: string, reply: Reply) {
    Choose(Enabled(env), Tried(c.attempts)) == Some(provider) && env.replies(|c.attempts| + 1) == reply
  }

  /** The next attempt as its row is left. */
  function NextAttempt(id: SessionId, c: Case, provider: string, reply: Reply, status: AttemptStatus,
                       reference: Option<string>, reason: Option<string>): Attempt {
    Attempt(provider, Payout(id, |c.attempts| + 1), status, reference, reason, ResolvedDestination(c),
            if reply.sent then InFlight else NotSent)
  }

  /**
   * An answer that is not a rejection ends the dispatch with one more attempt, open, and its claim in the books. An
   * accepted payout is found again by its reference; an uncertain one by the same, and ops are paged with the reason; a
   * call that failed leaves no reference, and keeps a pending destination for the next time.
   */
  lemma AnswerIsRecorded(id: SessionId, c: Case, env: Env, provider: string, reply: Reply)
    requires c in Rounds(id) && Answers(c, env, provider, reply) && !Rejected(reply)
    ensures var uncertain := reply.kind == Uncertain;
            var failed := reply.kind == CallFailed;
            DispatchAttempt(id, c, env)
            == Effect(c.(journal := Then(c.journal, PaidOut(Payout(id, |c.attempts| + 1), c)),
                         attempts := c.attempts
                         + [NextAttempt(id, c, provider, reply, Dispatched, if failed then None else reply.reference,
                                        if uncertain then Some(reply.reason) else None)],
                         pending := if failed then c.pending else None, opsPaged := c.opsPaged || uncertain),
                      if failed then DispatchCallFailed else Done)
  {
    ClaimKeeps(id, c, provider, reply);
    DispatchUnfolds(id, c, env, provider);
  }

  lemma RejectionFails(id: SessionId, c: Case, env: Env, n: nat, bucket: nat, reason: string, terminal: bool)
    requires c in Sound(id) && IsDispatched(c, n) && n == |c.attempts| && !Live(c.attempts[n - 1].funds)
    ensures var d := HandleAttemptFailure(id, c, env, n, bucket, reason, terminal).c;
            && MarkFailed(c, n, bucket, reason).attempts <= d.attempts
            && Has(d.journal, TakenBack(AttemptReversal(id, n), c))
            && (terminal || n >= 3 ==> |d.attempts| == n && d.status in {SettlementFailed, AwaitingManualPayout})
  {
    FailureKeepsEarlier(id, c, env, n, bucket, reason, terminal);
    ReversalIsPosted(id, c, env, n, bucket, reason, terminal);
    if terminal || n >= 3 {
      FailureKeeps(id, c, n, bucket, reason);
      var reversed := MarkFailed(c, n, bucket, reason)
        .(journal := Then(c.journal, ReversalPosting(AttemptReversal(id, n), c)));
      FailSettlementKeeps(id, reversed, env);
      assert HandleAttemptFailure(id, c, env, n, bucket, reason, terminal) == FailSettlement(reversed, env);
      GivenUp(reversed, env);
    }
  }

  /** A rejection is handled as the failure of the attempt that was just claimed. */
  lemma RejectionUnfolds(id: SessionId, c: Case, env: Env, provider: string, reply: Reply)
    requires c in Rounds(id) && HonestEnv(env) && Answers(c, env, provider, reply) && Rejected(reply)
    ensures var n, terminal := |c.attempts| + 1, reply.kind == RejectedTerminal;
            var called := Called(id, c, provider, reply).(pending := None);
            && called in Sound(id) && IsDispatched(called, n) && !Live(called.attempts[n - 1].funds)
            && DispatchAttempt(id, c, env)
               == HandleAttemptFailure(id, called, env, n, if terminal then 4 else 1, reply.reason, terminal)
  {
    var n := |c.attempts| + 1;
    assert Honest(env.replies(n));
    ClaimKeeps(id, c, provider, reply);
    DispatchUnfolds(id, c, env, provider);
    NotesDoNotMatter(id, Called(id, c, provider, reply), Called(id, c, provider, reply).(pending := None));
  }

  /**
   * A rejected attempt has failed, terminally in bucket 4 and otherwise in bucket 1, with the reason given; it was
   * claimed, and its claim was taken back. No attempt follows a terminal rejection, or a third attempt.
   */
  lemma RejectionIsRecorded(id: SessionId, c: Case, env: Env, provider: string, reply: Reply)
    requires c in Rounds(id) && HonestEnv(env) && Answers(c, env, provider, reply) && Rejected(reply)
    ensures var n := |c.attempts| + 1;
            var terminal := reply.kind == RejectedTerminal;
            var d := DispatchAttempt(id, c, env).c;
            && c.attempts + [NextAttempt(id, c, provider, reply, Failed(if terminal then 4 else 1), None,
                                         Some(reply.reason))] <= d.attempts
            && Has(d.journal, PaidOut(Payout(id, n), c)) && Has(d.journal, TakenBack(AttemptReversal(id, n), c))
            && (terminal || n >= 3 ==> |d.attempts| == n && d.status in {SettlementFailed, AwaitingManualPayout})
  {
    var n, terminal := |c.attempts| + 1, reply.kind == RejectedTerminal;
    var bucket := if terminal then 4 else 1;
    var called := Called(id, c, provider, reply).(pending := None);
    RejectionUnfolds(id, c, env, provider, reply);
    RejectionFails(id, called, env, n, bucket, reply.reason, terminal);
    assert MarkFailed(called, n, bucket, reply.reason).attempts
           == c.attempts + [NextAttempt(id, c, provider, reply, Failed(bucket), None, Some(reply.reason))];
    HandleFailureFrame(id, called, env, n, bucket, reply.reason, terminal);
    StillHas(id, called.journal, DispatchAttempt(id, c, env).c.journal, PaidOut(Payout(id, n), c));
  }

  // ----- whom to send to -----

  /** Bound to the corridor, registered, and enabled. */
  predicate IsEnabled(env: Env, provider: string) {
    provider in env.bindings && provider in env.registry && env.registry[provider]
  }

  lemma {:induction false} EnabledAreBound(bindings: seq<string>, registry: map<string, bool>, provider: string)
    ensures provider in EnabledAmong(bindings, registry) <==>
            provider in bindings && provider in registry && registry[provider]
  {
    if bindings != [] {
      EnabledAreBound(bindings[..|bindings| - 1], registry, provider);
      assert bindings == bindings[..|bindings| - 1] + [bindings[|bindings| - 1]];
    }
  }

  /** The first of the bindings that is enabled comes first. */
  lemma {:induction false} FirstEnabled(bindings: seq<string>, registry: map<string, bool>, i: nat)
    requires i < |bindings| && bindings[i] in registry && registry[bindings[i]]
    requires forall j | 0 <= j < i :: bindings[j] !in registry || !registry[bindings[j]]
    ensures EnabledAmong(bindings, registry) != [] && EnabledAmong(bindings, registry)[0] == bindings[i]
  {
    var before := bindings[..|bindings| - 1];
    if i < |before| {
      FirstEnabled(before, registry, i);
    } else {
      NoneEnabled(before, registry);
    }
  }

  lemma {:induction false} NoneEnabled(bindings: seq<string>, registry: map<string, bool>)
    requires forall j | 0 <= j < |bindings| :: bindings[j] !in registry || !registry[bindings[j]]
    ensures EnabledAmong(bindings, registry) == []
  {
    if bindings != [] {
      NoneEnabled(bindings[..|bindings| - 1], registry);
    }
  }

  /**
   * The choice is an enabled provider, untried as long as there is one, and the first in priority once all were tried;
   * there is none exactly when nobody is enabled.
   */
  lemma ChoiceIsEnabled(env: Env, tried: set<string>)
    ensures var choice := Choose(Enabled(env), tried);
            && (choice == None <==> forall p :: !IsEnabled(env, p))
            && (choice.Some? ==> IsEnabled(env, choice.value))
            && (choice.Some? && choice.value in tried ==> forall p | IsEnabled(env, p) :: p in tried)
            && (forall i | 0 <= i < |env.bindings| && IsEnabled(env, env.bindings[i])
                           && (forall j | 0 <= j < i :: !IsEnabled(env, env.bindings[j]))
                           && (env.bindings[i] !in tried || forall p | IsEnabled(env, p) :: p in tried) ::
                  choice == Some(env.bindings[i]))
  {
    forall p ensures p in Enabled(env) <==> IsEnabled(env, p) {
      EnabledAreBound(env.bindings, env.registry, p);
    }
    forall i | 0 <= i < |env.bindings| && IsEnabled(env, env.bindings[i])
               && (forall j | 0 <= j < i :: !IsEnabled(env, env.bindings[j]))
               && (env.bindings[i] !in tried || forall p | IsEnabled(env, p) :: p in tried)
      ensures Choose(Enabled(env), tried) == Some(env.bindings[i])
    {
      FirstEnabled(env.bindings, env.registry, i);
    }
    if Enabled(env) != [] {
      assert IsEnabled(env, Enabled(env)[0]);
    }
  }

  // ----- giving up -----

  /** Whom ops could pay by hand. */
  predicate HasAccount(d: Destination) {
    d.Bank? && d.accountNumber != ""
  }

  /** Parked for ops exactly when they were told, and told whom to pay; failed otherwise, and paged either way. */
  predicate GivenUpAs(s: Case, env: Env) {
    && s.opsPaged
    && s.status == if env.telegramOn && env.alertDelivered && HasAccount(ResolvedDestination(s))
                   then AwaitingManualPayout else SettlementFailed
  }

  lemma GivenUp(c: Case, env: Env)
    requires c.status == Settling
    ensures GivenUpAs(FailSettlement(c, env).c, env)
  {
  }

  lemma {:induction false} DispatchGivesUp(id: SessionId, c: Case, env: Env)
    requires c.status == Settling
    ensures var d := DispatchAttempt(id, c, env).c;
            d.status != Settling ==> GivenUpAs(d, env)
    decreases 2 * RetryBudget(|c.attempts|) + 1
  {
    match Choose(Enabled(env), Tried(c.attempts))
    case None => GivenUp(c, env);
    case Some(provider) =>
      var n := |c.attempts| + 1;
      var reply := env.replies(n);
      if Postable(ClaimPosting(Payout(id, n), c)) && Payout(id, n) !in Keys(c.journal) {
        DispatchUnfolds(id, c, env, provider);
        if Rejected(reply) {
          var terminal := reply.kind == RejectedTerminal;
          FailureGivesUp(id, Called(id, c, provider, reply).(pending := None), env, n,
                         if terminal then 4 else 1, reply.reason, terminal);
        }
      }
  }

  lemma {:induction false} FailureGivesUp(id: SessionId, c: Case, env: Env, n: nat, bucket: nat, reason: string,
                                          terminal: bool)
    requires c.status == Settling
    ensures var d := HandleAttemptFailure(id, c, env, n, bucket, reason, terminal).c;
            d.status != Settling ==> GivenUpAs(d, env)
    decreases if n >= MAX_AUTO_RETRY_ATTEMPTS then 0 else 2 * RetryBudget(|c.attempts|) + 2
  {
    var reversal := ReversalPosting(AttemptReversal(id, n), c);
    if IsDispatched(c, n) && Postable(reversal) {
      var reversed := MarkFailed(c, n, bucket, reason).(journal := Recorded(c.journal, reversal));
      if terminal || n >= MAX_AUTO_RETRY_ATTEMPTS {
        GivenUp(reversed, env);
      } else {
        DispatchGivesUp(id, reversed, env);
      }
    }
  }

  /** A step that can hand a payout over to a human, with ops told of it. */
  predicate Tells(ev: Event) {
    match ev
    case Worker(env) => env.telegramOn && env.alertDelivered
    case Callback(env, _, _, _) => env.telegramOn && env.alertDelivered
    case _ => false
  }

  predicate GivenUpStatus(status: Status) {
    status in {SettlementFailed, AwaitingManualPayout}
  }

  lemma WorkGivesUp(id: SessionId, s: Case, env: Env)
    requires s in Sound(id) && !GivenUpStatus(s.status) && GivenUpStatus(Work(id, s, env).c.status)
    ensures GivenUpAs(Work(id, s, env).c, env)
  {
    WorkUnfolds(id, s, env);
    if s.lock.Some? {
      DispatchGivesUp(id, Converted(id, s), env);
    }
  }

  lemma HookGivesUp(id: SessionId, s: Case, env: Env, kind: HookKind, n: nat, reason: string)
    requires s in Sound(id) && !GivenUpStatus(s.status)
    requires GivenUpStatus(Hook(id, s, env, kind, n, reason).c.status)
    ensures GivenUpAs(Hook(id, s, env, kind, n, reason).c, env)
  {
    if 1 <= n <= |s.attempts| {
      StatusOfAttempt(id, s, n);
      if s.status == Settling {
        FailureGivesUp(id, s, env, n, 2, reason, false);
      }
    }
  }

  /** Only a worker's run or a callback gives up. */
  lemma StepGivesUp(id: SessionId, s: Case, ev: Event)
    requires s in Sound(id) && !GivenUpStatus(s.status) && GivenUpStatus(Step(id, s, ev).c.status)
    ensures ev.Worker? || ev.Callback?
    ensures GivenUpAs(Step(id, s, ev).c, ev.env)
  {
    match ev
    case Worker(env) => WorkGivesUp(id, s, env);
    case Callback(env, kind, n, reason) => HookGivesUp(id, s, env, kind, n, reason);
    case _ =>
  }

  lemma HookLeavesParked(id: SessionId, s: Case, env: Env, kind: HookKind, n: nat, reason: string)
    requires s in Sound(id) && GivenUpStatus(s.status)
    ensures Hook(id, s, env, kind, n, reason).c == s
  {
    if 1 <= n <= |s.attempts| {
      StatusOfAttempt(id, s, n);
    }
  }

  lemma BankLeavesDestination(s: Case, n: nat, to: Funds)
    ensures ResolvedDestination(BankStep(s, n, to)) == ResolvedDestination(s)
  {
    LatestPayloadIgnoresNotes(s.attempts, BankStep(s, n, to).attempts);
  }

  /** A parked settlement stays parked with whom to pay, or is taken up again. */
  lemma ParkedStays(id: SessionId, s: Case, ev: Event)
    requires s in Sound(id) && s.status == AwaitingManualPayout
    requires Step(id, s, ev).c.status == AwaitingManualPayout
    ensures ResolvedDestination(Step(id, s, ev).c) == ResolvedDestination(s)
  {
    match ev
    case Callback(env, kind, n, reason) => HookLeavesParked(id, s, env, kind, n, reason);
    case BankMoves(n, to) => BankLeavesDestination(s, n, to);
    case Resolve(_, _) => assert s.reversals == [];
    case Worker(_) =>
    case Retry(_, _, _) =>
    case PaidByHand(_) =>
    case TimeoutSweep =>
    case HandMoves(_) =>
    case DepositGrows(_) =>
  }

  lemma FailedIsNotParked(id: SessionId, s: Case, ev: Event)
    requires s in Sound(id) && s.status == SettlementFailed
    ensures Step(id, s, ev).c.status != AwaitingManualPayout
  {
    if ev.Callback? {
      HookLeavesParked(id, s, ev.env, ev.kind, ev.attempt, ev.reason);
    }
  }

  /** In the k-th step ops were told of a payout that was just given up. */
  predicate ToldAt(id: SessionId, c: Case, evs: seq<Event>, k: nat) {
    k < |evs| && Tells(evs[k]) && !GivenUpStatus(After(id, c, evs[..k]).status)
  }

  ghost predicate Told(id: SessionId, c: Case, evs: seq<Event>) {
    exists k: nat :: ToldAt(id, c, evs, k)
  }

  lemma ToldBefore(id: SessionId, c: Case, evs: seq<Event>)
    requires evs != [] && Told(id, c, evs[..|evs| - 1])
    ensures Told(id, c, evs)
  {
    var before := evs[..|evs| - 1];
    var k: nat :| ToldAt(id, c, before, k);
    assert before[..k] == evs[..k];
    assert ToldAt(id, c, evs, k);
  }

  lemma ParkedByStep(id: SessionId, c: Case, evs: seq<Event>)
    requires evs != [] && After(id, c, evs[..|evs| - 1]) in Sound(id)
    requires After(id, c, evs[..|evs| - 1]).status != AwaitingManualPayout == After(id, c, evs).status
    ensures HasAccount(ResolvedDestination(After(id, c, evs))) && Told(id, c, evs)
  {
    var last := |evs| - 1;
    var s := After(id, c, evs[..last]);
    if s.status == SettlementFailed {
      FailedIsNotParked(id, s, evs[last]);
    }
    StepGivesUp(id, s, evs[last]);
    assert ToldAt(id, c, evs, last);
  }

  /**
   * In every run a settlement that waits for a payment by hand has an account that can be paid, and ops were told of it
   * in the step that gave up.
   */
  lemma {:induction false} ParkedMeansToldWhomToPay(id: SessionId, c: Case, evs: seq<Event>)
    requires Initial(c) && TruthfulRun(id, c, evs) && After(id, c, evs).status == AwaitingManualPayout
    ensures HasAccount(ResolvedDestination(After(id, c, evs))) && Told(id, c, evs)
  {
    if evs == [] {
      assert false;
    } else {
      var last := |evs| - 1;
      RunIsSound(id, c, evs[..last]);
      if After(id, c, evs[..last]).status == AwaitingManualPayout {
        ParkedMeansToldWhomToPay(id, c, evs[..last]);
        ToldBefore(id, c, evs);
        ParkedStays(id, After(id, c, evs[..last]), evs[last]);
      } else {
        ParkedByStep(id, c, evs);
      }
    }
  }

  /** And whenever a step gives up, the way it does follows from what ops were told. */
  lemma GivesUpAsTold(id: SessionId, c: Case, evs: seq<Event>, ev: Event)
    requires Initial(c) && TruthfulRun(id, c, evs) && !GivenUpStatus(After(id, c, evs).status)
    requires GivenUpStatus(Step(id, After(id, c, evs), ev).c.status)
    ensures var s := Step(id, After(id, c, evs), ev).c;
            && s.opsPaged
            && (s.status == AwaitingManualPayout <==> Tells(ev) && HasAccount(ResolvedDestination(s)))
  {
    RunIsSound(id, c, evs);
    StepGivesUp(id, After(id, c, evs), ev);
  }
}
