/** How often, to whom and where a session's settlement dispatches over a whole run. */
module SettlementRetries {
  import opened Common
  import opened Ledger
  import opened Settlement
  import opened SettlementInvariant
  import opened SettlementSteps
  import opened SettlementRuns
  import opened SettlementPolicy

  // ----- budget -----

  /** Ops retries that were accepted in a run. */
  function Retries(id: SessionId, c: Case, evs: seq<Event>): nat {
    if evs == [] then 0
    else
      var before, ev := evs[..|evs| - 1], evs[|evs| - 1];
      Retries(id, c, before) + (if ev.Retry? && Step(id, After(id, c, before), ev).outcome == Done then 1 else 0)
  }

  /** Attempts made so far, with room for one more kept while the row waits to be dispatched. */
  predicate WithinBudget(id: SessionId, s: Case, retries: nat) {
    && |s.attempts| <= MAX_AUTO_RETRY_ATTEMPTS + retries + (if ManualPayout(id) in Keys(s.journal) then 1 else 0)
    && (s.status == PendingDispatch ==> |s.attempts| < MAX_AUTO_RETRY_ATTEMPTS + retries)
  }

  lemma {:induction false} DispatchStatus(id: SessionId, c: Case, env: Env)
    requires c.status == Settling
    ensures DispatchAttempt(id, c, env).c.status in {Settling, SettlementFailed, AwaitingManualPayout}
    decreases 2 * RetryBudget(|c.attempts|) + 1
  {
    match Choose(Enabled(env), Tried(c.attempts))
    case None =>
    case Some(provider) =>
      var n := |c.attempts| + 1;
      var reply := env.replies(n);
      if Postable(ClaimPosting(Payout(id, n), c)) && Payout(id, n) !in Keys(c.journal) {
        DispatchUnfolds(id, c, env, provider);
        if Rejected(reply) {
          var terminal := reply.kind == RejectedTerminal;
          HandleFailureStatus(id, Called(id, c, provider, reply).(pending := None), env, n,
                              if terminal then 4 else 1, reply.reason, terminal);
        }
      }
  }

  lemma {:induction false} HandleFailureStatus(id: SessionId, c: Case, env: Env, n: nat, bucket: nat, reason: string,
                                               terminal: bool)
    requires c.status == Settling
    ensures HandleAttemptFailure(id, c, env, n, bucket, reason, terminal).c.status
            in {Settling, SettlementFailed, AwaitingManualPayout}
    decreases if n >= MAX_AUTO_RETRY_ATTEMPTS then 0 else 2 * RetryBudget(|c.attempts|) + 2
  {
    var reversal := ReversalPosting(AttemptReversal(id, n), c);
    if IsDispatched(c, n) && Postable(reversal) && !terminal && n < MAX_AUTO_RETRY_ATTEMPTS {
      DispatchStatus(id, MarkFailed(c, n, bucket, reason).(journal := Recorded(c.journal, reversal)), env);
    }
  }

  /** A worker's run leaves the queue. */
  lemma WorkLeavesQueue(id: SessionId, c: Case, env: Env)
    requires c in Sound(id) && c.status == PendingDispatch
    ensures Work(id, c, env).c.status in {Dispatching, Settling, SettlementFailed, AwaitingManualPayout}
  {
    WorkUnfolds(id, c, env);
    if c.lock.Some? {
      DispatchStatus(id, Converted(id, c), env);
    }
  }

  /** No callback puts a settlement into the queue. */
  lemma HookKeepsQueue(id: SessionId, c: Case, env: Env, kind: HookKind, n: nat, reason: string)
    requires c in Sound(id)
    ensures var c' := Hook(id, c, env, kind, n, reason).c;
            c'.status == PendingDispatch ==> c' == c
  {
    if c.status == Settling && kind in {HookFailed, HookReversed} {
      HandleFailureStatus(id, c, env, n, 2, reason, false);
    }
    if 1 <= n <= |c.attempts| {
      StatusOfAttempt(id, c, n);
    }
  }

  lemma OthersKeepQueue(id: SessionId, s: Case, ev: Event)
    requires s in Sound(id) && Truthful(s, ev) && !ev.Worker? && !ev.Callback?
    ensures var e := Step(id, s, ev);
            && ((e.outcome == Done && ev.Retry?) || (e.c.status == PendingDispatch ==> s.status == PendingDispatch))
            && |e.c.attempts| == |s.attempts| + (if ev.PaidByHand? && e.outcome == Done then 1 else 0)
  {
    match ev
    case Retry(corrected, confirmed, admin) => RetryKeeps(id, s, corrected, confirmed, admin);
    case PaidByHand(who) => ManualKeeps(id, s, who);
    case Resolve(index, adj) => ResolveKeeps(id, s, index, adj);
    case TimeoutSweep =>
    case BankMoves(_, _) =>
    case HandMoves(_) =>
    case DepositGrows(_) =>
  }

  /** A retry is only accepted where no payout was made by hand; a payment by hand claims its own key. */
  lemma HandAndRetry(id: SessionId, s: Case, ev: Event)
    requires s in Sound(id) && Truthful(s, ev) && Step(id, s, ev).outcome == Done
    ensures ev.PaidByHand? ==>
            ManualPayout(id) in Keys(Step(id, s, ev).c.journal) && ManualPayout(id) !in Keys(s.journal)
    ensures ev.Retry? ==> ManualPayout(id) !in Keys(s.journal)
  {
    if ev.PaidByHand? {
      ManualKeeps(id, s, ev.settledBy);
    }
  }

  lemma StepWithinBudget(id: SessionId, s: Case, ev: Event, retries: nat)
    requires s in Sound(id) && Truthful(s, ev) && WithinBudget(id, s, retries)
    ensures var e := Step(id, s, ev);
            WithinBudget(id, e.c, if ev.Retry? && e.outcome == Done then retries + 1 else retries)
  {
    var e := Step(id, s, ev);
    StepFrame(id, s, ev);
    DispatchedStays(id, s.journal, e.c.journal);
    if ev.Worker? {
      WorkKeeps(id, s, ev.env);
      if s.status == PendingDispatch {
        WorkLeavesQueue(id, s, ev.env);
      }
    } else if ev.Callback? {
      HookKeeps(id, s, ev.env, ev.kind, ev.attempt, ev.reason);
      HookKeepsQueue(id, s, ev.env, ev.kind, ev.attempt, ev.reason);
    } else {
      OthersKeepQueue(id, s, ev);
      if e.outcome == Done {
        HandAndRetry(id, s, ev);
      }
    }
  }

  /** At most three automatic attempts, one more per accepted ops retry, and one payment by hand. */
  lemma {:induction false} AttemptBudget(id: SessionId, c: Case, evs: seq<Event>)
    requires Initial(c) && TruthfulRun(id, c, evs)
    ensures WithinBudget(id, After(id, c, evs), Retries(id, c, evs))
  {
    if evs != [] {
      var before := evs[..|evs| - 1];
      AttemptBudget(id, c, before);
      RunIsSound(id, c, before);
      StepWithinBudget(id, After(id, c, before), evs[|evs| - 1], Retries(id, c, before));
    }
  }

  // ----- failover order -----

  predicate Unrepeated(names: seq<string>) {
    forall i, j | 0 <= i < j < |names| :: names[i] != names[j]
  }

  /** Attempt n goes to the n-th enabled provider while there is one, later attempts to the first. */
  function ProviderOf(enabled: seq<string>, n: nat): string
    requires enabled != [] && n > 0
  {
    if n <= |enabled| then enabled[n - 1] else enabled[0]
  }

  predicate InFailoverOrder(attempts: seq<Attempt>, enabled: seq<string>) {
    forall i | 0 <= i < |attempts| && attempts[i].key.Payout? ::
      enabled != [] && attempts[i].provider == ProviderOf(enabled, i + 1)
  }

  predicate Automatic(attempts: seq<Attempt>) {
    forall i | 0 <= i < |attempts| :: attempts[i].key.Payout?
  }

  /** The choice follows from how many attempts were made, since they took the providers in turn. */
  lemma ChoiceFollowsOrder(attempts: seq<Attempt>, enabled: seq<string>)
    requires enabled != [] && Unrepeated(enabled) && Automatic(attempts) && InFailoverOrder(attempts, enabled)
    ensures Choose(enabled, Tried(attempts)) == Some(ProviderOf(enabled, |attempts| + 1))
  {
    var i := FirstUntried(enabled, Tried(attempts));
    forall j | 0 <= j < |attempts| && j < |enabled| ensures enabled[j] in Tried(attempts) {
      assert attempts[j].provider == enabled[j];
    }
    if |attempts| < |enabled| {
      assert enabled[|attempts|] !in Tried(attempts) by {
        forall j | 0 <= j < |attempts| ensures attempts[j].provider != enabled[|attempts|] {
          assert attempts[j].provider == enabled[j];
        }
      }
    }
  }

  /** Statuses and notes play no part in the order. */
  lemma OrderIgnoresNotes(before: seq<Attempt>, after: seq<Attempt>, enabled: seq<string>)
    requires InFailoverOrder(before, enabled) && |after| == |before|
    requires forall i | 0 <= i < |before| :: after[i].key == before[i].key && after[i].provider == before[i].provider
    ensures InFailoverOrder(after, enabled)
    ensures Automatic(before) ==> Automatic(after)
  {
  }

  /** The next attempt goes to the provider whose turn it is. */
  lemma NextInOrder(id: SessionId, c: Case, reply: Reply, enabled: seq<string>)
    requires enabled != [] && Automatic(c.attempts) && InFailoverOrder(c.attempts, enabled)
    ensures var called := Called(id, c, ProviderOf(enabled, |c.attempts| + 1), reply);
            && Automatic(called.attempts) && InFailoverOrder(called.attempts, enabled)
            && InFailoverOrder(Answered(called.(pending := None), reply).attempts, enabled)
  {
    var called := Called(id, c, ProviderOf(enabled, |c.attempts| + 1), reply);
    OrderIgnoresNotes(called.attempts, Answered(called.(pending := None), reply).attempts, enabled);
  }

  lemma {:induction false} DispatchOrder(id: SessionId, c: Case, env: Env)
    requires Unrepeated(Enabled(env)) && Automatic(c.attempts) && InFailoverOrder(c.attempts, Enabled(env))
    ensures InFailoverOrder(DispatchAttempt(id, c, env).c.attempts, Enabled(env))
    decreases 2 * RetryBudget(|c.attempts|) + 1
  {
    var enabled := Enabled(env);
    if enabled != [] {
      ChoiceFollowsOrder(c.attempts, enabled);
      var provider := ProviderOf(enabled, |c.attempts| + 1);
      var n := |c.attempts| + 1;
      var reply := env.replies(n);
      if Postable(ClaimPosting(Payout(id, n), c)) && Payout(id, n) !in Keys(c.journal) {
        DispatchUnfolds(id, c, env, provider);
        NextInOrder(id, c, reply, enabled);
        if Rejected(reply) {
          var terminal := reply.kind == RejectedTerminal;
          HandleFailureOrder(id, Called(id, c, provider, reply).(pending := None), env, n, if terminal then 4 else 1,
                             reply.reason, terminal);
        }
      }
    }
  }

  lemma {:induction false} HandleFailureOrder(id: SessionId, c: Case, env: Env, n: nat, bucket: nat, reason: string,
                                              terminal: bool)
    requires Unrepeated(Enabled(env)) && InFailoverOrder(c.attempts, Enabled(env))
    requires IsDispatched(c, n) ==> Automatic(c.attempts)
    ensures InFailoverOrder(HandleAttemptFailure(id, c, env, n, bucket, reason, terminal).c.attempts, Enabled(env))
    decreases if n >= MAX_AUTO_RETRY_ATTEMPTS then 0 else 2 * RetryBudget(|c.attempts|) + 2
  {
    if IsDispatched(c, n) {
      var reversal := ReversalPosting(AttemptReversal(id, n), c);
      var marked := MarkFailed(c, n, bucket, reason);
      OrderIgnoresNotes(c.attempts, marked.attempts, Enabled(env));
      if Postable(reversal) && !terminal && n < MAX_AUTO_RETRY_ATTEMPTS {
        DispatchOrder(id, marked.(journal := Recorded(c.journal, reversal)), env);
      }
    }
  }

  /** The bindings and adapters seen by an event, where it looks at them. */
  predicate Sees(ev: Event, enabled: seq<string>) {
    match ev
    case Worker(env) => Enabled(env) == enabled
    case Callback(env, _, _, _) => Enabled(env) == enabled
    case _ => true
  }

  lemma NotSettledIsAutomatic(id: SessionId, c: Case)
    requires c in Sound(id) && c.status in {PendingDispatch, Settling}
    ensures Automatic(c.attempts)
  {
  }

  lemma WorkerOrder(id: SessionId, c: Case, env: Env)
    requires c in Sound(id) && Unrepeated(Enabled(env)) && InFailoverOrder(c.attempts, Enabled(env))
    ensures InFailoverOrder(Work(id, c, env).c.attempts, Enabled(env))
  {
    if c.status == PendingDispatch {
      NotSettledIsAutomatic(id, c);
      WorkUnfolds(id, c, env);
      if c.lock.Some? {
        DispatchOrder(id, Converted(id, c), env);
      }
    }
  }

  ghost function Ordered(enabled: seq<string>): iset<Case> {
    iset c: Case | InFailoverOrder(c.attempts, enabled)
  }

  lemma NotesKeepOrder(id: SessionId, c: Case, n: nat, reason: string, enabled: seq<string>)
    requires InFailoverOrder(c.attempts, enabled)
    ensures PayoutSucceeded(c, n).c in Ordered(enabled) && DeclineFlagged(c, n, reason).c in Ordered(enabled)
    ensures PayoutReturned(id, c).c in Ordered(enabled) && c in Ordered(enabled)
  {
    OrderIgnoresNotes(c.attempts, PayoutSucceeded(c, n).c.attempts, enabled);
    OrderIgnoresNotes(c.attempts, DeclineFlagged(c, n, reason).c.attempts, enabled);
  }

  lemma FailureKeepsOrder(id: SessionId, c: Case, env: Env, n: nat, reason: string)
    requires c in Sound(id) && Unrepeated(Enabled(env)) && InFailoverOrder(c.attempts, Enabled(env))
    ensures HandleAttemptFailure(id, c, env, n, 2, reason, false).c in Ordered(Enabled(env))
  {
    if IsDispatched(c, n) {
      StatusOfAttempt(id, c, n);
      NotSettledIsAutomatic(id, c);
      HandleFailureOrder(id, c, env, n, 2, reason, false);
    }
  }

  lemma HookKeepsOrder(id: SessionId, c: Case, env: Env, kind: HookKind, n: nat, reason: string)
    requires c in Sound(id) && Unrepeated(Enabled(env)) && InFailoverOrder(c.attempts, Enabled(env))
    ensures Hook(id, c, env, kind, n, reason).c in Ordered(Enabled(env))
  {
    NotesKeepOrder(id, c, n, reason, Enabled(env));
    if kind in {HookFailed, HookReversed} {
      FailureKeepsOrder(id, c, env, n, reason);
    }
  }

  lemma CallbackOrder(id: SessionId, c: Case, env: Env, kind: HookKind, n: nat, reason: string)
    requires c in Sound(id) && Unrepeated(Enabled(env)) && InFailoverOrder(c.attempts, Enabled(env))
    ensures InFailoverOrder(Hook(id, c, env, kind, n, reason).c.attempts, Enabled(env))
  {
    HookKeepsOrder(id, c, env, kind, n, reason);
    assert Hook(id, c, env, kind, n, reason).c in Ordered(Enabled(env));
  }

  lemma OpsOrder(id: SessionId, c: Case, ev: Event, enabled: seq<string>)
    requires !ev.Worker? && !ev.Callback? && InFailoverOrder(c.attempts, enabled)
    ensures InFailoverOrder(Step(id, c, ev).c.attempts, enabled)
  {
    var after := Step(id, c, ev).c.attempts;
    if !(ev.PaidByHand? && c.status == AwaitingManualPayout) {
      OrderIgnoresNotes(c.attempts, after, enabled);
    }
  }

  /** With unchanged bindings, attempt n goes to the n-th of the enabled providers, and later ones to the first. */
  lemma {:induction false} FailoverOrder(id: SessionId, c: Case, evs: seq<Event>, enabled: seq<string>)
    requires Initial(c) && TruthfulRun(id, c, evs) && Unrepeated(enabled)
    requires forall i | 0 <= i < |evs| :: Sees(evs[i], enabled)
    ensures InFailoverOrder(After(id, c, evs).attempts, enabled)
  {
    if evs != [] {
      var before, ev := evs[..|evs| - 1], evs[|evs| - 1];
      FailoverOrder(id, c, before, enabled);
      RunIsSound(id, c, before);
      assert Sees(ev, enabled);
      match ev
      case Worker(env) => WorkerOrder(id, After(id, c, before), env);
      case Callback(env, kind, n, reason) => CallbackOrder(id, After(id, c, before), env, kind, n, reason);
      case _ => OpsOrder(id, After(id, c, before), ev, enabled);
    }
  }

  // ----- destinations -----

  /** From attempt k on every automatic attempt pays d, and so will the next one. */
  predicate Sticks(c: Case, k: nat, d: Destination) {
    && k <= |c.attempts|
    && (forall i | k <= i < |c.attempts| && c.attempts[i].key.Payout? :: c.attempts[i].payload == d)
    && (Automatic(c.attempts) ==> ResolvedDestination(c) == d)
  }

  lemma {:induction false} LatestPayloadIgnoresNotes(before: seq<Attempt>, after: seq<Attempt>)
    requires |after| == |before|
    requires forall i | 0 <= i < |before| :: after[i].payload == before[i].payload
    ensures LatestPayload(after) == LatestPayload(before)
  {
    if before != [] {
      LatestPayloadIgnoresNotes(before[..|before| - 1], after[..|after| - 1]);
    }
  }

  lemma SticksIgnoresNotes(c: Case, c': Case, k: nat, d: Destination)
    requires Sticks(c, k, d) && |c'.attempts| == |c.attempts| && c'.pending == c.pending && c'.terms == c.terms
    requires forall i | 0 <= i < |c.attempts| ::
             c'.attempts[i].key == c.attempts[i].key && c'.attempts[i].payload == c.attempts[i].payload
    ensures Sticks(c', k, d)
  {
    LatestPayloadIgnoresNotes(c.attempts, c'.attempts);
  }

  lemma CalledSticks(id: SessionId, c: Case, provider: string, reply: Reply, k: nat, d: Destination)
    requires Sticks(c, k, d) && d != NoDetails && Automatic(c.attempts)
    ensures var called := Called(id, c, provider, reply);
            Automatic(called.attempts) && Sticks(called, k, d) && Sticks(called.(pending := None), k, d)
            && Sticks(Answered(called.(pending := None), reply), k, d)
  {
    var called := Called(id, c, provider, reply);
    assert called.attempts[..|c.attempts|] == c.attempts;
    SticksIgnoresNotes(called.(pending := None), Answered(called.(pending := None), reply), k, d);
  }

  lemma {:induction false} DispatchSticks(id: SessionId, c: Case, env: Env, k: nat, d: Destination)
    requires Sticks(c, k, d) && d != NoDetails && Automatic(c.attempts)
    ensures Sticks(DispatchAttempt(id, c, env).c, k, d)
    decreases 2 * RetryBudget(|c.attempts|) + 1
  {
    match Choose(Enabled(env), Tried(c.attempts))
    case None =>
    case Some(provider) =>
      var n := |c.attempts| + 1;
      var reply := env.replies(n);
      if Postable(ClaimPosting(Payout(id, n), c)) && Payout(id, n) !in Keys(c.journal) {
        DispatchUnfolds(id, c, env, provider);
        CalledSticks(id, c, provider, reply, k, d);
        if Rejected(reply) {
          var terminal := reply.kind == RejectedTerminal;
          HandleFailureSticks(id, Called(id, c, provider, reply).(pending := None), env, n,
                              if terminal then 4 else 1, reply.reason, terminal, k, d);
        }
      }
  }

  lemma {:induction false} HandleFailureSticks(id: SessionId, c: Case, env: Env, n: nat, bucket: nat, reason: string,
                                               terminal: bool,
                                               k: nat, d: Destination)
    requires Sticks(c, k, d) && d != NoDetails
    requires IsDispatched(c, n) ==> Automatic(c.attempts)
    ensures Sticks(HandleAttemptFailure(id, c, env, n, bucket, reason, terminal).c, k, d)
    decreases if n >= MAX_AUTO_RETRY_ATTEMPTS then 0 else 2 * RetryBudget(|c.attempts|) + 2
  {
    if IsDispatched(c, n) {
      var reversal := ReversalPosting(AttemptReversal(id, n), c);
      var marked := MarkFailed(c, n, bucket, reason);
      SticksIgnoresNotes(c, marked, k, d);
      if Postable(reversal) && !terminal && n < MAX_AUTO_RETRY_ATTEMPTS {
        DispatchSticks(id, marked.(journal := Recorded(c.journal, reversal)), env, k, d);
      }
    }
  }

  lemma WorkerSticks(id: SessionId, s: Case, env: Env, k: nat, d: Destination)
    requires s in Sound(id) && Sticks(s, k, d) && d != NoDetails
    ensures Sticks(Work(id, s, env).c, k, d)
  {
    if s.status == PendingDispatch {
      NotSettledIsAutomatic(id, s);
      WorkUnfolds(id, s, env);
      SticksIgnoresNotes(s, s.(status := Dispatching), k, d);
      if s.lock.Some? {
        SticksIgnoresNotes(s, Converted(id, s), k, d);
        DispatchSticks(id, Converted(id, s), env, k, d);
      }
    }
  }

  ghost function Sticking(k: nat, d: Destination): iset<Case> {
    iset c: Case | Sticks(c, k, d)
  }

  lemma SuccessSticks(s: Case, n: nat, k: nat, d: Destination)
    requires Sticks(s, k, d)
    ensures PayoutSucceeded(s, n).c in Sticking(k, d)
  {
    SticksIgnoresNotes(s, PayoutSucceeded(s, n).c, k, d);
  }

  lemma DeclineSticks(s: Case, n: nat, reason: string, k: nat, d: Destination)
    requires Sticks(s, k, d)
    ensures DeclineFlagged(s, n, reason).c in Sticking(k, d)
  {
    SticksIgnoresNotes(s, DeclineFlagged(s, n, reason).c, k, d);
  }

  lemma ReturnSticks(id: SessionId, s: Case, k: nat, d: Destination)
    requires Sticks(s, k, d)
    ensures PayoutReturned(id, s).c in Sticking(k, d)
  {
    SticksIgnoresNotes(s, PayoutReturned(id, s).c, k, d);
  }

  lemma FailureSticks(id: SessionId, s: Case, env: Env, n: nat, reason: string, k: nat, d: Destination)
    requires s in Sound(id) && Sticks(s, k, d) && d != NoDetails
    ensures HandleAttemptFailure(id, s, env, n, 2, reason, false).c in Sticking(k, d)
  {
    if IsDispatched(s, n) {
      StatusOfAttempt(id, s, n);
      NotSettledIsAutomatic(id, s);
    }
    HandleFailureSticks(id, s, env, n, 2, reason, false, k, d);
  }

  lemma HookSticks(id: SessionId, s: Case, env: Env, kind: HookKind, n: nat, reason: string, k: nat, d: Destination)
    requires s in Sound(id) && s in Sticking(k, d) && d != NoDetails
    ensures Hook(id, s, env, kind, n, reason).c in Sticking(k, d)
  {
    match kind
    case HookFailed => FailureSticks(id, s, env, n, reason, k, d);
    case HookReversed =>
      FailureSticks(id, s, env, n, reason, k, d);
      ReturnSticks(id, s, k, d);
    case HookReturned => ReturnSticks(id, s, k, d);
    case HookSucceeded => SuccessSticks(s, n, k, d);
    case HookDeclined => DeclineSticks(s, n, reason, k, d);
    case HookIgnored =>
  }

  lemma CallbackSticks(id: SessionId, s: Case, env: Env, kind: HookKind, n: nat, reason: string, k: nat, d: Destination)
    requires s in Sound(id) && Sticks(s, k, d) && d != NoDetails
    ensures Sticks(Hook(id, s, env, kind, n, reason).c, k, d)
  {
    HookSticks(id, s, env, kind, n, reason, k, d);
    assert Hook(id, s, env, kind, n, reason).c in Sticking(k, d);
  }

  lemma OpsSticks(id: SessionId, s: Case, ev: Event, k: nat, d: Destination)
    requires Sticks(s, k, d) && !ev.Worker? && !ev.Callback?
    requires ev.Retry? ==> Step(id, s, ev).outcome !in {Done, SessionConflict}
    ensures Sticks(Step(id, s, ev).c, k, d)
  {
    var s' := Step(id, s, ev).c;
    if ev.PaidByHand? && s.status == AwaitingManualPayout {
      assert s'.attempts[|s.attempts|].key.ManualPayout?;
    } else {
      SticksIgnoresNotes(s, s', k, d);
    }
  }

  /** No ops retry is accepted in a run. */
  predicate NoRetryAccepted(id: SessionId, s: Case, evs: seq<Event>) {
    evs == [] ||
    (var before, ev := evs[..|evs| - 1], evs[|evs| - 1];
     NoRetryAccepted(id, s, before) && (ev.Retry? ==> Step(id, After(id, s, before), ev).outcome != Done))
  }

  lemma {:induction false} RunSticks(id: SessionId, s: Case, evs: seq<Event>, k: nat, d: Destination)
    requires s in Sound(id) && TruthfulRun(id, s, evs) && NoRetryAccepted(id, s, evs)
    requires Sticks(s, k, d) && d != NoDetails
    ensures Sticks(After(id, s, evs), k, d)
  {
    if evs != [] {
      var before, ev := evs[..|evs| - 1], evs[|evs| - 1];
      var t := After(id, s, before);
      RunSticks(id, s, before, k, d);
      RunKeepsSound(id, s, before);
      StepKeeps(id, t, ev);
      match ev
      case Worker(env) => WorkerSticks(id, t, env, k, d);
      case Callback(env, kind, n, reason) => CallbackSticks(id, t, env, kind, n, reason, k, d);
      case _ => OpsSticks(id, t, ev, k, d);
    }
  }

  /**
   * A correction given with an accepted retry is what every later automatic attempt pays to, until the next accepted
   * retry.
   */
  lemma CorrectionSticks(id: SessionId, s: Case, d: Destination, confirmed: bool, admin: string, evs: seq<Event>)
    requires s in Sound(id) && Truthful(s, Retry(Some(d), confirmed, admin)) && d != NoDetails
    requires RetryPayout(id, s, Some(d), confirmed, admin).outcome == Done
    requires var retried := RetryPayout(id, s, Some(d), confirmed, admin).c;
             TruthfulRun(id, retried, evs) && NoRetryAccepted(id, retried, evs)
    ensures var end := After(id, RetryPayout(id, s, Some(d), confirmed, admin).c, evs);
            forall i | |s.attempts| <= i < |end.attempts| && end.attempts[i].key.Payout? :: end.attempts[i].payload == d
  {
    var retried := RetryPayout(id, s, Some(d), confirmed, admin).c;
    RetryKeeps(id, s, Some(d), confirmed, admin);
    assert Sticks(retried, |s.attempts|, d);
    RunSticks(id, retried, evs, |s.attempts|, d);
  }
}
