/** Where payouts go when nobody corrects the destination, and when a correction is forgotten. */
module Destinations {
  import opened Common
  import opened Ledger
  import opened Settlement
  import opened SettlementInvariant
  import opened SettlementSteps
  import opened SettlementRuns
  import opened SettlementPolicy
  import opened SettlementRetries
  import opened DispatchOutcomes

  // ----- attempts keep what they were made with -----

  /** More attempts may follow; those that were there keep their key, provider and destination. */
  predicate Grows(before: seq<Attempt>, after: seq<Attempt>) {
    && |before| <= |after|
    && forall i | 0 <= i < |before| ::
         && after[i].key == before[i].key && after[i].provider == before[i].provider
         && after[i].payload == before[i].payload
  }

  /** The cases whose attempts have grown from these. */
  ghost function Grown(attempts: seq<Attempt>): iset<Case> {
    iset c: Case | Grows(attempts, c.attempts)
  }

  lemma FailureGrows(id: SessionId, c: Case, env: Env, n: nat, bucket: nat, reason: string, terminal: bool)
    ensures Grows(c.attempts, HandleAttemptFailure(id, c, env, n, bucket, reason, terminal).c.attempts)
  {
    FailureKeepsEarlier(id, c, env, n, bucket, reason, terminal);
    if IsDispatched(c, n) {
      var marked := MarkFailed(c, n, bucket, reason).attempts;
      var after := HandleAttemptFailure(id, c, env, n, bucket, reason, terminal).c.attempts;
      assert forall i | 0 <= i < |marked| :: after[i] == marked[i];
    }
  }

  lemma WorkGrows(id: SessionId, s: Case, env: Env)
    requires s in Sound(id)
    ensures Work(id, s, env).c in Grown(s.attempts)
  {
    if s.status == PendingDispatch {
      WorkUnfolds(id, s, env);
      if s.lock.Some? {
        DispatchKeepsEarlier(id, Converted(id, s), env);
        var after := DispatchAttempt(id, Converted(id, s), env).c.attempts;
        assert forall i | 0 <= i < |s.attempts| :: after[i] == s.attempts[i];
      }
    }
  }

  lemma HookGrows(id: SessionId, s: Case, env: Env, kind: HookKind, n: nat, reason: string)
    ensures Hook(id, s, env, kind, n, reason).c in Grown(s.attempts)
  {
    match kind
    case HookFailed => FailureGrows(id, s, env, n, 2, reason, false);
    case HookReversed => FailureGrows(id, s, env, n, 2, reason, false);
    case HookSucceeded =>
    case HookReturned =>
    case HookDeclined =>
    case HookIgnored =>
  }

  lemma RetryGrows(id: SessionId, s: Case, corrected: Option<Destination>, confirmed: bool, admin: string)
    ensures RetryPayout(id, s, corrected, confirmed, admin).c in Grown(s.attempts)
  {
  }

  lemma ManualGrows(id: SessionId, s: Case, who: string)
    ensures ManualSettle(id, s, who).c in Grown(s.attempts)
  {
  }

  lemma BankGrows(s: Case, n: nat, to: Funds)
    ensures BankStep(s, n, to) in Grown(s.attempts)
  {
  }

  lemma SameGrows(s: Case, s': Case)
    requires s'.attempts == s.attempts
    ensures s' in Grown(s.attempts)
  {
  }

  lemma StepGrows(id: SessionId, s: Case, ev: Event)
    requires s in Sound(id)
    ensures Step(id, s, ev).c in Grown(s.attempts)
  {
    match ev
    case Worker(env) => WorkGrows(id, s, env);
    case Callback(env, kind, n, reason) => HookGrows(id, s, env, kind, n, reason);
    case Retry(corrected, confirmed, admin) => RetryGrows(id, s, corrected, confirmed, admin);
    case PaidByHand(who) => ManualGrows(id, s, who);
    case BankMoves(n, to) => BankGrows(s, n, to);
    case Resolve(index, adj) => SameGrows(s, ResolveReversal(id, s, index, adj).c);
    case TimeoutSweep => SameGrows(s, PageTimedOut(s));
    case HandMoves(to) => SameGrows(s, HandStep(s, to));
    case DepositGrows(_) => SameGrows(s, Step(id, s, ev).c);
  }

  lemma {:induction false} RunGrows(id: SessionId, s: Case, evs: seq<Event>)
    requires s in Sound(id) && TruthfulRun(id, s, evs)
    ensures Grows(s.attempts, After(id, s, evs).attempts)
  {
    if evs != [] {
      var before := evs[..|evs| - 1];
      RunGrows(id, s, before);
      RunKeepsSound(id, s, before);
      StepGrows(id, After(id, s, before), evs[|evs| - 1]);
      assert Step(id, After(id, s, before), evs[|evs| - 1]).c in Grown(After(id, s, before).attempts);
    }
  }

  // ----- a forgotten correction -----

  /** The destination of a settlement without a pending correction. */
  function Unpended(c: Case): Destination {
    ResolvedDestination(c.(pending := None))
  }

  lemma {:induction false} TermsAreKept(id: SessionId, s: Case, evs: seq<Event>)
    requires s in Sound(id) && TruthfulRun(id, s, evs)
    ensures After(id, s, evs).terms == s.terms
  {
    if evs != [] {
      var before := evs[..|evs| - 1];
      TermsAreKept(id, s, before);
      RunKeepsSound(id, s, before);
      StepFrame(id, After(id, s, before), evs[|evs| - 1]);
    }
  }

  /** The last attempt with any details decides. */
  lemma {:induction false} LatestOfGrown(before: seq<Attempt>, after: seq<Attempt>)
    requires Grows(before, after)
    ensures |after| == |before| ==> LatestPayload(after) == LatestPayload(before)
    ensures |after| > |before| && after[|after| - 1].payload != NoDetails ==>
            LatestPayload(after) == Some(after[|after| - 1].payload)
  {
    if |after| == |before| {
      LatestPayloadIgnoresNotes(before, after);
    }
  }

  lemma RetriedUnpended(id: SessionId, t: Case, confirmed: bool, admin: string)
    requires t in Sound(id) && Truthful(t, Retry(None, confirmed, admin))
    requires RetryPayout(id, t, None, confirmed, admin).outcome == Done
    ensures var u := RetryPayout(id, t, None, confirmed, admin).c;
            ResolvedDestination(u) == Unpended(t) && Automatic(t.attempts)
  {
    RetryKeeps(id, t, None, confirmed, admin);
    var u := RetryPayout(id, t, None, confirmed, admin).c;
    NotSettledIsAutomatic(id, u);
    LatestPayloadIgnoresNotes(t.attempts, u.attempts);
  }

  /** Of attempts behind the first k, which a correction sticks to, the last one carries it. */
  lemma StuckIsLatest(c: Case, t: Case, d: Destination)
    requires Grows(c.attempts, t.attempts) && t.terms == c.terms && d != NoDetails && Automatic(t.attempts)
    requires forall i | |c.attempts| <= i < |t.attempts| && t.attempts[i].key.Payout? :: t.attempts[i].payload == d
    ensures Unpended(t) == if |t.attempts| > |c.attempts| then d else Unpended(c)
  {
    LatestOfGrown(c.attempts, t.attempts);
    if |t.attempts| > |c.attempts| {
      assert t.attempts[|t.attempts| - 1].key.Payout?;
    }
  }

  lemma RetryKeepsUnpended(id: SessionId, s: Case, d: Destination, confirmed: bool, admin: string)
    requires s in Sound(id) && Truthful(s, Retry(Some(d), confirmed, admin))
    ensures var retried := RetryPayout(id, s, Some(d), confirmed, admin).c;
            && retried in Sound(id) && |retried.attempts| == |s.attempts| && Unpended(retried) == Unpended(s)
  {
    RetryKeeps(id, s, Some(d), confirmed, admin);
    LatestPayloadIgnoresNotes(s.attempts, RetryPayout(id, s, Some(d), confirmed, admin).c.attempts);
  }

  /**
   * A correction is remembered through an attempt that carried it. When ops retry again without a correction, payouts
   * go where the last correction said exactly as far as an attempt was made since; if none was, because nobody could
   * dispatch it, they go where they went before.
   */
  lemma CorrectionRememberedIffTried(id: SessionId, s: Case, d: Destination, confirmed: bool, admin: string,
                                     evs: seq<Event>, again: bool)
    requires s in Sound(id) && Truthful(s, Retry(Some(d), confirmed, admin)) && d != NoDetails
    requires RetryPayout(id, s, Some(d), confirmed, admin).outcome == Done
    requires var retried := RetryPayout(id, s, Some(d), confirmed, admin).c;
             TruthfulRun(id, retried, evs) && NoRetryAccepted(id, retried, evs)
    requires var t := After(id, RetryPayout(id, s, Some(d), confirmed, admin).c, evs);
             Truthful(t, Retry(None, again, admin)) && RetryPayout(id, t, None, again, admin).outcome == Done
    ensures var t := After(id, RetryPayout(id, s, Some(d), confirmed, admin).c, evs);
            ResolvedDestination(RetryPayout(id, t, None, again, admin).c)
            == if |t.attempts| > |s.attempts| then d else Unpended(s)
  {
    var retried := RetryPayout(id, s, Some(d), confirmed, admin).c;
    RetryKeepsUnpended(id, s, d, confirmed, admin);
    RunKeepsSound(id, retried, evs);
    RetriedUnpended(id, After(id, retried, evs), again, admin);
    CorrectionSticks(id, s, d, confirmed, admin, evs);
    RunGrows(id, retried, evs);
    TermsAreKept(id, retried, evs);
    StuckIsLatest(retried, After(id, retried, evs), d);
  }

  // ----- without corrections -----

  predicate Uncorrected(ev: Event) {
    ev.Retry? ==> ev.corrected == None
  }

  /** Every automatic attempt pays the session's own destination, and so will the next one. */
  predicate PaysOwn(c: Case, d: Destination) {
    && c.terms.destination == d && (c.pending == None || c.pending == Some(d))
    && forall i | 0 <= i < |c.attempts| && c.attempts[i].key.Payout? :: c.attempts[i].payload == d
  }

  lemma {:induction false} OwnIsLatest(attempts: seq<Attempt>, d: Destination)
    requires d != NoDetails && forall i | 0 <= i < |attempts| :: attempts[i].payload == d
    ensures attempts != [] ==> LatestPayload(attempts) == Some(d)
    ensures attempts == [] ==> LatestPayload(attempts) == None
  {
  }

  lemma OwnIsResolved(c: Case, d: Destination)
    requires PaysOwn(c, d) && d != NoDetails && Automatic(c.attempts)
    ensures ResolvedDestination(c) == d
  {
    OwnIsLatest(c.attempts, d);
  }

  lemma CalledPaysOwn(id: SessionId, c: Case, provider: string, reply: Reply, d: Destination)
    requires PaysOwn(c, d) && d != NoDetails && Automatic(c.attempts)
    ensures var called := Called(id, c, provider, reply);
            && Automatic(called.attempts) && PaysOwn(called, d) && PaysOwn(called.(pending := None), d)
            && PaysOwn(Answered(called.(pending := None), reply), d)
  {
    OwnIsResolved(c, d);
  }

  lemma {:induction false} DispatchPaysOwn(id: SessionId, c: Case, env: Env, d: Destination)
    requires PaysOwn(c, d) && d != NoDetails && Automatic(c.attempts)
    ensures PaysOwn(DispatchAttempt(id, c, env).c, d)
    decreases 2 * RetryBudget(|c.attempts|) + 1
  {
    match Choose(Enabled(env), Tried(c.attempts))
    case None =>
    case Some(provider) =>
      var n := |c.attempts| + 1;
      var reply := env.replies(n);
      if Postable(ClaimPosting(Payout(id, n), c)) && Payout(id, n) !in Keys(c.journal) {
        DispatchUnfolds(id, c, env, provider);
        CalledPaysOwn(id, c, provider, reply, d);
        if Rejected(reply) {
          var terminal := reply.kind == RejectedTerminal;
          FailurePaysOwn(id, Called(id, c, provider, reply).(pending := None), env, n, if terminal then 4 else 1,
                         reply.reason, terminal, d);
        }
      }
  }

  lemma {:induction false} FailurePaysOwn(id: SessionId, c: Case, env: Env, n: nat, bucket: nat, reason: string,
                                          terminal: bool, d: Destination)
    requires PaysOwn(c, d) && d != NoDetails && (IsDispatched(c, n) ==> Automatic(c.attempts))
    ensures PaysOwn(HandleAttemptFailure(id, c, env, n, bucket, reason, terminal).c, d)
    decreases if n >= MAX_AUTO_RETRY_ATTEMPTS then 0 else 2 * RetryBudget(|c.attempts|) + 2
  {
    if IsDispatched(c, n) {
      var reversal := ReversalPosting(AttemptReversal(id, n), c);
      var marked := MarkFailed(c, n, bucket, reason);
      assert PaysOwn(marked, d) && Automatic(marked.attempts);
      if Postable(reversal) && !terminal && n < MAX_AUTO_RETRY_ATTEMPTS {
        DispatchPaysOwn(id, marked.(journal := Recorded(c.journal, reversal)), env, d);
      }
    }
  }

  ghost function Own(d: Destination): iset<Case> {
    iset c: Case | PaysOwn(c, d)
  }

  lemma WorkPaysOwn(id: SessionId, s: Case, env: Env, d: Destination)
    requires s in Sound(id) && PaysOwn(s, d) && d != NoDetails
    ensures Work(id, s, env).c in Own(d)
  {
    if s.status == PendingDispatch {
      NotSettledIsAutomatic(id, s);
      WorkUnfolds(id, s, env);
      if s.lock.Some? {
        DispatchPaysOwn(id, Converted(id, s), env, d);
      }
    }
  }

  lemma HookPaysOwn(id: SessionId, s: Case, env: Env, kind: HookKind, n: nat, reason: string, d: Destination)
    requires s in Sound(id) && PaysOwn(s, d) && d != NoDetails
    ensures Hook(id, s, env, kind, n, reason).c in Own(d)
  {
    if kind in {HookFailed, HookReversed} {
      if IsDispatched(s, n) {
        StatusOfAttempt(id, s, n);
        NotSettledIsAutomatic(id, s);
      }
      FailurePaysOwn(id, s, env, n, 2, reason, false, d);
    }
  }

  lemma OpsPayOwn(id: SessionId, s: Case, ev: Event, d: Destination)
    requires PaysOwn(s, d) && Uncorrected(ev) && (ev.Retry? || ev.PaidByHand? || ev.BankMoves?)
    ensures Step(id, s, ev).c in Own(d)
  {
    match ev
    case Retry(_, _, _) =>
    case PaidByHand(_) =>
    case BankMoves(_, _) =>
  }

  lemma SamePaysOwn(s: Case, s': Case, d: Destination)
    requires PaysOwn(s, d) && s'.attempts == s.attempts && s'.pending == s.pending && s'.terms == s.terms
    ensures s' in Own(d)
  {
  }

  lemma StepPaysOwn(id: SessionId, s: Case, ev: Event, d: Destination)
    requires s in Sound(id) && PaysOwn(s, d) && d != NoDetails && Uncorrected(ev)
    ensures Step(id, s, ev).c in Own(d)
  {
    match ev
    case Worker(env) => WorkPaysOwn(id, s, env, d);
    case Callback(env, kind, n, reason) => HookPaysOwn(id, s, env, kind, n, reason, d);
    case Resolve(index, adj) => SamePaysOwn(s, ResolveReversal(id, s, index, adj).c, d);
    case TimeoutSweep => SamePaysOwn(s, PageTimedOut(s), d);
    case HandMoves(to) => SamePaysOwn(s, HandStep(s, to), d);
    case DepositGrows(_) => SamePaysOwn(s, Step(id, s, ev).c, d);
    case _ => OpsPayOwn(id, s, ev, d);
  }

  /** Whatever happens to a settlement, without a correction every automatic attempt pays the session's destination. */
  lemma {:induction false} UncorrectedPaysOwn(id: SessionId, c: Case, evs: seq<Event>, d: Destination)
    requires Initial(c) && TruthfulRun(id, c, evs) && forall i | 0 <= i < |evs| :: Uncorrected(evs[i])
    requires c.terms.destination == d && c.pending == Some(d) && d != NoDetails
    ensures PaysOwn(After(id, c, evs), d)
  {
    if evs != [] {
      var before := evs[..|evs| - 1];
      UncorrectedPaysOwn(id, c, before, d);
      RunIsSound(id, c, before);
      StepPaysOwn(id, After(id, c, before), evs[|evs| - 1], d);
      assert Step(id, After(id, c, before), evs[|evs| - 1]).c in Own(d);
    }
  }
}
