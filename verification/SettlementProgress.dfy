/**
 * Which unfinished settlements can still move on, as long as nobody lies about the money and the bank takes none back.
 */
module SettlementProgress {
  import opened Common
  import opened Ledger
  import opened Settlement
  import opened SettlementInvariant
  import opened SettlementSteps
  import opened SettlementRuns
  import opened SettlementRetries

  predicate Unfinished(s: Case) {
    s.status !in {Settled, ReversalResolved}
  }

  /** Money is out under an attempt whose reference was never learnt. */
  predicate Unreachable(s: Case) {
    && s.status == Settling && s.attempts != []
    && s.attempts[|s.attempts| - 1].reference == None && Live(s.attempts[|s.attempts| - 1].funds)
  }

  /** A worker stopped half-way into the first postings, or no callback can be matched to the payout. */
  predicate Stranded(s: Case) {
    s.status == Dispatching || Unreachable(s)
  }

  predicate Unreturned(ev: Event) {
    ev.BankMoves? ==> ev.to != Returned
  }

  /** The latest attempt alone is open, and every other attempt has failed. */
  lemma OpenAttempt(id: SessionId, s: Case, n: nat)
    requires s in Sound(id) && IsDispatched(s, n)
    ensures s.status == Settling && n == |s.attempts|
  {
    StatusOfAttempt(id, s, n);
  }

  lemma DispatchingStays(id: SessionId, s: Case, ev: Event)
    requires s in Sound(id) && Truthful(s, ev) && s.status == Dispatching
    ensures Step(id, s, ev).c.status == Dispatching
  {
    forall n: nat | IsDispatched(s, n) ensures false {
      OpenAttempt(id, s, n);
    }
    assert s.reversals == [];
  }

  lemma HookLeavesUnreachable(id: SessionId, s: Case, env: Env, kind: HookKind, n: nat, reason: string)
    requires s in Sound(id) && Unreachable(s)
    ensures Hook(id, s, env, kind, n, reason).c == s
  {
    if IsDispatched(s, n) {
      OpenAttempt(id, s, n);
    }
  }

  lemma UnreachableStays(id: SessionId, s: Case, ev: Event)
    requires s in Sound(id) && Truthful(s, ev) && Unreturned(ev) && Unreachable(s)
    ensures Unreachable(Step(id, s, ev).c)
  {
    var last := |s.attempts|;
    StatusOfAttempt(id, s, last);
    assert IsDispatched(s, last) && InFlightNow(s, last);
    assert s.reversals == [];
    if ev.Callback? {
      HookLeavesUnreachable(id, s, ev.env, ev.kind, ev.attempt, ev.reason);
    }
  }

  predicate AllUnreturned(evs: seq<Event>) {
    forall i | 0 <= i < |evs| :: Unreturned(evs[i])
  }

  lemma {:induction false} StrandedForever(id: SessionId, s: Case, evs: seq<Event>)
    requires s in Sound(id) && Stranded(s) && TruthfulRun(id, s, evs) && AllUnreturned(evs)
    ensures Stranded(After(id, s, evs)) && After(id, s, evs).status == s.status
  {
    if evs != [] {
      var before, ev := evs[..|evs| - 1], evs[|evs| - 1];
      var t := After(id, s, before);
      StrandedForever(id, s, before);
      RunKeepsSound(id, s, before);
      if t.status == Dispatching {
        DispatchingStays(id, t, ev);
      } else {
        UnreachableStays(id, t, ev);
      }
    }
  }

  // ----- a way on -----

  function Quiet(): Env {
    Env([], map[], n => Reply(Accepted, None, "", true), false, false)
  }

  function Fiat(): Adjustment {
    Adjustment(Account(None, "suspense", "NGN"), Account(None, "suspense", "NGN"), 1.0)
  }

  /** What to do next, by status. */
  function WayOn(s: Case): seq<Event> {
    match s.status
    case PendingDispatch => [Worker(Quiet())]
    case Settling =>
      if s.attempts != [] && s.attempts[|s.attempts| - 1].reference.Some? && Live(s.attempts[|s.attempts| - 1].funds)
      then [Callback(Quiet(), HookSucceeded, |s.attempts|, "")]
      else [TimeoutSweep, Retry(None, true, "")]
    case Reversed => [Resolve(0, Fiat())]
    case AwaitingManualPayout => [PaidByHand("")]
    case _ => [Retry(None, false, "")]
  }

  lemma OneStep(id: SessionId, s: Case, ev: Event)
    ensures After(id, s, [ev]) == Step(id, s, ev).c
    ensures TruthfulRun(id, s, [ev]) <==> Truthful(s, ev)
  {
    assert [ev][..0] == [];
  }

  lemma TwoSteps(id: SessionId, s: Case, ev: Event, next: Event)
    ensures After(id, s, [ev, next]) == Step(id, Step(id, s, ev).c, next).c
    ensures TruthfulRun(id, s, [ev, next]) <==> Truthful(s, ev) && Truthful(Step(id, s, ev).c, next)
  {
    assert [ev, next][..1] == [ev];
    OneStep(id, s, ev);
  }

  lemma SuccessMovesOn(id: SessionId, s: Case)
    requires s in Sound(id) && s.status == Settling && s.attempts[|s.attempts| - 1].reference.Some?
    ensures Hook(id, s, Quiet(), HookSucceeded, |s.attempts|, "").c.status == Settled
  {
    StatusOfAttempt(id, s, |s.attempts|);
    SucceededKeeps(id, s, |s.attempts|);
  }

  lemma ConfirmationMovesOn(id: SessionId, s: Case)
    requires s in Sound(id) && s.status == Settling && !Live(s.attempts[|s.attempts| - 1].funds)
    ensures TruthfulRun(id, s, [TimeoutSweep, Retry(None, true, "")])
    ensures After(id, s, [TimeoutSweep, Retry(None, true, "")]).status == PendingDispatch
  {
    var paged := PageTimedOut(s);
    TwoSteps(id, s, TimeoutSweep, Retry(None, true, ""));
    TimeoutKeeps(id, s);
    StatusOfAttempt(id, s, |s.attempts|);
    assert s.attempts[|s.attempts| - 1].status == Dispatched;
    forall n: nat | IsDispatched(paged, n) ensures !InFlightNow(paged, n) {
      OpenAttempt(id, paged, n);
    }
    RetryAccepted(id, paged);
  }

  lemma SettlingMovesOn(id: SessionId, s: Case)
    requires s in Sound(id) && s.status == Settling && !Unreachable(s)
    ensures TruthfulRun(id, s, WayOn(s)) && After(id, s, WayOn(s)).status != Settling
  {
    var last := |s.attempts| - 1;
    StatusOfAttempt(id, s, |s.attempts|);
    if s.attempts[last].reference.Some? && Live(s.attempts[last].funds) {
      OneStep(id, s, Callback(Quiet(), HookSucceeded, |s.attempts|, ""));
      SuccessMovesOn(id, s);
    } else {
      ConfirmationMovesOn(id, s);
    }
  }

  lemma RetryAccepted(id: SessionId, s: Case)
    requires s in Sound(id) && s.status == Settling && s.opsPaged && !Live(s.attempts[|s.attempts| - 1].funds)
    ensures RetryPayout(id, s, None, true, "").outcome == Done
    ensures RetryPayout(id, s, None, true, "").c.status == PendingDispatch
  {
    ConfirmedFailedIsFailure(id, s, "confirmed failed by admin " + "");
    QueuedIsSound(id, ResolveConfirmedFailed(id, s, "confirmed failed by admin " + ""), None);
  }

  lemma OthersMoveOn(id: SessionId, s: Case)
    requires s in Sound(id) && s.status in {SettlementFailed, AwaitingManualPayout, Reversed}
    ensures TruthfulRun(id, s, WayOn(s)) && After(id, s, WayOn(s)).status != s.status
  {
    OneStep(id, s, WayOn(s)[0]);
    if s.status == Reversed {
      assert Postable(AdjustmentPosting(id, 0, Fiat()));
    }
  }

  /** An unfinished settlement can move on exactly when it is not stranded. */
  lemma MovesOnIffNotStranded(id: SessionId, s: Case)
    requires s in Sound(id) && Unfinished(s)
    ensures (exists evs :: TruthfulRun(id, s, evs) && AllUnreturned(evs) && After(id, s, evs).status != s.status) <==>
            !Stranded(s)
  {
    if Stranded(s) {
      forall evs | TruthfulRun(id, s, evs) && AllUnreturned(evs) ensures After(id, s, evs).status == s.status {
        StrandedForever(id, s, evs);
      }
    } else {
      if s.status == PendingDispatch {
        OneStep(id, s, Worker(Quiet()));
        WorkLeavesQueue(id, s, Quiet());
      } else if s.status == Settling {
        SettlingMovesOn(id, s);
      } else {
        OthersMoveOn(id, s);
      }
      var evs := WayOn(s);
      assert TruthfulRun(id, s, evs) && AllUnreturned(evs) && After(id, s, evs).status != s.status;
    }
  }

  /** A worker strands the row it claimed exactly when one of the first two postings cannot be made. */
  lemma StrandsIffNothingToPost(id: SessionId, s: Case, env: Env)
    requires s in Sound(id) && s.status == PendingDispatch
    ensures Work(id, s, env).c.status == Dispatching <==>
            || s.reservation == NoReservation || s.lock == None
            || s.confirmedTotal <= 0.0 || s.terms.asset == ""
            || LockedValue(s.confirmedTotal, s.lock.value) <= 0.0 || s.terms.currency == ""
  {
    assert s.session in {SessionConfirmed, SessionSettling};
    if s.lock.Some? {
      DispatchStatus(id, Converted(id, s), env);
    }
  }

  // ----- an accepted payout -----

  /** The provider takes the next attempt, or may have taken it. */
  predicate TakenUp(id: SessionId, c: Case, env: Env, provider: string) {
    && Choose(Enabled(env), Tried(c.attempts)) == Some(provider)
    && env.replies(|c.attempts| + 1).kind in {Accepted, Uncertain}
  }

  /**
   * Such an attempt goes out once, to the resolved destination, and is found again by its reference; doubt pages ops.
   */
  lemma TakenUpIsRecorded(id: SessionId, c: Case, env: Env, provider: string)
    requires c in Rounds(id) && TakenUp(id, c, env, provider)
    ensures var d := DispatchAttempt(id, c, env).c;
            var n := |c.attempts| + 1;
            && d in Sound(id) && d.status == Settling && |d.attempts| == n
            && d.attempts[n - 1].provider == provider && d.attempts[n - 1].payload == ResolvedDestination(c)
            && d.attempts[n - 1].reference == env.replies(n).reference && d.pending == None
            && d.attempts[n - 1].funds == (if env.replies(n).sent then InFlight else NotSent)
                && d.attempts[..n - 1] == c.attempts
            && (env.replies(n).kind == Uncertain ==> d.opsPaged)
  {
    var reply := env.replies(|c.attempts| + 1);
    ClaimKeeps(id, c, provider, reply);
    DispatchUnfolds(id, c, env, provider);
    var called := Called(id, c, provider, reply);
    AnswerLands(id, called, reply, |c.attempts|);
  }

  /** With a reference, its success callback settles the session and frees the address. */
  lemma TakenUpPayoutSettles(id: SessionId, c: Case, env: Env, provider: string, reason: string)
    requires c in Rounds(id) && TakenUp(id, c, env, provider) && env.replies(|c.attempts| + 1).reference.Some?
    ensures var e := Hook(id, DispatchAttempt(id, c, env).c, env, HookSucceeded, |c.attempts| + 1, reason);
            e.outcome == Done && e.c.status == Settled && e.c.session == SessionSettled && e.c.reservation == Released
  {
    var d := DispatchAttempt(id, c, env).c;
    TakenUpIsRecorded(id, c, env, provider);
    StatusOfAttempt(id, d, |d.attempts|);
    SucceededKeeps(id, d, |d.attempts|);
    SettledIsClosed(id, PayoutSucceeded(d, |d.attempts|).c);
  }

  lemma SettledIsClosed(id: SessionId, s: Case)
    requires s in Sound(id) && s.status == Settled
    ensures s.session == SessionSettled && s.reservation == Released
  {
  }
}
