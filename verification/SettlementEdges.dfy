/**
 * Where the books part from the money: a deposit that grows between dispatches, a return named by another attempt, and
 * a parked payout that is retried after a human has sent it.
 */
module SettlementEdges {
  import opened Common
  import opened Ledger
  import opened Settlement
  import opened SettlementInvariant
  import opened SettlementSteps
  import opened SettlementRuns
  import opened SettlementProgress
  import Keys

  const BANK := "acme"

  /** A corridor with one registered provider, which accepts every attempt under that attempt's own reference. */
  function Accepting(id: SessionId): Env {
    Env([BANK], map[BANK := true], (n: nat) => Reply(Accepted, Some(Keys.ClientReference(id, n)), "", true), false,
        false)
  }

  function NobodyBound(): Env {
    Env([], map[], n => Reply(Accepted, None, "", true), false, false)
  }

  function Deposited(total: real): Case {
    Case(Terms("t", "USDC", "NGN", Bank("1", "2")), Some(Lock(1.0, 1.0)), total, Reserved, SessionConfirmed,
         PendingDispatch, 0.0, false, None, [], NotSent, [], Empty)
  }

  lemma OneEnabled(id: SessionId)
    ensures Enabled(Accepting(id)) == [BANK]
  {
    var env := Accepting(id);
    assert env.bindings[..0] == [] && env.bindings[0] == BANK;
    assert EnabledAmong(env.bindings[..0], env.registry) == [];
  }

  /** With one provider, the choice is always that one. */
  lemma OneChoice(id: SessionId, c: Case)
    ensures Choose(Enabled(Accepting(id)), Tried(c.attempts)) == Some(BANK)
  {
    OneEnabled(id);
  }

  /**
   * The run fails for want of a provider, more money arrives, ops retry, and the provider accepts the larger amount.
   */
  function LateDeposit(id: SessionId): seq<Event> {
    [Worker(NobodyBound()), DepositGrows(5.0), Retry(None, false, ""), Worker(Accepting(id))]
  }

  /** A settlement that failed before its first claim, as the retry finds it. */
  function FailedOnce(id: SessionId): Case {
    var c := Deposited(10.0);
    c.(status := SettlementFailed, session := SessionFailed, reservation := Released, opsPaged := true, amount := 10.0,
       journal := Then(Then(Empty, DepositPosting(id, c)), FxPosting(id, c, 10.0)))
  }

  lemma FailsOnce(id: SessionId)
    ensures Step(id, Deposited(10.0), Worker(NobodyBound())).c == FailedOnce(id)
  {
    var c := Deposited(10.0);
    assert LockedValue(10.0, Lock(1.0, 1.0)) == 10.0;
    assert Choose(Enabled(NobodyBound()), Tried([])) == None;
  }

  /** One more step at the end of a run. */
  lemma RunSteps(id: SessionId, c: Case, evs: seq<Event>, s: Case, ev: Event)
    requires TruthfulRun(id, c, evs) && After(id, c, evs) == s && Truthful(s, ev)
    ensures TruthfulRun(id, c, evs + [ev]) && After(id, c, evs + [ev]) == Step(id, s, ev).c
  {
    assert (evs + [ev])[..|evs|] == evs;
  }

  /** The run up to the retry. */
  lemma LateIsQueued(id: SessionId)
    ensures var c := Deposited(10.0);
            var evs := [Worker(NobodyBound())] + [DepositGrows(5.0)] + [Retry(None, false, "")];
            Initial(c) && TruthfulRun(id, c, evs) && After(id, c, evs) == QueuedLate(id)
  {
    var c, failed := Deposited(10.0), FailedOnce(id);
    var first := Worker(NobodyBound());
    FailsOnce(id);
    OneStep(id, c, first);
    RunSteps(id, c, [first], failed, DepositGrows(5.0));
    RunSteps(id, c, [first] + [DepositGrows(5.0)], failed.(confirmedTotal := 15.0), Retry(None, false, ""));
  }

  /** The books then claim more than the one fx posting credited: the tenant's account stays off by the late deposit. */
  lemma LateDepositLeavesGap(id: SessionId)
    ensures var c := Deposited(10.0);
            var s := After(id, c, LateDeposit(id));
            && Initial(c) && TruthfulRun(id, c, LateDeposit(id))
            && s.status == Settling && s.amount == 15.0 && Owed(s.journal) == 10.0
            && Contribution(s.journal, TenantPayable(s.terms)) == 5.0
  {
    var queued := [Worker(NobodyBound())] + [DepositGrows(5.0)] + [Retry(None, false, "")];
    LateIsQueued(id);
    HonestlyAccepting(id);
    RunSteps(id, Deposited(10.0), queued, QueuedLate(id), Worker(Accepting(id)));
    assert queued + [Worker(Accepting(id))] == LateDeposit(id);
    RetriedLate(id);
  }

  function QueuedLate(id: SessionId): Case {
    FailedOnce(id).(confirmedTotal := 15.0, status := PendingDispatch, session := SessionSettling, opsPaged := false)
  }

  /** The queued settlement with its larger amount, about to be dispatched. */
  function ReadyLate(id: SessionId): Case {
    QueuedLate(id).(status := Settling, amount := 15.0)
  }

  lemma BooksBeforeLate(id: SessionId)
    ensures var s := ReadyLate(id);
            && Settlement.Keys(s.journal) == {DepositConfirmed(id), FxConversion(id)}
            && Contribution(s.journal, TenantPayable(s.terms)) == -10.0 && Owed(s.journal) == 10.0
  {
    var s := ReadyLate(id);
    var deposit := s.journal.earlier.last;
    assert Settlement.Keys(Then(Empty, deposit)) == {DepositConfirmed(id)};
    assert Contribution(Then(Empty, deposit), TenantPayable(s.terms)) == 0.0;
  }

  lemma LateIsWorked(id: SessionId)
    ensures Work(id, QueuedLate(id), Accepting(id)) == DispatchAttempt(id, ReadyLate(id), Accepting(id))
  {
    assert LockedValue(15.0, Lock(1.0, 1.0)) == 15.0;
    BooksBeforeLate(id);
  }

  lemma RetriedLate(id: SessionId)
    ensures var s := Step(id, QueuedLate(id), Worker(Accepting(id))).c;
            && s.status == Settling && s.amount == 15.0 && Owed(s.journal) == 10.0
            && Contribution(s.journal, TenantPayable(s.terms)) == 5.0
  {
    var settling := ReadyLate(id);
    BooksBeforeLate(id);
    LateIsWorked(id);
    OneChoice(id, settling);
    DispatchUnfolds(id, settling, Accepting(id), BANK);
  }

  /** The gap is there exactly when the deposit the worker finds is not worth what the fx posting credited. */
  lemma RetryLeavesGapIffDepositChanged(id: SessionId, s: Case, env: Env)
    requires s in Sound(id) && HonestEnv(env) && FirstDispatched(id, s)
    requires s.status == PendingDispatch && Work(id, s, env).c.status == Settling
    ensures s.lock.Some?
    ensures var after := Work(id, s, env).c;
            Contribution(after.journal, TenantPayable(s.terms)) == 0.0
            <==> LockedValue(s.confirmedTotal, s.lock.value) == Owed(s.journal)
  {
    WorkUnfolds(id, s, env);
    WorkKeeps(id, s, env);
    ConvertedAgain(id, s);
    DispatchFrame(id, Converted(id, s), env);
    LedgerWhileSettling(id, Work(id, s, env).c);
  }

  lemma ConvertedAgain(id: SessionId, s: Case)
    requires s in Sound(id) && FirstDispatched(id, s) && s.lock.Some?
    ensures Owed(Converted(id, s).journal) == Owed(s.journal) && Converted(id, s).terms == s.terms
    ensures Converted(id, s).amount == LockedValue(s.confirmedTotal, s.lock.value)
  {
  }

  lemma LedgerWhileSettling(id: SessionId, s: Case)
    requires s in Sound(id) && s.status == Settling
    ensures Contribution(s.journal, TenantPayable(s.terms)) == s.amount - Owed(s.journal)
  {
  }

  // ----- a return named by another attempt -----

  /**
   * A settled row takes a return callback whichever of its attempts the callback names, and books all of it as back.
   */
  lemma ReturnIgnoresAttempt(id: SessionId, s: Case, env: Env, n: nat, reason: string)
    requires s in Sound(id) && s.status == Settled && 1 <= n <= |s.attempts| && s.attempts[n - 1].reference.Some?
    ensures var after := Hook(id, s, env, HookReturned, n, reason).c;
            && after.status == Reversed && after.attempts == s.attempts
            && Contribution(after.journal, TenantPayable(s.terms)) == -Owed(s.journal)
  {
    ReturnedKeeps(id, s);
  }

  predicate NothingOut(s: Case) {
    forall m | 0 <= m <= |s.attempts| :: !OutNow(s, m)
  }

  /** Alike but for where the bank has the money. */
  ghost predicate SameButFunds(s: Case, t: Case) {
    && t == s.(attempts := t.attempts, hand := t.hand) && |t.attempts| == |s.attempts|
    && forall i | 0 <= i < |s.attempts| :: t.attempts[i] == s.attempts[i].(funds := t.attempts[i].funds)
  }

  /** The rows of a settled settlement, had the bank paid the latest attempt. */
  function LatestPaid(s: Case): Case
    requires s.attempts != []
  {
    var last := |s.attempts| - 1;
    s.(attempts := s.attempts[last := s.attempts[last].(funds := Paid)])
  }

  lemma LatestPaidIsSound(id: SessionId, s: Case)
    requires s in Sound(id) && s.status == Settled
    ensures s.attempts != [] && LatestPaid(s) in Sound(id) && SameButFunds(s, LatestPaid(s))
  {
  }

  lemma OnlyLatestLive(id: SessionId, s: Case)
    requires s in Sound(id)
    ensures forall m: nat | InFlightNow(s, m) :: m == |s.attempts|
    ensures Live(s.hand) ==> s.status == AwaitingManualPayout
  {
  }

  lemma NothingOutWithoutLatest(id: SessionId, s: Case)
    requires s in Sound(id) && s.status == Reversed && !InFlightNow(s, |s.attempts|)
    ensures NothingOut(s)
  {
    OnlyLatestLive(id, s);
  }

  /** A truthful return of the latest attempt leaves nothing out. */
  lemma ReturnOfLatest(id: SessionId, t: Case, env: Env, reason: string)
    requires t in Sound(id) && t.status == Settled && t.attempts != []
    requires t.attempts[|t.attempts| - 1].reference.Some? && !InFlightNow(t, |t.attempts|)
    ensures NothingOut(Hook(id, t, env, HookReturned, |t.attempts|, reason).c)
  {
    ReturnIgnoresAttempt(id, t, env, |t.attempts|, reason);
    ReturnedKeeps(id, t);
    NothingOutWithoutLatest(id, Hook(id, t, env, HookReturned, |t.attempts|, reason).c);
  }

  /** A truthful return of an earlier attempt books back a payout that may still be out. */
  lemma ReturnOfEarlier(id: SessionId, s: Case, env: Env, n: nat, reason: string)
    requires s in Sound(id) && s.status == Settled && HonestEnv(env)
    requires 1 <= n < |s.attempts| && s.attempts[n - 1].reference.Some?
    ensures var t := LatestPaid(s);
            && t in Sound(id) && SameButFunds(s, t) && Truthful(t, Callback(env, HookReturned, n, reason))
            && !NothingOut(Hook(id, t, env, HookReturned, n, reason).c)
  {
    var t := LatestPaid(s);
    LatestPaidIsSound(id, s);
    OnlyLatestLive(id, t);
    ReturnIgnoresAttempt(id, t, env, n, reason);
    assert OutNow(Hook(id, t, env, HookReturned, n, reason).c, |s.attempts|);
  }

  /**
   * Whatever the bank has done behind these rows, a truthful return is booked with nothing left out, exactly when the
   * callback names the latest attempt.
   */
  lemma ReturnIsRightIffLatest(id: SessionId, s: Case, env: Env, n: nat, reason: string)
    requires s in Sound(id) && s.status == Settled && HonestEnv(env)
    requires 1 <= n <= |s.attempts| && s.attempts[n - 1].reference.Some?
    ensures (forall t | t in Sound(id) && SameButFunds(s, t) && Truthful(t, Callback(env, HookReturned, n, reason)) ::
               NothingOut(Hook(id, t, env, HookReturned, n, reason).c))
            <==> n == |s.attempts|
  {
    if n == |s.attempts| {
      forall t | t in Sound(id) && SameButFunds(s, t) && Truthful(t, Callback(env, HookReturned, n, reason))
        ensures NothingOut(Hook(id, t, env, HookReturned, n, reason).c)
      {
        ReturnOfLatest(id, t, env, reason);
      }
    } else {
      ReturnOfEarlier(id, s, env, n, reason);
    }
  }

  // ----- a run in which that happens -----

  /** The first attempt goes out and bounces, and the callback that says so sends out a second. */
  function SecondOut(id: SessionId): seq<Event> {
    [Worker(Accepting(id))] + [BankMoves(1, Returned)] + [Callback(Accepting(id), HookFailed, 1, "bounced")]
  }

  /** Then the second attempt is paid. */
  function SecondPaid(id: SessionId): seq<Event> {
    SecondOut(id) + [BankMoves(2, Paid)] + [Callback(Accepting(id), HookSucceeded, 2, "")]
  }

  /** Every attempt has the reference its own dispatch was given. */
  predicate OwnReferences(id: SessionId, s: Case) {
    forall i | 0 <= i < |s.attempts| :: s.attempts[i].reference == Some(Keys.ClientReference(id, i + 1))
  }

  /** The latest of `n` attempts is open and out. */
  predicate Out(id: SessionId, s: Case, n: nat) {
    s.status == Settling && |s.attempts| == n && IsDispatched(s, n) && s.attempts[n - 1].funds == InFlight
        && OwnReferences(id, s)
  }

  /** The second attempt is paid, and the session with it. */
  predicate PaidTwo(id: SessionId, s: Case) {
    s.status == Settled && |s.attempts| == 2 && InFlightNow(s, 2) && OwnReferences(id, s)
  }

  lemma HonestlyAccepting(id: SessionId)
    ensures HonestEnv(Accepting(id))
  {
  }

  /** A dispatch that is accepted under its own reference. */
  lemma GoesOut(id: SessionId, s: Case)
    requires s in Rounds(id) && OwnReferences(id, s)
    ensures var d := DispatchAttempt(id, s, Accepting(id)).c; d in Sound(id) && Out(id, d, |s.attempts| + 1)
  {
    HonestlyAccepting(id);
    OneChoice(id, s);
    TakenUpIsRecorded(id, s, Accepting(id), BANK);
    var d := DispatchAttempt(id, s, Accepting(id)).c;
    StatusOfAttempt(id, d, |d.attempts|);
    OneMoreReference(id, s, d);
  }

  lemma OneMoreReference(id: SessionId, s: Case, d: Case)
    requires OwnReferences(id, s) && |d.attempts| == |s.attempts| + 1 && d.attempts[..|s.attempts|] == s.attempts
    requires d.attempts[|s.attempts|].reference == Some(Keys.ClientReference(id, |s.attempts| + 1))
    ensures OwnReferences(id, d)
  {
    assert forall i | 0 <= i < |s.attempts| :: d.attempts[i] == d.attempts[..|s.attempts|][i];
  }

  lemma DepositedConverts(id: SessionId)
    ensures var c := Deposited(10.0); Initial(c) && Convertible(id, c) && Converted(id, c).attempts == []
  {
    assert LockedValue(10.0, Lock(1.0, 1.0)) == 10.0;
  }

  lemma FirstGoesOut(id: SessionId, c: Case)
    requires c in Sound(id) && c.status == PendingDispatch && Convertible(id, c) && Converted(id, c).attempts == []
    ensures var s := Step(id, c, Worker(Accepting(id))).c; s in Sound(id) && Out(id, s, 1)
  {
    ConvertibleIsReady(id, c);
    WorkDispatches(id, c, Accepting(id));
    GoesOut(id, Converted(id, c));
  }

  /** A bounce is reported, and the code sends the payout out again. */
  lemma SecondGoesOut(id: SessionId, s: Case)
    requires s in Sound(id) && Out(id, s, 1)
    ensures var t := BankStep(s, 1, Returned);
            var d := Hook(id, t, Accepting(id), HookFailed, 1, "bounced").c;
            t in Sound(id) && !InFlightNow(t, 1) && d in Sound(id) && Out(id, d, 2)
  {
    var t, env := BankStep(s, 1, Returned), Accepting(id);
    BankKeeps(id, s, 1, Returned);
    FailureKeeps(id, t, 1, 2, "bounced");
    Bounced(id, t);
    GoesOut(id, Reversal(id, t));
  }

  function Reversal(id: SessionId, t: Case): Case
    requires |t.attempts| == 1
  {
    MarkFailed(t, 1, 2, "bounced").(journal := Then(t.journal, ReversalPosting(AttemptReversal(id, 1), t)))
  }

  lemma Bounced(id: SessionId, t: Case)
    requires t in Sound(id) && t.status == Settling && |t.attempts| == 1 && IsDispatched(t, 1)
    requires OwnReferences(id, t) && Reversal(id, t) in Rounds(id)
    ensures OwnReferences(id, Reversal(id, t))
    ensures Hook(id, t, Accepting(id), HookFailed, 1, "bounced") == DispatchAttempt(id, Reversal(id, t), Accepting(id))
  {
  }

  lemma SuccessPays(id: SessionId, t: Case)
    requires t in Sound(id) && t.status == Settling && |t.attempts| == 2 && IsDispatched(t, 2) && OwnReferences(id, t)
    requires t.attempts[1].funds == Paid
    ensures var d := Hook(id, t, Accepting(id), HookSucceeded, 2, "").c; d in Sound(id) && PaidTwo(id, d)
  {
    SucceededKeeps(id, t, 2);
    assert PayoutSucceeded(t, 2).c.attempts == t.attempts[1 := t.attempts[1].(status := Succeeded)];
  }

  lemma SecondIsPaid(id: SessionId, s: Case)
    requires s in Sound(id) && Out(id, s, 2)
    ensures var t := BankStep(s, 2, Paid);
            var d := Hook(id, t, Accepting(id), HookSucceeded, 2, "").c;
            t in Sound(id) && d in Sound(id) && PaidTwo(id, d)
  {
    BankKeeps(id, s, 2, Paid);
    SuccessPays(id, BankStep(s, 2, Paid));
  }

  lemma FirstOutRuns(id: SessionId)
    ensures var c, evs := Deposited(10.0), [Worker(Accepting(id))];
            Initial(c) && TruthfulRun(id, c, evs) && After(id, c, evs) in Sound(id) && Out(id, After(id, c, evs), 1)
  {
    var c := Deposited(10.0);
    HonestlyAccepting(id);
    DepositedConverts(id);
    InitialIsSound(id, c);
    FirstGoesOut(id, c);
    OneStep(id, c, Worker(Accepting(id)));
  }

  lemma SecondOutRuns(id: SessionId)
    ensures var c := Deposited(10.0);
            var s := After(id, c, SecondOut(id));
            Initial(c) && TruthfulRun(id, c, SecondOut(id)) && s in Sound(id) && Out(id, s, 2)
  {
    var c, evs := Deposited(10.0), [Worker(Accepting(id))];
    FirstOutRuns(id);
    var s := After(id, c, evs);
    BounceRuns(id, c, evs, s);
  }

  lemma BounceRuns(id: SessionId, c: Case, evs: seq<Event>, s: Case)
    requires TruthfulRun(id, c, evs) && After(id, c, evs) == s && s in Sound(id) && Out(id, s, 1)
    ensures var all := evs + [BankMoves(1, Returned)] + [Callback(Accepting(id), HookFailed, 1, "bounced")];
            TruthfulRun(id, c, all) && After(id, c, all) in Sound(id) && Out(id, After(id, c, all), 2)
  {
    HonestlyAccepting(id);
    SecondGoesOut(id, s);
    RunSteps(id, c, evs, s, BankMoves(1, Returned));
    RunSteps(id, c, evs + [BankMoves(1, Returned)], BankStep(s, 1, Returned),
             Callback(Accepting(id), HookFailed, 1, "bounced"));
  }

  lemma SecondPaidRuns(id: SessionId)
    ensures var c := Deposited(10.0);
            var s := After(id, c, SecondPaid(id));
            Initial(c) && TruthfulRun(id, c, SecondPaid(id)) && s in Sound(id) && PaidTwo(id, s)
  {
    var c, env, evs := Deposited(10.0), Accepting(id), SecondOut(id);
    HonestlyAccepting(id);
    SecondOutRuns(id);
    var d := After(id, c, evs);
    SecondIsPaid(id, d);
    RunSteps(id, c, evs, d, BankMoves(2, Paid));
    RunSteps(id, c, evs + [BankMoves(2, Paid)], BankStep(d, 2, Paid), Callback(env, HookSucceeded, 2, ""));
  }

  /** A late return callback for the failed first attempt: truthful, yet it books back what the second attempt paid. */
  lemma ReturnOfAnotherAttempt(id: SessionId)
    ensures var s := After(id, Deposited(10.0), SecondPaid(id));
            var ev := Callback(Accepting(id), HookReturned, 1, "");
            && Initial(Deposited(10.0)) && TruthfulRun(id, Deposited(10.0), SecondPaid(id) + [ev])
            && |s.attempts| == 2 && s.attempts[0].reference != s.attempts[1].reference
            && Step(id, s, ev).c.status == Reversed && InFlightNow(Step(id, s, ev).c, 2)
  {
    var s, ev := After(id, Deposited(10.0), SecondPaid(id)), Callback(Accepting(id), HookReturned, 1, "");
    SecondPaidRuns(id);
    HonestlyAccepting(id);
    OnlyLatestLive(id, s);
    RunSteps(id, Deposited(10.0), SecondPaid(id), s, ev);
    ReturnIgnoresAttempt(id, s, Accepting(id), 1, "");
    if Keys.ClientReference(id, 1) == Keys.ClientReference(id, 2) {
      Keys.ClientReferenceIsOwn(id, 1, id, 2);
    }
  }

  // ----- a retry after a human has sent the money -----

  /** The next worker's run on a parked settlement would dispatch, and the provider would take it. */
  predicate Dispatchable(id: SessionId, s: Case, env: Env, provider: string) {
    var reply := env.replies(|s.attempts| + 1);
    && s.lock.Some? && s.confirmedTotal > 0.0 && s.terms.asset != ""
        && LockedValue(s.confirmedTotal, s.lock.value) > 0.0
    && Choose(Enabled(env), Tried(s.attempts)) == Some(provider)
    && reply.kind in {Accepted, Uncertain} && reply.sent
  }

  /** The parked settlement as the next dispatch finds it after a retry. */
  function Reworked(id: SessionId, s: Case): Case
    requires s.lock.Some?
  {
    RetryPayout(id, s, None, false, "").c.(status := Settling, amount := LockedValue(s.confirmedTotal, s.lock.value))
  }

  lemma RetryIsWorked(id: SessionId, s: Case, env: Env, provider: string)
    requires s in Sound(id) && s.status == AwaitingManualPayout && Dispatchable(id, s, env, provider)
    ensures var retried := RetryPayout(id, s, None, false, "");
            && retried.outcome == Done && Work(id, retried.c, env) == DispatchAttempt(id, Reworked(id, s), env)
            && Reworked(id, s).attempts == s.attempts && Reworked(id, s).hand == s.hand
            && Postable(ClaimPosting(Payout(id, |s.attempts| + 1), Reworked(id, s)))
            && Payout(id, |s.attempts| + 1) !in Settlement.Keys(Reworked(id, s).journal)
  {
    var queued := RetryPayout(id, s, None, false, "").c;
    assert FirstDispatched(id, s);
    assert ProcessSettlement(id, queued.(status := Dispatching), env) == DispatchAttempt(id, Reworked(id, s), env);
  }

  /** What the retry and the worker's run make of a parked settlement, whatever was sent by hand. */
  lemma RetriedGoesOut(id: SessionId, s: Case, env: Env, provider: string)
    requires s in Sound(id) && s.status == AwaitingManualPayout && Dispatchable(id, s, env, provider)
    ensures var retried := RetryPayout(id, s, None, false, "");
            var d := Work(id, retried.c, env).c;
            && retried.outcome == Done && d.status == Settling && d.hand == s.hand
            && |d.attempts| == |s.attempts| + 1 && InFlightNow(d, |d.attempts|)
            && d.attempts[..|s.attempts|] == s.attempts
  {
    RetryIsWorked(id, s, env, provider);
    DispatchUnfolds(id, Reworked(id, s), env, provider);
  }

  /**
   * Ops may retry a parked settlement without a word about the human who was told to pay it: two payouts are then out
   * exactly when the human has sent the money already, and the button that would have said so is refused.
   */
  lemma RetryPaysTwiceIffSentByHand(id: SessionId, s: Case, env: Env, provider: string, who: string)
    requires s in Sound(id) && s.status == AwaitingManualPayout && Dispatchable(id, s, env, provider)
    ensures var d := Work(id, RetryPayout(id, s, None, false, "").c, env).c;
            && ((exists m: nat, n: nat :: m < n && OutNow(d, m) && OutNow(d, n)) <==> Live(s.hand))
            && ManualSettle(id, d, who) == Effect(d, NotAwaitingManualPayout)
  {
    var d := Work(id, RetryPayout(id, s, None, false, "").c, env).c;
    RetriedGoesOut(id, s, env, provider);
    OnlyParkedByHand(id, s);
    forall m: nat | 1 <= m <= |s.attempts| ensures !OutNow(d, m) {
      assert d.attempts[..|s.attempts|][m - 1] == s.attempts[m - 1];
    }
    if Live(s.hand) {
      assert OutNow(d, 0) && OutNow(d, |d.attempts|);
    }
  }

  lemma OnlyParkedByHand(id: SessionId, s: Case)
    requires s in Sound(id) && s.status == AwaitingManualPayout
    ensures forall m: nat :: !InFlightNow(s, m)
  {
  }
}
