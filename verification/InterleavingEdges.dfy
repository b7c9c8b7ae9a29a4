/**
 * Why both disciplines are needed for one open payout. A run that was overtaken during its back-off may still give the
 * settlement up, and park it for payment by hand while a later attempt is open; and after a success callback that died
 * half way ops can requeue a payout that has arrived.
 */
module InterleavingEdges {
  import opened Ledger
  import opened Settlement
  import opened Interleaving
  import opened InterleavingSerial
  import opened InterleavingMoves

  /** The first attempt is out, and ops were told that it is late. */
  function FirstOpen(id: SessionId): State {
    State(Settling, 1, true, map[1 := Dispatched], [DepositConfirmed(id), FxConversion(id), Payout(id, 1)], [1], map[])
  }

  lemma FirstIsOpen(id: SessionId, r: Reach)
    requires ClosedUnder(id, r) && START in r.states
    ensures FirstOpen(id) in r.states
  {
    Works(id, r, START, 0);
    var ready := START.(status := Settling, journal := [DepositConfirmed(id), FxConversion(id)]);
    assert Posts(Posts(START, DepositConfirmed(id)), FxConversion(id)).(status := Settling) == ready;
    Sends(id, r, ready, 0);
    assert Sent(id, ready) == FirstOpen(id).(paged := false);
    assert FirstOpen(id).attempts[1] == Dispatched;
    Continues(id, r, FirstOpen(id).(paged := false), 0, TimeoutPage);
  }

  /** Its failure callback has posted the reversal and sleeps before the next attempt. */
  function BackingOff(id: SessionId): State {
    State(Settling, 1, true, map[1 := Failed(2)],
          [DepositConfirmed(id), FxConversion(id), Payout(id, 1), AttemptReversal(id, 1)], [1], map[])
  }

  lemma FailsOpen(id: SessionId, r: Reach, s: State, p: ProcessId, n: nat)
    requires ClosedUnder(id, r)
    requires p !in s.processes && At(s, p, Pc.MarkFailed(n, 2)) in r.states && n in s.attempts
             && s.attempts[n] == Dispatched
    ensures At(s.(attempts := s.attempts[n := Failed(2)]), p, ReadBack(n, 2)) in r.states
  {
    Continues(id, r, At(s, p, Pc.MarkFailed(n, 2)), p, ACCEPTS);
    Replaced(s.(attempts := s.attempts[n := Failed(2)]), p, Pc.MarkFailed(n, 2), ReadBack(n, 2));
  }

  lemma ReadsBack(id: SessionId, r: Reach, s: State, p: ProcessId, n: nat)
    requires ClosedUnder(id, r)
    requires p !in s.processes && At(s, p, ReadBack(n, 2)) in r.states
    ensures At(s, p, PostReversal(n, 2, s.count)) in r.states
  {
    Continues(id, r, At(s, p, ReadBack(n, 2)), p, ACCEPTS);
    Replaced(s, p, ReadBack(n, 2), PostReversal(n, 2, s.count));
  }

  lemma ReversesIt(id: SessionId, r: Reach, s: State, p: ProcessId, n: nat, count: nat)
    requires ClosedUnder(id, r)
    requires p !in s.processes && At(s, p, PostReversal(n, 2, count)) in r.states && n < MAX_AUTO_RETRY_ATTEMPTS
    ensures At(Posts(s, AttemptReversal(id, n)), p, PostClaim(count)) in r.states
  {
    Continues(id, r, At(s, p, PostReversal(n, 2, count)), p, ACCEPTS);
    Replaced(Posts(s, AttemptReversal(id, n)), p, PostReversal(n, 2, count), PostClaim(count));
  }

  lemma IsBackingOff(id: SessionId, r: Reach)
    requires ClosedUnder(id, r) && START in r.states
    ensures At(BackingOff(id), 1, PostClaim(1)) in r.states
  {
    var s := FirstOpen(id);
    var failed := s.(attempts := map[1 := Failed(2)]);
    FirstIsOpen(id, r);
    Enters(id, r, s, 1, FailureHook(1));
    FailsOpen(id, r, s, 1, 1);
    assert s.attempts[1 := Failed(2)] == failed.attempts;
    ReadsBack(id, r, failed, 1, 1);
    ReversesIt(id, r, failed, 1, 1, 1);
    assert Posts(failed, AttemptReversal(id, 1)) == BackingOff(id);
  }

  // ----- without one process after the other -----

  const OVERTAKING := Discipline(false, true, true)

  lemma IsRequeued(id: SessionId, r: Reach)
    requires ClosedUnder(id, r) && START in r.states && r.d == OVERTAKING
    ensures At(BackingOff(id).(status := PendingDispatch, paged := false), 1, PostClaim(1)) in r.states
  {
    IsBackingOff(id, r);
    Retries(id, r, At(BackingOff(id), 1, PostClaim(1)), 2);
  }

  /** A worker has sent the second attempt, and the provider took it. */
  function SecondOpen(id: SessionId): State {
    State(Settling, 2, false, map[1 := Failed(2), 2 := Dispatched],
          [DepositConfirmed(id), FxConversion(id), Payout(id, 1), AttemptReversal(id, 1), Payout(id, 2)], [1, 2],
          map[1 := PostClaim(1)])
  }

  lemma SecondIsOpen(id: SessionId, r: Reach)
    requires ClosedUnder(id, r) && START in r.states && r.d == OVERTAKING
    ensures SecondOpen(id) in r.states
  {
    var queued := At(BackingOff(id).(status := PendingDispatch, paged := false), 1, PostClaim(1));
    IsRequeued(id, r);
    Works(id, r, queued, 3);
    var ready := queued.(status := Settling);
    assert queued.journal[0] == DepositConfirmed(id) && queued.journal[1] == FxConversion(id);
    assert Posts(Posts(queued, DepositConfirmed(id)), FxConversion(id)).(status := Settling) == ready;
    Sends(id, r, ready, 3);
    assert Sent(id, ready) == SecondOpen(id);
  }

  /** The sleeper wakes, finds nobody to send to, and hands the settlement to a human. */
  function Parked(id: SessionId): State {
    SecondOpen(id).(status := AwaitingManualPayout, paged := true, processes := map[])
  }

  lemma IsParked(id: SessionId, r: Reach)
    requires ClosedUnder(id, r) && START in r.states && r.d == OVERTAKING
    ensures Parked(id) in r.states
  {
    var s := SecondOpen(id).(processes := map[]);
    SecondIsOpen(id, r);
    assert At(s, 1, PostClaim(1)) == SecondOpen(id);
    FindsNobody(id, r, s, 1, 1);
    HandsOver(id, r, s, 1);
  }

  /** The human pays: two payouts are out, the second attempt's and the one by hand. */
  lemma OvertakenRunLeavesTwoPayouts(id: SessionId)
    ensures exists s | s in Reachable(id, OVERTAKING, START) ::
              s.status == Settled && s.calls == [1, 2]
              && s.attempts == map[1 := Failed(2), 2 := Dispatched, 3 := Succeeded]
  {
    var s, r := Parked(id), Reach(OVERTAKING, Reachable(id, OVERTAKING, START));
    ReachableIsClosed(id, OVERTAKING, START);
    IsParked(id, r);
    PaysByHand(id, r, s, 4);
    var paid := PaidByHand(s);
    assert paid.attempts == map[1 := Failed(2), 2 := Dispatched, 3 := Succeeded];
    assert At(paid, 4, PostHandPayment) in r.states;
  }

  // ----- without informed confirmations -----

  const UNINFORMED := Discipline(true, false, true)

  /** The success callback recorded its attempt and died before it settled the settlement. */
  function HalfSettled(id: SessionId): State {
    FirstOpen(id).(attempts := map[1 := Succeeded])
  }

  lemma IsHalfSettled(id: SessionId, r: Reach)
    requires ClosedUnder(id, r) && START in r.states && r.d == UNINFORMED
    ensures HalfSettled(id) in r.states
  {
    var s, half := FirstOpen(id), HalfSettled(id);
    FirstIsOpen(id, r);
    Enters(id, r, s, 1, SuccessHook(1));
    Continues(id, r, At(s, 1, MarkSucceeded(1)), 1, ACCEPTS);
    Replaced(half, 1, MarkSucceeded(1), ToSettled);
    assert s.attempts[1 := Succeeded] == half.attempts;
    assert Next(id, At(s, 1, MarkSucceeded(1)), 1, ACCEPTS) == At(half, 1, ToSettled);
    Continues(id, r, At(half, 1, ToSettled), 1, Stop);
  }

  /** Ops are asked about a payout that is late, and the code looks for open rows only. */
  lemma IsRequeuedAfterSuccess(id: SessionId, r: Reach)
    requires ClosedUnder(id, r) && START in r.states && r.d == UNINFORMED
    ensures HalfSettled(id).(status := PendingDispatch, paged := false) in r.states
  {
    IsHalfSettled(id, r);
    Retries(id, r, HalfSettled(id), 2);
  }

  /** The worker then pays a second time. */
  lemma RetryAfterHalfSuccessPaysAgain(id: SessionId)
    ensures exists s | s in Reachable(id, UNINFORMED, START) ::
              s.status == Settling && s.calls == [1, 2] && s.attempts == map[1 := Succeeded, 2 := Dispatched]
  {
    var r := Reach(UNINFORMED, Reachable(id, UNINFORMED, START));
    var queued := HalfSettled(id).(status := PendingDispatch, paged := false);
    ReachableIsClosed(id, UNINFORMED, START);
    IsRequeuedAfterSuccess(id, r);
    Works(id, r, queued, 3);
    var ready := queued.(status := Settling);
    assert queued.journal[0] == DepositConfirmed(id) && queued.journal[1] == FxConversion(id);
    assert Posts(Posts(queued, DepositConfirmed(id)), FxConversion(id)).(status := Settling) == ready;
    Sends(id, r, ready, 3);
    assert Sent(id, ready).attempts == map[1 := Succeeded, 2 := Dispatched];
    assert Sent(id, ready) in r.states && Sent(id, ready).calls == [1, 2];
  }
}
