/** Stretches of the entry points, statement by statement, from any state and next to whatever else is going on. */
module InterleavingMoves {
  import opened Ledger
  import opened Settlement
  import opened Interleaving
  import opened InterleavingSerial

  ghost predicate Reached(id: SessionId, d: Discipline, start: State, s: State) {
    exists moves :: Obeys(id, d, start, moves) && From(id, start, moves) == s
  }

  /** The states that are reached from another by moves under a discipline. */
  ghost function Reachable(id: SessionId, d: Discipline, start: State): iset<State> {
    iset s: State | Reached(id, d, start, s)
  }

  lemma OneMove(id: SessionId, d: Discipline, start: State, s: State, p: ProcessId, move: Move)
    requires s in Reachable(id, d, start) && Permits(d, s, move)
    ensures Next(id, s, p, move) in Reachable(id, d, start)
  {
    var moves :| Obeys(id, d, start, moves) && From(id, start, moves) == s;
    var more := moves + [(p, move)];
    assert more[..|moves|] == moves;
    assert From(id, start, more) == Next(id, s, p, move);
  }

  /** Some states that are closed under the moves that a discipline permits. */
  datatype Reach = Reach(d: Discipline, states: iset<State>)

  ghost predicate ClosedUnder(id: SessionId, r: Reach) {
    forall s, p, move | s in r.states && Permits(r.d, s, move) :: Next(id, s, p, move) in r.states
  }

  lemma ReachableIsClosed(id: SessionId, d: Discipline, start: State)
    ensures ClosedUnder(id, Reach(d, Reachable(id, d, start))) && start in Reachable(id, d, start)
  {
    assert Obeys(id, d, start, []) && From(id, start, []) == start;
    forall s, p, move | s in Reachable(id, d, start) && Permits(d, s, move)
      ensures Next(id, s, p, move) in Reachable(id, d, start)
    {
      OneMove(id, d, start, s, p, move);
    }
  }

  lemma Enters(id: SessionId, r: Reach, s: State, p: ProcessId, entry: Interleaving.Entry)
    requires ClosedUnder(id, r) && s in r.states && Permits(r.d, s, Enter(entry))
    ensures Next(id, s, p, Enter(entry)) in r.states
  {
  }

  /** Only entering is subject to a discipline. */
  lemma Continues(id: SessionId, r: Reach, s: State, p: ProcessId, move: Move)
    requires ClosedUnder(id, r) && s in r.states && !move.Enter?
    ensures Next(id, s, p, move) in r.states
  {
    assert Permits(r.d, s, move);
  }

  const ACCEPTS := Execute(Chance(true, Accepted, false, 0))
  const NOBODY := Execute(Chance(false, Accepted, true, 0))

  /** A process at some statement, next to whatever else is going on. */
  function At(s: State, p: ProcessId, pc: Pc): State {
    s.(processes := s.processes[p := pc])
  }

  lemma Replaced(s: State, p: ProcessId, pc: Pc, next: Pc)
    requires p !in s.processes
    ensures At(At(s, p, pc), p, next) == At(s, p, next)
    ensures Ends(At(s, p, pc), p) == s
  {
    assert s.processes[p := pc] - {p} == s.processes;
  }

  /** The rows once attempt count + 1 is claimed and inserted. */
  function WithAttempt(id: SessionId, s: State): State {
    s.(count := s.count + 1, attempts := s.attempts[s.count + 1 := Dispatched],
       journal := s.journal + [Payout(id, s.count + 1)])
  }

  function Sent(id: SessionId, s: State): State {
    WithAttempt(id, s).(calls := s.calls + [s.count + 1])
  }

  lemma ClaimIs(id: SessionId, s: State, p: ProcessId, journal: seq<Key>)
    requires p !in s.processes && Payout(id, s.count + 1) !in s.journal
             && journal == s.journal + [Payout(id, s.count + 1)]
    ensures Next(id, At(s, p, PostClaim(s.count)), p, ACCEPTS)
            == At(s.(journal := journal), p, InsertAttempt(s.count + 1))
  {
    var at := At(s, p, PostClaim(s.count));
    assert p in at.processes && at.processes[p] == PostClaim(s.count);
    Replaced(s.(journal := journal), p, PostClaim(s.count), InsertAttempt(s.count + 1));
  }

  lemma Claims(id: SessionId, r: Reach, s: State, p: ProcessId)
    requires ClosedUnder(id, r)
    requires p !in s.processes && At(s, p, PostClaim(s.count)) in r.states
             && Payout(id, s.count + 1) !in s.journal
    ensures At(s.(journal := s.journal + [Payout(id, s.count + 1)]), p, InsertAttempt(s.count + 1)) in r.states
  {
    Continues(id, r, At(s, p, PostClaim(s.count)), p, ACCEPTS);
    ClaimIs(id, s, p, s.journal + [Payout(id, s.count + 1)]);
  }

  lemma Inserts(id: SessionId, r: Reach, s: State, p: ProcessId, n: nat)
    requires ClosedUnder(id, r)
    requires p !in s.processes && At(s, p, InsertAttempt(n)) in r.states && n !in s.attempts
    ensures At(s.(attempts := s.attempts[n := Dispatched]), p, BumpCount(n)) in r.states
  {
    Continues(id, r, At(s, p, InsertAttempt(n)), p, ACCEPTS);
    Replaced(s.(attempts := s.attempts[n := Dispatched]), p, InsertAttempt(n), BumpCount(n));
  }

  lemma Bumps(id: SessionId, r: Reach, s: State, p: ProcessId, n: nat)
    requires ClosedUnder(id, r)
    requires p !in s.processes && At(s, p, BumpCount(n)) in r.states
    ensures At(s.(count := n), p, CallProvider(n)) in r.states
  {
    Continues(id, r, At(s, p, BumpCount(n)), p, ACCEPTS);
    Replaced(s.(count := n), p, BumpCount(n), CallProvider(n));
  }

  lemma Calls(id: SessionId, r: Reach, s: State, p: ProcessId, n: nat)
    requires ClosedUnder(id, r)
    requires p !in s.processes && At(s, p, CallProvider(n)) in r.states
    ensures At(s.(calls := s.calls + [n]), p, TakeUpReply(n, Accepted)) in r.states
  {
    Continues(id, r, At(s, p, CallProvider(n)), p, ACCEPTS);
    Replaced(s.(calls := s.calls + [n]), p, CallProvider(n), TakeUpReply(n, Accepted));
  }

  lemma Returns(id: SessionId, r: Reach, s: State, p: ProcessId, n: nat)
    requires ClosedUnder(id, r)
    requires p !in s.processes && At(s, p, TakeUpReply(n, Accepted)) in r.states
    ensures s in r.states
  {
    Continues(id, r, At(s, p, TakeUpReply(n, Accepted)), p, ACCEPTS);
    Replaced(s, p, TakeUpReply(n, Accepted), TakeUpReply(n, Accepted));
  }

  /** From the claim on, undisturbed, with a provider that accepts. */
  lemma Sends(id: SessionId, r: Reach, s: State, p: ProcessId)
    requires ClosedUnder(id, r)
    requires p !in s.processes && At(s, p, PostClaim(s.count)) in r.states
    requires s.count + 1 !in s.attempts && Payout(id, s.count + 1) !in s.journal
    ensures Sent(id, s) in r.states
  {
    var n := s.count + 1;
    var claimed := s.(journal := s.journal + [Payout(id, n)]);
    Claims(id, r, s, p);
    Inserts(id, r, claimed, p, n);
    Bumps(id, r, claimed.(attempts := s.attempts[n := Dispatched]), p, n);
    Calls(id, r, WithAttempt(id, s), p, n);
    Returns(id, r, Sent(id, s), p, n);
  }

  lemma Takes(id: SessionId, r: Reach, s: State, p: ProcessId)
    requires ClosedUnder(id, r)
    requires p !in s.processes && s in r.states && s.status == PendingDispatch && Permits(r.d, s, Enter(Worker))
    ensures At(s.(status := Dispatching), p, PostDeposit(s.count)) in r.states
  {
    Enters(id, r, s, p, Worker);
    Continues(id, r, At(s, p, TakeRow), p, ACCEPTS);
    Replaced(s.(status := Dispatching), p, TakeRow, PostDeposit(s.count));
  }

  lemma PostsBoth(id: SessionId, r: Reach, s: State, p: ProcessId, count: nat)
    requires ClosedUnder(id, r)
    requires p !in s.processes && At(s, p, PostDeposit(count)) in r.states
    ensures At(Posts(Posts(s, DepositConfirmed(id)), FxConversion(id)), p, ToSettling(count)) in r.states
  {
    var deposited := Posts(s, DepositConfirmed(id));
    Continues(id, r, At(s, p, PostDeposit(count)), p, ACCEPTS);
    Replaced(deposited, p, PostDeposit(count), PostFx(count));
    Continues(id, r, At(deposited, p, PostFx(count)), p, ACCEPTS);
    Replaced(Posts(deposited, FxConversion(id)), p, PostFx(count), ToSettling(count));
  }

  lemma MovesOn(id: SessionId, r: Reach, s: State, p: ProcessId, count: nat)
    requires ClosedUnder(id, r)
    requires p !in s.processes && At(s, p, ToSettling(count)) in r.states && s.status == Dispatching
    ensures At(s.(status := Settling), p, PostClaim(count)) in r.states
  {
    Continues(id, r, At(s, p, ToSettling(count)), p, ACCEPTS);
    Replaced(s.(status := Settling), p, ToSettling(count), PostClaim(count));
  }

  /** A worker takes the pending row up to its claim. */
  lemma Works(id: SessionId, r: Reach, s: State, p: ProcessId)
    requires ClosedUnder(id, r)
    requires p !in s.processes && s in r.states && s.status == PendingDispatch && Permits(r.d, s, Enter(Worker))
    ensures At(Posts(Posts(s, DepositConfirmed(id)), FxConversion(id)).(status := Settling), p, PostClaim(s.count))
            in r.states
  {
    var taken := s.(status := Dispatching);
    Takes(id, r, s, p);
    PostsBoth(id, r, taken, p, s.count);
    MovesOn(id, r, Posts(Posts(taken, DepositConfirmed(id)), FxConversion(id)), p, s.count);
  }

  lemma NothingOpen(id: SessionId, s: State, p: ProcessId)
    requires p in s.processes && s.processes[p].ConfirmFailed?
    requires forall n | n in s.attempts :: s.attempts[n] != Dispatched
    ensures Next(id, s, p, ACCEPTS) == Goes(s, p, PostConfirmed({}))
  {
    var next := Next(id, s, p, ACCEPTS);
    assert next.attempts == s.attempts;
    assert next.processes[p].pending == {};
  }

  /** Ops, who have confirmed the failure themselves, find no open row and put the settlement back into the queue. */
  lemma Confirms(id: SessionId, r: Reach, s: State, p: ProcessId)
    requires ClosedUnder(id, r)
    requires p !in s.processes && At(s, p, Pc.ConfirmFailed) in r.states && NoneIs(s.attempts, Dispatched)
    ensures At(s, p, PostConfirmed({})) in r.states
  {
    Continues(id, r, At(s, p, Pc.ConfirmFailed), p, ACCEPTS);
    Replaced(s, p, Pc.ConfirmFailed, PostConfirmed({}));
    NothingOpen(id, At(s, p, Pc.ConfirmFailed), p);
  }

  lemma ConfirmedAll(id: SessionId, r: Reach, s: State, p: ProcessId)
    requires ClosedUnder(id, r)
    requires p !in s.processes && At(s, p, PostConfirmed({})) in r.states
    ensures At(s, p, Pc.Requeue(Settling)) in r.states
  {
    Continues(id, r, At(s, p, PostConfirmed({})), p, ACCEPTS);
    Replaced(s, p, PostConfirmed({}), Pc.Requeue(Settling));
  }

  lemma Requeues(id: SessionId, r: Reach, s: State, p: ProcessId)
    requires ClosedUnder(id, r)
    requires p !in s.processes && At(s, p, Pc.Requeue(Settling)) in r.states && s.status == Settling
    ensures s.(status := PendingDispatch, paged := false) in r.states
  {
    Continues(id, r, At(s, p, Pc.Requeue(Settling)), p, ACCEPTS);
    Replaced(s.(status := PendingDispatch, paged := false), p, Pc.Requeue(Settling), Pc.Requeue(Settling));
  }

  lemma Retries(id: SessionId, r: Reach, s: State, p: ProcessId)
    requires ClosedUnder(id, r)
    requires p !in s.processes && s in r.states && Permits(r.d, s, Enter(OpsRetry(true)))
    requires s.status == Settling && s.paged && NoneIs(s.attempts, Dispatched)
    ensures s.(status := PendingDispatch, paged := false) in r.states
  {
    Enters(id, r, s, p, OpsRetry(true));
    assert Next(id, s, p, Enter(OpsRetry(true))) == At(s, p, Pc.ConfirmFailed);
    Confirms(id, r, s, p);
    ConfirmedAll(id, r, s, p);
    Requeues(id, r, s, p);
  }

  /** Nobody to send to. */
  lemma FindsNobody(id: SessionId, r: Reach, s: State, p: ProcessId, count: nat)
    requires ClosedUnder(id, r)
    requires p !in s.processes && At(s, p, PostClaim(count)) in r.states
    ensures At(s, p, GiveUp) in r.states
  {
    Continues(id, r, At(s, p, PostClaim(count)), p, NOBODY);
    Replaced(s, p, PostClaim(count), GiveUp);
  }

  lemma HandsOver(id: SessionId, r: Reach, s: State, p: ProcessId)
    requires ClosedUnder(id, r)
    requires p !in s.processes && At(s, p, GiveUp) in r.states && s.status == Settling
    ensures s.(status := AwaitingManualPayout, paged := true) in r.states
  {
    Continues(id, r, At(s, p, GiveUp), p, NOBODY);
    Replaced(s.(status := AwaitingManualPayout, paged := true), p, GiveUp, GiveUp);
  }

  /** The rows once a payment by hand is recorded. */
  function PaidByHand(s: State): State {
    s.(status := Settled, attempts := s.attempts[s.count + 1 := Succeeded], count := s.count + 1)
  }

  lemma HandPaymentIs(id: SessionId, s: State, p: ProcessId)
    requires p !in s.processes && s.status == AwaitingManualPayout && s.count + 1 !in s.attempts
    ensures Executed(id, At(s, p, RecordHandPayment(s.count)), p, NOBODY.chance)
            == At(PaidByHand(s), p, PostHandPayment)
  {
    Replaced(PaidByHand(s), p, RecordHandPayment(s.count), PostHandPayment);
  }

  lemma EntersByHand(id: SessionId, r: Reach, s: State, p: ProcessId)
    requires ClosedUnder(id, r) && Permits(r.d, s, Enter(HandPayment))
    requires p !in s.processes && s in r.states && s.status == AwaitingManualPayout
    ensures At(s, p, RecordHandPayment(s.count)) in r.states
  {
    Enters(id, r, s, p, HandPayment);
  }

  /** The payment by hand as its row is written. */
  lemma PaysByHand(id: SessionId, r: Reach, s: State, p: ProcessId)
    requires ClosedUnder(id, r) && Permits(r.d, s, Enter(HandPayment))
    requires p !in s.processes && s in r.states
    requires s.status == AwaitingManualPayout && s.count + 1 !in s.attempts
    ensures At(PaidByHand(s), p, PostHandPayment) in r.states
  {
    EntersByHand(id, r, s, p);
    HandPaymentIs(id, s, p);
    Continues(id, r, At(s, p, RecordHandPayment(s.count)), p, NOBODY);
  }
}
