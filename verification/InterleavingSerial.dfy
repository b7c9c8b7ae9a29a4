/**
 * When one payout at most is open although processes die: they must come one after the other, and ops must not confirm
 * a failure while an attempt is recorded as succeeded.
 */
module InterleavingSerial {
  import opened Ledger
  import opened Settlement
  import opened Interleaving

  /**
   * Serial: nobody enters while somebody is there. Informed: no confirmed failure while an attempt has succeeded.
   * Genuine: callbacks are about attempts that were sent, as the lookup by the provider's reference sees to.
   */
  datatype Discipline = Discipline(serial: bool, informed: bool, genuine: bool)

  type Rows = map<nat, AttemptStatus>

  predicate NoneIs(attempts: Rows, status: AttemptStatus) {
    forall n | n in attempts :: attempts[n] != status
  }

  predicate Permits(d: Discipline, s: State, move: Move) {
    move.Enter? ==>
      && (d.serial ==> s.processes == map[])
      && (d.informed && move.entry == OpsRetry(true) && s.status == Settling ==> NoneIs(s.attempts, Succeeded))
      && (d.genuine ==> Genuine(s, move.entry))
  }

  predicate Genuine(s: State, entry: Interleaving.Entry) {
    match entry
    case FailureHook(n) => n in s.calls
    case SuccessHook(n) => n in s.calls
    case _ => true
  }

  predicate Obeys(id: SessionId, d: Discipline, s: State, moves: seq<(ProcessId, Move)>) {
    moves == []
    || (Obeys(id, d, s, moves[..|moves| - 1]) && Permits(d, From(id, s, moves[..|moves| - 1]), moves[|moves| - 1].1))
  }

  const DISCIPLINED := Discipline(true, true, false)

  /** The attempt's money may be out, or has arrived. */
  predicate IsOpen(attempts: Rows, n: nat) {
    n in attempts && !attempts[n].Failed?
  }

  predicate NoneOpen(attempts: Rows) {
    NoneIs(attempts, Dispatched) && NoneIs(attempts, Succeeded)
  }

  ghost predicate OneOpen(attempts: Rows) {
    forall m: nat, n: nat | IsOpen(attempts, m) && IsOpen(attempts, n) :: m == n
  }

  /** One attempt at most is open, and the status says whether one may be. */
  ghost predicate RowsFit(s: State) {
    && OneOpen(s.attempts)
    && (NoneIs(s.attempts, Dispatched) || s.status == Settling)
    && (NoneIs(s.attempts, Succeeded) || s.status in {Settling, Settled, Reversed})
  }

  /** What a process may rely on where it stands, while nobody else is there. */
  predicate Fits(s: State, pc: Pc) {
    match pc
    case TakeRow => NoneOpen(s.attempts) && s.status == PendingDispatch
    case PostDeposit(_) => NoneOpen(s.attempts) && s.status == Dispatching
    case PostFx(_) => NoneOpen(s.attempts) && s.status == Dispatching
    case ToSettling(_) => NoneOpen(s.attempts) && s.status == Dispatching
    case PostClaim(_) => NoneOpen(s.attempts) && s.status == Settling
    case InsertAttempt(_) => NoneOpen(s.attempts) && s.status == Settling
    case ReadBack(_, _) => NoneOpen(s.attempts) && s.status == Settling
    case PostReversal(_, _, _) => NoneOpen(s.attempts) && s.status == Settling
    case GiveUp => NoneOpen(s.attempts) && s.status == Settling
    case ToSettled => NoneIs(s.attempts, Dispatched)
    case ConfirmFailed => NoneIs(s.attempts, Succeeded) && s.status == Settling
    case PostConfirmed(_) => NoneOpen(s.attempts) && s.status == Settling
    case Requeue(from) => NoneOpen(s.attempts) && s.status == from
    case RecordHandPayment(_) => NoneOpen(s.attempts)
    case _ => true
  }

  ghost function Single(): iset<State> {
    iset s: State |
      && RowsFit(s)
      && (forall p, q | p in s.processes && q in s.processes :: p == q)
      && forall p | p in s.processes :: Fits(s, s.processes[p])
  }

  predicate Alone(s: State, p: ProcessId) {
    forall q | q in s.processes :: q == p
  }

  /** The one process changes rows and goes on. */
  lemma GoesKeepsSingle(s: State, p: ProcessId, rows: State, pc: Pc)
    requires s in Single() && Alone(s, p) && rows.processes == s.processes
    requires RowsFit(rows) && Fits(rows, pc)
    ensures Goes(rows, p, pc) in Single()
  {
    var after := Goes(rows, p, pc);
    assert forall q | q in after.processes :: q == p && Fits(after, after.processes[q]);
  }

  /** The one process changes rows and is gone. */
  lemma EndsKeepsSingle(s: State, p: ProcessId, rows: State)
    requires s in Single() && Alone(s, p) && rows.processes == s.processes && RowsFit(rows)
    ensures Ends(rows, p) in Single()
  {
  }

  /** A process dies. */
  lemma StopKeepsSingle(s: State, p: ProcessId)
    requires s in Single()
    ensures Ends(s, p) in Single()
  {
  }

  lemma PagingKeepsSingle(s: State, paged: bool)
    requires s in Single()
    ensures s.(paged := paged) in Single()
  {
    var after := s.(paged := paged);
    assert forall p | p in after.processes :: Fits(s, s.processes[p]) ==> Fits(after, after.processes[p]);
  }

  lemma EnterKeepsSingle(s: State, p: ProcessId, entry: Interleaving.Entry)
    requires s in Single() && s.processes == map[] && Permits(DISCIPLINED, s, Enter(entry))
    ensures Entered(s, p, entry) in Single()
  {
    match entry
    case Worker => if s.status == PendingDispatch { GoesKeepsSingle(s, p, s, TakeRow); }
    case FailureHook(n) => GoesKeepsSingle(s, p, s, Pc.MarkFailed(n, 2));
    case SuccessHook(n) => GoesKeepsSingle(s, p, s, MarkSucceeded(n));
    case ReturnHook => GoesKeepsSingle(s, p, s, ToReversed);
    case OpsRetry(confirmed) =>
      if s.status in {SettlementFailed, AwaitingManualPayout} {
        GoesKeepsSingle(s, p, s, Pc.Requeue(s.status));
      } else if s.status == Settling && s.paged && confirmed {
        GoesKeepsSingle(s, p, s, Pc.ConfirmFailed);
      }
    case HandPayment => if s.status == AwaitingManualPayout { GoesKeepsSingle(s, p, s, RecordHandPayment(s.count)); }
  }

  lemma WorkerKeepsSingle(id: SessionId, s: State, p: ProcessId, chance: Chance)
    requires s in Single() && p in s.processes && Alone(s, p) && Fits(s, s.processes[p])
    requires var pc := s.processes[p]; pc.TakeRow? || pc.PostDeposit? || pc.PostFx? || pc.ToSettling?
    ensures Executed(id, s, p, chance) in Single()
  {
    var pc := s.processes[p];
    match pc
    case TakeRow => GoesKeepsSingle(s, p, s.(status := Dispatching), PostDeposit(s.count));
    case PostDeposit(count) => GoesKeepsSingle(s, p, Posts(s, DepositConfirmed(id)), PostFx(count));
    case PostFx(count) => GoesKeepsSingle(s, p, Posts(s, FxConversion(id)), ToSettling(count));
    case ToSettling(count) => GoesKeepsSingle(s, p, s.(status := Settling), PostClaim(count));
  }

  lemma InsertionFits(s: State, n: nat)
    requires RowsFit(s) && NoneOpen(s.attempts) && s.status == Settling
    ensures RowsFit(s.(attempts := s.attempts[n := Dispatched]))
  {
  }

  /** Resolving the open attempt leaves none, or leaves it as the one that succeeded. */
  lemma ResolutionFits(s: State, n: nat, to: AttemptStatus)
    requires RowsFit(s) && n in s.attempts && s.attempts[n] == Dispatched && to != Dispatched
    ensures var after := s.(attempts := s.attempts[n := to]);
            RowsFit(after) && NoneIs(after.attempts, Dispatched) && after.status == Settling
                && (to.Failed? ==> NoneOpen(after.attempts))
  {
    var after := s.(attempts := s.attempts[n := to]);
    forall m | m in after.attempts && m != n ensures after.attempts[m].Failed? {
      assert IsOpen(s.attempts, n) && (IsOpen(s.attempts, m) ==> m == n);
    }
  }

  lemma DispatchingKeepsSingle(id: SessionId, s: State, p: ProcessId, chance: Chance)
    requires s in Single() && p in s.processes && Alone(s, p) && Fits(s, s.processes[p])
    requires var pc := s.processes[p];
             pc.PostClaim? || pc.InsertAttempt? || pc.BumpCount? || pc.CallProvider? || pc.TakeUpReply?
    ensures Executed(id, s, p, chance) in Single()
  {
    EndsKeepsSingle(s, p, s);
    var pc := s.processes[p];
    match pc
    case PostClaim(count) =>
      GoesKeepsSingle(s, p, s, GiveUp);
      GoesKeepsSingle(s, p, Posts(s, Payout(id, count + 1)), InsertAttempt(count + 1));
    case InsertAttempt(n) =>
      InsertionFits(s, n);
      GoesKeepsSingle(s, p, s.(attempts := s.attempts[n := Dispatched]), BumpCount(n));
    case BumpCount(n) => GoesKeepsSingle(s, p, s.(count := n), CallProvider(n));
    case CallProvider(n) => GoesKeepsSingle(s, p, s.(calls := s.calls + [n]), TakeUpReply(n, chance.reply));
    case TakeUpReply(n, _) =>
      GoesKeepsSingle(s, p, s, Pc.MarkFailed(n, 4));
      GoesKeepsSingle(s, p, s, Pc.MarkFailed(n, 1));
      EndsKeepsSingle(s, p, s.(paged := true));
  }

  lemma ResolvingKeepsSingle(id: SessionId, s: State, p: ProcessId, chance: Chance)
    requires s in Single() && p in s.processes && Alone(s, p) && Fits(s, s.processes[p])
    requires var pc := s.processes[p]; pc.MarkFailed? || pc.ReadBack? || pc.PostReversal? || pc.GiveUp?
    ensures Executed(id, s, p, chance) in Single()
  {
    EndsKeepsSingle(s, p, s);
    var pc := s.processes[p];
    match pc
    case MarkFailed(n, bucket) =>
      if n in s.attempts && s.attempts[n] == Dispatched {
        ResolutionFits(s, n, Failed(bucket));
        GoesKeepsSingle(s, p, s.(attempts := s.attempts[n := Failed(bucket)]), ReadBack(n, bucket));
      }
    case ReadBack(n, bucket) => GoesKeepsSingle(s, p, s, PostReversal(n, bucket, s.count));
    case PostReversal(n, _, count) =>
      GoesKeepsSingle(s, p, Posts(s, AttemptReversal(id, n)), GiveUp);
      GoesKeepsSingle(s, p, Posts(s, AttemptReversal(id, n)), PostClaim(count));
    case GiveUp =>
      EndsKeepsSingle(s, p,
                      s.(status := if chance.handedOver then AwaitingManualPayout else SettlementFailed,
                         paged := true));
  }

  lemma SucceedingKeepsSingle(id: SessionId, s: State, p: ProcessId, chance: Chance)
    requires s in Single() && p in s.processes && Alone(s, p) && Fits(s, s.processes[p])
    requires var pc := s.processes[p]; pc.MarkSucceeded? || pc.ToSettled? || pc.ToReversed? || pc.PostReturn?
    ensures Executed(id, s, p, chance) in Single()
  {
    EndsKeepsSingle(s, p, s);
    var pc := s.processes[p];
    match pc
    case MarkSucceeded(n) =>
      if n in s.attempts && s.attempts[n] == Dispatched {
        ResolutionFits(s, n, Succeeded);
        GoesKeepsSingle(s, p, s.(attempts := s.attempts[n := Succeeded]), ToSettled);
      }
    case ToSettled => EndsKeepsSingle(s, p, s.(status := if s.status == Settling then Settled else s.status));
    case ToReversed => if s.status == Settled { GoesKeepsSingle(s, p, s.(status := Reversed), PostReturn); }
    case PostReturn => EndsKeepsSingle(s, p, Posts(s, SettlementReversal(id)));
  }

  lemma ConfirmationFits(s: State)
    requires RowsFit(s) && NoneIs(s.attempts, Succeeded)
    ensures var after := s.(attempts := map n | n in s.attempts :: FailedBy(s.attempts[n], 3));
            RowsFit(after) && NoneOpen(after.attempts)
  {
  }

  lemma HandPaymentFits(s: State, n: nat)
    requires RowsFit(s) && NoneOpen(s.attempts)
    ensures RowsFit(s.(status := Settled, attempts := s.attempts[n := Succeeded], count := n))
  {
  }

  lemma ConfirmKeepsSingle(id: SessionId, s: State, p: ProcessId, chance: Chance)
    requires s in Single() && p in s.processes && Alone(s, p) && Fits(s, s.processes[p])
    requires s.processes[p].ConfirmFailed?
    ensures Executed(id, s, p, chance) in Single()
  {
    ConfirmationFits(s);
    GoesKeepsSingle(s, p, s.(attempts := map n | n in s.attempts :: FailedBy(s.attempts[n], 3)),
                    PostConfirmed(set n | n in s.attempts && s.attempts[n] == Dispatched));
  }

  lemma PostConfirmedKeepsSingle(id: SessionId, s: State, p: ProcessId, chance: Chance)
    requires s in Single() && p in s.processes && Alone(s, p) && Fits(s, s.processes[p])
    requires s.processes[p].PostConfirmed?
    ensures Executed(id, s, p, chance) in Single()
  {
    GoesKeepsSingle(s, p, s, Pc.Requeue(Settling));
    GoesKeepsSingle(s, p, Posts(s, AttemptReversal(id, chance.pick)),
                    PostConfirmed(s.processes[p].pending - {chance.pick}));
  }

  lemma RequeueKeepsSingle(id: SessionId, s: State, p: ProcessId, chance: Chance)
    requires s in Single() && p in s.processes && Alone(s, p) && Fits(s, s.processes[p]) && s.processes[p].Requeue?
    ensures Executed(id, s, p, chance) in Single()
  {
    EndsKeepsSingle(s, p, s);
    EndsKeepsSingle(s, p, s.(status := PendingDispatch, paged := false));
  }

  lemma HandPaymentKeepsSingle(id: SessionId, s: State, p: ProcessId, chance: Chance)
    requires s in Single() && p in s.processes && Alone(s, p) && Fits(s, s.processes[p])
    requires s.processes[p].RecordHandPayment? || s.processes[p].PostHandPayment?
    ensures Executed(id, s, p, chance) in Single()
  {
    match s.processes[p]
    case RecordHandPayment(count) =>
      EndsKeepsSingle(s, p, s);
      HandPaymentFits(s, count + 1);
      GoesKeepsSingle(s, p, s.(status := Settled, attempts := s.attempts[count + 1 := Succeeded], count := count + 1),
                      PostHandPayment);
    case PostHandPayment => EndsKeepsSingle(s, p, Posts(s, ManualPayout(id)));
  }

  lemma OpsKeepSingle(id: SessionId, s: State, p: ProcessId, chance: Chance)
    requires s in Single() && p in s.processes && Alone(s, p) && Fits(s, s.processes[p])
    requires var pc := s.processes[p];
             pc.ConfirmFailed? || pc.PostConfirmed? || pc.Requeue? || pc.RecordHandPayment? || pc.PostHandPayment?
    ensures Executed(id, s, p, chance) in Single()
  {
    match s.processes[p]
    case ConfirmFailed => ConfirmKeepsSingle(id, s, p, chance);
    case PostConfirmed(_) => PostConfirmedKeepsSingle(id, s, p, chance);
    case Requeue(_) => RequeueKeepsSingle(id, s, p, chance);
    case RecordHandPayment(_) => HandPaymentKeepsSingle(id, s, p, chance);
    case PostHandPayment => HandPaymentKeepsSingle(id, s, p, chance);
  }

  lemma AloneThere(s: State, p: ProcessId)
    requires s in Single() && p in s.processes
    ensures Alone(s, p) && Fits(s, s.processes[p])
  {
  }

  lemma ExecutedKeepsSingle(id: SessionId, s: State, p: ProcessId, chance: Chance)
    requires s in Single() && p in s.processes
    ensures Executed(id, s, p, chance) in Single()
  {
    AloneThere(s, p);
    var pc := s.processes[p];
    if pc.TakeRow? || pc.PostDeposit? || pc.PostFx? || pc.ToSettling? {
      WorkerKeepsSingle(id, s, p, chance);
    } else if pc.PostClaim? || pc.InsertAttempt? || pc.BumpCount? || pc.CallProvider? || pc.TakeUpReply? {
      DispatchingKeepsSingle(id, s, p, chance);
    } else if pc.MarkFailed? || pc.ReadBack? || pc.PostReversal? || pc.GiveUp? {
      ResolvingKeepsSingle(id, s, p, chance);
    } else if pc.MarkSucceeded? || pc.ToSettled? || pc.ToReversed? || pc.PostReturn? {
      SucceedingKeepsSingle(id, s, p, chance);
    } else {
      OpsKeepSingle(id, s, p, chance);
    }
  }

  lemma NextKeepsSingle(id: SessionId, s: State, p: ProcessId, move: Move)
    requires s in Single() && Permits(DISCIPLINED, s, move)
    ensures Next(id, s, p, move) in Single()
  {
    match move
    case Enter(entry) => EnterKeepsSingle(s, p, entry);
    case Execute(chance) => if p in s.processes { ExecutedKeepsSingle(id, s, p, chance); }
    case Stop => StopKeepsSingle(s, p);
    case TimeoutPage => PagingKeepsSingle(s, true);
    case DeclinePage(_) => PagingKeepsSingle(s, true);
  }

  lemma {:induction false} DisciplinedIsSingle(id: SessionId, moves: seq<(ProcessId, Move)>)
    requires Obeys(id, DISCIPLINED, START, moves)
    ensures AfterMoves(id, moves) in Single()
  {
    if moves != [] {
      var last := moves[|moves| - 1];
      DisciplinedIsSingle(id, moves[..|moves| - 1]);
      NextKeepsSingle(id, AfterMoves(id, moves[..|moves| - 1]), last.0, last.1);
    }
  }

  /**
   * When processes come one after the other and confirmations are informed, one attempt at most is open or has
   * succeeded, although any process may die between any two of its statements.
   */
  lemma DisciplinedRunsOpenOne(id: SessionId, moves: seq<(ProcessId, Move)>, m: nat, n: nat)
    requires Obeys(id, DISCIPLINED, START, moves)
    requires IsOpen(AfterMoves(id, moves).attempts, m) && IsOpen(AfterMoves(id, moves).attempts, n)
    ensures m == n
    ensures AfterMoves(id, moves).attempts[n] == Dispatched ==> AfterMoves(id, moves).status == Settling
  {
    DisciplinedIsSingle(id, moves);
  }
}
