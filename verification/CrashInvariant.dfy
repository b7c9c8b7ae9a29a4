/**
 * What the rows, the claims and the attempt count tell about each other when processes come one after the other and may
 * die anywhere: at most the next attempt is claimed or inserted already.
 */
module CrashInvariant {
  import opened Ledger
  import opened Settlement
  import opened Interleaving
  import opened InterleavingSerial

  /** One process after the other, informed confirmations, and callbacks only for attempts that were sent. */
  const CAREFUL := Discipline(true, true, true)

  ghost predicate ClaimsInStep(id: SessionId, s: State) {
    && (forall m: nat | Payout(id, m) in s.journal :: m <= s.count + 1)
    && (forall m | m in s.calls :: m <= s.count)
  }

  /** Only the next attempt may be ahead of the count, and then it was claimed, and every other attempt has failed. */
  ghost predicate AttemptsInStep(id: SessionId, s: State) {
    && (forall m | m in s.attempts :: m <= s.count + 1)
    && (s.count + 1 in s.attempts ==>
          && Payout(id, s.count + 1) in s.journal && s.attempts[s.count + 1] != Succeeded
          && forall m | m in s.attempts && m != s.count + 1 :: s.attempts[m].Failed?)
  }

  /** What a process knows of the count, of its attempt and of the paging. */
  predicate Knows(id: SessionId, s: State, pc: Pc) {
    match pc
    case PostDeposit(count) => count == s.count
    case PostFx(count) => count == s.count
    case ToSettling(count) => count == s.count
    case PostClaim(count) => count == s.count
    case InsertAttempt(n) => n == s.count + 1 && Payout(id, n) in s.journal && n !in s.attempts
    case BumpCount(n) => n == s.count + 1 && n in s.attempts && s.attempts[n] == Dispatched
    case CallProvider(n) => n == s.count && n in s.attempts && s.attempts[n] == Dispatched
    case TakeUpReply(n, _) => n == s.count && n in s.attempts && s.attempts[n] == Dispatched
    case PostReversal(_, _, count) => count == s.count
    case MarkSucceeded(n) => n in s.calls
    case ConfirmFailed => s.paged
    case PostConfirmed(_) => s.paged
    case Requeue(from) =>
      from in {SettlementFailed, AwaitingManualPayout, Settling} && (from == Settling ==> s.paged)
    case RecordHandPayment(count) => count == s.count && s.status == AwaitingManualPayout
    case PostHandPayment => s.status == Settled
    case ToSettled => s.status == Settling && !NoneIs(s.attempts, Succeeded)
    case PostReturn => s.status == Reversed
    case _ => true
  }

  ghost function InStep(id: SessionId): iset<State> {
    iset s: State |
      && ClaimsInStep(id, s) && AttemptsInStep(id, s)
      && forall p | p in s.processes :: Knows(id, s, s.processes[p])
  }

  /** The one process changes rows and goes on. */
  lemma GoesInStep(id: SessionId, s: State, p: ProcessId, rows: State, pc: Pc)
    requires Alone(s, p) && rows.processes == s.processes
    requires ClaimsInStep(id, rows) && AttemptsInStep(id, rows) && Knows(id, rows, pc)
    ensures Goes(rows, p, pc) in InStep(id)
  {
    var after := Goes(rows, p, pc);
    assert forall q | q in after.processes :: q == p && Knows(id, after, after.processes[q]);
  }

  /** The one process changes rows and is gone. */
  lemma EndsInStep(id: SessionId, s: State, p: ProcessId, rows: State)
    requires Alone(s, p) && rows.processes == s.processes && ClaimsInStep(id, rows) && AttemptsInStep(id, rows)
    ensures Ends(rows, p) in InStep(id)
  {
  }

  lemma StopInStep(id: SessionId, s: State, p: ProcessId)
    requires s in InStep(id)
    ensures Ends(s, p) in InStep(id)
  {
  }

  lemma PagingInStep(id: SessionId, s: State)
    requires s in InStep(id)
    ensures s.(paged := true) in InStep(id)
  {
    var after := s.(paged := true);
    forall p | p in after.processes ensures Knows(id, after, after.processes[p]) {
      assert Knows(id, s, s.processes[p]);
    }
  }

  /** A posting that is not a claim, or claims the next attempt. */
  lemma PostInStep(id: SessionId, s: State, key: Key)
    requires ClaimsInStep(id, s) && AttemptsInStep(id, s)
    requires key.Payout? && key.session == id ==> key.attempt <= s.count + 1
    ensures ClaimsInStep(id, Posts(s, key)) && AttemptsInStep(id, Posts(s, key))
    ensures forall k :: k in Posts(s, key).journal <==> k in s.journal || k == key
  {
    assert forall k :: k in Posts(s, key).journal <==> k in s.journal || k == key;
  }

  lemma EnteredInStep(id: SessionId, s: State, p: ProcessId, entry: Interleaving.Entry)
    requires s in InStep(id) && s.processes == map[] && Permits(CAREFUL, s, Enter(entry))
    ensures Entered(s, p, entry) in InStep(id)
  {
    match entry
    case Worker => if s.status == PendingDispatch { GoesInStep(id, s, p, s, TakeRow); }
    case FailureHook(n) => GoesInStep(id, s, p, s, Pc.MarkFailed(n, 2));
    case SuccessHook(n) => GoesInStep(id, s, p, s, MarkSucceeded(n));
    case ReturnHook => GoesInStep(id, s, p, s, ToReversed);
    case OpsRetry(confirmed) =>
      if s.status in {SettlementFailed, AwaitingManualPayout} {
        GoesInStep(id, s, p, s, Pc.Requeue(s.status));
      } else if s.status == Settling && s.paged && confirmed {
        GoesInStep(id, s, p, s, Pc.ConfirmFailed);
      }
    case HandPayment => if s.status == AwaitingManualPayout { GoesInStep(id, s, p, s, RecordHandPayment(s.count)); }
  }

  lemma WorkerInStep(id: SessionId, s: State, p: ProcessId, chance: Chance)
    requires s in InStep(id) && p in s.processes && Alone(s, p)
    requires var pc := s.processes[p]; pc.TakeRow? || pc.PostDeposit? || pc.PostFx? || pc.ToSettling?
    ensures Executed(id, s, p, chance) in InStep(id)
  {
    assert Knows(id, s, s.processes[p]);
    match s.processes[p]
    case TakeRow => GoesInStep(id, s, p, s.(status := Dispatching), PostDeposit(s.count));
    case PostDeposit(count) =>
      PostInStep(id, s, DepositConfirmed(id));
      GoesInStep(id, s, p, Posts(s, DepositConfirmed(id)), PostFx(count));
    case PostFx(count) =>
      PostInStep(id, s, FxConversion(id));
      GoesInStep(id, s, p, Posts(s, FxConversion(id)), ToSettling(count));
    case ToSettling(count) =>
      GoesInStep(id, s, p, s.(status := if s.status == Dispatching then Settling else s.status), PostClaim(count));
  }

  lemma ClaimingInStep(id: SessionId, s: State, p: ProcessId, chance: Chance)
    requires s in InStep(id) && p in s.processes && Alone(s, p) && s.processes[p].PostClaim?
    ensures Executed(id, s, p, chance) in InStep(id)
  {
    assert Knows(id, s, s.processes[p]);
    var n := s.count + 1;
    EndsInStep(id, s, p, s);
    GoesInStep(id, s, p, s, GiveUp);
    if Payout(id, n) !in s.journal {
      PostInStep(id, s, Payout(id, n));
      GoesInStep(id, s, p, Posts(s, Payout(id, n)), InsertAttempt(n));
    }
  }

  lemma InsertingInStep(id: SessionId, s: State, p: ProcessId, chance: Chance)
    requires s in InStep(id) && p in s.processes && Alone(s, p) && s.processes[p].InsertAttempt?
    requires NoneOpen(s.attempts)
    ensures Executed(id, s, p, chance) in InStep(id)
  {
    assert Knows(id, s, s.processes[p]);
    var n := s.count + 1;
    GoesInStep(id, s, p, s.(attempts := s.attempts[n := Dispatched]), BumpCount(n));
  }

  lemma CountingInStep(id: SessionId, s: State, p: ProcessId, chance: Chance)
    requires s in InStep(id) && p in s.processes && Alone(s, p) && s.processes[p].BumpCount?
    ensures Executed(id, s, p, chance) in InStep(id)
  {
    assert Knows(id, s, s.processes[p]);
    GoesInStep(id, s, p, s.(count := s.count + 1), CallProvider(s.count + 1));
  }

  lemma CallingInStep(id: SessionId, s: State, p: ProcessId, chance: Chance)
    requires s in InStep(id) && p in s.processes && Alone(s, p)
    requires s.processes[p].CallProvider? || s.processes[p].TakeUpReply?
    ensures Executed(id, s, p, chance) in InStep(id)
  {
    assert Knows(id, s, s.processes[p]);
    match s.processes[p]
    case CallProvider(n) => GoesInStep(id, s, p, s.(calls := s.calls + [n]), TakeUpReply(n, chance.reply));
    case TakeUpReply(n, _) =>
      EndsInStep(id, s, p, s);
      EndsInStep(id, s, p, s.(paged := true));
      GoesInStep(id, s, p, s, Pc.MarkFailed(n, 4));
      GoesInStep(id, s, p, s, Pc.MarkFailed(n, 1));
  }

  /** Recording a failure, or the success of an attempt that was sent. */
  lemma ResolutionInStep(id: SessionId, s: State, n: nat, to: AttemptStatus)
    requires ClaimsInStep(id, s) && AttemptsInStep(id, s) && n in s.attempts && s.attempts[n] == Dispatched
    requires to.Failed? || (to == Succeeded && n in s.calls)
    ensures var after := s.(attempts := s.attempts[n := to]); ClaimsInStep(id, after) && AttemptsInStep(id, after)
  {
  }

  lemma FailingInStep(id: SessionId, s: State, p: ProcessId, chance: Chance)
    requires s in InStep(id) && p in s.processes && Alone(s, p)
    requires var pc := s.processes[p]; pc.MarkFailed? || pc.ReadBack? || pc.PostReversal? || pc.GiveUp?
    ensures Executed(id, s, p, chance) in InStep(id)
  {
    assert Knows(id, s, s.processes[p]);
    match s.processes[p]
    case MarkFailed(n, bucket) =>
      EndsInStep(id, s, p, s);
      if n in s.attempts && s.attempts[n] == Dispatched {
        ResolutionInStep(id, s, n, Failed(bucket));
        GoesInStep(id, s, p, s.(attempts := s.attempts[n := Failed(bucket)]), ReadBack(n, bucket));
      }
    case ReadBack(n, bucket) => GoesInStep(id, s, p, s, PostReversal(n, bucket, s.count));
    case PostReversal(n, _, count) =>
      PostInStep(id, s, AttemptReversal(id, n));
      GoesInStep(id, s, p, Posts(s, AttemptReversal(id, n)), GiveUp);
      GoesInStep(id, s, p, Posts(s, AttemptReversal(id, n)), PostClaim(count));
    case GiveUp =>
      EndsInStep(id, s, p, s);
      var status := if chance.handedOver then AwaitingManualPayout else SettlementFailed;
      EndsInStep(id, s, p, s.(status := status, paged := true));
  }

  lemma SucceedingInStep(id: SessionId, s: State, p: ProcessId, chance: Chance)
    requires s in InStep(id) && p in s.processes && Alone(s, p) && RowsFit(s)
    requires var pc := s.processes[p]; pc.MarkSucceeded? || pc.ToSettled? || pc.ToReversed? || pc.PostReturn?
    ensures Executed(id, s, p, chance) in InStep(id)
  {
    assert Knows(id, s, s.processes[p]);
    EndsInStep(id, s, p, s);
    match s.processes[p]
    case MarkSucceeded(n) =>
      if n in s.attempts && s.attempts[n] == Dispatched {
        ResolutionInStep(id, s, n, Succeeded);
        assert s.attempts[n := Succeeded][n] == Succeeded;
        GoesInStep(id, s, p, s.(attempts := s.attempts[n := Succeeded]), ToSettled);
      }
    case ToSettled => EndsInStep(id, s, p, s.(status := if s.status == Settling then Settled else s.status));
    case ToReversed => GoesInStep(id, s, p, s.(status := Reversed), PostReturn);
    case PostReturn =>
      PostInStep(id, s, SettlementReversal(id));
      EndsInStep(id, s, p, Posts(s, SettlementReversal(id)));
  }

  lemma ConfirmingInStep(id: SessionId, s: State, p: ProcessId, chance: Chance)
    requires s in InStep(id) && p in s.processes && Alone(s, p)
    requires var pc := s.processes[p]; pc.ConfirmFailed? || pc.PostConfirmed? || pc.Requeue?
    ensures Executed(id, s, p, chance) in InStep(id)
  {
    assert Knows(id, s, s.processes[p]);
    match s.processes[p]
    case ConfirmFailed =>
      GoesInStep(id, s, p, s.(attempts := map n | n in s.attempts :: FailedBy(s.attempts[n], 3)),
                 PostConfirmed(set n | n in s.attempts && s.attempts[n] == Dispatched));
    case PostConfirmed(pending) =>
      GoesInStep(id, s, p, s, Pc.Requeue(Settling));
      PostInStep(id, s, AttemptReversal(id, chance.pick));
      GoesInStep(id, s, p, Posts(s, AttemptReversal(id, chance.pick)), PostConfirmed(pending - {chance.pick}));
    case Requeue(_) =>
      EndsInStep(id, s, p, s);
      EndsInStep(id, s, p, s.(status := PendingDispatch, paged := false));
  }

  /** The rows after a payment by hand. */
  function HandRows(s: State): State {
    s.(status := Settled, attempts := s.attempts[s.count + 1 := Succeeded], count := s.count + 1)
  }

  lemma HandRowsInStep(id: SessionId, s: State)
    requires ClaimsInStep(id, s) && AttemptsInStep(id, s) && s.count + 1 !in s.attempts
    ensures ClaimsInStep(id, HandRows(s)) && AttemptsInStep(id, HandRows(s))
  {
  }

  lemma RecordingIs(id: SessionId, s: State, p: ProcessId, chance: Chance)
    requires p in s.processes && s.processes[p] == RecordHandPayment(s.count)
    ensures Executed(id, s, p, chance) ==
            if s.status != AwaitingManualPayout || s.count + 1 in s.attempts then Ends(s, p)
            else Goes(HandRows(s), p, PostHandPayment)
  {
  }

  lemma RecordingInStep(id: SessionId, s: State, p: ProcessId, chance: Chance)
    requires s in InStep(id) && p in s.processes && Alone(s, p) && s.processes[p].RecordHandPayment?
    ensures Executed(id, s, p, chance) in InStep(id)
  {
    assert Knows(id, s, s.processes[p]);
    RecordingIs(id, s, p, chance);
    EndsInStep(id, s, p, s);
    if s.count + 1 !in s.attempts {
      HandRowsInStep(id, s);
      GoesInStep(id, s, p, HandRows(s), PostHandPayment);
    }
  }

  lemma HandPayingInStep(id: SessionId, s: State, p: ProcessId, chance: Chance)
    requires s in InStep(id) && p in s.processes && Alone(s, p) && s.processes[p].PostHandPayment?
    ensures Executed(id, s, p, chance) in InStep(id)
  {
    PostInStep(id, s, ManualPayout(id));
    EndsInStep(id, s, p, Posts(s, ManualPayout(id)));
  }

  lemma ExecutedInStep(id: SessionId, s: State, p: ProcessId, chance: Chance)
    requires s in InStep(id) && s in Single() && p in s.processes
    ensures Executed(id, s, p, chance) in InStep(id)
  {
    AloneThere(s, p);
    var pc := s.processes[p];
    if pc.TakeRow? || pc.PostDeposit? || pc.PostFx? || pc.ToSettling? {
      WorkerInStep(id, s, p, chance);
    } else if pc.PostClaim? {
      ClaimingInStep(id, s, p, chance);
    } else if pc.InsertAttempt? {
      InsertingInStep(id, s, p, chance);
    } else if pc.BumpCount? {
      CountingInStep(id, s, p, chance);
    } else if pc.CallProvider? || pc.TakeUpReply? {
      CallingInStep(id, s, p, chance);
    } else if pc.MarkFailed? || pc.ReadBack? || pc.PostReversal? || pc.GiveUp? {
      FailingInStep(id, s, p, chance);
    } else if pc.MarkSucceeded? || pc.ToSettled? || pc.ToReversed? || pc.PostReturn? {
      SucceedingInStep(id, s, p, chance);
    } else if pc.ConfirmFailed? || pc.PostConfirmed? || pc.Requeue? {
      ConfirmingInStep(id, s, p, chance);
    } else if pc.RecordHandPayment? {
      RecordingInStep(id, s, p, chance);
    } else {
      HandPayingInStep(id, s, p, chance);
    }
  }

  /** The states of careful runs. */
  ghost function Kept(id: SessionId): iset<State> {
    iset s: State | s in Single() && s in InStep(id)
  }

  lemma NextIsKept(id: SessionId, s: State, p: ProcessId, move: Move)
    requires s in Kept(id) && Permits(CAREFUL, s, move)
    ensures Next(id, s, p, move) in Kept(id)
  {
    NextKeepsSingle(id, s, p, move);
    match move
    case Enter(entry) => EnteredInStep(id, s, p, entry);
    case Execute(chance) => if p in s.processes { ExecutedInStep(id, s, p, chance); }
    case Stop => StopInStep(id, s, p);
    case TimeoutPage => PagingInStep(id, s);
    case DeclinePage(_) => PagingInStep(id, s);
  }

  lemma {:induction false} CarefulRunIsKept(id: SessionId, start: State, moves: seq<(ProcessId, Move)>)
    requires start in Kept(id) && Obeys(id, CAREFUL, start, moves)
    ensures From(id, start, moves) in Kept(id)
  {
    if moves != [] {
      var last := moves[|moves| - 1];
      CarefulRunIsKept(id, start, moves[..|moves| - 1]);
      NextIsKept(id, From(id, start, moves[..|moves| - 1]), last.0, last.1);
    }
  }

  lemma StartIsKept(id: SessionId)
    ensures START in Kept(id)
  {
  }
}
