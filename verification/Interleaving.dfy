/**
 * One session's settlement at the granularity of single database statements: any number of processes run the entry
 * points at once, in any interleaving, and any of them may stop for good between two statements.
 */
module Interleaving {
  import opened Ledger
  import opened Settlement

  type ProcessId = nat

  /** Where a process stands, with the values it has read and still holds: its next statement is named. */
  datatype Pc =
    // the worker
    | TakeRow
    | PostDeposit(count: nat)
    | PostFx(count: nat)
    | ToSettling(count: nat)
    // dispatchAttempt; the count is the one in the settlement as it was read
    | PostClaim(count: nat)
    | InsertAttempt(n: nat)
    | BumpCount(n: nat)
    | CallProvider(n: nat)
    | TakeUpReply(n: nat, reply: ReplyKind)
    // handleAttemptFailure and failSettlement
    | MarkFailed(n: nat, bucket: nat)
    | ReadBack(n: nat, bucket: nat)
    | PostReversal(n: nat, bucket: nat, count: nat)
    | GiveUp
    // payout.succeeded and payout.returned
    | MarkSucceeded(n: nat)
    | ToSettled
    | ToReversed
    | PostReturn
    // RetryPayout
    | ConfirmFailed
    | PostConfirmed(pending: set<nat>)
    | Requeue(from: Status)
    // ManualSettle
    | RecordHandPayment(count: nat)
    | PostHandPayment

  /**
   * The shared rows, the accepted idempotency keys in order, the calls made to providers in order, and the processes.
   */
  datatype State = State(status: Status, count: nat, paged: bool, attempts: map<nat, AttemptStatus>,
                         journal: seq<Key>, calls: seq<nat>, processes: map<ProcessId, Pc>)

  datatype Entry =
    | Worker | FailureHook(attempt: nat) | SuccessHook(attempt: nat) | ReturnHook
    | OpsRetry(confirmed: bool) | HandPayment

  /** What a statement meets outside: a provider's answer, whether one is bound, how ops are told. */
  datatype Chance = Chance(bound: bool, reply: ReplyKind, handedOver: bool, pick: nat)

  datatype Move = Enter(entry: Entry) | Execute(chance: Chance) | Stop | TimeoutPage | DeclinePage(attempt: nat)

  function Goes(s: State, p: ProcessId, pc: Pc): State {
    s.(processes := s.processes[p := pc])
  }

  /** The process has returned, failed or died. */
  function Ends(s: State, p: ProcessId): State {
    s.(processes := s.processes - {p})
  }

  /** ledger.Post: the unique key decides. */
  function Posts(s: State, key: Key): State {
    if key in s.journal then s else s.(journal := s.journal + [key])
  }

  function FailedBy(a: AttemptStatus, bucket: nat): AttemptStatus {
    if a == Dispatched then Failed(bucket) else a
  }

  /** A process enters through one of the entry points, which each begin by reading. */
  function Entered(s: State, p: ProcessId, entry: Entry): State {
    match entry
    case Worker => if s.status == PendingDispatch then Goes(s, p, TakeRow) else s
    case FailureHook(n) => if n in s.attempts then Goes(s, p, Pc.MarkFailed(n, 2)) else s
    case SuccessHook(n) => if n in s.attempts then Goes(s, p, MarkSucceeded(n)) else s
    case ReturnHook => Goes(s, p, ToReversed)
    case OpsRetry(confirmed) =>
      if s.status in {SettlementFailed, AwaitingManualPayout} then Goes(s, p, Pc.Requeue(s.status))
      else if s.status == Settling && s.paged && confirmed then Goes(s, p, Pc.ConfirmFailed) else s
    case HandPayment => if s.status == AwaitingManualPayout then Goes(s, p, RecordHandPayment(s.count)) else s
  }

  /** The next statement of a process. */
  function Executed(id: SessionId, s: State, p: ProcessId, chance: Chance): State
    requires p in s.processes
  {
    match s.processes[p]
    // the claiming update and the select inside it are two statements here, so two workers may take one row
    case TakeRow => Goes(s.(status := Dispatching), p, PostDeposit(s.count))
    case PostDeposit(count) => Goes(Posts(s, DepositConfirmed(id)), p, PostFx(count))
    case PostFx(count) => Goes(Posts(s, FxConversion(id)), p, ToSettling(count))
    case ToSettling(count) =>
      Goes(s.(status := if s.status == Dispatching then Settling else s.status), p, PostClaim(count))
    case PostClaim(count) =>
      if !chance.bound then Goes(s, p, GiveUp)
      else if Payout(id, count + 1) in s.journal then Ends(s, p)
      else Goes(Posts(s, Payout(id, count + 1)), p, InsertAttempt(count + 1))
    case InsertAttempt(n) =>
      if n in s.attempts then Ends(s, p) else Goes(s.(attempts := s.attempts[n := Dispatched]), p, BumpCount(n))
    case BumpCount(n) => Goes(s.(count := n), p, CallProvider(n))
    case CallProvider(n) => Goes(s.(calls := s.calls + [n]), p, TakeUpReply(n, chance.reply))
    case TakeUpReply(n, reply) =>
      if reply == RejectedTerminal then Goes(s, p, Pc.MarkFailed(n, 4))
      else if reply == RejectedRetryable then Goes(s, p, Pc.MarkFailed(n, 1))
      else if reply == Uncertain && s.status == Settling then Ends(s.(paged := true), p)
      else Ends(s, p)
    case MarkFailed(n, bucket) =>
      if n in s.attempts && s.attempts[n] == Dispatched
      then Goes(s.(attempts := s.attempts[n := Failed(bucket)]), p, ReadBack(n, bucket))
      else Ends(s, p)
    case ReadBack(n, bucket) => Goes(s, p, PostReversal(n, bucket, s.count))
    case PostReversal(n, bucket, count) =>
      Goes(Posts(s, AttemptReversal(id, n)), p,
           if bucket == 4 || n >= MAX_AUTO_RETRY_ATTEMPTS then GiveUp else PostClaim(count))
    case GiveUp =>
      if s.status != Settling then Ends(s, p)
      else Ends(s.(status := if chance.handedOver then AwaitingManualPayout else SettlementFailed, paged := true), p)
    case MarkSucceeded(n) =>
      if n in s.attempts && s.attempts[n] == Dispatched
      then Goes(s.(attempts := s.attempts[n := Succeeded]), p, ToSettled)
      else Ends(s, p)
    case ToSettled => Ends(s.(status := if s.status == Settling then Settled else s.status), p)
    case ToReversed => if s.status == Settled then Goes(s.(status := Reversed), p, PostReturn) else Ends(s, p)
    case PostReturn => Ends(Posts(s, SettlementReversal(id)), p)
    case ConfirmFailed =>
      Goes(s.(attempts := map n | n in s.attempts :: FailedBy(s.attempts[n], 3)), p,
           PostConfirmed(set n | n in s.attempts && s.attempts[n] == Dispatched))
    case PostConfirmed(pending) =>
      if pending == {} then Goes(s, p, Pc.Requeue(Settling))
      else if chance.pick in pending
          then Goes(Posts(s, AttemptReversal(id, chance.pick)), p, PostConfirmed(pending - {chance.pick}))
      else s
    case Requeue(from) => Ends(if s.status == from then s.(status := PendingDispatch, paged := false) else s, p)
    case RecordHandPayment(count) =>
      if s.status != AwaitingManualPayout || count + 1 in s.attempts then Ends(s, p)
      else
        var paid := s.(status := Settled, attempts := s.attempts[count + 1 := Succeeded], count := count + 1);
        Goes(paid, p, PostHandPayment)
    case PostHandPayment => Ends(Posts(s, ManualPayout(id)), p)
  }

  /** One move of one process; a process that is not there can only enter. */
  function Next(id: SessionId, s: State, p: ProcessId, move: Move): State {
    match move
    case Enter(entry) => if p in s.processes then s else Entered(s, p, entry)
    case Execute(chance) => if p in s.processes then Executed(id, s, p, chance) else s
    case Stop => Ends(s, p)
    case TimeoutPage =>
      if s.status == Settling && exists n :: n in s.attempts && s.attempts[n] == Dispatched
      then s.(paged := true) else s
    case DeclinePage(n) => if n in s.attempts && s.attempts[n] == Dispatched then s.(paged := true) else s
  }

  const START := State(PendingDispatch, 0, false, map[], [], [], map[])

  function From(id: SessionId, s: State, moves: seq<(ProcessId, Move)>): State {
    if moves == [] then s
    else
      var (p, move) := moves[|moves| - 1];
      Next(id, From(id, s, moves[..|moves| - 1]), p, move)
  }

  function AfterMoves(id: SessionId, moves: seq<(ProcessId, Move)>): State {
    From(id, START, moves)
  }

  // ----- what every interleaving keeps -----

  /** The process has claimed attempt n and has yet to call its provider. */
  predicate Owns(pc: Pc, n: nat) {
    pc in {InsertAttempt(n), BumpCount(n), CallProvider(n)}
  }

  /** The process will post the reversal of attempt n. */
  predicate Reverses(pc: Pc, n: nat) {
    match pc
    case ReadBack(m, _) => m == n
    case PostReversal(m, _, _) => m == n
    case PostConfirmed(pending) => n in pending
    case _ => false
  }

  predicate Unrepeated<T(==)>(s: seq<T>) {
    forall i, j | 0 <= i < j < |s| :: s[i] != s[j]
  }

  /** Every reversal stands after the claim it reverses. */
  predicate ClaimsFirst(id: SessionId, journal: seq<Key>) {
    forall i | 0 <= i < |journal| && journal[i].AttemptReversal? && journal[i].session == id ::
      Payout(id, journal[i].attempt) in journal[..i]
  }

  /** A claimed attempt that was not called yet has one owner, and it alone. */
  ghost predicate OneOwner(id: SessionId, s: State) {
    && (forall p, n: nat | p in s.processes && Owns(s.processes[p], n) :: Payout(id, n) in s.journal && n !in s.calls)
    && (forall p, q, n: nat | p in s.processes && q in s.processes
                              && Owns(s.processes[p], n) && Owns(s.processes[q], n) :: p == q)
  }

  /** Calls, open and failed rows, and pending reversals all belong to claimed attempts. */
  ghost predicate OnlyClaimed(id: SessionId, s: State) {
    && (forall i | 0 <= i < |s.calls| :: Payout(id, s.calls[i]) in s.journal)
    && (forall n | n in s.attempts && s.attempts[n] != Succeeded :: Payout(id, n) in s.journal)
    && (forall p, n: nat | p in s.processes && Reverses(s.processes[p], n) :: Payout(id, n) in s.journal)
  }

  ghost function Safe(id: SessionId): iset<State> {
    iset s: State |
      && OneOwner(id, s) && OnlyClaimed(id, s)
      && Unrepeated(s.calls) && Unrepeated(s.journal) && ClaimsFirst(id, s.journal)
  }

  /** Posting a key that reverses nothing unclaimed keeps the journal in order. */
  lemma PostKeepsJournal(id: SessionId, s: State, key: Key)
    requires Unrepeated(s.journal) && ClaimsFirst(id, s.journal)
    requires key.AttemptReversal? && key.session == id ==> Payout(id, key.attempt) in s.journal
    ensures var journal := Posts(s, key).journal;
            && Unrepeated(journal) && ClaimsFirst(id, journal) && key in journal
            && (forall k :: k in s.journal ==> k in journal)
            && (forall k | k in journal :: k in s.journal || k == key)
  {
    var journal := Posts(s, key).journal;
    forall i | 0 <= i < |journal| && journal[i].AttemptReversal? && journal[i].session == id
      ensures Payout(id, journal[i].attempt) in journal[..i]
    {
      if i < |s.journal| {
        assert journal[..i] == s.journal[..i];
      } else {
        assert journal[..i] == s.journal;
      }
    }
  }

  lemma PostKeepsSafe(id: SessionId, s: State, key: Key)
    requires s in Safe(id)
    requires key.AttemptReversal? && key.session == id ==> Payout(id, key.attempt) in s.journal
    ensures Posts(s, key) in Safe(id)
  {
    PostKeepsJournal(id, s, key);
  }

  /** A process that moves on without a new claim or a new reversal. */
  lemma GoesKeepsSafe(id: SessionId, s: State, p: ProcessId, pc: Pc)
    requires s in Safe(id)
    requires forall n: nat | Owns(pc, n) :: p in s.processes && Owns(s.processes[p], n)
    requires forall n: nat | Reverses(pc, n) :: Payout(id, n) in s.journal
    ensures Goes(s, p, pc) in Safe(id)
  {
  }

  lemma EndsKeepsSafe(id: SessionId, s: State, p: ProcessId)
    requires s in Safe(id)
    ensures Ends(s, p) in Safe(id)
  {
  }

  /** Only rows of claimed attempts may be open or failed. */
  lemma RowsKeepSafe(id: SessionId, s: State, s': State)
    requires s in Safe(id)
    requires s' == s.(status := s'.status, count := s'.count, paged := s'.paged, attempts := s'.attempts)
    requires forall n | n in s'.attempts && s'.attempts[n] != Succeeded :: Payout(id, n) in s.journal
    ensures s' in Safe(id)
  {
  }

  lemma NobodyOwns(id: SessionId, s: State, n: nat)
    requires s in Safe(id) && Payout(id, n) !in s.journal
    ensures n !in s.calls && forall q | q in s.processes :: !Owns(s.processes[q], n)
  {
  }

  lemma ClaimKeepsSafe(id: SessionId, s: State, p: ProcessId, count: nat)
    requires s in Safe(id) && p in s.processes && s.processes[p] == PostClaim(count)
    requires Payout(id, count + 1) !in s.journal
    ensures Goes(Posts(s, Payout(id, count + 1)), p, InsertAttempt(count + 1)) in Safe(id)
  {
    NobodyOwns(id, s, count + 1);
    PostKeepsSafe(id, s, Payout(id, count + 1));
    OwnerKeepsSafe(id, Posts(s, Payout(id, count + 1)), p, count + 1);
  }

  /** A claim without an owner finds one. */
  lemma OwnerKeepsSafe(id: SessionId, s: State, p: ProcessId, n: nat)
    requires s in Safe(id) && Payout(id, n) in s.journal && n !in s.calls
    requires forall q | q in s.processes :: !Owns(s.processes[q], n)
    ensures Goes(s, p, InsertAttempt(n)) in Safe(id)
  {
    var after := Goes(s, p, InsertAttempt(n));
    forall q, m: nat | q in after.processes && Owns(after.processes[q], m)
      ensures Payout(id, m) in after.journal && m !in after.calls
    {
      assert q == p || Owns(s.processes[q], m);
    }
  }

  lemma CallKeepsSafe(id: SessionId, s: State, p: ProcessId, n: nat, reply: ReplyKind)
    requires s in Safe(id) && p in s.processes && s.processes[p] == CallProvider(n)
    ensures Goes(s.(calls := s.calls + [n]), p, TakeUpReply(n, reply)) in Safe(id)
  {
    assert Owns(s.processes[p], n);
    var after := Goes(s.(calls := s.calls + [n]), p, TakeUpReply(n, reply));
    forall q, m: nat | q in after.processes && Owns(after.processes[q], m) ensures m !in after.calls {
      assert q != p && Owns(s.processes[q], m);
    }
  }

  /** The admin's confirmation fails every open row and takes on the reversals of exactly those. */
  lemma ConfirmKeepsSafe(id: SessionId, s: State, p: ProcessId)
    requires s in Safe(id) && p in s.processes
    ensures Goes(s.(attempts := map n | n in s.attempts :: FailedBy(s.attempts[n], 3)), p,
                          PostConfirmed(set n | n in s.attempts && s.attempts[n] == Dispatched)) in Safe(id)
  {
    var failed := s.(attempts := map n | n in s.attempts :: FailedBy(s.attempts[n], 3));
    RowsKeepSafe(id, s, failed);
    GoesKeepsSafe(id, failed, p, PostConfirmed(set n | n in s.attempts && s.attempts[n] == Dispatched));
  }

  lemma EnteredKeepsSafe(id: SessionId, s: State, p: ProcessId, entry: Entry)
    requires s in Safe(id) && p !in s.processes
    ensures Entered(s, p, entry) in Safe(id)
  {
    match entry
    case Worker => GoesKeepsSafe(id, s, p, TakeRow);
    case FailureHook(n) => GoesKeepsSafe(id, s, p, Pc.MarkFailed(n, 2));
    case SuccessHook(n) => GoesKeepsSafe(id, s, p, MarkSucceeded(n));
    case ReturnHook => GoesKeepsSafe(id, s, p, ToReversed);
    case OpsRetry(_) =>
      GoesKeepsSafe(id, s, p, Pc.Requeue(s.status));
      GoesKeepsSafe(id, s, p, Pc.ConfirmFailed);
    case HandPayment => GoesKeepsSafe(id, s, p, RecordHandPayment(s.count));
  }

  /** The worker's statements up to the first dispatch. */
  lemma WorkerKeepsSafe(id: SessionId, s: State, p: ProcessId, chance: Chance)
    requires s in Safe(id) && p in s.processes
    requires var pc := s.processes[p]; pc.TakeRow? || pc.PostDeposit? || pc.PostFx? || pc.ToSettling?
    ensures Executed(id, s, p, chance) in Safe(id)
  {
    var pc := s.processes[p];
    if pc.TakeRow? {
      RowsKeepSafe(id, s, s.(status := Dispatching));
      GoesKeepsSafe(id, s.(status := Dispatching), p, PostDeposit(s.count));
    } else if pc.PostDeposit? {
      PostKeepsSafe(id, s, DepositConfirmed(id));
      GoesKeepsSafe(id, Posts(s, DepositConfirmed(id)), p, PostFx(pc.count));
    } else if pc.PostFx? {
      PostKeepsSafe(id, s, FxConversion(id));
      GoesKeepsSafe(id, Posts(s, FxConversion(id)), p, ToSettling(pc.count));
    } else {
      var settling := s.(status := if s.status == Dispatching then Settling else s.status);
      RowsKeepSafe(id, s, settling);
      GoesKeepsSafe(id, settling, p, PostClaim(pc.count));
    }
  }

  /** The statements of dispatchAttempt up to the call. */
  lemma DispatchingKeepsSafe(id: SessionId, s: State, p: ProcessId, chance: Chance)
    requires s in Safe(id) && p in s.processes
    requires var pc := s.processes[p]; pc.PostClaim? || pc.InsertAttempt? || pc.BumpCount?
    ensures Executed(id, s, p, chance) in Safe(id)
  {
    var pc := s.processes[p];
    if pc.PostClaim? {
      if !chance.bound {
        GoesKeepsSafe(id, s, p, GiveUp);
      } else if Payout(id, pc.count + 1) in s.journal {
        EndsKeepsSafe(id, s, p);
      } else {
        ClaimKeepsSafe(id, s, p, pc.count);
      }
    } else if pc.InsertAttempt? {
      if pc.n in s.attempts {
        EndsKeepsSafe(id, s, p);
      } else {
        InsertKeepsSafe(id, s, p, pc.n);
      }
    } else {
      assert Owns(pc, pc.n);
      RowsKeepSafe(id, s, s.(count := pc.n));
      GoesKeepsSafe(id, s.(count := pc.n), p, CallProvider(pc.n));
    }
  }

  predicate Rejects(reply: ReplyKind) {
    reply in {RejectedRetryable, RejectedTerminal}
  }

  /** The call and what is done with the answer. */
  lemma CallingKeepsSafe(id: SessionId, s: State, p: ProcessId, chance: Chance)
    requires s in Safe(id) && p in s.processes
    requires s.processes[p].CallProvider? || s.processes[p].TakeUpReply?
    ensures Executed(id, s, p, chance) in Safe(id)
  {
    var pc := s.processes[p];
    if pc.CallProvider? {
      CallKeepsSafe(id, s, p, pc.n, chance.reply);
    } else {
      var next := Executed(id, s, p, chance);
      if Rejects(pc.reply) {
        GoesKeepsSafe(id, s, p, next.processes[p]);
      } else {
        RowsKeepSafe(id, s, s.(paged := next.paged));
        EndsKeepsSafe(id, s.(paged := next.paged), p);
      }
    }
  }

  lemma InsertKeepsSafe(id: SessionId, s: State, p: ProcessId, n: nat)
    requires s in Safe(id) && p in s.processes && s.processes[p] == InsertAttempt(n)
    ensures Goes(s.(attempts := s.attempts[n := Dispatched]), p, BumpCount(n)) in Safe(id)
  {
    assert Owns(s.processes[p], n);
    var inserted := s.(attempts := s.attempts[n := Dispatched]);
    RowsKeepSafe(id, s, inserted);
    GoesKeepsSafe(id, inserted, p, BumpCount(n));
  }

  /** The statements of handleAttemptFailure and failSettlement. */
  lemma FailingKeepsSafe(id: SessionId, s: State, p: ProcessId, chance: Chance)
    requires s in Safe(id) && p in s.processes
    requires var pc := s.processes[p]; pc.MarkFailed? || pc.ReadBack? || pc.PostReversal? || pc.GiveUp?
    ensures Executed(id, s, p, chance) in Safe(id)
  {
    EndsKeepsSafe(id, s, p);
    var pc := s.processes[p];
    if pc.MarkFailed? {
      var failed := s.(attempts := s.attempts[pc.n := Failed(pc.bucket)]);
      if pc.n in s.attempts && s.attempts[pc.n] == Dispatched {
        RowsKeepSafe(id, s, failed);
        GoesKeepsSafe(id, failed, p, ReadBack(pc.n, pc.bucket));
      }
    } else if pc.ReadBack? {
      assert Reverses(pc, pc.n);
      GoesKeepsSafe(id, s, p, PostReversal(pc.n, pc.bucket, s.count));
    } else if pc.PostReversal? {
      assert Reverses(pc, pc.n);
      PostKeepsSafe(id, s, AttemptReversal(id, pc.n));
      GoesKeepsSafe(id, Posts(s, AttemptReversal(id, pc.n)), p, GiveUp);
      GoesKeepsSafe(id, Posts(s, AttemptReversal(id, pc.n)), p, PostClaim(pc.count));
    } else {
      var given := s.(status := if chance.handedOver then AwaitingManualPayout else SettlementFailed, paged := true);
      RowsKeepSafe(id, s, given);
      EndsKeepsSafe(id, given, p);
    }
  }

  lemma SuccessKeepsSafe(id: SessionId, s: State, p: ProcessId, n: nat)
    requires s in Safe(id) && p in s.processes && n in s.attempts
    ensures Goes(s.(attempts := s.attempts[n := Succeeded]), p, ToSettled) in Safe(id)
  {
    var paid := s.(attempts := s.attempts[n := Succeeded]);
    RowsKeepSafe(id, s, paid);
    GoesKeepsSafe(id, paid, p, ToSettled);
  }

  lemma StatusKeepsSafe(id: SessionId, s: State, p: ProcessId, status: Status)
    requires s in Safe(id)
    ensures Ends(s.(status := status), p) in Safe(id) && Goes(s.(status := status), p, PostReturn) in Safe(id)
  {
    RowsKeepSafe(id, s, s.(status := status));
    EndsKeepsSafe(id, s.(status := status), p);
    GoesKeepsSafe(id, s.(status := status), p, PostReturn);
  }

  /** The statements of the success callback. */
  lemma SucceedingKeepsSafe(id: SessionId, s: State, p: ProcessId, chance: Chance)
    requires s in Safe(id) && p in s.processes && s.processes[p].MarkSucceeded?
    ensures Executed(id, s, p, chance) in Safe(id)
  {
    EndsKeepsSafe(id, s, p);
    var n := s.processes[p].n;
    if n in s.attempts {
      SuccessKeepsSafe(id, s, p, n);
    }
  }

  lemma SettlingKeepsSafe(id: SessionId, s: State, p: ProcessId, chance: Chance)
    requires s in Safe(id) && p in s.processes && s.processes[p].ToSettled?
    ensures Executed(id, s, p, chance) in Safe(id)
  {
    StatusKeepsSafe(id, s, p, if s.status == Settling then Settled else s.status);
  }

  /** The statements of the return callback. */
  lemma ReversingKeepsSafe(id: SessionId, s: State, p: ProcessId, chance: Chance)
    requires s in Safe(id) && p in s.processes && s.processes[p].ToReversed?
    ensures Executed(id, s, p, chance) in Safe(id)
  {
    if s.status == Settled {
      StatusKeepsSafe(id, s, p, Reversed);
    } else {
      EndsKeepsSafe(id, s, p);
    }
  }

  lemma ReturningKeepsSafe(id: SessionId, s: State, p: ProcessId, chance: Chance)
    requires s in Safe(id) && p in s.processes && s.processes[p].PostReturn?
    ensures Executed(id, s, p, chance) in Safe(id)
  {
    PostKeepsSafe(id, s, SettlementReversal(id));
    EndsKeepsSafe(id, Posts(s, SettlementReversal(id)), p);
  }

  /** The statements of the ops retry and of the payment by hand. */
  lemma OpsKeepSafe(id: SessionId, s: State, p: ProcessId, chance: Chance)
    requires s in Safe(id) && p in s.processes
    requires var pc := s.processes[p];
             pc.ConfirmFailed? || pc.PostConfirmed? || pc.Requeue? || pc.RecordHandPayment? || pc.PostHandPayment?
    ensures Executed(id, s, p, chance) in Safe(id)
  {
    EndsKeepsSafe(id, s, p);
    var pc := s.processes[p];
    if pc.ConfirmFailed? {
      ConfirmKeepsSafe(id, s, p);
    } else if pc.PostConfirmed? {
      GoesKeepsSafe(id, s, p, Pc.Requeue(Settling));
      if chance.pick in pc.pending {
        assert Reverses(pc, chance.pick);
        PostKeepsSafe(id, s, AttemptReversal(id, chance.pick));
        var posted := Posts(s, AttemptReversal(id, chance.pick));
        forall n: nat | n in pc.pending ensures Payout(id, n) in posted.journal {
          assert Reverses(pc, n);
        }
        GoesKeepsSafe(id, posted, p, PostConfirmed(pc.pending - {chance.pick}));
      }
    } else if pc.Requeue? {
      var queued := s.(status := PendingDispatch, paged := false);
      RowsKeepSafe(id, s, queued);
      EndsKeepsSafe(id, queued, p);
    } else if pc.RecordHandPayment? {
      var paid := s.(status := Settled, attempts := s.attempts[pc.count + 1 := Succeeded], count := pc.count + 1);
      RowsKeepSafe(id, s, paid);
      GoesKeepsSafe(id, paid, p, PostHandPayment);
    } else {
      PostKeepsSafe(id, s, ManualPayout(id));
      EndsKeepsSafe(id, Posts(s, ManualPayout(id)), p);
    }
  }

  lemma NextKeepsSafe(id: SessionId, s: State, p: ProcessId, move: Move)
    requires s in Safe(id)
    ensures Next(id, s, p, move) in Safe(id)
  {
    if move.Enter? && p !in s.processes {
      EnteredKeepsSafe(id, s, p, move.entry);
    } else if move.Execute? && p in s.processes {
      var pc := s.processes[p];
      if pc.ConfirmFailed? || pc.PostConfirmed? || pc.Requeue? || pc.RecordHandPayment? || pc.PostHandPayment? {
        OpsKeepSafe(id, s, p, move.chance);
      } else if pc.MarkFailed? || pc.ReadBack? || pc.PostReversal? || pc.GiveUp? {
        FailingKeepsSafe(id, s, p, move.chance);
      } else if pc.MarkSucceeded? {
        SucceedingKeepsSafe(id, s, p, move.chance);
      } else if pc.ToSettled? {
        SettlingKeepsSafe(id, s, p, move.chance);
      } else if pc.ToReversed? {
        ReversingKeepsSafe(id, s, p, move.chance);
      } else if pc.PostReturn? {
        ReturningKeepsSafe(id, s, p, move.chance);
      } else if pc.TakeRow? || pc.PostDeposit? || pc.PostFx? || pc.ToSettling? {
        WorkerKeepsSafe(id, s, p, move.chance);
      } else if pc.CallProvider? || pc.TakeUpReply? {
        CallingKeepsSafe(id, s, p, move.chance);
      } else {
        DispatchingKeepsSafe(id, s, p, move.chance);
      }
    } else if move.Stop? {
      EndsKeepsSafe(id, s, p);
    } else if move.TimeoutPage? || move.DeclinePage? {
      RowsKeepSafe(id, s, s.(paged := true));
    }
  }

  lemma {:induction false} EveryInterleavingIsSafe(id: SessionId, moves: seq<(ProcessId, Move)>)
    ensures AfterMoves(id, moves) in Safe(id)
  {
    if moves != [] {
      var last := moves[|moves| - 1];
      EveryInterleavingIsSafe(id, moves[..|moves| - 1]);
      NextKeepsSafe(id, AfterMoves(id, moves[..|moves| - 1]), last.0, last.1);
    }
  }

  // ----- what it comes to -----

  function Times<T(==)>(x: T, s: seq<T>): nat {
    if s == [] then 0 else Times(x, s[..|s| - 1]) + (if s[|s| - 1] == x then 1 else 0)
  }

  lemma {:induction false} UnrepeatedTimes<T>(x: T, s: seq<T>)
    requires Unrepeated(s)
    ensures Times(x, s) == if x in s then 1 else 0
  {
    if s != [] {
      UnrepeatedTimes(x, s[..|s| - 1]);
    }
  }

  /**
   * Whatever interleaves and whoever dies, a provider is called at most once per attempt, and only for a claimed
   * attempt.
   */
  lemma {:induction false} CalledAtMostOnce(id: SessionId, moves: seq<(ProcessId, Move)>, n: nat)
    ensures var s := AfterMoves(id, moves);
            && Times(n, s.calls) <= Times(Payout(id, n), s.journal) <= 1
  {
    EveryInterleavingIsSafe(id, moves);
    UnrepeatedTimes(n, AfterMoves(id, moves).calls);
    UnrepeatedTimes(Payout(id, n), AfterMoves(id, moves).journal);
  }

  /**
   * An attempt is reversed at most once, and only after its claim: at no point do its reversals outnumber its claims.
   */
  lemma ReversedAtMostOnceAfterClaim(id: SessionId, moves: seq<(ProcessId, Move)>, n: nat, k: nat)
    requires k <= |AfterMoves(id, moves).journal|
    ensures var sofar := AfterMoves(id, moves).journal[..k];
            Times(AttemptReversal(id, n), sofar) <= Times(Payout(id, n), sofar) <= 1
  {
    EveryInterleavingIsSafe(id, moves);
    var journal := AfterMoves(id, moves).journal;
    var sofar := journal[..k];
    UnrepeatedTimes(AttemptReversal(id, n), sofar);
    UnrepeatedTimes(Payout(id, n), sofar);
    if AttemptReversal(id, n) in sofar {
      var i :| 0 <= i < k && journal[i] == AttemptReversal(id, n);
      assert journal[..i] <= sofar;
    }
  }

  /** Claims minus reversals of a session's automatic attempts. */
  function Net(id: SessionId, journal: seq<Key>): int {
    if journal == [] then 0
    else
      var key := journal[|journal| - 1];
      Net(id, journal[..|journal| - 1])
      + (if key.Payout? && key.session == id then 1 else if key.AttemptReversal? && key.session == id then -1 else 0)
  }

  function Open(id: SessionId, journal: seq<Key>): (open: set<nat>) {
    set i | 0 <= i < |journal| && journal[i].Payout? && journal[i].session == id
            && AttemptReversal(id, journal[i].attempt) !in journal :: journal[i].attempt
  }

  lemma OpenAfterClaim(id: SessionId, before: seq<Key>, n: nat)
    requires Unrepeated(before + [Payout(id, n)]) && ClaimsFirst(id, before)
    ensures Open(id, before + [Payout(id, n)]) == Open(id, before) + {n} && n !in Open(id, before)
  {
    var journal := before + [Payout(id, n)];
    assert journal[|before|] == Payout(id, n);
    forall i | 0 <= i < |before| ensures journal[i] == before[i] != Payout(id, n) {}
    NoReversalYet(id, before, n);
    forall k: Key ensures k in journal <==> k in before || k == Payout(id, n) {}
  }

  lemma OpenAfterReversal(id: SessionId, before: seq<Key>, n: nat)
    requires AttemptReversal(id, n) !in before && Payout(id, n) in before
    ensures Open(id, before + [AttemptReversal(id, n)]) == Open(id, before) - {n} && n in Open(id, before)
  {
    var journal := before + [AttemptReversal(id, n)];
    assert journal[|before|] == AttemptReversal(id, n);
    forall i | 0 <= i < |before| ensures journal[i] == before[i] {}
    forall k: Key ensures k in journal <==> k in before || k == AttemptReversal(id, n) {}
  }

  lemma OpenAfterOther(id: SessionId, before: seq<Key>, key: Key)
    requires !((key.Payout? || key.AttemptReversal?) && key.session == id)
    ensures Open(id, before + [key]) == Open(id, before)
  {
    var journal := before + [key];
    forall i | 0 <= i < |before| ensures journal[i] == before[i] {}
    forall k: Key ensures k in journal <==> k in before || k == key {}
  }

  lemma PrefixInOrder(id: SessionId, journal: seq<Key>, k: nat)
    requires Unrepeated(journal) && ClaimsFirst(id, journal) && k <= |journal|
    ensures Unrepeated(journal[..k]) && ClaimsFirst(id, journal[..k])
    ensures k < |journal| ==> journal[k] !in journal[..k]
    ensures k < |journal| && journal[k].AttemptReversal? && journal[k].session == id ==>
            Payout(id, journal[k].attempt) in journal[..k]
  {
    forall i | 0 <= i < k ensures journal[..k][..i] == journal[..i] {}
  }

  /** The last key opens an attempt, closes one, or does neither. */
  lemma OpenAfterLast(id: SessionId, before: seq<Key>, key: Key)
    requires Unrepeated(before + [key]) && ClaimsFirst(id, before) && key !in before
    requires key.AttemptReversal? && key.session == id ==> Payout(id, key.attempt) in before
    ensures |Open(id, before + [key])| == |Open(id, before)| +
              (if key.Payout? && key.session == id then 1
               else if key.AttemptReversal? && key.session == id then -1 else 0)
  {
    if key.Payout? && key.session == id {
      OpenAfterClaim(id, before, key.attempt);
    } else if key.AttemptReversal? && key.session == id {
      OpenAfterReversal(id, before, key.attempt);
    } else {
      OpenAfterOther(id, before, key);
    }
  }

  /** Net counts the attempts that are claimed and not reversed, so it is never negative. */
  lemma {:induction false} NetCountsOpen(id: SessionId, journal: seq<Key>)
    requires Unrepeated(journal) && ClaimsFirst(id, journal)
    ensures Net(id, journal) == |Open(id, journal)|
  {
    if journal != [] {
      var last := |journal| - 1;
      PrefixInOrder(id, journal, last);
      NetCountsOpen(id, journal[..last]);
      assert journal == journal[..last] + [journal[last]];
      OpenAfterLast(id, journal[..last], journal[last]);
    }
  }

  /** An unclaimed attempt is not reversed either. */
  lemma NoReversalYet(id: SessionId, journal: seq<Key>, n: nat)
    requires ClaimsFirst(id, journal) && Payout(id, n) !in journal
    ensures AttemptReversal(id, n) !in journal
  {
    forall i | 0 <= i < |journal| ensures journal[i] != AttemptReversal(id, n) {
      if journal[i].AttemptReversal? && journal[i].session == id {
        assert Payout(id, journal[i].attempt) in journal[..i];
      }
    }
  }

  lemma NetNeverNegative(id: SessionId, moves: seq<(ProcessId, Move)>, k: nat)
    requires k <= |AfterMoves(id, moves).journal|
    ensures Net(id, AfterMoves(id, moves).journal[..k]) >= 0
  {
    EveryInterleavingIsSafe(id, moves);
    PrefixInOrder(id, AfterMoves(id, moves).journal, k);
    NetCountsOpen(id, AfterMoves(id, moves).journal[..k]);
  }
}
