/**
 * What can still become of a settlement whose process died: which rows no later run moves, for which no provider is
 * ever called again, and which can never be paid any more.
 */
module CrashRecovery {
  import opened Ledger
  import opened Settlement
  import opened Interleaving
  import opened InterleavingSerial
  import opened InterleavingMoves
  import opened CrashInvariant

  predicate Unfinished(status: Status) {
    status in {PendingDispatch, Dispatching, Settling, SettlementFailed, AwaitingManualPayout}
  }

  /** Nobody takes up a dispatching row; a settling one without an open attempt is retried only if ops were paged. */
  predicate Stalled(s: State) {
    || s.status == Dispatching
    || (s.status == Settling && NoneIs(s.attempts, Dispatched) && (!s.paged || !NoneIs(s.attempts, Succeeded)))
  }

  /** Between processes, after any careful run: those there were have ended or died. */
  ghost predicate AtRest(id: SessionId, s: State) {
    s in Reachable(id, CAREFUL, START) && s.processes == map[]
  }

  lemma ReachableIsKept(id: SessionId, start: State, s: State)
    requires start in Kept(id) && s in Reachable(id, CAREFUL, start)
    ensures s in Kept(id)
  {
    var moves :| Obeys(id, CAREFUL, start, moves) && From(id, start, moves) == s;
    CarefulRunIsKept(id, start, moves);
  }

  lemma RestIsKept(id: SessionId, s: State)
    requires AtRest(id, s)
    ensures s in Kept(id)
  {
    StartIsKept(id);
    ReachableIsKept(id, START, s);
  }

  // ----- a stalled row stays -----

  /** Callbacks may look at a stalled row, and leave it. */
  predicate Still(s: State) {
    && Stalled(s) && NoneIs(s.attempts, Dispatched)
    && forall p | p in s.processes ::
         s.processes[p].MarkFailed? || s.processes[p].MarkSucceeded? || s.processes[p].ToReversed?
  }

  lemma NextIsStill(id: SessionId, d: Discipline, s: State, p: ProcessId, move: Move)
    requires Still(s) && d.informed && Permits(d, s, move)
    ensures var t := Next(id, s, p, move); Still(t) && t == s.(processes := t.processes)
  {
    match move
    case Enter(_) =>
    case Execute(_) =>
    case Stop =>
    case TimeoutPage =>
    case DeclinePage(_) =>
  }

  lemma {:induction false} StaysStill(id: SessionId, d: Discipline, s: State, moves: seq<(ProcessId, Move)>)
    requires Still(s) && d.informed && Obeys(id, d, s, moves)
    ensures var t := From(id, s, moves); Still(t) && t == s.(processes := t.processes)
  {
    if moves != [] {
      var last := moves[|moves| - 1];
      StaysStill(id, d, s, moves[..|moves| - 1]);
      NextIsStill(id, d, From(id, s, moves[..|moves| - 1]), last.0, last.1);
    }
  }

  /** Whatever interleaves and whoever dies, as long as confirmations are informed. */
  lemma StalledForever(id: SessionId, d: Discipline, s: State, t: State)
    requires AtRest(id, s) && Stalled(s) && d.informed && t in Reachable(id, d, s)
    ensures t == s.(processes := t.processes)
  {
    RestIsKept(id, s);
    var moves :| Obeys(id, d, s, moves) && From(id, s, moves) == t;
    StaysStill(id, d, s, moves);
  }

  // ----- any other row is put back into the queue -----

  /** The same settlement in the queue, with nothing claimed, sent or inserted since. */
  predicate QueuedAgain(id: SessionId, s: State, t: State) {
    && t.processes == map[] && t.status == PendingDispatch && t.count == s.count && t.calls == s.calls
    && t.attempts.Keys == s.attempts.Keys
    && (Payout(id, s.count + 1) in t.journal <==> Payout(id, s.count + 1) in s.journal)
  }

  lemma OpsRequeue(id: SessionId, r: Reach, s: State)
    requires ClosedUnder(id, r) && s in r.states && s.processes == map[] && Permits(r.d, s, Enter(OpsRetry(false)))
    requires s.status in {SettlementFailed, AwaitingManualPayout}
    ensures s.(status := PendingDispatch, paged := false) in r.states
  {
    Enters(id, r, s, 0, OpsRetry(false));
    assert Next(id, s, 0, Enter(OpsRetry(false))) == At(s, 0, Pc.Requeue(s.status));
    Continues(id, r, At(s, 0, Pc.Requeue(s.status)), 0, ACCEPTS);
    Replaced(s.(status := PendingDispatch, paged := false), 0, Pc.Requeue(s.status), Pc.Requeue(s.status));
  }

  /** The rows once the admin has confirmed the failure of the one open attempt. */
  function Confirmed(s: State): State {
    s.(attempts := map n | n in s.attempts :: FailedBy(s.attempts[n], 3))
  }

  lemma ConfirmationIs(id: SessionId, s: State, p: ProcessId, n: nat)
    requires p !in s.processes
    requires forall m :: m in s.attempts && s.attempts[m] == Dispatched <==> m == n
    ensures Next(id, At(s, p, Pc.ConfirmFailed), p, ACCEPTS) == At(Confirmed(s), p, PostConfirmed({n}))
  {
    var next := Next(id, At(s, p, Pc.ConfirmFailed), p, ACCEPTS);
    assert next.attempts == Confirmed(s).attempts;
    assert next.processes[p].pending == {n};
    Replaced(Confirmed(s), p, Pc.ConfirmFailed, PostConfirmed({n}));
  }

  lemma ConfirmsOpen(id: SessionId, r: Reach, s: State, p: ProcessId, n: nat)
    requires ClosedUnder(id, r)
    requires p !in s.processes && At(s, p, Pc.ConfirmFailed) in r.states
    requires forall m :: m in s.attempts && s.attempts[m] == Dispatched <==> m == n
    ensures At(Confirmed(s), p, PostConfirmed({n})) in r.states
  {
    Continues(id, r, At(s, p, Pc.ConfirmFailed), p, ACCEPTS);
    ConfirmationIs(id, s, p, n);
  }

  lemma ReversesConfirmed(id: SessionId, r: Reach, s: State, p: ProcessId, n: nat)
    requires ClosedUnder(id, r)
    requires p !in s.processes && At(s, p, PostConfirmed({n})) in r.states
    ensures At(Posts(s, AttemptReversal(id, n)), p, PostConfirmed({})) in r.states
  {
    Continues(id, r, At(s, p, PostConfirmed({n})), p, Execute(Chance(true, Accepted, false, n)));
    assert {n} - {n} == {};
    Replaced(Posts(s, AttemptReversal(id, n)), p, PostConfirmed({n}), PostConfirmed({}));
  }

  /** A late attempt is paged, confirmed failed and reversed, and the settlement goes back into the queue. */
  lemma OpenIsRequeued(id: SessionId, r: Reach, s: State, n: nat) returns (t: State)
    requires ClosedUnder(id, r) && r.d == CAREFUL && s in r.states && s.processes == map[] && s.status == Settling
    requires NoneIs(s.attempts, Succeeded)
    requires forall m :: m in s.attempts && s.attempts[m] == Dispatched <==> m == n
    ensures t in r.states && QueuedAgain(id, s, t)
  {
    var paged := s.(paged := true);
    var reversed := Posts(Confirmed(paged), AttemptReversal(id, n));
    assert n in s.attempts && s.attempts[n] == Dispatched;
    Continues(id, r, s, 0, TimeoutPage);
    Enters(id, r, paged, 0, OpsRetry(true));
    assert Next(id, paged, 0, Enter(OpsRetry(true))) == At(paged, 0, Pc.ConfirmFailed);
    ConfirmsOpen(id, r, paged, 0, n);
    ReversesConfirmed(id, r, Confirmed(paged), 0, n);
    ConfirmedAll(id, r, reversed, 0);
    Requeues(id, r, reversed, 0);
    t := reversed.(status := PendingDispatch, paged := false);
  }

  lemma OnlyOpen(s: State, n: nat)
    requires s in Single() && n in s.attempts && s.attempts[n] == Dispatched
    ensures NoneIs(s.attempts, Succeeded)
    ensures forall m :: m in s.attempts && s.attempts[m] == Dispatched <==> m == n
  {
    forall m | m in s.attempts && m != n ensures s.attempts[m].Failed? {
      assert IsOpen(s.attempts, n) && (IsOpen(s.attempts, m) ==> m == n);
    }
  }

  lemma Requeueable(id: SessionId, r: Reach, s: State) returns (t: State)
    requires ClosedUnder(id, r) && r.d == CAREFUL && s in r.states && s in Kept(id) && s.processes == map[]
    requires Unfinished(s.status) && !Stalled(s)
    ensures t in r.states && QueuedAgain(id, s, t)
  {
    if s.status == PendingDispatch {
      t := s;
    } else if s.status != Settling {
      OpsRequeue(id, r, s);
      t := s.(status := PendingDispatch, paged := false);
    } else if n :| n in s.attempts && s.attempts[n] == Dispatched {
      OnlyOpen(s, n);
      t := OpenIsRequeued(id, r, s, n);
    } else {
      Retries(id, r, s, 0);
      t := s.(status := PendingDispatch, paged := false);
    }
  }

  /** A worker takes the queued row as far as the claim. */
  function Worked(id: SessionId, t: State): State {
    Posts(Posts(t, DepositConfirmed(id)), FxConversion(id)).(status := Settling)
  }

  /** An unfinished settlement can still change its status exactly when it is not stalled. */
  lemma MovesOnIffNotStalled(id: SessionId, s: State)
    requires AtRest(id, s) && Unfinished(s.status)
    ensures (exists t | t in Reachable(id, CAREFUL, s) :: t.status != s.status) <==> !Stalled(s)
  {
    if Stalled(s) {
      forall t | t in Reachable(id, CAREFUL, s) ensures t.status == s.status {
        StalledForever(id, CAREFUL, s, t);
      }
    } else {
      var r := Reach(CAREFUL, Reachable(id, CAREFUL, s));
      ReachableIsClosed(id, CAREFUL, s);
      RestIsKept(id, s);
      var t := Requeueable(id, r, s);
      Works(id, r, t, 0);
      assert At(Worked(id, t), 0, PostClaim(t.count)) in r.states;
      assert t in Reachable(id, CAREFUL, s);
      assert At(Worked(id, t), 0, PostClaim(t.count)).status == Settling;
    }
  }

  // ----- what a statement changes, sending and counting aside -----

  /** Statements that neither send nor insert nor count an attempt, and do not make a fresh claim. */
  predicate Keeps(id: SessionId, s: State, pc: Pc) {
    && !pc.InsertAttempt? && !pc.BumpCount? && !pc.CallProvider? && !pc.RecordHandPayment?
    && (pc.PostClaim? ==> Payout(id, pc.count + 1) in s.journal)
  }

  /** The rows as they are, with more posted and with other outcomes of the same attempts. */
  predicate SameAttempts(s: State, rows: State) {
    && rows.processes == s.processes && rows.count == s.count && rows.calls == s.calls
    && (forall k | k in s.journal :: k in rows.journal)
    && (forall n | n in s.attempts :: n in rows.attempts)
  }

  /** The process has stopped, or stands where it has claimed nothing; only a success leads to settling. */
  predicate Follows(s: State, p: ProcessId, t: State) {
    && SameAttempts(s, t.(processes := s.processes))
    && (forall q | q in t.processes && q != p :: q in s.processes && t.processes[q] == s.processes[q])
    && (p in t.processes && p in s.processes ==>
          Leads(s, s.processes[p], t.processes[p]))
    && (t.status in {Settled, Reversed} ==>
          s.status in {Settled, Reversed} || (p in s.processes && s.processes[p].ToSettled?))
  }

  predicate Leads(s: State, pc: Pc, next: Pc) {
    && !next.InsertAttempt? && !next.BumpCount? && !next.CallProvider?
    && (next.ToSettled? ==> pc.MarkSucceeded? && pc.n in s.attempts && s.attempts[pc.n] == Dispatched)
  }

  ghost function Followers(s: State, p: ProcessId): iset<State> {
    iset t: State | Follows(s, p, t)
  }

  predicate StatusFollows(s: State, p: ProcessId, to: Status) {
    to in {Settled, Reversed} ==> s.status in {Settled, Reversed} || (p in s.processes && s.processes[p].ToSettled?)
  }

  lemma GoesFollows(s: State, p: ProcessId, rows: State, pc: Pc)
    requires p in s.processes && SameAttempts(s, rows) && StatusFollows(s, p, rows.status)
    requires Leads(s, s.processes[p], pc)
    ensures Goes(rows, p, pc) in Followers(s, p)
  {
  }

  lemma EndsFollows(s: State, p: ProcessId, rows: State)
    requires p in s.processes && SameAttempts(s, rows) && StatusFollows(s, p, rows.status)
    ensures Ends(rows, p) in Followers(s, p)
  {
  }

  lemma WorkingFollows(id: SessionId, s: State, p: ProcessId, chance: Chance)
    requires p in s.processes
    requires var pc := s.processes[p]; pc.TakeRow? || pc.PostDeposit? || pc.PostFx? || pc.ToSettling?
    ensures Executed(id, s, p, chance) in Followers(s, p)
  {
    match s.processes[p]
    case TakeRow => GoesFollows(s, p, s.(status := Dispatching), PostDeposit(s.count));
    case PostDeposit(count) => GoesFollows(s, p, Posts(s, DepositConfirmed(id)), PostFx(count));
    case PostFx(count) => GoesFollows(s, p, Posts(s, FxConversion(id)), ToSettling(count));
    case ToSettling(count) =>
      GoesFollows(s, p, s.(status := if s.status == Dispatching then Settling else s.status), PostClaim(count));
  }

  lemma ClaimingFollows(id: SessionId, s: State, p: ProcessId, chance: Chance)
    requires p in s.processes && s.processes[p].PostClaim? && Keeps(id, s, s.processes[p])
    ensures Executed(id, s, p, chance) in Followers(s, p)
  {
    GoesFollows(s, p, s, GiveUp);
    EndsFollows(s, p, s);
  }

  lemma AnswerFollows(id: SessionId, s: State, p: ProcessId, chance: Chance)
    requires p in s.processes && s.processes[p].TakeUpReply?
    ensures Executed(id, s, p, chance) in Followers(s, p)
  {
    var n := s.processes[p].n;
    GoesFollows(s, p, s, Pc.MarkFailed(n, 4));
    GoesFollows(s, p, s, Pc.MarkFailed(n, 1));
    EndsFollows(s, p, s.(paged := true));
    EndsFollows(s, p, s);
  }

  lemma FailingFollows(id: SessionId, s: State, p: ProcessId, chance: Chance)
    requires p in s.processes && (s.processes[p].MarkFailed? || s.processes[p].GiveUp?)
    ensures Executed(id, s, p, chance) in Followers(s, p)
  {
    EndsFollows(s, p, s);
    match s.processes[p]
    case MarkFailed(n, bucket) =>
      GoesFollows(s, p, s.(attempts := s.attempts[n := Failed(bucket)]), ReadBack(n, bucket));
    case GiveUp =>
      var status := if chance.handedOver then AwaitingManualPayout else SettlementFailed;
      EndsFollows(s, p, s.(status := status, paged := true));
  }

  lemma ReversingFollows(id: SessionId, s: State, p: ProcessId, chance: Chance)
    requires p in s.processes && (s.processes[p].ReadBack? || s.processes[p].PostReversal?)
    ensures Executed(id, s, p, chance) in Followers(s, p)
  {
    match s.processes[p]
    case ReadBack(n, bucket) => GoesFollows(s, p, s, PostReversal(n, bucket, s.count));
    case PostReversal(n, _, count) =>
      GoesFollows(s, p, Posts(s, AttemptReversal(id, n)), GiveUp);
      GoesFollows(s, p, Posts(s, AttemptReversal(id, n)), PostClaim(count));
  }

  lemma SucceedingFollows(id: SessionId, s: State, p: ProcessId, chance: Chance)
    requires p in s.processes
    requires var pc := s.processes[p]; pc.MarkSucceeded? || pc.ToSettled? || pc.ToReversed? || pc.PostReturn?
    ensures Executed(id, s, p, chance) in Followers(s, p)
  {
    EndsFollows(s, p, s);
    match s.processes[p]
    case MarkSucceeded(n) =>
      if n in s.attempts && s.attempts[n] == Dispatched {
        GoesFollows(s, p, s.(attempts := s.attempts[n := Succeeded]), ToSettled);
      }
    case ToSettled => EndsFollows(s, p, s.(status := if s.status == Settling then Settled else s.status));
    case ToReversed => if s.status == Settled { GoesFollows(s, p, s.(status := Reversed), PostReturn); }
    case PostReturn => EndsFollows(s, p, Posts(s, SettlementReversal(id)));
  }

  lemma ConfirmingIs(id: SessionId, s: State, p: ProcessId, chance: Chance)
    requires p in s.processes && s.processes[p].ConfirmFailed?
    ensures Executed(id, s, p, chance)
            == Goes(Confirmed(s), p, PostConfirmed(set n | n in s.attempts && s.attempts[n] == Dispatched))
  {
    assert Executed(id, s, p, chance).attempts == Confirmed(s).attempts;
  }

  lemma ConfirmingFollows(id: SessionId, s: State, p: ProcessId, chance: Chance)
    requires p in s.processes && s.processes[p].ConfirmFailed?
    ensures Executed(id, s, p, chance) in Followers(s, p)
  {
    ConfirmingIs(id, s, p, chance);
    GoesFollows(s, p, Confirmed(s), PostConfirmed(set n | n in s.attempts && s.attempts[n] == Dispatched));
  }

  lemma NothingFollows(s: State, p: ProcessId)
    requires p in s.processes && Leads(s, s.processes[p], s.processes[p])
    ensures s in Followers(s, p)
  {
  }

  lemma ConfirmedFollows(id: SessionId, s: State, p: ProcessId, chance: Chance)
    requires p in s.processes && s.processes[p].PostConfirmed?
    ensures Executed(id, s, p, chance) in Followers(s, p)
  {
    var pending := s.processes[p].pending;
    if pending == {} {
      GoesFollows(s, p, s, Pc.Requeue(Settling));
    } else if chance.pick in pending {
      GoesFollows(s, p, Posts(s, AttemptReversal(id, chance.pick)), PostConfirmed(pending - {chance.pick}));
    } else {
      NothingFollows(s, p);
    }
  }

  lemma OpsFollow(id: SessionId, s: State, p: ProcessId, chance: Chance)
    requires p in s.processes && (s.processes[p].Requeue? || s.processes[p].PostHandPayment?)
    ensures Executed(id, s, p, chance) in Followers(s, p)
  {
    match s.processes[p]
    case Requeue(_) =>
      EndsFollows(s, p, s);
      EndsFollows(s, p, s.(status := PendingDispatch, paged := false));
    case PostHandPayment => EndsFollows(s, p, Posts(s, ManualPayout(id)));
  }

  lemma KeepingFollows(id: SessionId, s: State, p: ProcessId, chance: Chance)
    requires p in s.processes && Keeps(id, s, s.processes[p])
    ensures Executed(id, s, p, chance) in Followers(s, p)
  {
    var pc := s.processes[p];
    if pc.MarkFailed? || pc.GiveUp? {
      FailingFollows(id, s, p, chance);
    } else if pc.MarkSucceeded? || pc.ToSettled? || pc.ToReversed? || pc.PostReturn? {
      SucceedingFollows(id, s, p, chance);
    } else if pc.ReadBack? || pc.PostReversal? {
      ReversingFollows(id, s, p, chance);
    } else if pc.ConfirmFailed? {
      ConfirmingFollows(id, s, p, chance);
    } else if pc.PostConfirmed? {
      ConfirmedFollows(id, s, p, chance);
    } else if pc.Requeue? || pc.PostHandPayment? {
      OpsFollow(id, s, p, chance);
    } else if pc.PostClaim? {
      ClaimingFollows(id, s, p, chance);
    } else if pc.TakeUpReply? {
      AnswerFollows(id, s, p, chance);
    } else {
      WorkingFollows(id, s, p, chance);
    }
  }

  // ----- a claim that nobody owns -----

  /** The next attempt's key is taken, and nobody is past the claim. */
  predicate Taken(id: SessionId, s: State) {
    && Payout(id, s.count + 1) in s.journal
    && forall p | p in s.processes ::
         !s.processes[p].InsertAttempt? && !s.processes[p].BumpCount? && !s.processes[p].CallProvider?
  }

  /** Settled or returned, and nobody does more than end that. */
  predicate Finished(s: State) {
    && s.status in {Settled, Reversed} && NoneIs(s.attempts, Dispatched)
    && forall p | p in s.processes ::
         var pc := s.processes[p];
         pc.MarkFailed? || pc.MarkSucceeded? || pc.ToReversed? || pc.PostReturn? || pc.PostHandPayment?
  }

  ghost function Blocked(id: SessionId): iset<State> {
    iset s: State | Taken(id, s) || Finished(s)
  }

  lemma EntersBlocked(id: SessionId, s: State, p: ProcessId, entry: Interleaving.Entry)
    requires s in Blocked(id) && s.processes == map[]
    ensures Entered(s, p, entry) in Blocked(id) && Entered(s, p, entry).calls == s.calls
  {
  }

  lemma ExecutesFinished(id: SessionId, s: State, p: ProcessId, chance: Chance)
    requires Finished(s) && p in s.processes
    ensures Finished(Executed(id, s, p, chance)) && Executed(id, s, p, chance).calls == s.calls
  {
    match s.processes[p]
    case MarkFailed(_, _) =>
    case MarkSucceeded(_) =>
    case ToReversed =>
    case PostReturn =>
    case PostHandPayment =>
  }

  lemma RecordsTaken(id: SessionId, s: State, p: ProcessId, chance: Chance)
    requires s in Kept(id) && Taken(id, s) && p in s.processes && s.processes[p].RecordHandPayment?
    ensures Executed(id, s, p, chance) in Blocked(id) && Executed(id, s, p, chance).calls == s.calls
  {
    AloneThere(s, p);
    assert Knows(id, s, s.processes[p]);
  }

  lemma FollowerIsTaken(id: SessionId, s: State, p: ProcessId, t: State)
    requires Taken(id, s) && p in s.processes && t in Followers(s, p)
    ensures Taken(id, t) && t.calls == s.calls
  {
  }

  lemma ExecutesBlocked(id: SessionId, s: State, p: ProcessId, chance: Chance)
    requires s in Kept(id) && s in Blocked(id) && p in s.processes
    ensures Executed(id, s, p, chance) in Blocked(id) && Executed(id, s, p, chance).calls == s.calls
  {
    if Finished(s) {
      ExecutesFinished(id, s, p, chance);
    } else if s.processes[p].RecordHandPayment? {
      RecordsTaken(id, s, p, chance);
    } else {
      assert Knows(id, s, s.processes[p]);
      KeepingFollows(id, s, p, chance);
      FollowerIsTaken(id, s, p, Executed(id, s, p, chance));
    }
  }

  lemma NextIsBlocked(id: SessionId, s: State, p: ProcessId, move: Move)
    requires s in Kept(id) && s in Blocked(id) && Permits(CAREFUL, s, move)
    ensures Next(id, s, p, move) in Blocked(id) && Next(id, s, p, move).calls == s.calls
  {
    match move
    case Enter(entry) => EntersBlocked(id, s, p, entry);
    case Execute(chance) => if p in s.processes { ExecutesBlocked(id, s, p, chance); }
    case Stop =>
    case TimeoutPage =>
    case DeclinePage(_) =>
  }

  lemma {:induction false} StaysBlocked(id: SessionId, s: State, moves: seq<(ProcessId, Move)>)
    requires s in Kept(id) && s in Blocked(id) && Obeys(id, CAREFUL, s, moves)
    ensures From(id, s, moves) in Blocked(id) && From(id, s, moves).calls == s.calls
  {
    if moves != [] {
      var before, last := moves[..|moves| - 1], moves[|moves| - 1];
      StaysBlocked(id, s, before);
      CarefulRunIsKept(id, s, before);
      NextIsBlocked(id, From(id, s, before), last.0, last.1);
    }
  }

  /**
   * A provider is called again in some later run exactly when the row is not stalled and the next attempt is not
   * claimed yet: a worker that finds its key taken returns as if it had nothing to do.
   */
  lemma CalledAgainIffUnclaimed(id: SessionId, s: State)
    requires AtRest(id, s) && Unfinished(s.status)
    ensures (exists t | t in Reachable(id, CAREFUL, s) :: |t.calls| > |s.calls|)
            <==> !Stalled(s) && Payout(id, s.count + 1) !in s.journal
  {
    RestIsKept(id, s);
    if Stalled(s) {
      forall t | t in Reachable(id, CAREFUL, s) ensures t.calls == s.calls {
        StalledForever(id, CAREFUL, s, t);
      }
    } else if Payout(id, s.count + 1) in s.journal {
      RestsBlocked(id, s);
      forall t | t in Reachable(id, CAREFUL, s) ensures t.calls == s.calls {
        BlockedForever(id, s, t);
      }
    } else {
      var r := Reach(CAREFUL, Reachable(id, CAREFUL, s));
      ReachableIsClosed(id, CAREFUL, s);
      var t := SendsAgain(id, r, s);
    }
  }

  lemma RestsBlocked(id: SessionId, s: State)
    requires s.processes == map[] && Payout(id, s.count + 1) in s.journal
    ensures s in Blocked(id)
  {
  }

  lemma BlockedForever(id: SessionId, s: State, t: State)
    requires s in Kept(id) && s in Blocked(id) && t in Reachable(id, CAREFUL, s)
    ensures t.calls == s.calls
  {
    var moves :| Obeys(id, CAREFUL, s, moves) && From(id, s, moves) == t;
    StaysBlocked(id, s, moves);
  }

  /** Work up to the claim leaves everything that the claim looks at. */
  lemma WorkedIs(id: SessionId, s: State, t: State)
    requires QueuedAgain(id, s, t)
    ensures var worked := Worked(id, t);
            && worked.status == Settling && worked.count == s.count && worked.calls == s.calls
            && worked.processes == map[] && worked.attempts.Keys == s.attempts.Keys
            && (Payout(id, s.count + 1) in worked.journal <==> Payout(id, s.count + 1) in s.journal)
  {
  }

  /** Any row that is not stalled comes to a claim again. */
  lemma ComesToClaim(id: SessionId, r: Reach, s: State) returns (queued: State)
    requires ClosedUnder(id, r) && r.d == CAREFUL && s in r.states && s in Kept(id) && s.processes == map[]
    requires Unfinished(s.status) && !Stalled(s)
    ensures QueuedAgain(id, s, queued)
    ensures At(Worked(id, queued), 0, PostClaim(s.count)) in r.states
  {
    queued := Requeueable(id, r, s);
    Works(id, r, queued, 0);
  }

  lemma UnclaimedIsNotInserted(id: SessionId, s: State)
    requires s in Kept(id) && Payout(id, s.count + 1) !in s.journal
    ensures s.count + 1 !in s.attempts
  {
  }

  lemma SendsAgain(id: SessionId, r: Reach, s: State) returns (t: State)
    requires ClosedUnder(id, r) && r.d == CAREFUL && s in r.states && s in Kept(id) && s.processes == map[]
    requires Unfinished(s.status) && !Stalled(s) && Payout(id, s.count + 1) !in s.journal
    ensures t in r.states && |t.calls| > |s.calls|
  {
    var queued := ComesToClaim(id, r, s);
    var worked := Worked(id, queued);
    WorkedIs(id, s, queued);
    UnclaimedIsNotInserted(id, s);
    Sends(id, r, worked, 0);
    t := Sent(id, worked);
  }

  // ----- an attempt that was inserted and never sent -----

  /** The next attempt is there, so that neither a worker nor a human can insert it. */
  predicate Overhangs(s: State) {
    && s.count + 1 in s.attempts && s.status !in {Settled, Reversed}
    && forall p | p in s.processes ::
         !s.processes[p].BumpCount? && !s.processes[p].CallProvider? && !s.processes[p].ToSettled?
  }

  ghost function Doomed(): iset<State> {
    iset s: State | Overhangs(s)
  }

  /** Only the attempt that was inserted and never sent may be open. */
  lemma NoSuccess(id: SessionId, s: State, n: nat)
    requires s in Kept(id) && s.count + 1 in s.attempts && n in s.calls
    ensures !(n in s.attempts && s.attempts[n] == Dispatched)
  {
  }

  lemma InsertsNothing(id: SessionId, s: State, p: ProcessId, chance: Chance)
    requires s in Kept(id) && Overhangs(s) && p in s.processes
    requires s.processes[p].InsertAttempt? || s.processes[p].RecordHandPayment?
    ensures Executed(id, s, p, chance) == Ends(s, p)
  {
    assert Knows(id, s, s.processes[p]);
  }

  lemma FollowerIsDoomed(s: State, p: ProcessId, t: State)
    requires Overhangs(s) && p in s.processes && t in Followers(s, p)
    requires s.processes[p].MarkSucceeded? ==>
               var n := s.processes[p].n; !(n in s.attempts && s.attempts[n] == Dispatched)
    ensures t in Doomed()
  {
  }

  lemma ExecutesDoomed(id: SessionId, s: State, p: ProcessId, chance: Chance)
    requires s in Kept(id) && s in Doomed() && p in s.processes
    ensures Executed(id, s, p, chance) in Doomed()
  {
    var pc := s.processes[p];
    assert Knows(id, s, pc);
    if pc.InsertAttempt? || pc.RecordHandPayment? {
      InsertsNothing(id, s, p, chance);
    } else {
      if pc.MarkSucceeded? {
        NoSuccess(id, s, pc.n);
      }
      assert AttemptsInStep(id, s);
      KeepingFollows(id, s, p, chance);
      FollowerIsDoomed(s, p, Executed(id, s, p, chance));
    }
  }

  lemma NextIsDoomed(id: SessionId, s: State, p: ProcessId, move: Move)
    requires s in Kept(id) && s in Doomed() && Permits(CAREFUL, s, move)
    ensures Next(id, s, p, move) in Doomed()
  {
    match move
    case Enter(_) =>
    case Execute(chance) => if p in s.processes { ExecutesDoomed(id, s, p, chance); }
    case Stop =>
    case TimeoutPage =>
    case DeclinePage(_) =>
  }

  lemma {:induction false} StaysDoomed(id: SessionId, s: State, moves: seq<(ProcessId, Move)>)
    requires s in Kept(id) && s in Doomed() && Obeys(id, CAREFUL, s, moves)
    ensures From(id, s, moves) in Doomed()
  {
    if moves != [] {
      var before, last := moves[..|moves| - 1], moves[|moves| - 1];
      StaysDoomed(id, s, before);
      CarefulRunIsKept(id, s, before);
      NextIsDoomed(id, From(id, s, before), last.0, last.1);
    }
  }

  /** Nobody bound, handed over, and paid by hand. */
  lemma SettlesByHand(id: SessionId, r: Reach, s: State) returns (t: State)
    requires ClosedUnder(id, r) && r.d == CAREFUL && s in r.states && s in Kept(id) && s.processes == map[]
    requires Unfinished(s.status) && !Stalled(s) && s.count + 1 !in s.attempts
    ensures t in r.states && t.status == Settled
  {
    var queued := ComesToClaim(id, r, s);
    var worked := Worked(id, queued);
    WorkedIs(id, s, queued);
    FindsNobody(id, r, worked, 0, worked.count);
    HandsOver(id, r, worked, 0);
    var parked := worked.(status := AwaitingManualPayout, paged := true);
    PaysByHand(id, r, parked, 0);
    t := At(PaidByHand(parked), 0, PostHandPayment);
  }

  lemma RestsDoomed(s: State)
    requires s.processes == map[] && s.count + 1 in s.attempts && s.status !in {Settled, Reversed}
    ensures s in Doomed()
  {
  }

  lemma DoomedIsUnpaid(s: State)
    requires s in Doomed()
    ensures s.status !in {Settled, Reversed}
  {
  }

  lemma DoomedForever(id: SessionId, s: State, t: State)
    requires s in Kept(id) && s in Doomed() && t in Reachable(id, CAREFUL, s)
    ensures t in Doomed()
  {
    var moves :| Obeys(id, CAREFUL, s, moves) && From(id, s, moves) == t;
    StaysDoomed(id, s, moves);
  }

  /**
   * An unfinished settlement can still be settled, by a provider or by hand, exactly when it is not stalled and its
   * next attempt was not inserted by a process that died before it counted it.
   */
  lemma SettlesIffNotInserted(id: SessionId, s: State)
    requires AtRest(id, s) && Unfinished(s.status)
    ensures (exists t | t in Reachable(id, CAREFUL, s) :: t.status == Settled)
            <==> !Stalled(s) && s.count + 1 !in s.attempts
  {
    RestIsKept(id, s);
    if Stalled(s) {
      forall t | t in Reachable(id, CAREFUL, s) ensures t.status != Settled {
        StalledForever(id, CAREFUL, s, t);
      }
    } else if s.count + 1 in s.attempts {
      RestsDoomed(s);
      forall t | t in Reachable(id, CAREFUL, s) ensures t.status != Settled {
        DoomedForever(id, s, t);
        DoomedIsUnpaid(t);
      }
    } else {
      var r := Reach(CAREFUL, Reachable(id, CAREFUL, s));
      ReachableIsClosed(id, CAREFUL, s);
      var t := SettlesByHand(id, r, s);
    }
  }

  // ----- where a process dies -----

  /** The process has read a row and changed none yet, or holds an answer that says rejected. */
  predicate OnlyLooks(pc: Pc) {
    pc.MarkFailed? || pc.MarkSucceeded? || pc.ToReversed?
  }

  /** What a process leaves when it dies in front of a statement. */
  predicate LeavesStalled(s: State, pc: Pc) {
    match pc
    case PostDeposit(_) => true
    case PostFx(_) => true
    case ToSettling(_) => true
    case PostClaim(_) => !s.paged
    case InsertAttempt(_) => !s.paged
    case ReadBack(_, _) => !s.paged
    case PostReversal(_, _, _) => !s.paged
    case GiveUp => !s.paged
    case ToSettled => true
    case _ => false
  }

  lemma StallsIffLeft(id: SessionId, s: State, pc: Pc)
    requires RowsFit(s) && Fits(s, pc) && Knows(id, s, pc) && !OnlyLooks(pc)
    ensures Stalled(s) <==> LeavesStalled(s, pc)
  {
  }

  /** Which of its statements a process may not die in front of. */
  lemma StallsIffDiesThere(id: SessionId, s: State, p: ProcessId)
    requires s in Reachable(id, CAREFUL, START) && p in s.processes && !OnlyLooks(s.processes[p])
    ensures Stalled(Ends(s, p)) <==> LeavesStalled(s, s.processes[p])
  {
    StartIsKept(id);
    ReachableIsKept(id, START, s);
    AloneThere(s, p);
    assert Knows(id, s, s.processes[p]);
    StallsIffLeft(id, s, s.processes[p]);
  }

  /** The first attempt is claimed and inserted, and its process died before it counted or sent it. */
  function InsertedOnly(id: SessionId): State {
    State(Settling, 0, false, map[1 := Dispatched], [DepositConfirmed(id), FxConversion(id), Payout(id, 1)], [], map[])
  }

  lemma InsertedOnlyIsReached(id: SessionId, r: Reach)
    requires ClosedUnder(id, r) && START in r.states
    ensures InsertedOnly(id) in r.states
  {
    Works(id, r, START, 0);
    var ready := START.(status := Settling, journal := [DepositConfirmed(id), FxConversion(id)]);
    assert Posts(Posts(START, DepositConfirmed(id)), FxConversion(id)).(status := Settling) == ready;
    var claimed := ready.(journal := ready.journal + [Payout(id, 1)]);
    Claims(id, r, ready, 0);
    Inserts(id, r, claimed, 0, 1);
    var inserted := claimed.(attempts := claimed.attempts[1 := Dispatched]);
    Continues(id, r, At(inserted, 0, BumpCount(1)), 0, Stop);
    Replaced(inserted, 0, BumpCount(1), BumpCount(1));
    assert inserted == InsertedOnly(id);
  }

  /** A death between the insert and the count leaves a row that moves on for ever and is never paid. */
  lemma InsertedOnlyIsNeverPaid(id: SessionId, t: State)
    requires t in Reachable(id, CAREFUL, InsertedOnly(id))
    ensures AtRest(id, InsertedOnly(id)) && !Stalled(InsertedOnly(id))
    ensures t.status != Settled && t.calls == []
  {
    ReachableIsClosed(id, CAREFUL, START);
    InsertedOnlyIsReached(id, Reach(CAREFUL, Reachable(id, CAREFUL, START)));
    var s := InsertedOnly(id);
    assert s.attempts[1] == Dispatched && s.journal[2] == Payout(id, 1);
    SettlesIffNotInserted(id, s);
    CalledAgainIffUnclaimed(id, s);
  }
}
