/** Which statement may change the status of a settlement, and from what, in every interleaving. */
module InterleavingStatus {
  import opened Settlement
  import opened Interleaving

  /** A retry on its way puts back only what had ended or was confirmed. */
  predicate Requeues(pc: Pc) {
    pc.Requeue? ==> pc.from in {SettlementFailed, AwaitingManualPayout, Settling}
  }

  ghost predicate AllRequeue(s: State) {
    forall p | p in s.processes :: Requeues(s.processes[p])
  }

  /** The statements of a worker and of a dispatch. */
  predicate Dispatches(pc: Pc) {
    pc.TakeRow? || pc.PostDeposit? || pc.PostFx? || pc.ToSettling? || pc.PostClaim? || pc.InsertAttempt?
    || pc.BumpCount? || pc.CallProvider? || pc.TakeUpReply?
  }

  /** The statements of a retry. */
  predicate Retries(pc: Pc) {
    pc.ConfirmFailed? || pc.PostConfirmed? || pc.Requeue?
  }

  lemma DispatchesRequeue(id: SessionId, s: State, p: ProcessId, chance: Chance)
    requires AllRequeue(s) && p in s.processes && Dispatches(s.processes[p])
    ensures AllRequeue(Executed(id, s, p, chance))
  {
  }

  lemma RetriesRequeue(id: SessionId, s: State, p: ProcessId, chance: Chance)
    requires AllRequeue(s) && p in s.processes && Retries(s.processes[p])
    ensures AllRequeue(Executed(id, s, p, chance))
  {
  }

  lemma OthersRequeue(id: SessionId, s: State, p: ProcessId, chance: Chance)
    requires AllRequeue(s) && p in s.processes && !Dispatches(s.processes[p]) && !Retries(s.processes[p])
    ensures AllRequeue(Executed(id, s, p, chance))
  {
  }

  lemma NextKeepsRequeues(id: SessionId, s: State, p: ProcessId, move: Move)
    requires AllRequeue(s)
    ensures AllRequeue(Next(id, s, p, move))
  {
    if move.Execute? && p in s.processes {
      if Dispatches(s.processes[p]) {
        DispatchesRequeue(id, s, p, move.chance);
      } else if Retries(s.processes[p]) {
        RetriesRequeue(id, s, p, move.chance);
      } else {
        OthersRequeue(id, s, p, move.chance);
      }
    }
  }

  lemma {:induction false} EveryRunRequeues(id: SessionId, moves: seq<(ProcessId, Move)>)
    ensures AllRequeue(AfterMoves(id, moves))
  {
    if moves != [] {
      var (p, move) := moves[|moves| - 1];
      EveryRunRequeues(id, moves[..|moves| - 1]);
      NextKeepsRequeues(id, AfterMoves(id, moves[..|moves| - 1]), p, move);
    }
  }

  /** How a status may follow another, statement by statement. */
  predicate Follows(from: Status, to: Status) {
    match to
    case PendingDispatch => from in {SettlementFailed, AwaitingManualPayout, Settling}
    case Dispatching => true
    case Settling => from == Dispatching
    case Settled => from in {Settling, AwaitingManualPayout}
    case SettlementFailed => from == Settling
    case AwaitingManualPayout => from == Settling
    case Reversed => from == Settled
    case ReversalResolved => false
  }

  /** The statements that may write the status. */
  predicate Writes(pc: Pc) {
    pc.TakeRow? || pc.ToSettling? || pc.GiveUp? || pc.ToSettled? || pc.ToReversed? || pc.Requeue?
    || pc.RecordHandPayment?
  }

  lemma OthersDoNotWrite(id: SessionId, s: State, p: ProcessId, chance: Chance)
    requires p in s.processes && !Writes(s.processes[p])
    ensures Executed(id, s, p, chance).status == s.status
  {
  }

  lemma WritersFollow(id: SessionId, s: State, p: ProcessId, chance: Chance)
    requires p in s.processes && Writes(s.processes[p]) && Requeues(s.processes[p])
    ensures var to := Executed(id, s, p, chance).status;
            to == s.status || (Follows(s.status, to) && (to == Dispatching <==> s.processes[p].TakeRow?))
  {
  }

  lemma OnlyStatementsWrite(id: SessionId, s: State, p: ProcessId, move: Move)
    requires !move.Execute? || p !in s.processes
    ensures Next(id, s, p, move).status == s.status
  {
  }

  /**
   * However processes interleave and die, and whatever stale values they hold, a statement changes the status only from
   * where it may: nothing is settled or given up but a settling or parked row, nothing reversed but a settled one,
   * nothing queued that is queued or worked on. The worker that takes a row is the one exception: it takes what it has
   * selected.
   */
  lemma StatusOnlyFollows(id: SessionId, moves: seq<(ProcessId, Move)>, p: ProcessId, move: Move)
    ensures var s := AfterMoves(id, moves);
            var to := Next(id, s, p, move).status;
            to != s.status ==>
              && Follows(s.status, to) && p in s.processes
              && (to == Dispatching <==> s.processes[p].TakeRow?)
  {
    var s := AfterMoves(id, moves);
    EveryRunRequeues(id, moves);
    if move.Execute? && p in s.processes {
      assert Requeues(s.processes[p]);
      if Writes(s.processes[p]) {
        WritersFollow(id, s, p, move.chance);
      } else {
        OthersDoNotWrite(id, s, p, move.chance);
      }
    } else {
      OnlyStatementsWrite(id, s, p, move);
    }
  }

  // ----- paging -----

  ghost predicate SomeDispatched(s: State) {
    exists n :: n in s.attempts && s.attempts[n] == Dispatched
  }

  /** The moves that page ops: the two sweeps over open attempts, an uncertain answer, and giving up. */
  ghost predicate Pages(s: State, p: ProcessId, move: Move) {
    match move
    case TimeoutPage => s.status == Settling && SomeDispatched(s)
    case DeclinePage(n) => n in s.attempts && s.attempts[n] == Dispatched
    case Execute(_) =>
      && p in s.processes && s.status == Settling
      && (s.processes[p].GiveUp? || (s.processes[p].TakeUpReply? && s.processes[p].reply == Uncertain))
    case _ => false
  }

  lemma ExecutedPages(id: SessionId, s: State, p: ProcessId, chance: Chance)
    requires p in s.processes
    ensures var next := Executed(id, s, p, chance);
            next.paged == if Pages(s, p, Execute(chance)) then true
                          else if s.processes[p].Requeue? && s.status == s.processes[p].from then false else s.paged
  {
  }

  /** Ops are paged by exactly these moves, and a page is taken back by exactly the retry that queues the row again. */
  lemma PagedExactlyBy(id: SessionId, s: State, p: ProcessId, move: Move)
    ensures var requeues := move.Execute? && p in s.processes && s.processes[p].Requeue?
                            && s.status == s.processes[p].from;
            Next(id, s, p, move).paged == (Pages(s, p, move) || (s.paged && !requeues))
  {
    if move.Execute? && p in s.processes {
      ExecutedPages(id, s, p, move.chance);
    }
  }
}
