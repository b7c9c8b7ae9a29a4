/**
 * Whole runs of the session machine: what is announced once, what is never left, and what a dispatched deposit does.
 */
module SessionRuns {
  import opened Common
  import Deposits
  import opened Sessions

  /** Exactly-once hand-off: one confirmation is published and one settlement row inserted per session, at most. */
  lemma HandedOffOnce(run: seq<World>, k: nat, id: SessionId)
    requires run in Runs() && k < |run|
    ensures var w := run[k];
            && Times(w.outbox, Confirmed(id)) <= 1
            && (forall i, j | 0 <= i < j < |w.settlements| :: w.settlements[i] != w.settlements[j])
            && (id in w.settlements <==> Delivered(w.outbox, Confirmed(id)))
            && (Times(w.outbox, Confirmed(id)) == 1 <==> id in w.sessions && Past(w.sessions[id].status))
  {
    EveryRunIsSane(run, k);
    assert Told(run[k], id) && HandedOff(run[k], id);
  }

  /** Only sessions whose deposit was confirmed are ever settled. */
  lemma SettlementMeansConfirmed(run: seq<World>, k: nat, id: SessionId)
    requires run in Runs() && k < |run| && id in run[k].settlements
    ensures id in run[k].sessions && Past(run[k].sessions[id].status)
  {
    var w := run[k];
    HandedOffOnce(run, k, id);
    var i :| 0 <= i < |w.outbox| && w.outbox[i] == Entry(Confirmed(id), true);
    PublishedCounts(w.outbox, i);
  }

  /**
   * From pending on a session has its lock and its reservation, and shares the latter with no other; a hold has its
   * case.
   */
  lemma SessionInvariants(run: seq<World>, k: nat, id: SessionId)
    requires run in Runs() && k < |run| && id in run[k].sessions
    ensures var w := run[k];
            var s := w.sessions[id];
            && (s.status in {Pending, DepositDetected} || Past(s.status) ==> s.lock.Some? && s.reservation.Some?)
            && (s.status == ComplianceHold ==> s.complianceCase.Some?)
            && (s.reservation.Some? ==>
                forall other | other in w.sessions && w.sessions[other].reservation == s.reservation :: other == id)
            && Times(w.outbox, Breached(id)) == (if s.breached then 1 else 0)
  {
    EveryRunIsSane(run, k);
    assert Told(run[k], id);
  }

  predicate Allowed(from: Status, to: Status) {
    || from == to
    || SettlementMove(from, to)
    || match from
       case Screening => to == ComplianceHold || to == Rejected || to == Pending || to == Expired
       case ComplianceHold => to == Rejected || to == Pending || to == Expired
       case Pending => to == Expired || to == DepositDetected || to == DepositConfirmed
       case DepositDetected => to == DepositConfirmed
       case _ => false
  }

  /** One step moves a session along the diagram, and keeps its lock, reservation and breach once they are set. */
  ghost predicate RowMoves(s: Session, s': Session) {
    && Allowed(s.status, s'.status)
    && (s.reservation.Some? ==> s'.reservation == s.reservation && s'.lock == s.lock)
    && (s.breached ==> s'.breached)
  }

  lemma HandledMoves(w: World, m: Message, id: SessionId)
    requires id in w.sessions
    ensures id in Handled(w, m).sessions && RowMoves(w.sessions[id], Handled(w, m).sessions[id])
  {
    if m.DepositReported? && Movable(w, m.reservation, m.status) != {} {
      var moved :| moved in Movable(w, m.reservation, m.status) && Handled(w, m) == Moved(w, moved, m.status);
    }
  }

  /** The worlds in which a session's row has moved along the diagram, or has stayed. */
  ghost function Followers(w: World, id: SessionId): iset<World>
    requires id in w.sessions
  {
    iset w': World | id in w'.sessions && RowMoves(w.sessions[id], w'.sessions[id])
  }

  lemma ExpiryFollows(w: World, due: set<SessionId>, from: set<Status>, id: SessionId)
    requires id in w.sessions && from <= {Screening, Pending, ComplianceHold}
    ensures ExpiredAll(w, due, from) in Followers(w, id)
  {
  }

  lemma MarkingFollows(w: World, due: set<SessionId>, rows: seq<SessionId>, id: SessionId)
    requires id in w.sessions
    ensures Do(w, MarkBreaches(due, rows)) in Followers(w, id)
  {
  }

  lemma MakingFollows(w: World, made: SessionId, from: Status, lock: string, r: ReservationId, id: SessionId)
    requires id in w.sessions && Shaped(w.sessions[id])
    ensures MadePending(w, made, from, lock, r) in Followers(w, id)
  {
  }

  lemma DispatchFollows(w: World, i: nat, fails: bool, id: SessionId)
    requires id in w.sessions
    ensures DispatchedOne(w, i, fails) in Followers(w, id)
  {
    if i < |w.outbox| {
      HandledMoves(w, w.outbox[i].message, id);
    }
  }

  /** The steps that change one row at most, and its status alone. */
  lemma SingleFollows(w: World, step: Step, id: SessionId)
    requires id in w.sessions
    requires step.Insert? || step.Hold? || step.Reject? || step.CloseCase? || step.Reserve? || step.Report?
             || step.Settlement?
    ensures Do(w, step) in Followers(w, id)
  {
    match step
    case Insert(_) =>
    case Hold(_, _) =>
    case Reject(_, _) =>
    case CloseCase(_) =>
    case Reserve(_) =>
    case Report(_) =>
    case Settlement(_, _, _) =>
  }

  lemma StepFollows(w: World, step: Step, id: SessionId)
    requires id in w.sessions && Shaped(w.sessions[id])
    ensures Do(w, step) in Followers(w, id)
  {
    match step
    case Dispatch(i, fails) => DispatchFollows(w, i, fails, id);
    case MakePending(made, from, lock, r) => MakingFollows(w, made, from, lock, r, id);
    case MarkBreaches(due, rows) => MarkingFollows(w, due, rows, id);
    case ExpirePreDeposit(due) => ExpiryFollows(w, due, {Screening, Pending}, id);
    case ExpireHolds(due) => ExpiryFollows(w, due, {ComplianceHold}, id);
    case Insert(_) => SingleFollows(w, step, id);
    case Hold(_, _) => SingleFollows(w, step, id);
    case Reject(_, _) => SingleFollows(w, step, id);
    case CloseCase(_) => SingleFollows(w, step, id);
    case Reserve(_) => SingleFollows(w, step, id);
    case Report(_) => SingleFollows(w, step, id);
    case Settlement(_, _, _) => SingleFollows(w, step, id);
  }

  lemma StepMoves(w: World, step: Step, id: SessionId)
    requires w in Sane() && id in w.sessions
    ensures id in Do(w, step).sessions && RowMoves(w.sessions[id], Do(w, step).sessions[id])
  {
    StepFollows(w, step, id);
    assert Do(w, step) in Followers(w, id);
  }

  ghost predicate WorldMoves(w: World, w': World) {
    forall id | id in w.sessions :: id in w'.sessions && RowMoves(w.sessions[id], w'.sessions[id])
  }

  lemma SuccessorMoves(w: World, w': World)
    requires w in Sane() && Succeeds(w, w')
    ensures WorldMoves(w, w')
  {
    var step :| w' == Do(w, step);
    forall id | id in w.sessions ensures id in w'.sessions && RowMoves(w.sessions[id], w'.sessions[id]) {
      StepMoves(w, step, id);
    }
  }

  /** Every step of a run moves every session along the diagram. */
  ghost predicate RowsMove(run: seq<World>) {
    forall k | 0 < k < |run| :: WorldMoves(run[k - 1], run[k])
  }

  lemma EveryRunMovesRows(run: seq<World>)
    requires run in Runs()
    ensures RowsMove(run)
  {
    forall k | 0 < k < |run| ensures WorldMoves(run[k - 1], run[k]) {
      EveryRunIsSane(run, k - 1);
      SuccessorMoves(run[k - 1], run[k]);
    }
  }

  lemma {:induction false} Stays(run: seq<World>, j: nat, k: nat, id: SessionId)
    requires RowsMove(run) && j <= k < |run| && id in run[j].sessions
    ensures id in run[k].sessions
    ensures run[j].sessions[id].status in {Expired, Rejected} ==>
            run[k].sessions[id].status == run[j].sessions[id].status
    ensures Past(run[j].sessions[id].status) ==> Past(run[k].sessions[id].status)
  {
    if j < k {
      Stays(run, j, k - 1, id);
      assert RowMoves(run[k - 1].sessions[id], run[k].sessions[id]);
    }
  }

  /** Expired and rejected are never left, and confirmed or later is never taken back, whatever happens afterwards. */
  lemma ExpiredRejectedAndConfirmedAreFinal(run: seq<World>, j: nat, k: nat, id: SessionId)
    requires run in Runs() && j <= k < |run| && id in run[j].sessions
    ensures id in run[k].sessions
    ensures run[j].sessions[id].status in {Expired, Rejected} ==>
            run[k].sessions[id].status == run[j].sessions[id].status
    ensures Past(run[j].sessions[id].status) ==> Past(run[k].sessions[id].status)
  {
    EveryRunMovesRows(run);
    Stays(run, j, k, id);
  }

  /** A session only expires before any deposit was seen. */
  lemma ExpiresOnlyBeforeDeposit(run: seq<World>, k: nat, id: SessionId)
    requires run in Runs() && 0 < k < |run| && id in run[k - 1].sessions && id in run[k].sessions
    requires run[k - 1].sessions[id].status != Expired == run[k].sessions[id].status
    ensures run[k - 1].sessions[id].status in {Screening, Pending, ComplianceHold}
  {
    EveryRunMovesRows(run);
    assert RowMoves(run[k - 1].sessions[id], run[k].sessions[id]);
  }

  // ----- a dispatched confirmation -----

  lemma OneMovable(w: World, reservation: ReservationId, status: Deposits.DepositStatus, id: SessionId)
    requires w in Sane() && id in Movable(w, reservation, status)
    ensures Movable(w, reservation, status) == {id}
  {
  }

  /** The i-th event, not dispatched yet, confirms the deposit of a session that waits for it. */
  predicate Awaited(w: World, i: nat, id: SessionId) {
    && i < |w.outbox| && !w.outbox[i].dispatched && id in w.sessions && w.sessions[id].reservation.Some?
    && w.outbox[i].message == DepositReported(w.sessions[id].reservation.value, Deposits.Confirmed)
    && w.sessions[id].status in {Pending, DepositDetected}
  }

  lemma DispatchConfirms(w: World, i: nat, id: SessionId)
    requires w in Sane() && Awaited(w, i, id)
    ensures id in DispatchedOne(w, i, false).sessions
            && DispatchedOne(w, i, false).sessions[id].status == DepositConfirmed
  {
    OneMovable(w, w.sessions[id].reservation.value, Deposits.Confirmed, id);
  }

  ghost predicate ConfirmationDispatched(w: World, w': World, id: SessionId) {
    exists i: nat :: Awaited(w, i, id) && w' == DispatchedOne(w, i, false)
  }

  /** The worlds after an awaited confirmation of the session's deposit was dispatched. */
  ghost function Confirmations(w: World, id: SessionId): iset<World> {
    iset w': World | ConfirmationDispatched(w, w', id)
  }

  lemma ConfirmationMoves(w: World, w': World, id: SessionId)
    requires w in Sane() && w' in Confirmations(w, id)
    ensures id in w'.sessions && w'.sessions[id].status == DepositConfirmed
  {
    var i: nat :| Awaited(w, i, id) && w' == DispatchedOne(w, i, false);
    DispatchConfirms(w, i, id);
  }

  lemma ConfirmedStays(run: seq<World>, j: nat, id: SessionId, k: nat)
    requires RowsMove(run) && j <= k < |run| && id in run[j].sessions && run[j].sessions[id].status == DepositConfirmed
    ensures id in run[k].sessions && Past(run[k].sessions[id].status)
  {
    Stays(run, j, k, id);
  }

  /**
   * Once a confirmed deposit is dispatched while its session is pending or detected, the session is confirmed or later
   * ever after, whether or not a detection came first.
   */
  lemma DispatchedConfirmationConfirms(run: seq<World>, j: nat, id: SessionId, k: nat)
    requires run in Runs() && j < k < |run| && run[j + 1] in Confirmations(run[j], id)
    ensures id in run[k].sessions && Past(run[k].sessions[id].status)
  {
    EveryRunIsSane(run, j);
    ConfirmationMoves(run[j], run[j + 1], id);
    EveryRunMovesRows(run);
    ConfirmedStays(run, j + 1, id, k);
  }

  /** No session waits for a deposit whose confirmation was dispatched already. */
  ghost predicate Caught(w: World) {
    forall id | id in w.sessions && w.sessions[id].reservation.Some?
                && Delivered(w.outbox, DepositReported(w.sessions[id].reservation.value, Deposits.Confirmed)) ::
      w.sessions[id].status !in {Pending, DepositDetected}
  }

  /** Everything but a dispatch leaves the set of delivered messages alone. */
  lemma DeliveredKept(w: World, step: Step, m: Message)
    requires !step.Dispatch?
    ensures Delivered(Do(w, step).outbox, m) <==> Delivered(w.outbox, m)
  {
    match step
    case MakePending(id, from, lock, r) => TimesPublished(w.outbox, Created(id));
    case Report(r) => TimesPublished(w.outbox, DepositReported(r.key.reservation, r.status));
    case MarkBreaches(due, rows) => if Lists(rows, Breaching(w, due)) { TimesEach(w.outbox, rows, m); }
    case Insert(_) =>
    case Hold(_, _) =>
    case Reject(_, _) =>
    case CloseCase(_) =>
    case Reserve(_) =>
    case ExpirePreDeposit(_) =>
    case ExpireHolds(_) =>
    case Settlement(_, _, _) =>
  }

  /** A step that makes a session pending, with the reservation it was given. */
  predicate Makes(w: World, step: Step) {
    step.MakePending? && MadePending(w, step.id, step.from, step.lock, step.reservation) != w
  }

  lemma MakesPending(w: World, step: Step)
    requires Makes(w, step)
    ensures step.id in w.sessions && Do(w, step).sessions[step.id].status == Pending
    ensures Do(w, step).sessions[step.id].reservation == Some(step.reservation)
  {
  }

  /** A session gets its reservation when it is made pending, and in no other way. */
  lemma ReservedByMaking(w: World, step: Step, id: SessionId)
    requires !step.Dispatch? && id in Do(w, step).sessions && Do(w, step).sessions[id].reservation.Some?
    requires !(Makes(w, step) && id == step.id)
    ensures id in w.sessions && w.sessions[id].reservation == Do(w, step).sessions[id].reservation
  {
    match step
    case MakePending(_, _, _, _) =>
    case MarkBreaches(_, _) =>
    case Insert(_) =>
    case Hold(_, _) =>
    case Reject(_, _) =>
    case CloseCase(_) =>
    case Reserve(_) =>
    case Report(_) =>
    case ExpirePreDeposit(_) =>
    case ExpireHolds(_) =>
    case Settlement(_, _, _) =>
  }

  lemma WaitingIsKept(s: Session, s': Session)
    requires Shaped(s) && s.reservation.Some? && RowMoves(s, s') && s.status !in {Pending, DepositDetected}
    ensures s'.status !in {Pending, DepositDetected}
  {
  }

  lemma OthersStayCaught(w: World, step: Step, id: SessionId)
    requires w in Sane() && Caught(w) && !step.Dispatch? && id in Do(w, step).sessions
    requires !(Makes(w, step) && id == step.id)
    requires var s := Do(w, step).sessions[id];
             s.reservation.Some? && Delivered(w.outbox, DepositReported(s.reservation.value, Deposits.Confirmed))
    ensures Do(w, step).sessions[id].status !in {Pending, DepositDetected}
  {
    ReservedByMaking(w, step, id);
    StepMoves(w, step, id);
    assert Shaped(w.sessions[id]);
    WaitingIsKept(w.sessions[id], Do(w, step).sessions[id]);
  }

  /**
   * A confirmation is overlooked in exactly one way: the session becomes pending with a reservation whose confirmed
   * deposit was dispatched before.
   */
  lemma OverlookedIffDispatchedBeforePending(w: World, step: Step)
    requires w in Sane() && Caught(w) && !step.Dispatch?
    ensures Caught(Do(w, step)) <==>
            !(Makes(w, step) && Delivered(w.outbox, DepositReported(step.reservation, Deposits.Confirmed)))
  {
    var after := Do(w, step);
    forall m ensures Delivered(after.outbox, m) <==> Delivered(w.outbox, m) {
      DeliveredKept(w, step, m);
    }
    if Makes(w, step) {
      MakesPending(w, step);
    }
    forall id | id in after.sessions && after.sessions[id].reservation.Some?
                && Delivered(w.outbox, DepositReported(after.sessions[id].reservation.value, Deposits.Confirmed))
                && !(Makes(w, step) && id == step.id)
      ensures after.sessions[id].status !in {Pending, DepositDetected}
    {
      OthersStayCaught(w, step, id);
    }
  }

  lemma MovedDelivers(w: World, id: SessionId, status: Deposits.DepositStatus, m: Message)
    requires id in w.sessions
    ensures Delivered(Moved(w, id, status).outbox, m) <==> Delivered(w.outbox, m)
  {
    TimesPublished(w.outbox, Confirmed(id));
    TimesPublished(w.outbox, Detected(id));
  }

  /** Handlers publish, but deliver nothing themselves. */
  lemma HandledDelivers(w: World, message: Message, m: Message)
    ensures Delivered(Handled(w, message).outbox, m) <==> Delivered(w.outbox, m)
  {
    if message.DepositReported? && Movable(w, message.reservation, message.status) != {} {
      var id :| id in Movable(w, message.reservation, message.status)
          && Handled(w, message) == Moved(w, id, message.status);
      MovedDelivers(w, id, message.status, m);
    }
  }

  /** What a dispatch has delivered afterwards. */
  lemma DispatchDelivers(w: World, i: nat, m: Message)
    requires i < |w.outbox| && !w.outbox[i].dispatched
    ensures Delivered(DispatchedOne(w, i, false).outbox, m) <==> Delivered(w.outbox, m) || w.outbox[i].message == m
  {
    var message := w.outbox[i].message;
    HandledDelivers(w, message, m);
    assert Handled(w, message).outbox[i] == w.outbox[i];
    DeliveredMarked(Handled(w, message).outbox, i, m);
  }

  /** A dispatch overlooks nothing: it moves the session it is about. */
  lemma DispatchStaysCaught(w: World, i: nat, fails: bool)
    requires w in Sane() && Caught(w)
    ensures Caught(DispatchedOne(w, i, fails))
  {
    var after := DispatchedOne(w, i, fails);
    if i < |w.outbox| && !w.outbox[i].dispatched && !fails {
      var m := w.outbox[i].message;
      forall id | id in after.sessions && after.sessions[id].reservation.Some?
                  && Delivered(after.outbox, DepositReported(after.sessions[id].reservation.value, Deposits.Confirmed))
        ensures after.sessions[id].status !in {Pending, DepositDetected}
      {
        DispatchDelivers(w, i, DepositReported(after.sessions[id].reservation.value, Deposits.Confirmed));
        DispatchMovesOwn(w, m, id);
      }
    }
  }

  /**
   * After its own confirmation is handled a session does not wait any more, and another's event leaves it as it was.
   */
  lemma DispatchMovesOwn(w: World, m: Message, id: SessionId)
    requires w in Sane() && id in Handled(w, m).sessions && w.sessions.Keys == Handled(w, m).sessions.Keys
    requires Handled(w, m).sessions[id].reservation.Some?
    ensures Handled(w, m).sessions[id].reservation == w.sessions[id].reservation
    ensures m == DepositReported(w.sessions[id].reservation.value, Deposits.Confirmed)
            ==> Handled(w, m).sessions[id].status !in {Pending, DepositDetected}
    ensures Handled(w, m).sessions[id].status in {Pending, DepositDetected} ==>
            w.sessions[id].status in {Pending, DepositDetected}
  {
    if m.DepositReported? {
      if Movable(w, m.reservation, m.status) != {} {
        var moved :| moved in Movable(w, m.reservation, m.status) && Handled(w, m) == Moved(w, moved, m.status);
        OneMovable(w, m.reservation, m.status, moved);
        assert id in Movable(w, m.reservation, m.status) <==> id == moved;
      } else {
        assert id !in Movable(w, m.reservation, m.status);
      }
    }
  }

  // ----- a deposit that comes too early -----

  function EarlyReport(): Deposits.Report {
    Deposits.Report(Deposits.DepositKey("r", "tx"), Deposits.Confirmed, 1.0)
  }

  function Screened(): World {
    World(map["s" := Session(Screening, None, None, None, false)], map[], {"r"}, [], [], {})
  }

  function EarlyReported(): World {
    Screened().(deposits := map[EarlyReport().key := Deposits.Deposit(Deposits.Confirmed, 1.0)],
                outbox := [Entry(DepositReported("r", Deposits.Confirmed), false)])
  }

  function EarlyDispatched(): World {
    EarlyReported().(outbox := [Entry(DepositReported("r", Deposits.Confirmed), true)])
  }

  function PendingTooLate(): World {
    EarlyDispatched().(sessions := map["s" := Session(Pending, None, Some("l"), Some("r"), false)],
                       outbox := [Entry(DepositReported("r", Deposits.Confirmed), true), Entry(Created("s"), false)])
  }

  lemma EarlySteps()
    ensures Do(EMPTY_WORLD, Insert("s")) == Screened().(known := {})
    ensures Do(Screened().(known := {}), Reserve("r")) == Screened()
    ensures Do(Screened(), Report(EarlyReport())) == EarlyReported()
  {
  }

  lemma EarlyDispatchStep()
    ensures Do(EarlyReported(), Dispatch(0, false)) == EarlyDispatched()
  {
    assert Movable(EarlyReported(), "r", Deposits.Confirmed) == {};
  }

  lemma EarlyPendingStep()
    ensures Do(EarlyDispatched(), MakePending("s", Screening, "l", "r")) == PendingTooLate()
  {
    assert [Entry(DepositReported("r", Deposits.Confirmed), true)] + [Entry(Created("s"), false)]
           == [Entry(DepositReported("r", Deposits.Confirmed), true), Entry(Created("s"), false)];
  }

  lemma LongerRun(run: seq<World>, step: Step)
    requires run in Runs()
    ensures run + [Do(run[|run| - 1], step)] in Runs()
  {
    var longer := run + [Do(run[|run| - 1], step)];
    forall k | 0 < k < |longer| ensures Succeeds(longer[k - 1], longer[k]) {
      if k < |run| {
        assert longer[k - 1] == run[k - 1] && longer[k] == run[k];
      }
    }
  }

  lemma ScreenedRun()
    ensures [EMPTY_WORLD, Screened().(known := {}), Screened()] in Runs()
  {
    EarlySteps();
    assert [EMPTY_WORLD] in Runs();
    LongerRun([EMPTY_WORLD], Insert("s"));
    LongerRun([EMPTY_WORLD] + [Screened().(known := {})], Reserve("r"));
    assert [EMPTY_WORLD] + [Screened().(known := {})] + [Screened()]
           == [EMPTY_WORLD, Screened().(known := {}), Screened()];
  }

  lemma EarlyRunIsARun()
    ensures [EMPTY_WORLD, Screened().(known := {}), Screened(), EarlyReported(), EarlyDispatched(), PendingTooLate()]
            in Runs()
  {
    var run := [EMPTY_WORLD, Screened().(known := {}), Screened()];
    EarlySteps();
    EarlyDispatchStep();
    EarlyPendingStep();
    ScreenedRun();
    LongerRun(run, Report(EarlyReport()));
    LongerRun(run + [EarlyReported()], Dispatch(0, false));
    LongerRun(run + [EarlyReported()] + [EarlyDispatched()], MakePending("s", Screening, "l", "r"));
    assert run + [EarlyReported()] + [EarlyDispatched()] + [PendingTooLate()]
           == [EMPTY_WORLD, Screened().(known := {}), Screened(), EarlyReported(), EarlyDispatched(), PendingTooLate()];
  }

  /** The way of being overlooked is real: such a run leaves a session pending on a confirmed deposit. */
  lemma EarlyDepositIsOverlooked()
    ensures exists run | run in Runs() :: run[|run| - 1] == PendingTooLate()
    ensures PendingTooLate().sessions["s"].status == Pending
    ensures Deposits.Total(PendingTooLate().deposits, "r") == 1.0
  {
    EarlyRunIsARun();
    assert Deposits.ConfirmedKeys(PendingTooLate().deposits, "r") == {} + {EarlyReport().key};
    Deposits.SetSumAdd({}, EarlyReport().key, Deposits.AmountIn(PendingTooLate().deposits));
  }
}
