/** The session store, its TTL job and the event dispatcher, as methods over the tables of the session machine. */
module SessionStore {
  import opened Common
  import Deposits
  import opened Sessions
  import SessionRuns

  datatype Decision = Approve | HoldFor(complianceCase: string) | Refuse

  /** Where a request can fail before or after its row is inserted. */
  datatype Checks = Checks(supported: bool, destinationValid: bool, entitled: bool, screened: bool, locked: bool)

  datatype Outcome =
    | Made | CorridorNotSupported | InvalidDestination | NotEntitled | ScreeningFailed | LockFailed
    | NotInHold | CaseAlreadyResolved | Conflict

  /** The oldest event that was not dispatched, or the length of the outbox. */
  function Oldest(outbox: seq<Entry>): (i: nat)
    ensures i <= |outbox| && (i < |outbox| ==> !outbox[i].dispatched)
    ensures forall j | 0 <= j < i :: outbox[j].dispatched
  {
    if outbox == [] then 0
    else
      var i := Oldest(outbox[..|outbox| - 1]);
      if i < |outbox| - 1 then i else if outbox[|outbox| - 1].dispatched then |outbox| else |outbox| - 1
  }

  lemma OldestIs(outbox: seq<Entry>, i: nat)
    requires i <= |outbox| && (i < |outbox| ==> !outbox[i].dispatched)
    requires forall j | 0 <= j < i :: outbox[j].dispatched
    ensures Oldest(outbox) == i
  {
  }

  /** A batch: the oldest event, one transaction each, until the batch is full, nothing is left, or a handler fails. */
  ghost function Batch(w: World, size: nat, failing: set<nat>): World
    decreases size
  {
    var i := Oldest(w.outbox);
    if size == 0 || i == |w.outbox| || i in failing then w else Batch(DispatchedOne(w, i, false), size - 1, failing)
  }

  /** The one result of a batch, as a set, so that only its unfolding is looked at. */
  ghost function Results(w: World, size: nat, failing: set<nat>): iset<World> {
    iset{Batch(w, size, failing)}
  }

  lemma ResultOf(w: World, size: nat, failing: set<nat>) returns (end: World)
    ensures end in Results(w, size, failing)
  {
    end := Batch(w, size, failing);
  }

  lemma ResultsUnfold(w: World, size: nat, failing: set<nat>, after: World, end: World)
    requires size > 0 && after == DispatchedOne(w, Oldest(w.outbox), Oldest(w.outbox) in failing)
    requires end in Results(w, size, failing)
    ensures if Oldest(w.outbox) < |w.outbox| && Oldest(w.outbox) !in failing
            then end in Results(after, size - 1, failing) else end == after
  {
  }

  lemma ResultsEnd(w: World, failing: set<nat>, end: World)
    requires end in Results(w, 0, failing)
    ensures end == w
  {
  }

  /** A failing handler stops the batch: while the oldest event fails, nothing behind it is dispatched either. */
  lemma FailingEventBlocksTheRest(w: World, size: nat, failing: set<nat>)
    requires Oldest(w.outbox) in failing
    ensures Batch(w, size, failing) == w
  {
  }

  lemma {:induction false} BatchKeepsSane(w: World, size: nat, failing: set<nat>)
    requires w in Sane()
    ensures Batch(w, size, failing) in Sane()
    decreases size
  {
    if size > 0 {
      DispatchKeepsSane(w, Oldest(w.outbox), false);
      BatchKeepsSane(DispatchedOne(w, Oldest(w.outbox), false), size - 1, failing);
    }
  }

  /** What a request for a new session leaves, run to its end. */
  function Requested(w: World, id: SessionId, checks: Checks, decision: Decision, lock: string,
                     reservation: ReservationId): World {
    if !checks.supported || !checks.destinationValid || !checks.entitled then w
    else
      var inserted := Inserted(w, id);
      if !checks.screened then inserted
      else
        match decision
        case HoldFor(c) => Held(inserted, id, c)
        case Refuse => Cas(inserted, id, Screening, Rejected)
        case Approve => if checks.locked then Reserved(inserted, id, Screening, lock, reservation) else inserted
  }

  /** The deposit instructions make a reservation, which the pending transition takes. */
  function Reserved(w: World, id: SessionId, from: Status, lock: string, reservation: ReservationId): World {
    MadePending(w.(known := w.known + {reservation}), id, from, lock, reservation)
  }

  /** A hold whose case can still be resolved. */
  predicate OpenHold(w: World, id: SessionId) {
    && id in w.sessions && w.sessions[id].status == ComplianceHold && w.sessions[id].complianceCase.Some?
    && w.sessions[id].complianceCase.value !in w.closed
  }

  /** What an analyst's decision leaves. */
  function Resolved(w: World, id: SessionId, approved: bool, locked: bool, lock: string,
                    reservation: ReservationId): World {
    if !OpenHold(w, id) then w
    else
      var decided := w.(closed := w.closed + {w.sessions[id].complianceCase.value});
      if !approved then Cas(decided, id, ComplianceHold, Rejected)
      else if locked then Reserved(decided, id, ComplianceHold, lock, reservation) else decided
  }

  function Resolution(w: World, id: SessionId, approved: bool, locked: bool): Outcome {
    if id !in w.sessions || w.sessions[id].status != ComplianceHold || w.sessions[id].complianceCase == None
        then NotInHold
    else if w.sessions[id].complianceCase.value in w.closed then CaseAlreadyResolved
    else if approved && !locked then LockFailed else Made
  }

  lemma ReservedKeepsSane(w: World, id: SessionId, from: Status, lock: string, reservation: ReservationId)
    requires w in Sane() && from in {Screening, ComplianceHold}
    ensures Reserved(w, id, from, lock, reservation) in Sane()
  {
    ReserveKeepsSane(w, reservation);
    DoKeepsSane(w.(known := w.known + {reservation}), MakePending(id, from, lock, reservation));
  }

  class Store {
    var sessions: map<SessionId, Session>
    var deposits: Deposits.Table
    var known: set<ReservationId>
    var outbox: seq<Entry>
    var settlements: seq<SessionId>
    var closed: set<string>

    ghost function Tables(): World
      reads this
    {
      World(sessions, deposits, known, outbox, settlements, closed)
    }

    ghost predicate Valid()
      reads this
    {
      Tables() in Sane()
    }

    constructor ()
      ensures Valid() && Tables() == EMPTY_WORLD
    {
      sessions, deposits, known, outbox, settlements, closed := map[], map[], {}, [], [], {};
      new;
      forall id ensures Told(EMPTY_WORLD, id) && HandedOff(EMPTY_WORLD, id) {}
    }

    /** Publish runs in the caller's transaction. */
    method Publish(m: Message)
      modifies this`outbox
      ensures outbox == Published(old(outbox), m)
    {
      outbox := outbox + [Entry(m, false)];
    }

    /** A compare-and-set on the status. */
    method CasTransition(id: SessionId, from: Status, to: Status) returns (ok: bool)
      requires Valid() && (SettlementMove(from, to) || (from in {Screening, ComplianceHold} && to == Rejected))
      modifies this`sessions
      ensures Valid()
      ensures Tables() == Cas(old(Tables()), id, from, to)
      ensures ok == (id in old(sessions) && old(sessions)[id].status == from)
    {
      CasKeepsSane(Tables(), id, from, to);
      ok := id in sessions && sessions[id].status == from;
      if ok {
        sessions := sessions[id := sessions[id].(status := to)];
      }
    }

    /** The reservation is fresh, so the transition is refused by the status alone. */
    method TransitionToPending(id: SessionId, from: Status, lock: string, reservation: ReservationId) returns (ok: bool)
      requires Valid() && from in {Screening, ComplianceHold} && Unused(Tables(), reservation)
      modifies this
      ensures Valid()
      ensures Tables() == Reserved(old(Tables()), id, from, lock, reservation)
      ensures ok == (id in old(sessions) && old(sessions)[id].status == from)
    {
      ReservedKeepsSane(Tables(), id, from, lock, reservation);
      known := known + {reservation};
      ok := id in sessions && sessions[id].status == from;
      if ok {
        sessions := sessions[id := sessions[id].(status := Pending, lock := Some(lock),
                                                 reservation := Some(reservation))];
        Publish(Created(id));
      }
    }

    method TransitionToHold(id: SessionId, complianceCase: string) returns (ok: bool)
      requires Valid()
      modifies this`sessions
      ensures Valid()
      ensures Tables() == Held(old(Tables()), id, complianceCase)
      ensures ok == (id in old(sessions) && old(sessions)[id].status == Screening)
    {
      DoKeepsSane(Tables(), Hold(id, complianceCase));
      ok := id in sessions && sessions[id].status == Screening;
      if ok {
        sessions := sessions[id := sessions[id].(status := ComplianceHold, complianceCase := Some(complianceCase))];
      }
    }

    /** The id is freshly generated by the insert. */
    method CreateSession(id: SessionId, checks: Checks, decision: Decision, lock: string, reservation: ReservationId)
      returns (outcome: Outcome)
      requires Valid() && id !in sessions && Unused(Tables(), reservation)
      modifies this
      ensures Valid()
      ensures Tables() == Requested(old(Tables()), id, checks, decision, lock, reservation)
      ensures outcome == Made <==>
              checks == Checks(true, true, true, true, checks.locked) && (decision == Approve ==> checks.locked)
    {
      if !checks.supported {
        return CorridorNotSupported;
      }
      if !checks.destinationValid {
        return InvalidDestination;
      }
      if !checks.entitled {
        return NotEntitled;
      }
      DoKeepsSane(Tables(), Insert(id));
      sessions := sessions[id := Session(Screening, None, None, None, false)];
      if !checks.screened {
        return ScreeningFailed;
      }
      var ok;
      match decision {
        case HoldFor(c) => ok := TransitionToHold(id, c);
        case Refuse => ok := CasTransition(id, Screening, Rejected);
        case Approve =>
          if !checks.locked {
            return LockFailed;
          }
          ok := TransitionToPending(id, Screening, lock, reservation);
      }
      return Made;
    }

    /** An analyst's decision: the case is closed first, and in a transaction of its own. */
    method ResolveComplianceHold(id: SessionId, approved: bool, locked: bool, lock: string, reservation: ReservationId)
      returns (outcome: Outcome)
      requires Valid() && Unused(Tables(), reservation)
      modifies this
      ensures Valid()
      ensures outcome == Resolution(old(Tables()), id, approved, locked)
      ensures Tables() == Resolved(old(Tables()), id, approved, locked, lock, reservation)
    {
      if id !in sessions || sessions[id].status != ComplianceHold || sessions[id].complianceCase == None {
        return NotInHold;
      }
      var resolved := ResolveHold(sessions[id].complianceCase.value);
      if !resolved {
        return CaseAlreadyResolved;
      }
      var ok;
      if !approved {
        ok := CasTransition(id, ComplianceHold, Rejected);
        return Made;
      }
      if !locked {
        return LockFailed;
      }
      ok := TransitionToPending(id, ComplianceHold, lock, reservation);
      return Made;
    }

    /** A case that is still held is resolved once. */
    method ResolveHold(complianceCase: string) returns (ok: bool)
      requires Valid()
      modifies this`closed
      ensures Valid()
      ensures ok == (complianceCase !in old(closed)) && closed == old(closed) + {complianceCase}
    {
      CloseKeepsSane(Tables(), complianceCase);
      ok := complianceCase !in closed;
      closed := closed + {complianceCase};
    }

    // ----- the TTL job -----

    method ExpirePreDeposit(due: set<SessionId>)
      requires Valid()
      modifies this`sessions
      ensures Valid() && Tables() == ExpiredAll(old(Tables()), due, {Screening, Pending})
    {
      ExpiryKeepsSane(Tables(), due, {Screening, Pending});
      sessions := map id | id in sessions ::
          if id in due then Expire(sessions[id], {Screening, Pending}) else sessions[id];
    }

    method ExpireTimedOutHolds(due: set<SessionId>)
      requires Valid()
      modifies this`sessions
      ensures Valid() && Tables() == ExpiredAll(old(Tables()), due, {ComplianceHold})
    {
      ExpiryKeepsSane(Tables(), due, {ComplianceHold});
      sessions := map id | id in sessions :: if id in due then Expire(sessions[id], {ComplianceHold}) else sessions[id];
    }

    /** One transaction: the rows are marked, collected, and published one by one. */
    method MarkSLABreaches(due: set<SessionId>) returns (breached: seq<SessionId>)
      requires Valid()
      modifies this
      ensures Valid() && Lists(breached, Breaching(old(Tables()), due))
      ensures Tables() == AllMarked(old(Tables()), due).(outbox := PublishEach(old(outbox), breached))
    {
      ghost var before := Tables();
      var rows := Breaching(World(sessions, deposits, known, outbox, settlements, closed), due);
      sessions := map id | id in sessions :: Marked(sessions[id], id in due);
      breached := [];
      while rows != {}
        invariant Unrepeated(breached)
        invariant forall id :: id in Breaching(before, due) <==> id in rows || id in breached
        invariant forall id | id in breached :: id !in rows
      {
        var id :| id in rows;
        rows := rows - {id};
        breached := breached + [id];
      }
      for k := 0 to |breached|
        invariant sessions == AllMarked(before, due).sessions && deposits == before.deposits && known == before.known
                  && settlements == before.settlements && closed == before.closed
        invariant outbox == PublishEach(before.outbox, breached[..k])
      {
        Publish(Breached(breached[k]));
        assert breached[..k + 1][..k] == breached[..k];
      }
      assert breached[..|breached|] == breached;
      BreachesKeepSane(before, due, breached);
    }

    // ----- deposits and the dispatcher -----

    /** The treasury's transaction: the deposit row and its event. */
    method RecordDepositTransition(r: Deposits.Report)
      requires Valid()
      modifies this`deposits, this`outbox
      ensures Valid() && Tables() == Reported(old(Tables()), r)
    {
      ReportKeepsSane(Tables(), r);
      if Deposits.Transitions(deposits, known, r) {
        deposits := Deposits.Recorded(deposits, known, r);
        Publish(DepositReported(r.key.reservation, r.status));
      }
    }

    /** The handlers' update and event, for the one session that has the reservation, if it is in a state to move. */
    method TransitionByReservation(reservation: ReservationId, status: Deposits.DepositStatus)
      requires Valid()
      modifies this`sessions, this`outbox
      ensures Tables() == Handled(old(Tables()), DepositReported(reservation, status))
    {
      ghost var before := Tables();
      var rows := set id | id in sessions && sessions[id].reservation == Some(reservation)
                           && (sessions[id].status == Pending
                               || (status == Deposits.Confirmed && sessions[id].status == DepositDetected));
      assert rows == Movable(before, reservation, status);
      if rows == {} {
        return;
      }
      var id :| id in rows;
      SessionRuns.OneMovable(before, reservation, status, id);
      if status == Deposits.Confirmed {
        sessions := sessions[id := sessions[id].(status := DepositConfirmed)];
        Publish(Confirmed(id));
      } else {
        sessions := sessions[id := sessions[id].(status := DepositDetected)];
        Publish(Detected(id));
      }
      assert Handled(before, DepositReported(reservation, status)) == Moved(before, id, status);
    }

    /** Settlement's handler: a conflict-ignoring insert for the session that the event names. */
    method HandleDepositConfirmed(id: SessionId)
      modifies this`settlements
      ensures Tables() == Handled(old(Tables()), Confirmed(id))
    {
      if id in sessions && id !in settlements {
        settlements := settlements + [id];
      }
    }

    /** One transaction: claim the oldest event, run its handlers, mark it. A failing handler rolls everything back. */
    method DispatchOne(fails: bool) returns (dispatched: bool, failed: bool)
      requires Valid()
      modifies this
      ensures Valid()
      ensures var i := Oldest(old(outbox));
              && Tables() == DispatchedOne(old(Tables()), i, fails)
              && dispatched == (i < |old(outbox)| && !fails) && failed == (i < |old(outbox)| && fails)
    {
      var i := 0;
      while i < |outbox| && outbox[i].dispatched
        invariant i <= |outbox| && forall j | 0 <= j < i :: outbox[j].dispatched
      {
        i := i + 1;
      }
      OldestIs(outbox, i);
      if i == |outbox| {
        return false, false;
      }
      if fails {
        return false, true;
      }
      ghost var before := Tables();
      DispatchKeepsSane(before, i, false);
      var m := outbox[i].message;
      if m.DepositReported? {
        TransitionByReservation(m.reservation, m.status);
      } else if m.Confirmed? {
        HandleDepositConfirmed(m.id);
      }
      assert Tables() == Handled(before, m);
      outbox := MarkDispatched(outbox, i);
      return true, false;
    }

    /** One event of a batch; whatever the batch was going to end in, it still is. */
    method DispatchNext(failing: set<nat>, ghost size: nat, ghost end: World) returns (goOn: bool)
      requires Valid() && size > 0 && end in Results(Tables(), size, failing)
      modifies this
      ensures Valid()
      ensures if goOn then end in Results(Tables(), size - 1, failing) else end == Tables()
    {
      ghost var before := Tables();
      var dispatched, failed := DispatchOne(Oldest(outbox) in failing);
      ResultsUnfold(before, size, failing, Tables(), end);
      return dispatched;
    }

    /** Up to a batch of events; the first error ends it. */
    method DispatchBatch(size: nat, failing: set<nat>)
      requires Valid()
      modifies this
      ensures Valid() && Tables() in Results(old(Tables()), size, failing)
    {
      ghost var end := ResultOf(Tables(), size, failing);
      for left := size downto 0
        invariant Valid() && end in Results(Tables(), left, failing)
      {
        var goOn := DispatchNext(failing, left + 1, end);
        if !goOn {
          return;
        }
      }
      ResultsEnd(Tables(), failing, end);
    }
  }
}
