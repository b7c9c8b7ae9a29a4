/** What requests, analysts' decisions and the TTL job leave of a session, status by status. */
module SessionEffects {
  import opened Common
  import Deposits
  import opened Sessions
  import SessionRuns
  import opened SessionStore

  /** Every session but one is untouched. */
  ghost predicate OthersUntouched(w: World, w': World, id: SessionId) {
    forall other | other != id ::
      (other in w'.sessions <==> other in w.sessions)
      && (other in w.sessions ==> w'.sessions[other] == w.sessions[other])
  }

  /** Nothing beside sessions and the outbox is touched, but for the one reservation that was made. */
  predicate TablesUntouched(w: World, w': World, reservation: ReservationId) {
    && w'.deposits == w.deposits && w'.settlements == w.settlements
    && w.known <= w'.known <= w.known + {reservation}
  }

  // ----- requests -----

  /**
   * What a request leaves. Nothing at all when the corridor, the destination or the entitlement is missing. Otherwise a
   * row: held with its case exactly when screening holds it, rejected exactly when screening refuses it, pending with
   * the lock and the reservation exactly when screening approves it and a rate could be locked, and left in screening
   * when the call ended in between. It is announced exactly when it is pending.
   */
  lemma RequestLeaves(w: World, id: SessionId, checks: Checks, decision: Decision, lock: string,
                      reservation: ReservationId)
    requires id !in w.sessions && Unused(w, reservation)
    ensures var w' := Requested(w, id, checks, decision, lock, reservation);
            && OthersUntouched(w, w', id) && TablesUntouched(w, w', reservation) && w'.closed == w.closed
            && (id in w'.sessions <==> checks.supported && checks.destinationValid && checks.entitled)
            && (id in w'.sessions ==>
                  && (w'.sessions[id].status == ComplianceHold <==> checks.screened && decision.HoldFor?)
                  && (w'.sessions[id].status == Rejected <==> checks.screened && decision.Refuse?)
                  && (w'.sessions[id].status == Pending <==> checks.screened && decision.Approve? && checks.locked)
                  && w'.sessions[id] ==
                     match w'.sessions[id].status
                     case ComplianceHold => Session(ComplianceHold, Some(decision.complianceCase), None, None, false)
                     case Pending => Session(Pending, None, Some(lock), Some(reservation), false)
                     case Rejected => Session(Rejected, None, None, None, false)
                     case _ => Session(Screening, None, None, None, false))
            && w'.outbox == w.outbox + if id in w'.sessions && w'.sessions[id].status == Pending
                                       then [Entry(Created(id), false)] else []
  {
    assert w.outbox + [] == w.outbox;
  }

  // ----- decisions -----

  /**
   * What an analyst's decision leaves of a hold whose case is open. The case is closed whatever follows. The session is
   * rejected exactly when it is not approved, and pending with lock and reservation, and announced, exactly when it is
   * and a rate could be locked; an approval without a lock leaves it in its hold.
   */
  lemma DecisionLeaves(w: World, id: SessionId, approved: bool, locked: bool, lock: string, reservation: ReservationId)
    requires OpenHold(w, id) && Unused(w, reservation)
    ensures var w' := Resolved(w, id, approved, locked, lock, reservation);
            var s := w.sessions[id];
            && OthersUntouched(w, w', id) && TablesUntouched(w, w', reservation)
            && w'.closed == w.closed + {s.complianceCase.value}
            && id in w'.sessions
            && w'.sessions[id] ==
               (if !approved then s.(status := Rejected)
                else if locked then s.(status := Pending, lock := Some(lock), reservation := Some(reservation)) else s)
            && w'.outbox == w.outbox + if approved && locked then [Entry(Created(id), false)] else []
  {
    assert w.outbox + [] == w.outbox;
  }

  /** Without an open case nothing happens, and the answer says why. */
  lemma RefusedDecisionLeavesAll(w: World, id: SessionId, approved: bool, locked: bool, lock: string,
                                 reservation: ReservationId)
    ensures Resolution(w, id, approved, locked) in {NotInHold, CaseAlreadyResolved} <==> !OpenHold(w, id)
    ensures !OpenHold(w, id) ==> Resolved(w, id, approved, locked, lock, reservation) == w
    ensures Resolution(w, id, approved, locked) == CaseAlreadyResolved <==>
            && id in w.sessions && w.sessions[id].status == ComplianceHold && w.sessions[id].complianceCase.Some?
            && w.sessions[id].complianceCase.value in w.closed
    ensures Resolution(w, id, approved, locked) == LockFailed <==> OpenHold(w, id) && approved && !locked
  {
  }

  // ----- the TTL job -----

  /** Due sessions expire before a deposit was seen, and out of a hold by the other statement; no other row changes. */
  lemma ExpiryByStatus(w: World, due: set<SessionId>, id: SessionId)
    requires id in w.sessions
    ensures var s := w.sessions[id];
            var after := Do(w, ExpirePreDeposit(due));
            && after == w.(sessions := after.sessions) && after.sessions.Keys == w.sessions.Keys
            && after.sessions[id] ==
               if id in due && (s.status == Screening || s.status == Pending) then s.(status := Expired) else s
    ensures var s := w.sessions[id];
            var after := Do(w, ExpireHolds(due));
            && after == w.(sessions := after.sessions) && after.sessions.Keys == w.sessions.Keys
            && after.sessions[id] == if id in due && s.status == ComplianceHold then s.(status := Expired) else s
  {
  }

  /** Sessions that are still on their way to a payout, or that a payout has left. */
  predicate Outstanding(status: Status) {
    match status
    case Screening => true
    case ComplianceHold => true
    case Pending => true
    case DepositDetected => true
    case DepositConfirmed => true
    case Settling => true
    case SettlementFailed => true
    case Reversed => true
    case ReversalResolved => true
    case Settled => false
    case Expired => false
    case Rejected => false
  }

  /** A breach is marked and published exactly when it is due, not marked yet, and the session is still outstanding. */
  lemma BreachIsPublished(w: World, due: set<SessionId>, rows: seq<SessionId>, id: SessionId)
    requires id in w.sessions && Lists(rows, Breaching(w, due))
    ensures var s := w.sessions[id];
            var after := Do(w, MarkBreaches(due, rows));
            var breaches := id in due && !s.breached && Outstanding(s.status);
            && after.sessions.Keys == w.sessions.Keys
            && after.sessions[id] == (if breaches then s.(breached := true) else s)
            && Times(after.outbox, Breached(id)) == Times(w.outbox, Breached(id)) + (if breaches then 1 else 0)
            && (forall m: Message | !m.Breached? :: Times(after.outbox, m) == Times(w.outbox, m))
  {
    TimesEach(w.outbox, rows, Breached(id));
    forall m: Message | !m.Breached? ensures Times(PublishEach(w.outbox, rows), m) == Times(w.outbox, m) {
      TimesEach(w.outbox, rows, m);
    }
  }

  // ----- deposits -----

  /** Where a deposit report takes a session, with what it publishes. */
  function Moves(from: Status, status: Deposits.DepositStatus, id: SessionId): Option<(Status, Message)> {
    if status == Deposits.Confirmed then
      if from == Pending || from == DepositDetected then Some((DepositConfirmed, Confirmed(id))) else None
    else if from == Pending then Some((DepositDetected, Detected(id)))
    else None
  }

  /**
   * A dispatched deposit report moves the one session that has the reservation, from pending to detected or confirmed
   * and from detected to confirmed, and publishes the move; in any other status, and in every other session, nothing
   * changes, and the event counts as dispatched either way.
   */
  lemma DepositMoves(w: World, i: nat, id: SessionId)
    requires w in Sane() && i < |w.outbox| && !w.outbox[i].dispatched && w.outbox[i].message.DepositReported?
    requires id in w.sessions && w.sessions[id].reservation == Some(w.outbox[i].message.reservation)
    ensures var s := w.sessions[id];
            var moves := Moves(s.status, w.outbox[i].message.status, id);
            var after := Do(w, Dispatch(i, false));
            var marked := w.outbox[i := w.outbox[i].(dispatched := true)];
            && OthersUntouched(w, after, id) && id in after.sessions
            && after.sessions[id] == (if moves.Some? then s.(status := moves.value.0) else s)
            && after.outbox == marked + (if moves.Some? then [Entry(moves.value.1, false)] else [])
            && after == w.(sessions := after.sessions, outbox := after.outbox)
  {
    var m := w.outbox[i].message;
    if id in Movable(w, m.reservation, m.status) {
      SessionRuns.OneMovable(w, m.reservation, m.status, id);
    } else {
      NoneMovable(w, m.reservation, m.status, id);
      assert w.outbox[i := w.outbox[i].(dispatched := true)] + [] == w.outbox[i := w.outbox[i].(dispatched := true)];
    }
  }

  lemma NoneMovable(w: World, reservation: ReservationId, status: Deposits.DepositStatus, id: SessionId)
    requires w in Sane() && id in w.sessions && w.sessions[id].reservation == Some(reservation)
    requires id !in Movable(w, reservation, status)
    ensures Movable(w, reservation, status) == {}
  {
  }
}
