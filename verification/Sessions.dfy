/**
 * The session machine before settlement, driven by requests, the TTL job and the transactional outbox: deposit reports
 * append events, the dispatcher hands them to handlers, and a failing handler rolls its event back.
 */
module Sessions {
  import opened Common
  import Deposits

  type SessionId = string
  type ReservationId = Deposits.ReservationId

  datatype Status =
    | Screening | ComplianceHold | Rejected | Pending | Expired | DepositDetected | DepositConfirmed
    | Settling | Settled | SettlementFailed | Reversed | ReversalResolved

  datatype Session = Session(status: Status, complianceCase: Option<string>, lock: Option<string>,
                             reservation: Option<ReservationId>, breached: bool)

  datatype Message =
    | DepositReported(reservation: ReservationId, status: Deposits.DepositStatus)
    | Created(id: SessionId) | Detected(id: SessionId) | Confirmed(id: SessionId) | Breached(id: SessionId)

  datatype Entry = Entry(message: Message, dispatched: bool)

  /**
   * The tables. Settlements are listed in the order of their insertion; closed are the compliance cases resolved by
   * hand.
   */
  datatype World = World(sessions: map<SessionId, Session>, deposits: Deposits.Table, known: set<ReservationId>,
                         outbox: seq<Entry>, settlements: seq<SessionId>, closed: set<string>)

  const EMPTY_WORLD := World(map[], map[], {}, [], [], {})

  function Published(outbox: seq<Entry>, message: Message): seq<Entry> {
    outbox + [Entry(message, false)]
  }

  /** Confirmed or later. */
  predicate Past(status: Status) {
    status in {DepositConfirmed, Settling, Settled, SettlementFailed, Reversed, ReversalResolved}
  }

  // ----- requests -----

  /** A compare-and-set that touches the status alone. */
  function Cas(w: World, id: SessionId, from: Status, to: Status): World {
    if id in w.sessions && w.sessions[id].status == from
        then w.(sessions := w.sessions[id := w.sessions[id].(status := to)]) else w
  }

  function Inserted(w: World, id: SessionId): World {
    if id in w.sessions then w else w.(sessions := w.sessions[id := Session(Screening, None, None, None, false)])
  }

  function Held(w: World, id: SessionId, complianceCase: string): World {
    if id in w.sessions && w.sessions[id].status == Screening
    then w.(sessions := w.sessions[id := w.sessions[id].(status := ComplianceHold,
                                                         complianceCase := Some(complianceCase))])
    else w
  }

  predicate Unused(w: World, reservation: ReservationId) {
    forall id | id in w.sessions :: w.sessions[id].reservation != Some(reservation)
  }

  /** One transaction: the lock, the reservation and session.created. Each reservation is made for one call of this. */
  function MadePending(w: World, id: SessionId, from: Status, lock: string, reservation: ReservationId): World {
    if id in w.sessions && w.sessions[id].status == from && from in {Screening, ComplianceHold}
       && reservation in w.known && Unused(w, reservation)
    then w.(sessions := w.sessions[id := w.sessions[id].(status := Pending, lock := Some(lock),
                                                         reservation := Some(reservation))],
            outbox := Published(w.outbox, Created(id)))
    else w
  }

  // ----- the TTL job -----

  function Expire(s: Session, from: set<Status>): Session {
    if s.status in from then s.(status := Expired) else s
  }

  function ExpiredAll(w: World, due: set<SessionId>, from: set<Status>): World {
    w.(sessions := map id | id in w.sessions :: if id in due then Expire(w.sessions[id], from) else w.sessions[id])
  }

  predicate Breaches(s: Session) {
    !s.breached && s.status !in {Settled, Expired, Rejected}
  }

  function Breaching(w: World, due: set<SessionId>): set<SessionId> {
    set id | id in w.sessions && id in due && Breaches(w.sessions[id])
  }

  function Marked(s: Session, due: bool): Session {
    if due && Breaches(s) then s.(breached := true) else s
  }

  function AllMarked(w: World, due: set<SessionId>): World {
    w.(sessions := map id | id in w.sessions :: Marked(w.sessions[id], id in due))
  }

  function PublishEach(outbox: seq<Entry>, ids: seq<SessionId>): seq<Entry> {
    if ids == [] then outbox else Published(PublishEach(outbox, ids[..|ids| - 1]), Breached(ids[|ids| - 1]))
  }

  predicate Unrepeated(ids: seq<SessionId>) {
    forall i, j | 0 <= i < j < |ids| :: ids[i] != ids[j]
  }

  predicate Lists(ids: seq<SessionId>, of: set<SessionId>) {
    Unrepeated(ids) && (forall id | id in ids :: id in of) && (forall id | id in of :: id in ids)
  }

  // ----- deposit reports and the dispatcher -----

  function Reported(w: World, r: Deposits.Report): World {
    if Deposits.Transitions(w.deposits, w.known, r)
    then w.(deposits := Deposits.Recorded(w.deposits, w.known, r),
            outbox := Published(w.outbox, DepositReported(r.key.reservation, r.status)))
    else w
  }

  /** The sessions a deposit event moves: pending ones, and detected ones when it confirms. */
  function Movable(w: World, reservation: ReservationId, status: Deposits.DepositStatus): set<SessionId> {
    set id | id in w.sessions && w.sessions[id].reservation == Some(reservation)
             && (w.sessions[id].status == Pending
                 || (status == Deposits.Confirmed && w.sessions[id].status == DepositDetected))
  }

  function Moved(w: World, id: SessionId, status: Deposits.DepositStatus): World
    requires id in w.sessions
  {
    if status == Deposits.Confirmed then
      w.(sessions := w.sessions[id := w.sessions[id].(status := DepositConfirmed)],
         outbox := Published(w.outbox, Confirmed(id)))
    else
      w.(sessions := w.sessions[id := w.sessions[id].(status := DepositDetected)],
         outbox := Published(w.outbox, Detected(id)))
  }

  /** What the handlers of one event do. No two sessions share a reservation, so the update meets one row at most. */
  ghost function Handled(w: World, message: Message): World {
    match message
    case DepositReported(reservation, status) =>
      if Movable(w, reservation, status) == {} then w
      else
        var id :| id in Movable(w, reservation, status);
        Moved(w, id, status)
    case Confirmed(id) =>
      if id in w.sessions && id !in w.settlements then w.(settlements := w.settlements + [id]) else w
    case Created(_) => w
    case Detected(_) => w
    case Breached(_) => w
  }

  /** One dispatch transaction over the i-th event: handlers and mark together, or nothing. */
  ghost function DispatchedOne(w: World, i: nat, fails: bool): World {
    if i < |w.outbox| && !w.outbox[i].dispatched && !fails then
      var handled := Handled(w, w.outbox[i].message);
      handled.(outbox := MarkDispatched(handled.outbox, i))
    else w
  }

  function MarkDispatched(outbox: seq<Entry>, i: nat): seq<Entry> {
    if i < |outbox| then outbox[i := outbox[i].(dispatched := true)] else outbox
  }

  // ----- steps -----

  /** The status pairs that settlement drives. */
  predicate SettlementMove(from: Status, to: Status) {
    match from
    case DepositConfirmed => to == Settling
    case Settling => to == Settled || to == SettlementFailed || to == Settling
    case SettlementFailed => to == Settling
    case Settled => to == Reversed
    case Reversed => to == ReversalResolved
    case _ => false
  }

  datatype Step =
    | Insert(id: SessionId)
    | Hold(id: SessionId, complianceCase: string)
    | Reject(id: SessionId, from: Status)
    | CloseCase(complianceCase: string)
    | Reserve(reservation: ReservationId)
    | MakePending(id: SessionId, from: Status, lock: string, reservation: ReservationId)
    | ExpirePreDeposit(due: set<SessionId>)
    | ExpireHolds(due: set<SessionId>)
    | MarkBreaches(due: set<SessionId>, rows: seq<SessionId>)
    | Report(report: Deposits.Report)
    | Dispatch(index: nat, fails: bool)
    | Settlement(id: SessionId, from: Status, to: Status)

  ghost function Do(w: World, step: Step): World {
    match step
    case Insert(id) => Inserted(w, id)
    case Hold(id, c) => Held(w, id, c)
    case Reject(id, from) => if from in {Screening, ComplianceHold} then Cas(w, id, from, Rejected) else w
    case CloseCase(c) => w.(closed := w.closed + {c})
    case Reserve(r) => w.(known := w.known + {r})
    case MakePending(id, from, lock, r) => MadePending(w, id, from, lock, r)
    case ExpirePreDeposit(due) => ExpiredAll(w, due, {Screening, Pending})
    case ExpireHolds(due) => ExpiredAll(w, due, {ComplianceHold})
    case MarkBreaches(due, rows) =>
      if Lists(rows, Breaching(w, due)) then AllMarked(w, due).(outbox := PublishEach(w.outbox, rows)) else w
    case Report(r) => Reported(w, r)
    case Dispatch(i, fails) => DispatchedOne(w, i, fails)
    case Settlement(id, from, to) => if SettlementMove(from, to) then Cas(w, id, from, to) else w
  }

  ghost predicate Succeeds(w: World, w': World) {
    exists step :: w' == Do(w, step)
  }

  /** A run: the empty tables, then one step after the other, in any order and by anyone. */
  ghost predicate IsRun(run: seq<World>) {
    && run != [] && run[0] == EMPTY_WORLD
    && forall k | 0 < k < |run| :: Succeeds(run[k - 1], run[k])
  }

  ghost function Runs(): iset<seq<World>> {
    iset run: seq<World> | IsRun(run)
  }

  // ----- what every run keeps -----

  /** How often a message was published. */
  function Times(outbox: seq<Entry>, message: Message): nat {
    if outbox == [] then 0
    else Times(outbox[..|outbox| - 1], message) + (if outbox[|outbox| - 1].message == message then 1 else 0)
  }

  predicate Delivered(outbox: seq<Entry>, message: Message) {
    exists i :: 0 <= i < |outbox| && outbox[i] == Entry(message, true)
  }

  /** Lock and reservation come together, before pending; a hold has its case. */
  predicate Shaped(s: Session) {
    && (s.status in {Pending, DepositDetected} || Past(s.status) ==> s.lock.Some? && s.reservation.Some?)
    && (s.status in {Screening, ComplianceHold, Rejected} ==> s.reservation == None)
    && (s.reservation.Some? ==> s.lock.Some?)
    && (s.status == ComplianceHold ==> s.complianceCase.Some?)
  }

  /** What was published about a session follows from its row. */
  ghost predicate Told(w: World, id: SessionId) {
    if id in w.sessions then
      var s := w.sessions[id];
      && Times(w.outbox, Confirmed(id)) == (if Past(s.status) then 1 else 0)
      && Times(w.outbox, Breached(id)) == (if s.breached then 1 else 0)
      && Times(w.outbox, Created(id)) == (if s.reservation.Some? then 1 else 0)
      && Times(w.outbox, Detected(id)) <= 1
          && (s.status == Pending || s.reservation == None ==> Times(w.outbox, Detected(id)) == 0)
    else
      && Times(w.outbox, Confirmed(id)) == Times(w.outbox, Breached(id)) == 0
      && Times(w.outbox, Created(id)) == Times(w.outbox, Detected(id)) == 0
  }

  /** A settlement row is there exactly when the session's confirmation was dispatched. */
  ghost predicate HandedOff(w: World, id: SessionId) {
    id in w.settlements <==> Delivered(w.outbox, Confirmed(id))
  }

  ghost predicate OwnReservations(w: World) {
    && (forall id | id in w.sessions && w.sessions[id].reservation.Some? :: w.sessions[id].reservation.value in w.known)
    && (forall id, other | id in w.sessions && other in w.sessions && w.sessions[id].reservation.Some?
                           && w.sessions[id].reservation == w.sessions[other].reservation :: id == other)
  }

  ghost function Sane(): iset<World> {
    iset w: World |
      && OwnReservations(w) && Unrepeated(w.settlements)
      && (forall id | id in w.sessions :: Shaped(w.sessions[id]))
      && (forall id :: Told(w, id))
      && (forall id :: HandedOff(w, id))
  }

  lemma TimesPublished(outbox: seq<Entry>, m: Message)
    ensures forall message ::
            Times(Published(outbox, m), message) == Times(outbox, message) + (if message == m then 1 else 0)
    ensures forall message :: Delivered(Published(outbox, m), message) <==> Delivered(outbox, message)
  {
    var after := Published(outbox, m);
    assert after[..|outbox|] == outbox && after[|outbox|] == Entry(m, false);
    forall message ensures Delivered(after, message) <==> Delivered(outbox, message) {
      if Delivered(outbox, message) {
        var i :| 0 <= i < |outbox| && outbox[i] == Entry(message, true);
        assert after[i] == Entry(message, true);
      }
    }
  }

  lemma {:induction false} TimesMarked(outbox: seq<Entry>, i: nat, message: Message)
    requires i < |outbox|
    ensures Times(MarkDispatched(outbox, i), message) == Times(outbox, message)
  {
    var last := |outbox| - 1;
    if i == last {
      assert MarkDispatched(outbox, i)[..last] == outbox[..last];
    } else {
      assert MarkDispatched(outbox, i)[..last] == MarkDispatched(outbox[..last], i);
      TimesMarked(outbox[..last], i, message);
    }
  }

  lemma DeliveredMarked(outbox: seq<Entry>, i: nat, message: Message)
    requires i < |outbox|
    ensures Delivered(MarkDispatched(outbox, i), message) <==>
            Delivered(outbox, message) || outbox[i].message == message
  {
    var after := MarkDispatched(outbox, i);
    if Delivered(outbox, message) {
      var j :| 0 <= j < |outbox| && outbox[j] == Entry(message, true);
      assert after[j] == Entry(message, true);
    }
    if outbox[i].message == message {
      assert after[i] == Entry(message, true);
    }
  }

  /** One session's row changes, and one message about it may be published with it. */
  lemma RowKeepsSane(w: World, id: SessionId, s: Session)
    requires w in Sane() && Shaped(s)
    requires if id in w.sessions then
               && s.reservation == w.sessions[id].reservation && s.breached == w.sessions[id].breached
               && (Past(s.status) <==> Past(w.sessions[id].status)) && s.status != Pending
             else s.reservation == None && !s.breached && !Past(s.status)
    ensures w.(sessions := w.sessions[id := s]) in Sane()
  {
    var after := w.(sessions := w.sessions[id := s]);
    assert OwnReservations(after);
    forall other ensures Told(after, other) {
      assert Told(w, other);
    }
    forall other ensures HandedOff(after, other) {
      assert HandedOff(w, other);
    }
    assert forall other | other in after.sessions :: Shaped(after.sessions[other]);
  }

  /** The message goes with the row. */
  lemma MessageTold(w: World, id: SessionId, s: Session, m: Message, other: SessionId)
    requires Told(w, other) && id in w.sessions && Shaped(w.sessions[id]) && s.breached == w.sessions[id].breached
    requires
      || (m == Created(id) && w.sessions[id].reservation == None && s.status == Pending && !Past(w.sessions[id].status)
          && s.reservation.Some?)
      || (m == Detected(id) && w.sessions[id].status == Pending && s == w.sessions[id].(status := DepositDetected))
      || (m == Confirmed(id) && w.sessions[id].status in {Pending, DepositDetected}
          && s == w.sessions[id].(status := DepositConfirmed))
    ensures Told(w.(sessions := w.sessions[id := s], outbox := Published(w.outbox, m)), other)
  {
    TimesPublished(w.outbox, m);
  }

  /** The same, with a message published about the session in the same transaction. */
  lemma MessageKeepsSane(w: World, id: SessionId, s: Session, m: Message)
    requires w in Sane() && id in w.sessions && Shaped(s) && s.breached == w.sessions[id].breached
    requires
      || (m == Created(id) && w.sessions[id].reservation == None && s.status == Pending && !Past(w.sessions[id].status)
          && s.reservation.Some? && s.reservation.value in w.known && Unused(w, s.reservation.value))
      || (m == Detected(id) && w.sessions[id].status == Pending && s == w.sessions[id].(status := DepositDetected))
      || (m == Confirmed(id) && w.sessions[id].status in {Pending, DepositDetected}
          && s == w.sessions[id].(status := DepositConfirmed))
    ensures w.(sessions := w.sessions[id := s], outbox := Published(w.outbox, m)) in Sane()
  {
    var after := w.(sessions := w.sessions[id := s], outbox := Published(w.outbox, m));
    TimesPublished(w.outbox, m);
    assert OwnReservations(after);
    forall other ensures Told(after, other) {
      assert Told(w, other);
      MessageTold(w, id, s, m, other);
    }
    forall other ensures HandedOff(after, other) {
      assert HandedOff(w, other);
    }
    assert forall other | other in after.sessions :: Shaped(after.sessions[other]);
  }

  /** A message about no session. */
  lemma ReportKeepsSane(w: World, r: Deposits.Report)
    requires w in Sane()
    ensures Reported(w, r) in Sane()
  {
    var after := Reported(w, r);
    TimesPublished(w.outbox, DepositReported(r.key.reservation, r.status));
    forall other ensures Told(after, other) {
      assert Told(w, other);
    }
    forall other ensures HandedOff(after, other) {
      assert HandedOff(w, other);
    }
  }

  lemma ExpiryShapes(s: Session, from: set<Status>)
    requires Shaped(s) && from <= {Screening, Pending, ComplianceHold}
    ensures Shaped(Expire(s, from)) && (Past(Expire(s, from).status) <==> Past(s.status))
    ensures Expire(s, from).reservation == s.reservation && Expire(s, from).breached == s.breached
    ensures Expire(s, from).status == Pending ==> s.status == Pending
  {
  }

  lemma ExpiryTold(w: World, due: set<SessionId>, from: set<Status>, id: SessionId)
    requires Told(w, id) && (id in w.sessions ==> Shaped(w.sessions[id]))
    requires from <= {Screening, Pending, ComplianceHold}
    ensures Told(ExpiredAll(w, due, from), id)
  {
    if id in w.sessions {
      ExpiryShapes(w.sessions[id], from);
    }
  }

  lemma ExpiryKeepsSane(w: World, due: set<SessionId>, from: set<Status>)
    requires w in Sane() && from <= {Screening, Pending, ComplianceHold}
    ensures ExpiredAll(w, due, from) in Sane()
  {
    var after := ExpiredAll(w, due, from);
    assert OwnReservations(after);
    forall other ensures Told(after, other) && HandedOff(after, other) {
      assert Told(w, other) && HandedOff(w, other);
      ExpiryTold(w, due, from, other);
    }
    forall other | other in after.sessions ensures Shaped(after.sessions[other]) {
      ExpiryShapes(w.sessions[other], from);
    }
  }

  lemma {:induction false} TimesEach(outbox: seq<Entry>, ids: seq<SessionId>, m: Message)
    requires Unrepeated(ids)
    ensures Times(PublishEach(outbox, ids), m) == Times(outbox, m) + (if m.Breached? && m.id in ids then 1 else 0)
    ensures Delivered(PublishEach(outbox, ids), m) <==> Delivered(outbox, m)
  {
    if ids != [] {
      var last := |ids| - 1;
      TimesEach(outbox, ids[..last], m);
      TimesPublished(PublishEach(outbox, ids[..last]), Breached(ids[last]));
    }
  }

  lemma BreachesTold(w: World, due: set<SessionId>, rows: seq<SessionId>, id: SessionId)
    requires Told(w, id) && HandedOff(w, id) && Lists(rows, Breaching(w, due))
    ensures var after := AllMarked(w, due).(outbox := PublishEach(w.outbox, rows));
            Told(after, id) && HandedOff(after, id)
  {
    TimesEach(w.outbox, rows, Confirmed(id));
    TimesEach(w.outbox, rows, Breached(id));
    TimesEach(w.outbox, rows, Created(id));
    TimesEach(w.outbox, rows, Detected(id));
  }

  lemma BreachesKeepSane(w: World, due: set<SessionId>, rows: seq<SessionId>)
    requires w in Sane() && Lists(rows, Breaching(w, due))
    ensures AllMarked(w, due).(outbox := PublishEach(w.outbox, rows)) in Sane()
  {
    var after := AllMarked(w, due).(outbox := PublishEach(w.outbox, rows));
    assert OwnReservations(after);
    forall other ensures Told(after, other) && HandedOff(after, other) {
      assert Told(w, other) && HandedOff(w, other);
      BreachesTold(w, due, rows, other);
    }
    assert forall other | other in after.sessions :: Shaped(after.sessions[other]);
  }

  // ----- dispatch -----

  /** Marking an event that hands nothing off. */
  lemma MarkKeepsSane(w: World, i: nat)
    requires w in Sane() && i < |w.outbox| && !w.outbox[i].message.Confirmed?
    ensures w.(outbox := MarkDispatched(w.outbox, i)) in Sane()
  {
    var after := w.(outbox := MarkDispatched(w.outbox, i));
    forall other ensures Told(after, other) {
      assert Told(w, other);
      TimesMarked(w.outbox, i, Confirmed(other));
      TimesMarked(w.outbox, i, Breached(other));
      TimesMarked(w.outbox, i, Created(other));
      TimesMarked(w.outbox, i, Detected(other));
    }
    forall other ensures HandedOff(after, other) {
      assert HandedOff(w, other);
      DeliveredMarked(w.outbox, i, Confirmed(other));
    }
  }

  lemma {:induction false} PublishedCounts(outbox: seq<Entry>, i: nat)
    requires i < |outbox|
    ensures Times(outbox, outbox[i].message) >= 1
  {
    if i < |outbox| - 1 {
      PublishedCounts(outbox[..|outbox| - 1], i);
    }
  }

  /** The confirmed event inserts the settlement row, unless it is there, and is marked with it. */
  lemma HandOffKeepsSane(w: World, i: nat)
    requires w in Sane() && i < |w.outbox| && w.outbox[i].message.Confirmed?
    ensures var handled := Handled(w, w.outbox[i].message);
            && handled.(outbox := MarkDispatched(handled.outbox, i)) in Sane()
            && w.outbox[i].message.id in handled.settlements
  {
    var id := w.outbox[i].message.id;
    assert Told(w, id);
    PublishedCounts(w.outbox, i);
    var handled := Handled(w, w.outbox[i].message);
    var after := handled.(outbox := MarkDispatched(handled.outbox, i));
    assert HandedOff(w, id);
    assert Unrepeated(after.settlements);
    forall other ensures Told(after, other) {
      assert Told(w, other);
      TimesMarked(w.outbox, i, Confirmed(other));
      TimesMarked(w.outbox, i, Breached(other));
      TimesMarked(w.outbox, i, Created(other));
      TimesMarked(w.outbox, i, Detected(other));
    }
    forall other ensures HandedOff(after, other) {
      assert HandedOff(w, other);
      DeliveredMarked(w.outbox, i, Confirmed(other));
    }
  }

  lemma DispatchKeepsSane(w: World, i: nat, fails: bool)
    requires w in Sane()
    ensures DispatchedOne(w, i, fails) in Sane()
  {
    if i < |w.outbox| && !w.outbox[i].dispatched && !fails {
      var m := w.outbox[i].message;
      if m.Confirmed? {
        HandOffKeepsSane(w, i);
      } else {
        if m.DepositReported? && Movable(w, m.reservation, m.status) != {} {
          var id :| id in Movable(w, m.reservation, m.status) && Handled(w, m) == Moved(w, id, m.status);
          MessageKeepsSane(w, id, Moved(w, id, m.status).sessions[id],
                           if m.status == Deposits.Confirmed then Confirmed(id) else Detected(id));
        }
        assert Handled(w, m) in Sane() && Handled(w, m).outbox[i] == w.outbox[i];
        MarkKeepsSane(Handled(w, m), i);
      }
    }
  }

  // ----- runs -----

  lemma CasKeepsSane(w: World, id: SessionId, from: Status, to: Status)
    requires w in Sane() && (SettlementMove(from, to) || (from in {Screening, ComplianceHold} && to == Rejected))
    ensures Cas(w, id, from, to) in Sane()
  {
    if id in w.sessions && w.sessions[id].status == from {
      RowKeepsSane(w, id, w.sessions[id].(status := to));
    }
  }

  lemma DoKeepsSane(w: World, step: Step)
    requires w in Sane()
    ensures Do(w, step) in Sane()
  {
    match step
    case Insert(id) => if id !in w.sessions { RowKeepsSane(w, id, Session(Screening, None, None, None, false)); }
    case Hold(id, c) =>
      if id in w.sessions && w.sessions[id].status == Screening {
        RowKeepsSane(w, id, w.sessions[id].(status := ComplianceHold, complianceCase := Some(c)));
      }
    case Reject(id, from) => if from in {Screening, ComplianceHold} { CasKeepsSane(w, id, from, Rejected); }
    case CloseCase(c) => CloseKeepsSane(w, c);
    case Reserve(r) => ReserveKeepsSane(w, r);
    case MakePending(id, from, lock, r) =>
      if MadePending(w, id, from, lock, r) != w {
        MessageKeepsSane(w, id, w.sessions[id].(status := Pending, lock := Some(lock), reservation := Some(r)),
                         Created(id));
      }
    case ExpirePreDeposit(due) => ExpiryKeepsSane(w, due, {Screening, Pending});
    case ExpireHolds(due) => ExpiryKeepsSane(w, due, {ComplianceHold});
    case MarkBreaches(due, rows) => if Lists(rows, Breaching(w, due)) { BreachesKeepSane(w, due, rows); }
    case Report(r) => ReportKeepsSane(w, r);
    case Dispatch(i, fails) => DispatchKeepsSane(w, i, fails);
    case Settlement(id, from, to) => if SettlementMove(from, to) { CasKeepsSane(w, id, from, to); }
  }

  lemma CloseKeepsSane(w: World, complianceCase: string)
    requires w in Sane()
    ensures w.(closed := w.closed + {complianceCase}) in Sane()
  {
    var after := w.(closed := w.closed + {complianceCase});
    forall other ensures Told(after, other) {
      assert Told(w, other);
    }
    forall other ensures HandedOff(after, other) {
      assert HandedOff(w, other);
    }
  }

  lemma ReserveKeepsSane(w: World, r: ReservationId)
    requires w in Sane()
    ensures w.(known := w.known + {r}) in Sane()
  {
    var after := w.(known := w.known + {r});
    forall other ensures Told(after, other) {
      assert Told(w, other);
    }
    forall other ensures HandedOff(after, other) {
      assert HandedOff(w, other);
    }
  }

  lemma SuccessorIsSane(w: World, w': World)
    requires w in Sane() && Succeeds(w, w')
    ensures w' in Sane()
  {
    var step :| w' == Do(w, step);
    DoKeepsSane(w, step);
  }

  lemma {:induction false} EveryRunIsSane(run: seq<World>, k: nat)
    requires run in Runs() && k < |run|
    ensures run[k] in Sane()
  {
    if k == 0 {
      forall id ensures Told(EMPTY_WORLD, id) && HandedOff(EMPTY_WORLD, id) {}
    } else {
      EveryRunIsSane(run, k - 1);
      assert Succeeds(run[k - 1], run[k]);
      SuccessorIsSane(run[k - 1], run[k]);
    }
  }
}
