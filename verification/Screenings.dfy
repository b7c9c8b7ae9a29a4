/**
 * Session creation and travel-rule screening in one model, statement by statement and in any interleaving: the sessions
 * of one tenant in the session table, next to everybody else's, with what each screening summed and decided.
 */
module Screenings {
  import opened Common
  import Deposits
  import opened Sessions
  import opened SessionStore
  import TravelRule

  /**
   * The i-th session of the tenant is ids[i], and book.rows[i] is what is known of its screening. Approvals and
   * rejections are the decisions that analysts have made.
   */
  datatype Joint = Joint(world: World, book: TravelRule.State, ids: seq<SessionId>, approvals: set<SessionId>,
                         rejections: set<SessionId>)

  const START := Joint(EMPTY_WORLD, TravelRule.START, [], {}, {})

  /** A corridor's threshold and window. */
  datatype Rule = Rule(threshold: real, window: nat)

  /**
   * The statements of CreateSession and ResolveComplianceHold for the tenant's sessions; anything else that happens to
   * the session table; and the clock.
   */
  datatype Statement =
    | InsertRow(id: SessionId, amount: real)
    | SumVolume(i: nat)
    | Screen(i: nat, provider: string, answer: Option<TravelRule.ProviderDecision>)
    | MoveOn(i: nat, complianceCase: string, lock: string, reservation: ReservationId)
    | DecideCase(i: nat, approved: bool)
    | Conclude(i: nat, lock: string, reservation: ReservationId)
    | Elsewhere(step: Step)
    | Pass(time: nat)

  function VerdictOf(status: TravelRule.CaseStatus): TravelRule.Verdict {
    match status
    case CaseHold => TravelRule.Held
    case CaseApproved => TravelRule.Approved
    case CaseRejected => TravelRule.Refused
  }

  /** Holds, rejections and pending transitions of the tenant's sessions are made by the statements above alone. */
  predicate Free(j: Joint, step: Step) {
    match step
    case Hold(id, _) => id !in j.ids
    case Reject(id, _) => id !in j.ids
    case MakePending(id, _, _, _) => id !in j.ids
    case _ => true
  }

  function Booked(j: Joint, rule: Rule, step: TravelRule.Step): Joint {
    j.(book := TravelRule.Do(j.book, rule.threshold, rule.window, step))
  }

  /** The session has this status. */
  predicate Is(j: Joint, i: nat, status: Status) {
    i < |j.ids| && j.ids[i] in j.world.sessions && j.world.sessions[j.ids[i]].status == status
  }

  /** The decision of a screening, carried out by a compare-and-set from screening. */
  function MovedOn(j: Joint, rule: Rule, i: nat, complianceCase: string, lock: string, r: ReservationId): Joint {
    if !Is(j, i, Screening) || i >= |j.book.rows| then j
    else
      match j.book.rows[i].verdict
      case Held => j.(world := Sessions.Held(j.world, j.ids[i], complianceCase))
      case Refused => Booked(j.(world := Cas(j.world, j.ids[i], Screening, Rejected)), rule, TravelRule.Reject(i))
      case Approved =>
        if Unused(j.world, r) then j.(world := Reserved(j.world, j.ids[i], Screening, lock, r)) else j
      case _ => j
  }

  /** An analyst's decision closes the case. */
  function Decided(j: Joint, i: nat, approved: bool): Joint {
    if i < |j.ids| && OpenHold(j.world, j.ids[i]) then
      var id := j.ids[i];
      j.(world := j.world.(closed := j.world.closed + {j.world.sessions[id].complianceCase.value}),
         approvals := if approved then j.approvals + {id} else j.approvals,
         rejections := if approved then j.rejections else j.rejections + {id})
    else j
  }

  /** And its session follows by a compare-and-set from the hold. */
  function Concluded(j: Joint, rule: Rule, i: nat, lock: string, r: ReservationId): Joint {
    if !Is(j, i, ComplianceHold) then j
    else if j.ids[i] in j.rejections then
      Booked(Booked(j.(world := Cas(j.world, j.ids[i], ComplianceHold, Rejected)), rule, TravelRule.Review(i, false)),
             rule, TravelRule.Reject(i))
    else if j.ids[i] in j.approvals && Unused(j.world, r) then
      Booked(j.(world := Reserved(j.world, j.ids[i], ComplianceHold, lock, r)), rule, TravelRule.Review(i, true))
    else j
  }

  ghost function Run(j: Joint, rule: Rule, statement: Statement): Joint {
    match statement
    case InsertRow(id, amount) =>
      if id !in j.world.sessions && amount >= 0.0 then
        Booked(j.(world := Inserted(j.world, id), ids := j.ids + [id]), rule, TravelRule.Insert(amount))
      else j
    case SumVolume(i) => Booked(j, rule, TravelRule.Screen(i))
    case Screen(i, provider, answer) =>
      if i < |j.book.rows| && j.book.rows[i].screening.Some? then
        match TravelRule.Outcome(j.book.rows[i].screening.value.hit, provider, answer)
        case None => j
        case Some(status) => Booked(j, rule, TravelRule.Decide(i, VerdictOf(status)))
      else j
    case MoveOn(i, c, lock, r) => MovedOn(j, rule, i, c, lock, r)
    case DecideCase(i, approved) => Decided(j, i, approved)
    case Conclude(i, lock, r) => Concluded(j, rule, i, lock, r)
    case Elsewhere(step) => if Free(j, step) then j.(world := Do(j.world, step)) else j
    case Pass(time) => Booked(j, rule, TravelRule.Tick(time))
  }

  ghost function From(j: Joint, rule: Rule, statements: seq<Statement>): Joint {
    if statements == [] then j
    else Run(From(j, rule, statements[..|statements| - 1]), rule, statements[|statements| - 1])
  }

  ghost function After(rule: Rule, statements: seq<Statement>): Joint {
    From(START, rule, statements)
  }

  // ----- what every interleaving keeps -----

  /** Past screening and holds, towards a payout or beyond. */
  predicate Going(status: Status) {
    status in {Pending, DepositDetected} || Past(status)
  }

  /** What a session's status says of its screening. */
  predicate RowFits(status: Status, row: TravelRule.Row, approved: bool) {
    && (row.rejected <==> status == Rejected)
    && (status == ComplianceHold ==> row.verdict == TravelRule.Held)
    && (row.verdict == TravelRule.Approved ==> row.screening.Some? && !row.screening.value.hit)
    && (Going(status) ==> row.verdict == TravelRule.Approved || approved)
    && (row.rejected ==> row.verdict == TravelRule.Refused)
    && (row.verdict == TravelRule.ByAnalyst ==> approved)
  }

  /** A session that was decided on was held, and has its case closed. */
  predicate CaseFits(w: World, s: Session, decided: bool) {
    decided ==> s.status != Screening && s.complianceCase.Some? && s.complianceCase.value in w.closed
  }

  predicate FitsAt(j: Joint, i: nat)
    requires i < |j.ids| == |j.book.rows|
  {
    && j.ids[i] in j.world.sessions
    && RowFits(j.world.sessions[j.ids[i]].status, j.book.rows[i], j.ids[i] in j.approvals)
    && CaseFits(j.world, j.world.sessions[j.ids[i]], j.ids[i] in j.approvals || j.ids[i] in j.rejections)
  }

  ghost predicate Fits(j: Joint) {
    && |j.ids| == |j.book.rows| && Unrepeated(j.ids)
    && (forall id | id in j.approvals || id in j.rejections :: id in j.ids)
    && forall i: nat | i < |j.ids| :: FitsAt(j, i)
  }

  ghost function Fitting(): iset<Joint> {
    iset j: Joint | Fits(j)
  }

  lemma InsertFits(j: Joint, rule: Rule, id: SessionId, amount: real)
    requires j in Fitting()
    ensures Run(j, rule, InsertRow(id, amount)) in Fitting()
  {
    var after := Run(j, rule, InsertRow(id, amount));
    if id !in j.world.sessions && amount >= 0.0 {
      forall i: nat | i < |j.ids| ensures j.ids[i] != id && FitsAt(after, i) {
        assert FitsAt(j, i);
      }
      assert FitsAt(after, |j.ids|);
    }
  }

  /** A statement about one session leaves the others alone. */
  lemma RowChanges(j: Joint, after: Joint, i: nat)
    requires j in Fitting() && i < |j.ids|
    requires after.ids == j.ids && |after.book.rows| == |j.book.rows|
    requires forall k: nat | k < |j.ids| && k != i :: after.book.rows[k] == j.book.rows[k]
    requires forall id | id in j.world.sessions && id != j.ids[i] ::
               id in after.world.sessions && after.world.sessions[id] == j.world.sessions[id]
    requires forall id | id != j.ids[i] ::
               (id in after.approvals <==> id in j.approvals) && (id in after.rejections <==> id in j.rejections)
    requires j.world.closed <= after.world.closed
    requires FitsAt(after, i)
    ensures after in Fitting()
  {
    forall k: nat | k < |j.ids| ensures FitsAt(after, k) {
      assert FitsAt(j, k);
      assert k != i ==> j.ids[k] != j.ids[i];
    }
  }

  lemma SumFits(j: Joint, rule: Rule, i: nat)
    requires j in Fitting()
    ensures Run(j, rule, SumVolume(i)) in Fitting()
  {
    if i < |j.ids| {
      assert FitsAt(j, i);
      RowChanges(j, Run(j, rule, SumVolume(i)), i);
    }
  }

  lemma ScreenFits(j: Joint, rule: Rule, i: nat, provider: string, answer: Option<TravelRule.ProviderDecision>)
    requires j in Fitting()
    ensures Run(j, rule, Screen(i, provider, answer)) in Fitting()
  {
    if i < |j.ids| {
      assert FitsAt(j, i);
      RowChanges(j, Run(j, rule, Screen(i, provider, answer)), i);
    }
  }

  lemma MoveOnFits(j: Joint, rule: Rule, i: nat, c: string, lock: string, r: ReservationId)
    requires j in Fitting()
    ensures MovedOn(j, rule, i, c, lock, r) in Fitting()
  {
    if i < |j.ids| {
      assert FitsAt(j, i);
      RowChanges(j, MovedOn(j, rule, i, c, lock, r), i);
    }
  }

  lemma DecideFits(j: Joint, i: nat, approved: bool)
    requires j in Fitting()
    ensures Decided(j, i, approved) in Fitting()
  {
    if i < |j.ids| {
      assert FitsAt(j, i);
      RowChanges(j, Decided(j, i, approved), i);
    }
  }

  lemma ConcludeFits(j: Joint, rule: Rule, i: nat, lock: string, r: ReservationId)
    requires j in Fitting()
    ensures Concluded(j, rule, i, lock, r) in Fitting()
  {
    if i < |j.ids| {
      assert FitsAt(j, i);
      RowChanges(j, Concluded(j, rule, i, lock, r), i);
    }
  }

  /** What the TTL job, deposits and settlement may do to a status. */
  predicate Drifts(from: Status, to: Status) {
    from == to || (from in {Screening, Pending, ComplianceHold} && to == Expired) || (Going(from) && Going(to))
  }

  lemma DispatchDrifts(w: World, i: nat, fails: bool, id: SessionId)
    requires id in w.sessions
    ensures id in DispatchedOne(w, i, fails).sessions
            && Drifts(w.sessions[id].status, DispatchedOne(w, i, fails).sessions[id].status)
            && DispatchedOne(w, i, fails).sessions[id].complianceCase == w.sessions[id].complianceCase
            && DispatchedOne(w, i, fails).closed == w.closed
  {
    if i < |w.outbox| && !w.outbox[i].dispatched && !fails {
      var m := w.outbox[i].message;
      if m.DepositReported? && Movable(w, m.reservation, m.status) != {} {
        var moved :| moved in Movable(w, m.reservation, m.status) && Handled(w, m) == Moved(w, moved, m.status);
      }
    }
  }

  lemma FreeDrifts(j: Joint, step: Step, id: SessionId)
    requires Free(j, step) && id in j.ids && id in j.world.sessions
    ensures id in Do(j.world, step).sessions
            && Drifts(j.world.sessions[id].status, Do(j.world, step).sessions[id].status)
            && Do(j.world, step).sessions[id].complianceCase == j.world.sessions[id].complianceCase
            && j.world.closed <= Do(j.world, step).closed
  {
    match step
    case Dispatch(i, fails) => DispatchDrifts(j.world, i, fails, id);
    case MakePending(_, _, _, _) =>
    case MarkBreaches(_, _) =>
    case Insert(_) =>
    case Hold(_, _) =>
    case Reject(_, _) =>
    case CloseCase(_) =>
    case Reserve(_) =>
    case Report(_) =>
    case ExpirePreDeposit(_) =>
    case ExpireHolds(_) =>
    case Settlement(_, _, _) =>
  }

  lemma DriftFits(from: Status, to: Status, row: TravelRule.Row, approved: bool)
    requires RowFits(from, row, approved) && Drifts(from, to)
    ensures RowFits(to, row, approved)
  {
  }

  lemma ElsewhereFits(j: Joint, rule: Rule, step: Step)
    requires j in Fitting()
    ensures Run(j, rule, Elsewhere(step)) in Fitting()
  {
    if Free(j, step) {
      var after := Run(j, rule, Elsewhere(step));
      forall i: nat | i < |j.ids| ensures FitsAt(after, i) {
        assert FitsAt(j, i);
        FreeDrifts(j, step, j.ids[i]);
        DriftFits(j.world.sessions[j.ids[i]].status, after.world.sessions[j.ids[i]].status, j.book.rows[i],
                  j.ids[i] in j.approvals);
      }
    }
  }

  lemma PassFits(j: Joint, rule: Rule, time: nat)
    requires j in Fitting()
    ensures Run(j, rule, Pass(time)) in Fitting()
  {
    forall i: nat | i < |j.ids| ensures FitsAt(Run(j, rule, Pass(time)), i) {
      assert FitsAt(j, i);
    }
  }

  lemma RunFits(j: Joint, rule: Rule, statement: Statement)
    requires j in Fitting()
    ensures Run(j, rule, statement) in Fitting()
  {
    match statement
    case InsertRow(id, amount) => InsertFits(j, rule, id, amount);
    case SumVolume(i) => SumFits(j, rule, i);
    case Screen(i, provider, answer) => ScreenFits(j, rule, i, provider, answer);
    case MoveOn(i, c, lock, r) => MoveOnFits(j, rule, i, c, lock, r);
    case DecideCase(i, approved) => DecideFits(j, i, approved);
    case Conclude(i, lock, r) => ConcludeFits(j, rule, i, lock, r);
    case Elsewhere(step) => ElsewhereFits(j, rule, step);
    case Pass(time) => PassFits(j, rule, time);
  }

  lemma {:induction false} EveryInterleavingFits(rule: Rule, statements: seq<Statement>)
    ensures After(rule, statements) in Fitting()
  {
    if statements != [] {
      EveryInterleavingFits(rule, statements[..|statements| - 1]);
      RunFits(After(rule, statements[..|statements| - 1]), rule, statements[|statements| - 1]);
    }
  }

  // ----- what a screening sums -----

  /** The amounts of the tenant's first n sessions that were not rejected and not created before a time. */
  function Volume(j: Joint, since: int, n: nat): real
    requires n <= |j.ids| == |j.book.rows| && forall i: nat | i < |j.ids| :: j.ids[i] in j.world.sessions
  {
    if n == 0 then 0.0
    else
      var row := j.book.rows[n - 1];
      Volume(j, since, n - 1)
      + (if j.world.sessions[j.ids[n - 1]].status != Rejected && row.createdAt >= since then row.amount else 0.0)
  }

  lemma Rowed(j: Joint)
    requires j in Fitting()
    ensures |j.ids| == |j.book.rows| && forall i: nat | i < |j.ids| :: j.ids[i] in j.world.sessions
  {
    forall i: nat | i < |j.ids| ensures j.ids[i] in j.world.sessions {
      assert FitsAt(j, i);
    }
  }

  /** The book's sum is the sum over the session table. */
  lemma {:induction false} SumIsVolume(j: Joint, since: int, n: nat)
    requires j in Fitting() && n <= |j.ids| == |j.book.rows|
    requires forall i: nat | i < |j.ids| :: j.ids[i] in j.world.sessions
    ensures Sum(j.book.rows[..n], TravelRule.Counted(since)) == Volume(j, since, n)
  {
    if n > 0 {
      SumIsVolume(j, since, n - 1);
      assert j.book.rows[..n][..n - 1] == j.book.rows[..n - 1];
      assert FitsAt(j, n - 1);
    }
  }

  /** The volume of the window that ends now, with the session's own amount on top, is not below the threshold. */
  ghost predicate OverThreshold(j: Joint, rule: Rule, i: nat) {
    && i < |j.ids| == |j.book.rows| && (forall k: nat | k < |j.ids| :: j.ids[k] in j.world.sessions)
    && Volume(j, j.book.now - rule.window, |j.ids|) + j.book.rows[i].amount >= rule.threshold
  }

  /** What the first summing of a session's volume writes down: a hit exactly when the volume is over the threshold. */
  lemma HitIffOverThreshold(rule: Rule, statements: seq<Statement>, i: nat)
    requires var j := After(rule, statements); i < |j.ids| == |j.book.rows| && j.book.rows[i].screening == None
    ensures var j := After(rule, statements);
            Run(j, rule, SumVolume(i))
            == j.(book := j.book.(rows := j.book.rows[i := j.book.rows[i].(screening :=
                    Some(TravelRule.Screening(j.book.now, j.book.screened, OverThreshold(j, rule, i))))],
                  screened := j.book.screened + 1))
  {
    var j := After(rule, statements);
    EveryInterleavingFits(rule, statements);
    Rowed(j);
    SumIsVolume(j, j.book.now - rule.window, |j.ids|);
    assert j.book.rows[..|j.ids|] == j.book.rows;
  }

  // ----- over the threshold -----

  /** In the k-th statement an analyst approves the open case of the session. */
  ghost predicate ApprovesAt(rule: Rule, statements: seq<Statement>, k: nat, id: SessionId) {
    && k < |statements| && statements[k].DecideCase? && statements[k].approved
    && var j := After(rule, statements[..k]);
       statements[k].i < |j.ids| && j.ids[statements[k].i] == id && OpenHold(j.world, id)
  }

  ghost predicate Approved(rule: Rule, statements: seq<Statement>, id: SessionId) {
    exists k: nat :: ApprovesAt(rule, statements, k, id)
  }

  lemma ApprovedBefore(rule: Rule, statements: seq<Statement>, id: SessionId)
    requires statements != [] && Approved(rule, statements[..|statements| - 1], id)
    ensures Approved(rule, statements, id)
  {
    var before := statements[..|statements| - 1];
    var k: nat :| ApprovesAt(rule, before, k, id);
    assert before[..k] == statements[..k];
    assert ApprovesAt(rule, statements, k, id);
  }

  lemma {:induction false} ApprovalsAreMade(rule: Rule, statements: seq<Statement>, id: SessionId)
    requires id in After(rule, statements).approvals
    ensures Approved(rule, statements, id)
  {
    if statements == [] {
      assert false;
    } else {
      var last := |statements| - 1;
      var j := After(rule, statements[..last]);
      if id in j.approvals {
        ApprovalsAreMade(rule, statements[..last], id);
        ApprovedBefore(rule, statements, id);
      } else {
        assert ApprovesAt(rule, statements, last, id);
      }
    }
  }

  /** The i-th session was screened with a hit. */
  predicate Hit(j: Joint, i: nat, id: SessionId) {
    && i < |j.ids| && i < |j.book.rows| && j.ids[i] == id
    && j.book.rows[i].screening.Some? && j.book.rows[i].screening.value.hit
  }

  lemma HitStays(j: Joint, rule: Rule, statement: Statement, i: nat, id: SessionId)
    requires Hit(j, i, id)
    ensures Hit(Run(j, rule, statement), i, id)
  {
  }

  lemma {:induction false} HitStaysOn(j: Joint, rule: Rule, statements: seq<Statement>, i: nat, id: SessionId)
    requires Hit(j, i, id)
    ensures Hit(From(j, rule, statements), i, id)
  {
    if statements != [] {
      HitStaysOn(j, rule, statements[..|statements| - 1], i, id);
      HitStays(From(j, rule, statements[..|statements| - 1]), rule, statements[|statements| - 1], i, id);
    }
  }

  lemma {:induction false} FromAppend(j: Joint, rule: Rule, statements: seq<Statement>, more: seq<Statement>)
    ensures From(j, rule, statements + more) == From(From(j, rule, statements), rule, more)
    decreases |more|
  {
    if more == [] {
      assert statements + more == statements;
    } else {
      assert (statements + more)[..|statements + more| - 1] == statements + more[..|more| - 1];
      FromAppend(j, rule, statements, more[..|more| - 1]);
    }
  }

  lemma HitNeedsApproval(j: Joint, i: nat, id: SessionId)
    requires j in Fitting() && Hit(j, i, id) && id in j.world.sessions && Going(j.world.sessions[id].status)
    ensures id in j.approvals
  {
    assert FitsAt(j, i);
  }

  /**
   * A session whose volume was over the threshold when it was summed is never pending, nor anything after that, unless
   * an analyst has approved its open case: whatever providers say, in every interleaving of requests, screenings,
   * decisions, deposits, expiries and settlements, its own and those of all other sessions.
   */
  lemma OverThresholdNeedsAnalyst(rule: Rule, before: seq<Statement>, i: nat, after: seq<Statement>, id: SessionId)
    requires var j := After(rule, before);
             OverThreshold(j, rule, i) && j.ids[i] == id && j.book.rows[i].screening == None
    requires var end := After(rule, before + [SumVolume(i)] + after);
             id in end.world.sessions && Going(end.world.sessions[id].status)
    ensures Approved(rule, before + [SumVolume(i)] + after, id)
  {
    var summed := before + [SumVolume(i)];
    HitIffOverThreshold(rule, before, i);
    assert summed[..|before|] == before;
    assert Hit(After(rule, summed), i, id);
    FromAppend(START, rule, summed, after);
    HitStaysOn(After(rule, summed), rule, after, i, id);
    EveryInterleavingFits(rule, summed + after);
    HitNeedsApproval(After(rule, summed + after), i, id);
    ApprovalsAreMade(rule, summed + after, id);
  }

  // ----- the calls are their statements -----

  /** The decision that a screening gives to the request. */
  function DecisionOf(outcome: Option<TravelRule.CaseStatus>, complianceCase: string): Decision {
    match outcome
    case Some(CaseHold) => HoldFor(complianceCase)
    case Some(CaseRejected) => Refuse
    case _ => Approve
  }

  /** The joint state after the row was inserted, its volume summed, and a verdict given. */
  function Screened(j: Joint, id: SessionId, amount: real, verdict: TravelRule.Verdict, hit: bool): Joint {
    j.(world := Inserted(j.world, id), ids := j.ids + [id],
       book := j.book.(rows := j.book.rows + [TravelRule.Row(amount, j.book.now, false,
           Some(TravelRule.Screening(j.book.now, j.book.screened, hit)), verdict)], screened := j.book.screened + 1))
  }

  lemma {:induction false} VolumeOfInserted(j: Joint, since: int, id: SessionId, row: TravelRule.Row, n: nat)
    requires n <= |j.ids| == |j.book.rows| && id !in j.world.sessions
    requires forall i: nat | i < |j.ids| :: j.ids[i] in j.world.sessions
    ensures var after := j.(world := Inserted(j.world, id), ids := j.ids + [id],
                            book := j.book.(rows := j.book.rows + [row]));
            Volume(after, since, n) == Volume(j, since, n)
  {
    if n > 0 {
      VolumeOfInserted(j, since, id, row, n - 1);
    }
  }

  /** The request's own amount counts twice: as a row, and on top. */
  ghost predicate RequestOver(j: Joint, rule: Rule, amount: real)
    requires |j.ids| == |j.book.rows| && forall i: nat | i < |j.ids| :: j.ids[i] in j.world.sessions
  {
    Volume(j, j.book.now - rule.window, |j.ids|) + amount + amount >= rule.threshold
  }

  lemma RowIsSummed(j: Joint, rule: Rule, id: SessionId, amount: real)
    requires j in Fitting() && |j.ids| == |j.book.rows| && forall i: nat | i < |j.ids| :: j.ids[i] in j.world.sessions
    requires id !in j.world.sessions && amount >= 0.0
    ensures Run(Run(j, rule, InsertRow(id, amount)), rule, SumVolume(|j.ids|))
            == Screened(j, id, amount, TravelRule.Undecided, RequestOver(j, rule, amount))
  {
    var inserted, n, since := Run(j, rule, InsertRow(id, amount)), |j.ids|, j.book.now - rule.window;
    RunFits(j, rule, InsertRow(id, amount));
    Rowed(inserted);
    SumIsVolume(inserted, since, n + 1);
    VolumeOfInserted(j, since, id, TravelRule.Row(amount, j.book.now, false, None, TravelRule.Undecided), n);
    assert inserted.book.rows[..n + 1] == inserted.book.rows;
  }

  lemma VerdictIsGiven(j: Joint, rule: Rule, id: SessionId, amount: real, hit: bool, provider: string,
                       answer: Option<TravelRule.ProviderDecision>)
    requires |j.ids| == |j.book.rows|
    ensures var outcome := TravelRule.Outcome(hit, provider, answer);
            Run(Screened(j, id, amount, TravelRule.Undecided, hit), rule, Screen(|j.ids|, provider, answer))
            == Screened(j, id, amount, if outcome == None then TravelRule.Undecided else VerdictOf(outcome.value), hit)
  {
    var summed := Screened(j, id, amount, TravelRule.Undecided, hit);
    var n := |j.ids|;
    var outcome := TravelRule.Outcome(hit, provider, answer);
    if outcome.Some? {
      var row := summed.book.rows[n].(verdict := VerdictOf(outcome.value));
      assert summed.book.rows[n := row] == j.book.rows + [row];
    }
  }

  /** CreateSession without anybody else: what its statements leave, up to the verdict. */
  function ScreeningOf(id: SessionId, amount: real, n: nat, provider: string,
                       answer: Option<TravelRule.ProviderDecision>): seq<Statement> {
    [InsertRow(id, amount), SumVolume(n), Screen(n, provider, answer)]
  }

  lemma ScreeningRuns(j: Joint, rule: Rule, id: SessionId, amount: real, n: nat, provider: string,
                      answer: Option<TravelRule.ProviderDecision>)
    ensures From(j, rule, ScreeningOf(id, amount, n, provider, answer))
            == Run(Run(Run(j, rule, InsertRow(id, amount)), rule, SumVolume(n)), rule, Screen(n, provider, answer))
  {
    var insert, sum, screen := [InsertRow(id, amount)], [SumVolume(n)], [Screen(n, provider, answer)];
    assert ScreeningOf(id, amount, n, provider, answer) == insert + sum + screen;
    FromAppend(j, rule, insert + sum, screen);
    FromAppend(j, rule, insert, sum);
    assert insert[..0] == [] && sum[..0] == [] && screen[..0] == [];
  }

  /** The last statement makes of the inserted row what the request's verdict says. */
  lemma MoveIsRequested(j: Joint, rule: Rule, id: SessionId, amount: real, hit: bool,
                        outcome: Option<TravelRule.CaseStatus>, c: string, lock: string, r: ReservationId)
    requires |j.ids| == |j.book.rows| && id !in j.world.sessions && Unused(j.world, r)
    ensures var verdict := if outcome == None then TravelRule.Undecided else VerdictOf(outcome.value);
            MovedOn(Screened(j, id, amount, verdict, hit), rule, |j.ids|, c, lock, r).world
            == Requested(j.world, id, Checks(true, true, true, outcome.Some?, true), DecisionOf(outcome, c), lock, r)
  {
  }

  /**
   * A request that runs alone is what its statements come to. It is held exactly when the volume with its amount is
   * over the threshold or no provider decides, and otherwise goes where the provider says; a rate that cannot be locked
   * leaves out the last statement.
   */
  lemma RequestIsItsStatements(j: Joint, rule: Rule, id: SessionId, amount: real, provider: string,
                               answer: Option<TravelRule.ProviderDecision>, c: string, lock: string, r: ReservationId)
    requires j in Fitting() && |j.ids| == |j.book.rows| && forall i: nat | i < |j.ids| :: j.ids[i] in j.world.sessions
    requires id !in j.world.sessions && amount >= 0.0 && Unused(j.world, r)
    ensures var outcome := TravelRule.Outcome(RequestOver(j, rule, amount), provider, answer);
            var screened := From(j, rule, ScreeningOf(id, amount, |j.ids|, provider, answer));
            && Run(screened, rule, MoveOn(|j.ids|, c, lock, r)).world
               == Requested(j.world, id, Checks(true, true, true, outcome.Some?, true), DecisionOf(outcome, c), lock, r)
            && screened.world
               == Requested(j.world, id, Checks(true, true, true, outcome.Some?, false), Approve, lock, r)
  {
    var hit := RequestOver(j, rule, amount);
    ScreeningRuns(j, rule, id, amount, |j.ids|, provider, answer);
    RowIsSummed(j, rule, id, amount);
    VerdictIsGiven(j, rule, id, amount, hit, provider, answer);
    MoveIsRequested(j, rule, id, amount, hit, TravelRule.Outcome(hit, provider, answer), c, lock, r);
  }

  /** An analyst's decision alone is its two statements; a rate that cannot be locked leaves out the second. */
  lemma DecisionIsItsStatements(j: Joint, rule: Rule, i: nat, approved: bool, lock: string, r: ReservationId)
    requires j in Fitting() && i < |j.ids| && OpenHold(j.world, j.ids[i]) && Unused(j.world, r)
    ensures var decided := Run(j, rule, DecideCase(i, approved));
            && Run(decided, rule, Conclude(i, lock, r)).world == Resolved(j.world, j.ids[i], approved, true, lock, r)
            && (approved ==> decided.world == Resolved(j.world, j.ids[i], true, false, lock, r))
  {
    assert FitsAt(j, i);
  }

  // ----- what goes on without an analyst -----

  /** The amounts of the tenant's first n sessions that are on their way without an analyst's approval. */
  function Unreviewed(j: Joint, since: int, n: nat): real
    requires n <= |j.ids| == |j.book.rows| && forall i: nat | i < |j.ids| :: j.ids[i] in j.world.sessions
  {
    if n == 0 then 0.0
    else
      var row, id := j.book.rows[n - 1], j.ids[n - 1];
      Unreviewed(j, since, n - 1)
      + (if Going(j.world.sessions[id].status) && id !in j.approvals && row.createdAt >= since then row.amount else 0.0)
  }

  lemma {:induction false} UnreviewedIsApproved(j: Joint, since: int, n: nat)
    requires j in Fitting() && n <= |j.ids| == |j.book.rows|
    requires forall i: nat | i < |j.ids| :: j.ids[i] in j.world.sessions && j.book.rows[i].amount >= 0.0
    ensures Unreviewed(j, since, n) <= Sum(j.book.rows[..n], TravelRule.ApprovedVolume(since))
  {
    if n > 0 {
      UnreviewedIsApproved(j, since, n - 1);
      assert j.book.rows[..n][..n - 1] == j.book.rows[..n - 1];
      assert FitsAt(j, n - 1);
    }
  }

  ghost predicate IsBookRun(rule: Rule, book: TravelRule.State) {
    exists steps :: book == TravelRule.After(rule.threshold, rule.window, steps)
  }

  lemma OneMoreBooked(rule: Rule, book: TravelRule.State, step: TravelRule.Step)
    requires IsBookRun(rule, book)
    ensures IsBookRun(rule, TravelRule.Do(book, rule.threshold, rule.window, step))
  {
    var steps :| book == TravelRule.After(rule.threshold, rule.window, steps);
    assert (steps + [step])[..|steps|] == steps;
    assert TravelRule.After(rule.threshold, rule.window, steps + [step])
           == TravelRule.Do(book, rule.threshold, rule.window, step);
  }

  lemma RunIsBooked(j: Joint, rule: Rule, statement: Statement)
    requires IsBookRun(rule, j.book)
    ensures IsBookRun(rule, Run(j, rule, statement).book)
  {
    match statement
    case InsertRow(_, amount) => OneMoreBooked(rule, j.book, TravelRule.Insert(amount));
    case SumVolume(i) => OneMoreBooked(rule, j.book, TravelRule.Screen(i));
    case Screen(i, provider, answer) =>
      if i < |j.book.rows| && j.book.rows[i].screening.Some? {
        var outcome := TravelRule.Outcome(j.book.rows[i].screening.value.hit, provider, answer);
        if outcome.Some? {
          OneMoreBooked(rule, j.book, TravelRule.Decide(i, VerdictOf(outcome.value)));
        }
      }
    case MoveOn(i, _, _, _) => OneMoreBooked(rule, j.book, TravelRule.Reject(i));
    case Conclude(i, _, _) =>
      OneMoreBooked(rule, j.book, TravelRule.Review(i, true));
      OneMoreBooked(rule, j.book, TravelRule.Review(i, false));
      OneMoreBooked(rule, TravelRule.Do(j.book, rule.threshold, rule.window, TravelRule.Review(i, false)),
                    TravelRule.Reject(i));
    case Pass(time) => OneMoreBooked(rule, j.book, TravelRule.Tick(time));
    case DecideCase(_, _) =>
    case Elsewhere(_) =>
  }

  lemma {:induction false} EveryRunIsBooked(rule: Rule, statements: seq<Statement>)
    ensures IsBookRun(rule, After(rule, statements).book)
  {
    if statements == [] {
      assert TravelRule.After(rule.threshold, rule.window, []) == START.book;
    } else {
      EveryRunIsBooked(rule, statements[..|statements| - 1]);
      RunIsBooked(After(rule, statements[..|statements| - 1]), rule, statements[|statements| - 1]);
    }
  }

  /**
   * What is pending or further without an analyst's approval, of the sessions created within one window that ends at
   * the last approving screening, is below the threshold, even with that screening's own amount once more.
   */
  lemma UnreviewedStaysBelow(rule: Rule, statements: seq<Statement>, last: nat)
    requires TravelRule.LastApproved(After(rule, statements).book, last)
    ensures var j := After(rule, statements);
            && |j.ids| == |j.book.rows| && (forall i: nat | i < |j.ids| :: j.ids[i] in j.world.sessions)
            && Unreviewed(j, j.book.rows[last].screening.value.at - rule.window, |j.ids|) + j.book.rows[last].amount
               < rule.threshold
  {
    var j := After(rule, statements);
    EveryInterleavingFits(rule, statements);
    EveryRunIsBooked(rule, statements);
    Rowed(j);
    ApprovedInBook(rule, j.book, last);
    UnreviewedIsApproved(j, j.book.rows[last].screening.value.at - rule.window, |j.ids|);
    assert j.book.rows[..|j.ids|] == j.book.rows;
  }

  lemma ApprovedInBook(rule: Rule, book: TravelRule.State, last: nat)
    requires IsBookRun(rule, book) && TravelRule.LastApproved(book, last)
    ensures forall i: nat | i < |book.rows| :: book.rows[i].amount >= 0.0
    ensures Sum(book.rows, TravelRule.ApprovedVolume(book.rows[last].screening.value.at - rule.window))
            + book.rows[last].amount < rule.threshold
  {
    var steps :| book == TravelRule.After(rule.threshold, rule.window, steps);
    TravelRule.EveryRunIsBounded(rule.threshold, rule.window, steps);
    TravelRule.ApprovedStaysBelowThreshold(rule.threshold, rule.window, steps, last);
    forall i: nat | i < |book.rows| ensures book.rows[i].amount >= 0.0 {
      assert TravelRule.RowOk(book, book.rows[i]);
    }
  }
}
