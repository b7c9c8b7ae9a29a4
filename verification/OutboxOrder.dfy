/** What the dispatcher reaches: which events a batch dispatches, and what one that always fails holds back. */
module OutboxOrder {
  import opened Common
  import Deposits
  import opened Sessions
  import opened SessionRuns
  import opened SessionStore

  /** How many events wait. */
  function Waiting(outbox: seq<Entry>): nat {
    if outbox == [] then 0
    else Waiting(outbox[..|outbox| - 1]) + (if outbox[|outbox| - 1].dispatched then 0 else 1)
  }

  /** The i-th event waits, and its handler would fail. */
  predicate Stuck(outbox: seq<Entry>, i: nat, failing: set<nat>) {
    i < |outbox| && !outbox[i].dispatched && i in failing
  }

  lemma {:induction false} NoneWaiting(outbox: seq<Entry>)
    requires forall k | 0 <= k < |outbox| :: outbox[k].dispatched
    ensures Waiting(outbox) == 0
  {
    if outbox != [] {
      NoneWaiting(outbox[..|outbox| - 1]);
    }
  }

  lemma {:induction false} WaitingMarked(outbox: seq<Entry>, i: nat)
    requires i < |outbox| && !outbox[i].dispatched
    ensures Waiting(MarkDispatched(outbox, i)) == Waiting(outbox) - 1
  {
    var last := |outbox| - 1;
    if i == last {
      assert MarkDispatched(outbox, i)[..last] == outbox[..last];
    } else {
      assert MarkDispatched(outbox, i)[..last] == MarkDispatched(outbox[..last], i);
      WaitingMarked(outbox[..last], i);
    }
  }

  /** One dispatch marks its own event; what its handlers publish comes after everything else. */
  lemma DispatchMarks(w: World, i: nat)
    requires i < |w.outbox| && !w.outbox[i].dispatched
    ensures var after := DispatchedOne(w, i, false).outbox;
            && |w.outbox| <= |after| && after[..|w.outbox|] == MarkDispatched(w.outbox, i)
            && forall k | |w.outbox| <= k < |after| :: !after[k].dispatched && !after[k].message.DepositReported?
  {
    HandlersAppend(w, w.outbox[i].message);
  }

  lemma HandlersAppend(w: World, m: Message)
    ensures var after := Handled(w, m).outbox;
            && |w.outbox| <= |after| && after[..|w.outbox|] == w.outbox
            && forall k | |w.outbox| <= k < |after| :: !after[k].dispatched && !after[k].message.DepositReported?
  {
    if m.DepositReported? && Movable(w, m.reservation, m.status) != {} {
      var id :| id in Movable(w, m.reservation, m.status) && Handled(w, m) == Moved(w, id, m.status);
    }
  }

  /** What one dispatch leaves of the outbox. */
  predicate Marks(outbox: seq<Entry>, after: seq<Entry>, i: nat) {
    && i < |outbox| <= |after| && after[..|outbox|] == MarkDispatched(outbox, i)
    && forall k | |outbox| <= k < |after| :: !after[k].dispatched
  }

  /** The first round of a batch, and what is left to do. */
  lemma Round(w: World, size: nat, failing: set<nat>, end: World) returns (next: World)
    requires size > 0 && end in Results(w, size, failing)
    ensures var i := Oldest(w.outbox);
            if i < |w.outbox| && i !in failing
                then end in Results(next, size - 1, failing) && Marks(w.outbox, next.outbox, i)
            else end == w
  {
    var i := Oldest(w.outbox);
    next := DispatchedOne(w, i, i in failing);
    if i < |w.outbox| && i !in failing {
      DispatchMarks(w, i);
    }
    ResultsUnfold(w, size, failing, next, end);
  }

  lemma MarksAt(outbox: seq<Entry>, after: seq<Entry>, i: nat, j: nat)
    requires Marks(outbox, after, i) && j < |outbox|
    ensures after[j].message == outbox[j].message && (after[j].dispatched <==> outbox[j].dispatched || i == j)
  {
    assert after[..|outbox|][j] == after[j];
  }

  /** A batch changes no message, and takes no mark back. */
  lemma {:induction false} BatchKeepsEvents(w: World, size: nat, failing: set<nat>, j: nat, end: World)
    requires j < |w.outbox| && end in Results(w, size, failing)
    ensures j < |end.outbox| && end.outbox[j].message == w.outbox[j].message
    ensures w.outbox[j].dispatched ==> end.outbox[j].dispatched
    decreases size
  {
    if size == 0 {
      ResultsEnd(w, failing, end);
    } else {
      var next := Round(w, size, failing, end);
      var i := Oldest(w.outbox);
      if i < |w.outbox| && i !in failing {
        MarksAt(w.outbox, next.outbox, i, j);
        BatchKeepsEvents(next, size - 1, failing, j, end);
      }
    }
  }

  /**
   * The outboxes in which no event up to and including the j-th is stuck, and fewer than a batch of them wait before
   * it.
   */
  ghost function InReach(j: nat, size: int, failing: set<nat>): iset<seq<Entry>> {
    iset outbox: seq<Entry> |
      j < |outbox| && (forall i | 0 <= i <= j :: !Stuck(outbox, i, failing)) && Waiting(outbox[..j]) < size
  }

  lemma StuckIsOutOfReach(outbox: seq<Entry>, i: nat, j: nat, size: int, failing: set<nat>)
    requires Stuck(outbox, i, failing) && i <= j
    ensures outbox !in InReach(j, size, failing)
  {
  }

  lemma OldestIsInReach(outbox: seq<Entry>, j: nat, size: nat, failing: set<nat>)
    requires j < |outbox| && j == Oldest(outbox) && j !in failing && size > 0
    ensures outbox in InReach(j, size, failing)
  {
    NoneWaiting(outbox[..j]);
  }

  lemma NothingInReach(outbox: seq<Entry>, j: nat, failing: set<nat>)
    ensures outbox !in InReach(j, 0, failing)
  {
  }

  /** The oldest event itself goes in the first round. */
  lemma OldestIsDispatched(w: World, next: World, size: nat, failing: set<nat>, j: nat, end: World)
    requires size > 0 && j == Oldest(w.outbox) && j !in failing
    requires Marks(w.outbox, next.outbox, j) && end in Results(next, size - 1, failing)
    ensures w.outbox in InReach(j, size, failing) && j < |end.outbox| && end.outbox[j].dispatched
  {
    OldestIsInReach(w.outbox, j, size, failing);
    MarksAt(w.outbox, next.outbox, j, j);
    BatchKeepsEvents(next, size - 1, failing, j, end);
  }

  lemma {:induction false} ResultDispatchesExactly(w: World, size: nat, failing: set<nat>, j: nat, end: World)
    requires j < |w.outbox| && !w.outbox[j].dispatched && end in Results(w, size, failing)
    ensures j < |end.outbox| && (end.outbox[j].dispatched <==> w.outbox in InReach(j, size, failing))
    decreases size
  {
    if size == 0 {
      ResultsEnd(w, failing, end);
      NothingInReach(w.outbox, j, failing);
    } else {
      var next := Round(w, size, failing, end);
      var i := Oldest(w.outbox);
      if i in failing {
        StuckIsOutOfReach(w.outbox, i, j, size, failing);
      } else if i == j {
        OldestIsDispatched(w, next, size, failing, j, end);
      } else {
        OldestGoesFirst(w.outbox, next.outbox, i, size, failing, j);
        ResultDispatchesExactly(next, size - 1, failing, j, end);
      }
    }
  }

  /** The first round of a batch moves the others up by one. */
  lemma OldestGoesFirst(outbox: seq<Entry>, next: seq<Entry>, i: nat, size: nat, failing: set<nat>, j: nat)
    requires j < |outbox| && !outbox[j].dispatched && i == Oldest(outbox) && i !in failing && i != j && size > 0
    requires Marks(outbox, next, i)
    ensures i < j && !next[j].dispatched
    ensures next in InReach(j, size - 1, failing) <==> outbox in InReach(j, size, failing)
  {
    forall k: nat | k <= j ensures Stuck(next, k, failing) <==> Stuck(outbox, k, failing) {
      MarksAt(outbox, next, i, k);
    }
    MarksAt(outbox, next, i, j);
    assert next[..j] == MarkDispatched(outbox, i)[..j] == MarkDispatched(outbox[..j], i);
    WaitingMarked(outbox[..j], i);
  }

  /**
   * A batch dispatches an event exactly when no event up to and including it is stuck and fewer than a batch of them
   * wait before it.
   */
  lemma BatchDispatchesExactly(w: World, size: nat, failing: set<nat>, j: nat)
    requires j < |w.outbox| && !w.outbox[j].dispatched
    ensures var after := Batch(w, size, failing).outbox;
            && j < |after| && after[j].message == w.outbox[j].message
            && (after[j].dispatched <==>
                (forall i | 0 <= i <= j :: !Stuck(w.outbox, i, failing)) && Waiting(w.outbox[..j]) < size)
  {
    var end := ResultOf(w, size, failing);
    ResultDispatchesExactly(w, size, failing, j, end);
    BatchKeepsEvents(w, size, failing, j, end);
  }

  // ----- an event that always fails -----

  /** Behind the i-th event nothing has been dispatched that was not before. */
  predicate HeldBack(outbox: seq<Entry>, later: seq<Entry>, i: nat) {
    && i < |outbox| <= |later| && !later[i].dispatched
    && (forall j | 0 <= j < |outbox| :: later[j].message == outbox[j].message)
    && (forall j | i <= j < |later| :: later[j].dispatched <==> j < |outbox| && outbox[j].dispatched)
  }

  lemma {:induction false} ResultHoldsBack(w: World, size: nat, failing: set<nat>, i: nat, end: World)
    requires Stuck(w.outbox, i, failing) && end in Results(w, size, failing)
    ensures HeldBack(w.outbox, end.outbox, i)
    decreases size
  {
    if size == 0 {
      ResultsEnd(w, failing, end);
    } else {
      var next := Round(w, size, failing, end);
      var first := Oldest(w.outbox);
      if first !in failing {
        MarkHoldsBack(w.outbox, next.outbox, first, failing, i);
        ResultHoldsBack(next, size - 1, failing, i, end);
        HeldBackOn(w.outbox, next.outbox, end.outbox, i);
      }
    }
  }

  lemma MarkHoldsBack(outbox: seq<Entry>, next: seq<Entry>, first: nat, failing: set<nat>, i: nat)
    requires Stuck(outbox, i, failing) && first == Oldest(outbox) && first !in failing && Marks(outbox, next, first)
    ensures Stuck(next, i, failing) && HeldBack(outbox, next, i)
  {
    forall j: nat | j < |outbox|
      ensures next[j].message == outbox[j].message && (next[j].dispatched <==> outbox[j].dispatched || first == j)
    {
      MarksAt(outbox, next, first, j);
    }
  }

  lemma HeldBackOn(outbox: seq<Entry>, next: seq<Entry>, later: seq<Entry>, i: nat)
    requires HeldBack(outbox, next, i) && HeldBack(next, later, i)
    ensures HeldBack(outbox, later, i)
  {
  }

  lemma {:induction false} EachAppends(outbox: seq<Entry>, ids: seq<SessionId>)
    ensures var after := PublishEach(outbox, ids);
            && |outbox| <= |after| && after[..|outbox|] == outbox
            && forall k | |outbox| <= k < |after| :: !after[k].dispatched && !after[k].message.DepositReported?
  {
    if ids != [] {
      EachAppends(outbox, ids[..|ids| - 1]);
    }
  }

  /** Every other step only appends. */
  lemma StepAppends(w: World, step: Step)
    requires !step.Dispatch?
    ensures var after := Do(w, step).outbox;
            && |w.outbox| <= |after| && after[..|w.outbox|] == w.outbox
            && forall k | |w.outbox| <= k < |after| ::
                 && !after[k].dispatched
                 && (after[k].message.DepositReported? ==>
                     step.Report? && Reported(w, step.report) != w
                     && after[k].message.reservation == step.report.key.reservation)
  {
    match step
    case MarkBreaches(due, rows) => EachAppends(w.outbox, rows);
    case MakePending(_, _, _, _) =>
    case Report(_) =>
    case Insert(_) =>
    case Hold(_, _) =>
    case Reject(_, _) =>
    case CloseCase(_) =>
    case Reserve(_) =>
    case ExpirePreDeposit(_) =>
    case ExpireHolds(_) =>
    case Settlement(_, _, _) =>
  }

  ghost predicate Elsewhere(w: World, w': World) {
    exists step: Step :: !step.Dispatch? && w' == Do(w, step)
  }

  ghost predicate BatchFails(w: World, w': World, i: nat) {
    exists size: nat, failing: set<nat> :: i in failing && w' == Batch(w, size, failing)
  }

  /** A request, a job or a report, or a batch that meets a handler that fails on the i-th event. */
  ghost function FailingSteps(i: nat): iset<(World, World)> {
    iset w: World, w': World | Elsewhere(w, w') || BatchFails(w, w', i) :: (w, w')
  }

  ghost predicate FailsAt(run: seq<World>, i: nat, k: nat)
    requires 0 < k < |run|
  {
    (run[k - 1], run[k]) in FailingSteps(i)
  }

  ghost predicate FailsOn(run: seq<World>, i: nat) {
    run != [] && forall k | 0 < k < |run| :: FailsAt(run, i, k)
  }

  ghost function FailingRuns(i: nat): iset<seq<World>> {
    iset run: seq<World> | FailsOn(run, i)
  }

  lemma StepHoldsBack(w: World, w': World, i: nat)
    requires i < |w.outbox| && !w.outbox[i].dispatched && (w, w') in FailingSteps(i)
    ensures HeldBack(w.outbox, w'.outbox, i)
  {
    if Elsewhere(w, w') {
      var step: Step :| !step.Dispatch? && w' == Do(w, step);
      StepAppends(w, step);
      assert forall k | 0 <= k < |w.outbox| :: w'.outbox[k] == w'.outbox[..|w.outbox|][k];
    } else {
      var size: nat, failing: set<nat> :| i in failing && w' == Batch(w, size, failing);
      ResultHoldsBack(w, size, failing, i, w');
    }
  }

  /** As long as one event fails, no event behind it is ever dispatched, old or new, whatever else goes on. */
  lemma {:induction false} FailingEventHoldsBackAll(run: seq<World>, i: nat, k: nat)
    requires run in FailingRuns(i) && k < |run| && i < |run[0].outbox| && !run[0].outbox[i].dispatched
    ensures HeldBack(run[0].outbox, run[k].outbox, i)
  {
    if k > 0 {
      FailingEventHoldsBackAll(run, i, k - 1);
      assert FailsAt(run, i, k);
      StepHoldsBack(run[k - 1], run[k], i);
      HeldBackOn(run[0].outbox, run[k - 1].outbox, run[k].outbox, i);
    }
  }

  // ----- a session that is held back -----

  function Waits(): World {
    World(map["s" := Session(Pending, None, Some("l"), Some("r"), false)], map[], {"r"}, [Entry(Created("s"), false)],
          [], {})
  }

  /** The deposit is confirmed, and its event waits behind the announcement of the session. */
  function DepositWaits(): World {
    Waits().(deposits := map[EarlyReport().key := Deposits.Deposit(Deposits.Confirmed, 1.0)],
             outbox := [Entry(Created("s"), false), Entry(DepositReported("r", Deposits.Confirmed), false)])
  }

  lemma WaitsStep()
    ensures Do(Screened(), MakePending("s", Screening, "l", "r")) == Waits()
  {
  }

  lemma DepositWaitsStep()
    ensures Do(Waits(), Report(EarlyReport())) == DepositWaits()
  {
    assert [Entry(Created("s"), false)] + [Entry(DepositReported("r", Deposits.Confirmed), false)]
           == [Entry(Created("s"), false), Entry(DepositReported("r", Deposits.Confirmed), false)];
  }

  lemma DepositWaitsIsReached()
    ensures [EMPTY_WORLD, Screened().(known := {}), Screened(), Waits(), DepositWaits()] in Runs()
  {
    var run := [EMPTY_WORLD, Screened().(known := {}), Screened()];
    ScreenedRun();
    WaitsStep();
    DepositWaitsStep();
    LongerRun(run, MakePending("s", Screening, "l", "r"));
    LongerRun(run + [Waits()], Report(EarlyReport()));
    assert run + [Waits()] + [DepositWaits()]
           == [EMPTY_WORLD, Screened().(known := {}), Screened(), Waits(), DepositWaits()];
  }

  /** Without a dispatch a pending session can only expire. */
  lemma PendingWithoutDispatch(w: World, step: Step, id: SessionId)
    requires !step.Dispatch? && id in w.sessions && w.sessions[id].status in {Pending, Expired}
    ensures id in Do(w, step).sessions && Do(w, step).sessions[id].status in {Pending, Expired}
    ensures Do(w, step).sessions[id].reservation == w.sessions[id].reservation
  {
    match step
    case MakePending(_, _, _, _) =>
    case MarkBreaches(_, _) =>
    case Insert(_) =>
    case Hold(_, _) =>
    case Reject(_, _) =>
    case CloseCase(_) =>
    case Reserve(_) =>
    case Report(_) =>
    case ExpirePreDeposit(_) =>
    case ExpireHolds(_) =>
    case Settlement(_, _, _) =>
  }

  /** While the oldest event fails, batches do nothing at all. */
  lemma FailingKeepsPending(w: World, w': World, id: SessionId)
    requires w.outbox != [] && !w.outbox[0].dispatched && (w, w') in FailingSteps(0)
    requires id in w.sessions && w.sessions[id].status in {Pending, Expired}
    ensures id in w'.sessions && w'.sessions[id].status in {Pending, Expired}
  {
    if Elsewhere(w, w') {
      var step: Step :| !step.Dispatch? && w' == Do(w, step);
      PendingWithoutDispatch(w, step, id);
    } else {
      var size: nat, failing: set<nat> :| 0 in failing && w' == Batch(w, size, failing);
      FailingEventBlocksTheRest(w, size, failing);
    }
  }

  lemma StillFirst(run: seq<World>, k: nat)
    requires run in FailingRuns(0) && k < |run| && run[0].outbox != [] && !run[0].outbox[0].dispatched
    ensures run[k].outbox != [] && !run[k].outbox[0].dispatched
  {
    FailingEventHoldsBackAll(run, 0, k);
  }

  lemma {:induction false} HeldBackForever(run: seq<World>, k: nat, id: SessionId)
    requires run in FailingRuns(0) && k < |run| && run[0].outbox != [] && !run[0].outbox[0].dispatched
    requires id in run[0].sessions && run[0].sessions[id].status in {Pending, Expired}
    ensures id in run[k].sessions && run[k].sessions[id].status in {Pending, Expired}
  {
    if k > 0 {
      HeldBackForever(run, k - 1, id);
      StillFirst(run, k - 1);
      assert FailsAt(run, 0, k);
      FailingKeepsPending(run[k - 1], run[k], id);
    }
  }

  /**
   * So another event's handler can keep a paid session from its settlement: a reachable world with a confirmed deposit,
   * from which no run confirms the session while the announcement in front fails.
   */
  lemma ConfirmedDepositIsHeldBack(run: seq<World>, k: nat)
    requires run in FailingRuns(0) && k < |run| && run[0] == DepositWaits()
    ensures [EMPTY_WORLD, Screened().(known := {}), Screened(), Waits(), DepositWaits()] in Runs()
    ensures Deposits.Total(run[0].deposits, "r") == 1.0
    ensures |run[k].outbox| >= 2 && run[k].outbox[1] == Entry(DepositReported("r", Deposits.Confirmed), false)
    ensures "s" in run[k].sessions && run[k].sessions["s"].status in {Pending, Expired}
  {
    DepositWaitsIsReached();
    FailingEventHoldsBackAll(run, 0, k);
    HeldBackForever(run, k, "s");
    assert Deposits.ConfirmedKeys(DepositWaits().deposits, "r") == {} + {EarlyReport().key};
    Deposits.SetSumAdd({}, EarlyReport().key, Deposits.AmountIn(DepositWaits().deposits));
  }

  // ----- a deposit that was overlooked -----

  /** The session waits or has expired, and no event about its reservation is left to move it. */
  predicate Overlooked(w: World, id: SessionId, reservation: ReservationId) {
    && id in w.sessions && w.sessions[id].status in {Pending, Expired}
        && w.sessions[id].reservation == Some(reservation)
    && forall i | 0 <= i < |w.outbox| && !w.outbox[i].dispatched :: !About(w.outbox[i].message, reservation)
  }

  predicate About(m: Message, reservation: ReservationId) {
    m.DepositReported? && m.reservation == reservation
  }

  /** Reports about the reservation only repeat what is confirmed already. */
  predicate Repeats(w: World, step: Step, reservation: ReservationId) {
    step.Report? && step.report.key.reservation == reservation ==>
      step.report.key in w.deposits && w.deposits[step.report.key].status == Deposits.Confirmed
  }

  lemma OtherDispatchLeaves(w: World, i: nat, fails: bool, id: SessionId, reservation: ReservationId)
    requires Overlooked(w, id, reservation)
    ensures Overlooked(DispatchedOne(w, i, fails), id, reservation)
  {
    if i < |w.outbox| && !w.outbox[i].dispatched && !fails {
      var m := w.outbox[i].message;
      DispatchMarks(w, i);
      var after := DispatchedOne(w, i, false);
      forall k | 0 <= k < |w.outbox| ensures after.outbox[k] == MarkDispatched(w.outbox, i)[k] {
        assert after.outbox[..|w.outbox|][k] == after.outbox[k];
      }
      if m.DepositReported? && Movable(w, m.reservation, m.status) != {} {
        var moved :| moved in Movable(w, m.reservation, m.status) && Handled(w, m) == Moved(w, moved, m.status);
      }
    }
  }

  lemma RepetitionLeaves(w: World, step: Step, id: SessionId, reservation: ReservationId)
    requires Overlooked(w, id, reservation) && Repeats(w, step, reservation) && !step.Dispatch?
    ensures Overlooked(Do(w, step), id, reservation)
  {
    StepAppends(w, step);
    PendingWithoutDispatch(w, step, id);
    var after := Do(w, step);
    forall k | 0 <= k < |after.outbox| && !after.outbox[k].dispatched
      ensures !About(after.outbox[k].message, reservation)
    {
      if k < |w.outbox| {
        assert after.outbox[..|w.outbox|][k] == after.outbox[k];
      }
    }
  }

  ghost function RepeatingSteps(reservation: ReservationId): iset<(World, World)> {
    iset w: World, step: Step | Repeats(w, step, reservation) :: (w, Do(w, step))
  }

  ghost predicate RepeatsAt(run: seq<World>, reservation: ReservationId, k: nat)
    requires 0 < k < |run|
  {
    (run[k - 1], run[k]) in RepeatingSteps(reservation)
  }

  ghost predicate OnlyRepeats(run: seq<World>, reservation: ReservationId) {
    run != [] && forall k | 0 < k < |run| :: RepeatsAt(run, reservation, k)
  }

  lemma RepeatingStepLeaves(w: World, w': World, id: SessionId, reservation: ReservationId)
    requires Overlooked(w, id, reservation) && (w, w') in RepeatingSteps(reservation)
    ensures Overlooked(w', id, reservation)
  {
    var step :| Repeats(w, step, reservation) && w' == Do(w, step);
    match step
    case Dispatch(i, fails) => OtherDispatchLeaves(w, i, fails, id, reservation);
    case _ => RepetitionLeaves(w, step, id, reservation);
  }

  /** Once overlooked, a session is never confirmed, however often its confirmed deposits are reported again. */
  lemma {:induction false} RepeatingTheReportDoesNotHelp(run: seq<World>, k: nat, id: SessionId,
                                                         reservation: ReservationId)
    requires OnlyRepeats(run, reservation) && k < |run| && Overlooked(run[0], id, reservation)
    ensures Overlooked(run[k], id, reservation)
  {
    if k > 0 {
      RepeatingTheReportDoesNotHelp(run, k - 1, id, reservation);
      assert RepeatsAt(run, reservation, k);
      RepeatingStepLeaves(run[k - 1], run[k], id, reservation);
    }
  }

  /** The session whose deposit came too early stays where it is for good. */
  lemma EarlyDepositStaysOverlooked(run: seq<World>, k: nat)
    requires OnlyRepeats(run, "r") && k < |run| && run[0] == PendingTooLate()
    ensures "s" in run[k].sessions && run[k].sessions["s"].status in {Pending, Expired}
    ensures exists before | before in Runs() :: before[|before| - 1] == run[0]
  {
    RepeatingTheReportDoesNotHelp(run, k, "s", "r");
    EarlyDepositIsOverlooked();
  }
}
