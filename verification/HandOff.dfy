/**
 * Where the session machine and the settlement pipeline meet: a settlement row is made from a session that has its lock
 * and its reservation, and every move that settlement makes of a session is one the session machine allows.
 */
module HandOff {
  import opened Common
  import Ledger
  import opened Settlement
  import opened SettlementInvariant
  import opened SettlementSteps
  import opened SettlementRuns
  import opened SettlementPolicy
  import opened SettlementRetries
  import opened SettlementProgress
  import OpsOutcomes
  import SettlementStore
  import Sessions
  import SessionRuns

  /** The session status that settlement reads and writes. */
  function StatusOf(s: SessionStatus): Sessions.Status {
    match s
    case SessionConfirmed => Sessions.DepositConfirmed
    case SessionSettling => Sessions.Settling
    case SessionSettled => Sessions.Settled
    case SessionFailed => Sessions.SettlementFailed
    case SessionReversed => Sessions.Reversed
    case SessionReversalResolved => Sessions.ReversalResolved
  }

  /** One entry point moves a session at most twice: into settling, and on from there. */
  predicate Path(from: SessionStatus, to: SessionStatus) {
    || from == to
    || Sessions.SettlementMove(StatusOf(from), StatusOf(to))
    || (Sessions.SettlementMove(StatusOf(from), Sessions.Settling)
        && Sessions.SettlementMove(Sessions.Settling, StatusOf(to)))
  }

  lemma SessionOfSound(id: SessionId, s: Case)
    requires s in Sound(id)
    ensures s.session == (if FirstDispatched(id, s) then SessionOf(s.status) else SessionConfirmed)
    ensures !FirstDispatched(id, s) ==> s.status in {PendingDispatch, Dispatching}
  {
  }

  lemma WorkKeepsDispatched(id: SessionId, s: Case, env: Env)
    requires s in Sound(id)
    ensures FirstDispatched(id, s) ==> FirstDispatched(id, Work(id, s, env).c)
  {
    StepFrame(id, s, Worker(env));
    if FirstDispatched(id, s) {
      DispatchedStays(id, s.journal, Work(id, s, env).c.journal);
    }
  }

  /** A pending settlement that was worked. */
  lemma WorkedGivesPath(id: SessionId, s: Case, s': Case)
    requires s in Sound(id) && s' in Sound(id) && (FirstDispatched(id, s) ==> FirstDispatched(id, s'))
    requires s.status == PendingDispatch
    requires s'.status in {Dispatching, Settling, SettlementFailed, AwaitingManualPayout}
    ensures Path(s.session, s'.session)
  {
    SessionOfSound(id, s);
    SessionOfSound(id, s');
  }

  lemma WorkFollowsPath(id: SessionId, s: Case, env: Env)
    requires s in Sound(id) && HonestEnv(env)
    ensures Path(s.session, Work(id, s, env).c.session)
  {
    WorkKeeps(id, s, env);
    if s.status == PendingDispatch {
      WorkLeavesQueue(id, s, env);
      WorkKeepsDispatched(id, s, env);
      WorkedGivesPath(id, s, Work(id, s, env).c);
    }
  }

  /** How a callback may change a settlement's status. */
  lemma HookStatus(id: SessionId, s: Case, env: Env, kind: HookKind, n: nat, reason: string)
    requires s in Sound(id)
    ensures var to := Hook(id, s, env, kind, n, reason).c.status;
            || to == s.status
            || (s.status == Settling && to in {Settled, SettlementFailed, AwaitingManualPayout})
            || (s.status == Settled && to == Reversed)
  {
    if 1 <= n <= |s.attempts| {
      StatusOfAttempt(id, s, n);
      if s.status == Settling {
        HandleFailureStatus(id, s, env, n, 2, reason, false);
      }
    }
  }

  /** Sound settlements of which one follows the other in status. */
  lemma StatusGivesPath(id: SessionId, s: Case, s': Case)
    requires s in Sound(id) && s' in Sound(id) && (FirstDispatched(id, s) ==> FirstDispatched(id, s'))
    requires s.status == Settling || s.status == Settled
    requires || s'.status == s.status
             || (s.status == Settling && s'.status in {Settled, SettlementFailed, AwaitingManualPayout})
             || (s.status == Settled && s'.status == Reversed)
    ensures Path(s.session, s'.session)
  {
    SessionOfSound(id, s);
    SessionOfSound(id, s');
  }

  lemma HookKeepsDispatched(id: SessionId, s: Case, env: Env, kind: HookKind, n: nat, reason: string)
    requires s in Sound(id)
    ensures FirstDispatched(id, s) ==> FirstDispatched(id, Hook(id, s, env, kind, n, reason).c)
  {
    HookFrame(id, s, env, kind, n, reason);
    if FirstDispatched(id, s) {
      DispatchedStays(id, s.journal, Hook(id, s, env, kind, n, reason).c.journal);
    }
  }

  /** Where nothing is open and nothing was settled, callbacks change no session. */
  lemma HookElsewhere(id: SessionId, s: Case, env: Env, kind: HookKind, n: nat, reason: string)
    requires s in Sound(id) && s.status != Settling && s.status != Settled
    ensures Hook(id, s, env, kind, n, reason).c.session == s.session
  {
    if 1 <= n <= |s.attempts| {
      StatusOfAttempt(id, s, n);
    }
  }

  lemma HookFollowsPath(id: SessionId, s: Case, env: Env, kind: HookKind, n: nat, reason: string)
    requires s in Sound(id) && Truthful(s, Callback(env, kind, n, reason))
    ensures Path(s.session, Hook(id, s, env, kind, n, reason).c.session)
  {
    if s.status == Settling || s.status == Settled {
      HookStatus(id, s, env, kind, n, reason);
      HookKeeps(id, s, env, kind, n, reason);
      HookKeepsDispatched(id, s, env, kind, n, reason);
      StatusGivesPath(id, s, Hook(id, s, env, kind, n, reason).c);
    } else {
      HookElsewhere(id, s, env, kind, n, reason);
    }
  }

  lemma RetryFollowsPath(id: SessionId, s: Case, corrected: Option<Destination>, confirmed: bool, who: string)
    requires s in Sound(id)
    ensures Path(s.session, RetryPayout(id, s, corrected, confirmed, who).c.session)
  {
    SessionOfSound(id, s);
  }

  lemma ManualFollowsPath(id: SessionId, s: Case, who: string)
    requires s in Sound(id)
    ensures Path(s.session, ManualSettle(id, s, who).c.session)
  {
    SessionOfSound(id, s);
  }

  lemma ResolveFollowsPath(id: SessionId, s: Case, index: nat, adj: Adjustment)
    requires s in Sound(id)
    ensures Path(s.session, ResolveReversal(id, s, index, adj).c.session)
  {
    SessionOfSound(id, s);
  }

  /** Every step of a settlement moves its session along the session machine. */
  lemma StepFollowsPath(id: SessionId, s: Case, ev: Event)
    requires s in Sound(id) && Truthful(s, ev)
    ensures Path(s.session, Step(id, s, ev).c.session)
  {
    match ev
    case Worker(env) => WorkFollowsPath(id, s, env);
    case Callback(env, kind, n, reason) => HookFollowsPath(id, s, env, kind, n, reason);
    case Retry(corrected, confirmed, admin) => RetryFollowsPath(id, s, corrected, confirmed, admin);
    case PaidByHand(who) => ManualFollowsPath(id, s, who);
    case TimeoutSweep =>
    case Resolve(index, adj) => ResolveFollowsPath(id, s, index, adj);
    case BankMoves(_, _) =>
    case HandMoves(_) =>
    case DepositGrows(_) =>
  }

  // ----- no move of the diagram is idle -----

  ghost predicate Makes(id: SessionId, s: Case, ev: Event, from: SessionStatus, to: SessionStatus) {
    s in Sound(id) && Truthful(s, ev) && s.session == from && Step(id, s, ev).c.session == to
  }

  /** Some settlement makes this move of its session in one step. */
  ghost predicate Made(from: SessionStatus, to: SessionStatus) {
    exists id, s, ev :: Makes(id, s, ev, from, to)
  }

  lemma IsMade(id: SessionId, s: Case, ev: Event, from: SessionStatus, to: SessionStatus)
    requires Makes(id, s, ev, from, to)
    ensures Made(from, to)
  {
  }

  /** A provider that says it took the transfer, and did not. */
  function Losing(): Env {
    Env(["p"], map["p" := true], n => Reply(Accepted, Some("r"), "", false), false, false)
  }

  lemma LosingIsChosen()
    ensures Choose(Enabled(Losing()), Tried([])) == Some("p") && HonestEnv(Losing())
  {
    assert EnabledAmong(["p"][..0], Losing().registry) == [];
    assert Enabled(Losing()) == ["p"];
  }

  lemma QuietIsHonest()
    ensures HonestEnv(Quiet()) && Enabled(Quiet()) == []
  {
  }

  /** The settlement is settling, and what was sent got lost. */
  ghost predicate Lost(id: SessionId, s: Case, n: nat) {
    && s in Sound(id) && s.status == Settling && s.session == SessionSettling && IsDispatched(s, n)
    && s.attempts[n - 1].reference.Some? && !Live(s.attempts[n - 1].funds)
  }

  lemma FreshIsReady(id: SessionId, c: Case)
    requires Initial(c) && Convertible(id, c)
    ensures c in Sound(id) && Converted(id, c) in Rounds(id)
    ensures Work(id, c, Losing()) == DispatchAttempt(id, Converted(id, c), Losing())
  {
    InitialIsSound(id, c);
    ConvertibleIsReady(id, c);
    WorkDispatches(id, c, Losing());
  }

  /** The one payout of a fresh settlement, taken up and lost. */
  lemma DispatchedIsLost(id: SessionId, c: Case)
    requires c in Rounds(id) && c.attempts == []
    ensures Lost(id, DispatchAttempt(id, c, Losing()).c, 1)
  {
    LosingIsChosen();
    TakenUpIsRecorded(id, c, Losing(), "p");
    var s := DispatchAttempt(id, c, Losing()).c;
    SoundPhases(id, s);
    OpenIsLatest(id, s, 1);
  }

  lemma FirstMove(id: SessionId, c: Case)
    requires c in Sound(id) && c.session == SessionConfirmed && Lost(id, Work(id, c, Losing()).c, 1)
    ensures Made(SessionConfirmed, SessionSettling)
  {
    LosingIsChosen();
    IsMade(id, c, Worker(Losing()), SessionConfirmed, SessionSettling);
  }

  lemma SomeIsLost(id: SessionId, c: Case)
    requires Initial(c) && Convertible(id, c)
    ensures Lost(id, Work(id, c, Losing()).c, 1) && Made(SessionConfirmed, SessionSettling)
  {
    FreshIsReady(id, c);
    DispatchedIsLost(id, Converted(id, c));
    FirstMove(id, c);
  }

  lemma LostSettles(id: SessionId, s: Case, n: nat)
    requires Lost(id, s, n)
    ensures var settled := PayoutSucceeded(s, n).c;
            && settled in Sound(id) && settled.status == Settled && settled.session == SessionSettled
            && 1 <= n <= |settled.attempts| && settled.attempts[n - 1].reference.Some? && !InFlightNow(settled, n)
    ensures Made(SessionSettling, SessionSettled)
  {
    var settled := PayoutSucceeded(s, n).c;
    SucceededKeeps(id, s, n);
    SettledIsClosed(id, settled);
    QuietIsHonest();
    IsMade(id, s, Callback(Quiet(), HookSucceeded, n, ""), SessionSettling, SessionSettled);
  }

  lemma SettledReverses(id: SessionId, s: Case, n: nat)
    requires s in Sound(id) && s.status == Settled && s.session == SessionSettled
    requires 1 <= n <= |s.attempts| && s.attempts[n - 1].reference.Some? && !InFlightNow(s, n)
    ensures var reversed := PayoutReturned(id, s).c;
            reversed in Sound(id) && reversed.status == Reversed && reversed.session == SessionReversed
    ensures Made(SessionSettled, SessionReversed)
  {
    ReturnedKeeps(id, s);
    QuietIsHonest();
    IsMade(id, s, Callback(Quiet(), HookReturned, n, ""), SessionSettled, SessionReversed);
  }

  lemma ReversedResolves(id: SessionId, s: Case)
    requires s in Sound(id) && s.status == Reversed && s.session == SessionReversed
    ensures Made(SessionReversed, SessionReversalResolved)
  {
    OpsOutcomes.ReversalIsResolved(id, s, 0, Fiat());
    IsMade(id, s, Resolve(0, Fiat()), SessionReversed, SessionReversalResolved);
  }

  lemma SettlesAndReverses(id: SessionId, s: Case, n: nat)
    requires Lost(id, s, n)
    ensures Made(SessionSettling, SessionSettled) && Made(SessionSettled, SessionReversed)
    ensures Made(SessionReversed, SessionReversalResolved)
  {
    LostSettles(id, s, n);
    SettledReverses(id, PayoutSucceeded(s, n).c, n);
    ReversedResolves(id, PayoutReturned(id, PayoutSucceeded(s, n).c).c);
  }

  /** With nobody else to send to, a failure is given up. */
  lemma FailureEnds(id: SessionId, s: Case, n: nat)
    requires Lost(id, s, n)
    ensures HandleAttemptFailure(id, s, Quiet(), n, 2, "", false).c.status == SettlementFailed
  {
    OpenIsLatest(id, s, n);
    FailureKeeps(id, s, n, 2, "");
    var reversal := ReversalPosting(Ledger.AttemptReversal(id, n), s);
    var reversed := MarkFailed(s, n, 2, "").(journal := Then(s.journal, reversal));
    FailSettlementKeeps(id, reversed, Quiet());
    QuietIsHonest();
  }

  lemma FailedRetries(id: SessionId, s: Case)
    requires s in Sound(id) && s.status == SettlementFailed && s.session == SessionFailed
    ensures Made(SessionFailed, SessionSettling)
  {
    RetryKeeps(id, s, None, false, "");
    IsMade(id, s, Retry(None, false, ""), SessionFailed, SessionSettling);
  }

  lemma FailedSession(id: SessionId, s: Case, n: nat)
    requires Lost(id, s, n)
    ensures var failed := HandleAttemptFailure(id, s, Quiet(), n, 2, "", false).c;
            failed in Sound(id) && failed.status == SettlementFailed && failed.session == SessionFailed
  {
    QuietIsHonest();
    FailureEnds(id, s, n);
    HandleFailureKeeps(id, s, Quiet(), n, 2, "", false);
    SessionOfSound(id, HandleAttemptFailure(id, s, Quiet(), n, 2, "", false).c);
  }

  lemma FailsAndRetries(id: SessionId, s: Case, n: nat)
    requires Lost(id, s, n)
    ensures Made(SessionSettling, SessionFailed) && Made(SessionFailed, SessionSettling)
  {
    QuietIsHonest();
    FailedSession(id, s, n);
    IsMade(id, s, Callback(Quiet(), HookFailed, n, ""), SessionSettling, SessionFailed);
    FailedRetries(id, HandleAttemptFailure(id, s, Quiet(), n, 2, "", false).c);
  }

  lemma AllAreMade(id: SessionId, c: Case)
    requires Initial(c) && Convertible(id, c)
    ensures Made(SessionConfirmed, SessionSettling) && Made(SessionSettling, SessionSettled)
    ensures Made(SessionSettling, SessionFailed) && Made(SessionFailed, SessionSettling)
    ensures Made(SessionSettled, SessionReversed) && Made(SessionReversed, SessionReversalResolved)
  {
    SomeIsLost(id, c);
    SettlesAndReverses(id, Work(id, c, Losing()).c, 1);
    FailsAndRetries(id, Work(id, c, Losing()).c, 1);
  }

  /** The session machine leaves settlement no move that settlements do not make, given a row that can be converted. */
  lemma EveryMoveIsMade(id: SessionId, c: Case, from: SessionStatus, to: SessionStatus)
    requires Initial(c) && Convertible(id, c)
    requires from != to && Sessions.SettlementMove(StatusOf(from), StatusOf(to))
    ensures Made(from, to)
  {
    AllAreMade(id, c);
  }

  // ----- the session table follows -----

  function At(w: Sessions.World, id: SessionId, s: SessionStatus): Sessions.World
    requires id in w.sessions
  {
    w.(sessions := w.sessions[id := w.sessions[id].(status := StatusOf(s))])
  }

  /** The session has the status that settlement thinks it has. */
  predicate Agrees(w: Sessions.World, id: SessionId, s: SessionStatus) {
    id in w.sessions && w.sessions[id].status == StatusOf(s)
  }

  /** A run of the session machine that leads from its last world to another. */
  ghost predicate LeadsTo(run: seq<Sessions.World>, w: Sessions.World) {
    exists more: seq<Sessions.World> :: run + more in Sessions.Runs() && (run + more)[|run + more| - 1] == w
  }

  lemma OneStep(run: seq<Sessions.World>, w: Sessions.World, step: Sessions.Step)
    requires run != [] && LeadsTo(run, w)
    ensures LeadsTo(run, Sessions.Do(w, step))
  {
    var more :| run + more in Sessions.Runs() && (run + more)[|run + more| - 1] == w;
    var next := Sessions.Do(w, step);
    var longer := run + (more + [next]);
    assert longer == (run + more) + [next];
    forall k | 0 < k < |longer| ensures Sessions.Succeeds(longer[k - 1], longer[k]) {
      if k < |longer| - 1 {
        assert longer[k - 1] == (run + more)[k - 1] && longer[k] == (run + more)[k];
      }
    }
    assert longer[|longer| - 1] == next;
  }

  lemma MoveIs(w: Sessions.World, id: SessionId, from: SessionStatus, to: SessionStatus)
    requires Agrees(w, id, from) && Sessions.SettlementMove(StatusOf(from), StatusOf(to))
    ensures Sessions.Do(w, Sessions.Step.Settlement(id, StatusOf(from), StatusOf(to))) == At(w, id, to)
    ensures Agrees(At(w, id, to), id, to)
  {
  }

  lemma AtTwice(w: Sessions.World, id: SessionId, s: SessionStatus, t: SessionStatus)
    requires id in w.sessions
    ensures At(At(w, id, s), id, t) == At(w, id, t)
    ensures Agrees(w, id, s) ==> At(w, id, s) == w
  {
    if Agrees(w, id, s) {
      assert w.sessions[id := w.sessions[id].(status := StatusOf(s))] == w.sessions;
    }
  }

  lemma PathLeads(run: seq<Sessions.World>, w: Sessions.World, id: SessionId, from: SessionStatus, to: SessionStatus)
    requires run != [] && LeadsTo(run, w) && Agrees(w, id, from) && Path(from, to)
    ensures LeadsTo(run, At(w, id, to))
  {
    if from == to {
      AtTwice(w, id, from, to);
    } else if Sessions.SettlementMove(StatusOf(from), StatusOf(to)) {
      MoveIs(w, id, from, to);
      OneStep(run, w, Sessions.Step.Settlement(id, StatusOf(from), StatusOf(to)));
    } else {
      MoveIs(w, id, from, SessionSettling);
      OneStep(run, w, Sessions.Step.Settlement(id, StatusOf(from), Sessions.Settling));
      var settling := At(w, id, SessionSettling);
      MoveIs(settling, id, SessionSettling, to);
      OneStep(run, settling, Sessions.Step.Settlement(id, Sessions.Settling, StatusOf(to)));
      AtTwice(w, id, SessionSettling, to);
    }
  }

  /**
   * The session machine follows a whole settlement: whatever truthful run settlement makes from a fresh row, a run of
   * the session machine takes the session from its confirmation to the status that settlement leaves it in.
   */
  lemma {:induction false} SessionFollowsSettlement(run: seq<Sessions.World>, id: SessionId, c: Case, evs: seq<Event>)
    requires run in Sessions.Runs() && Agrees(run[|run| - 1], id, SessionConfirmed)
    requires Initial(c) && TruthfulRun(id, c, evs)
    ensures LeadsTo(run, At(run[|run| - 1], id, After(id, c, evs).session))
  {
    var w := run[|run| - 1];
    if evs == [] {
      AtTwice(w, id, SessionConfirmed, SessionConfirmed);
      assert run + [] == run;
    } else {
      var before, ev := evs[..|evs| - 1], evs[|evs| - 1];
      var s := After(id, c, before);
      SessionFollowsSettlement(run, id, c, before);
      RunIsSound(id, c, before);
      StepFollowsPath(id, s, ev);
      PathLeads(run, At(w, id, s.session), id, s.session, Step(id, s, ev).c.session);
      AtTwice(w, id, s.session, Step(id, s, ev).c.session);
    }
  }

  // ----- the row that is handed off -----

  /** The settlement row of a session, with its rate read from the lock and its deposits added up. */
  function RowFor(s: Sessions.Session, terms: Terms, rates: string -> Lock, total: real): Case {
    SettlementStore.NewCase(terms, if s.lock.Some? then Some(rates(s.lock.value)) else None, total, s.reservation.Some?)
  }

  lemma HandedOffRowHasBoth(run: seq<Sessions.World>, k: nat, id: SessionId, terms: Terms, rates: string -> Lock,
                            total: real)
    requires run in Sessions.Runs() && k < |run| && id in run[k].settlements
    ensures id in run[k].sessions
    ensures var c := RowFor(run[k].sessions[id], terms, rates, total);
            Initial(c) && c.lock.Some? && c.reservation == Reserved
  {
    SessionRuns.SettlementMeansConfirmed(run, k, id);
    SessionRuns.SessionInvariants(run, k, id);
  }

  lemma {:induction false} ReservationIsKept(id: SessionId, c: Case, evs: seq<Event>)
    requires Initial(c) && TruthfulRun(id, c, evs) && c.reservation != NoReservation
    ensures After(id, c, evs).reservation != NoReservation
  {
    if evs != [] {
      var before := evs[..|evs| - 1];
      ReservationIsKept(id, c, before);
      RunIsSound(id, c, before);
      StepReleases(id, After(id, c, before), evs[|evs| - 1]);
    }
  }

  /**
   * So a settlement that was handed off by the session machine is left in dispatching only for want of an amount or a
   * name to post under, never for want of a lock or a reservation.
   */
  lemma HandedOffStrandsIffNoAmount(run: seq<Sessions.World>, k: nat, id: SessionId, terms: Terms,
                                    rates: string -> Lock, total: real, evs: seq<Event>, env: Env)
    requires run in Sessions.Runs() && k < |run| && id in run[k].settlements && id in run[k].sessions
    requires TruthfulRun(id, RowFor(run[k].sessions[id], terms, rates, total), evs)
    requires After(id, RowFor(run[k].sessions[id], terms, rates, total), evs).status == PendingDispatch
    ensures var s := After(id, RowFor(run[k].sessions[id], terms, rates, total), evs);
            && s.lock.Some?
            && (Work(id, s, env).c.status == Dispatching <==>
                  || s.confirmedTotal <= 0.0 || terms.asset == "" || terms.currency == ""
                  || LockedValue(s.confirmedTotal, s.lock.value) <= 0.0)
  {
    var c := RowFor(run[k].sessions[id], terms, rates, total);
    HandedOffRowHasBoth(run, k, id, terms, rates, total);
    RunIsSound(id, c, evs);
    RunFrame(id, c, evs);
    ReservationIsKept(id, c, evs);
    StrandsIffNothingToPost(id, After(id, c, evs), env);
  }
}
