/**
 * Compliance holds: a decision closes its case before the session moves, so a decision that fails half way is final.
 */
module Holds {
  import opened Sessions
  import opened SessionStore

  /** Every step but an analyst's, taken apart: nobody else moves a session out of a hold but the TTL job. */
  predicate ByOthers(step: Step) {
    match step
    case MakePending(_, from, _, _) => from != ComplianceHold
    case Reject(_, from) => from != ComplianceHold
    case _ => true
  }

  /** The steps of everyone, with the analysts' decisions run to their end. */
  ghost function HoldSteps(): iset<(World, World)> {
    (iset w: World, step: Step | ByOthers(step) :: (w, Do(w, step)))
    + (iset w: World, id: SessionId, approved: bool, locked: bool, lock: string, r: ReservationId ::
         (w, Resolved(w, id, approved, locked, lock, r)))
  }

  ghost predicate HoldStepAt(run: seq<World>, k: nat)
    requires 0 < k < |run|
  {
    (run[k - 1], run[k]) in HoldSteps()
  }

  ghost predicate HoldRun(run: seq<World>) {
    run != [] && forall k | 0 < k < |run| :: HoldStepAt(run, k)
  }

  /** Still held with its case closed, or expired. */
  predicate ShutOut(w: World, id: SessionId) {
    && id in w.sessions
    && match w.sessions[id].status
       case Expired => true
       case ComplianceHold => w.sessions[id].complianceCase.Some? && w.sessions[id].complianceCase.value in w.closed
       case _ => false
  }

  /** A closed case refuses every later decision on its session. */
  lemma ShutOutIsRefused(w: World, id: SessionId, approved: bool, locked: bool, lock: string, r: ReservationId)
    requires ShutOut(w, id)
    ensures Resolution(w, id, approved, locked) in {NotInHold, CaseAlreadyResolved}
    ensures Resolved(w, id, approved, locked, lock, r) == w
  {
  }

  lemma StepKeepsShutOut(w: World, step: Step, id: SessionId)
    requires ShutOut(w, id) && ByOthers(step)
    ensures ShutOut(Do(w, step), id)
  {
    match step
    case Dispatch(i, fails) =>
      if i < |w.outbox| {
        var m := w.outbox[i].message;
        if m.DepositReported? && Movable(w, m.reservation, m.status) != {} {
          var moved :| moved in Movable(w, m.reservation, m.status) && Handled(w, m) == Moved(w, moved, m.status);
        }
      }
    case MakePending(_, _, _, _) =>
    case MarkBreaches(_, _) =>
    case Insert(_) =>
    case Hold(_, _) =>
    case Reject(_, _) =>
    case CloseCase(_) =>
    case Reserve(_) =>
    case Report(_) =>
    case ExpirePreDeposit(_) =>
    case ExpireHolds(_) =>
    case Settlement(_, _, _) =>
  }

  /** Decisions on other sessions leave it alone as well. */
  lemma DecisionKeepsShutOut(w: World, decided: SessionId, approved: bool, locked: bool, lock: string, r: ReservationId,
                             id: SessionId)
    requires ShutOut(w, id)
    ensures ShutOut(Resolved(w, decided, approved, locked, lock, r), id)
  {
  }

  lemma HoldStepKeepsShutOut(w: World, w': World, id: SessionId)
    requires ShutOut(w, id) && (w, w') in HoldSteps()
    ensures ShutOut(w', id)
  {
    if step: Step :| ByOthers(step) && w' == Do(w, step) {
      StepKeepsShutOut(w, step, id);
    } else {
      var decided, approved, locked, lock, r :| w' == Resolved(w, decided, approved, locked, lock, r);
      DecisionKeepsShutOut(w, decided, approved, locked, lock, r, id);
    }
  }

  lemma {:induction false} ShutOutStays(run: seq<World>, k: nat, id: SessionId)
    requires HoldRun(run) && k < |run| && ShutOut(run[0], id)
    ensures ShutOut(run[k], id)
  {
    if k > 0 {
      ShutOutStays(run, k - 1, id);
      assert HoldStepAt(run, k);
      HoldStepKeepsShutOut(run[k - 1], run[k], id);
    }
  }

  /**
   * An approval whose rate lock fails cannot be repeated: the session waits in its hold, every further decision on it
   * is refused, and all it can still do is expire.
   */
  lemma FailedLockIsFinal(w: World, id: SessionId, lock: string, r: ReservationId, run: seq<World>, k: nat)
    requires Resolution(w, id, true, false) == LockFailed
    requires HoldRun(run) && k < |run| && run[0] == Resolved(w, id, true, false, lock, r)
    ensures run[0].sessions == w.sessions && ShutOut(run[k], id)
    ensures forall approved, locked :: Resolution(run[k], id, approved, locked) in {NotInHold, CaseAlreadyResolved}
  {
    ShutOutStays(run, k, id);
    forall approved, locked ensures Resolution(run[k], id, approved, locked) in {NotInHold, CaseAlreadyResolved} {
      ShutOutIsRefused(run[k], id, approved, locked, lock, r);
    }
  }
}
