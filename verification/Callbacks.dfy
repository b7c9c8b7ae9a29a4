/** What each Hyparrow callback does, from its event name to the rows of the settlement that its reference names. */
module Callbacks {
  import opened Common
  import opened Ledger
  import opened Settlement
  import opened SettlementInvariant
  import opened SettlementSteps
  import opened SettlementRuns
  import opened SettlementRetries
  import opened DispatchOutcomes
  import Hyparrow

  /** A callback that was parsed and handed to the attempt stored under its reference. */
  function Received(id: SessionId, c: Case, env: Env, event: string, reference: string, n: nat,
                    reason: string): Effect {
    Hook(id, c, env, Hyparrow.KindOf(event, reference), n, reason)
  }

  /** The attempt is stored under a reference. */
  predicate Stored(c: Case, n: nat) {
    1 <= n <= |c.attempts| && c.attempts[n - 1].reference.Some?
  }

  // ----- transfer.settled -----

  /**
   * A callback settles a settlement exactly when it says so and names the open attempt. Then that attempt has
   * succeeded, the session is settled, the deposit address is released, and nothing else has changed.
   */
  lemma SettlesIffSettledEvent(id: SessionId, c: Case, env: Env, event: string, reference: string, n: nat,
                               reason: string)
    requires c in Sound(id) && Stored(c, n)
    ensures var e := Received(id, c, env, event, reference, n, reason);
            var settles := reference != "" && event == "transfer.settled" && c.attempts[n - 1].status == Dispatched;
            && (c.status != Settled && e.c.status == Settled <==> settles)
            && (settles ==>
                  e == Effect(c.(status := Settled, session := SessionSettled, reservation := Released,
                                 attempts := c.attempts[n - 1 := c.attempts[n - 1].(status := Succeeded)]), Done))
  {
    StatusOfAttempt(id, c, n);
    if c.attempts[n - 1].status == Dispatched {
      OpenIsLatest(id, c, n);
      HandleFailureStatus(id, c, env, n, 2, reason, false);
    }
  }

  // ----- transfer.failed -----

  /** A decline may still land: on an open attempt without a reason it leaves its own and pages ops, and that is all. */
  lemma DeclineOnlyPages(id: SessionId, c: Case, env: Env, reference: string, n: nat, reason: string)
    requires Stored(c, n) && reference != ""
    ensures var a := c.attempts[n - 1];
            Received(id, c, env, "transfer.failed", reference, n, reason)
            == Effect(if a.status == Dispatched && a.reason == None
                      then c.(attempts := c.attempts[n - 1 := a.(reason := Some(reason))], opsPaged := true) else c,
                      Done)
  {
  }

  // ----- transfer.reversed -----

  /** The failed attempt, and what came before it. */
  function FailedByCallback(c: Case, n: nat, reason: string): seq<Attempt>
    requires 1 <= n <= |c.attempts|
  {
    c.attempts[..n - 1] + [c.attempts[n - 1].(status := Failed(2), reason := Some(reason))]
  }

  lemma FailureIsMarked(id: SessionId, c: Case, env: Env, n: nat, reason: string)
    requires IsDispatched(c, n) && n == |c.attempts|
    ensures FailedByCallback(c, n, reason) <= HandleAttemptFailure(id, c, env, n, 2, reason, false).c.attempts
  {
    FailureKeepsEarlier(id, c, env, n, 2, reason, false);
    assert MarkFailed(c, n, 2, reason).attempts == FailedByCallback(c, n, reason);
  }

  lemma FailureGoesOn(id: SessionId, c: Case, env: Env, n: nat, reason: string)
    requires c in Sound(id) && HonestEnv(env) && IsDispatched(c, n) && n == |c.attempts| && c.status == Settling
    requires !Live(c.attempts[n - 1].funds)
    ensures var after := HandleAttemptFailure(id, c, env, n, 2, reason, false).c;
            && after in Sound(id) && after.status in {Settling, AwaitingManualPayout, SettlementFailed}
            && (after.status == Settling ==> |after.attempts| > n)
            && (n >= 3 ==> |after.attempts| == n)
  {
    HandleFailureKeeps(id, c, env, n, 2, reason, false);
    HandleFailureStatus(id, c, env, n, 2, reason, false);
    FailureIsMarked(id, c, env, n, reason);
    var after := HandleAttemptFailure(id, c, env, n, 2, reason, false).c;
    assert after.attempts[n - 1].status == Failed(2);
    StatusOfAttempt(id, after, n);
    if after.status == Settling {
      SoundPhases(id, after);
    }
  }

  /**
   * A reversal of the open attempt fails it, in the bucket of failures by callback, takes its claim back, and tries
   * again as long as three attempts were not made; then the settlement is given up.
   */
  lemma ReversalFailsOpenAttempt(id: SessionId, c: Case, env: Env, reference: string, n: nat, reason: string)
    requires c in Sound(id) && HonestEnv(env) && Stored(c, n) && reference != ""
    requires c.attempts[n - 1].status == Dispatched && !Live(c.attempts[n - 1].funds)
    ensures var after := Received(id, c, env, "transfer.reversed", reference, n, reason).c;
            && after in Sound(id) && n == |c.attempts| && FailedByCallback(c, n, reason) <= after.attempts
            && Has(after.journal, TakenBack(AttemptReversal(id, n), c))
            && after.status in {Settling, AwaitingManualPayout, SettlementFailed}
            && (after.status == Settling ==> |after.attempts| > n)
            && (n >= 3 ==> |after.attempts| == n)
  {
    OpenIsLatest(id, c, n);
    FailureIsMarked(id, c, env, n, reason);
    FailureGoesOn(id, c, env, n, reason);
    ReversalIsPosted(id, c, env, n, 2, reason, false);
    assert Received(id, c, env, "transfer.reversed", reference, n, reason)
           == HandleAttemptFailure(id, c, env, n, 2, reason, false);
  }

  /** A reversal of a payout that was settled reverses the settlement: its claim is taken back, and a case is opened. */
  lemma ReversalReversesSettled(id: SessionId, c: Case, env: Env, reference: string, n: nat, reason: string)
    requires c in Sound(id) && Stored(c, n) && reference != "" && c.attempts[n - 1].status != Dispatched
    ensures Received(id, c, env, "transfer.reversed", reference, n, reason)
            == Effect(if c.attempts[n - 1].status == Succeeded && c.status == Settled
                      then c.(status := Reversed, session := SessionReversed, reversals := [Open],
                              journal := Then(c.journal, TakenBack(SettlementReversal(id), c))) else c, Done)
  {
    StatusOfAttempt(id, c, n);
    if c.status == Settled {
      SettledIsReversible(id, c);
    }
  }

  lemma SettledIsReversible(id: SessionId, c: Case)
    requires c in Sound(id) && c.status == Settled
    ensures c.session == SessionSettled && c.reversals == [] && SettlementReversal(id) !in Keys(c.journal)
    ensures c.amount > 0.0 && c.terms.currency != ""
  {
  }

  // ----- anything else -----

  /** Other events, events without a reference, and references of no attempt change nothing. */
  lemma OtherEventsChangeNothing(id: SessionId, c: Case, env: Env, event: string, reference: string, n: nat,
                                 reason: string)
    requires reference == "" || !Stored(c, n) || event !in {"transfer.settled", "transfer.failed", "transfer.reversed"}
    ensures Received(id, c, env, event, reference, n, reason).c == c
  {
  }

  // ----- the other adapters -----

  /** parseGenericWebhook: three events are known, any other is an error. */
  function GenericKind(event: string): Option<HookKind> {
    if event == "payout.succeeded" then Some(HookSucceeded)
    else if event == "payout.failed" then Some(HookFailed)
    else if event == "payout.returned" then Some(HookReturned)
    else None
  }

  /**
   * The placeholder adapters' events in the terms of Hyparrow's: a success is a success; a failure is a reversal of the
   * open attempt, and nothing to any other; a return reverses what is settled, whichever attempt it names.
   */
  lemma GenericEvents(id: SessionId, c: Case, env: Env, event: string, reference: string, n: nat, reason: string)
    requires c in Sound(id) && Stored(c, n) && reference != ""
    ensures GenericKind(event) == None <==> event !in {"payout.succeeded", "payout.failed", "payout.returned"}
    ensures GenericKind(event).Some? ==>
            Hook(id, c, env, GenericKind(event).value, n, reason) ==
            match event
            case "payout.succeeded" => Received(id, c, env, "transfer.settled", reference, n, reason)
            case "payout.failed" =>
              if c.attempts[n - 1].status != Dispatched then Effect(c, Done)
              else Received(id, c, env, "transfer.reversed", reference, n, reason)
            case _ =>
              Effect(if c.status == Settled
                     then c.(status := Reversed, session := SessionReversed, reversals := [Open],
                             journal := Then(c.journal, TakenBack(SettlementReversal(id), c))) else c, Done)
  {
    if c.status == Settled {
      SettledIsReversible(id, c);
    }
  }
}
