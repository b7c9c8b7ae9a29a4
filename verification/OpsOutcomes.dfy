/** What ops do to a settlement, row by row: retries, payments by hand, paging and resolved reversals. */
module OpsOutcomes {
  import opened Common
  import opened Ledger
  import opened Settlement
  import opened SettlementInvariant
  import opened SettlementSteps
  import opened SettlementRuns
  import opened DispatchOutcomes

  // ----- retries -----

  /** The settlement waits for a worker again, with the corrected destination and no page. */
  function Queued(c: Case, corrected: Option<Destination>): Case {
    c.(status := PendingDispatch, session := SessionSettling, opsPaged := false, pending := corrected)
  }

  /** The open attempt failed in the bucket of confirmations, behind the reason it had, if any. */
  function ConfirmedAttempt(a: Attempt, admin: string): Attempt {
    a.(status := Failed(3),
       reason := Some((if a.reason.Some? then a.reason.value + "; " else "") + ("confirmed failed by admin " + admin)))
  }

  lemma ConfirmedIs(id: SessionId, c: Case, admin: string)
    requires c in Sound(id) && c.status == Settling && IsDispatched(c, |c.attempts|)
    ensures var n := |c.attempts|;
            ResolveConfirmedFailed(id, c, "confirmed failed by admin " + admin)
            == c.(attempts := c.attempts[..n - 1] + [ConfirmedAttempt(c.attempts[n - 1], admin)],
                  journal := Then(c.journal, TakenBack(AttemptReversal(id, n), c)))
  {
    var n := |c.attempts|;
    var after := ResolveConfirmedFailed(id, c, "confirmed failed by admin " + admin).attempts;
    ReversedUpToIs(id, c, n);
    forall i | 0 <= i < n - 1 ensures after[i] == c.attempts[i] {
      StatusOfAttempt(id, c, i + 1);
    }
    assert after[n - 1] == ConfirmedAttempt(c.attempts[n - 1], admin);
    assert after == c.attempts[..n - 1] + [ConfirmedAttempt(c.attempts[n - 1], admin)];
  }

  /**
   * What a retry leaves. A failed or parked settlement is queued as it is. One that is settling is queued exactly when
   * ops were paged and the admin confirms that the payout failed, and then its open attempt has failed and its claim is
   * taken back. Any other is refused and untouched.
   */
  lemma RetryIsRecorded(id: SessionId, c: Case, corrected: Option<Destination>, confirmed: bool, admin: string)
    requires c in Sound(id) && Truthful(c, Retry(corrected, confirmed, admin))
    ensures RetryPayout(id, c, corrected, confirmed, admin) ==
            if c.status == SettlementFailed || c.status == AwaitingManualPayout then Effect(Queued(c, corrected), Done)
            else if c.status == Settling && c.opsPaged && confirmed && c.attempts != [] then
              var n := |c.attempts|;
              Effect(Queued(c, corrected)
                       .(attempts := c.attempts[..n - 1] + [ConfirmedAttempt(c.attempts[n - 1], admin)],
                         journal := Then(c.journal, TakenBack(AttemptReversal(id, n), c))), Done)
            else Effect(c, NotRetryable)
  {
    if c.status == Settling {
      SoundPhases(id, c);
      if c.opsPaged && confirmed {
        assert !InFlightNow(c, |c.attempts|);
        ConfirmedFailedIsFailure(id, c, "confirmed failed by admin " + admin);
        ConfirmedIs(id, c, admin);
        QueuedIsSound(id, ResolveConfirmedFailed(id, c, "confirmed failed by admin " + admin), corrected);
      }
    } else if c.status in {SettlementFailed, AwaitingManualPayout} {
      QueuedIsSound(id, c, corrected);
    }
  }

  // ----- payments by hand -----

  /**
   * A payment by hand is an attempt of its own, under its own key, with who settled it; it is claimed like any other,
   * and settles row, session and deposit address. It is taken from parked settlements only.
   */
  lemma HandPaymentIsRecorded(id: SessionId, c: Case, who: string)
    requires c in Sound(id)
    ensures ManualSettle(id, c, who) ==
            if c.status != AwaitingManualPayout then Effect(c, NotAwaitingManualPayout)
            else
              Effect(c.(status := Settled, session := SessionSettled, reservation := Released, hand := NotSent,
                        journal := Then(c.journal, PaidOut(ManualPayout(id), c)),
                        attempts := c.attempts + [Attempt("manual", ManualPayout(id), Succeeded, None, None,
                                                          OtherPayload(who), c.hand)]), Done)
  {
    if c.status == AwaitingManualPayout {
      ParkedIsPayable(id, c);
    }
  }

  // ----- paging -----

  /** The sweep pages ops for every due settlement that is settling, and for no other. */
  lemma SweepPagesSettling(id: SessionId, c: Case)
    requires c in Sound(id)
    ensures PageTimedOut(c) == if c.status == Settling then c.(opsPaged := true) else c
  {
    if c.status == Settling {
      SoundPhases(id, c);
      assert c.attempts[|c.attempts| - 1].status == Dispatched;
    }
  }

  // ----- resolved reversals -----

  /** Where ops say the money is: both legs in one asset, with an amount. */
  predicate Acceptable(adj: Adjustment) {
    adj.amount > 0.0 && adj.debit.asset != "" && adj.debit.asset == adj.credit.asset
  }

  /**
   * A reversed settlement has one case, which an acceptable adjustment closes, once: the adjustment is in the books
   * with its legs as given, and settlement and session are resolved. Each refusal has its cause and leaves everything
   * alone.
   */
  lemma ReversalIsResolved(id: SessionId, c: Case, index: nat, adj: Adjustment)
    requires c in Sound(id)
    ensures ResolveReversal(id, c, index, adj) ==
            if index > 0 || (c.status != Reversed && c.status != ReversalResolved) then Effect(c, ReversalNotFound)
            else if c.status == ReversalResolved then Effect(c, ReversalAlreadyResolved)
            else if !Acceptable(adj) then Effect(c, LedgerRefused)
            else
              Effect(c.(status := ReversalResolved, session := SessionReversalResolved, reversals := [Closed],
                        journal := Then(c.journal, Posting(ManualAdjustment(id, 0), adj.debit, adj.credit, adj.amount,
                                                           adj.debit.asset))), Done)
  {
    CasesOf(id, c);
  }

  lemma CasesOf(id: SessionId, c: Case)
    requires c in Sound(id)
    ensures c.reversals == if c.status == Reversed then [Open]
                           else if c.status == ReversalResolved then [Closed] else []
    ensures c.status == Reversed ==> c.session == SessionReversed && ManualAdjustment(id, 0) !in Keys(c.journal)
  {
  }
}
