/** The reconciliation job: it compares the balance cache with the entries and opens one case per drifted account. */
module Reconcile {
  import opened Common
  import opened Ledger

  datatype Discrepancy = Discrepancy(account: Account, cached: real, computed: real, drift: real, open: bool)

  datatype ResolveResult = Resolved | AlreadyResolved

  function Drifted(b: Book): set<Account> {
    set account | account in b.balances && b.balances[account] != Computed(b, account)
  }

  predicate HasOpen(cases: seq<Discrepancy>, account: Account) {
    exists i :: 0 <= i < |cases| && cases[i].open && cases[i].account == account
  }

  /** Never two open cases for the same account. */
  ghost predicate OneOpenEach(cases: seq<Discrepancy>) {
    forall i, j | 0 <= i < j < |cases| && cases[i].open && cases[j].open :: cases[i].account != cases[j].account
  }

  function Case(b: Book, account: Account): Discrepancy {
    Discrepancy(account, Cached(b, account), Computed(b, account), Cached(b, account) - Computed(b, account), true)
  }

  /** What one sweep does: old cases stay, and exactly the drifted accounts without an open case get one. */
  ghost predicate Swept(b: Book, before: seq<Discrepancy>, after: seq<Discrepancy>) {
    SweptOver(b, Drifted(b), before, after)
  }

  ghost predicate SweptOver(b: Book, drifted: set<Account>, before: seq<Discrepancy>, after: seq<Discrepancy>) {
    && |before| <= |after| && after[..|before|] == before
    && (forall i | |before| <= i < |after| ::
          && after[i].account in drifted && !HasOpen(before, after[i].account) && after[i] == Case(b, after[i].account))
    && (forall i, j | |before| <= i < j < |after| :: after[i].account != after[j].account)
    && (forall account | account in drifted :: HasOpen(after, account))
  }

  /** One more account looked at: a case is opened unless one is open. */
  lemma SweptOneMore(b: Book, done: set<Account>, before: seq<Discrepancy>, sofar: seq<Discrepancy>, account: Account)
    requires SweptOver(b, done, before, sofar) && account !in done
    ensures HasOpen(sofar, account) <==> HasOpen(before, account)
    ensures SweptOver(b, done + {account}, before,
                      if HasOpen(sofar, account) then sofar else sofar + [Case(b, account)])
  {
    if HasOpen(before, account) {
      StillOpen(before, sofar, account);
    }
    if !HasOpen(sofar, account) {
      var after := sofar + [Case(b, account)];
      assert after[|sofar|].account == account;
      forall other | other in done ensures HasOpen(after, other) {
        StillOpen(sofar, after, other);
      }
    }
  }

  lemma SweepKeepsOneOpen(b: Book, before: seq<Discrepancy>, after: seq<Discrepancy>)
    requires OneOpenEach(before) && Swept(b, before, after)
    ensures OneOpenEach(after)
  {
    forall i, j | 0 <= i < j < |after| && after[i].open && after[j].open
      ensures after[i].account != after[j].account
    {
      if i < |before| {
        assert after[i] == before[i];
        if j < |before| {
          assert after[j] == before[j];
        }
      }
    }
  }

  lemma FirstNewCase(b: Book, before: seq<Discrepancy>, after: seq<Discrepancy>)
    requires Swept(b, before, after)
    ensures |before| < |after| ==> after[|before|].account in Drifted(b) && !HasOpen(before, after[|before|].account)
    ensures |before| == |after| ==> before == after
  {
  }

  /**
   * A sweep opens a case for exactly the accounts whose cached balance is not the sum of their entries and that have
   * none open, with both numbers and their difference, and it opens no second one.
   */
  lemma SweepOpensExactly(b: Book, before: seq<Discrepancy>, after: seq<Discrepancy>, account: Account)
    requires Swept(b, before, after)
    ensures (exists i :: |before| <= i < |after| && after[i].account == account) <==>
            account in b.balances && b.balances[account] != Sum(b.rows, OnAccount(account)) && !HasOpen(before, account)
    ensures forall i | |before| <= i < |after| && after[i].account == account ::
              && after[i] == Discrepancy(account, Cached(b, account), Computed(b, account),
                                         Cached(b, account) - Computed(b, account), true)
              && forall j | |before| <= j < |after| && after[j].account == account :: j == i
  {
    if account in Drifted(b) && !HasOpen(before, account) {
      var i :| 0 <= i < |after| && after[i].open && after[i].account == account;
      assert |before| <= i;
    }
  }

  /** After any run of posts the sweep finds nothing to flag. */
  lemma SweepOfPostedBookFlagsNothing(txns: seq<Transaction>, before: seq<Discrepancy>, after: seq<Discrepancy>)
    requires Swept(AfterPosts(EMPTY_BOOK, txns), before, after)
    ensures after == before
  {
    CacheAgreesAfterAnyRun(txns);
    var b := AfterPosts(EMPTY_BOOK, txns);
    forall account | account in b.balances ensures b.balances[account] == Computed(b, account) {
      assert Cached(b, account) == Computed(b, account);
    }
    FirstNewCase(b, before, after);
  }

  /** A second sweep over unchanged tables opens nothing: no account is paged twice for the same case. */
  lemma SecondSweepFlagsNothing(b: Book, cases: seq<Discrepancy>, once: seq<Discrepancy>, twice: seq<Discrepancy>)
    requires Swept(b, cases, once) && Swept(b, once, twice)
    ensures twice == once
  {
    FirstNewCase(b, once, twice);
  }

  /** One step of the world: outside writes to the tables, a sweep, or a manual resolution. */
  ghost predicate Next(b: Book, cases: seq<Discrepancy>, b': Book, cases': seq<Discrepancy>) {
    || cases' == cases
    || (b' == b && Swept(b, cases, cases'))
    || (b' == b && exists i :: 0 <= i < |cases| && cases' == cases[i := cases[i].(open := false)])
  }

  lemma {:induction false} OneOpenInEveryRun(books: seq<Book>, runs: seq<seq<Discrepancy>>)
    requires |books| == |runs| > 0 && runs[0] == []
    requires forall i | 0 <= i < |runs| - 1 :: Next(books[i], runs[i], books[i + 1], runs[i + 1])
    ensures OneOpenEach(runs[|runs| - 1])
  {
    var last := |runs| - 1;
    if last > 0 {
      OneOpenInEveryRun(books[..last], runs[..last]);
      assert Next(books[last - 1], runs[last - 1], books[last - 1 + 1], runs[last - 1 + 1]);
      if books[last] == books[last - 1] && Swept(books[last - 1], runs[last - 1], runs[last]) {
        SweepKeepsOneOpen(books[last - 1], runs[last - 1], runs[last]);
      }
    }
  }

  class ReconcileJob {
    const ledger: LedgerStore
    var discrepancies: seq<Discrepancy>
    /** Accounts for which drift was published, in order. */
    var published: seq<Account>

    constructor (ledger: LedgerStore)
      ensures this.ledger == ledger && discrepancies == [] && published == []
    {
      this.ledger := ledger;
      discrepancies, published := [], [];
    }

    /** Opens a case and publishes it, unless the account already has one open. */
    method FlagDrift(account: Account, cached: real, computed: real)
      modifies this
      ensures HasOpen(old(discrepancies), account) ==>
              discrepancies == old(discrepancies) && published == old(published)
      ensures !HasOpen(old(discrepancies), account) ==>
                && discrepancies
                   == old(discrepancies) + [Discrepancy(account, cached, computed, cached - computed, true)]
                && published == old(published) + [account]
    {
      if HasOpen(discrepancies, account) {
        return;
      }
      discrepancies := discrepancies + [Discrepancy(account, cached, computed, cached - computed, true)];
      published := published + [account];
    }

    method SweepOnce()
      modifies this
      ensures Swept(ledger.Tables(), old(discrepancies), discrepancies)
      ensures published == old(published) + NewAccounts(old(discrepancies), discrepancies)
    {
      ghost var b := ledger.Tables();
      ghost var before := discrepancies;
      var balances, rows := ledger.balances, ledger.rows;
      var drifted := set account | account in balances && balances[account] != Sum(rows, OnAccount(account));
      assert drifted == Drifted(b);
      while drifted != {}
        invariant ledger.Tables() == b && ledger.balances == balances && ledger.rows == rows
        invariant drifted <= Drifted(b) && SweptOver(b, Drifted(b) - drifted, before, discrepancies)
        invariant published == old(published) + NewAccounts(before, discrepancies)
      {
        var account :| account in drifted;
        SweptOneMore(b, Drifted(b) - drifted, before, discrepancies, account);
        assert Drifted(b) - drifted + {account} == Drifted(b) - (drifted - {account});
        ghost var sofar := discrepancies;
        FlagDrift(account, balances[account], Sum(rows, OnAccount(account)));
        drifted := drifted - {account};
        NewAccountAdded(before, sofar, Case(b, account));
      }
      assert Drifted(b) - {} == Drifted(b);
    }

    /** Closes a case once; the balance cache is never rewritten. */
    method ResolveDiscrepancy(id: nat) returns (result: ResolveResult)
      modifies this`discrepancies
      ensures result == Resolved <==> id < |old(discrepancies)| && old(discrepancies)[id].open
      ensures discrepancies == if result == Resolved
              then old(discrepancies)[id := old(discrepancies)[id].(open := false)]
                               else old(discrepancies)
    {
      if id < |discrepancies| && discrepancies[id].open {
        discrepancies := discrepancies[id := discrepancies[id].(open := false)];
        return Resolved;
      }
      return AlreadyResolved;
    }
  }

  function NewAccounts(before: seq<Discrepancy>, after: seq<Discrepancy>): (accounts: seq<Account>)
    requires |before| <= |after|
  {
    seq(|after| - |before|, i requires 0 <= i < |after| - |before| => after[|before| + i].account)
  }

  lemma NewAccountAdded(before: seq<Discrepancy>, sofar: seq<Discrepancy>, d: Discrepancy)
    requires |before| <= |sofar|
    ensures NewAccounts(before, sofar + [d]) == NewAccounts(before, sofar) + [d.account]
  {
  }

  lemma StillOpen(before: seq<Discrepancy>, sofar: seq<Discrepancy>, account: Account)
    requires |before| <= |sofar| && sofar[..|before|] == before && HasOpen(before, account)
    ensures HasOpen(sofar, account)
  {
    var i :| 0 <= i < |before| && before[i].open && before[i].account == account;
    assert sofar[i] == before[i];
  }
}
