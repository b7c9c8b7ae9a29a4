/** The settlement store: the entry points over the rows of all sessions and the shared ledger. */
module SettlementStore {
  import opened Common
  import opened Ledger
  import opened Settlement
  import opened SettlementInvariant
  import opened SettlementRuns

  function PairOf(p: Posting): Transaction {
    Pair(p.key, p.debit, p.credit, p.amount, p.asset)
  }

  /** Entries of a session's own transactions on an account, adjustments aside. */
  function SessionOn(id: SessionId, account: Account): Row -> real {
    (r: Row) => if OwnKey(id, r.key) && !r.key.ManualAdjustment? && r.entry.account == account then Delta(r.entry)
        else 0.0
  }

  /** The session's journal is what the shared ledger holds under the session's keys. */
  ghost predicate Mirrors(id: SessionId, j: Journal, b: Book) {
    && (forall k | OwnKey(id, k) :: k in b.keys <==> k in Keys(j))
    && (forall account :: Sum(b.rows, SessionOn(id, account)) == Contribution(j, account))
  }

  /** A pair posted under one session's key shows in that session's journal and in no other. */
  lemma PostMirrored(id: SessionId, p: Posting, t: SessionId, j: Journal, b: Book)
    requires Mirrors(t, j, b) && OwnKey(id, p.key)
    ensures Mirrors(t, if t == id then Then(j, p) else j, Append(b, PairOf(p)))
  {
    var after := Append(b, PairOf(p));
    var j' := if t == id then Then(j, p) else j;
    forall account ensures Sum(after.rows, SessionOn(t, account)) == Contribution(j', account) {
      PairMoves(b, p.key, p.debit, p.credit, p.amount, p.asset, SessionOn(t, account));
    }
  }

  /** Everything the store and its ledger hold. */
  datatype Contents = Contents(cases: map<SessionId, Case>, order: seq<SessionId>, book: Book)

  function JournalOf(cases: map<SessionId, Case>, id: SessionId): Journal {
    if id in cases then cases[id].journal else Empty
  }

  /** Every settlement is listed, the ledger's cache agrees with its entries, and each session's journal mirrors it. */
  ghost function Coherent(): iset<Contents> {
    iset s: Contents |
      && (forall id :: id in s.order <==> id in s.cases)
      && Consistent(s.book)
      && (forall id :: Mirrors(id, JournalOf(s.cases, id), s.book))
  }

  /** The ledger refuses a session's posting by that session's own journal. */
  lemma RefusedByOwnJournal(s: Contents, id: SessionId, p: Posting)
    requires s in Coherent() && id in s.cases && OwnKey(id, p.key)
    ensures Refusal(s.book, PairOf(p)) ==
            if !Postable(p) then Some(InvalidEntry) else if p.key in Keys(s.cases[id].journal) then Some(AlreadyPosted)
                else None
  {
    assert Mirrors(id, JournalOf(s.cases, id), s.book);
    PairRefusal(s.book, p.key, p.debit, p.credit, p.amount, p.asset);
  }

  lemma PostKeepsCoherent(s: Contents, id: SessionId, p: Posting)
    requires s in Coherent() && id in s.cases && OwnKey(id, p.key) && Refusal(s.book, PairOf(p)) == None
    ensures Contents(WithJournal(s.cases, id, Then(s.cases[id].journal, p)), s.order, Append(s.book, PairOf(p)))
            in Coherent()
  {
    var after := Contents(WithJournal(s.cases, id, Then(s.cases[id].journal, p)), s.order, Append(s.book, PairOf(p)));
    PostKeepsConsistent(s.book, PairOf(p));
    forall t ensures Mirrors(t, JournalOf(after.cases, t), after.book) {
      PostMirrored(id, p, t, JournalOf(s.cases, t), s.book);
    }
  }

  lemma SaveKeepsCoherent(s: Contents, id: SessionId, row: Case)
    requires s in Coherent() && id in s.cases && row.journal == s.cases[id].journal
    ensures s.(cases := s.cases[id := row]) in Coherent()
  {
    var after := s.(cases := s.cases[id := row]);
    forall t ensures JournalOf(after.cases, t) == JournalOf(s.cases, t) {}
  }

  lemma InsertKeepsCoherent(s: Contents, id: SessionId, row: Case)
    requires s in Coherent() && id !in s.cases && row.journal == Empty
    ensures s.(cases := s.cases[id := row], order := s.order + [id]) in Coherent()
  {
    var after := s.(cases := s.cases[id := row], order := s.order + [id]);
    forall t ensures JournalOf(after.cases, t) == JournalOf(s.cases, t) {}
    forall t ensures t in after.order <==> t in s.order || t == id {}
  }

  lemma PageKeepsCoherent(s: Contents, due: set<SessionId>)
    requires s in Coherent()
    ensures s.(cases := map id | id in s.cases :: if id in due then PageTimedOut(s.cases[id]) else s.cases[id])
            in Coherent()
  {
    var after := s.(cases := map id | id in s.cases :: if id in due then PageTimedOut(s.cases[id]) else s.cases[id]);
    forall t ensures JournalOf(after.cases, t) == JournalOf(s.cases, t) {}
  }

  lemma CoherentLists(s: Contents)
    requires s in Coherent()
    ensures forall id :: id in s.order <==> id in s.cases
  {
  }

  lemma Overwrite<K, V>(m: map<K, V>, k: K, v: V, w: V)
    ensures m[k := v][k := w] == m[k := w]
    ensures k in m ==> m[k := m[k]] == m
  {
  }

  /** A run of the dispatch loop never puts the settlement back into the queue. */
  lemma {:induction false} DispatchLeavesQueue(id: SessionId, c: Case, env: Env)
    requires c.status != PendingDispatch
    ensures Settlement.DispatchAttempt(id, c, env).c.status != PendingDispatch
    decreases 2 * RetryBudget(|c.attempts|) + 1
  {
    match Choose(Enabled(env), Tried(c.attempts))
    case None =>
    case Some(provider) =>
      var n := |c.attempts| + 1;
      var reply := env.replies(n);
      if Rejected(reply) {
        FailureLeavesQueue(id, Called(id, c, provider, reply).(pending := None), env, n,
                           if reply.kind == RejectedTerminal then 4 else 1, reply.reason,
                           reply.kind == RejectedTerminal);
      }
  }

  lemma {:induction false} FailureLeavesQueue(id: SessionId, c: Case, env: Env, n: nat, bucket: nat, reason: string,
                                              terminal: bool)
    requires c.status != PendingDispatch
    ensures Settlement.HandleAttemptFailure(id, c, env, n, bucket, reason, terminal).c.status != PendingDispatch
    decreases if n >= MAX_AUTO_RETRY_ATTEMPTS then 0 else 2 * RetryBudget(|c.attempts|) + 2
  {
    var reversal := ReversalPosting(AttemptReversal(id, n), c);
    if IsDispatched(c, n) && Postable(reversal) && !terminal && n < MAX_AUTO_RETRY_ATTEMPTS {
      DispatchLeavesQueue(id, MarkFailed(c, n, bucket, reason).(journal := Recorded(c.journal, reversal)), env);
    }
  }

  lemma WorkLeavesQueue(id: SessionId, c: Case, env: Env)
    requires c.status == PendingDispatch
    ensures Work(id, c, env).c.status != PendingDispatch
  {
    if c.lock.Some? {
      var value := LockedValue(c.confirmedTotal, c.lock.value);
      var deposited := Recorded(c.journal, DepositPosting(id, c));
      DispatchLeavesQueue(id, c.(status := Settling, amount := value, session := SessionSettling,
                                 journal := Recorded(deposited, FxPosting(id, c, value))), env);
    }
  }

  /** Every settlement of a batch after the worker has been to the listed ones. */
  function Drained(cases: map<SessionId, Case>, done: set<SessionId>, envs: SessionId -> Env)
    : (after: map<SessionId, Case>)
    ensures after.Keys == cases.Keys
  {
    map id | id in cases :: if id in done then Work(id, cases[id], envs(id)).c else cases[id]
  }

  function Queue(cases: map<SessionId, Case>): set<SessionId> {
    set id | id in cases && cases[id].status == PendingDispatch
  }

  /** Working off the claimed settlement takes it, and it alone, out of the queue. */
  lemma DrainedOneMore(cases: map<SessionId, Case>, done: set<SessionId>, envs: SessionId -> Env, id: SessionId)
    requires id in Queue(Drained(cases, done, envs)) && done <= cases.Keys
    ensures id !in done
    ensures Drained(cases, done, envs)[id := Work(id, cases[id], envs(id)).c] == Drained(cases, done + {id}, envs)
    ensures Queue(Drained(cases, done + {id}, envs)) == Queue(Drained(cases, done, envs)) - {id}
  {
    if id in done && cases[id].status == PendingDispatch {
      WorkLeavesQueue(id, cases[id], envs(id));
    }
    if cases[id].status == PendingDispatch {
      WorkLeavesQueue(id, cases[id], envs(id));
    }
  }

  /** One round of the drain: the claim of a pending row, and what working it leaves. */
  lemma DrainStep(cases: map<SessionId, Case>, done: set<SessionId>, envs: SessionId -> Env, id: SessionId,
                  after: map<SessionId, Case>)
    requires id in Queue(Drained(cases, done, envs)) && done <= cases.Keys
    requires var claimed := Drained(cases, done, envs)[id].(status := Dispatching);
             var worked := Settlement.ProcessSettlement(id, claimed, envs(id)).c;
             after == Drained(cases, done, envs)[id := claimed][id := worked]
    ensures after == Drained(cases, done + {id}, envs)
    ensures Queue(after) == Queue(Drained(cases, done, envs)) - {id}
  {
    DrainedOneMore(cases, done, envs, id);
    var queued := Drained(cases, done, envs);
    Overwrite(queued, id, queued[id].(status := Dispatching), after[id]);
  }

  /** With nothing left in the queue every settlement has been to the worker, who leaves the others alone. */
  lemma DrainedAll(cases: map<SessionId, Case>, done: set<SessionId>, envs: SessionId -> Env)
    requires forall id | id in cases :: Drained(cases, done, envs)[id].status != PendingDispatch
    ensures Queue(Drained(cases, done, envs)) == {}
    ensures Drained(cases, done, envs) == map id | id in cases :: Work(id, cases[id], envs(id)).c
  {
  }

  /** The row as the deposit_confirmed handler inserts it: the session's own payout destination is pending at first. */
  function NewCase(terms: Terms, lock: Option<Lock>, confirmedTotal: real, reserved: bool): (row: Case)
    ensures Initial(row) && ResolvedDestination(row) == terms.destination && row.pending == Some(terms.destination)
    ensures row.terms == terms && row.lock == lock && row.confirmedTotal == confirmedTotal
    ensures row.reservation == Reserved <==> reserved
  {
    Case(terms, lock, confirmedTotal, if reserved then Reserved else NoReservation, SessionConfirmed,
         PendingDispatch, 0.0, false, Some(terms.destination), [], NotSent, [], Empty)
  }

  /** The rows of all sessions with one session's journal replaced. */
  function WithJournal(m: map<SessionId, Case>, id: SessionId, j: Journal): (after: map<SessionId, Case>)
    requires id in m
    ensures id in after
  {
    m[id := m[id].(journal := j)]
  }

  lemma WithJournalTwice(m: map<SessionId, Case>, id: SessionId, j: Journal, k: Journal)
    requires id in m
    ensures WithJournal(WithJournal(m, id, j), id, k) == WithJournal(m, id, k)
    ensures WithJournal(m, id, m[id].journal) == m
    ensures WithJournal(m, id, j)[id].journal == j
  {
  }

  /** Nothing created before the i-th settlement waits to be dispatched. */
  ghost predicate FirstPending(order: seq<SessionId>, cases: map<SessionId, Case>, i: nat)
    requires i <= |order| && forall j | 0 <= j < i :: order[j] in cases
  {
    forall j | 0 <= j < i :: cases[order[j]].status != PendingDispatch
  }

  /** Whether one of the first n attempts is dispatched. */
  predicate DispatchedAmong(c: Case, n: nat)
    requires n <= |c.attempts|
  {
    n > 0 && (c.attempts[n - 1].status == Dispatched || DispatchedAmong(c, n - 1))
  }

  /** Whether the ledger refuses a reversal due among the first n attempts; all of them carry one amount. */
  predicate RefusedAmong(id: SessionId, c: Case, n: nat)
    requires n <= |c.attempts|
  {
    DispatchedAmong(c, n) && !Postable(ReversalPosting(AttemptReversal(id, 1), c))
  }

  lemma {:induction false} AmongGrows(c: Case, n: nat, m: nat)
    requires n <= m <= |c.attempts| && DispatchedAmong(c, n)
    ensures DispatchedAmong(c, m)
  {
    if n < m {
      AmongGrows(c, n, m - 1);
    }
  }

  /** With nothing dispatched there is nothing to reverse. */
  lemma {:induction false} NothingToReverse(id: SessionId, c: Case, n: nat)
    requires n <= |c.attempts| && !DispatchedAmong(c, n)
    ensures ReversedUpTo(id, c, n) == c.journal
  {
    if n > 0 {
      NothingToReverse(id, c, n - 1);
    }
  }

  /** The first refusal comes before anything was posted. */
  lemma RefusedOneMore(id: SessionId, c: Case, n: nat)
    requires n < |c.attempts| && !RefusedAmong(id, c, n)
    ensures RefusedAmong(id, c, n + 1) <==>
            IsDispatched(c, n + 1) && !Postable(ReversalPosting(AttemptReversal(id, 1), c))
    ensures RefusedAmong(id, c, n + 1) ==> ReversedUpTo(id, c, n) == c.journal
  {
    if !DispatchedAmong(c, n) {
      NothingToReverse(id, c, n);
    }
  }

  /** The confirmation rewrites a row exactly when something is dispatched. */
  lemma {:induction false} ConfirmationMarks(id: SessionId, c: Case, note: string, n: nat)
    requires n <= |c.attempts|
    ensures ResolveConfirmedFailed(id, c, note).attempts[..n] == c.attempts[..n] <==> !DispatchedAmong(c, n)
  {
    var after := ResolveConfirmedFailed(id, c, note).attempts;
    if n > 0 {
      ConfirmationMarks(id, c, note, n - 1);
      assert after[..n] == after[..n - 1] + [after[n - 1]];
      assert c.attempts[..n] == c.attempts[..n - 1] + [c.attempts[n - 1]];
    }
  }

  /** The attempt row alone; the claim is already in the journal. */
  function WithAttempt(id: SessionId, c: Case, provider: string, reply: Reply): (called: Case)
    ensures |called.attempts| == |c.attempts| + 1
  {
    c.(attempts := Called(id, c, provider, reply).attempts)
  }

  /** What the provider's answer leads to, once the attempt's key is claimed. */
  function AfterCall(id: SessionId, claimed: Case, env: Env, provider: string): Effect {
    var n := |claimed.attempts| + 1;
    Routed(id, WithAttempt(id, claimed, provider, env.replies(n)), env, n, env.replies(n))
  }

  lemma CalledAfterClaim(id: SessionId, c: Case, provider: string, reply: Reply)
    ensures var claimed := c.(journal := Then(c.journal, ClaimPosting(Payout(id, |c.attempts| + 1), c)));
            WithAttempt(id, claimed, provider, reply) == Called(id, c, provider, reply)
  {
  }

  /** The attempt was made with the provider and is stored under the reference. */
  predicate RefersTo(cases: map<SessionId, Case>, provider: string, reference: string, id: SessionId, n: nat) {
    && id in cases && 1 <= n <= |cases[id].attempts|
    && cases[id].attempts[n - 1].provider == provider && cases[id].attempts[n - 1].reference == Some(reference)
  }

  /** No attempt under the same reference was dispatched later. */
  ghost predicate Latest(cases: map<SessionId, Case>, provider: string, reference: string,
                         dispatchedAt: (SessionId, nat) -> int, id: SessionId, n: nat) {
    && RefersTo(cases, provider, reference, id, n)
    && forall other, m | RefersTo(cases, provider, reference, other, m) :: dispatchedAt(other, m) <= dispatchedAt(id, n)
  }

  class SettlementStore {
    const ledger: LedgerStore
    /** One bundle of rows per session, and the sessions in the order their settlements were created. */
    var cases: map<SessionId, Case>
    var order: seq<SessionId>

    ghost predicate Valid()
      reads this, ledger
    {
      Contents(cases, order, ledger.Tables()) in Coherent()
    }

    constructor (ledger: LedgerStore)
      requires ledger.Tables() == EMPTY_BOOK
      ensures Valid() && this.ledger == ledger && cases == map[]
    {
      this.ledger := ledger;
      cases, order := map[], [];
    }

    /** Claims the session's row for a confirmed deposit; a redelivered event finds it there and does nothing. */
    method HandleDepositConfirmed(id: SessionId, terms: Terms, lock: Option<Lock>, confirmedTotal: real, reserved: bool)
      requires Valid()
      modifies this
      ensures Valid()
      ensures cases == if id in old(cases) then old(cases)
              else old(cases)[id := NewCase(terms, lock, confirmedTotal, reserved)]
    {
      if id !in cases {
        InsertKeepsCoherent(Contents(cases, order, ledger.Tables()), id,
                            NewCase(terms, lock, confirmedTotal, reserved));
        cases := cases[id := NewCase(terms, lock, confirmedTotal, reserved)];
        order := order + [id];
      }
    }

    /** Posts under one of the session's keys; the ledger alone decides. */
    method PostFor(id: SessionId, p: Posting) returns (result: PostResult)
      requires Valid() && id in cases && OwnKey(id, p.key)
      modifies this`cases, ledger
      ensures Valid()
      ensures result == if !Postable(p) then Refused(InvalidEntry)
                        else if p.key in Keys(old(cases[id].journal)) then Refused(AlreadyPosted) else Posted
      ensures var journal := if result == Posted then Then(old(cases[id].journal), p) else old(cases[id].journal);
              cases == old(cases)[id := old(cases[id]).(journal := journal)]
      ensures ledger.Tables() == if result == Posted then Append(old(ledger.Tables()), PairOf(p))
                                 else old(ledger.Tables())
    {
      ghost var before := Contents(cases, order, ledger.Tables());
      RefusedByOwnJournal(before, id, p);
      WithJournalTwice(cases, id, cases[id].journal, cases[id].journal);
      result := ledger.Post(PairOf(p));
      if result == Posted {
        PostKeepsCoherent(before, id, p);
        cases := cases[id := cases[id].(journal := Then(cases[id].journal, p))];
      }
    }

    /** One UPDATE of a session's rows; the ledger is not touched. */
    method Save(id: SessionId, row: Case)
      requires Valid() && id in cases && row.journal == cases[id].journal
      modifies this`cases
      ensures Valid()
      ensures cases == old(cases)[id := row]
    {
      SaveKeepsCoherent(Contents(cases, order, ledger.Tables()), id, row);
      cases := cases[id := row];
    }

    // ----- reading -----

    method TriedProviderNames(id: SessionId) returns (tried: set<string>)
      requires id in cases
      ensures tried == Tried(cases[id].attempts)
    {
      var attempts := cases[id].attempts;
      tried := {};
      for i := 0 to |attempts|
        invariant tried == Tried(attempts[..i])
      {
        tried := tried + {attempts[i].provider};
      }
    }

    /** Filters the bindings, then looks for an untried provider, then falls back to the first. */
    method SelectProvider(env: Env, tried: set<string>) returns (choice: Option<string>)
      ensures choice == Choose(Enabled(env), tried)
    {
      var enabled: seq<string> := [];
      for i := 0 to |env.bindings|
        invariant enabled == EnabledAmong(env.bindings[..i], env.registry)
      {
        var b := env.bindings[i];
        assert env.bindings[..i + 1][..i] == env.bindings[..i];
        if b in env.registry && env.registry[b] {
          enabled := enabled + [b];
        }
      }
      assert env.bindings[..|env.bindings|] == env.bindings;
      if |enabled| == 0 {
        return None;
      }
      for i := 0 to |enabled|
        invariant forall j | 0 <= j < i :: enabled[j] in tried
      {
        if enabled[i] !in tried {
          assert FirstUntried(enabled, tried) == i;
          return Some(enabled[i]);
        }
      }
      return Some(enabled[0]);
    }

    method ResolveDestination(id: SessionId) returns (destination: Destination)
      requires id in cases
      ensures destination == ResolvedDestination(cases[id])
    {
      var st := cases[id];
      if st.pending.Some? {
        return st.pending.value;
      }
      var n := |st.attempts|;
      assert st.attempts[..n] == st.attempts;
      while n > 0
        invariant 0 <= n <= |st.attempts| && LatestPayload(st.attempts[..n]) == LatestPayload(st.attempts)
      {
        if st.attempts[n - 1].payload != NoDetails {
          return st.attempts[n - 1].payload;
        }
        assert st.attempts[..n][..n - 1] == st.attempts[..n - 1];
        n := n - 1;
      }
      return st.terms.destination;
    }

    // ----- the dispatch loop -----

    method FailSettlement(id: SessionId, env: Env) returns (outcome: Outcome)
      requires Valid() && id in cases
      modifies this`cases
      ensures Valid()
      ensures cases == old(cases)[id := Settlement.FailSettlement(old(cases[id]), env).c]
      ensures outcome == Settlement.FailSettlement(old(cases[id]), env).outcome
    {
      var st := cases[id];
      ghost var before := cases;
      Overwrite(before, id, st, st);
      if env.telegramOn {
        var destination := ResolveDestination(id);
        if PayableByHand(destination) && env.alertDelivered {
          if st.status == Settling {
            Save(id, st.(status := AwaitingManualPayout, opsPaged := true));
          }
          return Done;
        }
      }
      if st.status != Settling {
        return Done;
      }
      st := st.(status := SettlementFailed, opsPaged := true);
      Save(id, st);
      if st.session != SessionSettling {
        return SessionConflict;
      }
      outcome := CloseSession(id, SessionFailed);
      Overwrite(before, id, st, cases[id]);
    }

    /** The session leaves settling, and the deposit address is released. */
    method CloseSession(id: SessionId, to: SessionStatus) returns (outcome: Outcome)
      requires Valid() && id in cases && cases[id].session == SessionSettling
      modifies this`cases
      ensures Valid() && outcome == Done
      ensures cases == old(cases)[id := Release(old(cases[id]).(session := to))]
    {
      var st := cases[id].(session := to);
      if st.reservation == Reserved {
        st := st.(reservation := Released);
      }
      Save(id, st);
      return Done;
    }

    /** Claims the attempt's key before the provider is called; a taken key stops the run. */
    method DispatchAttempt(id: SessionId, env: Env) returns (outcome: Outcome)
      requires Valid() && id in cases
      modifies this`cases, ledger
      ensures Valid()
      ensures cases == old(cases)[id := Settlement.DispatchAttempt(id, old(cases[id]), env).c]
      ensures outcome == Settlement.DispatchAttempt(id, old(cases[id]), env).outcome
      decreases 2 * RetryBudget(|cases[id].attempts|) + 1, 1
    {
      var st := cases[id];
      ghost var before := cases;
      Overwrite(before, id, st, st);
      var tried := TriedProviderNames(id);
      var provider := SelectProvider(env, tried);
      if provider == None {
        outcome := FailSettlement(id, env);
        return;
      }
      var n := |st.attempts| + 1;
      ghost var claim := ClaimPosting(Payout(id, n), st);
      var claimed := PostFor(id, ClaimPosting(Payout(id, n), st));
      if claimed == Refused(AlreadyPosted) {
        return Done;
      } else if claimed != Posted {
        return LedgerRefused;
      }
      ghost var recorded := cases[id];
      assert recorded == st.(journal := Then(st.journal, claim));
      outcome := CallProvider(id, env, provider.value);
      DispatchUnfolds(id, st, env, provider.value);
      CalledAfterClaim(id, st, provider.value, env.replies(n));
      Overwrite(before, id, recorded, cases[id]);
    }

    /** Inserts the attempt row, calls the provider, and takes up its answer. */
    method CallProvider(id: SessionId, env: Env, provider: string) returns (outcome: Outcome)
      requires Valid() && id in cases
      modifies this`cases, ledger
      ensures Valid() && id in cases
      ensures cases == old(cases)[id := cases[id]]
      ensures Effect(cases[id], outcome) == AfterCall(id, old(cases[id]), env, provider)
      decreases 2 * RetryBudget(|cases[id].attempts|) + 1, 0
    {
      ghost var before := cases;
      var n := |cases[id].attempts| + 1;
      InsertAttempt(id, provider, env.replies(n));
      ghost var called := cases[id];
      outcome := TakeUpAnswer(id, env, n, env.replies(n));
      Overwrite(before, id, called, cases[id]);
    }

    /** The attempt row, with the destination that is handed to the provider. */
    method InsertAttempt(id: SessionId, provider: string, reply: Reply)
      requires Valid() && id in cases
      modifies this`cases
      ensures Valid()
      ensures cases == old(cases)[id := WithAttempt(id, old(cases[id]), provider, reply)]
    {
      var st := cases[id];
      var destination := ResolveDestination(id);
      var attempt := Attempt(provider, Payout(id, |st.attempts| + 1), Dispatched, None, None, destination,
                             if reply.sent then InFlight else NotSent);
      Save(id, st.(attempts := st.attempts + [attempt]));
    }

    /** A failed call leaves the attempt open; an answer clears the pending destination and is routed. */
    method TakeUpAnswer(id: SessionId, env: Env, n: nat, reply: Reply) returns (outcome: Outcome)
      requires Valid() && id in cases && n == |cases[id].attempts| && n > 0
      modifies this`cases, ledger
      ensures Valid() && id in cases
      ensures cases == old(cases)[id := cases[id]]
      ensures Effect(cases[id], outcome) == Routed(id, old(cases[id]), env, n, reply)
      decreases (if n >= MAX_AUTO_RETRY_ATTEMPTS then 0 else 2 * RetryBudget(n) + 2), 1
    {
      ghost var before := cases;
      Overwrite(before, id, before[id], before[id]);
      if reply.kind == CallFailed {
        return DispatchCallFailed;
      }
      var st := cases[id].(pending := None);
      Save(id, st);
      if reply.kind == RejectedTerminal {
        outcome := HandleAttemptFailure(id, env, n, 4, reply.reason, true);
      } else if reply.kind == RejectedRetryable {
        outcome := HandleAttemptFailure(id, env, n, 1, reply.reason, false);
      } else {
        Save(id, Answered(st, reply));
        outcome := Done;
      }
      Overwrite(before, id, st, cases[id]);
    }

    method HandleAttemptFailure(id: SessionId, env: Env, n: nat, bucket: nat, reason: string, terminal: bool)
      returns (outcome: Outcome)
      requires Valid() && id in cases
      modifies this`cases, ledger
      ensures Valid()
      ensures var e := Settlement.HandleAttemptFailure(id, old(cases[id]), env, n, bucket, reason, terminal);
              cases == old(cases)[id := e.c] && outcome == e.outcome
      decreases (if n >= MAX_AUTO_RETRY_ATTEMPTS then 0 else 2 * RetryBudget(|cases[id].attempts|) + 2), 0
    {
      var st := cases[id];
      if !(1 <= n <= |st.attempts| && st.attempts[n - 1].status == Dispatched) {
        Overwrite(cases, id, st, st);
        return Done;
      }
      ghost var before := cases;
      ghost var marked := MarkFailed(st, n, bucket, reason);
      st := st.(attempts := st.attempts[n - 1 := st.attempts[n - 1].(status := Failed(bucket),
                                                                     reason := Some(reason))]);
      Save(id, st);
      assert cases == before[id := marked];
      var posted := PostFor(id, ReversalPosting(AttemptReversal(id, n), st));
      Overwrite(before, id, marked, cases[id]);
      assert cases == before[id := cases[id]];
      if posted == Refused(InvalidEntry) {
        return LedgerRefused;
      }
      ghost var reversed := cases[id];
      assert reversed == marked.(journal := Recorded(before[id].journal,
                                                     ReversalPosting(AttemptReversal(id, n), before[id])));
      if terminal || n >= MAX_AUTO_RETRY_ATTEMPTS {
        outcome := FailSettlement(id, env);
      } else {
        outcome := DispatchAttempt(id, env);
      }
      Overwrite(before, id, reversed, cases[id]);
    }

    // ----- the worker -----

    /** Claims the oldest pending row, if there is one. */
    method ClaimNextPendingDispatch() returns (claimed: Option<SessionId>)
      requires Valid()
      modifies this`cases
      ensures Valid()
      ensures claimed == None ==> cases == old(cases) && forall id | id in cases :: cases[id].status != PendingDispatch
      ensures claimed.Some? ==>
                && claimed.value in old(cases) && old(cases[claimed.value]).status == PendingDispatch
                && cases == old(cases)[claimed.value := old(cases[claimed.value]).(status := Dispatching)]
                && exists i :: 0 <= i < |order| && order[i] == claimed.value && FirstPending(order, old(cases), i)
    {
      CoherentLists(Contents(cases, order, ledger.Tables()));
      for i := 0 to |order|
        invariant cases == old(cases) && Valid()
        invariant forall j | 0 <= j < i :: cases[order[j]].status != PendingDispatch
      {
        var id := order[i];
        assert id in order;
        if cases[id].status == PendingDispatch {
          Save(id, cases[id].(status := Dispatching));
          assert order[i] == id && FirstPending(order, old(cases), i);
          return Some(id);
        }
      }
      return None;
    }

    /** Posts the deposit and the conversion unless an earlier run did, then settles and dispatches. */
    method ProcessSettlement(id: SessionId, env: Env) returns (outcome: Outcome)
      requires Valid() && id in cases
      modifies this`cases, ledger
      ensures Valid()
      ensures cases == old(cases)[id := Settlement.ProcessSettlement(id, old(cases[id]), env).c]
      ensures outcome == Settlement.ProcessSettlement(id, old(cases[id]), env).outcome
    {
      var st := cases[id];
      ghost var before := cases;
      Overwrite(before, id, st, st);
      if st.reservation == NoReservation || st.lock == None {
        return MissingLock;
      }
      var value := LockedValue(st.confirmedTotal, st.lock.value);
      var deposit := PostFor(id, DepositPosting(id, st));
      if deposit == Refused(InvalidEntry) {
        return LedgerRefused;
      }
      ghost var deposited := st.(journal := Recorded(st.journal, DepositPosting(id, st)));
      assert cases == before[id := deposited];
      var fx := PostFor(id, FxPosting(id, st, value));
      Overwrite(before, id, deposited, cases[id]);
      if fx == Refused(InvalidEntry) {
        return LedgerRefused;
      }
      outcome := StartSettling(id, env, value);
      Overwrite(before, id, deposited.(journal := Recorded(deposited.journal, FxPosting(id, st, value))), cases[id]);
    }

    /** Moves the row and, on a first dispatch, the session to settling, then dispatches. */
    method StartSettling(id: SessionId, env: Env, value: real) returns (outcome: Outcome)
      requires Valid() && id in cases
      modifies this`cases, ledger
      ensures Valid()
      ensures var c := old(cases[id]);
              var settling := if c.status == Dispatching then c.(status := Settling, amount := value) else c;
              var e := if c.session in {SessionSettling, SessionConfirmed} then
                         Settlement.DispatchAttempt(id, settling.(session := SessionSettling), env)
                       else Effect(settling, SessionConflict);
              cases == old(cases)[id := e.c] && outcome == e.outcome
    {
      var st := cases[id];
      ghost var before := cases;
      if st.status == Dispatching {
        st := st.(status := Settling, amount := value);
      }
      Save(id, st);
      if st.session != SessionSettling {
        if st.session != SessionConfirmed {
          return SessionConflict;
        }
        Overwrite(before, id, st, st.(session := SessionSettling));
        st := st.(session := SessionSettling);
        Save(id, st);
      }
      assert st == st.(session := SessionSettling);
      outcome := DispatchAttempt(id, env);
      Overwrite(before, id, st, cases[id]);
    }

    /** Drains the queue; a run that fails is logged and the next settlement is claimed. */
    method DispatchBatch(envs: SessionId -> Env)
      requires Valid()
      modifies this`cases, ledger
      ensures Valid() && Queue(cases) == {}
      ensures cases == map id | id in old(cases) :: Work(id, old(cases)[id], envs(id)).c
    {
      ghost var before, done := cases, {};
      assert cases == Drained(before, {}, envs);
      while true
        invariant Valid() && done <= before.Keys && cases == Drained(before, done, envs)
        decreases Queue(cases)
      {
        var claimed := ClaimNextPendingDispatch();
        if claimed == None {
          DrainedAll(before, done, envs);
          return;
        }
        var id := claimed.value;
        var outcome := ProcessSettlement(id, envs(id));
        DrainStep(before, done, envs, id, cases);
        done := done + {id};
      }
    }

    // ----- callbacks -----

    method HandlePayoutSucceeded(id: SessionId, n: nat) returns (outcome: Outcome)
      requires Valid() && id in cases
      modifies this`cases
      ensures Valid()
      ensures cases == old(cases)[id := PayoutSucceeded(old(cases[id]), n).c]
      ensures outcome == PayoutSucceeded(old(cases[id]), n).outcome
    {
      var st := cases[id];
      ghost var before := cases;
      Overwrite(before, id, st, st);
      if !(1 <= n <= |st.attempts| && st.attempts[n - 1].status == Dispatched) {
        return Done;
      }
      st := st.(attempts := st.attempts[n - 1 := st.attempts[n - 1].(status := Succeeded)]);
      Save(id, st);
      if st.status != Settling {
        return Done;
      }
      Overwrite(before, id, st, st.(status := Settled));
      Save(id, st.(status := Settled));
      outcome := CompleteSessionSettlement(id);
      Overwrite(before, id, st.(status := Settled), cases[id]);
    }

    method CompleteSessionSettlement(id: SessionId) returns (outcome: Outcome)
      requires Valid() && id in cases
      modifies this`cases
      ensures Valid()
      ensures cases == old(cases)[id := CompleteSession(old(cases[id])).c]
      ensures outcome == CompleteSession(old(cases[id])).outcome
    {
      Overwrite(cases, id, cases[id], cases[id]);
      if cases[id].session != SessionSettling {
        return SessionConflict;
      }
      outcome := CloseSession(id, SessionSettled);
    }

    method HandlePayoutReturned(id: SessionId) returns (outcome: Outcome)
      requires Valid() && id in cases
      modifies this`cases, ledger
      ensures Valid()
      ensures cases == old(cases)[id := PayoutReturned(id, old(cases[id])).c]
      ensures outcome == PayoutReturned(id, old(cases[id])).outcome
    {
      var st := cases[id];
      ghost var before := cases;
      Overwrite(before, id, st, st);
      if st.status != Settled {
        return Done;
      }
      var reversed := st.(status := Reversed, reversals := st.reversals + [Open]);
      Save(id, reversed);
      if reversed.session != SessionSettled {
        return SessionConflict;
      }
      var moved := reversed.(session := SessionReversed);
      Overwrite(before, id, reversed, moved);
      Save(id, moved);
      var posted := PostFor(id, ReversalPosting(SettlementReversal(id), st));
      Overwrite(before, id, moved, cases[id]);
      outcome := if posted == Refused(InvalidEntry) then LedgerRefused else Done;
    }

    method FlagDeclinedAttempt(id: SessionId, n: nat, reason: string) returns (outcome: Outcome)
      requires Valid() && id in cases
      modifies this`cases
      ensures Valid()
      ensures cases == old(cases)[id := DeclineFlagged(old(cases[id]), n, reason).c] && outcome == Done
    {
      var st := cases[id];
      Overwrite(cases, id, st, st);
      if 1 <= n <= |st.attempts| && st.attempts[n - 1].status == Dispatched && st.attempts[n - 1].reason == None {
        st := st.(attempts := st.attempts[n - 1 := st.attempts[n - 1].(reason := Some(reason))], opsPaged := true);
        Save(id, st);
      }
      return Done;
    }

    /**
     * The latest of the attempts made with a provider under a reference: the order of dispatch decides, whatever the
     * session.
     */
    method FindAttemptByProviderReference(provider: string, reference: string, dispatchedAt: (SessionId, nat) -> int)
      returns (found: Option<(SessionId, nat)>)
      requires Valid()
      ensures found == None ==> forall id, n :: !RefersTo(cases, provider, reference, id, n)
      ensures found.Some? ==> Latest(cases, provider, reference, dispatchedAt, found.value.0, found.value.1)
    {
      CoherentLists(Contents(cases, order, ledger.Tables()));
      found := None;
      for i := 0 to |order|
        invariant Among(order, i, found, provider, reference, dispatchedAt)
      {
        var st := cases[order[i]];
        for j := 0 to |st.attempts|
          invariant Among(order, i, found, provider, reference, dispatchedAt)
          invariant forall n: nat | n <= j && RefersTo(cases, provider, reference, order[i], n) ::
                      found.Some? && dispatchedAt(order[i], n) <= dispatchedAt(found.value.0, found.value.1)
        {
          var newer := found == None || dispatchedAt(order[i], j + 1) > dispatchedAt(found.value.0, found.value.1);
          if RefersTo(cases, provider, reference, order[i], j + 1) && newer {
            found := Some((order[i], j + 1));
          }
        }
      }
    }

    /** No attempt of the first `k` settlements is later than the one found so far. */
    ghost predicate Among(order: seq<SessionId>, k: nat, found: Option<(SessionId, nat)>, provider: string,
                          reference: string, dispatchedAt: (SessionId, nat) -> int)
      requires k <= |order|
      reads this
    {
      && (found.Some? ==> RefersTo(cases, provider, reference, found.value.0, found.value.1))
      && forall i, n: nat | 0 <= i < k && RefersTo(cases, provider, reference, order[i], n) ::
           found.Some? && dispatchedAt(order[i], n) <= dispatchedAt(found.value.0, found.value.1)
    }

    method HandleSettlementWebhook(env: Env, provider: string, reference: string, kind: HookKind, reason: string,
                                   dispatchedAt: (SessionId, nat) -> int)
      returns (outcome: Outcome)
      requires Valid()
      modifies this`cases, ledger
      ensures Valid()
      ensures provider !in env.registry ==> cases == old(cases) && outcome == UnknownProvider
      ensures provider in env.registry && kind == HookIgnored ==> cases == old(cases) && outcome == Done
      ensures provider in env.registry && kind != HookIgnored
              && (forall id, n :: !RefersTo(old(cases), provider, reference, id, n))
              ==> cases == old(cases) && outcome == UnknownAttempt
      ensures provider in env.registry && kind != HookIgnored
              && (exists id, n :: RefersTo(old(cases), provider, reference, id, n))
              ==> exists id, n ::
                && Latest(old(cases), provider, reference, dispatchedAt, id, n)
                && cases == old(cases)[id := Hook(id, old(cases[id]), env, kind, n, reason).c]
                && outcome == Hook(id, old(cases[id]), env, kind, n, reason).outcome
    {
      if provider !in env.registry {
        return UnknownProvider;
      }
      if kind == HookIgnored {
        return Done;
      }
      var found := FindAttemptByProviderReference(provider, reference, dispatchedAt);
      if found == None {
        return UnknownAttempt;
      }
      outcome := RouteCallback(found.value.0, env, kind, found.value.1, reason);
    }

    /** What a callback does to the attempt it was resolved to. */
    method RouteCallback(id: SessionId, env: Env, kind: HookKind, n: nat, reason: string) returns (outcome: Outcome)
      requires Valid() && kind != HookIgnored
      requires id in cases && 1 <= n <= |cases[id].attempts| && cases[id].attempts[n - 1].reference.Some?
      modifies this`cases, ledger
      ensures Valid()
      ensures cases == old(cases)[id := Hook(id, old(cases[id]), env, kind, n, reason).c]
      ensures outcome == Hook(id, old(cases[id]), env, kind, n, reason).outcome
    {
      var st := cases[id];
      Overwrite(cases, id, st, st);
      if kind == HookSucceeded {
        outcome := HandlePayoutSucceeded(id, n);
      } else if kind == HookReturned || (kind == HookReversed && st.attempts[n - 1].status == Succeeded) {
        outcome := HandlePayoutReturned(id);
      } else if kind == HookFailed || kind == HookReversed {
        outcome := HandleAttemptFailure(id, env, n, 2, reason, false);
      } else {
        outcome := FlagDeclinedAttempt(id, n, reason);
      }
    }

    // ----- ops -----

    /** Marks every attempt still dispatched as failed in one statement, then posts a reversal for each. */
    method ResolveConfirmedFailedAttempts(id: SessionId, note: string) returns (ok: bool)
      requires Valid() && id in cases
      modifies this`cases, ledger
      ensures Valid()
      ensures var c := old(cases[id]);
              var resolved := ResolveConfirmedFailed(id, c, note);
              && ok == (resolved.attempts == c.attempts || Postable(ReversalPosting(AttemptReversal(id, 1), c)))
              && cases == old(cases)[id := if ok then resolved else c.(attempts := resolved.attempts)]
    {
      var st := cases[id];
      ghost var before := cases;
      ghost var resolved := ResolveConfirmedFailed(id, st, note);
      var marked: seq<Attempt> := [];
      for i := 0 to |st.attempts|
        invariant marked == resolved.attempts[..i]
      {
        marked := marked + [ConfirmedFailed(st.attempts[i], note)];
      }
      assert marked == resolved.attempts;
      Save(id, st.(attempts := marked));
      ok := ReverseDispatched(id, st);
      Overwrite(before, id, st.(attempts := marked), cases[id]);
      ConfirmationMarks(id, st, note, |st.attempts|);
      assert resolved.attempts[..|st.attempts|] == resolved.attempts && st.attempts[..|st.attempts|] == st.attempts;
    }

    /** Posts the reversals for the attempts that were dispatched in the row as it was read. */
    method ReverseDispatched(id: SessionId, st: Case) returns (ok: bool)
      requires Valid() && id in cases && cases[id].journal == st.journal
      modifies this`cases, ledger
      ensures Valid()
      ensures ok == !RefusedAmong(id, st, |st.attempts|)
      ensures cases == WithJournal(old(cases), id, if ok then ReversedUpTo(id, st, |st.attempts|) else st.journal)
    {
      ghost var before := cases;
      WithJournalTwice(before, id, st.journal, st.journal);
      ok := true;
      var n := 0;
      while ok && n < |st.attempts|
        invariant Valid() && id in cases && n <= |st.attempts| && (!ok ==> n < |st.attempts|)
        invariant cases == WithJournal(before, id, ReversedUpTo(id, st, n))
        invariant ok == !RefusedAmong(id, st, if ok then n else n + 1)
        invariant !ok ==> ReversedUpTo(id, st, n) == st.journal
        decreases |st.attempts| - n, ok
      {
        ok := ReverseAttempt(id, st, n + 1, before);
        RefusedOneMore(id, st, n);
        if ok {
          n := n + 1;
        }
      }
      if !ok {
        AmongGrows(st, n + 1, |st.attempts|);
      }
    }

    /** The reversal of one attempt, posted if the attempt was dispatched in the row as it was read. */
    method ReverseAttempt(id: SessionId, st: Case, n: nat, ghost before: map<SessionId, Case>) returns (ok: bool)
      requires Valid() && id in cases && id in before && 1 <= n <= |st.attempts|
      requires cases == WithJournal(before, id, ReversedUpTo(id, st, n - 1))
      modifies this`cases, ledger
      ensures Valid() && id in cases
      ensures ok == (IsDispatched(st, n) ==> Postable(ReversalPosting(AttemptReversal(id, 1), st)))
      ensures cases == WithJournal(before, id, ReversedUpTo(id, st, if ok then n else n - 1))
    {
      WithJournalTwice(before, id, ReversedUpTo(id, st, n - 1), ReversedUpTo(id, st, n));
      WithJournalTwice(cases, id, cases[id].journal, cases[id].journal);
      ok := true;
      if st.attempts[n - 1].status == Dispatched {
        var posted := PostFor(id, ReversalPosting(AttemptReversal(id, n), st));
        ok := posted != Refused(InvalidEntry);
      }
    }

    /** Back to the queue from a failed, parked or confirmed-failed settlement; refused from anywhere else. */
    method RetryPayout(id: SessionId, corrected: Option<Destination>, confirmedFailed: bool, admin: string)
      returns (outcome: Outcome)
      requires Valid()
      modifies this`cases, ledger
      ensures Valid()
      ensures id !in old(cases) ==> cases == old(cases) && outcome == NotFound
      ensures id in old(cases) ==>
                && cases == old(cases)[id := Settlement.RetryPayout(id, old(cases[id]), corrected, confirmedFailed,
                                                                    admin).c]
                && outcome == Settlement.RetryPayout(id, old(cases[id]), corrected, confirmedFailed, admin).outcome
    {
      if id !in cases {
        return NotFound;
      }
      var st := cases[id];
      ghost var before := cases;
      Overwrite(before, id, st, st);
      var sessionFrom;
      if st.status == SettlementFailed {
        sessionFrom := SessionFailed;
      } else if st.status == AwaitingManualPayout {
        sessionFrom := SessionSettling;
      } else if st.status == Settling && st.opsPaged && confirmedFailed {
        sessionFrom := SessionSettling;
        var ok := ResolveConfirmedFailedAttempts(id, "confirmed failed by admin " + admin);
        if !ok {
          return LedgerRefused;
        }
      } else {
        return NotRetryable;
      }
      ghost var resolved := cases[id];
      assert cases == before[id := resolved];
      var queued := cases[id].(status := PendingDispatch, opsPaged := false, pending := corrected);
      Overwrite(before, id, resolved, queued);
      Save(id, queued);
      if queued.session != sessionFrom {
        return SessionConflict;
      }
      Overwrite(before, id, queued, queued.(session := SessionSettling));
      Save(id, queued.(session := SessionSettling));
      return Done;
    }

    /** A second press is refused by the status; the first inserts the manual attempt and claims its key. */
    method ManualSettle(id: SessionId, settledBy: string) returns (outcome: Outcome)
      requires Valid()
      modifies this`cases, ledger
      ensures Valid()
      ensures id !in old(cases) ==> cases == old(cases) && outcome == NotFound
      ensures id in old(cases) ==>
                && cases == old(cases)[id := Settlement.ManualSettle(id, old(cases[id]), settledBy).c]
                && outcome == Settlement.ManualSettle(id, old(cases[id]), settledBy).outcome
    {
      if id !in cases {
        return NotFound;
      }
      var st := cases[id];
      ghost var before := cases;
      Overwrite(before, id, st, st);
      if st.status != AwaitingManualPayout {
        return NotAwaitingManualPayout;
      }
      var key := ManualPayout(id);
      var paid := st.(status := Settled,
                      attempts := st.attempts + [ByHand(id, st, settledBy)], hand := NotSent);
      Save(id, paid);
      var posted := PostFor(id, ClaimPosting(key, st));
      Overwrite(before, id, paid, cases[id]);
      if posted == Refused(InvalidEntry) {
        return LedgerRefused;
      }
      ghost var claimed := cases[id];
      outcome := CompleteSessionSettlement(id);
      Overwrite(before, id, claimed, cases[id]);
    }

    /** One bulk statement over all settlements. */
    method PageOpsForTimedOutConfirmations(due: set<SessionId>)
      requires Valid()
      modifies this`cases
      ensures Valid()
      ensures cases == map id | id in old(cases) :: if id in due then PageTimedOut(old(cases)[id]) else old(cases)[id]
    {
      PageKeepsCoherent(Contents(cases, order, ledger.Tables()), due);
      cases := map id | id in cases :: if id in due then PageTimedOut(cases[id]) else cases[id];
    }

    /** Posts where ops say the funds ended up, closes the case, and moves settlement and session on. */
    method ResolveReversal(id: SessionId, index: nat, adj: Adjustment) returns (outcome: Outcome)
      requires Valid()
      modifies this`cases, ledger
      ensures Valid()
      ensures id !in old(cases) ==> cases == old(cases) && outcome == ReversalNotFound
      ensures id in old(cases) ==>
                && cases == old(cases)[id := Settlement.ResolveReversal(id, old(cases[id]), index, adj).c]
                && outcome == Settlement.ResolveReversal(id, old(cases[id]), index, adj).outcome
      ensures var posts := id in old(cases) && ManualAdjustment(id, index) !in Keys(old(cases[id].journal))
                           && (outcome == Done || outcome == SessionConflict);
              forall account ::
                Cached(ledger.Tables(), account) == Cached(old(ledger.Tables()), account)
                + (if posts && account == adj.debit then adj.amount else 0.0)
                - (if posts && account == adj.credit then adj.amount else 0.0)
    {
      if id !in cases {
        return ReversalNotFound;
      }
      var st := cases[id];
      ghost var before := cases;
      Overwrite(before, id, st, st);
      if index >= |st.reversals| {
        return ReversalNotFound;
      }
      if st.reversals[index] != Open {
        return ReversalAlreadyResolved;
      }
      if adj.debit.asset != adj.credit.asset {
        UnequalAssetsRefused(ledger.Tables(), id, index, adj);
        var refused := ledger.Post(AdjustmentTxn(id, index, adj));
        return LedgerRefused;
      }
      var posted := PostFor(id, AdjustmentPosting(id, index, adj));
      AdjustmentMoves(old(ledger.Tables()), id, index, adj);
      Overwrite(before, id, cases[id], cases[id]);
      if posted == Refused(InvalidEntry) {
        return LedgerRefused;
      }
      var closed := cases[id].(reversals := st.reversals[index := Closed],
                               status := if st.status == Reversed then ReversalResolved else st.status);
      Overwrite(before, id, cases[id], closed);
      Save(id, closed);
      if closed.session != SessionReversed {
        return SessionConflict;
      }
      Overwrite(before, id, closed, closed.(session := SessionReversalResolved));
      Save(id, closed.(session := SessionReversalResolved));
      return Done;
    }
  }

  /** A manual adjustment takes its amount from the credited account to the debited one, and touches no other. */
  lemma AdjustmentMoves(b: Book, id: SessionId, index: nat, adj: Adjustment)
    ensures forall account ::
              Cached(Append(b, PairOf(AdjustmentPosting(id, index, adj))), account) == Cached(b, account)
              + (if account == adj.debit then adj.amount else 0.0) - (if account == adj.credit then adj.amount else 0.0)
  {
    forall account
      ensures Cached(Append(b, PairOf(AdjustmentPosting(id, index, adj))), account) == Cached(b, account)
              + (if account == adj.debit then adj.amount else 0.0) - (if account == adj.credit then adj.amount else 0.0)
    {
      PairMovesBalances(b, ManualAdjustment(id, index), adj.debit, adj.credit, adj.amount, adj.debit.asset, account);
    }
  }

  function AdjustmentTxn(id: SessionId, index: nat, adj: Adjustment): Transaction {
    Transaction(ManualAdjustment(id, index),
                [Entry(adj.debit, Debit, adj.amount, adj.debit.asset),
                 Entry(adj.credit, Credit, adj.amount, adj.credit.asset)])
  }

  /** Legs in two assets cannot balance, so the ledger takes nothing. */
  lemma UnequalAssetsRefused(b: Book, id: SessionId, index: nat, adj: Adjustment)
    requires adj.debit.asset != adj.credit.asset
    ensures Refusal(b, AdjustmentTxn(id, index, adj)).Some?
  {
    var entries := AdjustmentTxn(id, index, adj).entries;
    assert entries[0] in entries && entries[1] in entries;
    if ValidEntry(entries[0]) {
      assert entries[..1] == [entries[0]];
      assert Sum([entries[0]], EntryOfAsset(adj.debit.asset)) == adj.amount;
      assert Sum(entries, EntryOfAsset(adj.debit.asset)) == adj.amount;
    }
  }
}
