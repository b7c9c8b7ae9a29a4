/**
 * The protocol in whole steps against the protocol in statements: what an entry point does to a settlement in one step
 * is what a process does that runs its statements alone.
 */
module StatementRuns {
  import opened Common
  import opened Ledger
  import opened Settlement
  import opened SettlementInvariant
  import opened SettlementSteps
  import opened SettlementRuns
  import Interleaving
  import opened InterleavingSerial
  import opened InterleavingMoves

  type State = Interleaving.State
  type ProcessId = Interleaving.ProcessId

  // ----- the rows as statements see them -----

  function StatusAt(attempts: seq<Attempt>, n: nat): AttemptStatus
    requires 1 <= n <= |attempts|
  {
    attempts[n - 1].status
  }

  function Statuses(attempts: seq<Attempt>): Rows {
    map n: nat | 1 <= n <= |attempts| :: StatusAt(attempts, n)
  }

  /** The accepted keys, oldest first. */
  function KeysOf(j: Journal): seq<Key> {
    match j
    case Empty => []
    case Then(earlier, p) => KeysOf(earlier) + [p.key]
  }

  lemma {:induction false} KeysAgree(j: Journal, key: Key)
    ensures key in KeysOf(j) <==> key in Keys(j)
  {
    if j.Then? {
      KeysAgree(j.earlier, key);
    }
  }

  /** Status, count, paging, attempts and keys are those of the case, and nobody is at work. */
  predicate Shows(s: State, c: Case) {
    && s.status == c.status && s.count == |c.attempts| && s.paged == c.opsPaged
    && s.attempts == Statuses(c.attempts) && s.journal == KeysOf(c.journal) && s.processes == map[]
    && forall n | n in s.attempts && s.attempts[n] == Dispatched :: n in s.calls
  }

  /** A state that shows the case can be reached. */
  ghost predicate Shown(r: Reach, c: Case) {
    exists s | s in r.states :: Shows(s, c)
  }

  lemma IsShown(r: Reach, s: State, c: Case)
    requires s in r.states && Shows(s, c)
    ensures Shown(r, c)
  {
  }

  lemma ShowsRow(s: State, c: Case, n: nat, a: Attempt)
    requires Shows(s, c) && 1 <= n <= |c.attempts| && (a.status == Dispatched ==> n in s.calls)
    ensures Shows(s.(attempts := s.attempts[n := a.status]), c.(attempts := c.attempts[n - 1 := a]))
  {
    assert Statuses(c.attempts[n - 1 := a]) == s.attempts[n := a.status];
  }

  lemma ShowsPosting(id: SessionId, s: State, c: Case, p: Posting)
    requires Shows(s, c)
    ensures Shows(Interleaving.Posts(s, p.key), c.(journal := Recorded(c.journal, p)))
  {
    KeysAgree(c.journal, p.key);
  }

  /** One statement of the process. */
  lemma Executes(id: SessionId, r: Reach, s: State, p: ProcessId, pc: Interleaving.Pc, chance: Interleaving.Chance,
                 s': State, pc': Interleaving.Pc)
    requires ClosedUnder(id, r) && s.processes == map[] && s'.processes == map[] && At(s, p, pc) in r.states
    requires Interleaving.Executed(id, At(s, p, pc), p, chance)
             == Interleaving.Goes(s'.(processes := At(s, p, pc).processes), p, pc')
    ensures At(s', p, pc') in r.states
  {
    Continues(id, r, At(s, p, pc), p, Interleaving.Execute(chance));
    assert At(s, p, pc).processes[p := pc'] == map[p := pc'];
  }

  /** The last statement of the process, or its death. */
  lemma Finishes(id: SessionId, r: Reach, s: State, p: ProcessId, pc: Interleaving.Pc, chance: Interleaving.Chance,
                 s': State)
    requires ClosedUnder(id, r) && s.processes == map[] && s'.processes == map[] && At(s, p, pc) in r.states
    requires Interleaving.Executed(id, At(s, p, pc), p, chance)
             == Interleaving.Ends(s'.(processes := At(s, p, pc).processes), p)
    ensures s' in r.states
  {
    Continues(id, r, At(s, p, pc), p, Interleaving.Execute(chance));
    assert At(s, p, pc).processes - {p} == map[];
  }

  // ----- the dispatch loop -----

  /** What a statement meets where the step meets this environment. */
  function ChanceOf(c: Case, env: Env): Interleaving.Chance {
    Interleaving.Chance(Choose(Enabled(env), Tried(c.attempts)).Some?, env.replies(|c.attempts| + 1).kind,
                        env.telegramOn && PayableByHand(ResolvedDestination(c)) && env.alertDelivered, 0)
  }

  lemma GiveUpRuns(id: SessionId, r: Reach, c: Case, env: Env, s: State, p: ProcessId)
    requires ClosedUnder(id, r) && c in Rounds(id) && Shows(s, c) && At(s, p, Interleaving.GiveUp) in r.states
    ensures Shown(r, FailSettlement(c, env).c)
  {
    var chance := ChanceOf(c, env);
    var s' := s.(status := if chance.handedOver then AwaitingManualPayout else SettlementFailed, paged := true);
    Finishes(id, r, s, p, Interleaving.GiveUp, chance, s');
    IsShown(r, s', FailSettlement(c, env).c);
  }

  /** The free key of the next attempt, as statements see it. */
  lemma NextIsFree(id: SessionId, c: Case, provider: string, reply: Reply, s: State)
    requires c in Rounds(id) && Shows(s, c)
    ensures s.count + 1 !in s.attempts && Payout(id, s.count + 1) !in s.journal
  {
    ClaimKeeps(id, c, provider, reply);
    KeysAgree(c.journal, Payout(id, |c.attempts| + 1));
  }

  lemma SentShows(id: SessionId, c: Case, provider: string, reply: Reply, s: State)
    requires Shows(s, c)
    ensures Shows(Sent(id, s), Called(id, c, provider, reply))
  {
    assert Statuses(Called(id, c, provider, reply).attempts) == s.attempts[s.count + 1 := Dispatched];
  }

  /** From the claim to the call. */
  lemma CallRuns(id: SessionId, r: Reach, s: State, p: ProcessId, reply: ReplyKind)
    requires ClosedUnder(id, r) && s.processes == map[]
    requires s.count + 1 !in s.attempts && Payout(id, s.count + 1) !in s.journal
    requires At(s, p, Interleaving.PostClaim(s.count)) in r.states
    ensures At(Sent(id, s), p, Interleaving.TakeUpReply(s.count + 1, reply)) in r.states
  {
    var n := s.count + 1;
    var claimed := s.(journal := s.journal + [Payout(id, n)]);
    Claims(id, r, s, p);
    Inserts(id, r, claimed, p, n);
    Bumps(id, r, claimed.(attempts := s.attempts[n := Dispatched]), p, n);
    Executes(id, r, WithAttempt(id, s), p, Interleaving.CallProvider(n), Interleaving.Chance(true, reply, false, 0),
             Sent(id, s), Interleaving.TakeUpReply(n, reply));
  }

  /** The next attempt is claimed, inserted and called. */
  lemma RoundRuns(id: SessionId, r: Reach, c: Case, env: Env, provider: string, s: State, p: ProcessId)
    requires ClosedUnder(id, r) && c in Rounds(id) && Shows(s, c)
    requires Choose(Enabled(env), Tried(c.attempts)) == Some(provider)
    requires At(s, p, Interleaving.PostClaim(|c.attempts|)) in r.states
    ensures var n, reply := |c.attempts| + 1, env.replies(|c.attempts| + 1);
            var called := Called(id, c, provider, reply);
            && DispatchAttempt(id, c, env) == Routed(id, called, env, n, reply)
            && called in Sound(id) && Shows(Sent(id, s), called)
            && At(Sent(id, s), p, Interleaving.TakeUpReply(n, reply.kind)) in r.states
  {
    var reply := env.replies(|c.attempts| + 1);
    ClaimKeeps(id, c, provider, reply);
    DispatchUnfolds(id, c, env, provider);
    NextIsFree(id, c, provider, reply, s);
    CallRuns(id, r, s, p, reply.kind);
    SentShows(id, c, provider, reply, s);
  }

  lemma NobodyRuns(id: SessionId, r: Reach, c: Case, env: Env, s: State, p: ProcessId)
    requires ClosedUnder(id, r) && c in Rounds(id) && Shows(s, c)
    requires Choose(Enabled(env), Tried(c.attempts)) == None
    requires At(s, p, Interleaving.PostClaim(|c.attempts|)) in r.states
    ensures Shown(r, FailSettlement(c, env).c)
  {
    Executes(id, r, s, p, Interleaving.PostClaim(|c.attempts|), ChanceOf(c, env), s, Interleaving.GiveUp);
    GiveUpRuns(id, r, c, env, s, p);
  }

  lemma {:induction false} DispatchRuns(id: SessionId, r: Reach, c: Case, env: Env, s: State, p: ProcessId)
    requires ClosedUnder(id, r) && c in Rounds(id) && HonestEnv(env) && Shows(s, c)
    requires At(s, p, Interleaving.PostClaim(|c.attempts|)) in r.states
    ensures Shown(r, DispatchAttempt(id, c, env).c)
    decreases 2 * RetryBudget(|c.attempts|) + 1, 0
  {
    match Choose(Enabled(env), Tried(c.attempts))
    case None => NobodyRuns(id, r, c, env, s, p);
    case Some(provider) =>
      var reply := env.replies(|c.attempts| + 1);
      assert Honest(reply);
      RoundRuns(id, r, c, env, provider, s, p);
      AnswerRuns(id, r, Called(id, c, provider, reply), env, reply, Sent(id, s), p);
  }

  /** What follows the answer to the latest attempt. */
  lemma {:induction false} AnswerRuns(id: SessionId, r: Reach, called: Case, env: Env, reply: Reply, s: State,
                                      p: ProcessId)
    requires ClosedUnder(id, r) && called in Sound(id) && HonestEnv(env) && Honest(reply) && Shows(s, called)
    requires IsDispatched(called, |called.attempts|)
    requires called.attempts[|called.attempts| - 1].funds == if reply.sent then InFlight else NotSent
    requires At(s, p, Interleaving.TakeUpReply(|called.attempts|, reply.kind)) in r.states
    ensures Shown(r, Routed(id, called, env, |called.attempts|, reply).c)
    decreases (if |called.attempts| >= MAX_AUTO_RETRY_ATTEMPTS then 0 else 2 * RetryBudget(|called.attempts|) + 2), 3
  {
    OpenIsLatest(id, called, |called.attempts|);
    if Rejected(reply) {
      RejectionRuns(id, r, called, env, reply, s, p);
    } else {
      TakenUpRuns(id, r, called, env, reply, s, p);
    }
  }

  lemma {:induction false} RejectionRuns(id: SessionId, r: Reach, called: Case, env: Env, reply: Reply, s: State,
                                         p: ProcessId)
    requires ClosedUnder(id, r) && called in Sound(id) && HonestEnv(env) && Rejected(reply) && Shows(s, called)
    requires IsDispatched(called, |called.attempts|) && !Live(called.attempts[|called.attempts| - 1].funds)
    requires At(s, p, Interleaving.TakeUpReply(|called.attempts|, reply.kind)) in r.states
    ensures Shown(r, Routed(id, called, env, |called.attempts|, reply).c)
    decreases (if |called.attempts| >= MAX_AUTO_RETRY_ATTEMPTS then 0 else 2 * RetryBudget(|called.attempts|) + 2), 2
  {
    var n, terminal := |called.attempts|, reply.kind == RejectedTerminal;
    var bucket := if terminal then 4 else 1;
    Executes(id, r, s, p, Interleaving.TakeUpReply(n, reply.kind), ChanceOf(called, env), s,
             Interleaving.Pc.MarkFailed(n, bucket));
    NotesDoNotMatter(id, called, called.(pending := None));
    FailureRuns(id, r, called.(pending := None), env, n, bucket, reply.reason, terminal, s, p);
  }

  lemma TakenUpRuns(id: SessionId, r: Reach, called: Case, env: Env, reply: Reply, s: State, p: ProcessId)
    requires ClosedUnder(id, r) && !Rejected(reply) && Shows(s, called)
    requires called.attempts != [] && called.status == Settling
    requires At(s, p, Interleaving.TakeUpReply(|called.attempts|, reply.kind)) in r.states
    ensures Shown(r, Routed(id, called, env, |called.attempts|, reply).c)
  {
    var s' := s.(paged := s.paged || reply.kind == Uncertain);
    Finishes(id, r, s, p, Interleaving.TakeUpReply(|called.attempts|, reply.kind), ChanceOf(called, env), s');
    NotesShow(s', called, reply);
    IsShown(r, s', Routed(id, called, env, |called.attempts|, reply).c);
  }

  /** Notes on the latest attempt are not looked at. */
  lemma NotesShow(s: State, called: Case, reply: Reply)
    requires called.attempts != [] && called.status == Settling && Shows(s.(paged := called.opsPaged), called)
    requires s.paged == (called.opsPaged || reply.kind == Uncertain) && reply.kind in {Accepted, Uncertain, CallFailed}
    ensures Shows(s, if reply.kind == CallFailed then called else Answered(called.(pending := None), reply))
  {
    assert Statuses(Answered(called.(pending := None), reply).attempts) == Statuses(called.attempts);
  }

  /** The rows once attempt n is marked failed and its claim is reversed. */
  function Failing(id: SessionId, s: State, n: nat, bucket: nat): State {
    Interleaving.Posts(s.(attempts := s.attempts[n := Failed(bucket)]), AttemptReversal(id, n))
  }

  lemma FailingShows(id: SessionId, s: State, c: Case, n: nat, bucket: nat, reason: string)
    requires Shows(s, c) && IsDispatched(c, n)
    ensures Shows(Failing(id, s, n, bucket),
                  MarkFailed(c, n, bucket, reason)
                    .(journal := Recorded(c.journal, ReversalPosting(AttemptReversal(id, n), c))))
  {
    var marked := s.(attempts := s.attempts[n := Failed(bucket)]);
    ShowsRow(s, c, n, MarkFailed(c, n, bucket, reason).attempts[n - 1]);
    ShowsPosting(id, marked, MarkFailed(c, n, bucket, reason), ReversalPosting(AttemptReversal(id, n), c));
  }

  lemma Marks(id: SessionId, r: Reach, n: nat, bucket: nat, s: State, p: ProcessId)
    requires ClosedUnder(id, r) && s.processes == map[] && n in s.attempts && s.attempts[n] == Dispatched
    requires s.count == n && At(s, p, Interleaving.Pc.MarkFailed(n, bucket)) in r.states
    ensures At(s.(attempts := s.attempts[n := Failed(bucket)]), p, Interleaving.PostReversal(n, bucket, n)) in r.states
  {
    var marked, chance := s.(attempts := s.attempts[n := Failed(bucket)]), ACCEPTS.chance;
    Executes(id, r, s, p, Interleaving.Pc.MarkFailed(n, bucket), chance, marked, Interleaving.ReadBack(n, bucket));
    Executes(id, r, marked, p, Interleaving.ReadBack(n, bucket), chance, marked,
             Interleaving.PostReversal(n, bucket, n));
  }

  lemma MarkRuns(id: SessionId, r: Reach, n: nat, bucket: nat, s: State, p: ProcessId)
    requires ClosedUnder(id, r) && s.processes == map[] && n in s.attempts && s.attempts[n] == Dispatched
    requires s.count == n && At(s, p, Interleaving.Pc.MarkFailed(n, bucket)) in r.states
    ensures At(Failing(id, s, n, bucket), p,
               if bucket == 4 || n >= MAX_AUTO_RETRY_ATTEMPTS then Interleaving.GiveUp
               else Interleaving.PostClaim(n)) in r.states
  {
    var marked, chance := s.(attempts := s.attempts[n := Failed(bucket)]), ACCEPTS.chance;
    Marks(id, r, n, bucket, s, p);
    Executes(id, r, marked, p, Interleaving.PostReversal(n, bucket, n), chance, Failing(id, s, n, bucket),
             if bucket == 4 || n >= MAX_AUTO_RETRY_ATTEMPTS then Interleaving.GiveUp else Interleaving.PostClaim(n));
  }

  lemma {:induction false} FailureRuns(id: SessionId, r: Reach, c: Case, env: Env, n: nat, bucket: nat, reason: string,
                                       terminal: bool, s: State, p: ProcessId)
    requires ClosedUnder(id, r) && c in Sound(id) && HonestEnv(env) && Shows(s, c)
    requires IsDispatched(c, n) && n == |c.attempts| && !Live(c.attempts[n - 1].funds) && (terminal <==> bucket == 4)
    requires At(s, p, Interleaving.Pc.MarkFailed(n, bucket)) in r.states
    ensures Shown(r, HandleAttemptFailure(id, c, env, n, bucket, reason, terminal).c)
    decreases (if n >= MAX_AUTO_RETRY_ATTEMPTS then 0 else 2 * RetryBudget(|c.attempts|) + 2), 1
  {
    FailureKeeps(id, c, n, bucket, reason);
    var reversal := ReversalPosting(AttemptReversal(id, n), c);
    var reversed := MarkFailed(c, n, bucket, reason).(journal := Then(c.journal, reversal));
    var s' := Failing(id, s, n, bucket);
    FailingShows(id, s, c, n, bucket, reason);
    MarkRuns(id, r, n, bucket, s, p);
    if terminal || n >= MAX_AUTO_RETRY_ATTEMPTS {
      GiveUpRuns(id, r, reversed, env, s', p);
    } else {
      DispatchRuns(id, r, reversed, env, s', p);
    }
  }

  // ----- the worker -----

  /** The rows once both first postings are made. */
  function BooksOpened(id: SessionId, s: State): State {
    Interleaving.Posts(Interleaving.Posts(s, DepositConfirmed(id)), FxConversion(id)).(status := Settling)
  }

  lemma ConvertedShows(id: SessionId, s: State, c: Case)
    requires Shows(s, c) && c.lock.Some?
    ensures Shows(BooksOpened(id, s), Converted(id, c))
  {
    var deposited := c.(journal := Recorded(c.journal, DepositPosting(id, c)));
    ShowsPosting(id, s, c, DepositPosting(id, c));
    ShowsPosting(id, Interleaving.Posts(s, DepositConfirmed(id)), deposited,
                 FxPosting(id, c, LockedValue(c.confirmedTotal, c.lock.value)));
  }

  lemma WorkDispatchRuns(id: SessionId, r: Reach, c: Case, env: Env, s: State)
    requires ClosedUnder(id, r) && c in Sound(id) && HonestEnv(env) && Shows(s, c) && s in r.states
    requires c.status == PendingDispatch && Convertible(id, c)
    ensures Shown(r, Work(id, c, env).c)
  {
    ConvertibleIsReady(id, c);
    WorkDispatches(id, c, env);
    Works(id, r, s, 0);
    ConvertedShows(id, s, c);
    var settling := BooksOpened(id, s);
    assert At(settling, 0, Interleaving.PostClaim(|c.attempts|)) == At(settling, 0, Interleaving.PostClaim(s.count));
    DispatchRuns(id, r, Converted(id, c), env, settling, 0);
  }

  /** The process stops for good. */
  lemma Dies(id: SessionId, r: Reach, s: State, p: ProcessId, pc: Interleaving.Pc)
    requires ClosedUnder(id, r) && s.processes == map[] && At(s, p, pc) in r.states
    ensures s in r.states
  {
    Continues(id, r, At(s, p, pc), p, Interleaving.Stop);
    Replaced(s, p, pc, pc);
  }

  /** A worker that cannot post stops where it is. */
  lemma WorkStopRuns(id: SessionId, r: Reach, c: Case, env: Env, s: State)
    requires ClosedUnder(id, r) && c in Sound(id) && Shows(s, c) && s in r.states
    requires c.status == PendingDispatch && !Convertible(id, c)
    ensures Shown(r, Work(id, c, env).c)
  {
    var taken := s.(status := Dispatching);
    var deposited := Interleaving.Posts(taken, DepositConfirmed(id));
    var dispatching := c.(status := Dispatching);
    Takes(id, r, s, 0);
    Executes(id, r, taken, 0, Interleaving.PostDeposit(s.count), ACCEPTS.chance, deposited,
             Interleaving.PostFx(s.count));
    Dies(id, r, taken, 0, Interleaving.PostDeposit(s.count));
    Dies(id, r, deposited, 0, Interleaving.PostFx(s.count));
    ShowsPosting(id, taken, dispatching, DepositPosting(id, c));
    IsShown(r, taken, dispatching);
    IsShown(r, deposited, dispatching.(journal := Recorded(c.journal, DepositPosting(id, c))));
    ClaimedIsSound(id, c);
  }

  lemma WorkRuns(id: SessionId, r: Reach, c: Case, env: Env, s: State)
    requires ClosedUnder(id, r) && c in Sound(id) && HonestEnv(env) && Shows(s, c) && s in r.states
    ensures Shown(r, Work(id, c, env).c)
  {
    if c.status != PendingDispatch {
      IsShown(r, s, c);
    } else if Convertible(id, c) {
      WorkDispatchRuns(id, r, c, env, s);
    } else {
      WorkStopRuns(id, r, c, env, s);
    }
  }

  // ----- callbacks -----

  lemma Succeeds(id: SessionId, r: Reach, n: nat, s: State)
    requires ClosedUnder(id, r) && s in r.states && s.processes == map[] && s.status == Settling
    requires n in s.attempts && s.attempts[n] == Dispatched && n in s.calls
    ensures s.(attempts := s.attempts[n := Succeeded], status := Settled) in r.states
  {
    var marked := s.(attempts := s.attempts[n := Succeeded]);
    Enters(id, r, s, 0, Interleaving.SuccessHook(n));
    Executes(id, r, s, 0, Interleaving.MarkSucceeded(n), ACCEPTS.chance, marked, Interleaving.ToSettled);
    Finishes(id, r, marked, 0, Interleaving.ToSettled, ACCEPTS.chance, marked.(status := Settled));
  }

  lemma SuccessRuns(id: SessionId, r: Reach, c: Case, n: nat, s: State)
    requires ClosedUnder(id, r) && c in Sound(id) && Shows(s, c) && s in r.states && IsDispatched(c, n)
    ensures Shown(r, PayoutSucceeded(c, n).c)
  {
    OpenIsLatest(id, c, n);
    Succeeds(id, r, n, s);
    ShowsRow(s, c, n, c.attempts[n - 1].(status := Succeeded));
    IsShown(r, s.(attempts := s.attempts[n := Succeeded], status := Settled), PayoutSucceeded(c, n).c);
  }

  lemma ReturnsAll(id: SessionId, r: Reach, s: State)
    requires ClosedUnder(id, r) && s in r.states && s.processes == map[] && s.status == Settled
    ensures Interleaving.Posts(s.(status := Reversed), SettlementReversal(id)) in r.states
  {
    var reversed := s.(status := Reversed);
    Enters(id, r, s, 0, Interleaving.ReturnHook);
    Executes(id, r, s, 0, Interleaving.ToReversed, ACCEPTS.chance, reversed, Interleaving.PostReturn);
    Finishes(id, r, reversed, 0, Interleaving.PostReturn, ACCEPTS.chance,
             Interleaving.Posts(reversed, SettlementReversal(id)));
  }

  lemma ReturnRuns(id: SessionId, r: Reach, c: Case, s: State)
    requires ClosedUnder(id, r) && c in Sound(id) && Shows(s, c) && s in r.states && c.status == Settled
    ensures Shown(r, PayoutReturned(id, c).c)
  {
    ReturnsAll(id, r, s);
    var posted := Interleaving.Posts(s.(status := Reversed), SettlementReversal(id));
    ShowsPosting(id, s.(status := Reversed), c.(status := Reversed), ReversalPosting(SettlementReversal(id), c));
    IsShown(r, posted, PayoutReturned(id, c).c);
  }

  lemma FailureHookRuns(id: SessionId, r: Reach, c: Case, env: Env, n: nat, reason: string, s: State)
    requires ClosedUnder(id, r) && c in Sound(id) && HonestEnv(env) && Shows(s, c) && s in r.states
    requires IsDispatched(c, n) && !Live(c.attempts[n - 1].funds)
    ensures Shown(r, HandleAttemptFailure(id, c, env, n, 2, reason, false).c)
  {
    OpenIsLatest(id, c, n);
    Enters(id, r, s, 0, Interleaving.FailureHook(n));
    FailureRuns(id, r, c, env, n, 2, reason, false, s, 0);
  }

  lemma NoteShows(s: State, c: Case, n: nat, reason: string)
    requires Shows(s, c) && IsDispatched(c, n)
    ensures Shows(s.(paged := true), c.(attempts := c.attempts[n - 1 := c.attempts[n - 1].(reason := Some(reason))],
                                        opsPaged := true))
  {
    assert Statuses(c.attempts[n - 1 := c.attempts[n - 1].(reason := Some(reason))]) == s.attempts;
  }

  lemma DeclinePages(id: SessionId, r: Reach, n: nat, s: State)
    requires ClosedUnder(id, r) && s in r.states && n in s.attempts && s.attempts[n] == Dispatched
    ensures s.(paged := true) in r.states
  {
    Continues(id, r, s, 0, Interleaving.DeclinePage(n));
  }

  lemma DeclineRuns(id: SessionId, r: Reach, c: Case, n: nat, reason: string, s: State)
    requires ClosedUnder(id, r) && Shows(s, c) && s in r.states
    ensures Shown(r, DeclineFlagged(c, n, reason).c)
  {
    if IsDispatched(c, n) && c.attempts[n - 1].reason == None {
      DeclinePages(id, r, n, s);
      NoteShows(s, c, n, reason);
      IsShown(r, s.(paged := true), DeclineFlagged(c, n, reason).c);
    } else {
      IsShown(r, s, c);
    }
  }

  /** Callbacks that find nothing to do run no statement that writes. */
  lemma IdleSuccessRuns(id: SessionId, r: Reach, c: Case, n: nat, s: State)
    requires ClosedUnder(id, r) && c in Sound(id) && Shows(s, c) && s in r.states
    ensures Shown(r, PayoutSucceeded(c, n).c)
  {
    if IsDispatched(c, n) {
      SuccessRuns(id, r, c, n, s);
    } else {
      IsShown(r, s, c);
    }
  }

  lemma IdleReturnRuns(id: SessionId, r: Reach, c: Case, s: State)
    requires ClosedUnder(id, r) && c in Sound(id) && Shows(s, c) && s in r.states
    ensures Shown(r, PayoutReturned(id, c).c)
  {
    if c.status == Settled {
      ReturnRuns(id, r, c, s);
    } else {
      IsShown(r, s, c);
    }
  }

  lemma IdleFailureRuns(id: SessionId, r: Reach, c: Case, env: Env, n: nat, reason: string, s: State)
    requires ClosedUnder(id, r) && c in Sound(id) && HonestEnv(env) && Shows(s, c) && s in r.states
    requires IsDispatched(c, n) ==> !Live(c.attempts[n - 1].funds)
    ensures Shown(r, HandleAttemptFailure(id, c, env, n, 2, reason, false).c)
  {
    if IsDispatched(c, n) {
      FailureHookRuns(id, r, c, env, n, reason, s);
    } else {
      IsShown(r, s, c);
    }
  }

  lemma HookRuns(id: SessionId, r: Reach, c: Case, env: Env, kind: HookKind, n: nat, reason: string, s: State)
    requires ClosedUnder(id, r) && c in Sound(id) && Shows(s, c) && s in r.states
    requires Truthful(c, Callback(env, kind, n, reason))
    ensures Shown(r, Hook(id, c, env, kind, n, reason).c)
  {
    IsShown(r, s, c);
    match kind
    case HookIgnored =>
    case HookSucceeded => IdleSuccessRuns(id, r, c, n, s);
    case HookReturned => IdleReturnRuns(id, r, c, s);
    case HookFailed => IdleFailureRuns(id, r, c, env, n, reason, s);
    case HookReversed =>
      IdleReturnRuns(id, r, c, s);
      IdleFailureRuns(id, r, c, env, n, reason, s);
    case HookDeclined => DeclineRuns(id, r, c, n, reason, s);
  }

  // ----- ops -----

  lemma RequeueRuns(id: SessionId, r: Reach, from: Status, s: State)
    requires ClosedUnder(id, r) && s.processes == map[] && s.status == from
    requires At(s, 0, Interleaving.Pc.Requeue(from)) in r.states
    ensures s.(status := PendingDispatch, paged := false) in r.states
  {
    Finishes(id, r, s, 0, Interleaving.Pc.Requeue(from), ACCEPTS.chance,
             s.(status := PendingDispatch, paged := false));
  }

  lemma GivenUpRetryRuns(id: SessionId, r: Reach, c: Case, corrected: Option<Destination>, confirmed: bool,
                         admin: string, s: State)
    requires ClosedUnder(id, r) && c in Sound(id) && Shows(s, c) && s in r.states
    requires c.status in {SettlementFailed, AwaitingManualPayout}
    ensures Shown(r, RetryPayout(id, c, corrected, confirmed, admin).c)
  {
    Enters(id, r, s, 0, Interleaving.OpsRetry(confirmed));
    RequeueRuns(id, r, c.status, s);
    IsShown(r, s.(status := PendingDispatch, paged := false), RetryPayout(id, c, corrected, confirmed, admin).c);
  }

  /** The confirmation fails the one open attempt, and posts its reversal. */
  lemma ConfirmationRuns(id: SessionId, r: Reach, n: nat, s: State)
    requires ClosedUnder(id, r) && s.processes == map[] && s in r.states && s.status == Settling && s.paged
    requires n in s.attempts && s.attempts[n] == Dispatched && NoneIs(s.attempts, Succeeded)
    requires forall m | m in s.attempts && m != n :: s.attempts[m] != Dispatched
    ensures Failing(id, s, n, 3).(status := PendingDispatch, paged := false) in r.states
  {
    var marked := s.(attempts := s.attempts[n := Failed(3)]);
    Enters(id, r, s, 0, Interleaving.OpsRetry(true));
    ConfirmsOne(id, r, n, s);
    PostsConfirmed(id, r, n, marked);
    Executes(id, r, Failing(id, s, n, 3), 0, Interleaving.PostConfirmed({}), ACCEPTS.chance, Failing(id, s, n, 3),
             Interleaving.Pc.Requeue(Settling));
    RequeueRuns(id, r, Settling, Failing(id, s, n, 3));
  }

  lemma ConfirmsOne(id: SessionId, r: Reach, n: nat, s: State)
    requires ClosedUnder(id, r) && s.processes == map[] && At(s, 0, Interleaving.Pc.ConfirmFailed) in r.states
    requires n in s.attempts && s.attempts[n] == Dispatched
    requires forall m | m in s.attempts && m != n :: s.attempts[m] != Dispatched
    ensures At(s.(attempts := s.attempts[n := Failed(3)]), 0, Interleaving.PostConfirmed({n})) in r.states
  {
    var next := Interleaving.Executed(id, At(s, 0, Interleaving.Pc.ConfirmFailed), 0, ACCEPTS.chance);
    assert next.attempts == s.attempts[n := Failed(3)];
    assert next.processes[0].pending == {n};
    Executes(id, r, s, 0, Interleaving.Pc.ConfirmFailed, ACCEPTS.chance, s.(attempts := s.attempts[n := Failed(3)]),
             Interleaving.PostConfirmed({n}));
  }

  lemma PostsConfirmed(id: SessionId, r: Reach, n: nat, s: State)
    requires ClosedUnder(id, r) && s.processes == map[] && At(s, 0, Interleaving.PostConfirmed({n})) in r.states
    ensures At(Interleaving.Posts(s, AttemptReversal(id, n)), 0, Interleaving.PostConfirmed({})) in r.states
  {
    assert {n} - {n} == {};
    Executes(id, r, s, 0, Interleaving.PostConfirmed({n}), Interleaving.Chance(true, Accepted, false, n),
             Interleaving.Posts(s, AttemptReversal(id, n)), Interleaving.PostConfirmed({}));
  }

  lemma OnlyLatestIsOpen(id: SessionId, c: Case, s: State)
    requires c in Sound(id) && c.status == Settling && Shows(s, c)
    ensures var n := |c.attempts|;
            && IsDispatched(c, n) && n in s.attempts && s.attempts[n] == Dispatched && NoneIs(s.attempts, Succeeded)
            && forall m | m in s.attempts && m != n :: s.attempts[m] != Dispatched
  {
    SoundPhases(id, c);
    forall m | m in s.attempts
      ensures s.attempts[m] != Succeeded && (m != |c.attempts| ==> s.attempts[m] != Dispatched)
    {
      StatusOfAttempt(id, c, m);
    }
  }

  lemma SameShows(s: State, c: Case, c': Case)
    requires Shows(s, c) && c'.status == c.status && c'.opsPaged == c.opsPaged && c'.journal == c.journal
    requires |c'.attempts| == |c.attempts|
    requires forall i | 0 <= i < |c.attempts| :: c'.attempts[i].status == c.attempts[i].status
    ensures Shows(s, c')
  {
    assert Statuses(c'.attempts) == Statuses(c.attempts);
  }

  /** The confirmation does to the latest attempt what a failure would do. */
  lemma ConfirmationMarks(id: SessionId, c: Case, note: string, i: nat)
    requires c in Sound(id) && c.status == Settling && i < |c.attempts|
    ensures ResolveConfirmedFailed(id, c, note).attempts[i].status
            == MarkFailed(c, |c.attempts|, 3, note).attempts[i].status
  {
    StatusOfAttempt(id, c, i + 1);
  }

  /** The case after the confirmation of its one open attempt. */
  lemma ConfirmedShows(id: SessionId, c: Case, note: string, s: State)
    requires c in Sound(id) && c.status == Settling && Shows(s, c) && IsDispatched(c, |c.attempts|)
    requires !Live(c.attempts[|c.attempts| - 1].funds)
    ensures Shows(Failing(id, s, |c.attempts|, 3), ResolveConfirmedFailed(id, c, note))
  {
    var n, confirmed := |c.attempts|, ResolveConfirmedFailed(id, c, note);
    var reversal := ReversalPosting(AttemptReversal(id, n), c);
    var marked := MarkFailed(c, n, 3, note).(journal := Recorded(c.journal, reversal));
    FailureKeeps(id, c, n, 3, note);
    ReversedUpToIs(id, c, n);
    FailingShows(id, s, c, n, 3, note);
    forall i | 0 <= i < n ensures confirmed.attempts[i].status == marked.attempts[i].status {
      ConfirmationMarks(id, c, note, i);
    }
    SameShows(Failing(id, s, n, 3), marked, confirmed);
  }

  lemma ConfirmedRetryRuns(id: SessionId, r: Reach, c: Case, corrected: Option<Destination>, admin: string, s: State)
    requires ClosedUnder(id, r) && c in Sound(id) && Shows(s, c) && s in r.states
    requires c.status == Settling && c.opsPaged && !Live(c.attempts[|c.attempts| - 1].funds)
    ensures Shown(r, RetryPayout(id, c, corrected, true, admin).c)
  {
    var note, n := "confirmed failed by admin " + admin, |c.attempts|;
    OnlyLatestIsOpen(id, c, s);
    ConfirmationRuns(id, r, n, s);
    ConfirmedShows(id, c, note, s);
    ConfirmedFailedIsFailure(id, c, note);
    QueuedIsSound(id, ResolveConfirmedFailed(id, c, note), corrected);
    IsShown(r, Failing(id, s, n, 3).(status := PendingDispatch, paged := false),
            RetryPayout(id, c, corrected, true, admin).c);
  }

  lemma RetryRuns(id: SessionId, r: Reach, c: Case, corrected: Option<Destination>, confirmed: bool, admin: string,
                  s: State)
    requires ClosedUnder(id, r) && c in Sound(id) && Shows(s, c) && s in r.states
    requires Truthful(c, Retry(corrected, confirmed, admin))
    ensures Shown(r, RetryPayout(id, c, corrected, confirmed, admin).c)
  {
    if c.status in {SettlementFailed, AwaitingManualPayout} {
      GivenUpRetryRuns(id, r, c, corrected, confirmed, admin, s);
    } else if c.status == Settling && c.opsPaged && confirmed {
      SoundPhases(id, c);
      assert IsDispatched(c, |c.attempts|) && !InFlightNow(c, |c.attempts|);
      ConfirmedRetryRuns(id, r, c, corrected, admin, s);
    } else {
      IsShown(r, s, c);
    }
  }

  lemma ManualRuns(id: SessionId, r: Reach, c: Case, who: string, s: State)
    requires ClosedUnder(id, r) && c in Sound(id) && Shows(s, c) && s in r.states
    ensures Shown(r, ManualSettle(id, c, who).c)
  {
    if c.status == AwaitingManualPayout {
      var posted := Interleaving.Posts(InterleavingMoves.PaidByHand(s), ManualPayout(id));
      PaysByHand(id, r, s, 0);
      Finishes(id, r, InterleavingMoves.PaidByHand(s), 0, Interleaving.PostHandPayment, ACCEPTS.chance, posted);
      ParkedIsPayable(id, c);
      HandPaidShows(id, c, who, s);
      IsShown(r, posted, Release(HandPaid(id, c, who)));
      assert ManualSettle(id, c, who).c == Release(HandPaid(id, c, who));
    } else {
      IsShown(r, s, c);
    }
  }

  lemma HandPaidShows(id: SessionId, c: Case, who: string, s: State)
    requires Shows(s, c) && ManualPayout(id) !in Keys(c.journal)
    ensures Shows(Interleaving.Posts(InterleavingMoves.PaidByHand(s), ManualPayout(id)), Release(HandPaid(id, c, who)))
  {
    KeysAgree(c.journal, ManualPayout(id));
    HandPaidStatuses(id, c, who);
  }

  lemma HandPaidStatuses(id: SessionId, c: Case, who: string)
    ensures Statuses(c.attempts + [ByHand(id, c, who)]) == Statuses(c.attempts)[|c.attempts| + 1 := Succeeded]
  {
  }

  lemma TimeoutRuns(id: SessionId, r: Reach, c: Case, s: State)
    requires ClosedUnder(id, r) && Shows(s, c) && s in r.states
    ensures Shown(r, PageTimedOut(c))
  {
    if PageTimedOut(c) != c {
      var i :| 0 <= i < |c.attempts| && c.attempts[i].status == Dispatched;
      assert i + 1 in s.attempts && s.attempts[i + 1] == Dispatched;
      Continues(id, r, s, 0, Interleaving.TimeoutPage);
      IsShown(r, s.(paged := true), PageTimedOut(c));
    } else {
      IsShown(r, s, c);
    }
  }

  // ----- steps and runs -----

  lemma OutsideShows(id: SessionId, s: State, c: Case, ev: Event)
    requires Shows(s, c) && (ev.BankMoves? || ev.HandMoves? || ev.DepositGrows?)
    ensures Shows(s, Step(id, c, ev).c)
  {
    assert Statuses(Step(id, c, ev).c.attempts) == Statuses(c.attempts);
  }

  /** A case that was reversed can be closed for good; the statements stop before that. */
  predicate Closes(c: Case, ev: Event) {
    ev.Resolve? && ev.index < |c.reversals|
  }

  /** One step of the protocol is a stretch of statements that one process runs alone, or nothing at all. */
  lemma StepRuns(id: SessionId, r: Reach, c: Case, ev: Event, s: State)
    requires ClosedUnder(id, r) && c in Sound(id) && Shows(s, c) && s in r.states
    requires Truthful(c, ev) && !Closes(c, ev)
    ensures Shown(r, Step(id, c, ev).c)
  {
    match ev
    case Worker(env) => WorkRuns(id, r, c, env, s);
    case Callback(env, kind, n, reason) => HookRuns(id, r, c, env, kind, n, reason, s);
    case Retry(corrected, confirmed, admin) => RetryRuns(id, r, c, corrected, confirmed, admin, s);
    case PaidByHand(who) => ManualRuns(id, r, c, who, s);
    case TimeoutSweep => TimeoutRuns(id, r, c, s);
    case Resolve(_, _) => IsShown(r, s, c);
    case _ =>
      OutsideShows(id, s, c, ev);
      IsShown(r, s, Step(id, c, ev).c);
  }

  ghost predicate NoneCloses(id: SessionId, c: Case, evs: seq<Event>) {
    evs == [] || (NoneCloses(id, c, evs[..|evs| - 1]) && !Closes(After(id, c, evs[..|evs| - 1]), evs[|evs| - 1]))
  }

  /** Processes one at a time, callbacks about attempts that were sent, confirmations that are informed. */
  const CAREFUL := Discipline(true, true, true)

  lemma {:induction false} RunRuns(id: SessionId, r: Reach, c: Case, evs: seq<Event>)
    requires ClosedUnder(id, r) && Interleaving.START in r.states
    requires Initial(c) && TruthfulRun(id, c, evs) && NoneCloses(id, c, evs)
    ensures Shown(r, After(id, c, evs))
  {
    if evs == [] {
      assert Statuses([]) == map[];
      IsShown(r, Interleaving.START, c);
    } else {
      var before := evs[..|evs| - 1];
      RunRuns(id, r, c, before);
      RunIsSound(id, c, before);
      var s :| s in r.states && Shows(s, After(id, c, before));
      StepRuns(id, r, After(id, c, before), evs[|evs| - 1], s);
    }
  }

  /**
   * Every truthful run of whole steps, up to the closing of a reversed case, is a run of single statements, by
   * processes that come one after the other: some sequence of statements from the fresh row leads to the same status,
   * the same attempts, the same paging and the same keys in the same order.
   */
  lemma StepsAreStatements(id: SessionId, c: Case, evs: seq<Event>)
    requires Initial(c) && TruthfulRun(id, c, evs) && NoneCloses(id, c, evs)
    ensures exists moves :: Obeys(id, CAREFUL, Interleaving.START, moves)
                            && Shows(Interleaving.AfterMoves(id, moves), After(id, c, evs))
  {
    var r := Reach(CAREFUL, Reachable(id, CAREFUL, Interleaving.START));
    ReachableIsClosed(id, CAREFUL, Interleaving.START);
    RunRuns(id, r, c, evs);
    var s :| s in r.states && Shows(s, After(id, c, evs));
    var moves :| Obeys(id, CAREFUL, Interleaving.START, moves)
                 && Interleaving.From(id, Interleaving.START, moves) == s;
    assert Interleaving.AfterMoves(id, moves) == s;
  }
}
