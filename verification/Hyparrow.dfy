/**
 * The Hyparrow payout adapter against an abstract remote: what a dispatch may conclude from the answers it sees, and
 * why its rejections honour the contract that the settlement protocol relies on.
 */
module Hyparrow {
  import opened Common
  import opened Keys
  import opened Ledger
  import opened Settlement
  import opened SettlementInvariant
  import opened SettlementSteps

  /** What the remote holds under one client reference. OnWire is a request that may still arrive. */
  datatype Remote = Absent | OnWire | Live | Undone

  /** Nothing is in flight, and nothing will be. */
  predicate Dead(r: Remote) {
    r in {Absent, Undone}
  }

  /** Without a request nothing appears; a late request may arrive or be lost; a transfer may be reversed, for good. */
  predicate Evolves(r: Remote, later: Remote) {
    r == later || r == OnWire || (r == Live && later == Undone)
  }

  /**
   * One HTTP exchange: no answer at all, or a status code with the body fields that are looked at; data is the one that
   * the endpoint's reader wants (account name, transfer status, settlement status).
   */
  datatype Answer = NoAnswer(error: string) | Answer(code: int, success: Option<bool>, status: string, data: string)

  datatype SendKind = SendAccepted | SendRejected | SendUnknown

  const REVERSED := "reversed"

  /** send: 200 and 202 are taken, 4xx and anything marked reversed are not in flight, the rest says nothing. */
  function Send(answer: Answer): SendKind {
    match answer
    case NoAnswer(_) => SendUnknown
    case Answer(code, _, status, data) =>
      if code == 200 || code == 202 then if data == REVERSED then SendRejected else SendAccepted
      else if 400 <= code < 500 || status == REVERSED then SendRejected
      else SendUnknown
  }

  /** getStatus: the settlement status, when the remote knows the reference and says so. */
  function GetStatus(answer: Answer): Option<string> {
    if answer.Answer? && answer.code == 200 && answer.data != "" then Some(answer.data) else None
  }

  /** What was found out before anything was sent. */
  datatype Preparation = Ready | Unpayable(reason: string) | InquiryFailed(reason: string)

  /** The payout that is asked for, and what the account inquiry answered. */
  datatype Order = Order(currency: string, destination: Destination, inquiry: Answer)

  const SUPPORTED_CURRENCY := "NGN"

  predicate Payable(currency: string, destination: Destination) {
    currency == SUPPORTED_CURRENCY && destination.Bank? && destination.accountNumber != "" && destination.bankCode != ""
  }

  /** A payout in another currency or without bank details is unpayable; a failed account inquiry may be tried again. */
  function Prepare(order: Order): Preparation {
    var inquiry := order.inquiry;
    if order.currency != SUPPORTED_CURRENCY then Unpayable("currency")
    else if !order.destination.Bank? then Unpayable("destination")
    else if order.destination.accountNumber == "" || order.destination.bankCode == "" then Unpayable("bank details")
    else if inquiry.Answer? && 200 <= inquiry.code < 300 && inquiry.success != Some(false) && inquiry.data != ""
        then Ready
    else InquiryFailed("account inquiry")
  }

  datatype Result = Result(kind: ReplyKind, reference: Option<string>)

  function Dispatch(order: Order, sent: Answer, lookedUp: Answer, reference: string): Result {
    match Prepare(order)
    case Unpayable(_) => Result(RejectedTerminal, None)
    case InquiryFailed(_) => Result(RejectedRetryable, None)
    case Ready =>
      match Send(sent)
      case SendAccepted => Result(Accepted, Some(reference))
      case SendRejected => Result(RejectedRetryable, Some(reference))
      case SendUnknown =>
        match GetStatus(lookedUp)
        case None => Result(Uncertain, Some(reference))
        case Some(status) => Result(if status == REVERSED then RejectedRetryable else Accepted, Some(reference))
  }

  // ----- the remote's side -----

  /** The remote's promise about an answer to a transfer request: what it may hold once it has given that answer. */
  predicate SendAllows(answer: Answer, r: Remote) {
    match answer
    case NoAnswer(_) => true
    case Answer(code, _, status, data) =>
      if code == 200 || code == 202 then r == Undone || (data != REVERSED && r in {OnWire, Live})
      else (400 <= code < 500 || status == REVERSED) ==> Dead(r)
  }

  /** The remote's promise about an answer to a status lookup; a 404 does not rule out a request still on the wire. */
  predicate LookupAllows(answer: Answer, r: Remote) {
    answer.Answer? && answer.code == 200 && answer.data != "" ==>
      if answer.data == REVERSED then r == Undone else r in {Live, Undone}
  }

  /**
   * A course of events: the reference is fresh, a request is sent when prepared, and looked up when its answer said
   * nothing.
   */
  ghost predicate Course(order: Order, sent: Answer, lookedUp: Answer, afterSend: Remote, atLookup: Remote,
                         end: Remote) {
    if Prepare(order) != Ready then afterSend == Absent && atLookup == Absent && end == Absent
    else
      && SendAllows(sent, afterSend)
      && Evolves(afterSend, atLookup) && (Send(sent) == SendUnknown ==> LookupAllows(lookedUp, atLookup))
      && Evolves(atLookup, end)
  }

  /** Everything that can have happened, given the answers, leaves nothing in flight. */
  ghost predicate ProvenDead(order: Order, sent: Answer, lookedUp: Answer) {
    forall afterSend, atLookup, end | Course(order, sent, lookedUp, afterSend, atLookup, end) :: Dead(end)
  }

  lemma DeadStaysDead(r: Remote, later: Remote)
    requires Dead(r) && Evolves(r, later)
    ensures later == r
  {
  }

  /**
   * Dispatch rejects exactly when the answers prove that nothing is in flight: never while money may move, and always
   * when it is known that none does.
   */
  lemma RejectsIffProvenDead(order: Order, sent: Answer, lookedUp: Answer, reference: string)
    ensures Dispatch(order, sent, lookedUp, reference).kind in {RejectedRetryable, RejectedTerminal}
            <==> ProvenDead(order, sent, lookedUp)
  {
    if Prepare(order) == Ready {
      match Send(sent)
      case SendAccepted => assert Course(order, sent, lookedUp, Live, Live, Live);
      case SendRejected =>
      case SendUnknown =>
        if GetStatus(lookedUp) == Some(REVERSED) {
          forall afterSend, atLookup, end | Course(order, sent, lookedUp, afterSend, atLookup, end) ensures Dead(end) {
            DeadStaysDead(atLookup, end);
          }
        } else {
          assert Course(order, sent, lookedUp, Live, Live, Live);
        }
    }
  }

  /** An accepted payout was there when the remote was asked. */
  lemma AcceptedWasThere(order: Order, sent: Answer, lookedUp: Answer, reference: string,
                         afterSend: Remote, atLookup: Remote, end: Remote)
    requires Dispatch(order, sent, lookedUp, reference).kind == Accepted
    requires Course(order, sent, lookedUp, afterSend, atLookup, end)
    ensures afterSend != Absent || atLookup != Absent
    ensures Dispatch(order, sent, lookedUp, reference).reference == Some(reference)
  {
  }

  // ----- into the protocol -----

  /** The reply the settlement protocol sees, with what really became of the transfer. */
  function ReplyOf(result: Result, reason: string, end: Remote): Reply {
    Reply(result.kind, result.reference, reason, end in {OnWire, Live})
  }

  lemma DispatchIsHonest(order: Order, sent: Answer, lookedUp: Answer, reference: string, reason: string,
                         afterSend: Remote, atLookup: Remote, end: Remote)
    requires Course(order, sent, lookedUp, afterSend, atLookup, end)
    ensures Honest(ReplyOf(Dispatch(order, sent, lookedUp, reference), reason, end))
  {
    RejectsIffProvenDead(order, sent, lookedUp, reference);
  }

  /** Everything a dispatch of one attempt meets at the remote. */
  datatype Meeting = Meeting(order: Order, sent: Answer, lookedUp: Answer, reason: string,
                             afterSend: Remote, atLookup: Remote, end: Remote)

  ghost predicate Lawful(m: Meeting) {
    Course(m.order, m.sent, m.lookedUp, m.afterSend, m.atLookup, m.end)
  }

  /** A corridor served by Hyparrow alone. */
  function HyparrowEnv(id: SessionId, meetings: nat -> Meeting, telegramOn: bool, alertDelivered: bool): Env {
    Env(["hyparrow"], map["hyparrow" := true],
        (n: nat) => ReplyOf(Dispatch(meetings(n).order, meetings(n).sent, meetings(n).lookedUp, ClientReference(id, n)),
                     meetings(n).reason, meetings(n).end),
        telegramOn, alertDelivered)
  }

  /** Served by a lawful remote, Hyparrow's replies are what the no-double-payout theorem asks of a provider. */
  lemma HyparrowEnvIsHonest(id: SessionId, meetings: nat -> Meeting, telegramOn: bool, alertDelivered: bool)
    requires forall n: nat :: Lawful(meetings(n))
    ensures HonestEnv(HyparrowEnv(id, meetings, telegramOn, alertDelivered))
  {
    var env := HyparrowEnv(id, meetings, telegramOn, alertDelivered);
    forall n: nat ensures Honest(env.replies(n)) {
      var m := meetings(n);
      assert Lawful(m);
      DispatchIsHonest(m.order, m.sent, m.lookedUp, ClientReference(id, n), m.reason, m.afterSend, m.atLookup, m.end);
    }
  }

  /** A worker's run against a lawful Hyparrow keeps the one live payout of a sound settlement. */
  lemma HyparrowWorkKeepsOneLive(id: SessionId, c: Case, meetings: nat -> Meeting, telegramOn: bool,
                                 alertDelivered: bool,
                                 m: nat, n: nat)
    requires c in Sound(id) && forall k: nat :: Lawful(meetings(k))
    requires var after := Work(id, c, HyparrowEnv(id, meetings, telegramOn, alertDelivered)).c;
             InFlightNow(after, m) && InFlightNow(after, n)
    ensures m == n
  {
    HyparrowEnvIsHonest(id, meetings, telegramOn, alertDelivered);
    WorkKeeps(id, c, HyparrowEnv(id, meetings, telegramOn, alertDelivered));
  }

  // ----- payouts that Hyparrow cannot make -----

  /** A rejection is final exactly when no answer could have made the payout possible. */
  lemma TerminalIffUnpayable(order: Order, sent: Answer, lookedUp: Answer, reference: string)
    ensures Dispatch(order, sent, lookedUp, reference).kind == RejectedTerminal <==>
            !Payable(order.currency, order.destination)
    ensures Payable(order.currency, order.destination) <==>
            exists inquiry, other :: Dispatch(order.(inquiry := inquiry), other, lookedUp, reference).kind == Accepted
  {
    if Payable(order.currency, order.destination) {
      var found, taken := Answer(200, None, "", "name"), Answer(200, None, "", "");
      assert Prepare(order.(inquiry := found)) == Ready && Send(taken) == SendAccepted;
      assert Dispatch(order.(inquiry := found), taken, lookedUp, reference).kind == Accepted;
    }
  }

  /**
   * A request is sent, and its reference kept, exactly when the payout is in NGN, to an account with a bank code, and
   * the account inquiry came back with a name. What was not sent is rejected: for good without a currency or an account
   * that can be paid, and to be tried again when only the inquiry failed.
   */
  lemma SentIffPrepared(order: Order, sent: Answer, lookedUp: Answer, reference: string)
    ensures var result := Dispatch(order, sent, lookedUp, reference);
            var payable := order.currency == "NGN" && order.destination.Bank?
                           && order.destination.accountNumber != "" && order.destination.bankCode != "";
            var found := order.inquiry.Answer? && 200 <= order.inquiry.code <= 299
                         && order.inquiry.success != Some(false) && order.inquiry.data != "";
            && result.reference == (if payable && found then Some(reference) else None)
            && (result.kind == RejectedTerminal <==> !payable)
            && (payable && !found ==> result.kind == RejectedRetryable)
  {
  }

  /** The attempt's order is for what the settlement owes, to where it would be sent. */
  predicate Asked(c: Case, m: Meeting) {
    m.order.currency == c.terms.currency && m.order.destination == ResolvedDestination(c)
  }

  lemma HyparrowIsChosen(id: SessionId, c: Case, meetings: nat -> Meeting, telegramOn: bool, alertDelivered: bool)
    ensures Choose(Enabled(HyparrowEnv(id, meetings, telegramOn, alertDelivered)), Tried(c.attempts))
            == Some("hyparrow")
  {
    var env := HyparrowEnv(id, meetings, telegramOn, alertDelivered);
    assert env.bindings[..0] == [] && env.bindings[0] == "hyparrow";
    assert EnabledAmong(env.bindings[..0], env.registry) == [];
    assert Enabled(env) == ["hyparrow"];
  }

  /** Giving up settles the question: the settlement waits for a human or has failed, and no attempt is added. */
  lemma GivesUp(c: Case, env: Env)
    requires c.status == Settling
    ensures FailSettlement(c, env).c.status in {SettlementFailed, AwaitingManualPayout}
    ensures FailSettlement(c, env).c.attempts == c.attempts
  {
  }

  /** A terminal rejection of the only attempt that was just made ends the dispatch. */
  lemma TerminalEnds(id: SessionId, c: Case, env: Env, provider: string, reply: Reply)
    requires c in Rounds(id) && reply.kind == RejectedTerminal && !reply.sent
    ensures var n := |c.attempts| + 1;
            var d := Routed(id, Called(id, c, provider, reply), env, n, reply).c;
            && |d.attempts| == n && d.attempts[n - 1].status == Failed(4)
            && d.status in {SettlementFailed, AwaitingManualPayout}
  {
    var n := |c.attempts| + 1;
    ClaimKeeps(id, c, provider, reply);
    var called := Called(id, c, provider, reply).(pending := None);
    var marked := MarkFailed(called, n, 4, reply.reason);
    var reversal := ReversalPosting(AttemptReversal(id, n), called);
    GivesUp(marked.(journal := Recorded(called.journal, reversal)), env);
    assert HandleAttemptFailure(id, called, env, n, 4, reply.reason, true).c
           == FailSettlement(marked.(journal := Recorded(called.journal, reversal)), env).c;
  }

  /**
   * A settlement in another currency, or to a destination without bank details, is given up after a single attempt with
   * Hyparrow, whatever its remote would have answered.
   */
  lemma UnpayableIsGivenUpAtOnce(id: SessionId, c: Case, meetings: nat -> Meeting, telegramOn: bool,
                                 alertDelivered: bool)
    requires c in Rounds(id) && forall k: nat :: Lawful(meetings(k))
    requires Asked(c, meetings(|c.attempts| + 1)) && !Payable(c.terms.currency, ResolvedDestination(c))
    ensures var n := |c.attempts| + 1;
            var d := DispatchAttempt(id, c, HyparrowEnv(id, meetings, telegramOn, alertDelivered)).c;
            && |d.attempts| == n && d.attempts[n - 1].status == Failed(4)
            && d.status in {SettlementFailed, AwaitingManualPayout}
  {
    var env, n := HyparrowEnv(id, meetings, telegramOn, alertDelivered), |c.attempts| + 1;
    var m := meetings(n);
    HyparrowIsChosen(id, c, meetings, telegramOn, alertDelivered);
    HyparrowEnvIsHonest(id, meetings, telegramOn, alertDelivered);
    TerminalIffUnpayable(m.order, m.sent, m.lookedUp, ClientReference(id, n));
    ClaimKeeps(id, c, "hyparrow", env.replies(n));
    DispatchUnfolds(id, c, env, "hyparrow");
    TerminalEnds(id, c, env, "hyparrow", env.replies(n));
  }

  // ----- callbacks -----

  /** parseWebhook: a decline is not a failure; only a reversal says that the money is not in flight. */
  function KindOf(event: string, reference: string): HookKind {
    if reference == "" then HookIgnored
    else if event == "transfer.settled" then HookSucceeded
    else if event == "transfer.failed" then HookDeclined
    else if event == "transfer.reversed" then HookReversed
    else HookIgnored
  }

  /**
   * With a remote that only announces reversals it has made, every callback is truthful and keeps a sound settlement
   * sound.
   */
  lemma CallbackKeepsSound(id: SessionId, c: Case, env: Env, event: string, reference: string, n: nat, reason: string)
    requires c in Sound(id) && HonestEnv(env)
    requires event == "transfer.reversed" ==> !InFlightNow(c, n)
    ensures Truthful(c, Callback(env, KindOf(event, reference), n, reason))
    ensures Hook(id, c, env, KindOf(event, reference), n, reason).c in Sound(id)
    ensures KindOf(event, reference) != HookFailed
  {
    HookKeeps(id, c, env, KindOf(event, reference), n, reason);
  }
}
