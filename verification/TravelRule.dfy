/**
 * Travel-rule screening of one tenant's sessions, created concurrently: every session row is inserted before its own
 * rolling volume is summed, which is what keeps the automatically approved volume below the threshold.
 */
module TravelRule {
  import opened Common

  datatype Verdict = Undecided | Approved | Refused | Held | ByAnalyst

  /** When a session was screened, how many were before it, and whether the volume was over the threshold. */
  datatype Screening = Screening(at: int, order: nat, hit: bool)

  /** A session row with what its creating call has come to. */
  datatype Row = Row(amount: real, createdAt: int, rejected: bool, screening: Option<Screening>, verdict: Verdict)

  /** The tenant's rows in order of insertion, the clock, and how many screenings there were. */
  datatype State = State(rows: seq<Row>, now: int, screened: nat)

  const START := State([], 0, 0)

  /** What a row adds to the rolling volume. */
  function Counted(since: int): Row -> real {
    (r: Row) => if !r.rejected && r.createdAt >= since then r.amount else 0.0
  }

  /** At or over the threshold, with the new session's own amount on top of the volume that already has it. */
  predicate Exceeds(rows: seq<Row>, amount: real, threshold: real, since: int) {
    Sum(rows, Counted(since)) + amount >= threshold
  }

  /** The statements of the calls, of analysts, and the clock; i names the session. */
  datatype Step =
    | Insert(amount: real) | Screen(i: nat) | Decide(i: nat, verdict: Verdict) | Reject(i: nat)
    | Review(i: nat, approve: bool) | Tick(passed: nat)

  function Do(s: State, threshold: real, window: nat, step: Step): State {
    match step
    case Insert(amount) =>
      if amount >= 0.0 then s.(rows := s.rows + [Row(amount, s.now, false, None, Undecided)]) else s
    case Screen(i) =>
      if i < |s.rows| && s.rows[i].screening == None then
        s.(rows := s.rows[i := s.rows[i].(screening :=
             Some(Screening(s.now, s.screened, Exceeds(s.rows, s.rows[i].amount, threshold, s.now - window))))],
           screened := s.screened + 1)
      else s
    case Decide(i, verdict) =>
      if i < |s.rows| && s.rows[i].screening.Some? && s.rows[i].verdict == Undecided
          && verdict in {Approved, Refused, Held} then
        s.(rows := s.rows[i := s.rows[i].(verdict := if s.rows[i].screening.value.hit then Held else verdict)])
      else s
    case Reject(i) =>
      if i < |s.rows| && s.rows[i].verdict == Refused then s.(rows := s.rows[i := s.rows[i].(rejected := true)]) else s
    case Review(i, approve) =>
      if i < |s.rows| && s.rows[i].verdict == Held then
        s.(rows := s.rows[i := if approve then s.rows[i].(verdict := ByAnalyst) else s.rows[i].(verdict := Refused)])
      else s
    case Tick(passed) => s.(now := s.now + passed)
  }

  function After(threshold: real, window: nat, steps: seq<Step>): State {
    if steps == [] then START
        else Do(After(threshold, window, steps[..|steps| - 1]), threshold, window, steps[|steps| - 1])
  }

  /** Screened below the threshold, and approved or still open to be. */
  predicate Candidate(r: Row) {
    r.screening.Some? && !r.screening.value.hit && r.verdict in {Undecided, Approved}
  }

  /** The candidates screened no later than one of them, and created within its window. */
  function CandidateVolume(order: nat, since: int): Row -> real {
    (r: Row) => if Candidate(r) && r.screening.value.order <= order && r.createdAt >= since then r.amount else 0.0
  }

  predicate RowOk(s: State, r: Row) {
    && r.amount >= 0.0 && r.createdAt <= s.now
    && (r.screening.Some? ==> r.createdAt <= r.screening.value.at <= s.now && r.screening.value.order < s.screened)
    && (r.verdict == Approved ==> Candidate(r))
    && (r.rejected ==> r.verdict == Refused)
  }

  predicate Below(s: State, threshold: real, window: nat, r: Row) {
    Candidate(r) ==>
      Sum(s.rows, CandidateVolume(r.screening.value.order, r.screening.value.at - window)) + r.amount < threshold
  }

  /** Every candidate's window is below the threshold even with its own amount counted twice. */
  predicate Bounded(s: State, threshold: real, window: nat) {
    && (forall i | 0 <= i < |s.rows| :: RowOk(s, s.rows[i]))
    && (forall i | 0 <= i < |s.rows| :: Below(s, threshold, window, s.rows[i]))
  }

  /** A row that changes without weighing more in anyone's window. */
  lemma RowKeepsBelow(s: State, threshold: real, window: nat, i: nat, row: Row, r: Row)
    requires i < |s.rows| && Candidate(r) && Below(s, threshold, window, r)
    requires var w := CandidateVolume(r.screening.value.order, r.screening.value.at - window); w(row) <= w(s.rows[i])
    ensures Below(s.(rows := s.rows[i := row]), threshold, window, r)
  {
    SumUpdate(s.rows, i, row, CandidateVolume(r.screening.value.order, r.screening.value.at - window));
  }

  lemma InsertKeepsBounded(s: State, threshold: real, window: nat, amount: real)
    requires Bounded(s, threshold, window)
    ensures Bounded(Do(s, threshold, window, Insert(amount)), threshold, window)
  {
    var after := Do(s, threshold, window, Insert(amount));
    if amount >= 0.0 {
      var row := Row(amount, s.now, false, None, Undecided);
      forall i | 0 <= i < |after.rows| ensures Below(after, threshold, window, after.rows[i]) {
        var r := after.rows[i];
        if Candidate(r) {
          var w := CandidateVolume(r.screening.value.order, r.screening.value.at - window);
          assert Below(s, threshold, window, s.rows[i]);
          SumAppend(s.rows, [row], w);
          assert [row][..0] == [];
        }
      }
    }
  }

  /** The screening of a session sums every row that can still be approved, its own among them. */
  lemma ScreenedIsBelow(s: State, threshold: real, window: nat, i: nat)
    requires Bounded(s, threshold, window) && i < |s.rows| && s.rows[i].screening == None
    ensures var after := Do(s, threshold, window, Screen(i)); Below(after, threshold, window, after.rows[i])
  {
    var after := Do(s, threshold, window, Screen(i));
    var r := after.rows[i];
    var since := s.now - window;
    if Candidate(r) {
      SumUpdate(s.rows, i, r, Counted(since));
      forall j | 0 <= j < |after.rows|
        ensures CandidateVolume(s.screened, since)(after.rows[j]) <= Counted(since)(after.rows[j])
      {
        assert RowOk(s, s.rows[j]);
      }
      SumMonotone(after.rows, CandidateVolume(s.screened, since), Counted(since));
    }
  }

  lemma ScreenKeepsBounded(s: State, threshold: real, window: nat, i: nat)
    requires Bounded(s, threshold, window)
    ensures Bounded(Do(s, threshold, window, Screen(i)), threshold, window)
  {
    var after := Do(s, threshold, window, Screen(i));
    if after != s {
      ScreenedIsBelow(s, threshold, window, i);
      forall j | 0 <= j < |after.rows| && j != i ensures Below(after, threshold, window, after.rows[j]) {
        if Candidate(s.rows[j]) {
          assert RowOk(s, s.rows[j]);
          RowKeepsBelow(s, threshold, window, i, after.rows[i], s.rows[j]);
        }
      }
      forall j | 0 <= j < |after.rows| ensures RowOk(after, after.rows[j]) {
        assert RowOk(s, s.rows[j]);
      }
    }
  }

  /** Decisions, rejections and reviews only ever take a session out of the running. */
  lemma SettledKeepsBounded(s: State, threshold: real, window: nat, step: Step)
    requires Bounded(s, threshold, window) && (step.Decide? || step.Reject? || step.Review?)
    ensures Bounded(Do(s, threshold, window, step), threshold, window)
  {
    var after := Do(s, threshold, window, step);
    if after != s {
      var i := step.i;
      assert RowOk(s, s.rows[i]);
      forall j | 0 <= j < |after.rows| ensures Below(after, threshold, window, after.rows[j]) {
        if Candidate(after.rows[j]) {
          assert Below(s, threshold, window, s.rows[j]);
          RowKeepsBelow(s, threshold, window, i, after.rows[i], s.rows[j]);
        }
      }
      forall j | 0 <= j < |after.rows| ensures RowOk(after, after.rows[j]) {
        assert RowOk(s, s.rows[j]);
      }
    }
  }

  lemma {:induction false} EveryRunIsBounded(threshold: real, window: nat, steps: seq<Step>)
    ensures Bounded(After(threshold, window, steps), threshold, window)
  {
    if steps != [] {
      var s, step := After(threshold, window, steps[..|steps| - 1]), steps[|steps| - 1];
      EveryRunIsBounded(threshold, window, steps[..|steps| - 1]);
      match step
      case Insert(amount) => InsertKeepsBounded(s, threshold, window, amount);
      case Screen(i) => ScreenKeepsBounded(s, threshold, window, i);
      case Decide(_, _) => SettledKeepsBounded(s, threshold, window, step);
      case Reject(_) => SettledKeepsBounded(s, threshold, window, step);
      case Review(_, _) => SettledKeepsBounded(s, threshold, window, step);
      case Tick(_) => TickKeepsBounded(s, threshold, window, step);
    }
  }

  lemma TickKeepsBounded(s: State, threshold: real, window: nat, step: Step)
    requires Bounded(s, threshold, window) && step.Tick?
    ensures Bounded(Do(s, threshold, window, step), threshold, window)
  {
    var after := Do(s, threshold, window, step);
    forall j | 0 <= j < |after.rows| ensures RowOk(after, after.rows[j])
        && Below(after, threshold, window, after.rows[j]) {
      assert RowOk(s, s.rows[j]) && Below(s, threshold, window, s.rows[j]);
    }
  }

  function ApprovedVolume(since: int): Row -> real {
    (r: Row) => if r.verdict == Approved && r.createdAt >= since then r.amount else 0.0
  }

  /** The automatically approved session that was screened last. */
  predicate LastApproved(s: State, last: nat) {
    && last < |s.rows| && s.rows[last].verdict == Approved && s.rows[last].screening.Some?
    && forall j | 0 <= j < |s.rows| && s.rows[j].verdict == Approved && s.rows[j].screening.Some? ::
         s.rows[j].screening.value.order <= s.rows[last].screening.value.order
  }

  /**
   * In every interleaving: what was approved automatically, of the sessions created within one window ending at the
   * last approving screening, is below the threshold, even with the last amount added once more.
   */
  lemma {:induction false} ApprovedStaysBelowThreshold(threshold: real, window: nat, steps: seq<Step>, last: nat)
    requires LastApproved(After(threshold, window, steps), last)
    ensures var s := After(threshold, window, steps);
            Sum(s.rows, ApprovedVolume(s.rows[last].screening.value.at - window)) + s.rows[last].amount < threshold
  {
    var s := After(threshold, window, steps);
    EveryRunIsBounded(threshold, window, steps);
    VolumeBelow(s, threshold, window, last);
  }

  lemma VolumeBelow(s: State, threshold: real, window: nat, last: nat)
    requires Bounded(s, threshold, window) && LastApproved(s, last)
    ensures Sum(s.rows, ApprovedVolume(s.rows[last].screening.value.at - window)) + s.rows[last].amount < threshold
  {
    var since, order := s.rows[last].screening.value.at - window, s.rows[last].screening.value.order;
    forall j | 0 <= j < |s.rows| ensures ApprovedVolume(since)(s.rows[j]) <= CandidateVolume(order, since)(s.rows[j]) {
      assert RowOk(s, s.rows[j]);
    }
    SumMonotone(s.rows, ApprovedVolume(since), CandidateVolume(order, since));
    assert Below(s, threshold, window, s.rows[last]) && RowOk(s, s.rows[last]);
  }

  // ----- the screening call -----

  datatype CaseStatus = CaseHold | CaseApproved | CaseRejected

  datatype Case = Case(session: string, status: CaseStatus, provider: string, holdExpiresAt: Option<int>)

  /** What a provider says; None is a provider that cannot be found or does not answer. */
  datatype ProviderDecision = ProviderDecision(hold: bool, approved: bool)

  /** What a screening comes to: the volume decides before any provider, and without a provider a human has to. */
  function Outcome(hit: bool, provider: string, answer: Option<ProviderDecision>): Option<CaseStatus> {
    if hit || provider == "" then Some(CaseHold)
    else
      match answer
      case None => None
      case Some(d) => Some(if d.hold then CaseHold else if d.approved then CaseApproved else CaseRejected)
  }

  /** A hit and a missing provider hold; a provider's silence fails the call; otherwise it is as the provider says. */
  lemma OutcomeByCause(hit: bool, provider: string, answer: Option<ProviderDecision>)
    ensures var asked := !hit && provider != "";
            var outcome := Outcome(hit, provider, answer);
            && (outcome == None <==> asked && answer == None)
            && (outcome == Some(CaseHold) <==> !asked || (answer.Some? && answer.value.hold))
            && (outcome == Some(CaseApproved) <==> asked && answer == Some(ProviderDecision(false, true)))
            && (outcome == Some(CaseRejected) <==> asked && answer == Some(ProviderDecision(false, false)))
  {
  }

  class ComplianceStore {
    var cases: seq<Case>
    /** Sessions for which a hold was announced. */
    var announced: seq<string>

    constructor ()
      ensures cases == [] && announced == []
    {
      cases, announced := [], [];
    }

    /** Adds the volume up row by row; a corridor without a threshold is never exceeded. */
    method TravelRuleThresholdExceeded(rows: seq<Row>, amount: real, threshold: Option<real>,
                                       since: int) returns (exceeded: bool)
      ensures exceeded == (threshold.Some? && Exceeds(rows, amount, threshold.value, since))
    {
      if threshold == None {
        return false;
      }
      var volume := 0.0;
      for i := 0 to |rows|
        invariant volume == Sum(rows[..i], Counted(since))
      {
        assert rows[..i + 1][..i] == rows[..i];
        if !rows[i].rejected && rows[i].createdAt >= since {
          volume := volume + rows[i].amount;
        }
      }
      assert rows[..|rows|] == rows;
      exceeded := volume + amount >= threshold.value;
    }

    /** The volume decides before any provider does; without a provider the session is held. */
    method ScreenSession(session: string, rows: seq<Row>, amount: real, threshold: Option<real>, now: int, window: nat,
                         holdTimeout: nat, provider: string, answer: Option<ProviderDecision>)
      returns (status: Option<CaseStatus>)
      modifies this
      ensures var hit := threshold.Some? && Exceeds(rows, amount, threshold.value, now - window);
              && status == Outcome(hit, provider, answer)
              && (status == None <==> !hit && provider != "" && answer == None)
              && (status == Some(CaseApproved) <==>
                  !hit && provider != "" && answer == Some(ProviderDecision(false, true)))
              && (status == Some(CaseRejected) <==>
                  !hit && provider != "" && answer == Some(ProviderDecision(false, false)))
      ensures status == None ==> cases == old(cases) && announced == old(announced)
      ensures status.Some? ==>
                && |cases| == |old(cases)| + 1 && cases[..|old(cases)|] == old(cases)
                && cases[|cases| - 1].session == session && cases[|cases| - 1].status == status.value
                && cases[|cases| - 1].holdExpiresAt
                    == (if status == Some(CaseHold) then Some(now + holdTimeout) else None)
                && announced == old(announced) + (if status == Some(CaseHold) then [session] else [])
    {
      var hit := TravelRuleThresholdExceeded(rows, amount, threshold, now - window);
      var decided := CaseHold;
      var decidedBy := "";
      if !hit && provider != "" {
        if answer == None {
          return None;
        }
        decidedBy := provider;
        if !answer.value.hold {
          decided := if answer.value.approved then CaseApproved else CaseRejected;
        }
      }
      cases := cases + [Case(session, decided, decidedBy,
                             if decided == CaseHold then Some(now + holdTimeout) else None)];
      if decided == CaseHold {
        announced := announced + [session];
      }
      return Some(decided);
    }
  }
}
