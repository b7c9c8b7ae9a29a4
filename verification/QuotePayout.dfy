/** From the quote to the payout: what a payer who sends what was asked for has paid out, in fiat. */
module QuotePayout {
  import opened Common
  import opened Ledger
  import opened Settlement
  import opened SettlementInvariant
  import opened SettlementSteps
  import opened SettlementRuns
  import opened SettlementPolicy
  import opened SettlementRetries
  import Quote

  /** The amount asked for a fiat sum at a session's lock. */
  function Asked(rate: real, price: real, asset: string, fiat: real): real
    requires rate != 0.0 && price != 0.0
  {
    Quote.Requested(Quote.Lock(rate, price), asset, fiat)
  }

  /** What the rounding of two divisions can take off a fiat sum, or add to it. */
  function Rounding(rate: real, price: real): real {
    Quote.DIVISION_UNIT / 2.0 * rate * (1.0 + price)
  }

  /** A worker that gets as far as a dispatch pays out the whole total confirmed by then, at price and rate. */
  lemma WorkerPaysTotal(id: SessionId, s: Case, env: Env)
    requires s in Sound(id) && s.status == PendingDispatch && Work(id, s, env).c.status != Dispatching
    ensures s.lock.Some?
    ensures var after := Work(id, s, env).c;
            var worth := s.confirmedTotal * s.lock.value.price * s.lock.value.rate;
            && after.amount == worth
            && Owed(after.journal) == if FirstDispatched(id, s) then Owed(s.journal) else worth
  {
    WorkUnfolds(id, s, env);
    var converted := Converted(id, s);
    DispatchFrame(id, converted, env);
    ConvertedOwes(id, s);
  }

  lemma ConvertedOwes(id: SessionId, s: Case)
    requires s in Sound(id) && s.lock.Some?
    ensures var worth := s.confirmedTotal * s.lock.value.price * s.lock.value.rate;
            && Converted(id, s).amount == worth
            && Owed(Converted(id, s).journal) == if FirstDispatched(id, s) then Owed(s.journal) else worth
  {
    var deposited := Recorded(s.journal, DepositPosting(id, s));
    assert Owed(deposited) == Owed(s.journal);
    assert FxConversion(id) in Keys(deposited) <==> FirstDispatched(id, s);
  }

  lemma SteadyPays(id: SessionId, s: Case, total: real, rate: real, price: real)
    requires Steady(id, s) && FirstDispatched(id, s)
    requires s.confirmedTotal == total && s.lock == Some(Lock(rate, price))
    ensures s.amount == Owed(s.journal) == total * price * rate
  {
  }

  /** What every run with a fixed deposit credits to the tenant, and claims for each payout. */
  lemma PaysConfirmedTotal(id: SessionId, c: Case, evs: seq<Event>, total: real, rate: real, price: real)
    requires Initial(c) && TruthfulRun(id, c, evs) && NoDepositGrows(evs) && FirstDispatched(id, After(id, c, evs))
    requires c.confirmedTotal == total && c.lock == Some(Lock(rate, price))
    ensures After(id, c, evs).amount == Owed(After(id, c, evs).journal) == total * price * rate
  {
    RunIsSteady(id, c, evs);
    SteadyPays(id, After(id, c, evs), total, rate, price);
  }

  lemma Regroup(a: real, b: real, x: real, y: real)
    ensures (a * x * y) * b == a * (b * x * y)
  {
    assert a * x * y == a * (x * y) && b * x * y == b * (x * y);
    assert (a * (x * y)) * b == a * (b * (x * y));
  }

  /** What a deposit pays, against what the amount asked for is worth: enough if it is enough, and in proportion. */
  predicate PaysItsShare(amount: real, total: real, asked: real, worth: real, least: real) {
    (total >= asked ==> amount >= least) && amount * asked == total * worth
  }

  /** A larger amount is worth more, and worths are in proportion. */
  lemma InProportion(amount: real, total: real, asked: real, price: real, rate: real, worth: real, least: real)
    requires price > 0.0 && rate > 0.0 && amount == total * price * rate && worth == asked * price * rate
    requires worth >= least
    ensures PaysItsShare(amount, total, asked, worth, least)
  {
    if total >= asked {
      Quote.Order(asked, total, price);
      Quote.Order(asked * price, total * price, rate);
    }
    Regroup(total, asked, price, rate);
  }

  /** Worth what was asked for, up to the rounding. */
  predicate WorthTheFiat(worth: real, fiat: real, rate: real, price: real, unit: real) {
    && fiat - Rounding(rate, price) <= worth
    && worth < fiat + unit * price * rate + Rounding(rate, price)
  }

  lemma AskedIsWorth(rate: real, price: real, asset: string, fiat: real, asked: real)
    requires rate > 0.0 && price > 0.0 && fiat >= 0.0 && asked == Asked(rate, price, asset, fiat)
    ensures WorthTheFiat(asked * price * rate, fiat, rate, price, Quote.Unit(asset))
  {
    Quote.QuoteIsWorthTheFiat(Quote.Lock(rate, price), asset, fiat);
  }

  /**
   * The quote and the payout meet. When the confirmed deposit is what was asked for a fiat sum, then from the first
   * dispatch of any run on the tenant is owed, and every payout is, that sum: no less but for the rounding of two
   * divisions, and more by less than one sendable unit and the same rounding.
   */
  lemma QuotedDepositPaysTheFiat(id: SessionId, c: Case, evs: seq<Event>, rate: real, price: real, fiat: real)
    requires Initial(c) && TruthfulRun(id, c, evs) && NoDepositGrows(evs) && FirstDispatched(id, After(id, c, evs))
    requires c.lock == Some(Lock(rate, price)) && rate > 0.0 && price > 0.0 && fiat >= 0.0
    requires c.confirmedTotal == Asked(rate, price, c.terms.asset, fiat)
    ensures var s := After(id, c, evs);
            s.amount == Owed(s.journal) && WorthTheFiat(s.amount, fiat, rate, price, Quote.Unit(c.terms.asset))
  {
    var asked := Asked(rate, price, c.terms.asset, fiat);
    PaysConfirmedTotal(id, c, evs, asked, rate, price);
    AskedIsWorth(rate, price, c.terms.asset, fiat, asked);
  }

  lemma SharePays(id: SessionId, s: Case, total: real, rate: real, price: real, asset: string, fiat: real, asked: real)
    requires Steady(id, s) && FirstDispatched(id, s)
    requires s.confirmedTotal == total && s.lock == Some(Lock(rate, price))
    requires rate > 0.0 && price > 0.0 && fiat >= 0.0 && asked == Asked(rate, price, asset, fiat)
    ensures PaysItsShare(s.amount, total, asked, asked * price * rate, fiat - Rounding(rate, price))
  {
    SteadyPays(id, s, total, rate, price);
    AskedIsWorth(rate, price, asset, fiat, asked);
    InProportion(s.amount, total, asked, price, rate, asked * price * rate, fiat - Rounding(rate, price));
  }

  /**
   * Any other deposit pays in proportion to the one asked for: one that is larger pays at least the fiat sum, up to the
   * rounding, and a smaller one its share of what the requested amount would have paid.
   */
  lemma OtherDepositsPayInProportion(id: SessionId, c: Case, evs: seq<Event>, rate: real, price: real, fiat: real,
                                     asked: real)
    requires Initial(c) && TruthfulRun(id, c, evs) && NoDepositGrows(evs) && FirstDispatched(id, After(id, c, evs))
    requires c.lock == Some(Lock(rate, price)) && rate > 0.0 && price > 0.0 && fiat >= 0.0
    requires asked == Asked(rate, price, c.terms.asset, fiat)
    ensures PaysItsShare(After(id, c, evs).amount, c.confirmedTotal, asked, asked * price * rate,
                         fiat - Rounding(rate, price))
  {
    RunIsSteady(id, c, evs);
    SharePays(id, After(id, c, evs), c.confirmedTotal, rate, price, c.terms.asset, fiat, asked);
  }

  /** The amount asked for is a whole number of the units its network can move. */
  lemma AskedIsSendable(rate: real, price: real, asset: string, fiat: real) returns (n: int)
    requires rate != 0.0 && price != 0.0
    ensures Asked(rate, price, asset, fiat)
            == if asset in {"USDT", "USDC"} then n as real * 0.000001 else n as real * 0.00000001
  {
    n := Quote.Away(Quote.FiatToCrypto(Quote.Lock(rate, price), fiat), Quote.Unit(asset));
  }
}
