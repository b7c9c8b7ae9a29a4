/**
 * The deposit quote: a fiat amount divided by the locked rate and price with rounding, and rounded up to what can be
 * sent.
 */
module Quote {

  /** A rate lock: fiat per USD, after slippage, and USD per unit of crypto. */
  datatype Lock = Lock(rate: real, price: real)

  const SLIPPAGE_BUFFER: real := 0.01

  /** Division keeps sixteen decimal places. */
  const DIVISION_UNIT: real := 0.0000000000000001

  /** A number of units. */
  function Units(n: int, unit: real): real {
    n as real * unit
  }

  /** How many units make up x, to the nearest, halves away from zero. */
  function Nearest(x: real, unit: real): int
    requires unit > 0.0
  {
    if x >= 0.0 then (x / unit + 0.5).Floor else -((-x / unit + 0.5).Floor)
  }

  /** How many units make up x, rounded away from zero. */
  function Away(x: real, unit: real): int
    requires unit > 0.0
  {
    if x >= 0.0 then -((-(x / unit)).Floor) else (x / unit).Floor
  }

  /** Decimal division, rounded to the unit. */
  function Div(x: real, y: real, unit: real): real
    requires y != 0.0 && unit > 0.0
  {
    Units(Nearest(x / y, unit), unit)
  }

  function RoundUp(x: real, unit: real): real
    requires unit > 0.0
  {
    Units(Away(x, unit), unit)
  }

  function FiatToCrypto(lock: Lock, fiat: real): real
    requires lock.rate != 0.0 && lock.price != 0.0
  {
    Div(Div(fiat, lock.rate, DIVISION_UNIT), lock.price, DIVISION_UNIT)
  }

  function CryptoToFiat(lock: Lock, crypto: real): real {
    crypto * lock.price * lock.rate
  }

  /** Stablecoins move on networks with six places; the ledger keeps eight. */
  function Unit(asset: string): (unit: real)
    ensures unit > 0.0
  {
    if asset == "USDT" || asset == "USDC" then 0.000001 else 0.00000001
  }

  /** The amount a payer is asked to send. */
  function Requested(lock: Lock, asset: string, fiat: real): real
    requires lock.rate != 0.0 && lock.price != 0.0
  {
    RoundUp(FiatToCrypto(lock, fiat), Unit(asset))
  }

  // ----- rounding -----

  lemma Order(a: real, b: real, c: real)
    requires c > 0.0 && a <= b
    ensures a * c <= b * c
  {
  }

  lemma StrictOrder(a: real, b: real, c: real)
    requires c > 0.0 && a < b
    ensures a * c < b * c
  {
  }

  lemma Scale(x: real, unit: real)
    requires unit > 0.0
    ensures x / unit * unit == x
    ensures x >= 0.0 ==> x / unit >= 0.0
  {
  }

  /** A count that is half a unit off at most. */
  lemma NearCount(q: real, n: int, unit: real)
    requires unit > 0.0 && n as real <= q + 0.5 < n as real + 1.0
    ensures q * unit - unit / 2.0 <= Units(n, unit) <= q * unit + unit / 2.0
  {
    var r := n as real;
    var low, high := q - 0.5, q + 0.5;
    Order(low, r, unit);
    Order(r, high, unit);
    assert low * unit == q * unit - unit / 2.0 && high * unit == q * unit + unit / 2.0;
    assert Units(n, unit) == r * unit;
  }

  lemma NearestIsNear(x: real, unit: real)
    requires unit > 0.0 && x >= 0.0
    ensures x - unit / 2.0 <= Units(Nearest(x, unit), unit) <= x + unit / 2.0
    ensures Nearest(x, unit) >= 0
  {
    Scale(x, unit);
    NearCount(x / unit, Nearest(x, unit), unit);
  }

  function Mul(a: real, b: real): real {
    a * b
  }

  lemma Part(d: real, unit: real)
    requires unit > 0.0 && 0.0 <= d < 1.0
    ensures 0.0 <= Mul(d, unit) < unit
  {
  }

  lemma Difference(q: real, r: real, unit: real)
    ensures Mul(r - q, unit) == Mul(r, unit) - Mul(q, unit)
  {
  }

  /** A count that is less than one unit over. */
  lemma LessThanOneOver(x: real, q: real, r: real, unit: real)
    requires unit > 0.0 && q <= r < q + 1.0 && Mul(q, unit) == x
    ensures x <= Mul(r, unit) < x + unit
  {
    Difference(q, r, unit);
    Part(r - q, unit);
  }

  lemma AwayIsLeast(q: real, n: int, m: int, unit: real)
    requires unit > 0.0 && n as real < q + 1.0 && Units(m, unit) >= q * unit
    ensures n <= m
  {
    if m < n {
      StrictOrder(m as real, q, unit);
    }
  }

  lemma RoundUpIsClose(x: real, unit: real)
    requires unit > 0.0 && x >= 0.0
    ensures x <= RoundUp(x, unit) < x + unit
  {
    Scale(x, unit);
    LessThanOneOver(x, x / unit, Away(x, unit) as real, unit);
    assert RoundUp(x, unit) == Mul(Away(x, unit) as real, unit);
  }

  /** Rounding up gives the least number of units that is no smaller. */
  lemma RoundUpIsLeast(x: real, unit: real, m: int)
    requires unit > 0.0 && x >= 0.0
    ensures Units(m, unit) >= x <==> Away(x, unit) <= m
  {
    Scale(x, unit);
    if Units(m, unit) >= x {
      AwayIsLeast(x / unit, Away(x, unit), m, unit);
    } else if Away(x, unit) <= m {
      RoundUpIsClose(x, unit);
      Order(Away(x, unit) as real, m as real, unit);
    }
  }

  /** Halves go away from zero, and amounts below zero round like those above. */
  lemma HalvesGoAway(x: real, unit: real, n: nat)
    requires unit > 0.0
    ensures x == (n as real + 0.5) * unit ==> Nearest(x, unit) == n + 1
    ensures x != 0.0 ==> Nearest(-x, unit) == -Nearest(x, unit) && Away(-x, unit) == -Away(x, unit)
  {
    if x == (n as real + 0.5) * unit {
      Divided(x, n as real + 0.5, unit);
    }
    Negated(x, unit);
  }

  lemma Divided(x: real, q: real, unit: real)
    requires unit > 0.0 && x == q * unit
    ensures x / unit == q
  {
    Scale(x, unit);
    Difference(q, x / unit, unit);
    assert Mul(x / unit - q, unit) == 0.0;
  }

  lemma Negated(x: real, unit: real)
    requires unit > 0.0
    ensures (-x) / unit == -(x / unit)
  {
  }

  // ----- the bound -----

  /** A rounded quotient times its divisor is within half a unit of the divisor from the dividend. */
  lemma DivTimes(x: real, y: real, unit: real)
    requires x >= 0.0 && y > 0.0 && unit > 0.0
    ensures Div(x, y, unit) >= 0.0
    ensures x - unit / 2.0 * y <= Div(x, y, unit) * y <= x + unit / 2.0 * y
  {
    Scale(x, y);
    NearestIsNear(x / y, unit);
    TimesDivisor(x / y, Div(x, y, unit), y, unit / 2.0);
  }

  lemma TimesDivisor(q: real, r: real, y: real, h: real)
    requires y > 0.0 && q - h <= r <= q + h
    ensures q * y - h * y <= r * y <= q * y + h * y
  {
    Order(q - h, r, y);
    Order(r, q + h, y);
  }

  /** Two rounded divisions and a rounding up, taken back by two multiplications. */
  lemma TakenBack(fiat: real, usd: real, crypto: real, amount: real, rate: real, price: real, unit: real, h: real)
    requires rate > 0.0 && price > 0.0
    requires fiat - h * rate <= usd * rate <= fiat + h * rate
    requires usd - h * price <= crypto * price <= usd + h * price
    requires crypto <= amount < crypto + unit
    ensures amount * price * rate >= fiat - h * rate * (1.0 + price)
    ensures amount * price * rate < fiat + unit * price * rate + h * rate * (1.0 + price)
  {
    Order(crypto, amount, price);
    StrictOrder(amount, crypto + unit, price);
    Order(usd - h * price, amount * price, rate);
    StrictOrder(amount * price, usd + h * price + unit * price, rate);
  }

  lemma RequestedIs(lock: Lock, asset: string, fiat: real, usd: real, crypto: real)
    requires lock.rate > 0.0 && lock.price > 0.0
    requires usd == Div(fiat, lock.rate, DIVISION_UNIT) && crypto == Div(usd, lock.price, DIVISION_UNIT)
    ensures Requested(lock, asset, fiat) == RoundUp(crypto, Unit(asset))
  {
  }

  /** The steps of a quote, each within its bound. */
  lemma QuoteSteps(lock: Lock, asset: string, fiat: real) returns (usd: real, crypto: real, amount: real)
    requires fiat >= 0.0 && lock.rate > 0.0 && lock.price > 0.0
    ensures amount == Requested(lock, asset, fiat)
    ensures fiat - DIVISION_UNIT / 2.0 * lock.rate <= usd * lock.rate <= fiat + DIVISION_UNIT / 2.0 * lock.rate
    ensures usd - DIVISION_UNIT / 2.0 * lock.price <= crypto * lock.price <= usd + DIVISION_UNIT / 2.0 * lock.price
    ensures 0.0 <= crypto <= amount < crypto + Unit(asset)
  {
    usd := Div(fiat, lock.rate, DIVISION_UNIT);
    DivTimes(fiat, lock.rate, DIVISION_UNIT);
    crypto := Div(usd, lock.price, DIVISION_UNIT);
    DivTimes(usd, lock.price, DIVISION_UNIT);
    RoundUpIsClose(crypto, Unit(asset));
    RequestedIs(lock, asset, fiat, usd, crypto);
    amount := Requested(lock, asset, fiat);
  }

  /**
   * What the requested amount is worth at the same lock: no less than the fiat amount but for the rounding of two
   * divisions, and above it by less than one unit more.
   */
  lemma QuoteIsWorthTheFiat(lock: Lock, asset: string, fiat: real)
    requires fiat >= 0.0 && lock.rate > 0.0 && lock.price > 0.0
    ensures var worth := CryptoToFiat(lock, Requested(lock, asset, fiat));
            var h := DIVISION_UNIT / 2.0;
            && worth >= fiat - h * lock.rate * (1.0 + lock.price)
            && worth < fiat + Unit(asset) * lock.price * lock.rate + h * lock.rate * (1.0 + lock.price)
  {
    var usd, crypto, amount := QuoteSteps(lock, asset, fiat);
    TakenBack(fiat, usd, crypto, amount, lock.rate, lock.price, Unit(asset), DIVISION_UNIT / 2.0);
  }

  // ----- the lock -----

  function LockedRate(current: real): real {
    current - SLIPPAGE_BUFFER * current
  }

  /**
   * The buffer lowers a rate and keeps it positive exactly when it was positive, so that quotes at the lock can be
   * made.
   */
  lemma LockedRateIsLower(current: real)
    ensures current > 0.0 <==> 0.0 < LockedRate(current) < current
  {
  }

  lemma QuoteAmount(lock: Lock, asset: string, fiat: real)
    requires fiat >= 0.0 && lock.rate > 0.0 && lock.price > 0.0
    ensures Requested(lock, asset, fiat) >= 0.0
  {
    var usd, crypto, amount := QuoteSteps(lock, asset, fiat);
  }

  lemma MoreAtHigherRate(amount: real, price: real, rate: real, later: real)
    requires amount >= 0.0 && price > 0.0 && rate <= later
    ensures CryptoToFiat(Lock(rate, price), amount) <= CryptoToFiat(Lock(later, price), amount)
  {
    assert amount * price >= 0.0;
    OrderBy(rate, later, amount * price);
  }

  lemma OrderBy(a: real, b: real, f: real)
    requires a <= b && f >= 0.0
    ensures f * a <= f * b
  {
  }

  /** What is worth so much at the rate with the buffer is worth a ninety-ninth more without it. */
  lemma Unbuffered(amount: real, price: real, current: real)
    ensures CryptoToFiat(Lock(LockedRate(current), price), amount) * 100.0
            == CryptoToFiat(Lock(current, price), amount) * 99.0
  {
    var worth := amount * price;
    assert worth * LockedRate(current) == worth * current - SLIPPAGE_BUFFER * (worth * current);
  }

  /**
   * The buffer pays for a fall of the rate: as long as the market stays at or above the locked rate the requested
   * amount is worth the fiat asked, up to the rounding of two divisions; and at the market rate of the quote it is
   * worth a ninety-ninth of the fiat more than was asked, up to the same rounding.
   */
  lemma BufferIsMargin(current: real, price: real, asset: string, fiat: real, later: real)
    requires fiat >= 0.0 && current > 0.0 && price > 0.0 && later >= LockedRate(current)
    ensures var lock := Lock(LockedRate(current), price);
            var amount := Requested(lock, asset, fiat);
            var rounding := DIVISION_UNIT / 2.0 * lock.rate * (1.0 + price);
            && CryptoToFiat(Lock(later, price), amount) >= fiat - rounding
            && 99.0 * (CryptoToFiat(Lock(current, price), amount) - fiat) >= fiat - 100.0 * rounding
  {
    var lock := Lock(LockedRate(current), price);
    var amount := Requested(lock, asset, fiat);
    LockedRateIsLower(current);
    QuoteAmount(lock, asset, fiat);
    QuoteIsWorthTheFiat(lock, asset, fiat);
    MoreAtHigherRate(amount, price, lock.rate, later);
    Unbuffered(amount, price, current);
  }
}
