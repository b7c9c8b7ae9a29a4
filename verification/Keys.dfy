/** How idempotency keys and client references are spelt: distinct ones never share a spelling. */
module Keys {
  import opened Ledger

  function Digit(d: nat): char
    requires d < 10
  {
    ['0', '1', '2', '3', '4', '5', '6', '7', '8', '9'][d]
  }

  function Decimal(n: nat): (s: string)
    ensures s != []
  {
    if n < 10 then [Digit(n)] else Decimal(n / 10) + [Digit(n % 10)]
  }

  lemma {:induction false} DecimalInjective(m: nat, n: nat)
    requires Decimal(m) == Decimal(n)
    ensures m == n
  {
    var s := Decimal(m);
    assert s[|s| - 1] == Digit(m % 10) == Digit(n % 10);
    if m >= 10 && n >= 10 {
      assert Decimal(m / 10) == s[..|s| - 1] == Decimal(n / 10);
      DecimalInjective(m / 10, n / 10);
    }
  }

  /** The reference sent to Hyparrow with an attempt. */
  function ClientReference(session: string, attempt: nat): string {
    "2S-" + session + "-" + Decimal(attempt)
  }

  /** No two attempts share a reference; session ids are UUIDs, all of one length. */
  lemma ClientReferenceIsOwn(session: string, m: nat, other: string, n: nat)
    requires |session| == |other| && ClientReference(session, m) == ClientReference(other, n)
    ensures session == other && m == n
  {
    var r := ClientReference(session, m);
    assert r[3..3 + |session|] == session && r[3..3 + |session|] == other;
    assert r[4 + |session|..] == Decimal(m) && r[4 + |session|..] == Decimal(n);
    DecimalInjective(m, n);
  }

  /** The keys the settlement pipeline spells from a session and an attempt. */
  predicate SpeltFromSession(key: Key) {
    key.DepositConfirmed? || key.FxConversion? || key.Payout? || key.ManualPayout? || key.AttemptReversal?
        || key.SettlementReversal?
  }

  function Prefix(key: Key): string
    requires SpeltFromSession(key)
  {
    match key
    case DepositConfirmed(_) => "deposit_confirmed:session_"
    case FxConversion(_) => "fx_conversion:session_"
    case Payout(_, _) => "settlement_payout:session_"
    case ManualPayout(_) => "settlement_payout:session_"
    case AttemptReversal(_, _) => "settlement_reversal:session_"
    case SettlementReversal(_) => "settlement_reversal:session_"
  }

  function Suffix(key: Key): string
    requires SpeltFromSession(key)
  {
    match key
    case Payout(_, n) => ":attempt_" + Decimal(n)
    case AttemptReversal(_, n) => ":attempt_" + Decimal(n)
    case ManualPayout(_) => ":manual"
    case DepositConfirmed(_) => ""
    case FxConversion(_) => ""
    case SettlementReversal(_) => ""
  }

  function Spell(key: Key): string
    requires SpeltFromSession(key)
  {
    Prefix(key) + key.session + Suffix(key)
  }

  lemma DecimalOf(tens: nat, ones: nat)
    requires 0 < tens < 10 && ones < 10
    ensures Decimal(ones) == [Digit(ones)] && Decimal(10 * tens + ones) == [Digit(tens), Digit(ones)]
  {
    assert Decimal((10 * tens + ones) / 10) == [Digit(tens)];
  }

  /** The spellings as the ledger and the provider see them. */
  lemma Spellings(session: string)
    ensures Spell(DepositConfirmed(session)) == "deposit_confirmed:session_" + session + ""
    ensures Spell(FxConversion(session)) == "fx_conversion:session_" + session + ""
    ensures Spell(Payout(session, 2)) == "settlement_payout:session_" + session + ":attempt_2"
    ensures Spell(ManualPayout(session)) == "settlement_payout:session_" + session + ":manual"
    ensures Spell(AttemptReversal(session, 13)) == "settlement_reversal:session_" + session + ":attempt_13"
    ensures Spell(SettlementReversal(session)) == "settlement_reversal:session_" + session + ""
    ensures ClientReference(session, 45) == "2S-" + session + "-" + "45"
  {
    DecimalOf(1, 3);
    DecimalOf(4, 5);
    DecimalOf(1, 2);
    assert Suffix(Payout(session, 2)) == ":attempt_2";
    assert Suffix(AttemptReversal(session, 13)) == ":attempt_13";
  }

  /** The first and the twelfth character of a prefix tell it from the others. */
  lemma PrefixByTwo(key: Key)
    requires SpeltFromSession(key)
    ensures |Prefix(key)| > 11
    ensures (Prefix(key)[0], Prefix(key)[11]) ==
            match key
            case DepositConfirmed(_) => ('d', 'f')
            case FxConversion(_) => ('f', 'o')
            case AttemptReversal(_, _) => ('s', 'r')
            case SettlementReversal(_) => ('s', 'r')
            case _ => ('s', 'p')
  {
  }

  lemma PrefixesDiffer(key: Key, other: Key)
    requires SpeltFromSession(key) && SpeltFromSession(other) && Spell(key) == Spell(other)
    ensures Prefix(key) == Prefix(other)
  {
    PrefixByTwo(key);
    PrefixByTwo(other);
    assert Spell(key)[0] == Prefix(key)[0] && Spell(other)[0] == Prefix(other)[0];
    assert Spell(key)[11] == Prefix(key)[11] && Spell(other)[11] == Prefix(other)[11];
  }

  lemma SuffixesDiffer(key: Key, other: Key)
    requires SpeltFromSession(key) && SpeltFromSession(other)
    requires Prefix(key) == Prefix(other) && Suffix(key) == Suffix(other) && key.session == other.session
    ensures key == other
  {
    assert Prefix(key)[0] == Prefix(other)[0] && Prefix(key)[11] == Prefix(other)[11];
    if (key.Payout? || key.AttemptReversal?) && (other.Payout? || other.AttemptReversal?) {
      assert Suffix(key)[9..] == Decimal(key.attempt) && Suffix(other)[9..] == Decimal(other.attempt);
      DecimalInjective(key.attempt, other.attempt);
    }
  }

  /**
   * The ledger's unique key column tells two keys apart exactly when the model does; session ids are UUIDs, all of one
   * length.
   */
  lemma SpellingIsInjective(key: Key, other: Key)
    requires SpeltFromSession(key) && SpeltFromSession(other) && |key.session| == |other.session|
    ensures Spell(key) == Spell(other) <==> key == other
  {
    if Spell(key) == Spell(other) {
      PrefixesDiffer(key, other);
      var p, s := |Prefix(key)|, |key.session|;
      assert Spell(key)[p..p + s] == key.session && Spell(other)[p..p + s] == other.session;
      assert Spell(key)[p + s..] == Suffix(key) && Spell(other)[p + s..] == Suffix(other);
      SuffixesDiffer(key, other);
    }
  }
}
