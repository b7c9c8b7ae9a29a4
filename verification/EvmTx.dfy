/** The EIP-1559 envelope (transaction type 0x02) and ERC-20 call data: what is signed determines what is paid. */
module EvmTx {
  import opened Common
  import opened Rlp

  /** The fields of one transaction; fees and value are big.Ints, with None for nil. */
  datatype Params = Params(chainId: nat, nonce: nat, maxPriorityFee: Option<int>, maxFee: Option<int>, gasLimit: nat,
                           to: Bytes, value: Option<int>, data: Bytes)

  /** The widths Go's types give the fields, and an encoding that a Go slice can hold. */
  predicate Typed(p: Params) {
    && p.chainId < UINT64_LIMIT && p.nonce < UINT64_LIMIT && p.gasLimit < UINT64_LIMIT && |p.to| == 20 && Fits(|p.data|)
    && Fits(|BigEndian(Magnitude(p.maxPriorityFee))|) && Fits(|BigEndian(Magnitude(p.maxFee))|)
    && Fits(|BigEndian(Magnitude(p.value))|)
  }

  /** The nine signed fields as byte strings; the access list is always empty. */
  function Fields(p: Params): (fields: seq<Bytes>)
    ensures |fields| == 9
  {
    [BigEndian(p.chainId), BigEndian(p.nonce), BigEndian(Magnitude(p.maxPriorityFee)), BigEndian(Magnitude(p.maxFee)),
     BigEndian(p.gasLimit), p.to, BigEndian(Magnitude(p.value)), p.data, []]
  }

  lemma UintFits(v: nat)
    requires v < UINT64_LIMIT
    ensures Fits(|BigEndian(v)|)
  {
    BigEndianLength(v, 8);
    Pow256Of8();
  }

  function EncodedFields(p: Params): (encoded: seq<Bytes>)
    requires Typed(p)
    ensures |encoded| == 9 && AllEncode(encoded, Fields(p))
  {
    UintFits(p.chainId);
    UintFits(p.nonce);
    UintFits(p.gasLimit);
    [EncodeUint(p.chainId), EncodeUint(p.nonce), EncodeBigInt(p.maxPriorityFee), EncodeBigInt(p.maxFee),
     EncodeUint(p.gasLimit), EncodeBytes(p.to), EncodeBigInt(p.value), EncodeBytes(p.data), EncodeList([])]
  }

  predicate Encodable(p: Params) {
    Typed(p) && Fits(|Concat(EncodedFields(p))|) && Fits(|EncodeList(EncodedFields(p))|)
  }

  /** What is hashed and signed, after the type byte. */
  function EncodeUnsigned(p: Params): Bytes
    requires Encodable(p)
  {
    EncodeList(EncodedFields(p))
  }

  lemma UnsignedReadsBack(p: Params)
    requires Encodable(p)
    ensures DecodeList(EncodeUnsigned(p)) == Items(Fields(p))
  {
    ListReadsBack(EncodedFields(p), Fields(p));
  }

  /** Equal up to nil for zero and to the sign that big.Int.Bytes drops. */
  predicate SamePayment(p: Params, q: Params) {
    && p.chainId == q.chainId && p.nonce == q.nonce && p.gasLimit == q.gasLimit && p.to == q.to && p.data == q.data
    && Magnitude(p.maxPriorityFee) == Magnitude(q.maxPriorityFee)
    && Magnitude(p.maxFee) == Magnitude(q.maxFee)
    && Magnitude(p.value) == Magnitude(q.value)
  }

  lemma BigEndianInjective(v: nat, w: nat)
    requires BigEndian(v) == BigEndian(w)
    ensures v == w
  {
    BigEndianReadsBack(v);
    BigEndianReadsBack(w);
  }

  lemma FieldsInjective(p: Params, q: Params)
    requires Fields(p) == Fields(q)
    ensures SamePayment(p, q)
  {
    var f, g := Fields(p), Fields(q);
    assert f[0] == g[0] && f[1] == g[1] && f[2] == g[2] && f[3] == g[3] && f[4] == g[4] && f[6] == g[6];
    assert f[5] == g[5] && f[7] == g[7];
    BigEndianInjective(p.chainId, q.chainId);
    BigEndianInjective(p.nonce, q.nonce);
    BigEndianInjective(Magnitude(p.maxPriorityFee), Magnitude(q.maxPriorityFee));
    BigEndianInjective(Magnitude(p.maxFee), Magnitude(q.maxFee));
    BigEndianInjective(p.gasLimit, q.gasLimit);
    BigEndianInjective(Magnitude(p.value), Magnitude(q.value));
  }

  /** Two transactions are signed over the same bytes exactly when they are the same payment. */
  lemma SignedOverDeterminesPayment(p: Params, q: Params)
    requires Encodable(p) && Encodable(q)
    ensures EncodeUnsigned(p) == EncodeUnsigned(q) <==> SamePayment(p, q)
  {
    if EncodeUnsigned(p) == EncodeUnsigned(q) {
      UnsignedReadsBack(p);
      UnsignedReadsBack(q);
      FieldsInjective(p, q);
    }
  }

  /** With fields that are not negative, nothing but nil and zero is identified. */
  lemma NonnegativeFieldsAreDetermined(p: Params, q: Params)
    requires Encodable(p) && Encodable(q) && EncodeUnsigned(p) == EncodeUnsigned(q)
    requires forall v: int | Some(v) in {p.maxPriorityFee, p.maxFee, p.value, q.maxPriorityFee, q.maxFee, q.value} ::
             v >= 0
    ensures NilIsZero(p) == NilIsZero(q)
  {
    SignedOverDeterminesPayment(p, q);
  }

  /** The sign of a fee or a value is lost on the way: a negative one is signed as its absolute value. */
  lemma SignIsLost(p: Params, v: int)
    requires Encodable(p) && p.value == Some(v) && v >= 0
    ensures Encodable(p.(value := Some(-v)))
    ensures EncodeUnsigned(p.(value := Some(-v))) == EncodeUnsigned(p)
  {
    assert EncodedFields(p.(value := Some(-v))) == EncodedFields(p);
  }

  function ZeroForNil(v: Option<int>): Option<int> {
    if v == None then Some(0) else v
  }

  function NilIsZero(p: Params): Params {
    p.(maxPriorityFee := ZeroForNil(p.maxPriorityFee), maxFee := ZeroForNil(p.maxFee), value := ZeroForNil(p.value))
  }

  // ----- the signed envelope -----

  const TX_TYPE: Byte := 0x02

  datatype Signed = Raw(rawTx: Bytes) | BadSignature

  /** The recovery byte less 27, in 64 bits without sign. */
  function Parity(sig: Bytes): nat
    requires |sig| == 65
  {
    (sig[0] - 27) % UINT64_LIMIT
  }

  function SignatureFields(sig: Bytes): (fields: seq<Bytes>)
    requires |sig| == 65
    ensures |fields| == 3
  {
    ScalarFields(Parity(sig), Value(sig[1..33]), Value(sig[33..65]))
  }

  function ScalarFields(parity: nat, r: nat, s: nat): (fields: seq<Bytes>)
    ensures |fields| == 3
  {
    [BigEndian(parity), BigEndian(r), BigEndian(s)]
  }

  function EncodedSignature(sig: Bytes): (encoded: seq<Bytes>)
    requires |sig| == 65
    ensures AllEncode(encoded, SignatureFields(sig))
  {
    ScalarFits(sig[1..33]);
    ScalarFits(sig[33..65]);
    UintFits(Parity(sig));
    [EncodeUint(Parity(sig)), EncodeBigInt(Some(Value(sig[1..33]))), EncodeBigInt(Some(Value(sig[33..65])))]
  }

  function SignedFields(p: Params, sig: Bytes): (fields: seq<Bytes>)
    requires |sig| == 65
  {
    Fields(p) + SignatureFields(sig)
  }

  lemma ScalarFits(b: Bytes)
    requires |b| == 32
    ensures |BigEndian(Value(b))| <= 32
  {
    ValueBound(b);
    BigEndianLength(Value(b), 32);
  }

  function EncodedSigned(p: Params, sig: Bytes): (encoded: seq<Bytes>)
    requires Typed(p) && |sig| == 65
    ensures AllEncode(encoded, SignedFields(p, sig))
  {
    var encoded, fields := EncodedSignature(sig), SignatureFields(sig);
    AppendEncodes(EncodedFields(p), Fields(p), encoded, fields);
    EncodedFields(p) + encoded
  }

  lemma AppendEncodes(encoded: seq<Bytes>, items: seq<Bytes>, more: seq<Bytes>, moreItems: seq<Bytes>)
    requires AllEncode(encoded, items) && AllEncode(more, moreItems)
    ensures AllEncode(encoded + more, items + moreItems)
  {
    forall i | 0 <= i < |items + moreItems| ensures Encodes((encoded + more)[i], (items + moreItems)[i]) {
      if i < |items| {
        assert Encodes(encoded[i], items[i]);
      } else {
        assert Encodes(more[i - |items|], moreItems[i - |items|]);
      }
    }
  }

  /** The raw transaction, from the signature that was made over the unsigned encoding. */
  function BuildSigned(p: Params, sig: Bytes): Signed
    requires Typed(p)
    requires |sig| == 65 ==> Fits(|Concat(EncodedSigned(p, sig))|)
  {
    if |sig| != 65 then BadSignature else Raw([TX_TYPE] + EncodeList(EncodedSigned(p, sig)))
  }

  /** A raw transaction holds the nine signed fields, unchanged, then parity, r and s. */
  lemma SignedEnvelopeReadsBack(p: Params, sig: Bytes)
    requires Encodable(p) && |sig| == 65
    requires Fits(|Concat(EncodedSigned(p, sig))|) && Fits(|EncodeList(EncodedSigned(p, sig))|)
    ensures var raw := BuildSigned(p, sig).rawTx;
            && raw[0] == TX_TYPE
            && DecodeList(raw[1..]) == Items(SignedFields(p, sig))
            && DecodeList(EncodeUnsigned(p)) == Items(SignedFields(p, sig)[..9])
  {
    var raw := BuildSigned(p, sig).rawTx;
    assert raw[1..] == EncodeList(EncodedSigned(p, sig));
    ListReadsBack(EncodedSigned(p, sig), SignedFields(p, sig));
    UnsignedReadsBack(p);
  }

  /** The twelve fields in the order of the standard, numbers by their value. */
  ghost predicate InOrder(f: seq<Bytes>, p: Params, parity: nat, r: nat, s: nat) {
    && |f| == 12
    && Value(f[0]) == p.chainId && Value(f[1]) == p.nonce
    && Value(f[2]) == Magnitude(p.maxPriorityFee) && Value(f[3]) == Magnitude(p.maxFee)
    && Value(f[4]) == p.gasLimit && f[5] == p.to && Value(f[6]) == Magnitude(p.value) && f[7] == p.data
    && f[8] == [] && Value(f[9]) == parity && Value(f[10]) == r && Value(f[11]) == s
  }

  /** All such field lists. */
  ghost function Orders(p: Params, parity: nat, r: nat, s: nat): iset<seq<Bytes>> {
    iset f: seq<Bytes> | InOrder(f, p, parity, r, s)
  }

  lemma FieldsInOrder(p: Params, parity: nat, r: nat, s: nat)
    ensures Fields(p) + ScalarFields(parity, r, s) in Orders(p, parity, r, s)
  {
    BigEndianReadsBack(p.chainId);
    BigEndianReadsBack(p.nonce);
    BigEndianReadsBack(Magnitude(p.maxPriorityFee));
    BigEndianReadsBack(Magnitude(p.maxFee));
    BigEndianReadsBack(p.gasLimit);
    BigEndianReadsBack(Magnitude(p.value));
    ScalarsReadBack(parity, r, s);
  }

  lemma ParityIs(sig: Bytes)
    requires |sig| == 65 && sig[0] >= 27
    ensures Parity(sig) == sig[0] - 27
  {
  }

  /** The raw transaction is the type byte 2 and a list that reads back as the fields in the order of the standard. */
  lemma EnvelopeInOrder(p: Params, sig: Bytes)
    requires Encodable(p) && |sig| == 65 && sig[0] >= 27
    requires Fits(|Concat(EncodedSigned(p, sig))|) && Fits(|EncodeList(EncodedSigned(p, sig))|)
    ensures var raw := BuildSigned(p, sig).rawTx;
            && raw[0] == 2 && DecodeList(raw[1..]).Items?
            && DecodeList(raw[1..]).items in Orders(p, sig[0] - 27, Value(sig[1..33]), Value(sig[33..65]))
  {
    SignedEnvelopeReadsBack(p, sig);
    ParityIs(sig);
    FieldsInOrder(p, Parity(sig), Value(sig[1..33]), Value(sig[33..65]));
  }

  /** Parity, r and s are read back as the numbers they were. */
  lemma ScalarsReadBack(parity: nat, r: nat, s: nat)
    ensures var fields := ScalarFields(parity, r, s);
            && Value(fields[0]) == parity && Value(fields[1]) == r && Value(fields[2]) == s
            && forall i | 0 <= i < 3 :: NoLeadingZero(fields[i])
  {
    BigEndianReadsBack(parity);
    BigEndianReadsBack(r);
    BigEndianReadsBack(s);
  }

  // ----- ERC-20 -----

  /** transfer(address,uint256) */
  const TRANSFER_SELECTOR: Bytes := [0xa9, 0x05, 0x9c, 0xbb]

  datatype CallData = CallData(data: Bytes) | TooWide

  function Zeros(n: nat): (b: Bytes)
    ensures |b| == n && forall i | 0 <= i < n :: b[i] == 0
  {
    if n == 0 then [] else [0] + Zeros(n - 1)
  }

  /** A number in 32 bytes, zeros first. */
  function Padded(v: nat): Bytes
    requires |BigEndian(v)| <= 32
  {
    Zeros(32 - |BigEndian(v)|) + BigEndian(v)
  }

  predicate IsErc20Data(data: Bytes, to: Bytes, amount: nat) {
    |BigEndian(amount)| <= 32 && data == TRANSFER_SELECTOR + Zeros(12) + to + Padded(amount)
  }

  /**
   * Selector, padded recipient, padded amount; an amount wider than 32 bytes makes a slice of negative length, and
   * panics.
   */
  method BuildErc20TransferData(to: Bytes, amount: int) returns (r: CallData)
    requires |to| == 20
    ensures r == TooWide <==> Magnitude(Some(amount)) >= Pow256(32)
    ensures r.CallData? ==> |r.data| == 68 && IsErc20Data(r.data, to, Magnitude(Some(amount)))
    ensures r.CallData? ==> r.data[..4] == [0xa9, 0x05, 0x9c, 0xbb]
  {
    BigEndianLength(Magnitude(Some(amount)), 32);
    var data := TRANSFER_SELECTOR;
    data := data + Zeros(12);
    data := data + to;
    var amountBytes := BigEndian(Magnitude(Some(amount)));
    if 32 - |amountBytes| < 0 {
      return TooWide;
    }
    ghost var head := data;
    data := data + Zeros(32 - |amountBytes|);
    data := data + amountBytes;
    assert data == head + Padded(Magnitude(Some(amount)));
    return CallData(data);
  }

  lemma {:induction false} PaddedReadsBack(v: nat, n: nat)
    ensures Value(Zeros(n) + BigEndian(v)) == v
    decreases v
  {
    if v == 0 {
      assert Zeros(n) + [] == Zeros(n);
      ZerosAreNothing(n);
    } else {
      PaddedReadsBack(v / 256, n);
      var whole := Zeros(n) + BigEndian(v);
      assert whole[..|whole| - 1] == Zeros(n) + BigEndian(v / 256);
    }
  }

  lemma {:induction false} ZerosAreNothing(n: nat)
    ensures Value(Zeros(n)) == 0
  {
    if n > 0 {
      ZerosAreNothing(n - 1);
      assert Zeros(n)[..n - 1] == Zeros(n - 1) by {
        forall i | 0 <= i < n - 1 ensures Zeros(n)[i] == Zeros(n - 1)[i] {}
      }
    }
  }

  /** The call data determines who is paid, and how much. */
  lemma Erc20DataDeterminesTransfer(data: Bytes, to: Bytes, amount: nat, other: Bytes, otherAmount: nat)
    requires |to| == 20 == |other| && IsErc20Data(data, to, amount) && IsErc20Data(data, other, otherAmount)
    ensures to == other && amount == otherAmount
  {
    assert data[16..36] == to && data[16..36] == other;
    assert data[36..] == Padded(amount) && data[36..] == Padded(otherAmount);
    PaddedReadsBack(amount, 32 - |BigEndian(amount)|);
    PaddedReadsBack(otherAmount, 32 - |BigEndian(otherAmount)|);
  }
}
