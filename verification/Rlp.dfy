/** The RLP encoder and decoder (Ethereum Yellow Paper, Appendix B), on byte sequences and with Go's 64-bit lengths. */
module Rlp {
  import opened Common

  type Byte = x: int | 0 <= x < 256
  type Bytes = seq<Byte>

  /** One more than the largest Go int; no Go slice is this long. */
  const INT_LIMIT: int := 0x8000_0000_0000_0000
  const UINT64_LIMIT: int := 0x1_0000_0000_0000_0000

  // ----- integers as bytes -----

  function BigEndian(v: nat): Bytes {
    if v == 0 then [] else BigEndian(v / 256) + [v % 256]
  }

  function Value(b: Bytes): nat {
    if b == [] then 0 else Value(b[..|b| - 1]) * 256 + b[|b| - 1]
  }

  function Pow256(k: nat): (p: nat)
    ensures p > 0
  {
    if k == 0 then 1 else 256 * Pow256(k - 1)
  }

  predicate NoLeadingZero(b: Bytes) {
    b == [] || b[0] != 0
  }

  /** The minimal big-endian form is read back as the number, and starts with a significant byte. */
  lemma {:induction false} BigEndianReadsBack(v: nat)
    ensures Value(BigEndian(v)) == v && NoLeadingZero(BigEndian(v))
    ensures v > 0 ==> BigEndian(v) != []
  {
    if v > 0 {
      BigEndianReadsBack(v / 256);
      assert BigEndian(v)[..|BigEndian(v)| - 1] == BigEndian(v / 256);
    }
  }

  /** It is the only form without a leading zero. */
  lemma {:induction false} MinimalIsUnique(b: Bytes)
    requires NoLeadingZero(b)
    ensures BigEndian(Value(b)) == b
    ensures b != [] ==> Value(b) > 0
  {
    if b != [] {
      MinimalIsUnique(b[..|b| - 1]);
    }
  }

  lemma {:induction false} BigEndianLength(v: nat, k: nat)
    ensures |BigEndian(v)| <= k <==> v < Pow256(k)
  {
    if v > 0 && k > 0 {
      BigEndianLength(v / 256, k - 1);
    }
  }

  lemma {:induction false} ValueBound(b: Bytes)
    ensures Value(b) < Pow256(|b|)
  {
    if b != [] {
      ValueBound(b[..|b| - 1]);
    }
  }

  lemma Pow256Of8()
    ensures Pow256(8) == UINT64_LIMIT
  {
    assert Pow256(4) == 0x1_0000_0000;
  }

  /** bigEndianMinimal: peels off the lowest byte until nothing is left. */
  method BigEndianMinimal(n: nat) returns (buf: Bytes)
    requires n < UINT64_LIMIT
    ensures buf == BigEndian(n)
    ensures Value(buf) == n && NoLeadingZero(buf) && |buf| <= 8
  {
    buf := [];
    var v := n;
    while v > 0
      invariant 0 <= v
      invariant BigEndian(v) + buf == BigEndian(n)
    {
      assert BigEndian(v) + buf == BigEndian(v / 256) + ([v % 256] + buf);
      buf := [v % 256] + buf;
      v := v / 256;
    }
    BigEndianReadsBack(n);
    BigEndianLength(n, 8);
    Pow256Of8();
  }

  // ----- encoding -----

  const STRING_OFFSET: Byte := 0x80
  const LIST_OFFSET: Byte := 0xc0

  /** A Go length. */
  predicate Fits(n: int) {
    0 <= n < INT_LIMIT
  }

  lemma LengthOfLength(l: nat)
    requires Fits(l)
    ensures |BigEndian(l)| <= 8
    ensures l >= 56 ==> |BigEndian(l)| >= 1
  {
    BigEndianLength(l, 8);
    Pow256Of8();
    BigEndianLength(l, 0);
  }

  function EncodeLength(l: nat, offset: Byte): Bytes
    requires Fits(l) && offset <= LIST_OFFSET
  {
    if l < 56 then [offset + l]
    else
      LengthOfLength(l);
      [offset + 55 + |BigEndian(l)|] + BigEndian(l)
  }

  function EncodeBytes(b: Bytes): (e: Bytes)
    requires Fits(|b|)
    ensures |e| > |b| || (|b| == 1 && e == b)
  {
    if |b| == 1 && b[0] < 0x80 then b else EncodeLength(|b|, STRING_OFFSET) + b
  }

  function EncodeUint(v: nat): Bytes
    requires v < UINT64_LIMIT
  {
    BigEndianLength(v, 8);
    Pow256Of8();
    EncodeBytes(BigEndian(v))
  }

  /** A big.Int by its magnitude; nil is zero. */
  function Magnitude(v: Option<int>): nat {
    match v
    case None => 0
    case Some(n) => if n < 0 then -n else n
  }

  function EncodeBigInt(v: Option<int>): Bytes
    requires Fits(|BigEndian(Magnitude(v))|)
  {
    EncodeBytes(BigEndian(Magnitude(v)))
  }

  function Concat(items: seq<Bytes>): Bytes {
    if items == [] then [] else Concat(items[..|items| - 1]) + items[|items| - 1]
  }

  /** The items are encoded already. */
  function EncodeList(items: seq<Bytes>): Bytes
    requires Fits(|Concat(items)|)
  {
    EncodeLength(|Concat(items)|, LIST_OFFSET) + Concat(items)
  }

  method EncodeListOf(items: seq<Bytes>) returns (encoded: Bytes)
    requires Fits(|Concat(items)|)
    ensures encoded == EncodeList(items)
  {
    var payload: Bytes := [];
    for i := 0 to |items|
      invariant payload == Concat(items[..i])
    {
      assert items[..i + 1][..i] == items[..i];
      payload := payload + items[i];
    }
    assert items[..|items|] == items;
    encoded := EncodeLength(|payload|, LIST_OFFSET) + payload;
  }

  /** The strings of the standard: a byte by itself, a short string, a long one. */
  lemma StringsByForm(b: Bytes)
    requires Fits(|b|)
    ensures |BigEndian(|b|)| <= 8
    ensures EncodeBytes(b) == if |b| == 1 && b[0] <= 0x7f then b
                              else if |b| <= 55 then [0x80 + |b|] + b
                              else [0xb7 + |BigEndian(|b|)|] + BigEndian(|b|) + b
  {
    LengthOfLength(|b|);
  }

  /** And its lists, short and long. */
  lemma ListsByForm(items: seq<Bytes>)
    requires Fits(|Concat(items)|)
    ensures |BigEndian(|Concat(items)|)| <= 8
    ensures EncodeList(items) == if |Concat(items)| <= 55 then [0xc0 + |Concat(items)|] + Concat(items)
                                 else [0xf7 + |BigEndian(|Concat(items)|)|] + BigEndian(|Concat(items)|) + Concat(items)
  {
    LengthOfLength(|Concat(items)|);
  }

  /** Zero is the empty string, and an empty list is one byte. */
  lemma SmallestForms()
    ensures EncodeBytes([]) == [0x80] && EncodeUint(0) == [0x80] && EncodeList([]) == [0xc0]
    ensures EncodeUint(1024) == [0x82, 0x04, 0x00]
  {
    assert BigEndian(4) == [4] && BigEndian(1024) == [4, 0];
  }

  // ----- decoding -----

  datatype Error = Empty | NotAList | LengthMismatch | Truncated | NestedList

  /** A slice whose bounds are out of order stops the program. */
  datatype One = Item(item: Bytes, rest: Bytes) | BadItem(error: Error) | ItemPanic

  datatype All = Items(items: seq<Bytes>) | BadList(error: Error) | ListPanic

  /** What a mathematical value becomes in a 64-bit int. */
  function Wrap(v: int): int {
    (v + INT_LIMIT) % UINT64_LIMIT - INT_LIMIT
  }

  /** A big-endian length as the decoder accumulates it, shifting and wrapping. */
  function Accumulated(b: Bytes): int {
    if b == [] then 0 else Wrap(Accumulated(b[..|b| - 1]) * 256 + b[|b| - 1])
  }

  /** With at most eight bytes nothing but the sign can be lost. */
  lemma {:induction false} AccumulatedIsWrapped(b: Bytes)
    requires |b| <= 8
    ensures Accumulated(b) == Wrap(Value(b)) && 0 <= Value(b) < UINT64_LIMIT
    ensures |b| <= 7 ==> Accumulated(b) == Value(b) && Value(b) < UINT64_LIMIT / 256
    decreases |b|
  {
    if b != [] {
      AccumulatedIsWrapped(b[..|b| - 1]);
    }
    ValueBound(b);
    Pow256Of8();
    SmallPowers();
    if |b| <= 7 {
      Pow256Monotone(|b|, 7);
    }
  }

  lemma SmallPowers()
    ensures Pow256(7) == UINT64_LIMIT / 256
  {
    Pow256Of8();
  }

  lemma {:induction false} Pow256Monotone(j: nat, k: nat)
    requires j <= k
    ensures Pow256(j) <= Pow256(k)
  {
    if j < k {
      Pow256Monotone(j, k - 1);
    }
  }

  /** One byte-string item; an empty list counts as an empty string, any other list is refused. */
  function DecodeOne(data: Bytes): (r: One)
    ensures r.Item? ==> |r.rest| < |data| && r.rest == data[|data| - |r.rest|..]
  {
    if data == [] then BadItem(Empty)
    else
      var prefix := data[0];
      if prefix < 0x80 then Item(data[..1], data[1..])
      else if prefix == 0xc0 then Item([], data[1..])
      else if prefix <= 0xb7 then
        var length := prefix - 0x80;
        if |data| < 1 + length then BadItem(Truncated) else Item(data[1..1 + length], data[1 + length..])
      else if prefix <= 0xbf then
        var start := 1 + (prefix - 0xb7);
        if |data| < start then BadItem(Truncated)
        else
          var end := Wrap(start + Accumulated(data[1..start]));
          if |data| < end then BadItem(Truncated)
          else if end < start then ItemPanic
          else Item(data[start..end], data[end..])
      else BadItem(NestedList)
  }

  function DecodeItems(payload: Bytes): All
    decreases |payload|
  {
    if payload == [] then Items([])
    else
      match DecodeOne(payload)
      case BadItem(e) => BadList(e)
      case ItemPanic => ListPanic
      case Item(item, rest) =>
        match DecodeItems(rest)
        case Items(items) => Items([item] + items)
        case BadList(e) => BadList(e)
        case ListPanic => ListPanic
  }

  function DecodeList(data: Bytes): All {
    if data == [] then BadList(Empty)
    else
      var prefix := data[0];
      if prefix < 0xc0 then BadList(NotAList)
      else if prefix <= 0xf7 then
        if |data| - 1 != prefix - 0xc0 then BadList(LengthMismatch) else DecodeItems(data[1..])
      else
        var start := 1 + (prefix - 0xf7);
        if |data| < start then BadList(Truncated)
        else if |data| - start != Accumulated(data[1..start]) then BadList(LengthMismatch)
        else DecodeItems(data[start..])
  }

  /** length = length<<8 | b, byte by byte. */
  method AccumulateLength(b: Bytes) returns (length: int)
    ensures length == Accumulated(b)
  {
    length := 0;
    for i := 0 to |b|
      invariant length == Accumulated(b[..i])
    {
      assert b[..i + 1][..i] == b[..i];
      length := Wrap(length * 256 + b[i]);
    }
    assert b[..|b|] == b;
  }

  method DecodeOneString(data: Bytes) returns (r: One)
    ensures r == DecodeOne(data)
  {
    if |data| == 0 {
      return BadItem(Empty);
    }
    var prefix := data[0];
    if prefix < 0x80 {
      return Item(data[..1], data[1..]);
    } else if prefix == 0xc0 {
      return Item([], data[1..]);
    } else if prefix <= 0xb7 {
      var length := prefix - 0x80;
      if |data| < 1 + length {
        return BadItem(Truncated);
      }
      return Item(data[1..1 + length], data[1 + length..]);
    } else if prefix <= 0xbf {
      var lenOfLen := prefix - 0xb7;
      if |data| < 1 + lenOfLen {
        return BadItem(Truncated);
      }
      var length := AccumulateLength(data[1..1 + lenOfLen]);
      var start := 1 + lenOfLen;
      if |data| < Wrap(start + length) {
        return BadItem(Truncated);
      }
      if Wrap(start + length) < start {
        return ItemPanic;
      }
      return Item(data[start..Wrap(start + length)], data[Wrap(start + length)..]);
    } else {
      return BadItem(NestedList);
    }
  }

  function Prepend(items: seq<Bytes>, all: All): All {
    match all
    case Items(more) => Items(items + more)
    case BadList(e) => BadList(e)
    case ListPanic => ListPanic
  }

  lemma PrependItem(items: seq<Bytes>, payload: Bytes, item: Bytes, rest: Bytes)
    requires payload != [] && DecodeOne(payload) == Item(item, rest)
    ensures Prepend(items, DecodeItems(payload)) == Prepend(items + [item], DecodeItems(rest))
  {
    var more := DecodeItems(rest);
    if more.Items? {
      assert items + ([item] + more.items) == items + [item] + more.items;
    }
  }

  lemma PrependNothing(all: All)
    ensures Prepend([], all) == all
  {
    if all.Items? {
      assert [] + all.items == all.items;
    }
  }

  /** Items one after the other until nothing is left. */
  method DecodePayload(whole: Bytes) returns (r: All)
    ensures r == DecodeItems(whole)
  {
    var items: seq<Bytes>, payload := [], whole;
    PrependNothing(DecodeItems(whole));
    while |payload| > 0
      invariant Prepend(items, DecodeItems(payload)) == DecodeItems(whole)
      decreases |payload|
    {
      var one := DecodeOneString(payload);
      match one
      case BadItem(e) => return BadList(e);
      case ItemPanic => return ListPanic;
      case Item(item, rest) =>
        PrependItem(items, payload, item, rest);
        items := items + [item];
        payload := rest;
    }
    assert items + [] == items;
    return Items(items);
  }

  method DecodeTopLevelList(data: Bytes) returns (r: All)
    ensures r == DecodeList(data)
  {
    if |data| == 0 {
      return BadList(Empty);
    }
    var prefix := data[0];
    if prefix < 0xc0 {
      return BadList(NotAList);
    }
    var payload: Bytes;
    if prefix <= 0xf7 {
      payload := data[1..];
      if |payload| != prefix - 0xc0 {
        return BadList(LengthMismatch);
      }
    } else {
      var lenOfLen := prefix - 0xf7;
      if |data| < 1 + lenOfLen {
        return BadList(Truncated);
      }
      var length := AccumulateLength(data[1..1 + lenOfLen]);
      payload := data[1 + lenOfLen..];
      if |payload| != length {
        return BadList(LengthMismatch);
      }
    }
    r := DecodePayload(payload);
  }

  // ----- round trips -----

  lemma WrapInRange(v: int)
    ensures -INT_LIMIT <= Wrap(v) < INT_LIMIT
    ensures -INT_LIMIT <= v < INT_LIMIT ==> Wrap(v) == v
    ensures INT_LIMIT <= v < UINT64_LIMIT ==> Wrap(v) == v - UINT64_LIMIT
  {
  }

  /** A minimal length reads back as the length it stands for. */
  lemma LengthReadsBack(l: nat)
    requires Fits(l)
    ensures Accumulated(BigEndian(l)) == l
  {
    LengthOfLength(l);
    AccumulatedIsWrapped(BigEndian(l));
    BigEndianReadsBack(l);
    WrapInRange(l);
  }

  lemma Parts(head: Bytes, length: Bytes, b: Bytes, rest: Bytes)
    requires |head| == 1
    ensures var data := head + length + b + rest;
            var start := 1 + |length|;
            && data[0] == head[0] && data[1..start] == length
            && data[start..start + |b|] == b && data[start + |b|..] == rest && |data| == start + |b| + |rest|
  {
  }

  /** A long header with a length that fits is taken off, and the item after it cut out. */
  lemma LongHeaderParses(length: Bytes, b: Bytes, rest: Bytes)
    requires 1 <= |length| <= 8 && Accumulated(length) == |b| && Fits(1 + |length| + |b|)
    ensures DecodeOne([0xb7 + |length|] + length + b + rest) == Item(b, rest)
  {
    Parts([0xb7 + |length|], length, b, rest);
    WrapInRange(1 + |length| + |b|);
  }

  lemma LongFormIs(b: Bytes)
    requires |b| >= 56 && Fits(|b|)
    ensures 1 <= |BigEndian(|b|)| <= 8
    ensures EncodeBytes(b) == [0xb7 + |BigEndian(|b|)|] + BigEndian(|b|) + b
  {
    LengthOfLength(|b|);
  }

  /** The long form of an item, whatever follows it. */
  lemma LongItemReadsBack(b: Bytes, rest: Bytes)
    requires |b| >= 56 && Fits(|b|) && Fits(|EncodeBytes(b)|)
    ensures DecodeOne(EncodeBytes(b) + rest) == Item(b, rest)
  {
    LongFormIs(b);
    LengthReadsBack(|b|);
    LongHeaderParses(BigEndian(|b|), b, rest);
  }

  /** Decoding one encoded item followed by anything gives exactly that item and what followed. */
  lemma ItemReadsBack(b: Bytes, rest: Bytes)
    requires Fits(|b|) && Fits(|EncodeBytes(b)|)
    ensures DecodeOne(EncodeBytes(b) + rest) == Item(b, rest)
  {
    var data := EncodeBytes(b) + rest;
    if |b| == 1 && b[0] < 0x80 {
      assert data[..1] == b && data[1..] == rest;
    } else if |b| < 56 {
      assert data == [0x80 + |b|] + b + rest;
      assert data[1..1 + |b|] == b && data[1 + |b|..] == rest;
    } else {
      LongItemReadsBack(b, rest);
    }
  }

  /** How an item may be encoded: as a byte string, or the empty one as an empty list. */
  predicate Encodes(encoded: Bytes, item: Bytes) {
    || (Fits(|item|) && encoded == EncodeBytes(item))
    || (encoded == [LIST_OFFSET] && item == [])
  }

  predicate AllEncode(encoded: seq<Bytes>, items: seq<Bytes>) {
    |encoded| == |items| && forall i | 0 <= i < |items| :: Encodes(encoded[i], items[i])
  }

  lemma ConcatLast(front: seq<Bytes>, item: Bytes)
    ensures Concat(front + [item]) == Concat(front) + item
  {
    assert (front + [item])[..|front|] == front;
  }

  lemma {:induction false} ConcatFirst(item: Bytes, items: seq<Bytes>)
    ensures Concat([item] + items) == item + Concat(items)
    decreases |items|
  {
    if items == [] {
      assert [item] + items == [] + [item];
      ConcatLast([], item);
    } else {
      var front, last := items[..|items| - 1], items[|items| - 1];
      ConcatFirst(item, front);
      assert [item] + items == ([item] + front) + [last];
      ConcatLast([item] + front, last);
    }
  }

  lemma ConcatFront(items: seq<Bytes>)
    requires items != []
    ensures Concat(items) == items[0] + Concat(items[1..])
  {
    assert items == [items[0]] + items[1..];
    ConcatFirst(items[0], items[1..]);
  }

  lemma EncodedReadsBack(encoded: Bytes, item: Bytes, rest: Bytes)
    requires Encodes(encoded, item) && Fits(|encoded|)
    ensures DecodeOne(encoded + rest) == Item(item, rest) && encoded != []
  {
    if Fits(|item|) && encoded == EncodeBytes(item) {
      ItemReadsBack(item, rest);
    } else {
      assert (encoded + rest)[1..] == rest;
    }
  }

  lemma DecodeItemsUnfolds(payload: Bytes, item: Bytes, rest: Bytes, items: seq<Bytes>)
    requires payload != [] && DecodeOne(payload) == Item(item, rest) && DecodeItems(rest) == Items(items)
    ensures DecodeItems(payload) == Items([item] + items)
  {
  }

  lemma FrontAndTail(encoded: seq<Bytes>, items: seq<Bytes>)
    requires AllEncode(encoded, items) && items != [] && Fits(|Concat(encoded)|)
    ensures encoded != [] && Encodes(encoded[0], items[0]) && AllEncode(encoded[1..], items[1..])
    ensures Concat(encoded) == encoded[0] + Concat(encoded[1..])
    ensures Fits(|encoded[0]|) && Fits(|Concat(encoded[1..])|)
  {
    ConcatFront(encoded);
  }

  lemma {:induction false} ItemsReadBack(encoded: seq<Bytes>, items: seq<Bytes>)
    requires AllEncode(encoded, items) && Fits(|Concat(encoded)|)
    ensures DecodeItems(Concat(encoded)) == Items(items)
    decreases |items|
  {
    if items != [] {
      var rest := Concat(encoded[1..]);
      FrontAndTail(encoded, items);
      EncodedReadsBack(encoded[0], items[0], rest);
      ItemsReadBack(encoded[1..], items[1..]);
      DecodeItemsUnfolds(Concat(encoded), items[0], rest, items[1..]);
      assert [items[0]] + items[1..] == items;
    }
  }

  /** A whole encoded list reads back as its items. */
  lemma ListReadsBack(encoded: seq<Bytes>, items: seq<Bytes>)
    requires AllEncode(encoded, items) && Fits(|Concat(encoded)|) && Fits(|EncodeList(encoded)|)
    ensures DecodeList(EncodeList(encoded)) == Items(items)
  {
    var payload := Concat(encoded);
    var data := EncodeList(encoded);
    ItemsReadBack(encoded, items);
    if |payload| < 56 {
      assert data[1..] == payload;
    } else {
      var length := BigEndian(|payload|);
      LengthOfLength(|payload|);
      LengthReadsBack(|payload|);
      assert data == [0xf7 + |length|] + length + payload;
      assert data[1..1 + |length|] == length;
      assert data[1 + |length|..] == payload;
    }
  }

  function EncodeEach(items: seq<Bytes>): (encoded: seq<Bytes>)
    requires forall i | 0 <= i < |items| :: Fits(|items[i]|)
    ensures |encoded| == |items| && AllEncode(encoded, items)
  {
    seq(|items|, i requires 0 <= i < |items| => EncodeBytes(items[i]))
  }

  /** Decoding inverts encoding on every list of byte strings that Go can hold, and so encoding loses nothing. */
  lemma RoundTrip(items: seq<Bytes>)
    requires forall i | 0 <= i < |items| :: Fits(|items[i]|)
    requires Fits(|Concat(EncodeEach(items))|) && Fits(|EncodeList(EncodeEach(items))|)
    ensures DecodeList(EncodeList(EncodeEach(items))) == Items(items)
  {
    ListReadsBack(EncodeEach(items), items);
  }

  // ----- every input -----

  /** A long-string header whose end does not fit a 64-bit int. */
  predicate Overlong(data: Bytes) {
    && data != [] && 0xb8 <= data[0] <= 0xbf
    && |data| >= 1 + (data[0] - 0xb7)
    && 1 + (data[0] - 0xb7) + Value(data[1..1 + (data[0] - 0xb7)]) >= INT_LIMIT
  }

  /** The item decoder stops the program exactly on such headers; on every other input it answers. */
  lemma PanicsIffOverlong(data: Bytes)
    requires Fits(|data|)
    ensures DecodeOne(data).ItemPanic? <==> Overlong(data)
  {
    if data != [] && 0xb8 <= data[0] <= 0xbf && |data| >= 1 + (data[0] - 0xb7) {
      var start := 1 + (data[0] - 0xb7);
      var length := data[1..start];
      AccumulatedIsWrapped(length);
      WrapInRange(Value(length));
      WrapInRange(start + Wrap(Value(length)));
    }
  }

  /** An item of a length that stands behind its prefix, cut off the front, unless the input ends before it. */
  function CutOff(data: Bytes, start: nat, length: nat): One {
    if |data| < start + length then BadItem(Truncated)
    else Item(data[start..start + length], data[start + length..])
  }

  /**
   * What the item decoder answers on every input, with the length a number of any size: wrapping decides nothing but
   * where it runs out of range.
   */
  lemma ItemAnswers(data: Bytes)
    requires Fits(|data|)
    ensures DecodeOne(data) ==
            if data == [] then BadItem(Empty)
            else if data[0] <= 0x7f then CutOff(data, 0, 1)
            else if data[0] <= 0xb7 then CutOff(data, 1, data[0] - 0x80)
            else if data[0] <= 0xbf then
              var start := 1 + (data[0] - 0xb7);
              if |data| < start then BadItem(Truncated)
              else if start + Value(data[1..start]) >= INT_LIMIT then ItemPanic
              else CutOff(data, start, Value(data[1..start]))
            else if data[0] == 0xc0 then CutOff(data, 1, 0)
            else BadItem(NestedList)
  {
    if data != [] && 0xb8 <= data[0] <= 0xbf && |data| >= 1 + (data[0] - 0xb7) {
      LongItemAnswers(data, 1 + (data[0] - 0xb7));
    }
  }

  lemma LongItemAnswers(data: Bytes, start: nat)
    requires Fits(|data|) && data != [] && 0xb8 <= data[0] <= 0xbf && start == 1 + (data[0] - 0xb7) <= |data|
    ensures DecodeOne(data) == if start + Value(data[1..start]) >= INT_LIMIT then ItemPanic
                               else CutOff(data, start, Value(data[1..start]))
  {
    var length := data[1..start];
    AccumulatedIsWrapped(length);
    WrapInRange(Value(length));
    WrapInRange(start + Wrap(Value(length)));
  }

  /** What the list decoder makes of a header; behind a right one the items decide. */
  lemma ListAnswers(data: Bytes)
    requires Fits(|data|)
    ensures DecodeList(data) ==
            if data == [] then BadList(Empty)
            else if data[0] <= 0xbf then BadList(NotAList)
            else if data[0] <= 0xf7 then
              if |data| != 1 + (data[0] - 0xc0) then BadList(LengthMismatch) else DecodeItems(data[1..])
            else
              var start := 1 + (data[0] - 0xf7);
              if |data| < start then BadList(Truncated)
              else if |data| != start + Value(data[1..start]) then BadList(LengthMismatch)
              else DecodeItems(data[start..])
  {
    if data != [] && data[0] >= 0xf8 && |data| >= 1 + (data[0] - 0xf7) {
      var length := data[1..1 + (data[0] - 0xf7)];
      AccumulatedIsWrapped(length);
      WrapInRange(Value(length));
    }
  }

  /** Whatever is accepted lies in the input in one piece, just before the rest. */
  lemma ItemIsAPiece(data: Bytes)
    requires DecodeOne(data).Item?
    ensures var (item, rest) := (DecodeOne(data).item, DecodeOne(data).rest);
            exists k | 0 <= k <= |data| :: data == data[..k] + item + rest
  {
    var item, rest := DecodeOne(data).item, DecodeOne(data).rest;
    var k := |data| - |rest| - |item|;
    assert 0 <= k <= |data| && data == data[..k] + item + rest;
  }

  /** An item is read without a look at what follows it. */
  lemma ItemIsLocal(data: Bytes, other: Bytes)
    requires DecodeOne(data).Item?
    ensures var (item, rest) := (DecodeOne(data).item, DecodeOne(data).rest);
            DecodeOne(data[..|data| - |rest|] + other) == Item(item, other)
  {
    var rest := DecodeOne(data).rest;
    var whole, used := data[..|data| - |rest|] + other, |data| - |rest|;
    assert forall k | 0 <= k < used :: whole[k] == data[k];
    assert whole[used..] == other;
    if 0xb8 <= data[0] <= 0xbf {
      var start := 1 + (data[0] - 0xb7);
      assert whole[1..start] == data[1..start] && whole[start..used] == data[start..used];
    } else {
      assert forall i | 0 <= i <= used :: whole[i..used] == data[i..used];
    }
  }

  /** Nothing but items. */
  ghost function Readable(): iset<Bytes> {
    iset b: Bytes | DecodeItems(b).Items?
  }

  /** The first k bytes are items, and an overlong header follows them. */
  ghost predicate StopsAt(payload: Bytes, k: nat) {
    k <= |payload| && payload[..k] in Readable() && Overlong(payload[k..])
  }

  lemma SplitsAt(payload: Bytes, used: nat, k: nat)
    requires used + k <= |payload|
    ensures payload[..k + used] == payload[..used] + payload[used..][..k]
    ensures payload[k + used..] == payload[used..][k..]
  {
  }

  lemma NothingIsReadable()
    ensures [] in Readable()
  {
  }

  /** A first item in front of more items, and back. */
  lemma ReadableSplits(payload: Bytes)
    requires payload != []
    ensures payload in Readable() <==> DecodeOne(payload).Item? && DecodeOne(payload).rest in Readable()
  {
  }

  /** A first item moves the place along. */
  lemma StopsAfterItem(payload: Bytes, k: nat)
    requires payload != [] && DecodeOne(payload).Item? && StopsAt(DecodeOne(payload).rest, k)
    ensures StopsAt(payload, k + |payload| - |DecodeOne(payload).rest|)
  {
    var rest := DecodeOne(payload).rest;
    var used := |payload| - |rest|;
    ItemIsLocal(payload, rest[..k]);
    SplitsAt(payload, used, k);
    ReadableSplits(payload[..k + used]);
  }

  lemma Rejoins(payload: Bytes, used: nat, k: nat)
    requires used <= k <= |payload|
    ensures payload[..k][..used] + (payload[..k][used..] + payload[k..]) == payload
    ensures (payload[..k][used..] + payload[k..])[..k - used] == payload[..k][used..]
    ensures (payload[..k][used..] + payload[k..])[k - used..] == payload[k..]
  {
  }

  /** The first item of what stops later, whatever comes behind the place where it stops. */
  lemma FirstOfStopping(payload: Bytes, k: nat, used: nat, rest: Bytes)
    requires 0 < k <= |payload| && payload[..k] in Readable()
    requires DecodeOne(payload[..k]).Item? && used == k - |DecodeOne(payload[..k]).rest|
    requires rest == DecodeOne(payload[..k]).rest + payload[k..]
    ensures DecodeOne(payload) == Item(DecodeOne(payload[..k]).item, rest)
  {
    ItemIsLocal(payload[..k], rest);
    Rejoins(payload, used, k);
  }

  lemma StopsWithinRest(payload: Bytes, k: nat)
    requires 0 < k && StopsAt(payload, k)
    ensures DecodeOne(payload).Item?
    ensures var rest := DecodeOne(payload).rest; |payload| - |rest| <= k && StopsAt(rest, k - (|payload| - |rest|))
  {
    var front := payload[..k];
    ReadableSplits(front);
    var more := DecodeOne(front).rest;
    var used := k - |more|;
    FirstOfStopping(payload, k, used, more + payload[k..]);
    Rejoins(payload, used, k);
  }

  /** Reading the items stops the program exactly when an overlong header stands where an item should start. */
  lemma {:induction false} ItemsPanicIff(payload: Bytes)
    requires Fits(|payload|)
    ensures DecodeItems(payload).ListPanic? <==> exists k :: StopsAt(payload, k)
    decreases |payload|
  {
    PanicsIffOverlong(payload);
    NothingIsReadable();
    if payload != [] && DecodeOne(payload).Item? {
      var rest := DecodeOne(payload).rest;
      ItemsPanicIff(rest);
      if k :| StopsAt(rest, k) {
        StopsAfterItem(payload, k);
      }
    } else if payload != [] && DecodeOne(payload).ItemPanic? {
      assert payload[..0] == [] && payload[0..] == payload;
      assert StopsAt(payload, 0);
    }
    if k: nat :| StopsAt(payload, k) {
      if k > 0 {
        StopsWithinRest(payload, k);
      } else {
        assert payload[0..] == payload;
      }
    }
  }

  /** A list header of `start` bytes that announces exactly what follows it. */
  predicate Header(data: Bytes, start: nat) {
    && data != [] && data[0] >= 0xc0 && start == (if data[0] <= 0xf7 then 1 else 1 + (data[0] - 0xf7))
        && start <= |data|
    && |data| - start == (if data[0] <= 0xf7 then data[0] - 0xc0 else Value(data[1..start]))
  }

  lemma HeaderLeadsToItems(data: Bytes, start: nat)
    requires Fits(|data|)
    ensures Header(data, start) ==> DecodeList(data) == DecodeItems(data[start..])
  {
    if Header(data, start) && data[0] > 0xf7 {
      AccumulatedIsWrapped(data[1..start]);
      WrapInRange(Value(data[1..start]));
    }
  }

  lemma PanicHasHeader(data: Bytes) returns (start: nat)
    requires Fits(|data|) && DecodeList(data).ListPanic?
    ensures Header(data, start)
  {
    start := if data[0] <= 0xf7 then 1 else 1 + (data[0] - 0xf7);
    if data[0] > 0xf7 {
      AccumulatedIsWrapped(data[1..start]);
      WrapInRange(Value(data[1..start]));
    }
  }

  /**
   * Reading a list stops the program exactly when its header is right and the items after it run into an overlong one.
   */
  lemma ListPanicsIff(data: Bytes)
    requires Fits(|data|)
    ensures DecodeList(data).ListPanic? <==>
            exists start: nat, k: nat :: Header(data, start) && StopsAt(data[start..], k)
  {
    if DecodeList(data).ListPanic? {
      var start := PanicHasHeader(data);
      HeaderLeadsToItems(data, start);
      ItemsPanicIff(data[start..]);
    }
    if start: nat, k: nat :| Header(data, start) && StopsAt(data[start..], k) {
      HeaderLeadsToItems(data, start);
      ItemsPanicIff(data[start..]);
    }
  }

  function Ones(k: nat): Bytes {
    if k == 0 then [] else Ones(k - 1) + [0xff]
  }

  lemma {:induction false} OnesAre(k: nat)
    ensures |Ones(k)| == k && Value(Ones(k)) == Pow256(k) - 1
  {
    if k > 0 {
      OnesAre(k - 1);
      assert Ones(k)[..k - 1] == Ones(k - 1);
    }
  }

  /** Ten bytes that do: a list of one item whose length is eight bytes of 0xff. */
  lemma TenBytesStopTheDecoder()
    ensures DecodeList([0xc9, 0xbf] + Ones(8)) == ListPanic
  {
    var data := [0xc9, 0xbf] + Ones(8);
    OnesAre(8);
    Pow256Of8();
    var payload := data[1..];
    assert payload == [0xbf] + Ones(8) && payload[1..9] == Ones(8);
    assert payload[..0] == [] && payload[0..] == payload;
    assert Header(data, 1) && StopsAt(payload, 0);
    ListPanicsIff(data);
  }
}
