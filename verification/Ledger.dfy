/** The double-entry ledger: Post as the only write path, and the balance cache it keeps. */
module Ledger {
  import opened Common

  /** A ledger account, identified by the unique key of its table. */
  datatype Account = Account(tenant: Option<string>, kind: string, asset: string)

  /** Directions arrive as strings; anything but the two known ones is refused. */
  datatype Direction = Debit | Credit | OtherDirection(name: string)

  datatype Entry = Entry(account: Account, direction: Direction, amount: real, asset: string)

  /** The idempotency keys in use, by shape; a reversal case is named by its session and its position there. */
  datatype Key =
    | DepositConfirmed(session: string)
    | FxConversion(session: string)
    | Payout(session: string, attempt: nat)
    | ManualPayout(session: string)
    | AttemptReversal(session: string, attempt: nat)
    | SettlementReversal(session: string)
    | ManualAdjustment(session: string, reversal: nat)
    | OtherKey(name: string)

  datatype Transaction = Transaction(key: Key, entries: seq<Entry>)

  datatype PostError = NoEntries | InvalidEntry | Unbalanced | AlreadyPosted

  datatype PostResult = Posted | Refused(error: PostError)

  /** One row of the entries table: the entry and the transaction it belongs to. */
  datatype Row = Row(key: Key, entry: Entry)

  /** The three tables: claimed keys, entries in insertion order, cached balances. */
  datatype Book = Book(keys: set<Key>, rows: seq<Row>, balances: map<Account, real>)

  const EMPTY_BOOK := Book({}, [], map[])

  /** Signed amount of an entry: debits count positive, everything else negative. */
  function Delta(e: Entry): real {
    if e.direction == Debit then e.amount else -e.amount
  }

  function OnAccount(account: Account): Row -> real {
    (r: Row) => if r.entry.account == account then Delta(r.entry) else 0.0
  }

  function OfAsset(asset: string): Row -> real {
    (r: Row) => if r.entry.asset == asset then Delta(r.entry) else 0.0
  }

  function EntryOfAsset(asset: string): Entry -> real {
    (e: Entry) => if e.asset == asset then Delta(e) else 0.0
  }

  /** The balance an account has by its entries alone. */
  function Computed(b: Book, account: Account): real {
    Sum(b.rows, OnAccount(account))
  }

  /** The balance the cache reports; an account without a row counts as zero. */
  function Cached(b: Book, account: Account): real {
    if account in b.balances then b.balances[account] else 0.0
  }

  predicate ValidEntry(e: Entry) {
    e.direction in {Debit, Credit} && e.amount > 0.0 && e.asset != ""
  }

  /** Within a transaction, debits and credits cancel for every asset code. */
  ghost predicate Balanced(entries: seq<Entry>) {
    forall asset: string :: Sum(entries, EntryOfAsset(asset)) == 0.0
  }

  ghost predicate WellFormed(entries: seq<Entry>) {
    && entries != []
    && (forall e | e in entries :: ValidEntry(e))
    && Balanced(entries)
  }

  function RowsOf(txn: Transaction): (rows: seq<Row>) {
    seq(|txn.entries|, i requires 0 <= i < |txn.entries| => Row(txn.key, txn.entries[i]))
  }

  /** Cached balances after a run of entries has been added one by one. */
  function AddDeltas(balances: map<Account, real>, entries: seq<Entry>): map<Account, real> {
    if entries == [] then balances
    else
      var before := AddDeltas(balances, entries[..|entries| - 1]);
      var e := entries[|entries| - 1];
      before[e.account := (if e.account in before then before[e.account] else 0.0) + Delta(e)]
  }

  /** The first reason for which a transaction is refused, in the order the checks are made. */
  ghost function Refusal(b: Book, txn: Transaction): Option<PostError> {
    if txn.entries == [] then Some(NoEntries)
    else if exists e | e in txn.entries :: !ValidEntry(e) then Some(InvalidEntry)
    else if !Balanced(txn.entries) then Some(Unbalanced)
    else if txn.key in b.keys then Some(AlreadyPosted)
    else None
  }

  /** Each refusal has its cause, and the causes are looked for in this order. */
  lemma RefusalByCause(b: Book, txn: Transaction)
    ensures Refusal(b, txn) == Some(NoEntries) <==> txn.entries == []
    ensures Refusal(b, txn) == Some(InvalidEntry) <==> exists e | e in txn.entries :: !ValidEntry(e)
    ensures Refusal(b, txn) == Some(Unbalanced) <==>
            && txn.entries != [] && (forall e | e in txn.entries :: ValidEntry(e))
            && exists asset: string :: Sum(txn.entries, EntryOfAsset(asset)) != 0.0
    ensures Refusal(b, txn) == Some(AlreadyPosted) <==> WellFormed(txn.entries) && txn.key in b.keys
    ensures Refusal(b, txn) == None <==> WellFormed(txn.entries) && txn.key !in b.keys
  {
  }

  /** The tables after an accepted post. */
  function Append(b: Book, txn: Transaction): Book {
    Book(b.keys + {txn.key}, b.rows + RowsOf(txn), AddDeltas(b.balances, txn.entries))
  }

  ghost function AfterPost(b: Book, txn: Transaction): Book {
    if Refusal(b, txn) == None then Append(b, txn) else b
  }

  /** What the ledger promises of its tables at all times. */
  ghost predicate Consistent(b: Book) {
    && (forall account :: Cached(b, account) == Computed(b, account))
    && (forall asset :: Sum(b.rows, OfAsset(asset)) == 0.0)
    && (forall i | 0 <= i < |b.rows| :: b.rows[i].key in b.keys && ValidEntry(b.rows[i].entry))
    && (forall account ::
          account in b.balances <==> exists i :: 0 <= i < |b.rows| && b.rows[i].entry.account == account)
  }

  /** The cached balance moves by the signed sum of the entries on the account. */
  lemma {:induction false} AddDeltasMoves(balances: map<Account, real>, txn: Transaction, account: Account)
    ensures var after := AddDeltas(balances, txn.entries);
            && (account in after <==> account in balances || exists e | e in txn.entries :: e.account == account)
            && (if account in after then after[account] else 0.0)
               == (if account in balances then balances[account] else 0.0) + Sum(RowsOf(txn), OnAccount(account))
    decreases |txn.entries|
  {
    var entries := txn.entries;
    if entries != [] {
      var last := |entries| - 1;
      var shorter := txn.(entries := entries[..last]);
      AddDeltasMoves(balances, shorter, account);
      assert RowsOf(txn)[..last] == RowsOf(shorter);
      assert entries == entries[..last] + [entries[last]];
    }
  }

  lemma {:induction false} AssetSumOfRows(txn: Transaction, asset: string)
    ensures Sum(RowsOf(txn), OfAsset(asset)) == Sum(txn.entries, EntryOfAsset(asset))
    decreases |txn.entries|
  {
    var entries := txn.entries;
    if entries != [] {
      var last := |entries| - 1;
      var shorter := txn.(entries := entries[..last]);
      AssetSumOfRows(shorter, asset);
      assert RowsOf(txn)[..last] == RowsOf(shorter);
    }
  }

  /** Accepted or refused, a post keeps the cache in agreement with the entries and every asset at zero. */
  lemma PostKeepsConsistent(b: Book, txn: Transaction)
    requires Consistent(b)
    ensures Consistent(AfterPost(b, txn))
  {
    if Refusal(b, txn) == None {
      var after := AfterPost(b, txn);
      var added := RowsOf(txn);
      forall account
        ensures Cached(after, account) == Computed(after, account)
        ensures account in after.balances <==>
                exists i :: 0 <= i < |after.rows| && after.rows[i].entry.account == account
      {
        SumAppend(b.rows, added, OnAccount(account));
        AddDeltasMoves(b.balances, txn, account);
        RowsOnAccount(b, txn, account);
        assert Computed(after, account) == Computed(b, account) + Sum(added, OnAccount(account));
      }
      forall asset ensures Sum(after.rows, OfAsset(asset)) == 0.0 {
        SumAppend(b.rows, added, OfAsset(asset));
        AssetSumOfRows(txn, asset);
      }
      forall i | 0 <= i < |after.rows| ensures after.rows[i].key in after.keys && ValidEntry(after.rows[i].entry) {
        if i >= |b.rows| {
          assert after.rows[i] == added[i - |b.rows|];
          assert txn.entries[i - |b.rows|] in txn.entries;
        }
      }
    }
  }

  lemma RowsOnAccount(b: Book, txn: Transaction, account: Account)
    ensures (exists i :: 0 <= i < |b.rows + RowsOf(txn)| && (b.rows + RowsOf(txn))[i].entry.account == account)
            <==> ((exists i :: 0 <= i < |b.rows| && b.rows[i].entry.account == account)
                  || (exists e | e in txn.entries :: e.account == account))
  {
    var all := b.rows + RowsOf(txn);
    if i :| 0 <= i < |b.rows| && b.rows[i].entry.account == account {
      assert all[i].entry.account == account;
    }
    if e :| e in txn.entries && e.account == account {
      var j :| 0 <= j < |txn.entries| && txn.entries[j] == e;
      assert all[|b.rows| + j].entry.account == account;
    }
    if i :| 0 <= i < |all| && all[i].entry.account == account && i >= |b.rows| {
      assert all[i].entry == txn.entries[i - |b.rows|];
    }
  }

  /** The tables after a whole sequence of posts. */
  ghost function AfterPosts(b: Book, txns: seq<Transaction>): Book {
    if txns == [] then b else AfterPost(AfterPosts(b, txns[..|txns| - 1]), txns[|txns| - 1])
  }

  /** Cache agreement over every run of accepted and refused posts. */
  lemma {:induction false} CacheAgreesAfterAnyRun(txns: seq<Transaction>)
    ensures Consistent(AfterPosts(EMPTY_BOOK, txns))
  {
    if txns != [] {
      CacheAgreesAfterAnyRun(txns[..|txns| - 1]);
      PostKeepsConsistent(AfterPosts(EMPTY_BOOK, txns[..|txns| - 1]), txns[|txns| - 1]);
    }
  }

  /** How often a key is accepted in a run: the claim is taken by the first well-formed post and by no other. */
  ghost function Acceptances(b: Book, txns: seq<Transaction>, key: Key): nat {
    if txns == [] then 0
    else
      var before := AfterPosts(b, txns[..|txns| - 1]);
      var txn := txns[|txns| - 1];
      Acceptances(b, txns[..|txns| - 1], key) + (if txn.key == key && Refusal(before, txn) == None then 1 else 0)
  }

  lemma {:induction false} KeyIsAcceptedOnce(txns: seq<Transaction>, key: Key)
    ensures Acceptances(EMPTY_BOOK, txns, key) == (if key in AfterPosts(EMPTY_BOOK, txns).keys then 1 else 0)
    ensures key in AfterPosts(EMPTY_BOOK, txns).keys <==>
            exists i :: 0 <= i < |txns| && txns[i].key == key && WellFormed(txns[i].entries)
  {
    if txns != [] {
      var last := |txns| - 1;
      KeyIsAcceptedOnce(txns[..last], key);
      forall i | 0 <= i < last ensures txns[..last][i] == txns[i] {}
    }
  }

  /** The two-legged transactions the settlement pipeline posts. */
  function Pair(key: Key, debit: Account, credit: Account, amount: real, asset: string): Transaction {
    Transaction(key, [Entry(debit, Debit, amount, asset), Entry(credit, Credit, amount, asset)])
  }

  /** Both legs carry one amount, so a pair is refused only for a bad amount or asset, or a claimed key. */
  lemma PairRefusal(b: Book, key: Key, debit: Account, credit: Account, amount: real, asset: string)
    ensures Refusal(b, Pair(key, debit, credit, amount, asset)) ==
            if amount <= 0.0 || asset == "" then Some(InvalidEntry)
            else if key in b.keys then Some(AlreadyPosted) else None
  {
    var entries := Pair(key, debit, credit, amount, asset).entries;
    assert entries[0] in entries && entries[1] in entries;
    assert entries[..1] == [entries[0]];
    forall code: string ensures Sum(entries, EntryOfAsset(code)) == 0.0 {
      assert Sum([entries[0]], EntryOfAsset(code)) == EntryOfAsset(code)(entries[0]);
    }
  }

  /** What a pair does to an account: its amount more on the debit leg, its amount less on the credit leg. */
  lemma PairMovesBalances(b: Book, key: Key, debit: Account, credit: Account, amount: real, asset: string,
                          account: Account)
    ensures Cached(Append(b, Pair(key, debit, credit, amount, asset)), account)
            == Cached(b, account) + (if account == debit then amount else 0.0)
               - (if account == credit then amount else 0.0)
  {
    var txn := Pair(key, debit, credit, amount, asset);
    var rows := RowsOf(txn);
    AddDeltasMoves(b.balances, txn, account);
    assert rows == [Row(key, txn.entries[0]), Row(key, txn.entries[1])];
    assert rows[..1] == [rows[0]];
    assert Sum([rows[0]], OnAccount(account)) == OnAccount(account)(rows[0]);
  }

  /** An accepted pair moves a weight by what its two rows weigh. */
  lemma PairMoves(b: Book, key: Key, debit: Account, credit: Account, amount: real, asset: string, weight: Row -> real)
    ensures var txn := Pair(key, debit, credit, amount, asset);
            Sum(Append(b, txn).rows, weight)
            == Sum(b.rows, weight) + weight(Row(key, txn.entries[0])) + weight(Row(key, txn.entries[1]))
  {
    var txn := Pair(key, debit, credit, amount, asset);
    var rows := RowsOf(txn);
    assert rows == [Row(key, txn.entries[0]), Row(key, txn.entries[1])];
    assert rows[..1] == [rows[0]];
    SumAppend(b.rows, rows, weight);
    assert Sum([rows[0]], weight) == weight(rows[0]);
  }

  /** The ledger store: each table is a field, and Post is one database transaction. */
  class LedgerStore {
    var keys: set<Key>
    var rows: seq<Row>
    var balances: map<Account, real>

    ghost function Tables(): Book
      reads this
    {
      Book(keys, rows, balances)
    }

    constructor ()
      ensures Tables() == EMPTY_BOOK
    {
      keys, rows, balances := {}, [], map[];
    }

    /** Adds the entries up per asset code, then looks for an asset that does not cancel. */
    static method ValidateBalance(entries: seq<Entry>) returns (balanced: bool)
      ensures balanced <==> Balanced(entries)
    {
      var sums: map<string, real> := map[];
      for i := 0 to |entries|
        invariant forall asset :: asset in sums ==> sums[asset] == Sum(entries[..i], EntryOfAsset(asset))
        invariant forall asset :: asset !in sums ==> Sum(entries[..i], EntryOfAsset(asset)) == 0.0
      {
        var e := entries[i];
        assert entries[..i + 1][..i] == entries[..i];
        var sum := if e.asset in sums then sums[e.asset] else 0.0;
        if e.direction == Debit {
          sums := sums[e.asset := sum + e.amount];
        } else {
          sums := sums[e.asset := sum - e.amount];
        }
      }
      assert entries[..|entries|] == entries;
      balanced := forall asset | asset in sums :: sums[asset] == 0.0;
    }

    /** Validates, claims the key, inserts every entry and moves the touched balances, or changes nothing. */
    method Post(txn: Transaction) returns (result: PostResult)
      modifies this
      ensures Tables() == AfterPost(old(Tables()), txn)
      ensures result == match Refusal(old(Tables()), txn) case None => Posted case Some(e) => Refused(e)
    {
      if txn.entries == [] {
        return Refused(NoEntries);
      }
      for i := 0 to |txn.entries|
        invariant forall j | 0 <= j < i :: ValidEntry(txn.entries[j])
      {
        if !ValidEntry(txn.entries[i]) {
          return Refused(InvalidEntry);
        }
      }
      var balanced := ValidateBalance(txn.entries);
      if !balanced {
        return Refused(Unbalanced);
      }
      if txn.key in keys {
        return Refused(AlreadyPosted);
      }
      keys := keys + {txn.key};
      ghost var added := RowsOf(txn);
      for i := 0 to |txn.entries|
        invariant keys == old(keys) + {txn.key}
        invariant rows == old(rows) + added[..i]
        invariant balances == AddDeltas(old(balances), txn.entries[..i])
      {
        var e := txn.entries[i];
        assert txn.entries[..i + 1][..i] == txn.entries[..i];
        assert added[..i + 1] == added[..i] + [Row(txn.key, e)];
        rows := rows + [Row(txn.key, e)];
        var delta := e.amount;
        if e.direction == Credit {
          delta := -e.amount;
        }
        var balance := if e.account in balances then balances[e.account] else 0.0;
        balances := balances[e.account := balance + delta];
      }
      assert txn.entries[..|txn.entries|] == txn.entries;
      assert added[..|added|] == added;
      assert Refusal(old(Tables()), txn) == None;
      return Posted;
    }

    /** The cached balance; zero, not an error, for an account nothing was posted to. */
    method GetBalance(account: Account) returns (balance: real)
      ensures balance == Cached(Tables(), account)
      ensures Consistent(Tables()) ==> balance == Computed(Tables(), account)
    {
      balance := if account in balances then balances[account] else 0.0;
    }
  }
}
