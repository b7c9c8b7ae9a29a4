/** Deposit recording: reports arrive repeated and out of order, and each transfer is counted and announced once. */
module Deposits {
  import opened Common

  type ReservationId = string

  datatype DepositStatus = Detected | Confirmed

  /** The unique key of the deposits table. */
  datatype DepositKey = DepositKey(reservation: ReservationId, reference: string)

  datatype Deposit = Deposit(status: DepositStatus, amount: real)

  /** What a provider callback or the chain watcher reports. */
  datatype Report = Report(key: DepositKey, status: DepositStatus, amount: real)

  /** The event appended with a transition. */
  datatype Event = Event(key: DepositKey, status: DepositStatus, amount: real)

  type Table = map<DepositKey, Deposit>

  /** The row is inserted, or confirmed if it was only detected; anything else changes nothing. */
  predicate Transitions(table: Table, known: set<ReservationId>, r: Report) {
    if r.key in table then r.status == Confirmed && table[r.key].status == Detected else r.key.reservation in known
  }

  function Recorded(table: Table, known: set<ReservationId>, r: Report): Table {
    if Transitions(table, known, r) then table[r.key := Deposit(r.status, r.amount)] else table
  }

  function Announced(table: Table, known: set<ReservationId>, r: Report): seq<Event> {
    if Transitions(table, known, r) then [Event(r.key, r.status, r.amount)] else []
  }

  function ConfirmedKeys(table: Table, reservation: ReservationId): set<DepositKey> {
    set key | key in table && key.reservation == reservation && table[key].status == Confirmed
  }

  /** The total weight of a set. */
  ghost function SetSum<T>(s: set<T>, weight: T -> real): real {
    if s == {} then 0.0
    else
      var x :| x in s;
      weight(x) + SetSum(s - {x}, weight)
  }

  lemma {:induction false} SetSumAdd<T>(s: set<T>, x: T, weight: T -> real)
    requires x !in s
    ensures SetSum(s + {x}, weight) == SetSum(s, weight) + weight(x)
    decreases |s|
  {
    var all := s + {x};
    var y :| y in all && SetSum(all, weight) == weight(y) + SetSum(all - {y}, weight);
    if y == x {
      assert all - {x} == s;
    } else {
      assert all - {y} == (s - {y}) + {x};
      SetSumAdd(s - {y}, x, weight);
      assert s - {y} + {y} == s;
      SetSumAdd(s - {y}, y, weight);
    }
  }

  lemma {:induction false} SetSumAgrees<T>(s: set<T>, v: T -> real, w: T -> real)
    requires forall x | x in s :: v(x) == w(x)
    ensures SetSum(s, v) == SetSum(s, w)
  {
    if s != {} {
      var x :| x in s && SetSum(s, v) == v(x) + SetSum(s - {x}, v);
      SetSumAgrees(s - {x}, v, w);
      assert s - {x} + {x} == s;
      SetSumAdd(s - {x}, x, w);
    }
  }

  function AmountIn(table: Table): DepositKey -> real {
    key => if key in table then table[key].amount else 0.0
  }

  ghost function Total(table: Table, reservation: ReservationId): real {
    SetSum(ConfirmedKeys(table, reservation), AmountIn(table))
  }

  class DepositStore {
    var known: set<ReservationId>
    var table: Table
    var outbox: seq<Event>

    constructor (known: set<ReservationId>)
      ensures this.known == known && table == map[] && outbox == []
    {
      this.known := known;
      table, outbox := map[], [];
    }

    method InsertDepositIfAbsent(r: Report) returns (inserted: bool)
      modifies this`table
      ensures inserted == (r.key !in old(table) && r.key.reservation in known)
      ensures table == if inserted then old(table)[r.key := Deposit(r.status, r.amount)] else old(table)
    {
      inserted := r.key !in table && r.key.reservation in known;
      if inserted {
        table := table[r.key := Deposit(r.status, r.amount)];
      }
    }

    /** One transaction: insert or compare-and-set, and the event only when something changed. */
    method RecordDepositTransition(r: Report)
      modifies this`table, this`outbox
      ensures table == Recorded(old(table), known, r)
      ensures outbox == old(outbox) + Announced(old(table), known, r)
    {
      var transitioned := InsertDepositIfAbsent(r);
      if !transitioned && r.status == Confirmed && r.key in table && table[r.key].status == Detected {
        table := table[r.key := Deposit(Confirmed, r.amount)];
        transitioned := true;
      }
      if transitioned {
        outbox := outbox + [Event(r.key, r.status, r.amount)];
      }
    }

    method GetConfirmedDepositTotal(reservation: ReservationId) returns (total: real)
      ensures total == Total(table, reservation)
    {
      var rest := ConfirmedKeys(table, reservation);
      ghost var weight := AmountIn(table);
      ghost var done: set<DepositKey> := {};
      total := 0.0;
      while rest != {}
        invariant done + rest == ConfirmedKeys(table, reservation) && done !! rest
        invariant total == SetSum(done, weight)
      {
        var key :| key in rest;
        rest := rest - {key};
        total := total + table[key].amount;
        SetSumAdd(done, key, weight);
        done := done + {key};
      }
      assert done == ConfirmedKeys(table, reservation);
    }
  }

  // ----- any order, any repetition -----

  function After(known: set<ReservationId>, reports: seq<Report>): Table {
    if reports == [] then map[] else Recorded(After(known, reports[..|reports| - 1]), known, reports[|reports| - 1])
  }

  function Events(known: set<ReservationId>, reports: seq<Report>): seq<Event> {
    if reports == [] then []
    else
      var before, r := reports[..|reports| - 1], reports[|reports| - 1];
      Events(known, before) + Announced(After(known, before), known, r)
  }

  /** The first report of a transfer that satisfies the predicate. */
  function First(reports: seq<Report>, key: DepositKey, confirmedOnly: bool): (i: nat)
    ensures i <= |reports|
    ensures i < |reports| ==> reports[i].key == key && (confirmedOnly ==> reports[i].status == Confirmed)
    ensures forall j | 0 <= j < i :: reports[j].key != key || (confirmedOnly && reports[j].status != Confirmed)
  {
    if reports == [] then 0
    else
      var before, r := reports[..|reports| - 1], reports[|reports| - 1];
      var i := First(before, key, confirmedOnly);
      if i < |before| || (r.key == key && (confirmedOnly ==> r.status == Confirmed)) then i else |reports|
  }

  predicate Reported(reports: seq<Report>, key: DepositKey) {
    exists i :: 0 <= i < |reports| && reports[i].key == key
  }

  predicate ConfirmedBy(reports: seq<Report>, key: DepositKey) {
    exists i :: 0 <= i < |reports| && reports[i].key == key && reports[i].status == Confirmed
  }

  /** What a row ends as: confirmed with the first confirmation's amount, else detected with the first report's. */
  ghost predicate RowIs(known: set<ReservationId>, reports: seq<Report>, table: Table, key: DepositKey) {
    && (key in table <==> key.reservation in known && Reported(reports, key))
    && (key in table ==>
          var i := First(reports, key, ConfirmedBy(reports, key));
          i < |reports| && table[key]
              == Deposit(if ConfirmedBy(reports, key) then Confirmed else Detected, reports[i].amount))
  }

  lemma OneMoreReport(reports: seq<Report>, r: Report, key: DepositKey)
    ensures Reported(reports + [r], key) <==> Reported(reports, key) || r.key == key
    ensures ConfirmedBy(reports + [r], key) <==> ConfirmedBy(reports, key) || (r.key == key && r.status == Confirmed)
    ensures ConfirmedBy(reports, key) ==> Reported(reports, key)
  {
    var all := reports + [r];
    assert all[|reports|] == r;
    forall i | 0 <= i < |reports| ensures all[i] == reports[i] {}
  }

  lemma {:induction false} EveryRowIs(known: set<ReservationId>, reports: seq<Report>, key: DepositKey)
    ensures RowIs(known, reports, After(known, reports), key)
  {
    if reports != [] {
      var before, r := reports[..|reports| - 1], reports[|reports| - 1];
      EveryRowIs(known, before, key);
      assert reports == before + [r];
      OneMoreReport(before, r, key);
    }
  }

  /** One amount per transfer. */
  predicate FixedAmounts(reports: seq<Report>) {
    forall i, j | 0 <= i < j < |reports| && reports[i].key == reports[j].key :: reports[i].amount == reports[j].amount
  }

  predicate SameReports(reports: seq<Report>, others: seq<Report>) {
    && (forall i | 0 <= i < |reports| :: reports[i] in others)
    && (forall i | 0 <= i < |others| :: others[i] in reports)
  }

  lemma SameRow(known: set<ReservationId>, reports: seq<Report>, others: seq<Report>, key: DepositKey)
    requires SameReports(reports, others) && FixedAmounts(reports)
    ensures key in After(known, reports) <==> key in After(known, others)
    ensures key in After(known, reports) ==> After(known, reports)[key] == After(known, others)[key]
  {
    EveryRowIs(known, reports, key);
    EveryRowIs(known, others, key);
    SameMeansReported(reports, others, key);
    SameMeansReported(others, reports, key);
    if key in After(known, reports) {
      var i := First(reports, key, ConfirmedBy(reports, key));
      var j := First(others, key, ConfirmedBy(others, key));
      var k :| 0 <= k < |reports| && reports[k] == others[j];
      assert reports[i].amount == reports[k].amount;
    }
  }

  lemma SameMeansReported(reports: seq<Report>, others: seq<Report>, key: DepositKey)
    requires forall i | 0 <= i < |reports| :: reports[i] in others
    ensures Reported(reports, key) ==> Reported(others, key)
    ensures ConfirmedBy(reports, key) ==> ConfirmedBy(others, key)
  {
    if Reported(reports, key) {
      var i :| 0 <= i < |reports| && reports[i].key == key;
      var j :| 0 <= j < |others| && others[j] == reports[i];
    }
    if ConfirmedBy(reports, key) {
      var i :| 0 <= i < |reports| && reports[i].key == key && reports[i].status == Confirmed;
      var j :| 0 <= j < |others| && others[j] == reports[i];
    }
  }

  /** Confluence: the same reports in any order, with any repetitions, leave the same table. */
  lemma {:induction false} Confluence(known: set<ReservationId>, reports: seq<Report>, others: seq<Report>)
    requires SameReports(reports, others) && FixedAmounts(reports)
    ensures After(known, reports) == After(known, others)
  {
    forall key ensures key in After(known, reports) <==> key in After(known, others)
      ensures key in After(known, reports) ==> After(known, reports)[key] == After(known, others)[key]
    {
      SameRow(known, reports, others, key);
    }
  }

  /** The transfers of a reservation that were reported confirmed, each counted once. */
  function DistinctConfirmed(known: set<ReservationId>, reports: seq<Report>,
                             reservation: ReservationId): set<DepositKey> {
    set i | 0 <= i < |reports| && reports[i].status == Confirmed && reports[i].key.reservation == reservation
            && reservation in known :: reports[i].key
  }

  /** The amount of a transfer's first confirmation. */
  function FirstConfirmed(reports: seq<Report>): DepositKey -> real {
    key => var i := First(reports, key, true); if i < |reports| then reports[i].amount else 0.0
  }

  lemma ConfirmedKeyIs(known: set<ReservationId>, reports: seq<Report>, reservation: ReservationId, key: DepositKey)
    ensures key in ConfirmedKeys(After(known, reports), reservation) <==>
            key in DistinctConfirmed(known, reports, reservation)
    ensures key in ConfirmedKeys(After(known, reports), reservation) ==>
              AmountIn(After(known, reports))(key) == FirstConfirmed(reports)(key)
  {
    EveryRowIs(known, reports, key);
    if ConfirmedBy(reports, key) && key.reservation == reservation && reservation in known {
      var i :| 0 <= i < |reports| && reports[i].key == key && reports[i].status == Confirmed;
      assert Reported(reports, key);
      assert reports[i].key in DistinctConfirmed(known, reports, reservation);
    }
  }

  /** The confirmed total is the sum over distinct confirmed transfers, each at the amount of its first confirmation. */
  lemma TotalCountsEachOnce(known: set<ReservationId>, reports: seq<Report>, reservation: ReservationId)
    ensures ConfirmedKeys(After(known, reports), reservation) == DistinctConfirmed(known, reports, reservation)
    ensures Total(After(known, reports), reservation) ==
            SetSum(DistinctConfirmed(known, reports, reservation), FirstConfirmed(reports))
  {
    var keys := ConfirmedKeys(After(known, reports), reservation);
    forall key ensures key in keys <==> key in DistinctConfirmed(known, reports, reservation)
      ensures key in keys ==> AmountIn(After(known, reports))(key) == FirstConfirmed(reports)(key)
    {
      ConfirmedKeyIs(known, reports, reservation, key);
    }
    assert keys == DistinctConfirmed(known, reports, reservation);
    SetSumAgrees(keys, AmountIn(After(known, reports)), FirstConfirmed(reports));
  }

  function Times(events: seq<Event>, key: DepositKey, status: DepositStatus): nat {
    if events == [] then 0
    else
      var e := events[|events| - 1];
      Times(events[..|events| - 1], key, status) + (if e.key == key && e.status == status then 1 else 0)
  }

  lemma {:induction false} TimesAppend(events: seq<Event>, more: seq<Event>, key: DepositKey, status: DepositStatus)
    requires |more| <= 1
    ensures Times(events + more, key, status) == Times(events, key, status) + Times(more, key, status)
  {
    if more == [] {
      assert events + more == events;
    } else {
      assert (events + more)[..|events|] == events && more[..0] == [];
    }
  }

  /**
   * Each transfer is announced confirmed once if ever confirmed, and detected once if detected before it was confirmed.
   */
  lemma {:induction false} AnnouncedOnce(known: set<ReservationId>, reports: seq<Report>, key: DepositKey)
    ensures Times(Events(known, reports), key, Confirmed) ==
            if key.reservation in known && ConfirmedBy(reports, key) then 1 else 0
    ensures var i := First(reports, key, false);
            Times(Events(known, reports), key, Detected) ==
            if key.reservation in known && i < |reports| && reports[i].status == Detected then 1 else 0
  {
    if reports != [] {
      var before, r := reports[..|reports| - 1], reports[|reports| - 1];
      AnnouncedOnce(known, before, key);
      EveryRowIs(known, before, key);
      assert reports == before + [r];
      OneMoreReport(before, r, key);
      var news := Announced(After(known, before), known, r);
      TimesAppend(Events(known, before), news, key, Confirmed);
      TimesAppend(Events(known, before), news, key, Detected);
      if news != [] {
        assert news[..0] == [];
      }
    }
  }

  // ----- provider callbacks -----

  datatype Callback = Callback(event: string, id: string, status: string, amount: real, source: string, target: string)

  datatype Classified = Irrelevant | Invalid | Deposited(status: DepositStatus)

  /** At most eight decimal places. */
  predicate AtScale8(amount: real) {
    (amount * 100000000.0).Floor as real == amount * 100000000.0
  }

  function Wanted(event: string): Option<(DepositStatus, string)> {
    if event == "transfer.processing" then Some((Detected, "processing"))
    else if event == "transfer.funds_received" then Some((Confirmed, "funds_received"))
    else if event == "transfer.completed" then Some((Confirmed, "completed"))
    else None
  }

  /** Busha's transfer events; a pending transfer is no evidence of a deposit. */
  function Classify(c: Callback): Classified {
    match Wanted(c.event)
    case None => Irrelevant
    case Some((status, want)) =>
      if c.id == "" || c.status != want || c.amount <= 0.0 || !AtScale8(c.amount) || c.source == "" || c.target == ""
          then Invalid
      else Deposited(status)
  }

  function ReportsOf(reservation: ReservationId, callbacks: seq<Callback>): seq<Report> {
    if callbacks == [] then []
    else
      var c := callbacks[|callbacks| - 1];
      ReportsOf(reservation, callbacks[..|callbacks| - 1])
      + (if Classify(c).Deposited? then [Report(DepositKey(reservation, c.id), Classify(c).status, c.amount)] else [])
  }

  lemma {:induction false} ReportsOfOne(reservation: ReservationId, callbacks: seq<Callback>, id: string)
    requires forall i | 0 <= i < |callbacks| :: callbacks[i].id == id
    ensures forall r | r in ReportsOf(reservation, callbacks) :: r.key == DepositKey(reservation, id) && r.amount > 0.0
  {
    if callbacks != [] {
      ReportsOfOne(reservation, callbacks[..|callbacks| - 1], id);
    }
  }

  /** One transfer is announced confirmed at most once, however many of its callbacks arrive in whatever order. */
  lemma OneTransferConfirmsOnce(known: set<ReservationId>, reservation: ReservationId, callbacks: seq<Callback>,
                                id: string)
    requires forall i | 0 <= i < |callbacks| :: callbacks[i].id == id
    ensures Times(Events(known, ReportsOf(reservation, callbacks)), DepositKey(reservation, id), Confirmed) <= 1
    ensures ConfirmedKeys(After(known, ReportsOf(reservation, callbacks)), reservation) <= {DepositKey(reservation, id)}
  {
    var reports := ReportsOf(reservation, callbacks);
    AnnouncedOnce(known, reports, DepositKey(reservation, id));
    ReportsOfOne(reservation, callbacks, id);
    TotalCountsEachOnce(known, reports, reservation);
  }

  function Scaled(n: int): real {
    n as real / 100000000.0
  }

  /** A transfer that a callback may speak of: named, positive, in units of eight places, from and to a currency. */
  ghost predicate Intact(c: Callback) {
    c.id != "" && c.amount > 0.0 && (exists n: int :: c.amount == Scaled(n)) && c.source != "" && c.target != ""
  }

  /** The money has been received. */
  ghost predicate Receipt(c: Callback, id: string) {
    && c.id == id && Intact(c)
    && ((c.event == "transfer.funds_received" && c.status == "funds_received")
        || (c.event == "transfer.completed" && c.status == "completed"))
  }

  /** The transfer was seen, and no more. */
  ghost predicate Sighting(c: Callback, id: string) {
    c.id == id && Intact(c) && c.event == "transfer.processing" && c.status == "processing"
  }

  ghost predicate Received(callbacks: seq<Callback>, id: string) {
    exists i :: 0 <= i < |callbacks| && Receipt(callbacks[i], id)
  }

  ghost predicate Sighted(callbacks: seq<Callback>, id: string) {
    exists i :: 0 <= i < |callbacks| && Sighting(callbacks[i], id)
  }

  lemma ScaleIs(amount: real)
    ensures AtScale8(amount) <==> exists n: int :: amount == Scaled(n)
  {
    if AtScale8(amount) {
      assert amount == Scaled((amount * 100000000.0).Floor);
    }
    if n: int :| amount == Scaled(n) {
      assert amount * 100000000.0 == n as real;
    }
  }

  lemma ClassifiedAs(c: Callback, id: string)
    ensures c.id == id && Classify(c) == Deposited(Confirmed) <==> Receipt(c, id)
    ensures c.id == id && Classify(c) == Deposited(Detected) <==> Sighting(c, id)
  {
    ScaleIs(c.amount);
  }

  lemma OneMoreCallback(callbacks: seq<Callback>, c: Callback, id: string)
    ensures Received(callbacks + [c], id) <==> Received(callbacks, id) || Receipt(c, id)
    ensures Sighted(callbacks + [c], id) <==> Sighted(callbacks, id) || Sighting(c, id)
  {
    var all := callbacks + [c];
    assert all[|callbacks|] == c;
    forall i | 0 <= i < |callbacks| ensures all[i] == callbacks[i] {}
  }

  /** What the store is told of a transfer. */
  lemma {:induction false} ToldOf(reservation: ReservationId, callbacks: seq<Callback>, id: string)
    ensures var reports, key := ReportsOf(reservation, callbacks), DepositKey(reservation, id);
            && (ConfirmedBy(reports, key) <==> Received(callbacks, id))
            && (Reported(reports, key) <==> Received(callbacks, id) || Sighted(callbacks, id))
  {
    if callbacks != [] {
      var before, c := callbacks[..|callbacks| - 1], callbacks[|callbacks| - 1];
      ToldOf(reservation, before, id);
      assert callbacks == before + [c];
      OneMoreCallback(before, c, id);
      ClassifiedAs(c, id);
      if Classify(c).Deposited? {
        OneMoreReport(ReportsOf(reservation, before),
                      Report(DepositKey(reservation, c.id), Classify(c).status, c.amount),
                      DepositKey(reservation, id));
      } else {
        assert ReportsOf(reservation, before) + [] == ReportsOf(reservation, before);
      }
    }
  }

  /**
   * What any sequence of callbacks leaves of a transfer, and announces. It is counted exactly when one of them, intact,
   * says that the money was received; it is on record as detected exactly when it was only ever seen being processed;
   * everything else, a pending transfer among it, leaves nothing. A receipt is announced once.
   */
  lemma CountedIffReceived(known: set<ReservationId>, reservation: ReservationId, callbacks: seq<Callback>, id: string)
    ensures var reports, key := ReportsOf(reservation, callbacks), DepositKey(reservation, id);
            var table := After(known, reports);
            && (key in ConfirmedKeys(table, reservation) <==> reservation in known && Received(callbacks, id))
            && (key in table && table[key].status == Detected <==>
                  reservation in known && Sighted(callbacks, id) && !Received(callbacks, id))
            && Times(Events(known, reports), key, Confirmed)
               == (if reservation in known && Received(callbacks, id) then 1 else 0)
  {
    var key := DepositKey(reservation, id);
    ToldOf(reservation, callbacks, id);
    EveryRowIs(known, ReportsOf(reservation, callbacks), key);
    AnnouncedOnce(known, ReportsOf(reservation, callbacks), key);
  }

  /** The amount that counts is that of the first receipt. */
  lemma {:induction false} FirstReceiptCounts(known: set<ReservationId>, reservation: ReservationId,
                                              callbacks: seq<Callback>, id: string, i: nat)
    requires i < |callbacks| && Receipt(callbacks[i], id) && reservation in known
    requires forall j | 0 <= j < i :: !Receipt(callbacks[j], id)
    ensures var table, key := After(known, ReportsOf(reservation, callbacks)), DepositKey(reservation, id);
            key in table && table[key] == Deposit(Confirmed, callbacks[i].amount)
  {
    var before, c := callbacks[..|callbacks| - 1], callbacks[|callbacks| - 1];
    var key := DepositKey(reservation, id);
    ClassifiedAs(c, id);
    if i < |callbacks| - 1 {
      FirstReceiptCounts(known, reservation, before, id, i);
    } else {
      CountedIffReceived(known, reservation, before, id);
      assert !Received(before, id);
    }
    if Classify(c).Deposited? {
      var reports := ReportsOf(reservation, before);
      var r := Report(DepositKey(reservation, c.id), Classify(c).status, c.amount);
      assert (reports + [r])[..|reports|] == reports;
    } else {
      assert ReportsOf(reservation, before) + [] == ReportsOf(reservation, before);
    }
  }
}
