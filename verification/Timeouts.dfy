/** The timeout scan cancels overdue orders page by page until none is left. */
module Timeouts {
  import opened Model
  import opened OrderSpec
  import opened Invariants
  import opened OrderSteps
  import opened OrderTheorems
  import opened OrderServices
  import opened Paging
  import opened Store

  const SCAN_LIMIT := 500

  /** The two timeouts: of orders waiting for a taker, and of orders waiting for delivery. */
  datatype Kind = Claims | Deliveries

  function Timeout(kind: Kind, db: Db, id: int): Outcome<bool> {
    match kind
    case Claims => TimeoutClaim(db, id)
    case Deliveries => TimeoutDeliver(db, id)
  }

  predicate IsOverdue(kind: Kind, o: Order, now: int) {
    match kind
    case Claims => ClaimOverdue(o, now)
    case Deliveries => DeliverOverdue(o, now)
  }

  function Overdue(kind: Kind, db: Db): set<int> { set id | id in db.orders && IsOverdue(kind, db.orders[id], db.now) }

  function TimeoutAll(kind: Kind, db: Db, page: seq<int>): Db
    decreases |page|
  {
    if page == [] then db else TimeoutAll(kind, Timeout(kind, db, page[0]).After(db), page[1..])
  }

  method CallTimeout(orders: OrderService, kind: Kind, id: int) returns (r: Result<bool>)
    modifies orders.db
    ensures r == Answer(Timeout(kind, old(orders.db.tables), id))
    ensures orders.db.tables == Timeout(kind, old(orders.db.tables), id).After(old(orders.db.tables))
  {
    match kind
    case Claims => r := orders.TimeoutClaim(id);
    case Deliveries => r := orders.TimeoutDeliver(id);
  }

  class TimeoutScanJob {
    const orders: OrderService

    constructor (orders: OrderService)
      ensures this.orders == orders
    {
      this.orders := orders;
    }

    method Scan() returns (claims: seq<int>, deliveries: seq<int>)
      modifies orders.db
      ensures ScanOf(old(orders.db.tables), orders.db.tables, claims, deliveries)
    {
      claims := ScanKind(Claims);
      deliveries := ScanKind(Deliveries);
    }

    /** Failures of single orders are only logged. */
    method ScanKind(kind: Kind) returns (page: seq<int>)
      modifies orders.db
      ensures IsPage(page, Overdue(kind, old(orders.db.tables)), 500)
      ensures orders.db.tables == TimeoutAll(kind, old(orders.db.tables), page)
    {
      hide Timeout;
      ghost var before := orders.db.tables;
      page := SelectPage(Overdue(kind, orders.db.tables), SCAN_LIMIT);
      var i := 0;
      while i < |page|
        invariant 0 <= i <= |page| && TimeoutAll(kind, orders.db.tables, page[i..]) == TimeoutAll(kind, before, page)
      {
        assert page[i..][1..] == page[i + 1..];
        var _ := CallTimeout(orders, kind, page[i]);
        i := i + 1;
      }
    }
  }

  // ---- one call ----

  /** db' differs from db in this one order, cancelled if `cancels`, and keeps the invariant. */
  ghost predicate Cancels(cfg: Config, db: Db, db': Db, id: int, cancels: bool) {
    && Inv(cfg, db') && db'.now == db.now && (forall j :: j in db'.orders <==> j in db.orders)
    && forall j :: j in db.orders
                   ==> db'.orders[j] == if j == id && cancels then CancelledOrder(db.orders[j]) else db.orders[j]
  }

  /** A timeout call never fails, and it cancels exactly an overdue order. */
  lemma TimeoutIsTotal(cfg: Config, kind: Kind, db: Db, id: int)
    requires Inv(cfg, db)
    ensures var r := Timeout(kind, db, id);
            r.Commit? && Cancels(cfg, db, r.db, id, id in Overdue(kind, db))
  {
    hide Inv, Release, GiveBack;
    if id in Overdue(kind, db) {
      ReleaseOutcome(cfg, db, id);
      ReleaseKeeps(cfg, db, id);
      GiveBackOrders(db, id);
    }
  }

  lemma GiveBackOrders(db: Db, id: int)
    requires id in db.orders
    ensures var db' := GiveBack(db, id, db.orders[id]);
            db'.orders == db.orders[id := CancelledOrder(db.orders[id])] && db'.now == db.now
  {}

  lemma CancelShrinksOverdue(cfg: Config, kind: Kind, db: Db, db': Db, id: int)
    requires Cancels(cfg, db, db', id, true)
    ensures Overdue(kind, db') == Overdue(kind, db) - {id}
  {
    hide Inv;
    forall j ensures j in Overdue(kind, db') <==> j in Overdue(kind, db) - {id} {
      assert j in db'.orders <==> j in db.orders;
    }
  }

  // ---- one page ----

  /** Every order of the page is cancelled and its escrow returned; every other order is untouched. */
  ghost predicate PageCancelled(cfg: Config, db: Db, db': Db, page: seq<int>) {
    && Inv(cfg, db') && db'.now == db.now && (forall j :: j in db'.orders <==> j in db.orders)
    && forall id :: id in db.orders
                    ==> db'.orders[id] == if id in Elements(page) then CancelledOrder(db.orders[id]) else db.orders[id]
  }

  predicate Increasing(page: seq<int>) { forall i, j :: 0 <= i < j < |page| ==> page[i] < page[j] }

  lemma Split(page: seq<int>)
    requires page != [] && Increasing(page)
    ensures Elements(page) == {page[0]} + Elements(page[1..]) && page[0] !in Elements(page[1..])
  {
    forall i | 0 < i < |page| ensures page[i] in Elements(page[1..]) { assert page[i] == page[1..][i - 1]; }
  }

  lemma CancelThenPage(cfg: Config, db: Db, mid: Db, db': Db, page: seq<int>)
    requires page != [] && Increasing(page) && Cancels(cfg, db, mid, page[0], true)
             && PageCancelled(cfg, mid, db', page[1..])
    ensures PageCancelled(cfg, db, db', page)
  {
    hide Inv, Elements;
    Split(page);
  }

  lemma {:induction false} TimeoutAllCancels(cfg: Config, kind: Kind, db: Db, page: seq<int>)
    requires Inv(cfg, db) && Increasing(page) && Elements(page) <= Overdue(kind, db)
    ensures var db' := TimeoutAll(kind, db, page);
            && PageCancelled(cfg, db, db', page) && forall k :: Overdue(k, db') == Overdue(k, db) - Elements(page)
    decreases |page|
  {
    if page == [] {
      hide Inv, Overdue;
    } else {
      hide Inv, Timeout, Overdue, Cancels, PageCancelled;
      var id, rest := page[0], page[1..];
      Split(page);
      TimeoutIsTotal(cfg, kind, db, id);
      var mid := Timeout(kind, db, id).After(db);
      CancelKeepsInv(cfg, db, mid, id);
      forall k ensures Overdue(k, mid) == Overdue(k, db) - {id} { CancelShrinksOverdue(cfg, k, db, mid, id); }
      TimeoutAllCancels(cfg, kind, mid, rest);
      CancelThenPage(cfg, db, mid, TimeoutAll(kind, mid, rest), page);
    }
  }

  lemma CancelKeepsInv(cfg: Config, db: Db, db': Db, id: int)
    requires Cancels(cfg, db, db', id, true)
    ensures Inv(cfg, db')
  {
    hide Inv;
  }

  // ---- whole scans ----

  predicate ScanOf(db: Db, db': Db, claims: seq<int>, deliveries: seq<int>) {
    && IsPage(claims, Overdue(Claims, db), SCAN_LIMIT)
    && IsPage(deliveries, Overdue(Deliveries, TimeoutAll(Claims, db, claims)), SCAN_LIMIT)
    && db' == TimeoutAll(Deliveries, TimeoutAll(Claims, db, claims), deliveries)
  }

  ghost predicate OneScan(db: Db, db': Db) { exists claims, deliveries :: ScanOf(db, db', claims, deliveries) }

  function Left(n: nat): nat { if n < SCAN_LIMIT then 0 else n - SCAN_LIMIT }

  /** An order is overdue in one way at most. */
  lemma KindsAreDisjoint(db: Db)
    ensures Overdue(Claims, db) !! Overdue(Deliveries, db)
  {
    forall id | id in Overdue(Claims, db) ensures id !in Overdue(Deliveries, db) {}
  }

  lemma PageIsPart(page: seq<int>, ids: set<int>)
    requires IsPage(page, ids, SCAN_LIMIT)
    ensures Increasing(page) && Elements(page) <= ids && |ids - Elements(page)| == Left(|ids|)
  {
    WithoutPage(page, ids, SCAN_LIMIT);
  }

  lemma KindShrinks(cfg: Config, kind: Kind, db: Db, page: seq<int>)
    requires Inv(cfg, db) && IsPage(page, Overdue(kind, db), SCAN_LIMIT)
    ensures var db' := TimeoutAll(kind, db, page);
            && Inv(cfg, db') && db'.now == db.now && |Overdue(kind, db')| == Left(|Overdue(kind, db)|)
            && forall other :: other != kind ==> Overdue(other, db') == Overdue(other, db)
  {
    hide Inv, TimeoutAll, Overdue, Elements, IsPage, Increasing;
    KindsAreDisjoint(db);
    PageIsPart(page, Overdue(kind, db));
    TimeoutAllCancels(cfg, kind, db, page);
  }

  /** At a frozen clock each scan takes exactly min(500, size) orders out of each overdue set: no cancellation can
      fail. */
  lemma ScanShrinks(cfg: Config, db: Db, db': Db)
    requires Inv(cfg, db) && OneScan(db, db')
    ensures Inv(cfg, db') && db'.now == db.now && forall kind :: |Overdue(kind, db')| == Left(|Overdue(kind, db)|)
  {
    hide Inv, TimeoutAll, Overdue, IsPage;
    var claims, deliveries :| ScanOf(db, db', claims, deliveries);
    KindShrinks(cfg, Claims, db, claims);
    KindShrinks(cfg, Deliveries, TimeoutAll(Claims, db, claims), deliveries);
    forall kind ensures |Overdue(kind, db')| == Left(|Overdue(kind, db)|) {
      match kind case Claims => case Deliveries =>
    }
  }

  /** Either deadline of an open order has come. */
  predicate PastDeadline(o: Order, now: int) {
    || (o.status == Published && o.claimDeadline <= now)
    || (o.status == Taken && o.deliverDeadline.Some? && o.deliverDeadline.value <= now)
  }

  lemma OverdueMeansPastDeadline(db: Db, id: int)
    ensures (exists kind :: id in Overdue(kind, db)) <==> id in db.orders && PastDeadline(db.orders[id], db.now)
  {
    if id in db.orders && PastDeadline(db.orders[id], db.now) {
      assert id in Overdue(Claims, db) || id in Overdue(Deliveries, db);
    }
  }

  lemma NothingOverdue(db: Db)
    ensures (forall kind :: Overdue(kind, db) == {})
            <==> forall id :: id in db.orders ==> !PastDeadline(db.orders[id], db.now)
  {
    hide PastDeadline;
    forall id ensures (exists kind :: id in Overdue(kind, db))
        <==> id in db.orders && PastDeadline(db.orders[id], db.now) {
      OverdueMeansPastDeadline(db, id);
    }
    forall kind | forall id ::
        id in db.orders ==> !PastDeadline(db.orders[id], db.now) ensures Overdue(kind, db) == {} {
      assert forall id :: id !in Overdue(kind, db);
    }
  }

  /** Repeated scans reach a state with no overdue open order, after one scan for every 500 of the larger set. */
  lemma {:induction false} ScansFinish(cfg: Config, states: seq<Db>)
    requires states != [] && Inv(cfg, states[0])
    requires forall i :: 0 <= i < |states| - 1 ==> OneScan(states[i], states[i + 1])
    requires forall kind :: |Overdue(kind, states[0])| <= (|states| - 1) * SCAN_LIMIT
    ensures var last := states[|states| - 1];
            Inv(cfg, last) && last.now == states[0].now && forall kind :: Overdue(kind, last) == {}
    ensures var last := states[|states| - 1];
            forall id :: id in last.orders ==> !PastDeadline(last.orders[id], last.now)
  {
    hide Inv, OneScan, Overdue;
    if |states| > 1 {
      assert OneScan(states[0], states[1]);
      ScanShrinks(cfg, states[0], states[1]);
      forall i | 0 <= i < |states[1..]| - 1 ensures OneScan(states[1..][i], states[1..][i + 1]) {
        assert OneScan(states[i + 1], states[i + 1 + 1]);
      }
      ScansFinish(cfg, states[1..]);
    }
    NothingOverdue(states[|states| - 1]);
  }
}
