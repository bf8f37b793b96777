/** Retrying the settlement of delivered orders: the job, and the budget of failed attempts over a run. */
module SettleRetry {
  import opened Model
  import opened CommissionMath
  import opened OrderSpec
  import opened Invariants
  import opened OrderSteps
  import opened OrderTheorems
  import opened OrderAnswers
  import opened Runs
  import opened Store
  import opened OrderServices
  import opened Paging

  const RETRY_LIMIT := 100

  // ---- the job ----

  function DueIds(db: Db): set<int> { set id | id in db.orders && DueForRetry(db.orders[id], db.now) }

  /** One order of the page: `queried` is the database its retry count was read from. */
  function RetryOne(db: Db, cfg: Config, queried: Db, id: int, rolledBack: bool, appNow: int): Db
    requires id in queried.orders
  {
    var settled := Settlement(db, cfg, id);
    if settled.Commit? && !rolledBack then settled.db else RetryFailed(db, id, queried.orders[id].retryCount, appNow)
  }

  /** The clock is read again for each order. */
  function RetryAll(db: Db, cfg: Config, queried: Db, page: seq<int>, rolledBack: set<int>, clock: int -> int): Db
    requires forall i :: 0 <= i < |page| ==> page[i] in queried.orders
    decreases |page|
  {
    if page == [] then db
    else RetryAll(RetryOne(db, cfg, queried, page[0], page[0] in rolledBack, clock(page[0])), cfg, queried, page[1..],
                  rolledBack, clock)
  }

  class SettleRetryJob {
    const settlement: SettlementService

    constructor (settlement: SettlementService)
      ensures this.settlement == settlement
    {
      this.settlement := settlement;
    }

    /** `rolledBack` names the orders whose attempt the database itself aborts, `clock` is the application's time at
        each order. */
    method Retry(rolledBack: set<int>, clock: int -> int) returns (page: seq<int>)
      modifies settlement.db
      ensures IsPage(page, DueIds(old(settlement.db.tables)), 100)
      ensures settlement.db.tables ==
              RetryAll(old(settlement.db.tables), settlement.cfg, old(settlement.db.tables), page, rolledBack, clock)
    {
      var db, cfg := settlement.db, settlement.cfg;
      var queried := db.tables;
      page := SelectPage(DueIds(queried), RETRY_LIMIT);
      var i := 0;
      while i < |page|
        invariant 0 <= i <= |page|
        invariant RetryAll(db.tables, cfg, queried, page[i..], rolledBack, clock)
                  == RetryAll(queried, cfg, queried, page, rolledBack, clock)
      {
        hide RetryOne;
        assert page[i..][1..] == page[i + 1..];
        RetryStep(page[i], queried, page[i] in rolledBack, clock(page[i]));
        i := i + 1;
      }
    }

    method RetryStep(id: int, queried: Db, rolledBack: bool, appNow: int)
      requires id in queried.orders
      modifies settlement.db
      ensures settlement.db.tables
              == RetryOne(old(settlement.db.tables), settlement.cfg, queried, id, rolledBack, appNow)
    {
      hide Settlement, RecordSettlementFailure, MarkSettlementDead, Backoff;
      var settled := Failed(DuplicateKey);
      if !rolledBack { settled := settlement.Settle(id); }
      if settled.Failed? {
        var retry := queried.orders[id].retryCount + 1;
        if retry >= MAX_SETTLE_RETRIES {
          settlement.db.MarkDead(id);
        } else {
          settlement.db.RecordFailure(id, retry, appNow + 1000 * Backoff(retry));
        }
      }
    }
  }

  /** Every step of the job is a step of the system that reads the queried snapshot. */
  lemma RetryOneIsAStep(db: Db, cfg: Config, queried: Db, id: int, rolledBack: bool, appNow: int)
    requires id in DueIds(queried)
    ensures RetryOne(db, cfg, queried, id, rolledBack, appNow) ==
            Exec(cfg, db, queried, if Settlement(db, cfg, id).Commit? && !rolledBack then DoSettle(id)
                 else JobFailed(id, appNow))
  {
    hide Settlement, RetryFailed;
  }

  /** So is the second transaction of a delivery: settled, or its failure recorded with count 1. */
  lemma AfterDeliveryIsAStep(db: Db, cfg: Config, id: int, rolledBack: bool, appNow: int)
    ensures AfterDelivery(db, cfg, id, rolledBack, appNow) ==
            Exec(cfg, db, db, if Settlement(db, cfg, id).Commit? && !rolledBack then DoSettle(id)
                 else DeliverFailed(id, appNow))
  {
    hide Settlement, RecordSettlementFailure;
  }

  predicate Usable(cfg: Config, db: Db) {
    IsPlatform(cfg, db.users, cfg.platform) && 0 <= Numerator(cfg.rate) <= Denominator(cfg.rate)
  }

  function PaidOut(cfg: Config, o: Order): Order {
    SettledWith(o, if Commission(o.reward, cfg.rate).Some? then Commission(o.reward, cfg.rate).value else 0)
  }

  lemma OneSettles(cfg: Config, db: Db, queried: Db, id: int, appNow: int)
    requires Inv(cfg, db) && Usable(cfg, db) && id in queried.orders
    requires id in db.orders && db.orders[id].status.Delivered?
    ensures var db' := RetryOne(db, cfg, queried, id, false, appNow);
            && Inv(cfg, db') && Usable(cfg, db')
            && db'.orders == db.orders[id := PaidOut(cfg, db.orders[id])]
  {
    hide Inv, Settlement, PayOut, Commission;
    OrderIsOk(cfg, db, id);
    SettlementOutcome(cfg, db, id);
    SettlementKeeps(cfg, db, id);
    PayOutChanges(db, cfg, id, db.orders[id], Commission(db.orders[id].reward, cfg.rate).value);
  }

  lemma PayOutChanges(db: Db, cfg: Config, id: int, o: Order, commission: int)
    requires o.taker.Some?
    ensures PayOut(db, cfg, id, o, commission).orders == db.orders[id := SettledWith(o, commission)]
    ensures PayOut(db, cfg, id, o, commission).users == db.users
  {}

  /** With a usable rate and platform user, a pass without rollbacks settles its whole page and touches no other
      order. */
  lemma {:induction false} PassSettlesPage(cfg: Config, db: Db, queried: Db, page: seq<int>, clock: int -> int)
    requires Inv(cfg, db) && Usable(cfg, db)
    requires forall i :: 0 <= i < |page|
                         ==> page[i] in queried.orders && page[i] in db.orders && db.orders[page[i]].status.Delivered?
    requires forall i, j :: 0 <= i < j < |page| ==> page[i] != page[j]
    ensures var db' := RetryAll(db, cfg, queried, page, {}, clock);
            && Inv(cfg, db') && db'.orders.Keys == db.orders.Keys
            && forall id :: id in db.orders
                            ==> db'.orders[id] == (if id in page then PaidOut(cfg, db.orders[id]) else db.orders[id])
    decreases |page|
  {
    hide Inv, Usable, RetryOne, PaidOut;
    if page != [] {
      OneSettles(cfg, db, queried, page[0], clock(page[0]));
      PassSettlesPage(cfg, RetryOne(db, cfg, queried, page[0], false, clock(page[0])), queried, page[1..], clock);
    }
  }

  // ---- repeated passes ----

  ghost predicate OnePass(cfg: Config, db: Db, db': Db) {
    exists page, clock :: IsPage(page, DueIds(db), RETRY_LIMIT) && db' == RetryAll(db, cfg, db, page, {}, clock)
  }

  function Left(n: nat): nat { if n < RETRY_LIMIT then 0 else n - RETRY_LIMIT }

  lemma {:induction false} PassKeepsClock(cfg: Config, db: Db, queried: Db, page: seq<int>, clock: int -> int)
    requires forall i :: 0 <= i < |page| ==> page[i] in queried.orders
    ensures var db' := RetryAll(db, cfg, queried, page, {}, clock); db'.now == db.now && db'.users == db.users
    decreases |page|
  {
    if page != [] {
      AttemptKeepsClock(cfg, db, queried, page[0], clock(page[0]));
      hide RetryOne;
      PassKeepsClock(cfg, RetryOne(db, cfg, queried, page[0], false, clock(page[0])), queried, page[1..], clock);
    }
  }

  lemma AttemptKeepsClock(cfg: Config, db: Db, queried: Db, id: int, appNow: int)
    requires id in queried.orders
    ensures var db' := RetryOne(db, cfg, queried, id, false, appNow); db'.now == db.now && db'.users == db.users
  {
    hide Settlement, RetryFailed;
    SettlementKeepsClock(cfg, db, id);
    FailureKeepsClock(db, id, queried.orders[id].retryCount, appNow);
  }

  lemma {:induction false} FailureKeepsClock(db: Db, id: int, seen: nat, appNow: int)
    ensures var db' := RetryFailed(db, id, seen, appNow); db'.now == db.now && db'.users == db.users
  {
    hide Backoff, RecordSettlementFailure, MarkSettlementDead;
    DeadKeepsClock(db, id);
    RecordKeepsClock(db, id, seen + 1, appNow + 1000 * Backoff(seen + 1));
  }

  lemma DeadKeepsClock(db: Db, id: int)
    ensures var db' := MarkSettlementDead(db, id); db'.now == db.now && db'.users == db.users
  {}

  lemma RecordKeepsClock(db: Db, id: int, count: nat, next: int)
    ensures var db' := RecordSettlementFailure(db, id, count, next); db'.now == db.now && db'.users == db.users
  {}

  lemma SettlementKeepsClock(cfg: Config, db: Db, id: int)
    ensures var db' := Settlement(db, cfg, id).After(db); db'.now == db.now && db'.users == db.users
  {
    hide EnsureAccounts, Post, Free, CanDebit, Commission, EscrowKey, EarningKey, CommissionKey;
  }

  /** With usable settings and at a frozen clock each pass takes exactly min(100, size) orders out of the due set. */
  lemma PassShrinks(cfg: Config, db: Db, db': Db)
    requires Inv(cfg, db) && Usable(cfg, db) && OnePass(cfg, db, db')
    ensures Inv(cfg, db') && Usable(cfg, db') && db'.now == db.now && |DueIds(db')| == Left(|DueIds(db)|)
  {
    hide Inv, Usable, RetryAll, PaidOut;
    var page, clock :| IsPage(page, DueIds(db), RETRY_LIMIT) && db' == RetryAll(db, cfg, db, page, {}, clock);
    PageIsDue(db, page);
    PassSettlesPage(cfg, db, db, page, clock);
    PassKeepsClock(cfg, db, db, page, clock);
    SameUsersUsable(cfg, db, db');
    forall id ensures id in DueIds(db') <==> id in DueIds(db) - Elements(page) {
      if id in db.orders.Keys && id in page { PaidOutIsSettled(cfg, db.orders[id]); }
    }
    assert DueIds(db') == DueIds(db) - Elements(page);
    WithoutPage(page, DueIds(db), RETRY_LIMIT);
  }

  lemma PageIsDue(db: Db, page: seq<int>)
    requires IsPage(page, DueIds(db), RETRY_LIMIT)
    ensures forall i :: 0 <= i < |page| ==> page[i] in db.orders && db.orders[page[i]].status.Delivered?
    ensures forall i, j :: 0 <= i < j < |page| ==> page[i] != page[j]
    ensures forall id :: id in page <==> id in Elements(page)
  {
    forall i | 0 <= i < |page| ensures page[i] in db.orders && db.orders[page[i]].status.Delivered? {
      assert page[i] in DueIds(db);
      assert DueForRetry(db.orders[page[i]], db.now);
    }
  }

  lemma SameUsersUsable(cfg: Config, db: Db, db': Db)
    requires Usable(cfg, db) && db'.users == db.users
    ensures Usable(cfg, db')
  {}

  lemma PaidOutIsSettled(cfg: Config, o: Order)
    ensures PaidOut(cfg, o).status.Settled?
  {}

  lemma DueIsSeen(db: Db, id: int)
    ensures id in DueIds(db) <==> id in db.orders && SeenDue(db.orders[id], db.now)
  {}

  lemma NothingDue(db: Db)
    ensures DueIds(db) == {} <==> forall id :: id in db.orders ==> !SeenDue(db.orders[id], db.now)
  {
    hide SeenDue;
    forall id ensures id in DueIds(db) <==> id in db.orders && SeenDue(db.orders[id], db.now) { DueIsSeen(db, id); }
    if forall id :: id in db.orders ==> !SeenDue(db.orders[id], db.now) {
      assert forall id :: id !in DueIds(db);
    }
  }

  /** Repeated passes leave no order due, after one pass for every 100 of them. */
  lemma {:induction false} PassesFinish(cfg: Config, states: seq<Db>)
    requires states != [] && Inv(cfg, states[0]) && Usable(cfg, states[0])
    requires forall i :: 0 <= i < |states| - 1 ==> OnePass(cfg, states[i], states[i + 1])
    requires |DueIds(states[0])| <= (|states| - 1) * RETRY_LIMIT
    ensures var last := states[|states| - 1]; Inv(cfg, last) && last.now == states[0].now && DueIds(last) == {}
    ensures var last := states[|states| - 1]; forall id :: id in last.orders ==> !SeenDue(last.orders[id], last.now)
  {
    hide Inv, Usable, OnePass, DueIds;
    if |states| > 1 {
      assert OnePass(cfg, states[0], states[1]);
      PassShrinks(cfg, states[0], states[1]);
      forall i | 0 <= i < |states[1..]| - 1 ensures OnePass(cfg, states[1..][i], states[1..][i + 1]) {
        assert OnePass(cfg, states[i + 1], states[i + 1 + 1]);
      }
      PassesFinish(cfg, states[1..]);
    }
    NothingDue(states[|states| - 1]);
  }
}
