/** The reconciliation report: five aggregate queries over the tables, run from outside the transactions. */
module Recon {
  import opened Model
  import opened Sums
  import opened Books
  import opened Invariants
  import opened Timeouts

  datatype Report = Report(ledgerSumsToZero: bool, balancesMatchLedger: bool, escrowMatchesOrders: bool,
                           onlyMintNegative: bool, noOverdueOrder: bool)
  {
    predicate Passed() {
      ledgerSumsToZero && balancesMatchLedger && escrowMatchesOrders && onlyMintNegative && noOverdueOrder
    }
  }

  ghost function Mismatched(accounts: map<Account, int>, ledger: map<LedgerKey, int>): set<Account> {
    set a | a in accounts && accounts[a] != SumBy(ledger, OnAccount(a))
  }

  function IllegalNegatives(db: Db): set<Account> {
    set a | a in db.accounts && a.user in db.users && !db.users[a.user].MintRole? && db.accounts[a] < 0
  }

  function OverdueOrders(db: Db): set<int> { Overdue(Claims, db) + Overdue(Deliveries, db) }

  ghost function Verdict(db: Db): Report {
    Report(LedgerTotal(db.ledger) == 0,
           Mismatched(db.accounts, db.ledger) == {},
           FrozenTotal(db.accounts) == SumBy(db.orders, OpenReward()),
           IllegalNegatives(db) == {},
           OverdueOrders(db) == {})
  }

  // ---- the queries ----

  /** SUM(...), 0 over no rows. */
  method Total<K(==), V>(t: map<K, V>, f: (K, V) -> int) returns (total: int)
    ensures total == SumBy(t, f)
  {
    total := 0;
    var rest := t;
    while rest != map[]
      invariant total + SumBy(rest, f) == SumBy(t, f)
      decreases |rest|
    {
      var k :| k in rest;
      SumByTakeOut(rest, k, f);
      total, rest := total + f(k, rest[k]), rest - {k};
    }
  }

  method CountMismatches(accounts: map<Account, int>, ledger: map<LedgerKey, int>) returns (n: nat)
    ensures n == |Mismatched(accounts, ledger)|
  {
    n := 0;
    var rest := accounts;
    ghost var seen: set<Account> := {};
    while rest != map[]
      invariant forall a :: a in accounts <==> a in rest || a in seen
      invariant forall a :: a in rest ==> a !in seen && rest[a] == accounts[a]
      invariant n == |set a | a in Mismatched(accounts, ledger) && a in seen|
      decreases |rest|
    {
      var a :| a in rest;
      ghost var before := set b | b in Mismatched(accounts, ledger) && b in seen;
      seen := seen + {a};
      ghost var after := set b | b in Mismatched(accounts, ledger) && b in seen;
      var total := Total(ledger, OnAccount(a));
      if rest[a] != total {
        n := n + 1;
        assert after == before + {a};
      } else {
        assert after == before;
      }
      rest := rest - {a};
    }
    assert (set a | a in Mismatched(accounts, ledger) && a in seen) == Mismatched(accounts, ledger);
  }

  class ReconService {
    var failures: nat
    var lastSuccess: int
    var reports: seq<Report>

    constructor ()
      ensures failures == 0 && lastSuccess == 0 && reports == []
    {
      failures, lastSuccess, reports := 0, 0, [];
    }

    method Run(db: Db, appMillis: nat) returns (report: Report)
      modifies this
      ensures report == Verdict(db) && reports == old(reports) + [report]
      ensures failures == old(failures) + if report.Passed() then 0 else 1
      ensures lastSuccess == if report.Passed() then appMillis / 1000 else old(lastSuccess)
    {
      var ledgerTotal := Total(db.ledger, EveryRow());
      var mismatches := CountMismatches(db.accounts, db.ledger);
      var frozen := Total(db.accounts, FrozenPart());
      var open := Total(db.orders, OpenReward());
      report := Report(ledgerTotal == 0, mismatches == 0, frozen == open, |IllegalNegatives(db)| == 0,
                       |OverdueOrders(db)| == 0);
      if report.Passed() { lastSuccess := appMillis / 1000; } else { failures := failures + 1; }
      reports := reports + [report];
    }
  }

  // ---- what the report can say ----

  /** In every reachable state the four money checks hold, so a report fails exactly when an open order is overdue;
      and all balances together, the treasury's included, are zero. */
  lemma ReportOfReachableState(cfg: Config, db: Db)
    requires Inv(cfg, db)
    ensures Verdict(db) == Report(true, true, true, true, forall kind :: Overdue(kind, db) == {})
    ensures Verdict(db).Passed() <==> forall id :: id in db.orders ==> !PastDeadline(db.orders[id], db.now)
    ensures AccountTotal(db.accounts) == 0
  {
    NothingOverdue(db);
    hide SumBy, ClosedForms, OrderRows, RechargeRows, RefundRows, CompensationRows, OrdersOk, EventsOk, SettleKeysOk,
         RechargesOk, PaymentsOk, RefundsOk, DisputesOk, NotesOk, Overdue;
    assert OverdueOrders(db) == {} <==> forall kind :: Overdue(kind, db) == {} by {
      forall kind ensures Overdue(kind, db) <= OverdueOrders(db) { match kind case Claims => case Deliveries => }
    }
  }

  /** A balance changed behind the ledger's back is reported, as the one account that disagrees. */
  lemma TamperedBalanceIsReported(cfg: Config, db: Db, a: Account, delta: int)
    requires Inv(cfg, db) && a in db.accounts && delta != 0
    ensures Mismatched(db.accounts[a := db.accounts[a] + delta], db.ledger) == {a}
  {
    hide SumBy, ClosedForms, OrderRows, RechargeRows, RefundRows, CompensationRows, OrdersOk, EventsOk, SettleKeysOk,
         RechargesOk, PaymentsOk, RefundsOk, DisputesOk, NotesOk;
  }

  /** A ledger row changed afterwards breaks the zero sum and its own account's balance, and no other. */
  lemma TamperedLedgerIsReported(cfg: Config, db: Db, k: LedgerKey, delta: int)
    requires Inv(cfg, db) && k in db.ledger && delta != 0
    ensures var ledger := db.ledger[k := db.ledger[k] + delta];
            LedgerTotal(ledger) == delta && Mismatched(db.accounts, ledger) == {AccountOf(k)}
  {
    hide SumBy, ClosedForms, OrderRows, RechargeRows, RefundRows, CompensationRows, OrdersOk, EventsOk, SettleKeysOk,
         RechargesOk, PaymentsOk, RefundsOk, DisputesOk, NotesOk;
    var ledger := db.ledger[k := db.ledger[k] + delta];
    SumByUpdate(db.ledger, k, db.ledger[k] + delta, EveryRow());
    forall a | a in db.accounts
        ensures SumBy(ledger, OnAccount(a)) == SumBy(db.ledger, OnAccount(a)) + if a == AccountOf(k) then delta else 0 {
      SumByUpdate(db.ledger, k, db.ledger[k] + delta, OnAccount(a));
    }
  }

  /** In a reachable state a balance set to another value fails the report: the account disagrees with its rows, an
      escrow account breaks the match with the orders, and a negative value is reported unless the account is the
      treasury's. */
  lemma ReportOfTamperedBalance(cfg: Config, db: Db, a: Account, balance: int)
    requires Inv(cfg, db) && a in db.accounts && balance != db.accounts[a]
    ensures var bad := db.(accounts := db.accounts[a := balance]);
            && !Verdict(bad).Passed() && Verdict(bad).ledgerSumsToZero && !Verdict(bad).balancesMatchLedger
            && (Verdict(bad).escrowMatchesOrders <==> a.kind == Available)
            && IllegalNegatives(bad) == (if balance < 0 && a.user != MINT_ID then {a} else {})
            && (Verdict(bad).onlyMintNegative <==> balance >= 0 || a.user == MINT_ID)
  {
    hide SumBy, ClosedForms, OrderRows, RechargeRows, RefundRows, CompensationRows, OrdersOk, EventsOk, SettleKeysOk,
         RechargesOk, PaymentsOk, RefundsOk, DisputesOk, NotesOk, OverdueOrders;
    TamperedBalanceIsReported(cfg, db, a, balance - db.accounts[a]);
    SumByUpdate(db.accounts, a, balance, FrozenPart());
  }

  /** And a changed ledger row fails both the zero sum and the balances. */
  lemma ReportOfTamperedLedger(cfg: Config, db: Db, k: LedgerKey, amount: int)
    requires Inv(cfg, db) && k in db.ledger && amount != db.ledger[k]
    ensures var report := Verdict(db.(ledger := db.ledger[k := amount]));
            !report.Passed() && !report.ledgerSumsToZero && !report.balancesMatchLedger && report.escrowMatchesOrders
                && report.onlyMintNegative
  {
    hide SumBy, ClosedForms, OrderRows, RechargeRows, RefundRows, CompensationRows, OrdersOk, EventsOk, SettleKeysOk,
         RechargesOk, PaymentsOk, RefundsOk, DisputesOk, NotesOk, OverdueOrders;
    TamperedLedgerIsReported(cfg, db, k, amount - db.ledger[k]);
  }

  /** An order row changed afterwards fails the escrow check exactly if the escrow it asks for changes. */
  lemma ReportOfTamperedOrder(cfg: Config, db: Db, id: int, o: Order)
    requires Inv(cfg, db) && id in db.orders
    ensures var was := db.orders[id];
            var before, after := if was.status == Published || was.status == Taken || was.status == Delivered
                then was.reward else 0,
                                 if o.status == Published || o.status == Taken || o.status == Delivered then o.reward
                                     else 0;
            var report := Verdict(db.(orders := db.orders[id := o]));
            && report.ledgerSumsToZero && report.balancesMatchLedger && report.onlyMintNegative
            && (report.escrowMatchesOrders <==> before == after) && (report.Passed() ==> before == after)
  {
    hide SumBy, ClosedForms, OrderRows, RechargeRows, RefundRows, CompensationRows, OrdersOk, EventsOk, SettleKeysOk,
         RechargesOk, PaymentsOk, RefundsOk, DisputesOk, NotesOk, OverdueOrders;
    SumByUpdate(db.orders, id, o, OpenReward());
  }

  /** Two rows posted by hand with their balances agree account by account; what shows is a sum other than zero and an
      overdrawn account, each by its own check. */
  lemma ReportOfForgedRows(cfg: Config, db: Db, j: LedgerKey, k: LedgerKey, x: int, y: int)
    requires Inv(cfg, db) && j !in db.ledger && k !in db.ledger && AccountOf(j) != AccountOf(k)
    requires AccountOf(j) in db.accounts && AccountOf(k) in db.accounts && j.kind == Available && k.kind == Available
    ensures var a, b := db.accounts[AccountOf(j)] + x, db.accounts[AccountOf(k)] + y;
            var bad := db.(accounts := db.accounts[AccountOf(j) := a][AccountOf(k) := b], ledger := db.ledger[j := x]
                [k := y]);
            var report := Verdict(bad);
            && report.balancesMatchLedger && report.escrowMatchesOrders && (report.ledgerSumsToZero <==> x + y == 0)
            && (report.onlyMintNegative <==> (a >= 0 || j.user == MINT_ID) && (b >= 0 || k.user == MINT_ID))
            && (report.Passed() ==> report.ledgerSumsToZero && report.onlyMintNegative)
  {
    hide SumBy, ClosedForms, OrderRows, RechargeRows, RefundRows, CompensationRows, OrdersOk, EventsOk, SettleKeysOk,
         RechargesOk, PaymentsOk, RefundsOk, DisputesOk, NotesOk, OverdueOrders, UsersOk, NoOverdraft, IllegalNegatives;
    var a, b := db.accounts[AccountOf(j)] + x, db.accounts[AccountOf(k)] + y;
    var bad := db.(accounts := db.accounts[AccountOf(j) := a][AccountOf(k) := b], ledger := db.ledger[j := x][k := y]);
    assert Post(Post(db, j, x), k, y) == bad;
    PostKeepsBooks(db, j, x);
    PostKeepsBooks(Post(db, j, x), k, y);
    hide BooksAgree, Post, LedgerTotal, FrozenTotal;
    AgreementMeansNoMismatch(bad);
    OverdrawnMeansReported(cfg, db, bad, AccountOf(j), AccountOf(k));
  }

  lemma AgreementMeansNoMismatch(db: Db)
    requires BooksAgree(db.accounts, db.ledger)
    ensures Mismatched(db.accounts, db.ledger) == {}
  {}

  lemma OverdrawnMeansReported(cfg: Config, db: Db, bad: Db, a: Account, b: Account)
    requires Inv(cfg, db) && a in db.accounts && b in db.accounts && bad.users == db.users
    requires a in bad.accounts && b in bad.accounts
             && bad.accounts == db.accounts[a := bad.accounts[a]][b := bad.accounts[b]]
    ensures IllegalNegatives(bad) == {} <==>
            (bad.accounts[a] >= 0 || a.user == MINT_ID) && (bad.accounts[b] >= 0 || b.user == MINT_ID)
  {
    hide SumBy, TotalsOk, ClosedForms, OrderRows, RechargeRows, RefundRows, CompensationRows, OrdersOk, EventsOk,
         SettleKeysOk, RechargesOk, PaymentsOk, RefundsOk, DisputesOk, NotesOk;
    assert a in IllegalNegatives(bad) <==> bad.accounts[a] < 0 && a.user != MINT_ID;
    assert b in IllegalNegatives(bad) <==> bad.accounts[b] < 0 && b.user != MINT_ID;
    assert forall c :: c in IllegalNegatives(bad) ==> c == a || c == b;
  }
}
