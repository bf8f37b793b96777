/** What every run does to one order: one winner, one money path, one end. */
module OrderTheorems {
  import opened Model
  import opened Books
  import opened CommissionMath
  import opened OrderSpec
  import opened Invariants
  import opened OrderSteps
  import opened Runs

  // ---- the ledger rows of one order ----

  function FreezeRows(o: Order, id: int): set<LedgerKey> {
    {LedgerKey(Freeze, id, o.publisher, Available), LedgerKey(Freeze, id, o.publisher, Frozen)}
  }
  function CancelRows(o: Order, id: int): set<LedgerKey> {
    if o.status.Cancelled? then {LedgerKey(Cancel, id, o.publisher, Frozen),
        LedgerKey(Cancel, id, o.publisher, Available)} else {}
  }
  function SettleRows(cfg: Config, o: Order, id: int): set<LedgerKey> {
    if o.status.Settled? && o.taker.Some? then {EscrowKey(o, id), EarningKey(o, id), CommissionKey(cfg, id)} else {}
  }

  ghost predicate Demanded(cfg: Config, db: Db, id: int) {
    && id in db.orders && OrderOk(cfg, db.users, db.orders[id])
    && forall k: LedgerKey :: OrderBiz(k.biz) && k.bizId == id
                              ==> (k in db.ledger <==> OrderRow(cfg, db.orders[id], k).Some?)
  }

  lemma InvDemands(cfg: Config, db: Db, id: int)
    requires Inv(cfg, db) && id in db.orders
    ensures Demanded(cfg, db, id)
  {
    hide UsersOk, NoOverdraft, TotalsOk, ClosedForms, RechargeRows, RefundRows, CompensationRows,
         OrdersOk, EventsOk, SettleKeysOk, RechargesOk, PaymentsOk, RefundsOk, DisputesOk, NotesOk;
    OrderIsOk(cfg, db, id);
    forall k: LedgerKey | OrderBiz(k.biz) && k.bizId == id ensures k in db.ledger
        <==> OrderRow(cfg, db.orders[id], k).Some? {
      assert RowAt(db.ledger, k) == OrderRow(cfg, db.orders[id], k);
    }
  }

  /** Two FREEZE rows for every order, two CANCEL rows iff it was cancelled, three SETTLE rows iff it was settled. */
  lemma OneMoneyPath(cfg: Config, db: Db, id: int)
    requires Inv(cfg, db) && id in db.orders
    ensures var o := db.orders[id];
            && LedgerRows(db.ledger, Freeze, id) == FreezeRows(o, id) && |LedgerRows(db.ledger, Freeze, id)| == 2
            && LedgerRows(db.ledger, Cancel, id) == CancelRows(o, id)
               && |LedgerRows(db.ledger, Cancel, id)| == (if o.status.Cancelled? then 2 else 0)
            && LedgerRows(db.ledger, Settle, id) == SettleRows(cfg, o, id)
               && |LedgerRows(db.ledger, Settle, id)| == (if o.status.Settled? then 3 else 0)
  {
    InvDemands(cfg, db, id);
    hide Inv, Demanded, LedgerRows, FreezeRows, CancelRows, SettleRows;
    FreezeRowsAre(cfg, db, id);
    CancelRowsAre(cfg, db, id);
    SettleRowsAre(cfg, db, id);
  }

  /** In every run the outbox has an ORDER_PUBLISHED event for each order, an ORDER_TAKEN event iff it has a taker, an
      ORDER_TERMINAL event iff it ended, and the key SETTLE:ORDER:id is used iff the order is settled. */
  lemma KeysFollowStatus(cfg: Config, tr: seq<Db>, evs: seq<Event>, n: nat, id: int)
    requires Run(cfg.platform, tr, evs) && n < |tr|
    ensures var db := tr[n];
            && (OrderPublished(id) in db.events <==> id in db.orders)
            && (OrderTaken(id) in db.events <==> id in db.orders && db.orders[id].taker.Some?)
            && (OrderTerminal(id) in db.events <==> id in db.orders && db.orders[id].Terminal())
            && (SettleOp(id) in db.idem <==> id in db.orders && db.orders[id].status.Settled?)
  {
    RunKeepsInv(cfg, tr, evs, n);
    hide Run, UsersOk, NoOverdraft, TotalsOk, ClosedForms, OrderRows, RechargeRows, RefundRows, CompensationRows,
         OrdersOk, RechargesOk, PaymentsOk, RefundsOk, DisputesOk, NotesOk;
  }

  lemma FreezeRowsAre(cfg: Config, db: Db, id: int)
    requires Demanded(cfg, db, id)
    ensures LedgerRows(db.ledger, Freeze, id) == FreezeRows(db.orders[id], id)
            && |LedgerRows(db.ledger, Freeze, id)| == 2
  {
    forall k: LedgerKey ensures k in LedgerRows(db.ledger, Freeze, id) <==> k in FreezeRows(db.orders[id], id) {
      match k.kind case Available => case Frozen =>
    }
  }

  lemma CancelRowsAre(cfg: Config, db: Db, id: int)
    requires Demanded(cfg, db, id)
    ensures LedgerRows(db.ledger, Cancel, id) == CancelRows(db.orders[id], id)
    ensures |LedgerRows(db.ledger, Cancel, id)| == if db.orders[id].status.Cancelled? then 2 else 0
  {
    forall k: LedgerKey ensures k in LedgerRows(db.ledger, Cancel, id) <==> k in CancelRows(db.orders[id], id) {
      match k.kind case Available => case Frozen =>
    }
  }

  lemma SettleRowsAre(cfg: Config, db: Db, id: int)
    requires Demanded(cfg, db, id)
    ensures LedgerRows(db.ledger, Settle, id) == SettleRows(cfg, db.orders[id], id)
    ensures |LedgerRows(db.ledger, Settle, id)| == if db.orders[id].status.Settled? then 3 else 0
  {
    forall k: LedgerKey ensures k in LedgerRows(db.ledger, Settle, id) <==> k in SettleRows(cfg, db.orders[id], id) {
      match k.kind case Available => case Frozen =>
    }
  }

  // ---- guards that never fire ----

  lemma FreshOrderKeys(cfg: Config, db: Db, id: int)
    requires Inv(cfg, db) && id !in db.orders
    ensures OrderPublished(id) !in db.events
    ensures forall k: LedgerKey :: k.biz.Freeze? && k.bizId == id ==> k !in db.ledger
  {
    hide UsersOk, NoOverdraft, TotalsOk, ClosedForms, RechargeRows, RefundRows, CompensationRows,
         OrdersOk, SettleKeysOk, RechargesOk, PaymentsOk, RefundsOk, DisputesOk, NotesOk;
    forall k: LedgerKey | k.biz.Freeze? && k.bizId == id ensures k !in db.ledger {
      assert RowAt(db.ledger, k) == None;
    }
  }

  lemma OpenOrderKeys(cfg: Config, db: Db, id: int)
    requires Inv(cfg, db) && id in db.orders && db.orders[id].Open()
    ensures OrderTerminal(id) !in db.events && SettleOp(id) !in db.idem
    ensures db.orders[id].taker.None? ==> OrderTaken(id) !in db.events
    ensures forall k: LedgerKey :: (k.biz.Cancel? || k.biz.Settle?) && k.bizId == id ==> k !in db.ledger
    ensures CanDebit(db, Account(db.orders[id].publisher, Frozen), db.orders[id].reward)
    ensures OrderOk(cfg, db.users, db.orders[id])
  {
    hide UsersOk, NoOverdraft, TotalsOk, ClosedForms, RechargeRows, RefundRows, CompensationRows, OrderRows,
         OrdersOk, RechargesOk, PaymentsOk, RefundsOk, DisputesOk, NotesOk, OrderOk, CanDebit;
    EscrowCoversOpenOrder(cfg, db, id);
    InvDemands(cfg, db, id);
  }

  /** A create with a fresh id fails only for a reason it reports to its caller: no unique key can clash. */
  lemma CreateOutcome(cfg: Config, db: Db, id: int, publisher: int, reward: int, ttl: Option<int>)
    requires Inv(cfg, db) && id !in db.orders
    ensures Create(db, cfg, id, publisher, reward, ttl).Commit? <==>
            IsBusinessUser(db.users, publisher) && reward > 0 && 0 < ClaimTtl(cfg, ttl) <= 86400
            && CanDebit(db, Account(publisher, Available), reward)
  {
    hide Inv, Publish;
    FreshOrderKeys(cfg, db, id);
    AccountsOfUsers(cfg, db);
    EnsureAccountsIsIdle(db, publisher);
  }

  /** The grab commits exactly when the plain compare-and-set of the database would: its outbox insert never clashes. */
  lemma GrabOutcome(cfg: Config, db: Db, id: int, taker: int)
    requires Inv(cfg, db)
    ensures Grab(db, cfg, id, taker).Commit? <==> IsBusinessUser(db.users, taker) && Claimable(db, id, taker)
  {
    hide Inv;
    if id in db.orders && db.orders[id].Open() { OpenOrderKeys(cfg, db, id); }
  }

  /** Cancelling and timing out never find the frozen escrow too low and never meet a used key. */
  lemma ReleaseOutcome(cfg: Config, db: Db, id: int)
    requires Inv(cfg, db) && id in db.orders && (db.orders[id].status.Published? || db.orders[id].status.Taken?)
    ensures Release(db, id) == Commit(GiveBack(db, id, db.orders[id]), true)
  {
    hide Inv, GiveBack;
    OpenOrderKeys(cfg, db, id);
  }

  /** For a delivered order the REPLAY exit, the low-escrow exception and the unique keys are unreachable;
      settlement pays exactly when the configured rate and platform user are usable. */
  lemma SettlementOutcome(cfg: Config, db: Db, id: int)
    requires Inv(cfg, db) && id in db.orders && db.orders[id].status.Delivered?
    ensures var r := Settlement(db, cfg, id);
            if InRange(db.orders[id].reward, cfg.rate) && IsPlatform(cfg, db.users, cfg.platform)
            then r == Commit(PayOut(db, cfg, id, db.orders[id], Commission(db.orders[id].reward, cfg.rate).value), true)
            else r.Abort? && r.error in {RateOutOfRange, NotFound, SystemAccountForbidden}
  {
    hide Inv, PayOut;
    OpenOrderKeys(cfg, db, id);
    AccountsOfUsers(cfg, db);
    EnsureAccountsIsIdle(db, cfg.platform);
  }
}
