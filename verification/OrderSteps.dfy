/** Every order transaction keeps the invariant. */
module OrderSteps {
  import opened Model
  import opened Sums
  import opened Books
  import opened OrderSpec
  import opened Invariants
  import opened CommissionMath

  ghost predicate OrderSumsMove(orders: map<int, Order>, id: int, o: Order, u: int) {
    var orders' := orders[id := o];
    && SumBy(orders', EscrowBy(u))
       == SumBy(orders, EscrowBy(u)) - (if id in orders then Escrow(orders[id], u) else 0) + Escrow(o, u)
    && SumBy(orders', SpentBy(u))
       == SumBy(orders, SpentBy(u)) - (if id in orders then Spent(orders[id], u) else 0) + Spent(o, u)
    && SumBy(orders', EarnedBy(u))
       == SumBy(orders, EarnedBy(u)) - (if id in orders then Earned(orders[id], u) else 0) + Earned(o, u)
  }

  lemma OrderSumsUpdate(orders: map<int, Order>, id: int, o: Order)
    ensures forall u :: OrderSumsMove(orders, id, o, u)
    ensures SumBy(orders[id := o], CommissionOf())
            == SumBy(orders, CommissionOf()) - (if id in orders then CommissionPart(orders[id]) else 0)
            + CommissionPart(o)
    ensures SumBy(orders[id := o], OpenReward()) ==
            SumBy(orders, OpenReward()) - (if id in orders && orders[id].Open() then orders[id].reward else 0)
                + (if o.Open() then o.reward else 0)
  {
    hide SumBy;
    forall u ensures OrderSumsMove(orders, id, o, u) {
      SumByUpdate(orders, id, o, EscrowBy(u));
      SumByUpdate(orders, id, o, SpentBy(u));
      SumByUpdate(orders, id, o, EarnedBy(u));
    }
    SumByUpdate(orders, id, o, CommissionOf());
    SumByUpdate(orders, id, o, OpenReward());
  }

  /** What writing order `o` under `id` adds to the closed form of u's available and frozen balance. */
  function AvailableDelta(cfg: Config, db: Db, id: int, o: Order, u: int): int {
    if u == MINT_ID then 0
    else if IsPlatform(cfg, db.users, u)
        then CommissionPart(o) - (if id in db.orders then CommissionPart(db.orders[id]) else 0)
    else Earned(o, u) - Spent(o, u) - if id in db.orders then Earned(db.orders[id], u) - Spent(db.orders[id], u) else 0
  }

  function EscrowDelta(db: Db, id: int, o: Order, u: int): int {
    Escrow(o, u) - if id in db.orders then Escrow(db.orders[id], u) else 0
  }

  predicate OnlyOrdersAndBooks(db: Db, db': Db, id: int, o: Order) {
    && db'.users == db.users && db'.recharges == db.recharges && db'.payments == db.payments
       && db'.refunds == db.refunds
    && db'.disputes == db.disputes && db'.compensations == db.compensations && db'.notes == db.notes
    && db'.orders == db.orders[id := o]
  }

  predicate AccountsMove(cfg: Config, db: Db, db': Db, id: int, o: Order) {
    forall u :: u in db.users ==>
      var a, f := Account(u, Available), Account(u, Frozen);
      && a in db.accounts && a in db'.accounts && db'.accounts[a] == db.accounts[a] + AvailableDelta(cfg, db, id, o, u)
      && f in db.accounts && f in db'.accounts && db'.accounts[f] == db.accounts[f] + EscrowDelta(db, id, o, u)
  }

  /** If the accounts move by the same amounts as the closed forms, the closed forms still hold. */
  lemma OrderKeepsClosedForms(cfg: Config, db: Db, db': Db, id: int, o: Order)
    requires ClosedForms(cfg, db) && OnlyOrdersAndBooks(db, db', id, o) && AccountsMove(cfg, db, db', id, o)
    ensures ClosedForms(cfg, db')
  {
    hide SumBy;
    OrderSumsUpdate(db.orders, id, o);
    forall u | u in db'.users
      ensures db'.accounts[Account(u, Available)] == AvailableOf(cfg, db', u)
      ensures db'.accounts[Account(u, Frozen)] == SumBy(db'.orders, EscrowBy(u))
    {
      assert OrderSumsMove(db.orders, id, o, u);
    }
  }

  /** A publisher's frozen balance covers each of its open orders, so no escrow debit can fail. */
  lemma EscrowCoversOpenOrder(cfg: Config, db: Db, id: int)
    requires OrdersOk(cfg, db.users, db.orders) && ClosedForms(cfg, db) && id in db.orders && db.orders[id].Open()
    ensures CanDebit(db, Account(db.orders[id].publisher, Frozen), db.orders[id].reward)
  {
    hide SumBy;
    var u := db.orders[id].publisher;
    assert OrderOk(cfg, db.users, db.orders[id]);
    forall j | j in db.orders ensures EscrowBy(u)(j, db.orders[j]) >= 0 {
      assert OrderOk(cfg, db.users, db.orders[j]);
    }
    SumByAtLeast(db.orders, id, EscrowBy(u));
  }

  // ---- tables that a posting for an order leaves alone ----

  lemma PostLeavesOtherRows(ledger: map<LedgerKey, int>, k: LedgerKey, v: int, recharges: map<int, RechargeRow>,
                            refunds: map<int, RefundRow>, compensations: map<string, Compensation>)
    requires OrderBiz(k.biz)
    requires RechargeRows(ledger, recharges) && RefundRows(ledger, refunds) && CompensationRows(ledger, compensations)
    ensures RechargeRows(ledger[k := v], recharges) && RefundRows(ledger[k := v], refunds)
            && CompensationRows(ledger[k := v], compensations)
  {}

  lemma ChangeKeepsUsersOk(users: map<int, Role>, accounts: map<Account, int>, a: Account, delta: int)
    requires UsersOk(users, accounts)
    ensures UsersOk(users, Changed(accounts, a, delta))
  {}

  lemma ChangeKeepsNoOverdraft(accounts: map<Account, int>, a: Account, delta: int)
    requires NoOverdraft(accounts) && (a.user == MINT_ID || delta >= 0 || (a in accounts ==> accounts[a] + delta >= 0))
    ensures NoOverdraft(Changed(accounts, a, delta))
  {}

  lemma PostForOrder(db: Db, k: LedgerKey, v: int)
    requires OrderBiz(k.biz) && UsersOk(db.users, db.accounts)
    requires RechargeRows(db.ledger, db.recharges) && RefundRows(db.ledger, db.refunds)
             && CompensationRows(db.ledger, db.compensations)
    requires NoOverdraft(db.accounts)
             && (k.user == MINT_ID || v >= 0 || (AccountOf(k) in db.accounts ==> db.accounts[AccountOf(k)] + v >= 0))
    ensures var d := Post(db, k, v);
            && UsersOk(d.users, d.accounts) && NoOverdraft(d.accounts)
            && RechargeRows(d.ledger, d.recharges) && RefundRows(d.ledger, d.refunds)
               && CompensationRows(d.ledger, d.compensations)
  {
    hide UsersOk, RechargeRows, RefundRows, CompensationRows, NoOverdraft;
    PostLeavesOtherRows(db.ledger, k, v, db.recharges, db.refunds, db.compensations);
    ChangeKeepsUsersOk(db.users, db.accounts, AccountOf(k), v);
    ChangeKeepsNoOverdraft(db.accounts, AccountOf(k), v);
  }

  lemma OrderUpdateKeepsOrdersOk(cfg: Config, users: map<int, Role>, orders: map<int, Order>, id: int, o: Order)
    requires OrdersOk(cfg, users, orders) && OrderOk(cfg, users, o)
    ensures OrdersOk(cfg, users, orders[id := o])
  {}

  lemma OrderUpdateKeepsSettleKeys(idem: map<OpKey, Fingerprint>, orders: map<int, Order>, id: int, o: Order)
    requires SettleKeysOk(idem, orders) && o.status.Settled? == (id in orders && orders[id].status.Settled?)
    ensures SettleKeysOk(idem, orders[id := o])
  {}

  lemma NewEventKeepsNotes(e: EventKey, notes: set<NoteKey>, events: set<EventKey>, payments: map<int, Payment>,
                           refunds: map<int, RefundRow>, disputes: map<int, Dispute>)
    requires NotesOk(notes, events, payments, refunds, disputes) && !e.Notify?
    ensures NotesOk(notes, events + {e}, payments, refunds, disputes)
  {}

  // ---- publishing ----

  predicate Publishable(db: Db, id: int, o: Order) {
    && IsBusinessUser(db.users, o.publisher) && o.reward > 0 && id !in db.orders
    && o == NewOrder(o.publisher, o.reward, o.claimDeadline)
    && CanDebit(db, Account(o.publisher, Available), o.reward)
    && TransferFree(db, Freeze, id, Account(o.publisher, Available), Account(o.publisher, Frozen))
  }

  lemma PublishKeepsTotals(db: Db, id: int, o: Order)
    requires UsersOk(db.users, db.accounts) && TotalsOk(db.accounts, db.ledger, db.orders) && Publishable(db, id, o)
    ensures var db' := Publish(db, id, o); TotalsOk(db'.accounts, db'.ledger, db'.orders)
  {
    hide SumBy, BooksAgree;
    TransferKeepsBooks(db, Freeze, id, Account(o.publisher, Available), Account(o.publisher, Frozen), o.reward);
    OrderSumsUpdate(db.orders, id, o);
  }

  lemma PublishKeepsClosedForms(cfg: Config, db: Db, id: int, o: Order)
    requires UsersOk(db.users, db.accounts) && ClosedForms(cfg, db) && Publishable(db, id, o)
    ensures ClosedForms(cfg, Publish(db, id, o))
  {
    hide AvailableOf, SumBy, ClosedForms;
    PublishMovesAccounts(cfg, db, id, o);
    OrderKeepsClosedForms(cfg, db, Publish(db, id, o), id, o);
  }

  lemma PublishMovesAccounts(cfg: Config, db: Db, id: int, o: Order)
    requires UsersOk(db.users, db.accounts) && Publishable(db, id, o)
    ensures AccountsMove(cfg, db, Publish(db, id, o), id, o)
  {
    var available, frozen := Account(o.publisher, Available), Account(o.publisher, Frozen);
    assert Publish(db, id, o).accounts ==
           db.accounts[available := db.accounts[available] - o.reward][frozen := db.accounts[frozen] + o.reward];
  }

  lemma PublishKeepsRows(cfg: Config, db: Db, id: int, o: Order)
    requires OrderRows(cfg, db.ledger, db.orders) && Publishable(db, id, o)
    ensures OrderRows(cfg, Publish(db, id, o).ledger, Publish(db, id, o).orders)
  {}

  lemma PublishKeepsEvents(events: set<EventKey>, orders: map<int, Order>, id: int, o: Order)
    requires EventsOk(events, orders) && id !in orders && o.status.Published? && o.taker.None?
    ensures EventsOk(events + {OrderPublished(id)}, orders[id := o])
  {}

  lemma PublishKeeps(cfg: Config, db: Db, id: int, o: Order)
    requires Inv(cfg, db) && Publishable(db, id, o)
    ensures Inv(cfg, Publish(db, id, o))
  {
    hide SumBy, UsersOk, NoOverdraft, TotalsOk, ClosedForms, OrderRows, RechargeRows, RefundRows, CompensationRows,
         OrdersOk, EventsOk, SettleKeysOk, RechargesOk, PaymentsOk, RefundsOk, DisputesOk, NotesOk;
    PublishKeepsTotals(db, id, o);
    PublishKeepsClosedForms(cfg, db, id, o);
    PublishKeepsRows(cfg, db, id, o);
    var k1, k2 := LedgerKey(Freeze, id, o.publisher, Available), LedgerKey(Freeze, id, o.publisher, Frozen);
    PostForOrder(db, k1, -o.reward);
    PostForOrder(Post(db, k1, -o.reward), k2, o.reward);
    OrderUpdateKeepsOrdersOk(cfg, db.users, db.orders, id, o);
    OrderUpdateKeepsSettleKeys(db.idem, db.orders, id, o);
    PublishKeepsEvents(db.events, db.orders, id, o);
    NewEventKeepsNotes(OrderPublished(id), db.notes, db.events, db.payments, db.refunds, db.disputes);
  }

  // ---- giving the escrow back ----

  predicate Releasable(db: Db, id: int, o: Order) {
    && id in db.orders && o == db.orders[id] && (o.status.Published? || o.status.Taken?)
    && IsBusinessUser(db.users, o.publisher)
    && CanDebit(db, Account(o.publisher, Frozen), o.reward)
    && TransferFree(db, Cancel, id, Account(o.publisher, Frozen), Account(o.publisher, Available))
  }

  lemma GiveBackKeepsTotals(db: Db, id: int, o: Order)
    requires UsersOk(db.users, db.accounts) && TotalsOk(db.accounts, db.ledger, db.orders) && Releasable(db, id, o)
    ensures var db' := GiveBack(db, id, o); TotalsOk(db'.accounts, db'.ledger, db'.orders)
  {
    hide SumBy, BooksAgree;
    TransferKeepsBooks(db, Cancel, id, Account(o.publisher, Frozen), Account(o.publisher, Available), o.reward);
    OrderSumsUpdate(db.orders, id, CancelledOrder(o));
  }

  lemma GiveBackKeepsClosedForms(cfg: Config, db: Db, id: int, o: Order)
    requires UsersOk(db.users, db.accounts) && ClosedForms(cfg, db) && Releasable(db, id, o)
    ensures ClosedForms(cfg, GiveBack(db, id, o))
  {
    hide AvailableOf, SumBy, ClosedForms;
    GiveBackMovesAccounts(cfg, db, id, o);
    OrderKeepsClosedForms(cfg, db, GiveBack(db, id, o), id, CancelledOrder(o));
  }

  lemma GiveBackMovesAccounts(cfg: Config, db: Db, id: int, o: Order)
    requires UsersOk(db.users, db.accounts) && Releasable(db, id, o)
    ensures AccountsMove(cfg, db, GiveBack(db, id, o), id, CancelledOrder(o))
  {
    var available, frozen := Account(o.publisher, Available), Account(o.publisher, Frozen);
    assert GiveBack(db, id, o).accounts ==
           db.accounts[frozen := db.accounts[frozen] - o.reward][available := db.accounts[available] + o.reward];
  }

  lemma GiveBackKeepsRows(cfg: Config, db: Db, id: int, o: Order)
    requires OrderRows(cfg, db.ledger, db.orders) && Releasable(db, id, o)
    ensures OrderRows(cfg, GiveBack(db, id, o).ledger, GiveBack(db, id, o).orders)
  {}

  lemma EndKeepsEvents(events: set<EventKey>, orders: map<int, Order>, id: int, o: Order)
    requires EventsOk(events, orders) && id in orders && o.Terminal() && o.taker == orders[id].taker
    ensures EventsOk(events + {OrderTerminal(id)}, orders[id := o])
  {}

  lemma GiveBackKeeps(cfg: Config, db: Db, id: int, o: Order)
    requires Inv(cfg, db) && Releasable(db, id, o) && OrderOk(cfg, db.users, o)
    ensures Inv(cfg, GiveBack(db, id, o))
  {
    hide SumBy, UsersOk, NoOverdraft, TotalsOk, ClosedForms, OrderRows, RechargeRows, RefundRows, CompensationRows,
         OrdersOk, EventsOk, SettleKeysOk, RechargesOk, PaymentsOk, RefundsOk, DisputesOk, NotesOk;
    GiveBackKeepsTotals(db, id, o);
    GiveBackKeepsClosedForms(cfg, db, id, o);
    GiveBackKeepsRows(cfg, db, id, o);
    var k1, k2 := LedgerKey(Cancel, id, o.publisher, Frozen), LedgerKey(Cancel, id, o.publisher, Available);
    PostForOrder(db, k1, -o.reward);
    PostForOrder(Post(db, k1, -o.reward), k2, o.reward);
    OrderUpdateKeepsOrdersOk(cfg, db.users, db.orders, id, CancelledOrder(o));
    OrderUpdateKeepsSettleKeys(db.idem, db.orders, id, CancelledOrder(o));
    EndKeepsEvents(db.events, db.orders, id, CancelledOrder(o));
    NewEventKeepsNotes(OrderTerminal(id), db.notes, db.events, db.payments, db.refunds, db.disputes);
  }

  // ---- settling ----

  predicate Payable(cfg: Config, db: Db, id: int, o: Order, commission: int) {
    && id in db.orders && o == db.orders[id] && o.status.Delivered? && o.taker.Some?
    && IsBusinessUser(db.users, o.publisher) && IsBusinessUser(db.users, o.taker.value)
       && IsPlatform(cfg, db.users, cfg.platform)
    && 0 <= commission <= o.reward && o.commission == 0
    && CanDebit(db, Account(o.publisher, Frozen), o.reward)
    && Free(db, EscrowKey(o, id)) && Free(db, EarningKey(o, id)) && Free(db, CommissionKey(cfg, id))
  }

  lemma PayOutKeepsTotals(cfg: Config, db: Db, id: int, o: Order, commission: int)
    requires UsersOk(db.users, db.accounts) && TotalsOk(db.accounts, db.ledger, db.orders)
             && Payable(cfg, db, id, o, commission)
    ensures var db' := PayOut(db, cfg, id, o, commission); TotalsOk(db'.accounts, db'.ledger, db'.orders)
  {
    hide SumBy, BooksAgree;
    var d1 := Post(db, EscrowKey(o, id), -o.reward);
    var d2 := Post(d1, EarningKey(o, id), o.reward - commission);
    PostKeepsBooks(db, EscrowKey(o, id), -o.reward);
    PostKeepsBooks(d1, EarningKey(o, id), o.reward - commission);
    PostKeepsBooks(d2, CommissionKey(cfg, id), commission);
    OrderSumsUpdate(db.orders, id, SettledWith(o, commission));
  }

  lemma PayOutKeepsClosedForms(cfg: Config, db: Db, id: int, o: Order, commission: int)
    requires UsersOk(db.users, db.accounts) && ClosedForms(cfg, db) && Payable(cfg, db, id, o, commission)
    ensures ClosedForms(cfg, PayOut(db, cfg, id, o, commission))
  {
    hide AvailableOf, SumBy, ClosedForms;
    PayOutMovesAccounts(cfg, db, id, o, commission);
    OrderKeepsClosedForms(cfg, db, PayOut(db, cfg, id, o, commission), id, SettledWith(o, commission));
  }

  lemma PayOutMovesAccounts(cfg: Config, db: Db, id: int, o: Order, commission: int)
    requires UsersOk(db.users, db.accounts) && Payable(cfg, db, id, o, commission)
    ensures AccountsMove(cfg, db, PayOut(db, cfg, id, o, commission), id, SettledWith(o, commission))
  {
    hide Changed, UsersOk, AvailableDelta, EscrowDelta;
    var escrow, earning, fee := Account(o.publisher, Frozen), Account(o.taker.value, Available),
        Account(cfg.platform, Available);
    var o' := SettledWith(o, commission);
    forall u | u in db.users
      ensures AvailableDelta(cfg, db, id, o', u)
              == (if u == o.taker.value then o.reward - commission else 0)
              + (if u == cfg.platform then commission else 0)
      ensures EscrowDelta(db, id, o', u) == if u == o.publisher then -o.reward else 0
      ensures Account(u, Available) in db.accounts && Account(u, Frozen) in db.accounts
    {
      PayOutDeltas(cfg, db, id, o, commission, u);
    }
    ThreeChanges(db.accounts, escrow, -o.reward, earning, o.reward - commission, fee, commission);
  }

  lemma PayOutDeltas(cfg: Config, db: Db, id: int, o: Order, commission: int, u: int)
    requires UsersOk(db.users, db.accounts) && Payable(cfg, db, id, o, commission) && u in db.users
    ensures AvailableDelta(cfg, db, id, SettledWith(o, commission), u)
            == (if u == o.taker.value then o.reward - commission else 0) + (if u == cfg.platform then commission else 0)
    ensures EscrowDelta(db, id, SettledWith(o, commission), u) == if u == o.publisher then -o.reward else 0
    ensures Account(u, Available) in db.accounts && Account(u, Frozen) in db.accounts
  {}

  lemma ThreeChanges(m: map<Account, int>, a: Account, x: int, b: Account, y: int, c: Account, z: int)
    requires a in m && b in m && c in m && a != b && a != c && b != c
    ensures var n := Changed(Changed(Changed(m, a, x), b, y), c, z);
            && n.Keys == m.Keys
            && forall k :: k in m ==> n[k]
                                      == m[k] + (if k == a then x else 0) + (if k == b then y else 0)
                                      + (if k == c then z else 0)
  {}

  /** The three SETTLE rows are the ones that the settled order demands; every other row is as before. */
  lemma SettleRowsComplete(cfg: Config, ledger: map<LedgerKey, int>, orders: map<int, Order>, id: int, o: Order,
                           commission: int, k: LedgerKey)
    requires OrderRows(cfg, ledger, orders) && id in orders && orders[id] == o && o.status.Delivered? && OrderBiz(k.biz)
    requires o.taker.Some? && o.taker.value != cfg.platform
    ensures RowAt(ledger[EscrowKey(o, id) := -o.reward][EarningKey(o, id) := o.reward - commission]
                                                        [CommissionKey(cfg, id) := commission], k)
            == if k.bizId == id then OrderRow(cfg, SettledWith(o, commission), k)
                else if k.bizId in orders then OrderRow(cfg, orders[k.bizId], k) else None
  {
    assert RowAt(ledger, k) == if k.bizId in orders then OrderRow(cfg, orders[k.bizId], k) else None;
  }

  lemma PayOutWrites(cfg: Config, db: Db, id: int, o: Order, commission: int)
    requires o.taker.Some?
    ensures PayOut(db, cfg, id, o, commission).ledger ==
            db.ledger[EscrowKey(o, id) := -o.reward][EarningKey(o, id) := o.reward - commission]
                [CommissionKey(cfg, id) := commission]
    ensures PayOut(db, cfg, id, o, commission).orders == db.orders[id := SettledWith(o, commission)]
  {}

  lemma PayOutKeepsRows(cfg: Config, db: Db, id: int, o: Order, commission: int)
    requires OrderRows(cfg, db.ledger, db.orders) && Payable(cfg, db, id, o, commission)
    ensures var db' := PayOut(db, cfg, id, o, commission); OrderRows(cfg, db'.ledger, db'.orders)
  {
    var ledger' := db.ledger[EscrowKey(o, id) := -o.reward][EarningKey(o, id) := o.reward - commission]
        [CommissionKey(cfg, id) := commission];
    var orders' := db.orders[id := SettledWith(o, commission)];
    PayOutWrites(cfg, db, id, o, commission);
    hide PayOut, Post, OrderRow, RowAt, EscrowKey, EarningKey, CommissionKey, SettledWith;
    forall k: LedgerKey | OrderBiz(k.biz)
      ensures RowAt(ledger', k) == if k.bizId in orders' then OrderRow(cfg, orders'[k.bizId], k) else None
    {
      SettleRowsComplete(cfg, db.ledger, db.orders, id, o, commission, k);
    }
  }

  lemma PayOutKeepsSettleKeys(idem: map<OpKey, Fingerprint>, orders: map<int, Order>, id: int, o: Order)
    requires SettleKeysOk(idem, orders) && o.status.Settled?
    ensures SettleKeysOk(idem[SettleOp(id) := SettleRequest(id)], orders[id := o])
  {}

  lemma SettleKeyKeepsRecharges(users: map<int, Role>, idem: map<OpKey, Fingerprint>, recharges: map<int, RechargeRow>,
                                id: int)
    requires RechargesOk(users, idem, recharges)
    ensures RechargesOk(users, idem[SettleOp(id) := SettleRequest(id)], recharges)
  {}

  lemma PayOutKeeps(cfg: Config, db: Db, id: int, o: Order, commission: int)
    requires Inv(cfg, db) && Payable(cfg, db, id, o, commission) && OrderOk(cfg, db.users, o)
    ensures Inv(cfg, PayOut(db, cfg, id, o, commission))
  {
    hide SumBy, UsersOk, NoOverdraft, TotalsOk, ClosedForms, OrderRows, RechargeRows, RefundRows, CompensationRows,
         OrdersOk, EventsOk, SettleKeysOk, RechargesOk, PaymentsOk, RefundsOk, DisputesOk, NotesOk;
    PayOutKeepsTotals(cfg, db, id, o, commission);
    PayOutKeepsClosedForms(cfg, db, id, o, commission);
    PayOutKeepsRows(cfg, db, id, o, commission);
    var d1 := Post(db, EscrowKey(o, id), -o.reward);
    var d2 := Post(d1, EarningKey(o, id), o.reward - commission);
    PostForOrder(db, EscrowKey(o, id), -o.reward);
    PostForOrder(d1, EarningKey(o, id), o.reward - commission);
    PostForOrder(d2, CommissionKey(cfg, id), commission);
    var o' := SettledWith(o, commission);
    OrderUpdateKeepsOrdersOk(cfg, db.users, db.orders, id, o');
    PayOutKeepsSettleKeys(db.idem, db.orders, id, o');
    SettleKeyKeepsRecharges(db.users, db.idem, db.recharges, id);
    EndKeepsEvents(db.events, db.orders, id, o');
    NewEventKeepsNotes(OrderTerminal(id), db.notes, db.events, db.payments, db.refunds, db.disputes);
  }

  // ---- status changes that move no money ----

  predicate MoneyNeutral(old_: Order, o: Order) {
    old_.Open() && o.Open() && o.publisher == old_.publisher && o.reward == old_.reward
        && o.commission == old_.commission
  }

  lemma NeutralKeepsTotals(accounts: map<Account, int>, ledger: map<LedgerKey, int>, orders: map<int, Order>, id: int,
                           o: Order)
    requires TotalsOk(accounts, ledger, orders) && id in orders && MoneyNeutral(orders[id], o)
    ensures TotalsOk(accounts, ledger, orders[id := o])
  {
    hide SumBy, BooksAgree;
    OrderSumsUpdate(orders, id, o);
  }

  lemma NeutralKeepsRows(cfg: Config, ledger: map<LedgerKey, int>, orders: map<int, Order>, id: int, o: Order)
    requires OrderRows(cfg, ledger, orders) && id in orders && MoneyNeutral(orders[id], o)
    ensures OrderRows(cfg, ledger, orders[id := o])
  {}

  lemma NeutralKeepsClosedForms(cfg: Config, db: Db, db': Db, id: int, o: Order)
    requires ClosedForms(cfg, db) && id in db.orders && MoneyNeutral(db.orders[id], o)
    requires OnlyOrdersAndBooks(db, db', id, o) && db'.accounts == db.accounts
    ensures ClosedForms(cfg, db')
  {
    hide AvailableOf, SumBy;
    OrderKeepsClosedForms(cfg, db, db', id, o);
  }

  lemma NeutralKeeps(cfg: Config, db: Db, id: int, o: Order, events: set<EventKey>)
    requires Inv(cfg, db) && id in db.orders && MoneyNeutral(db.orders[id], o) && OrderOk(cfg, db.users, o)
    requires EventsOk(events, db.orders[id := o]) && NotesOk(db.notes, events, db.payments, db.refunds, db.disputes)
    ensures Inv(cfg, db.(orders := db.orders[id := o], events := events))
  {
    hide SumBy, UsersOk, NoOverdraft, TotalsOk, ClosedForms, OrderRows, RechargeRows, RefundRows, CompensationRows,
         OrdersOk, EventsOk, SettleKeysOk, RechargesOk, PaymentsOk, RefundsOk, DisputesOk, NotesOk;
    NeutralKeepsTotals(db.accounts, db.ledger, db.orders, id, o);
    NeutralKeepsClosedForms(cfg, db, db.(orders := db.orders[id := o], events := events), id, o);
    NeutralKeepsRows(cfg, db.ledger, db.orders, id, o);
    OrderUpdateKeepsOrdersOk(cfg, db.users, db.orders, id, o);
    OrderUpdateKeepsSettleKeys(db.idem, db.orders, id, o);
  }

  lemma TakeKeepsEvents(events: set<EventKey>, orders: map<int, Order>, id: int, o: Order)
    requires EventsOk(events, orders) && id in orders && o.taker.Some? && !o.Terminal() && !orders[id].Terminal()
    ensures EventsOk(events + {OrderTaken(id)}, orders[id := o])
  {}

  lemma SameTakerKeepsEvents(events: set<EventKey>, orders: map<int, Order>, id: int, o: Order)
    requires EventsOk(events, orders) && id in orders && o.taker == orders[id].taker
             && o.Terminal() == orders[id].Terminal()
    ensures EventsOk(events, orders[id := o])
  {}

  // ---- the transactions themselves ----

  lemma CreateKeeps(cfg: Config, db: Db, id: int, publisher: int, reward: int, ttl: Option<int>)
    requires Inv(cfg, db)
    ensures Inv(cfg, Create(db, cfg, id, publisher, reward, ttl).After(db))
  {
    hide Inv, Publish;
    assert forall a :: a in db.accounts <==> a.user in db.users by { AccountsOfUsers(cfg, db); }
    EnsureAccountsIsIdle(db, publisher);
    if Create(db, cfg, id, publisher, reward, ttl).Commit? {
      PublishKeeps(cfg, db, id, NewOrder(publisher, reward, db.now + 1000 * ClaimTtl(cfg, ttl)));
    }
  }

  lemma AccountsOfUsers(cfg: Config, db: Db)
    requires Inv(cfg, db)
    ensures forall a :: a in db.accounts <==> a.user in db.users
  {}

  lemma OrderIsOk(cfg: Config, db: Db, id: int)
    requires Inv(cfg, db) && id in db.orders
    ensures OrderOk(cfg, db.users, db.orders[id])
  {}

  lemma GrabKeeps(cfg: Config, db: Db, id: int, taker: int)
    requires Inv(cfg, db)
    ensures Inv(cfg, Grab(db, cfg, id, taker).After(db))
  {
    hide SumBy, UsersOk, NoOverdraft, TotalsOk, ClosedForms, OrderRows, RechargeRows, RefundRows, CompensationRows,
         OrdersOk, EventsOk, SettleKeysOk, RechargesOk, PaymentsOk, RefundsOk, DisputesOk, NotesOk;
    if Grab(db, cfg, id, taker).Commit? {
      OrderIsOk(cfg, db, id);
      var o := TakenBy(db.orders[id], taker, db.now + 1000 * cfg.deliverTtlSeconds);
      TakeKeepsEvents(db.events, db.orders, id, o);
      NewEventKeepsNotes(OrderTaken(id), db.notes, db.events, db.payments, db.refunds, db.disputes);
      NeutralKeeps(cfg, db, id, o, db.events + {OrderTaken(id)});
    }
  }

  lemma MarkDeliveredKeeps(cfg: Config, db: Db, id: int, taker: int)
    requires Inv(cfg, db)
    ensures Inv(cfg, MarkDelivered(db, id, taker).After(db))
  {
    hide SumBy, UsersOk, NoOverdraft, TotalsOk, ClosedForms, OrderRows, RechargeRows, RefundRows, CompensationRows,
         OrdersOk, EventsOk, SettleKeysOk, RechargesOk, PaymentsOk, RefundsOk, DisputesOk, NotesOk;
    if Deliverable(db, id, taker) {
      OrderIsOk(cfg, db, id);
      var o := MarkDelivered(db, id, taker).db.orders[id];
      SameTakerKeepsEvents(db.events, db.orders, id, o);
      NeutralKeeps(cfg, db, id, o, db.events);
    }
  }

  lemma SettlementKeeps(cfg: Config, db: Db, id: int)
    requires Inv(cfg, db)
    ensures Inv(cfg, Settlement(db, cfg, id).After(db))
  {
    hide Inv, PayOut;
    AccountsOfUsers(cfg, db);
    EnsureAccountsIsIdle(db, cfg.platform);
    if Settlement(db, cfg, id) != Commit(db, false) && Settlement(db, cfg, id).Commit? {
      OrderIsOk(cfg, db, id);
      PayOutKeeps(cfg, db, id, db.orders[id], Commission(db.orders[id].reward, cfg.rate).value);
    }
  }

  lemma ReleaseKeeps(cfg: Config, db: Db, id: int)
    requires Inv(cfg, db) && id in db.orders && (db.orders[id].status.Published? || db.orders[id].status.Taken?)
    ensures Inv(cfg, Release(db, id).After(db))
  {
    hide Inv, GiveBack;
    OrderIsOk(cfg, db, id);
    if Release(db, id).Commit? {
      GiveBackKeeps(cfg, db, id, db.orders[id]);
    }
  }

  lemma RecordFailureKeeps(cfg: Config, db: Db, id: int, count: nat, nextRetryAt: int)
    requires Inv(cfg, db) && count < MAX_SETTLE_RETRIES
    ensures Inv(cfg, RecordSettlementFailure(db, id, count, nextRetryAt))
  {
    hide SumBy, UsersOk, NoOverdraft, TotalsOk, ClosedForms, OrderRows, RechargeRows, RefundRows, CompensationRows,
         OrdersOk, EventsOk, SettleKeysOk, RechargesOk, PaymentsOk, RefundsOk, DisputesOk, NotesOk;
    if id in db.orders && db.orders[id].status.Delivered? {
      OrderIsOk(cfg, db, id);
      var o := db.orders[id].(retryCount := count, nextRetryAt := Some(nextRetryAt));
      SameTakerKeepsEvents(db.events, db.orders, id, o);
      NeutralKeeps(cfg, db, id, o, db.events);
    }
  }

  lemma MarkDeadKeeps(cfg: Config, db: Db, id: int)
    requires Inv(cfg, db)
    ensures Inv(cfg, MarkSettlementDead(db, id))
  {
    hide SumBy, UsersOk, NoOverdraft, TotalsOk, ClosedForms, OrderRows, RechargeRows, RefundRows, CompensationRows,
         OrdersOk, EventsOk, SettleKeysOk, RechargesOk, PaymentsOk, RefundsOk, DisputesOk, NotesOk;
    if id in db.orders && db.orders[id].status.Delivered? {
      OrderIsOk(cfg, db, id);
      var o := db.orders[id].(settlementDead := true);
      SameTakerKeepsEvents(db.events, db.orders, id, o);
      NeutralKeeps(cfg, db, id, o, db.events);
    }
  }
}
