/** Recharges, callbacks, refunds and compensations keep the invariant, whatever snapshot they read. */
module PaymentSteps {
  import opened Model
  import opened Sums
  import opened Books
  import opened Invariants
  import opened OrderSteps
  import opened PaymentSpec

  /** What a snapshot may still be trusted for: rows it has are still there, with the same owner and amount. */
  predicate Earlier(snap: Db, db: Db) {
    && (forall p :: p in snap.payments ==>
          && p in db.payments && db.payments[p].(refunded := false) == snap.payments[p].(refunded := false)
          && (snap.payments[p].refunded ==> db.payments[p].refunded))
    && (forall r :: r in snap.refunds ==> r in db.refunds && db.refunds[r] == snap.refunds[r])
    && (forall d :: d in snap.disputes ==>
          && d in db.disputes && db.disputes[d].user == snap.disputes[d].user
             && db.disputes[d].payment == snap.disputes[d].payment
          && (snap.disputes[d].resolved ==> db.disputes[d].resolved))
    && (forall q :: q in snap.compensations ==> q in db.compensations && db.compensations[q] == snap.compensations[q])
    && Grows(snap, db)
  }

  /** Users keep their role, used idempotency keys their request. */
  predicate Grows(snap: Db, db: Db) {
    && (forall u :: u in snap.users ==> u in db.users && db.users[u] == snap.users[u])
    && (forall k :: k in snap.idem ==> k in db.idem && db.idem[k] == snap.idem[k])
  }

  lemma EarlierSelf(db: Db)
    ensures Earlier(db, db)
  {}

  // ---- what a posting between the treasury and a wallet leaves alone ----

  lemma PairLeavesOrderRows(cfg: Config, ledger: map<LedgerKey, int>, k: LedgerKey, v: int, orders: map<int, Order>)
    requires !OrderBiz(k.biz) && OrderRows(cfg, ledger, orders)
    ensures OrderRows(cfg, ledger[k := v], orders)
  {}

  lemma PairLeavesRechargeRows(ledger: map<LedgerKey, int>, k: LedgerKey, v: int, recharges: map<int, RechargeRow>)
    requires !k.biz.Recharge? && RechargeRows(ledger, recharges)
    ensures RechargeRows(ledger[k := v], recharges)
  {}

  lemma PairLeavesRefundRows(ledger: map<LedgerKey, int>, k: LedgerKey, v: int, refunds: map<int, RefundRow>)
    requires !k.biz.Refund? && RefundRows(ledger, refunds)
    ensures RefundRows(ledger[k := v], refunds)
  {}

  lemma PairLeavesCompensationRows(ledger: map<LedgerKey, int>, k: LedgerKey, v: int,
                                   compensations: map<string, Compensation>)
    requires !k.biz.Compensate? && CompensationRows(ledger, compensations)
    ensures CompensationRows(ledger[k := v], compensations)
  {}

  lemma TransferKeepsAccountTables(db: Db, biz: BizType, bizId: int, source: Account, target: Account, amount: int)
    requires UsersOk(db.users, db.accounts) && NoOverdraft(db.accounts)
    requires amount >= 0 && (source.user == MINT_ID || CanDebit(db, source, amount))
    ensures var d := Transfer(db, biz, bizId, source, target, amount);
            UsersOk(d.users, d.accounts) && NoOverdraft(d.accounts)
  {
    hide UsersOk, NoOverdraft;
    var mid := Changed(db.accounts, source, -amount);
    ChangeKeepsUsersOk(db.users, db.accounts, source, -amount);
    ChangeKeepsUsersOk(db.users, mid, target, amount);
    ChangeKeepsNoOverdraft(db.accounts, source, -amount);
    ChangeKeepsNoOverdraft(mid, target, amount);
  }

  lemma TransferKeepsTotals(db: Db, biz: BizType, bizId: int, source: Account, target: Account, amount: int)
    requires UsersOk(db.users, db.accounts) && TotalsOk(db.accounts, db.ledger, db.orders)
    requires TransferFree(db, biz, bizId, source, target) && source.kind.Available? && target.kind.Available?
    ensures var d := Transfer(db, biz, bizId, source, target, amount); TotalsOk(d.accounts, d.ledger, d.orders)
  {
    hide SumBy, BooksAgree;
    TransferKeepsBooks(db, biz, bizId, source, target, amount);
  }

  /** `amount` goes from the treasury to the wallet of `user` and nothing else moves. */
  predicate WalletMoves(db: Db, db': Db, user: int, amount: int) {
    && db'.users == db.users && db'.orders == db.orders && user != MINT_ID
    && forall u :: u in db.users ==>
         var a, f := Account(u, Available), Account(u, Frozen);
         && a in db.accounts && a in db'.accounts && f in db.accounts && f in db'.accounts
         && db'.accounts[a] == db.accounts[a] + (if u == user then amount else if u == MINT_ID then -amount else 0)
         && db'.accounts[f] == db.accounts[f]
  }

  lemma TransferMovesWallet(db: Db, biz: BizType, bizId: int, user: int, amount: int, toUser: bool)
    requires UsersOk(db.users, db.accounts) && IsBusinessUser(db.users, user)
    ensures var mint, wallet := Account(MINT_ID, Available), Account(user, Available);
            var d := if toUser then Transfer(db, biz, bizId, mint, wallet, amount)
                else Transfer(db, biz, bizId, wallet, mint, amount);
            WalletMoves(db, d, user, if toUser then amount else -amount)
  {}

  /** The money tables grow by one row that accounts for the wallet's movement. */
  ghost predicate RecordsMove(db: Db, db': Db, user: int, amount: int) {
    && (forall u :: SumBy(db'.recharges, RechargedTo(u))
                    + SumBy(db'.compensations, CompensatedTo(u)) - SumBy(db'.refunds, RefundedTo(u)) ==
                    SumBy(db.recharges, RechargedTo(u))
                        + SumBy(db.compensations, CompensatedTo(u)) - SumBy(db.refunds, RefundedTo(u))
                    + if u == user then amount else 0)
    && MintBalance(db') == MintBalance(db) - amount
  }

  lemma WalletKeepsClosedForms(cfg: Config, db: Db, db': Db, user: int, amount: int)
    requires ClosedForms(cfg, db) && WalletMoves(db, db', user, amount) && RecordsMove(db, db', user, amount)
    requires IsBusinessUser(db.users, user)
    ensures ClosedForms(cfg, db')
  {
    hide SumBy, MintBalance;
  }

  lemma SameRecordsKeepClosedForms(cfg: Config, db: Db, db': Db)
    requires ClosedForms(cfg, db)
    requires db'.users == db.users && db'.accounts == db.accounts && db'.orders == db.orders
    requires db'.recharges == db.recharges && db'.refunds == db.refunds && db'.compensations == db.compensations
    ensures ClosedForms(cfg, db')
  {
    hide SumBy;
  }

  // ---- recharge ----

  predicate Creditable(db: Db, b: int, r: RechargeRow) {
    && IsBusinessUser(db.users, r.user) && r.amount > 0 && RechargeOp(r.key) !in db.idem
    && TransferFree(db, Recharge, b, Account(MINT_ID, Available), Account(r.user, Available))
  }

  lemma FreshRecharge(ledger: map<LedgerKey, int>, recharges: map<int, RechargeRow>, b: int)
    requires RechargeRows(ledger, recharges) && LedgerKey(Recharge, b, MINT_ID, Available) !in ledger
    ensures b !in recharges
  {
    assert RowAt(ledger, LedgerKey(Recharge, b, MINT_ID, Available)) == None;
  }

  lemma CreditMovesRecords(db: Db, b: int, r: RechargeRow)
    requires b !in db.recharges
    ensures RecordsMove(db, Credit(db, b, r), r.user, r.amount)
  {
    hide SumBy;
    forall u {
      SumByUpdate(db.recharges, b, r, RechargedTo(u));
    }
    SumByUpdate(db.recharges, b, r, AnyRecharge());
  }

  lemma CreditKeepsRows(db: Db, b: int, r: RechargeRow)
    requires RechargeRows(db.ledger, db.recharges) && Creditable(db, b, r) && b !in db.recharges && r.user != MINT_ID
    ensures RechargeRows(Credit(db, b, r).ledger, Credit(db, b, r).recharges)
  {}

  lemma CreditKeepsRecharges(users: map<int, Role>, idem: map<OpKey, Fingerprint>, recharges: map<int, RechargeRow>,
                             b: int, r: RechargeRow)
    requires RechargesOk(users, idem, recharges) && b !in recharges
    requires IsBusinessUser(users, r.user) && r.amount > 0 && RechargeOp(r.key) !in idem
    ensures RechargesOk(users, idem[RechargeOp(r.key) := RechargeRequest(r.user, r.amount)], recharges[b := r])
  {
    var idem', recharges' := idem[RechargeOp(r.key) := RechargeRequest(r.user, r.amount)], recharges[b := r];
    forall key | RechargeOp(key) in idem' ensures exists c :: HasKey(recharges', c, key) {
      if key == r.key {
        assert HasKey(recharges', b, key);
      } else {
        var c :| HasKey(recharges, c, key);
        assert HasKey(recharges', c, key);
      }
    }
  }

  lemma RechargeKeyKeepsSettleKeys(idem: map<OpKey, Fingerprint>, orders: map<int, Order>, key: string, f: Fingerprint)
    requires SettleKeysOk(idem, orders)
    ensures SettleKeysOk(idem[RechargeOp(key) := f], orders)
  {}

  lemma CreditKeepsMoney(cfg: Config, db: Db, b: int, r: RechargeRow)
    requires UsersOk(db.users, db.accounts) && ClosedForms(cfg, db) && Creditable(db, b, r) && b !in db.recharges
    ensures ClosedForms(cfg, Credit(db, b, r))
  {
    hide SumBy, UsersOk, ClosedForms, WalletMoves, RecordsMove;
    TransferMovesWallet(db, Recharge, b, r.user, r.amount, true);
    var d := Transfer(db, Recharge, b, Account(MINT_ID, Available), Account(r.user, Available), r.amount);
    CreditMovesRecords(db, b, r);
    SameWallet(db, d, Credit(db, b, r), r.user, r.amount);
    WalletKeepsClosedForms(cfg, db, Credit(db, b, r), r.user, r.amount);
  }

  lemma SameWallet(db: Db, d: Db, db': Db, user: int, amount: int)
    requires WalletMoves(db, d, user, amount) && db'.accounts == d.accounts && db'.users == d.users
             && db'.orders == d.orders
    ensures WalletMoves(db, db', user, amount)
  {}

  lemma BusinessIsNotMint(cfg: Config, db: Db, user: int)
    requires Inv(cfg, db) && IsBusinessUser(db.users, user)
    ensures user != MINT_ID
  {}

  lemma CreditKeeps(cfg: Config, db: Db, b: int, r: RechargeRow)
    requires Inv(cfg, db) && Creditable(db, b, r)
    ensures Inv(cfg, Credit(db, b, r))
  {
    hide SumBy, UsersOk, NoOverdraft, TotalsOk, ClosedForms, OrderRows, RechargeRows, RefundRows, CompensationRows,
         OrdersOk, EventsOk, SettleKeysOk, RechargesOk, PaymentsOk, RefundsOk, DisputesOk, NotesOk;
    BusinessIsNotMint(cfg, db, r.user);
    FreshRecharge(db.ledger, db.recharges, b);
    var mint, wallet := Account(MINT_ID, Available), Account(r.user, Available);
    TransferKeepsAccountTables(db, Recharge, b, mint, wallet, r.amount);
    TransferKeepsTotals(db, Recharge, b, mint, wallet, r.amount);
    CreditKeepsMoney(cfg, db, b, r);
    CreditKeepsRows(db, b, r);
    var k1, k2 := LedgerKey(Recharge, b, MINT_ID, Available), LedgerKey(Recharge, b, r.user, Available);
    var mid := db.ledger[k1 := -r.amount];
    PairLeavesOrderRows(cfg, db.ledger, k1, -r.amount, db.orders);
    PairLeavesOrderRows(cfg, mid, k2, r.amount, db.orders);
    PairLeavesRefundRows(db.ledger, k1, -r.amount, db.refunds);
    PairLeavesRefundRows(mid, k2, r.amount, db.refunds);
    PairLeavesCompensationRows(db.ledger, k1, -r.amount, db.compensations);
    PairLeavesCompensationRows(mid, k2, r.amount, db.compensations);
    CreditKeepsRecharges(db.users, db.idem, db.recharges, b, r);
    RechargeKeyKeepsSettleKeys(db.idem, db.orders, r.key, RechargeRequest(r.user, r.amount));
  }

  lemma RechargeKeeps(cfg: Config, db: Db, snap: Db, user: int, amount: int, requested: Option<string>, uuid: string,
                      b: int)
    requires Inv(cfg, db) && Earlier(snap, db)
    ensures Inv(cfg, RechargeWallet(db, snap, user, amount, requested, uuid, b).After(db))
  {
    hide Inv, Credit;
    AccountsOfUsers(cfg, db);
    EnsureAccountsIsIdle(db, user);
    EnsureAccountsIsIdle(db, MINT_ID);
    var r := RechargeRow(user, amount, RechargeKey(requested, uuid));
    if RechargeWallet(db, snap, user, amount, requested, uuid, b) == Commit(Credit(db, b, r), Recharged)
        && Creditable(db, b, r) {
      CreditKeeps(cfg, db, b, r);
    }
  }

  // ---- refund ----

  ghost predicate Refundable(db: Db, id: int, r: RefundRow) {
    && r.payment in db.payments && db.payments[r.payment].user == r.user && db.payments[r.payment].amount == r.amount
    && IsBusinessUser(db.users, r.user) && r.amount > 0
    && RefundKeysFree(db.refunds, id, r.payment, r.requestKey)
    && CanDebit(db, Account(r.user, Available), r.amount)
    && TransferFree(db, Refund, id, Account(r.user, Available), Account(MINT_ID, Available))
  }

  lemma PayBackMovesRecords(db: Db, id: int, r: RefundRow)
    requires id !in db.refunds
    ensures RecordsMove(db, PayBack(db, id, r), r.user, -r.amount)
  {
    hide SumBy;
    forall u {
      SumByUpdate(db.refunds, id, r, RefundedTo(u));
    }
    SumByUpdate(db.refunds, id, r, AnyRefund());
  }

  lemma PayBackLedger(db: Db, id: int, r: RefundRow)
    ensures PayBack(db, id, r).ledger ==
            db.ledger[LedgerKey(Refund, id, r.user, Available) := -r.amount]
                [LedgerKey(Refund, id, MINT_ID, Available) := r.amount]
    ensures PayBack(db, id, r).refunds == db.refunds[id := r]
  {}

  lemma PairCompletesRefunds(ledger: map<LedgerKey, int>, refunds: map<int, RefundRow>, id: int, r: RefundRow)
    requires RefundRows(ledger, refunds) && id !in refunds && r.user != MINT_ID
    ensures RefundRows(ledger[LedgerKey(Refund, id, r.user, Available) := -r.amount]
                              [LedgerKey(Refund, id, MINT_ID, Available) := r.amount], refunds[id := r])
  {
    forall k: LedgerKey | k.biz.Refund?
      ensures RowAt(ledger, k) == if k.bizId in refunds then PairRow(refunds[k.bizId].user, -refunds[k.bizId].amount, k)
              else None
    {}
  }

  lemma PayBackKeepsRows(db: Db, id: int, r: RefundRow)
    requires RefundRows(db.ledger, db.refunds) && id !in db.refunds && r.user != MINT_ID
    ensures RefundRows(PayBack(db, id, r).ledger, PayBack(db, id, r).refunds)
  {
    hide PayBack, RefundRows;
    PayBackLedger(db, id, r);
    PairCompletesRefunds(db.ledger, db.refunds, id, r);
  }

  lemma PayBackKeepsRefunds(payments: map<int, Payment>, refunds: map<int, RefundRow>, id: int, r: RefundRow)
    requires RefundsOk(payments, refunds) && RefundKeysFree(refunds, id, r.payment, r.requestKey)
    requires r.payment in payments && payments[r.payment].user == r.user && payments[r.payment].amount == r.amount
    ensures RefundsOk(Refunded(payments, r.payment), refunds[id := r])
  {
    var refunds' := refunds[id := r];
    forall p | p in payments && (p == r.payment || payments[p].refunded)
        ensures exists s :: HasPayment(refunds', s, p) {
      if p == r.payment {
        assert HasPayment(refunds', id, p);
      } else {
        var s :| HasPayment(refunds, s, p);
        assert HasPayment(refunds', s, p);
      }
    }
    forall s | s in refunds ensures refunds[s].payment != r.payment && refunds[s].requestKey != r.requestKey {
      assert !HasPayment(refunds, s, r.payment) && !HasRequestKey(refunds, s, r.requestKey);
    }
  }

  lemma RefundedKeepsPayments(users: map<int, Role>, payments: map<int, Payment>, p: int)
    requires PaymentsOk(users, payments)
    ensures PaymentsOk(users, Refunded(payments, p))
  {}

  lemma RefundNoteKeepsNotes(notes: set<NoteKey>, events: set<EventKey>, payments: map<int, Payment>,
                             refunds: map<int, RefundRow>,
                             disputes: map<int, Dispute>, id: int, r: RefundRow)
    requires NotesOk(notes, events, payments, refunds, disputes)
    ensures NotesOk(notes + {RefundNote(id)}, events + {Notify(RefundNote(id))}, Refunded(payments, r.payment),
                    refunds[id := r], disputes)
  {}

  lemma NotifyKeepsEvents(events: set<EventKey>, orders: map<int, Order>, n: NoteKey)
    requires EventsOk(events, orders)
    ensures EventsOk(events + {Notify(n)}, orders)
  {}

  lemma PayBackKeepsMoney(cfg: Config, db: Db, id: int, r: RefundRow)
    requires UsersOk(db.users, db.accounts) && ClosedForms(cfg, db) && Refundable(db, id, r)
    ensures ClosedForms(cfg, PayBack(db, id, r))
  {
    hide SumBy, UsersOk, ClosedForms, WalletMoves, RecordsMove;
    TransferMovesWallet(db, Refund, id, r.user, r.amount, false);
    PayBackMovesRecords(db, id, r);
    SameWallet(db, Transfer(db, Refund, id, Account(r.user, Available), Account(MINT_ID, Available), r.amount),
               PayBack(db, id, r), r.user, -r.amount);
    WalletKeepsClosedForms(cfg, db, PayBack(db, id, r), r.user, -r.amount);
  }

  lemma PayBackKeeps(cfg: Config, db: Db, id: int, r: RefundRow)
    requires Inv(cfg, db) && Refundable(db, id, r)
    ensures Inv(cfg, PayBack(db, id, r))
  {
    hide SumBy, UsersOk, NoOverdraft, TotalsOk, ClosedForms, OrderRows, RechargeRows, RefundRows, CompensationRows,
         OrdersOk, EventsOk, SettleKeysOk, RechargesOk, PaymentsOk, RefundsOk, DisputesOk, NotesOk, Refunded;
    BusinessIsNotMint(cfg, db, r.user);
    var mint, wallet := Account(MINT_ID, Available), Account(r.user, Available);
    TransferKeepsAccountTables(db, Refund, id, wallet, mint, r.amount);
    TransferKeepsTotals(db, Refund, id, wallet, mint, r.amount);
    PayBackKeepsMoney(cfg, db, id, r);
    PayBackKeepsRows(db, id, r);
    var k1, k2 := LedgerKey(Refund, id, r.user, Available), LedgerKey(Refund, id, MINT_ID, Available);
    var mid := db.ledger[k1 := -r.amount];
    PairLeavesOrderRows(cfg, db.ledger, k1, -r.amount, db.orders);
    PairLeavesOrderRows(cfg, mid, k2, r.amount, db.orders);
    PairLeavesRechargeRows(db.ledger, k1, -r.amount, db.recharges);
    PairLeavesRechargeRows(mid, k2, r.amount, db.recharges);
    PairLeavesCompensationRows(db.ledger, k1, -r.amount, db.compensations);
    PairLeavesCompensationRows(mid, k2, r.amount, db.compensations);
    PayBackKeepsRefunds(db.payments, db.refunds, id, r);
    RefundedKeepsPayments(db.users, db.payments, r.payment);
    RefundNoteKeepsNotes(db.notes, db.events, db.payments, db.refunds, db.disputes, id, r);
    NotifyKeepsEvents(db.events, db.orders, RefundNote(id));
  }

  lemma PaymentIsOk(cfg: Config, db: Db, p: int)
    requires Inv(cfg, db) && p in db.payments
    ensures IsBusinessUser(db.users, db.payments[p].user) && db.payments[p].amount > 0
  {}

  lemma RefundKeeps(cfg: Config, db: Db, snap: Db, id: int, payment: int, user: int, amount: int, requestKey: string)
    requires Inv(cfg, db) && Earlier(snap, db)
    ensures Inv(cfg, RefundPayment(db, snap, id, payment, user, amount, requestKey).After(db))
  {
    hide Inv, PayBack, RefundKeysFree;
    AccountsOfUsers(cfg, db);
    EnsureAccountsIsIdle(db, user);
    EnsureAccountsIsIdle(db, MINT_ID);
    var r := RefundRow(payment, requestKey, user, amount);
    if payment in db.payments { PaymentIsOk(cfg, db, payment); }
    if RefundPayment(db, snap, id, payment, user, amount, requestKey) == Commit(PayBack(db, id, r), id)
        && Refundable(db, id, r) {
      PayBackKeeps(cfg, db, id, r);
    }
  }

  // ---- compensation ----

  ghost predicate Awardable(db: Db, q: string, c: Compensation) {
    && c.dispute in db.disputes && !db.disputes[c.dispute].resolved && db.disputes[c.dispute].user == c.user
    && IsBusinessUser(db.users, c.user) && c.amount > 0 && q !in db.compensations
    && TransferFree(db, Compensate, c.dispute, Account(MINT_ID, Available), Account(c.user, Available))
  }

  lemma AwardMovesRecords(db: Db, q: string, c: Compensation)
    requires q !in db.compensations && c.dispute in db.disputes
    ensures RecordsMove(db, Award(db, q, c), c.user, c.amount)
  {
    hide SumBy;
    forall u {
      SumByUpdate(db.compensations, q, c, CompensatedTo(u));
    }
    SumByUpdate(db.compensations, q, c, AnyCompensation());
  }

  ghost predicate OnePerDispute(compensations: map<string, Compensation>) {
    forall q, t :: q in compensations && t in compensations && compensations[q].dispute == compensations[t].dispute
                   ==> q == t
  }

  lemma AwardChangesPaidBy(compensations: map<string, Compensation>, q: string, c: Compensation, d: int)
    requires OnePerDispute(compensations) && q !in compensations && PaidBy(compensations, c.dispute).None?
    ensures PaidBy(compensations[q := c], d) == if d == c.dispute then Some(q) else PaidBy(compensations, d)
  {
    var compensations' := compensations[q := c];
    if d == c.dispute {
      assert Pays(compensations', q, d);
      var t := PaidBy(compensations', d).value;
      assert t != q ==> Pays(compensations, t, d);
    } else if PaidBy(compensations, d).Some? {
      var s := PaidBy(compensations, d).value;
      assert Pays(compensations', s, d);
      var t := PaidBy(compensations', d).value;
      assert Pays(compensations, t, d);
    } else if PaidBy(compensations', d).Some? {
      assert Pays(compensations, PaidBy(compensations', d).value, d);
    }
  }

  lemma AwardKeepsRows(ledger: map<LedgerKey, int>, compensations: map<string, Compensation>, q: string,
                       c: Compensation)
    requires CompensationRows(ledger, compensations) && OnePerDispute(compensations) && q !in compensations
    requires PaidBy(compensations, c.dispute).None? && c.user != MINT_ID
    ensures CompensationRows(ledger[LedgerKey(Compensate, c.dispute, MINT_ID, Available) := -c.amount]
                             [LedgerKey(Compensate, c.dispute, c.user, Available) := c.amount], compensations[q := c])
  {
    hide PaidBy;
    var ledger' := ledger[LedgerKey(Compensate, c.dispute, MINT_ID, Available) := -c.amount]
        [LedgerKey(Compensate, c.dispute, c.user, Available) := c.amount];
    forall k: LedgerKey | k.biz.Compensate?
      ensures var p := PaidBy(compensations[q := c], k.bizId);
              RowAt(ledger', k) == if p.Some?
                  then PairRow(compensations[q := c][p.value].user, compensations[q := c][p.value].amount, k) else None
    {
      AwardChangesPaidBy(compensations, q, c, k.bizId);
    }
  }

  lemma AwardKeepsDisputes(users: map<int, Role>, disputes: map<int, Dispute>, compensations: map<string, Compensation>,
                           q: string, c: Compensation)
    requires DisputesOk(users, disputes, compensations) && q !in compensations && c.amount > 0
    requires c.dispute in disputes && !disputes[c.dispute].resolved && disputes[c.dispute].user == c.user
    ensures DisputesOk(users, disputes[c.dispute := disputes[c.dispute].(resolved := true,
        resolvedBy := Some(c.operator))], compensations[q := c])
  {
    hide PaidBy;
    forall d { AwardChangesPaidBy(compensations, q, c, d); }
    forall t | t in compensations ensures compensations[t].dispute != c.dispute {
      assert compensations[t].dispute == c.dispute ==> Pays(compensations, t, c.dispute);
    }
  }

  lemma DisputeNoteKeepsNotes(notes: set<NoteKey>, events: set<EventKey>, payments: map<int, Payment>,
                              refunds: map<int, RefundRow>,
                              disputes: map<int, Dispute>, d: int, by_: Option<int>)
    requires NotesOk(notes, events, payments, refunds, disputes) && d in disputes
    ensures NotesOk(notes + {DisputeNote(d)}, events + {Notify(DisputeNote(d))}, payments, refunds,
                    disputes[d := disputes[d].(resolved := true, resolvedBy := by_)])
  {}

  lemma UnresolvedIsUnpaid(cfg: Config, db: Db, d: int)
    requires Inv(cfg, db) && d in db.disputes
    ensures db.disputes[d].resolved <==> PaidBy(db.compensations, d).Some?
    ensures IsBusinessUser(db.users, db.disputes[d].user) && OnePerDispute(db.compensations)
  {}

  lemma AwardKeepsMoney(cfg: Config, db: Db, q: string, c: Compensation)
    requires UsersOk(db.users, db.accounts) && ClosedForms(cfg, db) && Awardable(db, q, c)
    ensures ClosedForms(cfg, Award(db, q, c))
  {
    hide SumBy, UsersOk, ClosedForms, WalletMoves, RecordsMove;
    TransferMovesWallet(db, Compensate, c.dispute, c.user, c.amount, true);
    AwardMovesRecords(db, q, c);
    SameWallet(db, Transfer(db, Compensate, c.dispute, Account(MINT_ID, Available), Account(c.user, Available),
                            c.amount), Award(db, q, c), c.user, c.amount);
    WalletKeepsClosedForms(cfg, db, Award(db, q, c), c.user, c.amount);
  }

  lemma AwardKeeps(cfg: Config, db: Db, q: string, c: Compensation)
    requires Inv(cfg, db) && Awardable(db, q, c)
    ensures Inv(cfg, Award(db, q, c))
  {
    hide SumBy, UsersOk, NoOverdraft, TotalsOk, ClosedForms, OrderRows, RechargeRows, RefundRows, CompensationRows,
         OrdersOk, EventsOk, SettleKeysOk, RechargesOk, PaymentsOk, RefundsOk, DisputesOk, NotesOk, OnePerDispute,
         PaidBy;
    BusinessIsNotMint(cfg, db, c.user);
    UnresolvedIsUnpaid(cfg, db, c.dispute);
    var mint, wallet := Account(MINT_ID, Available), Account(c.user, Available);
    TransferKeepsAccountTables(db, Compensate, c.dispute, mint, wallet, c.amount);
    TransferKeepsTotals(db, Compensate, c.dispute, mint, wallet, c.amount);
    AwardKeepsMoney(cfg, db, q, c);
    AwardKeepsRows(db.ledger, db.compensations, q, c);
    var k1, k2 := LedgerKey(Compensate, c.dispute, MINT_ID, Available),
        LedgerKey(Compensate, c.dispute, c.user, Available);
    var mid := db.ledger[k1 := -c.amount];
    PairLeavesOrderRows(cfg, db.ledger, k1, -c.amount, db.orders);
    PairLeavesOrderRows(cfg, mid, k2, c.amount, db.orders);
    PairLeavesRechargeRows(db.ledger, k1, -c.amount, db.recharges);
    PairLeavesRechargeRows(mid, k2, c.amount, db.recharges);
    PairLeavesRefundRows(db.ledger, k1, -c.amount, db.refunds);
    PairLeavesRefundRows(mid, k2, c.amount, db.refunds);
    AwardKeepsDisputes(db.users, db.disputes, db.compensations, q, c);
    DisputeNoteKeepsNotes(db.notes, db.events, db.payments, db.refunds, db.disputes, c.dispute, Some(c.operator));
    NotifyKeepsEvents(db.events, db.orders, DisputeNote(c.dispute));
  }

  lemma CompensateKeeps(cfg: Config, db: Db, snap: Db, dispute: int, admin: int, requestKey: string, amount: int)
    requires Inv(cfg, db) && Earlier(snap, db)
    ensures Inv(cfg, CompensateDispute(db, snap, dispute, admin, requestKey, amount).After(db))
  {
    hide Inv, Award;
    AccountsOfUsers(cfg, db);
    EnsureAccountsIsIdle(db, MINT_ID);
    if dispute in snap.disputes {
      EnsureAccountsIsIdle(db, snap.disputes[dispute].user);
      UnresolvedIsUnpaid(cfg, db, dispute);
      var c := Compensation(dispute, snap.disputes[dispute].user, amount, admin);
      if CompensateDispute(db, snap, dispute, admin, requestKey, amount) == Commit(Award(db, requestKey, c), true)
          && Awardable(db, requestKey, c) {
        AwardKeeps(cfg, db, requestKey, c);
      }
    }
  }

  lemma NewDisputeKeepsDisputes(users: map<int, Role>, disputes: map<int, Dispute>,
                                compensations: map<string, Compensation>, id: int, d: Dispute)
    requires DisputesOk(users, disputes, compensations) && id !in disputes && !d.resolved
             && IsBusinessUser(users, d.user)
    ensures DisputesOk(users, disputes[id := d], compensations)
  {
    assert forall q :: q in compensations ==> compensations[q].dispute != id;
  }

  lemma NewDisputeKeepsNotes(notes: set<NoteKey>, events: set<EventKey>, payments: map<int, Payment>,
                             refunds: map<int, RefundRow>,
                             disputes: map<int, Dispute>, id: int, d: Dispute)
    requires NotesOk(notes, events, payments, refunds, disputes) && id !in disputes && !d.resolved
    ensures NotesOk(notes, events, payments, refunds, disputes[id := d])
  {}

  lemma OpenDisputeKeeps(cfg: Config, db: Db, snap: Db, id: int, payment: int, user: int)
    requires Inv(cfg, db) && Earlier(snap, db)
    ensures Inv(cfg, OpenDispute(db, snap, id, payment, user).After(db))
  {
    if payment in db.payments { PaymentIsOk(cfg, db, payment); }
    hide SumBy, UsersOk, NoOverdraft, TotalsOk, ClosedForms, OrderRows, RechargeRows, RefundRows, CompensationRows,
         OrdersOk, EventsOk, SettleKeysOk, RechargesOk, PaymentsOk, RefundsOk, DisputesOk, NotesOk, PaidBy;
    if OpenDispute(db, snap, id, payment, user).Commit? {
      var d := Dispute(payment, user, false, None);
      NewDisputeKeepsDisputes(db.users, db.disputes, db.compensations, id, d);
      NewDisputeKeepsNotes(db.notes, db.events, db.payments, db.refunds, db.disputes, id, d);
      SameRecordsKeepClosedForms(cfg, db, db.(disputes := db.disputes[id := d]));
    }
  }

  // ---- callback ----

  ghost predicate NewPayment(db: Db, id: int, p: Payment) {
    && id !in db.payments && IsBusinessUser(db.users, p.user) && p.amount > 0 && !p.refunded
    && (forall q :: !HasEvent(db.payments, q, p.eventId) && !HasProviderId(db.payments, q, p.providerId))
  }

  lemma NewPaymentKeepsPayments(users: map<int, Role>, payments: map<int, Payment>, id: int, p: Payment)
    requires PaymentsOk(users, payments) && id !in payments && IsBusinessUser(users, p.user) && p.amount > 0
    requires forall q :: !HasEvent(payments, q, p.eventId) && !HasProviderId(payments, q, p.providerId)
    ensures PaymentsOk(users, payments[id := p])
  {
    forall q | q in payments ensures payments[q].eventId != p.eventId && payments[q].providerId != p.providerId {
      assert !HasEvent(payments, q, p.eventId) && !HasProviderId(payments, q, p.providerId);
    }
  }

  lemma NewPaymentKeepsRefunds(payments: map<int, Payment>, refunds: map<int, RefundRow>, id: int, p: Payment)
    requires RefundsOk(payments, refunds) && id !in payments && !p.refunded
    ensures RefundsOk(payments[id := p], refunds)
  {}

  lemma PaymentNoteKeepsNotes(notes: set<NoteKey>, events: set<EventKey>, payments: map<int, Payment>,
                              refunds: map<int, RefundRow>,
                              disputes: map<int, Dispute>, id: int, p: Payment)
    requires NotesOk(notes, events, payments, refunds, disputes)
    ensures NotesOk(notes + {PaymentNote(id)}, events + {Notify(PaymentNote(id))}, payments[id := p], refunds, disputes)
  {}

  function WithPayment(db: Db, id: int, p: Payment): Db {
    WithNote(db.(payments := db.payments[id := p]), PaymentNote(id))
  }

  lemma WithPaymentKeeps(cfg: Config, db: Db, id: int, p: Payment)
    requires Inv(cfg, db) && NewPayment(db, id, p)
    ensures Inv(cfg, WithPayment(db, id, p))
  {
    hide SumBy, UsersOk, NoOverdraft, TotalsOk, ClosedForms, OrderRows, RechargeRows, RefundRows, CompensationRows,
         OrdersOk, EventsOk, SettleKeysOk, RechargesOk, PaymentsOk, RefundsOk, DisputesOk, NotesOk;
    NewPaymentKeepsPayments(db.users, db.payments, id, p);
    NewPaymentKeepsRefunds(db.payments, db.refunds, id, p);
    PaymentNoteKeepsNotes(db.notes, db.events, db.payments, db.refunds, db.disputes, id, p);
    NotifyKeepsEvents(db.events, db.orders, PaymentNote(id));
    SameRecordsKeepClosedForms(cfg, db, WithPayment(db, id, p));
  }

  /** A recharge neither reads nor writes the payment table. */
  lemma RechargeIgnoresPayments(db: Db, snap: Db, payments: map<int, Payment>, user: int, amount: int,
                                requested: Option<string>, uuid: string, b: int)
    ensures var alone := RechargeWallet(db, snap, user, amount, requested, uuid, b);
            var beside := RechargeWallet(db.(payments := payments), snap, user, amount, requested, uuid, b);
            && alone.Commit? == beside.Commit?
            && (alone.Abort? ==> alone == beside)
            && (alone.Commit? ==> beside.db == alone.db.(payments := payments) && beside.value == alone.value
                                  && alone.db.payments == db.payments && alone.db.users == db.users)
  {
    hide EnsureAccounts, Credit;
    EnsureIgnoresPayments(db, payments, user);
    EnsureIgnoresPayments(EnsureAccounts(db, user), payments, MINT_ID);
    CreditIgnoresPayments(EnsureAccounts(EnsureAccounts(db, user), MINT_ID), payments, b,
                          RechargeRow(user, amount, RechargeKey(requested, uuid)));
  }

  lemma EnsureIgnoresPayments(db: Db, payments: map<int, Payment>, user: int)
    ensures EnsureAccounts(db.(payments := payments), user) == EnsureAccounts(db, user).(payments := payments)
    ensures EnsureAccounts(db, user) == db.(accounts := EnsureAccounts(db, user).accounts)
  {}

  lemma CreditIgnoresPayments(db: Db, payments: map<int, Payment>, b: int, r: RechargeRow)
    ensures Credit(db.(payments := payments), b, r) == Credit(db, b, r).(payments := payments)
    ensures Credit(db, b, r).payments == db.payments && Credit(db, b, r).users == db.users
  {}

  /** A callback commits nothing new, or it is a recharge followed by the payment row. */
  lemma CallbackIsRechargePlusPayment(db: Db, snap: Db, verified: bool, request: CallbackRequest, id: int, uuid: string,
                                      b: int)
    ensures var c := Callback(db, snap, verified, request, id, uuid, b);
            var credited := RechargeWallet(db, snap, request.user, request.amount, Some("PAYMENT:" + request.eventId),
                                           uuid, b);
            c.After(db) == db
            || (c.Commit? && c.value == id && id !in db.payments && credited.Commit?
                && c.db == WithPayment(credited.db, id, PaymentRow(request))
                && (Grows(snap, db) ==> NewPayment(credited.db, id, PaymentRow(request))))
  {
    hide RechargeWallet, WithNote, NoteFree, SamePayment;
    RechargeIgnoresPayments(db, snap, db.payments[id := PaymentRow(request)], request.user, request.amount,
                            Some("PAYMENT:" + request.eventId), uuid, b);
  }

  lemma CallbackKeeps(cfg: Config, db: Db, snap: Db, verified: bool, request: CallbackRequest, id: int, uuid: string,
                      b: int)
    requires Inv(cfg, db) && Earlier(snap, db)
    ensures Inv(cfg, Callback(db, snap, verified, request, id, uuid, b).After(db))
  {
    hide Inv, Callback, RechargeWallet, WithPayment, NewPayment;
    CallbackIsRechargePlusPayment(db, snap, verified, request, id, uuid, b);
    var credited := RechargeWallet(db, snap, request.user, request.amount, Some("PAYMENT:" + request.eventId), uuid, b);
    RechargeKeeps(cfg, db, snap, request.user, request.amount, Some("PAYMENT:" + request.eventId), uuid, b);
    if Callback(db, snap, verified, request, id, uuid, b).After(db) != db {
      WithPaymentKeeps(cfg, credited.db, id, PaymentRow(request));
    }
  }
}
