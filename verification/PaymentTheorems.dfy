/** Callbacks credit once, payments are refunded once, disputes are compensated once. */
module PaymentTheorems {
  import opened Model
  import opened Sums
  import opened Books
  import opened PaymentSpec
  import opened Invariants
  import opened OrderSteps
  import opened PaymentSteps

  // ---- refunds and compensations ----

  ghost function RefundsOf(refunds: map<int, RefundRow>, p: int): set<int> {
    set r | r in refunds && refunds[r].payment == p
  }
  ghost function CompensationsOf(compensations: map<string, Compensation>, d: int): set<string> {
    set q | q in compensations && compensations[q].dispute == d
  }

  function PairOf(biz: BizType, id: int, user: int): set<LedgerKey> {
    {LedgerKey(biz, id, MINT_ID, Available), LedgerKey(biz, id, user, Available)}
  }

  lemma OneRefundRow(payments: map<int, Payment>, refunds: map<int, RefundRow>, p: int)
    requires RefundsOk(payments, refunds) && p in payments
    ensures if payments[p].refunded
            then exists r :: r in refunds && RefundsOf(refunds, p) == {r} else RefundsOf(refunds, p) == {}
  {
    if payments[p].refunded {
      var r :| HasPayment(refunds, r, p);
      forall s ensures s in RefundsOf(refunds, p) <==> s == r {
        if s in RefundsOf(refunds, p) { assert refunds[s].payment == refunds[r].payment; }
      }
      assert RefundsOf(refunds, p) == {r};
    } else {
      assert forall r :: r in refunds ==> payments[refunds[r].payment].refunded;
    }
  }

  lemma RefundPair(ledger: map<LedgerKey, int>, refunds: map<int, RefundRow>, r: int)
    requires RefundRows(ledger, refunds) && r in refunds
    ensures LedgerRows(ledger, Refund, r) == PairOf(Refund, r, refunds[r].user)
  {
    forall k ensures k in LedgerRows(ledger, Refund, r) <==> k in PairOf(Refund, r, refunds[r].user) {
      assert k.biz.Refund? && k.bizId == r ==> RowAt(ledger, k) == PairRow(refunds[r].user, -refunds[r].amount, k);
    }
  }

  lemma CompensationPair(ledger: map<LedgerKey, int>, compensations: map<string, Compensation>, d: int)
    requires CompensationRows(ledger, compensations)
    ensures var q := PaidBy(compensations, d);
            LedgerRows(ledger, Compensate, d) == if q.Some? then PairOf(Compensate, d, compensations[q.value].user)
                else {}
  {
    var q := PaidBy(compensations, d);
    var pair := if q.Some? then PairOf(Compensate, d, compensations[q.value].user) else {};
    forall k ensures k in LedgerRows(ledger, Compensate, d) <==> k in pair {
      assert k.biz.Compensate? && k.bizId == d ==>
        RowAt(ledger, k) == if q.Some? then PairRow(compensations[q.value].user, compensations[q.value].amount, k)
            else None;
    }
  }

  lemma OneCompensationRow(users: map<int, Role>, disputes: map<int, Dispute>, compensations: map<string, Compensation>,
                           d: int)
    requires DisputesOk(users, disputes, compensations) && d in disputes
    ensures var q := PaidBy(compensations, d);
            if disputes[d].resolved
            then q.Some? && CompensationsOf(compensations, d) == {q.value}
                && compensations[q.value].user == disputes[d].user
            else q.None? && CompensationsOf(compensations, d) == {}
  {
    hide PaidBy;
    var q := PaidBy(compensations, d);
    forall t ensures t in CompensationsOf(compensations, d) <==> q == Some(t) {
      if t in CompensationsOf(compensations, d) { assert Pays(compensations, t, d); }
    }
    assert CompensationsOf(compensations, d) == if q.Some? then {q.value} else {};
  }

  /** A payment is REFUNDED iff it has exactly one refund row, otherwise it has none; the refund has its ledger pair. */
  lemma RefundedOnce(cfg: Config, db: Db, p: int)
    requires Inv(cfg, db) && p in db.payments
    ensures if db.payments[p].refunded
            then exists r :: r in db.refunds && RefundsOf(db.refunds, p) == {r}
                             && LedgerRows(db.ledger, Refund, r) == PairOf(Refund, r, db.refunds[r].user)
            else RefundsOf(db.refunds, p) == {}
  {
    hide SumBy, UsersOk, NoOverdraft, TotalsOk, ClosedForms, OrderRows, RechargeRows, RefundRows, CompensationRows,
         OrdersOk, EventsOk, SettleKeysOk, RechargesOk, PaymentsOk, RefundsOk, DisputesOk, NotesOk, RefundsOf,
         LedgerRows, PairOf;
    OneRefundRow(db.payments, db.refunds, p);
    if db.payments[p].refunded {
      var r :| r in db.refunds && RefundsOf(db.refunds, p) == {r};
      RefundPair(db.ledger, db.refunds, r);
    }
  }

  /** A dispute is RESOLVED iff exactly one compensation names it, and then it has one ledger pair; else it has
      neither. */
  lemma CompensatedOnce(cfg: Config, db: Db, d: int)
    requires Inv(cfg, db) && d in db.disputes
    ensures if db.disputes[d].resolved
            then (exists q :: CompensationsOf(db.compensations, d) == {q})
                && LedgerRows(db.ledger, Compensate, d) == PairOf(Compensate, d, db.disputes[d].user)
            else CompensationsOf(db.compensations, d) == {} && LedgerRows(db.ledger, Compensate, d) == {}
  {
    hide SumBy, UsersOk, NoOverdraft, TotalsOk, ClosedForms, OrderRows, RechargeRows, RefundRows, CompensationRows,
         OrdersOk, EventsOk, SettleKeysOk, RechargesOk, PaymentsOk, RefundsOk, DisputesOk, NotesOk, PaidBy,
         CompensationsOf, LedgerRows, PairOf;
    OneCompensationRow(db.users, db.disputes, db.compensations, d);
    CompensationPair(db.ledger, db.compensations, d);
  }

  /** Whatever old status a second refund reads, it changes nothing once the payment is refunded. */
  lemma LateRefundDoesNothing(cfg: Config, db: Db, snap: Db, id: int, payment: int, user: int, amount: int,
                              requestKey: string)
    requires Inv(cfg, db) && payment in db.payments && db.payments[payment].refunded
    ensures RefundPayment(db, snap, id, payment, user, amount, requestKey).After(db) == db
  {
    hide Inv, LedgerRows, PayBack, EnsureAccounts, TransferFree, NoteFree, CanDebit;
    RefundedOnce(cfg, db, payment);
    var r :| RefundsOf(db.refunds, payment) == {r};
    assert r in RefundsOf(db.refunds, payment);
    assert HasPayment(db.refunds, r, payment);
  }

  /** Whatever old status a second compensation reads, it changes nothing once the dispute is resolved. */
  lemma LateCompensationDoesNothing(db: Db, snap: Db, d: int, admin: int, requestKey: string, amount: int)
    requires d in db.disputes && db.disputes[d].resolved
    ensures CompensateDispute(db, snap, d, admin, requestKey, amount).After(db) == db
  {
    hide Award, EnsureAccounts, TransferFree, NoteFree;
  }

  // ---- what a callback does to the wallets ----

  function PaymentKey(eventId: string): string { Trim("PAYMENT:" + eventId) }

  lemma CallbackKeyIsTrimmed(eventId: string, uuid: string)
    ensures RechargeKey(Some("PAYMENT:" + eventId), uuid) == PaymentKey(eventId)
  {
    assert ("PAYMENT:" + eventId)[0] == 'P';
  }

  /** How a recharge ends: credit under a new key; under a used one nothing, and success only for the same request in a
      snapshot that shows the key. */
  lemma RechargeOutcome(cfg: Config, db: Db, snap: Db, user: int, amount: int, requested: Option<string>, uuid: string,
                        b: int)
    requires Inv(cfg, db) && Earlier(snap, db)
    ensures var r := RechargeRow(user, amount, RechargeKey(requested, uuid));
            var key := RechargeOp(r.key);
            var answer := RechargeWallet(db, snap, user, amount, requested, uuid, b);
            if !IsBusinessUser(snap.users, user) || amount <= 0 || !KeyFits(key) then answer.Abort?
            else if key in db.idem then
              answer == if key !in snap.idem then Abort(DuplicateKey)
                        else if db.idem[key] == RechargeRequest(user, amount) then Commit(db, Replayed)
                        else Abort(IdempotencyConflict)
            else if Creditable(db, b, r) then answer == Commit(Credit(db, b, r), Recharged)
            else answer.Abort?
  {
    hide Inv, Credit, EnsureAccounts, TransferFree, RechargeKey;
    AccountsOfUsers(cfg, db);
    EnsureAccountsIsIdle(db, user);
    EnsureAccountsIsIdle(db, MINT_ID);
  }

  /** A callback that records a payment credits it iff no recharge used the key "PAYMENT:" + event id before.
      With the key used for the same user and amount the payment is recorded but nothing is credited. */
  lemma CallbackCreditsIff(cfg: Config, db: Db, snap: Db, request: CallbackRequest, id: int, uuid: string, b: int)
    requires Inv(cfg, db) && Earlier(snap, db) && Callback(db, snap, true, request, id, uuid, b).After(db) != db
    ensures var db' := Callback(db, snap, true, request, id, uuid, b).After(db);
            var r := RechargeRow(request.user, request.amount, PaymentKey(request.eventId));
            db' == WithPayment(if RechargeOp(r.key) in db.idem then db else Credit(db, b, r), id, PaymentRow(request))
  {
    hide Inv, Earlier, Callback, RechargeWallet, EnsureAccounts, Credit, NewPayment, PaymentKey, RechargeKey,
         WithPayment, Creditable;
    CallbackIsRechargePlusPayment(db, snap, true, request, id, uuid, b);
    CallbackKeyIsTrimmed(request.eventId, uuid);
    RechargeOutcome(cfg, db, snap, request.user, request.amount, Some("PAYMENT:" + request.eventId), uuid, b);
  }

  lemma NewToSnapshot(db: Db, snap: Db, request: CallbackRequest)
    requires Earlier(snap, db) && FindPayment(db.payments, request).None?
    ensures FindPayment(snap.payments, request).None?
  {
    assert forall p :: HasEvent(snap.payments, p, request.eventId) ==> HasEvent(db.payments, p, request.eventId);
    assert forall p :: HasProviderId(snap.payments, p, request.providerId)
                       ==> HasProviderId(db.payments, p, request.providerId);
  }

  lemma NewPaymentsAreUnnoted(cfg: Config, db: Db, id: int)
    requires Inv(cfg, db) && id !in db.payments
    ensures NoteFree(db, PaymentNote(id))
  {}

  /** A business user whom the snapshot shows, a positive amount, ids and key that fit their columns, free generated
      ids, and a key that is unused, or shown by the snapshot with the same user and amount. */
  predicate Recordable(db: Db, snap: Db, request: CallbackRequest, id: int, b: int) {
    var key := RechargeOp(PaymentKey(request.eventId));
    && IsBusinessUser(snap.users, request.user) && request.amount > 0 && id !in db.payments
    && IdsFit(request) && KeyFits(key)
    && if key in db.idem then key in snap.idem && db.idem[key] == RechargeRequest(request.user, request.amount)
       else TransferFree(db, Recharge, b, Account(MINT_ID, Available), Account(request.user, Available))
  }

  /** Exactly when a verified callback of a payment not yet recorded commits. */
  lemma CallbackCommitsIff(cfg: Config, db: Db, snap: Db, request: CallbackRequest, id: int, uuid: string, b: int)
    requires Inv(cfg, db) && Earlier(snap, db) && FindPayment(db.payments, request).None?
    ensures Callback(db, snap, true, request, id, uuid, b).Commit? <==> Recordable(db, snap, request, id, b)
  {
    hide Inv, RechargeWallet, EnsureAccounts, Credit, PaymentKey, RechargeKey, TransferFree, FindPayment;
    var key := Some("PAYMENT:" + request.eventId);
    NewToSnapshot(db, snap, request);
    CallbackKeyIsTrimmed(request.eventId, uuid);
    RechargeOutcome(cfg, db, snap, request.user, request.amount, key, uuid, b);
    RechargeIgnoresPayments(db, snap, db.payments[id := PaymentRow(request)], request.user, request.amount, key, uuid,
                            b);
    CreditWritesKey(db, b, RechargeRow(request.user, request.amount, PaymentKey(request.eventId)));
    if id !in db.payments { NewPaymentsAreUnnoted(cfg, db, id); }
  }

  /** A payment whose key does not fit its column is never recorded: every callback of it that has to record it
      fails. */
  lemma LongEventIsNeverRecorded(db: Db, snap: Db, verified: bool, request: CallbackRequest, id: int, uuid: string,
                                 b: int)
    requires |PaymentKey(request.eventId)| > KEY_WIDTH
    ensures Callback(db, snap, verified, request, id, uuid, b).After(db) == db
    ensures FindPayment(snap.payments, request).None? ==> Callback(db, snap, verified, request, id, uuid, b).Abort?
  {
    hide EnsureAccounts, Credit, PaymentKey, RechargeKey, TransferFree, FindPayment;
    CallbackKeyIsTrimmed(request.eventId, uuid);
  }

  /** A key that was used for another user or amount blocks the payment: no callback of it records it, and where nothing
      else is wrong the reason is the key, as a conflict or, for a key newer than the snapshot, as a duplicate. */
  lemma UsedKeyBlocksPayment(db: Db, snap: Db, verified: bool, request: CallbackRequest, id: int, uuid: string, b: int)
    requires Earlier(snap, db)
    requires var key := RechargeOp(PaymentKey(request.eventId));
             key in db.idem && db.idem[key] != RechargeRequest(request.user, request.amount)
    ensures var c := Callback(db, snap, verified, request, id, uuid, b);
            && c.After(db) == db && (FindPayment(snap.payments, request).None? ==> c.Abort?)
            && (verified && FindPayment(db.payments, request).None? && IsBusinessUser(snap.users, request.user)
                && request.amount > 0 && id !in db.payments && IdsFit(request)
                && |PaymentKey(request.eventId)| <= KEY_WIDTH
                ==> c == Abort(if RechargeOp(PaymentKey(request.eventId)) in snap.idem then IdempotencyConflict
                               else DuplicateKey))
  {
    hide RechargeWallet, PaymentKey, RechargeKey, FindPayment, NoteFree;
    if FindPayment(db.payments, request).None? { NewToSnapshot(db, snap, request); }
    CallbackKeyIsTrimmed(request.eventId, uuid);
    hide Earlier;
    UsedKeyBlocksRecharge(db.(payments := db.payments[id := PaymentRow(request)]), snap, request.user, request.amount,
                          Some("PAYMENT:" + request.eventId), uuid, b);
  }

  lemma UsedKeyBlocksRecharge(db: Db, snap: Db, user: int, amount: int, requested: Option<string>, uuid: string, b: int)
    requires Grows(snap, db)
    requires var key := RechargeOp(RechargeKey(requested, uuid));
             key in db.idem && db.idem[key] != RechargeRequest(user, amount)
    ensures var key := RechargeOp(RechargeKey(requested, uuid));
            var c := RechargeWallet(db, snap, user, amount, requested, uuid, b);
            && c.Abort?
            && (IsBusinessUser(snap.users, user) && amount > 0 && KeyFits(key)
                ==> c.error == if key in snap.idem then IdempotencyConflict else DuplicateKey)
  {
    hide Credit, RechargeKey, TransferFree;
  }

  /** Counterexample to "every recorded payment is credited": once the user's own recharge has used the key
      "PAYMENT:e1" for the same amount, the callback of event e1 records its payment and moves no money. */
  lemma OrdinaryRechargeSwallowsPayment(cfg: Config, db: Db, user: int, uuid: string)
    requires Inv(cfg, db) && IsBusinessUser(db.users, user)
    requires db.payments == map[] && db.recharges == map[] && db.ledger == map[] && db.idem == map[] && db.notes == {}
             && db.events == {}
    ensures var own := RechargeWallet(db, db, user, 100, Some("PAYMENT:e1"), uuid, 1);
            && own == Commit(Credit(db, 1, RechargeRow(user, 100, "PAYMENT:e1")), Recharged)
            && var callback := Callback(own.db, own.db, true, CallbackRequest("provider-1", "e1", user, 100), 1, uuid,
                                        2);
               callback.Commit? && callback.db == WithPayment(own.db, 1, Payment("provider-1", "e1", user, 100, false))
  {
    hide Inv, Earlier, RechargeWallet, EnsureAccounts, RechargeKey, Credit;
    var r := RechargeRow(user, 100, "PAYMENT:e1");
    TrimE1(uuid);
    BusinessIsNotMint(cfg, db, user);
    MintExists(cfg, db);
    EarlierSelf(db);
    RechargeOutcome(cfg, db, db, user, 100, Some("PAYMENT:e1"), uuid, 1);
    var own := Credit(db, 1, r);
    CreditKeeps(cfg, db, 1, r);
    CreditWritesKey(db, 1, r);
    EarlierSelf(own);
    RechargeOutcome(cfg, own, own, user, 100, Some("PAYMENT:e1"), uuid, 2);
    RechargeIgnoresPayments(own, own, own.payments[1 := Payment("provider-1", "e1", user, 100, false)], user, 100,
                            Some("PAYMENT:e1"), uuid, 2);
  }

  /** The same callback, if it was already reading when that recharge committed, is undone instead. */
  lemma RacingRechargeUndoesCallback(cfg: Config, db: Db, user: int, uuid: string)
    requires Inv(cfg, db) && IsBusinessUser(db.users, user) && db.payments == map[] && db.idem == map[]
    ensures var own := Credit(db, 1, RechargeRow(user, 100, "PAYMENT:e1"));
            Callback(own, db, true, CallbackRequest("provider-1", "e1", user, 100), 1, uuid, 2) == Abort(DuplicateKey)
  {
    hide Inv, EnsureAccounts, RechargeKey, TransferFree;
    TrimE1(uuid);
    CreditWritesKey(db, 1, RechargeRow(user, 100, "PAYMENT:e1"));
    hide Credit;
  }

  lemma TrimE1(uuid: string)
    ensures RechargeKey(Some("PAYMENT:e1"), uuid) == "PAYMENT:e1" == "PAYMENT:" + "e1"
  {
    assert "PAYMENT:e1"[0] == 'P';
  }

  lemma MintExists(cfg: Config, db: Db)
    requires Inv(cfg, db)
    ensures MINT_ID in db.users
  {}

  lemma CreditWritesKey(db: Db, b: int, r: RechargeRow)
    ensures var d := Credit(db, b, r);
            && d.payments == db.payments && d.users == db.users && d.notes == db.notes && d.events == db.events
            && RechargeOp(r.key) in d.idem && d.idem[RechargeOp(r.key)] == RechargeRequest(r.user, r.amount)
  {}
}
