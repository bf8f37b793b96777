/** What recharge, callback, refund, dispute and compensation answer and write in a reachable state, column by
    column. */
module PaymentAnswers {
  import opened Model
  import opened Sums
  import opened Books
  import opened PaymentSpec
  import opened KeyText
  import opened Invariants
  import opened OrderSteps
  import opened PaymentSteps
  import opened PaymentTheorems
  import opened OrderAnswers

  // ---- recharge ----

  /** The treasury pays `amount` to the wallet under a new key. */
  function WithRecharge(db: Db, b: int, user: int, amount: int, key: string): Db {
    var mint, wallet := Account(MINT_ID, Available), Account(user, Available);
    db.(accounts := db.accounts[mint := Balance(db, mint) - amount][wallet := Balance(db, wallet) + amount],
        ledger := db.ledger[LedgerKey(Recharge, b, MINT_ID, Available) := -amount]
                           [LedgerKey(Recharge, b, user, Available) := amount],
        idem := db.idem[RechargeOp(key) := RechargeRequest(user, amount)],
        recharges := db.recharges[b := RechargeRow(user, amount, key)])
  }

  lemma RechargeAnswer(cfg: Config, db: Db, snap: Db, user: int, amount: int, requested: Option<string>, uuid: string,
                       key: string, b: int)
    requires Inv(cfg, db) && Earlier(snap, db) && KeyIs(requested, uuid, key)
    ensures RechargeWallet(db, snap, user, amount, requested, uuid, b) ==
            if user !in snap.users then Abort(NotFound)
            else if snap.users[user] != UserRole then Abort(SystemAccountForbidden)
            else if amount <= 0 then Abort(ValidationFailed)
            else if |"RECHARGE:" + key| > 160 then Abort(DataTooLong)
            else if RechargeOp(key) in db.idem then
              if RechargeOp(key) !in snap.idem then Abort(DuplicateKey)
              else if db.idem[RechargeOp(key)] == RechargeRequest(user, amount) then Commit(db, Replayed)
              else Abort(IdempotencyConflict)
            else if LedgerKey(Recharge, b, MINT_ID, Available) in db.ledger
                    || LedgerKey(Recharge, b, user, Available) in db.ledger then Abort(DuplicateKey)
            else Commit(WithRecharge(db, b, user, amount, key), Recharged)
  {
    hide Inv, KeyIs, RechargeKey, TransferFree, Credit, WithRecharge, EnsureAccounts;
    KeyIsRight(requested, uuid, key);
    AccountsOfUsers(cfg, db);
    EnsureAccountsIsIdle(db, user);
    EnsureAccountsIsIdle(db, MINT_ID);
    MintIsNobody(cfg, db);
    if user in snap.users && user != MINT_ID {
      PairIsFree(db, Recharge, b, MINT_ID, user);
      CreditWrites(db, b, user, amount, key);
    }
  }

  lemma PairIsFree(db: Db, biz: BizType, b: int, source: int, target: int)
    requires source in db.users && target in db.users && source != target
    ensures TransferFree(db, biz, b, Account(source, Available), Account(target, Available)) <==>
            LedgerKey(biz, b, source, Available) !in db.ledger && LedgerKey(biz, b, target, Available) !in db.ledger
  {}

  lemma CreditWrites(db: Db, b: int, user: int, amount: int, key: string)
    requires user != MINT_ID && Account(MINT_ID, Available) in db.accounts && Account(user, Available) in db.accounts
    ensures Credit(db, b, RechargeRow(user, amount, key)) == WithRecharge(db, b, user, amount, key)
  {}

  lemma MintIsNobody(cfg: Config, db: Db)
    requires Inv(cfg, db)
    ensures MINT_ID in db.users && db.users[MINT_ID] == MintRole
  {}

  /** For calls one after the other: a recharge that credited under a request key is replayed by the same request,
      whatever identifiers the repetition is given and however the key is padded, and any other request under it is a
      conflict. */
  lemma RechargeReplays(cfg: Config, db: Db, user: int, amount: int, key: string, uuid1: string, b1: int,
                        left: string, right: string, uuid2: string, b2: int, other: int, sum: int)
    requires Inv(cfg, db) && Bare(key) && !Blank(key) && Padding(left) && Padding(right)
    requires RechargeWallet(db, db, user, amount, Some(key), uuid1, b1).Commit?
    requires RechargeWallet(db, db, user, amount, Some(key), uuid1, b1).value == Recharged
    ensures var after := RechargeWallet(db, db, user, amount, Some(key), uuid1, b1).db;
            var again := RechargeWallet(after, after, other, sum, Some(left + key + right), uuid2, b2);
            if other == user && sum == amount then again == Commit(after, Replayed)
            else if other !in after.users then again == Abort(NotFound)
            else if after.users[other] != UserRole then again == Abort(SystemAccountForbidden)
            else again == Abort(if sum <= 0 then ValidationFailed else IdempotencyConflict)
  {
    PaddedKeys(key, left, right, uuid1, uuid2);
    hide Inv, KeyIs, Blank, Bare, Padding, Earlier, RechargeWallet;
    EarlierSelf(db);
    RechargeAnswer(cfg, db, db, user, amount, Some(key), uuid1, key, b1);
    RechargeKeeps(cfg, db, db, user, amount, Some(key), uuid1, b1);
    var after := RechargeWallet(db, db, user, amount, Some(key), uuid1, b1).db;
    EarlierSelf(after);
    RechargeAnswer(cfg, after, after, other, sum, Some(left + key + right), uuid2, key, b2);
  }

  /** Without a request key every call with fresh identifiers credits again. */
  lemma KeylessRechargeCreditsAgain(cfg: Config, db: Db, user: int, amount: int, requested: Option<string>,
                                    uuid: string, b: int)
    requires Inv(cfg, db) && (requested == None || Blank(requested.value))
    requires user in db.users && db.users[user] == UserRole && amount > 0
    requires |uuid| <= 151 && RechargeOp(uuid) !in db.idem
             && forall k: LedgerKey :: k.biz == Recharge && k.bizId == b ==> k !in db.ledger
    ensures RechargeWallet(db, db, user, amount, requested, uuid, b)
            == Commit(WithRecharge(db, b, user, amount, uuid), Recharged)
  {
    hide Inv, Blank, Earlier, RechargeWallet, WithRecharge;
    EarlierSelf(db);
    RechargeAnswer(cfg, db, db, user, amount, requested, uuid, uuid, b);
  }

  // ---- callback ----

  /** A repeated callback: the recorded payment if user, amount and provider id are the same, else a conflict. */
  lemma CallbackOfKnownEvent(cfg: Config, db: Db, snap: Db, request: CallbackRequest, p: int, id: int, uuid: string,
                             b: int)
    requires Inv(cfg, snap) && p in snap.payments && snap.payments[p].eventId == request.eventId
    ensures var old_ := snap.payments[p];
            Callback(db, snap, true, request, id, uuid, b) ==
            if old_.user == request.user && old_.amount == request.amount && old_.providerId == request.providerId
            then Commit(db, p) else Abort(IdempotencyConflict)
  {
    hide RechargeWallet, Inv;
    assert HasEvent(snap.payments, p, request.eventId);
    EventsAreUnique(cfg, snap);
  }

  /** The same payment announced under another event. */
  lemma CallbackOfKnownProviderId(cfg: Config, db: Db, snap: Db, request: CallbackRequest, p: int, id: int,
                                  uuid: string, b: int)
    requires Inv(cfg, snap) && p in snap.payments && snap.payments[p].providerId == request.providerId
    requires forall q :: q in snap.payments ==> snap.payments[q].eventId != request.eventId
    ensures Callback(db, snap, true, request, id, uuid, b) ==
            if snap.payments[p].user == request.user && snap.payments[p].amount == request.amount
            then Commit(db, p) else Abort(IdempotencyConflict)
  {
    hide RechargeWallet, Inv;
    assert HasProviderId(snap.payments, p, request.providerId);
    EventsAreUnique(cfg, snap);
  }

  lemma EventsAreUnique(cfg: Config, db: Db)
    requires Inv(cfg, db)
    ensures forall p, q :: p in db.payments && q in db.payments && p != q ==>
              db.payments[p].eventId != db.payments[q].eventId
    ensures forall p, q :: p in db.payments && q in db.payments && p != q ==>
              db.payments[p].providerId != db.payments[q].providerId
  {}

  lemma UnverifiedCallback(db: Db, snap: Db, request: CallbackRequest, id: int, uuid: string, b: int)
    ensures Callback(db, snap, false, request, id, uuid, b) == Abort(Unauthorized)
  {}

  /** A callback of a payment that neither the snapshot nor the database knows. */
  lemma NewCallbackAnswer(cfg: Config, db: Db, snap: Db, request: CallbackRequest, id: int, uuid: string, key: string,
                          b: int)
    requires Inv(cfg, db) && Earlier(snap, db) && id !in db.payments
    requires forall p :: p in db.payments ==>
               db.payments[p].eventId != request.eventId && db.payments[p].providerId != request.providerId
    requires KeyIs(Some("PAYMENT:" + request.eventId), uuid, key)
    ensures var op, user, amount := RechargeOp(key), request.user, request.amount;
            var credited := if op in db.idem then db else WithRecharge(db, b, user, amount, key);
            Callback(db, snap, true, request, id, uuid, b) ==
            if user !in snap.users then Abort(NotFound)
            else if snap.users[user] != UserRole then Abort(SystemAccountForbidden)
            else if amount <= 0 then Abort(ValidationFailed)
            else if |request.providerId| > 128 || |request.eventId| > 160 || |"RECHARGE:" + key| > 160
                then Abort(DataTooLong)
            else if op in db.idem && op !in snap.idem then Abort(DuplicateKey)
            else if op in db.idem && db.idem[op] != RechargeRequest(user, amount) then Abort(IdempotencyConflict)
            else if op !in db.idem && (LedgerKey(Recharge, b, MINT_ID, Available) in db.ledger
                                       || LedgerKey(Recharge, b, user, Available) in db.ledger) then Abort(DuplicateKey)
            else
              Commit(credited.(payments := db.payments[id := Payment(request.providerId, request.eventId, user, amount,
                                                                     false)],
                               notes := db.notes + {PaymentNote(id)},
                               events := db.events + {Notify(PaymentNote(id))}), id)
  {
    hide FindPayment, KeyIs, Inv, RechargeWallet, Earlier, WithRecharge;
    NothingFound(db, snap, request);
    var text := Some("PAYMENT:" + request.eventId);
    RechargeIgnoresPayments(db, snap, db.payments[id := PaymentRow(request)], request.user, request.amount, text, uuid,
                            b);
    RechargeAnswer(cfg, db, snap, request.user, request.amount, text, uuid, key, b);
    NewPaymentsAreUnnoted(cfg, db, id);
    RechargeLeavesNotes(db, b, request.user, request.amount, key);
  }

  lemma RechargeLeavesNotes(db: Db, b: int, user: int, amount: int, key: string)
    ensures var d := WithRecharge(db, b, user, amount, key);
            d.notes == db.notes && d.events == db.events && d.payments == db.payments
  {}

  lemma NothingFound(db: Db, snap: Db, request: CallbackRequest)
    requires Earlier(snap, db)
    requires forall p :: p in db.payments ==>
               db.payments[p].eventId != request.eventId && db.payments[p].providerId != request.providerId
    ensures FindPayment(db.payments, request) == None && FindPayment(snap.payments, request) == None
  {
    NewToSnapshot(db, snap, request);
  }

  // ---- refund ----

  /** The wallet pays the whole payment back to the treasury, and the payment is REFUNDED. */
  function WithRefund(db: Db, id: int, payment: int, user: int, amount: int, requestKey: string): Db
    requires payment in db.payments
  {
    var mint, wallet := Account(MINT_ID, Available), Account(user, Available);
    db.(accounts := db.accounts[wallet := Balance(db, wallet) - amount][mint := Balance(db, mint) + amount],
        ledger := db.ledger[LedgerKey(Refund, id, user, Available) := -amount]
                           [LedgerKey(Refund, id, MINT_ID, Available) := amount],
        refunds := db.refunds[id := RefundRow(payment, requestKey, user, amount)],
        payments := db.payments[payment := db.payments[payment].(refunded := true)],
        notes := db.notes + {RefundNote(id)},
        events := db.events + {Notify(RefundNote(id))})
  }

  /** A refund under a key that the snapshot does not know. */
  lemma RefundAnswer(cfg: Config, db: Db, snap: Db, id: int, payment: int, user: int, amount: int, requestKey: string)
    requires Inv(cfg, db) && Inv(cfg, snap) && Earlier(snap, db)
    requires forall r :: r in snap.refunds ==> snap.refunds[r].requestKey != requestKey
    ensures RefundPayment(db, snap, id, payment, user, amount, requestKey) ==
            if payment !in snap.payments || payment !in db.payments then Abort(NotFound)
            else if snap.payments[payment].user != user then Abort(Forbidden)
            else if snap.payments[payment].amount != amount then Abort(ValidationFailed)
            else if snap.payments[payment].refunded then Abort(IllegalTransition)
            else if db.payments[payment].refunded || id in db.refunds
                    || exists r :: HasRequestKey(db.refunds, r, requestKey) then Abort(DuplicateKey)
            else if Balance(db, Account(user, Available)) < amount then Abort(InsufficientBalance)
            else Commit(WithRefund(db, id, payment, user, amount, requestKey), id)
  {
    hide Inv, Earlier, PayBack, WithRefund, TransferFree, NoteFree, EnsureAccounts;
    assert FindByRequestKey(snap.refunds, requestKey) == None by {
      assert forall r :: !HasRequestKey(snap.refunds, r, requestKey);
    }
    SeenPaymentIsThere(db, snap, payment);
    if payment in snap.payments && snap.payments[payment].user == user && !snap.payments[payment].refunded {
      RefundedIffRow(cfg, db, payment);
      RefundedIffRow(cfg, snap, payment);
      PaymentIsOk(cfg, db, payment);
      AccountsOfUsers(cfg, db);
      EnsureAccountsIsIdle(db, user);
      EnsureAccountsIsIdle(db, MINT_ID);
      MintIsNobody(cfg, db);
      if id !in db.refunds {
        FreshRefundIsFree(cfg, db, id, user);
        if !db.payments[payment].refunded { PayBackWrites(db, id, payment, user, amount, requestKey); }
      }
    }
  }

  /** The same refund under a key that the snapshot knows: the same row again, or a conflict. */
  lemma RefundReplayAnswer(cfg: Config, db: Db, snap: Db, r: int, id: int, payment: int, user: int, amount: int,
                           requestKey: string)
    requires Inv(cfg, snap) && r in snap.refunds && snap.refunds[r].requestKey == requestKey
    requires payment in snap.payments && snap.payments[payment].user == user && snap.payments[payment].amount == amount
    ensures RefundPayment(db, snap, id, payment, user, amount, requestKey) ==
            if snap.refunds[r].payment == payment && snap.refunds[r].amount == amount
            then Commit(db, r) else Abort(IdempotencyConflict)
  {
    hide Inv;
    assert HasRequestKey(snap.refunds, r, requestKey);
    RefundKeysAreUnique(cfg, snap);
  }

  lemma RefundKeysAreUnique(cfg: Config, db: Db)
    requires Inv(cfg, db)
    ensures forall r, s :: r in db.refunds && s in db.refunds && db.refunds[r].requestKey == db.refunds[s].requestKey
                           ==> r == s
  {}

  lemma SeenPaymentIsThere(db: Db, snap: Db, payment: int)
    requires Earlier(snap, db)
    ensures payment in snap.payments ==>
              && payment in db.payments && db.payments[payment].user == snap.payments[payment].user
              && db.payments[payment].amount == snap.payments[payment].amount
  {}

  lemma RefundedIffRow(cfg: Config, db: Db, payment: int)
    requires Inv(cfg, db) && payment in db.payments
    ensures db.payments[payment].refunded <==> exists r :: HasPayment(db.refunds, r, payment)
  {
    if r :| HasPayment(db.refunds, r, payment) { assert db.refunds[r].payment == payment; }
  }

  lemma FreshRefundIsFree(cfg: Config, db: Db, id: int, user: int)
    requires Inv(cfg, db) && id !in db.refunds && IsBusinessUser(db.users, user)
    ensures TransferFree(db, Refund, id, Account(user, Available), Account(MINT_ID, Available))
            && NoteFree(db, RefundNote(id))
  {
    hide SumBy, NoOverdraft, TotalsOk, ClosedForms, OrderRows, RechargeRows, CompensationRows, OrdersOk, EventsOk,
         SettleKeysOk, RechargesOk, PaymentsOk, RefundsOk, DisputesOk;
    assert forall k: LedgerKey :: k.biz.Refund? && k.bizId == id ==> RowAt(db.ledger, k) == None;
  }

  lemma PayBackWrites(db: Db, id: int, payment: int, user: int, amount: int, requestKey: string)
    requires user != MINT_ID && Account(MINT_ID, Available) in db.accounts && Account(user, Available) in db.accounts
    requires payment in db.payments && !db.payments[payment].refunded
    ensures PayBack(db, id, RefundRow(payment, requestKey, user, amount))
            == WithRefund(db, id, payment, user, amount, requestKey)
  {}

  // ---- disputes ----

  /** Only the payment's own user opens a dispute; it starts OPEN. */
  lemma OpenAnswer(db: Db, snap: Db, id: int, payment: int, user: int)
    requires Earlier(snap, db)
    ensures OpenDispute(db, snap, id, payment, user) ==
            if payment !in snap.payments then Abort(NotFound)
            else if snap.payments[payment].user != user then Abort(Forbidden)
            else if id in db.disputes then Abort(DuplicateKey)
            else Commit(db.(disputes := db.disputes[id := Dispute(payment, user, false, None)]), id)
  {}

  /** The treasury pays the dispute's user, and the dispute is RESOLVED. */
  function WithCompensation(db: Db, dispute: int, admin: int, requestKey: string, amount: int): Db
    requires dispute in db.disputes
  {
    var user := db.disputes[dispute].user;
    var mint, wallet := Account(MINT_ID, Available), Account(user, Available);
    db.(accounts := db.accounts[mint := Balance(db, mint) - amount][wallet := Balance(db, wallet) + amount],
        ledger := db.ledger[LedgerKey(Compensate, dispute, MINT_ID, Available) := -amount]
                           [LedgerKey(Compensate, dispute, user, Available) := amount],
        compensations := db.compensations[requestKey := Compensation(dispute, user, amount, admin)],
        disputes := db.disputes[dispute := db.disputes[dispute].(resolved := true, resolvedBy := Some(admin))],
        notes := db.notes + {DisputeNote(dispute)},
        events := db.events + {Notify(DisputeNote(dispute))})
  }

  lemma CompensateAnswer(cfg: Config, db: Db, snap: Db, dispute: int, admin: int, requestKey: string, amount: int)
    requires Inv(cfg, db) && Earlier(snap, db)
    ensures CompensateDispute(db, snap, dispute, admin, requestKey, amount) ==
            if dispute !in snap.disputes || dispute !in db.disputes then Abort(NotFound)
            else if snap.disputes[dispute].resolved || requestKey in db.compensations then Commit(db, false)
            else if amount <= 0 then Abort(ValidationFailed)
            else if db.disputes[dispute].resolved then Abort(DuplicateKey)
            else Commit(WithCompensation(db, dispute, admin, requestKey, amount), true)
  {
    hide Inv, Earlier, Award, WithCompensation, TransferFree, NoteFree, EnsureAccounts;
    SeenDisputeIsThere(db, snap, dispute, requestKey);
    if dispute in snap.disputes {
      AccountsOfUsers(cfg, db);
      MintIsNobody(cfg, db);
      UnresolvedIsUnpaid(cfg, db, dispute);
      EnsureAccountsIsIdle(db, db.disputes[dispute].user);
      EnsureAccountsIsIdle(db, MINT_ID);
      DisputeRows(cfg, db, dispute);
      AwardWrites(db, dispute, admin, requestKey, amount);
    }
  }

  lemma SeenDisputeIsThere(db: Db, snap: Db, dispute: int, requestKey: string)
    requires Earlier(snap, db)
    ensures dispute in snap.disputes
            ==> dispute in db.disputes && db.disputes[dispute].user == snap.disputes[dispute].user
    ensures requestKey in snap.compensations ==> requestKey in db.compensations
  {}

  lemma DisputeRows(cfg: Config, db: Db, dispute: int)
    requires Inv(cfg, db) && dispute in db.disputes
    ensures var user := db.disputes[dispute].user;
            !db.disputes[dispute].resolved <==>
            TransferFree(db, Compensate, dispute, Account(MINT_ID, Available), Account(user, Available))
    ensures NoteFree(db, DisputeNote(dispute)) <==> !db.disputes[dispute].resolved
  {
    hide SumBy, NoOverdraft, TotalsOk, ClosedForms, OrderRows, RechargeRows, RefundRows, OrdersOk, EventsOk,
         SettleKeysOk, RechargesOk, PaymentsOk, RefundsOk;
    var user := db.disputes[dispute].user;
    assert RowAt(db.ledger, LedgerKey(Compensate, dispute, MINT_ID, Available)).Some?
           <==> PaidBy(db.compensations, dispute).Some?;
    assert RowAt(db.ledger, LedgerKey(Compensate, dispute, user, Available)).Some?
           <==> PaidBy(db.compensations, dispute).Some?;
  }

  lemma AwardWrites(db: Db, dispute: int, admin: int, requestKey: string, amount: int)
    requires dispute in db.disputes && db.disputes[dispute].user != MINT_ID
    requires Account(MINT_ID, Available) in db.accounts && Account(db.disputes[dispute].user, Available) in db.accounts
    ensures Award(db, requestKey, Compensation(dispute, db.disputes[dispute].user, amount, admin))
            == WithCompensation(db, dispute, admin, requestKey, amount)
  {}
}
