/** Recharge, callback, refund and compensation step by step.  `snap` answers the reads that take no lock. */
module PaymentServices {
  import opened Model
  import opened PaymentSpec
  import opened Store
  import opened OrderServices

  ghost predicate UniquePayments(payments: map<int, Payment>) {
    && (forall p, q :: p in payments && q in payments && payments[p].eventId == payments[q].eventId ==> p == q)
    && (forall p, q :: p in payments && q in payments && payments[p].providerId == payments[q].providerId ==> p == q)
  }

  ghost predicate UniqueRefunds(refunds: map<int, RefundRow>) {
    forall r, s :: r in refunds && s in refunds && refunds[r].requestKey == refunds[s].requestKey ==> r == s
  }

  method SelectByEvent(payments: map<int, Payment>, eventId: string) returns (r: Option<int>)
    requires UniquePayments(payments)
    ensures r == FindByEvent(payments, eventId)
  {
    if p :| p in payments && payments[p].eventId == eventId {
      assert HasEvent(payments, p, eventId);
      return Some(p);
    }
    r := None;
  }

  method SelectByProviderId(payments: map<int, Payment>, providerId: string) returns (r: Option<int>)
    requires UniquePayments(payments)
    ensures r == FindByProviderId(payments, providerId)
  {
    if p :| p in payments && payments[p].providerId == providerId {
      assert HasProviderId(payments, p, providerId);
      return Some(p);
    }
    r := None;
  }

  method SelectByRequestKey(refunds: map<int, RefundRow>, key: string) returns (r: Option<int>)
    requires UniqueRefunds(refunds)
    ensures r == FindByRequestKey(refunds, key)
  {
    if i :| i in refunds && refunds[i].requestKey == key {
      assert HasRequestKey(refunds, i, key);
      return Some(i);
    }
    r := None;
  }

  class WalletService {
    const db: Database

    constructor (db: Database)
      ensures this.db == db
    {
      this.db := db;
    }

    method Recharge(snap: Db, user: int, amount: int, requested: Option<string>, uuid: string, bizId: int)
        returns (r: Result<RechargeAnswer>)
      modifies db
      ensures var o := RechargeWallet(old(db.tables), snap, user, amount, requested, uuid, bizId);
              r == Answer(o) && db.tables == o.After(old(db.tables))
    {
      var saved := db.tables;
      r := RechargeSteps(snap, user, amount, requested, uuid, bizId);
      if r.Failed? { db.Rollback(saved); }
    }

    method RechargeSteps(snap: Db, user: int, amount: int, requested: Option<string>, uuid: string, bizId: int)
        returns (r: Result<RechargeAnswer>)
      modifies db
      ensures var o := RechargeWallet(old(db.tables), snap, user, amount, requested, uuid, bizId);
              r == Answer(o) && (r.Ok? ==> db.tables == o.db)
    {
      hide Credit, RechargeKey, TransferFree;
      var _ :- RequireBusinessUser(snap.users, user);
      if amount <= 0 { return Failed(ValidationFailed); }
      db.EnsureAccountRows(user);
      db.EnsureAccountRows(MINT_ID);
      var row := RechargeRow(user, amount, RechargeKey(requested, uuid));
      ghost var before := db.tables;
      var started :- db.StartOp(RechargeOp(row.key), RechargeRequest(user, amount), snap.idem);
      if !started { return Ok(Replayed); }
      var _ :- CreditSteps(bizId, row, before);
      r := Ok(Recharged);
    }

    /** The money of a recharge whose key was just reserved in `before`. */
    method CreditSteps(bizId: int, row: RechargeRow, ghost before: Db) returns (r: Result<()>)
      requires db.tables == before.(idem := before.idem[RechargeOp(row.key) := RechargeRequest(row.user, row.amount)])
      modifies db
      ensures r == if Account(row.user, Available) !in before.accounts then Failed(NotFound)
                   else if !TransferFree(before, BizType.Recharge, bizId, Account(MINT_ID, Available),
                                         Account(row.user, Available)) then Failed(DuplicateKey)
                   else Ok(())
      ensures r.Ok? ==> db.tables == Credit(before, bizId, row)
    {
      hide Changed, TransferFree;
      TransferFreeIgnores(before, db.tables.idem, bizId, row.user, -row.amount);
      var _ := db.Change(Account(MINT_ID, Available), -row.amount);
      if Account(row.user, Available) !in db.tables.accounts { return Failed(NotFound); }
      var _ :- db.Credit(BizType.Recharge, bizId, Account(MINT_ID, Available), Account(row.user, Available),
                         row.amount);
      db.RecordRecharge(bizId, row);
      r := Ok(());
    }
  }

  /** The unique key of the ledger does not look at balances or idempotency keys. */
  lemma TransferFreeIgnores(db: Db, idem: map<OpKey, Fingerprint>, bizId: int, user: int, delta: int)
    ensures var accounts := Changed(db.accounts, Account(MINT_ID, Available), delta);
            && TransferFree(db.(idem := idem, accounts := accounts), BizType.Recharge, bizId,
                            Account(MINT_ID, Available), Account(user, Available))
               == TransferFree(db, BizType.Recharge, bizId, Account(MINT_ID, Available), Account(user, Available))
            && (forall a :: a in accounts <==> a in db.accounts)
  {}

  class PaymentService {
    const db: Database
    const wallets: WalletService

    constructor (db: Database, wallets: WalletService)
      ensures this.db == db && this.wallets == wallets
    {
      this.db, this.wallets := db, wallets;
    }

    method Callback(snap: Db, verified: bool, request: CallbackRequest, id: int, uuid: string, bizId: int)
        returns (r: Result<int>)
      requires wallets.db == db && UniquePayments(snap.payments)
      modifies db
      ensures var o := PaymentSpec.Callback(old(db.tables), snap, verified, request, id, uuid, bizId);
              r == Answer(o) && db.tables == o.After(old(db.tables))
    {
      var saved := db.tables;
      r := CallbackSteps(snap, verified, request, id, uuid, bizId);
      if r.Failed? { db.Rollback(saved); }
    }

    method CallbackSteps(snap: Db, verified: bool, request: CallbackRequest, id: int, uuid: string, bizId: int)
        returns (r: Result<int>)
      requires wallets.db == db && UniquePayments(snap.payments)
      modifies db
      ensures var o := PaymentSpec.Callback(old(db.tables), snap, verified, request, id, uuid, bizId);
              r == Answer(o) && (r.Ok? ==> db.tables == o.After(old(db.tables)))
    {
      hide RechargeWallet, NoteFree, WithNote, UniquePayments;
      if !verified { return Failed(Unauthorized); }
      var existing := SelectByEvent(snap.payments, request.eventId);
      if existing.None? { existing := SelectByProviderId(snap.payments, request.providerId); }
      if existing.Some? {
        return if SamePayment(snap.payments[existing.value], request) then Ok(existing.value)
               else Failed(IdempotencyConflict);
      }
      var _ :- RequireBusinessUser(snap.users, request.user);
      if request.amount <= 0 { return Failed(ValidationFailed); }
      var _ :- db.InsertPayment(id, request);
      var _ :- wallets.RechargeSteps(snap, request.user, request.amount, Some("PAYMENT:" + request.eventId), uuid,
                                     bizId);
      var _ :- db.Notify(PaymentNote(id));
      r := Ok(id);
    }
  }

  class RefundService {
    const db: Database

    constructor (db: Database)
      ensures this.db == db
    {
      this.db := db;
    }

    method Refund(snap: Db, id: int, payment: int, user: int, amount: int, requestKey: string) returns (r: Result<int>)
      requires UniqueRefunds(snap.refunds)
      modifies db
      ensures var o := RefundPayment(old(db.tables), snap, id, payment, user, amount, requestKey);
              r == Answer(o) && db.tables == o.After(old(db.tables))
    {
      var saved := db.tables;
      r := RefundSteps(snap, id, payment, user, amount, requestKey);
      if r.Failed? { db.Rollback(saved); }
    }

    method RefundSteps(snap: Db, id: int, payment: int, user: int, amount: int, requestKey: string)
        returns (r: Result<int>)
      requires UniqueRefunds(snap.refunds)
      modifies db
      ensures var o := RefundPayment(old(db.tables), snap, id, payment, user, amount, requestKey);
              r == Answer(o) && (r.Ok? ==> db.tables == o.After(old(db.tables)))
    {
      hide RefundKeysFree, CanDebit, TransferFree, NoteFree, PayBack, UniqueRefunds;
      if payment !in snap.payments { return Failed(NotFound); }
      var p := snap.payments[payment];
      if p.user != user { return Failed(Forbidden); }
      if amount != p.amount { return Failed(ValidationFailed); }
      var replay := SelectByRequestKey(snap.refunds, requestKey);
      if replay.Some? {
        var old' := snap.refunds[replay.value];
        return if old'.payment != payment || old'.amount != amount then Failed(IdempotencyConflict)
               else Ok(replay.value);
      }
      if p.refunded { return Failed(IllegalTransition); }
      ghost var before := db.tables;
      var row := RefundRow(payment, requestKey, user, amount);
      var inserted := db.InsertRefund(id, row);
      if inserted.Failed? {
        var already := AnyRefundOf(snap.refunds, payment);
        return Failed(if already then IllegalTransition else DuplicateKey);
      }
      EnsureIgnoresRefunds(before, row, id);
      db.EnsureAccountRows(user);
      db.EnsureAccountRows(MINT_ID);
      var _ :- PayBackSteps(id, row, EnsureAccounts(EnsureAccounts(before, user), MINT_ID));
      r := Ok(id);
    }

    method PayBackSteps(id: int, row: RefundRow, ghost before: Db) returns (r: Result<()>)
      requires db.tables == before.(refunds := before.refunds[id := row])
      modifies db
      ensures var wallet, mint := Account(row.user, Available), Account(MINT_ID, Available);
              r == if !CanDebit(before, wallet, row.amount) then Failed(InsufficientBalance)
                   else if !TransferFree(before, BizType.Refund, id, wallet, mint) || !NoteFree(before, RefundNote(id))
                       then Failed(DuplicateKey)
                   else Ok(())
      ensures r.Ok? ==> db.tables == PayBack(before, id, row)
    {
      var _ :- db.Move(BizType.Refund, id, Account(row.user, Available), Account(MINT_ID, Available), row.amount,
                       InsufficientBalance);
      db.MarkRefunded(row.payment);
      r := db.Notify(RefundNote(id));
    }
  }

  method AnyRefundOf(refunds: map<int, RefundRow>, payment: int) returns (r: bool)
    ensures r <==> exists i :: HasPayment(refunds, i, payment)
  {
    if i :| i in refunds && refunds[i].payment == payment {
      assert HasPayment(refunds, i, payment);
      return true;
    }
    r := false;
  }

  lemma EnsureIgnoresRefunds(db: Db, row: RefundRow, id: int)
    ensures var refunds := db.refunds[id := row];
            EnsureAccounts(EnsureAccounts(db.(refunds := refunds), row.user), MINT_ID)
            == EnsureAccounts(EnsureAccounts(db, row.user), MINT_ID).(refunds := refunds)
  {
    hide EnsureAccounts;
    EnsureOnceIgnoresRefunds(db, db.refunds[id := row], row.user);
    EnsureOnceIgnoresRefunds(EnsureAccounts(db, row.user), db.refunds[id := row], MINT_ID);
  }

  lemma EnsureOnceIgnoresRefunds(db: Db, refunds: map<int, RefundRow>, user: int)
    ensures EnsureAccounts(db.(refunds := refunds), user) == EnsureAccounts(db, user).(refunds := refunds)
  {}

  class DisputeService {
    const db: Database

    constructor (db: Database)
      ensures this.db == db
    {
      this.db := db;
    }

    method Open(snap: Db, id: int, payment: int, user: int) returns (r: Result<int>)
      modifies db
      ensures var o := OpenDispute(old(db.tables), snap, id, payment, user);
              r == Answer(o) && db.tables == o.After(old(db.tables))
    {
      if payment !in snap.payments { return Failed(NotFound); }
      if snap.payments[payment].user != user { return Failed(Forbidden); }
      var saved := db.tables;
      var inserted := db.InsertDispute(id, Dispute(payment, user, false, None));
      if inserted.Failed? {
        db.Rollback(saved);
        return Failed(DuplicateKey);
      }
      r := Ok(id);
    }

    method Compensate(snap: Db, dispute: int, admin: int, requestKey: string, amount: int) returns (r: Result<bool>)
      modifies db
      ensures var o := CompensateDispute(old(db.tables), snap, dispute, admin, requestKey, amount);
              r == Answer(o) && db.tables == o.After(old(db.tables))
    {
      var saved := db.tables;
      r := CompensateSteps(snap, dispute, admin, requestKey, amount);
      if r.Failed? { db.Rollback(saved); }
    }

    method CompensateSteps(snap: Db, dispute: int, admin: int, requestKey: string, amount: int)
        returns (r: Result<bool>)
      modifies db
      ensures var o := CompensateDispute(old(db.tables), snap, dispute, admin, requestKey, amount);
              r == Answer(o) && (r.Ok? ==> db.tables == o.After(old(db.tables)))
    {
      hide TransferFree, NoteFree, Award;
      if dispute !in snap.disputes { return Failed(NotFound); }
      if snap.disputes[dispute].resolved { return Ok(false); }
      if requestKey in snap.compensations { return Ok(false); }
      ghost var before := db.tables;
      var c := Compensation(dispute, snap.disputes[dispute].user, amount, admin);
      var inserted := db.InsertCompensation(requestKey, c);
      if inserted == Failed(DuplicateKey) { return Ok(false); }
      if inserted.Failed? { return Failed(ValidationFailed); }
      EnsureIgnoresCompensations(before, c, requestKey);
      db.EnsureAccountRows(c.user);
      db.EnsureAccountRows(MINT_ID);
      var _ :- AwardSteps(requestKey, c, EnsureAccounts(EnsureAccounts(before, c.user), MINT_ID));
      r := Ok(true);
    }

    method AwardSteps(requestKey: string, c: Compensation, ghost before: Db) returns (r: Result<()>)
      requires db.tables == before.(compensations := before.compensations[requestKey := c])
               && c.dispute in before.disputes
      modifies db
      ensures var mint, wallet := Account(MINT_ID, Available), Account(c.user, Available);
              r == if !TransferFree(before, BizType.Compensate, c.dispute, mint, wallet) then Failed(DuplicateKey)
                   else if before.disputes[c.dispute].resolved then Failed(IllegalTransition)
                   else if !NoteFree(before, DisputeNote(c.dispute)) then Failed(DuplicateKey)
                   else Ok(())
      ensures r.Ok? ==> db.tables == Award(before, requestKey, c)
    {
      hide NoteFree, Changed, TransferFree;
      PairFreeIgnores(before, db.tables.compensations, c.dispute, c.user, -c.amount);
      var _ := db.Change(Account(MINT_ID, Available), -c.amount);
      var _ :- db.Credit(BizType.Compensate, c.dispute, Account(MINT_ID, Available), Account(c.user, Available),
                         c.amount);
      var rows := db.Resolve(c.dispute, c.operator);
      if rows != 1 { return Failed(IllegalTransition); }
      NoteFreeIgnores(before, db.tables, DisputeNote(c.dispute));
      r := db.Notify(DisputeNote(c.dispute));
    }
  }

  lemma PairFreeIgnores(db: Db, compensations: map<string, Compensation>, dispute: int, user: int, delta: int)
    ensures var accounts := Changed(db.accounts, Account(MINT_ID, Available), delta);
            TransferFree(db.(compensations := compensations, accounts := accounts), BizType.Compensate, dispute,
                         Account(MINT_ID, Available), Account(user, Available))
            == TransferFree(db, BizType.Compensate, dispute, Account(MINT_ID, Available), Account(user, Available))
  {}

  lemma NoteFreeIgnores(before: Db, db: Db, n: NoteKey)
    requires before.notes == db.notes && before.events == db.events
    ensures NoteFree(db, n) == NoteFree(before, n)
  {}

  lemma EnsureIgnoresCompensations(db: Db, c: Compensation, requestKey: string)
    ensures var compensations := db.compensations[requestKey := c];
            EnsureAccounts(EnsureAccounts(db.(compensations := compensations), c.user), MINT_ID)
            == EnsureAccounts(EnsureAccounts(db, c.user), MINT_ID).(compensations := compensations)
  {
    hide EnsureAccounts;
    EnsureOnceIgnoresCompensations(db, db.compensations[requestKey := c], c.user);
    EnsureOnceIgnoresCompensations(EnsureAccounts(db, c.user), db.compensations[requestKey := c], MINT_ID);
  }

  lemma EnsureOnceIgnoresCompensations(db: Db, compensations: map<string, Compensation>, user: int)
    ensures EnsureAccounts(db.(compensations := compensations), user)
            == EnsureAccounts(db, user).(compensations := compensations)
  {}
}
