/** The MySQL tables as mutable state, with one method for each repository statement. */
module Store {
  import opened Model
  import opened OrderSpec
  import opened PaymentSpec

  /** A returned value, or a thrown exception. */
  datatype Result<+T> = Ok(value: T) | Failed(error: Error)
  {
    predicate IsFailure() { Failed? }
    function PropagateFailure<U>(): Result<U>
      requires Failed?
    { Failed(error) }
    function Extract(): T
      requires Ok?
    { value }
  }

  function Answer<T>(o: Outcome<T>): Result<T> {
    match o
    case Commit(_, value) => Ok(value)
    case Abort(error) => Failed(error)
  }

  class Database {
    var tables: Db

    constructor (tables: Db)
      ensures this.tables == tables
    {
      this.tables := tables;
    }

    /** Undoes every write since `saved` was taken. */
    method Rollback(saved: Db)
      modifies this
      ensures tables == saved
    {
      tables := saved;
    }

    // ---- accounts and ledger ----

    method EnsureAccountRows(user: int)
      modifies this
      ensures tables == EnsureAccounts(old(tables), user)
    {
      if user in tables.users {
        var accounts := tables.accounts;
        if Account(user, Available) !in accounts { accounts := accounts[Account(user, Available) := 0]; }
        if Account(user, Frozen) !in accounts { accounts := accounts[Account(user, Frozen) := 0]; }
        assert accounts == map[Account(user, Available) := 0, Account(user, Frozen) := 0] + tables.accounts;
        tables := tables.(accounts := accounts);
      }
    }

    method Change(a: Account, delta: int) returns (rows: nat)
      modifies this
      ensures tables == old(tables).(accounts := Changed(old(tables).accounts, a, delta))
      ensures rows == if a in old(tables).accounts then 1 else 0
    {
      if a !in tables.accounts { return 0; }
      tables := tables.(accounts := tables.accounts[a := tables.accounts[a] + delta]);
      rows := 1;
    }

    method Debit(a: Account, amount: int) returns (rows: nat)
      modifies this
      ensures rows == if CanDebit(old(tables), a, amount) then 1 else 0
      ensures tables == if rows == 1 then old(tables).(accounts := Changed(old(tables).accounts, a, -amount))
              else old(tables)
    {
      if a !in tables.accounts || tables.accounts[a] < amount { return 0; }
      tables := tables.(accounts := tables.accounts[a := tables.accounts[a] - amount]);
      rows := 1;
    }

    method InsertLedger(k: LedgerKey, amount: int) returns (r: Result<()>)
      modifies this
      ensures r == if Free(old(tables), k) then Ok(()) else Failed(DuplicateKey)
      ensures tables == if r.Ok? then old(tables).(ledger := old(tables).ledger[k := amount]) else old(tables)
    {
      if k in tables.ledger || k.user !in tables.users { return Failed(DuplicateKey); }
      tables := tables.(ledger := tables.ledger[k := amount]);
      r := Ok(());
    }

    /** A guarded debit, the matching credit and their two ledger rows. */
    method Move(biz: BizType, bizId: int, source: Account, target: Account, amount: int, low: Error)
        returns (r: Result<()>)
      modifies this
      ensures r == if !CanDebit(old(tables), source, amount) then Failed(low)
                   else if !TransferFree(old(tables), biz, bizId, source, target) then Failed(DuplicateKey) else Ok(())
      ensures r.Ok? ==> tables == Transfer(old(tables), biz, bizId, source, target, amount)
    {
      var rows := Debit(source, amount);
      if rows != 1 { return Failed(low); }
      r := Credit(biz, bizId, source, target, amount);
    }

    /** The credit of an amount that left `source`, and the two ledger rows. */
    method Credit(biz: BizType, bizId: int, source: Account, target: Account, amount: int) returns (r: Result<()>)
      modifies this
      ensures r == if TransferFree(old(tables), biz, bizId, source, target) then Ok(()) else Failed(DuplicateKey)
      ensures r.Ok? ==>
        tables == old(tables).(accounts := Changed(old(tables).accounts, target, amount),
                               ledger := old(tables).ledger[LedgerKey(biz, bizId, source.user, source.kind) := -amount]
                                                           [LedgerKey(biz, bizId, target.user, target.kind) := amount])
    {
      var _ := Change(target, amount);
      var _ :- InsertLedger(LedgerKey(biz, bizId, source.user, source.kind), -amount);
      r := InsertLedger(LedgerKey(biz, bizId, target.user, target.kind), amount);
    }

    // ---- idempotency keys, events, notifications ----

    /** True for NEW, false for REPLAY; `seen` is what the transaction's own snapshot shows. */
    method StartOp(key: OpKey, request: Fingerprint, seen: map<OpKey, Fingerprint>) returns (r: Result<bool>)
      modifies this
      ensures var refused := StartOutcome(old(tables).idem, seen, key, request);
              r == if refused.Some? then Failed(refused.value) else Ok(key !in old(tables).idem)
      ensures tables == if r == Ok(true) then old(tables).(idem := old(tables).idem[key := request]) else old(tables)
    {
      if !KeyFits(key) { return Failed(DataTooLong); }
      if key in tables.idem {
        if key !in seen { return Failed(DuplicateKey); }
        return if seen[key] == request then Ok(false) else Failed(IdempotencyConflict);
      }
      tables := tables.(idem := tables.idem[key := request]);
      r := Ok(true);
    }

    method Enqueue(event: EventKey) returns (r: Result<()>)
      modifies this
      ensures r == if event in old(tables).events then Failed(DuplicateKey) else Ok(())
      ensures r.Ok? ==> tables == old(tables).(events := old(tables).events + {event})
    {
      if event in tables.events { return Failed(DuplicateKey); }
      tables := tables.(events := tables.events + {event});
      r := Ok(());
    }

    /** The notification row and its outbox event. */
    method Notify(note: NoteKey) returns (r: Result<()>)
      modifies this
      ensures r == if NoteFree(old(tables), note) then Ok(()) else Failed(DuplicateKey)
      ensures r.Ok? ==> tables == WithNote(old(tables), note)
    {
      if note in tables.notes { return Failed(DuplicateKey); }
      tables := tables.(notes := tables.notes + {note});
      r := Enqueue(EventKey.Notify(note));
    }

    // ---- orders: each conditional update returns the number of rows it changed ----

    method InsertOrder(id: int, o: Order) returns (r: Result<()>)
      modifies this
      ensures r == if id in old(tables).orders then Failed(DuplicateKey) else Ok(())
      ensures r.Ok? ==> tables == old(tables).(orders := old(tables).orders[id := o])
    {
      if id in tables.orders { return Failed(DuplicateKey); }
      Write(id, o);
      r := Ok(());
    }

    method Write(id: int, o: Order)
      modifies this
      ensures tables == old(tables).(orders := old(tables).orders[id := o])
    {
      tables := tables.(orders := tables.orders[id := o]);
    }

    method Claim(id: int, taker: int, ttlSeconds: int) returns (rows: nat)
      modifies this
      ensures rows == if Claimable(old(tables), id, taker) then 1 else 0
      ensures tables == if rows == 0 then old(tables) else
                old(tables).(orders := old(tables).orders[id := TakenBy(old(tables).orders[id], taker,
                    old(tables).now + 1000 * ttlSeconds)])
    {
      if id !in tables.orders { return 0; }
      var o := tables.orders[id];
      if !o.status.Published? || o.taker.Some? || o.publisher == taker || o.claimDeadline <= tables.now { return 0; }
      Write(id, o.(status := Taken, taker := Some(taker), deliverDeadline := Some(tables.now + 1000 * ttlSeconds),
                   version := o.version + 1));
      rows := 1;
    }

    method MarkDelivered(id: int, taker: int) returns (rows: nat)
      modifies this
      ensures rows == if Deliverable(old(tables), id, taker) then 1 else 0
      ensures tables == OrderSpec.MarkDelivered(old(tables), id, taker).After(old(tables))
    {
      if id !in tables.orders { return 0; }
      var o := tables.orders[id];
      if !o.status.Taken? || o.taker != Some(taker) || o.deliverDeadline.None?
          || o.deliverDeadline.value <= tables.now {
        return 0;
      }
      Write(id, o.(status := Delivered, deliveredAt := Some(tables.now), nextRetryAt := Some(tables.now),
                   version := o.version + 1));
      rows := 1;
    }

    method MarkSettled(id: int, commission: int) returns (rows: nat)
      modifies this
      ensures rows == if id in old(tables).orders && old(tables).orders[id].status.Delivered? then 1 else 0
      ensures tables == if rows == 0 then old(tables) else
                old(tables).(orders := old(tables).orders[id := SettledWith(old(tables).orders[id], commission)])
    {
      if id !in tables.orders || !tables.orders[id].status.Delivered? { return 0; }
      var o := tables.orders[id];
      Write(id, o.(status := Settled, commission := commission, nextRetryAt := None, version := o.version + 1));
      rows := 1;
    }

    method CancelByPublisher(id: int, publisher: int) returns (rows: nat)
      modifies this
      ensures rows == if id in old(tables).orders && old(tables).orders[id].publisher == publisher
                         && (old(tables).orders[id].status.Published? || old(tables).orders[id].status.Taken?) then 1
                            else 0
      ensures tables == if rows == 0 then old(tables)
              else old(tables).(orders := old(tables).orders[id := CancelledOrder(old(tables).orders[id])])
    {
      if id !in tables.orders { return 0; }
      var o := tables.orders[id];
      if o.publisher != publisher || !(o.status.Published? || o.status.Taken?) { return 0; }
      Write(id, o.(status := Cancelled, version := o.version + 1));
      rows := 1;
    }

    method CancelOverdueClaim(id: int) returns (rows: nat)
      modifies this
      ensures rows == if id in old(tables).orders && ClaimOverdue(old(tables).orders[id], old(tables).now) then 1 else 0
      ensures tables == if rows == 0 then old(tables)
              else old(tables).(orders := old(tables).orders[id := CancelledOrder(old(tables).orders[id])])
    {
      if id !in tables.orders { return 0; }
      var o := tables.orders[id];
      if !o.status.Published? || o.claimDeadline > tables.now { return 0; }
      Write(id, o.(status := Cancelled, version := o.version + 1));
      rows := 1;
    }

    method CancelOverdueDelivery(id: int) returns (rows: nat)
      modifies this
      ensures rows == if id in old(tables).orders && DeliverOverdue(old(tables).orders[id], old(tables).now) then 1
              else 0
      ensures tables == if rows == 0 then old(tables)
              else old(tables).(orders := old(tables).orders[id := CancelledOrder(old(tables).orders[id])])
    {
      if id !in tables.orders { return 0; }
      var o := tables.orders[id];
      if !o.status.Taken? || o.deliverDeadline.None? || o.deliverDeadline.value > tables.now { return 0; }
      Write(id, o.(status := Cancelled, version := o.version + 1));
      rows := 1;
    }

    method RecordFailure(id: int, count: nat, nextRetryAt: int)
      modifies this
      ensures tables == RecordSettlementFailure(old(tables), id, count, nextRetryAt)
    {
      if id in tables.orders && tables.orders[id].status.Delivered? {
        Write(id, tables.orders[id].(retryCount := count, nextRetryAt := Some(nextRetryAt)));
      }
    }

    method MarkDead(id: int)
      modifies this
      ensures tables == MarkSettlementDead(old(tables), id)
    {
      if id in tables.orders && tables.orders[id].status.Delivered? {
        Write(id, tables.orders[id].(settlementDead := true));
      }
    }

    // ---- payments, refunds, disputes ----

    /** History only: the ledger rows of a recharge carry the same facts. */
    method RecordRecharge(bizId: int, row: RechargeRow)
      modifies this
      ensures tables == old(tables).(recharges := old(tables).recharges[bizId := row])
    {
      tables := tables.(recharges := tables.recharges[bizId := row]);
    }

    method InsertPayment(id: int, request: CallbackRequest) returns (r: Result<()>)
      modifies this
      ensures r == if !IdsFit(request) then Failed(DataTooLong)
                   else if FindPayment(old(tables).payments, request).Some? || id in old(tables).payments
                       then Failed(DuplicateKey)
                   else Ok(())
      ensures r.Ok? ==> tables == old(tables).(payments := old(tables).payments[id := PaymentRow(request)])
    {
      if !IdsFit(request) { return Failed(DataTooLong); }
      if id in tables.payments { return Failed(DuplicateKey); }
      if p :| p in tables.payments
              && (tables.payments[p].eventId == request.eventId
                  || tables.payments[p].providerId == request.providerId) {
        assert HasEvent(tables.payments, p, request.eventId) || HasProviderId(tables.payments, p, request.providerId);
        return Failed(DuplicateKey);
      }
      tables := tables.(payments := tables.payments[id := PaymentRow(request)]);
      r := Ok(());
    }

    method MarkRefunded(payment: int)
      modifies this
      ensures tables == old(tables).(payments := Refunded(old(tables).payments, payment))
    {
      if payment in tables.payments && !tables.payments[payment].refunded {
        tables := tables.(payments := tables.payments[payment := tables.payments[payment].(refunded := true)]);
      }
    }

    method InsertRefund(id: int, row: RefundRow) returns (r: Result<()>)
      modifies this
      ensures r == if RefundKeysFree(old(tables).refunds, id, row.payment, row.requestKey) then Ok(())
              else Failed(DuplicateKey)
      ensures tables == if r.Ok? then old(tables).(refunds := old(tables).refunds[id := row]) else old(tables)
    {
      if id in tables.refunds { return Failed(DuplicateKey); }
      if r :| r in tables.refunds
              && (tables.refunds[r].requestKey == row.requestKey || tables.refunds[r].payment == row.payment) {
        assert HasRequestKey(tables.refunds, r, row.requestKey) || HasPayment(tables.refunds, r, row.payment);
        return Failed(DuplicateKey);
      }
      tables := tables.(refunds := tables.refunds[id := row]);
      r := Ok(());
    }

    method InsertDispute(id: int, d: Dispute) returns (r: Result<()>)
      modifies this
      ensures r == if id in old(tables).disputes || d.payment !in old(tables).payments then Failed(DuplicateKey)
              else Ok(())
      ensures r.Ok? ==> tables == old(tables).(disputes := old(tables).disputes[id := d])
    {
      if id in tables.disputes || d.payment !in tables.payments { return Failed(DuplicateKey); }
      tables := tables.(disputes := tables.disputes[id := d]);
      r := Ok(());
    }

    /** The status moves only from OPEN. */
    method Resolve(id: int, admin: int) returns (rows: nat)
      modifies this
      ensures rows == if id in old(tables).disputes && !old(tables).disputes[id].resolved then 1 else 0
      ensures tables == if rows == 0 then old(tables) else
                old(tables).(disputes := old(tables).disputes[id := old(tables).disputes[id].(resolved := true,
                    resolvedBy := Some(admin))])
    {
      if id !in tables.disputes || tables.disputes[id].resolved { return 0; }
      tables := tables.(disputes := tables.disputes[id := tables.disputes[id].(resolved := true,
          resolvedBy := Some(admin))]);
      rows := 1;
    }

    method InsertCompensation(requestKey: string, c: Compensation) returns (r: Result<()>)
      modifies this
      ensures r == if requestKey in old(tables).compensations then Failed(DuplicateKey)
                   else if c.amount <= 0 || c.dispute !in old(tables).disputes then Failed(ValidationFailed) else Ok(())
      ensures tables == if r.Ok? then old(tables).(compensations := old(tables).compensations[requestKey := c])
              else old(tables)
    {
      if requestKey in tables.compensations { return Failed(DuplicateKey); }
      if c.amount <= 0 || c.dispute !in tables.disputes { return Failed(ValidationFailed); }
      tables := tables.(compensations := tables.compensations[requestKey := c]);
      r := Ok(());
    }
  }
}
