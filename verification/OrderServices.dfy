/** The order transactions step by step, each proved to do exactly what its specification says. */
module OrderServices {
  import opened Model
  import opened Sums
  import opened CommissionMath
  import opened OrderSpec
  import opened Invariants
  import opened Store
  import Paging

  method RequireBusinessUser(users: map<int, Role>, user: int) returns (r: Result<()>)
    ensures r == if user !in users then Failed(NotFound)
                 else if !IsBusinessUser(users, user) then Failed(SystemAccountForbidden) else Ok(())
  {
    if user !in users { return Failed(NotFound); }
    if !users[user].UserRole? { return Failed(SystemAccountForbidden); }
    r := Ok(());
  }

  class OrderService {
    const db: Database
    const cfg: Config

    constructor (db: Database, cfg: Config)
      ensures this.db == db && this.cfg == cfg
    {
      this.db, this.cfg := db, cfg;
    }

    // ---- create ----

    method Create(id: int, publisher: int, reward: int, ttl: Option<int>) returns (r: Result<int>)
      modifies db
      ensures var o := OrderSpec.Create(old(db.tables), cfg, id, publisher, reward, ttl);
              r == Answer(o) && db.tables == o.After(old(db.tables))
    {
      var saved := db.tables;
      r := CreateSteps(id, publisher, reward, ttl);
      if r.Failed? { db.Rollback(saved); }
    }

    method CreateSteps(id: int, publisher: int, reward: int, ttl: Option<int>) returns (r: Result<int>)
      modifies db
      ensures var o := OrderSpec.Create(old(db.tables), cfg, id, publisher, reward, ttl);
              r == Answer(o) && (r.Ok? ==> db.tables == o.db)
    {
      hide CanDebit, TransferFree, Publish;
      var _ :- RequireBusinessUser(db.tables.users, publisher);
      if reward <= 0 { return Failed(ValidationFailed); }
      var seconds := if ttl.Some? then ttl.value else cfg.claimTtlSeconds;
      if seconds <= 0 || seconds > 86400 { return Failed(ValidationFailed); }
      db.EnsureAccountRows(publisher);
      var _ :- PublishSteps(id, NewOrder(publisher, reward, db.tables.now + 1000 * seconds));
      r := Ok(id);
    }

    method PublishSteps(id: int, o: Order) returns (r: Result<()>)
      modifies db
      ensures var available, frozen := Account(o.publisher, Available), Account(o.publisher, Frozen);
              r == if id in old(db.tables).orders then Failed(DuplicateKey)
                   else if !CanDebit(old(db.tables), available, o.reward) then Failed(InsufficientBalance)
                   else if !TransferFree(old(db.tables), Freeze, id, available, frozen)
                       || OrderPublished(id) in old(db.tables).events then Failed(DuplicateKey)
                   else Ok(())
      ensures r.Ok? ==> db.tables == Publish(old(db.tables), id, o)
    {
      var _ :- db.InsertOrder(id, o);
      var _ :- db.Move(Freeze, id, Account(o.publisher, Available), Account(o.publisher, Frozen), o.reward,
                       InsufficientBalance);
      r := db.Enqueue(OrderPublished(id));
    }

    // ---- cancel and timeouts ----

    /** The escrow goes back; every caller has just cancelled the order. */
    method RefundSteps(id: int, o: Order) returns (r: Result<()>)
      requires id in db.tables.orders && db.tables.orders[id] == CancelledOrder(o)
      modifies db
      ensures var before := old(db.tables).(orders := old(db.tables).orders[id := o]);
              r == (match Release(before, id) case Commit(_, _) => Ok(()) case Abort(e) => Failed(e))
              && (r.Ok? ==> db.tables == GiveBack(before, id, o))
    {
      var _ :- db.Move(BizType.Cancel, id, Account(o.publisher, Frozen), Account(o.publisher, Available), o.reward,
                       EscrowLow);
      r := db.Enqueue(OrderTerminal(id));
    }

    method Cancel(id: int, caller: int) returns (r: Result<bool>)
      modifies db
      ensures var o := CancelOrder(old(db.tables), id, caller);
              r == Answer(o) && db.tables == o.After(old(db.tables))
    {
      hide Release, GiveBack;
      var saved := db.tables;
      if id !in saved.orders { return Failed(NotFound); }
      var before := saved.orders[id];
      if before.publisher != caller { return Failed(IllegalTransition); }
      if !before.status.Published? && !before.status.Taken? { return Failed(IllegalTransition); }
      var rows := db.CancelByPublisher(id, caller);
      assert rows == 1;  // the row is locked: no race to lose
      r := Finish(id, before, saved);
    }

    method TimeoutClaim(id: int) returns (r: Result<bool>)
      modifies db
      ensures var o := OrderSpec.TimeoutClaim(old(db.tables), id);
              r == Answer(o) && db.tables == o.After(old(db.tables))
    {
      hide Release, GiveBack;
      var saved := db.tables;
      if id !in saved.orders || !saved.orders[id].status.Published? { return Ok(false); }
      var rows := db.CancelOverdueClaim(id);
      if rows != 1 { return Ok(false); }
      r := Finish(id, saved.orders[id], saved);
    }

    method TimeoutDeliver(id: int) returns (r: Result<bool>)
      modifies db
      ensures var o := OrderSpec.TimeoutDeliver(old(db.tables), id);
              r == Answer(o) && db.tables == o.After(old(db.tables))
    {
      hide Release, GiveBack;
      var saved := db.tables;
      if id !in saved.orders || !saved.orders[id].status.Taken? { return Ok(false); }
      var rows := db.CancelOverdueDelivery(id);
      if rows != 1 { return Ok(false); }
      r := Finish(id, saved.orders[id], saved);
    }

    method Finish(id: int, before: Order, saved: Db) returns (r: Result<bool>)
      requires id in saved.orders && saved.orders[id] == before
      requires db.tables == saved.(orders := saved.orders[id := CancelledOrder(before)])
      modifies db
      ensures r == Answer(Release(saved, id)) && db.tables == Release(saved, id).After(saved)
    {
      assert db.tables.(orders := db.tables.orders[id := before]) == saved by {
        assert saved.orders[id := CancelledOrder(before)][id := before] == saved.orders;
      }
      var done := RefundSteps(id, before);
      if done.Failed? {
        db.Rollback(saved);
        return Failed(done.error);
      }
      r := Ok(true);
    }

    // ---- delivery: two transactions ----

    /** `rolledBack` stands for any exception of the database itself during the settlement, `appNow` is the
        application's clock. */
    method Deliver(id: int, taker: int, settlement: SettlementService, rolledBack: bool, appNow: int)
        returns (r: Result<()>)
      requires settlement.db == db && settlement.cfg == cfg
      modifies db
      ensures var marked := OrderSpec.MarkDelivered(old(db.tables), id, taker);
              r == (if marked.Commit? then Ok(()) else Failed(DeliveryFailure(old(db.tables), id, appNow)))
              && db.tables == if marked.Commit? then AfterDelivery(marked.db, cfg, id, rolledBack, appNow)
                 else old(db.tables)
    {
      hide Settlement, Deliverable, RecordSettlementFailure;
      var rows := db.MarkDelivered(id, taker);
      if rows != 1 {
        return if id !in db.tables.orders then Failed(NotFound)
               else if db.tables.orders[id].deliverDeadline.Some?
                   && db.tables.orders[id].deliverDeadline.value <= appNow then Failed(Expired)
               else Failed(IllegalTransition);
      }
      var settled := Failed(DuplicateKey);
      if !rolledBack { settled := settlement.Settle(id); }
      if settled.Failed? { db.RecordFailure(id, 1, appNow + 1000); }
      r := Ok(());
    }
  }

  /** The second transaction of a delivery, and what is recorded when it fails. */
  function AfterDelivery(db: Db, cfg: Config, id: int, rolledBack: bool, appNow: int): Db {
    var settled := Settlement(db, cfg, id);
    if settled.Commit? && !rolledBack then settled.db else RecordSettlementFailure(db, id, 1, appNow + 1000)
  }

  // ---- settlement ----

  /** entries.merge(key, amount, Long::sum). */
  function Merged(entries: map<Account, int>, a: Account, amount: int): map<Account, int> {
    entries[a := (if a in entries then entries[a] else 0) + amount]
  }

  function SettleEntries(o: Order, platform: int, commission: int): map<Account, int>
    requires o.taker.Some?
  {
    Merged(Merged(Merged(map[], Account(o.publisher, Frozen), -o.reward),
                  Account(o.taker.value, Available), o.reward - commission),
           Account(platform, Available), commission)
  }

  function EntryKey(id: int, a: Account): LedgerKey { LedgerKey(BizType.Settle, id, a.user, a.kind) }

  /** `after` has one more SETTLE row for each entry, and otherwise the rows of `ledger`. */
  ghost predicate Inserted(ledger: map<LedgerKey, int>, after: map<LedgerKey, int>, id: int,
                           entries: map<Account, int>) {
    forall k: LedgerKey ::
      RowAt(after, k) == if AccountOf(k) in entries && k == EntryKey(id, AccountOf(k)) then Some(entries[AccountOf(k)])
          else RowAt(ledger, k)
  }

  /** The order of a TreeMap: by user, then AVAILABLE before FROZEN. */
  predicate NotAfter(a: Account, b: Account) {
    a.user < b.user || (a.user == b.user && (a.kind.Available? || b.kind.Frozen?))
  }

  method FirstKey(entries: map<Account, int>) returns (a: Account)
    requires entries != map[]
    ensures a in entries && forall b :: b in entries ==> NotAfter(a, b)
  {
    Paging.FirstExists(entries.Keys, NotAfter);
    var f :| Paging.First(f, entries.Keys, NotAfter);
    assert f in entries && forall b :: b in entries ==> NotAfter(f, b);
    a :| a in entries && forall b :: b in entries ==> NotAfter(a, b);
  }

  class SettlementService {
    const db: Database
    const cfg: Config

    constructor (db: Database, cfg: Config)
      ensures this.db == db && this.cfg == cfg
    {
      this.db, this.cfg := db, cfg;
    }

    /** One ledger row for each merged entry, in key order. */
    method InsertEntries(id: int, entries: map<Account, int>) returns (r: Result<()>)
      modifies db
      ensures r == if forall a ::
              a in entries ==> Free(old(db.tables), EntryKey(id, a)) then Ok(()) else Failed(DuplicateKey)
      ensures r.Ok? ==> db.tables == old(db.tables).(ledger := db.tables.ledger)
                        && Inserted(old(db.tables).ledger, db.tables.ledger, id, entries)
    {
      hide Free, Inserted, EntryKey;
      var rest := entries;
      ghost var before := db.tables;
      ghost var done: map<Account, int> := map[];
      NothingInserted(before.ledger, id);
      while rest != map[]
        invariant forall a :: a in entries <==> a in rest || a in done
        invariant forall a :: a in rest ==> a !in done && rest[a] == entries[a]
        invariant forall a :: a in done ==> done[a] == entries[a] && Free(before, EntryKey(id, a))
        invariant db.tables == before.(ledger := db.tables.ledger)
                  && Inserted(before.ledger, db.tables.ledger, id, done)
        decreases |rest|
      {
        var a := FirstKey(rest);
        OneMoreInserted(before, db.tables, id, done, a, rest[a]);
        var _ :- db.InsertLedger(EntryKey(id, a), rest[a]);
        done, rest := done[a := rest[a]], rest - {a};
      }
      assert done == entries;
      r := Ok(());
    }

    method PayOutSteps(id: int, o: Order, commission: int) returns (r: Result<()>)
      requires id in db.tables.orders && db.tables.orders[id] == o && o.status.Delivered? && o.taker.Some?
      requires o.taker.value != cfg.platform
      requires SettleOp(id) in db.tables.idem && db.tables.idem[SettleOp(id)] == SettleRequest(id)
      modifies db
      ensures var d := old(db.tables);
              r == if !CanDebit(d, Account(o.publisher, Frozen), o.reward) then Failed(EscrowLow)
                   else if !Free(d, EscrowKey(o, id)) || !Free(d, EarningKey(o, id)) || !Free(d, CommissionKey(cfg, id))
                        || OrderTerminal(id) in d.events then Failed(DuplicateKey)
                   else Ok(())
      ensures r.Ok? ==> db.tables == PayOut(old(db.tables), cfg, id, o, commission)
    {
      hide Inserted, SettleEntries, PayOut, CanDebit, Free, EscrowKey, EarningKey, CommissionKey, EntryKey, SettledWith,
           Changed;
      ghost var before := db.tables;
      var rows := db.Debit(Account(o.publisher, Frozen), o.reward);
      if rows != 1 { return Failed(EscrowLow); }
      var _ := db.Change(Account(o.taker.value, Available), o.reward - commission);
      var _ := db.Change(Account(cfg.platform, Available), commission);
      var settled := db.MarkSettled(id, commission);
      assert settled == 1;  // the row is locked: no race to lose
      var entries := SettleEntries(o, cfg.platform, commission);
      EntriesFree(before, db.tables, o, id, cfg, commission);
      var _ :- InsertEntries(id, entries);
      ThreeEntries(before.ledger, db.tables.ledger, o, id, cfg, commission);
      r := db.Enqueue(OrderTerminal(id));
      PayOutIs(before, cfg, id, o, commission);
    }

    method SettleSteps(id: int) returns (r: Result<bool>)
      modifies db
      ensures var o := Settlement(old(db.tables), cfg, id);
              r == Answer(o) && (r.Ok? ==> db.tables == o.db)
    {
      hide PayOut, EscrowKey, EarningKey, CommissionKey, Commission;
      ghost var before := EnsureAccounts(db.tables, cfg.platform);
      if id !in db.tables.orders { return Failed(NotFound); }
      var o := db.tables.orders[id];
      if o.status.Settled? { return Ok(false); }
      if !o.status.Delivered? || o.taker.None? { return Failed(IllegalTransition); }
      var _ :- RequireBusinessUser(db.tables.users, o.publisher);
      var _ :- RequireBusinessUser(db.tables.users, o.taker.value);
      // The lock on the order row keeps every other settlement of it away, so the snapshot shows the key as it is.
      var started :- db.StartOp(SettleOp(id), SettleRequest(id), db.tables.idem);
      if !started { return Ok(false); }
      var commission := Commission(o.reward, cfg.rate);
      if commission.None? { return Failed(RateOutOfRange); }
      if cfg.platform !in db.tables.users { return Failed(NotFound); }
      if !db.tables.users[cfg.platform].PlatformRole? { return Failed(SystemAccountForbidden); }
      db.EnsureAccountRows(cfg.platform);
      PayOutTwice(before, cfg, id, o, commission.value);
      var _ :- PayOutSteps(id, o, commission.value);
      r := Ok(true);
    }

    method Settle(id: int) returns (r: Result<bool>)
      modifies db
      ensures var o := Settlement(old(db.tables), cfg, id);
              r == Answer(o) && db.tables == o.After(old(db.tables))
    {
      var saved := db.tables;
      r := SettleSteps(id);
      if r.Failed? { db.Rollback(saved); }
    }
  }

  lemma NothingInserted(ledger: map<LedgerKey, int>, id: int)
    ensures Inserted(ledger, ledger, id, map[])
  {}

  lemma OneMoreInserted(before: Db, db: Db, id: int, done: map<Account, int>, a: Account, amount: int)
    requires a !in done && db == before.(ledger := db.ledger) && Inserted(before.ledger, db.ledger, id, done)
    ensures Free(db, EntryKey(id, a)) == Free(before, EntryKey(id, a))
    ensures Inserted(before.ledger, db.ledger[EntryKey(id, a) := amount], id, done[a := amount])
  {
    assert RowAt(db.ledger, EntryKey(id, a)) == RowAt(before.ledger, EntryKey(id, a));
  }

  lemma EntriesFree(before: Db, db: Db, o: Order, id: int, cfg: Config, commission: int)
    requires o.taker.Some? && db.ledger == before.ledger && db.users == before.users
    ensures (forall a :: a in SettleEntries(o, cfg.platform, commission) ==> Free(db, EntryKey(id, a)))
            <==> Free(before, EscrowKey(o, id)) && Free(before, EarningKey(o, id))
                 && Free(before, CommissionKey(cfg, id))
  {
    assert EntryKey(id, Account(o.publisher, Frozen)) == EscrowKey(o, id);
    assert EntryKey(id, Account(o.taker.value, Available)) == EarningKey(o, id);
    assert EntryKey(id, Account(cfg.platform, Available)) == CommissionKey(cfg, id);
    assert forall k :: Free(db, k) == Free(before, k);
    assert forall a :: a in SettleEntries(o, cfg.platform, commission) <==>
              a == Account(o.publisher, Frozen) || a == Account(o.taker.value, Available)
                  || a == Account(cfg.platform, Available);
  }

  lemma ThreeEntries(ledger: map<LedgerKey, int>, after: map<LedgerKey, int>, o: Order, id: int, cfg: Config,
                     commission: int)
    requires o.taker.Some? && o.taker.value != cfg.platform
    requires Inserted(ledger, after, id, SettleEntries(o, cfg.platform, commission))
    ensures after == ledger[EscrowKey(o, id) := -o.reward][EarningKey(o, id) := o.reward - commission]
            [CommissionKey(cfg, id) := commission]
  {
    var three := ledger[EscrowKey(o, id) := -o.reward][EarningKey(o, id) := o.reward - commission]
        [CommissionKey(cfg, id) := commission];
    forall k: LedgerKey ensures RowAt(after, k) == RowAt(three, k) {}
    SameRows(after, three);
  }

  lemma SameRows(ledger: map<LedgerKey, int>, other: map<LedgerKey, int>)
    requires forall k: LedgerKey :: RowAt(ledger, k) == RowAt(other, k)
    ensures ledger == other
  {
    forall k: LedgerKey ensures k in ledger <==> k in other { assert RowAt(ledger, k) == RowAt(other, k); }
    forall k: LedgerKey | k in ledger ensures ledger[k] == other[k] { assert RowAt(ledger, k) == RowAt(other, k); }
  }

  lemma PayOutTwice(db: Db, cfg: Config, id: int, o: Order, commission: int)
    requires o.taker.Some?
    ensures PayOut(db.(idem := db.idem[SettleOp(id) := SettleRequest(id)]), cfg, id, o, commission)
            == PayOut(db, cfg, id, o, commission)
  {
    var idem := db.idem[SettleOp(id) := SettleRequest(id)];
    assert idem[SettleOp(id) := SettleRequest(id)] == idem;
  }

  lemma PayOutIs(db: Db, cfg: Config, id: int, o: Order, commission: int)
    requires o.taker.Some?
    requires SettleOp(id) in db.idem && db.idem[SettleOp(id)] == SettleRequest(id)
    ensures PayOut(db, cfg, id, o, commission) ==
            db.(accounts := Changed(Changed(Changed(db.accounts, Account(o.publisher, Frozen), -o.reward),
                                            Account(o.taker.value, Available), o.reward - commission),
                                    Account(cfg.platform, Available), commission),
                ledger := db.ledger[EscrowKey(o, id) := -o.reward][EarningKey(o, id) := o.reward - commission]
                    [CommissionKey(cfg, id) := commission],
                orders := db.orders[id := SettledWith(o, commission)],
                events := db.events + {OrderTerminal(id)})
  {
    assert db.idem[SettleOp(id) := SettleRequest(id)] == db.idem;
  }

  // ---- the split of the escrow ----

  function EntryAt(entries: map<Account, int>, a: Account): int { if a in entries then entries[a] else 0 }

  /** What the balance updates of a settlement add to an account. */
  function SettleChange(o: Order, platform: int, commission: int, a: Account): int
    requires o.taker.Some?
  {
    (if a == Account(o.publisher, Frozen) then -o.reward else 0)
    + (if a == Account(o.taker.value, Available) then o.reward - commission else 0)
    + (if a == Account(platform, Available) then commission else 0)
  }

  /** The merged entries explain every account's change and sum to zero, even when publisher, taker and platform
      coincide. */
  lemma SplitIsExact(o: Order, cfg: Config)
    requires o.taker.Some? && Commission(o.reward, cfg.rate).Some?
    ensures var commission := Commission(o.reward, cfg.rate).value;
            var entries := SettleEntries(o, cfg.platform, commission);
            && 0 <= commission <= o.reward
            && (forall a :: EntryAt(entries, a) == SettleChange(o, cfg.platform, commission, a))
            && SumBy(entries, Books.EveryBalance()) == 0
  {
    hide SumBy;
    var commission := Commission(o.reward, cfg.rate).value;
    var first := Merged(map[], Account(o.publisher, Frozen), -o.reward);
    var second := Merged(first, Account(o.taker.value, Available), o.reward - commission);
    MergeAdds(map[], Account(o.publisher, Frozen), -o.reward);
    MergeAdds(first, Account(o.taker.value, Available), o.reward - commission);
    MergeAdds(second, Account(cfg.platform, Available), commission);
    SumByZero(map[], Books.EveryBalance());
  }

  lemma MergeAdds(entries: map<Account, int>, a: Account, amount: int)
    ensures SumBy(Merged(entries, a, amount), Books.EveryBalance()) == SumBy(entries, Books.EveryBalance()) + amount
    ensures forall b :: EntryAt(Merged(entries, a, amount), b) == EntryAt(entries, b) + if b == a then amount else 0
  {
    hide SumBy;
    SumByUpdate(entries, a, EntryAt(entries, a) + amount, Books.EveryBalance());
  }
}
