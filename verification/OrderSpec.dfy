/** What each order transaction does to the tables when it runs alone: the guard evaluated by its
    conditional update, then its postings and outbox event, or an abort that changes nothing. */
module OrderSpec {
  import opened Model
  import opened CommissionMath

  function ClaimTtl(cfg: Config, requested: Option<int>): int {
    if requested.Some? then requested.value else cfg.claimTtlSeconds
  }

  function NewOrder(publisher: int, reward: int, claimDeadline: int): Order {
    Order(publisher, None, reward, 0, Published, claimDeadline, None, None, 0, 0, None, false)
  }

  function Create(db: Db, cfg: Config, id: int, publisher: int, reward: int, ttl: Option<int>): Outcome<int> {
    var d := EnsureAccounts(db, publisher);
    var available, frozen := Account(publisher, Available), Account(publisher, Frozen);
    if publisher !in db.users then Abort(NotFound)
    else if !IsBusinessUser(db.users, publisher) then Abort(SystemAccountForbidden)
    else if reward <= 0 then Abort(ValidationFailed)
    else if !(0 < ClaimTtl(cfg, ttl) <= 86400) then Abort(ValidationFailed)
    else if id in db.orders then Abort(DuplicateKey)
    else if !CanDebit(d, available, reward) then Abort(InsufficientBalance)
    else if !TransferFree(d, Freeze, id, available, frozen) || OrderPublished(id) in d.events then Abort(DuplicateKey)
    else
      Commit(Publish(d, id, NewOrder(publisher, reward, d.now + 1000 * ClaimTtl(cfg, ttl))), id)
  }

  /** The reward moves from the wallet into escrow. */
  function Publish(db: Db, id: int, o: Order): Db {
    Transfer(db, Freeze, id, Account(o.publisher, Available), Account(o.publisher, Frozen), o.reward)
    .(orders := db.orders[id := o], events := db.events + {OrderPublished(id)})
  }

  /** The WHERE clause of the grab update. */
  predicate Claimable(db: Db, id: int, taker: int) {
    && id in db.orders
    && var o := db.orders[id];
       o.status.Published? && o.taker.None? && o.publisher != taker && o.claimDeadline > db.now
  }

  function TakenBy(o: Order, taker: int, deadline: int): Order {
    o.(status := Taken, taker := Some(taker), deliverDeadline := Some(deadline), version := o.version + 1)
  }

  /** The database part of a grab, after the Redis filter let it through. */
  function Grab(db: Db, cfg: Config, id: int, taker: int): Outcome<int> {
    if taker !in db.users then Abort(NotFound)
    else if !IsBusinessUser(db.users, taker) then Abort(SystemAccountForbidden)
    else if Claimable(db, id, taker) then
      if OrderTaken(id) in db.events then Abort(DuplicateKey)
      else
        var deadline := db.now + 1000 * cfg.deliverTtlSeconds;
        Commit(db.(orders := db.orders[id := TakenBy(db.orders[id], taker, deadline)],
                   events := db.events + {OrderTaken(id)}), deadline)
    else if id !in db.orders then Abort(NotFound)
    else
      var o := db.orders[id];
      Abort(if o.status.Published? && o.publisher == taker then SelfGrab
            else if o.status.Published? && o.claimDeadline <= db.now then Expired
            else if o.status.Taken? then AlreadyTaken
            else if o.status.Published? then GrabRejected
            else IllegalTransition)
  }

  /** The WHERE clause of the delivery update. */
  predicate Deliverable(db: Db, id: int, taker: int) {
    && id in db.orders
    && var o := db.orders[id];
       o.status.Taken? && o.taker == Some(taker) && o.deliverDeadline.Some? && o.deliverDeadline.value > db.now
  }

  /** The first half of a delivery commits on its own; settlement follows in its own transaction. */
  function MarkDelivered(db: Db, id: int, taker: int): Outcome<()> {
    if Deliverable(db, id, taker) then
      var o := db.orders[id];
      Commit(db.(orders := db.orders[id := o.(status := Delivered, deliveredAt := Some(db.now),
                                              nextRetryAt := Some(db.now), version := o.version + 1)]), ())
    else Abort(DeliveryFailure(db, id, db.now))
  }

  /** The reason given for a rejected delivery, by the clock of whoever gives it. */
  function DeliveryFailure(db: Db, id: int, now: int): Error {
    if id !in db.orders then NotFound
    else if db.orders[id].deliverDeadline.Some? && db.orders[id].deliverDeadline.value <= now then Expired
    else IllegalTransition
  }

  function SettledWith(o: Order, commission: int): Order {
    o.(status := Settled, commission := commission, nextRetryAt := None, version := o.version + 1)
  }

  function EscrowKey(o: Order, id: int): LedgerKey { LedgerKey(Settle, id, o.publisher, Frozen) }
  function EarningKey(o: Order, id: int): LedgerKey
    requires o.taker.Some?
  { LedgerKey(Settle, id, o.taker.value, Available) }
  function CommissionKey(cfg: Config, id: int): LedgerKey { LedgerKey(Settle, id, cfg.platform, Available) }

  /** False is the answer of the two idempotent exits: already settled, and REPLAY. */
  function Settlement(db: Db, cfg: Config, id: int): Outcome<bool> {
    if id !in db.orders then Abort(NotFound)
    else
      var o := db.orders[id];
      if o.status.Settled? then Commit(db, false)
      else if !o.status.Delivered? || o.taker.None? then Abort(IllegalTransition)
      else if !IsBusinessUser(db.users, o.publisher)
          then Abort(if o.publisher in db.users then SystemAccountForbidden else NotFound)
      else if !IsBusinessUser(db.users, o.taker.value)
          then Abort(if o.taker.value in db.users then SystemAccountForbidden else NotFound)
      else if SettleOp(id) in db.idem then
        if db.idem[SettleOp(id)] != SettleRequest(id) then Abort(IdempotencyConflict) else Commit(db, false)
      else if Commission(o.reward, cfg.rate).None? then Abort(RateOutOfRange)
      else if cfg.platform !in db.users then Abort(NotFound)
      else if !db.users[cfg.platform].PlatformRole? then Abort(SystemAccountForbidden)
      else
        var commission := Commission(o.reward, cfg.rate).value;
        var d := EnsureAccounts(db, cfg.platform);
        if !CanDebit(d, Account(o.publisher, Frozen), o.reward) then Abort(EscrowLow)
        else if !Free(d, EscrowKey(o, id)) || !Free(d, EarningKey(o, id)) || !Free(d, CommissionKey(cfg, id))
             || OrderTerminal(id) in d.events then Abort(DuplicateKey)
        else
          Commit(PayOut(d, cfg, id, o, commission), true)
  }

  /** The escrow is split between the taker and the platform. */
  function PayOut(db: Db, cfg: Config, id: int, o: Order, commission: int): Db
    requires o.taker.Some?
  {
    Post(Post(Post(db, EscrowKey(o, id), -o.reward), EarningKey(o, id), o.reward - commission), CommissionKey(cfg, id),
         commission)
    .(orders := db.orders[id := SettledWith(o, commission)],
      idem := db.idem[SettleOp(id) := SettleRequest(id)],
      events := db.events + {OrderTerminal(id)})
  }

  function CancelledOrder(o: Order): Order { o.(status := Cancelled, version := o.version + 1) }

  /** The escrow goes back to the publisher and the order ends. */
  function GiveBack(db: Db, id: int, o: Order): Db {
    Transfer(db, Cancel, id, Account(o.publisher, Frozen), Account(o.publisher, Available), o.reward)
    .(orders := db.orders[id := CancelledOrder(o)], events := db.events + {OrderTerminal(id)})
  }

  function Release(db: Db, id: int): Outcome<bool>
    requires id in db.orders
  {
    var o := db.orders[id];
    var available, frozen := Account(o.publisher, Available), Account(o.publisher, Frozen);
    if !CanDebit(db, frozen, o.reward) then Abort(EscrowLow)
    else if !TransferFree(db, Cancel, id, frozen, available) || OrderTerminal(id) in db.events then Abort(DuplicateKey)
    else Commit(GiveBack(db, id, o), true)
  }

  function CancelOrder(db: Db, id: int, caller: int): Outcome<bool> {
    if id !in db.orders then Abort(NotFound)
    else
      var o := db.orders[id];
      if o.publisher != caller then Abort(IllegalTransition)
      else if !o.status.Published? && !o.status.Taken? then Abort(IllegalTransition)
      else Release(db, id)
  }

  predicate ClaimOverdue(o: Order, now: int) { o.status.Published? && o.claimDeadline <= now }
  predicate DeliverOverdue(o: Order, now: int) {
    o.status.Taken? && o.deliverDeadline.Some? && o.deliverDeadline.value <= now
  }

  function TimeoutClaim(db: Db, id: int): Outcome<bool> {
    if id in db.orders && ClaimOverdue(db.orders[id], db.now) then Release(db, id) else Commit(db, false)
  }

  function TimeoutDeliver(db: Db, id: int): Outcome<bool> {
    if id in db.orders && DeliverOverdue(db.orders[id], db.now) then Release(db, id) else Commit(db, false)
  }

  const MAX_SETTLE_RETRIES := 12

  function RecordSettlementFailure(db: Db, id: int, count: nat, nextRetryAt: int): Db {
    if id in db.orders && db.orders[id].status.Delivered? then
      db.(orders := db.orders[id := db.orders[id].(retryCount := count, nextRetryAt := Some(nextRetryAt))])
    else db
  }

  function MarkSettlementDead(db: Db, id: int): Db {
    if id in db.orders && db.orders[id].status.Delivered? then
      db.(orders := db.orders[id := db.orders[id].(settlementDead := true)])
    else db
  }

  /** The WHERE clause of the query that selects deliveries for another settlement attempt. */
  predicate DueForRetry(o: Order, now: int) {
    && o.status.Delivered? && !o.settlementDead && o.retryCount < MAX_SETTLE_RETRIES
    && (o.nextRetryAt.Some? ==> o.nextRetryAt.value <= now)
    && o.deliveredAt.Some? && o.deliveredAt.value < now - 1000
  }

  function Backoff(retry: int): int
    requires retry >= 1
  {
    var shift := if retry - 1 < 8 then retry - 1 else 8;
    var seconds := Pow2(shift);
    if seconds < 300 then seconds else 300
  }

  function Pow2(n: nat): (p: int)
    ensures p >= 1
  { if n == 0 then 1 else 2 * Pow2(n - 1) }

  /** Seconds to wait after failure number n: doubling, and 256 from the ninth on. */
  function WaitSeconds(n: nat): int
    requires n >= 1
  {
    [1, 2, 4, 8, 16, 32, 64, 128, 256][if n <= 9 then n - 1 else 8]
  }

  lemma BackoffTable(n: nat)
    requires n >= 1
    ensures Backoff(n) == WaitSeconds(n)
  {
    assert Pow2(4) == 16;
    assert Pow2(8) == 256;
  }

  /** What the retry job records after a failed attempt, from the retry count its query returned. */
  function RetryFailed(db: Db, id: int, seen: nat, appNow: int): Db {
    if seen + 1 >= MAX_SETTLE_RETRIES then MarkSettlementDead(db, id)
    else RecordSettlementFailure(db, id, seen + 1, appNow + 1000 * Backoff(seen + 1))
  }
}
