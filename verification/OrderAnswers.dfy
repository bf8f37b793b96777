/** What every order transaction answers and writes in a reachable state, column by column: the guards that can fire
    with their errors, and the whole new database of a commit. */
module OrderAnswers {
  import opened Model
  import opened Books
  import opened CommissionMath
  import opened OrderSpec
  import opened Invariants
  import opened OrderSteps
  import opened OrderTheorems
  import opened Lifecycle
  import opened PaymentSteps
  import opened Runs

  function Balance(db: Db, a: Account): int { if a in db.accounts then db.accounts[a] else 0 }

  /** create: the wallet pays into escrow, and the claim deadline is the requested or else the configured time away. */
  lemma CreateAnswer(cfg: Config, db: Db, id: int, publisher: int, reward: int, ttl: Option<int>)
    requires Inv(cfg, db) && id !in db.orders
    ensures var seconds := if ttl == None then cfg.claimTtlSeconds else ttl.value;
            Create(db, cfg, id, publisher, reward, ttl) ==
            if publisher !in db.users then Abort(NotFound)
            else if db.users[publisher] != UserRole then Abort(SystemAccountForbidden)
            else if reward <= 0 || seconds <= 0 || seconds > 86400 then Abort(ValidationFailed)
            else if Balance(db, Account(publisher, Available)) < reward then Abort(InsufficientBalance)
            else Commit(WithEscrow(db, id, publisher, reward, db.now + 1000 * seconds), id)
  {
    hide Inv, Publish, WithEscrow, EnsureAccounts;
    FreshOrderKeys(cfg, db, id);
    AccountsOfUsers(cfg, db);
    EnsureAccountsIsIdle(db, publisher);
    if publisher in db.users { PublishWrites(db, id, publisher, reward, db.now + 1000 * ClaimTtl(cfg, ttl)); }
  }

  /** The wallet pays the reward into escrow for a PUBLISHED order without taker, commission, retries or delivery. */
  function WithEscrow(db: Db, id: int, publisher: int, reward: int, deadline: int): Db {
    var wallet, escrow := Account(publisher, Available), Account(publisher, Frozen);
    db.(accounts := db.accounts[wallet := Balance(db, wallet) - reward][escrow := Balance(db, escrow) + reward],
        ledger := db.ledger[LedgerKey(Freeze, id, publisher, Available) := -reward]
                           [LedgerKey(Freeze, id, publisher, Frozen) := reward],
        orders := db.orders[id := Order(publisher, None, reward, 0, Published, deadline, None, None, 0, 0, None,
                                        false)],
        events := db.events + {OrderPublished(id)})
  }

  lemma PublishWrites(db: Db, id: int, publisher: int, reward: int, deadline: int)
    requires Account(publisher, Available) in db.accounts && Account(publisher, Frozen) in db.accounts
    ensures Publish(db, id, NewOrder(publisher, reward, deadline)) == WithEscrow(db, id, publisher, reward, deadline)
  {}

  /** grab: won by a business user who is not the publisher while the order is PUBLISHED before its deadline. */
  lemma GrabAnswer(cfg: Config, db: Db, id: int, taker: int)
    requires Inv(cfg, db)
    ensures Grab(db, cfg, id, taker) ==
            if taker !in db.users then Abort(NotFound)
            else if db.users[taker] != UserRole then Abort(SystemAccountForbidden)
            else if id !in db.orders then Abort(NotFound)
            else
              var o, deadline := db.orders[id], db.now + 1000 * cfg.deliverTtlSeconds;
              if o.status == Taken then Abort(AlreadyTaken)
              else if o.status != Published then Abort(IllegalTransition)
              else if o.publisher == taker then Abort(SelfGrab)
              else if o.claimDeadline <= db.now then Abort(Expired)
              else
                Commit(db.(orders := db.orders[id := o.(status := Taken, taker := Some(taker),
                                                        deliverDeadline := Some(deadline), version := o.version + 1)],
                           events := db.events + {OrderTaken(id)}),
                       deadline)
  {
    hide Inv;
    if id in db.orders {
      OrderIsOk(cfg, db, id);
      if db.orders[id].Open() { OpenOrderKeys(cfg, db, id); }
    }
  }

  /** deliver, first half: only the taker of a TAKEN order, before the delivery deadline. */
  lemma DeliverAnswer(db: Db, id: int, taker: int)
    ensures MarkDelivered(db, id, taker) ==
            if id !in db.orders then Abort(NotFound)
            else
              var o := db.orders[id];
              if o.deliverDeadline.Some? && o.deliverDeadline.value <= db.now then Abort(Expired)
              else if o.status != Taken || o.taker != Some(taker) || o.deliverDeadline == None
                  then Abort(IllegalTransition)
              else
                Commit(db.(orders := db.orders[id := o.(status := Delivered, deliveredAt := Some(db.now),
                                                        nextRetryAt := Some(db.now), version := o.version + 1)]), ())
  {}

  /** settle: a DELIVERED order pays its escrow to the taker less the commission, and the commission to the platform. */
  lemma SettleAnswer(cfg: Config, db: Db, id: int)
    requires Inv(cfg, db)
    ensures Settlement(db, cfg, id) ==
            if id !in db.orders then Abort(NotFound)
            else if db.orders[id].status == Settled then Commit(db, false)
            else if db.orders[id].status != Delivered || db.orders[id].taker == None then Abort(IllegalTransition)
            else if Commission(db.orders[id].reward, cfg.rate) == None then Abort(RateOutOfRange)
            else if cfg.platform !in db.users then Abort(NotFound)
            else if db.users[cfg.platform] != PlatformRole then Abort(SystemAccountForbidden)
            else Commit(WithPayout(cfg, db, id, Commission(db.orders[id].reward, cfg.rate).value), true)
  {
    if id in db.orders && db.orders[id].status == Delivered {
      hide Inv, Settlement;
      OrderIsOk(cfg, db, id);
      SettlementOutcome(cfg, db, id);
      if Commission(db.orders[id].reward, cfg.rate).Some? && IsPlatform(cfg, db.users, cfg.platform) {
        AccountsOfUsers(cfg, db);
        PayOutWrites(cfg, db, id, Commission(db.orders[id].reward, cfg.rate).value);
      }
    }
  }

  function WithPayout(cfg: Config, db: Db, id: int, commission: int): Db
    requires id in db.orders && db.orders[id].taker.Some?
  {
    var o := db.orders[id];
    var escrow, wallet := Account(o.publisher, Frozen), Account(o.taker.value, Available);
    var fees := Account(cfg.platform, Available);
    db.(accounts := db.accounts[escrow := Balance(db, escrow) - o.reward]
                               [wallet := Balance(db, wallet) + o.reward - commission]
                               [fees := Balance(db, fees) + commission],
        ledger := db.ledger[LedgerKey(Settle, id, o.publisher, Frozen) := -o.reward]
                           [LedgerKey(Settle, id, o.taker.value, Available) := o.reward - commission]
                           [LedgerKey(Settle, id, cfg.platform, Available) := commission],
        orders := db.orders[id := o.(status := Status.Settled, commission := commission, nextRetryAt := None,
                                     version := o.version + 1)],
        idem := db.idem[SettleOp(id) := SettleRequest(id)],
        events := db.events + {OrderTerminal(id)})
  }

  lemma PayOutWrites(cfg: Config, db: Db, id: int, commission: int)
    requires id in db.orders && db.orders[id].taker.Some? && db.orders[id].taker.value != cfg.platform
    requires Account(db.orders[id].publisher, Frozen) in db.accounts
    requires Account(db.orders[id].taker.value, Available) in db.accounts
             && Account(cfg.platform, Available) in db.accounts
    ensures PayOut(db, cfg, id, db.orders[id], commission) == WithPayout(cfg, db, id, commission)
  {}

  /** The order given back: the escrow returns to the wallet and the order ends. */
  function GivenBack(db: Db, id: int): Db
    requires id in db.orders
  {
    var o := db.orders[id];
    var escrow, wallet := Account(o.publisher, Frozen), Account(o.publisher, Available);
    db.(accounts := db.accounts[escrow := Balance(db, escrow) - o.reward][wallet := Balance(db, wallet) + o.reward],
        ledger := db.ledger[LedgerKey(Cancel, id, o.publisher, Frozen) := -o.reward]
                           [LedgerKey(Cancel, id, o.publisher, Available) := o.reward],
        orders := db.orders[id := o.(status := Cancelled, version := o.version + 1)],
        events := db.events + {OrderTerminal(id)})
  }

  lemma ReleaseAnswer(cfg: Config, db: Db, id: int)
    requires Inv(cfg, db) && id in db.orders && (db.orders[id].status == Published || db.orders[id].status == Taken)
    ensures Release(db, id) == Commit(GivenBack(db, id), true)
  {
    hide Inv, Release, CanDebit;
    OrderIsOk(cfg, db, id);
    ReleaseOutcome(cfg, db, id);
    AccountsOfUsers(cfg, db);
  }

  /** cancel: only the publisher, and only before the delivery. */
  lemma CancelAnswer(cfg: Config, db: Db, id: int, caller: int)
    requires Inv(cfg, db)
    ensures CancelOrder(db, id, caller) ==
            if id !in db.orders then Abort(NotFound)
            else if db.orders[id].publisher != caller then Abort(IllegalTransition)
            else if db.orders[id].status != Published && db.orders[id].status != Taken then Abort(IllegalTransition)
            else Commit(GivenBack(db, id), true)
  {
    hide Inv, Release, GivenBack;
    if id in db.orders && (db.orders[id].status == Published || db.orders[id].status == Taken) {
      ReleaseAnswer(cfg, db, id);
    }
  }

  /** The claim timeout cancels exactly a PUBLISHED order whose claim deadline has come. */
  lemma TimeoutClaimAnswer(cfg: Config, db: Db, id: int)
    requires Inv(cfg, db)
    ensures TimeoutClaim(db, id) ==
            if id in db.orders && db.orders[id].status == Published && db.orders[id].claimDeadline <= db.now
            then Commit(GivenBack(db, id), true) else Commit(db, false)
  {
    hide Inv, Release, GivenBack;
    if id in db.orders && db.orders[id].status == Published { ReleaseAnswer(cfg, db, id); }
  }

  /** The delivery timeout cancels exactly a TAKEN order whose delivery deadline has come. */
  lemma TimeoutDeliverAnswer(cfg: Config, db: Db, id: int)
    requires Inv(cfg, db)
    ensures TimeoutDeliver(db, id) ==
            if id in db.orders && db.orders[id].status == Taken && db.orders[id].deliverDeadline.Some?
               && db.orders[id].deliverDeadline.value <= db.now
            then Commit(GivenBack(db, id), true) else Commit(db, false)
  {
    hide Inv, Release, GivenBack;
    if id in db.orders && db.orders[id].status == Taken { ReleaseAnswer(cfg, db, id); }
  }

  // ---- retries ----

  /** What the query of the retry job must have seen. */
  predicate SeenDue(o: Order, now: int) {
    && o.status == Delivered && !o.settlementDead && o.retryCount < 12
    && o.deliveredAt.Some? && o.deliveredAt.value + 1000 < now
    && (o.nextRetryAt == None || o.nextRetryAt.value <= now)
  }

  /** A failed attempt of the retry job: dead at the twelfth, else counted and put off. */
  lemma JobFailedAnswer(cfg: Config, db: Db, snap: Db, id: int, appNow: int)
    ensures Exec(cfg, db, snap, JobFailed(id, appNow)) ==
            if id !in snap.orders || !SeenDue(snap.orders[id], snap.now) then db
            else if id !in db.orders || db.orders[id].status != Delivered then db
            else
              var o, count := db.orders[id], snap.orders[id].retryCount + 1;
              db.(orders := db.orders[id := if count == 12 then o.(settlementDead := true)
                                            else o.(retryCount := count,
                                                    nextRetryAt := Some(appNow + 1000 * WaitSeconds(count)))])
  {
    if id in snap.orders && snap.orders[id].retryCount < 12 { BackoffTable(snap.orders[id].retryCount + 1); }
    hide Backoff, WaitSeconds;
  }

  /** A failed settlement right after the delivery: one failure, again in a second. */
  lemma DeliverFailedAnswer(cfg: Config, db: Db, snap: Db, id: int, appNow: int)
    ensures Exec(cfg, db, snap, DeliverFailed(id, appNow)) ==
            if id !in db.orders || db.orders[id].status != Delivered then db
            else db.(orders := db.orders[id := db.orders[id].(retryCount := 1, nextRetryAt := Some(appNow + 1000))])
  {}

  // ---- whole runs ----

  /** The order as it is before the step that passes a milestone. */
  predicate InTime(db: Db, db': Db, e: Event, id: int) {
    && id in db.orders && id in db'.orders
    && var o, p, l := db.orders[id], db'.orders[id], e.step;
       match (o.status, p.status)
       case (Published, Taken) =>
         && l.DoGrab? && db.now < o.claimDeadline && p.taker == Some(l.taker) && l.taker != o.publisher
         && l.taker in db.users && db.users[l.taker] == UserRole
         && p.deliverDeadline == Some(db.now + 1000 * e.cfg.deliverTtlSeconds)
       case (Taken, Delivered) =>
         && l.DoDeliver? && o.taker == Some(l.taker) && o.deliverDeadline.Some? && db.now < o.deliverDeadline.value
         && p.deliveredAt == Some(db.now)
       case (Delivered, Settled) =>
         l.DoSettle? && Some(p.commission) == Commission(o.reward, e.cfg.rate)
       case (Published, Cancelled) =>
         (l.DoCancel? && l.caller == o.publisher) || (l.ClaimTimeout? && o.claimDeadline <= db.now)
       case (Taken, Cancelled) =>
         || (l.DoCancel? && l.caller == o.publisher)
         || (l.DeliverTimeout? && o.deliverDeadline.Some? && o.deliverDeadline.value <= db.now)
       case _ => false
  }

  lemma GrabInTime(cfg: Config, db: Db, e: Event, id: int)
    requires Inv(cfg, db) && e.cfg == cfg && id in db.orders && e.step.DoGrab?
    ensures var db' := Grab(db, cfg, e.step.id, e.step.taker).After(db);
            id in db'.orders && (db'.orders[id].status == db.orders[id].status || InTime(db, db', e, id))
  {
    hide Inv, Grab;
    OrderIsOk(cfg, db, id);
    GrabAnswer(cfg, db, e.step.id, e.step.taker);
  }

  lemma DeliverInTime(cfg: Config, db: Db, e: Event, id: int)
    requires Inv(cfg, db) && e.cfg == cfg && id in db.orders && e.step.DoDeliver?
    ensures var db' := MarkDelivered(db, e.step.id, e.step.taker).After(db);
            id in db'.orders && (db'.orders[id].status == db.orders[id].status || InTime(db, db', e, id))
  {
    hide Inv, MarkDelivered;
    OrderIsOk(cfg, db, id);
    DeliverAnswer(db, e.step.id, e.step.taker);
  }

  lemma SettleInTime(cfg: Config, db: Db, e: Event, id: int)
    requires Inv(cfg, db) && e.cfg == cfg && id in db.orders && e.step.DoSettle?
    ensures var db' := Settlement(db, cfg, e.step.id).After(db);
            id in db'.orders && (db'.orders[id].status == db.orders[id].status || InTime(db, db', e, id))
  {
    hide Inv, Settlement, Commission;
    OrderIsOk(cfg, db, id);
    SettleAnswer(cfg, db, e.step.id);
  }

  lemma CancelInTime(cfg: Config, db: Db, e: Event, id: int)
    requires Inv(cfg, db) && e.cfg == cfg && id in db.orders && e.step.DoCancel?
    ensures var db' := CancelOrder(db, e.step.id, e.step.caller).After(db);
            id in db'.orders && (db'.orders[id].status == db.orders[id].status || InTime(db, db', e, id))
  {
    hide Inv, CancelOrder;
    OrderIsOk(cfg, db, id);
    CancelAnswer(cfg, db, e.step.id, e.step.caller);
  }

  lemma ClaimTimeoutInTime(cfg: Config, db: Db, e: Event, id: int)
    requires Inv(cfg, db) && e.cfg == cfg && id in db.orders && e.step.ClaimTimeout?
    ensures var db' := TimeoutClaim(db, e.step.id).After(db);
            id in db'.orders && (db'.orders[id].status == db.orders[id].status || InTime(db, db', e, id))
  {
    hide Inv, TimeoutClaim;
    OrderIsOk(cfg, db, id);
    TimeoutClaimAnswer(cfg, db, e.step.id);
  }

  lemma DeliverTimeoutInTime(cfg: Config, db: Db, e: Event, id: int)
    requires Inv(cfg, db) && e.cfg == cfg && id in db.orders && e.step.DeliverTimeout?
    ensures var db' := TimeoutDeliver(db, e.step.id).After(db);
            id in db'.orders && (db'.orders[id].status == db.orders[id].status || InTime(db, db', e, id))
  {
    hide Inv, TimeoutDeliver;
    OrderIsOk(cfg, db, id);
    TimeoutDeliverAnswer(cfg, db, e.step.id);
  }

  predicate Moves(l: Label) {
    l.DoGrab? || l.DoDeliver? || l.DoSettle? || l.DoCancel? || l.ClaimTimeout? || l.DeliverTimeout?
  }

  lemma OrderStepIsInTime(cfg: Config, db: Db, snap: Db, e: Event, id: int)
    requires Inv(cfg, db) && e.cfg == cfg && id in db.orders && Moves(e.step)
    ensures var db' := Exec(cfg, db, snap, e.step);
            id in db'.orders && (db'.orders[id].status == db.orders[id].status || InTime(db, db', e, id))
  {
    hide Inv, InTime, Grab, MarkDelivered, Settlement, CancelOrder, TimeoutClaim, TimeoutDeliver;
    match e.step
    case DoGrab(_, _) => GrabInTime(cfg, db, e, id);
    case DoDeliver(_, _) => DeliverInTime(cfg, db, e, id);
    case DoSettle(_) => SettleInTime(cfg, db, e, id);
    case DoCancel(_, _) => CancelInTime(cfg, db, e, id);
    case ClaimTimeout(_) => ClaimTimeoutInTime(cfg, db, e, id);
    case DeliverTimeout(_) => DeliverTimeoutInTime(cfg, db, e, id);
  }

  lemma OtherStepsKeepStatus(cfg: Config, db: Db, snap: Db, l: Label, id: int)
    requires Inv(cfg, db) && id in db.orders && !Moves(l)
    ensures var db' := Exec(cfg, db, snap, l); id in db'.orders && db'.orders[id].status == db.orders[id].status
  {
    hide Inv;
    match l
    case DoCreate(i, publisher, reward, ttl) =>
      hide Create;
      CreateOrders(cfg, db, i, publisher, reward, ttl);
    case DeliverFailed(i, appNow) => DeliverFailedAnswer(cfg, db, snap, i, appNow);
    case JobFailed(i, appNow) =>
      JobFailedAnswer(cfg, db, snap, i, appNow);
      hide Exec, WaitSeconds;
    case _ => PaymentLabelsLeaveOrders(cfg, db, snap, l);
  }

  /** In every run an order changes its status only in time and by the right hand: taken before the claim deadline by a
      business user who is not its publisher, delivered by its taker before the delivery deadline, cancelled by its
      publisher or at the deadline by the timeout, settled with the commission of the moment. */
  lemma EveryMoveIsInTime(cfg: Config, tr: seq<Db>, evs: seq<Event>, id: int, i: nat)
    requires Run(cfg.platform, tr, evs) && i < |evs| && id in tr[i].orders
    ensures id in tr[i + 1].orders
    ensures tr[i + 1].orders[id].status == tr[i].orders[id].status || InTime(tr[i], tr[i + 1], evs[i], id)
  {
    RunKeepsInv(evs[i].cfg, tr, evs, i);
    assert tr[i + 1] == Exec(evs[i].cfg, tr[i], tr[evs[i].snap], evs[i].step);
    hide Run, Inv, Exec, InTime, Earlier;
    var l := evs[i].step;
    if Moves(l) {
      OrderStepIsInTime(evs[i].cfg, tr[i], tr[evs[i].snap], evs[i], id);
    } else {
      OtherStepsKeepStatus(evs[i].cfg, tr[i], tr[evs[i].snap], l, id);
    }
  }
}
