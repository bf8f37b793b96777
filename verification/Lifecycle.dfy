/** The life of one order over a whole run. */
module Lifecycle {
  import opened Model
  import opened CommissionMath
  import opened OrderSpec
  import opened PaymentSpec
  import opened Invariants
  import opened OrderSteps
  import opened PaymentSteps
  import opened Runs

  // ---- what each transaction does to the order table ----

  lemma CreateOrders(cfg: Config, db: Db, id: int, publisher: int, reward: int, ttl: Option<int>)
    ensures var r := Create(db, cfg, id, publisher, reward, ttl);
            r.Commit? ==> id !in db.orders
                          && r.db.orders == db.orders[id := NewOrder(publisher, reward,
                                                                     db.now + 1000 * ClaimTtl(cfg, ttl))]
  {
    hide EnsureAccounts, Transfer, TransferFree, CanDebit;
  }

  lemma GrabOrders(cfg: Config, db: Db, id: int, taker: int)
    ensures var r := Grab(db, cfg, id, taker);
            r.Commit? ==> Claimable(db, id, taker)
                          && r.db.orders == db.orders[id := TakenBy(db.orders[id], taker, r.value)]
  {}

  lemma DeliveryOrders(db: Db, id: int, taker: int)
    ensures var r := MarkDelivered(db, id, taker);
            r.Commit? ==> Deliverable(db, id, taker) && r.db.orders == db.orders[id := r.db.orders[id]]
                          && r.db.orders[id].status.Delivered?
                          && Evolves(db.orders[id], r.db.orders[id])
  {}

  lemma SettlementOrders(cfg: Config, db: Db, id: int)
    ensures var r := Settlement(db, cfg, id);
            if r.Commit? && r.value
            then id in db.orders && db.orders[id].status.Delivered?
                 && r.db.orders == db.orders[id := SettledWith(db.orders[id], r.db.orders[id].commission)]
            else r.After(db) == db
  {
    hide EnsureAccounts, Post, Free, CanDebit, Commission, EscrowKey, EarningKey, CommissionKey;
  }

  lemma ReleaseOrders(db: Db, id: int)
    requires id in db.orders
    ensures var r := Release(db, id);
            if r.Commit? then r.value && r.db.orders == db.orders[id := CancelledOrder(db.orders[id])]
                else r.After(db) == db
  {
    hide Transfer, TransferFree, CanDebit;
  }

  lemma RechargeLeavesOrders(db: Db, snap: Db, user: int, amount: int, requested: Option<string>, uuid: string, b: int)
    ensures RechargeWallet(db, snap, user, amount, requested, uuid, b).After(db).orders == db.orders
  {
    hide EnsureAccounts, Transfer, TransferFree, RechargeKey;
  }

  lemma CallbackLeavesOrders(db: Db, snap: Db, verified: bool, request: CallbackRequest, id: int, uuid: string, b: int)
    ensures Callback(db, snap, verified, request, id, uuid, b).After(db).orders == db.orders
  {
    hide Callback, RechargeWallet;
    CallbackIsRechargePlusPayment(db, snap, verified, request, id, uuid, b);
    RechargeLeavesOrders(db, snap, request.user, request.amount, Some("PAYMENT:" + request.eventId), uuid, b);
  }

  lemma RefundLeavesOrders(db: Db, snap: Db, id: int, payment: int, user: int, amount: int, requestKey: string)
    ensures RefundPayment(db, snap, id, payment, user, amount, requestKey).After(db).orders == db.orders
  {
    hide EnsureAccounts, Transfer, TransferFree, RefundKeysFree, NoteFree, CanDebit, Refunded;
  }

  lemma CompensateLeavesOrders(db: Db, snap: Db, id: int, operator: int, requestKey: string, amount: int)
    ensures CompensateDispute(db, snap, id, operator, requestKey, amount).After(db).orders == db.orders
  {
    hide EnsureAccounts, Transfer, TransferFree, NoteFree;
  }

  // ---- allowed changes of one order ----

  /** The transition table of the order state machine. */
  predicate Allowed(a: Status, b: Status) {
    match a
    case Published => b.Taken? || b.Cancelled?
    case Taken => b.Delivered? || b.Cancelled?
    case Delivered => b.Settled?
    case Settled => false
    case Cancelled => false
  }

  predicate Evolves(o: Order, p: Order) {
    && p.publisher == o.publisher && p.reward == o.reward && p.claimDeadline == o.claimDeadline
    && (o.taker.Some? ==> p.taker == o.taker && p.deliverDeadline == o.deliverDeadline)
    && (p.status == o.status || Allowed(o.status, p.status))
    && (o.Terminal() ==> p == o)
    && p.version == o.version + (if p.status == o.status then 0 else 1)
  }

  datatype Milestone = Win | Hand | Pay | Return

  predicate Reached(o: Order, m: Milestone) {
    match m
    case Win => o.taker.Some?
    case Hand => o.status.Delivered? || o.status.Settled?
    case Pay => o.status.Settled?
    case Return => o.status.Cancelled?
  }

  /** The committed transactions that answer: you won, you delivered, the escrow was paid out, the escrow went back. */
  ghost predicate Happens(cfg: Config, db: Db, l: Label, id: int, m: Milestone) {
    match m
    case Win => l.DoGrab? && l.id == id && Grab(db, cfg, id, l.taker).Commit?
    case Hand => l.DoDeliver? && l.id == id && MarkDelivered(db, id, l.taker).Commit?
    case Pay => l.DoSettle? && l.id == id && Settlement(db, cfg, id).Commit? && Settlement(db, cfg, id).value
    case Return =>
      || (l.DoCancel? && l.id == id && CancelOrder(db, id, l.caller).Commit?)
      || (l.ClaimTimeout? && l.id == id && TimeoutClaim(db, id).Commit? && TimeoutClaim(db, id).value)
      || (l.DeliverTimeout? && l.id == id && TimeoutDeliver(db, id).Commit? && TimeoutDeliver(db, id).value)
  }

  /** Any step moves an existing order along the state machine, and a milestone is passed exactly by its own
      transaction. */
  ghost predicate OrderMoves(cfg: Config, db: Db, db': Db, l: Label, id: int)
    requires id in db.orders
  {
    && id in db'.orders && Evolves(db.orders[id], db'.orders[id])
    && forall m :: (Reached(db'.orders[id], m) <==> Reached(db.orders[id], m) || Happens(cfg, db, l, id, m))
                   && !(Reached(db.orders[id], m) && Happens(cfg, db, l, id, m))
  }

  lemma OtherLabelsDoNothing(cfg: Config, db: Db, db': Db, l: Label, id: int)
    requires id in db.orders && db'.orders == db.orders && OrderOk(cfg, db.users, db.orders[id])
    requires !l.DoGrab? && !l.DoDeliver? && !l.DoSettle? && !l.DoCancel? && !l.ClaimTimeout? && !l.DeliverTimeout?
    ensures OrderMoves(cfg, db, db', l, id)
  {}

  lemma GrabMoves(cfg: Config, db: Db, l: Label, id: int)
    requires id in db.orders && OrderOk(cfg, db.users, db.orders[id]) && l.DoGrab?
    ensures OrderMoves(cfg, db, Grab(db, cfg, l.id, l.taker).After(db), l, id)
  {
    hide Grab;
    GrabOrders(cfg, db, l.id, l.taker);
  }

  lemma SettlementMoves(cfg: Config, db: Db, l: Label, id: int)
    requires id in db.orders && OrderOk(cfg, db.users, db.orders[id]) && l.DoSettle?
    ensures OrderMoves(cfg, db, Settlement(db, cfg, l.id).After(db), l, id)
  {
    hide Settlement;
    SettlementOrders(cfg, db, l.id);
  }

  lemma CancelMoves(cfg: Config, db: Db, l: Label, id: int)
    requires id in db.orders && OrderOk(cfg, db.users, db.orders[id]) && l.DoCancel?
    ensures OrderMoves(cfg, db, CancelOrder(db, l.id, l.caller).After(db), l, id)
  {
    hide Release;
    if l.id in db.orders { ReleaseOrders(db, l.id); }
  }

  lemma ClaimTimeoutMoves(cfg: Config, db: Db, l: Label, id: int)
    requires id in db.orders && OrderOk(cfg, db.users, db.orders[id]) && l.ClaimTimeout?
    ensures OrderMoves(cfg, db, TimeoutClaim(db, l.id).After(db), l, id)
  {
    hide Release;
    if l.id in db.orders { ReleaseOrders(db, l.id); }
  }

  lemma DeliverTimeoutMoves(cfg: Config, db: Db, l: Label, id: int)
    requires id in db.orders && OrderOk(cfg, db.users, db.orders[id]) && l.DeliverTimeout?
    ensures OrderMoves(cfg, db, TimeoutDeliver(db, l.id).After(db), l, id)
  {
    hide Release;
    if l.id in db.orders { ReleaseOrders(db, l.id); }
  }

  /** A label with no milestone of its own only has to move the order along. */
  lemma PlainMove(cfg: Config, db: Db, db': Db, l: Label, id: int)
    requires id in db.orders && id in db'.orders && Evolves(db.orders[id], db'.orders[id])
    requires forall m :: Reached(db'.orders[id], m) <==> Reached(db.orders[id], m)
    requires !l.DoGrab? && !l.DoDeliver? && !l.DoSettle? && !l.DoCancel? && !l.ClaimTimeout? && !l.DeliverTimeout?
    ensures OrderMoves(cfg, db, db', l, id)
  {}

  lemma DeliveryMoves(cfg: Config, db: Db, l: Label, id: int)
    requires id in db.orders && OrderOk(cfg, db.users, db.orders[id]) && l.DoDeliver?
    ensures OrderMoves(cfg, db, MarkDelivered(db, l.id, l.taker).After(db), l, id)
  {
    hide MarkDelivered;
    DeliveryOrders(db, l.id, l.taker);
  }

  lemma RecordFailureMoves(cfg: Config, db: Db, l: Label, i: int, count: nat, next: int, id: int)
    requires id in db.orders && (l.DeliverFailed? || l.JobFailed?)
    ensures OrderMoves(cfg, db, RecordSettlementFailure(db, i, count, next), l, id)
  {
    hide RecordSettlementFailure, OrderMoves;
    FailureOrders(db, i, count, next);
    PlainMove(cfg, db, RecordSettlementFailure(db, i, count, next), l, id);
  }

  lemma MarkDeadMoves(cfg: Config, db: Db, l: Label, i: int, id: int)
    requires id in db.orders && l.JobFailed?
    ensures OrderMoves(cfg, db, MarkSettlementDead(db, i), l, id)
  {
    hide MarkSettlementDead, OrderMoves;
    MarkDeadOrders(db, i);
    PlainMove(cfg, db, MarkSettlementDead(db, i), l, id);
  }

  lemma FailureOrders(db: Db, i: int, count: nat, next: int)
    ensures var db' := RecordSettlementFailure(db, i, count, next);
            || db'.orders == db.orders
            || (i in db.orders && !db.orders[i].Terminal()
                && db'.orders == db.orders[i := db.orders[i].(retryCount := count, nextRetryAt := Some(next))])
  {}

  lemma MarkDeadOrders(db: Db, i: int)
    ensures var db' := MarkSettlementDead(db, i);
            || db'.orders == db.orders
            || (i in db.orders && !db.orders[i].Terminal()
                && db'.orders == db.orders[i := db.orders[i].(settlementDead := true)])
  {}

  lemma CreateMoves(cfg: Config, db: Db, l: Label, id: int)
    requires id in db.orders && OrderOk(cfg, db.users, db.orders[id]) && l.DoCreate?
    ensures OrderMoves(cfg, db, Create(db, cfg, l.id, l.publisher, l.reward, l.ttl).After(db), l, id)
  {
    hide Create, OrderMoves;
    CreateOrders(cfg, db, l.id, l.publisher, l.reward, l.ttl);
    PlainMove(cfg, db, Create(db, cfg, l.id, l.publisher, l.reward, l.ttl).After(db), l, id);
  }

  lemma PaymentLabelsLeaveOrders(cfg: Config, db: Db, snap: Db, l: Label)
    requires l.Idle? || l.Tick? || l.NewUser? || l.DoRecharge? || l.DoCallback? || l.DoRefund? || l.DoOpenDispute?
             || l.DoCompensate?
    ensures Exec(cfg, db, snap, l).orders == db.orders
  {
    hide RechargeWallet, Callback, RefundPayment, CompensateDispute, Registered;
    match l
    case Idle =>
    case Tick(ms) =>
    case NewUser(user, admin) => RegisterLeavesOrders(db, user, if admin then AdminRole else UserRole);
    case DoRecharge(user, amount, requested, uuid, b) =>
      RechargeLeavesOrders(db, snap, user, amount, requested, uuid, b);
    case DoCallback(verified, request, i, uuid, b) => CallbackLeavesOrders(db, snap, verified, request, i, uuid, b);
    case DoRefund(i, payment, user, amount, requestKey) =>
      RefundLeavesOrders(db, snap, i, payment, user, amount, requestKey);
    case DoOpenDispute(i, payment, user) =>
    case DoCompensate(dispute, operator, requestKey, amount) =>
      CompensateLeavesOrders(db, snap, dispute, operator, requestKey, amount);
  }

  lemma RegisterLeavesOrders(db: Db, user: int, role: Role)
    ensures Registered(db, user, role).orders == db.orders
  {}

  lemma StepMovesOrder(cfg: Config, db: Db, snap: Db, l: Label, id: int)
    requires Inv(cfg, db) && id in db.orders
    ensures OrderMoves(cfg, db, Exec(cfg, db, snap, l), l, id)
  {
    hide Inv, OrderMoves, OrderOk, Create, Grab, MarkDelivered, Settlement, CancelOrder, TimeoutClaim, TimeoutDeliver,
         RecordSettlementFailure, MarkSettlementDead, RechargeWallet, Callback, RefundPayment, OpenDispute,
         CompensateDispute, Registered, DueForRetry, Backoff;
    OrderIsOk(cfg, db, id);
    match l
    case DoCreate(_, _, _, _) => CreateMoves(cfg, db, l, id);
    case DoGrab(_, _) => GrabMoves(cfg, db, l, id);
    case DoDeliver(_, _) => DeliveryMoves(cfg, db, l, id);
    case DeliverFailed(i, appNow) => RecordFailureMoves(cfg, db, l, i, 1, appNow + 1000, id);
    case DoSettle(_) => SettlementMoves(cfg, db, l, id);
    case JobFailed(i, appNow) =>
      if i in snap.orders && DueForRetry(snap.orders[i], snap.now) {
        var count := snap.orders[i].retryCount + 1;
        if count >= MAX_SETTLE_RETRIES { MarkDeadMoves(cfg, db, l, i, id); }
        else { RecordFailureMoves(cfg, db, l, i, count, appNow + 1000 * Backoff(count), id); }
      } else {
        OtherLabelsDoNothing(cfg, db, db, l, id);
      }
    case DoCancel(_, _) => CancelMoves(cfg, db, l, id);
    case ClaimTimeout(_) => ClaimTimeoutMoves(cfg, db, l, id);
    case DeliverTimeout(_) => DeliverTimeoutMoves(cfg, db, l, id);
    case _ =>
      PaymentLabelsLeaveOrders(cfg, db, snap, l);
      OtherLabelsDoNothing(cfg, db, Exec(cfg, db, snap, l), l, id);
  }

  // ---- orders that do not exist yet ----

  predicate Newborn(o: Order) { o.status.Published? && o.taker.None? && o.version == 0 }

  ghost predicate BornPublished(cfg: Config, db: Db, db': Db, l: Label, id: int) {
    && (id in db'.orders ==> Newborn(db'.orders[id]))
    && forall m :: !Happens(cfg, db, l, id, m)
  }

  lemma NothingHappensToMissing(cfg: Config, db: Db, l: Label, id: int)
    requires id !in db.orders
    ensures forall m :: !Happens(cfg, db, l, id, m)
  {
    hide Grab, Settlement;
    if l.DoGrab? { GrabOrders(cfg, db, l.id, l.taker); }
    if l.DoSettle? { SettlementOrders(cfg, db, l.id); }
  }

  lemma OrderLabelsKeepKeys(cfg: Config, db: Db, snap: Db, l: Label)
    requires l.DoGrab? || l.DoDeliver? || l.DeliverFailed? || l.DoSettle? || l.JobFailed? || l.DoCancel?
             || l.ClaimTimeout? || l.DeliverTimeout?
    ensures Exec(cfg, db, snap, l).orders.Keys == db.orders.Keys
  {
    hide Grab, MarkDelivered, Settlement, Release, RecordSettlementFailure, MarkSettlementDead;
    match l
    case DoGrab(i, taker) => GrabOrders(cfg, db, i, taker);
    case DoDeliver(i, taker) => DeliveryOrders(db, i, taker);
    case DeliverFailed(i, appNow) => FailureOrders(db, i, 1, appNow + 1000);
    case DoSettle(i) => SettlementOrders(cfg, db, i);
    case JobFailed(i, appNow) =>
      if i in snap.orders && DueForRetry(snap.orders[i], snap.now) {
        var count := snap.orders[i].retryCount + 1;
        MarkDeadOrders(db, i);
        FailureOrders(db, i, count, appNow + 1000 * Backoff(count));
      }
    case DoCancel(i, _) => if i in db.orders { ReleaseOrders(db, i); }
    case ClaimTimeout(i) => if i in db.orders { ReleaseOrders(db, i); }
    case DeliverTimeout(i) => if i in db.orders { ReleaseOrders(db, i); }
  }

  lemma StepBearsOrder(cfg: Config, db: Db, snap: Db, l: Label, id: int)
    requires id !in db.orders
    ensures BornPublished(cfg, db, Exec(cfg, db, snap, l), l, id)
  {
    NothingHappensToMissing(cfg, db, l, id);
    hide Create, Happens;
    if l.DoCreate? {
      CreateOrders(cfg, db, l.id, l.publisher, l.reward, l.ttl);
    } else if l.DoGrab? || l.DoDeliver? || l.DeliverFailed? || l.DoSettle? || l.JobFailed? || l.DoCancel?
        || l.ClaimTimeout? || l.DeliverTimeout? {
      hide Exec;
      OrderLabelsKeepKeys(cfg, db, snap, l);
      assert id !in Exec(cfg, db, snap, l).orders.Keys;
    } else {
      hide Exec;
      PaymentLabelsLeaveOrders(cfg, db, snap, l);
    }
  }

  // ---- whole runs ----

  /** How often a milestone's transaction committed for this order in the first n steps. */
  ghost function Count(tr: seq<Db>, evs: seq<Event>, id: int, m: Milestone, n: nat): nat
    requires n <= |evs| && |tr| == |evs| + 1
  {
    if n == 0 then 0
    else Count(tr, evs, id, m, n - 1) + if Happens(evs[n - 1].cfg, tr[n - 1], evs[n - 1].step, id, m) then 1 else 0
  }

  /** How often the order's status changed in the first n steps. */
  function Changes(tr: seq<Db>, id: int, n: nat): nat
    requires n < |tr|
  {
    if n == 0 then 0
    else Changes(tr, id, n - 1)
         + if id in tr[n - 1].orders && id in tr[n].orders && tr[n - 1].orders[id].status != tr[n].orders[id].status
             then 1 else 0
  }

  lemma RunMovesOrder(cfg: Config, tr: seq<Db>, evs: seq<Event>, id: int, n: nat)
    requires Run(cfg.platform, tr, evs) && 0 < n < |tr|
    ensures if id in tr[n - 1].orders
            then OrderMoves(evs[n - 1].cfg, tr[n - 1], tr[n], evs[n - 1].step, id)
                && OrderOk(cfg, tr[n].users, tr[n].orders[id])
            else BornPublished(evs[n - 1].cfg, tr[n - 1], tr[n], evs[n - 1].step, id)
  {
    hide Inv, Earlier, Exec, Happens, Initial, OrderOk, BornPublished;
    var now, before, step, snap := evs[n - 1].cfg, tr[n - 1], evs[n - 1].step, tr[evs[n - 1].snap];
    assert now.platform == cfg.platform && tr[n - 1 + 1] == Exec(now, before, snap, step);
    RunKeepsInv(now, tr, evs, n - 1);
    RunKeepsInv(cfg, tr, evs, n);
    if id in before.orders {
      StepMovesOrder(now, before, snap, step, id);
      OrderIsOk(cfg, tr[n], id);
    } else {
      StepBearsOrder(now, before, snap, step, id);
    }
  }

  lemma NoOrdersAtFirst(cfg: Config, tr: seq<Db>, evs: seq<Event>)
    requires Run(cfg.platform, tr, evs)
    ensures tr[0].orders == map[]
  {}

  lemma VersionsAreSmall(o: Order)
    ensures VersionOf(o) <= 3
  {}

  /** In every run at most one grab wins an order, it is delivered at most once, its escrow is paid out at most once or
      given back at most once, and never both; the version column counts the status changes, of which there are at most
      three. */
  lemma {:induction false} LifeOfOrder(cfg: Config, tr: seq<Db>, evs: seq<Event>, id: int, n: nat)
    requires Run(cfg.platform, tr, evs) && n < |tr|
    ensures forall m :: Count(tr, evs, id, m, n) == if id in tr[n].orders && Reached(tr[n].orders[id], m) then 1 else 0
    ensures if id in tr[n].orders then tr[n].orders[id].version == Changes(tr, id, n) <= 3 else Changes(tr, id, n) == 0
  {
    assert |tr| == |evs| + 1;
    hide Run, Happens, VersionOf, Allowed;
    if n == 0 {
      NoOrdersAtFirst(cfg, tr, evs);
    } else {
      LifeOfOrder(cfg, tr, evs, id, n - 1);
      RunMovesOrder(cfg, tr, evs, id, n);
      if id in tr[n].orders { VersionsAreSmall(tr[n].orders[id]); }
    }
  }

  predicate Descends(o: Order, p: Order) {
    && p.publisher == o.publisher && p.reward == o.reward && p.claimDeadline == o.claimDeadline
    && (o.taker.Some? ==> p.taker == o.taker)
    && (o.Terminal() ==> p == o)
  }

  lemma EvolvingDescends(o: Order, p: Order, q: Order)
    requires Descends(o, p) && Evolves(p, q)
    ensures Descends(o, q)
  {}

  /** A taker, once set, stays, and is never the publisher; a settled or cancelled order never changes again. */
  lemma {:induction false} OrderNeverLooksBack(cfg: Config, tr: seq<Db>, evs: seq<Event>, id: int, j: nat, n: nat)
    requires Run(cfg.platform, tr, evs) && j <= n < |tr| && id in tr[j].orders
    ensures id in tr[n].orders && Descends(tr[j].orders[id], tr[n].orders[id])
    ensures tr[n].orders[id].taker != Some(tr[n].orders[id].publisher)
    decreases n
  {
    if j < n {
      hide Run, Inv, OrderOk, Evolves, Descends;
      OrderNeverLooksBack(cfg, tr, evs, id, j, n - 1);
      RunEvolves(cfg, tr, evs, id, n);
      EvolvingDescends(tr[j].orders[id], tr[n - 1].orders[id], tr[n].orders[id]);
    }
    hide Run, Inv, OrderOk, Evolves;
    RunKeepsInv(cfg, tr, evs, n);
    OrderIsOk(cfg, tr[n], id);
    TakerIsNotPublisher(cfg, tr[n].users, tr[n].orders[id]);
  }

  lemma RunEvolves(cfg: Config, tr: seq<Db>, evs: seq<Event>, id: int, n: nat)
    requires Run(cfg.platform, tr, evs) && 0 < n < |tr| && id in tr[n - 1].orders
    ensures id in tr[n].orders && Evolves(tr[n - 1].orders[id], tr[n].orders[id])
  {
    assert |tr| == |evs| + 1;
    hide Run, Evolves, Happens, Reached, OrderOk;
    RunMovesOrder(cfg, tr, evs, id, n);
  }

  lemma TakerIsNotPublisher(cfg: Config, users: map<int, Role>, o: Order)
    requires OrderOk(cfg, users, o)
    ensures o.taker != Some(o.publisher)
  {}
}
