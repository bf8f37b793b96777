/** Runs of the whole system: any interleaving of committed or aborted transactions. */
module Runs {
  import opened Model
  import opened Sums
  import opened Books
  import opened OrderSpec
  import opened PaymentSpec
  import opened Invariants
  import opened OrderSteps
  import opened PaymentSteps
  import opened CommissionMath

  datatype Label =
    | Idle
    | Tick(ms: nat)
    | NewUser(user: int, admin: bool)
    | DoRecharge(user: int, amount: int, requested: Option<string>, uuid: string, bizId: int)
    | DoCreate(id: int, publisher: int, reward: int, ttl: Option<int>)
    | DoGrab(id: int, taker: int)
    | DoDeliver(id: int, taker: int)
    | DeliverFailed(id: int, appNow: int)
    | DoSettle(id: int)
    | JobFailed(id: int, appNow: int)
    | DoCancel(id: int, caller: int)
    | ClaimTimeout(id: int)
    | DeliverTimeout(id: int)
    | DoCallback(verified: bool, request: CallbackRequest, id: int, uuid: string, bizId: int)
    | DoRefund(id: int, payment: int, user: int, amount: int, requestKey: string)
    | DoOpenDispute(id: int, payment: int, user: int)
    | DoCompensate(dispute: int, operator: int, requestKey: string, amount: int)

  /** One step.  `snap` is the older database that the step's unlocked reads see; Idle is also any
      transaction that the database rolls back. */
  ghost function Exec(cfg: Config, db: Db, snap: Db, l: Label): Db {
    match l
    case Idle => db
    case Tick(ms) => db.(now := db.now + ms)
    case NewUser(user, admin) => Registered(db, user, if admin then AdminRole else UserRole)
    case DoRecharge(user, amount, requested, uuid, b) =>
      RechargeWallet(db, snap, user, amount, requested, uuid, b).After(db)
    case DoCreate(id, publisher, reward, ttl) => Create(db, cfg, id, publisher, reward, ttl).After(db)
    case DoGrab(id, taker) => Grab(db, cfg, id, taker).After(db)
    case DoDeliver(id, taker) => MarkDelivered(db, id, taker).After(db)
    case DeliverFailed(id, appNow) => RecordSettlementFailure(db, id, 1, appNow + 1000)
    case DoSettle(id) => Settlement(db, cfg, id).After(db)
    case JobFailed(id, appNow) =>
      if id in snap.orders && DueForRetry(snap.orders[id], snap.now)
          then RetryFailed(db, id, snap.orders[id].retryCount, appNow) else db
    case DoCancel(id, caller) => CancelOrder(db, id, caller).After(db)
    case ClaimTimeout(id) => TimeoutClaim(db, id).After(db)
    case DeliverTimeout(id) => TimeoutDeliver(db, id).After(db)
    case DoCallback(verified, request, id, uuid, b) => Callback(db, snap, verified, request, id, uuid, b).After(db)
    case DoRefund(id, payment, user, amount, requestKey) =>
      RefundPayment(db, snap, id, payment, user, amount, requestKey).After(db)
    case DoOpenDispute(id, payment, user) => OpenDispute(db, snap, id, payment, user).After(db)
    case DoCompensate(dispute, admin, requestKey, amount) =>
      CompensateDispute(db, snap, dispute, admin, requestKey, amount).After(db)
  }

  function Registered(db: Db, user: int, role: Role): Db {
    if user in db.users then db else EnsureAccounts(db.(users := db.users[user := role]), user)
  }

  /** A step under the configuration of its moment: rate and times to live may change, the platform user does not. */
  datatype Event = Event(step: Label, snap: nat, cfg: Config)

  /** The seeded database: the treasury, perhaps other system users, empty wallets, nothing else. */
  ghost predicate Initial(db: Db) {
    && MINT_ID in db.users
    && (forall u :: u in db.users ==> (db.users[u].MintRole? <==> u == MINT_ID))
    && (forall a :: a in db.accounts <==> a.user in db.users)
    && (forall a :: a in db.accounts ==> db.accounts[a] == 0)
    && db.ledger == map[] && db.orders == map[] && db.idem == map[] && db.events == {} && db.recharges == map[]
    && db.payments == map[] && db.refunds == map[] && db.disputes == map[] && db.compensations == map[]
       && db.notes == {}
  }

  ghost predicate Run(platform: int, tr: seq<Db>, evs: seq<Event>) {
    && |tr| == |evs| + 1 && Initial(tr[0])
    && forall i :: 0 <= i < |evs| ==>
         evs[i].snap <= i && evs[i].cfg.platform == platform
             && tr[i + 1] == Exec(evs[i].cfg, tr[i], tr[evs[i].snap], evs[i].step)
  }

  // ---- snapshots stay trustworthy ----

  lemma EarlierTrans(a: Db, b: Db, c: Db)
    requires Earlier(a, b) && Earlier(b, c)
    ensures Earlier(a, c)
  {}

  predicate SameClaims(db: Db, db': Db) {
    db'.payments == db.payments && db'.refunds == db.refunds && db'.disputes == db.disputes
        && db'.compensations == db.compensations
  }

  predicate SameRecords(db: Db, db': Db) { SameClaims(db, db') && db'.recharges == db.recharges && Grows(db, db') }

  lemma SameClaimsIsLater(db: Db, db': Db)
    requires SameClaims(db, db') && Grows(db, db')
    ensures Earlier(db, db')
  {}

  lemma CreateLeavesRecords(cfg: Config, db: Db, id: int, publisher: int, reward: int, ttl: Option<int>)
    ensures SameRecords(db, Create(db, cfg, id, publisher, reward, ttl).After(db))
  {
    hide EnsureAccounts, Transfer, TransferFree, CanDebit;
  }

  lemma GrabLeavesRecords(cfg: Config, db: Db, id: int, taker: int)
    ensures SameRecords(db, Grab(db, cfg, id, taker).After(db))
  {}

  lemma DeliveryLeavesRecords(db: Db, id: int, taker: int)
    ensures SameRecords(db, MarkDelivered(db, id, taker).After(db))
  {}

  lemma MarkDeadLeavesRecords(db: Db, id: int)
    ensures SameRecords(db, MarkSettlementDead(db, id))
  {}

  lemma ReleaseLeavesRecords(db: Db, id: int)
    requires id in db.orders
    ensures SameRecords(db, Release(db, id).After(db))
  {
    hide Transfer, TransferFree, CanDebit;
  }

  lemma SettlementLeavesRecords(cfg: Config, db: Db, id: int)
    ensures SameRecords(db, Settlement(db, cfg, id).After(db))
  {
    hide EnsureAccounts, Post, Free, CanDebit, Commission, EscrowKey, EarningKey, CommissionKey;
  }

  predicate PaymentLabel(l: Label) {
    l.DoRecharge? || l.DoCallback? || l.DoRefund? || l.DoOpenDispute? || l.DoCompensate?
  }

  /** Order transactions, registrations and the clock leave recharges, payments, refunds and disputes alone. */
  lemma OtherLabelsLeaveRecords(cfg: Config, db: Db, snap: Db, l: Label)
    requires !PaymentLabel(l)
    ensures SameRecords(db, Exec(cfg, db, snap, l))
  {
    hide SameRecords, Create, Grab, MarkDelivered, Settlement, Release, MarkSettlementDead, RecordSettlementFailure,
         Registered;
    SameSelf(db);
    match l
    case Idle =>
    case Tick(ms) => ClockLeavesRecords(db, db.now + ms);
    case NewUser(user, admin) => RegisterLeavesRecords(db, user, if admin then AdminRole else UserRole);
    case DoCreate(id, publisher, reward, ttl) => CreateLeavesRecords(cfg, db, id, publisher, reward, ttl);
    case DoGrab(id, who) => GrabLeavesRecords(cfg, db, id, who);
    case DoDeliver(id, who) => DeliveryLeavesRecords(db, id, who);
    case DeliverFailed(id, appNow) => FailureLeavesRecords(db, id, 1, appNow + 1000);
    case DoSettle(id) => SettlementLeavesRecords(cfg, db, id);
    case JobFailed(id, appNow) =>
      if id in snap.orders && DueForRetry(snap.orders[id], snap.now) {
        var count := snap.orders[id].retryCount + 1;
        MarkDeadLeavesRecords(db, id);
        FailureLeavesRecords(db, id, count, appNow + 1000 * Backoff(count));
      }
    case DoCancel(id, caller) => if id in db.orders { ReleaseLeavesRecords(db, id); }
    case ClaimTimeout(id) => if id in db.orders { ReleaseLeavesRecords(db, id); }
    case DeliverTimeout(id) => if id in db.orders { ReleaseLeavesRecords(db, id); }
  }

  lemma SameSelf(db: Db)
    ensures SameRecords(db, db)
  {}

  lemma ClockLeavesRecords(db: Db, now: int)
    ensures SameRecords(db, db.(now := now))
  {}

  lemma RegisterLeavesRecords(db: Db, user: int, role: Role)
    ensures SameRecords(db, Registered(db, user, role))
  {}

  lemma FailureLeavesRecords(db: Db, id: int, count: nat, next: int)
    ensures SameRecords(db, RecordSettlementFailure(db, id, count, next))
  {}

  lemma RechargeLeavesClaims(db: Db, snap: Db, user: int, amount: int, requested: Option<string>, uuid: string, b: int)
    ensures var d := RechargeWallet(db, snap, user, amount, requested, uuid, b).After(db);
            SameClaims(db, d) && Grows(db, d)
  {
    hide EnsureAccounts, Transfer, TransferFree, RechargeKey;
  }

  lemma CallbackIsLater(db: Db, snap: Db, verified: bool, request: CallbackRequest, id: int, uuid: string, b: int)
    ensures Earlier(db, Callback(db, snap, verified, request, id, uuid, b).After(db))
  {
    hide Callback, RechargeWallet;
    CallbackIsRechargePlusPayment(db, snap, verified, request, id, uuid, b);
    RechargeLeavesClaims(db, snap, request.user, request.amount, Some("PAYMENT:" + request.eventId), uuid, b);
  }

  lemma RefundIsLater(db: Db, snap: Db, id: int, payment: int, user: int, amount: int, requestKey: string)
    ensures Earlier(db, RefundPayment(db, snap, id, payment, user, amount, requestKey).After(db))
  {
    hide RefundPayment, RefundKeysFree;
    RefundShape(db, snap, id, payment, user, amount, requestKey);
  }

  /** A refund changes nothing, or adds its row and closes its payment. */
  lemma RefundShape(db: Db, snap: Db, id: int, payment: int, user: int, amount: int, requestKey: string)
    ensures var d := RefundPayment(db, snap, id, payment, user, amount, requestKey).After(db);
            d == db || (id !in db.refunds && d.refunds == db.refunds[id := RefundRow(payment, requestKey, user, amount)]
                        && d.payments == Refunded(db.payments, payment) && d.disputes == db.disputes
                           && d.compensations == db.compensations
                        && d.users == db.users && d.idem == db.idem)
  {
    hide EnsureAccounts, Transfer, TransferFree, NoteFree, CanDebit, Refunded;
  }

  lemma OpenDisputeIsLater(db: Db, snap: Db, id: int, payment: int, user: int)
    ensures Earlier(db, OpenDispute(db, snap, id, payment, user).After(db))
  {}

  lemma CompensateIsLater(db: Db, snap: Db, id: int, operator: int, requestKey: string, amount: int)
    ensures Earlier(db, CompensateDispute(db, snap, id, operator, requestKey, amount).After(db))
  {
    hide CompensateDispute;
    CompensationShape(db, snap, id, operator, requestKey, amount);
  }

  /** A compensation changes nothing, or adds its row and closes its dispute. */
  lemma CompensationShape(db: Db, snap: Db, id: int, operator: int, requestKey: string, amount: int)
    ensures var d := CompensateDispute(db, snap, id, operator, requestKey, amount).After(db);
            d == db
            || (requestKey !in db.compensations && id in db.disputes
                && d.compensations.Keys == db.compensations.Keys + {requestKey}
                && (forall q :: q in db.compensations ==> d.compensations[q] == db.compensations[q])
                && d.disputes == db.disputes[id := db.disputes[id].(resolved := true, resolvedBy := Some(operator))]
                && d.payments == db.payments && d.refunds == db.refunds && d.users == db.users && d.idem == db.idem)
  {
    hide EnsureAccounts, Transfer, TransferFree, NoteFree;
  }

  lemma StepIsLater(cfg: Config, db: Db, snap: Db, l: Label)
    ensures Earlier(db, Exec(cfg, db, snap, l))
  {
    if PaymentLabel(l) {
      hide Earlier, SameClaims, RechargeWallet, Callback, RefundPayment, OpenDispute, CompensateDispute;
      match l
      case DoRecharge(user, amount, requested, uuid, b) =>
        RechargeLeavesClaims(db, snap, user, amount, requested, uuid, b);
        SameClaimsIsLater(db, Exec(cfg, db, snap, l));
      case DoCallback(verified, request, id, uuid, b) => CallbackIsLater(db, snap, verified, request, id, uuid, b);
      case DoRefund(id, payment, user, amount, requestKey) =>
        RefundIsLater(db, snap, id, payment, user, amount, requestKey);
      case DoOpenDispute(id, payment, user) => OpenDisputeIsLater(db, snap, id, payment, user);
      case DoCompensate(dispute, operator, requestKey, amount) =>
        CompensateIsLater(db, snap, dispute, operator, requestKey, amount);
    } else {
      hide Earlier, Exec, SameClaims;
      OtherLabelsLeaveRecords(cfg, db, snap, l);
      SameClaimsIsLater(db, Exec(cfg, db, snap, l));
    }
  }

  // ---- new users, initial state ----

  lemma InitialInv(cfg: Config, db: Db)
    requires Initial(db)
    ensures Inv(cfg, db)
  {
    assert forall a :: a in db.accounts ==> FrozenPart()(a, db.accounts[a]) == 0;
    SumByZero(db.accounts, FrozenPart());
    SumByZero(db.accounts, EveryBalance());
    assert forall d :: PaidBy(db.compensations, d).None?;
  }

  lemma RegisterKeepsTotals(db: Db, user: int)
    requires user !in db.users && UsersOk(db.users, db.accounts) && TotalsOk(db.accounts, db.ledger, db.orders)
    ensures TotalsOk(db.accounts[Account(user, Available) := 0][Account(user, Frozen) := 0], db.ledger, db.orders)
  {
    hide SumBy;
    var mid := db.accounts[Account(user, Available) := 0];
    SumByUpdate(db.accounts, Account(user, Available), 0, FrozenPart());
    SumByUpdate(mid, Account(user, Frozen), 0, FrozenPart());
    SumByUpdate(db.accounts, Account(user, Available), 0, EveryBalance());
    SumByUpdate(mid, Account(user, Frozen), 0, EveryBalance());
    forall a: Account | a.user == user ensures SumBy(db.ledger, OnAccount(a)) == 0 {
      SumByZero(db.ledger, OnAccount(a));
    }
  }

  lemma NoRecordsNoBalance(cfg: Config, db: Db, user: int)
    requires Inv(cfg, db) && user !in db.users
    ensures UserBalance(db, user) == 0 && SumBy(db.orders, EscrowBy(user)) == 0
  {
    hide SumBy, TotalsOk, ClosedForms, OrderRows, RechargeRows, RefundRows, CompensationRows, NotesOk, EventsOk;
    forall id | id in db.orders
        ensures EscrowBy(user)(id, db.orders[id]) == 0 && SpentBy(user)(id, db.orders[id]) == 0
                && EarnedBy(user)(id, db.orders[id]) == 0 {
      OrderIsOk(cfg, db, id);
    }
    forall b | b in db.recharges ensures RechargedTo(user)(b, db.recharges[b]) == 0 {
      assert IsBusinessUser(db.users, db.recharges[b].user);
    }
    forall r | r in db.refunds ensures RefundedTo(user)(r, db.refunds[r]) == 0 {
      PaymentIsOk(cfg, db, db.refunds[r].payment);
    }
    SumByZero(db.orders, EscrowBy(user));
    SumByZero(db.orders, SpentBy(user));
    SumByZero(db.orders, EarnedBy(user));
    SumByZero(db.recharges, RechargedTo(user));
    SumByZero(db.refunds, RefundedTo(user));
    SumByZero(db.compensations, CompensatedTo(user));
  }

  lemma RegisterKeepsClosedForms(cfg: Config, db: Db, db': Db, user: int, role: Role)
    requires ClosedForms(cfg, db) && user !in db.users && user != MINT_ID && !role.PlatformRole?
    requires UserBalance(db, user) == 0 && SumBy(db.orders, EscrowBy(user)) == 0
    requires db' == db.(users := db.users[user := role], accounts := db.accounts[Account(user, Available) := 0]
        [Account(user, Frozen) := 0])
    ensures ClosedForms(cfg, db')
  {
    hide SumBy;
  }

  lemma RegisterKeepsUserTables(cfg: Config, db: Db, user: int, role: Role)
    requires user !in db.users && user != MINT_ID && (role.UserRole? || role.AdminRole?)
    requires UsersOk(db.users, db.accounts) && NoOverdraft(db.accounts)
    ensures var accounts' := db.accounts[Account(user, Available) := 0][Account(user, Frozen) := 0];
            UsersOk(db.users[user := role], accounts') && NoOverdraft(accounts')
  {
    var accounts' := db.accounts[Account(user, Available) := 0][Account(user, Frozen) := 0];
    forall a: Account ensures a in accounts' <==> a.user in db.users[user := role] {
      match a.kind case Available => case Frozen =>
    }
  }

  lemma MoreUsersKeepRows(cfg: Config, db: Db, user: int, role: Role)
    requires user !in db.users
    requires OrdersOk(cfg, db.users, db.orders) && RechargesOk(db.users, db.idem, db.recharges)
    requires PaymentsOk(db.users, db.payments) && DisputesOk(db.users, db.disputes, db.compensations)
    ensures var users' := db.users[user := role];
            && OrdersOk(cfg, users', db.orders) && RechargesOk(users', db.idem, db.recharges)
            && PaymentsOk(users', db.payments) && DisputesOk(users', db.disputes, db.compensations)
  {
    hide PaidBy;
    forall id | id in db.orders ensures OrderOk(cfg, db.users[user := role], db.orders[id]) {
      assert OrderOk(cfg, db.users, db.orders[id]);
    }
  }

  lemma RegisterKeeps(cfg: Config, db: Db, user: int, role: Role)
    requires Inv(cfg, db) && (role.UserRole? || role.AdminRole?)
    ensures Inv(cfg, Registered(db, user, role))
  {
    if user !in db.users {
      MintIsUser(cfg, db);
      hide SumBy, UsersOk, NoOverdraft, TotalsOk, ClosedForms, OrderRows, RechargeRows, RefundRows, CompensationRows,
           OrdersOk, EventsOk, SettleKeysOk, RechargesOk, PaymentsOk, RefundsOk, DisputesOk, NotesOk;
      NewAccounts(db, user, role);
      RegisterKeepsTotals(db, user);
      NoRecordsNoBalance(cfg, db, user);
      RegisterKeepsClosedForms(cfg, db, Registered(db, user, role), user, role);
      RegisterKeepsUserTables(cfg, db, user, role);
      MoreUsersKeepRows(cfg, db, user, role);
    }
  }

  lemma MintIsUser(cfg: Config, db: Db)
    requires Inv(cfg, db)
    ensures MINT_ID in db.users
  {}

  lemma NewAccounts(db: Db, user: int, role: Role)
    requires UsersOk(db.users, db.accounts) && user !in db.users
    ensures Registered(db, user, role) ==
            db.(users := db.users[user := role], accounts := db.accounts[Account(user, Available) := 0]
                [Account(user, Frozen) := 0])
  {
    assert map[Account(user, Available) := 0, Account(user, Frozen) := 0] + db.accounts ==
           db.accounts[Account(user, Available) := 0][Account(user, Frozen) := 0];
  }

  // ---- every step keeps the invariant ----

  lemma StepKeepsInv(cfg: Config, db: Db, snap: Db, l: Label)
    requires Inv(cfg, db) && Inv(cfg, snap) && Earlier(snap, db)
    ensures Inv(cfg, Exec(cfg, db, snap, l))
  {
    hide Inv, Earlier, Create, Grab, MarkDelivered, Settlement, Release, RechargeWallet, Callback, RefundPayment,
         OpenDispute, CompensateDispute, RecordSettlementFailure, MarkSettlementDead, Registered;
    match l
    case Idle =>
    case Tick(ms) => ClockKeeps(cfg, db, db.now + ms);
    case NewUser(user, admin) => RegisterKeeps(cfg, db, user, if admin then AdminRole else UserRole);
    case DoRecharge(user, amount, requested, uuid, b) => RechargeKeeps(cfg, db, snap, user, amount, requested, uuid, b);
    case DoCreate(id, publisher, reward, ttl) => CreateKeeps(cfg, db, id, publisher, reward, ttl);
    case DoGrab(id, taker) => GrabKeeps(cfg, db, id, taker);
    case DoDeliver(id, taker) => MarkDeliveredKeeps(cfg, db, id, taker);
    case DeliverFailed(id, appNow) => RecordFailureKeeps(cfg, db, id, 1, appNow + 1000);
    case DoSettle(id) => SettlementKeeps(cfg, db, id);
    case JobFailed(id, appNow) =>
      if id in snap.orders && DueForRetry(snap.orders[id], snap.now) {
        var seen := snap.orders[id].retryCount;
        if seen + 1 >= MAX_SETTLE_RETRIES { MarkDeadKeeps(cfg, db, id); }
        else { RecordFailureKeeps(cfg, db, id, seen + 1, appNow + 1000 * Backoff(seen + 1)); }
      }
    case DoCancel(id, caller) =>
      if id in db.orders && (db.orders[id].status.Published? || db.orders[id].status.Taken?) {
        ReleaseKeeps(cfg, db, id);
      }
    case ClaimTimeout(id) => if id in db.orders && db.orders[id].status.Published? { ReleaseKeeps(cfg, db, id); }
    case DeliverTimeout(id) => if id in db.orders && db.orders[id].status.Taken? { ReleaseKeeps(cfg, db, id); }
    case DoCallback(verified, request, id, uuid, b) => CallbackKeeps(cfg, db, snap, verified, request, id, uuid, b);
    case DoRefund(id, payment, user, amount, requestKey) =>
      RefundKeeps(cfg, db, snap, id, payment, user, amount, requestKey);
    case DoOpenDispute(id, payment, user) => OpenDisputeKeeps(cfg, db, snap, id, payment, user);
    case DoCompensate(dispute, admin, requestKey, amount) =>
      CompensateKeeps(cfg, db, snap, dispute, admin, requestKey, amount);
  }

  lemma ClockKeeps(cfg: Config, db: Db, now: int)
    requires Inv(cfg, db)
    ensures Inv(cfg, db.(now := now))
  {
    hide SumBy, UsersOk, NoOverdraft, TotalsOk, ClosedForms, OrderRows, RechargeRows, RefundRows, CompensationRows,
         OrdersOk, EventsOk, SettleKeysOk, RechargesOk, PaymentsOk, RefundsOk, DisputesOk, NotesOk;
    SameRecordsKeepClosedForms(cfg, db, db.(now := now));
  }

  /** The invariant knows the platform user only: rate and times to live may change under it. */
  lemma OnlyPlatformMatters(cfg: Config, other: Config, db: Db)
    requires Inv(cfg, db) && other.platform == cfg.platform
    ensures Inv(other, db)
  {
    hide SumBy, UsersOk, NoOverdraft, TotalsOk, RechargeRows, RefundRows, CompensationRows, EventsOk, SettleKeysOk,
         RechargesOk, PaymentsOk, RefundsOk, DisputesOk, NotesOk;
    assert forall u :: AvailableOf(other, db, u) == AvailableOf(cfg, db, u);
    assert forall o, k :: OrderRow(other, o, k) == OrderRow(cfg, o, k);
    assert forall id :: id in db.orders
                        ==> OrderOk(other, db.users, db.orders[id]) == OrderOk(cfg, db.users, db.orders[id]);
  }

  /** The invariant holds after every step of every run, and every older state is a trustworthy snapshot. */
  lemma {:induction false} RunKeepsInv(cfg: Config, tr: seq<Db>, evs: seq<Event>, n: nat)
    requires Run(cfg.platform, tr, evs) && n < |tr|
    ensures Inv(cfg, tr[n])
    ensures forall j :: 0 <= j <= n ==> Earlier(tr[j], tr[n])
  {
    hide Inv, Earlier, Exec;
    if n == 0 {
      InitialInv(cfg, tr[0]);
      EarlierSelf(tr[0]);
    } else {
      var m := n - 1;
      RunKeepsInv(cfg, tr, evs, m);
      var s := evs[m].snap;
      RunKeepsInv(cfg, tr, evs, s);
      assert tr[m + 1] == Exec(evs[m].cfg, tr[m], tr[s], evs[m].step);
      OnlyPlatformMatters(cfg, evs[m].cfg, tr[m]);
      OnlyPlatformMatters(cfg, evs[m].cfg, tr[s]);
      StepKeepsInv(evs[m].cfg, tr[m], tr[s], evs[m].step);
      OnlyPlatformMatters(evs[m].cfg, cfg, tr[n]);
      StepIsLater(evs[m].cfg, tr[m], tr[s], evs[m].step);
      forall j | 0 <= j <= n ensures Earlier(tr[j], tr[n]) {
        if j == n { EarlierSelf(tr[n]); } else { EarlierTrans(tr[j], tr[m], tr[n]); }
      }
    }
  }

  /** In every reachable state every balance is a sum over business records, and only the treasury's may be negative: a
      user's wallet is what was recharged and compensated, less refunds and the rewards of own orders not cancelled,
      plus what was earned by settled deliveries; escrow is the rewards of own open orders; the platform holds the
      recorded commissions, and the treasury the counterpart of all money put in. */
  lemma EveryBalanceIsExplained(cfg: Config, tr: seq<Db>, evs: seq<Event>, n: nat, u: int)
    requires Run(cfg.platform, tr, evs) && n < |tr| && u in tr[n].users
    ensures var db, available, frozen := tr[n], Account(u, Available), Account(u, Frozen);
            && available in db.accounts && frozen in db.accounts
            && db.accounts[frozen] == SumBy(db.orders, EscrowBy(u)) >= 0
            && (u == MINT_ID ==>
                  db.accounts[available] == -(SumBy(db.recharges, AnyRecharge())
                                              + SumBy(db.compensations, AnyCompensation()) - SumBy(db.refunds,
                                                  AnyRefund())))
            && (IsPlatform(cfg, db.users, u) && u != MINT_ID
                ==> db.accounts[available] == SumBy(db.orders, CommissionOf()) >= 0)
            && (IsBusinessUser(db.users, u) ==>
                  db.accounts[available] ==
                  SumBy(db.recharges, RechargedTo(u))
                      + SumBy(db.compensations, CompensatedTo(u)) - SumBy(db.refunds, RefundedTo(u))
                  - SumBy(db.orders, SpentBy(u)) + SumBy(db.orders, EarnedBy(u)) >= 0)
  {
    RunKeepsInv(cfg, tr, evs, n);
    BalanceIsExplained(cfg, tr[n], u);
  }

  lemma BalanceIsExplained(cfg: Config, db: Db, u: int)
    requires Inv(cfg, db) && u in db.users
    ensures Account(u, Available) in db.accounts && db.accounts[Account(u, Available)] == AvailableOf(cfg, db, u)
    ensures Account(u, Frozen) in db.accounts && db.accounts[Account(u, Frozen)] == SumBy(db.orders, EscrowBy(u))
    ensures u != MINT_ID ==> db.accounts[Account(u, Available)] >= 0
    ensures db.accounts[Account(u, Frozen)] >= 0
    ensures IsBusinessUser(db.users, u) ==> u != MINT_ID
  {
    hide SumBy, TotalsOk, OrderRows, RechargeRows, RefundRows, CompensationRows,
         EventsOk, SettleKeysOk, RechargesOk, PaymentsOk, RefundsOk, DisputesOk, NotesOk;
    forall id | id in db.orders ensures EscrowBy(u)(id, db.orders[id]) >= 0 { OrderIsOk(cfg, db, id); }
    SumByNonNegative(db.orders, EscrowBy(u));
  }
}
