/** What holds of the tables in every reachable state. */
module Invariants {
  import opened Model
  import opened Sums
  import opened Books
  import opened OrderSpec
  import opened PaymentSpec

  // ---- closed forms: every balance as a sum over business records ----

  function Escrow(o: Order, u: int): int { if o.publisher == u && o.Open() then o.reward else 0 }
  function Spent(o: Order, u: int): int { if o.publisher == u && !o.status.Cancelled? then o.reward else 0 }
  function Earned(o: Order, u: int): int {
    if o.status.Settled? && o.taker == Some(u) then o.reward - o.commission else 0
  }
  function CommissionPart(o: Order): int { if o.status.Settled? then o.commission else 0 }

  ghost function EscrowBy(u: int): (int, Order) -> int { (id: int, o: Order) => Escrow(o, u) }
  ghost function SpentBy(u: int): (int, Order) -> int { (id: int, o: Order) => Spent(o, u) }
  ghost function EarnedBy(u: int): (int, Order) -> int { (id: int, o: Order) => Earned(o, u) }
  ghost function CommissionOf(): (int, Order) -> int { (id: int, o: Order) => CommissionPart(o) }
  function OpenReward(): (int, Order) -> int { (id: int, o: Order) => if o.Open() then o.reward else 0 }
  ghost function RechargedTo(u: int): (int, RechargeRow) -> int {
    (id: int, r: RechargeRow) => if r.user == u then r.amount else 0
  }
  ghost function AnyRecharge(): (int, RechargeRow) -> int { (id: int, r: RechargeRow) => r.amount }
  ghost function RefundedTo(u: int): (int, RefundRow) -> int {
    (id: int, r: RefundRow) => if r.user == u then r.amount else 0
  }
  ghost function AnyRefund(): (int, RefundRow) -> int { (id: int, r: RefundRow) => r.amount }
  ghost function CompensatedTo(u: int): (string, Compensation) -> int {
    (key: string, c: Compensation) => if c.user == u then c.amount else 0
  }
  ghost function AnyCompensation(): (string, Compensation) -> int { (key: string, c: Compensation) => c.amount }

  predicate IsPlatform(cfg: Config, users: map<int, Role>, u: int) {
    u == cfg.platform && u in users && users[u].PlatformRole?
  }

  ghost function MintBalance(db: Db): int {
    SumBy(db.refunds, AnyRefund()) - SumBy(db.recharges, AnyRecharge()) - SumBy(db.compensations, AnyCompensation())
  }

  ghost function UserBalance(db: Db, u: int): int {
    SumBy(db.recharges, RechargedTo(u)) + SumBy(db.compensations, CompensatedTo(u)) - SumBy(db.refunds, RefundedTo(u))
    - SumBy(db.orders, SpentBy(u)) + SumBy(db.orders, EarnedBy(u))
  }

  ghost function AvailableOf(cfg: Config, db: Db, u: int): int {
    if u == MINT_ID then MintBalance(db)
    else if IsPlatform(cfg, db.users, u) then SumBy(db.orders, CommissionOf())
    else UserBalance(db, u)
  }

  ghost predicate ClosedForms(cfg: Config, db: Db) {
    forall u :: u in db.users ==>
      && Account(u, Available) in db.accounts && db.accounts[Account(u, Available)] == AvailableOf(cfg, db, u)
      && Account(u, Frozen) in db.accounts && db.accounts[Account(u, Frozen)] == SumBy(db.orders, EscrowBy(u))
  }

  ghost predicate TotalsOk(accounts: map<Account, int>, ledger: map<LedgerKey, int>, orders: map<int, Order>) {
    BooksAgree(accounts, ledger) && LedgerTotal(ledger) == 0 && AccountTotal(accounts) == 0
    && FrozenTotal(accounts) == SumBy(orders, OpenReward())
  }

  // ---- the ledger holds exactly the rows that the business records demand ----

  function RowAt(ledger: map<LedgerKey, int>, k: LedgerKey): Option<int> {
    if k in ledger then Some(ledger[k]) else None
  }

  function OrderRow(cfg: Config, o: Order, k: LedgerKey): Option<int> {
    match k.biz
    case Freeze => if k.user == o.publisher then Some(if k.kind.Available? then -o.reward else o.reward) else None
    case Cancel =>
      if o.status.Cancelled? && k.user == o.publisher then Some(if k.kind.Frozen? then -o.reward else o.reward)
          else None
    case Settle =>
      if !o.status.Settled? then None
      else if AccountOf(k) == Account(o.publisher, Frozen) then Some(-o.reward)
      else if o.taker.Some? && AccountOf(k) == Account(o.taker.value, Available) then Some(o.reward - o.commission)
      else if AccountOf(k) == Account(cfg.platform, Available) then Some(o.commission)
      else None
    case _ => None
  }

  predicate OrderBiz(b: BizType) { b.Freeze? || b.Cancel? || b.Settle? }

  /** A pair of rows between the treasury and a user's wallet; `amount` flows to the user. */
  function PairRow(user: int, amount: int, k: LedgerKey): Option<int> {
    if !k.kind.Available? then None
    else if k.user == MINT_ID then Some(-amount)
    else if k.user == user then Some(amount)
    else None
  }

  ghost predicate OrderRows(cfg: Config, ledger: map<LedgerKey, int>, orders: map<int, Order>) {
    forall k: LedgerKey :: OrderBiz(k.biz)
                           ==> RowAt(ledger, k) == if k.bizId in orders then OrderRow(cfg, orders[k.bizId], k) else None
  }

  ghost predicate RechargeRows(ledger: map<LedgerKey, int>, recharges: map<int, RechargeRow>) {
    forall k: LedgerKey :: k.biz.Recharge? ==>
      RowAt(ledger, k) == if k.bizId in recharges then PairRow(recharges[k.bizId].user, recharges[k.bizId].amount, k)
          else None
  }

  ghost predicate RefundRows(ledger: map<LedgerKey, int>, refunds: map<int, RefundRow>) {
    forall k: LedgerKey :: k.biz.Refund? ==>
      RowAt(ledger, k) == if k.bizId in refunds then PairRow(refunds[k.bizId].user, -refunds[k.bizId].amount, k)
          else None
  }

  ghost predicate CompensationRows(ledger: map<LedgerKey, int>, compensations: map<string, Compensation>) {
    forall k: LedgerKey :: k.biz.Compensate? ==>
      var q := PaidBy(compensations, k.bizId);
      RowAt(ledger, k) == if q.Some? then PairRow(compensations[q.value].user, compensations[q.value].amount, k)
          else None
  }

  ghost predicate Pays(compensations: map<string, Compensation>, q: string, dispute: int) {
    q in compensations && compensations[q].dispute == dispute
  }

  ghost function PaidBy(compensations: map<string, Compensation>, dispute: int): (r: Option<string>)
    ensures r.Some? <==> exists q :: Pays(compensations, q, dispute)
    ensures r.Some? ==> Pays(compensations, r.value, dispute)
  {
    if q :| Pays(compensations, q, dispute) then Some(q) else None
  }

  // ---- tables row by row ----

  ghost predicate UsersOk(users: map<int, Role>, accounts: map<Account, int>) {
    && MINT_ID in users
    && (forall u :: u in users ==> (users[u].MintRole? <==> u == MINT_ID))
    && (forall a :: a in accounts <==> a.user in users)
  }

  ghost predicate NoOverdraft(accounts: map<Account, int>) {
    forall a :: a in accounts && a.user != MINT_ID ==> accounts[a] >= 0
  }

  predicate OrderOk(cfg: Config, users: map<int, Role>, o: Order) {
    && IsBusinessUser(users, o.publisher)
    && (o.taker.Some? ==> IsBusinessUser(users, o.taker.value) && o.taker.value != o.publisher
                          && o.deliverDeadline.Some?)
    && 0 < o.reward && 0 <= o.commission <= o.reward
    && (o.commission > 0 ==> o.status.Settled?)
    && (o.status.Published? ==> o.taker.None?)
    && (o.status.Taken? || o.status.Delivered? || o.status.Settled? ==> o.taker.Some?)
    && o.version == VersionOf(o)
    && o.retryCount < MAX_SETTLE_RETRIES
    && (o.status.Delivered? ==> o.deliveredAt.Some?)
    && (o.status.Settled? ==> IsPlatform(cfg, users, cfg.platform))
  }

  /** The number of status changes behind an order. */
  function VersionOf(o: Order): nat {
    match o.status
    case Published => 0
    case Taken => 1
    case Delivered => 2
    case Settled => 3
    case Cancelled => if o.taker.Some? then 2 else 1
  }

  predicate OrdersOk(cfg: Config, users: map<int, Role>, orders: map<int, Order>) {
    forall id :: id in orders ==> OrderOk(cfg, users, orders[id])
  }

  ghost predicate EventsOk(events: set<EventKey>, orders: map<int, Order>) {
    && (forall id :: OrderPublished(id) in events <==> id in orders)
    && (forall id :: OrderTaken(id) in events <==> id in orders && orders[id].taker.Some?)
    && (forall id :: OrderTerminal(id) in events <==> id in orders && orders[id].Terminal())
  }

  ghost predicate SettleKeysOk(idem: map<OpKey, Fingerprint>, orders: map<int, Order>) {
    forall id :: (SettleOp(id) in idem <==> id in orders && orders[id].status.Settled?)
              && (SettleOp(id) in idem ==> idem[SettleOp(id)] == SettleRequest(id))
  }

  ghost predicate HasKey(recharges: map<int, RechargeRow>, b: int, key: string) {
    b in recharges && recharges[b].key == key
  }

  ghost predicate RechargesOk(users: map<int, Role>, idem: map<OpKey, Fingerprint>, recharges: map<int, RechargeRow>) {
    && (forall b :: b in recharges ==>
          && IsBusinessUser(users, recharges[b].user) && recharges[b].amount > 0
          && RechargeOp(recharges[b].key) in idem
          && idem[RechargeOp(recharges[b].key)] == RechargeRequest(recharges[b].user, recharges[b].amount))
    && (forall key :: RechargeOp(key) in idem ==> exists b :: HasKey(recharges, b, key))
    && (forall b, c :: b in recharges && c in recharges && recharges[b].key == recharges[c].key ==> b == c)
  }

  ghost predicate PaymentsOk(users: map<int, Role>, payments: map<int, Payment>) {
    && (forall p :: p in payments ==> IsBusinessUser(users, payments[p].user) && payments[p].amount > 0)
    && (forall p, q :: p in payments && q in payments && payments[p].eventId == payments[q].eventId ==> p == q)
    && (forall p, q :: p in payments && q in payments && payments[p].providerId == payments[q].providerId ==> p == q)
  }

  ghost predicate RefundsOk(payments: map<int, Payment>, refunds: map<int, RefundRow>) {
    && (forall r :: r in refunds ==>
          && refunds[r].payment in payments
          && var p := payments[refunds[r].payment];
             p.refunded && p.user == refunds[r].user && p.amount == refunds[r].amount)
    && (forall r, s :: r in refunds && s in refunds && refunds[r].payment == refunds[s].payment ==> r == s)
    && (forall r, s :: r in refunds && s in refunds && refunds[r].requestKey == refunds[s].requestKey ==> r == s)
    && (forall p :: p in payments && payments[p].refunded ==> exists r :: HasPayment(refunds, r, p))
  }

  ghost predicate DisputesOk(users: map<int, Role>, disputes: map<int, Dispute>,
                             compensations: map<string, Compensation>) {
    && (forall d :: d in disputes ==> IsBusinessUser(users, disputes[d].user))
    && (forall d :: d in disputes ==> (disputes[d].resolved <==> PaidBy(compensations, d).Some?))
    && (forall q :: q in compensations ==>
          && compensations[q].dispute in disputes && compensations[q].amount > 0
          && compensations[q].user == disputes[compensations[q].dispute].user)
    && (forall q, t :: q in compensations && t in compensations && compensations[q].dispute == compensations[t].dispute
                       ==> q == t)
  }

  ghost predicate NotesOk(notes: set<NoteKey>, events: set<EventKey>, payments: map<int, Payment>,
                          refunds: map<int, RefundRow>,
                          disputes: map<int, Dispute>) {
    && (forall n :: Notify(n) in events <==> n in notes)
    && (forall p :: PaymentNote(p) in notes <==> p in payments)
    && (forall r :: RefundNote(r) in notes <==> r in refunds)
    && (forall d :: DisputeNote(d) in notes <==> d in disputes && disputes[d].resolved)
  }

  ghost predicate Inv(cfg: Config, db: Db) {
    && UsersOk(db.users, db.accounts) && NoOverdraft(db.accounts)
    && TotalsOk(db.accounts, db.ledger, db.orders) && ClosedForms(cfg, db)
    && OrderRows(cfg, db.ledger, db.orders) && RechargeRows(db.ledger, db.recharges)
    && RefundRows(db.ledger, db.refunds) && CompensationRows(db.ledger, db.compensations)
    && OrdersOk(cfg, db.users, db.orders) && EventsOk(db.events, db.orders) && SettleKeysOk(db.idem, db.orders)
    && RechargesOk(db.users, db.idem, db.recharges) && PaymentsOk(db.users, db.payments)
    && RefundsOk(db.payments, db.refunds) && DisputesOk(db.users, db.disputes, db.compensations)
    && NotesOk(db.notes, db.events, db.payments, db.refunds, db.disputes)
  }
}
