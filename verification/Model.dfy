/** The MySQL tables of the marketplace as one immutable value, and the row-level
    operations on them.  Times are milliseconds, amounts are cents. */
module Model {

  datatype Option<+T> = None | Some(value: T)

  /** The treasury's id is written as the literal 1 in every service. */
  const MINT_ID := 1

  datatype Role = UserRole | AdminRole | MintRole | PlatformRole
  datatype AccountType = Available | Frozen
  datatype Account = Account(user: int, kind: AccountType)

  datatype BizType = Recharge | Freeze | Cancel | Settle | Refund | Compensate

  /** A ledger row is identified by the columns of uk_biz_account. */
  datatype LedgerKey = LedgerKey(biz: BizType, bizId: int, user: int, kind: AccountType)

  function AccountOf(k: LedgerKey): Account { Account(k.user, k.kind) }

  datatype Status = Published | Taken | Delivered | Settled | Cancelled

  datatype Order = Order(
    publisher: int, taker: Option<int>, reward: int, commission: int, status: Status,
    claimDeadline: int, deliverDeadline: Option<int>, deliveredAt: Option<int>, version: nat,
    retryCount: nat, nextRetryAt: Option<int>, settlementDead: bool)
  {
    predicate Open() { status.Published? || status.Taken? || status.Delivered? }
    predicate Terminal() { status.Settled? || status.Cancelled? }
  }

  /** Rows of t_outbox_event, identified by uk_outbox_event (type, business id). */
  datatype EventKey = OrderPublished(id: int) | OrderTaken(id: int) | OrderTerminal(id: int) | Notify(note: NoteKey)

  /** Rows of t_notification, identified by uk_notification_event. */
  datatype NoteKey = PaymentNote(id: int) | RefundNote(id: int) | DisputeNote(id: int)

  /** Keys of t_idempotent_op: "SETTLE:ORDER:" + id or "RECHARGE:" + request key. */
  datatype OpKey = SettleOp(order: int) | RechargeOp(key: string)
  /** The request that is hashed into request_hash. */
  datatype Fingerprint = SettleRequest(order: int) | RechargeRequest(user: int, amount: int)

  /** History of committed recharges, one for each pair of RECHARGE ledger rows, under their business id. */
  datatype RechargeRow = RechargeRow(user: int, amount: int, key: string)

  datatype Payment = Payment(providerId: string, eventId: string, user: int, amount: int, refunded: bool)
  datatype RefundRow = RefundRow(payment: int, requestKey: string, user: int, amount: int)
  datatype Dispute = Dispute(payment: int, user: int, resolved: bool, resolvedBy: Option<int>)
  datatype Compensation = Compensation(dispute: int, user: int, amount: int, operator: int)

  datatype Db = Db(
    now: int,
    users: map<int, Role>,
    accounts: map<Account, int>,
    ledger: map<LedgerKey, int>,
    orders: map<int, Order>,
    idem: map<OpKey, Fingerprint>,
    events: set<EventKey>,
    recharges: map<int, RechargeRow>,
    payments: map<int, Payment>,
    refunds: map<int, RefundRow>,
    disputes: map<int, Dispute>,
    compensations: map<string, Compensation>,
    notes: set<NoteKey>)

  datatype Error =
    | NotFound | Forbidden | Unauthorized | ValidationFailed | IllegalTransition | Expired | SelfGrab
    | AlreadyTaken | GrabRejected | RateLimited | InsufficientBalance | SystemAccountForbidden | IdempotencyConflict
    | DuplicateKey | DataTooLong | EscrowLow | RateOutOfRange

  /** A transaction either commits a new database with an answer, or aborts and changes nothing. */
  datatype Outcome<+T> = Commit(db: Db, value: T) | Abort(error: Error)
  {
    function After(before: Db): Db { if Commit? then db else before }
  }

  datatype Config = Config(rate: Rate, platform: int, claimTtlSeconds: int, deliverTtlSeconds: int)

  /** A BigDecimal: unscaled times ten to the power of minus scale. */
  datatype Rate = Rate(unscaled: int, scale: int)

  predicate IsBusinessUser(users: map<int, Role>, user: int) { user in users && users[user].UserRole? }

  /** INSERT IGNORE of both account rows; an unknown user breaks the foreign key and is ignored too. */
  function EnsureAccounts(db: Db, user: int): (r: Db)
    ensures r == db.(accounts := r.accounts)
  {
    if user in db.users then
      db.(accounts := map[Account(user, Available) := 0, Account(user, Frozen) := 0] + db.accounts)
    else db
  }

  /** UPDATE ... SET balance = balance + delta: no row, no change. */
  function Changed(accounts: map<Account, int>, a: Account, delta: int): map<Account, int> {
    if a in accounts then accounts[a := accounts[a] + delta] else accounts
  }

  /** One posting: the balance moves and the ledger row that explains it is written. */
  function Post(db: Db, k: LedgerKey, amount: int): (r: Db)
    ensures r == db.(accounts := r.accounts, ledger := r.ledger)
  {
    db.(accounts := Changed(db.accounts, AccountOf(k), amount), ledger := db.ledger[k := amount])
  }

  /** A ledger INSERT succeeds when the unique key is free and the user exists. */
  predicate Free(db: Db, k: LedgerKey) { k !in db.ledger && k.user in db.users }

  /** Two postings of one business id that move `amount` between two accounts. */
  function Transfer(db: Db, biz: BizType, bizId: int, source: Account, target: Account, amount: int): (r: Db)
    ensures r == db.(accounts := r.accounts, ledger := r.ledger)
  {
    Post(Post(db, LedgerKey(biz, bizId, source.user, source.kind), -amount),
         LedgerKey(biz, bizId, target.user, target.kind), amount)
  }

  predicate TransferFree(db: Db, biz: BizType, bizId: int, source: Account, target: Account) {
    && Free(db, LedgerKey(biz, bizId, source.user, source.kind))
    && Free(db, LedgerKey(biz, bizId, target.user, target.kind))
    && source != target
  }

  /** UPDATE ... WHERE balance >= amount finds its row. */
  predicate CanDebit(db: Db, a: Account, amount: int) { a in db.accounts && db.accounts[a] >= amount }

  /** A notification and its outbox event, or nothing when either unique key is taken. */
  predicate NoteFree(db: Db, n: NoteKey) { n !in db.notes && Notify(n) !in db.events }
  function WithNote(db: Db, n: NoteKey): Db { db.(notes := db.notes + {n}, events := db.events + {Notify(n)}) }
}
