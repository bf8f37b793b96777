/** Double entry: every balance is the sum of its ledger rows, whatever is posted. */
module Books {
  import opened Model
  import opened Sums

  // Closures are named so that each sum is over one and the same function.
  function OnAccount(a: Account): (LedgerKey, int) -> int {
    (k: LedgerKey, amount: int) => if AccountOf(k) == a then amount else 0
  }
  function EveryRow(): (LedgerKey, int) -> int { (k: LedgerKey, amount: int) => amount }
  function FrozenPart(): (Account, int) -> int { (a: Account, balance: int) => if a.kind.Frozen? then balance else 0 }

  function EveryBalance(): (Account, int) -> int { (a: Account, balance: int) => balance }

  ghost function LedgerTotal(ledger: map<LedgerKey, int>): int { SumBy(ledger, EveryRow()) }
  ghost function AccountTotal(accounts: map<Account, int>): int { SumBy(accounts, EveryBalance()) }
  ghost function FrozenTotal(accounts: map<Account, int>): int { SumBy(accounts, FrozenPart()) }

  /** The rows written under one business id. */
  function LedgerRows(ledger: map<LedgerKey, int>, biz: BizType, id: int): set<LedgerKey> {
    set k | k in ledger && k.biz == biz && k.bizId == id
  }

  /** Every balance is the sum of its rows, and every row belongs to an account. */
  ghost predicate BooksAgree(accounts: map<Account, int>, ledger: map<LedgerKey, int>) {
    && (forall a :: a in accounts ==> accounts[a] == SumBy(ledger, OnAccount(a)))
    && (forall k :: k in ledger ==> AccountOf(k) in accounts)
  }

  /** db' has the postings of db and more, with the given effect on the totals. */
  ghost predicate BooksMove(db: Db, db': Db, total: int, frozen: int) {
    && BooksAgree(db'.accounts, db'.ledger)
    && LedgerTotal(db'.ledger) == LedgerTotal(db.ledger) + total
    && AccountTotal(db'.accounts) == AccountTotal(db.accounts) + total
    && FrozenTotal(db'.accounts) == FrozenTotal(db.accounts) + frozen
  }

  lemma PostKeepsBooks(db: Db, k: LedgerKey, amount: int)
    requires BooksAgree(db.accounts, db.ledger) && k !in db.ledger && AccountOf(k) in db.accounts
    ensures BooksMove(db, Post(db, k, amount), amount, if k.kind.Frozen? then amount else 0)
  {
    hide SumBy;
    var db' := Post(db, k, amount);
    forall a | a in db'.accounts ensures db'.accounts[a] == SumBy(db'.ledger, OnAccount(a)) {
      SumByUpdate(db.ledger, k, amount, OnAccount(a));
    }
    SumByUpdate(db.ledger, k, amount, EveryRow());
    SumByUpdate(db.accounts, AccountOf(k), db.accounts[AccountOf(k)] + amount, FrozenPart());
    SumByUpdate(db.accounts, AccountOf(k), db.accounts[AccountOf(k)] + amount, EveryBalance());
  }

  /** Both rows of a transfer together leave the ledger total alone. */
  lemma TransferKeepsBooks(db: Db, biz: BizType, bizId: int, source: Account, target: Account, amount: int)
    requires BooksAgree(db.accounts, db.ledger) && TransferFree(db, biz, bizId, source, target)
    requires source in db.accounts && target in db.accounts
    ensures BooksMove(db, Transfer(db, biz, bizId, source, target, amount), 0,
                      (if target.kind.Frozen? then amount else 0) - if source.kind.Frozen? then amount else 0)
  {
    hide SumBy, BooksAgree;
    var mid := Post(db, LedgerKey(biz, bizId, source.user, source.kind), -amount);
    PostKeepsBooks(db, LedgerKey(biz, bizId, source.user, source.kind), -amount);
    PostKeepsBooks(mid, LedgerKey(biz, bizId, target.user, target.kind), amount);
  }

  lemma EnsureAccountsIsIdle(db: Db, user: int)
    requires user in db.users ==> Account(user, Available) in db.accounts && Account(user, Frozen) in db.accounts
    ensures EnsureAccounts(db, user) == db
  {
    if user in db.users {
      assert map[Account(user, Available) := 0, Account(user, Frozen) := 0] + db.accounts == db.accounts;
    }
  }
}
