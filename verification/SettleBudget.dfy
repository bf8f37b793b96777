/** The retry columns of one order, apart from the rest of the database. */
module RetryHistory {

  const BUDGET := 12

  datatype Columns = Columns(count: nat, dead: bool)

  /** What a step records: nothing, the delivery's own failed attempt, or a failed attempt of the job, whose page was
      queried in the state before step `query`. */
  datatype Mark = Quiet | ByDelivery | ByJob(query: nat)

  function AfterJob(seen: Columns, before: Columns): Columns {
    if seen.count + 1 >= BUDGET then Columns(before.count, true) else Columns(seen.count + 1, before.dead)
  }

  predicate StepOk(cols: seq<Columns>, marks: seq<Mark>, m: nat)
    requires |cols| == |marks| + 1 && m < |marks|
  {
    match marks[m]
    case Quiet => cols[m + 1] == cols[m]
    case ByDelivery => cols[m + 1] == Columns(1, cols[m].dead)
    case ByJob(query) =>
      query <= m && !cols[query].dead && cols[query].count < BUDGET && cols[m + 1] == AfterJob(cols[query], cols[m])
  }

  ghost predicate History(cols: seq<Columns>, marks: seq<Mark>) {
    && |cols| == |marks| + 1 && cols[0] == Columns(0, false)
    && forall m :: 0 <= m < |marks| ==> StepOk(cols, marks, m)
  }

  /** One retry job: between its query and its failing attempt no other attempt of a job fails. */
  ghost predicate OneReader(marks: seq<Mark>) {
    forall i, j :: 0 <= i < |marks| && marks[i].ByJob? && marks[i].query <= j < i ==> !marks[j].ByJob?
  }

  /** The delivery's own failure is recorded at most once. */
  ghost predicate OneRecord(marks: seq<Mark>) {
    forall i, j :: 0 <= i < |marks| && 0 <= j < |marks| && marks[i].ByDelivery? && marks[j].ByDelivery? ==> i == j
  }

  ghost predicate OneJob(marks: seq<Mark>) { OneReader(marks) && OneRecord(marks) }

  /** The recorded failures in the first n steps. */
  function Failures(marks: seq<Mark>, n: nat): nat
    requires n <= |marks|
  {
    if n == 0 then 0 else Failures(marks, n - 1) + if marks[n - 1].Quiet? then 0 else 1
  }

  /** The part of the budget that the columns show as spent. */
  function SpentBudget(c: Columns): nat { if c.dead then BUDGET else c.count }

  /** The failure recorded at step d came before every query that led to a failed attempt. */
  ghost predicate Prompt(marks: seq<Mark>, d: nat, n: nat)
    requires n <= |marks|
  {
    forall i :: 0 <= i < n && marks[i].ByJob? ==> marks[i].query > d
  }

  ghost predicate Budget(cols: seq<Columns>, marks: seq<Mark>, n: nat)
    requires |cols| == |marks| + 1 && n <= |marks|
  {
    && cols[n].count < BUDGET
    && SpentBudget(cols[n]) <= Failures(marks, n) <= SpentBudget(cols[n]) + 11
    && (Failures(marks, n) == SpentBudget(cols[n])
        <==> forall d :: 0 <= d < n && marks[d].ByDelivery? ==> Prompt(marks, d, n))
  }

  lemma {:induction false} FailuresGrow(marks: seq<Mark>, s: nat, n: nat)
    requires s <= n <= |marks|
    ensures Failures(marks, s) <= Failures(marks, n)
    ensures (forall i :: s <= i < n ==> marks[i].Quiet?) <==> Failures(marks, s) == Failures(marks, n)
    decreases n
  {
    if s < n { FailuresGrow(marks, s, n - 1); }
  }

  lemma {:induction false} QuietStretch(cols: seq<Columns>, marks: seq<Mark>, s: nat, n: nat)
    requires History(cols, marks) && s <= n <= |marks| && forall i :: s <= i < n ==> marks[i].Quiet?
    ensures cols[n] == cols[s] && Failures(marks, n) == Failures(marks, s)
    decreases n
  {
    if s < n {
      QuietStretch(cols, marks, s, n - 1);
      assert StepOk(cols, marks, n - 1);
    }
  }

  /** Columns that show no attempt mean that there was none. */
  lemma {:induction false} UntriedIsQuiet(cols: seq<Columns>, marks: seq<Mark>, n: nat)
    requires History(cols, marks) && n <= |marks| && cols[n] == Columns(0, false)
    ensures forall i :: 0 <= i < n ==> marks[i].Quiet?
    decreases n
  {
    if n > 0 {
      assert StepOk(cols, marks, n - 1);
      UntriedIsQuiet(cols, marks, n - 1);
    }
  }

  /** What the job's query tells about the columns it then overwrites. */
  lemma JobSees(cols: seq<Columns>, marks: seq<Mark>, m: nat)
    requires History(cols, marks) && OneJob(marks) && m < |marks| && marks[m].ByJob? && marks[m].query <= m
    requires Budget(cols, marks, marks[m].query)
    ensures var s := marks[m].query;
            && !cols[m].dead
            && if exists d :: s <= d < m && marks[d].ByDelivery? then Failures(marks, m) == cols[s].count + 1
                              else cols[m].count == cols[s].count
  {
    var s := marks[m].query;
    assert StepOk(cols, marks, m);
    if d :| s <= d < m && marks[d].ByDelivery? {
      QuietStretch(cols, marks, s, d);
      assert StepOk(cols, marks, d);
      QuietStretch(cols, marks, d + 1, m);
    } else {
      QuietStretch(cols, marks, s, m);
    }
  }

  lemma PromptRecord(cols: seq<Columns>, marks: seq<Mark>, m: nat)
    requires History(cols, marks) && OneJob(marks) && m < |marks| && marks[m].ByDelivery?
    ensures Prompt(marks, m, m + 1) <==> Failures(marks, m) == 0
  {
    FailuresGrow(marks, 0, m);
    forall i | 0 <= i < m && marks[i].ByJob? ensures marks[i].query <= m {
      assert StepOk(cols, marks, i);
    }
    forall i | 0 <= i < m && !marks[i].Quiet? ensures marks[i].ByJob? {}
  }

  /** The columns show exactly the failed attempts iff no delivery's failure was recorded late. */
  lemma {:induction false} RetryBudget(cols: seq<Columns>, marks: seq<Mark>, n: nat)
    requires History(cols, marks) && OneJob(marks) && n <= |marks|
    ensures Budget(cols, marks, n)
    decreases n
  {
    if n > 0 {
      var m := n - 1;
      RetryBudget(cols, marks, m);
      assert StepOk(cols, marks, m);
      match marks[m]
      case Quiet =>
        assert forall d :: 0 <= d < m ==> Prompt(marks, d, n) == Prompt(marks, d, m);
      case ByDelivery =>
        PromptRecord(cols, marks, m);
        assert forall d :: 0 <= d < m ==> !marks[d].ByDelivery?;
      case ByJob(query) =>
        RetryBudget(cols, marks, query);
        JobSees(cols, marks, m);
        assert forall d :: 0 <= d < m ==> (Prompt(marks, d, n) <==> Prompt(marks, d, m) && query > d);
    }
  }
}

/** How many settlement attempts of one order can fail before it is marked dead. */
module SettleBudget {
  import opened Model
  import opened OrderSpec
  import opened PaymentSpec
  import opened Invariants
  import opened OrderSteps
  import opened Runs
  import opened Lifecycle
  import opened RetryHistory

  // ---- one step ----

  /** The attempt made by deliver itself fails and is recorded. */
  predicate DeliverRecords(db: Db, l: Label, id: int) {
    l.DeliverFailed? && l.id == id && id in db.orders && db.orders[id].status.Delivered?
  }

  /** An attempt of the retry job fails and is recorded, with the count that `snap` showed. */
  predicate JobRecords(db: Db, snap: Db, l: Label, id: int) {
    && l.JobFailed? && l.id == id && id in db.orders && db.orders[id].status.Delivered?
    && id in snap.orders && DueForRetry(snap.orders[id], snap.now)
  }

  predicate SameRetry(o: Order, p: Order) { p.retryCount == o.retryCount && p.settlementDead == o.settlementDead }

  predicate Untried(o: Order) { o.retryCount == 0 && !o.settlementDead }

  predicate Tried(o: Order, count: nat, dead: bool) {
    o.status.Delivered? && o.retryCount == count && o.settlementDead == dead
  }

  /** What one step does to the retry columns of an order. */
  ghost predicate RetryMoves(db: Db, snap: Db, l: Label, id: int, p: Order) {
    if DeliverRecords(db, l, id) then Tried(p, 1, db.orders[id].settlementDead)
    else if JobRecords(db, snap, l, id) then
      if snap.orders[id].retryCount + 1 >= MAX_SETTLE_RETRIES then Tried(p, db.orders[id].retryCount, true)
      else Tried(p, snap.orders[id].retryCount + 1, db.orders[id].settlementDead)
    else if id in db.orders then SameRetry(db.orders[id], p)
    else Untried(p)
  }

  lemma RecordOrders(db: Db, i: int, count: nat, next: int, id: int)
    requires id in db.orders
    ensures var orders := RecordSettlementFailure(db, i, count, next).orders;
            id in orders && if id == i && db.orders[id].status.Delivered?
                then Tried(orders[id], count, db.orders[id].settlementDead)
                            else orders[id] == db.orders[id]
  {
    var o := db.orders[id];
    if i in db.orders && db.orders[i].status.Delivered? {
      var orders := db.orders[i := db.orders[i].(retryCount := count, nextRetryAt := Some(next))];
      assert RecordSettlementFailure(db, i, count, next).orders == orders;
      hide RecordSettlementFailure;
      assert id == i ==> orders[id] == o.(retryCount := count, nextRetryAt := Some(next));
    }
  }

  lemma DeadOrders(db: Db, i: int, id: int)
    requires id in db.orders
    ensures var orders := MarkSettlementDead(db, i).orders;
            id in orders && if id == i && db.orders[id].status.Delivered?
                then Tried(orders[id], db.orders[id].retryCount, true)
                            else orders[id] == db.orders[id]
  {
    var o := db.orders[id];
    if i in db.orders && db.orders[i].status.Delivered? {
      var orders := db.orders[i := db.orders[i].(settlementDead := true)];
      assert MarkSettlementDead(db, i).orders == orders;
      hide MarkSettlementDead;
      assert id == i ==> orders[id] == o.(settlementDead := true);
    }
  }

  /** One order may change, but not in its retry columns. */
  predicate OneOrderMoves(db: Db, db': Db, id: int) {
    db'.orders == db.orders || (id in db.orders && id in db'.orders && SameRetry(db.orders[id], db'.orders[id])
                                && db'.orders == db.orders[id := db'.orders[id]])
  }

  lemma DeliveryKeepsRetry(db: Db, id: int, taker: int)
    ensures OneOrderMoves(db, MarkDelivered(db, id, taker).After(db), id)
  {
    if Deliverable(db, id, taker) {
      var o := db.orders[id];
      var p := o.(status := Status.Delivered, deliveredAt := Some(db.now), nextRetryAt := Some(db.now),
                  version := o.version + 1);
      var orders := db.orders[id := p];
      assert orders[id] == p;
      assert MarkDelivered(db, id, taker).After(db) == db.(orders := orders);
    }
  }

  lemma ReleaseKeepsRetry(db: Db, id: int)
    requires id in db.orders
    ensures OneOrderMoves(db, Release(db, id).After(db), id)
  {
    hide Release;
    ReleaseOrders(db, id);
  }

  lemma GrabKeepsRetry(cfg: Config, db: Db, id: int, taker: int)
    ensures OneOrderMoves(db, Grab(db, cfg, id, taker).After(db), id)
  {
    hide Grab;
    GrabOrders(cfg, db, id, taker);
  }

  lemma SettlementKeepsRetry(cfg: Config, db: Db, id: int)
    ensures OneOrderMoves(db, Settlement(db, cfg, id).After(db), id)
  {
    hide Settlement;
    SettlementOrders(cfg, db, id);
  }

  lemma MovedOrder(db: Db, db': Db, moved: int, snap: Db, l: Label, id: int)
    requires OneOrderMoves(db, db', moved) && id in db.orders && !l.DeliverFailed? && !l.JobFailed?
    ensures id in db'.orders && RetryMoves(db, snap, l, id, db'.orders[id])
  {}

  lemma RecordMoves(db: Db, snap: Db, l: Label, i: int, count: nat, next: int, id: int)
    requires id in db.orders
    requires l.DeliverFailed? && l.id == i && count == 1
    ensures var db' := RecordSettlementFailure(db, i, count, next);
            id in db'.orders && RetryMoves(db, snap, l, id, db'.orders[id])
  {
    hide RecordSettlementFailure, MarkSettlementDead, Tried, DueForRetry;
    RecordOrders(db, i, count, next, id);
  }

  lemma JobRecordMoves(db: Db, snap: Db, i: int, appNow: int, next: int, id: int)
    requires id in db.orders && i in snap.orders && DueForRetry(snap.orders[i], snap.now)
    requires snap.orders[i].retryCount + 1 < MAX_SETTLE_RETRIES
    ensures var db' := RecordSettlementFailure(db, i, snap.orders[i].retryCount + 1, next);
            id in db'.orders && RetryMoves(db, snap, JobFailed(i, appNow), id, db'.orders[id])
  {
    hide RecordSettlementFailure, MarkSettlementDead, Tried, DueForRetry;
    RecordOrders(db, i, snap.orders[i].retryCount + 1, next, id);
  }

  lemma JobDeadMoves(db: Db, snap: Db, i: int, appNow: int, id: int)
    requires id in db.orders && i in snap.orders && DueForRetry(snap.orders[i], snap.now)
    requires snap.orders[i].retryCount + 1 >= MAX_SETTLE_RETRIES
    ensures var db' := MarkSettlementDead(db, i);
            id in db'.orders && RetryMoves(db, snap, JobFailed(i, appNow), id, db'.orders[id])
  {
    hide RecordSettlementFailure, MarkSettlementDead, Tried, DueForRetry;
    DeadOrders(db, i, id);
  }

  lemma StepRetry(cfg: Config, db: Db, snap: Db, l: Label, id: int)
    requires id in db.orders
    ensures var db' := Exec(cfg, db, snap, l); id in db'.orders && RetryMoves(db, snap, l, id, db'.orders[id])
  {
    hide Create, Grab, MarkDelivered, Settlement, Release, RecordSettlementFailure, MarkSettlementDead, Backoff,
         RetryMoves, OneOrderMoves, RechargeWallet, Callback, RefundPayment, OpenDispute, CompensateDispute, Registered,
         DueForRetry;
    var db' := Exec(cfg, db, snap, l);
    match l
    case DoCreate(i, publisher, reward, ttl) =>
      CreateKeepsRetry(cfg, db, snap, l, id);
    case DoGrab(i, taker) => GrabKeepsRetry(cfg, db, i, taker); MovedOrder(db, db', i, snap, l, id);
    case DoDeliver(i, taker) => DeliveryKeepsRetry(db, i, taker); MovedOrder(db, db', i, snap, l, id);
    case DeliverFailed(i, appNow) => RecordMoves(db, snap, l, i, 1, appNow + 1000, id);
    case DoSettle(i) => SettlementKeepsRetry(cfg, db, i); MovedOrder(db, db', i, snap, l, id);
    case JobFailed(i, appNow) =>
      if i in snap.orders && DueForRetry(snap.orders[i], snap.now) {
        var count := snap.orders[i].retryCount + 1;
        if count >= MAX_SETTLE_RETRIES { JobDeadMoves(db, snap, i, appNow, id); }
        else { JobRecordMoves(db, snap, i, appNow, appNow + 1000 * Backoff(count), id); }
      } else {
        NothingMoves(db, snap, l, id);
      }
    case DoCancel(i, _) =>
      if i in db.orders { ReleaseKeepsRetry(db, i); }
      SameOrders(db, db', i);
      MovedOrder(db, db', i, snap, l, id);
    case ClaimTimeout(i) =>
      if i in db.orders { ReleaseKeepsRetry(db, i); }
      SameOrders(db, db', i);
      MovedOrder(db, db', i, snap, l, id);
    case DeliverTimeout(i) =>
      if i in db.orders { ReleaseKeepsRetry(db, i); }
      SameOrders(db, db', i);
      MovedOrder(db, db', i, snap, l, id);
    case _ =>
      hide Exec;
      PaymentLabelsLeaveOrders(cfg, db, snap, l);
      SameOrders(db, db', id);
      MovedOrder(db, db', id, snap, l, id);
  }

  lemma SameOrders(db: Db, db': Db, i: int)
    ensures db'.orders == db.orders ==> OneOrderMoves(db, db', i)
  {}

  lemma NothingMoves(db: Db, snap: Db, l: Label, id: int)
    requires id in db.orders && !DeliverRecords(db, l, id) && !JobRecords(db, snap, l, id)
    ensures RetryMoves(db, snap, l, id, db.orders[id])
  {}

  lemma CreateKeepsRetry(cfg: Config, db: Db, snap: Db, l: Label, id: int)
    requires l.DoCreate? && id in db.orders
    ensures id in Exec(cfg, db, snap, l).orders && RetryMoves(db, snap, l, id, Exec(cfg, db, snap, l).orders[id])
  {
    hide Create;
    CreateOrders(cfg, db, l.id, l.publisher, l.reward, l.ttl);
  }

  // ---- whole runs ----

  function ColumnsOf(db: Db, id: int): Columns {
    if id in db.orders then Columns(db.orders[id].retryCount, db.orders[id].settlementDead) else Columns(0, false)
  }

  function MarkOf(db: Db, snap: Db, e: Event, id: int): Mark {
    if DeliverRecords(db, e.step, id) then ByDelivery
    else if JobRecords(db, snap, e.step, id) then ByJob(e.snap)
    else Quiet
  }

  ghost function ColumnsIn(tr: seq<Db>, id: int): seq<Columns> {
    seq(|tr|, i requires 0 <= i < |tr| => ColumnsOf(tr[i], id))
  }

  ghost function MarksIn(tr: seq<Db>, evs: seq<Event>, id: int): seq<Mark>
    requires |tr| == |evs| + 1
  {
    seq(|evs|, i requires 0 <= i < |evs| => if evs[i].snap <= i then MarkOf(tr[i], tr[evs[i].snap], evs[i], id)
        else Quiet)
  }

  lemma StepColumns(cfg: Config, db: Db, snap: Db, e: Event, id: int)
    ensures var before, seen, after := ColumnsOf(db, id), ColumnsOf(snap, id),
            ColumnsOf(Exec(cfg, db, snap, e.step), id);
            match MarkOf(db, snap, e, id)
            case Quiet => after == before
            case ByDelivery => after == Columns(1, before.dead)
            case ByJob(_) => !seen.dead && seen.count < MAX_SETTLE_RETRIES && after == AfterJob(seen, before)
  {
    hide Exec;
    if id in db.orders { StepRetry(cfg, db, snap, e.step, id); } else { BornUntried(cfg, db, snap, e.step, id); }
  }

  lemma BornUntried(cfg: Config, db: Db, snap: Db, l: Label, id: int)
    requires id !in db.orders
    ensures id in Exec(cfg, db, snap, l).orders ==> Untried(Exec(cfg, db, snap, l).orders[id])
  {
    if l.DoCreate? {
      hide Create;
      CreateOrders(cfg, db, l.id, l.publisher, l.reward, l.ttl);
    } else if l.DoGrab? || l.DoDeliver? || l.DeliverFailed? || l.DoSettle? || l.JobFailed? || l.DoCancel?
        || l.ClaimTimeout? || l.DeliverTimeout? {
      hide Exec;
      OrderLabelsKeepKeys(cfg, db, snap, l);
      assert id !in Exec(cfg, db, snap, l).orders.Keys;
    } else {
      hide Exec;
      PaymentLabelsLeaveOrders(cfg, db, snap, l);
    }
  }

  /** The retry columns of an order in a run form a retry history. */
  lemma RunIsRetryHistory(cfg: Config, tr: seq<Db>, evs: seq<Event>, id: int)
    requires Run(cfg.platform, tr, evs)
    ensures History(ColumnsIn(tr, id), MarksIn(tr, evs, id))
  {
    hide Exec, ColumnsOf, MarkOf, Initial;
    NoOrdersAtFirst(cfg, tr, evs);
    assert ColumnsOf(tr[0], id) == Columns(0, false) by { NoColumns(tr[0], id); }
    forall m | 0 <= m < |evs| ensures StepOk(ColumnsIn(tr, id), MarksIn(tr, evs, id), m) {
      assert tr[m + 1] == Exec(evs[m].cfg, tr[m], tr[evs[m].snap], evs[m].step);
      StepColumns(evs[m].cfg, tr[m], tr[evs[m].snap], evs[m], id);
      MarkSnap(tr[m], tr[evs[m].snap], evs[m], id);
    }
  }

  lemma NoColumns(db: Db, id: int)
    requires db.orders == map[]
    ensures ColumnsOf(db, id) == Columns(0, false)
  {}

  lemma MarkSnap(db: Db, snap: Db, e: Event, id: int)
    ensures MarkOf(db, snap, e, id).ByJob? ==> MarkOf(db, snap, e, id).query == e.snap
  {}

  // ---- the delivery records once ----

  predicate DeliversAt(tr: seq<Db>, evs: seq<Event>, id: int, j: nat)
    requires |tr| == |evs| + 1 && j < |evs|
  {
    evs[j].step.DoDeliver? && evs[j].step.id == id && MarkDelivered(tr[j], id, evs[j].step.taker).Commit?
  }

  predicate RecordsAt(evs: seq<Event>, id: int, i: nat)
    requires i < |evs|
  {
    evs[i].step.DeliverFailed? && evs[i].step.id == id
  }

  /** The record at step i belongs to the delivery committed at step j. */
  predicate RecordOf(tr: seq<Db>, evs: seq<Event>, id: int, j: nat, i: nat) {
    |tr| == |evs| + 1 && j < i < |evs| && DeliversAt(tr, evs, id, j) && forall k :: j < k < i ==> !RecordsAt(evs, id, k)
  }

  /** deliver records a failure only after its own first transaction committed, and once. */
  ghost predicate RecordsFollowDelivery(tr: seq<Db>, evs: seq<Event>, id: int) {
    forall i :: 0 <= i < |evs| && RecordsAt(evs, id, i) ==> exists j :: RecordOf(tr, evs, id, j, i)
  }

  lemma {:induction false} ChangesGrow(tr: seq<Db>, id: int, j: nat, n: nat)
    requires j <= n < |tr|
    ensures Changes(tr, id, j) <= Changes(tr, id, n)
    decreases n
  {
    if j < n { ChangesGrow(tr, id, j, n - 1); }
  }

  lemma VersionIsOk(cfg: Config, db: Db, id: int)
    requires Inv(cfg, db) && id in db.orders
    ensures db.orders[id].version == VersionOf(db.orders[id])
  {
    hide ClosedForms, OrderRows, RechargeRows, RefundRows, CompensationRows;
    OrderIsOk(cfg, db, id);
  }

  /** The status of an order tells how often it has changed. */
  lemma StatusIsAge(cfg: Config, tr: seq<Db>, evs: seq<Event>, id: int, n: nat)
    requires Run(cfg.platform, tr, evs) && n < |tr| && id in tr[n].orders
    ensures Changes(tr, id, n) == VersionOf(tr[n].orders[id])
  {
    RunKeepsInv(cfg, tr, evs, n);
    hide Run, Inv, OrderOk, Count, Reached, VersionOf;
    VersionIsOk(cfg, tr[n], id);
    LifeOfOrder(cfg, tr, evs, id, n);
  }

  lemma DeliversTaken(tr: seq<Db>, evs: seq<Event>, id: int, j: nat)
    requires |tr| == |evs| + 1 && j < |evs| && DeliversAt(tr, evs, id, j)
    ensures id in tr[j].orders && tr[j].orders[id].status.Taken?
  {}

  /** Once an order is DELIVERED no delivery of it commits any more. */
  lemma NoDeliveryAfterDelivered(cfg: Config, tr: seq<Db>, evs: seq<Event>, id: int, i: nat, j: nat)
    requires Run(cfg.platform, tr, evs) && i <= j < |evs| && id in tr[i].orders && tr[i].orders[id].status.Delivered?
    ensures !DeliversAt(tr, evs, id, j)
  {
    assert |tr| == |evs| + 1;
    hide Run, DeliversAt;
    StatusIsAge(cfg, tr, evs, id, i);
    ChangesGrow(tr, id, i, j);
    if DeliversAt(tr, evs, id, j) {
      DeliversTaken(tr, evs, id, j);
      StatusIsAge(cfg, tr, evs, id, j);
      assert false;
    }
  }

  lemma DeliveryRecordsOnce(cfg: Config, tr: seq<Db>, evs: seq<Event>, id: int)
    requires Run(cfg.platform, tr, evs) && RecordsFollowDelivery(tr, evs, id)
    ensures OneRecord(MarksIn(tr, evs, id))
  {
    var marks := MarksIn(tr, evs, id);
    forall i, j | 0 <= i < j < |marks| && marks[i].ByDelivery? ensures !marks[j].ByDelivery? {
      if RecordsAt(evs, id, j) {
        var d :| RecordOf(tr, evs, id, d, j);
        assert RecordsAt(evs, id, i) && i <= d;
        NoDeliveryAfterDelivered(cfg, tr, evs, id, i, d);
        assert false;
      }
    }
  }

  // ---- the budget ----

  /** In every run with one retry job, the recorded failed attempts of an order are exactly those its columns show (at
      most eleven, or twelve once it is dead) iff the delivery's own failure was recorded before every query of the job
      that led to a failed attempt; otherwise there are at most eleven more. */
  lemma RunRetryBudget(cfg: Config, tr: seq<Db>, evs: seq<Event>, id: int, n: nat)
    requires Run(cfg.platform, tr, evs) && n < |tr| && OneReader(MarksIn(tr, evs, id))
             && RecordsFollowDelivery(tr, evs, id)
    ensures var marks, now := MarksIn(tr, evs, id), ColumnsOf(tr[n], id);
            && now.count < MAX_SETTLE_RETRIES
            && SpentBudget(now) <= Failures(marks, n) <= SpentBudget(now) + 11
            && (Failures(marks, n) == SpentBudget(now)
                <==> forall d :: 0 <= d < n && marks[d].ByDelivery? ==> Prompt(marks, d, n))
  {
    hide ColumnsOf, Failures, Prompt, MarkOf, History, OneReader, OneRecord, RecordsFollowDelivery;
    DeliveryRecordsOnce(cfg, tr, evs, id);
    RunIsRetryHistory(cfg, tr, evs, id);
    RetryBudget(ColumnsIn(tr, id), MarksIn(tr, evs, id), n);
  }

  /** A dead order is never picked up by the retry job again, and its escrow stays in the publisher's frozen account. */
  lemma DeadOrderKeepsEscrow(cfg: Config, db: Db, id: int)
    requires Inv(cfg, db) && id in db.orders && db.orders[id].status.Delivered? && db.orders[id].settlementDead
    ensures !DueForRetry(db.orders[id], db.now)
    ensures CanDebit(db, Account(db.orders[id].publisher, AccountType.Frozen), db.orders[id].reward)
  {
    hide ClosedForms, OrdersOk, OrderRows, RechargeRows, RefundRows, CompensationRows;
    EscrowCoversOpenOrder(cfg, db, id);
  }
}
