/** The transactional outbox: rows that workers claim under a lease, publish, retry and bury. */
module Outbox {
  import opened Paging
  import opened Model
  import opened OrderSpec

  datatype RowStatus = Pending | Retry | Processing | Done | Dead

  /** `Done` is the status PUBLISHED. */
  datatype Row = Row(status: RowStatus, count: nat, nextRetryAt: int, lockedUntil: Option<int>)

  /** What a worker remembers of a row it claimed. */
  datatype Claim = Claim(id: int, lease: int, count: nat)

  type Rows = map<int, Row>

  const BATCH := 50
  const MAX_RETRIES := 12
  const LEASE_NANOS := 30_000_000_000

  /** now.plusSeconds(30), truncated to milliseconds. */
  function Lease(appNanos: nat): int { (appNanos + LEASE_NANOS) / 1_000_000 }

  predicate Due(r: Row, now: int) {
    || ((r.status.Pending? || r.status.Retry?) && r.nextRetryAt <= now)
    || (r.status.Processing? && r.lockedUntil.Some? && r.lockedUntil.value <= now)
  }

  function DueRows(rows: Rows, now: int, locked: set<int>): set<int> {
    set id | id in rows && id !in locked && Due(rows[id], now)
  }

  function Locked(r: Row, lease: int): Row { r.(status := Processing, lockedUntil := Some(lease)) }

  predicate ClaimedFrom(rows: Rows, c: Claim, lease: int) { c.id in rows && c == Claim(c.id, lease, rows[c.id].count) }

  function ClaimRows(rows: Rows, page: seq<int>, lease: int): Rows {
    map id | id in rows :: if id in page then Locked(rows[id], lease) else rows[id]
  }

  /** The WHERE clause of every completion: the row is still under this worker's lease. */
  predicate Holds(rows: Rows, c: Claim) {
    c.id in rows && rows[c.id].status.Processing? && rows[c.id].lockedUntil == Some(c.lease)
  }

  function AfterPublish(rows: Rows, c: Claim): Rows {
    if Holds(rows, c) then rows[c.id := rows[c.id].(status := Done, lockedUntil := None)] else rows
  }

  function FailedRow(r: Row, count: nat, appNow: int): Row
    requires count >= 1
  {
    if count >= MAX_RETRIES then r.(status := Dead, count := count, lockedUntil := None)
    else r.(status := Retry, count := count, nextRetryAt := appNow + 1000 * Backoff(count), lockedUntil := None)
  }

  function AfterFailure(rows: Rows, c: Claim, appNow: int): Rows {
    if Holds(rows, c) then rows[c.id := FailedRow(rows[c.id], c.count + 1, appNow)] else rows
  }

  function Replayed(rows: Rows, id: int, now: int): Rows {
    if id in rows && rows[id].status.Dead? then rows[id := Row(Pending, 0, now, None)] else rows
  }

  class OutboxRepository {
    var now: int
    var rows: Rows

    constructor (now: int)
      ensures this.now == now && rows == map[]
    {
      this.now, rows := now, map[];
    }

    /** uk_outbox_event makes the id of an event unique. */
    method Insert(id: int) returns (inserted: bool)
      modifies this`rows
      ensures inserted == (id !in old(rows))
      ensures rows == if inserted then old(rows)[id := Row(Pending, 0, now, None)] else old(rows)
    {
      inserted := id !in rows;
      if inserted { rows := rows[id := Row(Pending, 0, now, None)]; }
    }

    /** `locked` are the rows that other transactions hold: FOR UPDATE SKIP LOCKED. */
    method ClaimBatch(limit: nat, lockUntil: int, locked: set<int>) returns (batch: seq<Claim>)
      modifies this`rows
      ensures IsPage(Ids(batch), DueRows(old(rows), now, locked), limit)
      ensures forall id :: id in DueRows(old(rows), now, locked) <==>
                && id in old(rows) && id !in locked
                && var r := old(rows)[id];
                   || ((r.status == Pending || r.status == Retry) && r.nextRetryAt <= now)
                   || (r.status == Processing && r.lockedUntil.Some? && r.lockedUntil.value <= now)
      ensures forall i :: 0 <= i < |batch| ==> ClaimedFrom(old(rows), batch[i], lockUntil)
      ensures rows == ClaimRows(old(rows), Ids(batch), lockUntil)
    {
      var page := SelectPage(DueRows(rows, now, locked), limit);
      batch := [];
      var i := 0;
      while i < |page|
        invariant 0 <= i <= |page| && Ids(batch) == page[..i]
        invariant forall j :: 0 <= j < i ==> ClaimedFrom(old(rows), batch[j], lockUntil)
        invariant rows == ClaimRows(old(rows), page[..i], lockUntil)
      {
        var id := page[i];
        assert id in old(rows) && id !in page[..i];
        batch := batch + [Claim(id, lockUntil, rows[id].count)];
        rows := rows[id := rows[id].(status := Processing, lockedUntil := Some(lockUntil))];
        i := i + 1;
      }
      assert page[..i] == page;
    }

    method MarkPublished(c: Claim) returns (changed: nat)
      modifies this`rows
      ensures changed == (if Holds(old(rows), c) then 1 else 0) && rows == AfterPublish(old(rows), c)
    {
      if c.id !in rows || !rows[c.id].status.Processing? || rows[c.id].lockedUntil != Some(c.lease) { return 0; }
      rows := rows[c.id := rows[c.id].(status := Done, lockedUntil := None)];
      changed := 1;
    }

    method MarkRetry(c: Claim, count: nat, nextRetryAt: int)
      modifies this`rows
      ensures rows == if Holds(old(rows), c)
                      then old(rows)[c.id := Row(Retry, count, nextRetryAt, None)] else old(rows)
    {
      if c.id !in rows || !rows[c.id].status.Processing? || rows[c.id].lockedUntil != Some(c.lease) { return; }
      rows := rows[c.id := rows[c.id].(status := Retry, count := count, nextRetryAt := nextRetryAt,
                                       lockedUntil := None)];
    }

    method MarkDead(c: Claim, count: nat)
      modifies this`rows
      ensures rows == if Holds(old(rows), c)
                      then old(rows)[c.id := old(rows)[c.id].(status := Dead, count := count, lockedUntil := None)]
                          else old(rows)
    {
      if c.id !in rows || !rows[c.id].status.Processing? || rows[c.id].lockedUntil != Some(c.lease) { return; }
      rows := rows[c.id := rows[c.id].(status := Dead, count := count, lockedUntil := None)];
    }

    method Replay(id: int) returns (changed: nat)
      modifies this`rows
      ensures changed == (if id in old(rows) && old(rows)[id].status.Dead? then 1 else 0)
              && rows == Replayed(old(rows), id, now)
    {
      if id !in rows || !rows[id].status.Dead? { return 0; }
      rows := rows[id := rows[id].(status := Pending, count := 0, nextRetryAt := now, lockedUntil := None)];
      changed := 1;
    }
  }

  function Ids(batch: seq<Claim>): seq<int> { seq(|batch|, i requires 0 <= i < |batch| => batch[i].id) }

  // ---- the worker ----

  /** How publishing one event goes: it is sent and marked; the sending, or the marking without effect, throws; the
      marking takes effect and throws all the same; or recording the failure throws too, without effect, which ends the
      batch. */
  datatype Fate = Sent | Throws(appNow: int) | AckLost(appNow: int) | EndsBatch

  /** What the worker does with one event of its batch. */
  function CompleteOne(rows: Rows, c: Claim, fate: Fate): Rows {
    match fate
    case Sent => AfterPublish(rows, c)
    case Throws(appNow) => AfterFailure(rows, c, appNow)
    case AckLost(appNow) => AfterFailure(AfterPublish(rows, c), c, appNow)
    case EndsBatch => rows
  }

  function CompleteAll(rows: Rows, batch: seq<Claim>, fates: int -> Fate): Rows
    decreases |batch|
  {
    if batch == [] || fates(batch[0].id).EndsBatch? then rows
    else CompleteAll(CompleteOne(rows, batch[0], fates(batch[0].id)), batch[1..], fates)
  }

  class OutboxWorker {
    const outbox: OutboxRepository

    constructor (outbox: OutboxRepository)
      ensures this.outbox == outbox
    {
      this.outbox := outbox;
    }

    /** The clock is read once for the lease, and again for each failure. */
    method Publish(appNanos: nat, locked: set<int>, fates: int -> Fate) returns (batch: seq<Claim>)
      modifies outbox`rows
      ensures IsPage(Ids(batch), DueRows(old(outbox.rows), outbox.now, locked), 50)
      ensures forall i :: 0 <= i < |batch| ==>
                && ClaimedFrom(old(outbox.rows), batch[i], Lease(appNanos))
                && batch[i].lease == appNanos / 1_000_000 + 30_000
      ensures outbox.rows == CompleteAll(ClaimRows(old(outbox.rows), Ids(batch), Lease(appNanos)), batch, fates)
    {
      batch := outbox.ClaimBatch(BATCH, Lease(appNanos), locked);
      ghost var claimed := outbox.rows;
      var i := 0;
      while i < |batch|
        invariant 0 <= i <= |batch|
        invariant CompleteAll(outbox.rows, batch[i..], fates) == CompleteAll(claimed, batch, fates)
      {
        assert batch[i..][1..] == batch[i + 1..];
        if fates(batch[i].id).EndsBatch? { return; }
        Complete(batch[i], fates(batch[i].id));
        i := i + 1;
      }
    }

    method Complete(c: Claim, fate: Fate)
      requires !fate.EndsBatch?
      modifies outbox`rows
      ensures outbox.rows == CompleteOne(old(outbox.rows), c, fate)
    {
      if !fate.Throws? {
        var changed := outbox.MarkPublished(c);
      }
      if !fate.Sent? {
        var retry := c.count + 1;
        if retry >= MAX_RETRIES { outbox.MarkDead(c, retry); } else {
          outbox.MarkRetry(c, retry, fate.appNow + 1000 * Backoff(retry));
        }
      }
    }
  }

  function OwnOutcome(r: Row, c: Claim, fate: Fate): Row {
    if fate.Throws? then FailedRow(r, c.count + 1, fate.appNow) else r.(status := Done, lockedUntil := None)
  }

  /** An event that fails never holds up the rest of its batch: undisturbed, and unless recording a failure throws, each
      claimed event ends by its own outcome, and every other row is left as it was. */
  lemma {:induction false} EachByItsOwnOutcome(rows: Rows, batch: seq<Claim>, fates: int -> Fate)
    requires forall i :: 0 <= i < |batch| ==> Holds(rows, batch[i]) && !fates(batch[i].id).EndsBatch?
    requires forall i, j :: 0 <= i < j < |batch| ==> batch[i].id != batch[j].id
    ensures var after := CompleteAll(rows, batch, fates);
            && (forall i :: 0 <= i < |batch|
                            ==> batch[i].id in rows && batch[i].id in after
                                && after[batch[i].id] == OwnOutcome(rows[batch[i].id], batch[i], fates(batch[i].id)))
            && (forall id :: id in rows && (forall i :: 0 <= i < |batch| ==> batch[i].id != id)
                             ==> id in after && after[id] == rows[id])
    decreases |batch|
  {
    if batch != [] {
      hide FailedRow;
      var next, rest := CompleteOne(rows, batch[0], fates(batch[0].id)), batch[1..];
      EachByItsOwnOutcome(next, rest, fates);
      forall i | 0 <= i < |batch| ensures batch[i].id in CompleteAll(next, rest, fates) {
        if i > 0 { assert batch[i] == rest[i - 1]; }
      }
      forall i | 0 < i < |batch| ensures batch[i] == rest[i - 1] {}
    }
  }
}
