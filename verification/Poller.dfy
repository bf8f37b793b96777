/** The delay queue's two sorted sets and the poller that acts on due members and then removes them. */
module Poller {
  import opened Model
  import opened Invariants
  import opened OrderServices
  import opened Timeouts

  const POLL_LIMIT := 100

  /** Members are order ids; the key of each set fixes their prefix. */
  type Scores = map<int, int>

  function DueMembers(z: Scores, now: int): set<int> { set m | m in z && z[m] <= now }

  /** ZRANGEBYSCORE -inf now LIMIT 0 limit: the due members of lowest score. */
  predicate IsDuePage(page: seq<int>, z: Scores, now: int, limit: nat) {
    && |page| == (if |DueMembers(z, now)| < limit then |DueMembers(z, now)| else limit)
    && (forall i :: 0 <= i < |page| ==> page[i] in DueMembers(z, now))
    && (forall i, j :: 0 <= i < j < |page| ==> page[i] != page[j] && z[page[i]] <= z[page[j]])
    && (forall i, m :: 0 <= i < |page| && m in DueMembers(z, now) && m !in page ==> z[page[i]] <= z[m])
  }

  function ScoreOf(z: Scores, m: int): int { if m in z then z[m] else 0 }

  /** The sorted sets "delay:claim" and "delay:deliver". */
  class DelayQueue {
    var claims: Scores
    var deliveries: Scores

    constructor ()
      ensures claims == map[] && deliveries == map[]
    {
      claims, deliveries := map[], map[];
    }

    function Of(kind: Kind): Scores
      reads this
    { match kind case Claims => claims case Deliveries => deliveries }

    method Put(kind: Kind, z: Scores)
      modifies this
      ensures forall k :: Of(k) == if k == kind then z else old(Of(k))
    {
      match kind
      case Claims => claims := z;
      case Deliveries => deliveries := z;
    }

    method Add(kind: Kind, id: int, deadline: int)
      modifies this
      ensures forall k :: Of(k) == if k == kind then old(Of(k))[id := deadline] else old(Of(k))
    {
      Put(kind, Of(kind)[id := deadline]);
    }

    method Remove(kind: Kind, id: int)
      modifies this
      ensures forall k :: Of(k) == if k == kind then old(Of(k)) - {id} else old(Of(k))
    {
      Put(kind, Of(kind) - {id});
    }
  }

  method SelectDue(z: Scores, now: int, limit: nat) returns (page: seq<int>)
    ensures IsDuePage(page, z, now, limit)
    ensures forall m :: m in page ==> m in z && z[m] <= now
    ensures |page| < limit ==> forall m :: m in z && z[m] <= now ==> m in page
  {
    page := [];
    var due := DueMembers(z, now);
    var rest := due;
    while |page| < limit && rest != {}
      invariant |page| <= limit && |rest| + |page| == |due| && rest <= due
      invariant forall i :: 0 <= i < |page| ==> page[i] in due && page[i] !in rest
      invariant forall i, j :: 0 <= i < j < |page| ==> page[i] != page[j] && z[page[i]] <= z[page[j]]
      invariant forall i, m :: 0 <= i < |page| && m in rest ==> z[page[i]] <= z[m]
      invariant forall m :: m in due && m !in page ==> m in rest
      decreases |rest|
    {
      var byScore := (x: int, y: int) => ScoreOf(z, x) <= ScoreOf(z, y);
      Paging.FirstExists(rest, byScore);
      var m :| m in rest && forall k :: k in rest ==> ScoreOf(z, m) <= ScoreOf(z, k);
      page, rest := page + [m], rest - {m};
    }
  }

  function Lag(score: int, now: int): nat { if now > score then now - score else 0 }

  function LagOf(z: Scores, m: int, now: int): nat { if m in z then Lag(z[m], now) else 0 }

  predicate IsMaxLag(lag: nat, z: Scores, page: seq<int>, now: int) {
    (forall i :: 0 <= i < |page| ==> LagOf(z, page[i], now) <= lag)
        && (lag == 0 || exists i :: 0 <= i < |page| && LagOf(z, page[i], now) == lag)
  }

  // ---- what the entries are for ----

  /** The order still needs its entry. */
  predicate Waits(kind: Kind, o: Order) {
    match kind
    case Claims => o.status.Published?
    case Deliveries => o.status.Taken? && o.deliverDeadline.Some?
  }

  function DeadlineOf(kind: Kind, o: Order): int {
    match kind
    case Claims => o.claimDeadline
    case Deliveries => if o.deliverDeadline.Some? then o.deliverDeadline.value else 0
  }

  /** The scores are the deadlines of the orders: what the delay index guarantees while no grab rolls back. */
  predicate ScoresRight(kind: Kind, z: Scores, db: Db) {
    forall id :: id in z && id in db.orders && Waits(kind, db.orders[id]) ==> z[id] == DeadlineOf(kind, db.orders[id])
  }

  predicate NoneWaits(kind: Kind, db: Db, ids: set<int>) {
    forall id :: id in ids && id in db.orders ==> !Waits(kind, db.orders[id])
  }

  /** One round over a page: act, and remove the member unless the call threw. */
  function Round(kind: Kind, db: Db, z: Scores, page: seq<int>): (Db, Scores)
    decreases |page|
  {
    if page == [] then (db, z)
    else
      var r := Timeout(kind, db, page[0]);
      Round(kind, r.After(db), if r.Commit? then z - {page[0]} else z, page[1..])
  }

  /** The members of the page from i on are still in the set, at their scores. */
  predicate Pending(left: Scores, z: Scores, page: seq<int>, i: nat) {
    i <= |page| && forall j :: i <= j < |page| ==> page[j] in left && page[j] in z && left[page[j]] == z[page[j]]
  }

  class DelayQueuePoller {
    const queue: DelayQueue
    const orders: OrderService

    constructor (queue: DelayQueue, orders: OrderService)
      ensures this.queue == queue && this.orders == orders
    {
      this.queue, this.orders := queue, orders;
    }

    /** Acts on one member, and removes it unless the call threw. */
    method Act(kind: Kind, id: int)
      modifies queue, orders.db
      ensures var r := Timeout(kind, old(orders.db.tables), id);
              && orders.db.tables == r.After(old(orders.db.tables))
              && queue.Of(kind) == if r.Commit? then old(queue.Of(kind)) - {id} else old(queue.Of(kind))
      ensures forall k :: k != kind ==> queue.Of(k) == old(queue.Of(k))
    {
      hide Timeout;
      var done := CallTimeout(orders, kind, id);
      if done.Ok? { queue.Remove(kind, id); }
    }

    method PollKind(kind: Kind, now: int) returns (page: seq<int>, maxLag: nat)
      modifies queue, orders.db
      ensures IsDuePage(page, old(queue.Of(kind)), now, 100) && IsMaxLag(maxLag, old(queue.Of(kind)), page, now)
      ensures (orders.db.tables, queue.Of(kind)) == Round(kind, old(orders.db.tables), old(queue.Of(kind)), page)
      ensures forall k :: k != kind ==> queue.Of(k) == old(queue.Of(k))
    {
      hide Timeout, IsMaxLag, IsDuePage, Pending, Round;
      ghost var before, z := orders.db.tables, queue.Of(kind);
      page := SelectDue(queue.Of(kind), now, POLL_LIMIT);
      maxLag := 0;
      var i := 0;
      NothingYet(kind, z, before, now);
      AllPending(page, z, now);
      assert page[..0] == [] && page[0..] == page;
      while i < |page|
        invariant 0 <= i <= |page| && IsMaxLag(maxLag, z, page[..i], now)
        invariant Pending(queue.Of(kind), z, page, i)
        invariant Round(kind, orders.db.tables, queue.Of(kind), page[i..]) == Round(kind, before, z, page)
        invariant forall k :: k != kind ==> queue.Of(k) == old(queue.Of(k))
      {
        assert page[i..][1..] == page[i + 1..];
        MaxOf(z, page, i, maxLag, now);
        StillPending(queue.Of(kind), z, page, i, now);
        OneOfRound(kind, orders.db.tables, queue.Of(kind), page[i..]);
        var score := queue.Of(kind)[page[i]];
        var lag := if now > score then now - score else 0;
        if lag > maxLag { maxLag := lag; }
        Act(kind, page[i]);
        i := i + 1;
      }
      assert page[..i] == page && page[i..] == [];
      NoRound(kind, orders.db.tables, queue.Of(kind));
    }

    method Poll(now: int) returns (claims: seq<int>, deliveries: seq<int>, maxLag: nat)
      modifies queue, orders.db
      ensures IsDuePage(claims, old(queue.claims), now, POLL_LIMIT)
              && IsDuePage(deliveries, old(queue.deliveries), now, POLL_LIMIT)
      ensures var first := Round(Claims, old(orders.db.tables), old(queue.claims), claims);
              var second := Round(Deliveries, first.0, old(queue.deliveries), deliveries);
              orders.db.tables == second.0 && queue.claims == first.1 && queue.deliveries == second.1
    {
      hide Round, IsDuePage, IsMaxLag;
      var claimLag, deliverLag;
      claims, claimLag := PollKind(Claims, now);
      assert queue.Of(Deliveries) == old(queue.Of(Deliveries));
      deliveries, deliverLag := PollKind(Deliveries, now);
      assert queue.Of(Claims) == queue.claims && queue.Of(Deliveries) == queue.deliveries;
      maxLag := if claimLag > deliverLag then claimLag else deliverLag;
    }
  }

  // ---- a round does what the index is for ----

  lemma AllPending(page: seq<int>, z: Scores, now: int)
    requires IsDuePage(page, z, now, POLL_LIMIT)
    ensures Pending(z, z, page, 0)
  {}

  lemma StillPending(left: Scores, z: Scores, page: seq<int>, i: nat, now: int)
    requires IsDuePage(page, z, now, POLL_LIMIT) && i < |page| && Pending(left, z, page, i)
    ensures page[i] in left && page[i] in z && left[page[i]] == z[page[i]]
    ensures Pending(left, z, page, i + 1) && Pending(left - {page[i]}, z, page, i + 1)
  {}

  lemma NoRound(kind: Kind, db: Db, z: Scores)
    ensures Round(kind, db, z, []) == (db, z)
  {}

  lemma OneOfRound(kind: Kind, db: Db, z: Scores, page: seq<int>)
    requires page != []
    ensures var r := Timeout(kind, db, page[0]);
            Round(kind, db, z, page) == Round(kind, r.After(db), if r.Commit? then z - {page[0]} else z, page[1..])
  {}

  lemma NothingYet(kind: Kind, z: Scores, db: Db, now: int)
    ensures NoneWaits(kind, db, {}) && IsMaxLag(0, z, [], now) && Paging.Elements([]) == {}
  {}

  lemma MaxOf(z: Scores, page: seq<int>, i: nat, lag: nat, now: int)
    requires i < |page| && IsMaxLag(lag, z, page[..i], now)
    ensures IsMaxLag(if LagOf(z, page[i], now) > lag then LagOf(z, page[i], now) else lag, z, page[..i + 1], now)
  {
    var longer := page[..i + 1];
    assert longer[i] == page[i] && forall j :: 0 <= j < i ==> longer[j] == page[..i][j];
  }

  lemma DueAt(page: seq<int>, z: Scores, now: int, limit: nat, i: nat)
    requires IsDuePage(page, z, now, limit) && i < |page|
    ensures page[i] in z && z[page[i]] <= now
    ensures Paging.Elements(page[..i + 1]) == Paging.Elements(page[..i]) + {page[i]}
  {
    assert page[..i + 1] == page[..i] + [page[i]];
    forall x | x in Paging.Elements(page[..i]) + {page[i]} ensures x in Paging.Elements(page[..i + 1]) {
      if x == page[i] {
        assert page[..i + 1][i] == x;
      } else {
        var j :| 0 <= j < i && page[..i][j] == x;
        assert page[..i + 1][j] == x;
      }
    }
  }

  lemma OneCall(cfg: Config, kind: Kind, db: Db, z: Scores, id: int, now: int, gone: set<int>)
    requires Inv(cfg, db) && id in z && z[id] <= now <= db.now && ScoresRight(kind, z, db) && NoneWaits(kind, db, gone)
    ensures var r := Timeout(kind, db, id);
            && r.Commit? && Inv(cfg, r.db) && r.db.now == db.now
            && ScoresRight(kind, z, r.db) && NoneWaits(kind, r.db, gone + {id})
  {
    hide Inv, Timeout;
    TimeoutIsTotal(cfg, kind, db, id);
  }

  /** After the first i members of the page: `left` is what remains of the set `z`. */
  ghost predicate Progress(cfg: Config, kind: Kind, db: Db, z: Scores, left: Scores, page: seq<int>, i: nat, now: int) {
    && i <= |page| && IsDuePage(page, z, now, POLL_LIMIT) && Inv(cfg, db) && now <= db.now
    && left == z - Paging.Elements(page[..i]) && ScoresRight(kind, z, db)
       && NoneWaits(kind, db, Paging.Elements(page[..i]))
  }

  lemma MovesOn(cfg: Config, kind: Kind, db: Db, z: Scores, left: Scores, page: seq<int>, i: nat, now: int)
    requires Progress(cfg, kind, db, z, left, page, i, now) && i < |page|
    ensures Timeout(kind, db, page[i]).Commit?
    ensures Progress(cfg, kind, Timeout(kind, db, page[i]).db, z, left - {page[i]}, page, i + 1, now)
  {
    hide Inv, Timeout, ScoresRight, NoneWaits, IsDuePage, Paging.Elements;
    DueAt(page, z, now, POLL_LIMIT, i);
    OneCall(cfg, kind, db, z, page[i], now, Paging.Elements(page[..i]));
    assert left - {page[i]} == z - (Paging.Elements(page[..i]) + {page[i]});
  }

  lemma {:induction false} RoundFrom(cfg: Config, kind: Kind, db: Db, z: Scores, left: Scores, page: seq<int>, i: nat,
                                     now: int)
    requires Progress(cfg, kind, db, z, left, page, i, now)
    ensures var r := Round(kind, db, left, page[i..]); Progress(cfg, kind, r.0, z, r.1, page, |page|, now)
    decreases |page| - i
  {
    assert i <= |page|;
    hide Progress, Timeout;
    if i < |page| {
      assert page[i..][1..] == page[i + 1..];
      MovesOn(cfg, kind, db, z, left, page, i, now);
      RoundFrom(cfg, kind, Timeout(kind, db, page[i]).db, z, left - {page[i]}, page, i + 1, now);
    }
  }

  /** With scores that are the orders' deadlines and a poller's clock not ahead of the database, no call throws, exactly
      the page is removed, and the poller never drops an entry that its order still needs. */
  lemma RoundDropsOnlyUnneeded(cfg: Config, kind: Kind, db: Db, z: Scores, page: seq<int>, now: int)
    requires Inv(cfg, db) && ScoresRight(kind, z, db) && now <= db.now && IsDuePage(page, z, now, POLL_LIMIT)
    ensures var r := Round(kind, db, z, page);
            Inv(cfg, r.0) && r.1 == z - Paging.Elements(page) && NoneWaits(kind, r.0, Paging.Elements(page))
                && ScoresRight(kind, r.1, r.0)
  {
    hide Inv, IsDuePage;
    assert page[..0] == [] && page[0..] == page && page[..|page|] == page;
    NothingYet(kind, z, db, now);
    RoundFrom(cfg, kind, db, z, z, page, 0, now);
  }
}
