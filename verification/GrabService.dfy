/** The grab request and the job that puts lost markers back. */
module GrabService {
  import opened Model
  import opened OrderSpec
  import opened Invariants
  import opened Paging
  import opened Marker
  import opened Store
  import opened OrderServices
  import opened OrderTheorems
  import GrabProtocol
  import OrderAnswers

  /** Decisions that let the request reach the database. */
  predicate LetsThrough(d: Decision) { d.Pass? || d.Missing? || d.Unavailable? }

  function FilterError(d: Decision): Error {
    if d == Decision.SelfGrab then Error.SelfGrab else if d == Decision.Expired then Error.Expired else GrabRejected
  }

  /** What the losing grab tells its caller, from the row its snapshot shows. */
  function Rejection(snap: Db, id: int, taker: int, now: int): Error {
    if id !in snap.orders then NotFound
    else
      var o := snap.orders[id];
      if o.status.Published? && o.publisher == taker then Error.SelfGrab
      else if o.status.Published? && o.claimDeadline <= now then Error.Expired
      else if o.status.Taken? then AlreadyTaken
      else if o.status.Published? then GrabRejected
      else IllegalTransition
  }

  /** The losing grab writes the marker back when its snapshot shows a PUBLISHED order that is its own or not
      overdue. */
  predicate WritesBack(snap: Db, id: int, taker: int, now: int) {
    && id in snap.orders && snap.orders[id].status.Published?
    && (snap.orders[id].publisher == taker || snap.orders[id].claimDeadline > now)
  }

  class GrabService {
    const db: Database
    const cfg: Config
    const marker: GrabMarker
    const prefilter: bool

    constructor (db: Database, cfg: Config, marker: GrabMarker, prefilter: bool)
      ensures this.db == db && this.cfg == cfg && this.marker == marker && this.prefilter == prefilter
    {
      this.db, this.cfg, this.marker, this.prefilter := db, cfg, marker, prefilter;
    }

    /** `allowed` is any answer of the rate limiter, `snap` the snapshot that unlocked reads of the transaction see. */
    method Grab(id: int, taker: int, allowed: bool, redisUp: bool, appNow: int, snap: Db)
        returns (r: Result<int>, d: Decision)
      modifies db, marker.redis`entries
      ensures var before := old(db.tables);
              var g := OrderSpec.Grab(before, cfg, id, taker);
              var through := d in {Pass, Missing, Unavailable};
              && db.tables == (if allowed && through then g.After(before) else before)
              && r == if taker !in before.users || before.users[taker] != UserRole then Answer(g)
                      else if !allowed then Failed(RateLimited)
                      else if !through then Failed(if d == Decision.SelfGrab then Error.SelfGrab
                                                   else if d == Decision.Expired then Error.Expired else GrabRejected)
                      else if g.Commit? then Ok(g.value)
                      else Failed(if Claimable(before, id, taker) then DuplicateKey
                                  else Rejection(snap, id, taker, before.now))
      ensures var before, after, now := old(marker.redis.KeysOf(id)), marker.redis.KeysOf(id), old(db.tables).now;
              var asked := allowed && IsBusinessUser(old(db.tables).users, taker);
              var filtered := if prefilter && redisUp then Filter(before, marker.redis.now, taker, appNow)
                              else (if prefilter then Unavailable else Pass, before);
              && (asked ==> d == filtered.0)
              && (asked && redisUp && d in {Pass, Missing, Unavailable} && !Claimable(old(db.tables), id, taker)
                  && id in snap.orders && snap.orders[id].status == Published
                  && (snap.orders[id].publisher == taker || snap.orders[id].claimDeadline > now)
                  ==> after == WrittenBack(filtered.1, snap, id, appNow))
              && (!(asked && redisUp && d in {Pass, Missing, Unavailable} && !Claimable(old(db.tables), id, taker)
                    && id in snap.orders && snap.orders[id].status == Published
                    && (snap.orders[id].publisher == taker || snap.orders[id].claimDeadline > now))
                  ==> after == if asked then filtered.1 else before)
      ensures forall j :: j != id ==> marker.redis.KeysOf(j) == old(marker.redis.KeysOf(j))
    {
      hide Claimable, Rejection, Rearmed, Filter, OrderSpec.Grab;
      GrabOfStranger(db.tables, cfg, id, taker);
      d := Filtered;
      var user := RequireBusinessUser(db.tables.users, taker);
      if user.Failed? { return Failed(user.error), d; }
      if !allowed { return Failed(RateLimited), d; }
      d := Pass;
      if prefilter {
        if redisUp { d := marker.TryPass(id, taker, appNow); } else { d := Unavailable; }
      }
      if !LetsThrough(d) { return Failed(FilterError(d)), d; }
      var won := AtDatabase(id, taker);
      if won.Some? { return won.value, d; }
      if redisUp && WritesBack(snap, id, taker, db.tables.now) {
        marker.Rearm(id, snap.orders[id].claimDeadline, snap.orders[id].publisher, appNow);
      }
      r := Failed(Rejection(snap, id, taker, db.tables.now));
    }

    /** The conditional update and its outbox event; None when the update changed no row. */
    method AtDatabase(id: int, taker: int) returns (won: Option<Result<int>>)
      requires IsBusinessUser(db.tables.users, taker)
      modifies db
      ensures var g := OrderSpec.Grab(old(db.tables), cfg, id, taker);
              && db.tables == g.After(old(db.tables))
              && won == (if !Claimable(old(db.tables), id, taker) then None
                         else Some(if g.Commit? then Ok(g.value) else Failed(DuplicateKey)))
              && (won.None? ==> db.tables == old(db.tables) && g.Abort?)
    {
      var saved := db.tables;
      var changed := db.Claim(id, taker, cfg.deliverTtlSeconds);
      if changed != 1 { return None; }
      var queued := db.Enqueue(OrderTaken(id));
      if queued.Failed? {
        db.Rollback(saved);
        return Some(Failed(queued.error));
      }
      won := Some(Ok(saved.now + 1000 * cfg.deliverTtlSeconds));
    }

    function WrittenBack(k: Keys, snap: Db, id: int, appNow: int): Keys
      requires id in snap.orders
      reads marker.redis
    {
      var o := snap.orders[id];
      Rearmed(k, marker.redis.now, o.claimDeadline, o.publisher,
              TtlSeconds(appNow, o.claimDeadline, marker.slackSeconds))
    }
  }

  lemma GrabOfStranger(db: Db, cfg: Config, id: int, taker: int)
    ensures taker !in db.users ==> OrderSpec.Grab(db, cfg, id, taker) == Abort(NotFound)
    ensures taker in db.users ==>
              (OrderSpec.Grab(db, cfg, id, taker) == Abort(SystemAccountForbidden)
               <==> !IsBusinessUser(db.users, taker))
  {}

  /** Whatever the limiter and Redis answer, a grab wins exactly when the filter lets it through and the conditional
      update of the database, made without any filter, would have won as well. */
  lemma FilteredWinIsAPlainWin(cfg: Config, db: Db, id: int, taker: int, d: Decision)
    requires Inv(cfg, db)
    ensures var after := if LetsThrough(d) then Grab(db, cfg, id, taker).After(db) else db;
            (after != db <==> LetsThrough(d) && IsBusinessUser(db.users, taker) && Claimable(db, id, taker))
            && (after != db ==> after == Grab(db, cfg, id, taker).db && id in after.orders
                                && after.orders[id].taker == Some(taker))
  {
    hide Inv;
    GrabOutcome(cfg, db, id, taker);
    if Grab(db, cfg, id, taker).Commit? { GrabChanges(cfg, db, id, taker); }
  }

  lemma GrabChanges(cfg: Config, db: Db, id: int, taker: int)
    requires Grab(db, cfg, id, taker).Commit?
    ensures var after := Grab(db, cfg, id, taker).db;
            id in after.orders && after.orders[id].taker == Some(taker) && after != db
  {
    assert db.orders[id].taker.None?;
  }

  /** A losing grab is told what a grab on the snapshot's row would be told; if that one would win, it lost a race. */
  lemma RejectionIsTheSnapshotsAnswer(cfg: Config, snap: Db, id: int, taker: int, now: int)
    requires Inv(cfg, snap) && IsBusinessUser(snap.users, taker)
    ensures var g := Grab(snap.(now := now), cfg, id, taker);
            Rejection(snap, id, taker, now) == if g.Abort? then g.error else GrabRejected
  {
    hide Inv, Grab;
    Runs.ClockKeeps(cfg, snap, now);
    OrderAnswers.GrabAnswer(cfg, snap.(now := now), id, taker);
  }

  /** The protocol around one order accepts a grab exactly where the database does. */
  lemma ProtocolAcceptsAsTheDatabase(cfg: Config, db: Db, id: int, taker: int, o: GrabProtocol.Info,
                                     s: GrabProtocol.State)
    requires Inv(cfg, db) && id in db.orders && IsBusinessUser(db.users, taker)
    requires o.deadline == db.orders[id].claimDeadline && o.publisher == db.orders[id].publisher && s.now == db.now
    requires s.phase.Open? <==> db.orders[id].status == Published
    ensures GrabProtocol.CasAccepts(o, s, taker) <==> Grab(db, cfg, id, taker).Commit?
  {
    hide Inv, Grab;
    OrderAnswers.GrabAnswer(cfg, db, id, taker);
  }

  // ---- resync ----

  const RESYNC_LIMIT := 500

  function ActiveAfter(db: Db, cursor: int): set<int> {
    set id | id in db.orders && id > cursor && db.orders[id].status.Published? && db.orders[id].claimDeadline > db.now
  }

  /** The tables as the queries of one pass find them one after the other: other transactions run in between, but an
      order keeps its publisher and deadline, and the ids are positive and bounded while the pass lasts. */
  ghost predicate Unfolds(world: nat -> Db, last: int) {
    && (forall p: nat, id :: id in world(p).orders ==> 0 < id <= last)
    && forall p: nat, id :: id in world(p).orders ==>
         id in world(p + 1).orders && SameOffer(world(p).orders[id], world(p + 1).orders[id])
  }

  predicate SameOffer(o: Order, p: Order) { p.publisher == o.publisher && p.claimDeadline == o.claimDeadline }

  ghost predicate ActiveUntil(world: nat -> Db, id: int, p: nat) {
    forall q: nat :: q <= p ==>
      id in world(q).orders && world(q).orders[id].status == Published
          && world(q).orders[id].claimDeadline > world(q).now
  }

  lemma ActiveAt(world: nat -> Db, last: int, id: int, p: nat, q: nat)
    requires Unfolds(world, last) && ActiveUntil(world, id, p) && q <= p
    ensures id in ActiveAfter(world(q), 0) && ActiveUntil(world, id, q)
  {}

  /** The marker of an order that was active in db, written back unless it was there. */
  predicate IsRearmed(k: Keys, before: Keys, db: Db, id: int, now: int, appNow: int, slack: int) {
    && id in db.orders && db.orders[id].status == Published && db.orders[id].claimDeadline > db.now
       && Alive(k.stock, now)
    && k == Rearmed(before, now, db.orders[id].claimDeadline, db.orders[id].publisher,
                    TtlSeconds(appNow, db.orders[id].claimDeadline, slack))
  }

  /** What a pass has done to Redis so far; `appNow` is the application's clock at the turn of each order. */
  datatype Resyncing = Resyncing(before: map<RedisKey, Entry>, now: int, slack: int, appNow: int -> int)
  {
    predicate Reaches(entries: map<RedisKey, Entry>, db: Db, id: int) {
      IsRearmed(KeysIn(entries, id), KeysIn(before, id), db, id, now, appNow(id), slack)
    }

    predicate Spares(entries: map<RedisKey, Entry>, id: int) { KeysIn(entries, id) == KeysIn(before, id) }

    ghost predicate Done(entries: map<RedisKey, Entry>, world: nat -> Db, reached: set<int>, pages: nat) {
      && (forall id :: id in reached ==> exists p: nat :: p < pages && Reaches(entries, world(p), id))
      && (forall id :: id !in reached ==> Spares(entries, id))
    }

    ghost predicate HasDone(entries: map<RedisKey, Entry>, db: Db, done: set<int>) {
      (forall id :: id in done ==> Reaches(entries, db, id)) && forall id :: id !in done ==> Spares(entries, id)
    }

    /** `middle` is Redis before the marker of order id was written. */
    lemma OneMoreDone(middle: map<RedisKey, Entry>, entries: map<RedisKey, Entry>, db: Db, done: set<int>, id: int)
      requires HasDone(middle, db, done) && Reaches(entries, db, id)
      requires forall j :: j != id ==> KeysIn(entries, j) == KeysIn(middle, j)
      ensures HasDone(entries, db, done + {id})
    {
      hide KeysIn, IsRearmed;
      forall j | j in done + {id} ensures Reaches(entries, db, j) {
        if j != id { assert Reaches(middle, db, j); }
      }
      forall j | j !in done + {id} ensures Spares(entries, j) {
        assert Spares(middle, j);
      }
    }

    /** `middle` is Redis before the page. */
    lemma PageDone(middle: map<RedisKey, Entry>, entries: map<RedisKey, Entry>, world: nat -> Db, reached: set<int>,
                   done: set<int>, pages: nat)
      requires Done(middle, world, reached, pages) && reached !! done
      requires this.(before := middle).HasDone(entries, world(pages), done)
      ensures Done(entries, world, reached + done, pages + 1)
    {
      hide IsRearmed;
      forall id | id in reached + done ensures exists p: nat :: p < pages + 1 && Reaches(entries, world(p), id) {
        if id in done {
          assert Spares(middle, id);
          assert Reaches(entries, world(pages), id);
        } else {
          var p: nat :| p < pages && Reaches(middle, world(p), id);
          assert this.(before := middle).Spares(entries, id);
          assert Reaches(entries, world(p), id);
        }
      }
    }
  }

  /** What was active throughout, up to the cursor, has been reached. */
  ghost predicate ReachedUpTo(world: nat -> Db, reached: set<int>, fails: set<int>, cursor: int, pages: nat) {
    forall id :: ActiveUntil(world, id, pages) && id <= cursor && id !in fails ==> id in reached
  }

  lemma NothingReached(world: nat -> Db, last: int, fails: set<int>)
    requires Unfolds(world, last)
    ensures ReachedUpTo(world, {}, fails, 0, 0)
  {
    forall id | ActiveUntil(world, id, 0) ensures id > 0 { ActiveAt(world, last, id, 0, 0); }
  }

  lemma AllReached(world: nat -> Db, last: int, reached: set<int>, fails: set<int>, cursor: int, pages: nat)
    requires Unfolds(world, last)
    requires ReachedUpTo(world, reached, fails, cursor, pages)
             && IsPage([], ActiveAfter(world(pages), cursor), RESYNC_LIMIT)
    ensures forall id :: ActiveUntil(world, id, pages) && id !in fails ==> id in reached
  {
    assert ActiveAfter(world(pages), cursor) == {};
    forall id | ActiveUntil(world, id, pages) ensures id <= cursor {
      ActiveAt(world, last, id, pages, pages);
      assert id <= cursor || id in ActiveAfter(world(pages), cursor);
    }
  }

  lemma PageReaches(world: nat -> Db, last: int, reached: set<int>, fails: set<int>, ids: seq<int>, cursor: nat,
                    pages: nat)
    requires Unfolds(world, last)
    requires ReachedUpTo(world, reached, fails, cursor, pages)
             && IsPage(ids, ActiveAfter(world(pages), cursor), RESYNC_LIMIT) && ids != []
    ensures ReachedUpTo(world, reached + (Elements(ids) - fails), fails, ids[|ids| - 1], pages + 1)
  {
    hide ActiveUntil;
    PageIsNext(world(pages), ids, cursor);
    forall id | ActiveUntil(world, id, pages + 1) && id <= ids[|ids| - 1] && id !in fails
        ensures id in reached + (Elements(ids) - fails) {
      ActiveAt(world, last, id, pages + 1, pages);
      if id > cursor { assert id in ActiveAfter(world(pages), cursor) && id in ids; }
    }
  }

  /** The ids of the page are new, and none of them is beyond the last id. */
  lemma PageIsPart(world: nat -> Db, last: int, ids: seq<int>, cursor: nat, pages: nat)
    requires Unfolds(world, last) && IsPage(ids, ActiveAfter(world(pages), cursor), RESYNC_LIMIT) && ids != []
    ensures cursor < ids[|ids| - 1] <= last && forall id :: id in Elements(ids) ==> cursor < id <= ids[|ids| - 1]
  {
    PageIsNext(world(pages), ids, cursor);
    assert ids[|ids| - 1] in ActiveAfter(world(pages), cursor);
  }

  lemma OneMore(ids: seq<int>, i: nat)
    requires i < |ids| && forall j, k :: 0 <= j < k < |ids| ==> ids[j] < ids[k]
    ensures Elements(ids[..i + 1]) == Elements(ids[..i]) + {ids[i]} && ids[i] !in Elements(ids[..i])
  {
    assert ids[..i + 1] == ids[..i] + [ids[i]];
    forall x | x in Elements(ids[..i]) + {ids[i]} ensures x in Elements(ids[..i + 1]) {
      if x == ids[i] { assert ids[..i + 1][i] == x; } else {
        var j :| 0 <= j < i && ids[..i][j] == x;
        assert ids[..i + 1][j] == x;
      }
    }
  }

  lemma OfferIsThere(world: nat -> Db, last: int, ids: seq<int>, p: nat, cursor: nat, i: nat)
    requires Unfolds(world, last) && IsPage(ids, ActiveAfter(world(p), cursor), RESYNC_LIMIT) && i < |ids|
    ensures ids[i] in ActiveAfter(world(p), 0) && ids[i] in world(p + 1).orders
    ensures SameOffer(world(p).orders[ids[i]], world(p + 1).orders[ids[i]])
  {
    assert ids[i] in ActiveAfter(world(p), cursor);
  }

  class MarkerResyncJob {
    const marker: GrabMarker

    constructor (marker: GrabMarker)
      ensures this.marker == marker
    {
      this.marker := marker;
    }

    /** Page after page, while orders are created, taken and closed between the pages.  Every order that is active
        throughout is reached, unless Redis fails at its turn; what is reached was active and has its marker; no other
        key changes. */
    method Resync(world: nat -> Db, last: int, fails: set<int>, appNow: int -> int)
        returns (reached: set<int>, pages: nat)
      requires Unfolds(world, last)
      modifies marker.redis`entries
      ensures forall id :: ActiveUntil(world, id, pages) && id !in fails ==> id in reached
      ensures Resyncing(old(marker.redis.entries), marker.redis.now, marker.slackSeconds,
                        appNow).Done(marker.redis.entries, world, reached, pages)
    {
      ghost var pass := Resyncing(marker.redis.entries, marker.redis.now, marker.slackSeconds, appNow);
      var cursor := 0;
      reached, pages := {}, 0;
      NothingReached(world, last, fails);
      while true
        invariant cursor >= 0 && forall id :: id in reached ==> id <= cursor
        invariant ReachedUpTo(world, reached, fails, cursor, pages)
        invariant pass.Done(marker.redis.entries, world, reached, pages)
        decreases last - cursor
      {
        hide Unfolds, ActiveUntil, ActiveAfter, IsPage;
        var ids := SelectPage(ActiveAfter(world(pages), cursor), RESYNC_LIMIT);
        if ids == [] {
          AllReached(world, last, reached, fails, cursor, pages);
          break;
        }
        PageIsNext(world(pages), ids, cursor);
        ghost var earlier := marker.redis.entries;
        var done := ResyncPage(world, pages, ids, cursor, last, fails, appNow);
        PageIsPart(world, last, ids, cursor, pages);
        PageReaches(world, last, reached, fails, ids, cursor, pages);
        pass.PageDone(earlier, marker.redis.entries, world, reached, done, pages);
        reached, cursor, pages := reached + done, ids[|ids| - 1], pages + 1;
      }
    }

    method ResyncPage(world: nat -> Db, p: nat, ids: seq<int>, cursor: nat, last: int, fails: set<int>,
                      appNow: int -> int)
      returns (done: set<int>)
      requires Unfolds(world, last) && IsPage(ids, ActiveAfter(world(p), cursor), RESYNC_LIMIT)
      modifies marker.redis`entries
      ensures done == Elements(ids) - fails
      ensures var pass := Resyncing(old(marker.redis.entries), marker.redis.now, marker.slackSeconds, appNow);
              pass.HasDone(marker.redis.entries, world(p), done)
    {
      ghost var pass := Resyncing(marker.redis.entries, marker.redis.now, marker.slackSeconds, appNow);
      var i := 0;
      done := {};
      while i < |ids|
        invariant 0 <= i <= |ids| && done == Elements(ids[..i]) - fails
        invariant pass.HasDone(marker.redis.entries, world(p), done)
      {
        OneMore(ids, i);
        if ids[i] !in fails {
          OfferIsThere(world, last, ids, p, cursor, i);
          hide Unfolds, IsPage, ActiveAfter, IsRearmed, KeysIn, SameOffer;
          ghost var middle := marker.redis.entries;
          RearmOne(world(p), world(p + 1), ids[i], appNow(ids[i]), pass);
          pass.OneMoreDone(middle, marker.redis.entries, world(p), done, ids[i]);
          done := done + {ids[i]};
        }
        i := i + 1;
      }
      assert ids[..i] == ids;
    }

    /** The order is read again before its marker is written. */
    method RearmOne(queried: Db, db: Db, id: int, appNow: int, ghost pass: Resyncing)
      requires id in ActiveAfter(queried, 0) && id in db.orders && SameOffer(queried.orders[id], db.orders[id])
      requires pass.now == marker.redis.now && pass.slack == marker.slackSeconds && pass.appNow(id) == appNow
      requires pass.Spares(marker.redis.entries, id)
      modifies marker.redis`entries
      ensures pass.Reaches(marker.redis.entries, queried, id)
      ensures forall j :: j != id ==> KeysIn(marker.redis.entries, j) == KeysIn(old(marker.redis.entries), j)
    {
      var o := db.orders[id];
      assert marker.redis.KeysOf(id) == KeysIn(marker.redis.entries, id);
      marker.Rearm(id, o.claimDeadline, o.publisher, appNow);
      assert forall j :: marker.redis.KeysOf(j) == KeysIn(marker.redis.entries, j);
    }
  }

  /** The page holds exactly the active ids between the cursor and its last id. */
  lemma PageIsNext(db: Db, ids: seq<int>, cursor: int)
    requires IsPage(ids, ActiveAfter(db, cursor), RESYNC_LIMIT) && ids != []
    ensures var last := ids[|ids| - 1];
            && cursor < last && |ActiveAfter(db, last)| < |ActiveAfter(db, cursor)|
            && forall id :: id in ids <==> id in ActiveAfter(db, cursor) && id <= last
  {
    var last := ids[|ids| - 1];
    assert last in ActiveAfter(db, cursor) && last !in ActiveAfter(db, last);
    Smaller(ActiveAfter(db, last), ActiveAfter(db, cursor), last);
  }

  lemma Smaller(a: set<int>, b: set<int>, x: int)
    requires a <= b && x in b && x !in a
    ensures |a| < |b|
  {
    assert b == (b - a) + a && x in b - a;
  }
}
