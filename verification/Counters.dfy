/** Redis counters that start a time window with their first increment. */
module Counters {
  import opened Model

  datatype Counter = Counter(count: nat, expires: int)

  predicate Live(c: Option<Counter>, now: int) { c.Some? && now < c.value.expires }

  function CountOf(c: Option<Counter>, now: int): nat { if Live(c, now) then c.value.count else 0 }

  /** INCR, and EXPIRE when the key is new. */
  function Hit(c: Option<Counter>, now: int, windowSeconds: int): Counter {
    if Live(c, now) then c.value.(count := c.value.count + 1) else Counter(1, now + 1000 * windowSeconds)
  }
}

/** The two fixed windows of grab_rate_limit.lua. */
module RateLimit {
  import opened Model
  import opened Counters

  datatype RateKey = UserRate(id: int) | OrderRate(id: int)

  datatype Request = Request(user: int, order: int, time: int)

  datatype Limits = Limits(perUser: int, perOrder: int, windowSeconds: int)
  {
    /** A negative limit admits nobody, as 0 does. */
    function Of(k: RateKey): nat {
      var limit := if k.UserRate? then perUser else perOrder;
      if limit < 0 then 0 else limit
    }
  }

  predicate Touches(r: Request, k: RateKey) { k == UserRate(r.user) || k == OrderRate(r.order) }

  /** The counter of a key after the first n requests. */
  function After(log: seq<Request>, l: Limits, k: RateKey, n: nat): Option<Counter>
    requires n <= |log|
  {
    if n == 0 then None
    else
      var before := After(log, l, k, n - 1);
      if Touches(log[n - 1], k) then Some(Hit(before, log[n - 1].time, l.windowSeconds)) else before
  }

  function CountAfter(log: seq<Request>, l: Limits, k: RateKey, n: nat): nat
    requires n <= |log|
  {
    var c := After(log, l, k, n);
    if c.Some? then c.value.count else 0
  }

  /** The script's answer to request i. */
  predicate Allowed(log: seq<Request>, l: Limits, i: nat)
    requires i < |log|
  {
    CountAfter(log, l, UserRate(log[i].user), i + 1) <= l.perUser
        && CountAfter(log, l, OrderRate(log[i].order), i + 1) <= l.perOrder
  }

  class GrabRateLimiter {
    var counters: map<RateKey, Counter>
    const limits: Limits

    constructor (limits: Limits)
      ensures this.limits == limits && counters == map[]
    {
      this.limits, counters := limits, map[];
    }

    ghost predicate HasServed(log: seq<Request>)
      reads this
    {
      forall k: RateKey :: (if k in counters then Some(counters[k]) else None) == After(log, limits, k, |log|)
    }

    /** INCR and EXPIRE of one key; the key is gone once its time is up. */
    method Increment(k: RateKey, now: int) returns (count: nat)
      modifies this`counters
      ensures var c := Hit(if k in old(counters) then Some(old(counters)[k]) else None, now, limits.windowSeconds);
              counters == old(counters)[k := c] && count == c.count
    {
      if k in counters && now < counters[k].expires {
        counters := counters[k := Counter(counters[k].count + 1, counters[k].expires)];
      } else {
        counters := counters[k := Counter(1, now + 1000 * limits.windowSeconds)];
      }
      count := counters[k].count;
    }

    method Allow(r: Request, ghost log: seq<Request>) returns (allowed: bool)
      requires HasServed(log)
      modifies this`counters
      ensures HasServed(log + [r]) && allowed == Allowed(log + [r], limits, |log|)
    {
      ghost var longer := log + [r];
      forall k: RateKey ensures After(longer, limits, k, |log|) == After(log, limits, k, |log|) {
        Prefix(log, r, limits, k, |log|);
      }
      var userCount := Increment(UserRate(r.user), r.time);
      var orderCount := Increment(OrderRate(r.order), r.time);
      allowed := userCount <= limits.perUser && orderCount <= limits.perOrder;
      assert longer[|log|] == r;
    }
  }

  lemma {:induction false} Prefix(log: seq<Request>, r: Request, l: Limits, k: RateKey, n: nat)
    requires n <= |log|
    ensures After(log + [r], l, k, n) == After(log, l, k, n)
  {
    if n > 0 { Prefix(log, r, l, k, n - 1); }
  }

  /** How many of the first n requests of a key at or after time `from` were allowed. */
  function AllowedSince(log: seq<Request>, l: Limits, k: RateKey, from: int, n: nat): nat
    requires n <= |log|
  {
    if n == 0 then 0
    else AllowedSince(log, l, k, from, n - 1)
         + if Touches(log[n - 1], k) && log[n - 1].time >= from && Allowed(log, l, n - 1) then 1 else 0
  }

  predicate Ordered(log: seq<Request>) { forall i, j :: 0 <= i < j < |log| ==> log[i].time <= log[j].time }

  function Min(a: nat, b: nat): nat { if a < b then a else b }

  /** A fixed window and at most one more that began inside the interval. */
  lemma {:induction false} TwoWindows(log: seq<Request>, l: Limits, k: RateKey, from: int, n: nat)
    requires Ordered(log) && l.windowSeconds >= 1 && n <= |log|
    requires forall i :: 0 <= i < n ==> log[i].time <= from + 1000 * l.windowSeconds
    ensures var c, allowed := After(log, l, k, n), AllowedSince(log, l, k, from, n);
            && (allowed > 0 ==> c.Some? && c.value.expires > from)
            && (allowed <= Min(CountAfter(log, l, k, n), l.Of(k))
                || (c.Some? && c.value.expires > from + 1000 * l.windowSeconds
                    && allowed <= l.Of(k) + Min(c.value.count, l.Of(k))))
  {
    if n > 0 {
      TwoWindows(log, l, k, from, n - 1);
      if log[n - 1].time < from { NothingBefore(log, l, k, from, n); }
    }
  }

  lemma {:induction false} NothingBefore(log: seq<Request>, l: Limits, k: RateKey, from: int, n: nat)
    requires n <= |log| && forall i :: 0 <= i < n ==> log[i].time < from || !Touches(log[i], k)
    ensures AllowedSince(log, l, k, from, n) == 0
  {
    if n > 0 { NothingBefore(log, l, k, from, n - 1); }
  }

  /** At most twice the limit in any interval no longer than the window, for each user and for each order. */
  lemma TwiceTheLimit(log: seq<Request>, l: Limits, k: RateKey, from: int, n: nat)
    requires Ordered(log) && l.windowSeconds >= 1 && n <= |log|
    requires forall i :: 0 <= i < n ==> log[i].time <= from + 1000 * l.windowSeconds
    ensures AllowedSince(log, l, k, from, n) <= 2 * l.Of(k)
  {
    TwoWindows(log, l, k, from, n);
  }

  predicate InWindow(log: seq<Request>, l: Limits, k: RateKey, from: int, m: nat)
    requires m < |log|
  {
    log[m].time >= from && Touches(log[m], k) ==>
      After(log, l, k, m + 1).Some? && After(log, l, k, m + 1).value.expires == from + 1000 * l.windowSeconds
  }

  /** Within one window, that is while the counter's expiry stays the same, at most the limit is allowed. */
  lemma {:induction false} OneWindow(log: seq<Request>, l: Limits, k: RateKey, from: int, n: nat)
    requires Ordered(log) && l.windowSeconds >= 1 && n <= |log|
             && forall m :: 0 <= m < n ==> InWindow(log, l, k, from, m)
    ensures var c, allowed := After(log, l, k, n), AllowedSince(log, l, k, from, n);
            && (allowed > 0 ==> c.Some? && c.value.expires == from + 1000 * l.windowSeconds)
            && allowed <= Min(CountAfter(log, l, k, n), l.Of(k))
  {
    if n > 0 {
      OneWindow(log, l, k, from, n - 1);
      assert InWindow(log, l, k, from, n - 1);
      if log[n - 1].time < from { NothingBefore(log, l, k, from, n); }
    }
  }

  /** How many of the first n requests of a key came at or after time `from`. */
  function HitsSince(log: seq<Request>, k: RateKey, from: int, n: nat): nat
    requires n <= |log|
  {
    if n == 0 then 0 else HitsSince(log, k, from, n - 1) + if Touches(log[n - 1], k) && log[n - 1].time >= from then 1
        else 0
  }

  lemma {:induction false} HitsShrink(log: seq<Request>, k: RateKey, from: int, later: int, n: nat)
    requires n <= |log| && from <= later
    ensures HitsSince(log, k, later, n) <= HitsSince(log, k, from, n)
  {
    if n > 0 { HitsShrink(log, k, from, later, n - 1); }
  }

  /** A counter counts requests of its own window only. */
  lemma {:induction false} CountIsRecent(log: seq<Request>, l: Limits, k: RateKey, n: nat)
    requires Ordered(log) && l.windowSeconds >= 1 && n <= |log|
    ensures var c := After(log, l, k, n);
            c.Some? ==>
              && c.value.count <= HitsSince(log, k, c.value.expires - 1000 * l.windowSeconds, n)
              && forall i :: n <= i < |log| ==> c.value.expires - 1000 * l.windowSeconds <= log[i].time
  {
    if n > 0 { CountIsRecent(log, l, k, n - 1); }
  }

  /** No request is refused while both its user and its order stay within their limits over the last window. */
  lemma NoFalseRefusal(log: seq<Request>, l: Limits, i: nat)
    requires Ordered(log) && l.windowSeconds >= 1 && i < |log|
    requires HitsSince(log, UserRate(log[i].user), log[i].time - 1000 * l.windowSeconds + 1, i + 1) <= l.perUser
    requires HitsSince(log, OrderRate(log[i].order), log[i].time - 1000 * l.windowSeconds + 1, i + 1) <= l.perOrder
    ensures Allowed(log, l, i)
  {
    CountIsLow(log, l, UserRate(log[i].user), i);
    CountIsLow(log, l, OrderRate(log[i].order), i);
  }

  lemma CountIsLow(log: seq<Request>, l: Limits, k: RateKey, i: nat)
    requires Ordered(log) && l.windowSeconds >= 1 && i < |log| && Touches(log[i], k)
    ensures CountAfter(log, l, k, i + 1) <= HitsSince(log, k, log[i].time - 1000 * l.windowSeconds + 1, i + 1)
  {
    CountIsRecent(log, l, k, i + 1);
    var c := After(log, l, k, i + 1);
    HitsShrink(log, k, log[i].time - 1000 * l.windowSeconds + 1, c.value.expires - 1000 * l.windowSeconds, i + 1);
  }
}
