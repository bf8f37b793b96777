/** The grab marker in Redis: one token per open order, consumed by the first grab, with a shadow key that tells a
    consumed marker from a lost one. */
module Marker {
  import opened Model

  // ---- the value "deadlineMillis|publisherId" ----

  predicate IsDigit(c: char) { '0' <= c <= '9' }
  function DigitOf(d: nat): char
    requires d < 10
  { '0' + d as char }

  function Digits(n: nat): string { if n < 10 then [DigitOf(n)] else Digits(n / 10) + [DigitOf(n % 10)] }

  /** The decimal notation of a Java long. */
  function Decimal(n: int): string { if n < 0 then "-" + Digits(-n) else Digits(n) }

  function Unsigned(s: string): Option<nat> {
    if s == "" || !IsDigit(s[|s| - 1]) then None
    else
      var last := (s[|s| - 1] - '0') as nat;
      if |s| == 1 then Some(last)
      else
        var front := Unsigned(s[..|s| - 1]);
        if front.None? then None else Some(10 * front.value + last)
  }

  /** tonumber on decimal notation. */
  function ToNumber(s: string): Option<int> {
    if s != "" && s[0] == '-' then
      var n := Unsigned(s[1..]);
      if n.Some? then Some(-(n.value as int)) else None
    else
      var n := Unsigned(s);
      if n.Some? then Some(n.value as int) else None
  }

  /** string.find(marker, '|'): the index of the first separator, or the length. */
  function FindBar(s: string): nat { if s == "" || s[0] == '|' then 0 else 1 + FindBar(s[1..]) }

  function MarkerValue(deadline: int, publisher: int): string { Decimal(deadline) + "|" + Decimal(publisher) }

  /** None is a value that the script cannot read; without separator the publisher is 0. */
  function ParseMarker(s: string): Option<(int, int)> {
    var bar := FindBar(s);
    BarInside(s);
    var deadline, publisher := ToNumber(s[..bar]), if bar < |s| then ToNumber(s[bar + 1..]) else Some(0);
    if deadline.Some? && publisher.Some? then Some((deadline.value, publisher.value)) else None
  }

  lemma {:induction false} BarInside(s: string)
    ensures FindBar(s) <= |s| && (forall i :: 0 <= i < FindBar(s) ==> s[i] != '|')
            && (FindBar(s) < |s| ==> s[FindBar(s)] == '|')
  {
    if s != "" && s[0] != '|' { BarInside(s[1..]); }
  }

  lemma {:induction false} DigitsAreNumber(n: nat)
    ensures Unsigned(Digits(n)) == Some(n) && Digits(n) != "" && forall c :: c in Digits(n) ==> IsDigit(c)
  {
    if n >= 10 {
      DigitsAreNumber(n / 10);
      assert Digits(n)[..|Digits(n)| - 1] == Digits(n / 10);
    }
  }

  lemma DecimalIsNumber(n: int)
    ensures ToNumber(Decimal(n)) == Some(n) && '|' !in Decimal(n)
  {
    var m := if n < 0 then -n else n;
    DigitsAreNumber(m);
    assert IsDigit(Digits(m)[0]) by { assert Digits(m)[0] in Digits(m); }
    assert n < 0 ==> Decimal(n)[1..] == Digits(m);
  }

  /** What arm and rearm write is what the filter script reads. */
  lemma MarkerRoundTrip(deadline: int, publisher: int)
    ensures ParseMarker(MarkerValue(deadline, publisher)) == Some((deadline, publisher))
  {
    var d, p, s := Decimal(deadline), Decimal(publisher), MarkerValue(deadline, publisher);
    DecimalIsNumber(deadline);
    DecimalIsNumber(publisher);
    BarInside(s);
    assert s[|d|] == '|';
    assert forall i :: 0 <= i < |d| ==> s[i] == d[i];
    assert FindBar(s) == |d| && s[..|d|] == d && s[|d| + 1..] == p;
  }

  // ---- both keys of one order ----

  /** A value with the time at which Redis drops it. */
  datatype Entry = Entry(value: string, expires: int)

  datatype Keys = Keys(stock: Option<Entry>, known: Option<Entry>)

  datatype Decision = Pass | Filtered | Expired | SelfGrab | Missing | Unavailable

  predicate Alive(e: Option<Entry>, now: int) { e.Some? && now < e.value.expires }

  /** Duration.between(now, deadline).getSeconds() + slack, at least 1. */
  function TtlSeconds(appNow: int, deadline: int, slack: int): int {
    var seconds := (deadline - appNow) / 1000 + slack;
    if seconds < 1 then 1 else seconds
  }

  function Until(now: int, seconds: int): int { now + 1000 * seconds }

  /** grab_filter.lua. */
  function Filter(k: Keys, now: int, taker: int, nowMillis: int): (r: (Decision, Keys))
  {
    if !Alive(k.stock, now) then (if Alive(k.known, now) then Filtered else Missing, k)
    else
      var marker := ParseMarker(k.stock.value.value);
      if marker.None? then (Unavailable, k)
      else
        var (deadline, publisher) := marker.value;
        if publisher > 0 && publisher == taker then (Decision.SelfGrab, k)
        else if deadline < nowMillis then (Decision.Expired, k)
        else (Pass, k.(stock := None))
  }

  /** grab_marker_rearm.lua. */
  function Rearmed(k: Keys, now: int, deadline: int, publisher: int, seconds: int): Keys {
    if Alive(k.stock, now) then k
    else Keys(Some(Entry(MarkerValue(deadline, publisher), Until(now, seconds))), Some(Entry("1", Until(now, seconds))))
  }

  /** What the filter decides from a marker that arm or rearm wrote, and without one. */
  lemma FilterAnswer(k: Keys, now: int, taker: int, nowMillis: int, deadline: int, publisher: int)
    ensures (k.stock.None? || k.stock.value.expires <= now) ==>
              Filter(k, now, taker, nowMillis) ==
              (if k.known.Some? && now < k.known.value.expires then Filtered else Missing, k)
    ensures k.stock.Some? && now < k.stock.value.expires && k.stock.value.value == MarkerValue(deadline, publisher) ==>
              Filter(k, now, taker, nowMillis) ==
              if publisher > 0 && publisher == taker then (Decision.SelfGrab, k)
              else if deadline < nowMillis then (Decision.Expired, k)
              else (Pass, Keys(None, k.known))
  {
    MarkerRoundTrip(deadline, publisher);
    hide MarkerValue, ParseMarker;
  }

  /** The time to live covers the deadline and the slack to within a second, and is at least one second. */
  lemma TtlIsTight(appNow: int, deadline: int, slack: int)
    ensures var ttl, left := 1000 * TtlSeconds(appNow, deadline, slack), deadline - appNow + 1000 * slack;
            if left < 2000 then ttl == 1000 else left - 1000 < ttl <= left
  {}

  datatype RedisKey = Stock(order: int) | Known(order: int)

  function KeysIn(entries: map<RedisKey, Entry>, id: int): Keys {
    Keys(if Stock(id) in entries then Some(entries[Stock(id)]) else None,
         if Known(id) in entries then Some(entries[Known(id)]) else None)
  }

  class Redis {
    var now: int
    var entries: map<RedisKey, Entry>

    constructor (now: int)
      ensures this.now == now && entries == map[]
    {
      this.now, entries := now, map[];
    }

    function At(k: RedisKey): Option<Entry>
      reads this
    { if k in entries then Some(entries[k]) else None }

    function KeysOf(id: int): Keys
      reads this
    { KeysIn(entries, id) }

    method Get(k: RedisKey) returns (r: Option<string>)
      ensures r == if Alive(At(k), now) then Some(At(k).value.value) else None
    {
      if k in entries && now < entries[k].expires { return Some(entries[k].value); }
      r := None;
    }

    method SetEx(k: RedisKey, value: string, seconds: int)
      modifies this`entries
      ensures entries == old(entries)[k := Entry(value, Until(now, seconds))]
    {
      entries := entries[k := Entry(value, now + 1000 * seconds)];
    }

    method Delete(ks: set<RedisKey>)
      modifies this`entries
      ensures entries == old(entries) - ks
    {
      entries := entries - ks;
    }
  }

  class GrabMarker {
    const redis: Redis
    const slackSeconds: int

    constructor (redis: Redis, slackSeconds: int)
      ensures this.redis == redis && this.slackSeconds == slackSeconds
    {
      this.redis, this.slackSeconds := redis, slackSeconds;
    }

    twostate predicate OnlyKeysOf(id: int)
      reads redis
    {
      forall j :: j != id ==> redis.KeysOf(j) == old(redis.KeysOf(j))
    }

    /** Two commands: the token first, then its shadow. */
    method ArmStrict(id: int, deadline: int, publisher: int, appNow: int)
      modifies redis`entries
      ensures var until := Until(redis.now, TtlSeconds(appNow, deadline, slackSeconds));
              redis.KeysOf(id) == Keys(Some(Entry(MarkerValue(deadline, publisher), until)), Some(Entry("1", until)))
      ensures OnlyKeysOf(id)
    {
      var seconds := TtlSeconds(appNow, deadline, slackSeconds);
      redis.SetEx(Stock(id), MarkerValue(deadline, publisher), seconds);
      redis.SetEx(Known(id), "1", seconds);
    }

    method TryPass(id: int, taker: int, nowMillis: int) returns (d: Decision)
      modifies redis`entries
      ensures (d, redis.KeysOf(id)) == Filter(old(redis.KeysOf(id)), redis.now, taker, nowMillis)
      ensures OnlyKeysOf(id)
    {
      var marker := redis.Get(Stock(id));
      if marker.None? {
        var known := redis.Get(Known(id));
        return if known.Some? then Filtered else Missing;
      }
      var parsed := ParseMarker(marker.value);
      if parsed.None? { return Unavailable; }
      var (deadline, publisher) := parsed.value;
      if publisher > 0 && publisher == taker { return Decision.SelfGrab; }
      if deadline < nowMillis { return Decision.Expired; }
      redis.Delete({Stock(id)});
      d := Pass;
    }

    method Rearm(id: int, deadline: int, publisher: int, appNow: int)
      modifies redis`entries
      ensures redis.KeysOf(id) == Rearmed(old(redis.KeysOf(id)), redis.now, deadline, publisher,
                                          TtlSeconds(appNow, deadline, slackSeconds))
      ensures OnlyKeysOf(id)
      ensures var before, after := old(redis.KeysOf(id)), redis.KeysOf(id);
              var expires := redis.now + 1000 * TtlSeconds(appNow, deadline, slackSeconds);
              if before.stock.Some? && redis.now < before.stock.value.expires then after == before
              else after == Keys(Some(Entry(MarkerValue(deadline, publisher), expires)), Some(Entry("1", expires)))
    {
      var seconds := TtlSeconds(appNow, deadline, slackSeconds);
      var marker := redis.Get(Stock(id));
      if marker.Some? { return; }
      redis.SetEx(Stock(id), MarkerValue(deadline, publisher), seconds);
      redis.SetEx(Known(id), "1", seconds);
    }

    method RemoveStrict(id: int)
      modifies redis`entries
      ensures redis.KeysOf(id) == Keys(None, None) && OnlyKeysOf(id)
    {
      redis.Delete({Stock(id), Known(id)});
    }
  }
}
