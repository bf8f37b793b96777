/** The local fallback of the login guard against the Redis script it stands in for. */
module Login {
  import opened Model
  import opened Counters

  datatype LoginKey = AccountKey(name: string) | IpKey(address: string)

  datatype Limits = Limits(perAccount: int, perIp: int, windowSeconds: int)

  datatype Op =
    | Allow(account: string, ip: string)
    | RecordFailure(account: string, ip: string)
    | Clear(account: string)

  datatype Timed = Timed(op: Op, time: int)

  type Table = map<LoginKey, Counter>

  function At(t: Table, k: LoginKey): Option<Counter> { if k in t then Some(t[k]) else None }

  // ---- the script: keys are gone the moment their time is up ----

  function Dropped(t: Table, now: int): Table { map k | k in t && now < t[k].expires :: t[k] }

  function Incremented(t: Table, k: LoginKey, now: int, window: int): Table { t[k := Hit(At(t, k), now, window)] }

  function RedisAnswer(t: Table, l: Limits, e: Timed): bool {
    e.op.Allow? ==> CountOf(At(t, AccountKey(e.op.account)), e.time) < l.perAccount
                    && CountOf(At(t, IpKey(e.op.ip)), e.time) < l.perIp
  }

  function RedisAfter(t: Table, l: Limits, e: Timed): Table {
    var alive := Dropped(t, e.time);
    match e.op
    case Allow(_, _) => alive
    case RecordFailure(account, ip) =>
      Incremented(Incremented(alive, AccountKey(account), e.time, l.windowSeconds), IpKey(ip), e.time, l.windowSeconds)
    case Clear(account) => alive - {AccountKey(account)}
  }

  // ---- the fallback: a window is dropped when somebody next looks at it ----

  function Looked(t: Table, k: LoginKey, now: int): Table { if k in t && t[k].expires <= now then t - {k} else t }

  function LocalAnswer(t: Table, l: Limits, e: Timed): bool {
    e.op.Allow? ==>
      var account := Looked(t, AccountKey(e.op.account), e.time);
      var ip := Looked(account, IpKey(e.op.ip), e.time);
      (AccountKey(e.op.account) in account ==> account[AccountKey(e.op.account)].count < l.perAccount)
      && (IpKey(e.op.ip) in ip ==> ip[IpKey(e.op.ip)].count < l.perIp)
  }

  function LocalAfter(t: Table, l: Limits, e: Timed): Table {
    match e.op
    case Allow(account, ip) => Looked(Looked(t, AccountKey(account), e.time), IpKey(ip), e.time)
    case RecordFailure(account, ip) =>
      Incremented(Incremented(t, AccountKey(account), e.time, l.windowSeconds), IpKey(ip), e.time, l.windowSeconds)
    case Clear(account) => t - {AccountKey(account)}
  }

  class LoginAttemptGuard {
    const limits: Limits
    var fallback: Table

    constructor (limits: Limits)
      ensures this.limits == limits && fallback == map[]
    {
      this.limits, fallback := limits, map[];
    }

    method Active(k: LoginKey, now: int) returns (current: Option<Counter>)
      modifies this
      ensures fallback == Looked(old(fallback), k, now) && current == At(fallback, k)
    {
      if k !in fallback { return None; }
      if fallback[k].expires <= now {
        fallback := fallback - {k};
        return None;
      }
      current := Some(fallback[k]);
    }

    method Increment(k: LoginKey, now: int)
      modifies this
      ensures fallback == Incremented(old(fallback), k, now, limits.windowSeconds)
    {
      var current := if k in fallback && now < fallback[k].expires then fallback[k]
          else Counter(0, now + 1000 * limits.windowSeconds);
      fallback := fallback[k := current.(count := current.count + 1)];
    }

    method FallbackAllow(account: string, ip: string, now: int) returns (allowed: bool)
      modifies this
      ensures var e := Timed(Allow(account, ip), now);
              allowed == LocalAnswer(old(fallback), limits, e) && fallback == LocalAfter(old(fallback), limits, e)
    {
      var byAccount := Active(AccountKey(account), now);
      var byIp := Active(IpKey(ip), now);
      allowed := (byAccount.None? || byAccount.value.count < limits.perAccount)
          && (byIp.None? || byIp.value.count < limits.perIp);
    }

    method FallbackRecordFailure(account: string, ip: string, now: int)
      modifies this
      ensures fallback == LocalAfter(old(fallback), limits, Timed(RecordFailure(account, ip), now))
    {
      Increment(AccountKey(account), now);
      Increment(IpKey(ip), now);
    }

    method ClearAccount(account: string, ghost now: int)
      modifies this
      ensures fallback == LocalAfter(old(fallback), limits, Timed(Clear(account), now))
    {
      fallback := fallback - {AccountKey(account)};
    }
  }

  // ---- simulation ----

  predicate AgreeAt(local: Table, redis: Table, k: LoginKey, now: int) {
    Live(At(local, k), now) == Live(At(redis, k), now) && (Live(At(local, k), now) ==> At(local, k) == At(redis, k))
  }

  /** Both tables show the same live windows; the local one may keep dead ones. */
  ghost predicate Agree(local: Table, redis: Table, now: int) { forall k: LoginKey :: AgreeAt(local, redis, k, now) }

  lemma AgreeLater(local: Table, redis: Table, now: int, later: int)
    requires Agree(local, redis, now) && now <= later
    ensures Agree(local, redis, later)
  {
    forall k: LoginKey ensures AgreeAt(local, redis, k, later) { assert AgreeAt(local, redis, k, now); }
  }

  lemma IncrementAgrees(local: Table, redis: Table, k: LoginKey, now: int, window: int)
    requires Agree(local, redis, now)
    ensures Agree(Incremented(local, k, now, window), Incremented(redis, k, now, window), now)
  {
    assert AgreeAt(local, redis, k, now);
    forall j: LoginKey ensures AgreeAt(Incremented(local, k, now, window), Incremented(redis, k, now, window), j, now) {
      assert AgreeAt(local, redis, j, now);
    }
  }

  lemma DroppingAgrees(local: Table, redis: Table, now: int)
    requires Agree(local, redis, now)
    ensures Agree(local, Dropped(redis, now), now)
  {
    forall k: LoginKey ensures AgreeAt(local, Dropped(redis, now), k, now) { assert AgreeAt(local, redis, k, now); }
  }

  lemma LookingAgrees(local: Table, redis: Table, k: LoginKey, now: int)
    requires Agree(local, redis, now)
    ensures Agree(Looked(local, k, now), redis, now)
  {
    forall j: LoginKey ensures AgreeAt(Looked(local, k, now), redis, j, now) { assert AgreeAt(local, redis, j, now); }
  }

  lemma ClearingAgrees(local: Table, redis: Table, k: LoginKey, now: int)
    requires Agree(local, redis, now)
    ensures Agree(local - {k}, redis - {k}, now)
  {
    forall j: LoginKey ensures AgreeAt(local - {k}, redis - {k}, j, now) { assert AgreeAt(local, redis, j, now); }
  }

  lemma OneStepAgrees(local: Table, redis: Table, l: Limits, e: Timed)
    requires Agree(local, redis, e.time) && l.perAccount > 0 && l.perIp > 0
    ensures LocalAnswer(local, l, e) == RedisAnswer(redis, l, e)
    ensures Agree(LocalAfter(local, l, e), RedisAfter(redis, l, e), e.time)
  {
    hide Agree, Dropped;
    var alive := Dropped(redis, e.time);
    DroppingAgrees(local, redis, e.time);
    match e.op
    case Allow(account, ip) =>
      AgreesAt(local, redis, AccountKey(account), e.time);
      AgreesAt(local, redis, IpKey(ip), e.time);
      LookingAgrees(local, alive, AccountKey(account), e.time);
      LookingAgrees(Looked(local, AccountKey(account), e.time), alive, IpKey(ip), e.time);
    case RecordFailure(account, ip) =>
      IncrementAgrees(local, alive, AccountKey(account), e.time, l.windowSeconds);
      IncrementAgrees(Incremented(local, AccountKey(account), e.time, l.windowSeconds),
                      Incremented(alive, AccountKey(account), e.time, l.windowSeconds), IpKey(ip), e.time,
                          l.windowSeconds);
    case Clear(account) => ClearingAgrees(local, alive, AccountKey(account), e.time);
  }

  lemma AgreesAt(local: Table, redis: Table, k: LoginKey, now: int)
    requires Agree(local, redis, now)
    ensures AgreeAt(local, redis, k, now)
  {}

  function LocalRun(t: Table, l: Limits, log: seq<Timed>): seq<bool>
    decreases |log|
  {
    if log == [] then [] else [LocalAnswer(t, l, log[0])] + LocalRun(LocalAfter(t, l, log[0]), l, log[1..])
  }

  function RedisRun(t: Table, l: Limits, log: seq<Timed>): seq<bool>
    decreases |log|
  {
    if log == [] then [] else [RedisAnswer(t, l, log[0])] + RedisRun(RedisAfter(t, l, log[0]), l, log[1..])
  }

  predicate Ordered(log: seq<Timed>) { forall i, j :: 0 <= i < j < |log| ==> log[i].time <= log[j].time }

  /** From tables that agree, every sequence of allow, record and clear calls at non-decreasing times gets the same
      answers from the local fallback as from the Redis script. */
  lemma {:induction false} FallbackSimulatesScript(local: Table, redis: Table, l: Limits, log: seq<Timed>, now: int)
    requires l.perAccount > 0 && l.perIp > 0 && Agree(local, redis, now) && Ordered(log)
             && (log != [] ==> now <= log[0].time)
    ensures LocalRun(local, l, log) == RedisRun(redis, l, log)
    decreases |log|
  {
    hide Agree, LocalAnswer, RedisAnswer, LocalAfter, RedisAfter;
    if log != [] {
      AgreeLater(local, redis, now, log[0].time);
      OneStepAgrees(local, redis, l, log[0]);
      FallbackSimulatesScript(LocalAfter(local, l, log[0]), RedisAfter(redis, l, log[0]), l, log[1..], log[0].time);
    }
  }

  /** From nothing the two agree on every history iff both limits are positive: with any other limit the script turns
      everybody away, while the fallback lets a key without failures through. */
  lemma FallbackAgreesIffLimitsArePositive(l: Limits)
    ensures (forall log: seq<Timed> :: Ordered(log) ==> LocalRun(map[], l, log) == RedisRun(map[], l, log))
            <==> l.perAccount > 0 && l.perIp > 0
  {
    if l.perAccount > 0 && l.perIp > 0 {
      forall log: seq<Timed> | Ordered(log) ensures LocalRun(map[], l, log) == RedisRun(map[], l, log) {
        if log != [] { FallbackSimulatesScript(map[], map[], l, log, log[0].time); }
      }
    } else {
      var first := [Timed(Allow("a", "b"), 0)];
      assert Ordered(first);
      assert LocalRun(map[], l, first)[0] != RedisRun(map[], l, first)[0];
    }
  }

  /** The script's counters after failures of one account from one address. */
  function AfterFailures(l: Limits, account: string, ip: string, times: seq<int>): Table
    decreases |times|
  {
    if times == [] then map[]
    else
      var n := |times| - 1;
      RedisAfter(AfterFailures(l, account, ip, times[..n]), l, Timed(RecordFailure(account, ip), times[n]))
  }

  lemma {:induction false} FailuresAreCounted(l: Limits, account: string, ip: string, times: seq<int>)
    requires times != [] && forall i :: 0 <= i < |times| ==> times[0] <= times[i] < times[0] + 1000 * l.windowSeconds
    ensures var c := Counter(|times|, times[0] + 1000 * l.windowSeconds);
            AfterFailures(l, account, ip, times) == map[AccountKey(account) := c, IpKey(ip) := c]
    decreases |times|
  {
    var n := |times| - 1;
    if n > 0 { FailuresAreCounted(l, account, ip, times[..n]); }
  }

  /** After n failures within one window a login is let through exactly while n is below both limits; when the window is
      over, exactly if both limits are positive. */
  lemma LoginIsBlockedAtTheLimit(l: Limits, account: string, ip: string, times: seq<int>, now: int)
    requires times != [] && forall i :: 0 <= i < |times| ==> times[0] <= times[i] < times[0] + 1000 * l.windowSeconds
    requires now >= times[|times| - 1]
    ensures var count := if now < times[0] + 1000 * l.windowSeconds then |times| else 0;
            RedisAnswer(AfterFailures(l, account, ip, times), l, Timed(Allow(account, ip), now)) <==>
            count < l.perAccount && count < l.perIp
  {
    FailuresAreCounted(l, account, ip, times);
  }
}
