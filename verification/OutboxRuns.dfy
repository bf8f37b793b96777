/** Any number of outbox workers with crashes and skewed clocks: the lease end is a fencing token. */
module OutboxRuns {
  import opened Model
  import opened OrderSpec
  import opened Outbox

  /** What happened to a row since it was inserted or last replayed. */
  datatype Life = Life(failures: nat, firstAt: int)

  /** `held` are the claims in workers' hands, numbered in the order of claiming; `latest` is each row's newest
      claim. */
  datatype System = System(now: int, rows: Rows, held: map<nat, Claim>, issued: nat, latest: map<int, nat>,
                           lives: map<int, Life>)

  datatype Action =
    | Insert(id: int)
    | Tick(ms: nat)
    | ClaimRow(id: int, appNanos: nat)
    | Publish(claim: nat)
    | Fail(claim: nat, appNow: int)
    | Crash(claim: nat)
    | Replay(id: int)

  /** A claim stays in its worker's hands after Publish: an exception may make the worker mark it failed as well. */
  function Step(s: System, a: Action): System {
    match a
    case Insert(id) =>
      if id in s.rows then s else s.(rows := s.rows[id := Row(Pending, 0, s.now, None)],
                                     lives := s.lives[id := Life(0, 0)])
    case Tick(ms) => s.(now := s.now + ms)
    case ClaimRow(id, appNanos) => if id in s.rows && Due(s.rows[id], s.now) then Claimed(s, id, Lease(appNanos)) else s
    case Publish(k) => if k in s.held then s.(rows := AfterPublish(s.rows, s.held[k])) else s
    case Fail(k, appNow) => if k in s.held then AfterFail(s, k, appNow) else s
    case Crash(k) => s.(held := s.held - {k})
    case Replay(id) =>
      if id in s.rows && s.rows[id].status.Dead?
      then s.(rows := Replayed(s.rows, id, s.now), lives := s.lives[id := Life(0, 0)]) else s
  }

  function Claimed(s: System, id: int, lease: int): System
    requires id in s.rows
  {
    s.(rows := s.rows[id := Locked(s.rows[id], lease)], held := s.held[s.issued := Claim(id, lease, s.rows[id].count)],
       issued := s.issued + 1, latest := s.latest[id := s.issued])
  }

  function AfterFail(s: System, k: nat, appNow: int): System
    requires k in s.held
  {
    var c := s.held[k];
    var life := if c.id in s.lives then s.lives[c.id] else Life(0, 0);
    s.(rows := AfterFailure(s.rows, c, appNow), held := s.held - {k},
       lives := if Holds(s.rows, c)
           then s.lives[c.id := Life(life.failures + 1, if life.failures == 0 then s.now else life.firstAt)]
           else s.lives)
  }

  predicate Initial(s: System) { s.rows == map[] && s.held == map[] && s.latest == map[] && s.lives == map[] }

  /** The application clock used for a claim lags the database clock by less than the 30 seconds of the lease. */
  predicate Punctual(s: System, a: Action) { a.ClaimRow? ==> s.now < Lease(a.appNanos) }

  /** The application clock used for a retry time is not behind the database clock. */
  predicate NotBehind(s: System, a: Action) { a.Fail? ==> s.now <= a.appNow }

  ghost predicate Run(states: seq<System>, actions: seq<Action>) {
    && |states| == |actions| + 1 && Initial(states[0])
    && forall i :: 0 <= i < |actions| ==> states[i + 1] == Step(states[i], actions[i])
  }

  ghost predicate AllPunctual(states: seq<System>, actions: seq<Action>) {
    |states| == |actions| + 1 && forall i :: 0 <= i < |actions| ==> Punctual(states[i], actions[i])
  }

  // ---- the invariant ----

  /** A held claim is its row's newest and the row is under its lease, or its lease ran out before the newest one
      began. */
  predicate FenceOk(s: System, k: nat)
    requires k in s.held
  {
    var c := s.held[k];
    && k < s.issued && c.id in s.rows && c.id in s.latest && k <= s.latest[c.id] < s.issued
    && var r := s.rows[c.id];
       || r.status.Done?
       || (k == s.latest[c.id] && r.status.Processing? && r.lockedUntil == Some(c.lease) && r.count == c.count)
       || (k < s.latest[c.id] && c.lease <= s.now
           && (r.status.Processing? ==> r.lockedUntil.Some? && c.lease < r.lockedUntil.value))
  }

  predicate Fenced(s: System) {
    && (forall k :: k in s.held ==> FenceOk(s, k))
    && (forall id :: id in s.latest ==> s.latest[id] < s.issued)
  }

  /** PENDING has no failures, RETRY 1 to 11, DEAD exactly twelve; the count is the number of failed completions. */
  predicate BudgetOk(s: System, id: int)
    requires id in s.rows
  {
    var r := s.rows[id];
    && id in s.lives && s.lives[id].failures == r.count
    && match r.status
       case Pending => r.count == 0
       case Retry => 1 <= r.count < MAX_RETRIES
       case Processing => r.count < MAX_RETRIES
       case Done => r.count < MAX_RETRIES
       case Dead => r.count == MAX_RETRIES
  }

  predicate Budgeted(s: System) { forall id :: id in s.rows ==> BudgetOk(s, id) }

  /** Only the newest claim of a row passes the guard of a completion; an older one changes nothing. */
  lemma OnlyNewestCompletes(s: System, k: nat)
    requires Fenced(s) && k in s.held
    ensures Holds(s.rows, s.held[k]) ==> s.latest[s.held[k].id] == k && s.rows[s.held[k].id].count == s.held[k].count
    ensures s.held[k].id in s.latest && s.latest[s.held[k].id] != k ==>
              Step(s, Publish(k)).rows == s.rows && forall appNow :: Step(s, Fail(k, appNow)).rows == s.rows
  {
    assert FenceOk(s, k);
  }

  lemma StepKeepsFence(s: System, a: Action)
    requires Fenced(s) && Punctual(s, a)
    ensures Fenced(Step(s, a))
  {
    var t := Step(s, a);
    forall k | k in t.held ensures FenceOk(t, k) {
      if k in s.held { assert FenceOk(s, k); }
      if (a.Publish? || a.Fail?) && a.claim in s.held { assert FenceOk(s, a.claim); }
    }
  }

  lemma StepKeepsBudget(s: System, a: Action)
    requires Fenced(s) && Budgeted(s)
    ensures Budgeted(Step(s, a))
  {
    var t := Step(s, a);
    forall id | id in t.rows ensures BudgetOk(t, id) {
      if id in s.rows { assert BudgetOk(s, id); }
      if a.Fail? && a.claim in s.held { OnlyNewestCompletes(s, a.claim); }
    }
  }

  /** Fencing and the retry budget in every run whose claims use a clock that lags by less than 30 seconds. */
  lemma {:induction false} RunIsFencedAndBudgeted(states: seq<System>, actions: seq<Action>, n: nat)
    requires Run(states, actions) && AllPunctual(states, actions) && n < |states|
    ensures Fenced(states[n]) && Budgeted(states[n])
  {
    hide Fenced, Budgeted, Punctual, Step;
    if n == 0 {
      InitialIsFine(states[0]);
    } else {
      RunIsFencedAndBudgeted(states, actions, n - 1);
      assert Punctual(states[n - 1], actions[n - 1]);
      assert states[n - 1 + 1] == Step(states[n - 1], actions[n - 1]);
      StepKeepsFence(states[n - 1], actions[n - 1]);
      StepKeepsBudget(states[n - 1], actions[n - 1]);
    }
  }

  lemma InitialIsFine(s: System)
    requires Initial(s)
    ensures Fenced(s) && Budgeted(s) && Patient(s)
  {}

  /** For every clock that lags by 30 seconds or more fencing fails: two workers hold one row under equal leases, and
      the older one completes it. */
  lemma LaggingClockBreaksFencing(now: int, appNanos: nat)
    requires Lease(appNanos) <= now
    ensures var s := System(now, map[7 := Row(Pending, 0, now, None)], map[], 0, map[], map[7 := Life(0, 0)]);
            var twice := Step(Step(s, ClaimRow(7, appNanos)), ClaimRow(7, appNanos));
            && 0 in twice.held && twice.latest[7] == 1 && Holds(twice.rows, twice.held[0])
            && Step(twice, Publish(0)).rows[7].status.Done?
            && !Fenced(twice)
  {
    var s := System(now, map[7 := Row(Pending, 0, now, None)], map[], 0, map[], map[7 := Life(0, 0)]);
    var once := Step(s, ClaimRow(7, appNanos));
    var twice := Step(once, ClaimRow(7, appNanos));
    assert 0 in twice.held && !FenceOk(twice, 0);
  }

  /** A published row never changes again. */
  lemma {:induction false} PublishedIsForever(states: seq<System>, actions: seq<Action>, id: int, j: nat, n: nat)
    requires Run(states, actions) && j <= n < |states| && id in states[j].rows && states[j].rows[id].status.Done?
    ensures id in states[n].rows && states[n].rows[id] == states[j].rows[id]
    decreases n
  {
    if j < n {
      PublishedIsForever(states, actions, id, j, n - 1);
      assert states[n - 1 + 1] == Step(states[n - 1], actions[n - 1]);
    }
  }

  function ClaimSteps(s: System, page: seq<int>, appNanos: nat): System
    decreases |page|
  {
    if page == [] then s else ClaimSteps(Step(s, ClaimRow(page[0], appNanos)), page[1..], appNanos)
  }

  predicate InHand(s: System, t: System, i: nat, id: int, lease: int) {
    id in s.rows && s.issued + i in t.held && t.held[s.issued + i] == Claim(id, lease, s.rows[id].count)
  }

  /** The repository's batch is as many single claims of one clock reading, each with the next claim number. */
  lemma {:induction false} BatchIsSteps(s: System, page: seq<int>, appNanos: nat)
    requires forall i :: 0 <= i < |page| ==> page[i] in s.rows && Due(s.rows[page[i]], s.now)
    requires forall i, j :: 0 <= i < j < |page| ==> page[i] != page[j]
    ensures var t := ClaimSteps(s, page, appNanos);
            && t.rows == ClaimRows(s.rows, page, Lease(appNanos)) && t.issued == s.issued + |page|
            && (forall k :: k in s.held && k < s.issued ==> k in t.held && t.held[k] == s.held[k])
            && (forall i :: 0 <= i < |page| ==> InHand(s, t, i, page[i], Lease(appNanos)))
    decreases |page|
  {
    hide Lease, Due;
    if page != [] {
      var next, rest := Claimed(s, page[0], Lease(appNanos)), page[1..];
      assert Step(s, ClaimRow(page[0], appNanos)) == next;
      BatchIsSteps(next, rest, appNanos);
      var t := ClaimSteps(next, rest, appNanos);
      forall i | 0 <= i < |page| ensures InHand(s, t, i, page[i], Lease(appNanos)) {
        if i > 0 { assert InHand(next, t, i - 1, rest[i - 1], Lease(appNanos)); }
      }
    } else {
      assert ClaimRows(s.rows, page, Lease(appNanos)) == s.rows;
    }
  }

  // ---- how long it takes to die ----

  function BackoffSum(n: nat): int { if n == 0 then 0 else BackoffSum(n - 1) + Backoff(n) }

  lemma ElevenBackoffs()
    ensures BackoffSum(11) == 1023
    ensures forall n: nat :: 1 <= n <= 11 ==> Backoff(n) <= 256
  {
    assert Pow2(4) == 16;
    assert Pow2(8) == 256;
    assert BackoffSum(4) == 15;
    assert BackoffSum(8) == 255;
  }

  /** A failed row waits out its backoff before the next attempt. */
  predicate PatientRow(s: System, id: int)
    requires id in s.rows
  {
    var r := s.rows[id];
    id in s.lives && s.lives[id].failures == r.count
    && (r.count > 0 ==>
         var since := s.lives[id].firstAt;
         match r.status
         case Retry => r.nextRetryAt >= since + 1000 * BackoffSum(r.count)
         case Processing => s.now >= since + 1000 * BackoffSum(r.count)
         case Dead => r.count == MAX_RETRIES ==> s.now >= since + 1000 * BackoffSum(MAX_RETRIES - 1)
         case _ => true)
  }

  predicate Patient(s: System) { forall id :: id in s.rows ==> PatientRow(s, id) }

  lemma StepKeepsPatience(s: System, a: Action)
    requires Fenced(s) && Budgeted(s) && Patient(s) && NotBehind(s, a)
    ensures Patient(Step(s, a))
  {
    var t := Step(s, a);
    forall id | id in t.rows ensures PatientRow(t, id) {
      hide Backoff;
      if id in s.rows { assert PatientRow(s, id) && BudgetOk(s, id); }
      if a.Fail? && a.claim in s.held { OnlyNewestCompletes(s, a.claim); }
    }
  }

  /** With clocks that agree, a row is dead at the earliest 1023 seconds after its first failure: the sum of the eleven
      backoffs, none of which reaches the cap of 300 seconds.  Between insert or replay and death it fails exactly
      twelve times. */
  lemma {:induction false} DeathTakesTime(states: seq<System>, actions: seq<Action>, id: int, n: nat)
    requires Run(states, actions) && AllPunctual(states, actions) && n < |states|
    requires forall i :: 0 <= i < |actions| ==> NotBehind(states[i], actions[i])
    ensures Patient(states[n])
    ensures id in states[n].rows && states[n].rows[id].status.Dead? ==>
              id in states[n].lives && states[n].lives[id].failures == 12
                  && states[n].now >= states[n].lives[id].firstAt + 1_023_000
  {
    hide Fenced, Step, Punctual, NotBehind;
    RunIsFencedAndBudgeted(states, actions, n);
    ElevenBackoffs();
    if n == 0 {
      InitialIsFine(states[0]);
    } else {
      hide Budgeted, Patient;
      DeathTakesTime(states, actions, id, n - 1);
      RunIsFencedAndBudgeted(states, actions, n - 1);
      assert states[n - 1 + 1] == Step(states[n - 1], actions[n - 1]) && NotBehind(states[n - 1], actions[n - 1]);
      StepKeepsPatience(states[n - 1], actions[n - 1]);
    }
    DeadRow(states[n], id);
  }

  lemma DeadRow(s: System, id: int)
    requires Patient(s) && Budgeted(s)
    ensures id in s.rows && s.rows[id].status.Dead? ==>
              id in s.lives && s.lives[id].failures == 12 && s.now >= s.lives[id].firstAt + 1_023_000
  {
    ElevenBackoffs();
    if id in s.rows { assert PatientRow(s, id) && BudgetOk(s, id); }
  }

  // ---- progress: what each action does to a row, column by column ----

  /** A worker claims exactly a row that waits for its first or next attempt and whose time has come, or one whose lease
      has run out; the claim gets the row's count and a lease of thirty seconds. */
  lemma ClaimAnswer(s: System, id: int, appNanos: nat)
    ensures var t, lease := Step(s, ClaimRow(id, appNanos)), appNanos / 1_000_000 + 30_000;
            if id in s.rows
               && (((s.rows[id].status == Pending || s.rows[id].status == Retry) && s.rows[id].nextRetryAt <= s.now)
                   || (s.rows[id].status == Processing && s.rows[id].lockedUntil.Some?
                       && s.rows[id].lockedUntil.value <= s.now))
            then
              && t.rows == s.rows[id := s.rows[id].(status := Processing, lockedUntil := Some(lease))]
              && t.held == s.held[s.issued := Claim(id, lease, s.rows[id].count)]
              && t.issued == s.issued + 1 && t.latest == s.latest[id := s.issued] && t.lives == s.lives
                 && t.now == s.now
            else t == s
  {}

  /** Completing a claim: PUBLISHED, or counted and put off, or DEAD at the twelfth failure; only under the claim's own
      lease. */
  lemma CompletionAnswer(s: System, k: nat, appNow: int)
    requires k in s.held
    ensures var c := s.held[k];
            var published, failed := Step(s, Publish(k)).rows, Step(s, Fail(k, appNow)).rows;
            if c.id in s.rows && s.rows[c.id].status == Processing && s.rows[c.id].lockedUntil == Some(c.lease)
            then
              && published == s.rows[c.id := s.rows[c.id].(status := Done, lockedUntil := None)]
              && failed == s.rows[c.id := if c.count + 1 >= 12
                                          then s.rows[c.id].(status := Dead, count := c.count + 1, lockedUntil := None)
                                          else s.rows[c.id].(status := Retry, count := c.count + 1, lockedUntil := None,
                                                             nextRetryAt := appNow + 1000 * WaitSeconds(c.count + 1))]
            else published == s.rows && failed == s.rows
  {
    BackoffTable(s.held[k].count + 1);
    hide Backoff, WaitSeconds;
  }

  /** Only a DEAD row is replayed; it waits again at once and starts with no failures. */
  lemma ReplayAnswer(s: System, id: int)
    ensures Step(s, Replay(id)) ==
            if id in s.rows && s.rows[id].status == Dead
            then s.(rows := s.rows[id := Row(Pending, 0, s.now, None)], lives := s.lives[id := Life(0, 0)]) else s
  {}

  function After(s: System, actions: seq<Action>): System
    decreases |actions|
  {
    if actions == [] then s else Step(After(s, actions[..|actions| - 1]), actions[|actions| - 1])
  }

  function Failures(actions: seq<Action>): nat
    decreases |actions|
  {
    if actions == [] then 0
    else Failures(actions[..|actions| - 1]) + if actions[|actions| - 1].Fail? then 1 else 0
  }

  /** Attempts on one row by workers whose clock is the database's. */
  predicate Attempt(s: System, a: Action, id: int) {
    match a
    case Tick(_) => true
    case ClaimRow(i, appNanos) => i == id && appNanos == 1_000_000 * s.now
    case Fail(_, appNow) => appNow == s.now
    case _ => false
  }

  predicate Attempts(s: System, actions: seq<Action>, id: int) {
    forall i :: 0 <= i < |actions| ==> Attempt(After(s, actions[..i]), actions[i], id)
  }

  lemma {:induction false} OneMore(s: System, actions: seq<Action>, a: Action, id: int)
    requires Attempts(s, actions, id) && Attempt(After(s, actions), a, id)
    ensures var longer := actions + [a];
            && After(s, longer) == Step(After(s, actions), a) && Attempts(s, longer, id)
            && Failures(longer) == Failures(actions) + if a.Fail? then 1 else 0
  {
    var longer := actions + [a];
    assert longer[..|actions|] == actions;
    forall i | 0 <= i < |longer| ensures Attempt(After(s, longer[..i]), longer[i], id) {
      if i < |actions| { assert longer[..i] == actions[..i]; }
    }
  }

  predicate Waiting(s: System, id: int, k: nat) {
    && s.now >= 0 && id in s.rows && s.rows[id].count == k
    && if k == 0 then s.rows[id].status == Pending
       else if k < 12 then s.rows[id].status == Retry
       else s.rows[id].status == Dead
  }

  function WaitFor(s: System, id: int): nat
    requires id in s.rows
  {
    if s.rows[id].nextRetryAt > s.now then s.rows[id].nextRetryAt - s.now else 0
  }

  lemma OneFailure(s: System, id: int, k: nat)
    requires Waiting(s, id, k) && k < 12
    ensures var due := Step(s, Tick(WaitFor(s, id)));
            var claimed := Step(due, ClaimRow(id, 1_000_000 * due.now));
            && due.now >= 0 && due.issued == s.issued && claimed.now == due.now
            && Waiting(Step(claimed, Fail(s.issued, due.now)), id, k + 1)
  {
    var due := Step(s, Tick(WaitFor(s, id)));
    ClaimAnswer(due, id, 1_000_000 * due.now);
    CompletionAnswer(Step(due, ClaimRow(id, 1_000_000 * due.now)), s.issued, due.now);
    hide WaitSeconds;
  }

  /** From every waiting row a run of claims and failures ends DEAD, after exactly twelve failures. */
  lemma {:induction false} DeathIsReached(s: System, id: int, k: nat) returns (actions: seq<Action>)
    requires Waiting(s, id, 0) && k <= 12
    ensures Attempts(s, actions, id) && Failures(actions) == k && Waiting(After(s, actions), id, k)
    decreases k
  {
    if k == 0 {
      actions := [];
    } else {
      actions := DeathIsReached(s, id, k - 1);
      var t := After(s, actions);
      OneFailure(t, id, k - 1);
      var due := Step(t, Tick(WaitFor(t, id)));
      hide Step, Waiting, Attempts, After;
      OneMore(s, actions, Tick(WaitFor(t, id)), id);
      actions := actions + [Tick(WaitFor(t, id))];
      OneMore(s, actions, ClaimRow(id, 1_000_000 * due.now), id);
      actions := actions + [ClaimRow(id, 1_000_000 * due.now)];
      OneMore(s, actions, Fail(t.issued, due.now), id);
      actions := actions + [Fail(t.issued, due.now)];
    }
  }

  /** And one claim that is published ends it. */
  lemma PublicationIsReached(s: System, id: int)
    requires s.now >= 0 && id in s.rows && (s.rows[id].status == Pending || s.rows[id].status == Retry)
    ensures var wait := if s.rows[id].nextRetryAt > s.now then s.rows[id].nextRetryAt - s.now else 0;
            var due := Step(s, Tick(wait));
            Step(Step(due, ClaimRow(id, 1_000_000 * due.now)), Publish(s.issued)).rows
            == s.rows[id := s.rows[id].(status := Done, lockedUntil := None)]
  {
    var wait := if s.rows[id].nextRetryAt > s.now then s.rows[id].nextRetryAt - s.now else 0;
    var due := Step(s, Tick(wait));
    ClaimAnswer(due, id, 1_000_000 * due.now);
    CompletionAnswer(Step(due, ClaimRow(id, 1_000_000 * due.now)), s.issued, 0);
  }
}
