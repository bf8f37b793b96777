/** How a delivery whose failure is recorded late makes 23 attempts of one settlement fail. */
module LateRecord {
  import opened Model
  import opened CommissionMath
  import opened OrderSpec
  import opened Invariants
  import opened OrderTheorems
  import opened PaymentSpec
  import opened PaymentSteps
  import opened PaymentTheorems
  import opened OrderSteps
  import opened Lifecycle
  import opened Runs
  import opened RetryHistory
  import opened SettleBudget

  /** A configuration under which settlement of this order cannot succeed. */
  predicate Unusable(c: Config, db: Db, id: int) {
    id in db.orders && (!InRange(db.orders[id].reward, c.rate) || !IsPlatform(c, db.users, c.platform))
  }

  predicate Retrying(db: Db, id: int, cols: Columns) {
    id in db.orders && db.orders[id].status.Delivered? && db.orders[id].deliveredAt.Some? && ColumnsOf(db, id) == cols
  }

  /** The columns after k failed attempts: eleven of the job, the delivery's own, eleven of the job. */
  function Worst(k: nat): Columns {
    if k <= 11 then Columns(k, false) else if k < 23 then Columns(k - 11, false) else Columns(11, true)
  }

  /** Long enough for the order to be due again. */
  function Wait(o: Order, now: int): nat {
    var sinceDelivery := if o.deliveredAt.Some? then o.deliveredAt.value + 1001 - now else 0;
    var untilRetry := if o.nextRetryAt.Some? then o.nextRetryAt.value - now else 0;
    var ms := if sinceDelivery < untilRetry then untilRetry else sinceDelivery;
    if ms < 0 then 0 else ms
  }

  function FailLabel(id: int, k: nat, now: int): Label {
    if k == 11 then DeliverFailed(id, now) else JobFailed(id, now)
  }

  // ---- one attempt ----

  lemma WaitingMakesDue(db: Db, id: int, k: nat)
    requires k < 23 && Retrying(db, id, Worst(k))
    ensures var later := db.(now := db.now + Wait(db.orders[id], db.now));
            Retrying(later, id, Worst(k)) && DueForRetry(later.orders[id], later.now)
  {}

  lemma FailureKeepsFields(db: Db, id: int, count: nat, next: int)
    requires id in db.orders
    ensures var d := RecordSettlementFailure(db, id, count, next);
            d.users == db.users && id in d.orders && d.orders[id].deliveredAt == db.orders[id].deliveredAt
                && d.orders[id].reward == db.orders[id].reward
  {
    var o := db.orders[id];
    if o.status.Delivered? {
      var p := o.(retryCount := count, nextRetryAt := Some(next));
      assert RecordSettlementFailure(db, id, count, next) == db.(orders := db.orders[id := p]);
      hide RecordSettlementFailure;
      assert db.orders[id := p][id] == p;
    }
  }

  lemma DeadKeepsFields(db: Db, id: int)
    requires id in db.orders
    ensures var d := MarkSettlementDead(db, id);
            d.users == db.users && id in d.orders && d.orders[id].deliveredAt == db.orders[id].deliveredAt
                && d.orders[id].reward == db.orders[id].reward
  {
    var o := db.orders[id];
    if o.status.Delivered? {
      var p := o.(settlementDead := true);
      assert MarkSettlementDead(db, id) == db.(orders := db.orders[id := p]);
      hide MarkSettlementDead;
      assert db.orders[id := p][id] == p;
    }
  }

  lemma AttemptFails(cfg: Config, db: Db, id: int, k: nat, now: int, snap: nat)
    requires k < 23 && Retrying(db, id, Worst(k)) && DueForRetry(db.orders[id], db.now)
    ensures MarkOf(db, db, Event(FailLabel(id, k, now), snap, cfg), id) == if k == 11 then ByDelivery else ByJob(snap)
    ensures var d := Exec(cfg, db, db, FailLabel(id, k, now));
            Retrying(d, id, Worst(k + 1)) && d.users == db.users && d.orders[id].reward == db.orders[id].reward
  {
    hide RecordSettlementFailure, MarkSettlementDead, Backoff, DueForRetry, RetryMoves;
    var l := FailLabel(id, k, now);
    StepRetry(cfg, db, db, l, id);
    StepColumns(cfg, db, db, Event(l, snap, cfg), id);
    AttemptIsRecorded(cfg, db, id, l);
    DeadKeepsFields(db, id);
    var count := db.orders[id].retryCount + 1;
    FailureKeepsFields(db, id, 1, now + 1000);
    FailureKeepsFields(db, id, count, now + 1000 * Backoff(count));
  }

  lemma AttemptIsRecorded(cfg: Config, db: Db, id: int, l: Label)
    requires id in db.orders && db.orders[id].status.Delivered? && DueForRetry(db.orders[id], db.now)
    requires (l.JobFailed? || l.DeliverFailed?) && l.id == id
    ensures id in Exec(cfg, db, db, l).orders && Exec(cfg, db, db, l).orders[id].status.Delivered?
  {
    hide Exec, DueForRetry;
    StepRetry(cfg, db, db, l, id);
  }

  // ---- longer runs ----

  lemma {:induction false} PushRun(platform: int, tr: seq<Db>, evs: seq<Event>, e: Event)
    requires Run(platform, tr, evs) && e.snap == |evs| && e.cfg.platform == platform
    ensures Run(platform, tr + [Exec(e.cfg, tr[|evs|], tr[|evs|], e.step)], evs + [e])
  {
    hide Exec, Initial;
  }

  lemma {:induction false} PushMarks(tr: seq<Db>, evs: seq<Event>, d: Db, e: Event, id: int)
    requires |tr| == |evs| + 1 && e.snap == |evs|
    ensures MarksIn(tr + [d], evs + [e], id) == MarksIn(tr, evs, id) + [MarkOf(tr[|evs|], tr[|evs|], e, id)]
  {
    hide MarkOf;
  }

  lemma {:induction false} FailuresOfPrefix(marks: seq<Mark>, m: Mark, n: nat)
    requires n <= |marks|
    ensures Failures(marks + [m], n) == Failures(marks, n)
  {
    if n > 0 { FailuresOfPrefix(marks, m, n - 1); }
  }

  lemma {:induction false} PushReader(marks: seq<Mark>, m: Mark)
    requires OneReader(marks) && (m.ByJob? ==> m.query == |marks|)
    ensures OneReader(marks + [m]) && Failures(marks + [m], |marks| + 1) == Failures(marks, |marks|) + if m.Quiet?
            then 0 else 1
  {
    FailuresOfPrefix(marks, m, |marks|);
  }

  lemma {:induction false} PushRecords(tr: seq<Db>, evs: seq<Event>, d: Db, e: Event, id: int, j: nat)
    requires |tr| == |evs| + 1 && RecordsFollowDelivery(tr, evs, id)
    requires e.step.DeliverFailed? && e.step.id == id ==> RecordOf(tr + [d], evs + [e], id, j, |evs|)
    ensures RecordsFollowDelivery(tr + [d], evs + [e], id)
  {
    var tr', evs' := tr + [d], evs + [e];
    forall i: nat | i < |evs'| && RecordsAt(evs', id, i) ensures exists c :: RecordOf(tr', evs', id, c, i) {
      if i < |evs| {
        assert RecordsAt(evs, id, i);
        var c: nat :| RecordOf(tr, evs, id, c, i);
        assert tr'[c] == tr[c] && forall k: nat :: c < k < i ==> RecordsAt(evs', id, k) == RecordsAt(evs, id, k);
        assert RecordOf(tr', evs', id, c, i);
      }
    }
  }

  /** A failed attempt of the extension, or the clock. */
  predicate Attempted(tr: seq<Db>, evs: seq<Event>, id: int, bad: Config, i: nat) {
    && |tr| == |evs| + 1 && i < |evs| && evs[i].cfg == bad
    && (evs[i].step.Tick? || ((evs[i].step.JobFailed? || evs[i].step.DeliverFailed?) && evs[i].step.id == id
                              && Settlement(tr[i], bad, id).Abort?))
  }

  ghost predicate WasDelivered(tr: seq<Db>, evs: seq<Event>, id: int) {
    |tr| == |evs| + 1 && exists d: nat :: d < |evs| && DeliversAt(tr, evs, id, d)
  }

  /** A run with the delivery in it, extended from step `first` by failed attempts. */
  ghost predicate Built(platform: int, first: nat, tr: seq<Db>, evs: seq<Event>, id: int, bad: Config) {
    && Run(platform, tr, evs) && WasDelivered(tr, evs, id)
    && Unusable(bad, tr[|evs|], id) && RecordsFollowDelivery(tr, evs, id) && OneReader(MarksIn(tr, evs, id))
    && forall i :: first <= i < |evs| ==> Attempted(tr, evs, id, bad, i)
  }

  ghost predicate NoneRecorded(evs: seq<Event>, id: int) { forall i :: 0 <= i < |evs| ==> !RecordsAt(evs, id, i) }

  lemma {:induction false} PushStep(platform: int, first: nat, tr: seq<Db>, evs: seq<Event>, id: int, bad: Config,
                                    e: Event)
    requires Built(platform, first, tr, evs, id, bad) && e.snap == |evs| && e.cfg == bad && bad.platform == platform
    requires var d := Exec(bad, tr[|evs|], tr[|evs|], e.step);
             Unusable(bad, d, id) && Attempted(tr + [d], evs + [e], id, bad, |evs|)
    requires e.step.DeliverFailed? ==> NoneRecorded(evs, id)
    ensures Built(platform, first, tr + [Exec(bad, tr[|evs|], tr[|evs|], e.step)], evs + [e], id, bad)
  {
    var d := Exec(bad, tr[|evs|], tr[|evs|], e.step);
    var tr', evs' := tr + [d], evs + [e];
    PushRun(platform, tr, evs, e);
    hide Run, Exec, Unusable, MarkOf;
    assert |tr| == |evs| + 1;
    PushMarks(tr, evs, d, e, id);
    QueryIsNow(tr[|evs|], e, id);
    PushReader(MarksIn(tr, evs, id), MarkOf(tr[|evs|], tr[|evs|], e, id));
    PushDelivery(tr, evs, d, e, id);
    hide MarksIn, OneReader, RecordsFollowDelivery, WasDelivered;
    assert tr'[|evs'|] == d;
    forall i | first <= i < |evs'| ensures Attempted(tr', evs', id, bad, i) {
      if i < |evs| { assert Attempted(tr, evs, id, bad, i); }
    }
  }

  lemma {:induction false} PushDelivery(tr: seq<Db>, evs: seq<Event>, d: Db, e: Event, id: int)
    requires WasDelivered(tr, evs, id) && RecordsFollowDelivery(tr, evs, id)
             && (e.step.DeliverFailed? ==> NoneRecorded(evs, id))
    ensures WasDelivered(tr + [d], evs + [e], id) && RecordsFollowDelivery(tr + [d], evs + [e], id)
  {
    var tr', evs' := tr + [d], evs + [e];
    var j: nat :| j < |evs| && DeliversAt(tr, evs, id, j);
    assert DeliversAt(tr', evs', id, j);
    if e.step.DeliverFailed? {
      assert forall k: nat :: k < |evs| ==> RecordsAt(evs', id, k) == RecordsAt(evs, id, k);
      assert RecordOf(tr', evs', id, j, |evs|);
    }
    PushRecords(tr, evs, d, e, id, j);
  }

  lemma {:induction false} QueryIsNow(db: Db, e: Event, id: int)
    ensures MarkOf(db, db, e, id).ByJob? ==> MarkOf(db, db, e, id).query == e.snap
  {}

  lemma SettlementFails(bad: Config, db: Db, id: int)
    requires Inv(bad, db) && Unusable(bad, db, id) && db.orders[id].status.Delivered?
    ensures Settlement(db, bad, id).Abort?
  {
    hide Inv, Settlement;
    SettlementOutcome(bad, db, id);
  }

  /** k attempts have failed, and the delivery's own is the twelfth. */
  ghost predicate Counted(tr: seq<Db>, evs: seq<Event>, id: int, k: nat) {
    && |tr| == |evs| + 1 && Retrying(tr[|evs|], id, Worst(k))
    && Failures(MarksIn(tr, evs, id), |evs|) == k && (k <= 11 ==> NoneRecorded(evs, id))
  }

  /** k attempts have failed, all since step `first`. */
  ghost predicate Failed(first: nat, tr: seq<Db>, evs: seq<Event>, id: int, bad: Config, k: nat) {
    Built(bad.platform, first, tr, evs, id, bad) && Counted(tr, evs, id, k)
  }

  /** The next marks and failures of a run that goes on with one event. */
  lemma {:induction false} PushFailures(tr: seq<Db>, evs: seq<Event>, e: Event, id: int, d: Db)
    requires |tr| == |evs| + 1 && e.snap == |evs| && OneReader(MarksIn(tr, evs, id))
    ensures Failures(MarksIn(tr + [d], evs + [e], id), |evs| + 1)
            == Failures(MarksIn(tr, evs, id), |evs|) + if MarkOf(tr[|evs|], tr[|evs|], e, id).Quiet? then 0 else 1
  {
    hide Exec, MarkOf;
    QueryIsNow(tr[|evs|], e, id);
    PushMarks(tr, evs, d, e, id);
    PushReader(MarksIn(tr, evs, id), MarkOf(tr[|evs|], tr[|evs|], e, id));
  }

  lemma {:induction false} PushCount(tr: seq<Db>, evs: seq<Event>, id: int, k: nat, e: Event, d: Db)
    requires Counted(tr, evs, id, k) && e.snap == |evs| && OneReader(MarksIn(tr, evs, id))
    requires var next := if MarkOf(tr[|evs|], tr[|evs|], e, id).Quiet? then k else k + 1;
             Retrying(d, id, Worst(next)) && (next <= 11 ==> !e.step.DeliverFailed?)
    ensures Counted(tr + [d], evs + [e], id, if MarkOf(tr[|evs|], tr[|evs|], e, id).Quiet? then k else k + 1)
  {
    PushFailures(tr, evs, e, id, d);
    hide MarkOf, Retrying, Worst, MarksIn, OneReader, Failures;
    assert (tr + [d])[|evs| + 1] == d && |evs + [e]| == |evs| + 1;
    if k <= 11 && !e.step.DeliverFailed? {
      forall i | 0 <= i < |evs| + 1 ensures !RecordsAt(evs + [e], id, i) {
        if i < |evs| { assert !RecordsAt(evs, id, i); }
      }
    }
  }

  /** Wait until the order is due. */
  lemma {:induction false} OneWait(first: nat, tr: seq<Db>, evs: seq<Event>, id: int, bad: Config, k: nat)
      returns (tr': seq<Db>, evs': seq<Event>)
    requires Failed(first, tr, evs, id, bad, k) && k < 23
    ensures Failed(first, tr', evs', id, bad, k) && tr <= tr' && evs <= evs'
            && DueForRetry(tr'[|evs'|].orders[id], tr'[|evs'|].now)
  {
    var db := tr[|evs|];
    var e := Event(Tick(Wait(db.orders[id], db.now)), |evs|, bad);
    WaitingMakesDue(db, id, k);
    assert OneReader(MarksIn(tr, evs, id)) && Unusable(bad, db, id);
    hide Built, Counted, Run, Exec, MarkOf, Retrying, DueForRetry, Worst, MarksIn, Unusable, OneReader;
    WaitIsQuiet(bad, db, e, id);
    PushStep(bad.platform, first, tr, evs, id, bad, e);
    PushCount(tr, evs, id, k, e, Exec(bad, db, db, e.step));
    tr', evs' := tr + [Exec(bad, db, db, e.step)], evs + [e];
  }

  /** What the next attempt does. */
  lemma {:induction false} FailureReady(first: nat, tr: seq<Db>, evs: seq<Event>, id: int, bad: Config, k: nat)
    requires Failed(first, tr, evs, id, bad, k) && k < 23 && DueForRetry(tr[|evs|].orders[id], tr[|evs|].now)
    ensures var db := tr[|evs|];
            var e := Event(FailLabel(id, k, db.now), |evs|, bad);
            var after := Exec(bad, db, db, e.step);
            && !MarkOf(db, db, e, id).Quiet? && Retrying(after, id, Worst(k + 1)) && Unusable(bad, after, id)
               && Settlement(db, bad, id).Abort?
  {
    var db := tr[|evs|];
    assert Retrying(db, id, Worst(k)) && Unusable(bad, db, id);
    BuiltState(bad.platform, first, tr, evs, id, bad);
    hide Built, Counted, Exec, MarkOf, DueForRetry, Worst, MarksIn, OneReader, Settlement, Inv;
    AttemptFails(bad, db, id, k, db.now, |evs|);
    RetryingFields(db, Exec(bad, db, db, FailLabel(id, k, db.now)), id, Worst(k), Worst(k + 1), bad);
    SettlementFails(bad, db, id);
  }

  /** Then fail. */
  lemma {:induction false} OneFailure(first: nat, tr: seq<Db>, evs: seq<Event>, id: int, bad: Config, k: nat)
      returns (tr': seq<Db>, evs': seq<Event>)
    requires Failed(first, tr, evs, id, bad, k) && k < 23 && DueForRetry(tr[|evs|].orders[id], tr[|evs|].now)
    ensures Failed(first, tr', evs', id, bad, k + 1) && tr <= tr' && evs <= evs'
  {
    var db := tr[|evs|];
    var e := Event(FailLabel(id, k, db.now), |evs|, bad);
    var after := Exec(bad, db, db, e.step);
    FailureReady(first, tr, evs, id, bad, k);
    assert OneReader(MarksIn(tr, evs, id)) && (k <= 11 ==> NoneRecorded(evs, id));
    hide Built, Counted, Run, Exec, MarkOf, Retrying, DueForRetry, Worst, MarksIn, Unusable, OneReader, Settlement;
    PushStep(bad.platform, first, tr, evs, id, bad, e);
    PushCount(tr, evs, id, k, e, after);
    tr', evs' := tr + [after], evs + [e];
  }

  lemma {:induction false} ManyFailures(first: nat, tr: seq<Db>, evs: seq<Event>, id: int, bad: Config, k: nat)
      returns (tr': seq<Db>, evs': seq<Event>)
    requires Failed(first, tr, evs, id, bad, 0) && k <= 23
    ensures Failed(first, tr', evs', id, bad, k) && tr <= tr' && evs <= evs'
  {
    hide Failed;
    if k == 0 {
      tr', evs' := tr, evs;
    } else {
      tr', evs' := ManyFailures(first, tr, evs, id, bad, k - 1);
      tr', evs' := OneWait(first, tr', evs', id, bad, k - 1);
      tr', evs' := OneFailure(first, tr', evs', id, bad, k - 1);
    }
  }

  lemma WaitIsQuiet(bad: Config, db: Db, e: Event, id: int)
    requires e.step.Tick? && Unusable(bad, db, id)
    ensures Exec(bad, db, db, e.step) == db.(now := db.now + e.step.ms) && MarkOf(db, db, e, id).Quiet?
            && Unusable(bad, Exec(bad, db, db, e.step), id)
  {}

  lemma {:induction false} BuiltState(platform: int, first: nat, tr: seq<Db>, evs: seq<Event>, id: int, bad: Config)
    requires Built(platform, first, tr, evs, id, bad) && bad.platform == platform
    ensures Inv(bad, tr[|evs|])
  {
    RunKeepsInv(bad, tr, evs, |evs|);
  }

  lemma RetryingFields(db: Db, after: Db, id: int, cols: Columns, next: Columns, bad: Config)
    requires Retrying(db, id, cols) && Retrying(after, id, next) && Unusable(bad, db, id)
    requires after.users == db.users && after.orders[id].reward == db.orders[id].reward
    ensures db.orders[id].status.Delivered? && Unusable(bad, after, id)
  {}

  // ---- from any untried delivery ----

  /** DELIVERED, and no attempt to settle has been recorded. */
  predicate AwaitsSettlement(db: Db, id: int) {
    id in db.orders && db.orders[id].status.Delivered? && Untried(db.orders[id])
  }

  lemma {:induction false} SomeHandOver(tr: seq<Db>, evs: seq<Event>, id: int, n: nat) returns (j: nat)
    requires |tr| == |evs| + 1 && n <= |evs| && Count(tr, evs, id, Hand, n) > 0
    ensures j < n && DeliversAt(tr, evs, id, j)
  {
    if Happens(evs[n - 1].cfg, tr[n - 1], evs[n - 1].step, id, Hand) { j := n - 1; } else {
      j := SomeHandOver(tr, evs, id, n - 1);
    }
  }

  lemma {:induction false} HandOversCount(tr: seq<Db>, evs: seq<Event>, id: int, j: nat, n: nat)
    requires |tr| == |evs| + 1 && j < n <= |evs| && DeliversAt(tr, evs, id, j)
    ensures Count(tr, evs, id, Hand, n) > 0
    decreases n
  {
    if j < n - 1 { HandOversCount(tr, evs, id, j, n - 1); }
  }

  /** An order that is DELIVERED in the end was so ever since its delivery. */
  lemma {:induction false} DeliveredSince(cfg: Config, tr: seq<Db>, evs: seq<Event>, id: int, j: nat, i: nat)
    requires Run(cfg.platform, tr, evs) && j < i < |evs| && DeliversAt(tr, evs, id, j)
    requires id in tr[|evs|].orders && tr[|evs|].orders[id].status.Delivered?
    ensures id in tr[i].orders && tr[i].orders[id].status.Delivered?
  {
    assert |tr| == |evs| + 1;
    hide Run, DeliversAt, Count, Changes;
    HandOversCount(tr, evs, id, j, i);
    LifeOfOrder(cfg, tr, evs, id, i);
    assert id in tr[i].orders && Reached(tr[i].orders[id], Hand);
    OrderNeverLooksBack(cfg, tr, evs, id, i, |evs|);
  }

  lemma {:induction false} UntriedIsUnrecorded(cfg: Config, tr: seq<Db>, evs: seq<Event>, id: int)
    requires Run(cfg.platform, tr, evs) && RecordsFollowDelivery(tr, evs, id) && Retrying(tr[|evs|], id, Worst(0))
    ensures NoneRecorded(evs, id) && OneReader(MarksIn(tr, evs, id)) && Failures(MarksIn(tr, evs, id), |evs|) == 0
  {
    var marks := MarksIn(tr, evs, id);
    RunIsRetryHistory(cfg, tr, evs, id);
    UntriedIsQuiet(ColumnsIn(tr, id), marks, |evs|);
    FailuresGrow(marks, 0, |evs|);
    assert |tr| == |evs| + 1 && OneReader(marks);
    forall i: nat | i < |evs| ensures !RecordsAt(evs, id, i) {
      assert marks[i].Quiet?;
      if RecordsAt(evs, id, i) {
        var j: nat :| RecordOf(tr, evs, id, j, i);
        DeliveredSince(cfg, tr, evs, id, j, i);
        assert false;
      }
    }
  }

  lemma {:induction false} NothingFailedYet(cfg: Config, tr: seq<Db>, evs: seq<Event>, id: int, bad: Config)
    requires Run(cfg.platform, tr, evs) && RecordsFollowDelivery(tr, evs, id) && AwaitsSettlement(tr[|evs|], id)
    requires bad.platform == cfg.platform && Unusable(bad, tr[|evs|], id)
    ensures Failed(|evs|, tr, evs, id, bad, 0)
  {
    UntriedRetries(cfg, tr, evs, id);
    UntriedIsUnrecorded(cfg, tr, evs, id);
    StartsBuilt(cfg, tr, evs, id, bad);
    hide Run, MarksIn, Failures, Unusable, OneReader, DeliversAt, RecordsFollowDelivery, Attempted, Retrying, Worst,
         RecordsAt, Built;
  }

  lemma {:induction false} UntriedRetries(cfg: Config, tr: seq<Db>, evs: seq<Event>, id: int)
    requires Run(cfg.platform, tr, evs) && AwaitsSettlement(tr[|evs|], id)
    ensures |tr| == |evs| + 1 && Retrying(tr[|evs|], id, Worst(0))
  {
    RunKeepsInv(cfg, tr, evs, |evs|);
    hide Inv, Run;
    OrderIsOk(cfg, tr[|evs|], id);
  }

  lemma {:induction false} StartsBuilt(cfg: Config, tr: seq<Db>, evs: seq<Event>, id: int, bad: Config)
    requires Run(cfg.platform, tr, evs) && RecordsFollowDelivery(tr, evs, id) && id in tr[|evs|].orders
             && tr[|evs|].orders[id].status.Delivered?
    requires Unusable(bad, tr[|evs|], id) && OneReader(MarksIn(tr, evs, id))
    ensures Built(cfg.platform, |evs|, tr, evs, id, bad)
  {
    assert |tr| == |evs| + 1;
    hide Run, MarksIn, Unusable, OneReader, DeliversAt, RecordsFollowDelivery, Attempted, Count, Changes;
    LifeOfOrder(cfg, tr, evs, id, |evs|);
    assert Reached(tr[|evs|].orders[id], Hand);
    var j := SomeHandOver(tr, evs, id, |evs|);
  }

  /** Counterexample to "at most twelve failed attempts": from every reachable state with a delivered, untried order,
      and under any configuration of the same platform whose rate or platform user is unusable, the run goes on to a
      state in which 23 attempts of one retry job and the delivery have failed before the order is dead; the steps added
      are the clock, failed attempts of the job, and the delivery's own late record, each in a state in which settlement
      does fail. */
  lemma {:induction false} LateRecordCostsEleven(cfg: Config, tr: seq<Db>, evs: seq<Event>, id: int, bad: Config)
      returns (tr': seq<Db>, evs': seq<Event>)
    requires Run(cfg.platform, tr, evs) && RecordsFollowDelivery(tr, evs, id) && AwaitsSettlement(tr[|evs|], id)
    requires bad.platform == cfg.platform && Unusable(bad, tr[|evs|], id)
    ensures Run(cfg.platform, tr', evs') && tr <= tr' && evs <= evs'
    ensures OneReader(MarksIn(tr', evs', id)) && RecordsFollowDelivery(tr', evs', id)
    ensures forall i :: |evs| <= i < |evs'| ==> Attempted(tr', evs', id, bad, i)
    ensures Failures(MarksIn(tr', evs', id), |evs'|) == 23 && ColumnsOf(tr'[|evs'|], id) == Columns(11, true)
  {
    NothingFailedYet(cfg, tr, evs, id, bad);
    hide Failed, Run, MarksIn, Failures, Unusable, OneReader, DeliversAt, RecordsFollowDelivery, Attempted, Retrying,
         Worst, AwaitsSettlement;
    tr', evs' := ManyFailures(|evs|, tr, evs, id, bad, 23);
    AllFailed(|evs|, tr', evs', id, bad);
  }

  lemma {:induction false} AllFailed(first: nat, tr: seq<Db>, evs: seq<Event>, id: int, bad: Config)
    requires Failed(first, tr, evs, id, bad, 23)
    ensures Run(bad.platform, tr, evs) && OneReader(MarksIn(tr, evs, id)) && RecordsFollowDelivery(tr, evs, id)
    ensures forall i :: first <= i < |evs| ==> Attempted(tr, evs, id, bad, i)
    ensures Failures(MarksIn(tr, evs, id), |evs|) == 23 && ColumnsOf(tr[|evs|], id) == Columns(11, true)
  {
    hide Run, MarksIn, Failures, Unusable, OneReader, DeliversAt, RecordsFollowDelivery, Attempted;
  }

  // ---- and a delivery does happen ----

  const PUBLISHER: int := MINT_ID + 1
  const TAKER: int := MINT_ID + 2

  function Seed(): Db {
    Db(0, map[MINT_ID := MintRole], map[Account(MINT_ID, Available) := 0, Account(MINT_ID, Frozen) := 0],
       map[], map[], map[], {}, map[], map[], map[], map[], map[], {})
  }

  lemma SeedIsInitial()
    ensures Initial(Seed())
  {
    forall a: Account ensures a in Seed().accounts <==> a.user == MINT_ID {
      match a.kind case Available => case Frozen =>
    }
  }

  /** Every step is taken under one configuration and sees the current state. */
  ghost predicate Steps(cfg: Config, tr: seq<Db>, labels: seq<Label>) {
    |tr| == |labels| + 1 && forall i :: 0 <= i < |labels| ==> tr[i + 1] == Exec(cfg, tr[i], tr[i], labels[i])
  }

  lemma StepInv(cfg: Config, db: Db, l: Label)
    requires Inv(cfg, db)
    ensures Inv(cfg, Exec(cfg, db, db, l))
  {
    hide Inv, Exec;
    SameClaimsIsLater(db, db);
    StepKeepsInv(cfg, db, db, l);
  }

  lemma Registers(cfg: Config, db: Db, user: int)
    requires user !in db.users
    ensures var d := Exec(cfg, db, db, NewUser(user, false));
            && d.users == db.users[user := UserRole] && d.orders == db.orders
            && d.ledger == db.ledger && d.idem == db.idem && d.events == db.events && d.recharges == db.recharges
  {}

  lemma Recharges(cfg: Config, db: Db)
    requires Inv(cfg, db) && IsBusinessUser(db.users, PUBLISHER) && db.ledger == map[] && db.idem == map[]
             && db.recharges == map[]
    ensures var d := Exec(cfg, db, db, DoRecharge(PUBLISHER, 1, None, "", 1));
            d.users == db.users && d.orders == db.orders && CanDebit(d, Account(PUBLISHER, Available), 1)
  {
    hide Inv, Earlier, RechargeKey, Credit, TransferFree;
    EarlierSelf(db);
    EmptyKeyFits();
    RechargeOutcome(cfg, db, db, PUBLISHER, 1, None, "", 1);
    MintExists(cfg, db);
    FirstIsCreditable(db, RechargeRow(PUBLISHER, 1, RechargeKey(None, "")));
    hide RechargeWallet;
    NoDebts(cfg, db, PUBLISHER);
    FirstCredit(db, 1, RechargeRow(PUBLISHER, 1, RechargeKey(None, "")));
  }

  lemma EmptyKeyFits()
    ensures KeyFits(RechargeOp(RechargeKey(None, "")))
  {}

  lemma FirstIsCreditable(db: Db, r: RechargeRow)
    requires MINT_ID in db.users && IsBusinessUser(db.users, r.user) && r.user != MINT_ID && r.amount > 0
    requires db.ledger == map[] && db.idem == map[]
    ensures Creditable(db, 1, r)
  {}

  lemma FirstCredit(db: Db, b: int, r: RechargeRow)
    requires r.user != MINT_ID && r.amount > 0 && Account(r.user, Available) in db.accounts
             && db.accounts[Account(r.user, Available)] >= 0
    ensures var d := Credit(db, b, r);
            d.users == db.users && d.orders == db.orders && CanDebit(d, Account(r.user, Available), r.amount)
  {}

  lemma NoDebts(cfg: Config, db: Db, user: int)
    requires Inv(cfg, db) && user in db.users && user != MINT_ID
    ensures Account(user, Available) in db.accounts && db.accounts[Account(user, Available)] >= 0
  {}

  predicate Small(db: Db) { 1 in db.orders && db.orders[1].reward == 1 && Untried(db.orders[1]) }

  lemma Creates(cfg: Config, db: Db)
    requires Inv(cfg, db) && IsBusinessUser(db.users, PUBLISHER) && db.orders == map[]
             && CanDebit(db, Account(PUBLISHER, Available), 1)
    requires 0 < cfg.claimTtlSeconds <= 86400
    ensures var d := Exec(cfg, db, db, DoCreate(1, PUBLISHER, 1, None));
            d.users == db.users && Claimable(d, 1, TAKER) && Small(d)
  {
    hide Inv, Create;
    CreateOutcome(cfg, db, 1, PUBLISHER, 1, None);
    CreateOrders(cfg, db, 1, PUBLISHER, 1, None);
    CreateKeepsClock(cfg, db, 1, PUBLISHER, 1, None);
  }

  lemma CreateKeepsClock(cfg: Config, db: Db, id: int, publisher: int, reward: int, ttl: Option<int>)
    ensures var r := Create(db, cfg, id, publisher, reward, ttl);
            r.Commit? ==> r.db.users == db.users && r.db.now == db.now
  {}

  lemma Grabs(cfg: Config, db: Db)
    requires Inv(cfg, db) && IsBusinessUser(db.users, TAKER) && Claimable(db, 1, TAKER) && Small(db)
             && 0 < cfg.deliverTtlSeconds
    ensures var d := Exec(cfg, db, db, DoGrab(1, TAKER)); Deliverable(d, 1, TAKER) && Small(d)
  {
    hide Inv;
    GrabOutcome(cfg, db, 1, TAKER);
    GrabOrders(cfg, db, 1, TAKER);
    GrabKeepsClock(cfg, db, 1, TAKER);
    hide Grab;
  }

  lemma Delivers(cfg: Config, db: Db)
    requires Deliverable(db, 1, TAKER) && Small(db)
    ensures var d := Exec(cfg, db, db, DoDeliver(1, TAKER)); AwaitsSettlement(d, 1) && Small(d)
  {}

  lemma GrabKeepsClock(cfg: Config, db: Db, id: int, taker: int)
    ensures var r := Grab(db, cfg, id, taker);
            r.Commit? ==> r.db.now == db.now && r.value == db.now + 1000 * cfg.deliverTtlSeconds
  {}

  function Story(): seq<Label> {
    [NewUser(PUBLISHER, false), NewUser(TAKER, false), DoRecharge(PUBLISHER, 1, None, "", 1),
     DoCreate(1, PUBLISHER, 1, None), DoGrab(1, TAKER), DoDeliver(1, TAKER)]
  }

  /** Under every configuration with usable times to live some run ends with a delivery. */
  lemma DeliveryHappens(cfg: Config) returns (tr: seq<Db>)
    requires 0 < cfg.claimTtlSeconds <= 86400 && 0 < cfg.deliverTtlSeconds
    ensures |tr| == 7 && tr[0] == Seed() && Steps(cfg, tr, Story()) && Deliverable(tr[5], 1, TAKER)
    ensures AwaitsSettlement(tr[6], 1) && Small(tr[6])
  {
    hide Seed, Inv, Unused, Claimable, Deliverable, CanDebit, Exec;
    var d0 := Seed();
    var d1 := Exec(cfg, d0, d0, NewUser(PUBLISHER, false));
    var d2 := Exec(cfg, d1, d1, NewUser(TAKER, false));
    SeedIsUnused(cfg);
    UsersJoin(cfg, d0);
    var d3 := Exec(cfg, d2, d2, DoRecharge(PUBLISHER, 1, None, "", 1));
    var d4 := Exec(cfg, d3, d3, DoCreate(1, PUBLISHER, 1, None));
    var d5 := Exec(cfg, d4, d4, DoGrab(1, TAKER));
    Recharges(cfg, d2);
    StepInv(cfg, d2, DoRecharge(PUBLISHER, 1, None, "", 1));
    Creates(cfg, d3);
    StepInv(cfg, d3, DoCreate(1, PUBLISHER, 1, None));
    Grabs(cfg, d4);
    Delivers(cfg, d5);
    tr := [d0, d1, d2, d3, d4, d5, Exec(cfg, d5, d5, DoDeliver(1, TAKER))];
  }

  predicate Unused(db: Db) {
    && PUBLISHER !in db.users && TAKER !in db.users
    && db.ledger == map[] && db.orders == map[] && db.idem == map[] && db.recharges == map[]
  }

  lemma SeedIsUnused(cfg: Config)
    ensures Inv(cfg, Seed()) && Unused(Seed())
  {
    hide Inv, Initial;
    SeedIsInitial();
    InitialInv(cfg, Seed());
  }

  lemma UsersJoin(cfg: Config, d0: Db)
    requires Inv(cfg, d0) && Unused(d0)
    ensures var d1 := Exec(cfg, d0, d0, NewUser(PUBLISHER, false));
            var d2 := Exec(cfg, d1, d1, NewUser(TAKER, false));
            && Inv(cfg, d2) && IsBusinessUser(d2.users, PUBLISHER) && IsBusinessUser(d2.users, TAKER)
            && d2.ledger == map[] && d2.orders == map[] && d2.idem == map[] && d2.recharges == map[]
  {
    hide Inv, Exec;
    Registers(cfg, d0, PUBLISHER);
    StepInv(cfg, d0, NewUser(PUBLISHER, false));
    var d1 := Exec(cfg, d0, d0, NewUser(PUBLISHER, false));
    Registers(cfg, d1, TAKER);
    StepInv(cfg, d1, NewUser(TAKER, false));
  }

  function EventsOf(labels: seq<Label>, cfg: Config): seq<Event> {
    seq(|labels|, i requires 0 <= i < |labels| => Event(labels[i], i, cfg))
  }

  lemma {:induction false} StepsAreARun(cfg: Config, tr: seq<Db>, labels: seq<Label>)
    requires Steps(cfg, tr, labels) && Initial(tr[0])
    ensures Run(cfg.platform, tr, EventsOf(labels, cfg))
  {
    hide Initial, Exec;
    var evs := EventsOf(labels, cfg);
    forall i | 0 <= i < |evs| ensures evs[i].snap <= i && evs[i].cfg == cfg
        && tr[i + 1] == Exec(cfg, tr[i], tr[evs[i].snap], evs[i].step) {}
  }

  /** So 23 failed attempts do happen: in a run from the seeded database in which, after the delivery, the rate is set
      out of range. */
  lemma {:induction false} TwentyThreeAttemptsFail(cfg: Config, bad: Config) returns (tr: seq<Db>, evs: seq<Event>)
    requires 0 < cfg.claimTtlSeconds <= 86400 && 0 < cfg.deliverTtlSeconds && bad.platform == cfg.platform
             && !InRange(1, bad.rate)
    ensures Run(cfg.platform, tr, evs) && OneReader(MarksIn(tr, evs, 1)) && RecordsFollowDelivery(tr, evs, 1)
    ensures Failures(MarksIn(tr, evs, 1), |evs|) == 23 && ColumnsOf(tr[|evs|], 1) == Columns(11, true)
  {
    hide Run, Exec, Failures, MarksIn, OneReader, Initial, Seed;
    SeedIsInitial();
    var happened := DeliveryHappens(cfg);
    StepsAreARun(cfg, happened, Story());
    var events := EventsOf(Story(), cfg);
    assert forall i: nat :: i < |events| ==> !RecordsAt(events, 1, i);
    tr, evs := LateRecordCostsEleven(cfg, happened, events, 1, bad);
  }
}
