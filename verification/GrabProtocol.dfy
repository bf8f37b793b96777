/** All interleavings of grabs, marker writes, crashes and Redis losses around one order.  One clock; Redis loses data
    only by expiry or by a flush of everything. */
module GrabProtocol {
  import opened Model
  import opened Marker

  /** The fixed columns of the order, and the slack of the marker's time to live. */
  datatype Info = Info(deadline: int, publisher: int, slack: int)
  {
    predicate Sound() { publisher > 0 && slack >= 1 }
  }

  /** Unborn: no row yet.  Inserted: the creating transaction holds its uncommitted row, and grabs wait for it.  Void:
      that transaction rolled back.  Closed: not PUBLISHED any more. */
  datatype Phase = Unborn | Inserted | Void | Open | Closed

  /** AtDatabase: let through by the filter, perhaps waiting for the row.  HoldingRow: the conditional update changed
      the row, not committed yet. Losing: it changed nothing.  Died: crash, rollback, lock timeout or NOT_FOUND, without
      a marker written back. */
  datatype Stage = AtDatabase | HoldingRow | Losing | Won | Finished | Died
  datatype Grab = Grab(taker: int, stage: Stage)

  /** A marker write between its two commands. */
  datatype Arm = Arm(seconds: int, torn: bool)

  /** Why there is no token: a grab consumed it, or a flush dropped it; `straddled` when a marker write then still
      set the shadow key. */
  datatype Blame = Nobody | TakenBy(grab: nat) | Flushed(straddled: bool)

  datatype State = State(now: int, phase: Phase, keys: Keys, arms: map<nat, Arm>, grabs: map<nat, Grab>,
                         holder: Option<nat>, blame: Blame)

  datatype Action =
    | Tick(ms: nat)
    | Insert
    | Born
    | CreateFails
    | Close
    | FilterBy(grab: nat, taker: int)
    | FilterLost(grab: nat, taker: int, ran: bool)
    | Cas(grab: nat)
    | Commit(grab: nat)
    | Abort(grab: nat)
    | Lose(grab: nat, writesBack: bool, appNow: int)
    | ArmFirst(arm: nat, appNow: int)
    | ArmSecond(arm: nat)
    | ArmDies(arm: nat)
    | Rearm(appNow: int)
    | Remove
    | Flush

  predicate CasAccepts(o: Info, s: State, taker: int) { s.phase.Open? && s.now < o.deadline && taker != o.publisher }

  /** The order can still be won by somebody. */
  predicate Winnable(o: Info, s: State) { s.phase.Open? && s.now < o.deadline }

  function Seconds(o: Info, appNow: int): int { TtlSeconds(appNow, o.deadline, o.slack) }

  function Consumed(s: State, k: nat, taker: int, r: (Decision, Keys)): State {
    if r.0.Pass? then s.(keys := r.1, grabs := s.grabs[k := Grab(taker, AtDatabase)], blame := TakenBy(k)) else s
  }

  /** An action that is not enabled changes nothing. */
  function Step(o: Info, s: State, a: Action): State {
    match a
    case Tick(ms) => s.(now := s.now + ms)
    case Insert => if s.phase.Unborn? then s.(phase := Inserted) else s
    case Born => if s.phase.Inserted? then s.(phase := Open) else s
    case CreateFails => if s.phase.Inserted? then s.(phase := Void) else s
    case Close => if s.phase.Open? && s.holder.None? then s.(phase := Closed) else s
    case FilterBy(k, taker) =>
      if k in s.grabs then s
      else
        var r := Filter(s.keys, s.now, taker, s.now);
        if r.0.Missing? then s.(grabs := s.grabs[k := Grab(taker, AtDatabase)]) else Consumed(s, k, taker, r)
    case FilterLost(k, taker, ran) =>
      if k in s.grabs then s
      else
        var t := s.(grabs := s.grabs[k := Grab(taker, AtDatabase)]);
        if ran then Consumed(t, k, taker, Filter(s.keys, s.now, taker, s.now)) else t
    case Cas(k) =>
      if k !in s.grabs || !s.grabs[k].stage.AtDatabase? || s.holder.Some? || s.phase.Inserted? then s
      else if s.phase.Unborn? || s.phase.Void? then Moved(s, k, Died)
      else if CasAccepts(o, s, s.grabs[k].taker) then Moved(s, k, HoldingRow).(holder := Some(k))
      else Moved(s, k, Losing)
    case Commit(k) => if s.holder == Some(k) then Moved(s, k, Won).(holder := None, phase := Closed) else s
    case Abort(k) =>
      if k !in s.grabs || s.grabs[k].stage.Won? || s.grabs[k].stage.Finished? then s
      else Moved(s, k, Died).(holder := if s.holder == Some(k) then None else s.holder)
    case Lose(k, writesBack, appNow) =>
      if k !in s.grabs || !s.grabs[k].stage.Losing? then s
      else
        var t := Moved(s, k, Finished);
        if writesBack && appNow <= s.now then WrittenBack(o, t, appNow) else t
    case ArmFirst(a, appNow) =>
      if s.phase.Unborn? || a in s.arms || appNow > s.now then s
      else
        var seconds := Seconds(o, appNow);
        s.(keys := s.keys.(stock := Some(Entry(MarkerValue(o.deadline, o.publisher), Until(s.now, seconds)))),
           arms := s.arms[a := Arm(seconds, false)], blame := Nobody)
    case ArmSecond(a) =>
      if a !in s.arms then s
      else
        s.(keys := s.keys.(known := Some(Entry("1", Until(s.now, s.arms[a].seconds)))), arms := s.arms - {a},
           blame := if s.blame == Flushed(false) then Flushed(true) else s.blame)
    case ArmDies(a) => s.(arms := s.arms - {a})
    case Rearm(appNow) => if !s.phase.Unborn? && appNow <= s.now then WrittenBack(o, s, appNow) else s
    case Remove => if s.phase.Closed? then s.(keys := Keys(None, None)) else s
    case Flush => s.(keys := Keys(None, None), arms := map a | a in s.arms ::
                     s.arms[a].(torn := true), blame := Flushed(false))
  }

  function Moved(s: State, k: nat, stage: Stage): State {
    if k in s.grabs then s.(grabs := s.grabs[k := s.grabs[k].(stage := stage)]) else s
  }

  function WrittenBack(o: Info, s: State, appNow: int): State {
    s.(keys := Rearmed(s.keys, s.now, o.deadline, o.publisher, Seconds(o, appNow)),
       blame := if Alive(s.keys.stock, s.now) then s.blame else Nobody)
  }

  predicate Initial(s: State) {
    s.phase.Unborn? && s.keys == Keys(None, None) && s.arms == map[] && s.grabs == map[] && s.holder.None?
        && s.blame.Nobody?
  }

  ghost predicate Run(o: Info, states: seq<State>, actions: seq<Action>) {
    && |states| == |actions| + 1 && Initial(states[0])
    && forall i :: 0 <= i < |actions| ==> states[i + 1] == Step(o, states[i], actions[i])
  }

  // ---- the invariant ----

  /** The marker carries the order's own deadline and publisher and outlives the deadline. */
  predicate OwnMarker(o: Info, s: State) {
    s.keys.stock.Some? ==> s.keys.stock.value.value == MarkerValue(o.deadline, o.publisher)
                           && s.keys.stock.value.expires > o.deadline
  }

  predicate GrabOk(o: Info, s: State, k: nat)
    requires k in s.grabs
  {
    var g := s.grabs[k];
    && (g.stage.HoldingRow? <==> s.holder == Some(k))
    && (g.stage.Won? ==> s.phase.Closed?)
    && (g.stage.Losing? || g.stage.Finished? ==> s.phase.Closed? || s.now >= o.deadline || g.taker == o.publisher)
  }

  predicate GrabsOk(o: Info, s: State) {
    && (forall k :: k in s.grabs ==> GrabOk(o, s, k))
    && (s.holder.Some? ==> s.holder.value in s.grabs && s.phase.Open?)
  }

  predicate BlameOk(o: Info, s: State) {
    match s.blame
    case Nobody => s.keys.stock.None? && !s.phase.Closed? ==> s.keys.known.None? && s.arms == map[]
    case TakenBy(k) => k in s.grabs && s.grabs[k].taker != o.publisher
    case Flushed(straddled) =>
      && (s.keys.stock.None? || s.phase.Closed?) && (!straddled && !s.phase.Closed? ==> s.keys.known.None?)
      && forall a :: a in s.arms ==> s.arms[a].torn
  }

  predicate Healthy(o: Info, s: State) { OwnMarker(o, s) && GrabsOk(o, s) && BlameOk(o, s) }

  /** Time to live: a marker written for a deadline still ahead outlives it. */
  lemma TtlCoversDeadline(o: Info, appNow: int, now: int)
    requires o.Sound() && appNow <= now
    ensures Until(now, Seconds(o, appNow)) > o.deadline
  {}

  lemma FilterReadsOwnMarker(o: Info, s: State, taker: int)
    requires o.Sound() && OwnMarker(o, s)
    ensures Filter(s.keys, s.now, taker, s.now) ==
            if !Alive(s.keys.stock, s.now) then (if Alive(s.keys.known, s.now) then Filtered else Missing, s.keys)
            else if taker == o.publisher then (Decision.SelfGrab, s.keys)
            else if o.deadline < s.now then (Decision.Expired, s.keys)
            else (Pass, s.keys.(stock := None))
  {
    MarkerRoundTrip(o.deadline, o.publisher);
  }

  lemma StepKeepsMarker(o: Info, s: State, a: Action)
    requires o.Sound() && OwnMarker(o, s)
    ensures OwnMarker(o, Step(o, s, a))
  {
    hide TtlSeconds, MarkerValue, Until, ParseMarker;
    FilterReads(o, s, a);
    if a.ArmFirst? || a.Rearm? || a.Lose? {
      if a.appNow <= s.now { TtlCoversDeadline(o, a.appNow, s.now); }
    }
  }

  /** The filter step of an action, if it has one, spelled out. */
  lemma FilterReads(o: Info, s: State, a: Action)
    requires o.Sound() && OwnMarker(o, s)
    ensures a.FilterBy? || a.FilterLost? ==>
              var r := Filter(s.keys, s.now, a.taker, s.now);
              r.1 == (if r.0.Pass? then s.keys.(stock := None) else s.keys) && (r.0.Pass? ==> a.taker != o.publisher)
  {
    if a.FilterBy? || a.FilterLost? { FilterReadsOwnMarker(o, s, a.taker); }
  }

  lemma StepKeepsGrabs(o: Info, s: State, a: Action)
    requires o.Sound() && GrabsOk(o, s)
    ensures GrabsOk(o, Step(o, s, a))
  {
    hide Filter, TtlSeconds, MarkerValue, Rearmed;
    var t := Step(o, s, a);
    forall k | k in t.grabs ensures GrabOk(o, t, k) {
      if k in s.grabs { assert GrabOk(o, s, k); }
    }
  }

  lemma StepKeepsBlame(o: Info, s: State, a: Action)
    requires o.Sound() && Healthy(o, s)
    ensures BlameOk(o, Step(o, s, a))
  {
    hide Filter, TtlSeconds, MarkerValue, Until;
    FilterReads(o, s, a);
  }

  /** Every step keeps the marker the order's own, the grabs accounted for and the blame right. */
  lemma {:induction false} RunIsHealthy(o: Info, states: seq<State>, actions: seq<Action>, n: nat)
    requires o.Sound() && Run(o, states, actions) && n < |states|
    ensures Healthy(o, states[n])
  {
    if n > 0 {
      hide Step, OwnMarker, GrabsOk, BlameOk;
      RunIsHealthy(o, states, actions, n - 1);
      assert states[n - 1 + 1] == Step(o, states[n - 1], actions[n - 1]);
      StepKeepsMarker(o, states[n - 1], actions[n - 1]);
      StepKeepsGrabs(o, states[n - 1], actions[n - 1]);
      StepKeepsBlame(o, states[n - 1], actions[n - 1]);
    }
  }

  // ---- the filter never locks an order out ----

  predicate LockedOut(o: Info, s: State) { Winnable(o, s) && Alive(s.keys.known, s.now) && !Alive(s.keys.stock, s.now) }

  /** Action i was a grab whose filter call consumed the token. */
  predicate ConsumesAt(s: State, a: Action, k: nat) {
    && (a.FilterBy? || (a.FilterLost? && a.ran)) && a.grab == k && k !in s.grabs
    && Filter(s.keys, s.now, a.taker, s.now).0.Pass?
  }

  predicate NoTokenSince(states: seq<State>, i: nat, n: nat)
    requires i <= n < |states|
  {
    forall j :: i < j <= n ==> states[j].keys.stock.None?
  }

  /** Grab k consumed the token in action i, and there has been none since. */
  predicate ConsumedBy(states: seq<State>, actions: seq<Action>, k: nat, i: nat, n: nat) {
    i < n < |states| && i < |actions| && ConsumesAt(states[i], actions[i], k) && NoTokenSince(states, i, n)
  }

  /** A flush in action i dropped the token, and there has been none since; only marker writes begun before it are
      open. */
  predicate FlushedAt(states: seq<State>, actions: seq<Action>, i: nat, n: nat) {
    && i < n < |states| && i < |actions| && actions[i].Flush? && NoTokenSince(states, i, n)
    && forall a :: a in states[n].arms ==> a in states[i].arms
  }

  /** The second command of marker write a in action m came after the flush of action i, its first command before. */
  predicate Straddles(states: seq<State>, actions: seq<Action>, a: nat, i: nat, m: nat, n: nat) {
    && i < m < n < |states| && m < |actions|
    && a in states[i].arms && a in states[m].arms && actions[m] == ArmSecond(a)
  }

  ghost predicate Torn(states: seq<State>, actions: seq<Action>, i: nat, n: nat) {
    exists m, a :: Straddles(states, actions, a, i, m, n)
  }

  ghost predicate FlushExplains(states: seq<State>, actions: seq<Action>, i: nat, n: nat, straddled: bool) {
    FlushedAt(states, actions, i, n) && (straddled ==> Torn(states, actions, i, n))
  }

  ghost predicate Explained(states: seq<State>, actions: seq<Action>, n: nat)
    requires n < |states|
  {
    match states[n].blame
    case Nobody => true
    case TakenBy(k) => exists i :: ConsumedBy(states, actions, k, i, n)
    case Flushed(straddled) => exists i :: FlushExplains(states, actions, i, n, straddled)
  }

  lemma BlameTaken(o: Info, s: State, a: Action, k: nat)
    requires Step(o, s, a).blame == TakenBy(k)
    ensures if s.blame == TakenBy(k) && !ConsumesAt(s, a, k) then s.keys.stock.None? ==> Step(o, s, a).keys.stock.None?
            else ConsumesAt(s, a, k) && Step(o, s, a).keys.stock.None?
  {
    hide TtlSeconds, MarkerValue, Until, ParseMarker;
  }

  lemma BlameFlushed(o: Info, s: State, a: Action, straddled: bool)
    requires Step(o, s, a).blame == Flushed(straddled)
    ensures var t := Step(o, s, a);
            && (forall b :: b in t.arms ==> b in s.arms)
            && if a.Flush? then !straddled && t.keys.stock.None?
               else s.blame.Flushed? && (s.keys.stock.None? ==> t.keys.stock.None?)
                    && (straddled ==> s.blame.straddled || (a.ArmSecond? && a.arm in s.arms))
  {
    hide TtlSeconds, MarkerValue, Until, Filter;
  }

  lemma TakenAfterStep(o: Info, states: seq<State>, actions: seq<Action>, n: nat, k: nat)
    requires 0 < n < |states| && |states| == |actions| + 1 && Explained(states, actions, n - 1)
    requires states[n] == Step(o, states[n - 1], actions[n - 1]) && states[n].blame == TakenBy(k)
    ensures exists i :: ConsumedBy(states, actions, k, i, n)
  {
    hide Step, ConsumesAt, FlushExplains;
    BlameTaken(o, states[n - 1], actions[n - 1], k);
    if ConsumesAt(states[n - 1], actions[n - 1], k) {
      assert ConsumedBy(states, actions, k, n - 1, n);
    } else {
      var i :| ConsumedBy(states, actions, k, i, n - 1);
      assert ConsumedBy(states, actions, k, i, n);
    }
  }

  lemma FlushedAfterStep(o: Info, states: seq<State>, actions: seq<Action>, n: nat, straddled: bool)
    requires 0 < n < |states| && |states| == |actions| + 1 && Explained(states, actions, n - 1)
    requires states[n] == Step(o, states[n - 1], actions[n - 1]) && states[n].blame == Flushed(straddled)
    ensures exists i :: FlushExplains(states, actions, i, n, straddled)
  {
    hide Step, ConsumedBy;
    BlameFlushed(o, states[n - 1], actions[n - 1], straddled);
    if actions[n - 1].Flush? {
      assert FlushExplains(states, actions, n - 1, n, straddled);
    } else {
      var i :| FlushExplains(states, actions, i, n - 1, states[n - 1].blame.straddled);
      if states[n - 1].blame.straddled {
        var m, b :| Straddles(states, actions, b, i, m, n - 1);
        assert Straddles(states, actions, b, i, m, n);
      } else if straddled {
        assert Straddles(states, actions, actions[n - 1].arm, i, n - 1, n);
      }
      assert FlushExplains(states, actions, i, n, straddled);
    }
  }

  lemma ExplainedAfterStep(o: Info, states: seq<State>, actions: seq<Action>, n: nat)
    requires 0 < n < |states| && |states| == |actions| + 1 && Explained(states, actions, n - 1)
    requires states[n] == Step(o, states[n - 1], actions[n - 1])
    ensures Explained(states, actions, n)
  {
    hide Step, ConsumedBy, FlushExplains;
    match states[n].blame
    case Nobody =>
    case TakenBy(k) => TakenAfterStep(o, states, actions, n, k);
    case Flushed(straddled) => FlushedAfterStep(o, states, actions, n, straddled);
  }

  lemma {:induction false} RunIsExplained(o: Info, states: seq<State>, actions: seq<Action>, n: nat)
    requires Run(o, states, actions) && n < |states|
    ensures Explained(states, actions, n)
  {
    if n > 0 {
      hide Step, Explained;
      RunIsExplained(o, states, actions, n - 1);
      assert states[n - 1 + 1] == Step(o, states[n - 1], actions[n - 1]);
      ExplainedAfterStep(o, states, actions, n);
    }
  }

  /** The grab has not come to its end, or died on the way. */
  predicate UnfinishedOrDead(s: State, k: nat) {
    k in s.grabs && (s.grabs[k].stage.AtDatabase? || s.grabs[k].stage.HoldingRow? || s.grabs[k].stage.Died?)
  }

  /** In every run, while an order can still be won and the filter turns everybody away: the grab that consumed the
      token, which has been missing since, is unfinished or died before its commit; or a flush, after which there has
      been no token either, fell between the two commands of a marker write. */
  lemma LockOutHasACause(o: Info, states: seq<State>, actions: seq<Action>, n: nat)
    requires o.Sound() && Run(o, states, actions) && n < |states| && LockedOut(o, states[n])
    ensures || (exists k, i :: ConsumedBy(states, actions, k, i, n) && UnfinishedOrDead(states[n], k))
            || (exists i :: FlushedAt(states, actions, i, n) && Torn(states, actions, i, n))
  {
    RunIsHealthy(o, states, actions, n);
    RunIsExplained(o, states, actions, n);
    hide Run, ConsumedBy, FlushedAt, Torn;
    if states[n].blame.TakenBy? { assert GrabOk(o, states[n], states[n].blame.grab); }
  }

  /** So where no flush finds a marker write half done, the only cause is an unfinished or dead consumer. */
  lemma WithoutTornWritesOnlyGrabsLockOut(o: Info, states: seq<State>, actions: seq<Action>, n: nat)
    requires o.Sound() && Run(o, states, actions) && n < |states| && LockedOut(o, states[n])
    requires forall i :: 0 <= i < n && actions[i].Flush? ==> states[i].arms == map[]
    ensures exists k, i :: ConsumedBy(states, actions, k, i, n) && UnfinishedOrDead(states[n], k)
  {
    hide UnfinishedOrDead, NoTokenSince, ConsumesAt;
    LockOutHasACause(o, states, actions, n);
  }

  /** In every run one rearm by the resync job, with a clock that may lag, unlocks an order that can still be won,
      whoever holds its row; while nobody does, the next grab of another user wins. */
  lemma ResyncHeals(o: Info, states: seq<State>, actions: seq<Action>, n: nat, appNow: int)
    requires o.Sound() && Run(o, states, actions) && n < |states| && Winnable(o, states[n]) && appNow <= states[n].now
    ensures var healed := Step(o, states[n], Rearm(appNow));
            && Alive(healed.keys.stock, healed.now) && !LockedOut(o, healed)
            && (states[n].holder.None? ==>
                  forall k: nat, taker ::
                      k !in states[n].grabs && taker != o.publisher ==> WinsNext(o, healed, k, taker))
  {
    hide Run, WinsNext;
    RunIsHealthy(o, states, actions, n);
    RearmRevives(o, states[n], appNow);
    var healed := Step(o, states[n], Rearm(appNow));
    if states[n].holder.None? {
      forall k: nat, taker | k !in states[n].grabs && taker != o.publisher ensures WinsNext(o, healed, k, taker) {
        NextGrabWins(o, healed, k, taker);
      }
    }
  }

  /** Grab k passes the filter, takes the row and commits. */
  predicate WinsNext(o: Info, s: State, k: nat, taker: int) {
    var won := Step(o, Step(o, Step(o, s, FilterBy(k, taker)), Cas(k)), Action.Commit(k));
    k in won.grabs && won.grabs[k] == Grab(taker, Won)
  }

  lemma RearmRevives(o: Info, s: State, appNow: int)
    requires o.Sound() && Healthy(o, s) && Winnable(o, s) && appNow <= s.now
    ensures var healed := Step(o, s, Rearm(appNow));
            && Alive(healed.keys.stock, healed.now) && Winnable(o, healed) && OwnMarker(o, healed)
            && healed.holder == s.holder && healed.grabs == s.grabs
  {
    hide TtlSeconds, MarkerValue, Until;
    TtlCoversDeadline(o, appNow, s.now);
    StepKeepsMarker(o, s, Rearm(appNow));
  }

  lemma NextGrabWins(o: Info, s: State, k: nat, taker: int)
    requires o.Sound() && OwnMarker(o, s) && Winnable(o, s) && Alive(s.keys.stock, s.now)
    requires s.holder.None? && k !in s.grabs && taker != o.publisher
    ensures WinsNext(o, s, k, taker)
  {
    hide TtlSeconds, MarkerValue, Until, ParseMarker, Filter;
    FilterReadsOwnMarker(o, s, taker);
  }

  /** With one clock, a grab that the filter turns away as SELF_GRAB or EXPIRED would lose in the database too, now and
      ever after. */
  lemma FilterRejectionsAreRight(o: Info, s: State, later: State, taker: int)
    requires o.Sound() && OwnMarker(o, s) && s.now <= later.now
    requires Filter(s.keys, s.now, taker, s.now).0 == Decision.SelfGrab
             || Filter(s.keys, s.now, taker, s.now).0 == Decision.Expired
    ensures !CasAccepts(o, later, taker)
  {
    FilterReadsOwnMarker(o, s, taker);
  }

  // ---- the causes are real ----

  predicate ShortLived(o: Info, now: int) { o.Sound() && now < o.deadline }

  /** A flush between the two commands locks a fresh order out although nobody ever tried to grab it. */
  lemma StraddlingFlushLocksOut(o: Info, now: int)
    requires ShortLived(o, now)
    ensures var s := State(now, Unborn, Keys(None, None), map[], map[], None, Nobody);
            var open := Step(o, Step(o, s, Insert), Born);
            var torn := Step(o, Step(o, Step(o, open, ArmFirst(0, now)), Flush), ArmSecond(0));
            Initial(s) && LockedOut(o, torn) && torn.grabs == map[]
  {
    TtlCoversDeadline(o, now, now);
  }

  /** A grab that consumes the token and then dies locks the order out until its marker is written again. */
  lemma DeadGrabLocksOut(o: Info, now: int, taker: int)
    requires ShortLived(o, now) && taker != o.publisher
    ensures var s := State(now, Unborn, Keys(None, None), map[], map[], None, Nobody);
            var armed := Step(o, Step(o, Step(o, Step(o, s, Insert), ArmFirst(0, now)), ArmSecond(0)), Born);
            var dead := Step(o, Step(o, armed, FilterBy(1, taker)), Action.Abort(1));
            Initial(s) && LockedOut(o, dead) && dead.grabs == map[1 := Grab(taker, Died)]
  {
    hide TtlSeconds, MarkerValue, Until, ParseMarker, Filter;
    TtlCoversDeadline(o, now, now);
    var s := State(now, Unborn, Keys(None, None), map[], map[], None, Nobody);
    var armed := Step(o, Step(o, Step(o, Step(o, s, Insert), ArmFirst(0, now)), ArmSecond(0)), Born);
    FilterReadsOwnMarker(o, armed, taker);
  }
}
