/** The delay index of one order: every interleaving of its transactions, its outbox events in any order and number,
    and any number of pollers.  One clock, no flush, each event handled as one step. */
module DelayIndex {
  import opened Model

  /** Creating and Granting are uncommitted: their transaction holds the row, and others still see what was before.
      `wrote` tells that the grab has already put its DELIVER entry into the index. */
  datatype Stage =
    | Unborn | Creating | Void | Listed | Granting(deadline: int, wrote: bool) | Held(deadline: int) | Done | Terminal

  /** A poller's work on one entry: it saw it due, it acted on the order, it will remove it.  `early` marks a call that
      found the order before the end of its delivery time. */
  datatype Poll = Saw | Acted(early: bool)

  /** `polls` holds the pollers at work, by number; every application instance has one of its own. */
  datatype ClaimSide = ClaimSide(entry: Option<int>, polls: map<nat, Poll>, completed: bool)
  datatype DeliverSide = DeliverSide(entry: Option<int>, polls: map<nat, Poll>, completed: bool, wasTaken: bool,
                                     rolledBack: bool, droppedEarly: bool)
  datatype MarkerSide = MarkerSide(present: bool, terminalDone: bool, rearmedLate: bool)

  datatype State = State(now: int, stage: Stage, claim: ClaimSide, deliver: DeliverSide, marker: MarkerSide)

  datatype Action =
    | Tick(ms: nat)
    | Insert | AddClaimEarly | Born | CreateFails
    | Cas(ttl: nat) | AddDeliverEarly | Win | GrabFails
    | Deliver | Settle | Cancel
    | HandlePublished(completes: bool) | HandleTaken(completes: bool) | HandleTerminal(completes: bool)
    | SeeClaim(poller: nat) | ActClaim(poller: nat) | DropClaim(poller: nat)
    | SeeDeliver(poller: nat) | ActDeliver(poller: nat) | DropDeliver(poller: nat)
    | PollerDies(poller: nat)
    | StaleRearm

  /** What readers outside the transaction see. */
  predicate SeenPublished(g: Stage) { g.Listed? || g.Granting? }
  predicate Locked(g: Stage) { g.Creating? || g.Granting? }
  predicate Exists(g: Stage) { !g.Unborn? && !g.Creating? && !g.Void? }
  predicate Past(g: Stage) { g.Done? || g.Terminal? }

  predicate SawDue(polls: map<nat, Poll>, p: nat) { p in polls && polls[p].Saw? }
  predicate HasActed(polls: map<nat, Poll>, p: nat) { p in polls && polls[p].Acted? }

  // An action that is not enabled changes nothing.  `deadline` is the order's claim deadline.

  function NextStage(deadline: int, s: State, a: Action): Stage {
    var g := s.stage;
    match a
    case Insert => if g.Unborn? && s.now < deadline then Creating else g
    case Born => if g.Creating? then Listed else g
    case CreateFails => if g.Creating? then Void else g
    case Cas(ttl) => if g.Listed? && s.now < deadline then Granting(s.now + ttl, false) else g
    case AddDeliverEarly => if g.Granting? then g.(wrote := true) else g
    case Win => if g.Granting? then Held(g.deadline) else g
    case GrabFails => if g.Granting? then Listed else g
    case Deliver => if g.Held? && s.now < g.deadline then Done else g
    case Settle => if g.Done? then Terminal else g
    case Cancel => if g.Listed? || g.Held? then Terminal else g
    case ActClaim(p) => if SawDue(s.claim.polls, p) && g.Listed? && deadline <= s.now then Terminal else g
    case ActDeliver(p) => if SawDue(s.deliver.polls, p) && g.Held? && g.deadline <= s.now then Terminal else g
    case _ => g
  }

  function NextClaim(deadline: int, s: State, a: Action): ClaimSide {
    var c := s.claim;
    match a
    case AddClaimEarly => if s.stage.Creating? then c.(entry := Some(deadline)) else c
    case HandlePublished(completes) =>
      if !Exists(s.stage) then c
      else c.(entry := if SeenPublished(s.stage) then Some(deadline)
              else c.entry, completed := c.completed || completes)
    case HandleTerminal(_) => if s.stage.Terminal? then c.(entry := None) else c
    case SeeClaim(p) =>
      if p !in c.polls && c.entry.Some? && c.entry.value <= s.now then c.(polls := c.polls[p := Saw]) else c
    case ActClaim(p) => if SawDue(c.polls, p) && !Locked(s.stage) then c.(polls := c.polls[p := Acted(false)]) else c
    case DropClaim(p) => if HasActed(c.polls, p) then c.(polls := c.polls - {p}, entry := None) else c
    case PollerDies(p) => c.(polls := c.polls - {p})
    case _ => c
  }

  function NextDeliver(s: State, a: Action): DeliverSide {
    var d, g := s.deliver, s.stage;
    match a
    case AddDeliverEarly => if g.Granting? then d.(entry := Some(g.deadline)) else d
    case Win => if g.Granting? then d.(wasTaken := true) else d
    case GrabFails => if g.Granting? && g.wrote then d.(rolledBack := true) else d
    case HandleTaken(completes) =>
      if !d.wasTaken then d
      else d.(entry := if g.Held? then Some(g.deadline) else d.entry, completed := d.completed || completes)
    case HandleTerminal(_) => if g.Terminal? then d.(entry := None) else d
    case SeeDeliver(p) =>
      if p !in d.polls && d.entry.Some? && d.entry.value <= s.now then d.(polls := d.polls[p := Saw]) else d
    case ActDeliver(p) =>
      if !SawDue(d.polls, p) || Locked(g) then d
      else d.(polls := d.polls[p := Acted(g.Listed? || (g.Held? && s.now < g.deadline))])
    case DropDeliver(p) =>
      if HasActed(d.polls, p) then d.(polls := d.polls - {p}, entry := None, droppedEarly := d.droppedEarly
                                      || d.polls[p].early) else d
    case PollerDies(p) => d.(polls := d.polls - {p})
    case _ => d
  }

  function NextMarker(s: State, a: Action): MarkerSide {
    var m := s.marker;
    match a
    case AddClaimEarly => if s.stage.Creating? then m.(present := true) else m
    case HandlePublished(_) => if SeenPublished(s.stage) then m.(present := true) else m
    case HandleTerminal(completes) =>
      if s.stage.Terminal? then MarkerSide(false, m.terminalDone || completes, false) else m
    case StaleRearm =>
      if Exists(s.stage) then m.(present := true, rearmedLate := m.rearmedLate || m.terminalDone) else m
    case _ => m
  }

  function Step(deadline: int, s: State, a: Action): State {
    State(if a.Tick? then s.now + a.ms
          else s.now, NextStage(deadline, s, a), NextClaim(deadline, s, a), NextDeliver(s, a), NextMarker(s, a))
  }

  function Start(now: int): State {
    State(now, Unborn, ClaimSide(None, map[], false), DeliverSide(None, map[], false, false, false, false),
          MarkerSide(false, false, false))
  }

  ghost predicate Run(deadline: int, states: seq<State>, actions: seq<Action>) {
    && |states| == |actions| + 1 && states[0] == Start(states[0].now)
    && forall i :: 0 <= i < |actions| ==> states[i + 1] == Step(deadline, states[i], actions[i])
  }

  // ---- the claim side ----

  /** A poller is done with the order only when it is no longer PUBLISHED. */
  predicate ClaimPollOk(deadline: int, s: State, p: nat)
    requires p in s.claim.polls
  {
    deadline <= s.now && !s.stage.Unborn? && (s.claim.polls[p].Acted? ==> !SeenPublished(s.stage) && !s.stage.Creating?)
  }

  predicate ClaimOk(deadline: int, s: State) {
    var c, g := s.claim, s.stage;
    && (c.entry.Some? ==> c.entry.value == deadline && !g.Unborn?)
    && (forall p :: p in c.polls ==> ClaimPollOk(deadline, s, p))
    && (c.completed ==> Exists(g))
    && (c.completed && SeenPublished(g) ==> c.entry == Some(deadline))
  }

  lemma StepKeepsClaim(deadline: int, s: State, a: Action)
    requires ClaimOk(deadline, s)
    ensures ClaimOk(deadline, Step(deadline, s, a))
  {
    hide NextDeliver, NextMarker;
    var t := Step(deadline, s, a);
    forall p | p in t.claim.polls ensures ClaimPollOk(deadline, t, p) {
      if p in s.claim.polls { assert ClaimPollOk(deadline, s, p); }
      if a.DropClaim? && a.poller in s.claim.polls { assert ClaimPollOk(deadline, s, a.poller); }
    }
    if a.DropClaim? && a.poller in s.claim.polls { assert ClaimPollOk(deadline, s, a.poller); }
  }

  // ---- the deliver side ----

  /** The entry of a grab that holds the order, or did. */
  predicate Belongs(g: Stage, e: int) {
    Past(g) || (g.Granting? && g.wrote && g.deadline == e) || (g.Held? && g.deadline == e)
  }

  predicate Overdue(g: Stage, now: int) {
    Past(g) || (g.Granting? && g.wrote && g.deadline <= now) || (g.Held? && g.deadline <= now)
  }

  predicate DeliverPollOk(s: State, p: nat)
    requires p in s.deliver.polls
  {
    var d, g := s.deliver, s.stage;
    && Exists(g)
    && match d.polls[p]
       case Saw => d.rolledBack || Overdue(g, s.now)
       case Acted(early) => if early then d.rolledBack else Past(g)
  }

  predicate DeliverOk(s: State) {
    var d, g := s.deliver, s.stage;
    && (d.entry.Some? ==> Exists(g) && (d.rolledBack || Belongs(g, d.entry.value)))
    && (forall p :: p in d.polls ==> DeliverPollOk(s, p))
    && (d.droppedEarly ==> d.rolledBack)
    && (d.completed ==> d.wasTaken) && (d.wasTaken ==> g.Held? || Past(g))
    && (d.completed && g.Held? && !d.droppedEarly ==> d.entry == Some(g.deadline))
  }

  lemma StepKeepsDeliver(deadline: int, s: State, a: Action)
    requires DeliverOk(s)
    ensures DeliverOk(Step(deadline, s, a))
  {
    hide NextClaim, NextMarker;
    var t := Step(deadline, s, a);
    if a.DropDeliver? && a.poller in s.deliver.polls { assert DeliverPollOk(s, a.poller); }
    forall p | p in t.deliver.polls ensures DeliverPollOk(t, p) {
      if p in s.deliver.polls { assert DeliverPollOk(s, p); }
    }
  }

  // ---- terminal orders ----

  predicate ClearedOk(s: State) {
    s.marker.terminalDone ==> s.stage.Terminal? && s.claim.entry.None? && s.deliver.entry.None?
                              && (s.marker.present ==> s.marker.rearmedLate)
  }

  lemma StepKeepsCleared(deadline: int, s: State, a: Action)
    requires ClearedOk(s)
    ensures ClearedOk(Step(deadline, s, a))
  {}

  // ---- whole runs ----

  lemma {:induction false} RunIsSound(deadline: int, states: seq<State>, actions: seq<Action>, n: nat)
    requires Run(deadline, states, actions) && n < |states|
    ensures ClaimOk(deadline, states[n]) && DeliverOk(states[n]) && ClearedOk(states[n])
  {
    if n > 0 {
      hide Step, ClaimOk, DeliverOk, ClearedOk;
      RunIsSound(deadline, states, actions, n - 1);
      assert states[n - 1 + 1] == Step(deadline, states[n - 1], actions[n - 1]);
      StepKeepsClaim(deadline, states[n - 1], actions[n - 1]);
      StepKeepsDeliver(deadline, states[n - 1], actions[n - 1]);
      StepKeepsCleared(deadline, states[n - 1], actions[n - 1]);
    }
  }

  /** In every run, with the events of the order handled in any order and any number of times: a PUBLISHED order whose
      event completed is indexed at its deadline; so is a TAKEN one, unless a poller dropped the entry of a grab that
      rolled back after writing it; a handled terminal order has no entry, and a marker only if a stale grab wrote
      it. */
  lemma IndexAgrees(deadline: int, states: seq<State>, actions: seq<Action>, n: nat)
    requires Run(deadline, states, actions) && n < |states|
    ensures var s := states[n];
            && (SeenPublished(s.stage) && s.claim.completed ==> s.claim.entry == Some(deadline))
            && (s.stage.Held? && s.deliver.completed && !s.deliver.droppedEarly
                ==> s.deliver.entry == Some(s.stage.deadline))
            && (s.deliver.droppedEarly ==> s.deliver.rolledBack)
            && (s.marker.terminalDone ==> s.stage.Terminal? && s.claim.entry.None? && s.deliver.entry.None?
                                          && (s.marker.present ==> s.marker.rearmedLate))
  {
    hide Run;
    RunIsSound(deadline, states, actions, n);
  }

  /** A poller removes a CLAIM entry only when the order is no longer PUBLISHED, and a DELIVER entry only when the order
      is past its delivery, unless the entry it saw was that of a grab that rolled back. */
  lemma PollersDropOnlyUnneeded(deadline: int, states: seq<State>, actions: seq<Action>, n: nat, p: nat)
    requires Run(deadline, states, actions) && n < |states|
    ensures HasActed(states[n].claim.polls, p) ==> !SeenPublished(states[n].stage)
    ensures HasActed(states[n].deliver.polls, p) && !Past(states[n].stage)
            ==> states[n].deliver.polls[p].early && states[n].deliver.rolledBack
  {
    hide Run;
    RunIsSound(deadline, states, actions, n);
    assert p in states[n].claim.polls ==> ClaimPollOk(deadline, states[n], p);
    assert p in states[n].deliver.polls ==> DeliverPollOk(states[n], p);
  }

  function Three(deadline: int, s: State, a: Action, b: Action, c: Action): State {
    Step(deadline, Step(deadline, Step(deadline, s, a), b), c)
  }

  /** And they do end what is due: in every run, a free poller finds the order whose PUBLISHED event completed at its
      claim deadline, and the order whose TAKEN event completed at its delivery deadline unless its entry was dropped,
      and the call cancels it. */
  lemma PollerEndsOverdue(deadline: int, states: seq<State>, actions: seq<Action>, n: nat, p: nat)
    requires Run(deadline, states, actions) && n < |states|
    ensures var s := states[n];
            s.stage.Listed? && s.claim.completed && p !in s.claim.polls ==>
              (Three(deadline, s, SeeClaim(p), ActClaim(p), DropClaim(p)).stage.Terminal? <==> deadline <= s.now)
    ensures var s := states[n];
            s.stage.Held? && s.deliver.completed && !s.deliver.droppedEarly && p !in s.deliver.polls ==>
              (Three(deadline, s, SeeDeliver(p), ActDeliver(p), DropDeliver(p)).stage.Terminal?
               <==> s.stage.deadline <= s.now)
  {
    hide Run;
    RunIsSound(deadline, states, actions, n);
  }

  /** A grab that wrote its DELIVER entry and was rolled back, one delivery time ago. */
  function Orphaned(now: int, ttl: nat): State {
    Start(now).(now := now + ttl, stage := Listed,
                deliver := DeliverSide(Some(now + ttl), map[], false, false, true, false))
  }

  lemma OrphanIsReached(now: int, ttl: nat)
    requires ttl > 0
    ensures var deadline := now + 2 * ttl;
            Three(deadline, Three(deadline, Start(now), Insert, Born, Cas(ttl)), AddDeliverEarly, GrabFails, Tick(ttl))
                == Orphaned(now, ttl)
  {
    var deadline := now + 2 * ttl;
    assert Three(deadline, Start(now), Insert, Born, Cas(ttl)) == Start(now).(stage := Granting(now + ttl, false));
  }

  lemma PollerSeesOrphan(now: int, ttl: nat)
    requires ttl > 0
    ensures Three(now + 2 * ttl, Orphaned(now, ttl), SeeDeliver(0), Cas(ttl), AddDeliverEarly)
            == Orphaned(now, ttl).(stage := Granting(now + 2 * ttl, true),
                                   deliver := DeliverSide(Some(now + 2 * ttl), map[0 := Saw], false, false, true,
                                                          false))
  {}

  /** The exception is real: from the start, a grab writes its DELIVER entry and rolls back; a poller sees that entry
      due while a second grab wins and its event completes; the call finds the new deadline ahead, and the needed entry
      is dropped. */
  lemma RolledBackGrabLosesTheEntry(now: int, ttl: nat)
    requires ttl > 0
    ensures var deadline := now + 2 * ttl;
            var failed := Three(deadline, Three(deadline, Start(now), Insert, Born, Cas(ttl)), AddDeliverEarly,
                                GrabFails, Tick(ttl));
            var seen := Three(deadline, failed, SeeDeliver(0), Cas(ttl), AddDeliverEarly);
            var t := Step(deadline, Three(deadline, seen, Win, HandleTaken(true), ActDeliver(0)), DropDeliver(0));
            t.stage == Held(deadline) && t.deliver.completed && t.now < deadline && t.deliver.entry.None?
  {
    hide Step;
    OrphanIsReached(now, ttl);
    OrphanIsDropped(now, ttl);
  }

  lemma OrphanIsDropped(now: int, ttl: nat)
    requires ttl > 0
    ensures var deadline := now + 2 * ttl;
            var seen := Three(deadline, Orphaned(now, ttl), SeeDeliver(0), Cas(ttl), AddDeliverEarly);
            var t := Step(deadline, Three(deadline, seen, Win, HandleTaken(true), ActDeliver(0)), DropDeliver(0));
            t.stage == Held(now + 2 * ttl) && t.deliver.completed && t.now < now + 2 * ttl && t.deliver.entry.None?
  {
    var deadline := now + 2 * ttl;
    PollerSeesOrphan(now, ttl);
    var seen := Orphaned(now, ttl).(stage := Granting(now + 2 * ttl, true),
                                    deliver := DeliverSide(Some(now + 2 * ttl), map[0 := Saw], false, false, true,
                                                           false));
    assert Three(deadline, seen, Win, HandleTaken(true), ActDeliver(0))
           == seen.(stage := Held(now + 2 * ttl),
                    deliver := DeliverSide(Some(now + 2 * ttl), map[0 := Acted(true)], true, true, true, false)) by {
      Wins(now, ttl, seen);
    }
  }

  lemma Wins(now: int, ttl: nat, s: State)
    requires ttl > 0 && s.now == now + ttl
    requires s.stage == Granting(now + 2 * ttl, true)
             && s.deliver == DeliverSide(Some(now + 2 * ttl), map[0 := Saw], false, false, true, false)
    ensures Three(now + 2 * ttl, s, Win, HandleTaken(true), ActDeliver(0))
            == s.(stage := Held(now + 2 * ttl),
                  deliver := DeliverSide(Some(now + 2 * ttl), map[0 := Acted(true)], true, true, true, false))
  {}
}
