/**
 * Leases and freeze markers of one space (`store.rs`, `store_lock.rs`,
 * `store/freeze.rs`) as a transition system: every process that grants a
 * lease, observes leases, or writes the marker does so under the store lock.
 */
module Leases {
  import opened Base

  type Actor = nat

  /** A marker file: absent, one that reads as frozen, or one that cannot be accepted. */
  datatype Marker = NoMarker | ValidMarker | InvalidMarker

  datatype LeaseKind = Process | Discovery | Maintenance

  datatype Space = Space(
    lock: Option<Actor>,        // the store lock
    sharers: set<Actor>,        // holders of the lease lock in shared mode
    exclusive: Option<Actor>,   // holder of the lease lock in exclusive mode
    marker: Marker,
    legacy: bool)               // a space without a stable identity has no marker

  datatype Pc =
    | Idle
    | WantsLease(kind: LeaseKind)
    | Checking(kind: LeaseKind)     // under the store lock, about to look at the marker
    | Acquiring(kind: LeaseKind)    // under the store lock, retrying the lease lock
    | Granted(kind: LeaseKind)      // still under the store lock, lease held
    | Leased(kind: LeaseKind)       // the lease outlives the store lock
    | WantsObservation
    | Observing                     // under the store lock, about to probe the lease
    | Probing                       // the probe's own exclusive lock is held
    | WantsFreeze
    | Freezing                      // under the store lock, about to read the marker
    | Writing                       // the temporary marker is written, not yet renamed
    | WantsUnfreeze
    | Unfreezing

  predicate HoldsStore(pc: Pc) {
    pc.Checking? || pc.Acquiring? || pc.Granted? || pc.Observing? || pc.Probing? || pc.Freezing? || pc.Writing? || pc.Unfreezing?
  }

  /** A lease lock that is a real lease, rather than an observer's probe. */
  predicate HoldsLease(pc: Pc) {
    pc.Granted? || pc.Leased?
  }

  predicate Sharing(kind: LeaseKind) {
    kind != Discovery
  }

  // -------------------------------------------------------------------- steps

  datatype Move = Move(space: Space, pc: Pc)

  function StoreReleased(s: Space, a: Actor): Space {
    s.(lock := if s.lock == Some(a) then None else s.lock)
  }

  function AllReleased(s: Space, a: Actor): Space {
    StoreReleased(s, a).(sharers := s.sharers - {a}, exclusive := if s.exclusive == Some(a) then None else s.exclusive)
  }

  function TakeStore(s: Space, a: Actor, pc: Pc, then_: Pc, ok: bool): Move {
    if !ok then Move(s, Idle) else if s.lock.None? then Move(s.(lock := Some(a)), then_) else Move(s, pc)
  }

  /** Whether the lease lock can be taken now, by the rules of advisory locks. */
  predicate Available(s: Space, kind: LeaseKind) {
    s.exclusive.None? && (Sharing(kind) || s.sharers == {})
  }

  function LeaseNext(s: Space, a: Actor, pc: Pc, ok: bool): Move
    requires pc.WantsLease? || pc.Checking? || pc.Acquiring? || pc.Granted? || pc.Leased?
  {
    match pc
    case WantsLease(kind) => TakeStore(s, a, pc, Checking(kind), ok)
    case Checking(kind) =>
      if !ok || (kind != Maintenance && !s.legacy && s.marker != NoMarker) then Move(StoreReleased(s, a), Idle)
      else Move(s, Acquiring(kind))
    case Acquiring(kind) =>
      if Available(s, kind) && ok then
        Move(if Sharing(kind) then s.(sharers := s.sharers + {a}) else s.(exclusive := Some(a)), Granted(kind))
      else if ok then Move(s, pc)                       // retry
      else Move(StoreReleased(s, a), Idle)              // the bounded wait is over
    case Granted(kind) => Move(StoreReleased(s, a), Leased(kind))
    case Leased(_) => Move(AllReleased(s, a), Idle)     // the guard is dropped
  }

  function OtherNext(s: Space, a: Actor, pc: Pc, ok: bool): Move {
    match pc
    case WantsObservation => TakeStore(s, a, pc, Observing, ok)
    case Observing =>
      if s.exclusive.None? && s.sharers == {} && ok then Move(s.(exclusive := Some(a)), Probing)
      else Move(StoreReleased(s, a), Idle)
    case Probing => Move(AllReleased(s, a), Idle)
    case WantsFreeze => TakeStore(s, a, pc, Freezing, ok)
    case Freezing =>
      if !ok || s.legacy || s.marker != NoMarker then Move(StoreReleased(s, a), Idle) else Move(s, Writing)
    case Writing => Move(StoreReleased(if ok then s.(marker := ValidMarker) else s, a), Idle)
    case WantsUnfreeze => TakeStore(s, a, pc, Unfreezing, ok)
    case Unfreezing => Move(StoreReleased(if ok && !s.legacy then s.(marker := NoMarker) else s, a), Idle)
    case _ => Move(s, pc)
  }

  function Next(s: Space, a: Actor, pc: Pc, ok: bool): Move {
    if pc.WantsLease? || pc.Checking? || pc.Acquiring? || pc.Granted? || pc.Leased? then LeaseNext(s, a, pc, ok)
    else OtherNext(s, a, pc, ok)
  }

  datatype World = World(space: Space, pcs: map<Actor, Pc>)

  datatype Action =
    | Begin(a: Actor, pc: Pc)
    | Step(a: Actor, ok: bool)
    | Crash(a: Actor)
    | Damage        // something outside Quarters spoils a marker that is there

  predicate Startable(pc: Pc) {
    pc.WantsLease? || pc.WantsObservation? || pc.WantsFreeze? || pc.WantsUnfreeze?
  }

  predicate Enabled(w: World, action: Action) {
    match action
    case Begin(a, pc) => a !in w.pcs && Startable(pc)
    case Step(a, _) => a in w.pcs
    case Crash(a) => a in w.pcs
    case Damage => w.space.marker == ValidMarker
  }

  function Apply(w: World, action: Action): World
    requires Enabled(w, action)
  {
    match action
    case Begin(a, pc) => w.(pcs := w.pcs[a := pc])
    case Step(a, ok) =>
      var m := Next(w.space, a, w.pcs[a], ok);
      World(m.space, w.pcs[a := m.pc])
    case Crash(a) => World(AllReleased(w.space, a), w.pcs[a := Idle])
    case Damage => w.(space := w.space.(marker := InvalidMarker))
  }

  predicate Initial(w: World) {
    w.pcs == map[] && w.space.lock == None && w.space.sharers == {} && w.space.exclusive == None
    && (w.space.legacy ==> w.space.marker == NoMarker)
  }

  ghost predicate StepAt(ws: seq<World>, actions: seq<Action>, i: nat)
    requires |ws| == |actions| + 1 && i < |actions|
  {
    Enabled(ws[i], actions[i]) && ws[i + 1] == Apply(ws[i], actions[i])
  }

  ghost predicate Run(ws: seq<World>, actions: seq<Action>) {
    && |ws| == |actions| + 1 && Initial(ws[0])
    && forall i: nat :: i < |actions| ==> StepAt(ws, actions, i)
  }

  // ---------------------------------------------------------------- invariant

  /** Each lock is held by exactly the processes whose program counter says so. */
  ghost predicate ActorOk(s: Space, a: Actor, pc: Pc) {
    && (HoldsStore(pc) <==> s.lock == Some(a))
    && (a in s.sharers <==> HoldsLease(pc) && Sharing(pc.kind))
    && (s.exclusive == Some(a) <==> pc.Probing? || (HoldsLease(pc) && !Sharing(pc.kind)))
    && (pc.Acquiring? && pc.kind != Maintenance ==> s.legacy || s.marker == NoMarker)
    && (pc.Writing? ==> !s.legacy)
  }

  ghost predicate Inv(w: World) {
    && (forall a :: a in w.pcs ==> ActorOk(w.space, a, w.pcs[a]))
    && (w.space.lock.Some? ==> w.space.lock.value in w.pcs)
    && (w.space.exclusive.Some? ==> w.space.exclusive.value in w.pcs && w.space.sharers == {})
    && w.space.sharers <= w.pcs.Keys
    && (w.space.legacy ==> w.space.marker == NoMarker)
  }

  lemma OwnNext(s: Space, a: Actor, pc: Pc, ok: bool)
    requires ActorOk(s, a, pc) && (s.exclusive.Some? ==> s.sharers == {}) && (s.legacy ==> s.marker == NoMarker)
    ensures var m := Next(s, a, pc, ok);
            ActorOk(m.space, a, m.pc) && (m.space.exclusive.Some? ==> m.space.sharers == {})
            && (m.space.legacy ==> m.space.marker == NoMarker)
  {
  }

  /** What a step of `a` may change, seen by everyone else. */
  lemma FrameNext(s: Space, a: Actor, pc: Pc, ok: bool)
    requires ActorOk(s, a, pc)
    ensures var s' := Next(s, a, pc, ok).space;
            && (s'.lock == s.lock || ((s.lock == None || s.lock == Some(a)) && (s'.lock == None || s'.lock == Some(a))))
            && (s'.exclusive == s.exclusive
                || ((s.exclusive == None || s.exclusive == Some(a)) && (s'.exclusive == None || s'.exclusive == Some(a))))
            && s'.sharers - {a} == s.sharers - {a} && s'.legacy == s.legacy
            && (s'.marker != s.marker ==> s.lock == Some(a))
  {
  }

  lemma OtherOk(w: World, a: Actor, ok: bool, q: Actor)
    requires Inv(w) && a in w.pcs && q in w.pcs && a != q
    ensures ActorOk(Next(w.space, a, w.pcs[a], ok).space, q, w.pcs[q])
  {
    FrameNext(w.space, a, w.pcs[a], ok);
    var s' := Next(w.space, a, w.pcs[a], ok).space;
    assert q in s'.sharers - {a} <==> q in w.space.sharers - {a};
    assert ActorOk(w.space, q, w.pcs[q]);
  }

  lemma InvStep(w: World, action: Action)
    requires Inv(w) && Enabled(w, action)
    ensures Inv(Apply(w, action))
  {
    var w' := Apply(w, action);
    if action.Step? {
      var a := action.a;
      OwnNext(w.space, a, w.pcs[a], action.ok);
      FrameNext(w.space, a, w.pcs[a], action.ok);
      assert w'.space.sharers <= (w.space.sharers - {a}) + {a};
      forall q | q in w'.pcs ensures ActorOk(w'.space, q, w'.pcs[q]) {
        if q != a { OtherOk(w, a, action.ok, q); }
      }
    } else {
      forall q | q in w'.pcs ensures ActorOk(w'.space, q, w'.pcs[q]) {
        if q in w.pcs { assert ActorOk(w.space, q, w.pcs[q]); }
      }
    }
  }

  lemma {:induction false} InvRun(ws: seq<World>, actions: seq<Action>, i: nat)
    requires Run(ws, actions) && i < |ws|
    ensures Inv(ws[i])
  {
    if i > 0 {
      InvRun(ws, actions, i - 1);
      assert StepAt(ws, actions, i - 1);
      InvStep(ws[i - 1], actions[i - 1]);
    }
  }

  // ---------------------------------------------------------------- theorems

  /** Step `i` grants a lease of this kind. */
  ghost predicate Grants(ws: seq<World>, actions: seq<Action>, i: nat, kind: LeaseKind)
    requires Run(ws, actions) && i < |actions|
  {
    actions[i].Step? && actions[i].a in ws[i].pcs && !HoldsLease(ws[i].pcs[actions[i].a])
    && actions[i].a in ws[i + 1].pcs && HoldsLease(ws[i + 1].pcs[actions[i].a]) && ws[i + 1].pcs[actions[i].a].kind == kind
  }

  /** Step `i` is where an unfreeze takes the marker away. */
  ghost predicate Unfreezes(ws: seq<World>, actions: seq<Action>, i: nat)
    requires Run(ws, actions) && i < |actions|
  {
    actions[i].Step? && actions[i].a in ws[i].pcs && ws[i].pcs[actions[i].a].Unfreezing? && actions[i].ok
  }

  /** Step `i` is where a freeze makes its marker visible. */
  ghost predicate Freezes(ws: seq<World>, actions: seq<Action>, i: nat)
    requires Run(ws, actions) && i < |actions|
  {
    actions[i].Step? && actions[i].a in ws[i].pcs && ws[i].pcs[actions[i].a].Writing? && actions[i].ok
  }

  /** A space that is marked grants no process or discovery lease, even if the marker cannot be read. */
  lemma NoGrantWhileMarked(ws: seq<World>, actions: seq<Action>, i: nat, kind: LeaseKind)
    requires Run(ws, actions) && i < |actions| && ws[i].space.marker != NoMarker && Grants(ws, actions, i, kind)
    ensures kind == Maintenance
  {
    InvRun(ws, actions, i);
    assert StepAt(ws, actions, i);
  }

  lemma {:induction false} MarkerStays(ws: seq<World>, actions: seq<Action>, i: nat, j: nat)
    requires Run(ws, actions) && i <= j < |ws| && ws[i].space.marker != NoMarker
    requires forall k: nat :: i <= k < j ==> !Unfreezes(ws, actions, k)
    ensures ws[j].space.marker != NoMarker
    decreases j - i
  {
    if i < j {
      MarkerStays(ws, actions, i, j - 1);
      InvRun(ws, actions, j - 1);
      assert StepAt(ws, actions, j - 1);
      assert !Unfreezes(ws, actions, j - 1);
    }
  }

  /** No process or discovery lease is granted between a freeze and the next unfreeze. */
  lemma FreezeBlocksGrants(ws: seq<World>, actions: seq<Action>, i: nat, j: nat, kind: LeaseKind)
    requires Run(ws, actions) && i < j < |actions| && Freezes(ws, actions, i) && Grants(ws, actions, j, kind)
    requires kind != Maintenance
    ensures exists k: nat :: i < k < j && Unfreezes(ws, actions, k)
  {
    if forall k: nat :: i < k < j ==> !Unfreezes(ws, actions, k) {
      InvRun(ws, actions, i);
      assert StepAt(ws, actions, i);
      MarkerStays(ws, actions, i + 1, j);
      NoGrantWhileMarked(ws, actions, j, kind);
    }
  }

  /** Some other process holds a lease that excludes one of this kind. */
  ghost predicate Excluded(w: World, a: Actor, kind: LeaseKind) {
    exists b :: b in w.pcs && b != a && HoldsLease(w.pcs[b]) && (kind == Discovery || w.pcs[b].kind == Discovery)
  }

  /**
   * A grant waits or fails only for a real lease. An observer's transient
   * exclusive lock is never in the way, because it too is held only under the
   * store lock.
   */
  lemma ProbesNeverBlockGrants(ws: seq<World>, actions: seq<Action>, i: nat, a: Actor)
    requires Run(ws, actions) && i < |ws| && a in ws[i].pcs && ws[i].pcs[a].Acquiring?
    ensures Available(ws[i].space, ws[i].pcs[a].kind) <==> !Excluded(ws[i], a, ws[i].pcs[a].kind)
  {
    InvRun(ws, actions, i);
    var w, kind := ws[i], ws[i].pcs[a].kind;
    assert ActorOk(w.space, a, w.pcs[a]);
    if w.space.exclusive.Some? {
      var b := w.space.exclusive.value;
      assert ActorOk(w.space, b, w.pcs[b]);
      assert b != a && HoldsLease(w.pcs[b]) && w.pcs[b].kind == Discovery;
    } else if kind == Discovery && w.space.sharers != {} {
      var b :| b in w.space.sharers;
      assert ActorOk(w.space, b, w.pcs[b]);
      assert b != a && HoldsLease(w.pcs[b]);
    } else {
      forall b | b in w.pcs && b != a && HoldsLease(w.pcs[b])
        ensures kind != Discovery && w.pcs[b].kind != Discovery
      {
        assert ActorOk(w.space, b, w.pcs[b]);
      }
    }
  }

  /** After step `i` process `a` is at `pc`. */
  predicate GoesTo(ws: seq<World>, i: nat, a: Actor, pc: Pc) {
    i + 1 < |ws| && a in ws[i + 1].pcs && ws[i + 1].pcs[a] == pc
  }

  /** An unfreeze takes the marker away, whether it can be read or not; a freeze that gets to write it leaves a valid one. */
  lemma UnfreezeClearsTheMarker(ws: seq<World>, actions: seq<Action>, i: nat)
    requires Run(ws, actions) && i < |actions| && !ws[i].space.legacy
    ensures Unfreezes(ws, actions, i) ==> ws[i + 1].space.marker == NoMarker
    ensures Freezes(ws, actions, i) ==> ws[i + 1].space.marker == ValidMarker
    ensures Unfreezes(ws, actions, i) || Freezes(ws, actions, i) ==> ws[i + 1].space.lock == None
  {
    InvRun(ws, actions, i);
    assert StepAt(ws, actions, i);
  }

  /** A freeze of an unmarked space with a stable identity, once it has the store lock and nothing fails, writes its marker. */
  lemma FreezeGoesThrough(ws: seq<World>, actions: seq<Action>, i: nat, a: Actor)
    requires Run(ws, actions) && i < |actions| && actions[i] == Step(a, true) && a in ws[i].pcs && ws[i].pcs[a] == Freezing
    ensures GoesTo(ws, i, a, if ws[i].space.legacy || ws[i].space.marker != NoMarker then Idle else Writing)
  {
    assert StepAt(ws, actions, i);
  }

  /** No step but these, and damage from outside, changes the marker. */
  lemma MarkerChangesOnlyThere(ws: seq<World>, actions: seq<Action>, i: nat)
    requires Run(ws, actions) && i < |actions| && ws[i + 1].space.marker != ws[i].space.marker
    ensures Unfreezes(ws, actions, i) || Freezes(ws, actions, i) || (actions[i] == Damage && ws[i].space.marker == ValidMarker)
  {
    assert StepAt(ws, actions, i);
  }

  /** The store lock is there for the first to ask while nobody holds it. */
  lemma FreeStoreLockIsTaken(ws: seq<World>, actions: seq<Action>, i: nat, a: Actor)
    requires Run(ws, actions) && i < |actions| && actions[i] == Step(a, true) && a in ws[i].pcs && Startable(ws[i].pcs[a])
    requires ws[i].space.lock == None
    ensures ws[i + 1].space.lock == Some(a)
    ensures GoesTo(ws, i, a, match ws[i].pcs[a]
                             case WantsLease(kind) => Checking(kind)
                             case WantsFreeze => Freezing
                             case WantsUnfreeze => Unfreezing
                             case _ => Observing)
  {
    assert StepAt(ws, actions, i);
  }

  /**
   * The other half of a grant: with nothing failing, a lease request under the
   * store lock gets past the marker exactly if the space is unmarked, or has no
   * stable identity, or the lease is for maintenance.
   */
  lemma UnmarkedSpacesLeaseOut(ws: seq<World>, actions: seq<Action>, i: nat, a: Actor)
    requires Run(ws, actions) && i < |actions| && actions[i] == Step(a, true) && a in ws[i].pcs && ws[i].pcs[a].Checking?
    ensures var kind := ws[i].pcs[a].kind;
            GoesTo(ws, i, a, if kind == Maintenance || ws[i].space.legacy || ws[i].space.marker == NoMarker
                             then Acquiring(kind) else Idle)
  {
    assert StepAt(ws, actions, i);
  }

  /** And then it is granted, unless another process holds a lease that excludes it; and it outlives the store lock. */
  lemma LeasesAreGranted(ws: seq<World>, actions: seq<Action>, i: nat, a: Actor)
    requires Run(ws, actions) && i < |actions| && actions[i] == Step(a, true) && a in ws[i].pcs
    ensures ws[i].pcs[a].Acquiring?
            ==> GoesTo(ws, i, a, if Excluded(ws[i], a, ws[i].pcs[a].kind) then ws[i].pcs[a] else Granted(ws[i].pcs[a].kind))
    ensures ws[i].pcs[a].Granted? ==> GoesTo(ws, i, a, Leased(ws[i].pcs[a].kind)) && ws[i + 1].space.lock == None
    ensures ws[i].pcs[a].Leased? ==> GoesTo(ws, i, a, Idle)
  {
    InvRun(ws, actions, i);
    assert StepAt(ws, actions, i);
    if ws[i].pcs[a].Acquiring? { ProbesNeverBlockGrants(ws, actions, i, a); }
    assert ActorOk(ws[i].space, a, ws[i].pcs[a]);
  }

  /** A lease ends only with its own process: freezing, observing or granting other leases leaves it alone. */
  lemma LeasesSurvive(ws: seq<World>, actions: seq<Action>, i: nat, a: Actor)
    requires Run(ws, actions) && i < |actions| && a in ws[i].pcs && HoldsLease(ws[i].pcs[a])
    requires !(actions[i].Step? && actions[i].a == a) && !(actions[i].Crash? && actions[i].a == a)
    ensures a in ws[i + 1].pcs && ws[i + 1].pcs[a] == ws[i].pcs[a]
    ensures if Sharing(ws[i].pcs[a].kind) then a in ws[i + 1].space.sharers else ws[i + 1].space.exclusive == Some(a)
  {
    InvRun(ws, actions, i);
    InvRun(ws, actions, i + 1);
    assert StepAt(ws, actions, i);
    assert ActorOk(ws[i + 1].space, a, ws[i + 1].pcs[a]);
  }

  /** An exclusive lease never coexists with another lease. */
  lemma ExclusiveIsAlone(ws: seq<World>, actions: seq<Action>, i: nat, a: Actor, b: Actor)
    requires Run(ws, actions) && i < |ws| && a in ws[i].pcs && b in ws[i].pcs
    requires HoldsLease(ws[i].pcs[a]) && ws[i].pcs[a].kind == Discovery && HoldsLease(ws[i].pcs[b])
    ensures a == b
  {
    InvRun(ws, actions, i);
    assert ActorOk(ws[i].space, a, ws[i].pcs[a]) && ActorOk(ws[i].space, b, ws[i].pcs[b]);
  }

  /** An observer reports a held lease exactly when a real lease is held. */
  lemma ObserversSeeRealLeases(ws: seq<World>, actions: seq<Action>, i: nat, a: Actor)
    requires Run(ws, actions) && i < |ws| && a in ws[i].pcs && ws[i].pcs[a].Observing?
    ensures (ws[i].space.exclusive.None? && ws[i].space.sharers == {}) <==> forall b :: b in ws[i].pcs ==> !HoldsLease(ws[i].pcs[b])
  {
    InvRun(ws, actions, i);
    var w := ws[i];
    assert ActorOk(w.space, a, w.pcs[a]);
    if w.space.exclusive.Some? {
      var b := w.space.exclusive.value;
      assert ActorOk(w.space, b, w.pcs[b]);
      assert HoldsLease(w.pcs[b]);
    } else if w.space.sharers != {} {
      var b :| b in w.space.sharers;
      assert ActorOk(w.space, b, w.pcs[b]);
    } else {
      forall b | b in w.pcs ensures !HoldsLease(w.pcs[b]) {
        assert ActorOk(w.space, b, w.pcs[b]);
      }
    }
  }

  /** It takes its transient lock, and so reports the lease free, exactly then. */
  lemma ObserversReport(ws: seq<World>, actions: seq<Action>, i: nat, a: Actor)
    requires Run(ws, actions) && i < |actions| && actions[i] == Step(a, true) && a in ws[i].pcs && ws[i].pcs[a].Observing?
    ensures GoesTo(ws, i, a, if forall b :: b in ws[i].pcs ==> !HoldsLease(ws[i].pcs[b]) then Probing else Idle)
  {
    assert StepAt(ws, actions, i);
    ObserversSeeRealLeases(ws, actions, i, a);
  }

  // ------------------------------------------------------------ bounded waiting

  /** `retry_delay` in milliseconds; the jitter comes from a process-wide counter. */
  function RetryDelay(attempt: nat, sequence: nat): (delay: nat)
    ensures 1 <= delay <= 20
  {
    (match attempt case 0 => 1 case 1 => 2 case 2 => 4 case 3 => 8 case _ => 16) + sequence % 5
  }

  /**
   * `lock_bounded`: try until the lock is free or the deadline has passed.
   * `free` says what each attempt finds; `extra` is how much longer each sleep took.
   */
  method LockBounded(timeout: nat, free: nat -> bool, sequence: nat -> nat, extra: nat -> nat) returns (ok: bool, attempts: nat)
    ensures 1 <= attempts <= timeout + 1
    ensures forall k :: 0 <= k < attempts - 1 ==> !free(k)
    ensures ok <==> free(attempts - 1)
    ensures (exists k: nat :: k * 20 < timeout && free(k)) && (forall k: nat :: extra(k) == 0) ==> ok
  {
    var now, attempt := 0, 0;
    while true
      invariant attempt <= now && attempt <= timeout
      invariant (forall k: nat :: extra(k) == 0) ==> now <= 20 * attempt
      invariant forall k :: 0 <= k < attempt ==> !free(k)
      decreases timeout + 1 - attempt
    {
      if free(attempt) { return true, attempt + 1; }
      if now >= timeout { return false, attempt + 1; }
      now := now + RetryDelay(attempt, sequence(attempt)) + extra(attempt);
      attempt := attempt + 1;
    }
  }
}
