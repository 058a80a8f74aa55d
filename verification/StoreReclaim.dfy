/**
 * What one full recovery achieves while other creations, removals and
 * recoveries go on.
 */
module StoreReclaim {
  import opened StoreProtocol
  import opened StoreSafety

  // --------------------------------------------------- who holds creation locks

  /** A creation lock is held by the creator that made the tree, or by a recovery that is at work. */
  ghost predicate Justified(d: Disk, a: Actor, pc: Pc) {
    forall t :: t in d.creation && d.creation[t] == a
      ==> (HasSerial(pc) && pc.serial == t) || pc.Classifying? || pc.Moving?
  }

  ghost predicate AllJustified(w: World) {
    && (forall t :: t in w.disk.creation ==> w.disk.creation[t] in w.pcs)
    && (forall a :: a in w.pcs ==> Justified(w.disk, a, w.pcs[a]))
  }

  lemma JustifiedCreator(d: Disk, a: Actor, pc: Pc, o: Oracle)
    requires Justified(d, a, pc) && !pc.Classifying? && !pc.Moving?
    ensures Justified(Next(d, a, pc, o).disk, a, Next(d, a, pc, o).pc)
  {
  }

  lemma JustifiedRecovery(d: Disk, a: Actor, pc: Pc, o: Oracle)
    requires pc.Classifying? || pc.Moving?
    ensures Justified(Next(d, a, pc, o).disk, a, Next(d, a, pc, o).pc)
  {
  }

  /** A step of `a` gives no creation lock to anybody else. */
  lemma LocksOfOthers(d: Disk, a: Actor, pc: Pc, o: Oracle, t: TreeId)
    requires t in Next(d, a, pc, o).disk.creation && Next(d, a, pc, o).disk.creation[t] != a
    ensures t in d.creation && d.creation[t] == Next(d, a, pc, o).disk.creation[t]
  {
  }

  lemma JustifiedStep(w: World, action: Action)
    requires AllJustified(w) && Enabled(w, action)
    ensures AllJustified(Apply(w, action))
  {
    if action.Step? {
      var a, w' := action.a, Apply(w, action);
      if w.pcs[a].Classifying? || w.pcs[a].Moving? { JustifiedRecovery(w.disk, a, w.pcs[a], action.o); }
      else { JustifiedCreator(w.disk, a, w.pcs[a], action.o); }
      forall t | t in w'.disk.creation && w'.disk.creation[t] != a
        ensures t in w.disk.creation && w.disk.creation[t] == w'.disk.creation[t]
      {
        LocksOfOthers(w.disk, a, w.pcs[a], action.o, t);
      }
    }
  }

  lemma {:induction false} JustifiedRun(ws: seq<World>, actions: seq<Action>, i: nat)
    requires Run(ws, actions) && i < |ws|
    ensures AllJustified(ws[i])
  {
    if i > 0 {
      JustifiedRun(ws, actions, i - 1);
      assert StepAt(ws, actions, i - 1);
      JustifiedStep(ws[i - 1], actions[i - 1]);
    }
  }

  /** An entry that nobody works on: no creator has the staging name, nobody leases the alpha entry. */
  ghost predicate Unclaimed(w: World, p: Place) {
    && p in w.disk.at
    && match p
       case Staging(n) => forall b :: b in w.pcs && HasSerial(w.pcs[b]) ==> w.pcs[b].serial != n
       case Retired(_) => true
       case Reclaiming(_) => true
       case Alpha(_) => w.disk.at[p] !in w.disk.leased
       case _ => false
  }

  /** The same in terms of what is on disk: a staging directory without a lock file, or whose lock nobody holds. */
  ghost predicate Unlocked(d: Disk, p: Place) {
    && p in d.at
    && match p
       case Staging(_) => d.at[p] !in d.marked || d.at[p] !in d.creation
       case Retired(_) => true
       case Reclaiming(_) => true
       case Alpha(_) => d.at[p] !in d.leased
       case _ => false
  }

  /** Tree `t` is in no other staging directory than its own. */
  ghost predicate StagedOnlyAtHome(d: Disk, t: Serial) {
    forall n :: Staging(n) in d.at && d.at[Staging(n)] == t ==> n == t
  }

  ghost predicate AllAtHome(w: World) {
    forall a :: a in w.pcs && HasSerial(w.pcs[a]) ==> StagedOnlyAtHome(w.disk, w.pcs[a].serial)
  }

  lemma AtHomeNext(d: Disk, a: Actor, pc: Pc, o: Oracle, t: Serial)
    requires CreatorOk(d, a, pc) && StagedOnlyAtHome(d, t)
    ensures StagedOnlyAtHome(Next(d, a, pc, o).disk, t)
  {
  }

  lemma FreshIsAtHome(d: Disk)
    requires Orderly(d)
    ensures StagedOnlyAtHome(d, d.next)
  {
  }

  lemma AtHomeStep(w: World, action: Action)
    requires Inv(w) && AllAtHome(w) && Enabled(w, action)
    ensures AllAtHome(Apply(w, action))
  {
    if action.Step? {
      var a, w' := action.a, Apply(w, action);
      forall q | q in w'.pcs && HasSerial(w'.pcs[q])
        ensures StagedOnlyAtHome(w'.disk, w'.pcs[q].serial)
      {
        if q == a { SerialNext(w.disk, a, w.pcs[a], action.o); }
        FreshIsAtHome(w.disk);
        AtHomeNext(w.disk, a, w.pcs[a], action.o, w'.pcs[q].serial);
      }
    }
  }

  lemma {:induction false} AtHomeRun(ws: seq<World>, actions: seq<Action>, i: nat)
    requires Run(ws, actions) && i < |ws|
    ensures AllAtHome(ws[i])
  {
    if i > 0 {
      AtHomeRun(ws, actions, i - 1);
      InvRun(ws, actions, i - 1);
      assert StepAt(ws, actions, i - 1);
      AtHomeStep(ws[i - 1], actions[i - 1]);
    }
  }

  /** While a recovery is about to list the store, only creators hold creation locks, each that of its own tree. */
  lemma LocksAreOfCreators(w: World, a: Actor, t: TreeId)
    requires Inv(w) && AllJustified(w) && AllAtHome(w) && a in w.pcs && w.pcs[a] == Listing && t in w.disk.creation
    ensures var b := w.disk.creation[t]; b in w.pcs && HasSerial(w.pcs[b]) && w.pcs[b].serial == t
    ensures StagedOnlyAtHome(w.disk, t)
  {
    var b := w.disk.creation[t];
    assert HoldsStore(w.pcs[a]) && Justified(w.disk, b, w.pcs[b]);
  }

  lemma UnclaimedState(w: World, a: Actor, p: Place)
    requires Inv(w) && AllJustified(w) && AllAtHome(w) && a in w.pcs && w.pcs[a] == Listing && Unclaimed(w, p)
    ensures Unlocked(w.disk, p)
  {
    if p.Staging? && w.disk.at[p] in w.disk.creation { LocksAreOfCreators(w, a, w.disk.at[p]); }
  }

  /** When a recovery comes to list the store, nobody holds the lock of an entry that nobody works on. */
  lemma UnclaimedIsUnlocked(ws: seq<World>, actions: seq<Action>, i: nat, a: Actor, p: Place)
    requires Run(ws, actions) && i < |ws| && a in ws[i].pcs && ws[i].pcs[a] == Listing && Unclaimed(ws[i], p)
    ensures Unlocked(ws[i].disk, p)
  {
    InvRun(ws, actions, i);
    JustifiedRun(ws, actions, i);
    AtHomeRun(ws, actions, i);
    UnclaimedState(ws[i], a, p);
  }

  /** A directory listing that misses no reserved entry. */
  ghost predicate Complete(d: Disk, listing: seq<Place>) {
    forall p :: p in d.at && Reserved(p) ==> p in listing
  }

  ghost predicate Gone(d: Disk, t: TreeId) {
    forall p :: p in d.at ==> d.at[p] != t
  }

  /** Another recovery renames tree `t` in this step. */
  ghost predicate TakesOver(w: World, action: Action, a: Actor, t: TreeId) {
    && action.Step? && action.a != a && action.a in w.pcs && w.pcs[action.a].Moving? && action.o.ok
    && w.pcs[action.a].todo != [] && w.pcs[action.a].todo[0] in w.disk.at && w.disk.at[w.pcs[action.a].todo[0]] == t
  }

  /** Tree `t`, now called `p`, is on the list of the recovery that is at `pc`. */
  ghost predicate Tracks(d: Disk, pc: Pc, t: TreeId, p: Place) {
    && p in d.at && d.at[p] == t
    && match pc
       case Classifying(todo, found) => p in found || (p in todo && Stale(d, p))
       case Moving(todo, moved) => p in todo || p in moved
       case Deleting(todo) => p in todo
       case _ => false
  }

  // --------------------------------------------------------- its own steps

  lemma TracksClassifying(d: Disk, a: Actor, pc: Pc, o: Oracle, t: TreeId, p: Place)
    requires pc.Classifying? && Tracks(d, pc, t, p) && o.ok && Orderly(d)
    ensures Tracks(Next(d, a, pc, o).disk, Next(d, a, pc, o).pc, t, p)
  {
    if pc.todo != [] {
      var d', first := Next(d, a, pc, o).disk, pc.todo[0];
      assert pc.todo == [first] + pc.todo[1..];
      if p != first && p !in pc.found { assert Stale(d', p); }
    }
  }

  lemma TracksMoving(d: Disk, a: Actor, pc: Pc, o: Oracle, t: TreeId, p: Place) returns (p': Place)
    requires pc.Moving? && Tracks(d, pc, t, p) && o.ok && Orderly(d)
    ensures Tracks(Next(d, a, pc, o).disk, Next(d, a, pc, o).pc, t, p')
  {
    FreshPlaces(d);
    p' := p;
    if pc.todo != [] {
      assert pc.todo == [pc.todo[0]] + pc.todo[1..];
      if pc.todo[0] == p { p' := Reclaiming(d.next); }
    }
  }

  lemma TracksDeleting(d: Disk, a: Actor, pc: Pc, o: Oracle, t: TreeId, p: Place)
    requires pc.Deleting? && Tracks(d, pc, t, p) && o.ok && Orderly(d)
    ensures Gone(Next(d, a, pc, o).disk, t) || Tracks(Next(d, a, pc, o).disk, Next(d, a, pc, o).pc, t, p)
  {
    assert pc.todo == [pc.todo[0]] + pc.todo[1..];
  }

  // ------------------------------------------------------- everybody else's steps

  /** While `a` holds the store lock, others can only make the tree vanish or become more stale. */
  lemma OthersLeaveListed(d: Disk, b: Actor, pc: Pc, o: Oracle, t: TreeId, p: Place)
    requires Orderly(d) && CreatorOk(d, b, pc) && RecoveryOk(d, pc) && !HoldsStore(pc) && p in d.at && d.at[p] == t
    ensures var d' := Next(d, b, pc, o).disk;
            Gone(d', t) || (p in d'.at && d'.at[p] == t && (Stale(d, p) ==> Stale(d', p)))
  {
  }

  /** Once `a` has let go of it, others may also take the tree over. */
  lemma OthersLeaveMoved(d: Disk, b: Actor, pc: Pc, o: Oracle, t: TreeId, p: Place)
    requires Orderly(d) && CreatorOk(d, b, pc) && RecoveryOk(d, pc) && p in d.at && d.at[p] == t && (p.Reclaiming? || p.Retired?)
    requires !(pc.Moving? && o.ok && pc.todo != [] && pc.todo[0] in d.at && d.at[pc.todo[0]] == t)
    ensures var d' := Next(d, b, pc, o).disk; Gone(d', t) || (p in d'.at && d'.at[p] == t)
  {
  }

  lemma GoneNext(d: Disk, b: Actor, pc: Pc, o: Oracle, t: TreeId)
    requires Gone(d, t) && t < d.next && CreatorOk(d, b, pc)
    ensures Gone(Next(d, b, pc, o).disk, t) && t < Next(d, b, pc, o).disk.next
  {
  }

  lemma TrackedByOwnStep(w: World, o: Oracle, a: Actor, t: TreeId, p: Place) returns (p': Place)
    requires Inv(w) && Enabled(w, Step(a, o)) && o.ok && Tracks(w.disk, w.pcs[a], t, p)
    ensures var w' := Apply(w, Step(a, o)); Gone(w'.disk, t) || Tracks(w'.disk, w'.pcs[a], t, p')
  {
    var pc := w.pcs[a];
    p' := p;
    if pc.Classifying? { TracksClassifying(w.disk, a, pc, o, t, p); }
    else if pc.Moving? { p' := TracksMoving(w.disk, a, pc, o, t, p); }
    else { TracksDeleting(w.disk, a, pc, o, t, p); }
  }

  lemma TrackedByOthers(w: World, action: Action, a: Actor, t: TreeId, p: Place)
    requires Inv(w) && Enabled(w, action) && a in w.pcs && Tracks(w.disk, w.pcs[a], t, p)
    requires !action.Unlease? ==> action.a != a
    requires !TakesOver(w, action, a, t)
    ensures var w' := Apply(w, action);
            a in w'.pcs && w'.pcs[a] == w.pcs[a] && (Gone(w'.disk, t) || Tracks(w'.disk, w'.pcs[a], t, p))
  {
    if action.Step? {
      var pcb := w.pcs[action.a];
      if w.pcs[a].Deleting? {
        assert p.Reclaiming? || p.Retired?;
        OthersLeaveMoved(w.disk, action.a, pcb, action.o, t, p);
      } else {
        OthersLeaveListed(w.disk, action.a, pcb, action.o, t, p);
      }
    }
  }

  // ------------------------------------------------------------------ the run

  /**
   * From state `i` to state `j`, recovery `a` lists every reserved entry, and
   * all its renames and deletions succeed.
   */
  ghost predicate Recovers(ws: seq<World>, actions: seq<Action>, i: nat, j: nat, a: Actor) {
    && |ws| == |actions| + 1 && i < j < |ws| && a in ws[i].pcs && ws[i].pcs[a] == Listing
    && actions[i].Step? && actions[i].a == a && Complete(ws[i].disk, actions[i].o.listing)
    && forall k :: i <= k < j ==> Undisturbed(actions[k], a)
  }

  predicate Undisturbed(action: Action, a: Actor) {
    (action.Step? && action.a == a ==> action.o.ok) && action != Crash(a)
  }

  ghost predicate TakenOver(ws: seq<World>, actions: seq<Action>, i: nat, j: nat, a: Actor, t: TreeId)
    requires |ws| == |actions| + 1 && j < |ws|
  {
    exists k: nat :: i < k < j && TakesOver(ws[k], actions[k], a, t)
  }

  ghost predicate Settled(ws: seq<World>, actions: seq<Action>, i: nat, m: nat, a: Actor, t: TreeId)
    requires |ws| == |actions| + 1 && m < |ws|
  {
    t < ws[m].disk.next && a in ws[m].pcs
    && (Gone(ws[m].disk, t) || TakenOver(ws, actions, i, m, a, t) || exists p :: Tracks(ws[m].disk, ws[m].pcs[a], t, p))
  }

  lemma SettledStep(ws: seq<World>, actions: seq<Action>, i: nat, m: nat, a: Actor, t: TreeId)
    requires Run(ws, actions) && i < m < |actions| && Settled(ws, actions, i, m, a, t) && Undisturbed(actions[m], a)
    ensures Settled(ws, actions, i, m + 1, a, t)
  {
    InvRun(ws, actions, m);
    assert StepAt(ws, actions, m);
    var w, action := ws[m], actions[m];
    if action.Step? { OrderlyNext(w.disk, action.a, w.pcs[action.a], action.o); }
    if TakenOver(ws, actions, i, m, a, t) {
      var k: nat :| i < k < m && TakesOver(ws[k], actions[k], a, t);
      assert TakenOver(ws, actions, i, m + 1, a, t);
    } else if Gone(w.disk, t) {
      if action.Step? { GoneNext(w.disk, action.a, w.pcs[action.a], action.o, t); }
    } else if TakesOver(w, action, a, t) {
      assert TakenOver(ws, actions, i, m + 1, a, t);
    } else {
      var p :| Tracks(w.disk, w.pcs[a], t, p);
      if action.Step? && action.a == a { var p' := TrackedByOwnStep(w, action.o, a, t, p); }
      else { TrackedByOthers(w, action, a, t, p); }
    }
  }

  lemma {:induction false} SettledThroughout(ws: seq<World>, actions: seq<Action>, i: nat, m: nat, a: Actor, p: Place)
    requires Run(ws, actions) && Recovers(ws, actions, i, m, a) && Stale(ws[i].disk, p)
    ensures Settled(ws, actions, i, m, a, ws[i].disk.at[p])
    decreases m - i
  {
    var t := ws[i].disk.at[p];
    if m == i + 1 {
      InvRun(ws, actions, i);
      assert StepAt(ws, actions, i) && Undisturbed(actions[i], a);
      assert Tracks(ws[m].disk, ws[m].pcs[a], t, p);
    } else {
      SettledThroughout(ws, actions, i, m - 1, a, p);
      SettledStep(ws, actions, i, m - 1, a, t);
    }
  }

  lemma UnlockedIsStale(d: Disk, p: Place)
    requires Unlocked(d, p)
    ensures Stale(d, p)
  {
  }

  /**
   * A full recovery, whatever other processes do meanwhile: when it has worked
   * through its list, every entry that was unlocked when it listed the store
   * is gone (a staging directory without a lock file or with a free lock, a
   * retired or reclaiming directory, an alpha entry without a lease), unless
   * another recovery renamed it in the meantime and so took over its deletion.
   */
  lemma FullRecoveryReclaims(ws: seq<World>, actions: seq<Action>, i: nat, j: nat, a: Actor, p: Place)
    requires Run(ws, actions) && Recovers(ws, actions, i, j, a) && Unlocked(ws[i].disk, p)
    requires a in ws[j].pcs && ws[j].pcs[a] == Deleting([])
    ensures Gone(ws[j].disk, ws[i].disk.at[p]) || TakenOver(ws, actions, i, j, a, ws[i].disk.at[p])
  {
    UnlockedIsStale(ws[i].disk, p);
    SettledThroughout(ws, actions, i, j, a, p);
  }

  /** In particular every entry that no process works on at that time is gone, or taken over. */
  lemma UnclaimedEntriesAreReclaimed(ws: seq<World>, actions: seq<Action>, i: nat, j: nat, a: Actor, p: Place)
    requires Run(ws, actions) && Recovers(ws, actions, i, j, a) && Unclaimed(ws[i], p)
    requires a in ws[j].pcs && ws[j].pcs[a] == Deleting([])
    ensures Gone(ws[j].disk, ws[i].disk.at[p]) || TakenOver(ws, actions, i, j, a, ws[i].disk.at[p])
  {
    UnclaimedIsUnlocked(ws, actions, i, a, p);
    FullRecoveryReclaims(ws, actions, i, j, a, p);
  }

  /** The exception is real: a recovery that renames the tree just before it is deleted leaves nothing to delete. */
  lemma TakenOverTreesAreLeftToTheOther(ws: seq<World>, actions: seq<Action>, i: nat, a: Actor, b: Actor, p: Place, o: Oracle)
    requires Run(ws, actions) && i < |ws| && a in ws[i].pcs && b in ws[i].pcs && p in ws[i].disk.at && o.ok && o.listing == []
    requires ws[i].pcs[a] == Deleting([p]) && ws[i].pcs[b].Moving? && ws[i].pcs[b].todo == [p]
    ensures var w := Apply(ws[i], Step(b, o));
            Enabled(w, Step(a, o)) && Apply(w, Step(a, o)).pcs[a] == Deleting([])
            && !Gone(Apply(w, Step(a, o)).disk, ws[i].disk.at[p])
  {
    InvRun(ws, actions, i);
    FreshPlaces(ws[i].disk);
    var w := Apply(ws[i], Step(b, o));
    assert Reclaiming(ws[i].disk.next) in Apply(w, Step(a, o)).disk.at;
  }
}
