/**
 * The promises of creation, removal and recovery, over every run of any
 * number of them with crashes in between.
 */
module StoreTheorems {
  import opened Base
  import opened StoreProtocol
  import opened StoreSafety

  // ------------------------------------------------------------------ creators

  /**
   * Until it publishes or gives up, a creator keeps its staging directory
   * under its name, with the tree it made, whatever recoveries and other
   * creators do; and from `Locked` on it also keeps the creation lock.
   */
  lemma CreatorKeepsItsStaging(ws: seq<World>, actions: seq<Action>, i: nat, a: Actor)
    requires Run(ws, actions) && i < |ws| && a in ws[i].pcs && Owns(ws[i].pcs[a])
    ensures var d, n := ws[i].disk, ws[i].pcs[a].serial;
            && Staging(n) in d.at && d.at[Staging(n)] == n
            && (HoldsCreation(ws[i].pcs[a]) ==> n in d.creation && d.creation[n] == a)
  {
    InvRun(ws, actions, i);
  }

  /** So the identity checks before publication never fail because of another process. */
  lemma VerificationSucceeds(ws: seq<World>, actions: seq<Action>, i: nat, a: Actor, o: Oracle)
    requires Run(ws, actions) && i < |ws| && a in ws[i].pcs && o.ok
    requires ws[i].pcs[a].Populating? || ws[i].pcs[a].Publishing?
    ensures Verified(ws[i].disk, ws[i].pcs[a].serial)
    ensures ws[i].pcs[a].Publishing? && Space(ws[i].pcs[a].name) !in ws[i].disk.at
            ==> Next(ws[i].disk, a, ws[i].pcs[a], o).pc == Unmarking(ws[i].pcs[a].name, ws[i].pcs[a].serial)
  {
    InvRun(ws, actions, i);
  }

  /** A new creation lock is never already held. */
  lemma NewCreationLockIsFree(ws: seq<World>, actions: seq<Action>, i: nat, a: Actor, o: Oracle)
    requires Run(ws, actions) && i < |ws| && a in ws[i].pcs && ws[i].pcs[a].Marked? && o.ok
    ensures ws[i].pcs[a].serial !in ws[i].disk.creation
    ensures Next(ws[i].disk, a, ws[i].pcs[a], o).pc == Locked(ws[i].pcs[a].name, ws[i].pcs[a].serial)
  {
    InvRun(ws, actions, i);
  }

  // --------------------------------------------------------------- publication

  /** Step `i` publishes a space of this name. */
  ghost predicate Publishes(ws: seq<World>, actions: seq<Action>, i: nat, name: string)
    requires Run(ws, actions) && i < |actions|
  {
    && actions[i].Step? && actions[i].a in ws[i].pcs && ws[i].pcs[actions[i].a].Renaming?
    && ws[i].pcs[actions[i].a].name == name && actions[i].o.ok
  }

  /** Step `i` retires the space of this name. */
  ghost predicate Retires(ws: seq<World>, actions: seq<Action>, i: nat, name: string)
    requires Run(ws, actions) && i < |actions|
  {
    && actions[i].Step? && actions[i].a in ws[i].pcs && ws[i].pcs[actions[i].a] == Removing(name) && actions[i].o.ok
    && Space(name) in ws[i].disk.at
  }

  /** Publication never overwrites: the name was free, and only that name appears. */
  lemma PublicationNeverOverwrites(ws: seq<World>, actions: seq<Action>, i: nat, name: string)
    requires Run(ws, actions) && i < |actions| && Publishes(ws, actions, i, name)
    ensures Space(name) !in ws[i].disk.at && Space(name) in ws[i + 1].disk.at
    ensures ws[i + 1].disk.at[Space(name)] == ws[i].pcs[actions[i].a].serial
    ensures forall p :: p in ws[i].disk.at && p != Staging(ws[i].pcs[actions[i].a].serial)
                        ==> p in ws[i + 1].disk.at && ws[i + 1].disk.at[p] == ws[i].disk.at[p]
  {
    InvRun(ws, actions, i);
    assert StepAt(ws, actions, i);
  }

  /** Only a removal takes a space away, and only a publication brings one. */
  lemma SpacesNext(d: Disk, a: Actor, pc: Pc, o: Oracle, name: string)
    requires CreatorOk(d, a, pc) && RecoveryOk(d, pc)
    ensures var at' := Next(d, a, pc, o).disk.at;
            && (Space(name) in d.at && !(pc == Removing(name) && o.ok)
                ==> Space(name) in at' && at'[Space(name)] == d.at[Space(name)])
            && (Space(name) !in d.at && !(pc.Renaming? && pc.name == name && o.ok) ==> Space(name) !in at')
  {
    if pc.Moving? && pc.todo != [] { assert Movable(d, Pending(pc)[0]); }
  }

  lemma SpaceStays(ws: seq<World>, actions: seq<Action>, i: nat, name: string)
    requires Run(ws, actions) && i < |actions| && Space(name) in ws[i].disk.at && !Retires(ws, actions, i, name)
    ensures Space(name) in ws[i + 1].disk.at && ws[i + 1].disk.at[Space(name)] == ws[i].disk.at[Space(name)]
  {
    InvRun(ws, actions, i);
    assert StepAt(ws, actions, i);
    if actions[i].Step? { SpacesNext(ws[i].disk, actions[i].a, ws[i].pcs[actions[i].a], actions[i].o, name); }
  }

  lemma {:induction false} SpaceStaysUntilRetired(ws: seq<World>, actions: seq<Action>, i: nat, j: nat, name: string)
    requires Run(ws, actions) && i <= j < |ws| && Space(name) in ws[i].disk.at
    requires forall k: nat :: i <= k < j ==> !Retires(ws, actions, k, name)
    ensures Space(name) in ws[j].disk.at && ws[j].disk.at[Space(name)] == ws[i].disk.at[Space(name)]
    decreases j - i
  {
    if i < j {
      SpaceStays(ws, actions, i, name);
      SpaceStaysUntilRetired(ws, actions, i + 1, j, name);
    }
  }

  /** At most one creator of a name succeeds, unless the space is removed in between. */
  lemma AtMostOneCreatorSucceeds(ws: seq<World>, actions: seq<Action>, i: nat, j: nat, name: string)
    requires Run(ws, actions) && i < j < |actions|
    requires Publishes(ws, actions, i, name) && Publishes(ws, actions, j, name)
    ensures exists k: nat :: i < k < j && Retires(ws, actions, k, name)
  {
    if forall k: nat :: i < k < j ==> !Retires(ws, actions, k, name) {
      PublicationNeverOverwrites(ws, actions, i, name);
      SpaceStaysUntilRetired(ws, actions, i + 1, j, name);
      PublicationNeverOverwrites(ws, actions, j, name);
    }
  }

  // ------------------------------------------------------- what goes through

  /** With nothing failing, a deletion is not cut short. */
  predicate Smooth(o: Oracle) {
    o.ok && !o.partial
  }

  /** After step `i` process `a` is at `pc`. */
  predicate GoesTo(ws: seq<World>, i: nat, a: Actor, pc: Pc) {
    i + 1 < |ws| && a in ws[i + 1].pcs && ws[i + 1].pcs[a] == pc
  }

  /** Step `i` is one of process `a` in which nothing fails. */
  predicate StepsSmoothly(ws: seq<World>, actions: seq<Action>, i: nat, a: Actor) {
    i < |actions| && i < |ws| && actions[i].Step? && actions[i].a == a && Smooth(actions[i].o) && a in ws[i].pcs
  }

  /**
   * With nothing failing a creator goes on from each point to the next, up to
   * making its staging directory; it only waits for the store lock, and gives
   * up only if the name is taken.
   */
  lemma CreationGetsStarted(ws: seq<World>, actions: seq<Action>, i: nat, a: Actor)
    requires Run(ws, actions) && StepsSmoothly(ws, actions, i, a)
    ensures var d, pc := ws[i].disk, ws[i].pcs[a];
            && (pc.WantsSetup? && d.lock == None ==> GoesTo(ws, i, a, Setup(pc.name)))
            && (pc.Setup? && Space(pc.name) in d.at ==> GoesTo(ws, i, a, Idle) && ws[i + 1].disk.lock == None)
            && (pc.Setup? && Space(pc.name) !in d.at
                ==> GoesTo(ws, i, a, Made(pc.name, d.next)) && Staging(d.next) !in d.at
                    && Staging(d.next) in ws[i + 1].disk.at && ws[i + 1].disk.at[Staging(d.next)] == d.next)
            && (pc.Made? ==> GoesTo(ws, i, a, Marked(pc.name, pc.serial)) && pc.serial in ws[i + 1].disk.marked)
  {
    InvRun(ws, actions, i);
    assert StepAt(ws, actions, i);
    FreshPlaces(ws[i].disk);
  }

  /** And from there to publication, after which the space has its name and all locks are free. */
  lemma CreationGoesThrough(ws: seq<World>, actions: seq<Action>, i: nat, a: Actor)
    requires Run(ws, actions) && StepsSmoothly(ws, actions, i, a)
    ensures var d, pc := ws[i].disk, ws[i].pcs[a];
            && (pc.Marked? ==> GoesTo(ws, i, a, Locked(pc.name, pc.serial)) && pc.serial in ws[i + 1].disk.creation)
            && (pc.Locked? ==> GoesTo(ws, i, a, Populating(pc.name, pc.serial)) && ws[i + 1].disk.lock == None)
            && (pc.Populating? && d.lock == None ==> GoesTo(ws, i, a, Publishing(pc.name, pc.serial)))
            && (pc.Publishing? && Space(pc.name) in d.at ==> GoesTo(ws, i, a, Cleaning(pc.serial, false)))
            && (pc.Publishing? && Space(pc.name) !in d.at ==> GoesTo(ws, i, a, Unmarking(pc.name, pc.serial)))
            && (pc.Unmarking? ==> GoesTo(ws, i, a, Renaming(pc.name, pc.serial)) && pc.serial !in ws[i + 1].disk.marked)
  {
    InvRun(ws, actions, i);
    assert StepAt(ws, actions, i);
  }

  lemma PublicationCompletes(ws: seq<World>, actions: seq<Action>, i: nat, a: Actor)
    requires Run(ws, actions) && StepsSmoothly(ws, actions, i, a) && ws[i].pcs[a].Renaming?
    ensures var d', pc := ws[i + 1].disk, ws[i].pcs[a];
            && GoesTo(ws, i, a, Published(pc.name, pc.serial)) && d'.lock == None && pc.serial !in d'.creation
            && Space(pc.name) in d'.at && d'.at[Space(pc.name)] == pc.serial && Staging(pc.serial) !in d'.at
  {
    InvRun(ws, actions, i);
    assert StepAt(ws, actions, i);
  }

  /** A creator that gives up takes its own staging directory away, unless that fails, and lets go of its locks. */
  lemma GivingUpCleansUp(ws: seq<World>, actions: seq<Action>, i: nat, a: Actor)
    requires Run(ws, actions) && StepsSmoothly(ws, actions, i, a) && ws[i].pcs[a].Cleaning?
    ensures var d', n := ws[i + 1].disk, ws[i].pcs[a].serial;
            GoesTo(ws, i, a, Idle) && d'.lock != Some(a) && (forall t :: t in d'.creation ==> d'.creation[t] != a)
            && (Staging(n) in d'.at ==> d'.at[Staging(n)] != n)
  {
    assert StepAt(ws, actions, i);
  }

  /** A creator never publishes a directory that is no longer its own, however that came about. */
  lemma OnlyOwnStagingsArePublished(d: Disk, a: Actor, pc: Pc, o: Oracle)
    requires pc.Publishing? && Next(d, a, pc, o).pc.Unmarking?
    ensures Staging(pc.serial) in d.at && d.at[Staging(pc.serial)] == pc.serial && pc.serial in d.marked
    ensures Space(pc.name) !in d.at
  {
  }

  /** A removal with nothing failing retires the space's very tree, and then deletes it. */
  lemma RemovalGoesThrough(ws: seq<World>, actions: seq<Action>, i: nat, a: Actor)
    requires Run(ws, actions) && StepsSmoothly(ws, actions, i, a)
    ensures var d, d', pc := ws[i].disk, ws[i + 1].disk, ws[i].pcs[a];
            && (pc.WantsRemoval? && d.lock == None ==> GoesTo(ws, i, a, Removing(pc.name)))
            && (pc.Removing? && Space(pc.name) in d.at
                ==> GoesTo(ws, i, a, Deleting([Retired(d.next)])) && d'.lock == None && Space(pc.name) !in d'.at
                    && Retired(d.next) in d'.at && d'.at[Retired(d.next)] == d.at[Space(pc.name)])
            && (pc.Deleting? && pc.todo != [] ==> GoesTo(ws, i, a, Deleting(pc.todo[1..])) && pc.todo[0] !in d'.at)
  {
    InvRun(ws, actions, i);
    assert StepAt(ws, actions, i);
    FreshPlaces(ws[i].disk);
  }

  /** A recovery with nothing failing works through its lists to the end, and deletes with the store lock released. */
  lemma RecoveryGoesThrough(ws: seq<World>, actions: seq<Action>, i: nat, a: Actor)
    requires Run(ws, actions) && StepsSmoothly(ws, actions, i, a)
    ensures var pc := ws[i].pcs[a];
            && (pc.WantsRecovery? && ws[i].disk.lock == None ==> GoesTo(ws, i, a, Listing))
            && (pc.Listing? ==> GoesTo(ws, i, a, Classifying(actions[i].o.listing, [])))
            && (pc.Classifying? && pc.todo != []
                ==> GoesTo(ws, i, a, Classifying(pc.todo[1..], pc.found)) || GoesTo(ws, i, a, Classifying(pc.todo[1..], pc.found + [pc.todo[0]])))
            && (pc.Classifying? && pc.todo == [] ==> GoesTo(ws, i, a, Moving(pc.found, [])))
            && (pc.Moving? && pc.todo != []
                ==> a in ws[i + 1].pcs && ws[i + 1].pcs[a].Moving? && ws[i + 1].pcs[a].todo == pc.todo[1..])
            && (pc.Moving? && pc.todo == [] ==> GoesTo(ws, i, a, Deleting(pc.moved)) && ws[i + 1].disk.lock == None)
            && (pc.Deleting? && pc.todo == [] ==> GoesTo(ws, i, a, Idle))
  {
    InvRun(ws, actions, i);
    assert StepAt(ws, actions, i);
  }

  // ------------------------------------------------------------------ recovery

  /** Every tree has at most one name at any time. */
  lemma TreesHaveOneName(ws: seq<World>, actions: seq<Action>, i: nat, p: Place, q: Place)
    requires Run(ws, actions) && i < |ws| && p in ws[i].disk.at && q in ws[i].disk.at && ws[i].disk.at[p] == ws[i].disk.at[q]
    ensures p == q
  {
    InvRun(ws, actions, i);
  }

  /** A name under which no process expects to find its tree again. */
  ghost predicate Residue(w: World, p: Place) {
    && p in w.disk.at && Reserved(p)
    && (p.Staging? ==> forall a :: a in w.pcs && HasSerial(w.pcs[a]) ==> w.pcs[a].serial != p.serial)
  }

  /** The tree that was residue under `p` is still there, under a reclaiming name, or gone. */
  ghost predicate Reclaimed(d: Disk, p: Place, t: TreeId) {
    forall q :: q in d.at && d.at[q] == t ==> q == p || q.Reclaiming?
  }

  lemma ResidueNext(w: World, a: Actor, o: Oracle, p: Place, t: TreeId)
    requires Inv(w) && a in w.pcs && t < w.disk.next && Reclaimed(w.disk, p, t) && Reserved(p)
    requires p.Staging? ==> p.serial < w.disk.next && (HasSerial(w.pcs[a]) ==> w.pcs[a].serial != p.serial)
    ensures Reclaimed(Next(w.disk, a, w.pcs[a], o).disk, p, t)
  {
  }

  /** No creator will ever take this staging name again. */
  ghost predicate Abandoned(w: World, p: Place) {
    p.Staging? ==> p.serial < w.disk.next && forall a :: a in w.pcs && HasSerial(w.pcs[a]) ==> w.pcs[a].serial != p.serial
  }

  lemma AbandonedStep(w: World, action: Action, p: Place)
    requires Inv(w) && Enabled(w, action) && Abandoned(w, p)
    ensures Abandoned(Apply(w, action), p)
  {
    if action.Step? {
      OrderlyNext(w.disk, action.a, w.pcs[action.a], action.o);
      if HasSerial(Next(w.disk, action.a, w.pcs[action.a], action.o).pc) {
        SerialNext(w.disk, action.a, w.pcs[action.a], action.o);
      }
    }
  }

  /**
   * Recovery converges: whatever recoveries, creations and removals run, and
   * wherever they are cut off, a residue tree is from then on under its
   * original name, under a reclaiming name, or gone.
   */
  lemma {:induction false} ResidueConverges(ws: seq<World>, actions: seq<Action>, i: nat, j: nat, p: Place)
    requires Run(ws, actions) && i <= j < |ws| && Residue(ws[i], p)
    ensures Reclaimed(ws[j].disk, p, ws[i].disk.at[p]) && Abandoned(ws[j], p) && ws[i].disk.at[p] < ws[j].disk.next
    decreases j - i
  {
    InvRun(ws, actions, i);
    if i < j {
      ResidueConverges(ws, actions, i, j - 1, p);
      InvRun(ws, actions, j - 1);
      assert StepAt(ws, actions, j - 1);
      AbandonedStep(ws[j - 1], actions[j - 1], p);
      if actions[j - 1].Step? {
        ResidueNext(ws[j - 1], actions[j - 1].a, actions[j - 1].o, p, ws[i].disk.at[p]);
        OrderlyNext(ws[j - 1].disk, actions[j - 1].a, ws[j - 1].pcs[actions[j - 1].a], actions[j - 1].o);
      }
    }
  }

  /** The program points of a recovery. */
  predicate Recovering(pc: Pc) {
    pc.WantsRecovery? || pc.Listing? || pc.Classifying? || pc.Moving? || pc.Deleting?
  }

  /** What recovery must not touch: spaces, unknown names, stagings of live creators, leased alpha entries. */
  ghost predicate Protected(w: World, p: Place) {
    && p in w.disk.at
    && (p.Space? || p.Unknown? || (p.Alpha? && w.disk.at[p] in w.disk.leased)
        || (p.Staging? && exists c :: c in w.pcs && Owns(w.pcs[c]) && w.pcs[c].serial == p.serial))
  }

  lemma RecoveryNextLeavesAlone(d: Disk, a: Actor, pc: Pc, o: Oracle, p: Place)
    requires RecoveryOk(d, pc) && Recovering(pc) && p in d.at
    requires p.Space? || p.Unknown? || (p.Alpha? && d.at[p] in d.leased)
    ensures p in Next(d, a, pc, o).disk.at && Next(d, a, pc, o).disk.at[p] == d.at[p]
  {
    if pc.Moving? && pc.todo != [] { assert Movable(d, Pending(pc)[0]); }
  }

  lemma RecoveryLeavesProtectedAlone(ws: seq<World>, actions: seq<Action>, i: nat, p: Place)
    requires Run(ws, actions) && i < |actions| && actions[i].Step? && Protected(ws[i], p)
    requires actions[i].a in ws[i].pcs && Recovering(ws[i].pcs[actions[i].a])
    ensures p in ws[i + 1].disk.at && ws[i + 1].disk.at[p] == ws[i].disk.at[p]
  {
    var a, pc := actions[i].a, ws[i].pcs[actions[i].a];
    InvRun(ws, actions, i);
    assert StepAt(ws, actions, i);
    if p.Staging? {
      var c :| c in ws[i].pcs && Owns(ws[i].pcs[c]) && ws[i].pcs[c].serial == p.serial;
      StepSpares(ws[i].disk, a, pc, actions[i].o, c, ws[i].pcs[c]);
    } else {
      RecoveryNextLeavesAlone(ws[i].disk, a, pc, actions[i].o, p);
    }
  }
}
