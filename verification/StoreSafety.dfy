/**
 * What every run of the store protocol keeps.
 */
module StoreSafety {
  import opened Base
  import opened StoreProtocol

  /** A creator whose staging directory must still be there: from making it until publishing it. */
  predicate Owns(pc: Pc) {
    pc.Made? || pc.Marked? || pc.Locked? || pc.Populating? || pc.Publishing? || pc.Unmarking? || pc.Renaming?
  }

  predicate HasSerial(pc: Pc) {
    Owns(pc) || pc.Cleaning?
  }

  predicate HoldsCreation(pc: Pc) {
    pc.Locked? || pc.Populating? || pc.Publishing? || pc.Unmarking? || pc.Renaming?
  }

  /** What a creator may rely on at each point of its transaction. */
  ghost predicate CreatorOk(d: Disk, a: Actor, pc: Pc) {
    && (HasSerial(pc) ==> pc.serial < d.next)
    && (Owns(pc) ==> Staging(pc.serial) in d.at && d.at[Staging(pc.serial)] == pc.serial)
    && (pc.Made? ==> pc.serial !in d.marked)
    && (pc.Made? || pc.Marked? ==> pc.serial !in d.creation)
    && (pc.Marked? || (HoldsCreation(pc) && !pc.Renaming?) ==> pc.serial in d.marked)
    && (HoldsCreation(pc) ==> pc.serial in d.creation && d.creation[pc.serial] == a)
    && (pc.Unmarking? || pc.Renaming? ==> Space(pc.name) !in d.at)
  }

  /** The entries a recovery has decided to move. */
  function Pending(pc: Pc): seq<Place> {
    if pc.Classifying? then pc.found else if pc.Moving? then pc.todo else []
  }

  predicate Movable(d: Disk, p: Place) {
    Reserved(p) && (p.Alpha? && p in d.at ==> d.at[p] !in d.leased)
  }

  /** What a recovery or removal may rely on. */
  ghost predicate RecoveryOk(d: Disk, pc: Pc) {
    && (forall i :: 0 <= i < |Pending(pc)| ==> Movable(d, Pending(pc)[i]))
    && (pc.Classifying? ==> forall i :: 0 <= i < |pc.todo| ==> Reserved(pc.todo[i]))
    && (pc.Moving? ==> forall i :: 0 <= i < |pc.moved| ==> pc.moved[i].Reclaiming?)
    && (pc.Deleting? ==> forall i :: 0 <= i < |pc.todo| ==> pc.todo[i].Reclaiming? || pc.todo[i].Retired?)
  }

  ghost predicate LocksOk(w: World) {
    && (forall a :: a in w.pcs ==> (HoldsStore(w.pcs[a]) <==> w.disk.lock == Some(a)))
    && (w.disk.lock.Some? ==> w.disk.lock.value in w.pcs)
  }

  ghost predicate SerialsOk(w: World) {
    forall a, b :: a in w.pcs && b in w.pcs && HasSerial(w.pcs[a]) && HasSerial(w.pcs[b]) && w.pcs[a].serial == w.pcs[b].serial
      ==> a == b
  }

  /** No recovery has decided to move the staging directory of a creator that is populating it. */
  ghost predicate CrossOk(w: World) {
    forall a, b :: a in w.pcs && b in w.pcs && w.pcs[b].Populating? ==> Staging(w.pcs[b].serial) !in Pending(w.pcs[a])
  }

  ghost predicate Old(d: Disk) {
    (forall t :: t in d.marked ==> t < d.next) && (forall t :: t in d.creation ==> t < d.next)
  }

  ghost predicate ActorsOk(w: World) {
    forall a :: a in w.pcs ==> CreatorOk(w.disk, a, w.pcs[a]) && RecoveryOk(w.disk, w.pcs[a])
  }

  ghost predicate Inv(w: World) {
    Orderly(w.disk) && Old(w.disk) && LocksOk(w) && SerialsOk(w) && CrossOk(w) && ActorsOk(w)
  }

  // ------------------------------------------------------- renaming and deleting

  lemma OrderlyRelocate(d: Disk, d': Disk, p: Place, p': Place)
    requires Orderly(d) && p in d.at && p' !in d.at && d'.at == (d.at - {p})[p' := d.at[p]]
    requires d.next <= d'.next && (SerialOf(p').Some? ==> SerialOf(p').value < d'.next)
    ensures Orderly(d')
  {
    forall q | q in d'.at
      ensures d'.at[q] < d'.next && (SerialOf(q).Some? ==> SerialOf(q).value < d'.next)
    {
      if q != p' { assert q in d.at; }
    }
  }

  lemma OrderlyRemove(d: Disk, d': Disk, p: Place)
    requires Orderly(d) && d'.at == d.at - {p} && d'.next == d.next
    ensures Orderly(d')
  {
  }

  lemma OrderlyAdd(d: Disk, d': Disk)
    requires Orderly(d) && d'.at == d.at[Staging(d.next) := d.next] && d'.next == d.next + 1
    ensures Orderly(d')
  {
  }

  lemma FreshPlaces(d: Disk)
    requires Orderly(d)
    ensures Reclaiming(d.next) !in d.at && Retired(d.next) !in d.at && Staging(d.next) !in d.at
  {
    forall p | p in d.at
      ensures p != Reclaiming(d.next) && p != Retired(d.next) && p != Staging(d.next)
    {
      assert SerialOf(p).Some? ==> SerialOf(p).value < d.next;
    }
  }

  lemma OrderlyCreator(d: Disk, a: Actor, pc: Pc, o: Oracle)
    requires Orderly(d) && CreatorOk(d, a, pc) && (pc.Setup? || pc.Renaming? || pc.Cleaning?)
    ensures Orderly(Next(d, a, pc, o).disk) && d.next <= Next(d, a, pc, o).disk.next
  {
    var d' := Next(d, a, pc, o).disk;
    if pc.Setup? && d'.next != d.next { OrderlyAdd(d, d'); }
    else if pc.Renaming? && o.ok { OrderlyRelocate(d, d', Staging(pc.serial), Space(pc.name)); }
    else if pc.Cleaning? && Staging(pc.serial) !in d'.at { OrderlyRemove(d, d', Staging(pc.serial)); }
  }

  lemma OrderlyRecovery(d: Disk, a: Actor, pc: Pc, o: Oracle)
    requires Orderly(d) && (pc.Moving? || pc.Deleting? || pc.Removing?)
    ensures Orderly(Next(d, a, pc, o).disk) && d.next <= Next(d, a, pc, o).disk.next
  {
    var d' := Next(d, a, pc, o).disk;
    FreshPlaces(d);
    if pc.Moving? && d'.next != d.next { OrderlyRelocate(d, d', pc.todo[0], Reclaiming(d.next)); }
    else if pc.Deleting? && pc.todo != [] && o.ok { OrderlyRemove(d, d', pc.todo[0]); }
    else if pc.Removing? && d'.next != d.next { OrderlyRelocate(d, d', Space(pc.name), Retired(d.next)); }
  }

  lemma OrderlyNext(d: Disk, a: Actor, pc: Pc, o: Oracle)
    requires Orderly(d) && CreatorOk(d, a, pc)
    ensures Orderly(Next(d, a, pc, o).disk) && d.next <= Next(d, a, pc, o).disk.next
  {
    if pc.Setup? || pc.Renaming? || pc.Cleaning? { OrderlyCreator(d, a, pc, o); }
    else if pc.Moving? || pc.Deleting? || pc.Removing? { OrderlyRecovery(d, a, pc, o); }
  }

  lemma OldNext(d: Disk, a: Actor, pc: Pc, o: Oracle)
    requires Orderly(d) && Old(d) && CreatorOk(d, a, pc)
    ensures Old(Next(d, a, pc, o).disk)
  {
  }

  // ----------------------------------------------------------------- lock moves

  /** The store lock changes hands only when it is free, and only to and from this actor. */
  lemma LockNext(d: Disk, a: Actor, pc: Pc, o: Oracle)
    requires HoldsStore(pc) <==> d.lock == Some(a)
    ensures var m := Next(d, a, pc, o);
            && (HoldsStore(m.pc) <==> m.disk.lock == Some(a))
            && (m.disk.lock == d.lock || ((d.lock == None || d.lock == Some(a)) && (m.disk.lock == None || m.disk.lock == Some(a))))
  {
  }

  // ------------------------------------------------------------ sparing others

  /** Nothing another creator relies on has changed. */
  ghost predicate Spares(d: Disk, d': Disk, n: Serial) {
    && (Staging(n) in d.at ==> Staging(n) in d'.at && d'.at[Staging(n)] == d.at[Staging(n)])
    && (n in d.marked <==> n in d'.marked)
    && (n in d.creation ==> n in d'.creation && d'.creation[n] == d.creation[n])
    && (n !in d.creation ==> n !in d'.creation)
  }

  /** The other creator `q` is at `pcq`; `a` takes a step. */
  ghost predicate Apart(d: Disk, a: Actor, pc: Pc, q: Actor, pcq: Pc) {
    && a != q && Owns(pcq) && CreatorOk(d, q, pcq) && CreatorOk(d, a, pc) && RecoveryOk(d, pc) && Orderly(d)
    && (HasSerial(pc) ==> pc.serial != pcq.serial)
    && !(HoldsStore(pc) && HoldsStore(pcq))
    && (pcq.Populating? ==> Staging(pcq.serial) !in Pending(pc))
  }

  lemma CreatorSpares(d: Disk, a: Actor, pc: Pc, o: Oracle, q: Actor, pcq: Pc)
    requires Apart(d, a, pc, q, pcq)
    requires pc.WantsSetup? || pc.Setup? || pc.Made? || pc.Marked? || pc.Locked? || pc.Populating?
    ensures Spares(d, Next(d, a, pc, o).disk, pcq.serial)
    ensures HoldsStore(pcq) && Space(pcq.name) !in d.at ==> Space(pcq.name) !in Next(d, a, pc, o).disk.at
  {
  }

  lemma PublisherSpares(d: Disk, a: Actor, pc: Pc, o: Oracle, q: Actor, pcq: Pc)
    requires Apart(d, a, pc, q, pcq) && (pc.Publishing? || pc.Unmarking? || pc.Renaming? || pc.Cleaning?)
    ensures Spares(d, Next(d, a, pc, o).disk, pcq.serial)
    ensures HoldsStore(pcq) && Space(pcq.name) !in d.at ==> Space(pcq.name) !in Next(d, a, pc, o).disk.at
  {
  }

  lemma RemovalSpares(d: Disk, a: Actor, pc: Pc, o: Oracle, q: Actor, pcq: Pc)
    requires Apart(d, a, pc, q, pcq) && (pc.WantsRemoval? || pc.Removing? || pc.Deleting? || pc.Listing? || pc.WantsRecovery?)
    ensures Spares(d, Next(d, a, pc, o).disk, pcq.serial)
    ensures HoldsStore(pcq) && Space(pcq.name) !in d.at ==> Space(pcq.name) !in Next(d, a, pc, o).disk.at
  {
  }

  /** The heart of the matter: recovery leaves a live creator's staging directory and lock alone. */
  lemma RecoverySpares(d: Disk, a: Actor, pc: Pc, o: Oracle, q: Actor, pcq: Pc)
    requires Apart(d, a, pc, q, pcq) && (pc.Classifying? || pc.Moving?)
    ensures Spares(d, Next(d, a, pc, o).disk, pcq.serial) && !HoldsStore(pcq)
  {
    assert pcq.Populating?;
    assert forall p :: p in d.at && d.at[p] == pcq.serial ==> p == Staging(pcq.serial);
  }

  lemma StepSpares(d: Disk, a: Actor, pc: Pc, o: Oracle, q: Actor, pcq: Pc)
    requires Apart(d, a, pc, q, pcq)
    ensures Spares(d, Next(d, a, pc, o).disk, pcq.serial)
    ensures HoldsStore(pcq) && Space(pcq.name) !in d.at ==> Space(pcq.name) !in Next(d, a, pc, o).disk.at
  {
    if pc.Idle? || pc.Published? {
    } else if pc.WantsSetup? || pc.Setup? || pc.Made? || pc.Marked? || pc.Locked? || pc.Populating? {
      CreatorSpares(d, a, pc, o, q, pcq);
    } else if pc.Publishing? || pc.Unmarking? || pc.Renaming? || pc.Cleaning? {
      PublisherSpares(d, a, pc, o, q, pcq);
    } else if pc.Classifying? || pc.Moving? {
      RecoverySpares(d, a, pc, o, q, pcq);
    } else {
      RemovalSpares(d, a, pc, o, q, pcq);
    }
  }

  // ------------------------------------------------------------- the actor itself

  lemma CreatorOkNext(d: Disk, a: Actor, pc: Pc, o: Oracle)
    requires Orderly(d) && Old(d) && CreatorOk(d, a, pc)
    ensures CreatorOk(Next(d, a, pc, o).disk, a, Next(d, a, pc, o).pc)
  {
  }

  lemma MovableNext(d: Disk, a: Actor, pc: Pc, o: Oracle, p: Place)
    requires Movable(d, p)
    ensures Movable(Next(d, a, pc, o).disk, p)
  {
  }

  lemma StaleIsMovable(d: Disk, p: Place)
    requires Stale(d, p)
    ensures Movable(d, p)
  {
  }

  lemma PendingNext(d: Disk, a: Actor, pc: Pc, o: Oracle, i: nat)
    requires RecoveryOk(d, pc) && i < |Pending(Next(d, a, pc, o).pc)|
    ensures Movable(Next(d, a, pc, o).disk, Pending(Next(d, a, pc, o).pc)[i])
  {
    var p := Pending(Next(d, a, pc, o).pc)[i];
    if pc.Moving? { assert p == Pending(pc)[i + 1]; }
    else if i < |pc.found| { assert p == Pending(pc)[i]; }
    else { StaleIsMovable(d, p); }
    MovableNext(d, a, pc, o, p);
  }

  lemma RecoveryOkNext(d: Disk, a: Actor, pc: Pc, o: Oracle)
    requires RecoveryOk(d, pc) && forall i :: 0 <= i < |o.listing| ==> Reserved(o.listing[i])
    ensures RecoveryOk(Next(d, a, pc, o).disk, Next(d, a, pc, o).pc)
  {
    forall i | 0 <= i < |Pending(Next(d, a, pc, o).pc)|
      ensures Movable(Next(d, a, pc, o).disk, Pending(Next(d, a, pc, o).pc)[i])
    {
      PendingNext(d, a, pc, o, i);
    }
  }

  /** A recovery never decides to move a directory whose creator still holds its lock. */
  lemma PendingSpares(d: Disk, a: Actor, pc: Pc, o: Oracle, q: Actor, pcq: Pc)
    requires CreatorOk(d, q, pcq) && pcq.Populating? && Staging(pcq.serial) !in Pending(pc)
    ensures Staging(pcq.serial) !in Pending(Next(d, a, pc, o).pc)
  {
  }

  lemma NoPendingWithoutLock(pc: Pc)
    requires !HoldsStore(pc)
    ensures Pending(pc) == []
  {
  }

  /** Where a serial comes from: carried along, or fresh. */
  lemma SerialNext(d: Disk, a: Actor, pc: Pc, o: Oracle)
    requires HasSerial(Next(d, a, pc, o).pc)
    ensures (HasSerial(pc) && Next(d, a, pc, o).pc.serial == pc.serial) || Next(d, a, pc, o).pc.serial == d.next
    ensures Next(d, a, pc, o).pc.Populating? ==> pc.Populating? || HoldsStore(pc)
  {
  }

  // ---------------------------------------------------------------- every step

  lemma OtherCreatorOk(w: World, a: Actor, o: Oracle, q: Actor)
    requires Inv(w) && a in w.pcs && q in w.pcs && a != q
    ensures CreatorOk(Next(w.disk, a, w.pcs[a], o).disk, q, w.pcs[q])
  {
    OrderlyNext(w.disk, a, w.pcs[a], o);
    if Owns(w.pcs[q]) {
      assert Apart(w.disk, a, w.pcs[a], q, w.pcs[q]);
      StepSpares(w.disk, a, w.pcs[a], o, q, w.pcs[q]);
    }
  }

  lemma OtherRecoveryOk(w: World, a: Actor, o: Oracle, q: Actor)
    requires Inv(w) && a in w.pcs && q in w.pcs
    ensures RecoveryOk(Next(w.disk, a, w.pcs[a], o).disk, w.pcs[q])
  {
    forall i | 0 <= i < |Pending(w.pcs[q])|
      ensures Movable(Next(w.disk, a, w.pcs[a], o).disk, Pending(w.pcs[q])[i])
    {
      MovableNext(w.disk, a, w.pcs[a], o, Pending(w.pcs[q])[i]);
    }
  }

  lemma ActorsStep(w: World, a: Actor, o: Oracle)
    requires Inv(w) && Enabled(w, Step(a, o))
    ensures ActorsOk(Apply(w, Step(a, o)))
  {
    var w' := Apply(w, Step(a, o));
    forall q | q in w'.pcs
      ensures CreatorOk(w'.disk, q, w'.pcs[q]) && RecoveryOk(w'.disk, w'.pcs[q])
    {
      if q == a {
        CreatorOkNext(w.disk, a, w.pcs[a], o);
        RecoveryOkNext(w.disk, a, w.pcs[a], o);
      } else {
        OtherCreatorOk(w, a, o, q);
        OtherRecoveryOk(w, a, o, q);
      }
    }
  }

  lemma LocksStep(w: World, a: Actor, o: Oracle)
    requires LocksOk(w) && Enabled(w, Step(a, o))
    ensures LocksOk(Apply(w, Step(a, o)))
  {
    LockNext(w.disk, a, w.pcs[a], o);
  }

  lemma SerialsStep(w: World, a: Actor, o: Oracle)
    requires SerialsOk(w) && ActorsOk(w) && Enabled(w, Step(a, o))
    ensures SerialsOk(Apply(w, Step(a, o)))
  {
    if HasSerial(Next(w.disk, a, w.pcs[a], o).pc) { SerialNext(w.disk, a, w.pcs[a], o); }
  }

  lemma CrossPair(w: World, a: Actor, o: Oracle, r: Actor, b: Actor)
    requires LocksOk(w) && CrossOk(w) && ActorsOk(w) && Enabled(w, Step(a, o))
    requires var w' := Apply(w, Step(a, o)); r in w'.pcs && b in w'.pcs && w'.pcs[b].Populating?
    ensures var w' := Apply(w, Step(a, o)); Staging(w'.pcs[b].serial) !in Pending(w'.pcs[r])
  {
    if b == a {
      SerialNext(w.disk, a, w.pcs[a], o);
      if r != a && !w.pcs[a].Populating? { NoPendingWithoutLock(w.pcs[r]); }
    } else if r == a {
      PendingSpares(w.disk, a, w.pcs[a], o, b, w.pcs[b]);
    }
  }

  lemma CrossStep(w: World, a: Actor, o: Oracle)
    requires LocksOk(w) && CrossOk(w) && ActorsOk(w) && Enabled(w, Step(a, o))
    ensures CrossOk(Apply(w, Step(a, o)))
  {
    var w' := Apply(w, Step(a, o));
    forall r, b | r in w'.pcs && b in w'.pcs && w'.pcs[b].Populating?
      ensures Staging(w'.pcs[b].serial) !in Pending(w'.pcs[r])
    {
      CrossPair(w, a, o, r, b);
    }
  }

  lemma InvCrash(w: World, a: Actor)
    requires Inv(w) && Enabled(w, Crash(a))
    ensures Inv(Apply(w, Crash(a)))
  {
    var w' := Apply(w, Crash(a));
    forall q | q in w'.pcs
      ensures CreatorOk(w'.disk, q, w'.pcs[q]) && RecoveryOk(w'.disk, w'.pcs[q])
    {
      if q != a { assert CreatorOk(w.disk, q, w.pcs[q]) && RecoveryOk(w.disk, w.pcs[q]); }
    }
  }

  lemma InvUnlease(w: World, t: TreeId)
    requires Inv(w)
    ensures Inv(Apply(w, Unlease(t)))
  {
    var w' := Apply(w, Unlease(t));
    forall q | q in w'.pcs
      ensures CreatorOk(w'.disk, q, w'.pcs[q]) && RecoveryOk(w'.disk, w'.pcs[q])
    {
      assert CreatorOk(w.disk, q, w.pcs[q]) && RecoveryOk(w.disk, w.pcs[q]);
    }
  }

  lemma InvBegin(w: World, a: Actor, pc: Pc)
    requires Inv(w) && Enabled(w, Begin(a, pc))
    ensures Inv(Apply(w, Begin(a, pc)))
  {
  }

  lemma InvStep(w: World, action: Action)
    requires Inv(w) && Enabled(w, action)
    ensures Inv(Apply(w, action))
  {
    match action
    case Begin(a, pc) => InvBegin(w, a, pc);
    case Crash(a) => InvCrash(w, a);
    case Unlease(t) => InvUnlease(w, t);
    case Step(a, o) =>
      OrderlyNext(w.disk, a, w.pcs[a], o);
      OldNext(w.disk, a, w.pcs[a], o);
      LocksStep(w, a, o);
      SerialsStep(w, a, o);
      CrossStep(w, a, o);
      ActorsStep(w, a, o);
  }

  lemma {:induction false} InvRun(ws: seq<World>, actions: seq<Action>, i: nat)
    requires Run(ws, actions) && i < |ws|
    ensures Inv(ws[i])
  {
    if i > 0 {
      InvRun(ws, actions, i - 1);
      assert StepAt(ws, actions, i - 1);
      InvStep(ws[i - 1], actions[i - 1]);
    }
  }
}
