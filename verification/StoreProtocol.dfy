/**
 * Creation, removal and recovery of spaces as one transition system
 * (`store/create.rs`, `store/remove.rs`, `store_recovery.rs`): any number of
 * processes that share the store lock, one lock per staging directory, and
 * the directories of the store. Processes may crash at any point; the kernel
 * then drops their locks.
 */
module StoreProtocol {
  import opened Base

  type Actor = nat
  type Serial = nat

  /** The name of a directory in the store. Suffixes are fresh, so a serial stands for one. */
  datatype Place =
    | Space(name: string)          // spaces/NAME
    | Staging(serial: Serial)      // spaces/.creating-NAME-SUFFIX
    | Retired(serial: Serial)      // trash/.retired-SUFFIX
    | Reclaiming(serial: Serial)   // trash/.reclaiming-SUFFIX
    | Alpha(serial: Serial)        // trash/NAME-PID-MILLIS, left by a published alpha
    | Unknown(serial: Serial)      // anything else

  /** A directory tree, whatever it is called at the moment. */
  type TreeId = nat

  datatype Disk = Disk(
    at: map<Place, TreeId>,
    marked: set<TreeId>,                // trees that hold a creation-lock file
    creation: map<TreeId, Actor>,       // held creation locks
    leased: set<TreeId>,                // alpha trees whose lease is still held
    lock: Option<Actor>,            // the store lock
    next: Serial)

  /** A creator's `serial` names both its staging directory and the tree it made there. */
  datatype Pc =
    | Idle
    | WantsSetup(name: string)
    | Setup(name: string)
    | Made(name: string, serial: Serial)
    | Marked(name: string, serial: Serial)
    | Locked(name: string, serial: Serial)
    | Populating(name: string, serial: Serial)
    | Publishing(name: string, serial: Serial)
    | Unmarking(name: string, serial: Serial)
    | Renaming(name: string, serial: Serial)
    | Cleaning(serial: Serial, underLock: bool)
    | Published(name: string, serial: Serial)
    | WantsRecovery
    | Listing
    | Classifying(todo: seq<Place>, found: seq<Place>)
    | Moving(todo: seq<Place>, moved: seq<Place>)
    | Deleting(todo: seq<Place>)
    | WantsRemoval(name: string)
    | Removing(name: string)

  /**
   * Whether a fallible call succeeds, whether a deletion has only got as far as
   * the lock file yet, and the entries a directory listing returns.
   */
  datatype Oracle = Oracle(ok: bool, partial: bool, listing: seq<Place>)

  datatype Move = Move(disk: Disk, pc: Pc)

  /** The program points at which a process holds the store lock. */
  predicate HoldsStore(pc: Pc) {
    || pc.Setup? || pc.Made? || pc.Marked? || pc.Locked? || pc.Publishing? || pc.Unmarking? || pc.Renaming?
    || (pc.Cleaning? && pc.underLock) || pc.Listing? || pc.Classifying? || pc.Moving? || pc.Removing?
  }

  /** The names recovery lists. */
  predicate Reserved(p: Place) {
    p.Staging? || p.Retired? || p.Reclaiming? || p.Alpha?
  }

  function WithoutLocksOf(creation: map<TreeId, Actor>, a: Actor): map<TreeId, Actor> {
    map t | t in creation && creation[t] != a :: creation[t]
  }

  /** Drop every lock `a` holds. */
  function Released(d: Disk, a: Actor): Disk {
    d.(lock := if d.lock == Some(a) then None else d.lock, creation := WithoutLocksOf(d.creation, a))
  }

  function StoreReleased(d: Disk, a: Actor): Disk {
    d.(lock := if d.lock == Some(a) then None else d.lock)
  }

  function TakeStore(d: Disk, a: Actor, pc: Pc, then_: Pc, o: Oracle): Move {
    if !o.ok then Move(d, Idle)
    else if d.lock.None? then Move(d.(lock := Some(a)), then_)
    else Move(d, pc)
  }

  /** `StagingIdentity::verify`: the path still names the tree and its lock file. */
  predicate Verified(d: Disk, serial: Serial) {
    Staging(serial) in d.at && d.at[Staging(serial)] == serial && serial in d.marked
  }

  // ------------------------------------------------------------------ creation

  function CreatorNext(d: Disk, a: Actor, pc: Pc, o: Oracle): Move
    requires pc.WantsSetup? || pc.Setup? || pc.Made? || pc.Marked? || pc.Locked? || pc.Populating?
  {
    match pc
    case WantsSetup(name) => TakeStore(d, a, pc, Setup(name), o)
    case Setup(name) =>
      if !o.ok || Space(name) in d.at || Staging(d.next) in d.at then Move(Released(d, a), Idle)
      else Move(d.(at := d.at[Staging(d.next) := d.next], next := d.next + 1), Made(name, d.next))
    case Made(name, n) =>
      if !o.ok then Move(d, Cleaning(n, true)) else Move(d.(marked := d.marked + {n}), Marked(name, n))
    case Marked(name, n) =>
      if !o.ok || n in d.creation then Move(d, Cleaning(n, true))
      else Move(d.(creation := d.creation[n := a]), Locked(name, n))
    case Locked(name, n) => Move(StoreReleased(d, a), Populating(name, n))
    case Populating(name, n) =>
      if !o.ok || !Verified(d, n) then Move(d, Cleaning(n, false))
      else if d.lock.None? then Move(d.(lock := Some(a)), Publishing(name, n))
      else Move(d, pc)
  }

  /** Publication, all under the store lock, and cleanup of the creator's own tree. */
  function PublisherNext(d: Disk, a: Actor, pc: Pc, o: Oracle): Move
    requires pc.Publishing? || pc.Unmarking? || pc.Renaming? || pc.Cleaning?
  {
    match pc
    case Publishing(name, n) =>
      if !o.ok || Space(name) in d.at || !Verified(d, n) then Move(StoreReleased(d, a), Cleaning(n, false))
      else Move(d, Unmarking(name, n))
    case Unmarking(name, n) =>
      if !o.ok then Move(d, Cleaning(n, true)) else Move(d.(marked := d.marked - {n}), Renaming(name, n))
    case Renaming(name, n) =>
      if !o.ok then Move(d, Cleaning(n, true))
      else Move(Released(d.(at := (d.at - {Staging(n)})[Space(name) := n]), a), Published(name, n))
    case Cleaning(n, _) =>
      if o.partial && n in d.marked then Move(d.(marked := d.marked - {n}), pc)
      else if o.ok && Staging(n) in d.at && d.at[Staging(n)] == n then Move(Released(d.(at := d.at - {Staging(n)}), a), Idle)
      else Move(Released(d, a), Idle)     // a failed cleanup is left to recovery
  }

  // ------------------------------------------------------------------ recovery

  /** Whether recovery may take this entry, given what it finds there now. */
  predicate Stale(d: Disk, p: Place) {
    && p in d.at
    && match p
       case Staging(_) => d.at[p] !in d.marked || d.at[p] !in d.creation
       case Alpha(_) => d.at[p] !in d.leased
       case Retired(_) => true
       case Reclaiming(_) => true
       case _ => false
  }

  /** Taking a staging entry that has a lock file also takes that lock. */
  function Taken(d: Disk, a: Actor, p: Place): Disk
    requires p in d.at
  {
    if p.Staging? && d.at[p] in d.marked then d.(creation := d.creation[d.at[p] := a]) else d
  }

  function RecoveryNext(d: Disk, a: Actor, pc: Pc, o: Oracle): Move
    requires pc.WantsRecovery? || pc.Listing? || pc.Classifying? || pc.Moving? || pc.Deleting?
  {
    match pc
    case WantsRecovery => TakeStore(d, a, pc, Listing, o)
    case Listing => if o.ok then Move(d, Classifying(o.listing, [])) else Move(Released(d, a), Idle)
    case Classifying(todo, found) =>
      if !o.ok then Move(Released(d, a), Idle)
      else if todo == [] then Move(d, Moving(found, []))
      else if Stale(d, todo[0]) then Move(Taken(d, a, todo[0]), Classifying(todo[1..], found + [todo[0]]))
      else Move(d, Classifying(todo[1..], found))
    case Moving(todo, moved) =>
      if !o.ok then Move(Released(d, a), Idle)
      else if todo == [] then Move(Released(d, a), Deleting(moved))
      else if todo[0] in d.at then
        Move(d.(at := (d.at - {todo[0]})[Reclaiming(d.next) := d.at[todo[0]]], next := d.next + 1),
             Moving(todo[1..], moved + [Reclaiming(d.next)]))
      else Move(d, Moving(todo[1..], moved))
    case Deleting(todo) =>
      if todo == [] then Move(d, Idle)
      else Move(if o.ok then d.(at := d.at - {todo[0]}) else d, Deleting(todo[1..]))
  }

  function RemovalNext(d: Disk, a: Actor, pc: Pc, o: Oracle): Move
    requires pc.WantsRemoval? || pc.Removing?
  {
    match pc
    case WantsRemoval(name) => TakeStore(d, a, pc, Removing(name), o)
    case Removing(name) =>
      if !o.ok || Space(name) !in d.at then Move(Released(d, a), Idle)
      else Move(Released(d.(at := (d.at - {Space(name)})[Retired(d.next) := d.at[Space(name)]], next := d.next + 1), a),
                Deleting([Retired(d.next)]))
  }

  function Next(d: Disk, a: Actor, pc: Pc, o: Oracle): Move {
    if pc.Idle? || pc.Published? then Move(d, pc)
    else if pc.WantsSetup? || pc.Setup? || pc.Made? || pc.Marked? || pc.Locked? || pc.Populating? then CreatorNext(d, a, pc, o)
    else if pc.Publishing? || pc.Unmarking? || pc.Renaming? || pc.Cleaning? then PublisherNext(d, a, pc, o)
    else if pc.WantsRemoval? || pc.Removing? then RemovalNext(d, a, pc, o)
    else RecoveryNext(d, a, pc, o)
  }

  // --------------------------------------------------------------------- runs

  datatype World = World(disk: Disk, pcs: map<Actor, Pc>)

  datatype Action =
    | Begin(a: Actor, pc: Pc)
    | Step(a: Actor, o: Oracle)
    | Crash(a: Actor)
    | Unlease(tree: TreeId)

  predicate Startable(pc: Pc) {
    pc.WantsSetup? || pc.WantsRecovery? || pc.WantsRemoval?
  }

  predicate Enabled(w: World, action: Action) {
    match action
    case Begin(a, pc) => a !in w.pcs && Startable(pc)
    case Step(a, o) => a in w.pcs && forall i :: 0 <= i < |o.listing| ==> Reserved(o.listing[i])
    case Crash(a) => a in w.pcs && !w.pcs[a].Published?
    case Unlease(_) => true
  }

  function Apply(w: World, action: Action): World
    requires Enabled(w, action)
  {
    match action
    case Begin(a, pc) => w.(pcs := w.pcs[a := pc])
    case Step(a, o) =>
      var m := Next(w.disk, a, w.pcs[a], o);
      World(m.disk, w.pcs[a := m.pc])
    case Crash(a) => World(Released(w.disk, a), w.pcs[a := Idle])
    case Unlease(t) => w.(disk := w.disk.(leased := w.disk.leased - {t}))
  }

  function SerialOf(p: Place): Option<Serial> {
    if p.Space? then None else Some(p.serial)
  }

  /** One tree has one name, and every name and tree in use is older than the next fresh one. */
  ghost predicate Orderly(d: Disk) {
    && (forall p, q :: p in d.at && q in d.at && d.at[p] == d.at[q] ==> p == q)
    && (forall p :: p in d.at ==> d.at[p] < d.next && (SerialOf(p).Some? ==> SerialOf(p).value < d.next))
  }

  ghost predicate Initial(w: World) {
    w.pcs == map[] && w.disk.lock == None && w.disk.creation == map[] && Orderly(w.disk)
    && forall t :: t in w.disk.marked ==> t < w.disk.next
  }

  ghost predicate StepAt(ws: seq<World>, actions: seq<Action>, i: nat)
    requires |ws| == |actions| + 1 && i < |actions|
  {
    Enabled(ws[i], actions[i]) && ws[i + 1] == Apply(ws[i], actions[i])
  }

  ghost predicate Run(ws: seq<World>, actions: seq<Action>) {
    && |ws| == |actions| + 1 && Initial(ws[0])
    && forall i: nat :: i < |actions| ==> StepAt(ws, actions, i)
  }
}
