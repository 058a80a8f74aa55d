/**
 * The private SSH-agent lifecycle as a transition system: any number of
 * `start`, `stop` and `recover` calls, interleaved with crashes, process
 * exits, PID reuse and socket changes (`agent/startup.rs`, `agent/mod.rs`,
 * `agent/process.rs`).
 *
 * Both advisory locks are explicit. A call is at a program counter between
 * two of its externally visible operations, so a crash, or another call, can
 * intervene there. The verifications that an activation or a shutdown relies
 * on are taken apart into their system calls. Those that only steer a call,
 * in polls and status inspections, may have any outcome. `Oracle` carries the
 * answers of the outside world to the operation about to run.
 */
module AgentProtocol {
  import opened Base
  import opened AgentRegistry

  type Caller = nat
  type Proc = nat

  /** An exited child keeps its PID and its generation until it is reaped. */
  datatype Life = Live | Zombie | Gone

  datatype Process = Process(pid: nat, generation: nat, life: Life, parent: Option<Caller>)

  datatype Socket = Socket(id: SocketId, listener: Proc)

  datatype Kind = Start | Stop | Recover

  /** Why the shared side of the startup-owner lock is being tried. */
  datatype Reason =
    | ForFailed(record: Record)
    | ForStale(record: Record)
    | ForLaunch
    | ForMissing(starting: Record)
    | ForOrphan(starting: Record, observed: Option<SocketId>, alive: bool)
    | ForReplacement(starting: Record, record: Record)

  /**
   * Where a verification of the socket stands (`verified_socket_identity`):
   * stat the path, connect and compare the peer's PID, wait for the answer to
   * the identities request, stat the path again and compare.
   */
  datatype Check =
    | ToStat
    | ToConnect(before: SocketId)
    | ToAnswer(before: SocketId, via: Socket)    // `via` is the socket the connection was made to
    | ToRestat(before: SocketId, via: Socket)

  datatype Pc =
    | Done(ready: bool)     // returned: with an active agent, or with anything else
    // start: reservation, under the lifecycle lock
    | Top
    | Reserving
    | Probe(reason: Reason)
    | Probed(reason: Reason)
    | RemovingFailed(record: Record)
    | Launching
    | Claiming
    | Spawning
    | Recording(child: Proc)
    // start: the owner, holding the exclusive startup-owner lock
    | Waiting(child: Proc, starting: Record, attempts: nat)
    | WantActivate(child: Proc, starting: Record, observed: SocketId)
    | Activating(child: Proc, starting: Record, observed: SocketId)
    | ActivationCheck(child: Proc, starting: Record, observed: SocketId, check: Check)
    | Committing(child: Proc, starting: Record, verified: SocketId, via: Socket)
    | Inspecting(child: Proc, starting: Record)
    | WantAbort(child: Proc, starting: Record)
    | Aborting(child: Proc, starting: Record)
    | WantCleanup(child: Proc)
    | Cleaning(child: Proc)
    | WantUnlink(starting: Record)
    | Unlinking(starting: Record)
    | WantRetry(starting: Record)
    | Retrying(starting: Record)
    | RetryRecording(starting: Record, child: Proc)
    | WantFail(spawned: Option<Proc>, starting: Record, why: Failure)
    | Failing(spawned: Option<Proc>, starting: Record, why: Failure)
    // reconciliation of somebody else's startup
    | Observing(starting: Record)
    | WantReconcile(starting: Record, seen: Option<SocketId>, alive: bool)
    | Reconciling(starting: Record, seen: Option<SocketId>, alive: bool)
    | OrphanCheck(starting: Record, observed: SocketId, check: Check)
    | OrphanCommit(starting: Record, verified: SocketId, via: Socket)
    | OrphanInspecting
    // recover
    | RecoverTop
    | RecoverLocked
    | RecoverInactive
    | RecoverRemove(record: Record)
    // stop, and the tail that recovery shares with it
    | StopTop
    | StopLocked
    | StopMarking(record: Record)
    | StopCapture(record: Record)
    | StopVerify(record: Record, handle: Proc, check: Check)
    | StopSignal(record: Record, handle: Proc, via: Socket)
    | StopWait(record: Record, handle: Proc)

  datatype Call = Call(kind: Kind, pc: Pc, launches: nat)

  /** Everything the calls share apart from the two locks. */
  datatype Shared = Shared(
    spaceId: nat,
    registry: Option<Record>,
    socket: Option<Socket>,
    procs: map<Proc, Process>,
    shutdowns: set<(Caller, Proc)>, // processes a shutdown signal was delivered to
    cleanups: set<(Caller, Proc)>)  // processes a launcher-cleanup signal was delivered to

  datatype World = World(
    shared: Shared,
    lifecycle: Option<Caller>,
    ownerExclusive: Option<Caller>,
    ownerShared: set<Caller>,
    calls: map<Caller, Call>)

  datatype Oracle = Oracle(
    fails: bool,          // the next fallible call reports an error
    answers: bool,        // the connected agent completes the identities exchange
    seen: Option<SocketId>,  // what a verification in a poll or an inspection returns
    expired: bool,        // the deadline in force has passed
    stops: bool,          // a signalled launcher exits and is reaped
    disconnected: bool,   // the recorded socket refuses connections
    disk: Disk,
    proc: Proc, pid: nat, generation: nat,   // identity of the next spawned helper
    random: bytes, created: nat)

  /** The effect of one operation: new shared state and new program counter. */
  datatype Move = Move(shared: Shared, pc: Pc)

  // ------------------------------------------------------ process identity

  const TWO_64: nat := 0x1_0000_0000_0000_0000

  /** Linux `generations_match`: older records carry only the start time. */
  predicate GenerationsMatch(current: nat, expected: nat) {
    if expected / TWO_64 == 0 then current % TWO_64 == expected else current == expected
  }

  predicate HasLife(s: Shared, proc: Proc, life: Life) {
    proc in s.procs && s.procs[proc].life == life
  }

  /** The process still has a PID: it is running, or has exited and was not reaped. */
  predicate Present(s: Shared, proc: Proc) {
    proc in s.procs && s.procs[proc].life != Gone
  }

  /** `process_matches_generation`. */
  ghost predicate Matches(s: Shared, r: Record) {
    exists proc :: Present(s, proc) && s.procs[proc].pid == r.pid
      && (r.generation.None? || GenerationsMatch(s.procs[proc].generation, r.generation.value))
  }

  /** The socket at the path now has a live listener with this PID. */
  predicate Listens(s: Shared, pid: nat) {
    s.socket.Some? && HasLife(s, s.socket.value.listener, Live) && s.procs[s.socket.value.listener].pid == pid
  }

  datatype CheckResult = Goes(check: Check) | Passed(id: SocketId, via: Socket) | Rejected

  /** One system call of a verification that expects the peer to have `pid`. */
  function NextCheck(s: Shared, o: Oracle, pid: nat, check: Check): CheckResult {
    if o.fails then Rejected
    else match check
      case ToStat => if s.socket.Some? then Goes(ToConnect(s.socket.value.id)) else Rejected
      case ToConnect(before) => if Listens(s, pid) then Goes(ToAnswer(before, s.socket.value)) else Rejected
      case ToAnswer(before, via) =>
        if o.answers && HasLife(s, via.listener, Live) then Goes(ToRestat(before, via)) else Rejected
      case ToRestat(before, via) =>
        if s.socket.Some? && s.socket.value.id == before then Passed(before, via) else Rejected
  }

  datatype AgentState = Unset | IsStarting | IsActive | IsStopping | IsFailed | Stale

  /** `inspect_at` and `inspect_active`. */
  ghost function Inspect(s: Shared, o: Oracle): AgentState {
    match s.registry
    case None => if s.socket.None? then Unset else Stale
    case Some(r) =>
      match r.state
      case Starting => if Matches(s, r) then IsStarting else Stale
      case Active =>
        if Matches(s, r) && SocketOf(r).Some? && o.seen == SocketOf(r) then IsActive else Stale
      case Stopping => if Matches(s, r) then IsStopping else Stale
      case Failed => IsFailed
  }

  /** The owner's recurring question: did my launch already become the active agent? */
  ghost predicate AlreadyActive(s: Shared, o: Oracle, starting: Record) {
    Inspect(s, o) == IsActive && s.registry.value.pid == starting.pid
  }

  // -------------------------------------------------------------- locking
  //
  // Both locks are held through guards, so a call holds a lock exactly while
  // it is between the program points that take and drop the guard.

  predicate HoldsLifecycle(pc: Pc) {
    pc.Reserving? || pc.Probe? || pc.Probed? || pc.RemovingFailed? || pc.Launching? || pc.Claiming? || pc.Spawning?
    || pc.Recording? || pc.Activating? || pc.ActivationCheck? || pc.Committing? || pc.Inspecting?
    || pc.Aborting? || pc.Cleaning? || pc.Unlinking?
    || pc.Retrying? || pc.RetryRecording? || pc.Failing? || pc.Reconciling? || pc.OrphanCheck? || pc.OrphanCommit? || pc.OrphanInspecting?
    || pc.RecoverLocked? || pc.RecoverInactive? || pc.RecoverRemove?
    || pc.StopLocked? || pc.StopMarking? || pc.StopCapture? || pc.StopVerify? || pc.StopSignal? || pc.StopWait?
  }

  predicate HoldsOwner(pc: Pc) {
    pc.Spawning? || pc.Recording? || pc.Waiting? || pc.WantActivate? || pc.Activating? || pc.ActivationCheck?
    || pc.Committing? || pc.Inspecting? || pc.WantAbort? || pc.Aborting? || pc.WantCleanup? || pc.Cleaning? || pc.WantUnlink? || pc.Unlinking?
    || pc.WantRetry? || pc.Retrying? || pc.RetryRecording? || pc.WantFail? || pc.Failing?
  }

  predicate HoldsProbe(pc: Pc) {
    pc.Probed? || pc.OrphanCheck? || pc.OrphanCommit? || pc.OrphanInspecting?
  }

  /** Program points reached only after the startup-owner lock was seen to have no owner. */
  predicate OwnerAbsent(pc: Pc) {
    HoldsProbe(pc) || pc.RemovingFailed? || pc.Claiming?
  }

  predicate WantsLifecycle(pc: Pc) {
    pc.Top? || pc.WantActivate? || pc.WantAbort? || pc.WantCleanup? || pc.WantUnlink? || pc.WantRetry?
    || pc.WantFail? || pc.WantReconcile? || pc.RecoverTop? || pc.StopTop?
  }

  function Entered(pc: Pc): Pc
    requires WantsLifecycle(pc)
  {
    match pc
    case Top => Reserving
    case WantActivate(child, starting, observed) => Activating(child, starting, observed)
    case WantAbort(child, starting) => Aborting(child, starting)
    case WantCleanup(child) => Cleaning(child)
    case WantUnlink(starting) => Unlinking(starting)
    case WantRetry(starting) => Retrying(starting)
    case WantFail(spawned, starting, why) => Failing(spawned, starting, why)
    case WantReconcile(starting, seen, alive) => Reconciling(starting, seen, alive)
    case RecoverTop => RecoverLocked
    case StopTop => StopLocked
  }

  /** Where a call goes when the lifecycle lock stays busy past its deadline. */
  function TimedOut(pc: Pc): Pc {
    match pc
    case WantActivate(child, starting, _) => WantAbort(child, starting)
    case WantAbort(child, _) => WantCleanup(child)
    case WantRetry(starting) => WantFail(None, starting, LaunchExited)
    case WantFail(Some(child), starting, _) => WantAbort(child, starting)
    case _ => Done(false)
  }

  ghost function NextLock(w: World, pc: Pc, o: Oracle): Move
    requires WantsLifecycle(pc)
  {
    // abort_spawned looks once before it queues for the lock
    if pc.WantAbort? && o.answers && AlreadyActive(w.shared, o, pc.starting) then Move(w.shared, Done(true))
    else if o.fails then Move(w.shared, TimedOut(pc))
    else if w.lifecycle.Some? then Move(w.shared, pc)
    else Move(w.shared, Entered(pc))
  }

  // ---------------------------------------------------------- reservation

  /** `reserve`, up to its first use of the startup-owner lock. */
  ghost function NextReserving(s: Shared, o: Oracle): Pc {
    if o.fails then Done(false)
    else match Inspect(s, o)
      case IsStarting => Observing(s.registry.value)
      case IsFailed => if Matches(s, s.registry.value) then Done(false) else Probe(ForFailed(s.registry.value))
      case Unset => Launching
      case Stale =>
        if s.registry.Some? && s.registry.value.state == Starting then Probe(ForStale(s.registry.value)) else Done(false)
      case IsActive => Done(true)
      case IsStopping => Done(false)
  }

  /** Rereserving sends a start back to its loop head; it completes an explicit recovery. */
  function Rereserve(kind: Kind): Pc {
    if kind == Start then Top else Done(false)
  }

  /** `orphan_startup_guard`: the shared side is refused only while an owner holds the lock. */
  function NextProbe(w: World, o: Oracle, reason: Reason): Pc {
    if o.fails then Done(false)
    else if w.ownerExclusive.None? then Probed(reason)
    else match reason
      case ForFailed(_) => Top
      case ForLaunch => Top
      case ForStale(record) => Observing(record)
      case ForMissing(starting) => Observing(starting)
      case ForOrphan(starting, _, _) => Observing(starting)
      case ForReplacement(starting, _) => Observing(starting)
  }

  predicate SocketRemovable(s: Shared, record: Record) {
    s.socket.None? || SocketOf(record) == Some(s.socket.value.id)
  }

  /** `recover_inactive_record`; the socket has to be the recorded one, or absent. */
  function RemoveInactive(s: Shared, o: Oracle, record: Record): Shared {
    if o.fails || !SocketRemovable(s, record) then s
    else s.(socket := None, registry := AfterRemove(s.registry, record, o.disk))
  }

  predicate RemovalSucceeds(s: Shared, o: Oracle, record: Record) {
    !o.fails && SocketRemovable(s, record) && s.registry == Some(record) && o.disk == Healthy
  }

  function NextProbed(s: Shared, kind: Kind, o: Oracle, reason: Reason): Move {
    match reason
    case ForFailed(record) => Move(s, RemovingFailed(record))
    case ForStale(_) => Move(s, Done(false))
    case ForLaunch => Move(s, Claiming)
    case ForMissing(_) => Move(s, Rereserve(kind))
    case ForOrphan(starting, Some(observed), _) => Move(s, OrphanCheck(starting, observed, ToStat))
    case ForOrphan(starting, None, alive) =>
      if alive then Move(s, Observing(starting))
      else Move(RemoveInactive(s, o, starting), if RemovalSucceeds(s, o, starting) then Rereserve(kind) else Done(false))
    case ForReplacement(_, record) =>
      Move(RemoveInactive(s, o, record), if RemovalSucceeds(s, o, record) then Rereserve(kind) else Done(false))
  }

  function NextRemovingFailed(s: Shared, o: Oracle, record: Record): Move {
    Move(RemoveInactive(s, o, record), if RemovalSucceeds(s, o, record) then Launching else Done(false))
  }

  /** `startup_owner_guard` inside `reserve_new`; the blocked branch is kept. */
  function NextClaiming(w: World, o: Oracle): Pc {
    if o.fails || w.ownerExclusive.Some? || w.ownerShared != {} then Done(false) else Spawning
  }

  function Spawned(s: Shared, p: Caller, o: Oracle): Shared {
    s.(procs := s.procs[o.proc := Process(o.pid, o.generation, Live, Some(p))])
  }

  function NextRecording(s: Shared, o: Oracle, child: Proc): Move {
    if o.fails || child !in s.procs then Move(s, WantCleanup(child))
    else
      var starting := StartingRecord(s.spaceId, o.random, s.procs[child].pid, s.procs[child].generation, o.created);
      Move(s.(registry := AfterCreate(s.registry, starting, o.disk)),
           if s.registry.None? && o.disk == Healthy then Waiting(child, starting, 1) else WantCleanup(child))
  }

  // -------------------------------------------------------------- the owner

  const MAXIMUM_LAUNCH_ATTEMPTS: nat := 2

  function WithLife(s: Shared, proc: Proc, life: Life): Shared {
    if proc in s.procs then s.(procs := s.procs[proc := s.procs[proc].(life := life)]) else s
  }

  /** One turn of the polling loop in `await_spawned`. */
  function NextWaiting(s: Shared, o: Oracle, child: Proc, starting: Record, attempts: nat): Move {
    if o.seen.Some? then Move(s, WantActivate(child, starting, o.seen.value))
    else if o.fails then Move(s, Done(false))
    else if HasLife(s, child, Zombie) then
      Move(WithLife(s, child, Gone),
           if attempts < MAXIMUM_LAUNCH_ATTEMPTS then WantUnlink(starting)
           else WantFail(Some(child), starting, LaunchExited))
    else if o.expired then Move(s, WantFail(Some(child), starting, StartupTimeout))
    else Move(s, Waiting(child, starting, attempts))
  }

  /** `commit_activation` up to its own protocol verification. */
  ghost function NextActivating(s: Shared, o: Oracle, child: Proc, starting: Record, observed: SocketId): Move {
    if o.fails then Move(s, WantAbort(child, starting))
    else if AlreadyActive(s, o, starting) then Move(s, Done(true))
    else if s.registry != Some(starting) then Move(s, WantAbort(child, starting))
    else Move(s, ActivationCheck(child, starting, observed, ToStat))
  }

  function NextActivationCheck(s: Shared, o: Oracle, child: Proc, starting: Record, observed: SocketId, check: Check): Pc {
    match NextCheck(s, o, starting.pid, check)
    case Goes(next) => ActivationCheck(child, starting, observed, next)
    case Passed(id, via) => if id == observed then Committing(child, starting, id, via) else WantAbort(child, starting)
    case Rejected => WantAbort(child, starting)
  }

  function NextCommitting(s: Shared, o: Oracle, child: Proc, starting: Record, id: SocketId): Move {
    Move(s.(registry := AfterReplace(s.registry, starting, Activated(starting, id), o.disk)),
         if s.registry == Some(starting) && o.disk == Healthy then Inspecting(child, starting) else WantAbort(child, starting))
  }

  /** The status a completed activation reports comes from one more inspection. */
  ghost function NextInspecting(s: Shared, o: Oracle, child: Proc, starting: Record): Pc {
    if o.fails then WantAbort(child, starting) else if Inspect(s, o) == IsActive then Done(true) else Done(false)
  }

  predicate SameActivation(current: Record, starting: Record) {
    current.state == Active && current.schemaVersion == starting.schemaVersion && current.spaceId == starting.spaceId
    && current.token == starting.token && current.pid == starting.pid
    && current.createdUnixMs == starting.createdUnixMs
  }

  /** `abort_spawned` under the lifecycle lock. */
  ghost function NextAborting(s: Shared, o: Oracle, child: Proc, starting: Record): Move {
    if !o.fails && AlreadyActive(s, o, starting) then Move(s, Done(true))
    else if s.registry.Some? && SameActivation(s.registry.value, starting) then Move(s, Done(false))
    else Move(s.(registry := AfterReplace(s.registry, starting, FailedWith(starting, ProtocolRejected), o.disk)),
              WantCleanup(child))
  }

  /** `terminate_unreaped_child` signals by PID: whoever has the launcher's PID now. */
  function Reached(s: Shared, child: Proc): set<Proc> {
    set proc | proc in s.procs && s.procs[proc].life == Live && child in s.procs && s.procs[proc].pid == s.procs[child].pid
  }

  function Terminated(s: Shared, p: Caller, child: Proc): Shared {
    s.(cleanups := s.cleanups + set proc | proc in Reached(s, child) :: (p, proc))
  }

  /** `cleanup_spawned_child_locked`. */
  function NextCleaning(s: Shared, p: Caller, o: Oracle, child: Proc): Move {
    var s' := Terminated(s, p, child);
    Move(if o.fails || !o.stops then s' else WithLife(s', child, Gone).(socket := None), Done(false))
  }

  function NextUnlinking(s: Shared, o: Oracle, starting: Record): Move {
    if o.fails then Move(s, Done(false)) else Move(s.(socket := None), WantRetry(starting))
  }

  ghost function NextRetrying(s: Shared, p: Caller, o: Oracle, starting: Record): Move {
    if o.fails then Move(s, WantFail(None, starting, LaunchExited))
    else if AlreadyActive(s, o, starting) then Move(s, Done(true))
    else if s.registry != Some(starting) then Move(s, WantFail(None, starting, LaunchExited))
    else Move(Spawned(s, p, o), RetryRecording(starting, o.proc))
  }

  function NextRetryRecording(s: Shared, p: Caller, o: Oracle, starting: Record, child: Proc): Move {
    var signalled := Terminated(s, p, child);
    var stopped := if o.stops then WithLife(signalled, child, Gone) else signalled;
    if o.fails || child !in s.procs then Move(stopped, WantFail(None, starting, LaunchExited))
    else
      var replacement :=
        StartingRecord(starting.spaceId, o.random, s.procs[child].pid, s.procs[child].generation, o.created);
      var registry := AfterReplace(s.registry, starting, replacement, o.disk);
      // a failed sync after the rename is noticed by reading the record back
      if registry == Some(replacement) then Move(s.(registry := registry), Waiting(child, replacement, 2))
      else Move(stopped, WantFail(None, starting, LaunchExited))
  }

  /** `commit_failure`, and what `await_spawned` does with its result. */
  ghost function NextFailing(s: Shared, o: Oracle, spawned: Option<Proc>, starting: Record, why: Failure): Move {
    var failed := s.(registry := AfterReplace(s.registry, starting, FailedWith(starting, why), o.disk));
    if !o.fails && AlreadyActive(s, o, starting) then Move(s, Done(true))
    else if o.fails || s.registry != Some(starting) then
      Move(s, if spawned.Some? then WantAbort(spawned.value, starting) else Done(false))
    else if spawned.None? then Move(failed, Done(false))
    else if o.disk != Healthy then Move(failed, WantAbort(spawned.value, starting))
    else Move(failed, if why == StartupTimeout then WantCleanup(spawned.value) else Done(false))
  }

  // ---------------------------------------------------------- reconciliation

  ghost function NextReconciling(s: Shared, o: Oracle, starting: Record, seen: Option<SocketId>, alive: bool): Pc {
    if o.fails then Done(false)
    else match s.registry
      case None => Probe(ForMissing(starting))
      case Some(record) =>
        if record.state == Active then (if Inspect(s, o) == IsActive then Done(true) else Observing(starting))
        else if record.state == Starting && record != starting then Observing(record)
        else if record != starting then
          if record.state != Failed || Matches(s, record) then Done(false) else Probe(ForReplacement(starting, record))
        else Probe(ForOrphan(starting, seen, alive))
  }

  function NextOrphanCheck(s: Shared, o: Oracle, starting: Record, observed: SocketId, check: Check): Pc {
    match NextCheck(s, o, starting.pid, check)
    case Goes(next) => OrphanCheck(starting, observed, next)
    case Passed(id, via) => if id == observed then OrphanCommit(starting, id, via) else Done(false)
    case Rejected => Done(false)
  }

  function NextOrphanCommit(s: Shared, o: Oracle, starting: Record, id: SocketId): Move {
    Move(s.(registry := AfterReplace(s.registry, starting, Activated(starting, id), o.disk)),
         if s.registry == Some(starting) && o.disk == Healthy then OrphanInspecting else Done(false))
  }

  ghost function NextOrphanInspecting(s: Shared, o: Oracle): Pc {
    if !o.fails && Inspect(s, o) == IsActive then Done(true) else Done(false)
  }

  // -------------------------------------------------------- stop and recover

  ghost function NextRecoverLocked(s: Shared, o: Oracle): Pc {
    if o.fails then Done(false)
    else match Inspect(s, o)
      case IsStarting => Observing(s.registry.value)
      case Unset => Done(false)
      case IsActive => Done(true)
      case _ => RecoverInactive
  }

  /** `recover_inactive_state`. */
  ghost function NextRecoverInactive(s: Shared, o: Oracle): Pc {
    if o.fails || s.registry.None? then Done(false)
    else
      var record := s.registry.value;
      if !Matches(s, record) then RecoverRemove(record)
      else if record.state == Stopping then (if o.disconnected then RecoverRemove(record) else StopCapture(record))
      else if record.state == Active && o.disconnected then RecoverRemove(record)
      else Done(false)
  }

  ghost function NextStopLocked(s: Shared, o: Oracle): Pc {
    if !o.fails && Inspect(s, o) == IsActive then StopMarking(s.registry.value) else Done(false)
  }

  function NextStopMarking(s: Shared, o: Oracle, record: Record): Move {
    Move(s.(registry := AfterReplace(s.registry, record, MarkedStopping(record), o.disk)),
         if s.registry == Some(record) && o.disk == Healthy then StopCapture(MarkedStopping(record)) else Done(false))
  }

  /** `SignalTarget::capture`: a handle on whichever process has the PID now. */
  function NextStopCapture(s: Shared, o: Oracle, record: Record): Pc {
    if o.fails || !Present(s, o.proc) || s.procs[o.proc].pid != record.pid then Done(false)
    else StopVerify(record, o.proc, ToStat)
  }

  function NextStopVerify(s: Shared, o: Oracle, record: Record, handle: Proc, check: Check): Pc {
    match NextCheck(s, o, record.pid, check)
    case Goes(next) => StopVerify(record, handle, next)
    case Passed(id, via) => if SocketOf(record) == Some(id) then StopSignal(record, handle, via) else Done(false)
    case Rejected => Done(false)
  }

  /** `SignalTarget::terminate`: an exited target receives nothing. */
  function NextStopSignal(s: Shared, p: Caller, o: Oracle, record: Record, handle: Proc): Move {
    if o.fails then Move(s, Done(false))
    else Move(if HasLife(s, handle, Live) then s.(shutdowns := s.shutdowns + {(p, handle)}) else s,
              StopWait(record, handle))
  }

  function NextStopWait(s: Shared, o: Oracle, record: Record, handle: Proc): Move {
    if HasLife(s, handle, Live) then Move(s, if o.expired || o.fails then Done(false) else StopWait(record, handle))
    else Move(RemoveInactive(s, o, record), Done(false))
  }

  // ----------------------------------------------------------------- steps

  /** One operation of call `p`. */
  ghost function Next(w: World, p: Caller, o: Oracle): Move
    requires p in w.calls
  {
    var s := w.shared;
    match w.calls[p].pc
    case Done(_) => Move(s, w.calls[p].pc)
    case Reserving => Move(s, NextReserving(s, o))
    case Probe(reason) => Move(s, NextProbe(w, o, reason))
    case Probed(reason) => NextProbed(s, w.calls[p].kind, o, reason)
    case RemovingFailed(record) => NextRemovingFailed(s, o, record)
    case Launching => Move(s, if o.fails || s.socket.Some? then Done(false) else Probe(ForLaunch))
    case Claiming => Move(s, NextClaiming(w, o))
    case Spawning => if o.fails then Move(s, Done(false)) else Move(Spawned(s, p, o), Recording(o.proc))
    case Recording(child) => NextRecording(s, o, child)
    case Waiting(child, starting, attempts) => NextWaiting(s, o, child, starting, attempts)
    case Activating(child, starting, observed) => NextActivating(s, o, child, starting, observed)
    case ActivationCheck(child, starting, observed, check) =>
      Move(s, NextActivationCheck(s, o, child, starting, observed, check))
    case Committing(child, starting, id, _) => NextCommitting(s, o, child, starting, id)
    case Inspecting(child, starting) => Move(s, NextInspecting(s, o, child, starting))
    case Aborting(child, starting) => NextAborting(s, o, child, starting)
    case Cleaning(child) => NextCleaning(s, p, o, child)
    case Unlinking(starting) => NextUnlinking(s, o, starting)
    case Retrying(starting) => NextRetrying(s, p, o, starting)
    case RetryRecording(starting, child) => NextRetryRecording(s, p, o, starting, child)
    case Failing(spawned, starting, why) => NextFailing(s, o, spawned, starting, why)
    case Observing(starting) =>
      Move(s, if o.expired || o.fails then Done(false)
              else WantReconcile(starting, o.seen, Matches(s, starting)))
    case Reconciling(starting, seen, alive) => Move(s, NextReconciling(s, o, starting, seen, alive))
    case OrphanCheck(starting, observed, check) => Move(s, NextOrphanCheck(s, o, starting, observed, check))
    case OrphanCommit(starting, id, _) => NextOrphanCommit(s, o, starting, id)
    case OrphanInspecting => Move(s, NextOrphanInspecting(s, o))
    case RecoverLocked => Move(s, NextRecoverLocked(s, o))
    case RecoverInactive => Move(s, NextRecoverInactive(s, o))
    case RecoverRemove(record) => Move(RemoveInactive(s, o, record), Done(false))
    case StopLocked => Move(s, NextStopLocked(s, o))
    case StopMarking(record) => NextStopMarking(s, o, record)
    case StopCapture(record) => Move(s, NextStopCapture(s, o, record))
    case StopVerify(record, handle, check) => Move(s, NextStopVerify(s, o, record, handle, check))
    case StopSignal(record, handle, _) => NextStopSignal(s, p, o, record, handle)
    case StopWait(record, handle) => NextStopWait(s, o, record, handle)
    case _ => NextLock(w, w.calls[p].pc, o)
  }

  /** Carry call `p` to program counter `pc`, taking and dropping guards on the way. */
  function Place(w: World, p: Caller, m: Move): World
    requires p in w.calls
  {
    var c := w.calls[p];
    var launched := (c.pc.Spawning? && m.pc.Recording?) || (c.pc.Retrying? && m.pc.RetryRecording?);
    World(m.shared,
          if HoldsLifecycle(m.pc) then Some(p) else if HoldsLifecycle(c.pc) then None else w.lifecycle,
          if HoldsOwner(m.pc) then Some(p) else if HoldsOwner(c.pc) then None else w.ownerExclusive,
          if HoldsProbe(m.pc) then w.ownerShared + {p} else w.ownerShared - {p},
          w.calls[p := Call(c.kind, m.pc, if launched then c.launches + 1 else c.launches)])
  }

  datatype Action =
    | Begin(p: Caller, kind: Kind)
    | Step(p: Caller, o: Oracle)
    | Crash(p: Caller)
    | Exit(proc: Proc)
    | Reap(proc: Proc)
    | Foreign(proc: Proc, pid: nat, generation: nat)   // an unrelated process starts, perhaps reusing a PID
    | Rebind(socket: Option<Socket>)                   // the socket path changes behind everybody's back

  function EntryPoint(kind: Kind): Pc {
    match kind case Start => Top case Stop => StopTop case Recover => RecoverTop
  }

  ghost predicate FreshProcess(s: Shared, proc: Proc, pid: nat, generation: nat) {
    proc !in s.procs && pid > 1 && generation > 0
    && forall other :: Present(s, other) ==> s.procs[other].pid != pid
  }

  ghost predicate Enabled(w: World, a: Action) {
    match a
    case Begin(p, _) => p !in w.calls
    case Step(p, o) => p in w.calls && |o.random| == 16
      && ((w.calls[p].pc.Spawning? || w.calls[p].pc.Retrying?) ==> FreshProcess(w.shared, o.proc, o.pid, o.generation))
    case Crash(p) => p in w.calls
    case Exit(proc) => HasLife(w.shared, proc, Live)
    case Reap(proc) => HasLife(w.shared, proc, Zombie)
      && var parent := w.shared.procs[proc].parent; parent.Some? ==> parent.value in w.calls && w.calls[parent.value].pc.Done?
    case Foreign(proc, pid, generation) => FreshProcess(w.shared, proc, pid, generation)
    case Rebind(socket) => true
  }

  ghost function Apply(w: World, a: Action): World
    requires Enabled(w, a)
  {
    match a
    case Begin(p, kind) => w.(calls := w.calls[p := Call(kind, EntryPoint(kind), 0)])
    case Step(p, o) => Place(w, p, Next(w, p, o))
    case Crash(p) => Place(w, p, Move(w.shared, Done(false)))
    case Exit(proc) => w.(shared := WithLife(w.shared, proc, Zombie))
    case Reap(proc) => w.(shared := WithLife(w.shared, proc, Gone))
    case Foreign(proc, pid, generation) =>
      w.(shared := w.shared.(procs := w.shared.procs[proc := Process(pid, generation, Live, None)]))
    case Rebind(socket) => w.(shared := w.shared.(socket := socket))
  }

  ghost predicate UniquePids(s: Shared) {
    forall a, b :: Present(s, a) && Present(s, b) && s.procs[a].pid == s.procs[b].pid ==> a == b
  }

  /** Nobody is running; a record of any valid kind may have been left behind. */
  ghost predicate Initial(w: World) {
    && w.calls == map[] && w.lifecycle.None? && w.ownerExclusive.None? && w.ownerShared == {}
    && w.shared.shutdowns == {} && w.shared.cleanups == {}
    && (w.shared.registry.Some? ==> Valid(w.shared.registry.value, w.shared.spaceId))
    && UniquePids(w.shared)
    && (forall proc :: proc in w.shared.procs ==> w.shared.procs[proc].parent.None?)
  }

  ghost predicate StepAt(ws: seq<World>, actions: seq<Action>, i: nat)
    requires |ws| == |actions| + 1 && i < |actions|
  {
    Enabled(ws[i], actions[i]) && ws[i + 1] == Apply(ws[i], actions[i])
  }

  ghost predicate Run(ws: seq<World>, actions: seq<Action>) {
    && |ws| == |actions| + 1
    && Initial(ws[0])
    && forall i: nat :: i < |actions| ==> StepAt(ws, actions, i)
  }
}
