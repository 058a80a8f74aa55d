/**
 * What every run of the private-agent protocol keeps.
 */
module AgentSafety {
  import opened Base
  import opened AgentRegistry
  import opened AgentProtocol

  // ------------------------------------------------------------- lock state

  /** Each lock is held by exactly the calls whose program counter says so. */
  ghost predicate Locks(w: World) {
    && (forall p :: p in w.calls ==> (HoldsLifecycle(w.calls[p].pc) <==> w.lifecycle == Some(p)))
    && (forall p :: p in w.calls ==> (HoldsOwner(w.calls[p].pc) <==> w.ownerExclusive == Some(p)))
    && (forall p :: p in w.calls ==> (HoldsProbe(w.calls[p].pc) <==> p in w.ownerShared))
    && (forall p :: p in w.calls && OwnerAbsent(w.calls[p].pc) ==> w.ownerExclusive.None?)
    && (w.lifecycle.Some? ==> w.lifecycle.value in w.calls)
    && (w.ownerExclusive.Some? ==> w.ownerExclusive.value in w.calls)
    && w.ownerShared <= w.calls.Keys
  }

  /** A lock is taken only when it is available, and ownership only under the lifecycle lock. */
  ghost predicate Admissible(w: World, pc: Pc, pc': Pc) {
    && (HoldsLifecycle(pc') && !HoldsLifecycle(pc) ==> w.lifecycle.None?)
    && (HoldsOwner(pc') && !HoldsOwner(pc) ==> w.ownerExclusive.None? && HoldsLifecycle(pc))
    && (OwnerAbsent(pc') ==> w.ownerExclusive.None?)
  }

  lemma LocksPreserved(w: World, p: Caller, m: Move)
    requires p in w.calls && Locks(w) && Admissible(w, w.calls[p].pc, m.pc)
    ensures Locks(Place(w, p, m))
  {
    var w' := Place(w, p, m);
    forall q | q in w'.calls && OwnerAbsent(w'.calls[q].pc) ensures w'.ownerExclusive.None? {
      if q != p { assert HoldsLifecycle(w.calls[q].pc); }
    }
  }

  lemma AdmissibleReservation(w: World, p: Caller, o: Oracle)
    requires p in w.calls && (OwnerAbsent(w.calls[p].pc) ==> w.ownerExclusive.None?) && !HoldsOwner(w.calls[p].pc)
    requires w.calls[p].pc.Reserving? || w.calls[p].pc.Probe? || w.calls[p].pc.RemovingFailed?
             || w.calls[p].pc.Launching? || w.calls[p].pc.Claiming?
    ensures Admissible(w, w.calls[p].pc, Next(w, p, o).pc)
  {
  }

  lemma AdmissibleProbed(w: World, p: Caller, o: Oracle)
    requires p in w.calls && (OwnerAbsent(w.calls[p].pc) ==> w.ownerExclusive.None?) && w.calls[p].pc.Probed?
    ensures Admissible(w, w.calls[p].pc, Next(w, p, o).pc)
  {
  }

  lemma AdmissibleOwner(w: World, p: Caller, o: Oracle)
    requires p in w.calls && (OwnerAbsent(w.calls[p].pc) ==> w.ownerExclusive.None?) && HoldsOwner(w.calls[p].pc) && HoldsLifecycle(w.calls[p].pc)
    ensures Admissible(w, w.calls[p].pc, Next(w, p, o).pc)
  {
  }

  lemma AdmissibleWaiter(w: World, p: Caller, o: Oracle)
    requires p in w.calls && (OwnerAbsent(w.calls[p].pc) ==> w.ownerExclusive.None?) && !HoldsLifecycle(w.calls[p].pc)
    ensures Admissible(w, w.calls[p].pc, Next(w, p, o).pc)
  {
  }

  lemma AdmissibleOther(w: World, p: Caller, o: Oracle)
    requires p in w.calls && (OwnerAbsent(w.calls[p].pc) ==> w.ownerExclusive.None?) && !HoldsOwner(w.calls[p].pc) && HoldsLifecycle(w.calls[p].pc)
    requires var pc := w.calls[p].pc; !pc.Reserving? && !pc.Probe? && !pc.RemovingFailed? && !pc.Launching? && !pc.Claiming? && !pc.Probed?
    ensures Admissible(w, w.calls[p].pc, Next(w, p, o).pc)
  {
  }

  lemma AdmissibleNext(w: World, p: Caller, o: Oracle)
    requires p in w.calls && Locks(w)
    ensures Admissible(w, w.calls[p].pc, Next(w, p, o).pc)
  {
    var pc := w.calls[p].pc;
    if !HoldsLifecycle(pc) { AdmissibleWaiter(w, p, o); }
    else if HoldsOwner(pc) { AdmissibleOwner(w, p, o); }
    else if pc.Probed? { AdmissibleProbed(w, p, o); }
    else if pc.Reserving? || pc.Probe? || pc.RemovingFailed? || pc.Launching? || pc.Claiming? { AdmissibleReservation(w, p, o); }
    else { AdmissibleOther(w, p, o); }
  }

  lemma LocksAdvance(w: World, p: Caller, o: Oracle)
    requires p in w.calls && Locks(w)
    ensures Locks(Place(w, p, Next(w, p, o)))
  {
    var m := Next(w, p, o);
    AdmissibleNext(w, p, o);
    LocksPreserved(w, p, m);
  }

  lemma LocksBegin(w: World, p: Caller, kind: Kind)
    requires p !in w.calls && Locks(w)
    ensures Locks(w.(calls := w.calls[p := Call(kind, EntryPoint(kind), 0)]))
  {
  }

  // ------------------------------------------------------------ record shape

  function StartingOf(pc: Pc): Option<Record> {
    match pc
    case Waiting(_, r, _) => Some(r)
    case WantActivate(_, r, _) => Some(r)
    case Activating(_, r, _) => Some(r)
    case ActivationCheck(_, r, _, _) => Some(r)
    case Committing(_, r, _, _) => Some(r)
    case Inspecting(_, r) => Some(r)
    case WantAbort(_, r) => Some(r)
    case Aborting(_, r) => Some(r)
    case WantUnlink(r) => Some(r)
    case Unlinking(r) => Some(r)
    case WantRetry(r) => Some(r)
    case Retrying(r) => Some(r)
    case RetryRecording(r, _) => Some(r)
    case WantFail(_, r, _) => Some(r)
    case Failing(_, r, _) => Some(r)
    case Observing(r) => Some(r)
    case WantReconcile(r, _, _) => Some(r)
    case Reconciling(r, _, _) => Some(r)
    case OrphanCheck(r, _, _) => Some(r)
    case OrphanCommit(r, _, _) => Some(r)
    case Probe(reason) => ReasonStarting(reason)
    case Probed(reason) => ReasonStarting(reason)
    case _ => None
  }

  function ReasonStarting(reason: Reason): Option<Record> {
    match reason
    case ForFailed(_) => None
    case ForLaunch => None
    case ForStale(r) => Some(r)
    case ForMissing(r) => Some(r)
    case ForOrphan(r, _, _) => Some(r)
    case ForReplacement(r, _) => Some(r)
  }

  /** The records a program counter carries were valid when it was entered. */
  ghost predicate Carries(pc: Pc, spaceId: nat) {
    && (StartingOf(pc).Some? ==> Valid(StartingOf(pc).value, spaceId) && StartingOf(pc).value.state == Starting)
    && (pc.StopMarking? ==> Valid(pc.record, spaceId) && pc.record.state == Active)
  }

  ghost predicate RegistryValid(s: Shared) {
    s.registry.Some? ==> Valid(s.registry.value, s.spaceId)
  }

  ghost predicate Shapes(w: World) {
    && RegistryValid(w.shared)
    && forall p :: p in w.calls ==> Carries(w.calls[p].pc, w.shared.spaceId)
  }

  // ----------------------------------------------------------- helper counts

  predicate LiveKid(s: Shared, p: Caller, proc: Proc) {
    HasLife(s, proc, Live) && s.procs[proc].parent == Some(p)
  }

  function ChildOf(pc: Pc): Option<Proc> {
    match pc
    case Recording(c) => Some(c)
    case Waiting(c, _, _) => Some(c)
    case WantActivate(c, _, _) => Some(c)
    case Activating(c, _, _) => Some(c)
    case ActivationCheck(c, _, _, _) => Some(c)
    case Committing(c, _, _, _) => Some(c)
    case Inspecting(c, _) => Some(c)
    case WantAbort(c, _) => Some(c)
    case Aborting(c, _) => Some(c)
    case WantCleanup(c) => Some(c)
    case Cleaning(c) => Some(c)
    case RetryRecording(_, c) => Some(c)
    case WantFail(c, _, _) => c
    case Failing(c, _, _) => c
    case _ => None
  }

  /** Points where a launch may have been given up without its helper being confirmed gone. */
  predicate Loose(pc: Pc) {
    pc.Done? || (pc.WantFail? && pc.spawned.None?) || (pc.Failing? && pc.spawned.None?)
  }

  predicate Relaunching(pc: Pc) {
    pc.WantUnlink? || pc.Unlinking? || pc.WantRetry? || pc.Retrying?
  }

  /** At most one live helper, and which one; and how many were launched. */
  ghost predicate Helpers(s: Shared, p: Caller, c: Call) {
    && (Loose(c.pc) ==> forall x: Proc, y: Proc :: LiveKid(s, p, x) && LiveKid(s, p, y) ==> x == y)
    && (!Loose(c.pc) ==> forall x: Proc :: LiveKid(s, p, x) ==> ChildOf(c.pc) == Some(x))
    && (ChildOf(c.pc).Some? ==>
          && var child := ChildOf(c.pc).value;
          && child in s.procs && s.procs[child].parent == Some(p) && s.procs[child].pid > 1 && s.procs[child].generation > 0)
    && c.launches <= MAXIMUM_LAUNCH_ATTEMPTS
    && (ChildOf(c.pc).None? && !Loose(c.pc) ==> c.launches == if Relaunching(c.pc) then 1 else 0)
    && (c.pc.Recording? ==> c.launches == 1)
    && (c.pc.RetryRecording? ==> c.launches == 2)
    && (c.pc.Waiting? ==> c.launches == c.pc.attempts && c.launches >= 1)
  }

  ghost predicate HelperCounts(w: World) {
    && (forall p :: p in w.calls ==> Helpers(w.shared, p, w.calls[p]))
    && (forall proc :: proc in w.shared.procs && w.shared.procs[proc].parent.Some? ==> w.shared.procs[proc].parent.value in w.calls)
  }

  // ----------------------------------------------------------------- signals

  /** If the captured process is still running, it is the one the connection was made to. */
  ghost predicate SamePeer(s: Shared, handle: Proc, via: Socket) {
    HasLife(s, handle, Live) ==> via.listener == handle
  }

  /** What a shutdown has established by the time it acts. */
  ghost predicate Evidence(s: Shared, pc: Pc) {
    match pc
    case StopCapture(record) => s.registry == Some(record) && record.state == Stopping
    case StopVerify(record, handle, check) =>
      && s.registry == Some(record) && record.state == Stopping
      && handle in s.procs && s.procs[handle].pid == record.pid
      && (check.ToAnswer? || check.ToRestat? ==> SamePeer(s, handle, check.via))
    case StopSignal(record, handle, via) =>
      && s.registry == Some(record) && record.state == Stopping
      && handle in s.procs && SocketOf(record).Some? && SamePeer(s, handle, via)
    case _ => true
  }

  ghost predicate Evidenced(w: World) {
    && UniquePids(w.shared)
    && forall p :: p in w.calls ==> Evidence(w.shared, w.calls[p].pc)
  }

  // --------------------------------------------------- each step, per concern

  ghost predicate RecordsMove(s: Shared, m: Move) {
    && m.shared.spaceId == s.spaceId
    && RegistryValid(m.shared)
    && Carries(m.pc, s.spaceId)
    && Edge(s.registry, m.shared.registry)
  }

  ghost predicate RecordsReady(w: World, p: Caller, o: Oracle) {
    && p in w.calls && |o.random| == 16
    && RegistryValid(w.shared) && Carries(w.calls[p].pc, w.shared.spaceId)
    && (ChildOf(w.calls[p].pc).Some? ==>
          && var child := ChildOf(w.calls[p].pc).value;
          && child in w.shared.procs && w.shared.procs[child].pid > 1 && w.shared.procs[child].generation > 0)
  }

  lemma ActivatedEdge(starting: Record, id: SocketId)
    requires starting.state == Starting
    ensures Edge(Some(starting), Some(Activated(starting, id)))
  {
  }

  lemma FailedEdge(starting: Record, why: Failure)
    requires starting.state == Starting
    ensures Edge(Some(starting), Some(FailedWith(starting, why)))
  {
  }

  lemma RecordsProbe(w: World, p: Caller, o: Oracle)
    requires RecordsReady(w, p, o)
    requires w.calls[p].pc.Probe? || w.calls[p].pc.Probed? || w.calls[p].pc.OrphanCheck?
             || w.calls[p].pc.OrphanInspecting? || w.calls[p].pc.RemovingFailed?
    ensures RecordsMove(w.shared, Next(w, p, o))
  {
  }

  lemma RecordsReservation(w: World, p: Caller, o: Oracle)
    requires RecordsReady(w, p, o)
    requires w.calls[p].pc.Reserving? || w.calls[p].pc.Launching? || w.calls[p].pc.Claiming? || w.calls[p].pc.Reconciling?
             || w.calls[p].pc.RecoverLocked? || w.calls[p].pc.RecoverInactive? || w.calls[p].pc.RecoverRemove?
    ensures RecordsMove(w.shared, Next(w, p, o))
  {
  }

  lemma RecordsStop(w: World, p: Caller, o: Oracle)
    requires RecordsReady(w, p, o)
    requires w.calls[p].pc.StopCapture? || w.calls[p].pc.StopVerify? || w.calls[p].pc.StopSignal?
    ensures RecordsMove(w.shared, Next(w, p, o))
  {
  }

  lemma RecordsStopLocked(w: World, p: Caller, o: Oracle)
    requires RecordsReady(w, p, o) && w.calls[p].pc.StopLocked?
    ensures RecordsMove(w.shared, Next(w, p, o))
  {
  }

  lemma RecordsStopWait(w: World, p: Caller, o: Oracle)
    requires RecordsReady(w, p, o) && w.calls[p].pc.StopWait?
    ensures RecordsMove(w.shared, Next(w, p, o))
  {
  }

  lemma RecordsStopMarking(w: World, p: Caller, o: Oracle)
    requires RecordsReady(w, p, o) && w.calls[p].pc.StopMarking?
    ensures RecordsMove(w.shared, Next(w, p, o))
  {
  }

  lemma RecordsSpawning(w: World, p: Caller, o: Oracle)
    requires RecordsReady(w, p, o)
    requires w.calls[p].pc.Spawning? || w.calls[p].pc.Recording? || w.calls[p].pc.RetryRecording?
    ensures RecordsMove(w.shared, Next(w, p, o))
  {
  }

  lemma RecordsCommit(w: World, p: Caller, o: Oracle)
    requires RecordsReady(w, p, o)
    requires w.calls[p].pc.Committing? || w.calls[p].pc.OrphanCommit?
    ensures RecordsMove(w.shared, Next(w, p, o))
  {
    ActivatedEdge(StartingOf(w.calls[p].pc).value, w.calls[p].pc.verified);
  }

  lemma RecordsFailure(w: World, p: Caller, o: Oracle)
    requires RecordsReady(w, p, o)
    requires w.calls[p].pc.Failing? || w.calls[p].pc.Aborting?
    ensures RecordsMove(w.shared, Next(w, p, o))
  {
    var pc := w.calls[p].pc;
    FailedEdge(StartingOf(pc).value, if pc.Failing? then pc.why else ProtocolRejected);
  }

  lemma RecordsWaiter(w: World, p: Caller, o: Oracle)
    requires RecordsReady(w, p, o) && !HoldsLifecycle(w.calls[p].pc)
    ensures RecordsMove(w.shared, Next(w, p, o))
  {
  }

  lemma RecordsOwner(w: World, p: Caller, o: Oracle)
    requires RecordsReady(w, p, o)
    requires w.calls[p].pc.Activating? || w.calls[p].pc.ActivationCheck? || w.calls[p].pc.Inspecting? || w.calls[p].pc.Cleaning?
             || w.calls[p].pc.Unlinking? || w.calls[p].pc.Retrying?
    ensures RecordsMove(w.shared, Next(w, p, o))
  {
  }

  lemma RecordsNext(w: World, p: Caller, o: Oracle)
    requires RecordsReady(w, p, o)
    ensures RecordsMove(w.shared, Next(w, p, o))
  {
    var pc := w.calls[p].pc;
    if !HoldsLifecycle(pc) { RecordsWaiter(w, p, o); }
    else if pc.Probe? || pc.Probed? || pc.OrphanCheck? || pc.OrphanInspecting? || pc.RemovingFailed? { RecordsProbe(w, p, o); }
    else if pc.Spawning? || pc.Recording? || pc.RetryRecording? { RecordsSpawning(w, p, o); }
    else if pc.Committing? || pc.OrphanCommit? { RecordsCommit(w, p, o); }
    else if pc.Failing? || pc.Aborting? { RecordsFailure(w, p, o); }
    else if HoldsOwner(pc) { RecordsOwner(w, p, o); }
    else if pc.StopMarking? { RecordsStopMarking(w, p, o); }
    else if pc.StopWait? { RecordsStopWait(w, p, o); }
    else if pc.StopLocked? { RecordsStopLocked(w, p, o); }
    else if pc.StopCapture? || pc.StopVerify? || pc.StopSignal? { RecordsStop(w, p, o); }
    else { RecordsReservation(w, p, o); }
  }

  // --- processes

  /** Nobody comes back to life, and a new process belongs to the call that launched it. */
  ghost predicate ProcsMove(s: Shared, s': Shared, p: Option<Caller>) {
    && (forall x :: x in s.procs ==>
          && x in s'.procs && s'.procs[x].pid == s.procs[x].pid && s'.procs[x].generation == s.procs[x].generation
          && s'.procs[x].parent == s.procs[x].parent
          && (s'.procs[x].life == Live ==> s.procs[x].life == Live)
          && (s'.procs[x].life != Gone ==> s.procs[x].life != Gone))
    && (forall x :: x in s'.procs && x !in s.procs ==> s'.procs[x].parent in {None, p})
  }

  lemma ProcsLife(s: Shared, proc: Proc, life: Life, p: Option<Caller>)
    requires life == Gone || (life == Zombie && HasLife(s, proc, Live))
    ensures ProcsMove(s, WithLife(s, proc, life), p)
    ensures UniquePids(s) ==> UniquePids(WithLife(s, proc, life))
  {
  }

  lemma ProcsSpawn(s: Shared, proc: Proc, pid: nat, generation: nat, parent: Option<Caller>)
    requires FreshProcess(s, proc, pid, generation)
    ensures var s' := s.(procs := s.procs[proc := Process(pid, generation, Live, parent)]);
            ProcsMove(s, s', parent) && (UniquePids(s) ==> UniquePids(s'))
  {
    var s' := s.(procs := s.procs[proc := Process(pid, generation, Live, parent)]);
    if UniquePids(s) {
      forall a, b | Present(s', a) && Present(s', b) && s'.procs[a].pid == s'.procs[b].pid ensures a == b {
        if a != proc { assert Present(s, a); }
        if b != proc { assert Present(s, b); }
      }
    }
  }

  lemma ProcsOnly(s: Shared, s': Shared, t: Shared, p: Option<Caller>)
    requires s'.procs == s.procs || s'.procs == t.procs
    requires ProcsMove(s, t, p) && (UniquePids(s) ==> UniquePids(t))
    ensures ProcsMove(s, s', p) && (UniquePids(s) ==> UniquePids(s'))
  {
    if UniquePids(s) {
      forall a, b | Present(s', a) && Present(s', b) && s'.procs[a].pid == s'.procs[b].pid ensures a == b {
        if s'.procs == s.procs { assert Present(s, a) && Present(s, b); } else { assert Present(t, a) && Present(t, b); }
      }
    }
  }

  lemma ProcsSame(w: World, p: Caller, o: Oracle)
    requires p in w.calls
    requires !w.calls[p].pc.Spawning? && !w.calls[p].pc.Waiting? && !w.calls[p].pc.Cleaning?
             && !w.calls[p].pc.Retrying? && !w.calls[p].pc.RetryRecording?
    ensures Next(w, p, o).shared.procs == w.shared.procs
  {
  }

  lemma ProcsDying(w: World, p: Caller, o: Oracle)
    requires p in w.calls
    requires w.calls[p].pc.Waiting? || w.calls[p].pc.Cleaning? || w.calls[p].pc.RetryRecording?
    ensures Next(w, p, o).shared.procs in {w.shared.procs, WithLife(w.shared, w.calls[p].pc.child, Gone).procs}
  {
  }

  lemma ProcsLaunch(w: World, p: Caller, o: Oracle)
    requires p in w.calls && (w.calls[p].pc.Spawning? || w.calls[p].pc.Retrying?)
    ensures Next(w, p, o).shared.procs in {w.shared.procs, Spawned(w.shared, p, o).procs}
  {
  }

  lemma ProcsNext(w: World, p: Caller, o: Oracle)
    requires Enabled(w, Step(p, o))
    ensures ProcsMove(w.shared, Next(w, p, o).shared, Some(p))
    ensures UniquePids(w.shared) ==> UniquePids(Next(w, p, o).shared)
  {
    var s, m, pc := w.shared, Next(w, p, o), w.calls[p].pc;
    if pc.Spawning? || pc.Retrying? {
      ProcsSpawn(s, o.proc, o.pid, o.generation, Some(p));
      ProcsLaunch(w, p, o);
      ProcsOnly(s, m.shared, Spawned(s, p, o), Some(p));
    } else if pc.Waiting? || pc.Cleaning? || pc.RetryRecording? {
      ProcsLife(s, pc.child, Gone, Some(p));
      ProcsDying(w, p, o);
      ProcsOnly(s, m.shared, WithLife(s, pc.child, Gone), Some(p));
    } else {
      ProcsSame(w, p, o);
      ProcsOnly(s, m.shared, s, Some(p));
    }
  }

  // --- helpers

  /** A call that does not move keeps its helpers and its evidence. */
  lemma HelpersStable(s: Shared, s': Shared, p: Option<Caller>, q: Caller, c: Call)
    requires ProcsMove(s, s', p) && p != Some(q) && Helpers(s, q, c)
    ensures Helpers(s', q, c)
  {
    forall x: Proc | LiveKid(s', q, x) ensures LiveKid(s, q, x) {
      assert x in s.procs;
    }
  }

  ghost function CallAfter(w: World, p: Caller, o: Oracle): Call
    requires p in w.calls
  {
    Place(w, p, Next(w, p, o)).calls[p]
  }

  predicate Unspawned(pc: Pc) {
    ChildOf(pc).None? && !Loose(pc) && !Relaunching(pc)
  }

  lemma UnspawnedWaiter(w: World, p: Caller, o: Oracle)
    requires p in w.calls
    requires !HoldsLifecycle(w.calls[p].pc) && !HoldsOwner(w.calls[p].pc)
    ensures Unspawned(Next(w, p, o).pc) || Next(w, p, o).pc.Done?
  {
  }

  lemma UnspawnedReservation(w: World, p: Caller, o: Oracle)
    requires p in w.calls
    requires w.calls[p].pc.Reserving? || w.calls[p].pc.Probe? || w.calls[p].pc.RemovingFailed? || w.calls[p].pc.Launching?
             || w.calls[p].pc.Claiming?
    ensures Unspawned(Next(w, p, o).pc) || Next(w, p, o).pc.Done?
  {
  }

  lemma UnspawnedProbed(w: World, p: Caller, o: Oracle)
    requires p in w.calls
    requires w.calls[p].pc.Probed? || w.calls[p].pc.Reconciling? || w.calls[p].pc.OrphanCheck? || w.calls[p].pc.OrphanCommit?
             || w.calls[p].pc.OrphanInspecting?
    ensures Unspawned(Next(w, p, o).pc) || Next(w, p, o).pc.Done?
  {
  }

  lemma UnspawnedStop(w: World, p: Caller, o: Oracle)
    requires p in w.calls
    requires w.calls[p].pc.StopLocked? || w.calls[p].pc.StopMarking? || w.calls[p].pc.StopCapture? || w.calls[p].pc.StopVerify?
             || w.calls[p].pc.StopSignal? || w.calls[p].pc.StopWait?
    ensures Unspawned(Next(w, p, o).pc) || Next(w, p, o).pc.Done?
  {
  }

  lemma UnspawnedRecover(w: World, p: Caller, o: Oracle)
    requires p in w.calls
    requires w.calls[p].pc.RecoverLocked? || w.calls[p].pc.RecoverInactive? || w.calls[p].pc.RecoverRemove?
    ensures Unspawned(Next(w, p, o).pc) || Next(w, p, o).pc.Done?
  {
  }

  lemma HelpersBefore(w: World, p: Caller, o: Oracle)
    requires p in w.calls && Unspawned(w.calls[p].pc) && !w.calls[p].pc.Spawning?
    ensures Unspawned(Next(w, p, o).pc) || Next(w, p, o).pc.Done?
  {
    var pc := w.calls[p].pc;
    if !HoldsLifecycle(pc) { UnspawnedWaiter(w, p, o); }
    else if pc.Probed? || pc.Reconciling? || pc.OrphanCheck? || pc.OrphanCommit? || pc.OrphanInspecting? { UnspawnedProbed(w, p, o); }
    else if pc.RecoverLocked? || pc.RecoverInactive? || pc.RecoverRemove? { UnspawnedRecover(w, p, o); }
    else if pc.Reserving? || pc.Probe? || pc.RemovingFailed? || pc.Launching? || pc.Claiming? { UnspawnedReservation(w, p, o); }
    else { UnspawnedStop(w, p, o); }
  }

  lemma HelpersKeep(w: World, p: Caller, o: Oracle)
    requires p in w.calls && HoldsOwner(w.calls[p].pc)
    requires !w.calls[p].pc.Spawning? && !w.calls[p].pc.Retrying? && !w.calls[p].pc.Waiting? && !w.calls[p].pc.RetryRecording?
    ensures var pc, pc' := w.calls[p].pc, Next(w, p, o).pc;
            && (Loose(pc') || ((Relaunching(pc) <==> Relaunching(pc')) && ChildOf(pc') == ChildOf(pc)))
            && (Loose(pc) ==> Loose(pc'))
            && (pc'.Waiting? ==> pc.Recording? && pc'.attempts == 1)
            && !pc'.Recording? && !pc'.RetryRecording?
            && (Relaunching(pc) ==> ChildOf(pc').None?)
  {
  }

  /** A call that goes on with the same child, or lets go of it, keeps its count. */
  ghost predicate Continues(c: Call, c': Call) {
    && c'.launches == c.launches
    && (Loose(c'.pc) || (!Loose(c.pc) && ChildOf(c'.pc) == ChildOf(c.pc) && (Relaunching(c.pc) <==> Relaunching(c'.pc))))
    && (c'.pc.Waiting? ==> c'.pc.attempts == c.launches && c.launches >= 1)
    && !c'.pc.Recording? && !c'.pc.RetryRecording?
  }

  lemma HelpersCarry(s: Shared, s': Shared, p: Caller, c: Call, c': Call)
    requires ProcsMove(s, s', Some(p)) && s'.procs.Keys == s.procs.Keys
    requires Helpers(s, p, c) && Continues(c, c')
    ensures Helpers(s', p, c')
  {
    forall x: Proc | LiveKid(s', p, x) ensures LiveKid(s, p, x) {}
  }

  lemma HelpersKept(w: World, p: Caller, o: Oracle)
    requires Enabled(w, Step(p, o)) && Helpers(w.shared, p, w.calls[p])
    requires !w.calls[p].pc.Spawning? && !w.calls[p].pc.Retrying? && !w.calls[p].pc.Waiting? && !w.calls[p].pc.RetryRecording?
    ensures Helpers(Next(w, p, o).shared, p, CallAfter(w, p, o))
  {
    var s, m, pc, c' := w.shared, Next(w, p, o), w.calls[p].pc, CallAfter(w, p, o);
    assert Continues(w.calls[p], c') by {
      if HoldsOwner(pc) { HelpersKeep(w, p, o); }
      else if pc.Done? { assert m.pc.Done?; }
      else { HelpersBefore(w, p, o); }
    }
    assert m.shared.procs.Keys == s.procs.Keys by {
      if pc.Cleaning? { ProcsDying(w, p, o); } else { ProcsSame(w, p, o); }
    }
    ProcsNext(w, p, o);
    HelpersCarry(s, m.shared, p, w.calls[p], c');
  }

  /** Where a launch leaves the call. */
  lemma LaunchLeads(w: World, p: Caller, o: Oracle)
    requires p in w.calls && (w.calls[p].pc.Spawning? || w.calls[p].pc.Retrying?)
    ensures Loose(Next(w, p, o).pc) ==> Next(w, p, o).shared.procs == w.shared.procs
    ensures !Loose(Next(w, p, o).pc) ==> Next(w, p, o).shared.procs == Spawned(w.shared, p, o).procs
                                          && ChildOf(Next(w, p, o).pc) == Some(o.proc)
  {
  }

  lemma HelpersLaunched(w: World, p: Caller, o: Oracle)
    requires Enabled(w, Step(p, o)) && Helpers(w.shared, p, w.calls[p])
    requires w.calls[p].pc.Spawning? || w.calls[p].pc.Retrying?
    ensures Helpers(Next(w, p, o).shared, p, CallAfter(w, p, o))
  {
    var s, m := w.shared, Next(w, p, o);
    LaunchLeads(w, p, o);
    forall x: Proc | LiveKid(m.shared, p, x) && x != o.proc ensures LiveKid(s, p, x) {}
  }

  lemma PolledWaiting(w: World, p: Caller, o: Oracle)
    requires p in w.calls && w.calls[p].pc.Waiting?
    ensures var pc, m := w.calls[p].pc, Next(w, p, o);
            || m.pc.Done? || m.pc == pc || (m.pc.WantActivate? && m.pc.child == pc.child)
            || (m.pc.WantUnlink? && !HasLife(m.shared, pc.child, Live) && pc.attempts < 2)
            || (m.pc.WantFail? && m.pc.spawned == Some(pc.child))
  {
  }

  lemma PolledRetry(w: World, p: Caller, o: Oracle)
    requires p in w.calls && w.calls[p].pc.RetryRecording?
    ensures var pc, m := w.calls[p].pc, Next(w, p, o);
            || (m.pc.WantFail? && m.pc.spawned == None)
            || (m.pc.Waiting? && m.pc.child == pc.child && m.pc.attempts == 2)
  {
  }

  lemma HelpersWaiting(w: World, p: Caller, o: Oracle)
    requires Enabled(w, Step(p, o)) && Helpers(w.shared, p, w.calls[p]) && w.calls[p].pc.Waiting?
    ensures Helpers(Next(w, p, o).shared, p, CallAfter(w, p, o))
  {
    var s, m, c, c' := w.shared, Next(w, p, o), w.calls[p], CallAfter(w, p, o);
    var staying := if m.pc.WantUnlink? then c else c';
    assert Continues(c, staying) && c'.launches == c.launches && c'.pc == m.pc
           && (m.pc.WantUnlink? ==> !HasLife(m.shared, c.pc.child, Live) && c.launches == 1) by { PolledWaiting(w, p, o); }
    assert m.shared.procs.Keys == s.procs.Keys by { ProcsDying(w, p, o); }
    assert ProcsMove(s, m.shared, Some(p)) by { ProcsNext(w, p, o); }
    HelpersCarry(s, m.shared, p, c, staying);
  }

  lemma HelpersRetried(w: World, p: Caller, o: Oracle)
    requires Enabled(w, Step(p, o)) && Helpers(w.shared, p, w.calls[p]) && w.calls[p].pc.RetryRecording?
    ensures Helpers(Next(w, p, o).shared, p, CallAfter(w, p, o))
  {
    var s, m, c' := w.shared, Next(w, p, o), CallAfter(w, p, o);
    assert Continues(w.calls[p], c') by { PolledRetry(w, p, o); }
    assert m.shared.procs.Keys == s.procs.Keys by { ProcsDying(w, p, o); }
    assert ProcsMove(s, m.shared, Some(p)) by { ProcsNext(w, p, o); }
    HelpersCarry(s, m.shared, p, w.calls[p], c');
  }

  lemma HelpersNext(w: World, p: Caller, o: Oracle)
    requires Enabled(w, Step(p, o)) && Helpers(w.shared, p, w.calls[p])
    ensures Helpers(Next(w, p, o).shared, p, CallAfter(w, p, o))
  {
    var pc := w.calls[p].pc;
    if pc.Spawning? || pc.Retrying? { HelpersLaunched(w, p, o); }
    else if pc.Waiting? { HelpersWaiting(w, p, o); }
    else if pc.RetryRecording? { HelpersRetried(w, p, o); }
    else { HelpersKept(w, p, o); }
  }

  // --- evidence

  lemma EvidenceStable(s: Shared, s': Shared, p: Option<Caller>, pc: Pc)
    requires ProcsMove(s, s', p) && Evidence(s, pc)
    requires HoldsLifecycle(pc) ==> s'.registry == s.registry
    ensures Evidence(s', pc)
  {
  }

  /** The record changes only in the hands of the lifecycle-lock holder. */
  lemma RegistryNext(w: World, p: Caller, o: Oracle)
    requires p in w.calls && !HoldsLifecycle(w.calls[p].pc)
    ensures Next(w, p, o).shared.registry == w.shared.registry
  {
  }

  lemma EvidenceVerified(w: World, p: Caller, o: Oracle)
    requires p in w.calls && UniquePids(w.shared) && Evidence(w.shared, w.calls[p].pc)
    requires w.calls[p].pc.StopVerify? || w.calls[p].pc.StopCapture?
    ensures Evidence(Next(w, p, o).shared, Next(w, p, o).pc)
  {
    var s, pc := w.shared, w.calls[p].pc;
    if pc.StopVerify? && pc.check.ToConnect? && Listens(s, pc.record.pid) && HasLife(s, pc.handle, Live) {
      assert Present(s, s.socket.value.listener) && Present(s, pc.handle);
    }
  }

  lemma EvidenceOwner(w: World, p: Caller, o: Oracle)
    requires p in w.calls
    requires HoldsOwner(w.calls[p].pc)
    ensures Evidence(Next(w, p, o).shared, Next(w, p, o).pc)
  {
  }

  lemma EvidenceStop(w: World, p: Caller, o: Oracle)
    requires p in w.calls
    requires w.calls[p].pc.RecoverLocked? || w.calls[p].pc.RecoverInactive? || w.calls[p].pc.RecoverRemove?
             || w.calls[p].pc.StopLocked? || w.calls[p].pc.StopMarking? || w.calls[p].pc.StopSignal? || w.calls[p].pc.StopWait?
    ensures Evidence(Next(w, p, o).shared, Next(w, p, o).pc)
  {
  }

  lemma EvidenceReservation(w: World, p: Caller, o: Oracle)
    requires p in w.calls
    requires !HoldsOwner(w.calls[p].pc)
             && !w.calls[p].pc.RecoverLocked? && !w.calls[p].pc.RecoverInactive? && !w.calls[p].pc.RecoverRemove?
             && !w.calls[p].pc.StopLocked? && !w.calls[p].pc.StopMarking? && !w.calls[p].pc.StopSignal? && !w.calls[p].pc.StopWait?
             && !w.calls[p].pc.StopVerify? && !w.calls[p].pc.StopCapture?
    ensures Evidence(Next(w, p, o).shared, Next(w, p, o).pc)
  {
  }

  lemma EvidenceNext(w: World, p: Caller, o: Oracle)
    requires p in w.calls && UniquePids(w.shared) && Evidence(w.shared, w.calls[p].pc)
    ensures Evidence(Next(w, p, o).shared, Next(w, p, o).pc)
  {
    var pc := w.calls[p].pc;
    if pc.StopVerify? || pc.StopCapture? { EvidenceVerified(w, p, o); }
    else if HoldsOwner(pc) { EvidenceOwner(w, p, o); }
    else if pc.RecoverLocked? || pc.RecoverInactive? || pc.RecoverRemove?
            || pc.StopLocked? || pc.StopMarking? || pc.StopSignal? || pc.StopWait? { EvidenceStop(w, p, o); }
    else { EvidenceReservation(w, p, o); }
  }

  // ------------------------------------------------------- the whole invariant

  ghost predicate Inv(w: World) {
    Locks(w) && Shapes(w) && HelperCounts(w) && Evidenced(w)
  }

  lemma ShapesAdvance(w: World, p: Caller, o: Oracle)
    requires Enabled(w, Step(p, o)) && Inv(w)
    ensures Shapes(Place(w, p, Next(w, p, o)))
    ensures Edge(w.shared.registry, Next(w, p, o).shared.registry)
  {
    assert RecordsReady(w, p, o);
    RecordsNext(w, p, o);
  }

  lemma HelperCountsAdvance(w: World, p: Caller, o: Oracle)
    requires Enabled(w, Step(p, o)) && Inv(w)
    ensures HelperCounts(Place(w, p, Next(w, p, o)))
  {
    var m := Next(w, p, o);
    var w' := Place(w, p, m);
    ProcsNext(w, p, o);
    HelpersNext(w, p, o);
    forall q | q in w'.calls ensures Helpers(w'.shared, q, w'.calls[q]) {
      if q != p { HelpersStable(w.shared, m.shared, Some(p), q, w.calls[q]); }
    }
  }

  lemma EvidencedAdvance(w: World, p: Caller, o: Oracle)
    requires Enabled(w, Step(p, o)) && Inv(w)
    ensures Evidenced(Place(w, p, Next(w, p, o)))
  {
    var m, pc := Next(w, p, o), w.calls[p].pc;
    var w' := Place(w, p, m);
    ProcsNext(w, p, o);
    if !HoldsLifecycle(pc) { RegistryNext(w, p, o); }
    EvidenceNext(w, p, o);
    forall q | q in w'.calls ensures Evidence(w'.shared, w'.calls[q].pc) {
      if q != p { EvidenceStable(w.shared, m.shared, Some(p), w.calls[q].pc); }
    }
  }

  /** An environment step leaves calls and locks alone. */
  lemma InvEnvironment(w: World, s': Shared)
    requires Inv(w) && ProcsMove(w.shared, s', None) && UniquePids(s')
    requires s'.registry == w.shared.registry && s'.spaceId == w.shared.spaceId
    ensures Inv(w.(shared := s'))
  {
    forall q | q in w.calls ensures Helpers(s', q, w.calls[q]) && Evidence(s', w.calls[q].pc) {
      HelpersStable(w.shared, s', None, q, w.calls[q]);
      EvidenceStable(w.shared, s', None, w.calls[q].pc);
    }
  }

  lemma InvBegin(w: World, p: Caller, kind: Kind)
    requires Inv(w) && p !in w.calls
    ensures Inv(w.(calls := w.calls[p := Call(kind, EntryPoint(kind), 0)]))
  {
    LocksBegin(w, p, kind);
    var w' := w.(calls := w.calls[p := Call(kind, EntryPoint(kind), 0)]);
    assert Helpers(w'.shared, p, w'.calls[p]);
  }

  lemma InvCrash(w: World, p: Caller)
    requires Inv(w) && p in w.calls
    ensures Inv(Place(w, p, Move(w.shared, Done(false))))
  {
    LocksPreserved(w, p, Move(w.shared, Done(false)));
    HelpersCarry(w.shared, w.shared, p, w.calls[p], w.calls[p].(pc := Done(false)));
  }

  lemma InvStep(w: World, a: Action)
    requires Enabled(w, a) && Inv(w)
    ensures Inv(Apply(w, a))
    ensures Edge(w.shared.registry, Apply(w, a).shared.registry)
  {
    match a
    case Begin(p, kind) => InvBegin(w, p, kind);
    case Step(p, o) =>
      LocksAdvance(w, p, o);
      ShapesAdvance(w, p, o);
      HelperCountsAdvance(w, p, o);
      EvidencedAdvance(w, p, o);
    case Crash(p) => InvCrash(w, p);
    case Exit(proc) => ProcsLife(w.shared, proc, Zombie, None); InvEnvironment(w, WithLife(w.shared, proc, Zombie));
    case Reap(proc) => ProcsLife(w.shared, proc, Gone, None); InvEnvironment(w, WithLife(w.shared, proc, Gone));
    case Foreign(proc, pid, generation) =>
      ProcsSpawn(w.shared, proc, pid, generation, None);
      InvEnvironment(w, Apply(w, a).shared);
    case Rebind(socket) =>
      ProcsOnly(w.shared, Apply(w, a).shared, w.shared, None);
      InvEnvironment(w, Apply(w, a).shared);
  }

  lemma InvInitial(w: World)
    requires Initial(w)
    ensures Inv(w)
  {
  }

  lemma {:induction false} InvRun(ws: seq<World>, actions: seq<Action>, i: nat)
    requires Run(ws, actions) && i < |ws|
    ensures Inv(ws[i])
  {
    if i == 0 {
      InvInitial(ws[0]);
    } else {
      InvRun(ws, actions, i - 1);
      assert StepAt(ws, actions, i - 1);
      InvStep(ws[i - 1], actions[i - 1]);
    }
  }
}
