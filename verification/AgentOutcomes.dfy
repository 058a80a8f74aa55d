/**
 * Whole paths of the private-agent calls: what each ends with when nothing
 * fails and nobody interferes, step by step through both locks.
 */
module AgentOutcomes {
  import opened Base
  import opened AgentRegistry
  import opened AgentProtocol
  import opened AgentSafety
  import opened AgentProgress

  predicate Smooth(o: Oracle) {
    !o.fails && o.answers && o.stops && o.disk == Healthy
  }

  /** From state `i` on, the next `n` actions are smooth operations of call `p`. */
  ghost predicate Alone(ws: seq<World>, actions: seq<Action>, i: nat, n: nat, p: Caller) {
    && Run(ws, actions) && i + n <= |actions|
    && forall k: nat :: i <= k < i + n ==> actions[k].Step? && actions[k].p == p && Smooth(actions[k].o)
  }

  /** Call `p` stands at `pc` and nobody holds a lock that it does not hold there. */
  ghost predicate At(w: World, p: Caller, pc: Pc) {
    && p in w.calls && w.calls[p].pc == pc
    && w.lifecycle == (if HoldsLifecycle(pc) then Some(p) else None)
    && w.ownerExclusive == (if HoldsOwner(pc) then Some(p) else None)
    && w.ownerShared == (if HoldsProbe(pc) then {p} else {})
  }

  ghost predicate Now(w: World, p: Caller, pc: Pc, s: Shared) {
    At(w, p, pc) && w.shared == s
  }

  /** One smooth operation of `p`, whose effect is `m`. */
  lemma Stepped(ws: seq<World>, actions: seq<Action>, i: nat, n: nat, p: Caller, k: nat, pc: Pc, m: Move)
    requires Alone(ws, actions, i, n, p) && i <= k < i + n && At(ws[k], p, pc)
    requires Next(ws[k], p, actions[k].o) == m
    ensures Now(ws[k + 1], p, m.pc, m.shared) && ws[k + 1].calls[p].kind == ws[k].calls[p].kind
  {
    assert StepAt(ws, actions, k);
  }

  // A verification of a socket that nobody disturbs, for each of its three users.

  /** Process `x` has the record's PID and listens at the path as socket `id`. */
  predicate Answers(s: Shared, r: Record, x: Proc, id: SocketId) {
    HasLife(s, x, Live) && s.procs[x].pid == r.pid && s.socket == Some(Socket(id, x))
  }

  function Stage(n: nat, id: SocketId, x: Proc): Check {
    match n case 0 => ToStat case 1 => ToConnect(id) case 2 => ToAnswer(id, Socket(id, x)) case _ => ToRestat(id, Socket(id, x))
  }

  lemma StagePasses(s: Shared, o: Oracle, r: Record, x: Proc, id: SocketId, n: nat)
    requires Answers(s, r, x, id) && Smooth(o) && n <= 3
    ensures NextCheck(s, o, r.pid, Stage(n, id, x)) == if n < 3 then Goes(Stage(n + 1, id, x)) else Passed(id, Socket(id, x))
  {
  }

  lemma ActivationStage(w: World, p: Caller, o: Oracle, x: Proc, r: Record, id: SocketId, n: nat)
    requires p in w.calls && w.calls[p].pc == ActivationCheck(x, r, id, Stage(n, id, x)) && n <= 3
    requires Answers(w.shared, r, x, id) && Smooth(o)
    ensures Next(w, p, o) ==
      Move(w.shared, if n < 3 then ActivationCheck(x, r, id, Stage(n + 1, id, x)) else Committing(x, r, id, Socket(id, x)))
  {
    StagePasses(w.shared, o, r, x, id, n);
  }

  lemma {:induction false} ActivationStages(ws: seq<World>, actions: seq<Action>, i: nat, p: Caller, x: Proc,
            r: Record, id: SocketId, n: nat)
    requires Alone(ws, actions, i, n, p) && n <= 4
    requires At(ws[i], p, ActivationCheck(x, r, id, ToStat)) && Answers(ws[i].shared, r, x, id)
    ensures n < 4 ==> Now(ws[i + n], p, ActivationCheck(x, r, id, Stage(n, id, x)), ws[i].shared)
    ensures n == 4 ==> Now(ws[i + n], p, Committing(x, r, id, Socket(id, x)), ws[i].shared)
  {
    if n > 0 {
      ActivationStages(ws, actions, i, p, x, r, id, n - 1);
      ActivationStage(ws[i + n - 1], p, actions[i + n - 1].o, x, r, id, n - 1);
      Stepped(ws, actions, i, n, p, i + n - 1, ActivationCheck(x, r, id, Stage(n - 1, id, x)),
              Move(ws[i].shared, if n < 4 then ActivationCheck(x, r, id, Stage(n, id, x)) else Committing(x, r, id, Socket(id, x))));
    }
  }

  lemma OrphanStage(w: World, p: Caller, o: Oracle, x: Proc, r: Record, id: SocketId, n: nat)
    requires p in w.calls && w.calls[p].pc == OrphanCheck(r, id, Stage(n, id, x)) && n <= 3
    requires Answers(w.shared, r, x, id) && Smooth(o)
    ensures Next(w, p, o) ==
      Move(w.shared, if n < 3 then OrphanCheck(r, id, Stage(n + 1, id, x)) else OrphanCommit(r, id, Socket(id, x)))
  {
    StagePasses(w.shared, o, r, x, id, n);
  }

  lemma {:induction false} OrphanStages(ws: seq<World>, actions: seq<Action>, i: nat, p: Caller, x: Proc,
            r: Record, id: SocketId, n: nat)
    requires Alone(ws, actions, i, n, p) && n <= 4
    requires At(ws[i], p, OrphanCheck(r, id, ToStat)) && Answers(ws[i].shared, r, x, id)
    ensures n < 4 ==> Now(ws[i + n], p, OrphanCheck(r, id, Stage(n, id, x)), ws[i].shared)
    ensures n == 4 ==> Now(ws[i + n], p, OrphanCommit(r, id, Socket(id, x)), ws[i].shared)
  {
    if n > 0 {
      OrphanStages(ws, actions, i, p, x, r, id, n - 1);
      OrphanStage(ws[i + n - 1], p, actions[i + n - 1].o, x, r, id, n - 1);
      Stepped(ws, actions, i, n, p, i + n - 1, OrphanCheck(r, id, Stage(n - 1, id, x)),
              Move(ws[i].shared, if n < 4 then OrphanCheck(r, id, Stage(n, id, x)) else OrphanCommit(r, id, Socket(id, x))));
    }
  }

  lemma StopStage(w: World, p: Caller, o: Oracle, x: Proc, r: Record, id: SocketId, n: nat)
    requires p in w.calls && w.calls[p].pc == StopVerify(r, x, Stage(n, id, x)) && n <= 3
    requires Answers(w.shared, r, x, id) && Smooth(o) && SocketOf(r) == Some(id)
    ensures Next(w, p, o) ==
      Move(w.shared, if n < 3 then StopVerify(r, x, Stage(n + 1, id, x)) else StopSignal(r, x, Socket(id, x)))
  {
    StagePasses(w.shared, o, r, x, id, n);
  }

  lemma {:induction false} StopStages(ws: seq<World>, actions: seq<Action>, i: nat, p: Caller, x: Proc,
            r: Record, id: SocketId, n: nat)
    requires Alone(ws, actions, i, n, p) && n <= 4
    requires At(ws[i], p, StopVerify(r, x, ToStat)) && Answers(ws[i].shared, r, x, id) && SocketOf(r) == Some(id)
    ensures n < 4 ==> Now(ws[i + n], p, StopVerify(r, x, Stage(n, id, x)), ws[i].shared)
    ensures n == 4 ==> Now(ws[i + n], p, StopSignal(r, x, Socket(id, x)), ws[i].shared)
  {
    if n > 0 {
      StopStages(ws, actions, i, p, x, r, id, n - 1);
      StopStage(ws[i + n - 1], p, actions[i + n - 1].o, x, r, id, n - 1);
      Stepped(ws, actions, i, n, p, i + n - 1, StopVerify(r, x, Stage(n - 1, id, x)),
              Move(ws[i].shared, if n < 4 then StopVerify(r, x, Stage(n, id, x)) else StopSignal(r, x, Socket(id, x))));
    }
  }

  // ------------------------------------------------------------------ launching

  /** Nothing recorded and nothing at the socket path. */
  predicate Empty(s: Shared) {
    s.registry == None && s.socket == None
  }

  /** Process `x` is the helper just launched: alive, child of `p`, with the PID and generation of `r`. */
  predicate IsHelper(s: Shared, p: Caller, x: Proc, r: Record) {
    HasLife(s, x, Live) && s.procs[x].parent == Some(p) && r.pid == s.procs[x].pid && r.generation == Some(s.procs[x].generation)
  }

  /** A record such as a start writes before its helper answers. */
  predicate FreshRecord(s: Shared, r: Record) {
    && r.schemaVersion == 2 && r.state == Starting && r.spaceId == s.spaceId
    && r.socketInode == None && r.socketDevice == None && r.failure == None
  }

  lemma LaunchIsProbed(ws: seq<World>, actions: seq<Action>, i: nat, p: Caller)
    requires Alone(ws, actions, i, 2, p) && At(ws[i], p, Launching) && Empty(ws[i].shared)
    ensures Now(ws[i + 2], p, Probed(ForLaunch), ws[i].shared)
  {
    Stepped(ws, actions, i, 2, p, i, Launching, Move(ws[i].shared, Probe(ForLaunch)));
    Stepped(ws, actions, i, 2, p, i + 1, Probe(ForLaunch), Move(ws[i + 1].shared, Probed(ForLaunch)));
  }

  lemma LaunchIsClaimed(ws: seq<World>, actions: seq<Action>, i: nat, p: Caller)
    requires Alone(ws, actions, i, 4, p) && At(ws[i], p, Launching) && Empty(ws[i].shared)
    ensures At(ws[i + 4], p, Spawning) && ws[i + 4].shared == ws[i].shared
  {
    LaunchIsProbed(ws, actions, i, p);
    Stepped(ws, actions, i, 4, p, i + 2, Probed(ForLaunch), Move(ws[i + 2].shared, Claiming));
    Stepped(ws, actions, i, 4, p, i + 3, Claiming, Move(ws[i + 3].shared, Spawning));
  }

  lemma HelperIsRecorded(ws: seq<World>, actions: seq<Action>, i: nat, p: Caller)
    requires Alone(ws, actions, i, 2, p) && At(ws[i], p, Spawning) && Empty(ws[i].shared)
    ensures var s := ws[i + 2].shared;
            s.registry.Some? && FreshRecord(s, s.registry.value) && s.socket == None
            && exists x :: IsHelper(s, p, x, s.registry.value) && At(ws[i + 2], p, Waiting(x, s.registry.value, 1))
  {
    var o, o', s := actions[i].o, actions[i + 1].o, ws[i].shared;
    var x := o.proc;
    var launched := s.(procs := s.procs[x := Process(o.pid, o.generation, Live, Some(p))]);
    var r := Record(2, Starting, s.spaceId, HexToken(o'.random), o.pid, Some(o.generation), o'.created, None, None, None);
    Stepped(ws, actions, i, 2, p, i, Spawning, Move(launched, Recording(x)));
    Stepped(ws, actions, i, 2, p, i + 1, Recording(x), Move(launched.(registry := Some(r)), Waiting(x, r, 1)));
    assert IsHelper(ws[i + 2].shared, p, x, ws[i + 2].shared.registry.value);
  }

  /** A start of a space without an agent launches a helper, records it as starting and waits for it. */
  lemma StartLaunches(ws: seq<World>, actions: seq<Action>, i: nat, p: Caller)
    requires Alone(ws, actions, i, 8, p) && At(ws[i], p, Top) && Empty(ws[i].shared)
    ensures var s := ws[i + 8].shared;
            s.registry.Some? && FreshRecord(s, s.registry.value)
            && exists x :: IsHelper(s, p, x, s.registry.value) && At(ws[i + 8], p, Waiting(x, s.registry.value, 1))
  {
    Stepped(ws, actions, i, 8, p, i, Top, Move(ws[i].shared, Reserving));
    Stepped(ws, actions, i, 8, p, i + 1, Reserving, Move(ws[i + 1].shared, Launching));
    LaunchIsClaimed(ws, actions, i + 2, p);
    HelperIsRecorded(ws, actions, i + 6, p);
  }

  /** No process has the PID of the record. */
  ghost predicate Dead(s: Shared, r: Record) {
    forall x :: Present(s, x) ==> s.procs[x].pid != r.pid
  }

  /** The socket path is empty or holds the socket the record names. */
  predicate OwnSocketOrNone(s: Shared, r: Record) {
    s.socket == None
    || (r.socketInode.Some? && r.socketDevice.Some? && s.socket.value.id == SocketId(r.socketDevice.value, r.socketInode.value))
  }

  lemma FailedRecordIsCleared(ws: seq<World>, actions: seq<Action>, i: nat, p: Caller, r: Record)
    requires Alone(ws, actions, i, 5, p) && At(ws[i], p, Top)
    requires ws[i].shared.registry == Some(r) && r.state == Failed && Dead(ws[i].shared, r) && OwnSocketOrNone(ws[i].shared, r)
    ensures At(ws[i + 5], p, Launching) && ws[i + 5].shared == ws[i].shared.(registry := None, socket := None)
  {
    Stepped(ws, actions, i, 5, p, i, Top, Move(ws[i].shared, Reserving));
    NobodyMatches(ws[i + 1].shared, r);
    Stepped(ws, actions, i, 5, p, i + 1, Reserving, Move(ws[i + 1].shared, Probe(ForFailed(r))));
    Stepped(ws, actions, i, 5, p, i + 2, Probe(ForFailed(r)), Move(ws[i + 2].shared, Probed(ForFailed(r))));
    Stepped(ws, actions, i, 5, p, i + 3, Probed(ForFailed(r)), Move(ws[i + 3].shared, RemovingFailed(r)));
    Stepped(ws, actions, i, 5, p, i + 4, RemovingFailed(r),
            Move(ws[i + 4].shared.(registry := None, socket := None), Launching));
  }

  /** A start over a failed record whose process is gone removes it and launches anew. */
  lemma StartReplacesFailure(ws: seq<World>, actions: seq<Action>, i: nat, p: Caller, r: Record)
    requires Alone(ws, actions, i, 11, p) && At(ws[i], p, Top)
    requires ws[i].shared.registry == Some(r) && r.state == Failed && Dead(ws[i].shared, r) && OwnSocketOrNone(ws[i].shared, r)
    ensures var s := ws[i + 11].shared;
            s.registry.Some? && FreshRecord(s, s.registry.value)
            && exists x :: IsHelper(s, p, x, s.registry.value) && At(ws[i + 11], p, Waiting(x, s.registry.value, 1))
  {
    FailedRecordIsCleared(ws, actions, i, p, r);
    LaunchIsClaimed(ws, actions, i + 5, p);
    HelperIsRecorded(ws, actions, i + 9, p);
  }

  /** Any other record whose process is gone stops a start, which changes nothing: it takes a recovery. */
  lemma StartLeavesStaleRecords(ws: seq<World>, actions: seq<Action>, i: nat, p: Caller, r: Record)
    requires Alone(ws, actions, i, 4, p) && At(ws[i], p, Top)
    requires ws[i].shared.registry == Some(r) && r.state != Failed && Dead(ws[i].shared, r)
    ensures ws[i + 4].shared == ws[i].shared && At(ws[i + 4], p, Done(false))
  {
    Stepped(ws, actions, i, 4, p, i, Top, Move(ws[i].shared, Reserving));
    NobodyMatches(ws[i + 1].shared, r);
    var s := ws[i].shared;
    var probe := if r.state == Starting then Probe(ForStale(r)) else Done(false);
    var probed := if r.state == Starting then Probed(ForStale(r)) else Done(false);
    Stepped(ws, actions, i, 4, p, i + 1, Reserving, Move(s, probe));
    Stepped(ws, actions, i, 4, p, i + 2, probe, Move(s, probed));
    Stepped(ws, actions, i, 4, p, i + 3, probed, Move(s, Done(false)));
  }

  // ----------------------------------------------------------------- activation

  /** Process `x` is alive under the record's PID and generation and listens at the path as socket `id`. */
  predicate Serves(s: Shared, r: Record, x: Proc, id: SocketId) {
    StandsFor(s, r, x) && HasLife(s, x, Live) && s.socket == Some(Socket(id, x))
  }

  /** Process `x` is what the record names, and listens at the recorded socket. */
  predicate ServesAsRecorded(s: Shared, r: Record, x: Proc, id: SocketId) {
    Serves(s, r, x, id) && r.socketInode == Some(id.inode) && r.socketDevice == Some(id.device)
  }

  lemma CallLooks(ws: seq<World>, actions: seq<Action>, i: nat, p: Caller)
    requires Alone(ws, actions, i, 1, p) && (At(ws[i], p, Top) || At(ws[i], p, RecoverTop))
    ensures Now(ws[i + 1], p, if ws[i].calls[p].pc == Top then Reserving else RecoverLocked, ws[i].shared)
  {
    var pc := ws[i].calls[p].pc;
    Stepped(ws, actions, i, 1, p, i, pc, Move(ws[i].shared, if pc == Top then Reserving else RecoverLocked));
  }

  lemma ActiveIsReported(ws: seq<World>, actions: seq<Action>, i: nat, p: Caller, r: Record)
    requires Alone(ws, actions, i, 1, p) && (At(ws[i], p, Reserving) || At(ws[i], p, RecoverLocked))
    requires ws[i].shared.registry == Some(r) && r.state == Active && Matches(ws[i].shared, r)
    requires SocketOf(r).Some? && actions[i].o.seen == SocketOf(r)
    ensures Now(ws[i + 1], p, Done(true), ws[i].shared)
  {
    Stepped(ws, actions, i, 1, p, i, ws[i].calls[p].pc, Move(ws[i].shared, Done(true)));
  }

  /** A start of a space whose recorded agent serves succeeds without changing anything, and so does a recovery. */
  lemma ActiveAgentIsKept(ws: seq<World>, actions: seq<Action>, i: nat, p: Caller, r: Record, x: Proc, id: SocketId)
    requires Alone(ws, actions, i, 2, p) && (At(ws[i], p, Top) || At(ws[i], p, RecoverTop))
    requires ws[i].shared.registry == Some(r) && r.state == Active && ServesAsRecorded(ws[i].shared, r, x, id)
    requires actions[i + 1].o.seen == Some(id)
    ensures Now(ws[i + 2], p, Done(true), ws[i].shared)
  {
    StandingMatches(ws[i].shared, r, x);
    CallLooks(ws, actions, i, p);
    ActiveIsReported(ws, actions, i + 1, p, r);
  }

  /** The record of `starting` once its agent serves at `id`. */
  predicate IsActiveRecord(r: Record, starting: Record, id: SocketId) {
    r == starting.(state := Active, socketInode := Some(id.inode), socketDevice := Some(id.device))
  }

  lemma ActivationIsChecked(ws: seq<World>, actions: seq<Action>, i: nat, p: Caller, x: Proc, r: Record, id: SocketId)
    requires Alone(ws, actions, i, 5, p) && At(ws[i], p, Activating(x, r, id))
    requires ws[i].shared.registry == Some(r) && r.state == Starting && Serves(ws[i].shared, r, x, id)
    ensures At(ws[i + 5], p, Committing(x, r, id, Socket(id, x))) && ws[i + 5].shared == ws[i].shared
  {
    Stepped(ws, actions, i, 5, p, i, Activating(x, r, id), Move(ws[i].shared, ActivationCheck(x, r, id, ToStat)));
    ActivationStages(ws, actions, i + 1, p, x, r, id, 4);
  }

  lemma ActiveRecordMatches(s: Shared, s': Shared, starting: Record, x: Proc, id: SocketId)
    requires Serves(s, starting, x, id) && s'.procs == s.procs
    requires s'.registry.Some? && IsActiveRecord(s'.registry.value, starting, id)
    ensures Matches(s', s'.registry.value) && SocketOf(s'.registry.value) == Some(id)
  {
    assert StandsFor(s', s'.registry.value, x);
    StandingMatches(s', s'.registry.value, x);
  }

  lemma ActivationIsCommitted(ws: seq<World>, actions: seq<Action>, i: nat, p: Caller, x: Proc, r: Record, id: SocketId)
    requires Alone(ws, actions, i, 2, p) && At(ws[i], p, Committing(x, r, id, Socket(id, x)))
    requires ws[i].shared.registry == Some(r) && Serves(ws[i].shared, r, x, id) && actions[i + 1].o.seen == Some(id)
    ensures At(ws[i + 2], p, Done(true))
    ensures ws[i + 2].shared.registry.Some? && IsActiveRecord(ws[i + 2].shared.registry.value, r, id)
    ensures ws[i + 2].shared == ws[i].shared.(registry := ws[i + 2].shared.registry)
  {
    var s := ws[i].shared;
    var active := r.(state := Active, socketInode := Some(id.inode), socketDevice := Some(id.device));
    Stepped(ws, actions, i, 2, p, i, Committing(x, r, id, Socket(id, x)),
            Move(s.(registry := Some(active)), Inspecting(x, r)));
    ActiveRecordMatches(ws[i].shared, ws[i + 1].shared, r, x, id);
    Stepped(ws, actions, i, 2, p, i + 1, Inspecting(x, r), Move(ws[i + 1].shared, Done(true)));
  }

  /** A start whose helper serves at the socket path makes its record active and succeeds. */
  lemma StartActivates(ws: seq<World>, actions: seq<Action>, i: nat, p: Caller, x: Proc, r: Record, n: nat, id: SocketId)
    requires Alone(ws, actions, i, 9, p) && At(ws[i], p, Waiting(x, r, n))
    requires ws[i].shared.registry == Some(r) && r.state == Starting && Serves(ws[i].shared, r, x, id)
    requires actions[i].o.seen == Some(id) && actions[i + 8].o.seen == Some(id)
    ensures At(ws[i + 9], p, Done(true))
    ensures ws[i + 9].shared.registry.Some? && IsActiveRecord(ws[i + 9].shared.registry.value, r, id)
    ensures ws[i + 9].shared == ws[i].shared.(registry := ws[i + 9].shared.registry)
  {
    Stepped(ws, actions, i, 9, p, i, Waiting(x, r, n), Move(ws[i].shared, WantActivate(x, r, id)));
    Stepped(ws, actions, i, 9, p, i + 1, WantActivate(x, r, id), Move(ws[i + 1].shared, Activating(x, r, id)));
    ActivationIsChecked(ws, actions, i + 2, p, x, r, id);
    ActivationIsCommitted(ws, actions, i + 7, p, x, r, id);
  }

  // ------------------------------------------------------------------- adoption

  lemma StartingIsWatched(ws: seq<World>, actions: seq<Action>, i: nat, p: Caller, r: Record)
    requires Alone(ws, actions, i, 1, p) && (At(ws[i], p, Reserving) || At(ws[i], p, RecoverLocked))
    requires ws[i].shared.registry == Some(r) && r.state == Starting && Matches(ws[i].shared, r)
    ensures Now(ws[i + 1], p, Observing(r), ws[i].shared)
  {
    Stepped(ws, actions, i, 1, p, i, ws[i].calls[p].pc, Move(ws[i].shared, Observing(r)));
  }

  /** A start or a recovery that finds a matching starting record watches that startup. */
  lemma StartupIsObserved(ws: seq<World>, actions: seq<Action>, i: nat, p: Caller, r: Record, x: Proc)
    requires Alone(ws, actions, i, 2, p) && (At(ws[i], p, Top) || At(ws[i], p, RecoverTop))
    requires ws[i].shared.registry == Some(r) && r.state == Starting && StandsFor(ws[i].shared, r, x)
    ensures At(ws[i + 2], p, Observing(r)) && ws[i + 2].shared == ws[i].shared
  {
    StandingMatches(ws[i].shared, r, x);
    CallLooks(ws, actions, i, p);
    StartingIsWatched(ws, actions, i + 1, p, r);
  }

  lemma OrphanIsReconciled(ws: seq<World>, actions: seq<Action>, i: nat, p: Caller, r: Record,
            seen: Option<SocketId>, alive: bool)
    requires Alone(ws, actions, i, 2, p) && At(ws[i], p, Observing(r)) && !actions[i].o.expired
    requires actions[i].o.seen == seen && (alive <==> Matches(ws[i].shared, r))
    ensures Now(ws[i + 2], p, Reconciling(r, seen, alive), ws[i].shared) && ws[i + 2].calls[p].kind == ws[i].calls[p].kind
  {
    Stepped(ws, actions, i, 2, p, i, Observing(r), Move(ws[i].shared, WantReconcile(r, seen, alive)));
    Stepped(ws, actions, i, 2, p, i + 1, WantReconcile(r, seen, alive),
            Move(ws[i + 1].shared, Reconciling(r, seen, alive)));
  }

  lemma OrphanIsProbed(ws: seq<World>, actions: seq<Action>, i: nat, p: Caller, r: Record,
            seen: Option<SocketId>, alive: bool)
    requires Alone(ws, actions, i, 4, p) && At(ws[i], p, Observing(r)) && !actions[i].o.expired
    requires ws[i].shared.registry == Some(r) && r.state == Starting && actions[i].o.seen == seen
    requires alive <==> Matches(ws[i].shared, r)
    ensures At(ws[i + 4], p, Probed(ForOrphan(r, seen, alive))) && ws[i + 4].shared == ws[i].shared
    ensures ws[i + 4].calls[p].kind == ws[i].calls[p].kind
  {
    OrphanIsReconciled(ws, actions, i, p, r, seen, alive);
    var s, kind := ws[i].shared, ws[i].calls[p].kind;
    Stepped(ws, actions, i, 4, p, i + 2, Reconciling(r, seen, alive),
            Move(ws[i + 2].shared, Probe(ForOrphan(r, seen, alive))));
    Stepped(ws, actions, i, 4, p, i + 3, Probe(ForOrphan(r, seen, alive)),
            Move(ws[i + 3].shared, Probed(ForOrphan(r, seen, alive))));
  }

  lemma OrphanIsChecked(ws: seq<World>, actions: seq<Action>, i: nat, p: Caller, x: Proc, r: Record, id: SocketId)
    requires Alone(ws, actions, i, 5, p) && At(ws[i], p, Probed(ForOrphan(r, Some(id), true)))
    requires Serves(ws[i].shared, r, x, id)
    ensures At(ws[i + 5], p, OrphanCommit(r, id, Socket(id, x))) && ws[i + 5].shared == ws[i].shared
  {
    Stepped(ws, actions, i, 5, p, i, Probed(ForOrphan(r, Some(id), true)),
            Move(ws[i].shared, OrphanCheck(r, id, ToStat)));
    OrphanStages(ws, actions, i + 1, p, x, r, id, 4);
  }

  lemma OrphanIsCommitted(ws: seq<World>, actions: seq<Action>, i: nat, p: Caller, x: Proc, r: Record, id: SocketId)
    requires Alone(ws, actions, i, 2, p) && At(ws[i], p, OrphanCommit(r, id, Socket(id, x)))
    requires ws[i].shared.registry == Some(r) && Serves(ws[i].shared, r, x, id) && actions[i + 1].o.seen == Some(id)
    ensures At(ws[i + 2], p, Done(true))
    ensures ws[i + 2].shared.registry.Some? && IsActiveRecord(ws[i + 2].shared.registry.value, r, id)
    ensures ws[i + 2].shared == ws[i].shared.(registry := ws[i + 2].shared.registry)
  {
    var s := ws[i].shared;
    var active := r.(state := Active, socketInode := Some(id.inode), socketDevice := Some(id.device));
    Stepped(ws, actions, i, 2, p, i, OrphanCommit(r, id, Socket(id, x)),
            Move(s.(registry := Some(active)), OrphanInspecting));
    ActiveRecordMatches(ws[i].shared, ws[i + 1].shared, r, x, id);
    Stepped(ws, actions, i, 2, p, i + 1, OrphanInspecting, Move(ws[i + 1].shared, Done(true)));
  }

  /** A serving agent whose launcher's call died is adopted by the next start or recovery, which succeeds. */
  lemma OrphanIsAdopted(ws: seq<World>, actions: seq<Action>, i: nat, p: Caller, x: Proc, r: Record, id: SocketId)
    requires Alone(ws, actions, i, 13, p) && (At(ws[i], p, Top) || At(ws[i], p, RecoverTop))
    requires ws[i].shared.registry == Some(r) && r.state == Starting && Serves(ws[i].shared, r, x, id)
    requires !actions[i + 2].o.expired && actions[i + 2].o.seen == Some(id) && actions[i + 12].o.seen == Some(id)
    ensures At(ws[i + 13], p, Done(true))
    ensures ws[i + 13].shared.registry.Some? && IsActiveRecord(ws[i + 13].shared.registry.value, r, id)
    ensures ws[i + 13].shared == ws[i].shared.(registry := ws[i + 13].shared.registry)
  {
    StartupIsObserved(ws, actions, i, p, r, x);
    StandingMatches(ws[i + 2].shared, r, x);
    OrphanIsProbed(ws, actions, i + 2, p, r, Some(id), true);
    OrphanIsChecked(ws, actions, i + 6, p, x, r, id);
    OrphanIsCommitted(ws, actions, i + 11, p, x, r, id);
  }

  /** A watched startup whose helper died without a socket is removed; a start then begins again. */
  lemma DeadOrphanIsRemoved(ws: seq<World>, actions: seq<Action>, i: nat, p: Caller, r: Record)
    requires Alone(ws, actions, i, 5, p) && At(ws[i], p, Observing(r)) && !actions[i].o.expired && actions[i].o.seen == None
    requires ws[i].shared.registry == Some(r) && r.state == Starting && Dead(ws[i].shared, r) && ws[i].shared.socket == None
    ensures ws[i + 5].shared == ws[i].shared.(registry := None)
    ensures At(ws[i + 5], p, if ws[i].calls[p].kind == Start then Top else Done(false))
  {
    NobodyMatches(ws[i].shared, r);
    OrphanIsProbed(ws, actions, i, p, r, None, false);
    Stepped(ws, actions, i, 5, p, i + 4, Probed(ForOrphan(r, None, false)),
            Move(ws[i].shared.(registry := None), if ws[i].calls[p].kind == Start then Top else Done(false)));
  }

  /** Watching a startup that has become an active agent ends in success. */
  lemma WatcherSucceeds(ws: seq<World>, actions: seq<Action>, i: nat, p: Caller, r: Record, active: Record,
            x: Proc, id: SocketId)
    requires Alone(ws, actions, i, 3, p) && At(ws[i], p, Observing(r)) && !actions[i].o.expired
    requires ws[i].shared.registry == Some(active) && active.state == Active && ServesAsRecorded(ws[i].shared, active, x, id)
    requires actions[i + 2].o.seen == Some(id)
    ensures Now(ws[i + 3], p, Done(true), ws[i].shared)
  {
    var seen, alive := actions[i].o.seen, Matches(ws[i].shared, r);
    StandingMatches(ws[i].shared, active, x);
    OrphanIsReconciled(ws, actions, i, p, r, seen, alive);
    Stepped(ws, actions, i, 3, p, i + 2, Reconciling(r, seen, alive), Move(ws[i].shared, Done(true)));
  }

  /** Watching a startup that was launched again goes on with the record of the new launch. */
  lemma WatcherFollows(ws: seq<World>, actions: seq<Action>, i: nat, p: Caller, r: Record, next: Record)
    requires Alone(ws, actions, i, 3, p) && At(ws[i], p, Observing(r)) && !actions[i].o.expired
    requires ws[i].shared.registry == Some(next) && next.state == Starting && next != r
    ensures Now(ws[i + 3], p, Observing(next), ws[i].shared)
  {
    var seen, alive := actions[i].o.seen, Matches(ws[i].shared, r);
    OrphanIsReconciled(ws, actions, i, p, r, seen, alive);
    Stepped(ws, actions, i, 3, p, i + 2, Reconciling(r, seen, alive), Move(ws[i].shared, Observing(next)));
  }

  /** After a failed startup whose process is gone the record is removed, and after a removed one nothing is left to do. */
  lemma WatcherCleansUp(ws: seq<World>, actions: seq<Action>, i: nat, p: Caller, r: Record)
    requires Alone(ws, actions, i, 5, p) && At(ws[i], p, Observing(r)) && !actions[i].o.expired && r.state == Starting
    requires var s := ws[i].shared;
             if s.registry == None then s.socket == None
             else s.registry.value.state == Failed && Dead(s, s.registry.value) && OwnSocketOrNone(s, s.registry.value)
    ensures Now(ws[i + 5], p, if ws[i].calls[p].kind == Start then Top else Done(false), ws[i].shared.(registry := None, socket := None))
  {
    var seen, alive, s := actions[i].o.seen, Matches(ws[i].shared, r), ws[i].shared;
    if s.registry.Some? { NobodyMatches(s, s.registry.value); }
    OrphanIsReconciled(ws, actions, i, p, r, seen, alive);
    var reason := if s.registry.None? then ForMissing(r) else ForReplacement(r, s.registry.value);
    Stepped(ws, actions, i, 5, p, i + 2, Reconciling(r, seen, alive), Move(s, Probe(reason)));
    ProbedReasonIsSettled(ws, actions, i + 3, p, reason);
  }

  lemma ProbedReasonIsSettled(ws: seq<World>, actions: seq<Action>, i: nat, p: Caller, reason: Reason)
    requires Alone(ws, actions, i, 2, p) && At(ws[i], p, Probe(reason))
    requires var s := ws[i].shared;
             || (reason.ForMissing? && s.registry == None && s.socket == None)
             || (reason.ForReplacement? && s.registry == Some(reason.record) && OwnSocketOrNone(s, reason.record))
    ensures Now(ws[i + 2], p, if ws[i].calls[p].kind == Start then Top else Done(false), ws[i].shared.(registry := None, socket := None))
  {
    Stepped(ws, actions, i, 2, p, i, Probe(reason), Move(ws[i].shared, Probed(reason)));
    Stepped(ws, actions, i, 2, p, i + 1, Probed(reason),
            Move(ws[i].shared.(registry := None, socket := None), if ws[i].calls[p].kind == Start then Top else Done(false)));
  }

  /** A call that finds the startup-owner lock held changes nothing and looks again. */
  lemma ProbesYieldToTheOwner(ws: seq<World>, actions: seq<Action>, i: nat, p: Caller, o: Oracle)
    requires Run(ws, actions) && i < |actions| && actions[i] == Step(p, o) && !o.fails
    requires p in ws[i].calls && ws[i].calls[p].pc.Probe? && ws[i].ownerExclusive.Some?
    ensures p in ws[i + 1].calls && ws[i + 1].shared == ws[i].shared
    ensures ws[i + 1].calls[p].pc.Top? || ws[i + 1].calls[p].pc.Observing?
  {
    assert StepAt(ws, actions, i);
  }

  /** A live one that does not serve yet is watched further. */
  lemma LiveOrphansAreWatched(ws: seq<World>, actions: seq<Action>, i: nat, p: Caller, r: Record, x: Proc)
    requires Alone(ws, actions, i, 5, p) && At(ws[i], p, Observing(r)) && !actions[i].o.expired && actions[i].o.seen == None
    requires ws[i].shared.registry == Some(r) && r.state == Starting && StandsFor(ws[i].shared, r, x)
    ensures Now(ws[i + 5], p, Observing(r), ws[i].shared)
  {
    StandingMatches(ws[i].shared, r, x);
    OrphanIsProbed(ws, actions, i, p, r, None, true);
    Stepped(ws, actions, i, 5, p, i + 4, Probed(ForOrphan(r, None, true)), Move(ws[i].shared, Observing(r)));
  }

  // ------------------------------------------------------------------- failures

  lemma ExitIsNoticed(ws: seq<World>, actions: seq<Action>, i: nat, p: Caller, x: Proc, r: Record)
    requires Alone(ws, actions, i, 3, p) && At(ws[i], p, Waiting(x, r, 1)) && HasLife(ws[i].shared, x, Zombie)
    requires actions[i].o.seen == None
    ensures At(ws[i + 3], p, WantRetry(r)) && HasLife(ws[i + 3].shared, x, Gone)
    ensures ws[i + 3].shared == ws[i].shared.(procs := ws[i + 3].shared.procs, socket := None)
  {
    var reaped := WithLife(ws[i].shared, x, Gone);
    Stepped(ws, actions, i, 3, p, i, Waiting(x, r, 1), Move(reaped, WantUnlink(r)));
    Stepped(ws, actions, i, 3, p, i + 1, WantUnlink(r), Move(ws[i + 1].shared, Unlinking(r)));
    Stepped(ws, actions, i, 3, p, i + 2, Unlinking(r), Move(reaped.(socket := None), WantRetry(r)));
  }

  lemma RelaunchIsStarted(ws: seq<World>, actions: seq<Action>, i: nat, p: Caller, r: Record)
    requires Alone(ws, actions, i, 2, p) && At(ws[i], p, WantRetry(r)) && ws[i].shared.registry == Some(r) && r.state == Starting
    ensures var s, y := ws[i + 2].shared, actions[i + 1].o.proc;
            At(ws[i + 2], p, RetryRecording(r, y)) && y !in ws[i].shared.procs && HasLife(s, y, Live)
            && s.procs[y].parent == Some(p) && s == ws[i].shared.(procs := ws[i].shared.procs[y := s.procs[y]])
  {
    var s, o := ws[i].shared, actions[i + 1].o;
    Stepped(ws, actions, i, 2, p, i, WantRetry(r), Move(ws[i].shared, Retrying(r)));
    assert StepAt(ws, actions, i + 1);
    Stepped(ws, actions, i, 2, p, i + 1, Retrying(r),
            Move(s.(procs := s.procs[o.proc := Process(o.pid, o.generation, Live, Some(p))]), RetryRecording(r, o.proc)));
  }

  lemma RelaunchIsRecorded(ws: seq<World>, actions: seq<Action>, i: nat, p: Caller, r: Record, y: Proc)
    requires Alone(ws, actions, i, 1, p) && At(ws[i], p, RetryRecording(r, y)) && ws[i].shared.registry == Some(r)
    requires HasLife(ws[i].shared, y, Live) && ws[i].shared.procs[y].parent == Some(p) && r.spaceId == ws[i].shared.spaceId
    ensures var s := ws[i + 1].shared;
            s.registry.Some? && FreshRecord(s, s.registry.value) && IsHelper(s, p, y, s.registry.value)
            && At(ws[i + 1], p, Waiting(y, s.registry.value, 2)) && s == ws[i].shared.(registry := s.registry)
  {
    var s, o := ws[i].shared, actions[i].o;
    var renewed := Record(2, Starting, s.spaceId, HexToken(o.random), s.procs[y].pid, Some(s.procs[y].generation), o.created,
                        None, None, None);
    Stepped(ws, actions, i, 1, p, i, RetryRecording(r, y),
            Move(s.(registry := Some(renewed)), Waiting(y, renewed, 2)));
  }

  /** A helper that exits before it serves is launched once more under a replaced record. */
  lemma ExitedHelperIsRelaunched(ws: seq<World>, actions: seq<Action>, i: nat, p: Caller, x: Proc, r: Record)
    requires Alone(ws, actions, i, 6, p) && At(ws[i], p, Waiting(x, r, 1)) && HasLife(ws[i].shared, x, Zombie)
    requires ws[i].shared.registry == Some(r) && r.state == Starting && r.spaceId == ws[i].shared.spaceId && actions[i].o.seen == None
    ensures var s := ws[i + 6].shared;
            HasLife(s, x, Gone) && s.socket == None && s.registry.Some? && FreshRecord(s, s.registry.value)
            && exists y :: y != x && IsHelper(s, p, y, s.registry.value) && At(ws[i + 6], p, Waiting(y, s.registry.value, 2))
  {
    ExitIsNoticed(ws, actions, i, p, x, r);
    RelaunchIsStarted(ws, actions, i + 3, p, r);
    RelaunchIsRecorded(ws, actions, i + 5, p, r, actions[i + 4].o.proc);
  }

  predicate IsFailedRecord(r: Record, starting: Record, why: Failure) {
    r == starting.(state := Failed, failure := Some(why))
  }

  lemma FailureIsRecorded(ws: seq<World>, actions: seq<Action>, i: nat, p: Caller, x: Proc, r: Record, why: Failure)
    requires Alone(ws, actions, i, 2, p) && At(ws[i], p, WantFail(Some(x), r, why))
    requires ws[i].shared.registry == Some(r) && r.state == Starting
    ensures At(ws[i + 2], p, if why == StartupTimeout then WantCleanup(x) else Done(false))
    ensures ws[i + 2].shared.registry.Some? && IsFailedRecord(ws[i + 2].shared.registry.value, r, why)
    ensures ws[i + 2].shared == ws[i].shared.(registry := ws[i + 2].shared.registry)
  {
    var failed := r.(state := Failed, failure := Some(why));
    Stepped(ws, actions, i, 2, p, i, WantFail(Some(x), r, why), Move(ws[i].shared, Failing(Some(x), r, why)));
    Stepped(ws, actions, i, 2, p, i + 1, Failing(Some(x), r, why),
            Move(ws[i].shared.(registry := Some(failed)), if why == StartupTimeout then WantCleanup(x) else Done(false)));
  }

  /** When the second one exits as well, the record says so and the start gives up. */
  lemma SecondExitFails(ws: seq<World>, actions: seq<Action>, i: nat, p: Caller, x: Proc, r: Record)
    requires Alone(ws, actions, i, 3, p) && At(ws[i], p, Waiting(x, r, 2)) && HasLife(ws[i].shared, x, Zombie)
    requires ws[i].shared.registry == Some(r) && r.state == Starting && actions[i].o.seen == None
    ensures At(ws[i + 3], p, Done(false)) && HasLife(ws[i + 3].shared, x, Gone)
    ensures ws[i + 3].shared.registry.Some? && IsFailedRecord(ws[i + 3].shared.registry.value, r, LaunchExited)
    ensures ws[i + 3].shared.cleanups == ws[i].shared.cleanups
  {
    var reaped := WithLife(ws[i].shared, x, Gone);
    Stepped(ws, actions, i, 3, p, i, Waiting(x, r, 2), Move(reaped, WantFail(Some(x), r, LaunchExited)));
    FailureIsRecorded(ws, actions, i + 1, p, x, r, LaunchExited);
  }

  lemma HelperIsCleanedUp(ws: seq<World>, actions: seq<Action>, i: nat, p: Caller, x: Proc)
    requires Alone(ws, actions, i, 2, p) && At(ws[i], p, WantCleanup(x)) && HasLife(ws[i].shared, x, Live)
    ensures At(ws[i + 2], p, Done(false)) && HasLife(ws[i + 2].shared, x, Gone) && (p, x) in ws[i + 2].shared.cleanups
    ensures ws[i + 2].shared.socket == None && ws[i + 2].shared.registry == ws[i].shared.registry
  {
    var signalled := Terminated(ws[i].shared, p, x);
    Stepped(ws, actions, i, 2, p, i, WantCleanup(x), Move(ws[i].shared, Cleaning(x)));
    Stepped(ws, actions, i, 2, p, i + 1, Cleaning(x),
            Move(WithLife(signalled, x, Gone).(socket := None), Done(false)));
    assert x in Reached(ws[i + 1].shared, x);
    assert (p, x) in Terminated(ws[i + 1].shared, p, x).cleanups;
  }

  lemma DeadlineIsRecorded(ws: seq<World>, actions: seq<Action>, i: nat, p: Caller, x: Proc, r: Record, n: nat)
    requires Alone(ws, actions, i, 3, p) && At(ws[i], p, Waiting(x, r, n)) && HasLife(ws[i].shared, x, Live)
    requires ws[i].shared.registry == Some(r) && r.state == Starting && actions[i].o.seen == None && actions[i].o.expired
    ensures At(ws[i + 3], p, WantCleanup(x)) && ws[i + 3].shared.procs == ws[i].shared.procs
    ensures ws[i + 3].shared.registry.Some? && IsFailedRecord(ws[i + 3].shared.registry.value, r, StartupTimeout)
  {
    Stepped(ws, actions, i, 3, p, i, Waiting(x, r, n), Move(ws[i].shared, WantFail(Some(x), r, StartupTimeout)));
    FailureIsRecorded(ws, actions, i + 1, p, x, r, StartupTimeout);
  }

  /** A helper that never serves is given up at the deadline: the record says so, helper and socket are gone. */
  lemma DeadlineCleansUp(ws: seq<World>, actions: seq<Action>, i: nat, p: Caller, x: Proc, r: Record, n: nat)
    requires Alone(ws, actions, i, 5, p) && At(ws[i], p, Waiting(x, r, n)) && HasLife(ws[i].shared, x, Live)
    requires ws[i].shared.registry == Some(r) && r.state == Starting && actions[i].o.seen == None && actions[i].o.expired
    ensures At(ws[i + 5], p, Done(false)) && HasLife(ws[i + 5].shared, x, Gone) && (p, x) in ws[i + 5].shared.cleanups
    ensures ws[i + 5].shared.socket == None
    ensures ws[i + 5].shared.registry.Some? && IsFailedRecord(ws[i + 5].shared.registry.value, r, StartupTimeout)
  {
    DeadlineIsRecorded(ws, actions, i, p, x, r, n);
    HelperIsCleanedUp(ws, actions, i + 3, p, x);
  }

  /** So is one whose activation was refused. */
  lemma RefusalCleansUp(ws: seq<World>, actions: seq<Action>, i: nat, p: Caller, x: Proc, r: Record)
    requires Alone(ws, actions, i, 4, p) && At(ws[i], p, WantAbort(x, r)) && HasLife(ws[i].shared, x, Live)
    requires ws[i].shared.registry == Some(r) && r.state == Starting
    ensures At(ws[i + 4], p, Done(false)) && HasLife(ws[i + 4].shared, x, Gone) && (p, x) in ws[i + 4].shared.cleanups
    ensures ws[i + 4].shared.socket == None
    ensures ws[i + 4].shared.registry.Some? && IsFailedRecord(ws[i + 4].shared.registry.value, r, ProtocolRejected)
  {
    Stepped(ws, actions, i, 4, p, i, WantAbort(x, r), Move(ws[i].shared, Aborting(x, r)));
    Stepped(ws, actions, i, 4, p, i + 1, Aborting(x, r),
            Move(ws[i].shared.(registry := Some(r.(state := Failed, failure := Some(ProtocolRejected)))), WantCleanup(x)));
    HelperIsCleanedUp(ws, actions, i + 2, p, x);
  }

  // --------------------------------------------------------- stop and recover

  lemma TargetIsVerified(ws: seq<World>, actions: seq<Action>, i: nat, p: Caller, r: Record, x: Proc, id: SocketId)
    requires Alone(ws, actions, i, 5, p) && At(ws[i], p, StopCapture(r)) && actions[i].o.proc == x
    requires ServesAsRecorded(ws[i].shared, r, x, id)
    ensures At(ws[i + 5], p, StopSignal(r, x, Socket(id, x))) && ws[i + 5].shared == ws[i].shared
  {
    Stepped(ws, actions, i, 5, p, i, StopCapture(r), Move(ws[i].shared, StopVerify(r, x, ToStat)));
    StopStages(ws, actions, i + 1, p, x, r, id, 4);
  }

  lemma TargetIsSignalled(ws: seq<World>, actions: seq<Action>, i: nat, p: Caller, r: Record, x: Proc, via: Socket)
    requires Alone(ws, actions, i, 1, p) && At(ws[i], p, StopSignal(r, x, via)) && HasLife(ws[i].shared, x, Live)
    ensures At(ws[i + 1], p, StopWait(r, x)) && (p, x) in ws[i + 1].shared.shutdowns
    ensures ws[i + 1].shared == ws[i].shared.(shutdowns := ws[i + 1].shared.shutdowns)
  {
    var s := ws[i].shared;
    Stepped(ws, actions, i, 1, p, i, StopSignal(r, x, via),
            Move(s.(shutdowns := s.shutdowns + {(p, x)}), StopWait(r, x)));
  }

  lemma RemovalFollowsTheExit(ws: seq<World>, actions: seq<Action>, i: nat, p: Caller, r: Record, x: Proc)
    requires Run(ws, actions) && i + 2 <= |actions| && actions[i] == Exit(x) && Alone(ws, actions, i + 1, 1, p)
    requires At(ws[i], p, StopWait(r, x)) && ws[i].shared.registry == Some(r) && OwnSocketOrNone(ws[i].shared, r)
    ensures At(ws[i + 2], p, Done(false)) && ws[i + 2].shared.shutdowns == ws[i].shared.shutdowns
    ensures ws[i + 2].shared.registry == None && ws[i + 2].shared.socket == None
  {
    assert StepAt(ws, actions, i);
    Stepped(ws, actions, i + 1, 1, p, i + 1, StopWait(r, x),
            Move(ws[i + 1].shared.(registry := None, socket := None), Done(false)));
  }

  /** The agent is verified and signalled; once it has exited, its record and its socket are removed. */
  lemma TargetIsShutDown(ws: seq<World>, actions: seq<Action>, i: nat, p: Caller, r: Record, x: Proc, id: SocketId)
    requires Alone(ws, actions, i, 6, p) && At(ws[i], p, StopCapture(r)) && actions[i].o.proc == x
    requires ws[i].shared.registry == Some(r) && ServesAsRecorded(ws[i].shared, r, x, id)
    requires i + 8 <= |actions| && actions[i + 6] == Exit(x) && Alone(ws, actions, i + 7, 1, p)
    ensures At(ws[i + 8], p, Done(false)) && (p, x) in ws[i + 8].shared.shutdowns
    ensures ws[i + 8].shared.registry == None && ws[i + 8].shared.socket == None
  {
    TargetIsVerified(ws, actions, i, p, r, x, id);
    TargetIsSignalled(ws, actions, i + 5, p, r, x, Socket(id, x));
    RemovalFollowsTheExit(ws, actions, i + 6, p, r, x);
  }

  lemma MarkIsWritten(ws: seq<World>, actions: seq<Action>, i: nat, p: Caller, r: Record)
    requires Alone(ws, actions, i, 1, p) && At(ws[i], p, StopMarking(r)) && ws[i].shared.registry == Some(r)
    ensures var marked := r.(state := Stopping); Now(ws[i + 1], p, StopCapture(marked), ws[i].shared.(registry := Some(marked)))
  {
    var marked := r.(state := Stopping);
    Stepped(ws, actions, i, 1, p, i, StopMarking(r),
            Move(ws[i].shared.(registry := Some(marked)), StopCapture(marked)));
  }

  lemma StopIsMarked(ws: seq<World>, actions: seq<Action>, i: nat, p: Caller, r: Record, id: SocketId)
    requires Alone(ws, actions, i, 3, p) && At(ws[i], p, StopTop) && actions[i + 1].o.seen == Some(id)
    requires ws[i].shared.registry == Some(r) && r.state == Active && Matches(ws[i].shared, r)
    requires r.socketInode == Some(id.inode) && r.socketDevice == Some(id.device)
    ensures var marked := r.(state := Stopping); Now(ws[i + 3], p, StopCapture(marked), ws[i].shared.(registry := Some(marked)))
  {
    Stepped(ws, actions, i, 3, p, i, StopTop, Move(ws[i].shared, StopLocked));
    Stepped(ws, actions, i, 3, p, i + 1, StopLocked, Move(ws[i + 1].shared, StopMarking(r)));
    MarkIsWritten(ws, actions, i + 2, p, r);
  }

  /** A stop of a verified active agent marks it as stopping, signals it and removes record and socket. */
  lemma StopShutsDown(ws: seq<World>, actions: seq<Action>, i: nat, p: Caller, r: Record, x: Proc, id: SocketId)
    requires Alone(ws, actions, i, 9, p) && At(ws[i], p, StopTop) && actions[i + 3].o.proc == x
    requires ws[i].shared.registry == Some(r) && r.state == Active && ServesAsRecorded(ws[i].shared, r, x, id)
    requires actions[i + 1].o.seen == Some(id)
    requires i + 11 <= |actions| && actions[i + 9] == Exit(x) && Alone(ws, actions, i + 10, 1, p)
    ensures ws[i + 3].shared.registry == Some(r.(state := Stopping))
    ensures At(ws[i + 11], p, Done(false)) && (p, x) in ws[i + 11].shared.shutdowns
    ensures ws[i + 11].shared.registry == None && ws[i + 11].shared.socket == None
  {
    StandingMatches(ws[i].shared, r, x);
    StopIsMarked(ws, actions, i, p, r, id);
    TargetIsShutDown(ws, actions, i + 3, p, r.(state := Stopping), x, id);
  }

  lemma RecoveryLooks(ws: seq<World>, actions: seq<Action>, i: nat, p: Caller, r: Record)
    requires Alone(ws, actions, i, 2, p) && At(ws[i], p, RecoverTop)
    requires ws[i].shared.registry == Some(r) && (r.state == Stopping || !Matches(ws[i].shared, r))
    ensures Now(ws[i + 2], p, RecoverInactive, ws[i].shared)
  {
    Stepped(ws, actions, i, 2, p, i, RecoverTop, Move(ws[i].shared, RecoverLocked));
    Stepped(ws, actions, i, 2, p, i + 1, RecoverLocked, Move(ws[i + 1].shared, RecoverInactive));
  }

  /** A recovery finishes a shutdown that somebody else began and did not complete. */
  lemma RecoveryFinishesAShutdown(ws: seq<World>, actions: seq<Action>, i: nat, p: Caller, r: Record, x: Proc, id: SocketId)
    requires Alone(ws, actions, i, 9, p) && At(ws[i], p, RecoverTop) && actions[i + 3].o.proc == x
    requires ws[i].shared.registry == Some(r) && r.state == Stopping && ServesAsRecorded(ws[i].shared, r, x, id)
    requires !actions[i + 2].o.disconnected
    requires i + 11 <= |actions| && actions[i + 9] == Exit(x) && Alone(ws, actions, i + 10, 1, p)
    ensures At(ws[i + 11], p, Done(false)) && (p, x) in ws[i + 11].shared.shutdowns
    ensures ws[i + 11].shared.registry == None && ws[i + 11].shared.socket == None
  {
    StandingMatches(ws[i].shared, r, x);
    RecoveryLooks(ws, actions, i, p, r);
    Stepped(ws, actions, i, 9, p, i + 2, RecoverInactive, Move(ws[i].shared, StopCapture(r)));
    TargetIsShutDown(ws, actions, i + 3, p, r, x, id);
  }

  /**
   * A recovery over a record whose process is gone, in whatever state, removes
   * record and socket, unless a socket other than the recorded one is there:
   * then it leaves both.
   */
  lemma RecoveryRemovesStaleRecords(ws: seq<World>, actions: seq<Action>, i: nat, p: Caller, r: Record)
    requires Alone(ws, actions, i, 4, p) && At(ws[i], p, RecoverTop)
    requires ws[i].shared.registry == Some(r) && Dead(ws[i].shared, r)
    ensures At(ws[i + 4], p, Done(false))
    ensures ws[i + 4].shared ==
      if OwnSocketOrNone(ws[i].shared, r) then ws[i].shared.(registry := None, socket := None) else ws[i].shared
  {
    NobodyMatches(ws[i].shared, r);
    RecoveryLooks(ws, actions, i, p, r);
    Stepped(ws, actions, i, 4, p, i + 2, RecoverInactive, Move(ws[i].shared, RecoverRemove(r)));
    Stepped(ws, actions, i, 4, p, i + 3, RecoverRemove(r),
            Move(if OwnSocketOrNone(ws[i].shared, r) then ws[i].shared.(registry := None, socket := None) else ws[i].shared, Done(false)));
  }

  /**
   * A process that is still there keeps its failed record, and it keeps an
   * active one unless its socket, recorded or absent, refuses connections.
   */
  lemma RecoverySparesTheLiving(ws: seq<World>, actions: seq<Action>, i: nat, p: Caller, r: Record, x: Proc)
    requires Alone(ws, actions, i, 4, p) && At(ws[i], p, RecoverTop)
    requires ws[i].shared.registry == Some(r) && StandsFor(ws[i].shared, r, x)
    requires r.state == Failed || (r.state == Active && actions[i + 1].o.seen != SocketOf(r))
    ensures At(ws[i + 4], p, Done(false))
    ensures ws[i + 4].shared ==
      if r.state == Active && actions[i + 2].o.disconnected && OwnSocketOrNone(ws[i].shared, r)
      then ws[i].shared.(registry := None, socket := None) else ws[i].shared
  {
    var s := ws[i].shared;
    StandingMatches(s, r, x);
    InactiveIsLookedAt(ws, actions, i, p, r);
    var pc := if r.state == Active && actions[i + 2].o.disconnected then RecoverRemove(r) else Done(false);
    InactiveIsJudged(ws, actions, i + 2, p, r);
    var s' := if pc.RecoverRemove? && OwnSocketOrNone(s, r) then s.(registry := None, socket := None) else s;
    Stepped(ws, actions, i, 4, p, i + 3, pc, Move(s', Done(false)));
  }

  lemma InactiveIsJudged(ws: seq<World>, actions: seq<Action>, i: nat, p: Caller, r: Record)
    requires Alone(ws, actions, i, 1, p) && At(ws[i], p, RecoverInactive) && ws[i].shared.registry == Some(r)
    requires Matches(ws[i].shared, r) && r.state in {Active, Failed}
    ensures Now(ws[i + 1], p, if r.state == Active && actions[i].o.disconnected then RecoverRemove(r) else Done(false), ws[i].shared)
  {
    var pc := if r.state == Active && actions[i].o.disconnected then RecoverRemove(r) else Done(false);
    Stepped(ws, actions, i, 1, p, i, RecoverInactive, Move(ws[i].shared, pc));
  }

  lemma InactiveIsLookedAt(ws: seq<World>, actions: seq<Action>, i: nat, p: Caller, r: Record)
    requires Alone(ws, actions, i, 2, p) && At(ws[i], p, RecoverTop) && ws[i].shared.registry == Some(r)
    requires r.state == Failed || (r.state == Active && actions[i + 1].o.seen != SocketOf(r))
    ensures Now(ws[i + 2], p, RecoverInactive, ws[i].shared)
  {
    Stepped(ws, actions, i, 2, p, i, RecoverTop, Move(ws[i].shared, RecoverLocked));
    Stepped(ws, actions, i, 2, p, i + 1, RecoverLocked, Move(ws[i].shared, RecoverInactive));
  }

  // --------------------------------------------------------- abandoned helpers

  /** Why a start may return and leave its live helper running. */
  predicate MayAbandon(s: Shared, pc: Pc, o: Oracle) {
    || (pc.Waiting? && o.fails)                              // the helper could not be looked at
    || (pc.WantCleanup? && o.fails)                          // no lock for the cleanup
    || (pc.Cleaning? && (o.fails || !o.stops))               // the helper does not go
    || (pc.Inspecting? && !o.fails)                          // it was activated, then found wanting
    || (pc.Aborting? && s.registry.Some? && s.registry.value.state == Active && s.registry.value.pid == pc.starting.pid
        && s.registry.value.token == pc.starting.token)      // its activation stands
    || (pc.Failing? && pc.why != StartupTimeout)             // it had exited
  }

  lemma AbandonedAtTheLock(w: World, p: Caller, o: Oracle)
    requires p in w.calls && ChildOf(w.calls[p].pc).Some? && WantsLifecycle(w.calls[p].pc)
    requires Next(w, p, o).pc == Done(false)
    ensures MayAbandon(w.shared, w.calls[p].pc, o)
  {
  }

  lemma AbandonedElsewhere(w: World, p: Caller, o: Oracle, child: Proc)
    requires p in w.calls && ChildOf(w.calls[p].pc) == Some(child) && !WantsLifecycle(w.calls[p].pc)
    requires Next(w, p, o).pc == Done(false) && HasLife(Next(w, p, o).shared, child, Live)
    ensures MayAbandon(w.shared, w.calls[p].pc, o)
  {
  }

  /** A start that returns without success has stopped its helper, but for these cases. */
  lemma AbandonedHelpersHaveACause(ws: seq<World>, actions: seq<Action>, i: nat, p: Caller, o: Oracle, child: Proc)
    requires Run(ws, actions) && i < |actions| && actions[i] == Step(p, o) && p in ws[i].calls
    requires ChildOf(ws[i].calls[p].pc) == Some(child)
    requires p in ws[i + 1].calls && ws[i + 1].calls[p].pc == Done(false) && HasLife(ws[i + 1].shared, child, Live)
    ensures MayAbandon(ws[i].shared, ws[i].calls[p].pc, o)
  {
    assert StepAt(ws, actions, i);
    if WantsLifecycle(ws[i].calls[p].pc) { AbandonedAtTheLock(ws[i], p, o); } else { AbandonedElsewhere(ws[i], p, o, child); }
  }

  /** A retry that cannot get the lifecycle lock records the failure. */
  lemma BlockedRetryIsRecorded(ws: seq<World>, actions: seq<Action>, i: nat, p: Caller, o: Oracle, r: Record)
    requires Alone(ws, actions, i + 1, 2, p) && actions[i] == Step(p, o) && o.fails && p in ws[i].calls
    requires ws[i].calls[p].pc == WantRetry(r) && ws[i].lifecycle == None && ws[i].ownerExclusive == Some(p) && ws[i].ownerShared == {}
    requires ws[i].shared.registry == Some(r) && r.state == Starting
    ensures At(ws[i + 3], p, Done(false))
    ensures ws[i + 3].shared.registry.Some? && IsFailedRecord(ws[i + 3].shared.registry.value, r, LaunchExited)
  {
    assert StepAt(ws, actions, i);
    var failed := r.(state := Failed, failure := Some(LaunchExited));
    assert Now(ws[i + 1], p, WantFail(None, r, LaunchExited), ws[i].shared);
    Stepped(ws, actions, i + 1, 2, p, i + 1, WantFail(None, r, LaunchExited), Move(ws[i].shared, Failing(None, r, LaunchExited)));
    Stepped(ws, actions, i + 1, 2, p, i + 2, Failing(None, r, LaunchExited), Move(ws[i].shared.(registry := Some(failed)), Done(false)));
  }

  /** A second helper is launched, and an activation begun, only while the record is still the call's own. */
  lemma LaunchesKeepToTheirRecord(ws: seq<World>, actions: seq<Action>, i: nat, p: Caller, o: Oracle)
    requires Run(ws, actions) && i < |actions| && actions[i] == Step(p, o) && p in ws[i].calls && p in ws[i + 1].calls
    requires var (pc, pc') := (ws[i].calls[p].pc, ws[i + 1].calls[p].pc);
             (pc.Retrying? && pc'.RetryRecording?) || (pc.Activating? && pc'.ActivationCheck?)
    ensures ws[i].shared.registry == Some(ws[i].calls[p].pc.starting)
  {
    assert StepAt(ws, actions, i);
  }

  /** A signalled agent is waited for until it has exited or the deadline has passed; then the record stays for recovery. */
  lemma StopWaitsUntilTheDeadline(ws: seq<World>, actions: seq<Action>, i: nat, p: Caller, o: Oracle)
    requires Run(ws, actions) && i < |actions| && actions[i] == Step(p, o) && !o.fails && p in ws[i].calls
    requires ws[i].calls[p].pc.StopWait? && HasLife(ws[i].shared, ws[i].calls[p].pc.handle, Live)
    ensures ws[i + 1].shared == ws[i].shared && p in ws[i + 1].calls
    ensures ws[i + 1].calls[p].pc == if o.expired then Done(false) else ws[i].calls[p].pc
  {
    assert StepAt(ws, actions, i);
  }
}
