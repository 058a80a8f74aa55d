/**
 * The promises of the private-agent lifecycle, over every run of any number
 * of `start`, `stop` and `recover` calls with crashes, early exits, PID reuse
 * and socket changes in between.
 */
module AgentTheorems {
  import opened Base
  import opened AgentRegistry
  import opened AgentProtocol
  import opened AgentSafety

  // ------------------------------------------------------- startup ownership

  predicate StartPc(pc: Pc) {
    !(pc.RecoverTop? || pc.RecoverLocked? || pc.RecoverInactive? || pc.RecoverRemove? || pc.StopTop? || pc.StopLocked?
      || pc.StopMarking? || pc.StopCapture? || pc.StopVerify? || pc.StopSignal? || pc.StopWait?)
  }

  lemma StartPcReservation(w: World, p: Caller, o: Oracle)
    requires p in w.calls && StartPc(w.calls[p].pc) && !HoldsOwner(w.calls[p].pc)
    ensures StartPc(Next(w, p, o).pc)
  {
  }

  lemma StartPcOwner(w: World, p: Caller, o: Oracle)
    requires p in w.calls && HoldsOwner(w.calls[p].pc)
    ensures StartPc(Next(w, p, o).pc)
  {
  }

  ghost predicate StartsStayStarts(w: World) {
    forall p :: p in w.calls && w.calls[p].kind == Start ==> StartPc(w.calls[p].pc)
  }

  lemma StartsStep(w: World, a: Action)
    requires Enabled(w, a) && StartsStayStarts(w)
    ensures StartsStayStarts(Apply(w, a))
  {
    if a.Step? && StartPc(w.calls[a.p].pc) {
      if HoldsOwner(w.calls[a.p].pc) { StartPcOwner(w, a.p, a.o); } else { StartPcReservation(w, a.p, a.o); }
    }
  }

  lemma {:induction false} StartsRun(ws: seq<World>, actions: seq<Action>, i: nat)
    requires Run(ws, actions) && i < |ws|
    ensures StartsStayStarts(ws[i])
  {
    if i > 0 {
      StartsRun(ws, actions, i - 1);
      assert StepAt(ws, actions, i - 1);
      StartsStep(ws[i - 1], actions[i - 1]);
    }
  }

  /** The program points at which a start call writes the registry. */
  lemma StartWrites(w: World, p: Caller, o: Oracle)
    requires p in w.calls && StartPc(w.calls[p].pc) && Next(w, p, o).shared.registry != w.shared.registry
    ensures OwnerAbsent(w.calls[p].pc) || HoldsOwner(w.calls[p].pc)
  {
  }

  /**
   * While one call holds the startup-owner lock, no other start call changes
   * the ownership record.
   */
  lemma StartupOwnership(ws: seq<World>, actions: seq<Action>, i: nat, p: Caller, o: Oracle, q: Caller)
    requires Run(ws, actions) && i < |actions| && actions[i] == Step(p, o)
    requires p in ws[i].calls && ws[i].calls[p].kind == Start
    requires ws[i].ownerExclusive == Some(q) && q != p
    ensures ws[i + 1].shared.registry == ws[i].shared.registry
  {
    InvRun(ws, actions, i);
    StartsRun(ws, actions, i);
    assert StepAt(ws, actions, i);
    if ws[i + 1].shared.registry != ws[i].shared.registry { StartWrites(ws[i], p, o); }
  }

  lemma ProbesAreUnderTheLock(w: World)
    requires Locks(w)
    ensures forall q :: q in w.ownerShared ==> w.lifecycle == Some(q)
  {
    forall q | q in w.ownerShared ensures w.lifecycle == Some(q) {
      assert HoldsProbe(w.calls[q].pc);
    }
  }

  /** The exclusive acquisition in `reserve_new` always finds the lock free. */
  lemma ClaimIsNeverBlocked(ws: seq<World>, actions: seq<Action>, i: nat, p: Caller, o: Oracle)
    requires Run(ws, actions) && i < |ws| && p in ws[i].calls && ws[i].calls[p].pc == Claiming
    ensures ws[i].ownerExclusive == None && ws[i].ownerShared == {}
    ensures !o.fails ==> Next(ws[i], p, o).pc == Spawning
  {
    InvRun(ws, actions, i);
    var w := ws[i];
    assert OwnerAbsent(w.calls[p].pc);
    ProbesAreUnderTheLock(w);
    assert p !in w.ownerShared && w.lifecycle == Some(p);
    assert forall q :: q !in w.ownerShared;
  }

  /** No start call ever has two live helpers, and none launches more than two. */
  lemma HelpersAreBounded(ws: seq<World>, actions: seq<Action>, i: nat, p: Caller)
    requires Run(ws, actions) && i < |ws| && p in ws[i].calls
    ensures ws[i].calls[p].launches <= MAXIMUM_LAUNCH_ATTEMPTS
    ensures forall x: Proc, y: Proc :: LiveKid(ws[i].shared, p, x) && LiveKid(ws[i].shared, p, y) ==> x == y
  {
    InvRun(ws, actions, i);
    assert Helpers(ws[i].shared, p, ws[i].calls[p]);
  }

  // ------------------------------------------------------------------ success

  lemma ReadyWaiting(w: World, p: Caller, o: Oracle)
    requires p in w.calls && !HoldsLifecycle(w.calls[p].pc) && !w.calls[p].pc.Done? && Next(w, p, o).pc == Done(true)
    ensures Inspect(w.shared, o) == IsActive && Next(w, p, o).shared == w.shared
  {
  }

  lemma ReadyOwner(w: World, p: Caller, o: Oracle)
    requires p in w.calls && HoldsLifecycle(w.calls[p].pc) && HoldsOwner(w.calls[p].pc) && Next(w, p, o).pc == Done(true)
    ensures Inspect(w.shared, o) == IsActive && Next(w, p, o).shared == w.shared
  {
  }

  lemma ReadyLocked(w: World, p: Caller, o: Oracle)
    requires p in w.calls && HoldsLifecycle(w.calls[p].pc) && !HoldsOwner(w.calls[p].pc) && Next(w, p, o).pc == Done(true)
    ensures Inspect(w.shared, o) == IsActive && Next(w, p, o).shared == w.shared
  {
  }

  /**
   * A call reports an active agent only from an inspection of its own that
   * finds the record active, a process of the recorded generation, and the
   * recorded socket; whatever it did before to get there.
   */
  lemma SuccessIsInspected(ws: seq<World>, actions: seq<Action>, i: nat, p: Caller)
    requires Run(ws, actions) && i < |actions| && p in ws[i].calls && !ws[i].calls[p].pc.Done?
    requires p in ws[i + 1].calls && ws[i + 1].calls[p].pc == Done(true)
    ensures actions[i].Step? && actions[i].p == p && ws[i].shared.registry.Some? && ws[i + 1].shared == ws[i].shared
    ensures var r, s := ws[i].shared.registry.value, ws[i].shared;
            r.state == Active && Matches(s, r) && SocketOf(r).Some? && actions[i].o.seen == SocketOf(r)
  {
    assert StepAt(ws, actions, i);
    var w, o := ws[i], actions[i].o;
    if !HoldsLifecycle(w.calls[p].pc) { ReadyWaiting(w, p, o); }
    else if HoldsOwner(w.calls[p].pc) { ReadyOwner(w, p, o); }
    else { ReadyLocked(w, p, o); }
  }

  // ----------------------------------------------------------- registry graph

  /** In every run the record is well formed and moves only along the allowed edges. */
  lemma RegistryGraph(ws: seq<World>, actions: seq<Action>, i: nat)
    requires Run(ws, actions) && i < |actions|
    ensures Edge(ws[i].shared.registry, ws[i + 1].shared.registry)
    ensures ws[i + 1].shared.registry.Some? ==> Valid(ws[i + 1].shared.registry.value, ws[i + 1].shared.spaceId)
  {
    InvRun(ws, actions, i);
    InvRun(ws, actions, i + 1);
    assert StepAt(ws, actions, i);
    InvStep(ws[i], actions[i]);
  }

  /**
   * Until the record is removed it never goes back to an earlier state, and
   * from activation on its owner, token and socket identity are fixed.
   */
  lemma RecordNeverRegresses(ws: seq<World>, actions: seq<Action>, i: nat, j: nat)
    requires Run(ws, actions) && i <= j < |ws|
    requires forall k :: i <= k <= j ==> ws[k].shared.registry.Some?
    ensures Later(ws[i].shared.registry.value, ws[j].shared.registry.value)
  {
    var history := seq(|ws|, k requires 0 <= k < |ws| => ws[k].shared.registry);
    forall k | i <= k < j ensures Edge(history[k], history[k + 1]) { RegistryGraph(ws, actions, k); }
    EdgesNeverRegress(history, i, j);
  }

  // ------------------------------------------------------ evidence over a run

  /** A verification is under way. */
  predicate Checking(pc: Pc) {
    pc.ActivationCheck? || pc.OrphanCheck? || pc.StopVerify?
  }

  /** A verification has just passed, and the call is about to act on it. */
  predicate Checked(pc: Pc) {
    pc.Committing? || pc.OrphanCommit? || pc.StopSignal?
  }

  /** How many of its four system calls a verification has behind it. */
  function Level(pc: Pc): nat {
    if Checked(pc) then 4
    else if !Checking(pc) then 0
    else match pc.check case ToStat => 0 case ToConnect(_) => 1 case ToAnswer(_, _) => 2 case ToRestat(_, _) => 3
  }

  function ExpectedPid(pc: Pc): nat
    requires Checking(pc) || Checked(pc)
  {
    if pc.StopVerify? || pc.StopSignal? then pc.record.pid else pc.starting.pid
  }

  /** The identity the path had at the first stat. */
  function FirstSeen(pc: Pc): Option<SocketId>
    requires Level(pc) > 0
  {
    if pc.StopSignal? then SocketOf(pc.record)
    else if Checked(pc) then Some(pc.verified)
    else Some(pc.check.before)
  }

  /** The socket the connection was made to, once it was. */
  function PeerSocket(pc: Pc): Socket
    requires Level(pc) > 0
  {
    if Checked(pc) then pc.via else if pc.check.ToConnect? then Socket(pc.check.before, 0) else pc.check.via
  }

  ghost predicate Sighted(w: World, id: SocketId) {
    w.shared.socket.Some? && w.shared.socket.value.id == id
  }

  /** The states before the stat, the connect, the answer and the second stat. */
  datatype Times = Times(stat: nat, connect: nat, answer: nat, restat: nat)

  ghost predicate CheckingAt(w: World, p: Caller) {
    w.lifecycle == Some(p) && p in w.calls && Checking(w.calls[p].pc)
  }

  ghost predicate AnswersAt(ws: seq<World>, actions: seq<Action>, j: nat, p: Caller, via: Socket) {
    j < |actions| < |ws| && actions[j].Step? && actions[j].p == p && actions[j].o.answers && HasLife(ws[j].shared, via.listener, Live)
  }

  /**
   * The history of a verification that call `p` has carried up to `level` by
   * state `i`, in one critical section: the path named `id`, then it named
   * `via`, whose listener was alive with the expected PID, then that process
   * answered, then the path named `id` again.
   */
  ghost predicate Trail(ws: seq<World>, actions: seq<Action>, i: nat, p: Caller, level: nat, id: SocketId, via: Socket, pid: nat, t: Times) {
    && i < |ws| == |actions| + 1 && ws[i].lifecycle == Some(p) && (level > 3 ==> t.restat < i)
    && (level > 0 ==> t.stat < i && Sighted(ws[t.stat], id) && forall k :: t.stat <= k < i ==> ws[k].lifecycle == Some(p))
    && (level > 0 ==> forall k :: t.stat <= k < (if level > 3 then t.restat + 1 else i) ==> CheckingAt(ws[k], p))
    && (level > 1 ==> t.stat < t.connect < i && ws[t.connect].shared.socket == Some(via) && Listens(ws[t.connect].shared, pid))
    && (level > 2 ==> t.connect < t.answer < i && AnswersAt(ws, actions, t.answer, p, via))
    && (level > 3 ==> t.answer < t.restat && Sighted(ws[t.restat], id))
  }

  /** What one system call of a verification adds. */
  ghost predicate Adds(w: World, p: Caller, o: Oracle, pc: Pc, pc': Pc) {
    && Checking(pc) && Level(pc') == Level(pc) + 1 && ExpectedPid(pc') == ExpectedPid(pc)
    && FirstSeen(pc').Some? && (Level(pc) > 0 ==> FirstSeen(pc') == FirstSeen(pc))
    && (Level(pc) > 1 ==> PeerSocket(pc') == PeerSocket(pc))
    && (Level(pc) == 0 || Level(pc) == 3 ==> Sighted(w, FirstSeen(pc').value))
    && (Level(pc) == 1 ==> w.shared.socket == Some(PeerSocket(pc')) && Listens(w.shared, ExpectedPid(pc)))
    && (Level(pc) == 2 ==> o.answers && HasLife(w.shared, PeerSocket(pc').listener, Live))
  }

  lemma CheckAdds(w: World, p: Caller, o: Oracle)
    requires p in w.calls && Checking(w.calls[p].pc) && Level(Next(w, p, o).pc) > 0
    ensures Adds(w, p, o, w.calls[p].pc, Next(w, p, o).pc)
  {
  }

  lemma ChecksStartOwner(w: World, p: Caller, o: Oracle)
    requires p in w.calls && HoldsOwner(w.calls[p].pc) && !Checking(w.calls[p].pc)
    ensures Level(Next(w, p, o).pc) == 0
  {
  }

  lemma ChecksStartLocked(w: World, p: Caller, o: Oracle)
    requires p in w.calls && !HoldsOwner(w.calls[p].pc) && HoldsLifecycle(w.calls[p].pc) && !Checking(w.calls[p].pc)
    ensures Level(Next(w, p, o).pc) == 0
  {
  }

  lemma ChecksStartWaiting(w: World, p: Caller, o: Oracle)
    requires p in w.calls && !HoldsOwner(w.calls[p].pc) && !HoldsLifecycle(w.calls[p].pc)
    ensures Level(Next(w, p, o).pc) == 0
  {
  }

  /** Only a verification that is under way gets anywhere. */
  lemma ChecksStart(w: World, p: Caller, o: Oracle)
    requires p in w.calls && !Checking(w.calls[p].pc)
    ensures Level(Next(w, p, o).pc) == 0
  {
    if HoldsOwner(w.calls[p].pc) { ChecksStartOwner(w, p, o); }
    else if HoldsLifecycle(w.calls[p].pc) { ChecksStartLocked(w, p, o); }
    else { ChecksStartWaiting(w, p, o); }
  }

  /** A verification that has got somewhere was advanced by its own call, or left alone. */
  lemma CheckStep(w: World, a: Action, p: Caller)
    requires Enabled(w, a) && p in Apply(w, a).calls && Level(Apply(w, a).calls[p].pc) > 0
    ensures p in w.calls
    ensures var pc, pc' := w.calls[p].pc, Apply(w, a).calls[p].pc;
            if a.Step? && a.p == p then Adds(w, p, a.o, pc, pc') else pc == pc'
  {
    if a.Step? && a.p == p {
      if Checking(w.calls[p].pc) { CheckAdds(w, p, a.o); } else { ChecksStart(w, p, a.o); }
    }
  }

  lemma ChecksAreUnderTheLock(ws: seq<World>, actions: seq<Action>, i: nat, p: Caller)
    requires Run(ws, actions) && i < |ws| && p in ws[i].calls && (Checking(ws[i].calls[p].pc) || Checked(ws[i].calls[p].pc))
    ensures ws[i].lifecycle == Some(p) && i > 0
  {
    InvRun(ws, actions, i);
  }

  /** Going back one state. */
  lemma CheckBack(ws: seq<World>, actions: seq<Action>, i: nat, p: Caller)
    requires Run(ws, actions) && i < |ws| && p in ws[i].calls && Level(ws[i].calls[p].pc) > 0
    ensures ws[i].lifecycle == Some(p)
    ensures i > 0 && p in ws[i - 1].calls && ws[i - 1].lifecycle == Some(p)
    ensures var pc, pc' := ws[i - 1].calls[p].pc, ws[i].calls[p].pc;
            if actions[i - 1].Step? && actions[i - 1].p == p then Adds(ws[i - 1], p, actions[i - 1].o, pc, pc') else pc == pc'
  {
    ChecksAreUnderTheLock(ws, actions, i, p);
    assert StepAt(ws, actions, i - 1);
    CheckStep(ws[i - 1], actions[i - 1], p);
    ChecksAreUnderTheLock(ws, actions, i - 1, p);
  }

  /** Every verification has its history. */
  lemma {:induction false} TrailOf(ws: seq<World>, actions: seq<Action>, i: nat, p: Caller) returns (t: Times)
    requires Run(ws, actions) && i < |ws| && p in ws[i].calls && Level(ws[i].calls[p].pc) > 0
    ensures var pc := ws[i].calls[p].pc;
            FirstSeen(pc).Some? && Trail(ws, actions, i, p, Level(pc), FirstSeen(pc).value, PeerSocket(pc), ExpectedPid(pc), t)
  {
    CheckBack(ws, actions, i, p);
    var pc, pc' := ws[i - 1].calls[p].pc, ws[i].calls[p].pc;
    t := Times(i - 1, 0, 0, 0);
    if Level(pc) > 0 {
      t := TrailOf(ws, actions, i - 1, p);
      if actions[i - 1].Step? && actions[i - 1].p == p {
        t := match Level(pc) case 1 => t.(connect := i - 1) case 2 => t.(answer := i - 1) case _ => t.(restat := i - 1);
      }
    }
  }

  // -------------------------------------------------------- verified activation

  /** The record a step leaves behind is the one it found, or not an active one. */
  ghost predicate DoesNotActivate(w: World, p: Caller, o: Oracle)
    requires p in w.calls
  {
    var after := Next(w, p, o).shared.registry;
    after == w.shared.registry || after.None? || after.value.state != Active
  }

  lemma OwnersDoNotActivate(w: World, p: Caller, o: Oracle)
    requires p in w.calls && HoldsOwner(w.calls[p].pc) && !w.calls[p].pc.Committing?
    ensures DoesNotActivate(w, p, o)
  {
  }

  lemma OthersDoNotActivate(w: World, p: Caller, o: Oracle)
    requires p in w.calls && !HoldsOwner(w.calls[p].pc) && !w.calls[p].pc.OrphanCommit?
    ensures DoesNotActivate(w, p, o)
  {
  }

  lemma ActivatingPoint(w: World, p: Caller, o: Oracle)
    requires p in w.calls && w.shared.registry != Next(w, p, o).shared.registry
    requires var after := Next(w, p, o).shared.registry; after.Some? && after.value.state == Active
    ensures w.calls[p].pc.Committing? || w.calls[p].pc.OrphanCommit?
    ensures Next(w, p, o).shared.registry == Some(Activated(w.calls[p].pc.starting, w.calls[p].pc.verified))
  {
    if HoldsOwner(w.calls[p].pc) {
      if !w.calls[p].pc.Committing? { OwnersDoNotActivate(w, p, o); }
    } else if !w.calls[p].pc.OrphanCommit? {
      OthersDoNotActivate(w, p, o);
    }
  }

  /**
   * By state `i` call `p` has verified identity `id` for `pid`, in a critical
   * section it has not left since: the path named `id` before and after a
   * process with that PID, reached through `via`, answered.
   */
  ghost predicate Verified(ws: seq<World>, actions: seq<Action>, i: nat, p: Caller, id: SocketId, via: Socket, pid: nat, t: Times) {
    Trail(ws, actions, i, p, 4, id, via, pid, t)
  }

  /** Every activation is justified by a verification in the very critical section that publishes the record. */
  lemma ActivationIsVerified(ws: seq<World>, actions: seq<Action>, i: nat)
    requires Run(ws, actions) && i < |actions|
    requires ws[i + 1].shared.registry.Some? && ws[i + 1].shared.registry.value.state == Active
    requires ws[i + 1].shared.registry != ws[i].shared.registry
    ensures var r := ws[i + 1].shared.registry.value;
            SocketOf(r).Some? && exists p, via, t :: Verified(ws, actions, i, p, SocketOf(r).value, via, r.pid, t)
  {
    InvRun(ws, actions, i);
    RegistryGraph(ws, actions, i);
    assert StepAt(ws, actions, i);
    var w, p, o := ws[i], actions[i].p, actions[i].o;
    ActivatingPoint(w, p, o);
    var t := TrailOf(ws, actions, i, p);
    assert Verified(ws, actions, i, p, w.calls[p].pc.verified, w.calls[p].pc.via, w.calls[p].pc.starting.pid, t);
  }

  // ---------------------------------------------------- a path that is swapped
  //
  // The two stats compare the path with itself, not with the connection, so
  // something outside Quarters can put another socket there in between.

  lemma PathStaysUnlocked(w: World, q: Caller, o: Oracle)
    requires q in w.calls && !HoldsLifecycle(w.calls[q].pc)
    ensures Next(w, q, o).shared.socket == w.shared.socket
  {
  }

  lemma PathStaysChecking(w: World, p: Caller, o: Oracle)
    requires p in w.calls && Checking(w.calls[p].pc)
    ensures Next(w, p, o).shared.socket == w.shared.socket
  {
  }

  /** During a verification only an outside hand changes what the path names. */
  lemma OnlyOutsidersMoveThePath(w: World, a: Action, p: Caller)
    requires Inv(w) && Enabled(w, a) && CheckingAt(w, p) && !a.Rebind?
    ensures Apply(w, a).shared.socket == w.shared.socket
  {
    if a.Step? {
      if a.p == p { PathStaysChecking(w, p, a.o); } else { PathStaysUnlocked(w, a.p, a.o); }
    }
  }

  lemma PathStaysAt(ws: seq<World>, actions: seq<Action>, k: nat, p: Caller)
    requires Run(ws, actions) && k < |actions| && CheckingAt(ws[k], p) && !actions[k].Rebind?
    ensures ws[k + 1].shared.socket == ws[k].shared.socket
  {
    InvRun(ws, actions, k);
    assert StepAt(ws, actions, k);
    OnlyOutsidersMoveThePath(ws[k], actions[k], p);
  }

  /** Between rebindings the path keeps naming the same socket. */
  lemma {:induction false} PathIsConstant(ws: seq<World>, actions: seq<Action>, j: nat, m: nat, p: Caller)
    requires Run(ws, actions) && j <= m < |ws|
    requires forall k :: j <= k < m ==> CheckingAt(ws[k], p) && !actions[k].Rebind?
    ensures ws[m].shared.socket == ws[j].shared.socket
    decreases m - j
  {
    if j < m {
      PathIsConstant(ws, actions, j, m - 1, p);
      PathStaysAt(ws, actions, m - 1, p);
    }
  }

  /** Step `k` is the last rebinding before step `m`, and comes no earlier than `j`. */
  ghost predicate LastRebind(actions: seq<Action>, j: nat, m: nat, k: nat) {
    j <= k < m <= |actions| && actions[k].Rebind? && forall n :: k < n < m ==> !actions[n].Rebind?
  }

  predicate PutsAtPath(a: Action, id: SocketId) {
    a.Rebind? && a.socket.Some? && a.socket.value.id == id
  }

  lemma {:induction false} ThereIsALastRebind(actions: seq<Action>, j: nat, m: nat) returns (k: nat)
    requires j <= m <= |actions| && exists n :: j <= n < m && actions[n].Rebind?
    ensures LastRebind(actions, j, m, k)
    decreases m - j
  {
    if actions[m - 1].Rebind? { k := m - 1; } else { k := ThereIsALastRebind(actions, j, m - 1); }
  }

  /** What the path names at `m` is what the last rebinding put there, or else what it named at `j`. */
  lemma PathIsWhatWasPutThere(ws: seq<World>, actions: seq<Action>, j: nat, m: nat, p: Caller, id: SocketId)
    requires Run(ws, actions) && j <= m < |ws| && Sighted(ws[j], id) && forall k :: j <= k < m ==> CheckingAt(ws[k], p)
    ensures Sighted(ws[m], id) <==> forall k: nat :: LastRebind(actions, j, m, k) ==> PutsAtPath(actions[k], id)
  {
    if exists n :: j <= n < m && actions[n].Rebind? {
      var k := ThereIsALastRebind(actions, j, m);
      assert StepAt(ws, actions, k);
      PathIsConstant(ws, actions, k + 1, m, p);
      assert Sighted(ws[m], id) <==> PutsAtPath(actions[k], id);
      assert forall l: nat :: LastRebind(actions, j, m, l) ==> l == k;
    } else {
      PathIsConstant(ws, actions, j, m, p);
    }
  }

  lemma {:induction false} SomebodyPutItThere(ws: seq<World>, actions: seq<Action>, j: nat, m: nat, p: Caller, id: SocketId)
    returns (k: nat)
    requires Run(ws, actions) && j <= m < |ws| && !Sighted(ws[j], id) && Sighted(ws[m], id)
    requires forall k :: j <= k < m ==> CheckingAt(ws[k], p)
    ensures j <= k < m && PutsAtPath(actions[k], id)
    decreases m - j
  {
    if Sighted(ws[m - 1], id) {
      k := SomebodyPutItThere(ws, actions, j, m - 1, p, id);
    } else {
      k := m - 1;
      assert StepAt(ws, actions, k);
      if !actions[k].Rebind? { PathStaysAt(ws, actions, k, p); }
    }
  }

  /** After the connect an outside hand put `id` back at the path. */
  ghost predicate PutBack(actions: seq<Action>, k: nat, id: SocketId, t: Times) {
    t.connect <= k < t.restat <= |actions| && PutsAtPath(actions[k], id)
  }

  /**
   * The socket that answered is the recorded one if and only if the last
   * rebinding between the first stat and the connect, if there was one, put
   * the recorded socket at the path. Otherwise an outside hand also put it
   * back before the second stat.
   */
  lemma AnsweringSocketIsTheRecordedOne(ws: seq<World>, actions: seq<Action>, i: nat, p: Caller, id: SocketId, via: Socket, pid: nat, t: Times)
    requires Run(ws, actions) && Verified(ws, actions, i, p, id, via, pid, t)
    ensures via.id == id <==> forall k: nat :: LastRebind(actions, t.stat, t.connect, k) ==> PutsAtPath(actions[k], id)
    ensures via.id != id ==> exists k: nat :: PutBack(actions, k, id, t)
  {
    PathIsWhatWasPutThere(ws, actions, t.stat, t.connect, p, id);
    if via.id != id {
      var k := SomebodyPutItThere(ws, actions, t.connect, t.restat, p, id);
      assert PutBack(actions, k, id, t);
    }
  }

  // ------------------------------------------------------------------ signals

  lemma OwnersDoNotShutDown(w: World, p: Caller, o: Oracle)
    requires p in w.calls && HoldsOwner(w.calls[p].pc)
    ensures Next(w, p, o).shared.shutdowns == w.shared.shutdowns
  {
  }

  lemma OthersDoNotShutDown(w: World, p: Caller, o: Oracle)
    requires p in w.calls && !HoldsOwner(w.calls[p].pc) && !w.calls[p].pc.StopSignal?
    ensures Next(w, p, o).shared.shutdowns == w.shared.shutdowns
  {
  }

  lemma SignalPoint(w: World, p: Caller, o: Oracle, sender: Caller, target: Proc)
    requires p in w.calls && (sender, target) in Next(w, p, o).shared.shutdowns && (sender, target) !in w.shared.shutdowns
    ensures sender == p && w.calls[p].pc.StopSignal? && w.calls[p].pc.handle == target && HasLife(w.shared, target, Live)
  {
    if HoldsOwner(w.calls[p].pc) { OwnersDoNotShutDown(w, p, o); }
    else if !w.calls[p].pc.StopSignal? { OthersDoNotShutDown(w, p, o); }
  }

  /**
   * Whatever PIDs are reused meanwhile, a shutdown signal is delivered only to
   * the process that answered under the recorded PID, between two sightings of
   * the recorded socket, in the critical section that sends the signal.
   */
  lemma ShutdownReachesOnlyThePeer(ws: seq<World>, actions: seq<Action>, i: nat, sender: Caller, target: Proc)
    requires Run(ws, actions) && i < |actions|
    requires (sender, target) in ws[i + 1].shared.shutdowns && (sender, target) !in ws[i].shared.shutdowns
    ensures ws[i].shared.registry.Some? && ws[i].shared.registry.value.state == Stopping
    ensures var r := ws[i].shared.registry.value;
            SocketOf(r).Some?
            && exists via, t :: Verified(ws, actions, i, sender, SocketOf(r).value, via, r.pid, t) && via.listener == target
  {
    InvRun(ws, actions, i);
    assert StepAt(ws, actions, i);
    var w, p, o := ws[i], actions[i].p, actions[i].o;
    SignalPoint(w, p, o, sender, target);
    var pc := w.calls[p].pc;
    assert Evidence(w.shared, pc);
    var t := TrailOf(ws, actions, i, p);
    assert Verified(ws, actions, i, p, SocketOf(pc.record).value, pc.via, pc.record.pid, t) && pc.via.listener == target;
  }

  /** Recovery has judged the recorded process gone. */
  ghost predicate Silenced(w: World, p: Caller) {
    p in w.calls && (w.calls[p].pc.RecoverRemove? || w.calls[p].pc.Done?)
  }

  lemma SilencedStep(w: World, a: Action, p: Caller, target: Proc)
    requires Enabled(w, a) && Silenced(w, p)
    ensures Silenced(Apply(w, a), p)
    ensures (p, target) in Apply(w, a).shared.shutdowns ==> (p, target) in w.shared.shutdowns
  {
    if a.Step? && (p, target) in Apply(w, a).shared.shutdowns && (p, target) !in w.shared.shutdowns {
      SignalPoint(w, a.p, a.o, p, target);
    }
  }

  lemma {:induction false} SilencedRun(ws: seq<World>, actions: seq<Action>, i: nat, j: nat, p: Caller, target: Proc)
    requires Run(ws, actions) && i <= j < |ws| && Silenced(ws[i], p)
    ensures Silenced(ws[j], p)
    ensures (p, target) in ws[j].shared.shutdowns ==> (p, target) in ws[i].shared.shutdowns
  {
    if i < j {
      SilencedRun(ws, actions, i, j - 1, p, target);
      assert StepAt(ws, actions, j - 1);
      SilencedStep(ws[j - 1], actions[j - 1], p, target);
    }
  }

  /**
   * Once recovery finds that no process of the recorded generation exists, it
   * signals nobody for the rest of the run, whoever has the PID by then.
   */
  lemma StaleRecoverySignalsNobody(ws: seq<World>, actions: seq<Action>, i: nat, j: nat, p: Caller, o: Oracle, target: Proc)
    requires Run(ws, actions) && i < j < |ws| && actions[i] == Step(p, o)
    requires p in ws[i].calls && ws[i].calls[p].pc == RecoverInactive
    requires ws[i].shared.registry.Some? && !Matches(ws[i].shared, ws[i].shared.registry.value)
    ensures (p, target) in ws[j].shared.shutdowns ==> (p, target) in ws[i].shared.shutdowns
  {
    assert StepAt(ws, actions, i);
    SilencedRun(ws, actions, i + 1, j, p, target);
  }
}
