/**
 * The launcher clean-up of a start call. It signals by PID, so it is safe only
 * while the launcher is unreaped and its PID cannot be handed out again. This
 * module says exactly when that is, at both places that send the signal.
 */
module AgentCleanup {
  import opened Base
  import opened AgentRegistry
  import opened AgentProtocol
  import opened AgentSafety

  /** The call has given up on the helper it still remembers. */
  predicate GivenUp(pc: Pc) {
    pc.WantAbort? || pc.Aborting? || pc.WantCleanup? || pc.Cleaning? || pc.WantFail? || pc.Failing?
  }

  /** In step `k` the call's poll found that `child`, its last launch, had exited, and so reaped it. */
  ghost predicate SawExit(ws: seq<World>, actions: seq<Action>, k: nat, p: Caller, child: Proc) {
    && k < |actions| < |ws| && actions[k].Step? && actions[k].p == p && p in ws[k].calls && p in ws[k + 1].calls
    && ws[k].calls[p].pc.Waiting? && ws[k].calls[p].pc.child == child
    && ws[k + 1].calls[p].pc.WantFail? && ws[k + 1].calls[p].pc.spawned == Some(child)
    && ws[k + 1].calls[p].pc.why == LaunchExited
  }

  // --------------------------------------------------------- who reaps a helper

  /** The poll that ends in `LaunchExited` is the one that reaps. */
  predicate ReapsNow(pc: Pc, pc': Pc, child: Proc) {
    pc.Waiting? && pc.child == child && pc'.WantFail? && pc'.spawned == Some(child) && pc'.why == LaunchExited
  }

  /** How a call can come to remember a helper that is reaped. */
  ghost predicate ReapedHow(s: Shared, pc: Pc, pc': Pc, child: Proc) {
    ChildOf(pc) == Some(child)
    && (ReapsNow(pc, pc', child) || (!Present(s, child) && (GivenUp(pc) ==> GivenUp(pc'))))
  }

  lemma ReapedLaunching(w: World, p: Caller, o: Oracle, child: Proc)
    requires Enabled(w, Step(p, o)) && (w.calls[p].pc.Spawning? || w.calls[p].pc.Retrying?)
    requires ChildOf(Next(w, p, o).pc) == Some(child)
    ensures Present(Next(w, p, o).shared, child)
  {
  }

  lemma ReapedPolling(w: World, p: Caller, o: Oracle, child: Proc)
    requires p in w.calls && (w.calls[p].pc.Waiting? || w.calls[p].pc.RetryRecording?)
    requires ChildOf(Next(w, p, o).pc) == Some(child) && !Present(Next(w, p, o).shared, child)
    ensures ReapedHow(w.shared, w.calls[p].pc, Next(w, p, o).pc, child)
  {
  }

  lemma ReapedOwning(w: World, p: Caller, o: Oracle, child: Proc)
    requires p in w.calls && HoldsOwner(w.calls[p].pc)
    requires !w.calls[p].pc.Spawning? && !w.calls[p].pc.Retrying? && !w.calls[p].pc.Waiting? && !w.calls[p].pc.RetryRecording?
    requires ChildOf(Next(w, p, o).pc) == Some(child) && !Present(Next(w, p, o).shared, child)
    ensures ReapedHow(w.shared, w.calls[p].pc, Next(w, p, o).pc, child)
  {
  }

  lemma ReapedByOwnStep(w: World, p: Caller, o: Oracle, child: Proc)
    requires Enabled(w, Step(p, o))
    requires ChildOf(Next(w, p, o).pc) == Some(child) && !Present(Next(w, p, o).shared, child)
    ensures ReapedHow(w.shared, w.calls[p].pc, Next(w, p, o).pc, child)
  {
    var pc := w.calls[p].pc;
    if pc.Spawning? || pc.Retrying? { ReapedLaunching(w, p, o, child); }
    else if pc.Waiting? || pc.RetryRecording? { ReapedPolling(w, p, o, child); }
    else if HoldsOwner(pc) { ReapedOwning(w, p, o, child); }
    else if !pc.Done? { HelpersBefore(w, p, o); }
  }

  /** Nobody else reaps it: not another call, and not the system while its parent runs. */
  lemma NotReapedByOthers(w: World, a: Action, p: Caller, child: Proc)
    requires Inv(w) && Enabled(w, a) && p in w.calls && ChildOf(w.calls[p].pc) == Some(child) && Present(w.shared, child)
    requires !(a.Step? && a.p == p)
    ensures Present(Apply(w, a).shared, child)
  {
    if a.Step? {
      assert HoldsOwner(w.calls[p].pc) && !HoldsOwner(w.calls[a.p].pc);
      ProcsSame(w, a.p, a.o);
    } else if a.Reap? {
      assert Helpers(w.shared, p, w.calls[p]);
    }
  }

  lemma ReapedStep(w: World, a: Action, p: Caller, child: Proc)
    requires Inv(w) && Enabled(w, a) && p in Apply(w, a).calls
    requires ChildOf(Apply(w, a).calls[p].pc) == Some(child) && !Present(Apply(w, a).shared, child)
    ensures p in w.calls && ReapedHow(w.shared, w.calls[p].pc, Apply(w, a).calls[p].pc, child)
    ensures ReapsNow(w.calls[p].pc, Apply(w, a).calls[p].pc, child) ==> a.Step? && a.p == p
  {
    if a.Step? && a.p == p { ReapedByOwnStep(w, p, a.o, child); }
    else if Present(w.shared, child) { NotReapedByOthers(w, a, p, child); }
  }

  /** If a call remembers a helper that is reaped, its own poll reaped it, and it has given up since. */
  lemma {:induction false} ReapedWasSeen(ws: seq<World>, actions: seq<Action>, i: nat, p: Caller, child: Proc) returns (k: nat)
    requires Run(ws, actions) && i < |ws| && p in ws[i].calls
    requires ChildOf(ws[i].calls[p].pc) == Some(child) && !Present(ws[i].shared, child)
    ensures GivenUp(ws[i].calls[p].pc) && k < i && SawExit(ws, actions, k, p, child)
  {
    assert i > 0;
    InvRun(ws, actions, i - 1);
    assert StepAt(ws, actions, i - 1);
    ReapedStep(ws[i - 1], actions[i - 1], p, child);
    if ReapsNow(ws[i - 1].calls[p].pc, ws[i].calls[p].pc, child) {
      k := i - 1;
    } else {
      k := ReapedWasSeen(ws, actions, i - 1, p, child);
    }
  }

  // ----------------------------------------------------------- reaped for good

  lemma SeenIsReaped(w: World, p: Caller, o: Oracle, child: Proc)
    requires p in w.calls && ReapsNow(w.calls[p].pc, Next(w, p, o).pc, child)
    ensures !Present(Next(w, p, o).shared, child) && (child in w.shared.procs ==> child in Next(w, p, o).shared.procs)
  {
  }

  lemma ReapedStays(w: World, a: Action, child: Proc)
    requires Enabled(w, a) && child in w.shared.procs && !Present(w.shared, child)
    ensures child in Apply(w, a).shared.procs && !Present(Apply(w, a).shared, child)
  {
    if a.Step? { ProcsNext(w, a.p, a.o); }
  }

  lemma {:induction false} ReapedForGood(ws: seq<World>, actions: seq<Action>, j: nat, i: nat, child: Proc)
    requires Run(ws, actions) && j <= i < |ws| && child in ws[j].shared.procs && !Present(ws[j].shared, child)
    ensures child in ws[i].shared.procs && !Present(ws[i].shared, child)
    decreases i - j
  {
    if j < i {
      ReapedForGood(ws, actions, j, i - 1, child);
      assert StepAt(ws, actions, i - 1);
      ReapedStays(ws[i - 1], actions[i - 1], child);
    }
  }

  // ------------------------------------------------------------------ theorems

  lemma ReachesOnlyThePresent(s: Shared, child: Proc)
    requires UniquePids(s) && Present(s, child)
    ensures Reached(s, child) <= {child}
  {
    forall x | x in Reached(s, child) ensures x == child { assert Present(s, x); }
  }

  /**
   * When a call comes to clean up, its helper is unreaped, and so the only
   * process the signal can reach, if and only if no poll of that call had
   * found the helper exited.
   */
  lemma CleanupIsSafeUnlessTheExitWasSeen(ws: seq<World>, actions: seq<Action>, i: nat, p: Caller)
    requires Run(ws, actions) && i < |ws| && p in ws[i].calls && ws[i].calls[p].pc.Cleaning?
    ensures var s, child := ws[i].shared, ws[i].calls[p].pc.child;
            && (Present(s, child) <==> forall k: nat :: k < i ==> !SawExit(ws, actions, k, p, child))
            && (Present(s, child) ==> Reached(s, child) <= {child})
  {
    InvRun(ws, actions, i);
    var s, child := ws[i].shared, ws[i].calls[p].pc.child;
    if Present(s, child) {
      ReachesOnlyThePresent(s, child);
      forall k: nat | k < i ensures !SawExit(ws, actions, k, p, child) {
        if SawExit(ws, actions, k, p, child) { SeenThenReaped(ws, actions, k, i, p, child); }
      }
    } else {
      var k := ReapedWasSeen(ws, actions, i, p, child);
    }
  }

  lemma SeenThenReaped(ws: seq<World>, actions: seq<Action>, k: nat, i: nat, p: Caller, child: Proc)
    requires Run(ws, actions) && k < i < |ws| && SawExit(ws, actions, k, p, child)
    ensures !Present(ws[i].shared, child)
  {
    InvRun(ws, actions, k);
    assert StepAt(ws, actions, k);
    assert Helpers(ws[k].shared, p, ws[k].calls[p]) && ChildOf(ws[k].calls[p].pc) == Some(child);
    SeenIsReaped(ws[k], p, actions[k].o, child);
    ReapedForGood(ws, actions, k + 1, i, child);
  }

  lemma OwnersSignalOnlyThere(w: World, q: Caller, o: Oracle)
    requires q in w.calls && HoldsOwner(w.calls[q].pc) && !w.calls[q].pc.Cleaning? && !w.calls[q].pc.RetryRecording?
    ensures Next(w, q, o).shared.cleanups == w.shared.cleanups
  {
  }

  lemma OthersDoNotSignal(w: World, q: Caller, o: Oracle)
    requires q in w.calls && !HoldsOwner(w.calls[q].pc)
    ensures Next(w, q, o).shared.cleanups == w.shared.cleanups
  {
  }

  /** Where clean-up signals are sent, and to whom. */
  lemma CleanupPoint(w: World, q: Caller, o: Oracle, p: Caller, x: Proc)
    requires q in w.calls && (p, x) in Next(w, q, o).shared.cleanups && (p, x) !in w.shared.cleanups
    ensures q == p && (w.calls[p].pc.Cleaning? || w.calls[p].pc.RetryRecording?) && x in Reached(w.shared, w.calls[p].pc.child)
  {
    if !HoldsOwner(w.calls[q].pc) { OthersDoNotSignal(w, q, o); }
    else if !w.calls[q].pc.Cleaning? && !w.calls[q].pc.RetryRecording? { OwnersSignalOnlyThere(w, q, o); }
  }

  /**
   * Every clean-up signal of every run, from either place: it reaches the
   * call's own helper, unless it is sent by the final clean-up after a poll of
   * that call had found the helper exited. The retry's clean-up is always safe.
   */
  lemma CleanupReachesItsOwnHelper(ws: seq<World>, actions: seq<Action>, i: nat, p: Caller, x: Proc)
    requires Run(ws, actions) && i < |actions|
    requires (p, x) in ws[i + 1].shared.cleanups && (p, x) !in ws[i].shared.cleanups
    ensures p in ws[i].calls && (ws[i].calls[p].pc.Cleaning? || ws[i].calls[p].pc.RetryRecording?)
    ensures var pc := ws[i].calls[p].pc;
            x == pc.child || (pc.Cleaning? && exists k: nat :: k < i && SawExit(ws, actions, k, p, pc.child))
  {
    InvRun(ws, actions, i);
    assert StepAt(ws, actions, i);
    CleanupPoint(ws[i], actions[i].p, actions[i].o, p, x);
    var s, child := ws[i].shared, ws[i].calls[p].pc.child;
    if Present(s, child) {
      ReachesOnlyThePresent(s, child);
    } else {
      var k := ReapedWasSeen(ws, actions, i, p, child);
    }
  }

  /** Nothing is wrong, and no helper is launched. */
  function Quiet(): Oracle {
    Oracle(false, false, None, false, false, false, Healthy, 0, 0, 0, seq(16, _ => 0), 0)
  }

  /** No process that is there has this PID. */
  ghost predicate FreePid(s: Shared, pid: nat) {
    forall x :: Present(s, x) ==> s.procs[x].pid != pid
  }

  ghost predicate AboutToClean(w: World, p: Caller, child: Proc) {
    p in w.calls && w.calls[p].pc == WantCleanup(child) && w.lifecycle.None? && child in w.shared.procs
  }

  lemma CleaningSignals(w: World, p: Caller, child: Proc, x: Proc)
    requires AboutToClean(w, p, child) && x in Reached(w.shared, child)
    ensures var w' := Apply(w, Step(p, Quiet()));
            Enabled(w', Step(p, Quiet())) && (p, x) in Apply(w', Step(p, Quiet())).shared.cleanups
  {
    var w' := Apply(w, Step(p, Quiet()));
    assert w'.calls[p].pc == Cleaning(child) && w'.shared == w.shared;
  }

  /**
   * The other half: wherever a call is about to clean up a reaped helper whose
   * PID is free, a process may be given that PID, and the clean-up reaches it.
   */
  lemma ReapedCleanupIsUnsafe(ws: seq<World>, actions: seq<Action>, i: nat, p: Caller, child: Proc, stranger: Proc)
    requires Run(ws, actions) && i < |ws| && AboutToClean(ws[i], p, child) && !Present(ws[i].shared, child)
    requires FreePid(ws[i].shared, ws[i].shared.procs[child].pid) && stranger !in ws[i].shared.procs
    ensures var a := Foreign(stranger, ws[i].shared.procs[child].pid, 1);
            && Enabled(ws[i], a) && Enabled(Apply(ws[i], a), Step(p, Quiet()))
            && var w := Apply(Apply(ws[i], a), Step(p, Quiet()));
               Enabled(w, Step(p, Quiet())) && (p, stranger) in Apply(w, Step(p, Quiet())).shared.cleanups && stranger != child
  {
    InvRun(ws, actions, i);
    var w, a := ws[i], Foreign(stranger, ws[i].shared.procs[child].pid, 1);
    assert Helpers(w.shared, p, w.calls[p]) && ChildOf(w.calls[p].pc) == Some(child);
    var w' := Apply(w, a);
    assert stranger in Reached(w'.shared, child);
    CleaningSignals(w', p, child, stranger);
  }
}
