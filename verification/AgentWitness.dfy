/**
 * Two runs from an empty world that show that the conditions stated elsewhere
 * can fail: one in which a start call's clean-up signal reaches a process it
 * never launched (see module AgentCleanup), and one in which the recorded
 * socket is not the one that answered (see module AgentTheorems).
 */
module AgentWitness {
  import opened Base
  import opened AgentRegistry
  import opened AgentProtocol

  ghost predicate RunTo(ws: seq<World>, actions: seq<Action>, w: World) {
    Run(ws, actions) && ws[|actions|] == w
  }

  ghost predicate Reachable(w: World) {
    exists ws: seq<World>, actions: seq<Action> :: RunTo(ws, actions, w)
  }

  lemma ReachInitial(w: World)
    requires Initial(w)
    ensures Reachable(w)
  {
    assert RunTo([w], [], w);
  }

  lemma ReachStep(w: World, a: Action)
    requires Reachable(w) && Enabled(w, a)
    ensures Reachable(Apply(w, a))
  {
    var ws: seq<World>, actions: seq<Action> :| RunTo(ws, actions, w);
    var ws', actions' := ws + [Apply(w, a)], actions + [a];
    forall i: nat | i < |actions'|
      ensures StepAt(ws', actions', i)
    {
      if i < |actions| { assert StepAt(ws, actions, i); }
    }
    assert RunTo(ws', actions', Apply(w, a));
  }

  /** A world with a single start call, which holds the locks its program counter says. */
  function Solo(s: Shared, pc: Pc, launches: nat): World {
    World(s, if HoldsLifecycle(pc) then Some(0) else None, if HoldsOwner(pc) then Some(0) else None,
          if HoldsProbe(pc) then {0} else {}, map[0 := Call(Start, pc, launches)])
  }

  /** The outside world's answer when nothing fails; the next helper is process `proc` with PID `pid`. */
  function Replies(proc: Proc, pid: nat): Oracle {
    Oracle(false, true, None, false, false, false, Healthy, proc, pid, 1, seq(16, _ => 0), 0)
  }

  const FINE := Replies(0, 0)
  const LATE := FINE.(fails := true)

  lemma Advance(s: Shared, pc: Pc, launches: nat, o: Oracle, s': Shared, pc': Pc)
    requires Reachable(Solo(s, pc, launches)) && |o.random| == 16 && !pc.Spawning? && !pc.Retrying?
    requires Next(Solo(s, pc, launches), 0, o) == Move(s', pc')
    ensures Reachable(Solo(s', pc', launches))
  {
    var w := Solo(s, pc, launches);
    ReachStep(w, Step(0, o));
    assert Apply(w, Step(0, o)) == Solo(s', pc', launches);
  }

  lemma Launch(s: Shared, pc: Pc, launches: nat, o: Oracle, s': Shared, pc': Pc)
    requires Reachable(Solo(s, pc, launches)) && |o.random| == 16 && FreshProcess(s, o.proc, o.pid, o.generation)
    requires (pc.Spawning? && pc'.Recording?) || (pc.Retrying? && pc'.RetryRecording?)
    requires Next(Solo(s, pc, launches), 0, o) == Move(s', pc')
    ensures Reachable(Solo(s', pc', launches + 1))
  {
    var w := Solo(s, pc, launches);
    ReachStep(w, Step(0, o));
    assert Apply(w, Step(0, o)) == Solo(s', pc', launches + 1);
  }

  lemma Environment(s: Shared, pc: Pc, launches: nat, a: Action, s': Shared)
    requires Reachable(Solo(s, pc, launches)) && (a.Exit? || a.Foreign? || a.Rebind?) && Enabled(Solo(s, pc, launches), a)
    requires Apply(Solo(s, pc, launches), a).shared == s'
    ensures Reachable(Solo(s', pc, launches))
  {
    ReachStep(Solo(s, pc, launches), a);
    assert Apply(Solo(s, pc, launches), a) == Solo(s', pc, launches);
  }

  function State(registry: Option<Record>, procs: map<Proc, Process>): Shared {
    Shared(0, registry, None, procs, {}, {})
  }

  function Helper(pid: nat, life: Life): Process {
    Process(pid, 1, life, Some(0))
  }

  const FIRST_RECORD := StartingRecord(0, seq(16, _ => 0), 7, 1, 0)
  const SECOND_RECORD := StartingRecord(0, seq(16, _ => 0), 8, 1, 0)

  const EMPTY := State(None, map[])
  const LAUNCHED_1 := State(None, map[0 := Helper(7, Live)])
  const RECORDED_1 := State(Some(FIRST_RECORD), map[0 := Helper(7, Live)])
  const EXITED_1 := State(Some(FIRST_RECORD), map[0 := Helper(7, Zombie)])
  const REAPED_1 := State(Some(FIRST_RECORD), map[0 := Helper(7, Gone)])
  const LAUNCHED_2 := State(Some(FIRST_RECORD), map[0 := Helper(7, Gone), 1 := Helper(8, Live)])
  const RECORDED_2 := State(Some(SECOND_RECORD), map[0 := Helper(7, Gone), 1 := Helper(8, Live)])
  const EXITED_2 := State(Some(SECOND_RECORD), map[0 := Helper(7, Gone), 1 := Helper(8, Zombie)])
  const REAPED_2 := State(Some(SECOND_RECORD), map[0 := Helper(7, Gone), 1 := Helper(8, Gone)])
  const REUSED := State(Some(SECOND_RECORD), map[0 := Helper(7, Gone), 1 := Helper(8, Gone), 2 := Process(8, 1, Live, None)])

  // The call reserves the startup and launches its first helper, which exits.

  lemma Begins()
    ensures Reachable(Solo(EMPTY, Top, 0))
  {
    var empty := World(EMPTY, None, None, {}, map[]);
    ReachInitial(empty);
    ReachStep(empty, Begin(0, Start));
    assert Apply(empty, Begin(0, Start)) == Solo(EMPTY, Top, 0);
  }

  lemma Reserves()
    ensures Reachable(Solo(EMPTY, Launching, 0))
  {
    Begins();
    Advance(EMPTY, Top, 0, FINE, EMPTY, Reserving);
    Advance(EMPTY, Reserving, 0, FINE, EMPTY, Launching);
  }

  lemma Probes()
    ensures Reachable(Solo(EMPTY, Probed(ForLaunch), 0))
  {
    Reserves();
    Advance(EMPTY, Launching, 0, FINE, EMPTY, Probe(ForLaunch));
    Advance(EMPTY, Probe(ForLaunch), 0, FINE, EMPTY, Probed(ForLaunch));
  }

  lemma Claims()
    ensures Reachable(Solo(EMPTY, Spawning, 0))
  {
    Probes();
    Advance(EMPTY, Probed(ForLaunch), 0, FINE, EMPTY, Claiming);
    Advance(EMPTY, Claiming, 0, FINE, EMPTY, Spawning);
  }

  lemma LaunchesFirst()
    ensures Reachable(Solo(LAUNCHED_1, Recording(0), 1))
  {
    Claims();
    Launch(EMPTY, Spawning, 0, Replies(0, 7), LAUNCHED_1, Recording(0));
  }

  lemma RecordsFirst()
    ensures Reachable(Solo(RECORDED_1, Waiting(0, FIRST_RECORD, 1), 1))
  {
    LaunchesFirst();
    Advance(LAUNCHED_1, Recording(0), 1, FINE, RECORDED_1, Waiting(0, FIRST_RECORD, 1));
  }

  lemma FirstExits()
    ensures Reachable(Solo(EXITED_1, Waiting(0, FIRST_RECORD, 1), 1))
  {
    RecordsFirst();
    Environment(RECORDED_1, Waiting(0, FIRST_RECORD, 1), 1, Exit(0), EXITED_1);
  }

  // It reaps the helper and launches a second one, which exits too.

  lemma ReapsFirst()
    ensures Reachable(Solo(REAPED_1, Unlinking(FIRST_RECORD), 1))
  {
    FirstExits();
    Advance(EXITED_1, Waiting(0, FIRST_RECORD, 1), 1, FINE, REAPED_1, WantUnlink(FIRST_RECORD));
    Advance(REAPED_1, WantUnlink(FIRST_RECORD), 1, FINE, REAPED_1, Unlinking(FIRST_RECORD));
  }

  lemma Retries()
    ensures Reachable(Solo(REAPED_1, Retrying(FIRST_RECORD), 1))
  {
    ReapsFirst();
    Advance(REAPED_1, Unlinking(FIRST_RECORD), 1, FINE, REAPED_1, WantRetry(FIRST_RECORD));
    Advance(REAPED_1, WantRetry(FIRST_RECORD), 1, FINE, REAPED_1, Retrying(FIRST_RECORD));
  }

  lemma LaunchesSecond()
    ensures Reachable(Solo(LAUNCHED_2, RetryRecording(FIRST_RECORD, 1), 2))
  {
    Retries();
    Launch(REAPED_1, Retrying(FIRST_RECORD), 1, Replies(1, 8), LAUNCHED_2, RetryRecording(FIRST_RECORD, 1));
  }

  lemma SecondExits()
    ensures Reachable(Solo(EXITED_2, Waiting(1, SECOND_RECORD, 2), 2))
  {
    LaunchesSecond();
    Advance(LAUNCHED_2, RetryRecording(FIRST_RECORD, 1), 2, FINE, RECORDED_2, Waiting(1, SECOND_RECORD, 2));
    Environment(RECORDED_2, Waiting(1, SECOND_RECORD, 2), 2, Exit(1), EXITED_2);
  }

  // The second helper is reaped as well, and the lock deadline passes twice.

  lemma GivesUp()
    ensures Reachable(Solo(REAPED_2, WantCleanup(1), 2))
  {
    SecondExits();
    Advance(EXITED_2, Waiting(1, SECOND_RECORD, 2), 2, FINE, REAPED_2, WantFail(Some(1), SECOND_RECORD, LaunchExited));
    Advance(REAPED_2, WantFail(Some(1), SECOND_RECORD, LaunchExited), 2, LATE, REAPED_2, WantAbort(1, SECOND_RECORD));
    Advance(REAPED_2, WantAbort(1, SECOND_RECORD), 2, LATE, REAPED_2, WantCleanup(1));
  }

  lemma PidIsReused()
    ensures Reachable(Solo(REUSED, Cleaning(1), 2))
  {
    GivesUp();
    Environment(REAPED_2, WantCleanup(1), 2, Foreign(2, 8, 1), REUSED);
    Advance(REUSED, WantCleanup(1), 2, FINE, REUSED, Cleaning(1));
  }

  /** A stranger was given the free PID, and the clean-up by PID reaches it. */
  lemma CleanupCanReachAStranger()
    ensures exists w :: Reachable(w) && 2 in w.shared.procs && w.shared.procs[2].parent == None && (0, 2) in w.shared.cleanups
  {
    PidIsReused();
    assert Reached(REUSED, 1) == {2};
    var signalled := Terminated(REUSED, 0, 1);
    Advance(REUSED, Cleaning(1), 2, FINE, signalled, Done(false));
    assert (0, 2) in signalled.cleanups;
    assert Reachable(Solo(signalled, Done(false), 2));
  }

  // In another run an outside hand swaps the socket during the verification.

  const RECORDED := SocketId(1, 10)
  const BORROWED := SocketId(1, 11)

  /** Nobody listens on the recorded socket; the first helper listens on the borrowed one. */
  const AT_RECORDED := RECORDED_1.(socket := Some(Socket(RECORDED, 9)))
  const AT_BORROWED := RECORDED_1.(socket := Some(Socket(BORROWED, 0)))

  lemma SeesRecorded()
    ensures Reachable(Solo(AT_RECORDED, WantActivate(0, FIRST_RECORD, RECORDED), 1))
  {
    RecordsFirst();
    Environment(RECORDED_1, Waiting(0, FIRST_RECORD, 1), 1, Rebind(Some(Socket(RECORDED, 9))), AT_RECORDED);
    Advance(AT_RECORDED, Waiting(0, FIRST_RECORD, 1), 1, FINE.(seen := Some(RECORDED)), AT_RECORDED,
            WantActivate(0, FIRST_RECORD, RECORDED));
  }

  lemma StatsRecorded()
    ensures Reachable(Solo(AT_RECORDED, ActivationCheck(0, FIRST_RECORD, RECORDED, ToConnect(RECORDED)), 1))
  {
    SeesRecorded();
    Advance(AT_RECORDED, WantActivate(0, FIRST_RECORD, RECORDED), 1, FINE, AT_RECORDED, Activating(0, FIRST_RECORD, RECORDED));
    Advance(AT_RECORDED, Activating(0, FIRST_RECORD, RECORDED), 1, FINE, AT_RECORDED,
            ActivationCheck(0, FIRST_RECORD, RECORDED, ToStat));
    Advance(AT_RECORDED, ActivationCheck(0, FIRST_RECORD, RECORDED, ToStat), 1, FINE, AT_RECORDED,
            ActivationCheck(0, FIRST_RECORD, RECORDED, ToConnect(RECORDED)));
  }

  lemma ConnectsToBorrowed()
    ensures Reachable(Solo(AT_BORROWED, ActivationCheck(0, FIRST_RECORD, RECORDED, ToRestat(RECORDED, Socket(BORROWED, 0))), 1))
  {
    StatsRecorded();
    var check := ActivationCheck(0, FIRST_RECORD, RECORDED, ToConnect(RECORDED));
    Environment(AT_RECORDED, check, 1, Rebind(Some(Socket(BORROWED, 0))), AT_BORROWED);
    var connected := ActivationCheck(0, FIRST_RECORD, RECORDED, ToAnswer(RECORDED, Socket(BORROWED, 0)));
    Advance(AT_BORROWED, check, 1, FINE, AT_BORROWED, connected);
    Advance(AT_BORROWED, connected, 1, FINE, AT_BORROWED,
            ActivationCheck(0, FIRST_RECORD, RECORDED, ToRestat(RECORDED, Socket(BORROWED, 0))));
  }

  /** The call is about to record one socket, and will; but another one answered. */
  lemma RecordedSocketMayNotBeTheOneThatAnswered()
    ensures exists w :: Reachable(w) && 0 in w.calls && w.calls[0].pc.Committing?
                        && w.calls[0].pc.via.id != w.calls[0].pc.verified
                        && Next(w, 0, FINE).shared.registry == Some(Activated(w.calls[0].pc.starting, w.calls[0].pc.verified))
  {
    ConnectsToBorrowed();
    var answered := ActivationCheck(0, FIRST_RECORD, RECORDED, ToRestat(RECORDED, Socket(BORROWED, 0)));
    Environment(AT_BORROWED, answered, 1, Rebind(Some(Socket(RECORDED, 9))), AT_RECORDED);
    var committing := Committing(0, FIRST_RECORD, RECORDED, Socket(BORROWED, 0));
    Advance(AT_RECORDED, answered, 1, FINE, AT_RECORDED, committing);
    assert Reachable(Solo(AT_RECORDED, committing, 1));
  }
}
