/**
 * What the private-agent calls achieve when nothing goes wrong, and which
 * process a record stands for.
 */
module AgentProgress {
  import opened Base
  import opened AgentRegistry
  import opened AgentProtocol
  import opened AgentSafety

  // ------------------------------------------------- which process a record means

  /**
   * A current record carries boot fingerprint and start time, and stands for
   * the process that has both. An older one carries the start time alone.
   */
  lemma MatchesExactly(s: Shared, r: Record, x: Proc, b: nat, t: nat, b': nat, t': nat)
    requires UniquePids(s) && Present(s, x) && s.procs[x].pid == r.pid
    requires b >= 1 && b' >= 1 && t < 0x1_0000_0000_0000_0000 && t' < 0x1_0000_0000_0000_0000
    requires s.procs[x].generation == b * 0x1_0000_0000_0000_0000 + t
    ensures r.generation == Some(b' * 0x1_0000_0000_0000_0000 + t') ==> (Matches(s, r) <==> b == b' && t == t')
    ensures r.generation == Some(t') ==> (Matches(s, r) <==> t == t')
    ensures r.generation == None ==> Matches(s, r)
  {
    Split(b, t);
    Split(b', t');
    assert forall y :: Present(s, y) && s.procs[y].pid == r.pid ==> y == x;
  }

  lemma Split(b: nat, t: nat)
    requires t < 0x1_0000_0000_0000_0000
    ensures (b * 0x1_0000_0000_0000_0000 + t) / 0x1_0000_0000_0000_0000 == b
    ensures (b * 0x1_0000_0000_0000_0000 + t) % 0x1_0000_0000_0000_0000 == t
  {
  }

  /** A record whose PID nobody has stands for no process. */
  lemma NobodyMatches(s: Shared, r: Record)
    requires forall x :: Present(s, x) ==> s.procs[x].pid != r.pid
    ensures !Matches(s, r)
  {
  }

  /** Process `x` has the PID and the generation of the record. */
  predicate StandsFor(s: Shared, r: Record, x: Proc) {
    && Present(s, x) && s.procs[x].pid == r.pid
    && match r.generation
       case None => true
       case Some(g) => g == s.procs[x].generation
                       || (g < 0x1_0000_0000_0000_0000 && g == s.procs[x].generation % 0x1_0000_0000_0000_0000)
  }

  lemma StandingMatches(s: Shared, r: Record, x: Proc)
    requires StandsFor(s, r, x)
    ensures Matches(s, r)
  {
  }

  // ---------------------------------------------- a helper and its own record

  /** The helper a call remembers, and the record it has written for it. */
  function RecordedFor(pc: Pc): Option<(Proc, Record)> {
    match pc
    case Waiting(c, r, _) => Some((c, r))
    case WantActivate(c, r, _) => Some((c, r))
    case Activating(c, r, _) => Some((c, r))
    case ActivationCheck(c, r, _, _) => Some((c, r))
    case Committing(c, r, _, _) => Some((c, r))
    case Inspecting(c, r) => Some((c, r))
    case WantAbort(c, r) => Some((c, r))
    case Aborting(c, r) => Some((c, r))
    case WantFail(Some(c), r, _) => Some((c, r))
    case Failing(Some(c), r, _) => Some((c, r))
    case _ => None
  }

  predicate IsRecordOf(s: Shared, child: Proc, r: Record) {
    child in s.procs && r.pid == s.procs[child].pid && r.generation == Some(s.procs[child].generation)
  }

  ghost predicate Written(s: Shared, pc: Pc) {
    RecordedFor(pc).Some? ==> IsRecordOf(s, RecordedFor(pc).value.0, RecordedFor(pc).value.1)
  }

  lemma WrittenFirst(w: World, p: Caller, o: Oracle)
    requires p in w.calls && (w.calls[p].pc.Recording? || w.calls[p].pc.RetryRecording?)
    ensures Written(Next(w, p, o).shared, Next(w, p, o).pc)
  {
  }

  lemma WrittenKept(w: World, p: Caller, o: Oracle)
    requires p in w.calls && HoldsOwner(w.calls[p].pc) && !w.calls[p].pc.Recording? && !w.calls[p].pc.RetryRecording?
    ensures RecordedFor(Next(w, p, o).pc).Some? ==> RecordedFor(Next(w, p, o).pc) == RecordedFor(w.calls[p].pc)
  {
  }

  lemma WrittenNotYet(w: World, p: Caller, o: Oracle)
    requires p in w.calls && !HoldsOwner(w.calls[p].pc) && !HoldsLifecycle(w.calls[p].pc)
    ensures RecordedFor(Next(w, p, o).pc).None?
  {
  }

  lemma WrittenNotYetLocked(w: World, p: Caller, o: Oracle)
    requires p in w.calls && !HoldsOwner(w.calls[p].pc) && HoldsLifecycle(w.calls[p].pc)
    ensures RecordedFor(Next(w, p, o).pc).None?
  {
  }

  lemma WrittenStays(s: Shared, s': Shared, q: Option<Caller>, pc: Pc)
    requires ProcsMove(s, s', q) && Written(s, pc)
    ensures Written(s', pc)
  {
  }

  lemma WrittenNext(w: World, p: Caller, o: Oracle)
    requires Enabled(w, Step(p, o)) && Written(w.shared, w.calls[p].pc)
    ensures Written(Next(w, p, o).shared, Next(w, p, o).pc)
  {
    var m := Next(w, p, o);
    if w.calls[p].pc.Recording? || w.calls[p].pc.RetryRecording? { WrittenFirst(w, p, o); }
    else if HoldsOwner(w.calls[p].pc) {
      WrittenKept(w, p, o);
      ProcsNext(w, p, o);
      WrittenStays(w.shared, m.shared, Some(p), w.calls[p].pc);
    } else {
      if HoldsLifecycle(w.calls[p].pc) { WrittenNotYetLocked(w, p, o); } else { WrittenNotYet(w, p, o); }
    }
  }

  ghost predicate AllWritten(w: World) {
    forall p :: p in w.calls ==> Written(w.shared, w.calls[p].pc)
  }

  /** What any step does to the processes that are there. */
  lemma ProcsStep(w: World, a: Action) returns (q: Option<Caller>)
    requires Enabled(w, a)
    ensures ProcsMove(w.shared, Apply(w, a).shared, q)
  {
    q := if a.Step? then Some(a.p) else None;
    match a
    case Step(p, o) => ProcsNext(w, p, o);
    case Exit(proc) => ProcsLife(w.shared, proc, Zombie, None);
    case Reap(proc) => ProcsLife(w.shared, proc, Gone, None);
    case Foreign(proc, pid, generation) => ProcsSpawn(w.shared, proc, pid, generation, None);
    case _ =>
  }

  lemma AllWrittenStep(w: World, a: Action)
    requires Enabled(w, a) && AllWritten(w)
    ensures AllWritten(Apply(w, a))
  {
    var w' := Apply(w, a);
    var q := ProcsStep(w, a);
    forall p | p in w'.calls
      ensures Written(w'.shared, w'.calls[p].pc)
    {
      if a.Step? && a.p == p { WrittenNext(w, p, a.o); }
      else if p in w.calls && w'.calls[p] == w.calls[p] { WrittenStays(w.shared, w'.shared, q, w.calls[p].pc); }
    }
  }

  lemma {:induction false} AllWrittenRun(ws: seq<World>, actions: seq<Action>, i: nat)
    requires Run(ws, actions) && i < |ws|
    ensures AllWritten(ws[i])
  {
    if i > 0 {
      AllWrittenRun(ws, actions, i - 1);
      assert StepAt(ws, actions, i - 1);
      AllWrittenStep(ws[i - 1], actions[i - 1]);
    }
  }

  lemma OwnRecordMatches(s: Shared, child: Proc, r: Record)
    requires IsRecordOf(s, child, r) && Present(s, child)
    ensures Matches(s, r)
  {
    assert StandsFor(s, r, child);
  }

  /** As long as a call's helper is unreaped, the record the call has written for it matches. */
  lemma HelpersMatchTheirRecords(ws: seq<World>, actions: seq<Action>, i: nat, p: Caller)
    requires Run(ws, actions) && i < |ws| && p in ws[i].calls && RecordedFor(ws[i].calls[p].pc).Some?
    ensures var (child, r) := RecordedFor(ws[i].calls[p].pc).value;
            Present(ws[i].shared, child) ==> Matches(ws[i].shared, r)
  {
    AllWrittenRun(ws, actions, i);
    var (child, r) := RecordedFor(ws[i].calls[p].pc).value;
    if Present(ws[i].shared, child) { OwnRecordMatches(ws[i].shared, child, r); }
  }

  lemma {:induction false} RecordOfForever(ws: seq<World>, actions: seq<Action>, i: nat, j: nat, child: Proc, r: Record)
    requires Run(ws, actions) && i <= j < |ws| && IsRecordOf(ws[i].shared, child, r)
    ensures IsRecordOf(ws[j].shared, child, r)
    decreases j - i
  {
    if i < j {
      RecordOfForever(ws, actions, i, j - 1, child, r);
      assert StepAt(ws, actions, j - 1);
      var q := ProcsStep(ws[j - 1], actions[j - 1]);
    }
  }

  /** And so does that record for the rest of the run, whatever becomes of the call, until the helper is reaped. */
  lemma WrittenRecordsMatch(ws: seq<World>, actions: seq<Action>, i: nat, j: nat, p: Caller)
    requires Run(ws, actions) && i <= j < |ws| && p in ws[i].calls && RecordedFor(ws[i].calls[p].pc).Some?
    ensures var (child, r) := RecordedFor(ws[i].calls[p].pc).value;
            Present(ws[j].shared, child) ==> Matches(ws[j].shared, r)
  {
    AllWrittenRun(ws, actions, i);
    var (child, r) := RecordedFor(ws[i].calls[p].pc).value;
    RecordOfForever(ws, actions, i, j, child, r);
    if Present(ws[j].shared, child) { OwnRecordMatches(ws[j].shared, child, r); }
  }

  // ------------------------------------------------------- an active agent is found

  /** An active record, a live process it stands for, and a socket verification that returned the recorded socket. */
  ghost predicate ActiveAndVerified(s: Shared, o: Oracle) {
    && s.registry.Some? && s.registry.value.state == Active && SocketOf(s.registry.value).Some?
    && o.seen == SocketOf(s.registry.value)
    && exists x :: HasLife(s, x, Live) && StandsFor(s, s.registry.value, x)
  }

  /**
   * A start call that looks at a verified active agent, with nothing failing,
   * reports success, and a recover call leaves it alone; neither changes anything.
   */
  lemma ActiveAgentsAreFound(ws: seq<World>, actions: seq<Action>, i: nat, p: Caller, o: Oracle)
    requires Run(ws, actions) && i < |actions| && actions[i] == Step(p, o) && p in ws[i].calls && !o.fails
    requires ws[i].calls[p].pc == Reserving || ws[i].calls[p].pc == RecoverLocked
    requires ActiveAndVerified(ws[i].shared, o)
    ensures p in ws[i + 1].calls && ws[i + 1].calls[p].pc == Done(true) && ws[i + 1].shared == ws[i].shared
    ensures ws[i + 1].lifecycle == None
  {
    assert StepAt(ws, actions, i);
    var s := ws[i].shared;
    var x :| HasLife(s, x, Live) && StandsFor(s, s.registry.value, x);
    StandingMatches(s, s.registry.value, x);
  }

  /** Both calls get to look as soon as the lifecycle lock is free. */
  lemma FreeLockIsTaken(ws: seq<World>, actions: seq<Action>, i: nat, p: Caller, o: Oracle)
    requires Run(ws, actions) && i < |actions| && actions[i] == Step(p, o) && p in ws[i].calls && !o.fails
    requires ws[i].lifecycle == None
    requires ws[i].calls[p].pc == Top || ws[i].calls[p].pc == RecoverTop || ws[i].calls[p].pc == StopTop
    ensures p in ws[i + 1].calls && ws[i + 1].lifecycle == Some(p) && ws[i + 1].shared == ws[i].shared
    ensures ws[i + 1].calls[p].pc == match ws[i].calls[p].pc case Top => Reserving case RecoverTop => RecoverLocked case _ => StopLocked
  {
    assert StepAt(ws, actions, i);
  }
}
