/**
 * The bounded stdio transport's receive loop (`quarters-mcp/src/transport.rs`)
 * as a state machine whose steps are the stretches between two suspension
 * points. The receive future may be dropped wherever it is suspended, and
 * other tasks act on the shared admission table between any two steps.
 */
module Transport {
  import opened Base
  import opened Admission
  import F = Family

  /** What the receive loop looks at in a decoded client message. */
  datatype Message =
    | Request(id: RequestId, method_: F.Method, versioned: bool, metadataComplete: bool)
    | Notification(cancels: Option<RequestId>)
    | Other(number: nat)

  datatype Frame =
    | Decoded(message: Message)
    | ProtocolError(id: Option<RequestId>)
    | IgnoredNotification
    | ParseError
    | Oversized
    | Broken

  datatype ErrorCode = Parse | Protocol | PingRemoved | MetadataInvalid | Refused(failure: Failure)

  datatype Reply = Reply(code: ErrorCode, id: Option<RequestId>)

  datatype Preparation =
    | Deliver
    | Ignore
    | Reject(reply: Reply, terminal: bool)
    | CloseSession
    | AwaitRelease(id: RequestId)

  // ------------------------------------------------------ prepare and admit

  /** `modern_metadata_error`. */
  function MetadataError(family: F.FamilyState, m: Message): Option<ErrorCode> {
    if !m.Request? || family == F.Legacy || m.method_ == F.Initialize then None
    else if m.method_ == F.Ping then (if m.versioned then Some(PingRemoved) else None)
    else if m.metadataComplete then None else Some(MetadataInvalid)
  }

  predicate Terminal(failure: Failure) {
    failure != Capacity
  }

  /** The verdict of `prepare_message`. */
  function Verdict(family: F.FamilyState, s: State, m: Message): Preparation {
    if family == F.Unopened && m.Notification? then Ignore
    else if MetadataError(family, m).Some? then Reject(Reply(MetadataError(family, m).value, Some(m.id)), false)
    else if m.Request? && ReserveFailure(s, m.id).Some? then
      match ReserveFailure(s, m.id).value
      case Duplicate => CloseSession
      case CancelledInFlight => AwaitRelease(m.id)
      case failure => Reject(Reply(Refused(failure), Some(m.id)), Terminal(failure))
    else Deliver
  }

  function Prepared(family: F.FamilyState, s: State, m: Message): State {
    if (family == F.Unopened && m.Notification?) || MetadataError(family, m).Some? then s
    else match m
      case Request(id, _, _, _) => AfterReserve(s, id)
      case Notification(Some(id)) => AfterCancel(s, id)
      case _ => s
  }

  /** Whether preparing this message releases a slot, and so notifies waiters. */
  predicate PreparationReleases(family: F.FamilyState, s: State, m: Message) {
    family != F.Unopened && m.Notification? && m.cancels.Some? && CancelReleases(s, m.cancels.value)
  }

  method PrepareMessage(family: F.ProtocolFamily, admission: RequestAdmission, m: Message) returns (p: Preparation)
    modifies admission
    ensures p == Verdict(family.state, old(admission.View()), m)
    ensures admission.View() == Prepared(family.state, old(admission.View()), m)
    ensures admission.notifications
            == old(admission.notifications) + if PreparationReleases(family.state, old(admission.View()), m) then 1 else 0
  {
    if family.state == F.Unopened && m.Notification? { return Ignore; }
    var metadata := MetadataError(family.state, m);
    if metadata.Some? { return Reject(Reply(metadata.value, Some(m.id)), false); }
    if m.Request? {
      var failure := admission.Reserve(m.id);
      if failure.Some? {
        if failure.value == Duplicate { return CloseSession; }
        if failure.value == CancelledInFlight { return AwaitRelease(m.id); }
        return Reject(Reply(Refused(failure.value), Some(m.id)), failure.value != Capacity);
      }
    }
    if m.Notification? && m.cancels.Some? { admission.Cancel(m.cancels.value); }
    return Deliver;
  }

  /** `try_admit`; `None` hands the request back to wait on. */
  function Retried(s: State, id: RequestId, expired: bool): Option<Preparation> {
    match ReserveFailure(s, id)
    case None => Some(Deliver)
    case Some(CancelledInFlight) =>
      if expired then Some(Reject(Reply(Refused(CancelledInFlight), Some(id)), false)) else None
    case Some(Duplicate) => Some(CloseSession)
    case Some(failure) => Some(Reject(Reply(Refused(failure), Some(id)), Terminal(failure)))
  }

  method TryAdmit(admission: RequestAdmission, id: RequestId, expired: bool) returns (p: Option<Preparation>)
    modifies admission
    ensures p == Retried(old(admission.View()), id, expired)
    ensures admission.View() == AfterReserve(old(admission.View()), id)
    ensures admission.notifications == old(admission.notifications)
  {
    var failure := admission.Reserve(id);
    if failure.None? { return Some(Deliver); }
    if failure.value == CancelledInFlight {
      if !expired { return None; }
      return Some(Reject(Reply(Refused(CancelledInFlight), Some(id)), false));
    }
    if failure.value == Duplicate { return Some(CloseSession); }
    return Some(Reject(Reply(Refused(failure.value), Some(id)), failure.value != Capacity));
  }

  // ------------------------------------------------------------ the machine

  datatype Outcome = Delivered(message: Message) | Ignored | Answered(reply: Reply)

  datatype Settled = Settled(frame: nat, outcome: Outcome)

  /** A request that waits for a cancelled predecessor to let go of its ID. */
  datatype Waiting = Waiting(frame: nat, message: Message, id: RequestId, deadline: nat)

  datatype Pending = Pending(frame: nat, reply: Reply, terminal: bool)

  datatype Pc =
    | Idle                                      // no receive future exists
    | LoopTop
    | Registered(waiting: Waiting, since: nat)  // the notification future is enabled, the ID not yet retried
    | WaitRelease(since: nat)                   // suspended on that notification, or the deadline
    | WaitPermit                                // suspended on the error channel
    | WaitFrame                                 // suspended on the reader
    | Ended

  datatype Session = Session(
    input: seq<Frame>,
    consumed: nat,
    pendingError: Option<Pending>,
    awaitingRelease: Option<Waiting>,
    log: seq<Settled>,
    pc: Pc,
    writerFailed: bool,
    now: nat,
    family: F.FamilyState,
    admission: State,
    notifications: nat,
    owed: nat)          // releases whose notify_waiters call has not happened yet

  const CANCELLED_ID_RELEASE_WAIT: nat := 5_000

  /** Settle frame `frame` according to its preparation. */
  function Settle(s: Session, frame: nat, message: Message, p: Preparation): Session {
    match p
    case Deliver => s.(log := s.log + [Settled(frame, Delivered(message))], pc := Idle)
    case Ignore => s.(log := s.log + [Settled(frame, Ignored)], pc := LoopTop)
    case Reject(reply, terminal) => s.(pendingError := Some(Pending(frame, reply, terminal)), pc := LoopTop)
    case CloseSession => s.(pc := Ended)
    case AwaitRelease(id) =>
      s.(awaitingRelease := Some(Waiting(frame, message, id, s.now + CANCELLED_ID_RELEASE_WAIT)), pc := LoopTop)
  }

  function AtLoopTop(s: Session): Session {
    if s.writerFailed then s.(pc := Ended)
    else if s.awaitingRelease.Some? then
      s.(awaitingRelease := None, pc := Registered(s.awaitingRelease.value, s.notifications))
    else s.(pc := if s.pendingError.Some? then WaitPermit else WaitFrame)
  }

  function AtRegistered(s: Session, w: Waiting, since: nat): Session {
    var verdict := Retried(s.admission, w.id, s.now >= w.deadline);
    var s' := s.(admission := AfterReserve(s.admission, w.id));
    if verdict.None? then s'.(awaitingRelease := Some(w), pc := WaitRelease(since))
    else Settle(s', w.frame, w.message, verdict.value)
  }

  /** The error channel grants a permit, or turns out to be closed. */
  function AtPermit(s: Session, open: bool): Session {
    if !open || s.pendingError.None? then s.(pc := Ended)
    else
      var pending := s.pendingError.value;
      s.(pendingError := None, log := s.log + [Settled(pending.frame, Answered(pending.reply))],
         pc := if pending.terminal then Ended else LoopTop)
  }

  /** The reader yields the next frame; end of input ends the session. */
  function AtFrame(s: Session): Session {
    if s.consumed >= |s.input| then s.(pc := Ended)
    else
      var frame := s.consumed;
      var s' := s.(consumed := s.consumed + 1);
      match s.input[frame]
      case Decoded(m) =>
        Settle(s'.(admission := Prepared(s.family, s.admission, m),
                   notifications := s.notifications + if PreparationReleases(s.family, s.admission, m) then 1 else 0),
               frame, m, Verdict(s.family, s.admission, m))
      case ParseError => s'.(pendingError := Some(Pending(frame, Reply(Parse, None), false)), pc := LoopTop)
      case ProtocolError(id) => s'.(pendingError := Some(Pending(frame, Reply(Protocol, id), false)), pc := LoopTop)
      case IgnoredNotification => s'.(log := s.log + [Settled(frame, Ignored)], pc := LoopTop)
      case _ => s'.(pc := Ended)
  }

  datatype Action =
    | Receive                       // the service asks for the next message
    | Proceed                       // run from the loop head, or retry the waited-for ID
    | Wake                          // the notification arrived, or the deadline passed
    | Permit(open: bool)
    | Read
    | Drop                          // the suspended receive future is dropped
    | Handler(event: Event)         // a request task or a response writer acts on the table
    | Notify                        // the second half of a release
    | Validated(family: F.FamilyState, legacy: bool)
    | WriterFails
    | Tick(now: nat)

  /** The events other tasks may cause; only the transport reserves and cancels. */
  predicate TaskEvent(e: Event) {
    e.EvClaim? || e.EvGuardDrop? || e.EvStartResponse? || e.EvFinishResponse?
  }

  /** Which of those events are followed by a notification. */
  predicate Owes(s: State, e: Event) {
    e.EvFinishResponse? || (e.EvGuardDrop? && HandlerReleases(s, e.id))
  }

  predicate Enabled(s: Session, a: Action) {
    match a
    case Receive => s.pc.Idle?
    case Proceed => s.pc.LoopTop? || s.pc.Registered?
    case Wake => s.pc.WaitRelease? && (s.notifications > s.pc.since
                                        || (s.awaitingRelease.Some? && s.now >= s.awaitingRelease.value.deadline))
    case Permit(_) => s.pc.WaitPermit?
    case Read => s.pc.WaitFrame?
    case Drop => s.pc.WaitRelease? || s.pc.WaitPermit? || s.pc.WaitFrame?
    case Handler(e) => TaskEvent(e)
    case Notify => s.owed > 0
    case Validated(_, _) => true
    case WriterFails => true
    case Tick(now) => now >= s.now
  }

  function Apply(s: Session, a: Action): Session
    requires Enabled(s, a)
  {
    match a
    case Receive => s.(pc := LoopTop)
    case Proceed => if s.pc.LoopTop? then AtLoopTop(s) else AtRegistered(s, s.pc.waiting, s.pc.since)
    case Wake => s.(pc := LoopTop)
    case Permit(open) => AtPermit(s, open)
    case Read => AtFrame(s)
    case Drop => s.(pc := Idle)
    case Handler(e) =>
      s.(admission := Admission.Apply(s.admission, e), owed := s.owed + if Owes(s.admission, e) then 1 else 0)
    case Notify => s.(owed := s.owed - 1, notifications := s.notifications + 1)
    case Validated(family, legacy) =>
      s.(family := family, admission := if legacy then AfterEnterLegacy(s.admission) else s.admission)
    case WriterFails => s.(writerFailed := true)
    case Tick(now) => s.(now := now)
  }

  function Opening(input: seq<Frame>): Session {
    Session(input, 0, None, None, [], Idle, false, 0, F.Unopened, FRESH, 0, 0)
  }

  ghost predicate StepAt(ss: seq<Session>, actions: seq<Action>, i: nat)
    requires |ss| == |actions| + 1 && i < |actions|
  {
    Enabled(ss[i], actions[i]) && ss[i + 1] == Apply(ss[i], actions[i])
  }

  ghost predicate Run(input: seq<Frame>, ss: seq<Session>, actions: seq<Action>) {
    && |ss| == |actions| + 1 && ss[0] == Opening(input)
    && forall i: nat :: i < |actions| ==> StepAt(ss, actions, i)
  }

  // --------------------------------------------------------------- invariant

  /** The frame that has been read but not settled, wherever the loop keeps it. */
  function InFlight(s: Session): Option<nat> {
    if s.pendingError.Some? then Some(s.pendingError.value.frame)
    else if s.awaitingRelease.Some? then Some(s.awaitingRelease.value.frame)
    else if s.pc.Registered? then Some(s.pc.waiting.frame)
    else None
  }

  /** The reply a frame may be answered with: about that frame, under that frame's ID. */
  ghost predicate Fits(input: seq<Frame>, frame: nat, reply: Reply) {
    && frame < |input|
    && match input[frame]
       case Decoded(m) => m.Request? && reply.id == Some(m.id) && reply.code != Parse && reply.code != Protocol
       case ProtocolError(id) => reply == Reply(Protocol, id)
       case ParseError => reply == Reply(Parse, None)
       case _ => false
  }

  /** Only a session that is out of IDs, or an ID that is too long, ends the session with its error. */
  predicate EndsWithReason(reply: Reply, terminal: bool) {
    terminal <==> reply.code == Refused(SessionLimit) || reply.code == Refused(IdTooLong)
  }

  ghost predicate Truthful(input: seq<Frame>, e: Settled) {
    && e.frame < |input|
    && match e.outcome
       case Delivered(m) => input[e.frame] == Decoded(m)
       case Ignored => input[e.frame] == IgnoredNotification
                       || (input[e.frame].Decoded? && input[e.frame].message.Notification?)
       case Answered(reply) => Fits(input, e.frame, reply)
  }

  ghost predicate WaitsTruly(input: seq<Frame>, w: Waiting) {
    w.frame < |input| && input[w.frame] == Decoded(w.message) && w.message.Request? && w.message.id == w.id
  }

  /** Nothing is settled twice, out of order, or forgotten. */
  ghost predicate Accounts(s: Session) {
    && s.consumed <= |s.input|
    && !(s.awaitingRelease.Some? && s.pendingError.Some?)
    && (s.pc.Registered? ==> s.awaitingRelease.None? && s.pendingError.None?)
    && (s.pc.WaitRelease? ==> s.awaitingRelease.Some?)
    && (s.pc.WaitPermit? ==> s.pendingError.Some? && s.awaitingRelease.None?)
    && (s.pc.WaitFrame? ==> s.pendingError.None? && s.awaitingRelease.None?)
    && (forall i :: 0 <= i < |s.log| ==> s.log[i].frame == i && Truthful(s.input, s.log[i]))
    && (InFlight(s).Some? ==> InFlight(s).value == |s.log| && s.consumed == |s.log| + 1)
    && (InFlight(s).None? ==> if s.pc.Ended? then |s.log| <= s.consumed <= |s.log| + 1 else s.consumed == |s.log|)
    && (s.pendingError.Some? ==> Fits(s.input, s.pendingError.value.frame, s.pendingError.value.reply)
                                 && EndsWithReason(s.pendingError.value.reply, s.pendingError.value.terminal))
    && (s.awaitingRelease.Some? ==> WaitsTruly(s.input, s.awaitingRelease.value))
    && (s.pc.Registered? ==> WaitsTruly(s.input, s.pc.waiting))
  }

  predicate HeldByCancelled(s: State, id: RequestId) {
    id in s.requests && s.requests[id].cancelled
  }

  /** A suspended wait is either still needed, about to be notified, or already notified. */
  ghost predicate Watches(s: Session) {
    && (s.pc.Registered? ==> s.pc.since <= s.notifications)
    && (s.pc.WaitRelease? ==> s.pc.since <= s.notifications && s.awaitingRelease.Some?)
    && ((s.pc.WaitRelease? && s.notifications == s.pc.since && s.owed == 0)
        ==> HeldByCancelled(s.admission, s.awaitingRelease.value.id))
  }

  lemma SettleAccounts(s: Session, frame: nat, m: Message, p: Preparation)
    requires s.consumed <= |s.input| && s.pendingError.None? && s.awaitingRelease.None?
    requires forall i :: 0 <= i < |s.log| ==> s.log[i].frame == i && Truthful(s.input, s.log[i])
    requires frame == |s.log| && s.consumed == |s.log| + 1 && s.input[frame] == Decoded(m)
    requires p.Ignore? ==> m.Notification?
    requires p.Reject? ==> Fits(s.input, frame, p.reply) && EndsWithReason(p.reply, p.terminal)
    requires p.AwaitRelease? ==> m.Request? && m.id == p.id
    ensures Accounts(Settle(s, frame, m, p))
  {
  }

  lemma ProceedAccounts(s: Session)
    requires Accounts(s) && Enabled(s, Proceed)
    ensures Accounts(Apply(s, Proceed))
  {
    if s.pc.Registered? {
      var w := s.pc.waiting;
      var verdict := Retried(s.admission, w.id, s.now >= w.deadline);
      if verdict.Some? {
        SettleAccounts(s.(admission := AfterReserve(s.admission, w.id)), w.frame, w.message, verdict.value);
      }
    }
  }

  lemma VerdictSuits(input: seq<Frame>, frame: nat, m: Message, family: F.FamilyState, a: State)
    requires frame < |input| && input[frame] == Decoded(m)
    ensures var p := Verdict(family, a, m);
            && (p.Ignore? ==> m.Notification?)
            && (p.Reject? ==> Fits(input, frame, p.reply) && EndsWithReason(p.reply, p.terminal))
            && (p.AwaitRelease? ==> m.Request? && m.id == p.id)
  {
  }

  lemma ReadAccounts(s: Session)
    requires Accounts(s) && Enabled(s, Read)
    ensures Accounts(Apply(s, Read))
  {
    if s.consumed < |s.input| && s.input[s.consumed].Decoded? {
      var m := s.input[s.consumed].message;
      var s' := s.(consumed := s.consumed + 1, admission := Prepared(s.family, s.admission, m),
                   notifications := s.notifications + if PreparationReleases(s.family, s.admission, m) then 1 else 0);
      VerdictSuits(s.input, s.consumed, m, s.family, s.admission);
      SettleAccounts(s', s.consumed, m, Verdict(s.family, s.admission, m));
    }
  }

  lemma AccountsStep(s: Session, a: Action)
    requires Accounts(s) && Enabled(s, a)
    ensures Accounts(Apply(s, a))
  {
    match a
    case Proceed => ProceedAccounts(s);
    case Read => ReadAccounts(s);
    case _ =>
  }

  lemma TaskKeepsHeld(s: State, e: Event, id: RequestId)
    requires TaskEvent(e) && HeldByCancelled(s, id) && !Owes(s, e)
    ensures HeldByCancelled(Admission.Apply(s, e), id)
  {
  }

  lemma WatchesStep(s: Session, a: Action)
    requires Accounts(s) && Watches(s) && Enabled(s, a)
    ensures Watches(Apply(s, a))
  {
    if a.Handler? && s.pc.WaitRelease? && s.notifications == s.pc.since && s.owed == 0 && !Owes(s.admission, a.event) {
      TaskKeepsHeld(s.admission, a.event, s.awaitingRelease.value.id);
    }
  }

  ghost predicate Inv(input: seq<Frame>, s: Session) {
    s.input == input && Accounts(s) && Watches(s)
  }

  lemma InvStep(input: seq<Frame>, s: Session, a: Action)
    requires Inv(input, s) && Enabled(s, a)
    ensures Inv(input, Apply(s, a))
  {
    AccountsStep(s, a);
    WatchesStep(s, a);
  }

  lemma {:induction false} InvRun(input: seq<Frame>, ss: seq<Session>, actions: seq<Action>, i: nat)
    requires Run(input, ss, actions) && i < |ss|
    ensures Inv(input, ss[i])
  {
    if i > 0 {
      InvRun(input, ss, actions, i - 1);
      assert StepAt(ss, actions, i - 1);
      InvStep(input, ss[i - 1], actions[i - 1]);
    }
  }

  // ---------------------------------------------------------------- theorems

  /**
   * Exactly one outcome per frame, in arrival order, however often the receive
   * future is dropped: the settled frames are a prefix of those read, each
   * with an outcome that is truly its own, and at most one more is unsettled.
   */
  lemma EveryFrameIsSettledOnceInOrder(input: seq<Frame>, ss: seq<Session>, actions: seq<Action>, i: nat)
    requires Run(input, ss, actions) && i < |ss|
    ensures forall k :: 0 <= k < |ss[i].log| ==> ss[i].log[k].frame == k && Truthful(input, ss[i].log[k])
    ensures |ss[i].log| <= ss[i].consumed <= |ss[i].log| + 1 && ss[i].consumed <= |input|
    ensures ss[i].pc.Idle? || ss[i].pc.WaitFrame? ==> (ss[i].consumed == |ss[i].log| <==> InFlight(ss[i]).None?)
    ensures !(ss[i].awaitingRelease.Some? && ss[i].pendingError.Some?)
  {
    InvRun(input, ss, actions, i);
  }

  /** A settled frame is never settled again and its outcome never changes. */
  lemma {:induction false} OutcomesAreFinal(input: seq<Frame>, ss: seq<Session>, actions: seq<Action>, i: nat, j: nat)
    requires Run(input, ss, actions) && i <= j < |ss|
    ensures ss[i].log <= ss[j].log
  {
    if i < j {
      OutcomesAreFinal(input, ss, actions, i, j - 1);
      assert StepAt(ss, actions, j - 1);
    }
  }

  /**
   * No release of a waited-for ID is missed between the check and the wait:
   * if the ID is free while the loop is suspended, the wait can already be
   * woken, or the notification that will wake it is still to be made.
   */
  lemma NoReleaseIsMissed(input: seq<Frame>, ss: seq<Session>, actions: seq<Action>, i: nat)
    requires Run(input, ss, actions) && i < |ss| && ss[i].pc.WaitRelease?
    ensures ss[i].awaitingRelease.Some?
    ensures !HeldByCancelled(ss[i].admission, ss[i].awaitingRelease.value.id)
            ==> Enabled(ss[i], Wake) || (Enabled(ss[i], Notify) && Enabled(Apply(ss[i], Notify), Wake))
  {
    InvRun(input, ss, actions, i);
  }

  /** After its deadline a waiting request is always settled by the next retry. */
  lemma WaitsAreBounded(input: seq<Frame>, ss: seq<Session>, actions: seq<Action>, i: nat)
    requires Run(input, ss, actions) && i < |actions| && actions[i].Proceed?
    requires ss[i].pc.Registered? && ss[i].now >= ss[i].pc.waiting.deadline
    ensures ss[i + 1].awaitingRelease.None? && (ss[i + 1].pc.Idle? || ss[i + 1].pc.LoopTop? || ss[i + 1].pc.Ended?)
  {
    InvRun(input, ss, actions, i);
    assert StepAt(ss, actions, i);
  }

  /** The request this step handed to the service, if it did. */
  function Handed(before: Session, after: Session): Option<RequestId> {
    if |after.log| > |before.log| && after.log[|before.log|].outcome.Delivered?
       && after.log[|before.log|].outcome.message.Request?
    then Some(after.log[|before.log|].outcome.message.id) else None
  }

  lemma RetryDelivers(s: Session, id: RequestId)
    requires Accounts(s) && s.pc.Registered?
    ensures var s' := AtRegistered(s, s.pc.waiting, s.pc.since);
            (Slot(s.admission, id).None? && Slot(s'.admission, id).Some?) <==> Handed(s, s') == Some(id)
  {
  }

  lemma ReadDelivers(s: Session, id: RequestId)
    requires s.pc.WaitFrame?
    ensures (Slot(s.admission, id).None? && Slot(AtFrame(s).admission, id).Some?) <==> Handed(s, AtFrame(s)) == Some(id)
  {
  }

  /**
   * A request is handed to the service exactly when this step reserved its
   * slot; a frame answered with an error or ending the session holds none.
   */
  lemma DeliveryIsAdmission(input: seq<Frame>, ss: seq<Session>, actions: seq<Action>, i: nat, id: RequestId)
    requires Run(input, ss, actions) && i < |actions| && (actions[i].Proceed? || actions[i].Read?)
    ensures (Slot(ss[i].admission, id).None? && Slot(ss[i + 1].admission, id).Some?) <==> Handed(ss[i], ss[i + 1]) == Some(id)
  {
    InvRun(input, ss, actions, i);
    assert StepAt(ss, actions, i);
    if actions[i].Read? { ReadDelivers(ss[i], id); }
    else if ss[i].pc.Registered? { RetryDelivers(ss[i], id); }
  }

  /** A notification is ignored before the family is opened; afterwards it gets through, and a cancellation takes effect. */
  lemma NotificationsGetThrough(input: seq<Frame>, ss: seq<Session>, actions: seq<Action>, i: nat)
    requires Run(input, ss, actions) && i < |actions| && actions[i].Read? && ss[i].consumed < |input|
    requires input[ss[i].consumed].Decoded? && input[ss[i].consumed].message.Notification?
    ensures var frame, m := ss[i].consumed, input[ss[i].consumed].message;
            if ss[i].family == F.Unopened then
              ss[i + 1].log == ss[i].log + [Settled(frame, Ignored)] && ss[i + 1].admission == ss[i].admission
            else
              && ss[i + 1].log == ss[i].log + [Settled(frame, Delivered(m))]
              && (m.cancels.Some? ==> ss[i + 1].admission == AfterCancel(ss[i].admission, m.cancels.value))
  {
    InvRun(input, ss, actions, i);
    assert StepAt(ss, actions, i);
  }

  /** Why a receive step may end the session. */
  ghost predicate Cause(s: Session, a: Action) {
    || s.writerFailed
    || (a.Read? && s.consumed >= |s.input|)
    || (a.Read? && s.consumed < |s.input| && (s.input[s.consumed].Oversized? || s.input[s.consumed].Broken?))
    || (a.Read? && s.consumed < |s.input| && s.input[s.consumed].Decoded? && s.input[s.consumed].message.Request?
        && ReserveFailure(s.admission, s.input[s.consumed].message.id) == Some(Duplicate))
    || (s.pc.Registered? && ReserveFailure(s.admission, s.pc.waiting.id) == Some(Duplicate))
    || (a.Permit? && !a.open)
    || (s.pendingError.Some? && (s.pendingError.value.reply.code == Refused(SessionLimit)
                                 || s.pendingError.value.reply.code == Refused(IdTooLong)))
  }

  /** The session ends only for one of those causes, and then for good. */
  lemma SessionEndsForACause(input: seq<Frame>, ss: seq<Session>, actions: seq<Action>, i: nat)
    requires Run(input, ss, actions) && i < |actions|
    ensures !ss[i].pc.Ended? && ss[i + 1].pc.Ended? ==> Cause(ss[i], actions[i])
    ensures ss[i].pc.Ended? ==> ss[i + 1].pc.Ended? && ss[i + 1].log == ss[i].log && ss[i + 1].consumed == ss[i].consumed
  {
    InvRun(input, ss, actions, i);
    assert StepAt(ss, actions, i);
  }

  // ------------------------------------------------------- one ID, two deliveries

  lemma LogGrowsByOne(s: Session, a: Action)
    requires Enabled(s, a)
    ensures s.log <= Apply(s, a).log && |Apply(s, a).log| <= |s.log| + 1
    ensures Handed(s, Apply(s, a)).Some? ==> a.Proceed? || a.Read?
  {
  }

  lemma RetryAdmits(s: Session, id: RequestId)
    requires Accounts(s) && s.pc.Registered? && Handed(s, AtRegistered(s, s.pc.waiting, s.pc.since)) == Some(id)
    ensures ReserveFailure(s.admission, id).None?
    ensures AtRegistered(s, s.pc.waiting, s.pc.since).admission == AfterReserve(s.admission, id)
  {
  }

  lemma DeliveredVerdict(family: F.FamilyState, a: State, m: Message)
    requires m.Request? && Verdict(family, a, m) == Deliver
    ensures ReserveFailure(a, m.id).None? && Prepared(family, a, m) == AfterReserve(a, m.id)
  {
  }

  /** A read that hands a request over read that request and found it deliverable. */
  lemma ReadHands(s: Session, id: RequestId)
    requires s.pc.WaitFrame? && Handed(s, AtFrame(s)) == Some(id)
    ensures s.consumed < |s.input| && s.input[s.consumed].Decoded?
    ensures var m := s.input[s.consumed].message;
            m.Request? && m.id == id && Verdict(s.family, s.admission, m) == Deliver
            && AtFrame(s).admission == Prepared(s.family, s.admission, m)
  {
  }

  lemma ReadAdmits(s: Session, id: RequestId)
    requires s.pc.WaitFrame? && Handed(s, AtFrame(s)) == Some(id)
    ensures ReserveFailure(s.admission, id).None? && AtFrame(s).admission == AfterReserve(s.admission, id)
  {
    ReadHands(s, id);
    DeliveredVerdict(s.family, s.admission, s.input[s.consumed].message);
  }

  lemma LoopTopHandsNothing(s: Session)
    ensures Handed(s, AtLoopTop(s)).None?
  {
  }

  /** Whoever is handed over was admitted in that step. */
  lemma HandedIsAdmitted(s: Session, a: Action, id: RequestId)
    requires Accounts(s) && Enabled(s, a) && Handed(s, Apply(s, a)) == Some(id)
    ensures ReserveFailure(s.admission, id).None? && Apply(s, a).admission == AfterReserve(s.admission, id)
  {
    LogGrowsByOne(s, a);
    if a.Read? { ReadAdmits(s, id); }
    else if s.pc.Registered? { RetryAdmits(s, id); }
    else { LoopTopHandsNothing(s); }
  }

  /** The step in which frame `x` was settled. */
  lemma {:induction false} SettlingStep(input: seq<Frame>, ss: seq<Session>, actions: seq<Action>, n: nat, x: nat) returns (i: nat)
    requires Run(input, ss, actions) && n < |ss| && x < |ss[n].log|
    ensures i < n && |ss[i].log| == x && |ss[i + 1].log| == x + 1 && ss[i + 1].log[x] == ss[n].log[x]
    decreases n
  {
    assert StepAt(ss, actions, n - 1);
    LogGrowsByOne(ss[n - 1], actions[n - 1]);
    if x < |ss[n - 1].log| { i := SettlingStep(input, ss, actions, n - 1, x); } else { i := n - 1; }
  }

  lemma ReadKeepsLegacy(s: Session)
    requires Enabled(s, Read) && s.admission.legacy
    ensures AtFrame(s).admission.legacy && s.admission.seen <= AtFrame(s).admission.seen
  {
  }

  lemma LegacySessionStays(s: Session, a: Action)
    requires Enabled(s, a) && s.admission.legacy
    ensures Apply(s, a).admission.legacy && s.admission.seen <= Apply(s, a).admission.seen
  {
    match a
    case Handler(e) => LegacyMemoryStep(s.admission, e);
    case Read => ReadKeepsLegacy(s);
    case _ =>
  }

  lemma {:induction false} LegacySessionRemembers(input: seq<Frame>, ss: seq<Session>, actions: seq<Action>, i: nat, j: nat)
    requires Run(input, ss, actions) && i <= j < |ss| && ss[i].admission.legacy
    ensures ss[j].admission.legacy && ss[i].admission.seen <= ss[j].admission.seen
    decreases j - i
  {
    if i < j {
      LegacySessionRemembers(input, ss, actions, i, j - 1);
      assert StepAt(ss, actions, j - 1);
      LegacySessionStays(ss[j - 1], actions[j - 1]);
    }
  }

  /** In step `k` the slot of `id` is released. */
  ghost predicate Releases(ss: seq<Session>, k: nat, id: RequestId) {
    k + 1 < |ss| && Slot(ss[k].admission, id).Some? && Slot(ss[k + 1].admission, id).None?
  }

  lemma {:induction false} ReleasedBetween(ss: seq<Session>, i: nat, j: nat, id: RequestId) returns (k: nat)
    requires i <= j < |ss| && Slot(ss[i].admission, id).Some? && Slot(ss[j].admission, id).None?
    ensures i <= k < j && Releases(ss, k, id)
    decreases j - i
  {
    if Slot(ss[i + 1].admission, id).None? { k := i; } else { k := ReleasedBetween(ss, i + 1, j, id); }
  }

  /** Frame `x` was delivered to the service as a request with this ID. */
  ghost predicate DeliveredAs(s: Session, x: nat, id: RequestId) {
    x < |s.log| && s.log[x].outcome.Delivered? && s.log[x].outcome.message.Request? && s.log[x].outcome.message.id == id
  }

  lemma DeliveryOf(input: seq<Frame>, ss: seq<Session>, actions: seq<Action>, n: nat, x: nat, id: RequestId) returns (i: nat)
    requires Run(input, ss, actions) && n < |ss| && DeliveredAs(ss[n], x, id)
    ensures i < n && |ss[i].log| == x && |ss[i + 1].log| == x + 1
    ensures ReserveFailure(ss[i].admission, id).None? && ss[i + 1].admission == AfterReserve(ss[i].admission, id)
  {
    i := SettlingStep(input, ss, actions, n, x);
    InvRun(input, ss, actions, i);
    assert StepAt(ss, actions, i);
    HandedIsAdmitted(ss[i], actions[i], id);
  }

  lemma LogsAreOrdered(input: seq<Frame>, ss: seq<Session>, actions: seq<Action>, i: nat, j: nat)
    requires Run(input, ss, actions) && i < |ss| && j < |ss| && |ss[i].log| < |ss[j].log|
    ensures i < j
  {
    if j <= i { OutcomesAreFinal(input, ss, actions, j, i); }
  }

  /**
   * Two request frames of a session that were delivered under one ID have a
   * release of that ID between them, and the earlier one was not delivered in
   * legacy mode: no ID is delivered twice within a legacy session.
   */
  lemma DeliveriesOfOneIdAreApart(input: seq<Frame>, ss: seq<Session>, actions: seq<Action>, n: nat, x: nat, y: nat, id: RequestId)
    returns (i: nat, j: nat, k: nat)
    requires Run(input, ss, actions) && n < |ss| && x < y && DeliveredAs(ss[n], x, id) && DeliveredAs(ss[n], y, id)
    ensures i < k < j < n && |ss[i].log| == x && |ss[i + 1].log| == x + 1 && |ss[j].log| == y && |ss[j + 1].log| == y + 1
    ensures Releases(ss, k, id) && !ss[i].admission.legacy
  {
    i := DeliveryOf(input, ss, actions, n, x, id);
    j := DeliveryOf(input, ss, actions, n, y, id);
    LogsAreOrdered(input, ss, actions, i, j + 1);
    k := ReleasedBetween(ss, i + 1, j, id);
    if ss[i].admission.legacy { LegacySessionRemembers(input, ss, actions, i + 1, j); }
  }

  // ------------------------------------------------------------ what a read does

  /** Step `i` reads a request: frame number `ss[i].consumed`. */
  ghost predicate ReadsRequest(input: seq<Frame>, ss: seq<Session>, actions: seq<Action>, i: nat) {
    && Run(input, ss, actions) && i < |actions| && actions[i].Read? && ss[i].consumed < |input|
    && input[ss[i].consumed].Decoded? && input[ss[i].consumed].message.Request?
  }

  function TheRequest(input: seq<Frame>, s: Session): Message
    requires s.consumed < |input| && input[s.consumed].Decoded? && input[s.consumed].message.Request?
  {
    input[s.consumed].message
  }

  /** After step `i` the frame it read is to be answered with this error, and the table is as it was. */
  ghost predicate IsRefused(ss: seq<Session>, i: nat, id: RequestId, code: ErrorCode, terminal: bool)
    requires i + 1 < |ss|
  {
    && ss[i + 1].pendingError == Some(Pending(ss[i].consumed, Reply(code, Some(id)), terminal))
    && ss[i + 1].admission.requests == ss[i].admission.requests && ss[i + 1].log == ss[i].log
  }

  /** The metadata rules of the modern family apply to this request. */
  predicate IsScreened(s: Session, m: Message) {
    m.Request? && s.family != F.Legacy && !m.method_.Initialize?
  }

  /**
   * Outside a legacy session a request other than Initialize and Ping is
   * refused for its metadata if and only if that is incomplete, and a Ping if
   * and only if it carries a version. In a legacy session, and for Initialize,
   * neither happens. A refusal leaves the table as it was.
   */
  lemma MetadataIsScreened(input: seq<Frame>, ss: seq<Session>, actions: seq<Action>, i: nat)
    requires ReadsRequest(input, ss, actions, i)
    ensures var m := TheRequest(input, ss[i]);
            && (IsRefused(ss, i, m.id, MetadataInvalid, false)
                <==> IsScreened(ss[i], m) && !m.method_.Ping? && !m.metadataComplete)
            && (IsRefused(ss, i, m.id, PingRemoved, false) <==> IsScreened(ss[i], m) && m.method_.Ping? && m.versioned)
            && (IsRefused(ss, i, m.id, MetadataInvalid, false) || IsRefused(ss, i, m.id, PingRemoved, false)
                ==> ss[i + 1].admission == ss[i].admission && ss[i + 1].notifications == ss[i].notifications)
  {
    InvRun(input, ss, actions, i);
    assert StepAt(ss, actions, i);
  }

  /** The request gets past the metadata rules. */
  predicate PassesScreening(s: Session, m: Message) {
    m.Request? && (IsScreened(s, m) ==> if m.method_.Ping? then !m.versioned else m.metadataComplete)
  }

  /** The ID is one the session has not used, at most 128 octets long. */
  predicate IsNewId(s: Session, id: RequestId) {
    && (id.Text? ==> |id.utf8| <= 128) && id !in s.admission.requests && (s.admission.legacy ==> id !in s.admission.seen)
  }

  /** A request that passes, with a new ID and with room for it, is delivered in the step that reads it. */
  lemma GoodRequestsAreDelivered(input: seq<Frame>, ss: seq<Session>, actions: seq<Action>, i: nat)
    requires ReadsRequest(input, ss, actions, i) && PassesScreening(ss[i], TheRequest(input, ss[i]))
    requires var m := TheRequest(input, ss[i]);
             IsNewId(ss[i], m.id) && |ss[i].admission.requests| < 32 && (ss[i].admission.legacy ==> |ss[i].admission.seen| < 8_192)
    ensures var m := TheRequest(input, ss[i]);
            && ss[i + 1].log == ss[i].log + [Settled(ss[i].consumed, Delivered(m))] && ss[i + 1].pc == Idle
            && Slot(ss[i + 1].admission, m.id) == Some(Admission.Request(Reserved, true, false))
  {
    InvRun(input, ss, actions, i);
    assert StepAt(ss, actions, i);
  }

  /** And what happens to one that passes otherwise: too long an ID, a used one, one still being cancelled, no room. */
  lemma OtherRequestsAreRefused(input: seq<Frame>, ss: seq<Session>, actions: seq<Action>, i: nat)
    requires ReadsRequest(input, ss, actions, i) && PassesScreening(ss[i], TheRequest(input, ss[i]))
    ensures var m, a := TheRequest(input, ss[i]), ss[i].admission;
            if m.id.Text? && |m.id.utf8| > 128 then IsRefused(ss, i, m.id, Refused(IdTooLong), true)
            else if a.legacy && m.id in a.seen then ss[i + 1].pc == Ended
            else if m.id in a.requests && !a.requests[m.id].cancelled then ss[i + 1].pc == Ended
            else if m.id in a.requests then
              ss[i + 1].awaitingRelease == Some(Waiting(ss[i].consumed, m, m.id, ss[i].now + 5_000)) && ss[i + 1].admission == a
            else if a.legacy && |a.seen| >= 8_192 then IsRefused(ss, i, m.id, Refused(SessionLimit), true)
            else if |a.requests| >= 32 then IsRefused(ss, i, m.id, Refused(Capacity), false)
            else ss[i + 1].log == ss[i].log + [Settled(ss[i].consumed, Delivered(m))]
  {
    InvRun(input, ss, actions, i);
    assert StepAt(ss, actions, i);
  }

  /** Frames that are no messages: two kinds are answered, one is ignored, two end the session. */
  lemma OddFramesAreHandled(input: seq<Frame>, ss: seq<Session>, actions: seq<Action>, i: nat)
    requires Run(input, ss, actions) && i < |actions| && actions[i].Read? && ss[i].consumed < |input|
    ensures var frame := ss[i].consumed;
            && ss[i + 1].consumed == frame + 1
            && (input[frame].ParseError? ==> ss[i + 1].pendingError == Some(Pending(frame, Reply(Parse, None), false)))
            && (input[frame].ProtocolError?
                ==> ss[i + 1].pendingError == Some(Pending(frame, Reply(Protocol, input[frame].id), false)))
            && (input[frame].IgnoredNotification? ==> ss[i + 1].log == ss[i].log + [Settled(frame, Ignored)])
            && (input[frame].Oversized? || input[frame].Broken? ==> ss[i + 1].pc == Ended)
            && (input[frame].Decoded? && input[frame].message.Other?
                ==> ss[i + 1].log == ss[i].log + [Settled(frame, Delivered(input[frame].message))])
  {
    InvRun(input, ss, actions, i);
    assert StepAt(ss, actions, i);
  }

  /** A waiting request is retried when it is woken, and refused as still being cancelled only after its deadline. */
  lemma WaitingRequestsAreRetried(input: seq<Frame>, ss: seq<Session>, actions: seq<Action>, i: nat)
    requires Run(input, ss, actions) && i < |actions| && actions[i].Proceed? && ss[i].pc.Registered?
    ensures var w, a, s' := ss[i].pc.waiting, ss[i].admission, ss[i + 1];
            if HeldByCancelled(a, w.id) && !(a.legacy && w.id in a.seen) && (w.id.Text? ==> |w.id.utf8| <= 128) then
              if ss[i].now < w.deadline then s'.pc.WaitRelease? && s'.awaitingRelease == Some(w) && s'.admission == a
              else s'.pendingError == Some(Pending(w.frame, Reply(Refused(CancelledInFlight), Some(w.id)), false))
            else if ReserveFailure(a, w.id).None? then s'.log == ss[i].log + [Settled(w.frame, Delivered(w.message))]
            else s'.pc.Ended? || s'.pendingError.Some?
  {
    InvRun(input, ss, actions, i);
    assert StepAt(ss, actions, i);
  }

  /** The loop head: first the waiting request, then the pending error, then the next frame. */
  lemma LoopHeadChooses(input: seq<Frame>, ss: seq<Session>, actions: seq<Action>, i: nat)
    requires Run(input, ss, actions) && i < |actions| && actions[i].Proceed? && ss[i].pc.LoopTop?
    ensures var s, s' := ss[i], ss[i + 1];
            if s.writerFailed then s'.pc == Ended
            else if s.awaitingRelease.Some? then s'.pc == Registered(s.awaitingRelease.value, s.notifications)
            else if s.pendingError.Some? then s'.pc == WaitPermit
            else s'.pc == WaitFrame
  {
    assert StepAt(ss, actions, i);
  }

  /** A permit sends the pending error, and ends the session only if that is terminal. */
  lemma PendingErrorsAreSent(input: seq<Frame>, ss: seq<Session>, actions: seq<Action>, i: nat)
    requires Run(input, ss, actions) && i < |actions| && actions[i] == Permit(true)
    ensures ss[i].pendingError.Some? && ss[i + 1].pendingError == None
    ensures var pending := ss[i].pendingError.value;
            && ss[i + 1].log == ss[i].log + [Settled(pending.frame, Answered(pending.reply))]
            && ss[i + 1].pc == if pending.terminal then Ended else LoopTop
  {
    InvRun(input, ss, actions, i);
    assert StepAt(ss, actions, i);
  }
}
