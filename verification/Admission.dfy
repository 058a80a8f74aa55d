/**
 * Bounded MCP request admission (`quarters-mcp/src/lifecycle.rs`): a
 * four-phase state machine per request ID behind one mutex, with capacity,
 * session-ID memory and cancellation.
 */
module Admission {
  import opened Base

  const MAX_IN_FLIGHT_REQUESTS: nat := 32
  const MAX_SESSION_REQUEST_IDS: nat := 8_192
  const MAX_REQUEST_ID_BYTES: nat := 128

  datatype RequestId = Number(value: int) | Text(utf8: bytes)

  datatype Phase = Reserved | Running | HandlerDone | ResponseStarted

  datatype Request = Request(phase: Phase, transportOwned: bool, cancelled: bool)

  datatype State = State(requests: map<RequestId, Request>, seen: set<RequestId>, legacy: bool)

  datatype Failure = Duplicate | CancelledInFlight | Capacity | SessionLimit | IdTooLong

  predicate IdIsValid(id: RequestId) {
    id.Text? ==> |id.utf8| <= MAX_REQUEST_ID_BYTES
  }

  // ------------------------------------------------------------ operations

  /** Why `reserve` would refuse `id`, in the order the checks are made. */
  function ReserveFailure(s: State, id: RequestId): Option<Failure> {
    if !IdIsValid(id) then Some(IdTooLong)
    else if s.legacy && id in s.seen then Some(Duplicate)
    else if id in s.requests then Some(if s.requests[id].cancelled then CancelledInFlight else Duplicate)
    else if s.legacy && |s.seen| >= MAX_SESSION_REQUEST_IDS then Some(SessionLimit)
    else if |s.requests| >= MAX_IN_FLIGHT_REQUESTS then Some(Capacity)
    else None
  }

  /** A legacy session remembers an ID as soon as capacity is the only question left. */
  function Remembered(s: State, id: RequestId, failure: Option<Failure>): set<RequestId> {
    if s.legacy && (failure.None? || failure.value == Capacity) then s.seen + {id} else s.seen
  }

  function AfterReserve(s: State, id: RequestId): State {
    var failure := ReserveFailure(s, id);
    State(if failure.None? then s.requests[id := Request(Reserved, true, false)] else s.requests,
          Remembered(s, id, failure), s.legacy)
  }

  /** Why `claim` would refuse `id`; a reserved request is always claimable once. */
  function ClaimFailure(s: State, id: RequestId): Option<Failure> {
    if id in s.requests then (if s.requests[id].phase == Reserved then None else Some(Duplicate))
    else ReserveFailure(s, id)
  }

  function AfterClaim(s: State, id: RequestId): State {
    if id in s.requests then
      if s.requests[id].phase == Reserved
      then s.(requests := s.requests[id := s.requests[id].(phase := Running)]) else s
    else
      var failure := ReserveFailure(s, id);
      State(if failure.None? then s.requests[id := Request(Running, false, false)] else s.requests,
            Remembered(s, id, failure), s.legacy)
  }

  function AfterStartResponse(s: State, id: RequestId): State {
    if id in s.requests then s.(requests := s.requests[id := s.requests[id].(phase := ResponseStarted)]) else s
  }

  function AfterFinishResponse(s: State, id: RequestId): State {
    s.(requests := s.requests - {id})
  }

  function AfterClose(s: State): State {
    State(map[], {}, false)
  }

  predicate CancelReleases(s: State, id: RequestId) {
    id in s.requests && (s.requests[id].phase == Reserved || s.requests[id].phase == HandlerDone)
  }

  function AfterCancel(s: State, id: RequestId): State {
    if id !in s.requests then s
    else if CancelReleases(s, id) then s.(requests := s.requests - {id})
    else s.(requests := s.requests[id := s.requests[id].(cancelled := true)])
  }

  function AfterEnterLegacy(s: State): State {
    s.(legacy := true, seen := s.seen + s.requests.Keys)
  }

  predicate HandlerReleases(s: State, id: RequestId) {
    id in s.requests
    && (!s.requests[id].transportOwned || (s.requests[id].cancelled && s.requests[id].phase != ResponseStarted))
  }

  /** `RequestGuard::drop`. */
  function AfterFinishHandler(s: State, id: RequestId): State {
    if id !in s.requests then s
    else if HandlerReleases(s, id) then s.(requests := s.requests - {id})
    else if s.requests[id].phase == ResponseStarted then s
    else s.(requests := s.requests[id := s.requests[id].(phase := HandlerDone)])
  }

  // ------------------------------------------------------------- the class

  /**
   * The shared admission object. `notifications` counts calls of
   * `Notify::notify_waiters`, which is all a waiter can observe.
   */
  class RequestAdmission {
    var requests: map<RequestId, Request>
    var seen: set<RequestId>
    var legacy: bool
    var notifications: nat

    constructor ()
      ensures View() == State(map[], {}, false) && notifications == 0
    {
      requests, seen, legacy, notifications := map[], {}, false, 0;
    }

    function View(): State
      reads this
    {
      State(requests, seen, legacy)
    }

    method Reserve(id: RequestId) returns (failure: Option<Failure>)
      modifies this
      ensures failure == ReserveFailure(old(View()), id) && View() == AfterReserve(old(View()), id)
      ensures notifications == old(notifications)
    {
      if id.Text? && |id.utf8| > MAX_REQUEST_ID_BYTES { return Some(IdTooLong); }
      if legacy && id in seen { return Some(Duplicate); }
      if id in requests {
        return Some(if requests[id].cancelled then CancelledInFlight else Duplicate);
      }
      if legacy && |seen| >= MAX_SESSION_REQUEST_IDS { return Some(SessionLimit); }
      if legacy { seen := seen + {id}; }
      if |requests| >= MAX_IN_FLIGHT_REQUESTS { return Some(Capacity); }
      requests := requests[id := Request(Reserved, true, false)];
      return None;
    }

    method Claim(id: RequestId) returns (failure: Option<Failure>)
      modifies this
      ensures failure == ClaimFailure(old(View()), id) && View() == AfterClaim(old(View()), id)
      ensures notifications == old(notifications)
    {
      if id in requests {
        if requests[id].phase != Reserved { return Some(Duplicate); }
        requests := requests[id := requests[id].(phase := Running)];
      } else {
        if id.Text? && |id.utf8| > MAX_REQUEST_ID_BYTES { return Some(IdTooLong); }
        if legacy && id in seen { return Some(Duplicate); }
        if legacy && |seen| >= MAX_SESSION_REQUEST_IDS { return Some(SessionLimit); }
        if legacy { seen := seen + {id}; }
        if |requests| >= MAX_IN_FLIGHT_REQUESTS { return Some(Capacity); }
        requests := requests[id := Request(Running, false, false)];
      }
      return None;
    }

    method StartResponse(id: RequestId)
      modifies this
      ensures View() == AfterStartResponse(old(View()), id) && notifications == old(notifications)
    {
      if id in requests { requests := requests[id := requests[id].(phase := ResponseStarted)]; }
    }

    method FinishResponse(id: RequestId)
      modifies this
      ensures View() == AfterFinishResponse(old(View()), id) && notifications == old(notifications) + 1
    {
      requests := requests - {id};
      notifications := notifications + 1;
    }

    method Close()
      modifies this
      ensures View() == AfterClose(old(View())) && notifications == old(notifications) + 1
    {
      requests, seen, legacy := map[], {}, false;
      notifications := notifications + 1;
    }

    method Cancel(id: RequestId)
      modifies this
      ensures View() == AfterCancel(old(View()), id)
      ensures notifications == old(notifications) + if CancelReleases(old(View()), id) then 1 else 0
    {
      if id in requests {
        var release := requests[id].phase == Reserved || requests[id].phase == HandlerDone;
        requests := requests[id := requests[id].(cancelled := true)];
        if release {
          requests := requests - {id};
          notifications := notifications + 1;
        }
      }
    }

    method EnterLegacy()
      modifies this
      ensures View() == AfterEnterLegacy(old(View())) && notifications == old(notifications)
    {
      legacy := true;
      seen := seen + requests.Keys;
    }

    method FinishHandler(id: RequestId)
      modifies this
      ensures View() == AfterFinishHandler(old(View()), id)
      ensures notifications == old(notifications) + if HandlerReleases(old(View()), id) then 1 else 0
    {
      if id in requests {
        var request := requests[id];
        var responseStarted := request.phase == ResponseStarted;
        if !responseStarted { requests := requests[id := request.(phase := HandlerDone)]; }
        if !request.transportOwned || (request.cancelled && !responseStarted) {
          requests := requests - {id};
          notifications := notifications + 1;
        }
      }
    }
  }

  // -------------------------------------------------------------- invariant

  /** What every reachable admission state satisfies. */
  ghost predicate Inv(s: State) {
    && |s.requests| <= MAX_IN_FLIGHT_REQUESTS
    && |s.seen| <= MAX_SESSION_REQUEST_IDS
    && (s.legacy ==> s.requests.Keys <= s.seen)
    && (!s.legacy ==> s.seen == {})
    && (forall id :: id in s.requests ==> Proper(s.requests[id]))
  }

  datatype Event =
    | EvReserve(id: RequestId)
    | EvClaim(id: RequestId)
    | EvGuardDrop(id: RequestId)
    | EvStartResponse(id: RequestId)
    | EvFinishResponse(id: RequestId)
    | EvCancel(id: RequestId)
    | EvEnterLegacy
    | EvClose

  function Apply(s: State, e: Event): State {
    match e
    case EvReserve(id) => AfterReserve(s, id)
    case EvClaim(id) => AfterClaim(s, id)
    case EvGuardDrop(id) => AfterFinishHandler(s, id)
    case EvStartResponse(id) => AfterStartResponse(s, id)
    case EvFinishResponse(id) => AfterFinishResponse(s, id)
    case EvCancel(id) => AfterCancel(s, id)
    case EvEnterLegacy => AfterEnterLegacy(s)
    case EvClose => AfterClose(s)
  }

  function Run(s: State, events: seq<Event>): State
    decreases |events|
  {
    if events == [] then s else Apply(Run(s, events[..|events| - 1]), events[|events| - 1])
  }

  const FRESH: State := State(map[], {}, false)

  lemma RemovalShrinks(m: map<RequestId, Request>, id: RequestId)
    ensures |m - {id}| <= |m| && (m - {id}).Keys == m.Keys - {id}
  {
    assert (m - {id}).Keys == m.Keys - {id};
    assert m.Keys - {id} <= m.Keys;
    SubsetCardinality(m.Keys - {id}, m.Keys);
  }

  lemma UpdateGrows(m: map<RequestId, Request>, id: RequestId, r: Request)
    ensures m[id := r].Keys == m.Keys + {id}
    ensures |m[id := r]| == if id in m then |m| else |m| + 1
  {
    assert m[id := r].Keys == m.Keys + {id};
    assert |m[id := r]| == |m[id := r].Keys| && |m| == |m.Keys|;
  }

  /** A phase a request may be in, given who owns it and whether it was cancelled. */
  predicate Proper(r: Request) {
    r.cancelled || !r.transportOwned ==> r.phase == Running || r.phase == ResponseStarted
  }

  lemma InvUpdate(s: State, id: RequestId, r: Request)
    requires Inv(s) && id in s.requests && Proper(r)
    ensures Inv(s.(requests := s.requests[id := r]))
  {
    UpdateGrows(s.requests, id, r);
  }

  lemma InvRemove(s: State, id: RequestId)
    requires Inv(s)
    ensures Inv(s.(requests := s.requests - {id}))
  {
    RemovalShrinks(s.requests, id);
  }

  lemma InvAdmit(s: State, id: RequestId, r: Request)
    requires Inv(s) && id !in s.requests && Proper(r)
    ensures var failure := ReserveFailure(s, id);
            Inv(State(if failure.None? then s.requests[id := r] else s.requests, Remembered(s, id, failure), s.legacy))
  {
    UpdateGrows(s.requests, id, r);
  }

  lemma InvReserve(s: State, id: RequestId)
    requires Inv(s)
    ensures Inv(AfterReserve(s, id))
  {
    if id !in s.requests { InvAdmit(s, id, Request(Reserved, true, false)); }
  }

  lemma InvClaim(s: State, id: RequestId)
    requires Inv(s)
    ensures Inv(AfterClaim(s, id))
  {
    if id !in s.requests { InvAdmit(s, id, Request(Running, false, false)); }
    else if s.requests[id].phase == Reserved { InvUpdate(s, id, s.requests[id].(phase := Running)); }
  }

  lemma InvFinishHandler(s: State, id: RequestId)
    requires Inv(s)
    ensures Inv(AfterFinishHandler(s, id))
  {
    if HandlerReleases(s, id) { InvRemove(s, id); }
    else if id in s.requests && s.requests[id].phase != ResponseStarted {
      InvUpdate(s, id, s.requests[id].(phase := HandlerDone));
    }
  }

  lemma InvCancel(s: State, id: RequestId)
    requires Inv(s)
    ensures Inv(AfterCancel(s, id))
  {
    if CancelReleases(s, id) { InvRemove(s, id); }
    else if id in s.requests { InvUpdate(s, id, s.requests[id].(cancelled := true)); }
  }

  lemma InvStep(s: State, e: Event)
    requires Inv(s)
    ensures Inv(Apply(s, e))
  {
    match e
    case EvReserve(id) => InvReserve(s, id);
    case EvClaim(id) => InvClaim(s, id);
    case EvGuardDrop(id) => InvFinishHandler(s, id);
    case EvStartResponse(id) =>
      if id in s.requests { InvUpdate(s, id, s.requests[id].(phase := ResponseStarted)); }
    case EvFinishResponse(id) => InvRemove(s, id);
    case EvCancel(id) => InvCancel(s, id);
    case EvEnterLegacy =>
      assert s.seen + s.requests.Keys == if s.legacy then s.seen else s.requests.Keys;
    case EvClose =>
  }

  /** Every state reached by any interleaving of operations is within bounds. */
  lemma {:induction false} InvRun(events: seq<Event>)
    ensures Inv(Run(FRESH, events))
    ensures |Run(FRESH, events).requests| <= 32 && |Run(FRESH, events).seen| <= 8_192
    decreases |events|
  {
    if events != [] {
      InvRun(events[..|events| - 1]);
      InvStep(Run(FRESH, events[..|events| - 1]), events[|events| - 1]);
    }
  }

  // ----------------------------------------------------- one slot at a time

  function Slot(s: State, id: RequestId): Option<Request> {
    if id in s.requests then Some(s.requests[id]) else None
  }

  predicate Concerns(e: Event, id: RequestId) {
    e.EvClose? || (!e.EvEnterLegacy? && e.id == id)
  }

  /** No operation except `close` touches another request's slot. */
  lemma OtherSlotsUntouched(s: State, e: Event, id: RequestId)
    requires !Concerns(e, id)
    ensures Slot(Apply(s, e), id) == Slot(s, id)
  {
  }

  /** Whether this event admits a new request; capacity and memory decide, so the whole state is needed. */
  predicate Admits(s: State, e: Event) {
    match e
    case EvReserve(id) => ReserveFailure(s, id).None?
    case EvClaim(id) => id !in s.requests && ReserveFailure(s, id).None?
    case _ => false
  }

  /** The life of one slot, given only whether each event admitted a request. */
  function SlotStep(slot: Option<Request>, e: Event, admits: bool): Option<Request> {
    match e
    case EvReserve(_) => if admits then Some(Request(Reserved, true, false)) else slot
    case EvClaim(_) =>
      if admits then Some(Request(Running, false, false))
      else if slot.Some? && slot.value.phase == Reserved then Some(slot.value.(phase := Running)) else slot
    case EvGuardDrop(_) =>
      if slot.None? then None
      else if !slot.value.transportOwned || (slot.value.cancelled && slot.value.phase != ResponseStarted) then None
      else if slot.value.phase == ResponseStarted then slot else Some(slot.value.(phase := HandlerDone))
    case EvStartResponse(_) => if slot.Some? then Some(slot.value.(phase := ResponseStarted)) else None
    case EvFinishResponse(_) => None
    case EvCancel(_) =>
      if slot.None? || slot.value.phase == Reserved || slot.value.phase == HandlerDone then None
      else Some(slot.value.(cancelled := true))
    case EvEnterLegacy => slot
    case EvClose => None
  }

  datatype Entry = Entry(event: Event, admits: bool)

  /** The events that concern `id`, each with its admission outcome. */
  function Projection(s: State, events: seq<Event>, id: RequestId): seq<Entry>
    decreases |events|
  {
    if events == [] then []
    else
      var front, last := events[..|events| - 1], events[|events| - 1];
      Projection(s, front, id) + if Concerns(last, id) then [Entry(last, Admits(Run(s, front), last))] else []
  }

  function SlotRun(slot: Option<Request>, entries: seq<Entry>): Option<Request>
    decreases |entries|
  {
    if entries == [] then slot
    else SlotStep(SlotRun(slot, entries[..|entries| - 1]), entries[|entries| - 1].event, entries[|entries| - 1].admits)
  }

  lemma SlotRunMore(slot: Option<Request>, entries: seq<Entry>, entry: Entry)
    ensures SlotRun(slot, entries + [entry]) == SlotStep(SlotRun(slot, entries), entry.event, entry.admits)
  {
    assert (entries + [entry])[..|entries|] == entries;
  }

  lemma SlotFollows(s: State, e: Event, id: RequestId)
    requires Concerns(e, id)
    ensures Slot(Apply(s, e), id) == SlotStep(Slot(s, id), e, Admits(s, e))
  {
  }

  /**
   * The shared table is a product of independent slots: under any
   * interleaving, a slot depends only on its own events and their admissions.
   */
  lemma {:induction false} TableIsAProductOfSlots(s: State, events: seq<Event>, id: RequestId)
    ensures Slot(Run(s, events), id) == SlotRun(Slot(s, id), Projection(s, events, id))
    decreases |events|
  {
    if events != [] {
      var front, last := events[..|events| - 1], events[|events| - 1];
      TableIsAProductOfSlots(s, front, id);
      if Concerns(last, id) {
        SlotRunMore(Slot(s, id), Projection(s, front, id), Entry(last, Admits(Run(s, front), last)));
        SlotFollows(Run(s, front), last, id);
      } else {
        OtherSlotsUntouched(Run(s, front), last, id);
        assert Projection(s, front, id) + [] == Projection(s, front, id);
      }
    }
  }

  // ----------------------------------------------------------- slot lifetime

  /** What can happen to one admitted request. */
  datatype Happening = HClaim | HGuardDrop | HStart | HFinish | HCancel

  function AsEvent(h: Happening, id: RequestId): Event {
    match h
    case HClaim => EvClaim(id)
    case HGuardDrop => EvGuardDrop(id)
    case HStart => EvStartResponse(id)
    case HFinish => EvFinishResponse(id)
    case HCancel => EvCancel(id)
  }

  /** One slot through a lifetime: no later event admits the ID again. */
  function Live(slot: Option<Request>, hs: seq<Happening>): Option<Request>
    decreases |hs|
  {
    if hs == [] then slot
    else SlotStep(Live(slot, hs[..|hs| - 1]), AsEvent(hs[|hs| - 1], Number(0)), false)
  }

  lemma LiveMore(slot: Option<Request>, hs: seq<Happening>, h: Happening)
    ensures Live(slot, hs + [h]) == SlotStep(Live(slot, hs), AsEvent(h, Number(0)), false)
  {
    assert (hs + [h])[..|hs|] == hs;
  }

  /** `h` happened before any response was started. */
  ghost predicate Before(hs: seq<Happening>, i: nat, h: Happening) {
    i < |hs| && hs[i] == h && HStart !in hs[..i]
  }

  /** The request was cancelled before answering, while no handler ran or with the handler ending unanswered. */
  ghost predicate GivenUp(hs: seq<Happening>) {
    exists c: nat :: Before(hs, c, HCancel) && (HClaim !in hs[..c] || exists d: nat :: Before(hs, d, HGuardDrop))
  }

  lemma BeforeExtends(hs: seq<Happening>, h: Happening, i: nat, kind: Happening)
    ensures Before(hs + [h], i, kind) <==> Before(hs, i, kind) || (i == |hs| && h == kind && HStart !in hs)
  {
    if i < |hs| { assert (hs + [h])[..i] == hs[..i]; }
    if i == |hs| { assert (hs + [h])[..i] == hs; }
  }

  lemma GivenUpPersists(hs: seq<Happening>, h: Happening)
    requires GivenUp(hs)
    ensures GivenUp(hs + [h])
  {
    var c: nat :| Before(hs, c, HCancel) && (HClaim !in hs[..c] || exists d: nat :: Before(hs, d, HGuardDrop));
    BeforeExtends(hs, h, c, HCancel);
    assert (hs + [h])[..c] == hs[..c];
    if HClaim in hs[..c] {
      var d: nat :| Before(hs, d, HGuardDrop);
      BeforeExtends(hs, h, d, HGuardDrop);
    }
  }

  lemma GivenUpBefore(hs: seq<Happening>, h: Happening)
    requires GivenUp(hs + [h]) && !GivenUp(hs)
    ensures HStart !in hs
    ensures (h == HCancel && (HClaim !in hs || HGuardDrop in hs)) || (h == HGuardDrop && HCancel in hs)
  {
    var all := hs + [h];
    var c: nat :| Before(all, c, HCancel) && (HClaim !in all[..c] || exists d: nat :: Before(all, d, HGuardDrop));
    BeforeExtends(hs, h, c, HCancel);
    if c == |hs| {
      assert all[..c] == hs;
      if HClaim in hs {
        var d: nat :| Before(all, d, HGuardDrop);
        BeforeExtends(hs, h, d, HGuardDrop);
      }
    } else {
      assert all[..c] == hs[..c];
      assert HClaim in hs[..c];
      var d: nat :| Before(all, d, HGuardDrop);
      BeforeExtends(hs, h, d, HGuardDrop);
      assert d == |hs|;
    }
  }

  lemma GivenUpNow(hs: seq<Happening>, h: Happening)
    requires HStart !in hs
    requires (h == HCancel && (HClaim !in hs || HGuardDrop in hs)) || (h == HGuardDrop && HCancel in hs)
    ensures GivenUp(hs + [h])
  {
    var all := hs + [h];
    assert all[..|hs|] == hs;
    BeforeExtends(hs, h, |hs|, h);
    if h == HCancel {
      if HClaim in hs {
        var d: nat :| d < |hs| && hs[d] == HGuardDrop;
        assert Before(hs, d, HGuardDrop);
        BeforeExtends(hs, h, d, HGuardDrop);
      }
    } else {
      var c: nat :| c < |hs| && hs[c] == HCancel;
      assert Before(hs, c, HCancel);
      BeforeExtends(hs, h, c, HCancel);
    }
  }

  /** While a reserved request keeps its slot, its phase and flags tell exactly what happened to it. */
  ghost predicate Telling(r: Request, hs: seq<Happening>) {
    && r.transportOwned
    && (r.phase == ResponseStarted <==> HStart in hs)
    && (HStart !in hs ==> r.phase == if HGuardDrop in hs then HandlerDone else if HClaim in hs then Running else Reserved)
    && (r.cancelled <==> HCancel in hs)
  }

  /** This happening is the one by which the request is given up. */
  ghost predicate GivesUp(hs: seq<Happening>, h: Happening) {
    HStart !in hs && ((h == HCancel && (HClaim !in hs || HGuardDrop in hs)) || (h == HGuardDrop && HCancel in hs))
  }

  lemma GivenUpMore(hs: seq<Happening>, h: Happening)
    ensures GivenUp(hs + [h]) <==> GivenUp(hs) || GivesUp(hs, h)
  {
    if GivenUp(hs) { GivenUpPersists(hs, h); }
    else if GivenUp(hs + [h]) { GivenUpBefore(hs, h); }
    else if GivesUp(hs, h) { GivenUpNow(hs, h); }
  }

  /** The slot of a reserved request after this history. */
  ghost predicate HeldRightly(slot: Option<Request>, hs: seq<Happening>) {
    (slot.Some? <==> HFinish !in hs && !GivenUp(hs)) && (slot.Some? ==> Telling(slot.value, hs))
  }

  lemma HeldRightlyMore(slot: Option<Request>, hs: seq<Happening>, h: Happening)
    requires HeldRightly(slot, hs)
    ensures HeldRightly(SlotStep(slot, AsEvent(h, Number(0)), false), hs + [h])
  {
    GivenUpMore(hs, h);
  }

  /**
   * Slot leak freedom, exactly: a reserved request holds its slot until its
   * response has been written, unless it was given up before that response
   * was started; then, and only then, the slot is released early.
   */
  lemma {:induction false} ReservedSlotIsHeldExactlyWhile(hs: seq<Happening>)
    ensures var slot := Live(Some(Request(Reserved, true, false)), hs);
            && (slot.Some? <==> HFinish !in hs && !GivenUp(hs))
            && (slot.Some? ==> Telling(slot.value, hs))
    decreases |hs|
  {
    var first := Some(Request(Reserved, true, false));
    if hs != [] {
      var front, h := hs[..|hs| - 1], hs[|hs| - 1];
      assert hs == front + [h];
      ReservedSlotIsHeldExactlyWhile(front);
      assert HeldRightly(Live(first, front), front);
      HeldRightlyMore(Live(first, front), front, h);
      LiveMore(first, front, h);
    }
  }

  /** A request claimed without a reservation is held until its handler ends, answered or not. */
  lemma {:induction false} ClaimedSlotIsHeldExactlyWhile(hs: seq<Happening>)
    ensures var slot := Live(Some(Request(Running, false, false)), hs);
            && (slot.Some? <==> HFinish !in hs && HGuardDrop !in hs)
            && (slot.Some? ==> !slot.value.transportOwned && (slot.value.phase == Running || slot.value.phase == ResponseStarted))
    decreases |hs|
  {
    if hs != [] {
      assert hs == hs[..|hs| - 1] + [hs[|hs| - 1]];
      ClaimedSlotIsHeldExactlyWhile(hs[..|hs| - 1]);
    }
  }

  /** What one event means to `id`; a refused reservation means nothing to the slot. */
  function HappeningOf(e: Event, id: RequestId): Option<Happening> {
    if !Concerns(e, id) then None
    else match e
      case EvClaim(_) => Some(HClaim)
      case EvGuardDrop(_) => Some(HGuardDrop)
      case EvStartResponse(_) => Some(HStart)
      case EvFinishResponse(_) => Some(HFinish)
      case EvCancel(_) => Some(HCancel)
      case _ => None
  }

  function Happenings(events: seq<Event>, id: RequestId): seq<Happening>
    decreases |events|
  {
    if events == [] then []
    else
      var h := HappeningOf(events[|events| - 1], id);
      Happenings(events[..|events| - 1], id) + if h.Some? then [h.value] else []
  }

  lemma SlotAfter(s: State, e: Event, id: RequestId)
    requires !e.EvClose? && (Concerns(e, id) ==> !Admits(s, e))
    ensures var h := HappeningOf(e, id);
            Slot(Apply(s, e), id)
            == if h.Some? then SlotStep(Slot(s, id), AsEvent(h.value, Number(0)), false) else Slot(s, id)
  {
    if !Concerns(e, id) { OtherSlotsUntouched(s, e, id); }
  }

  /** The session goes on, and `id` is not admitted a second time. */
  ghost predicate OneLifetime(s: State, events: seq<Event>, id: RequestId)
    decreases |events|
  {
    events == []
    || (var front, last := events[..|events| - 1], events[|events| - 1];
        OneLifetime(s, front, id) && !last.EvClose? && (Concerns(last, id) ==> !Admits(Run(s, front), last)))
  }

  lemma {:induction false} LifetimeOfASlot(s: State, events: seq<Event>, id: RequestId)
    requires OneLifetime(s, events, id)
    ensures Slot(Run(s, events), id) == Live(Slot(s, id), Happenings(events, id))
    decreases |events|
  {
    if events != [] {
      var front, last := events[..|events| - 1], events[|events| - 1];
      LifetimeOfASlot(s, front, id);
      SlotAfter(Run(s, front), last, id);
      var hs, h := Happenings(front, id), HappeningOf(last, id);
      if h.Some? {
        LiveMore(Slot(s, id), hs, h.value);
      } else {
        assert hs + [] == hs;
      }
    }
  }

  /**
   * Slot leak freedom in the shared table: whatever other requests do in
   * between, an admitted request holds a slot exactly until it is answered or
   * given up.
   */
  lemma SlotLeakFreedom(s: State, id: RequestId, later: seq<Event>)
    requires ReserveFailure(s, id).None? && OneLifetime(AfterReserve(s, id), later, id)
    ensures var hs := Happenings(later, id);
            id in Run(AfterReserve(s, id), later).requests <==> HFinish !in hs && !GivenUp(hs)
  {
    LifetimeOfASlot(AfterReserve(s, id), later, id);
    ReservedSlotIsHeldExactlyWhile(Happenings(later, id));
  }

  // ---------------------------------------------------- legacy identifiers

  lemma LegacyMemoryStep(s: State, e: Event)
    requires s.legacy && e != EvClose
    ensures Apply(s, e).legacy && s.seen <= Apply(s, e).seen
  {
  }

  lemma {:induction false} LegacyMemoryGrows(s: State, events: seq<Event>)
    requires s.legacy && EvClose !in events
    ensures Run(s, events).legacy && s.seen <= Run(s, events).seen
    decreases |events|
  {
    if events != [] {
      var front, last := events[..|events| - 1], events[|events| - 1];
      assert events == front + [last];
      LegacyMemoryGrows(s, front);
      LegacyMemoryStep(Run(s, front), last);
    }
  }

  /**
   * Within a legacy session an ID is used up by its first admission, and also
   * by an attempt that failed for capacity alone: until the session closes it
   * is refused as a duplicate, whatever happened to the first request.
   */
  lemma LegacyIdsAreNeverReused(s: State, id: RequestId, later: seq<Event>)
    requires s.legacy && EvClose !in later
    requires ReserveFailure(s, id) == None || ReserveFailure(s, id) == Some(Capacity)
    ensures var s' := Run(AfterReserve(s, id), later);
            && ReserveFailure(s', id) == Some(Duplicate)
            && (id !in s'.requests ==> ClaimFailure(s', id) == Some(Duplicate))
            && !Admits(s', EvReserve(id)) && !Admits(s', EvClaim(id))
  {
    LegacyMemoryGrows(AfterReserve(s, id), later);
  }

  /** Requests already live when the session turns legacy are counted as used too. */
  lemma LiveIdsAreUsedByLegacy(s: State, id: RequestId, later: seq<Event>)
    requires Inv(s) && id in s.requests && IdIsValid(id) && EvClose !in later
    ensures ReserveFailure(Run(AfterEnterLegacy(s), later), id) == Some(Duplicate)
  {
    LegacyMemoryGrows(AfterEnterLegacy(s), later);
  }

  // -------------------------------------------------------- who claims a slot
  //
  // Handlers claim by ID alone. A request that is cancelled before its handler
  // starts gives its ID back, and a later request may reserve it again.

  predicate IsReserved(slot: Option<Request>) {
    slot.Some? && slot.value.phase == Reserved
  }

  /** The event that made the reservation which is still waiting for its handler. */
  ghost function Reserver(s: State, events: seq<Event>, id: RequestId): Option<nat>
    decreases |events|
  {
    if events == [] then None
    else
      var front, last := events[..|events| - 1], events[|events| - 1];
      if last == EvReserve(id) && Admits(Run(s, front), last) then Some(|front|)
      else if IsReserved(Slot(Run(s, events), id)) then Reserver(s, front, id)
      else None
  }

  /** Nothing happens to the reservation but refused attempts to reserve the ID again. */
  ghost predicate LeftAlone(events: seq<Event>, r: nat, id: RequestId) {
    forall k :: r < k < |events| && Concerns(events[k], id) ==> events[k].EvReserve?
  }

  /** What one event does to a waiting reservation. */
  lemma ReservationStep(s: State, e: Event, id: RequestId)
    requires IsReserved(Slot(s, id))
    ensures !Admits(s, e) || e.id != id
    ensures IsReserved(Slot(Apply(s, e), id)) <==> (Concerns(e, id) ==> e.EvReserve?)
  {
    if !Concerns(e, id) { OtherSlotsUntouched(s, e, id); }
  }

  lemma AdmissionReserves(s: State, id: RequestId)
    requires Admits(s, EvReserve(id))
    ensures IsReserved(Slot(Apply(s, EvReserve(id)), id))
  {
  }

  lemma {:induction false} ReserverHolds(s: State, events: seq<Event>, id: RequestId)
    requires Reserver(s, events, id).Some?
    ensures Reserver(s, events, id).value < |events| && IsReserved(Slot(Run(s, events), id))
    decreases |events|
  {
    var front, last := events[..|events| - 1], events[|events| - 1];
    if last == EvReserve(id) && Admits(Run(s, front), last) { AdmissionReserves(Run(s, front), id); }
    else { ReserverHolds(s, front, id); }
  }

  /**
   * A claim takes the reservation that is waiting. That is the reservation
   * made by event `r`, so that a delivered request's own handler claims its
   * slot, if and only if its claim is the first thing to happen to the ID
   * since: no other handler claimed it and nobody cancelled it.
   */
  lemma {:induction false} OwnReservationWaitsExactlyWhile(s: State, events: seq<Event>, r: nat, id: RequestId)
    requires r < |events| && events[r] == EvReserve(id) && Admits(Run(s, events[..r]), events[r])
    ensures Reserver(s, events, id) == Some(r) <==> LeftAlone(events, r, id)
    decreases |events|
  {
    var front, last := events[..|events| - 1], events[|events| - 1];
    if r < |front| {
      assert front[..r] == events[..r];
      OwnReservationWaitsExactlyWhile(s, front, r, id);
      LeftAloneMore(events, r, id);
      if Reserver(s, front, id) == Some(r) {
        ReserverHolds(s, front, id);
        ReservationStep(Run(s, front), last, id);
      }
    } else {
      assert front == events[..r];
    }
  }

  lemma LeftAloneMore(events: seq<Event>, r: nat, id: RequestId)
    requires r < |events| - 1
    ensures var front, last := events[..|events| - 1], events[|events| - 1];
            LeftAlone(events, r, id) <==> LeftAlone(front, r, id) && (Concerns(last, id) ==> last.EvReserve?)
  {
    var front := events[..|events| - 1];
    assert forall k :: r < k < |front| ==> front[k] == events[k];
  }

  /** The claim that takes a waiting reservation succeeds, and the next one is refused. */
  lemma ClaimTakesTheWaitingReservation(s: State, events: seq<Event>, id: RequestId)
    requires Reserver(s, events, id).Some?
    ensures ClaimFailure(Run(s, events), id) == None
    ensures Slot(AfterClaim(Run(s, events), id), id) == Some(Slot(Run(s, events), id).value.(phase := Running))
    ensures ClaimFailure(AfterClaim(Run(s, events), id), id) == Some(Duplicate)
  {
    ReserverHolds(s, events, id);
  }

  /**
   * Outside a legacy session that condition can fail, from any state that
   * admits the ID: the first request is cancelled before its handler starts,
   * a second one reserves the ID, the first handler's late claim takes that
   * reservation, and the second handler is refused.
   */
  lemma LateClaimTakesTheNextReservation(s: State, id: RequestId)
    requires !s.legacy && ReserveFailure(s, id) == None
    ensures var events := [EvReserve(id), EvCancel(id), EvReserve(id)];
            && Reserver(s, events, id) == Some(2)
            && ClaimFailure(AfterClaim(Run(s, events), id), id) == Some(Duplicate)
  {
    var first, cancelled := [EvReserve(id)], [EvReserve(id), EvCancel(id)];
    var events := [EvReserve(id), EvCancel(id), EvReserve(id)];
    assert first[..0] == [] && cancelled[..1] == first && events[..2] == cancelled;
    assert Run(s, first) == AfterReserve(s, id);
    assert Run(s, cancelled) == s by {
      assert s.requests[id := Request(Reserved, true, false)] - {id} == s.requests;
    }
    assert Admits(Run(s, cancelled), EvReserve(id));
    ClaimTakesTheWaitingReservation(s, events, id);
  }
}
