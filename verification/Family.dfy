/**
 * The two MCP lifecycle families and the automaton that keeps one connection
 * in exactly one of them (`quarters-mcp/src/lifecycle.rs`).
 */
module Family {
  import opened Base
  import opened Admission

  datatype Version = V2025_11_25 | V2026_07_28 | Foreign(number: nat)

  datatype Method =
    | Initialize | Ping | Subscribe | Unsubscribe
    | Discover | SubscriptionsListen | GetTask | UpdateTask | CancelTask
    | Common(number: nat)

  /** A decoded request: its method, and the version its metadata asks for, if any. */
  datatype Request = Request(method_: Method, version: Option<Version>)

  datatype FamilyState = Unopened | Modern | Legacy

  datatype Refusal = MethodNotFound(expected: Version) | UnsupportedVersion(requested: Version, expected: Version)

  function ExpectedVersion(state: FamilyState, openingLegacy: bool): Version {
    match state
    case Unopened => if openingLegacy then V2025_11_25 else V2026_07_28
    case Legacy => V2025_11_25
    case Modern => V2026_07_28
  }

  predicate ModernOnly(m: Method) {
    m.Discover? || m.SubscriptionsListen? || m.GetTask? || m.UpdateTask? || m.CancelTask?
  }

  predicate LegacyOnly(m: Method) {
    m.Ping? || m.Subscribe? || m.Unsubscribe?
  }

  predicate CrossesFamily(m: Method, state: FamilyState, expected: Version) {
    (state != Unopened && m == Initialize) || (if expected == V2025_11_25 then ModernOnly(m) else LegacyOnly(m))
  }

  /** Why `validate` refuses a request in this state. */
  function RefusalOf(state: FamilyState, r: Request): Option<Refusal> {
    var expected := ExpectedVersion(state, r.method_ == Initialize);
    if CrossesFamily(r.method_, state, expected) then Some(MethodNotFound(expected))
    else if r.version.Some? && r.version.value != expected then Some(UnsupportedVersion(r.version.value, expected))
    else None
  }

  function Opened(state: FamilyState, r: Request): FamilyState {
    if RefusalOf(state, r).Some? then state
    else if r.method_ == Initialize then Legacy
    else if state == Unopened then Modern else state
  }

  class ProtocolFamily {
    var state: FamilyState

    constructor ()
      ensures state == Unopened
    {
      state := Unopened;
    }

    /** `validate`: decide, and open the family and the legacy session together. */
    method Validate(request: Request, admission: RequestAdmission) returns (refusal: Option<Refusal>)
      modifies this, admission
      ensures refusal == RefusalOf(old(state), request) && state == Opened(old(state), request)
      ensures admission.View() == if refusal.None? && request.method_ == Initialize
                                  then AfterEnterLegacy(old(admission.View())) else old(admission.View())
      ensures old(state == Legacy <==> admission.legacy) ==> (state == Legacy <==> admission.legacy)
    {
      var openingLegacy := request.method_ == Initialize;
      var expected := ExpectedVersion(state, openingLegacy);
      if state != Unopened && openingLegacy { return Some(MethodNotFound(expected)); }
      var crossFamily := if expected == V2025_11_25 then ModernOnly(request.method_) else LegacyOnly(request.method_);
      if crossFamily { return Some(MethodNotFound(expected)); }
      if request.version.Some? && request.version.value != expected {
        return Some(UnsupportedVersion(request.version.value, expected));
      }
      if openingLegacy {
        admission.EnterLegacy();
        state := Legacy;
      } else if state == Unopened {
        state := Modern;
      }
      return None;
    }
  }

  // -------------------------------------------------------- accepted languages

  function After(state: FamilyState, requests: seq<Request>): FamilyState
    decreases |requests|
  {
    if requests == [] then state else After(Opened(state, requests[0]), requests[1..])
  }

  predicate AllAccepted(state: FamilyState, requests: seq<Request>)
    decreases |requests|
  {
    requests == [] || (RefusalOf(state, requests[0]).None? && AllAccepted(Opened(state, requests[0]), requests[1..]))
  }

  /** The requests of a stream that were accepted, in order. */
  function Accepted(state: FamilyState, requests: seq<Request>): seq<Request>
    decreases |requests|
  {
    if requests == [] then []
    else (if RefusalOf(state, requests[0]).None? then [requests[0]] else [])
         + Accepted(Opened(state, requests[0]), requests[1..])
  }

  predicate Speaks(r: Request, version: Version) {
    r.version == None || r.version == Some(version)
  }

  predicate LegacyFollowUp(r: Request) {
    && !r.method_.Initialize? && !r.method_.Discover? && !r.method_.SubscriptionsListen? && !r.method_.GetTask?
    && !r.method_.UpdateTask? && !r.method_.CancelTask? && Speaks(r, V2025_11_25)
  }

  predicate ModernRequest(r: Request) {
    && !r.method_.Initialize? && !r.method_.Ping? && !r.method_.Subscribe? && !r.method_.Unsubscribe?
    && Speaks(r, V2026_07_28)
  }

  /** One Initialize, then anything that is neither Initialize nor modern-only. */
  predicate LegacyLanguage(requests: seq<Request>) {
    |requests| > 0 && requests[0].method_ == Initialize && Speaks(requests[0], V2025_11_25)
    && forall i :: 1 <= i < |requests| ==> LegacyFollowUp(requests[i])
  }

  /** No Initialize, Ping, Subscribe or Unsubscribe at all. */
  predicate ModernLanguage(requests: seq<Request>) {
    forall i :: 0 <= i < |requests| ==> ModernRequest(requests[i])
  }

  lemma {:induction false} LegacyTail(requests: seq<Request>)
    ensures AllAccepted(Legacy, requests) <==> forall i :: 0 <= i < |requests| ==> LegacyFollowUp(requests[i])
    decreases |requests|
  {
    if requests != [] {
      LegacyTail(requests[1..]);
      assert requests == [requests[0]] + requests[1..];
      assert RefusalOf(Legacy, requests[0]).None? <==> LegacyFollowUp(requests[0]);
    }
  }

  lemma {:induction false} ModernTail(requests: seq<Request>)
    ensures AllAccepted(Modern, requests) <==> ModernLanguage(requests)
    decreases |requests|
  {
    if requests != [] {
      ModernTail(requests[1..]);
      assert requests == [requests[0]] + requests[1..];
      assert RefusalOf(Modern, requests[0]).None? <==> ModernRequest(requests[0]);
    }
  }

  /** A stream is accepted throughout exactly when it is in one of the two languages. */
  lemma AcceptedLanguages(requests: seq<Request>)
    ensures AllAccepted(Unopened, requests) <==> LegacyLanguage(requests) || ModernLanguage(requests)
  {
    if requests != [] {
      var first, rest := requests[0], requests[1..];
      assert requests == [first] + rest;
      LegacyTail(rest);
      ModernTail(rest);
      if first.method_ == Initialize {
        assert (forall i :: 0 <= i < |rest| ==> LegacyFollowUp(rest[i]))
           <==> (forall i :: 1 <= i < |requests| ==> LegacyFollowUp(requests[i])) by {
          assert forall i :: 1 <= i < |requests| ==> requests[i] == rest[i - 1];
          assert forall i :: 0 <= i < |rest| ==> rest[i] == requests[i + 1];
        }
      } else {
        assert RefusalOf(Unopened, first).None? <==> ModernRequest(first);
      }
    }
  }

  /** A refused request leaves no trace, so the accepted part of any stream is itself accepted throughout. */
  lemma {:induction false} AcceptedPartIsAccepted(state: FamilyState, requests: seq<Request>)
    ensures AllAccepted(state, Accepted(state, requests))
    ensures After(state, Accepted(state, requests)) == After(state, requests)
    decreases |requests|
  {
    if requests != [] {
      var first, rest := requests[0], requests[1..];
      AcceptedPartIsAccepted(Opened(state, first), rest);
      var tail := Accepted(Opened(state, first), rest);
      if RefusalOf(state, first).None? {
        assert Accepted(state, requests) == [first] + tail;
        assert ([first] + tail)[1..] == tail;
      } else {
        assert [] + tail == tail;
      }
    }
  }

  /** Whatever a client sends, what gets through is one family's language, and the state says which. */
  lemma FamiliesStayDisjoint(requests: seq<Request>)
    ensures var through := Accepted(Unopened, requests);
            match After(Unopened, requests)
            case Unopened => through == []
            case Legacy => LegacyLanguage(through)
            case Modern => through != [] && ModernLanguage(through)
  {
    var through := Accepted(Unopened, requests);
    AcceptedPartIsAccepted(Unopened, requests);
    AcceptedLanguages(through);
    if through != [] {
      OpenedForGood(Opened(Unopened, through[0]), through[1..]);
    }
  }

  /** Once opened, the family never changes. */
  lemma {:induction false} OpenedForGood(state: FamilyState, requests: seq<Request>)
    requires state != Unopened
    ensures After(state, requests) == state
    decreases |requests|
  {
    if requests != [] { OpenedForGood(state, requests[1..]); }
  }

  /** The version the family of this connection speaks, or would speak once this request opens it. */
  function Spoken(state: FamilyState, r: Request): Version {
    if state == Legacy || (state == Unopened && r.method_.Initialize?) then V2025_11_25 else V2026_07_28
  }

  /**
   * A refusal names that version. A request for another version is refused for
   * it, unless its method is already foreign to the family.
   */
  lemma RefusalsNameTheFamily(state: FamilyState, r: Request)
    ensures var v := Spoken(state, r);
            && (RefusalOf(state, r).None? ==> Speaks(r, v))
            && (RefusalOf(state, r).Some? && RefusalOf(state, r).value.MethodNotFound? ==> RefusalOf(state, r).value.expected == v)
            && (RefusalOf(state, r).Some? && RefusalOf(state, r).value.UnsupportedVersion?
                ==> RefusalOf(state, r).value.expected == v && r.version == Some(RefusalOf(state, r).value.requested) && !Speaks(r, v))
            && (state != Unopened && r.method_.Initialize? ==> RefusalOf(state, r) == Some(MethodNotFound(v)))
  {
  }
}
