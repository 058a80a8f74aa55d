/**
 * The private SSH-agent ownership record: its shape, the compare-and-swap
 * operations on the file that holds it, and the edges those operations may
 * follow (`agent/registry.rs`, `agent/model.rs`).
 */
module AgentRegistry {
  import opened Base

  const REGISTRY_SCHEMA_VERSION: nat := 2

  datatype StoredState = Starting | Active | Stopping | Failed

  datatype Failure = ExecutableUnavailable | LaunchExited | StartupTimeout | ProtocolRejected

  datatype SocketId = SocketId(device: nat, inode: nat)

  datatype Record = Record(
    schemaVersion: nat,
    state: StoredState,
    spaceId: nat,
    token: string,
    pid: nat,
    generation: Option<nat>,
    createdUnixMs: nat,
    socketInode: Option<nat>,
    socketDevice: Option<nat>,
    failure: Option<Failure>)

  // ---------------------------------------------------------------- shape

  predicate HexDigit(c: char) {
    '0' <= c <= '9' || 'a' <= c <= 'f'
  }

  predicate TokenIsValid(token: string) {
    |token| == 32 && forall i :: 0 <= i < |token| ==> HexDigit(token[i])
  }

  predicate SupportedSchemaShape(r: Record) {
    match r.generation
    case None => r.schemaVersion == 1
    case Some(generation) => r.schemaVersion == REGISTRY_SCHEMA_VERSION && generation > 0
  }

  predicate StateShape(r: Record) {
    match r.state
    case Starting => r.socketInode.None? && r.socketDevice.None? && r.failure.None?
    case Active => r.socketInode.Some? && r.socketDevice.Some? && r.failure.None?
    case Stopping => r.socketInode.Some? && r.socketDevice.Some? && r.failure.None?
    case Failed => r.socketInode.None? && r.socketDevice.None? && r.failure.Some?
  }

  /** `registry::validate`: every record that is read back must satisfy this. */
  predicate Valid(r: Record, spaceId: nat) {
    SupportedSchemaShape(r) && r.spaceId == spaceId && TokenIsValid(r.token) && r.pid > 1 && StateShape(r)
  }

  function HexOf(nibble: nat): (c: char)
    requires nibble < 16
    ensures HexDigit(c)
  {
    "0123456789abcdef"[nibble]
  }

  /** `generate_token`: two lower-case digits for each random octet. */
  function HexToken(random: bytes): (token: string)
    ensures |token| == 2 * |random|
    ensures forall i :: 0 <= i < |token| ==> HexDigit(token[i])
  {
    if random == [] then "" else
      [HexOf(random[0] as int / 16), HexOf(random[0] as int % 16)] + HexToken(random[1..])
  }

  function NibbleOf(c: char): (n: nat)
    requires HexDigit(c)
    ensures n < 16
  {
    if c <= '9' then c as int - '0' as int else c as int - 'a' as int + 10
  }

  /** Distinct random draws give distinct tokens, so a fresh draw is a fresh token. */
  lemma {:induction false} HexTokenInjective(a: bytes, b: bytes)
    requires HexToken(a) == HexToken(b)
    ensures a == b
    decreases |a|
  {
    assert |a| == |b|;
    if a != [] {
      var x, y := HexToken(a), HexToken(b);
      assert x[2..] == HexToken(a[1..]) && y[2..] == HexToken(b[1..]);
      HexTokenInjective(a[1..], b[1..]);
      assert x[0] == HexOf(a[0] as int / 16) && y[0] == HexOf(b[0] as int / 16);
      assert x[1] == HexOf(a[0] as int % 16) && y[1] == HexOf(b[0] as int % 16);
      NibbleOfHex(a[0] as int / 16); NibbleOfHex(b[0] as int / 16);
      NibbleOfHex(a[0] as int % 16); NibbleOfHex(b[0] as int % 16);
      assert a[0] == b[0];
      assert a == [a[0]] + a[1..] && b == [b[0]] + b[1..];
    }
  }

  lemma NibbleOfHex(n: nat)
    requires n < 16
    ensures NibbleOf(HexOf(n)) == n
  {
    var digits := "0123456789abcdef";
    assert digits[0] == '0' && digits[1] == '1' && digits[2] == '2' && digits[3] == '3';
    assert digits[4] == '4' && digits[5] == '5' && digits[6] == '6' && digits[7] == '7';
    assert digits[8] == '8' && digits[9] == '9' && digits[10] == 'a' && digits[11] == 'b';
    assert digits[12] == 'c' && digits[13] == 'd' && digits[14] == 'e' && digits[15] == 'f';
  }

  // ----------------------------------------------------- transition helpers

  function StartingRecord(spaceId: nat, random: bytes, pid: nat, generation: nat, created: nat): Record {
    Record(REGISTRY_SCHEMA_VERSION, Starting, spaceId, HexToken(random), pid, Some(generation), created,
           None, None, None)
  }

  function Activated(starting: Record, id: SocketId): Record {
    starting.(state := Active, socketInode := Some(id.inode), socketDevice := Some(id.device))
  }

  function FailedWith(starting: Record, why: Failure): Record {
    starting.(state := Failed, failure := Some(why))
  }

  function MarkedStopping(active: Record): Record {
    active.(state := Stopping)
  }

  /** `recorded_socket_identity`. */
  function SocketOf(r: Record): Option<SocketId> {
    if r.socketDevice.Some? && r.socketInode.Some?
    then Some(SocketId(r.socketDevice.value, r.socketInode.value)) else None
  }

  /** The only moves the ownership record may make. */
  ghost predicate Edge(before: Option<Record>, after: Option<Record>) {
    || before == after
    || after.None?
    || (before.None? && after.value.state == Starting)
    || (before.Some? && before.value.state == Starting && after.value.state == Starting)
    || (before.Some? && before.value.state == Starting && exists id :: after.value == Activated(before.value, id))
    || (before.Some? && before.value.state == Starting && exists why :: after.value == FailedWith(before.value, why))
    || (before.Some? && before.value.state == Active && after.value == MarkedStopping(before.value))
  }

  function Rank(state: StoredState): nat {
    match state case Starting => 0 case Active => 1 case Stopping => 2 case Failed => 3
  }

  /** `b` is `a` itself or what `a` may become before it is removed. */
  ghost predicate Later(a: Record, b: Record) {
    && Rank(a.state) <= Rank(b.state)
    && (a.state != Starting ==> b == a.(state := b.state))
    && (a.state == Active ==> b.state != Failed)
  }

  lemma LaterThenEdge(a: Record, b: Record, c: Record)
    requires Later(a, b) && Edge(Some(b), Some(c))
    ensures Later(a, c)
  {
  }

  /** Along allowed edges, and until it is removed, a record never goes back. */
  lemma {:induction false} EdgesNeverRegress(history: seq<Option<Record>>, i: nat, j: nat)
    requires i <= j < |history|
    requires forall k :: i <= k < j ==> Edge(history[k], history[k + 1])
    requires forall k :: i <= k <= j ==> history[k].Some?
    ensures Later(history[i].value, history[j].value)
  {
    if i < j {
      EdgesNeverRegress(history, i, j - 1);
      assert Edge(history[j - 1], history[j - 1 + 1]);
      LaterThenEdge(history[i].value, history[j - 1].value, history[j].value);
    }
  }

  // ------------------------------------------------- the registry file itself

  /** Where a registry write can fail: before its rename, or only in the directory sync after it. */
  datatype Disk = Healthy | WriteFails | SyncFails

  function AfterCreate(stored: Option<Record>, published: Record, disk: Disk): Option<Record> {
    if stored.None? && disk != WriteFails then Some(published) else stored
  }

  function AfterReplace(stored: Option<Record>, expected: Record, replacement: Record, disk: Disk): Option<Record> {
    if stored == Some(expected) && disk != WriteFails then Some(replacement) else stored
  }

  function AfterRemove(stored: Option<Record>, expected: Record, disk: Disk): Option<Record> {
    if stored == Some(expected) && disk != WriteFails then None else stored
  }

  datatype Outcome = Ok | Exists | Missing | Changed | IoError

  /**
   * The registry file. `create` publishes with a no-replace rename, `replace`
   * and `remove` first compare the stored record with the one the caller saw.
   * A failed directory sync is reported as an error after the change is visible.
   */
  class RegistryFile {
    var record: Option<Record>

    constructor ()
      ensures record == None
    {
      record := None;
    }

    method Create(published: Record, disk: Disk) returns (outcome: Outcome)
      modifies this
      ensures outcome == Ok <==> old(record).None? && disk == Healthy
      ensures record == AfterCreate(old(record), published, disk)
    {
      if disk == WriteFails { return IoError; }
      if record.Some? { return Exists; }
      record := Some(published);
      return if disk == SyncFails then IoError else Ok;
    }

    method Replace(expected: Record, replacement: Record, disk: Disk) returns (outcome: Outcome)
      modifies this
      ensures outcome == Ok <==> old(record) == Some(expected) && disk == Healthy
      ensures record == AfterReplace(old(record), expected, replacement, disk)
    {
      if record.None? { return Missing; }
      if record.value != expected { return Changed; }
      if disk == WriteFails { return IoError; }
      record := Some(replacement);
      return if disk == SyncFails then IoError else Ok;
    }

    method Remove(expected: Record, disk: Disk) returns (outcome: Outcome)
      modifies this
      ensures outcome == Ok <==> old(record) == Some(expected) && disk == Healthy
      ensures record == AfterRemove(old(record), expected, disk)
    {
      if record.None? { return Missing; }
      if record.value != expected { return Changed; }
      if disk == WriteFails { return IoError; }
      record := None;
      return if disk == SyncFails then IoError else Ok;
    }
  }
}
