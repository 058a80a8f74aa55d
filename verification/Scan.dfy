/**
 * The bounded, metadata-only directory walk (`discovery/scan.rs`).
 */
module Scan {
  import opened Base
  import opened Classify
  import opened EntryKey
  import opened Tree

  datatype EntryRecord = EntryRecord(class_: Class, identity: Stat)

  datatype RootIdentity = RootIdentity(device: nat, inode: nat, kind: Kind, owner: nat, group: nat)

  datatype Snapshot = Snapshot(
    entries: map<string, EntryRecord>,
    roots: map<Selector, nat>,
    rootIdentities: map<Selector, RootIdentity>,
    rootComplete: map<Selector, bool>,
    rootBoundsExceeded: map<Selector, bool>,
    complete: bool,
    boundsExceeded: bool,
    unreadableDirectories: nat,
    unstableEntries: nat,
    foreignOwned: nat,
    nonLocalFilesystems: nat,
    metadataErrors: nat,
    entryKeyCollisions: nat)

  const EMPTY_SNAPSHOT := Snapshot(map[], map[], map[], map[], map[], true, false, 0, 0, 0, 0, 0, 0)

  /** `complete` says exactly that no bound was hit and no gap was counted. */
  predicate Honest(s: Snapshot) {
    s.complete <==>
      !s.boundsExceeded && s.unreadableDirectories == 0 && s.unstableEntries == 0 && s.nonLocalFilesystems == 0
      && s.metadataErrors == 0 && s.entryKeyCollisions == 0
  }

  function Bumped(count: nat, hit: bool): nat {
    if hit then SaturatingAdd(count, 1) else count
  }

  datatype Gap = Unreadable | Unstable | NonLocal | MetadataError

  function Noted(s: Snapshot, gap: Gap): Snapshot {
    var s' := s.(complete := false);
    match gap
    case Unreadable => s'.(unreadableDirectories := SaturatingAdd(s.unreadableDirectories, 1))
    case Unstable => s'.(unstableEntries := SaturatingAdd(s.unstableEntries, 1))
    case NonLocal => s'.(nonLocalFilesystems := SaturatingAdd(s.nonLocalFilesystems, 1))
    case MetadataError => s'.(metadataErrors := SaturatingAdd(s.metadataErrors, 1))
  }

  /** A snapshot with one more record; a key that was taken already is a collision. */
  function Inserted(s: Snapshot, key: string, record: EntryRecord, foreign: bool): (r: Snapshot)
    ensures r.entries == s.entries[key := record]
    ensures r.complete <==> s.complete && key !in s.entries
    ensures Honest(s) ==> Honest(r)
    ensures r.boundsExceeded == s.boundsExceeded && r.foreignOwned == Bumped(s.foreignOwned, foreign)
    ensures r.unreadableDirectories == s.unreadableDirectories && r.unstableEntries == s.unstableEntries
    ensures r.nonLocalFilesystems == s.nonLocalFilesystems && r.metadataErrors == s.metadataErrors
  {
    var counted := if foreign then s.(foreignOwned := SaturatingAdd(s.foreignOwned, 1)) else s;
    var inserted := counted.(entries := s.entries[key := record]);
    if key in s.entries
    then inserted.(entryKeyCollisions := SaturatingAdd(s.entryKeyCollisions, 1), complete := false) else inserted
  }

  /** What a scan is given besides the tree: the key and the class of an entry, and the current user. */
  datatype Setting = Setting(key: (Selector, Path) -> string, class_: (Selector, Path, Kind) -> Class, user: nat)

  /** The setting the program uses, for a digest and the platform's derived cache directories. */
  function Standard(hash: string -> string, caches: seq<Path>, user: nat): Setting {
    Setting((selector, path) => hash(PreImage(selector, path)),
            (selector, path, kind) => ClassOf(caches, selector, path, kind), user)
  }

  function RecordOf(env: Setting, selector: Selector, q: Path, stat: Stat): EntryRecord {
    EntryRecord(env.class_(selector, q, stat.kind), stat)
  }

  /** Path `q` is recorded, truthfully and under its own key. */
  ghost predicate Recorded(env: Setting, selector: Selector, w: World, entries: map<string, EntryRecord>, q: Path) {
    var key := env.key(selector, q);
    w.stat(q).Found? && key in entries && entries[key] == RecordOf(env, selector, q, w.stat(q).stat)
  }

  /** Each key stands for one of these paths. */
  ghost predicate Originates(env: Setting, selector: Selector, origin: map<string, Path>, paths: set<Path>) {
    forall k :: k in origin ==> origin[k] in paths && env.key(selector, origin[k]) == k
  }

  /** Each of these paths is recorded, and its key stands for no other path. */
  ghost predicate AllRecorded(env: Setting, selector: Selector, w: World, entries: map<string, EntryRecord>,
                              origin: map<string, Path>, paths: set<Path>)
    requires origin.Keys == entries.Keys
  {
    forall q :: q in paths ==> Recorded(env, selector, w, entries, q) && origin[env.key(selector, q)] == q
  }

  /** The entries are one record for each of these paths and nothing else; `origin` gives the path of each key. */
  ghost predicate Represents(env: Setting, selector: Selector, w: World, entries: map<string, EntryRecord>,
                             origin: map<string, Path>, paths: set<Path>)
  {
    && |entries| == |paths| && origin.Keys == entries.Keys
    && Originates(env, selector, origin, paths) && AllRecorded(env, selector, w, entries, origin, paths)
  }

  /** A path whose length a 64-bit counter holds. */
  predicate Countable(q: Path) {
    q != [] && PathBytes(q) <= U64_MAX
  }

  /** No two paths of these roots share a key. */
  ghost predicate KeysDistinct(env: Setting) {
    forall s, p, t, q :: Countable(p) && Countable(q) && env.key(s, p) == env.key(t, q) ==> s == t && p == q
  }

  lemma {:induction false} ParentBytesCoverNames(p: Path, i: nat)
    requires i < |p|
    ensures |p[i]| < ParentBytes(p)
    decreases |p|
  {
    if i < |p| - 1 { ParentBytesCoverNames(p[..|p| - 1], i); }
  }

  lemma CountableIsRepresentable(q: Path)
    requires Countable(q)
    ensures Representable(q)
  {
    forall i | 0 <= i < |q|
      ensures |q[i]| <= U64_MAX
    {
      if i < |q| - 1 { ParentBytesCoverNames(q[..|q| - 1], i); }
    }
  }

  /** A digest that never collides keeps every entry of every root apart. */
  lemma StandardKeysDistinct(hash: string -> string, caches: seq<Path>, user: nat)
    requires forall a, b :: hash(a) == hash(b) ==> a == b
    ensures KeysDistinct(Standard(hash, caches, user))
  {
    forall s, p, t, q | Countable(p) && Countable(q) && hash(PreImage(s, p)) == hash(PreImage(t, q))
      ensures s == t && p == q
    {
      CountableIsRepresentable(p);
      CountableIsRepresentable(q);
      PreImageInjective(s, p, t, q);
    }
  }

  lemma CountOneMore(entries: map<string, EntryRecord>, key: string, record: EntryRecord)
    requires key !in entries
    ensures |entries[key := record]| == |entries| + 1
  {
    assert entries[key := record].Keys == entries.Keys + {key};
    assert |entries[key := record]| == |entries[key := record].Keys| && |entries| == |entries.Keys|;
  }

  lemma OriginOneMore(env: Setting, selector: Selector, origin: map<string, Path>, paths: set<Path>, q: Path)
    requires Originates(env, selector, origin, paths)
    ensures Originates(env, selector, origin[env.key(selector, q) := q], paths + {q})
  {
  }

  lemma RecordedOneMore(env: Setting, selector: Selector, w: World, entries: map<string, EntryRecord>,
                        origin: map<string, Path>, paths: set<Path>, q: Path, record: EntryRecord)
    requires origin.Keys == entries.Keys && AllRecorded(env, selector, w, entries, origin, paths)
    requires w.stat(q).Found? && env.key(selector, q) !in entries && record == RecordOf(env, selector, q, w.stat(q).stat)
    ensures q !in paths
    ensures var key := env.key(selector, q);
            && origin[key := q].Keys == entries[key := record].Keys
            && AllRecorded(env, selector, w, entries[key := record], origin[key := q], paths + {q})
  {
  }

  lemma RepresentsOneMore(env: Setting, selector: Selector, w: World, entries: map<string, EntryRecord>,
                          origin: map<string, Path>, paths: set<Path>, q: Path, record: EntryRecord)
    requires Represents(env, selector, w, entries, origin, paths)
    requires w.stat(q).Found? && env.key(selector, q) !in entries && record == RecordOf(env, selector, q, w.stat(q).stat)
    ensures var key := env.key(selector, q);
            q !in paths && Represents(env, selector, w, entries[key := record], origin[key := q], paths + {q})
  {
    CountOneMore(entries, env.key(selector, q), record);
    OriginOneMore(env, selector, origin, paths, q);
    RecordedOneMore(env, selector, w, entries, origin, paths, q, record);
  }

  /** Within the depth and path-length limits. */
  predicate Admissible(limits: Limits, q: Path) {
    0 < |q| <= limits.depth && PathBytes(q) <= limits.relativePathBytes
  }

  // The log of recorded paths determines the entries and the visited paths.

  ghost function Replay(env: Setting, selector: Selector, w: World, log: seq<Path>): map<string, EntryRecord>
    decreases |log|
  {
    if log == [] then map[]
    else
      var q, before := log[|log| - 1], Replay(env, selector, w, log[..|log| - 1]);
      if w.stat(q).Found? then before[env.key(selector, q) := RecordOf(env, selector, q, w.stat(q).stat)] else before
  }

  ghost function Paths(log: seq<Path>): set<Path> {
    set i | 0 <= i < |log| :: log[i]
  }

  /** Every path in the log exists, is within the limits and had a key of its own when it was recorded. */
  ghost predicate NoCollision(env: Setting, selector: Selector, w: World, limits: Limits, log: seq<Path>)
    decreases |log|
  {
    log == [] || (var q, front := log[|log| - 1], log[..|log| - 1];
                  && NoCollision(env, selector, w, limits, front) && w.stat(q).Found? && Admissible(limits, q)
                  && env.key(selector, q) !in Replay(env, selector, w, front))
  }

  ghost predicate Logged(env: Setting, selector: Selector, w: World, limits: Limits, log: seq<Path>,
                         entries: map<string, EntryRecord>, visited: set<Path>)
  {
    entries == Replay(env, selector, w, log) && visited == Paths(log) && NoCollision(env, selector, w, limits, log)
  }

  lemma LoggedOneMore(env: Setting, selector: Selector, w: World, limits: Limits, log: seq<Path>,
                      entries: map<string, EntryRecord>, visited: set<Path>, q: Path, record: EntryRecord)
    requires Logged(env, selector, w, limits, log, entries, visited) && w.stat(q).Found? && Admissible(limits, q)
    requires env.key(selector, q) !in entries && record == RecordOf(env, selector, q, w.stat(q).stat)
    ensures Logged(env, selector, w, limits, log + [q], entries[env.key(selector, q) := record], visited + {q})
  {
    assert (log + [q])[..|log|] == log;
    assert Paths(log + [q]) == Paths(log) + {q} by {
      assert forall i :: 0 <= i < |log| ==> log[i] == (log + [q])[i];
      assert (log + [q])[|log|] == q;
    }
  }

  lemma {:induction false} LogKeys(env: Setting, selector: Selector, w: World, log: seq<Path>, key: string)
    requires key in Replay(env, selector, w, log)
    ensures exists q :: q in log && env.key(selector, q) == key
    decreases |log|
  {
    if log != [] {
      var q, front := log[|log| - 1], log[..|log| - 1];
      if key in Replay(env, selector, w, front) {
        LogKeys(env, selector, w, front, key);
        var x :| x in front && env.key(selector, x) == key;
        assert x in log;
      } else {
        assert q in log;
      }
    }
  }

  lemma {:induction false} LogAdmissible(env: Setting, selector: Selector, w: World, limits: Limits, log: seq<Path>, q: Path)
    requires NoCollision(env, selector, w, limits, log) && q in Paths(log)
    ensures Admissible(limits, q)
    decreases |log|
  {
    if q != log[|log| - 1] { LogAdmissible(env, selector, w, limits, log[..|log| - 1], q); }
  }

  lemma KeyIsTaken(env: Setting, selector: Selector, w: World, limits: Limits, log: seq<Path>,
                   entries: map<string, EntryRecord>, visited: set<Path>, q: Path)
    requires Logged(env, selector, w, limits, log, entries, visited) && KeysDistinct(env)
    requires env.key(selector, q) in entries && Admissible(limits, q)
    ensures q in visited
  {
    LogKeys(env, selector, w, log, env.key(selector, q));
    var x :| x in log && env.key(selector, x) == env.key(selector, q);
    LogAdmissible(env, selector, w, limits, log, x);
    assert Countable(x) && Countable(q);
  }

  /** What recording `q` does to the entries, with or without a collision. */
  lemma RecordKeeps(env: Setting, selector: Selector, w: World, limits: Limits, log: seq<Path>,
                    entries: map<string, EntryRecord>, visited: set<Path>, q: Path, record: EntryRecord, complete: bool)
    requires complete ==> Logged(env, selector, w, limits, log, entries, visited)
    requires w.stat(q).Found? && Admissible(limits, q) && record == RecordOf(env, selector, q, w.stat(q).stat)
    ensures var key := env.key(selector, q);
            && |entries[key := record]| == |entries| + (if key in entries then 0 else 1)
            && (complete && key !in entries
                ==> Logged(env, selector, w, limits, log + [q], entries[key := record], visited + {q}))
            && (complete && key in entries && KeysDistinct(env) ==> q in visited)
  {
    var key := env.key(selector, q);
    if key in entries {
      CountSame(entries, key, record);
      if complete && KeysDistinct(env) { KeyIsTaken(env, selector, w, limits, log, entries, visited, q); }
    } else {
      CountOneMore(entries, key, record);
      if complete { LoggedOneMore(env, selector, w, limits, log, entries, visited, q, record); }
    }
  }

  ghost function Origin(env: Setting, selector: Selector, log: seq<Path>): map<string, Path>
    decreases |log|
  {
    if log == [] then map[]
    else Origin(env, selector, log[..|log| - 1])[env.key(selector, log[|log| - 1]) := log[|log| - 1]]
  }

  lemma PathsMore(log: seq<Path>)
    requires log != []
    ensures Paths(log) == Paths(log[..|log| - 1]) + {log[|log| - 1]}
  {
  }

  /** A log without collisions represents its paths one for one. */
  lemma {:induction false} LogRepresents(env: Setting, selector: Selector, w: World, limits: Limits, log: seq<Path>)
    requires NoCollision(env, selector, w, limits, log)
    ensures Represents(env, selector, w, Replay(env, selector, w, log), Origin(env, selector, log), Paths(log))
    decreases |log|
  {
    if log == [] {
      assert Paths(log) == {};
    } else {
      var q, front := log[|log| - 1], log[..|log| - 1];
      LogRepresents(env, selector, w, limits, front);
      PathsMore(log);
      RepresentsOneMore(env, selector, w, Replay(env, selector, w, front), Origin(env, selector, front), Paths(front),
                        q, RecordOf(env, selector, q, w.stat(q).stat));
    }
  }

  /** The first `n` readings of the clock are all within the time limit. */
  ghost predicate OnTime(w: World, limit: nat, n: nat) {
    n == 0 || (OnTime(w, limit, n - 1) && w.elapsed(n - 1) < limit)
  }

  lemma {:induction false} OnTimeAt(w: World, limit: nat, n: nat, k: nat)
    requires OnTime(w, limit, n) && k < n
    ensures w.elapsed(k) < limit
  {
    if k < n - 1 { OnTimeAt(w, limit, n - 1, k); }
  }

  ghost predicate AlwaysLate(w: World, limits: Limits) {
    forall k :: w.elapsed(k) >= limits.phaseMilliseconds
  }

  datatype Reading = Held | Skipped | Stopped

  class Scanner {
    const env: Setting
    const selector: Selector
    const world: World
    const limits: Limits
    var snapshot: Snapshot
    var pendingNames: nat
    var pendingNameBytes: nat
    var readings: nat
    ghost var visited: set<Path>
    ghost var log: seq<Path>

    constructor (env: Setting, selector: Selector, world: World, limits: Limits)
      ensures Valid() && snapshot == EMPTY_SNAPSHOT && visited == {} && pendingNames == 0 && pendingNameBytes == 0
      ensures this.env == env && this.selector == selector && this.world == world && this.limits == limits
    {
      this.env, this.selector, this.world, this.limits := env, selector, world, limits;
      snapshot, pendingNames, pendingNameBytes, readings, visited, log := EMPTY_SNAPSHOT, 0, 0, 0, {}, [];
    }

    /** Within the bounds on memory, and honest about gaps. */
    ghost predicate Housed()
      reads this
    {
      && Honest(snapshot)
      && |snapshot.entries| + pendingNames <= limits.entries
      && pendingNameBytes <= limits.pendingNameBytes
    }

    /** And as long as the scan claims to be complete, every reading of the clock was in time. */
    ghost predicate Bounded()
      reads this
    {
      Housed() && (snapshot.complete ==> OnTime(world, limits.phaseMilliseconds, readings))
    }

    /** As long as the scan claims to be complete, its entries are exactly the visited paths. */
    ghost predicate Truthful()
      reads this
    {
      snapshot.complete ==> Logged(env, selector, world, limits, log, snapshot.entries, visited)
    }

    ghost predicate Valid()
      reads this
    {
      Bounded() && Truthful()
    }

    /** What no step of the walk ever takes back. */
    twostate predicate Grown()
      reads this
    {
      && old(visited) <= visited && old(readings) <= readings
      && (snapshot.complete ==> old(snapshot.complete))
      && (old(snapshot.boundsExceeded) ==> snapshot.boundsExceeded)
    }

    /** Nothing was recorded in between. */
    twostate predicate Still()
      reads this
    {
      visited == old(visited) && log == old(log) && snapshot.entries == old(snapshot.entries)
    }

    ghost predicate Calm() {
      forall k :: world.elapsed(k) < limits.phaseMilliseconds
    }

    /** An undisturbed walk of an orderly tree that fits the room left; such a walk must not stop early. */
    ghost predicate Smooth(p: Path, device: nat)
      requires |p| <= limits.depth
      reads this
    {
      var levels := limits.depth - |p|;
      && snapshot.complete && Calm() && KeysDistinct(env)
      && (forall q :: q in visited ==> !(p < q))
      && Orderly(world, limits.relativePathBytes, p, device, levels)
      && |snapshot.entries| + pendingNames + Weight(world, false, p, levels) <= limits.entries
      && pendingNameBytes + Weight(world, true, p, levels) <= limits.pendingNameBytes
    }

    /** The same for the names of `p`, once they are pending. */
    ghost predicate SmoothNames(p: Path, names: seq<string>, device: nat)
      requires |p| <= limits.depth
      reads this
    {
      var levels := limits.depth - |p|;
      && snapshot.complete && Calm() && KeysDistinct(env) && Distinct(names)
      && (forall q :: q in visited ==> !(p < q))
      && OrderlyNames(world, limits.relativePathBytes, p, device, levels, names)
      && |snapshot.entries| + pendingNames + WeightOf(world, false, p, levels, names) <= limits.entries + |names|
      && pendingNameBytes + WeightOf(world, true, p, levels, names) <= limits.pendingNameBytes + NameBytes(names)
    }

    /** The same for the one entry `name` of `p`, whose name is still pending. */
    ghost predicate SmoothName(p: Path, name: string, device: nat)
      requires |p| <= limits.depth
      reads this
    {
      var q, levels := p + [name], limits.depth - |p|;
      && snapshot.complete && Calm() && KeysDistinct(env)
      && (forall x :: x in visited ==> !(q <= x))
      && OrderlyName(world, limits.relativePathBytes, p, device, levels, name)
      && |snapshot.entries| + pendingNames + WeightBelow(world, false, q, levels) <= limits.entries
      && pendingNameBytes + WeightBelow(world, true, q, levels) <= limits.pendingNameBytes + |name|
    }

    /** The same once that name is no longer pending. */
    ghost predicate SmoothEntry(p: Path, name: string, device: nat)
      requires |p| <= limits.depth
      reads this
    {
      var q, levels := p + [name], limits.depth - |p|;
      && snapshot.complete && Calm() && KeysDistinct(env)
      && (forall x :: x in visited ==> !(q <= x))
      && OrderlyName(world, limits.relativePathBytes, p, device, levels, name)
      && |snapshot.entries| + pendingNames + 1 + WeightBelow(world, false, q, levels) <= limits.entries
      && pendingNameBytes + WeightBelow(world, true, q, levels) <= limits.pendingNameBytes
    }

    /** Pending names and bytes went down by this much; a walk that ran into a bound may leave more behind. */
    twostate predicate Released(names: int, nameBytes: int)
      reads this
    {
      && pendingNames >= old(pendingNames) - names && pendingNameBytes >= old(pendingNameBytes) - nameBytes
      && (!snapshot.boundsExceeded
          ==> pendingNames == old(pendingNames) - names && pendingNameBytes == old(pendingNameBytes) - nameBytes)
    }

    twostate predicate Settled()
      reads this
    {
      Released(0, 0)
    }

    /** The gap counters went up by one for this gap, if any, and by nothing else. */
    twostate predicate Counts(gap: Option<Gap>)
      reads this
    {
      && snapshot.unreadableDirectories == Bumped(old(snapshot.unreadableDirectories), gap == Some(Unreadable))
      && snapshot.unstableEntries == Bumped(old(snapshot.unstableEntries), gap == Some(Unstable))
      && snapshot.nonLocalFilesystems == Bumped(old(snapshot.nonLocalFilesystems), gap == Some(NonLocal))
      && snapshot.metadataErrors == Bumped(old(snapshot.metadataErrors), gap == Some(MetadataError))
    }

    method TimedOut() returns (late: bool)
      modifies this`readings
      ensures late <==> world.elapsed(old(readings)) >= limits.phaseMilliseconds
      ensures readings == old(readings) + 1
    {
      late := world.elapsed(readings) >= limits.phaseMilliseconds;
      readings := readings + 1;
    }

    method Note(gap: Gap)
      requires Bounded()
      modifies this`snapshot
      ensures Bounded() && Grown() && Still() && !snapshot.complete && Counts(Some(gap))
      ensures snapshot.boundsExceeded == old(snapshot.boundsExceeded)
    {
      snapshot := Noted(snapshot, gap);
    }

    method ExceedBounds()
      requires Housed()
      modifies this`snapshot
      ensures Bounded() && Grown() && Still() && snapshot.boundsExceeded && !snapshot.complete
    {
      snapshot := snapshot.(boundsExceeded := true, complete := false);
    }

    /** Whether one more name may be held: in time, with room for an entry, and with room for its bytes. */
    method QueueName(name: string, count: nat, remaining: nat) returns (queued: bool)
      requires Bounded() && !snapshot.boundsExceeded && count <= remaining
      requires |snapshot.entries| + pendingNames + (remaining - count) == limits.entries
      modifies this`snapshot, this`pendingNames, this`pendingNameBytes, this`readings
      ensures Bounded() && Grown() && Still() && readings == old(readings) + 1
      ensures queued <==> world.elapsed(old(readings)) < limits.phaseMilliseconds && count < remaining
                          && old(pendingNameBytes) + |name| <= limits.pendingNameBytes
      ensures queued ==> snapshot == old(snapshot) && pendingNames == old(pendingNames) + 1
                         && pendingNameBytes == old(pendingNameBytes) + |name|
      ensures !queued ==> snapshot.boundsExceeded && pendingNames == old(pendingNames) && pendingNameBytes == old(pendingNameBytes)
    {
      var late := TimedOut();
      queued := !late && count < remaining && SaturatingAdd(pendingNameBytes, |name|) <= limits.pendingNameBytes;
      if queued {
        pendingNames := SaturatingAdd(pendingNames, 1);
        pendingNameBytes := SaturatingAdd(pendingNameBytes, |name|);
      } else {
        ExceedBounds();
      }
    }

    /** One item of a directory stream: a name that is held, one of the dot entries, or the end of reading. */
    method ReadOne(item: Option<string>, count: nat, remaining: nat) returns (reading: Reading)
      requires Bounded() && !snapshot.boundsExceeded && count <= remaining
      requires |snapshot.entries| + pendingNames + (remaining - count) == limits.entries
      modifies this`snapshot, this`pendingNames, this`pendingNameBytes, this`readings
      ensures Bounded() && snapshot.entries == old(snapshot.entries)
      ensures reading == Skipped <==> item.Some? && !Ordinary(item.value)
      ensures reading.Held? ==> item.Some? && Ordinary(item.value)
      ensures !reading.Stopped? ==> snapshot == old(snapshot)
      ensures reading == Stopped ==> !snapshot.complete && (snapshot.boundsExceeded <==> item.Some?)
      ensures reading == Stopped && item.Some?
              ==> world.elapsed(old(readings)) >= limits.phaseMilliseconds || count == remaining
                  || pendingNameBytes + |item.value| > limits.pendingNameBytes
      ensures reading == Held ==> world.elapsed(old(readings)) < limits.phaseMilliseconds && count < remaining
      ensures readings == old(readings) + if item.Some? && Ordinary(item.value) then 1 else 0
      ensures pendingNames == old(pendingNames) + if reading == Held then 1 else 0
      ensures pendingNameBytes == old(pendingNameBytes) + if reading == Held then |item.value| else 0
    {
      if item.None? { Note(MetadataError); return Stopped; }
      if !Ordinary(item.value) { return Skipped; }
      var queued := QueueName(item.value, count, remaining);
      return if queued then Held else Stopped;
    }

    /** Read a directory stream until it ends, fails, or a bound is hit. */
    method ReadStream(stream: seq<Option<string>>) returns (names: seq<string>, end: nat)
      requires Bounded() && !snapshot.boundsExceeded
      modifies this`snapshot, this`pendingNames, this`pendingNameBytes, this`readings
      ensures Bounded() && snapshot.entries == old(snapshot.entries) && end <= |stream| && names == Kept(stream[..end])
      ensures snapshot.complete ==> snapshot == old(snapshot)
      ensures pendingNames == old(pendingNames) + |names|
      ensures pendingNameBytes == old(pendingNameBytes) + NameBytes(names)
      ensures old(readings) + |names| <= readings
      ensures snapshot.boundsExceeded ==> end < |stream| && stream[end].Some? && Ordinary(stream[end].value)
      ensures snapshot.boundsExceeded
              ==> (old(readings) < readings && world.elapsed(readings - 1) >= limits.phaseMilliseconds)
                  || |snapshot.entries| + pendingNames == limits.entries
                  || pendingNameBytes + |stream[end].value| > limits.pendingNameBytes
      ensures !snapshot.boundsExceeded ==> (end == |stream| && snapshot == old(snapshot))
                                           || (end < |stream| && stream[end].None? && !snapshot.complete)
      ensures names != [] ==> world.elapsed(old(readings)) < limits.phaseMilliseconds
    {
      names, end := [], 0;
      var remaining := SaturatingSub(limits.entries, SaturatingAdd(|snapshot.entries|, pendingNames));
      while end < |stream|
        invariant end <= |stream| && names == Kept(stream[..end])
        invariant Bounded() && readings == old(readings) + |names|
        invariant names != [] ==> world.elapsed(old(readings)) < limits.phaseMilliseconds
        invariant pendingNames == old(pendingNames) + |names| && |names| <= remaining
        invariant |snapshot.entries| + pendingNames + (remaining - |names|) == limits.entries
        invariant pendingNameBytes == old(pendingNameBytes) + NameBytes(names)
        invariant snapshot == old(snapshot)
      {
        KeptStep(stream, end, names);
        var reading := ReadOne(stream[end], |names|, remaining);
        if reading == Stopped { return; }
        if reading == Held { names := names + [stream[end].value]; }
        end := end + 1;
      }
    }

    /** Read the names of a directory, as far as the remaining room allows. */
    method ReadNames(p: Path) returns (names: seq<string>)
      requires Bounded()
      modifies this`snapshot, this`pendingNames, this`pendingNameBytes, this`readings
      ensures Bounded() && Grown() && Still()
      ensures pendingNames == old(pendingNames) + |names|
      ensures pendingNameBytes == old(pendingNameBytes) + NameBytes(names)
      ensures snapshot.complete ==> names == Names(world, p)
      ensures old(snapshot.complete) && Calm() && NoStreamError(world.listing(p))
              && old(|snapshot.entries| + pendingNames) + |Names(world, p)| <= limits.entries
              && old(pendingNameBytes) + NameBytes(Names(world, p)) <= limits.pendingNameBytes
              ==> snapshot.complete
      ensures snapshot.complete && Names(world, p) != [] ==> old(readings) < readings
      ensures AlwaysLate(world, limits) && NoStreamError(world.listing(p)) && Names(world, p) != [] ==> snapshot.boundsExceeded
      ensures old(!snapshot.boundsExceeded) && snapshot.boundsExceeded
              ==> (old(readings) < readings && world.elapsed(readings - 1) >= limits.phaseMilliseconds)
                  || old(|snapshot.entries| + pendingNames) + |Names(world, p)| > limits.entries
                  || old(pendingNameBytes) + NameBytes(Names(world, p)) > limits.pendingNameBytes
    {
      if snapshot.boundsExceeded { return []; }
      var stream, end := world.listing(p), 0;
      names, end := ReadStream(stream);
      if snapshot.boundsExceeded {
        KeptMore(stream, end);
        KeptPrefixFits(stream, end);
        NameBytesSnoc(names, stream[end].value);
      } else if end == |stream| {
        assert stream[..end] == stream;
      }
    }

    method ReleasePendingName(name: string)
      requires pendingNames > 0 && pendingNameBytes >= |name|
      modifies this`pendingNames, this`pendingNameBytes
      ensures pendingNames == old(pendingNames) - 1 && pendingNameBytes == old(pendingNameBytes) - |name|
    {
      pendingNames := SaturatingSub(pendingNames, 1);
      pendingNameBytes := SaturatingSub(pendingNameBytes, |name|);
    }

    method LimitReached(p: Path, name: string) returns (exceeded: bool)
      requires Bounded()
      modifies this`snapshot, this`readings
      ensures Bounded() && Grown() && Still()
      ensures exceeded <==> old(snapshot.boundsExceeded) || old(|snapshot.entries|) >= limits.entries
                            || !Admissible(limits, p + [name]) || world.elapsed(old(readings)) >= limits.phaseMilliseconds
      ensures exceeded ==> snapshot.boundsExceeded
      ensures !exceeded ==> snapshot == old(snapshot)
      ensures readings == old(readings) + 1
    {
      var pathBytes := ParentBytes(p) + |name|;
      assert (p + [name])[..|p|] == p;
      var late := TimedOut();
      exceeded := snapshot.boundsExceeded || |snapshot.entries| >= limits.entries || |p| + 1 > limits.depth
                  || pathBytes > limits.relativePathBytes || late;
      if exceeded { ExceedBounds(); }
    }

    method Record(q: Path, stat: Stat)
      requires Valid() && world.stat(q) == Found(stat) && Admissible(limits, q)
      requires |snapshot.entries| + pendingNames < limits.entries
      modifies this`snapshot, this`visited, this`log
      ensures Valid() && Grown() && visited == old(visited) + {q} && Counts(None)
      ensures snapshot.boundsExceeded == old(snapshot.boundsExceeded)
      ensures snapshot.foreignOwned == Bumped(old(snapshot.foreignOwned), stat.owner != env.user)
      ensures env.key(selector, q) in snapshot.entries
      ensures snapshot.entries[env.key(selector, q)] == RecordOf(env, selector, q, stat)
      ensures snapshot.complete ==> |snapshot.entries| == old(|snapshot.entries|) + 1
      ensures old(snapshot.complete) && KeysDistinct(env) && q !in old(visited) ==> snapshot.complete
    {
      var key, record := env.key(selector, q), RecordOf(env, selector, q, stat);
      RecordKeeps(env, selector, world, limits, log, snapshot.entries, visited, q, record, snapshot.complete);
      snapshot := Inserted(snapshot, key, record, stat.owner != env.user);
      visited, log := visited + {q}, log + [q];
    }

    method MayTraverse(q: Path, device: nat, stat: Stat) returns (ok: bool)
      requires Bounded()
      modifies this`snapshot
      ensures Bounded() && Grown() && Still() && snapshot.boundsExceeded == old(snapshot.boundsExceeded)
      ensures ok <==> stat.device == device || world.local(q) == Some(true)
      ensures ok ==> snapshot == old(snapshot)
      ensures !ok ==> !snapshot.complete && Counts(Some(if world.local(q).None? then MetadataError else NonLocal))
    {
      ok := false;
      match if stat.device == device then Some(true) else world.local(q) {
        case None => Note(MetadataError);
        case Some(local) =>
          ok := local;
          if !local { Note(NonLocal); }
      }
    }

    method RecheckDirectory(q: Path, expected: Stat)
      requires Bounded()
      modifies this`snapshot
      ensures Bounded() && Grown() && Still() && snapshot.boundsExceeded == old(snapshot.boundsExceeded)
      ensures snapshot.complete == (old(snapshot.complete) && world.after(q) == Some(expected))
      ensures world.after(q) == Some(expected) ==> snapshot == old(snapshot)
      ensures world.after(q) != Some(expected) ==> Counts(Some(if world.after(q).None? then MetadataError else Unstable))
    {
      var after := world.after(q);
      if after.None? { Note(MetadataError); } else if after.value != expected { Note(Unstable); }
    }

    /** Open the directory and check that it is still the one that was recorded. */
    method OpenDirectory(q: Path, device: nat, stat: Stat) returns (ok: bool)
      requires Bounded()
      modifies this`snapshot
      ensures Bounded() && Grown() && Still() && snapshot.boundsExceeded == old(snapshot.boundsExceeded)
      ensures ok <==> stat.mode & 0x140 == 0x140 && world.open(q) == Opens && world.inside(q) == Some(stat)
                      && stat.kind == Directory && (stat.device == device || world.local(q) == Some(true))
      ensures ok ==> snapshot == old(snapshot)
      ensures !ok ==> !snapshot.complete
      ensures !ok ==> Counts(Some(if stat.mode & 0x140 != 0x140 || world.open(q) == Denied then Unreadable
                                  else if world.open(q) == Gone then Unstable
                                  else if world.open(q) == OpenFailed || world.inside(q).None? then MetadataError
                                  else if world.inside(q) != Some(stat) || stat.kind != Directory then Unstable
                                  else if world.local(q).None? then MetadataError else NonLocal))
    {
      ok := false;
      if stat.mode & 0x140 != 0x140 { Note(Unreadable); return; }
      match world.open(q) {
        case Denied => Note(Unreadable); return;
        case Gone => Note(Unstable); return;
        case OpenFailed => Note(MetadataError); return;
        case Opens =>
      }
      var inside := world.inside(q);
      if inside.None? { Note(MetadataError); return; }
      if inside.value != stat || inside.value.kind != Directory { Note(Unstable); return; }
      ok := MayTraverse(q, device, inside.value);
    }

    method VisitDirectory(q: Path, device: nat, stat: Stat)
      requires Valid() && world.stat(q) == Found(stat) && stat.kind == Directory && Admissible(limits, q)
      modifies this
      ensures Valid() && Grown() && Settled()
      ensures snapshot.complete ==> Explored(world, q, old(visited), visited)
      ensures old(Steady(world, q, device) && Smooth(q, stat.device))
              ==> snapshot.complete && |snapshot.entries| == old(|snapshot.entries|) + Weight(world, false, q, limits.depth - |q|)
      decreases limits.depth - |q|, 4
    {
      var ok := OpenDirectory(q, device, stat);
      if !ok { return; }
      Walk(q, stat.device);
      RecheckDirectory(q, stat);
    }

    /** Record the entry, and look below it if it is a directory. */
    method VisitEntry(p: Path, name: string, device: nat, stat: Stat)
      requires Valid() && |p| < limits.depth && world.stat(p + [name]) == Found(stat) && Admissible(limits, p + [name])
      requires |snapshot.entries| + pendingNames < limits.entries
      modifies this
      ensures Valid() && Grown() && Settled()
      ensures snapshot.complete ==> Entered(world, p, name, old(visited), visited)
      ensures old(SmoothEntry(p, name, device))
              ==> snapshot.complete
                  && |snapshot.entries| == old(|snapshot.entries|) + 1 + WeightBelow(world, false, p + [name], limits.depth - |p|)
      decreases limits.depth - |p|, 0
    {
      var q := p + [name];
      ghost var before, smooth, levels := visited, SmoothEntry(p, name, device), limits.depth - |p|;
      if smooth { SmoothBelow(world, limits.relativePathBytes, p, device, levels, name); }
      assert |q| == |p| + 1;
      Record(q, stat);
      ghost var mid, one := visited, |snapshot.entries|;
      assert smooth ==> snapshot.complete && one == old(|snapshot.entries|) + 1;
      if stat.kind == Directory {
        assert smooth ==> forall x :: x in visited ==> !(q < x);
        assert smooth ==> Smooth(q, stat.device);
        VisitDirectory(q, device, stat);
      }
      if snapshot.complete { EnteredBy(world, p, name, before, mid, visited); }
    }

    /** One turn of the walk's loop: the entry `name` of directory `p`. */
    method VisitName(p: Path, name: string, device: nat) returns (stop: bool)
      requires Valid() && |p| <= limits.depth && pendingNames > 0 && pendingNameBytes >= |name|
      modifies this
      ensures Valid() && Grown() && Released(1, |name|) && (stop ==> snapshot.boundsExceeded)
      ensures snapshot.complete ==> Entered(world, p, name, old(visited), visited)
      ensures old(SmoothName(p, name, device))
              ==> !stop && snapshot.complete
                  && |snapshot.entries| == old(|snapshot.entries|) + 1 + WeightBelow(world, false, p + [name], limits.depth - |p|)
      decreases limits.depth - |p|, 1
    {
      ReleasePendingName(name);
      stop := LimitReached(p, name);
      if stop { return; }
      match world.stat(p + [name]) {
        case Vanished => Note(Unstable);
        case StatFailed => Note(MetadataError);
        case Found(stat) => VisitEntry(p, name, device, stat);
      }
    }

    /** The walk's loop over the names it has read. */
    method VisitNames(p: Path, names: seq<string>, device: nat)
      requires Valid() && |p| <= limits.depth && pendingNames >= |names| && pendingNameBytes >= NameBytes(names)
      modifies this
      ensures Valid() && Grown() && Released(|names|, NameBytes(names))
      ensures snapshot.complete ==> Swept(world, p, names, old(visited), visited)
      ensures old(SmoothNames(p, names, device))
              ==> snapshot.complete
                  && |snapshot.entries| == old(|snapshot.entries|) + WeightOf(world, false, p, limits.depth - |p|, names)
      decreases limits.depth - |p|, 2
    {
      ghost var smooth, before, levels := SmoothNames(p, names, device), visited, limits.depth - |p|;
      ghost var target := |snapshot.entries| + WeightOf(world, false, p, levels, names);
      var i := 0;
      assert names[i..] == names;
      SweptNone(world, p, visited);
      while i < |names|
        invariant i <= |names| && Valid() && Grown() && Released(i, NameBytes(names) - NameBytes(names[i..]))
        invariant NameBytes(names[i..]) <= NameBytes(names)
        invariant snapshot.complete ==> Swept(world, p, names[..i], before, visited)
        invariant smooth ==> snapshot.complete && OrderlyNames(world, limits.relativePathBytes, p, device, levels, names[i..])
        invariant smooth ==> |snapshot.entries| + WeightOf(world, false, p, levels, names[i..]) == target
        invariant smooth ==> WeightOf(world, true, p, levels, names[i..]) - NameBytes(names[i..])
                             <= WeightOf(world, true, p, levels, names) - NameBytes(names)
      {
        WeightStep(world, p, levels, names, i);
        if smooth { NotYetVisited(world, p, names, i, before, visited); }
        ghost var mid := visited;
        var stop := VisitName(p, names[i], device);
        if stop { return; }
        if snapshot.complete { SweptStep(world, p, names, i, before, mid, visited); }
        i := i + 1;
      }
      assert names[..i] == names;
    }

    method Walk(p: Path, device: nat)
      requires Valid() && |p| <= limits.depth
      modifies this
      ensures Valid() && Grown() && Settled()
      ensures snapshot.complete ==> Explored(world, p, old(visited), visited)
      ensures old(Smooth(p, device))
              ==> snapshot.complete && |snapshot.entries| == old(|snapshot.entries|) + Weight(world, false, p, limits.depth - |p|)
      ensures snapshot.complete && Names(world, p) != [] ==> old(readings) < readings
      ensures AlwaysLate(world, limits) && NoStreamError(world.listing(p)) && Names(world, p) != [] ==> snapshot.boundsExceeded
      decreases limits.depth - |p|, 3
    {
      WeightAtLeast(world, p, limits.depth - |p|, Names(world, p));
      var names := ReadNames(p);
      VisitNames(p, names, device);
      if snapshot.complete { SweptAll(world, p, old(visited), visited); }
    }
  }

  lemma {:induction false} WeightAtLeast(w: World, p: Path, levels: nat, names: seq<string>)
    ensures WeightOf(w, false, p, levels, names) >= |names| && WeightOf(w, true, p, levels, names) >= NameBytes(names)
    decreases |names|
  {
    if names != [] { WeightAtLeast(w, p, levels, names[1..]); }
  }

  lemma WeightStep(w: World, p: Path, levels: nat, names: seq<string>, i: nat)
    requires i < |names|
    ensures names[i..][1..] == names[i + 1..] && names[i..][0] == names[i]
    ensures forall b :: WeightOf(w, b, p, levels, names[i..])
                        == Unit(b, names[i]) + WeightBelow(w, b, p + [names[i]], levels) + WeightOf(w, b, p, levels, names[i + 1..])
    ensures WeightOf(w, false, p, levels, names[i + 1..]) >= |names| - i - 1
    ensures WeightOf(w, true, p, levels, names[i + 1..]) >= NameBytes(names[i + 1..])
    ensures NameBytes(names[i..]) == |names[i]| + NameBytes(names[i + 1..])
  {
    assert names[i..][1..] == names[i + 1..];
    WeightAtLeast(w, p, levels, names[i + 1..]);
  }

  lemma HeadsBelow(p: Path, name: string)
    ensures forall x :: p + [name] <= x ==> p < x && x[|p|] == name
  {
    forall x | p + [name] <= x
      ensures p < x && x[|p|] == name
    {
      assert x[|p|] == (p + [name])[|p|];
    }
  }

  lemma NotYetVisited(w: World, p: Path, names: seq<string>, i: nat, before: set<Path>, visited: set<Path>)
    requires i < |names| && Distinct(names) && Swept(w, p, names[..i], before, visited)
    requires forall x :: x in before ==> !(p < x)
    ensures forall x :: x in visited ==> !(p + [names[i]] <= x)
  {
    assert names[i] !in names[..i];
    HeadsBelow(p, names[i]);
    forall x | x in visited
      ensures !(p + [names[i]] <= x)
    {
      assert x in before || ThroughAny(w, p, names[..i], x);
    }
  }

  lemma SweptNone(w: World, p: Path, visited: set<Path>)
    ensures Swept(w, p, [], visited, visited)
  {
  }

  lemma SweptStep(w: World, p: Path, names: seq<string>, i: nat, before: set<Path>, mid: set<Path>, visited: set<Path>)
    requires i < |names| && Swept(w, p, names[..i], before, mid) && Entered(w, p, names[i], mid, visited)
    ensures Swept(w, p, names[..i + 1], before, visited)
  {
    assert names[..i + 1] == names[..i] + [names[i]];
    forall x
      ensures x in visited <==> x in before || ThroughAny(w, p, names[..i + 1], x)
    {
      ThroughAnySnoc(w, p, names[..i], names[i], x);
    }
  }

  lemma SweptAll(w: World, p: Path, before: set<Path>, visited: set<Path>)
    requires Swept(w, p, Names(w, p), before, visited)
    ensures Explored(w, p, before, visited)
  {
    forall x
      ensures x in visited <==> x in before || Descendant(w, p, x)
    {
      DescendantIsThrough(w, p, x);
    }
  }

  /** Exactly what lies below `p` was added to the visited paths. */
  ghost predicate Explored(w: World, p: Path, before: set<Path>, visited: set<Path>) {
    forall x :: x in visited <==> x in before || Descendant(w, p, x)
  }

  ghost predicate Entered(w: World, p: Path, name: string, before: set<Path>, visited: set<Path>) {
    forall x :: x in visited <==> x in before || Through(w, p, name, x)
  }

  ghost predicate Swept(w: World, p: Path, names: seq<string>, before: set<Path>, visited: set<Path>) {
    forall x :: x in visited <==> x in before || ThroughAny(w, p, names, x)
  }

  lemma SmoothBelow(w: World, limit: nat, p: Path, device: nat, levels: nat, name: string)
    requires OrderlyName(w, limit, p, device, levels, name)
    ensures var q := p + [name];
            if IsDirectory(w, q) then
              && Steady(w, q, device) && Orderly(w, limit, q, w.stat(q).stat.device, levels - 1)
              && (forall b :: WeightBelow(w, b, q, levels) == Weight(w, b, q, levels - 1))
            else WeightBelow(w, false, q, levels) == 0
  {
  }

  lemma EnteredBy(w: World, p: Path, name: string, before: set<Path>, mid: set<Path>, visited: set<Path>)
    requires mid == before + {p + [name]}
    requires if IsDirectory(w, p + [name]) then Explored(w, p + [name], mid, visited) else visited == mid
    ensures Entered(w, p, name, before, visited)
  {
  }

  lemma CountSame(entries: map<string, EntryRecord>, key: string, record: EntryRecord)
    requires key in entries
    ensures |entries[key := record]| == |entries|
  {
    assert entries[key := record].Keys == entries.Keys;
    assert |entries[key := record]| == |entries[key := record].Keys| && |entries| == |entries.Keys|;
  }

  lemma KeptMore(stream: seq<Option<string>>, i: nat)
    requires i < |stream|
    ensures Kept(stream[..i + 1])
         == Kept(stream[..i]) + if stream[i].Some? && Ordinary(stream[i].value) then [stream[i].value] else []
  {
    assert stream[..i + 1][..i] == stream[..i];
  }

  lemma KeptStep(stream: seq<Option<string>>, i: nat, names: seq<string>)
    requires i < |stream| && names == Kept(stream[..i])
    ensures if stream[i].Some? && Ordinary(stream[i].value)
            then Kept(stream[..i + 1]) == names + [stream[i].value]
                 && NameBytes(names + [stream[i].value]) == NameBytes(names) + |stream[i].value|
            else Kept(stream[..i + 1]) == names
  {
    KeptMore(stream, i);
    if stream[i].Some? { NameBytesSnoc(names, stream[i].value); }
    assert names + [] == names;
  }

  /** A prefix of a stream keeps no more names, and no more name bytes, than the stream. */
  lemma {:induction false} KeptPrefixFits(stream: seq<Option<string>>, i: nat)
    requires i < |stream|
    ensures |Kept(stream[..i + 1])| <= |Kept(stream)| && NameBytes(Kept(stream[..i + 1])) <= NameBytes(Kept(stream))
    decreases |stream| - i
  {
    var longer := Kept(stream[..i + 1]);
    if i + 1 == |stream| {
      assert stream[..i + 1] == stream;
    } else {
      KeptMore(stream, i + 1);
      KeptPrefixFits(stream, i + 1);
      if stream[i + 1].Some? { NameBytesSnoc(longer, stream[i + 1].value); }
      assert longer + [] == longer;
    }
  }

  // -------------------------------------------------------------- one root

  datatype Root = Root(selector: Selector, world: World)

  /** The root opens, and is a directory private to the current user. */
  predicate RootIsPrivate(env: Setting, w: World) {
    && w.open([]) == Opens && w.inside([]).Some?
    && var stat := w.inside([]).value;
       stat.kind == Directory && stat.owner == env.user && stat.mode & 0x1FF == 0x1C0
  }

  function RootIdentityOf(stat: Stat): RootIdentity {
    RootIdentity(stat.device, stat.inode, stat.kind, stat.owner, stat.group)
  }

  /** An undisturbed, orderly root whose entries and names fit the limits. */
  ghost predicate Fits(w: World, limits: Limits) {
    && (forall k :: w.elapsed(k) < limits.phaseMilliseconds)
    && w.inside([]).Some? && w.after([]) == w.inside([])
    && Orderly(w, limits.relativePathBytes, [], w.inside([]).value.device, limits.depth)
    && Weight(w, false, [], limits.depth) <= limits.entries
    && Weight(w, true, [], limits.depth) <= limits.pendingNameBytes
  }

  /** `q` is an entry of the tree below root number `j`. */
  ghost predicate Below(roots: seq<Root>, j: nat, q: Path) {
    j < |roots| && Descendant(roots[j].world, [], q)
  }

  /** Every descendant is recorded, with its own metadata and class, under its own key. */
  ghost predicate ListsEach(env: Setting, roots: seq<Root>, entries: map<string, EntryRecord>) {
    forall j: nat, q :: Below(roots, j, q) ==> Recorded(env, roots[j].selector, roots[j].world, entries, q)
  }

  /** This key is that of a descendant. */
  ghost predicate Stands(env: Setting, roots: seq<Root>, k: string) {
    exists j: nat, q :: Below(roots, j, q) && env.key(roots[j].selector, q) == k
  }

  ghost predicate ListsOnly(env: Setting, roots: seq<Root>, entries: map<string, EntryRecord>) {
    forall k :: k in entries ==> Stands(env, roots, k)
  }

  /** Different descendants have different keys. */
  ghost predicate ListsApart(env: Setting, roots: seq<Root>) {
    forall i: nat, p, j: nat, q ::
      (Below(roots, i, p) && Below(roots, j, q) && env.key(roots[i].selector, p) == env.key(roots[j].selector, q))
      ==> i == j && p == q
  }

  /**
   * The entries are what a plain recursive listing of the roots gives: each
   * descendant is recorded, under a key that no other descendant has, and
   * nothing else is recorded.
   */
  ghost predicate Lists(env: Setting, roots: seq<Root>, entries: map<string, EntryRecord>) {
    ListsEach(env, roots, entries) && ListsOnly(env, roots, entries) && ListsApart(env, roots)
  }

  /** Everything below the root is within the depth and path-length limits. */
  ghost predicate AllAdmissible(w: World, limits: Limits) {
    forall q :: Descendant(w, [], q) ==> Admissible(limits, q)
  }

  lemma ExploredIsAdmissible(env: Setting, root: Root, limits: Limits, log: seq<Path>, visited: set<Path>)
    requires NoCollision(env, root.selector, root.world, limits, log) && visited == Paths(log)
    requires Explored(root.world, [], {}, visited)
    ensures AllAdmissible(root.world, limits)
  {
    forall q | Descendant(root.world, [], q)
      ensures Admissible(limits, q)
    {
      assert q in visited;
      LogAdmissible(env, root.selector, root.world, limits, log, q);
    }
  }

  lemma ExploredIsListed(env: Setting, root: Root, entries: map<string, EntryRecord>, origin: map<string, Path>, visited: set<Path>)
    requires Represents(env, root.selector, root.world, entries, origin, visited)
    requires Explored(root.world, [], {}, visited)
    ensures Lists(env, [root], entries)
  {
    forall k | k in entries
      ensures Stands(env, [root], k)
    {
      assert origin[k] in visited;
      assert Below([root], 0, origin[k]);
    }
  }

  /** The clock is past the limit whenever it is read, and the root has an entry. */
  ghost predicate LateRoot(w: World, limits: Limits) {
    AlwaysLate(w, limits) && Names(w, []) != []
  }

  /** A scan past its deadline is never complete, and says that it hit a bound, unless the listing failed before. */
  ghost predicate StopsInTime(w: World, limits: Limits, s: Snapshot) {
    && (s.complete && Names(w, []) != [] ==> w.elapsed(0) < limits.phaseMilliseconds)
    && (LateRoot(w, limits) ==> !s.complete)
    && (LateRoot(w, limits) && NoStreamError(w.listing([])) ==> s.boundsExceeded)
  }

  /** What a snapshot of one root says. */
  ghost predicate RootScanned(env: Setting, root: Root, limits: Limits, s: Snapshot) {
    && StopsInTime(root.world, limits, s)
    && Honest(s) && |s.entries| <= limits.entries && root.world.inside([]).Some?
    && s.roots == map[root.selector := |s.entries|]
    && s.rootIdentities == map[root.selector := RootIdentityOf(root.world.inside([]).value)]
    && s.rootComplete == map[root.selector := s.complete]
    && s.rootBoundsExceeded == map[root.selector := s.boundsExceeded]
    && (s.complete ==> Lists(env, [root], s.entries) && AllAdmissible(root.world, limits))
    && (Fits(root.world, limits) && KeysDistinct(env) ==> s.complete)
  }

  /** Walk an opened root, and check afterwards that it did not change. */
  method WalkRoot(env: Setting, root: Root, limits: Limits, stat: Stat) returns (s: Snapshot)
    ensures Honest(s) && |s.entries| <= limits.entries && StopsInTime(root.world, limits, s)
    ensures s.complete ==> Lists(env, [root], s.entries) && AllAdmissible(root.world, limits)
    ensures Fits(root.world, limits) && root.world.inside([]) == Some(stat) && KeysDistinct(env) ==> s.complete
  {
    var scanner := new Scanner(env, root.selector, root.world, limits);
    scanner.Walk([], stat.device);
    scanner.RecheckDirectory([], stat);
    s := scanner.snapshot;
    if s.complete && Names(root.world, []) != [] {
      OnTimeAt(root.world, limits.phaseMilliseconds, scanner.readings, 0);
    }
    if s.complete {
      LogRepresents(env, root.selector, root.world, limits, scanner.log);
      ExploredIsAdmissible(env, root, limits, scanner.log, scanner.visited);
      ExploredIsListed(env, root, s.entries, Origin(env, root.selector, scanner.log), scanner.visited);
    }
  }

  method ScanRoot(env: Setting, root: Root, limits: Limits) returns (result: Option<Snapshot>)
    ensures result.None? <==> !RootIsPrivate(env, root.world)
    ensures result.Some? ==> RootScanned(env, root, limits, result.value)
  {
    var w := root.world;
    if w.open([]) != Opens || w.inside([]).None? { return None; }
    var stat := w.inside([]).value;
    if stat.kind != Directory || stat.owner != env.user || stat.mode & 0x1FF != 0x1C0 { return None; }
    var s := WalkRoot(env, root, limits, stat);
    s := s.(roots := map[root.selector := |s.entries|],
            rootIdentities := map[root.selector := RootIdentityOf(stat)],
            rootComplete := map[root.selector := s.complete],
            rootBoundsExceeded := map[root.selector := s.boundsExceeded]);
    return Some(s);
  }

  /**
   * A tree that goes deeper than the limit, such as one with a cycle of bind
   * mounts, is never reported complete; the walk still ends.
   */
  lemma DeepTreesAreNeverComplete(env: Setting, root: Root, limits: Limits, s: Snapshot, q: Path)
    requires RootScanned(env, root, limits, s) && Descendant(root.world, [], q)
    requires |q| > limits.depth || PathBytes(q) > limits.relativePathBytes
    ensures !s.complete
  {
  }
}
