/**
 * What a discovery scan can observe of a directory tree, and the plain
 * definition of "everything below this directory" that the bounded scan in
 * module Scan is measured against.
 */
module Tree {
  import opened Base
  import opened Classify

  type u64 = n: nat | n <= U64_MAX

  /** A byte count that memory can hold, so that adding one more name never saturates unnoticed. */
  type ByteLimit = n: nat | n < U64_MAX

  datatype Limits = Limits(entries: u64, depth: nat, relativePathBytes: u64, phaseMilliseconds: u64, pendingNameBytes: ByteLimit)

  /** The metadata an entry is identified by; two stats are the same entry identity when they are equal. */
  datatype Stat = Stat(
    kind: Kind, device: nat, inode: nat, mode: bv12, owner: nat, group: nat, links: nat, size: int,
    modifiedSeconds: int, modifiedNanoseconds: int, changedSeconds: int, changedNanoseconds: int)

  datatype StatResult = Found(stat: Stat) | Vanished | StatFailed

  datatype OpenResult = Opens | Denied | Gone | OpenFailed

  /**
   * The answers the kernel gives during one scan, by path relative to the
   * root. The walk asks each question at most once per path, so a tree that
   * changes during the scan is covered too. A `None` in a listing is a
   * directory-stream error; `elapsed` gives the clock's successive readings.
   */
  datatype World = World(
    listing: Path -> seq<Option<string>>,
    stat: Path -> StatResult,
    open: Path -> OpenResult,
    inside: Path -> Option<Stat>,
    local: Path -> Option<bool>,
    after: Path -> Option<Stat>,
    elapsed: nat -> nat)

  // ------------------------------------------------------- the plain listing

  predicate Ordinary(name: string) {
    name != "." && name != ".."
  }

  /** The names in a directory stream, without the two dot entries. */
  function Kept(stream: seq<Option<string>>): seq<string>
    decreases |stream|
  {
    if stream == [] then []
    else
      var last := stream[|stream| - 1];
      Kept(stream[..|stream| - 1]) + if last.Some? && Ordinary(last.value) then [last.value] else []
  }

  function Names(w: World, p: Path): seq<string> {
    Kept(w.listing(p))
  }

  predicate IsDirectory(w: World, p: Path) {
    w.stat(p).Found? && w.stat(p).stat.kind == Directory
  }

  predicate Listed(w: World, q: Path, i: nat)
    requires i < |q|
  {
    q[i] in Names(w, q[..i])
  }

  /**
   * `q` lies below directory `p`: every component is listed in the directory
   * before it, and every directory on the way, other than `p`, is one.
   */
  ghost predicate Descendant(w: World, p: Path, q: Path) {
    p < q && forall i :: |p| <= i < |q| ==> Listed(w, q, i) && (i > |p| ==> IsDirectory(w, q[..i]))
  }

  /** `q` is the entry `name` of `p`, or lies below it. */
  ghost predicate Through(w: World, p: Path, name: string, q: Path) {
    q == p + [name] || (IsDirectory(w, p + [name]) && Descendant(w, p + [name], q))
  }

  /** `q` is one of the entries `names` of `p`, or lies below one of them. */
  ghost predicate ThroughAny(w: World, p: Path, names: seq<string>, q: Path) {
    p < q && q[|p|] in names && Through(w, p, q[|p|], q)
  }

  lemma ThroughHead(w: World, p: Path, name: string, q: Path)
    requires Through(w, p, name, q)
    ensures p < q && q[|p|] == name && q[..|p| + 1] == p + [name]
  {
    assert (p + [name])[..|p|] == p;
  }

  lemma DescendantIsThrough(w: World, p: Path, q: Path)
    ensures Descendant(w, p, q) <==> ThroughAny(w, p, Names(w, p), q)
  {
    if p < q {
      var child := p + [q[|p|]];
      assert q[..|p|] == p && q[..|p| + 1] == child;
      if |q| > |p| + 1 {
        assert child < q;
        if Descendant(w, p, q) {
          assert IsDirectory(w, q[..|p| + 1]);
        } else if ThroughAny(w, p, Names(w, p), q) {
          assert Listed(w, q, |p|);
        }
      } else {
        assert q == child;
        assert ThroughAny(w, p, Names(w, p), q) ==> Listed(w, q, |p|);
      }
    }
  }

  lemma ThroughAnySnoc(w: World, p: Path, names: seq<string>, name: string, q: Path)
    ensures ThroughAny(w, p, names + [name], q) <==> ThroughAny(w, p, names, q) || Through(w, p, name, q)
  {
    if Through(w, p, name, q) { ThroughHead(w, p, name, q); }
  }

  // ------------------------------------------------------------- path lengths

  function ParentBytes(parent: Path): nat
    decreases |parent|
  {
    if parent == [] then 0 else ParentBytes(parent[..|parent| - 1]) + |parent[|parent| - 1]| + 1
  }

  /** The length of a relative path written with separators. */
  function PathBytes(path: Path): nat
    requires path != []
  {
    ParentBytes(path[..|path| - 1]) + |path[|path| - 1]|
  }

  function NameBytes(names: seq<string>): nat
    decreases |names|
  {
    if names == [] then 0 else |names[0]| + NameBytes(names[1..])
  }

  lemma {:induction false} NameBytesSnoc(names: seq<string>, name: string)
    ensures NameBytes(names + [name]) == NameBytes(names) + |name|
    decreases |names|
  {
    if names == [] {
      assert (names + [name])[1..] == [];
    } else {
      assert (names + [name])[1..] == names[1..] + [name];
      NameBytesSnoc(names[1..], name);
    }
  }

  // ---------------------------------------------------- trees that can be read

  predicate Traversable(device: nat, stat: Stat, probe: Option<bool>) {
    stat.device == device || probe == Some(true)
  }

  /** A directory that can be opened, is on a local filesystem and does not change. */
  predicate Steady(w: World, p: Path, device: nat) {
    && w.stat(p).Found?
    && var stat := w.stat(p).stat;
       && stat.mode & 0x140 == 0x140 && w.open(p) == Opens && w.inside(p) == Some(stat)
       && Traversable(device, stat, w.local(p)) && w.after(p) == Some(stat)
  }

  predicate NoStreamError(stream: seq<Option<string>>) {
    forall i :: 0 <= i < |stream| ==> stream[i].Some?
  }

  /** Every entry below `p` can be read, and fits `levels` more levels and the path limit. */
  predicate Orderly(w: World, limit: nat, p: Path, device: nat, levels: nat)
    decreases levels, 1, 0
  {
    && NoStreamError(w.listing(p)) && Distinct(Names(w, p))
    && OrderlyNames(w, limit, p, device, levels, Names(w, p))
  }

  predicate OrderlyNames(w: World, limit: nat, p: Path, device: nat, levels: nat, names: seq<string>)
    decreases levels, 0, |names|
  {
    names == [] || (OrderlyName(w, limit, p, device, levels, names[0])
                    && OrderlyNames(w, limit, p, device, levels, names[1..]))
  }

  predicate OrderlyName(w: World, limit: nat, p: Path, device: nat, levels: nat, name: string)
    decreases levels, 0, 0
  {
    var q := p + [name];
    && levels > 0 && PathBytes(q) <= limit && w.stat(q).Found?
    && (IsDirectory(w, q) ==> Steady(w, q, device) && Orderly(w, limit, q, w.stat(q).stat.device, levels - 1))
  }

  /** How many entries, or how many name bytes, lie below `p`, looking `levels` deep. */
  function Weight(w: World, inBytes: bool, p: Path, levels: nat): nat
    decreases levels, 1, 0
  {
    WeightOf(w, inBytes, p, levels, Names(w, p))
  }

  function WeightOf(w: World, inBytes: bool, p: Path, levels: nat, names: seq<string>): nat
    decreases levels, 0, |names|
  {
    if names == [] then 0
    else Unit(inBytes, names[0]) + WeightBelow(w, inBytes, p + [names[0]], levels)
         + WeightOf(w, inBytes, p, levels, names[1..])
  }

  function WeightBelow(w: World, inBytes: bool, q: Path, levels: nat): nat
    decreases levels, 0, 0
  {
    if levels > 0 && IsDirectory(w, q) then Weight(w, inBytes, q, levels - 1) else 0
  }

  function Unit(inBytes: bool, name: string): nat {
    if inBytes then |name| else 1
  }

  // ------------------------------------------------------------ what these mean

  lemma {:induction false} KeptNames(stream: seq<Option<string>>, name: string)
    ensures name in Kept(stream) <==> Some(name) in stream && name != "." && name != ".."
    decreases |stream|
  {
    if stream != [] {
      KeptNames(stream[..|stream| - 1], name);
      assert stream == stream[..|stream| - 1] + [stream[|stream| - 1]];
    }
  }

  /** The entries of a directory are exactly the names its stream yields, the two dot entries apart. */
  lemma NamesAreTheListing(w: World, p: Path, name: string)
    ensures name in Names(w, p) <==> Some(name) in w.listing(p) && name != "." && name != ".."
  {
    KeptNames(w.listing(p), name);
  }

  /** The path written out, with separators. */
  function Written(path: Path): string
    decreases |path|
  {
    if path == [] then ""
    else if |path| == 1 then path[0]
    else Written(path[..|path| - 1]) + "/" + path[|path| - 1]
  }

  lemma {:induction false} ParentBytesAreWritten(path: Path)
    requires path != []
    ensures ParentBytes(path) == |Written(path)| + 1
    decreases |path|
  {
    if |path| > 1 { ParentBytesAreWritten(path[..|path| - 1]); }
    else { assert path[..|path| - 1] == []; }
  }

  /** The limited length is that of the path as it is written. */
  lemma PathBytesAreWritten(path: Path)
    requires path != []
    ensures PathBytes(path) == |Written(path)|
  {
    if |path| > 1 { ParentBytesAreWritten(path[..|path| - 1]); }
    else { assert path[..|path| - 1] == []; }
  }
}
