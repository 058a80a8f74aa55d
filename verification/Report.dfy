/**
 * The discovery report (`discovery/report.rs`) and what a shown delta means
 * for the files on disk.
 */
module Report {
  import opened Base
  import opened Classify
  import opened Tree
  import opened Scan
  import opened Snapshots
  import opened Discovery

  datatype ReportState = PostScanFailed | BoundsExceeded | RootIdentityChanged | ObservationGap | Measured

  datatype Totals = Totals(created: nat, modified: nat, replaced: nat, deleted: nat)

  datatype DiscoveryReport = DiscoveryReport(state: ReportState, complete: bool, delta: Option<Delta>, totals: Option<Totals>)

  /** Both scans are complete, within bounds, and of the same roots. */
  predicate Comparable(pre: Snapshot, post: Option<Snapshot>) {
    && post.Some? && pre.complete && post.value.complete && !pre.boundsExceeded && !post.value.boundsExceeded
    && pre.rootIdentities == post.value.rootIdentities
  }

  method MakeReport(pre: Snapshot, post: Option<Snapshot>) returns (r: DiscoveryReport)
    ensures r.delta.Some? <==> Comparable(pre, post)
    ensures r.complete == r.delta.Some? == r.totals.Some? == (r.state == Measured)
    ensures r.state == PostScanFailed <==> post.None?
    ensures r.state == BoundsExceeded <==> post.Some? && (pre.boundsExceeded || post.value.boundsExceeded)
    ensures r.state == RootIdentityChanged
            <==> post.Some? && !pre.boundsExceeded && !post.value.boundsExceeded && pre.rootIdentities != post.value.rootIdentities
    ensures r.delta.Some? ==> var all := pre.entries.Keys + post.value.entries.Keys;
                              && Tallied(pre.entries, post.value.entries, all, r.delta.value)
                              && r.totals == Some(Totals(
                                   Capped(|Changed(pre.entries, post.value.entries, all, Created)|),
                                   Capped(|Changed(pre.entries, post.value.entries, all, Modified)|),
                                   Capped(|Changed(pre.entries, post.value.entries, all, Replaced)|),
                                   Capped(|Changed(pre.entries, post.value.entries, all, Deleted)|)))
  {
    var boundsExceeded := pre.boundsExceeded || (post.Some? && post.value.boundsExceeded);
    var rootIdentityChanged := post.Some? && pre.rootIdentities != post.value.rootIdentities;
    var observationGap := !pre.complete || (post.Some? && !post.value.complete) || rootIdentityChanged;
    var delta, totals := None, None;
    if post.Some? && !boundsExceeded && !observationGap {
      var d := Diff(pre.entries, post.value.entries);
      delta, totals := Some(d), Some(Totals(Total(d.created), Total(d.modified), Total(d.replaced), Total(d.deleted)));
      TotalsAreExact(pre.entries, post.value.entries, d, Created);
      TotalsAreExact(pre.entries, post.value.entries, d, Modified);
      TotalsAreExact(pre.entries, post.value.entries, d, Replaced);
      TotalsAreExact(pre.entries, post.value.entries, d, Deleted);
    }
    var complete := post.Some? && pre.complete && post.value.complete && !boundsExceeded && !rootIdentityChanged;
    var state := if post.None? then PostScanFailed
                 else if boundsExceeded then BoundsExceeded
                 else if rootIdentityChanged then RootIdentityChanged
                 else if observationGap then ObservationGap
                 else Measured;
    r := DiscoveryReport(state, complete, delta, totals);
  }

  /** The snapshot of a scan that did not return in time. */
  method Stalled(selectors: seq<Selector>) returns (s: Snapshot)
    ensures Honest(s) && !s.complete && s.boundsExceeded
    ensures forall i :: 0 <= i < |selectors| ==> selectors[i] in s.rootComplete && !s.rootComplete[selectors[i]]
    ensures forall i :: 0 <= i < |selectors| ==> selectors[i] in s.rootBoundsExceeded && s.rootBoundsExceeded[selectors[i]]
    ensures forall other: Snapshot :: !Comparable(s, Some(other)) && !Comparable(other, Some(s))
  {
    s := EMPTY_SNAPSHOT.(complete := false, boundsExceeded := true);
    for i := 0 to |selectors|
      invariant s == EMPTY_SNAPSHOT.(complete := false, boundsExceeded := true, rootComplete := s.rootComplete,
                                    rootBoundsExceeded := s.rootBoundsExceeded)
      invariant forall j :: 0 <= j < i ==> selectors[j] in s.rootComplete && selectors[j] in s.rootBoundsExceeded
      invariant forall x :: x in s.rootComplete ==> !s.rootComplete[x]
      invariant forall x :: x in s.rootBoundsExceeded ==> s.rootBoundsExceeded[x]
    {
      s := s.(rootComplete := s.rootComplete[selectors[i] := false],
              rootBoundsExceeded := s.rootBoundsExceeded[selectors[i] := true]);
    }
  }

  // ------------------------------------------------------- what a delta means

  /** A complete snapshot of distinctly selected roots. */
  ghost predicate Full(env: Setting, roots: seq<Root>, limits: Limits, s: Snapshot) {
    RootsScanned(env, roots, limits, s) && s.complete && DistinctSelectors(roots)
  }

  /** The two scans look at the same selectors, in the same order. */
  predicate SameSelection(before: seq<Root>, after: seq<Root>) {
    |before| == |after| && forall i :: 0 <= i < |before| ==> before[i].selector == after[i].selector
  }

  /** A key in a full snapshot belongs to the one descendant that has it. */
  lemma KeyMeansDescendant(env: Setting, roots: seq<Root>, limits: Limits, s: Snapshot, j: nat, q: Path)
    requires Full(env, roots, limits, s) && KeysDistinct(env) && j < |roots| && Countable(q)
    ensures env.key(roots[j].selector, q) in s.entries <==> Below(roots, j, q)
    ensures Below(roots, j, q) ==> Recorded(env, roots[j].selector, roots[j].world, s.entries, q)
  {
    var k := env.key(roots[j].selector, q);
    if k in s.entries {
      assert Stands(env, roots, k);
      var i: nat, p :| Below(roots, i, p) && env.key(roots[i].selector, p) == k;
      assert Admissible(limits, p);
      assert Countable(p);
    }
  }

  lemma DescendantIsCountable(env: Setting, roots: seq<Root>, limits: Limits, s: Snapshot, j: nat, q: Path)
    requires Full(env, roots, limits, s) && Below(roots, j, q)
    ensures Countable(q)
  {
    assert Admissible(limits, q);
  }

  /** What happened to path `q` of root `j`, told from the trees themselves. */
  ghost function PathChange(before: seq<Root>, after: seq<Root>, j: nat, q: Path): Change
    requires Below(before, j, q) || Below(after, j, q)
    requires Below(before, j, q) ==> before[j].world.stat(q).Found?
    requires Below(after, j, q) ==> after[j].world.stat(q).Found?
  {
    if !Below(before, j, q) then Created
    else if !Below(after, j, q) then Deleted
    else if before[j].world.stat(q) == after[j].world.stat(q) then Unchanged
    else
      var earlier, later := before[j].world.stat(q).stat, after[j].world.stat(q).stat;
      if earlier.kind == later.kind && earlier.device == later.device && earlier.inode == later.inode then Modified
      else Replaced
  }

  /** What a snapshot records of path `q` of root `j`: nothing, or its class and metadata under its key. */
  ghost predicate Tells(env: Setting, roots: seq<Root>, entries: Entries, j: nat, q: Path)
    requires j < |roots|
  {
    && (env.key(roots[j].selector, q) in entries <==> Below(roots, j, q))
    && (Below(roots, j, q) ==> Recorded(env, roots[j].selector, roots[j].world, entries, q))
  }

  lemma ToldChange(env: Setting, before: seq<Root>, after: seq<Root>, pre: Entries, post: Entries, j: nat, q: Path)
    requires j < |before| == |after| && before[j].selector == after[j].selector && (Below(before, j, q) || Below(after, j, q))
    requires Tells(env, before, pre, j, q) && Tells(env, after, post, j, q)
    ensures Below(before, j, q) ==> before[j].world.stat(q).Found?
    ensures Below(after, j, q) ==> after[j].world.stat(q).Found?
    ensures var k := env.key(before[j].selector, q);
            && (k in pre || k in post) && ChangeOf(pre, post, k) == PathChange(before, after, j, q)
            && ClassAt(pre, post, k)
               == env.class_(before[j].selector, q, (if Below(after, j, q) then after else before)[j].world.stat(q).stat.kind)
  {
  }

  /**
   * A delta between two full snapshots counts each path once, for what really
   * happened to it: the change recorded under its key is the change of the path.
   */
  lemma DeltaIsAboutPaths(env: Setting, limits: Limits, before: seq<Root>, after: seq<Root>, pre: Snapshot, post: Snapshot,
                          j: nat, q: Path)
    requires Full(env, before, limits, pre) && Full(env, after, limits, post) && KeysDistinct(env)
    requires SameSelection(before, after) && (Below(before, j, q) || Below(after, j, q))
    ensures Below(before, j, q) ==> before[j].world.stat(q).Found?
    ensures Below(after, j, q) ==> after[j].world.stat(q).Found?
    ensures var k := env.key(before[j].selector, q);
            && (k in pre.entries || k in post.entries)
            && ChangeOf(pre.entries, post.entries, k) == PathChange(before, after, j, q)
            && ClassAt(pre.entries, post.entries, k)
               == env.class_(before[j].selector, q, (if Below(after, j, q) then after else before)[j].world.stat(q).stat.kind)
  {
    if Below(before, j, q) {
      DescendantIsCountable(env, before, limits, pre, j, q);
    } else {
      DescendantIsCountable(env, after, limits, post, j, q);
    }
    KeyMeansDescendant(env, before, limits, pre, j, q);
    KeyMeansDescendant(env, after, limits, post, j, q);
    ToldChange(env, before, after, pre.entries, post.entries, j, q);
  }

  /** The directory opened as root `j` is the same one in both scans. */
  predicate SameRoot(before: Root, after: Root)
    requires before.world.inside([]).Some? && after.world.inside([]).Some?
  {
    var a, b := before.world.inside([]).value, after.world.inside([]).value;
    a.device == b.device && a.inode == b.inode && a.kind == b.kind && a.owner == b.owner && a.group == b.group
  }

  lemma IdentitiesAgree(roots: seq<Root>, others: seq<Root>, a: map<Selector, RootIdentity>, b: map<Selector, RootIdentity>)
    requires IdentitiesOf(roots, a) && IdentitiesOf(others, b) && SameSelection(roots, others)
    ensures a == b <==> forall j :: 0 <= j < |roots| ==> SameRoot(roots[j], others[j])
  {
    if forall j :: 0 <= j < |roots| ==> SameRoot(roots[j], others[j]) {
      forall s
        ensures (s in a <==> s in b) && (s in a && s in b ==> a[s] == b[s])
      {
        if s in a {
          var j :| 0 <= j < |roots| && roots[j].selector == s;
          assert SameRoot(roots[j], others[j]);
        }
        if s in b {
          var j :| 0 <= j < |others| && others[j].selector == s;
          assert SameRoot(roots[j], others[j]);
        }
      }
    }
  }

  /** Two scans of the same selection can be compared if and only if both are complete and each root is the same directory. */
  lemma ComparableExactlyWhen(env: Setting, limits: Limits, before: seq<Root>, after: seq<Root>, pre: Snapshot, post: Snapshot)
    requires RootsScanned(env, before, limits, pre) && RootsScanned(env, after, limits, post)
    requires DistinctSelectors(before) && DistinctSelectors(after) && SameSelection(before, after)
    ensures (forall j :: 0 <= j < |before| ==> before[j].world.inside([]).Some? && after[j].world.inside([]).Some?)
    ensures Comparable(pre, Some(post))
       <==> pre.complete && post.complete && forall j :: 0 <= j < |before| ==> SameRoot(before[j], after[j])
  {
    IdentitiesAgree(before, after, pre.rootIdentities, post.rootIdentities);
  }

  lemma SameObjectSameClass(env: Setting, limits: Limits, before: seq<Root>, after: seq<Root>, pre: Snapshot, post: Snapshot, k: string)
    requires Full(env, before, limits, pre) && Full(env, after, limits, post) && KeysDistinct(env)
    requires SameSelection(before, after) && k in pre.entries && k in post.entries
    requires SameObject(pre.entries[k].identity, post.entries[k].identity)
    ensures pre.entries[k].class_ == post.entries[k].class_
  {
    assert Stands(env, before, k);
    var j: nat, q :| Below(before, j, q) && env.key(before[j].selector, q) == k;
    DescendantIsCountable(env, before, limits, pre, j, q);
    KeyMeansDescendant(env, before, limits, pre, j, q);
    KeyMeansDescendant(env, after, limits, post, j, q);
  }

  /** So between full snapshots `modified` is symmetric class by class. */
  lemma FullSnapshotsMirror(env: Setting, limits: Limits, before: seq<Root>, after: seq<Root>, pre: Snapshot, post: Snapshot,
                            there: Delta, back: Delta, class_: Class)
    requires Full(env, before, limits, pre) && Full(env, after, limits, post) && KeysDistinct(env)
    requires SameSelection(before, after)
    requires Tallied(pre.entries, post.entries, pre.entries.Keys + post.entries.Keys, there)
    requires Tallied(post.entries, pre.entries, post.entries.Keys + pre.entries.Keys, back)
    ensures Of(back.created, class_) == Of(there.deleted, class_) && Of(back.deleted, class_) == Of(there.created, class_)
    ensures Of(back.modified, class_) == Of(there.modified, class_)
  {
    assert ClassesFollowObjects(pre.entries, post.entries) by {
      forall k | k in pre.entries && k in post.entries && SameObject(pre.entries[k].identity, post.entries[k].identity)
        ensures pre.entries[k].class_ == post.entries[k].class_
      {
        SameObjectSameClass(env, limits, before, after, pre, post, k);
      }
    }
    DiffMirrors(pre.entries, post.entries, there, back, class_);
  }

  /** A socket is a class of its own, whatever path it has, unless the path is credential-shaped. */
  lemma SocketsHaveTheirOwnClass(caches: seq<Path>, selector: Selector, path: Path)
    requires !CredentialShapedPath(path)
    ensures ClassOf(caches, selector, path, Socket) == RuntimeSocket && ClassOf(caches, selector, path, Regular) != RuntimeSocket
  {
    SpecialClassesExactly(caches, selector, path, Socket);
    SpecialClassesExactly(caches, selector, path, Regular);
  }

  /** What a snapshot holds that found just one entry, `path`. */
  ghost function Alone(env: Setting, selector: Selector, path: Path, stat: Stat): Entries {
    map[env.key(selector, path) := RecordOf(env, selector, path, stat)]
  }

  /**
   * `replaced` is not symmetric class by class: wherever a socket takes the
   * place of a regular file, the change is counted under another class each
   * way.
   */
  lemma ReplacedChangesClass(hash: string -> string, caches: seq<Path>, selector: Selector, path: Path, file: Stat, there: Delta, back: Delta)
    requires !CredentialShapedPath(path) && file.kind == Regular
    requires var env := Standard(hash, caches, file.owner);
             var pre, post := Alone(env, selector, path, file), Alone(env, selector, path, file.(kind := Socket));
             Tallied(pre, post, pre.Keys + post.Keys, there) && Tallied(post, pre, post.Keys + pre.Keys, back)
    ensures Of(there.replaced, RuntimeSocket) == 1 && Of(back.replaced, RuntimeSocket) == 0
  {
    var env := Standard(hash, caches, file.owner);
    var pre, post := Alone(env, selector, path, file), Alone(env, selector, path, file.(kind := Socket));
    var k := env.key(selector, path);
    SocketsHaveTheirOwnClass(caches, selector, path);
    assert Cell(pre, post, pre.Keys + post.Keys, Replaced, RuntimeSocket) == {k};
    assert Cell(post, pre, post.Keys + pre.Keys, Replaced, RuntimeSocket) == {};
    assert Of(CountsFor(there, Replaced), RuntimeSocket) == 1 && Of(CountsFor(back, Replaced), RuntimeSocket) == 0;
  }
}
