/**
 * One snapshot over several roots (`scan_with` and `merge` in
 * `discovery/scan.rs`).
 */
module Snapshots {
  import opened Base
  import opened Classify
  import opened Tree
  import opened Scan

  /** Counters and root tables of two parts put together; entries, `complete` and collisions are left to `Merge`. */
  function Combined(a: Snapshot, b: Snapshot): Snapshot {
    a.(roots := a.roots + b.roots,
       rootIdentities := a.rootIdentities + b.rootIdentities,
       rootComplete := a.rootComplete + b.rootComplete,
       rootBoundsExceeded := a.rootBoundsExceeded + b.rootBoundsExceeded,
       boundsExceeded := a.boundsExceeded || b.boundsExceeded,
       unreadableDirectories := SaturatingAdd(a.unreadableDirectories, b.unreadableDirectories),
       unstableEntries := SaturatingAdd(a.unstableEntries, b.unstableEntries),
       foreignOwned := SaturatingAdd(a.foreignOwned, b.foreignOwned),
       nonLocalFilesystems := SaturatingAdd(a.nonLocalFilesystems, b.nonLocalFilesystems),
       metadataErrors := SaturatingAdd(a.metadataErrors, b.metadataErrors))
  }

  ghost function Restricted(entries: map<string, EntryRecord>, keys: set<string>): map<string, EntryRecord> {
    map k | k in keys && k in entries :: entries[k]
  }

  /** What the merge has done when the keys `todo` are still to be inserted. */
  ghost predicate Inserted(entries: map<string, EntryRecord>, part: map<string, EntryRecord>, todo: set<string>,
                           merged: map<string, EntryRecord>, collided: bool)
  {
    merged == entries + Restricted(part, part.Keys - todo) && (collided <==> !(entries.Keys !! part.Keys - todo))
  }

  lemma InsertedMore(entries: map<string, EntryRecord>, part: map<string, EntryRecord>, todo: set<string>,
                     merged: map<string, EntryRecord>, collided: bool, key: string)
    requires Inserted(entries, part, todo, merged, collided) && key in todo && todo <= part.Keys
    ensures Inserted(entries, part, todo - {key}, merged[key := part[key]], collided || key in merged)
  {
    assert part.Keys - (todo - {key}) == part.Keys - todo + {key};
    assert merged[key := part[key]] == entries + Restricted(part, part.Keys - (todo - {key}));
  }

  lemma InsertedAll(entries: map<string, EntryRecord>, part: map<string, EntryRecord>,
                    merged: map<string, EntryRecord>, collided: bool)
    requires Inserted(entries, part, {}, merged, collided)
    ensures merged == entries + part && (collided <==> !(entries.Keys !! part.Keys))
  {
    assert part.Keys - {} == part.Keys && Restricted(part, part.Keys) == part;
  }

  /** Insert one part's entries; returns how often a key was already taken. */
  method MergeEntries(entries: map<string, EntryRecord>, part: map<string, EntryRecord>)
    returns (merged: map<string, EntryRecord>, collisions: nat)
    ensures merged == entries + part
    ensures collisions == 0 <==> entries.Keys !! part.Keys
  {
    merged, collisions := entries, 0;
    var todo := part.Keys;
    assert Inserted(entries, part, todo, merged, false);
    while todo != {}
      invariant todo <= part.Keys
      invariant Inserted(entries, part, todo, merged, collisions != 0)
      decreases |todo|
    {
      var key :| key in todo;
      InsertedMore(entries, part, todo, merged, collisions != 0, key);
      if key in merged { collisions := SaturatingAdd(collisions, 1); }
      merged := merged[key := part[key]];
      todo := todo - {key};
    }
    InsertedAll(entries, part, merged, collisions != 0);
  }

  /** What merging two snapshots gives. */
  ghost predicate Merged(a: Snapshot, b: Snapshot, s: Snapshot) {
    && s.entries == a.entries + b.entries
    && s == Combined(a, b).(entries := s.entries, complete := s.complete, entryKeyCollisions := s.entryKeyCollisions)
    && (s.complete <==> a.complete && b.complete && a.entries.Keys !! b.entries.Keys)
    && (s.entryKeyCollisions == 0 <==>
        a.entryKeyCollisions == 0 && b.entryKeyCollisions == 0 && a.entries.Keys !! b.entries.Keys)
  }

  method Merge(combined: Snapshot, part: Snapshot) returns (s: Snapshot)
    ensures Merged(combined, part, s)
  {
    var merged, collisions := MergeEntries(combined.entries, part.entries);
    s := Combined(combined, part).(
      entries := merged,
      complete := combined.complete && collisions == 0 && part.complete,
      entryKeyCollisions := SaturatingAdd(SaturatingAdd(combined.entryKeyCollisions, collisions), part.entryKeyCollisions));
  }

  /** Merging keeps `complete` honest. */
  lemma MergedIsHonest(a: Snapshot, b: Snapshot, s: Snapshot)
    requires Honest(a) && Honest(b) && Merged(a, b, s)
    ensures Honest(s)
    ensures s.boundsExceeded <==> a.boundsExceeded || b.boundsExceeded
    ensures s.unreadableDirectories == SaturatingAdd(a.unreadableDirectories, b.unreadableDirectories)
    ensures s.unstableEntries == SaturatingAdd(a.unstableEntries, b.unstableEntries)
    ensures s.foreignOwned == SaturatingAdd(a.foreignOwned, b.foreignOwned)
    ensures s.nonLocalFilesystems == SaturatingAdd(a.nonLocalFilesystems, b.nonLocalFilesystems)
    ensures s.metadataErrors == SaturatingAdd(a.metadataErrors, b.metadataErrors)
    ensures s.roots == a.roots + b.roots && s.rootIdentities == a.rootIdentities + b.rootIdentities
    ensures s.rootComplete == a.rootComplete + b.rootComplete && s.rootBoundsExceeded == a.rootBoundsExceeded + b.rootBoundsExceeded
  {
  }

  // ------------------------------------------------------------ several roots

  predicate DistinctSelectors(roots: seq<Root>) {
    forall i, j :: 0 <= i < j < |roots| ==> roots[i].selector != roots[j].selector
  }

  ghost predicate AllFit(roots: seq<Root>, limits: Limits) {
    forall i :: 0 <= i < |roots| ==> Fits(roots[i].world, limits)
  }

  lemma RecordedInUnion(env: Setting, selector: Selector, w: World, a: map<string, EntryRecord>, b: map<string, EntryRecord>, q: Path)
    requires a.Keys !! b.Keys && (Recorded(env, selector, w, a, q) || Recorded(env, selector, w, b, q))
    ensures Recorded(env, selector, w, a + b, q)
  {
  }

  lemma BelowMore(roots: seq<Root>, root: Root, j: nat, q: Path)
    ensures Below(roots + [root], j, q) <==> if j == |roots| then Below([root], 0, q) else Below(roots, j, q)
    ensures j < |roots| ==> (roots + [root])[j] == roots[j]
    ensures (roots + [root])[|roots|] == root
  {
  }

  lemma StandsMore(env: Setting, roots: seq<Root>, root: Root, k: string)
    requires Stands(env, roots, k) || Stands(env, [root], k)
    ensures Stands(env, roots + [root], k)
  {
    if Stands(env, roots, k) {
      var j: nat, q :| Below(roots, j, q) && env.key(roots[j].selector, q) == k;
      BelowMore(roots, root, j, q);
    } else {
      var j: nat, q :| Below([root], j, q) && env.key([root][j].selector, q) == k;
      BelowMore(roots, root, |roots|, q);
    }
  }

  lemma EachMore(env: Setting, roots: seq<Root>, root: Root, a: map<string, EntryRecord>, b: map<string, EntryRecord>)
    requires ListsEach(env, roots, a) && ListsEach(env, [root], b) && a.Keys !! b.Keys
    ensures ListsEach(env, roots + [root], a + b)
  {
    var all := roots + [root];
    forall j: nat, q | Below(all, j, q)
      ensures Recorded(env, all[j].selector, all[j].world, a + b, q)
    {
      BelowMore(roots, root, j, q);
      RecordedInUnion(env, all[j].selector, all[j].world, a, b, q);
    }
  }

  lemma ApartMore(env: Setting, roots: seq<Root>, root: Root, a: map<string, EntryRecord>, b: map<string, EntryRecord>)
    requires ListsEach(env, roots, a) && ListsApart(env, roots) && ListsEach(env, [root], b) && ListsApart(env, [root])
    requires a.Keys !! b.Keys
    ensures ListsApart(env, roots + [root])
  {
    var all := roots + [root];
    forall i: nat, p, j: nat, q | Below(all, i, p) && Below(all, j, q)
                                  && env.key(all[i].selector, p) == env.key(all[j].selector, q)
      ensures i == j && p == q
    {
      BelowMore(roots, root, i, p);
      BelowMore(roots, root, j, q);
    }
  }

  /** Two listings with separate keys together list both groups of roots. */
  lemma ListsUnion(env: Setting, roots: seq<Root>, root: Root, a: map<string, EntryRecord>, b: map<string, EntryRecord>)
    requires Lists(env, roots, a) && Lists(env, [root], b) && a.Keys !! b.Keys
    ensures Lists(env, roots + [root], a + b)
  {
    EachMore(env, roots, root, a, b);
    ApartMore(env, roots, root, a, b);
    forall k | k in a + b
      ensures Stands(env, roots + [root], k)
    {
      StandsMore(env, roots, root, k);
    }
  }

  /** The key of an entry of one root is not the key of an entry of the others. */
  lemma StandsForOne(env: Setting, roots: seq<Root>, root: Root, limits: Limits, k: string)
    requires KeysDistinct(env) && DistinctSelectors(roots + [root]) && AllAdmissible(root.world, limits)
    requires forall i :: 0 <= i < |roots| ==> AllAdmissible(roots[i].world, limits)
    ensures !Stands(env, roots, k) || !Stands(env, [root], k)
  {
    if Stands(env, roots, k) && Stands(env, [root], k) {
      var i: nat, p :| Below(roots, i, p) && env.key(roots[i].selector, p) == k;
      var j: nat, q :| Below([root], j, q) && env.key([root][j].selector, q) == k;
      assert Countable(p) && Countable(q);
      BelowMore(roots, root, i, p);
    }
  }

  /** The keys of different roots never meet when the digest keeps paths apart. */
  lemma KeysSeparate(env: Setting, roots: seq<Root>, root: Root, limits: Limits,
                     a: map<string, EntryRecord>, b: map<string, EntryRecord>)
    requires ListsOnly(env, roots, a) && ListsOnly(env, [root], b) && KeysDistinct(env)
    requires DistinctSelectors(roots + [root]) && AllAdmissible(root.world, limits)
    requires forall i :: 0 <= i < |roots| ==> AllAdmissible(roots[i].world, limits)
    ensures a.Keys !! b.Keys
  {
    forall k | k in a
      ensures k !in b
    {
      StandsForOne(env, roots, root, limits, k);
    }
  }

  /** Each selected root is listed with the identity it had when it was opened, and no other root is. */
  ghost predicate IdentitiesOf(roots: seq<Root>, identities: map<Selector, RootIdentity>) {
    && (forall i :: 0 <= i < |roots| ==> roots[i].selector in identities && roots[i].world.inside([]).Some?
                                         && identities[roots[i].selector] == RootIdentityOf(roots[i].world.inside([]).value))
    && (forall s :: s in identities ==> exists i :: 0 <= i < |roots| && roots[i].selector == s)
  }

  /** A snapshot that claims to be complete lists all its roots, all within the limits. */
  ghost predicate RootsListed(env: Setting, roots: seq<Root>, limits: Limits, s: Snapshot) {
    s.complete ==> Lists(env, roots, s.entries) && forall i :: 0 <= i < |roots| ==> AllAdmissible(roots[i].world, limits)
  }

  /** Undisturbed roots that fit the limits are scanned completely. */
  ghost predicate RootsUndisturbed(env: Setting, roots: seq<Root>, limits: Limits, s: Snapshot) {
    AllFit(roots, limits) && KeysDistinct(env) && DistinctSelectors(roots) ==> s.complete
  }

  /** One root scanned past its deadline makes the whole snapshot incomplete and out of bounds. */
  ghost predicate RootsStopInTime(roots: seq<Root>, limits: Limits, s: Snapshot) {
    forall i :: 0 <= i < |roots| && LateRoot(roots[i].world, limits)
      ==> !s.complete && (NoStreamError(roots[i].world.listing([])) ==> s.boundsExceeded)
  }

  /** What a snapshot of several roots says. */
  ghost predicate RootsScanned(env: Setting, roots: seq<Root>, limits: Limits, s: Snapshot) {
    && RootsStopInTime(roots, limits, s)
    && Honest(s) && RootsListed(env, roots, limits, s) && RootsUndisturbed(env, roots, limits, s)
    && (DistinctSelectors(roots) ==> IdentitiesOf(roots, s.rootIdentities))
  }

  /** In plain terms: which device, inode, kind and owners a root is listed with. */
  lemma RootsAreListedAsOpened(env: Setting, roots: seq<Root>, limits: Limits, s: Snapshot, i: nat)
    requires RootsScanned(env, roots, limits, s) && DistinctSelectors(roots) && i < |roots|
    ensures roots[i].selector in s.rootIdentities && roots[i].world.inside([]).Some?
    ensures var id, stat := s.rootIdentities[roots[i].selector], roots[i].world.inside([]).value;
            id.device == stat.device && id.inode == stat.inode && id.kind == stat.kind && id.owner == stat.owner && id.group == stat.group
  {
    assert IdentitiesOf(roots, s.rootIdentities);
  }

  lemma FewerRoots(roots: seq<Root>, root: Root, limits: Limits)
    ensures DistinctSelectors(roots + [root]) ==> DistinctSelectors(roots)
    ensures AllFit(roots + [root], limits) ==> AllFit(roots, limits) && Fits(root.world, limits)
  {
    assert forall i :: 0 <= i < |roots| ==> (roots + [root])[i] == roots[i];
    assert (roots + [root])[|roots|] == root;
  }

  lemma IdentitiesUnion(roots: seq<Root>, root: Root, a: map<Selector, RootIdentity>, b: map<Selector, RootIdentity>)
    requires IdentitiesOf(roots, a) && root.world.inside([]).Some?
    requires b == map[root.selector := RootIdentityOf(root.world.inside([]).value)] && DistinctSelectors(roots + [root])
    ensures IdentitiesOf(roots + [root], a + b)
  {
    var all := roots + [root];
    assert all[|roots|] == root && forall i :: 0 <= i < |roots| ==> all[i] == roots[i];
  }

  lemma OneMoreListed(env: Setting, roots: seq<Root>, root: Root, limits: Limits, a: Snapshot, b: Snapshot, s: Snapshot)
    requires RootsListed(env, roots, limits, a) && Merged(a, b, s)
    requires b.complete ==> Lists(env, [root], b.entries) && AllAdmissible(root.world, limits)
    ensures RootsListed(env, roots + [root], limits, s)
  {
    if s.complete { ListsUnion(env, roots, root, a.entries, b.entries); }
  }

  lemma OneMoreUndisturbed(env: Setting, roots: seq<Root>, root: Root, limits: Limits, a: Snapshot, b: Snapshot, s: Snapshot)
    requires RootsListed(env, roots, limits, a) && RootsUndisturbed(env, roots, limits, a) && Merged(a, b, s)
    requires b.complete ==> Lists(env, [root], b.entries) && AllAdmissible(root.world, limits)
    requires Fits(root.world, limits) && KeysDistinct(env) ==> b.complete
    ensures RootsUndisturbed(env, roots + [root], limits, s)
  {
    FewerRoots(roots, root, limits);
    if AllFit(roots + [root], limits) && KeysDistinct(env) && DistinctSelectors(roots + [root]) {
      KeysSeparate(env, roots, root, limits, a.entries, b.entries);
    }
  }

  lemma OneMoreStopsInTime(roots: seq<Root>, root: Root, limits: Limits, a: Snapshot, b: Snapshot, s: Snapshot)
    requires RootsStopInTime(roots, limits, a) && StopsInTime(root.world, limits, b) && Merged(a, b, s)
    ensures RootsStopInTime(roots + [root], limits, s)
  {
    var all := roots + [root];
    assert all[|roots|] == root && forall i :: 0 <= i < |roots| ==> all[i] == roots[i];
  }

  lemma OneMoreRoot(env: Setting, roots: seq<Root>, root: Root, limits: Limits, a: Snapshot, b: Snapshot, s: Snapshot)
    requires RootsScanned(env, roots, limits, a) && RootScanned(env, root, limits, b) && Merged(a, b, s)
    ensures RootsScanned(env, roots + [root], limits, s)
  {
    MergedIsHonest(a, b, s);
    FewerRoots(roots, root, limits);
    if DistinctSelectors(roots + [root]) { IdentitiesUnion(roots, root, a.rootIdentities, b.rootIdentities); }
    OneMoreStopsInTime(roots, root, limits, a, b, s);
    OneMoreListed(env, roots, root, limits, a, b, s);
    OneMoreUndisturbed(env, roots, root, limits, a, b, s);
  }

  lemma NoRoots(env: Setting, limits: Limits)
    ensures RootsScanned(env, [], limits, EMPTY_SNAPSHOT)
  {
  }

  /** One turn of the loop over the roots: scan one and merge it in. */
  method AddRoot(env: Setting, ghost roots: seq<Root>, root: Root, limits: Limits, combined: Snapshot)
    returns (result: Option<Snapshot>)
    requires RootsScanned(env, roots, limits, combined)
    ensures result.None? <==> !RootIsPrivate(env, root.world)
    ensures result.Some? ==> RootsScanned(env, roots + [root], limits, result.value)
  {
    var part := ScanRoot(env, root, limits);
    if part.None? { return None; }
    var merged := Merge(combined, part.value);
    OneMoreRoot(env, roots, root, limits, combined, part.value, merged);
    return Some(merged);
  }

  /**
   * `scan_with`: a snapshot of several roots. A root that cannot be opened
   * safely fails the whole scan.
   */
  method ScanRoots(env: Setting, roots: seq<Root>, limits: Limits) returns (result: Option<Snapshot>)
    ensures result.None? <==> exists i :: 0 <= i < |roots| && !RootIsPrivate(env, roots[i].world)
    ensures result.Some? ==> RootsScanned(env, roots, limits, result.value)
  {
    NoRoots(env, limits);
    result := Some(EMPTY_SNAPSHOT);
    for i := 0 to |roots|
      invariant forall j :: 0 <= j < i ==> RootIsPrivate(env, roots[j].world)
      invariant result.Some? && RootsScanned(env, roots[..i], limits, result.value)
    {
      assert roots[..i + 1] == roots[..i] + [roots[i]];
      result := AddRoot(env, roots[..i], roots[i], limits, result.value);
      if result.None? { return; }
    }
    assert roots[..|roots|] == roots;
  }
}
