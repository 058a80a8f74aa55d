/**
 * One recovery of a store, from listing to deletion (`store_recovery.rs`,
 * `store_recovery_published.rs`). Other processes are the subject of module
 * StoreProtocol; here the store is as the recovery finds it.
 */
module Recovery {
  import opened Base
  import opened PublishedNames

  const MAX_RECOVERY_ENTRIES: nat := 1_024
  const MAX_DIRECTORY_SCAN_ENTRIES: nat := 131_072

  /** The lock file inside a directory: absent, free, held by someone, or not safe to open. */
  datatype LockState = NoLock | Free | Held | Unsafe

  datatype Entry = Entry(tree: nat, isPrivate: bool, lock: LockState)

  type Directory = map<string, Entry>

  predicate Creating(name: string) { ".creating-" <= name }
  predicate Retired(name: string) { ".retired-" <= name }
  predicate Reclaiming(name: string) { ".reclaiming-" <= name }

  /** A creation nobody works on any more. */
  predicate StaleCreation(name: string, e: Entry) {
    Creating(name) && (e.lock == NoLock || e.lock == Free)
  }

  /** A retirement, finished or not, that nobody has a lease on. */
  predicate StaleRetirement(name: string, e: Entry) {
    Retired(name) || Reclaiming(name) || (PublishedName(name).Some? && (e.lock == NoLock || e.lock == Free))
  }

  ghost function Without(dir: Directory, names: set<string>): Directory {
    map n | n in dir && n !in names :: dir[n]
  }

  ghost function StaleCreations(spaces: Directory): set<string> {
    set n | n in spaces && StaleCreation(n, spaces[n])
  }

  ghost function StaleRetirements(trash: Directory): set<string> {
    set n | n in trash && StaleRetirement(n, trash[n])
  }

  // ------------------------------------------------------------------ listing

  ghost function Names(names: seq<string>): set<string> {
    set i | 0 <= i < |names| :: names[i]
  }

  lemma NamesMore(names: seq<string>, name: string)
    ensures Names(names + [name]) == Names(names) + {name}
    ensures Distinct(names) && name !in Names(names) ==> Distinct(names + [name])
  {
    var all := names + [name];
    assert all[|names|] == name && forall i :: 0 <= i < |names| ==> all[i] == names[i];
  }

  /** A directory listing: every entry once, in no particular order. */
  method ReadDir(dir: Directory) returns (names: seq<string>)
    ensures Names(names) == dir.Keys && Distinct(names)
  {
    names := [];
    var todo := dir.Keys;
    while todo != {}
      invariant todo <= dir.Keys && Names(names) == dir.Keys - todo && Distinct(names)
      decreases |todo|
    {
      var name :| name in todo;
      NamesMore(names, name);
      names := names + [name];
      todo := todo - {name};
    }
  }

  lemma {:induction false} CountNames(names: seq<string>)
    requires Distinct(names)
    ensures |Names(names)| == |names|
    decreases |names|
  {
    if names != [] {
      var front, last := names[..|names| - 1], names[|names| - 1];
      CountNames(front);
      NamesMore(front, last);
      assert front + [last] == names;
    }
  }

  ghost function Matching(names: set<string>, wanted: string -> bool): set<string> {
    set n | n in names && wanted(n)
  }

  lemma MatchingMore(names: seq<string>, i: nat, wanted: string -> bool, found: seq<string>)
    requires i < |names| && Distinct(names) && Distinct(found) && Names(found) == Matching(Names(names[..i]), wanted)
    ensures !wanted(names[i]) ==> Names(found) == Matching(Names(names[..i + 1]), wanted)
    ensures wanted(names[i]) ==> Names(found + [names[i]]) == Matching(Names(names[..i + 1]), wanted)
                                 && Distinct(found + [names[i]])
                                 && |Matching(Names(names), wanted)| >= |found| + 1
  {
    NamesMore(names[..i], names[i]);
    assert names[..i + 1] == names[..i] + [names[i]];
    if wanted(names[i]) {
      NamesMore(found, names[i]);
      assert names[i] !in Names(names[..i]);
      CountNames(found + [names[i]]);
      assert Matching(Names(names[..i + 1]), wanted) <= Matching(Names(names), wanted);
      SubsetCardinality(Matching(Names(names[..i + 1]), wanted), Matching(Names(names), wanted));
    }
  }

  /** `matching_entries`: all the entries wanted, or an error when there are too many to look at or to keep. */
  method MatchingEntries(names: seq<string>, wanted: string -> bool) returns (matches: Option<seq<string>>)
    requires Distinct(names)
    ensures matches.Some? ==> Names(matches.value) == Matching(Names(names), wanted) && Distinct(matches.value)
    ensures matches.None? <==> |names| > MAX_DIRECTORY_SCAN_ENTRIES || |Matching(Names(names), wanted)| > MAX_RECOVERY_ENTRIES
  {
    var found := [];
    for i := 0 to |names|
      invariant |found| <= MAX_RECOVERY_ENTRIES && Distinct(found) && i <= MAX_DIRECTORY_SCAN_ENTRIES
      invariant Names(found) == Matching(Names(names[..i]), wanted)
    {
      if i + 1 > MAX_DIRECTORY_SCAN_ENTRIES { return None; }
      MatchingMore(names, i, wanted, found);
      if wanted(names[i]) {
        if |found| >= MAX_RECOVERY_ENTRIES { return None; }
        found := found + [names[i]];
      }
    }
    assert names[..|names|] == names;
    CountNames(found);
    return Some(found);
  }

  ghost function HeldAmong(dir: Directory, names: set<string>): set<string> {
    set n | n in names && n in dir && dir[n].lock == Held
  }

  ghost function StaleAmong(dir: Directory, names: set<string>): set<string> {
    set n | n in names && n in dir && StaleCreation(n, dir[n])
  }

  /** The entries can be classified: protected directories whose lock files are safe to open. */
  ghost predicate Safe(dir: Directory, names: set<string>) {
    forall n :: n in names && n in dir ==> dir[n].isPrivate && dir[n].lock != Unsafe
  }

  lemma ClassifiedMore(dir: Directory, names: set<string>, name: string)
    requires name !in names && name in dir && Creating(name)
    ensures dir[name].lock == Held ==> |HeldAmong(dir, names + {name})| == |HeldAmong(dir, names)| + 1
                                       && StaleAmong(dir, names + {name}) == StaleAmong(dir, names)
    ensures dir[name].lock == NoLock || dir[name].lock == Free
            ==> HeldAmong(dir, names + {name}) == HeldAmong(dir, names)
                && StaleAmong(dir, names + {name}) == StaleAmong(dir, names) + {name}
  {
    if dir[name].lock == Held { assert HeldAmong(dir, names + {name}) == HeldAmong(dir, names) + {name}; }
  }

  /** `classify_creations`: the stale creations, and how many are still being worked on. */
  method ClassifyCreations(spaces: Directory) returns (stale: Option<seq<string>>, active: nat)
    ensures stale.Some? ==> Names(stale.value) == StaleCreations(spaces) && Distinct(stale.value)
    ensures stale.Some? ==> active == |HeldAmong(spaces, Matching(spaces.Keys, Creating))|
    ensures stale.None? <==> |spaces| > MAX_DIRECTORY_SCAN_ENTRIES || |Matching(spaces.Keys, Creating)| > MAX_RECOVERY_ENTRIES
                             || !Safe(spaces, Matching(spaces.Keys, Creating))
  {
    var names := ReadDir(spaces);
    CountNames(names);
    assert |spaces| == |spaces.Keys|;
    var matches := MatchingEntries(names, Creating);
    if matches.None? { return None, 0; }
    var creations, found := matches.value, [];
    active := 0;
    for i := 0 to |creations|
      invariant Names(found) == StaleAmong(spaces, Names(creations[..i])) && Distinct(found)
      invariant active == |HeldAmong(spaces, Names(creations[..i]))|
      invariant Safe(spaces, Names(creations[..i]))
    {
      var name := creations[i];
      assert name in Names(creations);
      if !spaces[name].isPrivate || spaces[name].lock == Unsafe { return None, 0; }
      NamesMore(creations[..i], name);
      assert creations[..i + 1] == creations[..i] + [name];
      ClassifiedMore(spaces, Names(creations[..i]), name);
      if spaces[name].lock == Held {
        active := active + 1;
      } else {
        NamesMore(found, name);
        found := found + [name];
      }
    }
    assert creations[..|creations|] == creations;
    assert StaleAmong(spaces, Names(creations)) == StaleCreations(spaces);
    return Some(found), active;
  }

  ghost function UnleasedAmong(dir: Directory, names: set<string>): set<string> {
    set n | n in names && n in dir && (dir[n].lock == NoLock || dir[n].lock == Free)
  }

  predicate IsPublished(name: string) {
    PublishedName(name).Some?
  }

  /** `unleased_published_alpha_entries`. */
  method UnleasedPublishedEntries(trash: Directory) returns (unleased: Option<seq<string>>)
    ensures unleased.Some? ==> Names(unleased.value) == UnleasedAmong(trash, Matching(trash.Keys, IsPublished))
                               && Distinct(unleased.value)
    ensures unleased.None? <==> |trash| > MAX_DIRECTORY_SCAN_ENTRIES || |Matching(trash.Keys, IsPublished)| > MAX_RECOVERY_ENTRIES
                                || !Safe(trash, Matching(trash.Keys, IsPublished))
  {
    var names := ReadDir(trash);
    CountNames(names);
    assert |trash| == |trash.Keys|;
    var matches := MatchingEntries(names, IsPublished);
    if matches.None? { return None; }
    var published, found := matches.value, [];
    for i := 0 to |published|
      invariant Names(found) == UnleasedAmong(trash, Names(published[..i])) && Distinct(found)
      invariant Safe(trash, Names(published[..i]))
    {
      var name := published[i];
      assert name in Names(published);
      if !trash[name].isPrivate || trash[name].lock == Unsafe { return None; }
      NamesMore(published[..i], name);
      assert published[..i + 1] == published[..i] + [name];
      if trash[name].lock != Held {
        NamesMore(found, name);
        found := found + [name];
      }
    }
    assert published[..|published|] == published;
    return Some(found);
  }

  // ------------------------------------------------------------- moving, deleting

  /** A directory that recovery has decided to take. */
  datatype Candidate = Candidate(inSpaces: bool, name: string)

  ghost function SpacesAmong(taken: seq<Candidate>): set<string> {
    set i | 0 <= i < |taken| && taken[i].inSpaces :: taken[i].name
  }

  ghost function TrashAmong(taken: seq<Candidate>): set<string> {
    set i | 0 <= i < |taken| && !taken[i].inSpaces :: taken[i].name
  }

  lemma AmongMore(taken: seq<Candidate>, i: nat)
    requires i < |taken|
    ensures SpacesAmong(taken[..i + 1]) == SpacesAmong(taken[..i]) + if taken[i].inSpaces then {taken[i].name} else {}
    ensures TrashAmong(taken[..i + 1]) == TrashAmong(taken[..i]) + if taken[i].inSpaces then {} else {taken[i].name}
  {
    var more := taken[..i + 1];
    assert more[i] == taken[i] && forall j :: 0 <= j < i ==> more[j] == taken[..i][j];
  }

  /** `trash` is what was there before, without `gone`, and with `moved` added under names that were not. */
  ghost predicate Shifted(before: Directory, gone: set<string>, moved: seq<string>, trash: Directory) {
    && trash.Keys == (before.Keys - gone) + Names(moved)
    && Names(moved) !! before.Keys
    && forall n :: n in before && n !in gone ==> trash[n] == before[n]
  }

  lemma ShiftedIn(before: Directory, gone: set<string>, moved: seq<string>, trash: Directory, target: string, e: Entry)
    requires Shifted(before, gone, moved, trash) && target !in before
    ensures Shifted(before, gone, moved + [target], trash[target := e])
  {
    NamesMore(moved, target);
  }

  lemma ShiftedOver(before: Directory, gone: set<string>, moved: seq<string>, trash: Directory, name: string, target: string, e: Entry)
    requires Shifted(before, gone, moved, trash) && target !in before && name !in Names(moved) && target != name
    ensures Shifted(before, gone + {name}, moved + [target], (trash - {name})[target := e])
  {
    NamesMore(moved, target);
  }

  /** What became of one rename. */
  datatype Taking = Moved(name: string) | Missing | Failed

  class Store {
    var spaces: Directory
    var trash: Directory
    var drawn: nat
    const suffix: nat -> string      // the suffixes `unique_suffix` will yield
    const movable: nat -> bool       // whether renaming this tree succeeds
    const deletable: nat -> bool     // whether deleting this tree succeeds

    constructor (spaces: Directory, trash: Directory, suffix: nat -> string, movable: nat -> bool, deletable: nat -> bool)
      requires forall i, j :: suffix(i) == suffix(j) ==> i == j
      requires forall k :: ".reclaiming-" + suffix(k) !in trash
      ensures Valid() && this.spaces == spaces && this.trash == trash
      ensures this.suffix == suffix && this.movable == movable && this.deletable == deletable
    {
      this.spaces, this.trash, this.drawn := spaces, trash, 0;
      this.suffix, this.movable, this.deletable := suffix, movable, deletable;
      new;
      forall i, j | ReclaimingName(i) == ReclaimingName(j)
        ensures i == j
      {
        assert suffix(i) == ReclaimingName(i)[12..] && suffix(j) == ReclaimingName(j)[12..];
      }
    }

    function ReclaimingName(k: nat): string {
      ".reclaiming-" + suffix(k)
    }

    /** Suffixes are fresh: all different, and none of those to come is in use. */
    ghost predicate Valid()
      reads this
    {
      && (forall i, j :: ReclaimingName(i) == ReclaimingName(j) ==> i == j)
      && (forall k :: k >= drawn ==> ReclaimingName(k) !in trash)
    }

    predicate Has(c: Candidate)
      reads this
    {
      if c.inSpaces then c.name in spaces else c.name in trash
    }

    /** Rename one directory into trash under a fresh reclaiming name; one that is no longer there is passed over. */
    method Take(c: Candidate) returns (taking: Taking)
      requires Valid()
      modifies this
      ensures Valid() && drawn == old(drawn) + 1
      ensures taking == Missing <==> !old(Has(c))
      ensures taking == Failed ==> exists t :: !movable(t)
      ensures !taking.Moved? ==> spaces == old(spaces) && trash == old(trash)
      ensures taking.Moved? ==> && taking.name == ReclaimingName(old(drawn)) && taking.name in trash
                                && trash[taking.name] == old(if c.inSpaces then spaces[c.name] else trash[c.name])
                                && spaces == (if c.inSpaces then old(spaces) - {c.name} else old(spaces))
                                && trash == (if c.inSpaces then old(trash) else old(trash) - {c.name})[taking.name := trash[taking.name]]
    {
      var name := ReclaimingName(drawn);
      drawn := drawn + 1;
      if !Has(c) { return Missing; }
      var entry := if c.inSpaces then spaces[c.name] else trash[c.name];
      if !movable(entry.tree) { return Failed; }
      if c.inSpaces { spaces := spaces - {c.name}; } else { trash := trash - {c.name}; }
      trash := trash[name := entry];
      return Moved(name);
    }

    /** Take every candidate in turn; stops at the first that cannot be renamed. */
    method TakeAll(taken: seq<Candidate>) returns (ok: bool, moved: seq<string>)
      requires Valid() && forall k :: k >= drawn ==> ReclaimingName(k) !in TrashAmong(taken)
      modifies this
      ensures Valid() && ((forall t :: movable(t)) ==> ok)
      ensures ok ==> spaces == Without(old(spaces), SpacesAmong(taken)) && Distinct(moved)
                     && Shifted(old(trash), TrashAmong(taken), moved, trash)
      ensures Keeps(old(spaces), SpacesAmong(taken), spaces) && Keeps(old(trash), TrashAmong(taken), trash)
    {
      ok, moved := true, [];
      ghost var spaces0, trash0 := spaces, trash;
      for i := 0 to |taken|
        invariant Valid() && forall k :: k >= drawn ==> ReclaimingName(k) !in trash0 && ReclaimingName(k) !in TrashAmong(taken)
        invariant Names(moved) !! TrashAmong(taken)
        invariant Distinct(moved) && spaces == Without(spaces0, SpacesAmong(taken[..i]))
        invariant Shifted(trash0, TrashAmong(taken[..i]), moved, trash)
      {
        AmongMore(taken, i);
        FewerTaken(taken, i);
        assert taken[i].inSpaces || taken[i].name in TrashAmong(taken);
        ghost var trash1 := trash;
        var taking := Take(taken[i]);
        if taking.Failed? { return false, moved; }
        if taking.Moved? {
          NamesMore(moved, taking.name);
          if taken[i].inSpaces {
            ShiftedIn(trash0, TrashAmong(taken[..i]), moved, trash1, taking.name, trash[taking.name]);
          } else {
            ShiftedOver(trash0, TrashAmong(taken[..i]), moved, trash1, taken[i].name, taking.name, trash[taking.name]);
          }
          moved := moved + [taking.name];
        }
      }
      assert taken[..|taken|] == taken;
    }

    /** Delete what was moved, keeping on after a failure. */
    method DeleteAll(moved: seq<string>, ghost before: Directory, ghost gone: set<string>) returns (ok: bool)
      requires Shifted(before, gone, moved, trash) && Distinct(moved)
      modifies this`trash
      ensures (forall t :: deletable(t)) ==> ok
      ensures ok ==> trash == Without(before, gone)
      ensures Keeps(before, gone, trash)
    {
      ok := true;
      for i := 0 to |moved|
        invariant (forall t :: deletable(t)) ==> ok
        invariant Keeps(before, gone, trash) && trash.Keys <= (before.Keys - gone) + Names(moved)
        invariant ok ==> Shifted(before, gone, moved[i..], trash)
      {
        NamesLess(moved, i);
        var name := moved[i];
        if name in trash {
          if deletable(trash[name].tree) { trash := trash - {name}; } else { ok := false; }
        }
      }
      assert moved[|moved|..] == [];
    }

    /**
     * Everything recovery would take: stale creations, retired entries,
     * unleased alpha entries and what earlier recoveries left behind.
     */
    method Collect() returns (taken: Option<seq<Candidate>>, active: nat)
      ensures taken.None? <==> !Recoverable(spaces, trash)
      ensures taken.Some? ==> && Candidates(taken.value) && SpacesAmong(taken.value) == StaleCreations(spaces)
                              && TrashAmong(taken.value) == StaleRetirements(trash)
      ensures taken.Some? ==> active == |HeldAmong(spaces, Matching(spaces.Keys, Creating))|
    {
      var creations, working := ClassifyCreations(spaces);
      active := working;
      if creations.None? { return None, 0; }
      var names := ReadDir(trash);
      CountNames(names);
      assert |trash| == |trash.Keys|;
      var retired := MatchingEntries(names, Retired);
      if retired.None? { return None, 0; }
      var reclaiming := MatchingEntries(names, Reclaiming);
      if reclaiming.None? { return None, 0; }
      var published := UnleasedPublishedEntries(trash);
      if published.None? { return None, 0; }
      var protected := AllPrivate(trash, retired.value);
      if !protected { return None, 0; }
      protected := AllPrivate(trash, reclaiming.value);
      if !protected { return None, 0; }
      GroupsApart(trash, retired.value, published.value, reclaiming.value);
      var all := Tagged(true, creations.value) + (Tagged(false, retired.value + published.value + reclaiming.value));
      TaggedApart(creations.value, retired.value + published.value + reclaiming.value);
      return Some(all), active;
    }

    /**
     * `recover`: on success every stale entry is gone and nothing else
     * changed; on failure, too, nothing else changed. It fails only when the
     * store is not as it should be, or a rename or a deletion fails.
     */
    method Recover() returns (ok: bool)
      requires Valid()
      modifies this
      ensures ok ==> spaces == Without(old(spaces), StaleCreations(old(spaces)))
                     && trash == Without(old(trash), StaleRetirements(old(trash)))
      ensures Keeps(old(spaces), StaleCreations(old(spaces)), spaces) && Keeps(old(trash), StaleRetirements(old(trash)), trash)
      ensures old(Recoverable(spaces, trash)) && (forall t :: movable(t) && deletable(t)) ==> ok
      ensures ok ==> old(Recoverable(spaces, trash))
    {
      var taken, _ := Collect();
      if taken.None? { return false; }
      ghost var trash0 := trash;
      var moved;
      ok, moved := TakeAll(taken.value);
      if ok { ok := DeleteAll(moved, trash0, TrashAmong(taken.value)); }
    }
  }

  /** The store is small enough to list, and every reserved entry is a protected directory with a safe lock file. */
  ghost predicate Recoverable(spaces: Directory, trash: Directory) {
    && |spaces| <= MAX_DIRECTORY_SCAN_ENTRIES && |trash| <= MAX_DIRECTORY_SCAN_ENTRIES
    && |Matching(spaces.Keys, Creating)| <= MAX_RECOVERY_ENTRIES && |Matching(trash.Keys, Retired)| <= MAX_RECOVERY_ENTRIES
    && |Matching(trash.Keys, Reclaiming)| <= MAX_RECOVERY_ENTRIES
    && |Matching(trash.Keys, IsPublished)| <= MAX_RECOVERY_ENTRIES
    && Safe(spaces, Matching(spaces.Keys, Creating)) && Safe(trash, Matching(trash.Keys, IsPublished))
    && Private(trash, Matching(trash.Keys, Retired)) && Private(trash, Matching(trash.Keys, Reclaiming))
  }

  ghost predicate Private(dir: Directory, names: set<string>) {
    forall n :: n in names && n in dir ==> dir[n].isPrivate
  }

  method AllPrivate(dir: Directory, names: seq<string>) returns (ok: bool)
    requires Names(names) <= dir.Keys
    ensures ok <==> Private(dir, Names(names))
  {
    for i := 0 to |names|
      invariant forall j :: 0 <= j < i ==> names[j] in dir && dir[names[j]].isPrivate
    {
      assert names[i] in Names(names);
      if !dir[names[i]].isPrivate { return false; }
    }
    return true;
  }

  function Tagged(inSpaces: bool, names: seq<string>): (r: seq<Candidate>)
    ensures |r| == |names| && forall i :: 0 <= i < |names| ==> r[i] == Candidate(inSpaces, names[i])
  {
    seq(|names|, i requires 0 <= i < |names| => Candidate(inSpaces, names[i]))
  }

  /** The three families of names in trash do not overlap. */
  lemma NamesApart(name: string)
    ensures !(Retired(name) && Reclaiming(name)) && !(IsPublished(name) && (Retired(name) || Reclaiming(name)))
  {
    assert Retired(name) ==> name[3] == 't';
    assert Reclaiming(name) ==> name[3] == 'c';
    if IsPublished(name) { PublishedNamesAreVisible(name); }
  }

  lemma NamesUnion(a: seq<string>, b: seq<string>)
    ensures Names(a + b) == Names(a) + Names(b)
    ensures Distinct(a) && Distinct(b) && Names(a) !! Names(b) ==> Distinct(a + b)
  {
    var all := a + b;
    assert forall i :: 0 <= i < |a| ==> all[i] == a[i];
    assert forall i :: 0 <= i < |b| ==> all[|a| + i] == b[i];
    if Distinct(a) && Distinct(b) && Names(a) !! Names(b) {
      forall i, j | 0 <= i < j < |all|
        ensures all[i] != all[j]
      {
        if i < |a| <= j { assert a[i] in Names(a) && b[j - |a|] in Names(b); }
        else if i >= |a| { assert all[i] == b[i - |a|] && all[j] == b[j - |a|]; }
      }
    }
  }

  lemma GroupsApart(trash: Directory, retired: seq<string>, published: seq<string>, reclaiming: seq<string>)
    requires Distinct(retired) && Names(retired) == Matching(trash.Keys, Retired)
    requires Distinct(published) && Names(published) == UnleasedAmong(trash, Matching(trash.Keys, IsPublished))
    requires Distinct(reclaiming) && Names(reclaiming) == Matching(trash.Keys, Reclaiming)
    ensures Distinct(retired + published + reclaiming)
    ensures Names(retired + published + reclaiming) == StaleRetirements(trash)
  {
    forall n
      ensures !(n in Names(retired) && n in Names(published)) && !(n in Names(retired) && n in Names(reclaiming))
              && !(n in Names(published) && n in Names(reclaiming))
    {
      NamesApart(n);
    }
    NamesUnion(retired, published);
    NamesUnion(retired + published, reclaiming);
  }

  lemma TaggedNames(names: seq<string>)
    ensures SpacesAmong(Tagged(true, names)) == Names(names) && TrashAmong(Tagged(true, names)) == {}
    ensures TrashAmong(Tagged(false, names)) == Names(names) && SpacesAmong(Tagged(false, names)) == {}
    ensures Distinct(names) ==> forall tag :: Candidates(Tagged(tag, names))
  {
    assert forall i :: 0 <= i < |names| ==> Tagged(true, names)[i].name == names[i] && Tagged(false, names)[i].name == names[i];
  }

  lemma AmongUnion(a: seq<Candidate>, b: seq<Candidate>)
    ensures SpacesAmong(a + b) == SpacesAmong(a) + SpacesAmong(b) && TrashAmong(a + b) == TrashAmong(a) + TrashAmong(b)
  {
    var all := a + b;
    assert forall i :: 0 <= i < |a| ==> all[i] == a[i];
    assert forall i :: 0 <= i < |b| ==> all[|a| + i] == b[i];
  }

  lemma TaggedApart(creations: seq<string>, others: seq<string>)
    requires Distinct(creations) && Distinct(others)
    ensures var all := Tagged(true, creations) + Tagged(false, others);
            Candidates(all) && SpacesAmong(all) == Names(creations) && TrashAmong(all) == Names(others)
  {
    TaggedNames(creations);
    TaggedNames(others);
    AmongUnion(Tagged(true, creations), Tagged(false, others));
  }

  /** Nothing outside `gone` was lost or changed. */
  ghost predicate Keeps(before: Directory, gone: set<string>, after: Directory) {
    forall n :: n in before && n !in gone ==> n in after && after[n] == before[n]
  }

  ghost predicate Candidates(taken: seq<Candidate>) {
    forall i, j :: 0 <= i < j < |taken| ==> taken[i] != taken[j]
  }

  lemma FewerTaken(taken: seq<Candidate>, i: nat)
    requires i <= |taken|
    ensures SpacesAmong(taken[..i]) <= SpacesAmong(taken) && TrashAmong(taken[..i]) <= TrashAmong(taken)
  {
    assert forall j :: 0 <= j < i ==> taken[..i][j] == taken[j];
  }

  lemma NamesLess(names: seq<string>, i: nat)
    requires i < |names| && Distinct(names)
    ensures Names(names[i..]) == Names(names[i + 1..]) + {names[i]} && names[i] !in Names(names[i + 1..])
  {
    var rest, more := names[i..], names[i + 1..];
    assert rest[0] == names[i] && forall j :: 0 <= j < |more| ==> more[j] == rest[j + 1];
    assert forall j :: 0 < j < |rest| ==> rest[j] == more[j - 1];
  }

  /** After a successful recovery the only reserved entries left are those somebody still holds. */
  lemma OnlyHeldEntriesRemain(spaces: Directory, trash: Directory, n: string)
    requires Recoverable(spaces, trash)
    ensures var left := Without(spaces, StaleCreations(spaces)); n in left && Creating(n) ==> left[n].lock == Held
    ensures var left := Without(trash, StaleRetirements(trash));
            n in left ==> !Retired(n) && !Reclaiming(n) && (IsPublished(n) ==> left[n].lock == Held)
  {
    assert n in spaces && Creating(n) ==> n in Matching(spaces.Keys, Creating);
    assert n in trash && IsPublished(n) ==> n in Matching(trash.Keys, IsPublished);
  }

  /** And a second recovery finds nothing to do. */
  lemma RecoveryIsIdempotent(spaces: Directory, trash: Directory)
    ensures StaleCreations(Without(spaces, StaleCreations(spaces))) == {}
    ensures StaleRetirements(Without(trash, StaleRetirements(trash))) == {}
  {
  }
}
