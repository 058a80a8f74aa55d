/**
 * Comparing two snapshots and reporting the difference
 * (`discovery/mod.rs`, `discovery/report.rs`).
 */
module Discovery {
  import opened Base
  import opened Classify
  import opened Tree
  import opened Scan

  type Entries = map<string, EntryRecord>

  // ------------------------------------------------------------------ counts

  datatype ClassCounts = ClassCounts(
    configuration: nat, data: nat, state: nat, cache: nat,
    credentialShaped: nat, runtimeSocket: nat, runtime: nat, unclassified: nat)

  const NO_COUNTS := ClassCounts(0, 0, 0, 0, 0, 0, 0, 0)

  function Of(counts: ClassCounts, class_: Class): nat {
    match class_
    case Configuration => counts.configuration
    case Data => counts.data
    case State => counts.state
    case Cache => counts.cache
    case CredentialShaped => counts.credentialShaped
    case RuntimeSocket => counts.runtimeSocket
    case RuntimeOther => counts.runtime
    case Unclassified => counts.unclassified
  }

  function Increment(counts: ClassCounts, class_: Class): (r: ClassCounts)
    ensures forall c :: Of(r, c) == if c == class_ then SaturatingAdd(Of(counts, c), 1) else Of(counts, c)
  {
    var next := SaturatingAdd(Of(counts, class_), 1);
    match class_
    case Configuration => counts.(configuration := next)
    case Data => counts.(data := next)
    case State => counts.(state := next)
    case Cache => counts.(cache := next)
    case CredentialShaped => counts.(credentialShaped := next)
    case RuntimeSocket => counts.(runtimeSocket := next)
    case RuntimeOther => counts.(runtime := next)
    case Unclassified => counts.(unclassified := next)
  }

  function Capped(n: nat): nat {
    if n > U64_MAX then U64_MAX else n
  }

  /** `total`: a chain of saturating additions. */
  function Total(c: ClassCounts): (t: nat)
    ensures t == Capped(c.configuration + c.data + c.state + c.cache + c.credentialShaped + c.runtimeSocket + c.runtime
                        + c.unclassified)
  {
    SaturatingAdd(SaturatingAdd(SaturatingAdd(SaturatingAdd(SaturatingAdd(SaturatingAdd(SaturatingAdd(
      c.configuration, c.data), c.state), c.cache), c.credentialShaped), c.runtimeSocket), c.runtime), c.unclassified)
  }

  datatype Delta = Delta(created: ClassCounts, modified: ClassCounts, replaced: ClassCounts, deleted: ClassCounts)

  const NO_DELTA := Delta(NO_COUNTS, NO_COUNTS, NO_COUNTS, NO_COUNTS)

  // -------------------------------------------------------------------- diff

  predicate SameObject(a: Stat, b: Stat) {
    a.kind == b.kind && a.device == b.device && a.inode == b.inode
  }

  datatype Change = Created | Modified | Replaced | Deleted | Unchanged

  /** What happened to the entry under this key between two snapshots. */
  function ChangeOf(pre: Entries, post: Entries, k: string): Change
    requires k in pre || k in post
  {
    if k !in pre then Created
    else if k !in post then Deleted
    else if pre[k].identity == post[k].identity then Unchanged
    else if SameObject(pre[k].identity, post[k].identity) then Modified
    else Replaced
  }

  /** The class a change is counted under: the later one where there is one. */
  function ClassAt(pre: Entries, post: Entries, k: string): Class
    requires k in pre || k in post
  {
    if k in post then post[k].class_ else pre[k].class_
  }

  function CountsFor(delta: Delta, change: Change): ClassCounts {
    match change
    case Created => delta.created
    case Modified => delta.modified
    case Replaced => delta.replaced
    case Deleted => delta.deleted
    case Unchanged => NO_COUNTS
  }

  predicate Falls(pre: Entries, post: Entries, k: string, change: Change, class_: Class) {
    (k in pre || k in post) && ChangeOf(pre, post, k) == change && ClassAt(pre, post, k) == class_
  }

  /** The keys among `done` that fall into one cell of the delta. */
  ghost function Cell(pre: Entries, post: Entries, done: set<string>, change: Change, class_: Class): set<string> {
    set k | k in done && Falls(pre, post, k, change, class_)
  }

  ghost predicate Tallied(pre: Entries, post: Entries, done: set<string>, delta: Delta) {
    forall change, class_ :: change != Unchanged
      ==> Of(CountsFor(delta, change), class_) == Capped(|Cell(pre, post, done, change, class_)|)
  }

  function Count(delta: Delta, change: Change, class_: Class): Delta {
    match change
    case Created => delta.(created := Increment(delta.created, class_))
    case Modified => delta.(modified := Increment(delta.modified, class_))
    case Replaced => delta.(replaced := Increment(delta.replaced, class_))
    case Deleted => delta.(deleted := Increment(delta.deleted, class_))
    case Unchanged => delta
  }

  lemma CellMore(pre: Entries, post: Entries, done: set<string>, k: string, change: Change, class_: Class)
    requires k !in done
    ensures |Cell(pre, post, done + {k}, change, class_)|
            == |Cell(pre, post, done, change, class_)| + if Falls(pre, post, k, change, class_) then 1 else 0
  {
    var cell := Cell(pre, post, done, change, class_);
    if Falls(pre, post, k, change, class_) {
      assert Cell(pre, post, done + {k}, change, class_) == cell + {k};
    } else {
      assert Cell(pre, post, done + {k}, change, class_) == cell;
    }
  }

  lemma TalliedMore(pre: Entries, post: Entries, done: set<string>, delta: Delta, k: string)
    requires Tallied(pre, post, done, delta) && k !in done && (k in pre || k in post)
    ensures Tallied(pre, post, done + {k}, Count(delta, ChangeOf(pre, post, k), ClassAt(pre, post, k)))
  {
    forall change, class_ | change != Unchanged
      ensures Of(CountsFor(Count(delta, ChangeOf(pre, post, k), ClassAt(pre, post, k)), change), class_)
              == Capped(|Cell(pre, post, done + {k}, change, class_)|)
    {
      CellMore(pre, post, done, k, change, class_);
    }
  }

  lemma TalliedNone(pre: Entries, post: Entries)
    ensures Tallied(pre, post, {}, NO_DELTA)
  {
    forall change, class_
      ensures |Cell(pre, post, {}, change, class_)| == 0
    {
      assert Cell(pre, post, {}, change, class_) == {};
    }
  }

  /** Entries seen after the command: created, modified, replaced or unchanged. */
  method CountPost(pre: Entries, post: Entries) returns (delta: Delta)
    ensures Tallied(pre, post, post.Keys, delta)
  {
    delta := NO_DELTA;
    TalliedNone(pre, post);
    var todo := post.Keys;
    ghost var done: set<string> := {};
    while todo != {}
      invariant done !! todo && done + todo == post.Keys
      invariant Tallied(pre, post, done, delta)
      decreases |todo|
    {
      var key :| key in todo;
      TalliedMore(pre, post, done, delta, key);
      var after := post[key];
      if key !in pre {
        delta := delta.(created := Increment(delta.created, after.class_));
      } else if pre[key].identity == after.identity {
      } else if SameObject(pre[key].identity, after.identity) {
        delta := delta.(modified := Increment(delta.modified, after.class_));
      } else {
        delta := delta.(replaced := Increment(delta.replaced, after.class_));
      }
      todo, done := todo - {key}, done + {key};
    }
    assert done == post.Keys;
  }

  /** The second half of `diff`, with the earlier entries `todo` still to be looked at. */
  ghost predicate Left(pre: Entries, post: Entries, todo: set<string>, delta: Delta) {
    Tallied(pre, post, post.Keys + (pre.Keys - todo), delta)
  }

  lemma LeftMore(pre: Entries, post: Entries, todo: set<string>, delta: Delta, key: string)
    requires Left(pre, post, todo, delta) && key in todo && todo <= pre.Keys
    ensures key in post ==> Left(pre, post, todo - {key}, delta)
    ensures key !in post ==> Left(pre, post, todo - {key}, delta.(deleted := Increment(delta.deleted, pre[key].class_)))
  {
    var done := post.Keys + (pre.Keys - todo);
    if key in post {
      assert post.Keys + (pre.Keys - (todo - {key})) == done;
    } else {
      TalliedMore(pre, post, done, delta, key);
      assert post.Keys + (pre.Keys - (todo - {key})) == done + {key};
    }
  }

  lemma LeftAll(pre: Entries, post: Entries, delta: Delta)
    requires Tallied(pre, post, post.Keys, delta)
    ensures Left(pre, post, pre.Keys, delta)
  {
    assert post.Keys + (pre.Keys - pre.Keys) == post.Keys;
  }

  lemma LeftNone(pre: Entries, post: Entries, delta: Delta)
    requires Left(pre, post, {}, delta)
    ensures Tallied(pre, post, pre.Keys + post.Keys, delta)
  {
    assert post.Keys + (pre.Keys - {}) == pre.Keys + post.Keys;
  }

  /** `diff`: every entry of either snapshot is counted once, in the cell it falls into. */
  method Diff(pre: Entries, post: Entries) returns (delta: Delta)
    ensures Tallied(pre, post, pre.Keys + post.Keys, delta)
  {
    delta := CountPost(pre, post);
    var todo := pre.Keys;
    LeftAll(pre, post, delta);
    while todo != {}
      invariant todo <= pre.Keys && Left(pre, post, todo, delta)
      decreases |todo|
    {
      var key :| key in todo;
      LeftMore(pre, post, todo, delta, key);
      if key !in post { delta := delta.(deleted := Increment(delta.deleted, pre[key].class_)); }
      todo := todo - {key};
    }
    LeftNone(pre, post, delta);
  }

  // ------------------------------------------------------------ conservation

  /** The keys among `done` that changed this way. */
  ghost function Changed(pre: Entries, post: Entries, done: set<string>, change: Change): set<string> {
    set k | k in done && (k in pre || k in post) && ChangeOf(pre, post, k) == change
  }

  lemma ChangedMore(pre: Entries, post: Entries, done: set<string>, k: string, change: Change)
    requires k !in done && (k in pre || k in post)
    ensures |Changed(pre, post, done + {k}, change)|
            == |Changed(pre, post, done, change)| + if ChangeOf(pre, post, k) == change then 1 else 0
  {
    var same := Changed(pre, post, done, change);
    if ChangeOf(pre, post, k) == change {
      assert Changed(pre, post, done + {k}, change) == same + {k};
    } else {
      assert Changed(pre, post, done + {k}, change) == same;
    }
  }

  lemma MeetMore(done: set<string>, k: string, other: set<string>)
    requires k !in done
    ensures |(done + {k}) * other| == |done * other| + if k in other then 1 else 0
  {
    if k in other {
      assert (done + {k}) * other == done * other + {k};
    } else {
      assert (done + {k}) * other == done * other;
    }
  }

  ghost predicate Conserved(pre: Entries, post: Entries, done: set<string>) {
    var kept := |Changed(pre, post, done, Modified)| + |Changed(pre, post, done, Replaced)|
                + |Changed(pre, post, done, Unchanged)|;
    && |done * post.Keys| == |Changed(pre, post, done, Created)| + kept
    && |done * pre.Keys| == |Changed(pre, post, done, Deleted)| + kept
  }

  lemma ConservedNone(pre: Entries, post: Entries)
    ensures Conserved(pre, post, {})
  {
    assert forall change :: Changed(pre, post, {}, change) == {};
  }

  lemma ConservedMore(pre: Entries, post: Entries, done: set<string>, k: string, more: set<string>)
    requires Conserved(pre, post, done) && k !in done && (k in pre || k in post) && more == done + {k}
    ensures Conserved(pre, post, more)
  {
    ChangedMore(pre, post, done, k, Created);
    ChangedMore(pre, post, done, k, Modified);
    ChangedMore(pre, post, done, k, Replaced);
    ChangedMore(pre, post, done, k, Deleted);
    ChangedMore(pre, post, done, k, Unchanged);
    MeetMore(done, k, post.Keys);
    MeetMore(done, k, pre.Keys);
  }

  lemma {:induction false} ConservedAmong(pre: Entries, post: Entries, done: set<string>)
    requires done <= pre.Keys + post.Keys
    ensures Conserved(pre, post, done)
    decreases |done|
  {
    if done == {} {
      ConservedNone(pre, post);
    } else {
      var k :| k in done;
      ConservedAmong(pre, post, done - {k});
      ConservedMore(pre, post, done - {k}, k, done);
    }
  }

  /** Every later entry is created, modified, replaced or unchanged; every earlier one is deleted or one of the last three. */
  lemma DiffConserves(pre: Entries, post: Entries)
    ensures var all := pre.Keys + post.Keys;
            var kept := |Changed(pre, post, all, Modified)| + |Changed(pre, post, all, Replaced)|
                        + |Changed(pre, post, all, Unchanged)|;
            |post| == |Changed(pre, post, all, Created)| + kept && |pre| == |Changed(pre, post, all, Deleted)| + kept
  {
    var all := pre.Keys + post.Keys;
    ConservedAmong(pre, post, all);
    assert all * post.Keys == post.Keys && all * pre.Keys == pre.Keys;
    assert |post| == |post.Keys| && |pre| == |pre.Keys|;
  }

  ghost function CellSum(pre: Entries, post: Entries, done: set<string>, change: Change): nat {
    |Cell(pre, post, done, change, Configuration)| + |Cell(pre, post, done, change, Data)|
    + |Cell(pre, post, done, change, State)| + |Cell(pre, post, done, change, Cache)|
    + |Cell(pre, post, done, change, CredentialShaped)| + |Cell(pre, post, done, change, RuntimeSocket)|
    + |Cell(pre, post, done, change, RuntimeOther)| + |Cell(pre, post, done, change, Unclassified)|
  }

  lemma CellSumMore(pre: Entries, post: Entries, done: set<string>, k: string, change: Change)
    requires k !in done && (k in pre || k in post)
    ensures CellSum(pre, post, done + {k}, change)
            == CellSum(pre, post, done, change) + if ChangeOf(pre, post, k) == change then 1 else 0
  {
    forall class_ { CellMore(pre, post, done, k, change, class_); }
  }

  lemma {:induction false} CellsAddUp(pre: Entries, post: Entries, done: set<string>, change: Change)
    requires done <= pre.Keys + post.Keys
    ensures |Changed(pre, post, done, change)| == CellSum(pre, post, done, change)
    decreases |done|
  {
    if done == {} {
      assert Changed(pre, post, {}, change) == {};
      assert forall class_ :: Cell(pre, post, {}, change, class_) == {};
    } else {
      var k :| k in done;
      CellsAddUp(pre, post, done - {k}, change);
      ChangedMore(pre, post, done - {k}, k, change);
      CellSumMore(pre, post, done - {k}, k, change);
      assert done - {k} + {k} == done;
    }
  }

  /** Capping each count and capping their sum come to the same total. */
  lemma CappedTotal(c: ClassCounts, n: ClassCounts)
    requires forall class_ :: Of(c, class_) == Capped(Of(n, class_))
    ensures Total(c) == Capped(n.configuration + n.data + n.state + n.cache + n.credentialShaped + n.runtimeSocket + n.runtime
                               + n.unclassified)
  {
    assert c.configuration == Of(c, Configuration) && c.data == Of(c, Data) && c.state == Of(c, State)
           && c.cache == Of(c, Cache) && c.credentialShaped == Of(c, CredentialShaped)
           && c.runtimeSocket == Of(c, RuntimeSocket) && c.runtime == Of(c, RuntimeOther) && c.unclassified == Of(c, Unclassified);
  }

  ghost function CellCounts(pre: Entries, post: Entries, done: set<string>, change: Change): (n: ClassCounts)
    ensures forall class_ :: Of(n, class_) == |Cell(pre, post, done, change, class_)|
  {
    ClassCounts(|Cell(pre, post, done, change, Configuration)|, |Cell(pre, post, done, change, Data)|,
                |Cell(pre, post, done, change, State)|, |Cell(pre, post, done, change, Cache)|,
                |Cell(pre, post, done, change, CredentialShaped)|, |Cell(pre, post, done, change, RuntimeSocket)|,
                |Cell(pre, post, done, change, RuntimeOther)|, |Cell(pre, post, done, change, Unclassified)|)
  }

  /** The reported total of a change is the number of entries that changed that way, capped at 64 bits. */
  lemma TotalsAreExact(pre: Entries, post: Entries, delta: Delta, change: Change)
    requires Tallied(pre, post, pre.Keys + post.Keys, delta) && change != Unchanged
    ensures Total(CountsFor(delta, change)) == Capped(|Changed(pre, post, pre.Keys + post.Keys, change)|)
  {
    var all := pre.Keys + post.Keys;
    CellsAddUp(pre, post, all, change);
    CappedTotal(CountsFor(delta, change), CellCounts(pre, post, all, change));
  }

  // ------------------------------------------------------------------ symmetry

  function Mirrored(change: Change): Change {
    match change
    case Created => Deleted
    case Deleted => Created
    case other => other
  }

  lemma ChangeMirrors(pre: Entries, post: Entries, k: string)
    requires k in pre || k in post
    ensures ChangeOf(post, pre, k) == Mirrored(ChangeOf(pre, post, k))
  {
  }

  /** An entry that is still the same object is still in the same class. */
  ghost predicate ClassesFollowObjects(pre: Entries, post: Entries) {
    forall k :: k in pre && k in post && SameObject(pre[k].identity, post[k].identity) ==> pre[k].class_ == post[k].class_
  }

  lemma CellsMirror(pre: Entries, post: Entries, change: Change, class_: Class)
    requires change == Created || change == Deleted || (change == Modified && ClassesFollowObjects(pre, post))
    ensures Cell(post, pre, post.Keys + pre.Keys, Mirrored(change), class_) == Cell(pre, post, pre.Keys + post.Keys, change, class_)
  {
    forall k
      ensures k in Cell(post, pre, post.Keys + pre.Keys, Mirrored(change), class_)
         <==> k in Cell(pre, post, pre.Keys + post.Keys, change, class_)
    {
      if k in pre || k in post { ChangeMirrors(pre, post, k); }
    }
  }

  /** Swapping the snapshots swaps created with deleted, and keeps modified, class by class. */
  lemma DiffMirrors(pre: Entries, post: Entries, there: Delta, back: Delta, class_: Class)
    requires Tallied(pre, post, pre.Keys + post.Keys, there) && Tallied(post, pre, post.Keys + pre.Keys, back)
    ensures Of(back.created, class_) == Of(there.deleted, class_) && Of(back.deleted, class_) == Of(there.created, class_)
    ensures ClassesFollowObjects(pre, post) ==> Of(back.modified, class_) == Of(there.modified, class_)
  {
    CellsMirror(pre, post, Created, class_);
    CellsMirror(pre, post, Deleted, class_);
    assert Of(CountsFor(there, Created), class_) == Of(CountsFor(back, Deleted), class_);
    assert Of(CountsFor(there, Deleted), class_) == Of(CountsFor(back, Created), class_);
    if ClassesFollowObjects(pre, post) {
      CellsMirror(pre, post, Modified, class_);
      assert Of(CountsFor(there, Modified), class_) == Of(CountsFor(back, Modified), class_);
    }
  }

  lemma ChangedMirrors(pre: Entries, post: Entries)
    ensures Changed(post, pre, post.Keys + pre.Keys, Replaced) == Changed(pre, post, pre.Keys + post.Keys, Replaced)
  {
    forall k | k in pre || k in post
      ensures ChangeOf(post, pre, k) == Mirrored(ChangeOf(pre, post, k))
    {
      ChangeMirrors(pre, post, k);
    }
  }

  /** Replaced entries keep their total, though not their classes. */
  lemma ReplacedKeepsItsTotal(pre: Entries, post: Entries, there: Delta, back: Delta)
    requires Tallied(pre, post, pre.Keys + post.Keys, there) && Tallied(post, pre, post.Keys + pre.Keys, back)
    ensures Total(back.replaced) == Total(there.replaced)
  {
    TotalsAreExact(pre, post, there, Replaced);
    TotalsAreExact(post, pre, back, Replaced);
    ChangedMirrors(pre, post);
  }

  // ---------------------------------------------- replaced entries, class by class

  /** The replaced entries that were in class `c` and are in it no longer. */
  ghost function Leaving(pre: Entries, post: Entries, c: Class): set<string> {
    set k | k in pre && k in post && ChangeOf(pre, post, k) == Replaced && pre[k].class_ == c && post[k].class_ != c
  }

  /** The replaced entries that were in class `c` and still are. */
  ghost function Staying(pre: Entries, post: Entries, c: Class): set<string> {
    set k | k in pre && k in post && ChangeOf(pre, post, k) == Replaced && pre[k].class_ == c && post[k].class_ == c
  }

  lemma AddSeparate(a: set<string>, b: set<string>)
    requires a !! b
    ensures |a + b| == |a| + |b|
  {
  }

  lemma ReplacedInClass(pre: Entries, post: Entries, c: Class, k: string)
    ensures k in Cell(pre, post, pre.Keys + post.Keys, Replaced, c)
       <==> k in Staying(pre, post, c) || k in Leaving(post, pre, c)
  {
    if k in pre && k in post { ChangeMirrors(pre, post, k); }
  }

  lemma ReplacedCellIs(pre: Entries, post: Entries, c: Class)
    ensures Cell(pre, post, pre.Keys + post.Keys, Replaced, c) == Staying(pre, post, c) + Leaving(post, pre, c)
  {
    var cell, parts := Cell(pre, post, pre.Keys + post.Keys, Replaced, c), Staying(pre, post, c) + Leaving(post, pre, c);
    forall k
      ensures k in cell <==> k in parts
    {
      ReplacedInClass(pre, post, c, k);
    }
  }

  /** A class counts the replaced entries that stay in it and those that enter it. */
  lemma ReplacedCellSplits(pre: Entries, post: Entries, c: Class)
    ensures |Cell(pre, post, pre.Keys + post.Keys, Replaced, c)| == |Staying(pre, post, c)| + |Leaving(post, pre, c)|
  {
    ReplacedCellIs(pre, post, c);
    AddSeparate(Staying(pre, post, c), Leaving(post, pre, c));
  }

  lemma StayingMirrors(pre: Entries, post: Entries, c: Class)
    ensures Staying(post, pre, c) == Staying(pre, post, c)
  {
    forall k | k in pre && k in post
      ensures ChangeOf(post, pre, k) == Mirrored(ChangeOf(pre, post, k))
    {
      ChangeMirrors(pre, post, k);
    }
  }

  /**
   * Swapping the snapshots keeps a class's count of replaced entries if and
   * only if as many of them leave the class as enter it, or the counter is
   * saturated both ways.
   */
  lemma ReplacedKeepsItsClassExactlyWhen(pre: Entries, post: Entries, there: Delta, back: Delta, c: Class)
    requires Tallied(pre, post, pre.Keys + post.Keys, there) && Tallied(post, pre, post.Keys + pre.Keys, back)
    ensures var staying, leaving, entering := |Staying(pre, post, c)|, |Leaving(pre, post, c)|, |Leaving(post, pre, c)|;
            Of(back.replaced, c) == Of(there.replaced, c)
            <==> leaving == entering || (staying + leaving >= U64_MAX && staying + entering >= U64_MAX)
  {
    ReplacedCellSplits(pre, post, c);
    ReplacedCellSplits(post, pre, c);
    StayingMirrors(pre, post, c);
    assert Of(CountsFor(there, Replaced), c) == Capped(|Cell(pre, post, pre.Keys + post.Keys, Replaced, c)|);
    assert Of(CountsFor(back, Replaced), c) == Capped(|Cell(post, pre, post.Keys + pre.Keys, Replaced, c)|);
  }

  /** In snapshots a 64-bit counter can count, the first case is the only one. */
  lemma ReplacedKeepsItsClassInBounds(pre: Entries, post: Entries, there: Delta, back: Delta, c: Class)
    requires Tallied(pre, post, pre.Keys + post.Keys, there) && Tallied(post, pre, post.Keys + pre.Keys, back)
    requires |pre| <= U64_MAX && |post| <= U64_MAX
    ensures Of(back.replaced, c) == Of(there.replaced, c) <==> |Leaving(pre, post, c)| == |Leaving(post, pre, c)|
  {
    ReplacedKeepsItsClassExactlyWhen(pre, post, there, back, c);
    var staying, leaving, entering := Staying(pre, post, c), Leaving(pre, post, c), Leaving(post, pre, c);
    AddSeparate(staying, leaving);
    AddSeparate(staying, entering);
    SubsetCardinality(staying + leaving, pre.Keys);
    SubsetCardinality(staying + entering, post.Keys);
    assert |pre| == |pre.Keys| && |post| == |post.Keys|;
  }
}
