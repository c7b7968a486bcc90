/** Queries over a finished scan: alias evidence, the largest files, and the job's caches. */
module Browse {
  import opened Status
  import opened Order
  import Paging

  const MAX_NODE_ALIASES: nat := 16
  const MAX_NODE_ISSUES: nat := 8

  datatype Kind = File | Directory | Link | Other
  datatype Metric = Logical | Allocated

  /** A scan entry; the path is its native units. */
  datatype Entry = Entry(
    id: nat, path: seq<nat>, kind: Kind, identity: nat, counted: bool,
    logicalBytes: Option<nat>, allocatedBytes: Option<nat>)

  // ----- raw path order -----

  predicate RawPathLe(left: Entry, right: Entry) { BytesLe(left.path, right.path) }

  datatype Ordering = Less | Equal | Greater

  function RawPathCmp(left: Entry, right: Entry): Ordering {
    if RawPathLe(left, right) then if RawPathLe(right, left) then Equal else Less else Greater
  }

  function Reverse(o: Ordering): Ordering {
    match o case Less => Greater case Equal => Equal case Greater => Less
  }

  lemma RawPathPreorder()
    ensures Preorder(RawPathLe)
  {
    BytesOrder();
    forall x, y: Entry ensures RawPathLe(x, y) || RawPathLe(y, x) {
      assert BytesLe(x.path, y.path) || BytesLe(y.path, x.path);
    }
  }

  /** `raw_path_cmp` is a total order on paths: it ties exactly on equal paths, flips and is transitive. */
  lemma RawPathCmpIsTotalOrder(a: Entry, b: Entry, c: Entry)
    ensures RawPathCmp(a, b) == Equal <==> a.path == b.path
    ensures RawPathCmp(b, a) == Reverse(RawPathCmp(a, b))
    ensures RawPathCmp(a, b) != Greater && RawPathCmp(b, c) != Greater ==> RawPathCmp(a, c) != Greater
    ensures RawPathCmp(a, b) == Less && RawPathCmp(b, c) == Less ==> RawPathCmp(a, c) == Less
  {
    BytesOrder();
    assert BytesLe(a.path, b.path) || BytesLe(b.path, a.path);
    if RawPathLe(b, c) && RawPathLe(c, a) { assert BytesLe(b.path, a.path); }
  }

  // ----- aliases of one file -----

  predicate AliasOf(candidate: Entry, entry: Entry) {
    candidate.kind == File && candidate.identity == entry.identity
  }

  function Aliases(entries: seq<Entry>, entry: Entry): seq<Entry> {
    if entries == [] then []
    else
      Aliases(entries[..|entries| - 1], entry)
      + if AliasOf(entries[|entries| - 1], entry) then [entries[|entries| - 1]] else []
  }

  lemma TakeIsSorted(found: seq<Entry>, k: nat)
    ensures Sorted(Take(StableSort(found, RawPathLe), k), RawPathLe)
  {
    RawPathPreorder();
    StableSortSorts(found, RawPathLe);
  }

  /** The binary search in the buffer finds the place after everything that may stand before the alias. */
  method AliasPosition(aliases: seq<Entry>, alias: Entry, ghost found: seq<Entry>) returns (p: nat)
    requires aliases == Take(StableSort(found, RawPathLe), MAX_NODE_ALIASES)
    ensures p == Point(aliases, alias, RawPathLe)
  {
    TakeIsSorted(found, MAX_NODE_ALIASES);
    RawPathPreorder();
    p := PartitionPoint(aliases, alias, RawPathLe);
    PointIsThePartition(aliases, alias, RawPathLe, p);
  }

  /** One pass with a buffer of at most sixteen gives the head of the full stable sort, and the full count. */
  method NodeAliases(entries: seq<Entry>, entry: Entry) returns (count: nat, aliases: seq<Entry>)
    ensures entry.kind == File ==>
      && count == |Aliases(entries, entry)|
      && aliases == Take(StableSort(Aliases(entries, entry), RawPathLe), 16)
    ensures entry.kind != File ==> count == 0 && aliases == []
  {
    count, aliases := 0, [];
    if entry.kind != File { return; }
    for i := 0 to |entries|
      invariant count == |Aliases(entries[..i], entry)|
      invariant aliases == Take(StableSort(Aliases(entries[..i], entry), RawPathLe), MAX_NODE_ALIASES)
    {
      assert entries[..i + 1][..i] == entries[..i];
      ghost var before := aliases;
      var alias := entries[i];
      if AliasOf(alias, entry) {
        ghost var found := Aliases(entries[..i], entry);
        assert Aliases(entries[..i + 1], entry) == found + [alias];
        StableSortOneMore(found, alias, RawPathLe);
        KeepIsTakeOfInsert(StableSort(found, RawPathLe), alias, MAX_NODE_ALIASES, RawPathLe);
        count := count + 1;
        var position := AliasPosition(aliases, alias, found);
        if position < MAX_NODE_ALIASES {
          if |aliases| == MAX_NODE_ALIASES { aliases := aliases[..|aliases| - 1]; }
          aliases := aliases[..position] + [alias] + aliases[position..];
        }
        assert aliases == Keep(before, alias, MAX_NODE_ALIASES, RawPathLe);
      } else {
        assert Aliases(entries[..i + 1], entry) == Aliases(entries[..i], entry);
      }
    }
    assert entries[..|entries|] == entries;
  }

  /** The aliases are the files of the same identity, each as often as the report has it. */
  lemma {:induction false} AliasesAreThose(entries: seq<Entry>, entry: Entry, x: Entry)
    ensures multiset(Aliases(entries, entry))[x]
      == if x.kind == File && x.identity == entry.identity then multiset(entries)[x] else 0
  {
    if entries != [] {
      AliasesAreThose(entries[..|entries| - 1], entry, x);
      assert entries == entries[..|entries| - 1] + [entries[|entries| - 1]];
    }
  }

  /** Raw bytes: one path is a prefix of the other, or has the smaller byte where they first differ. */
  ghost predicate PathsInOrder(a: seq<nat>, b: seq<nat>) {
    a <= b || exists i :: 0 <= i < |a| && i < |b| && a[..i] == b[..i] && a[i] < b[i]
  }

  /**
   What the evidence means: the first sixteen are shown, all if there are fewer, in raw byte order, and none
   that is hidden precedes a shown one.
   */
  lemma ShownAliasesComeFirst(entries: seq<Entry>, entry: Entry, p: nat, q: nat)
    requires p < q < |Aliases(entries, entry)|
    ensures var sorted := StableSort(Aliases(entries, entry), RawPathLe);
      var shown := Take(sorted, MAX_NODE_ALIASES);
      && multiset(sorted) == multiset(Aliases(entries, entry)) && |sorted| == |Aliases(entries, entry)|
      && |shown| == (if |sorted| < 16 then |sorted| else 16) && shown <= sorted
      && PathsInOrder(sorted[p].path, sorted[q].path)
  {
    RawPathPreorder();
    StableSortSorts(Aliases(entries, entry), RawPathLe);
    var sorted := StableSort(Aliases(entries, entry), RawPathLe);
    assert |multiset(sorted)| == |sorted|;
    assert RawPathLe(sorted[p], sorted[q]);
    BytesLeIs(sorted[p].path, sorted[q].path);
  }

  function Matching(issues: seq<Option<seq<nat>>>, path: seq<nat>): seq<nat> {
    if issues == [] then []
    else
      Matching(issues[..|issues| - 1], path)
      + if issues[|issues| - 1] == Some(path) then [|issues| - 1] else []
  }

  /** Issues with this path: all are counted, the first eight are kept, by position in the report. */
  method MatchingIssues(issues: seq<Option<seq<nat>>>, path: seq<nat>) returns (count: nat, kept: seq<nat>)
    ensures count == |Matching(issues, path)| && kept == Take(Matching(issues, path), 8)
  {
    count, kept := 0, [];
    for i := 0 to |issues|
      invariant count == |Matching(issues[..i], path)|
      invariant kept == Take(Matching(issues[..i], path), MAX_NODE_ISSUES)
    {
      assert issues[..i + 1][..i] == issues[..i];
      if issues[i] == Some(path) {
        count := count + 1;
        if |kept| < MAX_NODE_ISSUES { kept := kept + [i]; }
      }
    }
    assert issues[..|issues|] == issues;
  }

  /** Exactly the issues with this path, first to last. */
  lemma {:induction false} MatchingAreThose(issues: seq<Option<seq<nat>>>, path: seq<nat>, i: nat)
    ensures i in Matching(issues, path) <==> i < |issues| && issues[i] == Some(path)
    ensures forall p, q :: 0 <= p < q < |Matching(issues, path)| ==>
      Matching(issues, path)[p] < Matching(issues, path)[q] < |issues|
    ensures forall p :: 0 <= p < |Matching(issues, path)| ==> Matching(issues, path)[p] < |issues|
  {
    if issues != [] { MatchingAreThose(issues[..|issues| - 1], path, i); }
  }

  // ----- the index -----

  datatype Tree = Tree(entries: seq<Entry>)

  /** The index builder refuses repeated ids and repeated paths. */
  ghost predicate Indexed(t: Tree) {
    && (forall i, j :: 0 <= i < j < |t.entries| ==> t.entries[i].id != t.entries[j].id)
    && (forall i, j :: 0 <= i < j < |t.entries| ==> t.entries[i].path != t.entries[j].path)
    && |t.entries| <= USIZE_MAX
  }

  function Find(entries: seq<Entry>, id: nat): (r: Option<Entry>)
    ensures r.Some? ==> r.value in entries && r.value.id == id
    ensures r.None? ==> forall e :: e in entries ==> e.id != id
  {
    if entries == [] then None
    else if entries[0].id == id then Some(entries[0])
    else Find(entries[1..], id)
  }

  function FileSize(e: Entry, m: Metric): Option<nat> {
    match m case Logical => e.logicalBytes case Allocated => e.allocatedBytes
  }

  lemma FindIsEntry(t: Tree, i: nat)
    requires Indexed(t) && i < |t.entries|
    ensures Find(t.entries, t.entries[i].id) == Some(t.entries[i])
  {
    var r := Find(t.entries, t.entries[i].id);
    assert t.entries[i] in t.entries;
    var j :| 0 <= j < |t.entries| && t.entries[j] == r.value;
    assert i < j || j < i || i == j;
  }

  // ----- the largest files -----

  datatype LargestFiles = LargestFiles(ids: seq<nat>, unmeasured: nat)

  predicate Listed(e: Entry) { e.kind == File && e.counted }

  function MeasuredIds(entries: seq<Entry>, m: Metric): seq<nat> {
    if entries == [] then []
    else
      var e := entries[|entries| - 1];
      MeasuredIds(entries[..|entries| - 1], m) + if Listed(e) && FileSize(e, m).Some? then [e.id] else []
  }

  function ListedCount(entries: seq<Entry>): nat {
    if entries == [] then 0
    else ListedCount(entries[..|entries| - 1]) + if Listed(entries[|entries| - 1]) then 1 else 0
  }

  function UnmeasuredCount(entries: seq<Entry>, m: Metric): nat {
    if entries == [] then 0
    else
      var e := entries[|entries| - 1];
      UnmeasuredCount(entries[..|entries| - 1], m) + if Listed(e) && FileSize(e, m).None? then 1 else 0
  }

  /** Larger files first, ties by raw path; an id the index lacks counts as empty. */
  predicate LargerFirst(t: Tree, m: Metric, a: nat, b: nat) {
    var x, y := Find(t.entries, a), Find(t.entries, b);
    var p, q := if x.Some? then x.value.path else [], if y.Some? then y.value.path else [];
    var s, r := if x.Some? then FileSize(x.value, m) else None, if y.Some? then FileSize(y.value, m) else None;
    var u, v := if s.Some? then s.value else 0, if r.Some? then r.value else 0;
    u > v || (u == v && BytesLe(p, q))
  }

  function LargestLe(t: Tree, m: Metric): Le<nat> { (a: nat, b: nat) => LargerFirst(t, m, a, b) }

  /** The list every page of this metric is cut from. */
  function LargestOrder(t: Tree, m: Metric): LargestFiles {
    var ids := MeasuredIds(t.entries, m);
    LargestFiles(StableSort(ids, LargestLe(t, m)), UnmeasuredCount(t.entries, m))
  }

  lemma LargestPreorder(t: Tree, m: Metric)
    ensures Preorder(LargestLe(t, m))
  {
    BytesOrder();
    var le := LargestLe(t, m);
    forall x, y ensures le(x, y) || le(y, x) { TotalAt(t, m, x, y); }
    forall x, y, z | le(x, y) && le(y, z) ensures le(x, z) { TransitiveAt(t, m, x, y, z); }
  }

  lemma TotalAt(t: Tree, m: Metric, a: nat, b: nat)
    requires Preorder(BytesLe)
    ensures LargerFirst(t, m, a, b) || LargerFirst(t, m, b, a)
  {
  }

  lemma TransitiveAt(t: Tree, m: Metric, a: nat, b: nat, c: nat)
    requires Preorder(BytesLe) && LargerFirst(t, m, a, b) && LargerFirst(t, m, b, c)
    ensures LargerFirst(t, m, a, c)
  {
  }

  lemma {:induction false} MeasuredAreEntries(entries: seq<Entry>, m: Metric, id: nat)
    ensures id in MeasuredIds(entries, m) <==>
      exists e :: e in entries && e.id == id && Listed(e) && FileSize(e, m).Some?
    ensures |MeasuredIds(entries, m)| + UnmeasuredCount(entries, m) == ListedCount(entries) <= |entries|
  {
    if entries != [] {
      var front, last := entries[..|entries| - 1], entries[|entries| - 1];
      MeasuredAreEntries(front, m, id);
      assert entries == front + [last];
    }
  }

  lemma LargestHasNoTies(t: Tree, m: Metric)
    requires Indexed(t)
    ensures NoTies(MeasuredIds(t.entries, m), LargestLe(t, m))
  {
    BytesOrder();
    var ids, le := MeasuredIds(t.entries, m), LargestLe(t, m);
    forall a, b | a in ids && b in ids && le(a, b) && le(b, a) ensures a == b {
      NoTieAt(t, m, a, b);
    }
  }

  lemma NoTieAt(t: Tree, m: Metric, a: nat, b: nat)
    requires Indexed(t) && Antisymmetric(BytesLe)
    requires a in MeasuredIds(t.entries, m) && b in MeasuredIds(t.entries, m)
    requires LargerFirst(t, m, a, b) && LargerFirst(t, m, b, a)
    ensures a == b
  {
    MeasuredAreEntries(t.entries, m, a);
    MeasuredAreEntries(t.entries, m, b);
    var x, y := Find(t.entries, a).value, Find(t.entries, b).value;
    assert x.path == y.path;
    var i :| 0 <= i < |t.entries| && t.entries[i] == x;
    var j :| 0 <= j < |t.entries| && t.entries[j] == y;
    assert i < j || j < i || i == j;
  }

  /**
   The order lists exactly the counted measured files, largest first with ties by raw path, the rest of
   the counted files are the unmeasured ones, and no other sorted permutation exists: an unstable sort
   and a cached copy can only agree with it.
   */
  lemma LargestOrderIsDetermined(t: Tree, m: Metric, other: seq<nat>)
    requires Indexed(t)
    ensures var o := LargestOrder(t, m);
      && multiset(o.ids) == multiset(MeasuredIds(t.entries, m)) && Sorted(o.ids, LargestLe(t, m))
      && |o.ids| + o.unmeasured == ListedCount(t.entries)
      && (Sorted(other, LargestLe(t, m)) && multiset(other) == multiset(o.ids) ==> other == o.ids)
  {
    var ids, le := MeasuredIds(t.entries, m), LargestLe(t, m);
    LargestPreorder(t, m);
    StableSortSorts(ids, le);
    MeasuredAreEntries(t.entries, m, 0);
    LargestHasNoTies(t, m);
    var sorted := StableSort(ids, le);
    forall x | x in sorted ensures x in ids { assert x in multiset(sorted); }
    if Sorted(other, le) && multiset(other) == multiset(sorted) { SortedIsUnique(sorted, other, le); }
  }

  lemma OrderIdsAreEntries(t: Tree, m: Metric, id: nat)
    requires Indexed(t) && id in LargestOrder(t, m).ids
    ensures Find(t.entries, id).Some? && Listed(Find(t.entries, id).value)
    ensures FileSize(Find(t.entries, id).value, m).Some?
  {
    LargestOrderIsDetermined(t, m, []);
    assert id in multiset(LargestOrder(t, m).ids);
    MeasuredAreEntries(t.entries, m, id);
    var e :| e in t.entries && e.id == id && Listed(e) && FileSize(e, m).Some?;
    var i :| 0 <= i < |t.entries| && t.entries[i] == e;
    FindIsEntry(t, i);
  }

  /**
   What the order is for: of two listed files the earlier has the larger size in the metric asked for, and
   of two with the same size the earlier has the path that comes first in byte order.
   */
  lemma LargestComeFirst(t: Tree, m: Metric, p: nat, q: nat)
    requires Indexed(t) && p < q < |LargestOrder(t, m).ids|
    ensures var a, b := Find(t.entries, LargestOrder(t, m).ids[p]), Find(t.entries, LargestOrder(t, m).ids[q]);
      && a.Some? && b.Some?
      && (m == Logical ==>
            && a.value.logicalBytes.Some? && b.value.logicalBytes.Some?
            && a.value.logicalBytes.value >= b.value.logicalBytes.value
            && (a.value.logicalBytes == b.value.logicalBytes ==> PathsInOrder(a.value.path, b.value.path)))
      && (m == Allocated ==>
            && a.value.allocatedBytes.Some? && b.value.allocatedBytes.Some?
            && a.value.allocatedBytes.value >= b.value.allocatedBytes.value
            && (a.value.allocatedBytes == b.value.allocatedBytes ==> PathsInOrder(a.value.path, b.value.path)))
  {
    var ids := LargestOrder(t, m).ids;
    LargestOrderIsDetermined(t, m, []);
    OrderIdsAreEntries(t, m, ids[p]);
    OrderIdsAreEntries(t, m, ids[q]);
    assert LargestLe(t, m)(ids[p], ids[q]);
    BytesLeIs(Find(t.entries, ids[p]).value.path, Find(t.entries, ids[q]).value.path);
  }

  predicate HasSize(e: Entry, m: Metric) {
    (m == Logical && e.logicalBytes.Some?) || (m == Allocated && e.allocatedBytes.Some?)
  }

  /** It lists exactly the counted files with such a size. */
  lemma LargestListsExactly(t: Tree, m: Metric, id: nat)
    requires Indexed(t)
    ensures id in LargestOrder(t, m).ids <==>
      exists e :: e in t.entries && e.id == id && e.kind == File && e.counted && HasSize(e, m)
  {
    LargestOrderIsDetermined(t, m, []);
    assert id in LargestOrder(t, m).ids <==> id in multiset(LargestOrder(t, m).ids);
    assert id in MeasuredIds(t.entries, m) <==> id in multiset(MeasuredIds(t.entries, m));
    MeasuredAreEntries(t.entries, m, id);
    forall e: Entry ensures FileSize(e, m).Some? <==> HasSize(e, m) {}
  }

  /** Each once, and the other counted files are the unmeasured ones. */
  lemma LargestListsOnce(t: Tree, m: Metric)
    requires Indexed(t)
    ensures var o := LargestOrder(t, m);
      && (forall p, q :: 0 <= p < q < |o.ids| ==> o.ids[p] != o.ids[q])
      && |o.ids| == |set e | e in t.entries && e.kind == File && e.counted && HasSize(e, m)|
      && o.unmeasured == |set e | e in t.entries && e.kind == File && e.counted && !HasSize(e, m)|
  {
    LargestOrderIsDetermined(t, m, []);
    MeasuredCounts(t.entries, m);
    ThoseAre(t.entries, m);
    OnceEach(t.entries, m);
    SameOnce(MeasuredIds(t.entries, m), LargestOrder(t, m).ids);
  }

  ghost predicate DistinctEntries(entries: seq<Entry>) {
    forall i, j :: 0 <= i < j < |entries| ==> entries[i].id != entries[j].id
  }

  function Counted(m: Metric, sized: bool): Entry -> bool {
    (e: Entry) => e.kind == File && e.counted && HasSize(e, m) == sized
  }

  function Those(entries: seq<Entry>, p: Entry -> bool): set<Entry> { set e | e in entries && p(e) }

  lemma ThoseAre(entries: seq<Entry>, m: Metric)
    ensures Those(entries, Counted(m, true)) == set e | e in entries && e.kind == File && e.counted && HasSize(e, m)
    ensures Those(entries, Counted(m, false)) == set e | e in entries && e.kind == File && e.counted && !HasSize(e, m)
  {
  }

  lemma OneMoreOfThose(front: seq<Entry>, last: Entry, p: Entry -> bool)
    requires last !in front
    ensures |Those(front + [last], p)| == |Those(front, p)| + if p(last) then 1 else 0
  {
    assert Those(front + [last], p) == if p(last) then Those(front, p) + {last} else Those(front, p);
  }

  lemma NotTwice(entries: seq<Entry>)
    requires entries != [] && DistinctEntries(entries)
    ensures entries[|entries| - 1] !in entries[..|entries| - 1]
  {
    var n := |entries| - 1;
    forall i | 0 <= i < n ensures entries[i] != entries[n] { assert entries[i].id != entries[n].id; }
  }

  lemma {:induction false} MeasuredCounts(entries: seq<Entry>, m: Metric)
    requires DistinctEntries(entries)
    ensures |MeasuredIds(entries, m)| == |Those(entries, Counted(m, true))|
    ensures UnmeasuredCount(entries, m) == |Those(entries, Counted(m, false))|
  {
    if entries != [] {
      var front, last := entries[..|entries| - 1], entries[|entries| - 1];
      MeasuredCounts(front, m);
      NotTwice(entries);
      assert entries == front + [last];
      OneMoreOfThose(front, last, Counted(m, true));
      OneMoreOfThose(front, last, Counted(m, false));
    }
  }

  lemma {:induction false} OnceEach(entries: seq<Entry>, m: Metric)
    requires DistinctEntries(entries)
    ensures var ids := MeasuredIds(entries, m); forall p, q :: 0 <= p < q < |ids| ==> ids[p] != ids[q]
  {
    if entries != [] {
      var front, last := entries[..|entries| - 1], entries[|entries| - 1];
      OnceEach(front, m);
      MeasuredAreEntries(front, m, last.id);
      forall e | e in front ensures e.id != last.id {
        var i :| 0 <= i < |front| && front[i] == e;
        assert entries[i].id != last.id;
      }
    }
  }

  lemma SameOnce(a: seq<nat>, b: seq<nat>)
    requires multiset(a) == multiset(b) && forall p, q :: 0 <= p < q < |a| ==> a[p] != a[q]
    ensures |a| == |b| && forall p, q :: 0 <= p < q < |b| ==> b[p] != b[q]
  {
    assert |multiset(a)| == |a| && |multiset(b)| == |b|;
    forall p, q | 0 <= p < q < |b| ensures b[p] != b[q] {
      if b[p] == b[q] {
        TwiceCounts(b, p, q);
        assert b[p] in multiset(a);
        OnceCounts(a, b[p]);
      }
    }
  }

  lemma TwiceCounts(s: seq<nat>, p: nat, q: nat)
    requires p < q < |s| && s[p] == s[q]
    ensures multiset(s)[s[p]] >= 2
  {
    assert s == s[..q] + [s[q]] + s[q + 1..];
    assert s[p] in s[..q];
  }

  lemma {:induction false} OnceCounts(s: seq<nat>, x: nat)
    requires forall p, q :: 0 <= p < q < |s| ==> s[p] != s[q]
    ensures multiset(s)[x] <= 1
  {
    if s != [] {
      var front, last := s[..|s| - 1], s[|s| - 1];
      assert s == front + [last];
      OnceCounts(front, x);
      if x == last { assert last !in multiset(front); }
    }
  }

  lemma OrderIsUsable(t: Tree, m: Metric)
    requires Indexed(t)
    ensures |LargestOrder(t, m).ids| <= USIZE_MAX
    ensures forall id :: id in LargestOrder(t, m).ids ==> Find(t.entries, id).Some?
  {
    LargestOrderIsDetermined(t, m, []);
    MeasuredAreEntries(t.entries, m, 0);
    forall id | id in LargestOrder(t, m).ids ensures Find(t.entries, id).Some? { OrderIdsAreEntries(t, m, id); }
  }

  method BuildLargestFilesOrder(t: Tree, m: Metric) returns (o: LargestFiles)
    requires Indexed(t)
    ensures o == LargestOrder(t, m)
  {
    var ids: seq<nat>, unmeasured: nat := [], 0;
    for i := 0 to |t.entries|
      invariant ids == MeasuredIds(t.entries[..i], m)
      invariant unmeasured == UnmeasuredCount(t.entries[..i], m)
    {
      assert t.entries[..i + 1][..i] == t.entries[..i];
      FindIsEntry(t, i);
      var entry := t.entries[i];
      if entry.kind == File && entry.counted {
        if FileSize(Find(t.entries, entry.id).value, m).Some? {
          ids := ids + [entry.id];
        } else {
          unmeasured := unmeasured + 1;
        }
      }
    }
    assert t.entries[..|t.entries|] == t.entries;
    return LargestFiles(StableSort(ids, LargestLe(t, m)), unmeasured);
  }

  // ----- the job's caches -----

  /** A terminal report: whether the scan failed, and what building its index gives. */
  datatype Report = Report(failed: bool, index: Result<Tree>)

  function MetricIndex(m: Metric): nat { match m case Logical => 0 case Allocated => 1 }

  class ScanJob {
    var result: Option<Option<Report>>  // of the scan: pending, failed outright, or a report
    var prepared: Option<Tree>          // an index the worker left, taken at most once
    var tree: Option<Result<Tree>>
    var largest: seq<Option<LargestFiles>>

    ghost predicate Valid()
      reads this
    {
      && |largest| == 2
      && (tree.Some? && tree.value.Ok? ==> Indexed(tree.value.value))
      && (prepared.Some? ==> Indexed(prepared.value))
      && (result.Some? && result.value.Some? && result.value.value.index.Ok? ==>
            Indexed(result.value.value.index.value))
      && CacheFits(Logical) && CacheFits(Allocated)
    }

    /** A filled cache implies an index, and is the order of that index. */
    ghost predicate CacheFits(m: Metric)
      requires |largest| == 2
      reads this
    {
      largest[MetricIndex(m)].Some? ==>
        tree.Some? && tree.value.Ok? && largest[MetricIndex(m)].value == LargestOrder(tree.value.value, m)
    }

    /** What asking for the index answers now. */
    ghost function TreeNow(): Result<Tree>
      reads this
    {
      if tree.Some? then tree.value
      else if result.None? then Err(NOT_READY)
      else if prepared.Some? then Ok(prepared.value)
      else if result.value.None? || result.value.value.failed then Err(QUERY_UNAVAILABLE)
      else result.value.value.index
    }

    constructor (result: Option<Option<Report>>, prepared: Option<Tree>)
      requires prepared.Some? ==> Indexed(prepared.value)
      requires result.Some? && result.value.Some? && result.value.value.index.Ok? ==>
        Indexed(result.value.value.index.value)
      ensures Valid()
    {
      this.result, this.prepared, tree, largest := result, prepared, None, [None, None];
    }

    method GetTree() returns (r: Result<Tree>)
      requires Valid()
      modifies this`tree, this`prepared
      ensures Valid() && r == old(TreeNow())
      ensures r.Ok? ==> tree == Some(r)
      // an index the worker prepared is taken first; otherwise it is built from a report that did not fail
      ensures old(tree).None? && old(result).None? ==> r == Err(NOT_READY) && tree.None?
      ensures old(tree).None? && old(result).Some? && old(prepared).Some? ==>
        r == Ok(old(prepared).value) && tree == Some(r) && prepared.None?
      ensures old(tree).None? && old(result).Some? && old(prepared).None? ==>
        && ((old(result).value.None? || old(result).value.value.failed) ==> r == Err(QUERY_UNAVAILABLE) && tree.None?)
        && (old(result).value.Some? && !old(result).value.value.failed ==>
              r == old(result).value.value.index && tree == Some(r))
      // once cached the index, or the failure to build it, never changes
      ensures old(tree).Some? ==> tree == old(tree) && r == old(tree).value
    {
      if tree.None? {
        if result.Some? && prepared.Some? {
          tree := Some(Ok(prepared.value));
          prepared := None;
        }
      }
      if tree.None? {
        if result.None? { return Err(NOT_READY); }
        if result.value.None? { return Err(QUERY_UNAVAILABLE); }
        if result.value.value.failed { return Err(QUERY_UNAVAILABLE); }
        tree := Some(result.value.value.index);
      }
      return tree.value;
    }

    method LargestFilesPage(m: Metric, offset: nat, limit: nat) returns (r: Result<(Paging.Page<Entry>, nat)>)
      requires Valid()
      modifies this`tree, this`prepared, this`largest
      ensures Valid()
      ensures old(tree).Some? ==> tree == old(tree)
      ensures old(TreeNow()).Err? ==> r == Err(old(TreeNow()).code)
      ensures old(TreeNow()).Ok? ==>
        var o := LargestOrder(old(TreeNow()).value, m);
        && tree == Some(old(TreeNow())) && |o.ids| <= USIZE_MAX
        && ShowsPage(r, old(TreeNow()).value, o, offset, limit)
    {
      var index := MetricIndex(m);
      if largest[index].None? {
        var built := GetTree();
        if built.Err? { return Err(built.code); }
        var fresh_order := BuildLargestFilesOrder(built.value, m);
        largest := largest[index := Some(fresh_order)];
      }
      // the two `expect` calls: the index and the cache are there
      OrderIsUsable(tree.value.value, m);
      r := PageOfOrder(tree.value.value, largest[index].value, offset, limit);
    }
  }

  /** The page shows the nodes behind one page of the order's ids. */
  ghost predicate ShowsPage(r: Result<(Paging.Page<Entry>, nat)>, t: Tree, o: LargestFiles, offset: nat, limit: nat)
    requires |o.ids| <= USIZE_MAX
  {
    var p := Paging.PageOf(o.ids, offset, limit);
    if p.Err? then r == Err(p.code)
    else
      && r.Ok? && r.value.1 == o.unmeasured
      && r.value.0.offset == p.value.offset && r.value.0.total == p.value.total && r.value.0.next == p.value.next
      && |r.value.0.items| == |p.value.items|
      && forall k :: 0 <= k < |p.value.items| ==> Find(t.entries, p.value.items[k]) == Some(r.value.0.items[k])
  }

  method PageOfOrder(t: Tree, order: LargestFiles, offset: nat, limit: nat)
    returns (r: Result<(Paging.Page<Entry>, nat)>)
    requires |order.ids| <= USIZE_MAX
    requires forall id :: id in order.ids ==> Find(t.entries, id).Some?
    ensures ShowsPage(r, t, order, offset, limit)
  {
    if offset > |order.ids| { return Err(INVALID_ARGUMENT); }
    var end := Paging.Min(SaturatingAdd(offset, limit), |order.ids|);
    var nodes: seq<Entry> := [];
    for k := offset to end
      invariant |nodes| == k - offset
      invariant forall i :: 0 <= i < |nodes| ==> Find(t.entries, order.ids[offset + i]) == Some(nodes[i])
    {
      assert order.ids[k] in order.ids;
      nodes := nodes + [Find(t.entries, order.ids[k]).value];
    }
    var next := if end < |order.ids| then Some(end) else None;
    return Ok((Paging.Page(offset, |order.ids|, next, nodes), order.unmeasured));
  }
}
