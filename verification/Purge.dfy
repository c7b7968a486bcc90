/** Purge previews: item ids as shown, executed and reported, sums over unknown sizes, and the execution report. */
module Purge {
  import opened Status
  import Counting

  const MAX_PURGE_SELECTIONS: nat := 32

  datatype Profile = Projects | DeveloperCaches | FinderMetadata | Worktrees

  /** One previewed thing. `supported` is what executing it needs besides its id: coverage, support, a root. */
  datatype Item = Item(
    path: nat, logicalBytes: Option<nat>, allocatedBytes: Option<nat>, privateBytes: Option<nat>, supported: bool)

  /** `projects[p]` are the artifacts of project `p`. */
  datatype Preview = Preview(
    profile: Profile, complete: bool, projects: seq<seq<Item>>, caches: seq<Item>, finder: seq<Item>)

  function Flat<T>(nested: seq<seq<T>>): seq<T> {
    if nested == [] then [] else nested[0] + Flat(nested[1..])
  }

  /** Every list of a preview fits a vector, and so does their concatenation. */
  predicate Bounded(p: Preview) { |Flat(p.projects)| <= USIZE_MAX }

  lemma {:induction false} FlatConcat<T>(a: seq<seq<T>>, b: seq<seq<T>>)
    ensures Flat(a + b) == Flat(a) + Flat(b)
  {
    if a == [] {
      assert a + b == b;
    } else {
      FlatConcat(a[1..], b);
      assert (a + b)[1..] == a[1..] + b;
      assert a[0] + (Flat(a[1..]) + Flat(b)) == (a[0] + Flat(a[1..])) + Flat(b);
    }
  }

  /** Splitting the walk at artifact `a` of project `p`. */
  lemma FlatAt<T>(nested: seq<seq<T>>, p: nat, a: nat)
    requires p < |nested| && a < |nested[p]|
    ensures var before := |Flat(nested[..p])|;
      before + a < |Flat(nested)| && Flat(nested)[before + a] == nested[p][a]
  {
    assert nested == nested[..p] + nested[p..];
    FlatConcat(nested[..p], nested[p..]);
  }

  lemma FlatOneMore<T>(nested: seq<seq<T>>, p: nat)
    requires p < |nested|
    ensures Flat(nested[..p + 1]) == Flat(nested[..p]) + nested[p]
    ensures |Flat(nested[..p + 1])| <= |Flat(nested)|
  {
    assert nested[..p + 1] == nested[..p] + [nested[p]];
    FlatConcat(nested[..p], [nested[p]]);
    assert Flat([nested[p]]) == nested[p] + Flat([nested[p]][1..]);
    assert nested == nested[..p + 1] + nested[p + 1..];
    FlatConcat(nested[..p + 1], nested[p + 1..]);
  }

  // ----- ids as shown -----

  datatype Shown = Shown(id: nat, item: Item)

  /** Artifacts are numbered from 1 across all projects; the other two lists are each numbered from 1. */
  method ShowArtifacts(p: Preview) returns (shown: seq<seq<Shown>>)
    ensures |Flat(shown)| == |Flat(p.projects)|
    ensures forall k :: 0 <= k < |Flat(shown)| ==> Flat(shown)[k] == Shown(k + 1, Flat(p.projects)[k])
    ensures |shown| == |p.projects| && forall i :: 0 <= i < |shown| ==> |shown[i]| == |p.projects[i]|
  {
    shown := [];
    var nextId := 1;
    for i := 0 to |p.projects|
      invariant |shown| == i && forall j :: 0 <= j < i ==> |shown[j]| == |p.projects[j]|
      invariant nextId == |Flat(shown)| + 1 && |Flat(shown)| == |Flat(p.projects[..i])|
      invariant forall k :: 0 <= k < |Flat(shown)| ==> Flat(shown)[k] == Shown(k + 1, Flat(p.projects[..i])[k])
    {
      var items: seq<Shown> := [];
      for a := 0 to |p.projects[i]|
        invariant |items| == a && nextId == |Flat(shown)| + 1 + a
        invariant forall b :: 0 <= b < a ==> items[b] == Shown(|Flat(shown)| + 1 + b, p.projects[i][b])
      {
        items := items + [Shown(nextId, p.projects[i][a])];
        nextId := nextId + 1;
      }
      FlatOneMore(p.projects, i);
      FlatConcat(shown, [items]);
      assert Flat([items]) == items + Flat([items][1..]);
      shown := shown + [items];
    }
    assert p.projects[..|p.projects|] == p.projects;
  }

  /** `item_id_for`: the sum of the earlier lists' lengths is the id the walk hands out. */
  method ItemIdFor(p: Preview, project: nat, artifact: nat) returns (id: nat)
    requires project < |p.projects| && artifact < |p.projects[project]|
    ensures 1 <= id <= |Flat(p.projects)| && Flat(p.projects)[id - 1] == p.projects[project][artifact]
    ensures id == |Flat(p.projects[..project])| + artifact + 1
  {
    var value := 1;
    for i := 0 to project
      invariant value == 1 + |Flat(p.projects[..i])|
    {
      FlatOneMore(p.projects, i);
      value := value + |p.projects[i]|;
    }
    FlatAt(p.projects, project, artifact);
    return value + artifact;
  }

  // ----- ids as reported -----

  function SaturatingPred(id: nat): nat { if id == 0 then 0 else id - 1 }

  function ListItem(list: seq<Item>, id: nat): Option<Item> {
    if SaturatingPred(id) < |list| then Some(list[SaturatingPred(id)]) else None
  }

  /** The item a report shows for an id: artifacts first, whatever the profile, then the profile's own list. */
  function Reported(p: Preview, id: nat): Option<Item> {
    if 1 <= id <= |Flat(p.projects)| then Some(Flat(p.projects)[id - 1])
    else
      match p.profile
      case DeveloperCaches => ListItem(p.caches, id)
      case FinderMetadata => ListItem(p.finder, id)
      case _ => None
  }

  /** The nested walk with a running number; `capped` is what it does to the number at the top of u64. */
  method FindArtifact(p: Preview, id: nat, capped: bool) returns (r: Option<Item>)
    requires Bounded(p)
    ensures r == if 1 <= id <= |Flat(p.projects)| then Some(Flat(p.projects)[id - 1]) else None
  {
    var current := 1;
    for i := 0 to |p.projects|
      invariant current == SaturatingAdd(|Flat(p.projects[..i])|, 1)
      invariant id == 0 || |Flat(p.projects[..i])| < id
    {
      FlatOneMore(p.projects, i);
      for a := 0 to |p.projects[i]|
        invariant current == SaturatingAdd(|Flat(p.projects[..i])| + a, 1)
        invariant id == 0 || |Flat(p.projects[..i])| + a < id
      {
        FlatAt(p.projects, i, a);
        if current == id { return Some(p.projects[i][a]); }
        if !capped && CheckedAdd(current, 1).None? { return None; }
        current := SaturatingAdd(current, 1);
      }
    }
    assert p.projects[..|p.projects|] == p.projects;
    return None;
  }

  method PreviewItem(p: Preview, id: nat) returns (r: Option<Item>)
    requires Bounded(p)
    ensures r == Reported(p, id)
  {
    r := FindArtifact(p, id, true);
    if r.Some? { return; }
    if p.profile == DeveloperCaches && SaturatingPred(id) < |p.caches| { return Some(p.caches[SaturatingPred(id)]); }
    if p.profile == FinderMetadata && SaturatingPred(id) < |p.finder| { return Some(p.finder[SaturatingPred(id)]); }
    return None;
  }

  // ----- ids as executed -----

  /** The list a profile's ids index. */
  function Own(p: Preview): seq<Item> {
    match p.profile
    case Projects => Flat(p.projects)
    case DeveloperCaches => p.caches
    case FinderMetadata => p.finder
    case Worktrees => []
  }

  predicate Names(p: Preview, id: nat) { 1 <= id <= |Own(p)| && Own(p)[id - 1].supported }

  ghost predicate Distinct(ids: seq<nat>) { forall i, j :: 0 <= i < j < |ids| ==> ids[i] != ids[j] }

  /** The three resolvers, one per profile that can execute: each id once, each the item it was shown for. */
  method Resolve(p: Preview, ids: seq<nat>) returns (r: Option<seq<Item>>)
    requires Bounded(p)
    ensures r.Some? <==>
      && p.profile != Worktrees && (p.profile == DeveloperCaches ==> p.complete)
      && (forall i, j :: 0 <= i < j < |ids| ==> ids[i] != ids[j])
      && (forall k :: 0 <= k < |ids| ==> 1 <= ids[k] <= |Own(p)| && Own(p)[ids[k] - 1].supported)
    ensures r.Some? ==> |r.value| == |ids| && forall k :: 0 <= k < |ids| ==> r.value[k] == Own(p)[ids[k] - 1]
  {
    if p.profile == Worktrees || (p.profile == DeveloperCaches && !p.complete) { return None; }
    var seen: set<nat>, selections: seq<Item> := {}, [];
    for i := 0 to |ids|
      invariant |selections| == i && (forall x :: x in seen <==> x in ids[..i])
      invariant forall k :: 0 <= k < i ==> Names(p, ids[k]) && selections[k] == Own(p)[ids[k] - 1]
      invariant Distinct(ids[..i])
    {
      if ids[i] == 0 || ids[i] in seen {
        assert ids[i] == 0 ==> !Names(p, ids[i]);
        return None;
      }
      var item: Option<Item>;
      if p.profile == Projects {
        item := FindArtifact(p, ids[i], false);
      } else {
        var list := if p.profile == DeveloperCaches then p.caches else p.finder;
        item := if ids[i] - 1 < |list| then Some(list[ids[i] - 1]) else None;
      }
      if item.None? || !item.value.supported {
        assert !Names(p, ids[i]);
        return None;
      }
      seen := seen + {ids[i]};
      selections := selections + [item.value];
    }
    assert ids[..|ids|] == ids;
    return Some(selections);
  }

  /**
   An id shown for an item of the preview's own list is executed as that item. It is also reported as
   that item exactly when artifacts are the own list or there are too few of them to hide it; the artifact
   hiding it would have to be equal.
   */
  lemma ShownExecutedReported(p: Preview, k: nat)
    requires k < |Own(p)|
    ensures Reported(p, k + 1) == Some(Own(p)[k]) <==>
      p.profile == Projects || k >= |Flat(p.projects)| || Flat(p.projects)[k] == Own(p)[k]
  {
  }

  /** A preview that holds only its own profile's list reports every id as it executes it. */
  lemma OwnListOnly(p: Preview, id: nat)
    requires p.profile == Projects || Flat(p.projects) == []
    ensures id != 0 ==> (Reported(p, id) == if id <= |Own(p)| then Some(Own(p)[id - 1]) else None)
    // id 0 is the alias of item 1 that the request reader keeps out
    ensures Reported(p, 0) == if p.profile in {DeveloperCaches, FinderMetadata} then Reported(p, 1) else None
  {
  }

  /** A cache preview that also lists an artifact reports the artifact where it would execute the cache. */
  lemma HiddenCacheIsMisreported(artifact: Item, cache: Item)
    requires artifact != cache && cache.supported
    ensures var p := Preview(DeveloperCaches, true, [[artifact]], [cache], []);
      Names(p, 1) && Own(p)[0] == cache && Reported(p, 1) == Some(artifact)
  {
    assert Flat([[artifact]]) == [artifact] + Flat([[artifact]][1..]);
  }

  // ----- the request and the refusal -----

  datatype Reference = Reference(previewHandle: nat, itemId: nat)

  method ReadItemIds(handle: nat, refs: seq<Reference>) returns (r: Result<seq<nat>>)
    ensures r.Ok? <==>
      && 1 <= |refs| <= 32
      && (forall k :: 0 <= k < |refs| ==> refs[k].previewHandle == handle && refs[k].itemId != 0)
      && (forall i, j :: 0 <= i < j < |refs| ==> refs[i].itemId != refs[j].itemId)
    ensures r.Ok? ==> Distinct(r.value) && |r.value| == |refs|
    ensures r.Ok? ==> forall k :: 0 <= k < |refs| ==> refs[k] == Reference(handle, r.value[k]) && r.value[k] != 0
    ensures r.Err? ==> r.code == if 1 <= |refs| <= 32 then INVALID_CANDIDATE else INVALID_ARGUMENT
  {
    if |refs| == 0 || |refs| > MAX_PURGE_SELECTIONS { return Err(INVALID_ARGUMENT); }
    var ids: seq<nat>, seen: set<nat> := [], {};
    for i := 0 to |refs|
      invariant |ids| == i && (forall x :: x in seen <==> x in ids) && Distinct(ids)
      invariant forall k :: 0 <= k < i ==> refs[k] == Reference(handle, ids[k]) && ids[k] != 0
    {
      if refs[i].previewHandle != handle || refs[i].itemId == 0 { return Err(INVALID_CANDIDATE); }
      if refs[i].itemId in seen {
        var a :| 0 <= a < i && ids[a] == refs[i].itemId;
        assert refs[a].itemId == refs[i].itemId;
        return Err(INVALID_CANDIDATE);
      }
      seen := seen + {refs[i].itemId};
      ids := ids + [refs[i].itemId];
    }
    return Ok(ids);
  }

  datatype Line = Line(id: nat, item: Option<Item>)

  /** A refusal: each requested id once, in the order asked, with the item it is reported as. */
  method RefusalLines(p: Preview, ids: seq<nat>) returns (lines: seq<Line>, requested: nat, skipped: nat)
    requires Bounded(p)
    ensures |lines| == |ids| == requested == skipped
    ensures forall k :: 0 <= k < |ids| ==> lines[k] == Line(ids[k], Reported(p, ids[k]))
    ensures Distinct(ids) ==> forall i, j :: 0 <= i < j < |lines| ==> lines[i].id != lines[j].id
  {
    lines := [];
    for i := 0 to |ids|
      invariant |lines| == i && forall k :: 0 <= k < i ==> lines[k] == Line(ids[k], Reported(p, ids[k]))
    {
      var item := PreviewItem(p, ids[i]);
      lines := lines + [Line(ids[i], item)];
    }
    requested, skipped := |ids|, |ids|;
  }

  // ----- sums over unknown sizes -----

  /** `try_fold` with `checked_add` and `?`, from the left. */
  function CheckedSum(sizes: seq<Option<nat>>): Option<nat> {
    if sizes == [] then Some(0)
    else
      var front, last := CheckedSum(sizes[..|sizes| - 1]), sizes[|sizes| - 1];
      if front.None? || last.None? then None else CheckedAdd(front.value, last.value)
  }

  predicate AllKnown(sizes: seq<Option<nat>>) { forall k :: 0 <= k < |sizes| ==> sizes[k].Some? }

  function KnownTotal(sizes: seq<Option<nat>>): nat { Counting.Sum(sizes, Known()) }

  function Known(): Option<nat> -> nat { (x: Option<nat>) => if x.Some? then x.value else 0 }

  /** The checked sum is the exact total if and only if every size is known and the total fits u64. */
  lemma {:induction false} CheckedSumIsExact(sizes: seq<Option<nat>>)
    ensures CheckedSum(sizes)
      == if AllKnown(sizes) && KnownTotal(sizes) <= U64_MAX then Some(KnownTotal(sizes)) else None
  {
    if sizes != [] {
      var front := sizes[..|sizes| - 1];
      CheckedSumIsExact(front);
      assert sizes == front + [sizes[|sizes| - 1]];
      assert AllKnown(sizes) <==> AllKnown(front) && sizes[|sizes| - 1].Some?;
    }
  }

  /** Neither the order of the items nor the order of the lists matters, although each addition is checked. */
  lemma CheckedSumIgnoresOrder(a: seq<Option<nat>>, b: seq<Option<nat>>)
    requires multiset(a) == multiset(b)
    ensures CheckedSum(a) == CheckedSum(b)
  {
    CheckedSumIsExact(a);
    CheckedSumIsExact(b);
    Counting.SumOfPermutation(a, b, Known());
    assert forall x :: x in multiset(a) <==> x in multiset(b);
    assert forall x :: x in a <==> x in multiset(a);
    assert forall x :: x in b <==> x in multiset(b);
    if AllKnown(a) { forall k | 0 <= k < |b| ensures b[k].Some? { assert b[k] in b; assert b[k] in a; } }
    if AllKnown(b) { forall k | 0 <= k < |a| ensures a[k].Some? { assert a[k] in a; assert a[k] in b; } }
  }

  function SizeOf(i: Item, logical: bool): Option<nat> { if logical then i.logicalBytes else i.allocatedBytes }

  function Sizes(items: seq<Item>, logical: bool): (s: seq<Option<nat>>)
    ensures |s| == |items|
    ensures forall k :: 0 <= k < |s| ==> s[k] == if logical then items[k].logicalBytes else items[k].allocatedBytes
  {
    seq(|items|, k requires 0 <= k < |items| => SizeOf(items[k], logical))
  }

  function Privates(items: seq<Item>): (s: seq<Option<nat>>)
    ensures |s| == |items| && forall k :: 0 <= k < |s| ==> s[k] == items[k].privateBytes
  {
    seq(|items|, k requires 0 <= k < |items| => items[k].privateBytes)
  }

  function AllItems(p: Preview): seq<Item> { Flat(p.projects) + p.caches + p.finder }

  lemma {:induction false} NoneStays(a: seq<Option<nat>>, b: seq<Option<nat>>)
    requires CheckedSum(a).None?
    ensures CheckedSum(a + b).None?
  {
    if b == [] {
      assert a + b == a;
    } else {
      NoneStays(a, b[..|b| - 1]);
      assert (a + b)[..|a + b| - 1] == a + b[..|b| - 1];
    }
  }

  lemma OneMoreSize(items: seq<Item>, item: Item, logical: bool)
    ensures var front, last := CheckedSum(Sizes(items, logical)), SizeOf(item, logical);
      CheckedSum(Sizes(items + [item], logical)) ==
        if front.None? || last.None? then None else CheckedAdd(front.value, last.value)
  {
    var sizes := Sizes(items + [item], logical);
    assert sizes[..|sizes| - 1] == Sizes(items, logical);
  }

  /** The sizes up to item `i` of the list, and with it. */
  lemma SizeAt(before: seq<Item>, items: seq<Item>, i: nat, logical: bool)
    requires i < |items|
    ensures var front, last := CheckedSum(Sizes(before + items[..i], logical)), SizeOf(items[i], logical);
      CheckedSum(Sizes(before + items[..i + 1], logical)) ==
        if front.None? || last.None? then None else CheckedAdd(front.value, last.value)
  {
    OneMoreSize(before + items[..i], items[i], logical);
    assert before + items[..i] + [items[i]] == before + items[..i + 1];
  }

  lemma GivenUpAt(before: seq<Item>, items: seq<Item>, i: nat, logical: bool)
    requires i <= |items| && CheckedSum(Sizes(before + items[..i], logical)).None?
    ensures CheckedSum(Sizes(before + items, logical)).None?
  {
    GivenUp(before + items[..i], items[i..], logical);
    assert before + items[..i] + items[i..] == before + items;
  }

  /** One of the three loops: adds a list to a running total, or gives up for good. */
  method AddSizes(before: seq<Item>, items: seq<Item>, logical: bool, start: nat) returns (total: Option<nat>)
    requires CheckedSum(Sizes(before, logical)) == Some(start)
    ensures total == CheckedSum(Sizes(before + items, logical))
  {
    var sum := start;
    assert before + items[..0] == before;
    for i := 0 to |items|
      invariant CheckedSum(Sizes(before + items[..i], logical)) == Some(sum)
    {
      SizeAt(before, items, i, logical);
      var value := SizeOf(items[i], logical);
      if value.None? || CheckedAdd(sum, value.value).None? {
        GivenUpAt(before, items, i + 1, logical);
        return None;
      }
      sum := sum + value.value;
    }
    assert items[..|items|] == items;
    return Some(sum);
  }

  lemma GivenUp(before: seq<Item>, after: seq<Item>, logical: bool)
    requires CheckedSum(Sizes(before, logical)).None?
    ensures CheckedSum(Sizes(before + after, logical)).None?
  {
    NoneStays(Sizes(before, logical), Sizes(after, logical));
    assert Sizes(before, logical) + Sizes(after, logical) == Sizes(before + after, logical);
  }

  method SumKnown(p: Preview, logical: bool) returns (r: Option<nat>)
    ensures r == CheckedSum(Sizes(AllItems(p), logical))
    // artifacts, caches and Finder files alike, in the size asked for
    ensures var sizes := Sizes(Flat(p.projects) + p.caches + p.finder, logical);
      r == if AllKnown(sizes) && KnownTotal(sizes) <= U64_MAX then Some(KnownTotal(sizes)) else None
  {
    CheckedSumIsExact(Sizes(AllItems(p), logical));
    var artifacts := Flat(p.projects);
    assert Sizes([], logical) == [] && [] + artifacts == artifacts;
    r := AddSizes([], artifacts, logical, 0);
    if r.None? {
      GivenUp(artifacts, p.caches, logical);
      GivenUp(artifacts + p.caches, p.finder, logical);
      return;
    }
    r := AddSizes(artifacts, p.caches, logical, r.value);
    if r.None? {
      GivenUp(artifacts + p.caches, p.finder, logical);
      return;
    }
    r := AddSizes(artifacts + p.caches, p.finder, logical, r.value);
  }

  function SumPrivate(p: Preview): Option<nat> {
    if !p.complete then None else CheckedSum(Privates(AllItems(p)))
  }

  lemma SumPrivateIsExact(p: Preview)
    ensures var sizes := Privates(Flat(p.projects) + p.caches + p.finder);
      SumPrivate(p)
        == if p.complete && AllKnown(sizes) && KnownTotal(sizes) <= U64_MAX then Some(KnownTotal(sizes)) else None
  {
    CheckedSumIsExact(Privates(AllItems(p)));
  }

  // ----- the execution report -----

  datatype ItemState = Planned | Started | Succeeded | Skipped | Failed | Unknown

  datatype Journaled = Journaled(state: ItemState, logicalBytes: nat)

  datatype Verdict = VFailed | VPartial | VComplete

  datatype Report = Report(
    ids: seq<nat>, moved: nat, skipped: nat, failed: nat, unknown: nat, verdict: Verdict, complete: bool,
    effects: bool, bytesMoved: Option<nat>)

  /** The four counters; an item still planned or started counts as unknown. */
  datatype Tally = Moved | NotTried | NotMoved | Unclear

  function TallyOf(s: ItemState): Tally {
    match s
    case Succeeded => Moved
    case Skipped => NotTried
    case Failed => NotMoved
    case Planned | Started | Unknown => Unclear
  }

  function Count(items: seq<Journaled>, t: Tally): nat { Counting.Sum(items, Is(t)) }

  function Is(t: Tally): Journaled -> nat { (item: Journaled) => if TallyOf(item.state) == t then 1 else 0 }

  lemma {:induction false} CountSays(items: seq<Journaled>, t: Tally)
    ensures Count(items, t) > 0 <==> exists k :: 0 <= k < |items| && TallyOf(items[k].state) == t
    ensures Count(items, t) == |items| <==> forall k :: 0 <= k < |items| ==> TallyOf(items[k].state) == t
    ensures Count(items, t) <= |items|
  {
    if items != [] {
      var front := items[..|items| - 1];
      CountSays(front, t);
      assert forall k :: 0 <= k < |front| ==> front[k] == items[k];
    }
  }

  function MovedSizes(items: seq<Journaled>): seq<Option<nat>> {
    if items == [] then []
    else
      MovedSizes(items[..|items| - 1])
      + if items[|items| - 1].state == Succeeded then [Some(items[|items| - 1].logicalBytes)] else []
  }

  function Where(items: seq<Journaled>, t: Tally): set<int> { set k | 0 <= k < |items| && TallyOf(items[k].state) == t }

  lemma WhereGrows(items: seq<Journaled>, t: Tally)
    requires items != []
    ensures var n := |items| - 1;
      && n !in Where(items[..n], t)
      && Where(items, t) == if TallyOf(items[n].state) == t then Where(items[..n], t) + {n} else Where(items[..n], t)
  {
  }

  lemma {:induction false} CountIsWhere(items: seq<Journaled>, t: Tally)
    ensures Count(items, t) == |Where(items, t)|
  {
    if items != [] {
      CountIsWhere(items[..|items| - 1], t);
      WhereGrows(items, t);
    }
  }

  lemma CountsAre(items: seq<Journaled>)
    ensures Count(items, Moved) == |set k | 0 <= k < |items| && items[k].state == Succeeded|
    ensures Count(items, NotTried) == |set k | 0 <= k < |items| && items[k].state == Skipped|
    ensures Count(items, NotMoved) == |set k | 0 <= k < |items| && items[k].state == Failed|
    ensures Count(items, Unclear) == |set k | 0 <= k < |items| && items[k].state in {Planned, Started, Unknown}|
  {
    CountIsWhere(items, Moved);
    CountIsWhere(items, NotTried);
    CountIsWhere(items, NotMoved);
    CountIsWhere(items, Unclear);
    assert Where(items, Moved) == set k | 0 <= k < |items| && items[k].state == Succeeded;
    assert Where(items, NotTried) == set k | 0 <= k < |items| && items[k].state == Skipped;
    assert Where(items, NotMoved) == set k | 0 <= k < |items| && items[k].state == Failed;
    assert Where(items, Unclear) == set k | 0 <= k < |items| && items[k].state in {Planned, Started, Unknown};
  }

  /** The logical bytes of everything that was moved. */
  function BytesMoved(items: seq<Journaled>): nat {
    if items == [] then 0
    else if items[0].state == Succeeded then items[0].logicalBytes + BytesMoved(items[1..])
    else BytesMoved(items[1..])
  }

  lemma {:induction false} BytesMovedAppend(items: seq<Journaled>, last: Journaled)
    ensures BytesMoved(items + [last]) == BytesMoved(items) + if last.state == Succeeded then last.logicalBytes else 0
  {
    if items == [] {
      assert [last][1..] == [] && [] + [last] == [last];
    } else {
      BytesMovedAppend(items[1..], last);
      assert (items + [last])[1..] == items[1..] + [last];
    }
  }

  lemma KnownTotalAppend(sizes: seq<Option<nat>>, x: nat)
    ensures KnownTotal(sizes + [Some(x)]) == KnownTotal(sizes) + x
    ensures AllKnown(sizes) ==> AllKnown(sizes + [Some(x)])
  {
    assert (sizes + [Some(x)])[..|sizes|] == sizes;
  }

  lemma MovedSizesAppend(front: seq<Journaled>, last: Journaled)
    ensures MovedSizes(front + [last])
      == if last.state == Succeeded then MovedSizes(front) + [Some(last.logicalBytes)] else MovedSizes(front)
  {
    assert (front + [last])[..|front|] == front;
    assert MovedSizes(front) + [] == MovedSizes(front);
  }

  lemma {:induction false} MovedSizesTotal(items: seq<Journaled>)
    ensures AllKnown(MovedSizes(items)) && KnownTotal(MovedSizes(items)) == BytesMoved(items)
  {
    if items != [] {
      var front, last := items[..|items| - 1], items[|items| - 1];
      assert items == front + [last];
      MovedSizesTotal(front);
      BytesMovedAppend(front, last);
      MovedSizesAppend(front, last);
      KnownTotalAppend(MovedSizes(front), last.logicalBytes);
    }
  }

  lemma MovedSizesAdd(items: seq<Journaled>)
    ensures CheckedSum(MovedSizes(items)) == if BytesMoved(items) <= U64_MAX then Some(BytesMoved(items)) else None
  {
    MovedSizesTotal(items);
    CheckedSumIsExact(MovedSizes(items));
  }

  /** The loop over the journal's items: ids as asked for, and the four counters. */
  method TallyItems(ids: seq<nat>, items: seq<Journaled>)
    returns (moved: nat, skipped: nat, failed: nat, unknown: nat, shown: seq<nat>)
    ensures |shown| == |items| && forall k :: 0 <= k < |items| ==> shown[k] == if k < |ids| then ids[k] else k + 1
    ensures moved == Count(items, Moved) && skipped == Count(items, NotTried)
    ensures failed == Count(items, NotMoved) && unknown == Count(items, Unclear)
    ensures moved + skipped + failed + unknown == |items|
  {
    moved, skipped, failed, unknown, shown := 0, 0, 0, 0, [];
    for i := 0 to |items|
      invariant |shown| == i && forall k :: 0 <= k < i ==> shown[k] == if k < |ids| then ids[k] else k + 1
      invariant moved == Count(items[..i], Moved) && skipped == Count(items[..i], NotTried)
      invariant failed == Count(items[..i], NotMoved) && unknown == Count(items[..i], Unclear)
      invariant moved + skipped + failed + unknown == i
    {
      assert items[..i + 1][..i] == items[..i];
      shown := shown + [if i < |ids| then ids[i] else i + 1];
      match items[i].state {
        case Succeeded => moved := moved + 1;
        case Skipped => skipped := skipped + 1;
        case Failed => failed := failed + 1;
        case Unknown | Planned | Started => unknown := unknown + 1;
      }
    }
    assert items[..|items|] == items;
  }

  method ExecutionReport(ids: seq<nat>, items: seq<Journaled>, journalError: bool) returns (r: Report)
    ensures |r.ids| == |items| && forall k :: 0 <= k < |items| ==> r.ids[k] == if k < |ids| then ids[k] else k + 1
    // each item is counted once, as what the journal says of it; what is only planned or started is unclear
    ensures r.moved == |set k | 0 <= k < |items| && items[k].state == Succeeded|
    ensures r.skipped == |set k | 0 <= k < |items| && items[k].state == Skipped|
    ensures r.failed == |set k | 0 <= k < |items| && items[k].state == Failed|
    ensures r.unknown == |set k | 0 <= k < |items| && items[k].state in {Planned, Started, Unknown}|
    ensures r.moved + r.skipped + r.failed + r.unknown == |items|
    ensures r.effects <==> exists k :: 0 <= k < |items| && items[k].state == Succeeded
    // everything was moved and recorded, or something was not, or something is not known
    ensures r.verdict == VComplete <==>
      !journalError && forall k :: 0 <= k < |items| ==> items[k].state == Succeeded
    ensures r.verdict == VFailed <==>
      journalError || exists k :: 0 <= k < |items| && items[k].state in {Planned, Started, Unknown}
    // the flag says less than the verdict: it also holds of a report whose only shortfall is skipped items
    ensures r.complete <==>
      !journalError && forall k :: 0 <= k < |items| ==> items[k].state in {Succeeded, Skipped}
    ensures r.complete && r.verdict != VComplete <==>
      && !journalError && (forall k :: 0 <= k < |items| ==> items[k].state in {Succeeded, Skipped})
      && exists k :: 0 <= k < |items| && items[k].state == Skipped
    ensures r.bytesMoved == if BytesMoved(items) <= U64_MAX then Some(BytesMoved(items)) else None
  {
    var moved, skipped, failed, unknown, shown := TallyItems(ids, items);
    CountSays(items, Moved);
    CountSays(items, Unclear);
    CountSays(items, NotMoved);
    CountSays(items, NotTried);
    CountsAre(items);
    MovedSizesAdd(items);
    var verdict :=
      if journalError || unknown > 0 then VFailed else if failed > 0 || skipped > 0 then VPartial else VComplete;
    r := Report(shown, moved, skipped, failed, unknown, verdict, !journalError && unknown == 0 && failed == 0,
                moved > 0, CheckedSum(MovedSizes(items)));
  }
}
