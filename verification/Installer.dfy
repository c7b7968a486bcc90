/** Installer candidates: pages that are sorted again on every call, candidate ids, and selections. */
module Installer {
  import opened Status
  import opened Order
  import Paging

  const MAX_INSTALLER_SELECTIONS: nat := 32

  /** The path is its list of components. */
  datatype Candidate = Candidate(path: seq<seq<nat>>, logicalBytes: Option<nat>, allocatedBytes: Option<nat>)

  datatype Sort = ByName | ByLogicalSize | ByAllocatedSize

  function SizeOf(c: Candidate, sort: Sort): Option<nat> {
    if sort.ByAllocatedSize? then c.allocatedBytes else c.logicalBytes
  }

  /** `b.cmp(&a)` on optional sizes, where an unknown size is least: larger first, unknown last. */
  predicate NotSmaller(a: Option<nat>, b: Option<nat>) { b.None? || (a.Some? && a.value >= b.value) }

  predicate CandidateLe(sort: Sort, a: Candidate, b: Candidate) {
    if sort.ByName? || SizeOf(a, sort) == SizeOf(b, sort) then NamesLe(a.path, b.path)
    else NotSmaller(SizeOf(a, sort), SizeOf(b, sort))
  }

  function At(cs: seq<Candidate>, i: nat): Candidate { if i < |cs| then cs[i] else Candidate([], None, None) }

  predicate Before(cs: seq<Candidate>, sort: Sort, i: nat, j: nat) { CandidateLe(sort, At(cs, i), At(cs, j)) }

  function IndexLe(cs: seq<Candidate>, sort: Sort): Le<nat> { (i: nat, j: nat) => Before(cs, sort, i, j) }

  function Indices(n: nat): (s: seq<nat>)
    ensures |s| == n && forall k :: 0 <= k < n ==> s[k] == k
  {
    seq(n, k => k)
  }

  /** Different candidates have different paths. */
  ghost predicate DistinctPaths(cs: seq<Candidate>) {
    forall i, j :: 0 <= i < j < |cs| ==> cs[i].path != cs[j].path
  }

  /** Anything an unstable sort may return. */
  ghost predicate IsOrder(cs: seq<Candidate>, sort: Sort, order: seq<nat>) {
    Sorted(order, IndexLe(cs, sort)) && multiset(order) == multiset(Indices(|cs|))
  }

  function TheOrder(cs: seq<Candidate>, sort: Sort): seq<nat> { StableSort(Indices(|cs|), IndexLe(cs, sort)) }

  lemma IndexPreorder(cs: seq<Candidate>, sort: Sort)
    ensures Preorder(IndexLe(cs, sort))
  {
    NamesOrder();
    var le := IndexLe(cs, sort);
    forall i, j ensures le(i, j) || le(j, i) { CandidateTotal(sort, At(cs, i), At(cs, j)); }
    forall i, j, k | le(i, j) && le(j, k) ensures le(i, k) {
      CandidateTransitive(sort, At(cs, i), At(cs, j), At(cs, k));
    }
  }

  lemma CandidateTotal(sort: Sort, a: Candidate, b: Candidate)
    requires Preorder(NamesLe)
    ensures CandidateLe(sort, a, b) || CandidateLe(sort, b, a)
  {
  }

  lemma CandidateTransitive(sort: Sort, a: Candidate, b: Candidate, c: Candidate)
    requires Preorder(NamesLe) && CandidateLe(sort, a, b) && CandidateLe(sort, b, c)
    ensures CandidateLe(sort, a, c)
  {
  }

  lemma IndicesHaveNoTies(cs: seq<Candidate>, sort: Sort)
    requires DistinctPaths(cs)
    ensures NoTies(Indices(|cs|), IndexLe(cs, sort))
  {
    NamesOrder();
    forall i, j | i in Indices(|cs|) && j in Indices(|cs|) && Before(cs, sort, i, j) && Before(cs, sort, j, i)
      ensures i == j
    {
      assert cs[i].path == cs[j].path;
      assert i < j || j < i || i == j;
    }
  }

  /** Every sort of the same candidates gives the same order. */
  lemma AnySortAgrees(cs: seq<Candidate>, sort: Sort, order: seq<nat>)
    requires DistinctPaths(cs)
    ensures IsOrder(cs, sort, order) <==> order == TheOrder(cs, sort)
  {
    var le := IndexLe(cs, sort);
    IndexPreorder(cs, sort);
    StableSortSorts(Indices(|cs|), le);
    IndicesHaveNoTies(cs, sort);
    if IsOrder(cs, sort, order) {
      forall x | x in order ensures x in Indices(|cs|) { assert x in multiset(order); }
      SortedIsUnique(order, TheOrder(cs, sort), le);
    }
  }

  /** Of two sizes the larger comes first, and a known one before an unknown one. */
  ghost predicate SizesInOrder(a: Option<nat>, b: Option<nat>) {
    (a.None? ==> b.None?) && (a.Some? && b.Some? ==> a.value >= b.value)
  }

  /** A path is a leading part of the other, or has the smaller component where they first differ. */
  ghost predicate NamesInOrder(a: seq<seq<nat>>, b: seq<seq<nat>>) {
    a <= b || exists i :: 0 <= i < |a| && i < |b| && a[..i] == b[..i] && ComponentBefore(a[i], b[i])
  }

  /** What the order means: names ascend, the size asked for descends with unknown sizes last, ties go by name. */
  lemma OrderMeans(cs: seq<Candidate>, sort: Sort, p: nat, q: nat)
    requires DistinctPaths(cs) && p < q < |TheOrder(cs, sort)|
    ensures var a, b := At(cs, TheOrder(cs, sort)[p]), At(cs, TheOrder(cs, sort)[q]);
      && (sort == ByName ==> NamesInOrder(a.path, b.path))
      && (sort == ByLogicalSize ==>
            && SizesInOrder(a.logicalBytes, b.logicalBytes)
            && (a.logicalBytes == b.logicalBytes ==> NamesInOrder(a.path, b.path)))
      && (sort == ByAllocatedSize ==>
            && SizesInOrder(a.allocatedBytes, b.allocatedBytes)
            && (a.allocatedBytes == b.allocatedBytes ==> NamesInOrder(a.path, b.path)))
  {
    AnySortAgrees(cs, sort, TheOrder(cs, sort));
    assert IndexLe(cs, sort)(TheOrder(cs, sort)[p], TheOrder(cs, sort)[q]);
    NamesLeIs(At(cs, TheOrder(cs, sort)[p]).path, At(cs, TheOrder(cs, sort)[q]).path);
  }

  /**
   Pages stay consistent although each call sorts anew: following `next_offset` with any limits, against
   whatever sorts the calls made, lists every candidate once, in the one order there is.
   */
  lemma PagesCoverCandidates(cs: seq<Candidate>, sort: Sort, orders: seq<seq<nat>>, limits: seq<nat>)
    requires DistinctPaths(cs) && |cs| <= USIZE_MAX && |orders| == |limits| && |limits| > |cs|
    requires forall k :: 0 <= k < |orders| ==> IsOrder(cs, sort, orders[k])
    requires forall k :: 0 <= k < |limits| ==> limits[k] >= 1
    ensures |TheOrder(cs, sort)| == |cs| && forall k :: 0 <= k < |orders| ==> orders[k] == TheOrder(cs, sort)
    ensures Paging.Walk(orders, limits, 0) == (TheOrder(cs, sort), None)
    ensures multiset(TheOrder(cs, sort)) == multiset(Indices(|cs|))
  {
    IndexPreorder(cs, sort);
    StableSortSorts(Indices(|cs|), IndexLe(cs, sort));
    forall k | 0 <= k < |orders| ensures orders[k] == TheOrder(cs, sort) { AnySortAgrees(cs, sort, orders[k]); }
    Paging.WalkEnds(TheOrder(cs, sort), orders, limits);
  }

  // ----- references -----

  datatype Reference = Reference(taskHandle: nat, candidateId: nat)

  function Show(handle: nat, index: nat): Reference { Reference(handle, index + 1) }

  function ReadCandidate(handle: nat, r: Reference): Result<nat> {
    if r.taskHandle != handle || r.candidateId == 0 then Err(INVALID_CANDIDATE) else Ok(r.candidateId - 1)
  }

  lemma OrderLength(cs: seq<Candidate>, sort: Sort)
    ensures |TheOrder(cs, sort)| == |cs|
  {
    IndexPreorder(cs, sort);
    StableSortSorts(Indices(|cs|), IndexLe(cs, sort));
  }

  /** One page, as the call builds it. */
  method CandidatesPage(cs: seq<Candidate>, handle: nat, sort: Sort, offset: nat, limit: nat)
    returns (r: Result<Paging.Page<Reference>>)
    requires |cs| <= Paging.ISIZE_MAX && limit <= Paging.U32_MAX
    ensures r.Ok? <==> offset <= |cs|
    ensures r.Err? ==> r.code == INVALID_ARGUMENT
    ensures |TheOrder(cs, sort)| == |cs|
    ensures r.Ok? ==>
      var p := Paging.PageOf(TheOrder(cs, sort), offset, limit).value;
      && r.value.offset == p.offset && r.value.total == p.total && r.value.next == p.next
      && |r.value.items| == |p.items|
      && forall k :: 0 <= k < |p.items| ==> r.value.items[k] == Reference(handle, p.items[k] + 1)
  {
    OrderLength(cs, sort);
    var total := |cs|;
    if offset > total { return Err(INVALID_ARGUMENT); }
    var order := TheOrder(cs, sort);
    Paging.PlainSumFits(order, offset, limit);
    var end := Paging.Min(offset + limit, total);
    var shown: seq<Reference> := [];
    for k := offset to end
      invariant |shown| == k - offset
      invariant forall i :: 0 <= i < |shown| ==> shown[i] == Show(handle, order[offset + i])
    {
      shown := shown + [Show(handle, order[k])];
    }
    return Ok(Paging.Page(offset, total, if end < total then Some(end) else None, shown));
  }

  /** A reference shown on any page, under any sort, reads back as its own candidate and no other. */
  lemma ShownReadsBack(handle: nat, index: nat, r: Reference)
    ensures ReadCandidate(handle, r) == Ok(index) <==> r == Show(handle, index)
    ensures ReadCandidate(handle, r) == Err(INVALID_CANDIDATE) <==> r.taskHandle != handle || r.candidateId == 0
    ensures Show(handle, index) == Reference(handle, index + 1)
  {
  }

  /** The selection request: accepted exactly when it names known candidates of this handle, each once. */
  method SelectionIndices(refs: seq<Reference>, handle: nat, total: nat) returns (r: Result<seq<nat>>)
    ensures r.Ok? <==>
      && 1 <= |refs| <= 32
      && (forall k :: 0 <= k < |refs| ==> refs[k].taskHandle == handle && 1 <= refs[k].candidateId <= total)
      && (forall a, b :: 0 <= a < b < |refs| ==> refs[a].candidateId != refs[b].candidateId)
    ensures r.Ok? ==> |r.value| == |refs| && forall k :: 0 <= k < |refs| ==> refs[k].candidateId == r.value[k] + 1
    ensures r.Err? ==>
      r.code == if 1 <= |refs| <= 32 then INVALID_CANDIDATE else INVALID_ARGUMENT
  {
    if |refs| == 0 || |refs| > MAX_INSTALLER_SELECTIONS { return Err(INVALID_ARGUMENT); }
    var unique: set<nat>, indices: seq<nat> := {}, [];
    for i := 0 to |refs|
      invariant |indices| == i && forall k :: 0 <= k < i ==> refs[k] == Show(handle, indices[k])
      invariant forall x :: x in unique <==> x in indices
      invariant forall a, b :: 0 <= a < b < i ==> indices[a] != indices[b]
    {
      var index := ReadCandidate(handle, refs[i]);
      if index.Err? { return Err(INVALID_CANDIDATE); }
      if index.value in unique {
        var a :| 0 <= a < i && indices[a] == index.value;
        assert refs[a].candidateId == refs[i].candidateId;
        return Err(INVALID_CANDIDATE);
      }
      unique := unique + {index.value};
      indices := indices + [index.value];
    }
    for i := 0 to |indices|
      invariant forall k :: 0 <= k < i ==> indices[k] < total
    {
      if indices[i] >= total {
        assert refs[i].candidateId > total;
        return Err(INVALID_CANDIDATE);
      }
    }
    return Ok(indices);
  }
}
