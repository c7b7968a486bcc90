/**
 Sorting by a comparator: lexicographic orders, a stable reference sort, why a sorted permutation under
 a strict order is unique (so an unstable sort has only one answer), and the insertion step by which a
 bounded buffer keeps the first entries of that sort.
 */
module Order {

  /** `le(x, y)` says that `x` may stand before `y`. */
  type Le<!T> = (T, T) -> bool

  ghost predicate Total<T(!new)>(le: Le<T>) { forall x, y :: le(x, y) || le(y, x) }

  ghost predicate Transitive<T(!new)>(le: Le<T>) { forall x, y, z :: le(x, y) && le(y, z) ==> le(x, z) }

  ghost predicate Preorder<T(!new)>(le: Le<T>) { Total(le) && Transitive(le) }

  ghost predicate Antisymmetric<T(!new)>(le: Le<T>) { forall x, y :: le(x, y) && le(y, x) ==> x == y }

  ghost predicate Sorted<T(!new)>(s: seq<T>, le: Le<T>) {
    forall i, j :: 0 <= i < j < |s| ==> le(s[i], s[j])
  }

  /** Different elements of `s` never tie. */
  ghost predicate NoTies<T(!new)>(s: seq<T>, le: Le<T>) {
    forall x, y :: x in s && y in s && le(x, y) && le(y, x) ==> x == y
  }

  // ----- lexicographic order -----

  predicate Lex<T(==)>(a: seq<T>, b: seq<T>, le: Le<T>) {
    a == [] || (b != [] && if a[0] == b[0] then Lex(a[1..], b[1..], le) else le(a[0], b[0]))
  }

  lemma {:induction false} LexTotal<T(!new)>(a: seq<T>, b: seq<T>, le: Le<T>)
    requires Total(le)
    ensures Lex(a, b, le) || Lex(b, a, le)
  {
    if a != [] && b != [] {
      LexTotal(a[1..], b[1..], le);
      assert le(a[0], b[0]) || le(b[0], a[0]);
    }
  }

  lemma {:induction false} LexAntisymmetric<T(!new)>(a: seq<T>, b: seq<T>, le: Le<T>)
    requires Antisymmetric(le) && Lex(a, b, le) && Lex(b, a, le)
    ensures a == b
  {
    if a != [] && b != [] {
      assert le(a[0], b[0]) && le(b[0], a[0]) ==> a[0] == b[0];
      LexAntisymmetric(a[1..], b[1..], le);
      assert a == [a[0]] + a[1..] && b == [b[0]] + b[1..];
    }
  }

  lemma {:induction false} LexTransitive<T(!new)>(a: seq<T>, b: seq<T>, c: seq<T>, le: Le<T>)
    requires Transitive(le) && Antisymmetric(le) && Lex(a, b, le) && Lex(b, c, le)
    ensures Lex(a, c, le)
  {
    if a != [] {
      if a[0] == b[0] && b[0] == c[0] {
        LexTransitive(a[1..], b[1..], c[1..], le);
      } else if a[0] != b[0] && b[0] != c[0] {
        NeverBothWays(a[0], b[0], le);
        assert le(a[0], c[0]);
      }
    }
  }

  lemma NeverBothWays<T(!new)>(x: T, y: T, le: Le<T>)
    requires Antisymmetric(le)
    ensures x != y ==> !(le(x, y) && le(y, x))
  {
  }

  /** The lists part at `i`, which both of them have, and not before. */
  ghost predicate PartAt<T(!new)>(a: seq<T>, b: seq<T>, i: int) {
    0 <= i < |a| && i < |b| && a[..i] == b[..i] && a[i] != b[i]
  }

  lemma PartLater<T(!new)>(a: seq<T>, b: seq<T>, i: int)
    requires i >= 0 && a != [] && b != [] && a[0] == b[0]
    ensures PartAt(a[1..], b[1..], i) <==> PartAt(a, b, i + 1)
  {
    if i < |a[1..]| && i < |b[1..]| {
      assert a[..i + 1] == [a[0]] + a[1..][..i] && b[..i + 1] == [b[0]] + b[1..][..i];
      assert PartAt(a, b, i + 1) ==> a[1..][..i] == a[..i + 1][1..] && b[1..][..i] == b[..i + 1][1..];
    }
  }

  /** Lexicographic order by its definition: a prefix, or smaller where the lists first part. */
  lemma {:induction false} LexIs<T(!new)>(a: seq<T>, b: seq<T>, le: Le<T>)
    ensures Lex(a, b, le) <==> a <= b || exists i :: PartAt(a, b, i) && le(a[i], b[i])
  {
    if a != [] && b != [] {
      if a[0] == b[0] {
        LexIs(a[1..], b[1..], le);
        assert a == [a[0]] + a[1..] && b == [b[0]] + b[1..];
        if i :| PartAt(a[1..], b[1..], i) && le(a[1..][i], b[1..][i]) {
          PartLater(a, b, i);
          assert PartAt(a, b, i + 1) && le(a[i + 1], b[i + 1]);
        }
        if i :| PartAt(a, b, i) && le(a[i], b[i]) {
          assert i != 0;
          PartLater(a, b, i - 1);
          assert PartAt(a[1..], b[1..], i - 1) && le(a[1..][i - 1], b[1..][i - 1]);
        }
      } else {
        assert PartAt(a, b, 0);
      }
    }
  }

  predicate AtMost(x: nat, y: nat) { x <= y }

  /** Native path units compared as numbers. */
  predicate BytesLe(a: seq<nat>, b: seq<nat>) { Lex(a, b, AtMost) }

  /** Byte order: a prefix of the other, or the smaller unit at the first difference. */
  lemma BytesLeIs(a: seq<nat>, b: seq<nat>)
    ensures BytesLe(a, b) <==>
      a <= b || exists i :: 0 <= i < |a| && i < |b| && a[..i] == b[..i] && a[i] < b[i]
  {
    LexIs(a, b, AtMost);
    if i :| PartAt(a, b, i) && AtMost(a[i], b[i]) { assert a[..i] == b[..i] && a[i] < b[i]; }
    if i :| 0 <= i < |a| && i < |b| && a[..i] == b[..i] && a[i] < b[i] {
      assert PartAt(a, b, i) && AtMost(a[i], b[i]);
    }
  }

  lemma BytesOrder()
    ensures Preorder(BytesLe) && Antisymmetric(BytesLe)
  {
    forall a, b ensures BytesLe(a, b) || BytesLe(b, a) { LexTotal(a, b, AtMost); }
    forall a, b | BytesLe(a, b) && BytesLe(b, a) ensures a == b { LexAntisymmetric(a, b, AtMost); }
    forall a, b, c | BytesLe(a, b) && BytesLe(b, c) ensures BytesLe(a, c) { LexTransitive(a, b, c, AtMost); }
  }

  /** Paths compared component by component, as `Path::cmp` does. */
  predicate NamesLe(a: seq<seq<nat>>, b: seq<seq<nat>>) { Lex(a, b, BytesLe) }

  /** The same of components: a leading part of the other path, or the smaller component where they first differ. */
  lemma NamesLeIs(a: seq<seq<nat>>, b: seq<seq<nat>>)
    ensures NamesLe(a, b) <==>
      a <= b || exists i :: 0 <= i < |a| && i < |b| && a[..i] == b[..i] && ComponentBefore(a[i], b[i])
  {
    LexIs(a, b, BytesLe);
    if i :| PartAt(a, b, i) && BytesLe(a[i], b[i]) {
      BytesLeIs(a[i], b[i]);
      assert ComponentBefore(a[i], b[i]);
    }
    if i :| 0 <= i < |a| && i < |b| && a[..i] == b[..i] && ComponentBefore(a[i], b[i]) {
      BytesLeIs(a[i], b[i]);
      assert PartAt(a, b, i) && BytesLe(a[i], b[i]);
    }
  }

  /** A component is another's proper prefix, or has the smaller unit at their first difference. */
  ghost predicate ComponentBefore(x: seq<nat>, y: seq<nat>) {
    (x <= y && x != y) || exists k :: 0 <= k < |x| && k < |y| && x[..k] == y[..k] && x[k] < y[k]
  }

  lemma NamesOrder()
    ensures Preorder(NamesLe) && Antisymmetric(NamesLe)
  {
    BytesOrder();
    forall a, b ensures NamesLe(a, b) || NamesLe(b, a) { LexTotal(a, b, BytesLe); }
    forall a, b | NamesLe(a, b) && NamesLe(b, a) ensures a == b { LexAntisymmetric(a, b, BytesLe); }
    forall a, b, c | NamesLe(a, b) && NamesLe(b, c) ensures NamesLe(a, c) { LexTransitive(a, b, c, BytesLe); }
  }

  // ----- the reference sort -----

  /** `partition_point`: how many leading elements may stand before `x`. */
  function Point<T>(s: seq<T>, x: T, le: Le<T>): (p: nat)
    ensures p <= |s|
    ensures forall i :: 0 <= i < p ==> le(s[i], x)
    ensures p < |s| ==> !le(s[p], x)
  {
    if s == [] || !le(s[0], x) then 0 else 1 + Point(s[1..], x, le)
  }

  ghost predicate IsPartitionPoint<T(!new)>(s: seq<T>, x: T, le: Le<T>, p: nat) {
    p <= |s| && (forall i :: 0 <= i < p ==> le(s[i], x)) && (forall i :: p <= i < |s| ==> !le(s[i], x))
  }

  /** A sorted list has one partition point, however it is searched for. */
  lemma PointIsThePartition<T(!new)>(s: seq<T>, x: T, le: Le<T>, p: nat)
    requires Preorder(le) && Sorted(s, le)
    ensures IsPartitionPoint(s, x, le, p) <==> p == Point(s, x, le)
  {
    var q := Point(s, x, le);
    forall i | q <= i < |s| ensures !le(s[i], x) {
      if i > q { assert le(s[q], s[i]); }
    }
    if p < q {
      assert le(s[p], x);
    } else if q < p <= |s| {
      assert !le(s[q], x);
    }
  }

  /** The binary search of `partition_point`. */
  method PartitionPoint<T>(s: seq<T>, x: T, le: Le<T>) returns (p: nat)
    requires forall i, j :: 0 <= i < j < |s| && le(s[j], x) ==> le(s[i], x)
    ensures p <= |s| && (forall i :: 0 <= i < p ==> le(s[i], x)) && (forall i :: p <= i < |s| ==> !le(s[i], x))
  {
    var low, high := 0, |s|;
    while low < high
      invariant 0 <= low <= high <= |s|
      invariant forall i :: 0 <= i < low ==> le(s[i], x)
      invariant forall i :: high <= i < |s| ==> !le(s[i], x)
    {
      var middle := (low + high) / 2;
      if le(s[middle], x) { low := middle + 1; } else { high := middle; }
    }
    return low;
  }

  function InsertAt<T>(s: seq<T>, p: nat, x: T): seq<T>
    requires p <= |s|
  {
    s[..p] + [x] + s[p..]
  }

  function Insert<T>(s: seq<T>, x: T, le: Le<T>): seq<T> { InsertAt(s, Point(s, x, le), x) }

  function StableSort<T>(s: seq<T>, le: Le<T>): seq<T> {
    if s == [] then [] else Insert(StableSort(s[..|s| - 1], le), s[|s| - 1], le)
  }

  lemma StableSortOneMore<T>(s: seq<T>, x: T, le: Le<T>)
    ensures StableSort(s + [x], le) == Insert(StableSort(s, le), x, le)
  {
    assert (s + [x])[..|s|] == s;
  }

  lemma InsertSorts<T(!new)>(s: seq<T>, x: T, le: Le<T>)
    requires Preorder(le) && Sorted(s, le)
    ensures Sorted(Insert(s, x, le), le)
  {
    var p := Point(s, x, le);
    forall i | p <= i < |s| ensures le(x, s[i]) {
      assert le(x, s[p]);
      assert i > p ==> le(s[p], s[i]);
    }
  }

  lemma InsertKeepsAll<T>(s: seq<T>, p: nat, x: T)
    requires p <= |s|
    ensures multiset(InsertAt(s, p, x)) == multiset(s) + multiset{x}
  {
    assert s == s[..p] + s[p..];
  }

  lemma {:induction false} StableSortSorts<T(!new)>(s: seq<T>, le: Le<T>)
    requires Preorder(le)
    ensures Sorted(StableSort(s, le), le)
    ensures multiset(StableSort(s, le)) == multiset(s) && |StableSort(s, le)| == |s|
  {
    if s != [] {
      var front, last := s[..|s| - 1], s[|s| - 1];
      StableSortSorts(front, le);
      InsertSorts(StableSort(front, le), last, le);
      InsertKeepsAll(StableSort(front, le), Point(StableSort(front, le), last, le), last);
      assert s == front + [last];
    }
  }

  /** The elements that tie with `x`, in their order. */
  function Ties<T>(s: seq<T>, x: T, le: Le<T>): seq<T> {
    if s == [] then []
    else Ties(s[..|s| - 1], x, le) + if le(s[|s| - 1], x) && le(x, s[|s| - 1]) then [s[|s| - 1]] else []
  }

  lemma {:induction false} TiesConcat<T>(a: seq<T>, b: seq<T>, x: T, le: Le<T>)
    ensures Ties(a + b, x, le) == Ties(a, x, le) + Ties(b, x, le)
  {
    if b == [] {
      assert a + b == a;
    } else {
      TiesConcat(a, b[..|b| - 1], x, le);
      assert (a + b)[..|a + b| - 1] == a + b[..|b| - 1];
    }
  }

  lemma {:induction false} NoTiesAbove<T(!new)>(s: seq<T>, x: T, le: Le<T>)
    requires forall i :: 0 <= i < |s| ==> !le(s[i], x)
    ensures Ties(s, x, le) == []
  {
    if s != [] { NoTiesAbove(s[..|s| - 1], x, le); }
  }

  predicate Tie<T>(x: T, y: T, le: Le<T>) { le(x, y) && le(y, x) }

  lemma NotBelow<T(!new)>(z: T, x: T, y: T, le: Le<T>)
    requires Transitive(le) && le(x, y) && !le(z, y)
    ensures !le(z, x)
  {
  }

  lemma TiesAround<T>(a: seq<T>, y: T, b: seq<T>, x: T, le: Le<T>)
    ensures Ties(a + [y] + b, x, le) == Ties(a, x, le) + (if Tie(y, x, le) then [y] else []) + Ties(b, x, le)
  {
    TiesConcat(a + [y], b, x, le);
    assert (a + [y])[..|a|] == a;
  }

  lemma NoTiesAfterPoint<T(!new)>(t: seq<T>, y: T, x: T, le: Le<T>)
    requires Preorder(le) && Sorted(t, le) && Tie(y, x, le)
    ensures Ties(t[Point(t, y, le)..], x, le) == []
  {
    var p := Point(t, y, le);
    forall i | 0 <= i < |t[p..]| ensures !le(t[p..][i], x) {
      if i > 0 { assert le(t[p], t[p + i]); }
      NotBelow(t[p + i], x, y, le);
    }
    NoTiesAbove(t[p..], x, le);
  }

  lemma TiesInserted<T>(a: seq<T>, y: T, b: seq<T>, x: T, le: Le<T>)
    requires Tie(y, x, le) ==> Ties(b, x, le) == []
    ensures Ties(a + [y] + b, x, le) == Ties(a + b, x, le) + if Tie(y, x, le) then [y] else []
  {
    TiesConcat(a, b, x, le);
    TiesAround(a, y, b, x, le);
    var before, after := Ties(a, x, le), Ties(b, x, le);
    if Tie(y, x, le) {
      assert before + [y] + after == before + after + [y];
    } else {
      assert before + [] + after == before + after + [];
    }
  }

  /** A new element goes behind everything it ties with. */
  lemma TiesOfInsert<T(!new)>(t: seq<T>, y: T, x: T, le: Le<T>)
    requires Preorder(le) && Sorted(t, le)
    ensures Ties(Insert(t, y, le), x, le) == Ties(t, x, le) + if Tie(y, x, le) then [y] else []
  {
    var p := Point(t, y, le);
    if Tie(y, x, le) { NoTiesAfterPoint(t, y, x, le); }
    TiesInserted(t[..p], y, t[p..], x, le);
    assert t == t[..p] + t[p..];
  }

  /** The reference sort is stable: elements that tie keep the order they had. */
  lemma {:induction false} StableSortIsStable<T(!new)>(s: seq<T>, x: T, le: Le<T>)
    requires Preorder(le)
    ensures Ties(StableSort(s, le), x, le) == Ties(s, x, le)
  {
    if s != [] {
      var front := s[..|s| - 1];
      StableSortIsStable(front, x, le);
      StableSortSorts(front, le);
      TiesOfInsert(StableSort(front, le), s[|s| - 1], x, le);
    }
  }

  // ----- uniqueness -----

  lemma TailKeeps<T(!new)>(s: seq<T>, le: Le<T>)
    requires s != [] && Sorted(s, le)
    ensures Sorted(s[1..], le) && multiset(s[1..]) == multiset(s) - multiset{s[0]}
    ensures NoTies(s, le) ==> NoTies(s[1..], le)
  {
    assert s == [s[0]] + s[1..];
  }

  lemma SameFirst<T(!new)>(a: seq<T>, b: seq<T>, le: Le<T>)
    requires a != [] && b != [] && Sorted(a, le) && Sorted(b, le) && NoTies(a, le) && Total(le)
    requires multiset(a) == multiset(b)
    ensures a[0] == b[0]
  {
    assert a[0] in multiset(b) && b[0] in multiset(a);
    FirstIsLeast(a, b[0], le);
    FirstIsLeast(b, a[0], le);
  }

  lemma SameEnds<T>(a: seq<T>, b: seq<T>)
    requires a != [] && b != [] && a[0] == b[0] && a[1..] == b[1..]
    ensures a == b
  {
    assert a == [a[0]] + a[1..] && b == [b[0]] + b[1..];
  }

  lemma SameLength<T>(a: seq<T>, b: seq<T>)
    requires multiset(a) == multiset(b)
    ensures |a| == |b|
  {
    assert |a| == |multiset(a)| && |b| == |multiset(b)|;
  }

  /** Two sorted permutations of each other are equal when different elements never tie. */
  lemma {:induction false} SortedIsUnique<T(!new)>(a: seq<T>, b: seq<T>, le: Le<T>)
    requires Sorted(a, le) && Sorted(b, le) && NoTies(a, le) && Total(le)
    requires multiset(a) == multiset(b)
    ensures a == b
  {
    SameLength(a, b);
    if a != [] {
      SameFirst(a, b, le);
      TailKeeps(a, le);
      TailKeeps(b, le);
      SortedIsUnique(a[1..], b[1..], le);
      SameEnds(a, b);
    }
  }

  lemma FirstIsLeast<T(!new)>(s: seq<T>, x: T, le: Le<T>)
    requires Sorted(s, le) && Total(le) && x in s
    ensures le(s[0], x)
  {
    var i :| 0 <= i < |s| && s[i] == x;
    if i == 0 { assert le(x, x); }
  }

  // ----- a bounded buffer of the first entries -----

  function Take<T>(s: seq<T>, k: nat): seq<T> { if |s| <= k then s else s[..k] }

  /** One step of the buffer: insert at the partition point unless it is past the end, dropping the last. */
  function Keep<T>(kept: seq<T>, x: T, k: nat, le: Le<T>): seq<T>
    requires |kept| <= k
  {
    var p := Point(kept, x, le);
    if p >= k then kept else InsertAt(if |kept| == k then kept[..k - 1] else kept, p, x)
  }

  lemma CutAfterInsert<T>(s: seq<T>, p: nat, x: T, k: nat)
    requires p < k <= |s|
    ensures InsertAt(s, p, x)[..k] == InsertAt(s[..k - 1], p, x)
  {
    var whole, cut := InsertAt(s, p, x), InsertAt(s[..k - 1], p, x);
    assert |whole| == |s| + 1 && |cut| == k;
    forall i | 0 <= i < k ensures whole[i] == cut[i] {}
  }

  lemma CutBeforeInsert<T>(s: seq<T>, p: nat, x: T, k: nat)
    requires k <= p <= |s|
    ensures InsertAt(s, p, x)[..k] == s[..k]
  {
  }

  /** Cutting commutes with inserting, so the buffer never needs what it dropped. */
  lemma KeepIsTakeOfInsert<T(!new)>(s: seq<T>, x: T, k: nat, le: Le<T>)
    ensures Keep(Take(s, k), x, k, le) == Take(Insert(s, x, le), k)
  {
    PointOfTake(s, x, k, le);
    var p := Point(s, x, le);
    if |s| >= k {
      assert Take(s, k) == s[..k];
      if p < k {
        CutAfterInsert(s, p, x, k);
        assert s[..k][..k - 1] == s[..k - 1];
      } else {
        CutBeforeInsert(s, p, x, k);
      }
    }
  }

  lemma {:induction false} PointOfTake<T>(s: seq<T>, x: T, k: nat, le: Le<T>)
    ensures Point(Take(s, k), x, le) == if Point(s, x, le) <= k then Point(s, x, le) else k
  {
    if s != [] && k > 0 && le(s[0], x) {
      PointOfTake(s[1..], x, k - 1, le);
      assert Take(s, k)[1..] == Take(s[1..], k - 1);
    }
  }
}
