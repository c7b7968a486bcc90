/** Sums of weights over a sequence, and why neither cutting nor reordering it changes them. */
module Counting {

  function Sum<T>(s: seq<T>, weight: T -> nat): nat {
    if s == [] then 0 else Sum(s[..|s| - 1], weight) + weight(s[|s| - 1])
  }

  lemma {:induction false} SumConcat<T>(a: seq<T>, b: seq<T>, weight: T -> nat)
    ensures Sum(a + b, weight) == Sum(a, weight) + Sum(b, weight)
  {
    if b == [] {
      assert a + b == a;
    } else {
      SumConcat(a, b[..|b| - 1], weight);
      assert (a + b)[..|a + b| - 1] == a + b[..|b| - 1];
    }
  }

  lemma SumOne<T>(x: T, weight: T -> nat)
    ensures Sum([x], weight) == weight(x)
  {
    assert Sum([x][..0], weight) == 0;
  }

  lemma SumWithout<T>(s: seq<T>, i: nat, weight: T -> nat)
    requires i < |s|
    ensures var rest := s[..i] + s[i + 1..];
      multiset(rest) == multiset(s) - multiset{s[i]} && Sum(s, weight) == Sum(rest, weight) + weight(s[i])
  {
    var left, right := s[..i], s[i + 1..];
    assert s == left + ([s[i]] + right);
    SumConcat(left, [s[i]] + right, weight);
    SumConcat([s[i]], right, weight);
    SumConcat(left, right, weight);
    SumOne(s[i], weight);
  }

  lemma {:induction false} SumOfPermutation<T>(a: seq<T>, b: seq<T>, weight: T -> nat)
    requires multiset(a) == multiset(b)
    ensures Sum(a, weight) == Sum(b, weight)
  {
    if a == [] {
      assert |b| == |multiset(b)| == |multiset(a)| == 0;
    } else {
      var front, last := a[..|a| - 1], a[|a| - 1];
      assert a == front + [last];
      assert last in multiset(b);
      var i :| 0 <= i < |b| && b[i] == last;
      SumWithout(b, i, weight);
      SumOfPermutation(front, b[..i] + b[i + 1..], weight);
    }
  }
}
