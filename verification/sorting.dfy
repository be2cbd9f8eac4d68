/** Sorting by a comparison, as Go's sort and slices packages do. */
module Sorting {

  /** What a `less` passed to a sort must satisfy. */
  ghost predicate Ordering<T(!new)>(less: (T, T) -> bool) {
    && (forall x, y :: less(x, y) ==> !less(y, x))
    && (forall x, y, z {:trigger less(x, y), less(y, z)} :: !less(x, y) && !less(y, z) ==> !less(x, z))
  }

  ghost predicate Sorted<T>(less: (T, T) -> bool, s: seq<T>) {
    forall i, j :: 0 <= i < j < |s| ==> !less(s[j], s[i])
  }

  /** Puts `x` after every element that it is not less than. */
  method Insert<T(!new)>(less: (T, T) -> bool, s: seq<T>, x: T) returns (r: seq<T>)
    requires Ordering(less) && Sorted(less, s)
    ensures Sorted(less, r) && multiset(r) == multiset(s) + multiset{x}
  {
    var i := |s|;
    while i > 0 && less(x, s[i - 1])
      invariant 0 <= i <= |s|
      invariant forall k :: i <= k < |s| ==> less(x, s[k])
    {
      i := i - 1;
    }
    InsertSorted(less, s, x, i);
    assert s == s[..i] + s[i..];
    r := s[..i] + [x] + s[i..];
  }

  lemma InsertSorted<T(!new)>(less: (T, T) -> bool, s: seq<T>, x: T, i: nat)
    requires Ordering(less) && Sorted(less, s) && i <= |s|
    requires forall k :: i <= k < |s| ==> less(x, s[k])
    requires i > 0 ==> !less(x, s[i - 1])
    ensures Sorted(less, s[..i] + [x] + s[i..])
  {
    var r := s[..i] + [x] + s[i..];
    forall a, b | 0 <= a < b < |r|
      ensures !less(r[b], r[a])
    {
      if b == i && a < i - 1 {
        assert !less(s[i - 1], s[a]);
      }
    }
  }

  method Sort<T(!new)>(less: (T, T) -> bool, a: seq<T>) returns (b: seq<T>)
    requires Ordering(less)
    ensures Sorted(less, b) && multiset(b) == multiset(a)
  {
    b := [];
    for n := 0 to |a|
      invariant Sorted(less, b) && multiset(b) == multiset(a[..n])
    {
      assert a[..n + 1] == a[..n] + [a[n]];
      b := Insert(less, b, a[n]);
    }
    assert a[..|a|] == a;
  }

  /** A sequence with pairwise different elements. */
  ghost predicate Distinct<T>(s: seq<T>) {
    forall i, j :: 0 <= i < j < |s| ==> s[i] != s[j]
  }

  lemma {:induction false} OnceCounted<T>(s: seq<T>, x: T)
    requires Distinct(s)
    ensures multiset(s)[x] <= 1
  {
    if |s| > 0 {
      var init, last := s[..|s| - 1], s[|s| - 1];
      assert s == init + [last];
      OnceCounted(init, x);
    }
  }

  lemma TwiceCounted<T>(s: seq<T>, j: nat, k: nat)
    requires j < k < |s| && s[j] == s[k]
    ensures multiset(s)[s[j]] >= 2
  {
    assert s == s[..j] + [s[j]] + s[j + 1..k] + [s[k]] + s[k + 1..];
  }

  /** Rearranging keeps elements different and keeps membership. */
  lemma PermutationDistinct<T>(s: seq<T>, r: seq<T>)
    requires multiset(s) == multiset(r) && Distinct(s)
    ensures Distinct(r) && |r| == |s|
    ensures forall x :: x in r <==> x in s
  {
    forall j, k | 0 <= j < k < |r|
      ensures r[j] != r[k]
    {
      if r[j] == r[k] {
        TwiceCounted(r, j, k);
        OnceCounted(s, r[j]);
      }
    }
    PermutationMembers(s, r);
  }

  lemma RemoveAt<T>(s: seq<T>, k: nat)
    requires k < |s|
    ensures multiset(s[..k] + s[k + 1..]) == multiset(s) - multiset{s[k]}
  {
    assert s == s[..k] + [s[k]] + s[k + 1..];
  }

  lemma PermutationMembers<T>(s: seq<T>, r: seq<T>)
    requires multiset(s) == multiset(r)
    ensures |r| == |s|
    ensures forall x :: x in r <==> x in s
  {
    assert |multiset(s)| == |s| && |multiset(r)| == |r|;
    forall x
      ensures x in r <==> x in s
    {
      assert x in r <==> x in multiset(r);
      assert x in s <==> x in multiset(s);
    }
  }

  /** Two sorted sequences of the same different elements are equal, when the ordering tells
      different elements apart. */
  lemma {:induction false} SortedUnique<T(!new)>(less: (T, T) -> bool, a: seq<T>, b: seq<T>)
    requires Sorted(less, a) && Sorted(less, b) && Distinct(a) && Distinct(b)
    requires forall x :: x in a <==> x in b
    requires forall x, y :: x in a && y in a && x != y ==> less(x, y) || less(y, x)
    ensures a == b
  {
    assert (|a| > 0 ==> a[0] in b) && (|b| > 0 ==> b[0] in a);
    if |a| > 0 && |b| > 0 {
      var a', b' := a[1..], b[1..];
      assert a == [a[0]] + a' && b == [b[0]] + b';
      FirstsEqual(less, a, b);
      SameTails(a, b, a', b');
      TailSorted(less, a, a');
      TailSorted(less, b, b');
      SortedUnique(less, a', b');
    }
  }

  lemma TailSorted<T>(less: (T, T) -> bool, a: seq<T>, a': seq<T>)
    requires Sorted(less, a) && Distinct(a) && |a| > 0 && a' == a[1..]
    ensures Sorted(less, a') && Distinct(a') && forall x :: x in a' ==> x in a
  {
  }

  lemma SameTails<T(!new)>(a: seq<T>, b: seq<T>, a': seq<T>, b': seq<T>)
    requires |a| > 0 && |b| > 0 && a[0] == b[0] && a' == a[1..] && b' == b[1..] && Distinct(a) && Distinct(b)
    requires forall x :: x in a <==> x in b
    ensures forall x :: x in a' <==> x in b'
  {
    forall x
      ensures x in a' <==> x in b'
    {
      assert x in a <==> x == a[0] || x in a';
      assert x in b <==> x == b[0] || x in b';
    }
  }

  lemma FirstsEqual<T(!new)>(less: (T, T) -> bool, a: seq<T>, b: seq<T>)
    requires |a| > 0 && |b| > 0
    requires Sorted(less, a) && Sorted(less, b)
    requires forall x :: x in a <==> x in b
    requires forall x, y :: x in a && y in a && x != y ==> less(x, y) || less(y, x)
    ensures a[0] == b[0]
  {
    assert a[0] in b && b[0] in a;
    var i :| 0 <= i < |b| && b[i] == a[0];
    var j :| 0 <= j < |a| && a[j] == b[0];
  }
}
