/** Sums of voting weights over sets of indices, and what two such sums share. */
module Weights {

  /** The total weight of the positions of `w` that are members of `s`. */
  ghost function Weight(w: seq<nat>, s: set<nat>): nat {
    if |w| == 0 then 0
    else Weight(w[..|w| - 1], s) + if |w| - 1 in s then w[|w| - 1] else 0
  }

  function Total(w: seq<nat>): nat {
    if |w| == 0 then 0 else Total(w[..|w| - 1]) + w[|w| - 1]
  }

  lemma {:induction false} UnionIntersection(w: seq<nat>, a: set<nat>, b: set<nat>)
    ensures Weight(w, a) + Weight(w, b) == Weight(w, a + b) + Weight(w, a * b)
  {
    if |w| > 0 {
      UnionIntersection(w[..|w| - 1], a, b);
    }
  }

  lemma {:induction false} Monotone(w: seq<nat>, a: set<nat>, b: set<nat>)
    requires forall i :: i in a && i < |w| && w[i] > 0 ==> i in b
    ensures Weight(w, a) <= Weight(w, b)
  {
    if |w| > 0 {
      Monotone(w[..|w| - 1], a, b);
    }
  }

  lemma {:induction false} AtMostTotal(w: seq<nat>, a: set<nat>)
    ensures Weight(w, a) <= Total(w)
  {
    if |w| > 0 {
      AtMostTotal(w[..|w| - 1], a);
    }
  }

  lemma {:induction false} Full(w: seq<nat>, a: set<nat>)
    requires forall i :: 0 <= i < |w| ==> i in a
    ensures Weight(w, a) == Total(w)
  {
    if |w| > 0 {
      assert forall i :: 0 <= i < |w[..|w| - 1]| ==> i in a;
      Full(w[..|w| - 1], a);
    }
  }

  lemma Empty(w: seq<nat>)
    ensures Weight(w, {}) == 0
  {
  }

  lemma {:induction false} Singleton(w: seq<nat>, i: nat)
    ensures Weight(w, {i}) == if i < |w| then w[i] else 0
  {
    if |w| > 0 {
      Singleton(w[..|w| - 1], i);
    }
  }

  /** Disjoint sets add up. */
  lemma Disjoint(w: seq<nat>, a: set<nat>, b: set<nat>)
    requires a !! b
    ensures Weight(w, a + b) == Weight(w, a) + Weight(w, b)
  {
    UnionIntersection(w, a, b);
    assert a * b == {};
    Empty(w);
  }

  /** A set and a bound on it: what is in `a` but not in `b` carries the excess. */
  lemma Difference(w: seq<nat>, a: set<nat>, b: set<nat>)
    ensures Weight(w, a) <= Weight(w, a - b) + Weight(w, b)
  {
    Disjoint(w, a - b, a * b);
    assert (a - b) + (a * b) == a;
    Monotone(w, a * b, b);
  }

  /** A set of larger weight than another has a member of positive weight outside it. */
  lemma Outside(w: seq<nat>, a: set<nat>, b: set<nat>) returns (i: nat)
    requires Weight(w, a) > Weight(w, b)
    ensures i < |w| && i in a && i !in b && w[i] > 0
  {
    if forall i :: i in a && i < |w| && w[i] > 0 ==> i in b {
      Monotone(w, a, b);
      assert false;
    } else {
      i :| i in a && i < |w| && w[i] > 0 && i !in b;
    }
  }
}
