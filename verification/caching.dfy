/** Bounded sets of digests, grouped and recycled (internal/caching/set.go, grouped_cache.go). */
module Caching {
  import opened Basics
  import opened Sorting

  /** A keyed hash of a value; different pairs have different digests. */
  datatype CacheKey = CacheKey(namespace: string, value: Bytes)

  const MAX_NAMESPACE: nat := 64

  function NewKey(namespace: string, v: Bytes): Option<CacheKey> {
    if |namespace| > MAX_NAMESPACE then None else Some(CacheKey(namespace, v))
  }

  /** Digests differ for different namespaces or values; a namespace has at most 64 characters. */
  lemma KeysDiffer(namespace: string, v: Bytes, namespace': string, v': Bytes)
    ensures NewKey(namespace, v).Some? <==> |namespace| <= 64
    ensures NewKey(namespace, v).Some? && NewKey(namespace, v) == NewKey(namespace', v') ==>
      namespace == namespace' && v == v'
  {
  }

  class CacheSet {
    const maxSize: nat
    var flip: set<CacheKey>
    var flop: set<CacheKey>

    ghost predicate Valid()
      reads this
    {
      maxSize >= 1 && flip !! flop && |flip| < maxSize && |flop| <= maxSize
    }

    ghost function Contents(): set<CacheKey>
      reads this
    {
      flip + flop
    }

    constructor (maxSize: int)
      ensures Valid() && Contents() == {} && this.maxSize == if maxSize < 1 then 1 else maxSize
    {
      this.maxSize := if maxSize < 1 then 1 else maxSize;
      flip, flop := {}, {};
    }

    method Contains(namespace: string, v: Bytes) returns (r: Option<bool>)
      ensures r == match NewKey(namespace, v)
                   case None => None
                   case Some(key) => Some(key in Contents())
    {
      var key := NewKey(namespace, v);
      if key.None? {
        return None;
      }
      if key.value in flip {
        return Some(true);
      }
      r := Some(key.value in flop);
    }

    /** Adds a value; the older half is forgotten when the newer half is full. */
    method ContainsOrAdd(namespace: string, v: Bytes) returns (r: Option<bool>)
      requires Valid()
      modifies this
      ensures Valid()
      ensures r == match NewKey(namespace, v)
                   case None => None
                   case Some(key) => Some(key in old(Contents()))
      ensures r != Some(false) ==> Contents() == old(Contents())
      ensures r == Some(false) ==>
        Contents() == (if |old(flip)| + 1 < maxSize then old(Contents()) else old(flip)) + {CacheKey(namespace, v)}
    {
      var key := NewKey(namespace, v);
      if key.None? {
        return None;
      }
      if key.value in flip || key.value in flop {
        return Some(true);
      }
      flip := flip + {key.value};
      if |flip| >= maxSize {
        flop, flip := flip, {};
      }
      r := Some(false);
    }

    method Clear()
      requires maxSize >= 1
      modifies this
      ensures Valid() && Contents() == {}
    {
      flip, flop := {}, {};
    }
  }

  // ---------- recency ----------

  function Without(s: seq<nat>, g: nat): seq<nat> {
    if s == [] then []
    else Without(s[..|s| - 1], g) + (if s[|s| - 1] == g then [] else [s[|s| - 1]])
  }

  lemma {:induction false} WithoutMeaning(s: seq<nat>, g: nat)
    requires Distinct(s)
    ensures Distinct(Without(s, g))
    ensures forall x :: x in Without(s, g) <==> x in s && x != g
  {
    if s != [] {
      var n := |s| - 1;
      WithoutMeaning(s[..n], g);
      assert s == s[..n] + [s[n]];
      assert forall k :: 0 <= k < |Without(s[..n], g)| ==> Without(s[..n], g)[k] in s[..n];
    }
  }

  /** Taking a group out leaves the others in their order. */
  lemma {:induction false} WithoutAt(s: seq<nat>, i: nat)
    requires Distinct(s) && i < |s|
    ensures Without(s, s[i]) == s[..i] + s[i + 1..]
  {
    var n := |s| - 1;
    if i == n {
      WithoutNone(s[..n], s[n]);
      assert s[..i] + s[i + 1..] == s[..n];
    } else {
      WithoutAt(s[..n], i);
      assert s[..n][..i] == s[..i] && s[..n][i + 1..] + [s[n]] == s[i + 1..];
    }
  }

  lemma {:induction false} WithoutNone(s: seq<nat>, g: nat)
    requires g !in s
    ensures Without(s, g) == s
  {
    if s != [] {
      var n := |s| - 1;
      var init, last := s[..n], s[n];
      assert s == init + [last] && last in s;
      WithoutNone(init, g);
    }
  }

  ghost predicate MovedToFront(s: seq<nat>, g: nat, s': seq<nat>) {
    exists i :: 0 <= i < |s| && s[i] == g && s' == [g] + (s[..i] + s[i + 1..])
  }

  /** Each group is listed once. */
  ghost predicate Recent(recency: seq<nat>, groups: set<nat>) {
    Distinct(recency) && forall g :: g in recency <==> g in groups
  }

  lemma Removed(recency: seq<nat>, groups: set<nat>, g: nat)
    requires Recent(recency, groups)
    ensures Recent(Without(recency, g), groups - {g})
  {
    WithoutMeaning(recency, g);
  }

  lemma Pushed(recency: seq<nat>, groups: set<nat>, g: nat)
    requires Recent(recency, groups) && g !in groups
    ensures Recent([g] + recency, groups + {g})
  {
    assert forall x :: x in [g] + recency <==> x == g || x in recency;
    assert forall k :: 0 <= k < |recency| ==> recency[k] in recency;
  }

  lemma Fronted(recency: seq<nat>, groups: set<nat>, g: nat)
    requires Recent(recency, groups) && g in groups
    ensures Recent([g] + Without(recency, g), groups)
    ensures MovedToFront(recency, g, [g] + Without(recency, g))
  {
    Removed(recency, groups, g);
    Pushed(Without(recency, g), groups - {g}, g);
    assert groups - {g} + {g} == groups;
    assert g in recency;
    var i :| 0 <= i < |recency| && recency[i] == g;
    WithoutAt(recency, i);
  }

  // ---------- groups ----------

  ghost predicate Apart(groups: map<nat, CacheSet>, sets: set<CacheSet>, pool: set<CacheSet>) {
    && (forall g :: g in groups ==> groups[g] in sets - pool)
    && (forall g, h :: g in groups && h in groups && g != h ==> groups[g] != groups[h])
    && pool <= sets
  }

  ghost predicate EachOk(sets: set<CacheSet>, pool: set<CacheSet>)
    reads sets
  {
    forall s :: s in sets ==> s.Valid() && (s in pool ==> s.Contents() == {})
  }

  ghost predicate Sized(sets: set<CacheSet>, size: int) {
    forall s :: s in sets ==> s.maxSize == if size < 1 then 1 else size
  }

  lemma GroupAdded(groups: map<nat, CacheSet>, sets: set<CacheSet>, pool: set<CacheSet>, recency: seq<nat>, g: nat,
      s: CacheSet)
    requires Apart(groups, sets, pool) && s in sets - pool && forall h :: h in groups ==> groups[h] != s
    requires Recent(recency, groups.Keys) && g !in groups
    ensures Apart(groups[g := s], sets, pool) && Recent([g] + recency, groups[g := s].Keys)
    ensures |groups[g := s].Keys| == |groups.Keys| + 1
  {
    Pushed(recency, groups.Keys, g);
    assert groups[g := s].Keys == groups.Keys + {g};
  }

  class GroupedSet {
    const maxGroups: nat
    const maxSetSize: int
    var groups: map<nat, CacheSet>
    var recency: seq<nat>
    var pool: set<CacheSet>
    ghost var sets: set<CacheSet>

    /** No set belongs to two groups, or to a group and the pool. */
    ghost predicate Separate()
      reads this
    {
      Apart(groups, sets, pool)
    }

    /** Pooled sets are empty. */
    ghost predicate SetsOk()
      reads this, sets
    {
      EachOk(sets, pool)
    }

    ghost function Limit(): nat {
      if maxGroups == 0 then 1 else maxGroups
    }

    ghost predicate Valid()
      reads this, sets
    {
      Separate() && SetsOk() && Recent(recency, groups.Keys) && |groups.Keys| <= Limit()
    }

    /** A value is cached in a group. */
    ghost predicate Has(g: nat, k: CacheKey)
      reads this, sets
    {
      g in groups && groups[g] in sets && k in groups[g].Contents()
    }

    constructor (maxGroups: nat, maxSetSize: int)
      ensures Valid() && fresh(sets) && groups == map[] && Sized(sets, maxSetSize)
      ensures this.maxGroups == maxGroups && this.maxSetSize == maxSetSize
    {
      this.maxGroups, this.maxSetSize := maxGroups, maxSetSize;
      groups, recency, pool, sets := map[], [], {}, {};
    }

    /** Looks a value up, and makes its group the most recent one. */
    method Contains(g: nat, namespace: string, v: Bytes) returns (r: Option<bool>)
      requires Valid()
      modifies `recency
      ensures Valid()
      ensures r.None? <==> g in groups && NewKey(namespace, v).None?
      ensures r.Some? ==> r.value == Has(g, CacheKey(namespace, v))
      ensures g !in groups ==> recency == old(recency)
      ensures g in groups ==> MovedToFront(old(recency), g, recency)
      ensures forall h, k :: Has(h, k) <==> old(Has(h, k))
    {
      if g !in groups {
        return Some(false);
      }
      MoveToFront(g);
      r := groups[g].Contains(namespace, v);
    }

    method MoveToFront(g: nat)
      requires Valid() && g in groups
      modifies `recency
      ensures Valid()
      ensures MovedToFront(old(recency), g, recency)
    {
      Fronted(recency, groups.Keys, g);
      recency := [g] + Without(recency, g);
    }

    /** A set that neither a group nor the pool has. */
    ghost predicate Spare(s: CacheSet)
      reads this
    {
      s in sets - pool && forall g :: g in groups ==> groups[g] != s
    }

    method Detach(g: nat) returns (s: CacheSet)
      requires Valid() && g in groups
      modifies `groups, `recency
      ensures Valid() && Spare(s)
      ensures groups == old(groups) - {g} && groups.Keys == old(groups.Keys) - {g}
      ensures recency == Without(old(recency), g)
    {
      s := groups[g];
      Removed(recency, groups.Keys, g);
      recency := Without(recency, g);
      groups := groups - {g};
      assert groups.Keys == old(groups.Keys) - {g};
    }

    method Empty(s: CacheSet)
      requires Valid() && Spare(s)
      modifies s
      ensures Valid() && s.Contents() == {}
      ensures forall h, k :: Has(h, k) <==> old(Has(h, k))
    {
      s.Clear();
      forall h, k
        ensures Has(h, k) <==> old(Has(h, k))
      {
        assert h in groups ==> groups[h] != s;
      }
    }

    method Recycle(s: CacheSet)
      requires Valid() && Spare(s)
      modifies `pool, s
      ensures Valid()
      ensures forall h, k :: Has(h, k) <==> old(Has(h, k))
    {
      Empty(s);
      pool := pool + {s};
      assert Separate();
    }

    /** Forgets a group; its set is cleared before it is pooled. */
    method Evict(g: nat) returns (evicted: bool)
      requires Valid()
      modifies this, sets
      ensures Valid() && sets == old(sets)
      ensures groups == old(groups) - {g} && groups.Keys == old(groups.Keys) - {g}
      ensures evicted <==> g in old(groups)
      ensures recency == Without(old(recency), g)
      ensures forall h, k :: Has(h, k) <==> h != g && old(Has(h, k))
    {
      if g !in groups {
        assert groups - {g} == groups;
        WithoutNone(recency, g);
        return false;
      }
      var s := Detach(g);
      assert forall h, k :: Has(h, k) <==> h != g && old(Has(h, k));
      Recycle(s);
      evicted := true;
    }

    /** All groups but the least recent one, when there are enough. */
    ghost function AfterMakingRoom(): set<nat>
      reads this
    {
      if |groups.Keys| >= maxGroups && recency != [] then groups.Keys - {recency[|recency| - 1]} else groups.Keys
    }

    /** Pushes out the least recent group when there are enough. */
    method MakeRoom()
      requires Valid()
      modifies this, sets
      ensures Valid() && sets == old(sets) && |groups.Keys| < Limit()
      ensures groups.Keys == old(AfterMakingRoom())
      ensures forall h, k :: Has(h, k) <==> h in groups && old(Has(h, k))
    {
      if |groups.Keys| >= maxGroups && recency != [] {
        assert recency[|recency| - 1] in recency;
        var evicted := Evict(recency[|recency| - 1]);
      } else if recency == [] {
        assert groups.Keys == {};
      }
    }

    /** An empty set from the pool, or a new one. */
    method Obtain() returns (s: CacheSet)
      requires Valid()
      modifies `pool, `sets
      ensures Valid() && Spare(s) && s.Contents() == {}
      ensures old(sets) <= sets && fresh(sets - old(sets)) && (old(Sized(sets, maxSetSize)) ==> Sized(sets, maxSetSize))
      ensures forall h, k :: Has(h, k) <==> old(Has(h, k))
    {
      var pooled: bool := *;
      if pooled && pool != {} {
        s := Take();
      } else {
        s := Make();
      }
    }

    method Take() returns (s: CacheSet)
      requires Valid() && pool != {}
      modifies `pool
      ensures Valid() && Spare(s) && s.Contents() == {}
      ensures forall h, k :: Has(h, k) <==> old(Has(h, k))
    {
      s :| s in pool;
      pool := pool - {s};
    }

    method Make() returns (s: CacheSet)
      requires Valid()
      modifies `sets
      ensures Valid() && Spare(s) && s.Contents() == {}
      ensures sets == old(sets) + {s} && fresh(s) && s.maxSize == if maxSetSize < 1 then 1 else maxSetSize
      ensures forall h, k :: Has(h, k) <==> old(Has(h, k))
    {
      s := new CacheSet(maxSetSize);
      sets := sets + {s};
    }

    method Place(g: nat, s: CacheSet)
      requires s in sets && s.Contents() == {} && g !in groups
      modifies `groups, `recency
      ensures groups == old(groups)[g := s] && groups.Keys == old(groups.Keys) + {g} && recency == [g] + old(recency)
      ensures forall h, k :: Has(h, k) <==> old(Has(h, k))
    {
      recency := [g] + recency;
      groups := groups[g := s];
      assert groups.Keys == old(groups.Keys) + {g};
    }

    method Attach(g: nat, s: CacheSet)
      requires Valid() && Spare(s) && s.Contents() == {} && g !in groups && |groups.Keys| < Limit()
      modifies `groups, `recency
      ensures Valid() && groups == old(groups)[g := s] && groups.Keys == old(groups.Keys) + {g}
      ensures recency == [g] + old(recency)
      ensures forall h, k :: Has(h, k) <==> old(Has(h, k))
    {
      GroupAdded(groups, sets, pool, recency, g, s);
      Place(g, s);
    }

    /** Starts a group with an empty set. */
    method Start(g: nat)
      requires Valid() && g !in groups && |groups.Keys| < Limit()
      modifies this
      ensures Valid() && groups.Keys == old(groups.Keys) + {g} && recency == [g] + old(recency)
      ensures old(sets) <= sets && fresh(sets - old(sets)) && (old(Sized(sets, maxSetSize)) ==> Sized(sets, maxSetSize))
      ensures forall h, k :: Has(h, k) <==> old(Has(h, k))
    {
      var s := Obtain();
      Attach(g, s);
    }

    method Insert(g: nat, namespace: string, v: Bytes) returns (r: Option<bool>)
      requires Valid() && g in groups
      modifies groups[g]
      ensures Valid()
      ensures r == match NewKey(namespace, v)
                   case None => None
                   case Some(key) => Some(!old(Has(g, key)))
      ensures r.Some? ==> Has(g, CacheKey(namespace, v))
      ensures forall h, k :: Has(h, k) ==> old(Has(h, k)) || (h == g && NewKey(namespace, v) == Some(k))
      ensures forall h, k :: h != g && old(Has(h, k)) ==> Has(h, k)
    {
      var contained := groups[g].ContainsOrAdd(namespace, v);
      assert forall h :: h in groups && h != g ==> groups[h] != groups[g];
      r := if contained.None? then None else Some(!contained.value);
    }

    /** Adds a value to a group, and says whether it was not yet there. A new group may push out the
        least recent one. */
    method Add(g: nat, namespace: string, v: Bytes) returns (r: Option<bool>)
      requires Valid()
      modifies this, sets
      ensures Valid() && old(sets) <= sets && fresh(sets - old(sets))
      ensures r == match NewKey(namespace, v)
                   case None => None
                   case Some(key) => Some(!old(Has(g, key)))
      ensures r.Some? ==> Has(g, CacheKey(namespace, v))
      ensures forall h, k :: Has(h, k) ==> old(Has(h, k)) || (h == g && NewKey(namespace, v) == Some(k))
      ensures old(Sized(sets, maxSetSize)) ==> Sized(sets, maxSetSize)
      ensures groups.Keys == old(if g in groups then groups.Keys else AfterMakingRoom() + {g})
      ensures forall h, k :: h != g && h in groups && old(Has(h, k)) ==> Has(h, k)
      ensures if g in old(groups) then recency == old(recency) else recency[..1] == [g]
    {
      if g !in groups {
        MakeRoom();
        Start(g);
      }
      r := Insert(g, namespace, v);
    }

    /** Forgets all groups before a given one. */
    method RemoveGroupsLessThan(group: nat) returns (evictedAtLeastOne: bool)
      requires Valid()
      modifies this, sets
      ensures Valid() && sets == old(sets)
      ensures forall h: nat, k :: Has(h, k) <==> h >= group && old(Has(h, k))
      ensures evictedAtLeastOne <==> exists h :: h in old(groups) && h < group
    {
      evictedAtLeastOne := false;
      var todo := groups.Keys;
      while todo != {}
        invariant Valid() && sets == old(sets)
        invariant todo <= old(groups).Keys
        invariant forall h :: h in groups <==> h in old(groups) && (h in todo || h >= group)
        invariant forall h, k :: Has(h, k) <==> h in groups && old(Has(h, k))
        invariant evictedAtLeastOne <==> exists h :: h in old(groups) && h !in todo && h < group
        decreases |todo|
      {
        var h :| h in todo;
        todo := todo - {h};
        if h < group {
          var evicted := Evict(h);
          evictedAtLeastOne := evicted || evictedAtLeastOne;
        }
      }
    }
  }
}
