/** Power-table diffs and their canonical form (certs/certs.go, gpbft/powertable.go). */
module Diffs {
  import opened Basics
  import opened Power
  import opened Sorting

  /** A change to one participant; an empty key means the key stays. */
  datatype Delta = Delta(id: ActorID, power: int, key: Bytes)

  type EntryMap = map<ActorID, PowerEntry>

  predicate IsZero(d: Delta) {
    d.power == 0 && d.key == []
  }

  predicate ValidEntry(e: PowerEntry) {
    e.power > 0 && e.pubKey != []
  }

  ghost predicate ValidMap(m: EntryMap) {
    forall id :: id in m ==> m[id].id == id && ValidEntry(m[id])
  }

  function At(m: EntryMap, id: ActorID): Option<PowerEntry> {
    if id in m then Some(m[id]) else None
  }

  predicate ValidAt(id: ActorID, e: Option<PowerEntry>) {
    e.Some? ==> e.value.id == id && ValidEntry(e.value)
  }

  // ---------- one participant ----------

  /** The change from one optional entry to another, if there is any. */
  function DeltaBetween(id: ActorID, a: Option<PowerEntry>, b: Option<PowerEntry>): Option<Delta> {
    match (a, b)
    case (None, None) => None
    case (None, Some(n)) => Some(Delta(id, n.power, n.pubKey))
    case (Some(o), None) => Some(Delta(id, -o.power, []))
    case (Some(o), Some(n)) =>
      var d := Delta(id, n.power - o.power, if n.pubKey != o.pubKey then n.pubKey else []);
      if IsZero(d) then None else Some(d)
  }

  /** The entry after a delta; the outer None is an error, the inner one a removal. */
  function ApplyDelta(a: Option<PowerEntry>, d: Delta): Option<Option<PowerEntry>> {
    match a
    case Some(e) =>
      if d.key == e.pubKey then None
      else
        var power := e.power + d.power;
        if d.key != [] && power == 0 then None
        else if power < 0 then None
        else if power == 0 then Some(None)
        else Some(Some(e.(power := power, pubKey := if d.key != [] then d.key else e.pubKey)))
    case None =>
      if d.power <= 0 || d.key == [] then None
      else Some(Some(PowerEntry(d.id, d.power, d.key)))
  }

  /** For valid entries, a non-zero delta leads from `a` to `b` just when it is the change between
      them. */
  lemma DeltaCanonical(id: ActorID, a: Option<PowerEntry>, b: Option<PowerEntry>, d: Delta)
    requires ValidAt(id, a) && d.id == id
    ensures !IsZero(d) && ApplyDelta(a, d) == Some(b) ==> ValidAt(id, b) && DeltaBetween(id, a, b) == Some(d)
    ensures ValidAt(id, b) && DeltaBetween(id, a, b) == Some(d) ==> !IsZero(d) && ApplyDelta(a, d) == Some(b)
    ensures ValidAt(id, b) && DeltaBetween(id, a, b) == None ==> a == b
  {
  }

  // ---------- a whole diff ----------

  ghost predicate SortedById(d: seq<Delta>) {
    forall i, j :: 0 <= i < j < |d| ==> d[i].id < d[j].id
  }

  function Put(m: EntryMap, id: ActorID, e: Option<PowerEntry>): EntryMap {
    match e
    case Some(n) => m[id := n]
    case None => m - {id}
  }

  /** The deltas of a diff one after the other; None when the diff is rejected. */
  function ApplyDiff(m: EntryMap, d: seq<Delta>): Option<EntryMap> {
    if d == [] then Some(m)
    else
      var n := |d| - 1;
      match ApplyDiff(m, d[..n])
      case None => None
      case Some(m') =>
        if n > 0 && d[n].id <= d[n - 1].id then None
        else if IsZero(d[n]) then None
        else match ApplyDelta(At(m', d[n].id), d[n])
          case None => None
          case Some(e) => Some(Put(m', d[n].id, e))
  }

  /** A diff holds exactly the changes between two tables, by increasing participant. */
  ghost predicate IsDiff(a: EntryMap, b: EntryMap, d: seq<Delta>) {
    && SortedById(d)
    && (forall x :: x in d <==> DeltaBetween(x.id, At(a, x.id), At(b, x.id)) == Some(x))
  }

  /** The outcome of a diff at one participant. */
  ghost predicate Leads(m: EntryMap, m': EntryMap, x: Delta) {
    !IsZero(x) && ApplyDelta(At(m, x.id), x) == Some(At(m', x.id))
  }

  lemma PutAt(m: EntryMap, id: ActorID, e: Option<PowerEntry>, x: ActorID)
    ensures At(Put(m, id, e), x) == if x == id then e else At(m, x)
  {
  }

  /** No delta names the participant. */
  ghost predicate Untouched(d: seq<Delta>, id: ActorID) {
    forall i :: 0 <= i < |d| ==> d[i].id != id
  }

  /** The last delta of an accepted diff. */
  lemma LastDelta(m: EntryMap, d: seq<Delta>) returns (m1: EntryMap, e: Option<PowerEntry>)
    requires d != [] && ApplyDiff(m, d).Some?
    ensures var n := |d| - 1;
      && ApplyDiff(m, d[..n]) == Some(m1)
      && (n > 0 ==> d[n - 1].id < d[n].id) && !IsZero(d[n])
      && ApplyDelta(At(m1, d[n].id), d[n]) == Some(e)
      && ApplyDiff(m, d).value == Put(m1, d[n].id, e)
  {
    var n := |d| - 1;
    m1 := ApplyDiff(m, d[..n]).value;
    e := ApplyDelta(At(m1, d[n].id), d[n]).value;
  }

  /** The deltas of an accepted diff are in order. */
  lemma {:induction false} AppliedIsSorted(m: EntryMap, d: seq<Delta>)
    requires ApplyDiff(m, d).Some?
    ensures SortedById(d)
  {
    if d != [] {
      var m1, e := LastDelta(m, d);
      AppliedIsSorted(m, d[..|d| - 1]);
    }
  }

  /** An accepted diff changes nothing that it does not name. */
  lemma {:induction false} OthersUnchanged(m: EntryMap, d: seq<Delta>, id: ActorID)
    requires ApplyDiff(m, d).Some? && Untouched(d, id)
    ensures At(ApplyDiff(m, d).value, id) == At(m, id)
  {
    if d != [] {
      var n := |d| - 1;
      var m1, e := LastDelta(m, d);
      OthersUnchanged(m, d[..n], id);
      PutAt(m1, d[n].id, e, id);
    }
  }

  /** Each delta of an accepted diff applies to the entry it names. */
  lemma {:induction false} EachLeads(m: EntryMap, d: seq<Delta>, i: nat)
    requires ApplyDiff(m, d).Some? && i < |d|
    ensures Leads(m, ApplyDiff(m, d).value, d[i])
  {
    AppliedIsSorted(m, d);
    var n := |d| - 1;
    var m1, e := LastDelta(m, d);
    PutAt(m1, d[n].id, e, d[i].id);
    if i < n {
      EachLeads(m, d[..n], i);
    } else {
      OthersUnchanged(m, d[..n], d[n].id);
    }
  }

  lemma {:induction false} ApplyDiffMeaning(m: EntryMap, d: seq<Delta>)
    requires ApplyDiff(m, d).Some?
    ensures SortedById(d)
    ensures forall i :: 0 <= i < |d| ==> Leads(m, ApplyDiff(m, d).value, d[i])
    ensures forall id :: Untouched(d, id) ==> At(ApplyDiff(m, d).value, id) == At(m, id)
  {
    AppliedIsSorted(m, d);
    forall i | 0 <= i < |d|
      ensures Leads(m, ApplyDiff(m, d).value, d[i])
    {
      EachLeads(m, d, i);
    }
    forall id | Untouched(d, id)
      ensures At(ApplyDiff(m, d).value, id) == At(m, id)
    {
      OthersUnchanged(m, d, id);
    }
  }

  lemma {:induction false} SortedDiffApplies(m: EntryMap, target: EntryMap, d: seq<Delta>)
    requires SortedById(d) && forall i :: 0 <= i < |d| ==> Leads(m, target, d[i])
    ensures ApplyDiff(m, d).Some?
  {
    if d != [] {
      var n := |d| - 1;
      SortedDiffApplies(m, target, d[..n]);
      ApplyDiffMeaning(m, d[..n]);
      assert Untouched(d[..n], d[n].id);
      assert Leads(m, target, d[n]);
    }
  }

  lemma SameAt(a: EntryMap, b: EntryMap)
    requires forall id :: At(a, id) == At(b, id)
    ensures a == b
  {
    forall id
      ensures id in a <==> id in b
    {
      assert At(a, id) == At(b, id);
    }
    forall id | id in a
      ensures a[id] == b[id]
    {
      assert At(a, id) == At(b, id);
    }
  }

  /** Accepted diffs are canonical: from a valid table, a diff leads to a given table just when
      that table is valid and the diff is the one between them. */
  lemma ApplyIffDiff(a: EntryMap, b: EntryMap, d: seq<Delta>)
    requires ValidMap(a)
    ensures ApplyDiff(a, d) == Some(b) <==> ValidMap(b) && IsDiff(a, b, d)
  {
    if ApplyDiff(a, d) == Some(b) {
      AppliedIsDiff(a, b, d);
    }
    if ValidMap(b) && IsDiff(a, b, d) {
      DiffApplies(a, b, d);
    }
  }

  lemma AppliedIsDiff(a: EntryMap, b: EntryMap, d: seq<Delta>)
    requires ValidMap(a) && ApplyDiff(a, d) == Some(b)
    ensures ValidMap(b) && IsDiff(a, b, d)
  {
    ApplyDiffMeaning(a, d);
    forall id
      ensures ValidAt(id, At(b, id))
    {
      AppliedValid(a, b, d, id);
    }
    assert forall id :: id in b ==> At(b, id) == Some(b[id]);
    forall x
      ensures x in d <==> DeltaBetween(x.id, At(a, x.id), At(b, x.id)) == Some(x)
    {
      AppliedBetween(a, b, d, x);
    }
  }

  lemma AppliedValid(a: EntryMap, b: EntryMap, d: seq<Delta>, id: ActorID)
    requires ValidMap(a) && ApplyDiff(a, d) == Some(b)
    ensures ValidAt(id, At(b, id))
  {
    ApplyDiffMeaning(a, d);
    if i :| 0 <= i < |d| && d[i].id == id {
      assert Leads(a, b, d[i]);
      DeltaCanonical(id, At(a, id), At(b, id), d[i]);
    } else {
      assert Untouched(d, id);
    }
  }

  lemma AppliedBetween(a: EntryMap, b: EntryMap, d: seq<Delta>, x: Delta)
    requires ValidMap(a) && ApplyDiff(a, d) == Some(b)
    ensures x in d <==> DeltaBetween(x.id, At(a, x.id), At(b, x.id)) == Some(x)
  {
    ApplyDiffMeaning(a, d);
    if i :| 0 <= i < |d| && d[i].id == x.id {
      assert Leads(a, b, d[i]);
      DeltaCanonical(x.id, At(a, x.id), At(b, x.id), d[i]);
    } else {
      assert Untouched(d, x.id);
    }
  }

  lemma DiffApplies(a: EntryMap, b: EntryMap, d: seq<Delta>)
    requires ValidMap(a) && ValidMap(b) && IsDiff(a, b, d)
    ensures ApplyDiff(a, d) == Some(b)
  {
    forall i | 0 <= i < |d|
      ensures Leads(a, b, d[i])
    {
      assert d[i] in d;
      DeltaCanonical(d[i].id, At(a, d[i].id), At(b, d[i].id), d[i]);
    }
    SortedDiffApplies(a, b, d);
    ApplyDiffMeaning(a, d);
    var m := ApplyDiff(a, d).value;
    forall id
      ensures At(m, id) == At(b, id)
    {
      if i :| 0 <= i < |d| && d[i].id == id {
        assert Leads(a, m, d[i]) && Leads(a, b, d[i]);
      } else {
        assert Untouched(d, id);
        var change := DeltaBetween(id, At(a, id), At(b, id));
        var x := if change.Some? then change.value else Delta(id, 0, []);
        assert x in d <==> DeltaBetween(x.id, At(a, x.id), At(b, x.id)) == Some(x);
        DeltaCanonical(id, At(a, id), At(b, id), Delta(id, 0, []));
      }
    }
    SameAt(m, b);
  }

  /** There is only one diff between two tables. */
  lemma DiffUnique(a: EntryMap, b: EntryMap, d: seq<Delta>, e: seq<Delta>)
    requires IsDiff(a, b, d) && IsDiff(a, b, e)
    ensures d == e
  {
    var less := (x: Delta, y: Delta) => x.id < y.id;
    assert Sorted(less, d) && Sorted(less, e);
    assert forall x, y :: x in d && y in d && x != y ==> less(x, y) || less(y, x) by {
      forall x, y | x in d && y in d && x.id == y.id
        ensures x == y
      {
        assert DeltaBetween(x.id, At(a, x.id), At(b, x.id)) == Some(x);
        assert DeltaBetween(y.id, At(a, y.id), At(b, y.id)) == Some(y);
      }
    }
    SortedUnique(less, d, e);
  }

  /** Several diffs in turn. */
  function ApplyDiffs(m: EntryMap, ds: seq<seq<Delta>>): Option<EntryMap> {
    if ds == [] then Some(m)
    else match ApplyDiffs(m, ds[..|ds| - 1])
      case None => None
      case Some(m') => ApplyDiff(m', ds[|ds| - 1])
  }
}
