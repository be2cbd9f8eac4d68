/** Power entries as sorted arrays, and the loops that make and apply diffs (certs/certs.go). */
module Tables {
  import opened Basics
  import opened Power
  import opened Sorting
  import opened Diffs

  /** Entries are ordered by decreasing power, then by increasing actor. */
  predicate Less(a: PowerEntry, b: PowerEntry) {
    a.power > b.power || (a.power == b.power && a.id < b.id)
  }

  ghost predicate DistinctIds(pt: seq<PowerEntry>) {
    forall i, j :: 0 <= i < j < |pt| ==> pt[i].id != pt[j].id
  }

  ghost predicate ValidTable(pt: seq<PowerEntry>) {
    DistinctIds(pt) && forall i :: 0 <= i < |pt| ==> ValidEntry(pt[i])
  }

  function ToMap(pt: seq<PowerEntry>): EntryMap {
    if pt == [] then map[] else ToMap(pt[..|pt| - 1])[pt[|pt| - 1].id := pt[|pt| - 1]]
  }

  ghost predicate KeysMatch(m: EntryMap) {
    forall id :: id in m ==> m[id].id == id
  }

  /** The sorted array of a map's entries. */
  ghost predicate IsTable(pt: seq<PowerEntry>, m: EntryMap) {
    DistinctIds(pt) && Sorted(Less, pt) && ToMap(pt) == m
  }

  /** Larger powers come first, and equal ones by actor. */
  predicate Ordered(pt: seq<PowerEntry>) {
    forall i :: 0 < i < |pt| ==>
      pt[i - 1].power > pt[i].power || (pt[i - 1].power == pt[i].power && pt[i - 1].id < pt[i].id)
  }

  lemma SortedIsOrdered(pt: seq<PowerEntry>)
    requires DistinctIds(pt)
    ensures Sorted(Less, pt) ==> Ordered(pt)
  {
  }

  lemma {:induction false} ToMapMembers(pt: seq<PowerEntry>)
    ensures KeysMatch(ToMap(pt))
    ensures forall e :: e in pt ==> e.id in ToMap(pt)
    ensures forall id :: id in ToMap(pt) ==> ToMap(pt)[id] in pt
    ensures DistinctIds(pt) ==> forall e :: e in pt <==> e.id in ToMap(pt) && ToMap(pt)[e.id] == e
  {
    if pt != [] {
      var init, last := pt[..|pt| - 1], pt[|pt| - 1];
      ToMapMembers(init);
      assert pt == init + [last];
      if DistinctIds(pt) {
        assert DistinctIds(init);
        assert forall e :: e in init ==> e.id != last.id;
      }
    }
  }

  lemma TableUnique(a: seq<PowerEntry>, b: seq<PowerEntry>, m: EntryMap)
    requires IsTable(a, m) && IsTable(b, m)
    ensures a == b
  {
    ToMapMembers(a);
    ToMapMembers(b);
    assert forall x :: x in a <==> x in b;
    assert forall x, y :: x in a && y in a && x != y ==> Less(x, y) || Less(y, x);
    SortedUnique(Less, a, b);
  }

  lemma ToMapPermutation(a: seq<PowerEntry>, b: seq<PowerEntry>)
    requires DistinctIds(a) && multiset(a) == multiset(b)
    ensures DistinctIds(b) && ToMap(a) == ToMap(b)
  {
    PermutationDistinct(a, b);
    forall i, j | 0 <= i < j < |b|
      ensures b[i].id != b[j].id
    {
      assert b[i] in a && b[j] in a && b[i] != b[j];
    }
    ToMapMembers(a);
    ToMapMembers(b);
    forall id
      ensures id in ToMap(a) <==> id in ToMap(b)
    {
      if id in ToMap(a) {
        assert ToMap(a)[id] in b;
      }
      if id in ToMap(b) {
        assert ToMap(b)[id] in a;
      }
    }
    assert ToMap(a).Keys == ToMap(b).Keys;
    forall id | id in ToMap(a)
      ensures ToMap(a)[id] == ToMap(b)[id]
    {
      assert ToMap(a)[id] in b;
    }
  }

  lemma AppendEntry(pt: seq<PowerEntry>, e: PowerEntry)
    requires DistinctIds(pt) && e.id !in ToMap(pt)
    ensures DistinctIds(pt + [e]) && ToMap(pt + [e]) == ToMap(pt)[e.id := e]
  {
    StillDistinct(pt, e);
    assert (pt + [e])[..|pt|] == pt;
  }

  lemma StillDistinct(pt: seq<PowerEntry>, e: PowerEntry)
    requires DistinctIds(pt) && e.id !in ToMap(pt)
    ensures DistinctIds(pt + [e])
  {
    ToMapMembers(pt);
    assert forall k :: 0 <= k < |pt| ==> pt[k] in pt;
  }

  lemma InsertPermutation(pt: seq<PowerEntry>, e: PowerEntry, i: nat)
    requires i <= |pt|
    ensures multiset(pt + [e]) == multiset(pt[..i] + [e] + pt[i..])
  {
    assert pt == pt[..i] + pt[i..];
  }

  /** Every map of entries under their own ids has a sorted array. */
  lemma {:induction false} TableExists(m: EntryMap) returns (pt: seq<PowerEntry>)
    requires KeysMatch(m)
    ensures IsTable(pt, m)
    decreases |m|
  {
    if m == map[] {
      pt := [];
    } else {
      var id :| id in m;
      var rest := m - {id};
      assert |rest| < |m| by {
        assert rest.Keys == m.Keys - {id};
      }
      var init := TableExists(rest);
      pt := InsertEntry(init, m[id], rest, |init|);
      assert rest[id := m[id]] == m;
    }
  }

  lemma {:induction false} InsertEntry(pt: seq<PowerEntry>, e: PowerEntry, m: EntryMap, i: nat)
    returns (r: seq<PowerEntry>)
    requires IsTable(pt, m) && e.id !in m && i <= |pt|
    requires forall k :: i <= k < |pt| ==> Less(e, pt[k])
    ensures IsTable(r, m[e.id := e])
    decreases i
  {
    if i > 0 && Less(e, pt[i - 1]) {
      r := InsertEntry(pt, e, m, i - 1);
    } else {
      r := pt[..i] + [e] + pt[i..];
      InsertSorted(Less, pt, e, i);
      AppendEntry(pt, e);
      InsertPermutation(pt, e, i);
      ToMapPermutation(pt + [e], r);
    }
  }

  lemma HasTable(m: EntryMap)
    requires KeysMatch(m)
    ensures exists pt :: IsTable(pt, m)
  {
    var pt := TableExists(m);
  }

  ghost function TableOf(m: EntryMap): seq<PowerEntry>
    requires KeysMatch(m)
    ensures IsTable(TableOf(m), m)
  {
    HasTable(m);
    var pt :| IsTable(pt, m);
    pt
  }

  // ---------- loops ----------

  method ArrayToMap(pt: seq<PowerEntry>) returns (m: EntryMap)
    ensures m == ToMap(pt)
  {
    m := map[];
    for i := 0 to |pt|
      invariant m == ToMap(pt[..i])
    {
      assert pt[..i + 1][..i] == pt[..i];
      m := m[pt[i].id := pt[i]];
    }
    assert pt[..|pt|] == pt;
  }

  lemma OneLess(m: EntryMap, todo: set<ActorID>, id: ActorID)
    requires id in todo && todo <= m.Keys
    ensures m - (todo - {id}) == (m - todo)[id := m[id]]
    ensures id !in m - todo
  {
  }

  /** The entries of a map, in no particular order. */
  method Entries(m: EntryMap) returns (entries: seq<PowerEntry>)
    requires KeysMatch(m)
    ensures DistinctIds(entries) && ToMap(entries) == m
  {
    entries := [];
    var todo := m.Keys;
    assert m - todo == map[];
    while todo != {}
      invariant todo <= m.Keys
      invariant DistinctIds(entries) && ToMap(entries) == m - todo
      decreases |todo|
    {
      var id :| id in todo;
      OneLess(m, todo, id);
      AppendEntry(entries, m[id]);
      entries := entries + [m[id]];
      todo := todo - {id};
    }
    assert m - {} == m;
  }

  method MapToArray(m: EntryMap) returns (pt: seq<PowerEntry>)
    requires KeysMatch(m)
    ensures pt == TableOf(m) && Ordered(pt) && ToMap(pt) == m
  {
    var entries := Entries(m);
    pt := Sort(Less, entries);
    ToMapPermutation(entries, pt);
    TableUnique(pt, TableOf(m), m);
    SortedIsOrdered(pt);
  }

  /** The deltas for the first `k` new entries. */
  ghost predicate Covers(a: EntryMap, newEntries: seq<PowerEntry>, k: nat, diff: seq<Delta>)
    requires k <= |newEntries|
  {
    && (forall i, j :: 0 <= i < j < |diff| ==> diff[i].id != diff[j].id)
    && (forall x :: x in diff <==>
          && x.id in ToMap(newEntries[..k])
          && DeltaBetween(x.id, At(a, x.id), At(ToMap(newEntries[..k]), x.id)) == Some(x))
  }

  /** The change for one new entry, whose old entry is taken out. */
  method TakeEntry(oldMap: EntryMap, n: PowerEntry) returns (change: Option<Delta>, rest: EntryMap)
    ensures change == DeltaBetween(n.id, At(oldMap, n.id), Some(n)) && rest == oldMap - {n.id}
  {
    rest := oldMap - {n.id};
    if n.id !in oldMap {
      return Some(Delta(n.id, n.power, n.pubKey)), rest;
    }
    var o := oldMap[n.id];
    var delta := Delta(n.id, n.power - o.power, if n.pubKey != o.pubKey then n.pubKey else []);
    change := if IsZero(delta) then None else Some(delta);
  }

  /** The deltas of the new entries, and the old entries that none of them replaces. */
  method AddChanges(oldMap: EntryMap, newEntries: seq<PowerEntry>) returns (diff: seq<Delta>, rest: EntryMap)
    requires DistinctIds(newEntries)
    ensures Covers(oldMap, newEntries, |newEntries|, diff) && rest == oldMap - ToMap(newEntries).Keys
  {
    diff, rest := [], oldMap;
    for i := 0 to |newEntries|
      invariant Covers(oldMap, newEntries, i, diff)
      invariant rest == oldMap - ToMap(newEntries[..i]).Keys
    {
      FreshEntry(newEntries, i);
      assert At(rest, newEntries[i].id) == At(oldMap, newEntries[i].id);
      var change;
      change, rest := TakeEntry(rest, newEntries[i]);
      CoverNext(oldMap, newEntries, i, diff, change);
      diff := if change.Some? then diff + [change.value] else diff;
    }
    assert newEntries[..|newEntries|] == newEntries;
  }

  method MakePowerTableDiff(oldEntries: seq<PowerEntry>, newEntries: seq<PowerEntry>) returns (diff: seq<Delta>)
    requires DistinctIds(oldEntries) && DistinctIds(newEntries)
    ensures IsDiff(ToMap(oldEntries), ToMap(newEntries), diff)
  {
    var oldMap := ArrayToMap(oldEntries);
    var rest;
    diff, rest := AddChanges(oldMap, newEntries);
    assert newEntries[..|newEntries|] == newEntries;
    ToMapMembers(oldEntries);
    ghost var a: EntryMap, b: EntryMap := oldMap, ToMap(newEntries);
    diff := AddRemovals(a, b, rest, diff);
    ghost var unsorted := diff;
    diff := Sort((x: Delta, y: Delta) => x.id < y.id, diff);
    SortedDiff(a, b, unsorted, diff);
  }

  lemma FreshEntry(pt: seq<PowerEntry>, i: nat)
    requires DistinctIds(pt) && i < |pt|
    ensures ToMap(pt[..i + 1]) == ToMap(pt[..i])[pt[i].id := pt[i]]
    ensures pt[i].id !in ToMap(pt[..i])
  {
    assert pt[..i + 1][..i] == pt[..i];
    ToMapMembers(pt[..i]);
  }

  lemma CoverNext(a: EntryMap, newEntries: seq<PowerEntry>, i: nat, diff: seq<Delta>, change: Option<Delta>)
    requires DistinctIds(newEntries) && i < |newEntries| && Covers(a, newEntries, i, diff)
    requires change == DeltaBetween(newEntries[i].id, At(a, newEntries[i].id), Some(newEntries[i]))
    ensures Covers(a, newEntries, i + 1, if change.Some? then diff + [change.value] else diff)
  {
    FreshEntry(newEntries, i);
    var diff' := if change.Some? then diff + [change.value] else diff;
    assert forall k :: 0 <= k < |diff| ==> diff[k] in diff;
    assert forall k :: 0 <= k < |diff| ==> diff[k].id != newEntries[i].id;
    forall x
      ensures x in diff' <==>
        x.id in ToMap(newEntries[..i + 1])
        && DeltaBetween(x.id, At(a, x.id), At(ToMap(newEntries[..i + 1]), x.id)) == Some(x)
    {
      CoverOne(a, ToMap(newEntries[..i]), newEntries[i], diff, change, x);
    }
  }

  lemma CoverOne(a: EntryMap, m: EntryMap, n: PowerEntry, diff: seq<Delta>, change: Option<Delta>, x: Delta)
    requires n.id !in m && change == DeltaBetween(n.id, At(a, n.id), Some(n))
    requires x in diff <==> x.id in m && DeltaBetween(x.id, At(a, x.id), At(m, x.id)) == Some(x)
    ensures var diff', m' := if change.Some? then diff + [change.value] else diff, m[n.id := n];
      x in diff' <==> x.id in m' && DeltaBetween(x.id, At(a, x.id), At(m', x.id)) == Some(x)
  {
    var diff' := if change.Some? then diff + [change.value] else diff;
    assert x in diff' <==> x in diff || Some(x) == change;
  }

  /** Adds a removal for every old entry that no new one replaces. */
  method AddRemovals(ghost a: EntryMap, ghost b: EntryMap, left: EntryMap, diff: seq<Delta>) returns (r: seq<Delta>)
    requires KeysMatch(a) && left == a - b.Keys
    requires forall i, j :: 0 <= i < j < |diff| ==> diff[i].id != diff[j].id
    requires forall x :: x in diff <==> x.id in b && DeltaBetween(x.id, At(a, x.id), At(b, x.id)) == Some(x)
    ensures forall i, j :: 0 <= i < j < |r| ==> r[i].id != r[j].id
    ensures forall x :: x in r <==> DeltaBetween(x.id, At(a, x.id), At(b, x.id)) == Some(x)
  {
    r := diff;
    var todo := left.Keys;
    while todo != {}
      invariant todo <= left.Keys
      invariant forall i, j :: 0 <= i < j < |r| ==> r[i].id != r[j].id
      invariant forall x :: x in r <==> x.id !in todo && DeltaBetween(x.id, At(a, x.id), At(b, x.id)) == Some(x)
      decreases |todo|
    {
      var id :| id in todo;
      var e := left[id];
      var removal := Delta(e.id, -e.power, []);
      RemovalNext(a, b, todo, id, r, removal);
      todo := todo - {id};
      r := r + [removal];
    }
  }

  lemma RemovalNext(a: EntryMap, b: EntryMap, todo: set<ActorID>, id: ActorID, r: seq<Delta>, removal: Delta)
    requires id in todo && id in a && id !in b && removal == Delta(id, -a[id].power, [])
    requires forall i, j :: 0 <= i < j < |r| ==> r[i].id != r[j].id
    requires forall x :: x in r <==> x.id !in todo && DeltaBetween(x.id, At(a, x.id), At(b, x.id)) == Some(x)
    ensures var r' := r + [removal];
      && (forall i, j :: 0 <= i < j < |r'| ==> r'[i].id != r'[j].id)
      && (forall x :: x in r' <==> x.id !in todo - {id} && DeltaBetween(x.id, At(a, x.id), At(b, x.id)) == Some(x))
  {
    assert forall k :: 0 <= k < |r| ==> r[k] in r;
    assert forall x :: x in r + [removal] <==> x in r || x == removal;
    assert DeltaBetween(id, At(a, id), At(b, id)) == Some(removal);
  }

  lemma SortedDiff(a: EntryMap, b: EntryMap, unsorted: seq<Delta>, diff: seq<Delta>)
    requires multiset(unsorted) == multiset(diff)
    requires Sorted((x: Delta, y: Delta) => x.id < y.id, diff)
    requires forall i, j :: 0 <= i < j < |unsorted| ==> unsorted[i].id != unsorted[j].id
    requires forall x :: x in unsorted <==> DeltaBetween(x.id, At(a, x.id), At(b, x.id)) == Some(x)
    ensures IsDiff(a, b, diff)
  {
    assert Distinct(unsorted);
    PermutationDistinct(unsorted, diff);
    forall i, j | 0 <= i < j < |diff|
      ensures diff[i].id < diff[j].id
    {
      assert diff[i] in unsorted && diff[j] in unsorted;
      assert diff[i] != diff[j];
    }
  }

  method ApplyOne(m: EntryMap, d: Delta) returns (r: Option<EntryMap>)
    requires KeysMatch(m)
    ensures r == match ApplyDelta(At(m, d.id), d)
                 case None => None
                 case Some(e) => Some(Put(m, d.id, e))
  {
    var pe: PowerEntry;
    if d.id in m {
      pe := m[d.id];
      if d.key == pe.pubKey {
        return None;
      }
      if d.power != 0 {
        pe := pe.(power := d.power + pe.power);
      }
      if |d.key| > 0 {
        if pe.power == 0 {
          return None;
        }
        pe := pe.(pubKey := d.key);
      }
    } else {
      if d.power <= 0 || |d.key| == 0 {
        return None;
      }
      pe := PowerEntry(d.id, d.power, d.key);
    }
    if pe.power == 0 {
      r := Some(m - {pe.id});
    } else if pe.power > 0 {
      r := Some(m[pe.id := pe]);
    } else {
      r := None;
    }
  }

  /** Applies the deltas of one diff, which must be sorted by id and change something. */
  method ApplyInOrder(m: EntryMap, diff: seq<Delta>) returns (r: Option<EntryMap>)
    requires KeysMatch(m)
    ensures r == ApplyDiff(m, diff)
    ensures r.Some? ==> KeysMatch(r.value)
  {
    var cur, lastActor := m, 0;
    for i := 0 to |diff|
      invariant i > 0 ==> lastActor == diff[i - 1].id
      invariant ApplyDiff(m, diff[..i]) == Some(cur) && KeysMatch(cur)
    {
      var d := diff[i];
      assert diff[..i + 1][..i] == diff[..i];
      if (i > 0 && d.id <= lastActor) || IsZero(d) {
        RejectedDiff(m, diff, i + 1);
        return None;
      }
      lastActor := d.id;
      var next := ApplyOne(cur, d);
      if next.None? {
        RejectedDiff(m, diff, i + 1);
        return None;
      }
      cur := next.value;
    }
    assert diff[..|diff|] == diff;
    r := Some(cur);
  }

  method ApplyPowerTableDiffsToMap(m: EntryMap, diffs: seq<seq<Delta>>) returns (r: Option<EntryMap>)
    requires KeysMatch(m)
    ensures r == ApplyDiffs(m, diffs)
    ensures r.Some? ==> KeysMatch(r.value)
  {
    var cur := m;
    for j := 0 to |diffs|
      invariant ApplyDiffs(m, diffs[..j]) == Some(cur) && KeysMatch(cur)
    {
      assert diffs[..j + 1][..j] == diffs[..j];
      var next := ApplyInOrder(cur, diffs[j]);
      if next.None? {
        RejectedDiffs(m, diffs, j + 1);
        return None;
      }
      cur := next.value;
    }
    assert diffs[..|diffs|] == diffs;
    r := Some(cur);
  }

  lemma {:induction false} RejectedDiff(m: EntryMap, d: seq<Delta>, i: nat)
    requires i <= |d| && ApplyDiff(m, d[..i]) == None
    ensures ApplyDiff(m, d) == None
    decreases |d|
  {
    if i < |d| {
      var n := |d| - 1;
      assert d[..n][..i] == d[..i];
      RejectedDiff(m, d[..n], i);
    } else {
      assert d[..i] == d;
    }
  }

  lemma {:induction false} RejectedDiffs(m: EntryMap, ds: seq<seq<Delta>>, j: nat)
    requires j <= |ds| && ApplyDiffs(m, ds[..j]) == None
    ensures ApplyDiffs(m, ds) == None
    decreases |ds|
  {
    if j < |ds| {
      var n := |ds| - 1;
      assert ds[..n][..j] == ds[..j];
      RejectedDiffs(m, ds[..n], j);
    } else {
      assert ds[..j] == ds;
    }
  }

  /** The table after a sequence of diffs, sorted; None when a diff is rejected. */
  ghost function ApplyToTable(pt: seq<PowerEntry>, ds: seq<seq<Delta>>): Option<seq<PowerEntry>> {
    ToMapMembers(pt);
    match ApplyDiffs(ToMap(pt), ds)
    case None => None
    case Some(m) =>
      ApplyDiffsKeys(ToMap(pt), ds);
      Some(TableOf(m))
  }

  lemma {:induction false} ApplyDiffKeys(m: EntryMap, d: seq<Delta>)
    requires KeysMatch(m) && ApplyDiff(m, d).Some?
    ensures KeysMatch(ApplyDiff(m, d).value)
  {
    if d != [] {
      ApplyDiffKeys(m, d[..|d| - 1]);
    }
  }

  lemma {:induction false} ApplyDiffsKeys(m: EntryMap, ds: seq<seq<Delta>>)
    requires KeysMatch(m) && ApplyDiffs(m, ds).Some?
    ensures KeysMatch(ApplyDiffs(m, ds).value)
  {
    if ds != [] {
      ApplyDiffsKeys(m, ds[..|ds| - 1]);
      ApplyDiffKeys(ApplyDiffs(m, ds[..|ds| - 1]).value, ds[|ds| - 1]);
    }
  }

  method ApplyPowerTableDiffs(pt: seq<PowerEntry>, diffs: seq<seq<Delta>>) returns (r: Option<seq<PowerEntry>>)
    ensures r == ApplyToTable(pt, diffs) && (r.Some? ==> Ordered(r.value))
  {
    var m := ArrayToMap(pt);
    ToMapMembers(pt);
    var m' := ApplyPowerTableDiffsToMap(m, diffs);
    if m'.None? {
      return None;
    }
    var table := MapToArray(m'.value);
    r := Some(table);
  }

  /** Between valid sorted tables: applying a diff to `a` gives `b` just when the diff is the one
      MakePowerTableDiff makes, so accepted diffs are in bijection with pairs of tables. */
  lemma DiffsCanonical(a: seq<PowerEntry>, b: seq<PowerEntry>, d: seq<Delta>)
    requires ValidTable(a) && ValidTable(b) && Sorted(Less, b)
    ensures ApplyToTable(a, [d]) == Some(b) <==> IsDiff(ToMap(a), ToMap(b), d)
  {
    ToMapMembers(a);
    ToMapMembers(b);
    ApplyIffDiff(ToMap(a), ToMap(b), d);
    assert ApplyDiffs(ToMap(a), [d]) == ApplyDiff(ToMap(a), d) by {
      assert [d][..0] == [];
    }
    if ApplyDiff(ToMap(a), d) == Some(ToMap(b)) {
      TableUnique(TableOf(ToMap(b)), b, ToMap(b));
    }
  }
}
