/** Scaling of power and the table built by insertion (gpbft/powertable.go). */
module PowerTables {
  import opened Basics
  import opened Weights
  import opened Power
  import opened Tallies
  import opened Sorting
  import opened Diffs
  import opened Tables

  const MAX_POWER: nat := 0xffff

  /** The code rejects a total below the power of one participant. */
  function ScalePower(power: int, total: int): nat
    requires 0 < power <= total
  {
    MAX_POWER * power / total
  }

  /** The share of the total in units of 1/65535, rounded down. */
  lemma ScaleMeaning(power: int, total: int)
    requires 0 < power <= total
    ensures total * ScalePower(power, total) <= 0xffff * power < total * (ScalePower(power, total) + 1)
  {
    var x := ScalePower(power, total);
    assert 0xffff * power == total * x + (0xffff * power) % total;
  }

  function TotalPower(pt: seq<PowerEntry>): int {
    if pt == [] then 0 else TotalPower(pt[..|pt| - 1]) + pt[|pt| - 1].power
  }

  ghost predicate Scalable(pt: seq<PowerEntry>, total: int) {
    forall i :: 0 <= i < |pt| ==> 0 < pt[i].power <= total
  }

  ghost function ScaledPowers(pt: seq<PowerEntry>, total: int): (s: seq<nat>)
    requires Scalable(pt, total)
    ensures |s| == |pt|
  {
    seq(|pt|, i requires 0 <= i < |pt| => ScalePower(pt[i].power, total))
  }

  lemma {:induction false} PositiveTotals(pt: seq<PowerEntry>)
    requires forall i :: 0 <= i < |pt| ==> pt[i].power > 0
    ensures Scalable(pt, TotalPower(pt)) && TotalPower(pt) >= 0
  {
    if pt != [] {
      var init := pt[..|pt| - 1];
      PositiveTotals(init);
      forall i | 0 <= i < |pt|
        ensures 0 < pt[i].power <= TotalPower(pt)
      {
        if i < |init| {
          assert init[i] == pt[i];
        }
      }
    }
  }

  lemma MulAtMost(x: int, y: int, t: int)
    requires x <= y && t > 0
    ensures x * t <= y * t
  {
  }

  lemma DivMonotone(a: int, b: int, t: int)
    requires 0 <= a <= b && t > 0
    ensures a / t <= b / t
  {
    var q, p := a / t, b / t;
    assert b < (p + 1) * t;
    DivTimes(a, t);
    if p < q {
      MulAtMost(p + 1, q, t);
    }
  }

  /** A larger power scales to no less, so a sorted table has non-increasing scaled powers. */
  lemma SortedScalesDown(pt: seq<PowerEntry>, total: int)
    requires Scalable(pt, total) && Sorted(Less, pt)
    ensures NonIncreasing(ScaledPowers(pt, total))
  {
    forall j, k | 0 <= j < k < |pt|
      ensures ScaledPowers(pt, total)[j] >= ScaledPowers(pt, total)[k]
    {
      assert pt[j].power >= pt[k].power;
      DivMonotone(MAX_POWER * pt[k].power, MAX_POWER * pt[j].power, total);
    }
  }

  lemma DivTimes(a: int, t: int)
    requires a >= 0 && t > 0
    ensures t * (a / t) <= a
  {
  }

  lemma {:induction false} ScaledSum(pt: seq<PowerEntry>, total: int)
    requires Scalable(pt, total)
    ensures total * Total(ScaledPowers(pt, total)) <= MAX_POWER * TotalPower(pt)
  {
    if pt != [] {
      var init, last := pt[..|pt| - 1], pt[|pt| - 1];
      ScaledSum(init, total);
      assert ScaledPowers(pt, total)[..|pt| - 1] == ScaledPowers(init, total);
      var x := ScalePower(last.power, total);
      DivTimes(MAX_POWER * last.power, total);
      assert total * (Total(ScaledPowers(init, total)) + x) == total * Total(ScaledPowers(init, total)) + total * x;
    }
  }

  /** Rounding loses less than one unit for each entry. */
  lemma {:induction false} ScaledSumLower(pt: seq<PowerEntry>, total: int)
    requires Scalable(pt, total)
    ensures 0xffff * TotalPower(pt) <= total * Total(ScaledPowers(pt, total)) + |pt| * (total - 1)
  {
    if pt != [] {
      var init, last := pt[..|pt| - 1], pt[|pt| - 1];
      ScaledSumLower(init, total);
      assert ScaledPowers(pt, total)[..|pt| - 1] == ScaledPowers(init, total);
      ScaleMeaning(last.power, total);
      OneMore(total, Total(ScaledPowers(init, total)), ScalePower(last.power, total), |init|);
    }
  }

  lemma OneMore(t: int, s: int, x: int, n: int)
    ensures t * (s + x) == t * s + t * x && t * (x + 1) == t * x + t && (n + 1) * (t - 1) == n * (t - 1) + (t - 1)
  {
  }

  /** The scaled total never exceeds 16 bits, so quorum arithmetic does not overflow, and it falls short of
      them by less than the number of entries. */
  lemma ScaledTotalBound(pt: seq<PowerEntry>)
    requires forall i :: 0 <= i < |pt| ==> pt[i].power > 0
    ensures Scalable(pt, TotalPower(pt))
    ensures Total(ScaledPowers(pt, TotalPower(pt))) <= 0xffff
    ensures pt != [] ==> 0xffff - |pt| < Total(ScaledPowers(pt, TotalPower(pt)))
  {
    PositiveTotals(pt);
    if pt != [] {
      var t, s := TotalPower(pt), Total(ScaledPowers(pt, TotalPower(pt)));
      ScaledSum(pt, t);
      ScaledSumLower(pt, t);
      Between(t, s, |pt|);
    }
  }

  lemma Between(t: int, s: int, n: int)
    requires t > 0 && n > 0 && t * s <= 0xffff * t <= t * s + n * (t - 1)
    ensures 0xffff - n < s <= 0xffff
  {
    if s > 0xffff {
      MulLess(t, 0xffff, s);
    }
    if s <= 0xffff - n {
      if s < 0xffff - n {
        MulLess(t, s, 0xffff - n);
      }
    }
  }

  lemma MulLess(t: int, a: int, b: int)
    requires t > 0 && a < b
    ensures t * a < t * b
  {
  }

  /** The scaled powers of a table and their sum; rejected when some power is not positive. */
  method Scaled(pt: seq<PowerEntry>) returns (ok: bool, scaled: seq<nat>, total: nat)
    ensures ok <==> forall i :: 0 <= i < |pt| ==> pt[i].power > 0
    ensures ok ==> Scalable(pt, TotalPower(pt)) && scaled == ScaledPowers(pt, TotalPower(pt)) && total == Total(scaled)
  {
    var unscaled := 0;
    for i := 0 to |pt|
      invariant unscaled == TotalPower(pt[..i])
      invariant forall k :: 0 <= k < i ==> pt[k].power > 0
    {
      if pt[i].power <= 0 {
        return false, [], 0;
      }
      assert pt[..i + 1][..i] == pt[..i];
      unscaled := unscaled + pt[i].power;
    }
    assert pt[..|pt|] == pt;
    PositiveTotals(pt);
    ok, scaled, total := true, [], 0;
    for i := 0 to |pt|
      invariant scaled == ScaledPowers(pt, unscaled)[..i] && total == Total(scaled)
    {
      var p := ScalePower(pt[i].power, unscaled);
      assert (scaled + [p])[..|scaled|] == scaled;
      scaled := scaled + [p];
      total := total + p;
    }
  }

  // ---------- the table ----------

  /** What PowerTable.Validate requires. */
  ghost predicate Validated(t: RawTable) {
    && |t.entries| == |t.lookup| && |t.entries| == |t.scaledPower|
    && (forall i :: 0 <= i < |t.entries| ==>
          && t.entries[i].id in t.lookup && t.lookup[t.entries[i].id] == i
          && ValidEntry(t.entries[i]))
    && (forall i :: 0 < i < |t.entries| ==> Less(t.entries[i - 1], t.entries[i]))
    && t.total == TotalPower(t.entries)
    && Scalable(t.entries, t.total)
    && t.scaledPower == ScaledPowers(t.entries, t.total)
    && t.scaledTotal == Total(t.scaledPower)
  }

  lemma {:induction false} AdjacentSorted(pt: seq<PowerEntry>, i: nat, j: nat)
    requires forall k :: 0 < k < |pt| ==> Less(pt[k - 1], pt[k])
    requires i < j < |pt|
    ensures Less(pt[i], pt[j])
    decreases j
  {
    if i + 1 < j {
      AdjacentSorted(pt, i, j - 1);
      assert Less(pt[j - 1], pt[j]);
    }
  }

  /** A validated table is consistent, valid, sorted, and its scaled powers do not increase. */
  lemma ValidatedMeaning(t: RawTable)
    requires Validated(t)
    ensures Consistent(t) && ValidTable(t.entries) && Sorted(Less, t.entries)
    ensures NonIncreasing(t.scaledPower) && t.scaledTotal <= 0xffff
    ensures t.entries != [] ==> 0xffff - |t.entries| < t.scaledTotal
  {
    forall i, j | 0 <= i < j < |t.entries|
      ensures Less(t.entries[i], t.entries[j]) && t.entries[i].id != t.entries[j].id
    {
      AdjacentSorted(t.entries, i, j);
    }
    SortedScalesDown(t.entries, t.total);
    ScaledTotalBound(t.entries);
    NoStrayLookups(t.entries, t.lookup);
  }

  ghost function Ids(pt: seq<PowerEntry>): set<ActorID> {
    set i | 0 <= i < |pt| :: pt[i].id
  }

  lemma {:induction false} IdsSize(pt: seq<PowerEntry>)
    requires DistinctIds(pt)
    ensures |Ids(pt)| == |pt|
  {
    if pt != [] {
      var init, last := pt[..|pt| - 1], pt[|pt| - 1];
      IdsSize(init);
      assert pt == init + [last];
      assert Ids(pt) == Ids(init) + {last.id};
      assert last.id !in Ids(init);
    }
  }

  lemma SubsetSameSize(a: set<ActorID>, b: set<ActorID>)
    requires a <= b && |a| == |b|
    ensures a == b
  {
    if x :| x in b && x !in a {
      assert |b| == |b - {x}| + 1;
      SubsetSize(a, b - {x});
    }
  }

  lemma {:induction false} SubsetSize(a: set<ActorID>, b: set<ActorID>)
    requires a <= b
    ensures |a| <= |b|
  {
    if x :| x in a {
      SubsetSize(a - {x}, b - {x});
    }
  }

  /** As many lookups as entries, one for each, leaves room for no other. */
  lemma NoStrayLookups(pt: seq<PowerEntry>, lookup: map<ActorID, nat>)
    requires |pt| == |lookup|
    requires forall i :: 0 <= i < |pt| ==> pt[i].id in lookup && lookup[pt[i].id] == i
    ensures lookup.Keys == Ids(pt)
  {
    assert DistinctIds(pt);
    IdsSize(pt);
    SubsetSameSize(Ids(pt), lookup.Keys);
  }

  class PowerTableObject {
    var entries: seq<PowerEntry>
    var scaledPower: seq<nat>
    var lookup: map<ActorID, nat>
    var total: int
    var scaledTotal: nat

    ghost function View(): RawTable
      reads this
    {
      RawTable(entries, scaledPower, lookup, total, scaledTotal)
    }

    /** Lookups and entries invert each other. */
    ghost predicate Inverse()
      reads this
    {
      && |scaledPower| == |entries| == |lookup|
      && (forall i :: 0 <= i < |entries| ==> entries[i].id in lookup && lookup[entries[i].id] == i)
    }

    /** Moreover every entry is valid, and the total is their sum. */
    ghost predicate Indexed()
      reads this
    {
      Inverse() && ValidTable(entries) && total == TotalPower(entries)
    }

    constructor ()
      ensures Validated(View()) && entries == []
    {
      entries, scaledPower, lookup, total, scaledTotal := [], [], map[], 0, 0;
    }

    method Swap(i: nat, j: nat)
      requires Inverse() && i < |entries| && j < |entries|
      modifies this`entries, this`scaledPower, this`lookup
      ensures entries == old(entries)[i := old(entries)[j]][j := old(entries)[i]]
      ensures scaledPower == old(scaledPower)[i := old(scaledPower)[j]][j := old(scaledPower)[i]]
      ensures Inverse()
    {
      NoStrayLookups(entries, lookup);
      entries := entries[i := entries[j]][j := entries[i]];
      scaledPower := scaledPower[i := scaledPower[j]][j := scaledPower[i]];
      lookup := lookup[entries[i].id := i][entries[j].id := j];
      assert lookup.Keys == old(lookup).Keys;
    }

    /** Appends an entry that is not yet in the table; it will be sorted and scaled later. */
    method Append(entry: PowerEntry)
      requires Indexed() && ValidEntry(entry) && entry.id !in lookup
      modifies this
      ensures Indexed() && entries == old(entries) + [entry]
    {
      NoStrayLookups(entries, lookup);
      assert forall k :: 0 <= k < |entries| ==> entries[k].id in Ids(entries);
      assert (entries + [entry])[..|entries|] == entries;
      total := total + entry.power;
      entries := entries + [entry];
      scaledPower := scaledPower + [0];
      lookup := lookup[entry.id := |entries| - 1];
    }

    /** Recomputes the scaled powers; the total is the sum of the powers, so none is rejected. */
    method Rescale()
      requires Indexed()
      modifies this`scaledPower, this`scaledTotal
      ensures Scalable(entries, total) && scaledPower == ScaledPowers(entries, total)
      ensures scaledTotal == Total(scaledPower)
    {
      PositiveTotals(entries);
      scaledTotal := 0;
      ghost var target := ScaledPowers(entries, total);
      for i := 0 to |entries|
        invariant |scaledPower| == |entries|
        invariant forall k :: 0 <= k < i ==> scaledPower[k] == target[k]
        invariant scaledTotal == Total(target[..i])
      {
        var scaled := ScalePower(entries[i].power, total);
        assert target[..i + 1][..i] == target[..i];
        scaledPower := scaledPower[i := scaled];
        scaledTotal := scaledTotal + scaled;
      }
      assert scaledPower == target && target[..|entries|] == target;
    }

    /** Moves the entry at `i` down to its place among the sorted entries before it. */
    method Sink(i: nat)
      requires Inverse() && i < |entries| && Sorted(Less, entries[..i])
      modifies this`entries, this`scaledPower, this`lookup
      ensures Inverse() && |entries| == |old(entries)| && Sorted(Less, entries[..i + 1])
      ensures multiset(entries) == multiset(old(entries))
    {
      var j := i;
      SortedButStart(entries, i);
      while j > 0 && Less(entries[j], entries[j - 1])
        invariant 0 <= j <= i < |entries| == |old(entries)|
        invariant Inverse() && multiset(entries) == multiset(old(entries))
        invariant SortedBut(entries, i, j)
      {
        SwapPermutes(entries, j, j - 1);
        SortedButStep(entries, i, j);
        Swap(j, j - 1);
        j := j - 1;
      }
      SortedButEnd(entries, i, j);
    }

    /** Sorts through Less and Swap. */
    method SortEntries()
      requires Inverse()
      modifies this`entries, this`scaledPower, this`lookup
      ensures Inverse() && Sorted(Less, entries) && multiset(entries) == multiset(old(entries))
    {
      for i := 0 to |entries|
        invariant Inverse() && |entries| == |old(entries)| && multiset(entries) == multiset(old(entries))
        invariant Sorted(Less, entries[..i])
      {
        Sink(i);
      }
      assert entries[..|entries|] == entries;
    }

    /** Appends an entry that has a key, positive power and no entry yet. */
    method TryAppend(entry: PowerEntry) returns (ok: bool)
      requires Indexed()
      modifies this
      ensures Indexed() && ok == (ValidEntry(entry) && entry.id !in Ids(old(entries)))
      ensures entries == if ok then old(entries) + [entry] else old(entries)
    {
      NoStrayLookups(entries, lookup);
      if |entry.pubKey| == 0 || entry.id in lookup || entry.power <= 0 {
        return false;
      }
      Append(entry);
      ok := true;
    }

    /** Appends entries up to the first that lacks a key or positive power or has an entry already. */
    method AppendEach(newEntries: seq<PowerEntry>) returns (k: nat)
      requires Indexed()
      modifies this
      ensures k <= |newEntries| && Indexed() && entries == old(entries) + newEntries[..k]
      ensures k < |newEntries| ==> !ValidEntry(newEntries[k]) || newEntries[k].id in Ids(entries)
    {
      for i := 0 to |newEntries|
        invariant Indexed() && entries == old(entries) + newEntries[..i]
      {
        assert newEntries[..i + 1] == newEntries[..i] + [newEntries[i]];
        var appended := TryAppend(newEntries[i]);
        if !appended {
          return i;
        }
      }
      k := |newEntries|;
    }

    method SortAndRescale()
      requires Indexed()
      modifies this
      ensures Validated(View()) && multiset(entries) == multiset(old(entries))
    {
      SortEntries();
      SortedIsValid(old(entries), entries);
      Rescale();
    }

    /** Adds entries that have a key, positive power and no entry yet; the first one that does not
        ends the call with an error, after those before it have been appended. */
    method Add(newEntries: seq<PowerEntry>) returns (ok: bool, ghost k: nat)
      requires Indexed()
      modifies this
      ensures ok ==> Validated(View()) && Ordered(entries) && multiset(entries) == multiset(old(entries) + newEntries)
      ensures !ok ==> k < |newEntries| && Indexed() && entries == old(entries) + newEntries[..k]
                      && (!ValidEntry(newEntries[k]) || newEntries[k].id in Ids(old(entries) + newEntries[..k]))
    {
      var n := AppendEach(newEntries);
      k := n;
      if n < |newEntries| {
        return false, n;
      }
      assert newEntries[..n] == newEntries;
      SortAndRescale();
      ok := true;
    }
  }

  /** The first `i + 1` entries are sorted but for the one at `j`, which is below those after it. */
  ghost predicate SortedBut(pt: seq<PowerEntry>, i: nat, j: nat)
    requires j <= i < |pt|
  {
    && (forall a, b :: 0 <= a < b <= i && a != j && b != j ==> !Less(pt[b], pt[a]))
    && (forall b :: j < b <= i ==> Less(pt[j], pt[b]))
  }

  lemma SortedButStart(pt: seq<PowerEntry>, i: nat)
    requires i < |pt| && Sorted(Less, pt[..i])
    ensures SortedBut(pt, i, i)
  {
    forall a, b | 0 <= a < b < i
      ensures !Less(pt[b], pt[a])
    {
      assert pt[..i][b] == pt[b] && pt[..i][a] == pt[a];
    }
  }

  lemma SortedButStep(pt: seq<PowerEntry>, i: nat, j: nat)
    requires 0 < j <= i < |pt| && SortedBut(pt, i, j) && Less(pt[j], pt[j - 1])
    ensures SortedBut(pt[j := pt[j - 1]][j - 1 := pt[j]], i, j - 1)
  {
  }

  lemma SortedButEnd(pt: seq<PowerEntry>, i: nat, j: nat)
    requires j <= i < |pt| && SortedBut(pt, i, j) && (j > 0 ==> !Less(pt[j], pt[j - 1]))
    ensures Sorted(Less, pt[..i + 1])
  {
    var s := pt[..i + 1];
    forall a, b | 0 <= a < b < |s|
      ensures !Less(s[b], s[a])
    {
      if b == j && a < j - 1 {
        assert !Less(pt[j - 1], pt[a]);
      }
    }
  }

  lemma SwapPermutes(pt: seq<PowerEntry>, i: nat, j: nat)
    requires j < i < |pt|
    ensures multiset(pt[i := pt[j]][j := pt[i]]) == multiset(pt)
  {
    var s := pt[i := pt[j]];
    assert multiset(s) == multiset(pt) - multiset{pt[i]} + multiset{pt[j]};
    assert multiset(s[j := pt[i]]) == multiset(s) - multiset{s[j]} + multiset{pt[i]};
  }

  lemma {:induction false} TotalWithout(pt: seq<PowerEntry>, k: nat)
    requires k < |pt|
    ensures TotalPower(pt) == TotalPower(pt[..k] + pt[k + 1..]) + pt[k].power
  {
    var n := |pt| - 1;
    if k < n {
      var rest := pt[..k] + pt[k + 1..];
      TotalWithout(pt[..n], k);
      assert rest[..n - 1] == pt[..n][..k] + pt[..n][k + 1..];
    } else {
      assert pt[..k] + pt[k + 1..] == pt[..n];
    }
  }

  lemma {:induction false} TotalPermutation(a: seq<PowerEntry>, b: seq<PowerEntry>)
    requires multiset(a) == multiset(b)
    ensures TotalPower(a) == TotalPower(b)
  {
    PermutationMembers(a, b);
    if a != [] {
      var n := |a| - 1;
      assert a[n] in b;
      var k :| 0 <= k < |b| && b[k] == a[n];
      RemoveAt(a, n);
      RemoveAt(b, k);
      assert a[..n] + a[n + 1..] == a[..n];
      TotalPermutation(a[..n], b[..k] + b[k + 1..]);
      TotalWithout(b, k);
    }
  }

  /** Sorting a valid table leaves a valid table with strictly ordered neighbours. */
  lemma SortedIsValid(a: seq<PowerEntry>, b: seq<PowerEntry>)
    requires ValidTable(a) && multiset(a) == multiset(b) && Sorted(Less, b)
    ensures ValidTable(b) && TotalPower(a) == TotalPower(b)
    ensures forall i :: 0 < i < |b| ==> Less(b[i - 1], b[i])
  {
    ToMapPermutation(a, b);
    PermutationMembers(a, b);
    TotalPermutation(a, b);
    assert forall i :: 0 <= i < |b| ==> b[i] in a;
  }
}
