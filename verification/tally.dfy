/** Declarative tallies: the first vote of each sender, and what its sums say
    (the quorumState queries of gpbft/gpbft.go). */
module Tallies {
  import opened Basics
  import opened Chains
  import opened Weights
  import opened Power
  import opened Quorums

  /** The first chain received from each sender. */
  type Tally = map<ActorID, Chain>

  /** Later votes of a sender are dropped. */
  function Record(t: Tally, sender: ActorID, v: Chain): Tally {
    if sender in t then t else t[sender := v]
  }

  /** The senders whose one vote is `v`. */
  function Supporters(t: Tally, v: Chain): set<ActorID> {
    set id | id in t && t[id] == v
  }

  /** A QUALITY vote counts once for each of its prefixes beyond the base. */
  function PrefixSupporters(t: Tally, v: Chain): set<ActorID> {
    set id | id in t && |v| >= 2 && v <= t[id]
  }

  ghost predicate QuorumOf(p: PowerTable, ids: set<ActorID>) {
    ids != {} && IsStrongQuorum(PowerOf(p, ids), p.scaledTotal)
  }

  ghost predicate HasQuorum(p: PowerTable, t: Tally, v: Chain) {
    QuorumOf(p, Supporters(t, v))
  }

  ghost predicate HasPrefixQuorum(p: PowerTable, t: Tally, v: Chain) {
    QuorumOf(p, PrefixSupporters(t, v))
  }

  ghost predicate ReceivedFromStrongQuorum(p: PowerTable, t: Tally) {
    IsStrongQuorum(PowerOf(p, t.Keys), p.scaledTotal)
  }

  ghost predicate ReceivedFromWeakQuorum(p: PowerTable, t: Tally) {
    HasWeakQuorum(PowerOf(p, t.Keys), p.scaledTotal)
  }

  /** Whether the votes not yet seen, and possibly a double-voting third, could still carry `v`. */
  ghost predicate CouldReach(p: PowerTable, t: Tally, v: Chain, withAdversary: bool) {
    PowerOfMonotone(p, t.Keys, t.Keys);
    var unvoted := p.scaledTotal - PowerOf(p, t.Keys);
    var adversary := if withAdversary then p.scaledTotal / 3 else 0;
    var possible := PowerOf(p, Supporters(t, v)) + unvoted + adversary;
    IsStrongQuorum(if possible <= p.scaledTotal then possible else p.scaledTotal, p.scaledTotal)
  }

  /** The longest prefix of `c` with at most `n` tipsets and a quorum, else the base of `c`. */
  ghost function LongestQuorumPrefix(p: PowerTable, t: Tally, c: Chain, n: nat): Chain
    requires n <= |c|
  {
    if n == 0 then BaseChain(c)
    else if HasPrefixQuorum(p, t, c[..n]) then c[..n]
    else LongestQuorumPrefix(p, t, c, n - 1)
  }

  lemma {:induction false} LongestQuorumPrefixMeaning(p: PowerTable, t: Tally, c: Chain, n: nat)
    requires n <= |c|
    ensures var r := LongestQuorumPrefix(p, t, c, n);
      && r <= c
      && (r == BaseChain(c) || HasPrefixQuorum(p, t, r))
      && (forall k :: |r| < k <= n ==> !HasPrefixQuorum(p, t, c[..k]))
  {
    if n > 0 && !HasPrefixQuorum(p, t, c[..n]) {
      LongestQuorumPrefixMeaning(p, t, c, n - 1);
    }
  }

  /** Shorter prefixes have at least the support of longer ones. */
  lemma PrefixQuorumDown(p: PowerTable, t: Tally, short: Chain, long: Chain)
    requires short <= long && |short| >= 2
    requires HasPrefixQuorum(p, t, long)
    ensures HasPrefixQuorum(p, t, short)
  {
    assert PrefixSupporters(t, long) <= PrefixSupporters(t, short);
    PowerOfMonotone(p, PrefixSupporters(t, long), PrefixSupporters(t, short));
  }

  /** A quorum is never lost by recording further votes. */
  lemma QuorumsPersist(p: PowerTable, t: Tally, sender: ActorID, w: Chain, v: Chain)
    ensures HasQuorum(p, t, v) ==> HasQuorum(p, Record(t, sender, w), v)
    ensures HasPrefixQuorum(p, t, v) ==> HasPrefixQuorum(p, Record(t, sender, w), v)
  {
    var t' := Record(t, sender, w);
    PowerOfMonotone(p, Supporters(t, v), Supporters(t', v));
    PowerOfMonotone(p, PrefixSupporters(t, v), PrefixSupporters(t', v));
  }

  /** At most one value of a single-vote tally has a strong quorum. */
  lemma QuorumValueUnique(p: PowerTable, t: Tally, v: Chain, w: Chain)
    requires p.scaledTotal > 0
    requires HasQuorum(p, t, v) && HasQuorum(p, t, w)
    ensures v == w
  {
    if v != w {
      PowerOfDisjoint(p, Supporters(t, v), Supporters(t, w));
    }
  }

  /** Votes split between a value and the rest. */
  lemma SupportAndRest(p: PowerTable, t: Tally, v: Chain)
    ensures PowerOf(p, t.Keys) == PowerOf(p, Supporters(t, v)) + PowerOf(p, t.Keys - Supporters(t, v))
    ensures PowerOf(p, t.Keys) <= p.scaledTotal
  {
    PowerOfDisjoint(p, Supporters(t, v), t.Keys - Supporters(t, v));
    assert Supporters(t, v) + (t.Keys - Supporters(t, v)) == t.Keys;
  }

  /** If every vote so far is for `v` then a quorum for `v` is still possible, and is reached
      as soon as a strong quorum of senders has been heard from. */
  lemma UnanimousTally(p: PowerTable, t: Tally, v: Chain)
    requires p.scaledTotal > 0
    requires forall id :: id in t ==> t[id] == v
    ensures CouldReach(p, t, v, false)
    ensures ReceivedFromStrongQuorum(p, t) ==> HasQuorum(p, t, v)
  {
    assert Supporters(t, v) == t.Keys;
    PowerOfMonotone(p, t.Keys, t.Keys);
    if t.Keys == {} {
      PowerOfNone(p);
    }
  }

  /** Without the adversary term the test is exact: it holds just when some completion of the
      tally by the actors not yet heard from gives `v` a strong quorum. */
  lemma CouldReachExact(p: PowerTable, t: Tally, v: Chain)
    ensures CouldReach(p, t, v, false) <==>
      exists more: Tally :: more.Keys !! t.Keys
        && IsStrongQuorum(PowerOf(p, Supporters(t + more, v)), p.scaledTotal)
  {
    SupportAndRest(p, t, v);
    var everyone := p.lookup.Keys;
    if CouldReach(p, t, v, false) {
      var more: Tally := map id | id in everyone - t.Keys :: v;
      var rest := t.Keys - Supporters(t, v);
      assert Supporters(t + more, v) !! rest;
      PowerOfDisjoint(p, Supporters(t + more, v), rest);
      assert forall i :: 0 <= i < |p.entries| ==> i in Indices(p, Supporters(t + more, v) + rest);
      Full(p.scaledPower, Indices(p, Supporters(t + more, v) + rest));
      assert more.Keys !! t.Keys && IsStrongQuorum(PowerOf(p, Supporters(t + more, v)), p.scaledTotal);
    }
    forall more: Tally | more.Keys !! t.Keys
      && IsStrongQuorum(PowerOf(p, Supporters(t + more, v)), p.scaledTotal)
      ensures CouldReach(p, t, v, false)
    {
      var rest := t.Keys - Supporters(t, v);
      assert Supporters(t + more, v) !! rest;
      PowerOfDisjoint(p, Supporters(t + more, v), rest);
    }
  }

  /** The test with the adversary term misses no quorum that really exists: if a strong quorum of
      positions `q` holds only actors that are Byzantine, or that this tally has not heard from, or
      whose vote it holds as `v`, then the test is passed. */
  lemma CouldReachSound(p: PowerTable, t: Tally, v: Chain, q: set<nat>, byzantine: set<ActorID>)
    requires FaultBound(p, byzantine)
    requires IsStrongQuorum(Weight(p.scaledPower, q), p.scaledTotal)
    requires forall i :: i in q && i < |p.entries| && p.entries[i].id !in byzantine ==>
               p.entries[i].id in t ==> t[p.entries[i].id] == v
    ensures CouldReach(p, t, v, true)
  {
    var rest := t.Keys - Supporters(t, v);
    SupportAndRest(p, t, v);
    Difference(p.scaledPower, q, Indices(p, rest) - Indices(p, byzantine));
    var kept := q - (Indices(p, rest) - Indices(p, byzantine));
    Monotone(p.scaledPower, q, kept);
    Difference(p.scaledPower, kept, Indices(p, byzantine));
    Disjoint(p.scaledPower, kept - Indices(p, byzantine), Indices(p, rest));
    AtMostTotal(p.scaledPower, (kept - Indices(p, byzantine)) + Indices(p, rest));
    AtMostTotal(p.scaledPower, q);
  }

  // ---------- the signers chosen for a justification ----------

  ghost function SumAt(w: seq<nat>, ix: seq<nat>): nat
    requires forall k :: 0 <= k < |ix| ==> ix[k] < |w|
  {
    if |ix| == 0 then 0 else SumAt(w, ix[..|ix| - 1]) + w[ix[|ix| - 1]]
  }

  ghost predicate Increasing(ix: seq<nat>) {
    forall j, k :: 0 <= j < k < |ix| ==> ix[j] < ix[k]
  }

  ghost predicate NonIncreasing(w: seq<nat>) {
    forall j, k :: 0 <= j < k < |w| ==> w[j] >= w[k]
  }

  function ToSet(ix: seq<nat>): set<nat> {
    set k | 0 <= k < |ix| :: ix[k]
  }

  /** The table positions below `n` of a set of actors, in increasing order. */
  function PositionsOf(p: PowerTable, ids: set<ActorID>, n: nat): (ix: seq<nat>)
    requires n <= |p.entries|
    ensures forall k :: 0 <= k < |ix| ==> ix[k] < n && p.entries[ix[k]].id in ids
  {
    if n == 0 then []
    else if p.entries[n - 1].id in ids then PositionsOf(p, ids, n - 1) + [n - 1]
    else PositionsOf(p, ids, n - 1)
  }

  /** The length of the first prefix of `ix`, longer than `k`, that carries a strong quorum;
      zero if there is none. */
  ghost function QuorumLength(w: seq<nat>, whole: nat, ix: seq<nat>, k: nat): nat
    requires forall j :: 0 <= j < |ix| ==> ix[j] < |w|
    requires k <= |ix|
    decreases |ix| - k
  {
    if k == |ix| then 0
    else if IsStrongQuorum(SumAt(w, ix[..k + 1]), whole) then k + 1
    else QuorumLength(w, whole, ix, k + 1)
  }

  /** The signers FindStrongQuorumFor returns for `v`, by table position. */
  ghost function QuorumSigners(p: PowerTable, ids: set<ActorID>): seq<nat> {
    var ix := PositionsOf(p, ids, |p.entries|);
    ix[..QuorumLengthIn(p, ix)]
  }

  ghost function QuorumLengthIn(p: PowerTable, ix: seq<nat>): (m: nat)
    requires forall j :: 0 <= j < |ix| ==> ix[j] < |p.entries|
    ensures m <= |ix|
  {
    QuorumLengthMeaning(p.scaledPower, p.scaledTotal, ix, 0);
    QuorumLength(p.scaledPower, p.scaledTotal, ix, 0)
  }

  lemma {:induction false} QuorumLengthMeaning(w: seq<nat>, whole: nat, ix: seq<nat>, k: nat)
    requires forall j :: 0 <= j < |ix| ==> ix[j] < |w|
    requires k <= |ix|
    ensures var m := QuorumLength(w, whole, ix, k);
      && m <= |ix|
      && (m > 0 ==> m > k && IsStrongQuorum(SumAt(w, ix[..m]), whole))
      && (forall j :: k < j <= |ix| && IsStrongQuorum(SumAt(w, ix[..j]), whole) ==> 0 < m <= j)
    decreases |ix| - k
  {
    if k < |ix| && !IsStrongQuorum(SumAt(w, ix[..k + 1]), whole) {
      QuorumLengthMeaning(w, whole, ix, k + 1);
    }
  }

  lemma {:induction false} PositionsIncrease(p: PowerTable, ids: set<ActorID>, n: nat)
    requires n <= |p.entries|
    ensures Increasing(PositionsOf(p, ids, n))
  {
    if n > 0 {
      PositionsIncrease(p, ids, n - 1);
    }
  }

  lemma {:induction false} PositionsComplete(p: PowerTable, ids: set<ActorID>, n: nat, i: nat)
    requires i < n <= |p.entries| && p.entries[i].id in ids
    ensures i in PositionsOf(p, ids, n)
  {
    if i < n - 1 {
      PositionsComplete(p, ids, n - 1, i);
    }
  }

  lemma {:induction false} SumAtIsWeight(w: seq<nat>, ix: seq<nat>)
    requires forall k :: 0 <= k < |ix| ==> ix[k] < |w|
    requires Increasing(ix)
    ensures SumAt(w, ix) == Weight(w, ToSet(ix))
  {
    if |ix| == 0 {
      assert ToSet(ix) == {};
      Empty(w);
    } else {
      var init, last := ix[..|ix| - 1], ix[|ix| - 1];
      SumAtIsWeight(w, init);
      assert ToSet(ix) == ToSet(init) + {last} by {
        assert ix == init + [last];
      }
      assert last !in ToSet(init);
      Disjoint(w, ToSet(init), {last});
      Singleton(w, last);
    }
  }

  lemma ToSetLast(ix: seq<nat>)
    requires |ix| > 0 && Increasing(ix)
    ensures ToSet(ix) == ToSet(ix[..|ix| - 1]) + {ix[|ix| - 1]}
    ensures ix[|ix| - 1] !in ToSet(ix[..|ix| - 1])
  {
    assert ix == ix[..|ix| - 1] + [ix[|ix| - 1]];
  }

  lemma SumAtLast(w: seq<nat>, ix: seq<nat>, n: nat)
    requires forall k :: 0 <= k < |ix| ==> ix[k] < |w|
    requires n < |ix|
    ensures SumAt(w, ix[..n + 1]) == SumAt(w, ix[..n]) + w[ix[n]]
  {
    assert ix[..n + 1][..n] == ix[..n];
  }

  /** No set of `k` positions out of `ix` outweighs its first `k`. */
  lemma {:induction false} FirstAreHeaviest(w: seq<nat>, ix: seq<nat>, s: set<nat>)
    requires forall k :: 0 <= k < |ix| ==> ix[k] < |w|
    requires Increasing(ix) && NonIncreasing(w)
    requires s <= ToSet(ix)
    ensures |s| <= |ix|
    ensures Weight(w, s) <= SumAt(w, ix[..|s|])
    decreases |ix|, 1
  {
    if |ix| == 0 {
      assert s == {};
      Empty(w);
    } else {
      var s' := s - {ix[|ix| - 1]};
      HeaviestInit(w, ix, s');
      if s == s' {
      } else {
        assert s == s' + {ix[|ix| - 1]};
        AddLightest(w, ix, s');
      }
    }
  }

  lemma {:induction false} HeaviestInit(w: seq<nat>, ix: seq<nat>, s: set<nat>)
    requires forall k :: 0 <= k < |ix| ==> ix[k] < |w|
    requires ix != [] && Increasing(ix) && NonIncreasing(w)
    requires s <= ToSet(ix) && ix[|ix| - 1] !in s
    ensures |s| < |ix| && Weight(w, s) <= SumAt(w, ix[..|s|])
    decreases |ix|, 0
  {
    var init := ix[..|ix| - 1];
    ToSetLast(ix);
    FirstAreHeaviest(w, init, s);
    assert ix[..|s|] == init[..|s|];
  }

  /** Adding the last position of `ix` adds no more than extending the initial run does. */
  lemma AddLightest(w: seq<nat>, ix: seq<nat>, s: set<nat>)
    requires forall k :: 0 <= k < |ix| ==> ix[k] < |w|
    requires ix != [] && Increasing(ix) && NonIncreasing(w)
    requires ix[|ix| - 1] !in s && |s| < |ix| && Weight(w, s) <= SumAt(w, ix[..|s|])
    ensures Weight(w, s + {ix[|ix| - 1]}) <= SumAt(w, ix[..|s| + 1])
  {
    var last := ix[|ix| - 1];
    Disjoint(w, s, {last});
    Singleton(w, last);
    SumAtLast(w, ix, |s|);
    assert ix[|s|] <= last;
  }

  /** A strong quorum of supporters is at least as large as the one found. */
  lemma QuorumSignersSmallest(p: PowerTable, ids: set<ActorID>, q: set<nat>)
    requires p.scaledTotal > 0
    requires NonIncreasing(p.scaledPower)
    requires q <= Indices(p, ids) && IsStrongQuorum(Weight(p.scaledPower, q), p.scaledTotal)
    ensures |QuorumSigners(p, ids)| <= |q|
  {
    var all := PositionsOf(p, ids, |p.entries|);
    PositionsAreIndices(p, ids);
    FirstAreHeaviest(p.scaledPower, all, q);
    QuorumLengthMeaning(p.scaledPower, p.scaledTotal, all, 0);
    if q == {} {
      Empty(p.scaledPower);
    }
  }

  lemma PositionsAreIndices(p: PowerTable, ids: set<ActorID>)
    ensures ToSet(PositionsOf(p, ids, |p.entries|)) == Indices(p, ids)
    ensures Increasing(PositionsOf(p, ids, |p.entries|))
  {
    PositionsIncrease(p, ids, |p.entries|);
    forall i | i in Indices(p, ids)
      ensures i in PositionsOf(p, ids, |p.entries|)
    {
      PositionsComplete(p, ids, |p.entries|, i);
    }
  }

  /** What FindStrongQuorumFor returns: increasing positions of supporters that form a strong
      quorum. */
  lemma QuorumSignersMeaning(p: PowerTable, ids: set<ActorID>)
    requires QuorumOf(p, ids)
    requires forall id :: id in ids ==> id in p.lookup
    ensures var ix := QuorumSigners(p, ids);
      && ix != [] && Increasing(ix)
      && (forall k :: 0 <= k < |ix| ==> ix[k] < |p.entries| && p.entries[ix[k]].id in ids)
      && IsStrongQuorum(Weight(p.scaledPower, ToSet(ix)), p.scaledTotal)
  {
    var all := PositionsOf(p, ids, |p.entries|);
    AllPositionsCarry(p, ids);
    QuorumLengthMeaning(p.scaledPower, p.scaledTotal, all, 0);
    SumAtIsWeight(p.scaledPower, QuorumSigners(p, ids));
  }

  lemma AllPositionsCarry(p: PowerTable, ids: set<ActorID>)
    requires QuorumOf(p, ids)
    requires forall id :: id in ids ==> id in p.lookup
    ensures var all := PositionsOf(p, ids, |p.entries|);
      all != [] && Increasing(all) && IsStrongQuorum(SumAt(p.scaledPower, all[..|all|]), p.scaledTotal)
  {
    var all := PositionsOf(p, ids, |p.entries|);
    PositionsAreIndices(p, ids);
    var id :| id in ids;
    assert p.lookup[id] in Indices(p, ids);
    assert p.lookup[id] in ToSet(all);
    SumAtIsWeight(p.scaledPower, all);
    assert all[..|all|] == all;
  }
}
