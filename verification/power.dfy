/** Power tables as the protocol reads them (gpbft/powertable.go). */
module Power {
  import opened Basics
  import opened Weights

  datatype PowerEntry = PowerEntry(id: ActorID, power: int, pubKey: Bytes)

  datatype RawTable = RawTable(
    entries: seq<PowerEntry>,
    scaledPower: seq<nat>,
    lookup: map<ActorID, nat>,
    total: int,
    scaledTotal: nat)

  /** `lookup` inverts `entries`, and the scaled total is the sum of the scaled powers. */
  ghost predicate Consistent(t: RawTable) {
    && |t.entries| == |t.scaledPower|
    && (forall id :: id in t.lookup ==> t.lookup[id] < |t.entries| && t.entries[t.lookup[id]].id == id)
    && (forall i :: 0 <= i < |t.entries| ==> t.entries[i].id in t.lookup && t.lookup[t.entries[i].id] == i)
    && t.scaledTotal == Total(t.scaledPower)
  }

  type PowerTable = t: RawTable | Consistent(t) ghost witness RawTable([], [], map[], 0, 0)

  /** The scaled power of an actor, zero when it is not in the table. */
  function Get(t: PowerTable, id: ActorID): nat {
    if id in t.lookup then t.scaledPower[t.lookup[id]] else 0
  }

  /** The positions of a set of actors. */
  ghost function Indices(t: PowerTable, ids: set<ActorID>): set<nat> {
    set i | 0 <= i < |t.entries| && t.entries[i].id in ids
  }

  ghost function PowerOf(t: PowerTable, ids: set<ActorID>): nat {
    Weight(t.scaledPower, Indices(t, ids))
  }

  lemma PowerOfAdd(t: PowerTable, ids: set<ActorID>, id: ActorID)
    requires id !in ids
    ensures PowerOf(t, ids + {id}) == PowerOf(t, ids) + Get(t, id)
  {
    if id in t.lookup {
      assert Indices(t, ids + {id}) == Indices(t, ids) + {t.lookup[id]};
      Disjoint(t.scaledPower, Indices(t, ids), {t.lookup[id]});
      Singleton(t.scaledPower, t.lookup[id]);
    } else {
      assert Indices(t, ids + {id}) == Indices(t, ids);
    }
  }

  lemma PowerOfMonotone(t: PowerTable, a: set<ActorID>, b: set<ActorID>)
    requires a <= b
    ensures PowerOf(t, a) <= PowerOf(t, b) <= t.scaledTotal
  {
    Monotone(t.scaledPower, Indices(t, a), Indices(t, b));
    AtMostTotal(t.scaledPower, Indices(t, b));
  }

  lemma PowerOfDisjoint(t: PowerTable, a: set<ActorID>, b: set<ActorID>)
    requires a !! b
    ensures PowerOf(t, a + b) == PowerOf(t, a) + PowerOf(t, b) <= t.scaledTotal
  {
    assert Indices(t, a + b) == Indices(t, a) + Indices(t, b);
    assert Indices(t, a) !! Indices(t, b);
    Disjoint(t.scaledPower, Indices(t, a), Indices(t, b));
    AtMostTotal(t.scaledPower, Indices(t, a + b));
  }

  lemma PowerOfNone(t: PowerTable)
    ensures PowerOf(t, {}) == 0
  {
    assert Indices(t, {}) == {};
    Empty(t.scaledPower);
  }
}

/** Strong and weak quorums, and the honest overlap of two strong ones (gpbft/gpbft.go). */
module Quorums {
  import opened Basics
  import opened Weights
  import opened Power

  function DivCeil(a: nat, b: nat): nat
    requires b > 0
  {
    if a % b != 0 then a / b + 1 else a / b
  }

  predicate IsStrongQuorum(part: nat, whole: nat) {
    part >= DivCeil(2 * whole, 3)
  }

  predicate HasWeakQuorum(part: nat, whole: nat) {
    part > DivCeil(whole, 3)
  }

  /** The fault bound: strictly less than a third of the scaled power is Byzantine. */
  ghost predicate FaultBound(t: PowerTable, byzantine: set<ActorID>) {
    3 * PowerOf(t, byzantine) < t.scaledTotal
  }

  lemma StrongQuorumMeaning(part: nat, whole: nat)
    ensures IsStrongQuorum(part, whole) <==> 3 * part >= 2 * whole
  {
  }

  /** More than a third, by at least a whole unit. */
  lemma WeakQuorumMeaning(part: nat, whole: nat)
    ensures HasWeakQuorum(part, whole) <==> 3 * part >= whole + 3
  {
  }

  /** A weak quorum has an honest member. */
  lemma WeakQuorumHasHonest(t: PowerTable, byzantine: set<ActorID>, ids: set<ActorID>) returns (id: ActorID)
    requires FaultBound(t, byzantine) && HasWeakQuorum(PowerOf(t, ids), t.scaledTotal)
    ensures id in ids && id !in byzantine
  {
    var i := Outside(t.scaledPower, Indices(t, ids), Indices(t, byzantine));
    id := t.entries[i].id;
  }

  /** A strong quorum has an honest member. */
  lemma QuorumHasHonest(t: PowerTable, byzantine: set<ActorID>, signers: set<nat>) returns (i: nat)
    requires FaultBound(t, byzantine)
    requires IsStrongQuorum(Weight(t.scaledPower, signers), t.scaledTotal)
    ensures i < |t.entries| && i in signers && t.entries[i].id !in byzantine
  {
    i := Outside(t.scaledPower, signers, Indices(t, byzantine));
  }

  /** Two strong quorums share an honest member. */
  lemma QuorumsShareHonest(t: PowerTable, byzantine: set<ActorID>, a: set<nat>, b: set<nat>) returns (i: nat)
    requires FaultBound(t, byzantine)
    requires IsStrongQuorum(Weight(t.scaledPower, a), t.scaledTotal)
    requires IsStrongQuorum(Weight(t.scaledPower, b), t.scaledTotal)
    ensures i < |t.entries| && i in a && i in b && t.entries[i].id !in byzantine
  {
    UnionIntersection(t.scaledPower, a, b);
    AtMostTotal(t.scaledPower, a + b);
    i := Outside(t.scaledPower, a * b, Indices(t, byzantine));
  }
}
