/** The incremental tally, updated in place, and its refinement of the declarative one
    (quorumState in gpbft/gpbft.go). */
module QuorumStates {
  import opened Basics
  import opened Chains
  import opened Power
  import opened Quorums
  import opened Tallies
  import opened Messages
  import opened Sorting

  /** A chain's power so far, and the signatures behind it; QUALITY votes are kept without one. */
  datatype ChainSupport = ChainSupport(power: nat, signatures: map<ActorID, Bytes>, hasStrongQuorum: bool)

  /** One more sender counted for one chain. */
  function AddSupport(t: PowerTable, cs: map<Chain, ChainSupport>, sender: ActorID, v: Chain, power: nat,
      signature: Bytes)
    : map<Chain, ChainSupport>
  {
    var before := if v in cs then cs[v] else ChainSupport(0, map[], false);
    cs[v := ChainSupport(before.power + power, before.signatures[sender := signature],
                         IsStrongQuorum(before.power + power, t.scaledTotal))]
  }

  ghost function Count(votes: Tally, eachPrefix: bool, v: Chain): set<ActorID> {
    if eachPrefix then PrefixSupporters(votes, v) else Supporters(votes, v)
  }

  /** The senders counted for `v` when one further sender has been counted for `extra` only. */
  ghost function CountWith(votes: Tally, eachPrefix: bool, sender: ActorID, extra: set<Chain>, v: Chain): set<ActorID> {
    Count(votes, eachPrefix, v) + if v in extra then {sender} else {}
  }

  ghost predicate SupportOk(t: PowerTable, s: ChainSupport, ids: set<ActorID>) {
    && s.signatures.Keys == ids
    && s.power == PowerOf(t, ids)
    && s.hasStrongQuorum == IsStrongQuorum(s.power, t.scaledTotal)
  }

  ghost predicate SumsMatch(t: PowerTable, cs: map<Chain, ChainSupport>, votes: Tally, eachPrefix: bool,
                            sender: ActorID, extra: set<Chain>)
  {
    forall v {:trigger v in cs} {:trigger CountWith(votes, eachPrefix, sender, extra, v)} ::
      Matches(t, cs, v, CountWith(votes, eachPrefix, sender, extra, v))
  }

  ghost predicate Matches(t: PowerTable, cs: map<Chain, ChainSupport>, v: Chain, ids: set<ActorID>) {
    (v in cs <==> ids != {}) && (v in cs ==> SupportOk(t, cs[v], ids))
  }

  lemma AddSupportHere(t: PowerTable, cs: map<Chain, ChainSupport>, v: Chain, ids: set<ActorID>, sender: ActorID,
      signature: Bytes)
    requires Matches(t, cs, v, ids) && sender !in ids
    ensures v in cs ==> sender !in cs[v].signatures
    ensures Matches(t, AddSupport(t, cs, sender, v, Get(t, sender), signature), v, ids + {sender})
  {
    PowerOfAdd(t, ids, sender);
    PowerOfNone(t);
  }

  lemma AddSupportOk(t: PowerTable, cs: map<Chain, ChainSupport>, votes: Tally, eachPrefix: bool,
                     sender: ActorID, extra: set<Chain>, v: Chain, signature: Bytes)
    requires SumsMatch(t, cs, votes, eachPrefix, sender, extra)
    requires sender !in votes && v !in extra
    ensures v in cs ==> sender !in cs[v].signatures
    ensures SumsMatch(
      t, AddSupport(t, cs, sender, v, Get(t, sender), signature), votes, eachPrefix, sender, extra + {v})
  {
    assert Matches(t, cs, v, CountWith(votes, eachPrefix, sender, extra, v));
    forall x
      ensures Matches(t, AddSupport(t, cs, sender, v, Get(t, sender), signature), x,
        CountWith(votes, eachPrefix, sender, extra + {v}, x))
    {
      assert Matches(t, cs, x, CountWith(votes, eachPrefix, sender, extra, x));
      AddSupportAt(t, cs, votes, eachPrefix, sender, extra, v, signature, x);
    }
  }

  lemma AddSupportAt(t: PowerTable, cs: map<Chain, ChainSupport>, votes: Tally, eachPrefix: bool,
                     sender: ActorID, extra: set<Chain>, v: Chain, signature: Bytes, x: Chain)
    requires Matches(t, cs, x, CountWith(votes, eachPrefix, sender, extra, x)) && sender !in votes && v !in extra
    ensures Matches(t, AddSupport(t, cs, sender, v, Get(t, sender), signature), x,
      CountWith(votes, eachPrefix, sender, extra + {v}, x))
  {
    var ids := CountWith(votes, eachPrefix, sender, extra, x);
    if x == v {
      AddSupportHere(t, cs, v, ids, sender, signature);
      assert CountWith(votes, eachPrefix, sender, extra + {v}, x) == ids + {sender};
    } else {
      AddSupportElsewhere(t, cs, sender, v, Get(t, sender), signature, x, ids);
      assert CountWith(votes, eachPrefix, sender, extra + {v}, x) == ids;
    }
  }

  lemma AddSupportElsewhere(t: PowerTable, cs: map<Chain, ChainSupport>, sender: ActorID, v: Chain, power: nat,
      signature: Bytes, x: Chain, ids: set<ActorID>)
    requires x != v && Matches(t, cs, x, ids)
    ensures Matches(t, AddSupport(t, cs, sender, v, power, signature), x, ids)
  {
  }

  /** The chains a new vote counts for. */
  ghost function CountedChains(value: Chain, eachPrefix: bool, n: nat): set<Chain>
    requires n <= |value|
  {
    if eachPrefix then set k | 2 <= k <= n :: value[..k] else {value}
  }

  lemma CountsAfter(votes: Tally, eachPrefix: bool, sender: ActorID, value: Chain, v: Chain)
    requires sender !in votes
    ensures Count(votes[sender := value], eachPrefix, v)
         == CountWith(votes, eachPrefix, sender, CountedChains(value, eachPrefix, |value|), v)
  {
    if eachPrefix && |v| >= 2 && v <= value {
      assert v == value[..|v|];
    }
  }

  lemma SumsAfter(t: PowerTable, cs: map<Chain, ChainSupport>, votes: Tally, eachPrefix: bool, sender: ActorID,
      value: Chain)
    requires sender !in votes
    requires SumsMatch(t, cs, votes, eachPrefix, sender, CountedChains(value, eachPrefix, |value|))
    ensures SumsMatch(t, cs, votes[sender := value], eachPrefix, sender, {})
  {
    forall v
      ensures CountWith(votes[sender := value], eachPrefix, sender, {}, v)
           == CountWith(votes, eachPrefix, sender, CountedChains(value, eachPrefix, |value|), v)
    {
      CountsAfter(votes, eachPrefix, sender, value, v);
    }
  }

  lemma SumsAnySender(t: PowerTable, cs: map<Chain, ChainSupport>, votes: Tally, eachPrefix: bool, a: ActorID,
      b: ActorID)
    requires SumsMatch(t, cs, votes, eachPrefix, a, {})
    ensures SumsMatch(t, cs, votes, eachPrefix, b, {})
  {
    assert forall v :: CountWith(votes, eachPrefix, a, {}, v) == CountWith(votes, eachPrefix, b, {}, v);
  }

  /** The stored signatures are those that came with the first votes. */
  ghost predicate SignaturesMatch(cs: map<Chain, ChainSupport>, signed: map<ActorID, Bytes>) {
    forall v, id :: v in cs && id in cs[v].signatures ==> id in signed && cs[v].signatures[id] == signed[id]
  }

  /** The sender is counted for the prefixes beyond the base of up to `n` tipsets. */
  ghost predicate PrefixesCounted(t: PowerTable, cs: map<Chain, ChainSupport>, votes: Tally, sender: ActorID,
      values: Chain, n: nat)
  {
    n <= |values| && SumsMatch(t, cs, votes, true, sender, CountedChains(values, true, n))
  }

  lemma NoPrefixCounted(t: PowerTable, cs: map<Chain, ChainSupport>, votes: Tally, sender: ActorID, values: Chain,
      n: nat)
    requires SumsMatch(t, cs, votes, true, 0, {}) && n <= 1 && n <= |values|
    ensures PrefixesCounted(t, cs, votes, sender, values, n)
  {
    SumsAnySender(t, cs, votes, true, 0, sender);
    assert CountedChains(values, true, n) == {};
  }

  lemma PrefixCounted(t: PowerTable, cs: map<Chain, ChainSupport>, votes: Tally, sender: ActorID, values: Chain, n: nat,
      prefix: Chain)
    requires 1 <= n < |values| && prefix == values[..n + 1] && sender !in votes
    requires PrefixesCounted(t, cs, votes, sender, values, n)
    ensures prefix in cs ==> sender !in cs[prefix].signatures
    ensures PrefixesCounted(t, AddSupport(t, cs, sender, prefix, Get(t, sender), []), votes, sender, values, n + 1)
  {
    AddSupportOk(t, cs, votes, true, sender, CountedChains(values, true, n), prefix, []);
    assert CountedChains(values, true, n + 1) == CountedChains(values, true, n) + {prefix};
  }

  lemma AddSignature(t: PowerTable, cs: map<Chain, ChainSupport>, sender: ActorID, v: Chain, power: nat,
      signature: Bytes, signed: map<ActorID, Bytes>)
    requires SignaturesMatch(cs, signed) && sender in signed && signed[sender] == signature
    ensures SignaturesMatch(AddSupport(t, cs, sender, v, power, signature), signed)
  {
  }

  lemma SupportedIsVoted(t: PowerTable, cs: map<Chain, ChainSupport>, votes: Tally, v: Chain)
    requires SumsMatch(t, cs, votes, false, 0, {})
    ensures v in cs <==> v in votes.Values
  {
    assert CountWith(votes, false, 0, {}, v) == Supporters(votes, v);
    if v in votes.Values {
      var id :| id in votes && votes[id] == v;
      assert id in Supporters(votes, v);
    }
  }

  /** The signatures are those of the actors at the given positions. */
  ghost predicate SignaturesOf(t: PowerTable, signed: map<ActorID, Bytes>, signers: seq<nat>, signatures: seq<Bytes>) {
    && |signatures| == |signers|
    && forall k :: 0 <= k < |signers| ==>
         && signers[k] < |t.entries| && t.entries[signers[k]].id in signed
         && signatures[k] == signed[t.entries[signers[k]].id]
  }

  lemma SignaturesNext(t: PowerTable, signed: map<ActorID, Bytes>, positions: seq<nat>, i: nat, signatures: seq<Bytes>,
      signature: Bytes)
    requires i < |positions| && SignaturesOf(t, signed, positions[..i], signatures)
    requires positions[i] < |t.entries| && t.entries[positions[i]].id in signed
    requires signature == signed[t.entries[positions[i]].id]
    ensures SignaturesOf(t, signed, positions[..i + 1], signatures + [signature])
  {
    assert positions[..i + 1] == positions[..i] + [positions[i]];
  }

  class QuorumState {
    const table: PowerTable
    /** Whether a vote counts for each of its prefixes, as in QUALITY. */
    ghost const eachPrefix: bool
    /** The round that the tally is for. */
    ghost const round: nat
    var senders: set<ActorID>
    var sendersTotalPower: nat
    var chainSupport: map<Chain, ChainSupport>
    var receivedJustification: map<Chain, Justification>
    /** The first vote of each sender, and the signature that came with it. */
    ghost var votes: Tally
    ghost var signed: map<ActorID, Bytes>

    /** The running sums equal the sums over each sender's first vote. */
    ghost predicate Valid()
      reads this
    {
      && senders == votes.Keys
      && sendersTotalPower == PowerOf(table, votes.Keys)
      && SumsMatch(table, chainSupport, votes, eachPrefix, 0, {})
      && signed.Keys == votes.Keys && SignaturesMatch(chainSupport, signed)
    }

    constructor (table: PowerTable, ghost eachPrefix: bool, ghost round: nat)
      ensures Valid() && votes == map[] && receivedJustification == map[]
      ensures this.table == table && this.eachPrefix == eachPrefix && this.round == round
    {
      this.table := table;
      this.eachPrefix := eachPrefix;
      this.round := round;
      senders := {};
      sendersTotalPower := 0;
      chainSupport := map[];
      receivedJustification := map[];
      votes, signed := map[], map[];
      PowerOfNone(table);
      new;
    }

    /** Counts the sender's power once; `votes` follows in the callers. */
    method ReceiveSender(sender: ActorID) returns (power: nat, first: bool)
      requires sendersTotalPower == PowerOf(table, senders)
      modifies this`senders, this`sendersTotalPower
      ensures first == (sender !in old(senders))
      ensures senders == old(senders) + {sender}
      ensures sendersTotalPower == PowerOf(table, senders)
      ensures first ==> power == Get(table, sender)
    {
      first := sender !in senders;
      if !first {
        assert senders + {sender} == senders;
        return 0, false;
      }
      PowerOfAdd(table, senders, sender);
      senders := senders + {sender};
      power := Get(table, sender);
      sendersTotalPower := sendersTotalPower + power;
    }

    /** Adds one sender's power to one chain; a duplicate, on which the code panics, cannot occur. */
    method ReceiveInner(sender: ActorID, value: Chain, power: nat, signature: Bytes)
      requires value in chainSupport ==> sender !in chainSupport[value].signatures
      modifies this`chainSupport
      ensures chainSupport == AddSupport(table, old(chainSupport), sender, value, power, signature)
    {
      var candidate := ChainSupport(0, map[], false);
      if value in chainSupport {
        candidate := chainSupport[value];
      }
      candidate := candidate.(power := candidate.power + power);
      assert sender !in candidate.signatures;
      candidate := candidate.(signatures := candidate.signatures[sender := signature]);
      candidate := candidate.(hasStrongQuorum := IsStrongQuorum(candidate.power, table.scaledTotal));
      chainSupport := chainSupport[value := candidate];
    }

    method Receive(sender: ActorID, value: Chain, signature: Bytes)
      requires Valid() && !eachPrefix
      modifies this
      ensures Valid() && votes == Record(old(votes), sender, value)
      ensures signed == if sender in old(votes) then old(signed) else old(signed)[sender := signature]
      ensures receivedJustification == old(receivedJustification)
    {
      var power, first := ReceiveSender(sender);
      if first {
        signed := signed[sender := signature];
        CountOne(sender, value, power, signature);
        SumsAfter(table, chainSupport, votes, eachPrefix, sender, value);
        votes := votes[sender := value];
        SumsAnySender(table, chainSupport, votes, eachPrefix, sender, 0);
      }
    }

    /** Counts a new sender for one chain. */
    method CountOne(sender: ActorID, value: Chain, power: nat, signature: Bytes)
      requires !eachPrefix && sender !in votes && power == Get(table, sender)
      requires SumsMatch(table, chainSupport, votes, eachPrefix, 0, {})
      requires SignaturesMatch(chainSupport, signed) && sender in signed && signed[sender] == signature
      modifies this`chainSupport
      ensures SumsMatch(table, chainSupport, votes, eachPrefix, sender, CountedChains(value, eachPrefix, |value|))
      ensures SignaturesMatch(chainSupport, signed)
    {
      SumsAnySender(table, chainSupport, votes, eachPrefix, 0, sender);
      AddSupportOk(table, chainSupport, votes, eachPrefix, sender, {}, value, signature);
      assert {} + {value} == CountedChains(value, eachPrefix, |value|);
      AddSignature(table, chainSupport, sender, value, power, signature, signed);
      ReceiveInner(sender, value, power, signature);
    }

    /** Counts a new sender for each prefix beyond the base. */
    method CountPrefixes(sender: ActorID, values: Chain, power: nat)
      requires eachPrefix && sender !in votes && power == Get(table, sender)
      requires SumsMatch(table, chainSupport, votes, eachPrefix, 0, {})
      requires SignaturesMatch(chainSupport, signed) && sender in signed && signed[sender] == []
      modifies this`chainSupport
      ensures SumsMatch(table, chainSupport, votes, eachPrefix, sender, CountedChains(values, eachPrefix, |values|))
      ensures SignaturesMatch(chainSupport, signed)
    {
      var n := if values == [] then 0 else 1;
      NoPrefixCounted(table, chainSupport, votes, sender, values, n);
      while n < |values|
        invariant n <= |values| && (values != [] ==> n >= 1)
        invariant PrefixesCounted(table, chainSupport, votes, sender, values, n)
        invariant SignaturesMatch(chainSupport, signed)
      {
        var prefix := values[..n + 1];
        PrefixCounted(table, chainSupport, votes, sender, values, n, prefix);
        AddSignature(table, chainSupport, sender, prefix, power, [], signed);
        ReceiveInner(sender, prefix, power, []);
        n := n + 1;
      }
    }

    method ReceiveEachPrefix(sender: ActorID, values: Chain)
      requires Valid() && eachPrefix
      modifies this
      ensures Valid() && votes == Record(old(votes), sender, values)
      ensures receivedJustification == old(receivedJustification)
    {
      var power, first := ReceiveSender(sender);
      if first {
        signed := signed[sender := []];
        CountPrefixes(sender, values, power);
        SumsAfter(table, chainSupport, votes, eachPrefix, sender, values);
        votes := votes[sender := values];
        SumsAnySender(table, chainSupport, votes, eachPrefix, sender, 0);
      }
    }

    method ReceiveJustification(value: Chain, justification: Justification)
      modifies this`receivedJustification
      ensures receivedJustification ==
        if value in old(receivedJustification) then old(receivedJustification)
        else old(receivedJustification)[value := justification]
    {
      if value !in receivedJustification {
        receivedJustification := receivedJustification[value := justification];
      }
    }

    method HasStrongQuorumFor(key: Chain) returns (b: bool)
      requires Valid()
      ensures b == QuorumOf(table, Count(votes, eachPrefix, key))
    {
      assert CountWith(votes, eachPrefix, 0, {}, key) == Count(votes, eachPrefix, key);
      b := key in chainSupport && chainSupport[key].hasStrongQuorum;
    }

    method HasReceivedFromStrongQuorum() returns (b: bool)
      requires Valid()
      ensures b == ReceivedFromStrongQuorum(table, votes)
    {
      b := IsStrongQuorum(sendersTotalPower, table.scaledTotal);
    }

    method HasReceivedFromWeakQuorum() returns (b: bool)
      requires Valid()
      ensures b == ReceivedFromWeakQuorum(table, votes)
    {
      b := HasWeakQuorum(sendersTotalPower, table.scaledTotal);
    }

    method CouldReachStrongQuorumFor(key: Chain, withAdversary: bool) returns (b: bool)
      requires Valid() && !eachPrefix
      ensures b == CouldReach(table, votes, key, withAdversary)
    {
      assert CountWith(votes, eachPrefix, 0, {}, key) == Supporters(votes, key);
      var supporting := 0;
      if key in chainSupport {
        supporting := chainSupport[key].power;
      }
      PowerOfNone(table);
      PowerOfMonotone(table, votes.Keys, votes.Keys);
      var unvoted := table.scaledTotal - sendersTotalPower;
      var adversary := 0;
      if withAdversary {
        adversary := table.scaledTotal / 3;
      }
      var possible := supporting + unvoted + adversary;
      b := IsStrongQuorum(if possible <= table.scaledTotal then possible else table.scaledTotal, table.scaledTotal);
    }

    /** The longest prefix of `preferred` with a strong quorum, or its base. */
    method FindStrongQuorumValueForLongestPrefixOf(preferred: Chain) returns (r: Chain)
      requires Valid() && eachPrefix
      ensures r == LongestQuorumPrefix(table, votes, preferred, |preferred|)
    {
      var found := HasStrongQuorumFor(preferred);
      assert preferred[..|preferred|] == preferred;
      if found && preferred != [] {
        return preferred;
      }
      var i := |preferred|;
      while i > 0
        invariant 0 <= i <= |preferred|
        invariant LongestQuorumPrefix(table, votes, preferred, |preferred|)
               == LongestQuorumPrefix(table, votes, preferred, i)
      {
        found := HasStrongQuorumFor(preferred[..i]);
        if found {
          return preferred[..i];
        }
        i := i - 1;
      }
      r := BaseChain(preferred);
    }

    /** The value with a strong quorum, if any; `many` reports the panic on two such values. */
    method FindStrongQuorumValue() returns (found: bool, value: Chain, many: bool)
      requires Valid() && !eachPrefix
      ensures many <==> exists v, x :: v != x && HasQuorum(table, votes, v) && HasQuorum(table, votes, x)
      ensures !many ==> (found <==> exists v :: HasQuorum(table, votes, v))
      ensures !many && found ==> HasQuorum(table, votes, value)
    {
      assert forall v :: CountWith(votes, eachPrefix, 0, {}, v) == Supporters(votes, v);
      found, value, many := false, BOTTOM, false;
      var todo := chainSupport.Keys;
      while todo != {}
        invariant todo <= chainSupport.Keys
        invariant !many
        invariant found ==> value in chainSupport && value !in todo && HasQuorum(table, votes, value)
        invariant forall v :: v in chainSupport && v !in todo && HasQuorum(table, votes, v) ==> found && v == value
        decreases |todo|
      {
        var key :| key in todo;
        todo := todo - {key};
        if chainSupport[key].hasStrongQuorum {
          if found {
            many := true;
            assert HasQuorum(table, votes, key) && HasQuorum(table, votes, value);
            return;
          }
          found, value := true, key;
        }
      }
    }

    /** The smallest prefix, in table order, of the supporters' positions that is a strong quorum,
        with their signatures; `panicked` reports a supporter outside the table or a quorum that
        cannot be found. */
    method FindStrongQuorumFor(key: Chain)
      returns (found: bool, signers: seq<nat>, signatures: seq<Bytes>, panicked: bool)
      requires Valid() && !eachPrefix
      ensures found == HasQuorum(table, votes, key)
      ensures panicked <==> found && (|| (exists id :: id in Supporters(votes, key) && id !in table.lookup)
                                      || QuorumSigners(table, Supporters(votes, key)) == [])
      ensures found && !panicked ==>
        signers == QuorumSigners(table, Supporters(votes, key)) && SignaturesOf(table, signed, signers, signatures)
    {
      assert CountWith(votes, eachPrefix, 0, {}, key) == Supporters(votes, key);
      if key !in chainSupport || !chainSupport[key].hasStrongQuorum {
        return false, [], [], false;
      }
      var ids := chainSupport[key].signatures.Keys;
      var known, positions := CollectPositions(ids);
      if !known {
        return true, [], [], true;
      }
      var unordered := positions;
      positions := Sort((x: nat, y: nat) => x < y, unordered);
      PositionsSorted(table, ids, unordered, positions);
      QuorumLengthMeaning(table.scaledPower, table.scaledTotal, positions, 0);
      var n: nat;
      n, signatures := Accumulate(key, positions);
      if n == 0 {
        return true, [], [], true;
      }
      return true, positions[..n], signatures, false;
    }

    /** Accumulates signers and signatures until they reach a strong quorum; zero when they do not. */
    method Accumulate(key: Chain, positions: seq<nat>) returns (n: nat, signatures: seq<Bytes>)
      requires key in chainSupport && SignaturesMatch(chainSupport, signed)
      requires forall k :: 0 <= k < |positions| ==>
        positions[k] < |table.entries| && table.entries[positions[k]].id in chainSupport[key].signatures
      ensures n == QuorumLength(table.scaledPower, table.scaledTotal, positions, 0)
      ensures n <= |positions| && (n > 0 ==> SignaturesOf(table, signed, positions[..n], signatures))
    {
      signatures := [];
      var power, i := 0, 0;
      while i < |positions|
        invariant 0 <= i <= |positions|
        invariant power == SumAt(table.scaledPower, positions[..i])
        invariant SignaturesOf(table, signed, positions[..i], signatures)
        invariant QuorumLength(table.scaledPower, table.scaledTotal, positions, 0)
               == QuorumLength(table.scaledPower, table.scaledTotal, positions, i)
      {
        SumAtLast(table.scaledPower, positions, i);
        power := power + table.scaledPower[positions[i]];
        var signature := chainSupport[key].signatures[table.entries[positions[i]].id];
        SignaturesNext(table, signed, positions, i, signatures, signature);
        signatures := signatures + [signature];
        if IsStrongQuorum(power, table.scaledTotal) {
          return i + 1, signatures;
        }
        i := i + 1;
      }
      n := 0;
    }

    /** The table positions of a set of actors, in no particular order. */
    method CollectPositions(ids: set<ActorID>) returns (known: bool, positions: seq<nat>)
      ensures known <==> forall id :: id in ids ==> id in table.lookup
      ensures known ==> Enumerates(table, ids, positions)
    {
      known, positions := true, [];
      var todo := ids;
      while todo != {}
        invariant known && todo <= ids
        invariant forall id :: id in ids - todo ==> id in table.lookup
        invariant Enumerates(table, ids - todo, positions)
        decreases |todo|
      {
        var id :| id in todo;
        if id !in table.lookup {
          return false, [];
        }
        assert ids - (todo - {id}) == (ids - todo) + {id};
        positions := positions + [table.lookup[id]];
        todo := todo - {id};
      }
      assert ids - todo == ids;
    }

    method ListKeys(keys: set<Chain>) returns (values: seq<Chain>)
      ensures forall v :: v in values <==> v in keys
    {
      values := [];
      var todo := keys;
      while todo != {}
        invariant todo <= keys
        invariant forall v :: v in values <==> v in keys - todo
        decreases |todo|
      {
        var key :| key in todo;
        todo := todo - {key};
        values := values + [key];
      }
    }

    /** The values voted for, in no particular order. */
    method ListAllValues() returns (values: seq<Chain>)
      requires Valid() && !eachPrefix
      ensures forall v :: v in values <==> v in votes.Values
    {
      values := ListKeys(chainSupport.Keys);
      forall v
        ensures v in chainSupport <==> v in votes.Values
      {
        SupportedIsVoted(table, chainSupport, votes, v);
      }
    }

    /** A stored justification for a proper chain. */
    method GetJustificationOf(phase: Phase, key: Chain) returns (j: Option<Justification>)
      requires key != BOTTOM
      ensures j == if key in receivedJustification && receivedJustification[key].vote.phase == phase
                   then Some(receivedJustification[key]) else None
    {
      j := None;
      if key in receivedJustification && receivedJustification[key].vote.phase == phase {
        j := Some(receivedJustification[key]);
      }
    }

    /** Some stored justification of bottom, if there is one. */
    method GetJustificationOfBottom(phase: Phase) returns (j: Option<Justification>, ghost pick: Chain)
      ensures j.None? ==> forall k :: k in receivedJustification ==>
        !(receivedJustification[k].vote.value == BOTTOM && receivedJustification[k].vote.phase == phase)
      ensures j.Some? ==> pick in receivedJustification && receivedJustification[pick] == j.value
                          && j.value.vote.value == BOTTOM && j.value.vote.phase == phase
    {
      j, pick := None, BOTTOM;
      var todo := receivedJustification.Keys;
      while todo != {}
        invariant todo <= receivedJustification.Keys
        invariant forall k :: k in receivedJustification && k !in todo ==>
          !(receivedJustification[k].vote.value == BOTTOM && receivedJustification[k].vote.phase == phase)
        decreases |todo|
      {
        var key :| key in todo;
        var justification := receivedJustification[key];
        if justification.vote.value == BOTTOM && justification.vote.phase == phase {
          return Some(justification), key;
        }
        todo := todo - {key};
      }
    }
  }

  /** Each position of the actors, once. */
  ghost predicate Enumerates(t: PowerTable, ids: set<ActorID>, ix: seq<nat>) {
    && Distinct(ix)
    && (forall k :: 0 <= k < |ix| ==> ix[k] in Indices(t, ids))
    && (forall i :: i in Indices(t, ids) ==> i in ix)
  }

  /** Sorting an enumeration of positions gives them in table order. */
  lemma PositionsSorted(t: PowerTable, ids: set<ActorID>, e: seq<nat>, ix: seq<nat>)
    requires Enumerates(t, ids, e) && multiset(e) == multiset(ix)
    requires Sorted((x: nat, y: nat) => x < y, ix)
    ensures ix == PositionsOf(t, ids, |t.entries|)
  {
    var all := PositionsOf(t, ids, |t.entries|);
    PositionsAreIndices(t, ids);
    PermutationDistinct(e, ix);
    forall x
      ensures x in all <==> x in ix
    {
      assert x in all <==> x in ToSet(all);
      assert x in ix <==> x in e;
    }
    SortedUnique((x: nat, y: nat) => x < y, ix, all);
  }
}
