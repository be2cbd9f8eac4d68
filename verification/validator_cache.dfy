/** The caching validator (gpbft/validator.go). */
module CachingValidators {
  import opened Basics
  import opened Chains
  import opened Weights
  import opened Power
  import opened Quorums
  import opened Messages
  import opened ChainKeys
  import opened Caching
  import opened Validators

  /** How cache keys are made; marshalling may fail. */
  datatype Encoding = Encoding(
    message: GMessage -> Option<Bytes>,
    partialMessage: PartialMessage -> Option<Bytes>,
    justification: (Justification, ECChainKey) -> Option<Bytes>)

  ghost predicate Injective(e: Encoding) {
    && (forall a, b :: e.message(a).Some? && e.message(a) == e.message(b) ==> a == b)
    && (forall a, b :: e.partialMessage(a).Some? && e.partialMessage(a) == e.partialMessage(b) ==> a == b)
    && (forall a, k, b, l ::
          e.justification(a, k).Some? && e.justification(a, k) == e.justification(b, l) ==> a == b && k == l)
  }

  function MessageNamespace(partial: bool): string {
    if partial then "partial_message" else "message"
  }

  function JustificationNamespace(partial: bool): string {
    if partial then "partial_justification" else "justification"
  }

  /** What the cached key of a message stands for. */
  ghost predicate MeansMessage(r: Rules, e: Encoding, g: nat, k: CacheKey) {
    && (k.namespace == MessageNamespace(false) ==>
          forall m :: e.message(m) == Some(k.value) && m.vote.instance == g ==> WithVoteValueKey(r, None, m) == Accept)
    && (k.namespace == MessageNamespace(true) ==>
          forall p :: e.partialMessage(p) == Some(k.value) && p.message.vote.instance == g ==>
            WithVoteValueKey(r, Some(p.voteValueKey), p.message) == Accept)
  }

  /** What the cached key of a justification stands for. */
  ghost predicate MeansJustification(r: Rules, e: Encoding, g: nat, k: CacheKey) {
    k.namespace == JustificationNamespace(false) || k.namespace == JustificationNamespace(true) ==>
      forall j, key :: e.justification(j, key) == Some(k.value) && r.committee(g).Some? ==>
        AggregateOk(r, r.committee(g).value, j, key)
  }

  ghost predicate Means(r: Rules, e: Encoding, g: nat, k: CacheKey) {
    MeansMessage(r, e, g, k) && MeansJustification(r, e, g, k)
  }

  lemma CachedMessage(r: Rules, e: Encoding, valueKey: Option<ECChainKey>, m: GMessage, cacheKey: Bytes)
    requires Injective(e) && WithVoteValueKey(r, valueKey, m) == Accept
    requires cacheKey == [] || MessageKey(e, valueKey, m) == Some(cacheKey)
    ensures var k := CacheKey(MessageNamespace(valueKey.Some?), cacheKey);
      cacheKey != [] ==> Means(r, e, m.vote.instance, k)
  {
  }

  function MessageKey(e: Encoding, valueKey: Option<ECChainKey>, m: GMessage): Option<Bytes> {
    match valueKey
    case None => e.message(m)
    case Some(key) => e.partialMessage(PartialMessage(m, key))
  }

  lemma CachedJustification(r: Rules, e: Encoding, c: Committee, g: nat, j: Justification, key: ECChainKey,
      partial: bool)
    requires Injective(e) && r.committee(g) == Some(c) && AggregateOk(r, c, j, key) && e.justification(j, key).Some?
    ensures var k := CacheKey(JustificationNamespace(partial), e.justification(j, key).value);
      Means(r, e, g, k)
  {
    assert JustificationNamespace(partial)[0] == 'j' || JustificationNamespace(partial)[8] == 'j';
    assert MessageNamespace(false)[0] == 'm' && MessageNamespace(true)[8] == 'm';
  }

  /** The scaled power of the signers; fails on a position that is out of range or has no power. */
  method GetSigners(t: PowerTable, signers: set<nat>) returns (ok: bool, power: nat)
    ensures ok <==> forall i :: i in signers ==> i < |t.entries| && t.scaledPower[i] > 0
    ensures ok ==> power == Weight(t.scaledPower, signers)
  {
    power := 0;
    var todo := signers;
    Empty(t.scaledPower);
    assert signers - todo == {};
    while todo != {}
      invariant todo <= signers
      invariant forall i :: i in signers - todo ==> i < |t.entries| && t.scaledPower[i] > 0
      invariant power == Weight(t.scaledPower, signers - todo)
      decreases |todo|
    {
      var i :| i in todo;
      if i >= |t.entries| || t.scaledPower[i] == 0 {
        return false, 0;
      }
      Disjoint(t.scaledPower, signers - todo, {i});
      Singleton(t.scaledPower, i);
      assert signers - (todo - {i}) == (signers - todo) + {i};
      power := power + t.scaledPower[i];
      todo := todo - {i};
    }
    assert signers - todo == signers;
    ok := true;
  }

  class CachingValidator {
    const rules: Rules
    const encoding: Encoding
    const cache: GroupedSet

    /** Whatever is cached was validated. */
    ghost predicate Valid()
      reads this, cache, cache.sets
    {
      && Injective(encoding) && cache.Valid()
      && forall g, k :: cache.Has(g, k) ==> Means(rules, encoding, g, k)
    }

    constructor (rules: Rules, encoding: Encoding, maxGroups: nat, maxSetSize: int)
      requires Injective(encoding)
      ensures Valid() && fresh(cache) && fresh(cache.sets) && this.rules == rules && this.encoding == encoding
    {
      this.rules, this.encoding := rules, encoding;
      cache := new GroupedSet(maxGroups, maxSetSize);
    }

    /** Forgets what was cached for old instances, as when an instance is over. */
    method RemoveBefore(instance: nat)
      requires Valid()
      modifies cache, cache.sets
      ensures Valid() && fresh(cache.sets - old(cache.sets))
    {
      var evicted := cache.RemoveGroupsLessThan(instance);
    }

    method IsAlreadyValidated(g: nat, namespace: string, cacheKey: Bytes) returns (known: bool)
      requires Valid()
      modifies cache
      ensures Valid() && cache.sets == old(cache.sets)
      ensures known ==> Means(rules, encoding, g, CacheKey(namespace, cacheKey))
      ensures known <==> |namespace| <= 64 && cache.Has(g, CacheKey(namespace, cacheKey))
      ensures forall h, k :: cache.Has(h, k) <==> old(cache.Has(h, k))
    {
      var cached := cache.Contains(g, namespace, cacheKey);
      known := cached == Some(true);
    }

    method Remember(g: nat, namespace: string, cacheKey: Bytes)
      requires Valid() && Means(rules, encoding, g, CacheKey(namespace, cacheKey))
      modifies cache, cache.sets
      ensures Valid() && fresh(cache.sets - old(cache.sets))
      ensures |namespace| <= 64 ==> cache.Has(g, CacheKey(namespace, cacheKey))
    {
      var added := cache.Add(g, namespace, cacheKey);
    }

    method ValidateJustificationSignature(c: Committee, j: Justification, key: ECChainKey) returns (ok: bool)
      ensures ok == AggregateOk(rules, c, j, key)
    {
      var inRange, power := GetSigners(c.table, j.signers);
      if !inRange || !IsStrongQuorum(power, c.table.scaledTotal) {
        return false;
      }
      ok := c.verifyAggregate(j.signers, InputWithKey(rules, j.vote, key), j.signature);
    }

    method ValidateJustification(valueKey: Option<ECChainKey>, m: GMessage, c: Committee) returns (ok: bool)
      requires Valid() && rules.committee(m.vote.instance) == Some(c)
      modifies cache, cache.sets
      ensures Valid() && fresh(cache.sets - old(cache.sets))
      ensures ok == JustificationOk(rules, c, valueKey, m)
    {
      if !JustificationFits(valueKey, m) {
        return false;
      }
      var j := m.justification.value;
      var key := Expected(m.vote, KeyOf(valueKey, m), j.vote.phase).value.key;
      ok := ValidateAggregate(m.vote.instance, valueKey.Some?, c, j, key);
    }

    /** The signature check of a justification, skipped when it was made before. */
    method ValidateAggregate(g: nat, partial: bool, c: Committee, j: Justification, key: ECChainKey) returns (ok: bool)
      requires Valid() && rules.committee(g) == Some(c)
      modifies cache, cache.sets
      ensures Valid() && fresh(cache.sets - old(cache.sets))
      ensures ok == AggregateOk(rules, c, j, key)
    {
      var namespace := JustificationNamespace(partial);
      var cacheKey := encoding.justification(j, key);
      if cacheKey.Some? {
        var known := IsAlreadyValidated(g, namespace, cacheKey.value);
        if known {
          return true;
        }
      }
      ok := ValidateJustificationSignature(c, j, key);
      if ok && cacheKey.Some? && |cacheKey.value| > 0 {
        CachedJustification(rules, encoding, c, g, j, key, partial);
        Remember(g, namespace, cacheKey.value);
      }
    }

    method ValidateMessageWithVoteValueKey(valueKey: Option<ECChainKey>, m: GMessage) returns (verdict: Verdict)
      requires Valid()
      modifies cache, cache.sets
      ensures Valid() && fresh(cache.sets - old(cache.sets))
      ensures verdict == WithVoteValueKey(rules, valueKey, m)
      ensures verdict == Accept ==> Remembered(valueKey, m)
    {
      var cacheKey := MessageKey(encoding, valueKey, m);
      if cacheKey.Some? && |cacheKey.value| > 0 {
        var known := IsKnownMessage(valueKey, m, cacheKey.value);
        if known {
          return Accept;
        }
      }
      verdict := ValidateUncached(valueKey, m, cacheKey);
    }

    method ValidateUncached(valueKey: Option<ECChainKey>, m: GMessage, cacheKey: Option<Bytes>)
      returns (verdict: Verdict)
      requires Valid() && cacheKey == MessageKey(encoding, valueKey, m)
      modifies cache, cache.sets
      ensures Valid() && fresh(cache.sets - old(cache.sets))
      ensures verdict == WithVoteValueKey(rules, valueKey, m)
      ensures verdict == Accept ==> Remembered(valueKey, m)
    {
      verdict := CheckMessage(valueKey, m);
      if verdict == Accept && cacheKey.Some? && |cacheKey.value| > 0 {
        RememberMessage(valueKey, m, cacheKey.value);
      }
    }

    /** The message is cached, if there is a key for it. */
    ghost predicate Remembered(valueKey: Option<ECChainKey>, m: GMessage)
      reads this, cache, cache.sets
    {
      var cacheKey := MessageKey(encoding, valueKey, m);
      cacheKey.Some? && |cacheKey.value| > 0 ==>
        cache.Has(m.vote.instance, CacheKey(MessageNamespace(valueKey.Some?), cacheKey.value))
    }

    method IsKnownMessage(valueKey: Option<ECChainKey>, m: GMessage, cacheKey: Bytes) returns (known: bool)
      requires Valid() && MessageKey(encoding, valueKey, m) == Some(cacheKey)
      modifies cache
      ensures Valid() && cache.sets == old(cache.sets)
      ensures known ==> WithVoteValueKey(rules, valueKey, m) == Accept
      ensures known <==> cache.Has(m.vote.instance, CacheKey(MessageNamespace(valueKey.Some?), cacheKey))
    {
      var namespace := MessageNamespace(valueKey.Some?);
      known := IsAlreadyValidated(m.vote.instance, namespace, cacheKey);
      assert known ==> MeansMessage(rules, encoding, m.vote.instance, CacheKey(namespace, cacheKey));
    }

    method RememberMessage(valueKey: Option<ECChainKey>, m: GMessage, cacheKey: Bytes)
      requires Valid() && MessageKey(encoding, valueKey, m) == Some(cacheKey) && cacheKey != []
      requires WithVoteValueKey(rules, valueKey, m) == Accept
      modifies cache, cache.sets
      ensures Valid() && fresh(cache.sets - old(cache.sets))
      ensures cache.Has(m.vote.instance, CacheKey(MessageNamespace(valueKey.Some?), cacheKey))
    {
      CachedMessage(rules, encoding, valueKey, m, cacheKey);
      Remember(m.vote.instance, MessageNamespace(valueKey.Some?), cacheKey);
    }

    /** The checks of a message that is not in the cache. */
    method CheckMessage(valueKey: Option<ECChainKey>, m: GMessage) returns (verdict: Verdict)
      requires Valid()
      modifies cache, cache.sets
      ensures Valid() && fresh(cache.sets - old(cache.sets))
      ensures verdict == WithVoteValueKey(rules, valueKey, m)
    {
      var committee := rules.committee(m.vote.instance);
      if committee.None? {
        return NoCommittee;
      }
      var c := committee.value;
      if Get(c.table, m.sender) == 0 {
        return Invalid;
      }
      var validChain := CheckChain(m.vote.value);
      if !validChain || !PhaseOk(rules, c, valueKey, m) {
        return Invalid;
      }
      if !rules.verify(PublicKey(c.table, m.sender), InputWithKey(rules, m.vote, KeyOf(valueKey, m)), m.signature) {
        return Invalid;
      }
      if Justified(valueKey, m) {
        var justified := ValidateJustification(valueKey, m, c);
        return if justified then Accept else Invalid;
      }
      verdict := if m.justification.Some? then Invalid else Accept;
    }

    /** Whatever was validated and evicted before, the verdict is that of a validator with no cache. */
    method ValidateMessage(current: Instant, m: GMessage) returns (verdict: Verdict)
      requires Valid()
      modifies cache, cache.sets
      ensures Valid() && fresh(cache.sets - old(cache.sets))
      ensures verdict == Validated(rules, current, m)
      ensures verdict == Accept ==> Remembered(None, m)
    {
      verdict := ByProgress(rules, current, m.vote);
      if verdict == Accept {
        verdict := ValidateMessageWithVoteValueKey(None, m);
      }
    }

    method PartiallyValidateMessage(current: Instant, p: PartialMessage) returns (verdict: Verdict)
      requires Valid()
      modifies cache, cache.sets
      ensures Valid() && fresh(cache.sets - old(cache.sets))
      ensures verdict == PartiallyValidated(rules, current, p)
      ensures verdict == Accept ==> Remembered(Some(p.voteValueKey), p.message)
    {
      verdict := ByProgress(rules, current, p.message.vote);
      if verdict == Accept {
        verdict := ValidateMessageWithVoteValueKey(Some(p.voteValueKey), p.message);
      }
    }
  }
}
