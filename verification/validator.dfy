/** Message validation in one and in two stages (gpbft/validator.go, pmsg/partial_msg.go). */
module Validators {
  import opened Basics
  import opened Chains
  import opened Power
  import opened Messages
  import opened Merkle
  import opened ChainKeys

  datatype Verdict = Accept | Invalid | NoCommittee | NotRelevant | TooOld

  /** The bytes that are signed: every field of a vote, with the key of its value. */
  datatype SigningInput = SigningInput(
    network: string, phase: Phase, round: nat, instance: nat, supplement: SupplementalData, key: ECChainKey)

  datatype Committee = Committee(
    table: PowerTable, beacon: Bytes, verifyAggregate: (set<nat>, SigningInput, Bytes) -> bool)

  /** What does not change while a node runs. */
  datatype Rules = Rules(
    network: string,
    lookback: nat,
    committee: nat -> Option<Committee>,
    verify: (Bytes, SigningInput, Bytes) -> bool,
    verifyTicket: (Bytes, nat, nat, Bytes, Rank) -> bool)

  datatype Instant = Instant(id: nat, round: nat, phase: Phase)

  /** A message whose vote value is named by its key. */
  datatype PartialMessage = PartialMessage(message: GMessage, voteValueKey: ECChainKey)

  function InputWithKey(r: Rules, v: Payload, key: ECChainKey): SigningInput {
    SigningInput(r.network, v.phase, v.round, v.instance, v.supplement, key)
  }

  function PublicKey(t: PowerTable, id: ActorID): Bytes {
    if id in t.lookup then t.entries[t.lookup[id]].pubKey else []
  }

  /** What is signed tells apart all votes. */
  lemma SignedInputsDiffer(r: Rules, v: Payload, u: Payload)
    ensures InputWithKey(r, v, Key(v.value)) == InputWithKey(r, u, Key(u.value)) <==> v == u
  {
    KeyInjective(v.value, u.value);
  }

  /** The key that a vote is verified with is its sender's. */
  lemma SenderKey(t: PowerTable, i: nat)
    requires i < |t.entries|
    ensures PublicKey(t, t.entries[i].id) == t.entries[i].pubKey
  {
  }

  // ---------- relevance ----------

  function ByProgress(r: Rules, current: Instant, v: Payload): Verdict {
    if v.instance >= current.id + r.lookback then NoCommittee
    else if v.instance > current.id || (v.instance + 1 == current.id && v.phase == DECIDE) then Accept
    else if v.instance == current.id then
      if current.phase == DECIDE && v.phase != DECIDE then NotRelevant
      else if v.phase == QUALITY || v.phase == DECIDE then Accept
      else if v.round >= current.round || v.round + 1 == current.round then Accept
      else NotRelevant
    else TooOld
  }

  /** Later in an instance, or in a later instance. */
  predicate Advances(p: Instant, q: Instant) {
    || p.id < q.id
    || (p.id == q.id && (q.phase == DECIDE || (p.phase != DECIDE && p.round <= q.round)))
  }

  /** A message dropped as old or not relevant is never accepted later on. */
  lemma DroppedForGood(r: Rules, p: Instant, q: Instant, v: Payload)
    requires Advances(p, q) && (ByProgress(r, p, v) == TooOld || ByProgress(r, p, v) == NotRelevant)
    ensures ByProgress(r, q, v) != Accept
  {
  }

  /** Within the lookback, a later instance; the decision of the previous one; and of the current instance
      what is not of an earlier round than the previous, or is not of any round, and only decisions once
      there is one. */
  predicate Timely(lookback: nat, current: Instant, v: Payload) {
    && v.instance < current.id + lookback
    && (|| v.instance > current.id
        || (v.instance == current.id - 1 && v.phase == DECIDE)
        || (v.instance == current.id && v.phase == DECIDE)
        || (&& v.instance == current.id && current.phase != DECIDE
            && (v.phase == QUALITY || v.round >= current.round - 1)))
  }

  /** What progress makes of a vote: beyond the lookback, timely, of the current instance or old. */
  lemma RelevanceExactly(r: Rules, current: Instant, v: Payload)
    ensures ByProgress(r, current, v) == NoCommittee <==> v.instance >= current.id + r.lookback
    ensures ByProgress(r, current, v) == Accept <==> Timely(r.lookback, current, v)
    ensures ByProgress(r, current, v) == NotRelevant <==>
      v.instance == current.id < current.id + r.lookback && !Timely(r.lookback, current, v)
    ensures ByProgress(r, current, v) == TooOld <==>
      v.instance < current.id + r.lookback && v.instance < current.id && !Timely(r.lookback, current, v)
  {
  }

  // ---------- rules ----------

  datatype Expectation = Expectation(round: nat, key: ECChainKey)

  function RoundBefore(round: nat): nat {
    if round == 0 then MAX_UINT64 else round - 1
  }

  /** The round and the value key that a justification of a phase must have; the largest round
      stands for any. */
  function Expected(v: Payload, key: ECChainKey, phase: Phase): Option<Expectation> {
    match (v.phase, phase)
    case (CONVERGE, COMMIT) => Some(Expectation(RoundBefore(v.round), Zero))
    case (CONVERGE, PREPARE) => Some(Expectation(RoundBefore(v.round), key))
    case (PREPARE, COMMIT) => Some(Expectation(RoundBefore(v.round), Zero))
    case (PREPARE, PREPARE) => Some(Expectation(RoundBefore(v.round), key))
    case (COMMIT, PREPARE) => Some(Expectation(v.round, key))
    case (DECIDE, COMMIT) => Some(Expectation(MAX_UINT64, key))
    case _ => None
  }

  ghost predicate AggregateOk(r: Rules, c: Committee, j: Justification, key: ECChainKey) {
    SignersRules(c.table, j.signers) && c.verifyAggregate(j.signers, InputWithKey(r, j.vote, key), j.signature)
  }

  /** The justification's vote fits the message, before signatures are looked at. */
  predicate JustificationFits(valueKey: Option<ECChainKey>, m: GMessage) {
    && m.justification.Some?
    && var j := m.justification.value.vote;
    && j.instance == m.vote.instance && j.supplement == m.vote.supplement && ValidChain(j.value)
    && var expected := Expected(m.vote, KeyOf(valueKey, m), j.phase);
    && expected.Some?
    && (j.round == expected.value.round || expected.value.round == MAX_UINT64)
    && (valueKey.None? ==> Key(j.value) == expected.value.key)
  }

  /** The key of the vote: given with a partial message, else computed. */
  function KeyOf(valueKey: Option<ECChainKey>, m: GMessage): ECChainKey {
    if valueKey.Some? then valueKey.value else Key(m.vote.value)
  }

  ghost predicate JustificationOk(r: Rules, c: Committee, valueKey: Option<ECChainKey>, m: GMessage) {
    && JustificationFits(valueKey, m)
    && var j := m.justification.value;
       AggregateOk(r, c, j, Expected(m.vote, KeyOf(valueKey, m), j.vote.phase).value.key)
  }

  predicate ForBottom(valueKey: Option<ECChainKey>, m: GMessage) {
    if valueKey.Some? then valueKey.value == Zero else m.vote.value == BOTTOM
  }

  predicate PhaseOk(r: Rules, c: Committee, valueKey: Option<ECChainKey>, m: GMessage) {
    match m.vote.phase
    case QUALITY => m.vote.round == 0 && !ForBottom(valueKey, m)
    case CONVERGE =>
      && m.vote.round != 0 && !ForBottom(valueKey, m)
      && r.verifyTicket(c.beacon, m.vote.instance, m.vote.round, PublicKey(c.table, m.sender), m.ticket)
    case DECIDE => m.vote.round == 0 && !ForBottom(valueKey, m)
    case PREPARE => true
    case COMMIT => true
    case _ => false
  }

  predicate Justified(valueKey: Option<ECChainKey>, m: GMessage) {
    !( || m.vote.phase == QUALITY
       || (m.vote.phase == PREPARE && m.vote.round == 0)
       || (m.vote.phase == COMMIT && ForBottom(valueKey, m)))
  }

  ghost predicate MessageOk(r: Rules, c: Committee, valueKey: Option<ECChainKey>, m: GMessage) {
    && Get(c.table, m.sender) != 0
    && ValidChain(m.vote.value)
    && PhaseOk(r, c, valueKey, m)
    && r.verify(PublicKey(c.table, m.sender), InputWithKey(r, m.vote, KeyOf(valueKey, m)), m.signature)
    && (if Justified(valueKey, m) then JustificationOk(r, c, valueKey, m) else m.justification.None?)
  }

  ghost function WithVoteValueKey(r: Rules, valueKey: Option<ECChainKey>, m: GMessage): Verdict {
    match r.committee(m.vote.instance)
    case None => NoCommittee
    case Some(c) => if MessageOk(r, c, valueKey, m) then Accept else Invalid
  }

  // ---------- the three entry points ----------

  ghost function Validated(r: Rules, current: Instant, m: GMessage): Verdict {
    var relevance := ByProgress(r, current, m.vote);
    if relevance != Accept then relevance else WithVoteValueKey(r, None, m)
  }

  ghost function PartiallyValidated(r: Rules, current: Instant, p: PartialMessage): Verdict {
    var relevance := ByProgress(r, current, p.message.vote);
    if relevance != Accept then relevance else WithVoteValueKey(r, Some(p.voteValueKey), p.message)
  }

  /** The value that a completed justification must have. */
  function ExpectedValue(v: Payload, phase: Phase): Option<Chain> {
    match (v.phase, phase)
    case (CONVERGE, COMMIT) => Some(BOTTOM)
    case (CONVERGE, PREPARE) => Some(v.value)
    case (PREPARE, COMMIT) => Some(BOTTOM)
    case (PREPARE, PREPARE) => Some(v.value)
    case (COMMIT, PREPARE) => Some(v.value)
    case (DECIDE, COMMIT) => Some(v.value)
    case _ => None
  }

  predicate AsExpected(v: Payload, j: Payload) {
    ExpectedValue(v, j.phase) == Some(j.value)
  }

  predicate JustifiesValue(m: GMessage) {
    m.justification.Some? && m.justification.value.vote.value != BOTTOM
  }

  function FullyValidated(r: Rules, current: Instant, p: PartialMessage): Verdict {
    var m := p.message;
    if !ValidChain(m.vote.value) || p.voteValueKey != Key(m.vote.value) then Invalid
    else if ByProgress(r, current, m.vote) != Accept then ByProgress(r, current, m.vote)
    else if p.voteValueKey == Zero && (m.vote.value != BOTTOM || JustifiesValue(m)) then Invalid
    else if m.justification.Some? && !AsExpected(m.vote, m.justification.value.vote) then Invalid
    else Accept
  }

  // ---------- stripping and completing ----------

  function WithValue(j: Justification, value: Chain): Justification {
    j.(vote := j.vote.(value := value))
  }

  function Stripped(m: GMessage): PartialMessage {
    PartialMessage(
      m.(vote := m.vote.(value := BOTTOM),
         justification := match m.justification
                          case None => None
                          case Some(j) => Some(WithValue(j, BOTTOM))),
      Key(m.vote.value))
  }

  /** The justification with its value inferred from the phases. */
  function Inferred(v: Payload, j: Justification): Justification {
    match (v.phase, j.vote.phase)
    case (CONVERGE, PREPARE) => WithValue(j, v.value)
    case (PREPARE, PREPARE) => WithValue(j, v.value)
    case (COMMIT, PREPARE) => WithValue(j, v.value)
    case (DECIDE, COMMIT) => WithValue(j, v.value)
    case _ => j
  }

  /** A partial message that names a chain is completed with it; others stand as they are. */
  function Completed(p: PartialMessage, chain: Chain): PartialMessage {
    if p.voteValueKey == Zero then p
    else
      var v := p.message.vote.(value := chain);
      p.(message := p.message.(
        vote := v,
        justification := match p.message.justification
                         case None => None
                         case Some(j) => Some(Inferred(v, j))))
  }

  /** The same apart from the chains. */
  ghost predicate SameButChains(m: GMessage, n: GMessage) {
    && m.(vote := n.vote, justification := n.justification) == n
    && m.vote.(value := n.vote.value) == n.vote
    && (m.justification.Some? <==> n.justification.Some?)
    && (m.justification.Some? ==>
          WithValue(m.justification.value, n.justification.value.vote.value) == n.justification.value)
  }

  lemma CompletedSame(p: PartialMessage, chain: Chain)
    ensures SameButChains(p.message, Completed(p, chain).message)
    ensures Completed(p, chain).voteValueKey == p.voteValueKey
  {
  }

  /** A message that was partially validated, at whatever time, and has got its chains since, is
      accepted by full validation only if validation in one stage accepts it. */
  lemma TwoStagesSound(r: Rules, before: Instant, current: Instant, p: PartialMessage, q: PartialMessage)
    requires PartiallyValidated(r, before, p) == Accept
    requires q.voteValueKey == p.voteValueKey && SameButChains(p.message, q.message)
    requires FullyValidated(r, current, q) == Accept
    ensures Validated(r, current, q.message) == Accept
  {
    var c := r.committee(p.message.vote.instance).value;
    KeyInjective(q.message.vote.value, BOTTOM);
    assert KeyOf(Some(p.voteValueKey), p.message) == KeyOf(None, q.message);
    if Justified(None, q.message) {
      FitsAfter(p, q);
    }
  }

  lemma FitsAfter(p: PartialMessage, q: PartialMessage)
    requires q.voteValueKey == p.voteValueKey == Key(q.message.vote.value) && SameButChains(p.message, q.message)
    requires ValidChain(q.message.vote.value) && JustificationFits(Some(p.voteValueKey), p.message)
    requires AsExpected(q.message.vote, q.message.justification.value.vote)
    ensures JustificationFits(None, q.message)
  {
    var j := q.message.justification.value.vote;
    KeyInjective(BOTTOM, BOTTOM);
    assert ValidChain(BOTTOM);
  }

  /** A message that is accepted in one stage survives stripping, partial validation, completion with
      its chain and full validation, unchanged. */
  lemma TwoStagesComplete(r: Rules, current: Instant, m: GMessage)
    requires Validated(r, current, m) == Accept
    ensures PartiallyValidated(r, current, Stripped(m)) == Accept
    ensures Completed(Stripped(m), m.vote.value).message == m
    ensures FullyValidated(r, current, Completed(Stripped(m), m.vote.value)) == Accept
  {
    KeyInjective(m.vote.value, BOTTOM);
    if m.justification.Some? {
      AcceptedValue(m);
    }
    StrippedOk(r, m);
  }

  /** The value of an accepted justification is the one inferred from the phases. */
  lemma AcceptedValue(m: GMessage)
    requires JustificationFits(None, m)
    ensures ExpectedValue(m.vote, m.justification.value.vote.phase) == Some(m.justification.value.vote.value)
  {
    var j := m.justification.value.vote;
    KeyInjective(j.value, m.vote.value);
    KeyInjective(j.value, BOTTOM);
  }

  lemma StrippedOk(r: Rules, m: GMessage)
    requires r.committee(m.vote.instance).Some? && MessageOk(r, r.committee(m.vote.instance).value, None, m)
    ensures WithVoteValueKey(r, Some(Stripped(m).voteValueKey), Stripped(m).message) == Accept
  {
    var c, p := r.committee(m.vote.instance).value, Stripped(m);
    KeyInjective(m.vote.value, BOTTOM);
    assert Justified(Some(p.voteValueKey), p.message) <==> Justified(None, m);
  }

  // ---------- the rules that consensus relies on ----------

  predicate TicketOk(r: Rules, c: Committee, m: GMessage) {
    m.vote.phase == CONVERGE ==>
      r.verifyTicket(c.beacon, m.vote.instance, m.vote.round, PublicKey(c.table, m.sender), m.ticket)
  }

  /** Validation in one stage accepts exactly the powered senders' signed votes that keep the phase
      rules and carry, just when one is needed, a justification of the right vote signed by a strong
      quorum; at the largest round the right vote is one of any round. */
  lemma AcceptedExactly(r: Rules, c: Committee, m: GMessage)
    requires m.vote.round <= 0xFFFF_FFFF_FFFF_FFFF
    ensures MessageOk(r, c, None, m) <==>
      && Get(c.table, m.sender) > 0
      && (VoteRules(m.vote, m.justification) || WildcardRules(WILDCARD, m.vote, m.justification))
      && TicketOk(r, c, m)
      && r.verify(PublicKey(c.table, m.sender), InputWithKey(r, m.vote, Key(m.vote.value)), m.signature)
      && (m.justification.Some? ==> AggregateOk(r, c, m.justification.value, Key(m.justification.value.vote.value)))
  {
    if m.justification.Some? && PhaseRules(m.vote) && NeedsJustification(m.vote) && ValidChain(m.vote.value) {
      FitsExactly(m);
    }
  }

  lemma FitsExactly(m: GMessage)
    requires m.justification.Some? && m.vote.round <= MAX_UINT64 && PhaseRules(m.vote) && NeedsJustification(m.vote)
    requires ValidChain(m.vote.value)
    ensures JustificationFits(None, m) <==>
      Justifies(m.justification.value.vote, m.vote) || WildcardRules(WILDCARD, m.vote, m.justification)
  {
    var j := m.justification.value.vote;
    KeyInjective(j.value, m.vote.value);
    KeyInjective(j.value, BOTTOM);
  }

  /** Of a COMMIT of the largest round for a value, evidence of every round is accepted. */
  lemma LastRoundExactly(r: Rules, c: Committee, m: GMessage)
    requires m.vote.phase == COMMIT && m.vote.round == 0xFFFF_FFFF_FFFF_FFFF && m.vote.value != BOTTOM
    ensures MessageOk(r, c, None, m) <==>
      && Get(c.table, m.sender) > 0 && ValidChain(m.vote.value)
      && r.verify(PublicKey(c.table, m.sender), InputWithKey(r, m.vote, Key(m.vote.value)), m.signature)
      && m.justification.Some?
      && var j := m.justification.value;
      && j.vote == m.vote.(phase := PREPARE, round := j.vote.round)
      && AggregateOk(r, c, j, Key(m.vote.value))
  {
    AcceptedExactly(r, c, m);
  }
}

/** What an accepted message means when signatures cannot be forged. */
module Admission {
  import opened Basics
  import opened Power
  import opened Messages
  import opened ChainKeys
  import opened Instances
  import opened Evidence
  import opened Network
  import opened Safety
  import opened Validators

  predicate Signs(r: Rules, c: Committee, id: ActorID, v: Payload, signature: Bytes) {
    r.verify(PublicKey(c.table, id), InputWithKey(r, v, Key(v.value)), signature)
  }

  predicate SignsWith(r: Rules, c: Committee, signers: set<nat>, i: nat, v: Payload, signature: Bytes) {
    c.verifyAggregate(signers, InputWithKey(r, v, Key(v.value)), signature) && i in signers && i < |c.table.entries|
  }

  /** Of the votes of this instance, whatever verifies was signed by a Byzantine actor or by an honest
      participant of the run. */
  ghost predicate Unforgeable(w: World, r: Rules, c: Committee) {
    && (forall id, v: Payload, s :: v.instance == w.c.instance && Signs(r, c, id, v, s) ==> SentBy(w, id, v))
    && (forall signers, i: nat, v: Payload, s :: v.instance == w.c.instance && SignsWith(r, c, signers, i, v, s) ==>
          SentBy(w, c.table.entries[i].id, v))
  }

  /** The node's rules for the instance of a run, of which the largest round is the wildcard. */
  ghost predicate Governs(r: Rules, w: World) {
    match r.committee(w.c.instance)
    case None => false
    case Some(c) => c.table == w.c.table && w.wildcard == WILDCARD && Unforgeable(w, r, c)
  }

  /** A COMMIT of the largest round with evidence of another. */
  predicate OtherRoundEvidence(m: GMessage) {
    && m.vote.phase == COMMIT && m.vote.round == MAX_UINT64
    && m.justification.Some? && m.justification.value.vote.round != MAX_UINT64
  }

  /** The messages of an instance that validation lets through are among those the protocol's safety is
      proved for. Without the wildcard a COMMIT of the largest round with evidence of another would not
      be, and only that. */
  lemma AcceptedIsValid(w: World, r: Rules, current: Instant, m: GMessage)
    requires Governs(r, w) && m.vote.instance == w.c.instance && m.vote.round <= MAX_UINT64
    requires Validated(r, current, m) == Accept
    ensures ValidMessage(w, m)
    ensures ValidMessage(w.(wildcard := None), m) <==> !OtherRoundEvidence(m)
  {
    var c := r.committee(m.vote.instance).value;
    AcceptedExactly(r, c, m);
    assert Signs(r, c, m.sender, m.vote, m.signature);
    if m.justification.Some? {
      var j := m.justification.value;
      forall i | i in j.signers
        ensures SentBy(w, w.c.table.entries[i].id, j.vote)
      {
        assert SignsWith(r, c, j.signers, i, j.vote, j.signature);
      }
    }
  }

  /** So the network may deliver them to whoever is below the largest round, and its theorems speak
      of the node. */
  lemma AcceptedIsDelivered(sys: System, r: Rules, current: Instant, p: ActorID, m: GMessage, env: Env)
    requires Governs(r, sys.w) && m.vote.instance == sys.w.c.instance && m.vote.round <= MAX_UINT64
    requires p in sys.nodes && sys.nodes[p].phase != INITIAL
    requires Validated(r, current, m) == Accept
    ensures Enabled(sys, Deliver(p, m, env)) <==> sys.nodes[p].round < MAX_UINT64
  {
    AcceptedIsValid(sys.w, r, current, m);
  }

  /** So are those that went through two stages. */
  lemma TwoStagesAreValid(
    w: World, r: Rules, before: Instant, current: Instant, p: PartialMessage, q: PartialMessage)
    requires Governs(r, w) && q.message.vote.instance == w.c.instance && q.message.vote.round <= MAX_UINT64
    requires PartiallyValidated(r, before, p) == Accept
    requires q.voteValueKey == p.voteValueKey && SameButChains(p.message, q.message)
    requires FullyValidated(r, current, q) == Accept
    ensures ValidMessage(w, q.message)
  {
    TwoStagesSound(r, before, current, p, q);
    AcceptedIsValid(w, r, current, q.message);
  }

  // ---------- what honest participants send ----------

  /** What the sender has signed verifies: its vote, its ticket and the aggregate it attached. */
  predicate Verifies(r: Rules, c: Committee, m: GMessage) {
    && Signs(r, c, m.sender, m.vote, m.signature) && TicketOk(r, c, m)
    && (m.justification.Some? ==>
          var j := m.justification.value;
          c.verifyAggregate(j.signers, InputWithKey(r, j.vote, Key(j.vote.value)), j.signature))
  }

  /** Everything a powered honest participant has broadcast in any run keeps every rule of validation,
      so a node with the same power table accepts it as far as it is relevant there, if its signatures
      verify. */
  lemma HonestIsAccepted(sys: System, r: Rules, c: Committee, current: Instant, m: GMessage)
    requires Reachable(sys) && Sent(sys, m) && Get(sys.w.c.table, m.sender) > 0 && m.vote.round <= MAX_UINT64
    requires r.committee(m.vote.instance) == Some(c) && c.table == sys.w.c.table && Verifies(r, c, m)
    ensures MessageOk(r, c, None, m) && Validated(r, current, m) == ByProgress(r, current, m.vote)
  {
    var log := sys.nodes[m.sender].log;
    var i :| 0 <= i < |log| && log[i] == Broadcast(m.vote, m.justification);
    Closure(sys, m.sender, i, m.signature, m.ticket);
    AcceptedExactly(r, c, m);
  }

  /** So whatever the honest send is accepted just as long as it is timely. */
  lemma HonestAcceptedExactly(sys: System, r: Rules, c: Committee, current: Instant, m: GMessage)
    requires Reachable(sys) && Sent(sys, m) && Get(sys.w.c.table, m.sender) > 0 && m.vote.round <= MAX_UINT64
    requires r.committee(m.vote.instance) == Some(c) && c.table == sys.w.c.table && Verifies(r, c, m)
    ensures Validated(r, current, m) == Accept <==> Timely(r.lookback, current, m.vote)
  {
    HonestIsAccepted(sys, r, c, current, m);
    RelevanceExactly(r, current, m.vote);
  }

  /** In particular a participant that has not decided accepts all QUALITY and DECIDE of its instance, and all
      else from the round before its own on. */
  lemma HonestIsHeard(sys: System, r: Rules, c: Committee, p: ActorID, m: GMessage)
    requires Reachable(sys) && Sent(sys, m) && Get(sys.w.c.table, m.sender) > 0 && m.vote.round <= MAX_UINT64
    requires r.committee(m.vote.instance) == Some(c) && c.table == sys.w.c.table && Verifies(r, c, m)
    requires p in sys.nodes && r.lookback > 0
    ensures var s := sys.nodes[p];
      Validated(r, Instant(sys.w.c.instance, s.round, s.phase), m) == Accept <==>
        || m.vote.phase == DECIDE
        || (s.phase != DECIDE && (m.vote.phase == QUALITY || m.vote.round + 1 >= s.round))
  {
    var s := sys.nodes[p];
    var log := sys.nodes[m.sender].log;
    var i :| 0 <= i < |log| && log[i] == Broadcast(m.vote, m.justification);
    SentForInstance(sys, m.sender, i);
    HonestAcceptedExactly(sys, r, c, Instant(sys.w.c.instance, s.round, s.phase), m);
  }

  lemma SentForInstance(sys: System, p: ActorID, i: nat)
    requires Reachable(sys) && p in sys.nodes && i < |sys.nodes[p].log|
    ensures sys.nodes[p].log[i].vote.instance == sys.w.c.instance
  {
    ReachableInv(sys);
    var s := sys.nodes[p];
    assert EntryOk(sys.w, s.supplement, s.input, s.quality, s.log, s.log[i]);
  }
}
