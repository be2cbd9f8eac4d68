/** Votes, justifications and messages, and the phase rules every validator applies
    (gpbft/types.go, gpbft/validator.go). */
module Messages {
  import opened Basics
  import opened Chains
  import opened Weights
  import opened Power
  import opened Quorums

  datatype Phase = INITIAL | QUALITY | CONVERGE | PREPARE | COMMIT | DECIDE | TERMINATED

  function PhaseOrder(p: Phase): nat {
    match p
    case INITIAL => 0
    case QUALITY => 1
    case CONVERGE => 2
    case PREPARE => 3
    case COMMIT => 4
    case DECIDE => 5
    case TERMINATED => 6
  }

  datatype SupplementalData = SupplementalData(commitments: Bytes, powerTable: Bytes)

  datatype Payload = Payload(
    instance: nat,
    round: nat,
    phase: Phase,
    supplement: SupplementalData,
    value: Chain)

  /** A claim that the actors at the positions `signers` all signed `vote`. */
  datatype Justification = Justification(vote: Payload, signers: set<nat>, signature: Bytes)

  /** A ticket counts only through its rank; the participant's own value ranks last. */
  datatype Rank = Ranked(r: real) | Unranked

  predicate Better(a: Rank, b: Rank) {
    a.Ranked? && (b.Unranked? || a.r < b.r)
  }

  /** `a` is not above `b`, and what has no rank comes after what has one. */
  predicate AtMost(a: Rank, b: Rank) {
    b.Ranked? ==> a.Ranked? && a.r <= b.r
  }

  datatype GMessage = GMessage(
    sender: ActorID,
    vote: Payload,
    signature: Bytes,
    ticket: Rank,
    justification: Option<Justification>)

  /** Phase-specific constraints on a vote. */
  predicate PhaseRules(v: Payload) {
    match v.phase
    case QUALITY => v.round == 0 && v.value != BOTTOM
    case CONVERGE => v.round > 0 && v.value != BOTTOM
    case DECIDE => v.round == 0 && v.value != BOTTOM
    case PREPARE => true
    case COMMIT => true
    case _ => false
  }

  predicate NeedsJustification(v: Payload) {
    !( || v.phase == QUALITY
       || (v.phase == PREPARE && v.round == 0)
       || (v.phase == COMMIT && v.value == BOTTOM))
  }

  /** Which vote may justify which: CONVERGE and PREPARE by COMMIT for bottom or PREPARE for the
      same value one round earlier, COMMIT by PREPARE in its round, DECIDE by COMMIT in any round. */
  predicate Justifies(j: Payload, v: Payload) {
    && j.instance == v.instance
    && j.supplement == v.supplement
    && ValidChain(j.value)
    && match v.phase
       case CONVERGE => JustifiesNextRound(j, v)
       case PREPARE => JustifiesNextRound(j, v)
       case COMMIT => j.phase == PREPARE && j.round == v.round && j.value == v.value
       case DECIDE => j.phase == COMMIT && j.value == v.value
       case _ => false
  }

  predicate JustifiesNextRound(j: Payload, v: Payload) {
    && j.round + 1 == v.round
    && ((j.phase == COMMIT && j.value == BOTTOM) || (j.phase == PREPARE && j.value == v.value))
  }

  /** Everything a validator requires of a vote and its justification, apart from signatures. */
  predicate VoteRules(v: Payload, j: Option<Justification>) {
    && ValidChain(v.value)
    && PhaseRules(v)
    && (if NeedsJustification(v) then j.Some? && Justifies(j.value.vote, v) else j.None?)
  }

  const MAX_UINT64: nat := 0xFFFF_FFFF_FFFF_FFFF
  const WILDCARD: Option<nat> := Some(MAX_UINT64)

  /** The validator takes one round, the wildcard, for "any round": a COMMIT of it for a value may come
      with a PREPARE for that value of whatever round. */
  predicate WildcardRules(wildcard: Option<nat>, v: Payload, j: Option<Justification>) {
    && wildcard == Some(v.round) && v.phase == COMMIT && v.value != BOTTOM && ValidChain(v.value)
    && j.Some? && j.value.vote == v.(phase := PREPARE, round := j.value.vote.round)
  }

  /** The signers are distinct powered table positions that form a strong quorum. */
  ghost predicate SignersRules(t: PowerTable, signers: set<nat>) {
    && (forall i :: i in signers ==> i < |t.entries| && t.scaledPower[i] > 0)
    && IsStrongQuorum(Weight(t.scaledPower, signers), t.scaledTotal)
  }
}
