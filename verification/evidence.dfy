/** What the votes signed so far make valid, and the invariant of one honest participant. */
module Evidence {
  import opened Basics
  import opened Chains
  import opened Power
  import opened Quorums
  import opened Tallies
  import opened Messages
  import opened Instances

  datatype Signed = Signed(id: ActorID, vote: Payload)

  /** The committee, the Byzantine actors in it, every vote an honest participant has signed, and the
      wildcard round of the validators, if they have one. A signature verifies only if its actor is
      Byzantine or has signed that vote. */
  datatype World = World(c: Config, byzantine: set<ActorID>, votes: set<Signed>, wildcard: Option<nat>)

  ghost predicate Sound(w: World) {
    FaultBound(w.c.table, w.byzantine)
  }

  ghost predicate Extends(w: World, w': World) {
    w'.c == w.c && w'.byzantine == w.byzantine && w.votes <= w'.votes && w'.wildcard == w.wildcard
  }

  predicate SentBy(w: World, id: ActorID, v: Payload) {
    id in w.byzantine || Signed(id, v) in w.votes
  }

  ghost predicate ValidJustification(w: World, j: Justification) {
    && SignersRules(w.c.table, j.signers)
    && forall i :: i in j.signers ==> SentBy(w, w.c.table.entries[i].id, j.vote)
  }

  /** What a validator accepts. The attached justification and ticket are not covered by the vote's
      signature, so anyone may pair an honest vote with another valid justification. */
  ghost predicate ValidMessage(w: World, m: GMessage) {
    && Get(w.c.table, m.sender) > 0
    && (VoteRules(m.vote, m.justification) || WildcardRules(w.wildcard, m.vote, m.justification))
    && SentBy(w, m.sender, m.vote)
    && (m.justification.Some? ==> ValidJustification(w, m.justification.value))
  }

  /** Some valid justification supports the vote. */
  ghost predicate Backed(w: World, v: Payload) {
    exists j :: ValidJustification(w, j) && Justifies(j.vote, v)
  }

  ghost predicate PreparedByHonest(w: World, v: Chain) {
    exists x :: x in w.votes && x.vote.phase == PREPARE && x.vote.value == v
  }

  // ---------- the evidence a participant has stored ----------

  ghost predicate GoodVote(w: World, sd: SupplementalData, id: ActorID, r: nat, p: Phase, v: Chain) {
    && Get(w.c.table, id) > 0
    && ValidChain(v)
    && SentBy(w, id, VoteAt(w.c, sd, r, p, v))
  }

  ghost predicate GoodJustification(w: World, sd: SupplementalData, j: Justification, r: nat, p: Phase, v: Chain) {
    ValidJustification(w, j) && Justifies(j.vote, VoteAt(w.c, sd, r, p, v))
  }

  ghost predicate PreparedOk(w: World, sd: SupplementalData, r: nat, prepared: Tally,
      justified: map<Chain, Justification>)
  {
    && (forall id :: id in prepared ==>
          && GoodVote(w, sd, id, r, PREPARE, prepared[id])
          && (r > 0 ==> Backed(w, VoteAt(w.c, sd, r, PREPARE, prepared[id]))))
    && (forall v :: v in justified ==> GoodJustification(w, sd, justified[v], r, PREPARE, v))
  }

  /** In this round evidence is what it claims to be. */
  predicate Strict(w: World, r: nat) {
    w.wildcard != Some(r)
  }

  /** The next `n` steps find a participant that is in round `r` below the wildcard. */
  predicate Room(w: World, r: nat, n: nat) {
    w.wildcard.Some? ==> r + n <= w.wildcard.value
  }

  /** What supports a COMMIT: a PREPARE of its round, or of any round at the wildcard. */
  ghost predicate CommitSupport(w: World, sd: SupplementalData, j: Justification, r: nat, v: Chain) {
    && ValidJustification(w, j) && ValidChain(v)
    && j.vote == VoteAt(w.c, sd, j.vote.round, PREPARE, v) && (Strict(w, r) ==> j.vote.round == r)
  }

  ghost predicate CommittedOk(w: World, sd: SupplementalData, r: nat, committed: Tally,
      justified: map<Chain, Justification>)
  {
    && (forall id :: id in committed ==>
          && GoodVote(w, sd, id, r, COMMIT, committed[id])
          && (committed[id] != BOTTOM ==> committed[id] in justified))
    && (forall v :: v in justified ==> CommitSupport(w, sd, justified[v], r, v))
  }

  ghost predicate ConvergedOk(w: World, sd: SupplementalData, r: nat, converged: map<Chain, ConvergeValue>) {
    forall v :: v in converged ==>
      && v != BOTTOM && ValidChain(v)
      && GoodJustification(w, sd, converged[v].justification, r, CONVERGE, v)
  }

  ghost predicate RoundOk(w: World, sd: SupplementalData, r: nat, rd: Round) {
    && PreparedOk(w, sd, r, rd.prepared, rd.preparedJust)
    && CommittedOk(w, sd, r, rd.committed, rd.committedJust)
    && ConvergedOk(w, sd, r, rd.converged)
  }

  datatype Holdings = Holdings(supplement: SupplementalData, rounds: map<nat, Round>, quality: Tally, decision: Tally)

  ghost predicate HoldingsOk(w: World, s: Holdings) {
    && (forall r :: r in s.rounds ==> RoundOk(w, s.supplement, r, s.rounds[r]))
    && (forall id :: id in s.quality ==> GoodVote(w, s.supplement, id, 0, QUALITY, s.quality[id]))
    && (forall id :: id in s.decision ==>
          s.decision[id] != BOTTOM && GoodVote(w, s.supplement, id, 0, DECIDE, s.decision[id]))
  }

  ghost function GoodHoldings(w: World): iset<Holdings> {
    iset s: Holdings | HoldingsOk(w, s)
  }

  /** Whatever the participant has stored is good. */
  ghost predicate StoredOk(w: World, s: Instance) {
    Holdings(s.supplement, s.rounds, s.quality, s.decision) in GoodHoldings(w)
  }

  // ---------- the messages a participant has sent ----------

  /** The base chain, or a prefix of the input with a QUALITY quorum here. */
  ghost predicate LocallyLegitimate(w: World, input: Chain, quality: Tally, v: Chain) {
    v == BaseChain(input) || (v <= input && HasPrefixQuorum(w.c.table, quality, v))
  }

  /** Legitimate here, or a value some honest participant has prepared. */
  ghost predicate CandidateOk(w: World, input: Chain, quality: Tally, v: Chain) {
    v != BOTTOM && ValidChain(v) && (LocallyLegitimate(w, input, quality, v) || PreparedByHonest(w, v))
  }

  /** The k-th message was a PREPARE in the round of `v`, for a value other than `x`, although a
      PREPARE for `x` was acceptable in that round. */
  ghost predicate Disputed(w: World, log: seq<Broadcast>, k: int, x: Chain, v: Payload) {
    && 0 <= k < |log|
    && log[k].vote.phase == PREPARE && log[k].vote.round == v.round
    && log[k].vote.value != x
    && (v.round > 0 ==> Backed(w, v.(phase := PREPARE, value := x)))
  }

  ghost predicate BottomOk(w: World, log: seq<Broadcast>, v: Payload) {
    exists k, x :: Disputed(w, log, k, x, v)
  }

  /** A message every validator accepts, and that says no more than its sender may say. */
  ghost predicate EntryOk(w: World, sd: SupplementalData, input: Chain, quality: Tally, log: seq<Broadcast>,
      b: Broadcast)
  {
    && b.vote.instance == w.c.instance && b.vote.supplement == sd
    && VoteRules(b.vote, b.justification)
    && (b.justification.Some? ==> ValidJustification(w, b.justification.value))
    && (b.vote.phase == QUALITY ==> b.vote.value == input)
    && (b.vote.phase == PREPARE ==> CandidateOk(w, input, quality, b.vote.value))
    && (b.vote.phase == COMMIT && b.vote.value == BOTTOM ==> BottomOk(w, log, b.vote))
  }

  predicate Before(a: Payload, b: Payload) {
    && a.phase != DECIDE
    && (|| b.phase == DECIDE
        || a.round < b.round
        || (a.round == b.round && PhaseOrder(a.phase) < PhaseOrder(b.phase)))
  }

  predicate NotAfter(v: Payload, r: nat, p: Phase) {
    || p == DECIDE || p == TERMINATED
    || (&& v.phase != DECIDE
        && (v.round < r || (v.round == r && PhaseOrder(v.phase) <= PhaseOrder(p))))
  }

  ghost predicate LogOk(w: World, s: Instance) {
    && (forall i :: 0 <= i < |s.log| ==> EntryOk(w, s.supplement, s.input, s.quality, s.log, s.log[i]))
    && (forall i, j :: 0 <= i < j < |s.log| ==> Before(s.log[i].vote, s.log[j].vote))
    && (forall i :: 0 <= i < |s.log| ==> NotAfter(s.log[i].vote, s.round, s.phase))
  }

  // ---------- where a participant stands ----------

  ghost predicate Prepares(s: Instance, k: int) {
    && 0 <= k < |s.log|
    && s.log[k].vote.phase == PREPARE && s.log[k].vote.round == s.round && s.log[k].vote.value == s.proposal
  }

  predicate Decided(s: Instance) {
    s.phase == DECIDE || s.phase == TERMINATED
  }

  ghost predicate CommonOk(w: World, s: Instance) {
    && !s.panicked
    && s.input != BOTTOM && ValidChain(s.input)
    && s.proposal != BOTTOM && ValidChain(s.proposal)
    && BaseChain(s.input) in s.candidates
    && (forall v :: v in s.candidates ==> CandidateOk(w, s.input, s.quality, v))
    && (!Decided(s) ==> s.decision == map[])
  }

  ghost predicate PhaseOk(s: Instance) {
    && (s.phase == INITIAL ==> s.log == [])
    && (s.phase == INITIAL || s.phase == QUALITY ==> s.round == 0 && s.proposal == s.input)
    && (s.phase == CONVERGE ==> s.round > 0)
    && (s.phase == PREPARE ==> exists k :: Prepares(s, k))
  }

  ghost predicate TerminationOk(w: World, s: Instance) {
    && (s.terminationValue.Some? <==> s.phase == TERMINATED)
    && (s.terminationValue.Some? ==>
          var d := s.terminationValue.value;
          && ValidJustification(w, d) && d.vote == VoteAt(w.c, s.supplement, 0, DECIDE, s.value)
          && d.signature == w.c.aggregate(d.signers, d.vote)
          && s.value != BOTTOM && ValidChain(s.value))
  }

  ghost predicate Core(w: World, s: Instance) {
    StoredOk(w, s) && LogOk(w, s) && CommonOk(w, s) && TerminationOk(w, s)
  }

  /** A participant in DECIDE has not yet counted a quorum of DECIDE votes. */
  ghost predicate Undecided(w: World, s: Instance) {
    s.phase == DECIDE ==> forall v :: !HasQuorum(w.c.table, s.decision, v)
  }

  ghost predicate Inv(w: World, s: Instance) {
    Core(w, s) && PhaseOk(s) && Undecided(w, s)
  }

  /** Between the two states the participant went forward in (decided, round, phase), and it sent
      messages only if it went strictly forward. */
  predicate Forward(s: Instance, s': Instance) {
    && (s.phase == TERMINATED ==> s'.phase == TERMINATED && s'.terminationValue == s.terminationValue)
    && (s.phase == DECIDE ==> Decided(s'))
    && (!Decided(s') ==> s.round < s'.round || (s.round == s'.round && PhaseOrder(s.phase) <= PhaseOrder(s'.phase)))
    && (s.round == s'.round && s.phase == s'.phase ==> s'.log == s.log)
    && (Decided(s) ==> s'.log == s.log)
  }

  /** What no step takes back. */
  ghost predicate Keeps(w: World, s: Instance, s': Instance) {
    && s'.input == s.input && s'.supplement == s.supplement
    && s.log <= s'.log
    && (forall v :: HasPrefixQuorum(w.c.table, s.quality, v) ==> HasPrefixQuorum(w.c.table, s'.quality, v))
    && Forward(s, s')
  }
}
