/** Synchronous runs: honest participants that share their input and hold a strong quorum, with the
    rest silent. Whatever the order of delivery, all vote for that input in the first round, and once
    every message has been delivered all have decided it. */
module Synchrony {
  import opened Basics
  import opened Chains
  import opened Weights
  import opened Power
  import opened Tallies
  import opened Messages
  import opened Instances
  import opened Evidence
  import opened Network
  import opened Safety

  /** The committee, its honest participants, and the input and supplement that they share. */
  datatype Meeting = Meeting(c: Config, n: set<ActorID>, v: Chain, sd: SupplementalData)

  ghost predicate Assembled(x: Meeting) {
    && x.v != BOTTOM && QuorumOf(x.c.table, x.n) && x.c.table.scaledTotal > 0
    && forall id :: id in x.n ==> Get(x.c.table, id) > 0
  }

  // ---------- tallies without dissent ----------

  ghost predicate Agreed(x: Meeting, t: Tally) {
    forall id :: id in t ==> id in x.n && t[id] == x.v
  }

  lemma AgreedQuorum(x: Meeting, t: Tally)
    requires Assembled(x) && Agreed(x, t)
    ensures forall w :: HasQuorum(x.c.table, t, w) <==> w == x.v && QuorumOf(x.c.table, t.Keys)
    ensures !MultipleQuorums(x.c, t)
    ensures CouldReach(x.c.table, t, x.v, false)
    ensures ReceivedFromStrongQuorum(x.c.table, t) ==> QuorumOf(x.c.table, t.Keys)
  {
    assert Supporters(t, x.v) == t.Keys;
    forall w | w != x.v
      ensures !HasQuorum(x.c.table, t, w)
    {
      assert Supporters(t, w) == {};
    }
    UnanimousTally(x.c.table, t, x.v);
  }

  lemma AgreedBuilds(x: Meeting, t: Tally, r: nat, p: Phase)
    requires Assembled(x) && Agreed(x, t) && QuorumOf(x.c.table, t.Keys)
    ensures Built(x.c, x.sd, t, r, p, x.v).Some?
  {
    assert Supporters(t, x.v) == t.Keys;
    QuorumSignersMeaning(x.c.table, t.Keys);
  }

  lemma QuorumGrows(x: Meeting, a: set<ActorID>, b: set<ActorID>)
    requires QuorumOf(x.c.table, a) && a <= b
    ensures QuorumOf(x.c.table, b)
  {
    PowerOfMonotone(x.c.table, a, b);
  }

  /** The input is the longest prefix with a quorum. */
  lemma QualityPrefix(x: Meeting, t: Tally)
    requires Assembled(x) && Agreed(x, t)
    ensures |x.v| >= 2 ==> (HasPrefixQuorum(x.c.table, t, x.v) <==> QuorumOf(x.c.table, t.Keys))
    ensures HasPrefixQuorum(x.c.table, t, x.v) || QuorumOf(x.c.table, t.Keys) ==>
      LongestQuorumPrefix(x.c.table, t, x.v, |x.v|) == x.v
  {
    var v := x.v;
    assert v[..|v|] == v;
    if |v| >= 2 {
      assert PrefixSupporters(t, v) == t.Keys;
    } else {
      assert PrefixSupporters(t, v) == {} && BaseChain(v) == v;
      assert LongestQuorumPrefix(x.c.table, t, v, 0) == v;
    }
  }

  // ---------- one participant ----------

  function TallyOf(s: Instance, phase: Phase): Tally {
    match phase
    case QUALITY => s.quality
    case PREPARE => GetRound(s, 0).prepared
    case COMMIT => GetRound(s, 0).committed
    case DECIDE => s.decision
    case _ => map[]
  }

  function Phases(log: seq<Broadcast>): set<Phase> {
    set i | 0 <= i < |log| :: log[i].vote.phase
  }

  lemma PhasesAdd(log: seq<Broadcast>, b: Broadcast)
    ensures Phases(log + [b]) == Phases(log) + {b.vote.phase}
  {
    var all := log + [b];
    assert all[|log|] == b;
    forall ph | ph in Phases(log)
      ensures ph in Phases(all)
    {
      var i :| 0 <= i < |log| && log[i].vote.phase == ph;
      assert all[i] == log[i];
    }
  }

  /** A vote for the input in round 0, justified when it has to be. */
  predicate VotesFor(x: Meeting, b: Broadcast) {
    && b.vote == VoteAt(x.c, x.sd, 0, b.vote.phase, x.v)
    && (b.vote.phase == QUALITY || b.vote.phase == PREPARE || b.vote.phase == COMMIT || b.vote.phase == DECIDE)
    && (b.justification.Some? <==> b.vote.phase == COMMIT || b.vote.phase == DECIDE)
  }

  ghost predicate AllVoteFor(x: Meeting, log: seq<Broadcast>) {
    forall i :: 0 <= i < |log| ==> VotesFor(x, log[i])
  }

  ghost predicate TalliesAgree(x: Meeting, s: Instance) {
    && Agreed(x, s.quality) && Agreed(x, s.decision)
    && Agreed(x, GetRound(s, 0).prepared) && Agreed(x, GetRound(s, 0).committed)
  }

  /** Nothing of a later round was received, and no evidence of an earlier one. */
  ghost predicate FirstRoundOnly(s: Instance) {
    s.rounds.Keys <= {0} && GetRound(s, 0).preparedJust == map[] && GetRound(s, 0).converged == map[]
  }

  /** Which messages a participant has sent, by where it is. */
  ghost predicate SentOk(x: Meeting, p: ActorID, s: Instance) {
    var sent := Phases(s.log);
    && AllVoteFor(x, s.log)
    && (s.phase != INITIAL ==> QUALITY in sent)
    && (s.phase == INITIAL || s.phase == QUALITY ==> PREPARE !in sent)
    && (s.phase == PREPARE || s.phase == COMMIT ==> PREPARE in sent)
    && (s.phase == COMMIT ==> COMMIT in sent)
    && (Decided(s) <==> DECIDE in sent)
    && (p in GetRound(s, 0).prepared ==> PREPARE in sent)
    && (p in s.decision ==> DECIDE in sent)
  }

  ghost predicate Shape(x: Meeting, s: Instance) {
    && x.v != BOTTOM
    && s.input == x.v && s.supplement == x.sd && s.round == 0 && s.proposal == x.v
    && s.phase != CONVERGE && (s.phase == INITIAL ==> s == New(x.v, x.sd))
    && (s.phase != INITIAL && s.phase != QUALITY ==> s.value == x.v)
  }

  ghost predicate Base(x: Meeting, p: ActorID, s: Instance) {
    Shape(x, s) && TalliesAgree(x, s) && FirstRoundOnly(s) && SentOk(x, p, s)
  }

  /** Without a decision, no quorum of COMMIT and no DECIDE was counted. */
  ghost predicate Open(x: Meeting, s: Instance) {
    !Decided(s) ==> !QuorumOf(x.c.table, GetRound(s, 0).committed.Keys) && s.decision == map[]
  }

  /** Each phase was left when it could be, once the participant has heard itself. */
  ghost predicate Stable(x: Meeting, p: ActorID, s: Instance) {
    && Open(x, s)
    && (s.phase == QUALITY && |x.v| >= 2 ==> !QuorumOf(x.c.table, s.quality.Keys))
    && (s.phase == PREPARE && p in GetRound(s, 0).prepared ==> !QuorumOf(x.c.table, GetRound(s, 0).prepared.Keys))
    && (s.phase == DECIDE && p in s.decision ==> !QuorumOf(x.c.table, s.decision.Keys))
  }

  ghost predicate SameTallies(s: Instance, s': Instance) {
    s'.quality == s.quality && s'.rounds == s.rounds && s'.decision == s.decision
  }

  /** The timeout of QUALITY does not elapse before a quorum was counted. */
  ghost predicate Patient(x: Meeting, s: Instance, env: Env) {
    env.elapsed && s.phase == QUALITY ==> QuorumOf(x.c.table, s.quality.Keys)
  }

  // ---------- acting on a phase ----------

  lemma QualityTried(x: Meeting, p: ActorID, s: Instance, elapsed: bool) returns (s': Instance)
    requires Assembled(x) && Base(x, p, s) && Open(x, s) && s.phase == QUALITY
    requires elapsed ==> QuorumOf(x.c.table, s.quality.Keys)
    ensures s' == TryQuality(x.c, s, elapsed)
    ensures Base(x, p, s') && Stable(x, p, s') && SameTallies(s, s') && s'.phase != INITIAL
    ensures elapsed ==> s'.phase != QUALITY
  {
    QualityPrefix(x, s.quality);
    if HasPrefixQuorum(x.c.table, s.quality, x.v) || elapsed {
      s' := PrepareSent(x, p, s, AddCandidatePrefixes(s.candidates, x.v, |x.v|));
    } else {
      s' := s;
    }
  }

  lemma PrepareSent(x: Meeting, p: ActorID, s: Instance, candidates: set<Chain>) returns (s': Instance)
    requires Base(x, p, s) && Open(x, s) && s.phase == QUALITY
    ensures s' == BeginPrepare(x.c, s.(proposal := x.v, candidates := candidates, value := x.v), None)
    ensures Base(x, p, s') && Stable(x, p, s') && SameTallies(s, s') && s'.phase == PREPARE
  {
    s' := BeginPrepare(x.c, s.(proposal := x.v, candidates := candidates, value := x.v), None);
    PhasesAdd(s.log, Broadcast(VoteAt(x.c, x.sd, 0, PREPARE, x.v), None));
  }

  lemma CommitSent(x: Meeting, p: ActorID, s: Instance, j: Justification) returns (s': Instance)
    requires Base(x, p, s) && Open(x, s) && s.phase == PREPARE
    ensures s' == CommitWith(x.c, s, Some(j))
    ensures Base(x, p, s') && Stable(x, p, s') && SameTallies(s, s') && s'.phase == COMMIT
  {
    s' := CommitWith(x.c, s, Some(j));
    PhasesAdd(s.log, Broadcast(VoteAt(x.c, x.sd, 0, COMMIT, x.v), Some(j)));
  }

  lemma PrepareTried(x: Meeting, p: ActorID, s: Instance, elapsed: bool) returns (s': Instance)
    requires Assembled(x) && Base(x, p, s) && Open(x, s) && s.phase == PREPARE
    ensures s' == TryPrepare(x.c, s, elapsed)
    ensures Base(x, p, s') && Stable(x, p, s') && SameTallies(s, s') && s'.phase != INITIAL && s'.phase != QUALITY
  {
    var prepared := GetRound(s, 0).prepared;
    AgreedQuorum(x, prepared);
    if PrepareSupported(x.c, s) {
      if QuorumOf(x.c.table, prepared.Keys) {
        AgreedBuilds(x, prepared, 0, PREPARE);
      }
      assert s.(value := s.proposal) == s;
      s' := CommitSent(x, p, s, EvidenceToCommit(x.c, s).value);
    } else {
      s' := s;
    }
  }

  lemma DecideSent(x: Meeting, p: ActorID, s: Instance, j: Justification) returns (s': Instance)
    requires Base(x, p, s) && !Decided(s) && s.phase != INITIAL && p !in s.decision
    ensures s' == Send(x.c, s.(phase := DECIDE, proposal := x.v, value := x.v), 0, DECIDE, x.v, Some(j))
    ensures Base(x, p, s') && SameTallies(s, s') && s'.phase == DECIDE && Stable(x, p, s')
  {
    s' := Send(x.c, s.(phase := DECIDE, proposal := x.v, value := x.v), 0, DECIDE, x.v, Some(j));
    PhasesAdd(s.log, Broadcast(VoteAt(x.c, x.sd, 0, DECIDE, x.v), Some(j)));
  }

  lemma CommitTried(x: Meeting, p: ActorID, s: Instance, elapsed: bool, env: Env) returns (s': Instance)
    requires Assembled(x) && Base(x, p, s) && !Decided(s) && s.phase != INITIAL && s.decision == map[]
    ensures s' == TryCommit(x.c, s, 0, elapsed, env)
    ensures Base(x, p, s') && SameTallies(s, s')
    ensures
      if QuorumOf(x.c.table, GetRound(s, 0).committed.Keys) then s'.phase == DECIDE && Stable(x, p, s') else s' == s
  {
    var committed := GetRound(s, 0).committed;
    AgreedQuorum(x, committed);
    if QuorumOf(x.c.table, committed.Keys) {
      s' := CommitDecides(x, p, s, elapsed, env);
    } else {
      assert GetRound(s, 1) == EMPTY_ROUND && ConvergeJust(EMPTY_ROUND) == map[];
      s' := s;
    }
  }

  lemma CommitDecides(x: Meeting, p: ActorID, s: Instance, elapsed: bool, env: Env) returns (s': Instance)
    requires Assembled(x) && Base(x, p, s) && !Decided(s) && s.phase != INITIAL && s.decision == map[]
    requires QuorumOf(x.c.table, GetRound(s, 0).committed.Keys)
    ensures s' == TryCommit(x.c, s, 0, elapsed, env)
    ensures Base(x, p, s') && SameTallies(s, s') && s'.phase == DECIDE && Stable(x, p, s')
  {
    var committed := GetRound(s, 0).committed;
    AgreedQuorum(x, committed);
    AgreedBuilds(x, committed, 0, COMMIT);
    assert HasQuorum(x.c.table, committed, x.v);
    s' := DecideSent(x, p, s, EvidenceToDecide(x.c, s.(value := x.v), 0).value);
  }

  lemma DecideTried(x: Meeting, p: ActorID, s: Instance) returns (s': Instance)
    requires Assembled(x) && Base(x, p, s) && s.phase == DECIDE
    ensures s' == TryDecide(x.c, s)
    ensures Base(x, p, s') && Stable(x, p, s') && SameTallies(s, s') && Decided(s')
  {
    s' := TryDecide(x.c, s);
    AgreedQuorum(x, s.decision);
    if QuorumOf(x.c.table, s.decision.Keys) {
      AgreedBuilds(x, s.decision, 0, DECIDE);
      assert HasQuorum(x.c.table, s.decision, x.v);
    }
  }

  lemma PhaseTried(x: Meeting, p: ActorID, s: Instance, env: Env) returns (s': Instance)
    requires Assembled(x) && Base(x, p, s) && Open(x, s) && s.phase != INITIAL && Patient(x, s, env)
    ensures s' == TryCurrentPhase(x.c, s, env).s && TryCurrentPhase(x.c, s, env).error == NoError
    ensures TryCurrentPhase(x.c, s, env).changed
    ensures Base(x, p, s') && Stable(x, p, s') && SameTallies(s, s') && s'.phase != INITIAL
    ensures s.phase != QUALITY || env.elapsed ==> s'.phase != QUALITY
    ensures s.phase == TERMINATED ==> s' == s
  {
    match s.phase
    case QUALITY => s' := QualityTried(x, p, s, env.elapsed);
    case PREPARE => s' := PrepareTried(x, p, s, env.elapsed);
    case COMMIT => s' := CommitTried(x, p, s, env.elapsed, env);
    case DECIDE => s' := DecideTried(x, p, s);
    case TERMINATED => s' := s;
  }

  // ---------- receiving ----------

  /** A message that an honest participant of the meeting sends. */
  ghost predicate HonestVote(x: Meeting, m: GMessage) {
    m.sender in x.n && VotesFor(x, Broadcast(m.vote, m.justification))
  }

  /** The participant with the vote counted. */
  function Counted(s: Instance, m: GMessage): Instance {
    match m.vote.phase
    case QUALITY => s.(quality := Record(s.quality, m.sender, m.vote.value))
    case PREPARE => SetRound(s, 0, RecordPrepare(GetRound(s, 0), m))
    case COMMIT => SetRound(s, 0, RecordCommit(GetRound(s, 0), m))
    case _ => s.(decision := Record(s.decision, m.sender, m.vote.value))
  }

  lemma CountedBase(x: Meeting, p: ActorID, s: Instance, m: GMessage)
    requires Base(x, p, s) && HonestVote(x, m) && s.phase != INITIAL
    requires m.sender == p ==> m.vote.phase in Phases(s.log)
    requires m.vote.phase != DECIDE || s.phase == DECIDE
    ensures Base(x, p, Counted(s, m))
  {
    match m.vote.phase
    case QUALITY => QualityCounted(x, p, s, m);
    case PREPARE => PrepareCounted(x, p, s, m);
    case COMMIT => CommitCounted(x, p, s, m);
    case DECIDE => DecideCounted(x, p, s, m);
  }

  lemma QualityCounted(x: Meeting, p: ActorID, s: Instance, m: GMessage)
    requires Base(x, p, s) && HonestVote(x, m) && s.phase != INITIAL && m.vote.phase == QUALITY
    ensures Base(x, p, s.(quality := Record(s.quality, m.sender, m.vote.value)))
  {
  }

  lemma PrepareCounted(x: Meeting, p: ActorID, s: Instance, m: GMessage)
    requires Base(x, p, s) && HonestVote(x, m) && s.phase != INITIAL && m.vote.phase == PREPARE
    requires m.sender == p ==> PREPARE in Phases(s.log)
    ensures Base(x, p, SetRound(s, 0, RecordPrepare(GetRound(s, 0), m)))
  {
  }

  lemma CommitCounted(x: Meeting, p: ActorID, s: Instance, m: GMessage)
    requires Base(x, p, s) && HonestVote(x, m) && s.phase != INITIAL && m.vote.phase == COMMIT
    ensures Base(x, p, SetRound(s, 0, RecordCommit(GetRound(s, 0), m)))
  {
  }

  lemma DecideCounted(x: Meeting, p: ActorID, s: Instance, m: GMessage)
    requires Base(x, p, s) && HonestVote(x, m) && s.phase == DECIDE
    ensures Base(x, p, s.(decision := Record(s.decision, m.sender, m.vote.value)))
  {
  }

  lemma CountedHas(s: Instance, m: GMessage, phase: Phase)
    requires m.vote.phase == QUALITY || m.vote.phase == PREPARE || m.vote.phase == COMMIT || m.vote.phase == DECIDE
    ensures m.sender in TallyOf(Counted(s, m), m.vote.phase)
    ensures TallyOf(s, phase).Keys <= TallyOf(Counted(s, m), phase).Keys
  {
  }

  /** What receiving a message leads to: the vote counted, and no way back. */
  ghost predicate Took(s: Instance, s': Instance, m: GMessage) {
    && s'.phase != INITIAL && (s.phase != QUALITY ==> s'.phase != QUALITY)
    && m.sender in TallyOf(s', m.vote.phase)
    && forall phase :: TallyOf(s, phase).Keys <= TallyOf(s', phase).Keys
  }

  lemma TookCounted(s: Instance, s': Instance, m: GMessage)
    requires m.vote.phase == QUALITY || m.vote.phase == PREPARE || m.vote.phase == COMMIT || m.vote.phase == DECIDE
    requires SameTallies(Counted(s, m), s') && s'.phase != INITIAL && (s.phase != QUALITY ==> s'.phase != QUALITY)
    ensures Took(s, s', m)
  {
    var t := Counted(s, m);
    forall phase
      ensures TallyOf(s, phase).Keys <= TallyOf(s', phase).Keys && TallyOf(s', phase) == TallyOf(t, phase)
    {
      CountedHas(s, m, phase);
    }
    CountedHas(s, m, m.vote.phase);
  }

  ghost predicate Ready(x: Meeting, p: ActorID, s: Instance, m: GMessage, env: Env) {
    && Assembled(x) && Base(x, p, s) && Stable(x, p, s) && Patient(x, s, env)
    && s.phase != INITIAL && s.phase != TERMINATED
    && HonestVote(x, m) && (m.sender == p ==> m.vote.phase in Phases(s.log))
  }

  lemma QualityReceived(x: Meeting, p: ActorID, s: Instance, m: GMessage, env: Env) returns (s': Instance)
    requires Ready(x, p, s, m, env) && m.vote.phase == QUALITY
    ensures s' == ReceiveQuality(x.c, s, m, env).s && ReceiveQuality(x.c, s, m, env) == Outcome(s', true, NoError)
    ensures Base(x, p, s') && Stable(x, p, s') && Took(s, s', m)
  {
    CountedBase(x, p, s, m);
    var t := Counted(s, m);
    if s.phase == QUALITY {
      if env.elapsed {
        QuorumGrows(x, s.quality.Keys, t.quality.Keys);
      }
      s' := PhaseTried(x, p, t, env);
    } else {
      s' := CandidatesUpdated(x, p, t);
    }
    TookCounted(s, s', m);
  }

  lemma CandidatesUpdated(x: Meeting, p: ActorID, s: Instance) returns (s': Instance)
    requires Base(x, p, s) && Stable(x, p, s) && s.phase != INITIAL && s.phase != QUALITY
    ensures s' == UpdateCandidatesFromQuality(x.c, s) && SameTallies(s, s') && s'.phase == s.phase
    ensures Base(x, p, s') && Stable(x, p, s')
  {
    s' := UpdateCandidatesFromQuality(x.c, s);
  }

  lemma PrepareReceived(x: Meeting, p: ActorID, s: Instance, m: GMessage, env: Env) returns (s': Instance)
    requires Ready(x, p, s, m, env) && m.vote.phase == PREPARE
    ensures s' == ReceivePrepare(x.c, s, m, env).s && ReceivePrepare(x.c, s, m, env) == Outcome(s', true, NoError)
    ensures Base(x, p, s') && Stable(x, p, s') && Took(s, s', m)
  {
    CountedBase(x, p, s, m);
    s' := PhaseTried(x, p, Counted(s, m), env);
    TookCounted(s, s', m);
  }

  lemma CommitReceived(x: Meeting, p: ActorID, s: Instance, m: GMessage, env: Env) returns (s': Instance)
    requires Ready(x, p, s, m, env) && m.vote.phase == COMMIT
    ensures s' == ReceiveCommit(x.c, s, m, env).s && ReceiveCommit(x.c, s, m, env) == Outcome(s', true, NoError)
    ensures Base(x, p, s') && Stable(x, p, s') && Took(s, s', m)
  {
    CountedBase(x, p, s, m);
    var t := Counted(s, m);
    if s.phase == DECIDE {
      s' := PhaseTried(x, p, t, env);
    } else {
      s' := CommitTaken(x, p, t, m, env);
    }
    TookCounted(s, s', m);
  }

  /** Before DECIDE, a quorum of COMMIT is looked for, then PREPARE may end. */
  lemma CommitTaken(x: Meeting, p: ActorID, t: Instance, m: GMessage, env: Env) returns (s': Instance)
    requires Assembled(x) && Base(x, p, t) && !Decided(t) && t.phase != INITIAL && t.decision == map[]
    requires Patient(x, t, env) && (t.phase == QUALITY && |x.v| >= 2 ==> !QuorumOf(x.c.table, t.quality.Keys))
    requires m.vote.round == 0 && m.vote.value == x.v
    ensures TryCommitThenPhase(x.c, t, m, env) == Outcome(s', true, NoError)
    ensures Base(x, p, s') && Stable(x, p, s') && SameTallies(t, s') && s'.phase != INITIAL
    ensures t.phase != QUALITY ==> s'.phase != QUALITY
  {
    s' := CommitTried(x, p, t, env.elapsedAtCommit, env);
    if s'.phase == PREPARE {
      s' := PhaseTried(x, p, t, env);
    }
  }

  /** In DECIDE, or on entering it, the vote is counted and the phase tried. */
  lemma DecideTaken(x: Meeting, p: ActorID, s: Instance, m: GMessage, env: Env) returns (s': Instance)
    requires Ready(x, p, s, m, env) && m.vote.phase == DECIDE && s.phase == DECIDE
    ensures TryCurrentPhase(x.c, Counted(s, m), env) == Outcome(s', true, NoError)
    ensures Base(x, p, s') && Stable(x, p, s') && Took(s, s', m)
  {
    CountedBase(x, p, s, m);
    s' := PhaseTried(x, p, Counted(s, m), env);
    TookCounted(s, s', m);
  }

  lemma DecideEntered(x: Meeting, p: ActorID, s: Instance, m: GMessage, env: Env) returns (t: Instance)
    requires Ready(x, p, s, m, env) && m.vote.phase == DECIDE && s.phase != DECIDE
    ensures t == SkipToDecide(x.c, s, m.vote.value, m.justification)
    ensures Ready(x, p, t, m, env) && SameTallies(s, t) && t.phase == DECIDE
  {
    t := DecideSent(x, p, s, m.justification.value);
  }

  lemma DecideReceived(x: Meeting, p: ActorID, s: Instance, m: GMessage, env: Env) returns (s': Instance)
    requires Ready(x, p, s, m, env) && m.vote.phase == DECIDE
    ensures s' == ReceiveDecide(x.c, s, m, env).s && ReceiveDecide(x.c, s, m, env) == Outcome(s', true, NoError)
    ensures Base(x, p, s') && Stable(x, p, s') && Took(s, s', m)
  {
    var t := s;
    if s.phase != DECIDE {
      t := DecideEntered(x, p, s, m, env);
    }
    s' := DecideTaken(x, p, t, m, env);
    DecideCommutes(x, s, t, m, env);
    TookFrom(s, t, s', m);
  }

  /** Counting the vote and entering the phase commute. */
  lemma DecideCommutes(x: Meeting, s: Instance, t: Instance, m: GMessage, env: Env)
    requires m.vote.phase == DECIDE
    requires t == if s.phase != DECIDE then SkipToDecide(x.c, s, m.vote.value, m.justification) else s
    ensures ReceiveDecide(x.c, s, m, env) == TryCurrentPhase(x.c, Counted(t, m), env)
  {
  }

  lemma TookFrom(s: Instance, t: Instance, s': Instance, m: GMessage)
    requires SameTallies(s, t) && Took(t, s', m) && t.phase != QUALITY
    ensures Took(s, s', m)
  {
    assert forall phase :: TallyOf(t, phase) == TallyOf(s, phase);
  }

  /** A message of the meeting is taken up. */
  lemma Dispatched(x: Meeting, s: Instance, m: GMessage, env: Env)
    requires x.v != BOTTOM && Shape(x, s) && s.phase != TERMINATED && HonestVote(x, m)
    ensures ReceiveOne(x.c, s, m, env) ==
      match m.vote.phase
      case QUALITY => ReceiveQuality(x.c, s, m, env)
      case PREPARE => ReceivePrepare(x.c, s, m, env)
      case COMMIT => ReceiveCommit(x.c, s, m, env)
      case _ => ReceiveDecide(x.c, s, m, env)
  {
  }

  lemma OneReceived(x: Meeting, p: ActorID, s: Instance, m: GMessage, env: Env) returns (s': Instance)
    requires Ready(x, p, s, m, env)
    ensures ReceiveOne(x.c, s, m, env) == Outcome(s', true, NoError)
    ensures Base(x, p, s') && Stable(x, p, s') && Took(s, s', m)
  {
    Dispatched(x, s, m, env);
    match m.vote.phase
    case QUALITY => s' := QualityReceived(x, p, s, m, env);
    case PREPARE => s' := PrepareReceived(x, p, s, m, env);
    case COMMIT => s' := CommitReceived(x, p, s, m, env);
    case DECIDE => s' := DecideReceived(x, p, s, m, env);
  }

  // ---------- all participants ----------

  /** The states of a participant in a synchronous run. */
  ghost function CalmStates(x: Meeting, p: ActorID): iset<Instance> {
    iset s | Base(x, p, s) && Stable(x, p, s)
  }

  ghost predicate AllCalm(x: Meeting, nodes: map<ActorID, Instance>, calm: ActorID -> iset<Instance>) {
    nodes.Keys == x.n && forall p :: p in nodes ==> nodes[p] in calm(p)
  }

  ghost predicate Calm(x: Meeting, sys: System) {
    sys.w.c == x.c && Room(sys.w, 0, 1) && AllCalm(x, sys.nodes, (p: ActorID) => CalmStates(x, p))
  }

  /** Only honest messages arrive, and QUALITY does not time out before a quorum was counted; a batch
      is delivered at the start, when nothing has timed out. */
  ghost predicate InTime(x: Meeting, sys: System, a: Action)
    requires a.p in sys.nodes
  {
    match a
    case Start(_, queued, envs, _) =>
      (forall m :: m in queued ==> Sent(sys, m)) && (forall env :: env in envs ==> !env.elapsed)
    case Deliver(p, m, env) => Sent(sys, m) && Patient(x, sys.nodes[p], env)
    case Alarm(p, env) => Patient(x, sys.nodes[p], env)
  }

  lemma SentIsHonest(x: Meeting, sys: System, m: GMessage, p: ActorID)
    requires Calm(x, sys) && Sent(sys, m) && p in sys.nodes
    ensures HonestVote(x, m) && (m.sender == p ==> m.vote.phase in Phases(sys.nodes[p].log))
  {
    var q := m.sender;
    assert sys.nodes[q] in CalmStates(x, q);
    var i :| 0 <= i < |sys.nodes[q].log| && sys.nodes[q].log[i] == Broadcast(m.vote, m.justification);
    assert VotesFor(x, sys.nodes[q].log[i]);
  }

  /** A message of round 0 calls for no skip. */
  lemma NoSkip(c: Config, s: Instance, received: seq<nat>, pick: Chain)
    requires s.round == 0 && forall i :: 0 <= i < |received| ==> received[i] == 0
    ensures PostReceive(c, s, received, pick) == s
    decreases |received|
  {
    if received != [] {
      NoSkip(c, s, received[..|received| - 1], pick);
    }
  }

  lemma MessageReceived(x: Meeting, p: ActorID, s: Instance, m: GMessage, env: Env) returns (s': Instance)
    requires Ready(x, p, s, m, env)
    ensures s' == Receive(x.c, s, m, env).s
    ensures s' in CalmStates(x, p) && Took(s, s', m)
  {
    s' := OneReceived(x, p, s, m, env);
    NoSkip(x.c, s', [m.vote.round], env.skipPick);
  }

  lemma AlarmReceived(x: Meeting, p: ActorID, s: Instance, env: Env) returns (s': Instance)
    requires Assembled(x) && s in CalmStates(x, p) && s.phase != INITIAL && Patient(x, s, env)
    ensures s' == ReceiveAlarm(x.c, s, env).s
    ensures s' in CalmStates(x, p) && SameTallies(s, s') && s'.phase != INITIAL
    ensures s.phase != QUALITY || env.elapsed ==> s'.phase != QUALITY
    ensures s.phase == TERMINATED ==> s' == s
  {
    s' := PhaseTried(x, p, s, env);
  }

  /** A batch of messages that were sent by others before this participant started. */
  lemma {:induction false} BatchReceived(x: Meeting, p: ActorID, s: Instance, ms: seq<GMessage>, envs: seq<Env>,
      received: set<nat>)
    returns (s': Instance)
    requires Assembled(x) && s in CalmStates(x, p) && s.phase != INITIAL && |ms| == |envs| && received <= {0}
    requires forall m :: m in ms ==> HonestVote(x, m) && m.sender != p
    requires forall env :: env in envs ==> !env.elapsed
    ensures var (o, all) := ReceiveEach(x.c, s, ms, envs, received);
      o == Outcome(s', true, NoError) && all <= {0}
    ensures s' in CalmStates(x, p) && s'.phase != INITIAL
    decreases |ms|
  {
    if ms == [] {
      s' := s;
    } else {
      assert ms[0] in ms && envs[0] in envs;
      var t, changed := BatchFirst(x, p, s, ms[0], envs[0]);
      s' := BatchReceived(x, p, t, ms[1..], envs[1..], if changed then received + {ms[0].vote.round} else received);
    }
  }

  lemma BatchFirst(x: Meeting, p: ActorID, s: Instance, m: GMessage, env: Env) returns (t: Instance, changed: bool)
    requires Assembled(x) && s in CalmStates(x, p) && s.phase != INITIAL && HonestVote(x, m) && m.sender != p
    requires !env.elapsed
    ensures ReceiveOne(x.c, s, m, env) == Outcome(t, changed, NoError) && m.vote.round == 0
    ensures t in CalmStates(x, p) && t.phase != INITIAL
  {
    if s.phase == TERMINATED {
      t, changed := s, false;
    } else {
      t := OneReceived(x, p, s, m, env);
      changed := true;
    }
  }

  lemma {:induction false} AscendingZero(rs: set<nat>, n: nat)
    requires rs <= {0}
    ensures forall i :: 0 <= i < |Ascending(rs, n)| ==> Ascending(rs, n)[i] == 0
  {
    if n > 0 {
      AscendingZero(rs, n - 1);
    }
  }

  lemma Begun(x: Meeting, p: ActorID, s: Instance) returns (s': Instance)
    requires Assembled(x) && s in CalmStates(x, p) && s.phase == INITIAL
    ensures s' == BeginQuality(x.c, s) && s' in CalmStates(x, p) && s'.phase == QUALITY
  {
    s' := BeginQuality(x.c, s);
    PhasesAdd(s.log, Broadcast(VoteAt(x.c, x.sd, 0, QUALITY, x.v), None));
    PowerOfNone(x.c.table);
    var none: Tally := map[];
    assert none.Keys == {};
  }

  lemma StartReceived(x: Meeting, p: ActorID, s: Instance, ms: seq<GMessage>, envs: seq<Env>, pick: Chain)
    returns (s': Instance)
    requires Assembled(x) && s in CalmStates(x, p) && s.phase == INITIAL && |ms| == |envs|
    requires forall m :: m in ms ==> HonestVote(x, m) && m.sender != p
    requires forall env :: env in envs ==> !env.elapsed
    ensures s' == ReceiveMany(x.c, BeginQuality(x.c, s), ms, envs, pick).s
    ensures s' in CalmStates(x, p) && s'.phase != INITIAL
  {
    var t := Begun(x, p, s);
    s' := BatchReceived(x, p, t, ms, envs, {});
    var (o, all) := ReceiveEach(x.c, t, ms, envs, {});
    AscendingZero(all, RoundBound(ms));
    NoSkip(x.c, s', Ascending(all, RoundBound(ms)), pick);
  }

  /** Where a step leads its participant. */
  lemma Moves(x: Meeting, sys: System, a: Action) returns (s': Instance)
    requires Assembled(x) && Calm(x, sys) && Enabled(sys, a) && InTime(x, sys, a)
    ensures s' == Moved(sys, a) && s' in CalmStates(x, a.p) && s'.phase != INITIAL
    ensures a.Deliver? && sys.nodes[a.p].phase != TERMINATED ==> Took(sys.nodes[a.p], s', a.m)
    ensures sys.nodes[a.p].phase == TERMINATED ==> s' == sys.nodes[a.p]
    ensures a.Alarm? ==>
      SameTallies(sys.nodes[a.p], s') && (sys.nodes[a.p].phase != QUALITY || a.env.elapsed ==> s'.phase != QUALITY)
  {
    var s := sys.nodes[a.p];
    assert s in CalmStates(x, a.p);
    match a
    case Start(p, queued, envs, pick) =>
      forall m | m in queued
        ensures HonestVote(x, m) && m.sender != p
      {
        SentIsHonest(x, sys, m, p);
        assert s.log == [];
      }
      s' := StartReceived(x, p, s, queued, envs, pick);
    case Deliver(p, m, env) =>
      SentIsHonest(x, sys, m, p);
      if s.phase == TERMINATED {
        s' := s;
      } else {
        s' := MessageReceived(x, p, s, m, env);
      }
    case Alarm(p, env) =>
      s' := AlarmReceived(x, p, s, env);
  }

  // ---------- runs ----------

  ghost predicate Synchronous(x: Meeting, sys: System, acts: seq<Action>)
    decreases |acts|
  {
    acts == [] || (Enabled(sys, acts[0]) && InTime(x, sys, acts[0]) && Synchronous(x, Apply(sys, acts[0]), acts[1..]))
  }

  lemma {:induction false} SynchronousRuns(x: Meeting, sys: System, acts: seq<Action>)
    requires Synchronous(x, sys, acts)
    ensures Runs(sys, acts)
    decreases |acts|
  {
    if acts != [] {
      SynchronousRuns(x, Apply(sys, acts[0]), acts[1..]);
    }
  }

  lemma CalmNext(x: Meeting, nodes: map<ActorID, Instance>, calm: ActorID -> iset<Instance>, p: ActorID, s: Instance)
    requires AllCalm(x, nodes, calm) && p in nodes && s in calm(p)
    ensures AllCalm(x, nodes[p := s], calm)
  {
  }

  lemma CalmStep(x: Meeting, sys: System, a: Action)
    requires Assembled(x) && Calm(x, sys) && Enabled(sys, a) && InTime(x, sys, a)
    ensures Calm(x, Apply(sys, a))
  {
    var s' := Moves(x, sys, a);
    CalmNext(x, sys.nodes, (p: ActorID) => CalmStates(x, p), a.p, s');
    assert Apply(sys, a).nodes == sys.nodes[a.p := s'];
  }

  lemma {:induction false} CalmRun(x: Meeting, sys: System, acts: seq<Action>)
    requires Assembled(x) && Calm(x, sys) && Synchronous(x, sys, acts) && Runs(sys, acts)
    ensures Calm(x, After(sys, acts))
    decreases |acts|
  {
    if acts != [] {
      CalmStep(x, sys, acts[0]);
      CalmRun(x, Apply(sys, acts[0]), acts[1..]);
    }
  }

  // ---------- when nothing is left to deliver ----------

  ghost predicate AllTerminated(sys: System) {
    forall p :: p in sys.nodes ==> sys.nodes[p].phase == TERMINATED
  }

  /** Everyone has started, and counted every message that was sent, unless it has terminated; with
      nothing beyond the base to agree on, QUALITY has timed out. */
  ghost predicate Quiet(x: Meeting, sys: System) {
    && (forall p :: p in sys.nodes ==> sys.nodes[p].phase != INITIAL && (|x.v| == 1 ==> sys.nodes[p].phase != QUALITY))
    && (forall p, q, phase :: p in sys.nodes && q in sys.nodes && phase in Phases(sys.nodes[q].log) ==>
          sys.nodes[p].phase == TERMINATED || q in TallyOf(sys.nodes[p], phase))
  }

  /** What a participant has sent by where it is, and what it has not counted. */
  ghost predicate Placed(x: Meeting, p: ActorID, s: Instance) {
    var sent := Phases(s.log);
    && s.phase != CONVERGE
    && (s.phase != INITIAL ==> QUALITY in sent)
    && (s.phase == PREPARE || s.phase == COMMIT ==> PREPARE in sent)
    && (s.phase == COMMIT ==> COMMIT in sent)
    && (Decided(s) <==> DECIDE in sent)
    && Stable(x, p, s)
  }

  ghost predicate AllPlaced(x: Meeting, sys: System) {
    sys.nodes.Keys == x.n && forall p :: p in sys.nodes ==> Placed(x, p, sys.nodes[p])
  }

  lemma CalmIsPlaced(x: Meeting, sys: System)
    requires Calm(x, sys)
    ensures AllPlaced(x, sys)
  {
    forall p | p in sys.nodes
      ensures Placed(x, p, sys.nodes[p])
    {
      assert sys.nodes[p] in CalmStates(x, p);
    }
  }

  /** Who has counted a phase of everyone has counted itself and a quorum. */
  lemma CountedAll(x: Meeting, sys: System, p: ActorID, phase: Phase)
    requires Assembled(x) && sys.nodes.Keys == x.n && Quiet(x, sys) && p in sys.nodes
    requires sys.nodes[p].phase != TERMINATED
    requires forall q :: q in sys.nodes ==> phase in Phases(sys.nodes[q].log)
    ensures p in TallyOf(sys.nodes[p], phase) && QuorumOf(x.c.table, TallyOf(sys.nodes[p], phase).Keys)
  {
    QuorumGrows(x, x.n, TallyOf(sys.nodes[p], phase).Keys);
  }

  lemma QuietLeavesQuality(x: Meeting, sys: System, p: ActorID)
    requires Assembled(x) && AllPlaced(x, sys) && Quiet(x, sys) && p in sys.nodes
    ensures sys.nodes[p].phase != INITIAL && sys.nodes[p].phase != QUALITY
  {
    if sys.nodes[p].phase == QUALITY {
      CountedAll(x, sys, p, QUALITY);
      assert false;
    }
  }

  /** If someone has sent DECIDE, everyone has. */
  lemma QuietSpreadsDecide(x: Meeting, sys: System, d: ActorID, q: ActorID)
    requires AllPlaced(x, sys) && Quiet(x, sys) && d in sys.nodes && q in sys.nodes && Decided(sys.nodes[d])
    ensures DECIDE in Phases(sys.nodes[q].log)
  {
    assert Placed(x, d, sys.nodes[d]) && Placed(x, q, sys.nodes[q]);
    assert sys.nodes[q].phase == TERMINATED || d in TallyOf(sys.nodes[q], DECIDE);
  }

  lemma QuietAfterDecide(x: Meeting, sys: System, d: ActorID, p: ActorID)
    requires Assembled(x) && AllPlaced(x, sys) && Quiet(x, sys) && d in sys.nodes && p in sys.nodes
    requires Decided(sys.nodes[d])
    ensures sys.nodes[p].phase == TERMINATED
  {
    forall q | q in sys.nodes
      ensures DECIDE in Phases(sys.nodes[q].log)
    {
      QuietSpreadsDecide(x, sys, d, q);
    }
    assert Placed(x, p, sys.nodes[p]);
    if sys.nodes[p].phase != TERMINATED {
      CountedAll(x, sys, p, DECIDE);
      assert false;
    }
  }

  ghost predicate NoneDecided(sys: System) {
    forall d :: d in sys.nodes ==> !Decided(sys.nodes[d])
  }

  lemma QuietSendsPrepare(x: Meeting, sys: System, q: ActorID)
    requires Assembled(x) && AllPlaced(x, sys) && Quiet(x, sys) && NoneDecided(sys) && q in sys.nodes
    ensures PREPARE in Phases(sys.nodes[q].log)
  {
    QuietLeavesQuality(x, sys, q);
    assert Placed(x, q, sys.nodes[q]);
  }

  lemma QuietSendsCommit(x: Meeting, sys: System, q: ActorID)
    requires Assembled(x) && AllPlaced(x, sys) && Quiet(x, sys) && NoneDecided(sys) && q in sys.nodes
    ensures COMMIT in Phases(sys.nodes[q].log)
  {
    forall r | r in sys.nodes
      ensures PREPARE in Phases(sys.nodes[r].log)
    {
      QuietSendsPrepare(x, sys, r);
    }
    QuietLeavesQuality(x, sys, q);
    assert Placed(x, q, sys.nodes[q]);
    CountedAll(x, sys, q, PREPARE);
  }

  /** Without a DECIDE, everyone is in COMMIT, which a quorum would have ended. */
  lemma QuietNeedsDecide(x: Meeting, sys: System, p: ActorID)
    requires Assembled(x) && AllPlaced(x, sys) && Quiet(x, sys) && p in sys.nodes
    ensures !NoneDecided(sys)
  {
    if NoneDecided(sys) {
      forall q | q in sys.nodes
        ensures COMMIT in Phases(sys.nodes[q].log)
      {
        QuietSendsCommit(x, sys, q);
      }
      assert Placed(x, p, sys.nodes[p]);
      CountedAll(x, sys, p, COMMIT);
      assert false;
    }
  }

  /** Once every message has been delivered, all have decided. */
  lemma QuietDecides(x: Meeting, sys: System)
    requires Assembled(x) && Calm(x, sys) && Quiet(x, sys)
    ensures AllTerminated(sys)
  {
    CalmIsPlaced(x, sys);
    forall p | p in sys.nodes
      ensures sys.nodes[p].phase == TERMINATED
    {
      QuietNeedsDecide(x, sys, p);
      var d :| d in sys.nodes && Decided(sys.nodes[d]);
      QuietAfterDecide(x, sys, d, p);
    }
  }

  // ---------- from every state ----------

  /** What is left for a participant to do. */
  datatype Task = ToStart | ToLeave | ToCount(q: ActorID, phase: Phase)

  predicate Left(s: Instance, t: Task) {
    match t
    case ToStart => s.phase == INITIAL
    case ToLeave => s.phase == INITIAL || s.phase == QUALITY
    case ToCount(q, phase) => s.phase != TERMINATED && q !in TallyOf(s, phase)
  }

  /** Nothing more is left to do than before. */
  ghost predicate WentOn(s: Instance, s': Instance) {
    forall t :: Left(s', t) ==> Left(s, t)
  }

  lemma TookGoesOn(s: Instance, s': Instance, m: GMessage)
    requires Took(s, s', m) && s.phase != INITIAL && s.phase != TERMINATED
    ensures WentOn(s, s')
  {
  }

  lemma WaitedGoesOn(s: Instance, s': Instance)
    requires SameTallies(s, s') && s.phase != INITIAL && s.phase != TERMINATED
    requires s'.phase != INITIAL && (s.phase != QUALITY ==> s'.phase != QUALITY)
    ensures WentOn(s, s')
  {
    assert forall phase :: TallyOf(s', phase) == TallyOf(s, phase);
  }

  lemma StartGoesOn(x: Meeting, s: Instance, s': Instance)
    requires Shape(x, s) && s.phase == INITIAL
    ensures WentOn(s, s')
  {
    assert forall phase :: TallyOf(s, phase) == map[];
  }

  lemma GoesOn(x: Meeting, sys: System, a: Action) returns (s': Instance)
    requires Assembled(x) && Calm(x, sys) && Enabled(sys, a) && InTime(x, sys, a)
    ensures s' == Moved(sys, a) && WentOn(sys.nodes[a.p], s')
  {
    s' := Moves(x, sys, a);
    var s := sys.nodes[a.p];
    if s.phase == INITIAL {
      assert s in CalmStates(x, a.p);
      StartGoesOn(x, s, s');
    } else if s.phase != TERMINATED {
      if a.Deliver? {
        TookGoesOn(s, s', a.m);
      } else {
        WaitedGoesOn(s, s');
      }
    }
  }

  ghost function Kinds(n: set<ActorID>): set<Task> {
    {ToStart, ToLeave} + set q, phase | q in n && phase in {QUALITY, PREPARE, COMMIT, DECIDE} :: ToCount(q, phase)
  }

  ghost function Tasks(n: set<ActorID>, nodes: map<ActorID, Instance>): set<(ActorID, Task)> {
    set p, t | p in nodes && t in Kinds(n) && Left(nodes[p], t) :: (p, t)
  }

  lemma TasksShrink(n: set<ActorID>, nodes: map<ActorID, Instance>, p: ActorID, s': Instance, t: Task)
    requires p in nodes && t in Kinds(n) && WentOn(nodes[p], s') && Left(nodes[p], t) && !Left(s', t)
    ensures Tasks(n, nodes[p := s']) < Tasks(n, nodes)
  {
    assert (p, t) in Tasks(n, nodes) && (p, t) !in Tasks(n, nodes[p := s']);
  }

  /** What a participant hands to the network. */
  function MessageOf(q: ActorID, b: Broadcast): GMessage {
    GMessage(q, b.vote, [], Unranked, b.justification)
  }

  function Clock(elapsed: bool): Env {
    Env(elapsed, elapsed, BOTTOM, BOTTOM, BOTTOM, BOTTOM)
  }

  /** Some participant has a message of another left to count. */
  ghost predicate Uncounted(sys: System, p: ActorID, q: ActorID, phase: Phase) {
    p in sys.nodes && q in sys.nodes && phase in Phases(sys.nodes[q].log) && Left(sys.nodes[p], ToCount(q, phase))
  }

  lemma CanDeliver(x: Meeting, sys: System, p: ActorID, q: ActorID, phase: Phase) returns (m: GMessage)
    requires Assembled(x) && Calm(x, sys) && Reachable(sys) && Uncounted(sys, p, q, phase)
    requires sys.nodes[p].phase != INITIAL
    ensures Enabled(sys, Deliver(p, m, Clock(false))) && Sent(sys, m) && m.sender == q && m.vote.phase == phase
    ensures phase in {QUALITY, PREPARE, COMMIT, DECIDE}
  {
    var log := sys.nodes[q].log;
    var i :| 0 <= i < |log| && log[i].vote.phase == phase;
    Closure(sys, q, i, [], Unranked);
    m := MessageOf(q, log[i]);
    assert log[i] in log;
    SentIsHonest(x, sys, m, p);
  }

  lemma CountNext(x: Meeting, sys: System, p: ActorID, q: ActorID, phase: Phase) returns (a: Action, t: Task)
    requires Assembled(x) && Calm(x, sys) && Reachable(sys)
    requires Uncounted(sys, p, q, phase) && sys.nodes[p].phase != INITIAL
    ensures Enabled(sys, a) && InTime(x, sys, a) && t in Kinds(x.n)
    ensures Left(sys.nodes[a.p], t) && !Left(Moved(sys, a), t)
  {
    var m := CanDeliver(x, sys, p, q, phase);
    a, t := Deliver(p, m, Clock(false)), ToCount(q, phase);
    var s' := Moves(x, sys, a);
  }

  lemma StartNext(x: Meeting, sys: System, p: ActorID) returns (a: Action, t: Task)
    requires Assembled(x) && Calm(x, sys) && p in sys.nodes && sys.nodes[p].phase == INITIAL
    ensures Enabled(sys, a) && InTime(x, sys, a) && t in Kinds(x.n)
    ensures Left(sys.nodes[a.p], t) && !Left(Moved(sys, a), t)
  {
    a, t := Start(p, [], [], BOTTOM), ToStart;
    assert sys.nodes[p] in CalmStates(x, p);
    var s' := Moves(x, sys, a);
  }

  lemma LeaveNext(x: Meeting, sys: System, p: ActorID) returns (a: Action, t: Task)
    requires Assembled(x) && Calm(x, sys) && p in sys.nodes && sys.nodes[p].phase == QUALITY
    requires QuorumOf(x.c.table, sys.nodes[p].quality.Keys)
    ensures Enabled(sys, a) && InTime(x, sys, a) && t in Kinds(x.n)
    ensures Left(sys.nodes[a.p], t) && !Left(Moved(sys, a), t)
  {
    a, t := Alarm(p, Clock(true)), ToLeave;
    assert sys.nodes[p] in CalmStates(x, p);
    var s' := Moves(x, sys, a);
  }

  /** A step that leaves less to do, if not everyone has terminated. */
  lemma Step(x: Meeting, sys: System) returns (a: Action, t: Task)
    requires Assembled(x) && Calm(x, sys) && Reachable(sys) && !AllTerminated(sys)
    ensures Enabled(sys, a) && InTime(x, sys, a) && t in Kinds(x.n)
    ensures Left(sys.nodes[a.p], t) && !Left(Moved(sys, a), t)
  {
    if p :| p in sys.nodes && sys.nodes[p].phase == INITIAL {
      a, t := StartNext(x, sys, p);
    } else if p, q, phase :| Uncounted(sys, p, q, phase) {
      a, t := CountNext(x, sys, p, q, phase);
    } else if p :| p in sys.nodes && sys.nodes[p].phase == QUALITY {
      AllQualityCounted(x, sys, p);
      a, t := LeaveNext(x, sys, p);
    } else {
      NothingLeft(x, sys);
      QuietDecides(x, sys);
      assert false;
    }
  }

  lemma AllQualityCounted(x: Meeting, sys: System, p: ActorID)
    requires Assembled(x) && Calm(x, sys) && p in sys.nodes && sys.nodes[p].phase == QUALITY
    requires forall q :: q in sys.nodes ==> sys.nodes[q].phase != INITIAL
    requires forall q, r, phase :: !Uncounted(sys, q, r, phase)
    ensures QuorumOf(x.c.table, sys.nodes[p].quality.Keys)
  {
    CalmIsPlaced(x, sys);
    forall q | q in x.n
      ensures q in sys.nodes[p].quality
    {
      assert Placed(x, q, sys.nodes[q]) && !Uncounted(sys, p, q, QUALITY);
    }
    QuorumGrows(x, x.n, sys.nodes[p].quality.Keys);
  }

  lemma NothingLeft(x: Meeting, sys: System)
    requires forall p :: p in sys.nodes ==> sys.nodes[p].phase != INITIAL && sys.nodes[p].phase != QUALITY
    requires forall p, q, phase :: !Uncounted(sys, p, q, phase)
    ensures Quiet(x, sys)
  {
    forall p, q, phase | p in sys.nodes && q in sys.nodes && phase in Phases(sys.nodes[q].log)
      ensures sys.nodes[p].phase == TERMINATED || q in TallyOf(sys.nodes[p], phase)
    {
      assert !Uncounted(sys, p, q, phase);
    }
  }

  lemma {:induction false} RunsOn(start: System, acts: seq<Action>, a: Action)
    requires Runs(start, acts) && Enabled(After(start, acts), a)
    ensures Runs(start, acts + [a]) && After(start, acts + [a]) == Apply(After(start, acts), a)
    decreases |acts|
  {
    if acts == [] {
      RunsFrom(start, a, []);
      assert acts + [a] == [a] + [];
    } else {
      RunsOn(Apply(start, acts[0]), acts[1..], a);
      RunsFrom(start, acts[0], acts[1..] + [a]);
      assert acts + [a] == [acts[0]] + (acts[1..] + [a]);
    }
  }

  lemma RunsFrom(sys: System, a: Action, rest: seq<Action>)
    requires Enabled(sys, a) && Runs(Apply(sys, a), rest)
    ensures Runs(sys, [a] + rest) && After(sys, [a] + rest) == After(Apply(sys, a), rest)
  {
    assert ([a] + rest)[1..] == rest;
  }

  lemma ReachesOn(sys: System, a: Action, sys': System)
    requires Reachable(sys) && Enabled(sys, a) && sys' == Apply(sys, a)
    ensures Reachable(sys')
  {
    var start, acts :| Initial(start) && Runs(start, acts) && sys == After(start, acts);
    RunsOn(start, acts, a);
    Reaches(start, acts + [a], sys');
  }

  lemma Reaches(start: System, acts: seq<Action>, sys: System)
    requires Initial(start) && Runs(start, acts) && sys == After(start, acts)
    ensures Reachable(sys)
  {
  }

  /** A step as above, with what it leads to. */
  lemma NextState(x: Meeting, sys: System) returns (a: Action, sys': System)
    requires Assembled(x) && Calm(x, sys) && Reachable(sys) && !AllTerminated(sys)
    ensures Enabled(sys, a) && InTime(x, sys, a) && sys' == Apply(sys, a)
    ensures Calm(x, sys') && Reachable(sys') && Tasks(x.n, sys'.nodes) < Tasks(x.n, sys.nodes)
  {
    var t;
    a, t := Step(x, sys);
    var s' := GoesOn(x, sys, a);
    CalmStep(x, sys, a);
    sys' := Apply(sys, a);
    ReachesOn(sys, a, sys');
    TasksShrink(x.n, sys.nodes, a.p, s', t);
  }

  /** From every state of a synchronous run, the run can go on until all have decided. */
  lemma {:induction false} CanDecide(x: Meeting, sys: System) returns (acts: seq<Action>)
    requires Assembled(x) && Calm(x, sys) && Reachable(sys)
    ensures Synchronous(x, sys, acts) && Runs(sys, acts) && AllTerminated(After(sys, acts))
    decreases Tasks(x.n, sys.nodes)
  {
    if AllTerminated(sys) {
      acts := [];
    } else {
      var a, sys' := NextState(x, sys);
      var rest := CanDecide(x, sys');
      acts := [a] + rest;
      GoesFirst(x, sys, a, rest);
    }
  }

  lemma GoesFirst(x: Meeting, sys: System, a: Action, rest: seq<Action>)
    requires Enabled(sys, a) && InTime(x, sys, a) && Synchronous(x, Apply(sys, a), rest) && Runs(Apply(sys, a), rest)
    ensures Synchronous(x, sys, [a] + rest) && Runs(sys, [a] + rest)
    ensures After(sys, [a] + rest) == After(Apply(sys, a), rest)
  {
    assert ([a] + rest)[1..] == rest;
  }

  // ---------- the decision ----------

  /** Everyone votes for the input in round 0 only, and decides nothing else. */
  ghost predicate Unanimous(x: Meeting, sys: System) {
    forall p :: p in sys.nodes ==>
      && AllVoteFor(x, sys.nodes[p].log) && sys.nodes[p].round == 0
      && (sys.nodes[p].phase == TERMINATED ==> sys.nodes[p].value == x.v)
  }

  lemma CalmIsUnanimous(x: Meeting, sys: System)
    requires Calm(x, sys)
    ensures Unanimous(x, sys)
  {
    forall p | p in sys.nodes
      ensures AllVoteFor(x, sys.nodes[p].log) && sys.nodes[p].round == 0
      ensures sys.nodes[p].phase == TERMINATED ==> sys.nodes[p].value == x.v
    {
      assert sys.nodes[p] in CalmStates(x, p);
    }
  }

  function MeetingOf(start: System, v: Chain, sd: SupplementalData): Meeting {
    Meeting(start.w.c, start.nodes.Keys, v, sd)
  }

  ghost predicate Shares(start: System, v: Chain, sd: SupplementalData) {
    && v != BOTTOM && QuorumOf(start.w.c.table, start.nodes.Keys)
    && forall p :: p in start.nodes ==>
         start.nodes[p].input == v && start.nodes[p].supplement == sd && Get(start.w.c.table, p) > 0
  }

  lemma Convened(start: System, v: Chain, sd: SupplementalData)
    requires Initial(start) && Shares(start, v, sd)
    ensures Assembled(MeetingOf(start, v, sd)) && Calm(MeetingOf(start, v, sd), start)
  {
    var x := MeetingOf(start, v, sd);
    forall p | p in start.nodes
      ensures start.nodes[p] in CalmStates(x, p)
    {
      NewIsCalm(x, p);
    }
  }

  lemma NewIsCalm(x: Meeting, p: ActorID)
    requires x.v != BOTTOM && x.c.table.scaledTotal > 0
    ensures New(x.v, x.sd) in CalmStates(x, p)
  {
    PowerOfNone(x.c.table);
    var none: Tally := map[];
    assert none.Keys == {};
  }

  /** Honest participants that share their input and hold a strong quorum vote for nothing else,
      whatever the order of delivery; all have decided it once all messages are delivered, and a run
      can always go on to there. */
  lemma EverySynchronousRun(start: System, v: Chain, sd: SupplementalData, acts: seq<Action>) returns (sys: System)
    requires Initial(start) && Shares(start, v, sd) && Synchronous(MeetingOf(start, v, sd), start, acts)
    ensures Runs(start, acts) && sys == After(start, acts)
    ensures var x := MeetingOf(start, v, sd);
      && Unanimous(x, sys) && (Quiet(x, sys) ==> AllTerminated(sys))
      && exists more :: Synchronous(x, sys, more) && Runs(sys, more) && AllTerminated(After(sys, more))
  {
    var x := MeetingOf(start, v, sd);
    Convened(start, v, sd);
    SynchronousRuns(x, start, acts);
    CalmRun(x, start, acts);
    sys := After(start, acts);
    CalmIsUnanimous(x, sys);
    if Quiet(x, sys) {
      QuietDecides(x, sys);
    }
    Reaches(start, acts, sys);
    var more := CanDecide(x, sys);
  }

  /** In particular some run decides the input everywhere, whatever power the others hold. */
  lemma SynchronousDecision(start: System, v: Chain, sd: SupplementalData) returns (acts: seq<Action>)
    requires Initial(start) && Shares(start, v, sd)
    ensures Runs(start, acts) && AllTerminated(After(start, acts))
    ensures Unanimous(MeetingOf(start, v, sd), After(start, acts))
  {
    var x := MeetingOf(start, v, sd);
    Convened(start, v, sd);
    Reaches(start, [], start);
    acts := CanDecide(x, start);
    var sys := EverySynchronousRun(start, v, sd, acts);
  }

  /** The premises of the protocol theorems can be met: some run ends with two participants decided. */
  lemma TwoDecide() returns (sys: System)
    ensures Reachable(sys) && sys.nodes.Keys == {0, 1} && AllTerminated(sys)
  {
    var start, input, sd := TwoStart();
    var acts := SynchronousDecision(start, input, sd);
    sys := After(start, acts);
    SameNodes(start, acts);
  }

  lemma TwoStart() returns (start: System, input: Chain, sd: SupplementalData)
    ensures Initial(start) && start.nodes.Keys == {0, 1} && Shares(start, input, sd)
  {
    var table := TwoEqual();
    var c := Config(0, table, 10, (signers, vote) => []);
    input, sd := [TipSet(0, [1], [1], [])], SupplementalData([], []);
    start := System(World(c, {}, {}, WILDCARD), map[0 := New(input, sd), 1 := New(input, sd)]);
    PowerOfNone(table);
    assert start.nodes.Keys == {0, 1};
  }

  lemma {:induction false} SameNodes(start: System, acts: seq<Action>)
    requires Runs(start, acts)
    ensures After(start, acts).nodes.Keys == start.nodes.Keys
    decreases |acts|
  {
    if acts != [] {
      SameNodes(Apply(start, acts[0]), acts[1..]);
    }
  }

  lemma TwoEqual() returns (t: PowerTable)
    ensures t.scaledTotal == 2 && Get(t, 0) == Get(t, 1) == 1 && QuorumOf(t, {0, 1})
  {
    var raw := RawTable([PowerEntry(0, 1, []), PowerEntry(1, 1, [])], [1, 1], map[0 := 0, 1 := 1], 2, 2);
    assert raw.scaledPower[..1] == [1] && [1][..0] == [];
    assert Total([1]) == 1;
    assert Consistent(raw);
    t := raw;
    Full(t.scaledPower, Indices(t, {0, 1}));
  }
}
