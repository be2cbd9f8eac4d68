/** One GossiPBFT instance at one participant, as functions on its state (gpbft/gpbft.go).
    A tally is the first vote of each sender; a Go panic sets `panicked`; clock readings and map
    iteration orders are supplied by an `Env`. */
module Instances {
  import opened Basics
  import opened Chains
  import opened Power
  import opened Tallies
  import opened Messages

  datatype Config = Config(
    instance: nat,
    table: PowerTable,
    lookahead: nat,
    aggregate: (set<nat>, Payload) -> Bytes)

  datatype ConvergeValue = ConvergeValue(justification: Justification, rank: Rank)

  datatype Round = Round(
    prepared: Tally,
    preparedJust: map<Chain, Justification>,
    committed: Tally,
    committedJust: map<Chain, Justification>,
    convergeSenders: set<ActorID>,
    converged: map<Chain, ConvergeValue>)

  const EMPTY_ROUND := Round(map[], map[], map[], map[], {}, map[])

  /** A message handed to the host for signing and broadcast. */
  datatype Broadcast = Broadcast(vote: Payload, justification: Option<Justification>)

  datatype Instance = Instance(
    input: Chain,
    supplement: SupplementalData,
    round: nat,
    phase: Phase,
    proposal: Chain,
    value: Chain,
    candidates: set<Chain>,
    quality: Tally,
    rounds: map<nat, Round>,
    decision: Tally,
    terminationValue: Option<Justification>,
    log: seq<Broadcast>,
    panicked: bool)

  /** What the code reads from outside: whether the phase timeout has elapsed, at tryCommit for the
      round of a COMMIT message and at the current phase, and which of several equally good map
      entries an iteration meets first. */
  datatype Env = Env(
    elapsedAtCommit: bool,
    elapsed: bool,
    commitPick: Chain,
    bottomPick: Chain,
    convergePick: Chain,
    skipPick: Chain)

  datatype Error = NoError | ValidationError | InternalError

  datatype Outcome = Outcome(s: Instance, changed: bool, error: Error)

  function New(input: Chain, supplement: SupplementalData): Instance
    requires input != BOTTOM
  {
    Instance(input, supplement, 0, INITIAL, input, BOTTOM, {BaseChain(input)},
             map[], map[], map[], None, [], false)
  }

  function GetRound(s: Instance, r: nat): Round {
    if r in s.rounds then s.rounds[r] else EMPTY_ROUND
  }

  function SetRound(s: Instance, r: nat, rd: Round): Instance {
    s.(rounds := s.rounds[r := rd])
  }

  function Panic(s: Instance): Instance {
    s.(panicked := true)
  }

  function VoteAt(c: Config, supplement: SupplementalData, r: nat, p: Phase, v: Chain): Payload {
    Payload(c.instance, r, p, supplement, v)
  }

  function Send(c: Config, s: Instance, r: nat, p: Phase, v: Chain, j: Option<Justification>): Instance {
    s.(log := s.log + [Broadcast(VoteAt(c, s.supplement, r, p, v), j)])
  }

  // ---------- justifications ----------

  /** FindStrongQuorumFor panics on a signer outside the table or a quorum it cannot find. */
  ghost predicate FindPanics(c: Config, t: Tally, v: Chain) {
    || (exists id :: id in Supporters(t, v) && id !in c.table.lookup)
    || QuorumSigners(c.table, Supporters(t, v)) == []
  }

  ghost function BuildJustification(
      c: Config, sd: SupplementalData, t: Tally, r: nat, p: Phase, v: Chain): Justification
  {
    var signers := ToSet(QuorumSigners(c.table, Supporters(t, v)));
    var vote := VoteAt(c, sd, r, p, v);
    Justification(vote, signers, c.aggregate(signers, vote))
  }

  /** The justification of a value with a quorum; None when the code panics. */
  ghost function Built(c: Config, sd: SupplementalData, t: Tally, r: nat, p: Phase, v: Chain): Option<Justification> {
    if FindPanics(c, t, v) then None else Some(BuildJustification(c, sd, t, r, p, v))
  }

  predicate JustifiesBottom(j: Justification, p: Phase) {
    j.vote.value == BOTTOM && j.vote.phase == p
  }

  ghost predicate HasBottomJustification(m: map<Chain, Justification>, p: Phase) {
    exists k :: k in m && JustifiesBottom(m[k], p)
  }

  ghost function BottomJustification(m: map<Chain, Justification>, p: Phase, pick: Chain): Justification
    requires HasBottomJustification(m, p)
  {
    if pick in m && JustifiesBottom(m[pick], p) then m[pick]
    else var k :| k in m && JustifiesBottom(m[k], p); m[k]
  }

  /** A justification of COMMIT for bottom came with a PREPARE or CONVERGE of the round. */
  ghost predicate HasBottom(rd: Round) {
    HasBottomJustification(rd.preparedJust, COMMIT) || HasBottomJustification(ConvergeJust(rd), COMMIT)
  }

  /** GetJustificationOf for a key that is not bottom. */
  function JustificationOf(m: map<Chain, Justification>, p: Phase, v: Chain): Option<Justification> {
    if v in m && m[v].vote.phase == p then Some(m[v]) else None
  }

  function ConvergeJust(rd: Round): map<Chain, Justification> {
    map v | v in rd.converged :: rd.converged[v].justification
  }

  function KeepFirst(m: map<Chain, Justification>, v: Chain, j: Justification): map<Chain, Justification> {
    if v in m then m else m[v := j]
  }

  // ---------- QUALITY ----------

  function BeginQuality(c: Config, s: Instance): Instance {
    Send(c, s.(phase := QUALITY), s.round, QUALITY, s.proposal, None)
  }

  ghost function TryQuality(c: Config, s: Instance, elapsed: bool): Instance {
    if HasPrefixQuorum(c.table, s.quality, s.proposal) || elapsed then
      var p := LongestQuorumPrefix(c.table, s.quality, s.input, |s.input|);
      BeginPrepare(c, s.(proposal := p, candidates := AddCandidatePrefixes(s.candidates, p, |p|), value := p), None)
    else s
  }

  /** Adds the longest prefix, of at most `n` and at least two tipsets, that is not yet a
      candidate, and stops there. */
  function AddCandidatePrefixes(candidates: set<Chain>, v: Chain, n: nat): set<Chain>
    requires n <= |v|
  {
    if n < 2 then candidates
    else if v[..n] !in candidates then candidates + {v[..n]}
    else AddCandidatePrefixes(candidates, v, n - 1)
  }

  ghost function UpdateCandidatesFromQuality(c: Config, s: Instance): Instance {
    var p := LongestQuorumPrefix(c.table, s.quality, s.input, |s.input|);
    s.(candidates := AddCandidatePrefixes(s.candidates, p, |p|))
  }

  // ---------- CONVERGE ----------

  /** Any received value for the same chain is better than the participant's own. */
  function WithSelfValue(rd: Round, v: Chain, j: Justification): Round {
    if v in rd.converged then rd else rd.(converged := rd.converged[v := ConvergeValue(j, Unranked)])
  }

  function BeginConverge(c: Config, s: Instance, j: Justification): (s': Instance)
    ensures s'.phase == CONVERGE || (s'.phase == s.phase && s'.panicked)
  {
    if j.vote.round + 1 != s.round then Panic(s)
    else
      var own := WithSelfValue(GetRound(s, s.round), s.proposal, j);
      Send(c, SetRound(s.(phase := CONVERGE), s.round, own), s.round, CONVERGE, s.proposal, Some(j))
  }

  /** A value that is a candidate, or may have been committed to in the previous round. */
  ghost predicate Admits(t: PowerTable, candidates: set<Chain>, now: Round, previous: Round, v: Chain)
    requires v in now.converged
  {
    || v in candidates
    || (now.converged[v].justification.vote.phase == PREPARE && CouldReach(t, previous.committed, v, true))
  }

  ghost function AdmissibleIn(t: PowerTable, candidates: set<Chain>, now: Round, previous: Round): set<Chain> {
    set v | v in now.converged && Admits(t, candidates, now, previous, v)
  }

  /** The CONVERGE values that may be voted for; there is no CONVERGE in round 0. */
  ghost function AdmissibleValues(c: Config, s: Instance): set<Chain> {
    var now := GetRound(s, s.round);
    if s.round == 0 then set v | v in now.converged && v in s.candidates
    else AdmissibleIn(c.table, s.candidates, now, GetRound(s, s.round - 1))
  }

  /** No value of `among` has a better ticket than `v`. */
  ghost predicate IsBest(converged: map<Chain, ConvergeValue>, among: set<Chain>, v: Chain) {
    && v in among && v in converged
    && forall w :: w in among && w in converged ==> !Better(converged[w].rank, converged[v].rank)
  }

  ghost function Best(converged: map<Chain, ConvergeValue>, among: set<Chain>, pick: Chain): Option<Chain> {
    if IsBest(converged, among, pick) then Some(pick)
    else if v :| IsBest(converged, among, v) then Some(v)
    else None
  }

  ghost function TryConverge(c: Config, s: Instance, env: Env): Outcome {
    if !env.elapsed then Outcome(s, true, NoError)
    else
      var rd := GetRound(s, s.round);
      match Best(rd.converged, AdmissibleValues(c, s), env.convergePick)
      case None => Outcome(s, true, InternalError)
      case Some(v) =>
        if v !in rd.converged then Outcome(s, true, InternalError) else
        Outcome(AdoptedValue(c, s, v, Some(rd.converged[v].justification)), true, NoError)
  }

  function AdoptedValue(c: Config, s: Instance, v: Chain, j: Option<Justification>): Instance {
    BeginPrepare(c, s.(candidates := s.candidates + {v}, proposal := v, value := v), j)
  }

  // ---------- PREPARE ----------

  function BeginPrepare(c: Config, s: Instance, j: Option<Justification>): Instance {
    Send(c, s.(phase := PREPARE), s.round, PREPARE, s.value, j)
  }

  /** A justification of PREPARE for `v` in the current round that arrived with a COMMIT of this
      round or with a PREPARE or CONVERGE of the next. */
  function PrepareEvidence(s: Instance, v: Chain): Option<Justification> {
    EvidenceIn(GetRound(s, s.round), GetRound(s, s.round + 1), v)
  }

  function EvidenceIn(current: Round, next: Round, v: Chain): Option<Justification> {
    if JustificationOf(current.committedJust, PREPARE, v).Some? then JustificationOf(current.committedJust, PREPARE, v)
    else if JustificationOf(next.preparedJust, PREPARE, v).Some? then JustificationOf(next.preparedJust, PREPARE, v)
    else JustificationOf(ConvergeJust(next), PREPARE, v)
  }

  ghost function TryPrepare(c: Config, s: Instance, elapsed: bool): Instance {
    if PrepareSupported(c, s) then BeginCommit(c, s.(value := s.proposal))
    else if PrepareOver(c, s, elapsed) then BeginCommit(c, s.(value := BOTTOM))
    else s
  }

  ghost predicate PrepareSupported(c: Config, s: Instance) {
    Supported(c.table, GetRound(s, s.round), GetRound(s, s.round + 1), s.proposal)
  }

  ghost predicate PrepareOver(c: Config, s: Instance, elapsed: bool) {
    Hopeless(c.table, GetRound(s, s.round), s.proposal, elapsed)
  }

  ghost predicate Supported(t: PowerTable, now: Round, next: Round, v: Chain) {
    HasQuorum(t, now.prepared, v) || EvidenceIn(now, next, v).Some?
  }

  ghost predicate Hopeless(t: PowerTable, now: Round, v: Chain, elapsed: bool) {
    !CouldReach(t, now.prepared, v, false) || (elapsed && ReceivedFromStrongQuorum(t, now.prepared))
  }

  // ---------- COMMIT ----------

  ghost function BeginCommit(c: Config, s: Instance): Instance {
    CommitWith(c, s, if s.value == BOTTOM then None else EvidenceToCommit(c, s))
  }

  /** What a COMMIT for the value is justified by: the quorum counted here, or one that came along. */
  ghost function EvidenceToCommit(c: Config, s: Instance): Option<Justification> {
    CommitEvidence(c, s.supplement, s.round, GetRound(s, s.round), GetRound(s, s.round + 1), s.value)
  }

  ghost function CommitEvidence(
      c: Config, sd: SupplementalData, r: nat, current: Round, next: Round, v: Chain): Option<Justification>
  {
    if HasQuorum(c.table, current.prepared, v) then Built(c, sd, current.prepared, r, PREPARE, v)
    else EvidenceIn(current, next, v)
  }

  function CommitWith(c: Config, s: Instance, j: Option<Justification>): Instance {
    var s' := s.(phase := COMMIT);
    if s.value != BOTTOM && j.None? then Panic(s') else Send(c, s', s.round, COMMIT, s.value, j)
  }

  ghost predicate MultipleQuorums(c: Config, t: Tally) {
    exists v, w :: v != w && HasQuorum(c.table, t, v) && HasQuorum(c.table, t, w)
  }

  ghost predicate BottomJustified(s: Instance, r: nat) {
    HasBottom(GetRound(s, r + 1))
  }

  /** A committed value other than bottom, if there is one. */
  ghost function CommittedValue(t: Tally, pick: Chain): Option<Chain> {
    if pick in t.Values && pick != BOTTOM then Some(pick)
    else if id :| id in t && t[id] != BOTTOM then Some(t[id])
    else None
  }

  ghost function Sway(s: Instance, t: Tally, pick: Chain): Instance {
    SwayedTo(s, CommittedValue(t, pick))
  }

  function SwayedTo(s: Instance, v: Option<Chain>): Instance {
    match v
    case Some(x) => s.(candidates := s.candidates + {x}, proposal := x)
    case None => s
  }

  ghost function TryCommit(c: Config, s: Instance, r: nat, elapsed: bool, env: Env): (s': Instance)
    ensures s'.phase == s.phase || s'.phase == CONVERGE || s'.phase == DECIDE
    ensures s.round <= s'.round <= s.round + 1 && (s'.phase == PREPARE ==> s'.round == s.round)
  {
    var committed := GetRound(s, r).committed;
    if MultipleQuorums(c, committed) then Panic(s)
    else if v :| v != BOTTOM && HasQuorum(c.table, committed, v) then BeginDecide(c, s.(value := v), r)
    else if s.round != r || s.phase != COMMIT then s
    else if HasQuorum(c.table, committed, BOTTOM) || BottomJustified(s, r) then BeginNextRound(c, s, env)
    else if elapsed && ReceivedFromStrongQuorum(c.table, committed) then
      BeginNextRound(c, Sway(s, committed, env.commitPick), env)
    else s
  }

  /** What justifies entering the next round: a quorum of COMMIT for bottom counted here, or one
      that came with a PREPARE or CONVERGE of that round, or else the PREPARE quorum that came with
      a COMMIT for the proposal. The code panics when there is none. */
  ghost function NextRoundJustification(c: Config, s: Instance, env: Env): Option<Justification> {
    NextEvidence(c, s.supplement, s.round, GetRound(s, s.round), GetRound(s, s.round + 1), s.proposal, env.bottomPick)
  }

  ghost function NextEvidence(c: Config, sd: SupplementalData, r: nat, previous: Round, current: Round,
      proposal: Chain, pick: Chain): Option<Justification>
  {
    if HasQuorum(c.table, previous.committed, BOTTOM) then Built(c, sd, previous.committed, r, COMMIT, BOTTOM)
    else if HasBottomJustification(current.preparedJust, COMMIT) then
      Some(BottomJustification(current.preparedJust, COMMIT, pick))
    else if HasBottomJustification(ConvergeJust(current), COMMIT) then
      Some(BottomJustification(ConvergeJust(current), COMMIT, pick))
    else if proposal in previous.committedJust then Some(previous.committedJust[proposal])
    else None
  }

  ghost function BeginNextRound(c: Config, s: Instance, env: Env): (s': Instance)
    ensures s'.phase == CONVERGE || (s'.phase == s.phase && s'.panicked)
    ensures s'.round == s.round + 1
  {
    EnteredWith(c, s, s.round + 1, NextRoundJustification(c, s, env))
  }

  function EnteredWith(c: Config, s: Instance, r: nat, j: Option<Justification>): Instance {
    var s' := s.(round := r);
    if j.None? then Panic(s') else BeginConverge(c, s', j.value)
  }

  // ---------- DECIDE ----------

  ghost function BeginDecide(c: Config, s: Instance, r: nat): (s': Instance)
    ensures s'.phase == DECIDE && s'.round == s.round
  {
    DecideWith(c, s, EvidenceToDecide(c, s, r))
  }

  ghost function EvidenceToDecide(c: Config, s: Instance, r: nat): Option<Justification> {
    var committed := GetRound(s, r).committed;
    if HasQuorum(c.table, committed, s.value) then Built(c, s.supplement, committed, r, COMMIT, s.value) else None
  }

  function DecideWith(c: Config, s: Instance, j: Option<Justification>): Instance {
    var s' := s.(phase := DECIDE);
    if j.None? then Panic(s') else Send(c, s', 0, DECIDE, s.value, j)
  }

  function SkipToDecide(c: Config, s: Instance, v: Chain, j: Option<Justification>): Instance {
    Send(c, s.(phase := DECIDE, proposal := v, value := v), 0, DECIDE, v, j)
  }

  ghost function TryDecide(c: Config, s: Instance): Instance {
    if MultipleQuorums(c, s.decision) then Panic(s)
    else if v :| HasQuorum(c.table, s.decision, v) then TerminatedOn(c, s, v)
    else s
  }

  ghost function TerminatedOn(c: Config, s: Instance, v: Chain): Instance {
    match Built(c, s.supplement, s.decision, 0, DECIDE, v)
    case None => Panic(s)
    case Some(d) => s.(phase := TERMINATED, value := v, terminationValue := Some(d))
  }

  // ---------- receiving ----------

  ghost function TryCurrentPhase(c: Config, s: Instance, env: Env): Outcome {
    match s.phase
    case QUALITY => Outcome(TryQuality(c, s, env.elapsed), true, NoError)
    case CONVERGE => TryConverge(c, s, env)
    case PREPARE => Outcome(TryPrepare(c, s, env.elapsed), true, NoError)
    case COMMIT => Outcome(TryCommit(c, s, s.round, env.elapsed, env), true, NoError)
    case DECIDE => Outcome(TryDecide(c, s), true, NoError)
    case TERMINATED => Outcome(s, true, NoError)
    case INITIAL => Outcome(s, true, InternalError)
  }

  predicate Spammable(m: GMessage) {
    m.justification.None? && m.vote.round > 0
  }

  ghost function ReceiveOne(c: Config, s: Instance, m: GMessage, env: Env): Outcome {
    if m.vote.instance != c.instance then Outcome(s, false, InternalError)
    else if m.vote.supplement != s.supplement then Outcome(s, false, ValidationError)
    else if m.vote.value != BOTTOM && s.input != BOTTOM && !HasBase(m.vote.value, s.input[0]) then
      Outcome(s, false, ValidationError)
    else if s.phase == TERMINATED then Outcome(s, false, NoError)
    else if m.vote.round < s.round && (m.vote.phase == CONVERGE || m.vote.phase == PREPARE) then
      Outcome(s, false, NoError)
    else if m.vote.round > s.round + c.lookahead && Spammable(m) then Outcome(s, false, NoError)
    else match m.vote.phase
      case QUALITY => ReceiveQuality(c, s, m, env)
      case CONVERGE => ReceiveConverge(c, s, m, env)
      case PREPARE => ReceivePrepare(c, s, m, env)
      case COMMIT => ReceiveCommit(c, s, m, env)
      case DECIDE => ReceiveDecide(c, s, m, env)
      case _ => Outcome(s, false, InternalError)
  }

  ghost function ReceiveQuality(c: Config, s: Instance, m: GMessage, env: Env): Outcome {
    var s' := s.(quality := Record(s.quality, m.sender, m.vote.value));
    if s.phase != QUALITY then Outcome(UpdateCandidatesFromQuality(c, s'), true, NoError)
    else TryCurrentPhase(c, s', env)
  }

  function RecordConverge(rd: Round, m: GMessage, j: Justification): Round {
    if m.sender in rd.convergeSenders then rd
    else
      var v := m.vote.value;
      rd.(convergeSenders := rd.convergeSenders + {m.sender},
          converged :=
            if v !in rd.converged then rd.converged[v := ConvergeValue(j, m.ticket)]
            else if Better(m.ticket, rd.converged[v].rank) then rd.converged[v := rd.converged[v].(rank := m.ticket)]
            else rd.converged)
  }

  ghost function ReceiveConverge(c: Config, s: Instance, m: GMessage, env: Env): Outcome {
    if m.vote.value == BOTTOM || m.justification.None? then Outcome(s, false, InternalError)
    else
      var rd := RecordConverge(GetRound(s, m.vote.round), m, m.justification.value);
      TryCurrentPhase(c, SetRound(s, m.vote.round, rd), env)
  }

  function RecordPrepare(rd: Round, m: GMessage): Round {
    rd.(prepared := Record(rd.prepared, m.sender, m.vote.value),
        preparedJust := if m.justification.Some? then KeepFirst(rd.preparedJust, m.vote.value, m.justification.value)
                        else rd.preparedJust)
  }

  ghost function ReceivePrepare(c: Config, s: Instance, m: GMessage, env: Env): Outcome {
    TryCurrentPhase(c, SetRound(s, m.vote.round, RecordPrepare(GetRound(s, m.vote.round), m)), env)
  }

  function RecordCommit(rd: Round, m: GMessage): Round {
    rd.(committed := Record(rd.committed, m.sender, m.vote.value),
        committedJust := if m.vote.value != BOTTOM && m.justification.Some?
                         then KeepFirst(rd.committedJust, m.vote.value, m.justification.value)
                         else rd.committedJust)
  }

  ghost function ReceiveCommit(c: Config, s: Instance, m: GMessage, env: Env): Outcome {
    var s' := SetRound(s, m.vote.round, RecordCommit(GetRound(s, m.vote.round), m));
    if m.vote.value != BOTTOM && m.justification.None? then Outcome(Panic(s'), true, NoError)
    else if s.phase == DECIDE then TryCurrentPhase(c, s', env)
    else TryCommitThenPhase(c, s', m, env)
  }

  /** A COMMIT stays open in every round; only if it may justify the PREPARE the participant is
      in is the current phase tried as well. */
  ghost function TryCommitThenPhase(c: Config, s: Instance, m: GMessage, env: Env): Outcome {
    var s' := TryCommit(c, s, m.vote.round, env.elapsedAtCommit, env);
    if s'.phase == PREPARE && s'.round == m.vote.round && m.vote.value != BOTTOM then TryCurrentPhase(c, s', env)
    else Outcome(s', true, NoError)
  }

  ghost function ReceiveDecide(c: Config, s: Instance, m: GMessage, env: Env): Outcome {
    var s1 := s.(decision := Record(s.decision, m.sender, m.vote.value));
    var s2 := if s.phase != DECIDE then SkipToDecide(c, s1, m.vote.value, m.justification) else s1;
    TryCurrentPhase(c, s2, env)
  }

  // ---------- skipping rounds ----------

  ghost predicate ShouldSkip(c: Config, s: Instance, r: nat) {
    SkipsIn(c.table, s.round, s.phase, r, GetRound(s, r))
  }

  ghost predicate SkipsIn(t: PowerTable, round: nat, phase: Phase, r: nat, rd: Round) {
    r > round && phase != DECIDE && ReceivedFromWeakQuorum(t, rd.prepared) && rd.converged.Keys != {}
  }

  ghost function SkipToRound(c: Config, s: Instance, r: nat, pick: Chain): Instance {
    var rd := GetRound(s, r);
    match Best(rd.converged, rd.converged.Keys, pick)
    case None => s
    case Some(v) =>
      if v !in rd.converged then s else
      SkippedTo(c, s, r, v, rd.converged[v].justification)
  }

  function SkippedTo(c: Config, s: Instance, r: nat, v: Chain, j: Justification): Instance {
    EnteredWith(c, if j.vote.phase == PREPARE then SwayedTo(s, Some(v)) else s, r, Some(j))
  }

  /** The rounds received, in increasing order, are considered from the last to the first. */
  ghost function PostReceive(c: Config, s: Instance, received: seq<nat>, pick: Chain): Instance {
    if received == [] then s
    else
      var r := received[|received| - 1];
      if ShouldSkip(c, s, r) then SkipToRound(c, s, r, pick)
      else PostReceive(c, s, received[..|received| - 1], pick)
  }

  // ---------- the public interface ----------

  ghost function Receive(c: Config, s: Instance, m: GMessage, env: Env): Outcome {
    if s.phase == TERMINATED then Outcome(s, false, InternalError)
    else
      var o := ReceiveOne(c, s, m, env);
      if o.error != NoError || !o.changed then o
      else o.(s := PostReceive(c, o.s, [m.vote.round], env.skipPick))
  }

  /** The messages of a batch one by one, with the set of rounds they changed; a validation error
      drops its message, any other error ends the batch. */
  ghost function ReceiveEach(
      c: Config, s: Instance, ms: seq<GMessage>, envs: seq<Env>, received: set<nat>): (Outcome, set<nat>)
    requires |ms| == |envs|
    decreases |ms|
  {
    if ms == [] then (Outcome(s, true, NoError), received)
    else
      var o := ReceiveOne(c, s, ms[0], envs[0]);
      if o.error == InternalError then (o, received)
      else ReceiveEach(c, o.s, ms[1..], envs[1..], if o.changed then received + {ms[0].vote.round} else received)
  }

  /** The members of a set of numbers below `n`, in increasing order. */
  function Ascending(rs: set<nat>, n: nat): seq<nat> {
    if n == 0 then []
    else if n - 1 in rs then Ascending(rs, n - 1) + [n - 1]
    else Ascending(rs, n - 1)
  }

  /** One more than the largest round of a batch. */
  function RoundBound(ms: seq<GMessage>): nat {
    if ms == [] then 0
    else
      var n := RoundBound(ms[1..]);
      if ms[0].vote.round >= n then ms[0].vote.round + 1 else n
  }

  ghost function ReceiveMany(c: Config, s: Instance, ms: seq<GMessage>, envs: seq<Env>, pick: Chain): Outcome
    requires |ms| == |envs|
  {
    if s.phase == TERMINATED then Outcome(s, false, InternalError)
    else
      var (o, received) := ReceiveEach(c, s, ms, envs, {});
      if o.error != NoError then o
      else o.(s := PostReceive(c, o.s, Ascending(received, RoundBound(ms)), pick))
  }

  ghost function ReceiveAlarm(c: Config, s: Instance, env: Env): Outcome {
    TryCurrentPhase(c, s, env)
  }
}
