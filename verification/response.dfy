/** What every event must lead to, in terms of power heard, evidence held and messages sent, and that
    each step of a run does just that. */
module Responses {
  import opened Basics
  import opened Chains
  import opened Power
  import opened Tallies
  import opened Messages
  import opened Instances
  import opened Evidence

  // ---------- what was heard ----------

  function VotersFor(votes: Tally, v: Chain): set<ActorID> {
    set id | id in votes && votes[id] == v
  }

  function VotersBeyond(votes: Tally, v: Chain): set<ActorID> {
    set id | id in votes && v <= votes[id]
  }

  /** At least two thirds of the power voted for `v`. */
  ghost predicate Wins(t: PowerTable, votes: Tally, v: Chain) {
    3 * PowerOf(t, VotersFor(votes, v)) >= 2 * t.scaledTotal
  }

  /** At least two thirds of the power voted for chains that go on from `v`. */
  ghost predicate WinsAsPrefix(t: PowerTable, votes: Tally, v: Chain) {
    |v| >= 2 && 3 * PowerOf(t, VotersBeyond(votes, v)) >= 2 * t.scaledTotal
  }

  /** At least two thirds of the power voted. */
  ghost predicate Heard(t: PowerTable, votes: Tally) {
    3 * PowerOf(t, votes.Keys) >= 2 * t.scaledTotal
  }

  /** More than a third of the power voted, by at least a whole unit. */
  ghost predicate HeardSome(t: PowerTable, votes: Tally) {
    3 * PowerOf(t, votes.Keys) >= t.scaledTotal + 3
  }

  /** With the power not yet heard from, and `extra`, `v` may come to two thirds. */
  ghost predicate MayWin(t: PowerTable, votes: Tally, v: Chain, extra: nat) {
    3 * (PowerOf(t, VotersFor(votes, v)) + t.scaledTotal - PowerOf(t, votes.Keys) + extra)
      >= 2 * t.scaledTotal
  }

  /** A justification of the vote is among them. */
  ghost predicate Proves(held: map<Chain, Justification>, vote: Payload) {
    exists k :: k in held && held[k].vote == vote
  }

  /** A quorum of PREPARE for `v` in the current round came along with a COMMIT of the round or a
      PREPARE or CONVERGE of the next. */
  ghost predicate PrepareProved(c: Config, s: Instance, v: Chain) {
    ProvedBy(GetRound(s, s.round), GetRound(s, s.round + 1), VoteAt(c, s.supplement, s.round, PREPARE, v))
  }

  ghost predicate ProvedBy(now: Round, next: Round, vote: Payload) {
    Proves(now.committedJust, vote) || ProvedIn(next, vote)
  }

  ghost predicate ProvedIn(next: Round, vote: Payload) {
    Proves(next.preparedJust, vote) || Proves(ConvergeJust(next), vote)
  }

  /** A quorum of COMMIT for bottom in the current round came along with a message of the next. */
  ghost predicate BottomProved(c: Config, s: Instance) {
    ProvedIn(GetRound(s, s.round + 1), VoteAt(c, s.supplement, s.round, COMMIT, BOTTOM))
  }

  /** The longest prefix of `c` with two thirds, or just its base. */
  ghost predicate Longest(t: PowerTable, votes: Tally, c: Chain, v: Chain) {
    && 1 <= |v| && v <= c
    && (|v| == 1 || WinsAsPrefix(t, votes, v))
    && forall k :: |v| < k <= |c| ==> !WinsAsPrefix(t, votes, c[..k])
  }

  /** A CONVERGE value that is a candidate, or that a PREPARE quorum brought along and that somebody may
      have decided, if a third of the power votes twice. */
  ghost predicate Eligible(t: PowerTable, s: Instance, v: Chain)
    requires s.round > 0
  {
    && v in GetRound(s, s.round).converged
    && (|| v in s.candidates
        || (&& GetRound(s, s.round).converged[v].justification.vote.phase == PREPARE
            && MayWin(t, GetRound(s, s.round - 1).committed, v, t.scaledTotal / 3)))
  }

  // ---------- what a participant then does ----------

  /** It sends one message, with all that others require of it. */
  ghost predicate Sends(w: World, s: Instance, s': Instance, r: nat, p: Phase, v: Chain) {
    var vote := VoteAt(w.c, s.supplement, r, p, v);
    exists j ::
      && s'.log == s.log + [Broadcast(vote, j)]
      && VoteRules(vote, j) && (j.Some? ==> ValidJustification(w, j.value))
  }

  ghost predicate GoesToPrepare(w: World, s: Instance, v: Chain, s': Instance) {
    && s' == s.(phase := PREPARE, proposal := v, value := v, candidates := s'.candidates, log := s'.log)
    && Sends(w, s, s', s.round, PREPARE, v)
  }

  ghost predicate GoesToCommit(w: World, s: Instance, v: Chain, s': Instance) {
    && s' == s.(phase := COMMIT, value := v, log := s'.log)
    && Sends(w, s, s', s.round, COMMIT, v)
  }

  ghost predicate GoesToDecide(w: World, s: Instance, v: Chain, s': Instance) {
    && s' == s.(phase := DECIDE, value := v, log := s'.log)
    && Sends(w, s, s', 0, DECIDE, v)
  }

  /** It enters round `r` with the proposal `v`, its own or one that it was swayed to, which is among the
      values of the round from then on. */
  ghost predicate GoesToRound(w: World, s: Instance, r: nat, v: Chain, swayed: bool, s': Instance) {
    && s' == s.(round := r, phase := CONVERGE, proposal := v, rounds := s'.rounds, log := s'.log,
                candidates := if swayed then s.candidates + {v} else s.candidates)
    && (!swayed ==> v == s.proposal)
    && Sends(w, s, s', r, CONVERGE, v)
    && s'.rounds == s.rounds[r := GetRound(s', r)] && OwnValueAdded(GetRound(s, r), v, GetRound(s', r))
  }

  ghost predicate OwnValueAdded(rd: Round, v: Chain, rd': Round) {
    && rd' == rd.(converged := rd'.converged)
    && rd'.converged.Keys == rd.converged.Keys + {v}
    && (forall x :: x in rd.converged ==> rd'.converged[x] == rd.converged[x])
    && (v !in rd.converged ==> rd'.converged[v].rank == Unranked)
  }

  ghost predicate Terminates(w: World, s: Instance, v: Chain, s': Instance) {
    && s' == s.(phase := TERMINATED, value := v, terminationValue := s'.terminationValue)
    && s'.terminationValue.Some? && ValidJustification(w, s'.terminationValue.value)
    && s'.terminationValue.value.vote == VoteAt(w.c, s.supplement, 0, DECIDE, v)
  }

  // ---------- when ----------

  /** QUALITY ends with a quorum for the input or at its timeout. */
  ghost predicate EndQuality(w: World, s: Instance, elapsed: bool, s': Instance) {
    if WinsAsPrefix(w.c.table, s.quality, s.input) || elapsed then
      exists v ::
        && Longest(w.c.table, s.quality, s.input, v) && GoesToPrepare(w, s, v, s')
        && MoreCandidates(s, v, s')
    else s' == s
  }

  ghost predicate MoreCandidates(s: Instance, v: Chain, s': Instance) {
    && v in s'.candidates && s.candidates <= s'.candidates
    && forall x :: x in s'.candidates ==> x in s.candidates || x <= v
  }

  /** CONVERGE ends at its timeout, with an eligible value of the lowest rank. */
  ghost predicate EndConverge(w: World, s: Instance, elapsed: bool, s': Instance)
    requires s.round > 0
  {
    var t := w.c.table;
    if elapsed && exists v :: Eligible(t, s, v) then
      exists v ::
        && Eligible(t, s, v) && GoesToPrepare(w, s, v, s') && s'.candidates == s.candidates + {v}
        && forall x :: Eligible(t, s, x) ==>
             AtMost(GetRound(s, s.round).converged[v].rank, GetRound(s, s.round).converged[x].rank)
    else s' == s
  }

  /** PREPARE ends for the proposal as soon as a quorum of PREPARE for it is known, and for bottom when
      there can be none, or at its timeout once two thirds of the power were heard. */
  ghost predicate EndPrepare(w: World, s: Instance, elapsed: bool, s': Instance) {
    var t, prepared := w.c.table, GetRound(s, s.round).prepared;
    if Wins(t, prepared, s.proposal) || PrepareProved(w.c, s, s.proposal) then GoesToCommit(w, s, s.proposal, s')
    else if !MayWin(t, prepared, s.proposal, 0) || (elapsed && Heard(t, prepared)) then GoesToCommit(w, s, BOTTOM, s')
    else s' == s
  }

  /** Votes of COMMIT decide in any round and phase. A participant that is in COMMIT of the round leaves
      it with its proposal when bottom has a quorum, and with a value that was committed to at its timeout
      once two thirds of the power were heard. */
  ghost predicate EndCommit(w: World, s: Instance, r: nat, elapsed: bool, s': Instance) {
    var t, committed := w.c.table, GetRound(s, r).committed;
    if exists v :: v != BOTTOM && Wins(t, committed, v) then
      exists v :: v != BOTTOM && Wins(t, committed, v) && GoesToDecide(w, s, v, s')
    else if s.round != r || s.phase != COMMIT then s' == s
    else if Wins(t, committed, BOTTOM) || BottomProved(w.c, s) then GoesToRound(w, s, r + 1, s.proposal, false, s')
    else if elapsed && Heard(t, committed) then
      exists v :: v != BOTTOM && v in committed.Values && GoesToRound(w, s, r + 1, v, true, s')
    else s' == s
  }

  /** DECIDE ends with a quorum of DECIDE. */
  ghost predicate EndDecide(w: World, s: Instance, s': Instance) {
    if exists v :: Wins(w.c.table, s.decision, v) then
      exists v :: Wins(w.c.table, s.decision, v) && Terminates(w, s, v, s')
    else s' == s
  }

  ghost predicate EndPhase(w: World, s: Instance, elapsed: bool, s': Instance) {
    match s.phase
    case QUALITY => EndQuality(w, s, elapsed, s')
    case CONVERGE => s.round > 0 && EndConverge(w, s, elapsed, s')
    case PREPARE => EndPrepare(w, s, elapsed, s')
    case COMMIT => EndCommit(w, s, s.round, elapsed, s')
    case DECIDE => EndDecide(w, s, s')
    case _ => s' == s
  }

  // ---------- messages ----------

  /** The messages that leave no trace: of another instance, supplement or base; after the end;
      CONVERGE and PREPARE of earlier rounds; and what is too far ahead and has no justification. */
  predicate Ignored(c: Config, s: Instance, m: GMessage) {
    || m.vote.instance != c.instance || m.vote.supplement != s.supplement
    || (m.vote.value != BOTTOM && s.input != BOTTOM && m.vote.value[0] != s.input[0])
    || s.phase == TERMINATED
    || (m.vote.round < s.round && (m.vote.phase == CONVERGE || m.vote.phase == PREPARE))
    || (m.vote.round > s.round + c.lookahead && m.justification == None)
  }

  /** The first vote of each sender is counted. */
  predicate FirstVoteCounts(votes: Tally, id: ActorID, v: Chain, votes': Tally) {
    && votes'.Keys == votes.Keys + {id}
    && (forall x :: x in votes ==> votes'[x] == votes[x])
    && (id !in votes ==> votes'[id] == v)
  }

  /** The first justification for each value is kept. */
  predicate FirstIsKept(held: map<Chain, Justification>, v: Chain, j: Option<Justification>,
      held': map<Chain, Justification>)
  {
    && held'.Keys == held.Keys + (if j.Some? then {v} else {})
    && (forall x :: x in held ==> held'[x] == held[x])
    && (j.Some? && v !in held ==> held'[v] == j.value)
  }

  /** Of each sender one value is kept, and of each value its first justification and its lowest rank. */
  ghost predicate ConvergeCounts(rd: Round, m: GMessage, rd': Round) {
    && rd' == rd.(convergeSenders := rd.convergeSenders + {m.sender}, converged := rd'.converged)
    && (m.sender in rd.convergeSenders ==> rd'.converged == rd.converged)
    && (m.sender !in rd.convergeSenders && m.justification.Some? ==>
          var v := m.vote.value;
          && rd'.converged.Keys == rd.converged.Keys + {v}
          && (forall x :: x in rd.converged && x != v ==> rd'.converged[x] == rd.converged[x])
          && (v !in rd.converged ==> rd'.converged[v] == ConvergeValue(m.justification.value, m.ticket))
          && (v in rd.converged ==>
                && rd'.converged[v].justification == rd.converged[v].justification
                && AtMost(rd'.converged[v].rank, rd.converged[v].rank) && AtMost(rd'.converged[v].rank, m.ticket)
                && rd'.converged[v].rank in {rd.converged[v].rank, m.ticket}))
  }

  ghost predicate PrepareCounts(rd: Round, m: GMessage, rd': Round) {
    && rd' == rd.(prepared := rd'.prepared, preparedJust := rd'.preparedJust)
    && FirstVoteCounts(rd.prepared, m.sender, m.vote.value, rd'.prepared)
    && FirstIsKept(rd.preparedJust, m.vote.value, m.justification, rd'.preparedJust)
  }

  ghost predicate CommitCounts(rd: Round, m: GMessage, rd': Round) {
    && rd' == rd.(committed := rd'.committed, committedJust := rd'.committedJust)
    && FirstVoteCounts(rd.committed, m.sender, m.vote.value, rd'.committed)
    && FirstIsKept(rd.committedJust, m.vote.value, m.justification, rd'.committedJust)
  }

  /** The vote is counted in its round and phase, and nothing else changes. */
  ghost predicate Counts(s: Instance, m: GMessage, s': Instance) {
    var r := m.vote.round;
    match m.vote.phase
    case QUALITY =>
      s' == s.(quality := s'.quality) && FirstVoteCounts(s.quality, m.sender, m.vote.value, s'.quality)
    case DECIDE =>
      s' == s.(decision := s'.decision) && FirstVoteCounts(s.decision, m.sender, m.vote.value, s'.decision)
    case CONVERGE =>
      s' == s.(rounds := s.rounds[r := GetRound(s', r)]) && ConvergeCounts(GetRound(s, r), m, GetRound(s', r))
    case PREPARE =>
      s' == s.(rounds := s.rounds[r := GetRound(s', r)]) && PrepareCounts(GetRound(s, r), m, GetRound(s', r))
    case COMMIT =>
      s' == s.(rounds := s.rounds[r := GetRound(s', r)]) && CommitCounts(GetRound(s, r), m, GetRound(s', r))
    case _ => false
  }

  /** A first DECIDE is followed at once. */
  ghost predicate FollowsDecision(w: World, s: Instance, v: Chain, s': Instance) {
    if s.phase == DECIDE then s' == s else GoesToDecide(w, s.(proposal := v), v, s')
  }

  /** A late QUALITY vote may make the longest prefix with a quorum a candidate. */
  ghost predicate LateQuality(w: World, s: Instance, s': Instance) {
    && s' == s.(candidates := s'.candidates)
    && exists v :: Longest(w.c.table, s.quality, s.input, v) && MoreCandidates(s, v, s')
  }

  /** What a counted vote sets off. */
  ghost predicate Reacts(w: World, s: Instance, m: GMessage, env: Env, s': Instance) {
    match m.vote.phase
    case QUALITY => if s.phase == QUALITY then EndQuality(w, s, env.elapsed, s') else LateQuality(w, s, s')
    case DECIDE => exists s1 :: FollowsDecision(w, s, m.vote.value, s1) && EndDecide(w, s1, s')
    case COMMIT =>
      if s.phase == DECIDE then s' == s
      else exists s1 ::
        && EndCommit(w, s, m.vote.round, env.elapsedAtCommit, s1)
        && if s1.phase == PREPARE && s1.round == m.vote.round && m.vote.value != BOTTOM
           then EndPrepare(w, s1, env.elapsed, s')
           else s' == s1
    case _ => EndPhase(w, s, env.elapsed, s')
  }

  /** The round can be skipped to: it is ahead, somebody honest is there, and a proposal is known. */
  ghost predicate CanSkip(w: World, s: Instance, r: nat) {
    && r > s.round && s.phase != DECIDE
    && HeardSome(w.c.table, GetRound(s, r).prepared) && GetRound(s, r).converged != map[]
  }

  /** The participant enters the round with the proposal of the lowest rank, if a PREPARE quorum brought
      it along, and with its own otherwise. */
  ghost predicate Skips(w: World, s: Instance, r: nat, s': Instance) {
    var converged := GetRound(s, r).converged;
    if CanSkip(w, s, r) then
      exists v ::
        && v in converged && (forall x :: x in converged ==> AtMost(converged[v].rank, converged[x].rank))
        && (if converged[v].justification.vote.phase == PREPARE then GoesToRound(w, s, r, v, true, s')
            else GoesToRound(w, s, r, s.proposal, false, s'))
    else s' == s
  }

  /** CONVERGE is over and no value can be prepared: the code reports an error and does no more. */
  ghost predicate Stuck(w: World, s: Instance, m: GMessage, elapsed: bool) {
    && (m.vote.phase == CONVERGE || m.vote.phase == PREPARE) && s.phase == CONVERGE && s.round > 0
    && elapsed && !exists v :: Eligible(w.c.table, s, v)
  }

  ghost predicate OnDelivery(w: World, s: Instance, m: GMessage, env: Env, s': Instance) {
    if Ignored(w.c, s, m) then s' == s
    else exists s1, s2 ::
      && Counts(s, m, s1) && Reacts(w, s1, m, env, s2)
      && if Stuck(w, s1, m, env.elapsed) then s' == s2 else Skips(w, s2, m.vote.round, s')
  }

  // ---------- the start ----------

  /** The queued messages one by one, and the rounds that they were counted in. */
  ghost predicate OnEach(w: World, s: Instance, ms: seq<GMessage>, envs: seq<Env>, rounds: set<nat>, s': Instance,
      rounds': set<nat>, ok: bool)
    requires |ms| == |envs|
    decreases |ms|
  {
    if ms == [] then s' == s && rounds' == rounds && ok
    else if ms[0].vote.instance != w.c.instance then s' == s && rounds' == rounds && !ok
    else if Ignored(w.c, s, ms[0]) then OnEach(w, s, ms[1..], envs[1..], rounds, s', rounds', ok)
    else exists s1, s2 ::
      && Counts(s, ms[0], s1) && Reacts(w, s1, ms[0], envs[0], s2)
      && if Stuck(w, s1, ms[0], envs[0].elapsed) then s' == s2 && rounds' == rounds && !ok
         else OnEach(w, s2, ms[1..], envs[1..], rounds + {ms[0].vote.round}, s', rounds', ok)
  }

  /** The last of the rounds that can be skipped to. */
  ghost predicate IsLast(w: World, s: Instance, rounds: set<nat>, r: nat) {
    r in rounds && CanSkip(w, s, r) && forall q :: q in rounds && q > r ==> !CanSkip(w, s, q)
  }

  ghost predicate SkipsToLast(w: World, s: Instance, rounds: set<nat>, s': Instance) {
    if exists r :: r in rounds && CanSkip(w, s, r) then exists r :: IsLast(w, s, rounds, r) && Skips(w, s, r, s')
    else s' == s
  }

  /** It proposes its input, and takes up what has been queued. */
  ghost predicate OnStart(w: World, s: Instance, ms: seq<GMessage>, envs: seq<Env>, s': Instance)
    requires |ms| == |envs|
  {
    exists s1: Instance, s2, rounds, ok ::
      && s1 == s.(phase := QUALITY, log := s1.log) && Sends(w, s, s1, 0, QUALITY, s.input)
      && OnEach(w, s1, ms, envs, {}, s2, rounds, ok)
      && if ok then SkipsToLast(w, s2, rounds, s') else s' == s2
  }
}
