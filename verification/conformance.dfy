/** Every step of a run does what the event must lead to. */
module Conformance {
  import opened Basics
  import opened Chains
  import opened Power
  import opened Quorums
  import opened Tallies
  import opened Messages
  import opened Instances
  import opened Evidence
  import opened Steps
  import opened Progress
  import opened Network
  import opened Responses
  import ConvergeStates

  // ---------- sums ----------

  lemma WinsExactly(w: World, votes: Tally, v: Chain)
    requires Sound(w)
    ensures Wins(w.c.table, votes, v) <==> HasQuorum(w.c.table, votes, v)
  {
    var ids := Supporters(votes, v);
    assert ids == VotersFor(votes, v);
    QuorumExactly(w, ids);
  }

  lemma QuorumExactly(w: World, ids: set<ActorID>)
    requires Sound(w)
    ensures QuorumOf(w.c.table, ids) <==> 3 * PowerOf(w.c.table, ids) >= 2 * w.c.table.scaledTotal
  {
    StrongQuorumMeaning(PowerOf(w.c.table, ids), w.c.table.scaledTotal);
    PowerOfNone(w.c.table);
  }

  lemma PrefixWinsExactly(w: World, votes: Tally, v: Chain)
    requires Sound(w)
    ensures WinsAsPrefix(w.c.table, votes, v) <==> HasPrefixQuorum(w.c.table, votes, v)
  {
    var ids := PrefixSupporters(votes, v);
    if |v| >= 2 {
      assert ids == VotersBeyond(votes, v);
    } else {
      assert ids == {};
    }
    QuorumExactly(w, ids);
  }

  lemma HeardExactly(t: PowerTable, votes: Tally)
    ensures Heard(t, votes) <==> ReceivedFromStrongQuorum(t, votes)
    ensures HeardSome(t, votes) <==> ReceivedFromWeakQuorum(t, votes)
  {
    StrongQuorumMeaning(PowerOf(t, votes.Keys), t.scaledTotal);
    WeakQuorumMeaning(PowerOf(t, votes.Keys), t.scaledTotal);
  }

  lemma MayWinExactly(t: PowerTable, votes: Tally, v: Chain)
    ensures MayWin(t, votes, v, 0) <==> CouldReach(t, votes, v, false)
    ensures MayWin(t, votes, v, t.scaledTotal / 3) <==> CouldReach(t, votes, v, true)
  {
    assert Supporters(votes, v) == VotersFor(votes, v);
    PowerOfMonotone(t, votes.Keys, votes.Keys);
    var possible := PowerOf(t, Supporters(votes, v)) + t.scaledTotal - PowerOf(t, votes.Keys);
    forall n: nat
      ensures IsStrongQuorum(n, t.scaledTotal) <==> 3 * n >= 2 * t.scaledTotal
    {
      StrongQuorumMeaning(n, t.scaledTotal);
    }
  }

  // ---------- evidence ----------

  lemma NextProves(w: World, sd: SupplementalData, m: map<Chain, Justification>, r: nat, r': nat, p: Phase, v: Chain)
    requires (p == PREPARE || p == CONVERGE) && r' == r + 1
    requires forall x :: x in m ==> GoodJustification(w, sd, m[x], r', p, x)
    ensures Proves(m, VoteAt(w.c, sd, r, PREPARE, v)) <==> JustificationOf(m, PREPARE, v).Some?
    ensures Proves(m, VoteAt(w.c, sd, r, COMMIT, BOTTOM)) <==> HasBottomJustification(m, COMMIT)
  {
    if v in m && m[v].vote.phase == PREPARE {
      assert m[v].vote == VoteAt(w.c, sd, r, PREPARE, v);
    }
    if k :| k in m && m[k].vote == VoteAt(w.c, sd, r, PREPARE, v) {
      assert k == v;
    }
    if k :| k in m && JustifiesBottom(m[k], COMMIT) {
      assert m[k].vote == VoteAt(w.c, sd, r, COMMIT, BOTTOM);
    }
    if k :| k in m && m[k].vote == VoteAt(w.c, sd, r, COMMIT, BOTTOM) {
      assert JustifiesBottom(m[k], COMMIT);
    }
  }

  lemma CommitProves(w: World, sd: SupplementalData, m: map<Chain, Justification>, r: nat, v: Chain)
    requires Strict(w, r) && forall x :: x in m ==> CommitSupport(w, sd, m[x], r, x)
    ensures Proves(m, VoteAt(w.c, sd, r, PREPARE, v)) <==> JustificationOf(m, PREPARE, v).Some?
  {
    if v in m {
      assert m[v].vote == VoteAt(w.c, sd, r, PREPARE, v);
    }
    if k :| k in m && m[k].vote == VoteAt(w.c, sd, r, PREPARE, v) {
      assert k == v;
    }
  }

  lemma ProvedByNext(w: World, sd: SupplementalData, r: nat, r': nat, now: Round, next: Round, v: Chain)
    requires RoundOk(w, sd, r, now) && RoundOk(w, sd, r', next) && Strict(w, r) && r' == r + 1
    ensures ProvedBy(now, next, VoteAt(w.c, sd, r, PREPARE, v)) <==> EvidenceIn(now, next, v).Some?
    ensures ProvedIn(next, VoteAt(w.c, sd, r, COMMIT, BOTTOM)) <==> HasBottom(next)
  {
    CommitProves(w, sd, now.committedJust, r, v);
    NextProves(w, sd, next.preparedJust, r, r', PREPARE, v);
    NextProves(w, sd, ConvergeJust(next), r, r', CONVERGE, v);
  }

  lemma ProvedExactly(w: World, s: Instance, r': nat, v: Chain)
    requires StoredOk(w, s) && Strict(w, s.round) && r' == s.round + 1
    ensures PrepareProved(w.c, s, v) <==> PrepareEvidence(s, v).Some?
    ensures BottomProved(w.c, s) <==> HasBottom(GetRound(s, r'))
  {
    GetRoundOk(w, s, s.round);
    GetRoundOk(w, s, r');
    ProvedByNext(w, s.supplement, s.round, r', GetRound(s, s.round), GetRound(s, r'), v);
    AtNextRound(w.c, s, r', v);
  }

  lemma AtNextRound(c: Config, s: Instance, r': nat, v: Chain)
    requires r' == s.round + 1
    ensures PrepareEvidence(s, v) == EvidenceIn(GetRound(s, s.round), GetRound(s, r'), v)
    ensures PrepareProved(c, s, v) ==
      ProvedBy(GetRound(s, s.round), GetRound(s, r'), VoteAt(c, s.supplement, s.round, PREPARE, v))
    ensures BottomProved(c, s) == ProvedIn(GetRound(s, r'), VoteAt(c, s.supplement, s.round, COMMIT, BOTTOM))
  {
  }

  /** What a participant has sent meets the rules. */
  lemma LastSent(w: World, s: Instance, s': Instance, r: nat, p: Phase, v: Chain, j: Option<Justification>)
    requires LogOk(w, s') && s'.log == s.log + [Broadcast(VoteAt(w.c, s.supplement, r, p, v), j)]
    ensures Sends(w, s, s', r, p, v)
  {
    assert s'.log[|s.log|] == Broadcast(VoteAt(w.c, s.supplement, r, p, v), j);
    assert EntryOk(w, s'.supplement, s'.input, s'.quality, s'.log, s'.log[|s.log|]);
  }

  // ---------- the ends of the phases ----------

  lemma PrepareEnds(w: World, s: Instance, elapsed: bool) returns (s': Instance)
    requires Sound(w) && Inv(w, s) && s.phase == PREPARE && Strict(w, s.round)
    ensures s' == TryPrepare(w.c, s, elapsed) && Inv(w, s') && Keeps(w, s, s')
    ensures EndPrepare(w, s, elapsed, s')
  {
    var prepared := GetRound(s, s.round).prepared;
    WinsExactly(w, prepared, s.proposal);
    ProvedExactly(w, s, s.round + 1, s.proposal);
    MayWinExactly(w.c.table, prepared, s.proposal);
    HeardExactly(w.c.table, prepared);
    s' := TryPrepareOk(w, s, elapsed);
    if PrepareSupported(w.c, s) {
      CommitSent(w, s, s.proposal, s');
    } else if PrepareOver(w.c, s, elapsed) {
      CommitSent(w, s, BOTTOM, s');
    }
  }

  lemma CommitSent(w: World, s: Instance, v: Chain, s': Instance)
    requires s' == BeginCommit(w.c, s.(value := v)) && LogOk(w, s') && !s'.panicked
    ensures GoesToCommit(w, s, v, s')
  {
    var s1 := s.(value := v);
    var j := if v == BOTTOM then None else EvidenceToCommit(w.c, s1);
    assert s' == CommitWith(w.c, s1, j);
    LastSent(w, s, s', s.round, COMMIT, v, j);
  }

  lemma LongestExactly(w: World, votes: Tally, c: Chain, v: Chain)
    requires Sound(w) && c != BOTTOM && v == LongestQuorumPrefix(w.c.table, votes, c, |c|)
    ensures Longest(w.c.table, votes, c, v)
  {
    LongestQuorumPrefixMeaning(w.c.table, votes, c, |c|);
    PrefixWinsExactly(w, votes, v);
    forall k | |v| < k <= |c|
      ensures !WinsAsPrefix(w.c.table, votes, c[..k])
    {
      PrefixWinsExactly(w, votes, c[..k]);
    }
  }

  lemma {:induction false} AddedCandidates(candidates: set<Chain>, v: Chain, n: nat)
    requires n <= |v|
    ensures var added := AddCandidatePrefixes(candidates, v, n);
      && candidates <= added && (n >= 2 ==> v[..n] in added)
      && forall x :: x in added ==> x in candidates || x <= v
  {
    if n >= 2 && v[..n] in candidates {
      AddedCandidates(candidates, v, n - 1);
    }
  }

  /** The longest prefix with a quorum becomes a candidate. */
  lemma CandidatesAdded(w: World, s: Instance, v: Chain, s': Instance)
    requires Longest(w.c.table, s.quality, s.input, v) && BaseChain(s.input) in s.candidates
    requires s'.candidates == AddCandidatePrefixes(s.candidates, v, |v|)
    ensures MoreCandidates(s, v, s')
  {
    AddedCandidates(s.candidates, v, |v|);
    assert v[..|v|] == v;
    if |v| == 1 {
      assert v == BaseChain(s.input);
    }
  }

  lemma QualityEnds(w: World, s: Instance, elapsed: bool) returns (s': Instance)
    requires Sound(w) && Inv(w, s) && s.phase == QUALITY
    ensures s' == TryQuality(w.c, s, elapsed) && Inv(w, s') && Keeps(w, s, s')
    ensures EndQuality(w, s, elapsed, s')
  {
    s' := TryQualityOk(w, s, elapsed);
    PrefixWinsExactly(w, s.quality, s.input);
    if HasPrefixQuorum(w.c.table, s.quality, s.proposal) || elapsed {
      var v := LongestQuorumPrefix(w.c.table, s.quality, s.input, |s.input|);
      LongestExactly(w, s.quality, s.input, v);
      CandidatesAdded(w, s, v, s');
      LastSent(w, s, s', s.round, PREPARE, v, None);
      assert GoesToPrepare(w, s, v, s');
    }
  }

  lemma LateQualityHolds(w: World, s: Instance) returns (s': Instance)
    requires Sound(w) && Inv(w, s)
    ensures s' == UpdateCandidatesFromQuality(w.c, s) && Inv(w, s') && Keeps(w, s, s') && LateQuality(w, s, s')
  {
    s' := UpdateCandidatesFromQuality(w.c, s);
    UpdateCandidatesOk(w, s);
    var v := LongestQuorumPrefix(w.c.table, s.quality, s.input, |s.input|);
    LongestExactly(w, s.quality, s.input, v);
    CandidatesAdded(w, s, v, s');
  }

  lemma EligibleExactly(c: Config, s: Instance, v: Chain)
    requires s.round > 0
    ensures Eligible(c.table, s, v) <==> v in AdmissibleValues(c, s)
  {
    MayWinExactly(c.table, GetRound(s, s.round - 1).committed, v);
  }

  lemma EligibleValues(c: Config, s: Instance)
    requires s.round > 0
    ensures forall v :: Eligible(c.table, s, v) <==> v in AdmissibleValues(c, s)
  {
    forall v
      ensures Eligible(c.table, s, v) <==> v in AdmissibleValues(c, s)
    {
      EligibleExactly(c, s, v);
    }
  }

  lemma ConvergePicks(c: Config, s: Instance, env: Env) returns (v: Chain)
    requires env.elapsed && AdmissibleValues(c, s) != {}
    ensures var converged := GetRound(s, s.round).converged;
      && IsBest(converged, AdmissibleValues(c, s), v)
      && TryConverge(c, s, env) == Outcome(AdoptedValue(c, s, v, Some(converged[v].justification)), true, NoError)
  {
    var converged := GetRound(s, s.round).converged;
    ConvergeStates.BestExists(converged, AdmissibleValues(c, s), env.convergePick);
    v := Best(converged, AdmissibleValues(c, s), env.convergePick).value;
  }

  lemma ConvergeIdles(c: Config, s: Instance, env: Env)
    requires !env.elapsed || AdmissibleValues(c, s) == {}
    ensures TryConverge(c, s, env).s == s
  {
    ConvergeStates.BestExists(GetRound(s, s.round).converged, AdmissibleValues(c, s), env.convergePick);
  }

  lemma LowestRank(converged: map<Chain, ConvergeValue>, among: set<Chain>, v: Chain)
    requires IsBest(converged, among, v)
    ensures forall x :: x in among && x in converged ==> AtMost(converged[v].rank, converged[x].rank)
  {
  }

  lemma ConvergeEnds(w: World, s: Instance, env: Env) returns (s': Instance)
    requires Sound(w) && Inv(w, s) && s.phase == CONVERGE
    ensures s' == TryConverge(w.c, s, env).s && Inv(w, s') && Keeps(w, s, s')
    ensures s.round > 0 && EndConverge(w, s, env.elapsed, s')
  {
    s' := TryConvergeOk(w, s, env);
    EligibleValues(w.c, s);
    var converged := GetRound(s, s.round).converged;
    if env.elapsed && AdmissibleValues(w.c, s) != {} {
      var v := ConvergePicks(w.c, s, env);
      LowestRank(converged, AdmissibleValues(w.c, s), v);
      Adopted(w, s, v, converged[v].justification, s');
      ConvergeEndsWith(w, s, v, s');
    } else {
      ConvergeIdles(w.c, s, env);
      assert !(env.elapsed && exists v :: Eligible(w.c.table, s, v));
    }
  }

  lemma ConvergeEndsWith(w: World, s: Instance, v: Chain, s': Instance)
    requires s.round > 0 && Eligible(w.c.table, s, v)
    requires GoesToPrepare(w, s, v, s') && s'.candidates == s.candidates + {v}
    requires forall x :: Eligible(w.c.table, s, x) ==>
      AtMost(GetRound(s, s.round).converged[v].rank, GetRound(s, s.round).converged[x].rank)
    ensures EndConverge(w, s, true, s')
  {
  }

  lemma Adopted(w: World, s: Instance, v: Chain, j: Justification, s': Instance)
    requires s' == AdoptedValue(w.c, s, v, Some(j)) && LogOk(w, s')
    ensures GoesToPrepare(w, s, v, s') && s'.candidates == s.candidates + {v}
  {
    LastSent(w, s, s', s.round, PREPARE, v, Some(j));
  }

  // ---------- COMMIT ----------

  lemma DecideSent(w: World, s: Instance, r: nat, v: Chain, s': Instance)
    requires s' == BeginDecide(w.c, s.(value := v), r) && LogOk(w, s') && !s'.panicked
    ensures GoesToDecide(w, s, v, s')
  {
    LastSent(w, s, s', 0, DECIDE, v, EvidenceToDecide(w.c, s.(value := v), r));
  }

  lemma RoundEntered(w: World, s: Instance, s0: Instance, swayed: bool, j: Justification, s': Instance)
    requires s0 == s.(round := s0.round, proposal := s0.proposal, candidates := s0.candidates)
    requires s0.candidates == if swayed then s.candidates + {s0.proposal} else s.candidates
    requires !swayed ==> s0.proposal == s.proposal
    requires s' == BeginConverge(w.c, s0, j) && LogOk(w, s') && !s'.panicked
    ensures GoesToRound(w, s, s0.round, s0.proposal, swayed, s')
  {
    LastSent(w, s, s', s0.round, CONVERGE, s0.proposal, Some(j));
    assert GetRound(s', s0.round) == WithSelfValue(GetRound(s, s0.round), s0.proposal, j);
  }

  lemma NextRoundEntered(w: World, s: Instance, s0: Instance, swayed: bool, env: Env, r: nat, s': Instance)
    requires s0 == s.(proposal := s0.proposal, candidates := s0.candidates) && r == s.round + 1
    requires s0.candidates == if swayed then s.candidates + {s0.proposal} else s.candidates
    requires !swayed ==> s0.proposal == s.proposal
    requires s' == BeginNextRound(w.c, s0, env) && LogOk(w, s') && !s'.panicked
    ensures GoesToRound(w, s, r, s0.proposal, swayed, s')
  {
    var j := NextRoundJustification(w.c, s0, env);
    EntersWith(w.c, s0, r, j.value);
    RoundEntered(w, s, s0.(round := r), swayed, j.value, s');
  }

  lemma CommitDecides(w: World, s: Instance, r: nat, elapsed: bool, env: Env) returns (s': Instance)
    requires Sound(w) && Inv(w, s) && !Decided(s) && Strict(w, s.round)
    requires exists v :: v != BOTTOM && HasQuorum(w.c.table, GetRound(s, r).committed, v)
    ensures s' == TryCommit(w.c, s, r, elapsed, env) && Inv(w, s') && Keeps(w, s, s')
    ensures EndCommit(w, s, r, elapsed, s')
  {
    var committed := GetRound(s, r).committed;
    s' := CommitDecidesOk(w, s, r, elapsed, env);
    NoMultipleQuorums(w, committed);
    var v :| v != BOTTOM && HasQuorum(w.c.table, committed, v);
    WinsExactly(w, committed, v);
    DecideSent(w, s, r, v, s');
  }

  lemma NobodyWins(w: World, votes: Tally)
    requires Sound(w) && forall v :: v != BOTTOM ==> !HasQuorum(w.c.table, votes, v)
    ensures forall v :: v != BOTTOM ==> !Wins(w.c.table, votes, v)
  {
    forall v | v != BOTTOM
      ensures !Wins(w.c.table, votes, v)
    {
      WinsExactly(w, votes, v);
    }
  }

  lemma LeavesWithBottom(w: World, s: Instance, r: nat, r': nat, env: Env) returns (s': Instance)
    requires Sound(w) && Inv(w, s) && s.phase == COMMIT && s.round == r && r' == r + 1 && Strict(w, r)
    requires HasQuorum(w.c.table, GetRound(s, r).committed, BOTTOM) || HasBottom(GetRound(s, r'))
    ensures s' == BeginNextRound(w.c, s, env) && Inv(w, s') && Keeps(w, s, s')
    ensures GoesToRound(w, s, r', s.proposal, false, s')
  {
    s' := CommitLeavesOk(w, s, r, r', false, env);
    NextRoundEntered(w, s, s, false, env, r', s');
  }

  lemma LeavesSwayed(w: World, s: Instance, r: nat, r': nat, env: Env) returns (s': Instance, v: Chain)
    requires Sound(w) && Inv(w, s) && s.phase == COMMIT && s.round == r && r' == r + 1 && Strict(w, r)
    requires !HasQuorum(w.c.table, GetRound(s, r).committed, BOTTOM)
    requires ReceivedFromStrongQuorum(w.c.table, GetRound(s, r).committed)
    ensures s' == BeginNextRound(w.c, Sway(s, GetRound(s, r).committed, env.commitPick), env)
    ensures Inv(w, s') && Keeps(w, s, s')
    ensures v != BOTTOM && v in GetRound(s, r).committed.Values && GoesToRound(w, s, r', v, true, s')
  {
    s' := CommitLeavesOk(w, s, r, r', true, env);
    v := SwayValue(w, s, env.commitPick);
    Swayed(w, s, GetRound(s, r).committed, v, env, r', s');
  }

  lemma Swayed(w: World, s: Instance, committed: Tally, v: Chain, env: Env, r': nat, s': Instance)
    requires CommittedValue(committed, env.commitPick) == Some(v) && r' == s.round + 1
    requires s' == BeginNextRound(w.c, Sway(s, committed, env.commitPick), env) && LogOk(w, s') && !s'.panicked
    ensures v != BOTTOM && v in committed.Values && GoesToRound(w, s, r', v, true, s')
  {
    NextRoundEntered(w, s, Sway(s, committed, env.commitPick), true, env, r', s');
  }

  lemma CommitRoundEnds(w: World, s: Instance, r: nat, r': nat, elapsed: bool, env: Env) returns (s': Instance)
    requires Sound(w) && Inv(w, s) && s.phase == COMMIT && s.round == r && r' == r + 1 && Strict(w, r)
    requires forall v :: v != BOTTOM ==> !HasQuorum(w.c.table, GetRound(s, r).committed, v)
    ensures s' == TryCommit(w.c, s, r, elapsed, env) && Inv(w, s') && Keeps(w, s, s')
    ensures EndCommit(w, s, r, elapsed, s')
  {
    var t, committed := w.c.table, GetRound(s, r).committed;
    NobodyWins(w, committed);
    NoMultipleQuorums(w, committed);
    WinsExactly(w, committed, BOTTOM);
    ProvedExactly(w, s, r', BOTTOM);
    BottomNext(s, r, r');
    HeardExactly(t, committed);
    if HasQuorum(t, committed, BOTTOM) || BottomJustified(s, r) {
      s' := LeavesWithBottom(w, s, r, r', env);
    } else if elapsed && ReceivedFromStrongQuorum(t, committed) {
      var v;
      s', v := LeavesSwayed(w, s, r, r', env);
    } else {
      s' := s;
    }
  }

  lemma CommitWaits(w: World, s: Instance, r: nat, elapsed: bool, env: Env) returns (s': Instance)
    requires Sound(w) && Inv(w, s) && !Decided(s) && Strict(w, s.round)
    requires forall v :: v != BOTTOM ==> !HasQuorum(w.c.table, GetRound(s, r).committed, v)
    ensures s' == TryCommit(w.c, s, r, elapsed, env) && Inv(w, s') && Keeps(w, s, s')
    ensures EndCommit(w, s, r, elapsed, s')
  {
    if s.round == r && s.phase == COMMIT {
      s' := CommitRoundEnds(w, s, r, r + 1, elapsed, env);
    } else {
      NobodyWins(w, GetRound(s, r).committed);
      NoMultipleQuorums(w, GetRound(s, r).committed);
      s' := s;
    }
  }

  lemma CommitEnds(w: World, s: Instance, r: nat, elapsed: bool, env: Env) returns (s': Instance)
    requires Sound(w) && Inv(w, s) && !Decided(s) && Strict(w, s.round)
    ensures s' == TryCommit(w.c, s, r, elapsed, env) && Inv(w, s') && Keeps(w, s, s')
    ensures EndCommit(w, s, r, elapsed, s')
  {
    if exists v :: v != BOTTOM && HasQuorum(w.c.table, GetRound(s, r).committed, v) {
      s' := CommitDecides(w, s, r, elapsed, env);
    } else {
      s' := CommitWaits(w, s, r, elapsed, env);
    }
  }

  // ---------- DECIDE ----------

  lemma DecideEnds(w: World, s: Instance) returns (s': Instance)
    requires Sound(w) && Core(w, s) && PhaseOk(s) && s.phase == DECIDE
    ensures s' == TryDecide(w.c, s) && Inv(w, s') && Keeps(w, s, s')
    ensures EndDecide(w, s, s')
  {
    s' := TryDecideOk(w, s);
    NoMultipleQuorums(w, s.decision);
    if v :| HasQuorum(w.c.table, s.decision, v) {
      WinsExactly(w, s.decision, v);
      var d := DecisionOk(w, s, v);
    } else {
      forall v
        ensures !Wins(w.c.table, s.decision, v)
      {
        WinsExactly(w, s.decision, v);
      }
    }
  }

  // ---------- the current phase ----------

  lemma PhaseEnds(w: World, s: Instance, env: Env) returns (s': Instance)
    requires Sound(w) && Inv(w, s) && s.phase != INITIAL && Strict(w, s.round)
    ensures s' == TryCurrentPhase(w.c, s, env).s && Inv(w, s') && Keeps(w, s, s')
    ensures EndPhase(w, s, env.elapsed, s')
  {
    match s.phase
    case QUALITY => s' := QualityEnds(w, s, env.elapsed);
    case CONVERGE => s' := ConvergeEnds(w, s, env);
    case PREPARE => s' := PrepareEnds(w, s, env.elapsed);
    case COMMIT => s' := CommitEnds(w, s, s.round, env.elapsed, env);
    case DECIDE => s' := DecideEnds(w, s);
    case TERMINATED => s' := s;
  }

  /** Nothing but a CONVERGE phase without eligible values ends in an error. */
  lemma PhaseFails(c: Config, s: Instance, env: Env)
    requires s.phase != INITIAL && (s.phase == CONVERGE ==> s.round > 0)
    ensures TryCurrentPhase(c, s, env).changed
    ensures TryCurrentPhase(c, s, env).error ==
      if s.phase == CONVERGE && env.elapsed && !exists v :: Eligible(c.table, s, v) then InternalError else NoError
  {
    if s.phase == CONVERGE {
      EligibleValues(c, s);
      ConvergeStates.NoValuesAtConverge(c, s, env);
      assert TryConverge(c, s, env).error == NoError || TryConverge(c, s, env).error == InternalError;
    }
  }

  // ---------- counting ----------

  lemma QualityCounted(s: Instance, m: GMessage, s': Instance)
    requires m.vote.phase == QUALITY && s' == s.(quality := Record(s.quality, m.sender, m.vote.value))
    ensures Counts(s, m, s')
  {
  }

  lemma DecideCounted(s: Instance, m: GMessage, s': Instance)
    requires m.vote.phase == DECIDE && s' == s.(decision := Record(s.decision, m.sender, m.vote.value))
    ensures Counts(s, m, s')
  {
  }

  lemma ConvergeCounted(s: Instance, m: GMessage, s': Instance)
    requires m.vote.phase == CONVERGE && m.justification.Some?
    requires s' == SetRound(s, m.vote.round, RecordConverge(GetRound(s, m.vote.round), m, m.justification.value))
    ensures Counts(s, m, s')
  {
    ConvergeRecorded(GetRound(s, m.vote.round), m, m.justification.value);
  }

  lemma ConvergeRecorded(rd: Round, m: GMessage, j: Justification)
    requires m.justification == Some(j)
    ensures ConvergeCounts(rd, m, RecordConverge(rd, m, j))
  {
  }

  lemma PrepareCounted(s: Instance, m: GMessage, s': Instance)
    requires m.vote.phase == PREPARE
    requires s' == SetRound(s, m.vote.round, RecordPrepare(GetRound(s, m.vote.round), m))
    ensures Counts(s, m, s')
  {
  }

  lemma CommitCounted(s: Instance, m: GMessage, s': Instance)
    requires m.vote.phase == COMMIT && (m.justification.Some? <==> m.vote.value != BOTTOM)
    requires s' == SetRound(s, m.vote.round, RecordCommit(GetRound(s, m.vote.round), m))
    ensures Counts(s, m, s')
  {
  }

  // ---------- messages ----------

  lemma IgnoredExactly(c: Config, s: Instance, m: GMessage, env: Env)
    ensures Ignored(c, s, m) ==> ReceiveOne(c, s, m, env).s == s && !ReceiveOne(c, s, m, env).changed
    ensures Ignored(c, s, m) && m.vote.instance == c.instance ==> ReceiveOne(c, s, m, env).error != InternalError
    ensures m.vote.instance != c.instance ==> ReceiveOne(c, s, m, env).error == InternalError
    ensures !Ignored(c, s, m) ==> ReceiveOne(c, s, m, env) == TakenUp(c, s, m, env)
  {
  }

  /** What a message that is taken up leads to: it is counted, and the participant reacts. */
  ghost predicate Conforms(w: World, s: Instance, m: GMessage, env: Env, s1: Instance, o: Outcome) {
    && Counts(s, m, s1) && Reacts(w, s1, m, env, o.s)
    && o.changed && o.error == (if Stuck(w, s1, m, env.elapsed) then InternalError else NoError)
  }

  lemma QualityTaken(w: World, s: Instance, m: GMessage, env: Env) returns (s1: Instance, o: Outcome)
    requires Sound(w) && Inv(w, s) && ForInstance(w, s, m) && m.vote.phase == QUALITY && s.phase != INITIAL
    requires Strict(w, s.round)
    ensures o == ReceiveQuality(w.c, s, m, env) && Inv(w, o.s) && Keeps(w, s, o.s)
    ensures Conforms(w, s, m, env, s1, o)
  {
    s1 := RecordQualityOk(w, s, m);
    QualityCounted(s, m, s1);
    o := QualityReacts(w, s1, m, env);
    KeepsTransitive(w, s, s1, o.s);
  }

  lemma QualityReacts(w: World, s: Instance, m: GMessage, env: Env) returns (o: Outcome)
    requires Sound(w) && Inv(w, s) && m.vote.phase == QUALITY
    ensures o == if s.phase != QUALITY then Outcome(UpdateCandidatesFromQuality(w.c, s), true, NoError)
                 else Outcome(TryQuality(w.c, s, env.elapsed), true, NoError)
    ensures Inv(w, o.s) && Keeps(w, s, o.s) && Reacts(w, s, m, env, o.s)
  {
    var s' := s;
    if s.phase == QUALITY {
      s' := QualityEnds(w, s, env.elapsed);
    } else {
      s' := LateQualityHolds(w, s);
    }
    o := Outcome(s', true, NoError);
  }

  /** A round is replaced by a good one, then the current phase is tried. */
  lemma StoredAndTried(w: World, s: Instance, m: GMessage, rd: Round, env: Env) returns (s1: Instance, o: Outcome)
    requires Sound(w) && Inv(w, s) && RoundOk(w, s.supplement, m.vote.round, rd) && s.phase != INITIAL
    requires Strict(w, s.round) && (m.vote.phase == CONVERGE || m.vote.phase == PREPARE)
    ensures s1 == SetRound(s, m.vote.round, rd) && o == TryCurrentPhase(w.c, s1, env) && Inv(w, o.s) && Keeps(w, s, o.s)
    ensures Reacts(w, s1, m, env, o.s)
    ensures o.changed && o.error == if Stuck(w, s1, m, env.elapsed) then InternalError else NoError
  {
    s1 := SetRound(s, m.vote.round, rd);
    StoreRoundOk(w, s, m.vote.round, rd);
    o := TryCurrentPhase(w.c, s1, env);
    var s' := PhaseEnds(w, s1, env);
    PhaseFails(w.c, s1, env);
    KeepsTransitive(w, s, s1, s');
  }

  lemma ConvergeTaken(w: World, s: Instance, m: GMessage, env: Env) returns (s1: Instance, o: Outcome)
    requires Sound(w) && Inv(w, s) && ForInstance(w, s, m) && m.vote.phase == CONVERGE && s.phase != INITIAL
    requires Strict(w, s.round)
    ensures o == ReceiveConverge(w.c, s, m, env) && Inv(w, o.s) && Keeps(w, s, o.s)
    ensures Conforms(w, s, m, env, s1, o)
  {
    RecordConvergeOk(w, s, m);
    s1, o := StoredAndTried(w, s, m, RecordConverge(GetRound(s, m.vote.round), m, m.justification.value), env);
    ConvergeCounted(s, m, s1);
  }

  lemma PrepareTaken(w: World, s: Instance, m: GMessage, env: Env) returns (s1: Instance, o: Outcome)
    requires Sound(w) && Inv(w, s) && ForInstance(w, s, m) && m.vote.phase == PREPARE && s.phase != INITIAL
    requires Strict(w, s.round)
    ensures o == ReceivePrepare(w.c, s, m, env) && Inv(w, o.s) && Keeps(w, s, o.s)
    ensures Conforms(w, s, m, env, s1, o)
  {
    RecordPrepareOk(w, s, m);
    s1, o := StoredAndTried(w, s, m, RecordPrepare(GetRound(s, m.vote.round), m), env);
    PrepareCounted(s, m, s1);
  }

  lemma CommitThenPrepare(w: World, s: Instance, m: GMessage, env: Env) returns (o: Outcome)
    requires Sound(w) && Inv(w, s) && !Decided(s) && s.phase != INITIAL && Strict(w, s.round)
    requires m.vote.phase == COMMIT
    ensures o == TryCommitThenPhase(w.c, s, m, env) && Inv(w, o.s) && Keeps(w, s, o.s)
    ensures o.changed && o.error == NoError && Reacts(w, s, m, env, o.s)
  {
    var s1 := CommitEnds(w, s, m.vote.round, env.elapsedAtCommit, env);
    ThenPrepare(w.c, s, m, env, s1);
    o := Outcome(s1, true, NoError);
    if s1.phase == PREPARE && s1.round == m.vote.round && m.vote.value != BOTTOM {
      var s' := PrepareEnds(w, s1, env.elapsed);
      o := Outcome(s', true, NoError);
      KeepsTransitive(w, s, s1, s');
    }
    CommitReacts(w, s, m, env, s1, o.s);
  }

  lemma ThenPrepare(c: Config, s: Instance, m: GMessage, env: Env, s1: Instance)
    requires s1 == TryCommit(c, s, m.vote.round, env.elapsedAtCommit, env)
    ensures TryCommitThenPhase(c, s, m, env) ==
      if s1.phase == PREPARE && s1.round == m.vote.round && m.vote.value != BOTTOM
      then Outcome(TryPrepare(c, s1, env.elapsed), true, NoError) else Outcome(s1, true, NoError)
  {
  }

  lemma CommitReacts(w: World, s: Instance, m: GMessage, env: Env, s1: Instance, s': Instance)
    requires m.vote.phase == COMMIT && s.phase != DECIDE && EndCommit(w, s, m.vote.round, env.elapsedAtCommit, s1)
    requires if s1.phase == PREPARE && s1.round == m.vote.round && m.vote.value != BOTTOM
             then EndPrepare(w, s1, env.elapsed, s') else s' == s1
    ensures Reacts(w, s, m, env, s')
  {
  }

  lemma UndecidedIdles(w: World, s: Instance, env: Env)
    requires Sound(w) && s.phase == DECIDE && Undecided(w, s)
    ensures TryCurrentPhase(w.c, s, env) == Outcome(s, true, NoError)
  {
    NoMultipleQuorums(w, s.decision);
  }

  lemma StoredAndCommitted(w: World, s: Instance, rd: Round, m: GMessage, env: Env) returns (s1: Instance, o: Outcome)
    requires Sound(w) && Inv(w, s) && RoundOk(w, s.supplement, m.vote.round, rd) && m.vote.phase == COMMIT
    requires s.phase != INITIAL && s.phase != TERMINATED && Strict(w, s.round)
    ensures s1 == SetRound(s, m.vote.round, rd) && Inv(w, o.s) && Keeps(w, s, o.s) && Reacts(w, s1, m, env, o.s)
    ensures o == if s.phase == DECIDE then TryCurrentPhase(w.c, s1, env) else TryCommitThenPhase(w.c, s1, m, env)
    ensures o.changed && o.error == NoError
  {
    s1 := SetRound(s, m.vote.round, rd);
    StoreRoundOk(w, s, m.vote.round, rd);
    if s.phase == DECIDE {
      UndecidedIdles(w, s1, env);
      o := Outcome(s1, true, NoError);
    } else {
      o := CommitThenPrepare(w, s1, m, env);
      KeepsTransitive(w, s, s1, o.s);
    }
  }

  lemma CommitTaken(w: World, s: Instance, m: GMessage, env: Env) returns (s1: Instance, o: Outcome)
    requires Sound(w) && Inv(w, s) && ForInstance(w, s, m) && m.vote.phase == COMMIT
    requires s.phase != INITIAL && s.phase != TERMINATED && Strict(w, s.round)
    ensures o == ReceiveCommit(w.c, s, m, env) && Inv(w, o.s) && Keeps(w, s, o.s)
    ensures Conforms(w, s, m, env, s1, o)
  {
    var rd := RecordCommit(GetRound(s, m.vote.round), m);
    CommitJustified(w, m);
    RecordCommitOk(w, s, m);
    s1, o := StoredAndCommitted(w, s, rd, m, env);
    CommitCounted(s, m, s1);
    CommitOutcome(w.c, s, m, rd, env);
  }

  lemma CommitJustified(w: World, m: GMessage)
    requires ValidMessage(w, m) && m.vote.phase == COMMIT
    ensures m.justification.Some? <==> m.vote.value != BOTTOM
  {
  }

  lemma CommitOutcome(c: Config, s: Instance, m: GMessage, rd: Round, env: Env)
    requires rd == RecordCommit(GetRound(s, m.vote.round), m) && (m.vote.value != BOTTOM ==> m.justification.Some?)
    ensures var s1 := SetRound(s, m.vote.round, rd);
      ReceiveCommit(c, s, m, env) ==
        if s.phase == DECIDE then TryCurrentPhase(c, s1, env) else TryCommitThenPhase(c, s1, m, env)
  {
  }

  lemma DecisionFollowed(w: World, s: Instance, m: GMessage, s1: Instance, s2: Instance)
    requires m.vote.phase == DECIDE && s.phase != TERMINATED
    requires s1 == s.(decision := Record(s.decision, m.sender, m.vote.value))
    requires s2 == DecideVoteRecorded(w.c, s, m) && LogOk(w, s2)
    ensures Counts(s, m, s1) && FollowsDecision(w, s1, m.vote.value, s2)
  {
    DecideCounted(s, m, s1);
    if s.phase != DECIDE {
      LastSent(w, s1.(proposal := m.vote.value), s2, 0, DECIDE, m.vote.value, m.justification);
    }
  }

  lemma DecideTaken(w: World, s: Instance, m: GMessage, env: Env) returns (s1: Instance, o: Outcome)
    requires Sound(w) && Inv(w, s) && ForInstance(w, s, m) && m.vote.phase == DECIDE
    requires s.phase != INITIAL && s.phase != TERMINATED && Strict(w, s.round)
    ensures o == ReceiveDecide(w.c, s, m, env) && Inv(w, o.s) && Keeps(w, s, o.s)
    ensures Conforms(w, s, m, env, s1, o)
  {
    s1 := s.(decision := Record(s.decision, m.sender, m.vote.value));
    var s2 := RecordDecideOk(w, s, m);
    DecisionFollowed(w, s, m, s1, s2);
    var s' := DecideEnds(w, s2);
    o := Outcome(s', true, NoError);
    KeepsTransitive(w, s, s2, s');
  }

  lemma MessageTaken(w: World, s: Instance, m: GMessage, env: Env) returns (s1: Instance, o: Outcome)
    requires Sound(w) && Inv(w, s) && ForInstance(w, s, m) && s.phase != INITIAL && s.phase != TERMINATED
    requires Strict(w, s.round)
    ensures o == TakenUp(w.c, s, m, env) && Inv(w, o.s) && Keeps(w, s, o.s)
    ensures Conforms(w, s, m, env, s1, o)
  {
    match m.vote.phase
    case QUALITY => s1, o := QualityTaken(w, s, m, env);
    case CONVERGE => s1, o := ConvergeTaken(w, s, m, env);
    case PREPARE => s1, o := PrepareTaken(w, s, m, env);
    case COMMIT => s1, o := CommitTaken(w, s, m, env);
    case DECIDE => s1, o := DecideTaken(w, s, m, env);
  }

  // ---------- skipping ----------

  lemma CanSkipExactly(w: World, s: Instance, r: nat)
    ensures CanSkip(w, s, r) <==> ShouldSkip(w.c, s, r)
  {
    HeardExactly(w.c.table, GetRound(s, r).prepared);
  }

  lemma SkipEntered(w: World, s: Instance, r: nat, v: Chain, j: Justification, s': Instance)
    requires s' == SkippedTo(w.c, s, r, v, j) && LogOk(w, s') && !s'.panicked
    ensures if j.vote.phase == PREPARE then GoesToRound(w, s, r, v, true, s')
            else GoesToRound(w, s, r, s.proposal, false, s')
  {
    var s0 := if j.vote.phase == PREPARE then SwayedTo(s, Some(v)) else s;
    EntersWith(w.c, s0, r, j);
    RoundEntered(w, s, s0.(round := r), j.vote.phase == PREPARE, j, s');
  }

  lemma SkipPicks(c: Config, s: Instance, r: nat, pick: Chain) returns (v: Chain)
    requires GetRound(s, r).converged.Keys != {}
    ensures var converged := GetRound(s, r).converged;
      && v in converged && SkipToRound(c, s, r, pick) == SkippedTo(c, s, r, v, converged[v].justification)
      && forall x :: x in converged ==> AtMost(converged[v].rank, converged[x].rank)
  {
    var converged := GetRound(s, r).converged;
    ConvergeStates.BestExists(converged, converged.Keys, pick);
    v := Best(converged, converged.Keys, pick).value;
    LowestRank(converged, converged.Keys, v);
  }

  lemma SkipsWith(w: World, s: Instance, r: nat, v: Chain, s': Instance)
    requires CanSkip(w, s, r) && v in GetRound(s, r).converged
    requires forall x :: x in GetRound(s, r).converged ==>
      AtMost(GetRound(s, r).converged[v].rank, GetRound(s, r).converged[x].rank)
    requires if GetRound(s, r).converged[v].justification.vote.phase == PREPARE then GoesToRound(w, s, r, v, true, s')
             else GoesToRound(w, s, r, s.proposal, false, s')
    ensures Skips(w, s, r, s')
  {
  }

  lemma SkipHolds(w: World, s: Instance, r: nat, pick: Chain) returns (s': Instance)
    requires Sound(w) && Inv(w, s) && ShouldSkip(w.c, s, r) && s.phase != TERMINATED
    ensures s' == SkipToRound(w.c, s, r, pick) && Inv(w, s') && Keeps(w, s, s') && Skips(w, s, r, s')
  {
    s' := SkipToRoundOk(w, s, r, pick);
    CanSkipExactly(w, s, r);
    var v := SkipPicks(w.c, s, r, pick);
    SkipEntered(w, s, r, v, GetRound(s, r).converged[v].justification, s');
    SkipsWith(w, s, r, v, s');
  }

  lemma OneRoundSkips(w: World, s: Instance, r: nat, pick: Chain) returns (s': Instance)
    requires Sound(w) && Inv(w, s) && (s.phase == TERMINATED ==> r <= s.round)
    ensures s' == PostReceive(w.c, s, [r], pick) && Inv(w, s') && Keeps(w, s, s') && Skips(w, s, r, s')
  {
    if ShouldSkip(w.c, s, r) {
      s' := SkipHolds(w, s, r, pick);
    } else {
      CanSkipExactly(w, s, r);
      s' := s;
    }
    assert [r][..0] == [];
  }

  // ---------- events ----------

  lemma NotIgnoredIsTaken(w: World, s: Instance, m: GMessage)
    requires ValidMessage(w, m) && !Ignored(w.c, s, m)
    ensures ForInstance(w, s, m) && s.phase != TERMINATED
  {
  }

  lemma DeliveryConforms(w: World, s: Instance, m: GMessage, env: Env) returns (s': Instance)
    requires Sound(w) && Inv(w, s) && ValidMessage(w, m) && s.phase != INITIAL && Strict(w, s.round)
    ensures s' == Receive(w.c, s, m, env).s && OnDelivery(w, s, m, env, s')
  {
    IgnoredExactly(w.c, s, m, env);
    if Ignored(w.c, s, m) {
      s' := s;
    } else {
      NotIgnoredIsTaken(w, s, m);
      var s1, o := MessageTaken(w, s, m, env);
      s' := o.s;
      if o.error == NoError {
        if m.vote.phase != DECIDE {
          OnlyDecideTerminates(w, s, m, env);
        }
        s' := OneRoundSkips(w, o.s, m.vote.round, env.skipPick);
      }
    }
  }

  // ---------- the start ----------

  lemma {:induction false} EachConforms(w: World, s: Instance, ms: seq<GMessage>, envs: seq<Env>, rounds: set<nat>)
    returns (s': Instance, rounds': set<nat>, ok: bool)
    requires Sound(w) && Inv(w, s) && s.phase != INITIAL
    requires |ms| == |envs| && AllValid(w, ms) && Room(w, s.round, |ms|)
    ensures Received(ReceiveEach(w.c, s, ms, envs, rounds), s', rounds', ok)
    ensures OnEach(w, s, ms, envs, rounds, s', rounds', ok)
    decreases |ms|
  {
    if ms == [] {
      s', rounds', ok := s, rounds, true;
    } else if ms[0].vote.instance != w.c.instance {
      s', rounds', ok := s, rounds, false;
    } else if Ignored(w.c, s, ms[0]) {
      IgnoredExactly(w.c, s, ms[0], envs[0]);
      s', rounds', ok := EachConforms(w, s, ms[1..], envs[1..], rounds);
    } else {
      var s1, o := FirstTaken(w, s, ms[0], envs[0]);
      if o.error == InternalError {
        s', rounds', ok := o.s, rounds, false;
      } else {
        s', rounds', ok := EachConforms(w, o.s, ms[1..], envs[1..], rounds + {ms[0].vote.round});
        OnEachAfter(w, s, ms, envs, rounds, s1, o, s', rounds', ok);
      }
    }
  }

  /** What a batch has come to. */
  predicate Received(each: (Outcome, set<nat>), s: Instance, rounds: set<nat>, ok: bool) {
    s == each.0.s && rounds == each.1 && (ok <==> each.0.error == NoError)
  }

  lemma OnEachAfter(w: World, s: Instance, ms: seq<GMessage>, envs: seq<Env>, rounds: set<nat>, s1: Instance,
      o: Outcome, s': Instance, rounds': set<nat>, ok: bool)
    requires |ms| == |envs| && ms != [] && ms[0].vote.instance == w.c.instance && !Ignored(w.c, s, ms[0])
    requires Conforms(w, s, ms[0], envs[0], s1, o) && o.error != InternalError
    requires OnEach(w, o.s, ms[1..], envs[1..], rounds + {ms[0].vote.round}, s', rounds', ok)
    ensures OnEach(w, s, ms, envs, rounds, s', rounds', ok)
  {
  }

  lemma FirstTaken(w: World, s: Instance, m: GMessage, env: Env) returns (s1: Instance, o: Outcome)
    requires Sound(w) && Inv(w, s) && ValidMessage(w, m) && s.phase != INITIAL && Strict(w, s.round)
    requires !Ignored(w.c, s, m)
    ensures o == ReceiveOne(w.c, s, m, env) && Conforms(w, s, m, env, s1, o)
    ensures Inv(w, o.s) && o.s.phase != INITIAL && o.s.round <= s.round + 1
  {
    IgnoredExactly(w.c, s, m, env);
    NotIgnoredIsTaken(w, s, m);
    s1, o := MessageTaken(w, s, m, env);
    OneRoundAtMost(w.c, s, m, env);
  }

  lemma {:induction false} LastRoundSkips(w: World, s: Instance, received: seq<nat>, rounds: set<nat>, pick: Chain)
    returns (s': Instance)
    requires Sound(w) && Inv(w, s)
    requires s.phase == TERMINATED ==> forall i :: 0 <= i < |received| ==> received[i] <= s.round
    requires forall i, j :: 0 <= i < j < |received| ==> received[i] < received[j]
    requires forall r :: r in rounds <==> r in received
    ensures s' == PostReceive(w.c, s, received, pick) && SkipsToLast(w, s, rounds, s')
    decreases |received|
  {
    if received == [] {
      s' := s;
    } else {
      var n := |received| - 1;
      var r, rest := received[n], received[..n];
      Without(received, rest, rounds, r);
      CanSkipExactly(w, s, r);
      if ShouldSkip(w.c, s, r) {
        s' := SkipHolds(w, s, r, pick);
        SkipsToThis(w, s, rounds, r, s');
      } else {
        s' := LastRoundSkips(w, s, rest, rounds - {r}, pick);
        SameSkips(w, s, rounds, r, s');
      }
    }
  }

  lemma Without(received: seq<nat>, rest: seq<nat>, rounds: set<nat>, r: nat)
    requires received == rest + [r] && forall q :: q in rounds <==> q in received
    requires forall i, j :: 0 <= i < j < |received| ==> received[i] < received[j]
    ensures r in rounds && (forall q :: q in rounds ==> q <= r) && forall q :: q in rounds - {r} <==> q in rest
  {
    assert received[|rest|] == r && forall i :: 0 <= i < |rest| ==> rest[i] == received[i];
  }

  lemma SkipsToThis(w: World, s: Instance, rounds: set<nat>, r: nat, s': Instance)
    requires r in rounds && CanSkip(w, s, r) && Skips(w, s, r, s') && forall q :: q in rounds ==> q <= r
    ensures SkipsToLast(w, s, rounds, s')
  {
    assert IsLast(w, s, rounds, r);
  }

  lemma StaysLast(w: World, s: Instance, rounds: set<nat>, r: nat, last: nat)
    requires !CanSkip(w, s, r) && IsLast(w, s, rounds - {r}, last)
    ensures IsLast(w, s, rounds, last)
  {
    forall q | q in rounds && q > last
      ensures !CanSkip(w, s, q)
    {
      assert q == r || q in rounds - {r};
    }
  }

  lemma SameSkips(w: World, s: Instance, rounds: set<nat>, r: nat, s': Instance)
    requires !CanSkip(w, s, r) && SkipsToLast(w, s, rounds - {r}, s')
    ensures SkipsToLast(w, s, rounds, s')
  {
    if q :| q in rounds && CanSkip(w, s, q) {
      assert q in rounds - {r};
      var last :| IsLast(w, s, rounds - {r}, last) && Skips(w, s, last, s');
      StaysLast(w, s, rounds, r, last);
    }
  }

  lemma StartConforms(w: World, s: Instance, ms: seq<GMessage>, envs: seq<Env>, pick: Chain) returns (s': Instance)
    requires Sound(w) && Inv(w, s) && s.phase == INITIAL
    requires |ms| == |envs| && AllValid(w, ms) && SortedByRound(ms) && Room(w, s.round, |ms|)
    ensures s' == ReceiveMany(w.c, BeginQuality(w.c, s), ms, envs, pick).s
    ensures OnStart(w, s, ms, envs, s')
  {
    var s1 := BeginQuality(w.c, s);
    BeginQualityOk(w, s);
    LastSent(w, s, s1, 0, QUALITY, s.input, None);
    var s2, rounds, ok := EachConforms(w, s1, ms, envs, {});
    if ok {
      s' := BatchSkips(w, s1, ms, envs, s2, rounds, pick);
    } else {
      s' := s2;
    }
  }

  lemma BatchSkips(w: World, s: Instance, ms: seq<GMessage>, envs: seq<Env>, s1: Instance, rounds: set<nat>,
      pick: Chain)
    returns (s': Instance)
    requires Sound(w) && Inv(w, s) && s.phase != INITIAL
    requires |ms| == |envs| && AllValid(w, ms) && SortedByRound(ms) && Room(w, s.round, |ms|)
    requires ReceiveEach(w.c, s, ms, envs, {}).0.s == s1 && ReceiveEach(w.c, s, ms, envs, {}).1 == rounds
    ensures s' == PostReceive(w.c, s1, Ascending(rounds, RoundBound(ms)), pick) && SkipsToLast(w, s1, rounds, s')
  {
    var o, all := ReceiveEachOk(w, s, ms, envs, {});
    ReceivedBound(w.c, s, ms, envs, {});
    s' := AscendingSkips(w, s1, rounds, RoundBound(ms), pick);
  }

  lemma AscendingSkips(w: World, s: Instance, rounds: set<nat>, n: nat, pick: Chain) returns (s': Instance)
    requires Sound(w) && Inv(w, s) && (s.phase == TERMINATED ==> rounds <= {0}) && forall r :: r in rounds ==> r < n
    ensures s' == PostReceive(w.c, s, Ascending(rounds, n), pick) && SkipsToLast(w, s, rounds, s')
  {
    var received := Ascending(rounds, n);
    AscendingExactly(rounds, n);
    assert forall i :: 0 <= i < |received| ==> received[i] in received;
    s' := LastRoundSkips(w, s, received, rounds, pick);
  }

  // ---------- runs ----------

  /** What the action must lead to. */
  ghost predicate Follows(w: World, s: Instance, a: Action, s': Instance) {
    match a
    case Start(_, queued, envs, _) => |queued| == |envs| && OnStart(w, s, queued, envs, s')
    case Deliver(_, m, env) => OnDelivery(w, s, m, env, s')
    case Alarm(_, env) => EndPhase(w, s, env.elapsed, s')
  }

  /** Every step of every run is the one that its event must lead to. */
  lemma StepConforms(sys: System, a: Action) returns (s': Instance)
    requires Reachable(sys) && Enabled(sys, a)
    ensures s' == Apply(sys, a).nodes[a.p] && Follows(sys.w, sys.nodes[a.p], a, s')
  {
    ReachableInv(sys);
    var w, s := sys.w, sys.nodes[a.p];
    match a
    case Start(_, queued, envs, pick) => s' := StartConforms(w, s, queued, envs, pick);
    case Deliver(_, m, env) => s' := DeliveryConforms(w, s, m, env);
    case Alarm(_, env) => s' := PhaseEnds(w, s, env);
  }
}
