/** Every step of an honest participant keeps its invariant, whatever valid messages arrive. */
module Steps {
  import opened Basics
  import opened Chains
  import opened Power
  import opened Quorums
  import opened Tallies
  import opened Messages
  import opened Instances
  import opened Evidence

  /** A valid justification was signed by at least one honest participant. */
  lemma HonestSigner(w: World, j: Justification) returns (x: Signed)
    requires Sound(w) && ValidJustification(w, j)
    ensures x in w.votes && x.vote == j.vote && x.id !in w.byzantine
  {
    var i := QuorumHasHonest(w.c.table, w.byzantine, j.signers);
    x := Signed(w.c.table.entries[i].id, j.vote);
  }

  lemma PrepareJustificationMeansPrepared(w: World, j: Justification)
    requires Sound(w) && ValidJustification(w, j) && j.vote.phase == PREPARE
    ensures PreparedByHonest(w, j.vote.value)
  {
    var x := HonestSigner(w, j);
  }

  /** The justification built from a tally's own quorum is valid and building it does not panic. */
  lemma BuildOk(w: World, sd: SupplementalData, t: Tally, r: nat, p: Phase, v: Chain)
    requires HasQuorum(w.c.table, t, v)
    requires forall id :: id in t ==> GoodVote(w, sd, id, r, p, t[id])
    ensures !FindPanics(w.c, t, v)
    ensures var j := BuildJustification(w.c, sd, t, r, p, v);
      ValidJustification(w, j) && j.vote == VoteAt(w.c, sd, r, p, v)
  {
    var ids := Supporters(t, v);
    assert forall id :: id in ids ==> Get(w.c.table, id) > 0;
    QuorumSignersMeaning(w.c.table, ids);
  }

  lemma NoMultipleQuorums(w: World, t: Tally)
    requires Sound(w)
    ensures !MultipleQuorums(w.c, t)
  {
    forall v, x | HasQuorum(w.c.table, t, v) && HasQuorum(w.c.table, t, x)
      ensures v == x
    {
      QuorumValueUnique(w.c.table, t, v, x);
    }
  }

  // ---------- sending ----------

  lemma EntryStable(w: World, s: Instance, s': Instance, b: Broadcast)
    requires Keeps(w, s, s')
    requires EntryOk(w, s.supplement, s.input, s.quality, s.log, b)
    ensures EntryOk(w, s'.supplement, s'.input, s'.quality, s'.log, b)
  {
    if BottomOk(w, s.log, b.vote) {
      var k, x :| Disputed(w, s.log, k, x, b.vote);
      assert Disputed(w, s'.log, k, x, b.vote);
    }
  }

  lemma LogStable(w: World, s: Instance, s': Instance)
    requires Keeps(w, s, s') && LogOk(w, s) && s'.log == s.log && s'.round == s.round && s'.phase == s.phase
    ensures LogOk(w, s')
  {
    forall i | 0 <= i < |s.log|
      ensures EntryOk(w, s'.supplement, s'.input, s'.quality, s'.log, s'.log[i])
    {
      EntryStable(w, s, s', s.log[i]);
    }
  }

  /** Adding a message that comes after all earlier ones. */
  lemma SendOk(w: World, s: Instance, b: Broadcast)
    requires LogOk(w, s)
    requires forall i :: 0 <= i < |s.log| ==> Before(s.log[i].vote, b.vote)
    requires NotAfter(b.vote, s.round, s.phase)
    requires EntryOk(w, s.supplement, s.input, s.quality, s.log + [b], b)
    ensures LogOk(w, s.(log := s.log + [b]))
  {
    var log := s.log + [b];
    forall i | 0 <= i < |log|
      ensures EntryOk(w, s.supplement, s.input, s.quality, log, log[i])
    {
      if i < |s.log| && BottomOk(w, s.log, s.log[i].vote) {
        var k, x :| Disputed(w, s.log, k, x, s.log[i].vote);
        assert Disputed(w, log, k, x, s.log[i].vote);
      }
    }
  }

  lemma BeginQualityOk(w: World, s: Instance)
    requires Inv(w, s) && s.phase == INITIAL
    ensures Inv(w, BeginQuality(w.c, s)) && Keeps(w, s, BeginQuality(w.c, s))
  {
    var s1 := s.(phase := QUALITY);
    SendOk(w, s1, Broadcast(VoteAt(w.c, s.supplement, s.round, QUALITY, s.proposal), None));
  }

  lemma BeginPrepareOk(w: World, s: Instance, j: Option<Justification>)
    requires Core(w, s)
    requires (s.phase == QUALITY && s.round == 0) || s.phase == CONVERGE
    requires s.value == s.proposal && CandidateOk(w, s.input, s.quality, s.value)
    requires VoteRules(VoteAt(w.c, s.supplement, s.round, PREPARE, s.value), j)
    requires j.Some? ==> ValidJustification(w, j.value)
    ensures Inv(w, BeginPrepare(w.c, s, j)) && Keeps(w, s, BeginPrepare(w.c, s, j))
  {
    var s1 := s.(phase := PREPARE);
    SendOk(w, s1, Broadcast(VoteAt(w.c, s.supplement, s.round, PREPARE, s.value), j));
    assert Prepares(BeginPrepare(w.c, s, j), |s.log|);
  }

  // ---------- QUALITY ----------

  lemma {:induction false} CandidatePrefixesOk(w: World, s: Instance, v: Chain, n: nat)
    requires CommonOk(w, s)
    requires n <= |v| && v <= s.input
    requires v == BaseChain(s.input) || HasPrefixQuorum(w.c.table, s.quality, v)
    ensures forall x :: x in AddCandidatePrefixes(s.candidates, v, n) ==> CandidateOk(w, s.input, s.quality, x)
    ensures s.candidates <= AddCandidatePrefixes(s.candidates, v, n)
  {
    if n >= 2 {
      if v[..n] !in s.candidates {
        PrefixQuorumDown(w.c.table, s.quality, v[..n], v);
        PrefixOfValid(v[..n], s.input);
      } else {
        CandidatePrefixesOk(w, s, v, n - 1);
      }
    }
  }

  lemma QualityEndsOk(w: World, s: Instance, p: Chain) returns (s': Instance)
    requires Inv(w, s) && s.phase == QUALITY && p == LongestQuorumPrefix(w.c.table, s.quality, s.input, |s.input|)
    ensures var candidates := AddCandidatePrefixes(s.candidates, p, |p|);
      s' == BeginPrepare(w.c, s.(proposal := p, candidates := candidates, value := p), None)
    ensures Inv(w, s') && Keeps(w, s, s')
  {
    LongestQuorumPrefixMeaning(w.c.table, s.quality, s.input, |s.input|);
    PrefixOfValid(p, s.input);
    CandidatePrefixesOk(w, s, p, |p|);
    var s1 := s.(proposal := p, candidates := AddCandidatePrefixes(s.candidates, p, |p|), value := p);
    assert p != BOTTOM;
    BeginPrepareOk(w, s1, None);
    s' := BeginPrepare(w.c, s1, None);
  }

  lemma TryQualityOk(w: World, s: Instance, elapsed: bool) returns (s': Instance)
    requires Inv(w, s) && s.phase == QUALITY
    ensures s' == TryQuality(w.c, s, elapsed) && Inv(w, s') && Keeps(w, s, s')
  {
    if HasPrefixQuorum(w.c.table, s.quality, s.proposal) || elapsed {
      s' := QualityEndsOk(w, s, LongestQuorumPrefix(w.c.table, s.quality, s.input, |s.input|));
    } else {
      s' := s;
    }
  }

  lemma UpdateCandidatesOk(w: World, s: Instance)
    requires Inv(w, s)
    ensures Inv(w, UpdateCandidatesFromQuality(w.c, s)) && Keeps(w, s, UpdateCandidatesFromQuality(w.c, s))
  {
    var p := LongestQuorumPrefix(w.c.table, s.quality, s.input, |s.input|);
    LongestQuorumPrefixMeaning(w.c.table, s.quality, s.input, |s.input|);
    CandidatePrefixesOk(w, s, p, |p|);
    if s.phase == PREPARE {
      var k :| Prepares(s, k);
      assert Prepares(UpdateCandidatesFromQuality(w.c, s), k);
    }
  }

  // ---------- CONVERGE ----------

  lemma SetRoundOk(w: World, s: Instance, r: nat, rd: Round)
    requires StoredOk(w, s) && RoundOk(w, s.supplement, r, rd)
    ensures StoredOk(w, SetRound(s, r, rd))
  {
  }

  lemma GetRoundOk(w: World, s: Instance, r: nat)
    requires StoredOk(w, s)
    ensures RoundOk(w, s.supplement, r, GetRound(s, r))
  {
  }

  lemma SelfValueOk(w: World, s: Instance, v: Chain, j: Justification)
    requires StoredOk(w, s) && v != BOTTOM && ValidChain(v)
    requires GoodJustification(w, s.supplement, j, s.round, CONVERGE, v)
    ensures StoredOk(w, SetRound(s, s.round, WithSelfValue(GetRound(s, s.round), v, j)))
  {
    GetRoundOk(w, s, s.round);
    SetRoundOk(w, s, s.round, WithSelfValue(GetRound(s, s.round), v, j));
  }

  lemma BeginConvergeOk(w: World, s: Instance, j: Justification)
    requires StoredOk(w, s) && CommonOk(w, s) && TerminationOk(w, s)
    requires !Decided(s) && s.round > 0
    requires LogOk(w, s)
    requires forall i :: 0 <= i < |s.log| ==> s.log[i].vote.round < s.round
    requires GoodJustification(w, s.supplement, j, s.round, CONVERGE, s.proposal)
    ensures Inv(w, BeginConverge(w.c, s, j))
    ensures s.log < BeginConverge(w.c, s, j).log
  {
    var s0 := s.(phase := CONVERGE);
    SelfValueOk(w, s0, s.proposal, j);
    var s1 := SetRound(s0, s.round, WithSelfValue(GetRound(s, s.round), s.proposal, j));
    var b := Broadcast(VoteAt(w.c, s.supplement, s.round, CONVERGE, s.proposal), Some(j));
    SendOk(w, s1, b);
    assert BeginConverge(w.c, s, j) == s1.(log := s1.log + [b]);
  }

  /** An admissible value is a candidate, or prepared by an honest participant. */
  lemma WinnerOk(w: World, s: Instance, v: Chain)
    requires Sound(w) && StoredOk(w, s) && CommonOk(w, s) && v in AdmissibleValues(w.c, s)
    ensures CandidateOk(w, s.input, s.quality, v)
    ensures GoodJustification(w, s.supplement, GetRound(s, s.round).converged[v].justification, s.round, CONVERGE, v)
  {
    GetRoundOk(w, s, s.round);
    if v !in s.candidates {
      PrepareJustificationMeansPrepared(w, GetRound(s, s.round).converged[v].justification);
    }
  }

  lemma AdoptOk(w: World, s: Instance, v: Chain, j: Justification) returns (s': Instance)
    requires Core(w, s) && s.phase == CONVERGE && s.round > 0 && CandidateOk(w, s.input, s.quality, v)
    requires GoodJustification(w, s.supplement, j, s.round, CONVERGE, v)
    ensures s' == BeginPrepare(w.c, s.(candidates := s.candidates + {v}, proposal := v, value := v), Some(j))
    ensures Inv(w, s') && Keeps(w, s, s')
  {
    var s1 := s.(candidates := s.candidates + {v}, proposal := v, value := v);
    BeginPrepareOk(w, s1, Some(j));
    s' := BeginPrepare(w.c, s1, Some(j));
  }

  lemma TryConvergeOk(w: World, s: Instance, env: Env) returns (s': Instance)
    requires Sound(w) && Inv(w, s) && s.phase == CONVERGE
    ensures s' == TryConverge(w.c, s, env).s
    ensures Inv(w, s') && Keeps(w, s, s')
  {
    var rd := GetRound(s, s.round);
    s' := s;
    if env.elapsed && Best(rd.converged, AdmissibleValues(w.c, s), env.convergePick).Some? {
      var v := Best(rd.converged, AdmissibleValues(w.c, s), env.convergePick).value;
      WinnerOk(w, s, v);
      s' := AdoptOk(w, s, v, rd.converged[v].justification);
    }
  }

  // ---------- PREPARE ----------

  /** If the participant gives up on its proposal, it has seen an acceptable PREPARE for another. */
  lemma GivingUpIsDisputed(w: World, s: Instance, elapsed: bool)
    requires Sound(w) && Inv(w, s) && s.phase == PREPARE
    requires !HasQuorum(w.c.table, GetRound(s, s.round).prepared, s.proposal)
    requires !CouldReach(w.c.table, GetRound(s, s.round).prepared, s.proposal, false)
             || ReceivedFromStrongQuorum(w.c.table, GetRound(s, s.round).prepared)
    ensures BottomOk(w, s.log, VoteAt(w.c, s.supplement, s.round, COMMIT, BOTTOM))
  {
    var prepared := GetRound(s, s.round).prepared;
    GetRoundOk(w, s, s.round);
    if forall id :: id in prepared ==> prepared[id] == s.proposal {
      UnanimousTally(w.c.table, prepared, s.proposal);
      assert false;
    }
    var id :| id in prepared && prepared[id] != s.proposal;
    var k :| Prepares(s, k);
    assert Disputed(w, s.log, k, prepared[id], VoteAt(w.c, s.supplement, s.round, COMMIT, BOTTOM));
  }

  /** A PREPARE quorum that came with a message of the next round. */
  lemma NextRoundEvidence(w: World, sd: SupplementalData, m: map<Chain, Justification>, r: nat, r': nat, p: Phase,
      v: Chain)
    requires (p == PREPARE || p == CONVERGE) && r' == r + 1
    requires forall x :: x in m ==> GoodJustification(w, sd, m[x], r', p, x)
    requires JustificationOf(m, PREPARE, v).Some?
    ensures GoodJustification(w, sd, JustificationOf(m, PREPARE, v).value, r, COMMIT, v)
  {
    assert GoodJustification(w, sd, m[v], r', p, v);
  }

  /** Where the evidence of a PREPARE quorum comes from. */
  lemma EvidenceSource(s: Instance, r': nat, v: Chain) returns (m: map<Chain, Justification>)
    requires PrepareEvidence(s, v).Some? && r' == s.round + 1
    ensures PrepareEvidence(s, v) == JustificationOf(m, PREPARE, v)
    ensures
      || m == GetRound(s, s.round).committedJust
      || m == GetRound(s, r').preparedJust || m == ConvergeJust(GetRound(s, r'))
  {
    m := ConvergeJust(GetRound(s, r'));
    if JustificationOf(GetRound(s, s.round).committedJust, PREPARE, v).Some? {
      m := GetRound(s, s.round).committedJust;
    } else if JustificationOf(GetRound(s, r').preparedJust, PREPARE, v).Some? {
      m := GetRound(s, r').preparedJust;
    }
  }

  lemma PrepareEvidenceOk(w: World, s: Instance, v: Chain)
    requires StoredOk(w, s) && PrepareEvidence(s, v).Some? && Strict(w, s.round)
    ensures GoodJustification(w, s.supplement, PrepareEvidence(s, v).value, s.round, COMMIT, v)
  {
    var r, r' := s.round, s.round + 1;
    var m := EvidenceSource(s, r', v);
    GetRoundOk(w, s, r);
    NextRoundStored(w, s, r');
    if m == GetRound(s, r').preparedJust {
      NextRoundEvidence(w, s.supplement, m, r, r', PREPARE, v);
    } else if m == ConvergeJust(GetRound(s, r')) {
      NextRoundEvidence(w, s.supplement, m, r, r', CONVERGE, v);
    }
  }

  /** Sending a COMMIT with the justification it needs. */
  lemma SendCommitOk(w: World, s: Instance, j: Option<Justification>) returns (s': Instance)
    requires Core(w, s) && s.phase == PREPARE
    requires ValidChain(s.value)
    requires if s.value == BOTTOM
             then j.None? && BottomOk(w, s.log, VoteAt(w.c, s.supplement, s.round, COMMIT, BOTTOM))
             else j.Some? && GoodJustification(w, s.supplement, j.value, s.round, COMMIT, s.value)
    ensures s' == CommitWith(w.c, s, j) && Inv(w, s') && Keeps(w, s, s')
  {
    var vote := VoteAt(w.c, s.supplement, s.round, COMMIT, s.value);
    s' := CommitWith(w.c, s, j);
    if s.value == BOTTOM {
      var k, x :| Disputed(w, s.log, k, x, vote);
      assert Disputed(w, s.log + [Broadcast(vote, j)], k, x, vote);
    }
    SendOk(w, s.(phase := COMMIT), Broadcast(vote, j));
  }

  /** The value is supported, by a quorum counted here or by evidence that came along. */
  lemma CommitEvidenceOk(w: World, s: Instance) returns (j: Justification)
    requires StoredOk(w, s) && Strict(w, s.round)
    requires HasQuorum(w.c.table, GetRound(s, s.round).prepared, s.value) || PrepareEvidence(s, s.value).Some?
    ensures EvidenceToCommit(w.c, s) == Some(j) && GoodJustification(w, s.supplement, j, s.round, COMMIT, s.value)
  {
    var prepared := GetRound(s, s.round).prepared;
    if HasQuorum(w.c.table, prepared, s.value) {
      GetRoundOk(w, s, s.round);
      BuildOk(w, s.supplement, prepared, s.round, PREPARE, s.value);
      j := BuildJustification(w.c, s.supplement, prepared, s.round, PREPARE, s.value);
    } else {
      PrepareEvidenceOk(w, s, s.value);
      j := PrepareEvidence(s, s.value).value;
    }
  }

  lemma BeginCommitOk(w: World, s: Instance) returns (s': Instance)
    requires Core(w, s) && s.phase == PREPARE && Strict(w, s.round)
    requires s.value == BOTTOM ==> BottomOk(w, s.log, VoteAt(w.c, s.supplement, s.round, COMMIT, BOTTOM))
    requires s.value != BOTTOM ==>
      && ValidChain(s.value)
      && (HasQuorum(w.c.table, GetRound(s, s.round).prepared, s.value) || PrepareEvidence(s, s.value).Some?)
    ensures s' == BeginCommit(w.c, s) && Inv(w, s') && Keeps(w, s, s')
  {
    if s.value == BOTTOM {
      s' := SendCommitOk(w, s, None);
    } else {
      var j := CommitEvidenceOk(w, s);
      s' := SendCommitOk(w, s, Some(j));
    }
  }

  lemma ValueIsFree(w: World, s: Instance, v: Chain)
    requires Core(w, s) && s.phase != TERMINATED
    ensures Core(w, s.(value := v)) && GetRound(s.(value := v), s.round) == GetRound(s, s.round)
  {
  }

  lemma SameEvidence(s: Instance, v: Chain, x: Chain)
    ensures PrepareEvidence(s.(value := v), x) == PrepareEvidence(s, x)
  {
    var r' := s.round + 1;
    assert GetRound(s.(value := v), r') == GetRound(s, r') && s.(value := v).round + 1 == r';
  }

  lemma TryPrepareOk(w: World, s: Instance, elapsed: bool) returns (s': Instance)
    requires Sound(w) && Inv(w, s) && s.phase == PREPARE && Strict(w, s.round)
    ensures s' == TryPrepare(w.c, s, elapsed)
    ensures Inv(w, s') && Keeps(w, s, s')
  {
    var prepared := GetRound(s, s.round).prepared;
    s' := s;
    if HasQuorum(w.c.table, prepared, s.proposal) || PrepareEvidence(s, s.proposal).Some? {
      SameEvidence(s, s.proposal, s.proposal);
      s' := CommitToOk(w, s, s.proposal);
    } else if !CouldReach(w.c.table, prepared, s.proposal, false)
              || (elapsed && ReceivedFromStrongQuorum(w.c.table, prepared)) {
      GivingUpIsDisputed(w, s, elapsed);
      s' := CommitToOk(w, s, BOTTOM);
    }
  }

  lemma CommitToOk(w: World, s: Instance, v: Chain) returns (s': Instance)
    requires Core(w, s) && s.phase == PREPARE && Strict(w, s.round)
    requires v == BOTTOM ==> BottomOk(w, s.log, VoteAt(w.c, s.supplement, s.round, COMMIT, BOTTOM))
    requires v != BOTTOM ==>
      && ValidChain(v)
      && (HasQuorum(w.c.table, GetRound(s, s.round).prepared, v) || PrepareEvidence(s.(value := v), v).Some?)
    ensures s' == BeginCommit(w.c, s.(value := v))
    ensures Inv(w, s') && Keeps(w, s, s')
  {
    var s1 := s.(value := v);
    ValueIsFree(w, s, v);
    s' := BeginCommitOk(w, s1);
  }

  // ---------- DECIDE ----------

  /** Sending the one DECIDE, with the justification it needs. */
  lemma SendDecideOk(w: World, s: Instance, j: Justification)
    requires Core(w, s) && !Decided(s)
    requires s.value != BOTTOM && ValidChain(s.value)
    requires GoodJustification(w, s.supplement, j, 0, DECIDE, s.value)
    ensures var s' := Send(w.c, s.(phase := DECIDE), 0, DECIDE, s.value, Some(j));
      Inv(w, s') && Keeps(w, s, s')
  {
    var b := Broadcast(VoteAt(w.c, s.supplement, 0, DECIDE, s.value), Some(j));
    SendOk(w, s.(phase := DECIDE), b);
    forall v
      ensures !HasQuorum(w.c.table, s.decision, v)
    {
      assert Supporters(s.decision, v) == {};
    }
  }

  lemma BeginDecideOk(w: World, s: Instance, r: nat)
    requires Core(w, s) && !Decided(s)
    requires s.value != BOTTOM && HasQuorum(w.c.table, GetRound(s, r).committed, s.value)
    ensures Inv(w, BeginDecide(w.c, s, r)) && Keeps(w, s, BeginDecide(w.c, s, r))
  {
    var committed := GetRound(s, r).committed;
    GetRoundOk(w, s, r);
    BuildOk(w, s.supplement, committed, r, COMMIT, s.value);
    var id :| id in Supporters(committed, s.value);
    assert GoodVote(w, s.supplement, id, r, COMMIT, s.value);
    SendDecideOk(w, s, BuildJustification(w.c, s.supplement, committed, r, COMMIT, s.value));
  }

  lemma DecisionOk(w: World, s: Instance, v: Chain) returns (d: Justification)
    requires Sound(w) && StoredOk(w, s) && HasQuorum(w.c.table, s.decision, v)
    ensures !FindPanics(w.c, s.decision, v) && d == BuildJustification(w.c, s.supplement, s.decision, 0, DECIDE, v)
    ensures ValidJustification(w, d) && v != BOTTOM && ValidChain(v)
  {
    BuildOk(w, s.supplement, s.decision, 0, DECIDE, v);
    var id :| id in Supporters(s.decision, v);
    assert GoodVote(w, s.supplement, id, 0, DECIDE, v);
    d := BuildJustification(w.c, s.supplement, s.decision, 0, DECIDE, v);
  }

  lemma TerminatesOk(w: World, s: Instance, v: Chain) returns (s': Instance)
    requires Sound(w) && Core(w, s) && s.phase == DECIDE && HasQuorum(w.c.table, s.decision, v)
    ensures s' == TerminatedOn(w.c, s, v) && Inv(w, s') && Keeps(w, s, s')
  {
    var d := DecisionOk(w, s, v);
    s' := s.(phase := TERMINATED, value := v, terminationValue := Some(d));
  }

  lemma TryDecideOk(w: World, s: Instance) returns (s': Instance)
    requires Sound(w) && Core(w, s) && PhaseOk(s) && s.phase == DECIDE
    ensures s' == TryDecide(w.c, s)
    ensures Inv(w, s') && Keeps(w, s, s')
  {
    NoMultipleQuorums(w, s.decision);
    if v :| HasQuorum(w.c.table, s.decision, v) {
      s' := TerminatesOk(w, s, v);
    } else {
      s' := s;
      assert Inv(w, s);
    }
  }

  // ---------- COMMIT ----------

  lemma NextRoundOk(w: World, s: Instance, r: nat, j: Justification) returns (s': Instance)
    requires Core(w, s) && s.phase == COMMIT && r == s.round + 1
    requires GoodJustification(w, s.supplement, j, r, CONVERGE, s.proposal)
    ensures s' == BeginConverge(w.c, s.(round := r), j)
    ensures Inv(w, s') && Keeps(w, s, s')
  {
    BeginConvergeOk(w, s.(round := r), j);
    s' := BeginConverge(w.c, s.(round := r), j);
  }

  /** A justification of COMMIT for bottom stored for the next round justifies any proposal there. */
  lemma BottomJustificationOk(w: World, sd: SupplementalData, r: nat, p: Phase, m: map<Chain, Justification>,
      proposal: Chain, pick: Chain)
    requires p == PREPARE || p == CONVERGE
    requires forall v :: v in m ==> GoodJustification(w, sd, m[v], r, p, v)
    requires HasBottomJustification(m, COMMIT)
    ensures GoodJustification(w, sd, BottomJustification(m, COMMIT, pick), r, CONVERGE, proposal)
  {
    var j := BottomJustification(m, COMMIT, pick);
    var k :| k in m && m[k] == j;
    assert GoodJustification(w, sd, j, r, p, k);
  }

  /** Both kinds of justification stored with the next round are good. */
  lemma NextRoundStored(w: World, s: Instance, r: nat)
    requires StoredOk(w, s)
    ensures forall v :: v in GetRound(s, r).preparedJust ==>
      GoodJustification(w, s.supplement, GetRound(s, r).preparedJust[v], r, PREPARE, v)
    ensures forall v :: v in ConvergeJust(GetRound(s, r)) ==>
      GoodJustification(w, s.supplement, ConvergeJust(GetRound(s, r))[v], r, CONVERGE, v)
  {
    GetRoundOk(w, s, r);
  }

  lemma NextEvidenceOk(w: World, sd: SupplementalData, r: nat, r': nat, previous: Round, current: Round,
      proposal: Chain, pick: Chain)
    returns (j: Justification)
    requires r' == r + 1 && RoundOk(w, sd, r, previous) && RoundOk(w, sd, r', current) && Strict(w, r)
    requires
      || HasQuorum(w.c.table, previous.committed, BOTTOM) || HasBottom(current)
      || proposal in previous.committedJust
    ensures NextEvidence(w.c, sd, r, previous, current, proposal, pick) == Some(j)
    ensures GoodJustification(w, sd, j, r', CONVERGE, proposal)
  {
    if HasQuorum(w.c.table, previous.committed, BOTTOM) {
      BuildOk(w, sd, previous.committed, r, COMMIT, BOTTOM);
      j := BuildJustification(w.c, sd, previous.committed, r, COMMIT, BOTTOM);
    } else if HasBottomJustification(current.preparedJust, COMMIT) {
      BottomJustificationOk(w, sd, r', PREPARE, current.preparedJust, proposal, pick);
      j := BottomJustification(current.preparedJust, COMMIT, pick);
    } else if HasBottomJustification(ConvergeJust(current), COMMIT) {
      BottomJustificationOk(w, sd, r', CONVERGE, ConvergeJust(current), proposal, pick);
      j := BottomJustification(ConvergeJust(current), COMMIT, pick);
    } else {
      j := previous.committedJust[proposal];
    }
  }

  lemma StoredEvidenceOk(w: World, s: Instance, r: nat, r': nat, proposal: Chain, pick: Chain)
    returns (j: Justification)
    requires StoredOk(w, s) && r' == r + 1 && Strict(w, r)
    requires
      || HasQuorum(w.c.table, GetRound(s, r).committed, BOTTOM) || HasBottom(GetRound(s, r'))
      || proposal in GetRound(s, r).committedJust
    ensures NextEvidence(w.c, s.supplement, r, GetRound(s, r), GetRound(s, r'), proposal, pick) == Some(j)
    ensures GoodJustification(w, s.supplement, j, r', CONVERGE, proposal)
  {
    GetRoundOk(w, s, r);
    GetRoundOk(w, s, r');
    j := NextEvidenceOk(w, s.supplement, r, r', GetRound(s, r), GetRound(s, r'), proposal, pick);
  }

  lemma EntersNextRound(c: Config, s: Instance, env: Env, r: nat, r': nat, j: Justification)
    requires r == s.round && r' == r + 1
    requires NextEvidence(c, s.supplement, r, GetRound(s, r), GetRound(s, r'), s.proposal, env.bottomPick) == Some(j)
    ensures BeginNextRound(c, s, env) == BeginConverge(c, s.(round := r'), j)
  {
    EntersWith(c, s, r', j);
  }

  lemma EntersWith(c: Config, s: Instance, r: nat, j: Justification)
    ensures EnteredWith(c, s, r, Some(j)) == BeginConverge(c, s.(round := r), j)
  {
  }

  lemma LeavesRoundOk(w: World, s: Instance, env: Env, r: nat, r': nat) returns (s': Instance)
    requires Core(w, s) && s.phase == COMMIT && r == s.round && r' == r + 1 && Strict(w, r)
    requires
      || HasQuorum(w.c.table, GetRound(s, r).committed, BOTTOM) || HasBottom(GetRound(s, r'))
      || s.proposal in GetRound(s, r).committedJust
    ensures s' == BeginNextRound(w.c, s, env)
    ensures Inv(w, s') && Keeps(w, s, s')
  {
    var j := StoredEvidenceOk(w, s, r, r', s.proposal, env.bottomPick);
    s' := NextRoundOk(w, s, r', j);
    EntersNextRound(w.c, s, env, r, r', j);
  }

  lemma SomeCommitted(table: PowerTable, t: Tally)
    requires table.scaledTotal > 0 && !HasQuorum(table, t, BOTTOM) && ReceivedFromStrongQuorum(table, t)
    ensures exists id :: id in t && t[id] != BOTTOM
  {
    if forall id :: id in t ==> t[id] == BOTTOM {
      UnanimousTally(table, t, BOTTOM);
      assert false;
    }
  }

  /** Without a quorum for bottom some other value was committed, with a justification. */
  lemma SwayValue(w: World, s: Instance, pick: Chain) returns (v: Chain)
    requires Sound(w) && StoredOk(w, s)
    requires !HasQuorum(w.c.table, GetRound(s, s.round).committed, BOTTOM)
    requires ReceivedFromStrongQuorum(w.c.table, GetRound(s, s.round).committed)
    ensures CommittedValue(GetRound(s, s.round).committed, pick) == Some(v)
    ensures v in GetRound(s, s.round).committedJust && CandidateOk(w, s.input, s.quality, v)
  {
    var rd := GetRound(s, s.round);
    GetRoundOk(w, s, s.round);
    SomeCommitted(w.c.table, rd.committed);
    v := CommittedValue(rd.committed, pick).value;
    PrepareJustificationMeansPrepared(w, rd.committedJust[v]);
  }

  /** Swaying leaves a proposal that a stored justification supports. */
  lemma SwayOk(w: World, s: Instance, pick: Chain) returns (s': Instance)
    requires Sound(w) && Core(w, s) && s.phase == COMMIT
    requires !HasQuorum(w.c.table, GetRound(s, s.round).committed, BOTTOM)
    requires ReceivedFromStrongQuorum(w.c.table, GetRound(s, s.round).committed)
    ensures s' == Sway(s, GetRound(s, s.round).committed, pick)
    ensures Core(w, s') && s' == s.(candidates := s'.candidates, proposal := s'.proposal)
    ensures s'.proposal in GetRound(s', s'.round).committedJust
  {
    var v := SwayValue(w, s, pick);
    s' := s.(candidates := s.candidates + {v}, proposal := v);
  }

  lemma DecideNowOk(w: World, s: Instance, r: nat, v: Chain)
    requires Core(w, s) && !Decided(s)
    requires v != BOTTOM && HasQuorum(w.c.table, GetRound(s, r).committed, v)
    ensures var s' := BeginDecide(w.c, s.(value := v), r); Inv(w, s') && Keeps(w, s, s')
  {
    ValueIsFree(w, s, v);
    BeginDecideOk(w, s.(value := v), r);
  }

  lemma CommitDecidesOk(w: World, s: Instance, r: nat, elapsed: bool, env: Env) returns (s': Instance)
    requires Sound(w) && Inv(w, s) && !Decided(s)
    requires exists v :: v != BOTTOM && HasQuorum(w.c.table, GetRound(s, r).committed, v)
    ensures s' == TryCommit(w.c, s, r, elapsed, env)
    ensures Inv(w, s') && Keeps(w, s, s')
  {
    var committed := GetRound(s, r).committed;
    NoMultipleQuorums(w, committed);
    s' := TryCommit(w.c, s, r, elapsed, env);
    var v :| v != BOTTOM && HasQuorum(w.c.table, committed, v) && s' == BeginDecide(w.c, s.(value := v), r);
    DecideNowOk(w, s, r, v);
  }

  lemma BottomNext(s: Instance, r: nat, r': nat)
    requires r' == r + 1
    ensures BottomJustified(s, r) == HasBottom(GetRound(s, r'))
  {
  }

  /** The next round is entered as it is, or with a committed value. */
  lemma CommitLeavesOk(w: World, s: Instance, r: nat, r': nat, sways: bool, env: Env) returns (s': Instance)
    requires Sound(w) && Core(w, s) && s.phase == COMMIT && s.round == r && r' == r + 1 && Strict(w, r)
    requires !sways ==> HasQuorum(w.c.table, GetRound(s, r).committed, BOTTOM) || HasBottom(GetRound(s, r'))
    requires sways ==>
      && !HasQuorum(w.c.table, GetRound(s, r).committed, BOTTOM)
      && ReceivedFromStrongQuorum(w.c.table, GetRound(s, r).committed)
    ensures s' == BeginNextRound(w.c, if sways then Sway(s, GetRound(s, r).committed, env.commitPick) else s, env)
    ensures Inv(w, s') && Keeps(w, s, s')
  {
    if sways {
      var s1 := SwayOk(w, s, env.commitPick);
      s' := LeavesRoundOk(w, s1, env, r, r');
    } else {
      s' := LeavesRoundOk(w, s, env, r, r');
    }
  }

  lemma CommitWaitsOk(w: World, s: Instance, r: nat, r': nat, elapsed: bool, env: Env) returns (s': Instance)
    requires Sound(w) && Inv(w, s) && !Decided(s) && r' == r + 1 && Strict(w, s.round)
    requires forall v :: v != BOTTOM ==> !HasQuorum(w.c.table, GetRound(s, r).committed, v)
    ensures s' == TryCommit(w.c, s, r, elapsed, env)
    ensures Inv(w, s') && Keeps(w, s, s')
  {
    var committed := GetRound(s, r).committed;
    s' := s;
    if s.round == r && s.phase == COMMIT {
      BottomNext(s, r, r');
      if HasQuorum(w.c.table, committed, BOTTOM) || HasBottom(GetRound(s, r')) {
        s' := CommitLeavesOk(w, s, r, r', false, env);
      } else if elapsed && ReceivedFromStrongQuorum(w.c.table, committed) {
        s' := CommitLeavesOk(w, s, r, r', true, env);
      }
    }
  }

  lemma TryCommitOk(w: World, s: Instance, r: nat, elapsed: bool, env: Env) returns (s': Instance)
    requires Sound(w) && Inv(w, s) && !Decided(s) && Strict(w, s.round)
    ensures s' == TryCommit(w.c, s, r, elapsed, env)
    ensures Inv(w, s') && Keeps(w, s, s')
  {
    if v :| v != BOTTOM && HasQuorum(w.c.table, GetRound(s, r).committed, v) {
      s' := CommitDecidesOk(w, s, r, elapsed, env);
    } else {
      s' := CommitWaitsOk(w, s, r, r + 1, elapsed, env);
    }
  }

  // ---------- receiving ----------

  lemma KeepsTransitive(w: World, s1: Instance, s2: Instance, s3: Instance)
    requires Keeps(w, s1, s2) && Keeps(w, s2, s3)
    ensures Keeps(w, s1, s3)
  {
  }

  lemma TryCurrentPhaseOk(w: World, s: Instance, env: Env) returns (s': Instance)
    requires Sound(w) && Core(w, s) && PhaseOk(s) && s.phase != INITIAL && (s.phase != DECIDE ==> Undecided(w, s))
    requires Strict(w, s.round)
    ensures s' == TryCurrentPhase(w.c, s, env).s
    ensures Inv(w, s') && Keeps(w, s, s')
  {
    match s.phase
    case QUALITY => s' := TryQualityOk(w, s, env.elapsed);
    case CONVERGE => s' := TryConvergeOk(w, s, env);
    case PREPARE => s' := TryPrepareOk(w, s, env.elapsed);
    case COMMIT => s' := TryCommitOk(w, s, s.round, env.elapsed, env);
    case DECIDE => s' := TryDecideOk(w, s);
    case TERMINATED => s' := s;
  }

  /** A message of this instance, with this participant's supplemental data. */
  ghost predicate ForInstance(w: World, s: Instance, m: GMessage) {
    && ValidMessage(w, m)
    && m.vote.instance == w.c.instance && m.vote.supplement == s.supplement
  }

  lemma StoreRoundOk(w: World, s: Instance, r: nat, rd: Round)
    requires Inv(w, s) && RoundOk(w, s.supplement, r, rd)
    ensures Inv(w, SetRound(s, r, rd)) && Keeps(w, s, SetRound(s, r, rd))
  {
    var s' := SetRound(s, r, rd);
    SetRoundOk(w, s, r, rd);
    assert LogOk(w, s') && CommonOk(w, s') && TerminationOk(w, s');
    if s.phase == PREPARE {
      var k :| Prepares(s, k);
      assert Prepares(s', k);
    }
  }

  lemma PreparedVoteOk(w: World, sd: SupplementalData, r: nat, rd: Round, id: ActorID, v: Chain)
    requires RoundOk(w, sd, r, rd)
    requires GoodVote(w, sd, id, r, PREPARE, v)
    requires r > 0 ==> Backed(w, VoteAt(w.c, sd, r, PREPARE, v))
    ensures RoundOk(w, sd, r, rd.(prepared := Record(rd.prepared, id, v)))
  {
  }

  lemma PreparedJustificationOk(w: World, sd: SupplementalData, r: nat, rd: Round, v: Chain, j: Justification)
    requires RoundOk(w, sd, r, rd)
    requires GoodJustification(w, sd, j, r, PREPARE, v)
    ensures RoundOk(w, sd, r, rd.(preparedJust := KeepFirst(rd.preparedJust, v, j)))
  {
  }

  lemma RecordPrepareOk(w: World, s: Instance, m: GMessage)
    requires StoredOk(w, s) && ForInstance(w, s, m) && m.vote.phase == PREPARE
    ensures RoundOk(w, s.supplement, m.vote.round, RecordPrepare(GetRound(s, m.vote.round), m))
  {
    var sd, r, v := s.supplement, m.vote.round, m.vote.value;
    var rd := GetRound(s, r);
    GetRoundOk(w, s, r);
    assert m.vote == VoteAt(w.c, sd, r, PREPARE, v);
    PreparedVoteOk(w, sd, r, rd, m.sender, v);
    if m.justification.Some? {
      PreparedJustificationOk(w, sd, r, rd.(prepared := Record(rd.prepared, m.sender, v)), v, m.justification.value);
    }
  }

  lemma CommittedVoteOk(w: World, sd: SupplementalData, r: nat, rd: Round, id: ActorID, v: Chain)
    requires RoundOk(w, sd, r, rd)
    requires GoodVote(w, sd, id, r, COMMIT, v) && (v != BOTTOM ==> v in rd.committedJust)
    ensures RoundOk(w, sd, r, rd.(committed := Record(rd.committed, id, v)))
  {
  }

  lemma CommittedJustificationOk(w: World, sd: SupplementalData, r: nat, rd: Round, v: Chain, j: Justification)
    requires RoundOk(w, sd, r, rd)
    requires CommitSupport(w, sd, j, r, v)
    ensures RoundOk(w, sd, r, rd.(committedJust := KeepFirst(rd.committedJust, v, j)))
  {
  }

  lemma RecordCommitOk(w: World, s: Instance, m: GMessage)
    requires StoredOk(w, s) && ForInstance(w, s, m) && m.vote.phase == COMMIT
    ensures RoundOk(w, s.supplement, m.vote.round, RecordCommit(GetRound(s, m.vote.round), m))
  {
    var sd, r, v := s.supplement, m.vote.round, m.vote.value;
    var rd := GetRound(s, r);
    GetRoundOk(w, s, r);
    assert m.vote == VoteAt(w.c, sd, r, COMMIT, v);
    if v != BOTTOM {
      CommittedJustificationOk(w, sd, r, rd, v, m.justification.value);
      rd := rd.(committedJust := KeepFirst(rd.committedJust, v, m.justification.value));
    }
    CommittedVoteOk(w, sd, r, rd, m.sender, v);
  }

  lemma RecordConvergeOk(w: World, s: Instance, m: GMessage)
    requires StoredOk(w, s) && ForInstance(w, s, m) && m.vote.phase == CONVERGE && m.justification.Some?
    ensures RoundOk(w, s.supplement, m.vote.round, RecordConverge(GetRound(s, m.vote.round), m, m.justification.value))
  {
    GetRoundOk(w, s, m.vote.round);
    assert m.vote == VoteAt(w.c, s.supplement, m.vote.round, CONVERGE, m.vote.value);
    ConvergeRecorded(w, s.supplement, m.vote.round, GetRound(s, m.vote.round), m, m.justification.value);
  }

  lemma ConvergeRecorded(w: World, sd: SupplementalData, r: nat, rd: Round, m: GMessage, j: Justification)
    requires RoundOk(w, sd, r, rd) && m.vote.value != BOTTOM && ValidChain(m.vote.value)
    requires GoodJustification(w, sd, j, r, CONVERGE, m.vote.value)
    ensures RoundOk(w, sd, r, RecordConverge(rd, m, j))
  {
    ProposalRecorded(w, sd, r, rd, m, j);
  }

  /** The new value is recorded with its justification; the others keep theirs. */
  lemma RecordedFor(rd: Round, m: GMessage, j: Justification, v: Chain)
    requires v in RecordConverge(rd, m, j).converged
    ensures var j' := RecordConverge(rd, m, j).converged[v].justification;
      (v in rd.converged && j' == rd.converged[v].justification) || (v == m.vote.value && j' == j)
  {
  }

  lemma ProposalRecorded(w: World, sd: SupplementalData, r: nat, rd: Round, m: GMessage, j: Justification)
    requires ConvergedOk(w, sd, r, rd.converged) && m.vote.value != BOTTOM && ValidChain(m.vote.value)
    requires GoodJustification(w, sd, j, r, CONVERGE, m.vote.value)
    ensures ConvergedOk(w, sd, r, RecordConverge(rd, m, j).converged)
  {
    forall v | v in RecordConverge(rd, m, j).converged
      ensures v != BOTTOM && ValidChain(v)
      ensures GoodJustification(w, sd, RecordConverge(rd, m, j).converged[v].justification, r, CONVERGE, v)
    {
      RecordedFor(rd, m, j, v);
    }
  }

  lemma QualityKeeps(w: World, s: Instance, m: GMessage)
    ensures Keeps(w, s, s.(quality := Record(s.quality, m.sender, m.vote.value)))
  {
    forall v
      ensures HasPrefixQuorum(w.c.table, s.quality, v) ==>
        HasPrefixQuorum(w.c.table, Record(s.quality, m.sender, m.vote.value), v)
    {
      QuorumsPersist(w.c.table, s.quality, m.sender, m.vote.value, v);
    }
  }

  lemma QualityStored(w: World, s: Instance, m: GMessage)
    requires StoredOk(w, s) && ForInstance(w, s, m) && m.vote.phase == QUALITY
    ensures StoredOk(w, s.(quality := Record(s.quality, m.sender, m.vote.value)))
  {
    assert m.vote == VoteAt(w.c, s.supplement, 0, QUALITY, m.vote.value);
  }

  lemma RecordQualityOk(w: World, s: Instance, m: GMessage) returns (s': Instance)
    requires Inv(w, s) && ForInstance(w, s, m) && m.vote.phase == QUALITY && s.phase != INITIAL
    ensures s' == s.(quality := Record(s.quality, m.sender, m.vote.value)) && Inv(w, s') && Keeps(w, s, s')
  {
    s' := s.(quality := Record(s.quality, m.sender, m.vote.value));
    QualityKeeps(w, s, m);
    LogStable(w, s, s');
    QualityStored(w, s, m);
    if s.phase == PREPARE {
      var k :| Prepares(s, k);
      assert Prepares(s', k);
    }
  }

  lemma ReceiveQualityOk(w: World, s: Instance, m: GMessage, env: Env) returns (s': Instance)
    requires Sound(w) && Inv(w, s) && ForInstance(w, s, m) && m.vote.phase == QUALITY && s.phase != INITIAL
    requires Strict(w, s.round)
    ensures s' == ReceiveQuality(w.c, s, m, env).s
    ensures Inv(w, s') && Keeps(w, s, s')
  {
    var s1 := RecordQualityOk(w, s, m);
    if s.phase != QUALITY {
      UpdateCandidatesOk(w, s1);
      s' := UpdateCandidatesFromQuality(w.c, s1);
    } else {
      s' := TryCurrentPhaseOk(w, s1, env);
    }
    KeepsTransitive(w, s, s1, s');
  }

  /** A round is replaced by a good one, then the current phase is tried. */
  lemma StoreAndTryOk(w: World, s: Instance, r: nat, rd: Round, env: Env) returns (s': Instance)
    requires Sound(w) && Inv(w, s) && RoundOk(w, s.supplement, r, rd) && s.phase != INITIAL && Strict(w, s.round)
    ensures s' == TryCurrentPhase(w.c, SetRound(s, r, rd), env).s
    ensures Inv(w, s') && Keeps(w, s, s')
  {
    var s1 := SetRound(s, r, rd);
    StoreRoundOk(w, s, r, rd);
    s' := TryCurrentPhaseOk(w, s1, env);
    KeepsTransitive(w, s, s1, s');
  }

  lemma ReceiveConvergeOk(w: World, s: Instance, m: GMessage, env: Env) returns (s': Instance)
    requires Sound(w) && Inv(w, s) && ForInstance(w, s, m) && m.vote.phase == CONVERGE && s.phase != INITIAL
    requires Strict(w, s.round)
    ensures s' == ReceiveConverge(w.c, s, m, env).s
    ensures Inv(w, s') && Keeps(w, s, s')
  {
    RecordConvergeOk(w, s, m);
    s' := StoreAndTryOk(w, s, m.vote.round, RecordConverge(GetRound(s, m.vote.round), m, m.justification.value), env);
  }

  lemma ReceivePrepareOk(w: World, s: Instance, m: GMessage, env: Env) returns (s': Instance)
    requires Sound(w) && Inv(w, s) && ForInstance(w, s, m) && m.vote.phase == PREPARE && s.phase != INITIAL
    requires Strict(w, s.round)
    ensures s' == ReceivePrepare(w.c, s, m, env).s
    ensures Inv(w, s') && Keeps(w, s, s')
  {
    RecordPrepareOk(w, s, m);
    s' := StoreAndTryOk(w, s, m.vote.round, RecordPrepare(GetRound(s, m.vote.round), m), env);
  }

  lemma TryCommitThenPhaseOk(w: World, s: Instance, m: GMessage, env: Env) returns (s': Instance)
    requires Sound(w) && Inv(w, s) && !Decided(s) && s.phase != INITIAL && Strict(w, s.round)
    ensures s' == TryCommitThenPhase(w.c, s, m, env).s
    ensures Inv(w, s') && Keeps(w, s, s')
  {
    var s1 := TryCommitOk(w, s, m.vote.round, env.elapsedAtCommit, env);
    s' := s1;
    if s1.phase == PREPARE && s1.round == m.vote.round && m.vote.value != BOTTOM {
      s' := TryCurrentPhaseOk(w, s1, env);
      KeepsTransitive(w, s, s1, s');
    }
  }

  lemma ReceiveCommitOk(w: World, s: Instance, m: GMessage, env: Env) returns (s': Instance)
    requires Sound(w) && Inv(w, s) && ForInstance(w, s, m) && m.vote.phase == COMMIT
    requires s.phase != INITIAL && s.phase != TERMINATED && Strict(w, s.round)
    ensures s' == ReceiveCommit(w.c, s, m, env).s
    ensures Inv(w, s') && Keeps(w, s, s')
  {
    RecordCommitOk(w, s, m);
    var r, rd := m.vote.round, RecordCommit(GetRound(s, m.vote.round), m);
    s' := CommitReceivedOk(w, s, r, rd, m, env);
  }

  lemma CommitReceivedOk(w: World, s: Instance, r: nat, rd: Round, m: GMessage, env: Env) returns (s': Instance)
    requires Sound(w) && Inv(w, s) && RoundOk(w, s.supplement, r, rd)
    requires s.phase != INITIAL && s.phase != TERMINATED && Strict(w, s.round)
    ensures s' == (if s.phase == DECIDE then TryCurrentPhase(w.c, SetRound(s, r, rd), env)
                   else TryCommitThenPhase(w.c, SetRound(s, r, rd), m, env)).s
    ensures Inv(w, s') && Keeps(w, s, s')
  {
    if s.phase == DECIDE {
      s' := StoreAndTryOk(w, s, r, rd, env);
    } else {
      s' := StoreAndCommitOk(w, s, r, rd, m, env);
    }
  }

  lemma StoreAndCommitOk(w: World, s: Instance, r: nat, rd: Round, m: GMessage, env: Env) returns (s': Instance)
    requires Sound(w) && Inv(w, s) && RoundOk(w, s.supplement, r, rd)
    requires s.phase != INITIAL && !Decided(s) && Strict(w, s.round)
    ensures s' == TryCommitThenPhase(w.c, SetRound(s, r, rd), m, env).s
    ensures Inv(w, s') && Keeps(w, s, s')
  {
    var s1 := SetRound(s, r, rd);
    StoreRoundOk(w, s, r, rd);
    s' := TryCommitThenPhaseOk(w, s1, m, env);
    KeepsTransitive(w, s, s1, s');
  }

  function DecideVoteRecorded(c: Config, s: Instance, m: GMessage): Instance {
    var s1 := s.(decision := Record(s.decision, m.sender, m.vote.value));
    if s.phase != DECIDE then SkipToDecide(c, s1, m.vote.value, m.justification) else s1
  }

  lemma SkipToDecideOk(w: World, s: Instance, v: Chain, j: Justification)
    requires Core(w, s) && !Decided(s)
    requires v != BOTTOM && ValidChain(v)
    requires GoodJustification(w, s.supplement, j, 0, DECIDE, v)
    ensures Inv(w, SkipToDecide(w.c, s, v, Some(j))) && Keeps(w, s, SkipToDecide(w.c, s, v, Some(j)))
  {
    var s0 := s.(proposal := v, value := v);
    assert StoredOk(w, s0) && LogOk(w, s0) && CommonOk(w, s0) && TerminationOk(w, s0);
    SendDecideOk(w, s0, j);
  }

  /** Recording a DECIDE vote; for the time being there may be a quorum of them. */
  lemma DecisionVoteOk(w: World, s: Instance, id: ActorID, v: Chain)
    requires Core(w, s) && PhaseOk(s) && s.phase == DECIDE
    requires v != BOTTOM && GoodVote(w, s.supplement, id, 0, DECIDE, v)
    ensures var s' := s.(decision := Record(s.decision, id, v));
      Core(w, s') && PhaseOk(s') && Keeps(w, s, s')
  {
    var s' := s.(decision := Record(s.decision, id, v));
    assert StoredOk(w, s');
    assert LogOk(w, s') && CommonOk(w, s') && TerminationOk(w, s');
  }

  lemma RecordDecideOk(w: World, s: Instance, m: GMessage) returns (s2: Instance)
    requires Inv(w, s) && ForInstance(w, s, m) && m.vote.phase == DECIDE
    requires s.phase != INITIAL && s.phase != TERMINATED
    ensures s2 == DecideVoteRecorded(w.c, s, m)
    ensures Core(w, s2) && PhaseOk(s2) && s2.phase == DECIDE && Keeps(w, s, s2)
  {
    var v := m.vote.value;
    assert m.vote == VoteAt(w.c, s.supplement, 0, DECIDE, v);
    if s.phase == DECIDE {
      DecisionVoteOk(w, s, m.sender, v);
      s2 := s.(decision := Record(s.decision, m.sender, v));
    } else {
      SkipToDecideOk(w, s, v, m.justification.value);
      var s1 := SkipToDecide(w.c, s, v, m.justification);
      DecisionVoteOk(w, s1, m.sender, v);
      s2 := s1.(decision := Record(s1.decision, m.sender, v));
      KeepsTransitive(w, s, s1, s2);
    }
  }

  lemma ReceiveDecideOk(w: World, s: Instance, m: GMessage, env: Env) returns (s': Instance)
    requires Sound(w) && Inv(w, s) && ForInstance(w, s, m) && m.vote.phase == DECIDE
    requires s.phase != INITIAL && s.phase != TERMINATED && Strict(w, s.round)
    ensures s' == ReceiveDecide(w.c, s, m, env).s
    ensures Inv(w, s') && Keeps(w, s, s')
  {
    var s1 := RecordDecideOk(w, s, m);
    s' := TryCurrentPhaseOk(w, s1, env);
    KeepsTransitive(w, s, s1, s');
  }

  /** A message that is taken up, by its phase. */
  lemma TakeUpOk(w: World, s: Instance, m: GMessage, env: Env) returns (s': Instance)
    requires Sound(w) && Inv(w, s) && ForInstance(w, s, m) && s.phase != INITIAL && s.phase != TERMINATED
    requires Strict(w, s.round)
    ensures s' == TakenUp(w.c, s, m, env).s
    ensures Inv(w, s') && Keeps(w, s, s')
  {
    match m.vote.phase
    case QUALITY => s' := ReceiveQualityOk(w, s, m, env);
    case CONVERGE => s' := ReceiveConvergeOk(w, s, m, env);
    case PREPARE => s' := ReceivePrepareOk(w, s, m, env);
    case COMMIT => s' := ReceiveCommitOk(w, s, m, env);
    case DECIDE => s' := ReceiveDecideOk(w, s, m, env);
  }

  ghost function TakenUp(c: Config, s: Instance, m: GMessage, env: Env): Outcome {
    match m.vote.phase
    case QUALITY => ReceiveQuality(c, s, m, env)
    case CONVERGE => ReceiveConverge(c, s, m, env)
    case PREPARE => ReceivePrepare(c, s, m, env)
    case COMMIT => ReceiveCommit(c, s, m, env)
    case DECIDE => ReceiveDecide(c, s, m, env)
    case _ => Outcome(s, false, InternalError)
  }

  lemma DroppedOrTakenUp(c: Config, s: Instance, m: GMessage, env: Env)
    ensures ReceiveOne(c, s, m, env).s == s
         || (&& ReceiveOne(c, s, m, env) == TakenUp(c, s, m, env)
             && m.vote.instance == c.instance && m.vote.supplement == s.supplement && s.phase != TERMINATED)
  {
  }

  lemma ReceiveOneOk(w: World, s: Instance, m: GMessage, env: Env) returns (s': Instance)
    requires Sound(w) && Inv(w, s) && ValidMessage(w, m) && s.phase != INITIAL && Strict(w, s.round)
    ensures s' == ReceiveOne(w.c, s, m, env).s
    ensures Inv(w, s') && Keeps(w, s, s')
  {
    DroppedOrTakenUp(w.c, s, m, env);
    s' := s;
    if ReceiveOne(w.c, s, m, env).s != s {
      s' := TakeUpOk(w, s, m, env);
    }
  }
}
