/** An instance as an object that is updated in place, and its refinement of the step functions
    (gpbft/gpbft.go). */
module GpbftInstances {
  import opened Basics
  import opened Chains
  import opened Tallies
  import opened Messages
  import opened Sorting
  import opened Instances
  import opened QuorumStates
  import opened RoundStates
  import Progress

  class GpbftInstance {
    const c: Config
    const input: Chain
    const supplement: SupplementalData
    var round: nat
    var phase: Phase
    var proposal: Chain
    var value: Chain
    var candidates: set<Chain>
    const quality: QuorumState
    const rounds: RoundTable
    const decision: QuorumState
    var terminationValue: Option<Justification>
    var log: seq<Broadcast>
    var panicked: bool

    ghost predicate TalliesOk()
      reads quality, decision
    {
      && quality.Valid() && quality.eachPrefix && quality.table == c.table
      && TallyOk(decision, c.table) && quality != decision
    }

    ghost predicate FieldsOk()
      reads this
    {
      input != BOTTOM && proposal != BOTTOM && (phase == CONVERGE ==> round > 0)
    }

    ghost predicate RoundsOk()
      reads rounds, rounds.parts
    {
      && rounds.Valid() && rounds.table == c.table
      && quality !in rounds.parts && decision !in rounds.parts && this !in rounds.parts
    }

    ghost predicate Valid()
      reads this, quality, decision, rounds, rounds.parts
    {
      FieldsOk() && TalliesOk() && RoundsOk()
    }

    /** The state of the instance as a value, when the object is in order. */
    ghost function State(): Option<Instance>
      reads this, quality, decision, rounds, rounds.parts
    {
      if Valid() then
        Some(Instance(input, supplement, round, phase, proposal, value, candidates, quality.votes, rounds.views,
                      decision.votes, terminationValue, log, panicked))
      else None
    }

    constructor (c: Config, input: Chain, supplement: SupplementalData)
      requires input != BOTTOM
      ensures State() == Some(New(input, supplement)) && this.c == c
      ensures fresh(quality) && fresh(decision) && fresh(rounds) && fresh(rounds.parts)
    {
      this.c, this.input, this.supplement := c, input, supplement;
      round, phase, proposal, value, candidates := 0, INITIAL, input, BOTTOM, {BaseChain(input)};
      terminationValue, log, panicked := None, [], false;
      quality := new QuorumState(c.table, true, 0);
      decision := new QuorumState(c.table, false, 0);
      rounds := new RoundTable(c.table);
    }

    /** Only the rounds have changed. */
    twostate lemma OnlyRounds()
      requires old(State()).Some? && unchanged(this, quality, decision)
      requires rounds.Valid() && fresh(rounds.parts - old(rounds.parts))
      ensures State() == Some(old(State()).value.(rounds := rounds.views))
    {
      assert TalliesOk() && FieldsOk() && RoundsOk();
    }

    method Send(r: nat, p: Phase, v: Chain, j: Option<Justification>)
      requires State().Some?
      modifies `log
      ensures State() == Some(Instances.Send(c, old(State()).value, r, p, v, j))
    {
      log := log + [Broadcast(VoteAt(c, supplement, r, p, v), j)];
    }

    method Start() returns (ok: bool)
      requires State().Some?
      modifies `phase, `log
      ensures ok == (old(phase) == INITIAL)
      ensures State() == if ok then Some(BeginQuality(c, old(State()).value)) else old(State())
    {
      if phase != INITIAL {
        return false;
      }
      phase := QUALITY;
      Send(round, QUALITY, proposal, None);
      ok := true;
    }

    method BeginPrepare(j: Option<Justification>)
      requires State().Some?
      modifies `phase, `log
      ensures State() == Some(Instances.BeginPrepare(c, old(State()).value, j))
    {
      phase := PREPARE;
      Send(round, PREPARE, value, j);
    }

    /** Adds the longest quorum prefix of the input, or a shorter one, to the candidates. */
    method AddQualityPrefix() returns (p: Chain)
      requires State().Some?
      modifies `candidates
      ensures p != BOTTOM && p == LongestQuorumPrefix(c.table, quality.votes, input, |input|)
      ensures State() ==
        Some(old(State()).value.(candidates := Instances.AddCandidatePrefixes(old(candidates), p, |p|)))
    {
      p := QualityPrefix();
      candidates := ExpandCandidates(candidates, p);
    }

    method QualityPrefix() returns (p: Chain)
      requires State().Some?
      ensures p != BOTTOM && p == LongestQuorumPrefix(c.table, quality.votes, input, |input|)
    {
      p := quality.FindStrongQuorumValueForLongestPrefixOf(input);
      LongestQuorumPrefixMeaning(c.table, quality.votes, input, |input|);
    }

    method TryQuality(elapsed: bool)
      requires State().Some?
      modifies this
      ensures State() == Some(Instances.TryQuality(c, old(State()).value, elapsed))
    {
      var foundQuorum := quality.HasStrongQuorumFor(proposal);
      if foundQuorum || elapsed {
        var p := AddQualityPrefix();
        proposal, value := p, p;
        BeginPrepare(None);
      }
    }

    method UpdateCandidatesFromQuality()
      requires State().Some?
      modifies `candidates
      ensures State() == Some(Instances.UpdateCandidatesFromQuality(c, old(State()).value))
    {
      var p := AddQualityPrefix();
    }

    // ---------- PREPARE and COMMIT ----------

    method TwoRounds(r: nat, r': nat) returns (a: RoundState, b: RoundState)
      requires State().Some?
      modifies rounds`states, rounds`parts
      ensures State() == old(State()) && fresh(rounds.parts - old(rounds.parts))
      ensures View(a, c.table) == Some(Instances.GetRound(State().value, r))
      ensures View(b, c.table) == Some(Instances.GetRound(State().value, r'))
    {
      a, b := rounds.GetPair(r, r');
      OnlyRounds();
    }

    method CurrentAndNext() returns (now: RoundState, next: RoundState)
      requires State().Some?
      modifies rounds`states, rounds`parts
      ensures State() == old(State()) && fresh(rounds.parts - old(rounds.parts))
      ensures View(now, c.table) == Some(Now(old(State()).value))
      ensures View(next, c.table) == Some(Next(old(State()).value))
    {
      var r, r' := round, round + 1;
      AtNext(State().value, r, r');
      now, next := TwoRounds(r, r');
    }

    method GetCommitEvidence() returns (j: Option<Justification>)
      requires State().Some? && value != BOTTOM
      modifies rounds`states, rounds`parts
      ensures State() == old(State()) && fresh(rounds.parts - old(rounds.parts))
      ensures j == EvidenceToCommit(c, old(State()).value)
    {
      var now, next := CurrentAndNext();
      j := FindCommitEvidence(c, supplement, round, now, next, value);
    }

    method SendCommit(j: Option<Justification>)
      requires State().Some?
      modifies this
      ensures State() == Some(CommitWith(c, old(State()).value, j))
    {
      phase := COMMIT;
      if value != BOTTOM && j.None? {
        panicked := true;
        return;
      }
      Send(round, COMMIT, value, j);
    }

    method BeginCommit()
      requires State().Some?
      modifies this, rounds`states, rounds`parts
      ensures State() == Some(Instances.BeginCommit(c, old(State()).value))
      ensures fresh(rounds.parts - old(rounds.parts))
    {
      var j := None;
      if value != BOTTOM {
        j := GetCommitEvidence();
      }
      SendCommit(j);
    }

    method EndPrepare(elapsed: bool) returns (supported: bool, over: bool)
      requires State().Some?
      modifies rounds`states, rounds`parts
      ensures State() == old(State()) && fresh(rounds.parts - old(rounds.parts))
      ensures supported == PrepareSupported(c, old(State()).value)
      ensures over == PrepareOver(c, old(State()).value, elapsed)
    {
      var now, next := CurrentAndNext();
      supported, over := EndsPrepare(now, next, c.table, proposal, elapsed);
    }

    method TryPrepare(elapsed: bool)
      requires State().Some?
      modifies this, rounds`states, rounds`parts
      ensures State() == Some(Instances.TryPrepare(c, old(State()).value, elapsed))
      ensures fresh(rounds.parts - old(rounds.parts))
    {
      var supported, over := EndPrepare(elapsed);
      if supported || over {
        value := if supported then proposal else BOTTOM;
        BeginCommit();
      }
    }

    // ---------- CONVERGE ----------

    method SetSelfValue(j: Justification)
      requires State().Some?
      modifies rounds, rounds.parts
      ensures State() == Some(WithOwnValue(old(State()).value, j)) && fresh(rounds.parts - old(rounds.parts))
    {
      rounds.ReceiveSelf(round, proposal, j);
      OnlyRounds();
    }

    method BeginConverge(j: Justification)
      requires State().Some?
      modifies this, rounds, rounds.parts
      ensures State() == Some(Instances.BeginConverge(c, old(State()).value, j))
      ensures fresh(rounds.parts - old(rounds.parts))
    {
      if j.vote.round + 1 != round {
        panicked := true;
        return;
      }
      phase := CONVERGE;
      SetSelfValue(j);
      Send(round, CONVERGE, proposal, Some(j));
    }

    method FindWinner() returns (winner: Option<Chain>, j: Option<Justification>)
      requires State().Some? && round > 0
      modifies rounds`states, rounds`parts
      ensures State() == old(State()) && fresh(rounds.parts - old(rounds.parts))
      ensures IsBestOf(Now(old(State()).value).converged, AdmissibleValues(c, old(State()).value), winner)
      ensures winner.Some? ==>
        winner.value != BOTTOM && j == Some(Now(old(State()).value).converged[winner.value].justification)
    {
      var r, r' := round, round - 1;
      AtPrevious(c, State().value, r, r');
      winner, j := rounds.BestAt(candidates, r, r');
      OnlyRounds();
    }

    method Adopt(v: Chain, j: Option<Justification>)
      requires State().Some? && v != BOTTOM
      modifies this
      ensures State() == Some(AdoptedValue(c, old(State()).value, v, j))
    {
      candidates := candidates + {v};
      proposal, value := v, v;
      BeginPrepare(j);
    }

    method TryConverge(elapsed: bool, ghost env0: Env) returns (error: Error, ghost env: Env)
      requires State().Some? && phase == CONVERGE && env0.elapsed == elapsed
      modifies this, rounds`states, rounds`parts
      ensures State().Some? && Outcome(State().value, true, error) == Instances.TryConverge(c, old(State()).value, env)
      ensures fresh(rounds.parts - old(rounds.parts)) && env == env0.(convergePick := env.convergePick)
    {
      env := env0;
      if !elapsed {
        return NoError, env;
      }
      var winner, j := FindWinner();
      ConvergesWith(c, State().value, env0, winner);
      if winner.None? {
        return InternalError, env;
      }
      env := env.(convergePick := winner.value);
      Adopt(winner.value, j);
      error := NoError;
    }

    // ---------- DECIDE ----------

    method GetDecideEvidence(r: nat) returns (j: Option<Justification>)
      requires State().Some?
      modifies rounds`states, rounds`parts
      ensures State() == old(State()) && fresh(rounds.parts - old(rounds.parts))
      ensures j == EvidenceToDecide(c, old(State()).value, r)
    {
      j := rounds.DecideEvidenceAt(c, supplement, r, value);
      OnlyRounds();
    }

    method BeginDecide(r: nat)
      requires State().Some?
      modifies this, rounds`states, rounds`parts
      ensures State() == Some(Instances.BeginDecide(c, old(State()).value, r))
      ensures fresh(rounds.parts - old(rounds.parts))
    {
      var j := GetDecideEvidence(r);
      SendDecide(j);
    }

    method SendDecide(j: Option<Justification>)
      requires State().Some?
      modifies this
      ensures State() == Some(DecideWith(c, old(State()).value, j))
    {
      phase := DECIDE;
      if j.None? {
        panicked := true;
        return;
      }
      Send(0, DECIDE, value, j);
    }

    method SkipToDecide(v: Chain, j: Option<Justification>)
      requires State().Some? && v != BOTTOM
      modifies this
      ensures State() == Some(Instances.SkipToDecide(c, old(State()).value, v, j))
    {
      phase, proposal, value := DECIDE, v, v;
      Send(0, DECIDE, v, j);
    }

    method TryDecide()
      requires State().Some?
      modifies this
      ensures State() == Some(Instances.TryDecide(c, old(State()).value))
    {
      var found, v, many := decision.FindStrongQuorumValue();
      DecidesWith(c, State().value, many, found, v);
      if many {
        StopAndPanic();
      } else if found {
        Terminate(v);
      }
    }

    method Terminate(v: Chain)
      requires State().Some? && HasQuorum(c.table, decision.votes, v)
      modifies this
      ensures State() == Some(TerminatedOn(c, old(State()).value, v))
    {
      var j := BuildDecision(v);
      if j.None? {
        StopAndPanic();
      } else {
        EndWith(v, j.value);
      }
    }

    method StopAndPanic()
      requires State().Some?
      modifies `panicked
      ensures State() == Some(Panic(old(State()).value))
    {
      panicked := true;
    }

    method EndWith(v: Chain, j: Justification)
      requires State().Some?
      modifies this
      ensures State() == Some(old(State()).value.(phase := TERMINATED, value := v, terminationValue := Some(j)))
    {
      phase, value, terminationValue := TERMINATED, v, Some(j);
    }

    method BuildDecision(v: Chain) returns (j: Option<Justification>)
      requires State().Some? && HasQuorum(c.table, decision.votes, v)
      ensures j == Built(c, State().value.supplement, State().value.decision, 0, DECIDE, v)
    {
      var found;
      found, j := BuildFrom(c, supplement, decision, 0, DECIDE, v);
    }

    // ---------- leaving a round ----------

    method GetNextJustification() returns (j: Option<Justification>, ghost pick: Chain)
      requires State().Some?
      modifies rounds`states, rounds`parts
      ensures State() == old(State()) && fresh(rounds.parts - old(rounds.parts))
      ensures LeavesWith(c, old(State()).value, j, pick)
    {
      var now, next := CurrentAndNext();
      j, pick := FindNextJustification(c, supplement, round, now, next, proposal);
    }

    method EnterRound(r: nat, j: Option<Justification>)
      requires State().Some? && r > 0
      modifies this, rounds, rounds.parts
      ensures State() == Some(EnteredWith(c, old(State()).value, r, j)) && fresh(rounds.parts - old(rounds.parts))
    {
      round := r;
      if j.None? {
        panicked := true;
        return;
      }
      BeginConverge(j.value);
    }

    method BeginNextRound(ghost env0: Env) returns (ghost env: Env)
      requires State().Some?
      modifies this, rounds, rounds.parts
      ensures State() == Some(Instances.BeginNextRound(c, old(State()).value, env))
      ensures fresh(rounds.parts - old(rounds.parts))
      ensures env == env0.(bottomPick := env.bottomPick)
    {
      var j, pick := GetNextJustification();
      env := env0.(bottomPick := pick);
      var r := round + 1;
      NextRoundWith(c, State().value, env, r, j);
      EnterRound(r, j);
    }

    method FindSway(r: nat) returns (v: Option<Chain>)
      requires State().Some?
      modifies rounds`states, rounds`parts
      ensures State() == old(State()) && fresh(rounds.parts - old(rounds.parts))
      ensures v ==
        CommittedValue(Instances.GetRound(old(State()).value, r).committed, if v.Some? then v.value else BOTTOM)
    {
      v := rounds.CommittedAt(r);
      OnlyRounds();
    }

    method SwayTo(v: Option<Chain>)
      requires State().Some? && v != Some(BOTTOM)
      modifies `candidates, `proposal
      ensures State() == Some(SwayedTo(old(State()).value, v))
    {
      if v.Some? {
        candidates := candidates + {v.value};
        proposal := v.value;
      }
    }

    method SwayAndLeave(r: nat, ghost env0: Env) returns (ghost env: Env)
      requires State().Some?
      modifies this, rounds, rounds.parts
      ensures var s := old(State()).value;
        State() == Some(Instances.BeginNextRound(c, Sway(s, Instances.GetRound(s, r).committed, env.commitPick), env))
      ensures fresh(rounds.parts - old(rounds.parts))
      ensures env == env0.(commitPick := env.commitPick, bottomPick := env.bottomPick)
    {
      var v := FindSway(r);
      SwayTo(v);
      env := BeginNextRound(env0.(commitPick := if v.Some? then v.value else BOTTOM));
    }

    method CountRound(r: nat) returns (n: CommitCount)
      requires State().Some?
      modifies rounds`states, rounds`parts
      ensures State() == old(State()) && fresh(rounds.parts - old(rounds.parts))
      ensures n in CountsOf(c, old(State()).value, r)
    {
      n := rounds.CountCommitsAt(r, r + 1);
      OnlyRounds();
    }

    method ActOnCount(r: nat, elapsed: bool, n: CommitCount, ghost env0: Env) returns (ghost env: Env)
      requires State().Some?
      modifies this, rounds, rounds.parts
      ensures State() == Some(ByCount(c, old(State()).value, r, elapsed, env, n))
      ensures fresh(rounds.parts - old(rounds.parts))
      ensures env == env0.(commitPick := env.commitPick, bottomPick := env.bottomPick)
    {
      env := env0;
      if n.many {
        StopAndPanic();
      } else if n.found && n.value != BOTTOM {
        value := n.value;
        BeginDecide(r);
      } else {
        env := LeaveOnCount(r, elapsed, n, env0);
      }
    }

    /** COMMIT without a quorum for a value: the next round, or waiting. */
    method LeaveOnCount(r: nat, elapsed: bool, n: CommitCount, ghost env0: Env) returns (ghost env: Env)
      requires State().Some?
      modifies this, rounds, rounds.parts
      ensures State() == Some(LeftByCount(c, old(State()).value, r, elapsed, env, n))
      ensures fresh(rounds.parts - old(rounds.parts))
      ensures env == env0.(commitPick := env.commitPick, bottomPick := env.bottomPick)
    {
      env := env0;
      if round != r || phase != COMMIT {
        return;
      } else if n.found || n.bottomJustified {
        env := BeginNextRound(env);
      } else if elapsed && n.heard {
        env := SwayAndLeave(r, env);
      }
    }

    method TryCommit(r: nat, elapsed: bool, ghost env0: Env) returns (ghost env: Env)
      requires State().Some?
      modifies this, rounds, rounds.parts
      ensures State() == Some(Instances.TryCommit(c, old(State()).value, r, elapsed, env))
      ensures fresh(rounds.parts - old(rounds.parts))
      ensures env == env0.(commitPick := env.commitPick, bottomPick := env.bottomPick)
    {
      ghost var s := State().value;
      var n := CountRound(r);
      env := ActOnCount(r, elapsed, n, env0);
      CommitsByCount(c, s, r, elapsed, env, n);
    }

    // ---------- receiving ----------

    method TryCurrentPhase(elapsed: bool, ghost env0: Env) returns (error: Error, ghost env: Env)
      requires State().Some? && env0.elapsed == elapsed
      modifies this, rounds, rounds.parts
      ensures State().Some?
      ensures Outcome(State().value, true, error) == Instances.TryCurrentPhase(c, old(State()).value, env)
      ensures fresh(rounds.parts - old(rounds.parts)) && SameClock(env0, env) && (old(phase) == PREPARE ==> env == env0)
    {
      error, env := NoError, env0;
      match phase
      case QUALITY => TryQuality(elapsed);
      case CONVERGE => error, env := TryConverge(elapsed, env0);
      case PREPARE => TryPrepare(elapsed);
      case COMMIT => env := TryCommit(round, elapsed, env0);
      case DECIDE => TryDecide();
      case TERMINATED =>
      case INITIAL => error := InternalError;
    }

    method RecordQuality(m: GMessage)
      requires State().Some?
      modifies quality
      ensures var s := old(State()).value;
        State() == Some(s.(quality := Record(s.quality, m.sender, m.vote.value)))
    {
      quality.ReceiveEachPrefix(m.sender, m.vote.value);
      assert FieldsOk() == old(FieldsOk()) && RoundsOk() == old(RoundsOk());
      assert TalliesOk();
    }

    method RecordDecision(m: GMessage)
      requires State().Some?
      modifies decision
      ensures var s := old(State()).value;
        State() == Some(s.(decision := Record(s.decision, m.sender, m.vote.value)))
    {
      decision.Receive(m.sender, m.vote.value, m.signature);
      assert FieldsOk() == old(FieldsOk()) && RoundsOk() == old(RoundsOk());
      assert TalliesOk();
    }

    method RecordPrepareOf(m: GMessage)
      requires State().Some?
      modifies rounds, rounds.parts
      ensures State() == Some(Prepared(old(State()).value, m)) && fresh(rounds.parts - old(rounds.parts))
    {
      rounds.ReceivePrepare(m);
      OnlyRounds();
    }

    method RecordCommitOf(m: GMessage)
      requires State().Some?
      modifies rounds, rounds.parts
      ensures State() == Some(Committed(old(State()).value, m)) && fresh(rounds.parts - old(rounds.parts))
    {
      rounds.ReceiveCommit(m);
      OnlyRounds();
    }

    method RecordConvergeOf(m: GMessage) returns (ok: bool)
      requires State().Some?
      modifies rounds, rounds.parts
      ensures ok == (m.vote.value != BOTTOM && m.justification.Some?) && fresh(rounds.parts - old(rounds.parts))
      ensures State() == if ok then Some(Converged(old(State()).value, m, m.justification.value)) else old(State())
    {
      ok := rounds.ReceiveConverge(m);
      OnlyRounds();
    }

    method ReceiveQuality(m: GMessage, elapsed: bool, ghost env0: Env) returns (error: Error, ghost env: Env)
      requires State().Some? && env0.elapsed == elapsed
      modifies this, quality, rounds, rounds.parts
      ensures State().Some?
      ensures Outcome(State().value, true, error) == Instances.ReceiveQuality(c, old(State()).value, m, env)
      ensures fresh(rounds.parts - old(rounds.parts)) && SameClock(env0, env)
    {
      RecordQuality(m);
      if phase != QUALITY {
        UpdateCandidatesFromQuality();
        return NoError, env0;
      }
      error, env := TryCurrentPhase(elapsed, env0);
    }

    method ReceiveConverge(m: GMessage, elapsed: bool, ghost env0: Env) returns (ok: bool, error: Error, ghost env: Env)
      requires State().Some? && env0.elapsed == elapsed
      modifies this, rounds, rounds.parts
      ensures State().Some?
      ensures Outcome(State().value, ok, error) == Instances.ReceiveConverge(c, old(State()).value, m, env)
      ensures fresh(rounds.parts - old(rounds.parts)) && SameClock(env0, env)
    {
      ok := RecordConvergeOf(m);
      if !ok {
        return false, InternalError, env0;
      }
      error, env := TryCurrentPhase(elapsed, env0);
    }

    method ReceivePrepare(m: GMessage, elapsed: bool, ghost env0: Env) returns (error: Error, ghost env: Env)
      requires State().Some? && env0.elapsed == elapsed
      modifies this, rounds, rounds.parts
      ensures State().Some?
      ensures Outcome(State().value, true, error) == Instances.ReceivePrepare(c, old(State()).value, m, env)
      ensures fresh(rounds.parts - old(rounds.parts)) && SameClock(env0, env)
    {
      RecordPrepareOf(m);
      error, env := TryCurrentPhase(elapsed, env0);
    }

    method TryCommitThenPhase(m: GMessage, elapsedAtCommit: bool, elapsed: bool, ghost env0: Env)
      returns (error: Error, ghost env: Env)
      requires State().Some? && env0.elapsed == elapsed && env0.elapsedAtCommit == elapsedAtCommit
      modifies this, rounds, rounds.parts
      ensures State().Some?
      ensures Outcome(State().value, true, error) == Instances.TryCommitThenPhase(c, old(State()).value, m, env)
      ensures fresh(rounds.parts - old(rounds.parts)) && SameClock(env0, env)
    {
      env := TryCommit(m.vote.round, elapsedAtCommit, env0);
      if !(phase == PREPARE && round == m.vote.round && m.vote.value != BOTTOM) {
        return NoError, env;
      }
      error, env := TryCurrentPhase(elapsed, env);
    }

    method ReceiveCommit(m: GMessage, elapsedAtCommit: bool, elapsed: bool, ghost env0: Env)
      returns (error: Error, ghost env: Env)
      requires State().Some? && env0.elapsed == elapsed && env0.elapsedAtCommit == elapsedAtCommit
      modifies this, rounds, rounds.parts
      ensures State().Some?
      ensures Outcome(State().value, true, error) == Instances.ReceiveCommit(c, old(State()).value, m, env)
      ensures fresh(rounds.parts - old(rounds.parts)) && SameClock(env0, env)
    {
      ghost var s := State().value;
      RecordCommitOf(m);
      error, env := AfterCommit(m, elapsedAtCommit, elapsed, env0);
      CommitSplits(c, s, m, env);
    }

    method AfterCommit(m: GMessage, elapsedAtCommit: bool, elapsed: bool, ghost env0: Env)
      returns (error: Error, ghost env: Env)
      requires State().Some? && env0.elapsed == elapsed && env0.elapsedAtCommit == elapsedAtCommit
      modifies this, rounds, rounds.parts
      ensures State().Some? && Outcome(State().value, true, error) == OnCommit(c, old(State()).value, m, env)
      ensures fresh(rounds.parts - old(rounds.parts)) && SameClock(env0, env)
    {
      if m.vote.value != BOTTOM && m.justification.None? {
        panicked := true;
        return NoError, env0;
      }
      if phase == DECIDE {
        error, env := TryCurrentPhase(elapsed, env0);
      } else {
        error, env := TryCommitThenPhase(m, elapsedAtCommit, elapsed, env0);
      }
    }

    method ReceiveDecide(m: GMessage, elapsed: bool, ghost env0: Env) returns (error: Error, ghost env: Env)
      requires State().Some? && env0.elapsed == elapsed && m.vote.value != BOTTOM
      modifies this, decision, rounds, rounds.parts
      ensures State().Some?
      ensures Outcome(State().value, true, error) == Instances.ReceiveDecide(c, old(State()).value, m, env)
      ensures fresh(rounds.parts - old(rounds.parts)) && SameClock(env0, env)
    {
      RecordDecision(m);
      if phase != DECIDE {
        SkipToDecide(m.vote.value, m.justification);
      }
      error, env := TryCurrentPhase(elapsed, env0);
    }

    /** Receives one validated message. */
    method ReceiveOne(m: GMessage, elapsedAtCommit: bool, elapsed: bool, ghost env0: Env)
      returns (changed: bool, error: Error, ghost env: Env)
      requires State().Some? && env0.elapsed == elapsed && env0.elapsedAtCommit == elapsedAtCommit
      requires m.vote.phase == DECIDE ==> m.vote.value != BOTTOM
      modifies this, quality, decision, rounds, rounds.parts
      ensures State().Some?
      ensures Outcome(State().value, changed, error) == Instances.ReceiveOne(c, old(State()).value, m, env)
      ensures fresh(rounds.parts - old(rounds.parts)) && SameClock(env0, env)
    {
      changed, env := false, env0;
      if m.vote.instance != c.instance {
        return false, InternalError, env;
      }
      if m.vote.supplement != supplement || (m.vote.value != BOTTOM && !HasBase(m.vote.value, input[0])) {
        return false, ValidationError, env;
      }
      if phase == TERMINATED {
        return false, NoError, env;
      }
      if m.vote.round < round && (m.vote.phase == CONVERGE || m.vote.phase == PREPARE) {
        return false, NoError, env;
      }
      if m.vote.round > round + c.lookahead && Spammable(m) {
        return false, NoError, env;
      }
      changed := true;
      match m.vote.phase
      case QUALITY => error, env := ReceiveQuality(m, elapsed, env0);
      case CONVERGE => changed, error, env := ReceiveConverge(m, elapsed, env0);
      case PREPARE => error, env := ReceivePrepare(m, elapsed, env0);
      case COMMIT => error, env := ReceiveCommit(m, elapsedAtCommit, elapsed, env0);
      case DECIDE => error, env := ReceiveDecide(m, elapsed, env0);
      case INITIAL => changed, error := false, InternalError;
      case TERMINATED => changed, error := false, InternalError;
    }

    // ---------- skipping rounds ----------

    method SkipToRound(r: nat, v: Chain, j: Justification)
      requires State().Some? && v != BOTTOM && r > 0
      modifies this, rounds, rounds.parts
      ensures State() == Some(SkippedTo(c, old(State()).value, r, v, j)) && fresh(rounds.parts - old(rounds.parts))
    {
      if j.vote.phase == PREPARE {
        candidates := candidates + {v};
        proposal := v;
      }
      EnterRound(r, Some(j));
    }

    method ShouldSkipToRound(r: nat) returns (choice: SkipChoice)
      requires State().Some?
      modifies rounds`states, rounds`parts
      ensures State() == old(State()) && fresh(rounds.parts - old(rounds.parts))
      ensures ChoiceAt(c, old(State()).value, r, choice)
    {
      choice := rounds.ShouldSkipTo(round, phase, r);
      OnlyRounds();
    }

    /** The last of the received rounds that should be skipped to; `k` is 0 when there is none. */
    method FindSkipTarget(received: seq<nat>) returns (k: nat, choice: SkipChoice)
      requires State().Some?
      modifies rounds`states, rounds`parts
      ensures State() == old(State()) && fresh(rounds.parts - old(rounds.parts))
      ensures k <= |received| && choice.Skip? == (k > 0) && NoneFrom(c, old(State()).value, received, k)
      ensures k > 0 ==> ChoiceAt(c, old(State()).value, received[k - 1], choice)
    {
      choice := Stay;
      ghost var s := State().value;
      k := |received|;
      while k > 0
        invariant k <= |received| && State() == Some(s) && choice.Stay? && NoneFrom(c, s, received, k)
        invariant fresh(rounds.parts - old(rounds.parts))
      {
        choice := ShouldSkipToRound(received[k - 1]);
        assert fresh(rounds.parts - old(rounds.parts));
        if choice.Skip? {
          return;
        }
        NoneDown(c, s, received, k);
        k := k - 1;
      }
    }

    method PlanSkip(received: seq<nat>) returns (r: nat, choice: SkipChoice, ghost pick: Chain)
      requires State().Some?
      modifies rounds`states, rounds`parts
      ensures State() == old(State()) && fresh(rounds.parts - old(rounds.parts))
      ensures choice.Skip? ==> r > 0 && choice.value != BOTTOM
      ensures Instances.PostReceive(c, old(State()).value, received, pick) ==
        SkippedBy(c, old(State()).value, r, choice)
    {
      ghost var s := State().value;
      var k;
      k, choice := FindSkipTarget(received);
      pick := SkipsBy(c, s, received, k, choice);
      r := if k > 0 then received[k - 1] else 0;
    }

    /** Skips to the last of the received rounds, given in increasing order, that calls for it. */
    method PostReceive(received: seq<nat>) returns (ghost pick: Chain)
      requires State().Some?
      modifies this, rounds, rounds.parts
      ensures State() == Some(Instances.PostReceive(c, old(State()).value, received, pick))
      ensures fresh(rounds.parts - old(rounds.parts))
    {
      var r, choice;
      r, choice, pick := PlanSkip(received);
      if choice.Skip? {
        SkipToRound(r, choice.value, choice.justification);
      }
    }

    // ---------- the public interface ----------

    method ReceiveAlarm(elapsed: bool, ghost env0: Env) returns (error: Error, ghost env: Env)
      requires State().Some? && env0.elapsed == elapsed
      modifies this, rounds, rounds.parts
      ensures State().Some? && Outcome(State().value, true, error) == Instances.ReceiveAlarm(c, old(State()).value, env)
      ensures fresh(rounds.parts - old(rounds.parts))
    {
      error, env := TryCurrentPhase(elapsed, env0);
    }

    /** Receives a validated message, as the step function says for some order of map iterations. */
    method Receive(m: GMessage, elapsedAtCommit: bool, elapsed: bool)
      returns (changed: bool, error: Error, ghost env: Env)
      requires State().Some? && (m.vote.phase == DECIDE ==> m.vote.value != BOTTOM)
      modifies this, quality, decision, rounds, rounds.parts
      ensures State().Some?
      ensures Outcome(State().value, changed, error) == Instances.Receive(c, old(State()).value, m, env)
      ensures fresh(rounds.parts - old(rounds.parts)) && env.elapsedAtCommit == elapsedAtCommit
      ensures env.elapsed == elapsed
    {
      env := Env(elapsedAtCommit, elapsed, BOTTOM, BOTTOM, BOTTOM, BOTTOM);
      if phase == TERMINATED {
        return false, InternalError, env;
      }
      ghost var s := State().value;
      changed, error, env := ReceiveOne(m, elapsedAtCommit, elapsed, env);
      if error == NoError && changed {
        var pick := PostReceive([m.vote.round]);
        OtherPick(c, s, m, env, pick);
        env := env.(skipPick := pick);
      }
    }

    /** Receives the messages of a batch in turn, with what the clock says at each. */
    method ReceiveEach(ms: seq<GMessage>, clock: seq<(bool, bool)>)
      returns (error: Error, received: set<nat>, ghost envs: seq<Env>)
      requires State().Some? && |clock| == |ms|
      requires forall m :: m in ms && m.vote.phase == DECIDE ==> m.vote.value != BOTTOM
      modifies this, quality, decision, rounds, rounds.parts
      ensures State().Some? && fresh(rounds.parts - old(rounds.parts))
      ensures |envs| == |ms| && error != ValidationError
      ensures EachOutcome(c, old(State()).value, ms, envs) == (State().value, error, received)
    {
      received, envs := {}, [];
      ghost var s := State().value;
      for i := 0 to |ms|
        invariant State().Some? && fresh(rounds.parts - old(rounds.parts)) && |envs| == i
        invariant ReceivedSoFar(c, s, ms, envs, State().value, received)
      {
        error, received, envs := ReceiveNext(ms, i, clock[i], received, s, envs);
        if error == InternalError {
          return;
        }
      }
      assert ms[..|ms|] == ms;
      error := NoError;
    }

    /** The next message of a batch; a validation error drops it, an internal one ends the batch. */
    method ReceiveNext(ms: seq<GMessage>, i: nat, now: (bool, bool), received: set<nat>, ghost s: Instance,
        ghost envs: seq<Env>)
      returns (error: Error, received': set<nat>, ghost envs': seq<Env>)
      requires State().Some? && i < |ms| && |envs| == i && ReceivedSoFar(c, s, ms, envs, State().value, received)
      requires ms[i].vote.phase == DECIDE ==> ms[i].vote.value != BOTTOM
      modifies this, quality, decision, rounds, rounds.parts
      ensures State().Some? && fresh(rounds.parts - old(rounds.parts))
      ensures error != InternalError ==> |envs'| == i + 1 && ReceivedSoFar(c, s, ms, envs', State().value, received')
      ensures error == InternalError ==>
        |envs'| == |ms| && EachOutcome(c, s, ms, envs') == (State().value, InternalError, received')
    {
      ghost var before := State().value;
      var changed;
      ghost var env;
      changed, error, env := ReceiveOne(ms[i], now.0, now.1, Env(now.0, now.1, BOTTOM, BOTTOM, BOTTOM, BOTTOM));
      ghost var o := Outcome(State().value, changed, error);
      if error == InternalError {
        envs' := StoppedAt(c, s, ms, envs, before, received, env, o);
        received' := received;
      } else {
        ReceivedNext(c, s, ms, envs, before, received, env, o);
        envs' := envs + [env];
        received' := if changed then received + {ms[i].vote.round} else received;
      }
    }

    /** Receives a batch of validated messages. */
    method ReceiveMany(ms: seq<GMessage>, clock: seq<(bool, bool)>)
      returns (error: Error, ghost envs: seq<Env>, ghost pick: Chain)
      requires State().Some? && |clock| == |ms|
      requires forall m :: m in ms && m.vote.phase == DECIDE ==> m.vote.value != BOTTOM
      modifies this, quality, decision, rounds, rounds.parts
      ensures State().Some? && fresh(rounds.parts - old(rounds.parts)) && |envs| == |ms|
      ensures ManyOutcome(c, old(State()).value, ms, envs, pick) == (State().value, error)
    {
      pick := BOTTOM;
      if phase == TERMINATED {
        envs := seq(|ms|, i => Env(false, false, BOTTOM, BOTTOM, BOTTOM, BOTTOM));
        return InternalError, envs, pick;
      }
      var received;
      error, received, envs := ReceiveEach(ms, clock);
      if error == NoError {
        var sorted := SortRounds(received);
        Progress.ReceivedBound(c, old(State()).value, ms, envs, {});
        SortedRounds(received, RoundBound(ms), sorted);
        pick := PostReceive(sorted);
      }
    }
  }

  // ---------- the steps, cut where the methods are ----------

  ghost function Now(s: Instance): Round {
    GetRound(s, s.round)
  }

  ghost function Next(s: Instance): Round {
    GetRound(s, s.round + 1)
  }

  lemma AtNext(s: Instance, r: nat, r': nat)
    requires r == s.round && r' == r + 1
    ensures Now(s) == GetRound(s, r) && Next(s) == GetRound(s, r')
  {
  }

  ghost function WithOwnValue(s: Instance, j: Justification): Instance {
    SetRound(s, s.round, WithSelfValue(Now(s), s.proposal, j))
  }

  lemma AtPrevious(c: Config, s: Instance, r: nat, r': nat)
    requires r == s.round && r' + 1 == r
    ensures Now(s) == GetRound(s, r)
    ensures AdmissibleValues(c, s) == AdmissibleIn(c.table, s.candidates, Now(s), GetRound(s, r'))
  {
  }

  ghost function ConvergedOn(c: Config, s: Instance, v: Chain): Outcome
    requires v in Now(s).converged
  {
    Outcome(AdoptedValue(c, s, v, Some(Now(s).converged[v].justification)), true, NoError)
  }

  lemma ConvergesWith(c: Config, s: Instance, env: Env, winner: Option<Chain>)
    requires env.elapsed && IsBestOf(Now(s).converged, AdmissibleValues(c, s), winner)
    ensures winner.None? ==> TryConverge(c, s, env) == Outcome(s, true, InternalError)
    ensures winner.Some? ==> TryConverge(c, s, env.(convergePick := winner.value)) == ConvergedOn(c, s, winner.value)
  {
  }

  lemma DecidesWith(c: Config, s: Instance, many: bool, found: bool, v: Chain)
    requires many <==> MultipleQuorums(c, s.decision)
    requires !many ==> (found <==> exists x :: HasQuorum(c.table, s.decision, x))
    requires !many && found ==> HasQuorum(c.table, s.decision, v)
    ensures TryDecide(c, s) == if many then Panic(s) else if found then TerminatedOn(c, s, v) else s
  {
  }

  ghost predicate LeavesWith(c: Config, s: Instance, j: Option<Justification>, pick: Chain) {
    j == NextEvidence(c, s.supplement, s.round, Now(s), Next(s), s.proposal, pick)
  }

  lemma NextRoundWith(c: Config, s: Instance, env: Env, r: nat, j: Option<Justification>)
    requires LeavesWith(c, s, j, env.bottomPick) && r == s.round + 1
    ensures BeginNextRound(c, s, env) == EnteredWith(c, s, r, j)
  {
  }

  ghost function CountsOf(c: Config, s: Instance, r: nat): iset<CommitCount> {
    Counts(c.table, GetRound(s, r), GetRound(s, r + 1))
  }

  ghost function ByCount(c: Config, s: Instance, r: nat, elapsed: bool, env: Env, n: CommitCount): Instance {
    if n.many then Panic(s)
    else if n.found && n.value != BOTTOM then BeginDecide(c, s.(value := n.value), r)
    else LeftByCount(c, s, r, elapsed, env, n)
  }

  ghost function LeftByCount(c: Config, s: Instance, r: nat, elapsed: bool, env: Env, n: CommitCount): Instance {
    if s.round != r || s.phase != COMMIT then s
    else if n.found || n.bottomJustified then BeginNextRound(c, s, env)
    else if elapsed && n.heard then BeginNextRound(c, Sway(s, GetRound(s, r).committed, env.commitPick), env)
    else s
  }

  lemma CommitsByCount(c: Config, s: Instance, r: nat, elapsed: bool, env: Env, n: CommitCount)
    requires n in CountsOf(c, s, r)
    ensures TryCommit(c, s, r, elapsed, env) == ByCount(c, s, r, elapsed, env, n)
  {
    CountMeans(c, s, r, n);
    var committed := GetRound(s, r).committed;
    if !n.many && n.found && n.value != BOTTOM {
      assert HasQuorum(c.table, committed, n.value);
    }
  }

  lemma CountMeans(c: Config, s: Instance, r: nat, n: CommitCount)
    requires n in CountsOf(c, s, r)
    ensures var committed := GetRound(s, r).committed;
      && n.many == MultipleQuorums(c, committed)
      && (!n.many ==> forall v :: HasQuorum(c.table, committed, v) <==> n.found && v == n.value)
      && n.heard == ReceivedFromStrongQuorum(c.table, committed)
      && n.bottomJustified == BottomJustified(s, r)
  {
    assert IsCount(c.table, GetRound(s, r), GetRound(s, r + 1), n);
  }

  lemma SkipsTo(c: Config, s: Instance, r: nat, v: Chain, j: Justification)
    requires SkipsOn(GetRound(s, r), v, j)
    ensures SkipToRound(c, s, r, v) == SkippedTo(c, s, r, v, j)
  {
  }

  ghost predicate ChoiceAt(c: Config, s: Instance, r: nat, choice: SkipChoice) {
    IsChoice(c.table, s.round, s.phase, r, GetRound(s, r), choice)
  }

  /** None of the received rounds from position `k` on is skipped to. */
  ghost predicate NoneFrom(c: Config, s: Instance, received: seq<nat>, k: nat) {
    forall i :: k <= i < |received| ==> ChoiceAt(c, s, received[i], Stay)
  }

  lemma NoneDown(c: Config, s: Instance, received: seq<nat>, k: nat)
    requires 0 < k <= |received| && NoneFrom(c, s, received, k) && ChoiceAt(c, s, received[k - 1], Stay)
    ensures NoneFrom(c, s, received, k - 1)
  {
  }

  ghost function SkippedBy(c: Config, s: Instance, r: nat, choice: SkipChoice): Instance {
    match choice
    case Stay => s
    case Skip(v, j) => SkippedTo(c, s, r, v, j)
  }

  lemma SkipsBy(c: Config, s: Instance, received: seq<nat>, k: nat, choice: SkipChoice) returns (pick: Chain)
    requires k <= |received| && choice.Skip? == (k > 0) && NoneFrom(c, s, received, k)
    requires k > 0 ==> ChoiceAt(c, s, received[k - 1], choice)
    ensures choice.Stay? ==> PostReceive(c, s, received, pick) == s
    ensures choice.Skip? ==>
      && received[k - 1] > 0 && choice.value != BOTTOM
      && PostReceive(c, s, received, pick) == SkippedTo(c, s, received[k - 1], choice.value, choice.justification)
  {
    pick := if choice.Skip? then choice.value else BOTTOM;
    assert forall i :: k <= i < |received| ==> ChoiceAt(c, s, received[i], Stay) && !ShouldSkip(c, s, received[i]);
    SkipsAt(c, s, received, k, pick);
    if choice.Skip? {
      SkipsTo(c, s, received[k - 1], pick, choice.justification);
    }
  }

  lemma {:induction false} SkipsAt(c: Config, s: Instance, received: seq<nat>, k: nat, pick: Chain)
    requires k <= |received| && forall i :: k <= i < |received| ==> !ShouldSkip(c, s, received[i])
    ensures k == 0 ==> PostReceive(c, s, received, pick) == s
    ensures k > 0 && ShouldSkip(c, s, received[k - 1]) ==>
      PostReceive(c, s, received, pick) == SkipToRound(c, s, received[k - 1], pick)
    decreases |received|
  {
    if k < |received| {
      SkipsAt(c, s, received[..|received| - 1], k, pick);
    }
  }

  /** The choice made when skipping rounds plays no part before that. */
  lemma OtherPick(c: Config, s: Instance, m: GMessage, env: Env, pick: Chain)
    ensures ReceiveOne(c, s, m, env.(skipPick := pick)) == ReceiveOne(c, s, m, env)
  {
    match m.vote.phase
    case COMMIT => OtherPickForCommit(c, s, m, env, pick);
    case DECIDE =>
      var s1 := s.(decision := Record(s.decision, m.sender, m.vote.value));
      OtherPickInPhase(
        c, if s.phase != DECIDE then SkipToDecide(c, s1, m.vote.value, m.justification) else s1, env, pick);
    case _ => OtherPickForVote(c, s, m, env, pick);
  }

  lemma OtherPickForVote(c: Config, s: Instance, m: GMessage, env: Env, pick: Chain)
    ensures ReceiveQuality(c, s, m, env.(skipPick := pick)) == ReceiveQuality(c, s, m, env)
    ensures ReceiveConverge(c, s, m, env.(skipPick := pick)) == ReceiveConverge(c, s, m, env)
    ensures ReceivePrepare(c, s, m, env.(skipPick := pick)) == ReceivePrepare(c, s, m, env)
  {
    forall x
      ensures TryCurrentPhase(c, x, env.(skipPick := pick)) == TryCurrentPhase(c, x, env)
    {
      OtherPickInPhase(c, x, env, pick);
    }
  }

  lemma OtherPickForCommit(c: Config, s: Instance, m: GMessage, env: Env, pick: Chain)
    ensures ReceiveCommit(c, s, m, env.(skipPick := pick)) == ReceiveCommit(c, s, m, env)
  {
    var s1 := SetRound(s, m.vote.round, RecordCommit(GetRound(s, m.vote.round), m));
    OtherPickInPhase(c, s1, env, pick);
    OtherPickInCommit(c, s1, m.vote.round, env.elapsedAtCommit, env, pick);
    OtherPickInPhase(c, TryCommit(c, s1, m.vote.round, env.elapsedAtCommit, env), env, pick);
  }

  lemma OtherPickInCommit(c: Config, s: Instance, r: nat, elapsed: bool, env: Env, pick: Chain)
    ensures TryCommit(c, s, r, elapsed, env.(skipPick := pick)) == TryCommit(c, s, r, elapsed, env)
  {
    OtherPickInNextRound(c, s, env, pick);
    OtherPickInNextRound(c, Sway(s, GetRound(s, r).committed, env.commitPick), env, pick);
  }

  lemma OtherPickInNextRound(c: Config, s: Instance, env: Env, pick: Chain)
    ensures BeginNextRound(c, s, env.(skipPick := pick)) == BeginNextRound(c, s, env)
  {
    assert NextRoundJustification(c, s, env.(skipPick := pick)) == NextRoundJustification(c, s, env);
  }

  lemma OtherPickInPhase(c: Config, s: Instance, env: Env, pick: Chain)
    ensures TryCurrentPhase(c, s, env.(skipPick := pick)) == TryCurrentPhase(c, s, env)
  {
    OtherPickInCommit(c, s, s.round, env.elapsed, env, pick);
  }

  ghost function ManyOutcome(c: Config, s: Instance, ms: seq<GMessage>, envs: seq<Env>, pick: Chain): (Instance, Error)
    requires |ms| == |envs|
  {
    var o := ReceiveMany(c, s, ms, envs, pick);
    (o.s, o.error)
  }

  /** The elements of a set of rounds, sorted. */
  method SortRounds(received: set<nat>) returns (sorted: seq<nat>)
    ensures Distinct(sorted) && Sorted((x: nat, y: nat) => x < y, sorted) && forall r :: r in sorted <==> r in received
  {
    var unordered: seq<nat> := [];
    var todo := received;
    while todo != {}
      invariant todo <= received && Distinct(unordered) && forall r :: r in unordered <==> r in received - todo
      decreases |todo|
    {
      var r :| r in todo;
      todo := todo - {r};
      assert forall k :: 0 <= k < |unordered| ==> unordered[k] in unordered;
      unordered := unordered + [r];
    }
    sorted := Sort((x: nat, y: nat) => x < y, unordered);
    PermutationDistinct(unordered, sorted);
  }

  lemma SortedRounds(received: set<nat>, n: nat, sorted: seq<nat>)
    requires forall r :: r in received ==> r < n
    requires Distinct(sorted) && Sorted((x: nat, y: nat) => x < y, sorted) && forall r :: r in sorted <==> r in received
    ensures sorted == Ascending(received, n)
  {
    Progress.AscendingExactly(received, n);
    SortedUnique((x: nat, y: nat) => x < y, sorted, Ascending(received, n));
  }

  ghost function EachOutcome(c: Config, s: Instance, ms: seq<GMessage>, envs: seq<Env>): (Instance, Error, set<nat>)
    requires |ms| == |envs|
  {
    var (o, received) := ReceiveEach(c, s, ms, envs, {});
    (o.s, o.error, received)
  }

  /** After the first |envs| messages the state is `t` and the rounds are `received`. */
  ghost predicate ReceivedSoFar(c: Config, s: Instance, ms: seq<GMessage>, envs: seq<Env>, t: Instance,
      received: set<nat>)
  {
    |envs| <= |ms| && ReceiveEach(c, s, ms[..|envs|], envs, {}) == (Outcome(t, true, NoError), received)
  }

  /** One more message at the end of a batch. */
  lemma {:induction false} EachSnoc(c: Config, s: Instance, ms: seq<GMessage>, envs: seq<Env>, m: GMessage, env: Env,
      received: set<nat>)
    requires |ms| == |envs| && ReceiveEach(c, s, ms, envs, received).0.error != InternalError
    ensures var (o, all) := ReceiveEach(c, s, ms, envs, received);
      ReceiveEach(c, s, ms + [m], envs + [env], received) == ReceiveEach(c, o.s, [m], [env], all)
    decreases |ms|
  {
    if ms != [] {
      var o := ReceiveOne(c, s, ms[0], envs[0]);
      assert (ms + [m])[1..] == ms[1..] + [m] && (envs + [env])[1..] == envs[1..] + [env];
      EachSnoc(c, o.s, ms[1..], envs[1..], m, env, if o.changed then received + {ms[0].vote.round} else received);
    }
  }

  /** An internal error ends the batch, whatever would have come after. */
  lemma {:induction false} EachStops(c: Config, s: Instance, ms: seq<GMessage>, envs: seq<Env>, ms': seq<GMessage>,
      envs': seq<Env>, received: set<nat>)
    requires |ms| == |envs| && |ms'| == |envs'| && ReceiveEach(c, s, ms, envs, received).0.error == InternalError
    ensures ReceiveEach(c, s, ms + ms', envs + envs', received) == ReceiveEach(c, s, ms, envs, received)
    decreases |ms|
  {
    var o := ReceiveOne(c, s, ms[0], envs[0]);
    assert (ms + ms')[1..] == ms[1..] + ms' && (envs + envs')[1..] == envs[1..] + envs';
    if o.error != InternalError {
      EachStops(c, o.s, ms[1..], envs[1..], ms', envs', if o.changed then received + {ms[0].vote.round} else received);
    }
  }

  lemma OneEach(c: Config, t: Instance, m: GMessage, env: Env, received: set<nat>, o: Outcome)
    requires o == ReceiveOne(c, t, m, env)
    ensures ReceiveEach(c, t, [m], [env], received) ==
      if o.error == InternalError then (o, received)
      else (Outcome(o.s, true, NoError), if o.changed then received + {m.vote.round} else received)
  {
    assert [m][1..] == [] && [env][1..] == [];
  }

  lemma ReceivedNext(c: Config, s: Instance, ms: seq<GMessage>, envs: seq<Env>, t: Instance, received: set<nat>,
      env: Env, o: Outcome)
    requires |envs| < |ms| && ReceivedSoFar(c, s, ms, envs, t, received)
    requires o == ReceiveOne(c, t, ms[|envs|], env) && o.error != InternalError
    ensures ReceivedSoFar(
      c, s, ms, envs + [env], o.s, if o.changed then received + {ms[|envs|].vote.round} else received)
  {
    var n := |envs|;
    var before, m := ms[..n], ms[n];
    assert ms[..|envs + [env]|] == before + [m];
    EachSnoc(c, s, before, envs, m, env, {});
    OneEach(c, t, m, env, received, o);
  }

  lemma StoppedAt(c: Config, s: Instance, ms: seq<GMessage>, envs: seq<Env>, t: Instance, received: set<nat>, env: Env,
      o: Outcome)
    returns (all: seq<Env>)
    requires |envs| < |ms| && ReceivedSoFar(c, s, ms, envs, t, received)
    requires o == ReceiveOne(c, t, ms[|envs|], env) && o.error == InternalError
    ensures |all| == |ms| && EachOutcome(c, s, ms, all) == (o.s, InternalError, received)
  {
    var n := |envs|;
    var before, m, after := ms[..n], ms[n], ms[n + 1..];
    assert ms == before + [m] + after;
    var more := seq(|after|, i => env);
    all := envs + [env] + more;
    StopsIn(c, s, before, envs, m, env, after, more, t, received, o);
  }

  lemma StopsIn(c: Config, s: Instance, before: seq<GMessage>, envs: seq<Env>, m: GMessage, env: Env,
      after: seq<GMessage>, more: seq<Env>, t: Instance, received: set<nat>, o: Outcome)
    requires |before| == |envs| && |after| == |more|
    requires ReceiveEach(c, s, before, envs, {}) == (Outcome(t, true, NoError), received)
    requires o == ReceiveOne(c, t, m, env) && o.error == InternalError
    ensures EachOutcome(c, s, before + [m] + after, envs + [env] + more) == (o.s, InternalError, received)
  {
    EachSnoc(c, s, before, envs, m, env, {});
    OneEach(c, t, m, env, received, o);
    EachStops(c, s, before + [m], envs + [env], after, more, {});
  }

  /** Only the order of map iterations may differ. */
  ghost predicate SameClock(a: Env, b: Env) {
    b == a.(commitPick := b.commitPick, bottomPick := b.bottomPick, convergePick := b.convergePick)
  }

  ghost function Prepared(s: Instance, m: GMessage): Instance {
    SetRound(s, m.vote.round, RecordPrepare(GetRound(s, m.vote.round), m))
  }

  ghost function Committed(s: Instance, m: GMessage): Instance {
    SetRound(s, m.vote.round, RecordCommit(GetRound(s, m.vote.round), m))
  }

  ghost function OnCommit(c: Config, s: Instance, m: GMessage, env: Env): Outcome {
    if m.vote.value != BOTTOM && m.justification.None? then Outcome(Panic(s), true, NoError)
    else if s.phase == DECIDE then TryCurrentPhase(c, s, env)
    else TryCommitThenPhase(c, s, m, env)
  }

  lemma CommitSplits(c: Config, s: Instance, m: GMessage, env: Env)
    ensures ReceiveCommit(c, s, m, env) == OnCommit(c, Committed(s, m), m, env)
  {
  }

  ghost function Converged(s: Instance, m: GMessage, j: Justification): Instance {
    SetRound(s, m.vote.round, RecordConverge(GetRound(s, m.vote.round), m, j))
  }

  /** Adds the longest prefix that is not a candidate yet. */
  method ExpandCandidates(candidates: set<Chain>, v: Chain) returns (r: set<Chain>)
    ensures r == Instances.AddCandidatePrefixes(candidates, v, |v|)
  {
    var l := |v| - 1;
    while l > 0
      invariant l < |v| && (l >= 0 || v == [])
      invariant l >= 0 ==>
        Instances.AddCandidatePrefixes(candidates, v, |v|) == Instances.AddCandidatePrefixes(candidates, v, l + 1)
    {
      var prefix := Prefix(v, l);
      if prefix !in candidates {
        return candidates + {prefix};
      }
      l := l - 1;
    }
    r := candidates;
  }
}
