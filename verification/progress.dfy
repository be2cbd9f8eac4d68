/** Batches, round skipping, termination, and what further votes leave true. */
module Progress {
  import opened Chains
  import opened Tallies
  import opened Messages
  import opened Instances
  import opened Evidence
  import opened Steps
  import ConvergeStates

  /** Unless a quorum of DECIDE votes is waiting, trying the current phase does not terminate. */
  lemma TryingDoesNotTerminate(w: World, s: Instance, env: Env)
    requires Inv(w, s) && s.phase != TERMINATED && Sound(w)
    ensures TryCurrentPhase(w.c, s, env).s.phase != TERMINATED
  {
    if s.phase == DECIDE {
      UndecidedStays(w, s);
    } else {
      OtherPhasesStay(w.c, s, env);
    }
  }

  lemma UndecidedStays(w: World, s: Instance)
    requires Inv(w, s) && s.phase == DECIDE && Sound(w)
    ensures TryDecide(w.c, s).phase != TERMINATED
  {
  }

  lemma OtherPhasesStay(c: Config, s: Instance, env: Env)
    requires s.phase != DECIDE && s.phase != TERMINATED
    ensures TryCurrentPhase(c, s, env).s.phase != TERMINATED
  {
    match s.phase
    case QUALITY => assert TryQuality(c, s, env.elapsed).phase != TERMINATED;
    case CONVERGE => assert TryConverge(c, s, env).s.phase != TERMINATED;
    case PREPARE => PreparePhases(c, s, env.elapsed);
    case _ =>
  }

  lemma PreparePhases(c: Config, s: Instance, elapsed: bool)
    requires s.phase == PREPARE
    ensures TryPrepare(c, s, elapsed).phase == PREPARE || TryPrepare(c, s, elapsed).phase == COMMIT
  {
    assert forall v :: BeginCommit(c, s.(value := v)).phase == COMMIT;
  }

  /** Only a DECIDE message terminates an instance. */
  lemma OnlyDecideTerminates(w: World, s: Instance, m: GMessage, env: Env)
    requires Sound(w) && Inv(w, s) && ValidMessage(w, m) && s.phase != INITIAL && s.phase != TERMINATED
    requires m.vote.phase != DECIDE && Strict(w, s.round)
    ensures ReceiveOne(w.c, s, m, env).s.phase != TERMINATED
  {
    if ForInstance(w, s, m) {
      match m.vote.phase
      case QUALITY => OnlyDecideTerminatesQuality(w, s, m, env);
      case CONVERGE => OnlyDecideTerminatesConverge(w, s, m, env);
      case PREPARE => OnlyDecideTerminatesPrepare(w, s, m, env);
      case COMMIT => OnlyDecideTerminatesCommit(w, s, m, env);
      case _ =>
    }
  }

  lemma OnlyDecideTerminatesQuality(w: World, s: Instance, m: GMessage, env: Env)
    requires Sound(w) && Inv(w, s) && ForInstance(w, s, m) && s.phase != INITIAL && s.phase != TERMINATED
    requires m.vote.phase == QUALITY
    ensures ReceiveQuality(w.c, s, m, env).s.phase != TERMINATED
  {
    var s1 := RecordQualityOk(w, s, m);
    TryingDoesNotTerminate(w, s1, env);
  }

  lemma OnlyDecideTerminatesConverge(w: World, s: Instance, m: GMessage, env: Env)
    requires Sound(w) && Inv(w, s) && ForInstance(w, s, m) && s.phase != INITIAL && s.phase != TERMINATED
    requires m.vote.phase == CONVERGE
    ensures ReceiveConverge(w.c, s, m, env).s.phase != TERMINATED
  {
    RecordConvergeOk(w, s, m);
    var rd := RecordConverge(GetRound(s, m.vote.round), m, m.justification.value);
    StoreRoundOk(w, s, m.vote.round, rd);
    TryingDoesNotTerminate(w, SetRound(s, m.vote.round, rd), env);
  }

  lemma OnlyDecideTerminatesPrepare(w: World, s: Instance, m: GMessage, env: Env)
    requires Sound(w) && Inv(w, s) && ForInstance(w, s, m) && s.phase != INITIAL && s.phase != TERMINATED
    requires m.vote.phase == PREPARE
    ensures ReceivePrepare(w.c, s, m, env).s.phase != TERMINATED
  {
    RecordPrepareOk(w, s, m);
    var rd := RecordPrepare(GetRound(s, m.vote.round), m);
    StoreRoundOk(w, s, m.vote.round, rd);
    TryingDoesNotTerminate(w, SetRound(s, m.vote.round, rd), env);
  }

  lemma CommitThenPhaseDoesNotTerminate(w: World, s: Instance, m: GMessage, env: Env)
    requires Sound(w) && Inv(w, s) && s.phase != INITIAL && !Decided(s) && Strict(w, s.round)
    ensures TryCommitThenPhase(w.c, s, m, env).s.phase != TERMINATED
  {
    var s' := TryCommitOk(w, s, m.vote.round, env.elapsedAtCommit, env);
    TryingDoesNotTerminate(w, s', env);
  }

  lemma OnlyDecideTerminatesCommit(w: World, s: Instance, m: GMessage, env: Env)
    requires Sound(w) && Inv(w, s) && ForInstance(w, s, m) && s.phase != INITIAL && s.phase != TERMINATED
    requires m.vote.phase == COMMIT && Strict(w, s.round)
    ensures ReceiveCommit(w.c, s, m, env).s.phase != TERMINATED
  {
    RecordCommitOk(w, s, m);
    var rd := RecordCommit(GetRound(s, m.vote.round), m);
    StoreRoundOk(w, s, m.vote.round, rd);
    if s.phase == DECIDE {
      TryingDoesNotTerminate(w, SetRound(s, m.vote.round, rd), env);
    } else {
      CommitThenPhaseDoesNotTerminate(w, SetRound(s, m.vote.round, rd), m, env);
    }
  }

  // ---------- skipping ----------

  lemma SkipToRoundOk(w: World, s: Instance, r: nat, pick: Chain) returns (s': Instance)
    requires Sound(w) && Inv(w, s) && !Decided(s) && r > s.round
    ensures s' == SkipToRound(w.c, s, r, pick) && Inv(w, s') && Keeps(w, s, s')
  {
    var rd := GetRound(s, r);
    var best := Best(rd.converged, rd.converged.Keys, pick);
    if best.Some? {
      s' := SkippedToOk(w, s, r, best.value, rd.converged[best.value].justification);
    } else {
      s' := s;
    }
  }

  lemma SkippedToOk(w: World, s: Instance, r: nat, v: Chain, j: Justification) returns (s': Instance)
    requires Sound(w) && Inv(w, s) && !Decided(s) && r > s.round
    requires v in GetRound(s, r).converged && GetRound(s, r).converged[v].justification == j
    ensures s' == SkippedTo(w.c, s, r, v, j) && Inv(w, s') && Keeps(w, s, s')
  {
    GetRoundOk(w, s, r);
    if j.vote.phase == PREPARE {
      PrepareJustificationMeansPrepared(w, j);
      s' := SkipWithOk(w, s, s.(round := r, candidates := s.candidates + {v}, proposal := v), j);
    } else {
      s' := SkipWithOk(w, s, s.(round := r), j);
    }
  }

  lemma SkipWithOk(w: World, s: Instance, s1: Instance, j: Justification) returns (s': Instance)
    requires Inv(w, s) && !Decided(s) && s1.round > s.round
    requires s1 == s.(round := s1.round, candidates := s1.candidates, proposal := s1.proposal)
    requires s1.proposal != BOTTOM && ValidChain(s1.proposal) && s.candidates <= s1.candidates
    requires forall v :: v in s1.candidates ==> CandidateOk(w, s.input, s.quality, v)
    requires GoodJustification(w, s.supplement, j, s1.round, CONVERGE, s1.proposal)
    ensures s' == BeginConverge(w.c, s1, j) && Inv(w, s') && Keeps(w, s, s')
  {
    assert LogOk(w, s1);
    BeginConvergeOk(w, s1, j);
    s' := BeginConverge(w.c, s1, j);
  }

  lemma {:induction false} PostReceiveOk(w: World, s: Instance, received: seq<nat>, pick: Chain)
    requires Sound(w) && Inv(w, s)
    requires s.phase == TERMINATED ==> forall i :: 0 <= i < |received| ==> received[i] <= s.round
    ensures Inv(w, PostReceive(w.c, s, received, pick)) && Keeps(w, s, PostReceive(w.c, s, received, pick))
    decreases |received|
  {
    if received != [] {
      var r := received[|received| - 1];
      if ShouldSkip(w.c, s, r) {
        var s' := SkipToRoundOk(w, s, r, pick);
      } else {
        PostReceiveOk(w, s, received[..|received| - 1], pick);
      }
    }
  }

  /** A skip moves a terminated instance too: it stays as it is just when no received round has
      what a skip takes, which is what the order of a drained queue guarantees. */
  lemma {:induction false} TerminatedUnlessSkipped(c: Config, s: Instance, received: seq<nat>, pick: Chain)
    requires s.phase == TERMINATED
    ensures PostReceive(c, s, received, pick) == s <==>
      forall i :: 0 <= i < |received| ==> !ShouldSkip(c, s, received[i])
    decreases |received|
  {
    if received != [] {
      var n := |received| - 1;
      if ShouldSkip(c, s, received[n]) {
        SkipLeaves(c, s, received[n], pick);
      } else {
        TerminatedUnlessSkipped(c, s, received[..n], pick);
      }
    }
  }

  lemma SkipLeaves(c: Config, s: Instance, r: nat, pick: Chain)
    requires ShouldSkip(c, s, r)
    ensures SkipToRound(c, s, r, pick) != s
  {
    var converged := GetRound(s, r).converged;
    ConvergeStates.BestExists(converged, converged.Keys, pick);
    var v := Best(converged, converged.Keys, pick).value;
    assert SkippedTo(c, s, r, v, converged[v].justification).round == r;
  }

  // ---------- the public interface ----------

  lemma ReceiveOk(w: World, s: Instance, m: GMessage, env: Env) returns (s': Instance)
    requires Sound(w) && Inv(w, s) && ValidMessage(w, m) && s.phase != INITIAL && Strict(w, s.round)
    ensures s' == Receive(w.c, s, m, env).s
    ensures Inv(w, s') && Keeps(w, s, s')
  {
    if s.phase == TERMINATED {
      s' := s;
    } else {
      s' := ReceiveOneOk(w, s, m, env);
      var o := ReceiveOne(w.c, s, m, env);
      if o.error == NoError && o.changed {
        if m.vote.phase != DECIDE {
          OnlyDecideTerminates(w, s, m, env);
        }
        PostReceiveOk(w, s', [m.vote.round], env.skipPick);
        KeepsTransitive(w, s, s', PostReceive(w.c, s', [m.vote.round], env.skipPick));
        s' := PostReceive(w.c, s', [m.vote.round], env.skipPick);
      }
    }
  }

  predicate SortedByRound(ms: seq<GMessage>) {
    forall i, j :: 0 <= i < j < |ms| ==> ms[i].vote.round <= ms[j].vote.round
  }

  ghost predicate AllValid(w: World, ms: seq<GMessage>) {
    forall i :: 0 <= i < |ms| ==> ValidMessage(w, ms[i])
  }

  lemma ConvergeStays(c: Config, s: Instance, env: Env)
    ensures TryConverge(c, s, env).s.round == s.round
  {
  }

  lemma PrepareStays(c: Config, s: Instance, elapsed: bool)
    ensures TryPrepare(c, s, elapsed).round == s.round
  {
    assert forall v :: BeginCommit(c, s.(value := v)).round == s.round;
  }

  lemma DecideStays(c: Config, s: Instance)
    ensures TryDecide(c, s).round == s.round
  {
  }

  lemma PhaseMoves(c: Config, s: Instance, env: Env)
    ensures s.round <= TryCurrentPhase(c, s, env).s.round <= s.round + 1
  {
    match s.phase
    case CONVERGE => ConvergeStays(c, s, env);
    case PREPARE => PrepareStays(c, s, env.elapsed);
    case DECIDE => DecideStays(c, s);
    case _ =>
  }

  lemma CommitThenPhaseMoves(c: Config, s: Instance, m: GMessage, env: Env)
    ensures s.round <= TryCommitThenPhase(c, s, m, env).s.round <= s.round + 1
  {
    var s1 := TryCommit(c, s, m.vote.round, env.elapsedAtCommit, env);
    if s1.phase == PREPARE {
      PrepareStays(c, s1, env.elapsed);
    }
  }

  lemma ReceivedCommitMoves(c: Config, s: Instance, m: GMessage, env: Env)
    ensures s.round <= ReceiveCommit(c, s, m, env).s.round <= s.round + 1
  {
    var s1 := SetRound(s, m.vote.round, RecordCommit(GetRound(s, m.vote.round), m));
    PhaseMoves(c, s1, env);
    CommitThenPhaseMoves(c, s1, m, env);
  }

  lemma ReceivedConvergeMoves(c: Config, s: Instance, m: GMessage, env: Env)
    ensures s.round <= ReceiveConverge(c, s, m, env).s.round <= s.round + 1
  {
    if m.justification.Some? {
      var rd := RecordConverge(GetRound(s, m.vote.round), m, m.justification.value);
      PhaseMoves(c, SetRound(s, m.vote.round, rd), env);
    }
  }

  lemma ReceivedDecideMoves(c: Config, s: Instance, m: GMessage, env: Env)
    ensures s.round <= ReceiveDecide(c, s, m, env).s.round <= s.round + 1
  {
    PhaseMoves(c, DecideVoteRecorded(c, s, m), env);
  }

  lemma TakingUpMoves(c: Config, s: Instance, m: GMessage, env: Env)
    ensures s.round <= TakenUp(c, s, m, env).s.round <= s.round + 1
  {
    match m.vote.phase
    case QUALITY => PhaseMoves(c, s.(quality := Record(s.quality, m.sender, m.vote.value)), env);
    case CONVERGE => ReceivedConvergeMoves(c, s, m, env);
    case PREPARE => PhaseMoves(c, SetRound(s, m.vote.round, RecordPrepare(GetRound(s, m.vote.round), m)), env);
    case COMMIT => ReceivedCommitMoves(c, s, m, env);
    case DECIDE => ReceivedDecideMoves(c, s, m, env);
    case _ =>
  }

  /** A message moves a participant by at most one round. */
  lemma OneRoundAtMost(c: Config, s: Instance, m: GMessage, env: Env)
    ensures s.round <= ReceiveOne(c, s, m, env).s.round <= s.round + 1
  {
    DroppedOrTakenUp(c, s, m, env);
    TakingUpMoves(c, s, m, env);
  }

  /** In a batch ordered by round, termination can only happen while round 0 is delivered. */
  lemma {:induction false} ReceiveEachOk(w: World, s: Instance, ms: seq<GMessage>, envs: seq<Env>, received: set<nat>)
    returns (o: Outcome, all: set<nat>)
    requires Sound(w) && Inv(w, s) && s.phase != INITIAL
    requires |ms| == |envs| && AllValid(w, ms) && SortedByRound(ms) && Room(w, s.round, |ms|)
    requires s.phase == TERMINATED ==> received <= {0}
    requires forall r, k :: r in received && 0 <= k < |ms| ==> r <= ms[k].vote.round
    ensures (o, all) == ReceiveEach(w.c, s, ms, envs, received)
    ensures Inv(w, o.s) && Keeps(w, s, o.s)
    ensures o.s.phase == TERMINATED ==> all <= {0}
    decreases |ms|
  {
    if ms == [] {
      o, all := Outcome(s, true, NoError), received;
    } else {
      all := received;
      o := FirstReceivedOk(w, s, ms[0], envs[0], received);
      StillSorted(ms, received);
      var s1 := o.s;
      if o.error != InternalError {
        var received' := if o.changed then received + {ms[0].vote.round} else received;
        o, all := ReceiveEachOk(w, s1, ms[1..], envs[1..], received');
        KeepsTransitive(w, s, s1, o.s);
      }
    }
  }

  lemma TerminatedIgnores(c: Config, s: Instance, m: GMessage, env: Env)
    requires s.phase == TERMINATED
    ensures ReceiveOne(c, s, m, env).s == s && !ReceiveOne(c, s, m, env).changed
  {
  }

  /** A valid message of a later round than 0 does not terminate. */
  lemma LaterRoundDoesNotTerminate(w: World, s: Instance, m: GMessage, env: Env)
    requires Sound(w) && Inv(w, s) && ValidMessage(w, m) && s.phase != INITIAL && s.phase != TERMINATED
    requires m.vote.round > 0 && Strict(w, s.round)
    ensures ReceiveOne(w.c, s, m, env).s.phase != TERMINATED
  {
    OnlyDecideTerminates(w, s, m, env);
  }

  lemma TerminatedInRoundZero(w: World, s: Instance, m: GMessage, env: Env, received: set<nat>)
    requires Sound(w) && Inv(w, s) && s.phase != INITIAL && ValidMessage(w, m) && Strict(w, s.round)
    requires s.phase == TERMINATED ==> received <= {0}
    requires forall r :: r in received ==> r <= m.vote.round
    ensures var o := ReceiveOne(w.c, s, m, env);
      o.s.phase == TERMINATED ==> (if o.changed then received + {m.vote.round} else received) <= {0}
  {
    if s.phase == TERMINATED {
      TerminatedIgnores(w.c, s, m, env);
    } else if m.vote.round > 0 {
      LaterRoundDoesNotTerminate(w, s, m, env);
    } else {
      assert received + {m.vote.round} <= {0};
    }
  }

  lemma FirstReceivedOk(w: World, s: Instance, m: GMessage, env: Env, received: set<nat>) returns (o: Outcome)
    requires Sound(w) && Inv(w, s) && s.phase != INITIAL && ValidMessage(w, m) && Strict(w, s.round)
    requires s.phase == TERMINATED ==> received <= {0}
    requires forall r :: r in received ==> r <= m.vote.round
    ensures o == ReceiveOne(w.c, s, m, env) && Inv(w, o.s) && Keeps(w, s, o.s) && o.s.phase != INITIAL
    ensures o.s.round <= s.round + 1
    ensures o.s.phase == TERMINATED ==> received <= {0} && (o.changed ==> received + {m.vote.round} <= {0})
  {
    o := ReceiveOne(w.c, s, m, env);
    var s1 := ReceiveOneOk(w, s, m, env);
    TerminatedInRoundZero(w, s, m, env, received);
    OneRoundAtMost(w.c, s, m, env);
  }

  lemma StillSorted(ms: seq<GMessage>, received: set<nat>)
    requires ms != [] && SortedByRound(ms)
    requires forall r, k :: r in received && 0 <= k < |ms| ==> r <= ms[k].vote.round
    ensures SortedByRound(ms[1..])
    ensures forall r, k :: r in received + {ms[0].vote.round} && 0 <= k < |ms[1..]| ==> r <= ms[1..][k].vote.round
  {
    var rest := ms[1..];
    assert forall k :: 0 <= k < |rest| ==> rest[k] == ms[k + 1];
  }

  lemma {:induction false} ReceivedBound(c: Config, s: Instance, ms: seq<GMessage>, envs: seq<Env>, received: set<nat>)
    requires |ms| == |envs|
    ensures forall r :: r in ReceiveEach(c, s, ms, envs, received).1 ==> r in received || r < RoundBound(ms)
    decreases |ms|
  {
    if ms != [] {
      var o := ReceiveOne(c, s, ms[0], envs[0]);
      if o.error != InternalError {
        ReceivedBound(c, o.s, ms[1..], envs[1..], if o.changed then received + {ms[0].vote.round} else received);
      }
    }
  }

  lemma {:induction false} AscendingExactly(rs: set<nat>, n: nat)
    ensures forall r :: r in Ascending(rs, n) <==> r in rs && r < n
    ensures forall i, j :: 0 <= i < j < |Ascending(rs, n)| ==> Ascending(rs, n)[i] < Ascending(rs, n)[j]
  {
    if n > 0 {
      AscendingExactly(rs, n - 1);
      var first := Ascending(rs, n - 1);
      assert forall i :: 0 <= i < |first| ==> first[i] in first;
      assert Ascending(rs, n) == if n - 1 in rs then first + [n - 1] else first;
    }
  }

  lemma ReceiveManyOk(w: World, s: Instance, ms: seq<GMessage>, envs: seq<Env>, pick: Chain) returns (s': Instance)
    requires Sound(w) && Inv(w, s) && s.phase != INITIAL
    requires |ms| == |envs| && AllValid(w, ms) && SortedByRound(ms) && Room(w, s.round, |ms|)
    ensures s' == ReceiveMany(w.c, s, ms, envs, pick).s
    ensures Inv(w, s') && Keeps(w, s, s')
  {
    if s.phase == TERMINATED {
      s' := s;
    } else {
      var o, received := ReceiveEachOk(w, s, ms, envs, {});
      s' := o.s;
      if o.error == NoError {
        var s1 := AscendingPostOk(w, s', received, RoundBound(ms), pick);
        KeepsTransitive(w, s, s', s1);
        s' := s1;
      }
    }
  }

  lemma AscendingPostOk(w: World, s: Instance, rounds: set<nat>, n: nat, pick: Chain) returns (s': Instance)
    requires Sound(w) && Inv(w, s) && (s.phase == TERMINATED ==> rounds <= {0})
    ensures s' == PostReceive(w.c, s, Ascending(rounds, n), pick) && Inv(w, s') && Keeps(w, s, s')
  {
    var received := Ascending(rounds, n);
    AscendingExactly(rounds, n);
    assert forall i :: 0 <= i < |received| ==> received[i] in received;
    PostReceiveOk(w, s, received, pick);
    s' := PostReceive(w.c, s, received, pick);
  }

  // ---------- more votes ----------

  lemma JustificationsPersist(w: World, w': World, j: Justification)
    requires Extends(w, w') && ValidJustification(w, j)
    ensures ValidJustification(w', j)
  {
  }

  lemma BackedPersists(w: World, w': World, v: Payload)
    requires Extends(w, w') && Backed(w, v)
    ensures Backed(w', v)
  {
    var j :| ValidJustification(w, j) && Justifies(j.vote, v);
    JustificationsPersist(w, w', j);
  }

  lemma PreparedPersists(w: World, w': World, sd: SupplementalData, r: nat, prepared: Tally,
      justified: map<Chain, Justification>)
    requires Extends(w, w') && PreparedOk(w, sd, r, prepared, justified)
    ensures PreparedOk(w', sd, r, prepared, justified)
  {
    forall id | id in prepared && r > 0
      ensures Backed(w', VoteAt(w'.c, sd, r, PREPARE, prepared[id]))
    {
      BackedPersists(w, w', VoteAt(w.c, sd, r, PREPARE, prepared[id]));
    }
    forall v | v in justified
      ensures ValidJustification(w', justified[v])
    {
      JustificationsPersist(w, w', justified[v]);
    }
  }

  lemma CommittedPersists(w: World, w': World, sd: SupplementalData, r: nat, committed: Tally,
      justified: map<Chain, Justification>)
    requires Extends(w, w') && CommittedOk(w, sd, r, committed, justified)
    ensures CommittedOk(w', sd, r, committed, justified)
  {
    forall v | v in justified
      ensures ValidJustification(w', justified[v])
    {
      JustificationsPersist(w, w', justified[v]);
    }
  }

  lemma ConvergedPersists(w: World, w': World, sd: SupplementalData, r: nat, converged: map<Chain, ConvergeValue>)
    requires Extends(w, w') && ConvergedOk(w, sd, r, converged)
    ensures ConvergedOk(w', sd, r, converged)
  {
    forall v | v in converged
      ensures ValidJustification(w', converged[v].justification)
    {
      JustificationsPersist(w, w', converged[v].justification);
    }
  }

  lemma RoundPersists(w: World, w': World, sd: SupplementalData, r: nat, rd: Round)
    requires Extends(w, w') && RoundOk(w, sd, r, rd)
    ensures RoundOk(w', sd, r, rd)
  {
    PreparedPersists(w, w', sd, r, rd.prepared, rd.preparedJust);
    CommittedPersists(w, w', sd, r, rd.committed, rd.committedJust);
    ConvergedPersists(w, w', sd, r, rd.converged);
  }

  lemma CandidatesPersist(w: World, w': World, input: Chain, quality: Tally, v: Chain)
    requires Extends(w, w') && CandidateOk(w, input, quality, v)
    ensures CandidateOk(w', input, quality, v)
  {
    if PreparedByHonest(w, v) {
      var x :| x in w.votes && x.vote.phase == PREPARE && x.vote.value == v;
    }
  }

  lemma EntryPersists(w: World, w': World, s: Instance, b: Broadcast)
    requires Extends(w, w') && EntryOk(w, s.supplement, s.input, s.quality, s.log, b)
    ensures EntryOk(w', s.supplement, s.input, s.quality, s.log, b)
  {
    if b.vote.phase == PREPARE {
      CandidatesPersist(w, w', s.input, s.quality, b.vote.value);
    }
    if b.vote.phase == COMMIT && b.vote.value == BOTTOM {
      var k, x :| Disputed(w, s.log, k, x, b.vote);
      if b.vote.round > 0 {
        BackedPersists(w, w', b.vote.(phase := PREPARE, value := x));
      }
      assert Disputed(w', s.log, k, x, b.vote);
    }
  }

  /** The invariant survives any further votes of others. */
  lemma InvPersists(w: World, w': World, s: Instance)
    requires Extends(w, w') && Inv(w, s)
    ensures Inv(w', s)
  {
    forall r | r in s.rounds
      ensures RoundOk(w', s.supplement, r, s.rounds[r])
    {
      RoundPersists(w, w', s.supplement, r, s.rounds[r]);
    }
    forall i | 0 <= i < |s.log|
      ensures EntryOk(w', s.supplement, s.input, s.quality, s.log, s.log[i])
    {
      EntryPersists(w, w', s, s.log[i]);
    }
    forall v | v in s.candidates
      ensures CandidateOk(w', s.input, s.quality, v)
    {
      CandidatesPersist(w, w', s.input, s.quality, v);
    }
    assert StoredOk(w', s);
  }
}
