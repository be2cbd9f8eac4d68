/** What follows for the participants of a run: nobody waits for what has happened. */
module Progression {
  import opened Basics
  import opened Chains
  import opened Power
  import opened Quorums
  import opened Tallies
  import opened Messages
  import opened Instances
  import opened Evidence
  import opened Steps
  import opened Network
  import opened Responses
  import opened Conformance

  predicate SameBase(s: Instance, v: Chain) {
    v == BOTTOM || s.input == BOTTOM || v[0] == s.input[0]
  }

  /** The votes with one more, if the sender has not voted before. */
  function With(votes: Tally, id: ActorID, v: Chain): Tally {
    if id in votes then votes else votes[id := v]
  }

  /** Where a step takes its participant. */
  ghost function Next(sys: System, a: Action): Instance
    requires Enabled(sys, a)
  {
    Apply(sys, a).nodes[a.p]
  }

  lemma AlarmConforms(sys: System, p: ActorID, env: Env) returns (s': Instance)
    requires Reachable(sys) && Enabled(sys, Alarm(p, env))
    ensures s' == Next(sys, Alarm(p, env)) && EndPhase(sys.w, sys.nodes[p], env.elapsed, s')
  {
    s' := StepConforms(sys, Alarm(p, env));
  }

  lemma DeliveryFollows(sys: System, p: ActorID, m: GMessage, env: Env) returns (s': Instance)
    requires Reachable(sys) && Enabled(sys, Deliver(p, m, env))
    ensures s' == Next(sys, Deliver(p, m, env)) && OnDelivery(sys.w, sys.nodes[p], m, env, s')
  {
    s' := StepConforms(sys, Deliver(p, m, env));
  }

  lemma Delivered(w: World, s: Instance, m: GMessage, env: Env, s': Instance) returns (s1: Instance, s2: Instance)
    requires OnDelivery(w, s, m, env, s') && !Ignored(w.c, s, m)
    ensures Counts(s, m, s1) && Reacts(w, s1, m, env, s2)
    ensures s' == s2 || Skips(w, s2, m.vote.round, s')
  {
    s1, s2 :|
      && Counts(s, m, s1) && Reacts(w, s1, m, env, s2)
      && if Stuck(w, s1, m, env.elapsed) then s' == s2 else Skips(w, s2, m.vote.round, s');
  }

  // ---------- late votes ----------

  /** The COMMIT is for this participant, and with it a value has a quorum. */
  ghost predicate Completes(w: World, s: Instance, m: GMessage) {
    && m.vote.phase == COMMIT && m.vote.value != BOTTOM && SameBase(s, m.vote.value)
    && m.vote.instance == w.c.instance && m.vote.supplement == s.supplement
    && Wins(w.c.table, With(GetRound(s, m.vote.round).committed, m.sender, m.vote.value), m.vote.value)
  }

  /** A COMMIT that completes a quorum decides, whatever round it is of and the participant is in. */
  lemma LateCommitDecides(sys: System, p: ActorID, m: GMessage, env: Env) returns (s': Instance)
    requires Reachable(sys) && Enabled(sys, Deliver(p, m, env)) && !Decided(sys.nodes[p])
    requires Completes(sys.w, sys.nodes[p], m)
    ensures s' == Next(sys, Deliver(p, m, env)) && s'.phase == DECIDE && s'.value == m.vote.value
    ensures Sends(sys.w, sys.nodes[p], s', 0, DECIDE, m.vote.value)
  {
    s' := DeliveryFollows(sys, p, m, env);
    ReachableInv(sys);
    CompletedDecides(sys.w, sys.nodes[p], m, env, s');
  }

  lemma CompletedDecides(w: World, s: Instance, m: GMessage, env: Env, s': Instance)
    requires Sound(w) && ValidMessage(w, m) && OnDelivery(w, s, m, env, s') && !Decided(s) && Completes(w, s, m)
    ensures s'.phase == DECIDE && s'.value == m.vote.value && Sends(w, s, s', 0, DECIDE, m.vote.value)
  {
    NotIgnored(w, s, m);
    var s1, s2 := Delivered(w, s, m, env, s');
    CommitIsCounted(s, m, s1);
    QuorumDecides(w, s1, m, env, s2);
    DecidedStays(w, s2, m.vote.round, s');
    SentBefore(w, s, s1, s2, 0, DECIDE, m.vote.value);
  }

  lemma NotIgnored(w: World, s: Instance, m: GMessage)
    requires ValidMessage(w, m) && !Decided(s) && Completes(w, s, m)
    ensures !Ignored(w.c, s, m)
  {
  }

  lemma CommitIsCounted(s: Instance, m: GMessage, s': Instance)
    requires m.vote.phase == COMMIT && Counts(s, m, s')
    ensures s' == s.(rounds := s'.rounds)
    ensures GetRound(s', m.vote.round).committed ==
      With(GetRound(s, m.vote.round).committed, m.sender, m.vote.value)
  {
    var r := m.vote.round;
    CountedWith(GetRound(s, r).committed, m.sender, m.vote.value, GetRound(s', r).committed);
  }

  lemma DecidedStays(w: World, s: Instance, r: nat, s': Instance)
    requires s.phase == DECIDE && (s' == s || Skips(w, s, r, s'))
    ensures s' == s
  {
  }

  lemma SentBefore(w: World, s: Instance, s1: Instance, s2: Instance, r: nat, p: Phase, v: Chain)
    requires s1.log == s.log && s1.supplement == s.supplement && Sends(w, s1, s2, r, p, v)
    ensures Sends(w, s, s2, r, p, v)
  {
  }

  lemma CountedWith(votes: Tally, id: ActorID, v: Chain, votes': Tally)
    requires FirstVoteCounts(votes, id, v, votes')
    ensures votes' == With(votes, id, v)
  {
  }

  lemma OneWinner(w: World, votes: Tally, v: Chain, x: Chain)
    requires Sound(w) && Wins(w.c.table, votes, v) && Wins(w.c.table, votes, x)
    ensures v == x
  {
    WinsExactly(w, votes, v);
    WinsExactly(w, votes, x);
    QuorumValueUnique(w.c.table, votes, v, x);
  }

  lemma QuorumDecides(w: World, s: Instance, m: GMessage, env: Env, s': Instance)
    requires Sound(w) && Reacts(w, s, m, env, s') && m.vote.phase == COMMIT && m.vote.value != BOTTOM && !Decided(s)
    requires Wins(w.c.table, GetRound(s, m.vote.round).committed, m.vote.value)
    ensures GoesToDecide(w, s, m.vote.value, s')
  {
    var s1 :|
      && EndCommit(w, s, m.vote.round, env.elapsedAtCommit, s1)
      && if s1.phase == PREPARE && s1.round == m.vote.round && m.vote.value != BOTTOM
         then EndPrepare(w, s1, env.elapsed, s') else s' == s1;
    var v :| v != BOTTOM && Wins(w.c.table, GetRound(s, m.vote.round).committed, v) && GoesToDecide(w, s, v, s1);
    OneWinner(w, GetRound(s, m.vote.round).committed, v, m.vote.value);
  }

  // ---------- timeouts ----------

  /** A quorum of PREPARE for the proposal was counted, or somebody else's came along. */
  ghost predicate Supported(w: World, s: Instance) {
    Wins(w.c.table, GetRound(s, s.round).prepared, s.proposal) || PrepareProved(w.c, s, s.proposal)
  }

  /** PREPARE cannot go on: there is support or there can be none, or it has timed out and two thirds of the
      power were heard. */
  ghost predicate PrepareOver(w: World, s: Instance, elapsed: bool) {
    var prepared := GetRound(s, s.round).prepared;
    || Supported(w, s) || !MayWin(w.c.table, prepared, s.proposal, 0)
    || (elapsed && Heard(w.c.table, prepared))
  }

  lemma PrepareEndsExactly(sys: System, p: ActorID, env: Env) returns (s': Instance)
    requires Reachable(sys) && Enabled(sys, Alarm(p, env)) && sys.nodes[p].phase == PREPARE
    ensures s' == Next(sys, Alarm(p, env))
    ensures s'.phase == COMMIT <==> PrepareOver(sys.w, sys.nodes[p], env.elapsed)
    ensures s'.phase != COMMIT ==> s' == sys.nodes[p]
    ensures s'.phase == COMMIT ==>
      var s := sys.nodes[p];
      GoesToCommit(sys.w, s, if Supported(sys.w, s) then s.proposal else BOTTOM, s')
  {
    s' := AlarmConforms(sys, p, env);
    PrepareOutcome(sys.w, sys.nodes[p], env.elapsed, s');
  }

  lemma PrepareOutcome(w: World, s: Instance, elapsed: bool, s': Instance)
    requires s.phase == PREPARE && EndPhase(w, s, elapsed, s')
    ensures s'.phase == COMMIT <==> PrepareOver(w, s, elapsed)
    ensures s'.phase != COMMIT ==> s' == s
    ensures s'.phase == COMMIT ==> GoesToCommit(w, s, if Supported(w, s) then s.proposal else BOTTOM, s')
  {
  }

  /** A PREPARE or CONVERGE that arrives has the same effect, once it is counted: it is the next message
      that the participant sends. */
  lemma PrepareEndsOnDelivery(sys: System, p: ActorID, m: GMessage, env: Env) returns (s1: Instance, s': Instance)
    requires Reachable(sys) && Enabled(sys, Deliver(p, m, env)) && sys.nodes[p].phase == PREPARE
    requires !Ignored(sys.w.c, sys.nodes[p], m) && (m.vote.phase == CONVERGE || m.vote.phase == PREPARE)
    ensures Counts(sys.nodes[p], m, s1) && s' == Next(sys, Deliver(p, m, env))
    ensures PrepareOver(sys.w, s1, env.elapsed) ==>
      SendsNext(sys.w.c, sys.nodes[p], s', s1.round, COMMIT, if Supported(sys.w, s1) then s1.proposal else BOTTOM)
  {
    s' := DeliveryFollows(sys, p, m, env);
    s1 := PrepareAfterVote(sys.w, sys.nodes[p], m, env, s');
  }

  /** Of what it sends, this comes first. */
  predicate SendsNext(c: Config, s: Instance, s': Instance, r: nat, p: Phase, v: Chain) {
    |s'.log| > |s.log| && s'.log[|s.log|].vote == VoteAt(c, s.supplement, r, p, v)
  }

  lemma PrepareAfterVote(w: World, s: Instance, m: GMessage, env: Env, s': Instance) returns (s1: Instance)
    requires OnDelivery(w, s, m, env, s') && !Ignored(w.c, s, m) && s.phase == PREPARE
    requires m.vote.phase == CONVERGE || m.vote.phase == PREPARE
    ensures Counts(s, m, s1)
    ensures PrepareOver(w, s1, env.elapsed) ==>
      SendsNext(w.c, s, s', s1.round, COMMIT, if Supported(w, s1) then s1.proposal else BOTTOM)
  {
    var s2: Instance;
    s1, s2 := Delivered(w, s, m, env, s');
    OnlyCounted(s, m, s1);
    PrepareOutcome(w, s1, env.elapsed, s2);
    if PrepareOver(w, s1, env.elapsed) {
      SkipExtends(w, s2, m.vote.round, s');
    }
  }

  lemma OnlyCounted(s: Instance, m: GMessage, s': Instance)
    requires Counts(s, m, s')
    ensures s'.log == s.log && s'.supplement == s.supplement && s'.phase == s.phase && s'.round == s.round
    ensures s'.proposal == s.proposal && s'.value == s.value && s'.candidates == s.candidates && s'.input == s.input
  {
  }

  lemma SkipExtends(w: World, s: Instance, r: nat, s': Instance)
    requires s' == s || Skips(w, s, r, s')
    ensures s.log <= s'.log
  {
  }

  /** How COMMIT ends: with the value that has a quorum, else in the next round when bottom has one or at its
      timeout once two thirds of the power were heard. */
  lemma CommitEndsExactly(sys: System, p: ActorID, env: Env) returns (s': Instance)
    requires Reachable(sys) && Enabled(sys, Alarm(p, env)) && sys.nodes[p].phase == COMMIT
    ensures s' == Next(sys, Alarm(p, env)) && CommitEndsAs(sys.w, sys.nodes[p], env.elapsed, s')
  {
    s' := AlarmConforms(sys, p, env);
    ReachableInv(sys);
    CommitOutcome(sys.w, sys.nodes[p], env.elapsed, s');
  }

  ghost predicate CommitEndsAs(w: World, s: Instance, elapsed: bool, s': Instance) {
    var t, committed := w.c.table, GetRound(s, s.round).committed;
    && (forall v :: v != BOTTOM && Wins(t, committed, v) ==> s'.phase == DECIDE && s'.value == v)
    && (s'.phase == DECIDE ==> s'.value != BOTTOM && Wins(t, committed, s'.value))
    && (s'.phase == CONVERGE <==>
          && (forall v :: v != BOTTOM ==> !Wins(t, committed, v))
          && (Wins(t, committed, BOTTOM) || BottomProved(w.c, s) || (elapsed && Heard(t, committed))))
    && (s'.phase == CONVERGE ==>
          && s'.round == s.round + 1
          && (if Wins(t, committed, BOTTOM) || BottomProved(w.c, s) then s'.proposal == s.proposal
              else s'.proposal in committed.Values && s'.proposal != BOTTOM && s'.proposal in s'.candidates))
    && (s'.phase != DECIDE && s'.phase != CONVERGE ==> s' == s)
  }

  lemma CommitOutcome(w: World, s: Instance, elapsed: bool, s': Instance)
    requires Sound(w) && s.phase == COMMIT && EndPhase(w, s, elapsed, s')
    ensures CommitEndsAs(w, s, elapsed, s')
  {
    var t, committed := w.c.table, GetRound(s, s.round).committed;
    if exists v :: v != BOTTOM && Wins(t, committed, v) {
      var v :| v != BOTTOM && Wins(t, committed, v) && GoesToDecide(w, s, v, s');
      forall x | x != BOTTOM && Wins(t, committed, x)
        ensures x == v
      {
        OneWinner(w, committed, v, x);
      }
    }
  }

  /** A COMMIT of the round has the same effects, once it is counted: it may end COMMIT, and it may end PREPARE
      if it is for a value and does not decide. */
  lemma CommitEndsOnDelivery(sys: System, p: ActorID, m: GMessage, env: Env) returns (s1: Instance, s': Instance)
    requires Reachable(sys) && Enabled(sys, Deliver(p, m, env)) && !Ignored(sys.w.c, sys.nodes[p], m)
    requires m.vote.phase == COMMIT && m.vote.round == sys.nodes[p].round
    ensures Counts(sys.nodes[p], m, s1) && s' == Next(sys, Deliver(p, m, env))
    ensures sys.nodes[p].phase == COMMIT ==> CommitEndsAs(sys.w, s1, env.elapsedAtCommit, s')
    ensures sys.nodes[p].phase == PREPARE && m.vote.value != BOTTOM && s'.phase != DECIDE ==>
      && (s'.phase == COMMIT <==> PrepareOver(sys.w, s1, env.elapsed))
      && (s'.phase == COMMIT ==>
            GoesToCommit(sys.w, s1, if Supported(sys.w, s1) then s1.proposal else BOTTOM, s'))
  {
    s' := DeliveryFollows(sys, p, m, env);
    ReachableInv(sys);
    s1 := CommitDelivered(sys.w, sys.nodes[p], m, env, s');
  }

  lemma CommitDelivered(w: World, s: Instance, m: GMessage, env: Env, s': Instance) returns (s1: Instance)
    requires Sound(w) && OnDelivery(w, s, m, env, s') && !Ignored(w.c, s, m)
    requires m.vote.phase == COMMIT && m.vote.round == s.round
    ensures Counts(s, m, s1)
    ensures s.phase == COMMIT ==> CommitEndsAs(w, s1, env.elapsedAtCommit, s')
    ensures s.phase == PREPARE && m.vote.value != BOTTOM && s'.phase != DECIDE ==>
      && (s'.phase == COMMIT <==> PrepareOver(w, s1, env.elapsed))
      && (s'.phase == COMMIT ==> GoesToCommit(w, s1, if Supported(w, s1) then s1.proposal else BOTTOM, s'))
  {
    var s2: Instance;
    s1, s2 := Delivered(w, s, m, env, s');
    OnlyCounted(s, m, s1);
    ReactionIsNear(w, s1, m, env, s2, 0);
    NoSkipTo(w, s2, m.vote.round, s');
    if s.phase == COMMIT || s.phase == PREPARE {
      CommitReaction(w, s1, m, env, s2);
    }
  }

  lemma NoSkipTo(w: World, s: Instance, r: nat, s': Instance)
    requires r <= s.round && (s' == s || Skips(w, s, r, s'))
    ensures s' == s
  {
  }

  lemma CommitReaction(w: World, s: Instance, m: GMessage, env: Env, s': Instance)
    requires Sound(w) && Reacts(w, s, m, env, s') && (s.phase == COMMIT || s.phase == PREPARE)
    requires m.vote.phase == COMMIT && m.vote.round == s.round
    ensures s.phase == COMMIT ==> CommitEndsAs(w, s, env.elapsedAtCommit, s')
    ensures s.phase == PREPARE && m.vote.value != BOTTOM && s'.phase != DECIDE ==>
      && (s'.phase == COMMIT <==> PrepareOver(w, s, env.elapsed))
      && (s'.phase == COMMIT ==> GoesToCommit(w, s, if Supported(w, s) then s.proposal else BOTTOM, s'))
  {
    var s1 :|
      && EndCommit(w, s, m.vote.round, env.elapsedAtCommit, s1)
      && if s1.phase == PREPARE && s1.round == m.vote.round && m.vote.value != BOTTOM
         then EndPrepare(w, s1, env.elapsed, s') else s' == s1;
    var v, swayed := CommitGoes(w, s, m.vote.round, m.vote.round + 1, env.elapsedAtCommit, s1);
    if s.phase == COMMIT {
      CommitOutcome(w, s, env.elapsedAtCommit, s1);
      assert s1.phase != PREPARE;
    } else if s1 == s && m.vote.value != BOTTOM {
      PrepareOutcome(w, s, env.elapsed, s');
    }
  }

  /** Who has started and not decided goes on at its timeout, if it has heard enough. */
  lemma TimeoutMovesOn(sys: System, p: ActorID, env: Env) returns (s': Instance)
    requires Reachable(sys) && Enabled(sys, Alarm(p, env)) && !Decided(sys.nodes[p]) && env.elapsed
    requires HeardEnough(sys.w, sys.nodes[p])
    ensures s' == Next(sys, Alarm(p, env))
    ensures Decided(s') || Before(Position(sys.nodes[p]), Position(s'))
  {
    s' := AlarmConforms(sys, p, env);
    MovesOn(sys.w, sys.nodes[p], s');
  }

  function Position(s: Instance): Payload {
    Payload(0, s.round, s.phase, s.supplement, BOTTOM)
  }

  /** QUALITY needs nothing, CONVERGE an eligible value, PREPARE and COMMIT votes of two thirds of the power. */
  ghost predicate HeardEnough(w: World, s: Instance) {
    match s.phase
    case QUALITY => true
    case CONVERGE => s.round > 0 && exists v :: Eligible(w.c.table, s, v)
    case PREPARE => Heard(w.c.table, GetRound(s, s.round).prepared)
    case COMMIT => Heard(w.c.table, GetRound(s, s.round).committed)
    case _ => false
  }

  lemma MovesOn(w: World, s: Instance, s': Instance)
    requires EndPhase(w, s, true, s') && !Decided(s) && HeardEnough(w, s)
    ensures Decided(s') || Before(Position(s), Position(s'))
  {
    match s.phase
    case QUALITY =>
      var v :| Longest(w.c.table, s.quality, s.input, v) && GoesToPrepare(w, s, v, s') && MoreCandidates(s, v, s');
      PrepareIsNext(w, s, v, s');
    case CONVERGE =>
      var v :| Eligible(w.c.table, s, v) && GoesToPrepare(w, s, v, s');
      PrepareIsNext(w, s, v, s');
    case PREPARE =>
      PrepareOutcome(w, s, true, s');
      CommitIsNext(w, s, if Supported(w, s) then s.proposal else BOTTOM, s');
    case COMMIT => CommitMovesOn(w, s, s');
  }

  lemma PrepareIsNext(w: World, s: Instance, v: Chain, s': Instance)
    requires GoesToPrepare(w, s, v, s') && (s.phase == QUALITY || s.phase == CONVERGE)
    ensures Before(Position(s), Position(s'))
  {
  }

  lemma CommitIsNext(w: World, s: Instance, v: Chain, s': Instance)
    requires GoesToCommit(w, s, v, s') && s.phase == PREPARE
    ensures Before(Position(s), Position(s'))
  {
  }

  lemma CommitMovesOn(w: World, s: Instance, s': Instance)
    requires s.phase == COMMIT && EndCommit(w, s, s.round, true, s') && Heard(w.c.table, GetRound(s, s.round).committed)
    ensures s'.phase == DECIDE || s'.round > s.round
  {
    var t, committed := w.c.table, GetRound(s, s.round).committed;
    if exists v :: v != BOTTOM && Wins(t, committed, v) {
      var v :| v != BOTTOM && Wins(t, committed, v) && GoesToDecide(w, s, v, s');
    } else if !(Wins(t, committed, BOTTOM) || BottomProved(w.c, s)) {
      var v :| v != BOTTOM && v in committed.Values && GoesToRound(w, s, s.round + 1, v, true, s');
    }
  }

  // ---------- decisions ----------

  /** A DECIDE is followed at once, and the participant terminates with the quorum that it completes. */
  lemma DecisionIsFollowed(sys: System, p: ActorID, m: GMessage, env: Env) returns (s': Instance)
    requires Reachable(sys) && Enabled(sys, Deliver(p, m, env)) && m.vote.phase == DECIDE
    requires !Ignored(sys.w.c, sys.nodes[p], m)
    ensures s' == Next(sys, Deliver(p, m, env)) && Decided(s')
    ensures !Decided(sys.nodes[p]) ==> SendsNext(sys.w.c, sys.nodes[p], s', 0, DECIDE, m.vote.value)
    ensures s'.phase == TERMINATED <==>
      exists v :: Wins(sys.w.c.table, With(sys.nodes[p].decision, m.sender, m.vote.value), v)
    ensures s'.phase == TERMINATED ==>
      Wins(sys.w.c.table, With(sys.nodes[p].decision, m.sender, m.vote.value), s'.value)
  {
    s' := DeliveryFollows(sys, p, m, env);
    FollowedDecision(sys.w, sys.nodes[p], m, env, s');
  }

  lemma FollowedDecision(w: World, s: Instance, m: GMessage, env: Env, s': Instance)
    requires ValidMessage(w, m) && OnDelivery(w, s, m, env, s') && m.vote.phase == DECIDE && !Ignored(w.c, s, m)
    ensures Decided(s') && (!Decided(s) ==> SendsNext(w.c, s, s', 0, DECIDE, m.vote.value))
    ensures s'.phase == TERMINATED <==> exists v :: Wins(w.c.table, With(s.decision, m.sender, m.vote.value), v)
    ensures s'.phase == TERMINATED ==> Wins(w.c.table, With(s.decision, m.sender, m.vote.value), s'.value)
  {
    var s1, s2 := Delivered(w, s, m, env, s');
    OnlyCounted(s, m, s1);
    CountedWith(s.decision, m.sender, m.vote.value, s1.decision);
    DecisionOutcome(w, s1, m, env, s2);
    NoSkipTo(w, s2, m.vote.round, s');
  }

  lemma DecisionOutcome(w: World, s: Instance, m: GMessage, env: Env, s': Instance)
    requires m.vote.phase == DECIDE && Reacts(w, s, m, env, s') && s.phase != TERMINATED
    ensures Decided(s') && (!Decided(s) ==> SendsNext(w.c, s, s', 0, DECIDE, m.vote.value))
    ensures s'.phase == TERMINATED <==> exists v :: Wins(w.c.table, s.decision, v)
    ensures s'.phase == TERMINATED ==> Wins(w.c.table, s.decision, s'.value)
  {
    var s1 :| FollowsDecision(w, s, m.vote.value, s1) && EndDecide(w, s1, s');
    assert s1.decision == s.decision && s1.phase == DECIDE;
    if exists v :: Wins(w.c.table, s1.decision, v) {
      var v :| Wins(w.c.table, s1.decision, v) && Terminates(w, s1, v, s');
    }
  }

  // ---------- skips ----------

  /** A round that was not reached by COMMIT is one in which somebody honest has prepared. */
  lemma SkipFollowsHonest(sys: System, p: ActorID, m: GMessage, env: Env) returns (x: Signed)
    requires Reachable(sys) && Enabled(sys, Deliver(p, m, env))
    requires var s, s' := sys.nodes[p], Next(sys, Deliver(p, m, env));
      s'.round > s.round && (s.phase != COMMIT || s'.round > s.round + 1)
    ensures x in sys.w.votes && x.id !in sys.w.byzantine
    ensures x.vote.phase == PREPARE && x.vote.round == Next(sys, Deliver(p, m, env)).round
  {
    var s' := DeliveryFollows(sys, p, m, env);
    ReachableInv(sys);
    x := SkippedAfterHonest(sys.w, sys.nodes[p], m, env, s');
  }

  lemma SkippedAfterHonest(w: World, s: Instance, m: GMessage, env: Env, s': Instance) returns (x: Signed)
    requires Sound(w) && Inv(w, s) && ValidMessage(w, m) && OnDelivery(w, s, m, env, s')
    requires s'.round > s.round && (s.phase != COMMIT || s'.round > s.round + 1)
    ensures x in w.votes && x.id !in w.byzantine && x.vote.phase == PREPARE && x.vote.round == s'.round
  {
    if Ignored(w.c, s, m) {
      assert false;
    } else {
      var s1, s2 := Delivered(w, s, m, env, s');
      OnlyCounted(s, m, s1);
      ReactionIsNear(w, s1, m, env, s2, m.vote.round);
      var id := HonestPreparer(w, s2, m.vote.round, s');
      x := PreparedVote(w, s, m, s1, id);
    }
  }

  /** Nobody jumps, and no count of PREPARE changes. */
  ghost predicate StaysNear(s: Instance, s': Instance, q: nat) {
    && (s'.round == s.round || (s.phase == COMMIT && s'.round == s.round + 1))
    && GetRound(s', q).prepared == GetRound(s, q).prepared
  }

  lemma EnteringIsNear(w: World, s: Instance, r: nat, v: Chain, swayed: bool, s': Instance, q: nat)
    requires GoesToRound(w, s, r, v, swayed, s') && s.phase == COMMIT && r == s.round + 1
    ensures StaysNear(s, s', q)
  {
  }

  /** The three ways to react to votes of COMMIT. */
  lemma CommitGoes(w: World, s: Instance, r: nat, r': nat, elapsed: bool, s': Instance)
    returns (v: Chain, swayed: bool)
    requires EndCommit(w, s, r, elapsed, s') && r' == r + 1
    ensures
      || s' == s || GoesToDecide(w, s, v, s')
      || (s.phase == COMMIT && s.round == r && GoesToRound(w, s, r', v, swayed, s'))
  {
    var t, committed := w.c.table, GetRound(s, r).committed;
    v, swayed := s.proposal, false;
    if exists v :: v != BOTTOM && Wins(t, committed, v) {
      v :| v != BOTTOM && Wins(t, committed, v) && GoesToDecide(w, s, v, s');
    } else if s.round == r && s.phase == COMMIT {
      if !(Wins(t, committed, BOTTOM) || BottomProved(w.c, s)) && elapsed && Heard(t, committed) {
        v :| v != BOTTOM && v in committed.Values && GoesToRound(w, s, r + 1, v, true, s');
        swayed := true;
      }
    }
  }

  lemma DecidingIsNear(w: World, s: Instance, v: Chain, s': Instance, q: nat)
    requires GoesToDecide(w, s, v, s')
    ensures StaysNear(s, s', q) && s'.phase == DECIDE
  {
  }

  lemma CommitIsNear(w: World, s: Instance, r: nat, elapsed: bool, s': Instance, q: nat)
    requires EndCommit(w, s, r, elapsed, s')
    ensures StaysNear(s, s', q)
    ensures s'.phase == PREPARE ==> s' == s
  {
    var v, swayed := CommitGoes(w, s, r, r + 1, elapsed, s');
    if s' != s {
      if GoesToDecide(w, s, v, s') {
        DecidingIsNear(w, s, v, s', q);
      } else {
        EnteringIsNear(w, s, r + 1, v, swayed, s', q);
      }
    }
  }

  lemma PrepareIsNear(w: World, s: Instance, elapsed: bool, s': Instance, q: nat)
    requires EndPrepare(w, s, elapsed, s')
    ensures StaysNear(s, s', q)
  {
  }

  lemma QualityIsNear(w: World, s: Instance, elapsed: bool, s': Instance, q: nat)
    requires EndQuality(w, s, elapsed, s') || LateQuality(w, s, s')
    ensures StaysNear(s, s', q)
  {
  }

  lemma ConvergeIsNear(w: World, s: Instance, elapsed: bool, s': Instance, q: nat)
    requires s.round > 0 && EndConverge(w, s, elapsed, s')
    ensures StaysNear(s, s', q)
  {
  }

  lemma DecideIsNear(w: World, s: Instance, s': Instance, q: nat)
    requires EndDecide(w, s, s')
    ensures StaysNear(s, s', q)
  {
  }

  lemma PhaseEndIsNear(w: World, s: Instance, elapsed: bool, s': Instance, q: nat)
    requires EndPhase(w, s, elapsed, s')
    ensures StaysNear(s, s', q)
  {
    match s.phase
    case QUALITY => QualityIsNear(w, s, elapsed, s', q);
    case CONVERGE => ConvergeIsNear(w, s, elapsed, s', q);
    case PREPARE => PrepareIsNear(w, s, elapsed, s', q);
    case COMMIT => CommitIsNear(w, s, s.round, elapsed, s', q);
    case DECIDE => DecideIsNear(w, s, s', q);
    case _ =>
  }

  lemma CommitReactionIsNear(w: World, s: Instance, m: GMessage, env: Env, s': Instance, q: nat)
    requires m.vote.phase == COMMIT && Reacts(w, s, m, env, s')
    ensures StaysNear(s, s', q)
  {
    if s.phase != DECIDE {
      var s1 :|
        && EndCommit(w, s, m.vote.round, env.elapsedAtCommit, s1)
        && if s1.phase == PREPARE && s1.round == m.vote.round && m.vote.value != BOTTOM
           then EndPrepare(w, s1, env.elapsed, s') else s' == s1;
      CommitIsNear(w, s, m.vote.round, env.elapsedAtCommit, s1, q);
      if s1.phase == PREPARE && s1.round == m.vote.round && m.vote.value != BOTTOM {
        PrepareIsNear(w, s1, env.elapsed, s', q);
      }
    }
  }

  lemma DecideReactionIsNear(w: World, s: Instance, m: GMessage, env: Env, s': Instance, q: nat)
    requires m.vote.phase == DECIDE && Reacts(w, s, m, env, s')
    ensures StaysNear(s, s', q)
  {
    var s1 :| FollowsDecision(w, s, m.vote.value, s1) && EndDecide(w, s1, s');
    DecideIsNear(w, s1, s', q);
    assert s1.round == s.round && s1.rounds == s.rounds;
  }

  lemma ReactionIsNear(w: World, s: Instance, m: GMessage, env: Env, s': Instance, q: nat)
    requires Reacts(w, s, m, env, s')
    ensures StaysNear(s, s', q)
  {
    match m.vote.phase
    case QUALITY => QualityIsNear(w, s, env.elapsed, s', q);
    case DECIDE => DecideReactionIsNear(w, s, m, env, s', q);
    case COMMIT => CommitReactionIsNear(w, s, m, env, s', q);
    case _ => PhaseEndIsNear(w, s, env.elapsed, s', q);
  }

  lemma HonestPreparer(w: World, s: Instance, r: nat, s': Instance) returns (id: ActorID)
    requires Sound(w) && Skips(w, s, r, s') && s' != s
    ensures s'.round == r && id in GetRound(s, r).prepared && id !in w.byzantine
  {
    var votes := GetRound(s, r).prepared;
    HeardExactly(w.c.table, votes);
    id := WeakQuorumHasHonest(w.c.table, w.byzantine, votes.Keys);
  }

  lemma PreparedVote(w: World, s: Instance, m: GMessage, s': Instance, id: ActorID) returns (x: Signed)
    requires StoredOk(w, s) && ValidMessage(w, m) && Counts(s, m, s')
    requires id in GetRound(s', m.vote.round).prepared && id !in w.byzantine
    ensures x in w.votes && x.id == id && x.vote.phase == PREPARE && x.vote.round == m.vote.round
  {
    var r := m.vote.round;
    GetRoundOk(w, s, r);
    var votes := GetRound(s, r).prepared;
    if id in votes {
      assert GoodVote(w, s.supplement, id, r, PREPARE, votes[id]);
      x := Signed(id, VoteAt(w.c, s.supplement, r, PREPARE, votes[id]));
    } else {
      x := Signed(id, m.vote);
    }
  }
}
