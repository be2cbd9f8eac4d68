/** A whole instance: honest participants, an adversary that delivers any valid message in any
    order, and the invariant of every run. */
module Network {
  import opened Basics
  import opened Chains
  import opened Messages
  import opened Instances
  import opened Evidence
  import opened Steps
  import opened Progress

  /** The honest participants of one instance and the votes they have signed. */
  datatype System = System(w: World, nodes: map<ActorID, Instance>)

  datatype Action =
    | Start(p: ActorID, queued: seq<GMessage>, envs: seq<Env>, pick: Chain)
    | Deliver(p: ActorID, m: GMessage, env: Env)
    | Alarm(p: ActorID, env: Env)

  /** Delivered messages have passed validation; a drained queue is ordered by round. Only a participant
      below the wildcard round moves. */
  ghost predicate Enabled(sys: System, a: Action) {
    && a.p in sys.nodes
    && match a
       case Start(p, queued, envs, _) =>
         && sys.nodes[p].phase == INITIAL
         && |queued| == |envs| && AllValid(sys.w, queued) && SortedByRound(queued)
         && Room(sys.w, sys.nodes[p].round, |queued|)
       case Deliver(p, m, _) =>
         sys.nodes[p].phase != INITIAL && ValidMessage(sys.w, m) && Room(sys.w, sys.nodes[p].round, 1)
       case Alarm(p, _) => sys.nodes[p].phase != INITIAL && Room(sys.w, sys.nodes[p].round, 1)
  }

  /** The message is one that its sender has sent, with any ticket and signature. */
  ghost predicate Sent(sys: System, m: GMessage) {
    m.sender in sys.nodes && Broadcast(m.vote, m.justification) in sys.nodes[m.sender].log
  }

  ghost function Moved(sys: System, a: Action): Instance
    requires Enabled(sys, a)
  {
    var c, s := sys.w.c, sys.nodes[a.p];
    match a
    case Start(_, queued, envs, pick) => ReceiveMany(c, BeginQuality(c, s), queued, envs, pick).s
    case Deliver(_, m, env) => Receive(c, s, m, env).s
    case Alarm(_, env) => ReceiveAlarm(c, s, env).s
  }

  ghost function SignedBy(p: ActorID, log: seq<Broadcast>): set<Signed> {
    set i | 0 <= i < |log| :: Signed(p, log[i].vote)
  }

  /** The participant moves, and everything it sent is now signed. */
  ghost function Apply(sys: System, a: Action): System
    requires Enabled(sys, a)
  {
    var s' := Moved(sys, a);
    System(sys.w.(votes := sys.w.votes + SignedBy(a.p, s'.log)), sys.nodes[a.p := s'])
  }

  ghost predicate Initial(sys: System) {
    && Sound(sys.w) && sys.w.votes == {} && Room(sys.w, 0, 1)
    && (forall p :: p in sys.nodes ==>
          && p !in sys.w.byzantine
          && sys.nodes[p].input != BOTTOM && ValidChain(sys.nodes[p].input)
          && sys.nodes[p] == New(sys.nodes[p].input, sys.nodes[p].supplement))
  }

  ghost predicate Runs(sys: System, acts: seq<Action>)
    decreases |acts|
  {
    acts == [] || (Enabled(sys, acts[0]) && Runs(Apply(sys, acts[0]), acts[1..]))
  }

  ghost function After(sys: System, acts: seq<Action>): System
    requires Runs(sys, acts)
    decreases |acts|
  {
    if acts == [] then sys else After(Apply(sys, acts[0]), acts[1..])
  }

  ghost predicate Reachable(sys: System) {
    exists start, acts :: Initial(start) && Runs(start, acts) && sys == After(start, acts)
  }

  // ---------- the invariant ----------

  ghost predicate Logged(sys: System, x: Signed, i: int) {
    && x.id in sys.nodes && 0 <= i < |sys.nodes[x.id].log|
    && sys.nodes[x.id].log[i].vote == x.vote
  }

  ghost predicate LegitimateAt(sys: System, q: ActorID, v: Chain) {
    q in sys.nodes && LocallyLegitimate(sys.w, sys.nodes[q].input, sys.nodes[q].quality, v)
  }

  /** The base chain of an honest participant, or a prefix of its input for which it has counted a
      strong quorum of QUALITY votes. */
  ghost predicate Legitimate(sys: System, v: Chain) {
    exists q :: LegitimateAt(sys, q, v)
  }

  ghost predicate SystemInv(sys: System) {
    && Sound(sys.w)
    && (forall p :: p in sys.nodes ==> p !in sys.w.byzantine && Inv(sys.w, sys.nodes[p]))
    && (forall x :: x in sys.w.votes ==> exists i :: Logged(sys, x, i))
    && (forall x :: x in sys.w.votes && x.vote.phase == PREPARE ==> Legitimate(sys, x.vote.value))
  }

  lemma InitialInv(sys: System)
    requires Initial(sys)
    ensures SystemInv(sys)
  {
    forall p | p in sys.nodes
      ensures Inv(sys.w, sys.nodes[p])
    {
      PrefixOfValid(BaseChain(sys.nodes[p].input), sys.nodes[p].input);
    }
  }

  lemma MovedOk(sys: System, a: Action) returns (s': Instance)
    requires SystemInv(sys) && Enabled(sys, a)
    ensures s' == Moved(sys, a)
    ensures Inv(sys.w, s') && Keeps(sys.w, sys.nodes[a.p], s')
  {
    var w, s := sys.w, sys.nodes[a.p];
    match a {
      case Start(_, queued, envs, pick) =>
        BeginQualityOk(w, s);
        s' := ReceiveManyOk(w, BeginQuality(w.c, s), queued, envs, pick);
        KeepsTransitive(w, s, BeginQuality(w.c, s), s');
      case Deliver(_, m, env) =>
        s' := ReceiveOk(w, s, m, env);
      case Alarm(_, env) =>
        var _ := TryCurrentPhaseOk(w, s, env);
        s' := ReceiveAlarm(w.c, s, env).s;
    }
  }

  /** Every participant keeps what no step takes back. */
  lemma NodesKeep(sys: System, a: Action, q: ActorID)
    requires SystemInv(sys) && Enabled(sys, a) && q in sys.nodes
    ensures q in Apply(sys, a).nodes && Keeps(sys.w, sys.nodes[q], Apply(sys, a).nodes[q])
  {
    var s' := MovedOk(sys, a);
  }

  lemma LegitimacyPersists(sys: System, a: Action, v: Chain)
    requires SystemInv(sys) && Enabled(sys, a)
    requires Legitimate(sys, v)
    ensures Legitimate(Apply(sys, a), v)
  {
    var q :| LegitimateAt(sys, q, v);
    NodesKeep(sys, a, q);
    assert LegitimateAt(Apply(sys, a), q, v);
  }

  /** A newly prepared value is legitimate at its preparer, or was prepared before. */
  lemma NewVotesLegitimate(sys: System, a: Action, x: Signed)
    requires SystemInv(sys) && Enabled(sys, a)
    requires x in SignedBy(a.p, Moved(sys, a).log) && x.vote.phase == PREPARE
    ensures Legitimate(Apply(sys, a), x.vote.value)
  {
    var s' := MovedOk(sys, a);
    var i :| 0 <= i < |s'.log| && x == Signed(a.p, s'.log[i].vote);
    assert EntryOk(sys.w, s'.supplement, s'.input, s'.quality, s'.log, s'.log[i]);
    if LocallyLegitimate(sys.w, s'.input, s'.quality, x.vote.value) {
      assert LegitimateAt(Apply(sys, a), a.p, x.vote.value);
    } else {
      var y :| y in sys.w.votes && y.vote.phase == PREPARE && y.vote.value == x.vote.value;
      LegitimacyPersists(sys, a, x.vote.value);
    }
  }

  lemma VotesLogged(sys: System, a: Action, x: Signed)
    requires SystemInv(sys) && Enabled(sys, a) && x in Apply(sys, a).w.votes
    ensures exists i :: Logged(Apply(sys, a), x, i)
  {
    if x in sys.w.votes {
      NodesKeep(sys, a, x.id);
      StaysLogged(sys, Apply(sys, a), x);
    } else {
      NewlyLogged(Apply(sys, a), a.p, x);
    }
  }

  lemma StaysLogged(sys: System, sys': System, x: Signed)
    requires exists i :: Logged(sys, x, i)
    requires x.id in sys.nodes && x.id in sys'.nodes && sys.nodes[x.id].log <= sys'.nodes[x.id].log
    ensures exists i :: Logged(sys', x, i)
  {
    var i :| Logged(sys, x, i);
    assert Logged(sys', x, i);
  }

  lemma NewlyLogged(sys: System, p: ActorID, x: Signed)
    requires p in sys.nodes && x in SignedBy(p, sys.nodes[p].log)
    ensures exists i :: Logged(sys, x, i)
  {
    var i :| 0 <= i < |sys.nodes[p].log| && x == Signed(p, sys.nodes[p].log[i].vote);
    assert Logged(sys, x, i);
  }

  lemma NodesInv(sys: System, a: Action, p: ActorID)
    requires SystemInv(sys) && Enabled(sys, a) && p in sys.nodes
    ensures Inv(Apply(sys, a).w, Apply(sys, a).nodes[p])
  {
    var s' := MovedOk(sys, a);
    NodeInv(sys.w, Apply(sys, a).w, sys.nodes, Apply(sys, a).nodes, a.p, s', p);
  }

  lemma NodeInv(w: World, w': World, nodes: map<ActorID, Instance>, nodes': map<ActorID, Instance>, moved: ActorID,
      s': Instance, p: ActorID)
    requires Extends(w, w') && nodes' == nodes[moved := s'] && p in nodes && Inv(w, s') && Inv(w, nodes[p])
    ensures Inv(w', nodes'[p])
  {
    InvPersists(w, w', nodes'[p]);
  }

  lemma StepInv(sys: System, a: Action)
    requires SystemInv(sys) && Enabled(sys, a)
    ensures SystemInv(Apply(sys, a))
  {
    var sys' := Apply(sys, a);
    forall p | p in sys'.nodes
      ensures p !in sys'.w.byzantine && Inv(sys'.w, sys'.nodes[p])
    {
      NodesInv(sys, a, p);
    }
    forall x | x in sys'.w.votes
      ensures exists i :: Logged(sys', x, i)
    {
      VotesLogged(sys, a, x);
    }
    forall x | x in sys'.w.votes && x.vote.phase == PREPARE
      ensures Legitimate(sys', x.vote.value)
    {
      if x in sys.w.votes {
        LegitimacyPersists(sys, a, x.vote.value);
      } else {
        NewVotesLegitimate(sys, a, x);
      }
    }
  }

  lemma {:induction false} RunInv(sys: System, acts: seq<Action>)
    requires SystemInv(sys) && Runs(sys, acts)
    ensures SystemInv(After(sys, acts))
    decreases |acts|
  {
    if acts != [] {
      StepInv(sys, acts[0]);
      RunInv(Apply(sys, acts[0]), acts[1..]);
    }
  }

  lemma ReachableInv(sys: System)
    requires Reachable(sys)
    ensures SystemInv(sys)
  {
    var start, acts :| Initial(start) && Runs(start, acts) && sys == After(start, acts);
    InitialInv(start);
    RunInv(start, acts);
  }
}

/** What holds in every reachable state of a run with less than a third Byzantine power. */
module Safety {
  import opened Basics
  import opened Chains
  import opened Power
  import opened Quorums
  import opened Tallies
  import opened Messages
  import opened Instances
  import opened Evidence
  import opened Steps
  import opened Network

  // ---------- votes ----------

  /** The log entry behind a signed vote. */
  lemma EntryOf(sys: System, x: Signed) returns (b: Broadcast)
    requires SystemInv(sys) && x in sys.w.votes
    ensures x.id in sys.nodes && b.vote == x.vote
    ensures var s := sys.nodes[x.id]; EntryOk(sys.w, s.supplement, s.input, s.quality, s.log, b)
  {
    var i :| Logged(sys, x, i);
    b := sys.nodes[x.id].log[i];
  }

  /** An honest participant signs at most one vote per round and phase. */
  lemma SingleVote(sys: System, x: Signed, y: Signed)
    requires SystemInv(sys) && x in sys.w.votes && y in sys.w.votes
    requires x.id == y.id && x.vote.round == y.vote.round && x.vote.phase == y.vote.phase
    ensures x == y
  {
    var i :| Logged(sys, x, i);
    var j :| Logged(sys, y, j);
    OneEntry(sys.w, sys.nodes[x.id], i, j);
  }

  lemma OneEntry(w: World, s: Instance, i: int, j: int)
    requires LogOk(w, s) && 0 <= i < |s.log| && 0 <= j < |s.log|
    requires s.log[i].vote.round == s.log[j].vote.round && s.log[i].vote.phase == s.log[j].vote.phase
    ensures i == j
  {
    assert i < j ==> Before(s.log[i].vote, s.log[j].vote);
    assert j < i ==> Before(s.log[j].vote, s.log[i].vote);
  }

  /** Two quorums of the same round and phase are for the same vote. */
  lemma QuorumsAgree(sys: System, j: Justification, k: Justification)
    requires SystemInv(sys) && ValidJustification(sys.w, j) && ValidJustification(sys.w, k)
    requires j.vote.round == k.vote.round && j.vote.phase == k.vote.phase
    ensures j.vote == k.vote
  {
    var t := sys.w.c.table;
    var i := QuorumsShareHonest(t, sys.w.byzantine, j.signers, k.signers);
    SingleVote(sys, Signed(t.entries[i].id, j.vote), Signed(t.entries[i].id, k.vote));
  }

  /** Behind a quorum for a vote that needs justification there is a valid justification. */
  lemma QuorumIsBacked(sys: System, j: Justification)
    requires SystemInv(sys) && ValidJustification(sys.w, j) && NeedsJustification(j.vote)
    ensures Backed(sys.w, j.vote)
  {
    var x := HonestSigner(sys.w, j);
    var b := EntryOf(sys, x);
    assert ValidJustification(sys.w, b.justification.value);
  }

  // ---------- agreement ----------

  /** Once a strong quorum has committed `v` in a round, every PREPARE or CONVERGE that anyone
      could accept in a later round is for `v`. */
  lemma {:induction false} Locked(sys: System, j: Justification, x: Payload)
    requires SystemInv(sys) && ValidJustification(sys.w, j)
    requires j.vote.phase == COMMIT && j.vote.value != BOTTOM
    requires x.phase == PREPARE || x.phase == CONVERGE
    requires x.round > j.vote.round && Backed(sys.w, x)
    ensures x.value == j.vote.value && x.supplement == j.vote.supplement
    decreases x.round, 0
  {
    var k :| ValidJustification(sys.w, k) && Justifies(k.vote, x);
    if k.vote.phase == COMMIT {
      if k.vote.round == j.vote.round {
        QuorumsAgree(sys, j, k);
        assert false;
      } else {
        NoBottomCommit(sys, j, k);
        assert false;
      }
    } else if k.vote.round == j.vote.round {
      QuorumIsBacked(sys, j);
      var l :| ValidJustification(sys.w, l) && Justifies(l.vote, j.vote);
      QuorumsAgree(sys, k, l);
    } else {
      QuorumIsBacked(sys, k);
      Locked(sys, j, k.vote);
    }
  }

  /** ... and no strong quorum commits bottom in a later round. */
  lemma {:induction false} NoBottomCommit(sys: System, j: Justification, k: Justification)
    requires SystemInv(sys) && ValidJustification(sys.w, j) && ValidJustification(sys.w, k)
    requires j.vote.phase == COMMIT && j.vote.value != BOTTOM
    requires k.vote.phase == COMMIT && k.vote.round > j.vote.round
    ensures k.vote.value != BOTTOM
    decreases k.vote.round, 2
  {
    if k.vote.value == BOTTOM {
      var x := HonestSigner(sys.w, k);
      NoHonestBottomCommit(sys, j, x);
    }
  }

  lemma OwnPrepareBacked(sys: System, p: ActorID, n: int)
    requires SystemInv(sys) && p in sys.nodes && 0 <= n < |sys.nodes[p].log|
    requires sys.nodes[p].log[n].vote.phase == PREPARE && sys.nodes[p].log[n].vote.round > 0
    ensures Backed(sys.w, sys.nodes[p].log[n].vote)
  {
    var s := sys.nodes[p];
    assert EntryOk(sys.w, s.supplement, s.input, s.quality, s.log, s.log[n]);
    assert ValidJustification(sys.w, s.log[n].justification.value);
  }

  /** ... because no honest participant commits bottom in a later round. */
  lemma {:induction false} NoHonestBottomCommit(sys: System, j: Justification, x: Signed)
    requires SystemInv(sys) && ValidJustification(sys.w, j)
    requires j.vote.phase == COMMIT && j.vote.value != BOTTOM
    requires x in sys.w.votes && x.vote.phase == COMMIT && x.vote.round > j.vote.round
    ensures x.vote.value != BOTTOM
    decreases x.vote.round, 1
  {
    if x.vote.value == BOTTOM {
      var b := EntryOf(sys, x);
      var s := sys.nodes[x.id];
      var n, u :| Disputed(sys.w, s.log, n, u, x.vote);
      Locked(sys, j, x.vote.(phase := PREPARE, value := u));
      OwnPrepareBacked(sys, x.id, n);
      Locked(sys, j, s.log[n].vote);
    }
  }

  /** Any two quorums of COMMIT for proper values, in whatever rounds, are for the same value. */
  lemma CommitsAgree(sys: System, j: Justification, k: Justification)
    requires SystemInv(sys) && ValidJustification(sys.w, j) && ValidJustification(sys.w, k)
    requires j.vote.phase == COMMIT && j.vote.value != BOTTOM
    requires k.vote.phase == COMMIT && k.vote.value != BOTTOM
    requires j.vote.round <= k.vote.round
    ensures j.vote.value == k.vote.value && j.vote.supplement == k.vote.supplement
  {
    if j.vote.round == k.vote.round {
      QuorumsAgree(sys, j, k);
    } else {
      QuorumIsBacked(sys, k);
      var l :| ValidJustification(sys.w, l) && Justifies(l.vote, k.vote);
      QuorumIsBacked(sys, l);
      Locked(sys, j, l.vote);
    }
  }

  /** Behind a quorum of DECIDE stands a quorum of COMMIT for the same value. */
  lemma DecisionCommitted(sys: System, d: Justification) returns (j: Justification)
    requires SystemInv(sys) && ValidJustification(sys.w, d) && d.vote.phase == DECIDE
    ensures ValidJustification(sys.w, j) && j.vote.phase == COMMIT
    ensures j.vote.value == d.vote.value != BOTTOM && j.vote.supplement == d.vote.supplement
  {
    QuorumIsBacked(sys, d);
    j :| ValidJustification(sys.w, j) && Justifies(j.vote, d.vote);
    var x := HonestSigner(sys.w, d);
    var b := EntryOf(sys, x);
  }

  /** Any two quorums of DECIDE are for the same value. */
  lemma DecisionsAgree(sys: System, d: Justification, e: Justification)
    requires Reachable(sys) && ValidJustification(sys.w, d) && ValidJustification(sys.w, e)
    requires d.vote.phase == DECIDE && e.vote.phase == DECIDE
    ensures d.vote.value == e.vote.value && d.vote.supplement == e.vote.supplement
  {
    ReachableInv(sys);
    var j := DecisionCommitted(sys, d);
    var k := DecisionCommitted(sys, e);
    if j.vote.round <= k.vote.round {
      CommitsAgree(sys, j, k);
    } else {
      CommitsAgree(sys, k, j);
    }
  }

  /** No two honest participants terminate the instance with different chains. */
  lemma Agreement(sys: System, p: ActorID, q: ActorID)
    requires Reachable(sys)
    requires p in sys.nodes && sys.nodes[p].phase == TERMINATED
    requires q in sys.nodes && sys.nodes[q].phase == TERMINATED
    ensures sys.nodes[p].value == sys.nodes[q].value
    ensures sys.nodes[p].terminationValue.Some? && sys.nodes[q].terminationValue.Some?
    ensures sys.nodes[p].terminationValue.value.vote == sys.nodes[q].terminationValue.value.vote
  {
    ReachableInv(sys);
    DecisionsAgree(sys, sys.nodes[p].terminationValue.value, sys.nodes[q].terminationValue.value);
  }

  // ---------- validity ----------

  /** Every decided chain is the base chain of an honest participant or a prefix of its input for
      which it has counted a strong quorum of QUALITY votes. */
  lemma Validity(sys: System, p: ActorID)
    requires Reachable(sys)
    requires p in sys.nodes && sys.nodes[p].phase == TERMINATED
    ensures Legitimate(sys, sys.nodes[p].value)
  {
    ReachableInv(sys);
    var j := DecisionCommitted(sys, sys.nodes[p].terminationValue.value);
    CommittedIsLegitimate(sys, j);
  }

  lemma CommittedIsLegitimate(sys: System, j: Justification)
    requires SystemInv(sys) && ValidJustification(sys.w, j) && j.vote.phase == COMMIT && j.vote.value != BOTTOM
    ensures Legitimate(sys, j.vote.value)
  {
    QuorumIsBacked(sys, j);
    var l :| ValidJustification(sys.w, l) && Justifies(l.vote, j.vote);
    var x := HonestSigner(sys.w, l);
  }

  /** The honest participants whose inputs extend `v`. */
  ghost function Extenders(sys: System, v: Chain): set<ActorID> {
    set q | q in sys.nodes && v <= sys.nodes[q].input
  }

  /** A legitimate chain beyond the base was proposed, as a prefix of their inputs, by honest
      participants holding a strong quorum of the power less what is Byzantine. */
  lemma LegitimateWasProposed(sys: System, q: ActorID, v: Chain)
    requires SystemInv(sys) && LegitimateAt(sys, q, v) && v != BaseChain(sys.nodes[q].input)
    ensures var t := sys.w.c.table;
      IsStrongQuorum(PowerOf(t, Extenders(sys, v)) + PowerOf(t, sys.w.byzantine), t.scaledTotal)
  {
    var t := sys.w.c.table;
    var quality := sys.nodes[q].quality;
    var voters := PrefixSupporters(quality, v);
    forall id | id in voters && id !in sys.w.byzantine
      ensures id in Extenders(sys, v)
    {
      var x := Signed(id, VoteAt(sys.w.c, sys.nodes[q].supplement, 0, QUALITY, quality[id]));
      var b := EntryOf(sys, x);
    }
    var honest := Extenders(sys, v);
    PowerOfDisjoint(t, honest, sys.w.byzantine - honest);
    PowerOfMonotone(t, voters, honest + (sys.w.byzantine - honest));
    PowerOfMonotone(t, sys.w.byzantine - honest, sys.w.byzantine);
  }

  // ---------- closure, panics, order ----------

  /** Whatever an honest participant with power broadcasts keeps every rule, without the wildcard. */
  lemma Closure(sys: System, p: ActorID, i: nat, signature: Bytes, ticket: Rank)
    requires Reachable(sys)
    requires p in sys.nodes && i < |sys.nodes[p].log| && Get(sys.w.c.table, p) > 0
    ensures var b := sys.nodes[p].log[i];
      && VoteRules(b.vote, b.justification)
      && ValidMessage(sys.w, GMessage(p, b.vote, signature, ticket, b.justification))
  {
    var start, acts :| Initial(start) && Runs(start, acts) && sys == After(start, acts);
    ReachableInv(sys);
    InitialInv(start);
    RunLogsSigned(start, acts, p);
    assert EntryOk(sys.w, sys.nodes[p].supplement, sys.nodes[p].input, sys.nodes[p].quality,
                   sys.nodes[p].log, sys.nodes[p].log[i]);
  }

  ghost predicate LogSigned(sys: System, p: ActorID) {
    p in sys.nodes ==>
      forall i :: 0 <= i < |sys.nodes[p].log| ==> Signed(p, sys.nodes[p].log[i].vote) in sys.w.votes
  }

  lemma StepLogSigned(sys: System, a: Action, p: ActorID)
    requires Enabled(sys, a) && LogSigned(sys, p)
    ensures LogSigned(Apply(sys, a), p)
  {
  }

  /** Every message sent is in the set of signed votes. */
  lemma {:induction false} RunLogsSigned(sys: System, acts: seq<Action>, p: ActorID)
    requires Runs(sys, acts) && LogSigned(sys, p)
    ensures LogSigned(After(sys, acts), p)
    decreases |acts|
  {
    if acts != [] {
      StepLogSigned(sys, acts[0], p);
      RunLogsSigned(Apply(sys, acts[0]), acts[1..], p);
    }
  }

  /** No run fed with valid messages reaches a panic. */
  lemma NoPanic(sys: System, p: ActorID)
    requires Reachable(sys) && p in sys.nodes
    ensures !sys.nodes[p].panicked
  {
    ReachableInv(sys);
  }

  /** Every step moves its participant forward, and termination is permanent. */
  lemma Monotone(sys: System, a: Action, p: ActorID)
    requires Reachable(sys) && Enabled(sys, a) && p in sys.nodes
    ensures Forward(sys.nodes[p], Apply(sys, a).nodes[p])
    ensures sys.nodes[p].log <= Apply(sys, a).nodes[p].log
  {
    ReachableInv(sys);
    var s' := MovedOk(sys, a);
  }

  /** A participant's messages come in strictly increasing (decided, round, phase), so it sends at
      most one message per round and phase. */
  lemma OneMessagePerPhase(sys: System, p: ActorID, i: nat, j: nat)
    requires Reachable(sys) && p in sys.nodes && i < j < |sys.nodes[p].log|
    ensures Before(sys.nodes[p].log[i].vote, sys.nodes[p].log[j].vote)
    ensures sys.nodes[p].log[i].vote.round != sys.nodes[p].log[j].vote.round
            || sys.nodes[p].log[i].vote.phase != sys.nodes[p].log[j].vote.phase
  {
    ReachableInv(sys);
  }

  // ---------- no false negatives ----------

  /** If a strong quorum for `v` exists anywhere in a round and phase, then no honest participant's
      tally of it rules `v` out. */
  lemma NoFalseNegatives(sys: System, p: ActorID, j: Justification)
    requires Reachable(sys) && p in sys.nodes && ValidJustification(sys.w, j)
    ensures j.vote.phase == COMMIT ==>
      CouldReach(sys.w.c.table, GetRound(sys.nodes[p], j.vote.round).committed, j.vote.value, true)
    ensures j.vote.phase == PREPARE ==>
      CouldReach(sys.w.c.table, GetRound(sys.nodes[p], j.vote.round).prepared, j.vote.value, true)
  {
    ReachableInv(sys);
    var s := sys.nodes[p];
    GetRoundOk(sys.w, s, j.vote.round);
    if j.vote.phase == COMMIT {
      TallyCannotExclude(sys, s.supplement, GetRound(s, j.vote.round).committed, j);
    } else if j.vote.phase == PREPARE {
      TallyCannotExclude(sys, s.supplement, GetRound(s, j.vote.round).prepared, j);
    }
  }

  lemma TallyCannotExclude(sys: System, sd: SupplementalData, t: Tally, j: Justification)
    requires SystemInv(sys) && ValidJustification(sys.w, j)
    requires forall id :: id in t ==> GoodVote(sys.w, sd, id, j.vote.round, j.vote.phase, t[id])
    ensures CouldReach(sys.w.c.table, t, j.vote.value, true)
  {
    var p := sys.w.c.table;
    forall i | i in j.signers && i < |p.entries| && p.entries[i].id !in sys.w.byzantine && p.entries[i].id in t
      ensures t[p.entries[i].id] == j.vote.value
    {
      var id := p.entries[i].id;
      assert GoodVote(sys.w, sd, id, j.vote.round, j.vote.phase, t[id]);
      SingleVote(sys, Signed(id, j.vote),
                 Signed(id, VoteAt(sys.w.c, sd, j.vote.round, j.vote.phase, t[id])));
    }
    CouldReachSound(p, t, j.vote.value, j.signers, sys.w.byzantine);
  }
}
