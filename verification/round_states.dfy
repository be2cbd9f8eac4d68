/** The tallies of every round, created on demand and updated in place (gpbft/gpbft.go). */
module RoundStates {
  import opened Basics
  import opened Chains
  import opened Power
  import opened Tallies
  import opened Messages
  import opened Instances
  import opened QuorumStates
  import opened ConvergeStates

  datatype RoundState = RoundState(converged: ConvergeState, prepared: QuorumState, committed: QuorumState)

  ghost predicate TallyOk(q: QuorumState, t: PowerTable)
    reads q
  {
    q.Valid() && !q.eachPrefix && q.table == t
  }

  /** The value that the objects of a round stand for, when they are in order. */
  ghost function View(rs: RoundState, t: PowerTable): Option<Round>
    reads rs.converged, rs.prepared, rs.committed
  {
    if
      && rs.prepared != rs.committed && BOTTOM !in rs.converged.values
      && TallyOk(rs.prepared, t) && TallyOk(rs.committed, t)
    then
      Some(Round(rs.prepared.votes, rs.prepared.receivedJustification,
                 rs.committed.votes, rs.committed.receivedJustification,
                 rs.converged.senders, rs.converged.values))
    else None
  }

  ghost function ViewAt(views: map<nat, Round>, r: nat): Round {
    if r in views then views[r] else EMPTY_ROUND
  }

  ghost function Parts(rs: RoundState): set<object> {
    {rs.converged, rs.prepared, rs.committed}
  }

  /** The objects of different rounds are different. */
  ghost predicate AtRound(rs: RoundState, r: nat) {
    rs.converged.round == r && rs.prepared.round == r && rs.committed.round == r
  }

  ghost predicate Shows(rs: RoundState, r: nat, rd: Round, t: PowerTable)
    reads rs.converged, rs.prepared, rs.committed
  {
    AtRound(rs, r) && View(rs, t) == Some(rd)
  }

  method NewRoundState(t: PowerTable, ghost r: nat) returns (rs: RoundState)
    ensures fresh(Parts(rs)) && AtRound(rs, r) && View(rs, t) == Some(EMPTY_ROUND)
  {
    var converged := new ConvergeState(r);
    var prepared := new QuorumState(t, false, r);
    var committed := new QuorumState(t, false, r);
    rs := RoundState(converged, prepared, committed);
  }

  // ---------- one round ----------

  method AddConverge(rs: RoundState, t: PowerTable, m: GMessage) returns (ok: bool)
    requires View(rs, t).Some?
    modifies rs.converged
    ensures ok <==> m.vote.value != BOTTOM && m.justification.Some?
    ensures View(rs, t) ==
      if ok then Some(RecordConverge(old(View(rs, t)).value, m, m.justification.value)) else old(View(rs, t))
  {
    ok := rs.converged.Receive(m, View(rs, t).value);
  }

  method AddSelf(rs: RoundState, t: PowerTable, v: Chain, j: Justification)
    requires View(rs, t).Some? && v != BOTTOM
    modifies rs.converged
    ensures View(rs, t) == Some(WithSelfValue(old(View(rs, t)).value, v, j))
  {
    rs.converged.SetSelfValue(v, j, View(rs, t).value);
  }

  method AddPrepare(rs: RoundState, t: PowerTable, m: GMessage)
    requires View(rs, t).Some?
    modifies rs.prepared
    ensures View(rs, t) == Some(RecordPrepare(old(View(rs, t)).value, m))
  {
    rs.prepared.Receive(m.sender, m.vote.value, m.signature);
    if m.justification.Some? {
      rs.prepared.ReceiveJustification(m.vote.value, m.justification.value);
    }
  }

  method AddCommit(rs: RoundState, t: PowerTable, m: GMessage)
    requires View(rs, t).Some?
    modifies rs.committed
    ensures View(rs, t) == Some(RecordCommit(old(View(rs, t)).value, m))
  {
    rs.committed.Receive(m.sender, m.vote.value, m.signature);
    if m.vote.value != BOTTOM && m.justification.Some? {
      rs.committed.ReceiveJustification(m.vote.value, m.justification.value);
    }
  }

  // ---------- questions about rounds ----------

  /** Evidence of a PREPARE quorum that came with a COMMIT or with a message of the next round. */
  method FindEvidence(current: RoundState, next: RoundState, t: PowerTable, v: Chain) returns (j: Option<Justification>)
    requires View(current, t).Some? && View(next, t).Some? && v != BOTTOM
    ensures j == EvidenceIn(View(current, t).value, View(next, t).value, v)
  {
    j := current.committed.GetJustificationOf(PREPARE, v);
    if j.None? {
      j := next.prepared.GetJustificationOf(PREPARE, v);
    }
    if j.None? {
      j := next.converged.GetJustificationOf(PREPARE, v);
    }
  }

  /** A justification signed by the smallest quorum for a value; None when the code panics. */
  method BuildFrom(c: Config, sd: SupplementalData, q: QuorumState, r: nat, p: Phase, v: Chain)
    returns (found: bool, j: Option<Justification>)
    requires TallyOk(q, c.table)
    ensures found == HasQuorum(c.table, q.votes, v)
    ensures j == if found then Built(c, sd, q.votes, r, p, v) else None
  {
    var signers, signatures, panics;
    found, signers, signatures, panics := q.FindStrongQuorumFor(v);
    if !found || panics {
      return found, None;
    }
    var vote := VoteAt(c, sd, r, p, v);
    j := Some(Justification(vote, ToSet(signers), c.aggregate(ToSet(signers), vote)));
  }

  /** What a DECIDE for `v` is justified by. */
  method FindDecideEvidence(c: Config, sd: SupplementalData, r: nat, rs: RoundState, v: Chain, ghost rd: Round)
    returns (j: Option<Justification>)
    requires View(rs, c.table) == Some(rd)
    ensures j == if HasQuorum(c.table, rd.committed, v) then Built(c, sd, rd.committed, r, COMMIT, v) else None
  {
    var found;
    found, j := BuildFrom(c, sd, rs.committed, r, COMMIT, v);
  }

  /** What a COMMIT for `v` is justified by. */
  method FindCommitEvidence(c: Config, sd: SupplementalData, r: nat, current: RoundState, next: RoundState, v: Chain)
    returns (j: Option<Justification>)
    requires View(current, c.table).Some? && View(next, c.table).Some? && v != BOTTOM
    ensures j == CommitEvidence(c, sd, r, View(current, c.table).value, View(next, c.table).value, v)
  {
    var found;
    found, j := BuildFrom(c, sd, current.prepared, r, PREPARE, v);
    if !found {
      j := FindEvidence(current, next, c.table, v);
    }
  }

  /** Whether PREPARE ends, with the proposal or with bottom. */
  method EndsPrepare(current: RoundState, next: RoundState, t: PowerTable, v: Chain, elapsed: bool)
    returns (supported: bool, over: bool)
    requires View(current, t).Some? && View(next, t).Some? && v != BOTTOM
    ensures supported == Supported(t, View(current, t).value, View(next, t).value, v)
    ensures over == Hopeless(t, View(current, t).value, v, elapsed)
  {
    supported := current.prepared.HasStrongQuorumFor(v);
    var possible := current.prepared.CouldReachStrongQuorumFor(v, false);
    var heard := current.prepared.HasReceivedFromStrongQuorum();
    var evidence := FindEvidence(current, next, t, v);
    supported, over := supported || evidence.Some?, !possible || (elapsed && heard);
  }

  method FindAdmissible(t: PowerTable, candidates: set<Chain>, now: RoundState, previous: RoundState)
    returns (among: set<Chain>)
    requires View(now, t).Some? && View(previous, t).Some?
    ensures among == AdmissibleIn(t, candidates, View(now, t).value, View(previous, t).value)
  {
    among := {};
    ghost var rd, rp := View(now, t).value, View(previous, t).value;
    var todo := now.converged.values.Keys;
    while todo != {}
      invariant todo <= rd.converged.Keys
      invariant forall v :: v in among <==> v in rd.converged.Keys - todo && Admits(t, candidates, rd, rp, v)
      decreases |todo|
    {
      var v :| v in todo;
      todo := todo - {v};
      var admitted := v in candidates;
      if !admitted && now.converged.values[v].justification.vote.phase == PREPARE {
        admitted := previous.committed.CouldReachStrongQuorumFor(v, true);
      }
      if admitted {
        among := among + {v};
      }
    }
  }

  /** The best admissible value, if there is one. */
  method FindBest(t: PowerTable, candidates: set<Chain>, now: RoundState, previous: RoundState, ghost rd: Round,
      ghost rp: Round)
    returns (best: Option<Chain>, j: Option<Justification>)
    requires View(now, t) == Some(rd) && View(previous, t) == Some(rp)
    ensures IsBestOf(rd.converged, AdmissibleIn(t, candidates, rd, rp), best)
    ensures best.Some? ==> best.value != BOTTOM && j == Some(rd.converged[best.value].justification)
  {
    var among := FindAdmissible(t, candidates, now, previous);
    best := now.converged.FindBestTicketProposal(among);
    j := if best.Some? then Some(now.converged.values[best.value].justification) else None;
  }

  ghost predicate IsBestOf(converged: map<Chain, ConvergeValue>, among: set<Chain>, best: Option<Chain>) {
    match best
    case Some(v) => IsBest(converged, among, v)
    case None => forall v :: v in converged ==> v !in among
  }

  /** What is found out about COMMIT of a round. */
  datatype CommitCount = CommitCount(many: bool, found: bool, value: Chain, heard: bool, bottomJustified: bool)

  /** The right counts; which value is reported is left open when several have a quorum. */
  ghost function Counts(t: PowerTable, now: Round, next: Round): iset<CommitCount> {
    iset n: CommitCount | IsCount(t, now, next, n)
  }

  ghost predicate IsCount(t: PowerTable, now: Round, next: Round, n: CommitCount) {
    && (n.many <==> exists v, w :: v != w && HasQuorum(t, now.committed, v) && HasQuorum(t, now.committed, w))
    && (!n.many ==> (n.found <==> exists v :: HasQuorum(t, now.committed, v)))
    && (!n.many && n.found ==> HasQuorum(t, now.committed, n.value))
    && n.heard == ReceivedFromStrongQuorum(t, now.committed)
    && n.bottomJustified == HasBottom(next)
  }

  method CountCommits(t: PowerTable, now: RoundState, next: RoundState, ghost rd: Round, ghost rn: Round)
    returns (n: CommitCount)
    requires View(now, t) == Some(rd) && View(next, t) == Some(rn)
    ensures n in Counts(t, rd, rn)
  {
    var found, value, many := now.committed.FindStrongQuorumValue();
    var heard := now.committed.HasReceivedFromStrongQuorum();
    var j, pick := FindBottom(next, t);
    n := CommitCount(many, found, value, heard, j.Some?);
  }

  /** A justification of COMMIT for bottom that came with a PREPARE or CONVERGE of the round. */
  method FindBottom(rs: RoundState, t: PowerTable) returns (j: Option<Justification>, ghost pick: Chain)
    requires View(rs, t).Some?
    ensures IsBottom(View(rs, t).value, j, pick)
    ensures j.Some? <==> HasBottom(View(rs, t).value)
    ensures j.Some? ==> JustifiesBottom(j.value, COMMIT)
  {
    j, pick := rs.prepared.GetJustificationOfBottom(COMMIT);
    if j.None? {
      j, pick := rs.converged.GetJustificationOfBottom(COMMIT);
      ghost var m := ConvergeJust(View(rs, t).value);
      assert j.Some? ==> pick in m && JustifiesBottom(m[pick], COMMIT);
    }
  }

  ghost predicate IsBottom(rd: Round, j: Option<Justification>, pick: Chain) {
    if HasBottomJustification(rd.preparedJust, COMMIT) then
      j == Some(BottomJustification(rd.preparedJust, COMMIT, pick))
    else if HasBottomJustification(ConvergeJust(rd), COMMIT) then
      j == Some(BottomJustification(ConvergeJust(rd), COMMIT, pick))
    else j == None
  }

  /** A committed value other than bottom, if there is one. */
  method FindCommitted(rs: RoundState, t: PowerTable) returns (v: Option<Chain>)
    requires View(rs, t).Some?
    ensures v == CommittedValue(View(rs, t).value.committed, if v.Some? then v.value else BOTTOM)
  {
    var values := rs.committed.ListAllValues();
    for i := 0 to |values|
      invariant forall k :: 0 <= k < i ==> values[k] == BOTTOM
    {
      if values[i] != BOTTOM {
        assert values[i] in rs.committed.votes.Values;
        return Some(values[i]);
      }
    }
    v := None;
    forall id | id in rs.committed.votes
      ensures rs.committed.votes[id] == BOTTOM
    {
      assert rs.committed.votes[id] in values;
    }
  }

  /** What justifies leaving a round for the next. */
  method FindNextJustification(c: Config, sd: SupplementalData, r: nat, now: RoundState, next: RoundState,
      proposal: Chain)
    returns (j: Option<Justification>, ghost pick: Chain)
    requires View(now, c.table).Some? && View(next, c.table).Some?
    ensures j == NextEvidence(c, sd, r, View(now, c.table).value, View(next, c.table).value, proposal, pick)
    ensures HasQuorum(c.table, View(now, c.table).value.committed, BOTTOM) ==>
      j == Built(c, sd, View(now, c.table).value.committed, r, COMMIT, BOTTOM)
  {
    pick := BOTTOM;
    var found;
    found, j := BuildFrom(c, sd, now.committed, r, COMMIT, BOTTOM);
    if found {
      return;
    }
    j, pick := FindBottom(next, c.table);
    if j.None? && proposal in now.committed.receivedJustification {
      j := Some(now.committed.receivedJustification[proposal]);
    }
  }

  /** Whether a weak quorum has been heard from in PREPARE, and the best CONVERGE value. */
  method FindReady(rs: RoundState, t: PowerTable) returns (ready: bool, best: Option<Chain>, j: Option<Justification>)
    requires View(rs, t).Some?
    ensures ready == ReceivedFromWeakQuorum(t, View(rs, t).value.prepared)
    ensures best.None? <==> View(rs, t).value.converged.Keys == {}
    ensures best.Some? ==>
      var converged := View(rs, t).value.converged;
      && best.value != BOTTOM && IsBest(converged, converged.Keys, best.value)
      && j == Some(converged[best.value].justification)
  {
    ready := rs.prepared.HasReceivedFromWeakQuorum();
    best := rs.converged.FindBestTicketProposal(rs.converged.values.Keys);
    j := if best.Some? then Some(rs.converged.values[best.value].justification) else None;
  }

  // ---------- skipping ----------

  /** `v` has the best ticket of the round. */
  ghost predicate SkipsOn(rd: Round, v: Chain, j: Justification) {
    v != BOTTOM && IsBest(rd.converged, rd.converged.Keys, v) && j == rd.converged[v].justification
  }

  datatype SkipChoice = Stay | Skip(value: Chain, justification: Justification)

  /** The answer when asked whether to skip to a round. */
  ghost predicate IsChoice(t: PowerTable, round: nat, phase: Phase, r: nat, rd: Round, choice: SkipChoice) {
    && choice.Skip? == SkipsIn(t, round, phase, r, rd)
    && (choice.Skip? ==> SkipsOn(rd, choice.value, choice.justification))
  }

  method ChooseSkip(rs: RoundState, t: PowerTable, round: nat, phase: Phase, r: nat, ghost rd: Round)
    returns (choice: SkipChoice)
    requires View(rs, t) == Some(rd)
    ensures IsChoice(t, round, phase, r, rd, choice)
  {
    var ready, best, j := FindReady(rs, t);
    if r <= round || phase == DECIDE || !ready || best.None? {
      return Stay;
    }
    choice := Skip(best.value, j.value);
  }

  // ---------- all rounds ----------

  class RoundTable {
    const table: PowerTable
    var states: map<nat, RoundState>
    /** The rounds that messages have changed, and the objects that rounds are made of. */
    ghost var views: map<nat, Round>
    ghost var parts: set<object>

    ghost predicate RoundOk(r: nat)
      requires r in states
      reads this, parts
    {
      Parts(states[r]) <= parts && Shows(states[r], r, ViewAt(views, r), table)
    }

    ghost predicate Valid()
      reads this, parts
    {
      && views.Keys <= states.Keys && this !in parts
      && (forall r :: r in states ==> RoundOk(r))
    }

    ghost function Contents(): Option<map<nat, Round>>
      reads this, parts
    {
      if Valid() then Some(views) else None
    }

    constructor (table: PowerTable)
      ensures Valid() && views == map[] && this.table == table && fresh(parts)
    {
      this.table := table;
      states, views, parts := map[], map[], {};
    }

    method Get(r: nat) returns (rs: RoundState)
      requires Valid()
      modifies `states, `parts
      ensures Valid() && r in states && rs == states[r]
      ensures old(states).Keys <= states.Keys
      ensures forall k :: k in old(states) ==> states[k] == old(states)[k]
      ensures fresh(parts - old(parts)) && old(parts) <= parts
    {
      if r !in states {
        Create(r);
      }
      rs := states[r];
    }

    method GetPair(r: nat, r': nat) returns (a: RoundState, b: RoundState)
      requires Valid()
      modifies `states, `parts
      ensures Valid() && fresh(parts - old(parts)) && old(parts) <= parts
      ensures View(a, table) == Some(ViewAt(views, r)) && View(b, table) == Some(ViewAt(views, r'))
    {
      a := Get(r);
      b := Get(r');
      assert RoundOk(r) && RoundOk(r');
    }

    method CountCommitsAt(r: nat, r': nat) returns (n: CommitCount)
      requires Valid()
      modifies `states, `parts
      ensures Valid() && fresh(parts - old(parts)) && old(parts) <= parts
      ensures n in Counts(table, ViewAt(views, r), ViewAt(views, r'))
    {
      var now, next := GetPair(r, r');
      n := CountCommits(table, now, next, ViewAt(views, r), ViewAt(views, r'));
    }

    /** The best value of a round that its predecessor admits. */
    method BestAt(candidates: set<Chain>, r: nat, r': nat) returns (best: Option<Chain>, j: Option<Justification>)
      requires Valid()
      modifies `states, `parts
      ensures Valid() && fresh(parts - old(parts)) && old(parts) <= parts
      ensures IsBestOf(
        ViewAt(views, r).converged, AdmissibleIn(table, candidates, ViewAt(views, r), ViewAt(views, r')), best)
      ensures best.Some? ==> best.value != BOTTOM && j == Some(ViewAt(views, r).converged[best.value].justification)
    {
      var now, previous := GetPair(r, r');
      best, j := FindBest(table, candidates, now, previous, ViewAt(views, r), ViewAt(views, r'));
    }

    /** What a DECIDE on the COMMIT votes of a round is justified by. */
    method DecideEvidenceAt(c: Config, sd: SupplementalData, r: nat, v: Chain) returns (j: Option<Justification>)
      requires Valid() && c.table == table
      modifies `states, `parts
      ensures Valid() && fresh(parts - old(parts)) && old(parts) <= parts
      ensures var committed := ViewAt(views, r).committed;
        j == if HasQuorum(table, committed, v) then Built(c, sd, committed, r, COMMIT, v) else None
    {
      var rs := Get(r);
      assert RoundOk(r);
      j := FindDecideEvidence(c, sd, r, rs, v, ViewAt(views, r));
    }

    method CommittedAt(r: nat) returns (v: Option<Chain>)
      requires Valid()
      modifies `states, `parts
      ensures Valid() && fresh(parts - old(parts)) && old(parts) <= parts
      ensures v == CommittedValue(ViewAt(views, r).committed, if v.Some? then v.value else BOTTOM)
    {
      var rs := Get(r);
      assert RoundOk(r);
      v := FindCommitted(rs, table);
    }

    /** The value and the justification to skip to a round with, if it should be skipped to. */
    method ShouldSkipTo(round: nat, phase: Phase, r: nat) returns (choice: SkipChoice)
      requires Valid()
      modifies `states, `parts
      ensures Valid() && fresh(parts - old(parts)) && old(parts) <= parts
      ensures IsChoice(table, round, phase, r, ViewAt(views, r), choice)
    {
      var rs := Get(r);
      assert RoundOk(r);
      choice := ChooseSkip(rs, table, round, phase, r, ViewAt(views, r));
    }

    method Create(r: nat)
      requires Valid() && r !in states
      modifies `states, `parts
      ensures Valid() && r in states && states == old(states)[r := states[r]]
      ensures fresh(parts - old(parts)) && old(parts) <= parts
    {
      var rs := NewRoundState(table, r);
      assert Valid();
      Grown(r, rs);
      states := states[r := rs];
      parts := parts + Parts(rs);
      Join(r);
    }

    /** The rounds other than `r`, whose objects are not those of `r`. */
    ghost predicate OthersShow(r: nat, views: map<nat, Round>)
      requires r in states
      reads `states, `parts, parts - Parts(states[r])
    {
      forall k :: k in states && k != r ==>
        Parts(states[k]) <= parts - Parts(states[r]) && Shows(states[k], k, ViewAt(views, k), table)
    }

    lemma Split(r: nat)
      requires Valid() && r in states
      ensures OthersShow(r, views)
    {
      assert RoundOk(r);
      forall k | k in states && k != r
        ensures RoundOk(k)
        ensures Parts(states[k]) <= parts - Parts(states[r])
      {
        assert RoundOk(k);
      }
    }

    lemma Join(r: nat)
      requires r in states && OthersShow(r, views) && RoundOk(r)
      ensures forall k :: k in states ==> RoundOk(k)
    {
      forall k | k in states
        ensures RoundOk(k)
      {
        assert k == r || Parts(states[k]) <= parts - Parts(states[r]);
      }
    }

    lemma OthersAfter(r: nat, rd: Round)
      requires r in states && OthersShow(r, views)
      ensures OthersShow(r, views[r := rd])
    {
      forall k | k in states && k != r
        ensures ViewAt(views[r := rd], k) == ViewAt(views, k)
      {
      }
    }

    /** What the other rounds show does not depend on the objects added for round `r`. */
    lemma Grown(r: nat, rs: RoundState)
      requires Valid() && r !in states && Parts(rs) !! parts
      ensures forall k :: k in states ==>
        Shows(states[k], k, ViewAt(views, k), table) && Parts(states[k]) <= parts + Parts(rs) - Parts(rs)
    {
      forall k | k in states
        ensures RoundOk(k)
      {
      }
    }

    /** Round `r` has come to stand for `rd`. */
    method Note(r: nat, ghost rd: Round)
      requires this !in parts && r in states && views.Keys <= states.Keys && OthersShow(r, views)
      requires Parts(states[r]) <= parts && Shows(states[r], r, rd, table)
      modifies `views
      ensures Valid() && views == old(views)[r := rd]
    {
      OthersAfter(r, rd);
      views := views[r := rd];
      Join(r);
    }

    method CountConverge(m: GMessage) returns (ok: bool)
      requires Valid() && m.vote.round in states
      modifies `views, Parts(states[m.vote.round])
      ensures Valid() && ok == (m.vote.value != BOTTOM && m.justification.Some?)
      ensures views ==
        if ok then old(views)[m.vote.round :=
          RecordConverge(ViewAt(old(views), m.vote.round), m, m.justification.value)]
        else old(views)
    {
      var r := m.vote.round;
      if m.vote.value == BOTTOM || m.justification.None? {
        return false;
      }
      Split(r);
      assert RoundOk(r);
      ok := AddConverge(states[r], table, m);
      Note(r, RecordConverge(ViewAt(views, r), m, m.justification.value));
    }

    method SetSelf(r: nat, v: Chain, j: Justification)
      requires Valid() && r in states && v != BOTTOM
      modifies `views, Parts(states[r])
      ensures Valid() && views == old(views)[r := WithSelfValue(ViewAt(old(views), r), v, j)]
    {
      Split(r);
      assert RoundOk(r);
      AddSelf(states[r], table, v, j);
      Note(r, WithSelfValue(ViewAt(views, r), v, j));
    }

    method CountPrepare(m: GMessage)
      requires Valid() && m.vote.round in states
      modifies `views, Parts(states[m.vote.round])
      ensures Valid() && views == old(views)[m.vote.round := RecordPrepare(ViewAt(old(views), m.vote.round), m)]
    {
      var r := m.vote.round;
      Split(r);
      assert RoundOk(r);
      AddPrepare(states[r], table, m);
      Note(r, RecordPrepare(ViewAt(views, r), m));
    }

    method CountCommit(m: GMessage)
      requires Valid() && m.vote.round in states
      modifies `views, Parts(states[m.vote.round])
      ensures Valid() && views == old(views)[m.vote.round := RecordCommit(ViewAt(old(views), m.vote.round), m)]
    {
      var r := m.vote.round;
      Split(r);
      assert RoundOk(r);
      AddCommit(states[r], table, m);
      Note(r, RecordCommit(ViewAt(views, r), m));
    }

    // The same for a round that need not exist yet.

    method ReceiveConverge(m: GMessage) returns (ok: bool)
      requires Valid()
      modifies this, parts
      ensures Valid() && fresh(parts - old(parts)) && ok == (m.vote.value != BOTTOM && m.justification.Some?)
      ensures views ==
        if ok then old(views)[m.vote.round :=
          RecordConverge(ViewAt(old(views), m.vote.round), m, m.justification.value)]
        else old(views)
    {
      var rs := Get(m.vote.round);
      assert RoundOk(m.vote.round);
      ok := CountConverge(m);
    }

    method ReceiveSelf(r: nat, v: Chain, j: Justification)
      requires Valid() && v != BOTTOM
      modifies this, parts
      ensures Valid() && fresh(parts - old(parts))
      ensures views == old(views)[r := WithSelfValue(ViewAt(old(views), r), v, j)]
    {
      var rs := Get(r);
      assert RoundOk(r);
      SetSelf(r, v, j);
    }

    method ReceivePrepare(m: GMessage)
      requires Valid()
      modifies this, parts
      ensures Valid() && fresh(parts - old(parts))
      ensures views == old(views)[m.vote.round := RecordPrepare(ViewAt(old(views), m.vote.round), m)]
    {
      var rs := Get(m.vote.round);
      assert RoundOk(m.vote.round);
      CountPrepare(m);
    }

    method ReceiveCommit(m: GMessage)
      requires Valid()
      modifies this, parts
      ensures Valid() && fresh(parts - old(parts))
      ensures views == old(views)[m.vote.round := RecordCommit(ViewAt(old(views), m.vote.round), m)]
    {
      var rs := Get(m.vote.round);
      assert RoundOk(m.vote.round);
      CountCommit(m);
    }
  }
}
