/** The CONVERGE values of a round, updated in place (convergeState in gpbft/gpbft.go). */
module ConvergeStates {
  import opened Basics
  import opened Chains
  import opened Messages
  import opened Instances

  class ConvergeState {
    ghost const round: nat
    var senders: set<ActorID>
    var values: map<Chain, ConvergeValue>

    constructor (ghost round: nat)
      ensures senders == {} && values == map[] && this.round == round
    {
      this.round := round;
      senders, values := {}, map[];
    }

    /** The values of a round with these converge values. */
    ghost predicate Shows(rd: Round)
      reads this
    {
      senders == rd.convergeSenders && values == rd.converged
    }

    method SetSelfValue(value: Chain, justification: Justification, ghost rd: Round)
      requires Shows(rd)
      modifies this
      ensures Shows(WithSelfValue(rd, value, justification))
    {
      if value !in values {
        values := values[value := ConvergeValue(justification, Unranked)];
      }
    }

    /** Keeps the first justification and the best ticket of each value, one message per sender. */
    method Receive(m: GMessage, ghost rd: Round) returns (ok: bool)
      requires Shows(rd)
      modifies this
      ensures ok <==> m.vote.value != BOTTOM && m.justification.Some?
      ensures Shows(if ok then RecordConverge(rd, m, m.justification.value) else rd)
    {
      if m.vote.value == BOTTOM || m.justification.None? {
        return false;
      }
      ok := true;
      if m.sender in senders {
        return;
      }
      senders := senders + {m.sender};
      var key := m.vote.value;
      if key !in values {
        values := values[key := ConvergeValue(m.justification.value, m.ticket)];
      } else if Better(m.ticket, values[key].rank) {
        values := values[key := values[key].(rank := m.ticket)];
      }
    }

    /** A value of `among` with the best ticket, whatever order the values come in. */
    method FindBestTicketProposal(among: set<Chain>) returns (best: Option<Chain>)
      requires BOTTOM !in values
      ensures best.Some? ==> IsBest(values, among, best.value)
      ensures best.Some? ==> forall v :: v in values && v in among ==> AtMost(values[best.value].rank, values[v].rank)
      ensures best.None? ==> forall v :: v in values ==> v !in among
    {
      best := None;
      var todo := values.Keys;
      while todo != {}
        invariant todo <= values.Keys
        invariant best.None? ==> forall v :: v in values && v !in todo ==> v !in among
        invariant best.Some? ==>
          && best.value in values && best.value in among
          && forall v :: v in values && v !in todo && v in among ==> !Better(values[v].rank, values[best.value].rank)
        decreases |todo|
      {
        var v :| v in todo;
        todo := todo - {v};
        if (best.None? || Better(values[v].rank, values[best.value].rank)) && v in among {
          best := Some(v);
        }
      }
    }

    method GetJustificationOf(phase: Phase, key: Chain) returns (j: Option<Justification>)
      requires key != BOTTOM
      ensures j == if key in values && values[key].justification.vote.phase == phase
                   then Some(values[key].justification) else None
    {
      j := None;
      if key in values && values[key].justification.vote.phase == phase {
        j := Some(values[key].justification);
      }
    }

    /** Some justification of bottom, if there is one. */
    method GetJustificationOfBottom(phase: Phase) returns (j: Option<Justification>, ghost pick: Chain)
      ensures j.None? ==> forall k :: k in values ==> !JustifiesBottom(values[k].justification, phase)
      ensures j.Some? ==> pick in values && values[pick].justification == j.value && JustifiesBottom(j.value, phase)
    {
      j, pick := None, BOTTOM;
      var todo := values.Keys;
      while todo != {}
        invariant todo <= values.Keys
        invariant forall k :: k in values && k !in todo ==> !JustifiesBottom(values[k].justification, phase)
        decreases |todo|
      {
        var key :| key in todo;
        if JustifiesBottom(values[key].justification, phase) {
          return Some(values[key].justification), key;
        }
        todo := todo - {key};
      }
    }
  }

  /** There is a best value just when there is a value at all. */
  lemma {:induction false} BestExists(converged: map<Chain, ConvergeValue>, among: set<Chain>, pick: Chain)
    requires among <= converged.Keys
    ensures Best(converged, among, pick).Some? <==> among != {}
    decreases |among|
  {
    if among != {} {
      var v := SomeBest(converged, among);
    }
  }

  /** CONVERGE ends with "no values" just when no value received is admissible. */
  lemma NoValuesAtConverge(c: Config, s: Instance, env: Env)
    ensures TryConverge(c, s, env).error == InternalError <==> env.elapsed && AdmissibleValues(c, s) == {}
  {
    BestExists(GetRound(s, s.round).converged, AdmissibleValues(c, s), env.convergePick);
  }

  lemma {:induction false} SomeBest(converged: map<Chain, ConvergeValue>, among: set<Chain>) returns (best: Chain)
    requires among <= converged.Keys && among != {}
    ensures IsBest(converged, among, best)
    decreases |among|
  {
    best :| best in among;
    if among != {best} {
      var rest := among - {best};
      var other := SomeBest(converged, rest);
      if Better(converged[other].rank, converged[best].rank) {
        best := other;
      } else {
        assert forall w :: w in among ==> w == best || w in rest;
      }
    }
  }
}
