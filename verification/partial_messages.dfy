/** Messages stripped of their chains and completed again, in place (pmsg/partial_msg.go). */
module PartialMessages {
  import opened Basics
  import opened Chains
  import opened Messages
  import opened Merkle
  import opened ChainKeys
  import opened Validators

  class PartialGMessage {
    var message: GMessage
    var voteValueKey: ECChainKey

    function View(): PartialMessage
      reads this
    {
      PartialMessage(message, voteValueKey)
    }

    /** Strips a copy of a message: its chains go, the key of its vote stays. */
    constructor (m: GMessage)
      ensures View() == Stripped(m)
      ensures message.vote.value == BOTTOM && (m.vote.value != BOTTOM ==> voteValueKey == Key(m.vote.value))
      ensures message.justification.Some? ==> message.justification.value.vote.value == BOTTOM
    {
      message, voteValueKey := m, Zero;
      new;
      KeyInjective(m.vote.value, BOTTOM);
      if message.vote.value != BOTTOM {
        voteValueKey := Key(message.vote.value);
        message := message.(vote := message.vote.(value := BOTTOM));
      }
      if message.justification.Some? && message.justification.value.vote.value != BOTTOM {
        message := message.(justification := Some(WithValue(message.justification.value, BOTTOM)));
      }
    }

    predicate HasChainValue()
      reads this
    {
      voteValueKey != Zero
    }

    method InferJustificationVoteValue()
      modifies this
      ensures voteValueKey == old(voteValueKey)
      ensures message == old(message).(justification := match old(message).justification
                                                        case None => None
                                                        case Some(j) => Some(Inferred(old(message).vote, j)))
    {
      if message.justification.None? {
        return;
      }
      var j := message.justification.value;
      match message.vote.phase {
        case CONVERGE | PREPARE | COMMIT =>
          if j.vote.phase == PREPARE {
            message := message.(justification := Some(WithValue(j, message.vote.value)));
          }
        case DECIDE =>
          if j.vote.phase == COMMIT {
            message := message.(justification := Some(WithValue(j, message.vote.value)));
          }
        case _ =>
      }
    }

    /** Fills in the chain that the key names, when it is known; `lookup` answers for the exchange of
        chains between nodes. */
    method CompleteMessage(lookup: (nat, ECChainKey) -> Option<Chain>) returns (r: Option<GMessage>)
      modifies this
      ensures !old(HasChainValue()) ==> View() == old(View()) && r == Some(message)
      ensures old(HasChainValue()) ==>
        match lookup(old(message).vote.instance, old(voteValueKey))
        case None => View() == old(View()) && r == None
        case Some(chain) => View() == Completed(old(View()), chain) && r == Some(message)
    {
      if !HasChainValue() {
        return Some(message);
      }
      var chain := lookup(message.vote.instance, voteValueKey);
      if chain.None? {
        return None;
      }
      message := message.(vote := message.vote.(value := chain.value));
      InferJustificationVoteValue();
      r := Some(message);
    }
  }

  /** What one node strips and another completes, from an exchange that has the chain, is the message. */
  method StripAndComplete(r: Rules, current: Instant, m: GMessage, lookup: (nat, ECChainKey) -> Option<Chain>)
    returns (n: Option<GMessage>)
    requires Validated(r, current, m) == Accept
    requires m.vote.value != BOTTOM ==> lookup(m.vote.instance, Key(m.vote.value)) == Some(m.vote.value)
    ensures n == Some(m)
  {
    TwoStagesComplete(r, current, m);
    KeyInjective(m.vote.value, BOTTOM);
    var p := new PartialGMessage(m);
    n := p.CompleteMessage(lookup);
  }
}
