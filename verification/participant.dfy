/** The queue of messages for future instances (messageQueue in gpbft/participant.go). */
module Participants {
  import opened Basics
  import opened Chains
  import opened Messages
  import opened Sorting
  import opened Instances
  import opened Progress
  import opened GpbftInstances

  type SenderQueues = map<ActorID, seq<GMessage>>

  /** A sender has one message per round and phase of an instance. */
  predicate SameSlot(a: GMessage, b: GMessage) {
    && a.vote.instance == b.vote.instance && a.sender == b.sender
    && a.vote.round == b.vote.round && a.vote.phase == b.vote.phase
  }

  predicate Before(a: GMessage, b: GMessage) {
    || a.vote.round < b.vote.round
    || (a.vote.round == b.vote.round && PhaseOrder(a.vote.phase) < PhaseOrder(b.vote.phase))
  }

  ghost predicate OnePerSlot(ms: seq<GMessage>) {
    forall i, j :: 0 <= i < j < |ms| ==> !SameSlot(ms[i], ms[j])
  }

  ghost predicate QueueOk(instance: nat, sender: ActorID, ms: seq<GMessage>) {
    OnePerSlot(ms) && forall m :: m in ms ==> m.vote.instance == instance && m.sender == sender
  }

  ghost predicate QueuesOk(instance: nat, queues: SenderQueues) {
    forall sender :: sender in queues ==> QueueOk(instance, sender, queues[sender])
  }

  predicate InQueues(queues: SenderQueues, m: GMessage) {
    m.sender in queues && m in queues[m.sender]
  }

  /** All messages of an instance, sender by sender in no particular order. */
  method Collect(ghost instance: nat, queues: SenderQueues) returns (msgs: seq<GMessage>)
    requires QueuesOk(instance, queues)
    ensures OnePerSlot(msgs) && forall m :: m in msgs <==> InQueues(queues, m)
  {
    msgs := [];
    var todo := queues.Keys;
    while todo != {}
      invariant todo <= queues.Keys && OnePerSlot(msgs)
      invariant forall m :: m in msgs <==> InQueues(queues, m) && m.sender !in todo
      decreases |todo|
    {
      var sender :| sender in todo;
      todo := todo - {sender};
      var ms := queues[sender];
      assert QueueOk(instance, sender, ms);
      OtherSender(msgs, ms);
      assert forall m :: m in msgs + ms <==> m in msgs || m in ms;
      msgs := msgs + ms;
    }
  }

  lemma OtherSender(a: seq<GMessage>, b: seq<GMessage>)
    requires OnePerSlot(a) && OnePerSlot(b)
    requires forall x, y :: x in a && y in b ==> x.sender != y.sender
    ensures OnePerSlot(a + b)
  {
    var c := a + b;
    forall i, j | 0 <= i < j < |c|
      ensures !SameSlot(c[i], c[j])
    {
      if i < |a| <= j {
        assert a[i] in a && b[j - |a|] in b;
      }
    }
  }

  lemma SortedKeeps(a: seq<GMessage>, b: seq<GMessage>)
    requires OnePerSlot(a) && multiset(a) == multiset(b)
    ensures OnePerSlot(b) && forall m :: m in b <==> m in a
  {
    assert Distinct(a) by {
      assert forall m: GMessage :: SameSlot(m, m);
    }
    PermutationDistinct(a, b);
    forall i, j | 0 <= i < j < |b|
      ensures !SameSlot(b[i], b[j])
    {
      assert b[i] in a && b[j] in a && b[i] != b[j];
    }
  }

  ghost predicate Free(queues: SenderQueues, m: GMessage) {
    forall x :: InQueues(queues, x) ==> !SameSlot(x, m)
  }

  /** Appends a message to its sender's queue, unless its slot is taken. */
  method Push(queues: SenderQueues, m: GMessage) returns (r: SenderQueues)
    requires QueuesOk(m.vote.instance, queues)
    ensures QueuesOk(m.vote.instance, r)
    ensures forall x :: InQueues(r, x) <==> InQueues(queues, x) || (x == m && Free(queues, m))
  {
    var ms := if m.sender in queues then queues[m.sender] else [];
    for i := 0 to |ms|
      invariant forall k :: 0 <= k < i ==> !SameSlot(ms[k], m)
    {
      if ms[i].vote.round == m.vote.round && ms[i].vote.phase == m.vote.phase {
        assert InQueues(queues, ms[i]) && SameSlot(ms[i], m);
        return queues;
      }
    }
    assert Free(queues, m);
    assert forall x :: x in ms + [m] <==> x in ms || x == m;
    r := queues[m.sender := ms + [m]];
  }

  class MessageQueue {
    const maxRound: nat
    var messages: map<nat, SenderQueues>

    ghost predicate Valid()
      reads this
    {
      && (forall i :: i in messages ==> QueuesOk(i, messages[i]))
      && (forall m :: Queued(m) ==> !(m.vote.round > maxRound && Spammable(m)))
    }

    predicate Queued(m: GMessage)
      reads this
    {
      m.vote.instance in messages && InQueues(messages[m.vote.instance], m)
    }

    constructor (maxRound: nat)
      ensures Valid() && this.maxRound == maxRound && forall m :: !Queued(m)
    {
      this.maxRound, messages := maxRound, map[];
    }

    /** Queues a message, unless it is spam or its sender's slot is taken. */
    method Add(m: GMessage)
      requires Valid()
      modifies this
      ensures Valid()
      ensures forall x :: Queued(x) <==> old(Queued(x)) || (x == m && old(Admits(m)))
    {
      var queues: SenderQueues := if m.vote.instance in messages then messages[m.vote.instance] else map[];
      assert QueuesOk(m.vote.instance, queues);
      assert forall x :: InQueues(queues, x) ==> Queued(x);
      assert forall x :: Queued(x) && x.vote.instance == m.vote.instance ==> InQueues(queues, x);
      if m.vote.round > maxRound && Spammable(m) {
        messages := messages[m.vote.instance := queues];
        return;
      }
      queues := Push(queues, m);
      messages := messages[m.vote.instance := queues];
    }

    /** Neither spam nor a second message for its slot. */
    ghost predicate Admits(m: GMessage)
      reads this
    {
      && !(m.vote.round > maxRound && Spammable(m))
      && forall x :: Queued(x) ==> !SameSlot(x, m)
    }

    /** Removes and returns the messages of an instance, ordered by round and phase. */
    method Drain(instance: nat) returns (msgs: seq<GMessage>)
      requires Valid()
      modifies this
      ensures Valid()
      ensures forall x :: x in msgs <==> old(Queued(x)) && x.vote.instance == instance
      ensures forall x :: Queued(x) <==> old(Queued(x)) && x.vote.instance != instance
      ensures OnePerSlot(msgs) && Sorted(Before, msgs) && SortedByRound(msgs)
      ensures forall i, j :: 0 <= i < j < |msgs| && msgs[i].vote.round == msgs[j].vote.round ==>
        PhaseOrder(msgs[i].vote.phase) <= PhaseOrder(msgs[j].vote.phase)
    {
      if instance !in messages {
        return [];
      }
      var unordered := Collect(instance, messages[instance]);
      msgs := Sort(Before, unordered);
      SortedKeeps(unordered, msgs);
      messages := messages - {instance};
    }
  }

  /** What the host proposes for an instance. */
  datatype Proposal = Proposal(supplement: SupplementalData, chain: Chain)

  /** The host's chain, cut to 128 tipsets; refused when it is empty or that much of it is not valid. */
  method ChooseChain(proposal: Option<Proposal>) returns (r: Option<Chain>)
    ensures r.Some? <==>
      && proposal.Some? && |proposal.value.chain| > 0
      && ValidChain(if |proposal.value.chain| > 128 then proposal.value.chain[..128] else proposal.value.chain)
    ensures r.Some? ==>
      && r.value <= proposal.value.chain
      && |r.value| == if |proposal.value.chain| > 128 then 128 else |proposal.value.chain|
  {
    if proposal.None? || proposal.value.chain == BOTTOM {
      return None;
    }
    var chain := Prefix(proposal.value.chain, CHAIN_MAX_LEN - 1);
    var valid := CheckChain(chain);
    r := if valid then Some(chain) else None;
  }

  /** Begins an instance: proposes a prefix of the canonical chain, starts, and delivers what was
      queued. Fails without a proposal or a committee, and on an empty or invalid chain. */
  method BeginInstance(q: MessageQueue, proposal: Option<Proposal>, committee: Option<Config>,
      clock: nat -> (bool, bool))
    returns (ok: bool, p: GpbftInstance?, error: Error, ghost queued: seq<GMessage>, ghost envs: seq<Env>,
          ghost pick: Chain)
    requires q.Valid() && forall m :: q.Queued(m) && m.vote.phase == DECIDE ==> m.vote.value != BOTTOM
    modifies q
    ensures q.Valid() && |envs| == |queued|
    ensures ok <==>
      && proposal.Some? && committee.Some? && |proposal.value.chain| > 0
      && ValidChain(if |proposal.value.chain| > 128 then proposal.value.chain[..128] else proposal.value.chain)
    ensures !ok ==> q.messages == old(q.messages)
    ensures ok ==> SortedByRound(queued) && forall m :: m in queued <==>
      old(q.Queued(m)) && m.vote.instance == committee.value.instance
    ensures ok ==>
      && p != null && fresh(p) && p.State().Some? && p.input <= proposal.value.chain
      && |p.input| == if |proposal.value.chain| > 128 then 128 else |proposal.value.chain|
    ensures ok ==>
      var c, start := committee.value, New(p.input, proposal.value.supplement);
      ManyOutcome(c, BeginQuality(c, start), queued, envs, pick) == (p.State().value, error)
  {
    ok, p, error, queued, envs, pick := false, null, NoError, [], [], BOTTOM;
    var chain := ChooseChain(proposal);
    if chain.None? || committee.None? {
      return;
    }
    ok := true;
    p, error, queued, envs, pick := Launch(q, committee.value, chain.value, proposal.value.supplement, clock);
  }

  method Launch(q: MessageQueue, c: Config, chain: Chain, supplement: SupplementalData, clock: nat -> (bool, bool))
    returns (p: GpbftInstance, error: Error, ghost queued: seq<GMessage>, ghost envs: seq<Env>, ghost pick: Chain)
    requires q.Valid() && forall m :: q.Queued(m) && m.vote.phase == DECIDE ==> m.vote.value != BOTTOM
    requires chain != BOTTOM && ValidChain(chain)
    modifies q
    ensures q.Valid() && |envs| == |queued| && fresh(p) && p.State().Some? && p.input == chain
    ensures SortedByRound(queued)
    ensures forall m :: m in queued <==> old(q.Queued(m)) && m.vote.instance == c.instance
    ensures ManyOutcome(c, BeginQuality(c, New(chain, supplement)), queued, envs, pick) == (p.State().value, error)
  {
    p := new GpbftInstance(c, chain, supplement);
    var started := p.Start();
    var msgs := q.Drain(c.instance);
    queued := msgs;
    error, envs, pick := p.ReceiveMany(msgs, seq(|msgs|, clock));
  }
}
