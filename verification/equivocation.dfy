/** The equivocation filter (equivocation.go). */
module Equivocation {
  import opened Basics
  import opened Messages

  /** Peer identifiers, by their order. */
  type PeerID = nat

  datatype Slot = Slot(sender: ActorID, round: nat, phase: Phase)

  datatype Seen = Seen(signature: Bytes, origin: PeerID)

  datatype Senders = Senders(origins: seq<PeerID>, equivocation: bool)

  datatype Filter = Filter(local: PeerID, current: nat, seen: map<Slot, Seen>, active: map<ActorID, Senders>)

  const MAX_ORIGINS: nat := 10

  function SlotOf(m: GMessage): Slot {
    Slot(m.sender, m.vote.round, m.vote.phase)
  }

  function NewFilter(local: PeerID): Filter {
    Filter(local, 0, map[], map[])
  }

  // ---------- origins ----------

  function InsertPeer(s: seq<PeerID>, x: PeerID): seq<PeerID> {
    if s == [] || x <= s[0] then [x] + s else [s[0]] + InsertPeer(s[1..], x)
  }

  function SortPeers(s: seq<PeerID>): seq<PeerID> {
    if s == [] then [] else InsertPeer(SortPeers(s[1..]), s[0])
  }

  function AddSender(es: Senders, id: PeerID, equivocation: bool): Senders {
    var origins :=
      if id in es.origins then es.origins
      else
        var added := es.origins + [id];
        SortPeers(if |added| > MAX_ORIGINS then added[..MAX_ORIGINS] else added);
    Senders(origins, es.equivocation || equivocation)
  }

  ghost predicate Ascending(s: seq<PeerID>) {
    forall i, j :: 0 <= i < j < |s| ==> s[i] <= s[j]
  }

  lemma {:induction false} InsertPeerElements(s: seq<PeerID>, x: PeerID)
    ensures multiset(InsertPeer(s, x)) == multiset(s) + multiset{x}
  {
    if s != [] && x > s[0] {
      InsertPeerElements(s[1..], x);
      assert s == [s[0]] + s[1..];
    }
  }

  lemma {:induction false} InsertPeerMeaning(s: seq<PeerID>, x: PeerID)
    requires Ascending(s)
    ensures Ascending(InsertPeer(s, x)) && multiset(InsertPeer(s, x)) == multiset(s) + multiset{x}
  {
    InsertPeerElements(s, x);
    if s != [] && x > s[0] {
      var t, r := s[1..], InsertPeer(s[1..], x);
      InsertPeerMeaning(t, x);
      assert forall y :: y in t ==> s[0] <= y;
      forall k | 0 <= k < |r|
        ensures s[0] <= r[k]
      {
        assert r[k] in multiset(t) + multiset{x};
      }
    }
  }

  lemma {:induction false} SortPeersMeaning(s: seq<PeerID>)
    ensures Ascending(SortPeers(s)) && multiset(SortPeers(s)) == multiset(s)
  {
    if s != [] {
      SortPeersMeaning(s[1..]);
      InsertPeerMeaning(SortPeers(s[1..]), s[0]);
      assert s == [s[0]] + s[1..];
    }
  }

  ghost predicate OriginsOk(es: Senders) {
    Ascending(es.origins) && |es.origins| <= MAX_ORIGINS
  }

  /** The origins stay sorted and bounded; a peer is left out only when ten others are known. */
  lemma AddSenderMeaning(es: Senders, id: PeerID, equivocation: bool)
    requires OriginsOk(es)
    ensures var es' := AddSender(es, id, equivocation);
      && OriginsOk(es')
      && es'.equivocation == (es.equivocation || equivocation)
      && (forall p :: p in es.origins ==> p in es'.origins)
      && (forall p :: p in es'.origins ==> p in es.origins || p == id)
      && (id in es'.origins <==> id in es.origins || |es.origins| < 10)
  {
    if id !in es.origins {
      var added := es.origins + [id];
      var kept := if |added| > MAX_ORIGINS then added[..MAX_ORIGINS] else added;
      SortPeersMeaning(kept);
      var r := SortPeers(kept);
      assert |r| == |multiset(r)| == |multiset(kept)| == |kept|;
      forall p
        ensures p in r <==> p in kept
      {
        assert p in r <==> p in multiset(r);
        assert p in kept <==> p in multiset(kept);
      }
      assert forall p :: p in added <==> p in es.origins || p == id;
      if |added| > MAX_ORIGINS {
        assert kept == es.origins;
      }
    }
  }

  // ---------- messages ----------

  /** A new instance forgets what was seen in earlier ones. */
  function Moved(f: Filter, instance: nat): Filter {
    if instance > f.current then Filter(f.local, instance, map[], map[]) else f
  }

  function SendersOf(f: Filter, sender: ActorID): Senders {
    if sender in f.active then f.active[sender] else Senders([], false)
  }

  /** The filter after a message of this node, and whether the message may be published. */
  function Broadcasted(f: Filter, m: GMessage): (Filter, bool) {
    if m.vote.instance < f.current then (f, false)
    else
      var g := Moved(f, m.vote.instance);
      var slot := SlotOf(m);
      var differs := slot in g.seen && g.seen[slot].signature != m.signature;
      if differs && g.seen[slot].origin == g.local then (g, false)
      else
        var seen := if slot in g.seen then g.seen else g.seen[slot := Seen(m.signature, g.local)];
        var senders := AddSender(SendersOf(g, m.sender), g.local, differs);
        (g.(seen := seen, active := g.active[m.sender := senders]),
         !senders.equivocation || (senders.origins != [] && senders.origins[0] == g.local))
  }

  /** The filter after a message of another node. */
  function Received(f: Filter, peer: PeerID, m: GMessage): Filter {
    var slot := SlotOf(m);
    if m.vote.instance != f.current || m.sender !in f.active then f
    else if slot !in f.seen then f.(seen := f.seen[slot := Seen(m.signature, peer)])
    else if f.seen[slot].signature != m.signature then
      f.(active := f.active[m.sender := AddSender(f.active[m.sender], peer, true)])
    else f
  }

  /** A received message takes a slot that nothing was seen in. */
  predicate Fills(f: Filter, m: GMessage) {
    m.vote.instance == f.current && m.sender in f.active && SlotOf(m) !in f.seen
  }

  ghost predicate FilterOk(f: Filter) {
    && (forall a :: a in f.active ==> OriginsOk(f.active[a]) && f.active[a].origins != [])
  }

  /** Tracked senders always have an origin, so the lowest one can be read. */
  lemma FilterStaysOk(f: Filter, m: GMessage, peer: PeerID)
    requires FilterOk(f)
    ensures FilterOk(Broadcasted(f, m).0) && FilterOk(Received(f, peer, m))
  {
    var g := Moved(f, m.vote.instance);
    AddedOk(SendersOf(g, m.sender), g.local, true);
    AddedOk(SendersOf(g, m.sender), g.local, false);
    AddedOk(SendersOf(f, m.sender), peer, true);
  }

  lemma AddedOk(es: Senders, id: PeerID, equivocation: bool)
    requires OriginsOk(es)
    ensures OriginsOk(AddSender(es, id, equivocation)) && AddSender(es, id, equivocation).origins != []
  {
    AddSenderMeaning(es, id, equivocation);
    assert id in AddSender(es, id, equivocation).origins || es.origins[0] in AddSender(es, id, equivocation).origins;
  }

  /** A signature that this node has given for the same instance, sender, round and phase. */
  predicate SeenFirst(f: Filter, m: GMessage) {
    && m.vote.instance == f.current && Slot(m.sender, m.vote.round, m.vote.phase) in f.seen
    && var seen := f.seen[Slot(m.sender, m.vote.round, m.vote.phase)];
    seen.signature != m.signature && seen.origin == f.local
  }

  /** Another node's signature for the same, which differs. */
  predicate Differs(f: Filter, m: GMessage) {
    && m.vote.instance == f.current && Slot(m.sender, m.vote.round, m.vote.phase) in f.seen
    && f.seen[Slot(m.sender, m.vote.round, m.vote.phase)].signature != m.signature
  }

  /** The sender is known to be used by several peers, or is so from this message on. */
  predicate Shared(f: Filter, m: GMessage) {
    Differs(f, m) || (m.vote.instance == f.current && m.sender in f.active && f.active[m.sender].equivocation)
  }

  /** The origins known for the sender before the message. */
  function OriginsOf(f: Filter, m: GMessage): seq<PeerID> {
    if m.vote.instance == f.current && m.sender in f.active then f.active[m.sender].origins else []
  }

  /** A message is published just when it is not of an earlier instance, this node has not signed otherwise
      in its place, and of the peers that use the sender none is known that comes before this node. */
  lemma PublishesExactly(f: Filter, m: GMessage)
    requires FilterOk(f)
    ensures Broadcasted(f, m).1 <==>
      && m.vote.instance >= f.current && !SeenFirst(f, m)
      && (Shared(f, m) ==>
            && (f.local in OriginsOf(f, m) || |OriginsOf(f, m)| < 10)
            && forall p :: p in OriginsOf(f, m) ==> f.local <= p)
  {
    var senders := SendersOf(Moved(f, m.vote.instance), m.sender);
    assert senders.origins == OriginsOf(f, m) || m.vote.instance < f.current;
    assert OriginsOk(senders);
    LowestExactly(senders, f.local, Differs(f, m));
  }

  lemma LowestExactly(es: Senders, id: PeerID, equivocation: bool)
    requires OriginsOk(es)
    ensures var added := AddSender(es, id, equivocation);
      && added.equivocation == (es.equivocation || equivocation)
      && (added.origins != [] && added.origins[0] == id <==>
            (id in es.origins || |es.origins| < 10) && forall p :: p in es.origins ==> id <= p)
  {
    AddSenderMeaning(es, id, equivocation);
    var added := AddSender(es, id, equivocation).origins;
    if id in added {
      var k :| 0 <= k < |added| && added[k] == id;
      assert added[0] in added && added[0] <= id;
      if added[0] == id {
        forall p | p in es.origins
          ensures id <= p
        {
          var i :| 0 <= i < |added| && added[i] == p;
        }
      }
    } else {
      assert added == [] || added[0] in added;
    }
  }

  /** What the filter has seen after a message that was published: all that it had of the instance, and this
      signature where there was none. */
  lemma PublishedIsSeen(f: Filter, m: GMessage)
    requires Broadcasted(f, m).1
    ensures var g, slot := Broadcasted(f, m).0, Slot(m.sender, m.vote.round, m.vote.phase);
      && g.local == f.local && g.current == m.vote.instance
      && slot in g.seen
      && (m.vote.instance > f.current ==> g.seen == map[slot := Seen(m.signature, f.local)])
      && (m.vote.instance == f.current ==>
            g.seen == if slot in f.seen then f.seen else f.seen[slot := Seen(m.signature, f.local)])
  {
  }

  /** What a message of another node changes: of the current instance and a sender that this node uses, it is
      remembered if nothing was seen in its place, and tells that the sender is shared if it differs. */
  lemma ReceivedExactly(f: Filter, peer: PeerID, m: GMessage)
    requires FilterOk(f)
    ensures var g, slot := Received(f, peer, m), Slot(m.sender, m.vote.round, m.vote.phase);
      var heard := m.vote.instance == f.current && m.sender in f.active;
      && g.local == f.local && g.current == f.current && g.active.Keys == f.active.Keys
      && g.seen == (if heard && slot !in f.seen then f.seen[slot := Seen(m.signature, peer)] else f.seen)
      && (forall a :: a in f.active && a != m.sender ==> g.active[a] == f.active[a])
      && (heard ==>
            && (g.active[m.sender].equivocation <==> f.active[m.sender].equivocation || Differs(f, m))
            && (Differs(f, m) && |f.active[m.sender].origins| < 10 ==> peer in g.active[m.sender].origins)
            && (!Differs(f, m) ==> g.active[m.sender] == f.active[m.sender]))
  {
    if m.sender in f.active {
      AddSenderMeaning(f.active[m.sender], peer, true);
    }
  }

  /** Once peers are known to use the same identity, only the lowest of them publishes. */
  lemma LowestPublishes(f: Filter, m: GMessage)
    requires FilterOk(f) && Broadcasted(f, m).1
    ensures var senders := SendersOf(Broadcasted(f, m).0, m.sender);
      senders.equivocation ==> forall p :: p in senders.origins ==> f.local <= p
  {
    FilterStaysOk(f, m, 0);
  }

  predicate SameSlot(a: GMessage, b: GMessage) {
    a.vote.instance == b.vote.instance && SlotOf(a) == SlotOf(b)
  }

  /** Two messages with different signatures pass the filter one after the other. */
  ghost predicate PassesBoth(f: Filter, a: GMessage, b: GMessage) {
    a.signature != b.signature && Broadcasted(f, a).1 && Broadcasted(Broadcasted(f, a).0, b).1
  }

  /** Another node's message holds the slot of `m`, and this node counts as the lowest origin. */
  predicate HeldByOther(f: Filter, m: GMessage) {
    && m.vote.instance == f.current && SlotOf(m) in f.seen && f.seen[SlotOf(m)].origin != f.local
    && AddSender(SendersOf(f, m.sender), f.local, true).origins[..1] == [f.local]
  }

  /** Adding a peer a second time changes no origin. */
  lemma AddedOnce(es: Senders, id: PeerID, first: bool, second: bool)
    requires OriginsOk(es)
    ensures AddSender(AddSender(es, id, first), id, second).origins == AddSender(es, id, first).origins
    ensures AddSender(es, id, first).origins == AddSender(es, id, second).origins
  {
    AddSenderMeaning(es, id, first);
    if id !in es.origins && |es.origins| == MAX_ORIGINS {
      SortedStays(es.origins);
      assert (es.origins + [id])[..MAX_ORIGINS] == es.origins;
    }
  }

  lemma {:induction false} SortedStays(s: seq<PeerID>)
    requires Ascending(s)
    ensures SortPeers(s) == s
  {
    if s != [] {
      SortedStays(s[1..]);
    }
  }

  lemma HeldIfBothPass(f: Filter, m: GMessage, a: GMessage, b: GMessage)
    requires FilterOk(f) && SameSlot(a, m) && SameSlot(b, m) && PassesBoth(f, a, b)
    ensures HeldByOther(f, m)
  {
    var senders := SendersOf(f, m.sender);
    AddedOnce(senders, f.local, true, false);
    AddedOnce(senders, f.local, false, true);
    AddedOnce(senders, f.local, true, true);
  }

  /** Two signatures pass in a slot exactly when another node's message was seen there first and
      this node is the lowest of the known origins. */
  lemma TwoSignaturesExactly(f: Filter, m: GMessage)
    requires FilterOk(f)
    ensures (exists a, b :: SameSlot(a, m) && SameSlot(b, m) && PassesBoth(f, a, b)) <==> HeldByOther(f, m)
  {
    if HeldByOther(f, m) {
      var seen := f.seen[SlotOf(m)].signature;
      var a, b := m.(signature := seen + [0]), m.(signature := seen + [1]);
      AddedOnce(SendersOf(f, m.sender), f.local, true, true);
      assert a.signature[|seen|] != b.signature[|seen|];
      assert SameSlot(a, m) && SameSlot(b, m) && PassesBoth(f, a, b);
    }
    forall a, b | SameSlot(a, m) && SameSlot(b, m) && PassesBoth(f, a, b)
      ensures HeldByOther(f, m)
    {
      HeldIfBothPass(f, m, a, b);
    }
  }

  class EquivocationFilter {
    const localPID: PeerID
    var currentInstance: nat
    var seenMessages: map<Slot, Seen>
    var activeSenders: map<ActorID, Senders>

    function View(): Filter
      reads this
    {
      Filter(localPID, currentInstance, seenMessages, activeSenders)
    }

    ghost predicate Valid()
      reads this
    {
      FilterOk(View())
    }

    constructor (localPID: PeerID)
      ensures Valid() && View() == NewFilter(localPID)
    {
      this.localPID := localPID;
      currentInstance, seenMessages, activeSenders := 0, map[], map[];
    }

    method ProcessBroadcast(m: GMessage) returns (publish: bool)
      requires Valid()
      modifies this
      ensures Valid() && (View(), publish) == Broadcasted(old(View()), m)
    {
      FilterStaysOk(View(), m, 0);
      if m.vote.instance < currentInstance {
        return false;
      }
      if m.vote.instance > currentInstance {
        currentInstance := m.vote.instance;
        seenMessages, activeSenders := map[], map[];
      }
      var key := SlotOf(m);
      var equivocationDetected := false;
      if key in seenMessages && seenMessages[key].signature != m.signature {
        if seenMessages[key].origin == localPID {
          return false;
        }
        equivocationDetected := true;
      } else if key !in seenMessages {
        seenMessages := seenMessages[key := Seen(m.signature, localPID)];
      }
      var senders := if m.sender in activeSenders then activeSenders[m.sender] else Senders([], false);
      senders := AddSender(senders, localPID, equivocationDetected);
      activeSenders := activeSenders[m.sender := senders];
      if !senders.equivocation {
        return true;
      }
      assert senders.origins != [] by {
        assert View() == Broadcasted(old(View()), m).0;
      }
      publish := senders.origins[0] == localPID;
    }

    method ProcessReceive(peer: PeerID, m: GMessage)
      requires Valid()
      modifies this
      ensures Valid() && View() == Received(old(View()), peer, m)
    {
      FilterStaysOk(View(), m, peer);
      if m.vote.instance != currentInstance || m.sender !in activeSenders {
        return;
      }
      var key := SlotOf(m);
      if key in seenMessages && seenMessages[key].signature != m.signature {
        activeSenders := activeSenders[m.sender := AddSender(activeSenders[m.sender], peer, true)];
      } else if key !in seenMessages {
        seenMessages := seenMessages[key := Seen(m.signature, peer)];
      }
    }
  }
}
