/** A node that signs for its participants, over crashes and restarts (host.go, equivocation.go). */
module Hosts {
  import opened Basics
  import opened Messages
  import opened Equivocation
  import opened WriteAheadLogs

  /** The filter, the write-ahead log, the node's own messages kept for rebroadcast, and what was
      published. `floor` is the highest purge point so far, `taken` the slots that a received message
      was the first to fill, and `lost` those of messages that a purge above them might remove from the
      log, or that never got there. */
  datatype Host = Host(
    filter: Filter,
    wal: Wal<GMessage>,
    self: set<GMessage>,
    published: set<GMessage>,
    floor: nat,
    taken: set<(nat, Slot)>,
    lost: set<(nat, Slot)>)

  /** The epoch under which a message is logged. */
  const EPOCH: GMessage -> nat := (m: GMessage) => m.vote.instance

  const KEEP_INSTANCES_IN_WAL: nat := 5

  datatype Event =
    | Broadcast(m: GMessage, now: Name, full: bool, io: Io, sent: bool)
    | Rebroadcast(m: GMessage, sent: bool)
    | Receive(peer: PeerID, m: GMessage)
    | Finalize(instance: nat, stuck: set<Name>)
    | Restart(local: PeerID, files: seq<LogStat>)
    | CrashInBroadcast(m: GMessage, now: Name, full: bool, io: Io, local: PeerID, files: seq<LogStat>)

  ghost predicate InLog(h: Host, m: GMessage) {
    Logged(h.wal.dir, m)
  }

  /** No purge at or below the message's instance removes it. */
  ghost predicate Held(h: Host, m: GMessage) {
    Lasts(h.wal, m, m.vote.instance)
  }

  /** The log when the node goes down during a broadcast: the append may have come to any end. */
  ghost function WalAfterCrash(h: Host, m: GMessage, now: Name, full: bool, io: Io): Wal<GMessage>
    requires WalOk(h.wal)
  {
    if Broadcasted(h.filter, m).1 then Appended(EPOCH, h.wal, m, now, full, io).0 else h.wal
  }

  /** A restart finds the files of the log, in any order. */
  ghost predicate Enabled(h: Host, e: Event) {
    && WalOk(h.wal)
    && match e
       case Broadcast(_, _, _, _, _) => true
       case Receive(_, _) => true
       case Rebroadcast(m, _) => m in h.self
       case Finalize(_, _) => true
       case Restart(_, files) => Hydrated(EPOCH, h.wal.dir, files)
       case CrashInBroadcast(m, now, full, io, _, files) =>
         Hydrated(EPOCH, WalAfterCrash(h, m, now, full, io).dir, files)
  }

  // ---------- restarting ----------

  function Replayed(f: Filter, entries: seq<GMessage>): Filter {
    if entries == [] then f
    else Broadcasted(Replayed(f, entries[..|entries| - 1]), entries[|entries| - 1]).0
  }

  function MaxInstance(entries: seq<GMessage>): nat {
    if entries == [] then 0
    else
      var before, last := MaxInstance(entries[..|entries| - 1]), entries[|entries| - 1].vote.instance;
      if before < last then last else before
  }

  lemma {:induction false} MaxInstanceExactly(entries: seq<GMessage>)
    ensures forall m :: m in entries ==> m.vote.instance <= MaxInstance(entries)
    ensures entries != [] ==> exists m :: m in entries && m.vote.instance == MaxInstance(entries)
  {
    if entries != [] {
      var n := |entries| - 1;
      MaxInstanceExactly(entries[..n]);
      assert forall m :: m in entries <==> m in entries[..n] || m == entries[n];
    }
  }

  /** The messages of the largest instance. */
  function SelfFrom(entries: seq<GMessage>): set<GMessage> {
    set m | m in entries && m.vote.instance >= MaxInstance(entries)
  }

  ghost function Restarted(h: Host, dir: Directory<GMessage>, local: PeerID, files: seq<LogStat>): Host
    requires Hydrated(EPOCH, dir, files)
  {
    var entries := Entries(dir, files);
    h.(filter := Replayed(NewFilter(local), entries), self := SelfFrom(entries), wal := Reopened(dir, files))
  }

  // ---------- steps ----------

  function Publish(h: Host, m: GMessage, sent: bool): Host {
    if sent then h.(published := h.published + {m}) else h
  }

  /** A message is remembered, and later published, even when it could not be logged. */
  ghost function Noted(h: Host, m: GMessage, now: Name, full: bool, io: Io): Host
    requires WalOk(h.wal)
  {
    var h' := h.(wal := Appended(EPOCH, h.wal, m, now, full, io).0, self := h.self + {m});
    if Held(h', m) then h' else h'.(lost := h.lost + {(m.vote.instance, SlotOf(m))})
  }

  /** A certificate purges the log up to a few instances back, and the node's own messages. */
  function Finalized(h: Host, instance: nat, stuck: set<Name>): Host {
    var h' := h.(self := set m | m in h.self && m.vote.instance >= instance);
    if instance <= KEEP_INSTANCES_IN_WAL then h'
    else
      var keep := instance - KEEP_INSTANCES_IN_WAL;
      h'.(wal := Purged(h.wal, keep, stuck), floor := Max(h.floor, keep))
  }

  ghost function Step(h: Host, e: Event): Host
    requires Enabled(h, e)
  {
    match e
    case Broadcast(m, now, full, io, sent) =>
      var (f, ok) := Broadcasted(h.filter, m);
      if !ok then h.(filter := f) else Publish(Noted(h.(filter := f), m, now, full, io), m, sent)
    case Rebroadcast(m, sent) =>
      var (f, ok) := Broadcasted(h.filter, m);
      Publish(h.(filter := f), m, ok && sent)
    case Receive(peer, m) =>
      h.(filter := Received(h.filter, peer, m),
         taken := if Fills(h.filter, m) then h.taken + {(m.vote.instance, SlotOf(m))} else h.taken)
    case Finalize(instance, stuck) => Finalized(h, instance, stuck)
    case Restart(local, files) => Restarted(h, h.wal.dir, local, files)
    case CrashInBroadcast(m, now, full, io, local, files) =>
      Restarted(h, WalAfterCrash(h, m, now, full, io).dir, local, files)
  }

  ghost predicate Runs(h: Host, es: seq<Event>)
    decreases |es|
  {
    es == [] || (Enabled(h, es[0]) && Runs(Step(h, es[0]), es[1..]))
  }

  ghost function Final(h: Host, es: seq<Event>): Host
    requires Runs(h, es)
    decreases |es|
  {
    if es == [] then h else Final(Step(h, es[0]), es[1..])
  }

  function FreshHost(local: PeerID): Host {
    Host(NewFilter(local), Reopened(map[], []), {}, {}, 0, {}, {})
  }

  // ---------- what every step keeps ----------

  predicate Taken(h: Host, m: GMessage) {
    (m.vote.instance, SlotOf(m)) in h.taken
  }

  predicate Lost(h: Host, m: GMessage) {
    (m.vote.instance, SlotOf(m)) in h.lost
  }

  /** What was published above the purge point is held by the log, and may be published again only
      from it, unless it could not be logged so. */
  ghost predicate Durable(h: Host) {
    && (forall m :: m in h.published && m.vote.instance >= h.floor ==> Held(h, m) || Lost(h, m))
    && (forall m :: m in h.self && m.vote.instance >= h.floor ==> Held(h, m) || Lost(h, m))
  }

  ghost predicate LogConsistent(h: Host) {
    forall a, b :: InLog(h, a) && InLog(h, b) && SameSlot(a, b) && !Taken(h, a) ==> a.signature == b.signature
  }

  /** The filter is at least as far as the log and remembers the log's current instance. */
  ghost predicate FilterKnows(h: Host) {
    && (forall m :: InLog(h, m) ==> m.vote.instance <= h.filter.current)
    && (forall m :: m in h.self ==> m.vote.instance <= h.filter.current)
    && (forall m :: InLog(h, m) && m.vote.instance == h.filter.current && !Taken(h, m) ==>
          SlotOf(m) in h.filter.seen && h.filter.seen[SlotOf(m)].signature == m.signature)
  }

  ghost predicate OwnSlots(h: Host) {
    forall s :: s in h.filter.seen && (h.filter.current, s) !in h.taken ==> h.filter.seen[s].origin == h.filter.local
  }

  ghost predicate HostInv(h: Host) {
    WalOk(h.wal) && Durable(h) && LogConsistent(h) && FilterKnows(h) && OwnSlots(h)
  }

  /** What a filter made by replaying a log, in any order, remembers. */
  ghost predicate Remembers(f: Filter, entries: seq<GMessage>) {
    && (forall m :: m in entries ==> m.vote.instance <= f.current)
    && (forall m :: m in entries && m.vote.instance == f.current ==> SlotOf(m) in f.seen)
    && (forall s :: s in f.seen ==> f.seen[s].origin == f.local && exists m :: m in entries && From(f, s, m))
  }

  ghost predicate From(f: Filter, s: Slot, m: GMessage) {
    s in f.seen && m.vote.instance == f.current && SlotOf(m) == s && m.signature == f.seen[s].signature
  }

  lemma BroadcastRemembers(f: Filter, entries: seq<GMessage>, m: GMessage)
    requires Remembers(f, entries)
    ensures Remembers(Broadcasted(f, m).0, entries + [m])
  {
    var f' := Broadcasted(f, m).0;
    var all := entries + [m];
    assert forall x :: x in all <==> x in entries || x == m;
    forall s | s in f'.seen
      ensures f'.seen[s].origin == f'.local && exists x :: x in all && From(f', s, x)
    {
      if m.vote.instance <= f.current && s in f.seen {
        var x :| x in entries && From(f, s, x);
        assert x in all && From(f', s, x);
      } else {
        assert m in all && From(f', s, m);
      }
    }
  }

  lemma {:induction false} ReplayRemembers(local: PeerID, entries: seq<GMessage>)
    ensures Remembers(Replayed(NewFilter(local), entries), entries)
  {
    if entries != [] {
      var n := |entries| - 1;
      ReplayRemembers(local, entries[..n]);
      BroadcastRemembers(Replayed(NewFilter(local), entries[..n]), entries[..n], entries[n]);
      assert entries == entries[..n] + [entries[n]];
    }
  }

  lemma RestartDurable(h: Host, dir: Directory<GMessage>, local: PeerID, files: seq<LogStat>)
    requires Hydrated(EPOCH, dir, files) && Durable(h) && forall m :: InLog(h, m) ==> Logged(dir, m)
    ensures Durable(Restarted(h, dir, local, files))
  {
    var h' := Restarted(h, dir, local, files);
    ReopenKeeps(EPOCH, dir, files);
    forall m | Held(h, m)
      ensures Held(h', m)
    {
      LastingIsLogged(h.wal, m, m.vote.instance);
    }
  }

  lemma RestartKeeps(h: Host, dir: Directory<GMessage>, local: PeerID, files: seq<LogStat>)
    requires Hydrated(EPOCH, dir, files) && Durable(h) && forall m :: InLog(h, m) ==> Logged(dir, m)
    requires forall a, b ::
      Logged(dir, a) && Logged(dir, b) && SameSlot(a, b) && !Taken(h, a) ==> a.signature == b.signature
    ensures HostInv(Restarted(h, dir, local, files))
  {
    var h' := Restarted(h, dir, local, files);
    var f, entries := h'.filter, Entries(dir, files);
    RestartDurable(h, dir, local, files);
    ReopenKeeps(EPOCH, dir, files);
    ReplayRemembers(local, entries);
    forall m | InLog(h', m) && m.vote.instance == f.current && !Taken(h', m)
      ensures SlotOf(m) in f.seen && f.seen[SlotOf(m)].signature == m.signature
    {
      assert m in entries;
      var x :| x in entries && From(f, SlotOf(m), x);
      assert SameSlot(m, x);
    }
  }

  /** The log after a message that the filter let through has one signature per slot. */
  lemma AppendConsistent(h: Host, m: GMessage, now: Name, full: bool, io: Io)
    requires HostInv(h) && Broadcasted(h.filter, m).1
    ensures LogConsistent(h.(wal := Appended(EPOCH, h.wal, m, now, full, io).0))
  {
    AppendKeeps(EPOCH, h.wal, m, now, full, io);
    forall a | InLog(h, a) && SameSlot(a, m) && !Taken(h, m)
      ensures a.signature == m.signature
    {
      assert m.vote.instance == h.filter.current;
    }
  }

  /** The log `wal` has at most `m` more than that of the host, and all that lasts there. */
  ghost predicate Extended(h: Host, wal: Wal<GMessage>, m: GMessage) {
    && WalOk(wal) && (forall x :: Logged(wal.dir, x) ==> InLog(h, x) || x == m)
    && forall x: GMessage, k :: Lasts(h.wal, x, k) ==> Lasts(wal, x, k)
  }

  lemma NotedDurable(h: Host, h': Host, m: GMessage)
    requires Durable(h) && Extended(h, h'.wal, m) && (Held(h', m) || Lost(h', m)) && h.lost <= h'.lost
    requires h'.published <= h.published + {m} && h'.self == h.self + {m} && h'.floor == h.floor
    ensures Durable(h')
  {
    assert forall x :: Held(h, x) ==> Held(h', x);
  }

  lemma NotedKnown(h: Host, h': Host, m: GMessage)
    requires FilterKnows(h) && OwnSlots(h) && Extended(h, h'.wal, m) && Broadcasted(h.filter, m).1
    requires h'.filter == Broadcasted(h.filter, m).0 && h'.self == h.self + {m} && h'.taken == h.taken
    ensures FilterKnows(h') && OwnSlots(h')
  {
  }

  lemma NotedKeeps(h: Host, m: GMessage, now: Name, full: bool, io: Io) returns (h': Host)
    requires HostInv(h) && Broadcasted(h.filter, m).1
    ensures h' == Noted(h.(filter := Broadcasted(h.filter, m).0), m, now, full, io)
    ensures HostInv(h') && (Held(h', m) || Lost(h', m)) && m.vote.instance <= h'.filter.current
    ensures h'.published == h.published && h'.taken == h.taken && h'.floor == h.floor
  {
    var wal := Appended(EPOCH, h.wal, m, now, full, io).0;
    AppendKeeps(EPOCH, h.wal, m, now, full, io);
    AppendConsistent(h, m, now, full, io);
    h' := Noted(h.(filter := Broadcasted(h.filter, m).0), m, now, full, io);
    assert Extended(h, wal, m);
    NotedDurable(h, h', m);
    NotedKnown(h, h', m);
    ConsistentAs(h.(wal := wal), h');
  }

  lemma ConsistentAs(h: Host, h': Host)
    requires LogConsistent(h) && h'.wal.dir == h.wal.dir && h'.taken == h.taken
    ensures LogConsistent(h')
  {
    assert forall a :: InLog(h', a) <==> InLog(h, a);
  }

  lemma PublishKeeps(h: Host, m: GMessage, sent: bool)
    requires HostInv(h) && (m.vote.instance >= h.floor ==> Held(h, m) || Lost(h, m))
    ensures HostInv(Publish(h, m, sent))
  {
    ConsistentAs(h, Publish(h, m, sent));
    assert forall x :: Held(Publish(h, m, sent), x) <==> Held(h, x);
  }

  lemma BroadcastKeeps(h: Host, m: GMessage, now: Name, full: bool, io: Io, sent: bool)
    requires HostInv(h)
    ensures HostInv(Step(h, Broadcast(m, now, full, io, sent)))
  {
    var (f, ok) := Broadcasted(h.filter, m);
    if ok {
      var h' := NotedKeeps(h, m, now, full, io);
      PublishKeeps(h', m, sent);
    } else {
      FilterMoves(h, m);
    }
  }

  /** The filter moves on by the host's own message, published or not. */
  lemma FilterMoves(h: Host, m: GMessage)
    requires HostInv(h) && (Broadcasted(h.filter, m).1 ==> m in h.self)
    ensures HostInv(h.(filter := Broadcasted(h.filter, m).0))
  {
    var h' := h.(filter := Broadcasted(h.filter, m).0);
    ConsistentAs(h, h');
    assert forall x :: Held(h', x) <==> Held(h, x);
    assert m in h.self ==> m.vote.instance <= h.filter.current;
  }

  lemma RebroadcastKeeps(h: Host, m: GMessage, sent: bool)
    requires HostInv(h) && m in h.self
    ensures HostInv(Step(h, Rebroadcast(m, sent)))
  {
    FilterMoves(h, m);
    PublishKeeps(h.(filter := Broadcasted(h.filter, m).0), m, Broadcasted(h.filter, m).1 && sent);
  }

  lemma ReceiveKeeps(h: Host, peer: PeerID, m: GMessage)
    requires HostInv(h)
    ensures HostInv(Step(h, Receive(peer, m)))
  {
  }

  lemma FinalizeKeeps(h: Host, instance: nat, stuck: set<Name>)
    requires HostInv(h)
    ensures HostInv(Step(h, Finalize(instance, stuck)))
  {
    if instance > KEEP_INSTANCES_IN_WAL {
      PurgedEntries(h.wal, instance - KEEP_INSTANCES_IN_WAL, stuck);
    }
  }

  lemma CrashKeeps(h: Host, m: GMessage, now: Name, full: bool, io: Io, local: PeerID, files: seq<LogStat>)
    requires HostInv(h) && Hydrated(EPOCH, WalAfterCrash(h, m, now, full, io).dir, files)
    ensures HostInv(Step(h, CrashInBroadcast(m, now, full, io, local, files)))
  {
    var wal := WalAfterCrash(h, m, now, full, io);
    if Broadcasted(h.filter, m).1 {
      AppendKeeps(EPOCH, h.wal, m, now, full, io);
      AppendConsistent(h, m, now, full, io);
    }
    var down := h.(wal := wal);
    assert LogConsistent(down) && forall a :: InLog(down, a) <==> Logged(wal.dir, a);
    RestartKeeps(h, wal.dir, local, files);
  }

  lemma StepKeeps(h: Host, e: Event)
    requires HostInv(h) && Enabled(h, e)
    ensures HostInv(Step(h, e))
  {
    match e
    case Broadcast(m, now, full, io, sent) => BroadcastKeeps(h, m, now, full, io, sent);
    case Rebroadcast(m, sent) => RebroadcastKeeps(h, m, sent);
    case Receive(peer, m) => ReceiveKeeps(h, peer, m);
    case Finalize(instance, stuck) => FinalizeKeeps(h, instance, stuck);
    case Restart(local, files) => RestartKeeps(h, h.wal.dir, local, files);
    case CrashInBroadcast(m, now, full, io, local, files) => CrashKeeps(h, m, now, full, io, local, files);
  }

  lemma {:induction false} RunKeeps(h: Host, es: seq<Event>)
    requires HostInv(h) && Runs(h, es)
    ensures HostInv(Final(h, es))
    decreases |es|
  {
    if es != [] {
      StepKeeps(h, es[0]);
      RunKeeps(Step(h, es[0]), es[1..]);
    }
  }

  lemma FreshInv(local: PeerID)
    ensures HostInv(FreshHost(local))
  {
    var h := FreshHost(local);
    assert forall m :: !InLog(h, m);
  }

  /** Over every run of broadcasts, rebroadcasts, purges, crashes and restarts, a node publishes at
      most one signature per instance, sender, round and phase, at or above the purge point, unless
      another node's message took the slot first or a message of the slot could not be logged so that
      a purge above it leaves it alone. */
  lemma SingleSignature(local: PeerID, es: seq<Event>, a: GMessage, b: GMessage)
    requires Runs(FreshHost(local), es)
    requires var h := Final(FreshHost(local), es);
      && a in h.published && b in h.published && SameSlot(a, b)
      && a.vote.instance >= h.floor && !Taken(h, a) && !Lost(h, a)
    ensures a.signature == b.signature
  {
    var h := Final(FreshHost(local), es);
    FreshInv(local);
    RunKeeps(FreshHost(local), es);
    LastingIsLogged(h.wal, a, a.vote.instance);
    LastingIsLogged(h.wal, b, b.vote.instance);
  }

  // ---------- when a signature is final ----------

  predicate Seals(x: GMessage, a: GMessage) {
    (SameSlot(x, a) && x.signature == a.signature) || x.vote.instance > a.vote.instance
  }

  /** A file that no purge at or below the instance removes holds the signature of the slot, or an
      entry of a later instance. */
  ghost predicate Sealed(h: Host, a: GMessage) {
    exists x :: Seals(x, a) && Lasts(h.wal, x, a.vote.instance)
  }

  /** Nothing else than the signature of `a` was published in its slot. */
  ghost predicate OnlySignature(h: Host, a: GMessage) {
    forall b :: b in h.published && SameSlot(a, b) ==> b.signature == a.signature
  }

  ghost predicate StaysOnly(h: Host, a: GMessage, es: seq<Event>) {
    Runs(h, es) && Final(h, es).floor <= a.vote.instance ==> OnlySignature(Final(h, es), a)
  }

  lemma SealedInLog(h: Host, a: GMessage) returns (x: GMessage)
    requires HostInv(h) && Sealed(h, a)
    ensures Seals(x, a) && Lasts(h.wal, x, a.vote.instance) && InLog(h, x) && x.vote.instance <= h.filter.current
  {
    x :| Seals(x, a) && Lasts(h.wal, x, a.vote.instance);
    LastingIsLogged(h.wal, x, a.vote.instance);
  }

  /** A message that passes the filter in a sealed slot has the sealed signature. */
  lemma SealedFilter(h: Host, a: GMessage, m: GMessage)
    requires HostInv(h) && Sealed(h, a) && !Taken(h, a)
    requires SameSlot(a, m) && Broadcasted(h.filter, m).1
    ensures m.signature == a.signature
  {
    var x := SealedInLog(h, a);
    assert SameSlot(x, a) && m.vote.instance == h.filter.current;
    assert !Taken(h, x);
  }

  /** What lasts for a slot of instance `k` does so after each step that purges no further. */
  lemma LastsStep(h: Host, e: Event, x: GMessage, k: nat)
    requires Enabled(h, e) && Lasts(h.wal, x, k) && k <= x.vote.instance && Step(h, e).floor <= k
    ensures Lasts(Step(h, e).wal, x, k)
  {
    LastingIsLogged(h.wal, x, k);
    match e
    case Broadcast(m, now, full, io, _) => AppendKeeps(EPOCH, h.wal, m, now, full, io);
    case Finalize(instance, stuck) =>
      if instance > KEEP_INSTANCES_IN_WAL {
        PurgedEntries(h.wal, instance - KEEP_INSTANCES_IN_WAL, stuck);
      }
    case Restart(local, files) => LastsRestart(h, h.wal.dir, local, files, x, k);
    case CrashInBroadcast(m, now, full, io, local, files) =>
      AppendKeeps(EPOCH, h.wal, m, now, full, io);
      LastsRestart(h, WalAfterCrash(h, m, now, full, io).dir, local, files, x, k);
    case Rebroadcast(_, _) =>
    case Receive(_, _) =>
  }

  lemma LastsRestart(h: Host, dir: Directory<GMessage>, local: PeerID, files: seq<LogStat>, x: GMessage, k: nat)
    requires Hydrated(EPOCH, dir, files) && Logged(dir, x) && k <= x.vote.instance
    ensures Lasts(Restarted(h, dir, local, files).wal, x, k)
  {
    ReopenKeeps(EPOCH, dir, files);
  }

  lemma SealStays(h: Host, a: GMessage, e: Event)
    requires HostInv(h) && Sealed(h, a) && Enabled(h, e) && Step(h, e).floor <= a.vote.instance
    ensures Sealed(Step(h, e), a)
  {
    var x := SealedInLog(h, a);
    LastsStep(h, e, x, a.vote.instance);
  }

  lemma NotTakenStays(h: Host, a: GMessage, e: Event)
    requires HostInv(h) && Sealed(h, a) && !Taken(h, a) && Enabled(h, e)
    ensures !Taken(Step(h, e), a)
  {
    var x := SealedInLog(h, a);
    assert !Taken(h, x) || x.vote.instance > a.vote.instance;
  }

  lemma OnlyStays(h: Host, a: GMessage, e: Event)
    requires HostInv(h) && Sealed(h, a) && !Taken(h, a) && OnlySignature(h, a) && Enabled(h, e)
    ensures OnlySignature(Step(h, e), a)
  {
    if (e.Broadcast? || e.Rebroadcast?) && SameSlot(a, e.m) && Broadcasted(h.filter, e.m).1 {
      SealedFilter(h, a, e.m);
    }
  }

  lemma SealedStep(h: Host, a: GMessage, e: Event)
    requires HostInv(h) && Sealed(h, a) && !Taken(h, a) && OnlySignature(h, a) && Enabled(h, e)
    requires Step(h, e).floor <= a.vote.instance
    ensures var h' := Step(h, e);
      HostInv(h') && Sealed(h', a) && !Taken(h', a) && OnlySignature(h', a)
  {
    StepKeeps(h, e);
    SealStays(h, a, e);
    NotTakenStays(h, a, e);
    OnlyStays(h, a, e);
  }

  lemma {:induction false} FloorRises(h: Host, es: seq<Event>)
    requires Runs(h, es)
    ensures h.floor <= Final(h, es).floor
    decreases |es|
  {
    if es != [] {
      FloorRises(Step(h, es[0]), es[1..]);
    }
  }

  lemma {:induction false} SealedRun(h: Host, a: GMessage, es: seq<Event>)
    requires HostInv(h) && Sealed(h, a) && !Taken(h, a) && OnlySignature(h, a)
    ensures StaysOnly(h, a, es)
    decreases |es|
  {
    if es != [] && Runs(h, es) && Final(h, es).floor <= a.vote.instance {
      FloorRises(Step(h, es[0]), es[1..]);
      SealedStep(h, a, es[0]);
      SealedRun(Step(h, es[0]), a, es[1..]);
    }
  }

  /** No sender that a log tells of is taken for an equivocator. */
  lemma {:induction false} ReplayAlone(local: PeerID, entries: seq<GMessage>)
    ensures forall s :: s in Replayed(NewFilter(local), entries).active ==>
      !Replayed(NewFilter(local), entries).active[s].equivocation
  {
    if entries != [] {
      var n := |entries| - 1;
      ReplayAlone(local, entries[..n]);
      ReplayRemembers(local, entries[..n]);
    }
  }

  /** What a restarted node may publish in a slot that its log does not seal. */
  lemma UnsealedPasses(local: PeerID, entries: seq<GMessage>, a: GMessage) returns (b: GMessage)
    requires forall x :: x in entries ==> !Seals(x, a)
    ensures SameSlot(a, b) && b.signature != a.signature
    ensures Broadcasted(Replayed(NewFilter(local), entries), b).1
  {
    var f := Replayed(NewFilter(local), entries);
    ReplayRemembers(local, entries);
    ReplayAlone(local, entries);
    ReplayNotPast(local, entries, a.vote.instance);
    var slot := SlotOf(a);
    if f.current == a.vote.instance && slot in f.seen {
      var x :| x in entries && From(f, slot, x);
      b := a.(signature := x.signature);
    } else {
      b := a.(signature := a.signature + [0]);
      assert |b.signature| != |a.signature|;
    }
  }

  lemma {:induction false} ReplayNotPast(local: PeerID, entries: seq<GMessage>, instance: nat)
    requires forall x :: x in entries ==> x.vote.instance <= instance
    ensures Replayed(NewFilter(local), entries).current <= instance
  {
    if entries != [] {
      var n := |entries| - 1;
      ReplayNotPast(local, entries[..n], instance);
      assert entries[n] in entries;
    }
  }

  lemma RunsFirst(h: Host, e: Event, rest: seq<Event>)
    requires Enabled(h, e) && Runs(Step(h, e), rest)
    ensures Runs(h, [e] + rest) && Final(h, [e] + rest) == Final(Step(h, e), rest)
  {
    assert ([e] + rest)[1..] == rest;
  }

  /** A message that the filter lets through, whatever it has seen. */
  lemma SomePasses(f: Filter) returns (m: GMessage)
    ensures Broadcasted(f, m).1
  {
    m := GMessage(0, Payload(f.current + 1, 0, QUALITY, SupplementalData([], []), []), [], Unranked, None);
  }

  /** The active file of `w` has been closed, if that can be, and perhaps another one been opened. */
  ghost predicate ClosedAs(w: Wal<GMessage>, w1: Wal<GMessage>) {
    && w1.files == Flushed(w, Io(true, true, true, Nothing)).0.files
    && exists now :: now !in w.dir && (w1.dir == w.dir || w1.dir == w.dir[now := []])
  }

  lemma OnlyLasting(w: Wal<GMessage>, w1: Wal<GMessage>, w2: Wal<GMessage>, k: nat)
    requires WalOk(w) && ClosedAs(w, w1) && w2 == Purged(w1, k, {})
    ensures forall x :: Logged(w2.dir, x) ==> Lasts(w, x, k)
  {
    var now :| now !in w.dir && (w1.dir == w.dir || w1.dir == w.dir[now := []]);
    var w' := ClosedAndPurged(w, k);
    forall x | Logged(w2.dir, x)
      ensures Lasts(w, x, k)
    {
      var name :| name in w2.dir && x in Readable(w2.dir[name]);
      assert name != now && name in w'.dir;
      assert LastsIn(w, name, x, k);
    }
  }

  /** After a restart, a slot that no entry of the log seals sees a second signature. */
  lemma SecondSignature(h: Host, a: GMessage) returns (es: seq<Event>)
    requires WalOk(h.wal) && h.floor <= a.vote.instance && forall x :: InLog(h, x) ==> !Seals(x, a)
    ensures !StaysOnly(h, a, es)
  {
    var local := h.filter.local;
    var files := CanHydrate(EPOCH, h.wal.dir);
    ReopenKeeps(EPOCH, h.wal.dir, files);
    var b := UnsealedPasses(local, Entries(h.wal.dir, files), a);
    es := PublishesNext(h, local, files, b);
  }

  /** So it does after a purge, when the files that do not stay have been closed. */
  lemma PurgedRun(h: Host, w: Wal<GMessage>, a: GMessage) returns (es: seq<Event>)
    requires WalOk(w) && WalOk(h.wal) && ClosedAs(w, h.wal) && 0 < a.vote.instance && h.floor <= a.vote.instance
    requires forall x :: Lasts(w, x, a.vote.instance) ==> !Seals(x, a)
    ensures !StaysOnly(h, a, es)
  {
    var k := a.vote.instance;
    var e := Finalize(k + KEEP_INSTANCES_IN_WAL, {});
    var h' := Step(h, e);
    PurgeOk(h.wal, k, {});
    OnlyLasting(w, h.wal, h'.wal, k);
    var rest := SecondSignature(h', a);
    RunsFirst(h, e, rest);
    es := [e] + rest;
  }

  /** A broadcast that rotates the log, a purge, a restart and another broadcast publish a second
      signature in a slot that the log does not seal. */
  lemma UnsealedRun(h: Host, a: GMessage) returns (es: seq<Event>)
    requires WalOk(h.wal) && a.vote.instance >= h.floor && !Sealed(h, a)
    ensures !StaysOnly(h, a, es)
  {
    var w := h.wal;
    if a.vote.instance == 0 {
      AllLast(w);
      es := SecondSignature(h, a);
    } else if w.active.Some? && w.open {
      var now := NewName(w.dir.Keys);
      var m := SomePasses(h.filter);
      var e := Broadcast(m, now, true, Io(true, true, true, Nothing), false);
      RotateKeeps(w, now, e.io);
      var h' := Step(h, e);
      assert ClosedAs(w, h'.wal);
      var rest := PurgedRun(h', w, a);
      RunsFirst(h, e, rest);
      es := [e] + rest;
    } else {
      var now := NewName(w.dir.Keys);
      assert ClosedAs(w, w);
      es := PurgedRun(h, w, a);
    }
  }

  /** Nothing is purged at the first instance. */
  lemma AllLast(w: Wal<GMessage>)
    ensures forall x :: Logged(w.dir, x) ==> Lasts(w, x, 0)
  {
    forall x | Logged(w.dir, x)
      ensures Lasts(w, x, 0)
    {
      var name :| name in w.dir && x in Readable(w.dir[name]);
      assert LastsIn(w, name, x, 0);
    }
  }

  lemma PublishesNext(h: Host, local: PeerID, files: seq<LogStat>, b: GMessage) returns (es: seq<Event>)
    requires WalOk(h.wal) && Hydrated(EPOCH, h.wal.dir, files)
    requires Broadcasted(Replayed(NewFilter(local), Entries(h.wal.dir, files)), b).1
    ensures Runs(h, es) && Final(h, es).published == h.published + {b} && Final(h, es).floor == h.floor
    ensures Final(h, es).taken == h.taken && h.lost <= Final(h, es).lost
  {
    var e1, e2 := Restart(local, files), Broadcast(b, "", false, Io(true, true, true, Complete), true);
    var h1 := Step(h, e1);
    ReopenKeeps(EPOCH, h.wal.dir, files);
    var h2 := Step(h1, e2);
    assert Runs(h2, []) && Final(h2, []) == h2;
    RunsFirst(h1, e2, []);
    RunsFirst(h, e1, [e2] + []);
    es := [e1] + ([e2] + []);
  }

  /** A published signature stays the only one of its slot, whatever happens, if and only if a file
      that no purge at or below the instance removes holds it or an entry of a later instance. */
  lemma FinalExactly(h: Host, a: GMessage)
    requires HostInv(h) && !Taken(h, a) && OnlySignature(h, a) && a.vote.instance >= h.floor
    ensures (forall es :: StaysOnly(h, a, es)) <==> Sealed(h, a)
  {
    if Sealed(h, a) {
      forall es
        ensures StaysOnly(h, a, es)
      {
        SealedRun(h, a, es);
      }
    } else {
      var es := UnsealedRun(h, a);
    }
  }

  /** A message whose sync failed becomes final with the next one that is synced into its file. */
  lemma SyncSealsEarlier(w: Wal<GMessage>, a: GMessage, b: GMessage, now: Name, io: Io)
    requires WalOk(w) && Writable(w, now, false, io) && w.active.Some? && io.write.Complete?
    requires a in Readable(w.dir[w.active.value.name]) && a.vote.instance <= b.vote.instance
    ensures Lasts(Appended(EPOCH, w, b, now, false, io).0, a, a.vote.instance)
  {
    var name := w.active.value.name;
    ReadableAppend(w.dir[name], Whole(b));
    assert LastsIn(Appended(EPOCH, w, b, now, false, io).0, name, a, a.vote.instance);
  }

  const SYNCED: Io := Io(true, true, true, Complete)

  /** What a broadcast that passes the filter does, apart from the log. */
  lemma Passes(h: Host, m: GMessage) returns (e: Event, h': Host)
    requires HostInv(h) && Broadcasted(h.filter, m).1
    ensures Enabled(h, e) && h' == Step(h, e) && HostInv(h') && h'.filter == Broadcasted(h.filter, m).0
    ensures h'.published == h.published + {m} && h'.taken == h.taken && h'.floor == h.floor
  {
    e := Broadcast(m, "", false, SYNCED, true);
    var h1 := NotedKeeps(h, m, "", false, SYNCED);
    PublishKeeps(h1, m, true);
    h' := Step(h, e);
  }

  /** A slot that another node's message took first, and two signatures of this node in it. */
  lemma TwoPassFilter(f0: Filter, q: GMessage, o: GMessage, a: GMessage, b: GMessage)
    requires f0 == NewFilter(1) && q.sender == o.sender == a.sender == b.sender == 7
    requires q.vote.instance == o.vote.instance == a.vote.instance == b.vote.instance == 0
    requires SlotOf(q) != SlotOf(o) && SlotOf(o) == SlotOf(a) == SlotOf(b) && o.signature != a.signature
    requires o.signature != b.signature
    ensures var f1 := Broadcasted(f0, q).0;
      var f2 := Received(f1, 2, o);
      var f3 := Broadcasted(f2, a).0;
      Broadcasted(f0, q).1 && Fills(f1, o) && Broadcasted(f2, a).1 && Broadcasted(f3, b).1
  {
    AloneSender();
    var f1 := Broadcasted(f0, q).0;
    assert f1.active == map[7 := Senders([1], false)];
    var f2 := Received(f1, 2, o);
    var f3 := Broadcasted(f2, a).0;
    assert f3.active[7] == Senders([1], true);
  }

  /** The first exception is needed: once a received message fills a slot of a participant that this node
      signs for, the node may publish two signatures in that slot. */
  lemma TakenSlotPublishesTwo() returns (es: seq<Event>, a: GMessage, b: GMessage)
    ensures Runs(FreshHost(1), es)
    ensures var h := Final(FreshHost(1), es);
      && a in h.published && b in h.published && SameSlot(a, b) && a.signature != b.signature
      && a.vote.instance >= h.floor && Taken(h, a)
  {
    var supplement := SupplementalData([], []);
    var quality := GMessage(7, Payload(0, 0, QUALITY, supplement, []), [1], Unranked, None);
    var vote := Payload(0, 0, PREPARE, supplement, []);
    var other := GMessage(7, vote, [2], Unranked, None);
    a, b := GMessage(7, vote, [3], Unranked, None), GMessage(7, vote, [4], Unranked, None);
    TwoPassFilter(NewFilter(1), quality, other, a, b);
    FreshInv(1);
    var e1, h1 := Passes(FreshHost(1), quality);
    var e2 := Receive(2, other);
    ReceiveKeeps(h1, 2, other);
    var h2 := Step(h1, e2);
    var e3, h3 := Passes(h2, a);
    var e4, h4 := Passes(h3, b);
    RunsFirst(h3, e4, []);
    RunsFirst(h2, e3, [e4] + []);
    RunsFirst(h1, e2, [e3] + ([e4] + []));
    RunsFirst(FreshHost(1), e1, [e2] + ([e3] + ([e4] + [])));
    es := [e1] + ([e2] + ([e3] + ([e4] + [])));
  }

  lemma EmptyEntries(dir: Directory<GMessage>) returns (files: seq<LogStat>)
    requires forall m :: !Logged(dir, m)
    ensures Hydrated(EPOCH, dir, files) && Entries(dir, files) == []
  {
    files := CanHydrate(EPOCH, dir);
    ReopenKeeps(EPOCH, dir, files);
    var entries := Entries(dir, files);
    assert |entries| > 0 ==> entries[0] in entries;
  }

  /** A record that is not written leaves nothing of its message. */
  lemma NothingWritten(w: Wal<GMessage>, m: GMessage, now: Name, full: bool, io: Io)
    requires WalOk(w) && io.write.Nothing? && forall x :: !Logged(w.dir, x)
    ensures var w' := Appended(EPOCH, w, m, now, full, io).0;
      forall x, k :: !Logged(w'.dir, x) && !Lasts(w', x, k)
  {
    AppendKeeps(EPOCH, w, m, now, full, io);
    var w' := Appended(EPOCH, w, m, now, full, io).0;
    forall x, k | Lasts(w', x, k)
      ensures false
    {
      LastingIsLogged(w', x, k);
    }
  }

  lemma NothingLogged(a: GMessage) returns (e: Event, h': Host, files: seq<LogStat>)
    requires Broadcasted(NewFilter(1), a).1
    ensures Enabled(FreshHost(1), e) && h' == Step(FreshHost(1), e) && HostInv(h') && h'.taken == {} && h'.floor == 0
    ensures a in h'.published && Lost(h', a) && Hydrated(EPOCH, h'.wal.dir, files) && Entries(h'.wal.dir, files) == []
  {
    var h, io := FreshHost(1), Io(true, true, true, Nothing);
    e := Broadcast(a, "", false, io, true);
    FreshInv(1);
    var h1 := NotedKeeps(h, a, "", false, io);
    PublishKeeps(h1, a, true);
    h' := Step(h, e);
    assert forall m :: !InLog(h, m);
    NothingWritten(h.wal, a, "", false, io);
    files := EmptyEntries(h'.wal.dir);
  }

  /** So is the second: a message that could not be logged is forgotten by a restart. */
  lemma LostSlotPublishesTwo() returns (es: seq<Event>, a: GMessage, b: GMessage)
    ensures Runs(FreshHost(1), es)
    ensures var h := Final(FreshHost(1), es);
      && a in h.published && b in h.published && SameSlot(a, b) && a.signature != b.signature
      && a.vote.instance >= h.floor && !Taken(h, a) && Lost(h, a)
  {
    AloneSender();
    a := GMessage(7, Payload(0, 0, PREPARE, SupplementalData([], []), []), [3], Unranked, None);
    b := a.(signature := [4]);
    var e, h1, files := NothingLogged(a);
    var more := PublishesNext(h1, 1, files, b);
    RunsFirst(FreshHost(1), e, more);
    es := [e] + more;
  }

  lemma AloneSender()
    ensures AddSender(Senders([], false), 1, false) == Senders([1], false)
    ensures forall x, y :: AddSender(Senders([1], x), 1, y) == Senders([1], x || y)
  {
    assert [] + [1] == [1];
    var one: seq<PeerID> := [1];
    assert one[1..] == [];
    assert SortPeers(one[1..]) == [];
    assert SortPeers(one) == InsertPeer([], 1);
  }
}

/** The runner that broadcasts for the participants (host.go). */
module Runners {
  import opened Messages
  import opened Equivocation
  import opened WriteAheadLogs
  import Hosts

  datatype RoundPhase = RoundPhase(round: nat, phase: Phase)

  type SelfMessages = map<nat, map<RoundPhase, seq<GMessage>>>

  function RoundPhaseOf(m: GMessage): RoundPhase {
    RoundPhase(m.vote.round, m.vote.phase)
  }

  predicate Remembered(self: SelfMessages, m: GMessage) {
    && m.vote.instance in self && RoundPhaseOf(m) in self[m.vote.instance]
    && m in self[m.vote.instance][RoundPhaseOf(m)]
  }

  /** Appends a message under its instance, round and phase. */
  method AddSelf(self: SelfMessages, m: GMessage) returns (r: SelfMessages)
    ensures forall x :: Remembered(r, x) <==> Remembered(self, x) || x == m
    ensures r.Keys == self.Keys + {m.vote.instance}
  {
    var key := RoundPhaseOf(m);
    var byKey := if m.vote.instance in self then self[m.vote.instance] else map[];
    var messages := if key in byKey then byKey[key] else [];
    r := self[m.vote.instance := byKey[key := messages + [m]]];
  }

  /** Forgets the messages of instances before `instance`. */
  method Trim(self: SelfMessages, instance: nat) returns (r: SelfMessages)
    ensures forall x :: Remembered(r, x) <==> Remembered(self, x) && x.vote.instance >= instance
  {
    r := self;
    var todo := self.Keys;
    while todo != {}
      invariant todo <= self.Keys
      invariant r == self - (set i | i in self.Keys - todo && i < instance)
      decreases |todo|
    {
      var i :| i in todo;
      todo := todo - {i};
      if i < instance {
        r := r - {i};
      }
    }
    var gone := set i | i in self.Keys - todo && i < instance;
    assert r == self - gone;
  }

  /** Passes logged messages through a filter, and keeps those of the largest instance. */
  method Replay(filter: EquivocationFilter, entries: seq<GMessage>) returns (self: SelfMessages)
    requires filter.Valid()
    modifies filter
    ensures filter.Valid() && filter.View() == Hosts.Replayed(old(filter.View()), entries)
    ensures forall m :: Remembered(self, m) <==> m in Hosts.SelfFrom(entries)
    ensures forall m :: Remembered(self, m) <==>
      m in entries && forall x :: x in entries ==> x.vote.instance <= m.vote.instance
  {
    self := map[];
    var maxInstance := 0;
    for i := 0 to |entries|
      invariant filter.Valid() && filter.View() == Hosts.Replayed(old(filter.View()), entries[..i])
      invariant forall m :: Remembered(self, m) <==> m in entries[..i]
      invariant maxInstance == Hosts.MaxInstance(entries[..i])
    {
      assert entries[..i + 1] == entries[..i] + [entries[i]];
      assert entries[..i + 1][..i] == entries[..i];
      var publish := filter.ProcessBroadcast(entries[i]);
      self := AddSelf(self, entries[i]);
      maxInstance := if maxInstance < entries[i].vote.instance then entries[i].vote.instance else maxInstance;
    }
    assert entries[..|entries|] == entries;
    self := Trim(self, maxInstance);
    Hosts.MaxInstanceExactly(entries);
  }

  class Runner {
    const filter: EquivocationFilter
    const wal: WriteAheadLog<GMessage>
    var selfMessages: SelfMessages
    var topic: seq<GMessage>
    ghost var host: Hosts.Host

    ghost predicate Valid()
      reads this, filter, wal
    {
      && filter.Valid() && wal.Valid() && wal.epoch == Hosts.EPOCH
      && host.filter == filter.View() && host.wal == wal.State()
      && (forall m :: m in host.self <==> Remembered(selfMessages, m))
      && (forall m :: m in host.published <==> m in topic)
    }

    /** Starts over a log directory: its entries are replayed through the filter. */
    constructor (local: PeerID, dir: Directory<GMessage>, topic: seq<GMessage>, ghost before: Hosts.Host)
      requires WalOk(before.wal) && before.wal.dir == dir && forall m :: m in before.published <==> m in topic
      ensures Valid() && fresh(filter) && fresh(wal) && this.topic == topic && wal.dir == dir
      ensures exists e ::
        e == Hosts.Restart(local, wal.logFiles) && Hosts.Enabled(before, e) && host == Hosts.Step(before, e)
    {
      filter := new EquivocationFilter(local);
      var log := new WriteAheadLog(Hosts.EPOCH, dir);
      wal := log;
      this.topic := topic;
      selfMessages := map[];
      host := before;
      new;
      var entries := wal.All();
      selfMessages := Replay(filter, entries);
      host := Hosts.Step(before, Hosts.Restart(local, wal.logFiles));
    }

    /** Filters, logs and publishes a message; it is published even when it cannot be logged. */
    method BroadcastMessage(m: GMessage, now: Name, full: bool, io: Io, sent: bool)
      requires Valid()
      modifies this, filter, wal
      ensures Valid() && host == Hosts.Step(old(host), Hosts.Broadcast(m, now, full, io, sent))
    {
      var publish := filter.ProcessBroadcast(m);
      host := host.(filter := filter.View());
      if !publish {
        return;
      }
      LogMessage(m, now, full, io);
      if !sent {
        return;
      }
      topic := topic + [m];
      host := host.(published := host.published + {m});
    }

    /** Logs a message if possible, and remembers it. */
    method LogMessage(m: GMessage, now: Name, full: bool, io: Io)
      requires Valid()
      modifies `host, `selfMessages, wal
      ensures Valid() && host == Hosts.Noted(old(host), m, now, full, io)
    {
      var ok := wal.Append(m, now, full, io);
      selfMessages := AddSelf(selfMessages, m);
      host := Hosts.Noted(host, m, now, full, io);
    }

    /** Publishes one of the node's own messages again, without logging it again. */
    method RebroadcastMessage(m: GMessage, sent: bool)
      requires Valid() && Remembered(selfMessages, m)
      modifies this, filter
      ensures Valid() && Hosts.Enabled(old(host), Hosts.Rebroadcast(m, sent))
      ensures host == Hosts.Step(old(host), Hosts.Rebroadcast(m, sent))
    {
      var publish := filter.ProcessBroadcast(m);
      host := host.(filter := filter.View());
      if !publish || !sent {
        return;
      }
      topic := topic + [m];
      host := host.(published := host.published + {m});
    }

    /** After a certificate: purges the log up to a few instances back, and the node's own messages.
        `stuck` are the files that cannot be removed. */
    method Finalized(instance: nat, stuck: set<Name>)
      requires Valid()
      modifies this, wal
      ensures Valid() && host == Hosts.Step(old(host), Hosts.Finalize(instance, stuck))
      ensures forall m :: m in host.self <==> m in old(host.self) && m.vote.instance >= instance
      ensures wal.State() == if instance > 5 then Purged(old(wal.State()), instance - 5, stuck) else old(wal.State())
    {
      if instance > Hosts.KEEP_INSTANCES_IN_WAL {
        wal.Purge(instance - Hosts.KEEP_INSTANCES_IN_WAL, stuck);
      }
      selfMessages := Trim(selfMessages, instance);
      host := Hosts.Finalized(host, instance, stuck);
    }
  }
}
