/** The certificate store: checkpointed tables, replayed deltas, crashes (certstore/certstore.go). */
module CertStore {
  import opened Basics
  import opened Chains
  import opened Power
  import opened Sorting
  import opened Diffs
  import opened Tables
  import opened Certificates

  type Table = seq<PowerEntry>

  /** What the datastore holds under the store's keys. */
  datatype Disk = Disk(
    latest: Option<nat>,
    first: Option<nat>,
    certs: map<nat, Certificate>,
    power: map<nat, Table>)

  function Deltas(certs: seq<Certificate>): seq<seq<Delta>> {
    seq(|certs|, i requires 0 <= i < |certs| => certs[i].delta)
  }

  ghost predicate GoodTable(t: Table) {
    t != [] && DistinctIds(t) && Sorted(Less, t)
  }

  /** All deltas of the certificates folded onto the initial table. */
  ghost function Replay(initial: Table, certs: seq<Certificate>): Option<Table> {
    ApplyToTable(initial, Deltas(certs))
  }

  /** Replaying the first `k` certificates gives a table, the one that certificate `k - 1` names. */
  ghost predicate Replays(cr: Crypto, initial: Table, certs: seq<Certificate>, k: nat)
    requires k <= |certs|
  {
    && Replay(initial, certs[..k]).Some? && GoodTable(Replay(initial, certs[..k]).value)
    && (k > 0 ==> certs[k - 1].supplement.powerTable == cr.cid(Replay(initial, certs[..k]).value))
  }

  /** Consecutive certificates from `first` on, whose deltas never empty the table. */
  ghost predicate History(cr: Crypto, first: nat, initial: Table, certs: seq<Certificate>) {
    && GoodTable(initial)
    && (forall i :: 0 <= i < |certs| ==>
          certs[i].instance == first + i && certs[i].chain != BOTTOM && ValidChain(certs[i].chain))
    && (forall k :: 0 <= k <= |certs| ==> Replays(cr, initial, certs, k))
  }

  function Last(certs: seq<Certificate>): Option<Certificate> {
    if certs == [] then None else Some(certs[|certs| - 1])
  }

  /** The disk has the certificates, and a table at the first instance and at every instance that
      is due; beyond the latest certificate anything may be left over. */
  ghost predicate Stored(d: Disk, due: nat -> bool, first: nat, initial: Table, certs: seq<Certificate>)
  {
    && d.first == Some(first)
    && d.latest == (if certs == [] then None else Some(first + |certs| - 1))
    && (forall n :: first <= n < first + |certs| ==> n in d.certs && d.certs[n] == certs[n - first])
    && (forall n :: first <= n <= first + |certs| && (n == first || due(n)) ==>
          n in d.power && Some(d.power[n]) == Replay(initial, certs[..n - first]))
  }

  ghost predicate Holds(cr: Crypto, d: Disk, due: nat -> bool, first: nat, initial: Table, certs: seq<Certificate>)
  {
    History(cr, first, initial, certs) && Stored(d, due, first, initial, certs)
  }

  // ---------- replaying ----------

  lemma {:induction false} ApplyDiffsSplit(m: EntryMap, a: seq<seq<Delta>>, b: seq<seq<Delta>>)
    ensures ApplyDiffs(m, a + b) ==
      (match ApplyDiffs(m, a)
       case None => None
       case Some(m') => ApplyDiffs(m', b))
    decreases |b|
  {
    if b == [] {
      assert a + b == a;
    } else {
      var n := |b| - 1;
      assert (a + b)[..|a + b| - 1] == a + b[..n];
      ApplyDiffsSplit(m, a, b[..n]);
    }
  }

  /** Replaying in one go or in two gives the same table. */
  lemma ReplaySplit(t: Table, a: seq<seq<Delta>>, b: seq<seq<Delta>>)
    ensures ApplyToTable(t, a + b) ==
      (match ApplyToTable(t, a)
       case None => None
       case Some(t') => ApplyToTable(t', b))
  {
    ToMapMembers(t);
    ApplyDiffsSplit(ToMap(t), a, b);
    if ApplyDiffs(ToMap(t), a).Some? {
      ApplyDiffsKeys(ToMap(t), a);
    }
  }

  /** Skipping an empty delta, as Put does, agrees with replaying it just for tables that are sorted
      and name no participant twice. */
  lemma EmptyReplay(t: Table)
    ensures ApplyToTable(t, []) == ApplyToTable(t, [[]])
    ensures ApplyToTable(t, [[]]) == Some(t) <==> DistinctIds(t) && Sorted(Less, t)
  {
    ToMapMembers(t);
    var none: seq<Delta> := [];
    assert [none][..0] == [];
    if DistinctIds(t) && Sorted(Less, t) {
      TableUnique(t, TableOf(ToMap(t)), ToMap(t));
    }
  }

  lemma DeltasSplit(certs: seq<Certificate>, k: nat)
    requires k <= |certs|
    ensures Deltas(certs) == Deltas(certs[..k]) + Deltas(certs[k..])
  {
  }

  lemma ReplayNext(initial: Table, certs: seq<Certificate>, cert: Certificate)
    requires Replay(initial, certs).Some?
    ensures Replay(initial, certs + [cert]) == ApplyToTable(Replay(initial, certs).value, [cert.delta])
  {
    assert Deltas(certs + [cert]) == Deltas(certs) + [cert.delta];
    ReplaySplit(initial, Deltas(certs), [cert.delta]);
  }

  lemma ReplayFrom(initial: Table, certs: seq<Certificate>, k: nat, i: nat)
    requires k <= i <= |certs| && Replay(initial, certs[..k]).Some?
    ensures Replay(initial, certs[..i]) == ApplyToTable(Replay(initial, certs[..k]).value, Deltas(certs[k..i]))
  {
    assert certs[..i][..k] == certs[..k] && certs[..i][k..] == certs[k..i];
    DeltasSplit(certs[..i], k);
    ReplaySplit(initial, Deltas(certs[..k]), Deltas(certs[k..i]));
  }

  /** Tables are stored at the multiples of the frequency. */
  function Every(frequency: nat): nat -> bool
    requires frequency > 0
  {
    (n: nat) => n % frequency == 0
  }

  /** The checkpoint at or before an instance is on disk. */
  lemma CheckpointBefore(frequency: nat, first: nat, instance: nat)
    requires frequency > 0 && first <= instance
    ensures var start := if instance - instance % frequency >= first then instance - instance % frequency else first;
      && first <= start <= instance && (start == first || Every(frequency)(start))
  {
    var m := instance - instance % frequency;
    assert m == frequency * (instance / frequency);
    MultipleMod(instance / frequency, frequency);
  }

  lemma MultipleMod(q: nat, f: nat)
    requires f > 0
    ensures (f * q) % f == 0
  {
    var m := f * q;
    var k := q - m / f;
    assert m % f == f * k;
    assert k >= 1 ==> f * k >= f;
    assert k <= -1 ==> f * k <= 0 - f;
  }

  // ---------- writing ----------

  /** Put's writes in order: the certificate, the table when it is due, the latest marker; `n` of
      them reach the disk. */
  function AfterWrites(d: Disk, due: nat -> bool, cert: Certificate, table: Table, n: nat): Disk
  {
    var d1 := if n >= 1 then d.(certs := d.certs[cert.instance := cert]) else d;
    var d2 := if due(cert.instance + 1) && n >= 2 then d1.(power := d1.power[cert.instance + 1 := table]) else d1;
    if n >= (if due(cert.instance + 1) then 3 else 2) then d2.(latest := Some(cert.instance)) else d2
  }

  /** What Put checks of a certificate for the next instance. */
  ghost predicate Admissible(cr: Crypto, table: Table, cert: Certificate) {
    && cert.chain != BOTTOM && ValidChain(cert.chain)
    && ApplyToTable(table, [cert.delta]).Some?
    && cert.supplement.powerTable == cr.cid(ApplyToTable(table, [cert.delta]).value)
    && ApplyToTable(table, [cert.delta]).value != []
  }

  /** The certificate is admissible right after the history. */
  ghost predicate Continues(cr: Crypto, first: nat, initial: Table, certs: seq<Certificate>, cert: Certificate) {
    && History(cr, first, initial, certs)
    && cert.instance == first + |certs|
    && Replay(initial, certs).Some? && Admissible(cr, Replay(initial, certs).value, cert)
  }

  lemma HistoryEnd(cr: Crypto, first: nat, initial: Table, certs: seq<Certificate>)
    requires History(cr, first, initial, certs)
    ensures Replay(initial, certs).Some? && GoodTable(Replay(initial, certs).value)
  {
    assert certs[..|certs|] == certs;
    assert Replays(cr, initial, certs, |certs|);
  }

  lemma HistoryExtends(cr: Crypto, first: nat, initial: Table, certs: seq<Certificate>, cert: Certificate)
    requires Continues(cr, first, initial, certs, cert)
    ensures History(cr, first, initial, certs + [cert])
    ensures Replay(initial, certs + [cert]) == ApplyToTable(Replay(initial, certs).value, [cert.delta])
  {
    var all := certs + [cert];
    ReplayNext(initial, certs, cert);
    var table := Replay(initial, certs).value;
    assert IsTable(ApplyToTable(table, [cert.delta]).value, ToMap(ApplyToTable(table, [cert.delta]).value));
    forall k | 0 <= k <= |all|
      ensures Replays(cr, initial, all, k)
    {
      if k <= |certs| {
        assert all[..k] == certs[..k];
        assert Replays(cr, initial, certs, k);
      } else {
        assert all[..k] == all;
      }
    }
  }

  /** How many writes a Put makes. */
  function WritesOf(due: nat -> bool, cert: Certificate): nat
  {
    if due(cert.instance + 1) then 3 else 2
  }

  lemma StoppedEarly(d: Disk, due: nat -> bool, first: nat, initial: Table, certs: seq<Certificate>, cert: Certificate,
      table: Table, n: nat)
    requires Stored(d, due, first, initial, certs) && cert.instance == first + |certs|
    requires n < WritesOf(due, cert)
    ensures Stored(AfterWrites(d, due, cert, table, n), due, first, initial, certs)
  {
  }

  lemma Finished(d: Disk, due: nat -> bool, first: nat, initial: Table, certs: seq<Certificate>, cert: Certificate,
      table: Table, n: nat)
    requires Stored(d, due, first, initial, certs) && cert.instance == first + |certs|
    requires n >= WritesOf(due, cert) && Replay(initial, certs + [cert]) == Some(table)
    ensures Stored(AfterWrites(d, due, cert, table, n), due, first, initial, certs + [cert])
  {
    var all := certs + [cert];
    var d' := AfterWrites(d, due, cert, table, n);
    forall k | first <= k <= first + |all| && (k == first || due(k))
      ensures k in d'.power && Some(d'.power[k]) == Replay(initial, all[..k - first])
    {
      FinishedAt(d, due, first, initial, certs, cert, table, n, all, k);
    }
  }

  lemma FinishedAt(d: Disk, due: nat -> bool, first: nat, initial: Table, certs: seq<Certificate>, cert: Certificate,
      table: Table, n: nat, all: seq<Certificate>, k: nat)
    requires Stored(d, due, first, initial, certs) && cert.instance == first + |certs| && all == certs + [cert]
    requires n >= WritesOf(due, cert) && Replay(initial, all) == Some(table)
    requires first <= k <= first + |all| && (k == first || due(k))
    ensures var d' := AfterWrites(d, due, cert, table, n);
      k in d'.power && Some(d'.power[k]) == Replay(initial, all[..k - first])
  {
    if k == first + |all| {
      assert all[..k - first] == all;
    } else {
      assert all[..k - first] == certs[..k - first];
    }
  }

  /** A Put that stops early leaves the history before it; one that finishes, the history after. */
  lemma PutAtomic(cr: Crypto, d: Disk, due: nat -> bool, first: nat, initial: Table, certs: seq<Certificate>,
      cert: Certificate, n: nat)
    requires Holds(cr, d, due, first, initial, certs)
    requires Continues(cr, first, initial, certs, cert)
    ensures Replay(initial, certs + [cert]).Some?
    ensures var d' := AfterWrites(d, due, cert, Replay(initial, certs + [cert]).value, n);
      Holds(cr, d', due, first, initial, if n >= WritesOf(due, cert) then certs + [cert] else certs)
  {
    HistoryExtends(cr, first, initial, certs, cert);
    var table := Replay(initial, certs + [cert]).value;
    if n >= WritesOf(due, cert) {
      Finished(d, due, first, initial, certs, cert, table, n);
    } else {
      StoppedEarly(d, due, first, initial, certs, cert, table, n);
    }
  }

  // ---------- runs ----------

  /** A certificate is put and only so many of its writes succeed, or the store is opened again. */
  datatype Event = PutEvent(cert: Certificate, writes: nat) | Reopen

  /** The disk, and the certificates the open store knows of. */
  datatype Opened = Opened(disk: Disk, certs: seq<Certificate>)

  /** The certificates that opening a store finds. */
  function Recovered(d: Disk, first: nat): seq<Certificate> {
    if d.latest == None || d.latest.value < first then []
    else
      var n := d.latest.value - first + 1;
      if forall k :: first <= k < first + n ==> k in d.certs then
        seq(n, i requires 0 <= i < n => d.certs[first + i])
      else []
  }

  ghost function Stepped(cr: Crypto, due: nat -> bool, first: nat, initial: Table, s: Opened, e: Event): Opened
  {
    match e
    case Reopen => Opened(s.disk, Recovered(s.disk, first))
    case PutEvent(cert, writes) =>
      if !Continues(cr, first, initial, s.certs, cert) then s
      else
        HistoryExtends(cr, first, initial, s.certs, cert);
        Opened(AfterWrites(s.disk, due, cert, Replay(initial, s.certs + [cert]).value, writes),
               if writes >= WritesOf(due, cert) then s.certs + [cert] else s.certs)
  }

  ghost function Ran(cr: Crypto, due: nat -> bool, first: nat, initial: Table, s: Opened, es: seq<Event>): Opened
    decreases |es|
  {
    if es == [] then s
    else Ran(cr, due, first, initial, Stepped(cr, due, first, initial, s, es[0]), es[1..])
  }

  function CreatedDisk(d: Disk, first: nat, initial: Table): Disk {
    d.(power := d.power[first := initial], first := Some(first))
  }

  lemma CreatedHolds(cr: Crypto, d: Disk, due: nat -> bool, first: nat, initial: Table)
    requires GoodTable(initial) && d.latest == None
    ensures Holds(cr, CreatedDisk(d, first, initial), due, first, initial, [])
  {
    EmptyReplay(initial);
    var none: seq<Certificate> := [];
    assert Deltas(none) == [] && none[..0] == none;
    assert Replays(cr, initial, none, 0);
  }

  lemma RecoveredHistory(cr: Crypto, d: Disk, due: nat -> bool, first: nat, initial: Table, certs: seq<Certificate>)
    requires Holds(cr, d, due, first, initial, certs)
    ensures Recovered(d, first) == certs
  {
  }

  /** Over every run of puts, failed or interrupted writes and reopenings, the disk holds the
      history, reopening finds it, and the history only ever grows. */
  lemma {:induction false} RunHolds(cr: Crypto, due: nat -> bool, first: nat, initial: Table, s: Opened, es: seq<Event>)
    requires Holds(cr, s.disk, due, first, initial, s.certs)
    ensures var s' := Ran(cr, due, first, initial, s, es);
      && Holds(cr, s'.disk, due, first, initial, s'.certs)
      && Recovered(s'.disk, first) == s'.certs
      && s.certs <= s'.certs
    decreases |es|
  {
    RecoveredHistory(cr, s.disk, due, first, initial, s.certs);
    if es != [] {
      match es[0] {
        case Reopen =>
        case PutEvent(cert, writes) =>
          if Continues(cr, first, initial, s.certs, cert) {
            PutAtomic(cr, s.disk, due, first, initial, s.certs, cert, writes);
          }
      }
      RunHolds(cr, due, first, initial, Stepped(cr, due, first, initial, s, es[0]), es[1..]);
    }
  }

  /** A store created over an empty index, after any run. */
  lemma CreatedRunHolds(cr: Crypto, due: nat -> bool, d: Disk, first: nat, initial: Table, es: seq<Event>)
    requires GoodTable(initial) && d.latest == None
    ensures var s' := Ran(cr, due, first, initial, Opened(CreatedDisk(d, first, initial), []), es);
      && Holds(cr, s'.disk, due, first, initial, s'.certs)
      && Recovered(s'.disk, first) == s'.certs
  {
    CreatedHolds(cr, d, due, first, initial);
    RunHolds(cr, due, first, initial, Opened(CreatedDisk(d, first, initial), []), es);
  }

  // ---------- the store ----------

  /** The table after a certificate, or an error; an empty delta keeps the table as it is. */
  method NextPowerTable(cr: Crypto, table: Table, cert: Certificate) returns (r: Option<Table>)
    requires GoodTable(table) && cert.chain != BOTTOM && ValidChain(cert.chain)
    ensures r == if Admissible(cr, table, cert) then ApplyToTable(table, [cert.delta]) else None
  {
    EmptyReplay(table);
    var newPowerTable := table;
    if |cert.delta| > 0 {
      var applied := ApplyPowerTableDiffs(table, [cert.delta]);
      if applied.None? {
        return None;
      }
      newPowerTable := applied.value;
    }
    if cr.cid(newPowerTable) != cert.supplement.powerTable || |newPowerTable| == 0 {
      return None;
    }
    r := Some(newPowerTable);
  }

  class Store {
    const cr: Crypto
    const frequency: nat
    var ds: Disk
    var firstInstance: nat
    var latestCertificate: Option<Certificate>
    var latestPowerTable: Table
    ghost var initial: Table
    ghost var history: seq<Certificate>

    ghost predicate OnDisk()
      reads this
    {
      && frequency > 0 && Holds(cr, ds, Every(frequency), firstInstance, initial, history)
      && latestCertificate == Last(history)
    }

    ghost predicate Valid()
      reads this
    {
      OnDisk() && Replay(initial, history) == Some(latestPowerTable)
    }

    constructor (cr: Crypto, frequency: nat, ds: Disk, firstInstance: nat, latestCertificate: Option<Certificate>,
                 ghost initial: Table, ghost history: seq<Certificate>)
      ensures this.cr == cr && this.frequency == frequency && this.ds == ds && this.firstInstance == firstInstance
      ensures this.latestCertificate == latestCertificate && latestPowerTable == []
      ensures this.initial == initial && this.history == history
    {
      this.cr, this.frequency, this.ds, this.firstInstance := cr, frequency, ds, firstInstance;
      this.latestCertificate, latestPowerTable := latestCertificate, [];
      this.initial, this.history := initial, history;
    }

    /** The stored certificates from `start` to `end`, up to the first one missing. */
    method GetRange(start: nat, end: nat) returns (certs: seq<Certificate>, ok: bool)
      ensures ok <==> start <= end && forall i :: start <= i <= end ==> i in ds.certs
      ensures start <= end ==> |certs| <= end - start + 1
      ensures start > end ==> certs == []
      ensures forall n :: start <= n < start + |certs| ==> n in ds.certs && ds.certs[n] == certs[n - start]
      ensures start <= end && !ok ==> start + |certs| <= end && start + |certs| !in ds.certs
      ensures ok ==> |certs| == end - start + 1
    {
      certs := [];
      if start > end {
        return certs, false;
      }
      var i := start;
      while i <= end
        invariant start <= i <= end + 1 && |certs| == i - start
        invariant forall n :: start <= n < i ==> n in ds.certs && ds.certs[n] == certs[n - start]
      {
        if i !in ds.certs {
          return certs, false;
        }
        certs := certs + [ds.certs[i]];
        i := i + 1;
      }
      ok := true;
    }

    function NextInstance(): nat
      reads this
    {
      NextAfter(firstInstance, latestCertificate)
    }

    /** The table that validates an instance: from the nearest stored table, replaying the deltas
        that follow it. */
    method GetPowerTable(instance: nat) returns (r: Option<Table>)
      requires frequency > 0
      ensures instance < firstInstance || instance > NextInstance() ==> r == None
      ensures instance == NextInstance() && instance >= firstInstance && latestPowerTable != [] ==>
        r == Some(latestPowerTable)
      ensures firstInstance <= instance <= NextInstance() && (instance < NextInstance() || latestPowerTable == []) ==>
        r == TableOnDisk(ds, frequency, firstInstance, instance)
      ensures
        && OnDisk() && (latestPowerTable == [] || Valid())
        && firstInstance <= instance <= firstInstance + |history|
        ==>
          r == Replay(initial, history[..instance - firstInstance])
    {
      r := FindPowerTable(instance);
      assert history[..|history|] == history;
      if OnDisk() && firstInstance <= instance <= firstInstance + |history| {
        ReplayOnDisk(cr, ds, frequency, firstInstance, initial, history, instance);
      }
    }

    method FindPowerTable(instance: nat) returns (r: Option<Table>)
      requires frequency > 0
      ensures r == if instance < firstInstance || instance > NextInstance() then None
                   else if instance == NextInstance() && latestPowerTable != [] then Some(latestPowerTable)
                   else TableOnDisk(ds, frequency, firstInstance, instance)
    {
      if instance < firstInstance || instance > NextInstance() {
        return None;
      }
      if instance == NextInstance() && |latestPowerTable| != 0 {
        return Some(latestPowerTable);
      }
      r := ReadPowerTable(instance);
    }

    method ReadPowerTable(instance: nat) returns (r: Option<Table>)
      requires frequency > 0 && firstInstance <= instance
      ensures r == TableOnDisk(ds, frequency, firstInstance, instance)
    {
      var start := StartOf(frequency, firstInstance, instance);
      if start !in ds.power {
        return None;
      }
      var table := ds.power[start];
      if start == instance {
        return Some(table);
      }
      var certs, ok := GetRange(start, instance - 1);
      if !ok {
        return None;
      }
      assert certs == CertsBetween(ds, start, instance);
      r := ApplyPowerTableDiffs(table, Deltas(certs));
    }

    /** Puts the certificate of the next instance; `writes` of the datastore writes succeed. */
    method Put(cert: Certificate, writes: nat) returns (ok: bool)
      requires Valid()
      modifies this
      ensures Valid() && initial == old(initial) && firstInstance == old(firstInstance)
      ensures Opened(ds, history) ==
        Stepped(cr, Every(frequency), firstInstance, initial, old(Opened(ds, history)), PutEvent(cert, writes))
      ensures ok <==>
        || |history| > |old(history)|
        || (&& firstInstance <= cert.instance < firstInstance + |old(history)|
            && cert.chain != BOTTOM && ValidChain(cert.chain))
    {
      if cert.instance < firstInstance {
        return false;
      }
      if cert.chain == BOTTOM {
        return false;
      }
      var valid := CheckChain(cert.chain);
      if !valid || cert.instance > NextInstance() {
        return false;
      }
      if cert.instance < NextInstance() {
        return true;
      }
      HistoryEnd(cr, firstInstance, initial, history);
      var newPowerTable := NextPowerTable(cr, latestPowerTable, cert);
      if newPowerTable.None? {
        return false;
      }
      ReplayNext(initial, history, cert);
      PutAtomic(cr, ds, Every(frequency), firstInstance, initial, history, cert, writes);
      ok := Write(cert, newPowerTable.value, writes);
      if !ok {
        return;
      }
      latestPowerTable, latestCertificate := newPowerTable.value, Some(cert);
      history := history + [cert];
    }

    /** Put's writes, the latest marker last. */
    method Write(cert: Certificate, table: Table, writes: nat) returns (ok: bool)
      requires frequency > 0
      modifies `ds
      ensures ds == AfterWrites(old(ds), Every(frequency), cert, table, writes)
      ensures ok <==> writes >= WritesOf(Every(frequency), cert)
      ensures ok ==>
        && ds.certs == old(ds.certs)[cert.instance := cert] && ds.latest == Some(cert.instance)
        && ds.power == if (cert.instance + 1) % frequency == 0 then old(ds.power)[cert.instance + 1 := table]
                       else old(ds.power)
    {
      var done := 0;
      if done == writes {
        return false;
      }
      ds := ds.(certs := ds.certs[cert.instance := cert]);
      done := done + 1;
      if (cert.instance + 1) % frequency == 0 {
        if done == writes {
          return false;
        }
        ds := ds.(power := ds.power[cert.instance + 1 := table]);
        done := done + 1;
      }
      if done == writes {
        return false;
      }
      ds := ds.(latest := Some(cert.instance));
      ok := true;
    }
  }

  ghost predicate StoredBetween(d: Disk, start: nat, end: nat) {
    forall n :: start <= n < end ==> n in d.certs
  }

  ghost function CertsBetween(d: Disk, start: nat, end: nat): seq<Certificate>
    requires start <= end && StoredBetween(d, start, end)
  {
    seq(end - start, i requires 0 <= i < end - start => d.certs[start + i])
  }

  /** The instance of the nearest stored table, at a checkpoint or at the first instance. */
  function StartOf(frequency: nat, first: nat, instance: nat): (start: nat)
    requires frequency > 0 && first <= instance
    ensures first <= start <= instance
  {
    var m := instance - instance % frequency;
    if m >= first then m else first
  }

  /** What a disk, whatever is on it, gives for the table of an instance. */
  ghost function TableOnDisk(d: Disk, frequency: nat, first: nat, instance: nat): Option<Table>
    requires frequency > 0 && first <= instance
  {
    var start := StartOf(frequency, first, instance);
    if start !in d.power || !StoredBetween(d, start, instance) then None
    else if start == instance then Some(d.power[start])
    else ApplyToTable(d.power[start], Deltas(CertsBetween(d, start, instance)))
  }

  /** The latest certificate, if there is one, is on the disk, and so is the table that follows it. */
  ghost predicate LatestReadable(d: Disk, frequency: nat, first: nat)
    requires frequency > 0
  {
    d.latest.Some? ==>
      && d.latest.value in d.certs
      && var next := d.certs[d.latest.value].instance + 1;
         first <= next && TableOnDisk(d, frequency, first, next).Some?
  }

  /** A disk on which a store can be opened or created. */
  ghost predicate Opens(d: Disk, frequency: nat, first: nat, initial: Table)
    requires frequency > 0
  {
    initial != [] && Agrees(d, first, initial) && LatestReadable(CreatedDisk(d, first, initial), frequency, first)
  }

  /** The latest certificate that the index points to; the outer None is an error. */
  method OpenLatest(d: Disk) returns (r: Option<Option<Certificate>>)
    ensures r == if d.latest == None then Some(None)
                 else if d.latest.value in d.certs then Some(Some(d.certs[d.latest.value]))
                 else None
  {
    if d.latest.None? {
      return Some(None);
    }
    if d.latest.value !in d.certs {
      return None;
    }
    r := Some(Some(d.certs[d.latest.value]));
  }

  /** Initializes a store that was not initialized before. */
  method CreateStore(cr: Crypto, frequency: nat, d: Disk, first: nat, initial: Table) returns (r: Option<Store>)
    requires frequency > 0
    ensures r.Some? <==> initial != [] && d.first == None && (d.latest.Some? ==> d.latest.value in d.certs)
    ensures r.Some? ==>
      initial != [] && d.first == None && fresh(r.value) && r.value.ds == CreatedDisk(d, first, initial)
    ensures r.Some? && d.latest == None && GoodTable(initial) ==>
      && r.value.Valid() && r.value.frequency == frequency && r.value.cr == cr
      && r.value.firstInstance == first && r.value.initial == initial && r.value.history == []
  {
    if |initial| == 0 {
      return None;
    }
    var latest := OpenLatest(d);
    if latest.None? || d.first.Some? {
      return None;
    }
    var s := new Store(cr, frequency, CreatedDisk(d, first, initial), first, latest.value, initial, []);
    s.latestPowerTable := initial;
    if d.latest == None && GoodTable(initial) {
      CreatedHolds(cr, d, Every(frequency), first, initial);
      HistoryEnd(cr, first, initial, []);
      EmptyReplay(initial);
    }
    r := Some(s);
  }

  /** The datastore is not initialized, or initialized in the same way. */
  predicate Agrees(d: Disk, first: nat, initial: Table) {
    d.first.Some? ==> d.first.value == first && first in d.power && d.power[first] == initial
  }

  /** Initializes a store, or opens one that was initialized in the same way. */
  method OpenOrCreateStore(cr: Crypto, frequency: nat, d: Disk, first: nat, initial: Table,
      ghost history: seq<Certificate>)
    returns (r: Option<Store>)
    requires frequency > 0
    ensures r.Some? <==> Opens(d, frequency, first, initial)
    ensures r.Some? ==> fresh(r.value) && r.value.ds == CreatedDisk(d, first, initial)
    ensures r.Some? ==> r.value.frequency == frequency && r.value.cr == cr && r.value.firstInstance == first
    ensures
      && initial != [] && Agrees(d, first, initial)
      && Holds(cr, CreatedDisk(d, first, initial), Every(frequency), first, initial, history)
      ==>
      r.Some? && r.value.Valid() && r.value.initial == initial && r.value.history == history
  {
    r := Connect(cr, frequency, d, first, initial, history);
    ghost var d' := CreatedDisk(d, first, initial);
    if Holds(cr, d', Every(frequency), first, initial, history) {
      HeldOpens(cr, d', frequency, first, initial, history);
    }
  }

  method Connect(cr: Crypto, frequency: nat, d: Disk, first: nat, initial: Table, ghost history: seq<Certificate>)
    returns (r: Option<Store>)
    requires frequency > 0
    ensures r.Some? <==> Opens(d, frequency, first, initial)
    ensures r.Some? ==>
      Loads(r.value, cr, frequency, CreatedDisk(d, first, initial), first, initial, history) && fresh(r.value)
  {
    if |initial| == 0 {
      return None;
    }
    var latest := OpenLatest(d);
    if latest.None? {
      return None;
    }
    var d' := d;
    if d.first.Some? {
      if first != d.first.value || first !in d.power || d.power[first] != initial {
        return None;
      }
    } else {
      d' := d'.(power := d'.power[first := initial]);
      d' := d'.(first := Some(first));
    }
    assert d' == CreatedDisk(d, first, initial);
    if latest.value.Some? {
      r := LoadStore(cr, frequency, d', first, latest.value, initial, history);
    } else {
      var s := EmptyStore(cr, frequency, d', first, initial, history);
      TableAtFirst(d', frequency, first);
      r := Some(s);
    }
  }

  function LatestOn(d: Disk): Option<Certificate> {
    if d.latest.Some? && d.latest.value in d.certs then Some(d.certs[d.latest.value]) else None
  }

  /** The store has the latest certificate of the disk, and the table after it. */
  ghost predicate Loads(s: Store, cr: Crypto, frequency: nat, d: Disk, first: nat, initial: Table,
      history: seq<Certificate>)
    requires frequency > 0
    reads s
  {
    && s.cr == cr && s.frequency == frequency && s.ds == d && s.firstInstance == first
    && s.latestCertificate == LatestOn(d) && s.initial == initial && s.history == history
    && first <= NextAfter(first, LatestOn(d))
    && TableOnDisk(d, frequency, first, NextAfter(first, LatestOn(d))) == Some(s.latestPowerTable)
  }

  lemma TableAtFirst(d: Disk, frequency: nat, first: nat)
    requires frequency > 0
    ensures TableOnDisk(d, frequency, first, first) == if first in d.power then Some(d.power[first]) else None
  {
  }

  function NextAfter(first: nat, latest: Option<Certificate>): nat {
    match latest
    case None => first
    case Some(c) => c.instance + 1
  }

  method EmptyStore(cr: Crypto, frequency: nat, d: Disk, first: nat, initial: Table, ghost history: seq<Certificate>)
    returns (s: Store)
    ensures fresh(s) && s.cr == cr && s.frequency == frequency && s.ds == d && s.firstInstance == first
    ensures s.latestCertificate == None && s.initial == initial && s.history == history && s.latestPowerTable == initial
  {
    s := new Store(cr, frequency, d, first, None, initial, history);
    s.latestPowerTable := initial;
  }

  /** A store with the table of its next instance, if the disk has it. */
  method LoadStore(cr: Crypto, frequency: nat, d: Disk, first: nat, latest: Option<Certificate>, ghost initial: Table,
      ghost history: seq<Certificate>)
    returns (r: Option<Store>)
    requires frequency > 0
    ensures r.Some? <==>
      first <= NextAfter(first, latest) && TableOnDisk(d, frequency, first, NextAfter(first, latest)).Some?
    ensures r.Some? ==>
      && fresh(r.value) && r.value.cr == cr && r.value.frequency == frequency && r.value.ds == d
      && r.value.firstInstance == first
    ensures r.Some? ==> r.value.latestCertificate == latest && r.value.initial == initial && r.value.history == history
    ensures r.Some? ==> TableOnDisk(d, frequency, first, NextAfter(first, latest)) == Some(r.value.latestPowerTable)
  {
    var s := new Store(cr, frequency, d, first, latest, initial, history);
    var table := s.GetPowerTable(s.NextInstance());
    if table.None? {
      return None;
    }
    s.latestPowerTable := table.value;
    r := Some(s);
  }

  /** A disk that holds a history opens with it: its latest certificate and the table after it. */
  lemma HeldOpens(cr: Crypto, d: Disk, frequency: nat, first: nat, initial: Table, history: seq<Certificate>)
    requires frequency > 0 && Holds(cr, d, Every(frequency), first, initial, history)
    ensures LatestReadable(d, frequency, first) && d.first == Some(first)
    ensures d.latest == None <==> history == []
    ensures d.latest == None ==>
      Replay(initial, history) == Some(initial) && first in d.power && d.power[first] == initial
    ensures d.latest.Some? ==> Last(history) == Some(d.certs[d.latest.value])
    ensures NextAfter(first, Last(history)) == first + |history|
    ensures TableOnDisk(d, frequency, first, first + |history|) == Replay(initial, history)
  {
    ReplayOnDisk(cr, d, frequency, first, initial, history, first + |history|);
    assert history[..|history|] == history;
    if history == [] {
      EmptyReplay(initial);
      assert Some(d.power[first]) == Replay(initial, history[..0]);
    }
  }

  /** Opens an initialized store, for instance after a crash: it knows the history on the disk. */
  method OpenStore(cr: Crypto, frequency: nat, d: Disk, ghost first: nat, ghost initial: Table,
      ghost history: seq<Certificate>)
    returns (r: Option<Store>)
    requires frequency > 0
    ensures r.Some? <==>
      d.first.Some? && LatestReadable(d, frequency, d.first.value) && (d.latest == None ==> d.first.value in d.power)
    ensures r.Some? ==> fresh(r.value) && r.value.ds == d && r.value.frequency == frequency && r.value.cr == cr
    ensures Holds(cr, d, Every(frequency), first, initial, history) ==>
      && r.Some? && r.value.Valid()
      && r.value.firstInstance == first && r.value.initial == initial
      && r.value.history == history == Recovered(d, first)
  {
    r := Reconnect(cr, frequency, d, initial, history);
    if Holds(cr, d, Every(frequency), first, initial, history) {
      RecoveredHistory(cr, d, Every(frequency), first, initial, history);
      HeldOpens(cr, d, frequency, first, initial, history);
      LoadedIsValid(r.value, cr, frequency, d, first, initial, history);
    }
  }

  lemma LoadedIsValid(s: Store, cr: Crypto, frequency: nat, d: Disk, first: nat, initial: Table,
      history: seq<Certificate>)
    requires frequency > 0 && Holds(cr, d, Every(frequency), first, initial, history)
    requires Loads(s, cr, frequency, d, first, initial, history)
    ensures s.Valid() && s.firstInstance == first && s.initial == initial && s.history == history
  {
    HeldOpens(cr, d, frequency, first, initial, history);
  }

  method Reconnect(cr: Crypto, frequency: nat, d: Disk, ghost initial: Table, ghost history: seq<Certificate>)
    returns (r: Option<Store>)
    requires frequency > 0
    ensures r.Some? <==>
      d.first.Some? && LatestReadable(d, frequency, d.first.value) && (d.latest == None ==> d.first.value in d.power)
    ensures r.Some? ==> Loads(r.value, cr, frequency, d, d.first.value, initial, history) && fresh(r.value)
  {
    var latest := OpenLatest(d);
    if latest.None? || d.first.None? {
      return None;
    }
    TableAtFirst(d, frequency, d.first.value);
    r := LoadStore(cr, frequency, d, d.first.value, latest.value, initial, history);
  }

  /** On a disk that holds a history, the table of an instance is the replay up to it. */
  lemma ReplayOnDisk(cr: Crypto, d: Disk, frequency: nat, first: nat, initial: Table, history: seq<Certificate>,
      instance: nat)
    requires frequency > 0 && Holds(cr, d, Every(frequency), first, initial, history)
    requires first <= instance <= first + |history|
    ensures TableOnDisk(d, frequency, first, instance) == Replay(initial, history[..instance - first])
    ensures TableOnDisk(d, frequency, first, instance).Some?
  {
    var start := StartOf(frequency, first, instance);
    CheckpointBefore(frequency, first, instance);
    StoredFrom(cr, d, Every(frequency), first, initial, history, start, instance);
  }

  /** What a disk has from a checkpoint on. */
  lemma StoredFrom(cr: Crypto, d: Disk, due: nat -> bool, first: nat, initial: Table, history: seq<Certificate>,
      start: nat, instance: nat)
    requires Holds(cr, d, due, first, initial, history) && first <= start <= instance <= first + |history|
    requires (start == first || due(start))
    ensures start in d.power && StoredBetween(d, start, instance) && Replay(initial, history[..instance - first]).Some?
    ensures start == instance ==> Some(d.power[start]) == Replay(initial, history[..instance - first])
    ensures start < instance ==>
      ApplyToTable(d.power[start], Deltas(CertsBetween(d, start, instance))) ==
        Replay(initial, history[..instance - first])
  {
    CheckpointStored(cr, d, due, first, initial, history, start);
    RangeStored(cr, d, due, first, initial, history, start, instance);
    ReplaysAt(cr, first, initial, history, instance - first);
    if start < instance {
      ReplayedFrom(cr, d, due, first, initial, history, start, instance, CertsBetween(d, start, instance));
    }
  }

  lemma ReplayedFrom(cr: Crypto, d: Disk, due: nat -> bool, first: nat, initial: Table, history: seq<Certificate>,
      start: nat, instance: nat, certs: seq<Certificate>)
    requires Holds(cr, d, due, first, initial, history) && first <= start < instance <= first + |history|
    requires (start == first || due(start))
    requires StoredBetween(d, start, instance) && certs == CertsBetween(d, start, instance)
    ensures start in d.power
    ensures ApplyToTable(d.power[start], Deltas(certs)) == Replay(initial, history[..instance - first])
  {
    CheckpointStored(cr, d, due, first, initial, history, start);
    var i, j := start - first, instance - first;
    BetweenIsHistory(d, first, history, start, instance, i, j);
    ReplayedBetween(initial, history, i, j, d.power[start], certs);
  }

  lemma BetweenIsHistory(d: Disk, first: nat, history: seq<Certificate>, start: nat, end: nat, i: nat, j: nat)
    requires start == first + i && end == first + j && i <= j <= |history| && StoredBetween(d, start, end)
    requires forall n :: first <= n < first + |history| ==> n in d.certs && d.certs[n] == history[n - first]
    ensures CertsBetween(d, start, end) == history[i..j]
  {
  }

  lemma ReplaysAt(cr: Crypto, first: nat, initial: Table, history: seq<Certificate>, k: nat)
    requires History(cr, first, initial, history) && k <= |history|
    ensures Replay(initial, history[..k]).Some?
  {
    assert Replays(cr, initial, history, k);
  }

  lemma CheckpointStored(cr: Crypto, d: Disk, due: nat -> bool, first: nat, initial: Table, history: seq<Certificate>,
      start: nat)
    requires Holds(cr, d, due, first, initial, history) && first <= start <= first + |history|
    requires (start == first || due(start))
    ensures start in d.power && Some(d.power[start]) == Replay(initial, history[..start - first])
  {
  }

  lemma RangeStored(cr: Crypto, d: Disk, due: nat -> bool, first: nat, initial: Table, history: seq<Certificate>,
      start: nat, end: nat)
    requires Holds(cr, d, due, first, initial, history) && first <= start <= end <= first + |history|
    ensures StoredBetween(d, start, end)
  {
  }

  lemma ReplayedBetween(initial: Table, history: seq<Certificate>, i: nat, j: nat, table: Table,
      certs: seq<Certificate>)
    requires i <= j <= |history| && Replay(initial, history[..i]) == Some(table) && certs == history[i..j]
    ensures Replay(initial, history[..j]) == ApplyToTable(table, Deltas(certs))
  {
    ReplayFrom(initial, history, i, j);
  }
}
