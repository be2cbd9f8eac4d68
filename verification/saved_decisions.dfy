/** From a terminated instance to a stored certificate (saveDecision in host.go). */
module SavedDecisions {
  import opened Basics
  import opened Power
  import opened Messages
  import opened Diffs
  import opened Tables
  import opened PowerTables
  import opened Network
  import opened Certificates
  import opened Decisions
  import opened CertStore

  /** A participant of a run has terminated with the decision, its committee and the next one were
      validated when they were built, and its supplemental data names the next one. */
  ghost predicate Terminated(cr: Crypto, sys: System, p: ActorID, current: Table, next: RawTable, d: Justification) {
    && Reachable(sys) && p in sys.nodes && sys.nodes[p].phase == TERMINATED
    && sys.nodes[p].terminationValue == Some(d)
    && Validated(sys.w.c.table) && Validated(next) && current == sys.w.c.table.entries
    && AggregatesVerify(sys.w, cr)
    && sys.nodes[p].supplement.powerTable == cr.cid(next.entries)
  }

  /** The decision is for the next instance of the store, whose table is the current committee. */
  ghost predicate IsNext(store: Store, current: Table, next: RawTable, d: Justification)
    reads store
  {
    && d.vote.instance == store.firstInstance + |store.history|
    && current == store.latestPowerTable && next.entries != []
  }

  /** Forms a certificate from a decision and validates it against the current committee. */
  method FormCertificate(cr: Crypto, current: Table, next: RawTable, d: Justification, ghost sys: System,
      ghost p: ActorID)
    returns (r: Option<Certificate>)
    requires DistinctIds(current) && DistinctIds(next.entries)
    ensures r.Some? ==>
      && IsDiff(ToMap(current), ToMap(next.entries), r.value.delta) && NewCertificate(r.value.delta, d) == r
      && AllAccepted(cr, Position(d.vote.instance, [], current, None), [r.value])
    ensures Terminated(cr, sys, p, current, next, d) ==> r.Some? && Leads(cr, sys, p, current, next, d, r.value)
  {
    var diff := MakePowerTableDiff(current, next.entries);
    r := NewCertificate(diff, d);
    if Terminated(cr, sys, p, current, next, d) {
      var cert := DecisionCertified(sys, p, next, cr, diff);
      CertificatePuts(cr, sys, p, current, next, d, cert);
    }
    if r.None? {
      return;
    }
    var valid, n, chain, table := ValidateFinalityCertificates(cr, current, d.vote.instance, None, [r.value]);
    if !valid {
      return None;
    }
  }

  /** The certificate is for the decided chain and leads from one committee to the next. */
  ghost predicate Leads(cr: Crypto, sys: System, p: ActorID, current: Table, next: RawTable, d: Justification,
      cert: Certificate)
  {
    && p in sys.nodes && cert.instance == d.vote.instance && cert.chain == sys.nodes[p].value
    && ApplyToTable(current, [cert.delta]) == Some(next.entries)
    && (next.entries != [] ==> Admissible(cr, current, cert))
  }

  /** Forms a certificate from a decision and stores it. */
  method SaveDecision(store: Store, current: Table, next: RawTable, d: Justification, writes: nat, ghost sys: System,
      ghost p: ActorID)
    returns (r: Option<Certificate>)
    requires store.Valid() && DistinctIds(current) && DistinctIds(next.entries)
    modifies store
    ensures store.Valid() && store.initial == old(store.initial) && store.firstInstance == old(store.firstInstance)
    ensures store.history == old(store.history) || (r.Some? && store.history == old(store.history) + [r.value])
    ensures writes >= 3 && old(IsNext(store, current, next, d)) && Terminated(store.cr, sys, p, current, next, d) ==>
      && r.Some? && Leads(store.cr, sys, p, current, next, d, r.value)
      && store.history == old(store.history) + [r.value] && store.latestPowerTable == next.entries
  {
    r := FormCertificate(store.cr, current, next, d, sys, p);
    if r.None? {
      return;
    }
    var ok := PutNext(store, current, next, r.value, writes);
    if !ok {
      return None;
    }
  }

  ghost predicate Follows(store: Store, current: Table, next: RawTable, cert: Certificate)
    reads store
  {
    && current == store.latestPowerTable && cert.instance == store.firstInstance + |store.history|
    && Admissible(store.cr, current, cert) && ApplyToTable(current, [cert.delta]) == Some(next.entries)
  }

  /** A certificate that leads on from the store's table is stored, with its table. */
  method PutNext(store: Store, ghost current: Table, ghost next: RawTable, cert: Certificate, writes: nat)
    returns (ok: bool)
    requires store.Valid()
    modifies store
    ensures store.Valid() && store.initial == old(store.initial) && store.firstInstance == old(store.firstInstance)
    ensures store.history == old(store.history) || (ok && store.history == old(store.history) + [cert])
    ensures writes >= 3 && old(Follows(store, current, next, cert)) ==>
      ok && store.history == old(store.history) + [cert] && store.latestPowerTable == next.entries
  {
    HistoryEnd(store.cr, store.firstInstance, store.initial, store.history);
    ReplayNext(store.initial, store.history, cert);
    ok := store.Put(cert, writes);
  }

  /** The certificate of a terminated participant is admissible after the tables it leads between. */
  lemma CertificatePuts(cr: Crypto, sys: System, p: ActorID, current: Table, next: RawTable, d: Justification,
      cert: Certificate)
    requires Terminated(cr, sys, p, current, next, d) && NewCertificate(cert.delta, d) == Some(cert)
    requires IsDiff(ToMap(current), ToMap(next.entries), cert.delta)
    ensures Leads(cr, sys, p, current, next, d, cert)
  {
    var t := TerminatedDecision(sys, p);
    ValidatedMeaning(sys.w.c.table);
    ValidatedMeaning(next);
    DiffsCanonical(current, next.entries, cert.delta);
  }
}
