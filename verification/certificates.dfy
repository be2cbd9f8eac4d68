/** Finality certificates and their validation (certs/certs.go). */
module Certificates {
  import opened Basics
  import opened Chains
  import opened Weights
  import opened Power
  import opened Quorums
  import opened Messages
  import opened Diffs
  import opened Tables
  import opened PowerTables

  datatype Certificate = Certificate(
    instance: nat,
    chain: Chain,
    supplement: SupplementalData,
    signers: set<nat>,
    signature: Bytes,
    delta: seq<Delta>)

  /** Aggregate verification under a network name, and the content identifier of a table. */
  datatype Crypto = Crypto(
    verify: (seq<Bytes>, set<nat>, Payload, Bytes) -> bool,
    cid: seq<PowerEntry> -> Bytes)

  /** A certificate is made only from a DECIDE of round 0 for a proper chain. */
  function NewCertificate(delta: seq<Delta>, j: Justification): Option<Certificate> {
    if j.vote.phase != DECIDE || j.vote.round != 0 || j.vote.value == BOTTOM then None
    else Some(Certificate(j.vote.instance, j.vote.value, j.vote.supplement, j.signers, j.signature, delta))
  }

  /** A certificate says what the decision says, and there is one for every decision of round 0 on a chain. */
  lemma NewCertificateExactly(delta: seq<Delta>, j: Justification)
    ensures NewCertificate(delta, j).Some? <==>
      j.vote.phase == DECIDE && j.vote.round == 0 && |j.vote.value| > 0
    ensures NewCertificate(delta, j).Some? ==>
      var cert := NewCertificate(delta, j).value;
      && Payload(cert.instance, 0, DECIDE, cert.supplement, cert.chain) == j.vote
      && cert.signers == j.signers && cert.signature == j.signature && cert.delta == delta
  {
  }

  function PublicKeys(pt: seq<PowerEntry>): seq<Bytes> {
    seq(|pt|, i requires 0 <= i < |pt| => pt[i].pubKey)
  }

  function DecidedVote(cert: Certificate): Payload {
    Payload(cert.instance, 0, DECIDE, cert.supplement, cert.chain)
  }

  ghost predicate AllPositive(pt: seq<PowerEntry>) {
    forall i :: 0 <= i < |pt| ==> pt[i].power > 0
  }

  ghost function ScaledTable(pt: seq<PowerEntry>): seq<nat>
    requires AllPositive(pt)
  {
    PositiveTotals(pt);
    ScaledPowers(pt, TotalPower(pt))
  }

  /** Signed by powered positions of the table that form a strong quorum. */
  ghost predicate SignatureOk(cr: Crypto, pt: seq<PowerEntry>, cert: Certificate) {
    && AllPositive(pt)
    && (forall i :: i in cert.signers ==> i < |pt| && ScaledTable(pt)[i] > 0)
    && IsStrongQuorum(Weight(ScaledTable(pt), cert.signers), Total(ScaledTable(pt)))
    && cr.verify(PublicKeys(pt), cert.signers, DecidedVote(cert), cert.signature)
  }

  /** Where validation stands: the next instance, the chain finalized so far, the table that
      validates the next certificate, and the tipset it must start from, if known. */
  datatype Position = Position(next: nat, chain: Chain, table: seq<PowerEntry>, base: Option<TipSet>)

  ghost predicate Accepted(cr: Crypto, at: Position, cert: Certificate) {
    && cert.instance == at.next
    && ValidChain(cert.chain) && cert.chain != BOTTOM
    && (at.base.Some? ==> at.base.value == cert.chain[0])
    && SignatureOk(cr, at.table, cert)
    && ApplyToTable(at.table, [cert.delta]).Some?
    && cert.supplement.powerTable == cr.cid(ApplyToTable(at.table, [cert.delta]).value)
  }

  ghost function Advance(cr: Crypto, at: Position, cert: Certificate): Position
    requires Accepted(cr, at, cert)
  {
    Position(at.next + 1, at.chain + cert.chain[1..], ApplyToTable(at.table, [cert.delta]).value,
             Some(cert.chain[|cert.chain| - 1]))
  }

  /** The position after the longest accepted prefix of the certificates. */
  ghost function Validate(cr: Crypto, at: Position, certs: seq<Certificate>): Position
    decreases |certs|
  {
    if certs == [] || !Accepted(cr, at, certs[0]) then at
    else Validate(cr, Advance(cr, at, certs[0]), certs[1..])
  }

  ghost predicate AllAccepted(cr: Crypto, at: Position, certs: seq<Certificate>)
    decreases |certs|
  {
    certs == [] || (Accepted(cr, at, certs[0]) && AllAccepted(cr, Advance(cr, at, certs[0]), certs[1..]))
  }

  // ---------- loops ----------

  method VerifySignature(cr: Crypto, pt: seq<PowerEntry>, cert: Certificate) returns (ok: bool)
    ensures ok == SignatureOk(cr, pt, cert)
  {
    var positive, scaled, total := Scaled(pt);
    if !positive {
      return false;
    }
    var powers := 0;
    var todo := cert.signers;
    Empty(scaled);
    assert cert.signers - todo == {};
    while todo != {}
      invariant todo <= cert.signers
      invariant forall i :: i in cert.signers - todo ==> i < |pt| && scaled[i] > 0
      invariant powers == Weight(scaled, cert.signers - todo)
      decreases |todo|
    {
      var i :| i in todo;
      if i >= |pt| || scaled[i] == 0 {
        return false;
      }
      Disjoint(scaled, cert.signers - todo, {i});
      Singleton(scaled, i);
      assert cert.signers - (todo - {i}) == (cert.signers - todo) + {i};
      powers := powers + scaled[i];
      todo := todo - {i};
    }
    assert cert.signers - todo == cert.signers;
    if !IsStrongQuorum(powers, total) {
      return false;
    }
    ok := cr.verify(PublicKeys(pt), cert.signers, DecidedVote(cert), cert.signature);
  }

  /** Validates certificates in turn. On an error the position before the offending certificate is
      returned; on success the table is the last one computed, which is empty for no certificates. */
  method ValidateFinalityCertificates(cr: Crypto, table: seq<PowerEntry>, next: nat, base: Option<TipSet>,
      certs: seq<Certificate>)
    returns (ok: bool, next': nat, chain: Chain, table': seq<PowerEntry>)
    ensures var start := Position(next, [], table, base);
      var end := Validate(cr, start, certs);
      && ok == AllAccepted(cr, start, certs)
      && next' == end.next && chain == end.chain
      && table' == if ok && certs == [] then [] else end.table
  {
    ghost var start := Position(next, [], table, base);
    ghost var at := start;
    next', chain := next, [];
    var prev, expected, computed := table, base, [];
    for i := 0 to |certs|
      invariant at == Position(next', chain, prev, expected)
      invariant computed == if i == 0 then [] else prev
      invariant Validate(cr, start, certs) == Validate(cr, at, certs[i..])
      invariant AllAccepted(cr, start, certs) == AllAccepted(cr, at, certs[i..])
    {
      var cert := certs[i];
      assert certs[i..][0] == cert && certs[i..][1..] == certs[i + 1..];
      var validChain := CheckChain(cert.chain);
      if cert.instance != next' || !validChain || cert.chain == BOTTOM {
        return false, next', chain, prev;
      }
      if expected.Some? && expected.value != cert.chain[0] {
        return false, next', chain, prev;
      }
      var signed := VerifySignature(cr, prev, cert);
      if !signed {
        return false, next', chain, prev;
      }
      var applied := ApplyPowerTableDiffs(prev, [cert.delta]);
      if applied.None? || cr.cid(applied.value) != cert.supplement.powerTable {
        return false, next', chain, prev;
      }
      at := Advance(cr, at, cert);
      computed := applied.value;
      next' := next' + 1;
      chain := chain + cert.chain[1..];
      prev := computed;
      expected := Some(cert.chain[|cert.chain| - 1]);
    }
    return true, next', chain, computed;
  }

  // ---------- what acceptance means ----------

  /** Accepting a list is accepting a prefix and then the rest from where it leads. */
  lemma {:induction false} ValidateSplit(cr: Crypto, at: Position, a: seq<Certificate>, b: seq<Certificate>)
    ensures AllAccepted(cr, at, a + b) <==> AllAccepted(cr, at, a) && AllAccepted(cr, Validate(cr, at, a), b)
    ensures AllAccepted(cr, at, a) ==> Validate(cr, at, a + b) == Validate(cr, Validate(cr, at, a), b)
    decreases |a|
  {
    if a == [] {
      assert a + b == b;
    } else {
      assert (a + b)[0] == a[0] && (a + b)[1..] == a[1..] + b;
      if Accepted(cr, at, a[0]) {
        ValidateSplit(cr, Advance(cr, at, a[0]), a[1..], b);
      }
    }
  }

  lemma AdvanceOnce(cr: Crypto, at: Position, certs: seq<Certificate>) returns (at': Position)
    requires AllAccepted(cr, at, certs) && certs != []
    ensures AllAccepted(cr, at', certs[1..]) && Validate(cr, at, certs) == Validate(cr, at', certs[1..])
    ensures certs[0].instance == at.next && certs[0].chain != BOTTOM
    ensures at'.next == at.next + 1 && at'.chain == at.chain + certs[0].chain[1..]
  {
    at' := Advance(cr, at, certs[0]);
  }

  /** The certificates are for consecutive instances and lead from one position to another. */
  ghost predicate InOrder(at: Position, certs: seq<Certificate>, end: Position) {
    && end.next == at.next + |certs| && end.chain == at.chain + Finalized(certs)
    && forall i :: 0 <= i < |certs| ==> certs[i].instance == at.next + i && certs[i].chain != BOTTOM
  }

  lemma InOrderNext(at: Position, at': Position, certs: seq<Certificate>, end: Position)
    requires certs != [] && certs[0].instance == at.next && certs[0].chain != BOTTOM
    requires at'.next == at.next + 1 && at'.chain == at.chain + certs[0].chain[1..] && InOrder(at', certs[1..], end)
    ensures InOrder(at, certs, end)
  {
    var rest := certs[1..];
    forall i | 0 <= i < |certs|
      ensures certs[i].instance == at.next + i && certs[i].chain != BOTTOM
    {
      if i > 0 {
        assert certs[i] == rest[i - 1];
      }
    }
    assert at.chain + certs[0].chain[1..] + Finalized(rest) == at.chain + Finalized(certs);
  }

  /** Accepted certificates are for consecutive instances and finalize their tipsets in order. */
  lemma {:induction false} AcceptedInOrder(cr: Crypto, at: Position, certs: seq<Certificate>)
    requires AllAccepted(cr, at, certs)
    ensures InOrder(at, certs, Validate(cr, at, certs))
    decreases |certs|
  {
    if certs != [] {
      var at' := AdvanceOnce(cr, at, certs);
      AcceptedInOrder(cr, at', certs[1..]);
      InOrderNext(at, at', certs, Validate(cr, at, certs));
    }
  }

  /** Each accepted certificate starts at the tipset the one before it finalized. */
  lemma {:induction false} AcceptedLinked(cr: Crypto, at: Position, certs: seq<Certificate>, i: nat)
    requires AllAccepted(cr, at, certs) && i < |certs|
    ensures certs[i].chain != BOTTOM
    ensures i == 0 && at.base.Some? ==> certs[0].chain[0] == at.base.value
    ensures i > 0 ==>
      && certs[i - 1].chain != BOTTOM
      && certs[i].chain[0] == certs[i - 1].chain[|certs[i - 1].chain| - 1]
    decreases |certs|
  {
    if i > 0 {
      AcceptedLinked(cr, Advance(cr, at, certs[0]), certs[1..], i - 1);
    }
  }

  /** What each accepted certificate shows: two thirds of the power of the table before it signed the
      decision, and the delta leads to the table that was decided on, which validates the next. */
  lemma AcceptedMeans(cr: Crypto, at: Position, certs: seq<Certificate>, i: nat)
    requires AllAccepted(cr, at, certs) && i < |certs|
    ensures var table, next := Validate(cr, at, certs[..i]).table, Validate(cr, at, certs[..i + 1]).table;
      && Signs(cr, table, certs[i]) && ApplyToTable(table, [certs[i].delta]) == Some(next)
      && certs[i].supplement.powerTable == cr.cid(next)
  {
    var before, cert := certs[..i], certs[i];
    assert certs == before + certs[i..] && certs[..i + 1] == before + [cert];
    ValidateSplit(cr, at, before, certs[i..]);
    ValidateSplit(cr, at, before, [cert]);
    var here := Validate(cr, at, before);
    assert Accepted(cr, here, cert) && [cert][1..] == [];
    AcceptedIsSigned(cr, here, cert);
  }

  /** Two thirds of the scaled power of the table, by positions that have some, signed the decision. */
  ghost predicate Signs(cr: Crypto, table: seq<PowerEntry>, cert: Certificate) {
    && (forall i :: 0 <= i < |table| ==> table[i].power > 0)
    && (forall i :: i in cert.signers ==> i < |table| && ScaledTable(table)[i] > 0)
    && 3 * Weight(ScaledTable(table), cert.signers) >= 2 * Total(ScaledTable(table))
    && cr.verify(PublicKeys(table), cert.signers, Payload(cert.instance, 0, DECIDE, cert.supplement, cert.chain),
                 cert.signature)
  }

  lemma AcceptedIsSigned(cr: Crypto, at: Position, cert: Certificate)
    requires Accepted(cr, at, cert)
    ensures Signs(cr, at.table, cert)
  {
    StrongQuorumMeaning(Weight(ScaledTable(at.table), cert.signers), Total(ScaledTable(at.table)));
  }

  ghost function Finalized(certs: seq<Certificate>): Chain {
    if certs == [] then []
    else (if certs[0].chain == [] then [] else certs[0].chain[1..]) + Finalized(certs[1..])
  }
}

/** From a decision to an accepted certificate (host.go, saveDecision). */
module Decisions {
  import opened Basics
  import opened Chains
  import opened Weights
  import opened Power
  import opened Messages
  import opened Diffs
  import opened Tables
  import opened PowerTables
  import opened Evidence
  import opened Network
  import opened Safety
  import opened Certificates

  /** An aggregate built from signatures that were really given verifies. */
  ghost predicate AggregatesVerify(w: World, cr: Crypto) {
    forall signers: set<nat>, vote: Payload ::
      (forall i :: i in signers ==> i < |w.c.table.entries| && SentBy(w, w.c.table.entries[i].id, vote)) ==>
        cr.verify(PublicKeys(w.c.table.entries), signers, vote, w.c.aggregate(signers, vote))
  }

  /** The table scales its entries as the certificate validator does. */
  lemma SameScaling(t: RawTable)
    requires Validated(t)
    ensures AllPositive(t.entries) && ScaledTable(t.entries) == t.scaledPower
    ensures Total(ScaledTable(t.entries)) == t.scaledTotal
  {
  }

  /** A decision's signers and signature satisfy the certificate validator. */
  lemma DecisionSigned(w: World, cr: Crypto, d: Justification, cert: Certificate)
    requires Validated(w.c.table) && AggregatesVerify(w, cr)
    requires ValidJustification(w, d) && d.signature == w.c.aggregate(d.signers, d.vote)
    requires DecidedVote(cert) == d.vote && cert.signers == d.signers && cert.signature == d.signature
    ensures SignatureOk(cr, w.c.table.entries, cert)
  {
    SameScaling(w.c.table);
  }

  lemma OneAccepted(cr: Crypto, at: Position, cert: Certificate)
    requires Accepted(cr, at, cert)
    ensures AllAccepted(cr, at, [cert]) && Validate(cr, at, [cert]) == Advance(cr, at, cert)
  {
    assert [cert][1..] == [];
  }

  /** The certificate is accepted with one table from an unconstrained start, and leads to another. */
  ghost predicate Certifies(cr: Crypto, table: seq<PowerEntry>, cert: Certificate, next: seq<PowerEntry>) {
    var at := Position(cert.instance, [], table, None);
    && cert.chain != BOTTOM && AllAccepted(cr, at, [cert])
    && Validate(cr, at, [cert]) ==
         Position(cert.instance + 1, cert.chain[1..], next, Some(cert.chain[|cert.chain| - 1]))
  }

  lemma FirstAccepted(cr: Crypto, table: seq<PowerEntry>, next: seq<PowerEntry>, cert: Certificate)
    requires ValidChain(cert.chain) && cert.chain != BOTTOM && SignatureOk(cr, table, cert)
    requires ApplyToTable(table, [cert.delta]) == Some(next) && cert.supplement.powerTable == cr.cid(next)
    ensures Certifies(cr, table, cert, next)
  {
    var at := Position(cert.instance, [], table, None);
    OneAccepted(cr, at, cert);
    assert at.chain + cert.chain[1..] == cert.chain[1..];
  }

  lemma TerminatedDecision(sys: System, p: ActorID) returns (d: Justification)
    requires Reachable(sys) && p in sys.nodes && sys.nodes[p].phase == TERMINATED
    ensures sys.nodes[p].terminationValue == Some(d)
    ensures ValidJustification(sys.w, d) && d.signature == sys.w.c.aggregate(d.signers, d.vote)
    ensures d.vote == Payload(sys.w.c.instance, 0, DECIDE, sys.nodes[p].supplement, sys.nodes[p].value)
    ensures sys.nodes[p].value != BOTTOM && ValidChain(sys.nodes[p].value)
  {
    ReachableInv(sys);
    d := sys.nodes[p].terminationValue.value;
  }

  /** Whatever aggregate verifies for the instance was signed by all whom it names. */
  ghost predicate NoForgery(w: World, cr: Crypto) {
    forall signers: set<nat>, vote: Payload, signature, i: nat ::
      && vote.instance == w.c.instance && i in signers && i < |w.c.table.entries|
      && cr.verify(PublicKeys(w.c.table.entries), signers, vote, signature)
      ==>
        SentBy(w, w.c.table.entries[i].id, vote)
  }

  /** The certificate is accepted for the instance with its committee. */
  ghost predicate Finalizes(sys: System, cr: Crypto, at: Position, cert: Certificate) {
    Accepted(cr, at, cert) && at.table == sys.w.c.table.entries && cert.instance == sys.w.c.instance
  }

  /** Behind an accepted certificate stands a quorum of DECIDE. */
  lemma CertificateJustifies(sys: System, cr: Crypto, at: Position, cert: Certificate) returns (d: Justification)
    requires Validated(sys.w.c.table) && NoForgery(sys.w, cr) && Finalizes(sys, cr, at, cert)
    ensures d == Justification(DecidedVote(cert), cert.signers, cert.signature) && ValidJustification(sys.w, d)
    ensures d.vote == Payload(sys.w.c.instance, 0, DECIDE, cert.supplement, cert.chain)
  {
    d := Justification(DecidedVote(cert), cert.signers, cert.signature);
    SameScaling(sys.w.c.table);
  }

  /** Two certificates that are accepted for the instance, from whatever sources, finalize the same chain and
      name the same next committee. */
  lemma CertificatesAgree(sys: System, cr: Crypto, at: Position, cert: Certificate, at': Position, cert': Certificate)
    requires Reachable(sys) && Validated(sys.w.c.table) && NoForgery(sys.w, cr)
    requires Finalizes(sys, cr, at, cert) && Finalizes(sys, cr, at', cert')
    ensures cert.chain == cert'.chain && cert.supplement == cert'.supplement
  {
    var d := CertificateJustifies(sys, cr, at, cert);
    var d' := CertificateJustifies(sys, cr, at', cert');
    DecisionsAgree(sys, d, d');
  }

  /** ... which is the one that every participant that terminates has decided. */
  lemma CertificateIsDecision(sys: System, cr: Crypto, at: Position, cert: Certificate, p: ActorID)
    requires Reachable(sys) && Validated(sys.w.c.table) && NoForgery(sys.w, cr) && Finalizes(sys, cr, at, cert)
    requires p in sys.nodes && sys.nodes[p].phase == TERMINATED
    ensures cert.chain == sys.nodes[p].value && cert.supplement == sys.nodes[p].supplement
  {
    var d := CertificateJustifies(sys, cr, at, cert);
    var e := TerminatedDecision(sys, p);
    DecisionsAgree(sys, d, e);
  }

  /** The certificate that a terminated participant builds from its decision and the diff between
      the current and the next committee is accepted, and leads to the next committee. */
  lemma DecisionCertified(sys: System, p: ActorID, next: RawTable, cr: Crypto, diff: seq<Delta>)
    returns (cert: Certificate)
    requires Reachable(sys) && p in sys.nodes && sys.nodes[p].phase == TERMINATED
    requires Validated(sys.w.c.table) && Validated(next)
    requires AggregatesVerify(sys.w, cr)
    requires sys.nodes[p].supplement.powerTable == cr.cid(next.entries)
    requires IsDiff(ToMap(sys.w.c.table.entries), ToMap(next.entries), diff)
    ensures sys.nodes[p].terminationValue.Some?
    ensures NewCertificate(diff, sys.nodes[p].terminationValue.value) == Some(cert)
    ensures cert.instance == sys.w.c.instance && cert.chain == sys.nodes[p].value
    ensures Certifies(cr, sys.w.c.table.entries, cert, next.entries)
  {
    var d := TerminatedDecision(sys, p);
    cert := Certified(sys.w, d, next, cr, diff);
  }

  lemma Certified(w: World, d: Justification, next: RawTable, cr: Crypto, diff: seq<Delta>) returns (cert: Certificate)
    requires ValidJustification(w, d) && d.signature == w.c.aggregate(d.signers, d.vote)
    requires d.vote.instance == w.c.instance && d.vote.round == 0 && d.vote.phase == DECIDE
    requires d.vote.value != BOTTOM && ValidChain(d.vote.value) && d.vote.supplement.powerTable == cr.cid(next.entries)
    requires Validated(w.c.table) && Validated(next) && AggregatesVerify(w, cr)
    requires IsDiff(ToMap(w.c.table.entries), ToMap(next.entries), diff)
    ensures NewCertificate(diff, d) == Some(cert)
    ensures Certifies(cr, w.c.table.entries, cert, next.entries)
  {
    var t := w.c.table.entries;
    cert := NewCertificate(diff, d).value;
    ValidatedMeaning(w.c.table);
    ValidatedMeaning(next);
    DiffsCanonical(t, next.entries, diff);
    DecisionSigned(w, cr, d, cert);
    FirstAccepted(cr, t, next.entries, cert);
  }
}
