/** Snapshots of the certificate store: framing, export and import (certstore/snapshot.go). */
module Framing {
  import opened Basics

  /** Reading from a byte stream: the end, an error, or a value and the rest. */
  datatype Read<T> = EOF | Failed | Got(value: T, rest: Bytes)

  const MAX_VARINT_LEN: nat := 10

  function Uvarint(n: nat): Bytes {
    if n < 128 then [n as Byte] else [(n % 128 + 128) as Byte] + Uvarint(n / 128)
  }

  /** Reads the remaining bytes of an unsigned varint of which `i` bytes were read. */
  function ReadUvarint(input: Bytes, i: nat): (r: Read<nat>)
    requires i <= MAX_VARINT_LEN
    ensures r.Got? ==> |r.rest| < |input|
    decreases MAX_VARINT_LEN - i
  {
    if i == MAX_VARINT_LEN then Failed
    else if input == [] then if i > 0 then Failed else EOF
    else
      var b := input[0] as nat;
      if b < 128 then
        if i == MAX_VARINT_LEN - 1 && b > 1 then Failed else Got(b, input[1..])
      else match ReadUvarint(input[1..], i + 1)
        case Got(v, rest) => Got(b - 128 + 128 * v, rest)
        case _ => Failed
  }

  function Pow128(k: nat): nat {
    if k == 0 then 1 else 128 * Pow128(k - 1)
  }

  lemma {:induction false} UvarintLength(n: nat, k: nat)
    requires k > 0
    ensures |Uvarint(n)| <= k <==> n < Pow128(k)
    decreases k
  {
    assert Pow128(k) == 128 * Pow128(k - 1);
    if n >= 128 {
      if k == 1 {
        assert Pow128(0) == 1;
        assert |Uvarint(n / 128)| > 0;
      } else {
        UvarintLength(n / 128, k - 1);
        assert n / 128 < Pow128(k - 1) <==> n < 128 * Pow128(k - 1);
      }
    } else {
      Pow128Positive(k - 1);
    }
  }

  lemma {:induction false} Pow128Positive(k: nat)
    ensures Pow128(k) > 0
  {
    if k > 0 {
      Pow128Positive(k - 1);
    }
  }

  /** Seven bits of each byte, the lowest first. */
  function Value(bytes: Bytes): nat {
    if bytes == [] then 0 else bytes[0] as nat % 128 + 128 * Value(bytes[1..])
  }

  /** The bytes of a varint hold its number, and all but the last say that there is more. */
  lemma {:induction false} UvarintMeaning(n: nat)
    ensures Value(Uvarint(n)) == n && Uvarint(n) != []
    ensures forall i :: 0 <= i < |Uvarint(n)| ==> (Uvarint(n)[i] as nat >= 128 <==> i < |Uvarint(n)| - 1)
    decreases n
  {
    if n >= 128 {
      UvarintMeaning(n / 128);
      var first := (n % 128 + 128) as Byte;
      assert Uvarint(n)[0] == first && Uvarint(n)[1..] == Uvarint(n / 128);
      assert forall i :: 0 < i < |Uvarint(n)| ==> Uvarint(n)[i] == Uvarint(n / 128)[i - 1];
    } else {
      assert Uvarint(n)[1..] == [];
    }
  }

  /** What PutUvarint writes, ReadUvarint reads back, whatever follows. */
  lemma {:induction false} UvarintRoundTrip(n: nat, i: nat, rest: Bytes)
    requires i + |Uvarint(n)| < MAX_VARINT_LEN
    ensures ReadUvarint(Uvarint(n) + rest, i) == Got(n, rest)
    decreases n
  {
    var input := Uvarint(n) + rest;
    if n < 128 {
      assert input[1..] == rest;
    } else {
      assert input[1..] == Uvarint(n / 128) + rest;
      UvarintRoundTrip(n / 128, i + 1, rest);
    }
  }

  // ---------- blocks ----------

  /** The length prefix is written into a buffer of eight bytes. */
  predicate Fits(block: Bytes) {
    |Uvarint(|block|)| <= 8
  }

  const BLOCK_LIMIT: nat := 0x100_0000_0000_0000

  /** Eight bytes of seven bits each hold the lengths below the limit, and no others. */
  lemma FitsExactly(block: Bytes)
    ensures Fits(block) <==> |block| < BLOCK_LIMIT
  {
    assert Pow128(8) == BLOCK_LIMIT by {
      assert Pow128(2) == 128 * Pow128(1) == 128 * 128 * Pow128(0);
      assert Pow128(4) == 128 * Pow128(3) == 128 * 128 * Pow128(2);
      assert Pow128(6) == 128 * Pow128(5) == 128 * 128 * Pow128(4);
      assert Pow128(8) == 128 * Pow128(7) == 128 * 128 * Pow128(6);
    }
    UvarintLength(|block|, 8);
  }

  function Frame(block: Bytes): Bytes {
    Uvarint(|block|) + block
  }

  function Frames(blocks: seq<Bytes>): Bytes {
    if blocks == [] then [] else Frames(blocks[..|blocks| - 1]) + Frame(blocks[|blocks| - 1])
  }

  /** Reads one block; a stream that ends right after a length prefix counts as ended. */
  function ReadBlock(input: Bytes): (r: Read<Bytes>)
    ensures r.Got? ==> |r.rest| < |input|
  {
    match ReadUvarint(input, 0)
    case EOF => EOF
    case Failed => Failed
    case Got(n, rest) =>
      if n == 0 then Got([], rest)
      else if rest == [] then EOF
      else if |rest| < n then Failed
      else Got(rest[..n], rest[n..])
  }

  /** All blocks of a stream, and whether it ended without an error. */
  function Blocks(input: Bytes): (seq<Bytes>, bool)
    decreases |input|
  {
    match ReadBlock(input)
    case EOF => ([], true)
    case Failed => ([], false)
    case Got(b, rest) =>
      var more := Blocks(rest);
      ([b] + more.0, more.1)
  }

  lemma FrameRead(block: Bytes, rest: Bytes)
    requires Fits(block)
    ensures ReadBlock(Frame(block) + rest) == Got(block, rest)
  {
    assert Frame(block) + rest == Uvarint(|block|) + (block + rest);
    UvarintRoundTrip(|block|, 0, block + rest);
    var all := block + rest;
    assert all[..|block|] == block && all[|block|..] == rest;
  }

  lemma Associative(a: Bytes, b: Bytes, c: Bytes)
    ensures a + b + c == a + (b + c)
  {
  }

  lemma {:induction false} FramesFirst(blocks: seq<Bytes>)
    requires blocks != []
    ensures Frames(blocks) == Frame(blocks[0]) + Frames(blocks[1..])
    decreases |blocks|
  {
    var n := |blocks| - 1;
    if n > 0 {
      FramesFirst(blocks[..n]);
      var tail := blocks[1..];
      assert blocks[..n][1..] == tail[..n - 1] && blocks[..n][0] == blocks[0] && tail[n - 1] == blocks[n];
      Associative(Frame(blocks[0]), Frames(tail[..n - 1]), Frame(blocks[n]));
    } else {
      assert blocks[..n] == [] && blocks[1..] == [];
    }
  }

  /** Framed blocks are read back as they were, to the end of the stream. */
  lemma {:induction false} FramesRoundTrip(blocks: seq<Bytes>)
    requires forall b :: b in blocks ==> Fits(b)
    ensures Blocks(Frames(blocks)) == (blocks, true)
    decreases |blocks|
  {
    if blocks != [] {
      FramesFirst(blocks);
      FrameRead(blocks[0], Frames(blocks[1..]));
      FramesRoundTrip(blocks[1..]);
      assert blocks == [blocks[0]] + blocks[1..];
    }
  }
}

module Snapshots {
  import opened Basics
  import opened Diffs
  import opened Tables
  import opened Certificates
  import opened CertStore
  import opened Framing

  datatype Header = Header(version: nat, first: nat, latest: nat, initial: Table)

  datatype Manifest = Manifest(initialInstance: nat, initialPowerTable: Option<Bytes>)

  /** The block encodings of headers and certificates. */
  datatype Codec = Codec(
    encodeHeader: Header -> Bytes,
    decodeHeader: Bytes -> Option<Header>,
    encodeCert: Certificate -> Bytes,
    decodeCert: Bytes -> Option<Certificate>)

  ghost predicate Lossless(c: Codec) {
    && (forall h :: c.decodeHeader(c.encodeHeader(h)) == Some(h))
    && (forall x :: c.decodeCert(c.encodeCert(x)) == Some(x))
  }

  function BlocksOf(c: Codec, h: Header, certs: seq<Certificate>): seq<Bytes> {
    [c.encodeHeader(h)] + seq(|certs|, i requires 0 <= i < |certs| => c.encodeCert(certs[i]))
  }

  /** The certificates of a sequence of blocks, if all decode. */
  function DecodeAll(c: Codec, blocks: seq<Bytes>): Option<seq<Certificate>> {
    if blocks == [] then Some([])
    else match (DecodeAll(c, blocks[..|blocks| - 1]), c.decodeCert(blocks[|blocks| - 1]))
      case (Some(certs), Some(cert)) => Some(certs + [cert])
      case _ => None
  }

  lemma {:induction false} DecodeAllRoundTrip(c: Codec, certs: seq<Certificate>)
    requires Lossless(c)
    ensures DecodeAll(c, seq(|certs|, i requires 0 <= i < |certs| => c.encodeCert(certs[i]))) == Some(certs)
  {
    if certs != [] {
      var n := |certs| - 1;
      var blocks := seq(|certs|, i requires 0 <= i < |certs| => c.encodeCert(certs[i]));
      var init := certs[..n];
      assert blocks[..n] == seq(|init|, i requires 0 <= i < |init| => c.encodeCert(init[i]));
      DecodeAllRoundTrip(c, init);
      assert certs == init + [certs[n]];
    }
  }

  // ---------- what is imported ----------

  ghost predicate NamesTable(cr: Crypto, h: Header, certs: seq<Certificate>)
    requires certs != []
  {
    && Replay(h.initial, certs).Some?
    && certs[|certs| - 1].supplement.powerTable == cr.cid(Replay(h.initial, certs).value)
  }

  /** What is checked of the last of the certificates read so far. */
  ghost predicate LastOk(cr: Crypto, due: nat -> bool, h: Header, certs: seq<Certificate>)
    requires certs != []
  {
    var n := h.first + |certs|;
    && certs[|certs| - 1].instance == n - 1 && n - 1 <= h.latest
    && Replay(h.initial, certs).Some?
    && (due(n) ==> NamesTable(cr, h, certs))
  }

  ghost predicate AllOk(cr: Crypto, due: nat -> bool, h: Header, certs: seq<Certificate>)
  {
    forall k :: 0 < k <= |certs| ==> LastOk(cr, due, h, certs[..k])
  }

  ghost predicate Complete(cr: Crypto, due: nat -> bool, h: Header, certs: seq<Certificate>)
  {
    && AllOk(cr, due, h, certs)
    && certs != [] && h.first + |certs| - 1 == h.latest && NamesTable(cr, h, certs)
  }

  predicate Matches(cr: Crypto, h: Header, m: Option<Manifest>) {
    m.Some? ==>
      && m.value.initialInstance == h.first
      && (m.value.initialPowerTable.Some? ==> m.value.initialPowerTable.value == cr.cid(h.initial))
  }

  /** The header and the certificates of a stream, if it is well formed to its end. */
  function Parsed(c: Codec, input: Bytes): Option<(Header, seq<Certificate>)> {
    var blocks := Blocks(input);
    if !blocks.1 || blocks.0 == [] then None
    else match (c.decodeHeader(blocks.0[0]), DecodeAll(c, blocks.0[1..]))
      case (Some(h), Some(certs)) => Some((h, certs))
      case _ => None
  }

  /** What is imported into a datastore. */
  ghost predicate Importable(cr: Crypto, frequency: nat, m: Option<Manifest>, d: Disk, h: Header,
      certs: seq<Certificate>)
    requires frequency > 0
  {
    Matches(cr, h, m) && Opens(d, frequency, h.first, h.initial) && Complete(cr, Every(frequency), h, certs)
  }

  /** The certificates are those of all the instances that the header names, in order, they lead to the table
      that the last of them names, and the header is the manifest's. */
  lemma ImportableMeans(cr: Crypto, frequency: nat, m: Option<Manifest>, d: Disk, h: Header, certs: seq<Certificate>)
    requires frequency > 0 && Importable(cr, frequency, m, d, h, certs)
    ensures |certs| > 0 && h.latest == h.first + |certs| - 1
    ensures forall i :: 0 <= i < |certs| ==> certs[i].instance == h.first + i
    ensures var last := ApplyToTable(h.initial, Deltas(certs));
      last.Some? && certs[|certs| - 1].supplement.powerTable == cr.cid(last.value)
    ensures m.Some? ==> m.value.initialInstance == h.first
    ensures m.Some? && m.value.initialPowerTable.Some? ==> m.value.initialPowerTable.value == cr.cid(h.initial)
    ensures h.initial != [] && (d.first.Some? ==> d.first == Some(h.first) && h.first in d.power)
    ensures d.first.Some? ==> d.power[h.first] == h.initial
  {
    forall i | 0 <= i < |certs|
      ensures certs[i].instance == h.first + i
    {
      assert LastOk(cr, Every(frequency), h, certs[..i + 1]);
    }
  }

  /** The disk after the certificates have been written, before the latest marker is. */
  ghost function Loaded(due: nat -> bool, d: Disk, h: Header, certs: seq<Certificate>): Disk
  {
    if certs == [] then CreatedDisk(d, h.first, h.initial)
    else
      var n := |certs| - 1;
      var d' := Loaded(due, d, h, certs[..n]);
      var cert := certs[n];
      var d'' := d'.(certs := d'.certs[cert.instance := cert]);
      if due(cert.instance + 1) && Replay(h.initial, certs).Some? then
        d''.(power := d''.power[cert.instance + 1 := Replay(h.initial, certs).value])
      else d''
  }

  lemma AllOkDown(cr: Crypto, due: nat -> bool, h: Header, certs: seq<Certificate>, k: nat)
    requires k <= |certs| && AllOk(cr, due, h, certs)
    ensures AllOk(cr, due, h, certs[..k])
  {
    assert forall j :: 0 < j <= k ==> certs[..k][..j] == certs[..j];
  }

  lemma AllOkNext(cr: Crypto, due: nat -> bool, h: Header, certs: seq<Certificate>, cert: Certificate)
    requires AllOk(cr, due, h, certs)
    ensures AllOk(cr, due, h, certs + [cert]) <==> LastOk(cr, due, h, certs + [cert])
  {
    var all := certs + [cert];
    assert all[..|all|] == all;
    assert forall j :: 0 < j <= |certs| ==> all[..j] == certs[..j];
  }

  lemma {:induction false} DecodeAllSplit(c: Codec, a: seq<Bytes>, b: seq<Bytes>)
    requires DecodeAll(c, a + b).Some?
    ensures DecodeAll(c, a).Some? && DecodeAll(c, a).value <= DecodeAll(c, a + b).value
    decreases |b|
  {
    if b == [] {
      assert a + b == a;
    } else {
      var n := |b| - 1;
      assert (a + b)[..|a + b| - 1] == a + b[..n];
      DecodeAllSplit(c, a, b[..n]);
    }
  }

  /** The blocks after the header are certificates that complete the snapshot. */
  ghost predicate CompleteStream(cr: Crypto, due: nat -> bool, c: Codec, h: Header, input: Bytes) {
    && Blocks(input).1 && DecodeAll(c, Blocks(input).0).Some?
    && Complete(cr, due, h, DecodeAll(c, Blocks(input).0).value)
  }

  /** A certificate that is refused makes the whole stream refused. */
  lemma Refuted(cr: Crypto, due: nat -> bool, c: Codec, h: Header, input: Bytes, done: seq<Bytes>, more: seq<Bytes>)
    requires Blocks(input).0 == done + more
    requires DecodeAll(c, done).None? || !AllOk(cr, due, h, DecodeAll(c, done).value)
    ensures !CompleteStream(cr, due, c, h, input)
  {
    if DecodeAll(c, done + more).Some? {
      DecodeAllSplit(c, done, more);
      var certs, all := DecodeAll(c, done).value, DecodeAll(c, done + more).value;
      assert all[..|certs|] == certs;
      if AllOk(cr, due, h, all) {
        AllOkDown(cr, due, h, all, |certs|);
      }
    }
  }

  /** `certs` were read and accepted, and `rest` is still to be read. */
  ghost predicate HasRead(cr: Crypto, due: nat -> bool, c: Codec, h: Header, input: Bytes, rest: Bytes,
      done: seq<Bytes>, certs: seq<Certificate>)
  {
    && Blocks(input).0 == done + Blocks(rest).0 && Blocks(input).1 == Blocks(rest).1
    && DecodeAll(c, done) == Some(certs) && AllOk(cr, due, h, certs)
  }

  /** One more block: it decodes to an acceptable certificate and is read, or the stream is refused. */
  lemma ReadNext(cr: Crypto, due: nat -> bool, c: Codec, h: Header, input: Bytes, rest: Bytes, done: seq<Bytes>,
      certs: seq<Certificate>)
    requires HasRead(cr, due, c, h, input, rest, done, certs) && ReadBlock(rest).Got?
    ensures var block := ReadBlock(rest);
      match c.decodeCert(block.value)
      case Some(cert) =>
        if LastOk(cr, due, h, certs + [cert])
        then HasRead(cr, due, c, h, input, block.rest, done + [block.value], certs + [cert])
        else !CompleteStream(cr, due, c, h, input)
      case None => !CompleteStream(cr, due, c, h, input)
  {
    var block := ReadBlock(rest);
    var done' := done + [block.value];
    BlockMoves(rest, done, done');
    assert done'[..|done|] == done;
    match c.decodeCert(block.value)
    case Some(cert) =>
      AllOkNext(cr, due, h, certs, cert);
      if !LastOk(cr, due, h, certs + [cert]) {
        Refuted(cr, due, c, h, input, done', Blocks(block.rest).0);
      }
    case None =>
      Refuted(cr, due, c, h, input, done', Blocks(block.rest).0);
  }

  lemma BlockMoves(rest: Bytes, done: seq<Bytes>, done': seq<Bytes>)
    requires ReadBlock(rest).Got? && done' == done + [ReadBlock(rest).value]
    ensures done + Blocks(rest).0 == done' + Blocks(ReadBlock(rest).rest).0
    ensures Blocks(rest).1 == Blocks(ReadBlock(rest).rest).1
  {
    var first, tail := ReadBlock(rest).value, Blocks(ReadBlock(rest).rest).0;
    FirstBlock(rest, first, tail);
    Regrouped(done, first, tail);
  }

  lemma Regrouped(done: seq<Bytes>, first: Bytes, tail: seq<Bytes>)
    ensures done + ([first] + tail) == (done + [first]) + tail
  {
  }

  lemma FirstBlock(rest: Bytes, first: Bytes, tail: seq<Bytes>)
    requires ReadBlock(rest).Got? && first == ReadBlock(rest).value && tail == Blocks(ReadBlock(rest).rest).0
    ensures Blocks(rest) == ([first] + tail, Blocks(ReadBlock(rest).rest).1)
  {
  }

  lemma ReadAll(cr: Crypto, due: nat -> bool, c: Codec, h: Header, input: Bytes, rest: Bytes, done: seq<Bytes>,
      certs: seq<Certificate>)
    requires HasRead(cr, due, c, h, input, rest, done, certs) && ReadBlock(rest).EOF?
    ensures DecodeAll(c, Blocks(input).0) == Some(certs)
    ensures CompleteStream(cr, due, c, h, input) <==>
      certs != [] && h.first + |certs| - 1 == h.latest && NamesTable(cr, h, certs)
  {
    assert done + [] == done;
  }

  // ---------- round trip ----------

  lemma HistoryPrefix(cr: Crypto, first: nat, initial: Table, certs: seq<Certificate>, k: nat)
    requires History(cr, first, initial, certs) && k <= |certs|
    ensures History(cr, first, initial, certs[..k])
  {
    var p := certs[..k];
    forall j | 0 <= j <= k
      ensures Replays(cr, initial, p, j)
    {
      assert p[..j] == certs[..j];
      assert Replays(cr, initial, certs, j);
    }
  }

  lemma HistoryComplete(cr: Crypto, due: nat -> bool, h: Header, certs: seq<Certificate>)
    requires certs != [] && History(cr, h.first, h.initial, certs)
    requires h.latest == h.first + |certs| - 1
    ensures Complete(cr, due, h, certs)
  {
    forall k | 0 < k <= |certs|
      ensures LastOk(cr, due, h, certs[..k]) && NamesTable(cr, h, certs[..k])
    {
      assert Replays(cr, h.initial, certs, k);
    }
    assert certs[..|certs|] == certs;
  }

  lemma HistoryLast(cr: Crypto, first: nat, initial: Table, certs: seq<Certificate>, cert: Certificate)
    requires History(cr, first, initial, certs + [cert])
    ensures Continues(cr, first, initial, certs, cert)
    ensures Replay(initial, certs + [cert]).Some?
  {
    var all := certs + [cert];
    assert all[|certs|] == cert;
    assert all[..|certs|] == certs && all[..|all|] == all;
    HistoryPrefix(cr, first, initial, all, |certs|);
    assert Replays(cr, initial, all, |certs|) && Replays(cr, initial, all, |all|);
    ReplayNext(initial, certs, cert);
  }

  lemma LoadedWith(due: nat -> bool, d: Disk, h: Header, certs: seq<Certificate>, cert: Certificate, table: Table)
    requires Replay(h.initial, certs + [cert]) == Some(table)
    ensures var before := Loaded(due, d, h, certs);
      var written := before.(certs := before.certs[cert.instance := cert]);
      Loaded(due, d, h, certs + [cert]) ==
        if due(cert.instance + 1) then written.(power := written.power[cert.instance + 1 := table]) else written
  {
    assert (certs + [cert])[..|certs|] == certs;
  }

  lemma LoadedNext(due: nat -> bool, d: Disk, h: Header, certs: seq<Certificate>, cert: Certificate,
      latest: Option<nat>)
    requires Replay(h.initial, certs + [cert]).Some?
    ensures Loaded(due, d, h, certs + [cert]).(latest := Some(cert.instance))
         == AfterWrites(
           Loaded(due, d, h, certs).(latest := latest), due, cert, Replay(h.initial, certs + [cert]).value, 3)
  {
    assert (certs + [cert])[..|certs|] == certs;
  }

  function LatestOf(h: Header, certs: seq<Certificate>): Option<nat> {
    if certs == [] then None else Some(h.first + |certs| - 1)
  }

  lemma LoadedStep(cr: Crypto, due: nat -> bool, d: Disk, h: Header, certs: seq<Certificate>, cert: Certificate)
    returns (d': Disk)
    requires History(cr, h.first, h.initial, certs + [cert])
    requires Holds(cr, Loaded(due, d, h, certs).(latest := LatestOf(h, certs)), due, h.first, h.initial, certs)
    ensures d' == Loaded(due, d, h, certs + [cert]).(latest := Some(cert.instance))
    ensures Holds(cr, d', due, h.first, h.initial, certs + [cert])
  {
    HistoryLast(cr, h.first, h.initial, certs, cert);
    LoadedNext(due, d, h, certs, cert, LatestOf(h, certs));
    PutAtomic(cr, Loaded(due, d, h, certs).(latest := LatestOf(h, certs)), due, h.first, h.initial, certs, cert, 3);
    d' := Loaded(due, d, h, certs + [cert]).(latest := Some(cert.instance));
  }

  /** Importing a history leaves it on the disk, with its checkpoints. */
  lemma {:induction false} LoadedHolds(cr: Crypto, due: nat -> bool, d: Disk, h: Header, certs: seq<Certificate>)
    requires d.latest == None && History(cr, h.first, h.initial, certs)
    ensures Holds(cr, Loaded(due, d, h, certs).(latest := LatestOf(h, certs)), due, h.first, h.initial, certs)
    decreases |certs|
  {
    if certs == [] {
      CreatedHolds(cr, d, due, h.first, h.initial);
    } else {
      var n := |certs| - 1;
      assert certs == certs[..n] + [certs[n]];
      HistoryPrefix(cr, h.first, h.initial, certs, n);
      LoadedHolds(cr, due, d, h, certs[..n]);
      assert LatestOf(h, certs) == Some(certs[n].instance);
      var d' := LoadedStep(cr, due, d, h, certs[..n], certs[n]);
    }
  }

  lemma SnapshotParsed(c: Codec, h: Header, certs: seq<Certificate>)
    requires Lossless(c) && forall b :: b in BlocksOf(c, h, certs) ==> Fits(b)
    ensures Parsed(c, Frames(BlocksOf(c, h, certs))) == Some((h, certs))
  {
    var blocks := BlocksOf(c, h, certs);
    FramesRoundTrip(blocks);
    DecodeAllRoundTrip(c, certs);
    assert blocks[1..] == seq(|certs|, i requires 0 <= i < |certs| => c.encodeCert(certs[i]));
  }

  /** What a successful import leaves behind. */
  ghost function ImportedDisk(due: nat -> bool, d: Disk, h: Header, certs: seq<Certificate>): Disk {
    Loaded(due, d, h, certs).(latest := Some(h.latest))
  }

  /** The snapshot of a history is imported into a fresh datastore, and brings the history back. */
  lemma RoundTrip(cr: Crypto, frequency: nat, c: Codec, m: Option<Manifest>, d: Disk, h: Header,
      certs: seq<Certificate>)
    requires frequency > 0 && Lossless(c) && d.latest == None && d.first == None
    requires certs != [] && History(cr, h.first, h.initial, certs) && h.latest == h.first + |certs| - 1
    requires Matches(cr, h, m) && forall b :: b in BlocksOf(c, h, certs) ==> Fits(b)
    ensures Parsed(c, Frames(BlocksOf(c, h, certs))) == Some((h, certs))
    ensures Importable(cr, frequency, m, d, h, certs)
    ensures Holds(cr, ImportedDisk(Every(frequency), d, h, certs), Every(frequency), h.first, h.initial, certs)
  {
    SnapshotParsed(c, h, certs);
    HistoryComplete(cr, Every(frequency), h, certs);
    assert LatestOf(h, certs) == Some(h.latest);
    LoadedHolds(cr, Every(frequency), d, h, certs);
  }

  /** The stored certificates of the instances that a header names. */
  ghost function StoredCerts(d: Disk, h: Header): seq<Certificate>
    requires AllStored(d, h)
  {
    seq(if h.first <= h.latest then h.latest + 1 - h.first else 0,
      i requires 0 <= i && h.first + i <= h.latest => d.certs[h.first + i])
  }

  ghost predicate AllStored(d: Disk, h: Header) {
    forall n :: h.first <= n <= h.latest ==> n in d.certs
  }

  /** The bytes of a snapshot, unless a certificate is missing or a block is too long to be framed. */
  ghost function SnapshotOf(d: Disk, c: Codec, h: Header): Option<Bytes> {
    if AllStored(d, h) then Framed(BlocksOf(c, h, StoredCerts(d, h))) else None
  }

  /** What is written, the hash that names it, and the header. */
  datatype Export = Export(bytes: Bytes, cid: Bytes, header: Header)

  ghost function Named(hash: Bytes -> Bytes, h: Header, bytes: Option<Bytes>): Option<Export> {
    match bytes
    case None => None
    case Some(b) => Some(Export(b, hash(b), h))
  }

  /** Exports the certificates from the first instance to `latest`; within the history these are the
      history's own. */
  method ExportSnapshot(s: Store, c: Codec, hash: Bytes -> Bytes, latest: nat) returns (r: Option<Export>)
    requires s.Valid()
    ensures var h := Header(1, s.firstInstance, latest, s.initial);
      r == Named(hash, h, SnapshotOf(s.ds, c, h))
    ensures s.firstInstance <= latest < s.firstInstance + |s.history| ==>
      var h := Header(1, s.firstInstance, latest, s.initial);
      r == Named(hash, h, Framed(BlocksOf(c, h, s.history[..latest + 1 - s.firstInstance])))
  {
    HistoryIsExported(s, c, Header(1, s.firstInstance, latest, s.initial));
    var d, first := s.ds, s.firstInstance;
    var initial := FirstTable(s);
    r := WriteNamed(d, c, hash, Header(1, first, latest, initial));
  }

  lemma HistoryIsExported(s: Store, c: Codec, h: Header)
    requires s.Valid() && h.first == s.firstInstance && h.initial == s.initial
    ensures h.first <= h.latest < h.first + |s.history| ==>
      SnapshotOf(s.ds, c, h) == Framed(BlocksOf(c, h, s.history[..h.latest + 1 - h.first]))
  {
    if h.first <= h.latest < h.first + |s.history| {
      StoredIsHistory(s.cr, s.ds, c, Every(s.frequency), h, s.history);
    }
  }

  method WriteNamed(d: Disk, c: Codec, hash: Bytes -> Bytes, h: Header) returns (r: Option<Export>)
    ensures r == Named(hash, h, SnapshotOf(d, c, h))
  {
    var bytes := WriteBlocks(d, c, h);
    r := if bytes.None? then None else Some(Export(bytes.value, hash(bytes.value), h));
  }

  method FirstTable(s: Store) returns (initial: Table)
    requires s.Valid()
    ensures initial == s.initial
  {
    var table := s.GetPowerTable(s.firstInstance);
    EmptyReplay(s.initial);
    assert s.history[..0] == [] && Deltas(s.history[..0]) == [];
    initial := table.value;
  }

  lemma StoredIsHistory(cr: Crypto, d: Disk, c: Codec, due: nat -> bool, h: Header, history: seq<Certificate>)
    requires Holds(cr, d, due, h.first, h.initial, history) && h.first <= h.latest < h.first + |history|
    ensures SnapshotOf(d, c, h) == Framed(BlocksOf(c, h, history[..h.latest + 1 - h.first]))
  {
    assert AllStored(d, h) && StoredCerts(d, h) == history[..h.latest + 1 - h.first];
  }

  /** The blocks one after the other, if all can be framed. */
  ghost function Framed(blocks: seq<Bytes>): Option<Bytes> {
    if forall b :: b in blocks ==> Fits(b) then Some(Frames(blocks)) else None
  }

  /** The first `k` blocks can be framed, and `out` holds them. */
  ghost predicate Written(all: seq<Bytes>, k: nat, out: Bytes) {
    k <= |all| && Framed(all[..k]) == Some(out)
  }

  lemma WrittenNext(all: seq<Bytes>, k: nat, k': nat, block: Bytes, out: Bytes)
    requires k < |all| && k' == k + 1 && block == all[k] && Written(all, k, out)
    ensures !Fits(block) ==> Framed(all) == None
    ensures Fits(block) ==> Written(all, k', out + Frame(block))
  {
    assert all[k] in all;
    assert all[..k + 1] == all[..k] + [all[k]] && all[..k + 1][..k] == all[..k];
  }

  lemma WrittenAll(all: seq<Bytes>, out: Bytes)
    requires Written(all, |all|, out)
    ensures Framed(all) == Some(out)
  {
    assert all[..|all|] == all;
  }

  /** The blocks of a snapshot, or only its header while a certificate is missing. */
  ghost function AllBlocks(d: Disk, c: Codec, h: Header): seq<Bytes> {
    BlocksOf(c, h, if AllStored(d, h) then StoredCerts(d, h) else [])
  }

  lemma HeaderBlock(d: Disk, c: Codec, h: Header)
    ensures |AllBlocks(d, c, h)| > 0 && AllBlocks(d, c, h)[0] == c.encodeHeader(h)
    ensures AllStored(d, h) ==> |AllBlocks(d, c, h)| == if h.first <= h.latest then h.latest - h.first + 2 else 1
  {
  }

  lemma CertificateBlock(d: Disk, c: Codec, h: Header, k: nat)
    requires AllStored(d, h) && h.first + k <= h.latest
    ensures k + 1 < |AllBlocks(d, c, h)| && AllBlocks(d, c, h)[k + 1] == c.encodeCert(d.certs[h.first + k])
  {
    assert StoredCerts(d, h)[k] == d.certs[h.first + k];
  }

  /** The header is written, and `out` is what a snapshot begins with. */
  lemma HeaderWritten(d: Disk, c: Codec, h: Header)
    ensures !Fits(c.encodeHeader(h)) ==> Framed(AllBlocks(d, c, h)) == None
    ensures Fits(c.encodeHeader(h)) ==> Written(AllBlocks(d, c, h), 1, Frame(c.encodeHeader(h)))
  {
    HeaderBlock(d, c, h);
    WrittenNext(AllBlocks(d, c, h), 0, 1, c.encodeHeader(h), []);
    assert [] + Frame(c.encodeHeader(h)) == Frame(c.encodeHeader(h));
  }

  lemma CertificateWritten(d: Disk, c: Codec, h: Header, i: nat, k: nat, out: Bytes)
    requires AllStored(d, h) && i == h.first + k <= h.latest && Written(AllBlocks(d, c, h), k + 1, out)
    ensures !Fits(c.encodeCert(d.certs[i])) ==> Framed(AllBlocks(d, c, h)) == None
    ensures Fits(c.encodeCert(d.certs[i])) ==> Written(AllBlocks(d, c, h), k + 2, out + Frame(c.encodeCert(d.certs[i])))
  {
    CertificateBlock(d, c, h, k);
    WrittenNext(AllBlocks(d, c, h), k + 1, k + 2, c.encodeCert(d.certs[i]), out);
  }

  lemma SnapshotWritten(d: Disk, c: Codec, h: Header, k: nat, out: Bytes)
    requires AllStored(d, h) && Written(AllBlocks(d, c, h), k + 1, out)
    requires k == if h.first <= h.latest then h.latest - h.first + 1 else 0
    ensures Framed(AllBlocks(d, c, h)) == Some(out)
  {
    HeaderBlock(d, c, h);
    WrittenAll(AllBlocks(d, c, h), out);
  }

  /** What becomes of `out` when the certificates from instance `i` on are added to it. */
  ghost function Continued(d: Disk, c: Codec, h: Header, i: nat, out: Bytes): Option<Bytes>
    decreases h.latest + 1 - i
  {
    if i > h.latest then Some(out)
    else if i !in d.certs || !Fits(c.encodeCert(d.certs[i])) then None
    else Continued(d, c, h, i + 1, out + Frame(c.encodeCert(d.certs[i])))
  }

  lemma {:induction false} ContinuedMissing(d: Disk, c: Codec, h: Header, i: nat, n: nat, out: Bytes)
    requires i <= n <= h.latest && n !in d.certs
    ensures Continued(d, c, h, i, out) == None
    decreases n - i
  {
    if i < n && i in d.certs && Fits(c.encodeCert(d.certs[i])) {
      ContinuedMissing(d, c, h, i + 1, n, out + Frame(c.encodeCert(d.certs[i])));
    }
  }

  lemma {:induction false} ContinuedStored(d: Disk, c: Codec, h: Header, i: nat, k: nat, out: Bytes,
      all: seq<Bytes>)
    requires AllStored(d, h) && i == h.first + k && all == AllBlocks(d, c, h) && Written(all, k + 1, out)
    requires k == 0 || i <= h.latest + 1
    ensures Continued(d, c, h, i, out) == Framed(all)
    decreases h.latest + 1 - i
  {
    if i > h.latest {
      SnapshotWritten(d, c, h, k, out);
    } else {
      CertificateWritten(d, c, h, i, k, out);
      if Fits(c.encodeCert(d.certs[i])) {
        var out' := out + Frame(c.encodeCert(d.certs[i]));
        ContinuedStored(d, c, h, i + 1, k + 1, out', all);
        assert Continued(d, c, h, i, out) == Continued(d, c, h, i + 1, out');
      }
    }
  }

  lemma ContinuedHeader(d: Disk, c: Codec, h: Header)
    ensures SnapshotOf(d, c, h) ==
      if Fits(c.encodeHeader(h)) then Continued(d, c, h, h.first, Frame(c.encodeHeader(h))) else None
  {
    HeaderWritten(d, c, h);
    if Fits(c.encodeHeader(h)) {
      if AllStored(d, h) {
        ContinuedStored(d, c, h, h.first, 0, Frame(c.encodeHeader(h)), AllBlocks(d, c, h));
      } else {
        var n :| h.first <= n <= h.latest && n !in d.certs;
        ContinuedMissing(d, c, h, h.first, n, Frame(c.encodeHeader(h)));
      }
    }
  }

  /** Writes the header and the stored certificates of the instances it names. */
  method WriteBlocks(d: Disk, c: Codec, h: Header) returns (r: Option<Bytes>)
    ensures r == SnapshotOf(d, c, h)
  {
    ContinuedHeader(d, c, h);
    if !Fits(c.encodeHeader(h)) {
      return None;
    }
    var out := Frame(c.encodeHeader(h));
    var i := h.first;
    while i <= h.latest
      invariant Continued(d, c, h, i, out) == SnapshotOf(d, c, h)
    {
      if i !in d.certs {
        return None;
      }
      var block := c.encodeCert(d.certs[i]);
      if !Fits(block) {
        return None;
      }
      out := out + Frame(block);
      i := i + 1;
    }
    r := Some(out);
  }

  /** Checks a table against the identifier that a certificate names. */
  method CheckPowerTable(cr: Crypto, ptm: EntryMap, cid: Bytes) returns (ok: bool, table: Table)
    requires KeysMatch(ptm)
    ensures table == TableOf(ptm) && ok == (cr.cid(table) == cid)
  {
    table := MapToArray(ptm);
    ok := cr.cid(table) == cid;
  }

  lemma DeltaNext(h: Header, certs: seq<Certificate>, cert: Certificate, ptm: EntryMap)
    requires KeysMatch(ptm) && ApplyDiffs(ToMap(h.initial), Deltas(certs)) == Some(ptm)
    ensures ApplyDiffs(ToMap(h.initial), Deltas(certs + [cert])) == ApplyDiffs(ptm, [cert.delta])
    ensures match ApplyDiffs(ptm, [cert.delta])
            case None => Replay(h.initial, certs + [cert]) == None
            case Some(m) => KeysMatch(m) && Replay(h.initial, certs + [cert]) == Some(TableOf(m))
  {
    assert Deltas(certs + [cert]) == Deltas(certs) + [cert.delta];
    ApplyDiffsSplit(ToMap(h.initial), Deltas(certs), [cert.delta]);
    if ApplyDiffs(ptm, [cert.delta]).Some? {
      ApplyDiffsKeys(ptm, [cert.delta]);
    }
  }

  /** Writes one certificate and, when it is due, the table after it. */
  method ImportOne(cr: Crypto, frequency: nat, ghost d: Disk, h: Header, ghost certs: seq<Certificate>,
      cert: Certificate, ptm: EntryMap, disk: Disk)
    returns (ok: bool, ptm': EntryMap, disk': Disk)
    requires frequency > 0 && KeysMatch(ptm) && ApplyDiffs(ToMap(h.initial), Deltas(certs)) == Some(ptm)
    requires disk == Loaded(Every(frequency), d, h, certs)
    requires cert.instance == h.first + |certs| <= h.latest
    ensures ok <==> LastOk(cr, Every(frequency), h, certs + [cert])
    ensures ok ==> KeysMatch(ptm') && ApplyDiffs(ToMap(h.initial), Deltas(certs + [cert])) == Some(ptm')
    ensures ok ==> disk' == Loaded(Every(frequency), d, h, certs + [cert])
    ensures disk'.latest == disk.latest
  {
    ptm', disk' := ptm, disk;
    DeltaNext(h, certs, cert, ptm);
    disk' := disk'.(certs := disk'.certs[cert.instance := cert]);
    var applied := ApplyPowerTableDiffsToMap(ptm, [cert.delta]);
    if applied.None? {
      return false, ptm', disk';
    }
    ptm' := applied.value;
    LoadedWith(Every(frequency), d, h, certs, cert, TableOf(ptm'));
    if (cert.instance + 1) % frequency == 0 {
      var named, pt := CheckPowerTable(cr, ptm', cert.supplement.powerTable);
      if !named {
        return false, ptm', disk';
      }
      disk' := disk'.(power := disk'.power[cert.instance + 1 := pt]);
    }
    ok := true;
  }

  /** Reads the certificates of a snapshot to the end of the stream, and records the latest one. */
  method ImportCertificates(cr: Crypto, frequency: nat, c: Codec, ghost d: Disk, h: Header, disk: Disk, input: Bytes)
    returns (ok: bool, disk': Disk)
    requires frequency > 0 && disk == CreatedDisk(d, h.first, h.initial)
    ensures ok <==> CompleteStream(cr, Every(frequency), c, h, input)
    ensures ok ==> disk' == ImportedDisk(Every(frequency), d, h, DecodeAll(c, Blocks(input).0).value)
    ensures !ok ==> disk'.latest == disk.latest
  {
    disk' := disk;
    ghost var due := Every(frequency);
    var rest, i := input, h.first;
    var latestCert: Option<Certificate> := None;
    var ptm := ArrayToMap(h.initial);
    ToMapMembers(h.initial);
    ghost var done, certs := [], [];
    assert done + Blocks(input).0 == Blocks(input).0;
    while true
      invariant i == h.first + |certs| && latestCert == Last(certs)
      invariant HasRead(cr, due, c, h, input, rest, done, certs)
      invariant KeysMatch(ptm) && ApplyDiffs(ToMap(h.initial), Deltas(certs)) == Some(ptm)
      invariant disk' == Loaded(due, d, h, certs) && disk'.latest == disk.latest
      invariant certs != [] ==> certs[|certs| - 1].instance == i - 1
      decreases |rest|
    {
      var block := ReadBlock(rest);
      if block.EOF? {
        break;
      } else if block.Failed? {
        return false, disk';
      }
      ReadNext(cr, due, c, h, input, rest, done, certs);
      var cert := c.decodeCert(block.value);
      if cert.None? {
        return false, disk';
      }
      latestCert := cert;
      if i != cert.value.instance || i > h.latest {
        return false, disk';
      }
      var stored;
      stored, ptm, disk' := ImportOne(cr, frequency, d, h, certs, cert.value, ptm, disk');
      if !stored {
        return false, disk';
      }
      done, certs := done + [block.value], certs + [cert.value];
      rest, i := block.rest, i + 1;
    }
    ReadAll(cr, due, c, h, input, rest, done, certs);
    if latestCert.None? || latestCert.value.instance != h.latest {
      return false, disk';
    }
    var named, pt := CheckPowerTable(cr, ptm, latestCert.value.supplement.powerTable);
    if !named {
      return false, disk';
    }
    disk' := disk'.(latest := Some(h.latest));
    ok := true;
  }

  /** Imports a snapshot. It succeeds just when the stream parses to an importable snapshot, and a
      failed import never moves the latest marker. */
  method ImportSnapshot(cr: Crypto, frequency: nat, c: Codec, m: Option<Manifest>, d: Disk, input: Bytes)
    returns (ok: bool, d': Disk)
    requires frequency > 0
    ensures match Parsed(c, input)
            case None => !ok
            case Some((h, certs)) =>
              && (ok <==> Importable(cr, frequency, m, d, h, certs))
              && (ok ==> d' == ImportedDisk(Every(frequency), d, h, certs))
    ensures !ok ==> d'.latest == d.latest
  {
    d' := d;
    var block := ReadBlock(input);
    if !block.Got? {
      return false, d';
    }
    assert Blocks(input).0[1..] == Blocks(block.rest).0;
    var header := c.decodeHeader(block.value);
    if header.None? {
      return false, d';
    }
    var h := header.value;
    if m.Some? {
      if m.value.initialInstance != h.first {
        return false, d';
      }
      if m.value.initialPowerTable.Some? && m.value.initialPowerTable.value != cr.cid(h.initial) {
        return false, d';
      }
    }
    var cs := OpenOrCreateStore(cr, frequency, d, h.first, h.initial, []);
    if cs.None? {
      return false, d';
    }
    ok, d' := ImportCertificates(cr, frequency, c, d, h, cs.value.ds, block.rest);
  }

  /** Every block of a snapshot is short enough to be framed. */
  predicate Frameable(c: Codec, h: Header, certs: seq<Certificate>) {
    |c.encodeHeader(h)| < BLOCK_LIMIT && forall i :: 0 <= i < |certs| ==> |c.encodeCert(certs[i])| < BLOCK_LIMIT
  }

  lemma FrameableExactly(c: Codec, h: Header, certs: seq<Certificate>)
    ensures Framed(BlocksOf(c, h, certs)).Some? <==> Frameable(c, h, certs)
  {
    var blocks := BlocksOf(c, h, certs);
    assert blocks[0] == c.encodeHeader(h) && forall i :: 0 <= i < |certs| ==> blocks[i + 1] == c.encodeCert(certs[i]);
    FitsExactly(c.encodeHeader(h));
    forall i | 0 <= i < |certs|
      ensures Fits(c.encodeCert(certs[i])) <==> |c.encodeCert(certs[i])| < BLOCK_LIMIT
    {
      FitsExactly(c.encodeCert(certs[i]));
    }
    if Frameable(c, h, certs) {
      forall b | b in blocks
        ensures Fits(b)
      {
        var k :| 0 <= k < |blocks| && blocks[k] == b;
        assert k == 0 || b == c.encodeCert(certs[k - 1]);
      }
    }
  }

  /** Opens a store with the given history. */
  method ImportThenOpen(cr: Crypto, frequency: nat, c: Codec, m: Option<Manifest>, d: Disk, ghost h: Header,
      ghost certs: seq<Certificate>, bytes: Bytes)
    returns (r: Option<Store>)
    requires frequency > 0 && Lossless(c) && d.latest == None && d.first == None && Matches(cr, h, m)
    requires certs != [] && History(cr, h.first, h.initial, certs) && h.latest == h.first + |certs| - 1
    requires Framed(BlocksOf(c, h, certs)) == Some(bytes)
    ensures r.Some? && fresh(r.value) && r.value.Valid() && r.value.firstInstance == h.first
    ensures r.value.initial == h.initial
    ensures r.value.history == certs
  {
    RoundTrip(cr, frequency, c, m, d, h, certs);
    var ok, d' := ImportSnapshot(cr, frequency, c, m, d, bytes);
    r := OpenStore(cr, frequency, d', h.first, h.initial, certs);
  }

  /** Exports a prefix of the history. */
  method ExportHistory(s: Store, c: Codec, hash: Bytes -> Bytes, n: nat, ghost h: Header, ghost certs: seq<Certificate>)
    returns (r: Option<Bytes>)
    requires s.Valid() && s.firstInstance <= n < s.firstInstance + |s.history|
    requires h == Header(1, s.firstInstance, n, s.initial) && certs == s.history[..n + 1 - s.firstInstance]
    ensures r == Framed(BlocksOf(c, h, certs))
  {
    var exported := ExportSnapshot(s, c, hash, n);
    assert Header(1, s.firstInstance, n, s.initial) == h && s.history[..n + 1 - s.firstInstance] == certs;
    r := if exported.None? then None else Some(exported.value.bytes);
  }

  lemma ValidHistory(s: Store, k: nat, certs: seq<Certificate>)
    requires s.Valid() && k <= |s.history| && certs == s.history[..k]
    ensures s.frequency > 0 && History(s.cr, s.firstInstance, s.initial, certs)
  {
    HistoryPrefix(s.cr, s.firstInstance, s.initial, s.history, k);
  }

  /** A store exported up to `n`, imported into a fresh datastore and opened again has the same
      history up to `n`, if and only if all blocks can be framed. */
  method ExportThenOpen(s: Store, c: Codec, hash: Bytes -> Bytes, n: nat, m: Option<Manifest>, d: Disk)
    returns (r: Option<Store>)
    requires s.Valid() && Lossless(c) && s.firstInstance <= n < s.firstInstance + |s.history|
    requires d.latest == None && d.first == None && Matches(s.cr, Header(1, s.firstInstance, n, s.initial), m)
    ensures r.Some? <==> Frameable(c, Header(1, s.firstInstance, n, s.initial), s.history[..n + 1 - s.firstInstance])
    ensures r.Some? ==>
      && fresh(r.value) && r.value.Valid() && r.value.firstInstance == s.firstInstance && r.value.initial == s.initial
      && r.value.history == s.history[..n + 1 - s.firstInstance]
  {
    ghost var h, certs := Header(1, s.firstInstance, n, s.initial), s.history[..n + 1 - s.firstInstance];
    FrameableExactly(c, h, certs);
    ValidHistory(s, n + 1 - s.firstInstance, certs);
    var cr, frequency := s.cr, s.frequency;
    var exported := ExportHistory(s, c, hash, n, h, certs);
    r := OpenExported(cr, frequency, c, m, d, h, certs, exported);
  }

  method OpenExported(cr: Crypto, frequency: nat, c: Codec, m: Option<Manifest>, d: Disk, ghost h: Header,
      ghost certs: seq<Certificate>, exported: Option<Bytes>)
    returns (r: Option<Store>)
    requires frequency > 0 && Lossless(c) && d.latest == None && d.first == None && Matches(cr, h, m)
    requires certs != [] && History(cr, h.first, h.initial, certs) && h.latest == h.first + |certs| - 1
    requires exported == Framed(BlocksOf(c, h, certs))
    ensures r.Some? <==> exported.Some?
    ensures r.Some? ==>
      && fresh(r.value) && r.value.Valid() && r.value.firstInstance == h.first && r.value.initial == h.initial
      && r.value.history == certs
  {
    if exported.None? {
      return None;
    }
    r := ImportThenOpen(cr, frequency, c, m, d, h, certs, exported.value);
  }
}
