/** The byte formats of the log: big-endian numbers, entries, framed records, the snapshot file and
    the hard-state file, each with its round trip. */
module Codec {
  import opened Entries

  type Bytes = seq<Byte>

  const U32_END := 0x1_0000_0000
  const U64_END := 0x1_0000_0000_0000_0000

  type U32 = n: nat | n < U32_END

  /** A 32-bit checksum, left uninterpreted. */
  type Crc = Bytes -> U32

  // ---- Big-endian numbers ----

  function Pow256(w: nat): (p: nat)
    ensures p > 0
  {
    if w == 0 then 1 else 256 * Pow256(w - 1)
  }

  lemma Pow256Values()
    ensures Pow256(4) == U32_END && Pow256(8) == U64_END
  {
    assert Pow256(2) == 65536;
    assert Pow256(4) == U32_END;
    assert Pow256(6) == 0x1_0000_0000_0000;
  }

  /** The low `w` bytes of `n`, most significant first; higher bytes are cut off. */
  function Be(n: nat, w: nat): (b: Bytes)
    ensures |b| == w
  {
    if w == 0 then [] else Be(n / 256, w - 1) + [n % 256]
  }

  function FromBe(b: Bytes): nat {
    if b == [] then 0 else FromBe(b[..|b| - 1]) * 256 + b[|b| - 1]
  }

  lemma {:induction false} FromBeBound(b: Bytes)
    ensures FromBe(b) < Pow256(|b|)
  {
    if b != [] {
      FromBeBound(b[..|b| - 1]);
    }
  }

  lemma {:induction false} BeFromBe(b: Bytes)
    ensures Be(FromBe(b), |b|) == b
  {
    if b != [] {
      BeFromBe(b[..|b| - 1]);
    }
  }

  /** A number comes back from its bytes exactly when it fits them. */
  lemma {:induction false} FromBeOfBe(n: nat, w: nat)
    ensures FromBe(Be(n, w)) == n <==> n < Pow256(w)
  {
    FromBeBound(Be(n, w));
    if n < Pow256(w) {
      BeFits(n, w);
    }
  }

  lemma {:induction false} BeFits(n: nat, w: nat)
    requires n < Pow256(w)
    ensures FromBe(Be(n, w)) == n
  {
    if w > 0 {
      BeFits(n / 256, w - 1);
      assert Be(n, w)[..w - 1] == Be(n / 256, w - 1);
    }
  }

  lemma DivDiv(n: nat, a: nat, b: nat)
    requires a > 0 && b > 0
    ensures a * b > 0 && n / a / b == n / (a * b)
  {
    var q, r := n / a / b, n / a % b;
    assert n / a == q * b + r;
    assert n == (q * b + r) * a + n % a == q * (a * b) + (r * a + n % a);
    assert r * a + n % a < a * b by {
      assert r * a <= (b - 1) * a;
    }
    Quotient(n, a * b, q, r * a + n % a);
  }

  lemma Quotient(n: nat, d: nat, q: nat, r: nat)
    requires d > 0 && n == q * d + r && r < d
    ensures n / d == q
  {
    var q', r' := n / d, n % d;
    assert n == q' * d + r' && (q' - q) * d == q' * d - q * d == r - r';
    SmallMultiple(q' - q, d, r - r');
  }

  lemma SmallMultiple(k: int, d: int, x: int)
    requires k * d == x && -d < x < d
    ensures k == 0
  {
    assert k >= 1 ==> (k - 1) * d >= 0;
    assert k <= -1 ==> (-k - 1) * d >= 0;
  }

  /** Byte `i` of `w` is the digit of `n` with weight 256 to the power `w - 1 - i`: most significant first. */
  lemma {:induction false} BeDigit(n: nat, w: nat, i: nat)
    requires i < w
    ensures Be(n, w)[i] == n / Pow256(w - 1 - i) % 256
    decreases w
  {
    if i < w - 1 {
      BeDigit(n / 256, w - 1, i);
      DivDiv(n, 256, Pow256(w - 2 - i));
      assert Pow256(w - 1 - i) == 256 * Pow256(w - 2 - i);
    } else {
      assert Pow256(0) == 1;
    }
  }

  /** Writes `w` big-endian bytes of `n` at `at`, in place. */
  method PutBe(buf: array<Byte>, at: nat, n: nat, w: nat)
    requires at + w <= buf.Length
    modifies buf
    ensures buf[..at] == old(buf[..at]) && buf[at..at + w] == Be(n, w) && buf[at + w..] == old(buf[at + w..])
  {
    var rest := n;
    var i := w;
    while i > 0
      invariant 0 <= i <= w
      invariant buf[..at + i] == old(buf[..at + i])
      invariant Be(n, w) == Be(rest, i) + buf[at + i..at + w]
      invariant buf[at + w..] == old(buf[at + w..])
    {
      i := i - 1;
      ghost var before := buf[..];
      buf[at + i] := rest % 256;
      assert buf[at + i..at + w] == [rest % 256] + before[at + i + 1..at + w];
      rest := rest / 256;
    }
  }

  /** Copies `data` to `at`, in place. */
  method CopyAt(buf: array<Byte>, at: nat, data: Bytes)
    requires at + |data| <= buf.Length
    modifies buf
    ensures buf[..at] == old(buf[..at]) && buf[at..at + |data|] == data && buf[at + |data|..] == old(buf[at + |data|..])
  {
    var i := 0;
    while i < |data|
      invariant i <= |data|
      invariant buf[..at] == old(buf[..at]) && buf[at..at + i] == data[..i]
      invariant buf[at + |data|..] == old(buf[at + |data|..])
    {
      buf[at + i] := data[i];
      i := i + 1;
    }
  }

  // ---- Entries ----

  const ENTRY_HEADER := 21

  /** The entry's numbers are 64-bit numbers. */
  predicate Fits64(e: Entry) {
    e.index < U64_END && e.term < U64_END
  }

  function EncodedLen(e: Entry): nat {
    ENTRY_HEADER + |e.data|
  }

  function Encode(e: Entry): (b: Bytes)
    ensures |b| == EncodedLen(e)
  {
    Be(e.index, 8) + Be(e.term, 8) + [e.kind] + Be(|e.data|, 4) + e.data
  }

  function Decode(b: Bytes): Option<Entry> {
    if |b| < ENTRY_HEADER then None
    else if FromBe(b[17..21]) != |b| - ENTRY_HEADER then None
    else Some(Entry(FromBe(b[0..8]), FromBe(b[8..16]), b[16], b[21..]))
  }

  lemma EncodedParts(e: Entry)
    ensures var b := Encode(e);
      && b[0..8] == Be(e.index, 8) && b[8..16] == Be(e.term, 8) && b[16] == e.kind
      && b[17..21] == Be(|e.data|, 4) && b[21..] == e.data
  {
  }

  /** An encoded entry decodes to itself exactly when its data length fits 32 bits. */
  lemma EntryRoundTrip(e: Entry)
    requires Fits64(e)
    ensures Decode(Encode(e)) == (if |e.data| < U32_END then Some(e) else None)
  {
    Pow256Values();
    EncodedParts(e);
    BeFits(e.index, 8);
    BeFits(e.term, 8);
    FromBeOfBe(|e.data|, 4);
  }

  /** Nothing but an encoding decodes: the format is canonical. */
  lemma DecodedIsEncoded(b: Bytes)
    requires Decode(b).Some?
    ensures Encode(Decode(b).value) == b && Fits64(Decode(b).value) && |Decode(b).value.data| < U32_END
  {
    Pow256Values();
    BeFromBe(b[0..8]);
    BeFromBe(b[8..16]);
    BeFromBe(b[17..21]);
    FromBeBound(b[0..8]);
    FromBeBound(b[8..16]);
    FromBeBound(b[17..21]);
    assert b == b[0..8] + b[8..16] + [b[16]] + b[17..21] + b[21..];
  }

  method EncodeHeader(e: Entry, buf: array<Byte>)
    requires buf.Length >= ENTRY_HEADER
    modifies buf
    ensures buf[..21] == Be(e.index, 8) + Be(e.term, 8) + [e.kind] + Be(|e.data|, 4)
    ensures forall i | 21 <= i < buf.Length :: buf[i] == old(buf[i])
  {
    PutBe(buf, 0, e.index, 8);
    ghost var after := buf[8..];
    assert forall i | 21 <= i < buf.Length :: buf[i] == after[i - 8];
    PutBe(buf, 8, e.term, 8);
    assert buf[..16] == Be(e.index, 8) + Be(e.term, 8);
    after := buf[16..];
    buf[16] := e.kind;
    assert buf[..17] == buf[..16] + [e.kind];
    ghost var tail := buf[21..];
    PutBe(buf, 17, |e.data|, 4);
    assert buf[..21] == buf[..17] + buf[17..21];
    assert forall i | 21 <= i < buf.Length :: buf[i] == tail[i - 21];
  }

  /** Encodes into the caller's buffer, in place. */
  method EncodeInto(e: Entry, buf: array<Byte>)
    requires buf.Length >= EncodedLen(e)
    modifies buf
    ensures buf[..EncodedLen(e)] == Encode(e)
    ensures buf[EncodedLen(e)..] == old(buf[EncodedLen(e)..])
  {
    EncodeHeader(e, buf);
    CopyAt(buf, 21, e.data);
    assert buf[..EncodedLen(e)] == buf[..21] + buf[21..21 + |e.data|];
  }

  // ---- Framed records ----

  const RECORD_HEADER := 8

  /** The record's payload length fits its 32-bit field. */
  predicate Storable(e: Entry) {
    Fits64(e) && EncodedLen(e) < U32_END
  }

  function Record(crc: Crc, e: Entry): (b: Bytes)
    ensures |b| == RECORD_HEADER + EncodedLen(e)
  {
    Be(EncodedLen(e), 4) + Be(crc(Encode(e)), 4) + Encode(e)
  }

  /** The record at `off` and where it ends; nothing if it is short, corrupt or malformed. */
  function ReadRecord(crc: Crc, file: Bytes, off: nat): (r: Option<(Entry, nat)>)
    ensures r.Some? ==> off < r.value.1 <= |file|
  {
    if off + RECORD_HEADER > |file| then None
    else
      var recEnd := off + RECORD_HEADER + FromBe(file[off..off + 4]);
      if recEnd > |file| then None
      else
        var payload := file[off + RECORD_HEADER..recEnd];
        if crc(payload) != FromBe(file[off + 4..off + 8]) then None
        else
          match Decode(payload)
          case None => None
          case Some(e) => Some((e, recEnd))
  }

  lemma RecordParts(crc: Crc, e: Entry)
    ensures var b := Record(crc, e);
      b[0..4] == Be(EncodedLen(e), 4) && b[4..8] == Be(crc(Encode(e)), 4) && b[8..] == Encode(e)
  {
  }

  /** A record placed anywhere in a file is read back whole. */
  lemma RecordReadsBack(crc: Crc, file: Bytes, off: nat, e: Entry)
    requires Storable(e) && off + |Record(crc, e)| <= |file|
    requires file[off..off + |Record(crc, e)|] == Record(crc, e)
    ensures ReadRecord(crc, file, off) == Some((e, off + |Record(crc, e)|))
  {
    var rec := Record(crc, e);
    RecordParts(crc, e);
    Slice(file, off, |rec|, 0, 4);
    Slice(file, off, |rec|, 4, 8);
    Slice(file, off, |rec|, 8, |rec|);
    assert rec[8..|rec|] == rec[8..];
    Pow256Values();
    BeFits(EncodedLen(e), 4);
    BeFits(crc(Encode(e)), 4);
    EntryRoundTrip(e);
  }

  lemma Slice(b: Bytes, off: nat, n: nat, i: nat, j: nat)
    requires off + n <= |b| && i <= j <= n
    ensures b[off..off + n][i..j] == b[off + i..off + j]
  {
    var x, y := b[off..off + n][i..j], b[off + i..off + j];
    assert forall k | 0 <= k < |x| :: x[k] == y[k];
  }

  /** A record alone in a file is read back exactly when header and data together fit 32 bits. */
  lemma RecordRoundTrip(crc: Crc, e: Entry)
    requires Fits64(e)
    ensures ReadRecord(crc, Record(crc, e), 0) == Some((e, |Record(crc, e)|)) <==> EncodedLen(e) < U32_END
  {
    var rec := Record(crc, e);
    if EncodedLen(e) < U32_END {
      assert rec[0..0 + |rec|] == rec;
      RecordReadsBack(crc, rec, 0, e);
    } else {
      RecordParts(crc, e);
      FromBeBound(rec[0..4]);
      Pow256Values();
    }
  }

  /** A record cut short anywhere is not read at all; the lengths alone tell. */
  lemma TornRecordUnread(crc: Crc, file: Bytes, off: nat, e: Entry, cut: nat)
    requires Storable(e) && cut < |Record(crc, e)| && off + cut == |file|
    requires file[off..] == Record(crc, e)[..cut]
    ensures ReadRecord(crc, file, off) == None
  {
    if cut >= RECORD_HEADER {
      var rec := Record(crc, e);
      RecordParts(crc, e);
      assert file[off..off + 4] == file[off..][0..4] == rec[..cut][0..4] == rec[0..4];
      Pow256Values();
      BeFits(EncodedLen(e), 4);
    }
  }

  /** Whatever is read is a record, byte for byte. */
  lemma ReadIsRecord(crc: Crc, file: Bytes, off: nat)
    requires ReadRecord(crc, file, off).Some?
    ensures var (e, end) := ReadRecord(crc, file, off).value;
      Storable(e) && end == off + |Record(crc, e)| && file[off..end] == Record(crc, e)
  {
    var (e, end) := ReadRecord(crc, file, off).value;
    var payload := file[off + 8..end];
    DecodedIsEncoded(payload);
    BeFromBe(file[off..off + 4]);
    BeFromBe(file[off + 4..off + 8]);
    FromBeBound(file[off..off + 4]);
    Pow256Values();
    assert file[off..end] == file[off..off + 4] + file[off + 4..off + 8] + payload;
  }

  // ---- The snapshot file ----

  datatype SnapshotImage = SnapshotImage(index: nat, term: nat, data: Bytes)

  const SNAPSHOT_HEADER := 24

  function EncodeSnapshot(crc: Crc, s: SnapshotImage): Bytes {
    Be(s.index, 8) + Be(s.term, 8) + Be(|s.data|, 4) + Be(crc(Be(s.index, 8) + Be(s.term, 8) + s.data), 4) + s.data
  }

  function DecodeSnapshot(crc: Crc, b: Bytes): Option<SnapshotImage> {
    if |b| < SNAPSHOT_HEADER then None
    else if FromBe(b[16..20]) != |b| - SNAPSHOT_HEADER then None
    else if crc(b[0..16] + b[24..]) != FromBe(b[20..24]) then None
    else Some(SnapshotImage(FromBe(b[0..8]), FromBe(b[8..16]), b[24..]))
  }

  /** Where the parts of a snapshot file lie, and what its checksum covers. */
  lemma SnapshotParts(crc: Crc, s: SnapshotImage)
    ensures var b := EncodeSnapshot(crc, s);
      && b[0..8] == Be(s.index, 8) && b[8..16] == Be(s.term, 8) && b[16..20] == Be(|s.data|, 4)
      && b[20..24] == Be(crc(b[0..16] + s.data), 4) && b[24..] == s.data
  {
    var b := EncodeSnapshot(crc, s);
    assert b[0..16] == Be(s.index, 8) + Be(s.term, 8);
  }

  /** Fills the buffer a snapshot file is written from. */
  method WriteSnapshot(crc: Crc, s: SnapshotImage) returns (buf: array<Byte>)
    ensures fresh(buf) && buf[..] == EncodeSnapshot(crc, s)
  {
    buf := new Byte[SNAPSHOT_HEADER + |s.data|];
    PutBe(buf, 0, s.index, 8);
    PutBe(buf, 8, s.term, 8);
    assert buf[..16] == Be(s.index, 8) + Be(s.term, 8);
    PutBe(buf, 16, |s.data|, 4);
    ghost var head := buf[..20];
    assert head == Be(s.index, 8) + Be(s.term, 8) + Be(|s.data|, 4) && buf[..16] == head[..16];
    PutBe(buf, 20, crc(buf[..16] + s.data), 4);
    assert buf[..24] == head + buf[20..24];
    CopyAt(buf, 24, s.data);
    assert buf[..] == buf[..24] + buf[24..24 + |s.data|];
  }

  /** A snapshot file reads back what was written, exactly when its data length fits 32 bits. */
  lemma SnapshotRoundTrip(crc: Crc, s: SnapshotImage)
    requires s.index < U64_END && s.term < U64_END
    ensures DecodeSnapshot(crc, EncodeSnapshot(crc, s)) == (if |s.data| < U32_END then Some(s) else None)
  {
    var b := EncodeSnapshot(crc, s);
    var sum := crc(Be(s.index, 8) + Be(s.term, 8) + s.data);
    Pow256Values();
    assert b[0..8] == Be(s.index, 8) && b[8..16] == Be(s.term, 8);
    assert b[16..20] == Be(|s.data|, 4) && b[20..24] == Be(sum, 4) && b[24..] == s.data;
    assert b[0..16] + b[24..] == Be(s.index, 8) + Be(s.term, 8) + s.data;
    BeFits(s.index, 8);
    BeFits(s.term, 8);
    BeFits(sum, 4);
    FromBeOfBe(|s.data|, 4);
  }

  /** Whatever is read as a snapshot file is byte for byte the file of the result. */
  lemma ReadSnapshotIsWritten(crc: Crc, b: Bytes)
    requires DecodeSnapshot(crc, b).Some?
    ensures var s := DecodeSnapshot(crc, b).value;
      EncodeSnapshot(crc, s) == b && s.index < U64_END && s.term < U64_END && |s.data| < U32_END
  {
    Pow256Values();
    BeFromBe(b[0..8]);
    BeFromBe(b[8..16]);
    BeFromBe(b[16..20]);
    BeFromBe(b[20..24]);
    FromBeBound(b[0..8]);
    FromBeBound(b[8..16]);
    FromBeBound(b[16..20]);
    assert b[0..16] == b[0..8] + b[8..16];
    assert b == b[0..8] + b[8..16] + b[16..20] + b[20..24] + b[24..];
  }

  // ---- The hard-state file ----

  datatype HardStateImage = HardStateImage(term: nat, votedFor: nat)

  function EncodeHardState(crc: Crc, hs: HardStateImage): Bytes {
    var head := Be(hs.term, 8) + Be(hs.votedFor, 8);
    head + Be(crc(head), 4)
  }

  /** Where the parts of a hard-state file lie, and what its checksum covers. */
  lemma HardStateParts(crc: Crc, hs: HardStateImage)
    ensures var b := EncodeHardState(crc, hs);
      && |b| == 20 && b[0..8] == Be(hs.term, 8) && b[8..16] == Be(hs.votedFor, 8)
      && b[16..20] == Be(crc(b[0..16]), 4)
  {
    var b := EncodeHardState(crc, hs);
    assert b[0..16] == Be(hs.term, 8) + Be(hs.votedFor, 8);
  }

  /** Fills the buffer the hard-state file is written from. */
  method WriteHardState(crc: Crc, hs: HardStateImage) returns (buf: array<Byte>)
    ensures fresh(buf) && buf[..] == EncodeHardState(crc, hs)
  {
    buf := new Byte[20];
    PutBe(buf, 0, hs.term, 8);
    PutBe(buf, 8, hs.votedFor, 8);
    assert buf[..16] == Be(hs.term, 8) + Be(hs.votedFor, 8);
    PutBe(buf, 16, crc(buf[..16]), 4);
    assert buf[..] == buf[..16] + buf[16..20];
  }

  /** Reads the hard state back; a missing file is a fresh node, a damaged one is refused. */
  function LoadHardState(crc: Crc, file: Option<Bytes>): Option<HardStateImage> {
    match file
    case None => Some(HardStateImage(0, 0))
    case Some(b) =>
      if |b| != 20 then None
      else if crc(b[0..16]) != FromBe(b[16..20]) then None
      else Some(HardStateImage(FromBe(b[0..8]), FromBe(b[8..16])))
  }

  /** The saved term and vote are the ones loaded after a restart. */
  lemma HardStateRoundTrip(crc: Crc, hs: HardStateImage)
    requires hs.term < U64_END && hs.votedFor < U64_END
    ensures LoadHardState(crc, Some(EncodeHardState(crc, hs))) == Some(hs)
  {
    var head := Be(hs.term, 8) + Be(hs.votedFor, 8);
    var b := EncodeHardState(crc, hs);
    Pow256Values();
    assert b[0..16] == head && b[0..8] == Be(hs.term, 8) && b[8..16] == Be(hs.votedFor, 8);
    assert b[16..20] == Be(crc(head), 4);
    BeFits(hs.term, 8);
    BeFits(hs.votedFor, 8);
    BeFits(crc(head), 4);
  }

  /** Whatever is loaded as hard state is byte for byte the file of the result. */
  lemma LoadedHardStateIsSaved(crc: Crc, b: Bytes)
    requires LoadHardState(crc, Some(b)).Some?
    ensures var hs := LoadHardState(crc, Some(b)).value;
      EncodeHardState(crc, hs) == b && hs.term < U64_END && hs.votedFor < U64_END
  {
    Pow256Values();
    BeFromBe(b[0..8]);
    BeFromBe(b[8..16]);
    BeFromBe(b[16..20]);
    FromBeBound(b[0..8]);
    FromBeBound(b[8..16]);
    assert b[0..16] == b[0..8] + b[8..16];
    assert b == b[0..16] + b[16..20];
  }
}
