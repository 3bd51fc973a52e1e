/** The record of one document version and the primary key it is stored under. */
module TaskKey {
  import opened Common
  import opened Utf8
  import opened Quote

  datatype Attempt = Attempt(begin: Instant, end: Instant, success: bool, message: string)

  datatype DocumentTask = DocumentTask(
    id: int64,
    added: Instant,
    modified: Instant,
    originalChecksum: Bytes,
    archiveChecksum: Bytes,
    recordCreated: Instant,
    recordUpdated: Instant,
    retryCount: nat,
    retryAfter: Instant,
    attempts: seq<Attempt>)

  /** What the key depends on. */
  datatype KeyFields = KeyFields(
    id: int64,
    added: int64,
    modified: int64,
    originalChecksum: Bytes,
    archiveChecksum: Bytes)

  /** Microseconds since the Unix epoch, rounded down; wraps when they do not fit. */
  function UnixMicro(t: Instant): (m: int64) {
    Wrap64(t / 1000)
  }

  function Fields(t: DocumentTask): KeyFields {
    KeyFields(t.id, UnixMicro(t.added), UnixMicro(t.modified), t.originalChecksum, t.archiveChecksum)
  }

  // ---------------------------------------------------------------- little-endian integers

  function Pow256(n: nat): (p: nat)
    ensures p > 0
  {
    if n == 0 then 1 else 256 * Pow256(n - 1)
  }

  function LittleEndian(v: nat, n: nat): (s: Bytes)
    ensures |s| == n
  {
    if n == 0 then [] else [v % 256] + LittleEndian(v / 256, n - 1)
  }

  function FromLittleEndian(s: Bytes): (v: nat) {
    if s == [] then 0 else s[0] + 256 * FromLittleEndian(s[1..])
  }

  lemma {:induction false} LittleEndianRoundTrip(v: nat, n: nat)
    requires v < Pow256(n)
    ensures FromLittleEndian(LittleEndian(v, n)) == v
  {
    if n > 0 {
      LittleEndianRoundTrip(v / 256, n - 1);
      assert LittleEndian(v, n)[1..] == LittleEndian(v / 256, n - 1);
    }
  }

  /** A signed 64-bit integer as eight bytes, two's complement. */
  function PutInt64(i: int64): (s: Bytes)
    ensures |s| == 8
  {
    LittleEndian(i % TWO_64, 8)
  }

  function GetInt64(s: Bytes): (i: int64) {
    Wrap64(FromLittleEndian(s))
  }

  lemma Int64RoundTrip(i: int64)
    ensures GetInt64(PutInt64(i)) == i
  {
    assert Pow256(2) == 0x1_0000;
    assert Pow256(4) == 0x1_0000 * Pow256(2);
    assert Pow256(6) == 0x1_0000 * Pow256(4);
    assert Pow256(8) == 0x1_0000 * Pow256(6) == TWO_64;
    LittleEndianRoundTrip(i % TWO_64, 8);
  }

  /** The eight bytes of an integer, the lowest first; a negative one counts from 2^64 down. */
  function EightBytes(i: int64): (s: Bytes)
    ensures |s| == 8
  {
    var u := if i < 0 then i + TWO_64 else i;
    [u % 0x100, u / 0x100 % 0x100, u / 0x1_0000 % 0x100, u / 0x100_0000 % 0x100,
     u / 0x1_0000_0000 % 0x100, u / 0x100_0000_0000 % 0x100, u / 0x1_0000_0000_0000 % 0x100, u / 0x100_0000_0000_0000]
  }

  lemma LittleEndianStep(v: nat, n: nat)
    requires n >= 1
    ensures LittleEndian(v, n) == [v % 0x100] + LittleEndian(v / 0x100, n - 1)
  {
  }

  lemma LittleEndianFour(v: nat, n: nat)
    requires n >= 4
    ensures LittleEndian(v, n) ==
            [v % 0x100, v / 0x100 % 0x100, v / 0x1_0000 % 0x100, v / 0x100_0000 % 0x100] + LittleEndian(v / 0x1_0000_0000, n - 4)
  {
    hide LittleEndian;
    LittleEndianStep(v, n);
    LittleEndianStep(v / 0x100, n - 1);
    LittleEndianStep(v / 0x1_0000, n - 2);
    LittleEndianStep(v / 0x100_0000, n - 3);
    assert v / 0x100 / 0x100 == v / 0x1_0000 && v / 0x1_0000 / 0x100 == v / 0x100_0000
           && v / 0x100_0000 / 0x100 == v / 0x1_0000_0000;
  }

  /** Integers are written with the lowest byte first. */
  lemma PutInt64Bytes(i: int64)
    ensures PutInt64(i) == EightBytes(i)
  {
    hide LittleEndian;
    var u := if i < 0 then i + TWO_64 else i;
    assert i % TWO_64 == u;
    var w := u / 0x1_0000_0000;
    LittleEndianFour(u, 8);
    LittleEndianFour(w, 4);
    assert LittleEndian(w / 0x1_0000_0000, 0) == [];
    assert w / 0x100 == u / 0x100_0000_0000 && w / 0x1_0000 == u / 0x1_0000_0000_0000 && w / 0x100_0000 == u / 0x100_0000_0000_0000;
    assert 0 <= u / 0x100_0000_0000_0000 < 0x100;
  }

  // ---------------------------------------------------------------- the key

  function QuoteAll(texts: seq<Bytes>): (s: Bytes) {
    if texts == [] then [] else QuoteAll(texts[..|texts| - 1]) + QuoteToASCII(texts[|texts| - 1])
  }

  lemma QuoteAllAppend(texts: seq<Bytes>, text: Bytes)
    ensures QuoteAll(texts + [text]) == QuoteAll(texts) + QuoteToASCII(text)
  {
    assert (texts + [text])[..|texts|] == texts;
  }

  function Encode(f: KeyFields): (key: Bytes) {
    PutInt64(f.id) + PutInt64(f.added) + PutInt64(f.modified) + [0]
    + QuoteAll([f.originalChecksum, f.archiveChecksum])
  }

  lemma QuoteAllTwo(a: Bytes, b: Bytes)
    ensures QuoteAll([a, b]) == QuoteToASCII(a) + QuoteToASCII(b)
  {
    assert [a, b][..1] == [a];
    assert QuoteAll([a]) == QuoteToASCII(a);
  }

  function KeyOf(t: DocumentTask): (key: Bytes) {
    Encode(Fields(t))
  }

  predicate InMicroRange(t: Instant) {
    INT64_MIN * 1000 <= t < (INT64_MAX + 1) * 1000
  }

  predicate PlainText(s: Bytes) {
    forall b | b in s :: Plain(b)
  }

  /** The key, byte by byte, of a record whose times are in range and whose checksums hold nothing
      but printable ASCII without quote and backslash. */
  predicate PlainKey(t: DocumentTask, key: Bytes) {
    InMicroRange(t.added) && InMicroRange(t.modified) && PlainText(t.originalChecksum) && PlainText(t.archiveChecksum) ==>
      key == EightBytes(t.id) + EightBytes(t.added / 1000) + EightBytes(t.modified / 1000)
             + [0, 0x22] + t.originalChecksum + [0x22, 0x22] + t.archiveChecksum + [0x22]
  }

  lemma KeyIsPlain(t: DocumentTask)
    ensures PlainKey(t, KeyOf(t))
  {
    hide PutInt64, EightBytes, QuoteToASCII, QuoteAll, Plain;
    QuoteAllTwo(t.originalChecksum, t.archiveChecksum);
    PutInt64Bytes(t.id);
    PutInt64Bytes(UnixMicro(t.added));
    PutInt64Bytes(UnixMicro(t.modified));
    if PlainText(t.originalChecksum) && PlainText(t.archiveChecksum) {
      PlainQuoted(t.originalChecksum);
      PlainQuoted(t.archiveChecksum);
    }
  }

  /** Every key is 24 bytes of integers, a zero, and printable ASCII. */
  lemma KeyIsAsciiBehindHeader(t: DocumentTask)
    ensures var key := KeyOf(t);
            && |key| >= 29 && key[..24] == EightBytes(t.id) + EightBytes(UnixMicro(t.added)) + EightBytes(UnixMicro(t.modified))
            && key[24] == 0 && AllAscii(key[25..])
            && key[25..] == QuoteToASCII(t.originalChecksum) + QuoteToASCII(t.archiveChecksum)
  {
    hide PutInt64, EightBytes, QuoteBody, QuoteAll;
    QuoteAllTwo(t.originalChecksum, t.archiveChecksum);
    PutInt64Bytes(t.id);
    PutInt64Bytes(UnixMicro(t.added));
    PutInt64Bytes(UnixMicro(t.modified));
    QuotedIsAscii(t.originalChecksum);
    QuotedIsAscii(t.archiveChecksum);
    var header := PutInt64(t.id) + PutInt64(UnixMicro(t.added)) + PutInt64(UnixMicro(t.modified));
    var quoted := QuoteToASCII(t.originalChecksum) + QuoteToASCII(t.archiveChecksum);
    assert KeyOf(t) == header + ([0] + quoted);
    assert KeyOf(t)[25..] == quoted;
  }

  /** Produces the key by appending to a buffer, as the program does. */
  method Key(t: DocumentTask) returns (key: Bytes)
    ensures key == KeyOf(t)
    ensures PlainKey(t, key)
  {
    hide PutInt64, UnixMicro, QuoteToASCII, PlainKey;
    KeyIsPlain(t);
    var buf: Bytes := PutInt64(t.id) + PutInt64(UnixMicro(t.added)) + PutInt64(UnixMicro(t.modified));
    buf := buf + [0];
    ghost var header := buf;

    var checksums := [t.originalChecksum, t.archiveChecksum];
    for i := 0 to |checksums|
      invariant buf == header + QuoteAll(checksums[..i])
    {
      buf := buf + QuoteToASCII(checksums[i]);
      QuoteAllAppend(checksums[..i], checksums[i]);
      assert checksums[..i + 1] == checksums[..i] + [checksums[i]];
    }
    assert checksums[..2] == checksums;
    key := buf;
  }

  /** Reads a key back; None for bytes that are no key. */
  function Decode(key: Bytes): Option<KeyFields> {
    if |key| < 25 || key[24] != 0 then None
    else
      match Unquote(key[25..])
      case None => None
      case Some(first) =>
        match Unquote(first.rest)
        case None => None
        case Some(second) =>
          if second.rest != [] then None
          else Some(KeyFields(GetInt64(key[..8]), GetInt64(key[8..16]), GetInt64(key[16..24]),
                              first.text, second.text))
  }

  lemma DecodeInvertsKey(f: KeyFields)
    ensures Decode(Encode(f)) == Some(f)
  {
    hide PutInt64, GetInt64, QuoteToASCII, Unquote;
    var i, a, m := PutInt64(f.id), PutInt64(f.added), PutInt64(f.modified);
    var q1, q2 := QuoteToASCII(f.originalChecksum), QuoteToASCII(f.archiveChecksum);
    QuoteAllTwo(f.originalChecksum, f.archiveChecksum);
    var key := i + a + m + [0] + (q1 + q2);
    assert key[25..] == q1 + q2 && key[24] == 0;
    assert key[..8] == i && key[8..16] == a && key[16..24] == m;
    Int64RoundTrip(f.id);
    Int64RoundTrip(f.added);
    Int64RoundTrip(f.modified);
    QuoteRoundTrip(f.originalChecksum, q2);
    QuoteRoundTrip(f.archiveChecksum, []);
    assert q2 + [] == q2;
  }

  /** Two records share a key exactly when they describe the same document version. */
  lemma KeyInjective(s: DocumentTask, t: DocumentTask)
    ensures KeyOf(s) == KeyOf(t) <==>
            s.id == t.id && UnixMicro(s.added) == UnixMicro(t.added)
            && UnixMicro(s.modified) == UnixMicro(t.modified)
            && s.originalChecksum == t.originalChecksum && s.archiveChecksum == t.archiveChecksum
  {
    DecodeInvertsKey(Fields(s));
    DecodeInvertsKey(Fields(t));
  }

  /** Two modification times give different keys once they differ by a microsecond, as long as
      both are within the range of a signed 64-bit count of microseconds. */
  lemma MicrosecondsTellApart(s: Instant, t: Instant)
    requires INT64_MIN * 1000 <= s && s + 1000 <= t && t < (INT64_MAX + 1) * 1000
    ensures UnixMicro(s) < UnixMicro(t)
  {
  }
}
