/** inspectZipArchive of services/document/src/upload-security.ts: a scan for the central
    directory records of a ZIP file, laid out as in section 4.3.12 of the PKWARE APPNOTE. */
module Zip {
  import opened Prelude
  import opened Collections

  type Byte = n: int | 0 <= n < 256
  type Bytes = seq<Byte>

  datatype Error = Malformed | Zip64Rejected

  const SIGNATURE: Bytes := [0x50, 0x4b, 0x01, 0x02]
  const END_OF_CENTRAL_DIRECTORY := 0x06054b50
  const ZIP64_MARK := 0xffffffff
  const HEADER_LENGTH := 46

  /** The fields the scan reads, and the others as they stand: `versions` are the 16 bytes
      from "version made by" to the checksum, `placement` the 12 from the disk number to
      the offset of the local header. */
  datatype Record = Record(
    versions: Bytes, compressed: nat, uncompressed: nat, placement: Bytes,
    name: Bytes, extra: Bytes, comment: Bytes)

  predicate Valid(r: Record) {
    && |r.versions| == 16 && |r.placement| == 12
    && r.compressed < ZIP64_MARK && r.uncompressed < ZIP64_MARK
    && |r.name| < 0x10000 && |r.extra| < 0x10000 && |r.comment| < 0x10000
  }

  /** A byte skipped by the scan, or a central directory record. */
  datatype Piece = Skip(byte: Byte) | Entry(record: Record)

  datatype ZipInspection = ZipInspection(
    entries: nat, totalCompressedBytes: nat, totalUncompressedBytes: nat, maxEntryExpansionRatio: real)

  // ---- Little-endian numbers ----

  function U16(b: Bytes, at: nat): (n: nat)
    requires at + 2 <= |b|
    ensures n < 0x10000
  {
    b[at] as int + 0x100 * b[at + 1] as int
  }

  function U32(b: Bytes, at: nat): (n: nat)
    requires at + 4 <= |b|
    ensures n < 0x1_0000_0000
  {
    U16(b, at) + 0x1_0000 * U16(b, at + 2)
  }

  function Le16(n: nat): (b: Bytes)
    requires n < 0x10000
    ensures |b| == 2 && U16(b, 0) == n
  {
    [n % 0x100, n / 0x100]
  }

  function Le32(n: nat): (b: Bytes)
    requires n < 0x1_0000_0000
    ensures |b| == 4 && U32(b, 0) == n
  {
    var low, high := Le16(n % 0x1_0000), Le16(n / 0x1_0000);
    assert U16(low + high, 0) == U16(low, 0) && U16(low + high, 2) == U16(high, 0);
    low + high
  }

  lemma U16Injective(a: Bytes, b: Bytes)
    requires |a| == |b| == 2 && U16(a, 0) == U16(b, 0)
    ensures a == b
  {
    assert a[0] == b[0] && a[1] == b[1];
  }

  lemma U32Injective(a: Bytes, b: Bytes)
    requires |a| == |b| == 4 && U32(a, 0) == U32(b, 0)
    ensures a == b
  {
    assert U16(a, 0) == U16(b, 0) && U16(a, 2) == U16(b, 2);
    assert a[0] == b[0] && a[1] == b[1];
    assert a[2] == b[2] && a[3] == b[3];
  }

  // ---- Print ----

  function Header(r: Record): (b: Bytes)
    requires Valid(r)
    ensures |b| == HEADER_LENGTH
  {
    SIGNATURE + r.versions + Le32(r.compressed) + Le32(r.uncompressed)
    + Le16(|r.name|) + Le16(|r.extra|) + Le16(|r.comment|) + r.placement
  }

  function Encode(r: Record): Bytes
    requires Valid(r)
  {
    Header(r) + r.name + r.extra + r.comment
  }

  predicate ValidAll(rs: seq<Record>) {
    rs == [] || (Valid(rs[0]) && ValidAll(rs[1..]))
  }

  function EncodeAll(rs: seq<Record>): Bytes
    requires ValidAll(rs)
  {
    if rs == [] then [] else Encode(rs[0]) + EncodeAll(rs[1..])
  }

  predicate AllValid(ps: seq<Piece>) {
    forall i :: 0 <= i < |ps| && ps[i].Entry? ==> Valid(ps[i].record)
  }

  function Print(ps: seq<Piece>): Bytes
    requires AllValid(ps)
  {
    if ps == [] then []
    else (if ps[0].Skip? then [ps[0].byte] else Encode(ps[0].record)) + Print(ps[1..])
  }

  // ---- Parse ----

  predicate StartsRecord(b: Bytes) {
    |b| >= 4 && U32(b, 0) == 0x02014b50
  }

  function RecordLength(b: Bytes): nat
    requires |b| >= HEADER_LENGTH
  {
    HEADER_LENGTH + U16(b, 28) + U16(b, 30) + U16(b, 32)
  }

  function RecordOf(b: Bytes): Record
    requires |b| >= HEADER_LENGTH && |b| >= RecordLength(b)
  {
    var n, x := HEADER_LENGTH + U16(b, 28), HEADER_LENGTH + U16(b, 28) + U16(b, 30);
    Record(b[4..20], U32(b, 20), U32(b, 24), b[34..46], b[46..n], b[n..x], b[x..RecordLength(b)])
  }

  predicate Accepted(b: Bytes) {
    && |b| >= HEADER_LENGTH
    && U32(b, 20) != ZIP64_MARK && U32(b, 24) != ZIP64_MARK
    && |b| >= RecordLength(b)
  }

  function Refusal(b: Bytes): Error
    requires StartsRecord(b) && !Accepted(b)
  {
    if |b| >= HEADER_LENGTH && (U32(b, 20) == ZIP64_MARK || U32(b, 24) == ZIP64_MARK) then Zip64Rejected
    else Malformed
  }

  function Prepend(p: Piece, r: Result<seq<Piece>, Error>): Result<seq<Piece>, Error> {
    match r case Ok(ps) => Ok([p] + ps) case Err(e) => Err(e)
  }

  function Parse(b: Bytes): Result<seq<Piece>, Error>
    decreases |b|
  {
    if b == [] then Ok([])
    else if !StartsRecord(b) then Prepend(Skip(b[0]), Parse(b[1..]))
    else if !Accepted(b) then Err(Refusal(b))
    else Prepend(Entry(RecordOf(b)), Parse(b[RecordLength(b)..]))
  }

  function Ratio(r: Record): real {
    r.uncompressed as real / Max(1, r.compressed) as real
  }

  const NOTHING := ZipInspection(0, 0, 0, 0.0)

  function Add(z: ZipInspection, p: Piece): ZipInspection {
    match p
    case Skip(_) => z
    case Entry(r) =>
      ZipInspection(z.entries + 1, z.totalCompressedBytes + r.compressed, z.totalUncompressedBytes + r.uncompressed,
                    if z.maxEntryExpansionRatio < Ratio(r) then Ratio(r) else z.maxEntryExpansionRatio)
  }

  function Totals(ps: seq<Piece>): ZipInspection {
    if ps == [] then NOTHING else Add(Totals(ps[..|ps| - 1]), ps[|ps| - 1])
  }

  predicate IsEmptyArchive(b: Bytes) {
    |b| >= 22 && U32(b, |b| - 22) == END_OF_CENTRAL_DIRECTORY
  }

  function Inspect(b: Bytes): Result<ZipInspection, Error> {
    match Parse(b)
    case Err(e) => Err(e)
    case Ok(ps) =>
      if Totals(ps).entries == 0 && !IsEmptyArchive(b) then Err(Malformed) else Ok(Totals(ps))
  }

  /** The loop of the source: it stops on every array and reads only inside it. */
  method InspectZipArchive(bytes: Bytes) returns (r: Result<ZipInspection, Error>)
    ensures r == Inspect(bytes)
  {
    hide Parse, Totals, U32, RecordOf;
    var entries, totalCompressed, totalUncompressed, maxRatio := 0, 0, 0, 0.0;
    var sawCentral := false;
    var offset := 0;
    ghost var seen: seq<Piece> := [];
    NothingSeen(bytes);
    while offset + 4 <= |bytes|
      invariant 0 <= offset <= |bytes| && Reached(bytes, offset, seen)
      invariant ZipInspection(entries, totalCompressed, totalUncompressed, maxRatio) == Totals(seen)
      invariant sawCentral <==> entries > 0
    {
      SignatureHere(bytes, offset);
      if U32(bytes, offset) == 0x02014b50 {
        sawCentral := true;
        var sizes := ReadRecord(bytes, offset, seen);
        if sizes.Err? { return Err(sizes.error); }
        var Sizes(compressed, uncompressed, recordLength) := sizes.value;
        seen := seen + [Entry(RecordOf(bytes[offset..]))];
        entries := entries + 1;
        totalCompressed, totalUncompressed := totalCompressed + compressed, totalUncompressed + uncompressed;
        var ratio := uncompressed as real / Max(1, compressed) as real;
        maxRatio := if maxRatio < ratio then ratio else maxRatio;
        offset := offset + recordLength;
      } else {
        SkippedHere(bytes, offset, seen);
        seen := seen + [Skip(bytes[offset])];
        offset := offset + 1;
      }
    }
    EndReached(bytes, offset, seen);
    if !sawCentral {
      var isEmptyZip := |bytes| >= 22 && U32(bytes, |bytes| - 22) == END_OF_CENTRAL_DIRECTORY;
      if !isEmptyZip { return Err(Malformed); }
    }
    return Ok(ZipInspection(entries, totalCompressed, totalUncompressed, maxRatio));
  }

  datatype Sizes = Sizes(compressed: nat, uncompressed: nat, recordLength: nat)

  /** Reads the sizes in the record at `offset`, or refuses it. */
  method ReadRecord(bytes: Bytes, offset: nat, ghost seen: seq<Piece>) returns (r: Result<Sizes, Error>)
    requires offset + 4 <= |bytes| && Reached(bytes, offset, seen) && StartsRecord(bytes[offset..])
    ensures r.Err? ==> Inspect(bytes) == Err(r.error)
    ensures r.Ok? ==> Accepted(bytes[offset..]) && 46 <= r.value.recordLength <= |bytes| - offset
    ensures r.Ok? ==>
      var entry := Entry(RecordOf(bytes[offset..])); var z := Totals(seen);
      var ratio := r.value.uncompressed as real / Max(1, r.value.compressed) as real;
      && Reached(bytes, offset + r.value.recordLength, seen + [entry])
      && Totals(seen + [entry])
         == ZipInspection(z.entries + 1, z.totalCompressedBytes + r.value.compressed,
                          z.totalUncompressedBytes + r.value.uncompressed,
                          if z.maxEntryExpansionRatio < ratio then ratio else z.maxEntryExpansionRatio)
  {
    hide Reached, Inspect, Totals, RecordOf;
    RefusedHere(bytes, offset, seen);
    if offset + 46 > |bytes| { return Err(Malformed); }
    var compressed, uncompressed := U32(bytes, offset + 20), U32(bytes, offset + 24);
    if compressed == ZIP64_MARK || uncompressed == ZIP64_MARK { return Err(Zip64Rejected); }
    var recordLength := 46 + U16(bytes, offset + 28) + U16(bytes, offset + 30) + U16(bytes, offset + 32);
    if offset + recordLength > |bytes| { return Err(Malformed); }
    RecordHere(bytes, offset, seen);
    return Ok(Sizes(compressed, uncompressed, recordLength));
  }

  /** The scan has got to `offset` with the pieces `seen` behind it. */
  ghost predicate Reached(bytes: Bytes, offset: nat, seen: seq<Piece>)
    requires offset <= |bytes|
  {
    Parse(bytes) == After(seen, Parse(bytes[offset..]))
  }

  lemma NothingSeen(bytes: Bytes)
    ensures Reached(bytes, 0, []) && Totals([]) == NOTHING
  {
    assert bytes[0..] == bytes;
    if Parse(bytes).Ok? { assert [] + Parse(bytes).value == Parse(bytes).value; }
  }

  lemma EndReached(bytes: Bytes, offset: nat, seen: seq<Piece>)
    requires offset <= |bytes| < offset + 4 && Reached(bytes, offset, seen)
    ensures Inspect(bytes)
            == if Totals(seen).entries == 0 && !IsEmptyArchive(bytes) then Err(Malformed) else Ok(Totals(seen))
  {
    TrailingBytes(seen, bytes[offset..]);
  }

  lemma SignatureHere(bytes: Bytes, offset: nat)
    requires offset + 4 <= |bytes|
    ensures StartsRecord(bytes[offset..]) <==> U32(bytes, offset) == 0x02014b50
  {
  }

  function LengthAt(bytes: Bytes, offset: nat): nat
    requires offset + 46 <= |bytes|
  {
    46 + U16(bytes, offset + 28) + U16(bytes, offset + 30) + U16(bytes, offset + 32)
  }

  lemma FieldsHere(bytes: Bytes, offset: nat)
    requires offset + 46 <= |bytes|
    ensures U32(bytes[offset..], 20) == U32(bytes, offset + 20) && U32(bytes[offset..], 24) == U32(bytes, offset + 24)
    ensures RecordLength(bytes[offset..]) == LengthAt(bytes, offset)
  {
  }

  lemma RefusedHere(bytes: Bytes, offset: nat, seen: seq<Piece>)
    requires offset <= |bytes| && Reached(bytes, offset, seen) && StartsRecord(bytes[offset..])
    ensures offset + 46 > |bytes| ==> Inspect(bytes) == Err(Malformed)
    ensures offset + 46 <= |bytes| && (U32(bytes, offset + 20) == ZIP64_MARK || U32(bytes, offset + 24) == ZIP64_MARK)
            ==> Inspect(bytes) == Err(Zip64Rejected)
    ensures (offset + 46 <= |bytes| && U32(bytes, offset + 20) != ZIP64_MARK && U32(bytes, offset + 24) != ZIP64_MARK
             && offset + LengthAt(bytes, offset) > |bytes|) ==> Inspect(bytes) == Err(Malformed)
  {
    if offset + 46 <= |bytes| { FieldsHere(bytes, offset); }
    if !Accepted(bytes[offset..]) { assert Inspect(bytes) == Err(Refusal(bytes[offset..])); }
  }

  lemma RecordHere(bytes: Bytes, offset: nat, seen: seq<Piece>)
    requires offset + 46 <= |bytes| && Reached(bytes, offset, seen) && StartsRecord(bytes[offset..])
    requires U32(bytes, offset + 20) != ZIP64_MARK && U32(bytes, offset + 24) != ZIP64_MARK
    requires offset + LengthAt(bytes, offset) <= |bytes|
    ensures Accepted(bytes[offset..])
    ensures var entry := Entry(RecordOf(bytes[offset..])); var z := Totals(seen);
      var ratio := U32(bytes, offset + 24) as real / Max(1, U32(bytes, offset + 20)) as real;
      && Reached(bytes, offset + LengthAt(bytes, offset), seen + [entry])
      && Totals(seen + [entry])
         == ZipInspection(z.entries + 1, z.totalCompressedBytes + U32(bytes, offset + 20),
                          z.totalUncompressedBytes + U32(bytes, offset + 24),
                          if z.maxEntryExpansionRatio < ratio then ratio else z.maxEntryExpansionRatio)
  {
    FieldsHere(bytes, offset);
    var here := bytes[offset..];
    var n := RecordLength(here);
    assert here[n..] == bytes[offset + n..];
    AfterPrepend(seen, Entry(RecordOf(here)), Parse(here[n..]));
  }

  lemma SkippedHere(bytes: Bytes, offset: nat, seen: seq<Piece>)
    requires offset < |bytes| && Reached(bytes, offset, seen) && !StartsRecord(bytes[offset..])
    ensures Reached(bytes, offset + 1, seen + [Skip(bytes[offset])])
    ensures Totals(seen + [Skip(bytes[offset])]) == Totals(seen)
  {
    var here := bytes[offset..];
    assert here[1..] == bytes[offset + 1..];
    AfterPrepend(seen, Skip(here[0]), Parse(here[1..]));
  }

  ghost function After(seen: seq<Piece>, r: Result<seq<Piece>, Error>): Result<seq<Piece>, Error> {
    match r case Ok(ps) => Ok(seen + ps) case Err(e) => Err(e)
  }

  lemma AfterPrepend(seen: seq<Piece>, p: Piece, r: Result<seq<Piece>, Error>)
    ensures After(seen, Prepend(p, r)) == After(seen + [p], r)
    ensures Totals(seen + [p]) == Add(Totals(seen), p)
  {
    assert (seen + [p])[..|seen|] == seen;
    if r.Ok? { assert seen + ([p] + r.value) == seen + [p] + r.value; }
  }

  lemma {:induction false} TrailingBytes(seen: seq<Piece>, b: Bytes)
    requires |b| < 4
    ensures After(seen, Parse(b)).Ok? && Totals(After(seen, Parse(b)).value) == Totals(seen)
    decreases |b|
  {
    if b == [] {
      assert seen + [] == seen;
    } else {
      AfterPrepend(seen, Skip(b[0]), Parse(b[1..]));
      TrailingBytes(seen + [Skip(b[0])], b[1..]);
    }
  }

  // ---- What was parsed prints back ----

  lemma SignatureIs(b: Bytes)
    requires |b| >= 4
    ensures StartsRecord(b) <==> b[..4] == SIGNATURE
  {
    assert U32(b, 0) == U32(b[..4], 0) && U32(SIGNATURE, 0) == 0x02014b50;
    if StartsRecord(b) { U32Injective(b[..4], SIGNATURE); }
  }

  lemma NumbersPrintBack(b: Bytes)
    requires |b| >= HEADER_LENGTH
    ensures Le32(U32(b, 20)) == b[20..24] && Le32(U32(b, 24)) == b[24..28]
    ensures Le16(U16(b, 28)) == b[28..30] && Le16(U16(b, 30)) == b[30..32] && Le16(U16(b, 32)) == b[32..34]
  {
    U32Injective(Le32(U32(b, 20)), b[20..24]);
    U32Injective(Le32(U32(b, 24)), b[24..28]);
    U16Injective(Le16(U16(b, 28)), b[28..30]);
    U16Injective(Le16(U16(b, 30)), b[30..32]);
    U16Injective(Le16(U16(b, 32)), b[32..34]);
  }

  lemma Fields(b: Bytes)
    requires |b| >= HEADER_LENGTH
    ensures b[..46] == b[..4] + b[4..20] + b[20..24] + b[24..28] + b[28..30] + b[30..32] + b[32..34] + b[34..46]
  {
  }

  lemma HeaderOf(b: Bytes)
    requires StartsRecord(b) && Accepted(b)
    ensures Valid(RecordOf(b)) && Header(RecordOf(b)) == b[..46]
  {
    SignatureIs(b);
    NumbersPrintBack(b);
    Fields(b);
  }

  lemma RecordPrintsBack(b: Bytes)
    requires StartsRecord(b) && Accepted(b)
    ensures Valid(RecordOf(b)) && Encode(RecordOf(b)) == b[..RecordLength(b)]
  {
    var r := RecordOf(b);
    HeaderOf(b);
    var n, x := 46 + |r.name|, 46 + |r.name| + |r.extra|;
    assert b[..RecordLength(b)] == b[..46] + b[46..n] + b[n..x] + b[x..RecordLength(b)];
  }

  lemma PrintFirst(p: Piece, ps: seq<Piece>)
    requires AllValid(ps) && (p.Entry? ==> Valid(p.record))
    ensures AllValid([p] + ps)
    ensures Print([p] + ps) == (if p.Skip? then [p.byte] else Encode(p.record)) + Print(ps)
  {
    assert ([p] + ps)[1..] == ps;
  }

  /** Every array the scan gets through is exactly the bytes it skipped and the records it
      counted, in order. */
  lemma {:induction false} ParsedPrintsBack(b: Bytes)
    requires Parse(b).Ok?
    ensures AllValid(Parse(b).value) && Print(Parse(b).value) == b
    decreases |b|
  {
    if b != [] {
      if !StartsRecord(b) {
        ParsedPrintsBack(b[1..]);
        PrintFirst(Skip(b[0]), Parse(b[1..]).value);
        assert b == [b[0]] + b[1..];
      } else {
        var n := RecordLength(b);
        RecordPrintsBack(b);
        ParsedPrintsBack(b[n..]);
        PrintFirst(Entry(RecordOf(b)), Parse(b[n..]).value);
        assert b == b[..n] + b[n..];
      }
    }
  }

  // ---- What was printed parses back ----

  lemma HeaderFields(r: Record)
    requires Valid(r)
    ensures var h := Header(r);
      && h[..4] == SIGNATURE && h[4..20] == r.versions && h[34..46] == r.placement
      && h[20..24] == Le32(r.compressed) && h[24..28] == Le32(r.uncompressed)
      && h[28..30] == Le16(|r.name|) && h[30..32] == Le16(|r.extra|) && h[32..34] == Le16(|r.comment|)
  {
  }

  lemma HeaderNumbers(r: Record)
    requires Valid(r)
    ensures var h := Header(r);
      && StartsRecord(h)
      && U32(h, 20) == r.compressed && U32(h, 24) == r.uncompressed
      && U16(h, 28) == |r.name| && U16(h, 30) == |r.extra| && U16(h, 32) == |r.comment|
  {
    var h := Header(r);
    HeaderFields(r);
    SignatureIs(h);
    assert U32(h, 20) == U32(h[20..24], 0) && U32(h, 24) == U32(h[24..28], 0);
    assert U16(h, 28) == U16(h[28..30], 0) && U16(h, 30) == U16(h[30..32], 0) && U16(h, 32) == U16(h[32..34], 0);
  }

  lemma EncodedAt(r: Record, rest: Bytes)
    requires Valid(r)
    ensures var b := Encode(r) + rest;
      StartsRecord(b) && Accepted(b) && RecordOf(b) == r && b[RecordLength(b)..] == rest
  {
    var h, b := Header(r), Encode(r) + rest;
    HeaderFields(r);
    HeaderNumbers(r);
    assert b[..46] == h;
    assert b[4..20] == h[4..20] && b[34..46] == h[34..46];
    var n, x, l := 46 + |r.name|, 46 + |r.name| + |r.extra|, |Encode(r)|;
    assert b[46..n] == r.name && b[n..x] == r.extra && b[x..l] == r.comment && b[l..] == rest;
  }

  function Skips(b: Bytes): seq<Piece> {
    seq(|b|, i requires 0 <= i < |b| => Skip(b[i]))
  }

  function Entries(rs: seq<Record>): seq<Piece> {
    seq(|rs|, i requires 0 <= i < |rs| => Entry(rs[i]))
  }

  ghost predicate SignatureAt(b: Bytes, i: nat) {
    i + 4 <= |b| && b[i..i + 4] == SIGNATURE
  }

  ghost predicate FreeOfSignature(b: Bytes) {
    forall i: nat :: !SignatureAt(b, i)
  }

  lemma FreeTail(b: Bytes)
    requires FreeOfSignature(b) && b != []
    ensures FreeOfSignature(b[1..]) && !StartsRecord(b)
  {
    forall i: nat ensures !SignatureAt(b[1..], i) {
      if i + 4 <= |b[1..]| { assert b[1..][i..i + 4] == b[i + 1..i + 5]; }
      assert !SignatureAt(b, i + 1);
    }
    if |b| >= 4 {
      SignatureIs(b);
      assert b[0..4] == b[..4] && !SignatureAt(b, 0);
    }
  }

  lemma {:induction false} SuffixParses(b: Bytes)
    requires FreeOfSignature(b)
    ensures Parse(b) == Ok(Skips(b))
    decreases |b|
  {
    if b != [] {
      FreeTail(b);
      SuffixParses(b[1..]);
      assert [Skip(b[0])] + Skips(b[1..]) == Skips(b);
    }
  }

  lemma RecordParses(r: Record, rest: Bytes, ps: seq<Piece>)
    requires Valid(r) && Parse(rest) == Ok(ps)
    ensures Parse(Encode(r) + rest) == Ok([Entry(r)] + ps)
  {
    EncodedAt(r, rest);
  }

  lemma FirstRecord(rs: seq<Record>, suffix: Bytes)
    requires rs != [] && ValidAll(rs)
    ensures EncodeAll(rs) + suffix == Encode(rs[0]) + (EncodeAll(rs[1..]) + suffix)
  {
    var first, others := Encode(rs[0]), EncodeAll(rs[1..]);
    assert EncodeAll(rs) + suffix == (first + others) + suffix;
    Regroup(first, others, suffix);
  }

  lemma FirstEntry(rs: seq<Record>, suffix: Bytes)
    requires rs != []
    ensures Entries(rs) + Skips(suffix) == [Entry(rs[0])] + (Entries(rs[1..]) + Skips(suffix))
  {
    assert Entries(rs) == [Entry(rs[0])] + Entries(rs[1..]);
    Regroup([Entry(rs[0])], Entries(rs[1..]), Skips(suffix));
  }

  lemma {:induction false} RecordsParse(rs: seq<Record>, suffix: Bytes)
    requires ValidAll(rs)
    requires FreeOfSignature(suffix)
    ensures Parse(EncodeAll(rs) + suffix) == Ok(Entries(rs) + Skips(suffix))
  {
    if rs == [] {
      SuffixParses(suffix);
      assert EncodeAll(rs) + suffix == suffix && Entries(rs) + Skips(suffix) == Skips(suffix);
    } else {
      RecordsParse(rs[1..], suffix);
      RecordParses(rs[0], EncodeAll(rs[1..]) + suffix, Entries(rs[1..]) + Skips(suffix));
      FirstRecord(rs, suffix);
      FirstEntry(rs, suffix);
    }
  }

  /** No occurrence of the signature straddles the start of a record: no proper end of the
      signature is a beginning of it. */
  lemma NoStraddle(prefix: Bytes, b: Bytes)
    requires prefix != [] && FreeOfSignature(prefix) && |b| >= 4 && b[..4] == SIGNATURE
    ensures !StartsRecord(prefix + b)
  {
    var w := prefix + b;
    SignatureIs(w);
    if |prefix| >= 4 {
      assert w[..4] == prefix[0..4] && !SignatureAt(prefix, 0);
    } else {
      assert w[|prefix|] == b[..4][0] == 0x50;
      assert w[..4][|prefix|] == 0x50;
    }
  }

  lemma FirstSkip(prefix: Bytes, ps: seq<Piece>)
    requires prefix != []
    ensures Skips(prefix) + ps == [Skip(prefix[0])] + (Skips(prefix[1..]) + ps)
  {
    assert Skips(prefix) == [Skip(prefix[0])] + Skips(prefix[1..]);
    Regroup([Skip(prefix[0])], Skips(prefix[1..]), ps);
  }

  lemma {:induction false} PrefixParses(prefix: Bytes, b: Bytes, ps: seq<Piece>)
    requires FreeOfSignature(prefix) && |b| >= 4 && b[..4] == SIGNATURE && Parse(b) == Ok(ps)
    ensures Parse(prefix + b) == Ok(Skips(prefix) + ps)
    decreases |prefix|
  {
    if prefix == [] {
      assert prefix + b == b && Skips(prefix) + ps == ps;
    } else {
      hide *;
      FreeTail(prefix);
      PrefixParses(prefix[1..], b, ps);
      NoStraddle(prefix, b);
      TailOf(prefix, b);
      SkipsFirst(prefix + b, Skips(prefix[1..]) + ps);
      FirstSkip(prefix, ps);
    }
  }

  lemma TailOf(prefix: Bytes, b: Bytes)
    requires prefix != []
    ensures (prefix + b)[1..] == prefix[1..] + b && (prefix + b)[0] == prefix[0]
  {
  }

  lemma SkipsFirst(b: Bytes, rest: seq<Piece>)
    requires b != [] && !StartsRecord(b) && Parse(b[1..]) == Ok(rest)
    ensures Parse(b) == Ok([Skip(b[0])] + rest)
  {
    hide StartsRecord;
  }

  function SumCompressed(rs: seq<Record>): nat {
    if rs == [] then 0 else SumCompressed(rs[..|rs| - 1]) + rs[|rs| - 1].compressed
  }

  function SumUncompressed(rs: seq<Record>): nat {
    if rs == [] then 0 else SumUncompressed(rs[..|rs| - 1]) + rs[|rs| - 1].uncompressed
  }

  /** The records among the pieces, in order. */
  function RecordsIn(ps: seq<Piece>): seq<Record> {
    if ps == [] then []
    else match ps[|ps| - 1]
      case Skip(_) => RecordsIn(ps[..|ps| - 1])
      case Entry(r) => RecordsIn(ps[..|ps| - 1]) + [r]
  }

  /** The totals of any pieces are the number of their records, the two sums, and a bound of
      every record's ratio that is kept below a limit exactly when each of them is. */
  lemma {:induction false} TotalsOfRecords(ps: seq<Piece>, limit: real)
    ensures var z, rs := Totals(ps), RecordsIn(ps);
      && z.entries == |rs|
      && z.totalCompressedBytes == SumCompressed(rs) && z.totalUncompressedBytes == SumUncompressed(rs)
      && (z.maxEntryExpansionRatio <= limit
          <==> 0.0 <= limit && forall i :: 0 <= i < |rs| ==> Ratio(rs[i]) <= limit)
  {
    if ps != [] {
      var before := ps[..|ps| - 1];
      TotalsOfRecords(before, limit);
      if ps[|ps| - 1].Entry? {
        var rs, r := RecordsIn(before), ps[|ps| - 1].record;
        assert (rs + [r])[..|rs|] == rs;
        hide Ratio;
        assert RecordsIn(ps)[|rs|] == r && forall i | 0 <= i < |rs| :: RecordsIn(ps)[i] == rs[i];
      }
    }
  }

  lemma {:induction false} SkipsAddNothing(ps: seq<Piece>, b: Bytes)
    ensures Totals(ps + Skips(b)) == Totals(ps)
  {
    if b == [] {
      assert ps + Skips(b) == ps;
    } else {
      var all := ps + Skips(b);
      assert all[..|all| - 1] == ps + Skips(b[..|b| - 1]);
      SkipsAddNothing(ps, b[..|b| - 1]);
    }
  }

  /** The totals are those of the records, whatever bytes come before them. */
  lemma {:induction false} TotalsOfEntries(prefix: Bytes, rs: seq<Record>)
    ensures var z := Totals(Skips(prefix) + Entries(rs));
      && z.entries == |rs|
      && z.totalCompressedBytes == SumCompressed(rs)
      && z.totalUncompressedBytes == SumUncompressed(rs)
      && (forall i :: 0 <= i < |rs| ==> Ratio(rs[i]) <= z.maxEntryExpansionRatio)
      && (if rs == [] then z.maxEntryExpansionRatio == 0.0
          else exists i :: 0 <= i < |rs| && Ratio(rs[i]) == z.maxEntryExpansionRatio)
  {
    if rs == [] {
      SkipsAddNothing([], prefix);
      assert Skips(prefix) + Entries(rs) == [] + Skips(prefix);
    } else {
      var before, r := rs[..|rs| - 1], rs[|rs| - 1];
      var all := Skips(prefix) + Entries(rs);
      assert all[..|all| - 1] == Skips(prefix) + Entries(before);
      TotalsOfEntries(prefix, before);
      var z := Totals(Skips(prefix) + Entries(before));
      assert Ratio(r) >= 0.0;
      if z.maxEntryExpansionRatio < Ratio(r) || before == [] {
        assert Ratio(rs[|rs| - 1]) == Totals(all).maxEntryExpansionRatio;
      } else {
        var i :| 0 <= i < |before| && Ratio(before[i]) == z.maxEntryExpansionRatio;
        assert Ratio(rs[i]) == Totals(all).maxEntryExpansionRatio;
      }
    }
  }

  lemma DirectoryStarts(rs: seq<Record>, suffix: Bytes)
    requires rs != [] && ValidAll(rs)
    ensures var b := EncodeAll(rs) + suffix; |b| >= 4 && b[..4] == SIGNATURE
  {
    var b := EncodeAll(rs) + suffix;
    assert b[..4] == Header(rs[0])[..4];
  }

  lemma DirectoryParses(prefix: Bytes, rs: seq<Record>, suffix: Bytes)
    requires rs != [] && ValidAll(rs)
    requires FreeOfSignature(prefix) && FreeOfSignature(suffix)
    ensures Parse(prefix + EncodeAll(rs) + suffix) == Ok(Skips(prefix) + Entries(rs) + Skips(suffix))
  {
    var b := EncodeAll(rs) + suffix;
    RecordsParse(rs, suffix);
    DirectoryStarts(rs, suffix);
    PrefixParses(prefix, b, Entries(rs) + Skips(suffix));
    assert prefix + EncodeAll(rs) + suffix == prefix + b;
    assert Skips(prefix) + (Entries(rs) + Skips(suffix)) == Skips(prefix) + Entries(rs) + Skips(suffix);
  }

  /** For any nonempty central directory, between any bytes free of its signature, the scan
      returns exactly the number of records, both sums and the largest ratio. */
  lemma InspectsEncodedDirectory(prefix: Bytes, rs: seq<Record>, suffix: Bytes)
    requires rs != [] && ValidAll(rs)
    requires FreeOfSignature(prefix) && FreeOfSignature(suffix)
    ensures var r := Inspect(prefix + EncodeAll(rs) + suffix);
      && r.Ok?
      && r.value.entries == |rs|
      && r.value.totalCompressedBytes == SumCompressed(rs)
      && r.value.totalUncompressedBytes == SumUncompressed(rs)
      && (forall i :: 0 <= i < |rs| ==> Ratio(rs[i]) <= r.value.maxEntryExpansionRatio)
      && (exists i :: 0 <= i < |rs| && Ratio(rs[i]) == r.value.maxEntryExpansionRatio)
  {
    DirectoryParses(prefix, rs, suffix);
    SkipsAddNothing(Skips(prefix) + Entries(rs), suffix);
    TotalsOfEntries(prefix, rs);
  }

  const MARKED: Bytes := [0xff, 0xff, 0xff, 0xff]

  /** A record of which a size is all ones, as in a ZIP64 archive, is refused as such; one that is
      cut off is malformed. */
  lemma RefusesExactly(b: Bytes)
    requires |b| >= 4 && b[..4] == SIGNATURE
    ensures |b| >= 46 && (b[20..24] == MARKED || b[24..28] == MARKED) ==> Inspect(b) == Err(Zip64Rejected)
    ensures |b| < 46 ==> Inspect(b) == Err(Malformed)
  {
    SignatureIs(b);
    if |b| >= 46 {
      assert U32(b, 20) == U32(b[20..24], 0) && U32(b, 24) == U32(b[24..28], 0) && U32(MARKED, 0) == ZIP64_MARK;
    }
  }

  const END_SIGNATURE: Bytes := [0x50, 0x4b, 0x05, 0x06]

  /** An empty archive has an end-of-directory record in its last 22 bytes. */
  lemma EmptyArchiveExactly(b: Bytes)
    ensures IsEmptyArchive(b) <==> |b| >= 22 && b[|b| - 22..][..4] == END_SIGNATURE
  {
    if |b| >= 22 {
      var end := b[|b| - 22..][..4];
      assert U32(b, |b| - 22) == U32(end, 0) && U32(END_SIGNATURE, 0) == END_OF_CENTRAL_DIRECTORY;
      if U32(end, 0) == END_OF_CENTRAL_DIRECTORY { U32Injective(end, END_SIGNATURE); }
    }
  }

  /** Without any record the array passes exactly when it ends in an end-of-directory record
      with no comment. */
  lemma InspectsEmptyArchive(b: Bytes)
    requires FreeOfSignature(b)
    ensures Inspect(b) == if IsEmptyArchive(b) then Ok(NOTHING) else Err(Malformed)
  {
    SuffixParses(b);
    SkipsAddNothing([], b);
    assert [] + Skips(b) == Skips(b);
  }
}
