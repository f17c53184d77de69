/** The canonical byte form of the archive state: printers, parsers, and their agreement. */
module ArchiveCodec {
  import opened Bytes
  import opened Wrappers
  import opened Archive

  const ARCHIVE_STATE_VERSION: byte := 3

  // ----- parser results

  datatype Parse<+T> = Got(value: T, rest: seq<byte>) | Bad {
    predicate IsFailure() { Bad? }

    function PropagateFailure<U>(): Parse<U>
      requires Bad?
    {
      Bad
    }

    function Extract(): (T, seq<byte>)
      requires Got?
    {
      (value, rest)
    }
  }

  // ----- fixed-width values
  // A printer takes the bytes that follow, so that parsing what it prints leaves them.

  function TakeN(s: seq<byte>, n: nat): Parse<seq<byte>> {
    if n <= |s| then Got(s[..n], s[n..]) else Bad
  }

  function ParseFixed(s: seq<byte>, width: nat): (p: Parse<nat>)
    ensures p.Got? ==> p.value < Pow256(width)
  {
    var (b, rest) :- TakeN(s, width);
    BigEndianInverse(b);
    Got(FromBigEndian(b), rest)
  }

  lemma FixedParsed(s: seq<byte>, width: nat)
    requires ParseFixed(s, width).Got?
    ensures s == BigEndian(ParseFixed(s, width).value, width) + ParseFixed(s, width).rest
  {
    BigEndianInverse(s[..width]);
  }

  function ParseByte(s: seq<byte>): Parse<byte> {
    if s == [] then Bad else Got(s[0], s[1..])
  }

  function ParseU32(s: seq<byte>): Parse<u32> {
    Widths();
    var (v, rest) :- ParseFixed(s, 4);
    Got(v, rest)
  }

  function ParseU64(s: seq<byte>): Parse<u64> {
    Widths();
    var (v, rest) :- ParseFixed(s, 8);
    Got(v, rest)
  }

  function ParseUuid(s: seq<byte>): Parse<Uuid> {
    Widths();
    var (v, rest) :- ParseFixed(s, 16);
    Got(v, rest)
  }

  function ParseDigest(s: seq<byte>): Parse<Digest> {
    Widths();
    var (v, rest) :- ParseFixed(s, 32);
    Got(v, rest)
  }

  lemma ByteParsed(s: seq<byte>)
    requires ParseByte(s).Got?
    ensures s == [ParseByte(s).value] + ParseByte(s).rest
  {
  }

  lemma BytePrinted(v: byte, t: seq<byte>)
    ensures ParseByte([v] + t) == Got(v, t)
  {
  }

  lemma U32Parsed(s: seq<byte>)
    requires ParseU32(s).Got?
    ensures s == U32Bytes(ParseU32(s).value) + ParseU32(s).rest
  {
    Widths();
    FixedParsed(s, 4);
  }

  lemma U32Printed(v: u32, t: seq<byte>)
    ensures ParseU32(U32Bytes(v) + t) == Got(v, t)
  {
  }

  lemma U64Parsed(s: seq<byte>)
    requires ParseU64(s).Got?
    ensures s == U64Bytes(ParseU64(s).value) + ParseU64(s).rest
  {
    Widths();
    FixedParsed(s, 8);
  }

  lemma U64Printed(v: u64, t: seq<byte>)
    ensures ParseU64(U64Bytes(v) + t) == Got(v, t)
  {
  }

  lemma UuidParsed(s: seq<byte>)
    requires ParseUuid(s).Got?
    ensures s == UuidBytes(ParseUuid(s).value) + ParseUuid(s).rest
  {
    Widths();
    FixedParsed(s, 16);
  }

  lemma UuidPrinted(v: Uuid, t: seq<byte>)
    ensures ParseUuid(UuidBytes(v) + t) == Got(v, t)
  {
  }

  lemma DigestParsed(s: seq<byte>)
    requires ParseDigest(s).Got?
    ensures s == DigestBytes(ParseDigest(s).value) + ParseDigest(s).rest
  {
    Widths();
    FixedParsed(s, 32);
  }

  lemma DigestPrinted(v: Digest, t: seq<byte>)
    ensures ParseDigest(DigestBytes(v) + t) == Got(v, t)
  {
  }

  // ----- booleans, optional digests and enumerations

  function BoolByte(b: bool): byte {
    if b then 1 else 0
  }

  function ParseBool(s: seq<byte>): Parse<bool> {
    var (v, rest) :- ParseByte(s);
    if v == 0 then Got(false, rest) else if v == 1 then Got(true, rest) else Bad
  }

  lemma BoolParsed(s: seq<byte>)
    requires ParseBool(s).Got?
    ensures s == [BoolByte(ParseBool(s).value)] + ParseBool(s).rest
  {
  }

  function PrintOption(d: Option<Digest>, t: seq<byte>): seq<byte> {
    if d.Some? then [1] + (DigestBytes(d.value) + t) else [0] + t
  }

  function ParseOption(s: seq<byte>): Parse<Option<Digest>> {
    var (some, r) :- ParseBool(s);
    if some then
      var (d, rest) :- ParseDigest(r);
      Got(Some(d), rest)
    else Got(None, r)
  }

  lemma OptionParsed(s: seq<byte>)
    requires ParseOption(s).Got?
    ensures s == PrintOption(ParseOption(s).value, ParseOption(s).rest)
  {
    BoolParsed(s);
    if ParseBool(s).value {
      DigestParsed(ParseBool(s).rest);
    }
  }

  lemma OptionPrinted(d: Option<Digest>, t: seq<byte>)
    ensures ParseOption(PrintOption(d, t)) == Got(d, t)
  {
  }

  function ParseLifecycle(s: seq<byte>): Parse<Lifecycle> {
    var (v, rest) :- ParseByte(s);
    match v
    case 0 => Got(Streaming, rest)
    case 1 => Got(Sealing, rest)
    case 2 => Got(Sealed, rest)
    case 3 => Got(DeletionPrepared, rest)
    case 4 => Got(ArchiveKeyErased, rest)
    case 5 => Got(Deleted, rest)
    case _ => Bad
  }

  lemma LifecycleParsed(s: seq<byte>)
    requires ParseLifecycle(s).Got?
    ensures s == [ParseLifecycle(s).value.Code()] + ParseLifecycle(s).rest
  {
  }

  lemma LifecyclePrinted(l: Lifecycle, t: seq<byte>)
    ensures ParseLifecycle([l.Code()] + t) == Got(l, t)
  {
  }

  function ParseKind(s: seq<byte>): Parse<ObjectKind> {
    var (v, rest) :- ParseByte(s);
    match v
    case 0 => Got(BaseChunk, rest)
    case 1 => Got(WalSegment, rest)
    case 2 => Got(TimelineHistory, rest)
    case _ => Bad
  }

  lemma KindParsed(s: seq<byte>)
    requires ParseKind(s).Got?
    ensures s == [ParseKind(s).value.Code()] + ParseKind(s).rest
  {
  }

  lemma KindPrinted(k: ObjectKind, t: seq<byte>)
    ensures ParseKind([k.Code()] + t) == Got(k, t)
  {
  }

  // ----- length-prefixed fields

  function PrintField(b: seq<byte>, t: seq<byte>): seq<byte>
    requires |b| <= U64_MAX
  {
    U64Bytes(|b|) + (b + t)
  }

  function ParseField(s: seq<byte>): (p: Parse<seq<byte>>)
    ensures p.Got? ==> |p.value| <= U64_MAX
  {
    var (n, r) :- ParseU64(s);
    TakeN(r, n)
  }

  lemma FieldParsed(s: seq<byte>)
    requires ParseField(s).Got?
    ensures s == PrintField(ParseField(s).value, ParseField(s).rest)
  {
    U64Parsed(s);
  }

  lemma FieldPrinted(b: seq<byte>, t: seq<byte>)
    requires |b| <= U64_MAX
    ensures ParseField(PrintField(b, t)) == Got(b, t)
  {
  }

  // ----- descriptors and checkpoints

  function PrintDescriptor(d: Descriptor, t: seq<byte>): (b: seq<byte>)
    ensures |b| == 165 + |t|
  {
    UuidBytes(d.setId) + (UuidBytes(d.objectId) + ([d.kind.Code()] + (U64Bytes(d.ordinal)
    + (U32Bytes(d.timeline) + (U64Bytes(d.startLsn) + (U64Bytes(d.endLsn)
    + (DigestBytes(d.ciphertextDigest) + (DigestBytes(d.plaintextDigest) + (U64Bytes(d.length)
    + (DigestBytes(d.predecessor) + t))))))))))
  }

  function ParseDescriptor(s: seq<byte>): (p: Parse<Descriptor>)
    ensures p.Got? ==> p.value.Valid()
  {
    var (setId, s1) :- ParseUuid(s);
    var (objectId, s2) :- ParseUuid(s1);
    var (kind, s3) :- ParseKind(s2);
    var (ordinal, s4) :- ParseU64(s3);
    var (timeline, s5) :- ParseU32(s4);
    var (startLsn, s6) :- ParseU64(s5);
    var (endLsn, s7) :- ParseU64(s6);
    var (ciphertextDigest, s8) :- ParseDigest(s7);
    var (plaintextDigest, s9) :- ParseDigest(s8);
    var (length, s10) :- ParseU64(s9);
    var (predecessor, s11) :- ParseDigest(s10);
    var d := Descriptor(setId, objectId, kind, ordinal, timeline, startLsn, endLsn,
                        ciphertextDigest, plaintextDigest, length, predecessor);
    if d.Valid() then Got(d, s11) else Bad
  }

  lemma DescriptorParsed(s: seq<byte>)
    requires ParseDescriptor(s).Got?
    ensures s == PrintDescriptor(ParseDescriptor(s).value, ParseDescriptor(s).rest)
  {
    var s1 := ParseUuid(s).rest;
    var s2 := ParseUuid(s1).rest;
    var s3 := ParseKind(s2).rest;
    var s4 := ParseU64(s3).rest;
    var s5 := ParseU32(s4).rest;
    var s6 := ParseU64(s5).rest;
    var s7 := ParseU64(s6).rest;
    var s8 := ParseDigest(s7).rest;
    var s9 := ParseDigest(s8).rest;
    var s10 := ParseU64(s9).rest;
    UuidParsed(s);
    UuidParsed(s1);
    KindParsed(s2);
    U64Parsed(s3);
    U32Parsed(s4);
    U64Parsed(s5);
    U64Parsed(s6);
    DigestParsed(s7);
    DigestParsed(s8);
    U64Parsed(s9);
    DigestParsed(s10);
  }

  lemma DescriptorPrinted(d: Descriptor, t: seq<byte>)
    requires d.Valid()
    ensures ParseDescriptor(PrintDescriptor(d, t)) == Got(d, t)
  {
    var s11 := DigestBytes(d.predecessor) + t;
    var s10 := U64Bytes(d.length) + s11;
    var s9 := DigestBytes(d.plaintextDigest) + s10;
    var s8 := DigestBytes(d.ciphertextDigest) + s9;
    var s7 := U64Bytes(d.endLsn) + s8;
    var s6 := U64Bytes(d.startLsn) + s7;
    var s5 := U32Bytes(d.timeline) + s6;
    var s4 := U64Bytes(d.ordinal) + s5;
    var s3 := [d.kind.Code()] + s4;
    var s2 := UuidBytes(d.objectId) + s3;
    UuidPrinted(d.setId, s2);
    UuidPrinted(d.objectId, s3);
    KindPrinted(d.kind, s4);
    U64Printed(d.ordinal, s5);
    U32Printed(d.timeline, s6);
    U64Printed(d.startLsn, s7);
    U64Printed(d.endLsn, s8);
    DigestPrinted(d.ciphertextDigest, s9);
    DigestPrinted(d.plaintextDigest, s10);
    U64Printed(d.length, s11);
    DigestPrinted(d.predecessor, t);
  }
}
