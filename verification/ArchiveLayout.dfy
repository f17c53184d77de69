/** Where every field stands in the canonical bytes, by offset. */
module ArchiveLayout {
  import opened Bytes
  import opened Wrappers
  import opened Archive
  import opened ArchiveCodec
  import opened ArchiveStateCodec
  import opened ArchiveRoundTrip

  // ----- the layout

  /** How a number is read: from an offset, so many bytes wide. */
  type Reader = (nat, nat) -> int

  /** The big-endian number at an offset, and no number where the bytes end before it does. */
  function Number(b: seq<byte>, at: nat, width: nat): int {
    if at + width <= |b| then FromBigEndian(b[at..at + width]) else -1
  }

  function NumberIn(b: seq<byte>): Reader {
    (at: nat, width: nat) => Number(b, at, width)
  }

  /** Bytes are digits to the base 256, the most significant first. */
  lemma DigitsOf(b: seq<byte>, at: nat, width: nat)
    requires at + width < |b|
    ensures Number(b, at, 0) == 0 && Number(b, at, width + 1) == 256 * Number(b, at, width) + b[at + width]
  {
    LastDigit(b[at..at + width + 1]);
    assert b[at..at + width + 1][..width] == b[at..at + width];
  }

  lemma LastDigit(s: seq<byte>)
    requires s != []
    ensures FromBigEndian(s) == 256 * FromBigEndian(s[..|s| - 1]) + s[|s| - 1]
  {
  }

  predicate DescriptorAt(read: Reader, at: nat, d: Descriptor) {
    && read(at, 16) == d.setId
    && read(at + 16, 16) == d.objectId
    && read(at + 32, 1) == (match d.kind case BaseChunk => 0 case WalSegment => 1 case TimelineHistory => 2)
    && read(at + 33, 8) == d.ordinal
    && read(at + 41, 4) == d.timeline
    && read(at + 45, 8) == d.startLsn
    && read(at + 53, 8) == d.endLsn
    && read(at + 61, 32) == d.ciphertextDigest
    && read(at + 93, 32) == d.plaintextDigest
    && read(at + 125, 8) == d.length
    && read(at + 133, 32) == d.predecessor
  }

  const DESCRIPTOR_SIZE: nat := 165

  /** A checkpoint field: its length, the length of the domain label, the label, the descriptor. */
  predicate CheckpointAt(read: Reader, at: nat, c: Checkpoint) {
    && read(at, 8) == 207
    && read(at + 8, 8) == 34
    && (forall i :: 0 <= i < 34 ==> read(at + 16 + i, 1) == "vestrace-wal-archive-checkpoint-v1"[i] as int)
    && DescriptorAt(read, at + 50, c.desc)
  }

  const CHECKPOINT_SIZE: nat := 215

  function CheckpointSize(c: Checkpoint): nat { CHECKPOINT_SIZE }

  /** A flag, and the digest if there is one. */
  predicate OptionAt(read: Reader, at: nat, d: Option<Digest>) {
    if d.Some? then read(at, 1) == 1 && read(at + 1, 32) == d.value else read(at, 1) == 0
  }

  function OptionSize(d: Option<Digest>): nat {
    if d.Some? then 33 else 1
  }

  predicate HoldAt(read: Reader, at: nat, h: RestoreHold) {
    && read(at, 16) == h.id
    && match h.released
       case None => read(at + 16, 1) == 0
       case Some(reason) =>
         && read(at + 16, 1) == 1
         && read(at + 17, 1) == (match reason
                                 case TargetInitializationComplete(_) => 0
                                 case SourceResumePrepared(_) => 1
                                 case RefusedTargetDestroyed(_) => 2
                                 case SalvageInstallationCompleted(_) => 3)
         && read(at + 18, 32) == reason.receipt
  }

  function HoldSize(h: RestoreHold): nat {
    if h.released.Some? then 50 else 17
  }

  /** Collection lengths are cast to 64 bits. */
  predicate CountAt(read: Reader, at: nat, n: nat) {
    read(at, 8) == n % (U64_MAX + 1)
  }

  /** The room that the first `n` elements of a list take. */
  function Room<T>(xs: seq<T>, n: nat, size: T -> nat): nat
    requires n <= |xs|
  {
    Sum(xs, n, size)
  }

  function Sum<T>(xs: seq<T>, n: nat, size: T -> nat): nat
    requires n <= |xs|
  {
    if n == 0 then 0 else Sum(xs, n - 1, size) + size(xs[n - 1])
  }

  /** A list of holds: their number, then each hold after the room of those before it. */
  predicate HoldsAt(read: Reader, at: nat, hs: seq<RestoreHold>) {
    && CountAt(read, at, |hs|)
    && forall i {:trigger Room(hs, i, HoldSize)} :: 0 <= i < |hs| ==>
         HoldAt(read, at + 8 + Room(hs, i, HoldSize), hs[i])
  }

  predicate CheckpointsAt(read: Reader, at: nat, cs: seq<Checkpoint>) {
    && CountAt(read, at, |cs|)
    && forall i :: 0 <= i < |cs| ==> CheckpointAt(read, at + 8 + CHECKPOINT_SIZE * i, cs[i])
  }

  function HeadOffset(x: BackupSet): nat {
    50 + OptionSize(x.deletionPreparation) + OptionSize(x.keyErasurePreparation)
  }

  /** Everything of a set before its lists. */
  predicate CoreAt(read: Reader, at: nat, x: BackupSet) {
    && read(at, 16) == x.identity.setId
    && read(at + 16, 16) == x.identity.installationId
    && read(at + 32, 16) == x.identity.generationId
    && read(at + 48, 1) == (match x.lifecycle
                            case Streaming => 0
                            case Sealing => 1
                            case Sealed => 2
                            case DeletionPrepared => 3
                            case ArchiveKeyErased => 4
                            case Deleted => 5)
    && read(at + 49, 1) == (if x.deletionRequested then 1 else 0)
    && OptionAt(read, at + 50, x.deletionPreparation)
    && OptionAt(read, at + 50 + OptionSize(x.deletionPreparation), x.keyErasurePreparation)
    && read(at + HeadOffset(x), 8) == x.head.ordinal
    && read(at + HeadOffset(x) + 8, 32) == x.head.digest
  }

  function CoreSize(x: BackupSet): nat { HeadOffset(x) + 40 }

  function HoldsOffset(x: BackupSet): nat { CoreSize(x) + 8 + CHECKPOINT_SIZE * |x.checkpoints| }

  predicate SetAt(read: Reader, at: nat, l: Listing) {
    && CoreAt(read, at, l.core)
    && CheckpointsAt(read, at + CoreSize(l.core), l.core.checkpoints)
    && HoldsAt(read, at + HoldsOffset(l.core), l.holds)
  }

  function SetSize(l: Listing): nat { HoldsOffset(l.core) + 8 + Room(l.holds, |l.holds|, HoldSize) }

  /** The version, the number of sets, the sets one after another, and nothing else. */
  predicate StateAt(b: seq<byte>, ls: seq<Listing>) {
    && NumberIn(b)(0, 1) == 3
    && CountAt(NumberIn(b), 1, |ls|)
    && (forall i {:trigger Room(ls, i, SetSize)} :: 0 <= i < |ls| ==>
          SetAt(NumberIn(b), 9 + Room(ls, i, SetSize), ls[i]))
    && |b| == 9 + Room(ls, |ls|, SetSize)
  }

  // ----- reading along

  // What is printed is laid out by what is known of `begins` alone: what begins at an offset of the bytes.

  type Beginning = (nat, seq<byte>) -> bool

  /** What begins here is this piece: it is the number read here, and what follows it begins after it. */
  ghost predicate Reads(begins: Beginning, read: Reader) {
    forall o: nat, x: seq<byte>, u: seq<byte> {:trigger Pieces(x, u), begins(o, x + u)} ::
      begins(o, x + u) ==> read(o, |x|) == FromBigEndian(x) && begins(o + |x|, u)
  }

  predicate Pieces(x: seq<byte>, u: seq<byte>) { |x| + |u| == |x + u| }

  lemma Piece(begins: Beginning, read: Reader, o: nat, x: seq<byte>, u: seq<byte>)
    requires Reads(begins, read) && begins(o, x + u)
    ensures read(o, |x|) == FromBigEndian(x) && begins(o + |x|, u)
  {
    assert Pieces(x, u);
  }

  lemma OneByte(v: byte)
    ensures FromBigEndian([v]) == v
  {
    assert [v][..0] == [];
    assert FromBigEndian([v][..0]) == 0;
  }

  lemma DescriptorLaid(begins: Beginning, read: Reader, at: nat, d: Descriptor, t: seq<byte>)
    requires Reads(begins, read) && begins(at, PrintDescriptor(d, t))
    ensures DescriptorAt(read, at, d) && begins(at + DESCRIPTOR_SIZE, t)
  {
    var s11 := DigestBytes(d.predecessor) + t;
    var s10 := U64Bytes(d.length) + s11;
    var s9 := DigestBytes(d.plaintextDigest) + s10;
    var s8 := DigestBytes(d.ciphertextDigest) + s9;
    var s7 := U64Bytes(d.endLsn) + s8;
    var s6 := U64Bytes(d.startLsn) + s7;
    var s5 := U32Bytes(d.timeline) + s6;
    var s4 := U64Bytes(d.ordinal) + s5;
    var s3 := [d.kind.Code()] + s4;
    OneByte(d.kind.Code());
    Piece(begins, read, at, UuidBytes(d.setId), UuidBytes(d.objectId) + s3);
    Piece(begins, read, at + 16, UuidBytes(d.objectId), s3);
    Piece(begins, read, at + 32, [d.kind.Code()], s4);
    Piece(begins, read, at + 33, U64Bytes(d.ordinal), s5);
    Piece(begins, read, at + 41, U32Bytes(d.timeline), s6);
    Piece(begins, read, at + 45, U64Bytes(d.startLsn), s7);
    Piece(begins, read, at + 53, U64Bytes(d.endLsn), s8);
    Piece(begins, read, at + 61, DigestBytes(d.ciphertextDigest), s9);
    Piece(begins, read, at + 93, DigestBytes(d.plaintextDigest), s10);
    Piece(begins, read, at + 125, U64Bytes(d.length), s11);
    Piece(begins, read, at + 133, DigestBytes(d.predecessor), t);
  }

  lemma DescriptorWithTail(d: Descriptor, t: seq<byte>)
    ensures PrintDescriptor(d, []) + t == PrintDescriptor(d, t)
  {
    var b := PrintDescriptor(d, []) + t;
    assert b[0..] == b;
  }

  lemma FieldLaid(begins: Beginning, read: Reader, at: nat, body: seq<byte>, t: seq<byte>)
    requires Reads(begins, read) && |body| <= U64_MAX && begins(at, PrintField(body, t))
    ensures read(at, 8) == |body| && begins(at + 8, body + t)
  {
    Piece(begins, read, at, U64Bytes(|body|), body + t);
  }

  lemma FieldWithTail(x: seq<byte>, u: seq<byte>, t: seq<byte>)
    requires |x| <= U64_MAX
    ensures PrintField(x, u) + t == PrintField(x, u + t)
  {
    assert (U64Bytes(|x|) + (x + u)) + t == U64Bytes(|x|) + (x + (u + t));
  }

  lemma DomainIs(i: nat)
    requires i < 34
    ensures |CHECKPOINT_DOMAIN| == 34 && CHECKPOINT_DOMAIN[i] == "vestrace-wal-archive-checkpoint-v1"[i] as int
  {
    assert forall j :: 0 <= j < 34 ==> "vestrace-wal-archive-checkpoint-v1"[j] as int < 256;
  }

  /** Each byte of a piece stands at its own offset. */
  lemma ByteLaid(begins: Beginning, read: Reader, at: nat, x: seq<byte>, u: seq<byte>, i: nat)
    requires Reads(begins, read) && begins(at, x + u) && i < |x|
    ensures read(at + i, 1) == x[i]
  {
    var rest := x[i + 1..] + u;
    assert x + u == x[..i] + ([x[i]] + rest);
    Piece(begins, read, at, x[..i], [x[i]] + rest);
    Piece(begins, read, at + i, [x[i]], rest);
    OneByte(x[i]);
  }

  lemma DomainLaid(begins: Beginning, read: Reader, at: nat, u: seq<byte>)
    requires Reads(begins, read) && begins(at, CHECKPOINT_DOMAIN + u)
    ensures forall i :: 0 <= i < 34 ==> read(at + i, 1) == "vestrace-wal-archive-checkpoint-v1"[i] as int
    ensures begins(at + 34, u)
  {
    DomainIs(0);
    Piece(begins, read, at, CHECKPOINT_DOMAIN, u);
    forall i | 0 <= i < 34 ensures read(at + i, 1) == "vestrace-wal-archive-checkpoint-v1"[i] as int {
      DomainIs(i);
      ByteLaid(begins, read, at, CHECKPOINT_DOMAIN, u, i);
    }
  }

  lemma DomainFieldLaid(begins: Beginning, read: Reader, at: nat, t: seq<byte>)
    requires Reads(begins, read) && begins(at, PrintField(CHECKPOINT_DOMAIN, t))
    ensures read(at, 8) == 34 && begins(at + 42, t)
    ensures forall i :: 0 <= i < 34 ==> read(at + 8 + i, 1) == "vestrace-wal-archive-checkpoint-v1"[i] as int
  {
    DomainIs(0);
    FieldLaid(begins, read, at, CHECKPOINT_DOMAIN, t);
    DomainLaid(begins, read, at + 8, t);
  }

  lemma CheckpointBodyLaid(begins: Beginning, read: Reader, at: nat, c: Checkpoint, t: seq<byte>)
    requires Reads(begins, read) && begins(at, PrintField(CHECKPOINT_DOMAIN, PrintDescriptor(c.desc, t)))
    ensures read(at, 8) == 34
    ensures forall i :: 0 <= i < 34 ==> read(at + 8 + i, 1) == "vestrace-wal-archive-checkpoint-v1"[i] as int
    ensures DescriptorAt(read, at + 42, c.desc) && begins(at + 207, t)
  {
    DomainFieldLaid(begins, read, at, PrintDescriptor(c.desc, t));
    DescriptorLaid(begins, read, at + 42, c.desc, t);
  }

  lemma CheckpointLaid(begins: Beginning, read: Reader, at: nat, c: Checkpoint, t: seq<byte>)
    requires Reads(begins, read) && begins(at, PrintCheckpoint(c, t))
    ensures CheckpointAt(read, at, c) && begins(at + CHECKPOINT_SIZE, t)
  {
    FieldLaid(begins, read, at, CheckpointBytes(c), t);
    FieldWithTail(CHECKPOINT_DOMAIN, PrintDescriptor(c.desc, []), t);
    DescriptorWithTail(c.desc, t);
    CheckpointBodyLaid(begins, read, at + 8, c, t);
  }

  lemma OptionLaid(begins: Beginning, read: Reader, at: nat, d: Option<Digest>, t: seq<byte>)
    requires Reads(begins, read) && begins(at, PrintOption(d, t))
    ensures OptionAt(read, at, d) && begins(at + OptionSize(d), t)
  {
    OneByte(0);
    OneByte(1);
    if d.Some? {
      Piece(begins, read, at, [1], DigestBytes(d.value) + t);
      Piece(begins, read, at + 1, DigestBytes(d.value), t);
    } else {
      Piece(begins, read, at, [0], t);
    }
  }

  lemma ReasonLaid(begins: Beginning, read: Reader, at: nat, reason: ReleaseReason, t: seq<byte>)
    requires Reads(begins, read) && begins(at, PrintReason(reason, t))
    ensures read(at, 1) == ReasonKind(reason) && read(at + 1, 32) == reason.receipt && begins(at + 33, t)
  {
    OneByte(ReasonKind(reason));
    Piece(begins, read, at, [ReasonKind(reason)], DigestBytes(reason.receipt) + t);
    Piece(begins, read, at + 1, DigestBytes(reason.receipt), t);
  }

  lemma HoldLaid(begins: Beginning, read: Reader, at: nat, h: RestoreHold, t: seq<byte>)
    requires Reads(begins, read) && begins(at, PrintHold(h, t))
    ensures HoldAt(read, at, h) && begins(at + HoldSize(h), t)
  {
    var flag := BoolByte(h.released.Some?);
    var rest := if h.released.Some? then PrintReason(h.released.value, t) else t;
    OneByte(flag);
    Piece(begins, read, at, UuidBytes(h.id), [flag] + rest);
    Piece(begins, read, at + 16, [flag], rest);
    if h.released.Some? {
      ReasonLaid(begins, read, at + 17, h.released.value, t);
    }
  }

  lemma OptionsLaid(begins: Beginning, read: Reader, at: nat, d: Option<Digest>, e: Option<Digest>, t: seq<byte>)
    requires Reads(begins, read) && begins(at, PrintOption(d, PrintOption(e, t)))
    ensures OptionAt(read, at, d) && OptionAt(read, at + OptionSize(d), e)
    ensures begins(at + OptionSize(d) + OptionSize(e), t)
  {
    OptionLaid(begins, read, at, d, PrintOption(e, t));
    OptionLaid(begins, read, at + OptionSize(d), e, t);
  }

  lemma HeadLaid(begins: Beginning, read: Reader, at: nat, head: ArchiveHead, t: seq<byte>)
    requires Reads(begins, read) && begins(at, U64Bytes(head.ordinal) + (DigestBytes(head.digest) + t))
    ensures read(at, 8) == head.ordinal && read(at + 8, 32) == head.digest && begins(at + 40, t)
  {
    Piece(begins, read, at, U64Bytes(head.ordinal), DigestBytes(head.digest) + t);
    Piece(begins, read, at + 8, DigestBytes(head.digest), t);
  }

  lemma IdentityLaid(begins: Beginning, read: Reader, at: nat, x: Identity, t: seq<byte>)
    requires Reads(begins, read)
    requires begins(at, UuidBytes(x.setId) + (UuidBytes(x.installationId) + (UuidBytes(x.generationId) + t)))
    ensures read(at, 16) == x.setId && read(at + 16, 16) == x.installationId && read(at + 32, 16) == x.generationId
    ensures begins(at + 48, t)
  {
    Piece(begins, read, at, UuidBytes(x.setId), UuidBytes(x.installationId) + (UuidBytes(x.generationId) + t));
    Piece(begins, read, at + 16, UuidBytes(x.installationId), UuidBytes(x.generationId) + t);
    Piece(begins, read, at + 32, UuidBytes(x.generationId), t);
  }

  lemma BytesLaid(begins: Beginning, read: Reader, at: nat, v: byte, w: byte, t: seq<byte>)
    requires Reads(begins, read) && begins(at, [v] + ([w] + t))
    ensures read(at, 1) == v && read(at + 1, 1) == w && begins(at + 2, t)
  {
    OneByte(v);
    OneByte(w);
    Piece(begins, read, at, [v], [w] + t);
    Piece(begins, read, at + 1, [w], t);
  }

  lemma PreparationsLaid(begins: Beginning, read: Reader, at: nat, x: BackupSet, t: seq<byte>)
    requires Reads(begins, read)
    requires var head := U64Bytes(x.head.ordinal) + (DigestBytes(x.head.digest) + t);
             begins(at + 50, PrintOption(x.deletionPreparation, PrintOption(x.keyErasurePreparation, head)))
    ensures OptionAt(read, at + 50, x.deletionPreparation)
    ensures OptionAt(read, at + 50 + OptionSize(x.deletionPreparation), x.keyErasurePreparation)
    ensures read(at + HeadOffset(x), 8) == x.head.ordinal && read(at + HeadOffset(x) + 8, 32) == x.head.digest
    ensures begins(at + CoreSize(x), t)
  {
    var head := U64Bytes(x.head.ordinal) + (DigestBytes(x.head.digest) + t);
    OptionsLaid(begins, read, at + 50, x.deletionPreparation, x.keyErasurePreparation, head);
    HeadLaid(begins, read, at + HeadOffset(x), x.head, t);
  }

  lemma CoreLaid(begins: Beginning, read: Reader, at: nat, x: BackupSet, t: seq<byte>)
    requires Reads(begins, read) && begins(at, PrintCore(x, t))
    ensures CoreAt(read, at, x) && begins(at + CoreSize(x), t)
  {
    var head := U64Bytes(x.head.ordinal) + (DigestBytes(x.head.digest) + t);
    var options := PrintOption(x.deletionPreparation, PrintOption(x.keyErasurePreparation, head));
    var flag := BoolByte(x.deletionRequested);
    IdentityLaid(begins, read, at, x.identity, [x.lifecycle.Code()] + ([flag] + options));
    BytesLaid(begins, read, at + 48, x.lifecycle.Code(), flag, options);
    PreparationsLaid(begins, read, at, x, t);
  }

  // ----- lists

  lemma LengthLaid(begins: Beginning, read: Reader, at: nat, n: nat, t: seq<byte>)
    requires Reads(begins, read) && begins(at, LengthBytes(n) + t)
    ensures CountAt(read, at, n) && begins(at + 8, t)
  {
    LengthRead(n);
    Piece(begins, read, at, LengthBytes(n), t);
  }

  lemma LengthRead(n: nat)
    ensures |LengthBytes(n)| == 8 && FromBigEndian(LengthBytes(n)) == n % (U64_MAX + 1)
  {
  }

  /** What follows a printed element; what is known of printed elements is asked for only where that is mentioned. */
  predicate Follows(u: seq<byte>) { 0 <= |u| }

  /** Whatever follows this printed element begins after its room. */
  ghost predicate Passes<T(!new)>(begins: Beginning, print1: (T, seq<byte>) -> seq<byte>, size: T -> nat, x: T) {
    forall o: nat, u: seq<byte> {:trigger Follows(u), begins(o, print1(x, u))} ::
      begins(o, print1(x, u)) ==> begins(o + size(x), u)
  }

  lemma ElementPassed<T(!new)>(begins: Beginning, print1: (T, seq<byte>) -> seq<byte>, size: T -> nat, x: T, o: nat,
                               u: seq<byte>)
    requires Passes(begins, print1, size, x) && begins(o, print1(x, u))
    ensures begins(o + size(x), u)
  {
    assert Follows(u);
  }

  lemma NextPrinted<T>(xs: seq<T>, print1: (T, seq<byte>) -> seq<byte>, t: seq<byte>, n: nat)
    requires n < |xs|
    ensures PrintAll(xs[n..], print1, t) == print1(xs[n], PrintAll(xs[n + 1..], print1, t))
  {
    assert xs[n..][1..] == xs[n + 1..] && xs[n..][0] == xs[n];
  }

  /** The rest of a list begins after the room of the elements before it. */
  lemma {:induction false} RestLaid<T(!new)>(begins: Beginning, at: nat, xs: seq<T>,
                                             print1: (T, seq<byte>) -> seq<byte>, size: T -> nat, t: seq<byte>, n: nat)
    requires begins(at, PrintAll(xs, print1, t)) && n <= |xs|
    requires forall x: T :: Passes(begins, print1, size, x)
    ensures begins(at + Room(xs, n, size), PrintAll(xs[n..], print1, t))
    decreases n
  {
    if n == 0 {
      assert xs[0..] == xs;
    } else {
      RestLaid(begins, at, xs, print1, size, t, n - 1);
      NextPrinted(xs, print1, t, n - 1);
      assert Passes(begins, print1, size, xs[n - 1]);
      ElementPassed(begins, print1, size, xs[n - 1], at + Room(xs, n - 1, size), PrintAll(xs[n..], print1, t));
    }
  }

  lemma NthLaid<T(!new)>(begins: Beginning, at: nat, xs: seq<T>, print1: (T, seq<byte>) -> seq<byte>, size: T -> nat,
                         t: seq<byte>, i: nat) returns (rest: seq<byte>)
    requires begins(at, PrintAll(xs, print1, t)) && i < |xs|
    requires forall x: T :: Passes(begins, print1, size, x)
    ensures begins(at + Room(xs, i, size), print1(xs[i], rest))
  {
    RestLaid(begins, at, xs, print1, size, t, i);
    NextPrinted(xs, print1, t, i);
    rest := PrintAll(xs[i + 1..], print1, t);
  }

  lemma AllPassed<T(!new)>(begins: Beginning, at: nat, xs: seq<T>, print1: (T, seq<byte>) -> seq<byte>, size: T -> nat,
                           t: seq<byte>)
    requires begins(at, PrintAll(xs, print1, t))
    requires forall x: T :: Passes(begins, print1, size, x)
    ensures begins(at + Room(xs, |xs|, size), t)
  {
    RestLaid(begins, at, xs, print1, size, t, |xs|);
    assert xs[|xs|..] == [];
  }

  lemma ListBegins<T>(begins: Beginning, read: Reader, at: nat, xs: seq<T>, print1: (T, seq<byte>) -> seq<byte>,
                      t: seq<byte>)
    requires Reads(begins, read) && begins(at, PrintList(xs, print1, t))
    ensures CountAt(read, at, |xs|) && begins(at + 8, PrintAll(xs, print1, t))
  {
    LengthLaid(begins, read, at, |xs|, PrintAll(xs, print1, t));
  }

  // ----- holds

  lemma HoldPassed(begins: Beginning, read: Reader, at: nat, h: RestoreHold, t: seq<byte>)
    requires Reads(begins, read) && begins(at, PrintHold(h, t))
    ensures begins(at + HoldSize(h), t)
  {
    HoldLaid(begins, read, at, h, t);
  }

  /** These functions print this element and measure it. */
  ghost predicate HoldForm(print1: (RestoreHold, seq<byte>) -> seq<byte>, size: RestoreHold -> nat, h: RestoreHold) {
    forall u: seq<byte> {:trigger Follows(u)} :: print1(h, u) == PrintHold(h, u) && size(h) == HoldSize(h)
  }

  lemma HoldPassedBy(begins: Beginning, read: Reader, print1: (RestoreHold, seq<byte>) -> seq<byte>,
                     size: RestoreHold -> nat, h: RestoreHold, o: nat, u: seq<byte>)
    requires Reads(begins, read) && print1(h, u) == PrintHold(h, u) && size(h) == HoldSize(h)
    requires begins(o, print1(h, u))
    ensures begins(o + size(h), u)
  {
    HoldPassed(begins, read, o, h, u);
  }

  lemma HoldPasses(begins: Beginning, read: Reader, print1: (RestoreHold, seq<byte>) -> seq<byte>,
                   size: RestoreHold -> nat, h: RestoreHold)
    requires Reads(begins, read) && HoldForm(print1, size, h)
    ensures Passes(begins, print1, size, h)
  {
    forall o: nat, u: seq<byte> | begins(o, print1(h, u)) ensures begins(o + size(h), u) {
      assert Follows(u);
      HoldPassedBy(begins, read, print1, size, h, o, u);
    }
  }

  lemma EveryHoldPasses(begins: Beginning, read: Reader, print1: (RestoreHold, seq<byte>) -> seq<byte>)
    requires Reads(begins, read) && forall h: RestoreHold :: HoldForm(print1, HoldSize, h)
    ensures forall h: RestoreHold :: Passes(begins, print1, HoldSize, h)
  {
    forall h: RestoreHold ensures Passes(begins, print1, HoldSize, h) {
      assert HoldForm(print1, HoldSize, h);
      HoldPasses(begins, read, print1, HoldSize, h);
    }
  }

  lemma HoldStands(begins: Beginning, read: Reader, print1: (RestoreHold, seq<byte>) -> seq<byte>, o: nat,
                   h: RestoreHold, u: seq<byte>)
    requires Reads(begins, read) && HoldForm(print1, HoldSize, h) && begins(o, print1(h, u))
    ensures HoldAt(read, o, h)
  {
    assert Follows(u);
    HoldLaid(begins, read, o, h, u);
  }

  lemma HoldBegins(begins: Beginning, read: Reader, print1: (RestoreHold, seq<byte>) -> seq<byte>, at: nat,
                   hs: seq<RestoreHold>, t: seq<byte>, i: nat) returns (rest: seq<byte>)
    requires Reads(begins, read) && begins(at, PrintAll(hs, print1, t)) && i < |hs|
    requires forall h: RestoreHold :: HoldForm(print1, HoldSize, h)
    ensures begins(at + Room(hs, i, HoldSize), print1(hs[i], rest))
  {
    EveryHoldPasses(begins, read, print1);
    rest := NthLaid(begins, at, hs, print1, HoldSize, t, i);
  }

  lemma HoldNth(begins: Beginning, read: Reader, print1: (RestoreHold, seq<byte>) -> seq<byte>, at: nat,
                hs: seq<RestoreHold>, t: seq<byte>, i: nat)
    requires Reads(begins, read) && begins(at, PrintAll(hs, print1, t)) && i < |hs|
    requires forall h: RestoreHold :: HoldForm(print1, HoldSize, h)
    ensures HoldAt(read, at + Room(hs, i, HoldSize), hs[i])
  {
    var rest := HoldBegins(begins, read, print1, at, hs, t, i);
    assert HoldForm(print1, HoldSize, hs[i]);
    HoldStands(begins, read, print1, at + Room(hs, i, HoldSize), hs[i], rest);
  }

  lemma HoldsStand(begins: Beginning, read: Reader, print1: (RestoreHold, seq<byte>) -> seq<byte>, at: nat,
                   hs: seq<RestoreHold>, t: seq<byte>)
    requires Reads(begins, read) && begins(at, PrintAll(hs, print1, t))
    requires forall h: RestoreHold :: HoldForm(print1, HoldSize, h)
    ensures forall i {:trigger Room(hs, i, HoldSize)} :: 0 <= i < |hs| ==>
              HoldAt(read, at + Room(hs, i, HoldSize), hs[i])
  {
    forall i | 0 <= i < |hs| ensures HoldAt(read, at + Room(hs, i, HoldSize), hs[i]) {
      HoldNth(begins, read, print1, at, hs, t, i);
    }
  }

  lemma HoldsCounted(begins: Beginning, read: Reader, print1: (RestoreHold, seq<byte>) -> seq<byte>, at: nat,
                     hs: seq<RestoreHold>, t: seq<byte>)
    requires Reads(begins, read) && CountAt(read, at, |hs|) && begins(at + 8, PrintAll(hs, print1, t))
    requires forall h: RestoreHold :: HoldForm(print1, HoldSize, h)
    ensures HoldsAt(read, at, hs)
  {
    HoldsStand(begins, read, print1, at + 8, hs, t);
  }

  lemma HoldsPassed(begins: Beginning, read: Reader, print1: (RestoreHold, seq<byte>) -> seq<byte>, at: nat,
                    hs: seq<RestoreHold>, t: seq<byte>)
    requires Reads(begins, read) && begins(at, PrintAll(hs, print1, t))
    requires forall h: RestoreHold :: HoldForm(print1, HoldSize, h)
    ensures begins(at + Room(hs, |hs|, HoldSize), t)
  {
    EveryHoldPasses(begins, read, print1);
    AllPassed(begins, at, hs, print1, HoldSize, t);
  }

  // ----- checkpoints

  lemma CheckpointPassed(begins: Beginning, read: Reader, at: nat, c: Checkpoint, t: seq<byte>)
    requires Reads(begins, read) && begins(at, PrintCheckpoint(c, t))
    ensures begins(at + CheckpointSize(c), t)
  {
    CheckpointLaid(begins, read, at, c, t);
  }

  /** These functions print this element and measure it. */
  ghost predicate CheckpointForm(print1: (Checkpoint, seq<byte>) -> seq<byte>, size: Checkpoint -> nat, c: Checkpoint) {
    forall u: seq<byte> {:trigger Follows(u)} :: print1(c, u) == PrintCheckpoint(c, u) && size(c) == CheckpointSize(c)
  }

  lemma CheckpointPassedBy(begins: Beginning, read: Reader, print1: (Checkpoint, seq<byte>) -> seq<byte>,
                           size: Checkpoint -> nat, c: Checkpoint, o: nat, u: seq<byte>)
    requires Reads(begins, read) && print1(c, u) == PrintCheckpoint(c, u) && size(c) == CheckpointSize(c)
    requires begins(o, print1(c, u))
    ensures begins(o + size(c), u)
  {
    CheckpointPassed(begins, read, o, c, u);
  }

  lemma CheckpointPasses(begins: Beginning, read: Reader, print1: (Checkpoint, seq<byte>) -> seq<byte>,
                         size: Checkpoint -> nat, c: Checkpoint)
    requires Reads(begins, read) && CheckpointForm(print1, size, c)
    ensures Passes(begins, print1, size, c)
  {
    forall o: nat, u: seq<byte> | begins(o, print1(c, u)) ensures begins(o + size(c), u) {
      assert Follows(u);
      CheckpointPassedBy(begins, read, print1, size, c, o, u);
    }
  }

  lemma EveryCheckpointPasses(begins: Beginning, read: Reader, print1: (Checkpoint, seq<byte>) -> seq<byte>)
    requires Reads(begins, read) && forall c: Checkpoint :: CheckpointForm(print1, CheckpointSize, c)
    ensures forall c: Checkpoint :: Passes(begins, print1, CheckpointSize, c)
  {
    forall c: Checkpoint ensures Passes(begins, print1, CheckpointSize, c) {
      assert CheckpointForm(print1, CheckpointSize, c);
      CheckpointPasses(begins, read, print1, CheckpointSize, c);
    }
  }

  lemma CheckpointStands(begins: Beginning, read: Reader, print1: (Checkpoint, seq<byte>) -> seq<byte>, o: nat,
                         c: Checkpoint, u: seq<byte>)
    requires Reads(begins, read) && CheckpointForm(print1, CheckpointSize, c) && begins(o, print1(c, u))
    ensures CheckpointAt(read, o, c)
  {
    assert Follows(u);
    CheckpointLaid(begins, read, o, c, u);
  }

  lemma CheckpointBegins(begins: Beginning, read: Reader, print1: (Checkpoint, seq<byte>) -> seq<byte>, at: nat,
                         cs: seq<Checkpoint>, t: seq<byte>, i: nat) returns (rest: seq<byte>)
    requires Reads(begins, read) && begins(at, PrintAll(cs, print1, t)) && i < |cs|
    requires forall c: Checkpoint :: CheckpointForm(print1, CheckpointSize, c)
    ensures begins(at + Room(cs, i, CheckpointSize), print1(cs[i], rest))
  {
    EveryCheckpointPasses(begins, read, print1);
    rest := NthLaid(begins, at, cs, print1, CheckpointSize, t, i);
  }

  lemma CheckpointNth(begins: Beginning, read: Reader, print1: (Checkpoint, seq<byte>) -> seq<byte>, at: nat,
                      cs: seq<Checkpoint>, t: seq<byte>, i: nat)
    requires Reads(begins, read) && begins(at, PrintAll(cs, print1, t)) && i < |cs|
    requires forall c: Checkpoint :: CheckpointForm(print1, CheckpointSize, c)
    ensures CheckpointAt(read, at + Room(cs, i, CheckpointSize), cs[i])
  {
    var rest := CheckpointBegins(begins, read, print1, at, cs, t, i);
    assert CheckpointForm(print1, CheckpointSize, cs[i]);
    CheckpointStands(begins, read, print1, at + Room(cs, i, CheckpointSize), cs[i], rest);
  }

  lemma {:induction false} CheckpointsRoom(cs: seq<Checkpoint>, n: nat)
    requires n <= |cs|
    ensures Room(cs, n, CheckpointSize) == CHECKPOINT_SIZE * n
  {
    if n > 0 {
      CheckpointsRoom(cs, n - 1);
    }
  }

  lemma CheckpointAtIndex(begins: Beginning, read: Reader, print1: (Checkpoint, seq<byte>) -> seq<byte>, at: nat,
                          cs: seq<Checkpoint>, t: seq<byte>, i: nat)
    requires Reads(begins, read) && begins(at, PrintAll(cs, print1, t)) && i < |cs|
    requires forall c: Checkpoint :: CheckpointForm(print1, CheckpointSize, c)
    ensures CheckpointAt(read, at + CHECKPOINT_SIZE * i, cs[i])
  {
    CheckpointNth(begins, read, print1, at, cs, t, i);
    CheckpointsRoom(cs, i);
  }

  lemma CheckpointsStand(begins: Beginning, read: Reader, print1: (Checkpoint, seq<byte>) -> seq<byte>, at: nat,
                         cs: seq<Checkpoint>, t: seq<byte>)
    requires Reads(begins, read) && begins(at, PrintAll(cs, print1, t))
    requires forall c: Checkpoint :: CheckpointForm(print1, CheckpointSize, c)
    ensures forall i :: 0 <= i < |cs| ==> CheckpointAt(read, at + CHECKPOINT_SIZE * i, cs[i])
  {
    forall i | 0 <= i < |cs| ensures CheckpointAt(read, at + CHECKPOINT_SIZE * i, cs[i]) {
      CheckpointAtIndex(begins, read, print1, at, cs, t, i);
    }
  }

  lemma CheckpointsCounted(begins: Beginning, read: Reader, print1: (Checkpoint, seq<byte>) -> seq<byte>, at: nat,
                           cs: seq<Checkpoint>, t: seq<byte>)
    requires Reads(begins, read) && CountAt(read, at, |cs|) && begins(at + 8, PrintAll(cs, print1, t))
    requires forall c: Checkpoint :: CheckpointForm(print1, CheckpointSize, c)
    ensures CheckpointsAt(read, at, cs)
  {
    CheckpointsStand(begins, read, print1, at + 8, cs, t);
  }

  lemma CheckpointsPassed(begins: Beginning, read: Reader, print1: (Checkpoint, seq<byte>) -> seq<byte>, at: nat,
                          cs: seq<Checkpoint>, t: seq<byte>)
    requires Reads(begins, read) && begins(at, PrintAll(cs, print1, t))
    requires forall c: Checkpoint :: CheckpointForm(print1, CheckpointSize, c)
    ensures begins(at + CHECKPOINT_SIZE * |cs|, t)
  {
    EveryCheckpointPasses(begins, read, print1);
    AllPassed(begins, at, cs, print1, CheckpointSize, t);
    CheckpointsRoom(cs, |cs|);
  }

  // ----- sets

  lemma HoldsFormed()
    ensures forall h: RestoreHold :: HoldForm(PrintHold, HoldSize, h)
  {
  }

  lemma CheckpointsFormed()
    ensures forall c: Checkpoint :: CheckpointForm(PrintCheckpoint, CheckpointSize, c)
  {
  }

  lemma SetCore(begins: Beginning, read: Reader, at: nat, l: Listing, t: seq<byte>)
    requires Reads(begins, read) && begins(at, PrintSet(l, t))
    ensures CoreAt(read, at, l.core)
  {
    var holds := PrintList(l.holds, PrintHold, t);
    CoreLaid(begins, read, at, l.core, PrintList(l.core.checkpoints, PrintCheckpoint, holds));
  }

  lemma CorePassed(begins: Beginning, read: Reader, at: nat, l: Listing, t: seq<byte>)
    requires Reads(begins, read) && begins(at, PrintSet(l, t))
    ensures var holds := PrintList(l.holds, PrintHold, t);
            begins(at + CoreSize(l.core), PrintList(l.core.checkpoints, PrintCheckpoint, holds))
  {
    var holds := PrintList(l.holds, PrintHold, t);
    CoreLaid(begins, read, at, l.core, PrintList(l.core.checkpoints, PrintCheckpoint, holds));
  }

  lemma CheckpointsLaid(begins: Beginning, read: Reader, print1: (Checkpoint, seq<byte>) -> seq<byte>, at: nat,
                        cs: seq<Checkpoint>, t: seq<byte>)
    requires Reads(begins, read) && begins(at, PrintList(cs, print1, t))
    requires forall c: Checkpoint :: CheckpointForm(print1, CheckpointSize, c)
    ensures CheckpointsAt(read, at, cs)
  {
    ListBegins(begins, read, at, cs, print1, t);
    CheckpointsCounted(begins, read, print1, at, cs, t);
  }

  lemma CheckpointsEnd(begins: Beginning, read: Reader, print1: (Checkpoint, seq<byte>) -> seq<byte>, at: nat,
                       x: BackupSet, t: seq<byte>)
    requires Reads(begins, read) && begins(at + CoreSize(x), PrintList(x.checkpoints, print1, t))
    requires forall c: Checkpoint :: CheckpointForm(print1, CheckpointSize, c)
    ensures begins(at + HoldsOffset(x), t)
  {
    ListBegins(begins, read, at + CoreSize(x), x.checkpoints, print1, t);
    CheckpointsPassed(begins, read, print1, at + CoreSize(x) + 8, x.checkpoints, t);
  }

  lemma SetCheckpoints(begins: Beginning, read: Reader, at: nat, l: Listing, t: seq<byte>)
    requires Reads(begins, read) && begins(at, PrintSet(l, t))
    ensures CheckpointsAt(read, at + CoreSize(l.core), l.core.checkpoints)
  {
    CorePassed(begins, read, at, l, t);
    CheckpointsFormed();
    var holds := PrintList(l.holds, PrintHold, t);
    CheckpointsLaid(begins, read, PrintCheckpoint, at + CoreSize(l.core), l.core.checkpoints, holds);
  }

  lemma PastCheckpoints(begins: Beginning, read: Reader, at: nat, l: Listing, t: seq<byte>)
    requires Reads(begins, read) && begins(at, PrintSet(l, t))
    ensures begins(at + HoldsOffset(l.core), PrintList(l.holds, PrintHold, t))
  {
    CorePassed(begins, read, at, l, t);
    CheckpointsFormed();
    CheckpointsEnd(begins, read, PrintCheckpoint, at, l.core, PrintList(l.holds, PrintHold, t));
  }

  lemma HoldsLaid(begins: Beginning, read: Reader, print1: (RestoreHold, seq<byte>) -> seq<byte>, at: nat,
                  hs: seq<RestoreHold>, t: seq<byte>)
    requires Reads(begins, read) && begins(at, PrintList(hs, print1, t))
    requires forall h: RestoreHold :: HoldForm(print1, HoldSize, h)
    ensures HoldsAt(read, at, hs)
  {
    ListBegins(begins, read, at, hs, print1, t);
    HoldsCounted(begins, read, print1, at, hs, t);
  }

  lemma HoldsEnd(begins: Beginning, read: Reader, print1: (RestoreHold, seq<byte>) -> seq<byte>, at: nat, l: Listing,
                 t: seq<byte>, end: nat)
    requires Reads(begins, read) && begins(at + HoldsOffset(l.core), PrintList(l.holds, print1, t))
    requires end == at + SetSize(l) && forall h: RestoreHold :: HoldForm(print1, HoldSize, h)
    ensures begins(end, t)
  {
    ListBegins(begins, read, at + HoldsOffset(l.core), l.holds, print1, t);
    HoldsPassed(begins, read, print1, at + HoldsOffset(l.core) + 8, l.holds, t);
  }

  lemma HoldsInSet(begins: Beginning, read: Reader, at: nat, l: Listing, t: seq<byte>)
    requires Reads(begins, read) && begins(at + HoldsOffset(l.core), PrintList(l.holds, PrintHold, t))
    ensures HoldsAt(read, at + HoldsOffset(l.core), l.holds)
  {
    HoldsFormed();
    HoldsLaid(begins, read, PrintHold, at + HoldsOffset(l.core), l.holds, t);
  }

  lemma SetHolds(begins: Beginning, read: Reader, at: nat, l: Listing, t: seq<byte>)
    requires Reads(begins, read) && begins(at, PrintSet(l, t))
    ensures HoldsAt(read, at + HoldsOffset(l.core), l.holds)
  {
    PastCheckpoints(begins, read, at, l, t);
    HoldsInSet(begins, read, at, l, t);
  }

  lemma SetPassed(begins: Beginning, read: Reader, at: nat, l: Listing, t: seq<byte>, end: nat)
    requires Reads(begins, read) && begins(at, PrintSet(l, t)) && end == at + SetSize(l)
    ensures begins(end, t)
  {
    PastCheckpoints(begins, read, at, l, t);
    HoldsFormed();
    HoldsEnd(begins, read, PrintHold, at, l, t, end);
  }

  lemma SetLaid(begins: Beginning, read: Reader, at: nat, l: Listing, t: seq<byte>)
    requires Reads(begins, read) && begins(at, PrintSet(l, t))
    ensures SetAt(read, at, l)
  {
    SetCore(begins, read, at, l, t);
    SetCheckpoints(begins, read, at, l, t);
    SetHolds(begins, read, at, l, t);
  }

  /** These functions print this element and measure it. */
  ghost predicate SetForm(print1: (Listing, seq<byte>) -> seq<byte>, size: Listing -> nat, l: Listing) {
    forall u: seq<byte> {:trigger Follows(u)} :: print1(l, u) == PrintSet(l, u) && size(l) == SetSize(l)
  }

  lemma SetPassedBy(begins: Beginning, read: Reader, print1: (Listing, seq<byte>) -> seq<byte>,
                    size: Listing -> nat, l: Listing, o: nat, u: seq<byte>, end: nat)
    requires Reads(begins, read) && SetForm(print1, size, l) && begins(o, print1(l, u)) && end == o + size(l)
    ensures begins(end, u)
  {
    assert Follows(u);
    SetPassed(begins, read, o, l, u, end);
  }

  lemma SetPasses(begins: Beginning, read: Reader, print1: (Listing, seq<byte>) -> seq<byte>,
                  size: Listing -> nat, l: Listing)
    requires Reads(begins, read) && SetForm(print1, size, l)
    ensures Passes(begins, print1, size, l)
  {
    forall o: nat, u: seq<byte> | begins(o, print1(l, u)) ensures begins(o + size(l), u) {
      SetPassedBy(begins, read, print1, size, l, o, u, o + size(l));
    }
  }

  lemma EverySetPasses(begins: Beginning, read: Reader, print1: (Listing, seq<byte>) -> seq<byte>)
    requires Reads(begins, read) && forall l: Listing :: SetForm(print1, SetSize, l)
    ensures forall l: Listing :: Passes(begins, print1, SetSize, l)
  {
    forall l: Listing ensures Passes(begins, print1, SetSize, l) {
      assert SetForm(print1, SetSize, l);
      SetPasses(begins, read, print1, SetSize, l);
    }
  }

  lemma SetStands(begins: Beginning, read: Reader, print1: (Listing, seq<byte>) -> seq<byte>, o: nat,
                  l: Listing, u: seq<byte>)
    requires Reads(begins, read) && SetForm(print1, SetSize, l) && begins(o, print1(l, u))
    ensures SetAt(read, o, l)
  {
    assert Follows(u);
    SetLaid(begins, read, o, l, u);
  }

  lemma SetBegins(begins: Beginning, read: Reader, print1: (Listing, seq<byte>) -> seq<byte>, at: nat,
                  ls: seq<Listing>, t: seq<byte>, i: nat) returns (rest: seq<byte>)
    requires Reads(begins, read) && begins(at, PrintAll(ls, print1, t)) && i < |ls|
    requires forall l: Listing :: SetForm(print1, SetSize, l)
    ensures begins(at + Room(ls, i, SetSize), print1(ls[i], rest))
  {
    EverySetPasses(begins, read, print1);
    rest := NthLaid(begins, at, ls, print1, SetSize, t, i);
  }

  lemma SetNth(begins: Beginning, read: Reader, print1: (Listing, seq<byte>) -> seq<byte>, at: nat,
               ls: seq<Listing>, t: seq<byte>, i: nat)
    requires Reads(begins, read) && begins(at, PrintAll(ls, print1, t)) && i < |ls|
    requires forall l: Listing :: SetForm(print1, SetSize, l)
    ensures SetAt(read, at + Room(ls, i, SetSize), ls[i])
  {
    var rest := SetBegins(begins, read, print1, at, ls, t, i);
    assert SetForm(print1, SetSize, ls[i]);
    SetStands(begins, read, print1, at + Room(ls, i, SetSize), ls[i], rest);
  }

  lemma SetsStand(begins: Beginning, read: Reader, print1: (Listing, seq<byte>) -> seq<byte>, at: nat,
                  ls: seq<Listing>, t: seq<byte>)
    requires Reads(begins, read) && begins(at, PrintAll(ls, print1, t))
    requires forall l: Listing :: SetForm(print1, SetSize, l)
    ensures forall i {:trigger Room(ls, i, SetSize)} :: 0 <= i < |ls| ==> SetAt(read, at + Room(ls, i, SetSize), ls[i])
  {
    forall i | 0 <= i < |ls| ensures SetAt(read, at + Room(ls, i, SetSize), ls[i]) {
      SetNth(begins, read, print1, at, ls, t, i);
    }
  }

  lemma SetsPassed(begins: Beginning, read: Reader, print1: (Listing, seq<byte>) -> seq<byte>, at: nat,
                   ls: seq<Listing>, t: seq<byte>)
    requires Reads(begins, read) && begins(at, PrintAll(ls, print1, t))
    requires forall l: Listing :: SetForm(print1, SetSize, l)
    ensures begins(at + Room(ls, |ls|, SetSize), t)
  {
    EverySetPasses(begins, read, print1);
    AllPassed(begins, at, ls, print1, SetSize, t);
  }

  lemma SetsFormed()
    ensures forall l: Listing :: SetForm(PrintSet, SetSize, l)
  {
  }

  // ----- whole states

  /** What begins at an offset of these bytes. */
  function BeginsIn(b: seq<byte>): Beginning {
    (o: nat, s: seq<byte>) => o <= |b| && b[o..] == s
  }

  lemma BytesRead(b: seq<byte>)
    ensures Reads(BeginsIn(b), NumberIn(b))
  {
    forall o: nat, x: seq<byte>, u: seq<byte> | BeginsIn(b)(o, x + u)
      ensures NumberIn(b)(o, |x|) == FromBigEndian(x) && BeginsIn(b)(o + |x|, u)
    {
      assert b[o..o + |x|] == b[o..][..|x|] == x;
      assert b[o + |x|..] == b[o..][|x|..] == u;
    }
  }

  lemma WholeBegins(b: seq<byte>)
    ensures BeginsIn(b)(0, b)
  {
    assert b[0..] == b;
  }

  lemma VersionLaid(begins: Beginning, read: Reader, t: seq<byte>)
    requires Reads(begins, read) && begins(0, [ARCHIVE_STATE_VERSION] + t)
    ensures read(0, 1) == 3 && begins(1, t)
  {
    OneByte(ARCHIVE_STATE_VERSION);
    Piece(begins, read, 0, [ARCHIVE_STATE_VERSION], t);
  }

  lemma StateLaid(begins: Beginning, read: Reader, print1: (Listing, seq<byte>) -> seq<byte>, ls: seq<Listing>)
    requires Reads(begins, read) && begins(1, PrintList(ls, print1, []))
    requires forall l: Listing :: SetForm(print1, SetSize, l)
    ensures CountAt(read, 1, |ls|)
    ensures forall i {:trigger Room(ls, i, SetSize)} :: 0 <= i < |ls| ==> SetAt(read, 9 + Room(ls, i, SetSize), ls[i])
  {
    ListBegins(begins, read, 1, ls, print1, []);
    SetsStand(begins, read, print1, 9, ls, []);
  }

  lemma StateEnds(begins: Beginning, read: Reader, print1: (Listing, seq<byte>) -> seq<byte>, ls: seq<Listing>)
    requires Reads(begins, read) && begins(1, PrintList(ls, print1, []))
    requires forall l: Listing :: SetForm(print1, SetSize, l)
    ensures begins(9 + Room(ls, |ls|, SetSize), [])
  {
    ListBegins(begins, read, 1, ls, print1, []);
    SetsPassed(begins, read, print1, 9, ls, []);
  }

  lemma PrintedLayout(ls: seq<Listing>)
    ensures StateAt(PrintState(ls), ls)
  {
    var b := PrintState(ls);
    BytesRead(b);
    WholeBegins(b);
    BytesLayout(b, ls);
  }

  lemma BytesLayout(b: seq<byte>, ls: seq<Listing>)
    requires Reads(BeginsIn(b), NumberIn(b)) && BeginsIn(b)(0, PrintState(ls))
    ensures StateAt(b, ls)
  {
    VersionLaid(BeginsIn(b), NumberIn(b), PrintList(ls, PrintSet, []));
    SetsFormed();
    StateLaid(BeginsIn(b), NumberIn(b), PrintSet, ls);
    StateEnds(BeginsIn(b), NumberIn(b), PrintSet, ls);
  }

  /** The sets of a state by ascending identifier, each with its holds by ascending identifier. */
  ghost predicate ListsInOrder(ls: seq<Listing>, s: State) {
    && |ls| == |s.sets|
    && (forall i :: 0 <= i < |ls| ==>
          && ls[i].core.identity.setId in s.sets
          && ls[i].core == s.sets[ls[i].core.identity.setId].(holds := map[])
          && HoldsInOrder(ls[i].holds, s.sets[ls[i].core.identity.setId].holds))
    && forall i, j :: 0 <= i < j < |ls| ==> ls[i].core.identity.setId < ls[j].core.identity.setId
  }

  ghost predicate HoldsInOrder(hs: seq<RestoreHold>, m: map<Uuid, RestoreHold>) {
    && |hs| == |m|
    && (forall i :: 0 <= i < |hs| ==> hs[i].id in m && m[hs[i].id] == hs[i])
    && forall i, j :: 0 <= i < j < |hs| ==> hs[i].id < hs[j].id
  }

  lemma ValuesInOrder(m: map<Uuid, RestoreHold>)
    requires forall k: Uuid :: k in m ==> m[k].id == k
    ensures HoldsInOrder(Values(m), m)
  {
    var ks := SortedKeys(m.Keys);
    forall i | 0 <= i < |ks| ensures Values(m)[i].id == ks[i] && ks[i] in m {
      assert ks[i] in ks;
    }
  }

  lemma ListingsInOrder(s: State)
    requires forall id: Uuid :: id in s.sets ==> s.sets[id].identity.setId == id
    requires forall id: Uuid, k: Uuid :: id in s.sets && k in s.sets[id].holds ==> s.sets[id].holds[k].id == k
    ensures ListsInOrder(Listings(Values(s.sets)), s)
  {
    var ls, ks := Listings(Values(s.sets)), SortedKeys(s.sets.Keys);
    forall i | 0 <= i < |ls|
      ensures ls[i].core.identity.setId == ks[i] && ks[i] in s.sets
      ensures ls[i].core == s.sets[ks[i]].(holds := map[]) && HoldsInOrder(ls[i].holds, s.sets[ks[i]].holds)
    {
      assert ks[i] in ks;
      ValuesInOrder(s.sets[ks[i]].holds);
    }
  }

  /** The encoder's bytes, field by field, for every state whose sets and holds are filed under their own
      identifiers. */
  lemma EncodedLayout(s: State) returns (ls: seq<Listing>)
    requires forall id: Uuid :: id in s.sets ==> s.sets[id].identity.setId == id
    requires forall id: Uuid, k: Uuid :: id in s.sets && k in s.sets[id].holds ==> s.sets[id].holds[k].id == k
    ensures ListsInOrder(ls, s) && StateAt(CanonicalBytes(s), ls)
  {
    ls := Listings(Values(s.sets));
    PrintedLayout(ls);
    ListingsInOrder(s);
  }

  /** What the decoder accepts is laid out the same way, whatever the order of its sets and holds, and it reads each
      field where it stands. */
  lemma DecodedLayout(dg: Digester, bytes: seq<byte>)
    requires ParseState(dg, bytes).Got?
    ensures StateAt(bytes, ParseState(dg, bytes).value)
  {
    StateParsed(dg, bytes);
    PrintedLayout(ParseState(dg, bytes).value);
  }

  lemma DescriptorReads(s: seq<byte>, d: Descriptor, t: seq<byte>)
    requires s == PrintDescriptor(d, t)
    ensures DescriptorAt(NumberIn(s), 0, d)
  {
    BytesRead(s);
    WholeBegins(s);
    DescriptorLaid(BeginsIn(s), NumberIn(s), 0, d, t);
  }

  lemma DescriptorEnds(s: seq<byte>, d: Descriptor, t: seq<byte>)
    requires s == PrintDescriptor(d, t)
    ensures BeginsIn(s)(DESCRIPTOR_SIZE, t)
  {
    BytesRead(s);
    WholeBegins(s);
    DescriptorLaid(BeginsIn(s), NumberIn(s), 0, d, t);
  }

  lemma DescriptorLayout(s: seq<byte>)
    requires ParseDescriptor(s).Got?
    ensures DescriptorAt(NumberIn(s), 0, ParseDescriptor(s).value)
    ensures |s| >= DESCRIPTOR_SIZE && ParseDescriptor(s).rest == s[DESCRIPTOR_SIZE..]
  {
    DescriptorParsed(s);
    DescriptorReads(s, ParseDescriptor(s).value, ParseDescriptor(s).rest);
    DescriptorEnds(s, ParseDescriptor(s).value, ParseDescriptor(s).rest);
  }

  // ----- what the decoder accepts

  /** A listing of sets that the decoder takes, its lists given by index. */
  ghost predicate WellListed(dg: Digester, ls: seq<Listing>) {
    && |ls| <= U64_MAX
    && (forall i :: 0 <= i < |ls| ==> SetWellListed(dg, ls[i]))
    && forall i, j :: 0 <= i < j < |ls| ==> ls[i].core.identity.setId != ls[j].core.identity.setId
  }

  /** Checkpoints of the set itself, with rising ordinals, a base only at ordinal one and in front; the head is the
      last of them; the preparations are those of the lifecycle; no hold is listed twice. */
  ghost predicate SetWellListed(dg: Digester, l: Listing) {
    var x, cs, hs := l.core, l.core.checkpoints, l.holds;
    && x.holds == map[] && |cs| <= U64_MAX && |hs| <= U64_MAX
    && (forall i :: 0 <= i < |cs| ==> cs[i].desc.Valid() && cs[i].desc.setId == x.identity.setId)
    && (forall i :: 0 <= i < |cs| && cs[i].desc.kind.BaseChunk? ==> i == 0 && cs[i].desc.ordinal == 1)
    && (forall i :: 0 <= i < |cs| ==> cs[i].desc.ordinal > 0)
    && (forall i, j :: 0 <= i < j < |cs| ==> cs[i].desc.ordinal < cs[j].desc.ordinal)
    && (if cs == [] then x.head.ordinal == 0
        else x.head.ordinal == cs[|cs| - 1].desc.ordinal && x.head.digest == dg(cs[|cs| - 1]))
    && (match x.lifecycle
        case Streaming | Sealing | Sealed => x.deletionPreparation.None? && x.keyErasurePreparation.None?
        case DeletionPrepared =>
          x.deletionPreparation.Some? && x.keyErasurePreparation in {None, x.deletionPreparation}
        case ArchiveKeyErased | Deleted =>
          x.deletionPreparation.Some? && x.keyErasurePreparation == x.deletionPreparation)
    && forall i, j :: 0 <= i < j < |hs| ==> hs[i].id != hs[j].id
  }

  lemma {:induction false} RisingMeans(cs: seq<Checkpoint>, setId: Uuid, previous: u64)
    ensures Rising(cs, setId, previous)
       <==> && (forall i :: 0 <= i < |cs| ==> cs[i].desc.setId == setId && previous < cs[i].desc.ordinal)
            && forall i, j :: 0 <= i < j < |cs| ==> cs[i].desc.ordinal < cs[j].desc.ordinal
    decreases |cs|
  {
    if cs != [] {
      RisingMeans(cs[1..], setId, cs[0].desc.ordinal);
      assert forall i :: 1 <= i < |cs| ==> cs[i] == cs[1..][i - 1];
      assert forall i :: 0 <= i < |cs| - 1 ==> cs[1..][i] == cs[i + 1];
    }
  }

  lemma ListingOkIff(dg: Digester, l: Listing)
    ensures ListingOk(dg, l) <==> SetWellListed(dg, l)
  {
    RisingMeans(l.core.checkpoints, l.core.identity.setId, 0);
  }

  lemma AcceptedIff(dg: Digester, ls: seq<Listing>)
    ensures Accepted(dg, ls) <==> WellListed(dg, ls)
  {
    forall i | 0 <= i < |ls| ensures ListingOk(dg, ls[i]) <==> SetWellListed(dg, ls[i]) {
      ListingOkIff(dg, ls[i]);
    }
    assert forall i :: 0 <= i < |ls| ==> SetKey(Sets(ls)[i]) == ls[i].core.identity.setId;
  }

  /** Bytes are accepted exactly when they are empty or spell out a listing of well-formed sets. */
  lemma DecodesIff(dg: Digester, bytes: seq<byte>)
    ensures FromCanonicalBytes(dg, bytes).Ok?
       <==> bytes == [] || exists ls: seq<Listing> :: WellListed(dg, ls) && bytes == PrintState(ls)
  {
    if FromCanonicalBytes(dg, bytes).Ok? && bytes != [] {
      var ls := DecodedListing(dg, bytes, FromCanonicalBytes(dg, bytes).value);
      AcceptedIff(dg, ls);
    }
    forall ls: seq<Listing> | WellListed(dg, ls) && bytes == PrintState(ls) ensures FromCanonicalBytes(dg, bytes).Ok? {
      AcceptedIff(dg, ls);
      StatePrinted(dg, ls);
    }
  }
}
