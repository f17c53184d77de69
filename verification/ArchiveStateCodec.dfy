/** Printing and parsing whole archive states, as the listing of sets and holds the bytes carry. */
module ArchiveStateCodec {
  import opened Bytes
  import opened Wrappers
  import opened Archive
  import opened ArchiveCodec

  // ----- lists of anything that can be printed and parsed

  function PrintAll<T>(xs: seq<T>, print1: (T, seq<byte>) -> seq<byte>, t: seq<byte>): seq<byte> {
    if xs == [] then t else print1(xs[0], PrintAll(xs[1..], print1, t))
  }

  function ParseAll<T>(s: seq<byte>, n: nat, parse1: seq<byte> -> Parse<T>): (p: Parse<seq<T>>)
    ensures p.Got? ==> |p.value| == n
    decreases n
  {
    if n == 0 then Got([], s) else
      var (x, r) :- parse1(s);
      var (xs, rest) :- ParseAll(r, n - 1, parse1);
      Got([x] + xs, rest)
  }

  lemma {:induction false} AllPrinted<T>(
    xs: seq<T>, print1: (T, seq<byte>) -> seq<byte>, parse1: seq<byte> -> Parse<T>, t: seq<byte>)
    requires forall i, u :: 0 <= i < |xs| ==> parse1(print1(xs[i], u)) == Got(xs[i], u)
    ensures ParseAll(PrintAll(xs, print1, t), |xs|, parse1) == Got(xs, t)
    decreases |xs|
  {
    if xs != [] {
      assert forall i, u :: 0 <= i < |xs[1..]| ==> parse1(print1(xs[1..][i], u)) == Got(xs[1..][i], u);
      AllPrinted(xs[1..], print1, parse1, t);
      assert xs == [xs[0]] + xs[1..];
    }
  }

  lemma {:induction false} AllParsed<T>(
    s: seq<byte>, n: nat, print1: (T, seq<byte>) -> seq<byte>, parse1: seq<byte> -> Parse<T>)
    requires forall u :: parse1(u).Got? ==> u == print1(parse1(u).value, parse1(u).rest)
    requires ParseAll(s, n, parse1).Got?
    ensures s == PrintAll(ParseAll(s, n, parse1).value, print1, ParseAll(s, n, parse1).rest)
    ensures forall i :: 0 <= i < n ==> exists u :: parse1(u).Got? && parse1(u).value == ParseAll(s, n, parse1).value[i]
    ensures (forall u :: parse1(u).Got? ==> |parse1(u).rest| <= |u|) ==> |ParseAll(s, n, parse1).rest| <= |s|
    decreases n
  {
    if n != 0 {
      var p := parse1(s);
      AllParsed(p.rest, n - 1, print1, parse1);
      var xs := ParseAll(p.rest, n - 1, parse1).value;
      assert ParseAll(s, n, parse1).value == [p.value] + xs;
      assert ([p.value] + xs)[1..] == xs;
    }
  }

  lemma {:induction false} AllAreLong<T>(s: seq<byte>, n: nat, width: nat, parse1: seq<byte> -> Parse<T>)
    requires forall u :: parse1(u).Got? ==> |u| >= width + |parse1(u).rest|
    requires ParseAll(s, n, parse1).Got?
    ensures |s| >= width * n
    decreases n
  {
    if n != 0 {
      AllAreLong(parse1(s).rest, n - 1, width, parse1);
      assert width * (n - 1) + width == width * n;
    }
  }

  /** A collection length cast to 64 bits. */
  function LengthBytes(n: nat): (b: seq<byte>)
    ensures |b| == 8
    ensures n <= U64_MAX ==> b == U64Bytes(n)
  {
    U64Bytes(if n <= U64_MAX then n else n % (U64_MAX + 1))
  }

  /** A counted list. */
  function PrintList<T>(xs: seq<T>, print1: (T, seq<byte>) -> seq<byte>, t: seq<byte>): seq<byte> {
    LengthBytes(|xs|) + PrintAll(xs, print1, t)
  }

  function ParseList<T>(s: seq<byte>, parse1: seq<byte> -> Parse<T>): (p: Parse<seq<T>>)
    ensures p.Got? ==> |p.value| <= U64_MAX
  {
    var (n, r) :- ParseU64(s);
    ParseAll(r, n, parse1)
  }

  lemma ListPrinted<T>(
    xs: seq<T>, print1: (T, seq<byte>) -> seq<byte>, parse1: seq<byte> -> Parse<T>, t: seq<byte>)
    requires |xs| <= U64_MAX
    requires forall i, u :: 0 <= i < |xs| ==> parse1(print1(xs[i], u)) == Got(xs[i], u)
    ensures ParseList(PrintList(xs, print1, t), parse1) == Got(xs, t)
  {
    U64Printed(|xs|, PrintAll(xs, print1, t));
    AllPrinted(xs, print1, parse1, t);
  }

  lemma ListParsed<T>(s: seq<byte>, print1: (T, seq<byte>) -> seq<byte>, parse1: seq<byte> -> Parse<T>)
    requires forall u :: parse1(u).Got? ==> u == print1(parse1(u).value, parse1(u).rest) && |parse1(u).rest| <= |u|
    requires ParseList(s, parse1).Got?
    ensures s == PrintList(ParseList(s, parse1).value, print1, ParseList(s, parse1).rest)
    ensures forall x :: x in ParseList(s, parse1).value ==> exists u :: parse1(u).Got? && parse1(u).value == x
    ensures |s| >= 8 + |ParseList(s, parse1).rest|
  {
    U64Parsed(s);
    var n := ParseU64(s);
    AllParsed(n.rest, n.value, print1, parse1);
  }

  // ----- checkpoints

  function Ascii(s: string): (b: seq<byte>)
    ensures |b| == |s|
  {
    seq(|s|, i requires 0 <= i < |s| => s[i] as int % 256)
  }

  const CHECKPOINT_DOMAIN: seq<byte> := Ascii("vestrace-wal-archive-checkpoint-v1")

  function CheckpointBytes(c: Checkpoint): (b: seq<byte>)
    ensures |b| == 207
  {
    assert |"vestrace-wal-archive-checkpoint-v1"| == 34;
    PrintField(CHECKPOINT_DOMAIN, PrintDescriptor(c.desc, []))
  }

  function ParseCheckpoint(s: seq<byte>): (p: Parse<Checkpoint>)
    ensures p.Got? ==> p.value.desc.Valid()
  {
    var (domain, r) :- ParseField(s);
    if domain != CHECKPOINT_DOMAIN then Bad else
      var (d, rest) :- ParseDescriptor(r);
      Got(Checkpoint(d), rest)
  }

  lemma CheckpointParsed(s: seq<byte>)
    requires ParseCheckpoint(s).Got? && ParseCheckpoint(s).rest == []
    ensures s == CheckpointBytes(ParseCheckpoint(s).value)
  {
    FieldParsed(s);
    DescriptorParsed(ParseField(s).rest);
  }

  lemma CheckpointPrinted(c: Checkpoint)
    requires c.desc.Valid()
    ensures ParseCheckpoint(CheckpointBytes(c)) == Got(c, [])
  {
    FieldPrinted(CHECKPOINT_DOMAIN, PrintDescriptor(c.desc, []));
    DescriptorPrinted(c.desc, []);
  }

  function PrintCheckpoint(c: Checkpoint, t: seq<byte>): (b: seq<byte>)
    ensures |b| >= |t|
  {
    PrintField(CheckpointBytes(c), t)
  }

  /** A checkpoint field must hold one checkpoint and nothing after it. */
  function ParseCheckpointField(s: seq<byte>): (p: Parse<Checkpoint>)
    ensures p.Got? ==> p.value.desc.Valid()
  {
    var (f, rest) :- ParseField(s);
    var (c, tail) :- ParseCheckpoint(f);
    if tail == [] then Got(c, rest) else Bad
  }

  lemma CheckpointFieldParsed(s: seq<byte>)
    requires ParseCheckpointField(s).Got?
    ensures s == PrintCheckpoint(ParseCheckpointField(s).value, ParseCheckpointField(s).rest)
  {
    FieldParsed(s);
    CheckpointParsed(ParseField(s).value);
  }

  lemma CheckpointFieldPrinted(c: Checkpoint, t: seq<byte>)
    requires c.desc.Valid()
    ensures ParseCheckpointField(PrintCheckpoint(c, t)) == Got(c, t)
  {
    FieldPrinted(CheckpointBytes(c), t);
    CheckpointPrinted(c);
  }

  lemma CheckpointsPrinted(cs: seq<Checkpoint>, t: seq<byte>)
    requires |cs| <= U64_MAX
    requires forall i :: 0 <= i < |cs| ==> cs[i].desc.Valid()
    ensures ParseList(PrintList(cs, PrintCheckpoint, t), ParseCheckpointField) == Got(cs, t)
  {
    forall i, u | 0 <= i < |cs| ensures ParseCheckpointField(PrintCheckpoint(cs[i], u)) == Got(cs[i], u) {
      CheckpointFieldPrinted(cs[i], u);
    }
    ListPrinted(cs, PrintCheckpoint, ParseCheckpointField, t);
  }

  lemma CheckpointsParsed(s: seq<byte>)
    requires ParseList(s, ParseCheckpointField).Got?
    ensures var p := ParseList(s, ParseCheckpointField);
            && s == PrintList(p.value, PrintCheckpoint, p.rest)
            && (forall i :: 0 <= i < |p.value| ==> p.value[i].desc.Valid())
            && |s| >= 8 + |p.rest|
  {
    forall u | ParseCheckpointField(u).Got?
      ensures u == PrintCheckpoint(ParseCheckpointField(u).value, ParseCheckpointField(u).rest)
    {
      CheckpointFieldParsed(u);
    }
    ListParsed(s, PrintCheckpoint, ParseCheckpointField);
    var cs := ParseList(s, ParseCheckpointField).value;
    forall i | 0 <= i < |cs| ensures cs[i].desc.Valid() {
      assert cs[i] in cs;
    }
  }

  // ----- restore holds

  function ReasonKind(r: ReleaseReason): byte {
    match r
    case TargetInitializationComplete(_) => 0
    case SourceResumePrepared(_) => 1
    case RefusedTargetDestroyed(_) => 2
    case SalvageInstallationCompleted(_) => 3
  }

  function PrintReason(r: ReleaseReason, t: seq<byte>): seq<byte> {
    [ReasonKind(r)] + (DigestBytes(r.receipt) + t)
  }

  function ParseReason(s: seq<byte>): Parse<ReleaseReason> {
    var (kind, r) :- ParseByte(s);
    var (receipt, rest) :- ParseDigest(r);
    match kind
    case 0 => Got(TargetInitializationComplete(receipt), rest)
    case 1 => Got(SourceResumePrepared(receipt), rest)
    case 2 => Got(RefusedTargetDestroyed(receipt), rest)
    case 3 => Got(SalvageInstallationCompleted(receipt), rest)
    case _ => Bad
  }

  lemma ReasonParsed(s: seq<byte>)
    requires ParseReason(s).Got?
    ensures s == PrintReason(ParseReason(s).value, ParseReason(s).rest)
  {
    ByteParsed(s);
    DigestParsed(ParseByte(s).rest);
  }

  function PrintHold(x: RestoreHold, t: seq<byte>): (b: seq<byte>)
    ensures |b| >= 17 + |t|
  {
    UuidBytes(x.id)
    + ([BoolByte(x.released.Some?)] + (if x.released.Some? then PrintReason(x.released.value, t) else t))
  }

  function ParseHold(s: seq<byte>): Parse<RestoreHold> {
    var (id, r1) :- ParseUuid(s);
    var (released, r2) :- ParseBool(r1);
    if released then
      var (reason, rest) :- ParseReason(r2);
      Got(RestoreHold(id, Some(reason)), rest)
    else Got(RestoreHold(id, None), r2)
  }

  lemma HoldParsed(s: seq<byte>)
    requires ParseHold(s).Got?
    ensures s == PrintHold(ParseHold(s).value, ParseHold(s).rest)
  {
    UuidParsed(s);
    var r1 := ParseUuid(s).rest;
    BoolParsed(r1);
    if ParseBool(r1).value {
      ReasonParsed(ParseBool(r1).rest);
    }
  }

  lemma ReasonPrinted(r: ReleaseReason, t: seq<byte>)
    ensures ParseReason(PrintReason(r, t)) == Got(r, t)
  {
    BytePrinted(ReasonKind(r), DigestBytes(r.receipt) + t);
    DigestPrinted(r.receipt, t);
  }

  lemma HoldPrinted(x: RestoreHold, t: seq<byte>)
    ensures ParseHold(PrintHold(x, t)) == Got(x, t)
  {
    var rest := if x.released.Some? then PrintReason(x.released.value, t) else t;
    UuidPrinted(x.id, [BoolByte(x.released.Some?)] + rest);
    BytePrinted(BoolByte(x.released.Some?), rest);
    if x.released.Some? {
      ReasonPrinted(x.released.value, t);
    }
  }

  lemma HoldsPrinted(xs: seq<RestoreHold>, t: seq<byte>)
    requires |xs| <= U64_MAX
    ensures ParseList(PrintList(xs, PrintHold, t), ParseHold) == Got(xs, t)
  {
    forall i, u | 0 <= i < |xs| ensures ParseHold(PrintHold(xs[i], u)) == Got(xs[i], u) {
      HoldPrinted(xs[i], u);
    }
    ListPrinted(xs, PrintHold, ParseHold, t);
  }

  lemma HoldsParsed(s: seq<byte>)
    requires ParseList(s, ParseHold).Got?
    ensures s == PrintList(ParseList(s, ParseHold).value, PrintHold, ParseList(s, ParseHold).rest)
    ensures |s| >= 8 + |ParseList(s, ParseHold).rest|
  {
    forall u | ParseHold(u).Got? ensures u == PrintHold(ParseHold(u).value, ParseHold(u).rest) {
      HoldParsed(u);
    }
    ListParsed(s, PrintHold, ParseHold);
  }

  // ----- sets

  /** A set as the bytes list it: everything but the holds, then the holds in order. */
  datatype Listing = Listing(core: BackupSet, holds: seq<RestoreHold>)

  /** Descriptors of this set, with ordinals rising from above `previous`. */
  predicate Rising(cs: seq<Checkpoint>, setId: Uuid, previous: u64)
    decreases |cs|
  {
    cs == [] ||
    (cs[0].desc.setId == setId && previous < cs[0].desc.ordinal && Rising(cs[1..], setId, cs[0].desc.ordinal))
  }

  /** The decoder's checks on a set once its checkpoints have been read. */
  predicate CoreOk(dg: Digester, b: BackupSet) {
    var cs := b.checkpoints;
    && Rising(cs, b.identity.setId, 0)
    && (cs != [] ==>
          && (cs[0].desc.kind.BaseChunk? ==> cs[0].desc.ordinal == 1)
          && (forall i :: 1 <= i < |cs| ==> !cs[i].desc.kind.BaseChunk?)
          && b.head == ArchiveHead(cs[|cs| - 1].desc.ordinal, dg(cs[|cs| - 1])))
    && (cs == [] ==> b.head.ordinal == 0)
    && (b.lifecycle.Condemned() <==> b.deletionPreparation.Some?)
    && (b.keyErasurePreparation.Some? ==> b.keyErasurePreparation == b.deletionPreparation)
    && (b.lifecycle.ArchiveKeyErased? || b.lifecycle.Deleted? ==> b.keyErasurePreparation.Some?)
  }

  /** A listing the bytes can carry: counts fit their fields and descriptors passed their constructor. */
  predicate Carried(l: Listing) {
    && l.core.holds == map[] && |l.core.checkpoints| <= U64_MAX && |l.holds| <= U64_MAX
    && (forall i :: 0 <= i < |l.core.checkpoints| ==> l.core.checkpoints[i].desc.Valid())
  }

  predicate ListingOk(dg: Digester, l: Listing) {
    Carried(l) && CoreOk(dg, l.core) && DistinctKeys(l.holds, HoldKey)
  }

  function PrintCore(b: BackupSet, t: seq<byte>): (r: seq<byte>)
    ensures |r| >= 92 + |t|
  {
    UuidBytes(b.identity.setId) + (UuidBytes(b.identity.installationId) + (UuidBytes(b.identity.generationId)
    + ([b.lifecycle.Code()] + ([BoolByte(b.deletionRequested)]
    + PrintOption(b.deletionPreparation, PrintOption(b.keyErasurePreparation,
      U64Bytes(b.head.ordinal) + (DigestBytes(b.head.digest) + t)))))))
  }

  /** Everything of a set before its checkpoint and hold lists. */
  function ParseCore(s: seq<byte>): (p: Parse<BackupSet>)
    ensures p.Got? ==> p.value.holds == map[] && p.value.checkpoints == []
  {
    var (setId, s1) :- ParseUuid(s);
    var (installationId, s2) :- ParseUuid(s1);
    var (generationId, s3) :- ParseUuid(s2);
    var (lifecycle, s4) :- ParseLifecycle(s3);
    var (deletionRequested, s5) :- ParseBool(s4);
    var (deletionPreparation, s6) :- ParseOption(s5);
    var (keyErasurePreparation, s7) :- ParseOption(s6);
    var (ordinal, s8) :- ParseU64(s7);
    var (digest, rest) :- ParseDigest(s8);
    Got(BackupSet(Identity(setId, installationId, generationId), lifecycle, deletionRequested,
                  deletionPreparation, keyErasurePreparation, ArchiveHead(ordinal, digest), [], map[]), rest)
  }

  lemma CoreParsed(s: seq<byte>)
    requires ParseCore(s).Got?
    ensures s == PrintCore(ParseCore(s).value, ParseCore(s).rest)
  {
    var s1 := ParseUuid(s).rest;
    var s2 := ParseUuid(s1).rest;
    var s3 := ParseUuid(s2).rest;
    var s4 := ParseLifecycle(s3).rest;
    var s5 := ParseBool(s4).rest;
    var s6 := ParseOption(s5).rest;
    var s7 := ParseOption(s6).rest;
    var s8 := ParseU64(s7).rest;
    UuidParsed(s);
    UuidParsed(s1);
    UuidParsed(s2);
    LifecycleParsed(s3);
    BoolParsed(s4);
    OptionParsed(s5);
    OptionParsed(s6);
    U64Parsed(s7);
    DigestParsed(s8);
  }

  lemma CorePrinted(b: BackupSet, t: seq<byte>)
    ensures ParseCore(PrintCore(b, t)) == Got(b.(checkpoints := [], holds := map[]), t)
  {
    var s8 := DigestBytes(b.head.digest) + t;
    var s7 := U64Bytes(b.head.ordinal) + s8;
    var s6 := PrintOption(b.keyErasurePreparation, s7);
    var s5 := PrintOption(b.deletionPreparation, s6);
    var s4 := [BoolByte(b.deletionRequested)] + s5;
    var s3 := [b.lifecycle.Code()] + s4;
    var s2 := UuidBytes(b.identity.generationId) + s3;
    var s1 := UuidBytes(b.identity.installationId) + s2;
    UuidPrinted(b.identity.setId, s1);
    UuidPrinted(b.identity.installationId, s2);
    UuidPrinted(b.identity.generationId, s3);
    LifecyclePrinted(b.lifecycle, s4);
    BytePrinted(BoolByte(b.deletionRequested), s5);
    OptionPrinted(b.deletionPreparation, s6);
    OptionPrinted(b.keyErasurePreparation, s7);
    U64Printed(b.head.ordinal, s8);
    DigestPrinted(b.head.digest, t);
  }

  function PrintSet(l: Listing, t: seq<byte>): seq<byte> {
    PrintCore(l.core, PrintList(l.core.checkpoints, PrintCheckpoint, PrintList(l.holds, PrintHold, t)))
  }

  function ParseSet(dg: Digester, s: seq<byte>): Parse<Listing> {
    var (core, s1) :- ParseCore(s);
    var (checkpoints, s2) :- ParseList(s1, ParseCheckpointField);
    var b := core.(checkpoints := checkpoints);
    if !CoreOk(dg, b) then Bad else
      var (holds, rest) :- ParseList(s2, ParseHold);
      if DistinctKeys(holds, HoldKey) then Got(Listing(b, holds), rest) else Bad
  }

  lemma SetPrinted(dg: Digester, l: Listing, t: seq<byte>)
    requires ListingOk(dg, l)
    ensures ParseSet(dg, PrintSet(l, t)) == Got(l, t)
  {
    var s2 := PrintList(l.holds, PrintHold, t);
    CorePrinted(l.core, PrintList(l.core.checkpoints, PrintCheckpoint, s2));
    CheckpointsPrinted(l.core.checkpoints, s2);
    HoldsPrinted(l.holds, t);
  }

  /** The core is printed before the lists, which it does not read. */
  lemma CoreIgnoresLists(core: BackupSet, cs: seq<Checkpoint>, t: seq<byte>)
    ensures PrintCore(core.(checkpoints := cs), t) == PrintCore(core, t)
  {
  }

  lemma SetParsedParts(dg: Digester, s: seq<byte>)
    requires ParseSet(dg, s).Got?
    ensures ParseCore(s).Got? && ParseList(ParseCore(s).rest, ParseCheckpointField).Got?
    ensures var cs := ParseList(ParseCore(s).rest, ParseCheckpointField);
            var hs := ParseList(cs.rest, ParseHold);
            hs.Got? && ParseSet(dg, s) == Got(Listing(ParseCore(s).value.(checkpoints := cs.value), hs.value), hs.rest)
  {
  }

  lemma SetParsedPrints(dg: Digester, s: seq<byte>)
    requires ParseSet(dg, s).Got?
    ensures s == PrintSet(ParseSet(dg, s).value, ParseSet(dg, s).rest)
  {
    SetParsedParts(dg, s);
    var core, s1 := ParseCore(s).value, ParseCore(s).rest;
    var cs, s2 := ParseList(s1, ParseCheckpointField).value, ParseList(s1, ParseCheckpointField).rest;
    CoreParsed(s);
    CheckpointsParsed(s1);
    HoldsParsed(s2);
    CoreIgnoresLists(core, cs, s1);
  }

  lemma SetParsedOk(dg: Digester, s: seq<byte>)
    requires ParseSet(dg, s).Got?
    ensures ListingOk(dg, ParseSet(dg, s).value)
  {
    SetParsedParts(dg, s);
    CheckpointsParsed(ParseCore(s).rest);
  }

  lemma PartsAreLong(s: seq<byte>)
    requires ParseCore(s).Got?
    ensures |s| >= 92 + |ParseCore(s).rest|
  {
    CoreParsed(s);
  }

  lemma ListsAreLong(s: seq<byte>)
    requires ParseList(s, ParseCheckpointField).Got?
    requires ParseList(ParseList(s, ParseCheckpointField).rest, ParseHold).Got?
    ensures |s| >= 16 + |ParseList(ParseList(s, ParseCheckpointField).rest, ParseHold).rest|
  {
    CheckpointsParsed(s);
    HoldsParsed(ParseList(s, ParseCheckpointField).rest);
  }

  lemma SetParsedLong(dg: Digester, s: seq<byte>)
    requires ParseSet(dg, s).Got?
    ensures |s| >= 108 + |ParseSet(dg, s).rest|
  {
    SetParsedParts(dg, s);
    PartsAreLong(s);
    ListsAreLong(ParseCore(s).rest);
  }

  lemma SetParsed(dg: Digester, s: seq<byte>)
    requires ParseSet(dg, s).Got?
    ensures ListingOk(dg, ParseSet(dg, s).value)
    ensures s == PrintSet(ParseSet(dg, s).value, ParseSet(dg, s).rest)
    ensures |s| >= 108 + |ParseSet(dg, s).rest|
  {
    SetParsedPrints(dg, s);
    SetParsedOk(dg, s);
    SetParsedLong(dg, s);
  }

  // ----- ordered maps and their listings

  function HoldKey(x: RestoreHold): Uuid { x.id }

  function SetKey(b: BackupSet): Uuid { b.identity.setId }

  predicate DistinctKeys<T(!new)>(xs: seq<T>, key: T -> Uuid) {
    forall i, j :: 0 <= i < j < |xs| ==> key(xs[i]) != key(xs[j])
  }

  function Keys<T>(xs: seq<T>, key: T -> Uuid): (ks: seq<Uuid>)
    ensures |ks| == |xs| && forall i :: 0 <= i < |xs| ==> ks[i] == key(xs[i])
  {
    seq(|xs|, i requires 0 <= i < |xs| => key(xs[i]))
  }

  /** The map left by inserting the elements one after another. */
  function Inserted<T>(xs: seq<T>, key: T -> Uuid): map<Uuid, T> {
    if xs == [] then map[] else
      var n := |xs| - 1;
      Inserted(xs[..n], key)[key(xs[n]) := xs[n]]
  }

  /** The values of a map in the order it is iterated. */
  function Values<T>(m: map<Uuid, T>): (xs: seq<T>)
    ensures |xs| == |m|
  {
    var ks := SortedKeys(m.Keys);
    seq(|ks|, i requires 0 <= i < |ks| => assert ks[i] in ks; m[ks[i]])
  }

  lemma ValuesElement<T>(m: map<Uuid, T>, i: nat) returns (k: Uuid)
    requires i < |Values(m)|
    ensures k in m && Values(m)[i] == m[k]
  {
    k := SortedKeys(m.Keys)[i];
    assert k in SortedKeys(m.Keys);
  }

  lemma {:induction false} InsertedContents<T(!new)>(xs: seq<T>, key: T -> Uuid)
    requires DistinctKeys(xs, key)
    ensures forall i :: 0 <= i < |xs| ==> key(xs[i]) in Inserted(xs, key) && Inserted(xs, key)[key(xs[i])] == xs[i]
    ensures forall k: Uuid :: k in Inserted(xs, key) <==> k in Keys(xs, key)
    decreases |xs|
  {
    if xs != [] {
      var n := |xs| - 1;
      InsertedContents(xs[..n], key);
      forall k: Uuid ensures k in Inserted(xs, key) <==> k in Keys(xs, key) {
        assert Keys(xs, key) == Keys(xs[..n], key) + [key(xs[n])];
      }
    }
  }

  /** Every entry of the map is one of the inserted elements, under its own key. */
  lemma InsertedElement<T(!new)>(xs: seq<T>, key: T -> Uuid, k: Uuid) returns (j: nat)
    requires DistinctKeys(xs, key) && k in Inserted(xs, key)
    ensures j < |xs| && key(xs[j]) == k && Inserted(xs, key)[k] == xs[j]
  {
    InsertedContents(xs, key);
    j :| 0 <= j < |xs| && Keys(xs, key)[j] == k;
  }

  lemma {:induction false} InsertedSize<T>(xs: seq<T>, key: T -> Uuid)
    ensures |Inserted(xs, key)| <= |xs|
    decreases |xs|
  {
    if xs != [] {
      var n := |xs| - 1;
      InsertedSize(xs[..n], key);
      var m := Inserted(xs[..n], key);
      assert Inserted(xs, key).Keys == m.Keys + {key(xs[n])};
    }
  }

  lemma ValuesOfInserted<T(!new)>(xs: seq<T>, key: T -> Uuid)
    requires Ascending(Keys(xs, key))
    ensures DistinctKeys(xs, key)
    ensures Values(Inserted(xs, key)) == xs
  {
    var ks := Keys(xs, key);
    assert DistinctKeys(xs, key) by {
      forall i, j | 0 <= i < j < |xs| ensures key(xs[i]) != key(xs[j]) { assert ks[i] < ks[j]; }
    }
    InsertedContents(xs, key);
    AscendingUnique(SortedKeys(Inserted(xs, key).Keys), ks);
  }

  lemma InsertedAlong<T(!new)>(m: map<Uuid, T>, ks: seq<Uuid>, xs: seq<T>, key: T -> Uuid)
    requires |ks| == |xs| && DistinctKeys(xs, key)
    requires forall i :: 0 <= i < |ks| ==> ks[i] in m && xs[i] == m[ks[i]] && key(xs[i]) == ks[i]
    requires forall k: Uuid :: k in m ==> k in ks
    ensures Inserted(xs, key) == m
  {
    InsertedContents(xs, key);
    assert Keys(xs, key) == ks;
    var m' := Inserted(xs, key);
    forall k: Uuid | k in m ensures k in m' && m'[k] == m[k] {
      var i :| 0 <= i < |ks| && ks[i] == k;
      assert m'[key(xs[i])] == xs[i];
    }
    assert m'.Keys == m.Keys;
  }

  lemma InsertedOfValues<T(!new)>(m: map<Uuid, T>, key: T -> Uuid)
    requires forall k: Uuid :: k in m ==> key(m[k]) == k
    ensures Ascending(Keys(Values(m), key)) && DistinctKeys(Values(m), key)
    ensures Inserted(Values(m), key) == m
  {
    var ks := SortedKeys(m.Keys);
    var xs := Values(m);
    forall i | 0 <= i < |ks| ensures ks[i] in m && xs[i] == m[ks[i]] && key(xs[i]) == ks[i] {
      assert ks[i] in ks;
    }
    assert Keys(xs, key) == ks;
    ValuesOfInserted(xs, key);
    InsertedAlong(m, ks, xs, key);
  }
}
