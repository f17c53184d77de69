/** The encoder as the program runs it: one growing buffer, filled set by set in map order. */
module ArchiveEncoder {
  import opened Bytes
  import opened Wrappers
  import opened Archive
  import opened ArchiveCodec
  import opened ArchiveStateCodec
  import opened ArchiveRoundTrip

  // ----- a printer only ever appends

  ghost predicate Appends<T(!new)>(print1: (T, seq<byte>) -> seq<byte>) {
    forall x, u :: print1(x, u) == print1(x, []) + u
  }

  lemma {:induction false} AllAppends<T(!new)>(xs: seq<T>, print1: (T, seq<byte>) -> seq<byte>, t: seq<byte>)
    requires Appends(print1)
    ensures PrintAll(xs, print1, t) == PrintAll(xs, print1, []) + t
    decreases |xs|
  {
    if xs != [] {
      AllAppends(xs[1..], print1, t);
      var rest := PrintAll(xs[1..], print1, []);
      assert print1(xs[0], rest + t) == print1(xs[0], []) + (rest + t);
      assert print1(xs[0], rest) == print1(xs[0], []) + rest;
    }
  }

  lemma {:induction false} AllSplit<T(!new)>(a: seq<T>, b: seq<T>, print1: (T, seq<byte>) -> seq<byte>, t: seq<byte>)
    ensures PrintAll(a + b, print1, t) == PrintAll(a, print1, PrintAll(b, print1, t))
    decreases |a|
  {
    if a == [] {
      assert a + b == b;
    } else {
      assert (a + b)[1..] == a[1..] + b;
      AllSplit(a[1..], b, print1, t);
    }
  }

  lemma OneMore<T(!new)>(xs: seq<T>, i: nat, print1: (T, seq<byte>) -> seq<byte>)
    requires Appends(print1) && i < |xs|
    ensures PrintAll(xs[..i + 1], print1, []) == PrintAll(xs[..i], print1, []) + print1(xs[i], [])
  {
    assert xs[..i + 1] == xs[..i] + [xs[i]];
    AllSplit(xs[..i], [xs[i]], print1, []);
    assert PrintAll([xs[i]], print1, []) == print1(xs[i], []);
    AllAppends(xs[..i], print1, print1(xs[i], []));
  }

  /** The buffer before the loop, after one more round, and at the end. */
  lemma Started<T(!new)>(out: seq<byte>, xs: seq<T>, print1: (T, seq<byte>) -> seq<byte>)
    ensures out + LengthBytes(|xs|) == out + (LengthBytes(|xs|) + PrintAll(xs[..0], print1, []))
  {
  }

  lemma Grown<T(!new)>(out: seq<byte>, xs: seq<T>, i: nat, print1: (T, seq<byte>) -> seq<byte>)
    requires Appends(print1) && i < |xs|
    ensures out + (LengthBytes(|xs|) + PrintAll(xs[..i], print1, [])) + print1(xs[i], [])
         == out + (LengthBytes(|xs|) + PrintAll(xs[..i + 1], print1, []))
  {
    OneMore(xs, i, print1);
    Assoc(LengthBytes(|xs|), PrintAll(xs[..i], print1, []), print1(xs[i], []));
    Assoc(out, LengthBytes(|xs|) + PrintAll(xs[..i], print1, []), print1(xs[i], []));
  }

  lemma ListAppends<T(!new)>(xs: seq<T>, print1: (T, seq<byte>) -> seq<byte>, t: seq<byte>)
    requires Appends(print1)
    ensures PrintList(xs, print1, t) == PrintList(xs, print1, []) + t
  {
    AllAppends(xs, print1, t);
  }

  lemma Assoc(a: seq<byte>, b: seq<byte>, c: seq<byte>)
    ensures a + (b + c) == (a + b) + c
  {
  }

  lemma Empty(a: seq<byte>)
    ensures a + [] == a
  {
  }

  lemma FieldAppends(b: seq<byte>, t: seq<byte>)
    requires |b| <= U64_MAX
    ensures PrintField(b, t) == U64Bytes(|b|) + b + t
  {
  }

  lemma CheckpointAppends()
    ensures Appends(PrintCheckpoint)
  {
  }

  lemma HoldParts(x: RestoreHold, t: seq<byte>)
    ensures PrintHold(x, t)
         == UuidBytes(x.id) + [BoolByte(x.released.Some?)]
            + ReasonBytes(x) + t
  {
  }

  function ReasonBytes(x: RestoreHold): seq<byte> {
    if x.released.Some? then [ReasonKind(x.released.value)] + DigestBytes(x.released.value.receipt) else []
  }

  /** A hold as the encoder assembles it. */
  lemma HoldAssembled(out: seq<byte>, x: RestoreHold)
    ensures out + UuidBytes(x.id) + [BoolByte(x.released.Some?)] + ReasonBytes(x) == out + PrintHold(x, [])
    ensures x.released.None? ==> out + UuidBytes(x.id) + [BoolByte(x.released.Some?)] == out + PrintHold(x, [])
  {
    HoldParts(x, []);
    Empty(UuidBytes(x.id) + [BoolByte(x.released.Some?)] + ReasonBytes(x));
    Assoc(out, UuidBytes(x.id), [BoolByte(x.released.Some?)]);
    Assoc(out, UuidBytes(x.id) + [BoolByte(x.released.Some?)], ReasonBytes(x));
    Empty(out + UuidBytes(x.id) + [BoolByte(x.released.Some?)]);
  }

  lemma HoldAppends()
    ensures Appends(PrintHold)
  {
  }

  lemma OptionAppends(d: Option<Digest>, t: seq<byte>)
    ensures PrintOption(d, t) == PrintOption(d, []) + t
    ensures PrintOption(d, []) == [BoolByte(d.Some?)] + (if d.Some? then DigestBytes(d.value) else [])
  {
  }

  function CoreStart(b: BackupSet): seq<byte> {
    UuidBytes(b.identity.setId) + UuidBytes(b.identity.installationId) + UuidBytes(b.identity.generationId)
    + [b.lifecycle.Code()] + [BoolByte(b.deletionRequested)]
  }

  function CoreEnd(b: BackupSet): seq<byte> {
    PrintOption(b.deletionPreparation, []) + PrintOption(b.keyErasurePreparation, [])
    + U64Bytes(b.head.ordinal) + DigestBytes(b.head.digest)
  }

  function CoreBytes(b: BackupSet): seq<byte> {
    CoreStart(b) + CoreEnd(b)
  }

  lemma CoreParts(b: BackupSet, t: seq<byte>)
    ensures PrintCore(b, t) == CoreBytes(b) + t
  {
    var end := PrintOption(b.deletionPreparation, PrintOption(b.keyErasurePreparation,
                 U64Bytes(b.head.ordinal) + (DigestBytes(b.head.digest) + t)));
    CoreStarts(b, end);
    CoreEnds(b, t);
    Assoc(CoreStart(b), CoreEnd(b), t);
  }

  lemma CoreEnds(b: BackupSet, t: seq<byte>)
    ensures PrintOption(b.deletionPreparation, PrintOption(b.keyErasurePreparation,
              U64Bytes(b.head.ordinal) + (DigestBytes(b.head.digest) + t))) == CoreEnd(b) + t
  {
    var ordinal, digest := U64Bytes(b.head.ordinal), DigestBytes(b.head.digest);
    var prepared, erased := PrintOption(b.deletionPreparation, []), PrintOption(b.keyErasurePreparation, []);
    OptionAppends(b.keyErasurePreparation, ordinal + (digest + t));
    OptionAppends(b.deletionPreparation, erased + (ordinal + (digest + t)));
    Suffixed4(prepared, erased, ordinal, digest, t);
  }

  lemma CoreStarts(b: BackupSet, t: seq<byte>)
    ensures UuidBytes(b.identity.setId) + (UuidBytes(b.identity.installationId) + (UuidBytes(b.identity.generationId)
            + ([b.lifecycle.Code()] + ([BoolByte(b.deletionRequested)] + t)))) == CoreStart(b) + t
  {
    Suffixed4(UuidBytes(b.identity.setId), UuidBytes(b.identity.installationId), UuidBytes(b.identity.generationId),
              [b.lifecycle.Code()], [BoolByte(b.deletionRequested)] + t);
    Assoc(UuidBytes(b.identity.setId) + UuidBytes(b.identity.installationId) + UuidBytes(b.identity.generationId)
          + [b.lifecycle.Code()], [BoolByte(b.deletionRequested)], t);
  }

  lemma Suffixed4(a: seq<byte>, b: seq<byte>, c: seq<byte>, d: seq<byte>, t: seq<byte>)
    ensures a + (b + (c + (d + t))) == a + b + c + d + t
  {
  }

  lemma Prefixed4(out: seq<byte>, a: seq<byte>, b: seq<byte>, c: seq<byte>, d: seq<byte>)
    ensures out + a + b + c + d == out + (a + b + c + d)
  {
  }

  lemma Prefixed(out: seq<byte>, a: seq<byte>, b: seq<byte>, c: seq<byte>, d: seq<byte>, e: seq<byte>)
    ensures out + a + b + c + d + e == out + (a + b + c + d + e)
  {
  }

  lemma CoreAppends(b: BackupSet, t: seq<byte>)
    ensures PrintCore(b, t) == PrintCore(b, []) + t
  {
    CoreParts(b, t);
    CoreParts(b, []);
    Empty(CoreBytes(b));
  }

  lemma SetAppends()
    ensures Appends(PrintSet)
  {
    forall l: Listing, t ensures PrintSet(l, t) == PrintSet(l, []) + t {
      SetAppended(l, t);
    }
  }

  lemma SetAppended(l: Listing, t: seq<byte>)
    ensures PrintSet(l, t) == PrintSet(l, []) + t
  {
    SetParts(l, t);
    SetParts(l, []);
    Empty(SetBytes(l));
  }

  function SetBytes(l: Listing): seq<byte> {
    PrintCore(l.core, []) + PrintList(l.core.checkpoints, PrintCheckpoint, []) + PrintList(l.holds, PrintHold, [])
  }

  lemma SetParts(l: Listing, t: seq<byte>)
    ensures PrintSet(l, t) == SetBytes(l) + t
  {
    CheckpointAppends();
    HoldAppends();
    var core, cs, hs := PrintCore(l.core, []), PrintList(l.core.checkpoints, PrintCheckpoint, []), PrintList(l.holds,
                                  PrintHold, []);
    ListAppends(l.holds, PrintHold, t);
    ListAppends(l.core.checkpoints, PrintCheckpoint, hs + t);
    CoreAppends(l.core, cs + (hs + t));
    Assoc(core, cs, hs + t);
    Assoc(core + cs, hs, t);
  }

  // ----- the encoder
  // Like the decoder's loops, these are proved for any function equal to the element printer.

  ghost predicate Prints<T(!new)>(one: (T, seq<byte>) -> seq<byte>, print1: (T, seq<byte>) -> seq<byte>) {
    && Appends(one)
    && forall x {:trigger print1(x, [])} :: one(x, []) == print1(x, [])
  }

  method EncodeHold(out: seq<byte>, x: RestoreHold, ghost one: (RestoreHold, seq<byte>) -> seq<byte>)
    returns (r: seq<byte>)
    requires Prints(one, PrintHold)
    ensures r == out + one(x, [])
  {
    r := out + UuidBytes(x.id) + [BoolByte(x.released.Some?)];
    if x.released.Some? {
      Assoc(r, [ReasonKind(x.released.value)], DigestBytes(x.released.value.receipt));
      r := r + [ReasonKind(x.released.value)] + DigestBytes(x.released.value.receipt);
    }
    HoldAssembled(out, x);
  }

  method EncodeOption(out: seq<byte>, d: Option<Digest>) returns (r: seq<byte>)
    ensures r == out + PrintOption(d, [])
  {
    OptionAppends(d, []);
    r := out + [BoolByte(d.Some?)];
    if d.Some? {
      r := r + DigestBytes(d.value);
    }
  }

  method EncodeStart(out: seq<byte>, b: BackupSet) returns (r: seq<byte>)
    ensures r == out + CoreStart(b)
  {
    r := out + UuidBytes(b.identity.setId) + UuidBytes(b.identity.installationId) + UuidBytes(b.identity.generationId)
         + [b.lifecycle.Code()] + [BoolByte(b.deletionRequested)];
    Prefixed(out, UuidBytes(b.identity.setId), UuidBytes(b.identity.installationId), UuidBytes(b.identity.generationId),
             [b.lifecycle.Code()], [BoolByte(b.deletionRequested)]);
  }

  method EncodeEnd(out: seq<byte>, b: BackupSet) returns (r: seq<byte>)
    ensures r == out + CoreEnd(b)
  {
    r := EncodeOption(out, b.deletionPreparation);
    r := EncodeOption(r, b.keyErasurePreparation);
    r := r + U64Bytes(b.head.ordinal) + DigestBytes(b.head.digest);
    Prefixed4(out, PrintOption(b.deletionPreparation, []), PrintOption(b.keyErasurePreparation, []),
              U64Bytes(b.head.ordinal), DigestBytes(b.head.digest));
  }

  method EncodeCore(out: seq<byte>, b: BackupSet) returns (r: seq<byte>)
    ensures r == out + PrintCore(b, [])
  {
    r := EncodeStart(out, b);
    r := EncodeEnd(r, b);
    Assoc(out, CoreStart(b), CoreEnd(b));
    CoreParts(b, []);
    assert CoreStart(b) + CoreEnd(b) + [] == CoreStart(b) + CoreEnd(b);
  }

  method EncodeCheckpoint(out: seq<byte>, c: Checkpoint, ghost one: (Checkpoint, seq<byte>) -> seq<byte>)
    returns (r: seq<byte>)
    requires Prints(one, PrintCheckpoint)
    ensures r == out + one(c, [])
  {
    var bytes := CheckpointBytes(c);
    r := out + U64Bytes(|bytes|) + bytes;
    FieldAppends(bytes, []);
    assert r == out + PrintCheckpoint(c, []);
  }

  method EncodeCheckpoints(out: seq<byte>, cs: seq<Checkpoint>, ghost one: (Checkpoint, seq<byte>) -> seq<byte>)
    returns (r: seq<byte>)
    requires Prints(one, PrintCheckpoint)
    ensures r == out + PrintList(cs, one, [])
  {
    Started(out, cs, one);
    r := out + LengthBytes(|cs|);
    for i := 0 to |cs|
      invariant r == out + (LengthBytes(|cs|) + PrintAll(cs[..i], one, []))
    {
      Grown(out, cs, i, one);
      r := EncodeCheckpoint(r, cs[i], one);
    }
    assert cs[..|cs|] == cs;
  }

  method EncodeHolds(out: seq<byte>, xs: seq<RestoreHold>, ghost one: (RestoreHold, seq<byte>) -> seq<byte>)
    returns (r: seq<byte>)
    requires Prints(one, PrintHold)
    ensures r == out + PrintList(xs, one, [])
  {
    Started(out, xs, one);
    r := out + LengthBytes(|xs|);
    for i := 0 to |xs|
      invariant r == out + (LengthBytes(|xs|) + PrintAll(xs[..i], one, []))
    {
      Grown(out, xs, i, one);
      r := EncodeHold(r, xs[i], one);
    }
    assert xs[..|xs|] == xs;
  }

  method EncodeParts(out: seq<byte>, b: BackupSet, holds: seq<RestoreHold>,
                     ghost oneCheckpoint: (Checkpoint, seq<byte>) -> seq<byte>,
                     ghost oneHold: (RestoreHold, seq<byte>) -> seq<byte>)
    returns (r: seq<byte>)
    requires Prints(oneCheckpoint, PrintCheckpoint) && Prints(oneHold, PrintHold)
    ensures r == out + (PrintCore(b, []) + PrintList(b.checkpoints, oneCheckpoint, []) + PrintList(holds, oneHold, []))
  {
    r := EncodeCore(out, b);
    r := EncodeCheckpoints(r, b.checkpoints, oneCheckpoint);
    r := EncodeHolds(r, holds, oneHold);
    Assoc(out, PrintCore(b, []), PrintList(b.checkpoints, oneCheckpoint, []));
    Assoc(out, PrintCore(b, []) + PrintList(b.checkpoints, oneCheckpoint, []), PrintList(holds, oneHold, []));
  }

  method EncodeSet(out: seq<byte>, l: Listing, ghost one: (Listing, seq<byte>) -> seq<byte>) returns (r: seq<byte>)
    requires Prints(one, PrintSet)
    ensures r == out + one(l, [])
  {
    CheckpointAppends();
    HoldAppends();
    r := EncodeParts(out, l.core, l.holds, PrintCheckpoint, PrintHold);
    assert r == out + SetBytes(l);
    SetParts(l, []);
  }

  method EncodeSets(out: seq<byte>, ls: seq<Listing>, ghost one: (Listing, seq<byte>) -> seq<byte>)
    returns (r: seq<byte>)
    requires Prints(one, PrintSet)
    ensures r == out + PrintList(ls, one, [])
  {
    Started(out, ls, one);
    r := out + LengthBytes(|ls|);
    for i := 0 to |ls|
      invariant r == out + (LengthBytes(|ls|) + PrintAll(ls[..i], one, []))
    {
      Grown(out, ls, i, one);
      r := EncodeSet(r, ls[i], one);
    }
    assert ls[..|ls|] == ls;
  }

  /** The whole encoder computes the specification, taking the sets and each set's holds in map order. */
  method Encode(s: State) returns (out: seq<byte>)
    ensures out == CanonicalBytes(s)
  {
    SetAppends();
    out := EncodeSets([ARCHIVE_STATE_VERSION], Listings(Values(s.sets)), PrintSet);
  }
}
