/** Which inputs make the decoder ask for more room than there is. */
module ArchiveCapacity {
  import opened Bytes
  import opened Wrappers
  import opened Archive
  import opened ArchiveCodec
  import opened ArchiveStateCodec
  import opened ArchiveRoundTrip
  import opened ArchiveDecoder

  // ----- no accepted input

  lemma CheckpointFieldIsLong(s: seq<byte>)
    requires ParseCheckpointField(s).Got?
    ensures |s| >= 215 + |ParseCheckpointField(s).rest|
  {
    CheckpointFieldParsed(s);
  }

  lemma CheckpointsAreLong(s: seq<byte>)
    requires ParseList(s, ParseCheckpointField).Got?
    ensures ParseU64(s).Got? && 215 * ParseU64(s).value <= |s|
  {
    forall u | ParseCheckpointField(u).Got? ensures |u| >= 215 + |ParseCheckpointField(u).rest| {
      CheckpointFieldIsLong(u);
    }
    AllAreLong(ParseU64(s).rest, ParseU64(s).value, 215, ParseCheckpointField);
  }

  /** A set that is accepted took at least 215 bytes for each checkpoint it counted. */
  lemma ParsedCountIsSmall(dg: Digester, s: seq<byte>)
    requires ParseSet(dg, s).Got?
    ensures CountAt(s).Some? && 215 * CountAt(s).value <= |s|
  {
    CoreParsed(s);
    CheckpointsAreLong(ParseCore(s).rest);
    CoreIsShorter(s);
  }

  lemma CoreIsShorter(s: seq<byte>)
    requires ParseCore(s).Got?
    ensures |ParseCore(s).rest| <= |s|
  {
    CoreParsed(s);
  }

  ghost predicate Shrinks<T>(one: seq<byte> -> Parse<T>) {
    forall u :: one(u).Got? ==> |one(u).rest| <= |u|
  }

  /** When the whole list is read, every element that was begun was read, from somewhere in the input. */
  lemma {:induction false} BegunIsRead<T>(sofar: map<Uuid, T>, s: seq<byte>, n: nat, one: seq<byte> -> Parse<T>,
                                          key: T -> Uuid, u: seq<byte>)
    requires Shrinks(one) && InsertAll(sofar, s, n, one, key).Got? && u in Begun(sofar, s, n, one, key)
    ensures one(u).Got? && |u| <= |s|
    decreases n
  {
    if n > 0 && u != s {
      var x, rest := one(s).value, one(s).rest;
      assert u in Begun(sofar[key(x) := x], rest, n - 1, one, key);
      BegunIsRead(sofar[key(x) := x], rest, n - 1, one, key, u);
    }
  }

  lemma SetReaderShrinks(dg: Digester)
    ensures Shrinks(SetReader(SetParser(dg)))
  {
    SetParserParsed(dg);
  }

  /** In an accepted input no set counts more checkpoints than a 215th of the input's bytes. */
  lemma AcceptedCountsAreSmall(dg: Digester, bytes: seq<byte>, u: seq<byte>)
    requires FromCanonicalBytes(dg, bytes).Ok? && u in SetsBegun(SetReader(SetParser(dg)), bytes)
    ensures CountAt(u).Some? && 215 * CountAt(u).value <= |bytes|
  {
    var one := SetParser(dg);
    StateByParts(one, bytes);
    SetReaderShrinks(dg);
    BegunIsRead(map[], ParseU64(bytes[1..]).rest, ParseU64(bytes[1..]).value, SetReader(one), SetKey, u);
    U64Parsed(bytes[1..]);
    ParsedCountIsSmall(dg, u);
  }

  lemma WidensProduct(a: nat, b: nat, c: nat)
    requires a <= b
    ensures a * c <= b * c
  {
  }

  /** Where a checkpoint takes no more room in memory than the 215 bytes it took in the input, memory that holds the
      input has room for every checkpoint an accepted input counts, so the decoder never panics on one. */
  lemma AcceptedNeverPanics(dg: Digester, bytes: seq<byte>, memory: nat, size: nat, capacity: nat)
    requires FromCanonicalBytes(dg, bytes).Ok? && |bytes| <= memory
    requires size <= 215 && memory < size * (capacity + 1)
    ensures CountsFit(dg, capacity, bytes)
  {
    WidensProduct(size, 215, capacity + 1);
    forall u | u in SetsBegun(SetReader(SetParser(dg)), bytes) ensures !Bursts(capacity, u) {
      AcceptedCountsAreSmall(dg, bytes, u);
    }
  }

  // ----- a refused one

  /** The version, one set, its fields up to the checkpoint count, and the count; nothing after it. */
  function Truncated(b: BackupSet, count: u64): seq<byte> {
    [ARCHIVE_STATE_VERSION] + (U64Bytes(1) + PrintCore(b, U64Bytes(count)))
  }

  lemma TruncatedSet(b: BackupSet, count: u64)
    ensures CountAt(PrintCore(b, U64Bytes(count))) == Some(count)
  {
    CorePrinted(b, U64Bytes(count));
    assert U64Bytes(count) + [] == U64Bytes(count);
    U64Printed(count, []);
  }

  lemma TruncatedBegins(one: seq<byte> -> Parse<BackupSet>, b: BackupSet, count: u64)
    ensures PrintCore(b, U64Bytes(count)) in SetsBegun(one, Truncated(b, count))
  {
    var s := PrintCore(b, U64Bytes(count));
    assert Truncated(b, count)[1..] == U64Bytes(1) + s;
    U64Printed(1, s);
    assert s in Begun(map[], s, 1, one, SetKey);
  }

  lemma NothingToRead(s: seq<byte>)
    requires s == []
    ensures ParseCheckpointField(s).Bad?
  {
  }

  /** It is no state, but for any count beyond capacity the decoder panics on it instead of refusing it. */
  lemma HugeCountPanics(dg: Digester, b: BackupSet, count: u64, capacity: nat)
    requires count > capacity
    ensures FromCanonicalBytes(dg, Truncated(b, count)) == Err(Malformed)
    ensures !CountsFit(dg, capacity, Truncated(b, count))
  {
    var bytes, u := Truncated(b, count), PrintCore(b, U64Bytes(count));
    TruncatedSet(b, count);
    TruncatedBegins(SetReader(SetParser(dg)), b, count);
    assert Bursts(capacity, u);
    TruncatedIsRefused(dg, b, count);
  }

  lemma TruncatedIsRefused(dg: Digester, b: BackupSet, count: u64)
    requires count > 0
    ensures FromCanonicalBytes(dg, Truncated(b, count)) == Err(Malformed)
  {
    var bytes, u := Truncated(b, count), PrintCore(b, U64Bytes(count));
    if FromCanonicalBytes(dg, bytes).Ok? {
      TruncatedBegins(SetReader(SetParser(dg)), b, count);
      TruncatedCannotParse(dg, b, count);
      StateByParts(SetParser(dg), bytes);
      SetReaderShrinks(dg);
      BegunIsRead(map[], ParseU64(bytes[1..]).rest, ParseU64(bytes[1..]).value, SetReader(SetParser(dg)), SetKey, u);
    }
  }

  lemma TruncatedCannotParse(dg: Digester, b: BackupSet, count: u64)
    requires count > 0
    ensures ParseSet(dg, PrintCore(b, U64Bytes(count))).Bad?
  {
    CorePrinted(b, U64Bytes(count));
    assert U64Bytes(count) + [] == U64Bytes(count);
    U64Printed(count, []);
    NothingToRead([]);
    assert ParseAll([], count, ParseCheckpointField).Bad?;
  }
}
