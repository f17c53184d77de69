/** The decoder as the program runs it: a cursor over the bytes, and loops that fill maps as they read. */
module ArchiveDecoder {
  import opened Bytes
  import opened Wrappers
  import opened Archive
  import opened ArchiveCodec
  import opened ArchiveStateCodec
  import opened ArchiveRoundTrip

  /** Why a call has no value: the bytes are refused as malformed, or a request for memory cannot be met. The program
      returns the first and panics on the second. */
  datatype Stop = Refused | CapacityOverflow

  /** A call returned what the parser says of the bytes it started from, and left the cursor where it says. */
  ghost predicate Agrees<T>(p: Parse<T>, r: Result<T, Stop>, rest: seq<byte>) {
    match p
    case Got(v, s) => r == Ok(v) && rest == s
    case Bad => r == Err(Refused)
  }

  /** The same, unless the call had to panic. */
  ghost predicate AgreesUnless<T>(panics: bool, p: Parse<T>, r: Result<T, Stop>, rest: seq<byte>) {
    if panics then r == Err(CapacityOverflow) else Agrees(p, r, rest)
  }

  // ----- requests for memory

  /** The checkpoint count of the set that begins here, if the decoder gets as far as reading it. */
  function CountAt(s: seq<byte>): Option<nat> {
    if ParseCore(s).Bad? || ParseU64(ParseCore(s).rest).Bad? then None else Some(ParseU64(ParseCore(s).rest).value)
  }

  /** Room for that many checkpoints is asked for before any of them is read. */
  predicate Bursts(capacity: nat, s: seq<byte>) {
    CountAt(s).Some? && CountAt(s).value > capacity
  }

  datatype Course<T> = Runs(parse: Parse<T>) | Panics

  /** Read `n` keyed elements into a map, refusing a key it has, and panicking at an element that bursts. */
  function InsertUntil<T>(sofar: map<Uuid, T>, s: seq<byte>, n: nat, one: seq<byte> -> Parse<T>,
                          bursts: seq<byte> -> bool,
                          key: T -> Uuid): Course<map<Uuid, T>>
    decreases n
  {
    if n == 0 then Runs(Got(sofar, s))
    else if bursts(s) then Panics
    else
      match one(s)
      case Bad => Runs(Bad)
      case Got(x, rest) =>
        if key(x) in sofar then Runs(Bad) else InsertUntil(sofar[key(x) := x], rest, n - 1, one, bursts, key)
  }

  /** Where each element that is read at all begins. */
  function Begun<T>(sofar: map<Uuid, T>, s: seq<byte>, n: nat, one: seq<byte> -> Parse<T>,
                    key: T -> Uuid): seq<seq<byte>>
    decreases n
  {
    if n == 0 then [] else
      [s] + match one(s)
            case Bad => []
            case Got(x, rest) => if key(x) in sofar then [] else Begun(sofar[key(x) := x], rest, n - 1, one, key)
  }

  /** Reading panics exactly when some element that is read bursts, and otherwise reads what it always did. */
  lemma {:induction false} PanicsIff<T>(
    sofar: map<Uuid, T>, s: seq<byte>, n: nat, one: seq<byte> -> Parse<T>, bursts: seq<byte> -> bool, key: T -> Uuid)
    ensures var within := forall u :: u in Begun(sofar, s, n, one, key) ==> !bursts(u);
            InsertUntil(sofar, s, n, one, bursts, key)
            == if within then Runs(InsertAll(sofar, s, n, one, key)) else Panics
    decreases n
  {
    if n > 0 {
      assert s in Begun(sofar, s, n, one, key);
      match one(s)
      case Bad =>
      case Got(x, rest) =>
        if key(x) !in sofar {
          PanicsIff(sofar[key(x) := x], rest, n - 1, one, bursts, key);
        }
    }
  }

  // ----- what the loops compute, and why their early refusals agree with it

  function IfRising(setId: Uuid, p: Parse<seq<Checkpoint>>): Parse<seq<Checkpoint>> {
    if p.Got? && Rising(p.value, setId, 0) then p else Bad
  }

  function IfDistinct<T(!new)>(p: Parse<seq<T>>, key: T -> Uuid): Parse<map<Uuid, T>> {
    if p.Got? && DistinctKeys(p.value, key) then Got(Inserted(p.value, key), p.rest) else Bad
  }

  function IfOk(dg: Digester, core: BackupSet, p: Parse<seq<Checkpoint>>): Parse<BackupSet> {
    if p.Got? && CoreOk(dg, core.(checkpoints := p.value))
    then Got(core.(checkpoints := p.value), p.rest) else Bad
  }

  function WithHolds(b: BackupSet, p: Parse<map<Uuid, RestoreHold>>): Parse<BackupSet> {
    if p.Got? then Got(b.(holds := p.value), p.rest) else Bad
  }

  function AsSet(p: Parse<Listing>): Parse<BackupSet> {
    if p.Got? then Got(SetOf(p.value), p.rest) else Bad
  }

  function ParseBody(dg: Digester, s: seq<byte>): Parse<BackupSet> {
    var (core, s1) :- ParseCore(s);
    var (n, s2) :- ParseU64(s1);
    IfOk(dg, core, RiseAll([], 0, s2, n, ParseCheckpointField, core.identity.setId))
  }

  lemma BodyByParts(dg: Digester, s: seq<byte>)
    ensures ParseBody(dg, s)
         == if ParseCore(s).Bad? then Bad
            else IfOk(dg, ParseCore(s).value, ParseList(ParseCore(s).rest, ParseCheckpointField))
  {
    if ParseCore(s).Got? {
      var s1 := ParseCore(s).rest;
      RisesList(s1, ParseCheckpointField, ParseCore(s).value.identity.setId);
    }
  }

  lemma RisesList(s: seq<byte>, one: seq<byte> -> Parse<Checkpoint>, setId: Uuid)
    ensures IfRising(setId, ParseList(s, one))
         == if ParseU64(s).Bad? then Bad else RiseAll([], 0, ParseU64(s).rest, ParseU64(s).value, one, setId)
  {
    if ParseU64(s).Got? {
      RisesIfRising([], ParseU64(s).rest, ParseU64(s).value, one, setId);
      AfterNothing(ParseAll(ParseU64(s).rest, ParseU64(s).value, one));
    }
  }

  lemma RisenRises(s: seq<byte>, n: nat, one: seq<byte> -> Parse<Checkpoint>, setId: Uuid)
    ensures var p := RiseAll([], 0, s, n, one, setId); p.Got? ==> Rising(p.value, setId, 0)
  {
    RisesIfRising([], s, n, one, setId);
  }

  lemma InsertsList<T(!new)>(s: seq<byte>, one: seq<byte> -> Parse<T>, key: T -> Uuid)
    ensures IfDistinct(ParseList(s, one), key)
         == if ParseU64(s).Bad? then Bad else InsertAll(map[], ParseU64(s).rest, ParseU64(s).value, one, key)
  {
    if ParseU64(s).Got? {
      InsertsIfDistinct([], ParseU64(s).rest, ParseU64(s).value, one, key);
      AfterNothing(ParseAll(ParseU64(s).rest, ParseU64(s).value, one));
    }
  }

  lemma SetByParts(dg: Digester, s: seq<byte>)
    ensures AsSet(ParseSet(dg, s))
         == if ParseBody(dg, s).Bad? then Bad
            else WithHolds(ParseBody(dg, s).value, IfDistinct(ParseList(ParseBody(dg, s).rest, ParseHold), HoldKey))
  {
    BodyByParts(dg, s);
  }

  /** Read `n` keyed elements into a map that already holds some, refusing a key it has. */
  function InsertAll<T>(sofar: map<Uuid, T>, s: seq<byte>, n: nat, one: seq<byte> -> Parse<T>, key: T -> Uuid)
    : Parse<map<Uuid, T>>
    decreases n
  {
    if n == 0 then Got(sofar, s) else
      var (x, rest) :- one(s);
      if key(x) in sofar then Bad else InsertAll(sofar[key(x) := x], rest, n - 1, one, key)
  }

  /** Read `n` checkpoints of one set after some others, refusing an ordinal that does not rise. */
  function RiseAll(done: seq<Checkpoint>, previous: u64, s: seq<byte>, n: nat, one: seq<byte> -> Parse<Checkpoint>,
                   setId: Uuid): Parse<seq<Checkpoint>>
    decreases n
  {
    if n == 0 then Got(done, s) else
      var (c, rest) :- one(s);
      if c.desc.setId != setId || c.desc.ordinal <= previous then Bad
      else RiseAll(done + [c], c.desc.ordinal, rest, n - 1, one, setId)
  }

  /** Refusing a repeated key on the spot refuses exactly the lists whose keys are not distinct. */
  lemma {:induction false} InsertsIfDistinct<T(!new)>(
    done: seq<T>, s: seq<byte>, n: nat, one: seq<byte> -> Parse<T>, key: T -> Uuid)
    requires DistinctKeys(done, key)
    ensures InsertAll(Inserted(done, key), s, n, one, key) == IfDistinct(After(done, ParseAll(s, n, one)), key)
    decreases n
  {
    if n == 0 {
      assert done + [] == done;
    } else if one(s).Got? {
      var x := one(s).value;
      Stepped(done, s, n, one);
      Repeats(done, x, key);
      if key(x) in Inserted(done, key) {
        StopsDistinct(done + [x], ParseAll(one(s).rest, n - 1, one), key);
      } else {
        InsertsIfDistinct(done + [x], one(s).rest, n - 1, one, key);
      }
    }
  }

  /** Refusing a fallen ordinal on the spot refuses exactly the lists that do not rise. */
  lemma {:induction false} RisesIfRising(
    done: seq<Checkpoint>, s: seq<byte>, n: nat, one: seq<byte> -> Parse<Checkpoint>, setId: Uuid)
    requires Rising(done, setId, 0)
    ensures RiseAll(done, LastOrdinal(done, 0), s, n, one, setId) == IfRising(setId, After(done, ParseAll(s, n, one)))
    decreases n
  {
    if n == 0 {
      assert done + [] == done;
    } else if one(s).Got? {
      var c := one(s).value;
      Stepped(done, s, n, one);
      RisingSplit(done, [c], setId, 0);
      if Rising(done + [c], setId, 0) {
        RisesIfRising(done + [c], one(s).rest, n - 1, one, setId);
      } else {
        StopsRising(done + [c], ParseAll(one(s).rest, n - 1, one), setId);
      }
    }
  }

  /** Elements already read, in front of what the rest of the list parses to. */
  function After<T>(done: seq<T>, p: Parse<seq<T>>): Parse<seq<T>> {
    match p
    case Got(xs, rest) => Got(done + xs, rest)
    case Bad => Bad
  }

  lemma AfterNothing<T>(p: Parse<seq<T>>)
    ensures After([], p) == p
  {
    assert p.Bad? || [] + p.value == p.value;
  }

  lemma Stepped<T>(done: seq<T>, s: seq<byte>, n: nat, parse1: seq<byte> -> Parse<T>)
    requires n > 0
    ensures After(done, ParseAll(s, n, parse1))
         == if parse1(s).Bad? then Bad else After(done + [parse1(s).value], ParseAll(parse1(s).rest, n - 1, parse1))
  {
    if parse1(s).Got? && ParseAll(parse1(s).rest, n - 1, parse1).Got? {
      var xs := ParseAll(parse1(s).rest, n - 1, parse1).value;
      assert done + ([parse1(s).value] + xs) == (done + [parse1(s).value]) + xs;
    }
  }

  // The loops are proved for any function equal to the element parser, so that their proofs never open it.

  ghost predicate ReadsCheckpoint(one: seq<byte> -> Parse<Checkpoint>) {
    forall u {:trigger ParseCheckpointField(u)} :: one(u) == ParseCheckpointField(u)
  }

  ghost predicate ReadsHold(one: seq<byte> -> Parse<RestoreHold>) {
    forall u {:trigger ParseHold(u)} :: one(u) == ParseHold(u)
  }

  ghost predicate ReadsSet(dg: Digester, one: seq<byte> -> Parse<BackupSet>) {
    forall u {:trigger ParseSet(dg, u)} :: one(u) == AsSet(ParseSet(dg, u))
  }

  ghost predicate KnowsBursts(capacity: nat, bursts: seq<byte> -> bool) {
    forall u {:trigger Bursts(capacity, u)} :: bursts(u) == Bursts(capacity, u)
  }

  function LastOrdinal(cs: seq<Checkpoint>, previous: u64): u64 {
    if cs == [] then previous else cs[|cs| - 1].desc.ordinal
  }

  lemma {:induction false} RisingSplit(a: seq<Checkpoint>, b: seq<Checkpoint>, setId: Uuid, previous: u64)
    ensures Rising(a + b, setId, previous) <==> Rising(a, setId, previous) && Rising(b, setId, LastOrdinal(a, previous))
    decreases |a|
  {
    if a == [] {
      assert a + b == b;
    } else {
      assert (a + b)[1..] == a[1..] + b;
      RisingSplit(a[1..], b, setId, a[0].desc.ordinal);
      assert LastOrdinal(a, previous) == LastOrdinal(a[1..], a[0].desc.ordinal);
    }
  }

  lemma StopsRising(done: seq<Checkpoint>, p: Parse<seq<Checkpoint>>, setId: Uuid)
    requires !Rising(done, setId, 0)
    ensures After(done, p).Got? ==> !Rising(After(done, p).value, setId, 0)
  {
    if p.Got? {
      RisingSplit(done, p.value, setId, 0);
    }
  }

  lemma {:induction false} InsertedKeys<T>(xs: seq<T>, key: T -> Uuid, k: Uuid)
    ensures k in Inserted(xs, key) <==> exists i :: 0 <= i < |xs| && key(xs[i]) == k
    decreases |xs|
  {
    if xs != [] {
      InsertedKeys(xs[..|xs| - 1], key, k);
      assert forall i :: 0 <= i < |xs| - 1 ==> xs[..|xs| - 1][i] == xs[i];
    }
  }

  lemma DistinctNext<T(!new)>(xs: seq<T>, x: T, key: T -> Uuid)
    requires DistinctKeys(xs, key)
    ensures DistinctKeys(xs + [x], key) <==> !exists i :: 0 <= i < |xs| && key(xs[i]) == key(x)
  {
    if i :| 0 <= i < |xs| && key(xs[i]) == key(x) {
      assert key((xs + [x])[i]) == key((xs + [x])[|xs|]);
    }
  }

  lemma Repeats<T(!new)>(xs: seq<T>, x: T, key: T -> Uuid)
    requires DistinctKeys(xs, key)
    ensures DistinctKeys(xs + [x], key) <==> key(x) !in Inserted(xs, key)
    ensures Inserted(xs + [x], key) == Inserted(xs, key)[key(x) := x]
  {
    InsertedKeys(xs, key, key(x));
    DistinctNext(xs, x, key);
    assert (xs + [x])[..|xs|] == xs;
  }

  lemma StopsDistinct<T(!new)>(done: seq<T>, p: Parse<seq<T>>, key: T -> Uuid)
    requires !DistinctKeys(done, key)
    ensures After(done, p).Got? ==> !DistinctKeys(After(done, p).value, key)
  {
    if p.Got? {
      var i, j :| 0 <= i < j < |done| && key(done[i]) == key(done[j]);
      assert key((done + p.value)[i]) == key((done + p.value)[j]);
    }
  }

  function SetReader(one: seq<byte> -> Parse<Listing>): seq<byte> -> Parse<BackupSet> {
    (s: seq<byte>) => AsSet(one(s))
  }

  lemma {:induction false} AllAsSets(s: seq<byte>, n: nat, one: seq<byte> -> Parse<Listing>)
    ensures ParseAll(s, n, SetReader(one))
         == if ParseAll(s, n, one).Bad? then Bad
            else Got(Sets(ParseAll(s, n, one).value), ParseAll(s, n, one).rest)
    decreases n
  {
    if n != 0 && one(s).Got? {
      AllAsSets(one(s).rest, n - 1, one);
      if ParseAll(one(s).rest, n - 1, one).Got? {
        var ls := ParseAll(one(s).rest, n - 1, one).value;
        assert Sets([one(s).value] + ls) == [SetOf(one(s).value)] + Sets(ls);
      }
    }
  }

  /** The checks made between a set's checkpoints and its holds, in the order the decoder makes them. */
  predicate ChecksPass(dg: Digester, b: BackupSet)
    requires Rising(b.checkpoints, b.identity.setId, 0)
    ensures ChecksPass(dg, b) <==> CoreOk(dg, b)
  {
    var cs := b.checkpoints;
    && (cs != [] ==>
          && !(cs[0].desc.kind.BaseChunk? && cs[0].desc.ordinal != 1)
          && !(exists i :: 1 <= i < |cs| && cs[i].desc.kind.BaseChunk?)
          && !(!cs[0].desc.kind.BaseChunk? && exists i :: 0 <= i < |cs| && cs[i].desc.kind.BaseChunk?))
    && (cs != [] ==> b.head.ordinal == cs[|cs| - 1].desc.ordinal && b.head.digest == dg(cs[|cs| - 1]))
    && !(cs == [] && b.head.ordinal != 0)
    && b.lifecycle.Condemned() == b.deletionPreparation.Some?
    && !(b.keyErasurePreparation.Some? && b.keyErasurePreparation != b.deletionPreparation)
    && !((b.lifecycle.ArchiveKeyErased? || b.lifecycle.Deleted?) && b.keyErasurePreparation.None?)
  }

  class Decoder {
    const bytes: seq<byte>
    /** How many checkpoints there can be room for. */
    const capacity: nat
    var offset: nat

    /** The cursor never leaves the input, whose length a machine word can count. */
    ghost predicate Valid()
      reads this
    {
      offset <= |bytes| <= U64_MAX
    }

    ghost function Rest(): seq<byte>
      reads this
      requires Valid()
    {
      bytes[offset..]
    }

    constructor (input: seq<byte>, room: nat)
      requires |input| <= U64_MAX
      ensures Valid() && bytes == input && Rest() == input && capacity == room
    {
      bytes := input;
      capacity := room;
      offset := 0;
    }

    method Take(length: nat) returns (r: Result<seq<byte>, Stop>)
      requires Valid()
      modifies this
      ensures Valid()
      ensures Agrees(TakeN(old(Rest()), length), r, Rest())
      ensures r.Err? ==> offset == old(offset)
    {
      var end := offset + length;
      if end > U64_MAX || end > |bytes| {
        return Err(Refused);
      }
      r := Ok(bytes[offset..end]);
      assert Rest()[..length] == bytes[offset..end] && Rest()[length..] == bytes[end..];
      offset := end;
    }

    method U8() returns (r: Result<byte, Stop>)
      requires Valid()
      modifies this
      ensures Valid() && Agrees(ParseByte(old(Rest())), r, Rest())
    {
      var b :- Take(1);
      return Ok(b[0]);
    }

    method Bool() returns (r: Result<bool, Stop>)
      requires Valid()
      modifies this
      ensures Valid() && Agrees(ParseBool(old(Rest())), r, Rest())
    {
      var b :- U8();
      r := if b == 0 then Ok(false) else if b == 1 then Ok(true) else Err(Refused);
    }

    method U32() returns (r: Result<u32, Stop>)
      requires Valid()
      modifies this
      ensures Valid() && Agrees(ParseU32(old(Rest())), r, Rest())
    {
      Widths();
      var b :- Take(4);
      return Ok(FromBigEndian(b));
    }

    method U64() returns (r: Result<u64, Stop>)
      requires Valid()
      modifies this
      ensures Valid() && Agrees(ParseU64(old(Rest())), r, Rest())
    {
      Widths();
      var b :- Take(8);
      return Ok(FromBigEndian(b));
    }

    method UuidValue() returns (r: Result<Uuid, Stop>)
      requires Valid()
      modifies this
      ensures Valid() && Agrees(ParseUuid(old(Rest())), r, Rest())
    {
      Widths();
      var b :- Take(16);
      return Ok(FromBigEndian(b));
    }

    method DigestValue() returns (r: Result<Digest, Stop>)
      requires Valid()
      modifies this
      ensures Valid() && Agrees(ParseDigest(old(Rest())), r, Rest())
    {
      Widths();
      var b :- Take(32);
      return Ok(FromBigEndian(b));
    }

    method FieldBytes() returns (r: Result<seq<byte>, Stop>)
      requires Valid()
      modifies this
      ensures Valid() && Agrees(ParseField(old(Rest())), r, Rest())
      ensures r.Ok? ==> |r.value| <= U64_MAX
    {
      var n :- U64();
      r := Take(n);
    }

    method OptionalDigest() returns (r: Result<Option<Digest>, Stop>)
      requires Valid()
      modifies this
      ensures Valid() && Agrees(ParseOption(old(Rest())), r, Rest())
    {
      var some :- Bool();
      if some {
        var d :- DigestValue();
        return Ok(Some(d));
      }
      return Ok(None);
    }

    method LifecycleValue() returns (r: Result<Lifecycle, Stop>)
      requires Valid()
      modifies this
      ensures Valid() && Agrees(ParseLifecycle(old(Rest())), r, Rest())
    {
      var code :- U8();
      match code {
        case 0 => return Ok(Streaming);
        case 1 => return Ok(Sealing);
        case 2 => return Ok(Sealed);
        case 3 => return Ok(DeletionPrepared);
        case 4 => return Ok(ArchiveKeyErased);
        case 5 => return Ok(Deleted);
        case _ => return Err(Refused);
      }
    }

    method KindValue() returns (r: Result<ObjectKind, Stop>)
      requires Valid()
      modifies this
      ensures Valid() && Agrees(ParseKind(old(Rest())), r, Rest())
    {
      var code :- U8();
      match code {
        case 0 => return Ok(BaseChunk);
        case 1 => return Ok(WalSegment);
        case 2 => return Ok(TimelineHistory);
        case _ => return Err(Refused);
      }
    }

    method DescriptorValue() returns (r: Result<Descriptor, Stop>)
      requires Valid()
      modifies this
      ensures Valid() && Agrees(ParseDescriptor(old(Rest())), r, Rest())
    {
      var setId :- UuidValue();
      var objectId :- UuidValue();
      var kind :- KindValue();
      var ordinal :- U64();
      var timeline :- U32();
      var startLsn :- U64();
      var endLsn :- U64();
      var ciphertextDigest :- DigestValue();
      var plaintextDigest :- DigestValue();
      var length :- U64();
      var predecessor :- DigestValue();
      var d := Descriptor(setId, objectId, kind, ordinal, timeline, startLsn, endLsn,
                          ciphertextDigest, plaintextDigest, length, predecessor);
      r := if d.Valid() then Ok(d) else Err(Refused);
    }

    method Domain(expected: seq<byte>) returns (r: Result<(), Stop>)
      requires Valid()
      modifies this
      ensures Valid()
      ensures var p := ParseField(old(Rest()));
              if p.Got? && p.value == expected then r == Ok(()) && Rest() == p.rest else r == Err(Refused)
    {
      var f :- FieldBytes();
      r := if f == expected then Ok(()) else Err(Refused);
    }

    method Finish() returns (r: Result<(), Stop>)
      requires Valid()
      ensures r == if Rest() == [] then Ok(()) else Err(Refused)
    {
      r := if offset == |bytes| then Ok(()) else Err(Refused);
    }

    method CheckpointValue() returns (r: Result<Checkpoint, Stop>)
      requires Valid()
      modifies this
      ensures Valid() && Agrees(ParseCheckpoint(old(Rest())), r, Rest())
    {
      var _ :- Domain(CHECKPOINT_DOMAIN);
      var d :- DescriptorValue();
      return Ok(Checkpoint(d));
    }

    /** One checkpoint field, read through a decoder of its own that must end exactly at the field's end. */
    method CheckpointField() returns (r: Result<Checkpoint, Stop>)
      requires Valid()
      modifies this
      ensures Valid() && Agrees(ParseCheckpointField(old(Rest())), r, Rest())
    {
      var f :- FieldBytes();
      var inner := new Decoder(f, capacity);
      var c :- inner.CheckpointValue();
      var _ :- inner.Finish();
      return Ok(c);
    }

    method HoldValue() returns (r: Result<RestoreHold, Stop>)
      requires Valid()
      modifies this
      ensures Valid() && Agrees(ParseHold(old(Rest())), r, Rest())
    {
      var id :- UuidValue();
      var released :- Bool();
      if !released {
        return Ok(RestoreHold(id, None));
      }
      var kind :- U8();
      var receipt :- DigestValue();
      match kind {
        case 0 => return Ok(RestoreHold(id, Some(TargetInitializationComplete(receipt))));
        case 1 => return Ok(RestoreHold(id, Some(SourceResumePrepared(receipt))));
        case 2 => return Ok(RestoreHold(id, Some(RefusedTargetDestroyed(receipt))));
        case 3 => return Ok(RestoreHold(id, Some(SalvageInstallationCompleted(receipt))));
        case _ => return Err(Refused);
      }
    }

    /** The checkpoints of one set: room for all of them asked for, then each read and checked against the set and the
        ordinal before it. */
    method Checkpoints(setId: Uuid, n: nat, ghost one: seq<byte> -> Parse<Checkpoint>)
      returns (r: Result<seq<Checkpoint>, Stop>)
      requires Valid() && ReadsCheckpoint(one)
      modifies this
      ensures Valid() && AgreesUnless(n > capacity, RiseAll([], 0, old(Rest()), n, one, setId), r, Rest())
    {
      if n > capacity {
        return Err(CapacityOverflow);
      }
      ghost var start := Rest();
      var checkpoints, previous := [], 0;
      for i := 0 to n
        invariant Valid()
        invariant RiseAll([], 0, start, n, one, setId) == RiseAll(checkpoints, previous, Rest(), n - i, one, setId)
      {
        var c :- NextCheckpoint(one);
        if c.desc.setId != setId || c.desc.ordinal <= previous {
          return Err(Refused);
        }
        previous := c.desc.ordinal;
        checkpoints := checkpoints + [c];
      }
      return Ok(checkpoints);
    }

    method NextCheckpoint(ghost one: seq<byte> -> Parse<Checkpoint>) returns (r: Result<Checkpoint, Stop>)
      requires Valid() && ReadsCheckpoint(one)
      modifies this
      ensures Valid() && Agrees(one(old(Rest())), r, Rest())
    {
      r := CheckpointField();
    }

    /** The holds of one set, inserted as they are read; a repeated identifier is refused on the spot. */
    method Holds(n: nat, ghost one: seq<byte> -> Parse<RestoreHold>)
      returns (r: Result<map<Uuid, RestoreHold>, Stop>)
      requires Valid() && ReadsHold(one)
      modifies this
      ensures Valid() && Agrees(InsertAll(map[], old(Rest()), n, one, HoldKey), r, Rest())
    {
      ghost var start := Rest();
      var holds: map<Uuid, RestoreHold> := map[];
      for i := 0 to n
        invariant Valid()
        invariant InsertAll(map[], start, n, one, HoldKey) == InsertAll(holds, Rest(), n - i, one, HoldKey)
      {
        var x :- NextHold(one);
        if x.id in holds {
          return Err(Refused);
        }
        holds := holds[x.id := x];
      }
      return Ok(holds);
    }

    method NextHold(ghost one: seq<byte> -> Parse<RestoreHold>) returns (r: Result<RestoreHold, Stop>)
      requires Valid() && ReadsHold(one)
      modifies this
      ensures Valid() && Agrees(one(old(Rest())), r, Rest())
    {
      r := HoldValue();
    }

    method Core() returns (r: Result<BackupSet, Stop>)
      requires Valid()
      modifies this
      ensures Valid() && Agrees(ParseCore(old(Rest())), r, Rest())
    {
      var setId :- UuidValue();
      var installationId :- UuidValue();
      var generationId :- UuidValue();
      var lifecycle :- LifecycleValue();
      var deletionRequested :- Bool();
      var deletionPreparation :- OptionalDigest();
      var keyErasurePreparation :- OptionalDigest();
      var ordinal :- U64();
      var digest :- DigestValue();
      return Ok(BackupSet(Identity(setId, installationId, generationId), lifecycle, deletionRequested,
                          deletionPreparation, keyErasurePreparation, ArchiveHead(ordinal, digest), [], map[]));
    }

    method Body(dg: Digester) returns (r: Result<BackupSet, Stop>)
      requires Valid()
      modifies this
      ensures Valid() && AgreesUnless(Bursts(capacity, old(Rest())), ParseBody(dg, old(Rest())), r, Rest())
    {
      var core :- Core();
      var n :- U64();
      r := CheckedBody(dg, core, n, ParseCheckpointField);
    }

    method CheckedBody(dg: Digester, core: BackupSet, n: nat, ghost one: seq<byte> -> Parse<Checkpoint>)
      returns (r: Result<BackupSet, Stop>)
      requires Valid() && ReadsCheckpoint(one)
      modifies this
      ensures Valid()
      ensures var p := RiseAll([], 0, old(Rest()), n, one, core.identity.setId);
              AgreesUnless(n > capacity, IfOk(dg, core, p), r, Rest())
    {
      RisenRises(Rest(), n, one, core.identity.setId);
      var checkpoints :- Checkpoints(core.identity.setId, n, one);
      var b := core.(checkpoints := checkpoints);
      r := if ChecksPass(dg, b) then Ok(b) else Err(Refused);
    }

    method SetValue(dg: Digester) returns (r: Result<BackupSet, Stop>)
      requires Valid()
      modifies this
      ensures Valid() && AgreesUnless(Bursts(capacity, old(Rest())), AsSet(ParseSet(dg, old(Rest()))), r, Rest())
    {
      SetByParts(dg, Rest());
      var b :- Body(dg);
      InsertsList(Rest(), ParseHold, HoldKey);
      var n :- U64();
      var holds :- Holds(n, ParseHold);
      return Ok(b.(holds := holds));
    }

    method NextSet(dg: Digester, ghost one: seq<byte> -> Parse<BackupSet>, ghost bursts: seq<byte> -> bool)
      returns (r: Result<BackupSet, Stop>)
      requires Valid() && ReadsSet(dg, one) && KnowsBursts(capacity, bursts)
      modifies this
      ensures Valid() && AgreesUnless(bursts(old(Rest())), one(old(Rest())), r, Rest())
    {
      r := SetValue(dg);
    }

    /** The sets, inserted as they are read; a repeated set identifier is refused on the spot. */
    method Sets(dg: Digester, n: nat, ghost one: seq<byte> -> Parse<BackupSet>, ghost bursts: seq<byte> -> bool)
      returns (r: Result<map<Uuid, BackupSet>, Stop>)
      requires Valid() && ReadsSet(dg, one) && KnowsBursts(capacity, bursts)
      modifies this
      ensures Valid()
      ensures match InsertUntil(map[], old(Rest()), n, one, bursts, SetKey)
              case Panics => r == Err(CapacityOverflow)
              case Runs(p) => Agrees(p, r, Rest())
    {
      ghost var start := Rest();
      var sets: map<Uuid, BackupSet> := map[];
      for i := 0 to n
        invariant Valid()
        invariant InsertUntil(map[], start, n, one, bursts, SetKey)
                  == InsertUntil(sets, Rest(), n - i, one, bursts, SetKey)
      {
        var b :- NextSet(dg, one, bursts);
        if b.identity.setId in sets {
          return Err(Refused);
        }
        sets := sets[b.identity.setId := b];
      }
      return Ok(sets);
    }
  }

  function Finished(p: Parse<map<Uuid, BackupSet>>): Result<State, ArchiveError> {
    if p.Got? && p.rest == [] then Ok(State(p.value)) else Err(Malformed)
  }

  lemma StateByParts(one: seq<byte> -> Parse<Listing>, bytes: seq<byte>)
    ensures Listed(ParseStateBy(one, bytes))
         == if bytes == [] || bytes[0] != ARCHIVE_STATE_VERSION || ParseU64(bytes[1..]).Bad? then Err(Malformed)
            else Finished(InsertAll(map[], ParseU64(bytes[1..]).rest, ParseU64(bytes[1..]).value, SetReader(one),
                                    SetKey))
  {
    if bytes != [] && ParseU64(bytes[1..]).Got? {
      AllAsSets(ParseU64(bytes[1..]).rest, ParseU64(bytes[1..]).value, one);
      InsertsList(bytes[1..], SetReader(one), SetKey);
    }
  }

  /** Where each set that the decoder reads at all begins. */
  function SetsBegun(one: seq<byte> -> Parse<BackupSet>, bytes: seq<byte>): seq<seq<byte>> {
    if bytes == [] || bytes[0] != ARCHIVE_STATE_VERSION || ParseU64(bytes[1..]).Bad? then []
    else Begun(map[], ParseU64(bytes[1..]).rest, ParseU64(bytes[1..]).value, one, SetKey)
  }

  ghost predicate Within(bursts: seq<byte> -> bool, begun: seq<seq<byte>>) {
    forall u :: u in begun ==> !bursts(u)
  }

  ghost predicate Decodes(spec: Result<State, ArchiveError>, r: Result<State, Stop>) {
    match spec
    case Ok(s) => r == Ok(s)
    case Err(_) => r == Err(Refused)
  }

  method DecodeListing(dg: Digester, bytes: seq<byte>, capacity: nat, ghost one: seq<byte> -> Parse<Listing>,
                       ghost bursts: seq<byte> -> bool) returns (r: Result<State, Stop>)
    requires |bytes| <= U64_MAX && ReadsSet(dg, SetReader(one)) && KnowsBursts(capacity, bursts)
    ensures if Within(bursts, SetsBegun(SetReader(one), bytes)) then Decodes(Listed(ParseStateBy(one, bytes)), r)
            else r == Err(CapacityOverflow)
  {
    StateByParts(one, bytes);
    var decoder := new Decoder(bytes, capacity);
    var version :- decoder.U8();
    if version != ARCHIVE_STATE_VERSION {
      return Err(Refused);
    }
    var n :- decoder.U64();
    PanicsIff(map[], decoder.Rest(), n, SetReader(one), bursts, SetKey);
    var sets :- decoder.Sets(dg, n, SetReader(one), bursts);
    var _ :- decoder.Finish();
    return Ok(State(sets));
  }

  /** No set that is read has a checkpoint count beyond capacity. */
  ghost predicate CountsFit(dg: Digester, capacity: nat, bytes: seq<byte>) {
    Within(u => Bursts(capacity, u), SetsBegun(SetReader(SetParser(dg)), bytes))
  }

  /** The whole decoder: it panics if and only if it reaches a checkpoint count beyond capacity, and otherwise computes
      the specification, the same states accepted and the same bytes refused. */
  method Decode(dg: Digester, bytes: seq<byte>, capacity: nat) returns (r: Result<State, Stop>)
    requires |bytes| <= U64_MAX
    ensures r == Err(CapacityOverflow) <==> !CountsFit(dg, capacity, bytes)
    ensures CountsFit(dg, capacity, bytes) ==> Decodes(FromCanonicalBytes(dg, bytes), r)
  {
    if bytes == [] {
      return Ok(EMPTY);
    }
    r := DecodeListing(dg, bytes, capacity, SetParser(dg), u => Bursts(capacity, u));
  }
}
