/** The canonical bytes of a whole state: when decoding undoes encoding, and when encoding undoes decoding. */
module ArchiveRoundTrip {
  import opened Bytes
  import opened Wrappers
  import opened Archive
  import opened ArchiveRuns
  import opened ArchiveCodec
  import opened ArchiveStateCodec

  // ----- states and their listings

  function ListingOf(b: BackupSet): Listing {
    Listing(b.(holds := map[]), Values(b.holds))
  }

  function SetOf(l: Listing): BackupSet {
    l.core.(holds := Inserted(l.holds, HoldKey))
  }

  function Listings(bs: seq<BackupSet>): (ls: seq<Listing>)
    ensures |ls| == |bs| && forall i :: 0 <= i < |bs| ==> ls[i] == ListingOf(bs[i])
  {
    seq(|bs|, i requires 0 <= i < |bs| => ListingOf(bs[i]))
  }

  function Sets(ls: seq<Listing>): (bs: seq<BackupSet>)
    ensures |bs| == |ls| && forall i :: 0 <= i < |ls| ==> bs[i] == SetOf(ls[i])
  {
    seq(|ls|, i requires 0 <= i < |ls| => SetOf(ls[i]))
  }

  // ----- printing and parsing

  function PrintState(ls: seq<Listing>): seq<byte> {
    [ARCHIVE_STATE_VERSION] + PrintList(ls, PrintSet, [])
  }

  function SetParser(dg: Digester): seq<byte> -> Parse<Listing> {
    (s: seq<byte>) => ParseSet(dg, s)
  }

  function ParseStateBy(one: seq<byte> -> Parse<Listing>, bytes: seq<byte>): Parse<seq<Listing>> {
    var (version, r) :- ParseByte(bytes);
    if version != ARCHIVE_STATE_VERSION then Bad else
      var (ls, rest) :- ParseList(r, one);
      if rest == [] && DistinctKeys(Sets(ls), SetKey) then Got(ls, []) else Bad
  }

  function ParseState(dg: Digester, bytes: seq<byte>): Parse<seq<Listing>> {
    ParseStateBy(SetParser(dg), bytes)
  }

  /** The state a parsed listing stands for. */
  function Listed(p: Parse<seq<Listing>>): Result<State, ArchiveError> {
    match p
    case Got(ls, _) => Ok(State(Inserted(Sets(ls), SetKey)))
    case Bad => Err(Malformed)
  }

  function CanonicalBytes(s: State): seq<byte> {
    PrintState(Listings(Values(s.sets)))
  }

  function FromCanonicalBytes(dg: Digester, bytes: seq<byte>): Result<State, ArchiveError> {
    if bytes == [] then Ok(EMPTY) else Listed(ParseState(dg, bytes))
  }

  /** A listing that the decoder would accept as a whole. */
  ghost predicate Accepted(dg: Digester, ls: seq<Listing>) {
    && |ls| <= U64_MAX
    && DistinctKeys(Sets(ls), SetKey)
    && forall i :: 0 <= i < |ls| ==> ListingOk(dg, ls[i])
  }

  lemma StatePrinted(dg: Digester, ls: seq<Listing>)
    requires Accepted(dg, ls)
    ensures ParseState(dg, PrintState(ls)) == Got(ls, [])
  {
    forall i, u | 0 <= i < |ls| ensures SetParser(dg)(PrintSet(ls[i], u)) == Got(ls[i], u) {
      SetPrinted(dg, ls[i], u);
    }
    StatePrintedBy(PrintSet, SetParser(dg), ls);
  }

  lemma StatePrintedBy(print1: (Listing, seq<byte>) -> seq<byte>, one: seq<byte> -> Parse<Listing>, ls: seq<Listing>)
    requires |ls| <= U64_MAX && DistinctKeys(Sets(ls), SetKey)
    requires forall i, u :: 0 <= i < |ls| ==> one(print1(ls[i], u)) == Got(ls[i], u)
    ensures ParseStateBy(one, [ARCHIVE_STATE_VERSION] + PrintList(ls, print1, [])) == Got(ls, [])
  {
    ListPrinted(ls, print1, one, []);
    BytePrinted(ARCHIVE_STATE_VERSION, PrintList(ls, print1, []));
  }

  /** Whatever is accepted is exactly the printed form of a checked listing, and each set took 108 bytes or more. */
  lemma StateParsed(dg: Digester, bytes: seq<byte>)
    requires ParseState(dg, bytes).Got?
    ensures var ls := ParseState(dg, bytes).value;
            bytes == PrintState(ls) && Accepted(dg, ls) && 9 + 108 * |ls| <= |bytes|
  {
    ByteParsed(bytes);
    var r := ParseByte(bytes).rest;
    SetParserParsed(dg);
    ListParsed(r, PrintSet, SetParser(dg));
    var ls := ParseList(r, SetParser(dg)).value;
    forall i | 0 <= i < |ls| ensures ListingOk(dg, ls[i]) {
      assert ls[i] in ls;
    }
    AllAreLong(ParseU64(r).rest, ParseU64(r).value, 108, SetParser(dg));
  }

  lemma SetParserParsed(dg: Digester)
    ensures forall u :: SetParser(dg)(u).Got? ==>
              && u == PrintSet(SetParser(dg)(u).value, SetParser(dg)(u).rest)
              && |u| >= 108 + |SetParser(dg)(u).rest| && ListingOk(dg, SetParser(dg)(u).value)
  {
    forall u | SetParser(dg)(u).Got?
      ensures u == PrintSet(SetParser(dg)(u).value, SetParser(dg)(u).rest)
              && |u| >= 108 + |SetParser(dg)(u).rest| && ListingOk(dg, SetParser(dg)(u).value)
    {
      SetParsed(dg, u);
    }
  }

  // ----- decoding undoes encoding

  /** Lengths that a machine word can count. */
  ghost predicate Fits(s: State) {
    |s.sets| <= U64_MAX && forall id: Uuid :: id in s.sets ==> |s.sets[id].holds| <= U64_MAX
  }

  lemma {:induction false} ChainRises(dg: Digester, setId: Uuid, cs: seq<Checkpoint>, n: nat)
    requires Chain(dg, setId, cs) && n <= |cs| <= U64_MAX
    ensures Rising(cs[n..], setId, n)
    decreases |cs| - n
  {
    if n < |cs| {
      ChainRises(dg, setId, cs, n + 1);
      assert Linked(dg, setId, cs, n);
      assert cs[n..][1..] == cs[n + 1..];
    }
  }

  lemma SetCarried(dg: Digester, id: Uuid, b: BackupSet)
    requires SetInv(dg, id, b) && |b.holds| <= U64_MAX
    ensures Carried(ListingOf(b))
  {
    forall i | 0 <= i < |b.checkpoints| ensures b.checkpoints[i].desc.Valid() {
      assert Linked(dg, id, b.checkpoints, i);
    }
  }

  lemma HoldsRelist(dg: Digester, id: Uuid, b: BackupSet)
    requires SetInv(dg, id, b)
    ensures DistinctKeys(Values(b.holds), HoldKey) && SetOf(ListingOf(b)) == b
  {
    InsertedOfValues(b.holds, HoldKey);
  }

  lemma CorePasses(dg: Digester, id: Uuid, b: BackupSet)
    requires SetInv(dg, id, b)
    ensures CoreOk(dg, b.(holds := map[])) <==> (b.checkpoints == [] ==> b.head.ordinal == 0)
  {
    var cs := b.checkpoints;
    ChainRises(dg, id, cs, 0);
    assert cs[0..] == cs;
    forall i | 0 <= i < |cs| ensures cs[i].desc.ordinal == i + 1 && (i > 0 ==> !cs[i].desc.kind.BaseChunk?) {
      assert Linked(dg, id, cs, i);
    }
  }

  /** A well-formed set passes the decoder's checks exactly when it is not an empty set away from ordinal zero. */
  lemma SetPasses(dg: Digester, id: Uuid, b: BackupSet)
    requires SetInv(dg, id, b) && |b.holds| <= U64_MAX
    ensures Carried(ListingOf(b)) && DistinctKeys(Values(b.holds), HoldKey)
    ensures CoreOk(dg, b.(holds := map[])) <==> (b.checkpoints == [] ==> b.head.ordinal == 0)
    ensures SetOf(ListingOf(b)) == b
  {
    SetCarried(dg, id, b);
    HoldsRelist(dg, id, b);
    CorePasses(dg, id, b);
  }

  lemma ElementsRelist(dg: Digester, s: State)
    requires Inv(dg, s) && Fits(s)
    ensures forall i :: 0 <= i < |Values(s.sets)| ==> SetOf(ListingOf(Values(s.sets)[i])) == Values(s.sets)[i]
  {
    forall i | 0 <= i < |Values(s.sets)| ensures SetOf(ListingOf(Values(s.sets)[i])) == Values(s.sets)[i] {
      var id := ValuesElement(s.sets, i);
      SetPasses(dg, id, s.sets[id]);
    }
  }

  lemma ListingRoundTrip(dg: Digester, s: State)
    requires Inv(dg, s) && Fits(s)
    ensures Sets(Listings(Values(s.sets))) == Values(s.sets)
    ensures DistinctKeys(Values(s.sets), SetKey) && Inserted(Values(s.sets), SetKey) == s.sets
  {
    forall id: Uuid | id in s.sets ensures SetKey(s.sets[id]) == id { assert SetInv(dg, id, s.sets[id]); }
    InsertedOfValues(s.sets, SetKey);
    ElementsRelist(dg, s);
  }

  /** For every reachable state (indeed every well-formed one): decoding its canonical bytes gives it
      back if and only if no empty set sits at a head whose ordinal is not zero. */
  lemma DecodeUndoesEncode(dg: Digester, s: State)
    requires Inv(dg, s) && Fits(s)
    ensures FromCanonicalBytes(dg, CanonicalBytes(s)) == Ok(s)
       <==> forall id: Uuid :: id in s.sets && s.sets[id].checkpoints == [] ==> s.sets[id].head.ordinal == 0
  {
    var bs := Values(s.sets);
    var ls := Listings(bs);
    ListingRoundTrip(dg, s);
    if forall id: Uuid :: id in s.sets && s.sets[id].checkpoints == [] ==> s.sets[id].head.ordinal == 0 {
      forall i | 0 <= i < |ls| ensures ListingOk(dg, ls[i]) {
        var id := ValuesElement(s.sets, i);
        SetPasses(dg, id, s.sets[id]);
      }
      StatePrinted(dg, ls);
    }
    if FromCanonicalBytes(dg, CanonicalBytes(s)) == Ok(s) {
      DecodedSetsPass(dg, CanonicalBytes(s), s);
    }
  }

  lemma DecodedSetsPass(dg: Digester, bytes: seq<byte>, s: State)
    requires FromCanonicalBytes(dg, bytes) == Ok(s)
    ensures forall id: Uuid :: id in s.sets && s.sets[id].checkpoints == [] ==> s.sets[id].head.ordinal == 0
  {
    if bytes != [] {
      StateParsed(dg, bytes);
      ListedSetsPass(dg, ParseState(dg, bytes).value, s);
    }
  }

  lemma ListedSetsPass(dg: Digester, ls: seq<Listing>, s: State)
    requires Accepted(dg, ls)
    requires s == State(Inserted(Sets(ls), SetKey))
    ensures forall id: Uuid :: id in s.sets && s.sets[id].checkpoints == [] ==> s.sets[id].head.ordinal == 0
  {
    forall id: Uuid | id in s.sets ensures s.sets[id].checkpoints == [] ==> s.sets[id].head.ordinal == 0 {
      var j := InsertedElement(Sets(ls), SetKey, id);
      assert s.sets[id] == SetOf(ls[j]) && ListingOk(dg, ls[j]);
    }
  }

  /** Distinct decodable states have distinct canonical bytes. */
  lemma CanonicalBytesInjective(dg: Digester, s: State, t: State)
    requires Inv(dg, s) && Fits(s) && Inv(dg, t) && Fits(t)
    requires forall id: Uuid :: id in s.sets && s.sets[id].checkpoints == [] ==> s.sets[id].head.ordinal == 0
    requires forall id: Uuid :: id in t.sets && t.sets[id].checkpoints == [] ==> t.sets[id].head.ordinal == 0
    requires CanonicalBytes(s) == CanonicalBytes(t)
    ensures s == t
  {
    DecodeUndoesEncode(dg, s);
    DecodeUndoesEncode(dg, t);
  }

  // ----- encoding undoes decoding

  ghost predicate AscendingListing(ls: seq<Listing>) {
    && Ascending(Keys(Sets(ls), SetKey))
    && forall i :: 0 <= i < |ls| ==> Ascending(Keys(ls[i].holds, HoldKey))
  }

  lemma RelistedSet(dg: Digester, l: Listing)
    requires ListingOk(dg, l)
    ensures ListingOk(dg, ListingOf(SetOf(l)))
    ensures Ascending(Keys(ListingOf(SetOf(l)).holds, HoldKey))
    ensures Ascending(Keys(l.holds, HoldKey)) ==> ListingOf(SetOf(l)) == l
    ensures SetKey(SetOf(ListingOf(SetOf(l)))) == SetKey(SetOf(l))
  {
    var m := Inserted(l.holds, HoldKey);
    InsertedContents(l.holds, HoldKey);
    forall k: Uuid | k in m ensures HoldKey(m[k]) == k {
      var i :| 0 <= i < |l.holds| && Keys(l.holds, HoldKey)[i] == k;
    }
    InsertedOfValues(m, HoldKey);
    if Ascending(Keys(l.holds, HoldKey)) {
      ValuesOfInserted(l.holds, HoldKey);
    }
    assert |Values(m)| <= |l.holds| by { InsertedSize(l.holds, HoldKey); }
  }

  lemma AscendingRelists(dg: Digester, ls: seq<Listing>)
    requires forall i :: 0 <= i < |ls| ==> ListingOk(dg, ls[i])
    requires AscendingListing(ls)
    ensures Listings(Values(Inserted(Sets(ls), SetKey))) == ls
  {
    ValuesOfInserted(Sets(ls), SetKey);
    forall i | 0 <= i < |ls| ensures ListingOf(Sets(ls)[i]) == ls[i] {
      RelistedSet(dg, ls[i]);
    }
  }

  lemma RelistedElement(dg: Digester, ls: seq<Listing>, m: map<Uuid, BackupSet>, id: Uuid)
    requires DistinctKeys(Sets(ls), SetKey)
    requires forall i :: 0 <= i < |ls| ==> ListingOk(dg, ls[i])
    requires m == Inserted(Sets(ls), SetKey) && id in m
    ensures SetKey(m[id]) == id && SetKey(SetOf(ListingOf(m[id]))) == id
    ensures ListingOk(dg, ListingOf(m[id])) && Ascending(Keys(ListingOf(m[id]).holds, HoldKey))
  {
    var j := InsertedElement(Sets(ls), SetKey, id);
    RelistedSet(dg, ls[j]);
  }

  lemma AscendingDistinct<T(!new)>(xs: seq<T>, key: T -> Uuid)
    requires Ascending(Keys(xs, key))
    ensures DistinctKeys(xs, key)
  {
  }

  lemma RelistedValues(dg: Digester, ls: seq<Listing>, m: map<Uuid, BackupSet>)
    requires Accepted(dg, ls) && m == Inserted(Sets(ls), SetKey)
    ensures |Values(m)| <= U64_MAX && Ascending(Keys(Values(m), SetKey))
    ensures forall i :: 0 <= i < |Values(m)| ==>
              var l := ListingOf(Values(m)[i]);
              ListingOk(dg, l) && Ascending(Keys(l.holds, HoldKey)) && SetKey(SetOf(l)) == SetKey(Values(m)[i])
  {
    InsertedSize(Sets(ls), SetKey);
    forall id: Uuid | id in m ensures SetKey(m[id]) == id { RelistedElement(dg, ls, m, id); }
    InsertedOfValues(m, SetKey);
    var vs := Values(m);
    forall i | 0 <= i < |vs|
      ensures var l := ListingOf(vs[i]);
              ListingOk(dg, l) && Ascending(Keys(l.holds, HoldKey)) && SetKey(SetOf(l)) == SetKey(vs[i])
    {
      var id := ValuesElement(m, i);
      RelistedElement(dg, ls, m, id);
    }
  }

  /** Listing the decoded state again gives an acceptable, ascending listing. */
  lemma RelistedState(dg: Digester, ls: seq<Listing>, m: map<Uuid, BackupSet>)
    requires Accepted(dg, ls) && m == Inserted(Sets(ls), SetKey)
    ensures Accepted(dg, Listings(Values(m))) && AscendingListing(Listings(Values(m)))
  {
    RelistedValues(dg, ls, m);
    var vs := Values(m);
    var again := Listings(vs);
    assert Keys(Sets(again), SetKey) == Keys(vs, SetKey);
    AscendingDistinct(Sets(again), SetKey);
  }

  lemma PrintStateInjective(dg: Digester, ls: seq<Listing>, ms: seq<Listing>)
    requires Accepted(dg, ls) && Accepted(dg, ms)
    requires PrintState(ls) == PrintState(ms)
    ensures ls == ms
  {
    StatePrinted(dg, ls);
    StatePrinted(dg, ms);
  }

  lemma ReencodesIffAscending(dg: Digester, ls: seq<Listing>, s: State)
    requires Accepted(dg, ls) && s == State(Inserted(Sets(ls), SetKey))
    ensures CanonicalBytes(s) == PrintState(ls) <==> AscendingListing(ls)
  {
    if AscendingListing(ls) {
      AscendingRelists(dg, ls);
    }
    if CanonicalBytes(s) == PrintState(ls) {
      RelistedState(dg, ls, s.sets);
      PrintStateInjective(dg, Listings(Values(s.sets)), ls);
    }
  }

  /** What an accepted non-empty input was a listing of. */
  lemma DecodedListing(dg: Digester, bytes: seq<byte>, s: State) returns (ls: seq<Listing>)
    requires bytes != [] && FromCanonicalBytes(dg, bytes) == Ok(s)
    ensures ls == ParseState(dg, bytes).value
    ensures Accepted(dg, ls) && bytes == PrintState(ls) && s == State(Inserted(Sets(ls), SetKey))
  {
    StateParsed(dg, bytes);
    ls := ParseState(dg, bytes).value;
  }

  /** For any non-empty bytes the decoder accepts, re-encoding returns the same bytes if and only if the
      set identifiers, and the hold identifiers of each set, were listed in ascending order. */
  lemma EncodeUndoesDecode(dg: Digester, bytes: seq<byte>, s: State)
    requires bytes != [] && FromCanonicalBytes(dg, bytes) == Ok(s)
    ensures CanonicalBytes(s) == bytes <==> AscendingListing(ParseState(dg, bytes).value)
  {
    var ls := DecodedListing(dg, bytes, s);
    ReencodesIffAscending(dg, ls, s);
  }

  /** Every decoded set took at least 108 bytes of input, so an accepted input holds at most a 108th as many sets. */
  lemma DecodedSetsAreFew(dg: Digester, bytes: seq<byte>, s: State)
    requires bytes != [] && FromCanonicalBytes(dg, bytes) == Ok(s)
    ensures 9 + 108 * |s.sets| <= |bytes|
  {
    StateParsed(dg, bytes);
    InsertedSize(Sets(ParseState(dg, bytes).value), SetKey);
  }
}
