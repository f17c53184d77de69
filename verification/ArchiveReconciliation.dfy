/** The supervisor's reconciliation, run on its own after a crash: it abandons the pending appends whose expected head
    is still the witness's, reads the witness's present entry, and persists what it read. */
module ArchiveReconciliation {
  import opened Bytes
  import opened Wrappers
  import opened Archive
  import ArchiveRuns
  import opened ArchiveSuccessors
  import opened ArchiveTables
  import opened SafetyWitness
  import opened ArchiveProtocol
  import opened ArchiveProtocolSafety
  import opened ArchiveProtocolStall
  import opened ArchiveAuthority
  import opened ArchiveWitnessHistory
  import opened ArchiveMirror

  // ----- the sweep of pending appends

  /** The witness still shows the head that the pending append expects. */
  predicate Current(head: WitnessHead, i: Intent) {
    i.setId in head.state.archive.sets && head.state.archive.sets[i.setId].head == Expected(i)
  }

  function Cancelled(w: Installation): set<Uuid> {
    set o: Uuid | o in w.things.intents && Current(w.ledger.head, w.things.intents[o])
  }

  /** One refused abandonment takes back all of them and ends the reconciliation. */
  predicate Sweepable(w: Installation) {
    forall o: Uuid :: o in Cancelled(w) ==>
      StandsAt(w.ledger.tables, w.things.intents[o].setId, Expected(w.things.intents[o]))
  }

  /** The cancelled rows and the staged objects of their names are gone. */
  function Swept(w: Installation): Installation {
    var names := set o: Uuid | o in Cancelled(w) :: (w.things.intents[o].setId, o);
    w.(things := w.things.(intents := w.things.intents - Cancelled(w), staging := w.things.staging - names))
  }

  // ----- persisting an entry

  /** The files that persisting an operation needs: the key of a set that starts, the staged object of a checkpoint. */
  predicate HostReady(things: Things, op: Op) {
    match op
    case OpStart(identity, _) => identity.setId in things.keys
    case OpCommit(r, _) =>
      && (r.setId, r.desc.objectId) in things.staging
      && var file := things.staging[(r.setId, r.desc.objectId)];
      file.Frame? && file.content == r.desc.ciphertextDigest && file.length == r.desc.length
    case _ => true
  }

  /** A persisted checkpoint has consumed its row, and its object is promoted. */
  function Settled(things: Things, op: Op): Things {
    if op.OpCommit? then
      var o := op.reservation.desc.objectId;
      things.(intents := things.intents - {o}, staging := things.staging - {(op.reservation.setId, o)})
    else things
  }

  /** Only an entry that is next for the database goes through; what it does is read off its archive and the archive of
      the entry before it. */
  ghost function Replayed(rules: Rules, w: Installation, e: Entry): Option<Installation> {
    var l := w.ledger;
    if e.sequence != |l.database| + 1 then None
    else if !e.kind.ArchiveEvent? then
      if Storable(rules, l.database, e) then Some(w.(ledger := l.(database := l.database + [e]))) else None
    else
      match ReadOff(CommittedArchive(l.database), e.state.archive, e.kind.event)
      case None => None
      case Some(op) =>
        if !HostReady(w.things, op) then None else
          match Stores(rules, l.tables, w.things.intents, l.database, e, op, NamedIn(e.state.archive, op))
          case None => None
          case Some(t) => Some(w.(ledger := l.(database := l.database + [e], tables := t),
                                  things := Settled(w.things, op)))
  }

  // ----- an installation under supervision

  /** An installation, whether some reconciliation has got past its sweep, and the entries that reconciliations have
      read and may still persist. */
  datatype Watch = Watch(w: Installation, swept: bool, held: set<Entry>)

  /** A step of some process, or of a reconciliation. */
  datatype Move = Ordinary(step: Step<Entry>) | Sweep | Read | Persist(entry: Entry)

  /** The witness's present entry. */
  function Last(w: Installation): Entry
    requires w.ledger.log != []
  {
    w.ledger.log[|w.ledger.log| - 1].task.entry
  }

  ghost function Make(rules: Rules, x: Watch, m: Move): Option<Watch> {
    match m
    case Ordinary(s) =>
      (match Act(Wired(rules), x.w, s) case None => None case Some(w) => Some(x.(w := w)))
    case Sweep => Some(if Sweepable(x.w) then x.(w := Swept(x.w), swept := true) else x)
    case Read => if x.swept && x.w.ledger.log != [] then Some(x.(held := x.held + {Last(x.w)})) else None
    case Persist(e) =>
      if e !in x.held then None else
        (match Replayed(rules, x.w, e) case None => Some(x) case Some(w) => Some(x.(w := w)))
  }

  ghost function MakeAll(rules: Rules, x: Watch, ms: seq<Move>): Option<Watch>
    decreases |ms|
  {
    if ms == [] then Some(x) else
      match Make(rules, x, ms[0])
      case None => None
      case Some(next) => MakeAll(rules, next, ms[1..])
  }

  /** This run leads from here, with no reconciliation under way, to a longer database. */
  ghost predicate Grows(rules: Rules, w: Installation, ms: seq<Move>) {
    var end := MakeAll(rules, Watch(w, false, {}), ms);
    end.Some? && |end.value.w.ledger.database| > |w.ledger.database|
  }

  /** Processes only. */
  predicate Unaided(ms: seq<Move>) {
    forall k :: 0 <= k < |ms| ==> ms[k].Ordinary?
  }

  /** Reconciliations only. */
  predicate Supervised(ms: seq<Move>) {
    forall k :: 0 <= k < |ms| ==> !ms[k].Ordinary?
  }

  // ----- what a sweep leaves

  /** What holds of the stores in every reachable state, and under supervision until something is persisted. */
  ghost predicate Sound(rules: Rules, g: WitnessHead, w: Installation) {
    IsGenesis(g) && AuthorityInv(Wired(rules), g, w) && TablesInv(rules, w)
  }

  lemma ReachedSound(rules: Rules, g: WitnessHead, w: Installation)
    requires IsGenesis(g) && Reached(rules, g, w)
    ensures Sound(rules, g, w)
  {
    ReachedMirrors(rules, g, w);
  }

  /** Files and pending rows are no part of the authority. */
  lemma AuthorityIgnoresThings<H(!new), E(!new)>(wires: Wires<H, E>, g: H, w: World<H, E>, things: Things)
    requires AuthorityInv(wires, g, w)
    ensures AuthorityInv(wires, g, w.(things := things))
  {
    assert PromotedOk(wires, w.(things := things));
  }

  lemma SweptKeepsTables(rules: Rules, w: Installation)
    requires TablesInv(rules, w)
    ensures TablesInv(rules, Swept(w))
  {
    assert Recorded(Wired(rules), Swept(w));
  }

  lemma SweptSound(rules: Rules, g: WitnessHead, w: Installation)
    requires Sound(rules, g, w)
    ensures Sound(rules, g, Swept(w))
  {
    AuthorityIgnoresThings(Wired(rules), g, w, Swept(w).things);
    SweptKeepsTables(rules, w);
  }

  /** A pending append on the witness's present head whose set the database no longer shows streaming. */
  ghost predicate Jammed(w: Installation) {
    exists o: Uuid ::
      && o in w.things.intents && Current(w.ledger.head, w.things.intents[o])
      && OnClosedSet(w.ledger.tables, w.things.intents[o])
  }

  /** That, and nothing else, stops a sweep. */
  lemma SweepableIff(w: Installation)
    requires RowsFit(w.ledger.tables, w.things.intents)
    ensures Sweepable(w) <==> !Jammed(w)
  {
    if !Sweepable(w) {
      var o: Uuid :| o in Cancelled(w)
                     && !StandsAt(w.ledger.tables, w.things.intents[o].setId, Expected(w.things.intents[o]));
      assert o in w.things.intents;
    }
  }

  /** A sweep takes only rows of sets that stream. */
  lemma SweepKeepsClosed(w: Installation)
    requires Sweepable(w)
    ensures ClosedRowsKept(w.ledger.tables, w.things.intents, Swept(w).things.intents)
  {
    forall o: Uuid | o in w.things.intents && OnClosedSet(w.ledger.tables, w.things.intents[o])
      ensures o in Swept(w).things.intents
    {
      assert o !in Cancelled(w);
    }
  }

  /** A sweep neither clears an operation nor gets in its way. */
  lemma ClearSwept(rules: Rules, w: Installation, op: Op, named: Digest)
    requires Sweepable(w)
    ensures Clear(w.ledger.tables, w.things.intents, rules.released, op, named)
       <==> Clear(w.ledger.tables, Swept(w).things.intents, rules.released, op, named)
  {
    SweepKeepsClosed(w);
    if Clear(w.ledger.tables, Swept(w).things.intents, rules.released, op, named) {
      ClearBack(w.ledger.tables, w.things.intents, Swept(w).things.intents, rules.released, op, named);
    }
  }

  // ----- when an entry is persisted

  predicate Behind(w: Installation) {
    |w.ledger.database| < |w.ledger.log|
  }

  predicate OneBehind(w: Installation) {
    |w.ledger.log| == |w.ledger.database| + 1
  }

  /** The entry that the database waits for. */
  function Due(w: Installation): Entry
    requires Behind(w)
  {
    w.ledger.log[|w.ledger.database|].task.entry
  }

  /** Everything asked of an operation is there. */
  predicate Supplied(rules: Rules, t: State, things: Things, e: Entry, op: Op) {
    && NamesAuthority(rules, e, op)
    && Clear(t, things.intents, rules.released, op, NamedIn(e.state.archive, op))
    && HostReady(things, op)
    && (op.OpCommit? ==> Filed(things.intents, op.reservation))
  }

  ghost predicate Replayable(rules: Rules, w: Installation)
    requires Behind(w)
  {
    var e := Due(w);
    && Storable(rules, w.ledger.database, e)
    && (e.kind.ArchiveEvent? ==>
          exists op: Op :: Derives(w.ledger.tables, e.state.archive, e.kind.event, op)
                           && Supplied(rules, w.ledger.tables, w.things, e, op))
  }

  /** The witness is one entry ahead, no pending append stops the sweep, and the entry can be persisted: request and
      digest are new and the numbers fit; a start has its key, a checkpoint its row and its staged object, which are new
      to the set; a hold is new and its set streams; no hold keeps a set from sealing, and no pending append from having
      sealed; and an erasure was prepared. */
  ghost predicate Recoverable(rules: Rules, w: Installation) {
    OneBehind(w) && !Jammed(w) && Replayable(rules, w)
  }

  /** The next entry is an archive event that the witness accepted on the archive the tables hold. */
  ghost predicate Presented(dg: Digester, w: Installation) {
    && Behind(w) && Due(w).kind.ArchiveEvent?
    && Mirrors(dg, w.ledger)
    && Due(w).sequence == |w.ledger.database| + 1
    && Accepts(dg, Due(w).kind.event, w.ledger.tables, Due(w).state.archive)
  }

  lemma ArchiveEntryPresented(rules: Rules, g: WitnessHead, w: Installation)
    requires Sound(rules, g, w) && Behind(w) && Due(w).kind.ArchiveEvent?
    ensures Presented(rules.dg, w)
  {
    SeenIsCommitted(rules, g, w);
  }

  lemma OperationStoresIff(rules: Rules, t: State, things: Things, database: seq<Entry>, e: Entry, op: Op)
    requires ArchiveRuns.Inv(rules.dg, t) && e.kind.ArchiveEvent? && Storable(rules, database, e)
    requires Accepts(rules.dg, e.kind.event, t, e.state.archive)
    requires Derives(t, e.state.archive, e.kind.event, op)
    ensures HostReady(things, op)
            && Stores(rules, t, things.intents, database, e, op, NamedIn(e.state.archive, op)).Some?
       <==> Supplied(rules, t, things, e, op)
  {
    DerivedFits(rules.dg, t, e.state.archive, e.kind.event, op);
    EntersIff(rules.dg, t, things.intents, rules.released, op, NamedIn(e.state.archive, op));
  }

  lemma ArchiveReplaysIff(rules: Rules, w: Installation)
    requires Presented(rules.dg, w) && Storable(rules, w.ledger.database, Due(w))
    ensures Replayed(rules, w, Due(w)).Some? <==> Replayable(rules, w)
  {
    var e, l := Due(w), w.ledger;
    var read := ReadOff(l.tables, e.state.archive, e.kind.event);
    if read.Some? {
      OperationStoresIff(rules, l.tables, w.things, l.database, e, read.value);
      forall op: Op | Derives(l.tables, e.state.archive, e.kind.event, op) ensures op == read.value {
        DerivedOnce(rules.dg, l.tables, e.state.archive, e.kind.event, op, read.value);
      }
    }
  }

  lemma ReplaysIff(rules: Rules, g: WitnessHead, w: Installation)
    requires Sound(rules, g, w) && Behind(w)
    ensures Replayed(rules, w, Due(w)).Some? <==> Replayable(rules, w)
  {
    SeenIsCommitted(rules, g, w);
    if Due(w).kind.ArchiveEvent? && Storable(rules, w.ledger.database, Due(w)) {
      ArchiveEntryPresented(rules, g, w);
      ArchiveReplaysIff(rules, w);
    }
  }

  const TWO_TO_THE_63: int := 0x8000_0000_0000_0000

  /** A file that holds what the descriptor says, and all of it. */
  predicate WholeFrame(file: Frame, d: Descriptor) {
    file == Frame(d.ciphertextDigest, d.length, file.owner)
  }

  /** A row that names set, ordinal, predecessor and content of the reservation. */
  predicate WholeRow(row: Intent, r: Reservation) {
    row == Intent(r.setId, r.desc.ordinal, r.expected.digest, r.desc.ciphertextDigest, row.owner)
  }

  lemma CheckpointSuppliedIff(rules: Rules, t: State, things: Things, e: Entry, r: Reservation, c: Checkpoint)
    requires ArchiveRuns.Inv(rules.dg, t) && Accepts(rules.dg, Checkpointed, t, e.state.archive)
    requires Derives(t, e.state.archive, Checkpointed, OpCommit(r, c))
    ensures r.setId in t.sets
    ensures Supplied(rules, t, things, e, OpCommit(r, c))
       <==> && (forall k :: k in t.sets[r.setId].checkpoints ==>
                  k.desc.objectId != r.desc.objectId && k.desc.ciphertextDigest != r.desc.ciphertextDigest)
            && r.desc.ordinal < TWO_TO_THE_63 && r.desc.endLsn < TWO_TO_THE_63 && r.desc.length < TWO_TO_THE_63
            && r.desc.timeline < 0x8000_0000
            && r.desc.objectId in things.intents && WholeRow(things.intents[r.desc.objectId], r)
            && (r.setId, r.desc.objectId) in things.staging
            && WholeFrame(things.staging[(r.setId, r.desc.objectId)], r.desc)
  {
    DerivedFits(rules.dg, t, e.state.archive, Checkpointed, OpCommit(r, c));
  }

  lemma CheckpointDueIff(rules: Rules, g: WitnessHead, w: Installation, op: Op)
    requires Sound(rules, g, w) && Behind(w) && Due(w).kind == ArchiveEvent(Checkpointed)
    requires Derives(w.ledger.tables, Due(w).state.archive, Checkpointed, op)
    ensures Presented(rules.dg, w)
    ensures Replayed(rules, w, Due(w)).Some?
       <==> Storable(rules, w.ledger.database, Due(w)) && Supplied(rules, w.ledger.tables, w.things, Due(w), op)
  {
    ReplaysIff(rules, g, w);
    ArchiveEntryPresented(rules, g, w);
    forall x: Op | Derives(w.ledger.tables, Due(w).state.archive, Checkpointed, x) ensures x == op {
      DerivedOnce(rules.dg, w.ledger.tables, Due(w).state.archive, Checkpointed, x, op);
    }
  }

  /** A checkpoint due is persisted exactly if its entry can be stored, its object is new to the set in name and in
      content, its numbers fit their columns, its row is filed and its object staged whole. */
  lemma CheckpointReplaysIff(rules: Rules, g: WitnessHead, w: Installation, r: Reservation, c: Checkpoint)
    requires Sound(rules, g, w) && Behind(w) && Due(w).kind == ArchiveEvent(Checkpointed)
    requires Derives(w.ledger.tables, Due(w).state.archive, Checkpointed, OpCommit(r, c))
    ensures r.setId in w.ledger.tables.sets
    ensures Replayed(rules, w, Due(w)).Some?
       <==> && Storable(rules, w.ledger.database, Due(w))
            && (forall k :: k in w.ledger.tables.sets[r.setId].checkpoints ==>
                  k.desc.objectId != r.desc.objectId && k.desc.ciphertextDigest != r.desc.ciphertextDigest)
            && r.desc.ordinal < TWO_TO_THE_63 && r.desc.endLsn < TWO_TO_THE_63 && r.desc.length < TWO_TO_THE_63
            && r.desc.timeline < 0x8000_0000
            && r.desc.objectId in w.things.intents && WholeRow(w.things.intents[r.desc.objectId], r)
            && (r.setId, r.desc.objectId) in w.things.staging
            && WholeFrame(w.things.staging[(r.setId, r.desc.objectId)], r.desc)
  {
    CheckpointDueIff(rules, g, w, OpCommit(r, c));
    CheckpointSuppliedIff(rules, w.ledger.tables, w.things, Due(w), r, c);
  }

  // ----- a sweep before it makes no difference

  /** The row of the present entry is not on the witness's present head, so a sweep spares it and its object. */
  lemma SweepSparesPresent(dg: Digester, w: Installation, r: Reservation, c: Checkpoint)
    requires Presented(dg, w) && Due(w).kind == ArchiveEvent(Checkpointed) && Filed(w.things.intents, r)
    requires w.ledger.head.state.archive == Due(w).state.archive
    requires Derives(w.ledger.tables, Due(w).state.archive, Checkpointed, OpCommit(r, c))
    ensures Filed(Swept(w).things.intents, r)
    ensures (r.setId, r.desc.objectId) in w.things.staging ==>
              && (r.setId, r.desc.objectId) in Swept(w).things.staging
              && Swept(w).things.staging[(r.setId, r.desc.objectId)] == w.things.staging[(r.setId, r.desc.objectId)]
  {
    var e := Due(w);
    var id: Uuid :| ChangedOnlyAt(w.ledger.tables.sets, e.state.archive.sets, id)
                    && ChangeOf(dg, Checkpointed)(id, w.ledger.tables.sets[id], e.state.archive.sets[id]);
    assert id == r.setId;
    assert e.state.archive.sets[id].head.ordinal == r.desc.ordinal;
    assert r.desc.objectId !in Cancelled(w);
  }

  lemma CheckpointSuppliedSwept(rules: Rules, w: Installation, r: Reservation, c: Checkpoint)
    requires Presented(rules.dg, w) && w.ledger.head.state.archive == Due(w).state.archive
    requires Derives(w.ledger.tables, Due(w).state.archive, Due(w).kind.event, OpCommit(r, c))
    ensures Supplied(rules, w.ledger.tables, w.things, Due(w), OpCommit(r, c))
       <==> Supplied(rules, w.ledger.tables, Swept(w).things, Due(w), OpCommit(r, c))
  {
    if Filed(w.things.intents, r) {
      SweepSparesPresent(rules.dg, w, r, c);
    }
  }

  lemma SuppliedSwept(rules: Rules, w: Installation, op: Op)
    requires Presented(rules.dg, w) && Sweepable(w) && w.ledger.head.state.archive == Due(w).state.archive
    requires Derives(w.ledger.tables, Due(w).state.archive, Due(w).kind.event, op)
    ensures Supplied(rules, w.ledger.tables, w.things, Due(w), op)
       <==> Supplied(rules, w.ledger.tables, Swept(w).things, Due(w), op)
  {
    if op.OpCommit? {
      CheckpointSuppliedSwept(rules, w, op.reservation, op.checkpoint);
    } else {
      ClearSwept(rules, w, op, NamedIn(Due(w).state.archive, op));
    }
  }

  lemma PresentIsHead(rules: Rules, g: WitnessHead, w: Installation)
    requires Sound(rules, g, w) && OneBehind(w)
    ensures w.ledger.head.state == Due(w).state && Last(w) == Due(w)
  {
    assert w.ledger.head == HeadAt(Wired(rules), g, w.ledger.log, |w.ledger.log|);
  }

  lemma ReplayableSwept(rules: Rules, g: WitnessHead, w: Installation)
    requires Sound(rules, g, w) && OneBehind(w) && Sweepable(w)
    ensures Replayable(rules, w) <==> Replayable(rules, Swept(w))
  {
    var e := Due(w);
    if e.kind.ArchiveEvent? {
      PresentIsHead(rules, g, w);
      ArchiveEntryPresented(rules, g, w);
      forall op: Op | Derives(w.ledger.tables, e.state.archive, e.kind.event, op)
        ensures Supplied(rules, w.ledger.tables, w.things, e, op)
           <==> Supplied(rules, w.ledger.tables, Swept(w).things, e, op)
      {
        SuppliedSwept(rules, w, op);
      }
    }
  }

  /** What a sweep leaves persistable was so before. */
  lemma ReplayableBack(rules: Rules, w: Installation)
    requires Behind(w) && Sweepable(w) && Replayable(rules, Swept(w))
    ensures Replayable(rules, w)
  {
    var e := Due(w);
    if e.kind.ArchiveEvent? {
      var op: Op :| Derives(w.ledger.tables, e.state.archive, e.kind.event, op)
                    && Supplied(rules, w.ledger.tables, Swept(w).things, e, op);
      ClearSwept(rules, w, op, NamedIn(e.state.archive, op));
      assert Supplied(rules, w.ledger.tables, w.things, e, op);
    }
  }

  // ----- what reconciliations have read

  /** Whatever a reconciliation has read is in the witness's history. */
  ghost predicate HeldOk(x: Watch) {
    forall e :: e in x.held ==>
      1 <= e.sequence <= |x.w.ledger.log| && x.w.ledger.log[e.sequence - 1].task.entry == e
  }

  lemma ReadHeld(x: Watch)
    requires HeldOk(x) && x.w.ledger.log != [] && Last(x.w).sequence == |x.w.ledger.log|
    ensures HeldOk(x.(held := x.held + {Last(x.w)}))
  {
  }

  /** The present entry and the one due carry their numbers, so they are one only if the database is one behind. */
  lemma EntriesNumbered(rules: Rules, g: WitnessHead, w: Installation)
    requires Sound(rules, g, w)
    ensures w.ledger.log != [] ==> Last(w).sequence == |w.ledger.log|
    ensures Behind(w) ==> Due(w).sequence == |w.ledger.database| + 1
  {
    if w.ledger.log != [] {
      assert RecordOk(Wired(rules), g, w.ledger.log, w.ledger.journal, |w.ledger.log| - 1);
    }
    if Behind(w) {
      assert RecordOk(Wired(rules), g, w.ledger.log, w.ledger.journal, |w.ledger.database|);
    }
  }

  /** It adds to the database only if it is the next entry and can be persisted. */
  lemma PersistsOnlyDue(rules: Rules, g: WitnessHead, x: Watch, e: Entry)
    requires Sound(rules, g, x.w) && HeldOk(x) && e in x.held && Replayed(rules, x.w, e).Some?
    ensures Behind(x.w) && e == Due(x.w) && Replayable(rules, x.w)
  {
    ReplaysIff(rules, g, x.w);
  }

  // ----- what a persisted entry leaves

  /** The next entry appends to a set that the database no longer shows streaming. */
  ghost predicate AppendsToClosed(w: Installation)
    requires Behind(w)
  {
    && Due(w).kind == ArchiveEvent(Checkpointed)
    && exists id: Uuid :: ChangedOnlyAt(w.ledger.tables.sets, Due(w).state.archive.sets, id)
                          && !w.ledger.tables.sets[id].lifecycle.Streaming?
  }

  lemma ArchivePersisted(rules: Rules, w: Installation, v: Installation) returns (op: Op)
    requires Presented(rules.dg, w) && Replayed(rules, w, Due(w)) == Some(v)
    ensures Derives(w.ledger.tables, Due(w).state.archive, Due(w).kind.event, op)
    ensures Enter(rules.dg, w.ledger.tables, w.things.intents, rules.released, op, NamedIn(Due(w).state.archive, op))
         == Some(v.ledger.tables)
    ensures v == w.(ledger := w.ledger.(database := w.ledger.database + [Due(w)], tables := v.ledger.tables),
                    things := Settled(w.things, op))
    ensures HostReady(w.things, op)
  {
    op := ReadOff(w.ledger.tables, Due(w).state.archive, Due(w).kind.event).value;
  }

  /** A checkpoint is persisted only off a whole staged file with the digest and length of its descriptor, which is
      thereby promoted. */
  lemma PersistedFrameIsWhole(rules: Rules, g: WitnessHead, w: Installation, v: Installation)
    returns (id: Uuid, d: Descriptor, owner: nat)
    requires Sound(rules, g, w) && Behind(w) && Due(w).kind == ArchiveEvent(Checkpointed)
    requires Replayed(rules, w, Due(w)) == Some(v)
    ensures ChangedOnlyAt(w.ledger.tables.sets, Due(w).state.archive.sets, id)
    ensures var cs := Due(w).state.archive.sets[id].checkpoints; cs != [] && cs[|cs| - 1] == Checkpoint(d)
    ensures (id, d.objectId) in w.things.staging
    ensures w.things.staging[(id, d.objectId)] == Frame(d.ciphertextDigest, d.length, owner)
    ensures v.things.staging == w.things.staging - {(id, d.objectId)}
    ensures v.things.intents == w.things.intents - {d.objectId}
  {
    ArchiveEntryPresented(rules, g, w);
    var op := ArchivePersisted(rules, w, v);
    id, d := op.reservation.setId, op.reservation.desc;
    owner := w.things.staging[(id, d.objectId)].owner;
  }

  /** A start is persisted only with its key in place. */
  lemma PersistedStartHasKey(rules: Rules, g: WitnessHead, w: Installation, v: Installation) returns (id: Uuid)
    requires Sound(rules, g, w) && Behind(w) && Due(w).kind == ArchiveEvent(Started)
    requires Replayed(rules, w, Due(w)) == Some(v)
    ensures AddedOnly(w.ledger.tables.sets, Due(w).state.archive.sets, id) && id in w.things.keys
    ensures v.things == w.things
  {
    ArchiveEntryPresented(rules, g, w);
    var op := ArchivePersisted(rules, w, v);
    id := op.identity.setId;
  }

  /** A process whose entry a reconciliation has persisted meanwhile still commits: an append finds it done, and goes on
      to promote; any other command stops. Neither changes a store. */
  lemma PersistedIsCommittedAgain(rules: Rules, w: Installation, p: nat, v: Installation)
    requires Behind(w) && p in w.processes && w.processes[p].phase.Witnessed? && w.processes[p].task.entry == Due(w)
    requires Replayed(rules, w, Due(w)) == Some(v)
    ensures Act(Wired(rules), v, Commit(p, true))
         == Some(To(v, p, if w.processes[p].task.AppendTask? then Committed else Stopped))
  {
    assert v.processes == w.processes && v.ledger.database == w.ledger.database + [Due(w)];
  }

  lemma ArchivePersistedMirrorsIff(rules: Rules, w: Installation, v: Installation)
    requires Presented(rules.dg, w) && Replayed(rules, w, Due(w)) == Some(v) && Typed(Due(w).state.archive)
    ensures v.ledger.tables == Due(w).state.archive <==> !AppendsToClosed(w)
  {
    var t, e := w.ledger.tables, Due(w);
    var op := ArchivePersisted(rules, w, v);
    EnterMatchesSigned(rules.dg, t, e.state.archive, e.kind.event, w.things.intents, rules.released, op,
                       NamedIn(e.state.archive, op));
  }

  /** After an entry is persisted the tables hold the archive it was signed for, unless it appends to a set that no
      longer streams there. */
  lemma PersistedMirrorsIff(rules: Rules, g: WitnessHead, w: Installation, v: Installation)
    requires Sound(rules, g, w) && Behind(w) && Replayed(rules, w, Due(w)) == Some(v) && Typed(Due(w).state.archive)
    ensures v.ledger.database == w.ledger.database + [Due(w)]
    ensures v.ledger.tables == Due(w).state.archive <==> !AppendsToClosed(w)
  {
    SeenIsCommitted(rules, g, w);
    var r := w.ledger.log[|w.ledger.database|];
    if r.task.entry.kind.ArchiveEvent? {
      ArchiveEntryPresented(rules, g, w);
      ArchivePersistedMirrorsIff(rules, w, v);
    } else {
      OtherKindsKeepArchive(rules, r.seen, r.task.entry);
    }
  }

  lemma InvIsTyped(dg: Digester, s: State)
    requires ArchiveRuns.Inv(dg, s)
    ensures Typed(s)
  {
    forall id: Uuid, i | id in s.sets && 0 <= i < |s.sets[id].checkpoints|
      ensures s.sets[id].checkpoints[i].desc.Valid()
    {
      assert ArchiveRuns.Linked(dg, id, s.sets[id].checkpoints, i);
    }
  }

  /** What a controller checked was checked on a streaming set, if it appends, and leads to a well-formed archive. */
  lemma CheckedIsWellFormed(rules: Rules, seen: WitnessHead, task: Task<Entry>)
    requires ArchiveRuns.Inv(rules.dg, seen.state.archive) && ChecksOut(rules, seen, task) && Reserves(task)
    requires !Unchecked(task)
    ensures ArchiveRuns.Inv(rules.dg, task.entry.state.archive)
    ensures task.entry.kind == ArchiveEvent(Checkpointed) ==>
              forall id: Uuid | ChangedOnlyAt(seen.state.archive.sets, task.entry.state.archive.sets, id) ::
                seen.state.archive.sets[id].lifecycle.Streaming?
  {
    if task.OtherTask? {
      OtherKindsKeepArchive(rules, seen, task.entry);
    } else {
      var op := task.Operation().value;
      CheckedFits(rules, seen, task);
      ArchiveRuns.StepKeeps(rules.dg, seen.state.archive, op, task.entry.state.archive);
    }
  }

  lemma PersistedKeepsAuthority<H(!new), E(!new)>(
    wires: Wires<H, E>, g: H, w: World<H, E>, tables: State, things: Things)
    requires AuthorityInv(wires, g, w) && |w.ledger.database| < |w.ledger.log|
    ensures var database := w.ledger.database + [w.ledger.log[|w.ledger.database|].task.entry];
            AuthorityInv(wires, g, w.(ledger := w.ledger.(database := database, tables := tables), things := things))
  {
    var database := w.ledger.database + [w.ledger.log[|w.ledger.database|].task.entry];
    var v := w.(ledger := w.ledger.(database := database, tables := tables), things := things);
    forall p | p in v.processes
      ensures Relies(wires, v.ledger.journal, v.ledger.log, v.ledger.database, v.processes[p])
    {
      assert Relies(wires, w.ledger.journal, w.ledger.log, w.ledger.database, w.processes[p]);
    }
  }

  lemma PersistedKeepsRows(rules: Rules, t: State, t': State, things: Things, op: Op, named: Digest)
    requires Enter(rules.dg, t, things.intents, rules.released, op, named) == Some(t')
    requires RowsFit(t, things.intents) && RowsApart(things.intents)
    ensures RowsFit(t', Settled(things, op).intents) && RowsApart(Settled(things, op).intents)
  {
    var rest := Settled(things, op).intents;
    assert op.OpCommit? ==> Filed(things.intents, op.reservation);
    assert forall o: Uuid | o in rest :: op.OpCommit? ==> rest[o].setId != op.reservation.setId;
    forall o: Uuid | o in rest
      ensures rest[o].setId in t'.sets && t'.sets[rest[o].setId].head == t.sets[rest[o].setId].head
    {
      EnterKeepsHeads(rules.dg, t, things.intents, rules.released, op, named, rest[o].setId);
    }
  }

  lemma PersistedKeepsTables(rules: Rules, g: WitnessHead, w: Installation, v: Installation)
    requires Sound(rules, g, w) && Behind(w) && Replayed(rules, w, Due(w)) == Some(v)
    requires v.ledger.tables == Due(w).state.archive && ArchiveRuns.Inv(rules.dg, Due(w).state.archive)
    ensures TablesInv(rules, v)
    ensures v == w.(ledger := w.ledger.(database := w.ledger.database + [Due(w)], tables := v.ledger.tables),
                    things := v.things)
  {
    if Due(w).kind.ArchiveEvent? {
      ArchiveEntryPresented(rules, g, w);
      var op := ArchivePersisted(rules, w, v);
      PersistedKeepsRows(rules, w.ledger.tables, v.ledger.tables, w.things, op, NamedIn(Due(w).state.archive, op));
    }
    assert Recorded(Wired(rules), v);
  }

  /** Persisting an entry that a controller checked leaves the installation as sound as that controller's own commit. */
  lemma PersistedIsSound(rules: Rules, g: WitnessHead, w: Installation, v: Installation)
    requires Sound(rules, g, w) && Behind(w) && Replayed(rules, w, Due(w)) == Some(v)
    requires !Unchecked(w.ledger.log[|w.ledger.database|].task)
    ensures Sound(rules, g, v)
  {
    var r := w.ledger.log[|w.ledger.database|];
    SeenIsCommitted(rules, g, w);
    CheckedIsWellFormed(rules, r.seen, r.task);
    InvIsTyped(rules.dg, r.task.entry.state.archive);
    PersistedMirrorsIff(rules, g, w, v);
    PersistedKeepsTables(rules, g, w, v);
    PersistedKeepsAuthority(Wired(rules), g, w, v.ledger.tables, v.things);
  }
}
