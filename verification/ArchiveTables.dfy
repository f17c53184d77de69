/** The database tables of the archive: the rows of its sets, the pending append intents, and the guarded
    procedures that file, drop and enter them. */
module ArchiveTables {
  import opened Bytes
  import opened Wrappers
  import opened Archive
  import opened ArchiveRuns
  import opened ArchiveSuccessors

  const I32_MAX: int := 0x7FFF_FFFF
  const I64_MAX: int := 0x7FFF_FFFF_FFFF_FFFF

  // ----- pending appends

  /** A pending append as its row holds it, and the process that filed it. */
  datatype Intent = Intent(setId: Uuid, ordinal: u64, predecessor: Digest, content: Digest, owner: nat) {
    predicate For(r: Reservation) {
      && setId == r.setId && ordinal == r.desc.ordinal && predecessor == r.expected.digest
      && content == r.desc.ciphertextDigest
    }
  }

  /** Rows are filed under the identifier of their object. */
  type Intents = map<Uuid, Intent>

  predicate Filed(intents: Intents, r: Reservation) {
    r.desc.objectId in intents && intents[r.desc.objectId].For(r)
  }

  predicate PendingOn(intents: Intents, id: Uuid) {
    exists o: Uuid :: o in intents && intents[o].setId == id
  }

  /** The set is streaming behind this head. */
  predicate StandsAt(t: State, id: Uuid, head: ArchiveHead) {
    id in t.sets && t.sets[id].lifecycle.Streaming? && t.sets[id].head == head
  }

  /** Reserving needs the live head, an unused identifier, and no other row for the set's next ordinal. */
  predicate CanReserve(t: State, intents: Intents, r: Reservation) {
    && StandsAt(t, r.setId, r.expected)
    && r.desc.ordinal <= I64_MAX
    && r.desc.objectId !in intents
    && !exists o: Uuid :: o in intents && intents[o].setId == r.setId && intents[o].ordinal == r.desc.ordinal
  }

  /** Abandoning needs the live head and the exact row. */
  predicate CanAbandon(t: State, intents: Intents, r: Reservation) {
    StandsAt(t, r.setId, r.expected) && Filed(intents, r)
  }

  // ----- one row constraint each

  /** The object row that the lifecycle and hold triggers look for. */
  predicate HasBaseRow(b: BackupSet) {
    exists i :: 0 <= i < |b.checkpoints| && b.checkpoints[i].desc.ordinal == 1 && b.checkpoints[i].desc.kind.BaseChunk?
  }

  /** The trigger on object rows: a base at ordinal one and nowhere else, and segments that descend from it. */
  predicate BaseTriggerPasses(b: BackupSet, d: Descriptor) {
    && (d.ordinal == 1 ==> d.kind.BaseChunk?)
    && (d.ordinal > 1 ==> !d.kind.BaseChunk? && HasBaseRow(b))
    && (d.kind.WalSegment? ==>
          forall i :: 0 <= i < |b.checkpoints| ==>
            var base := b.checkpoints[i].desc;
            base.ordinal == 1 && base.kind.BaseChunk? ==> d.timeline == base.timeline && base.startLsn <= d.startLsn)
  }

  /** No object of the set has this identifier or this content. */
  predicate NewObject(b: BackupSet, d: Descriptor) {
    forall i :: 0 <= i < |b.checkpoints| ==>
      b.checkpoints[i].desc.objectId != d.objectId && b.checkpoints[i].desc.ciphertextDigest != d.ciphertextDigest
  }

  /** The numbers fit their signed columns. */
  predicate ColumnsFit(d: Descriptor) {
    && d.ordinal <= I64_MAX && d.timeline <= I32_MAX
    && d.startLsn <= I64_MAX && d.endLsn <= I64_MAX && d.length <= I64_MAX
  }

  predicate HeldSomewhere(t: State, hold: Uuid) {
    exists id: Uuid :: id in t.sets && hold in t.sets[id].holds
  }

  /** No hold of the set is unreleased; the restore tables release some that the signed state shows active. */
  predicate Unheld(b: BackupSet, released: Uuid -> bool) {
    forall k: Uuid :: k in b.holds && b.holds[k].Active() ==> released(k)
  }

  // ----- the guarded procedures

  function EnterStart(t: State, identity: Identity, initial: ArchiveHead): Option<State> {
    if identity.setId in t.sets then None
    else Some(Put(t, identity.setId,
                  BackupSet(identity, Streaming, false, None, None, ArchiveHead(0, initial.digest), [], map[])))
  }

  /** The lifecycle is not looked at here. */
  function EnterCheckpoint(dg: Digester, t: State, intents: Intents, r: Reservation, c: Checkpoint): Option<State> {
    if r.setId !in t.sets || c.desc != r.desc then None
    else
      var b := t.sets[r.setId];
      if c.desc.ordinal != b.head.ordinal + 1 || c.desc.predecessor != b.head.digest || !Filed(intents, r)
         || !BaseTriggerPasses(b, c.desc) || !NewObject(b, c.desc) || !ColumnsFit(c.desc)
      then None
      else Some(Put(t, r.setId, b.(head := ArchiveHead(c.desc.ordinal, dg(c)), checkpoints := b.checkpoints + [c])))
  }

  /** Hold identifiers are unique over all sets. */
  function EnterHold(t: State, id: Uuid, hold: Uuid): Option<State> {
    if id !in t.sets || !t.sets[id].lifecycle.Streaming? || HeldSomewhere(t, hold) || !HasBaseRow(t.sets[id]) then None
    else Some(Put(t, id, t.sets[id].(holds := t.sets[id].holds[hold := RestoreHold(hold, None)])))
  }

  function EnterSealing(t: State, intents: Intents, released: Uuid -> bool, op: Op): Option<State>
    requires op.OpBeginSealing? || op.OpCommitSealed?
  {
    if op.setId !in t.sets || !Unheld(t.sets[op.setId], released) || !HasBaseRow(t.sets[op.setId]) then None
    else
      var b := t.sets[op.setId];
      if op.OpBeginSealing? then
        if b.lifecycle.Streaming? then Some(Put(t, op.setId, b.(lifecycle := Sealing))) else None
      else if b.lifecycle.Sealing? && !PendingOn(intents, op.setId)
      then Some(Put(t, op.setId, b.(lifecycle := Sealed))) else None
  }

  /** Recording an erasure names the preparation again, though the signed state it leads to does not depend on it. */
  function EnterDeletion(t: State, released: Uuid -> bool, op: Op, named: Digest): Option<State>
    requires op.OpPrepareDeletion? || op.OpPrepareKeyErasure? || op.OpRecordKeyErased? || op.OpFinalizeDeleted?
  {
    if op.setId !in t.sets then None
    else
      var b := t.sets[op.setId];
      match op
      case OpPrepareDeletion(id, d) =>
        if b.lifecycle.Sealed? && Unheld(b, released) && b.deletionPreparation.None? && HasBaseRow(b)
        then Some(Put(t, id, b.(lifecycle := DeletionPrepared, deletionPreparation := Some(d)))) else None
      case OpPrepareKeyErasure(id, d) =>
        if b.lifecycle.DeletionPrepared? && b.deletionPreparation == Some(d)
        then Some(Put(t, id, b.(keyErasurePreparation := Some(d)))) else None
      case OpRecordKeyErased(id) =>
        if b.lifecycle.DeletionPrepared? && b.deletionPreparation == Some(named) && b.keyErasurePreparation.Some?
           && HasBaseRow(b)
        then Some(Put(t, id, b.(lifecycle := ArchiveKeyErased))) else None
      case OpFinalizeDeleted(id) =>
        if b.lifecycle.ArchiveKeyErased? && HasBaseRow(b) then Some(Put(t, id, b.(lifecycle := Deleted))) else None
  }

  /** What the procedure for an operation makes of the tables, or its refusal. No procedure releases a hold as part of
      an archive entry. */
  function Enter(dg: Digester, t: State, intents: Intents, released: Uuid -> bool, op: Op, named: Digest): Option<State>
  {
    match op
    case OpStart(identity, initial) => EnterStart(t, identity, initial)
    case OpCommit(r, c) => EnterCheckpoint(dg, t, intents, r, c)
    case OpHold(id, hold) => EnterHold(t, id, hold)
    case OpRelease(_, _, _) => None
    case OpBeginSealing(_) => EnterSealing(t, intents, released, op)
    case OpCommitSealed(_) => EnterSealing(t, intents, released, op)
    case _ => EnterDeletion(t, released, op, named)
  }

  /** Where procedure and operation both go through they agree, if sets start at ordinal zero. */
  lemma EnterAgrees(dg: Digester, t: State, intents: Intents, released: Uuid -> bool, op: Op, named: Digest)
    requires Enter(dg, t, intents, released, op, named).Some? && Apply(dg, t, op).Ok?
    requires op.OpStart? ==> op.initial.ordinal == 0
    ensures Enter(dg, t, intents, released, op, named).value == Apply(dg, t, op).value
  {
  }

  /** A procedure leaves every head alone but that of the set it appends to, and drops no set. */
  lemma EnterKeepsHeads(
    dg: Digester, t: State, intents: Intents, released: Uuid -> bool, op: Op, named: Digest, id: Uuid)
    requires Enter(dg, t, intents, released, op, named).Some? && id in t.sets
    requires op.OpCommit? ==> id != op.reservation.setId
    ensures var t' := Enter(dg, t, intents, released, op, named).value;
            id in t'.sets && t'.sets[id].head == t.sets[id].head
  {
  }

  /** No procedure lets a set stream again. */
  lemma EnterKeepsClosed(
    dg: Digester, t: State, intents: Intents, released: Uuid -> bool, op: Op, named: Digest, id: Uuid)
    requires Enter(dg, t, intents, released, op, named).Some? && id in t.sets && !t.sets[id].lifecycle.Streaming?
    ensures var t' := Enter(dg, t, intents, released, op, named).value;
            id in t'.sets && !t'.sets[id].lifecycle.Streaming?
  {
  }

  // ----- when a procedure goes through

  /** What the witness has established of an operation by the time its procedure is called, whether a controller
      compared the states or the supervisor derived the operation from them. */
  predicate Fitting(t: State, op: Op) {
    if op.OpStart? then op.identity.setId !in t.sets
    else
      && op.Target() in t.sets
      && var b := t.sets[op.Target()];
      match op
      case OpStart(_, _) => true
      case OpCommit(r, c) =>
        r.Valid() && c.desc == r.desc && r.expected == b.head && ValidateAppendKind(b, r.desc).Pass?
      case OpHold(_, _) => b.HasBase()
      case OpRelease(_, _, _) => false
      case OpBeginSealing(_) => b.lifecycle.Streaming? && b.HasBase()
      case OpCommitSealed(_) => b.lifecycle.Sealing?
      case OpPrepareDeletion(_, _) => b.lifecycle.Sealed?
      case OpPrepareKeyErasure(_, d) => b.lifecycle.DeletionPrepared? && b.deletionPreparation == Some(d)
      case OpRecordKeyErased(_) => b.lifecycle.DeletionPrepared?
      case OpFinalizeDeleted(_) => b.lifecycle.ArchiveKeyErased?
  }

  /** What the procedure asks beyond that. A row that is not filed may still come, so it is kept apart. */
  predicate Clear(t: State, intents: Intents, released: Uuid -> bool, op: Op, named: Digest) {
    && Fitting(t, op)
    && match op
       case OpCommit(r, _) => NewObject(t.sets[r.setId], r.desc) && ColumnsFit(r.desc)
       case OpHold(id, hold) => t.sets[id].lifecycle.Streaming? && !HeldSomewhere(t, hold)
       case OpBeginSealing(id) => Unheld(t.sets[id], released)
       case OpCommitSealed(id) => !PendingOn(intents, id)
       case OpRecordKeyErased(id) =>
         t.sets[id].deletionPreparation == Some(named) && t.sets[id].keyErasurePreparation.Some?
       case _ => true
  }

  /** The row of a set that no longer streams. */
  predicate OnClosedSet(t: State, i: Intent) {
    i.setId in t.sets && !t.sets[i.setId].lifecycle.Streaming?
  }

  ghost predicate ClosedRowsKept(t: State, intents: Intents, intents': Intents) {
    forall o: Uuid :: o in intents && OnClosedSet(t, intents[o]) ==> o in intents' && intents'[o] == intents[o]
  }

  /** While the rows of such sets stay, nothing gets clear that was not. */
  lemma ClearBack(t: State, intents: Intents, intents': Intents, released: Uuid -> bool, op: Op, named: Digest)
    requires ClosedRowsKept(t, intents, intents') && Clear(t, intents', released, op, named)
    ensures Clear(t, intents, released, op, named)
  {
  }

  lemma BaseIsFirstRow(dg: Digester, id: Uuid, b: BackupSet)
    requires SetInv(dg, id, b)
    ensures HasBaseRow(b) <==> b.checkpoints != []
    ensures b.HasBase() <==> b.checkpoints != []
    ensures forall i :: 0 <= i < |b.checkpoints| && b.checkpoints[i].desc.ordinal == 1 ==> i == 0
  {
    if b.checkpoints != [] {
      assert Linked(dg, id, b.checkpoints, 0);
      assert b.checkpoints[0].desc.ordinal == 1;
    }
    forall i | 0 <= i < |b.checkpoints| ensures b.checkpoints[i].desc.ordinal == i + 1 {
      assert Linked(dg, id, b.checkpoints, i);
    }
  }

  lemma CheckpointEntersIff(dg: Digester, t: State, intents: Intents, r: Reservation, c: Checkpoint)
    requires Inv(dg, t) && Fitting(t, OpCommit(r, c))
    ensures EnterCheckpoint(dg, t, intents, r, c).Some? <==>
            Filed(intents, r) && NewObject(t.sets[r.setId], r.desc) && ColumnsFit(r.desc)
  {
    var b := t.sets[r.setId];
    assert SetInv(dg, r.setId, b);
    BaseIsFirstRow(dg, r.setId, b);
    assert BaseTriggerPasses(b, r.desc);
  }

  lemma OthersEnterIff(dg: Digester, t: State, intents: Intents, released: Uuid -> bool, op: Op, named: Digest)
    requires Inv(dg, t) && Fitting(t, op) && !op.OpCommit?
    ensures Enter(dg, t, intents, released, op, named).Some? <==> Clear(t, intents, released, op, named)
  {
    if !op.OpStart? {
      var b := t.sets[op.setId];
      assert SetInv(dg, op.setId, b);
      BaseIsFirstRow(dg, op.setId, b);
      if !b.lifecycle.Streaming? {
        assert !b.HasActiveHold();
        assert Unheld(b, released);
      }
    }
  }

  /** So on well-formed tables the procedure goes through exactly when nothing of that stands in the way. */
  lemma EntersIff(dg: Digester, t: State, intents: Intents, released: Uuid -> bool, op: Op, named: Digest)
    requires Inv(dg, t) && Fitting(t, op)
    ensures Enter(dg, t, intents, released, op, named).Some? <==>
            Clear(t, intents, released, op, named) && (op.OpCommit? ==> Filed(intents, op.reservation))
  {
    if op.OpCommit? {
      CheckpointEntersIff(dg, t, intents, op.reservation, op.checkpoint);
    } else {
      OthersEnterIff(dg, t, intents, released, op, named);
    }
  }

  lemma AppliedFits(dg: Digester, t: State, op: Op)
    requires Inv(dg, t) && op.Valid() && !op.OpRelease? && Apply(dg, t, op).Ok?
    ensures Fitting(t, op)
  {
  }

  // ----- the operation behind a signed pair of states

  /** What the supervisor reads off two successive signed states: the one set that differs and what is new about it. */
  ghost predicate Derives(before: State, after: State, e: Event, op: Op) {
    && op.Valid() && Produces(op, e)
    && op.Target() in after.sets
    && var a := after.sets[op.Target()];
    if op.OpStart? then
      AddedOnly(before.sets, after.sets, op.identity.setId) && op == OpStart(a.identity, a.head)
    else
      && ChangedOnlyAt(before.sets, after.sets, op.Target())
      && var b := before.sets[op.Target()];
      match op
      case OpCommit(r, c) => a.checkpoints != [] && c == a.checkpoints[|a.checkpoints| - 1] && r.desc == c.desc
                             && r.expected == b.head
      case OpHold(_, hold) => hold in a.holds && hold !in b.holds
      case OpPrepareDeletion(_, d) => a.deletionPreparation == Some(d)
      case OpPrepareKeyErasure(_, d) => a.keyErasurePreparation == Some(d)
      case _ => true
  }

  lemma DerivedFits(dg: Digester, before: State, after: State, e: Event, op: Op)
    requires Inv(dg, before) && Accepts(dg, e, before, after) && Derives(before, after, e, op)
    ensures Fitting(before, op)
  {
    if !e.Started? {
      var id: Uuid :| ChangedOnlyAt(before.sets, after.sets, id)
                      && ChangeOf(dg, e)(id, before.sets[id], after.sets[id]);
      assert id == op.Target();
      assert SetInv(dg, id, before.sets[id]);
    }
  }

  /** It reads off one operation only. */
  lemma DerivedOnce(dg: Digester, before: State, after: State, e: Event, op: Op, op': Op)
    requires Accepts(dg, e, before, after) && Derives(before, after, e, op) && Derives(before, after, e, op')
    ensures op == op'
  {
    assert op.Target() == op'.Target();
    if e.HoldAcquired? {
      var id: Uuid :| ChangedOnlyAt(before.sets, after.sets, id)
                      && ChangeOf(dg, e)(id, before.sets[id], after.sets[id]);
      assert id == op.Target();
      var hold := NewHoldIsOne(before.sets[id], after.sets[id]);
      assert op.hold == hold && op'.hold == hold;
    }
  }

  lemma CheckpointMatchesSigned(dg: Digester, t: State, after: State, intents: Intents, r: Reservation, c: Checkpoint)
    requires Accepts(dg, Checkpointed, t, after) && Derives(t, after, Checkpointed, OpCommit(r, c))
    requires EnterCheckpoint(dg, t, intents, r, c).Some?
    ensures EnterCheckpoint(dg, t, intents, r, c).value == after <==> t.sets[r.setId].lifecycle.Streaming?
  {
    var id: Uuid :| ChangedOnlyAt(t.sets, after.sets, id)
                    && ChangeOf(dg, Checkpointed)(id, t.sets[id], after.sets[id]);
    assert id == r.setId;
    var b, a := t.sets[id], after.sets[id];
    assert a.checkpoints == b.checkpoints + [c];
    var t' := EnterCheckpoint(dg, t, intents, r, c).value;
    assert t'.sets[id] == a.(lifecycle := b.lifecycle);
    assert t'.sets == t.sets[id := t'.sets[id]] && after.sets == t.sets[id := a];
  }

  lemma HoldMatchesSigned(dg: Digester, t: State, after: State, id: Uuid, hold: Uuid)
    requires Accepts(dg, HoldAcquired, t, after) && Derives(t, after, HoldAcquired, OpHold(id, hold)) && Typed(after)
    requires EnterHold(t, id, hold).Some?
    ensures EnterHold(t, id, hold).value == after
  {
    var x: Uuid :| ChangedOnlyAt(t.sets, after.sets, x) && ChangeOf(dg, HoldAcquired)(x, t.sets[x], after.sets[x]);
    assert x == id;
    var added := NewHoldIsOne(t.sets[id], after.sets[id]);
    assert added == hold && after.sets[id].holds[hold] == RestoreHold(hold, None);
    assert EnterHold(t, id, hold).value.sets[id] == after.sets[id];
  }

  lemma OthersMatchSigned(dg: Digester, t: State, after: State, e: Event, intents: Intents, released: Uuid -> bool,
                          op: Op, named: Digest)
    requires Accepts(dg, e, t, after) && Derives(t, after, e, op) && !op.OpCommit? && !op.OpHold?
    requires Enter(dg, t, intents, released, op, named).Some?
    ensures Enter(dg, t, intents, released, op, named).value == after
  {
    if e.Started? {
      var id: Uuid :| AddedOnly(t.sets, after.sets, id) && FreshSet(after.sets[id]);
      assert id == op.Target();
    } else {
      var id: Uuid :| ChangedOnlyAt(t.sets, after.sets, id) && ChangeOf(dg, e)(id, t.sets[id], after.sets[id]);
      assert id == op.Target();
    }
    assert Enter(dg, t, intents, released, op, named).value.sets[op.Target()] == after.sets[op.Target()];
  }

  /** What a procedure makes of the tables is the archive that was signed, unless it appends to a set that no longer
      streams: the procedure does not look at the lifecycle, and the signed archive shows the set streaming again. */
  lemma EnterMatchesSigned(dg: Digester, t: State, after: State, e: Event, intents: Intents, released: Uuid -> bool,
                           op: Op, named: Digest)
    requires Accepts(dg, e, t, after) && Derives(t, after, e, op) && Typed(after)
    requires Enter(dg, t, intents, released, op, named).Some?
    ensures Enter(dg, t, intents, released, op, named).value == after <==>
            (op.OpCommit? ==> t.sets[op.reservation.setId].lifecycle.Streaming?)
  {
    match op
    case OpCommit(r, c) => CheckpointMatchesSigned(dg, t, after, intents, r, c);
    case OpHold(id, hold) => HoldMatchesSigned(dg, t, after, id, hold);
    case _ => OthersMatchSigned(dg, t, after, e, intents, released, op, named);
  }

  ghost function ReadOff(before: State, after: State, e: Event): (op: Option<Op>)
    ensures op.Some? ==> Derives(before, after, e, op.value)
    ensures op.None? ==> forall x: Op :: !Derives(before, after, e, x)
  {
    if x: Op :| Derives(before, after, e, x) then Some(x) else None
  }

  /** The preparation that goes with it. */
  function NamedIn(after: State, op: Op): Digest {
    if op.OpRecordKeyErased? && op.setId in after.sets && after.sets[op.setId].deletionPreparation.Some?
    then after.sets[op.setId].deletionPreparation.value else 0
  }
}
