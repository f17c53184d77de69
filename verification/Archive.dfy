/** The backup-archive state and its transitions: sets of backups, each with a lifecycle, a hash-chained checkpoint
    list, restore holds and deletion digests. */
module Archive {
  import opened Bytes
  import opened Wrappers

  // ----- values

  datatype ArchiveError =
    | Malformed
    | DuplicateBackupSet
    | DuplicateRestoreHold
    | UnknownBackupSet
    | NotStreaming
    | NotRestorable
    | BaseCheckpointRequired
    | DuplicateBaseCheckpoint
    | BaseCheckpointMustBeFirst
    | BaseCheckpointAncestryMismatch
    | RestoreHoldPresent
    | ArchiveHeadMismatch
    | InvalidLifecycleTransition
    | RestoreHoldAlreadyReleased

  datatype Lifecycle = Streaming | Sealing | Sealed | DeletionPrepared | ArchiveKeyErased | Deleted {
    function Code(): byte {
      match this
      case Streaming => 0
      case Sealing => 1
      case Sealed => 2
      case DeletionPrepared => 3
      case ArchiveKeyErased => 4
      case Deleted => 5
    }

    /** The states that carry a deletion preparation. */
    predicate Condemned() { DeletionPrepared? || ArchiveKeyErased? || Deleted? }
  }

  datatype ObjectKind = BaseChunk | WalSegment | TimelineHistory {
    function Code(): byte {
      match this
      case BaseChunk => 0
      case WalSegment => 1
      case TimelineHistory => 2
    }
  }

  datatype ArchiveHead = ArchiveHead(ordinal: u64, digest: Digest)

  datatype Identity = Identity(setId: Uuid, installationId: Uuid, generationId: Uuid)

  datatype Descriptor = Descriptor(
    setId: Uuid,
    objectId: Uuid,
    kind: ObjectKind,
    ordinal: u64,
    timeline: u32,
    startLsn: u64,
    endLsn: u64,
    ciphertextDigest: Digest,
    plaintextDigest: Digest,
    length: u64,
    predecessor: Digest)
  {
    /** What the descriptor constructor checks; every descriptor that exists passed it. */
    predicate Valid() {
      ordinal != 0 && timeline != 0 && startLsn <= endLsn && length != 0
    }
  }

  datatype Checkpoint = Checkpoint(desc: Descriptor)

  /** How a checkpoint is digested; the state machine is the same for every digest function. */
  type Digester = Checkpoint -> Digest

  datatype Reservation = Reservation(setId: Uuid, expected: ArchiveHead, desc: Descriptor) {
    /** What the reservation constructor checks. */
    predicate Valid() {
      && desc.Valid()
      && desc.setId == setId
      && desc.predecessor == expected.digest
      && expected.ordinal < U64_MAX
      && desc.ordinal == expected.ordinal + 1
    }
  }

  function NewReservation(setId: Uuid, expected: ArchiveHead, desc: Descriptor): (r: Result<Reservation, ArchiveError>)
    requires desc.Valid()
    ensures r.Ok? ==> r.value.Valid()
  {
    if desc.setId != setId
      || desc.predecessor != expected.digest
      || expected.ordinal == U64_MAX
      || desc.ordinal != expected.ordinal + 1
    then Err(ArchiveHeadMismatch)
    else Ok(Reservation(setId, expected, desc))
  }

  datatype ReleaseReason =
    | TargetInitializationComplete(receipt: Digest)
    | SourceResumePrepared(receipt: Digest)
    | RefusedTargetDestroyed(receipt: Digest)
    | SalvageInstallationCompleted(receipt: Digest)

  datatype RestoreHold = RestoreHold(id: Uuid, released: Option<ReleaseReason>) {
    predicate Active() { released.None? }
  }

  datatype BackupSet = BackupSet(
    identity: Identity,
    lifecycle: Lifecycle,
    deletionRequested: bool,
    deletionPreparation: Option<Digest>,
    keyErasurePreparation: Option<Digest>,
    head: ArchiveHead,
    checkpoints: seq<Checkpoint>,
    holds: map<Uuid, RestoreHold>)
  {
    predicate HasBase() {
      checkpoints != [] && checkpoints[0].desc.kind.BaseChunk?
    }

    predicate HasActiveHold() {
      exists k: Uuid :: k in holds && holds[k].Active()
    }
  }

  datatype State = State(sets: map<Uuid, BackupSet>)

  const EMPTY := State(map[])

  // ----- guards

  function GetSet(s: State, id: Uuid): Result<BackupSet, ArchiveError> {
    if id in s.sets then Ok(s.sets[id]) else Err(UnknownBackupSet)
  }

  function ValidateAppendKind(b: BackupSet, desc: Descriptor): Outcome<ArchiveError> {
    match (b.HasBase(), desc.kind)
    case (false, BaseChunk) =>
      if desc.ordinal == 1 then Pass else Fail(BaseCheckpointMustBeFirst)
    case (false, _) => Fail(BaseCheckpointRequired)
    case (true, BaseChunk) => Fail(DuplicateBaseCheckpoint)
    case (true, WalSegment) =>
      var base := b.checkpoints[0].desc;
      if desc.timeline != base.timeline || desc.startLsn < base.startLsn
      then Fail(BaseCheckpointAncestryMismatch) else Pass
    case (true, _) => Pass
  }

  function RequireNoActiveHolds(s: State, id: Uuid): Outcome<ArchiveError> {
    if id !in s.sets then Fail(UnknownBackupSet)
    else if s.sets[id].HasActiveHold() then Fail(RestoreHoldPresent)
    else Pass
  }

  function Put(s: State, id: Uuid, b: BackupSet): State {
    State(s.sets[id := b])
  }

  function TransitionFrom(s: State, id: Uuid, from: Lifecycle, to: Lifecycle): Result<State, ArchiveError> {
    var b :- GetSet(s, id);
    if b.lifecycle != from then Err(InvalidLifecycleTransition)
    else Ok(Put(s, id, b.(lifecycle := to)))
  }

  // ----- transitions

  function StartStreaming(s: State, identity: Identity, head: ArchiveHead): Result<State, ArchiveError> {
    if identity.setId in s.sets then Err(DuplicateBackupSet)
    else Ok(Put(s, identity.setId, BackupSet(identity, Streaming, false, None, None, head, [], map[])))
  }

  function ReserveAppend(s: State, id: Uuid, expected: ArchiveHead, desc: Descriptor): Result<Reservation, ArchiveError>
    requires desc.Valid()
  {
    var b :- GetSet(s, id);
    if !b.lifecycle.Streaming? then Err(NotStreaming) else
      :- ValidateAppendKind(b, desc);
      if b.head != expected then Err(ArchiveHeadMismatch)
      else NewReservation(id, expected, desc)
  }

  function CommitCheckpoint(dg: Digester, s: State, r: Reservation, c: Checkpoint): Result<State, ArchiveError> {
    var b :- GetSet(s, r.setId);
    if !b.lifecycle.Streaming? || b.head != r.expected then Err(ArchiveHeadMismatch)
    else if c.desc != r.desc then Err(ArchiveHeadMismatch)
    else
      :- ValidateAppendKind(b, c.desc);
      Ok(Put(s, r.setId, b.(head := ArchiveHead(c.desc.ordinal, dg(c)),
                            checkpoints := b.checkpoints + [c])))
  }

  function AcquireRestoreHold(s: State, id: Uuid, hold: Uuid): Result<State, ArchiveError> {
    var b :- GetSet(s, id);
    if !b.lifecycle.Streaming? then Err(NotRestorable)
    else if !b.HasBase() then Err(NotRestorable)
    else if hold in b.holds then Err(DuplicateRestoreHold)
    else Ok(Put(s, id, b.(holds := b.holds[hold := RestoreHold(hold, None)])))
  }

  function ReleaseRestoreHold(s: State, id: Uuid, hold: Uuid, reason: ReleaseReason): Result<State, ArchiveError> {
    var b :- GetSet(s, id);
    if hold !in b.holds then Err(UnknownBackupSet)
    else if !b.holds[hold].Active() then Err(RestoreHoldAlreadyReleased)
    else Ok(Put(s, id, b.(holds := b.holds[hold := b.holds[hold].(released := Some(reason))])))
  }

  function BeginSealing(s: State, id: Uuid): Result<State, ArchiveError> {
    var b :- GetSet(s, id);
    if !b.lifecycle.Streaming? then Err(InvalidLifecycleTransition)
    else if !b.HasBase() then Err(NotRestorable)
    else if b.HasActiveHold() then Err(RestoreHoldPresent)
    else Ok(Put(s, id, b.(lifecycle := Sealing)))
  }

  function CommitSealed(s: State, id: Uuid): Result<State, ArchiveError> {
    var held := RequireNoActiveHolds(s, id);
    if held.Fail? then Err(held.error)
    else TransitionFrom(s, id, Sealing, Sealed)
  }

  function PrepareDeletion(s: State, id: Uuid, preparation: Digest): Result<State, ArchiveError> {
    var held := RequireNoActiveHolds(s, id);
    if held.Fail? then Err(held.error) else
      var next :- TransitionFrom(s, id, Sealed, DeletionPrepared);
      var b :- GetSet(next, id);
      Ok(Put(next, id, b.(deletionPreparation := Some(preparation))))
  }

  function PrepareKeyErasure(s: State, id: Uuid, preparation: Digest): Result<State, ArchiveError> {
    var b :- GetSet(s, id);
    if !b.lifecycle.DeletionPrepared? || b.deletionPreparation != Some(preparation) || b.keyErasurePreparation.Some?
    then Err(InvalidLifecycleTransition)
    else Ok(Put(s, id, b.(keyErasurePreparation := Some(preparation))))
  }

  function RecordKeyErased(s: State, id: Uuid): Result<State, ArchiveError> {
    var b :- GetSet(s, id);
    if b.keyErasurePreparation.None? || b.keyErasurePreparation != b.deletionPreparation
    then Err(InvalidLifecycleTransition)
    else TransitionFrom(s, id, DeletionPrepared, ArchiveKeyErased)
  }

  function FinalizeDeleted(s: State, id: Uuid): Result<State, ArchiveError> {
    TransitionFrom(s, id, ArchiveKeyErased, Deleted)
  }

  // ----- one operation of the machine

  datatype Op =
    | OpStart(identity: Identity, initial: ArchiveHead)
    | OpCommit(reservation: Reservation, checkpoint: Checkpoint)
    | OpHold(setId: Uuid, hold: Uuid)
    | OpRelease(setId: Uuid, hold: Uuid, reason: ReleaseReason)
    | OpBeginSealing(setId: Uuid)
    | OpCommitSealed(setId: Uuid)
    | OpPrepareDeletion(setId: Uuid, preparation: Digest)
    | OpPrepareKeyErasure(setId: Uuid, preparation: Digest)
    | OpRecordKeyErased(setId: Uuid)
    | OpFinalizeDeleted(setId: Uuid)
  {
    /** Arguments that the constructors of the source's argument types allow. */
    predicate Valid() { OpCommit? ==> reservation.Valid() }

    function Target(): Uuid {
      match this
      case OpStart(identity, _) => identity.setId
      case OpCommit(reservation, _) => reservation.setId
      case _ => setId
    }
  }

  function Apply(dg: Digester, s: State, op: Op): Result<State, ArchiveError> {
    match op
    case OpStart(identity, initial) => StartStreaming(s, identity, initial)
    case OpCommit(reservation, checkpoint) => CommitCheckpoint(dg, s, reservation, checkpoint)
    case OpHold(id, hold) => AcquireRestoreHold(s, id, hold)
    case OpRelease(id, hold, reason) => ReleaseRestoreHold(s, id, hold, reason)
    case OpBeginSealing(id) => BeginSealing(s, id)
    case OpCommitSealed(id) => CommitSealed(s, id)
    case OpPrepareDeletion(id, preparation) => PrepareDeletion(s, id, preparation)
    case OpPrepareKeyErasure(id, preparation) => PrepareKeyErasure(s, id, preparation)
    case OpRecordKeyErased(id) => RecordKeyErased(s, id)
    case OpFinalizeDeleted(id) => FinalizeDeleted(s, id)
  }
}
