/** The installation's witness: a head that signed entries advance one at a time. */
module SafetyWitness {
  import opened Bytes
  import opened Wrappers
  import opened Archive
  import opened ArchiveRuns
  import opened ArchiveSuccessors

  datatype Kind =
    | InstallationInitialized
    | GenerationRegistered
    | ArchiveEvent(event: Event)
    | TargetActivationPlanned
    | RestoreTerminalRecorded
    | RestoreAttemptPrepared
    | SourceFreezeRecorded
    | TargetActivating

  /** The restore slots are carried as their canonical bytes. */
  datatype WitnessState = WitnessState(lineage: seq<Uuid>, archive: State, restore: seq<byte>)

  /** A signed entry; `identity` stands for installation, fingerprint key, continuity proof and signer. */
  datatype Entry = Entry(
    identity: Uuid,
    request: Uuid,
    sequence: u64,
    previous: Digest,
    kind: Kind,
    generation: Uuid,
    epoch: u64,
    state: WitnessState)

  datatype WitnessHead = WitnessHead(
    identity: Uuid,
    sequence: u64,
    chain: Digest,
    generation: Uuid,
    epoch: u64,
    state: WitnessState)

  datatype SafetyError = InvalidSignature | SequenceConflict | IdentityMismatch | InvalidStateTransition

  /** What witness and database are built on: digests, signatures and which restore events fit the restore slots; the
      installation behind an identity, the holds that the restore tables have released, and what the procedures for
      initialization, generations and restore events ask of the tables that are theirs alone. */
  datatype Rules = Rules(
    dg: Digester,
    entryDigest: Entry -> Digest,
    verifies: Entry -> bool,
    restoreAllows: (Entry, seq<byte>) -> bool,
    installation: Uuid -> Uuid,
    released: Uuid -> bool,
    othersStore: (seq<Entry>, Entry) -> bool)

  function RegisterGeneration(s: WitnessState, next: Uuid): Result<WitnessState, SafetyError> {
    if s.lineage == [] || s.lineage[|s.lineage| - 1] == next then Err(InvalidStateTransition)
    else Ok(s.(lineage := s.lineage + [next]))
  }

  /** Whether an entry of its kind may follow this head. */
  ghost predicate KindAllows(rules: Rules, head: WitnessHead, entry: Entry) {
    if entry.kind.GenerationRegistered? then
      && entry.generation != head.generation
      && head.epoch < U64_MAX && entry.epoch == head.epoch + 1
      && RegisterGeneration(head.state, entry.generation) == Ok(entry.state)
      && rules.restoreAllows(entry, head.state.restore)
    else
      && entry.generation == head.generation
      && entry.epoch == head.epoch
      && match entry.kind
         case InstallationInitialized => entry.state == head.state
         case ArchiveEvent(e) => Accepts(rules.dg, e, head.state.archive, entry.state.archive)
         case _ =>
           && entry.state.lineage == head.state.lineage
           && entry.state.archive == head.state.archive
           && rules.restoreAllows(entry, head.state.restore)
  }

  ghost function AcceptSigned(rules: Rules, head: WitnessHead, entry: Entry): Outcome<SafetyError> {
    if !rules.verifies(entry) then Fail(InvalidSignature)
    else if head.sequence == U64_MAX then Fail(SequenceConflict)
    else if entry.sequence != head.sequence + 1 || entry.identity != head.identity || entry.previous != head.chain
    then Fail(IdentityMismatch)
    else if KindAllows(rules, head, entry) then Pass
    else Fail(InvalidStateTransition)
  }

  /** The head that a witness receipt for this entry is reopened as. */
  function Advanced(digest: Entry -> Digest, head: WitnessHead, entry: Entry): WitnessHead {
    WitnessHead(head.identity, entry.sequence, digest(entry), entry.generation, entry.epoch, entry.state)
  }

  /** Whoever writes it, an accepted entry that is not an archive event leaves the archive slot alone. */
  lemma OtherKindsKeepArchive(rules: Rules, head: WitnessHead, entry: Entry)
    requires AcceptSigned(rules, head, entry).Pass? && !entry.kind.ArchiveEvent?
    ensures entry.state.archive == head.state.archive
  {
  }

  /** The append path compares states but never the event kind; acceptance forces the kind all the same. */
  lemma CheckpointKindForced(rules: Rules, head: WitnessHead, entry: Entry, r: Reservation)
    requires Inv(rules.dg, head.state.archive) && r.Valid()
    requires CommitCheckpoint(rules.dg, head.state.archive, r, Checkpoint(r.desc)) == Ok(entry.state.archive)
    requires AcceptSigned(rules, head, entry).Pass?
    ensures entry.kind == ArchiveEvent(Checkpointed)
  {
  }
}
