# Verification of Vestrace's archive, effect and delivery protocols

This project models, in Dafny, the parts of Vestrace whose correctness spans many operations, processes and
crashes, and proves what they promise.

**The backup archive.** `Archive` is the state machine of managed backups: sets with a six-step lifecycle, a
hash-chained checkpoint list behind a compare-and-swap head, restore holds, and two deletion digests.
`ArchiveRuns` proves what every run keeps. `ArchiveSuccessors` models the six hand-written "exact successor"
predicates, loops included, and proves when they agree with the operations they re-describe. `ArchiveCodec`,
`ArchiveStateCodec` and `ArchiveRoundTrip` define the canonical bytes and prove both round trips;
`ArchiveDecoder` and `ArchiveEncoder` are the decoder and encoder as they run, a cursor and a growing buffer,
proved equal to those definitions; `ArchiveLayout` says at which offset each field stands and which bytes are
accepted, `ArchiveCapacity` which inputs make the decoder ask for too much memory.
`ArchiveHistory` proves that a head digest fixes the whole history behind it.

**The authority around it.** `SafetyWitness` is the signed-entry rule of the installation's witness, `ArchiveTables`
the database's side of it: archive tables, pending append rows and the guarded procedures with all their refusals.
`ArchiveProtocol` is the small-step machine of any number of controllers and other writers around one journal,
witness, database, key custody and staging area, with a failure, a lost reply or a crash possible at every step.
`ArchiveProtocolSafety`, `ArchiveProtocolCleanup`, `ArchiveProtocolRetention` and `ArchiveMirror` prove what each step
keeps, `ArchiveAuthority` and `ArchiveWitnessHistory` what that means for whole runs. `ArchiveReconciliation` is the
supervisor's reconciliation, `ArchiveCommitted` what the database holds after any run of both. `ArchiveProtocolStall`
and `ArchiveStall` say when processes, and when the supervisor, can bring the database up to the witness,
`ArchiveDeadEnds` when nobody ever can. `ArchiveProtocolLosses` and `ArchiveUndone` hold what a failure before the
journal removes and the runs in which cleanup goes too far, `ArchiveBeginning` and `ArchiveFirstSeal` the runs that
get there from any genesis. The mutation permit is not modelled: the results hold for every interleaving, including
those the permit would exclude.

**External effects.** `EffectDispatch` is `perform` with every crash prefix. `EffectStore` is the durable
evidence and the rule of the recovery query, `EffectRecovery` the sweep over it, `EffectFairness` and
`EffectSweeps` the proof that bounded passes starve nobody, from the crash of a call to the question about it.
`OutcomeDelivery` tells runs what became of their effects, and `OutcomeFairness` says which of them are told in time.

**Smaller pieces.** `Outbox` (bounded retries, dead letters, an emptying backlog), `RunStepAcceptance` (the
saga that schedules work last), `RequestEvidence` (node sets that match their revisions exactly) and
`FeatureGraph` (the depth-first check of the feature list).

Conventions. UUIDs and digests are integers of their width, written big-endian, and `Bytes.BigEndianOrder` shows
that their numeric order is the byte order the source's maps use. SHA-256 is a function parameter: where a result
needs it collision-free, the statement exhibits the collision instead. Wherever the source talks to storage, a
clock or another process, the model takes the outcome as a parameter, so each result holds for all outcomes.
Ghost parameters named `one` stand for any function equal to an element parser or printer.

Where the code and its comments disagree the code is followed:

- `outbox.rs` speaks of five attempts in "a little over eight minutes" and a delay capped at eight minutes; the
  five attempts span at least 450 seconds and the 480-second delay is computed only for a message that is
  dead-lettered.
- `append_wal` never compares the event kind its siblings insist on; the witness forces it
  (`ArchiveWitnessHistory.AppendsAreCheckpoints`).
- Cleanup is said to happen only before journal durability. A controller's own cleanup removes what belongs to a
  journalled entry when the append reported failure after writing (`ArchiveUndone.AmbiguousStartIsUndone` and
  `AmbiguousAppendIsUndone`) or when another process journalled the same entry (`ArchiveUndone.SharedEntryIsUndone`),
  and in no other case (`ArchiveAuthority.CleanupBeforeJournal`). The supervisor is the third way: its sweep of pending
  appends takes row and object of one that has journalled its entry and is about to advance the witness
  (`ArchiveUndone.JournalledAppendIsSwept`), whose commit is then refused (`ArchiveUndone.SweptAppendIsLost`).
- Reconciliation is said to persist what a crash left between witness and database. It persists the witness's present
  entry if that is the next one and everything its procedure asks is still there
  (`ArchiveStall.ReconciliationHelpsIff`): not an entry whose object a cleanup has removed
  (`ArchiveUndone.LostObjectIsNotReconciled`), nothing once the database is two entries behind
  (`ArchiveDeadEnds.TwoBehindForGood`), and, once a set has begun to seal over a pending append, no entry that
  a controller checked, of any set (`ArchiveDeadEnds.StrandedAppendDisablesReconciling`).
- A set is said not to seal before its append intents drain. The database refuses to, the witness does not: it advances
  by the seal, and from there the database never grows again (`ArchiveDeadEnds.PendingAppendStopsSeal`), because a
  pending append can be abandoned only while its set streams.
- Nothing is said of an outcome whose run has no stream but that the next pass tries again; a batch of them in front
  stops delivery for good (`OutcomeFairness.StarvedForever`), as a batch of messages without handlers stops the outbox
  (`Outbox.ObstructedForever`).
- The decoder is said to refuse malformed bytes. It asks for room for as many checkpoints as a set counts before it
  reads any, so a count beyond what memory can hold makes it panic (`ArchiveCapacity.HugeCountPanics`), though never
  on bytes it would accept (`ArchiveCapacity.AcceptedNeverPanics`).
- A dispatch deadline is said to outlast a live call. It does exactly when the call begins within five seconds of
  the time the dispatch is recorded under (`EffectDispatch.DeadlineSparesLiveCall`).
- A set may be started at any head, but from a non-zero ordinal it can never change again
  (`ArchiveRuns.MisstartedSetIsStuck`) and its state does not decode (`ArchiveRoundTrip.DecodeUndoesEncode`).

## Model

| member | source | states |
|---|---|---|
| `ArchiveRuns.StepKeeps` | crates/vestrace-domain/src/backup_archive.rs:426-912 | every successful operation keeps the full invariant (gap-free ordinals, hash links, one base at the front, segment ancestry, head of the list, digests and holds matching the lifecycle), touches only its own set, and moves that set forward by at most one lifecycle state |
| `ArchiveRuns.RunKeeps` | crates/vestrace-domain/src/backup_archive.rs:426-912 | over any run the invariant stays and every set only evolves: checkpoints and holds are never lost, digests never replaced, head and list change together |
| `ArchiveRuns.FrozenAfterStreaming` | crates/vestrace-domain/src/backup_archive.rs:784-912 | over any run, a set that has left Streaming has no active hold, never changes head, checkpoints or holds, and carries equal preparation digests once its key is erased |
| `ArchiveRuns.UnreleasedHoldKeepsStreaming` | crates/vestrace-domain/src/backup_archive.rs:784-870 | over any run that does not release it, an active hold stays active and its set stays Streaming |
| `ArchiveRuns.NoLifecycleSkipped` | crates/vestrace-domain/src/backup_archive.rs:835-912 | between two lifecycle states a run passes through each state in between |
| `ArchiveRuns.HoldBlocksSealing` | crates/vestrace-domain/src/backup_archive.rs:784-847 | a hold blocks sealing, cannot be taken twice, is released once with its reason recorded, and then sealing goes through |
| `ArchiveRuns.DeletionPath` | crates/vestrace-domain/src/backup_archive.rs:854-912 | from Sealed, key erasure is prepared for the prepared digest only and once, recorded only after that, and only then is deletion final |
| `ArchiveRuns.ReserveIffCommit` | crates/vestrace-domain/src/backup_archive.rs:509-559 | reserving succeeds exactly when committing that reservation would |
| `ArchiveRuns.CommitsIff` | crates/vestrace-domain/src/backup_archive.rs:533-559 | in every well-formed state a reservation is committed if and only if its set streams at the expected head and its object may follow: a base at ordinal one where there is no checkpoint, and after a base a timeline history, or a segment on the base's timeline that starts no earlier; the set then gains that checkpoint and its head, and nothing else changes |
| `ArchiveRuns.ReservesIff` | crates/vestrace-domain/src/backup_archive.rs:509-531 | reserving asks exactly that, and a descriptor that fits set and head |
| `ArchiveRuns.AppendRefusals` | crates/vestrace-domain/src/backup_archive.rs:1103-1131 | which of the four refusals an object meets that may not follow |
| `ArchiveRuns.LifecycleIff` | crates/vestrace-domain/src/backup_archive.rs:835-912 | in every well-formed state: sealing begins if and only if the set streams with a checkpoint and no unreleased hold; it is sealed, condemned and deleted from the step before it; key erasure is prepared once, for the digest deletion was prepared with, and recorded only then |
| `ArchiveRuns.LifecycleRefusals` | crates/vestrace-domain/src/backup_archive.rs:835-912 | and which refusal each of them meets otherwise |
| `ArchiveRuns.HoldsIff` | crates/vestrace-domain/src/backup_archive.rs:784-833 | a hold is taken if and only if the set streams with a checkpoint and does not have it, and released if and only if it is there unreleased; and which refusal is met otherwise |
| `ArchiveRuns.UnknownIsRefused` | crates/vestrace-domain/src/backup_archive.rs:426-445 | a set is started if and only if its identifier is new, and every other operation on an unknown set is refused as unknown |
| `ArchiveRuns.SpentReservationRefused` | crates/vestrace-domain/src/backup_archive.rs:533-559 | once the head has passed it, a reservation is refused in every later state |
| `ArchiveRuns.OneCommitPerHead` | crates/vestrace-domain/src/backup_archive.rs:533-559 | no run commits two reservations for the same set and expected head |
| `ArchiveRuns.ReservationStaysGood` | crates/vestrace-domain/src/backup_archive.rs:509-559 | while its set's head and lifecycle are unchanged a reservation still commits, whatever happened to other sets or holds |
| `ArchiveRuns.MisstartedSetIsStuck` | crates/vestrace-domain/src/backup_archive.rs:426-449 | a set started away from ordinal zero is never changed by any run |
| `ArchiveSuccessors.ExactlyOneChanged` | crates/vestrace-domain/src/backup_archive.rs:563-610 | the shared loop of the predicates answers true exactly when one existing entry differs, the change test accepts it, and no entry came or went |
| `ArchiveSuccessors.ExactlyOneAdded` | crates/vestrace-domain/src/backup_archive.rs:614-638 | the loop of the started predicate answers true exactly when one new acceptable entry was added and nothing else changed |
| `ArchiveSuccessors.IsExactCheckpointSuccessorOf` | crates/vestrace-domain/src/backup_archive.rs:563-610 | decides the meaning of the checkpoint predicate |
| `ArchiveSuccessors.CheckpointAcceptedIff` | crates/vestrace-domain/src/backup_archive.rs:563-610 | on a well-formed state the checkpoint predicate accepts a successor if and only if exactly one set gained one checkpoint, its own, next in order, chained to its head and able to follow the others, streams, and is otherwise as it was |
| `ArchiveSuccessors.IsExactStartedSuccessorOf` | crates/vestrace-domain/src/backup_archive.rs:614-638 | decides the meaning of the started predicate |
| `ArchiveSuccessors.IsExactHoldSuccessorOf` | crates/vestrace-domain/src/backup_archive.rs:641-677 | decides the meaning of the hold predicate |
| `ArchiveSuccessors.IsExactLifecycleSuccessorOf` | crates/vestrace-domain/src/backup_archive.rs:681-715 | decides the meaning of the lifecycle predicate for its four events |
| `ArchiveSuccessors.IsExactPreparedDeletionSuccessorOf` | crates/vestrace-domain/src/backup_archive.rs:719-749 | decides the meaning of the prepared-deletion predicate |
| `ArchiveSuccessors.IsExactKeyErasurePreparedSuccessorOf` | crates/vestrace-domain/src/backup_archive.rs:753-782 | decides the meaning of the key-erasure predicate |
| `ArchiveSuccessors.EventsExclusive` | crates/vestrace-domain/src/backup_archive.rs:563-782 | no two predicates accept the same pair of states, and none accepts a state as its own successor |
| `ArchiveSuccessors.OperationsAccepted` | crates/vestrace-domain/src/backup_archive.rs:563-782 | the result of an operation is accepted by its predicate, unless a set was started away from ordinal zero |
| `ArchiveSuccessors.PredicateIffOperation` | crates/vestrace-domain/src/backup_archive.rs:563-782 | a successor is produced by some call of the event's operation exactly when the predicate accepts it and the guards it omits hold |
| `ArchiveSuccessors.SealingPredicateIgnoresHolds` | crates/vestrace-domain/src/backup_archive.rs:681-715 | the lifecycle predicate accepts sealing a held set, which no operation produces |
| `ArchiveRoundTrip.DecodeUndoesEncode` | crates/vestrace-domain/src/backup_archive.rs:914-1089 | for every well-formed state, decoding its canonical bytes returns it if and only if no set without checkpoints sits at a non-zero ordinal |
| `ArchiveRoundTrip.CanonicalBytesInjective` | crates/vestrace-domain/src/backup_archive.rs:914-948 | distinct decodable states have distinct canonical bytes |
| `ArchiveRoundTrip.EncodeUndoesDecode` | crates/vestrace-domain/src/backup_archive.rs:950-1089 | for any non-empty accepted bytes, re-encoding returns them if and only if set and hold identifiers were listed in ascending order |
| `ArchiveRoundTrip.StateParsed` | crates/vestrace-domain/src/backup_archive.rs:950-1089 | whatever is accepted is exactly the printed form of a listing that passes every check |
| `ArchiveRoundTrip.DecodedSetsAreFew` | crates/vestrace-domain/src/backup_archive.rs:950-1089 | an accepted input holds at most a 108th as many sets as bytes |
| `ArchiveDecoder.Decode` | crates/vestrace-domain/src/backup_archive.rs:950-1089 | for every input and every capacity, the cursor-driven decoder panics if and only if it reaches a checkpoint count beyond capacity, and otherwise returns what the parser definition says |
| `ArchiveDecoder.PanicsIff` | crates/vestrace-domain/src/backup_archive.rs:960-1086 | asking for room set by set panics exactly when some set that is read at all asks for too much, and otherwise changes nothing |
| `ArchiveCapacity.AcceptedCountsAreSmall` | crates/vestrace-domain/src/backup_archive.rs:984-998 | in an accepted input no set counts more checkpoints than a 215th of the input's bytes |
| `ArchiveCapacity.AcceptedNeverPanics` | crates/vestrace-domain/src/backup_archive.rs:984-985 | where a checkpoint takes at most 215 bytes of memory, memory that holds an accepted input has room for all its counts |
| `ArchiveCapacity.HugeCountPanics` | crates/vestrace-domain/src/backup_archive.rs:984-985 | for every set and every count beyond capacity, the input cut off after that count is no state, yet the decoder panics on it instead of refusing it |
| `ArchiveDecoder.Decoder.Take` | crates/vestrace-domain/src/backup_archive.rs:1181-1192 | takes exactly the requested bytes or fails leaving the cursor in place; the cursor never leaves the input |
| `ArchiveDecoder.Decoder.DescriptorValue` | crates/vestrace-domain/src/backup_archive.rs:246-261 | reads one descriptor as the parser defines it, refusing what its constructor refuses |
| `ArchiveDecoder.Decoder.CheckpointField` | crates/vestrace-domain/src/backup_archive.rs:988-990 | reads one checkpoint through a decoder of its own that must end with the field |
| `ArchiveDecoder.Decoder.Checkpoints` | crates/vestrace-domain/src/backup_archive.rs:984-998 | the checkpoint loop panics exactly when the count exceeds capacity, and otherwise reads and refuses as its recursive definition does |
| `ArchiveDecoder.Decoder.Holds` | crates/vestrace-domain/src/backup_archive.rs:1046-1067 | the hold loop fills the map and refuses a repeat as its recursive definition does |
| `ArchiveDecoder.Decoder.Sets` | crates/vestrace-domain/src/backup_archive.rs:960-1086 | the set loop fills the map, refuses a repeat and panics as its recursive definition does |
| `ArchiveDecoder.RisesIfRising` | crates/vestrace-domain/src/backup_archive.rs:984-998 | refusing a fallen ordinal on the spot refuses exactly the lists that do not rise |
| `ArchiveDecoder.InsertsIfDistinct` | crates/vestrace-domain/src/backup_archive.rs:1046-1086 | refusing a repeated identifier on the spot refuses exactly the lists whose identifiers are not distinct |
| `ArchiveEncoder.Encode` | crates/vestrace-domain/src/backup_archive.rs:914-948 | the buffer-filling encoder returns the canonical bytes |
| `ArchiveEncoder.EncodeCore` | crates/vestrace-domain/src/backup_archive.rs:919-933 | appends exactly the printed form of everything before a set's lists |
| `ArchiveEncoder.EncodeCheckpoints` | crates/vestrace-domain/src/backup_archive.rs:934-937 | appends exactly the printed checkpoint list |
| `ArchiveEncoder.EncodeHolds` | crates/vestrace-domain/src/backup_archive.rs:938-945 | appends exactly the printed hold list |
| `ArchiveLayout.EncodedLayout` | crates/vestrace-domain/src/backup_archive.rs:914-948 | where every field of every state stands in its canonical bytes, by offset: version 3, the sets by ascending identifier, each with identity, lifecycle code, flag, preparations and head, its checkpoints and its holds, and nothing after the last |
| `ArchiveLayout.DecodedLayout` | crates/vestrace-domain/src/backup_archive.rs:950-1089 | what the decoder accepts is laid out so, and each field of what it returns is read from its own offset |
| `ArchiveLayout.DescriptorLayout` | crates/vestrace-domain/src/backup_archive.rs:232-261 | the eleven fields of a descriptor stand at offsets 0, 16, 32, 33, 41, 45, 53, 61, 93, 125 and 133 of 165 bytes |
| `ArchiveLayout.DigitsOf` | crates/vestrace-domain/src/backup_archive.rs:232-244 | a number is its bytes as digits, the most significant first |
| `ArchiveLayout.DecodesIff` | crates/vestrace-domain/src/backup_archive.rs:950-1089 | bytes decode if and only if they are empty or spell out sets with distinct identifiers, each with its own checkpoints in rising order, a base only in front and at ordinal one, the head of its last checkpoint, the preparations of its lifecycle, and distinct holds |
| `ArchiveHistory.HeadCommitsToHistory` | crates/vestrace-domain/src/backup_archive.rs:533-559 | two sets of any reachable states with a checkpoint each and equal head digests hold the same checkpoints, or two of those checkpoints show a hash collision |
| `ArchiveHistory.HistoryStartsAtGenesis` | crates/vestrace-domain/src/backup_archive.rs:426-449 | the first checkpoint of any run names the digest its set was started from, at ordinal zero |
| `ArchiveHistory.HeadCommitsToGenesis` | crates/vestrace-domain/src/backup_archive.rs:426-559 | equal head digests mean equal starting heads, or a collision |
| `ArchiveHistory.BytesDiffer` | crates/vestrace-domain/src/backup_archive.rs:321-337 | distinct checkpoints have distinct canonical bytes |
| `SafetyWitness.OtherKindsKeepArchive` | crates/vestrace-domain/src/installation_safety.rs:717-935 | an accepted entry of any other kind leaves the archive slot alone |
| `SafetyWitness.CheckpointKindForced` | crates/vestrace-domain/src/installation_safety.rs:783-792 | an accepted entry that carries a committed checkpoint state has the checkpoint kind |
| `ArchiveProtocolSafety.AuthorityKept` | crates/vestrace-application/src/backup_archive.rs:661-942 | every step of every process keeps: the witness head is its last advance, each advance replaced the head it was checked against and was journalled first, the database is a prefix of the advances |
| `ArchiveProtocolCleanup.CleanupKept` | crates/vestrace-application/src/backup_archive.rs:1014-1068 | every step keeps: what a process filed under a set, object or staging name is its own while it may still remove it, and each removal was by the owner before any sound journal append |
| `ArchiveProtocolRetention.JournalKept` | crates/vestrace-application/src/backup_archive.rs:712-714 | every step keeps: the journal holds exactly the entries of the processes that wrote to it |
| `ArchiveProtocolRetention.RetentionKept` | crates/vestrace-application/src/backup_archive.rs:1014-1068 | every step keeps: whoever journalled soundly, crashed or not, still has its key filed, its intent until its entry is committed and its staged object until it is promoted |
| `ArchiveProtocolLosses.AmbiguousAppendLosesKey` | crates/vestrace-application/src/backup_archive.rs:712-714 | from any state in which a start stands before the journal, a run in which its append fails after writing and its key is discarded |
| `ArchiveProtocolLosses.AmbiguousAppendLosesObject` | crates/vestrace-application/src/backup_archive.rs:824-828 | from any state in which an append stands before the journal, a run in which its append fails after writing and it turns back: its intent and staged object are removed if and only if the database still shows its set streaming behind the expected head, and otherwise nothing is |
| `ArchiveProtocolLosses.SharedEntryLosesObject` | crates/vestrace-application/src/backup_archive.rs:738-828 | from any such state on the present head, a run in which every journal append is answered truthfully, another process brings the same entry to the witness, and the append turns back while the database stands still, with the same two outcomes |
| `ArchiveAuthority.DurableOrder` | crates/vestrace-application/src/backup_archive.rs:738-852 | in every reachable state promoted implies committed implies witnessed implies journalled, and the database is a prefix of the witness history |
| `ArchiveAuthority.ChainUnbroken` | crates/vestrace-domain/src/installation_safety.rs:717-900 | in every reachable state each accepted entry is signed, of this installation, next in number, chained to the digest of the entry before it, in the same generation and epoch or, if and only if it registers a generation, in another and the next, and makes of the state only what its kind may |
| `ArchiveAuthority.EpochCountsRegistrations` | crates/vestrace-domain/src/installation_safety.rs:743-753 | so the epoch counts the generations registered |
| `ArchiveAuthority.EntriesLinked` | crates/vestrace-domain/src/installation_safety.rs:717-733 | witnessed entries are numbered without gaps, each names the digest of the one before, the head that of the last |
| `ArchiveAuthority.HeadFixesHistory` | crates/vestrace-domain/src/installation_safety.rs:717-733 | two histories of one genesis with equal head digests hold the same entries throughout, or two of those entries collide |
| `ArchiveAuthority.CleanupBeforeJournal` | crates/vestrace-application/src/backup_archive.rs:1014-1068 | over every run of controllers and other writers each removal is of the remover's own artifact, and the entry it belonged to is in the journal if and only if the remover's own append failed after writing or another process carrying the same entry wrote it |
| `ArchiveUndone.FailedStartLeavesNoKey` | crates/vestrace-application/src/backup_archive.rs:1038-1053 | in every reachable state in which a start has created its key and journalled nothing, an error or a clean journal failure followed by its cleanup removes that key and changes nothing else |
| `ArchiveUndone.FailedReservationLeavesNoRow` | crates/vestrace-application/src/backup_archive.rs:1014-1036 | in every reachable state in which an append has reserved, an error followed by its cleanup removes its row if and only if the database still shows the set streaming, and changes nothing else |
| `ArchiveUndone.FailedStagingLeavesNoRow` | crates/vestrace-application/src/backup_archive.rs:752-765 | so does a staging that fails, and it leaves what it may have written |
| `ArchiveUndone.FailedAppendLeavesNothing` | crates/vestrace-application/src/backup_archive.rs:1014-1068 | in every reachable state in which an append has staged and journalled nothing, error, abandonment and unstaging go through if and only if the database still shows the set streaming; then row and object are gone and nothing else has changed, and otherwise the refused abandonment leaves both |
| `ArchiveProtocolLosses.OtherFailureStops` | crates/vestrace-application/src/backup_archive.rs:715-735 | any other failure leaves every store as it was and ends its process |
| `ArchiveUndone.CommittedIsPromoted` | crates/vestrace-application/src/backup_archive.rs:838-850 | in every reachable state in which an append has committed, its own whole file is still staged, and promotion takes it and changes no other store |
| `ArchiveAuthority.UnambiguousJournalIsNeverUndone` | crates/vestrace-application/src/backup_archive.rs:1014-1068 | so if no append fails after writing and no two processes carry one entry, nothing that belongs to a journalled entry is ever removed |
| `ArchiveUndone.AmbiguousStartIsUndone` | crates/vestrace-application/src/backup_archive.rs:712-714 | in every reachable state in which a start has passed its checks, such a run leads to a reachable state without its key |
| `ArchiveUndone.AmbiguousAppendIsUndone` | crates/vestrace-application/src/backup_archive.rs:824-828 | in every reachable state in which an append has passed its checks, such a run leads to a reachable state with its entry journalled, and without its intent and object if and only if the database still shows its set streaming |
| `ArchiveUndone.SharedEntryIsUndone` | crates/vestrace-application/src/backup_archive.rs:738-828 | in every reachable state in which an append has passed its checks on the present head, the truthful sharing run leads to a reachable state in which its entry is journalled and witnessed, and its intent and object are gone if and only if the database still shows its set streaming |
| `ArchiveUndone.LostObjectIsNotReconciled` | crates/vestrace-cli/src/commands/safety_supervisor.rs:2374-2435 | where the database is level, they are gone, and no number of reconciliations ever persists the entry |
| `ArchiveUndone.JournalledAppendIsSwept` | crates/vestrace-cli/src/commands/safety_supervisor.rs:2738-2790 | in every reachable state in which an append has journalled its entry on the present head, a reconciliation's sweep removes its row and staged object if and only if no pending append stops the sweep |
| `ArchiveUndone.SweptAppendIsLost` | crates/vestrace-cli/src/commands/safety_supervisor.rs:2738-2790 | that append goes on to advance the witness, its commit is refused, and neither that reconciliation nor any number of others persists its entry |
| `ArchiveUndone.FirstChunkIsUndone` | crates/vestrace-application/src/backup_archive.rs:661-830 | from every genesis, with the installation initialized, a set started and its base chunk signed, both losses are reached, and after the truthful one no reconciliation persists the chunk |
| `ArchiveAuthority.SoundWriterKeeps` | crates/vestrace-application/src/backup_archive.rs:661-942 | in every reachable state a process that journalled without doubt has its entry in the journal and keeps its key, and its intent and object until committed and promoted |
| `ArchiveTables.EnterAgrees` | docker/postgres/init-runtime-role.sh:4173-4480 | where a guarded procedure and the operation it stands for both go through, they make the same of the archive |
| `ArchiveTables.EntersIff` | docker/postgres/init-runtime-role.sh:4173-4540 | on well-formed tables, and for an operation the witness has accepted, the procedure goes through if and only if: a checkpoint's row is filed, its object and content new to the set and its numbers within their columns; a hold is in no set and its set streams; no unreleased hold keeps a set from sealing; no append is pending on a set that seals; an erasure names the preparation and was prepared |
| `ArchiveTables.DerivedOnce` | crates/vestrace-cli/src/commands/safety_supervisor.rs:2337-2733 | from two successive signed states the supervisor can read off one operation at most |
| `ArchiveMirror.TablesKept` | docker/postgres/init-runtime-role.sh:4173-4480 | every step of every process keeps: the archive tables hold the archive of the last committed entry, and a set has at most one pending row, which waits on its present head |
| `ArchiveMirror.ReachedMirrors` | docker/postgres/init-runtime-role.sh:4195-4322 | so it is in every reachable state |
| `ArchiveMirror.ReservesIffAlone` | docker/postgres/init-runtime-role.sh:4195-4208 | in every reachable state a reservation goes through if and only if it fits together, the database shows its set streaming behind the expected head, no append to that set is pending, its object identifier is free and its ordinal fits its column |
| `ArchiveCommitted.CommittedOnce` | docker/postgres/init-runtime-role.sh:4073-4192 | after any run of processes and reconciliations: committed entries are numbered from one without gaps, the first and no other initializes, no two share a request or a digest; every set in the tables was started by one of them, of its installation and generation; no hold is filed under two sets, and no two objects of a set share an identifier or a content |
| `ArchiveReconciliation.SweepableIff` | crates/vestrace-cli/src/commands/safety_supervisor.rs:2738-2790 | the sweep of pending appends is stopped if and only if one of them waits on the witness's present head and its set no longer streams in the database |
| `ArchiveReconciliation.ReplaysIff` | crates/vestrace-cli/src/commands/safety_supervisor.rs:2278-2600 | the next entry is persisted if and only if it is storable and everything its operation needs is there: key, pending row, staged object, and what the procedure asks |
| `ArchiveReconciliation.ReplayableSwept` | crates/vestrace-cli/src/commands/safety_supervisor.rs:2734-2790 | a sweep that goes through takes nothing that persisting the present entry needs, nor removes what stands in its way |
| `ArchiveTables.EnterMatchesSigned` | docker/postgres/init-runtime-role.sh:4249-4322 | what a procedure makes of the tables is the archive the entry was signed for, if and only if it does not append to a set that no longer streams, a lifecycle the checkpoint procedure does not look at |
| `ArchiveReconciliation.PersistedMirrorsIff` | crates/vestrace-cli/src/commands/safety_supervisor.rs:2374-2435 | so after a reconciliation has persisted an entry, checked or not, the tables hold its archive if and only if it does not append to such a set |
| `ArchiveReconciliation.CheckpointReplaysIff` | crates/vestrace-cli/src/commands/safety_supervisor.rs:2374-2435 | a checkpoint due is persisted if and only if its entry can be stored, its object is new to the set in name and content, its numbers fit their columns, its row is filed as reserved and its staged file is whole, of its digest and length |
| `ArchiveReconciliation.PersistedFrameIsWhole` | crates/vestrace-cli/src/commands/safety_supervisor.rs:2374-2435 | and what is persisted had such a file, which is promoted and its row consumed |
| `ArchiveReconciliation.PersistedStartHasKey` | crates/vestrace-cli/src/commands/safety_supervisor.rs:2374-2435 | a start is persisted only with its key in place |
| `ArchiveReconciliation.PersistedIsCommittedAgain` | docker/postgres/init-runtime-role.sh:4261-4290 | a process whose entry a reconciliation has persisted meanwhile still commits without changing anything: an append goes on to promote, any other command stops |
| `ArchiveReconciliation.PersistedIsSound` | crates/vestrace-cli/src/commands/safety_supervisor.rs:2278-2600 | and persisting an entry that a controller checked keeps everything a controller's own commit keeps: the order of durable writes, the tables as the last entry's archive, and at most one pending row a set |
| `ArchiveStall.CatchesUpIff` | crates/vestrace-application/src/backup_archive.rs:715-730 | while the witness is ahead, processes alone can add to the database if and only if the one that advanced the witness by the next entry is still there to commit it and its procedure has no lasting objection: request, digest and numbers storable, a start for this installation and generation, object or hold new, no append pending on a set to seal, the right preparation named |
| `ArchiveStall.LostCommitterStalls` | crates/vestrace-application/src/backup_archive.rs:829-849 | once that process leaves its phase without committing, no step of any process ever adds to the database |
| `ArchiveStall.ReconciliationHelpsIff` | crates/vestrace-cli/src/commands/safety_supervisor.rs:2278-2600 | any number of reconciliations alone can add to the database if and only if it is exactly one entry behind, no pending append stops the sweep, and that entry can be persisted: a start with its key, a checkpoint with its row and staged object, a seal with no append pending, and no objection of the procedure |
| `ArchiveStall.HopelessNeverGrows` | crates/vestrace-cli/src/commands/safety_supervisor.rs:2278-2600 | where the next entry is refused for good to whoever advanced the witness by it, and reconciliation is stopped, refused or not on that entry, no run of processes and reconciliations, interleaved in any way, ever adds to the database |
| `ArchiveDeadEnds.TwoBehindForGood` | crates/vestrace-cli/src/commands/safety_supervisor.rs:2278-2290 | once two entries are witnessed beyond the database and nobody is left to commit the first, no run and no reconciliation ever adds to the database |
| `ArchiveDeadEnds.JammedForGood` | crates/vestrace-cli/src/commands/safety_supervisor.rs:2738-2790 | the same when nobody is left and a pending append stops the sweep |
| `ArchiveDeadEnds.PendingAppendStopsSeal` | docker/postgres/init-runtime-role.sh:4364-4378 | once the witness has sealed a set on which the database holds a pending append, no run and no reconciliation ever adds to the database, though the process that sealed it be there to commit |
| `ArchiveDeadEnds.SealStalls` | docker/postgres/init-runtime-role.sh:4345-4378 | from every reachable state with a level database, a pending append on a set and a signed seal of it, the seal's own run leads to such a database, its process waiting |
| `ArchiveDeadEnds.StrandedAppendDisablesReconciling` | docker/postgres/init-runtime-role.sh:4212-4229 | once a set no longer streams over a pending append, the row is there for good, and in no later reachable state does any number of reconciliations persist an entry a controller checked, of any set |
| `ArchiveFirstSeal.FirstSealStalls` | docker/postgres/init-runtime-role.sh:4345-4378 | from every genesis: a second append reserves and dies, its set is sealed, and the database never grows again |
| `ArchiveDeadEnds.TwoAdvancesStick` | crates/vestrace-cli/src/commands/safety_supervisor.rs:2278-2290 | from every reachable state with a level database, an unanswered advance and one more advance lead to a database that never grows again |
| `ArchiveWitnessHistory.CheckedIsStep` | crates/vestrace-application/src/backup_archive.rs:1071-1101 | what a controller checked is one operation of the machine on the head it read |
| `ArchiveWitnessHistory.UncheckedIsStepIff` | crates/vestrace-application/src/installation_safety.rs:384-403 | an archive entry taken at face value is a machine step exactly when its event's omitted guards hold |
| `ArchiveWitnessHistory.HistoryIsRunIff` | crates/vestrace-application/src/backup_archive.rs:661-942 | under every interleaving and failure the archive states held by the witness form a run of the machine if and only if every unchecked archive entry met its omitted guards |
| `ArchiveWitnessHistory.FollowsIsRun` | crates/vestrace-application/src/backup_archive.rs:661-942 | a history of machine steps is one run from the empty archive |
| `ArchiveWitnessHistory.ControllersFollowMachine` | crates/vestrace-application/src/backup_archive.rs:661-942 | when only controllers sign archive events, every witness state is reached from the empty archive by a run that releases no hold and starts sets at ordinal zero |
| `ArchiveWitnessHistory.WitnessStatesDecode` | crates/vestrace-domain/src/installation_safety.rs:206-213 | every archive state the witness has held comes back from the canonical bytes of its archive slot |
| `ArchiveWitnessHistory.HeldSetsStayStreaming` | crates/vestrace-application/src/backup_archive.rs:857-898 | a set once held is held and Streaming in every later witness state |
| `ArchiveWitnessHistory.AppendsAreCheckpoints` | crates/vestrace-application/src/backup_archive.rs:738-830 | whatever an append advanced the witness with was a checkpoint event |
| `ArchiveWitnessHistory.ManifestHasOneDigest` | crates/vestrace-application/src/backup_archive.rs:946-980 | the deletion manifest of a key-erased set is released for exactly one digest, and the set has checkpoints and no active hold |
| `EffectDispatch.Process.Perform` | crates/vestrace-application/src/external_effects.rs:136-169 | however it ends, what happened is the script up to some point, and success means all of it; and if the adapter was called, then intent, matching allowed authorization and dispatch with deadline are in the record before the call, in that order |
| `EffectDispatch.Process.Authorize` | crates/vestrace-application/src/external_effects.rs:40-64 | succeeds only for a decision that authorizes exactly this intent, after recording it; a mismatching allowed decision is not recorded |
| `EffectDispatch.Process.Dispatch` | crates/vestrace-application/src/external_effects.rs:72-100 | calls the adapter only after validating it and recording the dispatch with its deadline |
| `EffectDispatch.CalledAsDecided` | crates/vestrace-application/src/external_effects.rs:40-100 | wherever it stops: if the adapter was called, the stored decision allows the workspace, actor, capability, operation and target of the intent, the adapter is the intent's own, and the dispatch expires five seconds after the adapter's stated timeout or after 300 seconds |
| `EffectDispatch.CalledIfDecided` | crates/vestrace-application/src/external_effects.rs:136-169 | and where they do, it is called if and only if the adapter keeps its contract |
| `EffectDispatch.PerformedLeaves` | crates/vestrace-application/src/external_effects.rs:136-169 | a refused decision leaves nothing that recovery reads, and a run to its end leaves its receipt, which is the effect's last transition |
| `EffectDispatch.LostDispatchIsFindable` | crates/vestrace-infrastructure/src/postgres/external_effect_repository.rs:23-87 | whatever was written since about other effects, in any table, recovery may ask about a call without receipt exactly once its deadline has passed or its worker is gone |
| `EffectDispatch.DeadlineSparesLiveCall` | crates/vestrace-application/src/external_effects.rs:83-87 | the deadline spares a call inside its timeout if and only if the call began within the five-second margin |
| `EffectStore.AtMostOneAdopts` | crates/vestrace-infrastructure/src/postgres/external_effect_repository.rs:617-673 | of any number of sweepers, interleaved with any other writes, at most one adopts a lost dispatch |
| `EffectStore.LostRowsStayBacked` | crates/vestrace-infrastructure/src/postgres/external_effect_repository.rs:617-673 | whatever happens, every lost assertion is about an earlier dispatch of its own effect |
| `EffectStore.AdoptedPendingIff` | crates/vestrace-infrastructure/src/postgres/external_effect_repository.rs:68-76 | a dispatch just adopted is pending again over a minute later and not before, if no receipt has come |
| `EffectStore.ReadyIff` | crates/vestrace-infrastructure/src/postgres/external_effect_repository.rs:30-45 | an effect and receipt may be asked about if and only if the latest row about them, by time and then by position, is neither confirmed nor not applied and over a minute old, and every failed attempt at the effect is over a minute old or followed by an answer about them |
| `EffectStore.ReceiptPendingIff` | crates/vestrace-infrastructure/src/postgres/external_effect_repository.rs:41 | a receipt is pending exactly if it acknowledges its effect or leaves it unknown |
| `EffectStore.BeforeIsLower` | crates/vestrace-infrastructure/src/postgres/external_effect_repository.rs:86 | candidates come by time, then effect, then receipt, a missing one first |
| `EffectRecovery.AtMostOneAsks` | crates/vestrace-application/src/effect_recovery.rs:319-345 | of any number of sweepers holding the same unadopted lost dispatch, at most one goes on to read back or to record anything for it |
| `EffectRecovery.LatecomerLoses` | crates/vestrace-application/src/effect_recovery.rs:325-342 | once it is adopted, a sweeper that still holds it unadopted asks nobody and writes nothing |
| `EffectRecovery.StrongestWins` | crates/vestrace-domain/src/external_effects.rs:1159-1194 | the observation judged is the strongest, and the last of equally strong ones |
| `EffectRecovery.Repository.AdoptLostDispatch` | crates/vestrace-infrastructure/src/postgres/external_effect_repository.rs:617-673 | appends the lost assertion or reports who has |
| `EffectRecovery.Repository.ReconcileCandidate` | crates/vestrace-application/src/effect_recovery.rs:319-373 | adopts, asks, interprets and inserts as its definition says, writing nothing after losing the race |
| `EffectRecovery.Repository.Handle` | crates/vestrace-application/src/effect_recovery.rs:396-458 | one turn of the loop does to the store and finds what its definition says, a failed attempt recorded where nothing was observed |
| `EffectRecovery.Repository.Run` | crates/vestrace-application/src/effect_recovery.rs:396-458 | the loop handles the batch as its definition says and reports exactly what it found, each reconciliation with its run, failing only when storage does |
| `EffectRecovery.OutcomeIsDecided` | crates/vestrace-domain/src/external_effects.rs:1170-1183 | the outcome recorded is confirmed, not applied or inconclusive as the one observation says that is as strong as any and stronger than every later one |
| `EffectRecovery.EveryOutcomeIsDecided` | crates/vestrace-application/src/effect_recovery.rs:396-458 | and so it is for every finding of a pass |
| `EffectRecovery.AskedFinds` | crates/vestrace-application/src/effect_recovery.rs:319-373 | a candidate asked is unreachable where nothing was observed, not interpreted where its receipt is missing, another effect's or a failure, and otherwise reconciled, unless storage broke |
| `EffectRecovery.SettledIsDone` | crates/vestrace-infrastructure/src/postgres/external_effect_repository.rs:42 | once the latest answer has settled it, no candidate about that effect and receipt is eligible at any time, and a lost dispatch is not even pending |
| `EffectRecovery.InconclusiveWaits` | crates/vestrace-infrastructure/src/postgres/external_effect_repository.rs:42-45 | any other latest answer puts it off for a minute and no longer, if no attempt has failed since |
| `EffectRecovery.EveryCandidatePlaced` | crates/vestrace-application/src/effect_recovery.rs:418-457 | a successful pass places every candidate once, in batch order: its own answer among the reconciliations, its effect among the unreachable, or lost to a rival, and reports nothing else |
| `EffectRecovery.PassWrites` | crates/vestrace-application/src/effect_recovery.rs:418-457 | a pass adds one answer per reconciled candidate and one failed attempt per candidate without observation, in order, and nothing else |
| `EffectRecovery.SoleSweeperAsksAll` | crates/vestrace-application/src/effect_recovery.rs:396-479 | alone and with storage working, a pass asks its whole discovered batch, and records a failed attempt exactly when no observation was obtained |
| `EffectFairness.NeverAskedAgain` | crates/vestrace-infrastructure/src/postgres/external_effect_repository.rs:43-46 | within a minute of being asked a candidate is never discovered again |
| `EffectFairness.WaitingIsBounded` | crates/vestrace-application/src/effect_recovery.rs:396-479 | a candidate ready at the first sweep and pending until asked is asked by sweep number one plus the candidates met ahead of it divided by the limit, if and only if no failed attempt for its effect is recorded before it is asked |
| `EffectFairness.AllAreAsked` | crates/vestrace-application/src/effect_recovery.rs:396-479 | sweeps that meet n effects and receipts ask every such candidate within n divided by the limit, rounded up, save exactly those silenced by a failed attempt for their effect |
| `EffectFairness.FailureSilencesSiblings` | crates/vestrace-infrastructure/src/postgres/external_effect_repository.rs:36-46 | failed attempts are kept per effect: one silences every receipt of that effect for a minute |
| `EffectSweeps.PassesMakeWindow` | crates/vestrace-application/src/effect_recovery.rs:396-479 | successive passes of one sweeper within a minute, each over what the last left and others added, are such sweeps |
| `EffectSweeps.PassesAreFair` | crates/vestrace-application/src/effect_recovery.rs:396-479 | over any such run of passes, a candidate eligible at the first and then left alone is asked within the bound if and only if no read-back for its effect fails before it is asked |
| `EffectSweeps.PassesAskAll` | crates/vestrace-application/src/effect_recovery.rs:396-479 | the same for all candidates at once, when the passes meet n of them in all |
| `EffectSweeps.LostDispatchIsAsked` | crates/vestrace-application/src/effect_recovery.rs:396-479 | a lost dispatch left alone has no sibling to forestall it and is always asked within the bound |
| `EffectSweeps.StoppedCallIsAsked` | crates/vestrace-application/src/external_effects.rs:72-169 | from the crash on: a `perform` that stopped between call and receipt is asked about within the bound of the first pass after its deadline or its worker's silence |
| `OutcomeDelivery.DeliveredMeansTold` | crates/vestrace-application/src/effect_outcome_delivery.rs:86-174 | over every run of any deliverers and writers with crashes: marked outcomes have no run or are in its stream, streams are gap-free, nothing is unmarked or taken back |
| `OutcomeDelivery.OnlyMarksPay` | crates/vestrace-infrastructure/src/postgres/external_effect_repository.rs:1326-1381 | a step pays a debt if and only if it is a mark by a deliverer that has told the run, whose stream then holds the outcome, or by one holding an outcome no run asked for |
| `OutcomeDelivery.Service.AppendToRun` | crates/vestrace-application/src/effect_outcome_delivery.rs:126-174 | succeeds only with the event in the stream, and exactly when the stream exists, nobody appended in between and storage answered |
| `OutcomeDelivery.Service.DeliverOnce` | crates/vestrace-application/src/effect_outcome_delivery.rs:86-124 | over the oldest owed outcomes, at most a batch, a successful pass accounts for each once and leaves owed exactly those it deferred; when nothing goes wrong it pays every one that can be paid |
| `OutcomeFairness.PassPays` | crates/vestrace-application/src/effect_outcome_delivery.rs:86-124 | what such a pass pays is exactly the fetched outcomes without a run or with a stream for it, and no row changes otherwise |
| `OutcomeFairness.DeliveredInTimeIff` | crates/vestrace-infrastructure/src/postgres/external_effect_repository.rs:1281-1305 | a payable outcome is paid within one more pass than the payable ones ahead divided by what undeliverable ones leave of a batch, if and only if fewer than a batch of undeliverable ones stand ahead |
| `OutcomeFairness.StarvedForever` | crates/vestrace-infrastructure/src/postgres/external_effect_repository.rs:1281-1305 | a ledger with a batch of outcomes for a run without a stream: however many passes, the outcome behind them is never told |
| `Outbox.RetryDelays` | crates/vestrace-application/src/outbox.rs:55-58 | the delays are 30, 60, 120, 240 seconds and never more than 480 |
| `Outbox.RowPromises` | crates/vestrace-application/src/outbox.rs:208-273 | no message reaches its handler more than five times, and none is dead-lettered sooner than 450 seconds after its first refusal |
| `Outbox.ClaimMeans` | crates/vestrace-infrastructure/src/postgres/outbox_repository.rs:120-150 | a claim is the first due messages in order with none skipped, and all of them if fewer than the limit |
| `Outbox.Drain.DrainOnce` | crates/vestrace-application/src/outbox.rs:208-273 | handles each claimed message once, leaves the others, keeps every row's promises (never both processed and dead-lettered, dead exactly at the fifth refusal, refusals spaced by the delays), and its report counts each claimed message for what became of it |
| `Outbox.PassSettles` | crates/vestrace-application/src/outbox.rs:208-273 | a pass leaves a message processed exactly if it was claimed and its handler accepted it, with one refusal more, at that time, exactly if its handler refused it, and dead exactly after the fifth |
| `Outbox.ClaimedIff` | crates/vestrace-infrastructure/src/postgres/outbox_repository.rs:120-150 | a message is claimed exactly when it is due and fewer due messages than the limit come before it |
| `Outbox.PassProgressesIff` | crates/vestrace-application/src/outbox.rs:208-273 | a pass reduces the deliveries still to come if and only if some handled message is due with fewer due unhandled ones in front of it than fit in a batch |
| `Outbox.PassProgresses` | crates/vestrace-application/src/outbox.rs:208-273 | so with fewer unhandled messages pending than a batch, every pass with a handled message due makes progress |
| `Outbox.ObstructedForever` | crates/vestrace-application/src/outbox.rs:208-273 | once a batch of due unhandled messages stands in front, no later message is ever touched, whenever the passes run and whatever arrives |
| `Outbox.WorkIsBounded` | crates/vestrace-application/src/outbox.rs:208-273 | for passes at any times, with messages arriving between them: those that find a handled message due number at most the deliveries the messages had coming less those still to come |
| `Outbox.BacklogEmpties` | crates/vestrace-application/src/outbox.rs:208-273 | so if more passes than that find every pending handled message due, one finds none left, and none is left at the end if none arrived |
| `Outbox.BacklogEmptiesInTime` | crates/vestrace-cli/src/commands/worker.rs:307-327 | a worker that starts a pass at least every so often and delivers within some slack has settled every handled message 480 seconds, plus 480 and gap and slack for each delivery coming, plus a gap after it started |
| `RunStepAcceptance.Acceptor.Accept` | crates/vestrace-application/src/provider_dispatch.rs:552-839 | wherever it stops and whatever others do meanwhile, a work item exists only with everything behind it durable; a step with an attempt gets no write, and for a bound command of a known run only a conflict or the stored attempt; while others leave its run, step and material alone, a first acceptance succeeds exactly when its identities are bound, its version current, its material new, its request rebuilt and its eight transactions done |
| `RunStepAcceptance.OneOpenPerVersion` | crates/vestrace-application/src/provider_dispatch.rs:552-700 | of the commands that expect one version of a run at most one ever opens a step, since the version moves on by one |
| `RunStepAcceptance.OpenAddsOne` | crates/vestrace-application/src/provider_dispatch.rs:638-700 | it adds one step, effect, attempt and reserved material and changes nothing that was there |
| `RunStepAcceptance.AdvanceIsNext` | crates/vestrace-application/src/provider_dispatch.rs:708-800 | material goes from each stage to the next and to no other |
| `RunStepAcceptance.Acceptor.Finish` | crates/vestrace-application/src/provider_dispatch.rs:708-836 | success means the work item exists with finalized material and complete evidence, and in this order the guard of the enqueue never refuses |
| `RunStepAcceptance.Acceptor.Schedule` | crates/vestrace-application/src/provider_dispatch.rs:810-836 | may be called only when everything behind the work item is durable, and then fails only by a crash |
| `RequestEvidence.ForEmbeddingJob` | crates/vestrace-application/src/model_request_evidence.rs:615-697 | for every non-empty source list of any length the evidence is built and exact, and its governed inputs are the sources in order, numbered from zero |
| `RequestEvidence.EmbeddingCarriesAll` | crates/vestrace-application/src/model_request_evidence.rs:615-697 | its nodes carry the effect, connection, connection qualification, binding, model and model qualification it was built from, each once and under its own kind |
| `RequestEvidence.EmbeddingNamesRevisions` | crates/vestrace-application/src/model_request_evidence.rs:615-697 | and name its shape and limits once each, at version one |
| `RequestEvidence.RunStepEvidenceAlwaysBuilt` | crates/vestrace-application/src/model_request_evidence.rs:516-600 | evidence for a governed run step is always built, exact, with its one input numbered zero |
| `RequestEvidence.StepCarriesAll` | crates/vestrace-application/src/model_request_evidence.rs:516-600 | its nodes carry each of the six references once, under its own kind |
| `RequestEvidence.StepNamesRevisions` | crates/vestrace-application/src/model_request_evidence.rs:516-600 | and name its shape, sampling and limits once each, at version one |
| `RequestEvidence.ExactIffNamedAlone` | crates/vestrace-application/src/model_request_evidence.rs:732-814 | the check of a revision passes if and only if one node of its kind stands in the set and names it at its version |
| `RequestEvidence.AcceptedIff` | crates/vestrace-application/src/model_request_evidence.rs:369-388 | evidence is accepted if and only if a probe names a target and no binding and anything else the reverse, one node each names shape, limits and any sampling, the tools stand in order and numbered, only a chat streams, samples, uses tools or gives roles, with a role for each of its inputs, embeddings have inputs and a list of models none |
| `RequestEvidence.ExactIsTight` | crates/vestrace-application/src/model_request_evidence.rs:732-814 | an accepted node set with one more shape, sampling, limits or tool node is refused; one more input is accepted for embeddings only; other nodes change nothing |
| `RequestEvidence.DecimalInjective` | crates/vestrace-application/src/model_request_evidence.rs:661-668 | different ordinals print differently |
| `FeatureGraph.Traversal.Visit` | docs/maintenance/doc_checks.py:97-107 | terminates; fails only with a cycle through the named node or a missing dependency; otherwise adds the node after its dependencies and restores the visiting set |
| `FeatureGraph.Traverse` | docs/maintenance/doc_checks.py:96-112 | reports no error exactly when every dependency is known and the graph acyclic, and then the finished nodes are all nodes in a topological order |
| `FeatureGraph.GraphErrors` | docs/maintenance/doc_checks.py:90-122 | the list of errors is empty exactly when identifiers are distinct, every dependency is some feature's identifier, no features depend on each other in a ring, and every feature is well specified; otherwise it is the complaints after a duplicate error, or after an error that names such a ring or such a dependency |
| `FeatureGraph.GraphReflects` | docs/maintenance/doc_checks.py:95 | the graph built from features with distinct identifiers has exactly them as nodes, each with its own dependencies |
| `FeatureGraph.FeaturesDecide` | docs/maintenance/doc_checks.py:96-112 | such a graph is known and acyclic exactly when every dependency is some feature's identifier and no features depend on each other in a ring |
| `FeatureGraph.ComplaintsCollected` | docs/maintenance/doc_checks.py:113-122 | the complaints are exactly those that some feature deserves |
| `FeatureGraph.SizesDecideDistinct` | docs/maintenance/doc_checks.py:92-94 | comparing the list's length with the set's size decides whether identifiers repeat |

## Left out

- Signatures, hashing internals, sealing, key wrapping and ciphertext framing: foreign cryptography; a signature either verifies or not.
- The restore slots of the witness state: carried as bytes, and which events may change them is a parameter.
- The file witness's split between its durable record and its in-memory head.
- The mutation permit: it only refuses steps, so what is proved of every run holds with it too. It does not remove the runs of `ArchiveProtocolLosses`, `ArchiveUndone` and `ArchiveDeadEnds`: one holder at a time is enough for them, since an append holds it only to reserve, to abandon and, after the witness, to commit, a reconciliation lets go of it between its sweep and its commit, and so does whoever is refused or crashes.
- What the procedures for initialization, generations and restore events ask of tables that are theirs alone, and which holds the restore tables have released: parameters, fixed over a run.
- `erase_prepared_key`, and a reconciliation's promotion of an object whose checkpoint is already committed.
- A sweep's rows and their staged objects go in one move, and so do a persisted checkpoint's row and its object; a crash between the two would leave a file behind.
- ArchiveTables.EnterMatchesSigned: asks of the signed state what its type guarantees, that sets and holds are filed under their own identifiers; so does `ArchiveReconciliation.PersistedMirrorsIff`.
- ArchiveStall.ReconciliationHelpsIff: for reconciliations alone; what live processes might first supply to one (a key created again, an object staged late) is not characterised. `ArchiveStall.HopelessNeverGrows` is about both together.
- Workspace scoping and row-level security: one workspace is modelled throughout.
- The imperative text of the archive controllers: modelled as a small-step machine on values, because what matters is how their steps interleave.
- ArchiveWitnessHistory.HistoryIsRunIff: asks of an unchecked entry's state what its type guarantees, that descriptors passed their constructor and sets and holds are filed under their own identifiers.
- EffectSweeps.PassesAreFair: one sweeper within one minute, the back-off after which candidates come round again; others may write receipts, transitions and presence, but no answers or failed attempts, and nothing about the effect of a lost dispatch that waits.
- OutcomeDelivery.Service.DeliverOnce: its account of what stays owed is for one deliverer at a time; `OutcomeDelivery.DeliveredMeansTold` covers any number.
- OutcomeFairness.DeliveredInTimeIff: for passes in which nothing goes wrong and between which no stream is opened and no earlier outcome settled.
- Ties and arrivals: OutcomeDelivery.Service.DeliverOnce, OutcomeFairness.DeliveredInTimeIff, Outbox.ClaimMeans and Outbox.ObstructedForever order rows of one time by their position, and what arrives comes behind them; the queries order by time and then by identifier, so a later row of the same time can come in front.
- FeatureGraph.Traversal.Visit: the interpreter's recursion limit; a chain of dependencies deeper than it raises an error that the caller does not catch.
- FeatureGraph.Traverse: the same recursion limit, on deep acyclic lists.
- Outbox.BacklogEmptiesInTime: for messages present at the start; `Outbox.WorkIsBounded` and `Outbox.BacklogEmpties` allow arrivals.
- Outbox.Drain.DrainOnce: one drain at a time and working storage; several drains deliver at least once, as the port says.
- RunStepAcceptance.Acceptor.Accept: completing a crashed acceptance by replay, which the source does not do.
- Precondition freshness in `perform`, which compares the intent's digest with itself.
- Recovery of a set of files for deletion, promotion of object frames, and other host file handling beyond which object exists.
- HTTP, MCP, command line, console, configuration, logging, gates and enumerations: plumbing and finite tables.
