/** Any number of controllers and other writers around one journal, witness and database, each step
    of each of them a step of the whole, with failures and crashes anywhere. No exclusion between
    processes is assumed: the mutation permit could only remove interleavings. */
module ArchiveProtocol {
  import opened Bytes
  import opened Wrappers
  import opened Archive
  import opened ArchiveSuccessors
  import opened ArchiveTables
  import opened SafetyWitness

  // ----- processes

  // Heads and signed entries are parameters: the steps only compare them and read their sequence numbers.

  datatype Task<E> =
    | StartTask(identity: Identity, initial: ArchiveHead, entry: E)
    | AppendTask(setId: Uuid, expected: ArchiveHead, desc: Descriptor, entry: E)
    | HoldTask(holdSet: Uuid, hold: Uuid, entry: E)
    | LifecycleTask(op: Op, named: Digest, event: Event, entry: E)
    | OtherTask(entry: E)
  {
    /** Values that the constructors of the command types allow. */
    predicate Valid() {
      && (AppendTask? ==> desc.Valid())
      && (LifecycleTask? ==> Lifecycles(op, event))
    }

    /** The archive operation whose result the controller demands of its signed entry, if any. */
    function Operation(): Option<Op> {
      match this
      case StartTask(identity, initial, _) => Some(OpStart(identity, initial))
      case AppendTask(_, _, desc, _) => Some(OpCommit(Reservation(), Checkpoint(desc)))
      case HoldTask(holdSet, hold, _) => Some(OpHold(holdSet, hold))
      case LifecycleTask(op, _, _, _) => Some(op)
      case OtherTask(_) => None
    }

    function Reservation(): Reservation
      requires AppendTask?
    {
      Archive.Reservation(setId, expected, desc)
    }

    /** The preparation that a lifecycle command names beside its operation. */
    function Named(): Digest {
      if LifecycleTask? then named else 0
    }

    /** The row that a reservation of this append files for its process. */
    function Row(owner: nat): Intent
      requires AppendTask?
    {
      Intent(setId, desc.ordinal, expected.digest, desc.ciphertextDigest, owner)
    }

    function Framed(owner: nat): Frame
      requires AppendTask?
    {
      Frame(desc.ciphertextDigest, desc.length, owner)
    }

    /** A staged frame is filed under its set and object identifiers. */
    function StagingName(): (Uuid, Uuid)
      requires AppendTask?
    {
      (desc.setId, desc.objectId)
    }

    /** The event kind a controller insists on before anything else; appends insist on none. */
    function DemandedKind(): Option<Kind> {
      match this
      case StartTask(_, _, _) => Some(ArchiveEvent(Started))
      case HoldTask(_, _, _) => Some(ArchiveEvent(HoldAcquired))
      case LifecycleTask(_, _, event, _) => Some(ArchiveEvent(event))
      case _ => None
    }
  }

  /** The lifecycle transitions and the event kind each one is signed under. */
  predicate Lifecycles(op: Op, e: Event) {
    match op
    case OpBeginSealing(_) => e.SealingBegun?
    case OpCommitSealed(_) => e.SealCommitted?
    case OpPrepareDeletion(_, _) => e.DeletionReady?
    case OpPrepareKeyErasure(_, _) => e.KeyErasureReady?
    case OpRecordKeyErased(_) => e.KeyErased?
    case OpFinalizeDeleted(_) => e.Removed?
    case _ => false
  }

  datatype Phase<H> =
    | Ready
    | KeyCreated
    | Reserved
    | Staged
    | Checked(seen: H)
    | Journalled(seen: H)
    | Witnessed
    | Committed
    | Promoted
    | Discarding
    | Abandoning(staged: bool)
    | Unstaging
    | Stopped

  datatype Process<H, E> = Process(task: Task<E>, phase: Phase<H>)

  // ----- the durable stores

  /** One advance of the witness: the head it replaced, and what it was done for. */
  datatype Record<H, E> = Record(seen: H, task: Task<E>)

  datatype Artifact = KeyEnvelope | AppendIntent | StagedObject

  /** A cleanup: who removed, and whose artifact it was. */
  datatype Removal = Removal(artifact: Artifact, actor: nat, owner: nat)

  /** Witness head and history, journal, committed database entries, and what the archive tables hold. */
  datatype Ledger<H, E(==)> =
    Ledger(head: H, log: seq<Record<H, E>>, journal: set<E>, database: seq<E>, tables: State)

  /** A staged file with the ciphertext it holds, or as much of one as a failed write left behind. */
  datatype Frame = Frame(content: Digest, length: u64, owner: nat) | TornFrame(owner: nat)

  /** Host files and pending rows, each filed under an identity and marked with the process that created it. */
  datatype Things = Things(keys: map<Uuid, nat>, intents: Intents, staging: map<(Uuid, Uuid), Frame>)

  /** What has happened: who wrote to the journal, whose write reported failure, whose object was promoted,
      and every cleanup. */
  datatype Trail = Trail(wrote: set<nat>, doubtful: set<nat>, promoted: set<nat>, removals: seq<Removal>)

  datatype World<H, E(==)> =
    World(processes: map<nat, Process<H, E>>, ledger: Ledger<H, E>, things: Things, trail: Trail)

  function Genesis<H, E(==)>(head: H): World<H, E> {
    World(map[], Ledger(head, [], {}, [], EMPTY), Things(map[], map[], map[]), Trail({}, {}, {}, []))
  }

  function To<H, E(==)>(w: World<H, E>, p: nat, phase: Phase<H>): World<H, E>
    requires p in w.processes
  {
    w.(processes := w.processes[p := w.processes[p].(phase := phase)])
  }

  function Removed(t: Trail, r: Removal): Trail {
    t.(removals := t.removals + [r])
  }

  // ----- steps

  /** What came of an attempt to append to the journal: a failure may leave the entry written. */
  datatype Written = Durable | FailedClean | FailedAfterWriting

  datatype Step<E> =
    | Spawn(p: nat, task: Task<E>)
    | CreateKey(p: nat)
    | CreateKeyFails(p: nat, leftBehind: bool)
    | Reserve(p: nat)
    | Stage(p: nat)
    | StageFails(p: nat, leftBehind: bool)
    | Check(p: nat)
    | FailStep(p: nat)
    | AppendJournal(p: nat, written: Written)
    | Advance(p: nat, replied: bool)
    | Commit(p: nat, replied: bool)
    | Promote(p: nat, replied: bool)
    | Discard(p: nat)
    | Abandon(p: nat, replied: bool)
    | Unstage(p: nat)
    | Crash(p: nat)

  /** Where an error sends a process: to undo what it made if nothing was journalled, else to stop. */
  function AfterError<H, E>(task: Task<E>, phase: Phase<H>): Phase<H> {
    match phase
    case KeyCreated => Discarding
    case Reserved => Abandoning(false)
    case Staged => Abandoning(true)
    case Checked(_) => if task.StartTask? then Discarding else if task.AppendTask? then Abandoning(true) else Stopped
    case _ => Stopped
  }

  /** What the steps are wired to: the checks made on the head just read, how an entry advances a head, and what the
      guarded procedure behind a command makes of the tables, the pending rows and the entries committed so far. */
  datatype Wires<!H, !E> = Wires(
    check: (H, Task<E>) -> bool,
    advance: (H, E) -> H,
    enters: (State, Intents, seq<E>, Task<E>) -> Option<State>,
    headSequence: H -> nat,
    entrySequence: E -> nat)

  /** The phase from which a process reads the witness. */
  function ReadsFrom<H, E>(task: Task<E>): Phase<H> {
    if task.StartTask? then KeyCreated else if task.AppendTask? then Staged else Ready
  }

  function DoCreateKey<H, E(==)>(w: World<H, E>, p: nat, ok: bool, leftBehind: bool): Option<World<H, E>>
    requires p in w.processes
  {
    var x := w.processes[p];
    if !x.task.StartTask? || !x.phase.Ready? || x.task.identity.setId in w.things.keys then None
    else if !ok && !leftBehind then Some(To(w, p, Stopped))
    else Some(To(w, p, if ok then KeyCreated else Stopped)
              .(things := w.things.(keys := w.things.keys[x.task.identity.setId := p])))
  }

  function DoReserve<H, E(==)>(w: World<H, E>, p: nat): Option<World<H, E>>
    requires p in w.processes
  {
    var x := w.processes[p];
    if !x.task.AppendTask? || !x.phase.Ready? || !x.task.Reservation().Valid()
       || !CanReserve(w.ledger.tables, w.things.intents, x.task.Reservation())
    then None
    else Some(To(w, p, Reserved)
              .(things := w.things.(intents := w.things.intents[x.task.desc.objectId := x.task.Row(p)])))
  }

  function DoStage<H, E(==)>(w: World<H, E>, p: nat, ok: bool, leftBehind: bool): Option<World<H, E>>
    requires p in w.processes
  {
    var x := w.processes[p];
    if !x.task.AppendTask? || !x.phase.Reserved? || x.task.StagingName() in w.things.staging then None
    else if !ok && !leftBehind then Some(To(w, p, Abandoning(false)))
    else
      var file := if ok then x.task.Framed(p) else TornFrame(p);
      Some(To(w, p, if ok then Staged else Abandoning(false))
           .(things := w.things.(staging := w.things.staging[x.task.StagingName() := file])))
  }

  function DoCheck<H(==), E(==)>(wires: Wires<H, E>, w: World<H, E>, p: nat): Option<World<H, E>>
    requires p in w.processes
  {
    var x := w.processes[p];
    if x.phase != ReadsFrom(x.task) || !wires.check(w.ledger.head, x.task) then None
    else Some(To(w, p, Checked(w.ledger.head)))
  }

  function DoFail<H, E(==)>(w: World<H, E>, p: nat): Option<World<H, E>>
    requires p in w.processes
  {
    var x := w.processes[p];
    if x.phase.Discarding? || x.phase.Abandoning? || x.phase.Unstaging? then None
    else Some(To(w, p, AfterError(x.task, x.phase)))
  }

  function DoAppendJournal<H, E(==)>(w: World<H, E>, p: nat, written: Written): Option<World<H, E>>
    requires p in w.processes
  {
    var x := w.processes[p];
    if !x.phase.Checked? then None
    else if written.FailedClean? then Some(To(w, p, AfterError(x.task, x.phase)))
    else
      var next := To(w, p, if written.Durable? then Journalled(x.phase.seen) else AfterError(x.task, x.phase));
      Some(next.(ledger := w.ledger.(journal := w.ledger.journal + {x.task.entry}),
                 trail := w.trail.(wrote := w.trail.wrote + {p},
                                   doubtful := if written.Durable? then w.trail.doubtful else w.trail.doubtful + {p})))
  }

  /** Compare-and-advance: only a head equal to the one read is replaced; the reply may be lost. */
  function DoAdvance<H(==), E(==)>(wires: Wires<H, E>, w: World<H, E>, p: nat, replied: bool): Option<World<H, E>>
    requires p in w.processes
  {
    var x := w.processes[p];
    if !x.phase.Journalled? then None
    else if w.ledger.head != x.phase.seen || wires.headSequence(w.ledger.head) >= U64_MAX
            || wires.entrySequence(x.task.entry) != wires.headSequence(w.ledger.head) + 1
    then Some(To(w, p, Stopped))
    else Some(To(w, p, if replied then Witnessed else Stopped)
              .(ledger := w.ledger.(head := wires.advance(w.ledger.head, x.task.entry),
                                    log := w.ledger.log + [Record(w.ledger.head, x.task)])))
  }

  /** The guarded transaction: the receipt's sequence must be the next one and the procedure go through; an append's
      consumes its intent. An append repeated after its own commit changes nothing. */
  function DoCommit<H, E(==)>(wires: Wires<H, E>, w: World<H, E>, p: nat, replied: bool): Option<World<H, E>>
    requires p in w.processes
  {
    var x := w.processes[p];
    var next := To(w, p, if replied then Committed else Stopped);
    if !x.phase.Witnessed? then None
    else if x.task.AppendTask? && w.ledger.database != []
            && w.ledger.database[|w.ledger.database| - 1] == x.task.entry
    then Some(next)
    else if wires.entrySequence(x.task.entry) != |w.ledger.database| + 1 then Some(To(w, p, Stopped))
    else
      match wires.enters(w.ledger.tables, w.things.intents, w.ledger.database, x.task)
      case None => Some(To(w, p, Stopped))
      case Some(tables) =>
        Some(next.(ledger := w.ledger.(database := w.ledger.database + [x.task.entry], tables := tables),
                   things := if x.task.AppendTask? then w.things.(intents := w.things.intents - {x.task.desc.objectId})
                             else w.things))
  }

  function DoPromote<H, E(==)>(w: World<H, E>, p: nat, replied: bool): Option<World<H, E>>
    requires p in w.processes
  {
    var x := w.processes[p];
    if !x.phase.Committed? || !x.task.AppendTask? then None
    else Some(To(w, p, if replied then Promoted else Stopped)
              .(trail := w.trail.(promoted := w.trail.promoted + {p}),
                things := w.things.(staging := w.things.staging - {x.task.StagingName()})))
  }

  function DoDiscard<H, E(==)>(w: World<H, E>, p: nat): Option<World<H, E>>
    requires p in w.processes
  {
    var x := w.processes[p];
    if !x.phase.Discarding? || !x.task.StartTask? then None
    else if x.task.identity.setId !in w.things.keys then Some(To(w, p, Stopped))
    else Some(To(w, p, Stopped)
              .(things := w.things.(keys := w.things.keys - {x.task.identity.setId}),
                trail := Removed(w.trail, Removal(KeyEnvelope, p, w.things.keys[x.task.identity.setId]))))
  }

  /** The abandonment is refused, and nothing removed, unless the set still stands where it was reserved. */
  function DoAbandon<H, E(==)>(w: World<H, E>, p: nat, replied: bool): Option<World<H, E>>
    requires p in w.processes
  {
    var x := w.processes[p];
    if !x.phase.Abandoning? || !x.task.AppendTask? then None
    else if !CanAbandon(w.ledger.tables, w.things.intents, x.task.Reservation()) then Some(To(w, p, Stopped))
    else Some(To(w, p, if replied && x.phase.staged then Unstaging else Stopped)
              .(things := w.things.(intents := w.things.intents - {x.task.desc.objectId}),
                trail := Removed(w.trail, Removal(AppendIntent, p, w.things.intents[x.task.desc.objectId].owner))))
  }

  function DoUnstage<H, E(==)>(w: World<H, E>, p: nat): Option<World<H, E>>
    requires p in w.processes
  {
    var x := w.processes[p];
    if !x.phase.Unstaging? || !x.task.AppendTask? then None
    else if x.task.StagingName() !in w.things.staging then Some(To(w, p, Stopped))
    else Some(To(w, p, Stopped)
              .(things := w.things.(staging := w.things.staging - {x.task.StagingName()}),
                trail := Removed(w.trail, Removal(StagedObject, p, w.things.staging[x.task.StagingName()].owner))))
  }

  function Act<H(==), E(==)>(wires: Wires<H, E>, w: World<H, E>, s: Step<E>): Option<World<H, E>> {
    if s.Spawn? then
      if s.p in w.processes || !s.task.Valid() then None
      else Some(w.(processes := w.processes[s.p := Process(s.task, Ready)]))
    else if s.p !in w.processes then None
    else
      match s
      case CreateKey(p) => DoCreateKey(w, p, true, false)
      case CreateKeyFails(p, leftBehind) => DoCreateKey(w, p, false, leftBehind)
      case Reserve(p) => DoReserve(w, p)
      case Stage(p) => DoStage(w, p, true, false)
      case StageFails(p, leftBehind) => DoStage(w, p, false, leftBehind)
      case Check(p) => DoCheck(wires, w, p)
      case FailStep(p) => DoFail(w, p)
      case AppendJournal(p, written) => DoAppendJournal(w, p, written)
      case Advance(p, replied) => DoAdvance(wires, w, p, replied)
      case Commit(p, replied) => DoCommit(wires, w, p, replied)
      case Promote(p, replied) => DoPromote(w, p, replied)
      case Discard(p) => DoDiscard(w, p)
      case Abandon(p, replied) => DoAbandon(w, p, replied)
      case Unstage(p) => DoUnstage(w, p)
      case Crash(p) => Some(To(w, p, Stopped))
  }

  function Execute<H(==), E(==)>(wires: Wires<H, E>, w: World<H, E>, steps: seq<Step<E>>): Option<World<H, E>>
    decreases |steps|
  {
    if steps == [] then Some(w)
    else
      match Act(wires, w, steps[0])
      case None => None
      case Some(next) => Execute(wires, next, steps[1..])
  }

  // ----- the checks the controllers make

  /** The signed state is exactly the expected one, the kind is the demanded one, and the witness accepts it. */
  ghost predicate ChecksOut(rules: Rules, head: WitnessHead, task: Task<Entry>) {
    && (task.DemandedKind().Some? ==> task.entry.kind == task.DemandedKind().value)
    && (task.Operation().Some? ==>
          Apply(rules.dg, head.state.archive, task.Operation().value) == Ok(task.entry.state.archive))
    && AcceptSigned(rules, head, task.entry).Pass?
  }

  // ----- the procedures behind their commits

  /** What every procedure asks of a receipt for the next entry: the installation is initialized first and only once,
      the numbers fit their columns, and request and digest are new; and what the other procedures ask of their
      tables. */
  predicate Storable(rules: Rules, database: seq<Entry>, entry: Entry) {
    && (entry.kind.InstallationInitialized? <==> database == [])
    && entry.sequence <= I64_MAX && entry.epoch <= I64_MAX
    && (forall i :: 0 <= i < |database| ==>
          database[i].request != entry.request && rules.entryDigest(database[i]) != rules.entryDigest(entry))
    && (entry.kind.ArchiveEvent? || rules.othersStore(database, entry))
  }

  /** A set is started for the installation and generation of its entry. */
  predicate NamesAuthority(rules: Rules, entry: Entry, op: Op) {
    op.OpStart? ==>
      && op.identity.installationId == rules.installation(entry.identity)
      && op.identity.generationId == entry.generation
  }

  /** Entering an archive operation under an entry of its kind. */
  ghost function Stores(rules: Rules, t: State, intents: Intents, database: seq<Entry>, entry: Entry, op: Op,
                        named: Digest): Option<State>
  {
    if !Storable(rules, database, entry) || !NamesAuthority(rules, entry, op) || !entry.kind.ArchiveEvent?
       || !Produces(op, entry.kind.event)
    then None
    else Enter(rules.dg, t, intents, rules.released, op, named)
  }

  /** Writers other than the archive controllers commit other kinds of entry, which leave the archive tables alone. */
  ghost function Enters(rules: Rules, t: State, intents: Intents, database: seq<Entry>, task: Task<Entry>)
    : Option<State>
  {
    match task.Operation()
    case Some(op) => Stores(rules, t, intents, database, task.entry, op, task.Named())
    case None => if Storable(rules, database, task.entry) && !task.entry.kind.ArchiveEvent? then Some(t) else None
  }

  ghost function Wired(rules: Rules): Wires<WitnessHead, Entry> {
    Wires((head: WitnessHead, task: Task<Entry>) => ChecksOut(rules, head, task),
          (head: WitnessHead, entry: Entry) => Advanced(rules.entryDigest, head, entry),
          (t: State, intents: Intents, database: seq<Entry>, task: Task<Entry>) =>
            Enters(rules, t, intents, database, task),
          (head: WitnessHead) => head.sequence,
          (entry: Entry) => entry.sequence)
  }
}
