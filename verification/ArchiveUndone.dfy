/** The losses of cleanup at work: in every reachable state where a process stands before the journal, and in an
    installation that starts from its genesis. */
module ArchiveUndone {
  import opened Bytes
  import opened Wrappers
  import opened Archive
  import ArchiveRuns
  import opened ArchiveSuccessors
  import opened ArchiveTables
  import opened SafetyWitness
  import opened ArchiveProtocol
  import opened ArchiveProtocolSafety
  import opened ArchiveProtocolCleanup
  import opened ArchiveProtocolLosses
  import opened ArchiveProtocolStall
  import opened ArchiveAuthority
  import opened ArchiveMirror
  import opened ArchiveReconciliation
  import opened ArchiveStall
  import opened ArchiveDeadEnds
  import opened ArchiveBeginning

  // ----- from every reachable state

  /** An append around its journal write holds its row and object and has passed its checks. */
  lemma AppendHolds(rules: Rules, g: WitnessHead, w: Installation, p: nat)
    requires AuthorityInv(Wired(rules), g, w) && CleanupInv(w) && p in w.processes && w.processes[p].task.AppendTask?
    requires w.processes[p].phase.Checked? || w.processes[p].phase.Journalled?
    ensures HoldsAppend(w.things, p, w.processes[p].task) && Reserves(w.processes[p].task)
    ensures ChecksOut(rules, w.processes[p].phase.seen, w.processes[p].task)
    ensures w.processes[p].phase.Journalled? ==> w.processes[p].task.entry in w.ledger.journal
  {
    assert Owns(w.things.keys, w.things.intents, w.things.staging, p, w.processes[p]);
    assert Relies(Wired(rules), w.ledger.journal, w.ledger.log, w.ledger.database, w.processes[p]);
  }

  /** The row of a reservation waits on the head the reservation expects. */
  lemma RowExpects(task: Task<Entry>, p: nat)
    requires task.AppendTask? && Reserves(task)
    ensures Expected(task.Row(p)) == task.expected && task.StagingName() == (task.Row(p).setId, task.desc.objectId)
  {
  }

  /** A start or an append that stands before the journal holds what it made. */
  lemma CheckedIsReady(rules: Rules, g: WitnessHead, w: Installation, p: nat)
    requires IsGenesis(g) && Reached(rules, g, w) && p in w.processes && w.processes[p].phase.Checked?
    ensures w.processes[p].task.StartTask? ==> StartReady(w, p)
    ensures w.processes[p].task.AppendTask? ==> AppendReady(w, p)
    ensures Wired(rules).check(w.processes[p].phase.seen, w.processes[p].task)
  {
    ReachedKeeps(rules, g, w);
    assert Owns(w.things.keys, w.things.intents, w.things.staging, p, w.processes[p]);
  }

  // ----- a failure before the journal removes what the process made

  /** Wherever a start holds the key it created and has journalled nothing, failing and discarding leaves no key of its
      own, and everything else as it was. */
  lemma FailedStartLeavesNoKey(rules: Rules, g: WitnessHead, w: Installation, p: nat, s: Step<Entry>)
    returns (v: Installation)
    requires IsGenesis(g) && Reached(rules, g, w) && p in w.processes && w.processes[p].task.StartTask?
    requires w.processes[p].phase.KeyCreated? || w.processes[p].phase.Checked?
    requires GivesUp(w.processes[p], p, s)
    ensures w.processes[p].task.identity.setId in w.things.keys
    ensures Execute(Wired(rules), w, [s, Discard(p)]) == Some(v) && v.ledger == w.ledger
    ensures v.things == w.things.(keys := w.things.keys - {w.processes[p].task.identity.setId})
  {
    ReachedKeeps(rules, g, w);
    assert Owns(w.things.keys, w.things.intents, w.things.staging, p, w.processes[p]);
    v := FailedStartDiscards(Wired(rules), w, p, s);
  }

  /** Wherever an append has reserved and not staged, failing and abandoning takes its row back exactly if the database
      still shows the set streaming, and changes nothing else. */
  lemma FailedReservationLeavesNoRow(rules: Rules, g: WitnessHead, w: Installation, p: nat) returns (v: Installation)
    requires IsGenesis(g) && Reached(rules, g, w)
    requires p in w.processes && w.processes[p].task.AppendTask? && w.processes[p].phase.Reserved?
    ensures Execute(Wired(rules), w, [FailStep(p), Abandon(p, true)]) == Some(v)
    ensures w.processes[p].task.desc.objectId in w.things.intents && v.ledger == w.ledger
    ensures v.things == if Streams(w.ledger.tables, w.processes[p].task.setId)
                        then w.things.(intents := w.things.intents - {w.processes[p].task.desc.objectId}) else w.things
  {
    ReservedStandsIff(rules, g, w, p);
    v := FailedReservationAbandons(Wired(rules), w, p);
  }

  /** A staging that fails does the same, and leaves what it may have written. */
  lemma FailedStagingLeavesNoRow(rules: Rules, g: WitnessHead, w: Installation, p: nat, leftBehind: bool)
    returns (v: Installation)
    requires IsGenesis(g) && Reached(rules, g, w)
    requires p in w.processes && w.processes[p].task.AppendTask? && w.processes[p].phase.Reserved?
    requires w.processes[p].task.StagingName() !in w.things.staging
    ensures Execute(Wired(rules), w, [StageFails(p, leftBehind), Abandon(p, true)]) == Some(v) && v.ledger == w.ledger
    ensures v.things.keys == w.things.keys
    ensures v.things.intents == if Streams(w.ledger.tables, w.processes[p].task.setId)
                                then w.things.intents - {w.processes[p].task.desc.objectId} else w.things.intents
    ensures v.things.staging == if leftBehind then w.things.staging[w.processes[p].task.StagingName() := TornFrame(p)]
                                else w.things.staging
  {
    ReservedStandsIff(rules, g, w, p);
    v := FailedStagingAbandons(Wired(rules), w, p, leftBehind);
  }

  /** Wherever an append has staged and not journalled, failing, abandoning and unstaging goes through exactly if the
      database still shows the set streaming, and then removes its row and its object and changes nothing else; on any
      other set the abandonment is refused and both stay. */
  lemma FailedAppendLeavesNothing(rules: Rules, g: WitnessHead, w: Installation, p: nat, s: Step<Entry>)
    requires IsGenesis(g) && Reached(rules, g, w) && p in w.processes && w.processes[p].task.AppendTask?
    requires w.processes[p].phase.Staged? || w.processes[p].phase.Checked?
    requires GivesUp(w.processes[p], p, s)
    ensures HoldsAppend(w.things, p, w.processes[p].task)
    ensures var after := Execute(Wired(rules), w, [s, Abandon(p, true), Unstage(p)]);
            && (after.Some? <==> Streams(w.ledger.tables, w.processes[p].task.setId))
            && (after.Some? ==> TakesBackBoth(w, p, after.value))
    ensures !Streams(w.ledger.tables, w.processes[p].task.setId) ==>
              Execute(Wired(rules), w, [s, Abandon(p, true)]) == Some(To(w, p, Stopped))
  {
    ReservedStandsIff(rules, g, w, p);
    assert Owns(w.things.keys, w.things.intents, w.things.staging, p, w.processes[p]);
    FailedAppendUnstages(Wired(rules), w, p, s);
  }

  /** The row of an append that has not journalled is filed, and its expected head never leaves it behind. */
  lemma ReservedStandsIff(rules: Rules, g: WitnessHead, w: Installation, p: nat)
    requires IsGenesis(g) && Reached(rules, g, w) && p in w.processes && w.processes[p].task.AppendTask?
    requires w.processes[p].phase.Reserved? || w.processes[p].phase.Staged? || w.processes[p].phase.Checked?
    ensures CleanupInv(w)
    ensures var o := w.processes[p].task.desc.objectId;
            o in w.things.intents && w.things.intents[o] == w.processes[p].task.Row(p)
    ensures Stands(w, p) <==> Streams(w.ledger.tables, w.processes[p].task.setId)
  {
    ReachedMirrors(rules, g, w);
    assert Owns(w.things.keys, w.things.intents, w.things.staging, p, w.processes[p]);
    assert Relies(Wired(rules), w.ledger.journal, w.ledger.log, w.ledger.database, w.processes[p]);
    RowExpects(w.processes[p].task, p);
  }

  /** Wherever an append has committed, its own whole file is still staged, and promoting it takes that file and changes
      no other store. */
  lemma CommittedIsPromoted(rules: Rules, g: WitnessHead, w: Installation, p: nat) returns (v: Installation)
    requires IsGenesis(g) && Reached(rules, g, w)
    requires p in w.processes && w.processes[p].task.AppendTask? && w.processes[p].phase.Committed?
    ensures var task := w.processes[p].task;
            && task.StagingName() in w.things.staging && w.things.staging[task.StagingName()] == task.Framed(p)
            && Act(Wired(rules), w, Promote(p, true)) == Some(v) && v.ledger == w.ledger
            && v.things == w.things.(staging := w.things.staging - {task.StagingName()})
            && v.trail == w.trail.(promoted := w.trail.promoted + {p})
  {
    ReachedKeeps(rules, g, w);
    assert Owns(w.things.keys, w.things.intents, w.things.staging, p, w.processes[p]);
    v := Act(Wired(rules), w, Promote(p, true)).value;
  }

  // ----- and may remove it after the entry was journalled

  /** Wherever a start stands before the journal, its append may fail after writing and its key be discarded. */
  lemma AmbiguousStartIsUndone(rules: Rules, g: WitnessHead, w: Installation, p: nat)
    returns (steps: seq<Step<Entry>>, v: Installation)
    requires IsGenesis(g) && Reached(rules, g, w)
    requires p in w.processes && w.processes[p].task.StartTask? && w.processes[p].phase.Checked?
    ensures Execute(Wired(rules), w, steps) == Some(v) && Reached(rules, g, v)
    ensures w.processes[p].task.entry in v.ledger.journal && UndidStart(w, p, v)
  {
    CheckedIsReady(rules, g, w, p);
    steps, v := AmbiguousAppendLosesKey(Wired(rules), w, p);
    ReachedOn(rules, g, w, steps, v);
  }

  /** Wherever an append stands before the journal, it may lose intent and object of its journalled entry in that way,
      and does exactly if the database still shows its set streaming. */
  lemma AmbiguousAppendIsUndone(rules: Rules, g: WitnessHead, w: Installation, p: nat)
    returns (steps: seq<Step<Entry>>, v: Installation)
    requires IsGenesis(g) && Reached(rules, g, w)
    requires p in w.processes && w.processes[p].task.AppendTask? && w.processes[p].phase.Checked?
    ensures Execute(Wired(rules), w, steps) == Some(v) && Reached(rules, g, v)
    ensures w.processes[p].task.entry in v.ledger.journal && UndidIfStanding(w, p, v)
    ensures UndidAppend(w, p, v) <==> Streams(w.ledger.tables, w.processes[p].task.setId)
  {
    CheckedIsReady(rules, g, w, p);
    CheckedStandsIff(rules, g, w, p);
    steps, v := AmbiguousAppendLosesObject(Wired(rules), w, p);
    ReachedOn(rules, g, w, steps, v);
  }

  predicate Streams(t: State, id: Uuid) {
    id in t.sets && t.sets[id].lifecycle.Streaming?
  }

  /** The head an append expects never leaves it behind: only the lifecycle can have moved on in the database. */
  lemma CheckedStandsIff(rules: Rules, g: WitnessHead, w: Installation, p: nat)
    requires IsGenesis(g) && Reached(rules, g, w)
    requires p in w.processes && w.processes[p].task.AppendTask? && w.processes[p].phase.Checked?
    ensures Stands(w, p) <==> Streams(w.ledger.tables, w.processes[p].task.setId)
  {
    ReachedMirrors(rules, g, w);
    AppendHolds(rules, g, w, p);
    RowExpects(w.processes[p].task, p);
  }

  /** Wherever an append stands before the journal on the present head, another process may bring the same entry to the
      witness, and the append then remove intent and object, with every journal append answered truthfully. */
  lemma SharedEntryIsUndone(rules: Rules, g: WitnessHead, w: Installation, p: nat, q: nat)
    returns (steps: seq<Step<Entry>>, v: Installation)
    requires IsGenesis(g) && Reached(rules, g, w) && q !in w.processes
    requires p in w.processes && w.processes[p].task.AppendTask? && w.processes[p].phase == Checked(w.ledger.head)
    ensures Execute(Wired(rules), w, steps) == Some(v) && Truthful(steps) && Reached(rules, g, v)
    ensures var e := w.processes[p].task.entry;
            e in v.ledger.journal && v.ledger.log == w.ledger.log + [Record(w.ledger.head, OtherTask(e))]
    ensures UndidIfStanding(w, p, v)
    ensures UndidAppend(w, p, v) <==> Streams(w.ledger.tables, w.processes[p].task.setId)
  {
    CheckedIsReady(rules, g, w, p);
    CheckedStandsIff(rules, g, w, p);
    PassesBare(rules, w.ledger.head, w.processes[p].task);
    steps, v := SharedEntryLosesObject(Wired(rules), w, p, q);
    ReachedOn(rules, g, w, steps, v);
  }

  // ----- and no reconciliation brings it back

  /** The entry adds the append's object, and nothing else, to this archive. */
  ghost predicate Adds(t: State, task: Task<Entry>)
    requires task.AppendTask?
  {
    && StandsAt(t, task.setId, task.expected) && task.entry.kind == ArchiveEvent(Checkpointed)
    && ChangedOnlyAt(t.sets, task.entry.state.archive.sets, task.setId)
    && var cs := task.entry.state.archive.sets[task.setId].checkpoints;
    cs != [] && cs[|cs| - 1] == Checkpoint(task.desc)
  }

  lemma CheckedAdds(rules: Rules, head: WitnessHead, task: Task<Entry>)
    requires task.AppendTask? && Reserves(task) && ChecksOut(rules, head, task)
    requires ArchiveRuns.Inv(rules.dg, head.state.archive)
    ensures Adds(head.state.archive, task)
  {
    CheckpointKindForced(rules, head, task.entry, task.Reservation());
  }

  lemma LostObjectUnreplayable(rules: Rules, v: Installation, task: Task<Entry>)
    requires Behind(v) && task.AppendTask? && Due(v) == task.entry && Adds(v.ledger.tables, task)
    requires task.desc.objectId !in v.things.intents
    ensures !Replayable(rules, v)
  {
    forall op: Op | Derives(v.ledger.tables, task.entry.state.archive, Checkpointed, op)
      ensures !Supplied(rules, v.ledger.tables, v.things, task.entry, op)
    {
      assert op.Target() == task.setId;
    }
  }

  /** Where the database is level, the entry that lost its object in the sharing run is witnessed, and no number of
      reconciliations ever persists it. */
  lemma LostObjectIsNotReconciled(rules: Rules, g: WitnessHead, w: Installation, p: nat, q: nat)
    returns (steps: seq<Step<Entry>>, v: Installation)
    requires IsGenesis(g) && Reached(rules, g, w) && q !in w.processes && |w.ledger.log| == |w.ledger.database|
    requires p in w.processes && w.processes[p].task.AppendTask? && w.processes[p].phase == Checked(w.ledger.head)
    ensures Execute(Wired(rules), w, steps) == Some(v) && Truthful(steps) && UndidAppend(w, p, v)
    ensures v.ledger.log == w.ledger.log + [Record(w.ledger.head, OtherTask(w.processes[p].task.entry))]
    ensures w.processes[p].task.entry in v.ledger.journal
    ensures forall ms :: Supervised(ms) ==> !Grows(rules, v, ms)
  {
    var task := w.processes[p].task;
    steps, v := SharedEntryIsUndone(rules, g, w, p, q);
    LevelAppendAdds(rules, g, w, p);
    ReachedSound(rules, g, w);
    ReachedSound(rules, g, v);
    LostObjectUnreplayable(rules, v, task);
    ReconciliationHelpsIff(rules, g, v);
  }

  lemma LevelAppendAdds(rules: Rules, g: WitnessHead, w: Installation, p: nat)
    requires IsGenesis(g) && Reached(rules, g, w) && |w.ledger.log| == |w.ledger.database|
    requires p in w.processes && w.processes[p].task.AppendTask?
    requires w.processes[p].phase == Checked(w.ledger.head) || w.processes[p].phase == Journalled(w.ledger.head)
    ensures Adds(w.ledger.tables, w.processes[p].task)
  {
    ReachedMirrors(rules, g, w);
    LevelMirrors(rules, g, w);
    AppendHolds(rules, g, w, p);
    CheckedAdds(rules, w.ledger.head, w.processes[p].task);
  }

  // ----- a reconciliation that comes between journal and witness

  /** A third way to lose them: an append that has journalled its entry and not yet advanced the witness takes no
      permit, its row is still on the witness's head, and the sweep of a reconciliation removes row and staged object;
      it spares them exactly if some pending append stops it altogether. */
  lemma JournalledAppendIsSwept(rules: Rules, g: WitnessHead, w: Installation, p: nat)
    requires IsGenesis(g) && Reached(rules, g, w)
    requires p in w.processes && w.processes[p].task.AppendTask? && w.processes[p].phase == Journalled(w.ledger.head)
    ensures var task, v := w.processes[p].task, Make(rules, Watch(w, false, {}), Sweep).value.w;
            && task.entry in v.ledger.journal && v.processes == w.processes
            && (task.desc.objectId !in v.things.intents <==> !Jammed(w))
            && (task.StagingName() !in v.things.staging <==> !Jammed(w))
  {
    JournalledIsCurrent(rules, g, w, p);
  }

  lemma JournalledIsCurrent(rules: Rules, g: WitnessHead, w: Installation, p: nat)
    requires IsGenesis(g) && Reached(rules, g, w)
    requires p in w.processes && w.processes[p].task.AppendTask? && w.processes[p].phase == Journalled(w.ledger.head)
    ensures var task := w.processes[p].task;
            && task.entry in w.ledger.journal && HoldsAppend(w.things, p, task) && task.desc.objectId in Cancelled(w)
            && task.StagingName() == (w.things.intents[task.desc.objectId].setId, task.desc.objectId)
    ensures Sweepable(w) <==> !Jammed(w)
  {
    ReachedMirrors(rules, g, w);
    SweepableIff(w);
    AppendHolds(rules, g, w, p);
    RowIsCurrent(rules, w.ledger.head, w.processes[p].task, p);
  }

  lemma RowIsCurrent(rules: Rules, head: WitnessHead, task: Task<Entry>, p: nat)
    requires task.AppendTask? && Reserves(task) && ChecksOut(rules, head, task)
    ensures Current(head, task.Row(p)) && task.StagingName() == (task.Row(p).setId, task.desc.objectId)
  {
    RowExpects(task, p);
  }

  /** Its process goes on to advance the witness all the same. Then its commit is refused, and neither that
      reconciliation nor any number of others persists its entry. */
  lemma SweptAppendIsLost(rules: Rules, g: WitnessHead, w: Installation, p: nat) returns (u: Installation)
    requires IsGenesis(g) && Reached(rules, g, w) && |w.ledger.log| == |w.ledger.database| && !Jammed(w)
    requires p in w.processes && w.processes[p].task.AppendTask? && w.processes[p].phase == Journalled(w.ledger.head)
    ensures Act(Wired(rules), Swept(w), Advance(p, true)) == Some(u) && Awaited(Wired(rules), u, p)
    ensures Act(Wired(rules), u, Commit(p, true)).Some?
    ensures Act(Wired(rules), u, Commit(p, true)).value.ledger.database == u.ledger.database
    ensures forall ms, y :: Supervised(ms) && MakeAll(rules, Watch(u, true, {}), ms) == Some(y) ==>
              y.w.ledger.database == u.ledger.database
  {
    var task := w.processes[p].task;
    JournalledIsCurrent(rules, g, w, p);
    LevelAppendAdds(rules, g, w, p);
    ReachedSound(rules, g, w);
    SweptSound(rules, g, w);
    u := SweptAdvances(rules, g, Swept(w), p);
    AwaitedLetsIff(rules, g, u, p);
    var after := AwaitedCommitsIff(Wired(rules), g, u, p);
    LostObjectUnreplayable(rules, u, task);
    forall ms, y | Supervised(ms) && MakeAll(rules, Watch(u, true, {}), ms) == Some(y)
      ensures y.w.ledger.database == u.ledger.database
    {
      OutOfReachForGood(rules, g, Watch(u, true, {}), ms, y);
    }
  }

  lemma SweptAdvances(rules: Rules, g: WitnessHead, v: Installation, p: nat) returns (u: Installation)
    requires Sound(rules, g, v) && |v.ledger.log| == |v.ledger.database|
    requires p in v.processes && v.processes[p].phase == Journalled(v.ledger.head)
    ensures Act(Wired(rules), v, Advance(p, true)) == Some(u) && Awaited(Wired(rules), u, p) && Sound(rules, g, u)
    ensures u.processes[p].task == v.processes[p].task && u.things == v.things
    ensures OneBehind(u) && Due(u) == v.processes[p].task.entry && u.ledger.tables == v.ledger.tables
  {
    JournalledIsNext(rules, g, v, p);
    u := Advances(Wired(rules), v, p, true);
    StepSound(rules, g, v, Advance(p, true), u);
  }

  // ----- from a genesis

  lemma UndoneBothWays(rules: Rules, g: WitnessHead, w: Installation, p: nat, q: nat)
    returns (doubtful: Installation, shared: Installation)
    requires IsGenesis(g) && Reached(rules, g, w) && q !in w.processes && |w.ledger.log| == |w.ledger.database|
    requires p in w.processes && w.processes[p].task.AppendTask? && w.processes[p].phase == Checked(w.ledger.head)
    ensures Reached(rules, g, doubtful) && Reached(rules, g, shared)
    ensures UndidAppend(w, p, doubtful) && UndidAppend(w, p, shared)
    ensures var e := w.processes[p].task.entry;
            && e in doubtful.ledger.journal && e in shared.ledger.journal
            && shared.ledger.log == w.ledger.log + [Record(w.ledger.head, OtherTask(e))]
    ensures forall ms :: Supervised(ms) ==> !Grows(rules, shared, ms)
  {
    var steps;
    LevelAppendAdds(rules, g, w, p);
    steps, doubtful := AmbiguousAppendIsUndone(rules, g, w, p);
    steps, shared := LostObjectIsNotReconciled(rules, g, w, p, q);
    ReachedOn(rules, g, w, steps, shared);
  }

  /** Any genesis: with the installation initialized, a set started and its base chunk signed, the chunk's intent and
      object can be removed after its entry was journalled, by an append that failed after writing, and also with every
      append answered truthfully, in which case no reconciliation persists the entry. */
  lemma FirstChunkIsUndone(rules: Rules, g: WitnessHead, b: Beginning)
    returns (w: Installation, doubtful: Installation, shared: Installation)
    requires IsGenesis(g) && b.Admissible(rules, g)
    ensures 2 in w.processes && w.processes[2].task == b.Append(rules, g)
    ensures Reached(rules, g, w) && Reached(rules, g, doubtful) && Reached(rules, g, shared)
    ensures UndidAppend(w, 2, doubtful) && UndidAppend(w, 2, shared)
    ensures var e := b.AppendEntry(rules, g);
            && e in doubtful.ledger.journal && e in shared.ledger.journal
            && |shared.ledger.log| == 3 && shared.ledger.log[2].task.entry == e
    ensures forall ms :: Supervised(ms) ==> !Grows(rules, shared, ms)
  {
    w := ChunkReaches(rules, g, b);
    doubtful, shared := UndoneBothWays(rules, g, w, 2, 3);
  }
}
