/** States from which the database never grows again, and runs that lead to them. */
module ArchiveDeadEnds {
  import opened Bytes
  import opened Wrappers
  import opened Archive
  import ArchiveRuns
  import opened ArchiveSuccessors
  import opened ArchiveTables
  import opened SafetyWitness
  import opened ArchiveProtocol
  import opened ArchiveProtocolSafety
  import opened ArchiveProtocolLosses
  import opened ArchiveProtocolStall
  import opened ArchiveAuthority
  import opened ArchiveMirror
  import opened ArchiveReconciliation
  import opened ArchiveWitnessHistory
  import opened ArchiveStall

  // ----- two entries behind

  /** Two or more entries are witnessed beyond the database and nobody is left to commit the first of them: no run of
      any processes, with any number of reconciliations, adds to the database. */
  lemma TwoBehindForGood(rules: Rules, g: WitnessHead, w: Installation)
    requires IsGenesis(g) && Reached(rules, g, w)
    requires Stalled(Wired(rules), w) && |w.ledger.database| + 1 < |w.ledger.log|
    ensures forall ms :: !Grows(rules, w, ms)
  {
    HopelessNeverGrows(rules, g, w);
  }

  lemma JournalledIsNext(rules: Rules, g: WitnessHead, w: Installation, p: nat)
    requires AuthorityInv(Wired(rules), g, w) && p in w.processes && w.processes[p].phase == Journalled(w.ledger.head)
    ensures IsNext(Wired(rules), w.ledger.head, w.processes[p].task.entry)
  {
    assert Relies(Wired(rules), w.ledger.journal, w.ledger.log, w.ledger.database, w.processes[p]);
    PassesBare(rules, w.ledger.head, w.processes[p].task);
  }

  lemma NobodyAwaited(rules: Rules, g: WitnessHead, w: Installation, p: nat, u: Installation, q: nat, next: Entry)
    requires AuthorityInv(Wired(rules), g, w) && |w.ledger.log| == |w.ledger.database| == |u.ledger.database|
    requires p in w.processes && u.processes == w.processes[p := w.processes[p].(phase := Stopped)]
    requires |u.ledger.log| == |w.ledger.log| + 1 && next.sequence == |w.ledger.log| + 2
    ensures Stalled(Wired(rules), BareCarried(Wired(rules), u, q, OtherTask(next)))
  {
    var wires, v := Wired(rules), BareCarried(Wired(rules), u, q, OtherTask(next));
    forall r ensures !Awaited(wires, v, r) {
      if r in w.processes && r != q && r != p && w.processes[r].phase.Witnessed? {
        WitnessedIsOnLog(wires, g, w, r);
      }
    }
  }

  /** It comes to that: where the database is level with the witness, a process whose advance goes unanswered and one
      more advance by anybody leave it behind for good. */
  lemma TwoAdvancesStick(rules: Rules, g: WitnessHead, w: Installation, p: nat, q: nat, next: Entry)
    returns (steps: seq<Step<Entry>>, v: Installation)
    requires IsGenesis(g) && Reached(rules, g, w) && |w.ledger.log| == |w.ledger.database| && q !in w.processes
    requires p in w.processes && w.processes[p].phase == Journalled(w.ledger.head)
    requires ChecksOut(rules, Advanced(rules.entryDigest, w.ledger.head, w.processes[p].task.entry), OtherTask(next))
    ensures Execute(Wired(rules), w, steps) == Some(v) && Truthful(steps)
    ensures forall ms :: !Grows(rules, v, ms)
  {
    var wires := Wired(rules);
    ReachedKeeps(rules, g, w);
    JournalledIsNext(rules, g, w, p);
    var u := Advances(wires, w, p, false);
    PassesBare(rules, u.ledger.head, OtherTask(next));
    steps := UnansweredThen(wires, w, p, u, q, OtherTask(next));
    v := BareCarried(wires, u, q, OtherTask(next));
    NobodyAwaited(rules, g, w, p, u, q, next);
    ReachedOn(rules, g, w, steps, v);
    TwoBehindForGood(rules, g, v);
  }

  lemma UnansweredThen(wires: Wires<WitnessHead, Entry>, w: Installation, p: nat, u: Installation, q: nat,
                       task: Task<Entry>) returns (steps: seq<Step<Entry>>)
    requires Act(wires, w, Advance(p, false)) == Some(u) && q !in u.processes && task.OtherTask?
    requires CanBeWitnessed(wires, u.ledger.head, task.entry)
    ensures Execute(wires, w, steps) == Some(BareCarried(wires, u, q, task)) && Truthful(steps)
  {
    var more := BareRuns(wires, u, q, task);
    Alone(wires, w, Advance(p, false));
    Then(wires, w, [Advance(p, false)], u, more);
    steps := [Advance(p, false)] + more;
  }

  // ----- a pending append that can no longer be abandoned

  /** A pending append on the present head of a set that no longer streams stops every reconciliation, so without
      somebody to commit the next entry the database never grows again. */
  lemma JammedForGood(rules: Rules, g: WitnessHead, w: Installation)
    requires IsGenesis(g) && Reached(rules, g, w) && Stalled(Wired(rules), w) && Jammed(w)
    ensures forall ms :: !Grows(rules, w, ms)
  {
    HopelessNeverGrows(rules, g, w);
  }

  // ----- and is there for good

  /** This pending append is on a set that the database no longer shows streaming. */
  predicate Stranded(w: Installation, o: Uuid) {
    o in w.things.intents && OnClosedSet(w.ledger.tables, w.things.intents[o])
  }

  /** No commit consumes it: the append would have been checked on a streaming set. */
  lemma CommitSparesStranded(rules: Rules, seen: WitnessHead, task: Task<Entry>, intents: Intents, database: seq<Entry>,
                             o: Uuid)
    requires ChecksOut(rules, seen, task) && Enters(rules, seen.state.archive, intents, database, task).Some?
    requires o in intents && OnClosedSet(seen.state.archive, intents[o])
    ensures task.AppendTask? ==> task.desc.objectId != o
    ensures OnClosedSet(Enters(rules, seen.state.archive, intents, database, task).value, intents[o])
  {
    if !task.OtherTask? {
      EnterKeepsClosed(rules.dg, seen.state.archive, intents, rules.released, task.Operation().value, task.Named(),
                       intents[o].setId);
    }
  }

  lemma CommitLeavesStranded(rules: Rules, g: WitnessHead, w: Installation, p: nat, replied: bool, w': Installation,
                             o: Uuid)
    requires Sound(rules, g, w) && Stranded(w, o)
    requires p in w.processes && DoCommit(Wired(rules), w, p, replied) == Some(w')
    ensures Stranded(w', o)
  {
    CommitOutcome(Wired(rules), w, p, replied, w');
    if w'.ledger.database != w.ledger.database {
      var seen := AwaitedIsChecked(rules, g, w, p);
      EnteringLeavesStranded(rules, seen, w.processes[p].task, w, w', o);
    }
  }

  lemma EnteringLeavesStranded(rules: Rules, seen: WitnessHead, task: Task<Entry>, w: Installation, w': Installation,
                               o: Uuid)
    requires seen.state.archive == w.ledger.tables && ChecksOut(rules, seen, task) && Stranded(w, o)
    requires Enters(rules, w.ledger.tables, w.things.intents, w.ledger.database, task) == Some(w'.ledger.tables)
    requires w'.things.intents
             == if task.AppendTask? then w.things.intents - {task.desc.objectId} else w.things.intents
    ensures Stranded(w', o)
  {
    CommitSparesStranded(rules, seen, task, w.things.intents, w.ledger.database, o);
  }

  lemma StrandedKept(rules: Rules, g: WitnessHead, w: Installation, s: Step<Entry>, w': Installation, o: Uuid)
    requires Sound(rules, g, w) && Stranded(w, o) && Act(Wired(rules), w, s) == Some(w')
    ensures Stranded(w', o)
  {
    if s.Commit? {
      CommitLeavesStranded(rules, g, w, s.p, s.replied, w', o);
    } else {
      StepSparesTables(Wired(rules), w, s, w');
      ClosedRowsStay(Wired(rules), w, s, w');
    }
  }

  lemma {:induction false} StrandedForGood(rules: Rules, g: WitnessHead, w: Installation, steps: seq<Step<Entry>>,
                                           v: Installation, o: Uuid)
    requires Sound(rules, g, w) && Stranded(w, o) && Execute(Wired(rules), w, steps) == Some(v)
    ensures Stranded(v, o)
    decreases |steps|
  {
    if steps != [] {
      var next := Act(Wired(rules), w, steps[0]).value;
      StepSound(rules, g, w, steps[0], next);
      StrandedKept(rules, g, w, steps[0], next, o);
      StrandedForGood(rules, g, next, steps[1..], v, o);
    }
  }

  /** A set that does not stream keeps its head through anything a controller checked. */
  lemma CheckedKeepsClosedHead(rules: Rules, seen: WitnessHead, task: Task<Entry>, id: Uuid)
    requires ArchiveRuns.Inv(rules.dg, seen.state.archive) && ChecksOut(rules, seen, task) && Reserves(task)
    requires !Unchecked(task)
    requires id in seen.state.archive.sets && !seen.state.archive.sets[id].lifecycle.Streaming?
    ensures id in task.entry.state.archive.sets
    ensures task.entry.state.archive.sets[id].head == seen.state.archive.sets[id].head
  {
    if task.OtherTask? {
      OtherKindsKeepArchive(rules, seen, task.entry);
    } else {
      var op := task.Operation().value;
      CheckedFits(rules, seen, task);
      ArchiveRuns.StepKeeps(rules.dg, seen.state.archive, op, task.entry.state.archive);
    }
  }

  lemma StrandedJams(rules: Rules, g: WitnessHead, w: Installation, o: Uuid)
    requires Sound(rules, g, w) && Stranded(w, o) && |w.ledger.log| <= |w.ledger.database| + 1
    requires Behind(w) ==> !Unchecked(w.ledger.log[|w.ledger.database|].task)
    ensures Jammed(w)
  {
    var id := w.things.intents[o].setId;
    if Behind(w) {
      var r := w.ledger.log[|w.ledger.database|];
      SeenIsCommitted(rules, g, w);
      PresentIsHead(rules, g, w);
      CheckedKeepsClosedHead(rules, r.seen, r.task, id);
    } else {
      LevelMirrors(rules, g, w);
    }
    assert Current(w.ledger.head, w.things.intents[o]);
  }

  /** Once the database shows a set sealing over a pending append, reconciliation is out of order for the whole
      installation: however the processes go on, no number of reconciliations ever persists an entry that a controller
      checked, of this set or any other. */
  lemma StrandedAppendDisablesReconciling(rules: Rules, g: WitnessHead, w: Installation, o: Uuid,
                                          steps: seq<Step<Entry>>, v: Installation)
    requires IsGenesis(g) && Reached(rules, g, w) && Stranded(w, o) && Execute(Wired(rules), w, steps) == Some(v)
    requires Behind(v) ==> !Unchecked(v.ledger.log[|v.ledger.database|].task)
    ensures forall ms :: Supervised(ms) ==> !Grows(rules, v, ms)
  {
    ReachedSound(rules, g, w);
    StrandedForGood(rules, g, w, steps, v, o);
    ReachedOn(rules, g, w, steps, v);
    ReachedSound(rules, g, v);
    if OneBehind(v) {
      StrandedJams(rules, g, v, o);
    }
    NeverReconciled(rules, g, v);
  }

  // ----- a seal over a pending append

  /** The next entry for the database seals this set. */
  ghost predicate SealsNext(w: Installation, id: Uuid) {
    && Behind(w) && Due(w).kind == ArchiveEvent(SealCommitted)
    && Derives(w.ledger.tables, Due(w).state.archive, SealCommitted, OpCommitSealed(id))
  }

  lemma SealIsNotClear(rules: Rules, seen: WitnessHead, task: Task<Entry>, intents: Intents, database: seq<Entry>,
                       id: Uuid)
    requires ArchiveRuns.Inv(rules.dg, seen.state.archive) && ChecksOut(rules, seen, task) && Reserves(task)
    requires task.entry.kind == ArchiveEvent(SealCommitted) && PendingOn(intents, id)
    requires Derives(seen.state.archive, task.entry.state.archive, SealCommitted, OpCommitSealed(id))
    ensures !ClearTask(rules, seen.state.archive, intents, database, task)
  {
    if task.AppendTask? {
      CheckpointKindForced(rules, seen, task.entry, task.Reservation());
      assert false;
    } else if !task.OtherTask? {
      assert task.LifecycleTask? && task.op.OpCommitSealed?;
      assert task.op.setId == id;
    }
  }

  lemma SealIsObstructed(rules: Rules, g: WitnessHead, w: Installation, id: Uuid)
    requires Sound(rules, g, w) && SealsNext(w, id) && PendingOn(w.things.intents, id)
    ensures Obstructed(rules, w)
  {
    forall p | Awaited(Wired(rules), w, p) ensures !IsClear(rules, w, p) {
      var seen := AwaitedIsChecked(rules, g, w, p);
      SealIsNotClear(rules, seen, w.processes[p].task, w.things.intents, w.ledger.database, id);
    }
  }

  lemma SealIsBeyond(rules: Rules, g: WitnessHead, w: Installation, id: Uuid)
    requires Sound(rules, g, w) && SealsNext(w, id) && PendingOn(w.things.intents, id)
    ensures !ClearEntry(rules, w)
  {
    ArchiveEntryPresented(rules, g, w);
    PresentedSealIsNotClear(rules, w, id);
  }

  lemma PresentedSealIsNotClear(rules: Rules, w: Installation, id: Uuid)
    requires Presented(rules.dg, w) && SealsNext(w, id) && PendingOn(w.things.intents, id)
    ensures !ClearEntry(rules, w)
  {
    var e := Due(w);
    forall op: Op | Derives(w.ledger.tables, e.state.archive, SealCommitted, op) ensures op == OpCommitSealed(id) {
      DerivedOnce(rules.dg, w.ledger.tables, e.state.archive, SealCommitted, op, OpCommitSealed(id));
    }
  }

  /** Once the witness has sealed a set of which the database still holds a pending append, the database never grows
      again, though the process that sealed it be there to commit: its commit is refused while the append pends, and the
      append can be abandoned only while the set streams. */
  lemma PendingAppendStopsSeal(rules: Rules, g: WitnessHead, w: Installation, id: Uuid)
    requires IsGenesis(g) && Reached(rules, g, w) && SealsNext(w, id) && PendingOn(w.things.intents, id)
    ensures forall ms :: !Grows(rules, w, ms)
  {
    ReachedSound(rules, g, w);
    SealIsObstructed(rules, g, w, id);
    SealIsBeyond(rules, g, w, id);
    HopelessNeverGrows(rules, g, w);
  }

  /** Where the database is level, the witness's archive is the one in the tables. */
  lemma LevelMirrors(rules: Rules, g: WitnessHead, w: Installation)
    requires Sound(rules, g, w) && |w.ledger.log| == |w.ledger.database|
    ensures w.ledger.head.state.archive == w.ledger.tables
  {
    var n := |w.ledger.log|;
    assert w.ledger.head == HeadAt(Wired(rules), g, w.ledger.log, n);
    if n > 0 {
      assert w.ledger.database[n - 1] == w.ledger.log[n - 1].task.entry;
    }
  }

  lemma SealDerives(dg: Digester, before: State, after: State, id: Uuid)
    requires Apply(dg, before, OpCommitSealed(id)) == Ok(after)
    ensures Derives(before, after, SealCommitted, OpCommitSealed(id))
  {
    assert ChangedOnlyAt(before.sets, after.sets, id);
  }

  /** It comes to that too: wherever a set with a pending append stands ready to be sealed, the controller that seals it
      advances the witness, waits with its commit, and the database never grows again. */
  lemma SealStalls(rules: Rules, g: WitnessHead, w: Installation, id: Uuid, q: nat, named: Digest, e: Entry)
    returns (steps: seq<Step<Entry>>, v: Installation)
    requires IsGenesis(g) && Reached(rules, g, w) && |w.ledger.log| == |w.ledger.database| && q !in w.processes
    requires PendingOn(w.things.intents, id)
    requires ChecksOut(rules, w.ledger.head, LifecycleTask(OpCommitSealed(id), named, SealCommitted, e))
    ensures Execute(Wired(rules), w, steps) == Some(v) && Truthful(steps)
    ensures Awaited(Wired(rules), v, q) && forall ms :: !Grows(rules, v, ms)
  {
    var task := LifecycleTask(OpCommitSealed(id), named, SealCommitted, e);
    ReachedSound(rules, g, w);
    LevelMirrors(rules, g, w);
    PassesBare(rules, w.ledger.head, task);
    steps := BareRuns(Wired(rules), w, q, task);
    v := BareCarried(Wired(rules), w, q, task);
    ReachedOn(rules, g, w, steps, v);
    SealDerives(rules.dg, w.ledger.tables, e.state.archive, id);
    assert v.ledger.log[|w.ledger.database|].task == task;
    PendingAppendStopsSeal(rules, g, v, id);
  }
}
