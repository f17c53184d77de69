/** The archive states the witness has held, in order, as a run of the archive machine. */
module ArchiveWitnessHistory {
  import opened Bytes
  import opened Wrappers
  import opened Archive
  import opened ArchiveRuns
  import opened ArchiveSuccessors
  import opened ArchiveRoundTrip
  import opened SafetyWitness
  import opened ArchiveProtocol
  import opened ArchiveProtocolSafety
  import opened ArchiveAuthority

  // ----- one advance

  /** The operations a controller may check an entry against, from an ordinal-zero head for a start. */
  ghost predicate Witnessable(op: Op) {
    op.Valid() && !op.OpRelease? && (op.OpStart? ==> op.initial.ordinal == 0)
  }

  ghost predicate IsStep(dg: Digester, before: State, after: State) {
    before == after || exists op: Op :: Witnessable(op) && Apply(dg, before, op) == Ok(after)
  }

  /** An entry nobody compared with an expected state, signed under an archive event kind. */
  predicate Unchecked(task: Task<Entry>) {
    task.OtherTask? && task.entry.kind.ArchiveEvent?
  }

  function EventOf(op: Op): Event
    requires !op.OpRelease?
  {
    match op
    case OpStart(_, _) => Started
    case OpCommit(_, _) => Checkpointed
    case OpHold(_, _) => HoldAcquired
    case OpBeginSealing(_) => SealingBegun
    case OpCommitSealed(_) => SealCommitted
    case OpPrepareDeletion(_, _) => DeletionReady
    case OpPrepareKeyErasure(_, _) => KeyErasureReady
    case OpRecordKeyErased(_) => KeyErased
    case OpFinalizeDeleted(_) => Removed
  }

  /** What a controller checked is a step of the machine. */
  lemma CheckedIsStep(rules: Rules, head: WitnessHead, task: Task<Entry>)
    requires Reserves(task) && ChecksOut(rules, head, task) && !task.OtherTask?
    ensures Witnessable(task.Operation().value)
    ensures Apply(rules.dg, head.state.archive, task.Operation().value) == Ok(task.entry.state.archive)
  {
  }

  /** What nobody checked is a step exactly when the guards its event's predicate omits hold. */
  lemma UncheckedIsStepIff(rules: Rules, head: WitnessHead, entry: Entry)
    requires Inv(rules.dg, head.state.archive) && Typed(entry.state.archive)
    requires AcceptSigned(rules, head, entry).Pass? && entry.kind.ArchiveEvent?
    ensures IsStep(rules.dg, head.state.archive, entry.state.archive)
       <==> Guarded(entry.kind.event, head.state.archive, entry.state.archive)
  {
    var before, after, e := head.state.archive, entry.state.archive, entry.kind.event;
    assert Accepts(rules.dg, e, before, after);
    EventsExclusive(rules.dg, e, e, before, after);
    PredicateIffOperation(rules.dg, e, before, after);
    if IsStep(rules.dg, before, after) {
      var op: Op :| Witnessable(op) && Apply(rules.dg, before, op) == Ok(after);
      OperationsAccepted(rules.dg, before, op, after, EventOf(op));
      EventsExclusive(rules.dg, e, EventOf(op), before, after);
    }
    if Guarded(e, before, after) {
      var op: Op :| op.Valid() && Produces(op, e) && (op.OpStart? ==> op.initial.ordinal == 0)
                    && Apply(rules.dg, before, op) == Ok(after);
      assert Witnessable(op);
    }
  }

  // ----- the whole history

  /** The archive state the witness held after `i` advances. */
  function ArchiveAt(g: WitnessHead, log: seq<Record<WitnessHead, Entry>>, i: nat): State
    requires i <= |log|
  {
    if i == 0 then g.state.archive else log[i - 1].task.entry.state.archive
  }

  ghost predicate StepAt(dg: Digester, g: WitnessHead, log: seq<Record<WitnessHead, Entry>>, i: nat)
    requires i < |log|
  {
    IsStep(dg, ArchiveAt(g, log, i), ArchiveAt(g, log, i + 1))
  }

  /** The first `n` advances were steps of the machine. */
  ghost predicate Follows(dg: Digester, g: WitnessHead, log: seq<Record<WitnessHead, Entry>>, n: nat)
    requires n <= |log|
  {
    forall i :: 0 <= i < n ==> StepAt(dg, g, log, i)
  }

  /** An unchecked archive entry met the guards that its event's predicate omits. */
  ghost predicate GuardedAt(g: WitnessHead, log: seq<Record<WitnessHead, Entry>>, i: nat)
    requires i < |log|
  {
    Unchecked(log[i].task) ==> Guarded(log[i].task.entry.kind.event, ArchiveAt(g, log, i), ArchiveAt(g, log, i + 1))
  }

  lemma AdvanceChecked(rules: Rules, g: WitnessHead, w: Installation, i: nat)
    requires IsGenesis(g) && Reached(rules, g, w) && i < |w.ledger.log|
    ensures w.ledger.log[i].seen.state.archive == ArchiveAt(g, w.ledger.log, i)
    ensures ChecksOut(rules, w.ledger.log[i].seen, w.ledger.log[i].task) && Reserves(w.ledger.log[i].task)
  {
    ReachedKeeps(rules, g, w);
    assert RecordOk(Wired(rules), g, w.ledger.log, w.ledger.journal, i);
    assert Wired(rules).check(w.ledger.log[i].seen, w.ledger.log[i].task);
  }

  /** No set without checkpoints sits away from ordinal zero. */
  ghost predicate ZeroHeads(s: State) {
    forall id: Uuid :: id in s.sets && s.sets[id].checkpoints == [] ==> s.sets[id].head.ordinal == 0
  }

  lemma StepKeepsZeroHeads(dg: Digester, s: State, op: Op, s': State)
    requires Inv(dg, s) && ZeroHeads(s) && Witnessable(op) && Apply(dg, s, op) == Ok(s')
    ensures Inv(dg, s') && ZeroHeads(s')
  {
    StepKeeps(dg, s, op, s');
    forall id: Uuid | id in s'.sets && s'.sets[id].checkpoints == [] ensures s'.sets[id].head.ordinal == 0 {
      assert id in s.sets ==> id == op.Target() || s'.sets[id] == s.sets[id];
      assert id in s.sets && id == op.Target() ==> Evolves(s.sets[id], s'.sets[id]);
    }
  }

  lemma StepInv(dg: Digester, s: State, s': State)
    requires Inv(dg, s) && ZeroHeads(s) && IsStep(dg, s, s')
    ensures Inv(dg, s') && ZeroHeads(s')
  {
    if s != s' {
      var op: Op :| Witnessable(op) && Apply(dg, s, op) == Ok(s');
      StepKeepsZeroHeads(dg, s, op, s');
    }
  }

  lemma {:induction false} HistoryInv(dg: Digester, g: WitnessHead, log: seq<Record<WitnessHead, Entry>>, n: nat)
    requires IsGenesis(g) && n <= |log| && Follows(dg, g, log, n)
    ensures Inv(dg, ArchiveAt(g, log, n)) && ZeroHeads(ArchiveAt(g, log, n))
    decreases n
  {
    if n > 0 {
      HistoryInv(dg, g, log, n - 1);
      assert StepAt(dg, g, log, n - 1);
      StepInv(dg, ArchiveAt(g, log, n - 1), ArchiveAt(g, log, n));
    }
  }

  lemma StepAtIff(rules: Rules, g: WitnessHead, w: Installation, i: nat)
    requires IsGenesis(g) && Reached(rules, g, w) && i < |w.ledger.log|
    requires Unchecked(w.ledger.log[i].task) ==> Typed(w.ledger.log[i].task.entry.state.archive)
    requires Follows(rules.dg, g, w.ledger.log, i)
    ensures StepAt(rules.dg, g, w.ledger.log, i) <==> GuardedAt(g, w.ledger.log, i)
  {
    AdvanceChecked(rules, g, w, i);
    HistoryInv(rules.dg, g, w.ledger.log, i);
    var r := w.ledger.log[i];
    if !r.task.OtherTask? {
      CheckedIsStep(rules, r.seen, r.task);
    } else if Unchecked(r.task) {
      UncheckedIsStepIff(rules, r.seen, r.task.entry);
    } else {
      OtherKindsKeepArchive(rules, r.seen, r.task.entry);
    }
  }

  /** Under every interleaving, with failures at any step: the archive states held by the witness form a run
      of the archive machine, each one operation (or nothing) from the one before, if and only if every
      archive entry that no controller checked met the guards its event's predicate omits. */
  lemma {:induction false} HistoryIsRunIff(rules: Rules, g: WitnessHead, w: Installation, n: nat)
    requires IsGenesis(g) && Reached(rules, g, w) && n <= |w.ledger.log|
    requires forall i :: 0 <= i < n && Unchecked(w.ledger.log[i].task) ==>
               Typed(w.ledger.log[i].task.entry.state.archive)
    ensures Follows(rules.dg, g, w.ledger.log, n) <==> forall i :: 0 <= i < n ==> GuardedAt(g, w.ledger.log, i)
    decreases n
  {
    if n > 0 {
      HistoryIsRunIff(rules, g, w, n - 1);
      if Follows(rules.dg, g, w.ledger.log, n - 1) {
        StepAtIff(rules, g, w, n - 1);
      } else {
        var i :| 0 <= i < n - 1 && !GuardedAt(g, w.ledger.log, i);
      }
    }
  }

  /** A history of steps is a run from the empty archive. */
  lemma {:induction false} FollowsIsRun(dg: Digester, g: WitnessHead, log: seq<Record<WitnessHead, Entry>>, n: nat)
    returns (ops: seq<Op>)
    requires IsGenesis(g) && n <= |log| && Follows(dg, g, log, n)
    ensures |ops| <= n && forall i :: 0 <= i < |ops| ==> Witnessable(ops[i])
    ensures Run(dg, EMPTY, ops) == Ok(ArchiveAt(g, log, n))
    decreases n
  {
    if n == 0 {
      ops := [];
    } else {
      ops := FollowsIsRun(dg, g, log, n - 1);
      assert StepAt(dg, g, log, n - 1);
      ops := RunExtends(dg, ops, ArchiveAt(g, log, n - 1), ArchiveAt(g, log, n));
    }
  }

  /** When only controllers sign archive events, every state the witness ever held is reached from the empty
      archive by operations that release no hold and start every set at ordinal zero. */
  lemma ControllersFollowMachine(rules: Rules, g: WitnessHead, w: Installation, n: nat) returns (ops: seq<Op>)
    requires IsGenesis(g) && Reached(rules, g, w) && n <= |w.ledger.log|
    requires forall i :: 0 <= i < n ==> !Unchecked(w.ledger.log[i].task)
    ensures Follows(rules.dg, g, w.ledger.log, n)
    ensures |ops| <= n && forall i :: 0 <= i < |ops| ==> Witnessable(ops[i])
    ensures Run(rules.dg, EMPTY, ops) == Ok(ArchiveAt(g, w.ledger.log, n))
  {
    HistoryIsRunIff(rules, g, w, n);
    ops := FollowsIsRun(rules.dg, g, w.ledger.log, n);
  }

  lemma RunExtends(dg: Digester, ops: seq<Op>, s: State, s': State) returns (more: seq<Op>)
    requires Run(dg, EMPTY, ops) == Ok(s) && IsStep(dg, s, s')
    requires forall i :: 0 <= i < |ops| ==> Witnessable(ops[i])
    ensures Run(dg, EMPTY, more) == Ok(s') && |more| <= |ops| + 1
    ensures forall i :: 0 <= i < |more| ==> Witnessable(more[i])
  {
    more := ops;
    if s != s' {
      var op: Op :| Witnessable(op) && Apply(dg, s, op) == Ok(s');
      RunSplit(dg, EMPTY, ops, [op]);
      assert Run(dg, s, [op]) == Ok(s');
      more := ops + [op];
    }
  }

  // ----- what that gives

  /** Every state the witness has held comes back from its own canonical bytes. */
  lemma WitnessStatesDecode(rules: Rules, g: WitnessHead, w: Installation, n: nat)
    requires IsGenesis(g) && Reached(rules, g, w) && n <= |w.ledger.log|
    requires Follows(rules.dg, g, w.ledger.log, n) && Fits(ArchiveAt(g, w.ledger.log, n))
    ensures FromCanonicalBytes(rules.dg, CanonicalBytes(ArchiveAt(g, w.ledger.log, n)))
            == Ok(ArchiveAt(g, w.ledger.log, n))
  {
    HistoryInv(rules.dg, g, w.ledger.log, n);
    DecodeUndoesEncode(rules.dg, ArchiveAt(g, w.ledger.log, n));
  }

  lemma {:induction false} HeldStays(dg: Digester, g: WitnessHead, log: seq<Record<WitnessHead, Entry>>, i: nat, j: nat,
                                     id: Uuid, hold: Uuid)
    requires i <= j <= |log| && Follows(dg, g, log, j)
    requires Inv(dg, ArchiveAt(g, log, i)) && ZeroHeads(ArchiveAt(g, log, i))
    requires var s := ArchiveAt(g, log, i);
             id in s.sets && hold in s.sets[id].holds && s.sets[id].holds[hold].Active()
    ensures var s := ArchiveAt(g, log, j);
            id in s.sets && hold in s.sets[id].holds && s.sets[id].holds[hold].Active()
            && s.sets[id].lifecycle.Streaming?
    decreases j - i
  {
    var s := ArchiveAt(g, log, i);
    if i == j {
      UnreleasedHoldKeepsStreaming(dg, s, [], s, id, hold);
    } else {
      assert StepAt(dg, g, log, i);
      WitnessedStepKeepsHold(dg, s, ArchiveAt(g, log, i + 1), id, hold);
      StepInv(dg, s, ArchiveAt(g, log, i + 1));
      HeldStays(dg, g, log, i + 1, j, id, hold);
    }
  }

  /** No witnessed operation releases a hold, so a set once held is Streaming in every later witness state. */
  lemma HeldSetsStayStreaming(rules: Rules, g: WitnessHead, w: Installation, i: nat, j: nat, id: Uuid, hold: Uuid)
    requires IsGenesis(g) && Reached(rules, g, w) && i <= j <= |w.ledger.log|
    requires Follows(rules.dg, g, w.ledger.log, j)
    requires var s := ArchiveAt(g, w.ledger.log, i);
             id in s.sets && hold in s.sets[id].holds && s.sets[id].holds[hold].Active()
    ensures var s := ArchiveAt(g, w.ledger.log, j);
            id in s.sets && hold in s.sets[id].holds && s.sets[id].holds[hold].Active()
            && s.sets[id].lifecycle.Streaming?
  {
    HistoryInv(rules.dg, g, w.ledger.log, i);
    HeldStays(rules.dg, g, w.ledger.log, i, j, id, hold);
  }

  lemma WitnessedStepKeepsHold(dg: Digester, s: State, t: State, id: Uuid, hold: Uuid)
    requires Inv(dg, s) && IsStep(dg, s, t)
    requires id in s.sets && hold in s.sets[id].holds && s.sets[id].holds[hold].Active()
    ensures id in t.sets && hold in t.sets[id].holds && t.sets[id].holds[hold].Active()
  {
    if s != t {
      var op: Op :| Witnessable(op) && Apply(dg, s, op) == Ok(t);
      StepKeepsHold(dg, s, op, t, id, hold);
    }
  }

  /** Appends never look at the event kind, yet whatever an append advanced the witness with was a checkpoint event. */
  lemma AppendsAreCheckpoints(rules: Rules, g: WitnessHead, w: Installation, i: nat)
    requires IsGenesis(g) && Reached(rules, g, w) && i < |w.ledger.log|
    requires Follows(rules.dg, g, w.ledger.log, i)
    requires w.ledger.log[i].task.AppendTask?
    ensures w.ledger.log[i].task.entry.kind == ArchiveEvent(Checkpointed)
  {
    AdvanceChecked(rules, g, w, i);
    HistoryInv(rules.dg, g, w.ledger.log, i);
    var r := w.ledger.log[i];
    CheckpointKindForced(rules, r.seen, r.task.entry, r.task.Reservation());
  }

  /** What the deletion manifest is released for: a key-erased set both of whose preparations are this one. */
  predicate ManifestAllowed(s: State, id: Uuid, prepared: Digest) {
    && id in s.sets
    && s.sets[id].lifecycle.ArchiveKeyErased?
    && s.sets[id].deletionPreparation == Some(prepared)
    && s.sets[id].keyErasurePreparation == Some(prepared)
  }

  /** In every state the witness has held, the manifest of a key-erased set is released for exactly one digest, and
      comparing the deletion preparation alone would decide the same. */
  lemma ManifestHasOneDigest(rules: Rules, g: WitnessHead, w: Installation, n: nat, id: Uuid, prepared: Digest)
    requires IsGenesis(g) && Reached(rules, g, w) && n <= |w.ledger.log|
    requires Follows(rules.dg, g, w.ledger.log, n)
    requires var s := ArchiveAt(g, w.ledger.log, n); id in s.sets && s.sets[id].lifecycle.ArchiveKeyErased?
    ensures var s := ArchiveAt(g, w.ledger.log, n);
            && s.sets[id].deletionPreparation.Some?
            && (ManifestAllowed(s, id, prepared) <==> s.sets[id].deletionPreparation.value == prepared)
            && s.sets[id].checkpoints != [] && !s.sets[id].HasActiveHold()
  {
    HistoryInv(rules.dg, g, w.ledger.log, n);
    assert SetInv(rules.dg, id, ArchiveAt(g, w.ledger.log, n).sets[id]);
  }
}
