/** Cleanup after failures: a process removes only what it made itself, and never after a write it knows of. */
module ArchiveProtocolCleanup {
  import opened Bytes
  import opened Wrappers
  import opened ArchiveTables
  import opened ArchiveProtocol

  // ----- who owns what

  /** The phases in which the identity under which a process filed something still names its own thing. */
  predicate OwnsKey<H, E>(x: Process<H, E>) {
    x.task.StartTask? && (x.phase.KeyCreated? || x.phase.Checked? || x.phase.Discarding?)
  }

  predicate OwnsIntent<H, E>(x: Process<H, E>) {
    x.task.AppendTask? && (x.phase.Reserved? || x.phase.Staged? || x.phase.Checked? || x.phase.Journalled?
                           || x.phase.Witnessed? || x.phase.Abandoning?)
  }

  predicate OwnsStaged<H, E>(x: Process<H, E>) {
    x.task.AppendTask? && (x.phase.Staged? || x.phase.Checked? || x.phase.Journalled? || x.phase.Witnessed?
                           || x.phase.Committed? || x.phase == Abandoning(true) || x.phase.Unstaging?)
  }

  ghost predicate Owns<H, E>(keys: map<Uuid, nat>, intents: Intents, staging: map<(Uuid, Uuid), Frame>, p: nat,
                             x: Process<H, E>) {
    && (OwnsKey(x) ==> x.task.identity.setId in keys && keys[x.task.identity.setId] == p)
    && (OwnsIntent(x) ==> x.task.desc.objectId in intents && intents[x.task.desc.objectId] == x.task.Row(p))
    && (OwnsStaged(x) ==> x.task.StagingName() in staging && staging[x.task.StagingName()] == x.task.Framed(p))
  }

  /** Before the journal a process has written nothing; on its way to clean up it has, at most, an append
      that failed after writing. */
  predicate Unwritten<H>(wrote: set<nat>, doubtful: set<nat>, p: nat, phase: Phase<H>) {
    && (phase.Ready? || phase.KeyCreated? || phase.Reserved? || phase.Staged? || phase.Checked? ==> p !in wrote)
    && (phase.Discarding? || phase.Abandoning? || phase.Unstaging? ==> p in wrote ==> p in doubtful)
  }

  /** A recorded cleanup removed its own actor's artifact, and the actor is past any journal append. */
  ghost predicate RemovalOk<H, E>(w: World<H, E>, r: Removal) {
    && r.owner == r.actor
    && r.actor in w.processes
    && (w.processes[r.actor].phase.Stopped? || w.processes[r.actor].phase.Unstaging?)
    && (r.actor in w.trail.wrote ==> r.actor in w.trail.doubtful)
  }

  ghost predicate CleanupInv<H, E>(w: World<H, E>) {
    && w.trail.wrote <= w.processes.Keys
    && (forall p :: p in w.processes ==>
          && Owns(w.things.keys, w.things.intents, w.things.staging, p, w.processes[p])
          && Unwritten(w.trail.wrote, w.trail.doubtful, p, w.processes[p].phase))
    && forall i :: 0 <= i < |w.trail.removals| ==> RemovalOk(w, w.trail.removals[i])
  }

  // ----- every step keeps it

  /** A step of `p` seen from the stores: what others own is untouched, and `p` owns what its phase says. */
  ghost predicate Disturbs<H, E>(w: World<H, E>, p: nat, w': World<H, E>) {
    && p in w.processes && p in w'.processes
    && w'.processes == w.processes[p := w'.processes[p]]
    && w'.processes[p].task == w.processes[p].task
    && Owns(w'.things.keys, w'.things.intents, w'.things.staging, p, w'.processes[p])
    && Unwritten(w'.trail.wrote, w'.trail.doubtful, p, w'.processes[p].phase)
    && (forall k :: k in w.things.keys && w.things.keys[k] != p ==>
          k in w'.things.keys && w'.things.keys[k] == w.things.keys[k])
    && (forall k :: k in w.things.intents && w.things.intents[k].owner != p ==>
          k in w'.things.intents && w'.things.intents[k] == w.things.intents[k])
    && (forall k :: k in w.things.staging && w.things.staging[k].owner != p ==>
          k in w'.things.staging && w'.things.staging[k] == w.things.staging[k])
    && (w'.trail.wrote == w.trail.wrote || w'.trail.wrote == w.trail.wrote + {p})
    && (w'.trail.doubtful == w.trail.doubtful || w'.trail.doubtful == w.trail.doubtful + {p})
    && (w.processes[p].phase.Stopped? ==> w'.processes[p].phase.Stopped? && w'.trail.wrote == w.trail.wrote)
    && (w.processes[p].phase.Unstaging? ==>
          (w'.processes[p].phase.Stopped? || w'.processes[p].phase.Unstaging?) && w'.trail.wrote == w.trail.wrote)
    && (|| w'.trail.removals == w.trail.removals
        || (|w'.trail.removals| == |w.trail.removals| + 1 && w'.trail.removals[..|w.trail.removals|] == w.trail.removals
            && RemovalOk(w', w'.trail.removals[|w.trail.removals|])))
  }

  lemma DisturbedKeeps<H, E>(w: World<H, E>, p: nat, w': World<H, E>)
    requires CleanupInv(w) && Disturbs(w, p, w')
    ensures CleanupInv(w')
  {
    forall q | q in w'.processes
      ensures Owns(w'.things.keys, w'.things.intents, w'.things.staging, q, w'.processes[q])
      ensures Unwritten(w'.trail.wrote, w'.trail.doubtful, q, w'.processes[q].phase)
    {
      if q != p {
        assert Owns(w.things.keys, w.things.intents, w.things.staging, q, w.processes[q]);
      }
    }
    forall i | 0 <= i < |w'.trail.removals| ensures RemovalOk(w', w'.trail.removals[i]) {
      if i < |w.trail.removals| {
        assert w'.trail.removals[i] == w.trail.removals[i] && RemovalOk(w, w.trail.removals[i]);
      }
    }
  }

  lemma CreateKeyDisturbs<H, E>(w: World<H, E>, p: nat, ok: bool, leftBehind: bool, w': World<H, E>)
    requires p in w.processes && DoCreateKey(w, p, ok, leftBehind) == Some(w')
    requires Owns(w.things.keys, w.things.intents, w.things.staging, p, w.processes[p])
    requires Unwritten(w.trail.wrote, w.trail.doubtful, p, w.processes[p].phase)
    ensures Disturbs(w, p, w')
  {
  }

  lemma ReserveDisturbs<H, E>(w: World<H, E>, p: nat, w': World<H, E>)
    requires p in w.processes && DoReserve(w, p) == Some(w')
    requires Owns(w.things.keys, w.things.intents, w.things.staging, p, w.processes[p])
    requires Unwritten(w.trail.wrote, w.trail.doubtful, p, w.processes[p].phase)
    ensures Disturbs(w, p, w')
  {
  }

  lemma StageDisturbs<H, E>(w: World<H, E>, p: nat, ok: bool, leftBehind: bool, w': World<H, E>)
    requires p in w.processes && DoStage(w, p, ok, leftBehind) == Some(w')
    requires Owns(w.things.keys, w.things.intents, w.things.staging, p, w.processes[p])
    requires Unwritten(w.trail.wrote, w.trail.doubtful, p, w.processes[p].phase)
    ensures Disturbs(w, p, w')
  {
  }

  lemma CheckingDisturbs<H, E>(wires: Wires<H, E>, w: World<H, E>, s: Step<E>, w': World<H, E>)
    requires Act(wires, w, s) == Some(w')
    requires s.Check? || s.FailStep? || s.Crash?
    requires Owns(w.things.keys, w.things.intents, w.things.staging, s.p, w.processes[s.p])
    requires Unwritten(w.trail.wrote, w.trail.doubtful, s.p, w.processes[s.p].phase)
    ensures Disturbs(w, s.p, w')
  {
  }

  lemma JournalDisturbs<H, E>(w: World<H, E>, p: nat, written: Written, w': World<H, E>)
    requires p in w.processes && DoAppendJournal(w, p, written) == Some(w')
    requires Owns(w.things.keys, w.things.intents, w.things.staging, p, w.processes[p])
    requires Unwritten(w.trail.wrote, w.trail.doubtful, p, w.processes[p].phase)
    ensures Disturbs(w, p, w')
  {
  }

  lemma AdvanceDisturbs<H, E>(wires: Wires<H, E>, w: World<H, E>, p: nat, replied: bool, w': World<H, E>)
    requires p in w.processes && DoAdvance(wires, w, p, replied) == Some(w')
    requires Owns(w.things.keys, w.things.intents, w.things.staging, p, w.processes[p])
    requires Unwritten(w.trail.wrote, w.trail.doubtful, p, w.processes[p].phase)
    ensures Disturbs(w, p, w')
  {
  }

  /** A move to another phase after the journal, whatever the witness and database then hold. */
  lemma MoveDisturbs<H, E>(w: World<H, E>, p: nat, phase: Phase<H>, ledger: Ledger<H, E>)
    requires p in w.processes && !w.processes[p].phase.Stopped? && !w.processes[p].phase.Unstaging?
    requires phase.Committed? || phase.Stopped?
    requires Owns(w.things.keys, w.things.intents, w.things.staging, p, w.processes[p].(phase := phase))
    ensures Disturbs(w, p, To(w, p, phase).(ledger := ledger))
  {
  }

  /** The commit of an append consumes its own intent. */
  lemma ConsumingDisturbs<H, E>(w: World<H, E>, p: nat, phase: Phase<H>, ledger: Ledger<H, E>)
    requires p in w.processes && w.processes[p].phase.Witnessed? && w.processes[p].task.AppendTask?
    requires phase.Committed? || phase.Stopped?
    requires Owns(w.things.keys, w.things.intents, w.things.staging, p, w.processes[p])
    ensures var rest := w.things.intents - {w.processes[p].task.desc.objectId};
            Disturbs(w, p, To(w, p, phase).(ledger := ledger, things := w.things.(intents := rest)))
  {
  }

  lemma CommitDisturbs<H, E>(wires: Wires<H, E>, w: World<H, E>, p: nat, replied: bool, w': World<H, E>)
    requires p in w.processes && DoCommit(wires, w, p, replied) == Some(w')
    requires Owns(w.things.keys, w.things.intents, w.things.staging, p, w.processes[p])
    requires Unwritten(w.trail.wrote, w.trail.doubtful, p, w.processes[p].phase)
    ensures Disturbs(w, p, w')
  {
    var phase := w'.processes[p].phase;
    if w.processes[p].task.AppendTask? && w'.ledger != w.ledger {
      ConsumingDisturbs(w, p, phase, w'.ledger);
      var rest := w.things.intents - {w.processes[p].task.desc.objectId};
      assert w' == To(w, p, phase).(ledger := w'.ledger, things := w.things.(intents := rest));
    } else {
      MoveDisturbs(w, p, phase, w'.ledger);
      assert w' == To(w, p, phase).(ledger := w'.ledger);
    }
  }

  lemma PromoteDisturbs<H, E>(w: World<H, E>, p: nat, replied: bool, w': World<H, E>)
    requires p in w.processes && DoPromote(w, p, replied) == Some(w')
    requires Owns(w.things.keys, w.things.intents, w.things.staging, p, w.processes[p])
    requires Unwritten(w.trail.wrote, w.trail.doubtful, p, w.processes[p].phase)
    ensures Disturbs(w, p, w')
  {
  }

  lemma DiscardDisturbs<H, E>(w: World<H, E>, p: nat, w': World<H, E>)
    requires p in w.processes && DoDiscard(w, p) == Some(w')
    requires Owns(w.things.keys, w.things.intents, w.things.staging, p, w.processes[p])
    requires Unwritten(w.trail.wrote, w.trail.doubtful, p, w.processes[p].phase)
    ensures Disturbs(w, p, w')
  {
  }

  lemma AbandonDisturbs<H, E>(w: World<H, E>, p: nat, replied: bool, w': World<H, E>)
    requires p in w.processes && DoAbandon(w, p, replied) == Some(w')
    requires Owns(w.things.keys, w.things.intents, w.things.staging, p, w.processes[p])
    requires Unwritten(w.trail.wrote, w.trail.doubtful, p, w.processes[p].phase)
    ensures Disturbs(w, p, w')
  {
  }

  lemma UnstageDisturbs<H, E>(w: World<H, E>, p: nat, w': World<H, E>)
    requires p in w.processes && DoUnstage(w, p) == Some(w')
    requires Owns(w.things.keys, w.things.intents, w.things.staging, p, w.processes[p])
    requires Unwritten(w.trail.wrote, w.trail.doubtful, p, w.processes[p].phase)
    ensures Disturbs(w, p, w')
  {
  }

  lemma StepDisturbs<H, E>(wires: Wires<H, E>, w: World<H, E>, s: Step<E>, w': World<H, E>)
    requires CleanupInv(w) && !s.Spawn? && Act(wires, w, s) == Some(w')
    ensures Disturbs(w, s.p, w')
  {
    match s
    case AppendJournal(p, written) => JournalDisturbs(w, p, written, w');
    case Advance(p, replied) => AdvanceDisturbs(wires, w, p, replied, w');
    case Commit(p, replied) => CommitDisturbs(wires, w, p, replied, w');
    case Promote(p, replied) => PromoteDisturbs(w, p, replied, w');
    case Discard(p) => DiscardDisturbs(w, p, w');
    case Abandon(p, replied) => AbandonDisturbs(w, p, replied, w');
    case Unstage(p) => UnstageDisturbs(w, p, w');
    case Check(_) => CheckingDisturbs(wires, w, s, w');
    case FailStep(_) => CheckingDisturbs(wires, w, s, w');
    case Crash(_) => CheckingDisturbs(wires, w, s, w');
    case CreateKey(p) => CreateKeyDisturbs(w, p, true, false, w');
    case CreateKeyFails(p, leftBehind) => CreateKeyDisturbs(w, p, false, leftBehind, w');
    case Reserve(p) => ReserveDisturbs(w, p, w');
    case Stage(p) => StageDisturbs(w, p, true, false, w');
    case StageFails(p, leftBehind) => StageDisturbs(w, p, false, leftBehind, w');
  }

  lemma CleanupKept<H, E>(wires: Wires<H, E>, w: World<H, E>, s: Step<E>, w': World<H, E>)
    requires CleanupInv(w) && Act(wires, w, s) == Some(w')
    ensures CleanupInv(w')
  {
    if s.Spawn? {
      forall i | 0 <= i < |w'.trail.removals| ensures RemovalOk(w', w'.trail.removals[i]) {
        assert RemovalOk(w, w.trail.removals[i]);
      }
    } else {
      StepDisturbs(wires, w, s, w');
      DisturbedKeeps(w, s.p, w');
    }
  }
}
