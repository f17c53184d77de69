/** What the journal holds and who wrote it, and what a process that journalled its entry keeps. */
module ArchiveProtocolRetention {
  import opened Wrappers
  import opened ArchiveProtocol
  import opened ArchiveProtocolCleanup

  // ----- who wrote what

  ghost predicate Wrote<H, E>(w: World<H, E>, p: nat, e: E) {
    p in w.trail.wrote && p in w.processes && w.processes[p].task.entry == e
  }

  /** The journal holds exactly the entries of the processes that wrote, and a doubtful write was a write. */
  ghost predicate JournalInv<H, E>(w: World<H, E>) {
    && w.trail.wrote <= w.processes.Keys
    && w.trail.doubtful <= w.trail.wrote
    && (forall e :: e in w.ledger.journal ==> exists p :: Wrote(w, p, e))
    && (forall p :: p in w.trail.wrote ==> w.processes[p].task.entry in w.ledger.journal)
  }

  /** Whether a step writes to the journal. */
  predicate Writes<E>(s: Step<E>) {
    s.AppendJournal? && !s.written.FailedClean?
  }

  predicate WritesInDoubt<E>(s: Step<E>) {
    s.AppendJournal? && s.written.FailedAfterWriting?
  }

  /** A step of `p` seen from the journal: tasks never change, and only a writing step adds its own entry. */
  ghost predicate Journals<H, E>(w: World<H, E>, s: Step<E>, w': World<H, E>) {
    && s.p in w'.processes
    && w.processes.Keys <= w'.processes.Keys
    && (forall q :: q in w.processes ==> w'.processes[q].task == w.processes[q].task)
    && w'.ledger.journal == (if Writes(s) then w.ledger.journal + {w'.processes[s.p].task.entry} else w.ledger.journal)
    && w'.trail.wrote == (if Writes(s) then w.trail.wrote + {s.p} else w.trail.wrote)
    && w'.trail.doubtful == (if WritesInDoubt(s) then w.trail.doubtful + {s.p} else w.trail.doubtful)
  }

  lemma MakingJournals<H, E>(wires: Wires<H, E>, w: World<H, E>, s: Step<E>, w': World<H, E>)
    requires Act(wires, w, s) == Some(w')
    requires s.Spawn? || s.CreateKey? || s.CreateKeyFails? || s.Reserve? || s.Stage? || s.StageFails?
    ensures Journals(w, s, w')
  {
  }

  lemma ChangingJournals<H, E>(wires: Wires<H, E>, w: World<H, E>, s: Step<E>, w': World<H, E>)
    requires Act(wires, w, s) == Some(w')
    requires s.Check? || s.FailStep? || s.Crash? || s.AppendJournal? || s.Advance?
    ensures Journals(w, s, w')
  {
  }

  lemma EndingJournals<H, E>(wires: Wires<H, E>, w: World<H, E>, s: Step<E>, w': World<H, E>)
    requires Act(wires, w, s) == Some(w') && (s.Commit? || s.Promote?)
    ensures Journals(w, s, w')
  {
  }

  lemma UndoingJournals<H, E>(wires: Wires<H, E>, w: World<H, E>, s: Step<E>, w': World<H, E>)
    requires Act(wires, w, s) == Some(w') && (s.Discard? || s.Abandon? || s.Unstage?)
    ensures Journals(w, s, w')
  {
  }

  lemma ActJournals<H, E>(wires: Wires<H, E>, w: World<H, E>, s: Step<E>, w': World<H, E>)
    requires Act(wires, w, s) == Some(w')
    ensures Journals(w, s, w')
  {
    if s.Check? || s.FailStep? || s.Crash? || s.AppendJournal? || s.Advance? {
      ChangingJournals(wires, w, s, w');
    } else if s.Commit? || s.Promote? {
      EndingJournals(wires, w, s, w');
    } else if s.Discard? || s.Abandon? || s.Unstage? {
      UndoingJournals(wires, w, s, w');
    } else {
      MakingJournals(wires, w, s, w');
    }
  }

  lemma JournalsKeep<H, E>(w: World<H, E>, s: Step<E>, w': World<H, E>)
    requires JournalInv(w) && Journals(w, s, w')
    ensures JournalInv(w')
  {
    forall e | e in w'.ledger.journal ensures exists p :: Wrote(w', p, e) {
      if e in w.ledger.journal {
        var p :| Wrote(w, p, e);
        assert Wrote(w', p, e);
      } else {
        assert Wrote(w', s.p, e);
      }
    }
  }

  /** Every step keeps: the journal holds exactly what the processes that wrote carry. */
  lemma JournalKept<H, E>(wires: Wires<H, E>, w: World<H, E>, s: Step<E>, w': World<H, E>)
    requires JournalInv(w) && Act(wires, w, s) == Some(w')
    ensures JournalInv(w')
  {
    ActJournals(wires, w, s, w');
    JournalsKeep(w, s, w');
  }

  // ----- a run's steps decide who wrote

  ghost predicate WritesIn<E>(steps: seq<Step<E>>, p: nat) {
    exists k :: 0 <= k < |steps| && Writes(steps[k]) && steps[k].p == p
  }

  ghost predicate WritesInDoubtIn<E>(steps: seq<Step<E>>, p: nat) {
    exists k :: 0 <= k < |steps| && WritesInDoubt(steps[k]) && steps[k].p == p
  }

  lemma SomeStep<E>(steps: seq<Step<E>>, p: nat)
    requires steps != []
    ensures WritesIn(steps, p) <==> (Writes(steps[0]) && steps[0].p == p) || WritesIn(steps[1..], p)
    ensures WritesInDoubtIn(steps, p) <==>
            (WritesInDoubt(steps[0]) && steps[0].p == p) || WritesInDoubtIn(steps[1..], p)
  {
    var rest := steps[1..];
    assert forall k :: 0 < k < |steps| ==> steps[k] == rest[k - 1];
  }

  lemma {:induction false} StepsDecide<H, E>(wires: Wires<H, E>, w: World<H, E>, steps: seq<Step<E>>, w': World<H, E>,
                                             p: nat)
    requires Execute(wires, w, steps) == Some(w')
    ensures p in w'.trail.wrote <==> p in w.trail.wrote || WritesIn(steps, p)
    ensures p in w'.trail.doubtful <==> p in w.trail.doubtful || WritesInDoubtIn(steps, p)
    decreases |steps|
  {
    if steps != [] {
      var next := Act(wires, w, steps[0]).value;
      ActJournals(wires, w, steps[0], next);
      SomeStep(steps, p);
      StepsDecide(wires, next, steps[1..], w', p);
    }
  }

  // ----- what a sound writer keeps

  /** The writer's key stays filed; its intent until its entry is committed, its staged object until it is promoted. */
  ghost predicate Retains<E>(database: seq<E>, things: Things, promoted: set<nat>, p: nat, task: Task<E>) {
    && (task.StartTask? ==> task.identity.setId in things.keys && things.keys[task.identity.setId] == p)
    && (task.AppendTask? ==>
          && (|| task.entry in database
              || (task.desc.objectId in things.intents && things.intents[task.desc.objectId] == task.Row(p)))
          && (|| p in promoted
              || (task.StagingName() in things.staging && things.staging[task.StagingName()] == task.Framed(p))))
  }

  ghost predicate RetentionInv<H, E>(w: World<H, E>) {
    forall p :: p in w.processes && p in w.trail.wrote && p !in w.trail.doubtful ==>
                  Retains(w.ledger.database, w.things, w.trail.promoted, p, w.processes[p].task)
  }

  /** Commits and promotions are never undone. */
  ghost predicate Accumulates<H, E>(w: World<H, E>, w': World<H, E>) {
    w.ledger.database <= w'.ledger.database && w.trail.promoted <= w'.trail.promoted
  }

  lemma ActAccumulates<H, E>(wires: Wires<H, E>, w: World<H, E>, s: Step<E>, w': World<H, E>)
    requires Act(wires, w, s) == Some(w')
    ensures Accumulates(w, w')
  {
  }

  /** Another process's step. */
  lemma OthersRetain<H, E>(w: World<H, E>, p: nat, w': World<H, E>, q: nat)
    requires Disturbs(w, p, w') && Accumulates(w, w') && q in w.processes && q != p
    requires Retains(w.ledger.database, w.things, w.trail.promoted, q, w.processes[q].task)
    ensures Retains(w'.ledger.database, w'.things, w'.trail.promoted, q, w'.processes[q].task)
  {
  }

  /** The moment a process becomes a sound writer. */
  lemma WriterRetains<H, E>(w: World<H, E>, p: nat, w': World<H, E>)
    requires p in w.processes && DoAppendJournal(w, p, Durable) == Some(w')
    requires Owns(w.things.keys, w.things.intents, w.things.staging, p, w.processes[p])
    ensures Retains(w'.ledger.database, w'.things, w'.trail.promoted, p, w.processes[p].task)
  {
  }

  lemma CommitRetains<H, E>(wires: Wires<H, E>, w: World<H, E>, p: nat, replied: bool, w': World<H, E>)
    requires p in w.processes && DoCommit(wires, w, p, replied) == Some(w')
    requires Retains(w.ledger.database, w.things, w.trail.promoted, p, w.processes[p].task)
    ensures Retains(w'.ledger.database, w'.things, w'.trail.promoted, p, w.processes[p].task)
  {
  }

  lemma PromoteRetains<H, E>(w: World<H, E>, p: nat, replied: bool, w': World<H, E>)
    requires p in w.processes && DoPromote(w, p, replied) == Some(w')
    requires Retains(w.ledger.database, w.things, w.trail.promoted, p, w.processes[p].task)
    ensures Retains(w'.ledger.database, w'.things, w'.trail.promoted, p, w.processes[p].task)
  {
  }

  /** A sound writer is past making and never cleans up, so no other step of its own touches its things. */
  lemma OwnStepsSpare<H, E>(wires: Wires<H, E>, w: World<H, E>, s: Step<E>, w': World<H, E>)
    requires Act(wires, w, s) == Some(w') && !s.Spawn? && !s.AppendJournal? && !s.Commit? && !s.Promote?
    requires Unwritten(w.trail.wrote, w.trail.doubtful, s.p, w.processes[s.p].phase)
    requires s.p in w.trail.wrote && s.p !in w.trail.doubtful
    ensures w'.things == w.things && w'.ledger.database == w.ledger.database && w'.trail.promoted == w.trail.promoted
  {
  }

  lemma OwnStepRetains<H, E>(wires: Wires<H, E>, w: World<H, E>, s: Step<E>, w': World<H, E>)
    requires Act(wires, w, s) == Some(w') && !s.Spawn? && Journals(w, s, w') && RetentionInv(w)
    requires Owns(w.things.keys, w.things.intents, w.things.staging, s.p, w.processes[s.p])
    requires Unwritten(w.trail.wrote, w.trail.doubtful, s.p, w.processes[s.p].phase)
    requires s.p in w'.trail.wrote && s.p !in w'.trail.doubtful
    ensures Retains(w'.ledger.database, w'.things, w'.trail.promoted, s.p, w'.processes[s.p].task)
  {
    match s
    case AppendJournal(p, written) => WriterRetains(w, p, w');
    case Commit(p, replied) => CommitRetains(wires, w, p, replied, w');
    case Promote(p, replied) => PromoteRetains(w, p, replied, w');
    case _ => OwnStepsSpare(wires, w, s, w');
  }

  /** Every step keeps: whoever journalled soundly, crashed or not, still has its key filed, its intent until its entry
      is committed, and its staged object until it is promoted. */
  lemma RetentionKept<H, E>(wires: Wires<H, E>, w: World<H, E>, s: Step<E>, w': World<H, E>)
    requires CleanupInv(w) && RetentionInv(w) && Act(wires, w, s) == Some(w')
    ensures RetentionInv(w')
  {
    ActJournals(wires, w, s, w');
    if !s.Spawn? {
      StepDisturbs(wires, w, s, w');
      ActAccumulates(wires, w, s, w');
      forall q | q in w'.processes && q in w'.trail.wrote && q !in w'.trail.doubtful
        ensures Retains(w'.ledger.database, w'.things, w'.trail.promoted, q, w'.processes[q].task)
      {
        if q == s.p {
          OwnStepRetains(wires, w, s, w');
        } else {
          OthersRetain(w, s.p, w', q);
        }
      }
    }
  }
}
