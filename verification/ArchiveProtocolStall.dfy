/** When the database can go on: only the process that advanced the witness can commit what it advanced. */
module ArchiveProtocolStall {
  import opened Wrappers
  import opened ArchiveTables
  import opened ArchiveProtocol
  import opened ArchiveProtocolSafety

  /** The process has advanced the witness by the very entry the database lacks, and has not yet committed it. */
  ghost predicate Awaited<H, E>(wires: Wires<H, E>, w: World<H, E>, p: nat) {
    && p in w.processes && w.processes[p].phase.Witnessed?
    && wires.entrySequence(w.processes[p].task.entry) == |w.ledger.database| + 1
  }

  /** The witness is ahead of the database, and nobody is left to commit the next entry. */
  ghost predicate Stalled<H, E>(wires: Wires<H, E>, w: World<H, E>) {
    |w.ledger.database| < |w.ledger.log| && forall p :: !Awaited(wires, w, p)
  }

  /** The procedure behind the process's command would let it through. */
  predicate Lets<H, E>(wires: Wires<H, E>, w: World<H, E>, p: nat)
    requires p in w.processes
  {
    wires.enters(w.ledger.tables, w.things.intents, w.ledger.database, w.processes[p].task).Some?
  }

  predicate Witnessed<H, E>(w: World<H, E>, p: nat) {
    p in w.processes && w.processes[p].phase.Witnessed?
  }

  /** No two processes have advanced the witness by entries of one number. */
  ghost predicate OneEach<H, E>(wires: Wires<H, E>, w: World<H, E>) {
    forall p, q :: p != q && Witnessed(w, p) && Witnessed(w, q) ==>
      wires.entrySequence(w.processes[p].task.entry) != wires.entrySequence(w.processes[q].task.entry)
  }

  // ----- one step

  /** A step leaves every other process as it was, and makes one witnessed only by lengthening the history. */
  ghost predicate Witnesses<H, E>(wires: Wires<H, E>, w: World<H, E>, s: Step<E>, w': World<H, E>) {
    && (forall q :: q in w'.processes && q != s.p ==> q in w.processes && w'.processes[q] == w.processes[q])
    && w.ledger.log <= w'.ledger.log
    && (s.p in w'.processes && w'.processes[s.p].phase.Witnessed? ==>
          && s.Advance? && |w'.ledger.log| == |w.ledger.log| + 1
          && wires.entrySequence(w'.processes[s.p].task.entry) == wires.headSequence(w.ledger.head) + 1)
  }

  lemma MakingWitnesses<H, E>(wires: Wires<H, E>, w: World<H, E>, s: Step<E>, w': World<H, E>)
    requires Act(wires, w, s) == Some(w')
    requires s.Spawn? || s.CreateKey? || s.CreateKeyFails? || s.Reserve? || s.Stage? || s.StageFails? || s.Check?
    ensures Witnesses(wires, w, s, w')
  {
  }

  lemma WritingWitnesses<H, E>(wires: Wires<H, E>, w: World<H, E>, s: Step<E>, w': World<H, E>)
    requires Act(wires, w, s) == Some(w') && (s.AppendJournal? || s.Advance?)
    ensures Witnesses(wires, w, s, w')
  {
  }

  lemma EndingWitnesses<H, E>(wires: Wires<H, E>, w: World<H, E>, s: Step<E>, w': World<H, E>)
    requires Act(wires, w, s) == Some(w') && (s.Commit? || s.Promote?)
    ensures Witnesses(wires, w, s, w')
  {
  }

  lemma ActWitnesses<H, E>(wires: Wires<H, E>, w: World<H, E>, s: Step<E>, w': World<H, E>)
    requires Act(wires, w, s) == Some(w')
    ensures Witnesses(wires, w, s, w')
  {
    if s.AppendJournal? || s.Advance? {
      WritingWitnesses(wires, w, s, w');
    } else if s.Commit? || s.Promote? {
      EndingWitnesses(wires, w, s, w');
    } else if !(s.FailStep? || s.Discard? || s.Abandon? || s.Unstage? || s.Crash?) {
      MakingWitnesses(wires, w, s, w');
    }
  }

  /** Only the commit of an awaited process adds to the database. */
  lemma ActCommits<H, E>(wires: Wires<H, E>, w: World<H, E>, s: Step<E>, w': World<H, E>)
    requires Act(wires, w, s) == Some(w')
    ensures w'.ledger.database == w.ledger.database
            || (s.Commit? && Awaited(wires, w, s.p) && Lets(wires, w, s.p)
                && w'.ledger.database == w.ledger.database + [w.processes[s.p].task.entry])
  {
  }

  lemma WitnessedIsOnLog<H(!new), E(!new)>(wires: Wires<H, E>, g: H, w: World<H, E>, p: nat)
    requires AuthorityInv(wires, g, w) && p in w.processes && w.processes[p].phase.Witnessed?
    ensures wires.entrySequence(w.processes[p].task.entry) <= |w.ledger.log|
  {
  }

  lemma OneEachKept<H(!new), E(!new)>(wires: Wires<H, E>, g: H, w: World<H, E>, s: Step<E>, w': World<H, E>)
    requires AuthorityInv(wires, g, w) && OneEach(wires, w) && Act(wires, w, s) == Some(w')
    ensures OneEach(wires, w')
  {
    ActWitnesses(wires, w, s, w');
    forall q | q in w.processes && w.processes[q].phase.Witnessed?
      ensures wires.entrySequence(w.processes[q].task.entry) <= |w.ledger.log|
    {
      WitnessedIsOnLog(wires, g, w, q);
    }
  }

  /** Rows of sets that no longer stream stay: nobody can abandon them, and only a commit consumes one. */
  lemma ClosedRowsStay<H, E>(wires: Wires<H, E>, w: World<H, E>, s: Step<E>, w': World<H, E>)
    requires Act(wires, w, s) == Some(w') && w'.ledger.database == w.ledger.database
    ensures w'.ledger.tables == w.ledger.tables
    ensures ClosedRowsKept(w.ledger.tables, w.things.intents, w'.things.intents)
  {
    if !s.Reserve? && !s.Abandon? && !s.Commit? {
      OthersSpareRows(wires, w, s, w');
    }
  }

  lemma OthersSpareRows<H, E>(wires: Wires<H, E>, w: World<H, E>, s: Step<E>, w': World<H, E>)
    requires Act(wires, w, s) == Some(w') && !s.Reserve? && !s.Abandon? && !s.Commit?
    ensures w'.ledger.tables == w.ledger.tables && w'.things.intents == w.things.intents
  {
  }

  /** A process that advanced the witness did so for the very task it still carries. */
  ghost predicate Recorded<H, E>(wires: Wires<H, E>, w: World<H, E>) {
    forall p :: Witnessed(w, p) ==> OnRecord(wires, w.ledger.log, w.processes[p].task)
  }

  ghost predicate OnRecord<H, E>(wires: Wires<H, E>, log: seq<Record<H, E>>, task: Task<E>) {
    var n := wires.entrySequence(task.entry);
    1 <= n <= |log| && log[n - 1].task == task
  }

  lemma AdvanceRecords<H, E>(wires: Wires<H, E>, w: World<H, E>, p: nat, replied: bool, w': World<H, E>)
    requires p in w.processes && DoAdvance(wires, w, p, replied) == Some(w') && w'.processes[p].phase.Witnessed?
    requires wires.headSequence(w.ledger.head) == |w.ledger.log|
    ensures OnRecord(wires, w'.ledger.log, w'.processes[p].task)
  {
  }

  lemma RecordedKept<H, E>(wires: Wires<H, E>, w: World<H, E>, s: Step<E>, w': World<H, E>)
    requires Recorded(wires, w) && Act(wires, w, s) == Some(w') && wires.headSequence(w.ledger.head) == |w.ledger.log|
    ensures Recorded(wires, w')
  {
    ActWitnesses(wires, w, s, w');
    forall q | Witnessed(w', q) ensures OnRecord(wires, w'.ledger.log, w'.processes[q].task) {
      if q == s.p {
        AdvanceRecords(wires, w, q, s.replied, w');
      } else {
        assert Witnessed(w, q);
      }
    }
  }

  lemma HeadMovesWithLog<H, E>(wires: Wires<H, E>, w: World<H, E>, s: Step<E>, w': World<H, E>)
    requires Act(wires, w, s) == Some(w') && |w'.ledger.log| == |w.ledger.log|
    ensures w'.ledger.log == w.ledger.log && w'.ledger.head == w.ledger.head
  {
  }

  /** Only awaited processes stay awaited, while the database stands still. */
  lemma AwaitedBefore<H(!new), E(!new)>(
    wires: Wires<H, E>, g: H, w: World<H, E>, s: Step<E>, w': World<H, E>, p: nat)
    requires AuthorityInv(wires, g, w) && Act(wires, w, s) == Some(w') && |w.ledger.database| < |w.ledger.log|
    requires w'.ledger.database == w.ledger.database && Awaited(wires, w', p)
    ensures Awaited(wires, w, p) && w'.processes[p] == w.processes[p]
  {
    ActWitnesses(wires, w, s, w');
  }

  // ----- the awaited process can commit

  lemma NotYetInDatabase<H(!new), E(!new)>(wires: Wires<H, E>, g: H, w: World<H, E>, p: nat)
    requires AuthorityInv(wires, g, w) && Awaited(wires, w, p) && w.ledger.database != []
    ensures w.ledger.database[|w.ledger.database| - 1] != w.processes[p].task.entry
  {
    var i := |w.ledger.database| - 1;
    assert RecordOk(wires, g, w.ledger.log, w.ledger.journal, i);
  }

  /** It adds its entry exactly when the procedure lets it through. */
  lemma AwaitedCommitsIff<H(!new), E(!new)>(wires: Wires<H, E>, g: H, w: World<H, E>, p: nat) returns (v: World<H, E>)
    requires AuthorityInv(wires, g, w) && Awaited(wires, w, p)
    ensures Act(wires, w, Commit(p, true)) == Some(v)
    ensures v.ledger.database == (if Lets(wires, w, p) then w.ledger.database + [w.processes[p].task.entry]
                                  else w.ledger.database)
  {
    if w.ledger.database != [] {
      NotYetInDatabase(wires, g, w, p);
    }
    v := Act(wires, w, Commit(p, true)).value;
  }

  /** If the awaited process leaves that phase without committing, the database is stalled. */
  lemma LosingItStalls<H(!new), E(!new)>(wires: Wires<H, E>, g: H, w: World<H, E>, p: nat, s: Step<E>, w': World<H, E>)
    requires AuthorityInv(wires, g, w) && OneEach(wires, w) && Awaited(wires, w, p) && Act(wires, w, s) == Some(w')
    requires w'.ledger.database == w.ledger.database && !Awaited(wires, w', p)
    ensures Stalled(wires, w')
  {
    ActWitnesses(wires, w, s, w');
    WitnessedIsOnLog(wires, g, w, p);
    forall q ensures !Awaited(wires, w', q) {
      assert q in w.processes && q != p && w.processes[q].phase.Witnessed? ==> !Awaited(wires, w, q);
    }
  }
}
