/** What every run of the protocol keeps, whatever interleaves and wherever it fails. */
module ArchiveProtocolSafety {
  import opened Wrappers
  import opened ArchiveProtocol

  // ----- the witness history, the journal and the database

  /** The head the witness held after `i` advances. */
  function HeadAt<H, E>(wires: Wires<H, E>, g: H, log: seq<Record<H, E>>, i: nat): H
    requires i <= |log|
  {
    if i == 0 then g else wires.advance(log[i - 1].seen, log[i - 1].task.entry)
  }

  /** An advanced head carries the sequence number of its entry. */
  ghost predicate Sequenced<H(!new), E(!new)>(wires: Wires<H, E>) {
    forall h: H, e: E :: wires.headSequence(wires.advance(h, e)) == wires.entrySequence(e)
  }

  predicate Reserves<E>(task: Task<E>) {
    task.Valid() && (task.AppendTask? ==> task.Reservation().Valid())
  }

  /** Advance `i` replaced the head before it, passed every check on that head, and was journalled first. */
  ghost predicate RecordOk<H, E>(wires: Wires<H, E>, g: H, log: seq<Record<H, E>>, journal: set<E>, i: nat)
    requires i < |log|
  {
    && log[i].seen == HeadAt(wires, g, log, i)
    && wires.entrySequence(log[i].task.entry) == i + 1
    && wires.check(log[i].seen, log[i].task)
    && Reserves(log[i].task)
    && log[i].task.entry in journal
  }

  ghost predicate LogOk<H(!new), E(!new)>(wires: Wires<H, E>, g: H, head: H, log: seq<Record<H, E>>, journal: set<E>) {
    && Sequenced(wires)
    && wires.headSequence(g) == 0
    && wires.headSequence(head) == |log|
    && head == HeadAt(wires, g, log, |log|)
    && forall i :: 0 <= i < |log| ==> RecordOk(wires, g, log, journal, i)
  }

  ghost predicate OnLog<H, E>(wires: Wires<H, E>, log: seq<Record<H, E>>, e: E) {
    1 <= wires.entrySequence(e) <= |log| && log[wires.entrySequence(e) - 1].task.entry == e
  }

  ghost predicate InDatabase<H, E>(wires: Wires<H, E>, database: seq<E>, e: E) {
    1 <= wires.entrySequence(e) <= |database| && database[wires.entrySequence(e) - 1] == e
  }

  /** The database holds a prefix of what the witness accepted. */
  ghost predicate DatabaseOk<H, E>(log: seq<Record<H, E>>, database: seq<E>) {
    && |database| <= |log|
    && forall i :: 0 <= i < |database| ==> database[i] == log[i].task.entry
  }

  ghost predicate PromotedOk<H, E>(wires: Wires<H, E>, w: World<H, E>) {
    forall p :: p in w.trail.promoted ==>
      p in w.processes && w.processes[p].task.AppendTask?
      && InDatabase(wires, w.ledger.database, w.processes[p].task.entry)
  }

  /** What a process in a given phase may rely on. */
  ghost predicate Relies<H, E>(wires: Wires<H, E>, journal: set<E>, log: seq<Record<H, E>>, database: seq<E>,
                               x: Process<H, E>) {
    && x.task.Valid()
    && (x.phase.Reserved? || x.phase.Staged? || x.phase.Checked? || x.phase.Journalled? ==> Reserves(x.task))
    && (x.phase.Checked? || x.phase.Journalled? ==> wires.check(x.phase.seen, x.task))
    && (x.phase.Journalled? ==> x.task.entry in journal)
    && (x.phase.Witnessed? ==> OnLog(wires, log, x.task.entry))
    && (x.phase.Committed? ==> InDatabase(wires, database, x.task.entry))
  }

  ghost predicate AuthorityInv<H(!new), E(!new)>(wires: Wires<H, E>, g: H, w: World<H, E>) {
    && LogOk(wires, g, w.ledger.head, w.ledger.log, w.ledger.journal)
    && DatabaseOk(w.ledger.log, w.ledger.database)
    && PromotedOk(wires, w)
    && forall p :: p in w.processes ==> Relies(wires, w.ledger.journal, w.ledger.log, w.ledger.database, w.processes[p])
  }

  /** One process moved and kept its task; the stores only grew. */
  ghost predicate Moved<H, E>(wires: Wires<H, E>, w: World<H, E>, p: nat, w': World<H, E>) {
    && w.ledger.journal <= w'.ledger.journal && w.ledger.log <= w'.ledger.log && w.ledger.database <= w'.ledger.database
    && p in w.processes && p in w'.processes
    && w'.processes == w.processes[p := w'.processes[p]]
    && w'.processes[p].task == w.processes[p].task
    && Relies(wires, w'.ledger.journal, w'.ledger.log, w'.ledger.database, w'.processes[p])
  }

  lemma MovedKeeps<H(!new), E(!new)>(wires: Wires<H, E>, g: H, w: World<H, E>, p: nat, w': World<H, E>)
    requires AuthorityInv(wires, g, w) && Moved(wires, w, p, w')
    requires w'.trail.promoted == w.trail.promoted
             || (w'.trail.promoted == w.trail.promoted + {p} && w.processes[p].phase.Committed?
                                           && w.processes[p].task.AppendTask?)
    ensures PromotedOk(wires, w')
    ensures forall q :: q in w'.processes ==>
              Relies(wires, w'.ledger.journal, w'.ledger.log, w'.ledger.database, w'.processes[q])
  {
  }

  lemma LogLonger<H(!new), E(!new)>(wires: Wires<H, E>, g: H, w: World<H, E>, task: Task<E>)
    requires LogOk(wires, g, w.ledger.head, w.ledger.log, w.ledger.journal)
    requires wires.check(w.ledger.head, task) && Reserves(task) && task.entry in w.ledger.journal
    requires wires.entrySequence(task.entry) == |w.ledger.log| + 1
    ensures var log := w.ledger.log + [Record(w.ledger.head, task)];
            LogOk(wires, g, wires.advance(w.ledger.head, task.entry), log, w.ledger.journal)
  {
    var log := w.ledger.log + [Record(w.ledger.head, task)];
    forall i | 0 <= i < |log| ensures RecordOk(wires, g, log, w.ledger.journal, i) {
      assert HeadAt(wires, g, log, i) == HeadAt(wires, g, w.ledger.log, i);
      assert i == |w.ledger.log| || RecordOk(wires, g, w.ledger.log, w.ledger.journal, i);
    }
  }

  lemma LogStays<H(!new), E(!new)>(wires: Wires<H, E>, g: H, w: World<H, E>, journal: set<E>)
    requires LogOk(wires, g, w.ledger.head, w.ledger.log, w.ledger.journal) && w.ledger.journal <= journal
    ensures LogOk(wires, g, w.ledger.head, w.ledger.log, journal)
  {
    forall i | 0 <= i < |w.ledger.log| ensures RecordOk(wires, g, w.ledger.log, journal, i) {
      assert RecordOk(wires, g, w.ledger.log, w.ledger.journal, i);
    }
  }

  lemma AdvanceKeeps<H(!new), E(!new)>(wires: Wires<H, E>, g: H, w: World<H, E>, p: nat, replied: bool, w': World<H, E>)
    requires AuthorityInv(wires, g, w) && p in w.processes && DoAdvance(wires, w, p, replied) == Some(w')
    ensures AuthorityInv(wires, g, w')
  {
    var x := w.processes[p];
    assert Relies(wires, w.ledger.journal, w.ledger.log, w.ledger.database, x);
    if w'.ledger.log != w.ledger.log {
      LogLonger(wires, g, w, x.task);
    }
    MovedKeeps(wires, g, w, p, w');
  }

  lemma CommitMoves<H, E>(wires: Wires<H, E>, w: World<H, E>, p: nat, replied: bool, w': World<H, E>)
    requires DatabaseOk(w.ledger.log, w.ledger.database) && p in w.processes
    requires DoCommit(wires, w, p, replied) == Some(w')
    requires Relies(wires, w.ledger.journal, w.ledger.log, w.ledger.database, w.processes[p])
    requires w.ledger.database != [] ==>
               wires.entrySequence(w.ledger.database[|w.ledger.database| - 1]) == |w.ledger.database|
    ensures Moved(wires, w, p, w') && DatabaseOk(w'.ledger.log, w'.ledger.database)
    ensures w'.ledger.head == w.ledger.head && w'.ledger.log == w.ledger.log && w'.ledger.journal == w.ledger.journal
    ensures w'.trail.promoted == w.trail.promoted
  {
    var x := w.processes[p];
    if w'.ledger.database == w.ledger.database {
      assert w'.processes[p].phase.Committed? ==> w.ledger.database[|w.ledger.database| - 1] == x.task.entry;
    } else {
      assert w'.ledger.database == w.ledger.database + [x.task.entry];
      assert w'.ledger.database[wires.entrySequence(x.task.entry) - 1] == x.task.entry;
    }
  }

  lemma CommitKeeps<H(!new), E(!new)>(wires: Wires<H, E>, g: H, w: World<H, E>, p: nat, replied: bool, w': World<H, E>)
    requires AuthorityInv(wires, g, w) && p in w.processes && DoCommit(wires, w, p, replied) == Some(w')
    ensures AuthorityInv(wires, g, w')
  {
    assert w.ledger.database != [] ==> RecordOk(wires, g, w.ledger.log, w.ledger.journal, |w.ledger.database| - 1);
    CommitMoves(wires, w, p, replied, w');
    MovedKeeps(wires, g, w, p, w');
  }

  lemma JournalKeeps<H(!new), E(!new)>(
    wires: Wires<H, E>, g: H, w: World<H, E>, p: nat, written: Written, w': World<H, E>)
    requires AuthorityInv(wires, g, w) && p in w.processes && DoAppendJournal(w, p, written) == Some(w')
    ensures AuthorityInv(wires, g, w')
  {
    assert Relies(wires, w.ledger.journal, w.ledger.log, w.ledger.database, w.processes[p]);
    MovedKeeps(wires, g, w, p, w');
    LogStays(wires, g, w, w'.ledger.journal);
  }

  /** Witness, journal and database are left alone, and only a committed append is ever promoted. */
  ghost predicate Quiet<H, E>(wires: Wires<H, E>, w: World<H, E>, p: nat, w': World<H, E>) {
    && Moved(wires, w, p, w')
    && w'.ledger == w.ledger
    && (|| w'.trail.promoted == w.trail.promoted
        || (w'.trail.promoted == w.trail.promoted + {p} && w.processes[p].phase.Committed?
            && w.processes[p].task.AppendTask?))
  }

  lemma MakingIsQuiet<H, E>(wires: Wires<H, E>, w: World<H, E>, s: Step<E>, w': World<H, E>)
    requires Act(wires, w, s) == Some(w')
    requires s.CreateKey? || s.CreateKeyFails? || s.Reserve? || s.Stage? || s.StageFails?
    requires Relies(wires, w.ledger.journal, w.ledger.log, w.ledger.database, w.processes[s.p])
    ensures Quiet(wires, w, s.p, w')
  {
  }

  lemma UndoingIsQuiet<H, E>(wires: Wires<H, E>, w: World<H, E>, s: Step<E>, w': World<H, E>)
    requires Act(wires, w, s) == Some(w')
    requires s.Promote? || s.Discard? || s.Abandon? || s.Unstage?
    requires Relies(wires, w.ledger.journal, w.ledger.log, w.ledger.database, w.processes[s.p])
    ensures Quiet(wires, w, s.p, w')
  {
  }

  lemma CheckingIsQuiet<H, E>(wires: Wires<H, E>, w: World<H, E>, s: Step<E>, w': World<H, E>)
    requires Act(wires, w, s) == Some(w') && (s.Check? || s.FailStep? || s.Crash?)
    requires Relies(wires, w.ledger.journal, w.ledger.log, w.ledger.database, w.processes[s.p])
    ensures Quiet(wires, w, s.p, w')
  {
  }

  /** Every other step leaves witness, journal and database alone. */
  lemma QuietMoves<H, E>(wires: Wires<H, E>, w: World<H, E>, s: Step<E>, w': World<H, E>)
    requires Act(wires, w, s) == Some(w')
    requires !s.Spawn? && !s.Advance? && !s.Commit? && !s.AppendJournal?
    requires Relies(wires, w.ledger.journal, w.ledger.log, w.ledger.database, w.processes[s.p])
    ensures Quiet(wires, w, s.p, w')
  {
    if s.Promote? || s.Discard? || s.Abandon? || s.Unstage? {
      UndoingIsQuiet(wires, w, s, w');
    } else if s.Check? || s.FailStep? || s.Crash? {
      CheckingIsQuiet(wires, w, s, w');
    } else {
      MakingIsQuiet(wires, w, s, w');
    }
  }

  lemma QuietKeeps<H(!new), E(!new)>(wires: Wires<H, E>, g: H, w: World<H, E>, s: Step<E>, w': World<H, E>)
    requires AuthorityInv(wires, g, w) && Act(wires, w, s) == Some(w')
    requires !s.Spawn? && !s.Advance? && !s.Commit? && !s.AppendJournal?
    ensures AuthorityInv(wires, g, w')
  {
    QuietMoves(wires, w, s, w');
    MovedKeeps(wires, g, w, s.p, w');
  }

  lemma AuthorityKept<H(!new), E(!new)>(wires: Wires<H, E>, g: H, w: World<H, E>, s: Step<E>, w': World<H, E>)
    requires AuthorityInv(wires, g, w) && Act(wires, w, s) == Some(w')
    ensures AuthorityInv(wires, g, w')
  {
    match s
    case Spawn(_, _) =>
    case Advance(p, replied) => AdvanceKeeps(wires, g, w, p, replied, w');
    case Commit(p, replied) => CommitKeeps(wires, g, w, p, replied, w');
    case AppendJournal(p, written) => JournalKeeps(wires, g, w, p, written, w');
    case _ => QuietKeeps(wires, g, w, s, w');
  }
}
