/** In every reachable state the archive tables hold the archive of the last committed entry, and every pending row fits
    the head of its set. */
module ArchiveMirror {
  import opened Bytes
  import opened Wrappers
  import opened Archive
  import opened ArchiveRuns
  import opened ArchiveSuccessors
  import opened ArchiveTables
  import opened SafetyWitness
  import opened ArchiveProtocol
  import opened ArchiveProtocolSafety
  import opened ArchiveProtocolCleanup
  import opened ArchiveProtocolStall
  import opened ArchiveAuthority

  // ----- what is kept

  /** The archive of the last committed entry. */
  function CommittedArchive(database: seq<Entry>): State {
    if database == [] then EMPTY else database[|database| - 1].state.archive
  }

  ghost predicate Mirrors(dg: Digester, l: Ledger<WitnessHead, Entry>) {
    l.tables == CommittedArchive(l.database) && Inv(dg, l.tables)
  }

  function Expected(i: Intent): ArchiveHead {
    ArchiveHead(if i.ordinal > 0 then i.ordinal - 1 else 0, i.predecessor)
  }

  /** Every pending row waits on the present head of its set, whatever has become of the set's lifecycle. */
  ghost predicate RowsFit(t: State, intents: Intents) {
    forall o: Uuid :: o in intents ==>
      intents[o].ordinal > 0 && intents[o].setId in t.sets && t.sets[intents[o].setId].head == Expected(intents[o])
  }

  /** So no set has two of them. */
  ghost predicate RowsApart(intents: Intents) {
    forall o: Uuid, o': Uuid :: o in intents && o' in intents && intents[o].setId == intents[o'].setId ==> o == o'
  }

  ghost predicate TablesInv(rules: Rules, w: Installation) {
    && Mirrors(rules.dg, w.ledger)
    && RowsFit(w.ledger.tables, w.things.intents)
    && RowsApart(w.things.intents)
    && Recorded(Wired(rules), w)
  }

  // ----- one step

  /** Steps other than the commit leave database and tables alone, and most of them the pending rows. */
  lemma StepSparesTables(wires: Wires<WitnessHead, Entry>, w: Installation, s: Step<Entry>, w': Installation)
    requires Act(wires, w, s) == Some(w') && !s.Commit?
    ensures w'.ledger.database == w.ledger.database && w'.ledger.tables == w.ledger.tables
    ensures !s.Reserve? && !s.Abandon? ==> w'.things.intents == w.things.intents
  {
  }

  lemma ReserveKeepsRows(w: Installation, p: nat, w': Installation)
    requires p in w.processes && DoReserve(w, p) == Some(w')
    requires RowsFit(w.ledger.tables, w.things.intents) && RowsApart(w.things.intents)
    ensures RowsFit(w.ledger.tables, w'.things.intents) && RowsApart(w'.things.intents)
  {
    var r := w.processes[p].task.Reservation();
    assert forall o: Uuid | o in w.things.intents ::
        w.things.intents[o].setId == r.setId ==> w.things.intents[o].ordinal == r.desc.ordinal;
  }

  lemma AbandonKeepsRows(w: Installation, p: nat, replied: bool, w': Installation)
    requires p in w.processes && DoAbandon(w, p, replied) == Some(w')
    requires RowsFit(w.ledger.tables, w.things.intents) && RowsApart(w.things.intents)
    ensures RowsFit(w.ledger.tables, w'.things.intents) && RowsApart(w'.things.intents)
  {
  }

  // ----- the commit

  /** The witness accepted the next entry on the archive that the tables hold. */
  lemma SeenIsCommitted(rules: Rules, g: WitnessHead, w: Installation)
    requires IsGenesis(g) && AuthorityInv(Wired(rules), g, w) && Mirrors(rules.dg, w.ledger)
    requires |w.ledger.database| < |w.ledger.log|
    ensures var r := w.ledger.log[|w.ledger.database|];
            && r.seen.state.archive == w.ledger.tables && ChecksOut(rules, r.seen, r.task) && Reserves(r.task)
            && r.task.entry.sequence == |w.ledger.database| + 1
  {
    var i := |w.ledger.database|;
    RecordChecksOut(rules, g, w, i);
    if i > 0 {
      assert w.ledger.database[i - 1] == w.ledger.log[i - 1].task.entry;
    }
  }

  lemma StartsAtZero(rules: Rules, head: WitnessHead, task: Task<Entry>)
    requires ChecksOut(rules, head, task) && task.StartTask?
    ensures task.initial.ordinal == 0
  {
    var before, after := head.state.archive.sets, task.entry.state.archive.sets;
    var id: Uuid :| AddedOnly(before, after, id) && FreshSet(after[id]);
    assert id == task.identity.setId;
  }

  lemma CheckedFits(rules: Rules, head: WitnessHead, task: Task<Entry>)
    requires Inv(rules.dg, head.state.archive) && ChecksOut(rules, head, task) && Reserves(task) && !task.OtherTask?
    ensures var op := task.Operation().value;
            && op.Valid() && Apply(rules.dg, head.state.archive, op) == Ok(task.entry.state.archive)
            && Fitting(head.state.archive, op) && (op.OpStart? ==> op.initial.ordinal == 0)
  {
    if task.StartTask? {
      StartsAtZero(rules, head, task);
    }
    AppliedFits(rules.dg, head.state.archive, task.Operation().value);
  }

  /** What a commit makes of the tables is the archive its entry was signed for. */
  lemma CommitMirrors(rules: Rules, head: WitnessHead, task: Task<Entry>, intents: Intents, database: seq<Entry>)
    requires Inv(rules.dg, head.state.archive) && ChecksOut(rules, head, task) && Reserves(task)
    requires Enters(rules, head.state.archive, intents, database, task).Some?
    ensures Enters(rules, head.state.archive, intents, database, task).value == task.entry.state.archive
    ensures Inv(rules.dg, task.entry.state.archive)
  {
    if task.OtherTask? {
      OtherKindsKeepArchive(rules, head, task.entry);
    } else {
      var op := task.Operation().value;
      CheckedFits(rules, head, task);
      EnterAgrees(rules.dg, head.state.archive, intents, rules.released, op, task.Named());
      StepKeeps(rules.dg, head.state.archive, op, task.entry.state.archive);
    }
  }

  /** The rows that a commit does not consume still fit. */
  lemma CommitKeepsRows(rules: Rules, t: State, intents: Intents, database: seq<Entry>, task: Task<Entry>)
    requires Reserves(task) && Enters(rules, t, intents, database, task).Some?
    requires RowsFit(t, intents) && RowsApart(intents)
    ensures var rest := if task.AppendTask? then intents - {task.desc.objectId} else intents;
            RowsFit(Enters(rules, t, intents, database, task).value, rest) && RowsApart(rest)
  {
    var rest := if task.AppendTask? then intents - {task.desc.objectId} else intents;
    var t' := Enters(rules, t, intents, database, task).value;
    if !task.OtherTask? {
      var op := task.Operation().value;
      assert op.OpCommit? ==> Filed(intents, op.reservation);
      assert forall o: Uuid | o in rest :: op.OpCommit? ==> rest[o].setId != op.reservation.setId;
      forall o: Uuid | o in rest
        ensures rest[o].setId in t'.sets && t'.sets[rest[o].setId].head == t.sets[rest[o].setId].head
      {
        EnterKeepsHeads(rules.dg, t, intents, rules.released, op, task.Named(), rest[o].setId);
      }
    }
  }

  /** A commit changes nothing in the database, or its procedure has gone through. */
  lemma CommitOutcome<H, E>(wires: Wires<H, E>, w: World<H, E>, p: nat, replied: bool, w': World<H, E>)
    requires p in w.processes && DoCommit(wires, w, p, replied) == Some(w')
    ensures var task := w.processes[p].task;
            || (w'.ledger == w.ledger && w'.things == w.things)
            || (&& w.processes[p].phase.Witnessed? && wires.entrySequence(task.entry) == |w.ledger.database| + 1
                && wires.enters(w.ledger.tables, w.things.intents, w.ledger.database, task) == Some(w'.ledger.tables)
                && w'.ledger.database == w.ledger.database + [task.entry]
                && w'.things.intents
                   == if task.AppendTask? then w.things.intents - {task.desc.objectId} else w.things.intents)
  {
  }

  lemma CommitKeepsTables(rules: Rules, g: WitnessHead, w: Installation, p: nat, replied: bool, w': Installation)
    requires IsGenesis(g) && AuthorityInv(Wired(rules), g, w) && TablesInv(rules, w)
    requires p in w.processes && DoCommit(Wired(rules), w, p, replied) == Some(w')
    ensures Mirrors(rules.dg, w'.ledger) && RowsFit(w'.ledger.tables, w'.things.intents)
    ensures RowsApart(w'.things.intents)
  {
    CommitOutcome(Wired(rules), w, p, replied, w');
    if w'.ledger.database != w.ledger.database {
      SeenIsCommitted(rules, g, w);
      var r := w.ledger.log[|w.ledger.database|];
      assert r.task == w.processes[p].task;
      GrownMirrors(rules, r.seen, r.task, w.ledger, w.things.intents, w'.ledger);
    }
  }

  lemma GrownMirrors(rules: Rules, seen: WitnessHead, task: Task<Entry>, l: Ledger<WitnessHead, Entry>,
                     intents: Intents, l': Ledger<WitnessHead, Entry>)
    requires Mirrors(rules.dg, l) && RowsFit(l.tables, intents) && RowsApart(intents)
    requires seen.state.archive == l.tables && ChecksOut(rules, seen, task) && Reserves(task)
    requires Enters(rules, l.tables, intents, l.database, task) == Some(l'.tables)
    requires l'.database == l.database + [task.entry]
    ensures var rest := if task.AppendTask? then intents - {task.desc.objectId} else intents;
            Mirrors(rules.dg, l') && RowsFit(l'.tables, rest) && RowsApart(rest)
  {
    CommitMirrors(rules, seen, task, intents, l.database);
    CommitKeepsRows(rules, l.tables, intents, l.database, task);
  }

  /** Every step keeps: the tables hold the archive of the last committed entry, and each set at most one pending row,
      which fits its head. */
  lemma TablesKept(rules: Rules, g: WitnessHead, w: Installation, s: Step<Entry>, w': Installation)
    requires IsGenesis(g) && AuthorityInv(Wired(rules), g, w) && TablesInv(rules, w)
    requires Act(Wired(rules), w, s) == Some(w')
    ensures TablesInv(rules, w')
  {
    assert w.ledger.head.sequence == |w.ledger.log|;
    RecordedKept(Wired(rules), w, s, w');
    if s.Commit? {
      CommitKeepsTables(rules, g, w, s.p, s.replied, w');
    } else {
      StepSparesTables(Wired(rules), w, s, w');
      if s.Reserve? {
        ReserveKeepsRows(w, s.p, w');
      } else if s.Abandon? {
        AbandonKeepsRows(w, s.p, s.replied, w');
      }
    }
  }

  lemma {:induction false} ExecuteKeepsTables(rules: Rules, g: WitnessHead, w: Installation, steps: seq<Step<Entry>>,
                                              v: Installation)
    requires IsGenesis(g) && AuthorityInv(Wired(rules), g, w) && TablesInv(rules, w)
    requires Execute(Wired(rules), w, steps) == Some(v)
    ensures TablesInv(rules, v)
    decreases |steps|
  {
    if steps != [] {
      var next := Act(Wired(rules), w, steps[0]).value;
      AuthorityKept(Wired(rules), g, w, steps[0], next);
      TablesKept(rules, g, w, steps[0], next);
      ExecuteKeepsTables(rules, g, next, steps[1..], v);
    }
  }

  /** In every reachable state the tables are the archive of the last committed entry, and each pending row fits. */
  lemma ReachedMirrors(rules: Rules, g: WitnessHead, w: Installation)
    requires IsGenesis(g) && Reached(rules, g, w)
    ensures AuthorityInv(Wired(rules), g, w) && CleanupInv(w) && TablesInv(rules, w)
  {
    var start: Installation := Genesis(g);
    var steps: seq<Step<Entry>> :| Execute(Wired(rules), start, steps) == Some(w);
    ReachedKeeps(rules, g, w);
    ReachedKeeps(rules, g, start) by { assert Execute(Wired(rules), start, []) == Some(start); }
    assert Inv(rules.dg, EMPTY);
    ExecuteKeepsTables(rules, g, start, steps, w);
  }

  // ----- one pending append to a set at a time

  /** A row of this set is a row of its next ordinal. */
  lemma RowsAreNext(t: State, intents: Intents, r: Reservation)
    requires RowsFit(t, intents) && r.Valid() && StandsAt(t, r.setId, r.expected)
    ensures CanReserve(t, intents, r)
       <==> && r.desc.ordinal < 0x8000_0000_0000_0000 && r.desc.objectId !in intents
            && forall o: Uuid :: o in intents ==> intents[o].setId != r.setId
  {
    forall o: Uuid | o in intents && intents[o].setId == r.setId ensures intents[o].ordinal == r.desc.ordinal {
      assert Expected(intents[o]) == r.expected;
    }
  }

  /** In every reachable state a reservation goes through exactly if it fits together, the database shows its set
      streaming behind the head it expects, no append to that set is pending, its object identifier is free and its
      ordinal fits its column. */
  lemma ReservesIffAlone(rules: Rules, g: WitnessHead, w: Installation, p: nat)
    requires IsGenesis(g) && Reached(rules, g, w)
    requires p in w.processes && w.processes[p].task.AppendTask? && w.processes[p].phase.Ready?
    ensures var r, t, intents := w.processes[p].task.Reservation(), w.ledger.tables, w.things.intents;
            (Act(Wired(rules), w, Reserve(p)).Some? <==>
             && r.Valid() && r.desc.ordinal < 0x8000_0000_0000_0000 && r.desc.objectId !in intents
             && r.setId in t.sets && t.sets[r.setId].lifecycle.Streaming? && t.sets[r.setId].head == r.expected
             && forall o: Uuid :: o in intents ==> intents[o].setId != r.setId)
  {
    ReachedMirrors(rules, g, w);
    var r := w.processes[p].task.Reservation();
    if r.Valid() && StandsAt(w.ledger.tables, r.setId, r.expected) {
      RowsAreNext(w.ledger.tables, w.things.intents, r);
    }
  }
}
