/** What the database has committed, after any run of processes and reconciliations: each entry once, in order, and sets
    that belong to the authority that started them. */
module ArchiveCommitted {
  import opened Bytes
  import opened Wrappers
  import opened Archive
  import opened ArchiveSuccessors
  import opened ArchiveTables
  import opened SafetyWitness
  import opened ArchiveProtocol
  import opened ArchiveAuthority
  import opened ArchiveMirror
  import opened ArchiveReconciliation

  // ----- one entry at a time

  /** Entry `i` is number `i + 1`, is the initialization exactly if it is the first, fits its columns, and shares
      request and digest with none before it. */
  ghost predicate Orderly(rules: Rules, database: seq<Entry>, i: nat)
    requires i < |database|
  {
    var e := database[i];
    && e.sequence == i + 1 && e.sequence < TWO_TO_THE_63 && e.epoch < TWO_TO_THE_63
    && (e.kind.InstallationInitialized? <==> i == 0)
    && forall j :: 0 <= j < i ==>
         database[j].request != e.request && rules.entryDigest(database[j]) != rules.entryDigest(e)
  }

  /** This set was started by a committed entry, of that installation and generation. */
  ghost predicate WasStarted(rules: Rules, database: seq<Entry>, identity: Identity) {
    exists i :: 0 <= i < |database| && StartedBy(rules, database[i], identity)
  }

  predicate StartedBy(rules: Rules, e: Entry, identity: Identity) {
    && e.kind == ArchiveEvent(Started)
    && identity.installationId == rules.installation(e.identity) && identity.generationId == e.generation
  }

  /** No hold is filed under two sets. */
  ghost predicate HoldsApart(t: State) {
    forall id: Uuid, other: Uuid, hold: Uuid ::
      id in t.sets && other in t.sets && hold in t.sets[id].holds && hold in t.sets[other].holds ==> id == other
  }

  /** No two objects of a set share an identifier or a content. */
  ghost predicate ObjectsApart(t: State) {
    forall id: Uuid :: id in t.sets ==> Apart(t.sets[id].checkpoints)
  }

  ghost predicate Apart(cs: seq<Checkpoint>) {
    forall i, j :: 0 <= i < j < |cs| ==>
      cs[i].desc.objectId != cs[j].desc.objectId && cs[i].desc.ciphertextDigest != cs[j].desc.ciphertextDigest
  }

  ghost predicate LedgerInv(rules: Rules, l: Ledger<WitnessHead, Entry>) {
    && (forall i :: 0 <= i < |l.database| ==> Orderly(rules, l.database, i))
    && (forall id: Uuid :: id in l.tables.sets ==> WasStarted(rules, l.database, l.tables.sets[id].identity))
    && HoldsApart(l.tables) && ObjectsApart(l.tables)
  }

  lemma EnterKeepsHoldsApart(
    dg: Digester, t: State, intents: Intents, released: Uuid -> bool, op: Op, named: Digest, t': State)
    requires Enter(dg, t, intents, released, op, named) == Some(t') && HoldsApart(t)
    ensures HoldsApart(t')
  {
    if !op.OpHold? {
      forall id: Uuid, hold: Uuid | id in t'.sets && hold in t'.sets[id].holds
        ensures id in t.sets && hold in t.sets[id].holds
      {
      }
    }
  }

  lemma EnterKeepsObjectsApart(
    dg: Digester, t: State, intents: Intents, released: Uuid -> bool, op: Op, named: Digest, t': State)
    requires Enter(dg, t, intents, released, op, named) == Some(t') && ObjectsApart(t)
    ensures ObjectsApart(t')
  {
    forall id: Uuid | id in t'.sets ensures Apart(t'.sets[id].checkpoints) {
      if id in t.sets {
        assert Apart(t.sets[id].checkpoints);
      }
    }
  }

  /** A procedure renames no set, and the one it adds is the one its operation starts. */
  lemma EnterKeepsIdentities(
    dg: Digester, t: State, intents: Intents, released: Uuid -> bool, op: Op, named: Digest, t': State, id: Uuid)
    requires Enter(dg, t, intents, released, op, named) == Some(t') && id in t'.sets
    ensures (id in t.sets && t'.sets[id].identity == t.sets[id].identity)
            || (op.OpStart? && t'.sets[id].identity == op.identity)
  {
  }

  lemma StoredKeeps(rules: Rules, l: Ledger<WitnessHead, Entry>, intents: Intents, e: Entry, op: Op, named: Digest,
                    t: State)
    requires LedgerInv(rules, l) && e.sequence == |l.database| + 1
    requires Stores(rules, l.tables, intents, l.database, e, op, named) == Some(t)
    ensures LedgerInv(rules, l.(database := l.database + [e], tables := t))
  {
    EntryKeeps(rules, l.database, e);
    EnterKeepsHoldsApart(rules.dg, l.tables, intents, rules.released, op, named, t);
    EnterKeepsObjectsApart(rules.dg, l.tables, intents, rules.released, op, named, t);
    forall id: Uuid | id in t.sets ensures WasStarted(rules, l.database + [e], t.sets[id].identity) {
      EnterKeepsIdentities(rules.dg, l.tables, intents, rules.released, op, named, t, id);
      if id in l.tables.sets && t.sets[id].identity == l.tables.sets[id].identity {
        StartedStays(rules, l.database, e, t.sets[id].identity);
      } else {
        assert StartedBy(rules, (l.database + [e])[|l.database|], t.sets[id].identity);
      }
    }
  }

  lemma EntryKeeps(rules: Rules, database: seq<Entry>, e: Entry)
    requires forall i :: 0 <= i < |database| ==> Orderly(rules, database, i)
    requires Storable(rules, database, e) && e.sequence == |database| + 1
    ensures forall i :: 0 <= i <= |database| ==> Orderly(rules, database + [e], i)
  {
    forall i | 0 <= i <= |database| ensures Orderly(rules, database + [e], i) {
      if i < |database| {
        assert Orderly(rules, database, i);
      }
    }
  }

  lemma StartedStays(rules: Rules, database: seq<Entry>, e: Entry, identity: Identity)
    requires WasStarted(rules, database, identity)
    ensures WasStarted(rules, database + [e], identity)
  {
    var i :| 0 <= i < |database| && StartedBy(rules, database[i], identity);
    assert StartedBy(rules, (database + [e])[i], identity);
  }

  lemma OtherKeeps(rules: Rules, l: Ledger<WitnessHead, Entry>, e: Entry)
    requires LedgerInv(rules, l) && Storable(rules, l.database, e) && e.sequence == |l.database| + 1
    ensures LedgerInv(rules, l.(database := l.database + [e]))
  {
    EntryKeeps(rules, l.database, e);
    forall id: Uuid | id in l.tables.sets ensures WasStarted(rules, l.database + [e], l.tables.sets[id].identity) {
      StartedStays(rules, l.database, e, l.tables.sets[id].identity);
    }
  }

  // ----- every move

  lemma CommitKeepsLedger(rules: Rules, w: Installation, p: nat, replied: bool, v: Installation)
    requires LedgerInv(rules, w.ledger) && p in w.processes && DoCommit(Wired(rules), w, p, replied) == Some(v)
    ensures LedgerInv(rules, v.ledger)
  {
    var task := w.processes[p].task;
    if v.ledger != w.ledger {
      match task.Operation()
      case Some(op) =>
        StoredKeeps(rules, w.ledger, w.things.intents, task.entry, op, task.Named(), v.ledger.tables);
      case None => OtherKeeps(rules, w.ledger, task.entry);
    }
  }

  lemma StepKeepsLedger(rules: Rules, w: Installation, s: Step<Entry>, v: Installation)
    requires LedgerInv(rules, w.ledger) && Act(Wired(rules), w, s) == Some(v)
    ensures LedgerInv(rules, v.ledger)
  {
    if s.Commit? {
      CommitKeepsLedger(rules, w, s.p, s.replied, v);
    } else {
      assert v.ledger.database == w.ledger.database && v.ledger.tables == w.ledger.tables;
    }
  }

  lemma PersistKeepsLedger(rules: Rules, w: Installation, e: Entry, v: Installation)
    requires LedgerInv(rules, w.ledger) && Replayed(rules, w, e) == Some(v)
    ensures LedgerInv(rules, v.ledger)
  {
    if e.kind.ArchiveEvent? {
      var op := ReadOff(CommittedArchive(w.ledger.database), e.state.archive, e.kind.event).value;
      StoredKeeps(rules, w.ledger, w.things.intents, e, op, NamedIn(e.state.archive, op), v.ledger.tables);
    } else {
      OtherKeeps(rules, w.ledger, e);
    }
  }

  lemma MoveKeepsLedger(rules: Rules, x: Watch, m: Move, y: Watch)
    requires LedgerInv(rules, x.w.ledger) && Make(rules, x, m) == Some(y)
    ensures LedgerInv(rules, y.w.ledger)
  {
    match m
    case Ordinary(s) => StepKeepsLedger(rules, x.w, s, y.w);
    case Persist(e) =>
      if Replayed(rules, x.w, e).Some? {
        PersistKeepsLedger(rules, x.w, e, y.w);
      }
    case _ =>
  }

  lemma {:induction false} MovesKeepLedger(rules: Rules, x: Watch, ms: seq<Move>, y: Watch)
    requires LedgerInv(rules, x.w.ledger) && MakeAll(rules, x, ms) == Some(y)
    ensures LedgerInv(rules, y.w.ledger)
    decreases |ms|
  {
    if ms != [] {
      var next := Make(rules, x, ms[0]).value;
      MoveKeepsLedger(rules, x, ms[0], next);
      MovesKeepLedger(rules, next, ms[1..], y);
    }
  }

  /** After any run: committed entries are numbered from one without gaps, the first and no other is the initialization,
      no two share a request or a digest; every set in the tables was started by one of them, of its own installation
      and generation; no hold is filed under two sets, and no two objects of a set share an identifier or a content. */
  lemma CommittedOnce(rules: Rules, g: WitnessHead, ms: seq<Move>, y: Watch)
    requires MakeAll(rules, Watch(Genesis(g), false, {}), ms) == Some(y)
    ensures var l := y.w.ledger;
            && (forall i :: 0 <= i < |l.database| ==> Orderly(rules, l.database, i))
            && (forall id: Uuid :: id in l.tables.sets ==> WasStarted(rules, l.database, l.tables.sets[id].identity))
            && HoldsApart(l.tables) && ObjectsApart(l.tables)
  {
    MovesKeepLedger(rules, Watch(Genesis(g), false, {}), ms, y);
  }
}
