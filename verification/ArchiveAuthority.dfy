/** The protocol's main results: the witness history is a run of the archive machine, nothing overtakes the
    order of the durable writes, and exactly when cleanup can touch what belongs to a journalled entry. */
module ArchiveAuthority {
  import opened Bytes
  import opened Wrappers
  import opened Archive
  import opened ArchiveSuccessors
  import opened SafetyWitness
  import opened ArchiveProtocol
  import opened ArchiveProtocolSafety
  import opened ArchiveProtocolCleanup
  import opened ArchiveProtocolRetention
  import opened ArchiveProtocolLosses

  type Installation = World<WitnessHead, Entry>

  ghost predicate IsGenesis(g: WitnessHead) {
    g.sequence == 0 && g.state.archive == EMPTY
  }

  /** Some run of any number of processes leads here. */
  ghost predicate Reached(rules: Rules, g: WitnessHead, w: Installation) {
    exists steps: seq<Step<Entry>> :: Execute(Wired(rules), Genesis(g), steps) == Some(w)
  }

  lemma {:induction false} ExecuteKeeps(wires: Wires<WitnessHead, Entry>, g: WitnessHead, w: Installation,
                                        steps: seq<Step<Entry>>, w': Installation)
    requires AuthorityInv(wires, g, w) && CleanupInv(w)
    requires Execute(wires, w, steps) == Some(w')
    ensures AuthorityInv(wires, g, w') && CleanupInv(w')
    decreases |steps|
  {
    if steps != [] {
      var next := Act(wires, w, steps[0]).value;
      AuthorityKept(wires, g, w, steps[0], next);
      CleanupKept(wires, w, steps[0], next);
      ExecuteKeeps(wires, g, next, steps[1..], w');
    }
  }

  /** What runs on from a reachable state is reachable. */
  lemma ReachedOn(rules: Rules, g: WitnessHead, w: Installation, steps: seq<Step<Entry>>, v: Installation)
    requires Reached(rules, g, w) && Execute(Wired(rules), w, steps) == Some(v)
    ensures Reached(rules, g, v)
  {
    var before: seq<Step<Entry>> :| Execute(Wired(rules), Genesis(g), before) == Some(w);
    Then(Wired(rules), Genesis(g), before, w, steps);
  }

  lemma ReachedKeeps(rules: Rules, g: WitnessHead, w: Installation)
    requires IsGenesis(g) && Reached(rules, g, w)
    ensures AuthorityInv(Wired(rules), g, w) && CleanupInv(w)
  {
    var steps: seq<Step<Entry>> :| Execute(Wired(rules), Genesis(g), steps) == Some(w);
    ExecuteKeeps(Wired(rules), g, Genesis(g), steps, w);
  }

  // ----- the order of durable writes

  /** Promoted implies committed implies witnessed implies journalled; and the database is always a prefix
      of the witness history. */
  lemma DurableOrder(rules: Rules, g: WitnessHead, w: Installation)
    requires IsGenesis(g) && Reached(rules, g, w)
    ensures forall p :: p in w.trail.promoted ==>
              && p in w.processes && w.processes[p].task.AppendTask?
              && w.processes[p].task.entry in w.ledger.database
    ensures |w.ledger.database| <= |w.ledger.log|
    ensures forall i :: 0 <= i < |w.ledger.database| ==> w.ledger.database[i] == w.ledger.log[i].task.entry
    ensures forall i :: 0 <= i < |w.ledger.log| ==> w.ledger.log[i].task.entry in w.ledger.journal
  {
    ReachedKeeps(rules, g, w);
    forall i | 0 <= i < |w.ledger.log| ensures w.ledger.log[i].task.entry in w.ledger.journal {
      assert RecordOk(Wired(rules), g, w.ledger.log, w.ledger.journal, i);
    }
  }

  // ----- the witness's chain

  /** What an entry follows: the genesis, or the entry before it. */
  datatype Link = Link(chain: Digest, generation: Uuid, epoch: u64, state: WitnessState)

  function LinkBefore(rules: Rules, g: WitnessHead, log: seq<Record<WitnessHead, Entry>>, i: nat): Link
    requires i <= |log|
  {
    if i == 0 then Link(g.chain, g.generation, g.epoch, g.state)
    else
      var e := log[i - 1].task.entry;
      Link(rules.entryDigest(e), e.generation, e.epoch, e.state)
  }

  /** What a kind of entry may make of the state it follows. Of the slots beside the archive's, an archive event is
      asked nothing. */
  ghost predicate Follows(rules: Rules, b: Link, e: Entry) {
    match e.kind
    case InstallationInitialized => e.state == b.state
    case GenerationRegistered =>
      && b.state.lineage != [] && b.state.lineage[|b.state.lineage| - 1] != e.generation
      && e.state == b.state.(lineage := b.state.lineage + [e.generation]) && rules.restoreAllows(e, b.state.restore)
    case ArchiveEvent(event) => Accepts(rules.dg, event, b.state.archive, e.state.archive)
    case _ =>
      && e.state.lineage == b.state.lineage && e.state.archive == b.state.archive
      && rules.restoreAllows(e, b.state.restore)
  }

  /** In every reachable state each entry the witness has accepted is signed, of this installation, one further in
      number, chained to the digest of the entry before it, in the generation and epoch of that entry or, exactly if it
      registers one, in another generation and the next epoch, and makes of its state only what its kind may. */
  lemma ChainUnbroken(rules: Rules, g: WitnessHead, w: Installation, i: nat)
    requires IsGenesis(g) && Reached(rules, g, w) && i < |w.ledger.log|
    ensures var e, b := w.ledger.log[i].task.entry, LinkBefore(rules, g, w.ledger.log, i);
            && rules.verifies(e) && e.identity == g.identity && e.sequence == i + 1 && e.previous == b.chain
            && (e.generation != b.generation <==> e.kind.GenerationRegistered?)
            && e.epoch == b.epoch + (if e.kind.GenerationRegistered? then 1 else 0)
            && Follows(rules, b, e)
  {
    ReachedKeeps(rules, g, w);
    SeenIsLink(rules, g, w, i);
    assert RecordOk(Wired(rules), g, w.ledger.log, w.ledger.journal, i);
  }

  lemma {:induction false} SeenIsLink(rules: Rules, g: WitnessHead, w: Installation, i: nat)
    requires AuthorityInv(Wired(rules), g, w) && i < |w.ledger.log|
    ensures var seen, b := w.ledger.log[i].seen, LinkBefore(rules, g, w.ledger.log, i);
            seen.identity == g.identity && Link(seen.chain, seen.generation, seen.epoch, seen.state) == b
  {
    assert RecordOk(Wired(rules), g, w.ledger.log, w.ledger.journal, i);
    if i > 0 {
      SeenIsLink(rules, g, w, i - 1);
    }
  }

  function Registrations(log: seq<Record<WitnessHead, Entry>>, n: nat): nat
    requires n <= |log|
  {
    if n == 0 then 0
    else Registrations(log, n - 1) + (if log[n - 1].task.entry.kind.GenerationRegistered? then 1 else 0)
  }

  /** So the epoch counts the generations registered. */
  lemma {:induction false} EpochCountsRegistrations(rules: Rules, g: WitnessHead, w: Installation, n: nat)
    requires IsGenesis(g) && Reached(rules, g, w) && n <= |w.ledger.log|
    ensures LinkBefore(rules, g, w.ledger.log, n).epoch == g.epoch + Registrations(w.ledger.log, n)
  {
    if n > 0 {
      ChainUnbroken(rules, g, w, n - 1);
      EpochCountsRegistrations(rules, g, w, n - 1);
    }
  }

  // ----- cleanup

  lemma {:induction false} ExecuteRetains(wires: Wires<WitnessHead, Entry>, w: Installation, steps: seq<Step<Entry>>,
                                          w': Installation)
    requires CleanupInv(w) && JournalInv(w) && RetentionInv(w) && Execute(wires, w, steps) == Some(w')
    ensures JournalInv(w') && RetentionInv(w')
    decreases |steps|
  {
    if steps != [] {
      var next := Act(wires, w, steps[0]).value;
      CleanupKept(wires, w, steps[0], next);
      JournalKept(wires, w, steps[0], next);
      RetentionKept(wires, w, steps[0], next);
      ExecuteRetains(wires, next, steps[1..], w');
    }
  }

  /** Whose entry a removal concerns. */
  function OwnersEntry(w: Installation, r: Removal): Entry
    requires r.owner in w.processes
  {
    w.processes[r.owner].task.entry
  }

  /** Another process that carries the same entry wrote it to the journal. */
  ghost predicate WrittenByAnother(w: Installation, steps: seq<Step<Entry>>, p: nat, e: Entry) {
    exists q :: q in w.processes && q != p && w.processes[q].task.entry == e && WritesIn(steps, q)
  }

  /** Every cleanup by a process removes something that process made. The entry it belonged to is in the journal, before
      the removal or after it, if and only if the actor's own append failed after writing or another process carrying
      the same entry wrote it. */
  lemma CleanupBeforeJournal(rules: Rules, g: WitnessHead, steps: seq<Step<Entry>>, w: Installation, i: nat)
    requires IsGenesis(g) && Execute(Wired(rules), Genesis(g), steps) == Some(w) && i < |w.trail.removals|
    ensures var r := w.trail.removals[i];
            && r.owner == r.actor && r.owner in w.processes
            && (OwnersEntry(w, r) in w.ledger.journal <==>
                WritesInDoubtIn(steps, r.owner) || WrittenByAnother(w, steps, r.owner, OwnersEntry(w, r)))
  {
    var wires, r := Wired(rules), w.trail.removals[i];
    ExecuteKeeps(wires, g, Genesis(g), steps, w);
    ExecuteRetains(wires, Genesis(g), steps, w);
    assert RemovalOk(w, r);
    forall p
      ensures p in w.trail.wrote <==> WritesIn(steps, p)
      ensures p in w.trail.doubtful <==> WritesInDoubtIn(steps, p)
    {
      StepsDecide(wires, Genesis(g), steps, w, p);
    }
    AuthorsOf(w, steps, r);
  }

  lemma AuthorsOf(w: Installation, steps: seq<Step<Entry>>, r: Removal)
    requires JournalInv(w) && RemovalOk(w, r)
    requires forall p :: p in w.trail.wrote <==> WritesIn(steps, p)
    requires forall p :: p in w.trail.doubtful <==> WritesInDoubtIn(steps, p)
    ensures OwnersEntry(w, r) in w.ledger.journal <==>
            WritesInDoubtIn(steps, r.owner) || WrittenByAnother(w, steps, r.owner, OwnersEntry(w, r))
  {
    var e := OwnersEntry(w, r);
    if e in w.ledger.journal {
      var p :| Wrote(w, p, e);
      if p == r.owner {
        assert p in w.trail.doubtful;
      } else {
        assert WritesIn(steps, p);
      }
    }
  }

  /** So where no journal append fails after writing and no two processes carry one entry, nothing that belongs to a
      journalled entry is ever removed. */
  lemma UnambiguousJournalIsNeverUndone(rules: Rules, g: WitnessHead, steps: seq<Step<Entry>>, w: Installation, i: nat)
    requires IsGenesis(g) && Execute(Wired(rules), Genesis(g), steps) == Some(w)
    requires Truthful(steps)
    requires forall p, q :: p in w.processes && q in w.processes && p != q ==>
               w.processes[p].task.entry != w.processes[q].task.entry
    requires i < |w.trail.removals|
    ensures w.trail.removals[i].owner in w.processes
    ensures OwnersEntry(w, w.trail.removals[i]) !in w.ledger.journal
  {
    CleanupBeforeJournal(rules, g, steps, w, i);
  }

  /** A second process needs no more than the first: an entry that passes a controller's checks passes them bare. */
  lemma PassesBare(rules: Rules, head: WitnessHead, task: Task<Entry>)
    requires Wired(rules).check(head, task)
    ensures CanBeWitnessed(Wired(rules), head, task.entry)
  {
    assert ChecksOut(rules, head, task);
    assert ChecksOut(rules, head, OtherTask(task.entry));
  }

  /** Whoever journalled its entry without doubt, crashed or not, has in every reachable state its key still filed, its
      intent until its entry is committed, and its staged object until it is promoted. */
  lemma SoundWriterKeeps(rules: Rules, g: WitnessHead, w: Installation, p: nat)
    requires IsGenesis(g) && Reached(rules, g, w)
    requires p in w.processes && p in w.trail.wrote && p !in w.trail.doubtful
    ensures w.processes[p].task.entry in w.ledger.journal
    ensures Retains(w.ledger.database, w.things, w.trail.promoted, p, w.processes[p].task)
  {
    var steps: seq<Step<Entry>> :| Execute(Wired(rules), Genesis(g), steps) == Some(w);
    ExecuteRetains(Wired(rules), Genesis(g), steps, w);
  }

  // ----- the chain of witnessed entries

  /** Entries are numbered without gaps, each names the digest of the one before, and the head that of the last. */
  lemma EntriesLinked(rules: Rules, g: WitnessHead, w: Installation, i: nat)
    requires IsGenesis(g) && Reached(rules, g, w) && i < |w.ledger.log|
    ensures w.ledger.log[i].task.entry.sequence == i + 1
    ensures i > 0 ==> w.ledger.log[i].task.entry.previous == rules.entryDigest(w.ledger.log[i - 1].task.entry)
    ensures i == |w.ledger.log| - 1 ==> w.ledger.head.chain == rules.entryDigest(w.ledger.log[i].task.entry)
  {
    ReachedKeeps(rules, g, w);
    RecordChecksOut(rules, g, w, i);
    var seen := w.ledger.log[i].seen;
    AcceptedFollows(rules, seen, w.ledger.log[i].task);
  }

  lemma RecordChecksOut(rules: Rules, g: WitnessHead, w: Installation, i: nat)
    requires AuthorityInv(Wired(rules), g, w) && i < |w.ledger.log|
    ensures RecordOk(Wired(rules), g, w.ledger.log, w.ledger.journal, i)
    ensures ChecksOut(rules, w.ledger.log[i].seen, w.ledger.log[i].task)
  {
    assert RecordOk(Wired(rules), g, w.ledger.log, w.ledger.journal, i);
    assert Wired(rules).check(w.ledger.log[i].seen, w.ledger.log[i].task);
  }

  lemma AcceptedFollows(rules: Rules, head: WitnessHead, task: Task<Entry>)
    requires ChecksOut(rules, head, task)
    ensures task.entry.sequence == head.sequence + 1 && task.entry.previous == head.chain
  {
  }

  /** Two different witnessed entries with one digest. */
  ghost predicate EntryCollision(rules: Rules, w: Installation, v: Installation) {
    exists i, j :: 0 <= i < |w.ledger.log| && 0 <= j < |v.ledger.log|
                   && w.ledger.log[i].task.entry != v.ledger.log[j].task.entry
                   && rules.entryDigest(w.ledger.log[i].task.entry) == rules.entryDigest(v.ledger.log[j].task.entry)
  }

  /** The digest at a point of one witness history fixes every entry up to there: any history of the same genesis with
      that digest at some point agrees with it up to the same point, or two of their entries collide. */
  lemma {:induction false} DigestFixesHistory(rules: Rules, g: WitnessHead, w: Installation, m: nat, v: Installation,
                                              n: nat)
    requires IsGenesis(g) && Reached(rules, g, w) && Reached(rules, g, v)
    requires m < |w.ledger.log| && n < |v.ledger.log|
    requires rules.entryDigest(w.ledger.log[m].task.entry) == rules.entryDigest(v.ledger.log[n].task.entry)
    ensures EntryCollision(rules, w, v)
            || (m == n && forall i :: 0 <= i <= m ==> w.ledger.log[i].task.entry == v.ledger.log[i].task.entry)
    decreases m
  {
    EntriesLinked(rules, g, w, m);
    EntriesLinked(rules, g, v, n);
    if w.ledger.log[m].task.entry == v.ledger.log[n].task.entry && m > 0 {
      DigestFixesHistory(rules, g, w, m - 1, v, n - 1);
    }
  }

  /** The witness head alone fixes the whole history behind it. */
  lemma HeadFixesHistory(rules: Rules, g: WitnessHead, w: Installation, v: Installation)
    requires IsGenesis(g) && Reached(rules, g, w) && Reached(rules, g, v)
    requires w.ledger.log != [] && v.ledger.log != [] && w.ledger.head.chain == v.ledger.head.chain
    ensures EntryCollision(rules, w, v)
            || (|w.ledger.log| == |v.ledger.log|
                && forall i :: 0 <= i < |w.ledger.log| ==> w.ledger.log[i].task.entry == v.ledger.log[i].task.entry)
  {
    var m, n := |w.ledger.log| - 1, |v.ledger.log| - 1;
    EntriesLinked(rules, g, w, m);
    EntriesLinked(rules, g, v, n);
    DigestFixesHistory(rules, g, w, m, v, n);
  }
}
