/** The stalled seal from a genesis: a second append reserves and dies, and the set is sealed all the same. */
module ArchiveFirstSeal {
  import opened Bytes
  import opened Wrappers
  import opened Archive
  import opened ArchiveSuccessors
  import opened ArchiveTables
  import opened SafetyWitness
  import opened ArchiveProtocol
  import opened ArchiveProtocolLosses
  import opened ArchiveProtocolStall
  import opened ArchiveAuthority
  import opened ArchiveReconciliation
  import opened ArchiveDeadEnds
  import opened ArchiveBeginning

  /** What follows a beginning: an append that gets no further than its reservation, and the two entries of a seal. */
  datatype Ending = Ending(b: Beginning, next: Descriptor, lost: Entry, requests: (Uuid, Uuid)) {
    function Lost(dg: Digester): Task<Entry> {
      AppendTask(b.identity.setId, b.AppendedSet(dg).head, next, lost)
    }

    function SetIn(dg: Digester, l: Lifecycle): State {
      State(map[b.identity.setId := b.AppendedSet(dg).(lifecycle := l)])
    }

    function SealingEntry(rules: Rules, g: WitnessHead): Entry
      requires IsGenesis(g)
    {
      Following(b.AppendHead(rules, g), requests.0, ArchiveEvent(SealingBegun), SetIn(rules.dg, Sealing))
    }

    function SealingHead(rules: Rules, g: WitnessHead): WitnessHead
      requires IsGenesis(g)
    {
      Advanced(rules.entryDigest, b.AppendHead(rules, g), SealingEntry(rules, g))
    }

    function SealEntry(rules: Rules, g: WitnessHead): Entry
      requires IsGenesis(g)
    {
      Following(SealingHead(rules, g), requests.1, ArchiveEvent(SealCommitted), SetIn(rules.dg, Sealed))
    }

    /** The append is one the set could take, and the entries are signed. */
    predicate Admissible(rules: Rules, g: WitnessHead)
      requires IsGenesis(g)
    {
      && b.Admissible(rules, g)
      && next.Valid() && Lost(rules.dg).Reservation().Valid()
      && Acceptable(rules, [b.InitEntry(g), b.StartEntry(rules, g), b.AppendEntry(rules, g)], SealingEntry(rules, g))
      && rules.verifies(SealEntry(rules, g))
    }

    function BeginSealing(rules: Rules, g: WitnessHead): Task<Entry>
      requires IsGenesis(g)
    {
      LifecycleTask(OpBeginSealing(b.identity.setId), 0, SealingBegun, SealingEntry(rules, g))
    }

    function Seal(rules: Rules, g: WitnessHead): Task<Entry>
      requires IsGenesis(g)
    {
      LifecycleTask(OpCommitSealed(b.identity.setId), 0, SealCommitted, SealEntry(rules, g))
    }
  }

  // ----- the two entries pass their checks

  lemma SealingApplies(dg: Digester, e: Ending)
    requires e.b.Valid()
    ensures Apply(dg, e.b.AppendedState(dg), OpBeginSealing(e.b.identity.setId)) == Ok(e.SetIn(dg, Sealing))
    ensures Accepts(dg, SealingBegun, e.b.AppendedState(dg), e.SetIn(dg, Sealing))
    ensures Apply(dg, e.SetIn(dg, Sealing), OpCommitSealed(e.b.identity.setId)) == Ok(e.SetIn(dg, Sealed))
    ensures Accepts(dg, SealCommitted, e.SetIn(dg, Sealing), e.SetIn(dg, Sealed))
  {
    var id := e.b.identity.setId;
    assert Apply(dg, e.b.AppendedState(dg), OpBeginSealing(id)).value.sets == e.SetIn(dg, Sealing).sets;
    assert Apply(dg, e.SetIn(dg, Sealing), OpCommitSealed(id)).value.sets == e.SetIn(dg, Sealed).sets;
    assert ChangedOnlyAt(e.b.AppendedState(dg).sets, e.SetIn(dg, Sealing).sets, id);
    assert ChangedOnlyAt(e.SetIn(dg, Sealing).sets, e.SetIn(dg, Sealed).sets, id);
  }

  lemma SealingEnters(dg: Digester, intents: Intents, released: Uuid -> bool, e: Ending)
    requires e.b.Valid()
    ensures Enter(dg, e.b.AppendedState(dg), intents, released, OpBeginSealing(e.b.identity.setId), 0)
         == Some(e.SetIn(dg, Sealing))
  {
    var set1 := e.b.AppendedSet(dg);
    assert set1.checkpoints[0].desc.ordinal == 1;
    assert Enter(dg, e.b.AppendedState(dg), intents, released, OpBeginSealing(e.b.identity.setId), 0).value.sets
        == e.SetIn(dg, Sealing).sets;
  }

  lemma SealingPasses(rules: Rules, g: WitnessHead, e: Ending, intents: Intents)
    requires IsGenesis(g) && e.Admissible(rules, g)
    ensures Wired(rules).check(e.b.AppendHead(rules, g), e.BeginSealing(rules, g))
    ensures var database := [e.b.InitEntry(g), e.b.StartEntry(rules, g), e.b.AppendEntry(rules, g)];
            Wired(rules).enters(e.b.AppendedState(rules.dg), intents, database, e.BeginSealing(rules, g))
            == Some(e.SetIn(rules.dg, Sealing))
  {
    var database := [e.b.InitEntry(g), e.b.StartEntry(rules, g), e.b.AppendEntry(rules, g)];
    SealingApplies(rules.dg, e);
    SealingEnters(rules.dg, intents, rules.released, e);
    assert ChecksOut(rules, e.b.AppendHead(rules, g), e.BeginSealing(rules, g));
    assert Enters(rules, e.b.AppendedState(rules.dg), intents, database, e.BeginSealing(rules, g))
        == Some(e.SetIn(rules.dg, Sealing));
  }

  lemma SealPasses(rules: Rules, g: WitnessHead, e: Ending)
    requires IsGenesis(g) && e.Admissible(rules, g)
    ensures ChecksOut(rules, e.SealingHead(rules, g), e.Seal(rules, g))
  {
    SealingApplies(rules.dg, e);
  }

  // ----- the installation as it goes

  /** Process 3 reserves the second append and dies. */
  lemma DeathReaches(rules: Rules, g: WitnessHead, e: Ending) returns (w: Installation)
    requires IsGenesis(g) && e.Admissible(rules, g)
    ensures var database := [e.b.InitEntry(g), e.b.StartEntry(rules, g), e.b.AppendEntry(rules, g)];
            Level(rules, g, w, 4, e.b.AppendHead(rules, g), database, e.b.AppendedState(rules.dg))
    ensures w.things.intents == map[e.next.objectId := e.Lost(rules.dg).Row(3)]
  {
    var before := CommitReaches(rules, g, e.b);
    var task := e.Lost(rules.dg);
    LostCanAppend(rules.dg, before, e);
    AppendReserves(Wired(rules), before, 3, task);
    var steps := [Spawn(3, task)] + [Reserve(3)];
    var u := AppendReserved(before, 3, task);
    w := To(u, 3, Stopped);
    Next(Wired(rules), before, steps, u, Crash(3), w);
    ReachedOn(rules, g, before, steps + [Crash(3)], w);
  }

  lemma LostCanAppend(dg: Digester, w: Installation, e: Ending)
    requires e.next.Valid() && e.Lost(dg).Reservation().Valid()
    requires w.ledger.tables == e.b.AppendedState(dg) && w.things.intents == map[]
    ensures CanAppend(w, e.Lost(dg))
  {
  }

  /** Process 4 begins to seal the set. */
  lemma SealingReaches(rules: Rules, g: WitnessHead, e: Ending) returns (w: Installation)
    requires IsGenesis(g) && e.Admissible(rules, g)
    ensures Reached(rules, g, w) && 5 !in w.processes && w.ledger.head == e.SealingHead(rules, g)
    ensures |w.ledger.log| == |w.ledger.database| && PendingOn(w.things.intents, e.b.identity.setId)
  {
    var before := DeathReaches(rules, g, e);
    var task := e.BeginSealing(rules, g);
    var steps;
    SealingPasses(rules, g, e, before.things.intents);
    steps, w := BareCommits(Wired(rules), before, 4, task, e.SetIn(rules.dg, Sealing));
    ReachedOn(rules, g, before, steps, w);
    assert w.things.intents[e.next.objectId].setId == e.b.identity.setId;
  }

  /** Any genesis: a set is started and its base chunk appended, a second append reserves and its process dies, sealing
      begins and is committed, and the seal advances the witness. Its process waits to commit; the database never grows
      again, whatever processes and reconciliations follow. */
  lemma FirstSealStalls(rules: Rules, g: WitnessHead, e: Ending) returns (v: Installation)
    requires IsGenesis(g) && e.Admissible(rules, g)
    ensures Reached(rules, g, v) && Awaited(Wired(rules), v, 5)
    ensures forall ms :: !Grows(rules, v, ms)
  {
    var w := SealingReaches(rules, g, e);
    var steps;
    SealPasses(rules, g, e);
    steps, v := SealStalls(rules, g, w, e.b.identity.setId, 5, 0, e.SealEntry(rules, g));
    ReachedOn(rules, g, w, steps, v);
  }
}
