/** How every installation can begin: it is initialized, a set is started, and its base chunk appended. */
module ArchiveBeginning {
  import opened Bytes
  import opened Wrappers
  import opened Archive
  import opened ArchiveSuccessors
  import opened ArchiveTables
  import opened SafetyWitness
  import opened ArchiveProtocol
  import opened ArchiveProtocolLosses
  import opened ArchiveAuthority

  /** An entry that follows a head, under its generation and epoch, with another archive. */
  function Following(head: WitnessHead, request: Uuid, kind: Kind, archive: State): Entry
    requires head.sequence < U64_MAX
  {
    Entry(head.identity, request, head.sequence + 1, head.chain, kind, head.generation, head.epoch,
          head.state.(archive := archive))
  }

  /** It differs from the entries before it in request and digest. */
  predicate Distinct(rules: Rules, before: seq<Entry>, e: Entry) {
    forall i :: 0 <= i < |before| ==>
      before[i].request != e.request && rules.entryDigest(before[i]) != rules.entryDigest(e)
  }

  /** Any process that carries it can have it witnessed, and the database has room for it. */
  predicate Acceptable(rules: Rules, before: seq<Entry>, e: Entry) {
    rules.verifies(e) && Distinct(rules, before, e) && e.epoch <= I64_MAX
  }

  datatype Beginning = Beginning(identity: Identity, chunk: Descriptor, requests: (Uuid, Uuid, Uuid)) {
    predicate Valid() {
      chunk.Valid() && chunk.setId == identity.setId && chunk.kind.BaseChunk? && chunk.ordinal == 1
    }

    function Head(): ArchiveHead { ArchiveHead(0, chunk.predecessor) }

    function StartedSet(): BackupSet {
      BackupSet(identity, Streaming, false, None, None, Head(), [], map[])
    }

    function StartedState(): State { State(map[identity.setId := StartedSet()]) }

    function AppendedSet(dg: Digester): BackupSet {
      var c := Checkpoint(chunk);
      StartedSet().(head := ArchiveHead(1, dg(c)), checkpoints := [c])
    }

    function AppendedState(dg: Digester): State { State(map[identity.setId := AppendedSet(dg)]) }

    /** The pending row of the chunk. */
    function Rows(p: nat): Intents {
      map[chunk.objectId := Intent(identity.setId, chunk.ordinal, Head().digest, chunk.ciphertextDigest, p)]
    }

    function InitEntry(g: WitnessHead): Entry
      requires IsGenesis(g)
    {
      Following(g, requests.0, InstallationInitialized, EMPTY)
    }

    function InitHead(rules: Rules, g: WitnessHead): WitnessHead
      requires IsGenesis(g)
    {
      Advanced(rules.entryDigest, g, InitEntry(g))
    }

    function StartEntry(rules: Rules, g: WitnessHead): Entry
      requires IsGenesis(g)
    {
      Following(InitHead(rules, g), requests.1, ArchiveEvent(Started), StartedState())
    }

    function StartHead(rules: Rules, g: WitnessHead): WitnessHead
      requires IsGenesis(g)
    {
      Advanced(rules.entryDigest, InitHead(rules, g), StartEntry(rules, g))
    }

    function AppendEntry(rules: Rules, g: WitnessHead): Entry
      requires IsGenesis(g)
    {
      Following(StartHead(rules, g), requests.2, ArchiveEvent(Checkpointed), AppendedState(rules.dg))
    }

    function AppendHead(rules: Rules, g: WitnessHead): WitnessHead
      requires IsGenesis(g)
    {
      Advanced(rules.entryDigest, StartHead(rules, g), AppendEntry(rules, g))
    }

    /** The three entries are signed and the database has room for them; the set is for this installation. */
    predicate Admissible(rules: Rules, g: WitnessHead)
      requires IsGenesis(g)
    {
      && Valid() && ColumnsFit(chunk)
      && identity.installationId == rules.installation(g.identity) && identity.generationId == g.generation
      && rules.othersStore([], InitEntry(g))
      && Acceptable(rules, [], InitEntry(g))
      && Acceptable(rules, [InitEntry(g)], StartEntry(rules, g))
      && Acceptable(rules, [InitEntry(g), StartEntry(rules, g)], AppendEntry(rules, g))
    }

    function Init(g: WitnessHead): Task<Entry>
      requires IsGenesis(g)
    {
      OtherTask(InitEntry(g))
    }

    function Start(rules: Rules, g: WitnessHead): Task<Entry>
      requires IsGenesis(g)
    {
      StartTask(identity, Head(), StartEntry(rules, g))
    }

    function Append(rules: Rules, g: WitnessHead): Task<Entry>
      requires IsGenesis(g)
    {
      AppendTask(identity.setId, Head(), chunk, AppendEntry(rules, g))
    }
  }

  // ----- each entry passes its checks

  lemma StartApplies(dg: Digester, b: Beginning)
    requires b.Valid()
    ensures Apply(dg, EMPTY, OpStart(b.identity, b.Head())) == Ok(b.StartedState())
    ensures Accepts(dg, Started, EMPTY, b.StartedState())
  {
    assert AddedOnly(EMPTY.sets, b.StartedState().sets, b.identity.setId);
  }

  lemma AppendApplies(dg: Digester, b: Beginning)
    requires b.Valid()
    ensures var op := OpCommit(Reservation(b.identity.setId, b.Head(), b.chunk), Checkpoint(b.chunk));
            Apply(dg, b.StartedState(), op) == Ok(b.AppendedState(dg))
    ensures Accepts(dg, Checkpointed, b.StartedState(), b.AppendedState(dg))
  {
    var c := Checkpoint(b.chunk);
    var op := OpCommit(Reservation(b.identity.setId, b.Head(), b.chunk), c);
    assert [] + [c] == [c];
    assert Apply(dg, b.StartedState(), op).value.sets == b.AppendedState(dg).sets;
    assert ChangedOnlyAt(b.StartedState().sets, b.AppendedState(dg).sets, b.identity.setId);
  }

  lemma StartEnters(dg: Digester, released: Uuid -> bool, b: Beginning)
    requires b.Valid()
    ensures Enter(dg, EMPTY, map[], released, OpStart(b.identity, b.Head()), 0) == Some(b.StartedState())
  {
  }

  lemma AppendEnters(dg: Digester, released: Uuid -> bool, b: Beginning, p: nat)
    requires b.Valid() && ColumnsFit(b.chunk)
    ensures var op := OpCommit(Reservation(b.identity.setId, b.Head(), b.chunk), Checkpoint(b.chunk));
            Enter(dg, b.StartedState(), b.Rows(p), released, op, 0) == Some(b.AppendedState(dg))
  {
    var c := Checkpoint(b.chunk);
    var op := OpCommit(Reservation(b.identity.setId, b.Head(), b.chunk), c);
    assert [] + [c] == [c];
    assert Enter(dg, b.StartedState(), b.Rows(p), released, op, 0).value.sets == b.AppendedState(dg).sets;
  }

  lemma InitPasses(rules: Rules, g: WitnessHead, b: Beginning)
    requires IsGenesis(g) && b.Admissible(rules, g)
    ensures Wired(rules).check(g, b.Init(g))
    ensures Wired(rules).enters(EMPTY, map[], [], b.Init(g)) == Some(EMPTY)
  {
    assert ChecksOut(rules, g, b.Init(g));
    assert Enters(rules, EMPTY, map[], [], b.Init(g)) == Some(EMPTY);
  }

  lemma StartPasses(rules: Rules, g: WitnessHead, b: Beginning)
    requires IsGenesis(g) && b.Admissible(rules, g)
    ensures Wired(rules).check(b.InitHead(rules, g), b.Start(rules, g))
    ensures Wired(rules).enters(EMPTY, map[], [b.InitEntry(g)], b.Start(rules, g)) == Some(b.StartedState())
  {
    StartApplies(rules.dg, b);
    StartEnters(rules.dg, rules.released, b);
    assert ChecksOut(rules, b.InitHead(rules, g), b.Start(rules, g));
    assert Enters(rules, EMPTY, map[], [b.InitEntry(g)], b.Start(rules, g)) == Some(b.StartedState());
  }

  lemma AppendPasses(rules: Rules, g: WitnessHead, b: Beginning)
    requires IsGenesis(g) && b.Admissible(rules, g)
    ensures Wired(rules).check(b.StartHead(rules, g), b.Append(rules, g))
    ensures var database := [b.InitEntry(g), b.StartEntry(rules, g)];
            Wired(rules).enters(b.StartedState(), b.Rows(2), database, b.Append(rules, g))
            == Some(b.AppendedState(rules.dg))
  {
    var database := [b.InitEntry(g), b.StartEntry(rules, g)];
    AppendApplies(rules.dg, b);
    AppendEnters(rules.dg, rules.released, b, 2);
    assert ChecksOut(rules, b.StartHead(rules, g), b.Append(rules, g));
    assert Enters(rules, b.StartedState(), b.Rows(2), database, b.Append(rules, g)) == Some(b.AppendedState(rules.dg));
  }

  // ----- the installation as it goes

  /** A reachable installation with processes 0 to n - 1, whose database is level with its witness. */
  ghost predicate Level(rules: Rules, g: WitnessHead, w: Installation, n: nat, head: WitnessHead, database: seq<Entry>,
                        tables: State) {
    && Reached(rules, g, w)
    && (forall p :: n <= p ==> p !in w.processes)
    && w.ledger.head == head && w.ledger.database == database && |w.ledger.log| == |database|
    && w.ledger.tables == tables
  }

  /** Process 0 initializes the installation. */
  lemma InitReaches(rules: Rules, g: WitnessHead, b: Beginning) returns (w: Installation)
    requires IsGenesis(g) && b.Admissible(rules, g)
    ensures Level(rules, g, w, 1, b.InitHead(rules, g), [b.InitEntry(g)], EMPTY)
    ensures w.things == Things(map[], map[], map[])
  {
    var steps;
    InitPasses(rules, g, b);
    steps, w := BareCommits(Wired(rules), Genesis(g), 0, b.Init(g), EMPTY);
  }

  /** Process 1 starts the set. */
  lemma StartReaches(rules: Rules, g: WitnessHead, b: Beginning) returns (w: Installation)
    requires IsGenesis(g) && b.Admissible(rules, g)
    ensures var database := [b.InitEntry(g), b.StartEntry(rules, g)];
            Level(rules, g, w, 2, b.StartHead(rules, g), database, b.StartedState())
    ensures w.things.intents == map[] && w.things.staging == map[]
  {
    var before := InitReaches(rules, g, b);
    var task := b.Start(rules, g);
    var u := StartChecked(before, 1, task);
    StartPasses(rules, g, b);
    var steps := StartGetsReady(Wired(rules), before, 1, task);
    var more := Commits(Wired(rules), u, 1, b.StartedState());
    Then(Wired(rules), before, steps, u, more);
    w := Entered(Carried(Wired(rules), u, 1), 1, b.StartedState());
    ReachedOn(rules, g, before, steps + more, w);
  }

  /** Process 2 stands before the journal with the base chunk. */
  lemma ChunkReaches(rules: Rules, g: WitnessHead, b: Beginning) returns (w: Installation)
    requires IsGenesis(g) && b.Admissible(rules, g)
    ensures var database := [b.InitEntry(g), b.StartEntry(rules, g)];
            Level(rules, g, w, 3, b.StartHead(rules, g), database, b.StartedState())
    ensures 2 in w.processes && w.processes[2] == Process(b.Append(rules, g), Checked(b.StartHead(rules, g)))
    ensures w.things.intents == b.Rows(2)
  {
    var before := StartReaches(rules, g, b);
    var task := b.Append(rules, g);
    AppendPasses(rules, g, b);
    ChunkCanAppend(before, b, task);
    var steps := AppendGetsReady(Wired(rules), before, 2, task);
    w := AppendChecked(before, 2, task);
    ReachedOn(rules, g, before, steps, w);
  }

  lemma ChunkCanAppend(w: Installation, b: Beginning, task: Task<Entry>)
    requires b.Valid() && task.AppendTask? && task.setId == b.identity.setId && task.expected == b.Head()
    requires task.desc == b.chunk && w.ledger.tables == b.StartedState() && w.things.intents == map[]
    ensures CanAppend(w, task)
  {
  }

  /** Process 2 commits it. */
  lemma CommitReaches(rules: Rules, g: WitnessHead, b: Beginning) returns (w: Installation)
    requires IsGenesis(g) && b.Admissible(rules, g)
    ensures var database := [b.InitEntry(g), b.StartEntry(rules, g), b.AppendEntry(rules, g)];
            Level(rules, g, w, 3, b.AppendHead(rules, g), database, b.AppendedState(rules.dg))
    ensures w.things.intents == map[]
  {
    var before := ChunkReaches(rules, g, b);
    AppendPasses(rules, g, b);
    var steps := Commits(Wired(rules), before, 2, b.AppendedState(rules.dg));
    w := Entered(Carried(Wired(rules), before, 2), 2, b.AppendedState(rules.dg));
    ReachedOn(rules, g, before, steps, w);
  }
}
