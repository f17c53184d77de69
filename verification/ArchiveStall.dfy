/** Whether an installation's database can ever catch up with its witness. */
module ArchiveStall {
  import opened Bytes
  import opened Wrappers
  import opened Archive
  import ArchiveRuns
  import opened ArchiveTables
  import opened SafetyWitness
  import opened ArchiveProtocol
  import opened ArchiveProtocolSafety
  import opened ArchiveProtocolCleanup
  import opened ArchiveProtocolStall
  import opened ArchiveAuthority
  import opened ArchiveMirror
  import opened ArchiveReconciliation

  // ----- no two processes are awaited

  lemma {:induction false} ExecuteKeepsOneEach(
    wires: Wires<WitnessHead, Entry>, g: WitnessHead, w: Installation, steps: seq<Step<Entry>>, v: Installation)
    requires AuthorityInv(wires, g, w) && OneEach(wires, w) && Execute(wires, w, steps) == Some(v)
    ensures OneEach(wires, v)
    decreases |steps|
  {
    if steps != [] {
      var next := Act(wires, w, steps[0]).value;
      AuthorityKept(wires, g, w, steps[0], next);
      OneEachKept(wires, g, w, steps[0], next);
      ExecuteKeepsOneEach(wires, g, next, steps[1..], v);
    }
  }

  lemma ReachedKeepsOneEach(rules: Rules, g: WitnessHead, w: Installation)
    requires IsGenesis(g) && Reached(rules, g, w)
    ensures OneEach(Wired(rules), w)
  {
    var steps: seq<Step<Entry>> :| Execute(Wired(rules), Genesis(g), steps) == Some(w);
    ReachedKeeps(rules, g, Genesis(g)) by { assert Execute(Wired(rules), Genesis(g), []) == Some(Genesis(g)); }
    ExecuteKeepsOneEach(Wired(rules), g, Genesis(g), steps, w);
  }

  // ----- what may stand in the way of a witnessed command

  /** Nothing that lasts stands between a command and its procedure. */
  ghost predicate ClearTask(rules: Rules, t: State, intents: Intents, database: seq<Entry>, task: Task<Entry>) {
    && Storable(rules, database, task.entry)
    && match task.Operation()
       case None => !task.entry.kind.ArchiveEvent?
       case Some(op) => NamesAuthority(rules, task.entry, op) && Clear(t, intents, rules.released, op, task.Named())
  }

  /** For a command that passed its checks on the archive in the tables, only an append's row is asked besides. */
  lemma CheckedEntersIff(rules: Rules, head: WitnessHead, task: Task<Entry>, intents: Intents, database: seq<Entry>)
    requires ArchiveRuns.Inv(rules.dg, head.state.archive) && ChecksOut(rules, head, task) && Reserves(task)
    ensures Enters(rules, head.state.archive, intents, database, task).Some? <==>
            ClearTask(rules, head.state.archive, intents, database, task)
            && (task.AppendTask? ==> Filed(intents, task.Reservation()))
  {
    if !task.OtherTask? {
      var op := task.Operation().value;
      CheckedFits(rules, head, task);
      EntersIff(rules.dg, head.state.archive, intents, rules.released, op, task.Named());
      if task.AppendTask? {
        CheckpointKindForced(rules, head, task.entry, task.Reservation());
      }
    }
  }

  ghost predicate IsClear(rules: Rules, w: Installation, p: nat)
    requires p in w.processes
  {
    ClearTask(rules, w.ledger.tables, w.things.intents, w.ledger.database, w.processes[p].task)
  }

  /** The entry an awaited process carries was accepted on what the tables hold. */
  lemma AwaitedIsChecked(rules: Rules, g: WitnessHead, w: Installation, p: nat) returns (seen: WitnessHead)
    requires Sound(rules, g, w) && Awaited(Wired(rules), w, p)
    ensures |w.ledger.database| < |w.ledger.log|
    ensures w.ledger.log[|w.ledger.database|] == Record(seen, w.processes[p].task)
    ensures seen.state.archive == w.ledger.tables && ChecksOut(rules, seen, w.processes[p].task)
    ensures Reserves(w.processes[p].task)
  {
    assert w.processes[p].task.entry.sequence == |w.ledger.database| + 1;
    SeenIsCommitted(rules, g, w);
    seen := w.ledger.log[|w.ledger.database|].seen;
  }

  lemma AwaitedLetsIff(rules: Rules, g: WitnessHead, w: Installation, p: nat)
    requires Sound(rules, g, w) && Awaited(Wired(rules), w, p)
    ensures var task := w.processes[p].task;
            Lets(Wired(rules), w, p) <==>
            IsClear(rules, w, p) && (task.AppendTask? ==> Filed(w.things.intents, task.Reservation()))
  {
    var seen := AwaitedIsChecked(rules, g, w, p);
    CheckedEntersIff(rules, seen, w.processes[p].task, w.things.intents, w.ledger.database);
  }

  // ----- processes alone

  /** Whoever could commit the next entry is refused for good. */
  ghost predicate Obstructed(rules: Rules, w: Installation) {
    && |w.ledger.database| < |w.ledger.log|
    && forall p :: Awaited(Wired(rules), w, p) ==> !IsClear(rules, w, p)
  }

  lemma StepSound(rules: Rules, g: WitnessHead, w: Installation, s: Step<Entry>, w': Installation)
    requires Sound(rules, g, w) && Act(Wired(rules), w, s) == Some(w')
    ensures Sound(rules, g, w')
  {
    AuthorityKept(Wired(rules), g, w, s, w');
    TablesKept(rules, g, w, s, w');
  }

  lemma ClearTaskBack(rules: Rules, t: State, intents: Intents, intents': Intents, database: seq<Entry>,
                      task: Task<Entry>)
    requires ClosedRowsKept(t, intents, intents') && ClearTask(rules, t, intents', database, task)
    ensures ClearTask(rules, t, intents, database, task)
  {
    if task.Operation().Some? {
      ClearBack(t, intents, intents', rules.released, task.Operation().value, task.Named());
    }
  }

  lemma ObstructedStands(rules: Rules, g: WitnessHead, w: Installation, s: Step<Entry>, w': Installation)
    requires Sound(rules, g, w) && Obstructed(rules, w) && Act(Wired(rules), w, s) == Some(w')
    ensures w'.ledger.database == w.ledger.database
  {
    ActCommits(Wired(rules), w, s, w');
    if w'.ledger.database != w.ledger.database {
      AwaitedLetsIff(rules, g, w, s.p);
      assert false;
    }
  }

  lemma ObstructedKept(rules: Rules, g: WitnessHead, w: Installation, s: Step<Entry>, w': Installation)
    requires Sound(rules, g, w) && Obstructed(rules, w) && Act(Wired(rules), w, s) == Some(w')
    requires w'.ledger.database == w.ledger.database
    ensures Obstructed(rules, w')
  {
    ActWitnesses(Wired(rules), w, s, w');
    ClosedRowsStay(Wired(rules), w, s, w');
    forall p | Awaited(Wired(rules), w', p) ensures !IsClear(rules, w', p) {
      AwaitedBefore(Wired(rules), g, w, s, w', p);
      if IsClear(rules, w', p) {
        ClearTaskBack(rules, w.ledger.tables, w.things.intents, w'.things.intents, w.ledger.database,
                      w.processes[p].task);
        assert false;
      }
    }
  }

  lemma {:induction false} ObstructedForGood(rules: Rules, g: WitnessHead, x: Watch, ms: seq<Move>, y: Watch)
    requires Sound(rules, g, x.w) && Obstructed(rules, x.w) && Unaided(ms) && MakeAll(rules, x, ms) == Some(y)
    ensures y.w.ledger.database == x.w.ledger.database
    decreases |ms|
  {
    if ms != [] {
      var next := Make(rules, x, ms[0]).value;
      StepSound(rules, g, x.w, ms[0].step, next.w);
      ObstructedStands(rules, g, x.w, ms[0].step, next.w);
      ObstructedKept(rules, g, x.w, ms[0].step, next.w);
      ObstructedForGood(rules, g, next, ms[1..], y);
    }
  }

  lemma NeverGrowsUnaided(rules: Rules, g: WitnessHead, w: Installation)
    requires Sound(rules, g, w) && Obstructed(rules, w)
    ensures forall ms :: Unaided(ms) ==> !Grows(rules, w, ms)
  {
    forall ms | Unaided(ms) ensures !Grows(rules, w, ms) {
      var x := Watch(w, false, {});
      if MakeAll(rules, x, ms).Some? {
        ObstructedForGood(rules, g, x, ms, MakeAll(rules, x, ms).value);
      }
    }
  }

  lemma AwaitedGrows(rules: Rules, g: WitnessHead, w: Installation, p: nat)
    requires Sound(rules, g, w) && CleanupInv(w) && Awaited(Wired(rules), w, p) && IsClear(rules, w, p)
    ensures Grows(rules, w, [Ordinary(Commit(p, true))])
  {
    assert Owns(w.things.keys, w.things.intents, w.things.staging, p, w.processes[p]);
    AwaitedLetsIff(rules, g, w, p);
    var v := AwaitedCommitsIff(Wired(rules), g, w, p);
    OneStepGrows(rules, w, Commit(p, true), v);
  }

  lemma OneStepGrows(rules: Rules, w: Installation, s: Step<Entry>, v: Installation)
    requires Act(Wired(rules), w, s) == Some(v) && |v.ledger.database| > |w.ledger.database|
    ensures Grows(rules, w, [Ordinary(s)])
  {
    var x := Watch(w, false, {});
    assert Make(rules, x, Ordinary(s)) == Some(x.(w := v)) && [Ordinary(s)][1..] == [];
    assert MakeAll(rules, x.(w := v), []) == Some(x.(w := v));
  }

  /** While the witness is ahead, processes alone can add to the database if and only if the process that advanced the
      witness by the next entry is still there to commit it and nothing that lasts stands in its way. */
  lemma CatchesUpIff(rules: Rules, g: WitnessHead, w: Installation)
    requires IsGenesis(g) && Reached(rules, g, w) && |w.ledger.database| < |w.ledger.log|
    ensures (exists ms :: Unaided(ms) && Grows(rules, w, ms)) <==>
            exists p :: Awaited(Wired(rules), w, p) && IsClear(rules, w, p)
  {
    ReachedMirrors(rules, g, w);
    if p :| Awaited(Wired(rules), w, p) && IsClear(rules, w, p) {
      AwaitedGrows(rules, g, w, p);
      assert Unaided([Ordinary(Commit(p, true))]);
    } else {
      NeverGrowsUnaided(rules, g, w);
    }
  }

  /** Once that process leaves its phase without having committed, no step of any process ever adds to the database. */
  lemma LostCommitterStalls(rules: Rules, g: WitnessHead, w: Installation, p: nat, s: Step<Entry>, w': Installation)
    requires IsGenesis(g) && Reached(rules, g, w) && Awaited(Wired(rules), w, p) && Act(Wired(rules), w, s) == Some(w')
    requires w'.ledger.database == w.ledger.database && !Awaited(Wired(rules), w', p)
    ensures forall ms :: Unaided(ms) ==> !Grows(rules, w', ms)
  {
    ReachedSound(rules, g, w);
    ReachedKeepsOneEach(rules, g, w);
    StepSound(rules, g, w, s, w');
    LosingItStalls(Wired(rules), g, w, p, s, w');
    NeverGrowsUnaided(rules, g, w');
  }

  // ----- the supervisor alone

  /** What the database waits for has not been read and cannot be, or cannot be persisted. */
  ghost predicate OutOfReach(rules: Rules, x: Watch) {
    || !Behind(x.w)
    || !Replayable(rules, x.w)
    || (Due(x.w) !in x.held && (!OneBehind(x.w) || (Jammed(x.w) && !x.swept)))
  }

  lemma ReadKeepsOutOfReach(rules: Rules, g: WitnessHead, x: Watch, y: Watch)
    requires Sound(rules, g, x.w) && HeldOk(x) && OutOfReach(rules, x) && Make(rules, x, Read) == Some(y)
    ensures HeldOk(y) && OutOfReach(rules, y)
  {
    EntriesNumbered(rules, g, x.w);
    ReadHeld(x);
  }

  lemma SweepKeepsReach(rules: Rules, x: Watch)
    requires HeldOk(x) && OutOfReach(rules, x) && Sweepable(x.w) && !Jammed(x.w)
    ensures var y := x.(w := Swept(x.w), swept := true);
            HeldOk(y) && OutOfReach(rules, y)
  {
    if Behind(x.w) && Replayable(rules, Swept(x.w)) {
      ReplayableBack(rules, x.w);
    }
  }

  lemma SweepKeepsOutOfReach(rules: Rules, g: WitnessHead, x: Watch, y: Watch)
    requires Sound(rules, g, x.w) && HeldOk(x) && OutOfReach(rules, x) && Make(rules, x, Sweep) == Some(y)
    ensures Sound(rules, g, y.w) && HeldOk(y) && OutOfReach(rules, y) && y.w.ledger == x.w.ledger
  {
    if Sweepable(x.w) {
      SweptSound(rules, g, x.w);
      SweepableIff(x.w);
      SweepKeepsReach(rules, x);
    }
  }

  lemma PersistMissesOutOfReach(rules: Rules, g: WitnessHead, x: Watch, e: Entry, y: Watch)
    requires Sound(rules, g, x.w) && HeldOk(x) && OutOfReach(rules, x) && Make(rules, x, Persist(e)) == Some(y)
    ensures y == x
  {
    if Replayed(rules, x.w, e).Some? {
      PersistsOnlyDue(rules, g, x, e);
      assert false;
    }
  }

  lemma OutOfReachKept(rules: Rules, g: WitnessHead, x: Watch, m: Move, y: Watch)
    requires Sound(rules, g, x.w) && HeldOk(x) && OutOfReach(rules, x) && !m.Ordinary? && Make(rules, x, m) == Some(y)
    ensures Sound(rules, g, y.w) && HeldOk(y) && OutOfReach(rules, y)
    ensures y.w.ledger.database == x.w.ledger.database
  {
    match m
    case Sweep => SweepKeepsOutOfReach(rules, g, x, y);
    case Read => ReadKeepsOutOfReach(rules, g, x, y);
    case Persist(e) => PersistMissesOutOfReach(rules, g, x, e, y);
  }

  lemma {:induction false} OutOfReachForGood(rules: Rules, g: WitnessHead, x: Watch, ms: seq<Move>, y: Watch)
    requires Sound(rules, g, x.w) && HeldOk(x) && OutOfReach(rules, x) && Supervised(ms)
    requires MakeAll(rules, x, ms) == Some(y)
    ensures y.w.ledger.database == x.w.ledger.database
    decreases |ms|
  {
    if ms != [] {
      var next := Make(rules, x, ms[0]).value;
      OutOfReachKept(rules, g, x, ms[0], next);
      OutOfReachForGood(rules, g, next, ms[1..], y);
    }
  }

  lemma NeverReconciled(rules: Rules, g: WitnessHead, w: Installation)
    requires Sound(rules, g, w) && !Recoverable(rules, w)
    ensures forall ms :: Supervised(ms) ==> !Grows(rules, w, ms)
  {
    forall ms | Supervised(ms) ensures !Grows(rules, w, ms) {
      var x := Watch(w, false, {});
      if MakeAll(rules, x, ms).Some? {
        OutOfReachForGood(rules, g, x, ms, MakeAll(rules, x, ms).value);
      }
    }
  }

  lemma RecoverableReplays(rules: Rules, g: WitnessHead, w: Installation)
    requires Sound(rules, g, w) && Recoverable(rules, w)
    ensures Sweepable(w) && Replayed(rules, Swept(w), Last(w)).Some?
  {
    SweepableIff(w);
    SweptSound(rules, g, w);
    ReplayableSwept(rules, g, w);
    ReplaysIff(rules, g, Swept(w));
  }

  lemma ReplayGrows(rules: Rules, w: Installation)
    requires Sweepable(w) && w.ledger.log != [] && Replayed(rules, Swept(w), Last(w)).Some?
    ensures Grows(rules, w, [Sweep, Read, Persist(Last(w))])
  {
    var v, e := Swept(w), Last(w);
    assert {} + {e} == {e};
    ThreeMoves(rules, Watch(w, false, {}), Sweep, Watch(v, true, {}), Read, Watch(v, true, {e}), Persist(e),
               Watch(Replayed(rules, v, e).value, true, {e}));
  }

  lemma ThreeMoves(rules: Rules, x0: Watch, m0: Move, x1: Watch, m1: Move, x2: Watch, m2: Move, x3: Watch)
    requires Make(rules, x0, m0) == Some(x1) && Make(rules, x1, m1) == Some(x2) && Make(rules, x2, m2) == Some(x3)
    ensures MakeAll(rules, x0, [m0, m1, m2]) == Some(x3)
  {
    assert [m0, m1, m2][1..] == [m1, m2] && [m1, m2][1..] == [m2] && [m2][1..] == [];
    assert MakeAll(rules, x3, []) == Some(x3);
    assert MakeAll(rules, x2, [m2]) == Some(x3);
    assert MakeAll(rules, x1, [m1, m2]) == Some(x3);
  }

  /** The supervisor alone can add to the database, by any number of reconciliations, if and only if the present entry
      is recoverable. */
  lemma ReconciliationHelpsIff(rules: Rules, g: WitnessHead, w: Installation)
    requires IsGenesis(g) && Reached(rules, g, w)
    ensures (exists ms :: Supervised(ms) && Grows(rules, w, ms)) <==> Recoverable(rules, w)
  {
    ReachedSound(rules, g, w);
    if Recoverable(rules, w) {
      RecoverableReplays(rules, g, w);
      ReplayGrows(rules, w);
      assert Supervised([Sweep, Read, Persist(Last(w))]);
    } else {
      NeverReconciled(rules, g, w);
    }
  }

  // ----- both together

  /** Nothing that lasts stands between the next entry and its procedure. */
  ghost predicate ClearEntry(rules: Rules, w: Installation)
    requires Behind(w)
  {
    var e := Due(w);
    && Storable(rules, w.ledger.database, e)
    && (e.kind.ArchiveEvent? ==>
          exists op: Op ::
            && Derives(w.ledger.tables, e.state.archive, e.kind.event, op) && NamesAuthority(rules, e, op)
            && Clear(w.ledger.tables, w.things.intents, rules.released, op, NamedIn(e.state.archive, op)))
  }

  /** Reconciliation has nothing to go by, or is stopped or refused for good. */
  ghost predicate Beyond(rules: Rules, x: Watch)
    requires Behind(x.w)
  {
    !ClearEntry(rules, x.w) || (Due(x.w) !in x.held && (!OneBehind(x.w) || (Jammed(x.w) && !x.swept)))
  }

  /** The next entry is refused to every process and to every reconciliation. */
  ghost predicate Hopeless(rules: Rules, x: Watch) {
    Obstructed(rules, x.w) && Beyond(rules, x)
  }

  lemma BeyondIsOutOfReach(rules: Rules, x: Watch)
    requires Behind(x.w) && Beyond(rules, x)
    ensures OutOfReach(rules, x)
  {
  }

  lemma ClearEntryBack(rules: Rules, w: Installation, w': Installation)
    requires Behind(w) && w.ledger.log <= w'.ledger.log && w'.ledger.database == w.ledger.database
    requires w'.ledger.tables == w.ledger.tables && ClearEntry(rules, w')
    requires ClosedRowsKept(w.ledger.tables, w.things.intents, w'.things.intents)
    ensures ClearEntry(rules, w)
  {
    var e := Due(w);
    if e.kind.ArchiveEvent? {
      var op: Op :|
        && Derives(w.ledger.tables, e.state.archive, e.kind.event, op) && NamesAuthority(rules, e, op)
        && Clear(w.ledger.tables, w'.things.intents, rules.released, op, NamedIn(e.state.archive, op));
      ClearBack(w.ledger.tables, w.things.intents, w'.things.intents, rules.released, op,
                NamedIn(e.state.archive, op));
    }
  }

  lemma StillJammed(w: Installation, w': Installation)
    requires Jammed(w) && w'.ledger.head == w.ledger.head && w'.ledger.tables == w.ledger.tables
    requires ClosedRowsKept(w.ledger.tables, w.things.intents, w'.things.intents)
    ensures Jammed(w')
  {
    var o: Uuid :|
      && o in w.things.intents && Current(w.ledger.head, w.things.intents[o])
      && OnClosedSet(w.ledger.tables, w.things.intents[o]);
    assert o in w'.things.intents && w'.things.intents[o] == w.things.intents[o];
  }

  lemma BeyondStays(rules: Rules, x: Watch, y: Watch)
    requires Behind(x.w) && Beyond(rules, x) && y.swept == x.swept && y.held == x.held
    requires x.w.ledger.log <= y.w.ledger.log && y.w.ledger.database == x.w.ledger.database
    requires y.w.ledger.tables == x.w.ledger.tables
    requires |y.w.ledger.log| == |x.w.ledger.log| ==> y.w.ledger.head == x.w.ledger.head
    requires ClosedRowsKept(x.w.ledger.tables, x.w.things.intents, y.w.things.intents)
    ensures Beyond(rules, y)
  {
    if Jammed(x.w) && OneBehind(y.w) {
      StillJammed(x.w, y.w);
    }
    if !ClearEntry(rules, x.w) && ClearEntry(rules, y.w) {
      ClearEntryBack(rules, x.w, y.w);
      assert false;
    }
  }

  lemma StepKeepsHopeless(rules: Rules, g: WitnessHead, x: Watch, s: Step<Entry>, w': Installation)
    requires Sound(rules, g, x.w) && HeldOk(x) && Hopeless(rules, x) && Act(Wired(rules), x.w, s) == Some(w')
    ensures w'.ledger.database == x.w.ledger.database
    ensures HeldOk(x.(w := w')) && Hopeless(rules, x.(w := w'))
  {
    ObstructedStands(rules, g, x.w, s, w');
    ObstructedKept(rules, g, x.w, s, w');
    StepKeepsBeyond(rules, x, s, w');
  }

  lemma StepKeepsBeyond(rules: Rules, x: Watch, s: Step<Entry>, w': Installation)
    requires Behind(x.w) && HeldOk(x) && Beyond(rules, x) && Act(Wired(rules), x.w, s) == Some(w')
    requires w'.ledger.database == x.w.ledger.database
    ensures Behind(w') && HeldOk(x.(w := w')) && Beyond(rules, x.(w := w'))
  {
    ActWitnesses(Wired(rules), x.w, s, w');
    ClosedRowsStay(Wired(rules), x.w, s, w');
    if |w'.ledger.log| == |x.w.ledger.log| {
      HeadMovesWithLog(Wired(rules), x.w, s, w');
    }
    BeyondStays(rules, x, x.(w := w'));
  }

  lemma ObstructedSwept(rules: Rules, w: Installation)
    requires Sweepable(w) && Obstructed(rules, w)
    ensures Obstructed(rules, Swept(w))
  {
    SweepKeepsClosed(w);
    forall p | Awaited(Wired(rules), Swept(w), p) ensures !IsClear(rules, Swept(w), p) {
      assert Awaited(Wired(rules), w, p);
      if IsClear(rules, Swept(w), p) {
        ClearTaskBack(rules, w.ledger.tables, w.things.intents, Swept(w).things.intents, w.ledger.database,
                      w.processes[p].task);
        assert false;
      }
    }
  }

  lemma SweepKeepsHopeless(rules: Rules, g: WitnessHead, x: Watch)
    requires Sound(rules, g, x.w) && HeldOk(x) && Hopeless(rules, x) && Sweepable(x.w)
    ensures var y := x.(w := Swept(x.w), swept := true);
            HeldOk(y) && Hopeless(rules, y)
  {
    var y := x.(w := Swept(x.w), swept := true);
    SweepableIff(x.w);
    SweepKeepsClosed(x.w);
    ObstructedSwept(rules, x.w);
    if !ClearEntry(rules, x.w) && ClearEntry(rules, y.w) {
      ClearEntryBack(rules, x.w, y.w);
      assert false;
    }
  }

  lemma ReadKeepsHopeless(rules: Rules, x: Watch, y: Watch)
    requires HeldOk(x) && Hopeless(rules, x) && Make(rules, x, Read) == Some(y)
    requires Last(x.w).sequence == |x.w.ledger.log| && Due(x.w).sequence == |x.w.ledger.database| + 1
    ensures HeldOk(y) && Hopeless(rules, y)
  {
    ReadHeld(x);
  }

  lemma HopelessKept(rules: Rules, g: WitnessHead, x: Watch, m: Move, y: Watch)
    requires Sound(rules, g, x.w) && HeldOk(x) && Hopeless(rules, x) && Make(rules, x, m) == Some(y)
    ensures y.w.ledger.database == x.w.ledger.database
    ensures Sound(rules, g, y.w) && HeldOk(y) && Hopeless(rules, y)
  {
    match m
    case Ordinary(s) =>
      StepSound(rules, g, x.w, s, y.w);
      StepKeepsHopeless(rules, g, x, s, y.w);
    case Sweep =>
      if Sweepable(x.w) {
        SweptSound(rules, g, x.w);
        SweepKeepsHopeless(rules, g, x);
      }
    case Read =>
      EntriesNumbered(rules, g, x.w);
      ReadKeepsHopeless(rules, x, y);
    case Persist(e) =>
      BeyondIsOutOfReach(rules, x);
      PersistMissesOutOfReach(rules, g, x, e, y);
  }

  lemma {:induction false} HopelessForGood(rules: Rules, g: WitnessHead, x: Watch, ms: seq<Move>, y: Watch)
    requires Sound(rules, g, x.w) && HeldOk(x) && Hopeless(rules, x) && MakeAll(rules, x, ms) == Some(y)
    ensures y.w.ledger.database == x.w.ledger.database
    decreases |ms|
  {
    if ms != [] {
      var next := Make(rules, x, ms[0]).value;
      HopelessKept(rules, g, x, ms[0], next);
      HopelessForGood(rules, g, next, ms[1..], y);
    }
  }

  /** Then no run of any processes, with steps of reconciliations anywhere in it, ever adds to the database. */
  lemma HopelessNeverGrows(rules: Rules, g: WitnessHead, w: Installation)
    requires IsGenesis(g) && Reached(rules, g, w) && Hopeless(rules, Watch(w, false, {}))
    ensures forall ms :: !Grows(rules, w, ms)
  {
    ReachedSound(rules, g, w);
    forall ms ensures !Grows(rules, w, ms) {
      var x := Watch(w, false, {});
      if MakeAll(rules, x, ms).Some? {
        HopelessForGood(rules, g, x, ms, MakeAll(rules, x, ms).value);
      }
    }
  }
}
