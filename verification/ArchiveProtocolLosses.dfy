/** Runs in which cleanup removes what belongs to a journalled entry: the two ways it can happen. */
module ArchiveProtocolLosses {
  import opened Bytes
  import opened Wrappers
  import opened Archive
  import opened ArchiveTables
  import opened ArchiveProtocol

  // ----- putting runs together

  /** Every journal append in the run was answered truthfully. */
  predicate Truthful<E>(steps: seq<Step<E>>) {
    forall k :: 0 <= k < |steps| ==> !(steps[k].AppendJournal? && steps[k].written.FailedAfterWriting?)
  }

  lemma Alone<H, E>(wires: Wires<H, E>, w: World<H, E>, s: Step<E>)
    requires Act(wires, w, s).Some?
    ensures Execute(wires, w, [s]) == Act(wires, w, s)
  {
    assert [s][1..] == [];
  }

  lemma {:induction false} Then<H, E>(wires: Wires<H, E>, w: World<H, E>, a: seq<Step<E>>, w': World<H, E>,
                                      b: seq<Step<E>>)
    requires Execute(wires, w, a) == Some(w')
    ensures Execute(wires, w, a + b) == Execute(wires, w', b)
    decreases |a|
  {
    if a == [] {
      assert a + b == b;
    } else {
      assert (a + b)[0] == a[0] && (a + b)[1..] == a[1..] + b;
      Then(wires, Act(wires, w, a[0]).value, a[1..], w', b);
    }
  }

  /** One more step. */
  lemma Next<H, E>(wires: Wires<H, E>, w: World<H, E>, a: seq<Step<E>>, w': World<H, E>, s: Step<E>, w'': World<H, E>)
    requires Execute(wires, w, a) == Some(w') && Act(wires, w', s) == Some(w'')
    ensures Execute(wires, w, a + [s]) == Some(w'')
  {
    Alone(wires, w', s);
    Then(wires, w, a, w', [s]);
  }

  // ----- a journal append that fails after writing

  /** A start that has passed its checks, with its key filed. */
  predicate StartReady<H, E>(w: World<H, E>, p: nat) {
    && p in w.processes && w.processes[p].task.StartTask? && w.processes[p].phase.Checked?
    && w.processes[p].task.identity.setId in w.things.keys
    && w.things.keys[w.processes[p].task.identity.setId] == p
  }

  /** An append that has passed its checks, with its intent reserved and its object staged. */
  predicate AppendReady<H, E>(w: World<H, E>, p: nat) {
    && p in w.processes && w.processes[p].task.AppendTask? && w.processes[p].phase.Checked?
    && HoldsAppend(w.things, p, w.processes[p].task)
  }

  predicate HoldsAppend<E>(t: Things, p: nat, task: Task<E>)
    requires task.AppendTask?
  {
    && task.desc.objectId in t.intents && t.intents[task.desc.objectId] == task.Row(p)
    && task.StagingName() in t.staging && t.staging[task.StagingName()] == task.Framed(p)
  }

  /** The database still shows the append's set streaming behind the head it expected. */
  predicate Stands<H, E>(w: World<H, E>, p: nat)
    requires p in w.processes && w.processes[p].task.AppendTask?
  {
    StandsAt(w.ledger.tables, w.processes[p].task.setId, w.processes[p].task.expected)
  }

  /** The key filed under the process's set is gone, removed by its own maker; the database is as it was. */
  ghost predicate UndidStart<H, E>(w: World<H, E>, p: nat, v: World<H, E>)
    requires p in w.processes && w.processes[p].task.StartTask?
  {
    && w.processes[p].task.identity.setId !in v.things.keys
    && v.trail.removals == w.trail.removals + [Removal(KeyEnvelope, p, p)]
    && v.ledger.database == w.ledger.database
  }

  /** Intent and staged object are gone, removed by their own maker; the database is as it was. */
  ghost predicate UndidAppend<H, E>(w: World<H, E>, p: nat, v: World<H, E>)
    requires p in w.processes && w.processes[p].task.AppendTask?
  {
    && w.processes[p].task.desc.objectId !in v.things.intents
    && w.processes[p].task.StagingName() !in v.things.staging
    && v.trail.removals == w.trail.removals + [Removal(AppendIntent, p, p), Removal(StagedObject, p, p)]
    && v.ledger.database == w.ledger.database
  }

  /** Intent and staged object are gone if the abandonment is let through, and otherwise nothing is. */
  ghost predicate UndidIfStanding<H, E>(w: World<H, E>, p: nat, v: World<H, E>)
    requires p in w.processes && w.processes[p].task.AppendTask?
  {
    && (UndidAppend(w, p, v) <==> Stands(w, p))
    && (!Stands(w, p) ==> v.things == w.things && v.trail.removals == w.trail.removals)
    && v.ledger.database == w.ledger.database
  }

  /** In any state, a start whose journal append may fail after writing may lose the key of its journalled entry. */
  lemma AmbiguousAppendLosesKey<H, E>(wires: Wires<H, E>, w: World<H, E>, p: nat)
    returns (steps: seq<Step<E>>, v: World<H, E>)
    requires StartReady(w, p)
    ensures Execute(wires, w, steps) == Some(v)
    ensures w.processes[p].task.entry in v.ledger.journal && p in v.trail.wrote && UndidStart(w, p, v)
  {
    var doubt := AppendJournal(p, FailedAfterWriting);
    var u := Act(wires, w, doubt).value;
    v := Act(wires, u, Discard(p)).value;
    Alone(wires, w, doubt);
    Next(wires, w, [doubt], u, Discard(p), v);
    steps := [doubt] + [Discard(p)];
  }

  lemma AppendIsUndone<H, E>(wires: Wires<H, E>, w: World<H, E>, p: nat) returns (v: World<H, E>)
    requires p in w.processes && w.processes[p].task.AppendTask? && w.processes[p].phase == Abandoning(true)
    requires HoldsAppend(w.things, p, w.processes[p].task) && Stands(w, p)
    ensures Execute(wires, w, [Abandon(p, true)] + [Unstage(p)]) == Some(v) && UndidAppend(w, p, v)
    ensures v.ledger == w.ledger && v.trail.wrote == w.trail.wrote && v.trail.doubtful == w.trail.doubtful
  {
    var u := Act(wires, w, Abandon(p, true)).value;
    v := Act(wires, u, Unstage(p)).value;
    Alone(wires, w, Abandon(p, true));
    Next(wires, w, [Abandon(p, true)], u, Unstage(p), v);
  }

  lemma AppendTurnsBack<H, E>(wires: Wires<H, E>, w: World<H, E>, p: nat) returns (steps: seq<Step<E>>, v: World<H, E>)
    requires p in w.processes && w.processes[p].task.AppendTask? && w.processes[p].phase == Abandoning(true)
    requires HoldsAppend(w.things, p, w.processes[p].task)
    ensures Execute(wires, w, steps) == Some(v) && Truthful(steps) && UndidIfStanding(w, p, v)
    ensures v.ledger == w.ledger && v.trail.wrote == w.trail.wrote && v.trail.doubtful == w.trail.doubtful
  {
    if Stands(w, p) {
      v := AppendIsUndone(wires, w, p);
      steps := [Abandon(p, true)] + [Unstage(p)];
    } else {
      v := Act(wires, w, Abandon(p, true)).value;
      Alone(wires, w, Abandon(p, true));
      steps := [Abandon(p, true)];
    }
  }

  lemma AppendTurnsDoubtful<H, E>(wires: Wires<H, E>, w: World<H, E>, p: nat) returns (u: World<H, E>)
    requires AppendReady(w, p)
    ensures Act(wires, w, AppendJournal(p, FailedAfterWriting)) == Some(u)
    ensures p in u.processes && u.processes[p] == w.processes[p].(phase := Abandoning(true))
    ensures u.things == w.things && u.trail.removals == w.trail.removals
    ensures u.ledger == w.ledger.(journal := w.ledger.journal + {w.processes[p].task.entry}) && p in u.trail.wrote
  {
    u := Act(wires, w, AppendJournal(p, FailedAfterWriting)).value;
  }

  /** In the same way an append may lose the intent and the staged object of its journalled entry, and does unless its
      set has moved on in the database. */
  lemma AmbiguousAppendLosesObject<H, E>(wires: Wires<H, E>, w: World<H, E>, p: nat)
    returns (steps: seq<Step<E>>, v: World<H, E>)
    requires AppendReady(w, p)
    ensures Execute(wires, w, steps) == Some(v)
    ensures w.processes[p].task.entry in v.ledger.journal && p in v.trail.wrote && UndidIfStanding(w, p, v)
  {
    var doubt := AppendJournal(p, FailedAfterWriting);
    var u := AppendTurnsDoubtful(wires, w, p);
    steps, v := AppendTurnsBack(wires, u, p);
    Alone(wires, w, doubt);
    Then(wires, w, [doubt], u, steps);
    steps := [doubt] + steps;
  }

  // ----- a failure before the journal

  /** The ways a process that has written nothing to the journal comes to an error. */
  predicate GivesUp<H, E>(x: Process<H, E>, p: nat, s: Step<E>) {
    s == FailStep(p) || (s == AppendJournal(p, FailedClean) && x.phase.Checked?)
  }

  lemma Twice<H, E>(wires: Wires<H, E>, w: World<H, E>, a: Step<E>, u: World<H, E>, b: Step<E>)
    requires Act(wires, w, a) == Some(u)
    ensures Execute(wires, w, [a, b]) == Act(wires, u, b)
  {
    assert [a, b][0] == a && [a, b][1..] == [b];
    if Act(wires, u, b).Some? {
      Alone(wires, u, b);
    }
  }

  lemma Thrice<H, E>(wires: Wires<H, E>, w: World<H, E>, a: Step<E>, u: World<H, E>, b: Step<E>, v: World<H, E>,
                     c: Step<E>)
    requires Act(wires, w, a) == Some(u) && Act(wires, u, b) == Some(v)
    ensures Execute(wires, w, [a, b, c]) == Act(wires, v, c)
  {
    assert [a, b, c][1..] == [b, c];
    Twice(wires, u, b, v, c);
  }

  /** A start that holds its key and fails: its key goes, and nothing else changes. */
  lemma FailedStartDiscards<H, E>(wires: Wires<H, E>, w: World<H, E>, p: nat, s: Step<E>) returns (v: World<H, E>)
    requires p in w.processes && w.processes[p].task.StartTask? && GivesUp(w.processes[p], p, s)
    requires w.processes[p].phase.KeyCreated? || w.processes[p].phase.Checked?
    requires var id := w.processes[p].task.identity.setId; id in w.things.keys && w.things.keys[id] == p
    ensures Execute(wires, w, [s, Discard(p)]) == Some(v) && v.ledger == w.ledger
    ensures v.things == w.things.(keys := w.things.keys - {w.processes[p].task.identity.setId})
    ensures v.trail == Removed(w.trail, Removal(KeyEnvelope, p, p))
    ensures v.processes == w.processes[p := w.processes[p].(phase := Stopped)]
  {
    var u := Act(wires, w, s).value;
    assert u == To(w, p, Discarding);
    v := Act(wires, u, Discard(p)).value;
    Twice(wires, w, s, u, Discard(p));
  }

  /** What is left of the row of a failed append: it goes if the set still stands, and otherwise stays. */
  ghost predicate TakesBackRow<H, E>(w: World<H, E>, p: nat, v: World<H, E>)
    requires p in w.processes && w.processes[p].task.AppendTask?
  {
    && v.ledger == w.ledger && v.processes == w.processes[p := w.processes[p].(phase := Stopped)]
    && v.things == (if Stands(w, p) then w.things.(intents := w.things.intents - {w.processes[p].task.desc.objectId})
                    else w.things)
    && v.trail == (if Stands(w, p) then Removed(w.trail, Removal(AppendIntent, p, p)) else w.trail)
  }

  lemma FailedReservationAbandons<H, E>(wires: Wires<H, E>, w: World<H, E>, p: nat) returns (v: World<H, E>)
    requires p in w.processes && w.processes[p].task.AppendTask? && w.processes[p].phase.Reserved?
    requires var o := w.processes[p].task.desc.objectId;
             o in w.things.intents && w.things.intents[o] == w.processes[p].task.Row(p)
    ensures Execute(wires, w, [FailStep(p), Abandon(p, true)]) == Some(v) && TakesBackRow(w, p, v)
  {
    var u := Act(wires, w, FailStep(p)).value;
    assert u == To(w, p, Abandoning(false));
    v := Act(wires, u, Abandon(p, true)).value;
    Twice(wires, w, FailStep(p), u, Abandon(p, true));
  }

  /** A write that fails in staging takes the row back in the same way, and never the file it may have left behind. */
  lemma FailedStagingAbandons<H, E>(wires: Wires<H, E>, w: World<H, E>, p: nat, leftBehind: bool)
    returns (v: World<H, E>)
    requires p in w.processes && w.processes[p].task.AppendTask? && w.processes[p].phase.Reserved?
    requires var o := w.processes[p].task.desc.objectId;
             o in w.things.intents && w.things.intents[o] == w.processes[p].task.Row(p)
    requires w.processes[p].task.StagingName() !in w.things.staging
    ensures Execute(wires, w, [StageFails(p, leftBehind), Abandon(p, true)]) == Some(v)
    ensures v.things.staging == if leftBehind then w.things.staging[w.processes[p].task.StagingName() := TornFrame(p)]
                                else w.things.staging
    ensures TakesBackRow(w, p, v.(things := v.things.(staging := w.things.staging)))
  {
    var u := Act(wires, w, StageFails(p, leftBehind)).value;
    assert u.processes == To(w, p, Abandoning(false)).processes;
    v := Act(wires, u, Abandon(p, true)).value;
    Twice(wires, w, StageFails(p, leftBehind), u, Abandon(p, true));
  }

  /** Row and object of a failed append are gone, and nothing else has changed. */
  ghost predicate TakesBackBoth<H, E>(w: World<H, E>, p: nat, v: World<H, E>)
    requires p in w.processes && w.processes[p].task.AppendTask?
  {
    var task := w.processes[p].task;
    && v.ledger == w.ledger && v.processes == w.processes[p := w.processes[p].(phase := Stopped)]
    && v.things == w.things.(intents := w.things.intents - {task.desc.objectId},
                             staging := w.things.staging - {task.StagingName()})
    && v.trail == Removed(Removed(w.trail, Removal(AppendIntent, p, p)), Removal(StagedObject, p, p))
  }

  lemma AbandonedBoth<H, E>(wires: Wires<H, E>, w: World<H, E>, p: nat, u: World<H, E>)
    requires p in w.processes && w.processes[p].task.AppendTask? && HoldsAppend(w.things, p, w.processes[p].task)
    requires u == To(w, p, Abandoning(true)) && Stands(w, p)
    ensures var v := Act(wires, u, Abandon(p, true));
            v.Some? && var z := Act(wires, v.value, Unstage(p)); z.Some? && TakesBackBoth(w, p, z.value)
  {
    var v := Act(wires, u, Abandon(p, true)).value;
    assert v.processes[p].phase.Unstaging?;
    var z := Act(wires, v, Unstage(p)).value;
    assert z.processes == w.processes[p := w.processes[p].(phase := Stopped)];
  }

  lemma AbandonRefused<H, E>(wires: Wires<H, E>, w: World<H, E>, p: nat, u: World<H, E>)
    requires p in w.processes && w.processes[p].task.AppendTask?
    requires u == To(w, p, Abandoning(true)) && !Stands(w, p)
    ensures Act(wires, u, Abandon(p, true)) == Some(To(w, p, Stopped))
    ensures Act(wires, To(w, p, Stopped), Unstage(p)) == None
  {
    assert To(u, p, Stopped).processes == To(w, p, Stopped).processes;
  }

  lemma AppendGivesUp<H, E>(wires: Wires<H, E>, w: World<H, E>, p: nat, s: Step<E>)
    requires p in w.processes && w.processes[p].task.AppendTask? && GivesUp(w.processes[p], p, s)
    requires w.processes[p].phase.Staged? || w.processes[p].phase.Checked?
    ensures Act(wires, w, s) == Some(To(w, p, Abandoning(true)))
  {
  }

  /** A failed append that holds row and object goes on to abandon and unstage exactly if the set still stands; the two
      are then gone, and otherwise the refused abandonment ends it with both in place. */
  lemma FailedAppendUnstages<H, E>(wires: Wires<H, E>, w: World<H, E>, p: nat, s: Step<E>)
    requires p in w.processes && w.processes[p].task.AppendTask? && GivesUp(w.processes[p], p, s)
    requires w.processes[p].phase.Staged? || w.processes[p].phase.Checked?
    requires HoldsAppend(w.things, p, w.processes[p].task)
    ensures var after := Execute(wires, w, [s, Abandon(p, true), Unstage(p)]);
            (after.Some? <==> Stands(w, p)) && (after.Some? ==> TakesBackBoth(w, p, after.value))
    ensures !Stands(w, p) ==> Execute(wires, w, [s, Abandon(p, true)]) == Some(To(w, p, Stopped))
  {
    var u := To(w, p, Abandoning(true));
    AppendGivesUp(wires, w, p, s);
    if Stands(w, p) {
      AbandonedBoth(wires, w, p, u);
    } else {
      AbandonRefused(wires, w, p, u);
      Twice(wires, w, s, u, Abandon(p, true));
    }
    Thrice(wires, w, s, u, Abandon(p, true), Act(wires, u, Abandon(p, true)).value, Unstage(p));
  }

  /** Any other failure leaves every store as it was and ends its process. */
  lemma OtherFailureStops<H, E>(wires: Wires<H, E>, w: World<H, E>, p: nat, v: World<H, E>)
    requires p in w.processes && Act(wires, w, FailStep(p)) == Some(v)
    requires var x := w.processes[p];
             && !(x.task.StartTask? && (x.phase.KeyCreated? || x.phase.Checked?))
             && !(x.task.AppendTask? && (x.phase.Reserved? || x.phase.Staged? || x.phase.Checked?))
             && (x.phase.KeyCreated? ==> x.task.StartTask?)
             && (x.phase.Reserved? || x.phase.Staged? ==> x.task.AppendTask?)
    ensures v == To(w, p, Stopped)
  {
  }

  // ----- running to the witness, and on to the database

  predicate CanBeWitnessed<H, E>(wires: Wires<H, E>, head: H, entry: E) {
    && wires.check(head, OtherTask(entry))
    && IsNext(wires, head, entry)
  }

  predicate IsNext<H, E>(wires: Wires<H, E>, head: H, entry: E) {
    wires.headSequence(head) < U64_MAX && wires.entrySequence(entry) == wires.headSequence(head) + 1
  }

  lemma Advances<H, E>(wires: Wires<H, E>, w: World<H, E>, p: nat, replied: bool) returns (u: World<H, E>)
    requires p in w.processes && w.processes[p].phase == Journalled(w.ledger.head)
    requires IsNext(wires, w.ledger.head, w.processes[p].task.entry)
    ensures Act(wires, w, Advance(p, replied)) == Some(u) && u.things == w.things
    ensures u.processes == w.processes[p := w.processes[p].(phase := if replied then Witnessed else Stopped)]
    ensures var task := w.processes[p].task;
            u.ledger == w.ledger.(head := wires.advance(w.ledger.head, task.entry),
                                  log := w.ledger.log + [Record(w.ledger.head, task)])
  {
    u := Act(wires, w, Advance(p, replied)).value;
  }

  /** The entry of a process that stood before the journal has been journalled and brought to the witness. */
  function Carried<H, E(==)>(wires: Wires<H, E>, w: World<H, E>, p: nat): World<H, E>
    requires p in w.processes
  {
    var task := w.processes[p].task;
    To(w, p, Witnessed).(ledger := w.ledger.(head := wires.advance(w.ledger.head, task.entry),
                                             log := w.ledger.log + [Record(w.ledger.head, task)],
                                             journal := w.ledger.journal + {task.entry}),
                         trail := w.trail.(wrote := w.trail.wrote + {p}))
  }

  lemma Carries<H, E>(wires: Wires<H, E>, w: World<H, E>, p: nat)
    requires p in w.processes && w.processes[p].phase == Checked(w.ledger.head)
    requires IsNext(wires, w.ledger.head, w.processes[p].task.entry)
    ensures Execute(wires, w, [AppendJournal(p, Durable)] + [Advance(p, true)]) == Some(Carried(wires, w, p))
  {
    var u := Act(wires, w, AppendJournal(p, Durable)).value;
    assert Act(wires, u, Advance(p, true)).value.processes == Carried(wires, w, p).processes;
    Alone(wires, w, AppendJournal(p, Durable));
    Next(wires, w, [AppendJournal(p, Durable)], u, Advance(p, true), Carried(wires, w, p));
  }

  /** And its procedure has gone through. */
  function Entered<H, E(==)>(w: World<H, E>, p: nat, tables: State): World<H, E>
    requires p in w.processes
  {
    var task := w.processes[p].task;
    var rest := if task.AppendTask? then w.things.intents - {task.desc.objectId} else w.things.intents;
    To(w, p, Committed).(ledger := w.ledger.(database := w.ledger.database + [task.entry], tables := tables),
                         things := w.things.(intents := rest))
  }

  /** The entry is the next one for the database and its procedure lets it through. */
  ghost predicate CanEnter<H, E>(wires: Wires<H, E>, w: World<H, E>, p: nat, tables: State)
    requires p in w.processes
  {
    && wires.entrySequence(w.processes[p].task.entry) == |w.ledger.database| + 1
    && w.processes[p].task.entry !in w.ledger.database
    && wires.enters(w.ledger.tables, w.things.intents, w.ledger.database, w.processes[p].task) == Some(tables)
  }

  lemma Commits<H, E>(wires: Wires<H, E>, w: World<H, E>, p: nat, tables: State) returns (steps: seq<Step<E>>)
    requires p in w.processes && w.processes[p].phase == Checked(w.ledger.head)
    requires IsNext(wires, w.ledger.head, w.processes[p].task.entry) && CanEnter(wires, w, p, tables)
    ensures Execute(wires, w, steps) == Some(Entered(Carried(wires, w, p), p, tables))
  {
    var u := Carried(wires, w, p);
    Carries(wires, w, p);
    assert Act(wires, u, Commit(p, true)) == Some(Entered(u, p, tables));
    steps := [AppendJournal(p, Durable)] + [Advance(p, true)];
    Next(wires, w, steps, u, Commit(p, true), Entered(u, p, tables));
    steps := steps + [Commit(p, true)];
  }

  /** A new process has come with a task that needs nothing made, and passed its checks. */
  function BareChecked<H, E(==)>(w: World<H, E>, q: nat, task: Task<E>): World<H, E> {
    w.(processes := w.processes[q := Process(task, Checked(w.ledger.head))])
  }

  lemma BareChecks<H, E>(wires: Wires<H, E>, w: World<H, E>, q: nat, task: Task<E>)
    requires q !in w.processes && task.Valid() && !task.StartTask? && !task.AppendTask?
    requires wires.check(w.ledger.head, task)
    ensures Execute(wires, w, [Spawn(q, task)] + [Check(q)]) == Some(BareChecked(w, q, task))
  {
    var u := Act(wires, w, Spawn(q, task)).value;
    assert Act(wires, u, Check(q)).value.processes == BareChecked(w, q, task).processes;
    Alone(wires, w, Spawn(q, task));
    Next(wires, w, [Spawn(q, task)], u, Check(q), BareChecked(w, q, task));
  }

  /** A new process has brought such a task's entry to the witness; nothing else is different. */
  function BareCarried<H, E(==)>(wires: Wires<H, E>, w: World<H, E>, q: nat, task: Task<E>): World<H, E> {
    Carried(wires, BareChecked(w, q, task), q)
  }

  lemma BareRuns<H, E>(wires: Wires<H, E>, w: World<H, E>, q: nat, task: Task<E>) returns (steps: seq<Step<E>>)
    requires q !in w.processes && task.Valid() && !task.StartTask? && !task.AppendTask?
    requires wires.check(w.ledger.head, task) && IsNext(wires, w.ledger.head, task.entry)
    ensures Execute(wires, w, steps) == Some(BareCarried(wires, w, q, task)) && Truthful(steps)
  {
    var check, write := [Spawn(q, task)] + [Check(q)], [AppendJournal(q, Durable)] + [Advance(q, true)];
    BareChecks(wires, w, q, task);
    Carries(wires, BareChecked(w, q, task), q);
    Then(wires, w, check, BareChecked(w, q, task), write);
    steps := check + write;
  }

  /** And has committed it. */
  lemma BareCommits<H, E>(wires: Wires<H, E>, w: World<H, E>, q: nat, task: Task<E>, tables: State)
    returns (steps: seq<Step<E>>, v: World<H, E>)
    requires q !in w.processes && task.Valid() && !task.StartTask? && !task.AppendTask?
    requires wires.check(w.ledger.head, task) && IsNext(wires, w.ledger.head, task.entry)
    requires wires.entrySequence(task.entry) == |w.ledger.database| + 1 && task.entry !in w.ledger.database
    requires wires.enters(w.ledger.tables, w.things.intents, w.ledger.database, task) == Some(tables)
    ensures Execute(wires, w, steps) == Some(v)
    ensures v.processes.Keys == w.processes.Keys + {q} && v.things == w.things
    ensures v.ledger == Ledger(wires.advance(w.ledger.head, task.entry), w.ledger.log + [Record(w.ledger.head, task)],
                               w.ledger.journal + {task.entry}, w.ledger.database + [task.entry], tables)
  {
    var check, u := [Spawn(q, task)] + [Check(q)], BareChecked(w, q, task);
    BareChecks(wires, w, q, task);
    var more := Commits(wires, u, q, tables);
    Then(wires, w, check, u, more);
    steps, v := check + more, Entered(Carried(wires, u, q), q, tables);
  }

  // ----- an entry that two processes carry

  lemma RivalLeavesFirst<H, E>(wires: Wires<H, E>, w: World<H, E>, p: nat, q: nat, entry: E) returns (u: World<H, E>)
    requires AppendReady(w, p) && q !in w.processes
    ensures Act(wires, BareCarried(wires, w, q, OtherTask(entry)), FailStep(p)) == Some(u)
    ensures p in u.processes && u.processes[p] == w.processes[p].(phase := Abandoning(true))
    ensures u.things == w.things && u.ledger == BareCarried(wires, w, q, OtherTask(entry)).ledger
    ensures u.trail == w.trail.(wrote := w.trail.wrote + {q})
  {
    u := Act(wires, BareCarried(wires, w, q, OtherTask(entry)), FailStep(p)).value;
  }

  /** With every journal append answered truthfully, in any state, an append that has passed its checks may still remove
      the intent and object of its entry after another process has journalled that entry and brought it to the witness.
      The database does not change, so the removal goes through exactly if it would have before. */
  lemma SharedEntryLosesObject<H, E>(wires: Wires<H, E>, w: World<H, E>, p: nat, q: nat)
    returns (steps: seq<Step<E>>, v: World<H, E>)
    requires AppendReady(w, p) && q !in w.processes && CanBeWitnessed(wires, w.ledger.head, w.processes[p].task.entry)
    ensures Execute(wires, w, steps) == Some(v) && Truthful(steps)
    ensures var e := w.processes[p].task.entry;
            && e in v.ledger.journal && v.ledger.log == w.ledger.log + [Record(w.ledger.head, OtherTask(e))]
            && UndidIfStanding(w, p, v) && v.trail.wrote == w.trail.wrote + {q} && v.trail.doubtful == w.trail.doubtful
  {
    var rival := OtherTask(w.processes[p].task.entry);
    var before := BareRuns(wires, w, q, rival);
    var u := RivalLeavesFirst(wires, w, p, q, rival.entry);
    steps, v := AppendTurnsBack(wires, u, p);
    Next(wires, w, before, BareCarried(wires, w, q, rival), FailStep(p), u);
    Then(wires, w, before + [FailStep(p)], u, steps);
    steps := before + [FailStep(p)] + steps;
  }

  // ----- getting there

  /** A new process has come with a start and stands before the journal. */
  function StartChecked<H, E(==)>(w: World<H, E>, p: nat, task: Task<E>): World<H, E>
    requires task.StartTask?
  {
    w.(processes := w.processes[p := Process(task, Checked(w.ledger.head))],
       things := w.things.(keys := w.things.keys[task.identity.setId := p]))
  }

  lemma StartGetsReady<H, E>(wires: Wires<H, E>, w: World<H, E>, p: nat, task: Task<E>) returns (steps: seq<Step<E>>)
    requires p !in w.processes && task.StartTask? && wires.check(w.ledger.head, task)
    requires task.identity.setId !in w.things.keys
    ensures Execute(wires, w, steps) == Some(StartChecked(w, p, task))
  {
    var w1 := Act(wires, w, Spawn(p, task)).value;
    var w2 := Act(wires, w1, CreateKey(p)).value;
    assert Act(wires, w2, Check(p)).value.processes == StartChecked(w, p, task).processes;
    Alone(wires, w, Spawn(p, task));
    Next(wires, w, [Spawn(p, task)], w1, CreateKey(p), w2);
    steps := [Spawn(p, task)] + [CreateKey(p)];
    Next(wires, w, steps, w2, Check(p), StartChecked(w, p, task));
    steps := steps + [Check(p)];
  }

  predicate CanAppend<H, E>(w: World<H, E>, task: Task<E>) {
    && task.AppendTask? && task.Valid() && task.Reservation().Valid()
    && CanReserve(w.ledger.tables, w.things.intents, task.Reservation())
  }

  /** A new process has come with an append and stands before the journal. */
  function AppendChecked<H, E(==)>(w: World<H, E>, p: nat, task: Task<E>): World<H, E>
    requires task.AppendTask?
  {
    w.(processes := w.processes[p := Process(task, Checked(w.ledger.head))],
       things := w.things.(intents := w.things.intents[task.desc.objectId := task.Row(p)],
                           staging := w.things.staging[task.StagingName() := task.Framed(p)]))
  }

  function AppendReserved<H, E(==)>(w: World<H, E>, p: nat, task: Task<E>): World<H, E>
    requires task.AppendTask?
  {
    w.(processes := w.processes[p := Process(task, Reserved)],
       things := w.things.(intents := w.things.intents[task.desc.objectId := task.Row(p)]))
  }

  lemma AppendReserves<H, E>(wires: Wires<H, E>, w: World<H, E>, p: nat, task: Task<E>)
    requires p !in w.processes && CanAppend(w, task)
    ensures Execute(wires, w, [Spawn(p, task)] + [Reserve(p)]) == Some(AppendReserved(w, p, task))
  {
    var u := Act(wires, w, Spawn(p, task)).value;
    assert Act(wires, u, Reserve(p)).value.processes == AppendReserved(w, p, task).processes;
    Alone(wires, w, Spawn(p, task));
    Next(wires, w, [Spawn(p, task)], u, Reserve(p), AppendReserved(w, p, task));
  }

  lemma AppendStages<H, E>(wires: Wires<H, E>, w: World<H, E>, p: nat, task: Task<E>)
    requires task.AppendTask? && wires.check(w.ledger.head, task) && task.StagingName() !in w.things.staging
    ensures Execute(wires, AppendReserved(w, p, task), [Stage(p)] + [Check(p)]) == Some(AppendChecked(w, p, task))
  {
    var t := AppendReserved(w, p, task);
    var u := Act(wires, t, Stage(p)).value;
    assert Act(wires, u, Check(p)).value.processes == AppendChecked(w, p, task).processes;
    Alone(wires, t, Stage(p));
    Next(wires, t, [Stage(p)], u, Check(p), AppendChecked(w, p, task));
  }

  lemma AppendGetsReady<H, E>(wires: Wires<H, E>, w: World<H, E>, p: nat, task: Task<E>) returns (steps: seq<Step<E>>)
    requires p !in w.processes && CanAppend(w, task) && wires.check(w.ledger.head, task)
    requires task.StagingName() !in w.things.staging
    ensures Execute(wires, w, steps) == Some(AppendChecked(w, p, task))
  {
    AppendReserves(wires, w, p, task);
    AppendStages(wires, w, p, task);
    Then(wires, w, [Spawn(p, task)] + [Reserve(p)], AppendReserved(w, p, task), [Stage(p)] + [Check(p)]);
    steps := [Spawn(p, task)] + [Reserve(p)] + ([Stage(p)] + [Check(p)]);
  }
}
