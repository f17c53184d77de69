/** Accepting governed input for a run step: a saga whose last write is the only one that schedules work. */
module RunStepAcceptance {
  import opened Wrappers

  // ----- durable state

  /** The identities one attempt is made under. */
  datatype Identities = Identities(id: nat, workspace: nat, run: nat, step: nat, effect: nat, material: nat,
                                   evidence: nat)

  /** How far the sealed input has come. */
  datatype MaterialStage = Reserved | ProvisionalCreated | ReceiptRecorded | ContentPrepared | Bound | Finalized {
    function Level(): nat {
      match this
      case Reserved => 0
      case ProvisionalCreated => 1
      case ReceiptRecorded => 2
      case ContentPrepared => 3
      case Bound => 4
      case Finalized => 5
    }
  }

  datatype Db = Db(
    versions: map<nat, nat>,
    steps: set<nat>,
    effects: set<nat>,
    attempts: map<nat, Identities>,
    materials: map<nat, MaterialStage>,
    complete: set<nat>,
    work: set<nat>)

  /** Everything a work item is scheduled against is durable. */
  ghost predicate Backed(db: Db, step: nat) {
    && step in db.attempts
    && var a := db.attempts[step];
    && a.effect in db.effects && step in db.steps
    && a.material in db.materials && db.materials[a.material].Finalized?
    && a.evidence in db.complete
  }

  ghost predicate Consistent(db: Db) {
    && (forall s :: s in db.attempts ==>
          db.attempts[s].step == s && s in db.steps && db.attempts[s].effect in db.effects
          && db.attempts[s].material in db.materials)
    && (forall w :: w in db.work ==> exists s :: s in db.attempts && db.attempts[s].id == w && Backed(db, s))
  }

  /** Rows are added and stages advance; nothing is taken back. */
  ghost predicate Grows(db: Db, next: Db) {
    && db.steps <= next.steps && db.effects <= next.effects && db.complete <= next.complete && db.work <= next.work
    && (forall s :: s in db.attempts ==> s in next.attempts && next.attempts[s] == db.attempts[s])
    && (forall m :: m in db.materials ==> m in next.materials && db.materials[m].Level() <= next.materials[m].Level())
  }

  lemma GrowsOn(a: Db, b: Db, c: Db)
    requires Grows(a, b) && Grows(b, c)
    ensures Grows(a, c)
  {
  }

  // ----- the writes, each one transaction

  datatype Actor = AgentSnapshot(snapshot: nat) | OtherActor

  /** What the caller asks, with the effect intent the attempt is to adopt. */
  datatype Intent = Intent(id: nat, workspace: nat, run: Option<nat>)

  datatype Command = Command(run: nat, step: nat, expectedVersion: nat, actor: Actor, identities: Identities,
                             intent: Intent)

  /** The command, its identities and its intent all speak of one workspace, run, step and effect, for an agent. */
  predicate WellBound(workspace: nat, c: Command) {
    && c.actor.AgentSnapshot?
    && c.identities.workspace == workspace && c.identities.run == c.run && c.identities.step == c.step
    && c.intent.id == c.identities.effect && c.intent.workspace == workspace && c.intent.run == Some(c.run)
  }

  /** What rebuilding the request from the durable ciphertext yields. */
  datatype Reconstruction = CompleteRequest | IncompleteRequest | ExpiredRequest

  datatype AcceptError = PolicyRefused | NotFound | Conflict | StorageFailed | GuardRefused | Crashed

  /** The opening transaction for a step with no attempt yet: intent, run step, attempt and material in one commit. */
  function Open(db: Db, c: Command): Option<Db> {
    var a := c.identities;
    if c.run !in db.versions || db.versions[c.run] != c.expectedVersion || a.step in db.attempts
       || a.material in db.materials
    then None
    else Some(Db(db.versions[c.run := c.expectedVersion + 1], db.steps + {a.step}, db.effects + {c.intent.id},
                 db.attempts[a.step := a], db.materials[a.material := Reserved], db.complete, db.work))
  }

  function Advance(db: Db, material: nat, to: MaterialStage): Option<Db> {
    if material in db.materials && db.materials[material].Level() + 1 == to.Level()
    then Some(db.(materials := db.materials[material := to])) else None
  }

  function Complete(db: Db, evidence: nat): Db {
    db.(complete := db.complete + {evidence})
  }

  /** The guarded enqueue proves the attempt, its live material and its complete evidence again. */
  function Enqueue(db: Db, a: Identities): Option<Db> {
    if InputReady(db, a) then Some(db.(work := db.work + {a.id})) else None
  }

  lemma OpenKeeps(db: Db, c: Command)
    requires Consistent(db) && Open(db, c).Some? && c.intent.id == c.identities.effect
    ensures Consistent(Open(db, c).value) && Grows(db, Open(db, c).value)
  {
  }

  /** Only at the version it expects does a command open its step, and the run's version has then moved on by one: no
      command expecting the same version of that run opens a step any more, as long as versions do not fall. */
  lemma OneOpenPerVersion(db: Db, c: Command, d: Command, later: Db)
    requires Open(db, c).Some? && d.run == c.run && d.expectedVersion == c.expectedVersion
    requires var next := Open(db, c).value;
             forall run :: run in next.versions ==> run in later.versions && next.versions[run] <= later.versions[run]
    ensures db.versions[c.run] == c.expectedVersion && Open(db, c).value.versions[c.run] == c.expectedVersion + 1
    ensures Open(later, d).None?
  {
  }

  /** Beyond that it adds one step, effect, attempt and reserved material, and changes nothing that was there. */
  lemma OpenAddsOne(db: Db, c: Command)
    requires Open(db, c).Some?
    ensures var next := Open(db, c).value;
            && next.steps == db.steps + {c.identities.step} && next.effects == db.effects + {c.intent.id}
            && next.attempts.Keys == db.attempts.Keys + {c.identities.step}
            && next.attempts[c.identities.step] == c.identities
            && next.materials.Keys == db.materials.Keys + {c.identities.material}
            && next.materials[c.identities.material] == MaterialStage.Reserved
            && next.complete == db.complete && next.work == db.work
            && (forall s :: s in db.attempts ==> SameRow(db.attempts, next.attempts, s))
            && (forall m :: m in db.materials ==> SameRow(db.materials, next.materials, m))
            && forall run :: run in db.versions && run != c.run ==> SameRow(db.versions, next.versions, run)
  {
  }

  /** Material goes from each stage to the next and to no other. */
  lemma AdvanceIsNext(db: Db, material: nat, to: MaterialStage)
    ensures Advance(db, material, to).Some?
       <==> && material in db.materials
            && (match db.materials[material]
                case Reserved => to == ProvisionalCreated
                case ProvisionalCreated => to == ReceiptRecorded
                case ReceiptRecorded => to == ContentPrepared
                case ContentPrepared => to == Bound
                case Bound => to == Finalized
                case Finalized => false)
  {
  }

  lemma GrowthKeeps(db: Db, next: Db)
    requires Consistent(db) && Grows(db, next) && next.attempts == db.attempts && next.work == db.work
    ensures Consistent(next)
  {
  }

  lemma EnqueueKeeps(db: Db, a: Identities)
    requires Consistent(db) && Enqueue(db, a).Some?
    ensures Consistent(Enqueue(db, a).value) && Grows(db, Enqueue(db, a).value)
  {
  }

  /** All that the guard asks for. */
  predicate InputReady(db: Db, a: Identities) {
    && a.step in db.attempts && db.attempts[a.step] == a
    && a.material in db.materials && db.materials[a.material].Finalized?
    && a.evidence in db.complete
  }

  /** Once ready, always ready, whatever others add, and the guard does not refuse. */
  lemma GuardCannotRefuse(db: Db, next: Db, a: Identities)
    requires InputReady(db, a) && Grows(db, next)
    ensures InputReady(next, a) && Enqueue(next, a).Some?
  {
  }

  // ----- the saga

  /** What everybody else does to the database while this acceptance waits, by how often it has waited. */
  type Others = (nat, Db) -> Db

  ghost predicate Lawful(others: Others) {
    forall n: nat, db: Db {:trigger others(n, db)} :: Consistent(db) ==>
      Consistent(others(n, db)) && Grows(db, others(n, db))
  }

  /** One row, present or absent, as it was. */
  predicate SameRow<K, V(==)>(m: map<K, V>, m': map<K, V>, k: K) {
    (k in m <==> k in m') && (k in m ==> m'[k] == m[k])
  }

  /** The others leave this run, step and material alone. */
  ghost predicate Leaves(others: Others, run: nat, step: nat, material: nat) {
    forall n: nat, db: Db {:trigger others(n, db)} ::
      && SameRow(db.versions, others(n, db).versions, run)
      && SameRow(db.attempts, others(n, db).attempts, step)
      && SameRow(db.materials, others(n, db).materials, material)
  }

  ghost predicate KeepsMaterial(others: Others, material: nat) {
    forall n: nat, db: Db {:trigger others(n, db)} :: SameRow(db.materials, others(n, db).materials, material)
  }

  predicate IsReserved(db: Db, material: nat) {
    material in db.materials && db.materials[material].Reserved?
  }

  /** Eight transactions: the opening, five stages, the evidence and the work item. */
  const TRANSACTIONS: nat := 8

  /** What a first acceptance needs to succeed, in the state it begins in. */
  predicate CanAccept(db: Db, workspace: nat, c: Command, rebuilt: Reconstruction, budget: nat) {
    && c.actor.AgentSnapshot?
    && c.identities.workspace == c.intent.workspace == workspace && c.identities.effect == c.intent.id
    && c.identities.run == c.run && c.intent.run == Some(c.run) && c.identities.step == c.step
    && c.run in db.versions && db.versions[c.run] == c.expectedVersion
    && c.step !in db.attempts && c.identities.material !in db.materials
    && rebuilt.CompleteRequest? && TRANSACTIONS <= budget
  }

  class Acceptor {
    var db: Db
    var waits: nat
    /** How many transactions of its own this acceptance has committed, and how many it may before it crashes. */
    var writes: nat
    const budget: nat
    const others: Others

    constructor (initial: Db, environment: Others, crashAfter: nat)
      ensures db == initial && others == environment && budget == crashAfter && writes == 0
    {
      db, others, budget, waits, writes := initial, environment, crashAfter, 0, 0;
    }

    ghost predicate Valid()
      reads this
    {
      Consistent(db) && Lawful(others) && writes <= budget
    }

    /** Others run. */
    method Wait()
      requires Valid()
      modifies this
      ensures Valid() && Grows(old(db), db) && writes == old(writes)
      ensures db == others(old(waits), old(db))
    {
      db := others(waits, db);
      waits := waits + 1;
    }

    /** Commit a transaction computed from the present state, unless the process has died or the guard refused it. */
    method Commit(next: Option<Db>) returns (r: Result<(), AcceptError>)
      requires Valid()
      requires next.Some? ==> Consistent(next.value) && Grows(db, next.value)
      modifies this
      ensures Valid() && Grows(old(db), db)
      ensures r.Ok? <==> next.Some? && old(writes) < budget
      ensures r.Ok? ==> db == next.value && writes == old(writes) + 1
      ensures r.Err? ==> db == old(db) && writes == old(writes) && r.error != GuardRefused
    {
      if writes == budget {
        return Err(Crashed);
      }
      if next.None? {
        return Err(StorageFailed);
      }
      db, writes := next.value, writes + 1;
      return Ok(());
    }

    method AdvanceMaterial(material: nat, to: MaterialStage) returns (r: Result<(), AcceptError>)
      requires Valid()
      modifies this
      ensures Valid() && Grows(old(db), db) && old(writes) <= writes
      ensures r.Ok? ==> material in db.materials && db.materials[material].Level() >= to.Level()
      ensures r.Ok? ==> writes == old(writes) + 1
      ensures r.Err? ==> r.error != GuardRefused
      ensures old(SameRow(db.materials, others(waits, db).materials, material)) ==>
                && (r.Ok? <==> Advance(old(db), material, to).Some? && old(writes) < budget)
                && (r.Ok? ==> db.materials[material] == to)
    {
      ghost var start := db;
      Wait();
      var next := Advance(db, material, to);
      if next.Some? {
        GrowthKeeps(db, next.value);
      }
      ghost var before := db;
      r := Commit(next);
      GrowsOn(start, before, db);
    }

    /** Key, receipt, content, binding, finalization, one after another. */
    method SealInput(material: nat) returns (r: Result<(), AcceptError>)
      requires Valid()
      modifies this
      ensures Valid() && Grows(old(db), db) && old(writes) <= writes
      ensures r.Ok? ==> material in db.materials && db.materials[material].Finalized? && writes == old(writes) + 5
      ensures r.Err? ==> r.error != GuardRefused
      ensures KeepsMaterial(others, material) && IsReserved(old(db), material) ==>
                (r.Ok? <==> old(writes) + 5 <= budget)
    {
      var stages := [ProvisionalCreated, ReceiptRecorded, ContentPrepared, Bound, Finalized];
      ghost var first := KeepsMaterial(others, material) && IsReserved(db, material);
      for i := 0 to |stages|
        invariant Valid() && Grows(old(db), db) && writes == old(writes) + i
        invariant i > 0 ==> material in db.materials && db.materials[material].Level() >= stages[i - 1].Level()
        invariant first ==> material in db.materials && db.materials[material].Level() == i
      {
        ghost var before := db;
        r := AdvanceMaterial(material, stages[i]);
        GrowsOn(old(db), before, db);
        if r.Err? {
          return;
        }
      }
      r := Ok(());
    }

    /** Evidence is committed only when rebuilding the request from what is durable proved complete. */
    method ProveEvidence(evidence: nat, rebuilt: Reconstruction) returns (r: Result<(), AcceptError>)
      requires Valid()
      modifies this
      ensures Valid() && Grows(old(db), db) && old(writes) <= writes
      ensures r.Ok? <==> rebuilt.CompleteRequest? && old(writes) < budget
      ensures r.Ok? ==> evidence in db.complete && writes == old(writes) + 1
      ensures r.Err? ==> r.error != GuardRefused
    {
      ghost var start := db;
      Wait();
      if !rebuilt.CompleteRequest? {
        return Err(Conflict);
      }
      ghost var before := db;
      GrowthKeeps(db, Complete(db, evidence));
      r := Commit(Some(Complete(db, evidence)));
      GrowsOn(start, before, db);
    }

    /** The last write: it may be asked for only when everything behind the work item is durable. */
    method Schedule(a: Identities) returns (r: Result<(), AcceptError>)
      requires Valid() && InputReady(db, a)
      modifies this
      ensures Valid() && Grows(old(db), db) && old(writes) <= writes
      ensures r.Ok? <==> old(writes) < budget
      ensures r.Ok? ==> a.id in db.work && Backed(db, a.step)
      ensures r != Err(GuardRefused)
    {
      ghost var start := db;
      Wait();
      GuardCannotRefuse(start, db, a);
      var work := Enqueue(db, a);
      if work.None? {
        return Err(GuardRefused);
      }
      EnqueueKeeps(db, a);
      ghost var before := db;
      r := Commit(work);
      GrowsOn(start, before, db);
    }

    /** After the opening transaction: seal the input, finalize it, prove the evidence, and only then schedule. In that
        order the guard of the enqueue never has cause to refuse. */
    method Finish(a: Identities, rebuilt: Reconstruction) returns (r: Result<(), AcceptError>)
      requires Valid() && a.step in db.attempts && db.attempts[a.step] == a
      modifies this
      ensures Valid() && Grows(old(db), db) && old(writes) <= writes
      ensures r.Ok? ==> a.id in db.work && Backed(db, a.step)
      ensures r != Err(GuardRefused)
      ensures KeepsMaterial(others, a.material) && IsReserved(old(db), a.material) ==>
                (r.Ok? <==> rebuilt.CompleteRequest? && old(writes) + 7 <= budget)
    {
      ghost var start := db;
      var _ :- SealInput(a.material);
      ghost var sealed := db;
      var _ :- ProveEvidence(a.evidence, rebuilt);
      ghost var proved := db;
      GrowsOn(start, sealed, proved);
      r := Schedule(a);
      GrowsOn(start, proved, db);
    }

    /** However it ends, and whatever others do meanwhile, no work item exists without everything behind it; a step that
        already had an attempt gets no write at all, and either a conflict or the stored attempt. While others leave its
        run, step and material alone, it succeeds exactly when it can. */
    method Accept(workspace: nat, c: Command, rebuilt: Reconstruction) returns (r: Result<Identities, AcceptError>)
      requires Valid() && writes == 0
      modifies this
      ensures Valid() && Grows(old(db), db)
      ensures r != Err(GuardRefused)
      ensures c.step in old(db).attempts ==>
                writes == 0 && (r.Ok? ==> r.value == c.identities == old(db).attempts[c.step])
      ensures c.step in old(db).attempts && WellBound(workspace, c) && c.run in old(db).versions && r.Err? ==>
                r.error == Conflict
      ensures r.Ok? && writes > 0 ==> r.value == c.identities && c.identities.id in db.work && Backed(db, c.step)
      ensures Leaves(others, c.run, c.step, c.identities.material) ==>
                (r.Ok? && writes > 0 <==> CanAccept(old(db), workspace, c, rebuilt, budget))
    {
      ghost var start := db;
      var a := c.identities;
      if !WellBound(workspace, c) {
        return Err(PolicyRefused);
      }
      if c.run !in db.versions {
        return Err(NotFound);
      }
      if db.versions[c.run] != c.expectedVersion {
        return Err(Conflict);
      }
      Wait();
      if a.step in db.attempts {
        return if db.attempts[a.step] == a then Ok(a) else Err(Conflict);
      }
      var opening := Open(db, c);
      if opening.Some? {
        OpenKeeps(db, c);
      }
      ghost var before := db;
      var committed :- Commit(opening);
      GrowsOn(start, before, db);
      before := db;
      var finished :- Finish(a, rebuilt);
      GrowsOn(start, before, db);
      return Ok(a);
    }
  }
}
