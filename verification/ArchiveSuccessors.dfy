/** The hand-written "exact successor" predicates, and their agreement with the transitions. */
module ArchiveSuccessors {
  import opened Bytes
  import opened Wrappers
  import opened Archive
  import opened ArchiveRuns

  /** One archive event per predicate; the lifecycle predicate serves four of them. */
  datatype Event =
    | Checkpointed | Started | HoldAcquired | SealingBegun | SealCommitted
    | DeletionReady | KeyErasureReady | KeyErased | Removed
  {
    predicate IsLifecycle() { SealingBegun? || SealCommitted? || KeyErased? || Removed? }

    function From(): Lifecycle
      requires IsLifecycle()
    {
      match this
      case SealingBegun => Streaming
      case SealCommitted => Sealing
      case KeyErased => DeletionPrepared
      case Removed => ArchiveKeyErased
    }

    function To(): Lifecycle
      requires IsLifecycle()
    {
      match this
      case SealingBegun => Sealing
      case SealCommitted => Sealed
      case KeyErased => ArchiveKeyErased
      case Removed => Deleted
    }
  }

  // ----- what each predicate tests of the one set that changed

  predicate CheckpointChange(dg: Digester, id: Uuid, b: BackupSet, a: BackupSet) {
    && a.identity == b.identity
    && a.lifecycle.Streaming?
    && a.deletionRequested == b.deletionRequested
    && a.deletionPreparation == b.deletionPreparation
    && a.keyErasurePreparation == b.keyErasurePreparation
    && a.holds == b.holds
    && |a.checkpoints| == |b.checkpoints| + 1
    && b.checkpoints <= a.checkpoints
    && var last := a.checkpoints[|b.checkpoints|];
    && last.desc.setId == id
    && ValidateAppendKind(b, last.desc).Pass?
    && last.desc.ordinal == (if b.head.ordinal < U64_MAX then b.head.ordinal + 1 else U64_MAX)
    && last.desc.predecessor == b.head.digest
    && a.head == ArchiveHead(last.desc.ordinal, dg(last))
  }

  predicate HoldChange(b: BackupSet, a: BackupSet) {
    && a.identity == b.identity
    && a.lifecycle.Streaming?
    && a.deletionRequested == b.deletionRequested
    && a.deletionPreparation == b.deletionPreparation
    && a.keyErasurePreparation == b.keyErasurePreparation
    && a.head == b.head
    && a.checkpoints == b.checkpoints
    && b.HasBase()
    && |a.holds| == |b.holds| + 1
    && (forall k: Uuid :: k in b.holds ==> k in a.holds && a.holds[k] == b.holds[k])
    && (exists k: Uuid :: k in a.holds && k !in b.holds && a.holds[k].Active())
  }

  predicate LifecycleChange(from: Lifecycle, to: Lifecycle, b: BackupSet, a: BackupSet) {
    && b.lifecycle == from
    && a == b.(lifecycle := to)
    && b.HasBase()
  }

  predicate DeletionReadyChange(b: BackupSet, a: BackupSet) {
    && b.lifecycle.Sealed?
    && b.deletionPreparation.None? && a.deletionPreparation.Some?
    && b.keyErasurePreparation.None?
    && a == b.(lifecycle := DeletionPrepared, deletionPreparation := a.deletionPreparation)
  }

  predicate KeyErasureReadyChange(b: BackupSet, a: BackupSet) {
    && b.lifecycle.DeletionPrepared?
    && b.keyErasurePreparation.None?
    && a == b.(keyErasurePreparation := b.deletionPreparation)
  }

  predicate FreshSet(a: BackupSet) {
    && a.lifecycle.Streaming?
    && !a.deletionRequested
    && a.deletionPreparation.None?
    && a.keyErasurePreparation.None?
    && a.checkpoints == []
    && a.holds == map[]
    && a.head.ordinal == 0
  }

  function ChangeOf(dg: Digester, e: Event): (Uuid, BackupSet, BackupSet) -> bool
    requires !e.Started?
  {
    if e.Checkpointed? then (id: Uuid, b: BackupSet, a: BackupSet) => CheckpointChange(dg, id, b, a)
    else if e.HoldAcquired? then (id: Uuid, b: BackupSet, a: BackupSet) => HoldChange(b, a)
    else if e.DeletionReady? then (id: Uuid, b: BackupSet, a: BackupSet) => DeletionReadyChange(b, a)
    else if e.KeyErasureReady? then (id: Uuid, b: BackupSet, a: BackupSet) => KeyErasureReadyChange(b, a)
    else (id: Uuid, b: BackupSet, a: BackupSet) => LifecycleChange(e.From(), e.To(), b, a)
  }

  // ----- what each predicate means

  /** Exactly one existing entry differs, and none came or went. */
  ghost predicate ChangedOnlyAt<T>(before: map<Uuid, T>, after: map<Uuid, T>, id: Uuid) {
    && id in before && id in after
    && after[id] != before[id]
    && after == before[id := after[id]]
  }

  ghost predicate AddedOnly<T>(before: map<Uuid, T>, after: map<Uuid, T>, id: Uuid) {
    && id !in before && id in after
    && after == before[id := after[id]]
  }

  ghost predicate Accepts(dg: Digester, e: Event, before: State, after: State) {
    if e.Started? then
      exists id: Uuid :: AddedOnly(before.sets, after.sets, id) && FreshSet(after.sets[id])
    else
      exists id: Uuid :: ChangedOnlyAt(before.sets, after.sets, id)
                         && ChangeOf(dg, e)(id, before.sets[id], after.sets[id])
  }

  // ----- the loops

  lemma SubsetOfSameSize<T>(a: set<T>, b: set<T>)
    requires a <= b && |a| == |b|
    ensures a == b
  {
    assert b == a + (b - a) && a !! (b - a);
  }

  method IterationOrder(s: set<Uuid>) returns (keys: seq<Uuid>)
    ensures forall k: Uuid :: k in keys <==> k in s
    ensures Ascending(keys)
  {
    keys := SortedKeys(s);
  }

  /** The loop shared by the five predicates that allow no set to come or go. */
  method ExactlyOneChanged<T(==)>(after: map<Uuid, T>, before: map<Uuid, T>, change: (Uuid, T, T) -> bool)
    returns (ok: bool)
    ensures ok <==> exists id: Uuid :: ChangedOnlyAt(before, after, id) && change(id, before[id], after[id])
  {
    if |after.Keys| != |before.Keys| {
      assert forall id: Uuid | ChangedOnlyAt(before, after, id) :: after.Keys == before.Keys;
      return false;
    }
    var keys := IterationOrder(before.Keys);
    var changed := false;
    ghost var at: Uuid := 0;
    for i := 0 to |keys|
      invariant forall j :: 0 <= j < i ==> keys[j] in after
      invariant forall j :: 0 <= j < i ==> after[keys[j]] == before[keys[j]] || (changed && keys[j] == at)
      invariant changed ==> at in before && at in after && at in keys[..i]
                            && after[at] != before[at] && change(at, before[at], after[at])
    {
      var id := keys[i];
      assert id in before;
      if id !in after {
        return false;
      }
      if after[id] != before[id] {
        if changed || !change(id, before[id], after[id]) {
          forall x: Uuid | ChangedOnlyAt(before, after, x) ensures !change(x, before[x], after[x]) {
            assert x == id;
          }
          return false;
        }
        changed := true;
        at := id;
      }
    }
    assert forall id: Uuid | id in before :: id in keys;
    SubsetOfSameSize(before.Keys, after.Keys);
    if changed {
      assert ChangedOnlyAt(before, after, at);
    }
    return changed;
  }

  /** The loop that looks for one new entry beside otherwise unchanged ones. */
  method ExactlyOneAdded<T(==)>(after: map<Uuid, T>, before: map<Uuid, T>, isNew: T -> bool) returns (ok: bool)
    ensures ok <==> exists id: Uuid :: AddedOnly(before, after, id) && isNew(after[id])
  {
    if |after.Keys| != |before.Keys| + 1 {
      assert forall id: Uuid | AddedOnly(before, after, id) :: after.Keys == before.Keys + {id};
      return false;
    }
    var keys := IterationOrder(after.Keys);
    var added := false;
    ghost var at: Uuid := 0;
    for i := 0 to |keys|
      invariant forall j :: 0 <= j < i ==>
                  if keys[j] in before then after[keys[j]] == before[keys[j]] else added && keys[j] == at
      invariant added ==> at !in before && at in after && at in keys[..i] && isNew(after[at])
    {
      var id := keys[i];
      assert id in after;
      if id in before {
        if before[id] != after[id] {
          assert forall x: Uuid | AddedOnly(before, after, x) :: id != x;
          return false;
        }
      } else if !added && isNew(after[id]) {
        added := true;
        at := id;
      } else {
        forall x: Uuid | AddedOnly(before, after, x) ensures !isNew(after[x]) {
          assert x == id;
        }
        return false;
      }
    }
    if added {
      forall id: Uuid | id in after && id != at ensures id in before && after[id] == before[id] {
        assert id in keys;
      }
      AllOthersKept(after, before, at);
    }
    return added;
  }

  lemma AllOthersKept<T>(after: map<Uuid, T>, before: map<Uuid, T>, id: Uuid)
    requires id in after && id !in before && |after.Keys| == |before.Keys| + 1
    requires forall x: Uuid :: x in after && x != id ==> x in before && after[x] == before[x]
    ensures AddedOnly(before, after, id)
  {
    var olds := after.Keys - {id};
    assert olds <= before.Keys;
    SubsetOfSameSize(olds, before.Keys);
  }

  method IsExactStartedSuccessorOf(dg: Digester, after: State, before: State) returns (ok: bool)
    ensures ok <==> Accepts(dg, Started, before, after)
  {
    ok := ExactlyOneAdded(after.sets, before.sets, FreshSet);
  }

  method IsExactCheckpointSuccessorOf(dg: Digester, after: State, before: State) returns (ok: bool)
    ensures ok <==> Accepts(dg, Checkpointed, before, after)
  {
    ok := ExactlyOneChanged(after.sets, before.sets, ChangeOf(dg, Checkpointed));
  }

  method IsExactHoldSuccessorOf(dg: Digester, after: State, before: State) returns (ok: bool)
    ensures ok <==> Accepts(dg, HoldAcquired, before, after)
  {
    ok := ExactlyOneChanged(after.sets, before.sets, ChangeOf(dg, HoldAcquired));
  }

  method IsExactLifecycleSuccessorOf(dg: Digester, after: State, before: State, e: Event) returns (ok: bool)
    requires e.IsLifecycle()
    ensures ok <==> Accepts(dg, e, before, after)
  {
    ok := ExactlyOneChanged(after.sets, before.sets, ChangeOf(dg, e));
  }

  method IsExactPreparedDeletionSuccessorOf(dg: Digester, after: State, before: State) returns (ok: bool)
    ensures ok <==> Accepts(dg, DeletionReady, before, after)
  {
    ok := ExactlyOneChanged(after.sets, before.sets, ChangeOf(dg, DeletionReady));
  }

  method IsExactKeyErasurePreparedSuccessorOf(dg: Digester, after: State, before: State) returns (ok: bool)
    ensures ok <==> Accepts(dg, KeyErasureReady, before, after)
  {
    ok := ExactlyOneChanged(after.sets, before.sets, ChangeOf(dg, KeyErasureReady));
  }

  // ----- the predicates exclude each other

  lemma ChangesExclusive(dg: Digester, e: Event, f: Event, id: Uuid, b: BackupSet, a: BackupSet)
    requires !e.Started? && !f.Started? && a != b
    requires ChangeOf(dg, e)(id, b, a) && ChangeOf(dg, f)(id, b, a)
    ensures e == f
  {
  }

  /** No two predicates accept the same pair of states, and none accepts a state as its own successor. */
  lemma EventsExclusive(dg: Digester, e: Event, f: Event, before: State, after: State)
    requires Accepts(dg, e, before, after) && Accepts(dg, f, before, after)
    ensures e == f && before != after
  {
    if e.Started? || f.Started? {
      var x: Uuid :| AddedOnly(before.sets, after.sets, x) && FreshSet(after.sets[x]);
      assert after.sets.Keys != before.sets.Keys;
    } else {
      var x: Uuid :| ChangedOnlyAt(before.sets, after.sets, x) && ChangeOf(dg, e)(x, before.sets[x], after.sets[x]);
      var y: Uuid :| ChangedOnlyAt(before.sets, after.sets, y) && ChangeOf(dg, f)(y, before.sets[y], after.sets[y]);
      assert x == y;
      ChangesExclusive(dg, e, f, x, before.sets[x], after.sets[x]);
    }
  }

  // ----- agreement with the transitions

  ghost predicate Produces(op: Op, e: Event) {
    match op
    case OpStart(_, _) => e.Started?
    case OpCommit(_, _) => e.Checkpointed?
    case OpHold(_, _) => e.HoldAcquired?
    case OpRelease(_, _, _) => false
    case OpBeginSealing(_) => e.SealingBegun?
    case OpCommitSealed(_) => e.SealCommitted?
    case OpPrepareDeletion(_, _) => e.DeletionReady?
    case OpPrepareKeyErasure(_, _) => e.KeyErasureReady?
    case OpRecordKeyErased(_) => e.KeyErased?
    case OpFinalizeDeleted(_) => e.Removed?
  }

  /** What the predicate of an event leaves unchecked about the set it changes. */
  ghost predicate Omitted(e: Event, b: BackupSet) {
    match e
    case Checkpointed => b.lifecycle.Streaming? && b.head.ordinal < U64_MAX
    case HoldAcquired => b.lifecycle.Streaming?
    case SealingBegun => !b.HasActiveHold()
    case KeyErased => b.keyErasurePreparation.Some?
    case _ => true
  }

  ghost predicate Guarded(e: Event, before: State, after: State) {
    forall id: Uuid :: id in before.sets && id in after.sets && after.sets[id] != before.sets[id]
                       ==> Omitted(e, before.sets[id])
  }

  /** What every value of the state's type satisfies by construction: descriptors passed their
      constructor, and sets and holds are filed under their own identifiers. */
  ghost predicate Typed(s: State) {
    forall id: Uuid :: id in s.sets ==>
      && s.sets[id].identity.setId == id
      && (forall i :: 0 <= i < |s.sets[id].checkpoints| ==> s.sets[id].checkpoints[i].desc.Valid())
      && (forall k: Uuid :: k in s.sets[id].holds ==> s.sets[id].holds[k].id == k)
  }

  lemma CommitAccepted(dg: Digester, s: State, r: Reservation, c: Checkpoint, s': State)
    requires Inv(dg, s) && r.Valid()
    requires CommitCheckpoint(dg, s, r, c) == Ok(s')
    ensures Accepts(dg, Checkpointed, s, s') && Guarded(Checkpointed, s, s')
  {
    var b, a := s.sets[r.setId], s'.sets[r.setId];
    assert a.checkpoints[|b.checkpoints|] == c;
    assert CheckpointChange(dg, r.setId, b, a);
    assert ChangedOnlyAt(s.sets, s'.sets, r.setId);
  }

  lemma HoldAccepted(dg: Digester, s: State, id: Uuid, hold: Uuid, s': State)
    requires AcquireRestoreHold(s, id, hold) == Ok(s')
    ensures Accepts(dg, HoldAcquired, s, s') && Guarded(HoldAcquired, s, s')
  {
    HoldIsChange(s.sets[id], hold);
    assert ChangedOnlyAt(s.sets, s'.sets, id);
  }

  lemma HoldIsChange(b: BackupSet, hold: Uuid)
    requires b.lifecycle.Streaming? && b.HasBase() && hold !in b.holds
    ensures HoldChange(b, b.(holds := b.holds[hold := RestoreHold(hold, None)]))
  {
    var holds := b.holds[hold := RestoreHold(hold, None)];
    assert holds.Keys == b.holds.Keys + {hold};
    assert hold in holds && holds[hold].Active();
  }

  lemma PreparationAccepted(dg: Digester, s: State, op: Op, s': State, e: Event)
    requires Inv(dg, s) && Produces(op, e)
    requires op.OpPrepareDeletion? || op.OpPrepareKeyErasure?
    requires Apply(dg, s, op) == Ok(s')
    ensures Accepts(dg, e, s, s') && Guarded(e, s, s')
  {
    var b, a := s.sets[op.setId], s'.sets[op.setId];
    assert SetInv(dg, op.setId, b);
    assert ChangeOf(dg, e)(op.setId, b, a);
    assert ChangedOnlyAt(s.sets, s'.sets, op.setId);
  }

  lemma LifecycleAccepted(dg: Digester, s: State, op: Op, s': State, e: Event)
    requires Inv(dg, s) && Produces(op, e) && e.IsLifecycle()
    requires Apply(dg, s, op) == Ok(s')
    ensures Accepts(dg, e, s, s') && Guarded(e, s, s')
  {
    var b, a := s.sets[op.setId], s'.sets[op.setId];
    assert SetInv(dg, op.setId, b);
    assert b.checkpoints != [] ==> Linked(dg, op.setId, b.checkpoints, 0);
    assert LifecycleChange(e.From(), e.To(), b, a);
    assert ChangedOnlyAt(s.sets, s'.sets, op.setId);
  }

  /** Soundness: the result of an operation is accepted by that operation's predicate, except that a
      set started away from ordinal zero is accepted by none. */
  lemma OperationsAccepted(dg: Digester, s: State, op: Op, s': State, e: Event)
    requires Inv(dg, s) && op.Valid() && Produces(op, e)
    requires Apply(dg, s, op) == Ok(s')
    ensures Accepts(dg, e, s, s') <==> (op.OpStart? ==> op.initial.ordinal == 0)
    ensures Guarded(e, s, s')
  {
    match op
    case OpStart(identity, initial) =>
      assert AddedOnly(s.sets, s'.sets, identity.setId);
      assert forall x: Uuid | AddedOnly(s.sets, s'.sets, x) :: x == identity.setId;
    case OpCommit(r, c) => CommitAccepted(dg, s, r, c, s');
    case OpHold(id, hold) => HoldAccepted(dg, s, id, hold, s');
    case OpPrepareDeletion(_, _) => PreparationAccepted(dg, s, op, s', e);
    case OpPrepareKeyErasure(_, _) => PreparationAccepted(dg, s, op, s', e);
    case _ => LifecycleAccepted(dg, s, op, s', e);
  }

  /** What the checkpoint predicate accepts, said of the one set that changed: it streams, is otherwise as it was, and
      has one checkpoint more, which is its own, next in order, chained to the head before it, and may follow the
      others. */
  predicate Gains(dg: Digester, id: Uuid, b: BackupSet, a: BackupSet, c: Checkpoint) {
    && a == b.(lifecycle := Streaming, head := ArchiveHead(c.desc.ordinal, dg(c)), checkpoints := b.checkpoints + [c])
    && c.desc.setId == id && c.desc.predecessor == b.head.digest
    && c.desc.ordinal == (if b.head.ordinal < U64_MAX then b.head.ordinal + 1 else U64_MAX)
    && Continues(b.checkpoints, c.desc)
  }

  ghost predicate GainsCheckpoint(dg: Digester, id: Uuid, b: BackupSet, a: BackupSet) {
    exists c: Checkpoint :: Gains(dg, id, b, a, c)
  }

  lemma GainedIsChange(dg: Digester, id: Uuid, b: BackupSet, a: BackupSet, c: Checkpoint)
    requires SetInv(dg, id, b) && Gains(dg, id, b, a, c)
    ensures CheckpointChange(dg, id, b, a)
  {
    assert b.checkpoints != [] ==> Linked(dg, id, b.checkpoints, 0);
    assert a.checkpoints[|b.checkpoints|] == c;
  }

  lemma ChangeIsGained(dg: Digester, id: Uuid, b: BackupSet, a: BackupSet)
    requires SetInv(dg, id, b) && CheckpointChange(dg, id, b, a)
    ensures Gains(dg, id, b, a, a.checkpoints[|b.checkpoints|])
  {
    assert b.checkpoints != [] ==> Linked(dg, id, b.checkpoints, 0);
    assert a.checkpoints == b.checkpoints + [a.checkpoints[|b.checkpoints|]];
  }

  /** The checkpoint predicate accepts a successor of a well-formed state if and only if exactly one set gained such a
      checkpoint. */
  lemma CheckpointAcceptedIff(dg: Digester, before: State, after: State)
    requires Inv(dg, before)
    ensures Accepts(dg, Checkpointed, before, after) <==>
            exists id: Uuid :: ChangedOnlyAt(before.sets, after.sets, id)
                               && GainsCheckpoint(dg, id, before.sets[id], after.sets[id])
  {
    forall id: Uuid | ChangedOnlyAt(before.sets, after.sets, id)
      ensures ChangeOf(dg, Checkpointed)(id, before.sets[id], after.sets[id])
         <==> GainsCheckpoint(dg, id, before.sets[id], after.sets[id])
    {
      var b, a := before.sets[id], after.sets[id];
      if CheckpointChange(dg, id, b, a) {
        ChangeIsGained(dg, id, b, a);
      }
      if c: Checkpoint :| Gains(dg, id, b, a, c) {
        GainedIsChange(dg, id, b, a, c);
      }
    }
  }

  lemma NewHoldIsOne(b: BackupSet, a: BackupSet) returns (hold: Uuid)
    requires HoldChange(b, a)
    ensures hold in a.holds && hold !in b.holds && a.holds[hold].Active()
    ensures a.holds == b.holds[hold := a.holds[hold]]
  {
    hold :| hold in a.holds && hold !in b.holds && a.holds[hold].Active();
    var olds := b.holds.Keys + {hold};
    assert olds <= a.holds.Keys;
    SubsetOfSameSize(olds, a.holds.Keys);
  }

  lemma CheckpointHasOperation(dg: Digester, s: State, s': State, id: Uuid) returns (op: Op)
    requires Inv(dg, s) && Typed(s')
    requires ChangedOnlyAt(s.sets, s'.sets, id) && CheckpointChange(dg, id, s.sets[id], s'.sets[id])
    requires Omitted(Checkpointed, s.sets[id])
    ensures op.Valid() && op.OpCommit? && Apply(dg, s, op) == Ok(s')
  {
    var b, a := s.sets[id], s'.sets[id];
    assert SetInv(dg, id, b);
    var last := a.checkpoints[|b.checkpoints|];
    assert a.checkpoints == b.checkpoints + [last];
    op := OpCommit(Reservation(id, b.head, last.desc), last);
    assert a == b.(head := a.head, checkpoints := a.checkpoints);
  }

  /** Completeness for a changed set: with the omitted guard, some call of the operation produces it. */
  lemma ChangeHasOperation(dg: Digester, e: Event, s: State, s': State, id: Uuid) returns (op: Op)
    requires Inv(dg, s) && Typed(s') && !e.Started?
    requires ChangedOnlyAt(s.sets, s'.sets, id) && ChangeOf(dg, e)(id, s.sets[id], s'.sets[id])
    requires Omitted(e, s.sets[id])
    ensures op.Valid() && Produces(op, e) && Apply(dg, s, op) == Ok(s')
  {
    var b, a := s.sets[id], s'.sets[id];
    assert SetInv(dg, id, b);
    match e {
      case Checkpointed => op := CheckpointHasOperation(dg, s, s', id);
      case HoldAcquired =>
        var hold := NewHoldIsOne(b, a);
        op := OpHold(id, hold);
        assert a == b.(holds := b.holds[hold := RestoreHold(hold, None)]);
      case SealingBegun => op := OpBeginSealing(id);
      case SealCommitted => op := OpCommitSealed(id);
      case DeletionReady =>
        op := OpPrepareDeletion(id, a.deletionPreparation.value);
        assert s.sets[id := b.(lifecycle := DeletionPrepared)][id := a] == s.sets[id := a];
      case KeyErasureReady => op := OpPrepareKeyErasure(id, b.deletionPreparation.value);
      case KeyErased => op := OpRecordKeyErased(id);
      case Removed => op := OpFinalizeDeleted(id);
    }
  }

  /** On every well-formed state: some call of an event's operation (from an ordinal-zero head, for a
      start) produces a successor if and only if the event's predicate accepts it and the guards the
      predicate omits hold. */
  lemma PredicateIffOperation(dg: Digester, e: Event, s: State, s': State)
    requires Inv(dg, s) && Typed(s')
    ensures Accepts(dg, e, s, s') && Guarded(e, s, s')
       <==> exists op: Op :: op.Valid() && Produces(op, e) && (op.OpStart? ==> op.initial.ordinal == 0)
                             && Apply(dg, s, op) == Ok(s')
  {
    if Accepts(dg, e, s, s') && Guarded(e, s, s') {
      if e.Started? {
        var id: Uuid :| AddedOnly(s.sets, s'.sets, id) && FreshSet(s'.sets[id]);
        var op := OpStart(s'.sets[id].identity, s'.sets[id].head);
        assert Apply(dg, s, op) == Ok(s');
        assert op.Valid() && Produces(op, e);
      } else {
        var id: Uuid :| ChangedOnlyAt(s.sets, s'.sets, id) && ChangeOf(dg, e)(id, s.sets[id], s'.sets[id]);
        var op := ChangeHasOperation(dg, e, s, s', id);
        assert op.Valid() && Produces(op, e) && Apply(dg, s, op) == Ok(s');
      }
    }
    if op: Op :| op.Valid() && Produces(op, e) && (op.OpStart? ==> op.initial.ordinal == 0)
                 && Apply(dg, s, op) == Ok(s') {
      OperationsAccepted(dg, s, op, s', e);
    }
  }

  /** The omitted guard matters: the sealing predicate accepts a set that still has an active hold,
      although no operation of the machine produces that successor. */
  lemma SealingPredicateIgnoresHolds(dg: Digester, s: State, id: Uuid)
    requires Inv(dg, s) && Typed(s)
    requires id in s.sets && s.sets[id].lifecycle.Streaming? && s.sets[id].HasActiveHold()
    ensures var s' := Put(s, id, s.sets[id].(lifecycle := Sealing));
            && Accepts(dg, SealingBegun, s, s')
            && forall op: Op :: op.Valid() ==> Apply(dg, s, op) != Ok(s')
  {
    var b := s.sets[id];
    var s' := Put(s, id, b.(lifecycle := Sealing));
    assert SetInv(dg, id, b);
    assert Linked(dg, id, b.checkpoints, 0);
    assert LifecycleChange(Streaming, Sealing, b, s'.sets[id]);
    assert ChangeOf(dg, SealingBegun)(id, b, s'.sets[id]);
    assert ChangedOnlyAt(s.sets, s'.sets, id);
    forall op: Op | op.Valid() ensures Apply(dg, s, op) != Ok(s') {
      if Apply(dg, s, op) == Ok(s') {
        StepKeeps(dg, s, op, s');
        assert SetInv(dg, id, s'.sets[id]);
        var k: Uuid :| k in b.holds && b.holds[k].Active();
        assert s'.sets[id].HasActiveHold();
        assert false;
      }
    }
  }
}
