/** What every run of the archive machine keeps. */
module ArchiveRuns {
  import opened Bytes
  import opened Wrappers
  import opened Archive

  // ----- the invariant of one set and of the whole state

  /** Position i of a checkpoint list: gap-free ordinal, hash link, one base at the front,
      and write-ahead segments that descend from that base. */
  ghost predicate Linked(dg: Digester, setId: Uuid, cs: seq<Checkpoint>, i: nat)
    requires i < |cs|
  {
    var d := cs[i].desc;
    && d.Valid()
    && d.setId == setId
    && d.ordinal == i + 1
    && (i > 0 ==> d.predecessor == dg(cs[i - 1]))
    && (d.kind.BaseChunk? <==> i == 0)
    && (d.kind.WalSegment? ==> d.timeline == cs[0].desc.timeline && cs[0].desc.startLsn <= d.startLsn)
  }

  ghost predicate Chain(dg: Digester, setId: Uuid, cs: seq<Checkpoint>) {
    forall i :: 0 <= i < |cs| ==> Linked(dg, setId, cs, i)
  }

  ghost predicate SetInv(dg: Digester, id: Uuid, b: BackupSet) {
    && b.identity.setId == id
    && !b.deletionRequested
    && Chain(dg, id, b.checkpoints)
    && |b.checkpoints| <= U64_MAX
    && (b.checkpoints != [] ==>
          b.head == ArchiveHead(|b.checkpoints|, dg(b.checkpoints[|b.checkpoints| - 1])))
    && (forall k: Uuid :: k in b.holds ==> b.holds[k].id == k)
    && (b.holds != map[] ==> b.checkpoints != [])
    && (b.deletionPreparation.Some? <==> b.lifecycle.Condemned())
    && (b.keyErasurePreparation.Some? ==> b.keyErasurePreparation == b.deletionPreparation)
    && (b.lifecycle.ArchiveKeyErased? || b.lifecycle.Deleted? ==> b.keyErasurePreparation.Some?)
    && (!b.lifecycle.Streaming? ==> b.checkpoints != [] && !b.HasActiveHold())
  }

  ghost predicate Inv(dg: Digester, s: State) {
    forall id: Uuid :: id in s.sets ==> SetInv(dg, id, s.sets[id])
  }

  // ----- how one set may change over any number of steps

  ghost predicate HoldEvolves(x: RestoreHold, y: RestoreHold) {
    x.id == y.id && (x == y || x.Active())
  }

  ghost predicate Evolves(b: BackupSet, c: BackupSet) {
    && c.identity == b.identity
    && b.checkpoints <= c.checkpoints
    && b.lifecycle.Code() <= c.lifecycle.Code()
    && b.holds.Keys <= c.holds.Keys
    && (forall k: Uuid :: k in b.holds ==> HoldEvolves(b.holds[k], c.holds[k]))
    && (!b.lifecycle.Streaming? ==>
          c.head == b.head && c.checkpoints == b.checkpoints && c.holds == b.holds)
    && (b.deletionPreparation.Some? ==> c.deletionPreparation == b.deletionPreparation)
    && (b.keyErasurePreparation.Some? ==> c.keyErasurePreparation == b.keyErasurePreparation)
    && b.head.ordinal <= c.head.ordinal
    && (b.head.ordinal == c.head.ordinal ==> c.head == b.head && c.checkpoints == b.checkpoints)
    && (c.checkpoints == b.checkpoints ==> c.head == b.head)
    && (b.checkpoints == [] && c.checkpoints != [] ==>
          b.head.ordinal == 0 && c.checkpoints[0].desc.predecessor == b.head.digest)
  }

  lemma EvolvesTransitive(a: BackupSet, b: BackupSet, c: BackupSet)
    requires Evolves(a, b) && Evolves(b, c)
    ensures Evolves(a, c)
  {
  }

  /** One step: everything else untouched, the target kept well-formed and moved forward by at most one. */
  ghost predicate StepOn(dg: Digester, s: State, id: Uuid, s': State) {
    && id in s'.sets
    && s'.sets == s.sets[id := s'.sets[id]]
    && SetInv(dg, id, s'.sets[id])
    && (id in s.sets ==>
          && Evolves(s.sets[id], s'.sets[id])
          && s'.sets[id].lifecycle.Code() <= s.sets[id].lifecycle.Code() + 1)
  }

  lemma ChainExtends(dg: Digester, id: Uuid, cs: seq<Checkpoint>, c: Checkpoint)
    requires Chain(dg, id, cs)
    requires Linked(dg, id, cs + [c], |cs|)
    ensures Chain(dg, id, cs + [c])
  {
    var ds := cs + [c];
    forall i | 0 <= i < |ds| ensures Linked(dg, id, ds, i) {
      if i < |cs| {
        assert Linked(dg, id, cs, i);
        assert ds[i] == cs[i] && ds[0] == cs[0] && (i > 0 ==> ds[i - 1] == cs[i - 1]);
      }
    }
  }

  lemma CommitStep(dg: Digester, s: State, r: Reservation, c: Checkpoint, s': State)
    requires Inv(dg, s) && r.Valid()
    requires CommitCheckpoint(dg, s, r, c) == Ok(s')
    ensures StepOn(dg, s, r.setId, s')
  {
    var b := s.sets[r.setId];
    var cs := b.checkpoints;
    assert SetInv(dg, r.setId, b);
    if cs != [] {
      assert Linked(dg, r.setId, cs, 0) && Linked(dg, r.setId, cs, |cs| - 1);
    }
    var ds := cs + [c];
    assert ds[|cs|] == c && (cs != [] ==> ds[0] == cs[0] && ds[|cs| - 1] == cs[|cs| - 1]);
    ChainExtends(dg, r.setId, cs, c);
    assert forall k: Uuid | k in b.holds :: HoldEvolves(b.holds[k], b.holds[k]);
  }

  lemma HoldStep(dg: Digester, s: State, op: Op, s': State)
    requires Inv(dg, s)
    requires op.OpHold? || op.OpRelease?
    requires Apply(dg, s, op) == Ok(s')
    ensures StepOn(dg, s, op.setId, s')
  {
    var b, c := s.sets[op.setId], s'.sets[op.setId];
    assert SetInv(dg, op.setId, b);
    forall k: Uuid | k in b.holds ensures HoldEvolves(b.holds[k], c.holds[k]) {}
    if op.OpRelease? {
      assert b.holds[op.hold].Active() && b.HasActiveHold();
    }
  }

  /** A step that leaves holds, checkpoints and head alone evolves the set if the rest of it does. */
  lemma SteadyEvolves(b: BackupSet, c: BackupSet)
    requires c.identity == b.identity && c.head == b.head && c.checkpoints == b.checkpoints && c.holds == b.holds
    requires b.lifecycle.Code() <= c.lifecycle.Code()
    requires b.deletionPreparation.Some? ==> c.deletionPreparation == b.deletionPreparation
    requires b.keyErasurePreparation.Some? ==> c.keyErasurePreparation == b.keyErasurePreparation
    ensures Evolves(b, c)
    ensures c.HasActiveHold() <==> b.HasActiveHold()
  {
  }

  lemma SealStep(dg: Digester, s: State, op: Op, s': State)
    requires Inv(dg, s)
    requires op.OpBeginSealing? || op.OpCommitSealed?
    requires Apply(dg, s, op) == Ok(s')
    ensures StepOn(dg, s, op.setId, s')
  {
    assert SetInv(dg, op.setId, s.sets[op.setId]);
    SteadyEvolves(s.sets[op.setId], s'.sets[op.setId]);
  }

  lemma DeletionStep(dg: Digester, s: State, op: Op, s': State)
    requires Inv(dg, s)
    requires op.OpPrepareDeletion? || op.OpPrepareKeyErasure? || op.OpRecordKeyErased? || op.OpFinalizeDeleted?
    requires Apply(dg, s, op) == Ok(s')
    ensures StepOn(dg, s, op.setId, s')
  {
    assert SetInv(dg, op.setId, s.sets[op.setId]);
    SteadyEvolves(s.sets[op.setId], s'.sets[op.setId]);
  }

  lemma StepKeeps(dg: Digester, s: State, op: Op, s': State)
    requires Inv(dg, s) && op.Valid()
    requires Apply(dg, s, op) == Ok(s')
    ensures StepOn(dg, s, op.Target(), s')
    ensures Inv(dg, s')
  {
    match op
    case OpStart(_, _) =>
    case OpCommit(r, c) => CommitStep(dg, s, r, c, s');
    case OpHold(_, _) => HoldStep(dg, s, op, s');
    case OpRelease(_, _, _) => HoldStep(dg, s, op, s');
    case OpBeginSealing(_) => SealStep(dg, s, op, s');
    case OpCommitSealed(_) => SealStep(dg, s, op, s');
    case _ => DeletionStep(dg, s, op, s');
  }

  // ----- runs

  predicate ValidOps(ops: seq<Op>) {
    forall i :: 0 <= i < |ops| ==> ops[i].Valid()
  }

  function Run(dg: Digester, s: State, ops: seq<Op>): Result<State, ArchiveError>
    decreases |ops|
  {
    if ops == [] then Ok(s) else
      var next :- Apply(dg, s, ops[0]);
      Run(dg, next, ops[1..])
  }

  ghost predicate Reachable(dg: Digester, s: State) {
    exists ops: seq<Op> :: ValidOps(ops) && Run(dg, EMPTY, ops) == Ok(s)
  }

  lemma {:induction false} RunSplit(dg: Digester, s: State, a: seq<Op>, b: seq<Op>)
    ensures Run(dg, s, a + b) ==
            match Run(dg, s, a) case Ok(m) => Run(dg, m, b) case Err(e) => Err(e)
    decreases |a|
  {
    if a == [] {
      assert a + b == b;
    } else {
      assert (a + b)[1..] == a[1..] + b;
      var first := Apply(dg, s, a[0]);
      if first.Ok? {
        RunSplit(dg, first.value, a[1..], b);
      }
    }
  }

  /** Every run keeps the invariant and lets each existing set only evolve. */
  lemma {:induction false} RunKeeps(dg: Digester, s: State, ops: seq<Op>, s': State)
    requires Inv(dg, s) && ValidOps(ops)
    requires Run(dg, s, ops) == Ok(s')
    ensures Inv(dg, s')
    ensures forall id: Uuid :: id in s.sets ==> id in s'.sets && Evolves(s.sets[id], s'.sets[id])
    decreases |ops|
  {
    if ops == [] {
      forall id: Uuid | id in s.sets ensures Evolves(s.sets[id], s.sets[id]) {
        var b := s.sets[id];
        assert forall k: Uuid | k in b.holds :: HoldEvolves(b.holds[k], b.holds[k]);
      }
    } else {
      var m := Apply(dg, s, ops[0]).value;
      StepKeeps(dg, s, ops[0], m);
      RunKeeps(dg, m, ops[1..], s');
      forall id: Uuid | id in s.sets ensures id in s'.sets && Evolves(s.sets[id], s'.sets[id]) {
        if id == ops[0].Target() {
          EvolvesTransitive(s.sets[id], m.sets[id], s'.sets[id]);
        }
      }
    }
  }

  lemma ReachableInv(dg: Digester, s: State)
    requires Reachable(dg, s)
    ensures Inv(dg, s)
  {
    var ops: seq<Op> :| ValidOps(ops) && Run(dg, EMPTY, ops) == Ok(s);
    RunKeeps(dg, EMPTY, ops, s);
  }

  // ----- leaving Streaming is final, and a hold prevents it

  /** A set that has left Streaming is frozen: no hold is active or ever added, and its
      head, checkpoints and holds never change; a condemned set keeps its preparations. */
  lemma FrozenAfterStreaming(dg: Digester, s: State, ops: seq<Op>, s': State, id: Uuid)
    requires Inv(dg, s) && ValidOps(ops)
    requires Run(dg, s, ops) == Ok(s')
    requires id in s.sets && !s.sets[id].lifecycle.Streaming?
    ensures id in s'.sets
    ensures !s'.sets[id].HasActiveHold() && !s'.sets[id].lifecycle.Streaming?
    ensures s'.sets[id].head == s.sets[id].head
    ensures s'.sets[id].checkpoints == s.sets[id].checkpoints
    ensures s'.sets[id].holds == s.sets[id].holds
    ensures s'.sets[id].lifecycle.ArchiveKeyErased? || s'.sets[id].lifecycle.Deleted? ==>
              s'.sets[id].keyErasurePreparation.Some?
              && s'.sets[id].keyErasurePreparation == s'.sets[id].deletionPreparation
  {
    RunKeeps(dg, s, ops, s');
    assert SetInv(dg, id, s'.sets[id]);
  }

  /** Over any run that never releases it, an active hold stays active and its set stays Streaming. */
  lemma {:induction false} UnreleasedHoldKeepsStreaming(
    dg: Digester, s: State, ops: seq<Op>, s': State, id: Uuid, hold: Uuid)
    requires Inv(dg, s) && ValidOps(ops)
    requires Run(dg, s, ops) == Ok(s')
    requires id in s.sets && hold in s.sets[id].holds && s.sets[id].holds[hold].Active()
    requires forall i :: 0 <= i < |ops| ==> !(ops[i].OpRelease? && ops[i].setId == id && ops[i].hold == hold)
    ensures id in s'.sets && hold in s'.sets[id].holds && s'.sets[id].holds[hold].Active()
    ensures s'.sets[id].lifecycle.Streaming?
    decreases |ops|
  {
    if ops == [] {
      assert SetInv(dg, id, s.sets[id]) && s.sets[id].HasActiveHold();
    } else {
      var m := Apply(dg, s, ops[0]).value;
      StepKeepsHold(dg, s, ops[0], m, id, hold);
      UnreleasedHoldKeepsStreaming(dg, m, ops[1..], s', id, hold);
    }
  }

  lemma StepKeepsHold(dg: Digester, s: State, op: Op, s': State, id: Uuid, hold: Uuid)
    requires Inv(dg, s) && op.Valid() && Apply(dg, s, op) == Ok(s')
    requires id in s.sets && hold in s.sets[id].holds && s.sets[id].holds[hold].Active()
    requires !(op.OpRelease? && op.setId == id && op.hold == hold)
    ensures Inv(dg, s') && id in s'.sets && hold in s'.sets[id].holds && s'.sets[id].holds[hold].Active()
  {
    StepKeeps(dg, s, op, s');
    if op.Target() == id {
      assert HoldEvolves(s.sets[id].holds[hold], s'.sets[id].holds[hold]);
    }
  }

  /** No lifecycle state is skipped: to get from one to a later one a run passes through each between. */
  lemma {:induction false} NoLifecycleSkipped(
    dg: Digester, s: State, ops: seq<Op>, s': State, id: Uuid, code: int)
    requires Inv(dg, s) && ValidOps(ops)
    requires Run(dg, s, ops) == Ok(s')
    requires id in s.sets && id in s'.sets
    requires s.sets[id].lifecycle.Code() <= code <= s'.sets[id].lifecycle.Code()
    ensures exists n :: 0 <= n <= |ops| && Run(dg, s, ops[..n]).Ok?
              && id in Run(dg, s, ops[..n]).value.sets
              && Run(dg, s, ops[..n]).value.sets[id].lifecycle.Code() == code
    decreases |ops|
  {
    if s.sets[id].lifecycle.Code() == code {
      assert ops[..0] == [];
      assert Run(dg, s, ops[..0]) == Ok(s);
    } else {
      var m := Apply(dg, s, ops[0]).value;
      StepKeeps(dg, s, ops[0], m);
      NoLifecycleSkipped(dg, m, ops[1..], s', id, code);
      var n :| 0 <= n <= |ops[1..]| && Run(dg, m, ops[1..][..n]).Ok?
               && id in Run(dg, m, ops[1..][..n]).value.sets
               && Run(dg, m, ops[1..][..n]).value.sets[id].lifecycle.Code() == code;
      assert ops[..n + 1][1..] == ops[1..][..n];
      assert Run(dg, s, ops[..n + 1]) == Run(dg, m, ops[1..][..n]);
    }
  }

  // ----- what may be appended

  /** Which object may follow these checkpoints: first a base at ordinal one, and after it anything but another base,
      a write-ahead segment only from the base's timeline and not from before it. */
  predicate Continues(cs: seq<Checkpoint>, d: Descriptor) {
    if cs == [] then d.kind.BaseChunk? && d.ordinal == 1
    else
      || d.kind.TimelineHistory?
      || (d.kind.WalSegment? && d.timeline == cs[0].desc.timeline && cs[0].desc.startLsn <= d.startLsn)
  }

  /** A checkpoint of a reservation is committed if and only if its set is known, streams, stands at the expected head
      and the object may follow what the set holds; then the set gains just that checkpoint and its head. */
  lemma CommitsIff(dg: Digester, s: State, r: Reservation)
    requires Inv(dg, s) && r.Valid()
    ensures var result, c := CommitCheckpoint(dg, s, r, Checkpoint(r.desc)), Checkpoint(r.desc);
            && (result.Ok? <==>
                && r.setId in s.sets && s.sets[r.setId].lifecycle.Streaming? && s.sets[r.setId].head == r.expected
                && Continues(s.sets[r.setId].checkpoints, r.desc))
            && (result.Ok? ==>
                  var b := s.sets[r.setId];
                  result.value.sets == s.sets[r.setId := b.(head := ArchiveHead(r.desc.ordinal, dg(c)),
                                                            checkpoints := b.checkpoints + [c])])
  {
    if r.setId in s.sets && s.sets[r.setId].checkpoints != [] {
      assert Linked(dg, r.setId, s.sets[r.setId].checkpoints, 0);
    }
  }

  /** Reserving asks the same, and of the caller a reservation that fits together. */
  lemma ReservesIff(dg: Digester, s: State, id: Uuid, expected: ArchiveHead, desc: Descriptor)
    requires Inv(dg, s) && desc.Valid()
    ensures ReserveAppend(s, id, expected, desc).Ok? <==>
            && Reservation(id, expected, desc).Valid()
            && id in s.sets && s.sets[id].lifecycle.Streaming? && s.sets[id].head == expected
            && Continues(s.sets[id].checkpoints, desc)
  {
    ReserveIffCommit(dg, s, id, expected, desc);
    if Reservation(id, expected, desc).Valid() {
      CommitsIff(dg, s, Reservation(id, expected, desc));
    }
  }

  /** Which refusal an append meets, on a set that stands at the expected head: no base yet, a base out of place, a
      second base, or a segment that does not descend from the base. */
  lemma AppendRefusals(dg: Digester, s: State, r: Reservation)
    requires Inv(dg, s) && r.Valid()
    requires r.setId in s.sets && s.sets[r.setId].lifecycle.Streaming? && s.sets[r.setId].head == r.expected
    requires !Continues(s.sets[r.setId].checkpoints, r.desc)
    ensures var started := s.sets[r.setId].checkpoints != [];
            CommitCheckpoint(dg, s, r, Checkpoint(r.desc))
            == Err(match r.desc.kind
                   case BaseChunk => if started then DuplicateBaseCheckpoint else BaseCheckpointMustBeFirst
                   case _ => if started then BaseCheckpointAncestryMismatch else BaseCheckpointRequired)
  {
    if s.sets[r.setId].checkpoints != [] {
      assert Linked(dg, r.setId, s.sets[r.setId].checkpoints, 0);
    }
  }

  // ----- which lifecycle steps go through

  /** In well-formed states each step of the lifecycle asks for the one before it and little more: no unreleased hold
      and a checkpoint for the first, the prepared digest for preparing the erasure, and that preparation for recording
      it. */
  lemma LifecycleIff(dg: Digester, s: State, id: Uuid, d: Digest)
    requires Inv(dg, s) && id in s.sets
    ensures var b := s.sets[id];
            && (BeginSealing(s, id).Ok? <==>
                && b.lifecycle == Streaming && b.checkpoints != []
                && forall k: Uuid :: k in b.holds ==> b.holds[k].released.Some?)
            && (CommitSealed(s, id).Ok? <==> b.lifecycle == Sealing)
            && (PrepareDeletion(s, id, d).Ok? <==> b.lifecycle == Sealed)
            && (PrepareKeyErasure(s, id, d).Ok? <==>
                b.lifecycle == DeletionPrepared && b.deletionPreparation == Some(d) && b.keyErasurePreparation == None)
            && (RecordKeyErased(s, id).Ok? <==> b.lifecycle == DeletionPrepared && b.keyErasurePreparation.Some?)
            && (FinalizeDeleted(s, id).Ok? <==> b.lifecycle == ArchiveKeyErased)
  {
    assert SetInv(dg, id, s.sets[id]);
    assert s.sets[id].checkpoints != [] ==> Linked(dg, id, s.sets[id].checkpoints, 0);
  }

  /** Why one is refused: an unreleased hold where a set would seal, be sealed or be condemned, nothing to restore from
      where it would seal, and otherwise the lifecycle or a preparation. */
  lemma LifecycleRefusals(dg: Digester, s: State, id: Uuid, d: Digest)
    requires Inv(dg, s) && id in s.sets
    ensures var b := s.sets[id];
            var held := exists k: Uuid :: k in b.holds && b.holds[k].released.None?;
            && (BeginSealing(s, id).Err? ==>
                  BeginSealing(s, id).error == if b.lifecycle != Streaming then InvalidLifecycleTransition
                                               else if b.checkpoints == [] then NotRestorable else RestoreHoldPresent)
            && (CommitSealed(s, id).Err? ==>
                  CommitSealed(s, id).error == if held then RestoreHoldPresent else InvalidLifecycleTransition)
            && (PrepareDeletion(s, id, d).Err? ==>
                  PrepareDeletion(s, id, d).error == if held then RestoreHoldPresent else InvalidLifecycleTransition)
            && (PrepareKeyErasure(s, id, d).Err? ==> PrepareKeyErasure(s, id, d).error == InvalidLifecycleTransition)
            && (RecordKeyErased(s, id).Err? ==> RecordKeyErased(s, id).error == InvalidLifecycleTransition)
            && (FinalizeDeleted(s, id).Err? ==> FinalizeDeleted(s, id).error == InvalidLifecycleTransition)
  {
    assert SetInv(dg, id, s.sets[id]);
    assert s.sets[id].checkpoints != [] ==> Linked(dg, id, s.sets[id].checkpoints, 0);
  }

  /** A hold is taken once, on a streaming set with something to restore, and released once. */
  lemma HoldsIff(dg: Digester, s: State, id: Uuid, hold: Uuid, reason: ReleaseReason)
    requires Inv(dg, s) && id in s.sets
    ensures var b, taken, freed := s.sets[id], AcquireRestoreHold(s, id, hold), ReleaseRestoreHold(s, id, hold, reason);
            && (taken.Ok? <==> b.lifecycle == Streaming && b.checkpoints != [] && hold !in b.holds)
            && (taken.Err? ==>
                  taken.error == if b.lifecycle == Streaming && b.checkpoints != [] then DuplicateRestoreHold
                                 else NotRestorable)
            && (freed.Ok? <==> hold in b.holds && b.holds[hold].released.None?)
            && (freed.Err? ==> freed.error == if hold in b.holds then RestoreHoldAlreadyReleased else UnknownBackupSet)
  {
    assert SetInv(dg, id, s.sets[id]);
    assert s.sets[id].checkpoints != [] ==> Linked(dg, id, s.sets[id].checkpoints, 0);
  }

  /** A set is started under a fresh identifier only, and nothing else is done to one that is not known. */
  lemma UnknownIsRefused(dg: Digester, s: State, op: Op)
    ensures op.OpStart? ==> (Apply(dg, s, op).Err? <==> op.Target() in s.sets)
    ensures op.OpStart? && Apply(dg, s, op).Err? ==> Apply(dg, s, op).error == DuplicateBackupSet
    ensures !op.OpStart? && op.Target() !in s.sets ==> Apply(dg, s, op) == Err(UnknownBackupSet)
  {
  }

  // ----- reservations

  /** Reserving succeeds exactly when committing that very reservation would. */
  lemma ReserveIffCommit(dg: Digester, s: State, id: Uuid, expected: ArchiveHead, desc: Descriptor)
    requires desc.Valid()
    ensures var r := Reservation(id, expected, desc);
            && (ReserveAppend(s, id, expected, desc).Ok? ==> ReserveAppend(s, id, expected, desc) == Ok(r) && r.Valid())
            && (ReserveAppend(s, id, expected, desc).Ok? <==>
                r.Valid() && CommitCheckpoint(dg, s, r, Checkpoint(desc)).Ok?)
  {
  }

  /** Once the head has moved past it, a reservation is refused in every later state. */
  lemma SpentReservationRefused(dg: Digester, s: State, ops: seq<Op>, s': State, r: Reservation, c: Checkpoint)
    requires Inv(dg, s) && ValidOps(ops)
    requires Run(dg, s, ops) == Ok(s')
    requires r.setId in s.sets && r.expected.ordinal < s.sets[r.setId].head.ordinal
    ensures CommitCheckpoint(dg, s', r, c) == Err(ArchiveHeadMismatch)
  {
    RunKeeps(dg, s, ops, s');
    assert Evolves(s.sets[r.setId], s'.sets[r.setId]);
  }

  /** The states just before and just after step i of a run, and the run from there on. */
  lemma RunAt(dg: Digester, s: State, ops: seq<Op>, i: nat) returns (before: State, after: State)
    requires Inv(dg, s) && ValidOps(ops)
    requires Run(dg, s, ops).Ok? && i < |ops|
    ensures Run(dg, s, ops[..i]) == Ok(before) && Inv(dg, before)
    ensures Apply(dg, before, ops[i]) == Ok(after) && Inv(dg, after)
    ensures Run(dg, after, ops[i + 1..]) == Run(dg, s, ops)
  {
    var tail := [ops[i]] + ops[i + 1..];
    assert ops == ops[..i] + tail;
    RunSplit(dg, s, ops[..i], tail);
    before := Run(dg, s, ops[..i]).value;
    RunKeeps(dg, s, ops[..i], before);
    assert tail[1..] == ops[i + 1..];
    after := Apply(dg, before, ops[i]).value;
    StepKeeps(dg, before, ops[i], after);
  }

  /** At most one reservation per set and expected head commits in any run. */
  lemma OneCommitPerHead(dg: Digester, s: State, ops: seq<Op>, i: nat, j: nat)
    requires Inv(dg, s) && ValidOps(ops)
    requires Run(dg, s, ops).Ok?
    requires i < j < |ops| && ops[i].OpCommit? && ops[j].OpCommit?
    ensures ops[i].reservation.setId != ops[j].reservation.setId
            || ops[i].reservation.expected != ops[j].reservation.expected
  {
    var r, q := ops[i].reservation, ops[j].reservation;
    var before, after := RunAt(dg, s, ops, i);
    var rest := ops[i + 1..];
    var k := j - i - 1;
    assert rest[k] == ops[j];
    var later, _ := RunAt(dg, after, rest, k);
    CommitMovesHead(dg, before, r, ops[i].checkpoint, after);
    if q.setId == r.setId && q.expected == r.expected {
      SpentReservationRefused(dg, after, rest[..k], later, q, ops[j].checkpoint);
      assert false;
    }
  }

  lemma CommitMovesHead(dg: Digester, s: State, r: Reservation, c: Checkpoint, s': State)
    requires CommitCheckpoint(dg, s, r, c) == Ok(s') && r.Valid()
    ensures r.setId in s'.sets && s'.sets[r.setId].head.ordinal == r.expected.ordinal + 1
  {
  }

  /** While the head and lifecycle of its set stand still a reservation stays good, whatever
      happens to other sets or to holds in between. */
  lemma ReservationStaysGood(dg: Digester, s: State, ops: seq<Op>, s': State, r: Reservation, c: Checkpoint)
    requires Inv(dg, s) && ValidOps(ops)
    requires Run(dg, s, ops) == Ok(s')
    requires CommitCheckpoint(dg, s, r, c).Ok?
    requires r.setId in s'.sets
    requires s'.sets[r.setId].head == s.sets[r.setId].head
    requires s'.sets[r.setId].lifecycle == s.sets[r.setId].lifecycle
    ensures CommitCheckpoint(dg, s', r, c).Ok?
  {
    RunKeeps(dg, s, ops, s');
    assert Evolves(s.sets[r.setId], s'.sets[r.setId]);
    assert s'.sets[r.setId].checkpoints == s.sets[r.setId].checkpoints;
  }

  // ----- holds and deletion, one operation after another

  /** A new hold blocks sealing; releasing it, once and for a recorded reason, unblocks it. */
  lemma HoldBlocksSealing(s: State, id: Uuid, hold: Uuid, reason: ReleaseReason, again: ReleaseReason)
    requires AcquireRestoreHold(s, id, hold).Ok? && !s.sets[id].HasActiveHold()
    ensures var held := AcquireRestoreHold(s, id, hold).value;
            && BeginSealing(held, id) == Err(RestoreHoldPresent)
            && AcquireRestoreHold(held, id, hold) == Err(DuplicateRestoreHold)
            && ReleaseRestoreHold(held, id, hold, reason).Ok?
            && var free := ReleaseRestoreHold(held, id, hold, reason).value;
            && free.sets[id].holds[hold] == RestoreHold(hold, Some(reason))
            && ReleaseRestoreHold(free, id, hold, again) == Err(RestoreHoldAlreadyReleased)
            && BeginSealing(free, id).Ok?
  {
    var held := AcquireRestoreHold(s, id, hold).value;
    assert held.sets[id].holds[hold].Active();
    var free := ReleaseRestoreHold(held, id, hold, reason).value;
    forall k: Uuid | k in free.sets[id].holds ensures !free.sets[id].holds[k].Active() {
      assert k == hold || (k in s.sets[id].holds && free.sets[id].holds[k] == s.sets[id].holds[k]);
    }
  }

  /** From a sealed set: key erasure can be prepared for the prepared digest and no other, and only once; the key is
      recorded erased only after that; and only then can the set be finalized. */
  lemma DeletionPath(dg: Digester, s: State, id: Uuid, prepared: Digest, other: Digest)
    requires Inv(dg, s) && id in s.sets && s.sets[id].lifecycle.Sealed?
    ensures PrepareDeletion(s, id, prepared).Ok?
    ensures var a := PrepareDeletion(s, id, prepared).value;
            && RecordKeyErased(a, id).Err? && FinalizeDeleted(a, id).Err?
            && (PrepareKeyErasure(a, id, other).Ok? <==> other == prepared)
            && var b := PrepareKeyErasure(a, id, prepared).value;
            && PrepareKeyErasure(b, id, prepared).Err? && FinalizeDeleted(b, id).Err?
            && RecordKeyErased(b, id).Ok?
            && FinalizeDeleted(RecordKeyErased(b, id).value, id).Ok?
  {
  }

  // ----- a set that did not start at ordinal zero

  /** A set started at a head whose ordinal is not zero can never receive a checkpoint, a hold
      or a lifecycle step: no run changes it at all. */
  lemma {:induction false} MisstartedSetIsStuck(dg: Digester, s: State, ops: seq<Op>, s': State, id: Uuid)
    requires Inv(dg, s) && ValidOps(ops)
    requires Run(dg, s, ops) == Ok(s')
    requires id in s.sets && s.sets[id].checkpoints == [] && s.sets[id].head.ordinal != 0
    ensures id in s'.sets && s'.sets[id] == s.sets[id]
    decreases |ops|
  {
    if ops != [] {
      var m := Apply(dg, s, ops[0]).value;
      assert SetInv(dg, id, s.sets[id]);
      StepKeeps(dg, s, ops[0], m);
      assert m.sets[id] == s.sets[id];
      MisstartedSetIsStuck(dg, m, ops[1..], s', id);
    }
  }
}
