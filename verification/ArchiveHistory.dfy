/** The archive head as a commitment: its digest fixes every checkpoint before it. */
module ArchiveHistory {
  import opened Bytes
  import opened Wrappers
  import opened Archive
  import opened ArchiveRuns
  import opened ArchiveStateCodec

  /** Checkpoints are digested through their canonical bytes. */
  function Hashing(h: seq<byte> -> Digest): Digester {
    (c: Checkpoint) => h(CheckpointBytes(c))
  }

  /** Two different byte strings, each the canonical bytes of a checkpoint in its own list, with one hash. */
  ghost predicate Collides(h: seq<byte> -> Digest, cs: seq<Checkpoint>, ds: seq<Checkpoint>) {
    exists i, j :: 0 <= i < |cs| && 0 <= j < |ds|
                   && CheckpointBytes(cs[i]) != CheckpointBytes(ds[j])
                   && h(CheckpointBytes(cs[i])) == h(CheckpointBytes(ds[j]))
  }

  lemma BytesDiffer(c: Checkpoint, d: Checkpoint)
    requires c.desc.Valid() && d.desc.Valid() && c != d
    ensures CheckpointBytes(c) != CheckpointBytes(d)
  {
    CheckpointPrinted(c);
    CheckpointPrinted(d);
  }

  lemma ChainPrefix(dg: Digester, id: Uuid, cs: seq<Checkpoint>, n: nat)
    requires Chain(dg, id, cs) && n <= |cs|
    ensures Chain(dg, id, cs[..n])
  {
    forall i | 0 <= i < n ensures Linked(dg, id, cs[..n], i) {
      assert Linked(dg, id, cs, i);
    }
  }

  lemma {:induction false} ChainCommits(
    dg: Digester, id: Uuid, cs: seq<Checkpoint>, id': Uuid, ds: seq<Checkpoint>)
    returns (i: nat, j: nat)
    requires Chain(dg, id, cs) && Chain(dg, id', ds)
    requires cs != [] && ds != [] && dg(cs[|cs| - 1]) == dg(ds[|ds| - 1])
    ensures cs == ds || (i < |cs| && j < |ds| && cs[i] != ds[j] && dg(cs[i]) == dg(ds[j]))
    decreases |cs|
  {
    i, j := |cs| - 1, |ds| - 1;
    assert Linked(dg, id, cs, i) && Linked(dg, id', ds, j);
    if cs[i] == ds[j] && |cs| > 1 {
      ChainPrefix(dg, id, cs, |cs| - 1);
      ChainPrefix(dg, id', ds, |ds| - 1);
      i, j := ChainCommits(dg, id, cs[..|cs| - 1], id', ds[..|ds| - 1]);
      assert cs == cs[..|cs| - 1] + [cs[|cs| - 1]] && ds == ds[..|ds| - 1] + [ds[|ds| - 1]];
    }
  }

  lemma InvHeadCommits(h: seq<byte> -> Digest, s: State, id: Uuid, t: State, id': Uuid)
    requires Inv(Hashing(h), s) && Inv(Hashing(h), t)
    requires id in s.sets && s.sets[id].checkpoints != []
    requires id' in t.sets && t.sets[id'].checkpoints != []
    requires s.sets[id].head.digest == t.sets[id'].head.digest
    ensures || (s.sets[id].checkpoints == t.sets[id'].checkpoints && s.sets[id].head == t.sets[id'].head && id == id')
            || Collides(h, s.sets[id].checkpoints, t.sets[id'].checkpoints)
  {
    var dg := Hashing(h);
    var cs, ds := s.sets[id].checkpoints, t.sets[id'].checkpoints;
    assert SetInv(dg, id, s.sets[id]) && SetInv(dg, id', t.sets[id']);
    var i, j := ChainCommits(dg, id, cs, id', ds);
    if cs == ds {
      assert Linked(dg, id, cs, 0) && Linked(dg, id', ds, 0);
    } else {
      assert Linked(dg, id, cs, i) && Linked(dg, id', ds, j);
      BytesDiffer(cs[i], ds[j]);
    }
  }

  /** Two sets of any two reachable states, each with a checkpoint, and the same head digest:
      they hold the same checkpoints in the same order, or two of their checkpoints show a hash collision. */
  lemma HeadCommitsToHistory(h: seq<byte> -> Digest, s: State, id: Uuid, t: State, id': Uuid)
    requires Reachable(Hashing(h), s) && Reachable(Hashing(h), t)
    requires id in s.sets && s.sets[id].checkpoints != []
    requires id' in t.sets && t.sets[id'].checkpoints != []
    requires s.sets[id].head.digest == t.sets[id'].head.digest
    ensures || (s.sets[id].checkpoints == t.sets[id'].checkpoints && s.sets[id].head == t.sets[id'].head && id == id')
            || Collides(h, s.sets[id].checkpoints, t.sets[id'].checkpoints)
  {
    ReachableInv(Hashing(h), s);
    ReachableInv(Hashing(h), t);
    InvHeadCommits(h, s, id, t, id');
  }

  /** The digest a set was started from is the one its first checkpoint names, so it too is fixed by the head. */
  lemma HistoryStartsAtGenesis(
    dg: Digester, s: State, identity: Identity, initial: ArchiveHead, ops: seq<Op>, s': State)
    requires Inv(dg, s) && ValidOps(ops)
    requires StartStreaming(s, identity, initial).Ok?
    requires Run(dg, StartStreaming(s, identity, initial).value, ops) == Ok(s')
    ensures Inv(dg, s') && identity.setId in s'.sets
    ensures s'.sets[identity.setId].checkpoints != [] ==>
              && initial.ordinal == 0
              && s'.sets[identity.setId].checkpoints[0].desc.predecessor == initial.digest
  {
    var started := StartStreaming(s, identity, initial).value;
    StepKeeps(dg, s, OpStart(identity, initial), started);
    RunKeeps(dg, started, ops, s');
    assert Evolves(started.sets[identity.setId], s'.sets[identity.setId]);
  }

  lemma HeadCommitsToGenesis(
    h: seq<byte> -> Digest,
    s: State, identity: Identity, initial: ArchiveHead, ops: seq<Op>, s': State,
    t: State, identity': Identity, initial': ArchiveHead, ops': seq<Op>, t': State)
    requires Reachable(Hashing(h), s) && ValidOps(ops) && StartStreaming(s, identity, initial).Ok?
    requires Run(Hashing(h), StartStreaming(s, identity, initial).value, ops) == Ok(s')
    requires Reachable(Hashing(h), t) && ValidOps(ops') && StartStreaming(t, identity', initial').Ok?
    requires Run(Hashing(h), StartStreaming(t, identity', initial').value, ops') == Ok(t')
    requires identity.setId in s'.sets && s'.sets[identity.setId].checkpoints != []
    requires identity'.setId in t'.sets && t'.sets[identity'.setId].checkpoints != []
    requires s'.sets[identity.setId].head.digest == t'.sets[identity'.setId].head.digest
    ensures || initial == initial'
            || Collides(h, s'.sets[identity.setId].checkpoints, t'.sets[identity'.setId].checkpoints)
  {
    ReachableInv(Hashing(h), s);
    ReachableInv(Hashing(h), t);
    HistoryStartsAtGenesis(Hashing(h), s, identity, initial, ops, s');
    HistoryStartsAtGenesis(Hashing(h), t, identity', initial', ops', t');
    InvHeadCommits(h, s', identity.setId, t', identity'.setId);
  }
}
