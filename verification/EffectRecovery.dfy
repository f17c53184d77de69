/** The recovery sweep: adopt, ask, record, one candidate after another, without stopping at a failure. */
module EffectRecovery {
  import opened Wrappers
  import opened EffectStore
  import opened EffectFairness

  // ----- interpreting what a provider said

  datatype Observation = Observation(strength: nat, applied: Option<bool>)

  /** The strongest observation, the last one of several equally strong. */
  function Strongest(obs: seq<Observation>): Observation
    requires obs != []
  {
    var n := |obs| - 1;
    if n == 0 then obs[0] else
      var best := Strongest(obs[..n]);
      if best.strength <= obs[n].strength then obs[n] else best
  }

  lemma {:induction false} StrongestWins(obs: seq<Observation>) returns (i: nat)
    requires obs != []
    ensures i < |obs| && obs[i] == Strongest(obs)
    ensures forall j :: 0 <= j < |obs| ==> obs[j].strength <= obs[i].strength
    ensures forall j :: i < j < |obs| ==> obs[j].strength < obs[i].strength
    decreases |obs|
  {
    var n := |obs| - 1;
    i := n;
    if n > 0 {
      var k := StrongestWins(obs[..n]);
      assert forall j :: 0 <= j < n ==> obs[..n][j] == obs[j];
      if obs[n].strength < obs[k].strength {
        i := k;
      }
    }
  }

  /** An observation as strong as any and stronger than every later one. */
  predicate Decisive(obs: seq<Observation>, i: nat) {
    && i < |obs|
    && (forall j :: 0 <= j < |obs| ==> obs[j].strength <= obs[i].strength)
    && forall j :: i < j < |obs| ==> obs[j].strength < obs[i].strength
  }

  /** There is a decisive observation, and the outcome says whether that one saw the effect applied. */
  ghost predicate Decides(obs: seq<Observation>, outcome: ReconciliationOutcome) {
    && (exists i: nat :: Decisive(obs, i))
    && forall i: nat :: Decisive(obs, i) ==>
         && (outcome.Confirmed? <==> obs[i].applied == Some(true))
         && (outcome.NotApplied? <==> obs[i].applied == Some(false))
         && (outcome.Inconclusive? <==> obs[i].applied == None)
  }

  lemma JudgedDecides(obs: seq<Observation>)
    requires obs != []
    ensures Decides(obs, Judged(Strongest(obs)))
  {
    var k := StrongestWins(obs);
    assert Decisive(obs, k);
    forall i: nat | Decisive(obs, i) ensures i == k {
      OneDecisive(obs, i, k);
    }
  }

  lemma OneDecisive(obs: seq<Observation>, i: nat, k: nat)
    requires Decisive(obs, i) && Decisive(obs, k)
    ensures i == k
  {
    assert obs[i].strength <= obs[k].strength <= obs[i].strength;
  }

  function Judged(o: Observation): ReconciliationOutcome {
    match o.applied
    case Some(true) => Confirmed
    case Some(false) => NotApplied
    case None => Inconclusive
  }

  // ----- one candidate

  /** What the adapter route and provider answered. */
  datatype Answer = NoRoute | Unsupported | ReadBackFailed | Observed(observations: seq<Observation>) {
    predicate Obtained() { Observed? && observations != [] }
  }

  /** Everything outside the sweeper's control while it handles one candidate. */
  datatype Luck = Luck(answer: Answer, rival: bool, adoptBroken: bool, insertBroken: bool, recordBroken: bool)

  datatype Finding =
    | Reconciled(row: Reconciliation)
    | LostRace
    | NoObservation
    | Uninterpreted
    | StorageBroken

  /** A recorded outcome is what the observations decide. */
  ghost predicate FindingDecided(luck: Luck, f: Finding) {
    f.Reconciled? ==> luck.answer.Observed? && Decides(luck.answer.observations, f.row.outcome)
  }

  /** A receipt that is this effect's and still needs reconciling. */
  predicate Interpretable(s: Store, c: Candidate) {
    c.receipt.Some? ==>
      c.receipt.value < |s.receipts| && s.receipts[c.receipt.value].effect == c.effect
      && s.receipts[c.receipt.value].RequiresReconciliation()
  }

  /** What happens to one candidate: the store afterwards, and the finding. */
  function Handled(s: Store, c: Candidate, luck: Luck, at: Time): (Store, Finding) {
    if c.lost.Some? && c.lost.value.NeedsAdoption? then
      if luck.adoptBroken then (s, StorageBroken)
      else
        var first := if luck.rival then Adopt(s, c.effect, c.lost.value.dispatch, at).0 else s;
        var (next, adoption) := Adopt(first, c.effect, c.lost.value.dispatch, at);
        if adoption.AlreadyAdopted? then (next, LostRace)
        else if adoption.NotAdoptable? then (next, StorageBroken)
        else Asked(next, c, luck, at)
    else Asked(s, c, luck, at)
  }

  function Asked(s: Store, c: Candidate, luck: Luck, at: Time): (Store, Finding) {
    if !luck.answer.Obtained() then
      if luck.recordBroken then (s, StorageBroken) else (AddAttempt(s, c.effect, at), NoObservation)
    else if !Interpretable(s, c) then (s, Uninterpreted)
    else if luck.insertBroken then (s, StorageBroken)
    else
      var row := Reconciliation(c.effect, c.receipt, Judged(Strongest(luck.answer.observations)), at);
      (AddReconciliation(s, row), Reconciled(row))
  }

  // ----- the sweep

  /** `runs` pairs with `reconciliations`: the run each reconciled effect belongs to, if any. */
  datatype Report = Report(reconciliations: seq<Reconciliation>, runs: seq<Option<nat>>, unreachable: seq<nat>,
                           saturated: bool)

  /** The store after a prefix of the batch, and each candidate's finding, until storage breaks. */
  function Swept(s: Store, batch: seq<Candidate>, lucks: seq<Luck>, at: Time): (Store, seq<Finding>)
    requires |batch| == |lucks|
  {
    if batch == [] then (s, []) else
      var n := |batch| - 1;
      var (before, findings) := Swept(s, batch[..n], lucks[..n], at);
      if StorageBroken in findings then (before, findings)
      else
        var (after, finding) := Handled(before, batch[n], lucks[n], at);
        (after, findings + [finding])
  }

  function Rows(fs: seq<Finding>): seq<Reconciliation> {
    if fs == [] then [] else
      Rows(fs[..|fs| - 1]) + (if fs[|fs| - 1].Reconciled? then [fs[|fs| - 1].row] else [])
  }

  function Unreached(batch: seq<Candidate>, fs: seq<Finding>): seq<nat>
    requires |fs| <= |batch|
  {
    if fs == [] then [] else
      var n := |fs| - 1;
      Unreached(batch, fs[..n]) + (if fs[n].NoObservation? || fs[n].Uninterpreted? then [batch[n].effect] else [])
  }

  function Attempted(batch: seq<Candidate>, fs: seq<Finding>, at: Time): seq<Attempt>
    requires |fs| <= |batch|
  {
    if fs == [] then [] else
      var n := |fs| - 1;
      Attempted(batch, fs[..n], at) + (if fs[n].NoObservation? then [Attempt(batch[n].effect, at)] else [])
  }

  function RunsOf(rows: seq<Reconciliation>, runOf: nat -> Option<nat>): seq<Option<nat>> {
    seq(|rows|, i requires 0 <= i < |rows| => runOf(rows[i].effect))
  }

  function LostRaces(fs: seq<Finding>): nat {
    if fs == [] then 0 else LostRaces(fs[..|fs| - 1]) + (if fs[|fs| - 1].LostRace? then 1 else 0)
  }

  function RowOf(f: Finding): seq<Reconciliation> {
    if f.Reconciled? then [f.row] else []
  }

  function AttemptOf(c: Candidate, f: Finding, at: Time): seq<Attempt> {
    if f.NoObservation? then [Attempt(c.effect, at)] else []
  }

  lemma Tallied(batch: seq<Candidate>, fs: seq<Finding>, f: Finding, at: Time)
    requires |fs| < |batch|
    ensures Rows(fs + [f]) == Rows(fs) + RowOf(f)
    ensures Unreached(batch, fs + [f])
         == Unreached(batch, fs) + (if f.NoObservation? || f.Uninterpreted? then [batch[|fs|].effect] else [])
    ensures Attempted(batch, fs + [f], at) == Attempted(batch, fs, at) + AttemptOf(batch[|fs|], f, at)
  {
  }

  class Repository {
    var store: Store

    constructor (s: Store)
      ensures store == s
    {
      store := s;
    }

    method AdoptLostDispatch(effect: nat, dispatch: nat, at: Time, luck: Luck) returns (r: Result<Adoption, ()>)
      modifies this
      ensures luck.adoptBroken ==> r.Err? && store == old(store)
      ensures !luck.adoptBroken ==>
                var first := if luck.rival then Adopt(old(store), effect, dispatch, at).0 else old(store);
                && store == Adopt(first, effect, dispatch, at).0
                && match Adopt(first, effect, dispatch, at).1
                   case NotAdoptable => r.Err?
                   case adoption => r == Ok(adoption)
    {
      if luck.adoptBroken {
        return Err(());
      }
      if luck.rival {
        store := Adopt(store, effect, dispatch, at).0;
      }
      var (next, adoption) := Adopt(store, effect, dispatch, at);
      store := next;
      r := if adoption.NotAdoptable? then Err(()) else Ok(adoption);
    }

    /** Adopt if needed, ask, interpret, insert; the caller records what could not be asked. */
    method ReconcileCandidate(c: Candidate, luck: Luck, at: Time) returns (f: Finding)
      modifies this
      ensures !f.NoObservation? ==> (store, f) == Handled(old(store), c, luck, at)
      ensures f.NoObservation? ==>
                Handled(old(store), c, luck, at)
                == if luck.recordBroken then (store, StorageBroken)
                   else (AddAttempt(store, c.effect, at), NoObservation)
    {
      if c.lost.Some? && c.lost.value.NeedsAdoption? {
        var adoption := AdoptLostDispatch(c.effect, c.lost.value.dispatch, at, luck);
        if adoption.Err? {
          return StorageBroken;
        }
        if adoption.value.AlreadyAdopted? {
          return LostRace;
        }
      }
      if !luck.answer.Obtained() {
        return NoObservation;
      }
      if !Interpretable(store, c) {
        return Uninterpreted;
      }
      var row := Reconciliation(c.effect, c.receipt, Judged(Strongest(luck.answer.observations)), at);
      if luck.insertBroken {
        return StorageBroken;
      }
      store := AddReconciliation(store, row);
      return Reconciled(row);
    }

    /** Reconcile, and record a failed attempt where nothing was observed. */
    method Handle(c: Candidate, luck: Luck, at: Time) returns (f: Finding)
      modifies this
      ensures (store, f) == Handled(old(store), c, luck, at)
    {
      f := ReconcileCandidate(c, luck, at);
      if f.NoObservation? {
        if luck.recordBroken {
          return StorageBroken;
        }
        store := AddAttempt(store, c.effect, at);
      }
    }

    /** One pass over a discovered batch. Succeeds unless storage breaks; then every candidate is accounted for. */
    method Run(batch: seq<Candidate>, lucks: seq<Luck>, runOf: nat -> Option<nat>, at: Time, limit: nat)
      returns (r: Result<Report, ()>, ghost findings: seq<Finding>)
      requires |lucks| == |batch|
      modifies this
      ensures (store, findings) == Swept(old(store), batch, lucks, at)
      ensures r.Ok? <==> StorageBroken !in findings
      ensures r.Ok? ==> |findings| == |batch|
      ensures r.Ok? ==>
                var rows := Rows(findings);
                r.value == Report(rows, RunsOf(rows, runOf), Unreached(batch, findings), |batch| == limit)
    {
      var saturated := |batch| == limit;
      var reconciliations, runs, unreachable := [], [], [];
      findings := [];
      for i := 0 to |batch|
        invariant (store, findings) == Swept(old(store), batch[..i], lucks[..i], at)
        invariant StorageBroken !in findings && |findings| == i
        invariant reconciliations == Rows(findings) && unreachable == Unreached(batch, findings)
        invariant runs == RunsOf(reconciliations, runOf)
      {
        SweptNext(old(store), batch, lucks, at, i);
        ghost var before := store;
        var f := Handle(batch[i], lucks[i], at);
        if f.StorageBroken? {
          findings := findings + [f];
          SweptStops(old(store), batch, lucks, at, i + 1);
          return Err(()), findings;
        }
        if f.Reconciled? {
          HandledIsAbout(before, batch[i], lucks[i], at);
          reconciliations := reconciliations + [f.row];
          runs := runs + [runOf(batch[i].effect)];
        } else if f.NoObservation? || f.Uninterpreted? {
          unreachable := unreachable + [batch[i].effect];
        }
        Tallied(batch, findings, f, at);
        findings := findings + [f];
      }
      assert batch[..|batch|] == batch && lucks[..|lucks|] == lucks;
      return Ok(Report(reconciliations, runs, unreachable, saturated)), findings;
    }
  }

  lemma SweptNext(s: Store, batch: seq<Candidate>, lucks: seq<Luck>, at: Time, i: nat)
    requires |batch| == |lucks| && i < |batch|
    ensures var (before, findings) := Swept(s, batch[..i], lucks[..i], at);
            Swept(s, batch[..i + 1], lucks[..i + 1], at)
            == if StorageBroken in findings then (before, findings)
               else (Handled(before, batch[i], lucks[i], at).0, findings + [Handled(before, batch[i], lucks[i], at).1])
  {
    assert batch[..i + 1][..i] == batch[..i] && lucks[..i + 1][..i] == lucks[..i];
  }

  /** Once storage has broken, the rest of the batch is not touched. */
  lemma {:induction false} SweptStops(s: Store, batch: seq<Candidate>, lucks: seq<Luck>, at: Time, i: nat)
    requires |batch| == |lucks| && i <= |batch|
    requires StorageBroken in Swept(s, batch[..i], lucks[..i], at).1
    ensures Swept(s, batch, lucks, at) == Swept(s, batch[..i], lucks[..i], at)
    decreases |batch| - i
  {
    if i == |batch| {
      assert batch[..i] == batch && lucks[..i] == lucks;
    } else {
      SweptNext(s, batch, lucks, at, i);
      SweptStops(s, batch, lucks, at, i + 1);
    }
  }

  // ----- what a pass amounts to

  lemma HandledIsAbout(s: Store, c: Candidate, luck: Luck, at: Time)
    ensures var f := Handled(s, c, luck, at).1;
            f.Reconciled? ==> f.row.effect == c.effect && f.row.receipt == c.receipt && f.row.at == at
  {
  }

  /** Whatever the store: the outcome recorded is the one the strongest observation decides, the last of equals. */
  lemma OutcomeIsDecided(s: Store, c: Candidate, luck: Luck, at: Time)
    ensures FindingDecided(luck, Handled(s, c, luck, at).1)
  {
    if luck.answer.Obtained() {
      JudgedDecides(luck.answer.observations);
    }
  }

  /** Of a candidate whose provider was asked: unreachable where nothing was observed, not interpreted where its receipt
      is missing, another effect's or a failure, and otherwise reconciled, unless storage broke. */
  lemma AskedFinds(s: Store, c: Candidate, luck: Luck, at: Time)
    ensures var f := Asked(s, c, luck, at).1;
            var fits := c.receipt.Some? ==>
                          && c.receipt.value < |s.receipts| && s.receipts[c.receipt.value].effect == c.effect
                          && s.receipts[c.receipt.value].status != Failed;
            && (f.NoObservation? <==> !luck.answer.Obtained() && !luck.recordBroken)
            && (f.Uninterpreted? <==> luck.answer.Obtained() && !fits)
            && (f.Reconciled? <==> luck.answer.Obtained() && fits && !luck.insertBroken)
            && !f.LostRace?
  {
  }

  /** Once an answer has settled it, no candidate about that effect and receipt is eligible, at any time; and a lost
      dispatch is not even pending any more. */
  lemma SettledIsDone(s: Store, r: Reconciliation, c: Candidate, now: Time)
    requires r.outcome == Confirmed || r.outcome == NotApplied
    requires c.effect == r.effect && c.receipt == r.receipt
    requires forall k :: 0 <= k < |s.reconciliations| ==> s.reconciliations[k].at <= r.at
    ensures !Eligible(AddReconciliation(s, r), c, now)
    ensures c.receipt.None? ==> !Pending(AddReconciliation(s, r), c, now)
  {
    var after := AddReconciliation(s, r);
    ReadyIff(after, c.effect, c.receipt, now);
    assert LatestAt(after.reconciliations, c.effect, c.receipt, |s.reconciliations|);
  }

  /** Any other answer puts it off for a minute and no longer, as far as answers and attempts go. */
  lemma InconclusiveWaits(s: Store, r: Reconciliation, now: Time)
    requires r.outcome == Inconclusive || r.outcome == HumanRequired
    requires forall k :: 0 <= k < |s.reconciliations| ==> s.reconciliations[k].at <= r.at
    requires forall k :: 0 <= k < |s.attempts| ==> s.attempts[k].at < r.at
    ensures Ready(AddReconciliation(s, r), r.effect, r.receipt, now) <==> r.at + 60 < now
  {
    var after := AddReconciliation(s, r);
    var n := |s.reconciliations|;
    ReadyIff(after, r.effect, r.receipt, now);
    assert LatestAt(after.reconciliations, r.effect, r.receipt, n);
    forall i: nat | LatestAt(after.reconciliations, r.effect, r.receipt, i) ensures i == n {
      OneLatest(after.reconciliations, r.effect, r.receipt, i, n);
    }
    assert after.reconciliations[n] == r && Concerns(r, r.effect, r.receipt);
  }

  /** Every finding of a pass is that of handling its candidate in some store. */
  lemma {:induction false} SweptHandles(s: Store, batch: seq<Candidate>, lucks: seq<Luck>, at: Time, i: nat)
    returns (before: Store)
    requires |batch| == |lucks| && i < |Swept(s, batch, lucks, at).1|
    ensures i < |batch| && Swept(s, batch, lucks, at).1[i] == Handled(before, batch[i], lucks[i], at).1
    decreases |batch|
  {
    var n := |batch| - 1;
    var (met, fs) := Swept(s, batch[..n], lucks[..n], at);
    if i < |fs| {
      before := SweptHandles(s, batch[..n], lucks[..n], at, i);
    } else {
      SweptLength(s, batch[..n], lucks[..n], at);
      before := met;
    }
  }

  lemma FindingIsAbout(s: Store, batch: seq<Candidate>, lucks: seq<Luck>, at: Time, i: nat)
    requires |batch| == |lucks| && i < |Swept(s, batch, lucks, at).1|
    ensures i < |batch|
    ensures var f := Swept(s, batch, lucks, at).1[i];
            f.Reconciled? ==> f.row.effect == batch[i].effect && f.row.receipt == batch[i].receipt && f.row.at == at
  {
    var before := SweptHandles(s, batch, lucks, at, i);
    HandledIsAbout(before, batch[i], lucks[i], at);
  }

  /** So with every finding of a pass. */
  lemma EveryOutcomeIsDecided(s: Store, batch: seq<Candidate>, lucks: seq<Luck>, at: Time, i: nat)
    requires |batch| == |lucks| && i < |Swept(s, batch, lucks, at).1|
    ensures i < |lucks| && FindingDecided(lucks[i], Swept(s, batch, lucks, at).1[i])
  {
    var before := SweptHandles(s, batch, lucks, at, i);
    OutcomeIsDecided(before, batch[i], lucks[i], at);
  }

  /** Where finding `i` went: its row, or its effect, at the position that keeps the order of the batch. */
  ghost predicate PlacedAt(batch: seq<Candidate>, fs: seq<Finding>, i: nat)
    requires i < |fs| <= |batch|
  {
    match fs[i]
    case Reconciled(row) => |Rows(fs[..i])| < |Rows(fs)| && Rows(fs)[|Rows(fs[..i])|] == row
    case LostRace => true
    case StorageBroken => false
    case _ =>
      var k := |Unreached(batch, fs[..i])|;
      k < |Unreached(batch, fs)| && Unreached(batch, fs)[k] == batch[i].effect
  }

  lemma {:induction false} TalliesGrow(batch: seq<Candidate>, fs: seq<Finding>, n: nat)
    requires n <= |fs| <= |batch|
    ensures Rows(fs[..n]) <= Rows(fs) && Unreached(batch, fs[..n]) <= Unreached(batch, fs)
    decreases |fs|
  {
    if n == |fs| {
      assert fs[..n] == fs;
    } else {
      var front := fs[..|fs| - 1];
      TalliesGrow(batch, front, n);
      assert front[..n] == fs[..n];
    }
  }

  lemma FindingPlaced(batch: seq<Candidate>, fs: seq<Finding>, i: nat)
    requires i < |fs| <= |batch| && fs[i] != StorageBroken
    ensures PlacedAt(batch, fs, i)
  {
    assert fs[..i + 1] == fs[..i] + [fs[i]];
    Tallied(batch, fs[..i], fs[i], 0);
    TalliesGrow(batch, fs, i + 1);
  }

  lemma {:induction false} FindingsCounted(batch: seq<Candidate>, fs: seq<Finding>)
    requires |fs| <= |batch| && StorageBroken !in fs
    ensures |Rows(fs)| + |Unreached(batch, fs)| + LostRaces(fs) == |fs|
    decreases |fs|
  {
    if fs != [] {
      assert fs[|fs| - 1] in fs;
      FindingsCounted(batch, fs[..|fs| - 1]);
    }
  }

  /** A pass that succeeds places every candidate once: its own answer among the reconciliations, its effect among the
      unreachable, or lost to a rival, in the order of the batch and with nothing else reported. */
  lemma EveryCandidatePlaced(s: Store, batch: seq<Candidate>, lucks: seq<Luck>, at: Time)
    requires |batch| == |lucks| && StorageBroken !in Swept(s, batch, lucks, at).1
    ensures var fs := Swept(s, batch, lucks, at).1;
            && |fs| == |batch| == |Rows(fs)| + |Unreached(batch, fs)| + LostRaces(fs)
            && forall i :: 0 <= i < |batch| ==>
                 && PlacedAt(batch, fs, i)
                 && (fs[i].Reconciled? ==> fs[i].row.effect == batch[i].effect && fs[i].row.receipt == batch[i].receipt)
  {
    var fs := Swept(s, batch, lucks, at).1;
    SweptLength(s, batch, lucks, at);
    FindingsCounted(batch, fs);
    forall i | 0 <= i < |batch|
      ensures PlacedAt(batch, fs, i)
      ensures fs[i].Reconciled? ==> fs[i].row.effect == batch[i].effect && fs[i].row.receipt == batch[i].receipt
    {
      assert fs[i] in fs;
      FindingPlaced(batch, fs, i);
      FindingIsAbout(s, batch, lucks, at, i);
    }
  }

  /** What a pass writes: one answer for each reconciled candidate, one failed attempt for each that yielded no
      observation, in batch order, and nothing else of either kind. */
  ghost predicate Wrote(s: Store, after: Store, rows: seq<Reconciliation>, attempts: seq<Attempt>) {
    && after.reconciliations == s.reconciliations + rows
    && after.attempts == s.attempts + attempts
    && after.receipts == s.receipts && after.presence == s.presence
    && s.transitions <= after.transitions
  }

  lemma AskedWrites(s: Store, c: Candidate, luck: Luck, at: Time)
    ensures var (after, f) := Asked(s, c, luck, at); Wrote(s, after, RowOf(f), AttemptOf(c, f, at))
  {
  }

  lemma AdoptWrites(s: Store, effect: nat, dispatch: nat, at: Time)
    ensures Wrote(s, Adopt(s, effect, dispatch, at).0, [], [])
  {
  }

  lemma HandledWrites(s: Store, c: Candidate, luck: Luck, at: Time)
    ensures var (after, f) := Handled(s, c, luck, at); Wrote(s, after, RowOf(f), AttemptOf(c, f, at))
  {
    AskedWrites(s, c, luck, at);
    if c.lost.Some? && c.lost.value.NeedsAdoption? {
      var d := c.lost.value.dispatch;
      var first := if luck.rival then Adopt(s, c.effect, d, at).0 else s;
      var next := Adopt(first, c.effect, d, at).0;
      AdoptWrites(s, c.effect, d, at);
      AdoptWrites(first, c.effect, d, at);
      assert Wrote(s, next, [], []);
      AskedWrites(next, c, luck, at);
      var (after, f) := Asked(next, c, luck, at);
      WroteTwice(s, next, after, [], [], RowOf(f), AttemptOf(c, f, at));
      assert [] + RowOf(f) == RowOf(f) && [] + AttemptOf(c, f, at) == AttemptOf(c, f, at);
    }
  }

  lemma WroteTwice(s: Store, t: Store, u: Store, rows: seq<Reconciliation>, attempts: seq<Attempt>,
                   rows': seq<Reconciliation>, attempts': seq<Attempt>)
    requires Wrote(s, t, rows, attempts) && Wrote(t, u, rows', attempts')
    ensures Wrote(s, u, rows + rows', attempts + attempts')
  {
  }

  lemma {:induction false} PassWrites(s: Store, batch: seq<Candidate>, lucks: seq<Luck>, at: Time)
    requires |batch| == |lucks|
    ensures var (after, fs) := Swept(s, batch, lucks, at);
            |fs| <= |batch| && Wrote(s, after, Rows(fs), Attempted(batch, fs, at))
    decreases |batch|
  {
    if batch != [] {
      var n := |batch| - 1;
      PassWrites(s, batch[..n], lucks[..n], at);
      var (before, fs) := Swept(s, batch[..n], lucks[..n], at);
      AttemptedPrefix(batch, n, fs, at);
      if StorageBroken !in fs {
        SweptLength(s, batch[..n], lucks[..n], at);
        var (after, f) := Handled(before, batch[n], lucks[n], at);
        HandledWrites(before, batch[n], lucks[n], at);
        Tallied(batch, fs, f, at);
        WroteTwice(s, before, after, Rows(fs), Attempted(batch, fs, at), RowOf(f), AttemptOf(batch[n], f, at));
      }
    }
  }

  lemma {:induction false} SweptLength(s: Store, batch: seq<Candidate>, lucks: seq<Luck>, at: Time)
    requires |batch| == |lucks| && StorageBroken !in Swept(s, batch, lucks, at).1
    ensures |Swept(s, batch, lucks, at).1| == |batch|
    decreases |batch|
  {
    if batch != [] {
      var n := |batch| - 1;
      SweptLength(s, batch[..n], lucks[..n], at);
    }
  }

  lemma {:induction false} AttemptedPrefix(batch: seq<Candidate>, n: nat, fs: seq<Finding>, at: Time)
    requires |fs| <= n <= |batch|
    ensures Attempted(batch[..n], fs, at) == Attempted(batch, fs, at)
    decreases |fs|
  {
    if fs != [] {
      AttemptedPrefix(batch, n, fs[..|fs| - 1], at);
    }
  }

  // ----- a sole sweeper asks its whole batch

  /** A lost assertion names an earlier dispatch. */
  ghost predicate WellOrdered(ts: seq<Transition>) {
    forall i :: 0 <= i < |ts| && ts[i].DispatchLost? ==> ts[i].dispatch < i
  }

  predicate Untroubled(luck: Luck) {
    !luck.rival && !luck.adoptBroken && !luck.insertBroken && !luck.recordBroken
  }

  /** What the batch element needs of the store to be asked. */
  ghost predicate Askable(s: Store, c: Candidate) {
    && Interpretable(s, c)
    && (c.lost.Some? && c.lost.value.NeedsAdoption? ==>
          var d := c.lost.value.dispatch;
          && d < |s.transitions| && s.transitions[d].Dispatching? && s.transitions[d].effect == c.effect
          && !LostRow(s.transitions, c.effect, d))
  }

  lemma {:induction false} LatestIsLast(ts: seq<Transition>, effect: nat, i: nat)
    requires i < |ts| && ts[i].effect == effect
    ensures Latest(ts, effect).Some? && i <= Latest(ts, effect).value
    decreases |ts|
  {
    var n := |ts| - 1;
    if ts[n].effect != effect {
      LatestIsLast(ts[..n], effect, i);
    }
  }

  lemma DiscoveredIsAskable(s: Store, c: Candidate, now: Time)
    requires Pending(s, c, now) && WellOrdered(s.transitions)
    ensures Askable(s, c)
  {
    if c.lost.Some? && c.lost.value.NeedsAdoption? {
      var d := c.lost.value.dispatch;
      if LostRow(s.transitions, c.effect, d) {
        var i :| 0 <= i < |s.transitions| && s.transitions[i] == DispatchLost(c.effect, s.transitions[i].at, d);
        LatestIsLast(s.transitions, c.effect, i);
      }
    }
  }

  lemma LostDispatchIsAlone(s: Store, now: Time, limit: nat, batch: seq<Candidate>, i: nat, k: nat)
    requires Discovers(s, now, limit, batch) && i < k < |batch|
    requires batch[k].lost.Some?
    ensures batch[i].effect != batch[k].effect
  {
  }

  /** An answer or a failed attempt, about this candidate, and which of the two the provider decided. */
  ghost predicate AskedOne(c: Candidate, luck: Luck, f: Finding, at: Time) {
    && (f.Reconciled? || f.NoObservation?)
    && (f.NoObservation? <==> !luck.answer.Obtained())
    && (f.Reconciled? ==> f.row.effect == c.effect && f.row.receipt == c.receipt && f.row.at == at)
  }

  lemma HandledAsks(s: Store, c: Candidate, luck: Luck, at: Time)
    requires Askable(s, c) && Untroubled(luck)
    ensures AskedOne(c, luck, Handled(s, c, luck, at).1, at)
    ensures var after := Handled(s, c, luck, at).0;
            forall i :: |s.transitions| <= i < |after.transitions| ==> after.transitions[i].effect == c.effect
  {
  }

  lemma OthersStayAskable(s: Store, c: Candidate, luck: Luck, at: Time, d: Candidate)
    requires Askable(s, c) && Untroubled(luck) && Askable(s, d)
    requires d.lost.Some? ==> c.effect != d.effect
    ensures Askable(Handled(s, c, luck, at).0, d)
  {
  }

  ghost predicate AskedEach(batch: seq<Candidate>, lucks: seq<Luck>, fs: seq<Finding>, at: Time)
    requires |fs| <= |batch| == |lucks|
  {
    forall i :: 0 <= i < |fs| ==> AskedOne(batch[i], lucks[i], fs[i], at)
  }

  lemma BatchIsAskable(s: Store, batch: seq<Candidate>, at: Time, limit: nat)
    requires Discovers(s, at, limit, batch) && WellOrdered(s.transitions)
    ensures forall k :: 0 <= k < |batch| ==> Askable(s, batch[k])
  {
    forall k | 0 <= k < |batch| ensures Askable(s, batch[k]) {
      assert Eligible(s, batch[k], at);
      DiscoveredIsAskable(s, batch[k], at);
    }
  }

  /** After the first `n` candidates: all of them asked, and the rest still askable. */
  ghost predicate AskedUpTo(batch: seq<Candidate>, lucks: seq<Luck>, at: Time, n: nat, after: Store, fs: seq<Finding>)
    requires n <= |batch| == |lucks|
  {
    |fs| == n && AskedEach(batch, lucks, fs, at) && forall k :: n <= k < |batch| ==> Askable(after, batch[k])
  }

  lemma AskedNext(s: Store, batch: seq<Candidate>, lucks: seq<Luck>, at: Time, limit: nat, n: nat, before: Store,
                  fs: seq<Finding>)
    requires Discovers(s, at, limit, batch) && n < |batch| == |lucks| && Untroubled(lucks[n])
    requires AskedUpTo(batch, lucks, at, n, before, fs)
    ensures var (after, f) := Handled(before, batch[n], lucks[n], at);
            AskedUpTo(batch, lucks, at, n + 1, after, fs + [f])
  {
    HandledAsks(before, batch[n], lucks[n], at);
    RestStaysAskable(s, before, batch, lucks[n], at, limit, n);
  }

  lemma {:induction false} SoleSweeperAsks(s: Store, batch: seq<Candidate>, lucks: seq<Luck>, at: Time, limit: nat,
                                           n: nat)
    requires Discovers(s, at, limit, batch) && WellOrdered(s.transitions) && n <= |batch| == |lucks|
    requires forall i :: 0 <= i < |lucks| ==> Untroubled(lucks[i])
    ensures var (after, fs) := Swept(s, batch[..n], lucks[..n], at); AskedUpTo(batch, lucks, at, n, after, fs)
    decreases n
  {
    if n == 0 {
      BatchIsAskable(s, batch, at, limit);
    } else {
      SoleSweeperAsks(s, batch, lucks, at, limit, n - 1);
      SweptNext(s, batch, lucks, at, n - 1);
      var (before, fs) := Swept(s, batch[..n - 1], lucks[..n - 1], at);
      NotBroken(batch, lucks, fs, at);
      AskedNext(s, batch, lucks, at, limit, n - 1, before, fs);
    }
  }

  lemma NotBroken(batch: seq<Candidate>, lucks: seq<Luck>, fs: seq<Finding>, at: Time)
    requires |fs| <= |batch| == |lucks| && AskedEach(batch, lucks, fs, at)
    ensures StorageBroken !in fs
  {
  }

  lemma RestStaysAskable(s: Store, before: Store, batch: seq<Candidate>, luck: Luck, at: Time, limit: nat, n: nat)
    requires Discovers(s, at, limit, batch) && n < |batch| && Untroubled(luck)
    requires forall k :: n <= k < |batch| ==> Askable(before, batch[k])
    ensures forall k :: n < k < |batch| ==> Askable(Handled(before, batch[n], luck, at).0, batch[k])
  {
    forall k | n < k < |batch| ensures Askable(Handled(before, batch[n], luck, at).0, batch[k]) {
      if batch[k].lost.Some? {
        LostDispatchIsAlone(s, at, limit, batch, n, k);
      }
      OthersStayAskable(before, batch[n], luck, at, batch[k]);
    }
  }

  lemma {:induction false} RowsAreFindings(batch: seq<Candidate>, lucks: seq<Luck>, fs: seq<Finding>, at: Time)
    requires |fs| <= |batch| == |lucks| && AskedEach(batch, lucks, fs, at)
    ensures forall i :: 0 <= i < |fs| && fs[i].Reconciled? ==> fs[i].row in Rows(fs)
    ensures forall r :: r in Rows(fs) ==> AboutBatch(batch, r, at)
    decreases |fs|
  {
    if fs != [] {
      var n := |fs| - 1;
      assert AskedOne(batch[n], lucks[n], fs[n], at);
      assert AskedEach(batch, lucks, fs[..n], at) by {
        forall i | 0 <= i < n ensures AskedOne(batch[i], lucks[i], fs[..n][i], at) {
          assert AskedOne(batch[i], lucks[i], fs[i], at);
        }
      }
      RowsAreFindings(batch, lucks, fs[..n], at);
      assert batch[n] in batch;
      forall i | 0 <= i < n && fs[i].Reconciled? ensures fs[i].row in Rows(fs) { assert fs[..n][i] == fs[i]; }
    }
  }

  ghost predicate AboutBatch(batch: seq<Candidate>, r: Reconciliation, at: Time) {
    r.at == at && exists c :: c in batch && c.effect == r.effect && c.receipt == r.receipt
  }

  ghost predicate AttemptAboutBatch(batch: seq<Candidate>, a: Attempt, at: Time) {
    a.at == at && exists c :: c in batch && c.effect == a.effect
  }

  lemma {:induction false} AttemptsAreFindings(batch: seq<Candidate>, lucks: seq<Luck>, fs: seq<Finding>, at: Time)
    requires |fs| <= |batch| == |lucks| && AskedEach(batch, lucks, fs, at)
    ensures forall i :: 0 <= i < |fs| && fs[i].NoObservation? ==>
              Attempt(batch[i].effect, at) in Attempted(batch, fs, at)
    ensures forall a :: a in Attempted(batch, fs, at) ==> AttemptAboutBatch(batch, a, at)
    decreases |fs|
  {
    if fs != [] {
      var n := |fs| - 1;
      assert AskedEach(batch, lucks, fs[..n], at) by {
        forall i | 0 <= i < n ensures AskedOne(batch[i], lucks[i], fs[..n][i], at) {
          assert AskedOne(batch[i], lucks[i], fs[i], at);
        }
      }
      AttemptsAreFindings(batch, lucks, fs[..n], at);
      assert batch[n] in batch;
      forall i | 0 <= i < n && fs[i].NoObservation? ensures Attempt(batch[i].effect, at) in Attempted(batch, fs, at) {
        assert fs[..n][i] == fs[i];
      }
    }
  }

  /** With no rival and no broken storage, a pass over a discovered batch asks every candidate in it, and records a
      failed attempt for exactly those that yielded no observation. */
  lemma SoleSweeperAsksAll(s: Store, batch: seq<Candidate>, lucks: seq<Luck>, at: Time, limit: nat)
    requires Discovers(s, at, limit, batch) && WellOrdered(s.transitions) && |lucks| == |batch|
    requires forall i :: 0 <= i < |lucks| ==> Untroubled(lucks[i])
    ensures var (after, fs) := Swept(s, batch, lucks, at);
            |fs| == |batch| && AskedEach(batch, lucks, fs, at) && AsksAll(Sweep(at, s, batch, after))
  {
    SoleSweeperAsks(s, batch, lucks, at, limit, |batch|);
    assert batch[..|batch|] == batch && lucks[..|lucks|] == lucks;
    PassWrites(s, batch, lucks, at);
    var (after, fs) := Swept(s, batch, lucks, at);
    RowsAreFindings(batch, lucks, fs, at);
    AttemptsAreFindings(batch, lucks, fs, at);
    forall i | 0 <= i < |batch|
      ensures AnsweredAt(after, batch[i].effect, batch[i].receipt, at) || FailedAt(after, batch[i].effect, at)
    {
      LeavesEvidence(s, batch[i], lucks[i], at, after, fs[i], Rows(fs), Attempted(batch, fs, at));
    }
    OnlyAboutBatch(s, batch, at, after, Rows(fs), Attempted(batch, fs, at));
  }

  lemma LeavesEvidence(s: Store, c: Candidate, luck: Luck, at: Time, after: Store, f: Finding,
                       rows: seq<Reconciliation>, attempts: seq<Attempt>)
    requires AskedOne(c, luck, f, at) && Wrote(s, after, rows, attempts)
    requires f.Reconciled? ==> f.row in rows
    requires f.NoObservation? ==> Attempt(c.effect, at) in attempts
    ensures AnsweredAt(after, c.effect, c.receipt, at) || FailedAt(after, c.effect, at)
  {
    if f.Reconciled? {
      var m :| 0 <= m < |rows| && rows[m] == f.row;
      assert after.reconciliations[|s.reconciliations| + m] == f.row;
    }
  }

  lemma OnlyAboutBatch(s: Store, batch: seq<Candidate>, at: Time, after: Store, rows: seq<Reconciliation>,
                       attempts: seq<Attempt>)
    requires Wrote(s, after, rows, attempts)
    requires forall r :: r in rows ==> AboutBatch(batch, r, at)
    requires forall a :: a in attempts ==> AttemptAboutBatch(batch, a, at)
    ensures forall i :: |s.reconciliations| <= i < |after.reconciliations| ==>
              AboutBatch(batch, after.reconciliations[i], at)
    ensures forall i :: |s.attempts| <= i < |after.attempts| ==> AttemptAboutBatch(batch, after.attempts[i], at)
  {
  }

  // ----- many sweepers, one lost dispatch

  /** One sweeper's turn at the same lost dispatch, after whatever else was written since the turn before. */
  datatype Turn = Turn(others: Happening, luck: Luck, at: Time)

  /** How many sweepers went on to ask the provider or to record that they could not. */
  function Askers(s: Store, c: Candidate, turns: seq<Turn>): nat
    decreases |turns|
  {
    if turns == [] then 0 else
      var met := Happens(s, turns[0].others).0;
      var (after, f) := Handled(met, c, turns[0].luck, turns[0].at);
      (if f.Reconciled? || f.NoObservation? || f.Uninterpreted? then 1 else 0) + Askers(after, c, turns[1..])
  }

  /** Once a lost dispatch is adopted, a sweeper that still holds it unadopted writes nothing and asks nobody. */
  lemma LatecomerLoses(s: Store, c: Candidate, luck: Luck, at: Time)
    requires c.lost.Some? && c.lost.value.NeedsAdoption? && LostRow(s.transitions, c.effect, c.lost.value.dispatch)
    ensures var (after, f) := Handled(s, c, luck, at); after == s && (f.LostRace? || f.StorageBroken?)
  {
  }

  lemma AskerHasAdopted(s: Store, c: Candidate, luck: Luck, at: Time)
    requires c.lost.Some? && c.lost.value.NeedsAdoption?
    requires var f := Handled(s, c, luck, at).1; f.Reconciled? || f.NoObservation? || f.Uninterpreted?
    ensures LostRow(Handled(s, c, luck, at).0.transitions, c.effect, c.lost.value.dispatch)
  {
    var d := c.lost.value.dispatch;
    var first := if luck.rival then Adopt(s, c.effect, d, at).0 else s;
    var next := Adopt(first, c.effect, d, at).0;
    assert next.transitions[|first.transitions|] == DispatchLost(c.effect, at, d);
    AskedWrites(next, c, luck, at);
    LostRowStays(next.transitions, Asked(next, c, luck, at).0.transitions, c.effect, d);
  }

  lemma {:induction false} NobodyAsksAfterAdoption(s: Store, c: Candidate, turns: seq<Turn>)
    requires c.lost.Some? && c.lost.value.NeedsAdoption? && LostRow(s.transitions, c.effect, c.lost.value.dispatch)
    ensures Askers(s, c, turns) == 0
    decreases |turns|
  {
    if turns != [] {
      var met := Happens(s, turns[0].others).0;
      LostRowStays(s.transitions, met.transitions, c.effect, c.lost.value.dispatch);
      LatecomerLoses(met, c, turns[0].luck, turns[0].at);
      NobodyAsksAfterAdoption(met, c, turns[1..]);
    }
  }

  /** However many sweepers hold the same unadopted lost dispatch, at most one goes on to read back or record for it. */
  lemma {:induction false} AtMostOneAsks(s: Store, c: Candidate, turns: seq<Turn>)
    requires c.lost.Some? && c.lost.value.NeedsAdoption?
    ensures Askers(s, c, turns) <= 1
    decreases |turns|
  {
    if turns != [] {
      var met := Happens(s, turns[0].others).0;
      var (after, f) := Handled(met, c, turns[0].luck, turns[0].at);
      if f.Reconciled? || f.NoObservation? || f.Uninterpreted? {
        AskerHasAdopted(met, c, turns[0].luck, turns[0].at);
        NobodyAsksAfterAdoption(after, c, turns[1..]);
      } else {
        AtMostOneAsks(after, c, turns[1..]);
      }
    }
  }
}
