/** The durable evidence about external effects, and which effects recovery may ask about when. */
module EffectStore {
  import opened Wrappers

  /** Seconds. */
  type Time = int

  const RECONCILIATION_RETRY_AFTER: Time := 60
  const FAILED_RECOVERY_ATTEMPT_RETRY_AFTER: Time := 60
  const WORKER_PRESENCE_LAPSE_AFTER: Time := 60

  // ----- rows; every table is append-only, and a row's identity is its position

  datatype ReceiptStatus = Acknowledged | Failed | Unknown

  datatype Receipt = Receipt(effect: nat, status: ReceiptStatus, at: Time) {
    predicate RequiresReconciliation() { status.Acknowledged? || status.Unknown? }
  }

  datatype Transition =
    | Authorized(effect: nat, at: Time)
    | Dispatching(effect: nat, at: Time, owner: nat, expires: Option<Time>)
    | DispatchLost(effect: nat, at: Time, dispatch: nat)
    | ReceiptRecorded(effect: nat, at: Time)
    | OutcomeSettled(effect: nat, at: Time)
    | OutcomeDelivered(effect: nat, at: Time)

  datatype ReconciliationOutcome = Confirmed | NotApplied | Inconclusive | HumanRequired {
    predicate Settled() { Confirmed? || NotApplied? }
  }

  datatype Reconciliation = Reconciliation(effect: nat, receipt: Option<nat>, outcome: ReconciliationOutcome, at: Time)

  datatype Attempt = Attempt(effect: nat, at: Time)

  datatype Presence = Presence(stopped: bool, lastReported: Time)

  datatype Store = Store(
    receipts: seq<Receipt>,
    transitions: seq<Transition>,
    reconciliations: seq<Reconciliation>,
    attempts: seq<Attempt>,
    presence: map<nat, Presence>)

  // ----- candidates

  datatype LostDispatch = NeedsAdoption(dispatch: nat) | Adopted(dispatch: nat)

  /** An effect to ask about: by its receipt, or by the dispatch that returned none. */
  datatype Candidate = Candidate(effect: nat, receipt: Option<nat>, lost: Option<LostDispatch>, at: Time) {
    /** What the candidate is about, whatever else is known of it. */
    function Key(): (nat, Option<nat>) { (effect, receipt) }
  }

  /** The most recent reconciliation of an effect and receipt: latest observation time, then latest row. */
  function LastReconciliation(rs: seq<Reconciliation>, effect: nat, receipt: Option<nat>): Option<Reconciliation> {
    if rs == [] then None else
      var n := |rs| - 1;
      var before := LastReconciliation(rs[..n], effect, receipt);
      if rs[n].effect == effect && rs[n].receipt == receipt && (before.None? || before.value.at <= rs[n].at)
      then Some(rs[n]) else before
  }

  /** The time of an effect's most recent failed attempt, over all of its receipts. */
  function LastAttempt(xs: seq<Attempt>, effect: nat): Option<Time> {
    if xs == [] then None else
      var n := |xs| - 1;
      var before := LastAttempt(xs[..n], effect);
      if xs[n].effect == effect && (before.None? || before.value <= xs[n].at) then Some(xs[n].at) else before
  }

  /** The position of an effect's latest lifecycle transition. */
  function Latest(ts: seq<Transition>, effect: nat): (k: Option<nat>)
    ensures k.Some? ==> k.value < |ts| && ts[k.value].effect == effect
  {
    if ts == [] then None else
      var n := |ts| - 1;
      if ts[n].effect == effect then Some(n) else Latest(ts[..n], effect)
  }

  /** Rows about other effects, added by anyone, leave an effect's latest transition where it was. */
  lemma {:induction false} OthersKeepLatest(ts: seq<Transition>, more: seq<Transition>, effect: nat)
    requires forall i :: 0 <= i < |more| ==> more[i].effect != effect
    ensures Latest(ts + more, effect) == Latest(ts, effect)
    decreases |more|
  {
    if more == [] {
      assert ts + more == ts;
    } else {
      var n := |more| - 1;
      assert (ts + more)[..|ts + more| - 1] == ts + more[..n];
      OthersKeepLatest(ts, more[..n], effect);
    }
  }

  /** A dispatch with a stated deadline, past it or left by a worker that stopped or fell silent. */
  predicate Abandoned(s: Store, d: Transition, now: Time) {
    && d.Dispatching? && d.expires.Some?
    && (|| d.expires.value < now
        || (d.owner in s.presence
            && (s.presence[d.owner].stopped || s.presence[d.owner].lastReported < now - WORKER_PRESENCE_LAPSE_AFTER)))
  }

  /** The outcome is unknown: an unresolved receipt, or a latest dispatch that returned none. */
  predicate Pending(s: Store, c: Candidate, now: Time) {
    match c.receipt
    case Some(r) =>
      && c.lost.None?
      && r < |s.receipts| && s.receipts[r].effect == c.effect && s.receipts[r].RequiresReconciliation()
      && c.at == s.receipts[r].at
    case None =>
      && (forall i :: 0 <= i < |s.receipts| ==> s.receipts[i].effect != c.effect)
      && Latest(s.transitions, c.effect).Some?
      && var k := Latest(s.transitions, c.effect).value;
      && var d := s.transitions[k];
      && c.at == d.at
      && (|| (Abandoned(s, d, now) && c.lost == Some(NeedsAdoption(k)))
          || (d.DispatchLost? && d.at < now - RECONCILIATION_RETRY_AFTER && c.lost == Some(Adopted(d.dispatch))))
  }

  /** Nothing has settled it, and neither an inconclusive answer nor a failed attempt is too recent. */
  predicate Ready(s: Store, effect: nat, receipt: Option<nat>, now: Time) {
    var last := LastReconciliation(s.reconciliations, effect, receipt);
    var failed := LastAttempt(s.attempts, effect);
    && (last.None? || (!last.value.outcome.Settled() && last.value.at < now - RECONCILIATION_RETRY_AFTER))
    && (|| failed.None?
        || (last.Some? && last.value.at > failed.value)
        || failed.value < now - FAILED_RECOVERY_ATTEMPT_RETRY_AFTER)
  }

  predicate Eligible(s: Store, c: Candidate, now: Time) {
    Pending(s, c, now) && Ready(s, c.effect, c.receipt, now)
  }

  // ----- the same, row by row

  predicate Concerns(r: Reconciliation, effect: nat, receipt: Option<nat>) {
    r.effect == effect && r.receipt == receipt
  }

  /** No row about this effect and receipt was observed later, and none of the same time was written later. */
  predicate LatestAt(rs: seq<Reconciliation>, effect: nat, receipt: Option<nat>, k: nat) {
    && k < |rs| && Concerns(rs[k], effect, receipt)
    && forall j :: 0 <= j < |rs| && Concerns(rs[j], effect, receipt) ==>
         rs[j].at <= rs[k].at && (k < j ==> rs[j].at < rs[k].at)
  }

  lemma {:induction false} LastReconciliationMeans(rs: seq<Reconciliation>, effect: nat, receipt: Option<nat>)
    returns (k: nat)
    ensures var last := LastReconciliation(rs, effect, receipt);
            && (last.Some? ==> LatestAt(rs, effect, receipt, k) && last == Some(rs[k]))
            && (last.None? ==> forall j :: 0 <= j < |rs| ==> !Concerns(rs[j], effect, receipt))
    decreases |rs|
  {
    k := 0;
    if rs != [] {
      var n := |rs| - 1;
      k := LastReconciliationMeans(rs[..n], effect, receipt);
      assert forall j :: 0 <= j < n ==> rs[..n][j] == rs[j];
      if LastReconciliation(rs, effect, receipt) == Some(rs[n]) && Concerns(rs[n], effect, receipt)
         && (LastReconciliation(rs[..n], effect, receipt).None?
             || LastReconciliation(rs[..n], effect, receipt).value.at <= rs[n].at) {
        k := n;
      }
    }
  }

  lemma {:induction false} LastAttemptMeans(xs: seq<Attempt>, effect: nat)
    ensures var last := LastAttempt(xs, effect);
            && (forall j :: 0 <= j < |xs| && xs[j].effect == effect ==> last.Some? && xs[j].at <= last.value)
            && (last.Some? ==> exists k :: 0 <= k < |xs| && xs[k] == Attempt(effect, last.value))
    decreases |xs|
  {
    if xs != [] {
      var n := |xs| - 1;
      LastAttemptMeans(xs[..n], effect);
      assert forall j :: 0 <= j < n ==> xs[..n][j] == xs[j];
      if LastAttempt(xs[..n], effect).Some? {
        var k :| 0 <= k < n && xs[..n][k] == Attempt(effect, LastAttempt(xs[..n], effect).value);
        assert xs[k] == xs[..n][k];
      }
    }
  }

  /** The latest answer about it, if there is any, is inconclusive or calls for a human, and over a minute old. */
  ghost predicate AnswerOpen(s: Store, effect: nat, receipt: Option<nat>, now: Time) {
    forall k: nat :: LatestAt(s.reconciliations, effect, receipt, k) ==>
      && (s.reconciliations[k].outcome == Inconclusive || s.reconciliations[k].outcome == HumanRequired)
      && s.reconciliations[k].at + 60 < now
  }

  /** Every failed attempt at the effect is over a minute old or has been followed by an answer about it. */
  ghost predicate AttemptsOver(s: Store, effect: nat, receipt: Option<nat>, now: Time) {
    forall j :: 0 <= j < |s.attempts| && s.attempts[j].effect == effect ==>
      || s.attempts[j].at + 60 < now
      || exists k :: 0 <= k < |s.reconciliations| && Concerns(s.reconciliations[k], effect, receipt)
                     && s.reconciliations[k].at > s.attempts[j].at
  }

  lemma OneLatest(rs: seq<Reconciliation>, effect: nat, receipt: Option<nat>, i: nat, k: nat)
    requires LatestAt(rs, effect, receipt, i) && LatestAt(rs, effect, receipt, k)
    ensures i == k
  {
    assert rs[i].at <= rs[k].at <= rs[i].at;
  }

  lemma AnswerOpenIff(s: Store, effect: nat, receipt: Option<nat>, now: Time)
    ensures var last := LastReconciliation(s.reconciliations, effect, receipt);
            (AnswerOpen(s, effect, receipt, now) <==>
             last.None? || (!last.value.outcome.Settled() && last.value.at < now - RECONCILIATION_RETRY_AFTER))
  {
    var k := LastReconciliationMeans(s.reconciliations, effect, receipt);
    if LastReconciliation(s.reconciliations, effect, receipt).Some? {
      forall i: nat | LatestAt(s.reconciliations, effect, receipt, i) ensures i == k {
        OneLatest(s.reconciliations, effect, receipt, i, k);
      }
    }
  }

  lemma AttemptsOverIff(s: Store, effect: nat, receipt: Option<nat>, now: Time)
    ensures var last, failed := LastReconciliation(s.reconciliations, effect, receipt), LastAttempt(s.attempts, effect);
            (AttemptsOver(s, effect, receipt, now) <==>
             || failed.None?
             || (last.Some? && last.value.at > failed.value)
             || failed.value < now - FAILED_RECOVERY_ATTEMPT_RETRY_AFTER)
  {
    var k := LastReconciliationMeans(s.reconciliations, effect, receipt);
    LastAttemptMeans(s.attempts, effect);
  }

  /** When an effect may be asked about, said of the rows: nothing has settled it, and neither an inconclusive answer
      nor a failed attempt is too recent. */
  lemma ReadyIff(s: Store, effect: nat, receipt: Option<nat>, now: Time)
    ensures Ready(s, effect, receipt, now)
       <==> AnswerOpen(s, effect, receipt, now) && AttemptsOver(s, effect, receipt, now)
  {
    AnswerOpenIff(s, effect, receipt, now);
    AttemptsOverIff(s, effect, receipt, now);
  }

  /** A receipt is pending exactly if it acknowledges its effect or leaves it unknown. */
  lemma ReceiptPendingIff(s: Store, r: nat, now: Time)
    requires r < |s.receipts|
    ensures Pending(s, Candidate(s.receipts[r].effect, Some(r), None, s.receipts[r].at), now)
       <==> s.receipts[r].status != Failed
  {
  }

  // ----- the order of candidates

  /** Oldest first; then by effect; a missing receipt before any receipt. */
  predicate Before(c: Candidate, d: Candidate) {
    || c.at < d.at
    || (c.at == d.at && c.effect < d.effect)
    || (c.at == d.at && c.effect == d.effect && d.receipt.Some?
        && (c.receipt.None? || c.receipt.value < d.receipt.value))
  }

  /** The columns a candidate is sorted by. */
  function Rank(c: Candidate): (int, int, int) {
    (c.at, c.effect, if c.receipt.Some? then c.receipt.value else -1)
  }

  predicate Lower(a: (int, int, int), b: (int, int, int)) {
    a.0 < b.0 || (a.0 == b.0 && (a.1 < b.1 || (a.1 == b.1 && a.2 < b.2)))
  }

  lemma BeforeIsLower(c: Candidate, d: Candidate)
    ensures Before(c, d) <==> Lower(Rank(c), Rank(d))
  {
  }

  /** A bounded discovery: the first `limit` eligible candidates, in order. */
  ghost predicate Discovers(s: Store, now: Time, limit: nat, batch: seq<Candidate>) {
    && |batch| <= limit
    && (forall i :: 0 <= i < |batch| ==> Eligible(s, batch[i], now))
    && (forall i, j :: 0 <= i < j < |batch| ==> Before(batch[i], batch[j]))
    && (forall c :: Eligible(s, c, now) && c !in batch ==>
          |batch| == limit && forall i :: 0 <= i < |batch| ==> Before(batch[i], c))
  }

  /** A discovered batch names each effect and receipt once. */
  lemma BatchKeysDistinct(s: Store, now: Time, limit: nat, batch: seq<Candidate>, i: nat, j: nat)
    requires Discovers(s, now, limit, batch) && i < j < |batch|
    ensures batch[i].Key() != batch[j].Key()
  {
  }

  // ----- writes

  datatype Adoption = AdoptedNow | AlreadyAdopted | NotAdoptable

  predicate LostRow(ts: seq<Transition>, effect: nat, dispatch: nat) {
    exists i :: 0 <= i < |ts| && ts[i] == DispatchLost(effect, ts[i].at, dispatch)
  }

  /** Append the lost assertion unless some row already asserts it of the same dispatch. */
  function Adopt(s: Store, effect: nat, dispatch: nat, at: Time): (Store, Adoption) {
    if dispatch < |s.transitions| && s.transitions[dispatch].Dispatching? && s.transitions[dispatch].effect == effect
       && !LostRow(s.transitions, effect, dispatch)
    then (s.(transitions := s.transitions + [DispatchLost(effect, at, dispatch)]), AdoptedNow)
    else if LostRow(s.transitions, effect, dispatch) then (s, AlreadyAdopted)
    else (s, NotAdoptable)
  }

  function AddReconciliation(s: Store, r: Reconciliation): Store {
    s.(reconciliations := s.reconciliations + [r],
       transitions := if r.outcome.Settled() then s.transitions + [OutcomeSettled(r.effect, r.at)] else s.transitions)
  }

  function AddAttempt(s: Store, effect: nat, at: Time): Store {
    s.(attempts := s.attempts + [Attempt(effect, at)])
  }

  // ----- at most one adoption

  /** One thing that happens to the store: somebody tries to adopt a dispatch, or rows are added otherwise. */
  datatype Happening =
    | TriesToAdopt(effect: nat, dispatch: nat, at: Time)
    | RowsAdded(receipts: seq<Receipt>, transitions: seq<Transition>, reconciliations: seq<Reconciliation>,
                attempts: seq<Attempt>, presence: map<nat, Presence>)

  function Happens(s: Store, h: Happening): (Store, Option<Adoption>) {
    match h
    case TriesToAdopt(effect, dispatch, at) =>
      var (next, adoption) := Adopt(s, effect, dispatch, at);
      (next, Some(adoption))
    case RowsAdded(receipts, transitions, reconciliations, attempts, presence) =>
      (Store(s.receipts + receipts, s.transitions + transitions, s.reconciliations + reconciliations,
             s.attempts + attempts, presence), None)
  }

  /** How many of these happenings adopted this dispatch. */
  function Adoptions(s: Store, hs: seq<Happening>, effect: nat, dispatch: nat): nat
    decreases |hs|
  {
    if hs == [] then 0 else
      var (next, adoption) := Happens(s, hs[0]);
      (if hs[0].TriesToAdopt? && hs[0].effect == effect && hs[0].dispatch == dispatch && adoption == Some(AdoptedNow)
       then 1 else 0)
      + Adoptions(next, hs[1..], effect, dispatch)
  }

  lemma LostRowStays(ts: seq<Transition>, us: seq<Transition>, effect: nat, dispatch: nat)
    requires ts <= us && LostRow(ts, effect, dispatch)
    ensures LostRow(us, effect, dispatch)
  {
  }

  lemma {:induction false} AdoptedForGood(s: Store, hs: seq<Happening>, effect: nat, dispatch: nat)
    requires LostRow(s.transitions, effect, dispatch)
    ensures Adoptions(s, hs, effect, dispatch) == 0
    decreases |hs|
  {
    if hs != [] {
      var next := Happens(s, hs[0]).0;
      LostRowStays(s.transitions, next.transitions, effect, dispatch);
      AdoptedForGood(next, hs[1..], effect, dispatch);
    }
  }

  /** Every lost assertion is about an earlier dispatch of its own effect. */
  ghost predicate LostRowsBacked(ts: seq<Transition>) {
    forall i :: 0 <= i < |ts| && ts[i].DispatchLost? ==>
      ts[i].dispatch < i && ts[ts[i].dispatch].Dispatching? && ts[ts[i].dispatch].effect == ts[i].effect
  }

  function After(s: Store, hs: seq<Happening>): Store
    decreases |hs|
  {
    if hs == [] then s else After(Happens(s, hs[0]).0, hs[1..])
  }

  /** Whatever happens, as long as nobody writes such a row but by adopting. */
  lemma {:induction false} LostRowsStayBacked(s: Store, hs: seq<Happening>)
    requires LostRowsBacked(s.transitions)
    requires forall k :: 0 <= k < |hs| && hs[k].RowsAdded? ==>
               forall t :: t in hs[k].transitions ==> !t.DispatchLost?
    ensures LostRowsBacked(After(s, hs).transitions)
    decreases |hs|
  {
    if hs != [] {
      var next := Happens(s, hs[0]).0;
      assert LostRowsBacked(next.transitions) by {
        assert s.transitions <= next.transitions;
        forall i | 0 <= i < |next.transitions| && next.transitions[i].DispatchLost?
          ensures next.transitions[i].dispatch < i
                  && next.transitions[next.transitions[i].dispatch].Dispatching?
                  && next.transitions[next.transitions[i].dispatch].effect == next.transitions[i].effect
        {
        }
      }
      LostRowsStayBacked(next, hs[1..]);
    }
  }

  /** A dispatch just adopted is pending again over a minute after that and not before, if no receipt has come. */
  lemma AdoptedPendingIff(s: Store, effect: nat, dispatch: nat, at: Time, now: Time)
    requires Adopt(s, effect, dispatch, at).1.AdoptedNow?
    ensures Pending(Adopt(s, effect, dispatch, at).0, Candidate(effect, None, Some(Adopted(dispatch)), at), now)
       <==> at + 60 < now && forall k :: 0 <= k < |s.receipts| ==> s.receipts[k].effect != effect
  {
  }

  /** However many sweepers hold the same lost dispatch, and whatever else is written in between,
      at most one of them adopts it. */
  lemma {:induction false} AtMostOneAdopts(s: Store, hs: seq<Happening>, effect: nat, dispatch: nat)
    ensures Adoptions(s, hs, effect, dispatch) <= 1
    decreases |hs|
  {
    if hs != [] {
      var (next, adoption) := Happens(s, hs[0]);
      if hs[0].TriesToAdopt? && hs[0].effect == effect && hs[0].dispatch == dispatch && adoption == Some(AdoptedNow) {
        assert next.transitions[|s.transitions|] == DispatchLost(effect, hs[0].at, dispatch);
        AdoptedForGood(next, hs[1..], effect, dispatch);
      } else {
        AtMostOneAdopts(next, hs[1..], effect, dispatch);
      }
    }
  }
}
