/** Bounded sweeps are fair: whoever waits is asked once those ahead of it have been. */
module EffectFairness {
  import opened Wrappers
  import opened EffectStore

  /** One sweep: the evidence it discovered its batch from, and the evidence it left. */
  datatype Sweep = Sweep(at: Time, found: Store, batch: seq<Candidate>, left: Store)

  // ----- what asking leaves behind

  ghost predicate AnsweredAt(s: Store, effect: nat, receipt: Option<nat>, at: Time) {
    exists i :: 0 <= i < |s.reconciliations| && s.reconciliations[i].effect == effect
                && s.reconciliations[i].receipt == receipt && s.reconciliations[i].at == at
  }

  ghost predicate FailedAt(s: Store, effect: nat, at: Time) {
    Attempt(effect, at) in s.attempts
  }

  /** A sweep asked its whole batch, each candidate leaving an answer or a failed attempt of that time,
      and wrote no other answers or attempts. */
  ghost predicate AsksAll(x: Sweep) {
    && x.found.receipts == x.left.receipts
    && x.found.reconciliations <= x.left.reconciliations && x.found.attempts <= x.left.attempts
    && (forall i :: 0 <= i < |x.batch| ==>
          AnsweredAt(x.left, x.batch[i].effect, x.batch[i].receipt, x.at) || FailedAt(x.left, x.batch[i].effect, x.at))
    && (forall i :: |x.found.reconciliations| <= i < |x.left.reconciliations| ==>
          && x.left.reconciliations[i].at == x.at
          && exists c :: c in x.batch && c.effect == x.left.reconciliations[i].effect
                         && c.receipt == x.left.reconciliations[i].receipt)
    && (forall i :: |x.found.attempts| <= i < |x.left.attempts| ==>
          x.left.attempts[i].at == x.at && exists c :: c in x.batch && c.effect == x.left.attempts[i].effect)
  }

  /** Successive sweeps by one sweeper within a minute: time does not go back, and between them no one else
      writes answers or failed attempts. Receipts, transitions and presence may change freely. */
  ghost predicate Window(xs: seq<Sweep>, limit: nat) {
    && (forall i :: 0 <= i < |xs| ==> Lawful(xs[i], limit))
    && WithinMinute(xs)
    && (forall i :: 0 <= i < |xs| - 1 ==> NothingBetween(xs[i], xs[i + 1]))
  }

  predicate WithinMinute(xs: seq<Sweep>) {
    forall i, j :: 0 <= i < j < |xs| ==> xs[i].at <= xs[j].at <= xs[i].at + RECONCILIATION_RETRY_AFTER
  }

  ghost predicate Lawful(x: Sweep, limit: nat) {
    Discovers(x.found, x.at, limit, x.batch) && AsksAll(x) && NotFuture(x.found, x.at)
  }

  predicate NothingBetween(x: Sweep, y: Sweep) {
    y.found.reconciliations == x.left.reconciliations && y.found.attempts == x.left.attempts
  }

  /** No answer is dated later than the sweep that reads it. */
  ghost predicate NotFuture(s: Store, at: Time) {
    forall i :: 0 <= i < |s.reconciliations| ==> s.reconciliations[i].at <= at
  }

  // ----- the latest rows

  lemma {:induction false} LastReconciliationIsLate(rs: seq<Reconciliation>, effect: nat, receipt: Option<nat>, i: nat)
    requires i < |rs| && rs[i].effect == effect && rs[i].receipt == receipt
    ensures LastReconciliation(rs, effect, receipt).Some?
    ensures rs[i].at <= LastReconciliation(rs, effect, receipt).value.at
    decreases |rs|
  {
    var n := |rs| - 1;
    if i < n {
      LastReconciliationIsLate(rs[..n], effect, receipt, i);
    }
  }

  lemma {:induction false} LastAttemptIsLate(xs: seq<Attempt>, effect: nat, at: Time)
    requires Attempt(effect, at) in xs
    ensures LastAttempt(xs, effect).Some? && at <= LastAttempt(xs, effect).value
    decreases |xs|
  {
    var n := |xs| - 1;
    assert xs == xs[..n] + [xs[n]];
    if Attempt(effect, at) in xs[..n] {
      LastAttemptIsLate(xs[..n], effect, at);
    }
  }

  /** Rows about other effects and receipts do not change the latest row. */
  lemma {:induction false} OtherReconciliations(rs: seq<Reconciliation>, qs: seq<Reconciliation>, effect: nat,
                                                receipt: Option<nat>)
    requires rs <= qs
    requires forall i :: |rs| <= i < |qs| ==> qs[i].effect != effect || qs[i].receipt != receipt
    ensures LastReconciliation(qs, effect, receipt) == LastReconciliation(rs, effect, receipt)
    decreases |qs|
  {
    if |rs| == |qs| {
      assert rs == qs;
    } else {
      OtherReconciliations(rs, qs[..|qs| - 1], effect, receipt);
    }
  }

  lemma {:induction false} OtherAttempts(xs: seq<Attempt>, ys: seq<Attempt>, effect: nat)
    requires xs <= ys
    requires forall i :: |xs| <= i < |ys| ==> ys[i].effect != effect
    ensures LastAttempt(ys, effect) == LastAttempt(xs, effect)
    decreases |ys|
  {
    if |xs| == |ys| {
      assert xs == ys;
    } else {
      OtherAttempts(xs, ys[..|ys| - 1], effect);
    }
  }

  // ----- asked once is asked enough

  ghost predicate NoneAfter(rs: seq<Reconciliation>, effect: nat, receipt: Option<nat>, at: Time) {
    forall i :: 0 <= i < |rs| && rs[i].effect == effect && rs[i].receipt == receipt ==> rs[i].at <= at
  }

  /** For a minute after being asked, with no answer since, a candidate is not ready. */
  lemma AskedIsNotReady(s: Store, effect: nat, receipt: Option<nat>, at: Time, now: Time)
    requires AnsweredAt(s, effect, receipt, at) || FailedAt(s, effect, at)
    requires at <= now <= at + RECONCILIATION_RETRY_AFTER
    requires NoneAfter(s.reconciliations, effect, receipt, at)
    ensures !Ready(s, effect, receipt, now)
  {
    if AnsweredAt(s, effect, receipt, at) {
      var i :| 0 <= i < |s.reconciliations| && s.reconciliations[i].effect == effect
               && s.reconciliations[i].receipt == receipt && s.reconciliations[i].at == at;
      LastReconciliationIsLate(s.reconciliations, effect, receipt, i);
    } else {
      LastAttemptIsLate(s.attempts, effect, at);
      NoLaterReconciliation(s.reconciliations, effect, receipt, at);
    }
  }

  lemma {:induction false} NoLaterReconciliation(rs: seq<Reconciliation>, effect: nat, receipt: Option<nat>, at: Time)
    requires NoneAfter(rs, effect, receipt, at)
    ensures LastReconciliation(rs, effect, receipt).Some? ==> LastReconciliation(rs, effect, receipt).value.at <= at
    decreases |rs|
  {
    if rs != [] {
      NoLaterReconciliation(rs[..|rs| - 1], effect, receipt, at);
    }
  }

  /** Why candidates of one effect cannot be promised more: a failed attempt at one receipt silences its
      siblings too, for the same minute. */
  lemma FailureSilencesSiblings(s: Store, effect: nat, sibling: Option<nat>, at: Time, now: Time)
    requires FailedAt(s, effect, at) && at <= now <= at + FAILED_RECOVERY_ATTEMPT_RETRY_AFTER
    requires NoneAfter(s.reconciliations, effect, sibling, at)
    ensures !Ready(s, effect, sibling, now)
  {
    AskedIsNotReady(s, effect, sibling, at, now);
  }

  // ----- over a window of sweeps

  /** Evidence of having been asked at a time, and no answer since. */
  ghost predicate Spent(s: Store, effect: nat, receipt: Option<nat>, at: Time) {
    && (AnsweredAt(s, effect, receipt, at) || FailedAt(s, effect, at))
    && NoneAfter(s.reconciliations, effect, receipt, at)
  }

  lemma AskingSpends(x: Sweep, c: Candidate)
    requires AsksAll(x) && NotFuture(x.found, x.at) && c in x.batch
    ensures Spent(x.left, c.effect, c.receipt, x.at)
  {
  }

  /** A sweep that does not ask it leaves a spent candidate's evidence as it was. */
  lemma OthersAsked(x: Sweep, effect: nat, receipt: Option<nat>, at: Time)
    requires AsksAll(x) && forall d :: d in x.batch ==> d.Key() != (effect, receipt)
    requires NoneAfter(x.found.reconciliations, effect, receipt, at)
    ensures NoneAfter(x.left.reconciliations, effect, receipt, at)
  {
  }

  lemma EvidenceStays(x: Sweep, effect: nat, receipt: Option<nat>, at: Time)
    requires AsksAll(x) && (AnsweredAt(x.found, effect, receipt, at) || FailedAt(x.found, effect, at))
    ensures AnsweredAt(x.left, effect, receipt, at) || FailedAt(x.left, effect, at)
  {
  }

  lemma SpentStays(x: Sweep, effect: nat, receipt: Option<nat>, at: Time)
    requires AsksAll(x) && Spent(x.found, effect, receipt, at)
    requires forall d :: d in x.batch ==> d.Key() != (effect, receipt)
    ensures Spent(x.left, effect, receipt, at)
  {
    OthersAsked(x, effect, receipt, at);
    EvidenceStays(x, effect, receipt, at);
  }

  lemma SpentIsNotDiscovered(x: Sweep, y: Sweep, limit: nat, c: Candidate, at: Time)
    requires NothingBetween(x, y) && Lawful(y, limit) && Spent(x.left, c.effect, c.receipt, at)
    requires at <= y.at <= at + RECONCILIATION_RETRY_AFTER
    ensures Spent(y.found, c.effect, c.receipt, at)
    ensures forall d :: d in y.batch ==> d.Key() != c.Key()
  {
    AskedIsNotReady(y.found, c.effect, c.receipt, at, y.at);
    forall d | d in y.batch ensures d.Key() != c.Key() {
      assert Eligible(y.found, d, y.at);
    }
  }

  /** Within a window, what one sweep asks no later sweep asks again. */
  lemma {:induction false} NeverAskedAgain(xs: seq<Sweep>, limit: nat, i: nat, j: nat, c: Candidate)
    requires Window(xs, limit) && i < j < |xs| && c in xs[i].batch
    ensures Spent(xs[j].found, c.effect, c.receipt, xs[i].at)
    ensures forall d :: d in xs[j].batch ==> d.Key() != c.Key()
    decreases j
  {
    if j == i + 1 {
      AskingSpends(xs[i], c);
    } else {
      NeverAskedAgain(xs, limit, i, j - 1, c);
      SpentStays(xs[j - 1], c.effect, c.receipt, xs[i].at);
    }
    SpentIsNotDiscovered(xs[j - 1], xs[j], limit, c, xs[i].at);
  }

  // ----- one candidate until it is asked

  ghost predicate Unasked(xs: seq<Sweep>, c: Candidate, n: nat)
    requires n <= |xs|
  {
    forall k :: 0 <= k < n ==> c !in xs[k].batch
  }

  lemma UnaskedNext(xs: seq<Sweep>, c: Candidate, n: nat)
    requires n < |xs|
    ensures Unasked(xs, c, n + 1) <==> Unasked(xs, c, n) && c !in xs[n].batch
  {
  }

  /** The candidate is pending, as this very record, in every sweep up to the one that asks it. */
  ghost predicate PendingUntilAsked(xs: seq<Sweep>, c: Candidate) {
    forall i {:trigger Unasked(xs, c, i)} :: 0 <= i < |xs| && Unasked(xs, c, i) ==> Pending(xs[i].found, c, xs[i].at)
  }

  /** A sweep records a failed attempt for this effect. */
  ghost predicate Fails(x: Sweep, effect: nat) {
    exists m :: |x.found.attempts| <= m < |x.left.attempts| && x.left.attempts[m].effect == effect
  }

  /** Sweep `i` records a failed attempt for the candidate's effect, and neither it nor an earlier one asks the
      candidate. */
  ghost predicate SilencedBy(xs: seq<Sweep>, c: Candidate, i: nat)
    requires i < |xs|
  {
    Fails(xs[i], c.effect) && Unasked(xs, c, i + 1)
  }

  /** What is pending under one effect and receipt is one record. */
  lemma PendingIsUnique(s: Store, c: Candidate, d: Candidate, now: Time)
    requires Pending(s, c, now) && Pending(s, d, now) && c.Key() == d.Key()
    ensures c == d
  {
  }

  /** A sweep that passes over a pending candidate writes no answer about it. */
  lemma PassedOverIsUntouched(x: Sweep, limit: nat, c: Candidate)
    requires Discovers(x.found, x.at, limit, x.batch) && Pending(x.found, c, x.at) && c !in x.batch
    ensures forall d :: d in x.batch ==> d.Key() != c.Key()
  {
    forall d | d in x.batch ensures d.Key() != c.Key() {
      assert Eligible(x.found, d, x.at);
      if d.Key() == c.Key() {
        PendingIsUnique(x.found, c, d, x.at);
      }
    }
  }

  /** A candidate that was ready stays ready while it is not asked and no attempt for its effect fails. */
  lemma {:induction false} StaysReady(xs: seq<Sweep>, limit: nat, c: Candidate, j: nat)
    requires Window(xs, limit) && j < |xs| && PendingUntilAsked(xs, c) && Unasked(xs, c, j)
    requires Ready(xs[0].found, c.effect, c.receipt, xs[0].at)
    requires forall i :: 0 <= i < j ==> !Fails(xs[i], c.effect)
    ensures Ready(xs[j].found, c.effect, c.receipt, xs[j].at)
    decreases j
  {
    if j > 0 {
      assert Unasked(xs, c, j - 1);
      StaysReady(xs, limit, c, j - 1);
      var x := xs[j - 1];
      assert AsksAll(x) && !Fails(x, c.effect);
      PassedOverIsUntouched(x, limit, c);
      OtherReconciliations(x.found.reconciliations, x.left.reconciliations, c.effect, c.receipt);
      OtherAttempts(x.found.attempts, x.left.attempts, c.effect);
      assert x.at <= xs[j].at;
    }
  }

  /** A failed attempt at the candidate's effect, with no answer about the candidate since. */
  ghost predicate Silent(s: Store, c: Candidate, at: Time) {
    FailedAt(s, c.effect, at) && NoneAfter(s.reconciliations, c.effect, c.receipt, at)
  }

  lemma FailureLeavesSilence(x: Sweep, c: Candidate)
    requires AsksAll(x) && NotFuture(x.found, x.at) && Fails(x, c.effect)
    ensures Silent(x.left, c, x.at)
  {
  }

  lemma SilenceIsKept(x: Sweep, y: Sweep, limit: nat, c: Candidate, at: Time)
    requires Lawful(x, limit) && NothingBetween(x, y) && Pending(x.found, c, x.at) && c !in x.batch
    requires Silent(x.found, c, at)
    ensures Silent(y.found, c, at)
  {
    PassedOverIsUntouched(x, limit, c);
    OthersAsked(x, c.effect, c.receipt, at);
  }

  lemma SilentIsNotDiscovered(x: Sweep, limit: nat, c: Candidate, at: Time)
    requires Lawful(x, limit) && Silent(x.found, c, at) && at <= x.at <= at + RECONCILIATION_RETRY_AFTER
    ensures c !in x.batch
  {
    FailureSilencesSiblings(x.found, c.effect, c.receipt, at, x.at);
    assert forall d :: d in x.batch ==> Eligible(x.found, d, x.at);
  }

  /** What keeps a candidate out of each batch and carries over to the next sweep keeps it out of all of them. */
  lemma {:induction false} KeptOut(xs: seq<Sweep>, c: Candidate, quiet: Store -> bool, i: nat, n: nat)
    requires i <= n <= |xs| && Unasked(xs, c, i) && (i < |xs| ==> quiet(xs[i].found))
    requires forall k :: i <= k < n && Unasked(xs, c, k) && quiet(xs[k].found) ==>
                           c !in xs[k].batch && (k + 1 < |xs| ==> quiet(xs[k + 1].found))
    ensures Unasked(xs, c, n) && (n < |xs| ==> quiet(xs[n].found))
    decreases n
  {
    if i < n {
      KeptOut(xs, c, quiet, i, n - 1);
      UnaskedNext(xs, c, n - 1);
    }
  }

  lemma SilenceStep(xs: seq<Sweep>, limit: nat, c: Candidate, i: nat, k: nat)
    requires Window(xs, limit) && PendingUntilAsked(xs, c) && i < k < |xs| && Unasked(xs, c, k)
    requires Silent(xs[k].found, c, xs[i].at)
    ensures c !in xs[k].batch && (k + 1 < |xs| ==> Silent(xs[k + 1].found, c, xs[i].at))
  {
    SilentIsNotDiscovered(xs[k], limit, c, xs[i].at);
    if k + 1 < |xs| {
      SilenceIsKept(xs[k], xs[k + 1], limit, c, xs[i].at);
    }
  }

  /** Once a sibling's attempt has failed, a candidate not yet asked is not asked for the rest of the window. */
  lemma SilencedForGood(xs: seq<Sweep>, limit: nat, c: Candidate, i: nat)
    requires Window(xs, limit) && i < |xs| && PendingUntilAsked(xs, c) && SilencedBy(xs, c, i)
    ensures Unasked(xs, c, |xs|)
  {
    FailureLeavesSilence(xs[i], c);
    var quiet := (s: Store) => Silent(s, c, xs[i].at);
    forall k | i < k < |xs| && Unasked(xs, c, k) && quiet(xs[k].found)
      ensures c !in xs[k].batch && (k + 1 < |xs| ==> quiet(xs[k + 1].found))
    {
      SilenceStep(xs, limit, c, i, k);
    }
    KeptOut(xs, c, quiet, i + 1, |xs|);
  }

  // ----- counting

  function KeysOf(batch: seq<Candidate>): set<(nat, Option<nat>)> {
    set i | 0 <= i < |batch| :: batch[i].Key()
  }

  lemma {:induction false} KeysCounted(batch: seq<Candidate>)
    requires forall i, j :: 0 <= i < j < |batch| ==> batch[i].Key() != batch[j].Key()
    ensures |KeysOf(batch)| == |batch|
    decreases |batch|
  {
    if batch != [] {
      var n := |batch| - 1;
      var front := batch[..n];
      KeysCounted(front);
      assert forall i :: 0 <= i < n ==> front[i] == batch[i];
      assert KeysOf(batch) == KeysOf(front) + {batch[n].Key()};
    }
  }

  /** Everyone asked in the first `j` sweeps. */
  function AskedBy(xs: seq<Sweep>, j: nat): set<(nat, Option<nat>)>
    requires j <= |xs|
  {
    if j == 0 then {} else AskedBy(xs, j - 1) + KeysOf(xs[j - 1].batch)
  }

  lemma {:induction false} AskedWasInBatch(xs: seq<Sweep>, j: nat, k: (nat, Option<nat>)) returns (i: nat, c: Candidate)
    requires j <= |xs| && k in AskedBy(xs, j)
    ensures i < j && c in xs[i].batch && c.Key() == k
    decreases j
  {
    if k in AskedBy(xs, j - 1) {
      i, c := AskedWasInBatch(xs, j - 1, k);
    } else {
      i := j - 1;
      var m :| 0 <= m < |xs[i].batch| && xs[i].batch[m].Key() == k;
      c := xs[i].batch[m];
    }
  }

  /** A batch that passes over an eligible candidate is full of candidates ahead of it. */
  lemma PassedOver(s: Store, now: Time, limit: nat, batch: seq<Candidate>, c: Candidate, ahead: set<(nat, Option<nat>)>)
    requires Discovers(s, now, limit, batch) && Eligible(s, c, now) && c !in batch
    requires forall d :: d in batch && Before(d, c) ==> d.Key() in ahead
    ensures KeysOf(batch) <= ahead && |KeysOf(batch)| == limit
  {
    forall m, n | 0 <= m < n < |batch| ensures batch[m].Key() != batch[n].Key() {
      BatchKeysDistinct(s, now, limit, batch, m, n);
    }
    KeysCounted(batch);
    forall m | 0 <= m < |batch| ensures batch[m].Key() in ahead {
      assert Before(batch[m], c) && batch[m] in batch;
    }
  }

  lemma NobodyTwice(xs: seq<Sweep>, limit: nat, j: nat)
    requires Window(xs, limit) && j < |xs|
    ensures AskedBy(xs, j) !! KeysOf(xs[j].batch)
  {
    forall k | k in KeysOf(xs[j].batch) ensures k !in AskedBy(xs, j) {
      var m :| 0 <= m < |xs[j].batch| && xs[j].batch[m].Key() == k;
      assert xs[j].batch[m] in xs[j].batch;
      if k in AskedBy(xs, j) {
        var i, d := AskedWasInBatch(xs, j, k);
        NeverAskedAgain(xs, limit, i, j, d);
      }
    }
  }

  /** Sweep `i` spent its whole budget on candidates ahead, none of them asked before. */
  ghost predicate SpentAhead(xs: seq<Sweep>, limit: nat, ahead: set<(nat, Option<nat>)>, i: nat)
    requires i < |xs|
  {
    var keys := KeysOf(xs[i].batch);
    keys <= ahead && |keys| == limit && AskedBy(xs, i) !! keys
  }

  lemma OneMoreBatch<T>(asked: set<T>, batch: set<T>, ahead: set<T>, j: nat, limit: nat)
    requires j > 0 && asked !! batch && asked <= ahead && batch <= ahead
    requires |asked| == (j - 1) * limit && |batch| == limit
    ensures asked + batch <= ahead && |asked + batch| == j * limit
  {
    assert (j - 1) * limit + limit == j * limit;
  }

  lemma {:induction false} CountUp(xs: seq<Sweep>, limit: nat, ahead: set<(nat, Option<nat>)>, j: nat)
    requires j <= |xs| && forall i :: 0 <= i < j ==> SpentAhead(xs, limit, ahead, i)
    ensures AskedBy(xs, j) <= ahead && |AskedBy(xs, j)| == j * limit
    decreases j
  {
    if j > 0 {
      CountUp(xs, limit, ahead, j - 1);
      assert SpentAhead(xs, limit, ahead, j - 1);
      OneMoreBatch(AskedBy(xs, j - 1), KeysOf(xs[j - 1].batch), ahead, j, limit);
    }
  }

  /** While a candidate waits, every sweep spends its whole budget on candidates ahead of it, none of them twice. */
  lemma WaitingCosts(xs: seq<Sweep>, limit: nat, c: Candidate, ahead: set<(nat, Option<nat>)>)
    requires Window(xs, limit)
    requires forall i :: 0 <= i < |xs| ==> Eligible(xs[i].found, c, xs[i].at) && c !in xs[i].batch
    requires forall i, d :: 0 <= i < |xs| && d in xs[i].batch && Before(d, c) ==> d.Key() in ahead
    ensures |xs| * limit <= |ahead|
  {
    forall i | 0 <= i < |xs| ensures SpentAhead(xs, limit, ahead, i) {
      PassedOver(xs[i].found, xs[i].at, limit, xs[i].batch, c, ahead);
      NobodyTwice(xs, limit, i);
    }
    CountUp(xs, limit, ahead, |xs|);
    SubsetSize(AskedBy(xs, |xs|), ahead);
  }

  // ----- the theorem

  /** Within one minute, by one sweeper: a candidate that is ready at the first sweep, and pending until it is asked, is
      asked by sweep number `|ahead| / limit + 1`, where `ahead` holds the candidates met in front of it, if and only if
      no failed attempt for its effect is recorded before it is asked. */
  lemma WaitingIsBounded(xs: seq<Sweep>, limit: nat, c: Candidate, ahead: set<(nat, Option<nat>)>)
    requires Window(xs, limit) && xs != [] && PendingUntilAsked(xs, c)
    requires Ready(xs[0].found, c.effect, c.receipt, xs[0].at)
    requires forall i, d :: 0 <= i < |xs| && Unasked(xs, c, i + 1) && d in xs[i].batch && Before(d, c) ==>
               d.Key() in ahead
    requires |ahead| < |xs| * limit
    ensures (exists i :: 0 <= i < |xs| && c in xs[i].batch) <==> (forall i :: 0 <= i < |xs| ==> !SilencedBy(xs, c, i))
  {
    if i :| 0 <= i < |xs| && SilencedBy(xs, c, i) {
      SilencedForGood(xs, limit, c, i);
    } else if Unasked(xs, c, |xs|) {
      NobodySilent(xs, limit, c);
      WaitingCosts(xs, limit, c, ahead);
    }
  }

  lemma NobodySilent(xs: seq<Sweep>, limit: nat, c: Candidate)
    requires Window(xs, limit) && xs != [] && PendingUntilAsked(xs, c) && Unasked(xs, c, |xs|)
    requires Ready(xs[0].found, c.effect, c.receipt, xs[0].at)
    requires forall i :: 0 <= i < |xs| ==> !SilencedBy(xs, c, i)
    ensures forall i :: 0 <= i < |xs| ==>
              Eligible(xs[i].found, c, xs[i].at) && c !in xs[i].batch && Unasked(xs, c, i + 1)
  {
    forall i | 0 <= i < |xs| ensures Eligible(xs[i].found, c, xs[i].at) && c !in xs[i].batch && Unasked(xs, c, i + 1) {
      assert Unasked(xs, c, i);
      forall k | 0 <= k < i ensures !Fails(xs[k], c.effect) {
        assert !SilencedBy(xs, c, k);
      }
      StaysReady(xs, limit, c, i);
    }
  }

  lemma SubsetSize<T>(a: set<T>, b: set<T>)
    requires a <= b
    ensures |a| <= |b|
  {
    assert b == a + (b - a);
  }

  /** If the sweeps meet no more than `n` effects and receipts in all, `ceil(n / limit)` of them ask every candidate
      that is ready at the first and pending until asked, save exactly those silenced by a failed attempt for their
      effect. */
  lemma AllAreAsked(xs: seq<Sweep>, limit: nat, met: set<(nat, Option<nat>)>, c: Candidate)
    requires Window(xs, limit) && xs != [] && PendingUntilAsked(xs, c)
    requires Ready(xs[0].found, c.effect, c.receipt, xs[0].at)
    requires forall i, d :: 0 <= i < |xs| && d in xs[i].batch ==> d.Key() in met
    requires c.Key() in met && |met| <= |xs| * limit
    ensures (exists i :: 0 <= i < |xs| && c in xs[i].batch) <==> (forall i :: 0 <= i < |xs| ==> !SilencedBy(xs, c, i))
  {
    var others := met - {c.Key()};
    forall i, d | 0 <= i < |xs| && Unasked(xs, c, i + 1) && d in xs[i].batch && Before(d, c) ensures d.Key() in others {
      assert Unasked(xs, c, i) && c !in xs[i].batch;
      PassedOverIsUntouched(xs[i], limit, c);
    }
    WaitingIsBounded(xs, limit, c, others);
  }
}
