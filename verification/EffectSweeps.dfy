/** Successive recovery passes by one sweeper, while others go on writing: whoever waits is asked. */
module EffectSweeps {
  import opened Wrappers
  import opened EffectStore
  import opened EffectFairness
  import opened EffectRecovery
  import opened EffectDispatch

  // ----- a run of passes

  /** What others wrote since the pass before: receipts, transitions, and what is now known of the workers. */
  datatype News = News(receipts: seq<Receipt>, transitions: seq<Transition>, presence: map<nat, Presence>)

  datatype Pass = Pass(news: News, at: Time, batch: seq<Candidate>, lucks: seq<Luck>)

  function Arrived(s: Store, n: News): Store {
    Store(s.receipts + n.receipts, s.transitions + n.transitions, s.reconciliations, s.attempts, n.presence)
  }

  /** One pass of the sweeper over what discovery returned, with no rival and with storage working. */
  ghost predicate Runs(s: Store, p: Pass, limit: nat) {
    && Discovers(Arrived(s, p.news), p.at, limit, p.batch)
    && |p.lucks| == |p.batch| && (forall i :: 0 <= i < |p.lucks| ==> Untroubled(p.lucks[i]))
    && NamesEarlier(p.news.transitions, |s.transitions|)
  }

  /** A lost assertion, written after `n` other transitions, names an earlier dispatch. */
  predicate NamesEarlier(ts: seq<Transition>, n: nat) {
    forall i :: 0 <= i < |ts| && ts[i].DispatchLost? ==> ts[i].dispatch < n + i
  }

  function SweepOf(s: Store, p: Pass): Sweep
    requires |p.lucks| == |p.batch|
  {
    var found := Arrived(s, p.news);
    Sweep(p.at, found, p.batch, Swept(found, p.batch, p.lucks, p.at).0)
  }

  ghost predicate RunsAll(s: Store, ps: seq<Pass>, limit: nat)
    decreases |ps|
  {
    ps != [] ==> Runs(s, ps[0], limit) && RunsAll(SweepOf(s, ps[0]).left, ps[1..], limit)
  }

  /** The sweeps that a run of passes makes, each starting from what the one before left and others added. */
  ghost function Sweeps(s: Store, ps: seq<Pass>, limit: nat): (xs: seq<Sweep>)
    requires RunsAll(s, ps, limit)
    ensures |xs| == |ps| && forall i :: 0 <= i < |xs| ==> xs[i].at == ps[i].at && xs[i].batch == ps[i].batch
    decreases |ps|
  {
    if ps == [] then [] else [SweepOf(s, ps[0])] + Sweeps(SweepOf(s, ps[0]).left, ps[1..], limit)
  }

  predicate Timely(ps: seq<Pass>) {
    forall i, j :: 0 <= i < j < |ps| ==> ps[i].at <= ps[j].at <= ps[i].at + RECONCILIATION_RETRY_AFTER
  }

  // ----- what a pass adds to the transitions

  ghost predicate EffectIn(batch: seq<Candidate>, effect: nat) {
    exists c :: c in batch && c.effect == effect
  }

  lemma HandledTransitions(s: Store, c: Candidate, luck: Luck, at: Time)
    ensures var ts := Handled(s, c, luck, at).0.transitions;
            && s.transitions <= ts
            && forall i :: |s.transitions| <= i < |ts| ==>
                             ts[i].effect == c.effect && (ts[i].DispatchLost? ==> ts[i].dispatch < i)
  {
  }

  lemma {:induction false} SweptTransitions(s: Store, batch: seq<Candidate>, lucks: seq<Luck>, at: Time)
    requires |batch| == |lucks|
    ensures var ts := Swept(s, batch, lucks, at).0.transitions;
            && s.transitions <= ts
            && forall i :: |s.transitions| <= i < |ts| ==>
                             EffectIn(batch, ts[i].effect) && (ts[i].DispatchLost? ==> ts[i].dispatch < i)
    decreases |batch|
  {
    if batch != [] {
      var n := |batch| - 1;
      SweptTransitions(s, batch[..n], lucks[..n], at);
      var (before, fs) := Swept(s, batch[..n], lucks[..n], at);
      forall e | EffectIn(batch[..n], e) ensures EffectIn(batch, e) {
        var c :| c in batch[..n] && c.effect == e;
        assert c in batch;
      }
      if StorageBroken !in fs {
        HandledTransitions(before, batch[n], lucks[n], at);
        assert batch[n] in batch;
      }
    }
  }

  lemma OrderKept(s: Store, p: Pass, limit: nat)
    requires Runs(s, p, limit) && WellOrdered(s.transitions)
    ensures WellOrdered(Arrived(s, p.news).transitions) && WellOrdered(SweepOf(s, p).left.transitions)
  {
    SweptTransitions(Arrived(s, p.news), p.batch, p.lucks, p.at);
  }

  // ----- a run of passes is a window of sweeps

  lemma PassIsLawful(s: Store, p: Pass, limit: nat)
    requires Runs(s, p, limit) && WellOrdered(s.transitions) && NotFuture(s, p.at)
    ensures Lawful(SweepOf(s, p), limit) && NotFuture(SweepOf(s, p).left, p.at)
  {
    OrderKept(s, p, limit);
    SoleSweeperAsksAll(Arrived(s, p.news), p.batch, p.lucks, p.at, limit);
  }

  lemma AllGrow<T>(x: T, xs: seq<T>, p: T -> bool)
    requires p(x) && forall i :: 0 <= i < |xs| ==> p(xs[i])
    ensures forall i :: 0 <= i < |[x] + xs| ==> p(([x] + xs)[i])
  {
  }

  lemma PairsGrow<T>(x: T, xs: seq<T>, p: (T, T) -> bool)
    requires (xs != [] ==> p(x, xs[0])) && forall i :: 0 <= i < |xs| - 1 ==> p(xs[i], xs[i + 1])
    ensures forall i :: 0 <= i < |[x] + xs| - 1 ==> p(([x] + xs)[i], ([x] + xs)[i + 1])
  {
    var all := [x] + xs;
    forall i | 0 <= i < |all| - 1 ensures p(all[i], all[i + 1]) {
      assert i > 0 ==> all[i] == xs[i - 1] && all[i + 1] == xs[i];
    }
  }

  lemma TimesGrow(x: Sweep, xs: seq<Sweep>)
    requires WithinMinute(xs) && forall i :: 0 <= i < |xs| ==> x.at <= xs[i].at <= x.at + RECONCILIATION_RETRY_AFTER
    ensures WithinMinute([x] + xs)
  {
  }

  lemma WindowGrows(x: Sweep, xs: seq<Sweep>, limit: nat)
    requires Lawful(x, limit) && Window(xs, limit) && (xs != [] ==> NothingBetween(x, xs[0]))
    requires forall i :: 0 <= i < |xs| ==> x.at <= xs[i].at <= x.at + RECONCILIATION_RETRY_AFTER
    ensures Window([x] + xs, limit)
  {
    TimesGrow(x, xs);
    AllGrow(x, xs, y => Lawful(y, limit));
    PairsGrow(x, xs, NothingBetween);
  }

  /** Passes within a minute, from a store that holds no answer from the future, make a window of lawful sweeps. */
  lemma {:induction false} PassesMakeWindow(s: Store, ps: seq<Pass>, limit: nat)
    requires RunsAll(s, ps, limit) && Timely(ps) && WellOrdered(s.transitions)
    requires ps != [] ==> NotFuture(s, ps[0].at)
    ensures Window(Sweeps(s, ps, limit), limit)
    decreases |ps|
  {
    if ps != [] {
      var x, rest := SweepOf(s, ps[0]), ps[1..];
      PassIsLawful(s, ps[0], limit);
      OrderKept(s, ps[0], limit);
      assert forall i :: 0 <= i < |rest| ==> rest[i] == ps[i + 1];
      PassesMakeWindow(x.left, rest, limit);
      WindowGrows(x, Sweeps(x.left, rest, limit), limit);
    }
  }

  // ----- staying pending until asked

  /** The worker behind an unadopted lost dispatch. */
  function WorkerBehind(s: Store, c: Candidate): Option<nat> {
    match c.lost
    case Some(NeedsAdoption(k)) =>
      if k < |s.transitions| && s.transitions[k].Dispatching? then Some(s.transitions[k].owner) else None
    case _ => None
  }

  /** The worker does not come back: it has not reported since, and if it had stopped it still has. */
  predicate StaysAway(before: map<nat, Presence>, after: map<nat, Presence>, worker: nat) {
    worker in before ==>
      && worker in after
      && (before[worker].stopped ==> after[worker].stopped)
      && after[worker].lastReported <= before[worker].lastReported
  }

  /** Nobody writes about the effect of a lost dispatch, and its worker stays away; of receipts nothing is asked. */
  predicate LeftAlone(before: News, after: News, c: Candidate, worker: Option<nat>) {
    c.lost.Some? ==>
      && (forall i :: 0 <= i < |after.receipts| ==> after.receipts[i].effect != c.effect)
      && (forall i :: 0 <= i < |after.transitions| ==> after.transitions[i].effect != c.effect)
      && (worker.Some? ==> StaysAway(before.presence, after.presence, worker.value))
  }

  predicate LeftAloneThroughout(ps: seq<Pass>, c: Candidate, worker: Option<nat>) {
    forall i :: 0 < i < |ps| ==> LeftAlone(ps[i - 1].news, ps[i].news, c, worker)
  }

  lemma ReceiptStaysPending(s: Store, t: Store, c: Candidate, now: Time, later: Time)
    requires Pending(s, c, now) && c.receipt.Some? && s.receipts <= t.receipts
    ensures Pending(t, c, later)
  {
  }

  lemma LostStaysPending(s: Store, t: Store, c: Candidate, now: Time, later: Time, more: seq<Transition>)
    requires Pending(s, c, now) && c.receipt.None? && now <= later
    requires t.transitions == s.transitions + more && forall i :: 0 <= i < |more| ==> more[i].effect != c.effect
    requires forall i :: 0 <= i < |t.receipts| ==> t.receipts[i].effect != c.effect
    requires var w := WorkerBehind(s, c); w.Some? ==> StaysAway(s.presence, t.presence, w.value)
    ensures Pending(t, c, later) && WorkerBehind(t, c) == WorkerBehind(s, c)
  {
    OthersKeepLatest(s.transitions, more, c.effect);
  }

  /** A pass that does not ask a lost dispatch asks about nothing of its effect. */
  lemma PassSparesLost(found: Store, now: Time, limit: nat, batch: seq<Candidate>, c: Candidate)
    requires Discovers(found, now, limit, batch) && Pending(found, c, now) && c.lost.Some? && c !in batch
    ensures !EffectIn(batch, c.effect)
  {
    forall d | d in batch ensures d.effect != c.effect {
      assert Eligible(found, d, now);
      if d.effect == c.effect {
        PendingIsUnique(found, c, d, now);
      }
    }
  }

  lemma PendingCarries(s: Store, p: Pass, next: Pass, limit: nat, c: Candidate)
    requires Runs(s, p, limit) && Pending(Arrived(s, p.news), c, p.at) && c !in p.batch && p.at <= next.at
    requires LeftAlone(p.news, next.news, c, WorkerBehind(Arrived(s, p.news), c))
    ensures var t := Arrived(SweepOf(s, p).left, next.news);
            Pending(t, c, next.at) && WorkerBehind(t, c) == WorkerBehind(Arrived(s, p.news), c)
  {
    var found, t := Arrived(s, p.news), Arrived(SweepOf(s, p).left, next.news);
    PassWrites(found, p.batch, p.lucks, p.at);
    if c.receipt.Some? {
      ReceiptStaysPending(found, t, c, p.at, next.at);
    } else {
      var more := PassAddsOthers(s, p, next, limit, c);
      LostStaysPending(found, t, c, p.at, next.at, more);
    }
  }

  lemma SweptAddsOthers(s: Store, batch: seq<Candidate>, lucks: seq<Luck>, at: Time, effect: nat)
    returns (more: seq<Transition>)
    requires |batch| == |lucks| && !EffectIn(batch, effect)
    ensures Swept(s, batch, lucks, at).0.transitions == s.transitions + more
    ensures forall i :: 0 <= i < |more| ==> more[i].effect != effect
  {
    SweptTransitions(s, batch, lucks, at);
    more := Swept(s, batch, lucks, at).0.transitions[|s.transitions|..];
  }

  lemma PassAddsOthers(s: Store, p: Pass, next: Pass, limit: nat, c: Candidate) returns (more: seq<Transition>)
    requires Runs(s, p, limit) && Pending(Arrived(s, p.news), c, p.at) && c.lost.Some? && c !in p.batch
    requires forall i :: 0 <= i < |next.news.transitions| ==> next.news.transitions[i].effect != c.effect
    ensures Arrived(SweepOf(s, p).left, next.news).transitions == Arrived(s, p.news).transitions + more
    ensures forall i :: 0 <= i < |more| ==> more[i].effect != c.effect
  {
    var found := Arrived(s, p.news);
    PassSparesLost(found, p.at, limit, p.batch, c);
    var tail := SweptAddsOthers(found, p.batch, p.lucks, p.at, c.effect);
    more := tail + next.news.transitions;
  }

  lemma UnaskedRest(x: Sweep, xs: seq<Sweep>, c: Candidate, n: nat)
    requires n <= |xs|
    ensures Unasked([x] + xs, c, n + 1) <==> c !in x.batch && Unasked(xs, c, n)
  {
    var all := [x] + xs;
    assert forall k :: 0 <= k < n ==> all[k + 1] == xs[k];
    assert all[0] == x;
  }

  lemma PendingGrows(x: Sweep, xs: seq<Sweep>, c: Candidate)
    requires Pending(x.found, c, x.at) && (c !in x.batch ==> PendingUntilAsked(xs, c))
    ensures PendingUntilAsked([x] + xs, c)
  {
    var all := [x] + xs;
    forall i | 0 <= i < |all| && Unasked(all, c, i) ensures Pending(all[i].found, c, all[i].at) {
      if i > 0 {
        UnaskedRest(x, xs, c, i - 1);
      }
    }
  }

  /** A candidate that is left alone is pending, as the same record, until it is asked. */
  lemma {:induction false} StaysPending(s: Store, ps: seq<Pass>, limit: nat, c: Candidate)
    requires ps != [] && RunsAll(s, ps, limit) && Timely(ps)
    requires Pending(Arrived(s, ps[0].news), c, ps[0].at)
    requires LeftAloneThroughout(ps, c, WorkerBehind(Arrived(s, ps[0].news), c))
    ensures PendingUntilAsked(Sweeps(s, ps, limit), c)
    decreases |ps|
  {
    var x, rest := SweepOf(s, ps[0]), ps[1..];
    if rest != [] && c !in ps[0].batch {
      assert rest[0] == ps[1] && forall i :: 0 <= i < |rest| ==> rest[i] == ps[i + 1];
      PendingCarries(s, ps[0], ps[1], limit, c);
      StaysPending(x.left, rest, limit, c);
    }
    PendingGrows(x, Sweeps(x.left, rest, limit), c);
  }

  // ----- failed attempts

  /** The pass asks some candidate of the effect and obtains no observation. */
  ghost predicate ReadBackFails(p: Pass, effect: nat) {
    exists m :: 0 <= m < |p.batch| && m < |p.lucks| && p.batch[m].effect == effect && !p.lucks[m].answer.Obtained()
  }

  lemma {:induction false} AttemptedIff(batch: seq<Candidate>, lucks: seq<Luck>, fs: seq<Finding>, at: Time,
                                        effect: nat)
    requires |fs| <= |batch| == |lucks| && AskedEach(batch, lucks, fs, at)
    ensures (exists a :: a in Attempted(batch, fs, at) && a.effect == effect)
       <==> (exists m :: 0 <= m < |fs| && batch[m].effect == effect && !lucks[m].answer.Obtained())
    decreases |fs|
  {
    if fs != [] {
      var n := |fs| - 1;
      AskedEachPrefix(batch, lucks, fs, at, n);
      AttemptedIff(batch, lucks, fs[..n], at, effect);
      assert AskedOne(batch[n], lucks[n], fs[n], at);
    }
  }

  lemma AskedEachPrefix(batch: seq<Candidate>, lucks: seq<Luck>, fs: seq<Finding>, at: Time, n: nat)
    requires n <= |fs| <= |batch| == |lucks| && AskedEach(batch, lucks, fs, at)
    ensures AskedEach(batch, lucks, fs[..n], at)
  {
    forall i | 0 <= i < n ensures AskedOne(batch[i], lucks[i], fs[..n][i], at) {
      assert AskedOne(batch[i], lucks[i], fs[i], at);
    }
  }

  lemma FailsIff(s: Store, p: Pass, limit: nat, effect: nat)
    requires Runs(s, p, limit) && WellOrdered(s.transitions)
    ensures Fails(SweepOf(s, p), effect) <==> ReadBackFails(p, effect)
  {
    var found := Arrived(s, p.news);
    OrderKept(s, p, limit);
    SoleSweeperAsksAll(found, p.batch, p.lucks, p.at, limit);
    PassWrites(found, p.batch, p.lucks, p.at);
    var (left, fs) := Swept(found, p.batch, p.lucks, p.at);
    AttemptedIff(p.batch, p.lucks, fs, p.at, effect);
    SuffixHas(found.attempts, Attempted(p.batch, fs, p.at), left.attempts, effect);
  }

  lemma SuffixHas(before: seq<Attempt>, added: seq<Attempt>, after: seq<Attempt>, effect: nat)
    requires after == before + added
    ensures (exists m :: |before| <= m < |after| && after[m].effect == effect) <==>
            (exists a :: a in added && a.effect == effect)
  {
    if a :| a in added && a.effect == effect {
      var k :| 0 <= k < |added| && added[k] == a;
      assert after[|before| + k] == a;
    }
    if m :| |before| <= m < |after| && after[m].effect == effect {
      assert after[m] == added[m - |before|];
    }
  }

  lemma {:induction false} FailsAt(s: Store, ps: seq<Pass>, limit: nat, i: nat, effect: nat)
    requires RunsAll(s, ps, limit) && WellOrdered(s.transitions) && i < |ps|
    ensures Fails(Sweeps(s, ps, limit)[i], effect) <==> ReadBackFails(ps[i], effect)
    decreases i
  {
    if i == 0 {
      FailsIff(s, ps[0], limit, effect);
    } else {
      OrderKept(s, ps[0], limit);
      FailsAt(SweepOf(s, ps[0]).left, ps[1..], limit, i - 1, effect);
    }
  }

  // ----- the theorems

  ghost predicate IsAsked(ps: seq<Pass>, c: Candidate) {
    exists i :: 0 <= i < |ps| && c in ps[i].batch
  }

  /** Pass `i` fails to read back some candidate of the effect, and neither it nor an earlier pass asks `c`. */
  ghost predicate Forestalled(ps: seq<Pass>, c: Candidate, i: nat)
    requires i < |ps|
  {
    ReadBackFails(ps[i], c.effect) && forall k :: 0 <= k <= i ==> c !in ps[k].batch
  }

  /** Passes within one minute, from a store with sound history, while others write no answers or attempts. */
  ghost predicate SoleSweeper(s: Store, ps: seq<Pass>, limit: nat) {
    ps != [] && RunsAll(s, ps, limit) && Timely(ps) && WellOrdered(s.transitions) && NotFuture(s, ps[0].at)
  }

  /** Eligible at the first pass, and left alone after it. */
  ghost predicate Waits(s: Store, ps: seq<Pass>, c: Candidate)
    requires ps != []
  {
    var found := Arrived(s, ps[0].news);
    Eligible(found, c, ps[0].at) && LeftAloneThroughout(ps, c, WorkerBehind(found, c))
  }

  lemma ForestalledIsSilenced(s: Store, ps: seq<Pass>, limit: nat, c: Candidate, i: nat)
    requires RunsAll(s, ps, limit) && WellOrdered(s.transitions) && i < |ps|
    ensures SilencedBy(Sweeps(s, ps, limit), c, i) <==> Forestalled(ps, c, i)
  {
    FailsAt(s, ps, limit, i, c.effect);
  }

  /** The candidates in front of a waiting one decide how long it waits: it is asked within `|ahead| / limit + 1` passes
      if and only if no read-back for its effect fails before it is asked. */
  lemma PassesAreFair(s: Store, ps: seq<Pass>, limit: nat, c: Candidate, ahead: set<(nat, Option<nat>)>)
    requires SoleSweeper(s, ps, limit) && Waits(s, ps, c)
    requires forall i, d :: 0 <= i < |ps| && d in ps[i].batch && Before(d, c) ==> d.Key() in ahead
    requires |ahead| < |ps| * limit
    ensures IsAsked(ps, c) <==> forall i :: 0 <= i < |ps| ==> !Forestalled(ps, c, i)
  {
    var xs := Sweeps(s, ps, limit);
    PassesMakeWindow(s, ps, limit);
    StaysPending(s, ps, limit, c);
    WaitingIsBounded(xs, limit, c, ahead);
    forall i | 0 <= i < |ps| ensures SilencedBy(xs, c, i) <==> Forestalled(ps, c, i) {
      ForestalledIsSilenced(s, ps, limit, c, i);
    }
  }

  /** If the passes meet no more than `n` effects and receipts in all, `ceil(n / limit)` of them ask every waiting
      candidate, save exactly those forestalled by a failed read-back for their effect. */
  lemma PassesAskAll(s: Store, ps: seq<Pass>, limit: nat, c: Candidate, met: set<(nat, Option<nat>)>)
    requires SoleSweeper(s, ps, limit) && Waits(s, ps, c)
    requires forall i, d :: 0 <= i < |ps| && d in ps[i].batch ==> d.Key() in met
    requires c.Key() in met && |met| <= |ps| * limit
    ensures IsAsked(ps, c) <==> forall i :: 0 <= i < |ps| ==> !Forestalled(ps, c, i)
  {
    var xs := Sweeps(s, ps, limit);
    PassesMakeWindow(s, ps, limit);
    StaysPending(s, ps, limit, c);
    AllAreAsked(xs, limit, met, c);
    forall i | 0 <= i < |ps| ensures SilencedBy(xs, c, i) <==> Forestalled(ps, c, i) {
      ForestalledIsSilenced(s, ps, limit, c, i);
    }
  }

  /** A lost dispatch has no sibling that could forestall it, so one that is left alone is asked within
      `|ahead| / limit + 1` passes. */
  lemma LostDispatchIsAsked(s: Store, ps: seq<Pass>, limit: nat, c: Candidate, ahead: set<(nat, Option<nat>)>)
    requires SoleSweeper(s, ps, limit) && Waits(s, ps, c) && c.lost.Some?
    requires forall i, d :: 0 <= i < |ps| && d in ps[i].batch && Before(d, c) ==> d.Key() in ahead
    requires |ahead| < |ps| * limit
    ensures IsAsked(ps, c)
  {
    var xs := Sweeps(s, ps, limit);
    PassesMakeWindow(s, ps, limit);
    StaysPending(s, ps, limit, c);
    forall i | 0 <= i < |ps| ensures !Forestalled(ps, c, i) {
      LostIsNotForestalled(xs, ps, limit, c, i);
    }
    PassesAreFair(s, ps, limit, c, ahead);
  }

  lemma LostIsNotForestalled(xs: seq<Sweep>, ps: seq<Pass>, limit: nat, c: Candidate, i: nat)
    requires |xs| == |ps| && i < |ps| && Lawful(xs[i], limit) && PendingUntilAsked(xs, c) && c.lost.Some?
    requires forall k :: 0 <= k < |xs| ==> xs[k].batch == ps[k].batch
    ensures !Forestalled(ps, c, i)
  {
    if Unasked(xs, c, i) && c !in xs[i].batch {
      PassSparesLost(xs[i].found, xs[i].at, limit, xs[i].batch, c);
      assert xs[i].batch == ps[i].batch;
      assert forall m :: 0 <= m < |ps[i].batch| ==> ps[i].batch[m] in ps[i].batch;
    } else {
      assert exists k :: 0 <= k <= i && c in xs[k].batch;
    }
  }

  /** From the crash to the question: a run of `perform` that stopped in flight, on an effect nothing else is written
      about, is asked about within `|ahead| / limit + 1` passes of the first one after its deadline or its worker's
      silence. */
  lemma StoppedCallIsAsked(
    s: Store, i: Intent, d: Decision, a: Adapter, at: Time, reply: Option<ReceiptStatus>, n: nat, owner: nat,
    ps: seq<Pass>, limit: nat, ahead: set<(nat, Option<nat>)>)
    requires StoppedInFlight(i, d, a, at, reply, n) && Unheard(s, i.id)
    requires SoleSweeper(Stored(s, Script(i, d, a, at, reply)[..n], owner), ps, limit)
    requires AboutOthers(RowsAdded(ps[0].news.receipts, ps[0].news.transitions, [], [], ps[0].news.presence), i.id)
    requires PastDeadline(a, at, ps[0].at)
             || OwnerGone(Arrived(Stored(s, Script(i, d, a, at, reply)[..n], owner), ps[0].news), owner, ps[0].at)
    requires LeftAloneThroughout(ps, LostCall(s, i, at), Some(owner))
    requires forall k, e :: 0 <= k < |ps| && e in ps[k].batch && Before(e, LostCall(s, i, at)) ==> e.Key() in ahead
    requires |ahead| < |ps| * limit
    ensures IsAsked(ps, LostCall(s, i, at))
  {
    var left, news := Stored(s, Script(i, d, a, at, reply)[..n], owner), ps[0].news;
    var more := RowsAdded(news.receipts, news.transitions, [], [], news.presence);
    LostDispatchIsFindable(s, i, d, a, at, reply, n, owner, more, ps[0].at);
    assert Happens(left, more).0 == Arrived(left, news);
    StoppedLeaves(s, i, d, a, at, reply, n, owner);
    InFlightIsLatest(s, i, d, a, at, owner, news.transitions);
    LostDispatchIsAsked(left, ps, limit, LostCall(s, i, at), ahead);
  }
}
