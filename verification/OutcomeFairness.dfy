/** Which debts bounded delivery pays: those with fewer than a batch of undeliverable ones in front. */
module OutcomeFairness {
  import opened Wrappers
  import opened OutcomeDelivery

  // ----- what one pass pays

  /** The rows stay as they are but for marks, and the same runs have streams. */
  ghost predicate SameDebts(l: Ledger, m: Ledger) {
    && |m.outcomes| == |l.outcomes| && m.streams.Keys == l.streams.Keys
    && forall i :: 0 <= i < |l.outcomes| ==> m.outcomes[i] == l.outcomes[i].(delivered := m.outcomes[i].delivered)
  }

  lemma PaidPays(l: Ledger, i: nat)
    requires Owed(l, i)
    ensures SameDebts(l, Paid(l, i))
    ensures forall j :: Owed(Paid(l, i), j) <==> Owed(l, j) && !(j == i && Deliverable(l, i))
  {
  }

  /** When nothing goes wrong a pass pays exactly the deliverable ones of those it fetched. */
  lemma {:induction false} PassPays(l: Ledger, owed: seq<nat>)
    requires forall k :: 0 <= k < |owed| ==> Owed(l, owed[k])
    requires forall j, k :: 0 <= j < k < |owed| ==> owed[j] != owed[k]
    ensures SameDebts(l, PaidAll(l, owed))
    ensures forall j :: Owed(PaidAll(l, owed), j) <==> Owed(l, j) && !(j in owed && Deliverable(l, j))
    decreases |owed|
  {
    if owed != [] {
      var n := |owed| - 1;
      PassPays(l, owed[..n]);
      assert forall j :: j in owed <==> j in owed[..n] || j == owed[n];
      assert owed[n] !in owed[..n];
      PaidPays(PaidAll(l, owed[..n]), owed[n]);
    }
  }

  // ----- who stands in front

  ghost function Ahead(l: Ledger, c: nat): set<nat>
    requires c < |l.outcomes|
  {
    set i | 0 <= i < |l.outcomes| && Owed(l, i) && Before(l, i, c)
  }

  /** Those whose run has no stream: they are fetched again and again and never paid. */
  ghost function Blocking(l: Ledger, c: nat): set<nat>
    requires c < |l.outcomes|
  {
    set i | i in Ahead(l, c) && !Deliverable(l, i)
  }

  ghost function Moving(l: Ledger, c: nat): set<nat>
    requires c < |l.outcomes|
  {
    Ahead(l, c) - Blocking(l, c)
  }

  ghost function Elements(owed: seq<nat>): set<nat> {
    set k | 0 <= k < |owed| :: owed[k]
  }

  lemma {:induction false} ElementsCounted(owed: seq<nat>)
    requires forall j, k :: 0 <= j < k < |owed| ==> owed[j] != owed[k]
    ensures |Elements(owed)| == |owed|
    decreases |owed|
  {
    if owed != [] {
      var n := |owed| - 1;
      ElementsCounted(owed[..n]);
      assert forall k :: 0 <= k < n ==> owed[..n][k] == owed[k];
      assert Elements(owed) == Elements(owed[..n]) + {owed[n]};
    }
  }

  lemma SubsetSize<T>(a: set<T>, b: set<T>)
    requires a <= b
    ensures |a| <= |b|
  {
    assert b == a + (b - a);
  }

  lemma FetchedAreDistinct(l: Ledger, limit: nat, owed: seq<nat>)
    requires Fetches(l, limit, owed)
    ensures forall j, k :: 0 <= j < k < |owed| ==> owed[j] != owed[k]
    ensures |Elements(owed)| == |owed|
  {
    forall j, k | 0 <= j < k < |owed| ensures owed[j] != owed[k] {
      assert Before(l, owed[j], owed[k]);
    }
    ElementsCounted(owed);
  }

  /** Behind a whole batch of blocking debts, nothing is fetched. */
  lemma BlockedIsNotFetched(l: Ledger, limit: nat, owed: seq<nat>, c: nat)
    requires Fetches(l, limit, owed) && Owed(l, c) && |Blocking(l, c)| >= limit
    ensures c !in owed
  {
    FetchedAreDistinct(l, limit, owed);
    if c in owed {
      FetchedTakesAllAhead(l, limit, owed, c);
      SubsetSize(Blocking(l, c), Elements(owed) - {c});
    }
  }

  lemma FetchedTakesAllAhead(l: Ledger, limit: nat, owed: seq<nat>, c: nat)
    requires Fetches(l, limit, owed) && c in owed
    ensures c < |l.outcomes| && Ahead(l, c) <= Elements(owed) - {c}
  {
    var k :| 0 <= k < |owed| && owed[k] == c;
    assert Owed(l, owed[k]);
    forall i | i in Ahead(l, c) ensures i in Elements(owed) {
      assert !Before(l, owed[k], i);
    }
  }

  /** A pass that does not fetch a debt fetches a whole batch in front of it. */
  lemma PassedOver(l: Ledger, limit: nat, owed: seq<nat>, c: nat)
    requires Fetches(l, limit, owed) && Owed(l, c) && c !in owed
    ensures Elements(owed) <= Ahead(l, c) && |Elements(owed)| == limit
  {
    FetchedAreDistinct(l, limit, owed);
  }

  // ----- one pass in front of a waiting debt

  lemma PassKeepsBlocking(l: Ledger, limit: nat, owed: seq<nat>, c: nat)
    requires Fetches(l, limit, owed) && c < |l.outcomes|
    ensures c < |PaidAll(l, owed).outcomes| && Blocking(PaidAll(l, owed), c) == Blocking(l, c)
    ensures Moving(PaidAll(l, owed), c) == Moving(l, c) - Elements(owed)
  {
    FetchedAreDistinct(l, limit, owed);
    PassPays(l, owed);
    var m := PaidAll(l, owed);
    assert forall i :: 0 <= i < |l.outcomes| ==> (Before(m, i, c) <==> Before(l, i, c));
    assert forall i :: 0 <= i < |l.outcomes| ==> (Deliverable(m, i) <==> Deliverable(l, i));
  }

  lemma PassMakesRoom(l: Ledger, limit: nat, owed: seq<nat>, c: nat)
    requires Fetches(l, limit, owed) && Owed(l, c) && c !in owed && |Blocking(l, c)| <= limit
    ensures c < |PaidAll(l, owed).outcomes|
    ensures |Moving(PaidAll(l, owed), c)| + (limit - |Blocking(l, c)|) <= |Moving(l, c)|
  {
    PassedOver(l, limit, owed, c);
    PassKeepsBlocking(l, limit, owed, c);
    var fetched, blocking, moving := Elements(owed), Blocking(l, c), Moving(l, c);
    RoomMade(fetched, blocking, moving);
  }

  lemma Split<T>(a: set<T>, b: set<T>)
    ensures |a| == |a * b| + |a - b|
  {
    assert a == (a * b) + (a - b);
  }

  lemma RoomMade(fetched: set<nat>, blocking: set<nat>, moving: set<nat>)
    requires fetched <= blocking + moving
    ensures |moving - fetched| + |fetched| <= |moving| + |blocking|
  {
    Split(fetched, moving);
    Split(moving, fetched);
    assert fetched * moving == moving * fetched;
    SubsetSize(fetched - moving, blocking);
  }

  // ----- passes one after another

  datatype Pass = Pass(before: Ledger, owed: seq<nat>)

  /** Others may write to the streams and settle later outcomes; nobody opens a stream or settles an earlier one. */
  ghost predicate Between(l: Ledger, m: Ledger, c: nat) {
    && c < |l.outcomes| && l.outcomes <= m.outcomes && m.streams.Keys == l.streams.Keys
    && forall i :: |l.outcomes| <= i < |m.outcomes| ==> !Before(m, i, c)
  }

  ghost predicate Passes(ps: seq<Pass>, limit: nat, c: nat) {
    && (forall k :: 0 <= k < |ps| ==> Fetches(ps[k].before, limit, ps[k].owed))
    && (forall k :: 0 <= k < |ps| - 1 ==> Between(PaidAll(ps[k].before, ps[k].owed), ps[k + 1].before, c))
  }

  lemma BetweenKeeps(l: Ledger, m: Ledger, c: nat)
    requires Between(l, m, c)
    ensures Blocking(m, c) == Blocking(l, c) && Moving(m, c) == Moving(l, c)
    ensures (Owed(m, c) <==> Owed(l, c)) && (Deliverable(m, c) <==> Deliverable(l, c))
  {
    assert forall i :: 0 <= i < |l.outcomes| ==> m.outcomes[i] == l.outcomes[i];
    assert Ahead(m, c) == Ahead(l, c);
  }

  /** Before pass `k` the debt may still be owed: then as many block it as at the start, and every pass so far has made
      room in front of it. Behind a batch of blocking debts it is still owed. */
  ghost predicate Waiting(start: Ledger, l: Ledger, limit: nat, c: nat, k: nat)
    requires c < |start.outcomes|
  {
    && c < |l.outcomes| && Deliverable(l, c) && |Blocking(l, c)| == |Blocking(start, c)|
    && (|Blocking(start, c)| >= limit ==> Owed(l, c))
    && (|Blocking(start, c)| < limit && Owed(l, c) ==> RoomFor(start, l, limit, c, k))
  }

  ghost predicate RoomFor(start: Ledger, l: Ledger, limit: nat, c: nat, k: nat)
    requires c < |start.outcomes| && c < |l.outcomes| && |Blocking(start, c)| <= limit
  {
    |Moving(l, c)| + Times(k, limit - |Blocking(start, c)|) <= |Moving(start, c)|
  }

  function Times(k: nat, room: nat): nat {
    if k == 0 then 0 else Times(k - 1, room) + room
  }

  lemma {:induction false} TimesIs(k: nat, room: nat)
    ensures Times(k, room) == k * room
    decreases k
  {
    if k > 0 {
      TimesIs(k - 1, room);
      assert (k - 1) * room + room == k * room;
    }
  }

  /** One pass: a deliverable debt is paid exactly when it is fetched, and else room is made in front of it. */
  lemma PassWaits(l: Ledger, limit: nat, owed: seq<nat>, c: nat)
    requires Fetches(l, limit, owed) && c < |l.outcomes| && Deliverable(l, c)
    ensures var m := PaidAll(l, owed);
            && c < |m.outcomes| && Deliverable(m, c) && (Owed(m, c) <==> Owed(l, c) && c !in owed)
            && |Blocking(m, c)| == |Blocking(l, c)|
            && (Owed(m, c) && |Blocking(l, c)| < limit ==>
                  |Moving(m, c)| + (limit - |Blocking(l, c)|) <= |Moving(l, c)|)
            && (Owed(l, c) && |Blocking(l, c)| >= limit ==> Owed(m, c))
  {
    FetchedAreDistinct(l, limit, owed);
    PassPays(l, owed);
    PassKeepsBlocking(l, limit, owed, c);
    if Owed(l, c) && |Blocking(l, c)| >= limit {
      BlockedIsNotFetched(l, limit, owed, c);
    }
    if Owed(l, c) && c !in owed && |Blocking(l, c)| < limit {
      PassMakesRoom(l, limit, owed, c);
    }
  }

  lemma WaitsOn(start: Ledger, l: Ledger, limit: nat, owed: seq<nat>, c: nat, k: nat)
    requires c < |start.outcomes| && Waiting(start, l, limit, c, k) && Fetches(l, limit, owed)
    ensures Waiting(start, PaidAll(l, owed), limit, c, k + 1)
  {
    PassWaits(l, limit, owed, c);
  }

  lemma WaitsBetween(start: Ledger, l: Ledger, m: Ledger, limit: nat, c: nat, k: nat)
    requires c < |start.outcomes| && Waiting(start, l, limit, c, k) && Between(l, m, c)
    ensures Waiting(start, m, limit, c, k)
  {
    BetweenKeeps(l, m, c);
  }

  lemma {:induction false} WaitsThrough(ps: seq<Pass>, limit: nat, c: nat, k: nat)
    requires Passes(ps, limit, c) && k < |ps| && Owed(ps[0].before, c) && Deliverable(ps[0].before, c)
    ensures Waiting(ps[0].before, ps[k].before, limit, c, k)
    decreases k
  {
    if k > 0 {
      WaitsThrough(ps, limit, c, k - 1);
      var l := PaidAll(ps[k - 1].before, ps[k - 1].owed);
      WaitsOn(ps[0].before, ps[k - 1].before, limit, ps[k - 1].owed, c, k - 1);
      assert Between(l, ps[k].before, c);
      WaitsBetween(ps[0].before, l, ps[k].before, limit, c, k);
    }
  }

  // ----- the theorem

  lemma DeliveredAfter(ps: seq<Pass>, limit: nat, c: nat)
    requires Passes(ps, limit, c) && ps != [] && Owed(ps[0].before, c) && Deliverable(ps[0].before, c)
    requires var l := ps[0].before;
             |Blocking(l, c)| < limit ==> |Moving(l, c)| < Times(|ps|, limit - |Blocking(l, c)|)
    ensures var last := ps[|ps| - 1];
            !Owed(PaidAll(last.before, last.owed), c) <==> |Blocking(ps[0].before, c)| < limit
  {
    var last := ps[|ps| - 1];
    WaitsThrough(ps, limit, c, |ps| - 1);
    WaitsOn(ps[0].before, last.before, limit, last.owed, c, |ps| - 1);
  }

  /** A debt that can be paid, with nothing going wrong, is paid within one more pass than the payable debts ahead
      divided by what the blocking ones leave of a batch, if and only if fewer than a batch of debts ahead block. */
  lemma DeliveredInTimeIff(ps: seq<Pass>, limit: nat, c: nat)
    requires Passes(ps, limit, c) && ps != [] && Owed(ps[0].before, c) && Deliverable(ps[0].before, c)
    requires var l := ps[0].before;
             |Blocking(l, c)| < limit ==> |Moving(l, c)| < |ps| * (limit - |Blocking(l, c)|)
    ensures var last := ps[|ps| - 1];
            !Owed(PaidAll(last.before, last.owed), c) <==> |Blocking(ps[0].before, c)| < limit
  {
    if |Blocking(ps[0].before, c)| < limit {
      TimesIs(|ps|, limit - |Blocking(ps[0].before, c)|);
    }
    DeliveredAfter(ps, limit, c);
  }

  /** A ledger that starves: a batch of outcomes for a run without a stream, and then one for a run that has one. */
  function Starving(limit: nat): Ledger {
    Ledger(seq(limit, i => Outcome(true, Some(0), false, 0)) + [Outcome(true, Some(1), false, 0)], map[1 := []])
  }

  lemma StarvingBlocks(limit: nat)
    ensures Valid(Starving(limit)) && Owed(Starving(limit), limit) && Deliverable(Starving(limit), limit)
    ensures |Blocking(Starving(limit), limit)| == limit
  {
    var l := Starving(limit);
    var all := seq(limit, i => i);
    assert Blocking(l, limit) == Elements(all) by {
      forall i | 0 <= i < limit ensures i in Elements(all) && i in Blocking(l, limit) {
        assert all[i] == i && Owed(l, i) && Before(l, i, limit);
      }
    }
    ElementsCounted(all);
  }

  /** However many passes, the last outcome is never told, though its run has a stream and nothing goes wrong. */
  lemma StarvedForever(ps: seq<Pass>, limit: nat)
    requires Passes(ps, limit, limit) && ps != [] && ps[0].before == Starving(limit)
    ensures var last := ps[|ps| - 1]; Owed(PaidAll(last.before, last.owed), limit)
  {
    StarvingBlocks(limit);
    DeliveredInTimeIff(ps, limit, limit);
  }
}
