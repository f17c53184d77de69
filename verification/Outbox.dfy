/** The outbox drain: bounded retries with back-off, dead letters, and a backlog that empties. */
module Outbox {
  /** Seconds. */
  type Time = int

  const MAX_DELIVERY_ATTEMPTS: nat := 5

  // ----- back-off

  function Doubled(n: nat): nat {
    if n == 0 then 1 else 2 * Doubled(n - 1)
  }

  /** Thirty seconds, doubled for each refusal after the first, at most four times. */
  function RetryDelay(attempts: nat): nat {
    var exponent := if attempts == 0 then 0 else if attempts - 1 < 4 then attempts - 1 else 4;
    30 * Doubled(exponent)
  }

  lemma RetryDelays()
    ensures RetryDelay(0) == 30 && RetryDelay(1) == 30 && RetryDelay(2) == 60 && RetryDelay(3) == 120
    ensures RetryDelay(4) == 240
    ensures forall n :: n >= 5 ==> RetryDelay(n) == 480
    ensures forall n :: 30 <= RetryDelay(n) <= 480
  {
  }

  // ----- rows

  /** A stored message; `refusals` keeps the times a handler refused it, of which the table keeps only the count. */
  datatype Row = Row(topic: string, attempts: nat, processed: bool, dead: bool, nextAttempt: Time,
                     refusals: seq<Time>) {
    predicate Pending() { !processed && !dead }

    predicate Due(now: Time) { Pending() && nextAttempt <= now }
  }

  /** Every refusal waited out the delay set by the one before. */
  ghost predicate Spaced(refusals: seq<Time>) {
    forall k :: 0 < k < |refusals| ==> refusals[k - 1] + RetryDelay(k) <= refusals[k]
  }

  ghost predicate RowOk(r: Row) {
    && r.attempts == |r.refusals| <= MAX_DELIVERY_ATTEMPTS
    && !(r.processed && r.dead)
    && (r.dead <==> r.attempts == MAX_DELIVERY_ATTEMPTS)
    && (r.refusals != [] ==> r.nextAttempt == r.refusals[|r.refusals| - 1] + RetryDelay(r.attempts))
    && Spaced(r.refusals)
  }

  ghost predicate Valid(rows: seq<Row>) {
    forall i :: 0 <= i < |rows| ==> RowOk(rows[i])
  }

  /** How often a message has reached its handler: every refusal, and the one success. */
  function HandlerCalls(r: Row): nat {
    r.attempts + (if r.processed then 1 else 0)
  }

  /** No message reaches its handler more than five times, and none is dead-lettered sooner than 450 seconds after its
      first refusal. */
  lemma RowPromises(r: Row)
    requires RowOk(r)
    ensures HandlerCalls(r) <= MAX_DELIVERY_ATTEMPTS
    ensures r.dead ==> r.refusals[0] + 450 <= r.refusals[4]
  {
    RetryDelays();
    if r.dead {
      assert r.refusals[0] + RetryDelay(1) <= r.refusals[1];
      assert r.refusals[1] + RetryDelay(2) <= r.refusals[2];
      assert r.refusals[2] + RetryDelay(3) <= r.refusals[3];
      assert r.refusals[3] + RetryDelay(4) <= r.refusals[4];
    }
  }

  // ----- claiming

  /** The first `limit` due rows from `start` on; rows are kept in order of creation. */
  function Claim(rows: seq<Row>, start: nat, limit: nat, now: Time): (ids: seq<nat>)
    requires start <= |rows|
    decreases |rows| - start
  {
    if start == |rows| || limit == 0 then []
    else if rows[start].Due(now) then [start] + Claim(rows, start + 1, limit - 1, now)
    else Claim(rows, start + 1, limit, now)
  }

  lemma {:induction false} ClaimMeans(rows: seq<Row>, start: nat, limit: nat, now: Time)
    requires start <= |rows|
    ensures var ids := Claim(rows, start, limit, now);
            && |ids| <= limit
            && (forall k :: 0 <= k < |ids| ==> start <= ids[k] < |rows| && rows[ids[k]].Due(now))
            && (forall j, k :: 0 <= j < k < |ids| ==> ids[j] < ids[k])
            && (forall i, k :: start <= i && 0 <= k < |ids| && i < ids[k] && rows[i].Due(now) ==> i in ids)
            && (|ids| < limit ==> forall i :: start <= i < |rows| && rows[i].Due(now) ==> i in ids)
    decreases |rows| - start
  {
    if start < |rows| && limit > 0 {
      if rows[start].Due(now) {
        ClaimMeans(rows, start + 1, limit - 1, now);
      } else {
        ClaimMeans(rows, start + 1, limit, now);
      }
    }
  }

  // ----- one message

  function Processed(r: Row): Row {
    if r.processed then r else r.(processed := true)
  }

  function Refused(r: Row, at: Time, delay: nat, deadLetter: bool): Row {
    if r.processed then r
    else r.(attempts := r.attempts + 1, nextAttempt := at + delay, dead := r.dead || deadLetter,
            refusals := r.refusals + [at])
  }

  /** What handling does to a due row: nothing if no handler claims its topic, else success or a recorded refusal. */
  function Handled(r: Row, topics: set<string>, accepts: bool, at: Time): Row {
    if r.topic !in topics then r
    else if accepts then Processed(r)
    else Refused(r, at, RetryDelay(r.attempts + 1), r.attempts + 1 >= MAX_DELIVERY_ATTEMPTS)
  }

  lemma HandledOk(r: Row, topics: set<string>, accepts: bool, now: Time, at: Time)
    requires RowOk(r) && r.Due(now) && now <= at
    ensures RowOk(Handled(r, topics, accepts, at))
  {
  }

  // ----- a pass

  datatype Report = Report(delivered: nat, unhandled: nat, failed: nat, deadLettered: nat)

  /** What the world decides in one pass: who claims which topic, whether each delivery succeeds, and when. */
  datatype Day = Day(topics: set<string>, accepts: nat -> bool, clock: nat -> Time)

  /** The named rows are handled once each, the others untouched. */
  ghost predicate Passed(rows: seq<Row>, after: seq<Row>, ids: seq<nat>, day: Day) {
    && |after| == |rows|
    && forall i :: 0 <= i < |rows| ==>
         after[i] == if i in ids then Handled(rows[i], day.topics, day.accepts(i), day.clock(i)) else rows[i]
  }

  lemma OneMorePassed(rows: seq<Row>, before: seq<Row>, after: seq<Row>, ids: seq<nat>, k: nat, day: Day)
    requires k < |ids| && ids[k] < |rows| && ids[k] !in ids[..k]
    requires Passed(rows, before, ids[..k], day)
    requires after == before[ids[k] := Handled(before[ids[k]], day.topics, day.accepts(ids[k]), day.clock(ids[k]))]
    ensures Passed(rows, after, ids[..k + 1], day)
  {
  }

  /** A pass over claimed rows keeps every row's promises. */
  lemma PassKeeps(rows: seq<Row>, after: seq<Row>, batch: nat, now: Time, day: Day)
    requires Valid(rows) && forall i :: 0 <= i < |rows| ==> now <= day.clock(i)
    requires Passed(rows, after, Claim(rows, 0, batch, now), day)
    ensures Valid(after)
  {
    ClaimMeans(rows, 0, batch, now);
    forall i | 0 <= i < |after| ensures RowOk(after[i]) {
      if i in Claim(rows, 0, batch, now) {
        HandledOk(rows[i], day.topics, day.accepts(i), now, day.clock(i));
      }
    }
  }

  /** What a pass settles for one row: it is processed exactly if it was claimed and its handler accepted it; it has one
      refusal more, at that moment, exactly if its handler refused it, and is dead exactly after the fifth. */
  lemma PassSettles(rows: seq<Row>, after: seq<Row>, batch: nat, now: Time, day: Day, i: nat)
    requires Valid(rows) && Passed(rows, after, Claim(rows, 0, batch, now), day) && i < |rows|
    ensures var reached := i in Claim(rows, 0, batch, now) && rows[i].topic in day.topics;
            && (after[i].processed <==> rows[i].processed || (reached && day.accepts(i)))
            && (reached && !day.accepts(i) ==>
                  && after[i].refusals == rows[i].refusals + [day.clock(i)]
                  && after[i].nextAttempt == day.clock(i) + RetryDelay(|after[i].refusals|)
                  && (after[i].dead <==> |after[i].refusals| == 5))
            && (!reached || day.accepts(i) ==>
                  after[i].refusals == rows[i].refusals && after[i].nextAttempt == rows[i].nextAttempt
                  && after[i].dead == rows[i].dead)
            && after[i].topic == rows[i].topic
  {
    ClaimMeans(rows, 0, batch, now);
  }

  datatype Fate = Unhandled | Delivered | Failed(deadLettered: bool)

  function Tally(report: Report, f: Fate): Report {
    match f
    case Unhandled => report.(unhandled := report.unhandled + 1)
    case Delivered => report.(delivered := report.delivered + 1)
    case Failed(dead) =>
      report.(failed := report.failed + 1, deadLettered := report.deadLettered + (if dead then 1 else 0))
  }

  // ----- what a report counts

  function HowMany(ids: seq<nat>, these: set<nat>): nat {
    if ids == [] then 0 else
      var n := |ids| - 1;
      HowMany(ids[..n], these) + (if ids[n] in these then 1 else 0)
  }

  lemma OneMoreCounted(ids: seq<nat>, k: nat, these: set<nat>)
    requires k < |ids|
    ensures HowMany(ids[..k + 1], these) == HowMany(ids[..k], these) + (if ids[k] in these then 1 else 0)
  {
    assert ids[..k + 1][..k] == ids[..k];
  }

  function Unclaimed(rows: seq<Row>, day: Day): set<nat> {
    set i: nat | i < |rows| && rows[i].topic !in day.topics
  }

  function Accepted(rows: seq<Row>, day: Day): set<nat> {
    set i: nat | i < |rows| && rows[i].topic in day.topics && day.accepts(i)
  }

  function TurnedAway(rows: seq<Row>, day: Day): set<nat> {
    set i: nat | i < |rows| && rows[i].topic in day.topics && !day.accepts(i)
  }

  /** Those turned away for the fifth time. */
  function Buried(rows: seq<Row>, day: Day): set<nat> {
    set i: nat | i in TurnedAway(rows, day) && |rows[i].refusals| == 4
  }

  /** Each message of the batch is counted for what became of it. */
  function Counted(rows: seq<Row>, ids: seq<nat>, day: Day): Report {
    Report(HowMany(ids, Accepted(rows, day)), HowMany(ids, Unclaimed(rows, day)), HowMany(ids, TurnedAway(rows, day)),
           HowMany(ids, Buried(rows, day)))
  }

  lemma CountedNext(rows: seq<Row>, ids: seq<nat>, k: nat, day: Day, f: Fate)
    requires k < |ids| && ids[k] < |rows|
    requires f.Unhandled? <==> rows[ids[k]].topic !in day.topics
    requires f.Delivered? <==> rows[ids[k]].topic in day.topics && day.accepts(ids[k])
    requires f.Failed? ==> (f.deadLettered <==> |rows[ids[k]].refusals| == 4)
    ensures Counted(rows, ids[..k + 1], day) == Tally(Counted(rows, ids[..k], day), f)
  {
    OneMoreCounted(ids, k, Accepted(rows, day));
    OneMoreCounted(ids, k, Unclaimed(rows, day));
    OneMoreCounted(ids, k, TurnedAway(rows, day));
    OneMoreCounted(ids, k, Buried(rows, day));
  }

  class Drain {
    var rows: seq<Row>

    constructor (initial: seq<Row>)
      ensures rows == initial
    {
      rows := initial;
    }

    method Deliver(i: nat, day: Day) returns (f: Fate)
      requires i < |rows|
      modifies this
      ensures rows == old(rows)[i := Handled(old(rows)[i], day.topics, day.accepts(i), day.clock(i))]
      ensures f.Unhandled? <==> old(rows)[i].topic !in day.topics
      ensures f.Delivered? <==> old(rows)[i].topic in day.topics && day.accepts(i)
      ensures f.Failed? ==> (f.deadLettered <==> old(rows)[i].attempts + 1 >= MAX_DELIVERY_ATTEMPTS)
    {
      var message := rows[i];
      if message.topic !in day.topics {
        return Unhandled;
      }
      if day.accepts(i) {
        rows := rows[i := Processed(message)];
        return Delivered;
      }
      var attempts := message.attempts + 1;
      var deadLetter := attempts >= MAX_DELIVERY_ATTEMPTS;
      rows := rows[i := Refused(message, day.clock(i), RetryDelay(attempts), deadLetter)];
      return Failed(deadLetter);
    }

    /** One pass, alone and with storage working: the claimed rows are handled once each and the report adds up. */
    method DrainOnce(batch: nat, now: Time, day: Day) returns (report: Report, claimed: seq<nat>)
      requires Valid(rows) && forall i :: 0 <= i < |rows| ==> now <= day.clock(i)
      modifies this
      ensures claimed == Claim(old(rows), 0, batch, now)
      ensures Passed(old(rows), rows, claimed, day) && Valid(rows)
      ensures report == Counted(old(rows), claimed, day)
      ensures report.delivered + report.unhandled + report.failed == |claimed|
      ensures report.deadLettered <= report.failed
    {
      claimed := Claim(rows, 0, batch, now);
      ClaimMeans(rows, 0, batch, now);
      report := Report(0, 0, 0, 0);
      for k := 0 to |claimed|
        invariant Passed(old(rows), rows, claimed[..k], day) && report == Counted(old(rows), claimed[..k], day)
        invariant report.delivered + report.unhandled + report.failed == k
        invariant report.deadLettered <= report.failed
      {
        ghost var before := rows;
        var f := Deliver(claimed[k], day);
        OneMorePassed(old(rows), before, rows, claimed, k, day);
        CountedNext(old(rows), claimed, k, day, f);
        report := Tally(report, f);
      }
      assert claimed[..|claimed|] == claimed;
      PassKeeps(old(rows), rows, batch, now, day);
    }
  }

  // ----- the backlog empties

  /** Deliveries that the pending messages of handled topics still have coming. */
  function Remaining(rows: seq<Row>, topics: set<string>): nat {
    if rows == [] then 0 else
      var n := |rows| - 1;
      Remaining(rows[..n], topics) + Left(rows[n], topics)
  }

  function Left(r: Row, topics: set<string>): nat {
    if r.Pending() && r.topic in topics && r.attempts < MAX_DELIVERY_ATTEMPTS
    then MAX_DELIVERY_ATTEMPTS - r.attempts else 0
  }

  function Unclaimable(rows: seq<Row>, topics: set<string>): nat {
    if rows == [] then 0 else
      var n := |rows| - 1;
      Unclaimable(rows[..n], topics) + (if rows[n].Pending() && rows[n].topic !in topics then 1 else 0)
  }

  lemma {:induction false} RemainingFalls(rows: seq<Row>, after: seq<Row>, topics: set<string>)
    requires |after| == |rows| && forall i :: 0 <= i < |rows| ==> Left(after[i], topics) <= Left(rows[i], topics)
    ensures Remaining(after, topics) <= Remaining(rows, topics)
    ensures (exists i :: 0 <= i < |rows| && Left(after[i], topics) < Left(rows[i], topics)) ==>
              Remaining(after, topics) < Remaining(rows, topics)
    decreases |rows|
  {
    if rows != [] {
      var n := |rows| - 1;
      RemainingFalls(rows[..n], after[..n], topics);
      if i :| 0 <= i < |rows| && Left(after[i], topics) < Left(rows[i], topics) {
        assert i < n ==> Left(after[..n][i], topics) < Left(rows[..n][i], topics);
      }
    }
  }

  // ----- who is claimed

  function DueIn(rows: seq<Row>, now: Time): nat {
    if rows == [] then 0 else
      var n := |rows| - 1;
      DueIn(rows[..n], now) + (if rows[n].Due(now) then 1 else 0)
  }

  /** Due rows that no handler claims: they are claimed again and again, and stay as they are. */
  function Obstructing(rows: seq<Row>, topics: set<string>, now: Time): nat {
    if rows == [] then 0 else
      var n := |rows| - 1;
      Obstructing(rows[..n], topics, now) + (if rows[n].Due(now) && rows[n].topic !in topics then 1 else 0)
  }

  lemma {:induction false} DueInFront(rows: seq<Row>, now: Time)
    requires rows != []
    ensures DueIn(rows, now) == (if rows[0].Due(now) then 1 else 0) + DueIn(rows[1..], now)
    decreases |rows|
  {
    var n := |rows| - 1;
    if n > 0 {
      DueInFront(rows[..n], now);
      assert rows[..n][1..] == rows[1..][..n - 1];
    }
  }

  /** A row is claimed exactly when it is due and fewer due rows than the limit come before it. */
  lemma {:induction false} ClaimedIff(rows: seq<Row>, start: nat, limit: nat, now: Time, i: nat)
    requires start <= |rows|
    ensures i in Claim(rows, start, limit, now) <==>
            start <= i < |rows| && rows[i].Due(now) && DueIn(rows[start..i], now) < limit
    decreases |rows| - start
  {
    ClaimMeans(rows, start, limit, now);
    if start < |rows| && limit > 0 {
      if start < i < |rows| {
        DueInFront(rows[start..i], now);
        assert rows[start..i][1..] == rows[start + 1..i];
      }
      if rows[start].Due(now) {
        ClaimedIff(rows, start + 1, limit - 1, now, i);
      } else {
        ClaimedIff(rows, start + 1, limit, now, i);
      }
    }
  }

  lemma {:induction false} ObstructingWithin(rows: seq<Row>, topics: set<string>, now: Time)
    ensures Obstructing(rows, topics, now) <= DueIn(rows, now)
    ensures Obstructing(rows, topics, now) <= Unclaimable(rows, topics)
    ensures (forall i :: 0 <= i < |rows| && rows[i].Due(now) ==> rows[i].topic !in topics) ==>
              Obstructing(rows, topics, now) == DueIn(rows, now)
    decreases |rows|
  {
    if rows != [] {
      var n := |rows| - 1;
      ObstructingWithin(rows[..n], topics, now);
      assert forall i :: 0 <= i < n ==> rows[..n][i] == rows[i];
    }
  }

  lemma {:induction false} ObstructingPrefix(rows: seq<Row>, topics: set<string>, now: Time, i: nat)
    requires i <= |rows|
    ensures Obstructing(rows[..i], topics, now) <= Obstructing(rows, topics, now)
    ensures DueIn(rows[..i], now) <= DueIn(rows, now)
    decreases |rows|
  {
    if i == |rows| {
      assert rows[..i] == rows;
    } else {
      var n := |rows| - 1;
      ObstructingPrefix(rows[..n], topics, now, i);
      assert rows[..n][..i] == rows[..i];
    }
  }

  /** A handled message that is due, with fewer due unhandled ones in front of it than fit in a batch. */
  ghost predicate Reachable(rows: seq<Row>, batch: nat, now: Time, topics: set<string>, i: nat) {
    && i < |rows| && rows[i].Due(now) && rows[i].topic in topics
    && Obstructing(rows[..i], topics, now) < batch
  }

  /** The first such message is claimed. */
  lemma {:induction false} ClaimsHandled(rows: seq<Row>, batch: nat, now: Time, topics: set<string>, i: nat)
    returns (j: nat)
    requires Reachable(rows, batch, now, topics, i)
    ensures j < |rows| && j in Claim(rows, 0, batch, now) && rows[j].Due(now) && rows[j].topic in topics
    decreases i
  {
    if k :| 0 <= k < i && rows[k].Due(now) && rows[k].topic in topics {
      assert rows[..i][..k] == rows[..k];
      ObstructingPrefix(rows[..i], topics, now, k);
      j := ClaimsHandled(rows, batch, now, topics, k);
    } else {
      ObstructingWithin(rows[..i], topics, now);
      assert rows[0..i] == rows[..i];
      ClaimedIff(rows, 0, batch, now, i);
      j := i;
    }
  }

  lemma ClaimedIsReachable(rows: seq<Row>, batch: nat, now: Time, topics: set<string>, i: nat)
    requires i in Claim(rows, 0, batch, now) && i < |rows| && rows[i].topic in topics
    ensures Reachable(rows, batch, now, topics, i)
  {
    ClaimedIff(rows, 0, batch, now, i);
    assert rows[0..i] == rows[..i];
    ObstructingWithin(rows[..i], topics, now);
  }

  /** A pass makes progress if and only if some handled message is due with fewer due unhandled ones in front of it than
      fit in a batch. */
  lemma PassProgressesIff(rows: seq<Row>, after: seq<Row>, batch: nat, now: Time, day: Day)
    requires Valid(rows) && Passed(rows, after, Claim(rows, 0, batch, now), day)
    ensures Remaining(after, day.topics) <= Remaining(rows, day.topics)
    ensures Remaining(after, day.topics) < Remaining(rows, day.topics) <==>
            exists i :: Reachable(rows, batch, now, day.topics, i)
  {
    ClaimMeans(rows, 0, batch, now);
    RemainingFalls(rows, after, day.topics);
    if i :| Reachable(rows, batch, now, day.topics, i) {
      var j := ClaimsHandled(rows, batch, now, day.topics, i);
      assert RowOk(rows[j]);
      assert Left(after[j], day.topics) < Left(rows[j], day.topics);
    } else {
      forall i | 0 <= i < |rows| ensures Left(after[i], day.topics) == Left(rows[i], day.topics) {
        if i in Claim(rows, 0, batch, now) && rows[i].topic in day.topics {
          ClaimedIsReachable(rows, batch, now, day.topics, i);
        }
      }
      RemainingFalls(after, rows, day.topics);
    }
  }

  /** So if fewer unhandled messages are pending than fit in a batch, every pass with a handled message due makes
      progress. */
  lemma PassProgresses(rows: seq<Row>, after: seq<Row>, batch: nat, now: Time, day: Day)
    requires Valid(rows) && Passed(rows, after, Claim(rows, 0, batch, now), day)
    requires Unclaimable(rows, day.topics) < batch
    ensures Remaining(after, day.topics) <= Remaining(rows, day.topics)
    ensures (exists i :: 0 <= i < |rows| && rows[i].Due(now) && rows[i].topic in day.topics) ==>
              Remaining(after, day.topics) < Remaining(rows, day.topics)
  {
    PassProgressesIff(rows, after, batch, now, day);
    if i :| 0 <= i < |rows| && rows[i].Due(now) && rows[i].topic in day.topics {
      ObstructingPrefix(rows, day.topics, now, i);
      ObstructingWithin(rows, day.topics, now);
      assert Reachable(rows, batch, now, day.topics, i);
    }
  }

  // ----- passes one after another

  /** One pass: when it began, and the rows before and after. */
  datatype Pass = Pass(now: Time, day: Day, before: seq<Row>, after: seq<Row>)

  ghost predicate Ran(p: Pass, topics: set<string>, batch: nat) {
    && p.day.topics == topics
    && Passed(p.before, p.after, Claim(p.before, 0, batch, p.now), p.day)
    && forall j :: 0 <= j < |p.before| ==> p.now <= p.day.clock(j)
  }

  /** The next pass, over what this one left and whatever messages have come since. */
  ghost predicate Follows(p: Pass, q: Pass) {
    p.after <= q.before && p.now <= q.now && Valid(q.before[|p.after|..])
  }

  /** Passes in turn, at whatever times, with messages arriving between them. */
  ghost predicate Turns(ps: seq<Pass>, topics: set<string>, batch: nat) {
    && ps != [] && Valid(ps[0].before)
    && (forall i :: 0 <= i < |ps| ==> Ran(ps[i], topics, batch))
    && (forall i :: 0 <= i < |ps| - 1 ==> Follows(ps[i], ps[i + 1]))
  }

  /** The same, with fewer unhandled messages pending in the end than fit in a batch. */
  ghost predicate Chain(ps: seq<Pass>, topics: set<string>, batch: nat) {
    Turns(ps, topics, batch) && Unclaimable(ps[|ps| - 1].before, topics) < batch
  }

  predicate NoArrivals(ps: seq<Pass>) {
    forall i :: 0 <= i < |ps| - 1 ==> ps[i + 1].before == ps[i].after
  }

  /** Some message of a handled topic is due. */
  ghost predicate Busy(p: Pass, topics: set<string>) {
    exists i :: 0 <= i < |p.before| && p.before[i].Due(p.now) && p.before[i].topic in topics
  }

  ghost function BusyCount(ps: seq<Pass>, topics: set<string>): nat {
    if ps == [] then 0 else
      var n := |ps| - 1;
      BusyCount(ps[..n], topics) + (if Busy(ps[n], topics) then 1 else 0)
  }

  /** Deliveries that messages arriving between the passes brought. */
  function Arrivals(ps: seq<Pass>, topics: set<string>): nat {
    if |ps| <= 1 then 0 else
      var n := |ps| - 1;
      var known := if |ps[n - 1].after| <= |ps[n].before| then |ps[n - 1].after| else |ps[n].before|;
      Arrivals(ps[..n], topics) + Remaining(ps[n].before[known..], topics)
  }

  ghost predicate AllDue(rows: seq<Row>, topics: set<string>, now: Time) {
    forall i :: 0 <= i < |rows| && rows[i].Pending() && rows[i].topic in topics ==> rows[i].nextAttempt <= now
  }

  ghost function DueCount(ps: seq<Pass>, topics: set<string>): nat {
    if ps == [] then 0 else
      var n := |ps| - 1;
      DueCount(ps[..n], topics) + (if AllDue(ps[n].before, topics, ps[n].now) then 1 else 0)
  }

  /** Every message of a handled topic is processed or dead-lettered. */
  ghost predicate Settled(rows: seq<Row>, topics: set<string>) {
    forall i :: 0 <= i < |rows| && rows[i].topic in topics ==> rows[i].processed || rows[i].dead
  }

  // ----- sums over rows

  lemma {:induction false} UnclaimableStays(rows: seq<Row>, after: seq<Row>, topics: set<string>)
    requires |after| == |rows|
    requires forall i :: 0 <= i < |rows| ==>
               after[i].topic == rows[i].topic && (rows[i].topic !in topics ==> after[i] == rows[i])
    ensures Unclaimable(after, topics) == Unclaimable(rows, topics)
    decreases |rows|
  {
    if rows != [] {
      UnclaimableStays(rows[..|rows| - 1], after[..|rows| - 1], topics);
    }
  }

  lemma {:induction false} SumsSplit(rows: seq<Row>, more: seq<Row>, topics: set<string>)
    ensures Remaining(rows + more, topics) == Remaining(rows, topics) + Remaining(more, topics)
    ensures Unclaimable(rows + more, topics) == Unclaimable(rows, topics) + Unclaimable(more, topics)
    decreases |more|
  {
    if more == [] {
      assert rows + more == rows;
    } else {
      var n := |more| - 1;
      assert (rows + more)[..|rows + more| - 1] == rows + more[..n];
      SumsSplit(rows, more[..n], topics);
    }
  }

  lemma {:induction false} NothingRemains(rows: seq<Row>, topics: set<string>)
    requires Valid(rows)
    ensures Remaining(rows, topics) == 0 <==> Settled(rows, topics)
    decreases |rows|
  {
    if rows != [] {
      var n := |rows| - 1;
      NothingRemains(rows[..n], topics);
      assert RowOk(rows[n]);
      assert forall i :: 0 <= i < n ==> rows[..n][i] == rows[i];
    }
  }

  // ----- what a chain keeps

  lemma PassCarries(p: Pass, q: Pass, topics: set<string>, batch: nat)
    requires Ran(p, topics, batch) && Follows(p, q) && Valid(p.before)
    ensures Valid(p.after) && Valid(q.before)
    ensures Unclaimable(p.before, topics) <= Unclaimable(q.before, topics)
    ensures Remaining(q.before, topics) == Remaining(p.after, topics) + Remaining(q.before[|p.after|..], topics)
  {
    PassKeeps(p.before, p.after, batch, p.now, p.day);
    UnclaimableStays(p.before, p.after, topics);
    var more := q.before[|p.after|..];
    assert q.before == p.after + more;
    SumsSplit(p.after, more, topics);
    forall i | 0 <= i < |q.before| ensures RowOk(q.before[i]) {
      if i >= |p.after| {
        assert q.before[i] == more[i - |p.after|];
      }
    }
  }

  lemma {:induction false} ChainKeeps(ps: seq<Pass>, topics: set<string>, batch: nat, n: nat)
    requires Chain(ps, topics, batch) && n < |ps|
    ensures Valid(ps[n].before)
    decreases n
  {
    if n > 0 {
      ChainKeeps(ps, topics, batch, n - 1);
      PassCarries(ps[n - 1], ps[n], topics, batch);
    }
  }

  lemma {:induction false} ChainClaims(ps: seq<Pass>, topics: set<string>, batch: nat, n: nat)
    requires Chain(ps, topics, batch) && n < |ps|
    ensures Unclaimable(ps[n].before, topics) < batch
    decreases |ps| - n
  {
    if n < |ps| - 1 {
      ChainKeeps(ps, topics, batch, n);
      PassCarries(ps[n], ps[n + 1], topics, batch);
      ChainClaims(ps, topics, batch, n + 1);
    }
  }

  lemma ChainProgresses(ps: seq<Pass>, topics: set<string>, batch: nat, n: nat)
    requires Chain(ps, topics, batch) && n < |ps|
    ensures Valid(ps[n].before) && Valid(ps[n].after)
    ensures Remaining(ps[n].after, topics) + (if Busy(ps[n], topics) then 1 else 0) <= Remaining(ps[n].before, topics)
  {
    var p := ps[n];
    ChainKeeps(ps, topics, batch, n);
    ChainClaims(ps, topics, batch, n);
    assert Ran(p, topics, batch);
    PassKeeps(p.before, p.after, batch, p.now, p.day);
    PassProgresses(p.before, p.after, batch, p.now, p.day);
  }

  lemma {:induction false} WorkIsBoundedUpTo(ps: seq<Pass>, topics: set<string>, batch: nat, n: nat)
    requires Chain(ps, topics, batch) && n < |ps|
    ensures Remaining(ps[n].after, topics) + BusyCount(ps[..n + 1], topics)
         <= Remaining(ps[0].before, topics) + Arrivals(ps[..n + 1], topics)
    decreases n
  {
    ChainProgresses(ps, topics, batch, n);
    assert ps[..n + 1][..n] == ps[..n];
    if n > 0 {
      WorkIsBoundedUpTo(ps, topics, batch, n - 1);
      ChainKeeps(ps, topics, batch, n - 1);
      PassCarries(ps[n - 1], ps[n], topics, batch);
    }
  }

  /** Whenever the passes run: each pass that finds a handled message due uses up a delivery, so there are no more such
      passes than deliveries the messages had coming, less what is still to come; and once there have been as many, no
      handled message is left. */
  lemma WorkIsBounded(ps: seq<Pass>, topics: set<string>, batch: nat)
    requires Chain(ps, topics, batch)
    ensures Remaining(ps[|ps| - 1].after, topics) + BusyCount(ps, topics)
         <= Remaining(ps[0].before, topics) + Arrivals(ps, topics)
    ensures BusyCount(ps, topics) == Remaining(ps[0].before, topics) + Arrivals(ps, topics) ==>
              Settled(ps[|ps| - 1].after, topics)
  {
    WorkIsBoundedUpTo(ps, topics, batch, |ps| - 1);
    assert ps[..|ps|] == ps;
    ChainProgresses(ps, topics, batch, |ps| - 1);
    NothingRemains(ps[|ps| - 1].after, topics);
  }

  // ----- the backlog empties

  lemma DueIsBusy(p: Pass, topics: set<string>)
    requires AllDue(p.before, topics, p.now) && !Settled(p.before, topics)
    ensures Busy(p, topics)
  {
    var i :| 0 <= i < |p.before| && p.before[i].topic in topics && p.before[i].Pending();
    assert p.before[i].Due(p.now);
  }

  lemma {:induction false} DueCounts(ps: seq<Pass>, topics: set<string>)
    requires forall i :: 0 <= i < |ps| ==> !Settled(ps[i].before, topics)
    ensures DueCount(ps, topics) <= BusyCount(ps, topics)
    decreases |ps|
  {
    if ps != [] {
      var n := |ps| - 1;
      DueCounts(ps[..n], topics);
      if AllDue(ps[n].before, topics, ps[n].now) {
        DueIsBusy(ps[n], topics);
      }
    }
  }

  lemma SettledStays(p: Pass, topics: set<string>, batch: nat)
    requires Ran(p, topics, batch) && Settled(p.before, topics)
    ensures Settled(p.after, topics)
  {
    ClaimMeans(p.before, 0, batch, p.now);
  }

  lemma {:induction false} SettledToTheEnd(ps: seq<Pass>, topics: set<string>, batch: nat, i: nat)
    requires Chain(ps, topics, batch) && NoArrivals(ps) && i < |ps| && Settled(ps[i].before, topics)
    ensures Settled(ps[|ps| - 1].after, topics)
    decreases |ps| - i
  {
    SettledStays(ps[i], topics, batch);
    if i < |ps| - 1 {
      SettledToTheEnd(ps, topics, batch, i + 1);
    }
  }

  /** If more passes than deliveries were coming found every pending handled message due, one of them found none left;
      and if no messages arrived, none is left at the end. */
  lemma BacklogEmpties(ps: seq<Pass>, topics: set<string>, batch: nat)
    requires Chain(ps, topics, batch)
    requires DueCount(ps, topics) > Remaining(ps[0].before, topics) + Arrivals(ps, topics)
    ensures exists i :: 0 <= i < |ps| && Settled(ps[i].before, topics)
    ensures NoArrivals(ps) ==> Settled(ps[|ps| - 1].after, topics)
  {
    WorkIsBounded(ps, topics, batch);
    if forall i :: 0 <= i < |ps| ==> !Settled(ps[i].before, topics) {
      DueCounts(ps, topics);
    }
    var i :| 0 <= i < |ps| && Settled(ps[i].before, topics);
    if NoArrivals(ps) {
      SettledToTheEnd(ps, topics, batch, i);
    }
  }

  // ----- and by when

  /** What the worker's loop guarantees: a pass begins within `gap` of the one before, and a delivery ends within
      `slack` of the beginning of its pass. */
  ghost predicate Regular(ps: seq<Pass>, gap: nat, slack: nat) {
    && (forall i :: 0 <= i < |ps| - 1 ==> ps[i + 1].now <= ps[i].now + gap)
    && (forall i, j :: 0 <= i < |ps| && 0 <= j < |ps[i].before| ==> ps[i].day.clock(j) <= ps[i].now + slack)
  }

  function Horizon(start: Time, round: nat, busy: nat): Time {
    if busy == 0 then start + 480 else Horizon(start, round, busy - 1) + round
  }

  lemma {:induction false} HorizonWithin(start: Time, round: nat, busy: nat, all: nat)
    requires busy <= all
    ensures Horizon(start, round, busy) <= start + 480 + all * round
    decreases all
  {
    if busy > 0 {
      HorizonWithin(start, round, busy - 1, all - 1);
      assert (all - 1) * round + round == all * round;
    }
  }

  lemma PassKeepsDue(p: Pass, topics: set<string>, batch: nat, due: Time, slack: nat)
    requires Ran(p, topics, batch) && AllDue(p.before, topics, due)
    requires forall j :: 0 <= j < |p.before| ==> p.day.clock(j) <= p.now + slack
    ensures AllDue(p.after, topics, if Busy(p, topics) && due < p.now + slack + 480 then p.now + slack + 480 else due)
  {
    RetryDelays();
    ClaimMeans(p.before, 0, batch, p.now);
  }

  /** At pass `n`: nothing is left, or all is due by the horizon of the busy passes so far and the pass is not long
      after it. */
  ghost predicate OnTime(ps: seq<Pass>, topics: set<string>, gap: nat, slack: nat, n: nat)
    requires n < |ps|
  {
    var due := Horizon(ps[0].now, 480 + slack + gap, BusyCount(ps[..n], topics));
    Settled(ps[n].before, topics) || (AllDue(ps[n].before, topics, due) && ps[n].now <= due + gap)
  }

  /** A pass that finds nothing due, with something left, is before the horizon. */
  lemma IdleIsEarly(p: Pass, topics: set<string>, due: Time)
    requires AllDue(p.before, topics, due) && !Settled(p.before, topics) && !Busy(p, topics)
    ensures p.now < due
  {
    var i :| 0 <= i < |p.before| && p.before[i].topic in topics && p.before[i].Pending();
    assert !p.before[i].Due(p.now);
  }

  /** One pass with something left: what is due by a horizon stays due by it, or by the next one if the pass was
      busy. */
  lemma HorizonMoves(p: Pass, topics: set<string>, batch: nat, due: Time, gap: nat, slack: nat)
    requires Ran(p, topics, batch) && !Settled(p.before, topics) && AllDue(p.before, topics, due) && p.now <= due + gap
    requires forall j :: 0 <= j < |p.before| ==> p.day.clock(j) <= p.now + slack
    ensures var next := if Busy(p, topics) then due + 480 + slack + gap else due;
            AllDue(p.after, topics, next) && p.now <= next
  {
    PassKeepsDue(p, topics, batch, due, slack);
    if !Busy(p, topics) {
      IdleIsEarly(p, topics, due);
    }
  }

  lemma StaysOnTime(ps: seq<Pass>, topics: set<string>, batch: nat, gap: nat, slack: nat, n: nat)
    requires Chain(ps, topics, batch) && NoArrivals(ps) && Regular(ps, gap, slack) && n + 1 < |ps|
    requires OnTime(ps, topics, gap, slack, n)
    ensures OnTime(ps, topics, gap, slack, n + 1)
  {
    var p := ps[n];
    assert Ran(p, topics, batch) && ps[n + 1].before == p.after;
    if Settled(p.before, topics) {
      SettledStays(p, topics, batch);
    } else {
      assert ps[..n + 1][..n] == ps[..n];
      HorizonMoves(p, topics, batch, Horizon(ps[0].now, 480 + slack + gap, BusyCount(ps[..n], topics)), gap, slack);
    }
  }

  lemma {:induction false} AlwaysOnTime(ps: seq<Pass>, topics: set<string>, batch: nat, gap: nat, slack: nat, n: nat)
    requires Chain(ps, topics, batch) && NoArrivals(ps) && Regular(ps, gap, slack) && n < |ps|
    requires AllDue(ps[0].before, topics, ps[0].now + 480)
    ensures OnTime(ps, topics, gap, slack, n)
    decreases n
  {
    if n > 0 {
      AlwaysOnTime(ps, topics, batch, gap, slack, n - 1);
      StaysOnTime(ps, topics, batch, gap, slack, n - 1);
    }
  }

  lemma {:induction false} NothingArrives(ps: seq<Pass>, topics: set<string>)
    requires NoArrivals(ps)
    ensures Arrivals(ps, topics) == 0
    decreases |ps|
  {
    if |ps| > 1 {
      NothingArrives(ps[..|ps| - 1], topics);
    }
  }

  lemma BusyBounded(ps: seq<Pass>, topics: set<string>, batch: nat, n: nat)
    requires Chain(ps, topics, batch) && NoArrivals(ps) && n < |ps|
    ensures BusyCount(ps[..n], topics) <= Remaining(ps[0].before, topics)
  {
    if n > 0 {
      WorkIsBoundedUpTo(ps, topics, batch, n - 1);
      NothingArrives(ps[..n], topics);
    }
  }

  /** Every row was written by now: due at once when new, and last refused, if ever, no later than now. */
  ghost predicate WrittenBy(rows: seq<Row>, now: Time) {
    forall i :: 0 <= i < |rows| ==>
      if rows[i].refusals == [] then rows[i].nextAttempt <= now else rows[i].refusals[|rows[i].refusals| - 1] <= now
  }

  lemma DueWithinDelay(rows: seq<Row>, topics: set<string>, now: Time)
    requires Valid(rows) && WrittenBy(rows, now)
    ensures AllDue(rows, topics, now + 480)
  {
    RetryDelays();
    forall i | 0 <= i < |rows| ensures rows[i].nextAttempt <= now + 480 {
      assert RowOk(rows[i]);
    }
  }

  /** A worker that starts a pass at least every `gap` seconds, and delivers within `slack`, has processed or
      dead-lettered every message of a handled topic at most 480 seconds, plus a delay of 480 and a gap and slack for
      each delivery the messages had coming, plus a gap, after it started. */
  lemma BacklogEmptiesInTime(ps: seq<Pass>, topics: set<string>, batch: nat, gap: nat, slack: nat, n: nat)
    requires Chain(ps, topics, batch) && NoArrivals(ps) && Regular(ps, gap, slack) && n < |ps|
    requires WrittenBy(ps[0].before, ps[0].now)
    requires ps[n].now > ps[0].now + 480 + Remaining(ps[0].before, topics) * (480 + slack + gap) + gap
    ensures Settled(ps[n].before, topics)
  {
    DueWithinDelay(ps[0].before, topics, ps[0].now);
    AlwaysOnTime(ps, topics, batch, gap, slack, n);
    BusyBounded(ps, topics, batch, n);
    HorizonWithin(ps[0].now, 480 + slack + gap, BusyCount(ps[..n], topics), Remaining(ps[0].before, topics));
  }

  // ----- starvation

  lemma {:induction false} ObstructingStays(rows: seq<Row>, after: seq<Row>, topics: set<string>, now: Time, next: Time)
    requires |rows| == |after| && now <= next
    requires forall i :: 0 <= i < |rows| && rows[i].topic !in topics ==> after[i] == rows[i]
    ensures Obstructing(rows, topics, now) <= Obstructing(after, topics, next)
    decreases |rows|
  {
    if rows != [] {
      ObstructingStays(rows[..|rows| - 1], after[..|rows| - 1], topics, now, next);
    }
  }

  /** Behind a batch of due unhandled messages nothing is claimed. */
  lemma ObstructedIsNotClaimed(rows: seq<Row>, topics: set<string>, batch: nat, now: Time, k: nat, i: nat)
    requires k <= i < |rows| && batch <= Obstructing(rows[..k], topics, now)
    ensures i !in Claim(rows, 0, batch, now)
  {
    ClaimedIff(rows, 0, batch, now, i);
    assert rows[0..i] == rows[..i] && rows[..i][..k] == rows[..k];
    ObstructingPrefix(rows[..i], topics, now, k);
    ObstructingWithin(rows[..k], topics, now);
  }

  lemma ObstructionLasts(p: Pass, q: Pass, topics: set<string>, batch: nat, k: nat)
    requires Ran(p, topics, batch) && Follows(p, q) && k <= |p.before|
    requires batch <= Obstructing(p.before[..k], topics, p.now)
    ensures k <= |q.before| && batch <= Obstructing(q.before[..k], topics, q.now)
    ensures forall i :: k <= i < |p.before| ==> q.before[i] == p.before[i]
  {
    ObstructingStays(p.before[..k], q.before[..k], topics, p.now, q.now);
    forall i | k <= i < |p.before| ensures q.before[i] == p.before[i] {
      ObstructedIsNotClaimed(p.before, topics, batch, p.now, k, i);
    }
  }

  /** Once a batch of due unhandled messages stands in front, no message behind them is ever touched, at whatever times
      the passes run and however many handlers would take it. */
  lemma {:induction false} ObstructedForever(ps: seq<Pass>, topics: set<string>, batch: nat, k: nat, n: nat)
    requires Turns(ps, topics, batch) && n < |ps| && k <= |ps[0].before|
    requires batch <= Obstructing(ps[0].before[..k], topics, ps[0].now)
    ensures |ps[0].before| <= |ps[n].before| && batch <= Obstructing(ps[n].before[..k], topics, ps[n].now)
    ensures forall i :: k <= i < |ps[0].before| ==> ps[n].before[i] == ps[0].before[i]
    decreases n
  {
    if n > 0 {
      ObstructedForever(ps, topics, batch, k, n - 1);
      ObstructionLasts(ps[n - 1], ps[n], topics, batch, k);
    }
  }
}
