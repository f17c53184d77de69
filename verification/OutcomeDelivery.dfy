/** Telling runs what became of the effects they asked for: a debt that stays owed until it is marked. */
module OutcomeDelivery {
  import opened Wrappers

  // ----- outcomes and run streams

  /** How many debts one pass settles. */
  const DELIVERY_BATCH: nat := 32

  /** A reconciliation row: whether it settles, the run that asked, whether it is marked delivered, and when it was
      made. */
  datatype Outcome = Outcome(settled: bool, run: Option<nat>, delivered: bool, at: int)

  datatype Payload = EffectSettled(outcome: nat) | OtherEvent(what: nat)

  datatype RunEvent = RunEvent(sequence: nat, payload: Payload)

  datatype Ledger = Ledger(outcomes: seq<Outcome>, streams: map<nat, seq<RunEvent>>)

  predicate Owed(l: Ledger, i: nat) {
    i < |l.outcomes| && l.outcomes[i].settled && !l.outcomes[i].delivered
  }

  /** Oldest first, then by row. */
  predicate Before(l: Ledger, i: nat, j: nat)
    requires i < |l.outcomes| && j < |l.outcomes|
  {
    l.outcomes[i].at < l.outcomes[j].at || (l.outcomes[i].at == l.outcomes[j].at && i < j)
  }

  /** The bounded query: the first `limit` owed outcomes, in order. */
  ghost predicate Fetches(l: Ledger, limit: nat, owed: seq<nat>) {
    && |owed| <= limit
    && (forall k :: 0 <= k < |owed| ==> Owed(l, owed[k]))
    && (forall j, k :: 0 <= j < k < |owed| ==> Before(l, owed[j], owed[k]))
    && (forall i :: Owed(l, i) && i !in owed ==>
          |owed| == limit && forall k :: 0 <= k < |owed| ==> Before(l, owed[k], i))
  }

  /** Sequence numbers run from one, without gaps. */
  ghost predicate Contiguous(stream: seq<RunEvent>) {
    forall k :: 0 <= k < |stream| ==> stream[k].sequence == k + 1
  }

  ghost predicate Recorded(l: Ledger, i: nat)
    requires i < |l.outcomes| && l.outcomes[i].run.Some?
  {
    var run := l.outcomes[i].run.value;
    run in l.streams && exists k :: 0 <= k < |l.streams[run]| && l.streams[run][k].payload == EffectSettled(i)
  }

  ghost predicate Valid(l: Ledger) {
    && (forall run :: run in l.streams ==> Contiguous(l.streams[run]))
    && (forall i :: 0 <= i < |l.outcomes| && l.outcomes[i].delivered ==>
          l.outcomes[i].settled && (l.outcomes[i].run.Some? ==> Recorded(l, i)))
  }

  /** Compare-and-append: the stream must exist and stand at the expected version. */
  function Append(l: Ledger, run: nat, expected: nat, payload: Payload): Option<Ledger> {
    if run !in l.streams || |l.streams[run]| != expected then None
    else Some(l.(streams := l.streams[run := l.streams[run] + [RunEvent(expected + 1, payload)]]))
  }

  /** Marking is guarded: only an unmarked row changes. */
  function Mark(l: Ledger, i: nat): Ledger {
    if i < |l.outcomes| && !l.outcomes[i].delivered
    then l.(outcomes := l.outcomes[i := l.outcomes[i].(delivered := true)])
    else l
  }

  // ----- any number of deliverers and writers

  datatype Phase = Idle | Holding(outcome: nat) | HeadKnown(outcome: nat, head: nat) | Told(outcome: nat)

  datatype World = World(ledger: Ledger, deliverers: map<nat, Phase>)

  datatype Step =
    | Reconcile(outcome: Outcome)
    | OpenStream(run: nat)
    | WriterAppends(run: nat, expected: nat, what: nat)
    | Take(p: nat, i: nat)
    | LoadHead(p: nat)
    | AppendOutcome(p: nat, replied: bool)
    | MarkDelivered(p: nat)
    | Drop(p: nat)

  function PhaseOf(w: World, p: nat): Phase {
    if p in w.deliverers then w.deliverers[p] else Idle
  }

  function At(w: World, p: nat, phase: Phase): World {
    w.(deliverers := w.deliverers[p := phase])
  }

  function Act(w: World, s: Step): Option<World> {
    match s
    case Reconcile(o) =>
      if o.delivered then None else Some(w.(ledger := w.ledger.(outcomes := w.ledger.outcomes + [o])))
    case OpenStream(run) =>
      if run in w.ledger.streams then None else Some(w.(ledger := w.ledger.(streams := w.ledger.streams[run := []])))
    case WriterAppends(run, expected, what) =>
      (match Append(w.ledger, run, expected, OtherEvent(what))
       case Some(l) => Some(w.(ledger := l))
       case None => None)
    case Take(p, i) => if PhaseOf(w, p).Idle? && Owed(w.ledger, i) then Some(At(w, p, Holding(i))) else None
    case LoadHead(p) =>
      (match PhaseOf(w, p)
       case Holding(i) =>
         if i < |w.ledger.outcomes| && w.ledger.outcomes[i].run.Some?
            && w.ledger.outcomes[i].run.value in w.ledger.streams
         then Some(At(w, p, HeadKnown(i, |w.ledger.streams[w.ledger.outcomes[i].run.value]|))) else None
       case _ => None)
    case AppendOutcome(p, replied) =>
      (match PhaseOf(w, p)
       case HeadKnown(i, head) =>
         if i >= |w.ledger.outcomes| || w.ledger.outcomes[i].run.None? then None
         else
           (match Append(w.ledger, w.ledger.outcomes[i].run.value, head, EffectSettled(i))
            case None => Some(At(w, p, Idle))
            case Some(l) => Some(At(w, p, if replied then Told(i) else Idle).(ledger := l)))
       case _ => None)
    case MarkDelivered(p) =>
      (match PhaseOf(w, p)
       case Told(i) => Some(At(w, p, Idle).(ledger := Mark(w.ledger, i)))
       case Holding(i) =>
         if i < |w.ledger.outcomes| && w.ledger.outcomes[i].run.None?
         then Some(At(w, p, Idle).(ledger := Mark(w.ledger, i))) else None
       case _ => None)
    case Drop(p) => Some(At(w, p, Idle))
  }

  /** What a deliverer may rely on: what it holds is settled, and what it has told is in the stream. */
  ghost predicate Relies(l: Ledger, phase: Phase) {
    && (!phase.Idle? ==> phase.outcome < |l.outcomes| && l.outcomes[phase.outcome].settled)
    && (phase.Told? ==> l.outcomes[phase.outcome].run.Some? && Recorded(l, phase.outcome))
  }

  ghost predicate Inv(w: World) {
    Valid(w.ledger) && forall p :: p in w.deliverers ==> Relies(w.ledger, w.deliverers[p])
  }

  /** Streams only grow at the end, and outcomes only by rows and marks. */
  ghost predicate Grows(l: Ledger, m: Ledger) {
    && |l.outcomes| <= |m.outcomes|
    && (forall i :: 0 <= i < |l.outcomes| ==>
          m.outcomes[i].settled == l.outcomes[i].settled && m.outcomes[i].run == l.outcomes[i].run
          && (l.outcomes[i].delivered ==> m.outcomes[i].delivered))
    && (forall run :: run in l.streams ==> run in m.streams && l.streams[run] <= m.streams[run])
  }

  lemma RecordedStays(l: Ledger, m: Ledger, i: nat)
    requires Grows(l, m) && i < |l.outcomes| && l.outcomes[i].run.Some? && Recorded(l, i)
    ensures Recorded(m, i)
  {
  }

  lemma ReliesStays(l: Ledger, m: Ledger, phase: Phase)
    requires Grows(l, m) && Relies(l, phase)
    ensures Relies(m, phase)
  {
  }

  lemma AppendKeeps(l: Ledger, run: nat, expected: nat, payload: Payload, m: Ledger)
    requires Valid(l) && Append(l, run, expected, payload) == Some(m)
    ensures Valid(m) && Grows(l, m)
    ensures m.streams[run][expected].payload == payload
  {
    forall i | 0 <= i < |m.outcomes| && m.outcomes[i].delivered && m.outcomes[i].run.Some? ensures Recorded(m, i) {
      RecordedStays(l, m, i);
    }
  }

  lemma MarkKeeps(l: Ledger, i: nat)
    requires Valid(l) && i < |l.outcomes| && l.outcomes[i].settled && (l.outcomes[i].run.Some? ==> Recorded(l, i))
    ensures Valid(Mark(l, i)) && Grows(l, Mark(l, i)) && !Owed(Mark(l, i), i)
    ensures forall j :: j != i ==> (Owed(Mark(l, i), j) <==> Owed(l, j))
  {
  }

  lemma RowKeeps(l: Ledger, m: Ledger)
    requires Valid(l) && Grows(l, m)
    requires forall run :: run in m.streams ==> Contiguous(m.streams[run])
    requires forall i :: 0 <= i < |m.outcomes| && m.outcomes[i].delivered ==>
               i < |l.outcomes| && l.outcomes[i].delivered
    ensures Valid(m)
  {
  }

  lemma LedgerKept(w: World, s: Step, w': World)
    requires Inv(w) && Act(w, s) == Some(w')
    ensures Valid(w'.ledger) && Grows(w.ledger, w'.ledger)
  {
    match s
    case WriterAppends(run, expected, what) => AppendKeeps(w.ledger, run, expected, OtherEvent(what), w'.ledger);
    case AppendOutcome(p, replied) =>
      if w'.ledger != w.ledger {
        var i := PhaseOf(w, p).outcome;
        AppendKeeps(w.ledger, w.ledger.outcomes[i].run.value, PhaseOf(w, p).head, EffectSettled(i), w'.ledger);
      }
    case MarkDelivered(p) =>
      assert Relies(w.ledger, w.deliverers[p]);
      MarkKeeps(w.ledger, PhaseOf(w, p).outcome);
    case Reconcile(o) => RowKeeps(w.ledger, w'.ledger);
    case OpenStream(run) => RowKeeps(w.ledger, w'.ledger);
    case _ =>
  }

  /** Every step keeps it: marked outcomes without a run or recorded in their run's stream, gap-free streams. */
  lemma StepKeeps(w: World, s: Step, w': World)
    requires Inv(w) && Act(w, s) == Some(w')
    ensures Inv(w') && Grows(w.ledger, w'.ledger)
  {
    LedgerKept(w, s, w');
    forall q | q in w'.deliverers ensures Relies(w'.ledger, w'.deliverers[q]) {
      if q in w.deliverers && w'.deliverers[q] == w.deliverers[q] {
        ReliesStays(w.ledger, w'.ledger, w.deliverers[q]);
      } else {
        StepperRelies(w, s, w', q);
      }
    }
  }

  lemma StepperRelies(w: World, s: Step, w': World, q: nat)
    requires Inv(w) && Act(w, s) == Some(w') && Grows(w.ledger, w'.ledger)
    requires q in w'.deliverers && !(q in w.deliverers && w'.deliverers[q] == w.deliverers[q])
    ensures Relies(w'.ledger, w'.deliverers[q])
  {
    if q in w.deliverers {
      assert Relies(w.ledger, w.deliverers[q]);
    }
    if s.AppendOutcome? && w'.deliverers[q].Told? {
      var i, head := PhaseOf(w, q).outcome, PhaseOf(w, q).head;
      var run := w.ledger.outcomes[i].run.value;
      AppendKeeps(w.ledger, run, head, EffectSettled(i), w'.ledger);
    }
  }

  function Run(w: World, steps: seq<Step>): Option<World>
    decreases |steps|
  {
    if steps == [] then Some(w) else
      match Act(w, steps[0])
      case None => None
      case Some(next) => Run(next, steps[1..])
  }

  /** Over every run: an outcome marked delivered has no run or is in its run's stream; streams stay gap-free; a settled
      outcome stays owed until it is marked, and nothing ever unmarks it or takes it out of the stream. */
  lemma {:induction false} DeliveredMeansTold(w: World, steps: seq<Step>, w': World)
    requires Inv(w) && Run(w, steps) == Some(w')
    ensures Inv(w') && Grows(w.ledger, w'.ledger)
    decreases |steps|
  {
    if steps != [] {
      var next := Act(w, steps[0]).value;
      StepKeeps(w, steps[0], next);
      DeliveredMeansTold(next, steps[1..], w');
      GrowsOn(w.ledger, next.ledger, w'.ledger);
    }
  }

  lemma GrowsOn(l: Ledger, m: Ledger, n: Ledger)
    requires Grows(l, m) && Grows(m, n)
    ensures Grows(l, n)
  {
  }

  /** A debt is paid by a mark and nothing else: by a deliverer that has told the run, so that the run's stream holds
      the outcome, or by one that holds an outcome no run asked for. */
  lemma OnlyMarksPay(w: World, s: Step, w': World, i: nat)
    requires Inv(w) && Act(w, s) == Some(w') && Owed(w.ledger, i)
    ensures !Owed(w'.ledger, i) <==>
            s.MarkDelivered? && (PhaseOf(w, s.p) == Told(i)
                                 || (PhaseOf(w, s.p) == Holding(i) && w.ledger.outcomes[i].run.None?))
    ensures !Owed(w'.ledger, i) && w.ledger.outcomes[i].run.Some? ==> Recorded(w.ledger, i)
  {
    if s.MarkDelivered? && s.p in w.deliverers {
      assert Relies(w.ledger, w.deliverers[s.p]);
    }
  }

  // ----- one pass

  /** What goes on around the handling of one debt: storage that breaks, writers that get in between reading the head
      and appending, and an append whose reply is lost. */
  datatype Luck = Luck(headBroken: bool, rivals: nat, appendBroken: bool, replyLost: bool, markBroken: bool)

  datatype Fate = Delivered | Unattributable | Deferred | Broken

  datatype Report = Report(delivered: nat, unattributable: nat, deferred: nat)

  function RivalsAppend(l: Ledger, run: nat, n: nat): Ledger
    requires run in l.streams
  {
    if n == 0 then l else
      var before := RivalsAppend(l, run, n - 1);
      if run in before.streams then Append(before, run, |before.streams[run]|, OtherEvent(n)).value else before
  }

  lemma {:induction false} RivalsKeep(l: Ledger, run: nat, n: nat)
    requires Valid(l) && run in l.streams
    ensures var m := RivalsAppend(l, run, n);
            Valid(m) && Grows(l, m) && m.outcomes == l.outcomes && |m.streams[run]| == |l.streams[run]| + n
    decreases n
  {
    if n > 0 {
      RivalsKeep(l, run, n - 1);
      var before := RivalsAppend(l, run, n - 1);
      var m := RivalsAppend(l, run, n);
      AppendKeeps(before, run, |before.streams[run]|, OtherEvent(n), m);
      GrowsOn(l, before, m);
    }
  }

  /** Nothing goes wrong and nobody gets in between. */
  predicate Fine(luck: Luck) {
    !luck.headBroken && luck.rivals == 0 && !luck.appendBroken && !luck.replyLost && !luck.markBroken
  }

  ghost predicate AllFine(lucks: seq<Luck>) {
    forall k :: 0 <= k < |lucks| ==> Fine(lucks[k])
  }

  lemma PaidNext(l: Ledger, owed: seq<nat>, k: nat)
    requires k < |owed|
    ensures PaidAll(l, owed[..k + 1]) == Paid(PaidAll(l, owed[..k]), owed[k])
  {
    assert owed[..k + 1][..k] == owed[..k];
  }

  /** Nobody to tell, or a run that has a stream to be told in. */
  predicate Deliverable(l: Ledger, i: nat)
    requires i < |l.outcomes|
  {
    l.outcomes[i].run.None? || l.outcomes[i].run.value in l.streams
  }

  /** What handling one debt comes to when nothing goes wrong: told if there is somebody to tell, marked if told or if
      there is nobody, and left alone if the run has no stream. */
  function Paid(l: Ledger, i: nat): (m: Ledger)
    ensures |m.outcomes| == |l.outcomes|
  {
    if i >= |l.outcomes| || !Deliverable(l, i) then l
    else if l.outcomes[i].run.None? then Mark(l, i)
    else
      var run := l.outcomes[i].run.value;
      Mark(Append(l, run, |l.streams[run]|, EffectSettled(i)).value, i)
  }

  function PaidAll(l: Ledger, owed: seq<nat>): Ledger {
    if owed == [] then l else
      var n := |owed| - 1;
      Paid(PaidAll(l, owed[..n]), owed[n])
  }

  class Service {
    var ledger: Ledger

    constructor (l: Ledger)
      ensures ledger == l
    {
      ledger := l;
    }

    /** Read the head, then append at it: fails if the stream is missing or has moved, or storage breaks. */
    method AppendToRun(run: nat, i: nat, luck: Luck) returns (ok: bool)
      requires Valid(ledger) && i < |ledger.outcomes| && ledger.outcomes[i].run == Some(run)
      modifies this
      ensures Valid(ledger) && Grows(old(ledger), ledger) && ledger.outcomes == old(ledger).outcomes
      ensures ok ==> Recorded(ledger, i)
      ensures ok <==> run in old(ledger).streams && luck.rivals == 0
                      && !luck.headBroken && !luck.appendBroken && !luck.replyLost
      ensures ok ==> Append(old(ledger), run, |old(ledger).streams[run]|, EffectSettled(i)) == Some(ledger)
      ensures run !in old(ledger).streams ==> ledger == old(ledger)
    {
      if luck.headBroken || run !in ledger.streams {
        return false;
      }
      var head := |ledger.streams[run]|;
      RivalsKeep(ledger, run, luck.rivals);
      ledger := RivalsAppend(ledger, run, luck.rivals);
      if luck.appendBroken {
        return false;
      }
      var appended := Append(ledger, run, head, EffectSettled(i));
      if appended.None? {
        return false;
      }
      AppendKeeps(ledger, run, head, EffectSettled(i), appended.value);
      GrowsOn(old(ledger), ledger, appended.value);
      ledger := appended.value;
      ok := !luck.replyLost;
    }

    method DeliverOne(i: nat, luck: Luck) returns (f: Fate)
      requires Valid(ledger) && Owed(ledger, i)
      modifies this
      ensures Valid(ledger) && Grows(old(ledger), ledger)
      ensures f.Broken? || FateOf(ledger, i, f)
      ensures forall j :: j != i ==> (Owed(ledger, j) <==> Owed(old(ledger), j))
      ensures Fine(luck) ==> !f.Broken? && ledger == Paid(old(ledger), i)
    {
      if ledger.outcomes[i].run.None? {
        if luck.markBroken {
          return Broken;
        }
        MarkKeeps(ledger, i);
        ledger := Mark(ledger, i);
        return Unattributable;
      }
      var ok := AppendToRun(ledger.outcomes[i].run.value, i, luck);
      if !ok {
        return Deferred;
      }
      if luck.markBroken {
        return Broken;
      }
      MarkKeeps(ledger, i);
      GrowsOn(old(ledger), ledger, Mark(ledger, i));
      RecordedStays(ledger, Mark(ledger, i), i);
      ledger := Mark(ledger, i);
      return Delivered;
    }

    /** The loop over the fetched debts. */
    method DeliverEach(owed: seq<nat>, lucks: seq<Luck>) returns (r: Result<Report, ()>, ghost fates: seq<Fate>)
      requires Valid(ledger) && |lucks| == |owed|
      requires forall k :: 0 <= k < |owed| ==> Owed(ledger, owed[k])
      requires forall j, k :: 0 <= j < k < |owed| ==> owed[j] != owed[k]
      modifies this
      ensures Valid(ledger) && Grows(old(ledger), ledger)
      ensures r.Ok? ==> |fates| == |owed| && FatesOf(ledger, owed, fates)
      ensures r.Ok? ==> r.value == Counted(fates)
      ensures r.Ok? ==> r.value.delivered + r.value.unattributable + r.value.deferred == |owed|
      ensures AllFine(lucks) ==> r.Ok? && ledger == PaidAll(old(ledger), owed)
    {
      var report := Report(0, 0, 0);
      fates := [];
      for k := 0 to |owed|
        invariant |fates| == k && Underway(old(ledger), ledger, owed, lucks, fates)
        invariant report == Counted(fates)
        invariant report.delivered + report.unattributable + report.deferred == k
      {
        ghost var before := ledger;
        var f := DeliverOne(owed[k], lucks[k]);
        GrowsOn(old(ledger), before, ledger);
        if !f.Broken? {
          OneMorePaid(old(ledger), before, ledger, owed, lucks, fates, f);
        }
        match f {
          case Broken => return Err(()), fates;
          case Delivered => report := report.(delivered := report.delivered + 1);
          case Unattributable => report := report.(unattributable := report.unattributable + 1);
          case Deferred => report := report.(deferred := report.deferred + 1);
        }
        CountedNext(fates, f);
        fates := fates + [f];
      }
      assert owed[..|owed|] == owed;
      return Ok(report), fates;
    }

    /** A pass over the oldest debts that succeeds accounts for each of them once, and leaves owed exactly those it
        deferred; when nothing goes wrong it pays every one of them that can be paid. */
    method DeliverOnce(owed: seq<nat>, lucks: seq<Luck>) returns (r: Result<Report, ()>, ghost fates: seq<Fate>)
      requires Valid(ledger) && Fetches(ledger, DELIVERY_BATCH, owed) && |lucks| == |owed|
      modifies this
      ensures Valid(ledger) && Grows(old(ledger), ledger)
      ensures r.Ok? ==> |fates| == |owed| && FatesOf(ledger, owed, fates)
      ensures r.Ok? ==> r.value == Counted(fates)
      ensures r.Ok? ==> r.value.delivered + r.value.unattributable + r.value.deferred == |owed| <= DELIVERY_BATCH
      ensures AllFine(lucks) ==> r.Ok? && ledger == PaidAll(old(ledger), owed)
    {
      r, fates := DeliverEach(owed, lucks);
    }
  }

  /** What a fate says of its outcome afterwards. */
  ghost predicate FateOf(l: Ledger, i: nat, f: Fate) {
    && i < |l.outcomes|
    && (f.Deferred? <==> Owed(l, i))
    && (f.Unattributable? <==> l.outcomes[i].run.None?)
    && (f.Delivered? ==> Recorded(l, i))
  }

  ghost predicate FatesOf(l: Ledger, owed: seq<nat>, fates: seq<Fate>) {
    |fates| <= |owed| && forall j :: 0 <= j < |fates| ==> FateOf(l, owed[j], fates[j])
  }

  /** Part of the way through the debts: those handled have their fates, the others are still owed. */
  ghost predicate Underway(start: Ledger, l: Ledger, owed: seq<nat>, lucks: seq<Luck>, fates: seq<Fate>) {
    && Valid(l) && Grows(start, l) && FatesOf(l, owed, fates)
    && (forall j :: |fates| <= j < |owed| ==> Owed(l, owed[j]))
    && (AllFine(lucks) ==> l == PaidAll(start, owed[..|fates|]))
  }

  lemma OneMorePaid(start: Ledger, l: Ledger, m: Ledger, owed: seq<nat>, lucks: seq<Luck>, fates: seq<Fate>, f: Fate)
    requires Underway(start, l, owed, lucks, fates) && |fates| < |owed| == |lucks|
    requires forall j, k :: 0 <= j < k < |owed| ==> owed[j] != owed[k]
    requires Valid(m) && Grows(l, m) && Grows(start, m) && FateOf(m, owed[|fates|], f)
    requires forall i :: i != owed[|fates|] ==> (Owed(m, i) <==> Owed(l, i))
    requires Fine(lucks[|fates|]) ==> m == Paid(l, owed[|fates|])
    ensures Underway(start, m, owed, lucks, fates + [f])
  {
    FatesStay(l, m, owed, |fates|, fates);
    PaidNext(start, owed, |fates|);
  }

  lemma FatesStay(l: Ledger, m: Ledger, owed: seq<nat>, k: nat, fates: seq<Fate>)
    requires Grows(l, m) && |fates| == k < |owed|
    requires forall j, k :: 0 <= j < k < |owed| ==> owed[j] != owed[k]
    requires forall i :: i != owed[k] ==> (Owed(m, i) <==> Owed(l, i))
    requires FatesOf(l, owed, fates)
    ensures FatesOf(m, owed, fates)
  {
  }

  function Count(fs: seq<Fate>, f: Fate): nat {
    if fs == [] then 0 else Count(fs[..|fs| - 1], f) + (if fs[|fs| - 1] == f then 1 else 0)
  }

  function Counted(fs: seq<Fate>): Report {
    Report(Count(fs, Delivered), Count(fs, Unattributable), Count(fs, Deferred))
  }

  lemma CountedNext(fs: seq<Fate>, f: Fate)
    ensures Counted(fs + [f]).delivered == Counted(fs).delivered + (if f.Delivered? then 1 else 0)
    ensures Counted(fs + [f]).unattributable == Counted(fs).unattributable + (if f.Unattributable? then 1 else 0)
    ensures Counted(fs + [f]).deferred == Counted(fs).deferred + (if f.Deferred? then 1 else 0)
  {
    assert (fs + [f])[..|fs|] == fs;
  }
}
