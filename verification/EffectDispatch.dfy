/** Performing an external effect: what is durable before anything leaves the process, at every point it may stop. */
module EffectDispatch {
  import opened Wrappers
  import opened EffectStore
  import opened EffectFairness

  const DISPATCH_RECEIPT_COMMIT_MARGIN: Time := 5
  const DEFAULT_DISPATCH_ALLOWANCE: Time := 300

  // ----- values

  datatype Intent = Intent(
    id: nat,
    workspace: nat,
    actor: nat,
    capability: string,
    operation: string,
    target: string,
    policyDecisionRef: Option<string>,
    adapter: string,
    deliverySemantics: string,
    idempotencyProfile: string,
    reversibility: string)

  datatype Decision = Decision(
    decisionRef: string,
    allowed: bool,
    workspace: nat,
    subject: nat,
    capability: string,
    operation: string,
    scope: string,
    decidedAt: Time)

  datatype Adapter = Adapter(
    name: string,
    deliverySemantics: string,
    idempotencyProfile: string,
    reversibility: string,
    requiredCapability: string,
    supportsReconciliation: bool,
    timeout: Option<Time>)

  /** The decision is about this very intent, and allows it. */
  predicate Authorizes(d: Decision, i: Intent) {
    && d.allowed
    && d.workspace == i.workspace
    && d.subject == i.actor
    && d.capability == i.capability
    && d.operation == i.operation
    && d.scope == i.target
    && (i.policyDecisionRef.Some? ==> i.policyDecisionRef.value == d.decisionRef)
  }

  predicate ContractHolds(a: Adapter) {
    && (a.deliverySemantics == "effectively_once" ==>
          a.idempotencyProfile == "provider_key" || a.idempotencyProfile == "conditional")
    && a.supportsReconciliation
  }

  predicate Dispatchable(a: Adapter, i: Intent) {
    && ContractHolds(a)
    && a.name == i.adapter
    && a.deliverySemantics == i.deliverySemantics
    && a.idempotencyProfile == i.idempotencyProfile
    && a.reversibility == i.reversibility
    && a.requiredCapability == i.capability
  }

  function Timeout(a: Adapter): Time {
    if a.timeout.Some? then a.timeout.value else DEFAULT_DISPATCH_ALLOWANCE
  }

  function Deadline(a: Adapter, at: Time): Time {
    at + Timeout(a) + DISPATCH_RECEIPT_COMMIT_MARGIN
  }

  // ----- the order of events

  datatype Event =
    | IntentStored(intent: Intent)
    | AuthorizationStored(effect: nat, decision: Decision)
    | DispatchStored(effect: nat, at: Time, expires: Time)
    | AdapterCalled(effect: nat)
    | ReceiptStored(effect: nat, status: ReceiptStatus, at: Time)

  /** Everything that would happen if nothing stopped it; `reply` is what the adapter returned, if it returned. */
  function Script(i: Intent, d: Decision, a: Adapter, at: Time, reply: Option<ReceiptStatus>): seq<Event> {
    [IntentStored(i)]
    + if d.allowed && !Authorizes(d, i) then []
      else [AuthorizationStored(i.id, d)]
           + if !d.allowed || !Dispatchable(a, i) then []
             else [DispatchStored(i.id, at, Deadline(a, at)), AdapterCalled(i.id)]
                  + if reply.Some? then [ReceiptStored(i.id, reply.value, at)] else []
  }

  datatype EffectError = PolicyRefused | ContractRefused | AdapterFailed | StorageFailed

  /** The process and its durable store: after `budget` more writes one fails, having landed or not. */
  class Process {
    var events: seq<Event>
    var budget: nat
    var lands: bool

    constructor (before: seq<Event>, n: nat, lastLands: bool)
      ensures events == before
    {
      events, budget, lands := before, n, lastLands;
    }

    method Write(e: Event) returns (ok: bool)
      modifies this
      ensures ok ==> events == old(events) + [e]
      ensures !ok ==> events == old(events) || events == old(events) + [e]
    {
      ok := budget > 0;
      if ok || lands {
        events := events + [e];
      }
      budget := if ok then budget - 1 else 0;
    }

    method Authorize(i: Intent, d: Decision) returns (r: Result<(), EffectError>)
      modifies this
      ensures r.Ok? ==> Authorizes(d, i) && events == old(events) + [AuthorizationStored(i.id, d)]
      ensures events == old(events)
              || (!(d.allowed && !Authorizes(d, i)) && events == old(events) + [AuthorizationStored(i.id, d)])
    {
      if d.allowed && !Authorizes(d, i) {
        return Err(PolicyRefused);
      }
      var ok := Write(AuthorizationStored(i.id, d));
      if !ok {
        return Err(StorageFailed);
      }
      r := if d.allowed then Ok(()) else Err(PolicyRefused);
    }

    /** Validate, record, and only then call; the reply is whatever the adapter returned. */
    method Dispatch(i: Intent, a: Adapter, at: Time, reply: Option<ReceiptStatus>)
      returns (r: Result<ReceiptStatus, EffectError>)
      modifies this
      ensures r.Ok? ==> Dispatchable(a, i) && reply == Some(r.value)
                        && events == old(events) + [DispatchStored(i.id, at, Deadline(a, at)), AdapterCalled(i.id)]
      ensures old(events) <= events
      ensures Dispatchable(a, i) ==>
                events <= old(events) + [DispatchStored(i.id, at, Deadline(a, at)), AdapterCalled(i.id)]
      ensures !Dispatchable(a, i) ==> events == old(events)
    {
      if !Dispatchable(a, i) {
        return Err(ContractRefused);
      }
      var ok := Write(DispatchStored(i.id, at, Deadline(a, at)));
      if !ok {
        return Err(StorageFailed);
      }
      events := events + [AdapterCalled(i.id)];
      r := if reply.Some? then Ok(reply.value) else Err(AdapterFailed);
    }

    /** However it ends, what happened is the script up to some point; it succeeds only at the script's end. If the
        adapter was called, the intent, an allowed decision that authorizes exactly it, and the dispatch with its
        stated deadline were durable before, in that order. */
    method Perform(i: Intent, d: Decision, a: Adapter, at: Time, reply: Option<ReceiptStatus>)
      returns (r: Result<ReceiptStatus, EffectError>)
      modifies this
      ensures old(events) <= events <= old(events) + Script(i, d, a, at, reply)
      ensures r.Ok? ==> events == old(events) + Script(i, d, a, at, reply) && reply == Some(r.value)
                        && Authorizes(d, i) && Dispatchable(a, i)
      ensures AdapterCalled(i.id) in events[|old(events)|..] ==>
                && Authorizes(d, i) && Dispatchable(a, i)
                && old(events) + DurableCall(i, d, a, at) <= events
    {
      ghost var before := events;
      r := PerformScript(i, d, a, at, reply);
      if AdapterCalled(i.id) in events[|before|..] {
        CalledOnlyAfterDurable(i, d, a, at, reply, |events| - |before|);
      }
    }

    method PerformScript(i: Intent, d: Decision, a: Adapter, at: Time, reply: Option<ReceiptStatus>)
      returns (r: Result<ReceiptStatus, EffectError>)
      modifies this
      ensures old(events) <= events <= old(events) + Script(i, d, a, at, reply)
      ensures r.Ok? ==> events == old(events) + Script(i, d, a, at, reply) && reply == Some(r.value)
                        && Authorizes(d, i) && Dispatchable(a, i)
    {
      ghost var before, script := events, Script(i, d, a, at, reply);
      var ok := Write(IntentStored(i));
      assert before + [IntentStored(i)] <= before + script;
      if !ok {
        return Err(StorageFailed);
      }
      var authorized := Authorize(i, d);
      assert !(d.allowed && !Authorizes(d, i)) ==>
               before + [IntentStored(i)] + [AuthorizationStored(i.id, d)] <= before + script;
      if authorized.Err? {
        return Err(authorized.error);
      }
      var middle := [DispatchStored(i.id, at, Deadline(a, at)), AdapterCalled(i.id)];
      assert Dispatchable(a, i) ==>
               before + [IntentStored(i)] + [AuthorizationStored(i.id, d)] + middle <= before + script;
      var receipt := Dispatch(i, a, at, reply);
      if receipt.Err? {
        return Err(receipt.error);
      }
      assert before + script == before + [IntentStored(i)] + [AuthorizationStored(i.id, d)] + middle
                                + [ReceiptStored(i.id, receipt.value, at)];
      ok := Write(ReceiptStored(i.id, receipt.value, at));
      r := if ok then Ok(receipt.value) else Err(StorageFailed);
    }
  }

  // ----- every crash prefix

  /** What is recorded up to a call: the intent, the decision, the dispatch with its deadline, the call. */
  function DurableCall(i: Intent, d: Decision, a: Adapter, at: Time): seq<Event> {
    [IntentStored(i), AuthorizationStored(i.id, d), DispatchStored(i.id, at, at + Timeout(a) + 5), AdapterCalled(i.id)]
  }

  /** Wherever the script is cut off: if the adapter is called in what is left, everything before the call is too. */
  lemma CalledOnlyAfterDurable(i: Intent, d: Decision, a: Adapter, at: Time, reply: Option<ReceiptStatus>, n: nat)
    requires n <= |Script(i, d, a, at, reply)|
    requires AdapterCalled(i.id) in Script(i, d, a, at, reply)[..n]
    ensures Authorizes(d, i) && Dispatchable(a, i) && n >= 4
    ensures Script(i, d, a, at, reply)[..4] == DurableCall(i, d, a, at)
  {
  }

  /** Where the adapter is called, the stored decision allows it and names the workspace, actor, capability, operation
      and target of the intent, and its reference where the intent asks for one; and the dispatch expires five seconds
      after the adapter's own timeout, or after 300 seconds where it states none. */
  lemma CalledAsDecided(i: Intent, d: Decision, a: Adapter, at: Time, reply: Option<ReceiptStatus>, n: nat)
    requires n <= |Script(i, d, a, at, reply)|
    requires AdapterCalled(i.id) in Script(i, d, a, at, reply)[..n]
    ensures d.allowed && i.policyDecisionRef in {None, Some(d.decisionRef)}
    ensures (d.workspace, d.subject, d.capability, d.operation, d.scope)
         == (i.workspace, i.actor, i.capability, i.operation, i.target)
    ensures (a.name, a.deliverySemantics, a.idempotencyProfile, a.reversibility, a.requiredCapability)
         == (i.adapter, i.deliverySemantics, i.idempotencyProfile, i.reversibility, i.capability)
    ensures Script(i, d, a, at, reply)[2]
         == DispatchStored(i.id, at, at + 5 + match a.timeout case Some(t) => t case None => 300)
  {
    CalledOnlyAfterDurable(i, d, a, at, reply, n);
  }

  /** And it is called whenever they do, the adapter reconciles, and an effectively-once adapter has a key or a
      condition to be it by. */
  lemma CalledIfDecided(i: Intent, d: Decision, a: Adapter, at: Time, reply: Option<ReceiptStatus>)
    requires d.allowed && i.policyDecisionRef in {None, Some(d.decisionRef)}
    requires (d.workspace, d.subject, d.capability, d.operation, d.scope)
          == (i.workspace, i.actor, i.capability, i.operation, i.target)
    requires (a.name, a.deliverySemantics, a.idempotencyProfile, a.reversibility, a.requiredCapability)
          == (i.adapter, i.deliverySemantics, i.idempotencyProfile, i.reversibility, i.capability)
    ensures AdapterCalled(i.id) in Script(i, d, a, at, reply)
       <==> && a.supportsReconciliation
            && (a.deliverySemantics == "effectively_once" ==> a.idempotencyProfile in {"provider_key", "conditional"})
  {
    if Dispatchable(a, i) {
      assert Script(i, d, a, at, reply)[3] == AdapterCalled(i.id);
    }
  }

  // ----- finding what was lost

  /** The row an event leaves in the store, if any. */
  function StoredOne(s: Store, e: Event, owner: nat): Store {
    match e
    case IntentStored(_) => s
    case AuthorizationStored(effect, d) =>
      if d.allowed then s.(transitions := s.transitions + [Authorized(effect, d.decidedAt)]) else s
    case DispatchStored(effect, at, expires) =>
      s.(transitions := s.transitions + [Dispatching(effect, at, owner, Some(expires))])
    case AdapterCalled(_) => s
    case ReceiptStored(effect, status, at) =>
      s.(receipts := s.receipts + [Receipt(effect, status, at)],
         transitions := s.transitions + [ReceiptRecorded(effect, at)])
  }

  function Stored(s: Store, events: seq<Event>, owner: nat): Store {
    if events == [] then s else
      var n := |events| - 1;
      StoredOne(Stored(s, events[..n], owner), events[n], owner)
  }

  lemma StoredNext(s: Store, events: seq<Event>, e: Event, owner: nat)
    ensures Stored(s, events + [e], owner) == StoredOne(Stored(s, events, owner), e, owner)
  {
  }

  lemma CalledLeavesDispatch(s: Store, i: Intent, d: Decision, a: Adapter, at: Time, owner: nat)
    requires d.allowed
    ensures Stored(s, DurableCall(i, d, a, at), owner) == InFlight(s, i, d, a, at, owner)
  {
    var e0, e1, e2, e3 := IntentStored(i), AuthorizationStored(i.id, d), DispatchStored(i.id, at,
                                       Deadline(a, at)), AdapterCalled(i.id);
    StoredNext(s, [], e0, owner);
    StoredNext(s, [e0], e1, owner);
    StoredNext(s, [e0, e1], e2, owner);
    StoredNext(s, [e0, e1, e2], e3, owner);
    assert [] + [e0] == [e0] && [e0] + [e1] == [e0, e1] && [e0, e1] + [e2] == [e0, e1, e2];
    assert [e0, e1, e2] + [e3] == DurableCall(i, d, a, at);
  }

  /** A refused decision leaves nothing that recovery reads, a full run its receipt, which is the effect's last word. */
  lemma PerformedLeaves(s: Store, i: Intent, d: Decision, a: Adapter, at: Time, reply: Option<ReceiptStatus>,
                        owner: nat)
    ensures var after := Stored(s, Script(i, d, a, at, reply), owner);
            && (!d.allowed ==> after == s)
            && (AdapterCalled(i.id) in Script(i, d, a, at, reply) && reply.Some? ==>
                  && after.receipts == s.receipts + [Receipt(i.id, reply.value, at)]
                  && Latest(after.transitions, i.id) == Some(|s.transitions| + 2)
                  && after.transitions[|s.transitions| + 2] == ReceiptRecorded(i.id, at))
  {
    var script := Script(i, d, a, at, reply);
    if !d.allowed {
      StoredNext(s, [], IntentStored(i), owner);
      StoredNext(s, [IntentStored(i)], AuthorizationStored(i.id, d), owner);
      assert [] + [IntentStored(i)] == [IntentStored(i)];
      assert script == [IntentStored(i)] + [AuthorizationStored(i.id, d)];
    } else if AdapterCalled(i.id) in script && reply.Some? {
      CalledLeavesDispatch(s, i, d, a, at, owner);
      StoredNext(s, DurableCall(i, d, a, at), ReceiptStored(i.id, reply.value, at), owner);
      assert script == DurableCall(i, d, a, at) + [ReceiptStored(i.id, reply.value, at)];
    }
  }

  predicate PastDeadline(a: Adapter, at: Time, now: Time) {
    Deadline(a, at) < now
  }

  predicate OwnerGone(s: Store, owner: nat, now: Time) {
    && owner in s.presence
    && (s.presence[owner].stopped || s.presence[owner].lastReported < now - WORKER_PRESENCE_LAPSE_AFTER)
  }

  lemma FifthIsReceipt(i: Intent, d: Decision, a: Adapter, at: Time, reply: Option<ReceiptStatus>, n: nat)
    requires Authorizes(d, i) && Dispatchable(a, i) && 4 < n <= |Script(i, d, a, at, reply)|
    ensures exists e :: e in Script(i, d, a, at, reply)[..n] && e.ReceiptStored?
  {
    assert Script(i, d, a, at, reply)[..n][4].ReceiptStored?;
  }

  /** Rows about other effects only, in every table; presence may change in any way. */
  predicate AboutOthers(more: Happening, effect: nat) {
    && more.RowsAdded?
    && (forall k :: 0 <= k < |more.receipts| ==> more.receipts[k].effect != effect)
    && (forall k :: 0 <= k < |more.transitions| ==> more.transitions[k].effect != effect)
    && (forall k :: 0 <= k < |more.reconciliations| ==> more.reconciliations[k].effect != effect)
    && (forall k :: 0 <= k < |more.attempts| ==> more.attempts[k].effect != effect)
  }

  /** The effect has no receipt, answer or attempt yet. */
  predicate Unheard(s: Store, effect: nat) {
    && (forall k :: 0 <= k < |s.receipts| ==> s.receipts[k].effect != effect)
    && (forall k :: 0 <= k < |s.reconciliations| ==> s.reconciliations[k].effect != effect)
    && (forall k :: 0 <= k < |s.attempts| ==> s.attempts[k].effect != effect)
  }

  lemma UnheardIsReady(s: Store, effect: nat, now: Time)
    requires Unheard(s, effect)
    ensures Ready(s, effect, None, now)
  {
    OtherReconciliations([], s.reconciliations, effect, None);
    OtherAttempts([], s.attempts, effect);
  }

  /** The events of a run of `perform` that stopped after calling the adapter and before any receipt. */
  predicate StoppedInFlight(i: Intent, d: Decision, a: Adapter, at: Time, reply: Option<ReceiptStatus>, n: nat) {
    && n <= |Script(i, d, a, at, reply)|
    && AdapterCalled(i.id) in Script(i, d, a, at, reply)[..n]
    && forall e :: e in Script(i, d, a, at, reply)[..n] ==> !e.ReceiptStored?
  }

  /** What such a run leaves, and the candidate recovery should find in it. */
  function InFlight(s: Store, i: Intent, d: Decision, a: Adapter, at: Time, owner: nat): Store {
    s.(transitions := s.transitions + [Authorized(i.id, d.decidedAt)]
                      + [Dispatching(i.id, at, owner, Some(Deadline(a, at)))])
  }

  function LostCall(s: Store, i: Intent, at: Time): Candidate {
    Candidate(i.id, None, Some(NeedsAdoption(|s.transitions| + 1)), at)
  }

  lemma StoppedLeaves(s: Store, i: Intent, d: Decision, a: Adapter, at: Time, reply: Option<ReceiptStatus>, n: nat,
                      owner: nat)
    requires StoppedInFlight(i, d, a, at, reply, n)
    ensures Stored(s, Script(i, d, a, at, reply)[..n], owner) == InFlight(s, i, d, a, at, owner)
  {
    CalledOnlyAfterDurable(i, d, a, at, reply, n);
    if n > 4 {
      FifthIsReceipt(i, d, a, at, reply, n);
      assert false;
    }
    CalledLeavesDispatch(s, i, d, a, at, owner);
  }

  lemma InFlightIsLatest(s: Store, i: Intent, d: Decision, a: Adapter, at: Time, owner: nat, more: seq<Transition>)
    requires forall k :: 0 <= k < |more| ==> more[k].effect != i.id
    ensures var ts := InFlight(s, i, d, a, at, owner).transitions + more;
            && Latest(ts, i.id) == Some(|s.transitions| + 1)
            && ts[|s.transitions| + 1] == Dispatching(i.id, at, owner, Some(Deadline(a, at)))
  {
    var front := InFlight(s, i, d, a, at, owner).transitions;
    OthersKeepLatest(front, more, i.id);
    assert Latest(front, i.id) == Some(|s.transitions| + 1);
  }

  /** A run of `perform` that stopped after calling the adapter and before any receipt, whatever has since been written
      about other effects: recovery may ask about it, as a lost dispatch, exactly once its deadline has passed or its
      worker has stopped or fallen silent. */
  lemma LostDispatchIsFindable(
    s: Store, i: Intent, d: Decision, a: Adapter, at: Time, reply: Option<ReceiptStatus>, n: nat, owner: nat,
    more: Happening, now: Time)
    requires StoppedInFlight(i, d, a, at, reply, n) && Unheard(s, i.id) && AboutOthers(more, i.id)
    ensures var later := Happens(Stored(s, Script(i, d, a, at, reply)[..n], owner), more).0;
            Eligible(later, LostCall(s, i, at), now) <==> PastDeadline(a, at, now) || OwnerGone(later, owner, now)
  {
    StoppedLeaves(s, i, d, a, at, reply, n, owner);
    InFlightIsLatest(s, i, d, a, at, owner, more.transitions);
    UnheardIsReady(Happens(InFlight(s, i, d, a, at, owner), more).0, i.id, now);
  }

  /** The deadline waits for a call still inside its timeout exactly when the call began within the five-second margin
      of the time the dispatch was recorded under. */
  lemma DeadlineSparesLiveCall(a: Adapter, at: Time, began: Time)
    requires Timeout(a) >= 0
    ensures (forall now: Time :: began <= now <= began + Timeout(a) ==> !PastDeadline(a, at, now))
       <==> began <= at + DISPATCH_RECEIPT_COMMIT_MARGIN
  {
    assert PastDeadline(a, at, began + Timeout(a)) <==> began > at + DISPATCH_RECEIPT_COMMIT_MARGIN;
  }
}
