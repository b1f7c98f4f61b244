/**
 * Policy dispatch inside one recording, stated on values. A Batch is the
 * contents of a processing event: the list of new events and the
 * in-transaction aggregates keyed by id. PolicyOutcome is what the policy
 * does to a Batch for one event, and Run is the whole dispatch pass: the
 * fixpoint the recording loop reaches.
 */
module Dispatch {
  import opened Wrappers
  import opened K8sNamespace
  import opened EventStore

  /** The contents of a processing event. */
  datatype Batch = Batch(events: seq<Event>, aggregates: map<Id, Namespace>)

  /** Every in-transaction aggregate is stored under its own id. */
  ghost predicate Keyed(aggregates: map<Id, Namespace>) {
    forall id :: id in aggregates ==> aggregates[id].id == id
  }

  /**
   * The processing event's invariant: aggregates are keyed by their id and
   * every event in the list has its aggregate in the mapping.
   */
  ghost predicate Coherent(b: Batch) {
    && Keyed(b.aggregates)
    && forall k :: 0 <= k < |b.events| ==> b.events[k].originatorId in b.aggregates
  }

  /** The in-transaction aggregates whose status is DELETED. */
  function DeletedIds(aggregates: map<Id, Namespace>): set<Id> {
    set id | id in aggregates && aggregates[id].status == Deleted
  }

  /** `collect_events`: appends the aggregate's pending events and registers the aggregate. */
  function Collect(b: Batch, a: Namespace, pending: seq<Event>): (r: Batch)
    ensures Coherent(b) && (forall k :: 0 <= k < |pending| ==> pending[k].originatorId == a.id) ==>
      Coherent(r)
  {
    var r := Batch(b.events + pending, b.aggregates[a.id := a]);
    assert forall k :: |b.events| <= k < |r.events| ==> r.events[k] == pending[k - |b.events|];
    r
  }

  /**
   * `_get_aggregate_within_policy`: the in-transaction instance when the id
   * is in the mapping, and only otherwise the repository's replay.
   */
  function GetAggregateWithinPolicy(b: Batch, store: Store, id: Id): (r: Result<Namespace, Error>)
    ensures id in b.aggregates ==> r == Success(b.aggregates[id])
    ensures id !in b.aggregates ==> r == Get(store, id)
    ensures r.Success? && Keyed(b.aggregates) && WellFormed(store) ==> r.value.id == id
  {
    if id in b.aggregates then Success(b.aggregates[id]) else Get(store, id)
  }

  /**
   * The application's policy for one event. Both branches first look the
   * aggregate up (a failed lookup aborts the recording). A StatusChanged
   * event whose aggregate is currently DELETED moves that aggregate to
   * K8S_DELETED and collects the new event; every other case is a no-op.
   */
  function PolicyOutcome(e: Event, b: Batch, store: Store): (r: Result<Batch, Error>)
    ensures e.originatorId in b.aggregates ==> r.Success?
    ensures r.Success? ==> |b.events| <= |r.value.events| <= |b.events| + 1
    ensures r.Success? ==> r.value.events[..|b.events|] == b.events
    ensures r.Success? && Coherent(b) && WellFormed(store) ==> Coherent(r.value)
  {
    var a :- GetAggregateWithinPolicy(b, store, e.originatorId);
    match e.kind
    case StatusChanged(_) =>
      if a.status == Deleted then
        var m := SetStatus(a, K8sDeleted);
        Success(Collect(b, m.state, [m.event]))
      else Success(b)
    case _ => Success(b)
  }

  /** The StatusChanged policy reacts to a DELETED aggregate with exactly one event, leaving it K8S_DELETED. */
  lemma StatusPolicyReactsToDeleted(e: Event, b: Batch, store: Store)
    requires e.kind.StatusChanged? && e.originatorId in b.aggregates
    requires b.aggregates[e.originatorId].status == Deleted
    ensures var a := b.aggregates[e.originatorId];
      PolicyOutcome(e, b, store) == Success(Batch(
        b.events + [Event(a.id, a.version + 1, StatusChanged(K8sDeleted))],
        b.aggregates[a.id := a.(status := K8sDeleted, version := a.version + 1)]))
  {
  }

  /** For any other current status the StatusChanged policy changes nothing. */
  lemma StatusPolicyIgnoresOtherStatuses(e: Event, b: Batch, store: Store)
    requires e.kind.StatusChanged?
    requires GetAggregateWithinPolicy(b, store, e.originatorId).Success?
    requires GetAggregateWithinPolicy(b, store, e.originatorId).value.status != Deleted
    ensures PolicyOutcome(e, b, store) == Success(b)
  {
  }

  /** The default policy (every event that is not StatusChanged) changes nothing. */
  lemma DefaultPolicyIsNoop(e: Event, b: Batch, store: Store)
    requires !e.kind.StatusChanged?
    requires GetAggregateWithinPolicy(b, store, e.originatorId).Success?
    ensures PolicyOutcome(e, b, store) == Success(b)
  {
  }

  /** One in-transaction aggregate may only settle: stay as it is, or go from DELETED to K8S_DELETED. */
  ghost predicate Settles(before: Namespace, after: Namespace) {
    || after == before
    || (before.status == Deleted && after == before.(status := K8sDeleted, version := before.version + 1))
  }

  /**
   * One policy step on a coherent batch, for an event whose aggregate is in
   * the mapping: the ids stay the same, every aggregate settles, the event's
   * aggregate is no longer DELETED after a StatusChanged event, and the sum
   * of the list's length and the number of DELETED aggregates is unchanged
   * while that number never grows.
   */
  lemma PolicyStep(e: Event, b: Batch, store: Store)
    requires Coherent(b) && e.originatorId in b.aggregates
    ensures var r := PolicyOutcome(e, b, store).value;
      && Coherent(r)
      && r.aggregates.Keys == b.aggregates.Keys
      && (forall id :: id in b.aggregates ==> Settles(b.aggregates[id], r.aggregates[id]))
      && (e.kind.StatusChanged? ==> r.aggregates[e.originatorId].status != Deleted)
      && |r.events| + |DeletedIds(r.aggregates)| == |b.events| + |DeletedIds(b.aggregates)|
      && |DeletedIds(r.aggregates)| <= |DeletedIds(b.aggregates)|
  {
    var id := e.originatorId;
    var a := b.aggregates[id];
    if e.kind.StatusChanged? && a.status == Deleted {
      var r := PolicyOutcome(e, b, store).value;
      assert r.aggregates == b.aggregates[id := a.(status := K8sDeleted, version := a.version + 1)];
      assert DeletedIds(r.aggregates) == DeletedIds(b.aggregates) - {id};
      assert id in DeletedIds(b.aggregates);
    }
  }

  /**
   * The dispatch pass from cursor i: the policy runs on the event at the
   * cursor, the cursor advances, and the pass goes on over the list as the
   * policy has grown it, until the cursor reaches its end. It terminates
   * because each turn either leaves the list as it is or appends one event
   * while one DELETED aggregate stops being DELETED.
   */
  function Run(b: Batch, i: nat, store: Store): (r: Batch)
    requires i <= |b.events| && Coherent(b)
    decreases |b.events| - i + 2 * |DeletedIds(b.aggregates)|
    ensures |b.events| <= |r.events|
  {
    if i == |b.events| then b
    else
      var e := b.events[i];
      PolicyStep(e, b, store);
      Run(PolicyOutcome(e, b, store).value, i + 1, store)
  }

  /**
   * A dispatch pass keeps the batch coherent over the same ids, and its list
   * only grows at the tail, by at most one event per DELETED aggregate.
   */
  lemma {:induction false} RunGrowsAtTail(b: Batch, i: nat, store: Store)
    requires i <= |b.events| && Coherent(b)
    decreases |b.events| - i + 2 * |DeletedIds(b.aggregates)|
    ensures var r := Run(b, i, store);
      && Coherent(r) && r.aggregates.Keys == b.aggregates.Keys
      && |r.events| <= |b.events| + |DeletedIds(b.aggregates)|
      && r.events[..|b.events|] == b.events
  {
    if i < |b.events| {
      var e := b.events[i];
      PolicyStep(e, b, store);
      var next := PolicyOutcome(e, b, store).value;
      RunGrowsAtTail(next, i + 1, store);
      assert Run(b, i, store) == Run(next, i + 1, store);
      assert Run(b, i, store).events[..|b.events|] == Run(next, i + 1, store).events[..|next.events|][..|b.events|];
    }
  }

  /** In a dispatch pass every aggregate only settles: it stays as it is or goes from DELETED to K8S_DELETED. */
  lemma {:induction false} RunSettles(b: Batch, i: nat, store: Store)
    requires i <= |b.events| && Coherent(b)
    decreases |b.events| - i + 2 * |DeletedIds(b.aggregates)|
    ensures forall id :: id in b.aggregates ==>
      id in Run(b, i, store).aggregates && Settles(b.aggregates[id], Run(b, i, store).aggregates[id])
  {
    if i < |b.events| {
      var e := b.events[i];
      PolicyStep(e, b, store);
      var next := PolicyOutcome(e, b, store).value;
      RunSettles(next, i + 1, store);
      assert Run(b, i, store) == Run(next, i + 1, store);
    }
  }

  /** An event already in the list when a pass starts is still at its index when it ends. */
  lemma RunKeepsEvent(b: Batch, i: nat, store: Store, k: nat)
    requires i <= |b.events| && Coherent(b) && k < |b.events|
    ensures k < |Run(b, i, store).events| && Run(b, i, store).events[k] == b.events[k]
  {
    RunGrowsAtTail(b, i, store);
    assert Run(b, i, store).events[..|b.events|][k] == b.events[k];
  }

  /**
   * A dispatch pass reaches a fixpoint of the policy: afterwards no
   * StatusChanged event from the cursor on leaves its aggregate DELETED.
   */
  lemma {:induction false} RunReachesFixpoint(b: Batch, i: nat, store: Store)
    requires i <= |b.events| && Coherent(b)
    decreases |b.events| - i + 2 * |DeletedIds(b.aggregates)|
    ensures var r := Run(b, i, store);
      forall k :: i <= k < |r.events| && r.events[k].kind.StatusChanged? ==>
        r.events[k].originatorId in r.aggregates && r.aggregates[r.events[k].originatorId].status != Deleted
  {
    if i < |b.events| {
      var e := b.events[i];
      PolicyStep(e, b, store);
      var next := PolicyOutcome(e, b, store).value;
      RunReachesFixpoint(next, i + 1, store);
      RunKeepsEvent(next, i + 1, store, i);
      assert Run(b, i, store) == Run(next, i + 1, store);
      if e.kind.StatusChanged? {
        RunSettlesCursorEvent(b, i, store);
      }
    }
  }

  /** The StatusChanged event at the cursor leaves its aggregate other than DELETED at the end of the pass. */
  lemma RunSettlesCursorEvent(b: Batch, i: nat, store: Store)
    requires i < |b.events| && Coherent(b) && b.events[i].kind.StatusChanged?
    ensures var r := Run(b, i, store);
      && i < |r.events| && r.events[i].originatorId in r.aggregates
      && r.aggregates[r.events[i].originatorId].status != Deleted
  {
    var e := b.events[i];
    PolicyStep(e, b, store);
    var next := PolicyOutcome(e, b, store).value;
    RunKeepsEvent(next, i + 1, store, i);
    RunSettles(next, i + 1, store);
    var r := Run(next, i + 1, store);
    assert Run(b, i, store) == r;
    assert Settles(next.aggregates[e.originatorId], r.aggregates[e.originatorId]);
  }

  /** One turn of the recording loop: the policy on the event at the cursor, then the rest of the pass. */
  lemma RunStep(b: Batch, i: nat, store: Store)
    requires i < |b.events| && Coherent(b)
    ensures PolicyOutcome(b.events[i], b, store).Success?
    ensures var next := PolicyOutcome(b.events[i], b, store).value;
      && Coherent(next)
      && next.events[..i + 1] == b.events[..i] + [b.events[i]]
      && |next.events| - (i + 1) + 2 * |DeletedIds(next.aggregates)| < |b.events| - i + 2 * |DeletedIds(b.aggregates)|
      && Run(b, i, store) == Run(next, i + 1, store)
  {
    PolicyStep(b.events[i], b, store);
    var next := PolicyOutcome(b.events[i], b, store).value;
    assert next.events[..i + 1] == next.events[..|b.events|][..i + 1];
  }

  /** A pass over events none of which can make the policy react changes nothing. */
  lemma {:induction false} RunQuiescent(b: Batch, i: nat, store: Store)
    requires i <= |b.events| && Coherent(b)
    requires forall k :: i <= k < |b.events| && b.events[k].kind.StatusChanged? ==>
      b.aggregates[b.events[k].originatorId].status != Deleted
    ensures Run(b, i, store) == b
    decreases |b.events| - i
  {
    if i < |b.events| {
      var e := b.events[i];
      assert PolicyOutcome(e, b, store) == Success(b);
      RunQuiescent(b, i + 1, store);
    }
  }

  /**
   * A recording that starts from one status change on one aggregate: the
   * change to DELETED ends with exactly two events, DELETED then
   * K8S_DELETED, and the aggregate K8S_DELETED; any other change ends with
   * its own single event.
   */
  lemma StatusChangePropagation(a: Namespace, status: Status, store: Store)
    ensures var m := SetStatus(a, status);
      var b := Batch([m.event], map[a.id := m.state]);
      Coherent(b) &&
      Run(b, 0, store) ==
        if status == Deleted then
          var a2 := m.state.(status := K8sDeleted, version := m.state.version + 1);
          Batch([m.event, Event(a.id, a.version + 2, StatusChanged(K8sDeleted))], map[a.id := a2])
        else b
  {
    var m := SetStatus(a, status);
    var b := Batch([m.event], map[a.id := m.state]);
    if status == Deleted {
      StatusPolicyReactsToDeleted(m.event, b, store);
      var next := PolicyOutcome(m.event, b, store).value;
      RunQuiescent(next, 1, store);
    } else {
      RunQuiescent(b, 0, store);
    }
  }

  /** A recording that starts from one owners change runs no reaction. */
  lemma OwnersChangeRecordsOneEvent(a: Namespace, owners: seq<string>, store: Store)
    ensures var m := SetOwners(a, owners);
      var b := Batch([m.event], map[a.id := m.state]);
      Coherent(b) && Run(b, 0, store) == b
  {
    var m := SetOwners(a, owners);
    RunQuiescent(Batch([m.event], map[a.id := m.state]), 0, store);
  }

  /** A recording that starts from one registration runs only the default policy, which changes nothing. */
  lemma RegistrationRecordsOneEvent(m: Mutation, store: Store)
    requires m.event.kind.Registered? && m.event.originatorId == m.state.id
    ensures var b := Batch([m.event], map[m.state.id := m.state]);
      Coherent(b) && Run(b, 0, store) == b
  {
    RunQuiescent(Batch([m.event], map[m.state.id := m.state]), 0, store);
  }
}
