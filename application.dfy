/**
 * The application: the processing event (a unit of work whose event list
 * grows while it is dispatched), the recording loop with its policy, the
 * use cases, and the get-or-create and delete flows that drive them.
 */
module Application {
  import opened Wrappers
  import opened K8sNamespace
  import opened EventStore
  import opened Dispatch

  /**
   * The store as the use cases leave it: every stored history is versioned,
   * replays, and never ends in DELETED, because the policy turns DELETED into
   * K8S_DELETED within the same recording.
   */
  ghost predicate Consistent(store: Store) {
    && WellFormed(store)
    && forall id {:trigger Get(store, id)} :: id in store ==> Get(store, id).Success? && Get(store, id).value.status != Deleted
  }

  /** A namespace that is stored, AVAILABLE, and owned (among others) by `owner`. */
  ghost predicate Provisioned(store: Store, id: Id, owner: string) {
    Get(store, id).Success? && Get(store, id).value.status == Available && owner in Get(store, id).value.owners
  }

  /** The events one status change on `a` records. */
  function StatusChangeEvents(a: Namespace, status: Status): seq<Event> {
    if status == Deleted then
      [Event(a.id, a.version + 1, StatusChanged(Deleted)), Event(a.id, a.version + 2, StatusChanged(K8sDeleted))]
    else
      [Event(a.id, a.version + 1, StatusChanged(status))]
  }

  /** The status a recorded status change settles on. */
  function SettledStatus(status: Status): Status {
    if status == Deleted then K8sDeleted else status
  }

  /** The change to AVAILABLE the get-or-create flow records, unless `a` already is AVAILABLE. */
  function AvailableSteps(a: Namespace): seq<Event> {
    if a.status == Available then [] else StatusChangeEvents(a, Available)
  }

  /** The owners change the get-or-create flow records next, unless the required owner already is one. */
  function OwnerSteps(a: Namespace, requiredOwner: string): seq<Event> {
    if requiredOwner in a.owners then []
    else [Event(a.id, a.version + |AvailableSteps(a)| + 1, OwnersChanged(a.owners + [requiredOwner]))]
  }

  /** The namespace the get-or-create flow works on: the stored one, or the one it registers. */
  function ProvisionStart(store: Store, clusterId: string, namespace: string, creationTimestamp: Timestamp,
                          owners: seq<string>): Namespace {
    match Get(store, CreateId(clusterId, namespace))
    case Success(a) => a
    case Failure(_) => Register(clusterId, namespace, creationTimestamp, None, Some(owners)).state
  }

  /** The namespace's history once it is found or registered. */
  function ProvisionStartLog(store: Store, clusterId: string, namespace: string, creationTimestamp: Timestamp,
                             owners: seq<string>): seq<Event> {
    var id := CreateId(clusterId, namespace);
    if Get(store, id).Success? then Log(store, id)
    else [Register(clusterId, namespace, creationTimestamp, None, Some(owners)).event]
  }

  /** The namespace's whole history after the get-or-create flow. */
  function ProvisionedLog(store: Store, clusterId: string, namespace: string, creationTimestamp: Timestamp,
                          owners: seq<string>, requiredOwner: string): seq<Event> {
    var a := ProvisionStart(store, clusterId, namespace, creationTimestamp, owners);
    ProvisionStartLog(store, clusterId, namespace, creationTimestamp, owners) + AvailableSteps(a) + OwnerSteps(a, requiredOwner)
  }

  /** A found (or registered) namespace `a` after the get-or-create flow: AVAILABLE, owned by the required owner, one version per recorded event. */
  function Provisioning(a: Namespace, requiredOwner: string): Namespace {
    a.(status := Available,
       owners := if requiredOwner in a.owners then a.owners else a.owners + [requiredOwner],
       version := a.version + |AvailableSteps(a)| + |OwnerSteps(a, requiredOwner)|)
  }

  /** The namespace after the get-or-create flow. */
  function ProvisionedState(store: Store, clusterId: string, namespace: string, creationTimestamp: Timestamp,
                            owners: seq<string>, requiredOwner: string): Namespace {
    Provisioning(ProvisionStart(store, clusterId, namespace, creationTimestamp, owners), requiredOwner)
  }

  /** The owners step as it follows the status step: its event, and the state the two steps leave. */
  lemma OwnerStepAfterAvailable(a: Namespace, requiredOwner: string)
    ensures var b := a.(status := Available, version := a.version + |AvailableSteps(a)|);
      && OwnerSteps(a, requiredOwner) ==
         (if requiredOwner in b.owners then [] else [Event(b.id, b.version + 1, OwnersChanged(b.owners + [requiredOwner]))])
      && Provisioning(a, requiredOwner) ==
         (if requiredOwner in b.owners then b else b.(owners := b.owners + [requiredOwner], version := b.version + 1))
  {
  }

  /** Two appends to one history in a row are one append of both. */
  lemma AppendTwice(s1: Store, id: Id, x: seq<Event>, y: seq<Event>, s2: Store, s3: Store)
    requires s2 == s1[id := Log(s1, id) + x]
    requires s3 == s2[id := Log(s2, id) + y]
    ensures s3 == s1[id := Log(s1, id) + x + y]
  {
  }

  /** A unit of work: the new events of one recording and the aggregates that produced them. */
  class ProcessingEvent {
    var events: seq<Event>
    var aggregates: map<Id, Namespace>

    function Contents(): Batch
      reads this
    {
      Batch(events, aggregates)
    }

    ghost predicate Valid()
      reads this
    {
      Coherent(Contents())
    }

    constructor ()
      ensures Valid() && Contents() == Batch([], map[])
    {
      events := [];
      aggregates := map[];
    }

    /** `collect_events`: appends the aggregate's pending events at the tail and registers the aggregate. */
    method CollectEvents(a: Namespace, pending: seq<Event>)
      requires Valid()
      requires forall k :: 0 <= k < |pending| ==> pending[k].originatorId == a.id
      modifies this
      ensures Valid() && Contents() == Collect(old(Contents()), a, pending)
    {
      events := events + pending;
      aggregates := aggregates[a.id := a];
    }
  }

  /** The application over its event store. */
  class EvtSourcingApp {
    var store: Store

    ghost predicate Valid()
      reads this
    {
      Consistent(store)
    }

    constructor ()
      ensures Valid() && store == map[]
    {
      store := map[];
    }

    /** The policy, dispatched on the event's kind, with a no-op default. */
    method Policy(e: Event, pe: ProcessingEvent) returns (outcome: Outcome<Error>)
      requires WellFormed(store) && pe.Valid()
      modifies pe
      ensures pe.Valid()
      ensures var r := PolicyOutcome(e, old(pe.Contents()), store);
        if r.Success? then outcome == Pass && pe.Contents() == r.value
        else outcome == Fail(r.error) && pe.Contents() == old(pe.Contents())
    {
      var lookup := GetAggregateWithinPolicy(pe.Contents(), store, e.originatorId);
      if lookup.Failure? {
        return Fail(lookup.error);
      }
      var a := lookup.value;
      match e.kind {
        case StatusChanged(_) =>
          if a.status == Deleted {
            var m := SetStatus(a, K8sDeleted);
            pe.CollectEvents(m.state, [m.event]);
          }
        case _ =>
      }
      outcome := Pass;
    }

    /**
     * `_record`: walks the event list by index while the policy may grow it,
     * then appends the final list to the store atomically. The ghost
     * `dispatched` is the sequence of events handed to the policy, in order.
     */
    method Record(pe: ProcessingEvent) returns (outcome: Result<seq<Event>, Error>, ghost dispatched: seq<Event>)
      requires WellFormed(store) && pe.Valid()
      modifies this, pe
      ensures WellFormed(store) && pe.Valid()
      ensures pe.Contents() == Run(old(pe.Contents()), 0, old(store))
      ensures dispatched == pe.events
      ensures var c := Commit(old(store), pe.events);
        if c.Success? then store == c.value && outcome == Success(pe.events)
        else store == old(store) && outcome == Failure(c.error)
    {
      var i := 0;
      dispatched := [];
      while i < |pe.events|
        invariant pe.Valid() && i <= |pe.events|
        invariant Run(pe.Contents(), i, store) == Run(old(pe.Contents()), 0, store)
        invariant dispatched == pe.events[..i]
        invariant store == old(store)
        decreases |pe.events| - i + 2 * |DeletedIds(pe.aggregates)|
      {
        ghost var b := pe.Contents();
        var e := pe.events[i];
        RunStep(b, i, store);
        var handled := Policy(e, pe);
        assert handled == Pass;
        assert pe.Contents() == PolicyOutcome(e, b, store).value;
        dispatched := dispatched + [e];
        i := i + 1;
      }
      assert pe.events[..i] == pe.events;
      outcome := Append(pe.events);
    }

    /**
     * The library's own recording step: appends the whole list to the store
     * in one atomic transaction, or nothing at all.
     */
    method Append(events: seq<Event>) returns (outcome: Result<seq<Event>, Error>)
      requires WellFormed(store)
      modifies this
      ensures WellFormed(store)
      ensures var c := Commit(old(store), events);
        if c.Success? then store == c.value && outcome == Success(events)
        else store == old(store) && outcome == Failure(c.error)
    {
      var committed := Commit(store, events);
      if committed.Success? {
        store := committed.value;
        outcome := Success(events);
      } else {
        outcome := Failure(committed.error);
      }
    }

    /** `save`: a new processing event holding one aggregate's pending events, recorded. */
    method Save(a: Namespace, pending: seq<Event>) returns (outcome: Result<seq<Event>, Error>)
      requires WellFormed(store)
      requires forall k :: 0 <= k < |pending| ==> pending[k].originatorId == a.id
      modifies this
      ensures WellFormed(store)
      ensures var b := Run(Batch(pending, map[a.id := a]), 0, old(store));
        var c := Commit(old(store), b.events);
        if c.Success? then store == c.value && outcome == Success(b.events)
        else store == old(store) && outcome == Failure(c.error)
    {
      var pe := new ProcessingEvent();
      pe.CollectEvents(a, pending);
      assert pe.Contents() == Batch(pending, map[a.id := a]);
      ghost var dispatched;
      outcome, dispatched := Record(pe);
    }

    /** `register_k8s_namespace`: registers a new namespace under its derived id. */
    method RegisterNamespace(clusterId: string, namespace: string, creationTimestamp: Timestamp,
                             owners: Option<seq<string>>) returns (r: Result<Id, Error>)
      requires Valid()
      modifies this
      ensures Valid()
      ensures var id := CreateId(clusterId, namespace);
        var m := Register(clusterId, namespace, creationTimestamp, None,
                          Some(if owners.Some? then owners.value else []));
        if Log(old(store), id) == [] then
          && r == Success(id)
          && store == old(store)[id := [m.event]]
          && Get(store, id) == Success(m.state)
        else
          r == Failure(ConcurrencyConflict) && store == old(store)
    {
      var ownerList := if owners.Some? then owners.value else [];
      var m := Register(clusterId, namespace, creationTimestamp, None, Some(ownerList));
      var id := m.state.id;
      RegistrationRecordsOneEvent(m, store);
      if Log(store, id) == [] {
        CommitNextVersions(store, id, [m.event]);
        assert Log(store, id) + [m.event] == [m.event];
      }
      ghost var before := store;
      var recorded := Save(m.state, [m.event]);
      if recorded.Failure? {
        return Failure(recorded.error);
      }
      forall other | other in store
        ensures Get(store, other).Success? && Get(store, other).value.status != Deleted
      {
        if other != id {
          assert Log(store, other) == Log(before, other);
          assert Get(store, other) == Get(before, other);
        }
      }
      r := Success(id);
    }

    /** `set_k8s_namespace_status`: load, change the status, save. */
    method SetNamespaceStatus(id: Id, status: Status) returns (r: Outcome<Error>)
      requires Valid()
      modifies this
      ensures Valid()
      ensures Log(old(store), id) == [] ==> r == Fail(NotFound) && store == old(store)
      ensures Log(old(store), id) != [] ==>
        var a := Get(old(store), id).value;
        && r == Pass
        && store == old(store)[id := Log(old(store), id) + StatusChangeEvents(a, status)]
        && Get(store, id) == Success(a.(status := SettledStatus(status),
                                        version := a.version + |StatusChangeEvents(a, status)|))
    {
      var got := Get(store, id);
      if got.Failure? {
        return Fail(got.error);
      }
      var a := got.value;
      var m := SetStatus(a, status);
      StatusChangePropagation(a, status, store);
      ghost var before := store;
      ghost var events := StatusChangeEvents(a, status);
      CommitNextVersions(store, id, events);
      GetAfterAppend(store, id, events);
      var recorded := Save(m.state, [m.event]);
      assert store == before[id := Log(before, id) + events];
      forall other | other in store
        ensures Get(store, other).Success? && Get(store, other).value.status != Deleted
      {
        if other != id {
          assert Log(store, other) == Log(before, other);
          assert Get(store, other) == Get(before, other);
        }
      }
      r := Pass;
    }

    /** `set_k8s_namespace_owners`: load, change the owners, save. */
    method SetNamespaceOwners(id: Id, owners: seq<string>) returns (r: Outcome<Error>)
      requires Valid()
      modifies this
      ensures Valid()
      ensures Log(old(store), id) == [] ==> r == Fail(NotFound) && store == old(store)
      ensures Log(old(store), id) != [] ==>
        var a := Get(old(store), id).value;
        && r == Pass
        && store == old(store)[id := Log(old(store), id) + [Event(id, a.version + 1, OwnersChanged(owners))]]
        && Get(store, id) == Success(a.(owners := owners, version := a.version + 1))
    {
      var got := Get(store, id);
      if got.Failure? {
        return Fail(got.error);
      }
      var a := got.value;
      var m := SetOwners(a, owners);
      OwnersChangeRecordsOneEvent(a, owners, store);
      ghost var before := store;
      CommitNextVersions(store, id, [m.event]);
      GetAfterAppend(store, id, [m.event]);
      var recorded := Save(m.state, [m.event]);
      forall other | other in store
        ensures Get(store, other).Success? && Get(store, other).value.status != Deleted
      {
        if other != id {
          assert Log(store, other) == Log(before, other);
          assert Get(store, other) == Get(before, other);
        }
      }
      r := Pass;
    }

    /** `get_k8s_namespace_data`: the stored namespace as a dictionary, or NotFound. */
    method GetNamespaceData(id: Id) returns (r: Result<NamespaceData, Error>)
      requires Valid()
      ensures Log(store, id) == [] ==> r == Failure(NotFound)
      ensures Log(store, id) != [] ==> Get(store, id).Success? && r == Success(ToDict(Get(store, id).value))
    {
      var got := Get(store, id);
      if got.Failure? {
        return Failure(got.error);
      }
      r := Success(ToDict(got.value));
    }

    /**
     * The first half of the get-or-create flow: read the namespace, and
     * register it (then read it again) when it is not found.
     */
    method FindOrRegister(clusterId: string, namespace: string, creationTimestamp: Timestamp,
                          owners: seq<string>) returns (id: Id, data: NamespaceData)
      requires Valid()
      modifies this
      ensures Valid()
      ensures id == CreateId(clusterId, namespace)
      ensures var a := ProvisionStart(old(store), clusterId, namespace, creationTimestamp, owners);
        Get(store, id) == Success(a) && data == ToDict(a)
      ensures Get(old(store), id).Success? ==> store == old(store)
      ensures Get(old(store), id).Failure? ==>
        store == old(store)[id := [Register(clusterId, namespace, creationTimestamp, None, Some(owners)).event]]
    {
      id := CreateId(clusterId, namespace);
      var found := GetNamespaceData(id);
      if found.Success? {
        return id, found.value;
      }
      var registered := RegisterNamespace(clusterId, namespace, creationTimestamp, Some(owners));
      id := registered.value;
      found := GetNamespaceData(id);
      data := found.value;
    }

    /**
     * The get-or-create flow of the application's test, for one namespace:
     * register it when it is not found, make it AVAILABLE unless it already
     * is, and add the required owner unless it is already an owner. The
     * namespace's history gains exactly those events and nothing else changes.
     */
    method ProvisionNamespace(clusterId: string, namespace: string, creationTimestamp: Timestamp,
                              owners: seq<string>, requiredOwner: string) returns (id: Id)
      requires Valid()
      modifies this
      ensures Valid()
      ensures id == CreateId(clusterId, namespace)
      ensures store == old(store)[id := ProvisionedLog(old(store), clusterId, namespace, creationTimestamp, owners, requiredOwner)]
      ensures Get(store, id) == Success(ProvisionedState(old(store), clusterId, namespace, creationTimestamp, owners, requiredOwner))
      ensures Provisioned(store, id, requiredOwner)
      ensures Provisioned(old(store), id, requiredOwner) ==> store == old(store)
    {
      ghost var a := ProvisionStart(store, clusterId, namespace, creationTimestamp, owners);
      ghost var start := ProvisionStartLog(store, clusterId, namespace, creationTimestamp, owners);
      ghost var s0 := store;
      var data;
      id, data := FindOrRegister(clusterId, namespace, creationTimestamp, owners);
      assert store == s0[id := start];
      ghost var s1 := store;
      Settle(id, data, requiredOwner, a);
      assert Log(s1, id) == start;
      assert store == s0[id := start + AvailableSteps(a) + OwnerSteps(a, requiredOwner)];
      if Provisioned(s0, id, requiredOwner) {
        assert start + AvailableSteps(a) + OwnerSteps(a, requiredOwner) == s0[id];
      }
    }

    /** The two steps of the get-or-create flow after the namespace is found or registered. */
    method Settle(id: Id, data: NamespaceData, requiredOwner: string, ghost a: Namespace)
      requires Valid() && Get(store, id) == Success(a) && data == ToDict(a)
      modifies this
      ensures Valid()
      ensures store == old(store)[id := Log(old(store), id) + AvailableSteps(a) + OwnerSteps(a, requiredOwner)]
      ensures Get(store, id) == Success(Provisioning(a, requiredOwner))
    {
      ghost var s1 := store;
      MakeAvailable(id, data, a);
      ghost var b := a.(status := Available, version := a.version + |AvailableSteps(a)|);
      ghost var s2 := store;
      AddOwner(id, data.owners, requiredOwner, b);
      OwnerStepAfterAvailable(a, requiredOwner);
      AppendTwice(s1, id, AvailableSteps(a), OwnerSteps(a, requiredOwner), s2, store);
    }

    /** The status step of the get-or-create flow: set AVAILABLE unless the namespace already is. */
    method MakeAvailable(id: Id, data: NamespaceData, ghost a: Namespace)
      requires Valid() && Get(store, id) == Success(a) && data == ToDict(a)
      modifies this
      ensures Valid()
      ensures store == old(store)[id := Log(old(store), id) + AvailableSteps(a)]
      ensures Get(store, id) == Success(a.(status := Available, version := a.version + |AvailableSteps(a)|))
    {
      if data.status != Available {
        var changed := SetNamespaceStatus(id, Available);
      } else {
        assert Log(store, id) + [] == store[id];
      }
    }

    /** The owners step of the get-or-create flow: add the required owner unless it already is one. */
    method AddOwner(id: Id, current: seq<string>, requiredOwner: string, ghost b: Namespace)
      requires Valid() && Get(store, id) == Success(b) && current == b.owners
      modifies this
      ensures Valid()
      ensures var added := if requiredOwner in b.owners then [] else [Event(b.id, b.version + 1, OwnersChanged(b.owners + [requiredOwner]))];
        store == old(store)[id := Log(old(store), id) + added]
      ensures Get(store, id) == Success(
        if requiredOwner in b.owners then b else b.(owners := b.owners + [requiredOwner], version := b.version + 1))
    {
      if requiredOwner !in current {
        var changed := SetNamespaceOwners(id, current + [requiredOwner]);
      } else {
        assert Log(store, id) + [] == store[id];
      }
    }

    /**
     * The delete flow of the application's test: a namespace that is found
     * and is neither DELETED nor K8S_DELETED is set to DELETED, which the
     * policy settles to K8S_DELETED in the same recording.
     */
    method DeleteNamespace(clusterId: string, namespace: string)
      requires Valid()
      modifies this
      ensures Valid()
      ensures var id := CreateId(clusterId, namespace);
        Log(old(store), id) == [] ==> store == old(store)
      ensures var id := CreateId(clusterId, namespace);
        Log(old(store), id) != [] ==>
          var a := Get(old(store), id).value;
          && Get(store, id).Success?
          && Get(store, id).value.status == K8sDeleted
          && Get(store, id).value.owners == a.owners
          && (a.status == K8sDeleted ==> store == old(store))
          && (a.status != K8sDeleted ==>
                && store == old(store)[id := Log(old(store), id) + StatusChangeEvents(a, Deleted)]
                && Get(store, id) == Success(a.(status := K8sDeleted, version := a.version + 2)))
    {
      var id := CreateId(clusterId, namespace);
      var data := GetNamespaceData(id);
      if data.Success? && data.value.status != Deleted && data.value.status != K8sDeleted {
        var changed := SetNamespaceStatus(id, Deleted);
      }
    }

    /**
     * The provisioning loop of the application's test: the get-or-create flow
     * for every listed namespace, in order. Every listed namespace ends
     * provisioned and no other history changes; when the list names each
     * namespace once, each one ends exactly as the flow alone leaves it.
     */
    method ProvisionAll(clusterId: string, details: seq<NamespaceDetails>, requiredOwner: string)
      requires Valid()
      modifies this
      ensures Valid()
      ensures forall j :: 0 <= j < |details| ==>
        Provisioned(store, CreateId(clusterId, details[j].namespace), requiredOwner)
      ensures forall other :: other !in ListedIds(clusterId, details, |details|) ==> Log(store, other) == Log(old(store), other)
      ensures DistinctIds(clusterId, details) ==> forall j :: 0 <= j < |details| ==>
        ProvisionedEntry(old(store), store, clusterId, details[j], requiredOwner)
    {
      var i := 0;
      while i < |details|
        invariant Valid() && i <= |details|
        invariant forall j :: 0 <= j < i ==>
          Provisioned(store, CreateId(clusterId, details[j].namespace), requiredOwner)
        invariant forall other :: other !in ListedIds(clusterId, details, i) ==> Log(store, other) == Log(old(store), other)
        invariant DistinctIds(clusterId, details) ==> forall j :: 0 <= j < i ==>
          ProvisionedEntry(old(store), store, clusterId, details[j], requiredOwner)
      {
        var d := details[i];
        ghost var before := store;
        var id := ProvisionNamespace(clusterId, d.namespace, d.creationTimestamp, d.owners, requiredOwner);
        ProvisionedStaysProvisioned(before, store, clusterId, details, i, requiredOwner);
        ProvisioningKeepsUnlisted(old(store), before, store, clusterId, details, i, requiredOwner);
        if DistinctIds(clusterId, details) {
          ProvisioningKeepsEntries(old(store), before, store, clusterId, details, i, requiredOwner);
        }
        i := i + 1;
      }
    }
  }

  /** The ids of the first `n` entries of a namespace list. */
  function ListedIds(clusterId: string, details: seq<NamespaceDetails>, n: nat): set<Id>
    requires n <= |details|
  {
    set j | 0 <= j < n :: CreateId(clusterId, details[j].namespace)
  }

  /** No two entries of a namespace list have the same id. */
  ghost predicate DistinctIds(clusterId: string, details: seq<NamespaceDetails>) {
    forall j, k :: 0 <= j < k < |details| ==>
      CreateId(clusterId, details[j].namespace) != CreateId(clusterId, details[k].namespace)
  }

  /** In `after`, the entry's namespace has the history and state the get-or-create flow gives it from `before`. */
  ghost predicate ProvisionedEntry(before: Store, after: Store, clusterId: string, d: NamespaceDetails, requiredOwner: string) {
    var id := CreateId(clusterId, d.namespace);
    && Log(after, id) == ProvisionedLog(before, clusterId, d.namespace, d.creationTimestamp, d.owners, requiredOwner)
    && Get(after, id) == Success(ProvisionedState(before, clusterId, d.namespace, d.creationTimestamp, d.owners, requiredOwner))
  }

  /** One turn of the provisioning loop keeps the earlier entries provisioned and provisions the current one. */
  lemma ProvisionedStaysProvisioned(before: Store, after: Store, clusterId: string, details: seq<NamespaceDetails>,
                                    i: nat, requiredOwner: string)
    requires i < |details|
    requires var d := details[i];
      after == before[CreateId(clusterId, d.namespace) := ProvisionedLog(before, clusterId, d.namespace, d.creationTimestamp, d.owners, requiredOwner)]
    requires var d := details[i];
      Get(after, CreateId(clusterId, d.namespace)) == Success(ProvisionedState(before, clusterId, d.namespace, d.creationTimestamp, d.owners, requiredOwner))
    requires forall j :: 0 <= j < i ==> Provisioned(before, CreateId(clusterId, details[j].namespace), requiredOwner)
    ensures forall j :: 0 <= j < i + 1 ==> Provisioned(after, CreateId(clusterId, details[j].namespace), requiredOwner)
  {
    var id := CreateId(clusterId, details[i].namespace);
    forall j | 0 <= j < i + 1
      ensures Provisioned(after, CreateId(clusterId, details[j].namespace), requiredOwner)
    {
      var other := CreateId(clusterId, details[j].namespace);
      if other != id {
        ProvisionedOutsideTheUpdate(before, after, id, other, requiredOwner);
      }
    }
  }

  /** Changing one history keeps every other namespace provisioned. */
  lemma ProvisionedOutsideTheUpdate(before: Store, after: Store, id: Id, other: Id, owner: string)
    requires other != id && after == before[id := Log(after, id)]
    requires Provisioned(before, other, owner)
    ensures Provisioned(after, other, owner)
  {
    assert Log(after, other) == Log(before, other);
  }

  /** One turn of the provisioning loop changes no history outside the entries seen so far. */
  lemma ProvisioningKeepsUnlisted(start: Store, before: Store, after: Store, clusterId: string,
                                  details: seq<NamespaceDetails>, i: nat, requiredOwner: string)
    requires i < |details|
    requires var d := details[i];
      after == before[CreateId(clusterId, d.namespace) := ProvisionedLog(before, clusterId, d.namespace, d.creationTimestamp, d.owners, requiredOwner)]
    requires forall other :: other !in ListedIds(clusterId, details, i) ==> Log(before, other) == Log(start, other)
    ensures forall other :: other !in ListedIds(clusterId, details, i + 1) ==> Log(after, other) == Log(start, other)
  {
    forall other | other !in ListedIds(clusterId, details, i + 1)
      ensures Log(after, other) == Log(start, other)
    {
      assert other != CreateId(clusterId, details[i].namespace);
      assert other !in ListedIds(clusterId, details, i);
    }
  }

  /**
   * One turn of the provisioning loop over a list without repeated ids: the
   * earlier entries keep their results, and the current one gets the result
   * the flow gives it from the store the loop started with.
   */
  lemma ProvisioningKeepsEntries(start: Store, before: Store, after: Store, clusterId: string,
                                 details: seq<NamespaceDetails>, i: nat, requiredOwner: string)
    requires i < |details| && DistinctIds(clusterId, details)
    requires var d := details[i];
      after == before[CreateId(clusterId, d.namespace) := ProvisionedLog(before, clusterId, d.namespace, d.creationTimestamp, d.owners, requiredOwner)]
    requires var d := details[i];
      Get(after, CreateId(clusterId, d.namespace)) == Success(ProvisionedState(before, clusterId, d.namespace, d.creationTimestamp, d.owners, requiredOwner))
    requires forall other :: other !in ListedIds(clusterId, details, i) ==> Log(before, other) == Log(start, other)
    requires forall j :: 0 <= j < i ==> ProvisionedEntry(start, before, clusterId, details[j], requiredOwner)
    ensures forall j :: 0 <= j < i + 1 ==> ProvisionedEntry(start, after, clusterId, details[j], requiredOwner)
  {
    var id := CreateId(clusterId, details[i].namespace);
    assert id !in ListedIds(clusterId, details, i);
    ProvisioningReadsOnlyItsHistory(before, start, clusterId, details[i], requiredOwner);
    forall j | 0 <= j < i
      ensures ProvisionedEntry(start, after, clusterId, details[j], requiredOwner)
    {
      EntryOutsideTheUpdate(start, before, after, id, clusterId, details[j], requiredOwner);
    }
  }

  /** Changing one history keeps the result of an entry whose namespace has another id. */
  lemma EntryOutsideTheUpdate(start: Store, before: Store, after: Store, id: Id, clusterId: string,
                              d: NamespaceDetails, requiredOwner: string)
    requires CreateId(clusterId, d.namespace) != id && after == before[id := Log(after, id)]
    requires ProvisionedEntry(start, before, clusterId, d, requiredOwner)
    ensures ProvisionedEntry(start, after, clusterId, d, requiredOwner)
  {
    var other := CreateId(clusterId, d.namespace);
    assert Log(after, other) == Log(before, other);
    assert Get(after, other) == Get(before, other);
  }

  /** The get-or-create flow depends on the store only through the namespace's own history. */
  lemma ProvisioningReadsOnlyItsHistory(s1: Store, s2: Store, clusterId: string, d: NamespaceDetails, requiredOwner: string)
    requires Log(s1, CreateId(clusterId, d.namespace)) == Log(s2, CreateId(clusterId, d.namespace))
    ensures ProvisionedLog(s1, clusterId, d.namespace, d.creationTimestamp, d.owners, requiredOwner)
         == ProvisionedLog(s2, clusterId, d.namespace, d.creationTimestamp, d.owners, requiredOwner)
    ensures ProvisionedState(s1, clusterId, d.namespace, d.creationTimestamp, d.owners, requiredOwner)
         == ProvisionedState(s2, clusterId, d.namespace, d.creationTimestamp, d.owners, requiredOwner)
  {
    assert Get(s1, CreateId(clusterId, d.namespace)) == Get(s2, CreateId(clusterId, d.namespace));
  }

  /** One entry of the test's namespace list. */
  datatype NamespaceDetails = NamespaceDetails(namespace: string, creationTimestamp: Timestamp, owners: seq<string>)

  /** The two namespaces of the application's test have different ids. */
  lemma TestNamespaceIdsDiffer()
    ensures CreateId("1", "kube-system") != CreateId("1", "albert1")
  {
    assert |IdName("1", "kube-system")| != |IdName("1", "albert1")|;
  }

  /** The test's list of namespaces on cluster "1", with their creation times in seconds since the epoch (UTC). */
  function TestNamespaces(): seq<NamespaceDetails> {
    [NamespaceDetails("kube-system", Timestamp(1621998495), []),
     NamespaceDetails("albert1", Timestamp(1640759861), ["albert"])]
  }

  /** The test's list names its two namespaces and nothing else. */
  lemma TestListedIds()
    ensures ListedIds("1", TestNamespaces(), 2) == {CreateId("1", "kube-system"), CreateId("1", "albert1")}
  {
    var ids := ListedIds("1", TestNamespaces(), 2);
    assert CreateId("1", "kube-system") in ids by { assert TestNamespaces()[0].namespace == "kube-system"; }
    assert CreateId("1", "albert1") in ids by { assert TestNamespaces()[1].namespace == "albert1"; }
  }

  /** A store the provisioning loop left from an empty one, after the test's list: the two namespaces and nothing else. */
  lemma TestProvisionedStore(store: Store)
    requires forall other :: other !in ListedIds("1", TestNamespaces(), 2) ==> Log(store, other) == Log(map[], other)
    requires forall j :: 0 <= j < 2 ==> ProvisionedEntry(map[], store, "1", TestNamespaces()[j], "limenglong")
    ensures Get(store, CreateId("1", "kube-system")) ==
      Success(Namespace(CreateId("1", "kube-system"), 3, "1", "kube-system", Timestamp(1621998495), Available, ["limenglong"]))
    ensures Get(store, CreateId("1", "albert1")) ==
      Success(Namespace(CreateId("1", "albert1"), 3, "1", "albert1", Timestamp(1640759861), Available, ["albert", "limenglong"]))
    ensures forall other :: other != CreateId("1", "kube-system") && other != CreateId("1", "albert1") ==>
      Log(store, other) == []
  {
    assert ProvisionedEntry(map[], store, "1", TestNamespaces()[0], "limenglong");
    assert ProvisionedEntry(map[], store, "1", TestNamespaces()[1], "limenglong");
    TestProvisionedStates();
    TestListedIds();
  }

  /** What the get-or-create flow makes of the test's two namespaces in an empty store. */
  lemma TestProvisionedStates()
    ensures ProvisionedState(map[], "1", "kube-system", Timestamp(1621998495), [], "limenglong")
         == Namespace(CreateId("1", "kube-system"), 3, "1", "kube-system", Timestamp(1621998495), Available, ["limenglong"])
    ensures ProvisionedState(map[], "1", "albert1", Timestamp(1640759861), ["albert"], "limenglong")
         == Namespace(CreateId("1", "albert1"), 3, "1", "albert1", Timestamp(1640759861), Available, ["albert", "limenglong"])
  {
    assert Get(map[], CreateId("1", "kube-system")).Failure?;
    assert Get(map[], CreateId("1", "albert1")).Failure?;
    assert "limenglong" !in ["albert"];
  }

  /**
   * The provisioning half of the application's test, from an empty store:
   * "kube-system" and "albert1" on cluster "1" each end AVAILABLE at version 3
   * (registered, made AVAILABLE, given the owner "limenglong"), and nothing
   * else is stored.
   */
  method ProvisionTestNamespaces() returns (app: EvtSourcingApp)
    ensures fresh(app) && app.Valid()
    ensures Get(app.store, CreateId("1", "kube-system")) ==
      Success(Namespace(CreateId("1", "kube-system"), 3, "1", "kube-system", Timestamp(1621998495), Available, ["limenglong"]))
    ensures Get(app.store, CreateId("1", "albert1")) ==
      Success(Namespace(CreateId("1", "albert1"), 3, "1", "albert1", Timestamp(1640759861), Available, ["albert", "limenglong"]))
    ensures forall other :: other != CreateId("1", "kube-system") && other != CreateId("1", "albert1") ==>
      Log(app.store, other) == []
  {
    app := new EvtSourcingApp();
    var details := TestNamespaces();
    TestNamespaceIdsDiffer();
    assert DistinctIds("1", details);
    app.ProvisionAll("1", details, "limenglong");
    TestProvisionedStore(app.store);
  }

  /**
   * The application's test from an empty store: provision "kube-system" and
   * "albert1" on cluster "1" with the required owner "limenglong", then
   * delete "albert1". The policy leaves "albert1" K8S_DELETED at version 5;
   * "kube-system" is untouched.
   */
  method RecursionAppScenario() returns (app: EvtSourcingApp)
    ensures app.Valid()
    ensures Get(app.store, CreateId("1", "kube-system")) ==
      Success(Namespace(CreateId("1", "kube-system"), 3, "1", "kube-system", Timestamp(1621998495), Available, ["limenglong"]))
    ensures Get(app.store, CreateId("1", "albert1")) ==
      Success(Namespace(CreateId("1", "albert1"), 5, "1", "albert1", Timestamp(1640759861), K8sDeleted, ["albert", "limenglong"]))
  {
    app := ProvisionTestNamespaces();
    ghost var provisioned := app.store;
    app.DeleteNamespace("1", "albert1");
    TestNamespaceIdsDiffer();
    assert Log(app.store, CreateId("1", "kube-system")) == Log(provisioned, CreateId("1", "kube-system"));
    assert Get(app.store, CreateId("1", "kube-system")) == Get(provisioned, CreateId("1", "kube-system"));
  }
}
