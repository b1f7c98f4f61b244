/**
 * The K8sNamespace aggregate: its state, its three event kinds, the pure
 * transition function Apply, and replay as a left fold of Apply over a
 * history. The mutators (Register, SetStatus, SetOwners) work as the
 * event-sourcing library's `@event` decorator does: they build exactly one
 * event and obtain the new state by applying that event to the old state.
 */
module K8sNamespace {
  import opened Wrappers

  /** Lifecycle status of a namespace: a closed enumeration. */
  datatype Status = Na | Available | WillExpire | Expired | Deleted | K8sDeleted

  /**
   * Aggregate identifier. The source derives it with uuid5 over the URL
   * namespace; the model keeps the name that is hashed, so equal names give
   * equal identifiers and nothing else about the hash is assumed.
   */
  datatype Id = Uuid5(name: string)

  /** A creation timestamp in whole seconds since the Unix epoch (UTC); carried along unchanged and never inspected. */
  datatype Timestamp = Timestamp(ticks: int)

  /** The state of one namespace aggregate, with the library's version counter. */
  datatype Namespace = Namespace(
    id: Id,
    version: nat,
    clusterId: string,
    namespace: string,
    creationTimestamp: Timestamp,
    status: Status,
    owners: seq<string>)

  /** The payload of a domain event: one creating kind and two mutating kinds. */
  datatype EventKind =
    | Registered(clusterId: string, namespace: string, creationTimestamp: Timestamp,
                 initialStatus: Status, initialOwners: seq<string>)
    | StatusChanged(newStatus: Status)
    | OwnersChanged(newOwners: seq<string>)

  /** A domain event, identified by its originator and the version it produces. */
  datatype Event = Event(originatorId: Id, originatorVersion: nat, kind: EventKind)

  /** Every error the modelled system can report. */
  datatype Error =
    | NotFound                   // AggregateNotFound: no events for the id
    | NotCreated                 // a history whose first event is not a creating event
    | AlreadyCreated             // a creating event applied to an existing aggregate
    | OriginatorIdMismatch       // an event applied to another aggregate
    | OriginatorVersionMismatch  // an event that is not the next version
    | ConcurrencyConflict        // the store already holds a different next version

  /** The result of one decorated mutator: the new state and the one event it records. */
  datatype Mutation = Mutation(state: Namespace, event: Event)

  /** What `to_dict` returns. */
  datatype NamespaceData = NamespaceData(
    clusterId: string,
    namespace: string,
    creationTimestamp: Timestamp,
    status: Status,
    owners: seq<string>)

  /** The name that `create_id` hashes. */
  function IdName(clusterId: string, namespace: string): string {
    "/k8s_namespace/" + clusterId + "/" + namespace
  }

  /**
   * `create_id`: a deterministic function of the cluster id and the
   * namespace, whose hashed name spells out both of them.
   */
  function CreateId(clusterId: string, namespace: string): (r: Id)
    ensures |r.name| == 16 + |clusterId| + |namespace|
    ensures r.name[15..15 + |clusterId|] == clusterId && r.name[15 + |clusterId|] == '/'
    ensures r.name[16 + |clusterId|..] == namespace
  {
    IdNameLayout(clusterId, namespace);
    Uuid5(IdName(clusterId, namespace))
  }

  /** Position facts about IdName used by IdNameInjective. */
  lemma IdNameLayout(c: string, n: string)
    ensures |IdName(c, n)| == 16 + |c| + |n|
    ensures IdName(c, n)[15 + |c|] == '/'
    ensures IdName(c, n)[15..15 + |c|] == c
    ensures IdName(c, n)[16 + |c|..] == n
    ensures forall k :: 0 <= k < |c| ==> IdName(c, n)[15 + k] == c[k]
  {
  }

  /**
   * Distinct (cluster id, namespace) pairs give distinct names when the
   * cluster id contains no '/', so registrations of different namespaces
   * never resolve to the same name.
   */
  lemma IdNameInjective(c1: string, n1: string, c2: string, n2: string)
    requires forall k :: 0 <= k < |c1| ==> c1[k] != '/'
    requires forall k :: 0 <= k < |c2| ==> c2[k] != '/'
    requires IdName(c1, n1) == IdName(c2, n2)
    ensures c1 == c2 && n1 == n2
  {
    IdNameLayout(c1, n1);
    IdNameLayout(c2, n2);
    if |c1| < |c2| {
      assert false;
    }
    if |c2| < |c1| {
      assert false;
    }
  }

  /** The state a creating event produces; only Registered creates. */
  function Create(e: Event): Result<Namespace, Error> {
    match e.kind
    case Registered(c, n, t, s, o) => Success(Namespace(e.originatorId, e.originatorVersion, c, n, t, s, o))
    case _ => Failure(NotCreated)
  }

  /**
   * Applies one mutating event to a state: the event must belong to the
   * aggregate and carry the next version; it changes exactly one field.
   */
  function Apply(s: Namespace, e: Event): (r: Result<Namespace, Error>)
    ensures r.Success? <==> e.originatorId == s.id && e.originatorVersion == s.version + 1 && !e.kind.Registered?
    ensures r.Success? ==>
      && r.value.id == s.id && r.value.version == s.version + 1
      && r.value.clusterId == s.clusterId && r.value.namespace == s.namespace
      && r.value.creationTimestamp == s.creationTimestamp
    ensures r.Success? && e.kind.StatusChanged? ==> r.value.status == e.kind.newStatus && r.value.owners == s.owners
    ensures r.Success? && e.kind.OwnersChanged? ==> r.value.owners == e.kind.newOwners && r.value.status == s.status
  {
    if e.originatorId != s.id then Failure(OriginatorIdMismatch)
    else if e.originatorVersion != s.version + 1 then Failure(OriginatorVersionMismatch)
    else match e.kind
      case Registered(_, _, _, _, _) => Failure(AlreadyCreated)
      case StatusChanged(st) => Success(s.(status := st, version := e.originatorVersion))
      case OwnersChanged(o) => Success(s.(owners := o, version := e.originatorVersion))
  }

  /** The events form a valid continuation of s: same aggregate, consecutive versions, no re-creation. */
  ghost predicate Continues(s: Namespace, events: seq<Event>) {
    forall k :: 0 <= k < |events| ==>
      && events[k].originatorId == s.id
      && events[k].originatorVersion == s.version + k + 1
      && !events[k].kind.Registered?
  }

  /** Left fold of Apply over the events, starting from s. */
  function ReplayFrom(s: Namespace, events: seq<Event>): (r: Result<Namespace, Error>)
    decreases |events|
    ensures r.Success? <==> Continues(s, events)
    ensures r.Success? ==> r.value.id == s.id && r.value.version == s.version + |events|
    ensures r.Success? ==>
      && r.value.clusterId == s.clusterId
      && r.value.namespace == s.namespace
      && r.value.creationTimestamp == s.creationTimestamp
  {
    if events == [] then Success(s)
    else match Apply(s, events[0])
      case Failure(err) => Failure(err)
      case Success(next) =>
        assert Continues(s, events) <==> Continues(next, events[1..]) by {
          if Continues(next, events[1..]) {
            forall k | 0 < k < |events|
              ensures events[k].originatorId == s.id && events[k].originatorVersion == s.version + k + 1
              ensures !events[k].kind.Registered?
            {
              assert events[k] == events[1..][k - 1];
            }
          }
        }
        ReplayFrom(next, events[1..])
  }

  /** Reconstructs an aggregate from its whole history (the repository's replay). */
  function Replay(events: seq<Event>): (r: Result<Namespace, Error>)
    ensures events == [] ==> r == Failure(NotFound)
    ensures r.Success? <==>
      events != [] && events[0].kind.Registered? && Continues(Create(events[0]).value, events[1..])
    ensures r.Success? ==>
      && r.value.id == events[0].originatorId
      && r.value.version == events[0].originatorVersion + |events| - 1
  {
    if events == [] then Failure(NotFound)
    else
      var s :- Create(events[0]);
      ReplayFrom(s, events[1..])
  }

  /** Replaying a + b is replaying a, then continuing with b from that state. */
  lemma {:induction false} ReplayFromAppend(s: Namespace, a: seq<Event>, b: seq<Event>)
    decreases |a|
    ensures ReplayFrom(s, a + b) ==
      match ReplayFrom(s, a)
      case Failure(err) => Failure(err)
      case Success(t) => ReplayFrom(t, b)
  {
    if a != [] {
      assert (a + b)[0] == a[0];
      assert (a + b)[1..] == a[1..] + b;
      match Apply(s, a[0])
      case Failure(_) =>
      case Success(next) => ReplayFromAppend(next, a[1..], b);
    } else {
      assert a + b == b;
    }
  }

  /**
   * Replay from a snapshot: the state after the first v events, replayed
   * onward with the rest, equals the full replay. This is what makes
   * snapshots safe to take at any version.
   */
  lemma ReplayFromSnapshot(events: seq<Event>, v: nat)
    requires 0 < v <= |events|
    requires Replay(events[..v]).Success?
    ensures Replay(events) == ReplayFrom(Replay(events[..v]).value, events[v..])
  {
    var s := Create(events[0]).value;
    assert events[..v][1..] + events[v..] == events[1..];
    ReplayFromAppend(s, events[..v][1..], events[v..]);
  }

  /** Replaying one more event is one more Apply. */
  lemma ReplayAppendOne(events: seq<Event>, e: Event)
    requires Replay(events).Success?
    ensures Replay(events + [e]) == Apply(Replay(events).value, e)
  {
    ReplayFromSnapshot(events + [e], |events|);
    assert (events + [e])[..|events|] == events;
    assert (events + [e])[|events|..] == [e];
  }

  /** `@event("Registered") __init__`: the status defaults to NA and the owners to the empty list. */
  function Register(clusterId: string, namespace: string, creationTimestamp: Timestamp,
                    status: Option<Status>, owners: Option<seq<string>>): (m: Mutation)
    ensures m.state.id == CreateId(clusterId, namespace) && m.state.version == 1
    ensures m.event.originatorId == m.state.id && m.event.kind.Registered?
    ensures m.state.clusterId == clusterId && m.state.namespace == namespace
    ensures m.state.creationTimestamp == creationTimestamp
    ensures m.state.status == (if status.Some? then status.value else Na)
    ensures m.state.owners == (if owners.Some? then owners.value else [])
    ensures Replay([m.event]) == Success(m.state)
  {
    var e := Event(CreateId(clusterId, namespace), 1,
                   Registered(clusterId, namespace, creationTimestamp,
                              if status.Some? then status.value else Na,
                              if owners.Some? then owners.value else []));
    Mutation(Create(e).value, e)
  }

  /** What the `@event` decorator does: record the next event and apply it. */
  function Trigger(s: Namespace, kind: EventKind): (m: Mutation)
    requires !kind.Registered?
    ensures m.event == Event(s.id, s.version + 1, kind)
    ensures Apply(s, m.event) == Success(m.state)
    ensures ReplayFrom(s, [m.event]) == Success(m.state)
  {
    var e := Event(s.id, s.version + 1, kind);
    assert [e][1..] == [];
    Mutation(Apply(s, e).value, e)
  }

  /** `set_status`: records one StatusChanged event and changes only the status. */
  function SetStatus(s: Namespace, status: Status): (m: Mutation)
    ensures m.event == Event(s.id, s.version + 1, StatusChanged(status))
    ensures m.state == s.(status := status, version := s.version + 1)
    ensures Apply(s, m.event) == Success(m.state)
  {
    Trigger(s, StatusChanged(status))
  }

  /** `set_owners`: records one OwnersChanged event and changes only the owners. */
  function SetOwners(s: Namespace, owners: seq<string>): (m: Mutation)
    ensures m.event == Event(s.id, s.version + 1, OwnersChanged(owners))
    ensures m.state == s.(owners := owners, version := s.version + 1)
    ensures Apply(s, m.event) == Success(m.state)
  {
    Trigger(s, OwnersChanged(owners))
  }

  /**
   * `to_dict`: the five business fields of the aggregate; together with the
   * id and the version they give back the whole aggregate.
   */
  function ToDict(s: Namespace): (r: NamespaceData)
    ensures Namespace(s.id, s.version, r.clusterId, r.namespace, r.creationTimestamp, r.status, r.owners) == s
  {
    NamespaceData(s.clusterId, s.namespace, s.creationTimestamp, s.status, s.owners)
  }
}
