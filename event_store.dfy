/**
 * The event store behind the application, seen through the two operations
 * the core uses: the repository's `get` (replay of a stored history) and the
 * atomic append of a whole list of new events, which succeeds for all of
 * them or for none.
 */
module EventStore {
  import opened Wrappers
  import opened K8sNamespace

  /** Stored histories, one per aggregate id. */
  type Store = map<Id, seq<Event>>

  /** The stored history of one aggregate (empty when nothing is stored). */
  function Log(store: Store, id: Id): seq<Event> {
    if id in store then store[id] else []
  }

  /** A history that belongs to `id` and numbers its events 1, 2, 3, ... */
  ghost predicate VersionedLog(id: Id, log: seq<Event>) {
    forall k :: 0 <= k < |log| ==> log[k].originatorId == id && log[k].originatorVersion == k + 1
  }

  /** Every stored history is versioned: the store's uniqueness guarantee on (id, version). */
  ghost predicate WellFormed(store: Store) {
    forall id :: id in store ==> VersionedLog(id, store[id])
  }

  /** The events of `id` among `events`, in their order. */
  function Filter(events: seq<Event>, id: Id): seq<Event> {
    if events == [] then []
    else if events[0].originatorId == id then [events[0]] + Filter(events[1..], id)
    else Filter(events[1..], id)
  }

  /**
   * `repository.get`: replays the stored history. NotFound when nothing is
   * stored; otherwise the aggregate's version is the length of its history.
   */
  function Get(store: Store, id: Id): (r: Result<Namespace, Error>)
    ensures Log(store, id) == [] ==> r == Failure(NotFound)
    ensures WellFormed(store) && r.Success? ==> r.value.id == id && r.value.version == |Log(store, id)|
  {
    Replay(Log(store, id))
  }

  /**
   * Atomic append of all events of one recording, in order. Each event must
   * carry the next version of its aggregate's stored history; otherwise the
   * whole recording is refused with ConcurrencyConflict.
   */
  function Commit(store: Store, events: seq<Event>): (r: Result<Store, Error>)
    decreases |events|
    ensures r.Failure? ==> r.error == ConcurrencyConflict
    ensures r.Success? && WellFormed(store) ==> WellFormed(r.value)
  {
    if events == [] then Success(store)
    else
      var e := events[0];
      var log := Log(store, e.originatorId);
      if e.originatorVersion != |log| + 1 then Failure(ConcurrencyConflict)
      else Commit(store[e.originatorId := log + [e]], events[1..])
  }

  /** A successful commit appends to every history exactly that aggregate's new events, in order. */
  lemma {:induction false} CommitAppends(store: Store, events: seq<Event>, id: Id)
    requires Commit(store, events).Success?
    ensures Log(Commit(store, events).value, id) == Log(store, id) + Filter(events, id)
    decreases |events|
  {
    if events != [] {
      var e := events[0];
      var next := store[e.originatorId := Log(store, e.originatorId) + [e]];
      CommitAppends(next, events[1..], id);
      if e.originatorId == id {
        assert Log(next, id) == Log(store, id) + [e];
      } else {
        assert Log(next, id) == Log(store, id);
      }
    }
  }

  /**
   * Committing the next versions of a single aggregate succeeds and extends
   * that aggregate's history by exactly those events.
   */
  lemma {:induction false} CommitNextVersions(store: Store, id: Id, events: seq<Event>)
    requires events != []
    requires forall k :: 0 <= k < |events| ==>
      events[k].originatorId == id && events[k].originatorVersion == |Log(store, id)| + k + 1
    ensures Commit(store, events) == Success(store[id := Log(store, id) + events])
    decreases |events|
  {
    var next := store[id := Log(store, id) + [events[0]]];
    if |events| > 1 {
      forall k | 0 <= k < |events[1..]|
        ensures events[1..][k].originatorId == id
        ensures events[1..][k].originatorVersion == |Log(next, id)| + k + 1
      {
        assert events[1..][k] == events[k + 1];
      }
      CommitNextVersions(next, id, events[1..]);
      assert Log(next, id) + events[1..] == Log(store, id) + events;
      assert next[id := Log(next, id) + events[1..]] == store[id := Log(store, id) + events];
    } else {
      assert events == [events[0]];
    }
  }

  /** Reading back a history extended by new events continues the replay from the old state. */
  lemma GetAfterAppend(store: Store, id: Id, events: seq<Event>)
    requires Get(store, id).Success?
    ensures Get(store[id := Log(store, id) + events], id) == ReplayFrom(Get(store, id).value, events)
  {
    var log := Log(store, id);
    ReplayFromSnapshot(log + events, |log|);
    assert (log + events)[..|log|] == log;
    assert (log + events)[|log|..] == events;
  }
}
