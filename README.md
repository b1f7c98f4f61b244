# K8s namespace registry with recursive policy processing — a Dafny model

This project models a small event-sourced application, written in Python on
top of the `eventsourcing` library. It keeps one aggregate per Kubernetes
namespace, `K8sNamespace`. Each aggregate has a cluster id, a name, a
creation timestamp, a status (NA, AVAILABLE, WILL_EXPIRE, EXPIRED, DELETED
or K8S_DELETED) and a list of owners. Its id is derived from the cluster id
and the namespace name.

The application, `EvtSourcingApp`, overrides the library's recording step
`_record`. The step walks the processing event's list of new events by
index while the policy may append to that list. Afterwards it hands the
final list to the store in one transaction. The policy reacts to a
StatusChanged event whose aggregate is DELETED: it moves the aggregate to
K8S_DELETED and collects that new event into the same processing event.
The new event is therefore dispatched, and stored, in the same recording.

The model has four modules:

- `K8sNamespace` (`k8s_namespace.dfy`) is the aggregate as values:
  - the events `Registered`, `StatusChanged` and `OwnersChanged`;
  - the pure transition `Apply`, which checks the originator id and the next version;
  - the replay (`Create`, then a left fold of `Apply`);
  - the command methods as functions returning the new state together with the event they record.
- `EventStore` (`event_store.dfy`) is the store as a map from id to history:
  - the repository's `get` is a replay;
  - the recording's commit is atomic: all events or none.
- `Dispatch` (`dispatch.dfy`) covers policy resolution and the dispatch pass, stated on values:
  - `PolicyOutcome` is one policy call;
  - `Run` is the whole pass, with its termination measure and its fixpoint properties.
- `Application` (`application.dfy`) is the imperative part:
  - the processing event is a class whose list and mapping the policy updates;
  - `Record` is the `_record` while-loop, proved equal to `Run` and followed by the atomic commit;
  - the four use cases;
  - the test's get-or-create flow (`ProvisionNamespace`, `ProvisionAll`) and its delete flow (`DeleteNamespace`);
  - the test scenario itself (`ProvisionTestNamespaces`, `RecursionAppScenario`).

`Application.Consistent` is the invariant every use case keeps:
- every stored history is numbered 1, 2, 3, … for its own aggregate;
- every stored history replays;
- no stored namespace is left DELETED, because the policy settles DELETED to K8S_DELETED inside the same recording.

`Record`'s loop terminates for this reason. Each turn either leaves the list
as it is, or appends one event while one DELETED in-transaction aggregate
stops being DELETED. The measure is therefore
`|events| - cursor + 2 * |DELETED aggregates|`.

## Model

| member | source | states |
|---|---|---|
| K8sNamespace.Register | tests/test_recursion_application.py:30-39 | the registration has version 1 and the id `create_id` gives; it keeps the given fields; the status defaults to NA and the owners to the empty list; replaying its single event gives back the new state |
| K8sNamespace.CreateId | tests/test_recursion_application.py:41-44 | the id is the UUIDv5 of the name "/k8s_namespace/", then the cluster id, then "/", then the namespace: the name has that length, the cluster id at offset 15, a '/' after it, and the namespace as the rest |
| K8sNamespace.IdNameInjective | tests/test_recursion_application.py:41-44 | two (cluster id, namespace) pairs with the same hashed name are equal, provided the cluster ids hold no '/' |
| K8sNamespace.Trigger | tests/test_recursion_application.py:46-52 | a decorated command records the event with the aggregate's id and the next version, and the new state is what applying, and replaying, that event gives |
| K8sNamespace.Apply | tests/test_recursion_application.py:46-52 | applying an event succeeds exactly when it belongs to the aggregate, carries the next version and is not a registration; the result keeps the id, cluster id, name and creation timestamp and has the next version; a StatusChanged event sets only the status and an OwnersChanged event only the owners |
| K8sNamespace.SetStatus | tests/test_recursion_application.py:46-48 | one StatusChanged event with the next version; only the status (and the version) change |
| K8sNamespace.SetOwners | tests/test_recursion_application.py:50-52 | one OwnersChanged event with the next version; only the owners (and the version) change |
| K8sNamespace.ReplayFrom | tests/test_recursion_application.py:46-52 | replay succeeds exactly when the events belong to the aggregate, carry consecutive versions and never re-register; the id, cluster id, name and creation timestamp are kept, and the version grows by the number of events |
| K8sNamespace.Replay | tests/test_recursion_application.py:101 | an empty history is NotFound; replay succeeds exactly when the history starts with a registration and the rest continues it; the result carries the first event's id and the first version plus the number of later events |
| K8sNamespace.ReplayFromAppend | tests/test_recursion_application.py:46-52 | replaying a + b equals replaying a, then replaying b from the result |
| K8sNamespace.ReplayFromSnapshot | tests/test_recursion_application.py:86-89 | the state at any version v, replayed onward with the later events, equals the full replay, which is what makes a snapshot after every event safe |
| K8sNamespace.ReplayAppendOne | tests/test_recursion_application.py:46-52 | replaying a history plus one event is one more `Apply` on the replayed state |
| K8sNamespace.ToDict | tests/test_recursion_application.py:54-61 | the five fields returned, together with the id and version, rebuild exactly the aggregate they were read from |
| EventStore.Get | tests/test_recursion_application.py:101 | an empty history is NotFound; a successful read of a versioned history has the requested id and a version equal to the history's length |
| EventStore.Commit | tests/test_recursion_application.py:71 | the only failure is a concurrency conflict, and a successful commit keeps every history versioned |
| EventStore.CommitAppends | tests/test_recursion_application.py:71 | a successful commit extends every aggregate's history by exactly that aggregate's new events, in recording order |
| EventStore.CommitNextVersions | tests/test_recursion_application.py:97 | committing the next versions of one aggregate succeeds and appends exactly those events |
| EventStore.GetAfterAppend | tests/test_recursion_application.py:101-103 | reading back an extended history continues the replay from the previously read state |
| Dispatch.Collect | tests/test_recursion_application.py:134 | collecting events of an aggregate into a coherent processing event keeps it coherent |
| Dispatch.GetAggregateWithinPolicy | tests/test_recursion_application.py:73-78 | the in-transaction instance when the id is in the mapping, otherwise the repository's replay; a found aggregate has the requested id |
| Dispatch.PolicyOutcome | tests/test_recursion_application.py:114-134 | the policy never fails for an event whose aggregate is in the mapping; it appends at most one event, keeps the list before it, and keeps the processing event coherent |
| Dispatch.StatusPolicyReactsToDeleted | tests/test_recursion_application.py:122-134 | on a StatusChanged event whose aggregate is DELETED, the policy appends exactly one K8S_DELETED event and stores the K8S_DELETED aggregate |
| Dispatch.StatusPolicyIgnoresOtherStatuses | tests/test_recursion_application.py:122-134 | when the aggregate is not DELETED, the StatusChanged policy changes nothing |
| Dispatch.DefaultPolicyIsNoop | tests/test_recursion_application.py:114-120 | for every other event the default policy looks the aggregate up and changes nothing |
| Dispatch.PolicyStep | tests/test_recursion_application.py:122-134 | one step keeps the ids and coherence and only settles aggregates; after a StatusChanged event its aggregate is no longer DELETED; list length plus DELETED count is preserved, and the DELETED count does not grow |
| Dispatch.RunStep | tests/test_recursion_application.py:67-70 | one loop turn: the policy succeeds; the list up to the cursor is unchanged; the termination measure drops; the rest of the pass is the pass from the next cursor |
| Dispatch.Run | tests/test_recursion_application.py:65-70 | the dispatch pass as a function of the processing event and the cursor: it never shortens the list (the other pass properties are the Run lemmas below) |
| Dispatch.RunGrowsAtTail | tests/test_recursion_application.py:65-70 | a dispatch pass keeps the processing event coherent over the same ids; it only appends; it appends at most one event per DELETED aggregate |
| Dispatch.RunSettles | tests/test_recursion_application.py:65-70 | during a pass every in-transaction aggregate either stays as it is or goes from DELETED to K8S_DELETED |
| Dispatch.RunKeepsEvent | tests/test_recursion_application.py:65-70 | every event present when a pass starts is still at its index when it ends |
| Dispatch.RunReachesFixpoint | tests/test_recursion_application.py:65-70 | after a pass, no StatusChanged event dispatched by it leaves its aggregate DELETED |
| Dispatch.RunQuiescent | tests/test_recursion_application.py:67-70 | a pass over events that cannot make the policy react changes nothing |
| Dispatch.StatusChangePropagation | tests/test_recursion_application.py:100-103 | a status change to DELETED records exactly two events, DELETED then K8S_DELETED, and leaves the aggregate K8S_DELETED; any other status change records only its own event |
| Dispatch.OwnersChangeRecordsOneEvent | tests/test_recursion_application.py:105-108 | an owners change records only its own event |
| Dispatch.RegistrationRecordsOneEvent | tests/test_recursion_application.py:91-98 | a registration records only its own event |
| Application.ProcessingEvent.CollectEvents | tests/test_recursion_application.py:134 | the processing event's new contents are the collected ones, and it stays coherent |
| Application.EvtSourcingApp.Policy | tests/test_recursion_application.py:114-134 | the processing event is updated exactly as `PolicyOutcome` says, or left as it was with the failure reported |
| Application.EvtSourcingApp.Record | tests/test_recursion_application.py:65-71 | the loop's final processing event is the dispatch pass `Run`; the dispatched events are exactly the final list, in order; the store becomes the atomic commit of that list, or stays unchanged on conflict |
| Application.EvtSourcingApp.Append | tests/test_recursion_application.py:71 | the whole list is committed atomically, or nothing is |
| Application.EvtSourcingApp.Save | tests/test_recursion_application.py:97 | saving records the dispatch pass over the aggregate's pending events, then commits it |
| Application.EvtSourcingApp.RegisterNamespace | tests/test_recursion_application.py:91-98 | an unregistered id gets exactly its Registered event and reads back as the new namespace; an already registered id is a conflict that leaves the store unchanged |
| Application.EvtSourcingApp.SetNamespaceStatus | tests/test_recursion_application.py:100-103 | a missing namespace is NotFound; otherwise its history gains the status change (and, for DELETED, the policy's K8S_DELETED event) and it reads back with the settled status |
| Application.EvtSourcingApp.SetNamespaceOwners | tests/test_recursion_application.py:105-108 | a missing namespace is NotFound; otherwise its history gains one OwnersChanged event and it reads back with the new owners |
| Application.EvtSourcingApp.GetNamespaceData | tests/test_recursion_application.py:110-112 | a missing namespace is NotFound; otherwise the result is the replayed aggregate's five fields |
| Application.EvtSourcingApp.FindOrRegister | tests/test_recursion_application.py:155-162 | the namespace's id and data: the stored namespace if it is found, with the store unchanged; otherwise the namespace registered with the given timestamp and owners, whose history is exactly its Registered event |
| Application.EvtSourcingApp.MakeAvailable | tests/test_recursion_application.py:164-165 | a StatusChanged(AVAILABLE) event is appended only when the namespace is not AVAILABLE already; afterwards it is AVAILABLE, one version later in that case and unchanged otherwise |
| Application.EvtSourcingApp.AddOwner | tests/test_recursion_application.py:167-169 | an OwnersChanged event with the current owners plus the required one is appended only when the required owner is missing; otherwise history and state are unchanged |
| Application.EvtSourcingApp.Settle | tests/test_recursion_application.py:164-169 | the status step then the owners step: the history gains exactly the AVAILABLE event (if needed) then the owners event (if needed), and the namespace reads back AVAILABLE, owned by the required owner, one version per appended event |
| Application.OwnerStepAfterAvailable | tests/test_recursion_application.py:164-169 | the owners event follows the status step's version, and the two steps leave the state `Provisioning` describes |
| Application.EvtSourcingApp.ProvisionNamespace | tests/test_recursion_application.py:155-169 | get-or-create for one namespace: the namespace's history becomes its found history (or its Registered event), then StatusChanged(AVAILABLE) only if it was not AVAILABLE, then OwnersChanged(owners + [required owner]) only if that owner was missing; no other history changes; it reads back AVAILABLE, owned by the required owner, keeping its stored (or given) timestamp, at a version one higher per appended event; a namespace already provisioned is left alone |
| Application.ProvisioningReadsOnlyItsHistory | tests/test_recursion_application.py:155-169 | the get-or-create flow's history and result depend on the store only through that namespace's own history |
| Application.ProvisionedStaysProvisioned | tests/test_recursion_application.py:151-169 | one loop turn keeps every earlier namespace provisioned and provisions the current one |
| Application.ProvisioningKeepsUnlisted | tests/test_recursion_application.py:151-169 | one loop turn changes no history outside the namespaces listed so far |
| Application.ProvisioningKeepsEntries | tests/test_recursion_application.py:151-169 | in a list without repeated ids, one loop turn keeps the earlier namespaces' histories and states, and gives the current one the history and state the flow gives it from the store the loop started with |
| Application.EvtSourcingApp.ProvisionAll | tests/test_recursion_application.py:151-169 | after the loop every listed namespace is provisioned; every unlisted history is unchanged; when the list names each namespace once, each listed namespace has exactly the history and state the get-or-create flow gives it from the starting store |
| Application.EvtSourcingApp.DeleteNamespace | tests/test_recursion_application.py:171-179 | a missing namespace is left alone; a found one ends K8S_DELETED with its owners kept; unless it was already K8S_DELETED, its history gains DELETED then K8S_DELETED and its version grows by two |
| Application.TestNamespaceIdsDiffer | tests/test_recursion_application.py:155 | the test's two namespaces have different ids |
| Application.TestListedIds | tests/test_recursion_application.py:143-148 | the test's list names kube-system and albert1 on cluster "1" and no other id |
| Application.TestProvisionedStates | tests/test_recursion_application.py:143-169 | from an empty store, the get-or-create flow leaves kube-system AVAILABLE at version 3 owned by ["limenglong"] with its 2021-05-26T03:08:15Z timestamp, and albert1 AVAILABLE at version 3 owned by ["albert", "limenglong"] with its 2021-12-29T06:37:41Z timestamp |
| Application.TestProvisionedStore | tests/test_recursion_application.py:143-169 | a store the provisioning loop left from an empty one holds exactly those two namespaces and no other history |
| Application.ProvisionTestNamespaces | tests/test_recursion_application.py:137-169 | the test's provisioning loop, run through `ProvisionAll` from an empty store: kube-system and albert1 read back AVAILABLE at version 3 with their timestamps and owners ["limenglong"] and ["albert", "limenglong"]; nothing else is stored |
| Application.RecursionAppScenario | tests/test_recursion_application.py:137-179 | after the delete step, albert1 is K8S_DELETED at version 5 with owners ["albert", "limenglong"], and kube-system still reads back AVAILABLE at version 3 |

## Left out

- Persistence configuration: the environment variables (tests/test_recursion_application.py:15-16) that select a MySQL store. The store is the map `EventStore.Store`.
- Snapshots (tests/test_recursion_application.py:86-89): no snapshot store is modelled. `ReplayFromSnapshot` proves that resuming from the state at any version equals the full replay.
- `create_id`'s UUIDv5 (SHA-1) hash: an id is `Uuid5(name)` over the hashed name, so hash collisions are not modelled.
- `str()` of the cluster id: cluster ids are strings already, so it is the identity.
- The `print` notifications (tests/test_recursion_application.py:120, 133): output only. Line 132 only comments that the namespace would be deleted on the cluster; no call is made there, so there is nothing to model.
- `singledispatchmethod`: the dispatch on the event's class is a `match` on the event kind.
- `RecursionEvtApplication.policy`'s `pass` (tests/test_recursion_application.py:80-82): `EvtSourcingApp` overrides it, and only the override is modelled.
- `datetime` values, the library's own event timestamps and the notification log: a creation timestamp is a `Timestamp` holding whole seconds since the Unix epoch (UTC), carried along and never inspected; the test's two timezone-aware datetimes are written as 1621998495 and 1640759861.
- Object identity: the in-transaction aggregates are values in a map. The model does not capture that the policy mutates the very object the caller saved, and then re-collects it.
- EventStore.Commit: requires every event to carry exactly the next version of its history. The SQL store only rejects a duplicate (id, version). The two agree on every history the application writes, because each command starts from the replayed version.
- Application.EvtSourcingApp.ProvisionAll: the exact history and state of each entry are stated only when the list names every namespace once. With a repeated namespace, the later entry starts from the earlier one's result; only the "provisioned" and "unlisted histories unchanged" clauses are stated then.
- Concurrency between processes or threads: one application instance runs at a time.
- `AggregateNotFound` as an exception: it is the `NotFound` error value, and the test's `except` branches are the `Failure`/`NotFound` cases of `ProvisionNamespace` and `DeleteNamespace`.
- The test's fixed data (cluster "1", the two namespaces and the owner "limenglong") is the function `TestNamespaces` and constants in `ProvisionTestNamespaces` and `RecursionAppScenario`.
