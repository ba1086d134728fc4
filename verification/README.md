# Ambari resource providers and execution commands, modelled in Dafny

Ambari's management server shows its backend entities, such as clusters and services, as
generic *resources*. A resource is a resource type plus a map from hierarchical property
ids (`category/subcategory/leaf`) to values. A resource provider serves one resource
type and works in four steps:

1. It checks the requested property ids against its catalog (`checkPropertyIds`).
2. It filters resources with predicates (`getResources`).
3. It turns create, update and delete requests into request records for the backend
   controller (`AmbariManagementController`).
4. After each mutation, it publishes a `ResourceProviderEvent` to its observers.

This project models that behaviour as `AbstractResourceProviderTest` pins it down. That
test is the contract. The model also covers the agent's `ExecutionCommand` value object,
whose equality and hash code are determined by its manifest.

Modules:

- `PropertyIds` (`property_ids.dfy`): path categories and `CheckPropertyIds`. An id is
  accepted in three cases:
  - it is registered verbatim;
  - one of its ancestor paths is registered, for example the entries of a map-valued
    property;
  - it is a category of a registered id, for example `cat1` for `cat1/foo`.
- `Resources` (`resources.dfy`): the value datatype, property maps and the cluster and
  service catalogs. Also the projection of a property map onto the requested ids, where a
  category selects everything under it.
- `Predicates` (`predicates.dfy`): equality and AND predicates, and their evaluation.
  Also the key values a predicate pins, and filtering, where a null predicate keeps
  everything.
- `Requests` (`requests.dfy`): the backend request and response records, and the
  test's `eq` helper and argument matchers. Also the translation between property maps
  and request records.
- `Events` (`events.dfy`): events, and `TestObserver` as a class whose `lastEvent`
  field is overwritten by `Update`.
- `Providers` (`provider.dfy`): the backend call log and the functions that say which
  calls each operation makes. Also `ResourceProvider`, a class holding its observers and
  an append-only `calls` log. Its methods are proved against those functions.
- `ProviderTests` (`provider_tests.dfy`): the provider tests of
  `AbstractResourceProviderTest`. Each one that drives a provider (create, read, update and
  delete of clusters and services, and `testGetPropertyIds`) is a method running the
  test's calls on a fresh provider, with the test's assertions and the expected backend
  call log as its postcondition. The lemmas beside those methods work out the calls and
  read results the methods rely on. `testCheckPropertyIds` exercises the id check alone
  and is the lemma `PropertyIds.CheckPropertyIdsExamples`.
- `Agent` (`execution_command.dfy`): `ExecutionCommand` with its `manifest` field,
  its setter, `equals` and `hashCode`.

The behaviour of the provider implementation is inferred from the test's expectations.
The implementation itself is not part of this model. The test fixes these instances:

- Creating two clusters sends two `createCluster` calls, one per property map.
- Creating a service sends one `createServices` call whose set holds one request.
- Updating the cluster named `Cluster102` first looks clusters up and then updates the
  one found, sending its id and name with the new version. Updating the cluster whose id is 103 sends
  one update built from the id alone, with no lookup. Updating the service pinned by
  cluster name and service name sends one `updateServices` call.
- Deleting by name and by id sends one delete each, built from the pinned value.

From these the model takes one general rule: an update needs no lookup exactly when its
predicate names exactly the primary-key ids of its type (the cluster id; the cluster
name and service name of a service). Every other update, including one with a null
predicate, looks the entities up and keeps those the predicate matches. For each it
sends the entity's identifying values (the primary keys, and a cluster's name as well)
with the new properties laid over them. No other value the backend reported, such as a
cluster's old stack version or a service's old state, is sent back. A delete is always
built from the pinned values.

The property id check accepts the bare category `cat1` of a registered `cat1/foo`
(ambari-server/src/test/java/org/apache/ambari/server/controller/internal/AbstractResourceProviderTest.java:483-484),
so a single-segment id with no registered parent is still supported when it is a
category of a registered id. The model follows the test here.

## Model

| member | source | states |
|---|---|---|
| PropertyIds.CategoriesAreCategoryPrefixes | ambari-server/src/test/java/org/apache/ambari/server/controller/internal/AbstractResourceProviderTest.java:472-474 | the categories computed for an id are exactly its proper ancestor paths (both directions) |
| PropertyIds.AcceptedIsSupported | ambari-server/src/test/java/org/apache/ambari/server/controller/internal/AbstractResourceProviderTest.java:469-484 | the computed acceptance test (verbatim, ancestor registered, category of a registered id) coincides with the declarative definition of a supported id |
| PropertyIds.CheckPropertyIds | ambari-server/src/test/java/org/apache/ambari/server/controller/internal/AbstractResourceProviderTest.java:469-484 | the result is a subset of the request, and a requested id is in it if and only if it is not supported |
| PropertyIds.RegisteredIdsSupported | ambari-server/src/test/java/org/apache/ambari/server/controller/internal/AbstractResourceProviderTest.java:469-470 | ids that are all registered verbatim give an empty unsupported set |
| PropertyIds.CheckPropertyIdsAntitone | ambari-server/src/test/java/org/apache/ambari/server/controller/internal/AbstractResourceProviderTest.java:449-456 | registering more ids never makes more requested ids unsupported |
| PropertyIds.CheckPropertyIdsUnion | ambari-server/src/test/java/org/apache/ambari/server/controller/internal/AbstractResourceProviderTest.java:469-484 | the check is per id: the unsupported ids of a union are the union of the unsupported ids |
| PropertyIds.CheckPropertyIdsExamples | ambari-server/src/test/java/org/apache/ambari/server/controller/internal/AbstractResourceProviderTest.java:449-484 | with the test's seven registered ids: foo, cat5/subcat5/map/key, cat1/foo and cat1 are accepted, and {bar} gives exactly {bar} |
| Resources.PkPropertyIdsOf | ambari-server/src/test/java/org/apache/ambari/server/controller/internal/AbstractResourceProviderTest.java:224-229 | the primary-key ids the update tests imply (cluster id; cluster and service name) are among the type's registered ids |
| Resources.IdentifyingPropertyIdsOf | ambari-server/src/test/java/org/apache/ambari/server/controller/internal/AbstractResourceProviderTest.java:195-200 | the ids an update sends back for an entity it found (cluster id and name; cluster and service name) include every primary key and are only some of the registered ids |
| Resources.Project | ambari-server/src/test/java/org/apache/ambari/server/controller/internal/AbstractResourceProviderTest.java:383-388 | projection keeps an id exactly when it is requested or one of its categories is requested, and keeps its value unchanged |
| Predicates.Pins | ambari-server/src/test/java/org/apache/ambari/server/controller/internal/AbstractResourceProviderTest.java:224-228 | the values a predicate pins are keyed by exactly the ids it mentions |
| Predicates.PinnedProperties | ambari-server/src/test/java/org/apache/ambari/server/controller/internal/AbstractResourceProviderTest.java:250-251 | the pinned properties of a predicate (none for a null one) are keyed by exactly its ids |
| Predicates.Evaluate | ambari-server/src/test/java/org/apache/ambari/server/controller/internal/AbstractResourceProviderTest.java:169-182 | a predicate holds on a property map only when every id it names is present in the map |
| Predicates.EvaluateIsPins | ambari-server/src/test/java/org/apache/ambari/server/controller/internal/AbstractResourceProviderTest.java:169-182 | a consistent equality/AND predicate holds on a resource if and only if the resource has every pinned value |
| Predicates.InconsistentNeverHolds | ambari-server/src/test/java/org/apache/ambari/server/controller/internal/AbstractResourceProviderTest.java:169-182 | a predicate that pins one id to two values holds on no resource |
| Predicates.Filter | ambari-server/src/test/java/org/apache/ambari/server/controller/internal/AbstractResourceProviderTest.java:168-182 | filtering keeps exactly the resources the predicate matches (both directions) and never adds any |
| Predicates.FilterNull | ambari-server/src/test/java/org/apache/ambari/server/controller/internal/AbstractResourceProviderTest.java:158-161 | a null predicate keeps every resource in order |
| Predicates.FilterAllMatch | ambari-server/src/test/java/org/apache/ambari/server/controller/internal/AbstractResourceProviderTest.java:390-393 | a predicate every resource satisfies keeps them all in order |
| Predicates.FilterAnd | ambari-server/src/test/java/org/apache/ambari/server/controller/internal/AbstractResourceProviderTest.java:439-440 | filtering by AND equals filtering by the left side and then by the right side |
| Predicates.FilterNoneMatch | ambari-server/src/test/java/org/apache/ambari/server/controller/internal/AbstractResourceProviderTest.java:168-182 | a predicate no resource satisfies keeps nothing |
| Predicates.FilterUniqueAtMostOne | ambari-server/src/test/java/org/apache/ambari/server/controller/internal/AbstractResourceProviderTest.java:172-173 | equality on a property that is unique among the resources keeps at most one |
| Requests.Eq | ambari-server/src/test/java/org/apache/ambari/server/controller/internal/AbstractResourceProviderTest.java:544-546 | eq on nullable values holds exactly when they are equal: null equals only null |
| Requests.ClusterRequestMatches | ambari-server/src/test/java/org/apache/ambari/server/controller/internal/AbstractResourceProviderTest.java:558-563 | the cluster request matcher accepts exactly the request equal to the expected one |
| Requests.ServiceRequestSetMatches | ambari-server/src/test/java/org/apache/ambari/server/controller/internal/AbstractResourceProviderTest.java:582-599 | the service set matcher accepts exactly the one-element set holding the expected request |
| Requests.ServiceRequestFieldsMatch | ambari-server/src/test/java/org/apache/ambari/server/controller/internal/AbstractResourceProviderTest.java:595-599 | field-by-field agreement of two service requests holds exactly when they are equal |
| Requests.ComponentRequestSetMatches | ambari-server/src/test/java/org/apache/ambari/server/controller/internal/AbstractResourceProviderTest.java:619-638 | the component set matcher accepts exactly the one-element set holding the expected request |
| Requests.ComponentRequestFieldsMatch | ambari-server/src/test/java/org/apache/ambari/server/controller/internal/AbstractResourceProviderTest.java:633-638 | field-by-field agreement of two component requests holds exactly when they are equal |
| Requests.ConfigurationRequestMatches | ambari-server/src/test/java/org/apache/ambari/server/controller/internal/AbstractResourceProviderTest.java:654-660 | the configuration matcher accepts exactly the request equal to the expected one |
| Requests.ClusterRequestRoundTrip | ambari-server/src/test/java/org/apache/ambari/server/controller/internal/AbstractResourceProviderTest.java:60-61 | a cluster request without host names survives translation to a property map and back |
| Requests.ClusterPropertiesRoundTrip | ambari-server/src/test/java/org/apache/ambari/server/controller/internal/AbstractResourceProviderTest.java:79-99 | a property map translated to a cluster request and back keeps exactly its cluster fields |
| Requests.ServiceRequestRoundTrip | ambari-server/src/test/java/org/apache/ambari/server/controller/internal/AbstractResourceProviderTest.java:292 | a service request without config versions survives translation to a property map and back |
| Requests.ServicePropertiesRoundTrip | ambari-server/src/test/java/org/apache/ambari/server/controller/internal/AbstractResourceProviderTest.java:306-314 | a property map translated to a service request and back keeps exactly its service fields |
| Requests.ToResourceKeys | ambari-server/src/test/java/org/apache/ambari/server/controller/internal/AbstractResourceProviderTest.java:195-200 | a resource built from a backend response translates back to a request carrying that response's id, name and version or state |
| Events.TestObserver.constructor | ambari-server/src/test/java/org/apache/ambari/server/controller/internal/AbstractResourceProviderTest.java:671 | a new observer has seen no event |
| Events.TestObserver.Update | ambari-server/src/test/java/org/apache/ambari/server/controller/internal/AbstractResourceProviderTest.java:674-676 | an update overwrites the last event with the one received |
| Providers.ClusterCallsOnePerMap | ambari-server/src/test/java/org/apache/ambari/server/controller/internal/AbstractResourceProviderTest.java:60-61 | a cluster mutation makes one call per property map, in order, each built from that map |
| Providers.MutationCalls | ambari-server/src/test/java/org/apache/ambari/server/controller/internal/AbstractResourceProviderTest.java:60-61 | no maps give no calls; a cluster mutation makes one call per map and a service mutation one call; every call is a mutation of the requested kind, never a lookup |
| Providers.ServiceMutationSendsOneRequest | ambari-server/src/test/java/org/apache/ambari/server/controller/internal/AbstractResourceProviderTest.java:286-323 | a service mutation of one map makes one call whose set is accepted by the service set matcher |
| Providers.ClusterLookupCarriesPinnedKeys | ambari-server/src/test/java/org/apache/ambari/server/controller/internal/AbstractResourceProviderTest.java:199 | a cluster lookup sends one request whose cluster fields are exactly the ones the predicate pins |
| Providers.ServiceLookupCarriesPinnedKeys | ambari-server/src/test/java/org/apache/ambari/server/controller/internal/AbstractResourceProviderTest.java:347-349 | a service lookup sends one request whose service fields are exactly the ones the predicate pins |
| Providers.ReadResources | ambari-server/src/test/java/org/apache/ambari/server/controller/internal/AbstractResourceProviderTest.java:156-182 | a read returns at most one resource per response, and each is a response the predicate keeps, cut down to the requested and predicate ids |
| Providers.ReadKeepsEveryMatch | ambari-server/src/test/java/org/apache/ambari/server/controller/internal/AbstractResourceProviderTest.java:168-182 | a read misses nothing: every response the predicate keeps is returned, cut down to the requested and predicate ids |
| Providers.ReadWithoutPredicate | ambari-server/src/test/java/org/apache/ambari/server/controller/internal/AbstractResourceProviderTest.java:159-166 | a read with a null predicate returns one resource per response, each the response projected to the requested ids |
| Providers.ReadWithEquality | ambari-server/src/test/java/org/apache/ambari/server/controller/internal/AbstractResourceProviderTest.java:168-182 | a read with an equality predicate returns exactly the projections of the responses holding that value, and each carries the value |
| Providers.NeedsLookup | ambari-server/src/test/java/org/apache/ambari/server/controller/internal/AbstractResourceProviderTest.java:224-229 | a null predicate always needs a lookup, and an update needs none only when its predicate pins exactly the primary-key ids |
| Providers.MergeKeys | ambari-server/src/test/java/org/apache/ambari/server/controller/internal/AbstractResourceProviderTest.java:195-200 | one map per kept entity, in order, each that entity's identifying entries with the new values laid over them |
| Providers.UpdateMaps | ambari-server/src/test/java/org/apache/ambari/server/controller/internal/AbstractResourceProviderTest.java:195-229 | every map an update sends carries the new values and no other id than those and the identifying ids; without a lookup there is one map holding every primary key; with one there is at most one map per response |
| Providers.UpdateCalls | ambari-server/src/test/java/org/apache/ambari/server/controller/internal/AbstractResourceProviderTest.java:199-201 | an update sends a lookup first exactly when it needs one, and every later call is an update |
| Providers.DeleteMaps | ambari-server/src/test/java/org/apache/ambari/server/controller/internal/AbstractResourceProviderTest.java:250-251 | a delete sends one map, keyed by exactly the ids the predicate names |
| Providers.UpdateClusterByKey | ambari-server/src/test/java/org/apache/ambari/server/controller/internal/AbstractResourceProviderTest.java:227-229 | an update whose predicate pins only cluster keys makes one updateCluster call with the pinned id and the new version, and no lookup |
| Providers.MergedClusterRequest | ambari-server/src/test/java/org/apache/ambari/server/controller/internal/AbstractResourceProviderTest.java:195-200 | the identifying entries of a looked-up cluster with the new version laid over them give a request with that cluster's id and name and the new version |
| Providers.UpdateClusterCallsByLookup | ambari-server/src/test/java/org/apache/ambari/server/controller/internal/AbstractResourceProviderTest.java:199-200 | an update by a non-key predicate makes one lookup, then one update per matching entity, built from its identifying entries with the new properties laid over them |
| Providers.UpdateClusterByLookup | ambari-server/src/test/java/org/apache/ambari/server/controller/internal/AbstractResourceProviderTest.java:199-200 | each such update call carries the id, name and new version of a response that matches the predicate |
| Providers.UpdateWithoutMatches | ambari-server/src/test/java/org/apache/ambari/server/controller/internal/AbstractResourceProviderTest.java:199-200 | when the lookup finds no matching entity, only the lookup is sent and nothing is updated |
| Providers.UpdateWithoutPredicate | ambari-server/src/test/java/org/apache/ambari/server/controller/internal/AbstractResourceProviderTest.java:199-200 | an update with a null predicate looks up and then updates every entity the lookup returns, in order, each with its identifying entries and the new values |
| Providers.UpdateMapsCarryOnlyNewState | ambari-server/src/test/java/org/apache/ambari/server/controller/internal/AbstractResourceProviderTest.java:195-200 | a map an update sends holds an id that is not identifying exactly when the request sets it, and then with the request's value |
| Providers.UpdateClusterSendsOnlyNewVersion | ambari-server/src/test/java/org/apache/ambari/server/controller/internal/AbstractResourceProviderTest.java:195-200 | every updateCluster call carries the request's new stack version, or none when the request sets none, never the version the backend reported |
| Providers.UpdateServiceSendsOnlyNewState | ambari-server/src/test/java/org/apache/ambari/server/controller/internal/AbstractResourceProviderTest.java:419 | every request of an updateServices call carries the request's new state, or none, never the state the backend reported |
| Providers.ServiceRequestsCarryState | ambari-server/src/test/java/org/apache/ambari/server/controller/internal/AbstractResourceProviderTest.java:419 | when every map holds the same state, every service request built from them carries that state |
| Providers.UpdateServiceCallsByLookup | ambari-server/src/test/java/org/apache/ambari/server/controller/internal/AbstractResourceProviderTest.java:419 | a service update by a non-key predicate sends the lookup and then one updateServices call whose set holds exactly the requests built from each kept service's identifying entries and the new values |
| Providers.MergedServiceRequests | ambari-server/src/test/java/org/apache/ambari/server/controller/internal/AbstractResourceProviderTest.java:419 | the service requests built for kept services are exactly the requests of each one's cluster and service name with the new values laid over them |
| Providers.DeleteClusterPinned | ambari-server/src/test/java/org/apache/ambari/server/controller/internal/AbstractResourceProviderTest.java:250-251 | a cluster delete makes one call whose request holds exactly the key values the predicate pins |
| Providers.ResourceProvider.constructor | ambari-server/src/test/java/org/apache/ambari/server/controller/internal/AbstractResourceProviderTest.java:66-70 | a new provider has its type and catalog, no observers and an empty call log |
| Providers.ResourceProvider.GetPropertyIds | ambari-server/src/test/java/org/apache/ambari/server/controller/internal/AbstractResourceProviderTest.java:509-510 | the reported ids contain every registered id and all pass the property id check |
| Providers.ResourceProvider.AddObserver | ambari-server/src/test/java/org/apache/ambari/server/controller/internal/AbstractResourceProviderTest.java:72-74 | the observer is appended to the provider's observers and the call log is unchanged |
| Providers.ResourceProvider.Notify | ambari-server/src/test/java/org/apache/ambari/server/controller/internal/AbstractResourceProviderTest.java:231-236 | every registered observer's last event becomes the published event |
| Providers.ResourceProvider.Commit | ambari-server/src/test/java/org/apache/ambari/server/controller/internal/AbstractResourceProviderTest.java:104-111 | the log gains exactly the calls the mutation makes, and observers receive the event when there was something to send |
| Providers.ResourceProvider.CreateResources | ambari-server/src/test/java/org/apache/ambari/server/controller/internal/AbstractResourceProviderTest.java:102-111 | a create is refused with the unsupported ids, or appends one call per map (clusters) or one set call (services) and publishes Create with the request and a null predicate |
| Providers.ResourceProvider.GetResources | ambari-server/src/test/java/org/apache/ambari/server/controller/internal/AbstractResourceProviderTest.java:156-182 | a read fails with the unsupported ids, or logs one lookup and returns the matching responses projected to the requested and predicate ids |
| Providers.ResourceProvider.RecordLookup | ambari-server/src/test/java/org/apache/ambari/server/controller/internal/AbstractResourceProviderTest.java:199 | the log gains exactly the lookup built from the predicate |
| Providers.ResourceProvider.UpdateResources | ambari-server/src/test/java/org/apache/ambari/server/controller/internal/AbstractResourceProviderTest.java:221-236 | an update is refused with the unsupported ids, or appends exactly the update calls (lookup first when needed) and publishes Update with the request and the predicate |
| Providers.ResourceProvider.DeleteResources | ambari-server/src/test/java/org/apache/ambari/server/controller/internal/AbstractResourceProviderTest.java:266-279 | a delete is refused with the unsupported ids, or appends the delete built from the pinned keys and publishes Delete with the predicate and no request |
| ProviderTests.CreateClusterResourcesScenario | ambari-server/src/test/java/org/apache/ambari/server/controller/internal/AbstractResourceProviderTest.java:54-115 | creating two clusters logs (null, Cluster100, HDP-0.1, null) and (99, null, HDP-0.1, null), and the observer's last event is that Create |
| ProviderTests.ReadClusterIdAndName | ambari-server/src/test/java/org/apache/ambari/server/controller/internal/AbstractResourceProviderTest.java:162-166 | a cluster read for id and name returns exactly the response's id and name |
| ProviderTests.ReadAllClusters | ambari-server/src/test/java/org/apache/ambari/server/controller/internal/AbstractResourceProviderTest.java:159-166 | a cluster read without a predicate returns each response's id and name, in order |
| ProviderTests.ReadOneCluster | ambari-server/src/test/java/org/apache/ambari/server/controller/internal/AbstractResourceProviderTest.java:168-182 | a cluster read whose predicate the one response satisfies returns exactly that cluster |
| ProviderTests.ClusterReadResults | ambari-server/src/test/java/org/apache/ambari/server/controller/internal/AbstractResourceProviderTest.java:141-182 | the three reads pass the property id check; the unfiltered read returns the five clusters' ids and names in order, and each filtered read returns the one cluster its response holds |
| ProviderTests.ClusterReadLookups | ambari-server/src/test/java/org/apache/ambari/server/controller/internal/AbstractResourceProviderTest.java:137-139 | the three reads look up with no key, with the name Cluster102 and with the id 103 |
| ProviderTests.GetClusterResourcesScenario | ambari-server/src/test/java/org/apache/ambari/server/controller/internal/AbstractResourceProviderTest.java:118-186 | the backend is asked exactly three times, the lookups for no predicate, name == Cluster102 and id == 103 in that order; five clusters come back with id and name; name == Cluster102 gives only cluster 102; id == 103 gives only Cluster103 |
| ProviderTests.UpdateByNameCalls | ambari-server/src/test/java/org/apache/ambari/server/controller/internal/AbstractResourceProviderTest.java:195-225 | the update by name passes the id check, looks Cluster102 up and sends (102, Cluster102, HDP-0.1, null) |
| ProviderTests.RenameSendsNoOldVersion | ambari-server/src/test/java/org/apache/ambari/server/controller/internal/AbstractResourceProviderTest.java:195-200 | renaming the cluster found by name sends its id and the new name and no stack version, although the backend reported one |
| ProviderTests.UpdateByIdCalls | ambari-server/src/test/java/org/apache/ambari/server/controller/internal/AbstractResourceProviderTest.java:201-229 | the update by id 103 passes the id check and sends (103, null, HDP-0.1, null) with no lookup |
| ProviderTests.UpdateClusterResourcesScenario | ambari-server/src/test/java/org/apache/ambari/server/controller/internal/AbstractResourceProviderTest.java:189-240 | the log is the name lookup, update (102, Cluster102, HDP-0.1, null) and update (103, null, HDP-0.1, null), and the last event is Update with the request and the id predicate |
| ProviderTests.DeleteClusterResourcesScenario | ambari-server/src/test/java/org/apache/ambari/server/controller/internal/AbstractResourceProviderTest.java:243-283 | the log is delete (null, Cluster102, null, null) then delete (103, null, null, null), and the last event is Delete with the id predicate and no request |
| ProviderTests.CreateServiceCalls | ambari-server/src/test/java/org/apache/ambari/server/controller/internal/AbstractResourceProviderTest.java:292 | the new service passes the id check and is sent as one createServices call holding exactly (Cluster100, Service100, null, DEPLOYED) |
| ProviderTests.CreateServiceResourcesScenario | ambari-server/src/test/java/org/apache/ambari/server/controller/internal/AbstractResourceProviderTest.java:286-323 | one createServices call whose set the matcher for (Cluster100, Service100, null, DEPLOYED) accepts |
| ProviderTests.UpdateServiceResourcesScenario | ambari-server/src/test/java/org/apache/ambari/server/controller/internal/AbstractResourceProviderTest.java:412-445 | an AND predicate on cluster and service name gives one updateServices call for Service102 and no lookup |
| ProviderTests.ReadServiceKey | ambari-server/src/test/java/org/apache/ambari/server/controller/internal/AbstractResourceProviderTest.java:383-388 | a service read for both key ids, or for the ServiceInfo category, carries the response's cluster and service name |
| ProviderTests.ReadAllServices | ambari-server/src/test/java/org/apache/ambari/server/controller/internal/AbstractResourceProviderTest.java:368-380 | a service read whose predicate every response satisfies returns one resource per response with its cluster and service name |
| ProviderTests.ReadDeployedServices | ambari-server/src/test/java/org/apache/ambari/server/controller/internal/AbstractResourceProviderTest.java:390-404 | reading deployed services of Cluster100, unfiltered or with state == DEPLOYED, returns each with Cluster100 and its name |
| ProviderTests.ReadServiceByName | ambari-server/src/test/java/org/apache/ambari/server/controller/internal/AbstractResourceProviderTest.java:383-388 | reading the ServiceInfo category with name == Service102 returns one resource named Service102 |
| ProviderTests.ServiceInfoSupported | ambari-server/src/test/java/org/apache/ambari/server/controller/internal/AbstractResourceProviderTest.java:383-385 | the bare ServiceInfo category, with the service name id, passes the property id check |
| ProviderTests.ServiceReadLookups | ambari-server/src/test/java/org/apache/ambari/server/controller/internal/AbstractResourceProviderTest.java:347-349 | the three reads look up with no key, with the service name Service102 and with the state DEPLOYED |
| ProviderTests.GetServiceResourcesScenario | ambari-server/src/test/java/org/apache/ambari/server/controller/internal/AbstractResourceProviderTest.java:326-409 | the backend is asked exactly three times, the lookups for no predicate, name == Service102 and state == DEPLOYED in that order; five services of Cluster100 come back by name; name == Service102 gives one; state == DEPLOYED gives the three deployed ones |
| ProviderTests.GetPropertyIdsScenario | ambari-server/src/test/java/org/apache/ambari/server/controller/internal/AbstractResourceProviderTest.java:487-511 | a service provider created with the test's seven ids reports all of them |
| Agent.ExecutionCommand.constructor | ambari-server/src/main/java/org/apache/ambari/server/agent/ExecutionCommand.java:31 | a new command has the empty manifest |
| Agent.ExecutionCommand.GetManifest | ambari-server/src/main/java/org/apache/ambari/server/agent/ExecutionCommand.java:33-35 | the getter returns the manifest field |
| Agent.ExecutionCommand.SetManifest | ambari-server/src/main/java/org/apache/ambari/server/agent/ExecutionCommand.java:37-39 | after the setter the manifest is the given string and nothing else changes |
| Agent.ExecutionCommand.HashCode | ambari-server/src/main/java/org/apache/ambari/server/agent/ExecutionCommand.java:50-54 | the hash code is the string hash of the manifest alone |
| Agent.ExecutionCommand.Equals | ambari-server/src/main/java/org/apache/ambari/server/agent/ExecutionCommand.java:42-48 | a command equals only execution commands, and always equals itself |
| Agent.NotEqualToNull | ambari-server/src/main/java/org/apache/ambari/server/agent/ExecutionCommand.java:42-45 | a command is not equal to null |
| Agent.NotEqualToOtherClass | ambari-server/src/main/java/org/apache/ambari/server/agent/ExecutionCommand.java:42-45 | a command is not equal to any object that is not an execution command |
| Agent.EqualsIsManifestEquality | ambari-server/src/main/java/org/apache/ambari/server/agent/ExecutionCommand.java:46-47 | two commands are equal if and only if their manifests are equal strings, regardless of identity |
| Agent.EqualsSymmetric | ambari-server/src/main/java/org/apache/ambari/server/agent/ExecutionCommand.java:42-48 | if a command equals an object, that object is a command that equals it back |
| Agent.EqualsTransitive | ambari-server/src/main/java/org/apache/ambari/server/agent/ExecutionCommand.java:42-48 | equality is transitive |
| Agent.EqualCommandsHashAlike | ambari-server/src/main/java/org/apache/ambari/server/agent/ExecutionCommand.java:50-54 | equal commands have equal hash codes, whatever the string hash |
| Agent.SetManifestScenario | ambari-server/src/main/java/org/apache/ambari/server/agent/ExecutionCommand.java:31-48 | two distinct commands given one manifest report it, are equal both ways and hash alike |

## Left out

- The provider implementation is not part of this model. This covers `AbstractResourceProvider`, `ClusterResourceProvider`, `ServiceResourceProvider`, `PropertyHelper`, `PredicateBuilder` and `AmbariManagementController`. Their behaviour is what the test observes. The six property-id strings (`Clusters/cluster_id`, `ServiceInfo/state`, ...) follow Ambari's naming, but their declarations are not part of this model. Only the `ServiceInfo` category appears in the test itself.
- Backend failures (`BackendError`, `ResourceAlreadyExists`, `ResourceNotFound`) are not modelled: every backend call succeeds. A rejected property id is returned as `UnsupportedProperties` or `Failure` rather than thrown.
- Predicates are limited to equality and AND, which are all the test builds. OR, NOT, comparisons and type-mismatch rules are not modelled.
- Read results, responses and the property maps of a create request are sequences, where Java uses sets. A create request's maps are a `LinkedHashSet` (AbstractResourceProviderTest.java:77 and 304), which drops a map equal to one already added. `CreateRequest(propertySets: seq<PropertyMap>)` keeps both, so two equal maps give two `createCluster` calls where Java makes one. Likewise duplicate responses and hash-set iteration order are not modelled as Java has them.
- The model filters the responses locally. The mocked backend already returns the narrowed set, so the outcome is the same either way. Which layer narrows the results is not modelled.
- The content of the lookup request (`LookupCall`) is the predicate's pinned keys. The test matches it with `anyObject`, so this content is a modelling choice, not a tested fact.
- Providers.ResourceProvider.UpdateResources: an update that finds nothing to change sends no mutation and publishes no event. The same holds for a create with no property maps. The test does not exercise these cases; the model treats zero matches as a legal no-op.
- Providers.ResourceProvider.DeleteResources: a delete is always built from the ids the predicate names, as at AbstractResourceProviderTest.java:250-251, and never looks anything up. So a delete with a null predicate sends one delete with no key values (`DeleteMaps(None)` is one empty map), and one with a non-key predicate sends only the values it pins.
- Providers.ResourceProvider.UpdateResources: the no-lookup rule (the predicate names exactly the primary-key ids) generalises the three update instances of the test; a predicate naming the keys together with other ids looks up.
- Component and configuration providers are not modelled, because no test drives them. Only their request records and matchers are modelled.
- EasyMock (`createMock`, `replay`, `verify`, `reportMatcher`) is not modelled. Expectations are stated as postconditions on the call log, and the mocked responses are inputs.
- Java's dynamic `Object` typing and `instanceof` on matcher arguments are not modelled. Arguments are typed, and property values are the tagged `Value` datatype.
- Agent.ExecutionCommand.HashCode: Java's `String.hashCode` is a parameter of the function, not its concrete 32-bit value.
- Agent.ExecutionCommand.SetManifest: a null manifest is not modelled, so the `NullPointerException` that `equals` and `hashCode` would then throw is not modelled either.
- The JAXB annotations and the `AgentCommand` superclass of `ExecutionCommand` are not modelled; the superclass is not part of this model.
- `TestObserver.getLastEvent` only reads the field (`Events.TestObserver.GetLastEvent`), so it has no contract of its own.
- Thread safety of the observer list is not modelled.
- The schema-migration test `UpgradeCatalog200Test` is not modelled; it holds no provider logic.
