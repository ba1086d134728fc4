/**
 * The provider tests as scenarios: each method runs one test's calls against a
 * fresh provider and states, as its postcondition, what the test asserts. The
 * lemmas beside them work out the backend calls and read results the scenarios
 * rely on. Backend lookups answer with the responses the test's mock returns.
 * testCheckPropertyIds works on the id check alone and is the lemma
 * PropertyIds.CheckPropertyIdsExamples.
 */
module ProviderTests {
  import opened Wrappers
  import opened PropertyIds
  import opened Resources
  import opened Predicates
  import opened Requests
  import opened Events
  import opened Providers

  const ClusterByName: PropertyMap :=
    map[ClusterNamePropertyId := Str("Cluster100"), ClusterVersionPropertyId := Str("HDP-0.1")]
  const ClusterById: PropertyMap :=
    map[ClusterIdPropertyId := Int(99), ClusterVersionPropertyId := Str("HDP-0.1")]

  /** testCreateClusterResources: one create per map, missing keys null, then a Create event with the request. */
  method CreateClusterResourcesScenario() returns (log: seq<BackendCall>, last: Option<ResourceProviderEvent>)
    ensures log == [
      ClusterCall(Create, ClusterRequest(None, Some("Cluster100"), Some("HDP-0.1"), None)),
      ClusterCall(Create, ClusterRequest(Some(99), None, Some("HDP-0.1"), None))]
    ensures last == Some(ResourceProviderEvent(Cluster, Create, Some(CreateRequest([ClusterByName, ClusterById])), None))
  {
    var provider := new ResourceProvider(Cluster, PropertyIdsOf(Cluster));
    var observer := new TestObserver();
    provider.AddObserver(observer);
    var request := [ClusterByName, ClusterById];
    assert KeysOf(request) <= PropertyIdsOf(Cluster);
    RegisteredIdsSupported(PropertyIdsOf(Cluster), KeysOf(request));
    var status := provider.CreateResources(request);
    ClusterCallsOnePerMap(Create, request);
    log := provider.calls;
    last := observer.lastEvent;
  }

  /** A cluster resource carrying an id and a name. */
  function ClusterResource(id: int, name: string): Resource
  {
    Resource(Cluster, map[ClusterIdPropertyId := Int(id), ClusterNamePropertyId := Str(name)])
  }

  const AllClusters: seq<Response> := [
    ClusterResponse(100, "Cluster100", None), ClusterResponse(101, "Cluster101", None),
    ClusterResponse(102, "Cluster102", None), ClusterResponse(103, "Cluster103", None),
    ClusterResponse(104, "Cluster104", None)]

  /** A cluster read asking for id and name returns exactly the response's id and name. */
  lemma ReadClusterIdAndName(id: int, name: string, requested: set<string>)
    requires {ClusterIdPropertyId, ClusterNamePropertyId} <= requested
    ensures Projected(ToResource(ClusterResponse(id, name, None)), requested) == ClusterResource(id, name)
  {
    var p := Projected(ToResource(ClusterResponse(id, name, None)), requested).properties;
    assert p.Keys == ClusterResource(id, name).properties.Keys;
  }

  /** The requested ids of testGetClusterResources. */
  const ClusterIdAndName: set<string> := {ClusterIdPropertyId, ClusterNamePropertyId}

  /** Reading clusters without a predicate returns each response's id and name, in order. */
  lemma ReadAllClusters(responses: seq<Response>)
    requires forall k :: 0 <= k < |responses| ==> responses[k].ClusterResponse? && responses[k].stackVersion.None?
    ensures |ReadResources(responses, ClusterIdAndName, None)| == |responses|
    ensures forall k :: 0 <= k < |responses| ==>
      ReadResources(responses, ClusterIdAndName, None)[k] == ClusterResource(responses[k].clusterId, responses[k].clusterName)
  {
    ReadWithoutPredicate(responses, ClusterIdAndName);
    forall k | 0 <= k < |responses|
      ensures ReadResources(responses, ClusterIdAndName, None)[k]
        == ClusterResource(responses[k].clusterId, responses[k].clusterName)
    {
      ReadClusterIdAndName(responses[k].clusterId, responses[k].clusterName, ClusterIdAndName);
    }
  }

  /** Reading one response that satisfies the predicate returns that cluster. */
  lemma ReadOneCluster(id: int, name: string, pred: Predicate)
    requires Evaluate(pred, ToResource(ClusterResponse(id, name, None)).properties)
    ensures ReadResources([ClusterResponse(id, name, None)], ClusterIdAndName, Some(pred)) == [ClusterResource(id, name)]
  {
    var rs := ToResources([ClusterResponse(id, name, None)]);
    assert Filter(rs, Some(pred)) == [rs[0]];
    ReadClusterIdAndName(id, name, ClusterIdAndName + PredicateIds(Some(pred)));
  }

  /** The three reads of testGetClusterResources pass the id check and return the expected clusters. */
  lemma ClusterReadResults()
    ensures CheckPropertyIds(PropertyIdsOf(Cluster), ClusterIdAndName + PredicateIds(None)) == {}
    ensures CheckPropertyIds(PropertyIdsOf(Cluster), ClusterIdAndName + PredicateIds(Some(NameIsCluster102))) == {}
    ensures CheckPropertyIds(PropertyIdsOf(Cluster), ClusterIdAndName + PredicateIds(Some(IdIs103))) == {}
    ensures |ReadResources(AllClusters, ClusterIdAndName, None)| == 5
    ensures forall k :: 0 <= k < 5 ==>
      ReadResources(AllClusters, ClusterIdAndName, None)[k] == ClusterResource(AllClusters[k].clusterId, AllClusters[k].clusterName)
    ensures ReadResources([ClusterResponse(102, "Cluster102", None)], ClusterIdAndName, Some(NameIsCluster102))
      == [ClusterResource(102, "Cluster102")]
    ensures ReadResources([ClusterResponse(103, "Cluster103", None)], ClusterIdAndName, Some(IdIs103))
      == [ClusterResource(103, "Cluster103")]
  {
    ReadAllClusters(AllClusters);
    RegisteredIdsSupported(PropertyIdsOf(Cluster), ClusterIdAndName);
    assert ClusterIdAndName + PredicateIds(Some(NameIsCluster102)) == ClusterIdAndName;
    assert ClusterIdAndName + PredicateIds(Some(IdIs103)) == ClusterIdAndName;
    ReadOneCluster(102, "Cluster102", NameIsCluster102);
    ReadOneCluster(103, "Cluster103", IdIs103);
  }

  /** The lookups the three reads of testGetClusterResources send: no key, then the name, then the id. */
  lemma ClusterReadLookups()
    ensures LookupCall(Cluster, None) == ClusterLookup({ClusterRequest(None, None, None, None)})
    ensures LookupCall(Cluster, Some(NameIsCluster102)) == ClusterLookup({ClusterRequest(None, Some("Cluster102"), None, None)})
    ensures LookupCall(Cluster, Some(IdIs103)) == ClusterLookup({ClusterRequest(Some(103), None, None, None)})
  {
  }

  /** Three calls appended to an empty log are the log, in order. */
  lemma LogOfThree(a: BackendCall, b: BackendCall, c: BackendCall)
    ensures [] + [a] + [b] + [c] == [a, b, c]
  {
  }

  /**
   * testGetClusterResources: without a predicate all five clusters come back with
   * matching id and name; name == "Cluster102" and id == 103 each select one cluster.
   * The backend is asked exactly three times, once per read.
   */
  method GetClusterResourcesScenario() returns (all: seq<Resource>, byName: seq<Resource>, byId: seq<Resource>, log: seq<BackendCall>)
    ensures log == [LookupCall(Cluster, None), LookupCall(Cluster, Some(NameIsCluster102)), LookupCall(Cluster, Some(IdIs103))]
    ensures log == [
      ClusterLookup({ClusterRequest(None, None, None, None)}),
      ClusterLookup({ClusterRequest(None, Some("Cluster102"), None, None)}),
      ClusterLookup({ClusterRequest(Some(103), None, None, None)})]
    ensures |all| == 5
    ensures forall k :: 0 <= k < 5 ==> all[k] == ClusterResource(AllClusters[k].clusterId, AllClusters[k].clusterName)
    ensures byName == [ClusterResource(102, "Cluster102")]
    ensures byId == [ClusterResource(103, "Cluster103")]
  {
    ClusterReadResults();
    ClusterReadLookups();
    var provider := new ResourceProvider(Cluster, PropertyIdsOf(Cluster));
    var result := provider.GetResources(ClusterIdAndName, None, AllClusters);
    all := result.value;
    result := provider.GetResources(ClusterIdAndName, Some(NameIsCluster102), [ClusterResponse(102, "Cluster102", None)]);
    byName := result.value;
    result := provider.GetResources(ClusterIdAndName, Some(IdIs103), [ClusterResponse(103, "Cluster103", None)]);
    byId := result.value;
    log := provider.calls;
    LogOfThree(LookupCall(Cluster, None), LookupCall(Cluster, Some(NameIsCluster102)), LookupCall(Cluster, Some(IdIs103)));
  }

  const NewVersion: PropertyMap := map[ClusterVersionPropertyId := Str("HDP-0.1")]

  /** The two update predicates of testUpdateClusterResources. */
  const NameIsCluster102: Predicate := Equals(ClusterNamePropertyId, Str("Cluster102"))
  const IdIs103: Predicate := Equals(ClusterIdPropertyId, Int(103))

  /** Updating the cluster named Cluster102 looks it up, then updates it by id and name with the new version. */
  lemma UpdateByNameCalls()
    ensures CheckPropertyIds(PropertyIdsOf(Cluster), NewVersion.Keys + PredicateIds(Some(NameIsCluster102))) == {}
    ensures UpdateMaps(Cluster, NewVersion, Some(NameIsCluster102), [ClusterResponse(102, "Cluster102", None)]) != []
    ensures UpdateCalls(Cluster, NewVersion, Some(NameIsCluster102), [ClusterResponse(102, "Cluster102", None)]) == [
      ClusterLookup({ClusterRequest(None, Some("Cluster102"), None, None)}),
      ClusterCall(Update, ClusterRequest(Some(102), Some("Cluster102"), Some("HDP-0.1"), None))]
  {
    var pred := Some(NameIsCluster102);
    var responses := [ClusterResponse(102, "Cluster102", None)];
    RegisteredIdsSupported(PropertyIdsOf(Cluster), NewVersion.Keys + PredicateIds(pred));
    assert NeedsLookup(Cluster, pred);
    assert Filter(ToResources(responses), pred) == ToResources(responses);
    MergedClusterRequest(responses[0], NewVersion);
  }

  /**
   * Renaming the cluster found by name sends its id and the new name, and not the
   * stack version the backend reported for it.
   */
  lemma RenameSendsNoOldVersion()
    ensures UpdateCalls(Cluster, map[ClusterNamePropertyId := Str("New")], Some(NameIsCluster102),
      [ClusterResponse(102, "Cluster102", Some("HDP-0.0"))]) == [
      ClusterLookup({ClusterRequest(None, Some("Cluster102"), None, None)}),
      ClusterCall(Update, ClusterRequest(Some(102), Some("New"), None, None))]
  {
    var properties := map[ClusterNamePropertyId := Str("New")];
    var pred := Some(NameIsCluster102);
    var responses := [ClusterResponse(102, "Cluster102", Some("HDP-0.0"))];
    assert NeedsLookup(Cluster, pred);
    assert Filter(ToResources(responses), pred) == ToResources(responses);
    UpdateClusterCallsByLookup(properties, pred, responses);
    var merged := IdentifyingEntries(Cluster, ToResource(responses[0]).properties) + properties;
    assert merged == map[ClusterIdPropertyId := Int(102), ClusterNamePropertyId := Str("New")];
  }

  /** Updating the cluster with id 103 sends one update carrying that id and the new version, without a lookup. */
  lemma UpdateByIdCalls()
    ensures CheckPropertyIds(PropertyIdsOf(Cluster), NewVersion.Keys + PredicateIds(Some(IdIs103))) == {}
    ensures UpdateMaps(Cluster, NewVersion, Some(IdIs103), []) != []
    ensures UpdateCalls(Cluster, NewVersion, Some(IdIs103), []) == [
      ClusterCall(Update, ClusterRequest(Some(103), None, Some("HDP-0.1"), None))]
  {
    RegisteredIdsSupported(PropertyIdsOf(Cluster), NewVersion.Keys + PredicateIds(Some(IdIs103)));
    UpdateClusterByKey(NewVersion, Some(IdIs103), []);
  }

  /**
   * testUpdateClusterResources: name == "Cluster102" is looked up once and updated
   * with its id and name; id == 103 is updated directly; the last event is that
   * Update, with the request and the predicate.
   */
  method UpdateClusterResourcesScenario() returns (log: seq<BackendCall>, last: Option<ResourceProviderEvent>)
    ensures log == [
      ClusterLookup({ClusterRequest(None, Some("Cluster102"), None, None)}),
      ClusterCall(Update, ClusterRequest(Some(102), Some("Cluster102"), Some("HDP-0.1"), None)),
      ClusterCall(Update, ClusterRequest(Some(103), None, Some("HDP-0.1"), None))]
    ensures last == Some(ResourceProviderEvent(Cluster, Update, Some(UpdateRequest(NewVersion)), Some(IdIs103)))
  {
    UpdateByNameCalls();
    UpdateByIdCalls();
    var provider := new ResourceProvider(Cluster, PropertyIdsOf(Cluster));
    var observer := new TestObserver();
    provider.AddObserver(observer);
    var status := provider.UpdateResources(NewVersion, Some(NameIsCluster102), [ClusterResponse(102, "Cluster102", None)]);
    status := provider.UpdateResources(NewVersion, Some(IdIs103), []);
    log := provider.calls;
    last := observer.lastEvent;
  }

  /**
   * testDeleteClusterResources: each delete sends only the key its predicate pins;
   * the last event is that Delete, with the predicate and no request.
   */
  method DeleteClusterResourcesScenario() returns (log: seq<BackendCall>, last: Option<ResourceProviderEvent>)
    ensures log == [
      ClusterCall(Delete, ClusterRequest(None, Some("Cluster102"), None, None)),
      ClusterCall(Delete, ClusterRequest(Some(103), None, None, None))]
    ensures last == Some(ResourceProviderEvent(Cluster, Delete, None, Some(Equals(ClusterIdPropertyId, Int(103)))))
  {
    var provider := new ResourceProvider(Cluster, PropertyIdsOf(Cluster));
    var observer := new TestObserver();
    provider.AddObserver(observer);

    var byName := Some(Equals(ClusterNamePropertyId, Str("Cluster102")));
    RegisteredIdsSupported(PropertyIdsOf(Cluster), PredicateIds(byName));
    var status := provider.DeleteResources(byName);
    DeleteClusterPinned(byName);

    var byId := Some(Equals(ClusterIdPropertyId, Int(103)));
    RegisteredIdsSupported(PropertyIdsOf(Cluster), PredicateIds(byId));
    status := provider.DeleteResources(byId);
    DeleteClusterPinned(byId);

    log := provider.calls;
    last := observer.lastEvent;
  }

  const NewService: PropertyMap := map[
    ServiceClusterNamePropertyId := Str("Cluster100"),
    ServiceServiceNamePropertyId := Str("Service100"),
    ServiceServiceStatePropertyId := Str("DEPLOYED")]

  /** The new service passes the id check and is sent as a set holding exactly its request. */
  lemma CreateServiceCalls()
    ensures CheckPropertyIds(PropertyIdsOf(Service), KeysOf([NewService])) == {}
    ensures MutationCalls(Service, Create, [NewService])
      == [ServiceCall(Create, {ServiceRequest(Some("Cluster100"), Some("Service100"), None, Some("DEPLOYED"))})]
  {
    assert KeysOf([NewService]) <= PropertyIdsOf(Service);
    RegisteredIdsSupported(PropertyIdsOf(Service), KeysOf([NewService]));
    ServiceMutationSendsOneRequest(Create, NewService);
    assert ToServiceRequest(NewService) == ServiceRequest(Some("Cluster100"), Some("Service100"), None, Some("DEPLOYED"));
  }

  /** testCreateServiceResources: one createServices call with a set of exactly the one expected request. */
  method CreateServiceResourcesScenario() returns (log: seq<BackendCall>)
    ensures |log| == 1 && log[0].ServiceCall? && log[0].op == Create
    ensures ServiceRequestSetMatches(ServiceRequest(Some("Cluster100"), Some("Service100"), None, Some("DEPLOYED")), log[0].services)
  {
    CreateServiceCalls();
    var provider := new ResourceProvider(Service, PropertyIdsOf(Service));
    var status := provider.CreateResources([NewService]);
    log := provider.calls;
  }

  /**
   * testUpdateServiceResources: a predicate on cluster and service name pins the
   * whole key, so one updateServices call is made and nothing is looked up.
   */
  method UpdateServiceResourcesScenario() returns (log: seq<BackendCall>)
    ensures log == [ServiceCall(Update, {ServiceRequest(Some("Cluster100"), Some("Service102"), None, Some("DEPLOYED"))})]
  {
    ServiceReadLookups();
    var provider := new ResourceProvider(Service, PropertyIdsOf(Service));
    var properties := map[ServiceServiceStatePropertyId := Str("DEPLOYED")];
    var pred := Some(And(
      Equals(ServiceClusterNamePropertyId, Str("Cluster100")),
      Equals(ServiceServiceNamePropertyId, Str("Service102"))));
    RegisteredIdsSupported(PropertyIdsOf(Service), properties.Keys + PredicateIds(pred));
    assert !NeedsLookup(Service, pred);
    var status := provider.UpdateResources(properties, pred, []);
    ServiceMutationSendsOneRequest(Update, PinnedProperties(pred) + properties);
    log := provider.calls;
  }

  /** The requested ids of testGetServiceResources. */
  const ServiceKey: set<string> := {ServiceClusterNamePropertyId, ServiceServiceNamePropertyId}

  /** A deployed service of cluster Cluster100, as the backend reports it. */
  function DeployedService(name: string): Response
  {
    ServiceResponse(100, "Cluster100", name, "HDP-0.1", "DEPLOYED")
  }

  /** Deployed services of Cluster100 with the given names, in order. */
  function DeployedServices(names: seq<string>): (responses: seq<Response>)
    ensures |responses| == |names|
    ensures forall k :: 0 <= k < |names| ==> responses[k] == DeployedService(names[k])
  {
    seq(|names|, k requires 0 <= k < |names| => DeployedService(names[k]))
  }

  const AllServiceNames: seq<string> := ["Service100", "Service101", "Service102", "Service103", "Service104"]

  const DeployedServiceNames: seq<string> := ["Service100", "Service102", "Service104"]

  /** The predicate state == "DEPLOYED". */
  const IsDeployed: Predicate := Equals(ServiceServiceStatePropertyId, Str("DEPLOYED"))

  /** A service read asking for both key ids, or for the whole ServiceInfo category, carries the response's cluster and service name. */
  lemma ReadServiceKey(response: Response, requested: set<string>)
    requires response.ServiceResponse?
    requires ServiceKey <= requested || "ServiceInfo" in requested
    ensures var p := Projected(ToResource(response), requested).properties;
      && ServiceClusterNamePropertyId in p && p[ServiceClusterNamePropertyId] == Str(response.clusterName)
      && ServiceServiceNamePropertyId in p && p[ServiceServiceNamePropertyId] == Str(response.serviceName)
  {
    assert IsCategoryOf("ServiceInfo", ServiceClusterNamePropertyId);
    assert IsCategoryOf("ServiceInfo", ServiceServiceNamePropertyId);
  }

  /** A read whose predicate every response satisfies returns one resource per response, each with its cluster and service name. */
  lemma ReadAllServices(responses: seq<Response>, requested: set<string>, pred: Option<Predicate>)
    requires forall k :: 0 <= k < |responses| ==> responses[k].ServiceResponse?
    requires forall k :: 0 <= k < |responses| ==> Matches(pred, ToResource(responses[k]).properties)
    requires (ServiceKey <= requested || "ServiceInfo" in requested)
    ensures var out := ReadResources(responses, requested, pred);
      && |out| == |responses|
      && forall k :: 0 <= k < |responses| ==>
        && ServiceClusterNamePropertyId in out[k].properties
        && out[k].properties[ServiceClusterNamePropertyId] == Str(responses[k].clusterName)
        && ServiceServiceNamePropertyId in out[k].properties
        && out[k].properties[ServiceServiceNamePropertyId] == Str(responses[k].serviceName)
  {
    var rs := ToResources(responses);
    FilterAllMatch(rs, pred);
    forall k | 0 <= k < |responses|
      ensures var p := Projected(ToResource(responses[k]), requested + PredicateIds(pred)).properties;
        && ServiceClusterNamePropertyId in p && p[ServiceClusterNamePropertyId] == Str(responses[k].clusterName)
        && ServiceServiceNamePropertyId in p && p[ServiceServiceNamePropertyId] == Str(responses[k].serviceName)
    {
      ReadServiceKey(responses[k], requested + PredicateIds(pred));
    }
  }

  /** Reading deployed services, with no predicate or with state == "DEPLOYED", returns each one's cluster and name. */
  lemma ReadDeployedServices(names: seq<string>, requested: set<string>, pred: Option<Predicate>)
    requires pred == None || pred == Some(IsDeployed)
    requires ServiceKey <= requested
    ensures var out := ReadResources(DeployedServices(names), requested, pred);
      && |out| == |names|
      && forall k :: 0 <= k < |names| ==>
        && ServiceClusterNamePropertyId in out[k].properties
        && out[k].properties[ServiceClusterNamePropertyId] == Str("Cluster100")
        && ServiceServiceNamePropertyId in out[k].properties
        && out[k].properties[ServiceServiceNamePropertyId] == Str(names[k])
  {
    var responses := DeployedServices(names);
    forall k | 0 <= k < |responses|
      ensures Matches(pred, ToResource(responses[k]).properties)
    {
      assert ToResource(responses[k]).properties[ServiceServiceStatePropertyId] == Str("DEPLOYED");
    }
    ReadAllServices(responses, requested, pred);
  }

  /** The lookups the three reads of testGetServiceResources send: no key, then the service name, then the state. */
  lemma ServiceReadLookups()
    ensures LookupCall(Service, None) == ServiceLookup({ServiceRequest(None, None, None, None)})
    ensures LookupCall(Service, Some(Equals(ServiceServiceNamePropertyId, Str("Service102"))))
      == ServiceLookup({ServiceRequest(None, Some("Service102"), None, None)})
    ensures LookupCall(Service, Some(IsDeployed)) == ServiceLookup({ServiceRequest(None, None, None, Some("DEPLOYED"))})
  {
  }

  /**
   * testGetServiceResources: without a predicate all five services of Cluster100
   * come back; asking for the ServiceInfo category with name == "Service102" gives
   * that service; state == "DEPLOYED" keeps the three deployed services. The
   * backend is asked exactly three times, once per read.
   */
  method GetServiceResourcesScenario() returns (all: seq<Resource>, byName: seq<Resource>, byState: seq<Resource>, log: seq<BackendCall>)
    ensures log == [
      LookupCall(Service, None),
      LookupCall(Service, Some(Equals(ServiceServiceNamePropertyId, Str("Service102")))),
      LookupCall(Service, Some(IsDeployed))]
    ensures log == [
      ServiceLookup({ServiceRequest(None, None, None, None)}),
      ServiceLookup({ServiceRequest(None, Some("Service102"), None, None)}),
      ServiceLookup({ServiceRequest(None, None, None, Some("DEPLOYED"))})]
    ensures |all| == 5
    ensures forall k :: 0 <= k < 5 ==>
      && ServiceClusterNamePropertyId in all[k].properties
      && all[k].properties[ServiceClusterNamePropertyId] == Str("Cluster100")
      && ServiceServiceNamePropertyId in all[k].properties
      && all[k].properties[ServiceServiceNamePropertyId] == Str(AllServiceNames[k])
    ensures |byName| == 1
    ensures ServiceServiceNamePropertyId in byName[0].properties
    ensures byName[0].properties[ServiceServiceNamePropertyId] == Str("Service102")
    ensures |byState| == 3
    ensures forall k :: 0 <= k < 3 ==>
      && ServiceClusterNamePropertyId in byState[k].properties
      && byState[k].properties[ServiceClusterNamePropertyId] == Str("Cluster100")
      && ServiceServiceNamePropertyId in byState[k].properties
      && byState[k].properties[ServiceServiceNamePropertyId] == Str(DeployedServiceNames[k])
  {
    ServiceReadLookups();
    var provider := new ResourceProvider(Service, PropertyIdsOf(Service));
    RegisteredIdsSupported(PropertyIdsOf(Service), ServiceKey);
    var result := provider.GetResources(ServiceKey, None, DeployedServices(AllServiceNames));
    ReadDeployedServices(AllServiceNames, ServiceKey, None);
    all := result.value;

    var byNamePredicate := Some(Equals(ServiceServiceNamePropertyId, Str("Service102")));
    var nameResponse := DeployedServices(["Service102"]);
    ServiceInfoSupported();
    result := provider.GetResources({"ServiceInfo"}, byNamePredicate, nameResponse);
    ReadServiceByName(nameResponse[0]);
    byName := result.value;

    RegisteredIdsSupported(PropertyIdsOf(Service), ServiceKey + PredicateIds(Some(IsDeployed)));
    result := provider.GetResources(ServiceKey, Some(IsDeployed), DeployedServices(DeployedServiceNames));
    ReadDeployedServices(DeployedServiceNames, ServiceKey, Some(IsDeployed));
    byState := result.value;
    log := provider.calls;
    LogOfThree(LookupCall(Service, None), LookupCall(Service, byNamePredicate), LookupCall(Service, Some(IsDeployed)));
  }

  /** Asking for the ServiceInfo category of the one service named Service102 returns that service with its name. */
  lemma ReadServiceByName(response: Response)
    requires response == DeployedService("Service102")
    ensures var out := ReadResources([response], {"ServiceInfo"}, Some(Equals(ServiceServiceNamePropertyId, Str("Service102"))));
      && |out| == 1
      && ServiceServiceNamePropertyId in out[0].properties
      && out[0].properties[ServiceServiceNamePropertyId] == Str("Service102")
  {
    ReadAllServices([response], {"ServiceInfo"}, Some(Equals(ServiceServiceNamePropertyId, Str("Service102"))));
  }

  /** The ServiceInfo category, with the service name, passes the property id check. */
  lemma ServiceInfoSupported()
    ensures CheckPropertyIds(PropertyIdsOf(Service), {"ServiceInfo", ServiceServiceNamePropertyId}) == {}
  {
    assert IsCategoryOf("ServiceInfo", ServiceServiceNamePropertyId);
    assert Supported(PropertyIdsOf(Service), "ServiceInfo");
    assert Supported(PropertyIdsOf(Service), ServiceServiceNamePropertyId);
  }

  /** The registered ids of testGetPropertyIds. */
  const ReportedPropertyIds: set<string> :=
    {"p1", "foo", "cat1/foo", "cat2/bar", "cat2/baz", "cat3/sub1/bam", "cat4/sub2/sub3/bat"}

  /** testGetPropertyIds: a service provider reports every id it was created with. */
  method GetPropertyIdsScenario() returns (supported: set<string>)
    ensures ReportedPropertyIds <= supported
  {
    var provider := new ResourceProvider(Service, ReportedPropertyIds);
    supported := provider.GetPropertyIds();
  }
}
