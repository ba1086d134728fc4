/**
 * The resource provider: checks property ids, turns property maps and
 * predicates into backend request records, records every backend call in an
 * append-only log, and publishes an event to its observers after each
 * mutating call.
 */
module Providers {
  import opened Wrappers
  import opened PropertyIds
  import opened Resources
  import opened Predicates
  import opened Requests
  import opened Events

  /** One call made to the backend (AmbariManagementController). */
  datatype BackendCall =
    | ClusterCall(op: EventType, cluster: ClusterRequest)          // createCluster, updateCluster, deleteCluster
    | ClusterLookup(clusters: set<ClusterRequest>)                 // getClusters
    | ServiceCall(op: EventType, services: set<ServiceRequest>)   // createServices, updateServices, deleteServices
    | ServiceLookup(services: set<ServiceRequest>)                 // getServices

  /** A mutating call either goes through or is refused for the property ids it does not support. */
  datatype Status = Accepted | UnsupportedProperties(ids: set<string>)

  function StatusOf(unsupported: set<string>): Status
  {
    if unsupported == {} then Accepted else UnsupportedProperties(unsupported)
  }

  /** Every property id used in any of the maps. */
  function KeysOf(maps: seq<PropertyMap>): (ids: set<string>)
    ensures forall id :: id in ids <==> exists k :: 0 <= k < |maps| && id in maps[k]
  {
    if maps == [] then {}
    else
      var ids := KeysOf(maps[..|maps| - 1]) + maps[|maps| - 1].Keys;
      assert forall k :: 0 <= k < |maps| - 1 ==> maps[..|maps| - 1][k] == maps[k];
      ids
  }

  // ----- backend calls for mutations -----

  /** One cluster call per property map, in order. */
  function ClusterCalls(op: EventType, maps: seq<PropertyMap>): seq<BackendCall>
  {
    if maps == [] then []
    else ClusterCalls(op, maps[..|maps| - 1]) + [ClusterCall(op, ToClusterRequest(maps[|maps| - 1]))]
  }

  /** The k-th cluster call carries the request built from the k-th property map. */
  lemma {:induction false} ClusterCallsOnePerMap(op: EventType, maps: seq<PropertyMap>)
    ensures |ClusterCalls(op, maps)| == |maps|
    ensures forall k :: 0 <= k < |maps| ==> ClusterCalls(op, maps)[k] == ClusterCall(op, ToClusterRequest(maps[k]))
  {
    if maps != [] {
      var front := maps[..|maps| - 1];
      ClusterCallsOnePerMap(op, front);
      assert forall k :: 0 <= k < |front| ==> front[k] == maps[k];
    }
  }

  /** The set of service requests built from the property maps. */
  function ServiceRequests(maps: seq<PropertyMap>): (requests: set<ServiceRequest>)
    ensures forall r :: r in requests <==> exists k :: 0 <= k < |maps| && r == ToServiceRequest(maps[k])
  {
    if maps == [] then {}
    else
      var requests := ServiceRequests(maps[..|maps| - 1]) + {ToServiceRequest(maps[|maps| - 1])};
      assert forall k :: 0 <= k < |maps| - 1 ==> maps[..|maps| - 1][k] == maps[k];
      requests
  }

  /**
   * The backend calls one mutation makes: clusters one call per map, services one
   * call carrying the whole set; nothing at all when there is no map to send.
   */
  function MutationCalls(t: ResourceType, op: EventType, maps: seq<PropertyMap>): (calls: seq<BackendCall>)
    ensures maps == [] ==> calls == []
    ensures t == Cluster ==> |calls| == |maps|
    ensures t == Service && maps != [] ==> |calls| == 1
    ensures forall c :: c in calls ==> (c.ClusterCall? || c.ServiceCall?) && c.op == op
  {
    if maps == [] then []
    else match t
      case Cluster => ClusterCallsOnePerMap(op, maps); ClusterCalls(op, maps)
      case Service => [ServiceCall(op, ServiceRequests(maps))]
  }

  /** A service mutation of one property map sends a set holding exactly that map's request. */
  lemma ServiceMutationSendsOneRequest(op: EventType, m: PropertyMap)
    ensures MutationCalls(Service, op, [m]) == [ServiceCall(op, {ToServiceRequest(m)})]
    ensures ServiceRequestSetMatches(ToServiceRequest(m), MutationCalls(Service, op, [m])[0].services)
  {
    assert ServiceRequests([m]) == {ToServiceRequest(m)};
  }

  // ----- reads -----

  /** The lookup a read or an update sends: one request holding the predicate's pinned key values. */
  function LookupCall(t: ResourceType, pred: Option<Predicate>): BackendCall
  {
    match t
    case Cluster => ClusterLookup({ToClusterRequest(PinnedProperties(pred))})
    case Service => ServiceLookup({ToServiceRequest(PinnedProperties(pred))})
  }

  /** A cluster lookup carries one request whose key fields are exactly the ones the predicate pins. */
  lemma ClusterLookupCarriesPinnedKeys(pred: Option<Predicate>)
    ensures LookupCall(Cluster, pred).ClusterLookup? && |LookupCall(Cluster, pred).clusters| == 1
    ensures forall r :: r in LookupCall(Cluster, pred).clusters ==>
      ClusterRequestProperties(r) == ClusterKeyPart(PinnedProperties(pred))
  {
    ClusterPropertiesRoundTrip(PinnedProperties(pred));
  }

  /** A service lookup carries one request whose key fields are exactly the ones the predicate pins. */
  lemma ServiceLookupCarriesPinnedKeys(pred: Option<Predicate>)
    ensures LookupCall(Service, pred).ServiceLookup? && |LookupCall(Service, pred).services| == 1
    ensures forall r :: r in LookupCall(Service, pred).services ==>
      ServiceRequestProperties(r) == ServiceKeyPart(PinnedProperties(pred))
  {
    ServicePropertiesRoundTrip(PinnedProperties(pred));
  }

  /** One resource per backend response, in order. */
  function ToResources(responses: seq<Response>): (rs: seq<Resource>)
    ensures |rs| == |responses|
    ensures forall k :: 0 <= k < |rs| ==> rs[k] == ToResource(responses[k])
  {
    seq(|responses|, k requires 0 <= k < |responses| => ToResource(responses[k]))
  }

  /** A resource cut down to the properties a read asks for. */
  function Projected(r: Resource, requested: set<string>): Resource
  {
    Resource(r.resourceType, Project(r.properties, requested))
  }

  /** Each resource cut down to the requested properties, in order. */
  function ProjectAll(rs: seq<Resource>, requested: set<string>): (out: seq<Resource>)
    ensures |out| == |rs|
    ensures forall k :: 0 <= k < |rs| ==> out[k] == Projected(rs[k], requested)
  {
    if rs == [] then [] else [Projected(rs[0], requested)] + ProjectAll(rs[1..], requested)
  }

  /** What a read returns: the backend's entities the predicate keeps, each with the requested and predicate properties. */
  function ReadResources(responses: seq<Response>, requested: set<string>, pred: Option<Predicate>): (out: seq<Resource>)
    ensures |out| <= |responses|
    ensures forall r :: r in out ==> exists k :: (0 <= k < |responses|
      && Matches(pred, ToResource(responses[k]).properties)
      && r == Projected(ToResource(responses[k]), requested + PredicateIds(pred)))
  {
    ProjectAll(Filter(ToResources(responses), pred), requested + PredicateIds(pred))
  }

  /** With a null predicate a read returns one resource per response, carrying that response's requested properties. */
  lemma ReadWithoutPredicate(responses: seq<Response>, requested: set<string>)
    ensures |ReadResources(responses, requested, None)| == |responses|
    ensures forall k :: 0 <= k < |responses| ==>
      ReadResources(responses, requested, None)[k] == Projected(ToResource(responses[k]), requested)
  {
    FilterNull(ToResources(responses));
  }

  /**
   * An equality predicate yields exactly the responses whose property equals the
   * value, and every returned resource carries that property with that value.
   */
  lemma ReadWithEquality(responses: seq<Response>, requested: set<string>, id: string, v: Value, r: Resource)
    ensures r in ReadResources(responses, requested, Some(Equals(id, v))) <==>
      exists k :: 0 <= k < |responses|
        && id in ToResource(responses[k]).properties && ToResource(responses[k]).properties[id] == v
        && r == Projected(ToResource(responses[k]), requested + {id})
    ensures r in ReadResources(responses, requested, Some(Equals(id, v))) ==>
      id in r.properties && r.properties[id] == v
  {
    var pred := Some(Equals(id, v));
    if exists k :: 0 <= k < |responses|
        && id in ToResource(responses[k]).properties && ToResource(responses[k]).properties[id] == v
        && r == Projected(ToResource(responses[k]), requested + {id})
    {
      var k :| 0 <= k < |responses|
        && id in ToResource(responses[k]).properties && ToResource(responses[k]).properties[id] == v
        && r == Projected(ToResource(responses[k]), requested + {id});
      ReadKeepsEveryMatch(responses, requested, pred, k);
    }
  }

  /** A read misses nothing: every response the predicate keeps is returned, cut down to the requested and predicate properties. */
  lemma ReadKeepsEveryMatch(responses: seq<Response>, requested: set<string>, pred: Option<Predicate>, k: nat)
    requires k < |responses|
    requires Matches(pred, ToResource(responses[k]).properties)
    ensures Projected(ToResource(responses[k]), requested + PredicateIds(pred)) in ReadResources(responses, requested, pred)
  {
    var all := ToResources(responses);
    var kept := Filter(all, pred);
    assert all[k] in all;
    var j :| 0 <= j < |kept| && kept[j] == all[k];
    assert ReadResources(responses, requested, pred)[j] == Projected(kept[j], requested + PredicateIds(pred));
  }

  // ----- updates and deletes -----

  /**
   * An update must look entities up unless its predicate names exactly the
   * primary-key ids, in which case it pins every key. A null predicate names no
   * id, so it always looks up and applies to every candidate.
   */
  function NeedsLookup(t: ResourceType, pred: Option<Predicate>): (b: bool)
    ensures pred.None? ==> b
    ensures !b ==> PinnedProperties(pred).Keys == PkPropertyIdsOf(t)
  {
    PredicateIds(pred) != PkPropertyIdsOf(t)
  }

  /** Each resource's identifying entries with the new values laid over them, in order. */
  function MergeKeys(t: ResourceType, rs: seq<Resource>, properties: PropertyMap): (maps: seq<PropertyMap>)
    ensures |maps| == |rs|
    ensures forall k :: 0 <= k < |rs| ==> maps[k] == IdentifyingEntries(t, rs[k].properties) + properties
  {
    if rs == [] then [] else [IdentifyingEntries(t, rs[0].properties) + properties] + MergeKeys(t, rs[1..], properties)
  }

  /**
   * The property maps an update sends: the predicate's pinned keys with the new
   * values when it pins every primary key, otherwise the identifying entries of
   * each looked-up entity the predicate keeps, with the new values laid over them.
   * Either way no old value other than an identifying one is sent.
   */
  function UpdateMaps(t: ResourceType, properties: PropertyMap, pred: Option<Predicate>, responses: seq<Response>): (maps: seq<PropertyMap>)
    ensures forall k, id :: 0 <= k < |maps| && id in properties ==> id in maps[k] && maps[k][id] == properties[id]
    ensures !NeedsLookup(t, pred) ==> |maps| == 1 && PkPropertyIdsOf(t) <= maps[0].Keys
    ensures NeedsLookup(t, pred) ==> |maps| <= |responses|
    ensures forall k :: 0 <= k < |maps| ==> maps[k].Keys <= IdentifyingPropertyIdsOf(t) + properties.Keys
  {
    if NeedsLookup(t, pred) then
      MergeKeys(t, Filter(ToResources(responses), pred), properties)
    else
      [PinnedProperties(pred) + properties]
  }

  /** The backend calls of an update: the lookup if one is needed, then the mutation. */
  function UpdateCalls(t: ResourceType, properties: PropertyMap, pred: Option<Predicate>, responses: seq<Response>): (calls: seq<BackendCall>)
    ensures NeedsLookup(t, pred) <==> calls != [] && calls[0] == LookupCall(t, pred)
    ensures forall k :: 0 < k < |calls| ==> (calls[k].ClusterCall? || calls[k].ServiceCall?) && calls[k].op == Update
  {
    (if NeedsLookup(t, pred) then [LookupCall(t, pred)] else [])
    + MutationCalls(t, Update, UpdateMaps(t, properties, pred, responses))
  }

  /** A delete sends the predicate's pinned key values, without a lookup. */
  function DeleteMaps(pred: Option<Predicate>): (maps: seq<PropertyMap>)
    ensures |maps| == 1 && maps[0].Keys == PredicateIds(pred)
  {
    [PinnedProperties(pred)]
  }

  /**
   * A cluster update whose predicate pins only the cluster id makes no lookup and
   * one update call, carrying the pinned id and the new values.
   */
  lemma UpdateClusterByKey(properties: PropertyMap, pred: Option<Predicate>, responses: seq<Response>)
    requires !NeedsLookup(Cluster, pred)
    requires ClusterIdPropertyId !in properties
    ensures |UpdateCalls(Cluster, properties, pred, responses)| == 1
    ensures var call := UpdateCalls(Cluster, properties, pred, responses)[0];
      && call.ClusterCall? && call.op == Update
      && call.cluster.clusterId == IntProperty(PinnedProperties(pred), ClusterIdPropertyId)
      && call.cluster.stackVersion == StrProperty(properties, ClusterVersionPropertyId)
  {
    var maps := UpdateMaps(Cluster, properties, pred, responses);
    ClusterCallsOnePerMap(Update, maps);
  }


  /** A looked-up cluster cut down to its identifying entries, with the new version laid over it, becomes a request with its id and name and that version. */
  lemma MergedClusterRequest(response: Response, properties: PropertyMap)
    requires response.ClusterResponse?
    requires properties.Keys == {ClusterVersionPropertyId} && properties[ClusterVersionPropertyId].Str?
    ensures ToClusterRequest(IdentifyingEntries(Cluster, ToResource(response).properties) + properties) == ClusterRequest(
      Some(response.clusterId), Some(response.clusterName), Some(properties[ClusterVersionPropertyId].s), None)
  {
  }

  /** A cluster update that needs a lookup sends the lookup and then one update per entity the predicate keeps. */
  lemma UpdateClusterCallsByLookup(properties: PropertyMap, pred: Option<Predicate>, responses: seq<Response>)
    requires NeedsLookup(Cluster, pred)
    ensures |UpdateCalls(Cluster, properties, pred, responses)| == 1 + |Filter(ToResources(responses), pred)|
    ensures UpdateCalls(Cluster, properties, pred, responses)[0] == LookupCall(Cluster, pred)
    ensures forall k :: 0 <= k < |Filter(ToResources(responses), pred)| ==>
      UpdateCalls(Cluster, properties, pred, responses)[k + 1]
        == ClusterCall(Update, ToClusterRequest(IdentifyingEntries(Cluster, Filter(ToResources(responses), pred)[k].properties) + properties))
  {
    var kept := Filter(ToResources(responses), pred);
    var maps := MergeKeys(Cluster, kept, properties);
    UpdateCallsByLookup(Cluster, properties, pred, responses);
    ClusterCallsOnePerMap(Update, maps);
  }

  /** An update that needs a lookup sends it, then the mutation of the kept entities with the new values merged in. */
  lemma UpdateCallsByLookup(t: ResourceType, properties: PropertyMap, pred: Option<Predicate>, responses: seq<Response>)
    requires NeedsLookup(t, pred)
    ensures UpdateCalls(t, properties, pred, responses)
      == [LookupCall(t, pred)] + MutationCalls(t, Update, MergeKeys(t, Filter(ToResources(responses), pred), properties))
  {
    assert UpdateMaps(t, properties, pred, responses) == MergeKeys(t, Filter(ToResources(responses), pred), properties);
  }

  /**
   * Each update call after a lookup carries the id and name of a backend entity
   * the predicate keeps, together with the new version.
   */
  lemma UpdateClusterByLookup(properties: PropertyMap, pred: Option<Predicate>, responses: seq<Response>, k: nat)
    requires NeedsLookup(Cluster, pred)
    requires properties.Keys == {ClusterVersionPropertyId} && properties[ClusterVersionPropertyId].Str?
    requires forall j :: 0 <= j < |responses| ==> responses[j].ClusterResponse?
    requires k < |Filter(ToResources(responses), pred)|
    ensures |UpdateCalls(Cluster, properties, pred, responses)| == 1 + |Filter(ToResources(responses), pred)|
    ensures exists j :: (0 <= j < |responses|
      && Matches(pred, ToResource(responses[j]).properties)
      && UpdateCalls(Cluster, properties, pred, responses)[k + 1] == ClusterCall(Update, ClusterRequest(
        Some(responses[j].clusterId), Some(responses[j].clusterName), Some(properties[ClusterVersionPropertyId].s), None)))
  {
    var all := ToResources(responses);
    var kept := Filter(all, pred);
    UpdateClusterCallsByLookup(properties, pred, responses);
    assert kept[k] in kept;
    var j :| 0 <= j < |all| && all[j] == kept[k];
    assert all[j] == ToResource(responses[j]);
    assert Matches(pred, ToResource(responses[j]).properties);
    var calls := UpdateCalls(Cluster, properties, pred, responses);
    assert calls[k + 1] == ClusterCall(Update, ToClusterRequest(IdentifyingEntries(Cluster, ToResource(responses[j]).properties) + properties));
    MergedClusterRequest(responses[j], properties);
  }

  /** A map an update sends holds a non-identifying id only when the request sets it, and then with the new value. */
  lemma UpdateMapsCarryOnlyNewState(t: ResourceType, properties: PropertyMap, pred: Option<Predicate>, responses: seq<Response>, id: string)
    requires id !in IdentifyingPropertyIdsOf(t)
    ensures forall m :: m in UpdateMaps(t, properties, pred, responses) ==>
      (id in m <==> id in properties) && (id in m ==> m[id] == properties[id])
  {
  }

  /**
   * Every updateCluster call carries the request's new stack version, or none when
   * the request sets none: a version a cluster had before is never sent back.
   */
  lemma UpdateClusterSendsOnlyNewVersion(properties: PropertyMap, pred: Option<Predicate>, responses: seq<Response>)
    ensures forall c :: c in UpdateCalls(Cluster, properties, pred, responses) && c.ClusterCall? ==>
      c.cluster.stackVersion == StrProperty(properties, ClusterVersionPropertyId)
  {
    var maps := UpdateMaps(Cluster, properties, pred, responses);
    UpdateMapsCarryOnlyNewState(Cluster, properties, pred, responses, ClusterVersionPropertyId);
    ClusterCallsOnePerMap(Update, maps);
    var mutations := MutationCalls(Cluster, Update, maps);
    assert mutations == ClusterCalls(Update, maps);
    var calls := UpdateCalls(Cluster, properties, pred, responses);
    assert calls == (if NeedsLookup(Cluster, pred) then [LookupCall(Cluster, pred)] else []) + mutations;
    forall c | c in calls && c.ClusterCall?
      ensures c.cluster.stackVersion == StrProperty(properties, ClusterVersionPropertyId)
    {
      assert c in mutations;
      var j :| 0 <= j < |mutations| && mutations[j] == c;
      assert maps[j] in maps;
    }
  }

  /**
   * Every request of an updateServices call carries the request's new state, or
   * none when the request sets none: a state a service had before is never sent back.
   */
  lemma UpdateServiceSendsOnlyNewState(properties: PropertyMap, pred: Option<Predicate>, responses: seq<Response>)
    ensures forall c, r :: c in UpdateCalls(Service, properties, pred, responses) && c.ServiceCall? && r in c.services ==>
      r.desiredState == StrProperty(properties, ServiceServiceStatePropertyId)
  {
    var maps := UpdateMaps(Service, properties, pred, responses);
    var state := StrProperty(properties, ServiceServiceStatePropertyId);
    UpdateMapsCarryOnlyNewState(Service, properties, pred, responses, ServiceServiceStatePropertyId);
    assert forall m :: m in maps ==> StrProperty(m, ServiceServiceStatePropertyId) == state;
    ServiceRequestsCarryState(maps, state);
    if maps != [] {
      assert MutationCalls(Service, Update, maps) == [ServiceCall(Update, ServiceRequests(maps))];
    }
  }

  /** When every map holds one state, so does every service request built from them. */
  lemma ServiceRequestsCarryState(maps: seq<PropertyMap>, state: Option<string>)
    requires forall m :: m in maps ==> StrProperty(m, ServiceServiceStatePropertyId) == state
    ensures forall r :: r in ServiceRequests(maps) ==> r.desiredState == state
  {
    forall r | r in ServiceRequests(maps)
      ensures r.desiredState == state
    {
      var k :| 0 <= k < |maps| && r == ToServiceRequest(maps[k]);
      assert maps[k] in maps;
    }
  }

  /** An update whose lookup finds nothing the predicate keeps sends no mutation. */
  lemma UpdateWithoutMatches(t: ResourceType, properties: PropertyMap, pred: Option<Predicate>, responses: seq<Response>)
    requires NeedsLookup(t, pred)
    requires forall k :: 0 <= k < |responses| ==> !Matches(pred, ToResource(responses[k]).properties)
    ensures UpdateMaps(t, properties, pred, responses) == []
    ensures UpdateCalls(t, properties, pred, responses) == [LookupCall(t, pred)]
  {
    FilterNoneMatch(ToResources(responses), pred);
  }

  /**
   * An update with a null predicate always looks up, and then sends the new values
   * to every entity the lookup returns, one map per response and in order.
   */
  lemma UpdateWithoutPredicate(t: ResourceType, properties: PropertyMap, responses: seq<Response>)
    ensures NeedsLookup(t, None)
    ensures UpdateCalls(t, properties, None, responses)[0] == LookupCall(t, None)
    ensures var maps := UpdateMaps(t, properties, None, responses);
      && |maps| == |responses|
      && forall k :: 0 <= k < |responses| ==> maps[k] == IdentifyingEntries(t, ToResource(responses[k]).properties) + properties
  {
    FilterNull(ToResources(responses));
  }

  /**
   * A service update that needs a lookup and keeps at least one entity sends the
   * lookup and then a single updateServices call, whose set holds exactly the
   * requests built from the kept entities with the new values laid over them.
   */
  lemma UpdateServiceCallsByLookup(properties: PropertyMap, pred: Option<Predicate>, responses: seq<Response>)
    requires NeedsLookup(Service, pred)
    requires Filter(ToResources(responses), pred) != []
    ensures var calls := UpdateCalls(Service, properties, pred, responses);
      var kept := Filter(ToResources(responses), pred);
      && |calls| == 2
      && calls[0] == LookupCall(Service, pred)
      && calls[1].ServiceCall? && calls[1].op == Update
      && forall r :: r in calls[1].services <==>
        exists k :: 0 <= k < |kept| && r == ToServiceRequest(IdentifyingEntries(Service, kept[k].properties) + properties)
  {
    var kept := Filter(ToResources(responses), pred);
    UpdateServiceCallsShape(properties, pred, responses);
    MergedServiceRequests(kept, properties);
  }

  /** The two calls of a service update by lookup, with the mutation's set still in terms of the merged maps. */
  lemma UpdateServiceCallsShape(properties: PropertyMap, pred: Option<Predicate>, responses: seq<Response>)
    requires NeedsLookup(Service, pred)
    requires Filter(ToResources(responses), pred) != []
    ensures UpdateCalls(Service, properties, pred, responses)
      == [LookupCall(Service, pred), ServiceCall(Update, ServiceRequests(MergeKeys(Service, Filter(ToResources(responses), pred), properties)))]
  {
    var maps := MergeKeys(Service, Filter(ToResources(responses), pred), properties);
    UpdateCallsByLookup(Service, properties, pred, responses);
    assert maps != [];
    assert MutationCalls(Service, Update, maps) == [ServiceCall(Update, ServiceRequests(maps))];
  }

  /** The service requests built from merged entities are exactly the requests of each entity with the new values laid over it. */
  lemma MergedServiceRequests(kept: seq<Resource>, properties: PropertyMap)
    ensures forall r :: r in ServiceRequests(MergeKeys(Service, kept, properties)) <==>
      exists k :: 0 <= k < |kept| && r == ToServiceRequest(IdentifyingEntries(Service, kept[k].properties) + properties)
  {
    var maps := MergeKeys(Service, kept, properties);
    forall r
      ensures r in ServiceRequests(maps) <==> exists k :: 0 <= k < |kept| && r == ToServiceRequest(IdentifyingEntries(Service, kept[k].properties) + properties)
    {
      if exists k :: 0 <= k < |kept| && r == ToServiceRequest(IdentifyingEntries(Service, kept[k].properties) + properties) {
        var k :| 0 <= k < |kept| && r == ToServiceRequest(IdentifyingEntries(Service, kept[k].properties) + properties);
        assert r == ToServiceRequest(maps[k]);
      }
    }
  }

  /** A cluster delete sends one call whose request holds exactly the key values the predicate pins. */
  lemma DeleteClusterPinned(pred: Option<Predicate>)
    ensures MutationCalls(Cluster, Delete, DeleteMaps(pred)) == [ClusterCall(Delete, ToClusterRequest(PinnedProperties(pred)))]
    ensures ClusterRequestProperties(MutationCalls(Cluster, Delete, DeleteMaps(pred))[0].cluster)
      == ClusterKeyPart(PinnedProperties(pred))
  {
    ClusterCallsOnePerMap(Delete, DeleteMaps(pred));
    ClusterPropertiesRoundTrip(PinnedProperties(pred));
  }

  /** Appending to a log in two steps is appending the two parts at once (stated once here, which keeps the update proof small). */
  lemma AppendAssociative<T>(a: seq<T>, b: seq<T>, c: seq<T>)
    ensures (a + b) + c == a + (b + c)
  {
  }
  // ----- the provider object -----

  /** A provider for one resource type, with its registered property ids, its observers and its backend's call log. */
  class ResourceProvider {
    const resourceType: ResourceType
    const propertyIds: set<string>
    var observers: seq<TestObserver>
    var calls: seq<BackendCall>

    /** AbstractResourceProvider.getResourceProvider: no observers yet, nothing sent to the backend. */
    constructor (resourceType: ResourceType, propertyIds: set<string>)
      ensures this.resourceType == resourceType && this.propertyIds == propertyIds
      ensures observers == [] && calls == []
    {
      this.resourceType := resourceType;
      this.propertyIds := propertyIds;
      observers := [];
      calls := [];
    }

    /** getPropertyIds: every registered id is reported, and every reported id passes the check. */
    function GetPropertyIds(): (ids: set<string>)
      ensures propertyIds <= ids
      ensures CheckPropertyIds(propertyIds, ids) == {}
    {
      RegisteredIdsSupported(propertyIds, propertyIds);
      propertyIds
    }

    /** addObserver: appended after the observers already registered. */
    method AddObserver(observer: TestObserver)
      modifies this
      ensures observers == old(observers) + [observer]
      ensures calls == old(calls)
    {
      observers := observers + [observer];
    }

    /** Hands the event to every observer, in registration order. */
    method Notify(event: ResourceProviderEvent)
      modifies observers
      ensures forall o :: o in observers ==> o.lastEvent == Some(event)
    {
      var i := 0;
      while i < |observers|
        invariant 0 <= i <= |observers|
        invariant forall k :: 0 <= k < i ==> observers[k].lastEvent == Some(event)
      {
        observers[i].Update(event);
        i := i + 1;
      }
    }

    /** Sends the mutation's calls to the backend and, when there was something to send, publishes the event. */
    method Commit(op: EventType, maps: seq<PropertyMap>, event: ResourceProviderEvent)
      modifies this, observers
      ensures observers == old(observers)
      ensures calls == old(calls) + MutationCalls(resourceType, op, maps)
      ensures forall o :: o in observers ==>
        o.lastEvent == (if maps == [] then old(o.lastEvent) else Some(event))
    {
      if maps == [] {
        return;
      }
      match resourceType {
        case Cluster =>
          var i := 0;
          while i < |maps|
            invariant 0 <= i <= |maps|
            invariant observers == old(observers)
            invariant calls == old(calls) + ClusterCalls(op, maps[..i])
            invariant forall o :: o in observers ==> o.lastEvent == old(o.lastEvent)
          {
            assert maps[..i + 1][..i] == maps[..i];
            calls := calls + [ClusterCall(op, ToClusterRequest(maps[i]))];
            i := i + 1;
          }
          assert maps[..i] == maps;
        case Service =>
          var requests: set<ServiceRequest> := {};
          var i := 0;
          while i < |maps|
            invariant 0 <= i <= |maps|
            invariant requests == ServiceRequests(maps[..i])
          {
            assert maps[..i + 1][..i] == maps[..i];
            requests := requests + {ToServiceRequest(maps[i])};
            i := i + 1;
          }
          assert maps[..i] == maps;
          calls := calls + [ServiceCall(op, requests)];
      }
      Notify(event);
    }

    /** createResources: one backend create per property map, then a Create event with the request and no predicate. */
    method CreateResources(request: seq<PropertyMap>) returns (status: Status)
      modifies this, observers
      ensures observers == old(observers)
      ensures status == StatusOf(CheckPropertyIds(propertyIds, KeysOf(request)))
      ensures calls == old(calls) + (if status.Accepted? then MutationCalls(resourceType, Create, request) else [])
      ensures forall o :: o in observers ==>
        o.lastEvent == (if status.Accepted? && request != [] then Some(ResourceProviderEvent(resourceType, Create, Some(CreateRequest(request)), None)) else old(o.lastEvent))
    {
      status := StatusOf(CheckPropertyIds(propertyIds, KeysOf(request)));
      if status.Accepted? {
        Commit(Create, request, ResourceProviderEvent(resourceType, Create, Some(CreateRequest(request)), None));
      }
    }

    /** getResources: one lookup, then the entities the predicate keeps; publishes nothing. */
    method GetResources(requested: set<string>, pred: Option<Predicate>, responses: seq<Response>)
      returns (result: Result<seq<Resource>, set<string>>)
      modifies this
      ensures observers == old(observers)
      ensures var unsupported := CheckPropertyIds(propertyIds, requested + PredicateIds(pred));
        result == if unsupported == {} then Success(ReadResources(responses, requested, pred)) else Failure(unsupported)
      ensures calls == old(calls) + (if result.Success? then [LookupCall(resourceType, pred)] else [])
    {
      var unsupported := CheckPropertyIds(propertyIds, requested + PredicateIds(pred));
      if unsupported != {} {
        return Failure(unsupported);
      }
      calls := calls + [LookupCall(resourceType, pred)];
      result := Success(ReadResources(responses, requested, pred));
    }

    /** updateResources: sends the new values to each entity the predicate selects, then an Update event with request and predicate. */
    method UpdateResources(properties: PropertyMap, pred: Option<Predicate>, responses: seq<Response>)
      returns (status: Status)
      modifies this, observers
      ensures observers == old(observers)
      ensures status == StatusOf(CheckPropertyIds(propertyIds, properties.Keys + PredicateIds(pred)))
      ensures calls == old(calls) + (if status.Accepted? then UpdateCalls(resourceType, properties, pred, responses) else [])
      ensures forall o :: o in observers ==>
        o.lastEvent == (if status.Accepted? && UpdateMaps(resourceType, properties, pred, responses) != [] then Some(ResourceProviderEvent(resourceType, Update, Some(UpdateRequest(properties)), pred)) else old(o.lastEvent))
    {
      status := StatusOf(CheckPropertyIds(propertyIds, properties.Keys + PredicateIds(pred)));
      if status.Accepted? {
        var maps := UpdateMaps(resourceType, properties, pred, responses);
        var event := ResourceProviderEvent(resourceType, Update, Some(UpdateRequest(properties)), pred);
        if NeedsLookup(resourceType, pred) {
          ghost var before := calls;
          RecordLookup(pred);
          Commit(Update, maps, event);
          AppendAssociative(before, [LookupCall(resourceType, pred)], MutationCalls(resourceType, Update, maps));
        } else {
          Commit(Update, maps, event);
        }
      }
    }

    /** Records the lookup an update sends to the backend. */
    method RecordLookup(pred: Option<Predicate>)
      modifies this
      ensures observers == old(observers)
      ensures calls == old(calls) + [LookupCall(resourceType, pred)]
    {
      calls := calls + [LookupCall(resourceType, pred)];
    }

    /** deleteResources: sends the predicate's key values, then a Delete event with the predicate and no request. */
    method DeleteResources(pred: Option<Predicate>) returns (status: Status)
      modifies this, observers
      ensures observers == old(observers)
      ensures status == StatusOf(CheckPropertyIds(propertyIds, PredicateIds(pred)))
      ensures calls == old(calls) + (if status.Accepted? then MutationCalls(resourceType, Delete, DeleteMaps(pred)) else [])
      ensures forall o :: o in observers ==>
        o.lastEvent == (if status.Accepted? then Some(ResourceProviderEvent(resourceType, Delete, None, pred)) else old(o.lastEvent))
    {
      status := StatusOf(CheckPropertyIds(propertyIds, PredicateIds(pred)));
      if status.Accepted? {
        Commit(Delete, DeleteMaps(pred), ResourceProviderEvent(resourceType, Delete, None, pred));
      }
    }
  }
}
