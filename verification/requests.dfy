/**
 * Backend request and response records (only their key fields), the
 * translation between them and property maps, and the test's request matchers.
 */
module Requests {
  import opened Wrappers
  import opened Resources

  /** ClusterRequest: every field may be null. */
  datatype ClusterRequest = ClusterRequest(
    clusterId: Option<int>,
    clusterName: Option<string>,
    stackVersion: Option<string>,
    hostNames: Option<set<string>>)

  /** ServiceRequest: every field may be null. */
  datatype ServiceRequest = ServiceRequest(
    clusterName: Option<string>,
    serviceName: Option<string>,
    configVersions: Option<map<string, string>>,
    desiredState: Option<string>)

  /** ServiceComponentRequest: every field may be null. */
  datatype ServiceComponentRequest = ServiceComponentRequest(
    clusterName: Option<string>,
    serviceName: Option<string>,
    componentName: Option<string>,
    configVersions: Option<map<string, string>>,
    desiredState: Option<string>)

  /** ConfigurationRequest: every field may be null. */
  datatype ConfigurationRequest = ConfigurationRequest(
    clusterName: Option<string>,
    configType: Option<string>,
    versionTag: Option<string>,
    configs: Option<map<string, string>>)

  /** What the backend returns for one entity of a lookup. */
  datatype Response =
    | ClusterResponse(clusterId: int, clusterName: string, stackVersion: Option<string>)
    | ServiceResponse(clusterId: int, clusterName: string, serviceName: string, desiredStackVersion: string, desiredState: string)

  // ----- the test's eq helper and matchers -----

  /** Null-safe equality: two nulls are equal, a null equals nothing else; it is plain equality of the optional values. */
  function Eq<T(==)>(left: Option<T>, right: Option<T>): (b: bool)
    ensures b <==> left == right
  {
    if left.None? then right.None? else right.Some? && left.value == right.value
  }

  /** ClusterRequestMatcher.matches: every field agrees, so it accepts exactly the expected request. */
  function ClusterRequestMatches(expected: ClusterRequest, actual: ClusterRequest): (b: bool)
    ensures b <==> actual == expected
  {
    && Eq(actual.clusterId, expected.clusterId)
    && Eq(actual.clusterName, expected.clusterName)
    && Eq(actual.stackVersion, expected.stackVersion)
    && Eq(actual.hostNames, expected.hostNames)
  }

  /** Field-wise agreement of service requests. */
  function ServiceRequestFieldsMatch(expected: ServiceRequest, actual: ServiceRequest): (b: bool)
    ensures b <==> actual == expected
  {
    && Eq(actual.clusterName, expected.clusterName)
    && Eq(actual.serviceName, expected.serviceName)
    && Eq(actual.configVersions, expected.configVersions)
    && Eq(actual.desiredState, expected.desiredState)
  }

  /** A set has one element, and every element is x, exactly when it is the singleton of x. */
  lemma SingletonSet<T>(s: set<T>, x: T)
    ensures (|s| == 1 && forall r :: r in s ==> r == x) <==> s == {x}
  {
    if |s| == 1 && forall r :: r in s ==> r == x {
      assert s != {};
      var y :| y in s;
      assert |s - {y}| == 0;
    }
  }

  /**
   * ServiceRequestSetMatcher.matches: a set of exactly one request, and that request
   * agrees; so it accepts exactly the singleton of the expected request.
   */
  function ServiceRequestSetMatches(expected: ServiceRequest, actual: set<ServiceRequest>): (b: bool)
    ensures b <==> actual == {expected}
  {
    SingletonSet(actual, expected);
    |actual| == 1 && forall r :: r in actual ==> ServiceRequestFieldsMatch(expected, r)
  }

  /** Field-wise agreement of component requests. */
  function ComponentRequestFieldsMatch(expected: ServiceComponentRequest, actual: ServiceComponentRequest): (b: bool)
    ensures b <==> actual == expected
  {
    && Eq(actual.clusterName, expected.clusterName)
    && Eq(actual.serviceName, expected.serviceName)
    && Eq(actual.componentName, expected.componentName)
    && Eq(actual.configVersions, expected.configVersions)
    && Eq(actual.desiredState, expected.desiredState)
  }

  /**
   * ComponentRequestSetMatcher.matches: a set of exactly one request, and that request
   * agrees; so it accepts exactly the singleton of the expected request.
   */
  function ComponentRequestSetMatches(expected: ServiceComponentRequest, actual: set<ServiceComponentRequest>): (b: bool)
    ensures b <==> actual == {expected}
  {
    SingletonSet(actual, expected);
    |actual| == 1 && forall r :: r in actual ==> ComponentRequestFieldsMatch(expected, r)
  }

  /** ConfigurationRequestMatcher.matches: every field agrees, so it accepts exactly the expected request. */
  function ConfigurationRequestMatches(expected: ConfigurationRequest, actual: ConfigurationRequest): (b: bool)
    ensures b <==> actual == expected
  {
    && Eq(actual.clusterName, expected.clusterName)
    && Eq(actual.configType, expected.configType)
    && Eq(actual.versionTag, expected.versionTag)
    && Eq(actual.configs, expected.configs)
  }

  // ----- property maps to backend requests and back -----

  /** A (Long) property value, or null when the property is missing or not a number. */
  function IntProperty(m: PropertyMap, id: string): Option<int>
  {
    if id in m && m[id].Int? then Some(m[id].i) else None
  }

  /** A String property value, or null when the property is missing or not a string. */
  function StrProperty(m: PropertyMap, id: string): Option<string>
  {
    if id in m && m[id].Str? then Some(m[id].s) else None
  }

  /** The cluster request for a property map; key properties missing from the map stay null. */
  function ToClusterRequest(m: PropertyMap): ClusterRequest
  {
    ClusterRequest(
      IntProperty(m, ClusterIdPropertyId),
      StrProperty(m, ClusterNamePropertyId),
      StrProperty(m, ClusterVersionPropertyId),
      None)
  }

  /** The service request for a property map; key properties missing from the map stay null. */
  function ToServiceRequest(m: PropertyMap): ServiceRequest
  {
    ServiceRequest(
      StrProperty(m, ServiceClusterNamePropertyId),
      StrProperty(m, ServiceServiceNamePropertyId),
      None,
      StrProperty(m, ServiceServiceStatePropertyId))
  }

  /** A map holding id only when the value is present. */
  function OptionalEntry(id: string, v: Option<Value>): PropertyMap
  {
    if v.Some? then map[id := v.value] else map[]
  }

  /** The property map a cluster request stands for: one entry per non-null key field. */
  function ClusterRequestProperties(r: ClusterRequest): PropertyMap
  {
    OptionalEntry(ClusterIdPropertyId, if r.clusterId.Some? then Some(Int(r.clusterId.value)) else None)
    + OptionalEntry(ClusterNamePropertyId, if r.clusterName.Some? then Some(Str(r.clusterName.value)) else None)
    + OptionalEntry(ClusterVersionPropertyId, if r.stackVersion.Some? then Some(Str(r.stackVersion.value)) else None)
  }

  /** The property map a service request stands for: one entry per non-null key field. */
  function ServiceRequestProperties(r: ServiceRequest): PropertyMap
  {
    OptionalEntry(ServiceClusterNamePropertyId, if r.clusterName.Some? then Some(Str(r.clusterName.value)) else None)
    + OptionalEntry(ServiceServiceNamePropertyId, if r.serviceName.Some? then Some(Str(r.serviceName.value)) else None)
    + OptionalEntry(ServiceServiceStatePropertyId, if r.desiredState.Some? then Some(Str(r.desiredState.value)) else None)
  }

  /** The cluster ids of a map that hold a value of the type the request field takes. */
  function ClusterKeyPart(m: PropertyMap): PropertyMap
  {
    map id | id in m && (
      || (id == ClusterIdPropertyId && m[id].Int?)
      || (id == ClusterNamePropertyId && m[id].Str?)
      || (id == ClusterVersionPropertyId && m[id].Str?)) :: m[id]
  }

  /** The service ids of a map that hold a value of the type the request field takes. */
  function ServiceKeyPart(m: PropertyMap): PropertyMap
  {
    map id | id in m && (id in {ServiceClusterNamePropertyId, ServiceServiceNamePropertyId, ServiceServiceStatePropertyId}) && m[id].Str? :: m[id]
  }

  /** Translating a cluster request to properties and back gives the request again (host names are not a property). */
  lemma ClusterRequestRoundTrip(r: ClusterRequest)
    requires r.hostNames.None?
    ensures ToClusterRequest(ClusterRequestProperties(r)) == r
  {
  }

  /** Translating a property map to a cluster request and back keeps exactly its well-typed key values. */
  lemma ClusterPropertiesRoundTrip(m: PropertyMap)
    ensures ClusterRequestProperties(ToClusterRequest(m)) == ClusterKeyPart(m)
  {
  }

  /** Translating a service request to properties and back gives the request again (config versions are not a property). */
  lemma ServiceRequestRoundTrip(r: ServiceRequest)
    requires r.configVersions.None?
    ensures ToServiceRequest(ServiceRequestProperties(r)) == r
  {
  }

  /** Translating a property map to a service request and back keeps exactly its well-typed key values. */
  lemma ServicePropertiesRoundTrip(m: PropertyMap)
    ensures ServiceRequestProperties(ToServiceRequest(m)) == ServiceKeyPart(m)
  {
  }

  // ----- backend responses to resources -----

  /** The resource a backend response becomes, with every property the response carries. */
  function ToResource(response: Response): (r: Resource)
  {
    match response
    case ClusterResponse(id, name, version) =>
      Resource(Cluster,
        map[ClusterIdPropertyId := Int(id), ClusterNamePropertyId := Str(name)]
        + OptionalEntry(ClusterVersionPropertyId, if version.Some? then Some(Str(version.value)) else None))
    case ServiceResponse(_, clusterName, serviceName, _, state) =>
      Resource(Service,
        map[ServiceClusterNamePropertyId := Str(clusterName),
            ServiceServiceNamePropertyId := Str(serviceName),
            ServiceServiceStatePropertyId := Str(state)])
  }

  /** A resource built from a response turns back into a request carrying the response's keys. */
  lemma ToResourceKeys(response: Response)
    ensures response.ClusterResponse? ==>
      ToClusterRequest(ToResource(response).properties)
        == ClusterRequest(Some(response.clusterId), Some(response.clusterName), response.stackVersion, None)
    ensures response.ServiceResponse? ==>
      ToServiceRequest(ToResource(response).properties)
        == ServiceRequest(Some(response.clusterName), Some(response.serviceName), None, Some(response.desiredState))
  {
  }
}
