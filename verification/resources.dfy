/**
 * Resources as the provider hands them out: a resource type and a map from
 * property id to a tagged value (Java's Object-typed property values).
 */
module Resources {
  import opened PropertyIds

  /** The resource types the provider tests exercise. */
  datatype ResourceType = Cluster | Service

  /** A property value: a string, a (Long) integer, or null. */
  datatype Value = Str(s: string) | Int(i: int) | Null

  type PropertyMap = map<string, Value>

  datatype Resource = Resource(resourceType: ResourceType, properties: PropertyMap)

  /** Property ids of ClusterResourceProvider and ServiceResourceProvider. */
  const ClusterIdPropertyId := "Clusters/cluster_id"
  const ClusterNamePropertyId := "Clusters/cluster_name"
  const ClusterVersionPropertyId := "Clusters/version"
  const ServiceClusterNamePropertyId := "ServiceInfo/cluster_name"
  const ServiceServiceNamePropertyId := "ServiceInfo/service_name"
  const ServiceServiceStatePropertyId := "ServiceInfo/state"

  /** The ids each resource type registers (PropertyHelper.getPropertyIds). */
  function PropertyIdsOf(t: ResourceType): set<string>
  {
    match t
    case Cluster => {ClusterIdPropertyId, ClusterNamePropertyId, ClusterVersionPropertyId}
    case Service => {ServiceClusterNamePropertyId, ServiceServiceNamePropertyId, ServiceServiceStatePropertyId}
  }

  /**
   * The primary-key ids of a type: the ids that identify one backend entity without
   * a lookup. This set is read off the update tests (an update by cluster id goes
   * straight to the backend, one by cluster name looks the cluster up first, and one
   * by cluster and service name goes straight to the backend); it is not Ambari's
   * key-property map, which relates each resource type to the id that names it.
   */
  function PkPropertyIdsOf(t: ResourceType): (pk: set<string>)
    ensures pk <= PropertyIdsOf(t)
  {
    match t
    case Cluster => {ClusterIdPropertyId}
    case Service => {ServiceClusterNamePropertyId, ServiceServiceNamePropertyId}
  }

  /**
   * The ids that identify a backend entity in a request built for it: the primary
   * keys and, for a cluster, its name as well. An update that looks entities up
   * sends these values of each entity it found with the new values, and no other
   * old value: not a cluster's stack version, not a service's state.
   */
  function IdentifyingPropertyIdsOf(t: ResourceType): (ids: set<string>)
    ensures PkPropertyIdsOf(t) <= ids < PropertyIdsOf(t)
  {
    match t
    case Cluster => {ClusterIdPropertyId, ClusterNamePropertyId}
    case Service => {ServiceClusterNamePropertyId, ServiceServiceNamePropertyId}
  }

  /** The entries of a property map that identify an entity of the type. */
  function IdentifyingEntries(t: ResourceType, properties: PropertyMap): (r: PropertyMap)
    ensures r.Keys == properties.Keys * IdentifyingPropertyIdsOf(t)
    ensures forall id :: id in r ==> r[id] == properties[id]
  {
    map id | id in properties && id in IdentifyingPropertyIdsOf(t) :: properties[id]
  }

  /** A property is selected by a read when it is requested itself or one of its categories is requested. */
  predicate Selected(requested: set<string>, id: string)
  {
    id in requested || Categories(id) * requested != {}
  }

  /** The properties of a resource that a read request asks for. */
  function Project(properties: PropertyMap, requested: set<string>): (r: PropertyMap)
    ensures r.Keys <= properties.Keys
    ensures forall id :: id in r ==> r[id] == properties[id]
    ensures forall id :: id in properties ==> (id in r <==> id in requested || exists c :: c in requested && IsCategoryOf(c, id))
  {
    AllCategoriesAreCategoryPrefixes();
    var r := map id | id in properties && Selected(requested, id) :: properties[id];
    assert forall id :: id in properties && (exists c :: c in requested && IsCategoryOf(c, id)) ==> id in r by {
      forall id | id in properties && (exists c :: c in requested && IsCategoryOf(c, id)) ensures id in r {
        var c :| c in requested && IsCategoryOf(c, id);
        assert c in Categories(id) * requested;
      }
    }
    r
  }
}
