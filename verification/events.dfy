/**
 * Requests handed to a provider, the events a provider publishes after each
 * mutating call, and the test's observer that remembers the last event.
 */
module Events {
  import opened Wrappers
  import opened Resources
  import opened Predicates

  /** A read names property ids; a create carries one property map per resource; an update one map of new values. */
  datatype Request =
    | ReadRequest(propertyIds: set<string>)
    | CreateRequest(propertySets: seq<PropertyMap>)
    | UpdateRequest(properties: PropertyMap)

  datatype EventType = Create | Update | Delete

  /** ResourceProviderEvent: a null request for deletes, a null predicate for creates. */
  datatype ResourceProviderEvent = ResourceProviderEvent(
    resourceType: ResourceType,
    eventType: EventType,
    request: Option<Request>,
    pred: Option<Predicate>)

  /** TestObserver: keeps the last event it was given. */
  class TestObserver {
    var lastEvent: Option<ResourceProviderEvent>

    constructor ()
      ensures lastEvent == None
    {
      lastEvent := None;
    }

    /** ResourceProviderObserver.update: the new event replaces the previous one. */
    method Update(event: ResourceProviderEvent)
      modifies this
      ensures lastEvent == Some(event)
    {
      lastEvent := Some(event);
    }

    function GetLastEvent(): Option<ResourceProviderEvent>
      reads this
    {
      lastEvent
    }
  }
}
