/**
  The entity-description extension: indexes of the remote properties chosen
  by local or remote name, and the remote relationships with their index.
  Its primary-key resolution is the one of module RemoteEntityType.
 */
module EntityDescriptionMapping {
  import opened Schema
  import opened RemoteEntityType
  import opened CoreDataRemoteMapping

  /** `remotePropertiesByName(useLocalNames:)`: the remote properties keyed by
      local or remote name; every entry is a remote property under its own key. */
  function RemotePropertiesByName(e: Entity, useLocalNames: bool): (index: map<string, Property>)
    ensures index.Keys == set p | p in RemoteProperties(e) :: IndexKey(p, useLocalNames)
    ensures forall k :: k in index ==> index[k] in RemoteProperties(e) && IndexKey(index[k], useLocalNames) == k
  {
    IndexBy(RemoteProperties(e), useLocalNames)
  }

  function IsRelationship(p: Property): bool {
    p.kind.Relationship?
  }

  /** `remoteRelationships`: the relationships represented on the remote, in
      schema order; exactly the entity's relationships that are not ignored,
      never an attribute. */
  function RemoteRelationships(e: Entity): (r: seq<Property>)
    ensures forall p :: p in r <==> p in e.properties && !RemoteShouldIgnore(p) && p.kind.Relationship?
  {
    Filter(RemoteProperties(e), IsRelationship)
  }

  /** `remoteRelationshipsByName(useLocalNames:)`: keyed by the chosen names of
      the remote relationships; every entry is a relationship of the entity
      that is not ignored, stored under its own key. */
  function RemoteRelationshipsByName(e: Entity, useLocalNames: bool): (index: map<string, Property>)
    ensures index.Keys == set p | p in RemoteRelationships(e) :: IndexKey(p, useLocalNames)
    ensures forall k :: k in index ==>
      index[k].kind.Relationship? && !RemoteShouldIgnore(index[k]) && index[k] in e.properties
      && IndexKey(index[k], useLocalNames) == k
  {
    IndexBy(RemoteRelationships(e), useLocalNames)
  }

  /** The property index: keyed by the chosen names of the remote properties,
      each key mapping to the last remote property in order with that name. */
  lemma RemotePropertiesByNameLastWins(e: Entity, useLocalNames: bool, j: nat)
    requires j < |RemoteProperties(e)|
    requires forall i :: j < i < |RemoteProperties(e)| ==>
      IndexKey(RemoteProperties(e)[i], useLocalNames) != IndexKey(RemoteProperties(e)[j], useLocalNames)
    ensures RemotePropertiesByName(e, useLocalNames).Keys == set p | p in RemoteProperties(e) :: IndexKey(p, useLocalNames)
    ensures RemotePropertiesByName(e, useLocalNames)[IndexKey(RemoteProperties(e)[j], useLocalNames)] == RemoteProperties(e)[j]
  {
    IndexByLastWins(RemoteProperties(e), useLocalNames, j);
  }

  /** The relationships keep the order of the properties they come from. */
  lemma RemoteRelationshipsPreserveOrder(e: Entity, front: seq<Property>, back: seq<Property>)
    requires RemoteProperties(e) == front + back
    ensures RemoteRelationships(e) == Filter(front, IsRelationship) + Filter(back, IsRelationship)
  {
    FilterAppend(front, back, IsRelationship);
  }

  /** The relationship index obeys the same law as the property index,
      restricted to the remote relationships. */
  lemma RemoteRelationshipsByNameLastWins(e: Entity, useLocalNames: bool, j: nat)
    requires j < |RemoteRelationships(e)|
    requires forall i :: j < i < |RemoteRelationships(e)| ==>
      IndexKey(RemoteRelationships(e)[i], useLocalNames) != IndexKey(RemoteRelationships(e)[j], useLocalNames)
    ensures RemoteRelationshipsByName(e, useLocalNames).Keys == set p | p in RemoteRelationships(e) :: IndexKey(p, useLocalNames)
    ensures RemoteRelationshipsByName(e, useLocalNames)[IndexKey(RemoteRelationships(e)[j], useLocalNames)] == RemoteRelationships(e)[j]
  {
    IndexByLastWins(RemoteRelationships(e), useLocalNames, j);
  }
}
