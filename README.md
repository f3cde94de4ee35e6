# RemoteMapping in Dafny

A Dafny model of the core of RemoteMapping, a Swift library that maps Core Data
managed objects to JSON. The model has two layers.

- **The mapping resolver.** For every property it decides the remote name and
  whether the property is ignored. For every entity it decides the remote and
  local primary-key names. It lists the remote properties and relationships,
  and indexes them by remote or local name.
  - The library writes the primary-key resolution out in three places:
    `RemoteEntityType.swift`, `CoreData+RemoteMapping.swift` and
    `NSEntityDescription+RemoteEntityType.swift`.
  - The model defines that resolution once. Each lemma about it cites the copy
    whose promise it states.
  - The property indexes exist in two extensions of the library, with
    different signatures. The model keeps both. Each is its own function over
    one shared fold, `IndexBy`.
  - Modules: `Schema`, `RemoteEntityType`, `CoreDataRemoteMapping` and
    `EntityDescriptionMapping`.
- **The graph serializer.** This is `toJSON`, `toChangedJSON`,
  `jsonObjectForProperties` and their helpers in
  `NSManagedObject+RemoteMapping.swift`, in module `ManagedObjectMapping`.
  - Each operation is a method written the way the library writes it:
    - the `for` loop that builds `json` in place;
    - the `+=` loop;
    - the last-match search of `attributeDescriptionForRemoteKey`;
    - the reassigned value of `valueForAttribueDescription`.
  - Each method is proved equal to a specification function: `ToJSON` to
    `ObjectJson`, `JsonObjectForProperties` to `PropertiesJson` (a left fold,
    `Fold`, over per-property entries, `Entry`), `JsonAttributesForObject` to
    `ObjectItem`, and so on.
  - Module `ManagedObjectMappingLemmas` proves what the library promises about
    those functions.
  - The relationship branch of the loop body in `jsonObjectForProperties` is its
    own method, `JsonAttributesForRelationship`. It returns the dictionary the
    loop merges, which is empty when the library merges nothing. Merging an
    empty dictionary changes nothing, so the loop behaves as the library's does.

## The data model

- An entity has a name, a `userInfo` bag, an ordered list of properties and an
  optional superentity.
  - A `userInfo` value is either a string or some other value. A missing bag is
    an empty map.
  - A property is either an attribute, with its declared type, or a relationship.
    A relationship has a destination entity name, its cardinality and the optional
    `relationshipMapping` override.
- The object graph is a map from object identifiers to managed objects. Each
  managed object has:
  - its entity;
  - its attribute values and its relationship values (a name without a value
    is a nil value);
  - its changed property names.
- The graph comes with the host's date formatter and unarchiver, as functions.
- Serialization carries four options: the parent object, the ambient
  relationship type, the excluded local names and the nil policy.
  `DefaultOptions` holds the defaults of `toJSON` and `toChangedJSON`.
- The library's recursion into embedded objects has no bound.
  - The parent guard compares only the immediate parent's entity.
  - A cycle through a to-many relationship therefore never stops.
  - Neither does a to-one cycle through three or more entities
    (A to B to C to A).
  - The model spends one unit of `fuel` per embedded level.
  - A result that runs out of fuel is `DepthExceeded` instead of a JSON object.
  - `PropertiesJsonFuelMonotone` proves that a result produced with some fuel is
    the same with any more fuel. Fuel therefore only cuts off embeddings the
    library would follow further.

## Behaviours of the code worth knowing

- **Primary keys are read one level up only.** The code reads the entity's own
  `userInfo` and its direct superentity's own `userInfo`, and nothing above.
  - `ResolutionIsOneLevel` and `GrandparentNeverConsulted` state this.
  - `OneLevelAgreesWithChainWalk` shows that a walk of the whole chain gives the
    same answer on chains of two levels.
- **A transformable attribute reads as nil.** It therefore comes out as `NSNull`
  when nil values are included, and is absent only when they are not
  (`AttributeSerialization`).
- **An embedded back-reference is absent, not null.** The parent guard skips a
  to-one relationship back to the embedding object's entity entirely. The nested
  object has no key for it, even with nil values included
  (`EmbeddedBackReferenceIsSkipped`).

## Model

| member | source | states |
|---|---|---|
| Schema.Filter | RemoteMapping/CoreData+RemoteMapping/NSEntityDescription+RemoteEntityType.swift:36-38 | the filtered list draws only on the input; every element it holds satisfies the predicate; every input element that satisfies it is kept |
| Schema.FilterAppend | RemoteMapping/CoreData+RemoteMapping.swift:72-74 | filtering distributes over concatenation, so kept elements stay in input order |
| Schema.FilterKeepsDistinctNames | RemoteMapping/CoreData+RemoteMapping.swift:90-98 | filtering a property list with distinct local names leaves distinct names |
| RemoteEntityType.RawValuesDistinct | RemoteMapping/RemoteEntityType.swift:12-19 | the five metadata key strings are pairwise distinct |
| RemoteEntityType.RemotePrimaryKeyName | RemoteMapping/RemoteEntityType.swift:25-35 | an own `primaryKey.remote` string is the name; otherwise the name is the direct superentity's own string or the resolved local name |
| RemoteEntityType.LocalPrimaryKeyName | RemoteMapping/RemoteEntityType.swift:40-50 | an own `primaryKey.local` string is the name; otherwise the name is the direct superentity's own string or "remoteID" |
| RemoteEntityType.OwnRemotePrimaryKeyWins | RemoteMapping/RemoteEntityType.swift:25-28 | an entity's own `primaryKey.remote` string is its remote primary key name, whatever its superentity says |
| RemoteEntityType.SuperentityRemotePrimaryKey | RemoteMapping/RemoteEntityType.swift:30-32 | with no own value, the direct superentity's own raw string is used |
| RemoteEntityType.RemotePrimaryKeyDefaultsToLocal | RemoteMapping/RemoteEntityType.swift:34 | with neither value, the remote name equals the resolved local name |
| RemoteEntityType.LocalPrimaryKeyResolution | RemoteMapping/RemoteEntityType.swift:40-50 | the local name is the own string, else the direct superentity's own string, else "remoteID" |
| RemoteEntityType.NoMetadataMeansRemoteID | RemoteMapping/CoreData+RemoteMapping/NSEntityDescription+RemoteEntityType.swift:8-33 | with no primary-key metadata on the entity or its superentity, both names are "remoteID" |
| RemoteEntityType.NonStringValueCountsAsAbsent | RemoteMapping/CoreData+RemoteMapping/NSEntityDescription+RemoteEntityType.swift:23-33 | a non-string value under a primary-key key, in the entity's own `userInfo` or in its superentity's, resolves both names exactly as if the key were absent |
| RemoteEntityType.ResolutionIsOneLevel | RemoteMapping/CoreData+RemoteMapping.swift:34-59 | two entities that agree on their own and their superentity's `userInfo` resolve both names alike, whatever their grandparents hold |
| RemoteEntityType.OneLevelAgreesWithChainWalk | RemoteMapping/CoreData+RemoteMapping/NSEntityDescription+RemoteEntityType.swift:13-15 | on chains of at most two levels the one-level lookup equals a walk of the whole chain |
| RemoteEntityType.GrandparentNeverConsulted | RemoteMapping/CoreData+RemoteMapping/NSEntityDescription+RemoteEntityType.swift:13-15 | a remote key set only on a grandparent is found by a chain walk but not by the library: the name stays "remoteID" |
| RemoteEntityType.TestEntitiesResolve | RemoteMappingTests/RemoteEntityTypeTests.swift:9-61 | the test entities resolve as the tests expect: "_id", the default pair, "customPrimaryKey", and both keys inherited from the abstract superentity |
| CoreDataRemoteMapping.RemotePropertyKey | RemoteMapping/CoreData+RemoteMapping.swift:17-19 | the key is the local name or the string stored under `remotePropertyName`, and the local name when that key is absent |
| CoreDataRemoteMapping.RemotePropertyKeyResolution | RemoteMapping/CoreData+RemoteMapping.swift:17-19 | the remote key is the `remotePropertyName` string when present, otherwise the local name, including when the value is not a string |
| CoreDataRemoteMapping.IgnoreIsPresenceOnly | RemoteMapping/CoreData+RemoteMapping.swift:25-27 | a property is ignored with any value under `remoteShouldIgnore`, and not ignored without the key |
| CoreDataRemoteMapping.RemoteProperties | RemoteMapping/CoreData+RemoteMapping.swift:72-74 | a property is remote iff it is one of the entity's properties and is not ignored |
| CoreDataRemoteMapping.RemotePropertiesPreserveOrder | RemoteMapping/CoreData+RemoteMapping.swift:72-74 | a split of the property list maps to a split of the remote properties, so schema order is kept |
| CoreDataRemoteMapping.IndexBy | RemoteMapping/CoreData+RemoteMapping.swift:78-86 | the index's keys are exactly the chosen names of the indexed properties, and every entry is an indexed property stored under its own key |
| CoreDataRemoteMapping.IndexByLastWins | RemoteMapping/CoreData+RemoteMapping.swift:78-86 | a property that no later property shares a key with is the index's entry for its key |
| CoreDataRemoteMapping.IndexBySizeWhenLocalNamesDistinct | RemoteMapping/CoreData+RemoteMapping.swift:90-98 | with distinct local names the local-name index has one entry per property |
| CoreDataRemoteMapping.RemotePropertiesByName | RemoteMapping/CoreData+RemoteMapping.swift:78-86 | the keys are exactly the remote keys of the remote properties, and each key maps to a remote property with that key |
| CoreDataRemoteMapping.RemotePropertiesByLocalName | RemoteMapping/CoreData+RemoteMapping.swift:90-98 | the keys are exactly the local names of the remote properties, and each key maps to the remote property of that name |
| CoreDataRemoteMapping.RemotePropertiesByLocalNameIsExact | RemoteMapping/CoreData+RemoteMapping.swift:90-98 | with distinct local names the local-name index has one entry per remote property, each under its own name |
| CoreDataRemoteMapping.RemoteObjectEntityExample | RemoteMappingTests/RemoteObjectTypeMappingTests.swift:20-58 | the test entity: a custom remote name, a default one, an ignored property; 3 properties, 2 remote |
| EntityDescriptionMapping.RemotePropertiesByName | RemoteMapping/CoreData+RemoteMapping/NSEntityDescription+RemoteEntityType.swift:42-51 | the keys are exactly the chosen names (local or remote) of the remote properties, and each maps to a remote property under its own key |
| EntityDescriptionMapping.RemotePropertiesByNameLastWins | RemoteMapping/CoreData+RemoteMapping/NSEntityDescription+RemoteEntityType.swift:42-51 | the index keys are the chosen names of the remote properties; each key maps to the last remote property with that name |
| EntityDescriptionMapping.RemoteRelationships | RemoteMapping/CoreData+RemoteMapping/NSEntityDescription+RemoteEntityType.swift:54-56 | a property is a remote relationship iff it is a relationship of the entity that is not ignored, so never an attribute |
| EntityDescriptionMapping.RemoteRelationshipsPreserveOrder | RemoteMapping/CoreData+RemoteMapping/NSEntityDescription+RemoteEntityType.swift:54-56 | the remote relationships keep the order of the remote properties |
| EntityDescriptionMapping.RemoteRelationshipsByName | RemoteMapping/CoreData+RemoteMapping/NSEntityDescription+RemoteEntityType.swift:60-69 | the keys are exactly the chosen names of the remote relationships, and every entry is a non-ignored relationship of the entity under its own key |
| EntityDescriptionMapping.RemoteRelationshipsByNameLastWins | RemoteMapping/CoreData+RemoteMapping/NSEntityDescription+RemoteEntityType.swift:60-69 | the relationship index obeys the property index's key and last-wins law, restricted to remote relationships |
| ManagedObjectMapping.MergeInto | RemoteMapping/CoreData+RemoteMapping/NSManagedObject+RemoteMapping.swift:4-8 | after `left += right`: the keys are those of both, every key of `right` has its value in `right`, every other key keeps its value in `left` |
| ManagedObjectMapping.PrimaryKey | RemoteMapping/CoreData+RemoteMapping/NSManagedObject+RemoteMapping.swift:46-48 | the primary key is present iff the object has a value at its entity's resolved local primary-key name, and is that value |
| ManagedObjectMapping.ValueForAttributeDescription | RemoteMapping/CoreData+RemoteMapping/NSManagedObject+RemoteMapping.swift:211-225 | the value read is the attribute rule: nil for a transformable attribute or a missing value, a date through the formatter, data through the unarchiver, anything else as stored |
| ManagedObjectMapping.AttributeDescriptionForRemoteKey | RemoteMapping/CoreData+RemoteMapping/NSManagedObject+RemoteMapping.swift:228-242 | nil iff no attribute has the key as remote or local name; otherwise the last such attribute in property order; relationships never match |
| ManagedObjectMapping.ToJSON | RemoteMapping/CoreData+RemoteMapping/NSManagedObject+RemoteMapping.swift:58-60 | the result is the JSON object of the entity's remote properties |
| ManagedObjectMapping.ToChangedJSON | RemoteMapping/CoreData+RemoteMapping/NSManagedObject+RemoteMapping.swift:71-76 | the result is the JSON object of the remote properties whose local name has changed |
| ManagedObjectMapping.JsonObjectForProperties | RemoteMapping/CoreData+RemoteMapping/NSManagedObject+RemoteMapping.swift:86-147 | the in-place loop yields the left fold of the per-property entries over the non-excluded properties, or `DepthExceeded` |
| ManagedObjectMapping.JsonAttributesForRelationship | RemoteMapping/CoreData+RemoteMapping/NSManagedObject+RemoteMapping.swift:109-142 | what one relationship merges: nothing under `.none` or when the parent guard trips, the related item or items in the effective type, or `NSNull` for a nil value when nil values are included |
| ManagedObjectMapping.JsonAttributesForToOneRelationship | RemoteMapping/CoreData+RemoteMapping/NSManagedObject+RemoteMapping.swift:150-160 | a one-key object holding the related object's item |
| ManagedObjectMapping.JsonAttributesForToManyRelationship | RemoteMapping/CoreData+RemoteMapping/NSManagedObject+RemoteMapping.swift:164-178 | the loop builds the list of items of the related objects in order, under one key |
| ManagedObjectMapping.JsonAttributesForObject | RemoteMapping/CoreData+RemoteMapping/NSManagedObject+RemoteMapping.swift:181-195 | the item of one related object under the given relationship type |
| ManagedObjectMappingLemmas.EntryKeys | RemoteMapping/CoreData+RemoteMapping/NSManagedObject+RemoteMapping.swift:92-143 | one property adds at most one key, its remote name |
| ManagedObjectMappingLemmas.FoldKeys | RemoteMapping/CoreData+RemoteMapping/NSManagedObject+RemoteMapping.swift:87-146 | every key of the built object was put there by the entry of some property of the list |
| ManagedObjectMappingLemmas.FoldSoleKey | RemoteMapping/CoreData+RemoteMapping/NSManagedObject+RemoteMapping.swift:103-141 | for a property whose remote name no other property shares, the built object has its key iff its entry does, with the entry's value |
| ManagedObjectMappingLemmas.ExcludedPropertiesContributeNothing | RemoteMapping/CoreData+RemoteMapping/NSManagedObject+RemoteMapping.swift:89 | every key of the result is the remote name of a property whose local name is not excluded |
| ManagedObjectMappingLemmas.ChangedJsonKeys | RemoteMapping/CoreData+RemoteMapping/NSManagedObject+RemoteMapping.swift:72-75 | every key of the changed JSON is the remote name of a remote property that changed and is not excluded |
| ManagedObjectMappingLemmas.ChangedPropertiesSingle | RemoteMapping/CoreData+RemoteMapping/NSManagedObject+RemoteMapping.swift:72-73 | with distinct local names and one changed name, the changed remote properties are exactly that property |
| ManagedObjectMappingLemmas.ChangedJsonSingleAttribute | RemoteMappingTests/JSONMappingTests.swift:58-68 | a new object with only one plain attribute set serializes to a changed JSON object with exactly that one key and its value |
| ManagedObjectMappingLemmas.ChangedJsonWithDefaults | RemoteMappingTests/JSONMappingTests.swift:58-68 | with the default options of `toChangedJSON`, the test's new object with one plain attribute set gives a one-key object holding that value |
| ManagedObjectMappingLemmas.AttributeSerialization | RemoteMapping/CoreData+RemoteMapping/NSManagedObject+RemoteMapping.swift:98-106 | an attribute's key holds its value (a date formatted, data unarchived); when the value is nil (always so for a transformable attribute) the key holds `NSNull` iff nil values are included and is otherwise absent |
| ManagedObjectMappingLemmas.RelationshipSerialization | RemoteMapping/CoreData+RemoteMapping/NSManagedObject+RemoteMapping.swift:109-141 | under `.none` no relationship key, whatever the override; a tripped guard gives no key; a nil value gives `NSNull` iff nil values are included; a to-one value gives the related item, a to-many value one item per related object in order, in the override type else the ambient one |
| ManagedObjectMappingLemmas.ParentGuardIsExact | RemoteMapping/CoreData+RemoteMapping/NSManagedObject+RemoteMapping.swift:114-116 | with nil values included, a relationship's key is missing iff a parent is given, its entity is the destination and the relationship is to-one |
| ManagedObjectMappingLemmas.ItemsPointwise | RemoteMapping/CoreData+RemoteMapping/NSManagedObject+RemoteMapping.swift:164-173 | the to-many list has one item per related object, the i-th being the item of the i-th object |
| ManagedObjectMappingLemmas.ObjectItemPolicy | RemoteMapping/CoreData+RemoteMapping/NSManagedObject+RemoteMapping.swift:181-195 | embedded: the related object's own JSON with the referrer as parent, the same nil policy and no excluded keys; reference: its value at its local primary key name, else `NSNull`; otherwise `NSNull` |
| ManagedObjectMappingLemmas.ReferenceIsEmbeddedPrimaryKey | RemoteMapping/CoreData+RemoteMapping/NSManagedObject+RemoteMapping.swift:184-192 | a reference to an object equals what its embedded JSON holds under the remote name of its primary-key attribute, for a plain stored value |
| ManagedObjectMappingLemmas.EmbeddedBackReferenceIsSkipped | RemoteMapping/CoreData+RemoteMapping/NSManagedObject+RemoteMapping.swift:184-189 | an embedded object has no key at all for a to-one relationship back to the embedding object's entity |
| ManagedObjectMappingLemmas.NoRelationshipsMeansAttributesOnly | RemoteMapping/CoreData+RemoteMapping/NSManagedObject+RemoteMapping.swift:109 | under `.none` the result is always produced, and every key is the remote name of an attribute |
| ManagedObjectMappingLemmas.GuardComparesEntities | RemoteMapping/CoreData+RemoteMapping/NSManagedObject+RemoteMapping.swift:114 | two parents of the same entity give the same JSON object: the guard compares entities, not instances |
| ManagedObjectMappingLemmas.ObjectJsonFuel | RemoteMapping/CoreData+RemoteMapping/NSManagedObject+RemoteMapping.swift:58-60 | an object's JSON produced with some fuel is unchanged by one more unit of fuel |
| ManagedObjectMappingLemmas.PropertiesJsonFuelMonotone | RemoteMapping/CoreData+RemoteMapping/NSManagedObject+RemoteMapping.swift:184-189 | a JSON object produced with some fuel is the one produced with any larger fuel |

## Left out

- The inbound coercion `valueForAttributeDescription(_:usingRemoteValue:)` is
  not modelled. It is built on Foundation class lookups, number formatting,
  keyed archiving, decimal numbers and floating-point dates.
- Date formatting and keyed unarchiving are opaque functions of the context.
  - The formatter is always present. `toJSON` and `toChangedJSON` always pass
    one, so the optional formatter of `valueForAttribueDescription` is never
    nil on these paths.
- The `localPrimaryKey` and `remotePrimaryKey` key-value lookups on entity
  descriptions are not modelled. They are foreign key-value coding on schema
  objects.
- `reservedAttributes` and `reservedKeys` are not modelled. They are constants
  that nothing here uses.
- The implementations of `remotePropertyName` and `relationshipMapping` are not
  part of this model.
  - The serializer and the entity-description indexes use `remotePropertyName`.
    The model uses `RemotePropertyKey` for it.
  - `relationshipMapping` is a field of the relationship descriptor.
- The order of a to-many relationship is not modelled. It is a `Set`, or an
  ordered set converted to a `Set`, so its order is unspecified.
  - The model takes the related objects in the order the host enumerates them.
  - Duplicate identifiers in that sequence are not ruled out.
  - Only the length of the list and its per-position items are stated.
- The unbounded recursion into embedded objects is not modelled. The model
  uses fuel instead.
  - With cycles, the library does not terminate, and the model yields
    `DepthExceeded` once the fuel is spent.
  - Nothing is claimed about how much fuel suffices.
- The parent guard compares entities by name. The library compares entity
  description objects.
- `value(forKey:)` is not modelled directly. It is split into an attribute-value
  map and a relationship-value map.
  - A relationship value that is neither an object nor a set of objects is not
    representable.
  - A related object missing from the graph is excluded by the `Closed`
    precondition.
- `changedValues()` is an input: each object's set of changed names.
- ManagedObjectMapping.PrimaryKey: a lookup at an undefined key is not
  modelled.
  - An entity with no property named by its resolved local primary key
    (for example the default "remoteID" left undeclared) makes the library's
    key-value lookup raise `NSUndefinedKeyException`, so `.reference`
    serialization aborts.
  - The model gives `NSNull` there, as for a declared key with a nil value.
  - Raised exceptions are outside the model.
- Fetched properties are not modelled. A property that is neither an
  attribute nor a relationship cannot be represented.
  - The library counts such a property in `remoteProperties` and the indexes.
  - The serializer loop skips it, since both type tests at lines 98 and 109 of
    `NSManagedObject+RemoteMapping.swift` fail.
- Numbers are not distinguished by width. `Int16`, `Float` and other numeric
  values are one real-valued scalar.
- ManagedObjectMappingLemmas.AttributeSerialization: stated only for an
  attribute whose remote name no other property in the list shares. When two
  properties share a remote name, the later entry overwrites the earlier one
  (`FoldSoleKey` and `MergeInto` give the per-key merge). No per-position
  statement is made for that case.
- ManagedObjectMappingLemmas.RelationshipSerialization: stated only for a
  relationship whose remote name no other property in the list shares, for the
  same reason.
