/**
  Serialization of a managed object to a JSON object (`toJSON`,
  `toChangedJSON` and their helpers).  The object graph is a map from object
  identifiers to objects; the host's date formatter and unarchiver are
  functions handed in with it.

  Each operation is a method, written the way the library writes it, and is
  proved equal to a specification function of the same name stem
  (`ToJSON` / `ObjectJson`, `JsonObjectForProperties` / `PropertiesJson`, ...).
  The library recurses into embedded objects without bound; here every
  embedded level spends one unit of `fuel`, and running out yields
  `DepthExceeded` instead of a JSON object.
 */
module ManagedObjectMapping {
  import opened Schema
  import opened RemoteEntityType
  import opened CoreDataRemoteMapping

  /** A point in time as the host stores it. */
  datatype Date = Date(timeIntervalSince1970: real)

  /** An attribute value as the host stores it. */
  datatype Scalar =
    | StringValue(s: string)
    | NumberValue(n: real)
    | BoolValue(b: bool)
    | DateValue(date: Date)
    | DataValue(bytes: seq<bv8>)

  /** A value of the output tree: `NSNull`, a host value, an array or a JSON object. */
  datatype Json = Null | Leaf(scalar: Scalar) | Array(items: seq<Json>) | Object(fields: map<string, Json>)

  type JsonObject = map<string, Json>

  type ObjectId = nat

  /** The value of a relationship: one object, or a set (ordered or not) of
      objects in the order the host enumerates it. */
  datatype RelationshipValue = ToOne(target: ObjectId) | ToMany(targets: seq<ObjectId>)

  /** A managed object: its entity, the values of its attributes and
      relationships (a missing name is a nil value), and the names of the
      properties changed since the last save. */
  datatype ManagedObject = ManagedObject(
    entity: Entity,
    attributes: map<string, Scalar>,
    relationships: map<string, RelationshipValue>,
    changedKeys: set<string>)

  /** The object graph together with the host's date formatter and unarchiver. */
  datatype Context = Context(
    objects: map<ObjectId, ManagedObject>,
    dateFormatter: Date -> string,
    unarchive: seq<bv8> -> Option<Json>)

  /** The arguments every serialization call carries. */
  datatype Options = Options(
    parent: Option<ObjectId>,
    relationshipType: RelationshipType,
    excludeKeys: set<string>,
    includeNilValues: bool)

  /** The defaults of `toJSON` and `toChangedJSON`: no parent, embedded
      relationships, nothing excluded, nil values included. */
  const DefaultOptions := Options(None, Embedded, {}, true)

  /** A serialization result, or the report that the embedding depth ran out. */
  datatype Outcome<+T> = Done(value: T) | DepthExceeded

  function Targets(v: RelationshipValue): set<ObjectId> {
    match v
    case ToOne(t) => {t}
    case ToMany(ts) => set t | t in ts
  }

  /** Every related object is in the graph. */
  predicate Closed(ctx: Context) {
    forall id, name :: id in ctx.objects && name in ctx.objects[id].relationships ==>
      Targets(ctx.objects[id].relationships[name]) <= ctx.objects.Keys
  }

  /** In a closed graph every object a relationship value names is in the graph. */
  lemma ClosedTargets(ctx: Context, id: ObjectId, name: string)
    requires Closed(ctx) && id in ctx.objects && name in ctx.objects[id].relationships
    ensures match ctx.objects[id].relationships[name]
            case ToOne(t) => t in ctx.objects
            case ToMany(ts) => forall i :: 0 <= i < |ts| ==> ts[i] in ctx.objects
  {
    var v := ctx.objects[id].relationships[name];
    assert Targets(v) <= ctx.objects.Keys;
    if v.ToMany? {
      assert forall i :: 0 <= i < |v.targets| ==> v.targets[i] in Targets(v);
    }
  }

  predicate ParentIn(ctx: Context, parent: Option<ObjectId>) {
    parent.Some? ==> parent.value in ctx.objects
  }

  predicate Serializable(ctx: Context, o: ObjectId, opts: Options) {
    Closed(ctx) && o in ctx.objects && ParentIn(ctx, opts.parent)
  }

  /** `primaryKey`: the object's value at its entity's local primary key name. */
  function PrimaryKey(ctx: Context, target: ObjectId): (key: Option<Scalar>)
    requires target in ctx.objects
    ensures var obj := ctx.objects[target];
            key.Some? <==> LocalPrimaryKeyName(obj.entity) in obj.attributes
    ensures var obj := ctx.objects[target];
            key.Some? ==> key.value == obj.attributes[LocalPrimaryKeyName(obj.entity)]
  {
    var obj := ctx.objects[target];
    var key := LocalPrimaryKeyName(obj.entity);
    if key in obj.attributes then Some(obj.attributes[key]) else None
  }

  /** The value an attribute contributes: nil for a transformable attribute,
      a date through the formatter, data through the unarchiver, any other
      value as it is stored. */
  function AttributeJson(ctx: Context, target: ObjectId, attribute: Property): Option<Json>
    requires target in ctx.objects && attribute.kind.Attribute?
  {
    var values := ctx.objects[target].attributes;
    if attribute.kind.attributeType == TransformableAttribute || attribute.name !in values then None
    else
      match values[attribute.name]
      case DateValue(d) => Some(Leaf(StringValue(ctx.dateFormatter(d))))
      case DataValue(bytes) => ctx.unarchive(bytes)
      case stored => Some(Leaf(stored))
  }

  /** A relationship is invalid when it leads back, through a to-one
      relationship, to the entity of the object being serialized from. */
  predicate IsValidRelationship(ctx: Context, parent: Option<ObjectId>, relationship: Property)
    requires relationship.kind.Relationship? && ParentIn(ctx, parent)
  {
    !(parent.Some?
      && ctx.objects[parent.value].entity.name == relationship.kind.destination
      && !relationship.kind.isToMany)
  }

  /** The per-relationship override, else the ambient relationship type. */
  function EffectiveRelationshipType(relationship: Property, ambient: RelationshipType): RelationshipType
    requires relationship.kind.Relationship?
  {
    relationship.kind.mapping.GetOr(ambient)
  }

  /** Keeps a property whose local name is not among `excludeKeys`. */
  function NotExcluded(excludeKeys: set<string>): Property -> bool {
    (p: Property) => p.name !in excludeKeys
  }

  function WithoutExcluded(properties: seq<Property>, excludeKeys: set<string>): seq<Property> {
    Filter(properties, NotExcluded(excludeKeys))
  }

  /** Keeps a property whose local name is among `changedKeys`. */
  function ChangedIn(changedKeys: set<string>): Property -> bool {
    (p: Property) => p.name in changedKeys
  }

  function ChangedProperties(ctx: Context, o: ObjectId): seq<Property>
    requires o in ctx.objects
  {
    var obj := ctx.objects[o];
    Filter(RemoteProperties(obj.entity), ChangedIn(obj.changedKeys))
  }

  // ---------------------------------------------------------------------
  // Specification functions

  /** The JSON object `toJSON` produces. */
  function ObjectJson(ctx: Context, o: ObjectId, opts: Options, fuel: nat): Outcome<JsonObject>
    requires Serializable(ctx, o, opts)
    decreases fuel, 4, 0
  {
    PropertiesJson(ctx, o, RemoteProperties(ctx.objects[o].entity), opts, fuel)
  }

  /** The JSON object `toChangedJSON` produces. */
  function ChangedObjectJson(ctx: Context, o: ObjectId, opts: Options, fuel: nat): Outcome<JsonObject>
    requires Serializable(ctx, o, opts)
  {
    PropertiesJson(ctx, o, ChangedProperties(ctx, o), opts, fuel)
  }

  /** The JSON object `jsonObjectForProperties` produces. */
  function PropertiesJson(ctx: Context, o: ObjectId, properties: seq<Property>, opts: Options, fuel: nat): Outcome<JsonObject>
    requires Serializable(ctx, o, opts)
    decreases fuel, 3, 0
  {
    Fold(ctx, o, WithoutExcluded(properties, opts.excludeKeys), opts, fuel)
  }

  /** The entries of `ps` merged in order, a later entry overwriting an earlier one. */
  function Fold(ctx: Context, o: ObjectId, ps: seq<Property>, opts: Options, fuel: nat): Outcome<JsonObject>
    requires Serializable(ctx, o, opts)
    decreases fuel, 2, |ps|
  {
    if ps == [] then Done(map[])
    else
      match Fold(ctx, o, ps[..|ps| - 1], opts, fuel)
      case DepthExceeded => DepthExceeded
      case Done(json) =>
        match Entry(ctx, o, ps[|ps| - 1], opts, fuel)
        case DepthExceeded => DepthExceeded
        case Done(entry) => Done(json + entry)
  }

  /** What one property adds to the JSON object: at most one key, its remote name. */
  function Entry(ctx: Context, o: ObjectId, p: Property, opts: Options, fuel: nat): Outcome<JsonObject>
    requires Serializable(ctx, o, opts)
    decreases fuel, 1, 0
  {
    var remoteName := RemotePropertyKey(p);
    match p.kind
    case Attribute(_) =>
      (match AttributeJson(ctx, o, p)
       case Some(value) => Done(map[remoteName := value])
       case None => Done(if opts.includeNilValues then map[remoteName := Null] else map[]))
    case Relationship(_, _, _) =>
      if opts.relationshipType == NoRelationships || !IsValidRelationship(ctx, opts.parent, p) then Done(map[])
      else
        var relationshipType := EffectiveRelationshipType(p, opts.relationshipType);
        var relationships := ctx.objects[o].relationships;
        if p.name in relationships then
          match relationships[p.name]
          case ToOne(destination) =>
            ToOneRelationshipJson(ctx, destination, remoteName, relationshipType, Some(o), opts.includeNilValues, fuel)
          case ToMany(destinations) =>
            ToManyRelationshipJson(ctx, destinations, remoteName, relationshipType, Some(o), opts.includeNilValues, fuel)
        else Done(if opts.includeNilValues then map[remoteName := Null] else map[])
  }

  /** The one-key object `jsonAttributesForToOneRelationship` produces. */
  function ToOneRelationshipJson(ctx: Context, target: ObjectId, relationshipName: string,
                                 relationshipType: RelationshipType, parent: Option<ObjectId>,
                                 includeNilValues: bool, fuel: nat): Outcome<JsonObject>
    requires Closed(ctx) && target in ctx.objects && ParentIn(ctx, parent)
    decreases fuel, 0, 1
  {
    match ObjectItem(ctx, target, parent, relationshipType, includeNilValues, fuel)
    case Done(item) => Done(map[relationshipName := item])
    case DepthExceeded => DepthExceeded
  }

  /** The one-key object `jsonAttributesForToManyRelationship` produces. */
  function ToManyRelationshipJson(ctx: Context, objects: seq<ObjectId>, relationshipName: string,
                                  relationshipType: RelationshipType, parent: Option<ObjectId>,
                                  includeNilValues: bool, fuel: nat): Outcome<JsonObject>
    requires Closed(ctx) && (forall i :: 0 <= i < |objects| ==> objects[i] in ctx.objects) && ParentIn(ctx, parent)
    decreases fuel, 0, |objects| + 2
  {
    match ItemsJson(ctx, objects, parent, relationshipType, includeNilValues, fuel)
    case Done(items) => Done(map[relationshipName := Array(items)])
    case DepthExceeded => DepthExceeded
  }

  /** The related objects, each replaced by its `ObjectItem`. */
  function ItemsJson(ctx: Context, objects: seq<ObjectId>, parent: Option<ObjectId>,
                     relationshipType: RelationshipType, includeNilValues: bool, fuel: nat): Outcome<seq<Json>>
    requires Closed(ctx) && (forall i :: 0 <= i < |objects| ==> objects[i] in ctx.objects) && ParentIn(ctx, parent)
    decreases fuel, 0, |objects| + 1
  {
    if objects == [] then Done([])
    else
      match ItemsJson(ctx, objects[..|objects| - 1], parent, relationshipType, includeNilValues, fuel)
      case DepthExceeded => DepthExceeded
      case Done(items) =>
        match ObjectItem(ctx, objects[|objects| - 1], parent, relationshipType, includeNilValues, fuel)
        case DepthExceeded => DepthExceeded
        case Done(item) => Done(items + [item])
  }

  /** What `jsonAttributesForObject` makes of one related object: its own JSON
      object when embedded (one level of fuel spent), its primary key when
      referenced, `NSNull` otherwise. */
  function ObjectItem(ctx: Context, target: ObjectId, parent: Option<ObjectId>,
                      relationshipType: RelationshipType, includeNilValues: bool, fuel: nat): Outcome<Json>
    requires Closed(ctx) && target in ctx.objects && ParentIn(ctx, parent)
    decreases fuel, 0, 0
  {
    match relationshipType
    case Embedded =>
      if fuel == 0 then DepthExceeded
      else
        (match ObjectJson(ctx, target, Options(parent, Embedded, {}, includeNilValues), fuel - 1)
         case Done(json) => Done(Object(json))
         case DepthExceeded => DepthExceeded)
    case Reference =>
      Done(match PrimaryKey(ctx, target) case Some(key) => Leaf(key) case None => Null)
    case NoRelationships =>
      Done(Null)
  }

  /** One step of the fold: the prefix up to `i` merged with the entry of `ps[i]`. */
  lemma FoldStep(ctx: Context, o: ObjectId, ps: seq<Property>, i: nat, opts: Options, fuel: nat)
    requires Serializable(ctx, o, opts) && i < |ps|
    ensures Fold(ctx, o, ps[..i + 1], opts, fuel) ==
      match Fold(ctx, o, ps[..i], opts, fuel)
      case DepthExceeded => DepthExceeded
      case Done(json) =>
        (match Entry(ctx, o, ps[i], opts, fuel)
         case DepthExceeded => DepthExceeded
         case Done(entry) => Done(json + entry))
  {
    assert ps[..i + 1][..i] == ps[..i];
    assert ps[..i + 1][i] == ps[i];
  }

  /** A prefix that was built, extended by a property whose entry was built. */
  lemma FoldAppend(ctx: Context, o: ObjectId, ps: seq<Property>, i: nat, opts: Options, fuel: nat,
                   json: JsonObject, entry: JsonObject)
    requires Serializable(ctx, o, opts) && i < |ps|
    requires Fold(ctx, o, ps[..i], opts, fuel) == Done(json)
    requires Entry(ctx, o, ps[i], opts, fuel) == Done(entry)
    ensures Fold(ctx, o, ps[..i + 1], opts, fuel) == Done(json + entry)
  {
    FoldStep(ctx, o, ps, i, opts, fuel);
  }

  /** The entry of an attribute: its value under its remote name, or `NSNull`
      or nothing for a nil value. */
  lemma AttributeEntry(ctx: Context, o: ObjectId, p: Property, opts: Options, fuel: nat)
    requires Serializable(ctx, o, opts) && p.kind.Attribute?
    ensures AttributeJson(ctx, o, p).Some? ==>
      Entry(ctx, o, p, opts, fuel) == Done(map[RemotePropertyKey(p) := AttributeJson(ctx, o, p).value])
    ensures AttributeJson(ctx, o, p).None? && opts.includeNilValues ==>
      Entry(ctx, o, p, opts, fuel) == Done(map[RemotePropertyKey(p) := Null])
    ensures AttributeJson(ctx, o, p).None? && !opts.includeNilValues ==>
      Entry(ctx, o, p, opts, fuel) == Done(map[])
  {
  }

  /** Once a prefix runs out of depth, the whole fold does. */
  lemma {:induction false} FoldExceededPrefix(ctx: Context, o: ObjectId, ps: seq<Property>, n: nat, opts: Options, fuel: nat)
    requires Serializable(ctx, o, opts) && n <= |ps|
    requires Fold(ctx, o, ps[..n], opts, fuel) == DepthExceeded
    ensures Fold(ctx, o, ps, opts, fuel) == DepthExceeded
    decreases |ps| - n
  {
    if n == |ps| {
      assert ps[..n] == ps;
    } else {
      FoldStep(ctx, o, ps, n, opts, fuel);
      FoldExceededPrefix(ctx, o, ps, n + 1, opts, fuel);
    }
  }

  /** An entry that runs out of depth makes the whole fold run out. */
  lemma FoldExceeded(ctx: Context, o: ObjectId, ps: seq<Property>, i: nat, opts: Options, fuel: nat)
    requires Serializable(ctx, o, opts) && i < |ps|
    requires Entry(ctx, o, ps[i], opts, fuel) == DepthExceeded
    ensures Fold(ctx, o, ps, opts, fuel) == DepthExceeded
  {
    FoldStep(ctx, o, ps, i, opts, fuel);
    FoldExceededPrefix(ctx, o, ps, i + 1, opts, fuel);
  }

  /** Once a prefix runs out of depth, the whole list of items does. */
  lemma {:induction false} ItemsExceededPrefix(ctx: Context, objects: seq<ObjectId>, n: nat, parent: Option<ObjectId>,
                                               relationshipType: RelationshipType, includeNilValues: bool, fuel: nat)
    requires Closed(ctx) && (forall i :: 0 <= i < |objects| ==> objects[i] in ctx.objects) && ParentIn(ctx, parent)
    requires n <= |objects|
    requires ItemsJson(ctx, objects[..n], parent, relationshipType, includeNilValues, fuel) == DepthExceeded
    ensures ItemsJson(ctx, objects, parent, relationshipType, includeNilValues, fuel) == DepthExceeded
    decreases |objects| - n
  {
    if n == |objects| {
      assert objects[..n] == objects;
    } else {
      assert objects[..n + 1][..n] == objects[..n];
      ItemsExceededPrefix(ctx, objects, n + 1, parent, relationshipType, includeNilValues, fuel);
    }
  }

  // ---------------------------------------------------------------------
  // Methods

  /** Assigning one key is merging a one-entry map. */
  lemma UpdateIsMerge<K, V>(m: map<K, V>, k: K, v: V)
    ensures m[k := v] == m + map[k := v]
  {
  }

  /** Merging nothing changes nothing. */
  lemma MergeEmpty<K, V>(m: map<K, V>)
    ensures m + map[] == m
  {
  }

  /** `left += right`: every key of `right` is set to its value in `right`. */
  method MergeInto<K, V>(left: map<K, V>, right: map<K, V>) returns (merged: map<K, V>)
    ensures merged.Keys == left.Keys + right.Keys
    ensures forall k :: k in right ==> merged[k] == right[k]
    ensures forall k :: k in left && k !in right ==> merged[k] == left[k]
    ensures merged == left + right
  {
    merged := left;
    var pending := right.Keys;
    while pending != {}
      invariant pending <= right.Keys
      invariant merged.Keys == left.Keys + (right.Keys - pending)
      invariant forall k :: k in right && k !in pending ==> merged[k] == right[k]
      invariant forall k :: k in left && k !in right ==> merged[k] == left[k]
      invariant forall k :: k in left && k in pending ==> merged[k] == left[k]
      decreases pending
    {
      var k :| k in pending;
      merged := merged[k := right[k]];
      pending := pending - {k};
    }
  }

  /** `valueForAttribueDescription`. */
  method ValueForAttributeDescription(ctx: Context, target: ObjectId, attributeDescription: Property)
    returns (attributeValue: Option<Json>)
    requires target in ctx.objects && attributeDescription.kind.Attribute?
    ensures attributeValue == AttributeJson(ctx, target, attributeDescription)
  {
    attributeValue := None;
    if attributeDescription.kind.attributeType != TransformableAttribute {
      var values := ctx.objects[target].attributes;
      if attributeDescription.name in values {
        var stored := values[attributeDescription.name];
        attributeValue := Some(Leaf(stored));
        if stored.DateValue? {
          attributeValue := Some(Leaf(StringValue(ctx.dateFormatter(stored.date))));
        } else if stored.DataValue? {
          attributeValue := ctx.unarchive(stored.bytes);
        }
      }
    }
  }

  predicate MatchesKey(p: Property, key: string) {
    p.kind.Attribute? && (RemotePropertyKey(p) == key || p.name == key)
  }

  /** `attributeDescriptionForRemoteKey`: the last attribute, in property
      order, whose remote or local name is `key`; relationships never match. */
  method AttributeDescriptionForRemoteKey(ctx: Context, target: ObjectId, key: string)
    returns (found: Option<Property>)
    requires target in ctx.objects
    ensures var ps := ctx.objects[target].entity.properties;
      found.None? <==> forall i :: 0 <= i < |ps| ==> !MatchesKey(ps[i], key)
    ensures var ps := ctx.objects[target].entity.properties;
      found.Some? ==> exists j :: 0 <= j < |ps| && ps[j] == found.value && MatchesKey(ps[j], key)
                                  && forall i :: j < i < |ps| ==> !MatchesKey(ps[i], key)
  {
    var properties := ctx.objects[target].entity.properties;
    found := None;
    ghost var at := 0;
    var n := 0;
    while n < |properties|
      invariant n <= |properties|
      invariant found.None? <==> forall i :: 0 <= i < n ==> !MatchesKey(properties[i], key)
      invariant found.Some? ==> at < n && properties[at] == found.value && MatchesKey(properties[at], key)
      invariant found.Some? ==> forall i :: at < i < n ==> !MatchesKey(properties[i], key)
    {
      var propertyDescription := properties[n];
      if propertyDescription.kind.Attribute? {
        var remoteKey := RemotePropertyKey(propertyDescription);
        if remoteKey == key || propertyDescription.name == key {
          found := Some(propertyDescription);
          at := n;
        }
      }
      n := n + 1;
    }
  }

  /** `toJSON`. */
  method ToJSON(ctx: Context, o: ObjectId, opts: Options, fuel: nat) returns (json: Outcome<JsonObject>)
    requires Serializable(ctx, o, opts)
    ensures json == ObjectJson(ctx, o, opts, fuel)
    decreases fuel, 4, 0
  {
    json := JsonObjectForProperties(ctx, o, RemoteProperties(ctx.objects[o].entity), opts, fuel);
  }

  /** `toChangedJSON`: only the remote properties whose local name is among the changed keys. */
  method ToChangedJSON(ctx: Context, o: ObjectId, opts: Options, fuel: nat) returns (json: Outcome<JsonObject>)
    requires Serializable(ctx, o, opts)
    ensures json == ChangedObjectJson(ctx, o, opts, fuel)
  {
    var remoteProperties := ChangedProperties(ctx, o);
    json := JsonObjectForProperties(ctx, o, remoteProperties, opts, fuel);
  }

  /** `jsonObjectForProperties`. */
  method JsonObjectForProperties(ctx: Context, o: ObjectId, properties: seq<Property>, opts: Options, fuel: nat)
    returns (result: Outcome<JsonObject>)
    requires Serializable(ctx, o, opts)
    ensures result == PropertiesJson(ctx, o, properties, opts, fuel)
    decreases fuel, 3, 0
  {
    var json: JsonObject := map[];
    var jsonProperties := WithoutExcluded(properties, opts.excludeKeys);
    var i := 0;
    while i < |jsonProperties|
      invariant i <= |jsonProperties|
      invariant Fold(ctx, o, jsonProperties[..i], opts, fuel) == Done(json)
    {
      var propertyDescription := jsonProperties[i];
      var remoteRelationshipName := RemotePropertyKey(propertyDescription);
      ghost var before, entry: JsonObject := json, map[];
      MergeEmpty(json);

      if propertyDescription.kind.Attribute? {
        var value := ValueForAttributeDescription(ctx, o, propertyDescription);
        AttributeEntry(ctx, o, propertyDescription, opts, fuel);
        if value.Some? {
          UpdateIsMerge(json, remoteRelationshipName, value.value);
          json := json[remoteRelationshipName := value.value];
          entry := map[remoteRelationshipName := value.value];
        } else if opts.includeNilValues {
          UpdateIsMerge(json, remoteRelationshipName, Null);
          json := json[remoteRelationshipName := Null];
          entry := map[remoteRelationshipName := Null];
        }
      } else {
        var relationshipAttributes := JsonAttributesForRelationship(ctx, o, propertyDescription, opts, fuel);
        if relationshipAttributes.DepthExceeded? {
          FoldExceeded(ctx, o, jsonProperties, i, opts, fuel);
          return DepthExceeded;
        }
        json := MergeInto(json, relationshipAttributes.value);
        entry := relationshipAttributes.value;
      }
      assert json == before + entry;
      FoldAppend(ctx, o, jsonProperties, i, opts, fuel, before, entry);
      i := i + 1;
    }
    assert jsonProperties[..i] == jsonProperties;
    result := Done(json);
  }

  /** The relationship branch of the loop of `jsonObjectForProperties`: what
      one relationship merges into the JSON object.  Nothing when the ambient
      type is `.none` or the relationship leads back to the parent's entity
      through a to-one; `NSNull` for a nil value when nil values are included. */
  method JsonAttributesForRelationship(ctx: Context, o: ObjectId, relationshipDescription: Property, opts: Options, fuel: nat)
    returns (attributes: Outcome<JsonObject>)
    requires Serializable(ctx, o, opts) && relationshipDescription.kind.Relationship?
    ensures attributes == Entry(ctx, o, relationshipDescription, opts, fuel)
    decreases fuel, 1, 0
  {
    attributes := Done(map[]);
    if opts.relationshipType != NoRelationships {
      var localRelationshipName := relationshipDescription.name;
      var remoteRelationshipName := RemotePropertyKey(relationshipDescription);
      var relationshipMappingType := relationshipDescription.kind.mapping.GetOr(opts.relationshipType);
      var isValidRelationship :=
        !(opts.parent.Some?
          && ctx.objects[opts.parent.value].entity.name == relationshipDescription.kind.destination
          && !relationshipDescription.kind.isToMany);
      var relationships := ctx.objects[o].relationships;
      if isValidRelationship {
        if localRelationshipName in relationships {
          ClosedTargets(ctx, o, localRelationshipName);
          match relationships[localRelationshipName]
          case ToOne(destinationObject) =>
            attributes := JsonAttributesForToOneRelationship(
              ctx, destinationObject, remoteRelationshipName, relationshipMappingType, Some(o), opts.includeNilValues, fuel);
          case ToMany(relationshipSet) =>
            attributes := JsonAttributesForToManyRelationship(
              ctx, relationshipSet, remoteRelationshipName, relationshipMappingType, Some(o), opts.includeNilValues, fuel);
        } else if opts.includeNilValues {
          attributes := Done(map[remoteRelationshipName := Null]);
        }
      }
    }
  }

  /** `jsonAttributesForToOneRelationship`. */
  method JsonAttributesForToOneRelationship(ctx: Context, target: ObjectId, relationshipName: string,
                                            relationshipType: RelationshipType, parent: Option<ObjectId>,
                                            includeNilValues: bool, fuel: nat)
    returns (attributes: Outcome<JsonObject>)
    requires Closed(ctx) && target in ctx.objects && ParentIn(ctx, parent)
    ensures attributes == ToOneRelationshipJson(ctx, target, relationshipName, relationshipType, parent, includeNilValues, fuel)
    decreases fuel, 0, 1
  {
    var item := JsonAttributesForObject(ctx, target, parent, relationshipType, includeNilValues, fuel);
    attributes := if item.Done? then Done(map[relationshipName := item.value]) else DepthExceeded;
  }

  /** `jsonAttributesForToManyRelationship`: one item per related object. */
  method JsonAttributesForToManyRelationship(ctx: Context, objects: seq<ObjectId>, relationshipName: string,
                                             relationshipType: RelationshipType, parent: Option<ObjectId>,
                                             includeNilValues: bool, fuel: nat)
    returns (attributes: Outcome<JsonObject>)
    requires Closed(ctx) && (forall i :: 0 <= i < |objects| ==> objects[i] in ctx.objects) && ParentIn(ctx, parent)
    ensures attributes == ToManyRelationshipJson(ctx, objects, relationshipName, relationshipType, parent, includeNilValues, fuel)
    decreases fuel, 0, |objects| + 2
  {
    var jsonObjects: seq<Json> := [];
    var i := 0;
    while i < |objects|
      invariant i <= |objects|
      invariant ItemsJson(ctx, objects[..i], parent, relationshipType, includeNilValues, fuel) == Done(jsonObjects)
    {
      assert objects[..i + 1][..i] == objects[..i];
      var item := JsonAttributesForObject(ctx, objects[i], parent, relationshipType, includeNilValues, fuel);
      if item.DepthExceeded? {
        ItemsExceededPrefix(ctx, objects, i + 1, parent, relationshipType, includeNilValues, fuel);
        return DepthExceeded;
      }
      jsonObjects := jsonObjects + [item.value];
      i := i + 1;
    }
    assert objects[..i] == objects;
    attributes := Done(map[relationshipName := Array(jsonObjects)]);
  }

  /** `jsonAttributesForObject`. */
  method JsonAttributesForObject(ctx: Context, target: ObjectId, parent: Option<ObjectId>,
                                 relationshipType: RelationshipType, includeNilValues: bool, fuel: nat)
    returns (item: Outcome<Json>)
    requires Closed(ctx) && target in ctx.objects && ParentIn(ctx, parent)
    ensures item == ObjectItem(ctx, target, parent, relationshipType, includeNilValues, fuel)
    decreases fuel, 0, 0
  {
    match relationshipType
    case Embedded =>
      if fuel == 0 {
        return DepthExceeded;
      }
      var json := ToJSON(ctx, target, Options(parent, Embedded, {}, includeNilValues), fuel - 1);
      item := if json.Done? then Done(Object(json.value)) else DepthExceeded;
    case Reference =>
      var primaryKey := PrimaryKey(ctx, target);
      item := Done(if primaryKey.Some? then Leaf(primaryKey.value) else Null);
    case NoRelationships =>
      item := Done(Null);
  }
}
