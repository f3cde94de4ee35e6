/**
  What the serializer promises, stated over the specification functions of
  module ManagedObjectMapping (and so, through the methods' postconditions,
  over `toJSON`, `toChangedJSON` and `jsonObjectForProperties`).
 */
module ManagedObjectMappingLemmas {
  import opened Schema
  import opened RemoteEntityType
  import opened CoreDataRemoteMapping
  import opened ManagedObjectMapping

  // ---------------------------------------------------------------------
  // Structure of the merged object

  /** A property contributes at most one key, its remote name. */
  lemma EntryKeys(ctx: Context, o: ObjectId, p: Property, opts: Options, fuel: nat)
    requires Serializable(ctx, o, opts)
    requires Entry(ctx, o, p, opts, fuel).Done?
    ensures Entry(ctx, o, p, opts, fuel).value.Keys <= {RemotePropertyKey(p)}
  {
    if p.kind.Relationship? && opts.relationshipType != NoRelationships && IsValidRelationship(ctx, opts.parent, p)
       && p.name in ctx.objects[o].relationships {
      var v := ctx.objects[o].relationships[p.name];
      assert Targets(v) <= ctx.objects.Keys;
      if v.ToMany? {
        assert forall i :: 0 <= i < |v.targets| ==> v.targets[i] in Targets(v);
      }
    }
  }

  /** The merge succeeds exactly when every property's entry does. */
  lemma {:induction false} FoldDone(ctx: Context, o: ObjectId, ps: seq<Property>, opts: Options, fuel: nat)
    requires Serializable(ctx, o, opts)
    ensures Fold(ctx, o, ps, opts, fuel).Done? <==> forall i :: 0 <= i < |ps| ==> Entry(ctx, o, ps[i], opts, fuel).Done?
    decreases |ps|
  {
    if ps != [] {
      var front := ps[..|ps| - 1];
      FoldDone(ctx, o, front, opts, fuel);
      assert forall i :: 0 <= i < |front| ==> front[i] == ps[i];
    }
  }

  /** Every key of the merged object is put there by the entry of some property of the list. */
  lemma {:induction false} FoldKeys(ctx: Context, o: ObjectId, ps: seq<Property>, opts: Options, fuel: nat)
    requires Serializable(ctx, o, opts)
    requires Fold(ctx, o, ps, opts, fuel).Done?
    ensures forall k :: k in Fold(ctx, o, ps, opts, fuel).value ==>
      exists p :: p in ps && Entry(ctx, o, p, opts, fuel).Done? && k in Entry(ctx, o, p, opts, fuel).value
    decreases |ps|
  {
    if ps != [] {
      var front := ps[..|ps| - 1];
      var last := ps[|ps| - 1];
      FoldKeys(ctx, o, front, opts, fuel);
      forall k | k in Fold(ctx, o, ps, opts, fuel).value
        ensures exists p :: p in ps && Entry(ctx, o, p, opts, fuel).Done? && k in Entry(ctx, o, p, opts, fuel).value
      {
        if k !in Entry(ctx, o, last, opts, fuel).value {
          var p :| p in front && Entry(ctx, o, p, opts, fuel).Done? && k in Entry(ctx, o, p, opts, fuel).value;
          var i :| 0 <= i < |front| && front[i] == p;
          assert ps[i] == p;
        }
      }
    }
  }

  /** Every key of the merged object is the remote name of some property of the list. */
  lemma FoldKeysAreRemoteNames(ctx: Context, o: ObjectId, ps: seq<Property>, opts: Options, fuel: nat, k: string)
    requires Serializable(ctx, o, opts)
    requires Fold(ctx, o, ps, opts, fuel).Done? && k in Fold(ctx, o, ps, opts, fuel).value
    ensures exists p :: p in ps && RemotePropertyKey(p) == k && Entry(ctx, o, p, opts, fuel).Done? && k in Entry(ctx, o, p, opts, fuel).value
  {
    FoldKeys(ctx, o, ps, opts, fuel);
    var p :| p in ps && Entry(ctx, o, p, opts, fuel).Done? && k in Entry(ctx, o, p, opts, fuel).value;
    EntryKeys(ctx, o, p, opts, fuel);
  }

  /** No other property of the list shares the remote name of `p`. */
  predicate SoleRemoteKey(ps: seq<Property>, p: Property) {
    forall q :: q in ps && RemotePropertyKey(q) == RemotePropertyKey(p) ==> q == p
  }

  /** When no other property shares its remote name, a property's key in the
      merged object is exactly what its own entry says. */
  lemma {:induction false} FoldSoleKey(ctx: Context, o: ObjectId, ps: seq<Property>, opts: Options, fuel: nat, p: Property)
    requires Serializable(ctx, o, opts)
    requires p in ps && SoleRemoteKey(ps, p)
    requires Fold(ctx, o, ps, opts, fuel).Done?
    ensures Entry(ctx, o, p, opts, fuel).Done?
    ensures var json := Fold(ctx, o, ps, opts, fuel).value;
            var entry := Entry(ctx, o, p, opts, fuel).value;
            var key := RemotePropertyKey(p);
            (key in json <==> key in entry) && (key in entry ==> json[key] == entry[key])
    decreases |ps|
  {
    var front := ps[..|ps| - 1];
    var last := ps[|ps| - 1];
    var key := RemotePropertyKey(p);
    assert forall q :: q in front ==> q in ps;
    if last == p {
      if p in front {
        FoldSoleKey(ctx, o, front, opts, fuel, p);
      } else if key in Fold(ctx, o, front, opts, fuel).value {
        FoldKeysAreRemoteNames(ctx, o, front, opts, fuel, key);
      }
    } else {
      var i :| 0 <= i < |ps| && ps[i] == p;
      assert front[i] == p;
      FoldSoleKey(ctx, o, front, opts, fuel, p);
      EntryKeys(ctx, o, last, opts, fuel);
    }
  }

  /** Filtering out the excluded names keeps a property that is not excluded, and
      the remote-name uniqueness of every property it keeps. */
  lemma WithoutExcludedMembership(properties: seq<Property>, excludeKeys: set<string>, p: Property)
    ensures p in WithoutExcluded(properties, excludeKeys) <==> p in properties && p.name !in excludeKeys
    ensures SoleRemoteKey(properties, p) ==> SoleRemoteKey(WithoutExcluded(properties, excludeKeys), p)
  {
    var r := WithoutExcluded(properties, excludeKeys);
    if p in r {
      var i :| 0 <= i < |r| && r[i] == p;
    }
    if p in properties && p.name !in excludeKeys {
      var i :| 0 <= i < |properties| && properties[i] == p;
    }
    assert forall q :: q in r ==> q in properties by {
      forall q | q in r ensures q in properties {
        var i :| 0 <= i < |r| && r[i] == q;
      }
    }
  }

  // ---------------------------------------------------------------------
  // Output filtering

  /** Every key of the result is the remote name of a property of the list
      whose local name is not excluded: an excluded property contributes nothing. */
  lemma ExcludedPropertiesContributeNothing(ctx: Context, o: ObjectId, properties: seq<Property>, opts: Options, fuel: nat, k: string)
    requires Serializable(ctx, o, opts)
    requires PropertiesJson(ctx, o, properties, opts, fuel).Done? && k in PropertiesJson(ctx, o, properties, opts, fuel).value
    ensures exists p :: p in properties && p.name !in opts.excludeKeys && RemotePropertyKey(p) == k
  {
    var ps := WithoutExcluded(properties, opts.excludeKeys);
    FoldKeysAreRemoteNames(ctx, o, ps, opts, fuel, k);
    var p :| p in ps && RemotePropertyKey(p) == k && Entry(ctx, o, p, opts, fuel).Done? && k in Entry(ctx, o, p, opts, fuel).value;
    WithoutExcludedMembership(properties, opts.excludeKeys, p);
  }

  /** `toChangedJSON` only emits remote properties that have changed and are not excluded. */
  lemma ChangedJsonKeys(ctx: Context, o: ObjectId, opts: Options, fuel: nat, k: string)
    requires Serializable(ctx, o, opts)
    requires ChangedObjectJson(ctx, o, opts, fuel).Done? && k in ChangedObjectJson(ctx, o, opts, fuel).value
    ensures exists p :: p in RemoteProperties(ctx.objects[o].entity) && p.name in ctx.objects[o].changedKeys
                        && p.name !in opts.excludeKeys && RemotePropertyKey(p) == k
  {
    var changed := ChangedProperties(ctx, o);
    ExcludedPropertiesContributeNothing(ctx, o, changed, opts, fuel, k);
    var p :| p in changed && p.name !in opts.excludeKeys && RemotePropertyKey(p) == k;
    var i :| 0 <= i < |changed| && changed[i] == p;
    assert changed[i] in RemoteProperties(ctx.objects[o].entity) && ChangedIn(ctx.objects[o].changedKeys)(changed[i]);
  }

  /** With distinct local names, the changed properties are exactly the one
      remote property whose name is the only changed key. */
  lemma ChangedPropertiesSingle(ctx: Context, o: ObjectId, p: Property)
    requires o in ctx.objects && DistinctNames(ctx.objects[o].entity.properties)
    requires p in RemoteProperties(ctx.objects[o].entity) && ctx.objects[o].changedKeys == {p.name}
    ensures ChangedProperties(ctx, o) == [p]
  {
    var obj := ctx.objects[o];
    FilterKeepsDistinctNames(obj.entity.properties, NotIgnored);
    FilterUniqueName(RemoteProperties(obj.entity), p, ChangedIn(obj.changedKeys));
  }

  /** A list of one property merges to that property's entry. */
  lemma FoldSingle(ctx: Context, o: ObjectId, p: Property, opts: Options, fuel: nat)
    requires Serializable(ctx, o, opts)
    ensures Fold(ctx, o, [p], opts, fuel) == Entry(ctx, o, p, opts, fuel)
  {
    assert [p][..0] == [];
    if Entry(ctx, o, p, opts, fuel).Done? {
      assert map[] + Entry(ctx, o, p, opts, fuel).value == Entry(ctx, o, p, opts, fuel).value;
    }
  }

  /** The changed-JSON scenario: when the only change is to one attribute,
      stored as a plain value and not excluded, and local names are distinct,
      `toChangedJSON` holds exactly one key, that attribute's remote name. */
  lemma ChangedJsonSingleAttribute(ctx: Context, o: ObjectId, opts: Options, fuel: nat, p: Property)
    requires Serializable(ctx, o, opts)
    requires DistinctNames(ctx.objects[o].entity.properties)
    requires p in RemoteProperties(ctx.objects[o].entity) && ctx.objects[o].changedKeys == {p.name}
    requires p.kind.Attribute? && p.kind.attributeType != TransformableAttribute && p.name !in opts.excludeKeys
    requires p.name in ctx.objects[o].attributes
    requires !ctx.objects[o].attributes[p.name].DateValue? && !ctx.objects[o].attributes[p.name].DataValue?
    ensures ChangedObjectJson(ctx, o, opts, fuel) == Done(map[RemotePropertyKey(p) := Leaf(ctx.objects[o].attributes[p.name])])
  {
    ChangedPropertiesSingle(ctx, o, p);
    FilterSingleton(p, NotExcluded(opts.excludeKeys));
    FoldSingle(ctx, o, p, opts, fuel);
    assert AttributeJson(ctx, o, p) == Some(Leaf(ctx.objects[o].attributes[p.name]));
  }

  /** The library's changed-JSON test, called with the defaults: a new object
      with one plain attribute set gives exactly that key and value. */
  lemma ChangedJsonWithDefaults(ctx: Context, o: ObjectId, fuel: nat, p: Property)
    requires Closed(ctx) && o in ctx.objects
    requires DistinctNames(ctx.objects[o].entity.properties)
    requires p in RemoteProperties(ctx.objects[o].entity) && ctx.objects[o].changedKeys == {p.name}
    requires p.kind.Attribute? && p.kind.attributeType != TransformableAttribute
    requires p.name in ctx.objects[o].attributes
    requires !ctx.objects[o].attributes[p.name].DateValue? && !ctx.objects[o].attributes[p.name].DataValue?
    ensures var json := ChangedObjectJson(ctx, o, DefaultOptions, fuel);
            json.Done? && |json.value| == 1 && RemotePropertyKey(p) in json.value
            && json.value[RemotePropertyKey(p)] == Leaf(ctx.objects[o].attributes[p.name])
  {
    ChangedJsonSingleAttribute(ctx, o, DefaultOptions, fuel, p);
  }

  // ---------------------------------------------------------------------
  // Attributes

  /** The attribute rule, for an attribute no other property of the list
      shares a remote name with: a transformable attribute reads as nil; a
      date is written through the formatter; data through the unarchiver;
      any other stored value as it is.  A nil value gives `NSNull` when nil
      values are included and no key at all otherwise. */
  lemma AttributeSerialization(ctx: Context, o: ObjectId, properties: seq<Property>, opts: Options, fuel: nat, p: Property)
    requires Serializable(ctx, o, opts)
    requires PropertiesJson(ctx, o, properties, opts, fuel).Done?
    requires p in properties && p.kind.Attribute? && p.name !in opts.excludeKeys && SoleRemoteKey(properties, p)
    ensures var json := PropertiesJson(ctx, o, properties, opts, fuel).value;
            var key := RemotePropertyKey(p);
            var values := ctx.objects[o].attributes;
            var isNil := p.kind.attributeType == TransformableAttribute || p.name !in values
                         || (values[p.name].DataValue? && ctx.unarchive(values[p.name].bytes).None?);
            (isNil ==> (key in json <==> opts.includeNilValues) && (key in json ==> json[key] == Null))
            && (!isNil ==>
                  key in json
                  && json[key] == match values[p.name]
                                  case DateValue(d) => Leaf(StringValue(ctx.dateFormatter(d)))
                                  case DataValue(bytes) => ctx.unarchive(bytes).value
                                  case stored => Leaf(stored))
  {
    var ps := WithoutExcluded(properties, opts.excludeKeys);
    WithoutExcludedMembership(properties, opts.excludeKeys, p);
    FoldSoleKey(ctx, o, ps, opts, fuel, p);
  }

  // ---------------------------------------------------------------------
  // Relationships

  /** The relationship rule, for a relationship no other property of the list
      shares a remote name with.  With the ambient type `.none` it adds no key,
      whatever its own override.  Otherwise it is skipped entirely when the
      parent guard trips; a nil value gives `NSNull` exactly when nil values
      are included; a to-one value gives the related object's item and a
      to-many value one item per related object, in the effective type (the
      override, else the ambient type). */
  lemma RelationshipSerialization(ctx: Context, o: ObjectId, properties: seq<Property>, opts: Options, fuel: nat, p: Property)
    requires Serializable(ctx, o, opts)
    requires PropertiesJson(ctx, o, properties, opts, fuel).Done?
    requires p in properties && p.kind.Relationship? && p.name !in opts.excludeKeys && SoleRemoteKey(properties, p)
    ensures var json := PropertiesJson(ctx, o, properties, opts, fuel).value;
            opts.relationshipType == NoRelationships ==> RemotePropertyKey(p) !in json
    ensures var json := PropertiesJson(ctx, o, properties, opts, fuel).value;
            opts.relationshipType != NoRelationships && !IsValidRelationship(ctx, opts.parent, p) ==>
              RemotePropertyKey(p) !in json
    ensures var json := PropertiesJson(ctx, o, properties, opts, fuel).value;
            var key := RemotePropertyKey(p);
            opts.relationshipType != NoRelationships && IsValidRelationship(ctx, opts.parent, p)
            && p.name !in ctx.objects[o].relationships ==>
              (key in json <==> opts.includeNilValues) && (key in json ==> json[key] == Null)
    ensures var json := PropertiesJson(ctx, o, properties, opts, fuel).value;
            var key := RemotePropertyKey(p);
            var relationshipType := EffectiveRelationshipType(p, opts.relationshipType);
            opts.relationshipType != NoRelationships && IsValidRelationship(ctx, opts.parent, p)
            && p.name in ctx.objects[o].relationships ==>
              var value := ctx.objects[o].relationships[p.name];
              key in json
              && (value.ToOne? ==>
                    value.target in ctx.objects
                    && ObjectItem(ctx, value.target, Some(o), relationshipType, opts.includeNilValues, fuel) == Done(json[key]))
              && (value.ToMany? ==>
                    json[key].Array? && |json[key].items| == |value.targets|
                    && forall i :: 0 <= i < |value.targets| ==>
                         value.targets[i] in ctx.objects
                         && ObjectItem(ctx, value.targets[i], Some(o), relationshipType, opts.includeNilValues, fuel)
                            == Done(json[key].items[i]))
  {
    var ps := WithoutExcluded(properties, opts.excludeKeys);
    WithoutExcludedMembership(properties, opts.excludeKeys, p);
    FoldSoleKey(ctx, o, ps, opts, fuel, p);
    if opts.relationshipType != NoRelationships && IsValidRelationship(ctx, opts.parent, p)
       && p.name in ctx.objects[o].relationships {
      var value := ctx.objects[o].relationships[p.name];
      ClosedTargets(ctx, o, p.name);
      if value.ToMany? {
        ItemsPointwise(ctx, value.targets, Some(o), EffectiveRelationshipType(p, opts.relationshipType), opts.includeNilValues, fuel);
      }
    }
  }

  /** With nil values included and relationships serialized, a relationship's
      key is missing exactly when the parent guard trips. */
  lemma ParentGuardIsExact(ctx: Context, o: ObjectId, properties: seq<Property>, opts: Options, fuel: nat, p: Property)
    requires Serializable(ctx, o, opts)
    requires PropertiesJson(ctx, o, properties, opts, fuel).Done?
    requires p in properties && p.kind.Relationship? && p.name !in opts.excludeKeys && SoleRemoteKey(properties, p)
    requires opts.relationshipType != NoRelationships && opts.includeNilValues
    ensures RemotePropertyKey(p) !in PropertiesJson(ctx, o, properties, opts, fuel).value <==>
      opts.parent.Some? && ctx.objects[opts.parent.value].entity.name == p.kind.destination && !p.kind.isToMany
  {
    RelationshipSerialization(ctx, o, properties, opts, fuel, p);
  }

  /** The items of a to-many relationship: one per related object, in order,
      each the item of that object. */
  lemma {:induction false} ItemsPointwise(ctx: Context, objects: seq<ObjectId>, parent: Option<ObjectId>,
                                          relationshipType: RelationshipType, includeNilValues: bool, fuel: nat)
    requires Closed(ctx) && (forall i :: 0 <= i < |objects| ==> objects[i] in ctx.objects) && ParentIn(ctx, parent)
    requires ItemsJson(ctx, objects, parent, relationshipType, includeNilValues, fuel).Done?
    ensures var items := ItemsJson(ctx, objects, parent, relationshipType, includeNilValues, fuel).value;
            |items| == |objects|
            && forall i :: 0 <= i < |objects| ==>
                 ObjectItem(ctx, objects[i], parent, relationshipType, includeNilValues, fuel) == Done(items[i])
    decreases |objects|
  {
    if objects != [] {
      var front := objects[..|objects| - 1];
      ItemsPointwise(ctx, front, parent, relationshipType, includeNilValues, fuel);
      assert forall i :: 0 <= i < |front| ==> front[i] == objects[i];
    }
  }

  /** What one related object becomes: when embedded, its own JSON object
      serialized with the referring object as parent, the same nil policy and
      no excluded keys (one level of fuel spent); when referenced, its value at
      its entity's local primary key name, or `NSNull`; otherwise `NSNull`. */
  lemma ObjectItemPolicy(ctx: Context, target: ObjectId, parent: Option<ObjectId>,
                         relationshipType: RelationshipType, includeNilValues: bool, fuel: nat)
    requires Closed(ctx) && target in ctx.objects && ParentIn(ctx, parent)
    requires ObjectItem(ctx, target, parent, relationshipType, includeNilValues, fuel).Done?
    ensures var item := ObjectItem(ctx, target, parent, relationshipType, includeNilValues, fuel).value;
            match relationshipType
            case Embedded =>
              fuel > 0
              && var nested := ObjectJson(ctx, target, Options(parent, Embedded, {}, includeNilValues), fuel - 1);
                 nested.Done? && item == Object(nested.value)
            case Reference =>
              var obj := ctx.objects[target];
              item == if LocalPrimaryKeyName(obj.entity) in obj.attributes
                      then Leaf(obj.attributes[LocalPrimaryKeyName(obj.entity)]) else Null
            case NoRelationships =>
              item == Null
  {
  }

  /** A reference to an object carries the value its embedded JSON holds
      under the remote name of its primary-key attribute, when that attribute
      stores a plain value (a date would be formatted only when embedded). */
  lemma ReferenceIsEmbeddedPrimaryKey(ctx: Context, target: ObjectId, parent: Option<ObjectId>,
                                      includeNilValues: bool, fuel: nat, p: Property)
    requires Closed(ctx) && target in ctx.objects && ParentIn(ctx, parent)
    requires ObjectItem(ctx, target, parent, Embedded, includeNilValues, fuel).Done?
    requires var obj := ctx.objects[target];
             p in RemoteProperties(obj.entity) && SoleRemoteKey(RemoteProperties(obj.entity), p)
             && p.kind.Attribute? && p.kind.attributeType != TransformableAttribute
             && p.name == LocalPrimaryKeyName(obj.entity) && p.name in obj.attributes
             && !obj.attributes[p.name].DateValue? && !obj.attributes[p.name].DataValue?
    ensures var embedded := ObjectItem(ctx, target, parent, Embedded, includeNilValues, fuel).value;
            embedded.Object? && RemotePropertyKey(p) in embedded.fields
            && ObjectItem(ctx, target, parent, Reference, includeNilValues, fuel)
               == Done(embedded.fields[RemotePropertyKey(p)])
  {
    ObjectItemPolicy(ctx, target, parent, Embedded, includeNilValues, fuel);
    AttributeSerialization(ctx, target, RemoteProperties(ctx.objects[target].entity),
                           Options(parent, Embedded, {}, includeNilValues), fuel - 1, p);
  }

  /** An embedded object never points back through a to-one relationship to
      the entity of the object that embeds it: such a key is absent from the
      nested object altogether, not `NSNull`, even with nil values included. */
  lemma EmbeddedBackReferenceIsSkipped(ctx: Context, o: ObjectId, target: ObjectId, includeNilValues: bool, fuel: nat, q: Property)
    requires Closed(ctx) && o in ctx.objects && target in ctx.objects
    requires ObjectItem(ctx, target, Some(o), Embedded, includeNilValues, fuel).Done?
    requires var properties := RemoteProperties(ctx.objects[target].entity);
             q in properties && SoleRemoteKey(properties, q)
    requires q.kind.Relationship? && !q.kind.isToMany && q.kind.destination == ctx.objects[o].entity.name
    ensures var item := ObjectItem(ctx, target, Some(o), Embedded, includeNilValues, fuel).value;
            item.Object? && RemotePropertyKey(q) !in item.fields
  {
    ObjectItemPolicy(ctx, target, Some(o), Embedded, includeNilValues, fuel);
    RelationshipSerialization(ctx, target, RemoteProperties(ctx.objects[target].entity),
                              Options(Some(o), Embedded, {}, includeNilValues), fuel - 1, q);
  }

  /** With the ambient type `.none` the result is always produced, and its keys
      are the remote names of attributes only, whatever overrides the
      relationships carry. */
  lemma NoRelationshipsMeansAttributesOnly(ctx: Context, o: ObjectId, properties: seq<Property>, opts: Options, fuel: nat)
    requires Serializable(ctx, o, opts) && opts.relationshipType == NoRelationships
    ensures PropertiesJson(ctx, o, properties, opts, fuel).Done?
    ensures forall k :: k in PropertiesJson(ctx, o, properties, opts, fuel).value ==>
      exists p :: p in properties && p.kind.Attribute? && RemotePropertyKey(p) == k
  {
    var ps := WithoutExcluded(properties, opts.excludeKeys);
    FoldDone(ctx, o, ps, opts, fuel);
    forall k | k in PropertiesJson(ctx, o, properties, opts, fuel).value
      ensures exists p :: p in properties && p.kind.Attribute? && RemotePropertyKey(p) == k
    {
      FoldKeysAreRemoteNames(ctx, o, ps, opts, fuel, k);
      var p :| p in ps && RemotePropertyKey(p) == k && Entry(ctx, o, p, opts, fuel).Done? && k in Entry(ctx, o, p, opts, fuel).value;
      WithoutExcludedMembership(properties, opts.excludeKeys, p);
    }
  }

  // ---------------------------------------------------------------------
  // The parent guard compares entities

  /** The merge depends on the options only through each property's entry. */
  lemma {:induction false} FoldCongruence(ctx: Context, o: ObjectId, ps: seq<Property>, opts1: Options, opts2: Options, fuel: nat)
    requires Serializable(ctx, o, opts1) && Serializable(ctx, o, opts2)
    requires forall i :: 0 <= i < |ps| ==> Entry(ctx, o, ps[i], opts1, fuel) == Entry(ctx, o, ps[i], opts2, fuel)
    ensures Fold(ctx, o, ps, opts1, fuel) == Fold(ctx, o, ps, opts2, fuel)
    decreases |ps|
  {
    if ps != [] {
      var front := ps[..|ps| - 1];
      assert forall i :: 0 <= i < |front| ==> front[i] == ps[i];
      FoldCongruence(ctx, o, front, opts1, opts2, fuel);
    }
  }

  /** Two parents of the same entity give the same JSON object: the guard
      looks at the parent's entity, never at the parent instance. */
  lemma GuardComparesEntities(ctx: Context, o: ObjectId, properties: seq<Property>, opts: Options, fuel: nat,
                              parent1: ObjectId, parent2: ObjectId)
    requires Serializable(ctx, o, opts) && parent1 in ctx.objects && parent2 in ctx.objects
    requires ctx.objects[parent1].entity.name == ctx.objects[parent2].entity.name
    ensures PropertiesJson(ctx, o, properties, opts.(parent := Some(parent1)), fuel)
         == PropertiesJson(ctx, o, properties, opts.(parent := Some(parent2)), fuel)
  {
    FoldCongruence(ctx, o, WithoutExcluded(properties, opts.excludeKeys),
                   opts.(parent := Some(parent1)), opts.(parent := Some(parent2)), fuel);
  }

  // ---------------------------------------------------------------------
  // Fuel

  /** More fuel never changes a result that was produced: fuel only decides
      whether the embedding depth ran out. */
  lemma {:induction false} ObjectItemFuel(ctx: Context, target: ObjectId, parent: Option<ObjectId>,
                                          relationshipType: RelationshipType, includeNilValues: bool, fuel: nat)
    requires Closed(ctx) && target in ctx.objects && ParentIn(ctx, parent)
    requires ObjectItem(ctx, target, parent, relationshipType, includeNilValues, fuel).Done?
    ensures ObjectItem(ctx, target, parent, relationshipType, includeNilValues, fuel + 1)
         == ObjectItem(ctx, target, parent, relationshipType, includeNilValues, fuel)
    decreases fuel, 0, 0
  {
    if relationshipType == Embedded {
      ObjectJsonFuel(ctx, target, Options(parent, Embedded, {}, includeNilValues), fuel - 1);
    }
  }

  /** The same for a whole object's JSON. */
  lemma ObjectJsonFuel(ctx: Context, o: ObjectId, opts: Options, fuel: nat)
    requires Serializable(ctx, o, opts)
    requires ObjectJson(ctx, o, opts, fuel).Done?
    ensures ObjectJson(ctx, o, opts, fuel + 1) == ObjectJson(ctx, o, opts, fuel)
    decreases fuel, 3, 0
  {
    FoldFuel(ctx, o, WithoutExcluded(RemoteProperties(ctx.objects[o].entity), opts.excludeKeys), opts, fuel);
  }

  lemma {:induction false} ItemsFuel(ctx: Context, objects: seq<ObjectId>, parent: Option<ObjectId>,
                                     relationshipType: RelationshipType, includeNilValues: bool, fuel: nat)
    requires Closed(ctx) && (forall i :: 0 <= i < |objects| ==> objects[i] in ctx.objects) && ParentIn(ctx, parent)
    requires ItemsJson(ctx, objects, parent, relationshipType, includeNilValues, fuel).Done?
    ensures ItemsJson(ctx, objects, parent, relationshipType, includeNilValues, fuel + 1)
         == ItemsJson(ctx, objects, parent, relationshipType, includeNilValues, fuel)
    decreases fuel, 0, |objects| + 1
  {
    if objects != [] {
      ItemsFuel(ctx, objects[..|objects| - 1], parent, relationshipType, includeNilValues, fuel);
      ObjectItemFuel(ctx, objects[|objects| - 1], parent, relationshipType, includeNilValues, fuel);
    }
  }

  lemma {:induction false} EntryFuel(ctx: Context, o: ObjectId, p: Property, opts: Options, fuel: nat)
    requires Serializable(ctx, o, opts)
    requires Entry(ctx, o, p, opts, fuel).Done?
    ensures Entry(ctx, o, p, opts, fuel + 1) == Entry(ctx, o, p, opts, fuel)
    decreases fuel, 1, 0
  {
    if p.kind.Relationship? && opts.relationshipType != NoRelationships && IsValidRelationship(ctx, opts.parent, p)
       && p.name in ctx.objects[o].relationships {
      var value := ctx.objects[o].relationships[p.name];
      var relationshipType := EffectiveRelationshipType(p, opts.relationshipType);
      ClosedTargets(ctx, o, p.name);
      if value.ToOne? {
        ObjectItemFuel(ctx, value.target, Some(o), relationshipType, opts.includeNilValues, fuel);
      } else {
        ItemsFuel(ctx, value.targets, Some(o), relationshipType, opts.includeNilValues, fuel);
      }
    }
  }

  lemma {:induction false} FoldFuel(ctx: Context, o: ObjectId, ps: seq<Property>, opts: Options, fuel: nat)
    requires Serializable(ctx, o, opts)
    requires Fold(ctx, o, ps, opts, fuel).Done?
    ensures Fold(ctx, o, ps, opts, fuel + 1) == Fold(ctx, o, ps, opts, fuel)
    decreases fuel, 2, |ps|
  {
    if ps != [] {
      FoldFuel(ctx, o, ps[..|ps| - 1], opts, fuel);
      EntryFuel(ctx, o, ps[|ps| - 1], opts, fuel);
    }
  }

  /** A JSON object produced with some fuel is the one produced with any
      larger fuel: the fuel bound only cuts off embeddings the library would
      follow further, it never alters a finished result. */
  lemma {:induction false} PropertiesJsonFuelMonotone(ctx: Context, o: ObjectId, properties: seq<Property>, opts: Options,
                                                      fuel: nat, more: nat)
    requires Serializable(ctx, o, opts) && fuel <= more
    requires PropertiesJson(ctx, o, properties, opts, fuel).Done?
    ensures PropertiesJson(ctx, o, properties, opts, more) == PropertiesJson(ctx, o, properties, opts, fuel)
    decreases more - fuel
  {
    if fuel < more {
      FoldFuel(ctx, o, WithoutExcluded(properties, opts.excludeKeys), opts, fuel);
      PropertiesJsonFuelMonotone(ctx, o, properties, opts, fuel + 1, more);
    }
  }
}

