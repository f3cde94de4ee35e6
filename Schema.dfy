/**
  The managed-object schema the mapping layer reads: entities with an optional
  superentity, a `userInfo` metadata bag and an ordered property list, and
  properties that are either attributes or relationships.  The per-relationship
  `relationshipMapping` override of `RemoteObjectMappingType` is a field of the
  relationship descriptor.
 */
module Schema {

  datatype Option<+T> = None | Some(value: T) {
    /** The `??` operator: the wrapped value, else `default`. */
    function GetOr(default: T): T {
      match this
      case Some(v) => v
      case None => default
    }
  }

  /** A value stored in a `userInfo` bag.  Only string values are read as
      configuration; any other value (a number, a boolean) is `NonText`. */
  datatype InfoValue = Text(text: string) | NonText

  /** A missing `userInfo` dictionary behaves as an empty one. */
  type UserInfo = map<string, InfoValue>

  /** How related objects are serialized: `.none`, `.embedded`, `.reference`. */
  datatype RelationshipType = NoRelationships | Embedded | Reference

  /** The declared attribute type; only `Transformable` changes serialization. */
  datatype AttributeType =
    | StringAttribute
    | NumberAttribute
    | BooleanAttribute
    | DateAttribute
    | BinaryAttribute
    | TransformableAttribute

  datatype PropertyKind =
    | Attribute(attributeType: AttributeType)
    | Relationship(destination: string, isToMany: bool, mapping: Option<RelationshipType>)

  datatype Property = Property(name: string, userInfo: UserInfo, kind: PropertyKind)

  datatype Entity = Entity(
    name: string,
    userInfo: UserInfo,
    properties: seq<Property>,
    superentity: Option<Entity>)

  /** Order-preserving filter, Swift's `filter` on arrays. */
  function Filter<T>(s: seq<T>, keep: T -> bool): (r: seq<T>)
    ensures |r| <= |s|
    ensures forall i :: 0 <= i < |r| ==> r[i] in s && keep(r[i])
    ensures forall i :: 0 <= i < |s| && keep(s[i]) ==> s[i] in r
  {
    if s == [] then [] else (if keep(s[0]) then [s[0]] else []) + Filter(s[1..], keep)
  }

  /** Filtering distributes over concatenation: the kept elements of a list
      come out in the order they stand in the list. */
  lemma {:induction false} FilterAppend<T>(a: seq<T>, b: seq<T>, keep: T -> bool)
    ensures Filter(a + b, keep) == Filter(a, keep) + Filter(b, keep)
  {
    if a == [] {
      assert a + b == b;
    } else {
      assert (a + b)[0] == a[0];
      assert (a + b)[1..] == a[1..] + b;
      FilterAppend(a[1..], b, keep);
    }
  }

  /** Filtering keeps an element exactly when `keep` holds of it. */
  lemma FilterSingleton<T>(x: T, keep: T -> bool)
    ensures Filter([x], keep) == if keep(x) then [x] else []
  {
    assert [x][1..] == [];
  }

  /** Local names are unique within an entity. */
  predicate DistinctNames(ps: seq<Property>) {
    forall i, j :: 0 <= i < j < |ps| ==> ps[i].name != ps[j].name
  }

  /** Filtering a list of properties with distinct names leaves distinct names. */
  lemma {:induction false} FilterKeepsDistinctNames(ps: seq<Property>, keep: Property -> bool)
    requires DistinctNames(ps)
    ensures DistinctNames(Filter(ps, keep))
  {
    if ps != [] {
      var tail := ps[1..];
      assert DistinctNames(tail) by {
        forall i, j | 0 <= i < j < |tail| ensures tail[i].name != tail[j].name {
          assert tail[i] == ps[i + 1] && tail[j] == ps[j + 1];
        }
      }
      FilterKeepsDistinctNames(tail, keep);
      var rest := Filter(tail, keep);
      forall k | 0 <= k < |rest| ensures rest[k].name != ps[0].name {
        assert rest[k] in tail;
        var j :| 0 <= j < |tail| && tail[j] == rest[k];
        assert ps[j + 1] == rest[k];
      }
      if keep(ps[0]) {
        ConsDistinctNames(ps[0], rest);
      }
    }
  }

  /** A property put in front of a list with distinct names, none of them its own. */
  lemma ConsDistinctNames(p: Property, rest: seq<Property>)
    requires DistinctNames(rest)
    requires forall k :: 0 <= k < |rest| ==> rest[k].name != p.name
    ensures DistinctNames([p] + rest)
  {
    var ps := [p] + rest;
    forall i, j | 0 <= i < j < |ps| ensures ps[i].name != ps[j].name {
      assert ps[j] == rest[j - 1];
      if i > 0 {
        assert ps[i] == rest[i - 1];
      }
    }
  }

  /** Filtering a list none of whose elements is kept gives the empty list. */
  lemma {:induction false} FilterNoneKept<T>(s: seq<T>, keep: T -> bool)
    requires forall i :: 0 <= i < |s| ==> !keep(s[i])
    ensures Filter(s, keep) == []
  {
    if s != [] {
      FilterNoneKept(s[1..], keep);
    }
  }

  /** The filter keeping exactly the properties named like `p`, over a list
      with distinct names that contains `p`, gives `p` alone. */
  lemma {:induction false} FilterUniqueName(ps: seq<Property>, p: Property, keep: Property -> bool)
    requires DistinctNames(ps) && p in ps
    requires forall i :: 0 <= i < |ps| ==> (keep(ps[i]) <==> ps[i].name == p.name)
    ensures Filter(ps, keep) == [p]
  {
    var tail := ps[1..];
    assert forall i :: 0 <= i < |tail| ==> tail[i] == ps[i + 1];
    if ps[0] == p {
      FilterNoneKept(tail, keep);
    } else {
      assert p in tail;
      FilterUniqueName(tail, p, keep);
    }
  }
}
