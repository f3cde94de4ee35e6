/**
  Property-level mapping (`RemoteObjectMappingType` on property descriptions)
  and the entity-level views built from it: the remote properties of an entity
  and their indexes by remote and by local name.
 */
module CoreDataRemoteMapping {
  import opened Schema
  import opened RemoteEntityType

  /** The remote property key: the `remotePropertyName` string in `userInfo`, else the local name. */
  function RemotePropertyKey(p: Property): (key: string)
    ensures key == p.name || ("remotePropertyName" in p.userInfo && p.userInfo["remotePropertyName"] == Text(key))
    ensures "remotePropertyName" !in p.userInfo ==> key == p.name
  {
    StringFor(p.userInfo, PropertyMapping).GetOr(p.name)
  }

  /** A property is ignored when the `remoteShouldIgnore` key is present, whatever its value. */
  predicate RemoteShouldIgnore(p: Property) {
    Ignore.RawValue() in p.userInfo
  }

  /** The override and default rules of the remote key, for every property. */
  lemma RemotePropertyKeyResolution(p: Property)
    ensures "remotePropertyName" in p.userInfo && p.userInfo["remotePropertyName"].Text? ==>
      RemotePropertyKey(p) == p.userInfo["remotePropertyName"].text
    ensures "remotePropertyName" !in p.userInfo ==> RemotePropertyKey(p) == p.name
    ensures "remotePropertyName" in p.userInfo && p.userInfo["remotePropertyName"].NonText? ==>
      RemotePropertyKey(p) == p.name
  {
  }

  /** The ignore flag looks at presence only: a property is ignored with any value under the key. */
  lemma IgnoreIsPresenceOnly(p: Property, v: InfoValue)
    ensures RemoteShouldIgnore(p.(userInfo := p.userInfo["remoteShouldIgnore" := v]))
    ensures !RemoteShouldIgnore(p.(userInfo := p.userInfo - {"remoteShouldIgnore"}))
  {
  }

  function NotIgnored(p: Property): bool {
    !RemoteShouldIgnore(p)
  }

  /** `remoteProperties`: the properties represented on the remote, in schema
      order; exactly the entity's properties that are not ignored. */
  function RemoteProperties(e: Entity): (r: seq<Property>)
    ensures forall p :: p in r <==> p in e.properties && !RemoteShouldIgnore(p)
  {
    Filter(e.properties, NotIgnored)
  }

  /** `RemoteProperties` preserves order: it maps a split of the property list
      to a split of the result. */
  lemma RemotePropertiesPreserveOrder(e: Entity, front: seq<Property>, back: seq<Property>)
    requires e.properties == front + back
    ensures RemoteProperties(e) == Filter(front, NotIgnored) + Filter(back, NotIgnored)
  {
    FilterAppend(front, back, NotIgnored);
  }

  /** The key a property is indexed under. */
  function IndexKey(p: Property, useLocalNames: bool): string {
    if useLocalNames then p.name else RemotePropertyKey(p)
  }

  /** The `reduce` that indexes properties by name: a left fold where a later
      property overwrites an earlier one under the same key.  Its keys are the
      chosen names of the properties, and every entry is one of the properties,
      stored under its own key. */
  function IndexBy(ps: seq<Property>, useLocalNames: bool): (index: map<string, Property>)
    ensures index.Keys == set p | p in ps :: IndexKey(p, useLocalNames)
    ensures forall k :: k in index ==> index[k] in ps && IndexKey(index[k], useLocalNames) == k
    decreases |ps|
  {
    if ps == [] then map[]
    else
      var last := ps[|ps| - 1];
      IndexBy(ps[..|ps| - 1], useLocalNames)[IndexKey(last, useLocalNames) := last]
  }

  /** Last write wins: a key maps to the last property in order that has it. */
  lemma {:induction false} IndexByLastWins(ps: seq<Property>, useLocalNames: bool, j: nat)
    requires j < |ps|
    requires forall i :: j < i < |ps| ==> IndexKey(ps[i], useLocalNames) != IndexKey(ps[j], useLocalNames)
    ensures IndexKey(ps[j], useLocalNames) in IndexBy(ps, useLocalNames)
    ensures IndexBy(ps, useLocalNames)[IndexKey(ps[j], useLocalNames)] == ps[j]
  {
    var front := ps[..|ps| - 1];
    if j < |ps| - 1 {
      assert front[j] == ps[j];
      IndexByLastWins(front, useLocalNames, j);
    }
  }

  /** With distinct keys nothing is overwritten: one entry per property. */
  lemma {:induction false} IndexBySizeWhenLocalNamesDistinct(ps: seq<Property>)
    requires DistinctNames(ps)
    ensures |IndexBy(ps, true)| == |ps|
  {
    if ps != [] {
      var front := ps[..|ps| - 1];
      var last := ps[|ps| - 1];
      assert DistinctNames(front);
      IndexBySizeWhenLocalNamesDistinct(front);
      assert last.name !in IndexBy(front, true);
    }
  }

  /** `remotePropertiesByName`: the remote properties indexed by remote key.
      Its keys are the remote keys of the remote properties, and each entry is
      a remote property with that key. */
  function RemotePropertiesByName(e: Entity): (index: map<string, Property>)
    ensures index.Keys == set p | p in RemoteProperties(e) :: RemotePropertyKey(p)
    ensures forall k :: k in index ==> index[k] in RemoteProperties(e) && RemotePropertyKey(index[k]) == k
  {
    IndexBy(RemoteProperties(e), false)
  }

  /** `remotePropertiesByLocalName`: the remote properties indexed by local
      name.  Its keys are the local names of the remote properties, and each
      entry is the remote property of that name. */
  function RemotePropertiesByLocalName(e: Entity): (index: map<string, Property>)
    ensures index.Keys == set p | p in RemoteProperties(e) :: p.name
    ensures forall k :: k in index ==> index[k] in RemoteProperties(e) && index[k].name == k
  {
    IndexBy(RemoteProperties(e), true)
  }

  /** When local names are distinct the local-name index has exactly one entry
      per remote property, and each entry is the property of that name. */
  lemma RemotePropertiesByLocalNameIsExact(e: Entity)
    requires DistinctNames(e.properties)
    ensures |RemotePropertiesByLocalName(e)| == |RemoteProperties(e)|
    ensures forall j :: 0 <= j < |RemoteProperties(e)| ==>
      var p := RemoteProperties(e)[j];
      p.name in RemotePropertiesByLocalName(e) && RemotePropertiesByLocalName(e)[p.name] == p
  {
    var ps := RemoteProperties(e);
    FilterKeepsDistinctNames(e.properties, NotIgnored);
    IndexBySizeWhenLocalNamesDistinct(ps);
    forall j | 0 <= j < |ps|
      ensures ps[j].name in IndexBy(ps, true) && IndexBy(ps, true)[ps[j].name] == ps[j]
    {
      IndexByLastWins(ps, true, j);
    }
  }

  /** The library's test entity: three properties, one custom remote name,
      one default, one ignored; two of them are remote properties. */
  lemma RemoteObjectEntityExample()
    ensures var custom := Property("customRemoteProperty", map["remotePropertyName" := Text("remoteProperty")], Attribute(StringAttribute));
            var plain := Property("defaultRemoteProperty", map[], Attribute(StringAttribute));
            var ignored := Property("remoteShouldIgnore", map["remoteShouldIgnore" := Text("YES")], Attribute(StringAttribute));
            var e := Entity("RemoteObjectEntity", map[], [custom, plain, ignored], None);
            RemotePropertyKey(custom) == "remoteProperty"
            && RemotePropertyKey(plain) == "defaultRemoteProperty"
            && RemoteShouldIgnore(ignored)
            && |e.properties| == 3
            && RemoteProperties(e) == [custom, plain]
  {
    var custom := Property("customRemoteProperty", map["remotePropertyName" := Text("remoteProperty")], Attribute(StringAttribute));
    var plain := Property("defaultRemoteProperty", map[], Attribute(StringAttribute));
    var ignored := Property("remoteShouldIgnore", map["remoteShouldIgnore" := Text("YES")], Attribute(StringAttribute));
    assert NotIgnored(custom) && NotIgnored(plain) && !NotIgnored(ignored);
    assert [custom, plain, ignored][1..] == [plain, ignored];
    assert [plain, ignored][1..] == [ignored];
    assert [ignored][1..] == [];
  }
}
