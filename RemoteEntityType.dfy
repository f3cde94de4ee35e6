/**
  The `RemoteEntityType` protocol: an entity's remote and local primary-key
  names, resolved from the entity's own `userInfo`, then from its direct
  superentity's own `userInfo`, then from a default.  The same resolution is
  written out word for word in three places of the library; it is defined once
  here and the lemmas below state what each copy promises.
 */
module RemoteEntityType {
  import opened Schema

  /** The recognised metadata keys and the default local primary key. */
  datatype Key = RemotePrimaryKey | LocalPrimaryKey | DefaultLocalPrimaryKey | PropertyMapping | Ignore {
    function RawValue(): string {
      match this
      case RemotePrimaryKey => "primaryKey.remote"
      case LocalPrimaryKey => "primaryKey.local"
      case DefaultLocalPrimaryKey => "remoteID"
      case PropertyMapping => "remotePropertyName"
      case Ignore => "remoteShouldIgnore"
    }
  }

  /** The raw values are pairwise distinct, so no two keys share a metadata slot. */
  lemma RawValuesDistinct(a: Key, b: Key)
    ensures a.RawValue() == b.RawValue() <==> a == b
  {
  }

  /** `userInfo?[key.rawValue] as? String`: a value that is not a string reads as absent. */
  function StringFor(info: UserInfo, key: Key): Option<string> {
    var raw := key.RawValue();
    if raw in info && info[raw].Text? then Some(info[raw].text) else None
  }

  /** `superentity?.userInfo?[key.rawValue] as? String`. */
  function SuperentityStringFor(e: Entity, key: Key): Option<string> {
    match e.superentity
    case Some(parent) => StringFor(parent.userInfo, key)
    case None => None
  }

  /** The remote primary key name; defaults to the local primary key name.
      It is the entity's own string when there is one, and otherwise comes
      from the direct superentity's own string or the local name. */
  function RemotePrimaryKeyName(e: Entity): (name: string)
    ensures StringFor(e.userInfo, RemotePrimaryKey).Some? ==> Some(name) == StringFor(e.userInfo, RemotePrimaryKey)
    ensures Some(name) == StringFor(e.userInfo, RemotePrimaryKey)
            || Some(name) == SuperentityStringFor(e, RemotePrimaryKey)
            || name == LocalPrimaryKeyName(e)
  {
    match StringFor(e.userInfo, RemotePrimaryKey)
    case Some(own) => own
    case None =>
      match SuperentityStringFor(e, RemotePrimaryKey)
      case Some(inherited) => inherited
      case None => LocalPrimaryKeyName(e)
  }

  /** The local primary key name; defaults to "remoteID".  It is the entity's
      own string when there is one, and otherwise comes from the direct
      superentity's own string or the default. */
  function LocalPrimaryKeyName(e: Entity): (name: string)
    ensures StringFor(e.userInfo, LocalPrimaryKey).Some? ==> Some(name) == StringFor(e.userInfo, LocalPrimaryKey)
    ensures Some(name) == StringFor(e.userInfo, LocalPrimaryKey)
            || Some(name) == SuperentityStringFor(e, LocalPrimaryKey)
            || name == "remoteID"
  {
    match StringFor(e.userInfo, LocalPrimaryKey)
    case Some(own) => own
    case None =>
      match SuperentityStringFor(e, LocalPrimaryKey)
      case Some(inherited) => inherited
      case None => DefaultLocalPrimaryKey.RawValue()
  }

  /** An own remote primary key takes precedence over anything a superentity says. */
  lemma OwnRemotePrimaryKeyWins(e: Entity, k: string)
    requires StringFor(e.userInfo, RemotePrimaryKey) == Some(k)
    ensures RemotePrimaryKeyName(e) == k
  {
  }

  /** Without an own value the superentity's raw value is used, not its resolved name. */
  lemma SuperentityRemotePrimaryKey(e: Entity, k: string)
    requires StringFor(e.userInfo, RemotePrimaryKey).None?
    requires e.superentity.Some? && StringFor(e.superentity.value.userInfo, RemotePrimaryKey) == Some(k)
    ensures RemotePrimaryKeyName(e) == k
  {
  }

  /** With neither an own nor a superentity value, the remote name is the local name. */
  lemma RemotePrimaryKeyDefaultsToLocal(e: Entity)
    requires StringFor(e.userInfo, RemotePrimaryKey).None?
    requires SuperentityStringFor(e, RemotePrimaryKey).None?
    ensures RemotePrimaryKeyName(e) == LocalPrimaryKeyName(e)
  {
  }

  /** The local name is the own value, else the superentity's own value, else "remoteID". */
  lemma LocalPrimaryKeyResolution(e: Entity)
    ensures StringFor(e.userInfo, LocalPrimaryKey).Some? ==>
      LocalPrimaryKeyName(e) == StringFor(e.userInfo, LocalPrimaryKey).value
    ensures StringFor(e.userInfo, LocalPrimaryKey).None? && SuperentityStringFor(e, LocalPrimaryKey).Some? ==>
      LocalPrimaryKeyName(e) == SuperentityStringFor(e, LocalPrimaryKey).value
    ensures StringFor(e.userInfo, LocalPrimaryKey).None? && SuperentityStringFor(e, LocalPrimaryKey).None? ==>
      LocalPrimaryKeyName(e) == "remoteID"
  {
  }

  /** An entity without any primary-key metadata, own or inherited, uses "remoteID" both ways. */
  lemma NoMetadataMeansRemoteID(e: Entity)
    requires StringFor(e.userInfo, RemotePrimaryKey).None? && StringFor(e.userInfo, LocalPrimaryKey).None?
    requires SuperentityStringFor(e, RemotePrimaryKey).None? && SuperentityStringFor(e, LocalPrimaryKey).None?
    ensures RemotePrimaryKeyName(e) == "remoteID" && LocalPrimaryKeyName(e) == "remoteID"
  {
  }

  /** A non-string value under a primary-key key is the same as no value at
      all, in the entity's own `userInfo` and in its superentity's. */
  lemma NonStringValueCountsAsAbsent(e: Entity, key: Key)
    requires key == RemotePrimaryKey || key == LocalPrimaryKey
    ensures var raw := key.RawValue();
            var marked := e.(userInfo := e.userInfo[raw := NonText]);
            var cleared := e.(userInfo := e.userInfo - {raw});
            RemotePrimaryKeyName(marked) == RemotePrimaryKeyName(cleared)
            && LocalPrimaryKeyName(marked) == LocalPrimaryKeyName(cleared)
    ensures e.superentity.Some? ==>
            var raw := key.RawValue();
            var parent := e.superentity.value;
            var marked := e.(superentity := Some(parent.(userInfo := parent.userInfo[raw := NonText])));
            var cleared := e.(superentity := Some(parent.(userInfo := parent.userInfo - {raw})));
            RemotePrimaryKeyName(marked) == RemotePrimaryKeyName(cleared)
            && LocalPrimaryKeyName(marked) == LocalPrimaryKeyName(cleared)
  {
    RawValuesDistinct(RemotePrimaryKey, LocalPrimaryKey);
  }

  /** The superentity's own `userInfo`, the only thing read from the inheritance chain. */
  function SuperentityInfo(e: Entity): Option<UserInfo> {
    match e.superentity
    case Some(parent) => Some(parent.userInfo)
    case None => None
  }

  /** Resolution reads one level up and no further: two entities that agree on
      their own and their superentity's `userInfo` resolve alike, whatever
      their grandparents say. */
  lemma ResolutionIsOneLevel(e1: Entity, e2: Entity)
    requires e1.userInfo == e2.userInfo && SuperentityInfo(e1) == SuperentityInfo(e2)
    ensures RemotePrimaryKeyName(e1) == RemotePrimaryKeyName(e2)
    ensures LocalPrimaryKeyName(e1) == LocalPrimaryKeyName(e2)
  {
  }

  /** A walk up the whole inheritance chain: the nearest ancestor's own string.
      This is the transitive reading of inheritance, kept only for comparison. */
  ghost function InheritedStringFor(e: Entity, key: Key): Option<string>
    decreases e
  {
    match StringFor(e.userInfo, key)
    case Some(own) => Some(own)
    case None =>
      match e.superentity
      case Some(parent) => InheritedStringFor(parent, key)
      case None => None
  }

  /** Within two levels the one-level lookup and the chain walk agree. */
  lemma OneLevelAgreesWithChainWalk(e: Entity, key: Key)
    requires e.superentity.Some? ==> e.superentity.value.superentity.None?
    ensures (match StringFor(e.userInfo, key)
             case Some(own) => Some(own)
             case None => SuperentityStringFor(e, key)) == InheritedStringFor(e, key)
  {
    if e.superentity.Some? {
      var parent := e.superentity.value;
      assert InheritedStringFor(parent, key) == StringFor(parent.userInfo, key);
    }
  }

  /** Three levels apart they do not: a key set only on the grandparent is
      found by the chain walk but never by the library's resolution. */
  lemma GrandparentNeverConsulted()
    ensures var grandparent := Entity("Base", map["primaryKey.remote" := Text("_id")], [], None);
            var parent := Entity("Middle", map[], [], Some(grandparent));
            var child := Entity("Leaf", map[], [], Some(parent));
            RemotePrimaryKeyName(child) == "remoteID"
            && InheritedStringFor(child, RemotePrimaryKey) == Some("_id")
  {
    var grandparent := Entity("Base", map["primaryKey.remote" := Text("_id")], [], None);
    var parent := Entity("Middle", map[], [], Some(grandparent));
    var child := Entity("Leaf", map[], [], Some(parent));
    assert StringFor(grandparent.userInfo, RemotePrimaryKey) == Some("_id");
    assert InheritedStringFor(parent, RemotePrimaryKey) == Some("_id");
  }

  /** The library's own test entities: a custom remote key "_id", an empty
      entity, and an entity inheriting both keys from an abstract superentity. */
  lemma TestEntitiesResolve()
    ensures var custom := Entity("CustomRemotePrimaryKeyEntity", map["primaryKey.remote" := Text("_id")], [], None);
            RemotePrimaryKeyName(custom) == "_id"
    ensures var empty := Entity("EmptyEntity", map[], [], None);
            RemotePrimaryKeyName(empty) == LocalPrimaryKeyName(empty) == "remoteID"
    ensures var customLocal := Entity("CustomLocalPrimaryKeyEntity", map["primaryKey.local" := Text("customPrimaryKey")], [], None);
            LocalPrimaryKeyName(customLocal) == "customPrimaryKey"
    ensures var abstractEntity := Entity("CustomKeyAbstractEntity",
              map["primaryKey.remote" := Text("_id"), "primaryKey.local" := Text("customPrimaryKey")], [], None);
            var sub := Entity("CustomKeyEntity", map[], [], Some(abstractEntity));
            LocalPrimaryKeyName(sub) == "customPrimaryKey" && RemotePrimaryKeyName(sub) == "_id"
  {
  }
}
