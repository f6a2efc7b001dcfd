/**
 * `OverridesSectionStorage`: the section list lives in the
 * `layout_builder__layout` field of a content entity, found through the
 * `entity` context. This module holds the storage-id codec, context
 * derivation from a route (and its deprecated predecessors), access and
 * the preview contexts; OverridesRoutes holds the route and local-task
 * tables.
 */
module OverridesSectionStorage {
  import opened Wrappers
  import opened PhpStrings
  import opened PhpArrays
  import opened SectionStorage

  /** The plugin id, used in route names and error messages. */
  const StorageType: string := "overrides"

  /** The field holding an entity's own sections. */
  const FieldName: string := "layout_builder__layout"

  /** An entity's address: its entity type id and its id. */
  datatype EntityAddress = EntityAddress(entityTypeId: string, entityId: string)

  /** `$entity_type_id . '.' . $entity_id`. */
  function JoinAddress(a: EntityAddress): string {
    a.entityTypeId + "." + a.entityId
  }

  /**
   * `list($entity_type_id, $entity_id) = explode('.', $value, 2)`: the
   * type ends at the first dot and the id keeps every later one.
   */
  function SplitEntityId(value: string): (a: EntityAddress)
    requires '.' in value
    ensures JoinAddress(a) == value
    ensures '.' !in a.entityTypeId
  {
    var parts := Explode(value, 2);
    assert Implode(parts) == parts[0] + "." + Implode(parts[1..]);
    EntityAddress(parts[0], parts[1])
  }

  /** Splitting the join of an address whose type has no dot gives the address back, dots in the id included. */
  lemma SplitJoinAddress(a: EntityAddress)
    requires '.' !in a.entityTypeId
    ensures '.' in JoinAddress(a)
    ensures SplitEntityId(JoinAddress(a)) == a
  {
    var parts := [a.entityTypeId, a.entityId];
    assert Implode(parts) == JoinAddress(a);
    ImplodeHasDot(parts);
    ExplodeImplode(parts, 2);
  }

  /** An id with dots of its own survives the split. */
  lemma SplitKeepsDottedId()
    ensures SplitEntityId("config_pages.home.page") == EntityAddress("config_pages", "home.page")
  {
    var a := EntityAddress("config_pages", "home.page");
    assert "config_pages" == ['c', 'o', 'n', 'f', 'i', 'g', '_', 'p', 'a', 'g', 'e', 's'];
    assert JoinAddress(a) == "config_pages.home.page";
    SplitJoinAddress(a);
  }

  /** The entity is fieldable and has the layout field: `instanceof FieldableEntityInterface && hasField()`. */
  predicate HasLayoutField(e: ContentEntity) {
    e.fieldable && e.layout.Some?
  }

  /**
   * `isset($defaults['entity_type_id']) && !empty($defaults[$defaults['entity_type_id']])`:
   * the defaults name an entity type, and the default named by it is non-empty.
   */
  predicate DefaultsNameEntity(defaults: PhpArray) {
    && IsSet(Get(defaults, "entity_type_id"))
    && !IsEmpty(Lookup(defaults, Get(defaults, "entity_type_id").value))
  }

  /**
   * The first half of `extractEntityFromRoute()`: a dotted value is split;
   * otherwise the type is the `entity_type_id` default and the id the
   * default it names, both converted to strings.
   */
  function AddressFromRoute(value: Option<string>, defaults: PhpArray): (r: Option<EntityAddress>)
    ensures Dotted(value) ==> r == Some(SplitEntityId(value.value))
    ensures !Dotted(value) ==> (r.Some? <==> DefaultsNameEntity(defaults))
    ensures !Dotted(value) && r.Some? ==>
              var typeValue := Get(defaults, "entity_type_id").value;
              r.value == EntityAddress(ToPhpString(typeValue), ToPhpString(Lookup(defaults, typeValue).value))
  {
    if Dotted(value) then Some(SplitEntityId(value.value))
    else if DefaultsNameEntity(defaults) then
      var typeValue := Get(defaults, "entity_type_id").value;
      Some(EntityAddress(ToPhpString(typeValue), ToPhpString(Lookup(defaults, typeValue).value)))
    else None
  }

  /** `getStorage($entity_type_id)->load($entity_id)`: an unknown entity type throws. */
  function Load(stores: EntityStores, a: EntityAddress): (r: Result<Option<ContentEntity>, Error>)
    ensures r.Failure? <==> a.entityTypeId !in stores
    ensures r.Failure? ==> r.error == UnknownEntityType(a.entityTypeId)
    ensures r.Success? ==> (r.value.Some? <==> a.entityId in stores[a.entityTypeId])
    ensures r.Success? && r.value.Some? ==> r.value.value == stores[a.entityTypeId][a.entityId]
  {
    if a.entityTypeId !in stores then Failure(UnknownEntityType(a.entityTypeId))
    else if a.entityId in stores[a.entityTypeId] then Success(Some(stores[a.entityTypeId][a.entityId]))
    else Success(None)
  }

  /**
   * `extractEntityFromRoute()`: the addressed entity when it is loaded and
   * carries the layout field, NULL otherwise; nothing is synthesised.
   */
  function ExtractEntityFromRoute(value: Option<string>, defaults: PhpArray, stores: EntityStores)
    : (r: Result<Option<ContentEntity>, Error>)
    ensures AddressFromRoute(value, defaults).None? ==> r == Success(None)
    ensures AddressFromRoute(value, defaults).Some? ==>
              var a := AddressFromRoute(value, defaults).value;
              && (r.Failure? <==> a.entityTypeId !in stores)
              && (r.Success? ==>
                    && (r.value.Some? <==> a.entityId in stores[a.entityTypeId] && HasLayoutField(stores[a.entityTypeId][a.entityId]))
                    && (r.value.Some? ==> r.value.value == stores[a.entityTypeId][a.entityId]))
    ensures r.Success? && r.value.Some? ==> HasLayoutField(r.value.value)
  {
    match AddressFromRoute(value, defaults)
    case None => Success(None)
    case Some(a) =>
      var loaded :- Load(stores, a);
      if loaded.Some? && HasLayoutField(loaded.value) then Success(loaded) else Success(None)
  }

  /** A dotted value decides alone: the route defaults are not consulted. */
  lemma DottedValueWins(value: string, defaults1: PhpArray, defaults2: PhpArray, stores: EntityStores)
    requires '.' in value
    ensures ExtractEntityFromRoute(Some(value), defaults1, stores) == ExtractEntityFromRoute(Some(value), defaults2, stores)
  {
  }

  /** `deriveContextsFromRoute()`: `{entity}` when an entity with the layout field is found, otherwise none. */
  function DeriveContextsFromRoute(value: Option<string>, defaults: PhpArray, stores: EntityStores)
    : (r: Result<Contexts, Error>)
    ensures r.Success? <==> ExtractEntityFromRoute(value, defaults, stores).Success?
    ensures r.Success? ==> r.value.Keys <= {"entity"}
    ensures r.Success? ==> ("entity" in r.value <==> ExtractEntityFromRoute(value, defaults, stores).value.Some?)
    ensures r.Success? && "entity" in r.value ==>
              r.value["entity"] == EntityContext(ExtractEntityFromRoute(value, defaults, stores).value.value)
  {
    var found :- ExtractEntityFromRoute(value, defaults, stores);
    match found
    case None => Success(map[])
    case Some(entity) => Success(map["entity" := EntityContext(entity)])
  }

  /** `getEntity()`: the `entity` context's value. */
  function EntityOf(contexts: Contexts): (r: Result<ContentEntity, Error>)
    ensures r.Success? <==> "entity" in contexts && contexts["entity"].EntityContext?
    ensures r.Success? ==> r.value == contexts["entity"].entity
  {
    var c :- ContextValue(contexts, "entity");
    if c.EntityContext? then Success(c.entity) else Failure(ContextTypeMismatch("entity"))
  }

  /** `getStorageId()`: the entity's type and id joined by a dot. */
  function GetStorageId(contexts: Contexts): (r: Result<string, Error>)
    ensures r.Success? <==> EntityOf(contexts).Success?
    ensures r.Success? ==> '.' in r.value
    ensures r.Success? ==>
              var e := EntityOf(contexts).value;
              '.' !in e.entityTypeId ==> SplitEntityId(r.value) == EntityAddress(e.entityTypeId, e.id)
  {
    var e :- EntityOf(contexts);
    var a := EntityAddress(e.entityTypeId, e.id);
    assert JoinAddress(a)[|e.entityTypeId|] == '.';
    assert '.' !in e.entityTypeId ==> SplitEntityId(JoinAddress(a)) == a by {
      if '.' !in e.entityTypeId {
        SplitJoinAddress(a);
      }
    }
    Success(JoinAddress(a))
  }

  /**
   * The storage id round trip through a route: an entity derived from a
   * well-formed store by a dotted value reports exactly that value.
   */
  lemma {:induction false} StorageIdFromRoute(value: string, defaults: PhpArray, stores: EntityStores)
    requires EntityStoresWf(stores)
    requires '.' in value
    requires DeriveContextsFromRoute(Some(value), defaults, stores).Success?
    requires "entity" in DeriveContextsFromRoute(Some(value), defaults, stores).value
    ensures GetStorageId(DeriveContextsFromRoute(Some(value), defaults, stores).value) == Success(value)
  {
    var a := SplitEntityId(value);
    var e := stores[a.entityTypeId][a.entityId];
    assert JoinAddress(EntityAddress(e.entityTypeId, e.id)) == value;
  }

  /** `getDefaultSectionStorage()`: the display collected for the entity's `full` view mode. */
  function DefaultSectionStorage(contexts: Contexts, collect: (ContentEntity, string) -> Display): (r: Result<Display, Error>)
    ensures r.Success? <==> EntityOf(contexts).Success?
    ensures r.Success? ==> r.value == collect(EntityOf(contexts).value, "full")
  {
    var e :- EntityOf(contexts);
    Success(collect(e, "full"))
  }

  /**
   * The collector picks the display from what an entity is, never from the
   * section data in its layout field: two entities that differ only there
   * are given the same display for every view mode.
   */
  ghost predicate LayoutBlind(collect: (ContentEntity, string) -> Display) {
    forall e: ContentEntity, s: Option<seq<Section>>, mode: string
      {:trigger collect(e.(layout := s), mode)} ::
      collect(e.(layout := s), mode) == collect(e, mode)
  }

  /** `access()`: allowed iff the default display collected for the entity has Layout Builder enabled. */
  function Access(contexts: Contexts, collect: (ContentEntity, string) -> Display, returnAsObject: bool)
    : (r: Result<AccessAnswer, Error>)
    ensures r.Success? <==> EntityOf(contexts).Success?
    ensures r.Success? ==> (r.value.AsObject? <==> returnAsObject)
    ensures r.Success? ==> (Granted(r.value) <==> collect(EntityOf(contexts).value, "full").layoutBuilderEnabled)
  {
    var display :- DefaultSectionStorage(contexts, collect);
    Success(AllowedIf(display.layoutBuilderEnabled, returnAsObject))
  }

  /**
   * The entity's own sections play no part: two entities that collect the
   * same default display get the same answer whatever their layout field holds.
   */
  lemma AccessIgnoresOwnSections(e: ContentEntity, sections: Option<seq<Section>>,
                                 collect: (ContentEntity, string) -> Display, returnAsObject: bool)
    requires LayoutBlind(collect)
    ensures Access(map["entity" := EntityContext(e.(layout := sections))], collect, returnAsObject)
            == Access(map["entity" := EntityContext(e)], collect, returnAsObject)
  {
    var c1 := map["entity" := EntityContext(e.(layout := sections))];
    var c2 := map["entity" := EntityContext(e)];
    assert EntityOf(c1) == Success(e.(layout := sections)) && EntityOf(c2) == Success(e);
    assert collect(e.(layout := sections), "full") == collect(e, "full");
  }

  /**
   * The four access cases of the kernel test: an `entity_test` entity with
   * or without section data, whose `entity_test.entity_test.default`
   * display has Layout Builder enabled or not, is granted exactly when it is enabled.
   */
  lemma AccessTestCases(enabled: bool, hasData: bool)
    ensures var display := Display("entity_test", "entity_test", Some("default"), true, enabled, [], false);
            var data := if hasData then [Section("layout_default", [SectionComponent("first-uuid", "content", "foo")])] else [];
            var entity := ContentEntity("entity_test", "1", "entity_test", true, Some(data));
            Access(map["entity" := EntityContext(entity)], (e: ContentEntity, mode: string) => display, false)
            == Success(AsBool(enabled))
  {
  }

  /**
   * `getContextsDuringPreview()`: the `entity` context moves to
   * `layout_builder.entity`; every other context stays as it is.
   */
  function PreviewContexts(contexts: Contexts): (r: Contexts)
    ensures "entity" !in contexts ==> r == contexts
    ensures "entity" in contexts ==>
              && r.Keys == contexts.Keys - {"entity"} + {"layout_builder.entity"}
              && r["layout_builder.entity"] == contexts["entity"]
              && forall k :: k in contexts && k != "entity" && k != "layout_builder.entity" ==> r[k] == contexts[k]
  {
    if "entity" in contexts then (contexts - {"entity"})["layout_builder.entity" := contexts["entity"]]
    else contexts
  }

  /** The kernel test's case: a bag holding only `entity` becomes a bag holding only `layout_builder.entity`. */
  lemma PreviewSingleContext(c: Context)
    ensures PreviewContexts(map["entity" := c]) == map["layout_builder.entity" := c]
  {
    var r := PreviewContexts(map["entity" := c]);
    assert r.Keys == {"layout_builder.entity"};
  }

  /** Deprecated `extractIdFromRoute()`: the dotted value, or the type and id joined from the defaults. */
  function ExtractIdFromRoute(value: Option<string>, defaults: PhpArray): (r: Option<string>)
    ensures Dotted(value) ==> r == value
    ensures !Dotted(value) ==> (r.Some? <==> DefaultsNameEntity(defaults))
    ensures r.Some? <==> AddressFromRoute(value, defaults).Some?
    ensures r.Some? ==> r.value == JoinAddress(AddressFromRoute(value, defaults).value)
  {
    if Dotted(value) then value
    else if DefaultsNameEntity(defaults) then
      var typeValue := Get(defaults, "entity_type_id").value;
      Some(ToPhpString(typeValue) + "." + ToPhpString(Lookup(defaults, typeValue).value))
    else None
  }

  /**
   * Deprecated `getSectionListFromId()`: the layout field of the entity a
   * dotted id names; an unknown entity type throws, and every other miss
   * (no dot, no entity, not fieldable, no field) is an invalid id.
   */
  function GetSectionListFromId(id: string, stores: EntityStores): (r: Result<seq<Section>, Error>)
    ensures '.' !in id ==> r == Failure(InvalidArgument(id, StorageType))
    ensures '.' in id ==>
              var a := SplitEntityId(id);
              && (a.entityTypeId !in stores ==> r == Failure(UnknownEntityType(a.entityTypeId)))
              && (a.entityTypeId in stores ==>
                    (r.Success? <==> a.entityId in stores[a.entityTypeId] && HasLayoutField(stores[a.entityTypeId][a.entityId])))
              && (r.Success? ==> r.value == stores[a.entityTypeId][a.entityId].layout.value)
              && (a.entityTypeId in stores && r.Failure? ==> r.error == InvalidArgument(id, StorageType))
  {
    if '.' !in id then Failure(InvalidArgument(id, StorageType))
    else
      var loaded :- Load(stores, SplitEntityId(id));
      if loaded.Some? && HasLayoutField(loaded.value) then Success(loaded.value.layout.value)
      else Failure(InvalidArgument(id, StorageType))
  }

  /**
   * The deprecated pair agrees with derivation: the id extracted from a
   * route is missing exactly when no address is found, and otherwise its
   * section list is the layout field of the entity derivation finds, an
   * invalid id standing for "no entity", as long as the type holds no dot.
   */
  lemma {:induction false} LegacyPathAgrees(value: Option<string>, defaults: PhpArray, stores: EntityStores)
    requires AddressFromRoute(value, defaults).Some? ==> '.' !in AddressFromRoute(value, defaults).value.entityTypeId
    ensures ExtractIdFromRoute(value, defaults).None? <==> AddressFromRoute(value, defaults).None?
    ensures ExtractIdFromRoute(value, defaults).Some? ==>
              var id := ExtractIdFromRoute(value, defaults).value;
              GetSectionListFromId(id, stores) ==
              match ExtractEntityFromRoute(value, defaults, stores)
              case Failure(e) => Failure(e)
              case Success(None) => Failure(InvalidArgument(id, StorageType))
              case Success(Some(entity)) => Success(entity.layout.value)
  {
    match AddressFromRoute(value, defaults)
    case None =>
    case Some(a) =>
      var id := ExtractIdFromRoute(value, defaults).value;
      assert id == JoinAddress(a);
      SplitJoinAddress(a);
  }
}
