/**
 * The route and local-task tables of `OverridesSectionStorage`: which
 * entity types it serves, the local tasks it declares for them and the
 * arguments it passes to `buildLayoutRoutes()`.
 */
module OverridesRoutes {
  import opened Wrappers
  import opened PhpArrays
  import opened SectionStorage
  import OverridesSectionStorage

  /**
   * `getEntityTypes()`'s test: a fieldable entity class with a view
   * builder and a `canonical` link template.
   */
  predicate IsLayoutEntityType(t: EntityType) {
    t.fieldable && t.hasViewBuilder && t.canonicalTemplate.Some?
  }

  /** `getEntityTypes()`: the registry's definitions that pass the test, in registry order. */
  function GetEntityTypes(registry: seq<EntityType>): (r: seq<EntityType>)
    ensures forall t :: t in r <==> t in registry && IsLayoutEntityType(t)
    ensures DistinctIds(registry) ==> DistinctIds(r)
  {
    Filter(registry, IsLayoutEntityType)
  }

  /** The relations Overrides declares a local task for. */
  const TaskRelations: seq<string> := ["view", "save", "cancel", "revert"]

  /** `['layout_builder_is_active:' . $entity_type_id]`: the cache context list of every task. */
  function CacheContexts(entityTypeId: string): PhpValue {
    Arr(Set([], "0", Str("layout_builder_is_active:" + entityTypeId)))
  }

  /**
   * The storage's own part of each local task, before the base definition
   * is added in: the array literal of each relation, keys in source order.
   */
  function TaskDefinition(entityTypeId: string, rel: string): (def: PhpArray)
    ensures Get(def, "route_name") == Some(Str(TaskKey(OverridesSectionStorage.StorageType, entityTypeId, rel)))
    ensures Get(def, "cache_contexts") == Some(CacheContexts(entityTypeId))
    ensures rel == "view" ==> Get(def, "weight") == Some(Int(15))
    ensures rel == "view" ==> Get(def, "base_route") == Some(Str("entity." + entityTypeId + ".canonical"))
    ensures rel != "view" ==> Get(def, "parent_id") == Some(Str(TaskParent(OverridesSectionStorage.StorageType, entityTypeId)))
    ensures rel == "cancel" ==> Get(def, "weight") == Some(Int(5))
    ensures rel == "revert" ==> Get(def, "weight") == Some(Int(10))
  {
    var route := Entry("route_name", Str(TaskKey(OverridesSectionStorage.StorageType, entityTypeId, rel)));
    var parent := Entry("parent_id", Str(TaskParent(OverridesSectionStorage.StorageType, entityTypeId)));
    var cache := Entry("cache_contexts", CacheContexts(entityTypeId));
    if rel == "view" then
      var def := [route, Entry("weight", Int(15)), Entry("title", Str("Layout")),
                  Entry("base_route", Str("entity." + entityTypeId + ".canonical")), cache];
      GetFirstEntry(def, 0);
      GetFirstEntry(def, 1);
      GetFirstEntry(def, 3);
      GetFirstEntry(def, 4);
      def
    else if rel == "save" then
      var def := [route, Entry("title", Str("Save Layout")), parent, cache];
      GetFirstEntry(def, 0);
      GetFirstEntry(def, 2);
      GetFirstEntry(def, 3);
      def
    else
      var title := if rel == "cancel" then "Cancel Layout" else "Revert to defaults";
      var weight := if rel == "cancel" then 5 else 10;
      var def := [route, Entry("title", Str(title)), parent, Entry("weight", Int(weight)), cache];
      GetFirstEntry(def, 0);
      GetFirstEntry(def, 2);
      GetFirstEntry(def, 3);
      GetFirstEntry(def, 4);
      def
  }

  /**
   * `buildLocalTasks()`: the view, save, cancel and revert tasks of every
   * served entity type, each the base definition plus the storage's own.
   */
  function BuildLocalTasks(registry: seq<EntityType>, base: PhpArray): (r: PhpArray)
    ensures forall t, rel :: t in registry && IsLayoutEntityType(t) && rel in TaskRelations ==>
              TaskKey(OverridesSectionStorage.StorageType, t.id, rel) in Keys(r)
    ensures DistinctKeys(r)
  {
    var s := OverridesSectionStorage.StorageType;
    var types := GetEntityTypes(registry);
    AllTaskKeysCover(types, s, TaskRelations);
    LocalTasks([], types, s, TaskRelations, base, TaskDefinition)
  }

  /** No other task is emitted: every key names a served entity type and one of the four relations. */
  lemma BuildLocalTasksOnly(registry: seq<EntityType>, base: PhpArray, k: string)
    ensures k in Keys(BuildLocalTasks(registry, base)) ==>
              exists t, rel :: t in registry && IsLayoutEntityType(t) && rel in TaskRelations
                               && k == TaskKey(OverridesSectionStorage.StorageType, t.id, rel)
  {
    if k in Keys(BuildLocalTasks(registry, base)) {
      var s := OverridesSectionStorage.StorageType;
      var types := GetEntityTypes(registry);
      AllTaskKeysOnly(types, s, TaskRelations, k);
      var t, rel :| t in types && rel in TaskRelations && k == TaskKey(s, t.id, rel);
      assert t in registry && IsLayoutEntityType(t);
    }
  }

  /** With distinct entity type ids, each task is the base definition plus its own definition. */
  lemma BuildLocalTasksValues(registry: seq<EntityType>, base: PhpArray, t: EntityType, rel: string)
    requires DistinctIds(registry)
    requires t in registry && IsLayoutEntityType(t) && rel in TaskRelations
    ensures Get(BuildLocalTasks(registry, base), TaskKey(OverridesSectionStorage.StorageType, t.id, rel))
            == Some(Arr(Union(base, TaskDefinition(t.id, rel))))
  {
    LocalTasksValues([], GetEntityTypes(registry), OverridesSectionStorage.StorageType, TaskRelations, base, TaskDefinition);
  }

  /** A field of an emitted task comes from the base definition when it sets it, else from the storage. */
  lemma TaskFieldOf(registry: seq<EntityType>, base: PhpArray, t: EntityType, rel: string, field: string)
    requires DistinctIds(registry)
    requires t in registry && IsLayoutEntityType(t) && rel in TaskRelations
    ensures TaskField(BuildLocalTasks(registry, base), TaskKey(OverridesSectionStorage.StorageType, t.id, rel), field)
            == if field in Keys(base) then Get(base, field) else Get(TaskDefinition(t.id, rel), field)
  {
    BuildLocalTasksValues(registry, base, t, rel);
  }

  /** The base definition's value of `field` if it sets one, `v` otherwise. */
  function BaseOr(base: PhpArray, field: string, v: PhpValue): Option<PhpValue> {
    if field in Keys(base) then Get(base, field) else Some(v)
  }

  /**
   * View weighs 15 and hangs off the entity's canonical route; cancel
   * weighs 5 and revert 10; save, cancel and revert name the view task as
   * parent; every field yields to the base definition when it sets it.
   */
  lemma TaskFields(registry: seq<EntityType>, base: PhpArray, t: EntityType)
    requires DistinctIds(registry) && t in registry && IsLayoutEntityType(t)
    ensures var s := OverridesSectionStorage.StorageType;
            var tasks := BuildLocalTasks(registry, base);
            var parent := BaseOr(base, "parent_id", Str(TaskParent(s, t.id)));
            && TaskField(tasks, TaskKey(s, t.id, "view"), "weight") == BaseOr(base, "weight", Int(15))
            && TaskField(tasks, TaskKey(s, t.id, "view"), "base_route") == BaseOr(base, "base_route", Str("entity." + t.id + ".canonical"))
            && TaskField(tasks, TaskKey(s, t.id, "cancel"), "weight") == BaseOr(base, "weight", Int(5))
            && TaskField(tasks, TaskKey(s, t.id, "revert"), "weight") == BaseOr(base, "weight", Int(10))
            && TaskField(tasks, TaskKey(s, t.id, "save"), "parent_id") == parent
            && TaskField(tasks, TaskKey(s, t.id, "cancel"), "parent_id") == parent
            && TaskField(tasks, TaskKey(s, t.id, "revert"), "parent_id") == parent
  {
    assert "view" in TaskRelations && "save" in TaskRelations && "cancel" in TaskRelations && "revert" in TaskRelations;
    TaskFieldOf(registry, base, t, "view", "weight");
    TaskFieldOf(registry, base, t, "view", "base_route");
    TaskFieldOf(registry, base, t, "cancel", "weight");
    TaskFieldOf(registry, base, t, "revert", "weight");
    TaskFieldOf(registry, base, t, "save", "parent_id");
    TaskFieldOf(registry, base, t, "cancel", "parent_id");
    TaskFieldOf(registry, base, t, "revert", "parent_id");
  }

  /** `getFieldStorageDefinitions()`, reduced to each field's storage type, per entity type id. */
  type FieldStorageTypes = string -> map<string, string>

  /**
   * `hasIntegerId()`: the storage type of the id field is `integer`. A
   * missing definition for the id key fails, as the method call on NULL does.
   */
  function HasIntegerId(t: EntityType, fieldTypes: FieldStorageTypes): (r: Result<bool, Error>)
    ensures r.Failure? <==> t.idKey !in fieldTypes(t.id)
    ensures r.Failure? ==> r.error == MissingFieldDefinition(t.id, t.idKey)
    ensures r.Success? ==> (r.value <==> fieldTypes(t.id)[t.idKey] == "integer")
  {
    var definitions := fieldTypes(t.id);
    if t.idKey !in definitions then Failure(MissingFieldDefinition(t.id, t.idKey))
    else Success(definitions[t.idKey] == "integer")
  }

  /** The requirement pattern for integer ids, `'\d+'`. */
  const IntegerPattern: string := "\\d+"

  /**
   * The route options `buildRoutes()` assembles: the `parameters` option
   * declares `section_storage` and then the entity parameter typed
   * `entity:X`; an entity type named `section_storage` lands on the same
   * key, so only the typed entry remains.
   */
  function RouteOptions(entityTypeId: string): PhpArray {
    var typed := Entry("type", Str("entity:" + entityTypeId));
    if entityTypeId == "section_storage" then
      [Entry("parameters", Arr([Entry("section_storage", Arr([typed]))]))]
    else
      [Entry("parameters", Arr([Entry("section_storage", Arr([])), Entry(entityTypeId, Arr([typed]))]))]
  }

  /**
   * The options are what `$options['parameters']['section_storage'] = []`
   * followed by `$options['parameters'][$entity_type_id]['type'] = 'entity:' . $entity_type_id`
   * leave behind, starting from no options.
   */
  lemma RouteOptionsWrites(entityTypeId: string)
    ensures var declared := SetIn([], "parameters", "section_storage", Arr([]));
            RouteOptions(entityTypeId)
            == SetIn(declared, "parameters", entityTypeId,
                     Arr(Set(Inner(Inner(declared, "parameters"), entityTypeId), "type", Str("entity:" + entityTypeId))))
  {
    var typed := Entry("type", Str("entity:" + entityTypeId));
    var declaredParameters := [Entry("section_storage", Arr([]))];
    assert Set([], "section_storage", Arr([])) == declaredParameters;
    var declared := SetIn([], "parameters", "section_storage", Arr([]));
    assert declared == [Entry("parameters", Arr(declaredParameters))];
    assert Inner(declared, "parameters") == declaredParameters;
    assert Inner(declaredParameters, entityTypeId) == [];
    assert Set([], "type", Str("entity:" + entityTypeId)) == [typed];
    var parameters := Set(declaredParameters, entityTypeId, Arr([typed]));
    assert SetIn(declared, "parameters", entityTypeId, Arr([typed])) == [Entry("parameters", Arr(parameters))];
    if entityTypeId == "section_storage" {
      assert parameters == [Entry("section_storage", Arr([typed]))];
    } else {
      assert parameters == declaredParameters + [Entry(entityTypeId, Arr([typed]))];
      assert parameters == [Entry("section_storage", Arr([])), Entry(entityTypeId, Arr([typed]))];
    }
  }

  /**
   * The only option is `parameters`; it declares `section_storage` and the
   * entity parameter, typed `entity:X`, and `section_storage` comes first
   * with an empty declaration unless the entity type shares its name.
   */
  lemma RouteOptionsShape(entityTypeId: string)
    ensures var options := RouteOptions(entityTypeId);
            && Keys(options) == {"parameters"}
            && Keys(Inner(options, "parameters")) == {"section_storage", entityTypeId}
            && Get(Inner(Inner(options, "parameters"), entityTypeId), "type") == Some(Str("entity:" + entityTypeId))
            && (entityTypeId != "section_storage" ==>
                  && Inner(options, "parameters")[0].key == "section_storage"
                  && Get(Inner(options, "parameters"), "section_storage") == Some(Arr([])))
  {
    var typed := Entry("type", Str("entity:" + entityTypeId));
    var options := RouteOptions(entityTypeId);
    assert Keys([typed]) == {"type"};
    if entityTypeId == "section_storage" {
      var parameters := [Entry("section_storage", Arr([typed]))];
      assert Inner(options, "parameters") == parameters;
      assert Keys(parameters) == {"section_storage"};
    } else {
      var parameters := [Entry("section_storage", Arr([])), Entry(entityTypeId, Arr([typed]))];
      assert Inner(options, "parameters") == parameters;
      assert parameters[1..] == [Entry(entityTypeId, Arr([typed]))];
      assert Keys(parameters[1..]) == {entityTypeId};
      assert Get(parameters[1..], entityTypeId) == Some(Arr([typed]));
      assert Keys(parameters) == {"section_storage", entityTypeId};
      assert Inner(parameters, entityTypeId) == [typed];
    }
  }

  /**
   * The arguments `buildRoutes()` passes to `buildLayoutRoutes()` for one
   * entity type; fails when `hasIntegerId()` does.
   */
  function RouteArgs(t: EntityType, fieldTypes: FieldStorageTypes): (r: Result<LayoutRouteArgs, Error>)
    requires IsLayoutEntityType(t)
    ensures r.Failure? <==> t.idKey !in fieldTypes(t.id)
  {
    var integerId :- HasIntegerId(t, fieldTypes);
    var requirements := if integerId then [Entry(t.id, Str(IntegerPattern))] else [];
    Success(LayoutRouteArgs(
      t.canonicalTemplate.value + "/layout",
      [Entry("entity_type_id", Str(t.id))],
      requirements,
      RouteOptions(t.id),
      t.id))
  }

  /**
   * The shape of the arguments: the canonical template plus `/layout`, the
   * entity type id as the only default, the `\d+` requirement exactly
   * when the id is an integer, and the parameter options.
   */
  lemma RouteArgsShape(t: EntityType, fieldTypes: FieldStorageTypes)
    requires IsLayoutEntityType(t) && t.idKey in fieldTypes(t.id)
    ensures var args := RouteArgs(t, fieldTypes).value;
            var integerId := fieldTypes(t.id)[t.idKey] == "integer";
            && args.path == t.canonicalTemplate.value + "/layout"
            && args.entityTypeId == t.id
            && Keys(args.defaults) == {"entity_type_id"}
            && Get(args.defaults, "entity_type_id") == Some(Str(t.id))
            && (integerId ==> Keys(args.requirements) == {t.id} && Get(args.requirements, t.id) == Some(Str(IntegerPattern)))
            && (!integerId ==> Keys(args.requirements) == {})
            && args.options == RouteOptions(t.id)
  {
  }

  /**
   * The arguments of every `buildLayoutRoutes()` call of the `foreach` in
   * `buildRoutes()`, in order; the first type without an id field
   * definition aborts the loop.
   */
  function AllRouteArgs(types: seq<EntityType>, fieldTypes: FieldStorageTypes): (r: Result<seq<LayoutRouteArgs>, Error>)
    requires forall t :: t in types ==> IsLayoutEntityType(t)
    ensures r.Success? ==> |r.value| == |types|
    decreases |types|
  {
    if |types| == 0 then Success([])
    else
      match RouteArgs(types[0], fieldTypes)
      case Failure(e) => Failure(e)
      case Success(args) =>
        match AllRouteArgs(types[1..], fieldTypes)
        case Failure(e) => Failure(e)
        case Success(rest) => Success([args] + rest)
  }

  /** The loop completes exactly when every type has a definition for its id field. */
  lemma {:induction false} AllRouteArgsSucceed(types: seq<EntityType>, fieldTypes: FieldStorageTypes)
    requires forall t :: t in types ==> IsLayoutEntityType(t)
    ensures AllRouteArgs(types, fieldTypes).Success? <==> forall t :: t in types ==> t.idKey in fieldTypes(t.id)
    decreases |types|
  {
    if |types| > 0 {
      var tail := types[1..];
      AllRouteArgsSucceed(tail, fieldTypes);
      assert forall t :: t in types <==> t == types[0] || t in tail;
    }
  }

  /** A completed loop made the first type's call and then completed over the rest. */
  lemma AllRouteArgsCons(types: seq<EntityType>, fieldTypes: FieldStorageTypes)
    requires forall t :: t in types ==> IsLayoutEntityType(t)
    requires |types| > 0 && AllRouteArgs(types, fieldTypes).Success?
    ensures RouteArgs(types[0], fieldTypes).Success? && AllRouteArgs(types[1..], fieldTypes).Success?
    ensures AllRouteArgs(types, fieldTypes).value
            == [RouteArgs(types[0], fieldTypes).value] + AllRouteArgs(types[1..], fieldTypes).value
  {
  }

  /** The i-th call is made with the arguments computed for the i-th type. */
  lemma {:induction false} AllRouteArgsAt(types: seq<EntityType>, fieldTypes: FieldStorageTypes, i: nat)
    requires forall t :: t in types ==> IsLayoutEntityType(t)
    ensures AllRouteArgs(types, fieldTypes).Success? && i < |types| ==>
              RouteArgs(types[i], fieldTypes) == Success(AllRouteArgs(types, fieldTypes).value[i])
    decreases i
  {
    if AllRouteArgs(types, fieldTypes).Success? && i < |types| {
      AllRouteArgsCons(types, fieldTypes);
      if i > 0 {
        var tail := types[1..];
        assert tail[i - 1] == types[i];
        AllRouteArgsAt(tail, fieldTypes, i - 1);
      }
    }
  }

  /** `buildLayoutRoutes()` applied to the collection once per argument tuple, in order. */
  function ApplyBuilds(collection: RouteCollection, calls: seq<LayoutRouteArgs>, build: LayoutRouteBuilder): RouteCollection
    decreases |calls|
  {
    if |calls| == 0 then collection else ApplyBuilds(build(collection, calls[0]), calls[1..], build)
  }

  /**
   * The `foreach` over the calls: building from the first calls and then
   * from the rest is building from all of them, so each call sees the
   * collection every earlier call left behind.
   */
  lemma {:induction false} ApplyBuildsAppend(collection: RouteCollection, xs: seq<LayoutRouteArgs>,
                                             ys: seq<LayoutRouteArgs>, build: LayoutRouteBuilder)
    ensures ApplyBuilds(collection, xs + ys, build) == ApplyBuilds(ApplyBuilds(collection, xs, build), ys, build)
    decreases |xs|
  {
    if |xs| > 0 {
      assert (xs + ys)[0] == xs[0];
      assert (xs + ys)[1..] == xs[1..] + ys;
      ApplyBuildsAppend(build(collection, xs[0]), xs[1..], ys, build);
    } else {
      assert xs + ys == ys;
    }
  }

  /** Appending one call applies `buildLayoutRoutes()` once more, to the collection built so far. */
  lemma ApplyBuildsSnoc(collection: RouteCollection, xs: seq<LayoutRouteArgs>, x: LayoutRouteArgs, build: LayoutRouteBuilder)
    ensures ApplyBuilds(collection, xs + [x], build) == build(ApplyBuilds(collection, xs, build), x)
  {
    ApplyBuildsAppend(collection, xs, [x], build);
    assert [x][1..] == [];
  }

  /**
   * `buildRoutes()`: every served entity type gets exactly one
   * `buildLayoutRoutes()` call, in registry order; the whole build fails
   * when one of them has no definition for its id field.
   */
  function BuildRoutes(registry: seq<EntityType>, collection: RouteCollection, fieldTypes: FieldStorageTypes,
                       build: LayoutRouteBuilder): (r: Result<(RouteCollection, seq<LayoutRouteArgs>), Error>)
    ensures r.Success? <==> forall t :: t in registry && IsLayoutEntityType(t) ==> t.idKey in fieldTypes(t.id)
    ensures r.Success? ==> |r.value.1| == |GetEntityTypes(registry)|
    ensures r.Success? ==> forall i :: 0 <= i < |r.value.1| ==>
              RouteArgs(GetEntityTypes(registry)[i], fieldTypes) == Success(r.value.1[i])
    ensures r.Success? ==> r.value.0 == ApplyBuilds(collection, r.value.1, build)
  {
    var types := GetEntityTypes(registry);
    assert forall i :: 0 <= i < |types| ==> types[i] in types;
    AllRouteArgsSucceed(types, fieldTypes);
    match AllRouteArgs(types, fieldTypes)
    case Failure(e) => Failure(e)
    case Success(calls) =>
      assert forall i :: 0 <= i < |calls| ==> RouteArgs(types[i], fieldTypes) == Success(calls[i]) by {
        forall i | 0 <= i < |calls| ensures RouteArgs(types[i], fieldTypes) == Success(calls[i]) {
          AllRouteArgsAt(types, fieldTypes, i);
        }
      }
      Success((ApplyBuilds(collection, calls, build), calls))
  }
}
