/**
 * The route and local-task tables of `DefaultsSectionStorage`: which
 * entity types it serves, the local tasks it declares for them, the
 * arguments it passes to `buildLayoutRoutes()` and the way it patches the
 * existing `entity_view_display` routes.
 */
module DefaultsRoutes {
  import opened Wrappers
  import opened PhpStrings
  import opened PhpArrays
  import opened SectionStorage
  import DefaultsSectionStorage

  /**
   * `getEntityTypes()`'s test: a fieldable entity class with a view
   * builder and a truthy `field_ui_base_route`.
   */
  predicate IsLayoutEntityType(t: EntityType) {
    && t.fieldable
    && t.hasViewBuilder
    && t.fieldUiBaseRoute.Some?
    && !IsEmpty(Some(Str(t.fieldUiBaseRoute.value)))
  }

  /** `getEntityTypes()`: the registry's definitions that pass the test, in registry order. */
  function GetEntityTypes(registry: seq<EntityType>): (r: seq<EntityType>)
    ensures forall t :: t in r <==> t in registry && IsLayoutEntityType(t)
    ensures DistinctIds(registry) ==> DistinctIds(r)
  {
    Filter(registry, IsLayoutEntityType)
  }

  /** The relations Defaults declares a local task for. */
  const TaskRelations: seq<string> := ["view", "save", "cancel"]

  /** The storage's own part of each local task, before the base definition is added in. */
  function TaskDefinition(entityTypeId: string, rel: string): (def: PhpArray)
    ensures Get(def, "route_name") == Some(Str(TaskKey(DefaultsSectionStorage.StorageType, entityTypeId, rel)))
    ensures rel == "view" ==> Get(def, "base_route") == Some(Str(TaskKey(DefaultsSectionStorage.StorageType, entityTypeId, "view")))
    ensures rel != "view" ==> Get(def, "parent_id") == Some(Str(TaskParent(DefaultsSectionStorage.StorageType, entityTypeId)))
    ensures rel == "cancel" ==> Get(def, "weight") == Some(Int(5))
  {
    var s := DefaultsSectionStorage.StorageType;
    var route := Set([], "route_name", Str(TaskKey(s, entityTypeId, rel)));
    if rel == "view" then
      Set(Set(route, "title", Str("Manage layout")), "base_route", Str(TaskKey(s, entityTypeId, "view")))
    else if rel == "save" then
      Set(Set(route, "title", Str("Save Layout")), "parent_id", Str(TaskParent(s, entityTypeId)))
    else
      Set(Set(Set(route, "title", Str("Cancel Layout")), "weight", Int(5)), "parent_id", Str(TaskParent(s, entityTypeId)))
  }

  /**
   * `buildLocalTasks()`: the view, save and cancel tasks of every served
   * entity type, each the base definition plus the storage's own.
   */
  function BuildLocalTasks(registry: seq<EntityType>, base: PhpArray): (r: PhpArray)
    ensures forall t, rel :: t in registry && IsLayoutEntityType(t) && rel in TaskRelations ==>
              TaskKey(DefaultsSectionStorage.StorageType, t.id, rel) in Keys(r)
    ensures DistinctKeys(r)
  {
    var s := DefaultsSectionStorage.StorageType;
    var types := GetEntityTypes(registry);
    AllTaskKeysCover(types, s, TaskRelations);
    LocalTasks([], types, s, TaskRelations, base, TaskDefinition)
  }

  /** No other task is emitted: every key names a served entity type and one of the three relations. */
  lemma BuildLocalTasksOnly(registry: seq<EntityType>, base: PhpArray, k: string)
    ensures k in Keys(BuildLocalTasks(registry, base)) ==>
              exists t, rel :: t in registry && IsLayoutEntityType(t) && rel in TaskRelations
                               && k == TaskKey(DefaultsSectionStorage.StorageType, t.id, rel)
  {
    if k in Keys(BuildLocalTasks(registry, base)) {
      var s := DefaultsSectionStorage.StorageType;
      var types := GetEntityTypes(registry);
      AllTaskKeysOnly(types, s, TaskRelations, k);
      var t, rel :| t in types && rel in TaskRelations && k == TaskKey(s, t.id, rel);
      assert t in registry && IsLayoutEntityType(t);
    }
  }

  /** With distinct entity type ids, each task is the base definition plus its own definition. */
  lemma BuildLocalTasksValues(registry: seq<EntityType>, base: PhpArray, t: EntityType, rel: string)
    requires DistinctIds(registry)
    requires t in registry && IsLayoutEntityType(t) && rel in TaskRelations
    ensures Get(BuildLocalTasks(registry, base), TaskKey(DefaultsSectionStorage.StorageType, t.id, rel))
            == Some(Arr(Union(base, TaskDefinition(t.id, rel))))
  {
    var s := DefaultsSectionStorage.StorageType;
    LocalTasksValues([], GetEntityTypes(registry), s, TaskRelations, base, TaskDefinition);
  }

  /** A field of an emitted task comes from the base definition when it sets it, else from the storage. */
  lemma TaskFieldOf(registry: seq<EntityType>, base: PhpArray, t: EntityType, rel: string, field: string)
    requires DistinctIds(registry)
    requires t in registry && IsLayoutEntityType(t) && rel in TaskRelations
    ensures TaskField(BuildLocalTasks(registry, base), TaskKey(DefaultsSectionStorage.StorageType, t.id, rel), field)
            == if field in Keys(base) then Get(base, field) else Get(TaskDefinition(t.id, rel), field)
  {
    BuildLocalTasksValues(registry, base, t, rel);
  }

  /**
   * Save and cancel name the view task as parent, cancel weighs 5 and view
   * is its own base route, unless the base definition already sets the
   * field, which then wins.
   */
  lemma TaskFields(registry: seq<EntityType>, base: PhpArray, t: EntityType)
    requires DistinctIds(registry) && t in registry && IsLayoutEntityType(t)
    ensures var s := DefaultsSectionStorage.StorageType;
            var tasks := BuildLocalTasks(registry, base);
            var parent := if "parent_id" in Keys(base) then Get(base, "parent_id") else Some(Str(TaskParent(s, t.id)));
            && TaskField(tasks, TaskKey(s, t.id, "save"), "parent_id") == parent
            && TaskField(tasks, TaskKey(s, t.id, "cancel"), "parent_id") == parent
            && TaskField(tasks, TaskKey(s, t.id, "cancel"), "weight")
               == (if "weight" in Keys(base) then Get(base, "weight") else Some(Int(5)))
            && TaskField(tasks, TaskKey(s, t.id, "view"), "base_route")
               == (if "base_route" in Keys(base) then Get(base, "base_route") else Some(Str(TaskKey(s, t.id, "view"))))
  {
    assert "save" in TaskRelations && "cancel" in TaskRelations && "view" in TaskRelations;
    TaskFieldOf(registry, base, t, "save", "parent_id");
    TaskFieldOf(registry, base, t, "cancel", "parent_id");
    TaskFieldOf(registry, base, t, "cancel", "weight");
    TaskFieldOf(registry, base, t, "view", "base_route");
  }

  /** The suffix every Defaults Layout Builder path adds to the entity type's base route. */
  const LayoutPathSuffix: string := "/display-layout/{view_mode_name}"

  /** The value `getBundleEntityType()` yields: the bundle entity type id, or NULL. */
  function BundleEntityTypeValue(bundleEntityType: Option<string>): PhpValue {
    if bundleEntityType.Some? then Str(bundleEntityType.value) else Null
  }

  /**
   * The route defaults: the entity type id, and when the path has no
   * `{bundle}` slot either the type id as bundle (no bundle key) or the
   * bundle entity type as `bundle_key`.
   */
  function RouteDefaults(t: EntityType, path: string): (d: PhpArray)
    ensures Get(d, "entity_type_id") == Some(Str(t.id))
    ensures HasSubstring(path, "{bundle}") ==> Keys(d) == {"entity_type_id"}
    ensures !HasSubstring(path, "{bundle}") && !t.hasBundleKey ==>
              Keys(d) == {"entity_type_id", "bundle"} && Get(d, "bundle") == Some(Str(t.id))
    ensures !HasSubstring(path, "{bundle}") && t.hasBundleKey ==>
              Keys(d) == {"entity_type_id", "bundle_key"} && Get(d, "bundle_key") == Some(BundleEntityTypeValue(t.bundleEntityType))
    ensures DistinctKeys(d)
  {
    var d := [Entry("entity_type_id", Str(t.id))];
    if HasSubstring(path, "{bundle}") then d
    else if !t.hasBundleKey then Set(d, "bundle", Str(t.id))
    else Set(d, "bundle_key", BundleEntityTypeValue(t.bundleEntityType))
  }

  /** The only `{` of the suffix opens `{view_mode_name}`, at position 16. */
  lemma SuffixBraceAt16()
    ensures forall j :: 0 <= j < |LayoutPathSuffix| && LayoutPathSuffix[j] == '{' ==> j == 16
  {
    assert LayoutPathSuffix == ['/', 'd', 'i', 's', 'p', 'l', 'a', 'y', '-', 'l', 'a', 'y', 'o', 'u', 't', '/',
                                '{', 'v', 'i', 'e', 'w', '_', 'm', 'o', 'd', 'e', '_', 'n', 'a', 'm', 'e', '}'];
  }

  /** An occurrence of `{bundle}` in the layout path lies within the base path. */
  lemma SlotWithinBasePath(basePath: string, i: int)
    requires 0 <= i <= |basePath + LayoutPathSuffix| - |"{bundle}"|
    requires OccursAt(basePath + LayoutPathSuffix, "{bundle}", i)
    ensures i + |"{bundle}"| <= |basePath|
  {
    var slot := "{bundle}";
    var path := basePath + LayoutPathSuffix;
    var n := |basePath|;
    assert slot == ['{', 'b', 'u', 'n', 'd', 'l', 'e', '}'];
    assert forall j :: i <= j < i + |slot| ==> path[j] == path[i..i + |slot|][j - i] == slot[j - i];
    assert forall j :: 0 <= j < |slot| ==> slot[j] != '/';
    assert path[i] == '{' && path[i + 1] == 'b';
    assert forall j :: n <= j < |path| ==> path[j] == LayoutPathSuffix[j - n];
    SuffixBraceAt16();
    assert LayoutPathSuffix[0] == '/' && LayoutPathSuffix[17] == 'v';
    assert path[n] == '/' && path[n + 17] == 'v';
  }

  /** The suffix holds no `{bundle}` of its own, so the test only depends on the base path. */
  lemma SuffixAddsNoBundleSlot(basePath: string)
    ensures HasSubstring(basePath + LayoutPathSuffix, "{bundle}") <==> HasSubstring(basePath, "{bundle}")
  {
    var slot := "{bundle}";
    var path := basePath + LayoutPathSuffix;
    if HasSubstring(path, slot) {
      var i :| 0 <= i <= |path| - |slot| && OccursAt(path, slot, i);
      SlotWithinBasePath(basePath, i);
      assert path[i..i + |slot|] == basePath[i..i + |slot|];
      assert OccursAt(basePath, slot, i);
    }
    if HasSubstring(basePath, slot) {
      var i :| 0 <= i <= |basePath| - |slot| && OccursAt(basePath, slot, i);
      assert path[i..i + |slot|] == basePath[i..i + |slot|];
      assert OccursAt(path, slot, i);
    }
  }

  /**
   * A Layout Builder route of a type whose bundles have a bundle entity
   * type, requested with a bundle parameter and a view mode (and no dotted
   * raw value), names the display of that bundle: the `bundle_key`
   * default leads derivation to the bundle parameter.
   */
  lemma BundleKeyRouteNamesDisplay(t: EntityType, basePath: string, value: Option<string>, bundle: string, viewMode: string)
    requires t.hasBundleKey && t.bundleEntityType.Some?
    requires t.bundleEntityType.value !in {"entity_type_id", "bundle", "bundle_key", "view_mode_name"}
    requires !IsEmpty(Some(Str(t.id))) && !IsEmpty(Some(Str(bundle))) && !IsEmpty(Some(Str(viewMode)))
    requires !HasSubstring(basePath, "{bundle}")
    requires !Dotted(value)
    ensures var path := basePath + LayoutPathSuffix;
            var parameters := Set(Set([], t.bundleEntityType.value, Str(bundle)), "view_mode_name", Str(viewMode));
            var defaults := SetAll(RouteDefaults(t, path), parameters);
            DefaultsSectionStorage.LookupFromRoute(value, defaults)
            == Some(DefaultsSectionStorage.DisplayLookup(
                      t.id + "." + bundle + "." + viewMode,
                      DefaultsSectionStorage.DisplayKey(t.id, bundle, Some(viewMode))))
  {
    var path := basePath + LayoutPathSuffix;
    SuffixAddsNoBundleSlot(basePath);
    var bundleKey := t.bundleEntityType.value;
    var parameters := Set(Set([], bundleKey, Str(bundle)), "view_mode_name", Str(viewMode));
    assert Get(parameters, bundleKey) == Some(Str(bundle));
    assert Get(parameters, "view_mode_name") == Some(Str(viewMode));
    var defaults := SetAll(RouteDefaults(t, path), parameters);
    assert Get(defaults, "bundle_key") == Some(Str(bundleKey));
    assert Get(defaults, "bundle").None?;
    assert Get(defaults, bundleKey) == Some(Str(bundle));
    assert DefaultsSectionStorage.BundleKeyApplies(defaults);
    assert Get(defaults, "entity_type_id") == Some(Str(t.id));
    var resolved := DefaultsSectionStorage.ResolveBundle(defaults);
    assert Get(resolved, "bundle") == Some(Str(bundle));
    assert Get(resolved, "view_mode_name") == Some(Str(viewMode));
    assert Get(resolved, "entity_type_id") == Some(Str(t.id));
    assert DefaultsSectionStorage.DefaultsComplete(resolved);
    var key := DefaultsSectionStorage.KeyFromDefaults(resolved);
    assert key == DefaultsSectionStorage.DisplayKey(t.id, bundle, Some(viewMode));
    assert DefaultsSectionStorage.JoinKey(key) == t.id + "." + bundle + "." + viewMode;
  }

  /**
   * A Layout Builder route of a type without a bundle key, requested with
   * a view mode (and no dotted raw value), names the display whose bundle
   * is the entity type id itself.
   */
  lemma BundlelessRouteNamesDisplay(t: EntityType, basePath: string, value: Option<string>, viewMode: string)
    requires !t.hasBundleKey
    requires !IsEmpty(Some(Str(t.id))) && !IsEmpty(Some(Str(viewMode)))
    requires !HasSubstring(basePath, "{bundle}")
    requires !Dotted(value)
    ensures var path := basePath + LayoutPathSuffix;
            var defaults := SetAll(RouteDefaults(t, path), Set([], "view_mode_name", Str(viewMode)));
            DefaultsSectionStorage.LookupFromRoute(value, defaults)
            == Some(DefaultsSectionStorage.DisplayLookup(
                      t.id + "." + t.id + "." + viewMode,
                      DefaultsSectionStorage.DisplayKey(t.id, t.id, Some(viewMode))))
  {
    var path := basePath + LayoutPathSuffix;
    SuffixAddsNoBundleSlot(basePath);
    var parameters := Set([], "view_mode_name", Str(viewMode));
    var defaults := SetAll(RouteDefaults(t, path), parameters);
    assert Get(defaults, "bundle") == Some(Str(t.id));
    assert Get(defaults, "entity_type_id") == Some(Str(t.id));
    assert Get(defaults, "view_mode_name") == Some(Str(viewMode));
    assert !DefaultsSectionStorage.BundleKeyApplies(defaults);
    assert DefaultsSectionStorage.DefaultsComplete(defaults);
    var key := DefaultsSectionStorage.KeyFromDefaults(defaults);
    assert key == DefaultsSectionStorage.DisplayKey(t.id, t.id, Some(viewMode));
    assert DefaultsSectionStorage.JoinKey(key) == t.id + "." + t.id + "." + viewMode;
  }

  /** The arguments `buildRoutes()` passes to `buildLayoutRoutes()` for one entity type. */
  function LayoutArgs(t: EntityType, baseRoute: Route): (args: LayoutRouteArgs)
    ensures args.path == baseRoute.path + LayoutPathSuffix
    ensures args.entityTypeId == t.id
    ensures args.defaults == RouteDefaults(t, args.path)
    ensures Keys(args.requirements) == {"_field_ui_view_mode_access"}
    ensures Get(args.requirements, "_field_ui_view_mode_access") == Some(Str("administer " + t.id + " display"))
    ensures Get(args.options, "_admin_route") == Some(Bool(false))
    ensures forall k :: k != "_admin_route" ==> Get(args.options, k) == Get(baseRoute.options, k)
  {
    var path := baseRoute.path + LayoutPathSuffix;
    LayoutRouteArgs(
      path,
      RouteDefaults(t, path),
      [Entry("_field_ui_view_mode_access", Str("administer " + t.id + " display"))],
      Set(baseRoute.options, "_admin_route", Bool(false)),
      t.id)
  }

  /**
   * What the loop of `buildRoutes()` carries: the route collection, the
   * `$parameters` array (never reset, so it accumulates across routes and
   * entity types) and the `buildLayoutRoutes()` calls made so far.
   */
  datatype RouteBuild = RouteBuild(collection: RouteCollection, parameters: PhpArray, calls: seq<LayoutRouteArgs>)

  /** The defaults every patched display route receives ahead of the entity defaults. */
  function StorageRouteDefaults(): (d: PhpArray)
    ensures Keys(d) == {"section_storage_type", "section_storage"} && DistinctKeys(d)
    ensures Get(d, "section_storage_type") == Some(Str(DefaultsSectionStorage.StorageType))
    ensures Get(d, "section_storage") == Some(Str(""))
  {
    Set(Set([], "section_storage_type", Str(DefaultsSectionStorage.StorageType)), "section_storage", Str(""))
  }

  /** `$parameters['section_storage']['layout_builder_tempstore'] = TRUE`. */
  function MarkTempstore(parameters: PhpArray): (r: PhpArray)
    ensures Keys(r) == Keys(parameters) + {"section_storage"}
    ensures forall k :: k != "section_storage" ==> Get(r, k) == Get(parameters, k)
    ensures Get(Inner(r, "section_storage"), "layout_builder_tempstore") == Some(Bool(true))
  {
    SetIn(parameters, "section_storage", "layout_builder_tempstore", Bool(true))
  }

  /**
   * `$route->getOption('parameters') ?: []`: an empty or missing option
   * counts as no parameters, and mergeDeep skips a value that is not an array.
   */
  function PriorParameters(route: Route): (r: PhpArray)
    ensures IsEmpty(Get(route.options, "parameters")) ==> r == []
    ensures Get(route.options, "parameters").Some? && Get(route.options, "parameters").value.Arr? ==>
              r == Get(route.options, "parameters").value.entries
  {
    Inner(route.options, "parameters")
  }

  /** The two existing routes of an entity type's display form that get patched. */
  function DisplayRouteNames(entityTypeId: string): seq<string> {
    ["entity.entity_view_display." + entityTypeId + ".default",
     "entity.entity_view_display." + entityTypeId + ".view_mode"]
  }

  /**
   * A patched display route: path and requirements kept; the storage
   * defaults, then the entity defaults, written over its defaults; its
   * `parameters` option replaced by the accumulated parameters; its other
   * options kept.
   */
  ghost predicate PatchedRoute(before: Route, after: Route, defaults: PhpArray, parameters: PhpArray) {
    && after.path == before.path
    && after.requirements == before.requirements
    && Get(after.defaults, "section_storage_type") == Some(Str(DefaultsSectionStorage.StorageType))
    && Get(after.defaults, "section_storage") == Some(Str(""))
    && (forall k :: k in Keys(defaults) && k !in Keys(StorageRouteDefaults()) ==> Get(after.defaults, k) == Get(defaults, k))
    && (forall k :: k !in Keys(defaults) && k !in Keys(StorageRouteDefaults()) ==> Get(after.defaults, k) == Get(before.defaults, k))
    && Get(after.options, "parameters") == Some(Arr(parameters))
    && (forall k :: k != "parameters" ==> Get(after.options, k) == Get(before.options, k))
  }

  /** One pass of the inner `foreach ($route_names ...)`: patch `name` if the collection has it. */
  function PatchRoute(b: RouteBuild, name: string, defaults: PhpArray): (r: RouteBuild)
    ensures r.calls == b.calls
    ensures r.collection.Keys == b.collection.Keys
    ensures forall n :: n in b.collection && n != name ==> r.collection[n] == b.collection[n]
    ensures name !in b.collection ==> r == b
    ensures name in b.collection ==>
              && r.parameters == MergeDeep(MarkTempstore(b.parameters), PriorParameters(b.collection[name]))
              && PatchedRoute(b.collection[name], r.collection[name], defaults, r.parameters)
    ensures Keys(b.parameters) <= Keys(r.parameters)
  {
    if name !in b.collection then b
    else
      var route := b.collection[name];
      var parameters := MergeDeep(MarkTempstore(b.parameters), PriorParameters(route));
      var added := Union(StorageRouteDefaults(), defaults);
      var patched := route.(defaults := SetAll(route.defaults, added),
                            options := Set(route.options, "parameters", Arr(parameters)));
      assert DistinctKeys(added) by {
        assert DistinctKeys(StorageRouteDefaults());
      }
      RouteBuild(b.collection[name := patched], parameters, b.calls)
  }

  /**
   * The accumulated parameters after one patch: every key accumulated so
   * far survives, `section_storage` is added, the route's own parameters
   * are merged in rather than overwritten (a scalar one wins), and the
   * tempstore flag is set unless the route itself declares
   * `section_storage`.
   */
  lemma {:induction false} PatchedParameters(parameters: PhpArray, prior: PhpArray)
    requires DistinctKeys(prior)
    ensures var merged := MergeDeep(MarkTempstore(parameters), prior);
            && Keys(merged) == Keys(parameters) + Keys(prior) + {"section_storage"}
            && (forall k :: k !in Keys(prior) && k != "section_storage" ==> Get(merged, k) == Get(parameters, k))
            && (forall i :: 0 <= i < |prior| && !prior[i].value.Arr? ==> Get(merged, prior[i].key) == Some(prior[i].value))
            && ("section_storage" !in Keys(prior) ==>
                  Get(Inner(merged, "section_storage"), "layout_builder_tempstore") == Some(Bool(true)))
  {
    var marked := MarkTempstore(parameters);
    var merged := MergeDeep(marked, prior);
    assert "section_storage" !in Keys(prior) ==> Get(merged, "section_storage") == Get(marked, "section_storage");
  }

  /**
   * One iteration of the outer `foreach`: skipped when the base route is
   * missing; otherwise one `buildLayoutRoutes()` call, then both display
   * routes patched.
   */
  function RouteStep(b: RouteBuild, t: EntityType, build: LayoutRouteBuilder): (r: RouteBuild)
    requires IsLayoutEntityType(t)
    ensures t.fieldUiBaseRoute.value !in b.collection ==> r == b
    ensures t.fieldUiBaseRoute.value in b.collection ==>
              r.calls == b.calls + [LayoutArgs(t, b.collection[t.fieldUiBaseRoute.value])]
    ensures t.fieldUiBaseRoute.value in b.collection ==>
              var built := build(b.collection, LayoutArgs(t, b.collection[t.fieldUiBaseRoute.value]));
              && r.collection.Keys == built.Keys
              && forall n :: n in built && n !in DisplayRouteNames(t.id) ==> r.collection[n] == built[n]
    ensures Keys(b.parameters) <= Keys(r.parameters)
  {
    var baseName := t.fieldUiBaseRoute.value;
    if baseName !in b.collection then b
    else
      var args := LayoutArgs(t, b.collection[baseName]);
      var built := RouteBuild(build(b.collection, args), b.parameters, b.calls + [args]);
      var names := DisplayRouteNames(t.id);
      var first := PatchRoute(built, names[0], args.defaults);
      var r := PatchRoute(first, names[1], args.defaults);
      assert forall n :: n !in names ==> n != names[0] && n != names[1];
      r
  }

  /**
   * After a step that found the base route, each display route the
   * builder's collection holds carries the storage defaults and the entity
   * type id, and its prior parameters were merged into its new
   * `parameters` option, not dropped.
   */
  lemma {:induction false} StepPatchesDisplayRoutes(b: RouteBuild, t: EntityType, build: LayoutRouteBuilder, name: string)
    requires IsLayoutEntityType(t)
    requires t.fieldUiBaseRoute.value in b.collection
    requires name in DisplayRouteNames(t.id)
    requires name in build(b.collection, LayoutArgs(t, b.collection[t.fieldUiBaseRoute.value]))
    ensures var built := build(b.collection, LayoutArgs(t, b.collection[t.fieldUiBaseRoute.value]));
            var after := RouteStep(b, t, build).collection[name];
            && name in RouteStep(b, t, build).collection
            && after.path == built[name].path
            && Get(after.defaults, "section_storage_type") == Some(Str(DefaultsSectionStorage.StorageType))
            && Get(after.defaults, "section_storage") == Some(Str(""))
            && Get(after.defaults, "entity_type_id") == Some(Str(t.id))
            && Get(after.options, "parameters").Some? && Get(after.options, "parameters").value.Arr?
            && Keys(PriorParameters(built[name])) <= Keys(Get(after.options, "parameters").value.entries)
  {
    var args := LayoutArgs(t, b.collection[t.fieldUiBaseRoute.value]);
    var built := RouteBuild(build(b.collection, args), b.parameters, b.calls + [args]);
    var names := DisplayRouteNames(t.id);
    assert names[0] != names[1] by {
      assert |names[0]| != |names[1]|;
    }
    var first := PatchRoute(built, names[0], args.defaults);
    var second := PatchRoute(first, names[1], args.defaults);
    assert "entity_type_id" in Keys(args.defaults) && "entity_type_id" !in Keys(StorageRouteDefaults());
    if name == names[0] {
      assert second.collection[name] == first.collection[name];
    } else {
      assert first.collection[name] == built.collection[name];
    }
  }

  /** The outer `foreach` of `buildRoutes()` over `types`, continuing from `b`. */
  function BuildRoutesFrom(b: RouteBuild, types: seq<EntityType>, build: LayoutRouteBuilder): (r: RouteBuild)
    requires forall t :: t in types ==> IsLayoutEntityType(t)
    ensures |b.calls| <= |r.calls| <= |b.calls| + |types|
    ensures r.calls[..|b.calls|] == b.calls
    ensures Keys(b.parameters) <= Keys(r.parameters)
    decreases |types|
  {
    if |types| == 0 then b
    else
      var step := RouteStep(b, types[0], build);
      var r := BuildRoutesFrom(step, types[1..], build);
      assert r.calls[..|b.calls|] == r.calls[..|step.calls|][..|b.calls|];
      r
  }

  /** Every call the loop adds was built for one of the types it visited, from some base route. */
  lemma {:induction false} BuildRoutesFromCall(b: RouteBuild, types: seq<EntityType>, build: LayoutRouteBuilder, i: int)
    requires forall t :: t in types ==> IsLayoutEntityType(t)
    requires |b.calls| <= i < |BuildRoutesFrom(b, types, build).calls|
    ensures exists t, route :: t in types && BuildRoutesFrom(b, types, build).calls[i] == LayoutArgs(t, route)
    decreases |types|
  {
    if |types| > 0 {
      var step := RouteStep(b, types[0], build);
      var r := BuildRoutesFrom(step, types[1..], build);
      if i < |step.calls| {
        var baseRoute := b.collection[types[0].fieldUiBaseRoute.value];
        assert r.calls[..|step.calls|][i] == step.calls[i] == LayoutArgs(types[0], baseRoute);
        assert types[0] in types;
      } else {
        BuildRoutesFromCall(step, types[1..], build, i);
        var t, route :| t in types[1..] && r.calls[i] == LayoutArgs(t, route);
        assert t in types;
      }
    }
  }

  /**
   * Over types with distinct ids, no two calls the loop adds are for the
   * same entity type: each type adds at most one call, for itself.
   */
  lemma {:induction false} BuildRoutesFromDistinct(b: RouteBuild, types: seq<EntityType>, build: LayoutRouteBuilder, i: int, j: int)
    requires forall t :: t in types ==> IsLayoutEntityType(t)
    requires DistinctIds(types)
    requires |b.calls| <= i < j < |BuildRoutesFrom(b, types, build).calls|
    ensures BuildRoutesFrom(b, types, build).calls[i].entityTypeId != BuildRoutesFrom(b, types, build).calls[j].entityTypeId
    decreases |types|
  {
    var step := RouteStep(b, types[0], build);
    var r := BuildRoutesFrom(step, types[1..], build);
    if i < |step.calls| {
      var baseRoute := b.collection[types[0].fieldUiBaseRoute.value];
      assert r.calls[..|step.calls|][i] == step.calls[i] == LayoutArgs(types[0], baseRoute);
      BuildRoutesFromCall(step, types[1..], build, j);
      var t, route :| t in types[1..] && r.calls[j] == LayoutArgs(t, route);
      assert t.id != types[0].id;
    } else {
      BuildRoutesFromDistinct(step, types[1..], build, i, j);
    }
  }

  /**
   * `buildRoutes()`: at most one `buildLayoutRoutes()` call per served
   * entity type, each with the arguments built for one of them; over a
   * registry keyed by id, no entity type is given two calls.
   */
  function BuildRoutes(registry: seq<EntityType>, collection: RouteCollection, build: LayoutRouteBuilder): (r: RouteBuild)
    ensures |r.calls| <= |GetEntityTypes(registry)|
    ensures forall c :: c in r.calls ==>
              exists t, route :: t in registry && IsLayoutEntityType(t) && c == LayoutArgs(t, route)
    ensures DistinctIds(registry) ==>
              forall i, j :: 0 <= i < j < |r.calls| ==> r.calls[i].entityTypeId != r.calls[j].entityTypeId
  {
    var types := GetEntityTypes(registry);
    var b := RouteBuild(collection, [], []);
    var r := BuildRoutesFrom(b, types, build);
    assert forall c :: c in r.calls ==> exists t, route :: t in types && c == LayoutArgs(t, route) by {
      forall c | c in r.calls ensures exists t, route :: t in types && c == LayoutArgs(t, route) {
        var i :| 0 <= i < |r.calls| && r.calls[i] == c;
        BuildRoutesFromCall(b, types, build, i);
      }
    }
    assert DistinctIds(registry) ==>
             forall i, j :: 0 <= i < j < |r.calls| ==> r.calls[i].entityTypeId != r.calls[j].entityTypeId by {
      if DistinctIds(registry) {
        forall i, j | 0 <= i < j < |r.calls| ensures r.calls[i].entityTypeId != r.calls[j].entityTypeId {
          BuildRoutesFromDistinct(b, types, build, i, j);
        }
      }
    }
    r
  }
}
