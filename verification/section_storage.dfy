/**
 * What the two section storages share: the records they wrap (view
 * displays and content entities with their section lists), the context
 * bag, the errors the PHP code throws, access results, entity-type
 * descriptors, routes, and the local-task table both build the same way.
 */
module SectionStorage {
  import opened Wrappers
  import opened PhpArrays

  /** A block placed in a section region. */
  datatype SectionComponent = SectionComponent(uuid: string, region: string, pluginId: string)

  /** One layout section: its layout plugin and its components in order. */
  datatype Section = Section(layoutId: string, components: seq<SectionComponent>)

  /**
   * An `entity_view_display` config entity, reduced to what the storages
   * read: its three key fields (the view mode may be NULL when the display
   * was created from a one-dot id), its status, the Layout Builder flag,
   * its sections and whether it is new (never saved).
   */
  datatype Display = Display(
    targetEntityType: string,
    bundle: string,
    mode: Option<string>,
    status: bool,
    layoutBuilderEnabled: bool,
    sections: seq<Section>,
    isNew: bool)

  /** A NULL view mode concatenates as the empty string. */
  function ModeText(mode: Option<string>): string {
    mode.GetOr("")
  }

  /** A display's config id, `type.bundle.mode`, as the display entity composes it. */
  function DisplayId(d: Display): string {
    d.targetEntityType + "." + d.bundle + "." + ModeText(d.mode)
  }

  /** The `entity_view_display` storage: config id to saved display. */
  type DisplayStore = map<string, Display>

  /** Every saved display is stored under its own id. */
  predicate DisplayStoreWf(store: DisplayStore) {
    forall id :: id in store ==> DisplayId(store[id]) == id && !store[id].isNew
  }

  /**
   * A content entity: its type, id and bundle, whether its class is
   * fieldable, and its `layout_builder__layout` field when it has one.
   */
  datatype ContentEntity = ContentEntity(
    entityTypeId: string,
    id: string,
    bundle: string,
    fieldable: bool,
    layout: Option<seq<Section>>)

  /** The per-type entity storages: entity type id, then entity id, to entity. */
  type EntityStores = map<string, map<string, ContentEntity>>

  /** Every stored entity is filed under its own type and id. */
  predicate EntityStoresWf(stores: EntityStores) {
    forall typeId, id :: typeId in stores && id in stores[typeId] ==>
      stores[typeId][id].entityTypeId == typeId && stores[typeId][id].id == id
  }

  /**
   * The raw route value is a string holding a dot. A value that is not a
   * string is None: `strpos()` finds no dot in it either.
   */
  predicate Dotted(value: Option<string>) {
    value.Some? && '.' in value.value
  }

  /** A context value handed to a storage. */
  datatype Context =
    | DisplayContext(display: Display)
    | EntityContext(entity: ContentEntity)
    | StringContext(value: string)

  /** A context bag: context name to value. */
  type Contexts = map<string, Context>

  /** The exceptions the storages let escape. */
  datatype Error =
    | InvalidArgument(id: string, storageType: string)
    | UnknownEntityType(entityTypeId: string)
    | MissingContext(name: string)
    | ContextTypeMismatch(name: string)
    | MissingFieldDefinition(entityTypeId: string, fieldName: string)

  /** `getContextValue($name)`: fails when the bag holds no such context. */
  function ContextValue(contexts: Contexts, name: string): (r: Result<Context, Error>)
    ensures r.Success? <==> name in contexts
    ensures r.Success? ==> r.value == contexts[name]
    ensures r.Failure? ==> r.error == MissingContext(name)
  {
    if name in contexts then Success(contexts[name]) else Failure(MissingContext(name))
  }

  /** The outcome of `AccessResult::allowedIf()`: allowed, or neutral when the condition fails. */
  datatype AccessResult = Allowed | Neutral

  /** What `access()` returns: the boolean `isAllowed()` or, when asked for, the result object. */
  datatype AccessAnswer = AsBool(allowed: bool) | AsObject(result: AccessResult)

  /** The answer counts as granted: TRUE, or an allowed result object. */
  predicate Granted(a: AccessAnswer) {
    a == AsBool(true) || a == AsObject(Allowed)
  }

  /** `$return_as_object ? $result : $result->isAllowed()` for `AccessResult::allowedIf($condition)`. */
  function AllowedIf(condition: bool, returnAsObject: bool): (r: AccessAnswer)
    ensures returnAsObject <==> r.AsObject?
    ensures Granted(r) <==> condition
  {
    var result := if condition then Allowed else Neutral;
    if returnAsObject then AsObject(result) else AsBool(result == Allowed)
  }

  /**
   * An entity type definition, reduced to what the storages ask of it:
   * whether its class is fieldable and it has a view builder, its
   * `field_ui_base_route`, its `canonical` link template, whether it has a
   * bundle key, its bundle entity type and its id key.
   */
  datatype EntityType = EntityType(
    id: string,
    fieldable: bool,
    hasViewBuilder: bool,
    fieldUiBaseRoute: Option<string>,
    canonicalTemplate: Option<string>,
    hasBundleKey: bool,
    bundleEntityType: Option<string>,
    idKey: string)

  /** The registry's definitions are keyed by id, so no id occurs twice. */
  predicate DistinctIds(types: seq<EntityType>) {
    |types| == 0 || ((forall u :: u in types[1..] ==> u.id != types[0].id) && DistinctIds(types[1..]))
  }

  /** `array_filter` over the registry: the definitions `keep` accepts, in registry order. */
  function Filter(types: seq<EntityType>, keep: EntityType -> bool): (r: seq<EntityType>)
    ensures forall t :: t in r <==> t in types && keep(t)
    ensures |r| <= |types|
    ensures DistinctIds(types) ==> DistinctIds(r)
    ensures (forall t :: t in types ==> keep(t)) ==> r == types
  {
    if |types| == 0 then []
    else
      var rest := Filter(types[1..], keep);
      if keep(types[0]) then
        var r := [types[0]] + rest;
        assert r[1..] == rest;
        r
      else rest
  }

  /**
   * Filtering a concatenation concatenates the filtered parts: with the
   * keep-everything case above, the kept definitions stay in registry order.
   */
  lemma {:induction false} FilterAppend(xs: seq<EntityType>, ys: seq<EntityType>, keep: EntityType -> bool)
    ensures Filter(xs + ys, keep) == Filter(xs, keep) + Filter(ys, keep)
    decreases |xs|
  {
    if |xs| == 0 {
      assert xs + ys == ys;
    } else {
      assert (xs + ys)[0] == xs[0];
      assert (xs + ys)[1..] == xs[1..] + ys;
      FilterAppend(xs[1..], ys, keep);
    }
  }

  /** A Symfony route, reduced to its path, defaults, requirements and options. */
  datatype Route = Route(path: string, defaults: PhpArray, requirements: PhpArray, options: PhpArray)

  /** A route collection: route name to route. */
  type RouteCollection = map<string, Route>

  /** The arguments a storage passes to `buildLayoutRoutes()` for one entity type. */
  datatype LayoutRouteArgs = LayoutRouteArgs(
    path: string,
    defaults: PhpArray,
    requirements: PhpArray,
    options: PhpArray,
    entityTypeId: string)

  /** `buildLayoutRoutes()`, whose body is not part of this model: it adds routes to the collection. */
  type LayoutRouteBuilder = (RouteCollection, LayoutRouteArgs) -> RouteCollection

  /** The relation names of the Layout Builder routes and local tasks. */
  const TaskRels: seq<string> := ["view", "save", "cancel", "revert"]

  /** `layout_builder.{storage}.{entity type}.{rel}`: a Layout Builder route name and local-task id. */
  function TaskKey(storageType: string, entityTypeId: string, rel: string): string {
    "layout_builder." + storageType + "." + entityTypeId + "." + rel
  }

  /** The local-task id of the `view` task that the other tasks name as their parent. */
  function TaskParent(storageType: string, entityTypeId: string): string {
    "layout_builder_ui:" + TaskKey(storageType, entityTypeId, "view")
  }

  /** A field of the task emitted under `key`; None when the task or the field is missing. */
  function TaskField(tasks: PhpArray, key: string, field: string): Option<PhpValue> {
    match Get(tasks, key)
    case Some(Arr(def)) => Get(def, field)
    case _ => None
  }

  /** Within one storage, a task key names exactly one entity type and relation. */
  lemma TaskKeyInjective(storageType: string, id1: string, rel1: string, id2: string, rel2: string)
    requires rel1 in TaskRels && rel2 in TaskRels
    requires TaskKey(storageType, id1, rel1) == TaskKey(storageType, id2, rel2)
    ensures id1 == id2 && rel1 == rel2
  {
    var k := TaskKey(storageType, id1, rel1);
    var p := "layout_builder." + storageType + ".";
    assert k == p + id1 + "." + rel1 && k == p + id2 + "." + rel2;
    assert k[|k| - 1] == rel1[|rel1| - 1] == rel2[|rel2| - 1];
    assert rel1 == rel2;
    assert |id1| == |id2|;
    assert id1 == k[|p|..|p| + |id1|] == id2;
  }

  /** The keys of the tasks one entity type contributes. */
  function TaskKeys(storageType: string, entityTypeId: string, rels: seq<string>): (ks: set<string>)
    ensures forall rel :: rel in rels ==> TaskKey(storageType, entityTypeId, rel) in ks
    decreases |rels|
  {
    if |rels| == 0 then {}
    else {TaskKey(storageType, entityTypeId, rels[0])} + TaskKeys(storageType, entityTypeId, rels[1..])
  }

  /** Every key in TaskKeys is the key of one of the relations. */
  lemma {:induction false} TaskKeysOnly(storageType: string, entityTypeId: string, rels: seq<string>, k: string)
    requires k in TaskKeys(storageType, entityTypeId, rels)
    ensures exists rel :: rel in rels && k == TaskKey(storageType, entityTypeId, rel)
    decreases |rels|
  {
    if k != TaskKey(storageType, entityTypeId, rels[0]) {
      TaskKeysOnly(storageType, entityTypeId, rels[1..], k);
      var rel :| rel in rels[1..] && k == TaskKey(storageType, entityTypeId, rel);
      assert rel in rels;
    }
  }

  /** The keys of the tasks all entity types of `types` contribute. */
  function AllTaskKeys(types: seq<EntityType>, storageType: string, rels: seq<string>): (ks: set<string>)
    decreases |types|
  {
    if |types| == 0 then {}
    else TaskKeys(storageType, types[0].id, rels) + AllTaskKeys(types[1..], storageType, rels)
  }

  /** Every entity type of `types` contributes the key of every relation. */
  lemma {:induction false} AllTaskKeysCover(types: seq<EntityType>, storageType: string, rels: seq<string>)
    ensures forall t, rel :: t in types && rel in rels ==> TaskKey(storageType, t.id, rel) in AllTaskKeys(types, storageType, rels)
    decreases |types|
  {
    if |types| > 0 {
      AllTaskKeysCover(types[1..], storageType, rels);
      forall t, rel | t in types && rel in rels
        ensures TaskKey(storageType, t.id, rel) in AllTaskKeys(types, storageType, rels)
      {
        if t != types[0] {
          assert t in types[1..];
        }
      }
    }
  }

  /** Every key in AllTaskKeys is the key of some entity type and relation. */
  lemma {:induction false} AllTaskKeysOnly(types: seq<EntityType>, storageType: string, rels: seq<string>, k: string)
    requires k in AllTaskKeys(types, storageType, rels)
    ensures exists t, rel :: t in types && rel in rels && k == TaskKey(storageType, t.id, rel)
    decreases |types|
  {
    if k in TaskKeys(storageType, types[0].id, rels) {
      TaskKeysOnly(storageType, types[0].id, rels, k);
      assert types[0] in types;
    } else {
      AllTaskKeysOnly(types[1..], storageType, rels, k);
      var t, rel :| t in types[1..] && rel in rels && k == TaskKey(storageType, t.id, rel);
      assert t in types;
    }
  }

  /**
   * The tasks one entity type contributes: under each relation's key,
   * `$base_plugin_definition + [...]` with the storage's own definition.
   */
  function AddTasks(acc: PhpArray, storageType: string, entityTypeId: string, rels: seq<string>,
                    base: PhpArray, def: (string, string) -> PhpArray): (r: PhpArray)
    ensures Keys(r) == Keys(acc) + TaskKeys(storageType, entityTypeId, rels)
    ensures forall rel :: rel in rels ==>
              Get(r, TaskKey(storageType, entityTypeId, rel)) == Some(Arr(Union(base, def(entityTypeId, rel))))
    ensures forall k :: k !in TaskKeys(storageType, entityTypeId, rels) ==> Get(r, k) == Get(acc, k)
    ensures DistinctKeys(acc) ==> DistinctKeys(r)
    decreases |rels|
  {
    if |rels| == 0 then acc
    else
      var key := TaskKey(storageType, entityTypeId, rels[0]);
      var m := Set(acc, key, Arr(Union(base, def(entityTypeId, rels[0]))));
      var r := AddTasks(m, storageType, entityTypeId, rels[1..], base, def);
      assert forall rel :: rel in rels ==>
               Get(r, TaskKey(storageType, entityTypeId, rel)) == Some(Arr(Union(base, def(entityTypeId, rel)))) by {
        forall rel | rel in rels
          ensures Get(r, TaskKey(storageType, entityTypeId, rel)) == Some(Arr(Union(base, def(entityTypeId, rel))))
        {
          if rel !in rels[1..] {
            assert rel == rels[0];
            if key in TaskKeys(storageType, entityTypeId, rels[1..]) {
              TaskKeysOnly(storageType, entityTypeId, rels[1..], key);
              var rel' :| rel' in rels[1..] && key == TaskKey(storageType, entityTypeId, rel');
              TaskKeyRel(storageType, entityTypeId, rel, rel');
            }
          }
        }
      }
      r
  }

  /** Two task keys of the same entity type agree only on the same relation. */
  lemma TaskKeyRel(storageType: string, entityTypeId: string, rel1: string, rel2: string)
    requires TaskKey(storageType, entityTypeId, rel1) == TaskKey(storageType, entityTypeId, rel2)
    ensures rel1 == rel2
  {
    var p := "layout_builder." + storageType + "." + entityTypeId + ".";
    var k := TaskKey(storageType, entityTypeId, rel1);
    assert k == p + rel1 && k == p + rel2;
    assert rel1 == k[|p|..] == rel2;
  }

  /**
   * The `foreach` of `buildLocalTasks()`: the tasks of every entity type
   * in order, starting from `acc`.
   */
  function LocalTasks(acc: PhpArray, types: seq<EntityType>, storageType: string, rels: seq<string>,
                      base: PhpArray, def: (string, string) -> PhpArray): (r: PhpArray)
    ensures Keys(r) == Keys(acc) + AllTaskKeys(types, storageType, rels)
    ensures DistinctKeys(acc) ==> DistinctKeys(r)
    decreases |types|
  {
    if |types| == 0 then acc
    else LocalTasks(AddTasks(acc, storageType, types[0].id, rels, base, def), types[1..], storageType, rels, base, def)
  }

  /**
   * With distinct entity type ids and relations drawn from TaskRels, every
   * emitted task holds the definition built for its own entity type and
   * relation.
   */
  lemma {:induction false} LocalTasksValues(acc: PhpArray, types: seq<EntityType>, storageType: string,
                                             rels: seq<string>, base: PhpArray, def: (string, string) -> PhpArray)
    requires DistinctIds(types)
    requires forall rel :: rel in rels ==> rel in TaskRels
    ensures forall t, rel :: t in types && rel in rels ==>
              Get(LocalTasks(acc, types, storageType, rels, base, def), TaskKey(storageType, t.id, rel))
              == Some(Arr(Union(base, def(t.id, rel))))
    decreases |types|
  {
    if |types| > 0 {
      var next := AddTasks(acc, storageType, types[0].id, rels, base, def);
      LocalTasksValues(next, types[1..], storageType, rels, base, def);
      forall t, rel | t in types && rel in rels
        ensures Get(LocalTasks(acc, types, storageType, rels, base, def), TaskKey(storageType, t.id, rel))
                == Some(Arr(Union(base, def(t.id, rel))))
      {
        if t !in types[1..] {
          assert t == types[0];
          var k := TaskKey(storageType, t.id, rel);
          forall u | u in types[1..] ensures k !in TaskKeys(storageType, u.id, rels) {
            if k in TaskKeys(storageType, u.id, rels) {
              TaskKeysOnly(storageType, u.id, rels, k);
              var rel' :| rel' in rels && k == TaskKey(storageType, u.id, rel');
              TaskKeyInjective(storageType, t.id, rel, u.id, rel');
              assert false;
            }
          }
          LocalTasksKeep(next, types[1..], storageType, rels, base, def, k);
        }
      }
    }
  }

  /** A key no entity type of `types` claims keeps the value it had in `acc`. */
  lemma {:induction false} LocalTasksKeep(acc: PhpArray, types: seq<EntityType>, storageType: string,
                                           rels: seq<string>, base: PhpArray, def: (string, string) -> PhpArray,
                                           k: string)
    requires forall t :: t in types ==> k !in TaskKeys(storageType, t.id, rels)
    ensures Get(LocalTasks(acc, types, storageType, rels, base, def), k) == Get(acc, k)
    decreases |types|
  {
    if |types| > 0 {
      var next := AddTasks(acc, storageType, types[0].id, rels, base, def);
      assert types[0] in types;
      LocalTasksKeep(next, types[1..], storageType, rels, base, def, k);
    }
  }
}
