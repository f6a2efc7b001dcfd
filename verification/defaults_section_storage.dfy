/**
 * `DefaultsSectionStorage`: the section list lives on an
 * `entity_view_display` config entity, found through the `display`
 * context. This module holds the storage-id codec, context derivation from
 * a route (and its deprecated predecessors), access and the preview
 * contexts; DefaultsRoutes holds the route and local-task tables.
 */
module DefaultsSectionStorage {
  import opened Wrappers
  import opened PhpStrings
  import opened PhpArrays
  import opened SectionStorage

  /** The plugin id, used in route names and error messages. */
  const StorageType: string := "defaults"

  /**
   * The parts a display is named by: `explode('.', $value, 3)` leaves the
   * view mode unset when the value has a single dot.
   */
  datatype DisplayKey = DisplayKey(entityTypeId: string, bundle: string, viewMode: Option<string>)

  /** The dotted string a key is the split of. */
  function JoinKey(key: DisplayKey): string {
    key.entityTypeId + "." + key.bundle + (if key.viewMode.Some? then "." + key.viewMode.value else "")
  }

  /**
   * `list($entity_type_id, $bundle, $view_mode) = explode('.', $value, 3)`:
   * type and bundle are cut at the first two dots, and the view mode keeps
   * whatever dots remain.
   */
  function SplitDisplayId(value: string): (key: DisplayKey)
    requires '.' in value
    ensures JoinKey(key) == value
    ensures '.' !in key.entityTypeId && '.' !in key.bundle
  {
    var parts := Explode(value, 3);
    var key := DisplayKey(parts[0], parts[1], if |parts| == 3 then Some(parts[2]) else None);
    assert Implode(parts) == parts[0] + "." + Implode(parts[1..]);
    assert |parts| == 3 ==> Implode(parts[1..]) == parts[1] + "." + parts[2];
    key
  }

  /** Splitting the join of a key with dot-free type and bundle gives the key back. */
  lemma SplitJoin(key: DisplayKey)
    requires '.' !in key.entityTypeId && '.' !in key.bundle
    ensures '.' in JoinKey(key)
    ensures SplitDisplayId(JoinKey(key)) == key
  {
    var parts := if key.viewMode.Some? then [key.entityTypeId, key.bundle, key.viewMode.value]
                 else [key.entityTypeId, key.bundle];
    assert Implode(parts[1..]) == key.bundle + (if key.viewMode.Some? then "." + key.viewMode.value else "");
    assert Implode(parts) == JoinKey(key);
    ImplodeHasDot(parts);
    ExplodeImplode(parts, 3);
  }

  /** The view mode keeps every dot after the second. */
  lemma SplitKeepsTrailingDots()
    ensures SplitDisplayId("article.page.full.extra") == DisplayKey("article", "page", Some("full.extra"))
  {
    var key := DisplayKey("article", "page", Some("full.extra"));
    assert "article" == ['a', 'r', 't', 'i', 'c', 'l', 'e'] && "page" == ['p', 'a', 'g', 'e'];
    assert JoinKey(key) == "article.page.full.extra";
    SplitJoin(key);
  }

  /** A value with one dot splits into type and bundle with no view mode. */
  lemma SplitSingleDot()
    ensures SplitDisplayId("node.article") == DisplayKey("node", "article", None)
  {
    var key := DisplayKey("node", "article", None);
    assert "node" == ['n', 'o', 'd', 'e'] && "article" == ['a', 'r', 't', 'i', 'c', 'l', 'e'];
    assert JoinKey(key) == "node.article";
    SplitJoin(key);
  }

  /**
   * The three conditions of the `bundle_key` indirection: `bundle` is
   * empty, `bundle_key` is set, and the default it names is non-empty.
   */
  predicate BundleKeyApplies(defaults: PhpArray) {
    && IsEmpty(Get(defaults, "bundle"))
    && IsSet(Get(defaults, "bundle_key"))
    && !IsEmpty(Lookup(defaults, Get(defaults, "bundle_key").value))
  }

  /** `$defaults['bundle'] = $defaults[$defaults['bundle_key']]` when the indirection applies. */
  function ResolveBundle(defaults: PhpArray): (r: PhpArray)
    ensures BundleKeyApplies(defaults) ==>
              Get(r, "bundle") == Lookup(defaults, Get(defaults, "bundle_key").value)
    ensures forall k :: k != "bundle" ==> Get(r, k) == Get(defaults, k)
    ensures !BundleKeyApplies(defaults) ==> r == defaults
    ensures !IsEmpty(Get(r, "bundle")) <==> !IsEmpty(Get(defaults, "bundle")) || BundleKeyApplies(defaults)
  {
    if BundleKeyApplies(defaults) then
      Set(defaults, "bundle", Lookup(defaults, Get(defaults, "bundle_key").value).value)
    else defaults
  }

  /** Resolving twice changes nothing more: after the indirection the bundle is no longer empty. */
  lemma ResolveBundleIdempotent(defaults: PhpArray)
    ensures ResolveBundle(ResolveBundle(defaults)) == ResolveBundle(defaults)
  {
  }

  /** `entity_type_id`, `bundle` and `view_mode_name` are all non-empty. */
  predicate DefaultsComplete(defaults: PhpArray) {
    && !IsEmpty(Get(defaults, "entity_type_id"))
    && !IsEmpty(Get(defaults, "bundle"))
    && !IsEmpty(Get(defaults, "view_mode_name"))
  }

  /**
   * The key taken from complete defaults, each value converted to a
   * string as `"$entity_type_id.$bundle.$view_mode"` does: a non-empty
   * default never converts to the empty string, and the view mode is set.
   */
  function KeyFromDefaults(defaults: PhpArray): (key: DisplayKey)
    requires DefaultsComplete(defaults)
    ensures key.entityTypeId != "" && key.bundle != ""
    ensures key.viewMode.Some? && key.viewMode.value != ""
  {
    var t := Get(defaults, "entity_type_id").value;
    var b := Get(defaults, "bundle").value;
    var m := Get(defaults, "view_mode_name").value;
    StringConversion(t);
    StringConversion(b);
    StringConversion(m);
    DisplayKey(ToPhpString(t), ToPhpString(b), Some(ToPhpString(m)))
  }

  /** The id a display is loaded by, and the key it is created from when the load fails. */
  datatype DisplayLookup = DisplayLookup(id: string, key: DisplayKey)

  /**
   * The first half of `extractEntityFromRoute()`: a dotted string value is
   * split; otherwise the bundle-resolved defaults must be complete and are
   * joined into the id. The id is always the join of the key.
   */
  function LookupFromRoute(value: Option<string>, defaults: PhpArray): (r: Option<DisplayLookup>)
    ensures Dotted(value) ==> r == Some(DisplayLookup(value.value, SplitDisplayId(value.value)))
    ensures !Dotted(value) ==> (r.Some? <==> DefaultsComplete(ResolveBundle(defaults)))
    ensures !Dotted(value) && r.Some? ==>
              var d := ResolveBundle(defaults);
              r.value.key == DisplayKey(ToPhpString(Get(d, "entity_type_id").value),
                                        ToPhpString(Get(d, "bundle").value),
                                        Some(ToPhpString(Get(d, "view_mode_name").value)))
    ensures r.Some? ==> JoinKey(r.value.key) == r.value.id
  {
    var d := ResolveBundle(defaults);
    if Dotted(value) then Some(DisplayLookup(value.value, SplitDisplayId(value.value)))
    else if DefaultsComplete(d) then
      var key := KeyFromDefaults(d);
      Some(DisplayLookup(JoinKey(key), key))
    else None
  }

  /** `$storage->create([...])`: a new, unsaved display with `status` TRUE and no sections. */
  function CreateDisplay(key: DisplayKey): (d: Display)
    ensures d.targetEntityType == key.entityTypeId && d.bundle == key.bundle && d.mode == key.viewMode
    ensures d.status && d.isNew && !d.layoutBuilderEnabled && d.sections == []
  {
    Display(key.entityTypeId, key.bundle, key.viewMode, true, false, [], true)
  }

  /** `$storage->load($id)`, falling back to a created display; the store is never written. */
  function LoadOrCreate(store: DisplayStore, lookup: DisplayLookup): (d: Display)
    ensures lookup.id in store ==> d == store[lookup.id]
    ensures lookup.id !in store ==> d == CreateDisplay(lookup.key)
  {
    if lookup.id in store then store[lookup.id] else CreateDisplay(lookup.key)
  }

  /** In a well-formed store, the display is saved exactly when its id was found. */
  lemma LoadOrCreateSaved(store: DisplayStore, lookup: DisplayLookup)
    requires DisplayStoreWf(store)
    ensures !LoadOrCreate(store, lookup).isNew <==> lookup.id in store
  {
  }

  /**
   * The id of the display a lookup yields is the lookup id, except that a
   * created display with no view mode (a one-dot value) gains a trailing dot.
   */
  lemma LoadOrCreateId(store: DisplayStore, lookup: DisplayLookup)
    requires DisplayStoreWf(store)
    requires JoinKey(lookup.key) == lookup.id
    ensures DisplayId(LoadOrCreate(store, lookup)) ==
            if lookup.id in store || lookup.key.viewMode.Some? then lookup.id else lookup.id + "."
  {
  }

  /** `extractEntityFromRoute()`: the display named by the route, or NULL. */
  function ExtractEntityFromRoute(value: Option<string>, defaults: PhpArray, store: DisplayStore): (r: Option<Display>)
    ensures r.Some? <==> Dotted(value) || DefaultsComplete(ResolveBundle(defaults))
    ensures Dotted(value) ==> r == Some(LoadOrCreate(store, DisplayLookup(value.value, SplitDisplayId(value.value))))
    ensures r.Some? ==> r == Some(LoadOrCreate(store, LookupFromRoute(value, defaults).value))
  {
    match LookupFromRoute(value, defaults)
    case None => None
    case Some(lookup) => Some(LoadOrCreate(store, lookup))
  }

  /** A dotted value decides alone: the route defaults are not consulted. */
  lemma DottedValueWins(value: string, defaults1: PhpArray, defaults2: PhpArray, store: DisplayStore)
    requires '.' in value
    ensures ExtractEntityFromRoute(Some(value), defaults1, store) == ExtractEntityFromRoute(Some(value), defaults2, store)
  {
  }

  /** `deriveContextsFromRoute()`: `{display}` when a display is named, otherwise no context. */
  function DeriveContextsFromRoute(value: Option<string>, defaults: PhpArray, store: DisplayStore): (r: Contexts)
    ensures r.Keys <= {"display"}
    ensures "display" in r <==> Dotted(value) || DefaultsComplete(ResolveBundle(defaults))
    ensures "display" in r ==> r["display"] == DisplayContext(ExtractEntityFromRoute(value, defaults, store).value)
  {
    match ExtractEntityFromRoute(value, defaults, store)
    case None => map[]
    case Some(display) => map["display" := DisplayContext(display)]
  }

  /** `getDisplay()`: the `display` context's value. */
  function DisplayOf(contexts: Contexts): (r: Result<Display, Error>)
    ensures r.Success? <==> "display" in contexts && contexts["display"].DisplayContext?
    ensures r.Success? ==> r.value == contexts["display"].display
  {
    var c :- ContextValue(contexts, "display");
    if c.DisplayContext? then Success(c.display) else Failure(ContextTypeMismatch("display"))
  }

  /** `getStorageId()`: the display's config id. */
  function GetStorageId(contexts: Contexts): (r: Result<string, Error>)
    ensures r.Success? <==> DisplayOf(contexts).Success?
    ensures r.Success? ==> '.' in r.value
    ensures r.Success? ==>
              var d := DisplayOf(contexts).value;
              '.' !in d.targetEntityType && '.' !in d.bundle ==>
                SplitDisplayId(r.value) == DisplayKey(d.targetEntityType, d.bundle, Some(ModeText(d.mode)))
  {
    var d :- DisplayOf(contexts);
    var key := DisplayKey(d.targetEntityType, d.bundle, Some(ModeText(d.mode)));
    assert DisplayId(d) == JoinKey(key);
    assert '.' !in d.targetEntityType && '.' !in d.bundle ==> SplitDisplayId(JoinKey(key)) == key by {
      if '.' !in d.targetEntityType && '.' !in d.bundle {
        SplitJoin(key);
      }
    }
    assert DisplayId(d)[|d.targetEntityType|] == '.';
    Success(DisplayId(d))
  }

  /**
   * The storage id round trip through a route: a display derived from a
   * well-formed store reports the value it was named by, except that a
   * one-dot value naming no saved display comes back with a trailing dot.
   */
  lemma {:induction false} StorageIdFromRoute(value: string, defaults: PhpArray, store: DisplayStore)
    requires DisplayStoreWf(store)
    requires '.' in value
    ensures var key := SplitDisplayId(value);
            GetStorageId(DeriveContextsFromRoute(Some(value), defaults, store)) ==
            Success(if value in store || key.viewMode.Some? then value else value + ".")
  {
    LoadOrCreateId(store, DisplayLookup(value, SplitDisplayId(value)));
  }

  /** `access()`: allowed iff Layout Builder is enabled on the display. */
  function Access(contexts: Contexts, returnAsObject: bool): (r: Result<AccessAnswer, Error>)
    ensures r.Success? <==> DisplayOf(contexts).Success?
    ensures r.Success? ==> (r.value.AsObject? <==> returnAsObject)
    ensures r.Success? ==> (Granted(r.value) <==> DisplayOf(contexts).value.layoutBuilderEnabled)
  {
    var d :- DisplayOf(contexts);
    Success(AllowedIf(d.layoutBuilderEnabled, returnAsObject))
  }

  /**
   * Access through a route: granted exactly when the route names a saved
   * display with Layout Builder enabled; a display synthesised for a
   * missing id is never granted.
   */
  lemma {:induction false} RouteAccess(value: Option<string>, defaults: PhpArray, store: DisplayStore, returnAsObject: bool)
    requires DisplayStoreWf(store)
    requires LookupFromRoute(value, defaults).Some?
    ensures var id := LookupFromRoute(value, defaults).value.id;
            var r := Access(DeriveContextsFromRoute(value, defaults, store), returnAsObject);
            r.Success? && (Granted(r.value) <==> id in store && store[id].layoutBuilderEnabled)
  {
    var lookup := LookupFromRoute(value, defaults).value;
    assert ExtractEntityFromRoute(value, defaults, store) == Some(LoadOrCreate(store, lookup));
  }

  /**
   * `getContextsDuringPreview()`: the storage's contexts plus
   * `layout_builder.entity`, a sample entity of the display's type and bundle.
   */
  function PreviewContexts(contexts: Contexts, sample: (string, string) -> ContentEntity): (r: Result<Contexts, Error>)
    ensures r.Success? <==> DisplayOf(contexts).Success?
    ensures r.Success? ==>
              var d := DisplayOf(contexts).value;
              && r.value.Keys == contexts.Keys + {"layout_builder.entity"}
              && r.value["layout_builder.entity"] == EntityContext(sample(d.targetEntityType, d.bundle))
              && forall k :: k in contexts && k != "layout_builder.entity" ==> r.value[k] == contexts[k]
  {
    var d :- DisplayOf(contexts);
    Success(contexts["layout_builder.entity" := EntityContext(sample(d.targetEntityType, d.bundle))])
  }

  /** Deprecated `extractIdFromRoute()`: the dotted value, or the id joined from complete defaults. */
  function ExtractIdFromRoute(value: Option<string>, defaults: PhpArray): (r: Option<string>)
    ensures Dotted(value) ==> r == value
    ensures !Dotted(value) ==> (r.Some? <==> DefaultsComplete(ResolveBundle(defaults)))
    ensures !Dotted(value) && r.Some? ==> r.value == LookupFromRoute(value, defaults).value.id
  {
    if Dotted(value) then value
    else
      var d := ResolveBundle(defaults);
      if DefaultsComplete(d) then
        Some(ToPhpString(Get(d, "entity_type_id").value) + "." + ToPhpString(Get(d, "bundle").value)
             + "." + ToPhpString(Get(d, "view_mode_name").value))
      else None
  }

  /** Deprecated `getSectionListFromId()`: an id without a dot is invalid; otherwise load or create. */
  function GetSectionListFromId(id: string, store: DisplayStore): (r: Result<Display, Error>)
    ensures r.Failure? <==> '.' !in id
    ensures r.Failure? ==> r.error == InvalidArgument(id, StorageType)
    ensures r.Success? ==> (id in store ==> r.value == store[id])
    ensures r.Success? && id !in store ==> r.value == CreateDisplay(SplitDisplayId(id))
    ensures r.Success? && id !in store ==> JoinKey(DisplayKey(r.value.targetEntityType, r.value.bundle, r.value.mode)) == id
  {
    if '.' !in id then Failure(InvalidArgument(id, StorageType))
    else Success(LoadOrCreate(store, DisplayLookup(id, SplitDisplayId(id))))
  }

  /**
   * The deprecated pair agrees with derivation: the id extracted from a
   * route names no display exactly when derivation finds none, and
   * otherwise loads the same display, as long as the key's type and bundle
   * hold no dot.
   */
  lemma {:induction false} LegacyPathAgrees(value: Option<string>, defaults: PhpArray, store: DisplayStore)
    requires LookupFromRoute(value, defaults).Some? ==>
               var key := LookupFromRoute(value, defaults).value.key;
               '.' !in key.entityTypeId && '.' !in key.bundle
    ensures ExtractIdFromRoute(value, defaults).None? <==> ExtractEntityFromRoute(value, defaults, store).None?
    ensures ExtractIdFromRoute(value, defaults).Some? ==>
              GetSectionListFromId(ExtractIdFromRoute(value, defaults).value, store)
              == Success(ExtractEntityFromRoute(value, defaults, store).value)
  {
    match LookupFromRoute(value, defaults)
    case None =>
    case Some(lookup) =>
      var id := ExtractIdFromRoute(value, defaults).value;
      assert id == lookup.id;
      SplitJoin(lookup.key);
  }
}
