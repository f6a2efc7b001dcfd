# Layout Builder section storages, in Dafny

This project models the two section-storage strategies of Drupal's Layout
Builder and proves properties of the model.

- `DefaultsSectionStorage` keeps a section list on an `entity_view_display`
  config entity. The display is reached through the `display` context.
- `OverridesSectionStorage` keeps it in the `layout_builder__layout` field
  of a content entity. The entity is reached through the `entity` context.

For each storage the model covers:

- the storage-id codec. Defaults uses `type.bundle.mode` split with
  `explode('.', $v, 3)`. Overrides uses `type.id` split with limit 2.
- context derivation from a route's raw value and route defaults,
  including the deprecated `extractIdFromRoute` / `getSectionListFromId`
  pair;
- `access()` and the preview contexts;
- the tables built for the router and the menu: served entity types,
  local tasks, arguments of each `buildLayoutRoutes()` call and, for
  Defaults, the patching of the existing display routes.

Modules:

| file | module | holds |
|---|---|---|
| `wrappers.dfy` | `Wrappers` | `Option` and `Result`, the latter carrying the exceptions the PHP code throws |
| `php_strings.dfy` | `PhpStrings` | `explode()` with a limit and its inverse `implode()`, `strpos()`, integer-to-string conversion |
| `php_arrays.dfy` | `PhpArrays` | PHP values and ordered arrays; `$a[$k] = $v`, `$a[$k1][$k2] = $v`, array `+`, `Route::addDefaults()`, `NestedArray::mergeDeep()`, `empty()`, `isset()` |
| `section_storage.dfy` | `SectionStorage` | displays, content entities, their stores, context bags, errors, access answers, entity-type descriptors, routes, and the local-task fold both storages share |
| `defaults_section_storage.dfy` | `DefaultsSectionStorage` | codec, derivation, access, preview, deprecated path |
| `defaults_routes.dfy` | `DefaultsRoutes` | `getEntityTypes`, `buildLocalTasks`, `buildRoutes` |
| `overrides_section_storage.dfy` | `OverridesSectionStorage` | codec, derivation, access, preview, deprecated path |
| `overrides_routes.dfy` | `OverridesRoutes` | `getEntityTypes`, `hasIntegerId`, `buildLocalTasks`, `buildRoutes` |

Collaborators outside the two classes are handled as follows:

- **Becoming parameters.** The display store (`map<string, Display>`), the
  content-entity stores (`map` of entity type id to `map` of id to
  entity), the entity-type registry (a sequence of descriptors) and the
  route collection become parameters.
- **Uninterpreted functions.** `buildLayoutRoutes()`, `collectRenderDisplay()`,
  the sample-entity generator and the entity field manager's storage
  types are function parameters.
- **Raw route value.** It is an `Option<string>`, with `None` for a value
  that is not a string.
- **Exceptions.** A thrown exception is a `Failure`:
  - `InvalidArgument` for the `InvalidArgumentException` of
    `getSectionListFromId`;
  - `UnknownEntityType` for `getStorage()` on an unknown type;
  - `MissingContext` and `ContextTypeMismatch` for a missing or mistyped
    context;
  - `MissingFieldDefinition` for `hasIntegerId()` on a type whose id key
    has no field storage definition.

Source paths in the table are relative to the repository root.

## Model

| member | source | states |
|---|---|---|
| PhpStrings.Explode | core/modules/layout_builder/src/Plugin/SectionStorage/DefaultsSectionStorage.php:325 | `explode()` with a limit returns between one and `limit` pieces that implode back to the input; the pieces before the last hold no separator; a dotted input gives at least two pieces |
| PhpStrings.ExplodeImplode | core/modules/layout_builder/src/Plugin/SectionStorage/DefaultsSectionStorage.php:325 | exploding the implosion of a canonical list of pieces gives the list back |
| PhpStrings.ImplodeInjective | core/modules/layout_builder/src/Plugin/SectionStorage/OverridesSectionStorage.php:172 | two canonical piece lists with the same implosion are equal, so the split is unique |
| PhpStrings.IndexOf | core/modules/layout_builder/src/Plugin/SectionStorage/DefaultsSectionStorage.php:324 | `strpos()` on a character: -1 exactly when it is absent, otherwise the position of its first occurrence |
| PhpStrings.IntToString | core/modules/layout_builder/src/Plugin/SectionStorage/OverridesSectionStorage.php:122-125 | an integer default converts to its decimal spelling: a leading `-` exactly when it is negative, digits only after it, no leading zero unless the number is 0, the digits spelling the value, and never a dot |
| PhpStrings.IntToStringInjective | core/modules/layout_builder/src/Plugin/SectionStorage/OverridesSectionStorage.php:122-125 | different integers convert to different strings |
| PhpArrays.Get | core/modules/layout_builder/src/Plugin/SectionStorage/DefaultsSectionStorage.php:320 | reading `$a[$k]` finds a value exactly when `k` is a key |
| PhpArrays.GetFirstEntry | core/modules/layout_builder/src/Plugin/SectionStorage/OverridesSectionStorage.php:217-223 | reading a key of an array literal gives the value of the first entry that carries it |
| PhpArrays.IsSet | core/modules/layout_builder/src/Plugin/SectionStorage/OverridesSectionStorage.php:122 | `isset()` fails for a missing value and for NULL, and holds for every present string, integer, boolean or array |
| PhpArrays.IsEmpty | core/modules/layout_builder/src/Plugin/SectionStorage/DefaultsSectionStorage.php:320 | `empty()` holds for a missing value and NULL; a string is empty exactly when it is `""` or `"0"`, an integer when it is 0, a boolean when it is FALSE, an array when it has no entries |
| PhpArrays.KeyNormalisation | core/modules/layout_builder/src/Plugin/SectionStorage/OverridesSectionStorage.php:122-124 | an integer offset reads the entry under its decimal string, TRUE the entry under 1, FALSE under 0 and NULL under `""`; different integers name different keys |
| PhpArrays.StringConversion | core/modules/layout_builder/src/Plugin/SectionStorage/DefaultsSectionStorage.php:331 | string conversion of a scalar names the same key as using it as an offset, except FALSE, which converts to `""` but indexes as `0`; an integer converts to its value in decimal; a non-empty scalar never converts to `""` |
| PhpArrays.Set | core/modules/layout_builder/src/Plugin/SectionStorage/DefaultsSectionStorage.php:155-165 | `$a[$k] = $v` makes `k` read `v`, leaves every other key alone, overwrites in place or appends, and keeps keys distinct |
| PhpArrays.SetIn | core/modules/layout_builder/src/Plugin/SectionStorage/OverridesSectionStorage.php:203-204 | `$a[$k1][$k2] = $v` leaves an array under `k1` whose `k2` reads `v` and whose other keys are unchanged; other outer keys are unchanged |
| PhpArrays.SetAll | core/modules/layout_builder/src/Plugin/SectionStorage/DefaultsSectionStorage.php:185-188 | `addDefaults()`: the keys are the union; a key of the added array reads its new value; other keys keep theirs |
| PhpArrays.Union | core/modules/layout_builder/src/Plugin/SectionStorage/DefaultsSectionStorage.php:202-206 | array `+`: keys are the union, the left operand wins on a shared key, and the left operand stays as the prefix |
| PhpArrays.MergeDeep | core/modules/layout_builder/src/Plugin/SectionStorage/DefaultsSectionStorage.php:190 | `mergeDeep()`: keys are the union, keys only on the left keep their values, each key on the right reads the merge of both values |
| SectionStorage.ContextValue | core/modules/layout_builder/src/Plugin/SectionStorage/OverridesSectionStorage.php:101-103 | a context value is found exactly when the bag holds the name; otherwise the missing-context error |
| SectionStorage.AllowedIf | core/modules/layout_builder/src/Plugin/SectionStorage/DefaultsSectionStorage.php:443-444 | the answer is an object exactly when one is requested, and it grants exactly when the condition holds |
| SectionStorage.Filter | core/modules/layout_builder/src/Plugin/SectionStorage/DefaultsSectionStorage.php:229-231 | `array_filter()`: a type is kept exactly when it is in the registry and passes the test; distinct ids stay distinct; when every type passes, the registry comes back unchanged |
| SectionStorage.FilterAppend | core/modules/layout_builder/src/Plugin/SectionStorage/DefaultsSectionStorage.php:229-231 | filtering a concatenation concatenates the filtered parts, so the kept types stay in registry order |
| SectionStorage.TaskKeyInjective | core/modules/layout_builder/src/Plugin/SectionStorage/OverridesSectionStorage.php:216-244 | task keys of different entity types or relations never collide |
| SectionStorage.AddTasks | core/modules/layout_builder/src/Plugin/SectionStorage/OverridesSectionStorage.php:216-245 | one type's tasks add exactly its keys, each holding the base definition plus its own, and leave every other task alone |
| SectionStorage.AllTaskKeysCover | core/modules/layout_builder/src/Plugin/SectionStorage/DefaultsSectionStorage.php:201-218 | every served type and relation has a task key |
| SectionStorage.AllTaskKeysOnly | core/modules/layout_builder/src/Plugin/SectionStorage/DefaultsSectionStorage.php:201-218 | every task key belongs to a served type and a relation |
| SectionStorage.LocalTasks | core/modules/layout_builder/src/Plugin/SectionStorage/DefaultsSectionStorage.php:200-219 | the task fold adds exactly the task keys of the types, with no duplicates |
| SectionStorage.LocalTasksValues | core/modules/layout_builder/src/Plugin/SectionStorage/DefaultsSectionStorage.php:202-217 | with distinct type ids, each task is the base definition plus the storage's own, the base winning |
| SectionStorage.LocalTasksKeep | core/modules/layout_builder/src/Plugin/SectionStorage/DefaultsSectionStorage.php:200 | the fold leaves a key alone when no type's tasks use it |
| DefaultsSectionStorage.SplitDisplayId | core/modules/layout_builder/src/Plugin/SectionStorage/DefaultsSectionStorage.php:324-325 | a dotted id splits into a key that joins back to it, with dot-free type and bundle; the view mode keeps the remaining dots |
| DefaultsSectionStorage.SplitJoin | core/modules/layout_builder/src/Plugin/SectionStorage/DefaultsSectionStorage.php:325-331 | splitting the id joined from a key with dot-free type and bundle gives the key back |
| DefaultsSectionStorage.SplitKeepsTrailingDots | core/modules/layout_builder/src/Plugin/SectionStorage/DefaultsSectionStorage.php:325 | `article.page.full.extra` splits into `article`, `page`, `full.extra` |
| DefaultsSectionStorage.SplitSingleDot | core/modules/layout_builder/src/Plugin/SectionStorage/DefaultsSectionStorage.php:325 | `node.article` splits into `node`, `article` with the view mode left unset |
| DefaultsSectionStorage.ResolveBundle | core/modules/layout_builder/src/Plugin/SectionStorage/DefaultsSectionStorage.php:320-322 | the bundle is copied from the default named by `bundle_key` exactly when `bundle` is empty, `bundle_key` is set and the named default is non-empty; otherwise the defaults are unchanged |
| DefaultsSectionStorage.ResolveBundleIdempotent | core/modules/layout_builder/src/Plugin/SectionStorage/DefaultsSectionStorage.php:245-247 | resolving the bundle twice is resolving it once |
| DefaultsSectionStorage.LookupFromRoute | core/modules/layout_builder/src/Plugin/SectionStorage/DefaultsSectionStorage.php:320-335 | a dotted string value wins; otherwise a display is named exactly when the resolved defaults are complete, and its key is their entity type, bundle and view mode; the lookup id is always the join of its key |
| DefaultsSectionStorage.KeyFromDefaults | core/modules/layout_builder/src/Plugin/SectionStorage/DefaultsSectionStorage.php:327-331 | none of the key parts taken from complete defaults converts to the empty string, and the view mode is always set |
| DefaultsSectionStorage.CreateDisplay | core/modules/layout_builder/src/Plugin/SectionStorage/DefaultsSectionStorage.php:340-345 | a created display has the key's type, bundle and mode, `status` TRUE, no sections, and is new |
| DefaultsSectionStorage.LoadOrCreate | core/modules/layout_builder/src/Plugin/SectionStorage/DefaultsSectionStorage.php:337-347 | a stored display is returned as loaded; a missing one is created; the store is untouched |
| DefaultsSectionStorage.LoadOrCreateSaved | core/modules/layout_builder/src/Plugin/SectionStorage/DefaultsSectionStorage.php:339 | in a well-formed store the display is saved exactly when its id was found |
| DefaultsSectionStorage.LoadOrCreateId | core/modules/layout_builder/src/Plugin/SectionStorage/DefaultsSectionStorage.php:337-347 | the display's id is the lookup id, except that a created display with no view mode gains a trailing dot |
| DefaultsSectionStorage.ExtractEntityFromRoute | core/modules/layout_builder/src/Plugin/SectionStorage/DefaultsSectionStorage.php:317-348 | a display comes back exactly when the value is dotted or the resolved defaults are complete; it is the display stored under the lookup id, or one created from the lookup key |
| DefaultsSectionStorage.DottedValueWins | core/modules/layout_builder/src/Plugin/SectionStorage/DefaultsSectionStorage.php:324-325 | with a dotted value the route defaults do not matter |
| DefaultsSectionStorage.DeriveContextsFromRoute | core/modules/layout_builder/src/Plugin/SectionStorage/DefaultsSectionStorage.php:294-301 | the bag is exactly `{display}` when a display is named, and empty otherwise |
| DefaultsSectionStorage.DisplayOf | core/modules/layout_builder/src/Plugin/SectionStorage/DefaultsSectionStorage.php:104-106 | the display is found exactly when the bag holds a display under `display` |
| DefaultsSectionStorage.GetStorageId | core/modules/layout_builder/src/Plugin/SectionStorage/DefaultsSectionStorage.php:111-113 | the storage id is dotted, and it splits back into the display's type, bundle and mode when type and bundle hold no dot |
| DefaultsSectionStorage.StorageIdFromRoute | core/modules/layout_builder/src/Plugin/SectionStorage/DefaultsSectionStorage.php:111-113 | a display derived from a dotted value reports that value as its id; a one-dot value naming no saved display gains a trailing dot |
| DefaultsSectionStorage.Access | core/modules/layout_builder/src/Plugin/SectionStorage/DefaultsSectionStorage.php:442-445 | access is granted exactly when Layout Builder is enabled on the display; the answer is an object exactly when one is requested |
| DefaultsSectionStorage.RouteAccess | core/modules/layout_builder/src/Plugin/SectionStorage/DefaultsSectionStorage.php:337-347 | through a route, access is granted exactly when the named display is saved and enabled; a created display is never granted |
| DefaultsSectionStorage.PreviewContexts | core/modules/layout_builder/src/Plugin/SectionStorage/DefaultsSectionStorage.php:280-289 | preview adds `layout_builder.entity`, a sample of the display's type and bundle, and keeps every other context |
| DefaultsSectionStorage.ExtractIdFromRoute | core/modules/layout_builder/src/Plugin/SectionStorage/DefaultsSectionStorage.php:237-252 | a dotted string value is returned unchanged; otherwise an id comes back exactly when the resolved defaults are complete, and it is the id of the display the route lookup names |
| DefaultsSectionStorage.GetSectionListFromId | core/modules/layout_builder/src/Plugin/SectionStorage/DefaultsSectionStorage.php:257-275 | the id is invalid exactly when it holds no dot; otherwise a stored display is returned as loaded, and a missing one is the display created from the id's parts |
| DefaultsSectionStorage.LegacyPathAgrees | core/modules/layout_builder/src/Plugin/SectionStorage/DefaultsSectionStorage.php:237-275 | the deprecated pair names no display exactly when derivation finds none, and otherwise yields the same display |
| DefaultsRoutes.GetEntityTypes | core/modules/layout_builder/src/Plugin/SectionStorage/DefaultsSectionStorage.php:228-232 | the served types are exactly the fieldable ones with a view builder and a truthy `field_ui_base_route` |
| DefaultsRoutes.TaskDefinition | core/modules/layout_builder/src/Plugin/SectionStorage/DefaultsSectionStorage.php:202-217 | each task names its route; view is its own base route; save and cancel name view as parent; cancel weighs 5 |
| DefaultsRoutes.BuildLocalTasks | core/modules/layout_builder/src/Plugin/SectionStorage/DefaultsSectionStorage.php:199-220 | every served type gets its view, save and cancel tasks, with no duplicate keys |
| DefaultsRoutes.BuildLocalTasksOnly | core/modules/layout_builder/src/Plugin/SectionStorage/DefaultsSectionStorage.php:199-220 | no other task is emitted |
| DefaultsRoutes.BuildLocalTasksValues | core/modules/layout_builder/src/Plugin/SectionStorage/DefaultsSectionStorage.php:202-217 | each task is `$base_plugin_definition + [...]` |
| DefaultsRoutes.TaskFieldOf | core/modules/layout_builder/src/Plugin/SectionStorage/DefaultsSectionStorage.php:202 | a task field comes from the base definition when the base sets it, and from the storage otherwise |
| DefaultsRoutes.TaskFields | core/modules/layout_builder/src/Plugin/SectionStorage/DefaultsSectionStorage.php:205-216 | save and cancel point at view, cancel weighs 5, view is its own base route, unless the base definition already sets the field |
| DefaultsRoutes.RouteDefaults | core/modules/layout_builder/src/Plugin/SectionStorage/DefaultsSectionStorage.php:155-166 | the defaults hold the type id; without a `{bundle}` slot they also hold `bundle` = type id when the type has no bundle key, and `bundle_key` otherwise |
| DefaultsRoutes.SuffixAddsNoBundleSlot | core/modules/layout_builder/src/Plugin/SectionStorage/DefaultsSectionStorage.php:153-159 | the path has a `{bundle}` slot exactly when the base route's path has one |
| DefaultsRoutes.SlotWithinBasePath | core/modules/layout_builder/src/Plugin/SectionStorage/DefaultsSectionStorage.php:153-159 | a `{bundle}` found in the layout path lies entirely within the base route's path |
| DefaultsRoutes.BundleKeyRouteNamesDisplay | core/modules/layout_builder/src/Plugin/SectionStorage/DefaultsSectionStorage.php:163-165 | a route of a type with bundles, called with a bundle and a view mode, names the display `type.bundle.mode` through `bundle_key` |
| DefaultsRoutes.BundlelessRouteNamesDisplay | core/modules/layout_builder/src/Plugin/SectionStorage/DefaultsSectionStorage.php:159-162 | a route of a type without bundles, called with a view mode, names the display `type.type.mode` |
| DefaultsRoutes.LayoutArgs | core/modules/layout_builder/src/Plugin/SectionStorage/DefaultsSectionStorage.php:153-174 | the path is the base path plus `/display-layout/{view_mode_name}`; the only requirement is the view-mode access; the options are the base route's with `_admin_route` FALSE |
| DefaultsRoutes.StorageRouteDefaults | core/modules/layout_builder/src/Plugin/SectionStorage/DefaultsSectionStorage.php:185-188 | the storage defaults are `section_storage_type` = `defaults` and `section_storage` = the empty string |
| DefaultsRoutes.MarkTempstore | core/modules/layout_builder/src/Plugin/SectionStorage/DefaultsSectionStorage.php:189 | the tempstore flag is set under `section_storage` and nothing else changes |
| DefaultsRoutes.PatchRoute | core/modules/layout_builder/src/Plugin/SectionStorage/DefaultsSectionStorage.php:180-191 | a missing display route is skipped; a present one gets the storage and entity defaults and the accumulated parameters, and keeps its path, requirements and other options; accumulated keys are never lost |
| DefaultsRoutes.PatchedParameters | core/modules/layout_builder/src/Plugin/SectionStorage/DefaultsSectionStorage.php:189-190 | a route's prior parameters are merged into the accumulated ones, not overwritten, and the tempstore flag survives unless the route declares `section_storage` itself |
| DefaultsRoutes.PriorParameters | core/modules/layout_builder/src/Plugin/SectionStorage/DefaultsSectionStorage.php:190 | an empty or missing `parameters` option counts as no parameters; an array option gives its entries |
| DefaultsRoutes.RouteStep | core/modules/layout_builder/src/Plugin/SectionStorage/DefaultsSectionStorage.php:147-192 | a type whose base route is missing is skipped with no effect; otherwise one `buildLayoutRoutes()` call is made with its arguments, and the collection is what the builder returns, every route but the two display routes left as built |
| DefaultsRoutes.StepPatchesDisplayRoutes | core/modules/layout_builder/src/Plugin/SectionStorage/DefaultsSectionStorage.php:176-192 | after a step, each display route present carries the storage defaults and the type id, and its prior parameters are kept inside the new `parameters` option |
| DefaultsRoutes.BuildRoutesFrom | core/modules/layout_builder/src/Plugin/SectionStorage/DefaultsSectionStorage.php:147-193 | the loop only appends calls, never more than the types it visits, and the accumulated parameter keys only grow |
| DefaultsRoutes.BuildRoutesFromCall | core/modules/layout_builder/src/Plugin/SectionStorage/DefaultsSectionStorage.php:147-174 | every call the loop appends was built for one of the types it visited |
| DefaultsRoutes.BuildRoutesFromDistinct | core/modules/layout_builder/src/Plugin/SectionStorage/DefaultsSectionStorage.php:147-174 | over types with distinct ids, no two calls the loop appends are for the same entity type |
| DefaultsRoutes.BuildRoutes | core/modules/layout_builder/src/Plugin/SectionStorage/DefaultsSectionStorage.php:146-194 | no more `buildLayoutRoutes()` calls than served types, each with the arguments of a served type; over a registry with distinct ids no type gets two calls |
| OverridesSectionStorage.SplitEntityId | core/modules/layout_builder/src/Plugin/SectionStorage/OverridesSectionStorage.php:171-172 | a dotted id splits into an address that joins back to it, the type holding no dot |
| OverridesSectionStorage.SplitJoinAddress | core/modules/layout_builder/src/Plugin/SectionStorage/OverridesSectionStorage.php:108-111 | splitting `type.id` gives back the type and id whenever the type holds no dot, dots in the id included |
| OverridesSectionStorage.SplitKeepsDottedId | core/modules/layout_builder/src/Plugin/SectionStorage/OverridesSectionStorage.php:172 | `config_pages.home.page` splits into `config_pages` and `home.page` |
| OverridesSectionStorage.AddressFromRoute | core/modules/layout_builder/src/Plugin/SectionStorage/OverridesSectionStorage.php:171-180 | a dotted value wins; otherwise an address comes back exactly when `entity_type_id` is set and the default it names is non-empty |
| OverridesSectionStorage.Load | core/modules/layout_builder/src/Plugin/SectionStorage/OverridesSectionStorage.php:181 | an unknown entity type throws; otherwise the entity is found exactly when its store holds the id |
| OverridesSectionStorage.ExtractEntityFromRoute | core/modules/layout_builder/src/Plugin/SectionStorage/OverridesSectionStorage.php:170-186 | only a loaded entity that is fieldable and has the layout field comes back; nothing is synthesised |
| OverridesSectionStorage.DottedValueWins | core/modules/layout_builder/src/Plugin/SectionStorage/OverridesSectionStorage.php:171-172 | with a dotted value the route defaults do not matter |
| OverridesSectionStorage.DeriveContextsFromRoute | core/modules/layout_builder/src/Plugin/SectionStorage/OverridesSectionStorage.php:147-154 | the bag is exactly `{entity}` when an entity with the layout field is found, and empty otherwise |
| OverridesSectionStorage.EntityOf | core/modules/layout_builder/src/Plugin/SectionStorage/OverridesSectionStorage.php:101-103 | the entity is found exactly when the bag holds an entity under `entity` |
| OverridesSectionStorage.GetStorageId | core/modules/layout_builder/src/Plugin/SectionStorage/OverridesSectionStorage.php:108-111 | the storage id is dotted and splits back into the entity's type and id when the type holds no dot |
| OverridesSectionStorage.StorageIdFromRoute | core/modules/layout_builder/src/Plugin/SectionStorage/OverridesSectionStorage.php:108-111 | an entity derived from a well-formed store by a dotted value reports exactly that value as its id |
| OverridesSectionStorage.DefaultSectionStorage | core/modules/layout_builder/src/Plugin/SectionStorage/OverridesSectionStorage.php:279-283 | the default storage is the display collected for the entity's `full` view mode |
| OverridesSectionStorage.Access | core/modules/layout_builder/src/Plugin/SectionStorage/OverridesSectionStorage.php:332-336 | access is granted exactly when the collected default display has Layout Builder enabled; the answer is an object exactly when one is requested |
| OverridesSectionStorage.AccessIgnoresOwnSections | core/modules/layout_builder/src/Plugin/SectionStorage/OverridesSectionStorage.php:332-336 | for a collector that ignores the layout field, the entity's own section data plays no part in access |
| OverridesSectionStorage.AccessTestCases | core/modules/layout_builder/tests/src/Kernel/OverridesSectionStorageTest.php:104-107 | the four enabled-by-data cases: granted exactly when the display is enabled |
| OverridesSectionStorage.PreviewContexts | core/modules/layout_builder/src/Plugin/SectionStorage/OverridesSectionStorage.php:304-313 | preview moves `entity` to `layout_builder.entity` and keeps every other context |
| OverridesSectionStorage.PreviewSingleContext | core/modules/layout_builder/tests/src/Kernel/OverridesSectionStorageTest.php:135-136 | a bag holding only `entity` becomes a bag holding only `layout_builder.entity` |
| OverridesSectionStorage.ExtractIdFromRoute | core/modules/layout_builder/src/Plugin/SectionStorage/OverridesSectionStorage.php:116-127 | a dotted value is returned unchanged; otherwise an id comes back exactly when the defaults name an entity; it is always the `type.id` join of the address the route derives |
| OverridesSectionStorage.GetSectionListFromId | core/modules/layout_builder/src/Plugin/SectionStorage/OverridesSectionStorage.php:132-142 | the id is invalid when it has no dot or its entity is missing, not fieldable or lacks the field; an unknown type throws; otherwise the layout field is returned |
| OverridesSectionStorage.LegacyPathAgrees | core/modules/layout_builder/src/Plugin/SectionStorage/OverridesSectionStorage.php:116-186 | the deprecated pair finds no id exactly when derivation finds no address, and otherwise returns the layout field of the entity derivation finds |
| OverridesRoutes.GetEntityTypes | core/modules/layout_builder/src/Plugin/SectionStorage/OverridesSectionStorage.php:270-274 | the served types are exactly the fieldable ones with a view builder and a canonical link template |
| OverridesRoutes.TaskDefinition | core/modules/layout_builder/src/Plugin/SectionStorage/OverridesSectionStorage.php:217-244 | each task names its route and carries the `layout_builder_is_active` cache context; view weighs 15 under `entity.X.canonical`; the others name view as parent; cancel weighs 5 and revert 10 |
| OverridesRoutes.BuildLocalTasks | core/modules/layout_builder/src/Plugin/SectionStorage/OverridesSectionStorage.php:214-248 | every served type gets its view, save, cancel and revert tasks, with no duplicate keys |
| OverridesRoutes.BuildLocalTasksOnly | core/modules/layout_builder/src/Plugin/SectionStorage/OverridesSectionStorage.php:214-248 | no other task is emitted |
| OverridesRoutes.BuildLocalTasksValues | core/modules/layout_builder/src/Plugin/SectionStorage/OverridesSectionStorage.php:217-244 | each task is `$base_plugin_definition + [...]` |
| OverridesRoutes.TaskFieldOf | core/modules/layout_builder/src/Plugin/SectionStorage/OverridesSectionStorage.php:217 | a task field comes from the base definition when the base sets it, and from the storage otherwise |
| OverridesRoutes.TaskFields | core/modules/layout_builder/src/Plugin/SectionStorage/OverridesSectionStorage.php:219-243 | view weighs 15 under the canonical route, cancel 5 and revert 10, and save, cancel and revert point at view, unless the base definition already sets the field |
| OverridesRoutes.HasIntegerId | core/modules/layout_builder/src/Plugin/SectionStorage/OverridesSectionStorage.php:259-262 | the id is an integer exactly when its field storage type is `integer`; a missing definition fails |
| OverridesRoutes.RouteOptionsWrites | core/modules/layout_builder/src/Plugin/SectionStorage/OverridesSectionStorage.php:201-204 | the options are exactly what the two nested writes into `$options['parameters']` leave behind, starting from no options |
| OverridesRoutes.RouteOptionsShape | core/modules/layout_builder/src/Plugin/SectionStorage/OverridesSectionStorage.php:201-204 | the only option is `parameters`; it declares `section_storage` and the entity parameter typed `entity:X`, with `section_storage` first and empty unless the entity type shares its name |
| OverridesRoutes.RouteArgs | core/modules/layout_builder/src/Plugin/SectionStorage/OverridesSectionStorage.php:192-208 | the arguments can be built exactly when the id field has a storage definition |
| OverridesRoutes.RouteArgsShape | core/modules/layout_builder/src/Plugin/SectionStorage/OverridesSectionStorage.php:193-206 | the path is the canonical template plus `/layout`; the only default is the type id; `X => '\d+'` is required exactly when the id is an integer |
| OverridesRoutes.AllRouteArgs | core/modules/layout_builder/src/Plugin/SectionStorage/OverridesSectionStorage.php:192-208 | a completed loop makes one call per type |
| OverridesRoutes.AllRouteArgsSucceed | core/modules/layout_builder/src/Plugin/SectionStorage/OverridesSectionStorage.php:197 | the loop completes exactly when every type has a definition for its id field |
| OverridesRoutes.AllRouteArgsAt | core/modules/layout_builder/src/Plugin/SectionStorage/OverridesSectionStorage.php:192-208 | the i-th call carries the arguments built for the i-th type |
| OverridesRoutes.ApplyBuildsAppend | core/modules/layout_builder/src/Plugin/SectionStorage/OverridesSectionStorage.php:192-208 | the calls are applied in order, each to the collection the earlier calls left behind |
| OverridesRoutes.ApplyBuildsSnoc | core/modules/layout_builder/src/Plugin/SectionStorage/OverridesSectionStorage.php:207 | one more call applies `buildLayoutRoutes()` once more, to the collection built so far |
| OverridesRoutes.BuildRoutes | core/modules/layout_builder/src/Plugin/SectionStorage/OverridesSectionStorage.php:191-209 | every served type gets exactly one `buildLayoutRoutes()` call, in registry order; the build fails when a type lacks an id field definition; the returned collection is the given one with the calls applied in order |

## Left out

- URL generation is not modelled: `getRedirectUrl`, `getLayoutBuilderUrl` and `getRouteParameters` only wrap `Url::fromRoute()` and the Field UI bundle-parameter helper.
- Pure delegators to the display or entity are not modelled: `label`, `save`, the third-party-setting accessors, `isOverridable`, `setOverridable`, `isLayoutBuilderEnabled`, `enableLayoutBuilder`, `disableLayoutBuilder`. The display only carries its enabled flag.
- Code the two classes call but do not define becomes parameters:
  - `buildLayoutRoutes()` is an opaque function from collection and arguments to collection;
  - `collectRenderDisplay()` is a function from entity and view mode to display;
  - the sample-entity generator is a function from type and bundle to entity;
  - the field manager's storage definitions become a map from field name to storage type.
- OverridesSectionStorage.AccessIgnoresOwnSections: assumes of `collectRenderDisplay()` that it never reads the layout field. That function is not part of this model, so the independence is a hypothesis, not a result.
- `parent::getContextsDuringPreview()` is taken to return the storage's own contexts unchanged.
- `setSectionList`, `getSectionList` and the rest of `SectionStorageBase` are outside the model.
- `@trigger_error` deprecation notices have no effect in the model.
- Titles passed through `$this->t()` are plain strings.
- Cacheable-dependency metadata on access results is not modelled.
- PhpArrays.MergeDeep: integer keys are not renumbered. `NestedArray::mergeDeep()` appends integer-keyed entries instead of overwriting them, and every key in these routes' parameters is a string.
- DefaultsRoutes.PriorParameters: a `parameters` option that is truthy but not an array is read as an empty array.
- PhpArrays.SetIn: a scalar under the outer key is replaced by a fresh array, as if it were missing. PHP would throw or convert it instead. The accumulated route parameters hold one only when a display route's own `parameters` option declares a scalar `section_storage`.
- PhpArrays.Lookup: an array used as an offset reads as missing; PHP raises an illegal-offset warning and yields NULL.
- A float route value is not modelled. Overrides' `strpos()` would find the dot in `1.5`; the raw value is a string or a non-string, and a non-string counts as undotted.
- DefaultsSectionStorage.KeyFromDefaults: non-string route defaults are converted to strings before the display is created. PHP passes the raw values to `create()` and only converts them in the id.
- DefaultsRoutes.BuildRoutes: states that every call belongs to a served type, bounds the number of calls by the number of served types, and rules out two calls for one type only when the registry's ids are distinct, as the keyed array of definitions guarantees. Which types are skipped is stated per step by `DefaultsRoutes.RouteStep`, not for the whole loop.
- The route collection is a map, so the order of routes in it is not modelled.
- The order of keys in a context bag is not modelled.
- An entity's bundle and every field other than the layout field are abstracted away.
