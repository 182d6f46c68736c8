# OlLayer: a verified model of the layer-binding component

`components/map/OlLayer.jsx` is a React component that binds one declarative
layer-options object to at most one OpenLayers layer. This project models the
logic under its framework glue, and proves properties of that model.

- **Option normalisation** (`makeOptions`) is modelled in `js_values.dfy`
  (module `JsValues`). The same file models the JavaScript values and
  semantics it relies on: truthiness, the `||` chain, `String(v)` as a
  property key, and a missing key reading as `undefined`. It also models the
  `isEqual(omit(.., ["loading"]))` skip test.
- **Layer creation through the type-keyed registry** (`createLayer`) is
  modelled in `registry.dfy` (module `Registry`). The group case is handled
  item by item, with unregistered items dropped.
- **The sublayer table of `addLayer`** is modelled in `source_table.dfy`
  (module `SourceTable`). It is a JavaScript object filled key by key, and
  `Object.entries` lists it in insertion order.
- **The loading-state tracker** is modelled in `loading.dfy` (module
  `Loading`):
  - the instance-wide `tilestoload` counter for tiled sources;
  - direct notifications for image sources;
  - runs of events, given as pure functions.
- **The one-shot zoom-to-extent handler** is modelled in `zoom.dfy` (module
  `ZoomToExtent`).
- **The component itself** is the class `OlLayer` in `ol_layer.dfy` (module
  `OlLayerComponent`):
  - The map is the class `OlMap`: its layer collection, plus counts of
    `render()` and `getView().fit(...)` calls.
  - Layer objects are the class `OlHandle`. Their identity matters to
    `map.removeLayer`.
  - The class has mount, update and unmount, the six load handlers, and the
    source `change` handler.
  - Mount and update end in `Completed` or in `ThrewTypeError`. The
    second stands for the TypeErrors the JavaScript raises: items that are
    not an array or hold `null`/`undefined`, a missing map, and
    `zoomToExtent` on a group.
- `wrappers.dfy` holds the `Option` datatype.

Conventions:
- The registry's `create` is a finite table from option objects to the layer
  it returns. Any other options return nothing.
- The `setLayerLoading` sink is the sequence of `(id, loading)` calls made so
  far.
- The registry's `update` hook is the sequence of calls made to it.

Some behaviours of the code are worth stating. The model follows the code:

- The tile counter is not clamped at zero. An end or error with no matching
  start drives it to -1, and the next complete tile load then sends no
  notification at all (`Loading.UnmatchedEndUnderflows`,
  `Loading.UnderflowHidesNextLoad`).
- The zoom handler looks only at the first `change` event. A source that is
  first ready with no features, and later ready with features, is never
  fitted (`ZoomToExtent.LateFeaturesNeverFit`).
- Load handlers keep emitting after unmount. Nothing detaches them.
- The shared tile counter sends the `true` to the id of the source that
  started first and the `false` to the id of the source that finished last.
  When two tiled children of a group load at overlapping times, the first
  child is told it is loading, and is not told that it stopped until a later
  load ends on one of its own tiles
  (`Loading.OverlappingChildrenLeaveFirstLoading`).
- Group items are normalised with the component's own default projection.
- The composite id `<group id>#<item name>` of line 76 is written to the
  group, not to the item. Line 89 then overwrites it with the options' id.
- The zIndex has three sources:
  - a group is constructed with the raw `options.zIndex`;
  - line 92 then sets the `zIndex` prop;
  - updates set the normalised `options.zIndex`.
- A group with a truthy `zoomToExtent` makes `addLayer` raise a TypeError
  after the group is on the map, because `ol.layer.Group` has no
  `getSource`. The group stays on the map and never becomes `state.layer`,
  so unmount cannot remove it.
- Because of that, mounting and then unmounting a group with a truthy
  `zoomToExtent` leaves the group on the map.

## Model

| member | source | states |
|---|---|---|
| JsValues.Normalize | components/map/OlLayer.jsx:61-67 | the result has exactly the input's keys plus `projection` and `opacity`; `opacity` is kept when it is not `undefined`, otherwise it is 255 |
| JsValues.NormalizeFields | components/map/OlLayer.jsx:61-67 | every field other than `projection` and `opacity` is copied unchanged; `projection` is the first truthy of `srs`, `crs`, `projection`, else the default projection |
| JsValues.FirstTruthy | components/map/OlLayer.jsx:64 | reference reading of a chain of `or` operators: the first truthy candidate when there is one, otherwise the last operand |
| JsValues.OrChainIsFirstTruthy | components/map/OlLayer.jsx:64 | the chain over `srs`, `crs`, `projection` and the default projection picks what the reference reading picks |
| JsValues.FirstTruthyPicksCandidate | components/map/OlLayer.jsx:64 | the chain yields one of its operands, and a truthy one whenever any candidate is truthy |
| JsValues.NormalizeIdempotent | components/map/OlLayer.jsx:61-67 | normalising already normalised options changes nothing |
| JsValues.SameIgnoringLoading | components/map/OlLayer.jsx:99 | the skip test holds only when every key of the new options other than `loading` is in the old options with the same value |
| JsValues.SameIgnoringLoadingPointwise | components/map/OlLayer.jsx:99 | the skip test holds iff both option sets have the same keys and the same values at every key except `loading` |
| JsValues.LoadingOnlyChangeIsSkipped | components/map/OlLayer.jsx:97-101 | options that differ only at `loading` pass the skip test after normalisation |
| Registry.ChildOf | components/map/OlLayer.jsx:72-80 | one group item contributes at most one child |
| Registry.ChildSpecs | components/map/OlLayer.jsx:72-81 | the `map` over the items followed by `filter(x => x)`: the group never has more children than items |
| Registry.RegisteredItemKept | components/map/OlLayer.jsx:73-77 | an item whose type is registered and whose `create` returns a layer for its normalised options contributes exactly that layer, after its earlier siblings' children and before its later siblings' children |
| Registry.Lookup | components/map/OlLayer.jsx:83 | the registry is indexed by the type converted to a property key: an entry is found iff `String(type)` is a registered key, and it is that key's entry; a string type is used as it is |
| Registry.LookupConvertsKey | components/map/OlLayer.jsx:83 | a type given as the number 12, the boolean `true` or the array `["wms"]` finds the entry registered under `"12"`, `"true"` or `"wms"` |
| Registry.Create | components/map/OlLayer.jsx:68-87 | a group or a TypeError iff the type is `group`; a TypeError iff `items` is not an array of readable items; a group's children are the item-by-item children; a registered non-group type builds exactly the layer its `create` returns for the options, and nothing when `create` returns nothing; an unregistered non-group type builds nothing |
| Registry.ChildSpecsAppend | components/map/OlLayer.jsx:72-81 | the children of concatenated item lists are the two lists' children concatenated, in order |
| Registry.UnregisteredItemDropped | components/map/OlLayer.jsx:73-81 | an item with an unregistered type is dropped, and its siblings' children are as if it were absent |
| Registry.AllRegisteredKeepsEveryItem | components/map/OlLayer.jsx:72-81 | when every item yields a layer, the group has one child per item, at the item's position |
| Registry.ChildrenComeFromRegisteredItems | components/map/OlLayer.jsx:72-81 | there are no more children than items, and each child is what some item yields |
| SourceTable.Put | components/map/OlLayer.jsx:143 | a property assignment keeps the table well formed and sets the key's value; an existing key keeps its position, a new key goes last |
| SourceTable.PutNewKeyAppends | components/map/OlLayer.jsx:143 | assigning a new key appends exactly one entry at the end of `Object.entries` |
| SourceTable.TableOf | components/map/OlLayer.jsx:140-147 | filling the object assignment by assignment yields a well-formed table |
| SourceTable.TableOfCoversPending | components/map/OlLayer.jsx:142-144 | every assigned key is in the object |
| SourceTable.TableOfKeysFromPending | components/map/OlLayer.jsx:142-144 | every key of the object was assigned, and there are at most as many keys as assignments |
| SourceTable.TableOfLastWins | components/map/OlLayer.jsx:142-144 | a key holds the value of its last assignment |
| SourceTable.TableOfWithoutClashes | components/map/OlLayer.jsx:140-148 | when no two sublayers share a key, `Object.entries` lists exactly the sublayers, in assignment order |
| Loading.ChildSources | components/map/OlLayer.jsx:142-143 | each group child is watched under `<group id>#<child id>` with its own tiledness, one per child, in order |
| Loading.SublayerTable | components/map/OlLayer.jsx:140-144 | a group's sublayer table is well formed |
| Loading.SublayerEntries | components/map/OlLayer.jsx:141-144 | when the children's logical ids are distinct, the group's table lists every child under `<group id>#<child id>` with its tiledness, in child order |
| Loading.OnLoadEvent | components/map/OlLayer.jsx:148-178 | a tiled start increments the counter and a tiled end or error decrements it; a tiled source notifies iff a start finds 0 or an end or error reaches 0; an image source notifies on every event without counting; a notification carries the watched id and `true` exactly for starts; notifications are only appended |
| Loading.RunCountsTiles | components/map/OlLayer.jsx:160-177 | over any run of events the counter moves by tile starts minus tile ends and errors |
| Loading.RunOnlyAppends | components/map/OlLayer.jsx:148-178 | a run keeps earlier notifications and adds at most one per event |
| Loading.ErrorActsAsEnd | components/map/OlLayer.jsx:148-178 | an error is handled exactly as an end, for tiled and image sources |
| Loading.StartsWhileLoading | components/map/OlLayer.jsx:160-165 | tile starts while the counter is positive only count |
| Loading.FinishesWhileLoading | components/map/OlLayer.jsx:166-177 | tile ends and errors that leave the counter positive only count |
| Loading.StartsFromIdle | components/map/OlLayer.jsx:160-165 | n tile starts from 0 send one `true`, for the first start's id, and leave the counter at n |
| Loading.FinishesToIdle | components/map/OlLayer.jsx:166-177 | as many tile ends or errors as the counter holds send one `false`, for the last finish's id, and leave the counter at 0 |
| Loading.BurstNotifiesOnce | components/map/OlLayer.jsx:160-177 | n tile starts from 0, then n ends or errors, send exactly one `true` and one `false` and return the counter to 0 |
| Loading.OverlappingChildrenLeaveFirstLoading | components/map/OlLayer.jsx:160-171 | two tiled sources that start a, start b, end a, end b send `true` for a and `false` for b only |
| Loading.UnmatchedEndUnderflows | components/map/OlLayer.jsx:166-171 | an end at 0 drives the counter to -1 and notifies nothing |
| Loading.UnderflowHidesNextLoad | components/map/OlLayer.jsx:160-171 | at -1, a complete tile load notifies nothing and leaves the counter at -1 |
| ZoomToExtent.OnChange | components/map/OlLayer.jsx:132-138 | a change event fits the view iff the handler is waiting and the source is ready with at least one feature; a waiting handler is spent after it, any other state is unchanged |
| ZoomToExtent.IdleNeverFits | components/map/OlLayer.jsx:132 | a handler that is not waiting never fits |
| ZoomToExtent.FitsOnlyOnFirstChange | components/map/OlLayer.jsx:129-139 | over any run of change events, the view is fitted once if the first event is ready with features, else never |
| ZoomToExtent.LateFeaturesNeverFit | components/map/OlLayer.jsx:132-137 | ready with no features, then ready with three, is never fitted |
| OlLayerComponent.GroupIdAfterItems | components/map/OlLayer.jsx:76 | the id line 76 leaves on the group is the initial id or a string (a composite id) |
| OlLayerComponent.GroupIdIsLastRegistered | components/map/OlLayer.jsx:72-77 | the group's id is the composite id of the last item whose type is registered, whether or not its `create` returned a layer |
| OlLayerComponent.GroupIdWithoutRegistered | components/map/OlLayer.jsx:72-77 | with no registered item, the group keeps the id it was constructed with |
| OlLayerComponent.NewChild | components/map/OlLayer.jsx:73-80 | the item counts as registered iff its type is in the registry; a layer is made iff the item yields a child, and that layer is fresh, not a group and carries the child's id and tiledness |
| OlLayerComponent.NextChild | components/map/OlLayer.jsx:72-81 | one item turn appends the item's child, if any, keeps earlier children, and leaves the group id as line 76 sets it |
| OlLayerComponent.NewChildren | components/map/OlLayer.jsx:72-81 | the loop throws iff some item is `null`/`undefined`; otherwise the new layers are the item-by-item children, fresh and not groups, and the group id is the composite id of the last registered item |
| OlLayerComponent.NewGroup | components/map/OlLayer.jsx:70-81 | a group is built iff `items` is an array of readable items; it is fresh, has the given zIndex, and has the registry children of its items |
| OlLayerComponent.NewLayer | components/map/OlLayer.jsx:69-87 | throws iff `Create` says so; a layer is built iff `Create` builds one, and it matches the creation |
| OlLayerComponent.CreateLayer | components/map/OlLayer.jsx:68-92 | builds what `Create` gives for the normalised options, then sets the options' id, visibility and opacity and the `zIndex` prop |
| OlLayerComponent.TableFor | components/map/OlLayer.jsx:140-147 | the sublayer table is well formed; a single layer is watched alone, under the options' id, with its tiledness; nothing built means nothing watched |
| OlLayerComponent.Attachments | components/map/OlLayer.jsx:140-148 | the sources `addLayer` attaches to: a single layer under the options' id converted to a string; nothing when nothing was built |
| OlLayerComponent.GroupAttachments | components/map/OlLayer.jsx:141-148 | a group whose children have distinct logical ids is watched child by child, each under `<group id>#<child id>` with its tiledness, in child order |
| OlLayerComponent.Sublayers | components/map/OlLayer.jsx:140-147 | the loop over the group's layers (or the single layer) fills exactly the table `TableFor` describes |
| OlLayerComponent.UpdateHookRuns | components/map/OlLayer.jsx:97-110 | the hook runs only when the options differ outside `loading` and the raw options' type has an entry with `update` |
| OlLayerComponent.ChangedOptionsRunHook | components/map/OlLayer.jsx:99-109 | options that differ outside `loading`, with an entry for the raw options' type that defines `update`, do run the hook, so `Update` appends exactly one call |
| OlLayerComponent.LoadingOnlyChangeSkipsHook | components/map/OlLayer.jsx:97-101 | a change of `loading` alone never runs the hook |
| OlLayerComponent.Without | components/map/OlLayer.jsx:51 | removing a layer not in the collection changes nothing; removing one that is there shortens it by one |
| OlLayerComponent.WithoutRemovesOne | components/map/OlLayer.jsx:51 | removal takes out exactly one occurrence and keeps every other layer |
| OlLayerComponent.WithoutKeepsOrder | components/map/OlLayer.jsx:51 | removal splices out the first occurrence: the layers before it and after it stay, in their order |
| OlLayerComponent.RemoveAfterAdd | components/map/OlLayer.jsx:49-53 | removing a layer just appended to a collection not holding it gives the collection back |
| OlLayerComponent.OlLayer.constructor | components/map/OlLayer.jsx:26-28 | no layer held, no handlers attached, nothing emitted |
| OlLayerComponent.OlLayer.Mount | components/map/OlLayer.jsx:29-31 | the counter is reset to 0; the call throws iff creation throws or a built layer meets a missing map or a group asked to zoom; nothing built means the map is unchanged; a built layer is appended to the map as exactly one fresh layer; a completed mount holds that layer with the options' id, visibility, opacity and the `zIndex` prop, has its sublayer table attached, and has the zoom handler waiting iff `zoomToExtent` is truthy |
| OlLayerComponent.OlLayer.Install | components/map/OlLayer.jsx:88-94 | the layer goes on the map, and becomes the held layer only when `addLayer` completes |
| OlLayerComponent.OlLayer.AddLayer | components/map/OlLayer.jsx:112-148 | the layer is appended to the map; a group asked to zoom throws after that; otherwise the zoom handler waits on the captured map iff `zoomToExtent` is truthy, and the sublayer table's entries are attached in order |
| OlLayerComponent.OlLayer.AttachAll | components/map/OlLayer.jsx:148 | handlers are attached to every entry, in order |
| OlLayerComponent.OlLayer.Update | components/map/OlLayer.jsx:33-48 | with no layer held, nothing changes at all; otherwise visibility, opacity and zIndex come from the new normalised options, the hook call is appended iff `UpdateHookRuns`, and the map renders exactly once iff `swipe` changed |
| OlLayerComponent.OlLayer.UpdateLayer | components/map/OlLayer.jsx:97-110 | exactly one hook call `(layer, newOptions, oldOptions, map)` is appended iff `UpdateHookRuns`, and nothing otherwise |
| OlLayerComponent.OlLayer.Unmount | components/map/OlLayer.jsx:49-53 | the held layer leaves the map iff both it and the map are present; otherwise the map is unchanged |
| OlLayerComponent.OlLayer.TileLoadStart | components/map/OlLayer.jsx:160-165 | the state moves as `OnLoadEvent` of a tiled start says, and the counter stays equal to starts minus finishes |
| OlLayerComponent.OlLayer.TileLoadEnd | components/map/OlLayer.jsx:166-171 | the state moves as `OnLoadEvent` of a tiled end says, and the counter stays equal to starts minus finishes |
| OlLayerComponent.OlLayer.TileLoadError | components/map/OlLayer.jsx:172-177 | the state moves as `OnLoadEvent` of a tiled error says, and the counter stays equal to starts minus finishes |
| OlLayerComponent.OlLayer.ImageLoadStart | components/map/OlLayer.jsx:150-152 | the state moves as `OnLoadEvent` of an image start says |
| OlLayerComponent.OlLayer.ImageLoadEnd | components/map/OlLayer.jsx:153-155 | the state moves as `OnLoadEvent` of an image end says |
| OlLayerComponent.OlLayer.ImageLoadError | components/map/OlLayer.jsx:156-158 | the state moves as `OnLoadEvent` of an image error says |
| OlLayerComponent.OlLayer.SourceChanged | components/map/OlLayer.jsx:132-138 | the handler's state moves as `OnChange` says, and the captured map's view is fitted once exactly when `OnChange` fits |

## Left out

- React and Redux plumbing is not modelled: `connect`, the propTypes, and `render()` with the registry's `render` overlay (lines 54-60 and 183-185).
- The `precompose`/`postcompose` canvas clipping (lines 114-127) is not modelled. It is 2D-context calls and floating-point width arithmetic.
- Floating-point arithmetic is not modelled. Opacity is kept as the 0-255 option value, without the division by 255 passed to `setOpacity`. Numbers are integers, with no `NaN` or fractions.
- The arguments of `map.getView().fit(...)` are not modelled. Only the number of fits is counted.
- The event-subscription mechanism and network loading are not modelled. Each source event is a direct method call on the watched entry.
- Registry.Create: the layer-type modules (`./layers/index`) are not part of this model. Their `create` is a finite, deterministic table from options to a layer. Neither `create` nor the `update` hook has any effect on the map it receives. The `update` hook is a recorded call with no effect on the layer. A layer they create is treated as a single layer even if it is a group.
- Registry keys inherited from `Object.prototype` are not modelled. Only the registry's own keys are found.
- Spreading a group item that is not an object (a number, a string, an array) is modelled as an empty object.
- OlLayerComponent.OlLayer.AddLayer: a leaf's `getSource()` is taken to return a source, so `zoomToExtent` always registers the handler on a leaf. A group is taken to lack `getSource`, as `ol.layer.Group` does.
- The numeric-key ordering of `Object.entries` is not modelled. It cannot arise here: a leaf's table has one key, and a group's keys all contain `#`.
- A `componentDidUpdate` triggered by the `setState` of a mount is not modelled. Each lifecycle call is made explicitly.
- OlLayerComponent.OlLayer.Mount: mounting and then unmounting is given through the contracts of `Mount` and `Unmount` together with `RemoveAfterAdd`. There is no single lemma about the round trip.
