/** The `OlLayer` component: it binds one layer-options object to at most one
    OpenLayers layer. It creates the layer on mount, re-applies the universal
    properties and calls the registry's `update` hook on every update, removes
    the layer on unmount, and runs the loading and zoom-to-extent handlers it
    attached to the layer's sources. */
module OlLayerComponent {
  import opened Wrappers
  import opened JsValues
  import opened Registry
  import opened Loading
  import opened SourceTable
  import opened ZoomToExtent

  /** The component's props other than `map` and `setLayerLoading`. */
  datatype Props = Props(options: Options, projection: Value, zIndex: Value, swipe: Value)

  /** How a lifecycle call ended: normally, or with a TypeError raised by a
      property read on `null`/`undefined` or a method call on a non-function. */
  datatype Outcome = Completed | ThrewTypeError

  /** The OpenLayers map as this component uses it. */
  class OlMap {
    /** The map's layer collection, in insertion order. */
    var layers: seq<OlHandle>
    /** Calls to `map.render()`. */
    var renders: nat
    /** Calls to `map.getView().fit(...)`. */
    var fits: nat

    constructor ()
      ensures layers == [] && renders == 0 && fits == 0
    {
      layers, renders, fits := [], 0, 0;
    }
  }

  /** An OpenLayers layer object: a group (`ol.layer.Group`) or a layer a
      registry `create` returned. `opacity` holds the 0-255 option value the
      component scales before calling `setOpacity`. */
  class OlHandle {
    const isGroup: bool
    /** The object exposes `getTileLoadFunction`. */
    const tiled: bool
    /** The group's layer collection (empty for other layers). */
    var children: seq<OlHandle>
    var id: Value
    var visible: Value
    var opacity: Value
    var zIndex: Value

    /** A layer as a registry `create` returned it; `Undefined` stands for a
        property this component has not set. */
    constructor Leaf(spec: LayerSpec)
      ensures !isGroup && tiled == spec.tiled && id == spec.id && children == []
      ensures visible == Undefined && opacity == Undefined && zIndex == Undefined
    {
      isGroup, tiled, id, children := false, spec.tiled, spec.id, [];
      visible, opacity, this.zIndex := Undefined, Undefined, Undefined;
    }

    /** `new ol.layer.Group({zIndex: zIndex})`. */
    constructor Group(zIndex: Value)
      ensures isGroup && !tiled && id == Undefined && children == [] && this.zIndex == zIndex
      ensures visible == Undefined && opacity == Undefined
    {
      isGroup, tiled, id, children := true, false, Undefined, [];
      visible, opacity, this.zIndex := Undefined, Undefined, zIndex;
    }
  }

  /** The id and tiledness of each handle, in order. */
  ghost function SpecsOf(hs: seq<OlHandle>): seq<LayerSpec>
    reads hs
  {
    seq(|hs|, i requires 0 <= i < |hs| reads hs => LayerSpec(hs[i].id, hs[i].tiled))
  }

  /** One more handle adds its id and tiledness at the end. */
  lemma SpecsOfSnoc(hs: seq<OlHandle>, h: OlHandle)
    ensures SpecsOf(hs + [h]) == SpecsOf(hs) + [LayerSpec(h.id, h.tiled)]
  {
  }

  /** A layer object is what the creation `c` describes. */
  ghost predicate Matches(h: OlHandle, c: Creation)
    reads h, h.children
  {
    match c
    case Leaf(s) => !h.isGroup && h.tiled == s.tiled && h.children == []
    case Group(cs) =>
      h.isGroup && SpecsOf(h.children) == cs && forall j :: 0 <= j < |h.children| ==> !h.children[j].isGroup
    case _ => false
  }

  /** `group.id + "#" + item.name`. */
  function CompositeId(groupId: Value, item: Value): Value {
    Str(JsString(groupId) + "#" + JsString(Field(item, "name")))
  }

  /** The id line 76 of `createLayer` leaves on a group after its items: the
      composite id of the last item whose type is registered (whether or not
      its `create` returned a layer), else `initial`. */
  function GroupIdAfterItems(reg: LayerRegistry, groupId: Value, items: seq<Value>, initial: Value): (r: Value)
    ensures r == initial || r.Str?
    decreases |items|
  {
    if items == [] then initial
    else
      var item := items[|items| - 1];
      if Lookup(reg, Field(item, "type")).Some? then CompositeId(groupId, item)
      else GroupIdAfterItems(reg, groupId, items[..|items| - 1], initial)
  }

  /** The group id is the composite id of the last item whose type is
      registered, or the initial id when no item's type is. */
  lemma {:induction false} GroupIdIsLastRegistered(reg: LayerRegistry, groupId: Value, items: seq<Value>, initial: Value, i: nat)
    requires i < |items| && Lookup(reg, Field(items[i], "type")).Some?
    requires forall j :: i < j < |items| ==> Lookup(reg, Field(items[j], "type")).None?
    ensures GroupIdAfterItems(reg, groupId, items, initial) == CompositeId(groupId, items[i])
    decreases |items|
  {
    var n := |items|;
    if i < n - 1 {
      var init := items[..n - 1];
      assert Lookup(reg, Field(items[n - 1], "type")).None?;
      assert init[i] == items[i];
      GroupIdIsLastRegistered(reg, groupId, init, initial, i);
    }
  }

  /** With no registered item, the group keeps the initial id. */
  lemma {:induction false} GroupIdWithoutRegistered(reg: LayerRegistry, groupId: Value, items: seq<Value>, initial: Value)
    requires forall i :: 0 <= i < |items| ==> Lookup(reg, Field(items[i], "type")).None?
    ensures GroupIdAfterItems(reg, groupId, items, initial) == initial
    decreases |items|
  {
    if items != [] {
      var init := items[..|items| - 1];
      assert forall i :: 0 <= i < |init| ==> init[i] == items[i];
      GroupIdWithoutRegistered(reg, groupId, init, initial);
    }
  }

  /** One more item sets the group id when its type is registered. */
  lemma GroupIdStep(reg: LayerRegistry, groupId: Value, items: seq<Value>, i: nat, initial: Value)
    requires i < |items|
    ensures GroupIdAfterItems(reg, groupId, items[..i + 1], initial) ==
            if Lookup(reg, Field(items[i], "type")).Some? then CompositeId(groupId, items[i])
            else GroupIdAfterItems(reg, groupId, items[..i], initial)
  {
    assert items[..i + 1][..i] == items[..i];
  }

  /** The layer one group item yields: its options are normalised with the
      component's default projection and handed to its type's `create`. */
  method NewChild(reg: LayerRegistry, item: Value, fallback: Value) returns (registered: bool, kid: OlHandle?)
    ensures registered <==> Lookup(reg, Field(item, "type")).Some?
    ensures kid == null <==> ChildOf(reg, item, fallback) == []
    ensures kid != null ==> fresh(kid) && !kid.isGroup && ChildOf(reg, item, fallback) == [LayerSpec(kid.id, kid.tiled)]
  {
    kid := null;
    var entry := Lookup(reg, Field(item, "type"));
    registered := entry.Some?;
    if registered {
      var made := entry.value.create(Normalize(ItemOptions(item), fallback));
      if made.Some? {
        kid := new OlHandle.Leaf(made.value);
      }
    }
  }

  /** One turn of the item loop for a readable item: the item's layer, if
      any, joins the children, and a registered type sets the group id.
      `part` is what the item contributes to the children. */
  method NextChild(reg: LayerRegistry, groupId: Value, es: seq<Value>, i: nat, fallback: Value, initialId: Value,
                   kids: seq<OlHandle>, lastId: Value, ghost parts: seq<seq<LayerSpec>>)
    returns (kids': seq<OlHandle>, lastId': Value, ghost parts': seq<seq<LayerSpec>>)
    requires i < |es| && |parts| == i
    requires forall k {:trigger ChildOf(reg, es[k], fallback)} :: 0 <= k < i ==> parts[k] == ChildOf(reg, es[k], fallback)
    requires SpecsOf(kids) == Flatten(parts)
    requires lastId == GroupIdAfterItems(reg, groupId, es[..i], initialId)
    ensures |parts'| == i + 1
    ensures forall k {:trigger ChildOf(reg, es[k], fallback)} :: 0 <= k < i + 1 ==> parts'[k] == ChildOf(reg, es[k], fallback)
    ensures SpecsOf(kids') == Flatten(parts')
    ensures lastId' == GroupIdAfterItems(reg, groupId, es[..i + 1], initialId)
    ensures |kids| <= |kids'| && kids'[..|kids|] == kids
    ensures forall j :: |kids| <= j < |kids'| ==> fresh(kids'[j]) && !kids'[j].isGroup
  {
    GroupIdStep(reg, groupId, es, i, initialId);
    var registered, kid := NewChild(reg, es[i], fallback);
    lastId' := if registered then CompositeId(groupId, es[i]) else lastId;
    var part: seq<LayerSpec> := [];
    kids' := kids;
    if kid != null {
      SpecsOfSnoc(kids, kid);
      kids', part := kids + [kid], [LayerSpec(kid.id, kid.tiled)];
    }
    FlattenSnoc(parts, part);
    parts' := parts + [part];
  }

  /** The item loop of `createLayer` for a group: each item's layer, in item
      order, and the id the group is left with; `threw` stands for the
      TypeError raised on reading a property of a `null` or `undefined` item. */
  method NewChildren(reg: LayerRegistry, groupId: Value, es: seq<Value>, fallback: Value, initialId: Value)
    returns (kids: seq<OlHandle>, lastId: Value, threw: bool, ghost parts: seq<seq<LayerSpec>>)
    ensures threw <==> !AllReadable(es)
    ensures !threw ==>
              && |parts| == |es|
              && (forall k {:trigger ChildOf(reg, es[k], fallback)} :: 0 <= k < |es| ==> parts[k] == ChildOf(reg, es[k], fallback))
              && SpecsOf(kids) == Flatten(parts)
              && (forall j :: 0 <= j < |kids| ==> fresh(kids[j]) && !kids[j].isGroup)
              && lastId == GroupIdAfterItems(reg, groupId, es, initialId)
  {
    kids, lastId, threw, parts := [], initialId, false, [];
    var i := 0;
    while i < |es|
      invariant 0 <= i <= |es| && |parts| == i
      invariant forall j :: 0 <= j < i ==> Readable(es[j])
      invariant forall k {:trigger ChildOf(reg, es[k], fallback)} :: 0 <= k < i ==> parts[k] == ChildOf(reg, es[k], fallback)
      invariant SpecsOf(kids) == Flatten(parts)
      invariant forall j :: 0 <= j < |kids| ==> fresh(kids[j]) && !kids[j].isGroup
      invariant lastId == GroupIdAfterItems(reg, groupId, es[..i], initialId)
    {
      var item := es[i];
      if !Readable(item) {
        return kids, lastId, true, parts;
      }
      kids, lastId, parts := NextChild(reg, groupId, es, i, fallback, initialId, kids, lastId, parts);
      i := i + 1;
    }
    assert es[..i] == es;
  }

  /** The group half of `createLayer`: a group with the `zIndex` given, whose
      children are made item by item through the registry; `null` stands for
      the TypeError raised when `items` is not an array or holds `null` or
      `undefined`. */
  method NewGroup(reg: LayerRegistry, o: Options, fallback: Value, groupZIndex: Value) returns (group: OlHandle?)
    ensures group != null <==> Get(o, "items").List? && AllReadable(Get(o, "items").elems)
    ensures group != null ==>
              && fresh(group) && group.isGroup && group.zIndex == groupZIndex
              && SpecsOf(group.children) == ChildSpecs(reg, Get(o, "items").elems, fallback)
              && (forall j :: 0 <= j < |group.children| ==> !group.children[j].isGroup)
              && group.id == GroupIdAfterItems(reg, Get(o, "id"), Get(o, "items").elems, Undefined)
  {
    var items := Get(o, "items");
    if !items.List? {
      return null;
    }
    var g := new OlHandle.Group(groupZIndex);
    var kids, lastId, threw, parts := NewChildren(reg, Get(o, "id"), items.elems, fallback, g.id);
    if threw {
      return null;
    }
    ChildSpecsFromParts(reg, items.elems, fallback, parts);
    g.id, g.children := lastId, kids;
    return g;
  }

  /** The construction half of `createLayer`: a group, or the single layer a
      registered type's `create` returns. */
  method NewLayer(reg: LayerRegistry, o: Options, fallback: Value, groupZIndex: Value)
    returns (created: OlHandle?, threw: bool)
    ensures var c := Create(reg, o, fallback);
            && threw == c.Throws?
            && (created != null <==> c.Built())
            && (created != null ==> fresh(created) && Matches(created, c))
            && (created != null && c.Group? ==>
                  && created.zIndex == groupZIndex
                  && created.id == GroupIdAfterItems(reg, Get(o, "id"), Get(o, "items").elems, Undefined))
  {
    created, threw := null, false;
    if Get(o, "type") == Str("group") {
      created := NewGroup(reg, o, fallback, groupZIndex);
      threw := created == null;
    } else {
      var entry := Lookup(reg, Get(o, "type"));
      if entry.Some? {
        var made := entry.value.create(o);
        if made.Some? {
          created := new OlHandle.Leaf(made.value);
        }
      }
    }
  }


  /** The sublayer table `addLayer` fills for a layer whose id converts to
      `key`: the layer itself under `key`, or a group's children under
      `<key>#<child id>`. */
  function TableFor(key: string, c: Creation): (t: Table<string>)
    ensures t.Valid()
    ensures c.Leaf? ==> t.Entries() == [Source(key, c.spec.tiled)]
    ensures !c.Built() ==> t.Entries() == []
  {
    match c
    case Leaf(s) => Put(Table([], map[]), key, s.tiled)
    case Group(cs) => SublayerTable(key, cs)
    case _ => Table([], map[])
  }

  /** The sources `addLayer` attaches loading handlers to, under their
      logical ids. */
  function Attachments(o: Options, c: Creation): (r: seq<Attachment>)
    ensures c.Leaf? ==> r == [Source(JsString(Get(o, "id")), c.spec.tiled)]
    ensures !c.Built() ==> r == []
  {
    TableFor(JsString(Get(o, "id")), c).Entries()
  }

  /** A group whose children have distinct logical ids is watched child by
      child, each under `<group id>#<child id>`, in child order. */
  lemma GroupAttachments(o: Options, cs: seq<LayerSpec>)
    requires forall i, j :: 0 <= i < j < |cs| ==>
               ChildKey(JsString(Get(o, "id")), cs[i]) != ChildKey(JsString(Get(o, "id")), cs[j])
    ensures Attachments(o, Group(cs)) == ChildSources(JsString(Get(o, "id")), cs)
  {
    SublayerEntries(JsString(Get(o, "id")), cs);
  }

  /** The loop of `addLayer` that fills the sublayer table. */
  method Sublayers(l: OlHandle, key: string, ghost c: Creation) returns (table: Table<string>)
    requires Matches(l, c)
    ensures table == TableFor(key, c)
  {
    table := Table([], map[]);
    if l.isGroup {
      var j := 0;
      while j < |l.children|
        invariant 0 <= j <= |l.children|
        invariant table == SublayerTable(key, c.children[..j])
      {
        var sub := l.children[j];
        assert c.children[..j + 1][..j] == c.children[..j];
        table := Put(table, ChildKey(key, LayerSpec(sub.id, sub.tiled)), sub.tiled);
        j := j + 1;
      }
      assert c.children[..j] == c.children;
    } else {
      table := Put(table, key, l.tiled);
    }
  }

  /** `updateLayer`'s decision: the registry's `update` hook runs when the
      normalised options differ outside `loading` and the entry for the raw
      options' type defines the hook. */
  function UpdateHookRuns(reg: LayerRegistry, raw: Options, newOptions: Options, oldOptions: Options): (r: bool)
    ensures r ==> !SameIgnoringLoading(newOptions, oldOptions)
    ensures r ==> Lookup(reg, Get(raw, "type")).Some? && Lookup(reg, Get(raw, "type")).value.hasUpdate
  {
    if SameIgnoringLoading(newOptions, oldOptions) then false
    else
      match Lookup(reg, Get(raw, "type"))
      case None => false
      case Some(e) => e.hasUpdate
  }

  /** Options that differ outside `loading`, with an entry for the raw
      options' type that defines `update`, run the hook. */
  lemma ChangedOptionsRunHook(reg: LayerRegistry, raw: Options, newOptions: Options, oldOptions: Options)
    requires !SameIgnoringLoading(newOptions, oldOptions)
    requires Lookup(reg, Get(raw, "type")).Some? && Lookup(reg, Get(raw, "type")).value.hasUpdate
    ensures UpdateHookRuns(reg, raw, newOptions, oldOptions)
  {
  }

  /** A prop change that touches only `loading` never runs the registry's
      `update` hook. */
  lemma LoadingOnlyChangeSkipsHook(reg: LayerRegistry, raw: Options, v: Value, projection: Value)
    ensures !UpdateHookRuns(reg, raw["loading" := v],
                            Normalize(raw["loading" := v], projection), Normalize(raw, projection))
  {
    LoadingOnlyChangeIsSkipped(raw, v, projection);
  }

  /** The options `componentDidMount` builds the layer from. */
  function MountOptions(props: Props): Options {
    Normalize(props.options, props.projection)
  }

  /** What `createLayer` builds for these props. */
  function Creates(reg: LayerRegistry, props: Props): Creation {
    Create(reg, MountOptions(props), props.projection)
  }

  /** `createLayer`: builds the layer and gives it the options' id,
      visibility and opacity and the `zIndex` prop. A group is built with the
      raw options' `zIndex` first. */
  method CreateLayer(reg: LayerRegistry, props: Props) returns (created: OlHandle?, threw: bool)
    ensures threw <==> Creates(reg, props).Throws?
    ensures created != null <==> Creates(reg, props).Built()
    ensures created != null ==>
              var o := MountOptions(props);
              && fresh(created) && Matches(created, Creates(reg, props))
              && created.id == Get(o, "id") && created.visible == Get(o, "visibility")
              && created.opacity == Get(o, "opacity") && created.zIndex == props.zIndex
  {
    var o := MountOptions(props);
    ghost var c := Creates(reg, props);
    created, threw := NewLayer(reg, o, props.projection, Get(props.options, "zIndex"));
    if created != null {
      created.id := Get(o, "id");
      created.visible := Get(o, "visibility");
      created.opacity := Get(o, "opacity");
      created.zIndex := props.zIndex;
      assert Matches(created, c);
    }
  }

  /** A call of the registry's `update(layer, newOptions, oldOptions, olMap)`. */
  datatype UpdateCall = UpdateCall(layer: OlHandle, newOptions: Options, oldOptions: Options, olMap: OlMap?)

  /** `map.removeLayer(h)`: the first occurrence of `h` leaves the collection. */
  function Without(layers: seq<OlHandle>, h: OlHandle): (r: seq<OlHandle>)
    ensures h !in layers ==> r == layers
    ensures h in layers ==> |r| == |layers| - 1
    decreases |layers|
  {
    if layers == [] then []
    else if layers[0] == h then layers[1..]
    else [layers[0]] + Without(layers[1..], h)
  }

  /** Removal takes out exactly one occurrence of the layer, when there is one,
      and keeps every other layer. */
  lemma {:induction false} WithoutRemovesOne(layers: seq<OlHandle>, h: OlHandle)
    ensures multiset(Without(layers, h)) == multiset(layers) - multiset{h}
    decreases |layers|
  {
    if layers != [] {
      assert layers == [layers[0]] + layers[1..];
      if layers[0] != h {
        WithoutRemovesOne(layers[1..], h);
      }
    }
  }

  /** Removal splices out the first occurrence of the layer: the layers
      before and after it keep their order. */
  lemma {:induction false} WithoutKeepsOrder(layers: seq<OlHandle>, h: OlHandle, i: nat)
    requires i < |layers| && layers[i] == h && h !in layers[..i]
    ensures Without(layers, h) == layers[..i] + layers[i + 1..]
    decreases i
  {
    if i > 0 {
      var rest := layers[1..];
      assert layers[0] != h by {
        assert layers[0] == layers[..i][0];
      }
      assert rest[..i - 1] == layers[1..i];
      WithoutKeepsOrder(rest, h, i - 1);
      assert layers[..i] == [layers[0]] + rest[..i - 1];
      assert rest[i..] == layers[i + 1..];
    }
  }

  /** Removing a layer that was just added to a collection not holding it
      gives the collection back. */
  lemma {:induction false} RemoveAfterAdd(layers: seq<OlHandle>, h: OlHandle)
    requires h !in layers
    ensures Without(layers + [h], h) == layers
    decreases |layers|
  {
    if layers != [] {
      assert (layers + [h])[1..] == layers[1..] + [h];
      RemoveAfterAdd(layers[1..], h);
    }
  }

  class OlLayer {
    /** `state.layer`. */
    var layer: OlHandle?
    /** `this.tilestoload`, shared by every tiled source of this instance. */
    var tilesToLoad: int
    /** The sources whose loading handlers are attached, by logical id. */
    var attached: seq<Attachment>
    /** The `setLayerLoading(id, loading)` calls made so far. */
    var emitted: seq<Notification>
    /** The zoom-to-extent `once('change')` handler and the map it captured. */
    var zoom: ZoomWatch
    var zoomMap: OlMap?
    /** The calls made to registry `update` hooks. */
    var updateCalls: seq<UpdateCall>

    ghost var mounted: bool
    ghost var tileStarts: nat
    ghost var tileFinishes: nat

    ghost predicate Valid()
      reads this
    {
      && tilesToLoad == tileStarts - tileFinishes
      && (!mounted ==> layer == null && attached == [] && zoom == NotRequested)
      && (zoom != NotRequested ==> zoomMap != null)
    }

    function LoadState(): Tracker
      reads this
    {
      Tracker(tilesToLoad, emitted)
    }

    constructor ()
      ensures Valid() && !mounted
      ensures layer == null && tilesToLoad == 0 && attached == [] && emitted == [] && updateCalls == []
      ensures zoom == NotRequested
    {
      layer, tilesToLoad, attached, emitted := null, 0, [], [];
      zoom, zoomMap, updateCalls := NotRequested, null, [];
      mounted, tileStarts, tileFinishes := false, 0, 0;
    }

    /** The state a completed mount leaves when it built a layer: the layer
        is what the registry made from the normalised options, carries their
        id, visibility and opacity and the `zIndex` prop, its sublayer table is
        attached, and the zoom-to-extent handler waits iff it was asked for. */
    ghost predicate Installed(reg: LayerRegistry, props: Props, olMap: OlMap?)
      reads this, layer, if layer != null then layer.children else []
    {
      var o := MountOptions(props);
      && layer != null
      && Matches(layer, Creates(reg, props))
      && layer.id == Get(o, "id") && layer.visible == Get(o, "visibility")
      && layer.opacity == Get(o, "opacity") && layer.zIndex == props.zIndex
      && attached == Attachments(o, Creates(reg, props))
      && zoom == (if Truthy(Get(o, "zoomToExtent")) then Waiting else NotRequested)
      && (zoom == Waiting ==> zoomMap == olMap)
    }

    /** `componentDidMount` with `createLayer`: resets the tile counter and
        builds the layer; a built layer gets the options' id, visibility and
        opacity and the `zIndex` prop, goes through `addLayer` and, when that
        completes, becomes `state.layer`. */
    method Mount(reg: LayerRegistry, props: Props, olMap: OlMap?) returns (outcome: Outcome)
      requires Valid() && !mounted
      modifies this`tilesToLoad, this`tileStarts, this`tileFinishes, this`mounted, this`layer
      modifies this`attached, this`zoom, this`zoomMap, olMap
      ensures Valid() && mounted && tilesToLoad == 0
      ensures var c := Creates(reg, props);
              outcome == ThrewTypeError <==>
                c.Throws? || (c.Built() && (olMap == null || (c.Group? && Truthy(Get(MountOptions(props), "zoomToExtent")))))
      ensures outcome == ThrewTypeError || !Creates(reg, props).Built() ==>
                layer == null && attached == [] && zoom == NotRequested
      ensures olMap != null ==> olMap.renders == old(olMap.renders) && olMap.fits == old(olMap.fits)
      ensures olMap != null && !Creates(reg, props).Built() ==> olMap.layers == old(olMap.layers)
      ensures olMap != null && Creates(reg, props).Built() ==>
                && |olMap.layers| == |old(olMap.layers)| + 1 && olMap.layers[..|old(olMap.layers)|] == old(olMap.layers)
                && fresh(olMap.layers[|old(olMap.layers)|])
                && olMap.layers[|old(olMap.layers)|].isGroup == Creates(reg, props).Group?
      ensures outcome == Completed && Creates(reg, props).Built() ==>
                && olMap != null && layer == olMap.layers[|old(olMap.layers)|]
      ensures outcome == Completed && Creates(reg, props).Built() ==> Installed(reg, props, olMap)
    {
      tilesToLoad, tileStarts, tileFinishes := 0, 0, 0;
      mounted := true;
      var created, threw := CreateLayer(reg, props);
      if threw {
        return ThrewTypeError;
      }
      if created == null {
        return Completed;
      }
      outcome := Install(created, MountOptions(props), olMap, Creates(reg, props));
    }

    /** The end of `createLayer` for a built layer: `addLayer`, then
        `setState({layer})` when that completes. */
    method Install(created: OlHandle, o: Options, olMap: OlMap?, ghost c: Creation) returns (outcome: Outcome)
      requires Valid() && mounted && Matches(created, c)
      requires layer == null && attached == [] && zoom == NotRequested
      modifies this`layer, this`attached, this`zoom, this`zoomMap, olMap
      ensures Valid()
      ensures outcome == ThrewTypeError <==> olMap == null || (c.Group? && Truthy(Get(o, "zoomToExtent")))
      ensures outcome == ThrewTypeError ==> layer == null && attached == [] && zoom == NotRequested
      ensures olMap != null ==>
                && olMap.layers == old(olMap.layers) + [created]
                && olMap.renders == old(olMap.renders) && olMap.fits == old(olMap.fits)
      ensures outcome == Completed ==>
                && layer == created && attached == Attachments(o, c)
                && zoom == (if Truthy(Get(o, "zoomToExtent")) then Waiting else NotRequested)
                && (zoom == Waiting ==> zoomMap == olMap)
    {
      outcome := AddLayer(created, o, olMap, c);
      if outcome == Completed {
        layer := created;
      }
    }

    /** `addLayer`: adds the layer to the map, registers the zoom-to-extent
        handler on the layer's source when asked for, and attaches the loading
        handlers to every entry of the sublayer table. A group has no
        `getSource`, so asking a group to zoom to its extent raises a
        TypeError after the group was added to the map. */
    method AddLayer(l: OlHandle, o: Options, olMap: OlMap?, ghost c: Creation) returns (outcome: Outcome)
      requires Valid() && mounted
      requires Matches(l, c)
      modifies this`attached, this`zoom, this`zoomMap, olMap
      ensures Valid()
      ensures olMap == null ==> outcome == ThrewTypeError && attached == old(attached) && zoom == old(zoom)
      ensures olMap != null ==>
                && olMap.layers == old(olMap.layers) + [l]
                && olMap.renders == old(olMap.renders) && olMap.fits == old(olMap.fits)
      ensures olMap != null && Truthy(Get(o, "zoomToExtent")) && l.isGroup ==>
                outcome == ThrewTypeError && attached == old(attached) && zoom == old(zoom)
      ensures olMap != null && !(Truthy(Get(o, "zoomToExtent")) && l.isGroup) ==>
                && outcome == Completed
                && attached == old(attached) + Attachments(o, c)
                && (if Truthy(Get(o, "zoomToExtent")) then zoom == Waiting && zoomMap == olMap
                    else zoom == old(zoom) && zoomMap == old(zoomMap))
    {
      if olMap == null {
        return ThrewTypeError;
      }
      olMap.layers := olMap.layers + [l];
      if Truthy(Get(o, "zoomToExtent")) {
        if l.isGroup {
          return ThrewTypeError;
        }
        zoom, zoomMap := Waiting, olMap;
      }
      var table := Sublayers(l, JsString(Get(o, "id")), c);
      AttachAll(table.Entries());
      return Completed;
    }

    /** Attaches the loading handlers to each entry, in order. */
    method AttachAll(entries: seq<Attachment>)
      modifies this`attached
      ensures attached == old(attached) + entries
    {
      var n := 0;
      while n < |entries|
        invariant 0 <= n <= |entries|
        invariant attached == old(attached) + entries[..n]
      {
        attached := attached + [entries[n]];
        n := n + 1;
      }
      assert entries[..n] == entries;
    }

    /** `componentDidUpdate`: with no layer held it does nothing. Otherwise it
        re-applies visibility, opacity and zIndex from the new normalised
        options, runs the registry's `update` hook when `updateLayer` decides
        so, and renders the map once when the `swipe` prop changed. Both
        option sets are normalised with the current default projection. */
    method Update(reg: LayerRegistry, props: Props, prevProps: Props, olMap: OlMap?) returns (outcome: Outcome)
      requires Valid()
      modifies this`updateCalls, layer, olMap
      ensures Valid()
      ensures old(layer) == null ==>
                && outcome == Completed && updateCalls == old(updateCalls)
                && (olMap != null ==> olMap.layers == old(olMap.layers) && olMap.renders == old(olMap.renders) && olMap.fits == old(olMap.fits))
      ensures old(layer) != null ==>
                var n := Normalize(props.options, props.projection);
                var p := Normalize(prevProps.options, props.projection);
                var swiped := props.swipe != prevProps.swipe;
                && layer.visible == Get(n, "visibility") && layer.opacity == Get(n, "opacity")
                && layer.zIndex == Get(n, "zIndex")
                && layer.id == old(layer.id) && layer.children == old(layer.children)
                && updateCalls == old(updateCalls) +
                     (if UpdateHookRuns(reg, props.options, n, p) then [UpdateCall(layer, n, p, olMap)] else [])
                && outcome == (if swiped && olMap == null then ThrewTypeError else Completed)
                && (olMap != null ==>
                      && olMap.layers == old(olMap.layers) && olMap.fits == old(olMap.fits)
                      && olMap.renders == old(olMap.renders) + (if swiped then 1 else 0))
    {
      if layer == null {
        return Completed;
      }
      var n := Normalize(props.options, props.projection);
      var p := Normalize(prevProps.options, props.projection);
      layer.visible := Get(n, "visibility");
      layer.opacity := Get(n, "opacity");
      layer.zIndex := Get(n, "zIndex");
      UpdateLayer(reg, props.options, n, p, olMap);
      if props.swipe != prevProps.swipe {
        if olMap == null {
          return ThrewTypeError;
        }
        olMap.renders := olMap.renders + 1;
      }
      return Completed;
    }

    /** `updateLayer`: skips when the options agree outside `loading`, else
        calls the registry entry's `update` hook if there is one. */
    method UpdateLayer(reg: LayerRegistry, raw: Options, newOptions: Options, oldOptions: Options, olMap: OlMap?)
      requires layer != null
      modifies this`updateCalls
      ensures updateCalls == old(updateCalls) +
                (if UpdateHookRuns(reg, raw, newOptions, oldOptions) then [UpdateCall(layer, newOptions, oldOptions, olMap)] else [])
    {
      if SameIgnoringLoading(newOptions, oldOptions) {
        return;
      }
      var entry := Lookup(reg, Get(raw, "type"));
      if entry.Some? && entry.value.hasUpdate {
        updateCalls := updateCalls + [UpdateCall(layer, newOptions, oldOptions, olMap)];
      }
    }

    /** `componentWillUnmount`: removes the held layer iff both the layer and
        the map are present. */
    method Unmount(olMap: OlMap?)
      modifies olMap
      ensures olMap != null ==>
                && olMap.layers == (if layer != null then Without(old(olMap.layers), layer) else old(olMap.layers))
                && olMap.renders == old(olMap.renders) && olMap.fits == old(olMap.fits)
    {
      if layer != null && olMap != null {
        olMap.layers := Without(olMap.layers, layer);
      }
    }

    /** The `tileloadstart` handler of a tiled source. */
    method TileLoadStart(k: nat)
      requires Valid() && k < |attached| && attached[k].tiled
      modifies this`tilesToLoad, this`emitted, this`tileStarts
      ensures Valid() && tileStarts == old(tileStarts) + 1
      ensures LoadState() == OnLoadEvent(old(LoadState()), attached[k], LoadStart)
    {
      if tilesToLoad == 0 {
        emitted := emitted + [Notification(attached[k].id, true)];
      }
      tilesToLoad := tilesToLoad + 1;
      tileStarts := tileStarts + 1;
    }

    /** The `tileloadend` handler of a tiled source. */
    method TileLoadEnd(k: nat)
      requires Valid() && k < |attached| && attached[k].tiled
      modifies this`tilesToLoad, this`emitted, this`tileFinishes
      ensures Valid() && tileFinishes == old(tileFinishes) + 1
      ensures LoadState() == OnLoadEvent(old(LoadState()), attached[k], LoadEnd)
    {
      tilesToLoad := tilesToLoad - 1;
      tileFinishes := tileFinishes + 1;
      if tilesToLoad == 0 {
        emitted := emitted + [Notification(attached[k].id, false)];
      }
    }

    /** The `tileloaderror` handler of a tiled source. */
    method TileLoadError(k: nat)
      requires Valid() && k < |attached| && attached[k].tiled
      modifies this`tilesToLoad, this`emitted, this`tileFinishes
      ensures Valid() && tileFinishes == old(tileFinishes) + 1
      ensures LoadState() == OnLoadEvent(old(LoadState()), attached[k], LoadError)
    {
      tilesToLoad := tilesToLoad - 1;
      tileFinishes := tileFinishes + 1;
      if tilesToLoad == 0 {
        emitted := emitted + [Notification(attached[k].id, false)];
      }
    }

    /** The `imageloadstart` handler of an untiled source. */
    method ImageLoadStart(k: nat)
      requires k < |attached| && !attached[k].tiled
      modifies this`emitted
      ensures LoadState() == OnLoadEvent(old(LoadState()), attached[k], LoadStart)
    {
      emitted := emitted + [Notification(attached[k].id, true)];
    }

    /** The `imageloadend` handler of an untiled source. */
    method ImageLoadEnd(k: nat)
      requires k < |attached| && !attached[k].tiled
      modifies this`emitted
      ensures LoadState() == OnLoadEvent(old(LoadState()), attached[k], LoadEnd)
    {
      emitted := emitted + [Notification(attached[k].id, false)];
    }

    /** The `imageloaderror` handler of an untiled source. */
    method ImageLoadError(k: nat)
      requires k < |attached| && !attached[k].tiled
      modifies this`emitted
      ensures LoadState() == OnLoadEvent(old(LoadState()), attached[k], LoadError)
    {
      emitted := emitted + [Notification(attached[k].id, false)];
    }

    /** A `change` event of the layer's source reaching the zoom-to-extent
        handler: it runs once, fitting the captured map's view when the source
        is ready with features. */
    method SourceChanged(state: string, featureCount: nat)
      requires Valid()
      modifies this`zoom, zoomMap
      ensures Valid()
      ensures zoom == OnChange(old(zoom), SourceChange(state, featureCount)).0
      ensures zoomMap != null ==>
                && zoomMap.layers == old(zoomMap.layers) && zoomMap.renders == old(zoomMap.renders)
                && zoomMap.fits == old(zoomMap.fits) + (if OnChange(old(zoom), SourceChange(state, featureCount)).1 then 1 else 0)
    {
      if zoom == Waiting {
        zoom := Spent;
        if state == "ready" && featureCount > 0 {
          zoomMap.fits := zoomMap.fits + 1;
        }
      }
    }
  }
}
