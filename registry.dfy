/** The layer-type registry as this component sees it, and what `createLayer`
    builds from normalised options: nothing, a single layer, or a group whose
    children are made item by item through the registry. */
module Registry {
  import opened Wrappers
  import opened JsValues

  /** What a registry `create` hands back that this component observes: the
      `id` property the created layer carries, and whether the layer object
      exposes `getTileLoadFunction` (a tiled layer). */
  datatype LayerSpec = LayerSpec(id: Value, tiled: bool)

  /** A registry entry: what its `create` returns, and whether it defines an
      `update` hook. `create` is given as the table of option objects it
      returns a layer for; on any other options it returns nothing. */
  datatype Entry = Entry(layers: map<Options, LayerSpec>, hasUpdate: bool) {
    function create(o: Options): Option<LayerSpec> {
      if o in layers then Some(layers[o]) else None
    }
  }

  /** The type-keyed registry. */
  type LayerRegistry = map<string, Entry>

  /** `LayerRegistry[t]`: the value is converted to a property key first. */
  function Lookup(reg: LayerRegistry, t: Value): (r: Option<Entry>)
    ensures r.Some? <==> JsString(t) in reg
    ensures r.Some? ==> r.value == reg[JsString(t)]
    ensures t.Str? ==> (r.Some? <==> t.s in reg)
  {
    var key := JsString(t);
    if key in reg then Some(reg[key]) else None
  }

  /** A type given as a number, a boolean or an array finds the entry
      registered under its string form. */
  lemma LookupConvertsKey(reg: LayerRegistry)
    ensures Lookup(reg, Num(12)) == Lookup(reg, Str("12"))
    ensures Lookup(reg, Bool(true)) == Lookup(reg, Str("true"))
    ensures Lookup(reg, List([Str("wms")])) == Lookup(reg, Str("wms"))
  {
    assert Digits(12) == "12" by {
      assert Digits(1) == "1";
    }
    assert JsString(List([Str("wms")])) == "wms" by {
      var parts := seq(1, i requires 0 <= i < 1 => if [Str("wms")][i].Undefined? || [Str("wms")][i].Null? then "" else JsString([Str("wms")][i]));
      assert parts == ["wms"];
    }
  }

  /** Reading a property of `item` does not throw. */
  predicate Readable(item: Value) {
    !item.Undefined? && !item.Null?
  }

  predicate AllReadable(items: seq<Value>) {
    forall i :: 0 <= i < |items| ==> Readable(items[i])
  }

  /** `item.key` for a readable item: only objects carry fields. */
  function Field(item: Value, key: string): Value {
    if item.Obj? then Get(item.fields, key) else Undefined
  }

  /** `{...item}` for an item that is an object. */
  function ItemOptions(item: Value): Options {
    if item.Obj? then item.fields else map[]
  }

  /** The child a single group item contributes: none when its type is not
      registered or when `create` returns nothing. */
  function ChildOf(reg: LayerRegistry, item: Value, fallback: Value): (r: seq<LayerSpec>)
    ensures |r| <= 1
  {
    match Lookup(reg, Field(item, "type"))
    case None => []
    case Some(e) =>
      match e.create(Normalize(ItemOptions(item), fallback))
      case None => []
      case Some(s) => [s]
  }

  /** The parts concatenated in order (`Array.prototype.filter` over
      optional values yields the concatenation of zero-or-one-element parts). */
  function Flatten<T>(parts: seq<seq<T>>): seq<T>
    decreases |parts|
  {
    if parts == [] then [] else Flatten(parts[..|parts| - 1]) + parts[|parts| - 1]
  }

  lemma {:induction false} FlattenAppend<T>(xs: seq<seq<T>>, ys: seq<seq<T>>)
    ensures Flatten(xs + ys) == Flatten(xs) + Flatten(ys)
    decreases |ys|
  {
    if ys == [] {
      assert xs + ys == xs;
    } else {
      var ys' := ys[..|ys| - 1];
      assert (xs + ys)[..|xs + ys| - 1] == xs + ys';
      assert (xs + ys)[|xs + ys| - 1] == ys[|ys| - 1];
      FlattenAppend(xs, ys');
    }
  }

  /** One more part adds its elements at the end. */
  lemma FlattenSnoc<T>(parts: seq<seq<T>>, p: seq<T>)
    ensures Flatten(parts + [p]) == Flatten(parts) + p
  {
    assert (parts + [p])[..|parts|] == parts;
  }

  /** Single-element parts flatten to one element per part. */
  lemma {:induction false} FlattenSingletons<T>(parts: seq<seq<T>>)
    requires forall i :: 0 <= i < |parts| ==> |parts[i]| == 1
    ensures |Flatten(parts)| == |parts|
    ensures forall i :: 0 <= i < |parts| ==> [Flatten(parts)[i]] == parts[i]
    decreases |parts|
  {
    if parts != [] {
      var n := |parts|;
      var init := parts[..n - 1];
      assert forall i :: 0 <= i < |init| ==> init[i] == parts[i];
      FlattenSingletons(init);
      var f := Flatten(parts);
      assert f == Flatten(init) + parts[n - 1];
      forall i | 0 <= i < n
        ensures [f[i]] == parts[i]
      {
        if i < n - 1 {
          assert f[i] == Flatten(init)[i];
        } else {
          assert f[i] == parts[n - 1][0];
        }
      }
    }
  }

  /** Parts of at most one element flatten to no more elements than parts,
      each of which is a whole part. */
  lemma {:induction false} FlattenAtMostOnes<T>(parts: seq<seq<T>>)
    requires forall i :: 0 <= i < |parts| ==> |parts[i]| <= 1
    ensures |Flatten(parts)| <= |parts|
    ensures forall x :: x in Flatten(parts) ==> exists i :: 0 <= i < |parts| && parts[i] == [x]
    decreases |parts|
  {
    if parts != [] {
      var n := |parts|;
      var init := parts[..n - 1];
      assert forall i :: 0 <= i < |init| ==> init[i] == parts[i];
      FlattenAtMostOnes(init);
      forall x | x in Flatten(parts)
        ensures exists i :: 0 <= i < n && parts[i] == [x]
      {
        if x in Flatten(init) {
          var i :| 0 <= i < |init| && init[i] == [x];
          assert parts[i] == [x];
        } else {
          assert parts[n - 1] == [x];
        }
      }
    }
  }

  /** What each item contributes, item by item. */
  function PerItem(reg: LayerRegistry, items: seq<Value>, fallback: Value): (parts: seq<seq<LayerSpec>>)
    ensures |parts| == |items|
  {
    seq(|items|, i requires 0 <= i < |items| => ChildOf(reg, items[i], fallback))
  }

  /** The children of a group, item by item, in item order. */
  function ChildSpecs(reg: LayerRegistry, items: seq<Value>, fallback: Value): (r: seq<LayerSpec>)
    ensures |r| <= |items|
  {
    var parts := PerItem(reg, items, fallback);
    FlattenAtMostOnes(parts);
    Flatten(parts)
  }

  /** Parts that are, item by item, what each item contributes flatten to
      the children of the group. */
  lemma ChildSpecsFromParts(reg: LayerRegistry, items: seq<Value>, fallback: Value, parts: seq<seq<LayerSpec>>)
    requires |parts| == |items|
    requires forall k {:trigger ChildOf(reg, items[k], fallback)} :: 0 <= k < |items| ==> parts[k] == ChildOf(reg, items[k], fallback)
    ensures Flatten(parts) == ChildSpecs(reg, items, fallback)
  {
    assert parts == PerItem(reg, items, fallback);
  }

  /** Building children distributes over concatenation of the items: the
      children of each part keep their order. */
  lemma ChildSpecsAppend(reg: LayerRegistry, xs: seq<Value>, ys: seq<Value>, fallback: Value)
    ensures ChildSpecs(reg, xs + ys, fallback) == ChildSpecs(reg, xs, fallback) + ChildSpecs(reg, ys, fallback)
  {
    var all, a, b := PerItem(reg, xs + ys, fallback), PerItem(reg, xs, fallback), PerItem(reg, ys, fallback);
    forall k | 0 <= k < |all|
      ensures all[k] == (a + b)[k]
    {
      if k < |xs| {
        assert (xs + ys)[k] == xs[k];
      } else {
        assert (xs + ys)[k] == ys[k - |xs|];
      }
    }
    assert all == a + b;
    FlattenAppend(a, b);
  }

  /** An item whose type is not registered is dropped; its siblings proceed
      as if it were not there. */
  lemma UnregisteredItemDropped(reg: LayerRegistry, before: seq<Value>, item: Value, after: seq<Value>, fallback: Value)
    requires Lookup(reg, Field(item, "type")).None?
    ensures ChildSpecs(reg, before + [item] + after, fallback) ==
            ChildSpecs(reg, before, fallback) + ChildSpecs(reg, after, fallback)
  {
    ChildSpecsAppend(reg, before + [item], after, fallback);
    ChildSpecsAppend(reg, before, [item], fallback);
    ChildSpecsOfOne(reg, item, fallback);
    assert ChildSpecs(reg, before + [item], fallback) == ChildSpecs(reg, before, fallback);
  }

  lemma ChildSpecsOfOne(reg: LayerRegistry, item: Value, fallback: Value)
    ensures ChildSpecs(reg, [item], fallback) == ChildOf(reg, item, fallback)
  {
    var parts := PerItem(reg, [item], fallback);
    assert parts[..|parts| - 1] == [];
    assert Flatten(parts) == Flatten<LayerSpec>([]) + parts[0];
  }

  /** An item whose type is registered and whose `create` returns a layer
      for its normalised options contributes that layer, between its
      siblings' children. */
  lemma RegisteredItemKept(reg: LayerRegistry, before: seq<Value>, item: Value, after: seq<Value>, fallback: Value,
                           e: Entry, s: LayerSpec)
    requires Lookup(reg, Field(item, "type")) == Some(e)
    requires e.create(Normalize(ItemOptions(item), fallback)) == Some(s)
    ensures ChildSpecs(reg, before + [item] + after, fallback) ==
            ChildSpecs(reg, before, fallback) + [s] + ChildSpecs(reg, after, fallback)
  {
    ChildSpecsAppend(reg, before + [item], after, fallback);
    ChildSpecsAppend(reg, before, [item], fallback);
    ChildSpecsOfOne(reg, item, fallback);
  }

  /** When every item is registered and every `create` yields a layer, the
      group has one child per item, in item order. */
  lemma AllRegisteredKeepsEveryItem(reg: LayerRegistry, items: seq<Value>, fallback: Value)
    requires forall i :: 0 <= i < |items| ==> |ChildOf(reg, items[i], fallback)| == 1
    ensures |ChildSpecs(reg, items, fallback)| == |items|
    ensures forall i :: 0 <= i < |items| ==> [ChildSpecs(reg, items, fallback)[i]] == ChildOf(reg, items[i], fallback)
  {
    FlattenSingletons(PerItem(reg, items, fallback));
  }

  /** Every child comes from a registered item's `create`. */
  lemma ChildrenComeFromRegisteredItems(reg: LayerRegistry, items: seq<Value>, fallback: Value)
    ensures |ChildSpecs(reg, items, fallback)| <= |items|
    ensures forall s :: s in ChildSpecs(reg, items, fallback) ==>
              exists i :: 0 <= i < |items| && ChildOf(reg, items[i], fallback) == [s]
  {
    var parts := PerItem(reg, items, fallback);
    FlattenAtMostOnes(parts);
    forall s | s in ChildSpecs(reg, items, fallback)
      ensures exists i :: 0 <= i < |items| && ChildOf(reg, items[i], fallback) == [s]
    {
      var i :| 0 <= i < |parts| && parts[i] == [s];
    }
  }

  /** What `createLayer` builds from normalised options. `Throws` stands for the
      TypeError a group raises when `items` is not an array or holds `null` or
      `undefined`. */
  datatype Creation = NoLayer | Throws | Leaf(spec: LayerSpec) | Group(children: seq<LayerSpec>) {
    predicate Built() { Leaf? || Group? }
  }

  function Create(reg: LayerRegistry, o: Options, fallback: Value): (c: Creation)
    ensures c.Group? || c.Throws? <==> Get(o, "type") == Str("group")
    ensures c.Throws? <==> Get(o, "type") == Str("group") && !(Get(o, "items").List? && AllReadable(Get(o, "items").elems))
    ensures c.Group? ==> c.children == ChildSpecs(reg, Get(o, "items").elems, fallback)
    ensures c.Leaf? ==> exists e :: Lookup(reg, Get(o, "type")) == Some(e) && e.create(o) == Some(c.spec)
    ensures Get(o, "type") != Str("group") && Lookup(reg, Get(o, "type")).None? ==> c.NoLayer?
    ensures Get(o, "type") != Str("group") && Lookup(reg, Get(o, "type")).Some? ==>
              var made := Lookup(reg, Get(o, "type")).value.create(o);
              (made.Some? ==> c == Leaf(made.value)) && (made.None? ==> c.NoLayer?)
  {
    if Get(o, "type") == Str("group") then
      var items := Get(o, "items");
      if items.List? && AllReadable(items.elems) then Group(ChildSpecs(reg, items.elems, fallback)) else Throws
    else
      match Lookup(reg, Get(o, "type"))
      case None => NoLayer
      case Some(e) =>
        match e.create(o)
        case None => NoLayer
        case Some(s) => Leaf(s)
  }
}
