/** The loading-state tracker of `addLayer`: the table of sublayers keyed by
    logical id that handlers are attached to, and what the tile and image
    handlers do with the instance-wide tile counter and the notification sink. */
module Loading {
  import opened JsValues
  import opened Registry
  import opened SourceTable

  /** A watched source under a string id. */
  type Attachment = Source<string>

  /** The logical id of a child of the group whose own id converts to `groupKey`. */
  function ChildKey(groupKey: string, child: LayerSpec): string {
    groupKey + "#" + JsString(child.id)
  }

  /** A group's children as sources to watch, under their logical ids. */
  function ChildSources(groupKey: string, children: seq<LayerSpec>): (ps: seq<Attachment>)
    ensures |ps| == |children|
    ensures forall i :: 0 <= i < |children| ==> ps[i] == Source(ChildKey(groupKey, children[i]), children[i].tiled)
    decreases |children|
  {
    if children == [] then []
    else
      var last := children[|children| - 1];
      ChildSources(groupKey, children[..|children| - 1]) + [Source(ChildKey(groupKey, last), last.tiled)]
  }

  /** The sublayer table of a group, filled child by child. */
  function SublayerTable(groupKey: string, children: seq<LayerSpec>): (t: Table<string>)
    ensures t.Valid()
  {
    TableOf(ChildSources(groupKey, children))
  }

  /** When no two children share a logical id, the table lists every child
      under its logical id, in child order. */
  lemma SublayerEntries(groupKey: string, children: seq<LayerSpec>)
    requires forall i, j :: 0 <= i < j < |children| ==> ChildKey(groupKey, children[i]) != ChildKey(groupKey, children[j])
    ensures SublayerTable(groupKey, children).Entries() == ChildSources(groupKey, children)
  {
    TableOfWithoutClashes(ChildSources(groupKey, children));
  }

  /** A source event: start, end or error of an image or tile load. */
  datatype LoadEvent = LoadStart | LoadEnd | LoadError

  /** A call `setLayerLoading(id, loading)`. */
  datatype Notification = Notification(id: string, loading: bool)

  /** The instance-wide tile counter `tilestoload` and the notifications sent so far. */
  datatype Tracker = Tracker(tiles: int, emitted: seq<Notification>)

  /** One handler run: tiled sources count (start increments, end and error
      decrement) and notify only on the 0 -> 1 start and on reaching 0; image
      sources notify every event without counting. */
  function OnLoadEvent(t: Tracker, a: Attachment, e: LoadEvent): (r: Tracker)
    ensures |t.emitted| <= |r.emitted| <= |t.emitted| + 1 && r.emitted[..|t.emitted|] == t.emitted
    ensures |r.emitted| > |t.emitted| ==> r.emitted[|t.emitted|] == Notification(a.id, e == LoadStart)
    ensures a.tiled ==> r.tiles == (if e == LoadStart then t.tiles + 1 else t.tiles - 1)
    ensures a.tiled ==> (|r.emitted| > |t.emitted| <==> (if e == LoadStart then t.tiles == 0 else r.tiles == 0))
    ensures !a.tiled ==> r.tiles == t.tiles && |r.emitted| == |t.emitted| + 1
  {
    if a.tiled then
      match e
      case LoadStart =>
        Tracker(t.tiles + 1, t.emitted + (if t.tiles == 0 then [Notification(a.id, true)] else []))
      case _ =>
        var n := t.tiles - 1;
        Tracker(n, t.emitted + (if n == 0 then [Notification(a.id, false)] else []))
    else
      Tracker(t.tiles, t.emitted + [Notification(a.id, e == LoadStart)])
  }

  /** A source event delivered to the handlers attached for `source`. */
  datatype Firing = Firing(source: Attachment, event: LoadEvent)

  function Run(t: Tracker, trace: seq<Firing>): Tracker
    decreases |trace|
  {
    if trace == [] then t else Run(OnLoadEvent(t, trace[0].source, trace[0].event), trace[1..])
  }

  function TileStarts(trace: seq<Firing>): nat
    decreases |trace|
  {
    if trace == [] then 0
    else (if trace[0].source.tiled && trace[0].event == LoadStart then 1 else 0) + TileStarts(trace[1..])
  }

  function TileFinishes(trace: seq<Firing>): nat
    decreases |trace|
  {
    if trace == [] then 0
    else (if trace[0].source.tiled && trace[0].event != LoadStart then 1 else 0) + TileFinishes(trace[1..])
  }

  /** The counter always equals tile starts minus tile ends and errors; nothing
      keeps it from going below zero. */
  lemma {:induction false} RunCountsTiles(t: Tracker, trace: seq<Firing>)
    ensures Run(t, trace).tiles == t.tiles + TileStarts(trace) - TileFinishes(trace)
    decreases |trace|
  {
    if trace != [] {
      RunCountsTiles(OnLoadEvent(t, trace[0].source, trace[0].event), trace[1..]);
    }
  }

  /** Notifications are only ever appended. */
  lemma {:induction false} RunOnlyAppends(t: Tracker, trace: seq<Firing>)
    ensures |t.emitted| <= |Run(t, trace).emitted| <= |t.emitted| + |trace|
    ensures Run(t, trace).emitted[..|t.emitted|] == t.emitted
    decreases |trace|
  {
    if trace != [] {
      var t' := OnLoadEvent(t, trace[0].source, trace[0].event);
      RunOnlyAppends(t', trace[1..]);
      assert Run(t, trace).emitted[..|t'.emitted|][..|t.emitted|] == Run(t, trace).emitted[..|t.emitted|];
    }
  }

  /** An error is handled exactly like an end, for tiles and for images. */
  lemma ErrorActsAsEnd(t: Tracker, a: Attachment)
    ensures OnLoadEvent(t, a, LoadError) == OnLoadEvent(t, a, LoadEnd)
  {
  }

  lemma {:induction false} RunAppend(t: Tracker, xs: seq<Firing>, ys: seq<Firing>)
    ensures Run(t, xs + ys) == Run(Run(t, xs), ys)
    decreases |xs|
  {
    if xs == [] {
      assert xs + ys == ys;
    } else {
      assert (xs + ys)[0] == xs[0];
      assert (xs + ys)[1..] == xs[1..] + ys;
      RunAppend(OnLoadEvent(t, xs[0].source, xs[0].event), xs[1..], ys);
    }
  }

  function Starts(sources: seq<Attachment>): seq<Firing> {
    seq(|sources|, i requires 0 <= i < |sources| => Firing(sources[i], LoadStart))
  }

  /** While the counter is positive, further tile starts notify nothing. */
  lemma {:induction false} StartsWhileLoading(t: Tracker, sources: seq<Attachment>)
    requires t.tiles > 0
    requires forall a :: a in sources ==> a.tiled
    ensures Run(t, Starts(sources)) == Tracker(t.tiles + |sources|, t.emitted)
    decreases |sources|
  {
    if sources != [] {
      assert Starts(sources)[1..] == Starts(sources[1..]);
      StartsWhileLoading(OnLoadEvent(t, sources[0], LoadStart), sources[1..]);
    }
  }

  /** Tile ends or errors that leave the counter positive notify nothing. */
  lemma {:induction false} FinishesWhileLoading(t: Tracker, finishes: seq<Firing>)
    requires t.tiles > |finishes|
    requires forall f :: f in finishes ==> f.source.tiled && f.event != LoadStart
    ensures Run(t, finishes) == Tracker(t.tiles - |finishes|, t.emitted)
    decreases |finishes|
  {
    if finishes != [] {
      FinishesWhileLoading(OnLoadEvent(t, finishes[0].source, finishes[0].event), finishes[1..]);
    }
  }

  /** N tile starts from an idle counter send one `true`, for the first
      start's id. */
  lemma StartsFromIdle(t: Tracker, sources: seq<Attachment>)
    requires t.tiles == 0 && |sources| > 0
    requires forall a :: a in sources ==> a.tiled
    ensures Run(t, Starts(sources)) == Tracker(|sources|, t.emitted + [Notification(sources[0].id, true)])
  {
    var starts := Starts(sources);
    var t1 := OnLoadEvent(t, sources[0], LoadStart);
    assert t1 == Tracker(1, t.emitted + [Notification(sources[0].id, true)]);
    assert starts[0] == Firing(sources[0], LoadStart) && starts[1..] == Starts(sources[1..]);
    StartsWhileLoading(t1, sources[1..]);
  }

  /** As many tile ends or errors as the counter holds send one `false`, for
      the last finish's id, and bring the counter to 0. */
  lemma FinishesToIdle(t: Tracker, finishes: seq<Firing>)
    requires |finishes| > 0 && t.tiles == |finishes|
    requires forall f :: f in finishes ==> f.source.tiled && f.event != LoadStart
    ensures Run(t, finishes) == Tracker(0, t.emitted + [Notification(finishes[|finishes| - 1].source.id, false)])
  {
    var n := |finishes|;
    var last := finishes[n - 1];
    var init := finishes[..n - 1];
    assert finishes == init + [last];
    RunAppend(t, init, [last]);
    FinishesWhileLoading(t, init);
    assert [last][1..] == [];
    assert Run(Run(t, init), [last]) == OnLoadEvent(Run(t, init), last.source, last.event);
  }

  /** N tile starts from an idle counter followed by N tile ends or errors send
      exactly one `true` (for the first start's id) and then one `false` (for
      the last finish's id), and leave the counter at 0. */
  lemma BurstNotifiesOnce(t: Tracker, sources: seq<Attachment>, finishes: seq<Firing>)
    requires t.tiles == 0 && |sources| > 0 && |finishes| == |sources|
    requires forall a :: a in sources ==> a.tiled
    requires forall f :: f in finishes ==> f.source.tiled && f.event != LoadStart
    ensures Run(t, Starts(sources) + finishes) ==
            Tracker(0, t.emitted + [Notification(sources[0].id, true), Notification(finishes[|finishes| - 1].source.id, false)])
  {
    RunAppend(t, Starts(sources), finishes);
    StartsFromIdle(t, sources);
    FinishesToIdle(Run(t, Starts(sources)), finishes);
  }

  /** Two tiled children whose loads overlap: the `true` goes to the child
      that started first and the `false` to the child that finished last, so
      the first child is not told that it stopped loading until a later load
      ends on one of its own tiles. */
  lemma OverlappingChildrenLeaveFirstLoading(t: Tracker, a: Attachment, b: Attachment)
    requires t.tiles == 0 && a.tiled && b.tiled
    ensures Run(t, [Firing(a, LoadStart), Firing(b, LoadStart), Firing(a, LoadEnd), Firing(b, LoadEnd)]) ==
            Tracker(0, t.emitted + [Notification(a.id, true), Notification(b.id, false)])
  {
    var finishes := [Firing(a, LoadEnd), Firing(b, LoadEnd)];
    assert Starts([a, b]) == [Firing(a, LoadStart), Firing(b, LoadStart)];
    assert Starts([a, b]) + finishes == [Firing(a, LoadStart), Firing(b, LoadStart), Firing(a, LoadEnd), Firing(b, LoadEnd)];
    BurstNotifiesOnce(t, [a, b], finishes);
  }

  /** An end with no matching start drives the counter to -1 without a notification. */
  lemma UnmatchedEndUnderflows(t: Tracker, a: Attachment)
    requires t.tiles == 0 && a.tiled
    ensures OnLoadEvent(t, a, LoadEnd) == Tracker(-1, t.emitted)
  {
  }

  /** Once the counter is at -1, a complete single-tile load sends no
      notification at all: the tile never shows as loading. */
  lemma UnderflowHidesNextLoad(t: Tracker, a: Attachment)
    requires t.tiles == -1 && a.tiled
    ensures Run(t, [Firing(a, LoadStart), Firing(a, LoadEnd)]) == Tracker(-1, t.emitted)
  {
    var trace := [Firing(a, LoadStart), Firing(a, LoadEnd)];
    assert trace[1..] == [Firing(a, LoadEnd)];
    assert trace[1..][1..] == [];
    var t1 := OnLoadEvent(t, a, LoadStart);
    assert t1 == Tracker(0, t.emitted);
    assert Run(t, trace) == Run(t1, [Firing(a, LoadEnd)]);
  }
}
