/** The plain object `addLayer` fills with the sources to watch, keyed by
    logical id. JavaScript objects keep string keys in insertion order, and
    storing under an existing key replaces the value in place. */
module SourceTable {

  /** A source whose loading events are watched, under its logical id. */
  datatype Source<K> = Source(id: K, tiled: bool)

  /** The object: its keys in insertion order, and for each key whether the
      sublayer stored under it is tiled. */
  datatype Table<K(!new)> = Table(keys: seq<K>, tiled: map<K, bool>) {
    ghost predicate Valid() {
      && (forall i, j :: 0 <= i < j < |keys| ==> keys[i] != keys[j])
      && (forall k :: k in tiled <==> k in keys)
    }

    /** `Object.entries(...)`: one source per key, in key order. */
    function Entries(): seq<Source<K>>
      requires Valid()
    {
      seq(|keys|, i requires 0 <= i < |keys| => Source(keys[i], tiled[keys[i]]))
    }
  }

  /** `object[k] = v`: an existing key keeps its position and takes the new
      value, a new key goes last. */
  function Put<K(!new)>(t: Table<K>, k: K, v: bool): (r: Table<K>)
    requires t.Valid()
    ensures r.Valid()
    ensures r.tiled == t.tiled[k := v]
    ensures k in t.tiled ==> r.keys == t.keys
    ensures k !in t.tiled ==> r.keys == t.keys + [k]
  {
    if k in t.tiled then Table(t.keys, t.tiled[k := v]) else Table(t.keys + [k], t.tiled[k := v])
  }

  /** The object filled with `object[p.id] = p` for each pending source, in
      order. */
  function TableOf<K(!new)>(pending: seq<Source<K>>): (t: Table<K>)
    ensures t.Valid()
    decreases |pending|
  {
    if pending == [] then Table([], map[])
    else
      var last := pending[|pending| - 1];
      Put(TableOf(pending[..|pending| - 1]), last.id, last.tiled)
  }

  /** Every pending id becomes a key. */
  lemma {:induction false} TableOfCoversPending<K(!new)>(pending: seq<Source<K>>)
    ensures forall i :: 0 <= i < |pending| ==> pending[i].id in TableOf(pending).tiled
    decreases |pending|
  {
    if pending != [] {
      var init := pending[..|pending| - 1];
      TableOfCoversPending(init);
      forall i | 0 <= i < |pending| - 1
        ensures pending[i].id in TableOf(pending).tiled
      {
        assert pending[i] == init[i];
      }
    }
  }

  /** Every key is the id of some pending source, and there are no more keys
      than pending sources. */
  lemma {:induction false} TableOfKeysFromPending<K(!new)>(pending: seq<Source<K>>)
    ensures forall k :: k in TableOf(pending).tiled ==> exists i :: 0 <= i < |pending| && pending[i].id == k
    ensures |TableOf(pending).keys| <= |pending|
    decreases |pending|
  {
    if pending != [] {
      var n := |pending|;
      var init := pending[..n - 1];
      TableOfKeysFromPending(init);
      var t := TableOf(init);
      assert TableOf(pending) == Put(t, pending[n - 1].id, pending[n - 1].tiled);
      forall k | k in TableOf(pending).tiled
        ensures exists i :: 0 <= i < n && pending[i].id == k
      {
        if k != pending[n - 1].id {
          assert k in t.tiled;
          var i :| 0 <= i < |init| && init[i].id == k;
          assert pending[i] == init[i];
        }
      }
    }
  }

  /** The source tracked under an id is the LAST pending source with that id. */
  lemma {:induction false} TableOfLastWins<K(!new)>(pending: seq<Source<K>>, i: nat)
    requires i < |pending|
    requires forall j :: i < j < |pending| ==> pending[j].id != pending[i].id
    ensures pending[i].id in TableOf(pending).tiled && TableOf(pending).tiled[pending[i].id] == pending[i].tiled
    decreases |pending|
  {
    var n := |pending|;
    var init := pending[..n - 1];
    if i < n - 1 {
      assert init[i] == pending[i];
      assert forall j :: i < j < |init| ==> init[j] == pending[j];
      TableOfLastWins(init, i);
    }
  }

  /** Storing under a new key appends one entry. */
  lemma PutNewKeyAppends<K(!new)>(t: Table<K>, k: K, v: bool)
    requires t.Valid() && k !in t.tiled
    ensures Put(t, k, v).Entries() == t.Entries() + [Source(k, v)]
  {
    var r := Put(t, k, v);
    assert r.keys == t.keys + [k];
    forall i | 0 <= i < |t.keys|
      ensures r.Entries()[i] == t.Entries()[i]
    {
      assert r.keys[i] == t.keys[i] && t.keys[i] != k;
    }
  }

  /** With pairwise distinct ids, the last pending id is not yet a key of the
      object the others filled. */
  lemma LastIdIsNew<K(!new)>(pending: seq<Source<K>>)
    requires |pending| > 0
    requires forall i, j :: 0 <= i < j < |pending| ==> pending[i].id != pending[j].id
    ensures pending[|pending| - 1].id !in TableOf(pending[..|pending| - 1]).tiled
  {
    var init := pending[..|pending| - 1];
    TableOfKeysFromPending(init);
    assert forall i :: 0 <= i < |init| ==> init[i].id != pending[|pending| - 1].id;
  }

  /** A non-empty sequence is its front followed by its last element. */
  lemma SplitLast<T>(s: seq<T>)
    requires |s| > 0
    ensures s[..|s| - 1] + [s[|s| - 1]] == s
  {
  }

  /** A source whose id is not yet a key adds one entry at the end. */
  lemma StoreNewId<K(!new)>(init: seq<Source<K>>, last: Source<K>)
    requires last.id !in TableOf(init).tiled
    ensures TableOf(init + [last]).Entries() == TableOf(init).Entries() + [last]
  {
    var t := TableOf(init);
    assert (init + [last])[..|init|] == init;
    assert TableOf(init + [last]) == Put(t, last.id, last.tiled);
    PutNewKeyAppends(t, last.id, last.tiled);
  }

  /** With pairwise distinct ids, every pending source is tracked, in order. */
  lemma {:induction false} TableOfWithoutClashes<K(!new)>(pending: seq<Source<K>>)
    requires forall i, j :: 0 <= i < j < |pending| ==> pending[i].id != pending[j].id
    ensures TableOf(pending).Entries() == pending
    decreases |pending|
  {
    if pending != [] {
      var n := |pending|;
      var init := pending[..n - 1];
      var last := pending[n - 1];
      assert forall i, j :: 0 <= i < j < |init| ==> init[i].id != init[j].id by {
        assert forall i :: 0 <= i < |init| ==> init[i] == pending[i];
      }
      TableOfWithoutClashes(init);
      LastIdIsNew(pending);
      StoreNewId(init, last);
      SplitLast(pending);
    }
  }
}
