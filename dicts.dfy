/** Python dictionaries with string keys, which keep their keys in insertion
 *  order, modelled as association lists. */
module Dicts {
  import opened Common

  type Dict<V> = seq<(string, V)>

  /** `list(d.keys())`. */
  function Keys<V>(d: Dict<V>): (ks: seq<string>)
    ensures |ks| == |d|
    ensures forall i :: 0 <= i < |d| ==> ks[i] == d[i].0
  {
    seq(|d|, i requires 0 <= i < |d| => d[i].0)
  }

  /** The keys as a set. */
  function KeySet<V>(d: Dict<V>): set<string> {
    set i | 0 <= i < |d| :: d[i].0
  }

  /** No key occurs twice: what every dictionary the YAML loader builds satisfies. */
  ghost predicate Unique<V>(d: Dict<V>) {
    forall i, j :: 0 <= i < j < |d| ==> d[i].0 != d[j].0
  }

  /** `d.get(k)`. */
  function Get<V>(d: Dict<V>, k: string): (r: Option<V>)
    ensures r.Some? <==> k in KeySet(d)
    ensures forall i :: 0 <= i < |d| && d[i].0 == k && Unique(d) ==> r == Some(d[i].1)
  {
    if d == [] then None
    else if d[0].0 == k then Some(d[0].1)
    else
      var r := Get(d[1..], k);
      assert KeySet(d) == {d[0].0} + KeySet(d[1..]) by {
        forall x | x in KeySet(d) ensures x in {d[0].0} + KeySet(d[1..]) {
          var i :| 0 <= i < |d| && d[i].0 == x;
          if i > 0 { assert d[1..][i - 1].0 == x; }
        }
      }
      assert forall i :: 1 <= i < |d| ==> d[i] == d[1..][i - 1];
      r
  }

  /** `d[k] = v`: an existing key keeps its place and takes the new value, a
   *  new key goes at the end. */
  function Put<V>(d: Dict<V>, k: string, v: V): Dict<V> {
    if d == [] then [(k, v)]
    else if d[0].0 == k then [(k, v)] + d[1..]
    else [d[0]] + Put(d[1..], k, v)
  }

  /** `d.update(entries)`: the entries put one at a time, in order. */
  function PutAll<V>(d: Dict<V>, entries: Dict<V>): Dict<V>
    decreases |entries|
  {
    if entries == [] then d
    else
      var last := entries[|entries| - 1];
      Put(PutAll(d, entries[..|entries| - 1]), last.0, last.1)
  }

  /** `[n for n in names if n not in drop]`. */
  function Exclude(names: seq<string>, drop: set<string>): (r: seq<string>)
    ensures forall n :: n in r <==> n in names && n !in drop
    ensures |r| <= |names|
    decreases |names|
  {
    if names == [] then []
    else
      var init := Exclude(names[..|names| - 1], drop);
      var last := names[|names| - 1];
      assert names == names[..|names| - 1] + [last];
      if last in drop then init else init + [last]
  }

  lemma {:induction false} PutGet<V>(d: Dict<V>, k: string, v: V, k': string)
    ensures Get(Put(d, k, v), k') == if k' == k then Some(v) else Get(d, k')
    decreases |d|
  {
    if d != [] && d[0].0 != k {
      PutGet(d[1..], k, v, k');
      assert Put(d, k, v)[1..] == Put(d[1..], k, v);
    }
  }

  lemma {:induction false} PutKeys<V>(d: Dict<V>, k: string, v: V)
    ensures Keys(Put(d, k, v)) == if k in Keys(d) then Keys(d) else Keys(d) + [k]
    decreases |d|
  {
    if d != [] && d[0].0 != k {
      PutKeys(d[1..], k, v);
      assert Keys(d) == [d[0].0] + Keys(d[1..]);
      assert Keys(Put(d, k, v)) == [d[0].0] + Keys(Put(d[1..], k, v));
    } else if d != [] {
      assert Keys(d) == [k] + Keys(d[1..]);
      assert Keys(Put(d, k, v)) == [k] + Keys(d[1..]);
    }
  }

  lemma KeySetIsKeys<V>(d: Dict<V>)
    ensures forall k :: k in KeySet(d) <==> k in Keys(d)
  {
    forall k | k in Keys(d) ensures k in KeySet(d) {
      var i :| 0 <= i < |d| && Keys(d)[i] == k;
      assert d[i].0 == k;
    }
  }

  lemma KeySetCons<V>(d: Dict<V>)
    requires d != []
    ensures KeySet(d) == {d[0].0} + KeySet(d[1..])
  {
    forall x | x in KeySet(d) ensures x in {d[0].0} + KeySet(d[1..]) {
      var i :| 0 <= i < |d| && d[i].0 == x;
      if i > 0 { assert d[1..][i - 1].0 == x; }
    }
  }

  lemma KeySetSnoc<V>(d: Dict<V>)
    requires d != []
    ensures KeySet(d) == KeySet(d[..|d| - 1]) + {d[|d| - 1].0}
  {
    forall x | x in KeySet(d) ensures x in KeySet(d[..|d| - 1]) + {d[|d| - 1].0} {
      var i :| 0 <= i < |d| && d[i].0 == x;
      if i < |d| - 1 { assert d[..|d| - 1][i].0 == x; }
    }
  }

  lemma {:induction false} PutKeySet<V>(d: Dict<V>, k: string, v: V)
    ensures KeySet(Put(d, k, v)) == KeySet(d) + {k}
    decreases |d|
  {
    PutKeys(d, k, v);
    KeySetIsKeys(d);
    KeySetIsKeys(Put(d, k, v));
  }

  /** Putting keeps the keys distinct. */
  lemma {:induction false} PutUnique<V>(d: Dict<V>, k: string, v: V)
    requires Unique(d)
    ensures Unique(Put(d, k, v))
    decreases |d|
  {
    if d != [] {
      KeySetCons(d);
      var p := Put(d, k, v);
      if d[0].0 == k {
        forall i, j | 0 <= i < j < |p| ensures p[i].0 != p[j].0 {
          assert p[j] == d[j];
          if i > 0 { assert p[i] == d[i]; }
        }
      } else {
        assert Unique(d[1..]);
        PutUnique(d[1..], k, v);
        PutKeySet(d[1..], k, v);
        var q := Put(d[1..], k, v);
        assert d[0].0 !in KeySet(d[1..]);
        forall i, j | 0 <= i < j < |p| ensures p[i].0 != p[j].0 {
          assert p[j] == q[j - 1];
          if i > 0 { assert p[i] == q[i - 1]; }
          else { assert q[j - 1].0 in KeySet(q); }
        }
      }
    }
  }

  /** Updating keeps the keys distinct. */
  lemma {:induction false} PutAllUnique<V>(d: Dict<V>, entries: Dict<V>)
    requires Unique(d)
    ensures Unique(PutAll(d, entries))
    decreases |entries|
  {
    if entries != [] {
      var last := entries[|entries| - 1];
      PutAllUnique(d, entries[..|entries| - 1]);
      PutUnique(PutAll(d, entries[..|entries| - 1]), last.0, last.1);
    }
  }

  /** After an update the value of a key comes from the entries when they hold
   *  it, and from the dictionary otherwise. */
  lemma {:induction false} PutAllGet<V>(d: Dict<V>, entries: Dict<V>, k: string)
    requires Unique(entries)
    ensures Get(PutAll(d, entries), k) == if k in KeySet(entries) then Get(entries, k) else Get(d, k)
    decreases |entries|
  {
    if entries != [] {
      var n := |entries| - 1;
      var init := entries[..n];
      var last := entries[n];
      assert Unique(init);
      PutAllGet(d, init, k);
      PutGet(PutAll(d, init), last.0, last.1, k);
      KeySetSnoc(entries);
      if k == last.0 {
        assert Get(entries, k) == Some(last.1);
      } else if k in KeySet(init) {
        var i :| 0 <= i < n && init[i].0 == k;
        assert entries[i] == init[i];
        assert Get(init, k) == Some(init[i].1);
      }
    }
  }

  /** After an update the keys are the dictionary's, in their order, followed
   *  by the keys the entries add, in theirs. */
  lemma {:induction false} PutAllKeys<V>(d: Dict<V>, entries: Dict<V>)
    requires Unique(entries)
    ensures Keys(PutAll(d, entries)) == Keys(d) + Exclude(Keys(entries), KeySet(d))
    decreases |entries|
  {
    if entries != [] {
      var n := |entries| - 1;
      var init := entries[..n];
      var last := entries[n];
      assert Unique(init);
      PutAllKeys(d, init);
      var before := PutAll(d, init);
      PutKeys(before, last.0, last.1);
      LastKeyIsNew(entries);
      KeysSnoc(entries);
      KeySetIsKeys(d);
      assert last.0 in Keys(before) <==> last.0 in KeySet(d);
      ExcludeAppend(Keys(init), last.0, KeySet(d));
    }
  }

  lemma KeysSnoc<V>(d: Dict<V>)
    requires d != []
    ensures Keys(d) == Keys(d[..|d| - 1]) + [d[|d| - 1].0]
  {
  }

  lemma LastKeyIsNew<V>(d: Dict<V>)
    requires d != [] && Unique(d)
    ensures d[|d| - 1].0 !in Keys(d[..|d| - 1])
  {
  }

  /** A new key goes at the end. */
  lemma {:induction false} PutNew<V>(d: Dict<V>, k: string, v: V)
    requires k !in KeySet(d)
    ensures Put(d, k, v) == d + [(k, v)]
    decreases |d|
  {
    if d != [] {
      KeySetCons(d);
      PutNew(d[1..], k, v);
      assert d == [d[0]] + d[1..];
    }
  }

  /** Updating an empty dictionary copies the entries. */
  lemma {:induction false} PutAllIntoEmpty<V>(entries: Dict<V>)
    requires Unique(entries)
    ensures PutAll([], entries) == entries
    decreases |entries|
  {
    if entries != [] {
      var n := |entries| - 1;
      assert Unique(entries[..n]);
      PutAllIntoEmpty(entries[..n]);
      LastKeyIsNew(entries);
      KeySetIsKeys(entries[..n]);
      PutNew(entries[..n], entries[n].0, entries[n].1);
      assert entries == entries[..n] + [entries[n]];
    }
  }

  lemma ExcludeAppend(names: seq<string>, n: string, drop: set<string>)
    ensures Exclude(names + [n], drop) == Exclude(names, drop) + (if n in drop then [] else [n])
  {
    assert (names + [n])[..|names|] == names;
  }
}
