/** Python's `dict`: an insertion-ordered map. Assigning to a present key
    replaces its value in place; assigning to a new key appends it at the end;
    `update` and a dict comprehension assign their pairs one after the other. */
module OrderedDict {
  import opened Wrappers

  /** Keys in first-seen order after assigning the keys `ks`, one by one, to a
      dict whose keys are `acc`: each key not seen before is appended. */
  function AppendNew<K(==)>(acc: seq<K>, ks: seq<K>): seq<K>
  {
    if ks == [] then acc
    else
      var p := AppendNew(acc, ks[..|ks| - 1]);
      if ks[|ks| - 1] in p then p else p + [ks[|ks| - 1]]
  }

  /** The value paired with the last occurrence of `k` in `ks`. */
  function LastValue<K(==), V>(ks: seq<K>, vs: seq<V>, k: K): Option<V>
    requires |ks| == |vs|
  {
    if ks == [] then None
    else if ks[|ks| - 1] == k then Some(vs[|vs| - 1])
    else LastValue(ks[..|ks| - 1], vs[..|vs| - 1], k)
  }

  /** The first position of `k` in `ks`. */
  function IndexOf<K(==)>(ks: seq<K>, k: K): (r: Option<nat>)
    ensures r.None? <==> k !in ks
    ensures r.Some? ==> (r.value < |ks| && ks[r.value] == k && k !in ks[..r.value])
  {
    if ks == [] then None
    else if ks[0] == k then Some(0)
    else
      var r := IndexOf(ks[1..], k);
      assert ks == [ks[0]] + ks[1..];
      if r.Some? then
        assert ks[..r.value + 1] == [ks[0]] + ks[1..][..r.value];
        Some(r.value + 1)
      else None
  }

  /** Assigning one more key appends it unless it is already there. */
  lemma {:induction false} AppendNewSnoc<K>(acc: seq<K>, ks: seq<K>, k: K)
    ensures AppendNew(acc, ks + [k]) == var p := AppendNew(acc, ks); if k in p then p else p + [k]
  {
    assert (ks + [k])[..|ks|] == ks;
  }

  /** `set(ks)` */
  function Elements<K(!new)>(ks: seq<K>): (r: set<K>)
    ensures forall k :: k in r <==> k in ks
  {
    if ks == [] then {}
    else
      assert ks == ks[..|ks| - 1] + [ks[|ks| - 1]];
      Elements(ks[..|ks| - 1]) + {ks[|ks| - 1]}
  }

  predicate Distinct<K(==)>(ks: seq<K>)
  {
    forall i, j :: 0 <= i < j < |ks| ==> ks[i] != ks[j]
  }

  /** `keys[i]` maps to `values[i]`; `keys` is `list(d.keys())` and `values` is
      `list(d.values())`. */
  datatype Dict<K(==,!new), V> = Dict(keys: seq<K>, values: seq<V>) {

    predicate Valid()
    {
      |keys| == |values| && Distinct(keys)
    }

    /** `set(d)` */
    function Keys(): set<K>
    {
      Elements(keys)
    }

    /** `d.get(k)` */
    function Get(k: K): (r: Option<V>)
      requires Valid()
      ensures r.Some? <==> k in keys
      ensures forall i :: 0 <= i < |keys| && keys[i] == k ==> r == Some(values[i])
    {
      var i := IndexOf(keys, k);
      if i.Some? then Some(values[i.value]) else None
    }

    /** `d[k] = v` */
    function Set(k: K, v: V): (r: Dict<K, V>)
      requires Valid()
      ensures r.Valid()
      ensures r.keys == if k in keys then keys else keys + [k]
    {
      var i := IndexOf(keys, k);
      if i.Some? then Dict(keys, values[i.value := v])
      else Dict(keys + [k], values + [v])
    }

    /** Assign `ks[i]: vs[i]` for each `i`, in order. */
    function SetAll(ks: seq<K>, vs: seq<V>): (r: Dict<K, V>)
      requires Valid() && |ks| == |vs|
      ensures r.Valid()
    {
      if ks == [] then this
      else SetAll(ks[..|ks| - 1], vs[..|vs| - 1]).Set(ks[|ks| - 1], vs[|vs| - 1])
    }

    /** `d.update(other)` */
    function Update(other: Dict<K, V>): (r: Dict<K, V>)
      requires Valid() && other.Valid()
      ensures r.Valid()
    {
      SetAll(other.keys, other.values)
    }
  }

  function Empty<K(==,!new), V>(): (r: Dict<K, V>)
    ensures r.Valid() && r.keys == []
  {
    Dict([], [])
  }

  /** `{ks[i]: vs[i] for i in range(len(ks))}` */
  function FromLists<K(==,!new), V>(ks: seq<K>, vs: seq<V>): (r: Dict<K, V>)
    requires |ks| == |vs|
    ensures r.Valid()
  {
    Empty().SetAll(ks, vs)
  }

  /** After `d[k] = v`, `k` holds `v` and every other key keeps its value. */
  lemma {:induction false} SetGet<K(!new), V>(d: Dict<K, V>, k: K, v: V, k': K)
    requires d.Valid()
    ensures d.Set(k, v).Get(k') == if k' == k then Some(v) else d.Get(k')
  {
    var r := d.Set(k, v);
    if k in d.keys {
      var i := IndexOf(d.keys, k).value;
      assert r.values == d.values[i := v];
    }
    if k' in r.keys {
      var j := IndexOf(r.keys, k').value;
      assert r.keys[j] == k';
    }
  }

  /** The elements of `ks` are those of all but its last, plus its last. */
  lemma {:induction false} ElementsSnoc<K(!new)>(ks: seq<K>)
    requires ks != []
    ensures Elements(ks) == Elements(ks[..|ks| - 1]) + {ks[|ks| - 1]}
  {
  }

  /** Distinct keys: as many keys as entries. */
  lemma {:induction false} DistinctCount<K(!new)>(ks: seq<K>)
    requires Distinct(ks)
    ensures |Elements(ks)| == |ks|
    decreases |ks|
  {
    if ks != [] {
      var n := |ks|;
      DistinctCount(ks[..n - 1]);
      ElementsSnoc(ks);
      assert ks[n - 1] !in ks[..n - 1];
    }
  }

  /** Appending the unseen keys of `ks` to `acc` gives the keys of both. */
  lemma {:induction false} AppendNewElements<K(!new)>(acc: seq<K>, ks: seq<K>)
    ensures Elements(AppendNew(acc, ks)) == Elements(acc) + Elements(ks)
    decreases |ks|
  {
    if ks != [] {
      var n := |ks|;
      var p := AppendNew(acc, ks[..n - 1]);
      AppendNewElements(acc, ks[..n - 1]);
      ElementsSnoc(ks);
      if ks[n - 1] !in p {
        ElementsAppend(p, [ks[n - 1]]);
      }
    }
  }

  /** After assigning `ks`/`vs`, the keys are the old ones plus `ks`. */
  lemma {:induction false} SetAllKeys<K(!new), V>(d: Dict<K, V>, ks: seq<K>, vs: seq<V>)
    requires d.Valid() && |ks| == |vs|
    ensures d.SetAll(ks, vs).Keys() == d.Keys() + Elements(ks)
  {
    SetAllKeyOrder(d, ks, vs);
    AppendNewElements(d.keys, ks);
  }

  /** After assigning `ks`/`vs`, each assigned key holds the value of its last
      assignment and every other key keeps its old value. */
  lemma {:induction false} SetAllGet<K(!new), V>(d: Dict<K, V>, ks: seq<K>, vs: seq<V>, k: K)
    requires d.Valid() && |ks| == |vs|
    ensures d.SetAll(ks, vs).Get(k) == if LastValue(ks, vs, k).Some? then LastValue(ks, vs, k) else d.Get(k)
    decreases |ks|
  {
    if ks != [] {
      SetAllGet(d, ks[..|ks| - 1], vs[..|vs| - 1], k);
      SetGet(d.SetAll(ks[..|ks| - 1], vs[..|vs| - 1]), ks[|ks| - 1], vs[|vs| - 1], k);
    }
  }

  /** Assigning `ks` appends its new keys, in first-seen order, after the old
      keys, whose order is left alone. */
  lemma {:induction false} SetAllKeyOrder<K(!new), V>(d: Dict<K, V>, ks: seq<K>, vs: seq<V>)
    requires d.Valid() && |ks| == |vs|
    ensures d.SetAll(ks, vs).keys == AppendNew(d.keys, ks)
    decreases |ks|
  {
    if ks != [] {
      SetAllKeyOrder(d, ks[..|ks| - 1], vs[..|vs| - 1]);
    }
  }

  /** Assigning fresh, distinct keys is appending them. */
  lemma {:induction false} SetAllFresh<K(!new), V>(d: Dict<K, V>, ks: seq<K>, vs: seq<V>)
    requires d.Valid() && |ks| == |vs| && Distinct(ks)
    requires forall i :: 0 <= i < |ks| ==> ks[i] !in d.keys
    ensures d.SetAll(ks, vs) == Dict(d.keys + ks, d.values + vs)
    decreases |ks|
  {
    if ks != [] {
      var n := |ks|;
      SetAllFresh(d, ks[..n - 1], vs[..n - 1]);
      var q := Dict(d.keys + ks[..n - 1], d.values + vs[..n - 1]);
      assert ks[n - 1] !in q.keys by {
        assert ks[n - 1] !in ks[..n - 1];
      }
      SetFresh(q, ks[n - 1], vs[n - 1]);
      AppendLast(d.keys, ks);
      AppendLast(d.values, vs);
    }
  }

  /** Assigning a key not present appends it. */
  lemma {:induction false} SetFresh<K(!new), V>(d: Dict<K, V>, k: K, v: V)
    requires d.Valid() && k !in d.keys
    ensures d.Set(k, v) == Dict(d.keys + [k], d.values + [v])
  {
  }

  lemma {:induction false} AppendLast<T>(a: seq<T>, s: seq<T>)
    requires s != []
    ensures (a + s[..|s| - 1]) + [s[|s| - 1]] == a + s
  {
    assert s == s[..|s| - 1] + [s[|s| - 1]];
  }

  /** `d.update(other)` with no common key keeps every old entry where it was,
      appends the new ones, and has as many keys as the two together. */
  lemma {:induction false} DisjointUpdate<K(!new), V>(d: Dict<K, V>, other: Dict<K, V>)
    requires d.Valid() && other.Valid() && d.Keys() !! other.Keys()
    ensures d.Update(other) == Dict(d.keys + other.keys, d.values + other.values)
    ensures d.Update(other).Keys() == d.Keys() + other.Keys()
    ensures |d.Update(other).Keys()| == |d.Keys()| + |other.Keys()|
  {
    assert forall i :: 0 <= i < |other.keys| ==> other.keys[i] in other.Keys();
    SetAllFresh(d, other.keys, other.values);
    DistinctCount(d.keys);
    DistinctCount(other.keys);
    DistinctCount(d.keys + other.keys);
    ElementsAppend(d.keys, other.keys);
  }

  /** `set(a + b) == set(a) | set(b)` */
  lemma {:induction false} ElementsAppend<K(!new)>(a: seq<K>, b: seq<K>)
    ensures Elements(a + b) == Elements(a) + Elements(b)
  {
    assert forall k :: k in a + b <==> k in a || k in b;
  }

  /** With distinct keys, the last value of a key is its only value. */
  lemma {:induction false} LastValueGet<K(!new), V>(d: Dict<K, V>, k: K)
    requires d.Valid()
    ensures LastValue(d.keys, d.values, k) == d.Get(k)
    decreases |d.keys|
  {
    if d.keys != [] {
      var n := |d.keys|;
      var p := Dict(d.keys[..n - 1], d.values[..n - 1]);
      assert p.Valid();
      LastValueGet(p, k);
      if d.keys[n - 1] != k {
        if k in p.keys {
          var i := IndexOf(p.keys, k).value;
          assert d.keys[i] == k;
        } else {
          assert k !in d.keys;
        }
      }
    }
  }

  /** After `d.update(other)`, the keys of `other` hold its values and every
      other key keeps its old value. */
  lemma {:induction false} UpdateGet<K(!new), V>(d: Dict<K, V>, other: Dict<K, V>, k: K)
    requires d.Valid() && other.Valid()
    ensures d.Update(other).Get(k) == if k in other.keys then other.Get(k) else d.Get(k)
  {
    SetAllGet(d, other.keys, other.values, k);
    LastValueGet(other, k);
  }
}
