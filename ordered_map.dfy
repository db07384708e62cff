/** An insertion-ordered map from string keys to values: the shape of the
    JavaScript `Map` both servers keep their device records in, and of the plain
    object a snapshot is written as. `keys` lists every key once, in the order
    it was first set; `vals` binds each key to its value. */
module OrderedMaps {

  /** No key is listed twice. */
  ghost predicate Distinct(ks: seq<string>)
  {
    forall i, j :: 0 <= i < j < |ks| ==> ks[i] != ks[j]
  }

  /** The one key that `obj[key] = v` on a plain JavaScript object does not
      store: for `"__proto__"` the assignment runs the prototype setter, so the
      object gains no own property and `JSON.stringify` leaves the entry out. */
  const ProtoKey := "__proto__"

  /** `ks` with every occurrence of `x` left out, the rest in order. */
  function Without(ks: seq<string>, x: string): (r: seq<string>)
    ensures forall k :: k in r <==> k in ks && k != x
    ensures x !in ks ==> r == ks
  {
    if ks == [] then []
    else
      var init, last := ks[..|ks| - 1], ks[|ks| - 1];
      assert ks == init + [last];
      Without(init, x) + (if last == x then [] else [last])
  }

  /** Leaving keys out of a list of distinct keys keeps them distinct. */
  lemma {:induction false} WithoutDistinct(ks: seq<string>, x: string)
    requires Distinct(ks)
    ensures Distinct(Without(ks, x))
  {
    if ks != [] {
      var init, last := ks[..|ks| - 1], ks[|ks| - 1];
      assert Distinct(init) by {
        forall i, j | 0 <= i < j < |init| ensures init[i] != init[j] {
          assert init[i] == ks[i] && init[j] == ks[j];
        }
      }
      WithoutDistinct(init, x);
      assert last !in init by {
        forall i | 0 <= i < |init| ensures init[i] != last {
          assert init[i] == ks[i];
        }
      }
    }
  }

  datatype OMap<V> = OMap(keys: seq<string>, vals: map<string, V>)
  {
    /** The key order lists exactly the bound keys, each once. */
    ghost predicate Valid()
    {
      && Distinct(keys)
      && (forall k :: k in vals <==> k in keys)
    }

    /** `map.size`: the number of entries, which is the length of the key order. */
    function Size(): (n: nat)
      requires Valid()
      ensures n == |vals|
    {
      DistinctCard(keys, vals);
      |keys|
    }

    /** `map.set(k, v)`: binds `k` to `v`; a new key goes to the end of the
        order, an existing key keeps its place. */
    function Set(k: string, v: V): (r: OMap<V>)
      requires Valid()
      ensures r.Valid()
      ensures r.vals == vals[k := v]
      ensures keys <= r.keys
      ensures k in vals ==> r.keys == keys
      ensures k !in vals ==> r.keys == keys + [k]
    {
      if k in vals then OMap(keys, vals[k := v])
      else
        var r := OMap(keys + [k], vals[k := v]);
        assert forall i :: 0 <= i < |keys| ==> r.keys[i] == keys[i];
        r
    }

    /** The plain object that `obj[k] = v`, for every entry in order, fills:
        every entry except `x`, in the same order. */
    function Remove(x: string): (r: OMap<V>)
      requires Valid()
      ensures r.Valid()
      ensures r.vals == vals - {x}
      ensures r.keys == Without(keys, x)
      ensures x !in vals ==> r == this
    {
      WithoutDistinct(keys, x);
      OMap(Without(keys, x), vals - {x})
    }

    /** `ks.forEach(k => map.set(k, src[k]))`: sets every listed key, in order,
        to its value in `src`. */
    function SetAll(ks: seq<string>, src: map<string, V>): (r: OMap<V>)
      requires Valid()
      requires forall k :: k in ks ==> k in src
      ensures r.Valid()
      decreases |ks|
    {
      if ks == [] then this
      else Set(ks[0], src[ks[0]]).SetAll(ks[1..], src)
    }
  }

  /** A new `Map()`. */
  function Empty<V>(): (m: OMap<V>)
    ensures m.Valid() && m.vals == map[] && m.keys == []
  {
    OMap([], map[])
  }

  /** A list of distinct keys has as many elements as the set of its keys. */
  lemma {:induction false} DistinctCard<V>(ks: seq<string>, vals: map<string, V>)
    requires Distinct(ks)
    requires forall k :: k in vals <==> k in ks
    ensures |ks| == |vals|
  {
    if ks == [] {
      assert vals.Keys == {};
    } else {
      var rest := vals - {ks[0]};
      forall k ensures k in rest <==> k in ks[1..] {
        if k in ks[1..] {
          var j :| 0 <= j < |ks[1..]| && ks[1..][j] == k;
          assert ks[j + 1] == k;
        }
        if k in ks && k != ks[0] {
          var j :| 0 <= j < |ks| && ks[j] == k;
          assert j != 0;
          assert ks[1..][j - 1] == k;
        }
      }
      assert Distinct(ks[1..]) by {
        forall i, j | 0 <= i < j < |ks[1..]| ensures ks[1..][i] != ks[1..][j] {
          assert ks[1..][i] == ks[i + 1] && ks[1..][j] == ks[j + 1];
        }
      }
      DistinctCard(ks[1..], rest);
      assert vals.Keys == rest.Keys + {ks[0]};
    }
  }

  /** Setting a list of keys in turn binds every listed key to its value in
      `src`, and keeps every other binding. */
  lemma {:induction false} SetAllVals<V>(m: OMap<V>, ks: seq<string>, src: map<string, V>)
    requires m.Valid()
    requires forall k :: k in ks ==> k in src
    ensures forall k :: k in m.SetAll(ks, src).vals <==> k in m.vals || k in ks
    ensures forall k :: k in ks ==> m.SetAll(ks, src).vals[k] == src[k]
    ensures forall k :: k !in ks && k in m.vals ==> m.SetAll(ks, src).vals[k] == m.vals[k]
    decreases |ks|
  {
    if ks != [] {
      var m' := m.Set(ks[0], src[ks[0]]);
      assert m.SetAll(ks, src) == m'.SetAll(ks[1..], src);
      SetAllVals(m', ks[1..], src);
      assert ks == [ks[0]] + ks[1..];
    }
  }

  /** Setting keys never drops or reorders the keys already present. */
  lemma {:induction false} SetAllKeepsOrder<V>(m: OMap<V>, ks: seq<string>, src: map<string, V>)
    requires m.Valid()
    requires forall k :: k in ks ==> k in src
    ensures m.keys <= m.SetAll(ks, src).keys
    decreases |ks|
  {
    if ks != [] {
      var m' := m.Set(ks[0], src[ks[0]]);
      assert m.SetAll(ks, src) == m'.SetAll(ks[1..], src);
      SetAllKeepsOrder(m', ks[1..], src);
    }
  }

  /** Setting one key twice leaves what the second set alone leaves. */
  lemma SetTwice<V>(m: OMap<V>, k: string, a: V, b: V)
    requires m.Valid()
    ensures m.Set(k, a).Set(k, b) == m.Set(k, b)
  {
  }

  /** The map as it stood once its first `n` keys had been set. */
  function Prefix<V>(m: OMap<V>, n: nat): (p: OMap<V>)
    requires m.Valid() && n <= |m.keys|
    ensures p.Valid()
    ensures p.keys == m.keys[..n]
    ensures forall k :: k in p.vals ==> p.vals[k] == m.vals[k]
  {
    var p := OMap(m.keys[..n], map k | k in m.keys[..n] :: m.vals[k]);
    assert Distinct(p.keys) by {
      forall i, j | 0 <= i < j < n ensures p.keys[i] != p.keys[j] {
        assert p.keys[i] == m.keys[i] && p.keys[j] == m.keys[j];
      }
    }
    p
  }

  /** Setting the next key of `m` extends the prefix by one entry. */
  lemma PrefixGrow<V>(m: OMap<V>, n: nat)
    requires m.Valid() && n < |m.keys|
    ensures Prefix(m, n).Set(m.keys[n], m.vals[m.keys[n]]) == Prefix(m, n + 1)
  {
  }

  /** The prefix of all keys is the map itself. */
  lemma PrefixAll<V>(m: OMap<V>)
    requires m.Valid()
    ensures Prefix(m, |m.keys|) == m
  {
  }

  /** The prefix of `n + 1` entries is the prefix of `n` entries with the
      next key, which it did not hold yet, appended. */
  lemma PrefixNext<V>(m: OMap<V>, n: nat)
    requires m.Valid() && n < |m.keys|
    ensures Prefix(m, n + 1).keys == Prefix(m, n).keys + [m.keys[n]]
    ensures Prefix(m, n + 1).vals == Prefix(m, n).vals[m.keys[n] := m.vals[m.keys[n]]]
    ensures m.keys[n] !in Prefix(m, n).vals
  {
    var p, k := Prefix(m, n), m.keys[n];
    assert k !in p.keys by {
      forall i | 0 <= i < n ensures p.keys[i] != k {
        assert p.keys[i] == m.keys[i];
      }
    }
  }

  /** Leaving `x` out of a list extended by one key. */
  lemma WithoutSnoc(ks: seq<string>, k: string, x: string)
    ensures Without(ks + [k], x) == Without(ks, x) + (if k == x then [] else [k])
  {
    assert (ks + [k])[..|ks|] == ks;
  }

  /** Copying a map into a plain object leaves out a new key `x`. */
  lemma RemoveAfterSetSame<V>(p: OMap<V>, v: V, x: string)
    requires p.Valid() && x !in p.vals
    ensures p.Set(x, v).Remove(x) == p.Remove(x)
  {
    WithoutSnoc(p.keys, x, x);
  }

  /** Copying a map into a plain object commutes with adding a new key
      other than `x`. */
  lemma RemoveAfterSetOther<V>(p: OMap<V>, k: string, v: V, x: string)
    requires p.Valid() && k !in p.vals && k != x
    ensures p.Set(k, v).Remove(x) == p.Remove(x).Set(k, v)
  {
    WithoutSnoc(p.keys, k, x);
    assert p.vals[k := v] - {x} == (p.vals - {x})[k := v];
  }

  /** Copying the next key of `m` into a plain object extends the copy of
      its first `n` entries by that entry, unless the key is `x`. */
  lemma PrefixRemoveGrow<V>(m: OMap<V>, n: nat, x: string)
    requires m.Valid() && n < |m.keys|
    ensures m.keys[n] == x ==> Prefix(m, n + 1).Remove(x) == Prefix(m, n).Remove(x)
    ensures m.keys[n] != x ==>
      Prefix(m, n + 1).Remove(x) == Prefix(m, n).Remove(x).Set(m.keys[n], m.vals[m.keys[n]])
  {
    var p, k := Prefix(m, n), m.keys[n];
    PrefixNext(m, n);
    assert Prefix(m, n + 1) == p.Set(k, m.vals[k]);
    if k == x {
      RemoveAfterSetSame(p, m.vals[k], x);
    } else {
      RemoveAfterSetOther(p, k, m.vals[k], x);
    }
  }

  /** Setting the remaining keys of `m`, in order, onto its first `n` entries
      rebuilds `m`. */
  lemma {:induction false} RebuildFrom<V>(m: OMap<V>, n: nat)
    requires m.Valid() && n <= |m.keys|
    ensures Prefix(m, n).SetAll(m.keys[n..], m.vals) == m
    decreases |m.keys| - n
  {
    if n == |m.keys| {
      PrefixAll(m);
      assert m.keys[n..] == [];
    } else {
      PrefixGrow(m, n);
      assert m.keys[n..][1..] == m.keys[n + 1..];
      RebuildFrom(m, n + 1);
    }
  }
}
