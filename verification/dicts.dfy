/** A JavaScript object used as a dictionary: string keys in the order they were first added, and a
    value per key. `Object.values` lists the values in key order. */
module Dicts {

  datatype Dict<V> = Dict(keys: seq<string>, entries: map<string, V>) {

    /** Each key is listed once, and the listed keys are exactly the keys that have a value. */
    ghost predicate Valid() {
      && (forall i, j :: 0 <= i < j < |keys| ==> keys[i] != keys[j])
      && (forall k :: k in entries <==> k in keys)
    }

    /** The value under `k`, or `default` when `k` was never added. */
    function GetOr(k: string, default: V): V {
      if k in entries then entries[k] else default
    }

    /** `obj[k] = v`: a new key goes to the end of the key order, an existing key keeps its place. */
    function Put(k: string, v: V): (d: Dict<V>)
      ensures d.entries == entries[k := v]
      ensures Valid() ==> d.Valid()
      ensures k in entries ==> d.keys == keys
      ensures k !in entries ==> d.keys == keys + [k]
    {
      if k in entries then Dict(keys, entries[k := v]) else Dict(keys + [k], entries[k := v])
    }
  }

  /** An object with no keys. */
  function Empty<V>(): (d: Dict<V>)
    ensures d.Valid() && |d.keys| == 0
  {
    Dict([], map[])
  }

  /** `Object.values(obj).map(g)` for the keys in `keys`, skipping any key without a value. */
  function MapKeys<V, W>(keys: seq<string>, entries: map<string, V>, g: V -> W): (ws: seq<W>)
    ensures (forall k :: k in keys ==> k in entries) ==>
              |ws| == |keys| && forall i :: 0 <= i < |keys| ==> ws[i] == g(entries[keys[i]])
    decreases |keys|
  {
    if |keys| == 0 then []
    else
      var last := keys[|keys| - 1];
      MapKeys(keys[..|keys| - 1], entries, g) + (if last in entries then [g(entries[last])] else [])
  }

  /** `Object.values(d).map(g)`. */
  function MapValues<V, W>(d: Dict<V>, g: V -> W): (ws: seq<W>)
    ensures d.Valid() ==> |ws| == |d.keys| && forall i :: 0 <= i < |d.keys| ==> ws[i] == g(d.entries[d.keys[i]])
  {
    MapKeys(d.keys, d.entries, g)
  }

  /** Applies `f` to every element of a sequence. */
  function Map<A, B>(xs: seq<A>, f: A -> B): (ys: seq<B>)
    ensures |ys| == |xs| && forall i :: 0 <= i < |xs| ==> ys[i] == f(xs[i])
  {
    seq(|xs|, i requires 0 <= i < |xs| => f(xs[i]))
  }

  function SumSeq(xs: seq<nat>): nat
    decreases |xs|
  {
    if |xs| == 0 then 0 else SumSeq(xs[..|xs| - 1]) + xs[|xs| - 1]
  }

  lemma SumSeqAppend(xs: seq<nat>, y: nat)
    ensures SumSeq(xs + [y]) == SumSeq(xs) + y
  {
    assert (xs + [y])[..|xs|] == xs;
  }

  /** The total of `f` over the values stored under `keys`. */
  function SumKeys<V>(keys: seq<string>, entries: map<string, V>, f: V -> nat): nat
    decreases |keys|
  {
    if |keys| == 0 then 0
    else
      var last := keys[|keys| - 1];
      SumKeys(keys[..|keys| - 1], entries, f) + (if last in entries then f(entries[last]) else 0)
  }

  /** The total of `f` over the values of an object. */
  function Sum<V>(d: Dict<V>, f: V -> nat): nat {
    SumKeys(d.keys, d.entries, f)
  }

  /** A key that is not listed does not contribute to the total. */
  lemma {:induction false} SumKeysIgnoresUnlisted<V>(keys: seq<string>, entries: map<string, V>, k: string, v: V, f: V -> nat)
    requires k !in keys
    ensures SumKeys(keys, entries[k := v], f) == SumKeys(keys, entries, f)
    decreases |keys|
  {
    if |keys| > 0 {
      SumKeysIgnoresUnlisted(keys[..|keys| - 1], entries, k, v, f);
    }
  }

  /** Replacing the value of a key listed once changes the total by the difference. */
  lemma {:induction false} SumKeysReplace<V>(keys: seq<string>, entries: map<string, V>, k: string, v: V, f: V -> nat)
    requires forall i, j :: 0 <= i < j < |keys| ==> keys[i] != keys[j]
    requires k in keys && k in entries
    ensures SumKeys(keys, entries[k := v], f) == SumKeys(keys, entries, f) - f(entries[k]) + f(v)
    decreases |keys|
  {
    var n := |keys| - 1;
    if keys[n] == k {
      assert k !in keys[..n];
      SumKeysIgnoresUnlisted(keys[..n], entries, k, v, f);
    } else {
      assert k in keys[..n];
      SumKeysReplace(keys[..n], entries, k, v, f);
    }
  }

  /** Storing `v` under `k` changes the total by `f(v)` less what the key held before. */
  lemma SumAfterPut<V>(d: Dict<V>, k: string, v: V, f: V -> nat)
    requires d.Valid()
    ensures k in d.entries ==> Sum(d.Put(k, v), f) == Sum(d, f) - f(d.entries[k]) + f(v)
    ensures k !in d.entries ==> Sum(d.Put(k, v), f) == Sum(d, f) + f(v)
  {
    if k in d.entries {
      SumKeysReplace(d.keys, d.entries, k, v, f);
    } else {
      SumKeysIgnoresUnlisted(d.keys, d.entries, k, v, f);
      assert (d.keys + [k])[..|d.keys|] == d.keys;
    }
  }

  /** The total over values derived from an object's values equals the total over the object, when
      each derived value carries the same amount as the value it comes from. */
  lemma {:induction false} SumKeysAfterMap<V, W>(keys: seq<string>, entries: map<string, V>, g: V -> W, fw: W -> nat, fv: V -> nat)
    requires forall v :: fv(v) == fw(g(v))
    ensures SumSeq(Map(MapKeys(keys, entries, g), fw)) == SumKeys(keys, entries, fv)
    decreases |keys|
  {
    if |keys| > 0 {
      var n := |keys| - 1;
      SumKeysAfterMap(keys[..n], entries, g, fw, fv);
      var front := MapKeys(keys[..n], entries, g);
      if keys[n] in entries {
        var x := g(entries[keys[n]]);
        assert Map(front + [x], fw) == Map(front, fw) + [fw(x)];
        SumSeqAppend(Map(front, fw), fw(x));
      } else {
        assert MapKeys(keys, entries, g) == front;
      }
    }
  }

  lemma SumAfterMapValues<V, W>(d: Dict<V>, g: V -> W, fw: W -> nat, fv: V -> nat)
    requires forall v :: fv(v) == fw(g(v))
    ensures SumSeq(Map(MapValues(d, g), fw)) == Sum(d, fv)
  {
    SumKeysAfterMap(d.keys, d.entries, g, fw, fv);
  }
}
