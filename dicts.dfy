/**
 * Python dictionaries as the scraper uses them: an insertion-ordered key
 * list over a map from key to text.
 */
module Dicts {

  /** A Python `dict` of strings; `keys` is its iteration order. */
  datatype Dict = Dict(keys: seq<string>, values: map<string, string>) {

    /** What every Python dict satisfies: each key once, listed keys and stored keys agree. */
    predicate Valid() {
      && (forall i, j :: 0 <= i < j < |keys| ==> keys[i] != keys[j])
      && (forall k :: k in values ==> k in keys)
      && (forall i :: 0 <= i < |keys| ==> keys[i] in values)
    }

    /** `d.get(k, default)` */
    function Get(k: string, default: string): string {
      Lookup(values, k, default)
    }

    /** `bool(d)`: a dict is truthy when it has a key. */
    predicate Truthy() {
      |keys| > 0
    }
  }

  /** No key is listed twice. */
  predicate DistinctKeys(keys: seq<string>) {
    forall i, j :: 0 <= i < j < |keys| ==> keys[i] != keys[j]
  }

  /** The dict literal `{keys[0]: values[0], ...}`, built one entry at a time. */
  function FromPairs(keys: seq<string>, values: seq<string>): (d: Dict)
    requires |keys| == |values|
    ensures d.keys == keys
  {
    if keys == [] then Dict([], map[])
    else
      var n := |keys| - 1;
      Dict(keys, FromPairs(keys[..n], values[..n]).values[keys[n] := values[n]])
  }

  /** The stored keys of a dict literal are exactly the listed keys. */
  lemma {:induction false} FromPairsDomain(keys: seq<string>, values: seq<string>)
    requires |keys| == |values|
    ensures forall k :: k in FromPairs(keys, values).values <==> k in keys
  {
    if keys != [] {
      var n := |keys| - 1;
      var ks, vs := keys[..n], values[..n];
      FromPairsDomain(ks, vs);
      assert keys == ks + [keys[n]];
    }
  }

  /** Each key of a dict literal without repeats maps to the value written beside it. */
  lemma {:induction false} FromPairsValues(keys: seq<string>, values: seq<string>)
    requires |keys| == |values| && DistinctKeys(keys)
    ensures forall i :: 0 <= i < |keys| ==> FromPairs(keys, values).Get(keys[i], "") == values[i]
  {
    if keys != [] {
      var n := |keys| - 1;
      var ks, vs := keys[..n], values[..n];
      assert DistinctKeys(ks);
      FromPairsValues(ks, vs);
      var d := FromPairs(ks, vs);
      forall i | 0 <= i < n ensures FromPairs(keys, values).Get(keys[i], "") == values[i] {
        assert ks[i] == keys[i] && keys[i] != keys[n];
        assert d.Get(ks[i], "") == vs[i];
      }
    }
  }

  /** A dict literal without repeated keys is well formed and maps each key to its value. */
  lemma FromPairsEntries(keys: seq<string>, values: seq<string>)
    requires |keys| == |values| && DistinctKeys(keys)
    ensures FromPairs(keys, values).Valid()
    ensures forall i :: 0 <= i < |keys| ==> FromPairs(keys, values).Get(keys[i], "") == values[i]
  {
    FromPairsDomain(keys, values);
    FromPairsValues(keys, values);
  }

  /** Two well-formed dicts with the same key order and the same value under every key are equal. */
  lemma SameEntries(d1: Dict, d2: Dict)
    requires d1.Valid() && d2.Valid() && d1.keys == d2.keys
    requires forall i :: 0 <= i < |d1.keys| ==> d1.Get(d1.keys[i], "") == d2.Get(d1.keys[i], "")
    ensures d1 == d2
  {
    forall k | k in d1.values ensures k in d2.values && d1.values[k] == d2.values[k] {
      var i :| 0 <= i < |d1.keys| && d1.keys[i] == k;
      assert d1.Get(d1.keys[i], "") == d2.Get(d1.keys[i], "");
    }
    assert d1.values.Keys == d2.values.Keys;
  }

  /** `m.get(k, default)`: the value under `k`, or `default` when `k` is absent. */
  function Lookup(m: map<string, string>, k: string, default: string): string {
    if k in m then m[k] else default
  }

  /** `[d for d in ds if d]` */
  function KeepTruthy(ds: seq<Dict>): (r: seq<Dict>)
    ensures |r| <= |ds|
    ensures forall d :: d in r ==> d in ds && d.Truthy()
    ensures forall i :: 0 <= i < |ds| && ds[i].Truthy() ==> ds[i] in r
    ensures (forall i :: 0 <= i < |ds| ==> ds[i].Truthy()) ==> r == ds
  {
    if ds == [] then []
    else
      var rest := KeepTruthy(ds[1..]);
      assert [ds[0]] + ds[1..] == ds;
      assert forall i :: 1 <= i < |ds| ==> ds[i] == ds[1..][i - 1];
      if ds[0].Truthy() then [ds[0]] + rest else rest
  }

  /** Filtering a concatenation filters each part: the kept dicts stay in input order. */
  lemma {:induction false} KeepTruthyAppend(a: seq<Dict>, b: seq<Dict>)
    ensures KeepTruthy(a + b) == KeepTruthy(a) + KeepTruthy(b)
  {
    if a != [] {
      assert (a + b)[0] == a[0];
      assert (a + b)[1..] == a[1..] + b;
      KeepTruthyAppend(a[1..], b);
    } else {
      assert a + b == b;
    }
  }

  /** Filtering one more dict: kept when it has a key, dropped when empty. */
  lemma KeepTruthySnoc(ds: seq<Dict>, d: Dict)
    ensures KeepTruthy(ds + [d]) == KeepTruthy(ds) + (if d.Truthy() then [d] else [])
  {
    KeepTruthyAppend(ds, [d]);
  }
}
