/**
 * Python dictionaries keep their insertion order; this module models one as
 * an association sequence of (key, value) pairs with string keys.
 */
module Dict {
  import opened Wrappers

  /** The keys, in insertion order. */
  function Keys<V>(d: seq<(string, V)>): (ks: seq<string>)
    ensures |ks| == |d|
    ensures forall i :: 0 <= i < |d| ==> ks[i] == d[i].0
  {
    if d == [] then [] else [d[0].0] + Keys(d[1..])
  }

  /** A well-formed dictionary holds each key once. */
  predicate Distinct<V>(d: seq<(string, V)>) {
    d == [] || (d[0].0 !in Keys(d[1..]) && Distinct(d[1..]))
  }

  /** `d.get(k)`: the value stored under `k`, if any. */
  function Get<V>(d: seq<(string, V)>, k: string): (r: Option<V>)
    ensures r.None? <==> k !in Keys(d)
  {
    if d == [] then None
    else if d[0].0 == k then Some(d[0].1)
    else Get(d[1..], k)
  }

  /** `d.get(k, default)`. */
  function GetOr<V>(d: seq<(string, V)>, k: string, default: V): V {
    match Get(d, k)
    case Some(v) => v
    case None => default
  }

  /** `d[k] = v`: an existing key keeps its position, a new key goes last. */
  function Put<V>(d: seq<(string, V)>, k: string, v: V): (r: seq<(string, V)>)
    ensures Get(r, k) == Some(v)
    ensures forall j :: j != k ==> Get(r, j) == Get(d, j)
    ensures k in Keys(d) ==> Keys(r) == Keys(d)
    ensures k !in Keys(d) ==> Keys(r) == Keys(d) + [k]
    ensures Distinct(d) ==> Distinct(r)
  {
    if d == [] then [(k, v)]
    else if d[0].0 == k then
      PutFirst(d, v);
      [(k, v)] + d[1..]
    else
      var rest := Put(d[1..], k, v);
      PutLater(d, k, v, rest);
      PutLaterKeys(d, k, v, rest);
      [d[0]] + rest
  }

  /** Overwriting the first key keeps every other entry and the key order. */
  lemma PutFirst<V>(d: seq<(string, V)>, v: V)
    requires d != []
    ensures var k, r := d[0].0, [(d[0].0, v)] + d[1..];
      Get(r, k) == Some(v) &&
      (forall j :: j != k ==> Get(r, j) == Get(d, j)) &&
      Keys(r) == Keys(d) &&
      (Distinct(d) ==> Distinct(r))
  {
    var r := [(d[0].0, v)] + d[1..];
    assert r[1..] == d[1..];
  }

  /** A key stored after the first entry: the first entry stays in front of
      the updated rest, and every lookup but `k` is the old one. */
  lemma PutLater<V>(d: seq<(string, V)>, k: string, v: V, rest: seq<(string, V)>)
    requires d != [] && d[0].0 != k
    requires Get(rest, k) == Some(v)
    requires forall j :: j != k ==> Get(rest, j) == Get(d[1..], j)
    ensures var r := [d[0]] + rest;
      Get(r, k) == Some(v) && forall j :: j != k ==> Get(r, j) == Get(d, j)
  {
    var r := [d[0]] + rest;
    assert r[1..] == rest;
    forall j | j != k
      ensures Get(r, j) == Get(d, j)
    {
      if j != d[0].0 {
        assert Get(r, j) == Get(rest, j);
        assert Get(d, j) == Get(d[1..], j);
      }
    }
  }

  /** The keys after storing `k` behind the first entry. */
  lemma PutLaterKeys<V>(d: seq<(string, V)>, k: string, v: V, rest: seq<(string, V)>)
    requires d != [] && d[0].0 != k
    requires k in Keys(d[1..]) ==> Keys(rest) == Keys(d[1..])
    requires k !in Keys(d[1..]) ==> Keys(rest) == Keys(d[1..]) + [k]
    requires Distinct(d[1..]) ==> Distinct(rest)
    ensures var r := [d[0]] + rest;
      (k in Keys(d) ==> Keys(r) == Keys(d)) &&
      (k !in Keys(d) ==> Keys(r) == Keys(d) + [k]) &&
      (Distinct(d) ==> Distinct(r))
  {
    var r := [d[0]] + rest;
    assert r[1..] == rest;
    assert Keys(r) == [d[0].0] + Keys(rest);
    assert Keys(d) == [d[0].0] + Keys(d[1..]);
    assert k in Keys(d) <==> k in Keys(d[1..]);
  }

  /** `del d[k]`; the other entries keep their order. */
  function Remove<V>(d: seq<(string, V)>, k: string): (r: seq<(string, V)>)
    requires Distinct(d)
    ensures Get(r, k) == None
    ensures forall j :: j != k ==> Get(r, j) == Get(d, j)
    ensures forall j :: j in Keys(r) <==> j in Keys(d) && j != k
    ensures Distinct(r)
    ensures d != [] && d[0].0 != k ==> r != [] && r[0] == d[0]
  {
    if d == [] then []
    else if d[0].0 == k then d[1..]
    else
      var rest := Remove(d[1..], k);
      var r := [d[0]] + rest;
      assert r[1..] == rest;
      r
  }

  /** In a well-formed dictionary the `i`-th key does not occur earlier,
      and looking it up gives the `i`-th value. */
  lemma {:induction false} DistinctAt<V>(d: seq<(string, V)>, i: nat)
    requires Distinct(d) && i < |d|
    ensures d[i].0 !in Keys(d[..i])
    ensures Get(d, d[i].0) == Some(d[i].1)
  {
    if i > 0 {
      DistinctAt(d[1..], i - 1);
      assert d[..i][1..] == d[1..][..i - 1];
      assert d[i] == d[1..][i - 1];
      assert d[i].0 in Keys(d[1..]);
    }
  }

  /** The keys of a one-longer prefix. */
  lemma KeysSnoc<V>(d: seq<(string, V)>, i: nat)
    requires i < |d|
    ensures Keys(d[..i + 1]) == Keys(d[..i]) + [d[i].0]
  {
    var a, b := Keys(d[..i + 1]), Keys(d[..i]) + [d[i].0];
    assert |a| == |b|;
    forall j | 0 <= j < |a|
      ensures a[j] == b[j]
    {
    }
  }

  /** In a well-formed dictionary no two positions hold the same key. */
  lemma DistinctKeysDiffer<V>(d: seq<(string, V)>, i: nat, j: nat)
    requires Distinct(d) && i < j < |d|
    ensures d[i].0 != d[j].0
  {
    DistinctAt(d, j);
    assert Keys(d[..j])[i] == d[i].0;
  }
}
