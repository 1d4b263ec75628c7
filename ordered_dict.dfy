/**
 * Python's `dict` as the core uses it: a mapping whose iteration order is
 * insertion order. A dictionary is a sequence of (key, value) pairs whose keys
 * are pairwise distinct; assignment to an existing key keeps its position.
 * Every dictionary of the core is keyed by strings (job identifiers).
 */
module OrderedDict {

  import opened Wrappers

  predicate Distinct<V>(d: seq<(string, V)>)
  {
    forall i, j :: 0 <= i < j < |d| ==> d[i].0 != d[j].0
  }

  type Dict<V> = d: seq<(string, V)> | Distinct(d) witness []

  /** The keys in iteration order. */
  function Keys<V>(d: seq<(string, V)>): (ks: seq<string>)
    ensures |ks| == |d|
    ensures forall i :: 0 <= i < |d| ==> ks[i] == d[i].0
  {
    seq(|d|, i requires 0 <= i < |d| => d[i].0)
  }

  /** `d.get(k)`: the value of the first pair with key `k`. */
  function Get<V>(d: seq<(string, V)>, k: string): (r: Option<V>)
    ensures r.None? <==> k !in Keys(d)
    ensures r.Some? ==> exists i :: 0 <= i < |d| && d[i] == (k, r.value)
  {
    if |d| == 0 then None
    else if d[0].0 == k then Some(d[0].1)
    else
      var r := Get(d[1..], k);
      assert r.Some? ==> exists i :: 0 <= i < |d[1..]| && d[1..][i] == (k, r.value);
      KeysCons(d);
      r
  }

  lemma {:induction false} GetAt<V>(d: Dict<V>, i: nat)
    requires i < |d|
    ensures Get(d, d[i].0) == Some(d[i].1)
  {
    var r := Get(d, d[i].0);
    assert d[i].0 in Keys(d);
    var j :| 0 <= j < |d| && d[j] == (d[i].0, r.value);
    assert i == j;
  }

  /** Position of key `k`, which must be present. */
  function IndexOf<V>(d: seq<(string, V)>, k: string): (i: nat)
    requires k in Keys(d)
    ensures i < |d| && d[i].0 == k
    ensures forall j :: 0 <= j < i ==> d[j].0 != k
  {
    if d[0].0 == k then 0
    else
      KeysCons(d);
      1 + IndexOf(d[1..], k)
  }

  /** `d[k] = v`: an existing key keeps its position, a new key goes last. */
  function Put<V>(d: Dict<V>, k: string, v: V): (r: Dict<V>)
    ensures k in Keys(d) ==> Keys(r) == Keys(d)
    ensures k !in Keys(d) ==> r == d + [(k, v)]
    ensures Get(r, k) == Some(v)
    ensures forall k' :: k' != k ==> Get(r, k') == Get(d, k')
  {
    if k in Keys(d) then
      var i := IndexOf(d, k);
      var r := d[i := (k, v)];
      assert Keys(r) == Keys(d);
      PutGetOthers(d, r, i, k, v);
      GetAt(r, i);
      r
    else
      var r := d + [(k, v)];
      GetAt(r, |d|);
      AppendGetOthers(d, k, v);
      r
  }

  lemma {:induction false} PutGetOthers<V>(d: Dict<V>, r: Dict<V>, i: nat, k: string, v: V)
    requires i < |d| && d[i].0 == k && r == d[i := (k, v)]
    ensures forall k' :: k' != k ==> Get(r, k') == Get(d, k')
  {
    forall k' | k' != k
      ensures Get(r, k') == Get(d, k')
    {
      if k' in Keys(d) {
        var j := IndexOf(d, k');
        assert d[j] == r[j];
        GetAt(d, j);
        GetAt(r, j);
      } else {
        assert k' !in Keys(r);
      }
    }
  }

  lemma {:induction false} AppendGetOthers<V>(d: Dict<V>, k: string, v: V)
    requires k !in Keys(d)
    ensures forall k' :: k' != k ==> Get(d + [(k, v)], k') == Get(d, k')
  {
    var r := d + [(k, v)];
    forall k' | k' != k
      ensures Get(r, k') == Get(d, k')
    {
      if k' in Keys(d) {
        var j := IndexOf(d, k');
        assert d[j] == r[j];
        GetAt(d, j);
        GetAt(r, j);
      } else {
        assert k' !in Keys(r);
      }
    }
  }

  /** `d.update(e)`: the pairs of `e` are assigned into `d` in `e`'s order. */
  function Update<V>(d: Dict<V>, e: Dict<V>): (r: Dict<V>)
    ensures forall k :: k in Keys(r) <==> k in Keys(d) || k in Keys(e)
    ensures forall k :: k in Keys(e) ==> Get(r, k) == Get(e, k)
    ensures forall k :: k !in Keys(e) ==> Get(r, k) == Get(d, k)
    decreases |e|
  {
    if |e| == 0 then d
    else
      var r := Update(Put(d, e[0].0, e[0].1), e[1..]);
      UpdateStep(d, e, r);
      r
  }

  /** The contract of `Update` for the pair `e[0]` followed by the rest of `e`. */
  lemma {:induction false} UpdateStep<V>(d: Dict<V>, e: Dict<V>, r: Dict<V>)
    requires |e| > 0
    requires forall k :: k in Keys(r) <==> k in Keys(Put(d, e[0].0, e[0].1)) || k in Keys(e[1..])
    requires forall k :: k in Keys(e[1..]) ==> Get(r, k) == Get(e[1..], k)
    requires forall k :: k !in Keys(e[1..]) ==> Get(r, k) == Get(Put(d, e[0].0, e[0].1), k)
    ensures forall k :: k in Keys(r) <==> k in Keys(d) || k in Keys(e)
    ensures forall k :: k in Keys(e) ==> Get(r, k) == Get(e, k)
    ensures forall k :: k !in Keys(e) ==> Get(r, k) == Get(d, k)
  {
    var k0, p := e[0].0, Put(d, e[0].0, e[0].1);
    KeysCons(e);
    PutKeys(d, k0, e[0].1);
    GetTail(e);
    assert k0 !in Keys(e[1..]) by {
      forall i | 0 <= i < |e[1..]|
        ensures Keys(e[1..])[i] != k0
      {
        assert e[1..][i] == e[i + 1];
      }
    }
    forall k | k in Keys(e)
      ensures Get(r, k) == Get(e, k)
    {
      if k == k0 {
        GetAt(e, 0);
      }
    }
  }

  /** A key of `d` is its first key or a key of the rest. */
  lemma {:induction false} KeysCons<V>(d: seq<(string, V)>)
    requires |d| > 0
    ensures forall k :: k in Keys(d) <==> k == d[0].0 || k in Keys(d[1..])
  {
    assert Keys(d) == [d[0].0] + Keys(d[1..]);
  }

  /** The key at position `i` is not a key of the pairs before it. */
  lemma {:induction false} KeyNotBefore<V>(d: Dict<V>, i: nat)
    requires i < |d|
    ensures d[i].0 !in Keys(d[..i])
  {
  }

  lemma {:induction false} PutKeys<V>(d: Dict<V>, k: string, v: V)
    ensures forall k' :: k' in Keys(Put(d, k, v)) <==> k' in Keys(d) || k' == k
  {
    if k !in Keys(d) {
      assert Keys(d + [(k, v)]) == Keys(d) + [k];
    }
  }

  /** Below the first pair, lookups in the rest agree with lookups in the whole. */
  lemma {:induction false} GetTail<V>(d: Dict<V>)
    requires |d| > 0
    ensures forall k :: k != d[0].0 ==> Get(d[1..], k) == Get(d, k)
  {
  }

  /** When the key sets are disjoint, `update` is concatenation. */
  lemma {:induction false} UpdateDisjoint<V>(d: Dict<V>, e: Dict<V>)
    requires forall k :: k in Keys(e) ==> k !in Keys(d)
    ensures Distinct(d + e)
    ensures Update(d, e) == d + e
    decreases |e|
  {
    if |e| == 0 {
      assert d + e == d;
    } else {
      var d' := d + [e[0]];
      assert Update(d, e) == Update(d', e[1..]) by {
        assert e[0].0 in Keys(e);
        assert Put(d, e[0].0, e[0].1) == d';
      }
      DisjointAfterFirst(d, e);
      UpdateDisjoint(d', e[1..]);
      MoveFirst(d, e);
    }
  }

  /** Updating the empty dictionary copies the update. */
  lemma {:induction false} UpdateEmpty<V>(e: Dict<V>)
    ensures Update([], e) == e
  {
    UpdateDisjoint([], e);
    assert [] + e == e;
  }

  lemma {:induction false} MoveFirst<T>(d: seq<T>, e: seq<T>)
    requires |e| > 0
    ensures d + [e[0]] + e[1..] == d + e
  {
    assert [e[0]] + e[1..] == e;
  }

  lemma {:induction false} DisjointAfterFirst<V>(d: Dict<V>, e: Dict<V>)
    requires |e| > 0
    requires forall k :: k in Keys(e) ==> k !in Keys(d)
    ensures forall k :: k in Keys(e[1..]) ==> k !in Keys(d + [e[0]])
  {
    forall k | k in Keys(e[1..])
      ensures k !in Keys(d + [e[0]])
    {
      var j :| 0 <= j < |e[1..]| && Keys(e[1..])[j] == k;
      assert e[j + 1].0 == k;
      assert Keys(e)[j + 1] == k;
      assert Keys(d + [e[0]]) == Keys(d) + [e[0].0];
    }
  }

  /** `{k: f(k, v) for k, v in d.items()}`: same keys in the same order. */
  function MapValues<V, W>(d: Dict<V>, f: (string, V) -> W): (r: Dict<W>)
    ensures Keys(r) == Keys(d)
    ensures forall i :: 0 <= i < |d| ==> r[i] == (d[i].0, f(d[i].0, d[i].1))
    decreases |d|
  {
    if |d| == 0 then []
    else
      var init := MapValues(d[..|d| - 1], f);
      var last := d[|d| - 1];
      assert Keys(init) == Keys(d)[..|d| - 1];
      assert last.0 !in Keys(init);
      var r := init + [(last.0, f(last.0, last.1))];
      assert Keys(r) == Keys(d);
      r
  }

  /** Looking a key up in the mapped dictionary maps the value found in the original. */
  lemma {:induction false} MapValuesGet<V, W>(d: Dict<V>, f: (string, V) -> W, k: string)
    ensures Get(MapValues(d, f), k) == if Get(d, k).Some? then Some(f(k, Get(d, k).value)) else None
  {
    var r := MapValues(d, f);
    if k in Keys(d) {
      var i := IndexOf(d, k);
      GetAt(d, i);
      GetAt(r, i);
    }
  }
}
