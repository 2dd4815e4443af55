/** A Python dict as an insertion-ordered list of bindings. Used for the
    provider registry, whose key order shows in error messages, and for the
    JSON objects a custom endpoint returns. */
module OrderedDict {
  import opened Common

  type Dict<V> = seq<(string, V)>

  /** `list(d.keys())`, in insertion order. */
  function Keys<V>(d: Dict<V>): seq<string> {
    seq(|d|, i requires 0 <= i < |d| => d[i].0)
  }

  /** A dict never binds a key twice. */
  ghost predicate DistinctKeys<V>(d: Dict<V>) {
    forall i, j :: 0 <= i < j < |d| ==> d[i].0 != d[j].0
  }

  /** `d.get(k)`. */
  function Get<V>(d: Dict<V>, k: string): (r: Option<V>)
    ensures r.Some? <==> k in Keys(d)
    ensures r.Some? ==> (k, r.value) in d
  {
    if |d| == 0 then None
    else
      assert Keys(d) == [d[0].0] + Keys(d[1..]);
      if d[0].0 == k then Some(d[0].1) else Get(d[1..], k)
  }

  /** The keys and the lookups of a dict whose first binding is `b`. */
  lemma Cons<V>(b: (string, V), rest: Dict<V>)
    ensures Keys([b] + rest) == [b.0] + Keys(rest)
    ensures forall k' :: Get([b] + rest, k') == if b.0 == k' then Some(b.1) else Get(rest, k')
  {
    assert ([b] + rest)[1..] == rest;
  }

  /** `d[k] = v`: a bound key keeps its position, a new key goes last. */
  function Put<V>(d: Dict<V>, k: string, v: V): (r: Dict<V>)
    ensures Get(r, k) == Some(v)
    ensures forall k' :: k' != k ==> Get(r, k') == Get(d, k')
    ensures Keys(r) == if k in Keys(d) then Keys(d) else Keys(d) + [k]
  {
    if |d| == 0 then [(k, v)]
    else
      Cons(d[0], d[1..]);
      assert [d[0]] + d[1..] == d;
      if d[0].0 == k then
        Cons((k, v), d[1..]);
        [(k, v)] + d[1..]
      else
        var rest := Put(d[1..], k, v);
        Cons(d[0], rest);
        [d[0]] + rest
  }

  /** `del d[k]` when k is bound, nothing otherwise. */
  function Remove<V>(d: Dict<V>, k: string): (r: Dict<V>)
    ensures Get(r, k) == None
    ensures forall k' :: k' != k ==> Get(r, k') == Get(d, k')
    ensures k !in Keys(d) ==> r == d
    ensures forall x :: x in Keys(r) ==> x in Keys(d)
  {
    if |d| == 0 then []
    else
      var rest := Remove(d[1..], k);
      Cons(d[0], d[1..]);
      assert [d[0]] + d[1..] == d;
      if d[0].0 == k then rest
      else
        Cons(d[0], rest);
        [d[0]] + rest
  }

  /** Binding a key keeps a dict free of duplicate keys. */
  lemma {:induction false} PutKeepsDistinct<V>(d: Dict<V>, k: string, v: V)
    requires DistinctKeys(d)
    ensures DistinctKeys(Put(d, k, v))
  {
    var r := Put(d, k, v);
    forall i, j | 0 <= i < j < |r| ensures r[i].0 != r[j].0 {
      assert Keys(r)[i] == r[i].0 && Keys(r)[j] == r[j].0;
      if k in Keys(d) {
        assert Keys(d)[i] == d[i].0 && Keys(d)[j] == d[j].0;
      } else if j < |d| {
        assert Keys(d)[i] == d[i].0 && Keys(d)[j] == d[j].0;
      } else {
        assert Keys(d)[i] == d[i].0;
      }
    }
  }

  /** Removing a key leaves a dict free of duplicate keys. */
  lemma {:induction false} RemoveKeepsDistinct<V>(d: Dict<V>, k: string)
    requires DistinctKeys(d)
    ensures DistinctKeys(Remove(d, k))
  {
    if |d| > 0 {
      var rest := Remove(d[1..], k);
      RemoveKeepsDistinct(d[1..], k);
      if d[0].0 != k {
        assert Remove(d, k) == [d[0]] + rest;
        forall j | 0 <= j < |rest| ensures rest[j].0 != d[0].0 {
          assert Keys(rest)[j] == rest[j].0;
          assert rest[j].0 in Keys(rest);
          assert rest[j].0 in Keys(d[1..]);
          var m :| 0 <= m < |d[1..]| && Keys(d[1..])[m] == rest[j].0;
          assert d[m + 1].0 == rest[j].0;
        }
      }
    }
  }

  /** Removing the key bound at position i deletes exactly that binding and
      keeps every other one in its insertion order. */
  lemma {:induction false} RemoveAt<V>(d: Dict<V>, k: string, i: nat)
    requires DistinctKeys(d) && i < |d| && d[i].0 == k
    ensures Remove(d, k) == d[..i] + d[i + 1..]
  {
    var tail := d[1..];
    TailDistinct(d);
    if i == 0 {
      assert Remove(d, k) == Remove(tail, k);
      assert Remove(tail, k) == tail;
    } else {
      assert tail[i - 1] == d[i];
      RemoveAt(tail, k, i - 1);
      assert Remove(d, k) == [d[0]] + Remove(tail, k);
      assert d[..i] == [d[0]] + tail[..i - 1];
      assert d[i + 1..] == tail[i..];
    }
  }

  /** A dict without duplicate keys stays so without its first binding,
      whose key it no longer binds. */
  lemma TailDistinct<V>(d: Dict<V>)
    requires DistinctKeys(d) && |d| > 0
    ensures DistinctKeys(d[1..])
    ensures d[0].0 !in Keys(d[1..])
  {
    var tail := d[1..];
    forall a, b | 0 <= a < b < |tail| ensures tail[a].0 != tail[b].0 {
      assert tail[a] == d[a + 1] && tail[b] == d[b + 1];
    }
    forall j | 0 <= j < |tail| ensures Keys(tail)[j] != d[0].0 {
      assert tail[j] == d[j + 1];
    }
  }
}
