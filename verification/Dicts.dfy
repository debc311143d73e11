/** Python's insertion-ordered `dict` with string keys, and sorting by key. */
module Dicts {

  datatype Entry<+T> = Entry(key: string, val: T)

  /** The mathematical map a dict stands for, forgetting insertion order. */
  ghost function AsMap<T>(es: seq<Entry<T>>): map<string, T> {
    if es == [] then map[] else AsMap(es[1..])[es[0].key := es[0].val]
  }

  ghost predicate UniqueKeys<T>(es: seq<Entry<T>>) {
    es != [] ==> es[0].key !in AsMap(es[1..]) && UniqueKeys(es[1..])
  }

  predicate Has<T>(es: seq<Entry<T>>, k: string) {
    es != [] && (es[0].key == k || Has(es[1..], k))
  }

  function Get<T>(es: seq<Entry<T>>, k: string): T
    requires Has(es, k)
  {
    if es[0].key == k then es[0].val else Get(es[1..], k)
  }

  /** `d[k] = v`: overwrites in place or appends. */
  function Put<T>(es: seq<Entry<T>>, k: string, v: T): (r: seq<Entry<T>>)
    ensures Has(r, k) && Get(r, k) == v
  {
    if es == [] then [Entry(k, v)]
    else if es[0].key == k then [Entry(k, v)] + es[1..]
    else [es[0]] + Put(es[1..], k, v)
  }

  /** `del d[k]`. */
  function Remove<T>(es: seq<Entry<T>>, k: string): seq<Entry<T>> {
    if es == [] then []
    else if es[0].key == k then es[1..]
    else [es[0]] + Remove(es[1..], k)
  }

  /** `d.update(other)`: puts the entries of `other` in order. */
  function PutAll<T>(es: seq<Entry<T>>, other: seq<Entry<T>>): seq<Entry<T>>
    decreases |other|
  {
    if other == [] then es else PutAll(Put(es, other[0].key, other[0].val), other[1..])
  }

  lemma {:induction false} HasIsKey<T>(es: seq<Entry<T>>, k: string)
    ensures Has(es, k) <==> k in AsMap(es)
    ensures Has(es, k) ==> AsMap(es)[k] == Get(es, k)
  {
    if es != [] {
      HasIsKey(es[1..], k);
    }
  }

  lemma {:induction false} AtIndex<T>(es: seq<Entry<T>>, i: nat)
    requires i < |es|
    ensures es[i].key in AsMap(es)
    ensures UniqueKeys(es) ==> AsMap(es)[es[i].key] == es[i].val
  {
    if i > 0 {
      AtIndex(es[1..], i - 1);
    }
  }

  lemma {:induction false} IndexOfKey<T>(es: seq<Entry<T>>, k: string) returns (i: nat)
    requires k in AsMap(es)
    ensures i < |es| && es[i].key == k && es[i].val == AsMap(es)[k]
  {
    if es[0].key == k {
      i := 0;
    } else {
      i := IndexOfKey(es[1..], k);
      i := i + 1;
    }
  }

  lemma {:induction false} KeysCount<T>(es: seq<Entry<T>>)
    requires UniqueKeys(es)
    ensures |AsMap(es).Keys| == |es|
  {
    if es != [] {
      KeysCount(es[1..]);
      assert AsMap(es).Keys == AsMap(es[1..]).Keys + {es[0].key};
    }
  }

  /** `Put` is map update, and keeps keys unique. */
  lemma {:induction false} PutIsUpdate<T>(es: seq<Entry<T>>, k: string, v: T)
    requires UniqueKeys(es)
    ensures UniqueKeys(Put(es, k, v))
    ensures AsMap(Put(es, k, v)) == AsMap(es)[k := v]
  {
    if es != [] {
      PutIsUpdate(es[1..], k, v);
      assert Put(es, k, v)[1..] == if es[0].key == k then es[1..] else Put(es[1..], k, v);
    }
  }

  /** `Remove` is map subtraction, and keeps keys unique. */
  lemma {:induction false} RemoveIsSubtraction<T>(es: seq<Entry<T>>, k: string)
    requires UniqueKeys(es)
    ensures UniqueKeys(Remove(es, k))
    ensures AsMap(Remove(es, k)) == AsMap(es) - {k}
  {
    if es != [] {
      RemoveIsSubtraction(es[1..], k);
      if es[0].key != k {
        assert Remove(es, k)[1..] == Remove(es[1..], k);
      }
    }
  }

  lemma UpdateThenMerge<T>(m: map<string, T>, n: map<string, T>, k: string, v: T)
    requires k !in n
    ensures m[k := v] + n == m + n[k := v]
  {
  }

  lemma {:induction false} PutAllIsMerge<T>(es: seq<Entry<T>>, other: seq<Entry<T>>)
    requires UniqueKeys(es) && UniqueKeys(other)
    ensures UniqueKeys(PutAll(es, other))
    ensures AsMap(PutAll(es, other)) == AsMap(es) + AsMap(other)
    decreases |other|
  {
    hide Put;
    if other != [] {
      PutIsUpdate(es, other[0].key, other[0].val);
      UpdateThenMerge(AsMap(es), AsMap(other[1..]), other[0].key, other[0].val);
      PutAllIsMerge(Put(es, other[0].key, other[0].val), other[1..]);
    }
  }

  // ---------- Sorting by key ----------

  /** Python's `<=` on strings: lexicographic by code point. */
  predicate Leq(a: string, b: string) {
    a == "" || (b != "" && (a[0] < b[0] || (a[0] == b[0] && Leq(a[1..], b[1..]))))
  }

  lemma {:induction false} LeqTotal(a: string, b: string)
    ensures Leq(a, b) || Leq(b, a)
  {
    if a != "" && b != "" && a[0] == b[0] {
      LeqTotal(a[1..], b[1..]);
    }
  }

  lemma {:induction false} LeqAntisymmetric(a: string, b: string)
    requires Leq(a, b) && Leq(b, a)
    ensures a == b
  {
    if a != "" {
      LeqAntisymmetric(a[1..], b[1..]);
      assert a == [a[0]] + a[1..] && b == [b[0]] + b[1..];
    }
  }

  lemma {:induction false} LeqTransitive(a: string, b: string, c: string)
    requires Leq(a, b) && Leq(b, c)
    ensures Leq(a, c)
  {
    if a != "" && a[0] == b[0] == c[0] {
      LeqTransitive(a[1..], b[1..], c[1..]);
    }
  }

  /** Inserts before the first entry whose key is not smaller. */
  function Insert<T>(e: Entry<T>, es: seq<Entry<T>>): seq<Entry<T>> {
    if es == [] || Leq(e.key, es[0].key) then [e] + es else [es[0]] + Insert(e, es[1..])
  }

  /** Stable sort by key, as `sorted(d.items())` and `items.sort(key=...)`. */
  function Sort<T>(es: seq<Entry<T>>): seq<Entry<T>> {
    if es == [] then [] else Insert(es[0], Sort(es[1..]))
  }

  ghost predicate Below<T>(k: string, m: map<string, T>) {
    forall q :: q in m ==> Leq(k, q)
  }

  ghost predicate Sorted<T>(es: seq<Entry<T>>) {
    es != [] ==> Below(es[0].key, AsMap(es[1..])) && Sorted(es[1..])
  }

  lemma BelowTransitive<T>(k: string, l: string, m: map<string, T>)
    requires Leq(k, l) && Below(l, m)
    ensures Below(k, m)
  {
    forall q | q in m ensures Leq(k, q) {
      LeqTransitive(k, l, q);
    }
  }

  lemma {:induction false} InsertKeeps<T>(e: Entry<T>, es: seq<Entry<T>>)
    requires Sorted(es) && UniqueKeys(es) && e.key !in AsMap(es)
    ensures Sorted(Insert(e, es)) && UniqueKeys(Insert(e, es))
    ensures AsMap(Insert(e, es)) == AsMap(es)[e.key := e.val]
    ensures |Insert(e, es)| == |es| + 1
  {
    var r := Insert(e, es);
    if es == [] {
    } else if Leq(e.key, es[0].key) {
      assert r[1..] == es;
      BelowTransitive(e.key, es[0].key, AsMap(es[1..]));
    } else {
      InsertKeeps(e, es[1..]);
      LeqTotal(e.key, es[0].key);
      assert r[1..] == Insert(e, es[1..]);
    }
  }

  lemma {:induction false} SortKeeps<T>(es: seq<Entry<T>>)
    requires UniqueKeys(es)
    ensures Sorted(Sort(es)) && UniqueKeys(Sort(es))
    ensures AsMap(Sort(es)) == AsMap(es)
    ensures |Sort(es)| == |es|
  {
    if es != [] {
      SortKeeps(es[1..]);
      InsertKeeps(es[0], Sort(es[1..]));
    }
  }

  lemma EmptyMap<T>(es: seq<Entry<T>>)
    ensures AsMap(es) == map[] <==> es == []
  {
    if es != [] {
      AtIndex(es, 0);
    }
  }

  /** A map has one sorted listing. */
  lemma {:induction false} SortedIsUnique<T>(a: seq<Entry<T>>, b: seq<Entry<T>>)
    requires Sorted(a) && UniqueKeys(a) && Sorted(b) && UniqueKeys(b)
    requires AsMap(a) == AsMap(b)
    ensures a == b
    decreases |a|
  {
    EmptyMap(a);
    EmptyMap(b);
    if a != [] {
      var k := a[0].key;
      assert k in AsMap(b) && b[0].key in AsMap(a);
      if k != b[0].key {
        LeqAntisymmetric(k, b[0].key);
      }
      assert AsMap(a[1..]) == AsMap(a) - {k} == AsMap(b[1..]);
      SortedIsUnique(a[1..], b[1..]);
      assert a == [a[0]] + a[1..] && b == [b[0]] + b[1..];
    }
  }

  /** Sorting forgets insertion order: equal maps sort to equal lists. */
  lemma SortForgetsOrder<T>(a: seq<Entry<T>>, b: seq<Entry<T>>)
    requires UniqueKeys(a) && UniqueKeys(b) && AsMap(a) == AsMap(b)
    ensures Sort(a) == Sort(b)
  {
    SortKeeps(a);
    SortKeeps(b);
    SortedIsUnique(Sort(a), Sort(b));
  }
}
