/** The ordering of `QString` keys and the sorted association list that
    stands in for a `QMap<QString, T>`: iteration visits the keys in
    ascending order, and every key occurs once. */
module LexOrder {
  import opened Common

  /** Strict lexicographic order on strings, comparing characters by code
      (the order `QString::operator<` uses on object paths). */
  predicate Below(a: string, b: string)
  {
    if |a| == 0 then |b| > 0
    else if |b| == 0 then false
    else if a[0] != b[0] then a[0] < b[0]
    else Below(a[1..], b[1..])
  }

  lemma {:induction false} BelowIrreflexive(a: string)
    ensures !Below(a, a)
  {
    if |a| > 0 {
      BelowIrreflexive(a[1..]);
    }
  }

  lemma {:induction false} BelowTransitive(a: string, b: string, c: string)
    requires Below(a, b) && Below(b, c)
    ensures Below(a, c)
  {
    if |a| > 0 && a[0] == b[0] && b[0] == c[0] {
      BelowTransitive(a[1..], b[1..], c[1..]);
    }
  }

  /** Any two distinct keys are ordered one way or the other, never both. */
  lemma {:induction false} BelowTotal(a: string, b: string)
    ensures a == b || Below(a, b) || Below(b, a)
    ensures !(Below(a, b) && Below(b, a))
  {
    if |a| > 0 && |b| > 0 && a[0] == b[0] {
      BelowTotal(a[1..], b[1..]);
      if a[1..] == b[1..] {
        assert a == [a[0]] + a[1..] && b == [b[0]] + b[1..];
      }
    }
  }

  /** One key of the map and what it refers to. */
  datatype Entry<V> = Entry(key: string, value: V)

  /** The keys present in the map. */
  function Keys<V>(m: seq<Entry<V>>): set<string>
  {
    if |m| == 0 then {} else {m[0].key} + Keys(m[1..])
  }

  /** The map's invariant: keys strictly ascend, hence are unique. */
  ghost predicate Sorted<V>(m: seq<Entry<V>>)
  {
    |m| == 0 || ((forall k :: k in Keys(m[1..]) ==> Below(m[0].key, k)) && Sorted(m[1..]))
  }

  /** In a sorted map the first key does not occur again. */
  lemma HeadKeyUnique<V>(m: seq<Entry<V>>)
    requires Sorted(m) && |m| > 0
    ensures m[0].key !in Keys(m[1..])
  {
    BelowIrreflexive(m[0].key);
  }

  /** `QMap::value`: the entry stored under `k`, if any. */
  function Lookup<V>(m: seq<Entry<V>>, k: string): (r: Option<V>)
    ensures r.None? <==> k !in Keys(m)
  {
    if |m| == 0 then None
    else if m[0].key == k then Some(m[0].value)
    else Lookup(m[1..], k)
  }

  /** `QMap::insert` of a key not yet present: the entry goes to its place
      in key order, and every other key keeps its entry. */
  function Insert<V>(m: seq<Entry<V>>, k: string, v: V): (r: seq<Entry<V>>)
    requires k !in Keys(m)
    ensures Keys(r) == Keys(m) + {k}
    ensures forall k' :: Lookup(r, k') == if k' == k then Some(v) else Lookup(m, k')
    ensures |r| == |m| + 1
  {
    if |m| == 0 || Below(k, m[0].key) then [Entry(k, v)] + m
    else [m[0]] + Insert(m[1..], k, v)
  }

  /** Inserting a new key keeps the map sorted. */
  lemma {:induction false} InsertSorted<V>(m: seq<Entry<V>>, k: string, v: V)
    requires Sorted(m) && k !in Keys(m)
    ensures Sorted(Insert(m, k, v))
  {
    if |m| == 0 {
    } else if Below(k, m[0].key) {
      forall k' | k' in Keys(m[1..]) ensures Below(k, k') {
        BelowTransitive(k, m[0].key, k');
      }
      assert Insert(m, k, v)[1..] == m;
    } else {
      BelowTotal(k, m[0].key);
      InsertSorted(m[1..], k, v);
      assert Insert(m, k, v)[1..] == Insert(m[1..], k, v);
    }
  }

  /** The entries whose key is in `keep`, in their original order. */
  function FilterKeys<V>(m: seq<Entry<V>>, keep: set<string>): (r: seq<Entry<V>>)
    ensures Keys(r) == Keys(m) * keep
    ensures forall k :: Lookup(r, k) == if k in keep then Lookup(m, k) else None
    ensures Keys(m) <= keep ==> r == m
  {
    if |m| == 0 then []
    else if m[0].key in keep then [m[0]] + FilterKeys(m[1..], keep)
    else FilterKeys(m[1..], keep)
  }

  /** Filtering keeps the keys ascending. */
  lemma {:induction false} FilterKeysSorted<V>(m: seq<Entry<V>>, keep: set<string>)
    requires Sorted(m)
    ensures Sorted(FilterKeys(m, keep))
  {
    if |m| > 0 {
      FilterKeysSorted(m[1..], keep);
      if m[0].key in keep {
        assert FilterKeys(m, keep)[1..] == FilterKeys(m[1..], keep);
      }
    }
  }

  /** Stores `v` under an existing key `k`, leaving every other key alone. */
  function Replace<V>(m: seq<Entry<V>>, k: string, v: V): (r: seq<Entry<V>>)
    ensures Keys(r) == Keys(m)
    ensures forall k' :: Lookup(r, k') == if k' == k && k in Keys(m) then Some(v) else Lookup(m, k')
    ensures Sorted(m) ==> Sorted(r)
  {
    if |m| == 0 then []
    else if m[0].key == k then [Entry(k, v)] + m[1..]
    else
      var r := [m[0]] + Replace(m[1..], k, v);
      assert r[1..] == Replace(m[1..], k, v);
      r
  }
}
