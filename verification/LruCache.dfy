/**
 The L1 cache of mcp_server/cache/memory.py: an ordered dictionary kept in the
 order of last use.
 */
module LruCache {
  import opened Options

  type Key = string
  datatype Entry<V> = Entry(key: Key, value: V)

  // The position of key k, or the length when it is absent.
  function IndexOf<V>(order: seq<Entry<V>>, k: Key): (i: nat)
    ensures i <= |order|
    ensures i < |order| ==> order[i].key == k
    ensures forall j | 0 <= j < i :: order[j].key != k
  {
    if order == [] then 0 else if order[0].key == k then 0 else 1 + IndexOf(order[1..], k)
  }

  function Has<V>(order: seq<Entry<V>>, k: Key): bool {
    IndexOf(order, k) < |order|
  }

  function Lookup<V>(order: seq<Entry<V>>, k: Key): Option<V> {
    var i := IndexOf(order, k);
    if i < |order| then Some(order[i].value) else None
  }

  function Without<V>(order: seq<Entry<V>>, k: Key): seq<Entry<V>> {
    if order == [] then []
    else if order[0].key == k then order[1..]
    else [order[0]] + Without(order[1..], k)
  }

  lemma {:induction false} WithoutIsDeletion<V>(order: seq<Entry<V>>, k: Key)
    requires Has(order, k)
    ensures Without(order, k) == order[..IndexOf(order, k)] + order[IndexOf(order, k) + 1..]
  {
    if order[0].key != k {
      WithoutIsDeletion(order[1..], k);
      DeletedLater(order, IndexOf(order[1..], k));
    }
  }

  lemma DeletedLater<T>(s: seq<T>, i: nat)
    requires i + 1 < |s|
    ensures [s[0]] + (s[1..][..i] + s[1..][i + 1..]) == s[..i + 1] + s[i + 2..]
  {
  }

  lemma {:induction false} WithoutAbsent<V>(order: seq<Entry<V>>, k: Key)
    requires !Has(order, k)
    ensures Without(order, k) == order
  {
    if order != [] {
      WithoutAbsent(order[1..], k);
    }
  }

  // The order of use after a read ...
  function Touch<V>(order: seq<Entry<V>>, k: Key): seq<Entry<V>> {
    var i := IndexOf(order, k);
    if i < |order| then Without(order, k) + [order[i]] else order
  }

  // ... and after a write, with the oldest entry evicted on overflow.
  function Store<V>(order: seq<Entry<V>>, k: Key, v: V, maxsize: nat): seq<Entry<V>> {
    var stored := Without(order, k) + [Entry(k, v)];
    if |stored| > maxsize then stored[1..] else stored
  }

  class AsyncLRUCache<V(==)> {
    const maxsize: nat
    var cache: seq<Entry<V>>

    constructor (maxsize: nat)
      ensures this.maxsize == maxsize && cache == []
    {
      this.maxsize := maxsize;
      cache := [];
    }

    method MoveToEnd(k: Key)
      requires Has(cache, k)
      modifies this`cache
      ensures cache == Touch(old(cache), k)
    {
      WithoutIsDeletion(cache, k);
      var i := IndexOf(cache, k);
      cache := cache[..i] + cache[i + 1..] + [cache[i]];
    }

    method Get(k: Key) returns (v: Option<V>)
      modifies this`cache
      ensures cache == Touch(old(cache), k) && v == Lookup(old(cache), k)
    {
      var i := IndexOf(cache, k);
      if i == |cache| {
        return None;
      }
      MoveToEnd(k);
      v := Some(cache[|cache| - 1].value);
    }

    method Set(k: Key, v: V)
      modifies this`cache
      ensures cache == Store(old(cache), k, v, maxsize)
    {
      if Has(cache, k) {
        MoveToEnd(k);
        cache := cache[|cache| - 1 := Entry(k, v)];
      } else {
        WithoutAbsent(cache, k);
        cache := cache + [Entry(k, v)];
      }
      if |cache| > maxsize {
        cache := cache[1..];
      }
    }

    method Clear()
      modifies this`cache
      ensures cache == []
    {
      cache := [];
    }
  }

  /* ---------- traces ---------- */

  datatype Op<V> = Get(key: Key) | Set(key: Key, value: V) | Clear

  function Apply<V>(order: seq<Entry<V>>, op: Op<V>, maxsize: nat): seq<Entry<V>> {
    match op
    case Get(k) => Touch(order, k)
    case Set(k, v) => Store(order, k, v, maxsize)
    case Clear => []
  }

  // The cache after a trace of operations.
  function After<V>(ops: seq<Op<V>>, maxsize: nat): seq<Entry<V>>
    decreases |ops|
  {
    if ops == [] then [] else Apply(After(ops[..|ops| - 1], maxsize), ops[|ops| - 1], maxsize)
  }

  ghost predicate Distinct<V>(order: seq<Entry<V>>) {
    forall i, j | 0 <= i < j < |order| :: order[i].key != order[j].key
  }

  // a is b with some entries left out.
  ghost predicate Thinned<V>(a: seq<Entry<V>>, b: seq<Entry<V>>)
    decreases |b|
  {
    a == [] || (b != [] && (Thinned(a, b[1..]) || (a[0] == b[0] && Thinned(a[1..], b[1..]))))
  }

  function Min(a: nat, b: nat): nat { if a < b then a else b }

  /* ---------- lemmas about thinning ---------- */

  lemma {:induction false} ThinnedSelf<V>(a: seq<Entry<V>>)
    ensures Thinned(a, a)
  {
    if a != [] {
      ThinnedSelf(a[1..]);
    }
  }

  lemma {:induction false} ThinnedTail<V>(a: seq<Entry<V>>, b: seq<Entry<V>>)
    requires Thinned(a, b) && a != []
    ensures Thinned(a[1..], b)
    decreases |b|
  {
    if Thinned(a, b[1..]) {
      ThinnedTail(a, b[1..]);
    }
  }

  lemma {:induction false} ThinnedLength<V>(a: seq<Entry<V>>, b: seq<Entry<V>>)
    requires Thinned(a, b)
    ensures |a| <= |b| && (|a| == |b| ==> a == b)
    decreases |b|
  {
    if a != [] {
      if Thinned(a, b[1..]) {
        ThinnedLength(a, b[1..]);
      } else {
        ThinnedLength(a[1..], b[1..]);
        assert a == [a[0]] + a[1..] && b == [b[0]] + b[1..];
      }
    }
  }

  lemma {:induction false} ThinnedAppend<V>(a: seq<Entry<V>>, b: seq<Entry<V>>, x: Entry<V>)
    requires Thinned(a, b)
    ensures Thinned(a + [x], b + [x])
    decreases |b|
  {
    if b == [] {
      assert a + [x] == b + [x];
      ThinnedSelf(a + [x]);
    } else {
      assert (b + [x])[1..] == b[1..] + [x];
      if a == [] {
        ThinnedAppend(a, b[1..], x);
      } else {
        assert (a + [x])[1..] == a[1..] + [x];
        if Thinned(a, b[1..]) {
          ThinnedAppend(a, b[1..], x);
        } else {
          ThinnedAppend(a[1..], b[1..], x);
        }
      }
    }
  }

  // Every entry of a thinned list is in the full one.
  lemma {:induction false} ThinnedIn<V>(a: seq<Entry<V>>, b: seq<Entry<V>>, i: nat)
    requires Thinned(a, b) && i < |a|
    ensures a[i] in b
    decreases |b|
  {
    if Thinned(a, b[1..]) {
      ThinnedIn(a, b[1..], i);
    } else if i > 0 {
      ThinnedIn(a[1..], b[1..], i - 1);
    }
  }

  // Taking key k out of both lists keeps the relation; the thinned one may lack it.
  lemma {:induction false} ThinnedWithout<V>(a: seq<Entry<V>>, b: seq<Entry<V>>, k: Key)
    requires Thinned(a, b) && Distinct(b)
    ensures Thinned(Without(a, k), Without(b, k))
    decreases |b|
  {
    if a != [] {
      if Thinned(a, b[1..]) {
        if b[0].key == k {
          AbsentStays(a, b, k);
        } else {
          ThinnedWithout(a, b[1..], k);
        }
      } else if b[0].key != k {
        ThinnedWithout(a[1..], b[1..], k);
      }
    }
  }

  // A list thinned from b[1..] cannot hold the key of b[0].
  lemma AbsentStays<V>(a: seq<Entry<V>>, b: seq<Entry<V>>, k: Key)
    requires b != [] && b[0].key == k && Distinct(b) && Thinned(a, b[1..])
    ensures Without(a, k) == a
  {
    var i := IndexOf(a, k);
    if i < |a| {
      ThinnedIn(a, b[1..], i);
    } else {
      WithoutAbsent(a, k);
    }
  }

  lemma WithoutFacts<V>(order: seq<Entry<V>>, k: Key)
    requires Distinct(order)
    ensures Distinct(Without(order, k)) && !Has(Without(order, k), k)
    ensures |Without(order, k)| == |order| - (if Has(order, k) then 1 else 0)
  {
    if Has(order, k) {
      WithoutIsDeletion(order, k);
      DeletionFacts(order, IndexOf(order, k));
    } else {
      WithoutAbsent(order, k);
    }
  }

  lemma DeletionFacts<V>(order: seq<Entry<V>>, i: nat)
    requires Distinct(order) && i < |order|
    ensures var r := order[..i] + order[i + 1..];
            Distinct(r) && !Has(r, order[i].key) && |r| == |order| - 1
  {
  }

  // What the small cache holds the large one holds, with the same value.
  lemma ThinnedLookup<V>(a: seq<Entry<V>>, b: seq<Entry<V>>, k: Key)
    requires Thinned(a, b) && Distinct(b)
    ensures Lookup(a, k).Some? ==> Lookup(b, k) == Lookup(a, k)
  {
    var i := IndexOf(a, k);
    if i < |a| {
      ThinnedIn(a, b, i);
      var j :| 0 <= j < |b| && b[j] == a[i];
      assert IndexOf(b, k) == j;
    }
  }

  /* ---------- no size anomaly ---------- */

  ghost predicate Nested<V>(small: seq<Entry<V>>, large: seq<Entry<V>>, n: nat, m: nat) {
    && Distinct(large) && Thinned(small, large)
    && |large| <= m && |small| == Min(n, |large|)
  }

  lemma ThinnedDistinct<V>(a: seq<Entry<V>>, b: seq<Entry<V>>)
    requires Thinned(a, b) && Distinct(b)
    ensures Distinct(a)
    decreases |b|
  {
    if a != [] {
      if Thinned(a, b[1..]) {
        ThinnedDistinct(a, b[1..]);
      } else {
        ThinnedDistinct(a[1..], b[1..]);
        forall j | 1 <= j < |a|
          ensures a[0].key != a[j].key
        {
          ThinnedIn(a[1..], b[1..], j - 1);
        }
      }
    }
  }

  lemma TouchKeeps<V>(small: seq<Entry<V>>, large: seq<Entry<V>>, n: nat, m: nat, k: Key)
    requires Nested(small, large, n, m)
    ensures Nested(Touch(small, k), Touch(large, k), n, m)
  {
    ThinnedDistinct(small, large);
    WithoutFacts(small, k);
    WithoutFacts(large, k);
    ThinnedLookup(small, large, k);
    ThinnedWithout(small, large, k);
    if Has(small, k) {
      ThinnedAppend(Without(small, k), Without(large, k), small[IndexOf(small, k)]);
    } else if Has(large, k) {
      WithoutAbsent(small, k);
      ThinnedMore(small, Without(large, k), large[IndexOf(large, k)]);
    }
  }

  lemma {:induction false} ThinnedMore<V>(a: seq<Entry<V>>, b: seq<Entry<V>>, x: Entry<V>)
    requires Thinned(a, b)
    ensures Thinned(a, b + [x])
    decreases |b|
  {
    if a != [] {
      assert (b + [x])[1..] == b[1..] + [x];
      if Thinned(a, b[1..]) {
        ThinnedMore(a, b[1..], x);
      } else {
        ThinnedMore(a[1..], b[1..], x);
      }
    }
  }

  lemma StoreKeeps<V>(small: seq<Entry<V>>, large: seq<Entry<V>>, n: nat, m: nat, k: Key, v: V)
    requires Nested(small, large, n, m) && n <= m
    ensures Nested(Store(small, k, v, n), Store(large, k, v, m), n, m)
  {
    ThinnedDistinct(small, large);
    WithoutFacts(small, k);
    WithoutFacts(large, k);
    ThinnedLookup(small, large, k);
    ThinnedWithout(small, large, k);
    ThinnedLength(small, large);
    var a, b := Without(small, k) + [Entry(k, v)], Without(large, k) + [Entry(k, v)];
    ThinnedAppend(Without(small, k), Without(large, k), Entry(k, v));
    assert Distinct(b);
    ThinnedLength(a, b);
    if |a| > n {
      ThinnedTail(a, b);
      if |b| > m {
        DropBoth(a, b);
      }
    }
  }

  // When both caches overflow, the small one does not keep what the large one evicts.
  lemma DropBoth<V>(a: seq<Entry<V>>, b: seq<Entry<V>>)
    requires Thinned(a, b) && a != [] && b != []
    ensures Thinned(a[1..], b[1..])
  {
    if Thinned(a, b[1..]) {
      ThinnedTail(a, b[1..]);
    }
  }

  // Running one trace on a small and on a large cache keeps the small one a thinned
  // copy of the large one, although reads that only the large one can serve reorder
  // it; so every hit of the small cache is a hit of the large one, with the same value.
  lemma {:induction false} NoSizeAnomaly<V>(ops: seq<Op<V>>, n: nat, m: nat)
    requires n <= m
    ensures Nested(After(ops, n), After(ops, m), n, m)
    ensures forall k | Lookup(After(ops, n), k).Some? :: Lookup(After(ops, m), k) == Lookup(After(ops, n), k)
    decreases |ops|
  {
    if ops != [] {
      var before := ops[..|ops| - 1];
      NoSizeAnomaly(before, n, m);
      match ops[|ops| - 1]
      case Get(k) => TouchKeeps(After(before, n), After(before, m), n, m, k);
      case Set(k, v) => StoreKeeps(After(before, n), After(before, m), n, m, k, v);
      case Clear =>
    }
    forall k | Lookup(After(ops, n), k).Some?
      ensures Lookup(After(ops, m), k) == Lookup(After(ops, n), k)
    {
      ThinnedLookup(After(ops, n), After(ops, m), k);
    }
  }

  /* ---------- a cache that is large enough is a dictionary ---------- */

  function Dictionary<V>(ops: seq<Op<V>>): map<Key, V>
    decreases |ops|
  {
    if ops == [] then map[]
    else
      var before := Dictionary(ops[..|ops| - 1]);
      match ops[|ops| - 1]
      case Get(_) => before
      case Set(k, v) => before[k := v]
      case Clear => map[]
  }

  ghost predicate Mirrors<V>(order: seq<Entry<V>>, d: map<Key, V>) {
    Distinct(order) && forall k :: Lookup(order, k) == if k in d then Some(d[k]) else None
  }

  // At every moment of the trace the dictionary fits the cache.
  ghost predicate Roomy<V>(ops: seq<Op<V>>, maxsize: nat)
    decreases |ops|
  {
    |Dictionary(ops)| <= maxsize && (ops == [] || Roomy(ops[..|ops| - 1], maxsize))
  }

  lemma {:induction false} LookupAppend<V>(order: seq<Entry<V>>, e: Entry<V>, k: Key)
    ensures Lookup(order + [e], k) == if Has(order, k) then Lookup(order, k) else if e.key == k then Some(e.value) else None
    decreases |order|
  {
    if order == [] {
      assert order + [e] == [e];
    } else {
      assert (order + [e])[1..] == order[1..] + [e];
      LookupAppend(order[1..], e, k);
    }
  }

  lemma {:induction false} LookupWithout<V>(order: seq<Entry<V>>, k: Key, x: Key)
    requires x != k
    ensures Lookup(Without(order, k), x) == Lookup(order, x)
  {
    if order != [] {
      LookupHead(order[0], order[1..], x);
      assert [order[0]] + order[1..] == order;
      if order[0].key != k {
        LookupWithout(order[1..], k, x);
        LookupHead(order[0], Without(order[1..], k), x);
      }
    }
  }

  lemma LookupHead<V>(e: Entry<V>, rest: seq<Entry<V>>, x: Key)
    ensures Lookup([e] + rest, x) == if e.key == x then Some(e.value) else Lookup(rest, x)
  {
    assert ([e] + rest)[1..] == rest;
  }

  // Storing at the end: the write shows, nothing else changes.
  lemma LookupStored<V>(order: seq<Entry<V>>, k: Key, v: V, x: Key)
    requires Distinct(order)
    ensures Lookup(Without(order, k) + [Entry(k, v)], x) == if x == k then Some(v) else Lookup(order, x)
  {
    WithoutFacts(order, k);
    LookupAppend(Without(order, k), Entry(k, v), x);
    if x != k {
      LookupWithout(order, k, x);
    }
  }

  lemma LookupTouched<V>(order: seq<Entry<V>>, k: Key, x: Key)
    requires Distinct(order)
    ensures Lookup(Touch(order, k), x) == Lookup(order, x)
  {
    var i := IndexOf(order, k);
    if i < |order| {
      LookupStored(order, k, order[i].value, x);
    }
  }

  lemma StoredIsDistinct<V>(order: seq<Entry<V>>, k: Key, v: V)
    requires Distinct(order)
    ensures Distinct(Without(order, k) + [Entry(k, v)])
  {
    WithoutFacts(order, k);
  }

  lemma MirrorsSize<V>(order: seq<Entry<V>>, d: map<Key, V>)
    requires Mirrors(order, d)
    ensures |order| == |d|
  {
    var keys := set i | 0 <= i < |order| :: order[i].key;
    forall k
      ensures k in keys <==> k in d
    {
      assert Lookup(order, k).Some? == (IndexOf(order, k) < |order|);
      if i :| 0 <= i < |order| && order[i].key == k {
        assert IndexOf(order, k) < |order|;
      }
    }
    assert keys == d.Keys;
    KeyCount(order);
  }

  lemma {:induction false} KeyCount<V>(order: seq<Entry<V>>)
    requires Distinct(order)
    ensures |set i | 0 <= i < |order| :: order[i].key| == |order|
    decreases |order|
  {
    if order != [] {
      var rest := order[..|order| - 1];
      KeyCount(rest);
      var before := set i | 0 <= i < |rest| :: rest[i].key;
      var last := order[|order| - 1].key;
      assert (set i | 0 <= i < |order| :: order[i].key) == before + {last};
      assert last !in before;
    }
  }

  lemma TouchMirrors<V>(order: seq<Entry<V>>, d: map<Key, V>, k: Key)
    requires Mirrors(order, d)
    ensures Mirrors(Touch(order, k), d)
  {
    forall x
      ensures Lookup(Touch(order, k), x) == Lookup(order, x)
    {
      LookupTouched(order, k, x);
    }
    if Has(order, k) {
      StoredIsDistinct(order, k, order[IndexOf(order, k)].value);
    }
  }

  lemma StoreMirrors<V>(order: seq<Entry<V>>, d: map<Key, V>, k: Key, v: V, maxsize: nat)
    requires Mirrors(order, d) && |d[k := v]| <= maxsize
    ensures Mirrors(Store(order, k, v, maxsize), d[k := v])
  {
    var stored := Without(order, k) + [Entry(k, v)];
    forall x
      ensures Lookup(stored, x) == if x == k then Some(v) else Lookup(order, x)
    {
      LookupStored(order, k, v, x);
    }
    StoredIsDistinct(order, k, v);
    assert Mirrors(stored, d[k := v]);
    MirrorsSize(stored, d[k := v]);
  }

  // While its capacity is not exceeded the cache answers as a plain dictionary.
  lemma {:induction false} RoomyCacheIsADictionary<V>(ops: seq<Op<V>>, maxsize: nat)
    requires Roomy(ops, maxsize)
    ensures Mirrors(After(ops, maxsize), Dictionary(ops))
    decreases |ops|
  {
    if ops != [] {
      var before := ops[..|ops| - 1];
      RoomyCacheIsADictionary(before, maxsize);
      match ops[|ops| - 1]
      case Get(k) => TouchMirrors(After(before, maxsize), Dictionary(before), k);
      case Set(k, v) => StoreMirrors(After(before, maxsize), Dictionary(before), k, v, maxsize);
      case Clear =>
    }
  }
}
