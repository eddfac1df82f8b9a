/**
 Which keys a full cache keeps: recency is read off the trace of operations, where a
 write uses its key and a read does if the key is still held, and the cache holds
 just the keys used most recently, each with the value last written.
 */
module LruRecency {
  import opened Options
  import opened LruCache

  /* ---------- recency, read off the trace ---------- */

  function KeySet(s: seq<Key>): set<Key> {
    set k | k in s
  }

  function LastUse(uses: seq<Key>, k: Key): (i: nat)
    requires k in uses
    ensures i < |uses| && uses[i] == k
  {
    if uses[|uses| - 1] == k then |uses| - 1 else LastUse(uses[..|uses| - 1], k)
  }

  // x was last used before y was.
  predicate Older(uses: seq<Key>, x: Key, y: Key) {
    x in uses && y in uses && LastUse(uses, x) < LastUse(uses, y)
  }

  // Fewer than n other keys have been used since k was.
  predicate Recent(uses: seq<Key>, k: Key, n: nat) {
    k in uses && |KeySet(uses[LastUse(uses, k) + 1..])| < n
  }

  // The keys used since the cache was last cleared, in order and with repetitions.
  function Uses<V>(ops: seq<Op<V>>, maxsize: nat): seq<Key>
    decreases |ops|
  {
    if ops == [] then []
    else
      var before := Uses(ops[..|ops| - 1], maxsize);
      match ops[|ops| - 1]
      case Get(k) => if Recent(before, k, maxsize) then before + [k] else before
      case Set(k, _) => before + [k]
      case Clear => []
  }

  // Of the keys used, the n whose last use is latest, oldest first.
  ghost predicate MostRecent(keys: seq<Key>, uses: seq<Key>, n: nat) {
    && |keys| == Min(n, |KeySet(uses)|)
    && InOrder(keys, uses) && OthersAreOlder(keys, uses)
  }

  ghost predicate InOrder(keys: seq<Key>, uses: seq<Key>) {
    && (forall i | 0 <= i < |keys| :: keys[i] in uses)
    && (forall i, j {:trigger Older(uses, keys[i], keys[j])} | 0 <= i < j < |keys| :: Older(uses, keys[i], keys[j]))
  }

  ghost predicate OthersAreOlder(keys: seq<Key>, uses: seq<Key>) {
    forall k, i {:trigger Older(uses, k, keys[i])} | k in uses && k !in keys && 0 <= i < |keys| :: Older(uses, k, keys[i])
  }

  /* ---------- the cache keeps them ---------- */

  function KeysOf<V>(order: seq<Entry<V>>): (keys: seq<Key>)
    ensures |keys| == |order| && forall i | 0 <= i < |order| :: keys[i] == order[i].key
  {
    seq(|order|, i requires 0 <= i < |order| => order[i].key)
  }

  // The keys without k.
  function Remove(keys: seq<Key>, k: Key): seq<Key> {
    if keys == [] then [] else if keys[0] == k then keys[1..] else [keys[0]] + Remove(keys[1..], k)
  }

  lemma KeysHead<V>(e: Entry<V>, rest: seq<Entry<V>>)
    ensures KeysOf([e] + rest) == [e.key] + KeysOf(rest)
  {
  }

  lemma RemoveHead(x: Key, rest: seq<Key>, k: Key)
    ensures Remove([x] + rest, k) == if x == k then rest else [x] + Remove(rest, k)
  {
    assert ([x] + rest)[1..] == rest;
  }

  lemma {:induction false} KeysWithout<V>(order: seq<Entry<V>>, k: Key)
    ensures KeysOf(Without(order, k)) == Remove(KeysOf(order), k)
  {
    if order != [] {
      var e, rest := order[0], order[1..];
      assert order == [e] + rest;
      KeysHead(e, rest);
      RemoveHead(e.key, KeysOf(rest), k);
      if e.key != k {
        KeysWithout(rest, k);
        KeysHead(e, Without(rest, k));
      }
    }
  }

  lemma HasItsKey<V>(order: seq<Entry<V>>, k: Key)
    ensures Has(order, k) <==> k in KeysOf(order)
  {
    var i := IndexOf(order, k);
    if i < |order| {
      assert KeysOf(order)[i] == k;
    }
  }

  predicate NoRepeats(keys: seq<Key>) {
    forall i, j | 0 <= i < j < |keys| :: keys[i] != keys[j]
  }

  // Where k stands first, or the length.
  function Place(keys: seq<Key>, k: Key): (at: nat)
    ensures at <= |keys| && if at < |keys| then keys[at] == k else k !in keys
  {
    if keys == [] then 0
    else if keys[0] == k then 0
    else
      assert keys == [keys[0]] + keys[1..];
      1 + Place(keys[1..], k)
  }

  function CutAt(keys: seq<Key>, at: nat): seq<Key>
    requires at <= |keys|
  {
    if at < |keys| then keys[..at] + keys[at + 1..] else keys
  }

  lemma CutLater(x: Key, rest: seq<Key>, at: nat)
    requires at <= |rest|
    ensures CutAt([x] + rest, at + 1) == [x] + CutAt(rest, at)
  {
  }

  lemma {:induction false} RemoveCuts(keys: seq<Key>, k: Key)
    ensures Remove(keys, k) == CutAt(keys, Place(keys, k))
  {
    if keys != [] && keys[0] != k {
      RemoveCuts(keys[1..], k);
      CutLater(keys[0], keys[1..], Place(keys[1..], k));
      assert [keys[0]] + keys[1..] == keys;
    }
  }

  lemma LastUseNext(uses: seq<Key>, k: Key, x: Key)
    ensures LastUse(uses + [k], k) == |uses|
    ensures x != k ==> (x in uses + [k] <==> x in uses)
    ensures x != k && x in uses ==> LastUse(uses + [k], x) == LastUse(uses, x)
  {
    assert (uses + [k])[..|uses|] == uses;
  }

  lemma OlderNext(uses: seq<Key>, k: Key, x: Key, y: Key)
    requires x != k && x in uses && (y == k || Older(uses, x, y))
    ensures Older(uses + [k], x, y)
  {
    LastUseNext(uses, k, x);
    LastUseNext(uses, k, y);
  }

  lemma KeySetNext(uses: seq<Key>, k: Key)
    ensures KeySet(uses + [k]) == KeySet(uses) + {k}
  {
  }

  lemma {:induction false} LastUseIsLast(uses: seq<Key>, k: Key, p: nat)
    requires p < |uses| && uses[p] == k
    ensures p <= LastUse(uses, k)
  {
    if uses[|uses| - 1] != k {
      LastUseIsLast(uses[..|uses| - 1], k, p);
    }
  }

  lemma UsedSince(uses: seq<Key>, k: Key, x: Key)
    requires k in uses
    ensures x in KeySet(uses[LastUse(uses, k) + 1..]) <==> x in uses && LastUse(uses, x) > LastUse(uses, k)
  {
    var last := LastUse(uses, k);
    if x in uses && LastUse(uses, x) > last {
      assert uses[last + 1..][LastUse(uses, x) - last - 1] == x;
    }
    if x in uses[last + 1..] {
      var p :| 0 <= p < |uses| - last - 1 && uses[last + 1..][p] == x;
      LastUseIsLast(uses, x, last + 1 + p);
    }
  }

  lemma {:induction false} SizeOfKeys(keys: seq<Key>)
    requires NoRepeats(keys)
    ensures |KeySet(keys)| == |keys|
  {
    if keys != [] {
      SizeOfKeys(keys[1..]);
      assert KeySet(keys) == {keys[0]} + KeySet(keys[1..]);
    }
  }

  lemma {:induction false} Smaller(a: set<Key>, b: set<Key>)
    requires a <= b
    ensures |a| <= |b| && (|a| == |b| ==> a == b)
    decreases |a|
  {
    if x :| x in a {
      Smaller(a - {x}, b - {x});
      assert a == (a - {x}) + {x} && b == (b - {x}) + {x};
    } else if b != {} {
      assert |b| > 0;
    }
  }

  lemma KeysDoNotRepeat(keys: seq<Key>, uses: seq<Key>, n: nat)
    requires MostRecent(keys, uses, n)
    ensures NoRepeats(keys) && |KeySet(keys)| == |keys| && KeySet(keys) <= KeySet(uses)
  {
    forall i, j | 0 <= i < j < |keys|
      ensures keys[i] != keys[j]
    {
      assert Older(uses, keys[i], keys[j]);
    }
    SizeOfKeys(keys);
  }

  // A key that was used and is not among the n latest: they are n.
  lemma MissedByN(keys: seq<Key>, uses: seq<Key>, n: nat, k: Key)
    requires MostRecent(keys, uses, n) && k in uses && k !in keys
    ensures |keys| == n
  {
    KeysDoNotRepeat(keys, uses, n);
    Smaller(KeySet(keys), KeySet(uses));
    assert k in KeySet(uses) && k !in KeySet(keys);
  }

  lemma HeldIsRecent(keys: seq<Key>, uses: seq<Key>, n: nat, k: Key)
    requires MostRecent(keys, uses, n)
    ensures k in keys <==> Recent(uses, k, n)
  {
    KeysDoNotRepeat(keys, uses, n);
    if k in keys {
      var j :| 0 <= j < |keys| && keys[j] == k;
      LaterKeysCover(keys, uses, n, j);
    } else if k in uses {
      MissedByN(keys, uses, n, k);
      AllKeysAreLater(keys, uses, n, k);
    }
  }

  lemma LaterKeysCover(keys: seq<Key>, uses: seq<Key>, n: nat, j: nat)
    requires MostRecent(keys, uses, n) && NoRepeats(keys) && j < |keys|
    ensures |KeySet(uses[LastUse(uses, keys[j]) + 1..])| < |keys|
  {
    var since := KeySet(uses[LastUse(uses, keys[j]) + 1..]);
    forall x | x in since
      ensures x in KeySet(keys[j + 1..])
    {
      UsedSince(uses, keys[j], x);
      if x !in keys[j + 1..] {
        EarlierKey(keys, uses, n, j, x);
      }
    }
    Smaller(since, KeySet(keys[j + 1..]));
    SizeOfKeys(keys[j + 1..]);
  }

  lemma InTail(keys: seq<Key>, j: nat, i: nat)
    requires j < |keys| && i < |keys|
    ensures i > j ==> keys[i] in keys[j + 1..]
  {
    if i > j {
      assert keys[j + 1..][i - j - 1] == keys[i];
    }
  }

  lemma EarlierKey(keys: seq<Key>, uses: seq<Key>, n: nat, j: nat, x: Key)
    requires MostRecent(keys, uses, n) && j < |keys| && x in uses && x !in keys[j + 1..]
    ensures !Older(uses, keys[j], x)
  {
    if x in keys {
      var i :| 0 <= i < |keys| && keys[i] == x;
      InTail(keys, j, i);
      assert i < j ==> Older(uses, keys[i], keys[j]);
    } else {
      assert Older(uses, x, keys[j]);
    }
  }

  lemma AllKeysAreLater(keys: seq<Key>, uses: seq<Key>, n: nat, k: Key)
    requires MostRecent(keys, uses, n) && NoRepeats(keys) && k in uses && k !in keys
    ensures |KeySet(uses[LastUse(uses, k) + 1..])| >= |keys|
  {
    var since := KeySet(uses[LastUse(uses, k) + 1..]);
    forall x | x in KeySet(keys)
      ensures x in since
    {
      var i :| 0 <= i < |keys| && keys[i] == x;
      assert Older(uses, k, keys[i]);
      UsedSince(uses, k, x);
    }
    Smaller(KeySet(keys), since);
    SizeOfKeys(keys);
  }

  /* ---------- one use ---------- */

  // The keys after a use of k, with the oldest evicted on overflow.
  function Used(keys: seq<Key>, k: Key, n: nat): seq<Key> {
    var moved := Remove(keys, k) + [k];
    if |moved| > n then moved[1..] else moved
  }

  // What moving k, which stands at `at` if anywhere, to the end makes of the keys.
  ghost predicate Moved(keys: seq<Key>, moved: seq<Key>, k: Key, at: nat) {
    && NoRepeats(keys) && at <= |keys|
    && (if at < |keys| then keys[at] == k else k !in keys)
    && |moved| == |keys| + (if at < |keys| then 0 else 1) && moved != [] && moved[|moved| - 1] == k
    && forall i | 0 <= i < |moved| - 1 :: moved[i] == keys[Was(i, at)]
  }

  function Was(i: nat, at: nat): nat { if i < at then i else i + 1 }

  lemma RemoveMoves(keys: seq<Key>, k: Key)
    requires NoRepeats(keys)
    ensures Moved(keys, Remove(keys, k) + [k], k, Place(keys, k))
  {
    var at := Place(keys, k);
    RemoveCuts(keys, k);
    forall i | 0 <= i < |CutAt(keys, at)|
      ensures (CutAt(keys, at) + [k])[i] == keys[Was(i, at)]
    {
      KeptAt(keys, at, i);
    }
  }

  lemma KeptAt(keys: seq<Key>, at: nat, i: nat)
    requires at <= |keys| && i < |CutAt(keys, at)|
    ensures Was(i, at) < |keys| && CutAt(keys, at)[i] == keys[Was(i, at)]
  {
  }

  lemma MovedKeeps(keys: seq<Key>, moved: seq<Key>, k: Key, at: nat, x: Key)
    requires Moved(keys, moved, k, at) && x in keys
    ensures x in moved
  {
    var p :| 0 <= p < |keys| && keys[p] == x;
    if p != at {
      var i := if p < at then p else p - 1;
      assert Was(i, at) == p && moved[i] == x;
    }
  }

  lemma MovedIncreases(keys: seq<Key>, moved: seq<Key>, uses: seq<Key>, k: Key, at: nat, i: nat, j: nat)
    requires InOrder(keys, uses) && Moved(keys, moved, k, at) && i < j < |moved|
    ensures Older(uses + [k], moved[i], moved[j])
  {
    assert moved[i] == keys[Was(i, at)];
    if j < |moved| - 1 {
      assert moved[j] == keys[Was(j, at)];
      assert Older(uses, keys[Was(i, at)], keys[Was(j, at)]);
    }
    OlderNext(uses, k, moved[i], moved[j]);
  }

  lemma MovedIsUsed(keys: seq<Key>, moved: seq<Key>, uses: seq<Key>, k: Key, at: nat, i: nat)
    requires InOrder(keys, uses) && Moved(keys, moved, k, at) && i < |moved|
    ensures moved[i] in uses + [k]
  {
    if i < |moved| - 1 {
      assert moved[i] == keys[Was(i, at)];
    }
  }

  lemma MovedInOrder(keys: seq<Key>, moved: seq<Key>, uses: seq<Key>, k: Key, at: nat)
    requires InOrder(keys, uses) && Moved(keys, moved, k, at)
    ensures InOrder(moved, uses + [k])
  {
    forall i | 0 <= i < |moved|
      ensures moved[i] in uses + [k]
    {
      MovedIsUsed(keys, moved, uses, k, at, i);
    }
    forall i, j | 0 <= i < j < |moved|
      ensures Older(uses + [k], moved[i], moved[j])
    {
      MovedIncreases(keys, moved, uses, k, at, i, j);
    }
  }

  lemma MissedIsOlder(keys: seq<Key>, moved: seq<Key>, uses: seq<Key>, k: Key, at: nat, x: Key, i: nat)
    requires OthersAreOlder(keys, uses) && Moved(keys, moved, k, at)
    requires x in uses + [k] && x !in moved && i < |moved|
    ensures Older(uses + [k], x, moved[i])
  {
    assert x != k && x in uses;
    if x in keys {
      MovedKeeps(keys, moved, k, at, x);
    }
    if i < |moved| - 1 {
      assert moved[i] == keys[Was(i, at)];
      assert Older(uses, x, keys[Was(i, at)]);
    }
    OlderNext(uses, k, x, moved[i]);
  }

  lemma MovedSize(keys: seq<Key>, uses: seq<Key>, k: Key, n: nat)
    requires MostRecent(keys, uses, n)
    ensures var size := |keys| + (if k in keys then 0 else 1);
            (if size > n then size - 1 else size) == Min(n, |KeySet(uses + [k])|)
  {
    KeySetNext(uses, k);
    if k in uses {
      assert KeySet(uses) + {k} == KeySet(uses);
      if k !in keys {
        MissedByN(keys, uses, n, k);
      }
    } else {
      assert |KeySet(uses) + {k}| == |KeySet(uses)| + 1;
    }
  }

  // Moving the used key to the end and dropping the oldest on overflow keeps the most
  // recently used.
  lemma UseKeeps(keys: seq<Key>, uses: seq<Key>, k: Key, n: nat)
    requires MostRecent(keys, uses, n)
    ensures MostRecent(Used(keys, k, n), uses + [k], n)
  {
    KeysDoNotRepeat(keys, uses, n);
    var moved := Remove(keys, k) + [k];
    var at := Place(keys, k);
    RemoveMoves(keys, k);
    MovedInOrder(keys, moved, uses, k, at);
    forall x, i | x in uses + [k] && x !in moved && 0 <= i < |moved|
      ensures Older(uses + [k], x, moved[i])
    {
      MissedIsOlder(keys, moved, uses, k, at, x, i);
    }
    MovedSize(keys, uses, k, n);
    if |moved| > n {
      DropOldest(moved, uses + [k]);
    }
  }

  lemma DropOldest(moved: seq<Key>, uses: seq<Key>)
    requires moved != [] && InOrder(moved, uses) && OthersAreOlder(moved, uses)
    ensures InOrder(moved[1..], uses) && OthersAreOlder(moved[1..], uses)
  {
    var rest := moved[1..];
    forall i, j | 0 <= i < j < |rest|
      ensures Older(uses, rest[i], rest[j])
    {
      assert Older(uses, moved[i + 1], moved[j + 1]);
    }
    forall x, i | x in uses && x !in rest && 0 <= i < |rest|
      ensures Older(uses, x, rest[i])
    {
      assert moved == [moved[0]] + rest;
      assert x == moved[0] || x !in moved;
      assert Older(uses, x, moved[i + 1]);
    }
  }

  /* ---------- whole traces ---------- */

  lemma KeysStored<V>(order: seq<Entry<V>>, k: Key, v: V, n: nat)
    ensures KeysOf(Store(order, k, v, n)) == Used(KeysOf(order), k, n)
  {
    KeysWithout(order, k);
    var stored := Without(order, k) + [Entry(k, v)];
    assert KeysOf(stored) == Remove(KeysOf(order), k) + [k];
    assert KeysOf(stored[1..]) == KeysOf(stored)[1..];
  }

  lemma KeysTouched<V>(order: seq<Entry<V>>, k: Key, n: nat)
    requires Has(order, k) && |order| <= n && Distinct(order)
    ensures KeysOf(Touch(order, k)) == Used(KeysOf(order), k, n)
  {
    KeysWithout(order, k);
    WithoutFacts(order, k);
    var e := order[IndexOf(order, k)];
    assert KeysOf(Without(order, k) + [e]) == Remove(KeysOf(order), k) + [k];
  }

  // On every trace, at every capacity, the cache holds just the keys used most
  // recently, oldest first, each with the value last written.
  lemma {:induction false} HoldsTheMostRecent<V>(ops: seq<Op<V>>, n: nat)
    ensures Distinct(After(ops, n)) && MostRecent(KeysOf(After(ops, n)), Uses(ops, n), n)
    ensures forall k | Lookup(After(ops, n), k).Some? ::
              k in Dictionary(ops) && Lookup(After(ops, n), k).value == Dictionary(ops)[k]
    decreases |ops|
  {
    if ops != [] {
      var before := ops[..|ops| - 1];
      HoldsTheMostRecent(before, n);
      var order := After(before, n);
      match ops[|ops| - 1]
      case Get(k) => TouchKeepsRecent(order, Uses(before, n), Dictionary(before), k, n);
      case Set(k, v) => StoreKeepsRecent(order, Uses(before, n), Dictionary(before), k, v, n);
      case Clear => assert KeySet([]) == {};
    } else {
      assert KeySet([]) == {};
    }
  }

  ghost predicate Holds<V>(order: seq<Entry<V>>, uses: seq<Key>, d: map<Key, V>, n: nat) {
    && Distinct(order) && MostRecent(KeysOf(order), uses, n)
    && (forall k | Lookup(order, k).Some? :: k in d && Lookup(order, k).value == d[k])
  }

  lemma TouchKeepsRecent<V>(order: seq<Entry<V>>, uses: seq<Key>, d: map<Key, V>, k: Key, n: nat)
    requires Holds(order, uses, d, n)
    ensures Holds(Touch(order, k), if Recent(uses, k, n) then uses + [k] else uses, d, n)
  {
    HasItsKey(order, k);
    HeldIsRecent(KeysOf(order), uses, n, k);
    if Has(order, k) {
      KeysTouched(order, k, n);
      UseKeeps(KeysOf(order), uses, k, n);
      StoredIsDistinct(order, k, order[IndexOf(order, k)].value);
      forall x
        ensures Lookup(Touch(order, k), x) == Lookup(order, x)
      {
        LookupTouched(order, k, x);
      }
    }
  }

  lemma StoreKeepsRecent<V>(order: seq<Entry<V>>, uses: seq<Key>, d: map<Key, V>, k: Key, v: V, n: nat)
    requires Holds(order, uses, d, n)
    ensures Holds(Store(order, k, v, n), uses + [k], d[k := v], n)
  {
    KeysStored(order, k, v, n);
    UseKeeps(KeysOf(order), uses, k, n);
    StoredIsDistinct(order, k, v);
    forall x | Lookup(Store(order, k, v, n), x).Some?
      ensures x in d[k := v] && Lookup(Store(order, k, v, n), x).value == d[k := v][x]
    {
      StoredLookup(order, k, v, n, x);
    }
  }

  lemma StoredLookup<V>(order: seq<Entry<V>>, k: Key, v: V, n: nat, x: Key)
    requires Distinct(order) && Lookup(Store(order, k, v, n), x).Some?
    ensures Lookup(Store(order, k, v, n), x) == if x == k then Some(v) else Lookup(order, x)
  {
    var stored := Without(order, k) + [Entry(k, v)];
    LookupStored(order, k, v, x);
    StoredIsDistinct(order, k, v);
    if |stored| > n {
      LookupTail(stored, x);
    }
  }

  lemma LookupTail<V>(order: seq<Entry<V>>, x: Key)
    requires Distinct(order) && order != [] && Lookup(order[1..], x).Some?
    ensures Lookup(order[1..], x) == Lookup(order, x)
  {
    assert order[1..][IndexOf(order[1..], x)].key == x;
    LookupHead(order[0], order[1..], x);
    assert [order[0]] + order[1..] == order;
  }

  // A key just written is found with its value, however full the cache was.
  lemma JustWrittenIsHeld<V>(ops: seq<Op<V>>, k: Key, v: V, n: nat)
    requires n > 0
    ensures Lookup(After(ops + [Set(k, v)], n), k) == Some(v)
  {
    var all := ops + [Set(k, v)];
    assert all[..|ops|] == ops;
    HoldsTheMostRecent(all, n);
    assert Uses(all, n) == Uses(ops, n) + [k];
    LastUseNext(Uses(ops, n), k, k);
    HeldIsRecent(KeysOf(After(all, n)), Uses(all, n), n, k);
    HasItsKey(After(all, n), k);
    assert Uses(all, n)[|Uses(ops, n)| + 1..] == [] && KeySet([]) == {};
  }
}
