/** MaxMemoryCache (cache/HW_memory_limit): a wrapper around another cache that
    keeps the total size of the stored values within a byte budget. It counts
    the bytes it has let in (`used`), lists the keys from least to most
    recently used (`keys`) and, before storing, deletes keys from the head of
    that list until the new value fits. It learns of every removal through the
    inner cache's eviction callback.

    The inner cache is modelled as a map from key to value that removes an
    entry on Delete and LoadAndDelete and then fires the callback with the
    removed value. */
module MaxMemory {
  import opened Wrappers

  newtype byte = b: int | 0 <= b < 256

  /** The errors a Set or Get can return: the inner cache's miss, and the
      list's index error when the key list is empty but the value still does
      not fit. */
  datatype CacheError = NotFound | IndexOutOfRange(length: int, index: int)

  /** The wrapper's books: the byte count, the key list and the inner cache's entries. */
  datatype Ledger = Ledger(used: int, keys: seq<string>, data: map<string, seq<byte>>)

  predicate Distinct(s: seq<string>)
  {
    forall i, j :: 0 <= i < j < |s| ==> s[i] != s[j]
  }

  /** The key list has no duplicates and every listed key is held by the inner cache. */
  predicate Listed(l: Ledger)
  {
    Distinct(l.keys) && forall k :: k in l.keys ==> k in l.data
  }

  /** The total size of the listed keys' values. */
  function Size(keys: seq<string>, data: map<string, seq<byte>>): int
    requires forall k :: k in keys ==> k in data
  {
    if keys == [] then 0 else |data[keys[0]]| + Size(keys[1..], data)
  }

  /** The books are exact: the list names exactly the inner cache's keys, once
      each, and `used` is the sum of their sizes. */
  predicate Valid(l: Ledger)
  {
    Listed(l) && (forall k :: k in l.data ==> k in l.keys) && l.used == Size(l.keys, l.data)
  }

  /** The list without the first occurrence of k (deleteKey). */
  function RemoveFirst(s: seq<string>, k: string): seq<string>
  {
    if s == [] then [] else if s[0] == k then s[1..] else [s[0]] + RemoveFirst(s[1..], k)
  }

  /** evicted: the callback lowers `used` by the value's size and unlists the key. */
  function Evict(l: Ledger, key: string, val: seq<byte>): Ledger
  {
    Ledger(l.used - |val|, RemoveFirst(l.keys, key), l.data)
  }

  /** The inner cache's Delete (and LoadAndDelete): an entry it holds is removed
      and reported to the callback; an absent key changes nothing. */
  function Drop(l: Ledger, key: string): Ledger
  {
    if key in l.data then Evict(l.(data := l.data - {key}), key, l.data[key]) else l
  }

  /** The eviction loop of Set: while the new value does not fit, delete the
      head of the list; fails when the list is empty and it still does not fit. */
  function EvictFor(l: Ledger, need: nat, max: int): (Ledger, bool)
    requires Listed(l)
    decreases |l.keys|
  {
    if l.used + need <= max then (l, true)
    else if l.keys == [] then (l, false)
    else
      DropHead(l);
      EvictFor(Drop(l, l.keys[0]), need, max)
  }

  /** Set: the lazy-deletion check on the key, the eviction loop, then the inner
      Set; the books record the new value only when the inner Set accepts it,
      and the result is nil either way unless the eviction loop failed. */
  function SetLedger(l: Ledger, key: string, val: seq<byte>, accepted: bool, max: int): (Ledger, Option<CacheError>)
    requires Listed(l)
  {
    DropListed(l, key);
    var l1 := Drop(l, key);
    var (l2, ok) := EvictFor(l1, |val|, max);
    if !ok then (l2, Some(IndexOutOfRange(0, 0)))
    else if accepted then (Ledger(l2.used + |val|, l2.keys + [key], l2.data[key := val]), None)
    else (l2, None)
  }

  /** Get on a hit: the key moves to the tail of the list. */
  function Touch(l: Ledger, key: string): Ledger
  {
    l.(keys := RemoveFirst(l.keys, key) + [key])
  }

  // ------------------------------------------------------------ the cache

  class MaxMemoryCache {
    var max: int
    var used: int
    var keys: seq<string>
    /** The inner cache's entries. */
    var data: map<string, seq<byte>>

    function Books(): Ledger
      reads this
    {
      Ledger(used, keys, data)
    }

    /** NewMaxMemoryCache: nothing counted and nothing listed yet, whatever the
        inner cache holds. */
    constructor (max: int, inner: map<string, seq<byte>>)
      ensures this.max == max && used == 0 && keys == [] && data == inner
      ensures Listed(Books())
    {
      this.max, used, keys, data := max, 0, [], inner;
    }

    /** deleteKey: scans the list by index and removes the first occurrence. */
    method DeleteKey(key: string)
      modifies this
      ensures keys == RemoveFirst(old(keys), key)
      ensures max == old(max) && used == old(used) && data == old(data)
    {
      var i := 0;
      while i < |keys|
        invariant 0 <= i <= |keys| && keys == old(keys)
        invariant forall j :: 0 <= j < i ==> keys[j] != key
      {
        if keys[i] == key {
          RemoveFirstAt(keys, key, i);
          keys := keys[..i] + keys[i + 1..];
          return;
        }
        i := i + 1;
      }
      RemoveFirstAbsent(keys, key);
    }

    /** evicted: the callback the wrapper installs on the inner cache. */
    method Evicted(key: string, val: seq<byte>)
      modifies this
      ensures Books() == Evict(old(Books()), key, val) && max == old(max)
    {
      used := used - |val|;
      DeleteKey(key);
    }

    /** The inner cache's Delete, which reports the removed entry to the callback. */
    method InnerDelete(key: string)
      modifies this
      ensures Books() == Drop(old(Books()), key) && max == old(max)
    {
      if key in data {
        var val := data[key];
        data := data - {key};
        Evicted(key, val);
      }
    }

    /** The inner cache's LoadAndDelete: Delete that also returns the value. */
    method InnerLoadAndDelete(key: string) returns (r: Result<seq<byte>, CacheError>)
      modifies this
      ensures Books() == Drop(old(Books()), key) && max == old(max)
      ensures r == if key in old(data) then Success(old(data)[key]) else Failure(NotFound)
    {
      if key in data {
        r := Success(data[key]);
      } else {
        r := Failure(NotFound);
      }
      InnerDelete(key);
    }

    /** Set. `accepted` is the inner Set's outcome, which this model cannot see. */
    method Set(key: string, val: seq<byte>, accepted: bool) returns (err: Option<CacheError>)
      requires Listed(Books())
      modifies this
      ensures (Books(), err) == SetLedger(old(Books()), key, val, accepted, old(max)) && max == old(max)
      ensures Listed(Books())
      ensures Valid(old(Books())) ==> Valid(Books())
    {
      SetListed(Books(), key, val, accepted, max);
      if Valid(Books()) {
        SetValid(Books(), key, val, accepted, max);
      }
      DropListed(Books(), key);
      var _ := InnerLoadAndDelete(key);
      ghost var l1 := Books();
      while used + |val| > max
        invariant Listed(Books()) && max == old(max)
        invariant EvictFor(Books(), |val|, max) == EvictFor(l1, |val|, max)
        decreases |keys|
      {
        if |keys| == 0 {
          return Some(IndexOutOfRange(0, 0));
        }
        DropHead(Books());
        InnerDelete(keys[0]);
      }
      if accepted {
        data := data[key := val];
        used := used + |val|;
        keys := keys + [key];
      }
      return None;
    }

    /** Get: a hit moves the key to the tail of the list; a miss returns the
        inner cache's error and changes nothing. */
    method Get(key: string) returns (r: Result<seq<byte>, CacheError>)
      modifies this
      ensures r == if key in old(data) then Success(old(data)[key]) else Failure(NotFound)
      ensures Books() == if key in old(data) then Touch(old(Books()), key) else old(Books())
      ensures max == old(max)
      ensures Listed(old(Books())) ==> Listed(Books())
      ensures Valid(old(Books())) ==> Valid(Books())
    {
      if key in data {
        if Listed(Books()) {
          TouchListed(Books(), key);
        }
        if Valid(Books()) {
          TouchValid(Books(), key);
        }
      }
      if key in data {
        r := Success(data[key]);
        DeleteKey(key);
        keys := keys + [key];
      } else {
        r := Failure(NotFound);
      }
    }

    /** Delete: forwarded to the inner cache; always nil. */
    method Delete(key: string)
      modifies this
      ensures Books() == Drop(old(Books()), key) && max == old(max)
      ensures Listed(old(Books())) ==> Listed(Books())
      ensures Valid(old(Books())) ==> Valid(Books())
    {
      if Listed(Books()) {
        DropListed(Books(), key);
      }
      if Valid(Books()) {
        DropValid(Books(), key);
      }
      InnerDelete(key);
    }
  }

  // ------------------------------------------------------------ deleteKey

  /** The scan's stopping point: the first occurrence at index i. */
  lemma {:induction false} RemoveFirstAt(s: seq<string>, k: string, i: nat)
    requires i < |s| && s[i] == k && forall j :: 0 <= j < i ==> s[j] != k
    ensures RemoveFirst(s, k) == s[..i] + s[i + 1..]
  {
    if i > 0 {
      RemoveFirstAt(s[1..], k, i - 1);
      assert s[1..][..i - 1] == s[1..i];
      assert s[1..][i..] == s[i + 1..];
      assert [s[0]] + s[1..i] == s[..i];
    }
  }

  /** A key that is not listed leaves the list as it is. */
  lemma {:induction false} RemoveFirstAbsent(s: seq<string>, k: string)
    requires k !in s
    ensures RemoveFirst(s, k) == s
  {
    if s != [] {
      assert k !in s[1..] by {
        forall j | 0 <= j < |s[1..]| ensures s[1..][j] != k { assert s[1..][j] == s[j + 1]; }
      }
      RemoveFirstAbsent(s[1..], k);
      assert [s[0]] + s[1..] == s;
    }
  }

  /** deleteKey removes exactly one occurrence of a listed key and nothing else. */
  lemma {:induction false} RemoveFirstMultiset(s: seq<string>, k: string)
    ensures multiset(RemoveFirst(s, k)) == if k in s then multiset(s) - multiset{k} else multiset(s)
  {
    if s != [] {
      RemoveFirstMultiset(s[1..], k);
      assert s == [s[0]] + s[1..];
      assert k in s <==> s[0] == k || k in s[1..];
    }
  }

  /** Taking one entry out of a list without duplicates leaves no duplicates. */
  lemma DropAtDistinct(s: seq<string>, i: nat)
    requires i < |s| && Distinct(s)
    ensures Distinct(s[..i] + s[i + 1..])
  {
    var r := s[..i] + s[i + 1..];
    forall a, b | 0 <= a < b < |r| ensures r[a] != r[b] {
      var a' := if a < i then a else a + 1;
      var b' := if b < i then b else b + 1;
      assert r[a] == s[a'] && r[b] == s[b'];
    }
  }

  /** Taking entry i out of a list without duplicates leaves every other key listed. */
  lemma DropAtMembers(s: seq<string>, i: nat)
    requires i < |s| && Distinct(s)
    ensures forall x :: x in s[..i] + s[i + 1..] <==> x in s && x != s[i]
  {
    var r := s[..i] + s[i + 1..];
    forall x ensures x in r <==> x in s && x != s[i] {
      if x in r {
        var j :| 0 <= j < |r| && r[j] == x;
        var j' := if j < i then j else j + 1;
        assert s[j'] == x && j' != i;
      }
      if x in s && x != s[i] {
        var j :| 0 <= j < |s| && s[j] == x;
        if j < i { assert r[j] == x; } else { assert r[j - 1] == x; }
      }
    }
  }

  /** On a list without duplicates, the key is gone afterwards and no duplicate appears. */
  lemma RemoveFirstDistinct(s: seq<string>, k: string)
    requires Distinct(s)
    ensures Distinct(RemoveFirst(s, k)) && k !in RemoveFirst(s, k)
    ensures forall x :: x in RemoveFirst(s, k) <==> x in s && x != k
  {
    if k in s {
      var i :| 0 <= i < |s| && s[i] == k;
      RemoveFirstAt(s, k, i);
      DropAtDistinct(s, i);
      DropAtMembers(s, i);
    } else {
      RemoveFirstAbsent(s, k);
    }
  }

  // ------------------------------------------------------------ sizes

  lemma {:induction false} SizeFrame(keys: seq<string>, d1: map<string, seq<byte>>, d2: map<string, seq<byte>>)
    requires forall k :: k in keys ==> k in d1 && k in d2 && d1[k] == d2[k]
    ensures Size(keys, d1) == Size(keys, d2)
  {
    if keys != [] {
      SizeFrame(keys[1..], d1, d2);
    }
  }

  lemma {:induction false} SizeAppend(keys: seq<string>, k: string, data: map<string, seq<byte>>)
    requires forall x :: x in keys ==> x in data
    requires k in data
    ensures Size(keys + [k], data) == Size(keys, data) + |data[k]|
  {
    if keys != [] {
      assert (keys + [k])[1..] == keys[1..] + [k];
      SizeAppend(keys[1..], k, data);
    }
  }

  /** Unlisting the first occurrence of a key takes its size off the total. */
  lemma {:induction false} SizeRemoveFirst(keys: seq<string>, k: string, data: map<string, seq<byte>>)
    requires forall x :: x in keys ==> x in data
    requires k in keys
    ensures forall x :: x in RemoveFirst(keys, k) ==> x in data
    ensures Size(RemoveFirst(keys, k), data) == Size(keys, data) - |data[k]|
  {
    RemoveFirstMultiset(keys, k);
    assert forall x :: x in RemoveFirst(keys, k) ==> x in keys by {
      forall x | x in RemoveFirst(keys, k) ensures x in keys {
        assert x in multiset(RemoveFirst(keys, k));
      }
    }
    if keys[0] != k {
      assert k in keys[1..] by {
        var i :| 0 <= i < |keys| && keys[i] == k;
        assert keys[1..][i - 1] == k;
      }
      SizeRemoveFirst(keys[1..], k, data);
      assert RemoveFirst(keys, k)[1..] == RemoveFirst(keys[1..], k);
    }
  }

  // ------------------------------------------------------------ the books

  /** Deleting the head of the list shortens the list by that key. */
  lemma DropHead(l: Ledger)
    requires Listed(l) && |l.keys| > 0
    ensures Listed(Drop(l, l.keys[0])) && Drop(l, l.keys[0]).keys == l.keys[1..]
  {
    var d := Drop(l, l.keys[0]);
    forall k | k in d.keys ensures k in d.data {
      var j :| 0 <= j < |d.keys| && d.keys[j] == k;
      assert k == l.keys[j + 1] && k != l.keys[0];
    }
    forall a, b | 0 <= a < b < |d.keys| ensures d.keys[a] != d.keys[b] {
      assert d.keys[a] == l.keys[a + 1] && d.keys[b] == l.keys[b + 1];
    }
  }

  /** The inner cache's Delete keeps the list free of duplicates and of
      keys the inner cache no longer holds. */
  lemma DropListed(l: Ledger, key: string)
    requires Listed(l)
    ensures Listed(Drop(l, key)) && key !in Drop(l, key).keys && key !in Drop(l, key).data
  {
    RemoveFirstDistinct(l.keys, key);
  }

  /** When the books are exact, the inner cache's Delete keeps them exact. */
  lemma DropValid(l: Ledger, key: string)
    requires Valid(l)
    ensures Valid(Drop(l, key))
  {
    if key in l.data {
      DropListed(l, key);
      RemoveFirstDistinct(l.keys, key);
      SizeRemoveFirst(l.keys, key, l.data);
      SizeFrame(RemoveFirst(l.keys, key), l.data, l.data - {key});
    }
  }

  /** The eviction loop with exact books: it fails exactly when the value alone
      is over the budget, and on success the value fits. */
  lemma {:induction false} EvictForValid(l: Ledger, need: nat, max: int)
    requires Valid(l)
    ensures Valid(EvictFor(l, need, max).0)
    ensures EvictFor(l, need, max).1 <==> need <= max
    ensures EvictFor(l, need, max).1 ==> EvictFor(l, need, max).0.used + need <= max
    decreases |l.keys|
  {
    SizeNonNegative(l.keys, l.data);
    if l.used + need > max && l.keys != [] {
      DropHead(l);
      DropValid(l, l.keys[0]);
      EvictForValid(Drop(l, l.keys[0]), need, max);
    }
  }

  /** The eviction loop deletes keys oldest first: what is left of the list is
      a suffix of it, and the inner cache only loses entries. */
  lemma {:induction false} EvictForOldestFirst(l: Ledger, need: nat, max: int)
    requires Listed(l)
    ensures |EvictFor(l, need, max).0.keys| <= |l.keys|
    ensures EvictFor(l, need, max).0.keys == l.keys[|l.keys| - |EvictFor(l, need, max).0.keys|..]
    ensures EvictFor(l, need, max).0.data.Keys <= l.data.Keys
    decreases |l.keys|
  {
    if l.used + need > max && l.keys != [] {
      DropHead(l);
      var d := Drop(l, l.keys[0]);
      EvictForOldestFirst(d, need, max);
      var r := EvictFor(d, need, max).0;
      assert d.keys == l.keys[1..];
      assert r.keys == d.keys[|d.keys| - |r.keys|..];
    }
  }

  lemma {:induction false} SizeNonNegative(keys: seq<string>, data: map<string, seq<byte>>)
    requires forall k :: k in keys ==> k in data
    ensures Size(keys, data) >= 0
  {
    if keys != [] {
      SizeNonNegative(keys[1..], data);
    }
  }

  /** The inner Set's success recorded: the key at the tail and its size counted. */
  lemma StoreValid(l: Ledger, key: string, val: seq<byte>)
    requires Valid(l) && key !in l.data
    ensures Valid(Ledger(l.used + |val|, l.keys + [key], l.data[key := val]))
  {
    var r := Ledger(l.used + |val|, l.keys + [key], l.data[key := val]);
    assert Distinct(r.keys);
    SizeFrame(l.keys, l.data, r.data);
    SizeAppend(l.keys, key, r.data);
  }

  /** Set with exact books keeps them exact; it fails exactly when the value is
      larger than the whole budget; after a successful Set the total is within
      the budget, and an accepted value is stored under its key at the tail of
      the list. */
  lemma SetValid(l: Ledger, key: string, val: seq<byte>, accepted: bool, max: int)
    requires Valid(l)
    ensures Valid(SetLedger(l, key, val, accepted, max).0)
    ensures SetLedger(l, key, val, accepted, max).1.Some? <==> |val| > max
    ensures SetLedger(l, key, val, accepted, max).1.None? ==> SetLedger(l, key, val, accepted, max).0.used <= max
    ensures SetLedger(l, key, val, accepted, max).1.None? && accepted ==>
              var r := SetLedger(l, key, val, accepted, max).0;
              key in r.data && r.data[key] == val && r.keys[|r.keys| - 1] == key
  {
    DropListed(l, key);
    DropValid(l, key);
    var l1 := Drop(l, key);
    EvictForValid(l1, |val|, max);
    EvictForOldestFirst(l1, |val|, max);
    var (l2, ok) := EvictFor(l1, |val|, max);
    SizeNonNegative(l2.keys, l2.data);
    if ok && accepted {
      StoreValid(l2, key, val);
    }
  }

  /** The eviction loop keeps the list free of duplicates and of keys the
      inner cache no longer holds. */
  lemma {:induction false} EvictForListed(l: Ledger, need: nat, max: int)
    requires Listed(l)
    ensures Listed(EvictFor(l, need, max).0)
    decreases |l.keys|
  {
    if l.used + need > max && l.keys != [] {
      DropHead(l);
      EvictForListed(Drop(l, l.keys[0]), need, max);
    }
  }

  /** Set keeps the list free of duplicates and of keys the inner cache does
      not hold, whether or not the books were exact before. */
  lemma SetListed(l: Ledger, key: string, val: seq<byte>, accepted: bool, max: int)
    requires Listed(l)
    ensures Listed(SetLedger(l, key, val, accepted, max).0)
  {
    DropListed(l, key);
    var l1 := Drop(l, key);
    EvictForListed(l1, |val|, max);
    EvictForOldestFirst(l1, |val|, max);
    var (l2, ok) := EvictFor(l1, |val|, max);
    if ok && accepted {
      var r := Ledger(l2.used + |val|, l2.keys + [key], l2.data[key := val]);
      forall a, b | 0 <= a < b < |r.keys| ensures r.keys[a] != r.keys[b] {
        if b == |r.keys| - 1 {
          assert r.keys[a] == l2.keys[a];
        }
      }
    }
  }

  /** Get's move to the tail keeps the list free of duplicates and of keys the
      inner cache does not hold. */
  lemma TouchListed(l: Ledger, key: string)
    requires Listed(l) && key in l.data
    ensures Listed(Touch(l, key))
  {
    RemoveFirstDistinct(l.keys, key);
    var t := Touch(l, key).keys;
    forall a, b | 0 <= a < b < |t| ensures t[a] != t[b] {
      if b == |t| - 1 {
        assert t[a] in RemoveFirst(l.keys, key);
      }
    }
  }

  /** Get's move to the tail keeps exact books exact and the same keys listed. */
  lemma TouchValid(l: Ledger, key: string)
    requires Valid(l) && key in l.data
    ensures Valid(Touch(l, key))
    ensures multiset(Touch(l, key).keys) == multiset(l.keys)
  {
    RemoveFirstDistinct(l.keys, key);
    RemoveFirstMultiset(l.keys, key);
    SizeRemoveFirst(l.keys, key, l.data);
    SizeAppend(RemoveFirst(l.keys, key), key, l.data);
    var t := Touch(l, key).keys;
    forall a, b | 0 <= a < b < |t| ensures t[a] != t[b] {
      if b == |t| - 1 {
        assert t[a] in RemoveFirst(l.keys, key);
      }
    }
  }

  // ------------------------------------------------------------ the Set cases of the tests

  /** Overwriting a key counts only the new value, whether it is larger or
      smaller than the old one (6 bytes replaced by 10, or by 4, budget 10). */
  lemma OverwriteExample(k: string, v: seq<byte>, w: seq<byte>, max: int)
    requires |v| == 6 && |w| <= max
    ensures SetLedger(Ledger(6, [k], map[k := v]), k, w, true, max) == (Ledger(|w|, [k], map[k := w]), None)
  {
    var l1 := Drop(Ledger(6, [k], map[k := v]), k);
    assert l1 == Ledger(0, [], map[]);
    assert EvictFor(l1, |w|, max) == (l1, true);
    assert [] + [k] == [k];
  }

  /** The three deletions of the example below, one after the other. */
  lemma ThreeDrops(k1: string, k2: string, k3: string, v1: seq<byte>, v2: seq<byte>, v3: seq<byte>)
    requires k1 != k2 && k1 != k3 && k2 != k3
    requires |v1| == 6 && |v2| == 6 && |v3| == 6
    ensures Drop(Ledger(18, [k1, k2, k3], map[k1 := v1, k2 := v2, k3 := v3]), k1)
            == Ledger(12, [k2, k3], map[k2 := v2, k3 := v3])
    ensures Drop(Ledger(12, [k2, k3], map[k2 := v2, k3 := v3]), k2) == Ledger(6, [k3], map[k3 := v3])
    ensures Drop(Ledger(6, [k3], map[k3 := v3]), k3) == Ledger(0, [], map[])
  {
    assert map[k1 := v1, k2 := v2, k3 := v3] - {k1} == map[k2 := v2, k3 := v3];
    assert map[k2 := v2, k3 := v3] - {k2} == map[k3 := v3];
    assert map[k3 := v3] - {k3} == map[];
  }

  /** A 22-byte value under a budget of 25 with three 6-byte keys listed:
      all three are evicted, oldest first, before it is stored. */
  lemma MultiDeleteExample(k1: string, k2: string, k3: string, k4: string,
                           v1: seq<byte>, v2: seq<byte>, v3: seq<byte>, v4: seq<byte>)
    requires k4 != k1 && k4 != k2 && k4 != k3 && k1 != k2 && k1 != k3 && k2 != k3
    requires |v1| == 6 && |v2| == 6 && |v3| == 6 && |v4| == 22
    ensures SetLedger(Ledger(18, [k1, k2, k3], map[k1 := v1, k2 := v2, k3 := v3]), k4, v4, true, 25)
            == (Ledger(22, [k4], map[k4 := v4]), None)
  {
    var l := Ledger(18, [k1, k2, k3], map[k1 := v1, k2 := v2, k3 := v3]);
    var a := Ledger(12, [k2, k3], map[k2 := v2, k3 := v3]);
    var b := Ledger(6, [k3], map[k3 := v3]);
    var c := Ledger(0, [], map[]);
    assert Drop(l, k4) == l;
    ThreeDrops(k1, k2, k3, v1, v2, v3);
    assert EvictFor(c, 22, 25) == (c, true);
    assert EvictFor(b, 22, 25) == (c, true);
    assert EvictFor(a, 22, 25) == (c, true);
    assert EvictFor(l, 22, 25) == (c, true);
    assert [] + [k4] == [k4];
  }
}
