/** BuildInMapCache (cache/local_cache.go): a map from key to item, where an item
    is a value and an optional deadline. An expired item is removed when Get
    finds it, and every removal is reported to the eviction callback.

    The clock is a parameter (`now`, an instant in nanoseconds), and the
    callback's calls are recorded in `evicted`, in order. */
module LocalCache {
  import opened Wrappers

  /** A stored value; `deadline` is None for the zero time, which never expires. */
  datatype Item<V> = Item(val: V, deadline: Option<int>)

  /** Get's error: errKeyNotFound wrapped with the key. */
  datatype CacheError = KeyNotFound(key: string)

  /** deadlineBefore: the item has a deadline and it is strictly before t. */
  predicate DeadlineBefore<V>(it: Item<V>, t: int)
  {
    it.deadline.Some? && it.deadline.value < t
  }

  /** The item set stores: a deadline `expiration` after now when the expiration
      is positive, otherwise none. */
  function NewItem<V>(val: V, expiration: int, now: int): Item<V>
  {
    Item(val, if expiration > 0 then Some(now + expiration) else None)
  }

  /** What Get returns at time now. */
  function Lookup<V>(data: map<string, Item<V>>, key: string, now: int): Result<V, CacheError>
  {
    if key !in data || DeadlineBefore(data[key], now) then Failure(KeyNotFound(key)) else Success(data[key].val)
  }

  /** The map Get leaves: an expired item is gone, everything else stays. */
  function AfterLookup<V>(data: map<string, Item<V>>, key: string, now: int): map<string, Item<V>>
  {
    if key in data && DeadlineBefore(data[key], now) then data - {key} else data
  }

  class BuildInMapCache<V> {
    var data: map<string, Item<V>>
    /** The eviction callback's calls so far, oldest first. */
    var evicted: seq<(string, V)>

    /** NewBuildInMapCache, without the expiry goroutine: an empty map. */
    constructor ()
      ensures data == map[] && evicted == []
    {
      data, evicted := map[], [];
    }

    /** set: stores the item, replacing any earlier one without reporting it. */
    method Set(key: string, val: V, expiration: int, now: int)
      modifies this
      ensures data == old(data)[key := NewItem(val, expiration, now)] && evicted == old(evicted)
    {
      var dl: Option<int> := None;
      if expiration > 0 {
        dl := Some(now + expiration);
      }
      data := data[key := Item(val, dl)];
    }

    /** delete: removes a stored key and reports it once; an absent key is a no-op. */
    method DeleteKey(key: string)
      modifies this
      ensures data == old(data) - {key}
      ensures evicted == if key in old(data) then old(evicted) + [(key, old(data)[key].val)] else old(evicted)
    {
      if key !in data {
        return;
      }
      var itm := data[key];
      data := data - {key};
      evicted := evicted + [(key, itm.val)];
    }

    /** Delete: always nil. */
    method Delete(key: string)
      modifies this
      ensures data == old(data) - {key}
      ensures evicted == if key in old(data) then old(evicted) + [(key, old(data)[key].val)] else old(evicted)
    {
      DeleteKey(key);
    }

    /** Get: a missing key, or one whose deadline has passed (which is then
        deleted and reported), is not found; a live key returns its value and
        changes nothing. */
    method Get(key: string, now: int) returns (r: Result<V, CacheError>)
      modifies this
      ensures r == Lookup(old(data), key, now)
      ensures data == AfterLookup(old(data), key, now)
      ensures evicted == if key in old(data) && DeadlineBefore(old(data)[key], now)
                         then old(evicted) + [(key, old(data)[key].val)] else old(evicted)
    {
      if key !in data {
        return Failure(KeyNotFound(key));
      }
      var itm := data[key];
      if DeadlineBefore(itm, now) {
        DeleteKey(key);
        return Failure(KeyNotFound(key));
      }
      return Success(itm.val);
    }
  }

  /** A value set without a positive expiration is found at any later time; with
      one, it is found until its deadline and not found after it. */
  lemma SetThenLookup<V>(data: map<string, Item<V>>, key: string, val: V, expiration: int, now: int, t: int)
    ensures Lookup(data[key := NewItem(val, expiration, now)], key, t) ==
              if expiration > 0 && now + expiration < t then Failure(KeyNotFound(key)) else Success(val)
  {
  }

  /** Setting one key does not change what Get returns for another. */
  lemma SetOtherKey<V>(data: map<string, Item<V>>, key: string, val: V, expiration: int, now: int, other: string, t: int)
    requires other != key
    ensures Lookup(data[key := NewItem(val, expiration, now)], other, t) == Lookup(data, other, t)
  {
  }

  /** After an expired key is removed by Get, a second Get at the same time is
      still not found and removes nothing more. */
  lemma LookupIdempotent<V>(data: map<string, Item<V>>, key: string, now: int)
    ensures Lookup(AfterLookup(data, key, now), key, now) == Lookup(data, key, now)
    ensures AfterLookup(AfterLookup(data, key, now), key, now) == AfterLookup(data, key, now)
  {
  }

  /** Get only ever removes the key it was asked for. */
  lemma AfterLookupKeeps<V>(data: map<string, Item<V>>, key: string, now: int)
    ensures AfterLookup(data, key, now) == data - {key} || AfterLookup(data, key, now) == data
    ensures forall k :: k in data && k != key ==> k in AfterLookup(data, key, now) && AfterLookup(data, key, now)[k] == data[k]
  {
  }

  /** Expiry is monotone in time: once an item is not found, it stays not found later. */
  lemma ExpiredStaysExpired<V>(it: Item<V>, t: int, u: int)
    requires DeadlineBefore(it, t) && t <= u
    ensures DeadlineBefore(it, u)
  {
  }
}
