/**
  The LRU store of xyzcache/lru/lru.go, the one the cache group uses.
  The doubly linked list `ll` becomes a sequence (front = most recently
  used), the `cache` map from keys to list elements becomes a map from keys
  to the values those elements hold, and each call the store makes to its
  `OnEvicted` callback is recorded in `evicted`.
*/
module XyzLru {
  import opened LruSpec

  class Cache {
    /** The ceiling in bytes; 0 means unbounded. */
    const maxBytes: nat
    /** Whether an `OnEvicted` callback was supplied (a nil callback is never called). */
    const hasOnEvicted: bool
    var nbytes: int
    var ll: seq<Entry>
    var cache: map<string, Value>
    /** The (key, value) pairs passed to `OnEvicted`, oldest call first. */
    var evicted: seq<Entry>

    /** The store's invariant: map and list hold the same keys once each, `nbytes` is the sum of entry sizes. */
    ghost predicate Valid()
      reads this
    {
      && DistinctKeys(ll)
      && cache == ToMap(ll)
      && nbytes == Bytes(ll)
    }

    constructor NewLRUCache(maxBytes: int, onEvicted: bool)
      requires maxBytes >= 0
      ensures Valid()
      ensures this.maxBytes == maxBytes && hasOnEvicted == onEvicted
      ensures ll == [] && cache == map[] && nbytes == 0 && evicted == []
    {
      this.maxBytes := maxBytes;
      hasOnEvicted := onEvicted;
      nbytes := 0;
      ll := [];
      cache := map[];
      evicted := [];
    }

    /**
      A hit returns the stored value and moves its entry to the front; a miss
      returns nil (the empty value) and changes nothing.
    */
    method Get(key: string) returns (value: Value, ok: bool)
      requires Valid()
      modifies this
      ensures Valid()
      ensures ok <==> key in old(cache)
      ensures ok ==> value == old(cache)[key] && ll == Touch(old(ll), key, value)
      ensures ok ==> cache == old(cache) && nbytes == old(nbytes) && evicted == old(evicted)
      ensures !ok ==> value == [] && unchanged(this)
    {
      if key in cache {
        value, ok := cache[key], true;
        TouchMap(ll, key, value);
        TouchBytes(ll, key, value);
        ll := Touch(ll, key, value);
      } else {
        value, ok := [], false;
      }
    }

    /**
      Evicts the least recently used entry: unlinks it, deletes its key,
      subtracts its size and reports it to `OnEvicted`. On an empty store it
      does nothing.
    */
    method RemoveOldest()
      requires Valid()
      modifies this
      ensures Valid()
      ensures old(ll) == [] ==> unchanged(this)
      ensures old(ll) != [] ==>
        && ll == DropLast(old(ll))
        && cache == old(cache) - {Last(old(ll)).key}
        && nbytes == old(nbytes) - Size(Last(old(ll)))
        && evicted == old(evicted) + (if hasOnEvicted then [Last(old(ll))] else [])
    {
      if ll != [] {
        var kv := Last(ll);
        DropLastMap(ll);
        BytesDropLast(ll);
        ll := DropLast(ll);
        cache := cache - {kv.key};
        nbytes := nbytes - (|kv.key| + |kv.value|);
        if hasOnEvicted {
          evicted := evicted + [kv];
        }
      }
    }

    /**
      The first half of `Add`: replace the value of a stored key and move its
      entry to the front, or push a new entry to the front; no eviction yet.
    */
    method Store(key: string, value: Value)
      requires Valid()
      modifies this
      ensures Valid()
      ensures ll == Touch(old(ll), key, value) && evicted == old(evicted)
      ensures cache == old(cache)[key := value]
      ensures nbytes == old(nbytes) + (if key in old(cache) then |value| - |old(cache)[key]| else |key| + |value|)
    {
      TouchMap(ll, key, value);
      TouchBytes(ll, key, value);
      if key in cache {
        nbytes := nbytes + |value| - |cache[key]|;
        ll := Touch(ll, key, value);
      } else {
        WithoutAbsent(ll, key);
        ll := [Entry(key, value)] + ll;
        nbytes := nbytes + |key| + |value|;
      }
      cache := cache[key := value];
    }

    /**
      Stores `value` under `key` as the most recently used entry (replacing an
      existing value), then evicts from the back while a non-zero ceiling is
      exceeded; the entries evicted are reported to `OnEvicted` in order.
    */
    method Add(key: string, value: Value)
      requires Valid()
      modifies this
      ensures Valid()
      ensures ll == Evict(Touch(old(ll), key, value), maxBytes)
      ensures evicted == old(evicted)
        + (if hasOnEvicted then Evictions(Touch(old(ll), key, value), maxBytes) else [])
      ensures maxBytes != 0 ==> nbytes <= maxBytes
      ensures maxBytes == 0 ==> cache == old(cache)[key := value] && evicted == old(evicted)
      ensures maxBytes == 0 ==>
        nbytes == old(nbytes) + (if key in old(cache) then |value| - |old(cache)[key]| else |key| + |value|)
    {
      ghost var touched := Touch(ll, key, value);
      Store(key, value);
      while maxBytes != 0 && maxBytes < nbytes
        invariant Valid()
        invariant Evict(ll, maxBytes) == Evict(touched, maxBytes)
        invariant evicted + (if hasOnEvicted then Evictions(ll, maxBytes) else [])
          == old(evicted) + (if hasOnEvicted then Evictions(touched, maxBytes) else [])
        decreases |ll|
      {
        EvictStep(ll, maxBytes);
        RemoveOldest();
      }
      if maxBytes != 0 {
        EvictWithinCapacity(touched, maxBytes);
      }
    }

    /** The number of entries: one per key in the map. */
    function Len(): (n: nat)
      requires Valid()
      reads this
      ensures n == |cache|
    {
      MapSize(ll);
      |ll|
    }
  }
}
