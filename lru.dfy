/**
  The older copy of the LRU store, lru/lru.go. It has the same state and the
  same `Get`, `Add` and `Len` as xyzcache/lru/lru.go; it differs in
  `RemoveOldest`, whose guard tests the list pointer (never nil after
  `NewLRUCache`) instead of the back element, so on an empty store it
  dereferences a nil element. That fault is an explicit outcome here.
*/
module Lru {
  import opened LruSpec

  class Cache {
    /** The ceiling in bytes; 0 means unbounded. */
    const maxBytes: nat
    /** Whether an `OnEvicted` callback was supplied (a nil callback is never called). */
    const hasOnEvicted: bool
    var nbytes: int
    var ll: seq<Entry>
    var cache: map<string, Value>
    /** The (key, value) pairs passed to `OnEvicted`, oldest call first. */
    var evicted: seq<Entry>

    /** The store's invariant: map and list hold the same keys once each, `nbytes` is the sum of entry sizes. */
    ghost predicate Valid()
      reads this
    {
      && DistinctKeys(ll)
      && cache == ToMap(ll)
      && nbytes == Bytes(ll)
    }

    constructor NewLRUCache(maxBytes: int, onEvicted: bool)
      requires maxBytes >= 0
      ensures Valid()
      ensures this.maxBytes == maxBytes && hasOnEvicted == onEvicted
      ensures ll == [] && cache == map[] && nbytes == 0 && evicted == []
    {
      this.maxBytes := maxBytes;
      hasOnEvicted := onEvicted;
      nbytes := 0;
      ll := [];
      cache := map[];
      evicted := [];
    }

    /**
      A hit returns the stored value and moves its entry to the front; a miss
      returns nil (the empty value) and changes nothing.
    */
    method Get(key: string) returns (value: Value, ok: bool)
      requires Valid()
      modifies this
      ensures Valid()
      ensures ok <==> key in old(cache)
      ensures ok ==> value == old(cache)[key] && ll == Touch(old(ll), key, value)
      ensures ok ==> cache == old(cache) && nbytes == old(nbytes) && evicted == old(evicted)
      ensures !ok ==> value == [] && unchanged(this)
    {
      if key in cache {
        value, ok := cache[key], true;
        TouchMap(ll, key, value);
        TouchBytes(ll, key, value);
        ll := Touch(ll, key, value);
      } else {
        value, ok := [], false;
      }
    }

    /**
      On a non-empty store, evicts the least recently used entry exactly as
      the other copy does. On an empty store `ll.Back()` is nil and reading
      its value faults (`fault`) before anything has changed.
    */
    method RemoveOldest() returns (fault: bool)
      requires Valid()
      modifies this
      ensures Valid()
      ensures fault <==> old(ll) == []
      ensures fault ==> unchanged(this)
      ensures !fault ==>
        && ll == DropLast(old(ll))
        && cache == old(cache) - {Last(old(ll)).key}
        && nbytes == old(nbytes) - Size(Last(old(ll)))
        && evicted == old(evicted) + (if hasOnEvicted then [Last(old(ll))] else [])
    {
      // The guard `c.ll != nil` always holds: the list is created by NewLRUCache.
      if ll == [] {
        // `ele := c.ll.Back()` is nil, and `ele.Value` dereferences it.
        return true;
      }
      fault := false;
      var kv := Last(ll);
      DropLastMap(ll);
      BytesDropLast(ll);
      cache := cache - {kv.key};
      nbytes := nbytes - (|kv.value| + |kv.key|);
      ll := DropLast(ll);
      if hasOnEvicted {
        evicted := evicted + [kv];
      }
    }

    /**
      The first half of `Add`: replace the value of a stored key and move its
      entry to the front, or push a new entry to the front; no eviction yet.
    */
    method Store(key: string, value: Value)
      requires Valid()
      modifies this
      ensures Valid()
      ensures ll == Touch(old(ll), key, value) && evicted == old(evicted)
      ensures cache == old(cache)[key := value]
      ensures nbytes == old(nbytes) + (if key in old(cache) then |value| - |old(cache)[key]| else |value| + |key|)
    {
      TouchMap(ll, key, value);
      TouchBytes(ll, key, value);
      if key in cache {
        nbytes := nbytes + |value| - |cache[key]|;
        ll := Touch(ll, key, value);
      } else {
        WithoutAbsent(ll, key);
        ll := [Entry(key, value)] + ll;
        nbytes := nbytes + |value| + |key|;
      }
      cache := cache[key := value];
    }

    /**
      Stores `value` under `key` as the most recently used entry, then evicts
      from the back while a non-zero ceiling is exceeded. The loop never
      reaches the faulting empty case: an over-ceiling store holds an entry.
    */
    method Add(key: string, value: Value)
      requires Valid()
      modifies this
      ensures Valid()
      ensures ll == Evict(Touch(old(ll), key, value), maxBytes)
      ensures evicted == old(evicted)
        + (if hasOnEvicted then Evictions(Touch(old(ll), key, value), maxBytes) else [])
      ensures maxBytes != 0 ==> nbytes <= maxBytes
      ensures maxBytes == 0 ==> cache == old(cache)[key := value] && evicted == old(evicted)
      ensures maxBytes == 0 ==>
        nbytes == old(nbytes) + (if key in old(cache) then |value| - |old(cache)[key]| else |value| + |key|)
    {
      ghost var touched := Touch(ll, key, value);
      Store(key, value);
      while maxBytes != 0 && nbytes > maxBytes
        invariant Valid()
        invariant Evict(ll, maxBytes) == Evict(touched, maxBytes)
        invariant evicted + (if hasOnEvicted then Evictions(ll, maxBytes) else [])
          == old(evicted) + (if hasOnEvicted then Evictions(touched, maxBytes) else [])
        decreases |ll|
      {
        EvictStep(ll, maxBytes);
        var fault := RemoveOldest();
        assert !fault;
      }
      if maxBytes != 0 {
        EvictWithinCapacity(touched, maxBytes);
      }
    }

    /** The number of entries: one per key in the map. */
    function Len(): (n: nat)
      requires Valid()
      reads this
      ensures n == |cache|
    {
      MapSize(ll);
      |ll|
    }
  }

  /**
    The input that shows the unguarded `RemoveOldest`: called on a store fresh
    from `NewLRUCache`, it faults instead of doing nothing.
  */
  method RemoveOldestOnEmptyFaults() returns (fault: bool)
    ensures fault
  {
    var c := new Cache.NewLRUCache(0, false);
    fault := c.RemoveOldest();
  }
}
