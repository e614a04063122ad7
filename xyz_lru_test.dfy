/**
  The three scenarios of xyzcache/lru/lru_test.go, restated as methods
  verified against the store's contracts: each method builds a fresh store,
  performs the test's calls and returns what the test observes.
*/
module XyzLruTest {
  import opened LruSpec
  import opened XyzLru

  /** One pass of the eviction loop that brings the list back under its ceiling. */
  lemma EvictOnce(l: seq<Entry>, maxBytes: nat)
    requires l != [] && OverCapacity(l, maxBytes) && !OverCapacity(DropLast(l), maxBytes)
    ensures Evict(l, maxBytes) == DropLast(l) && Evictions(l, maxBytes) == [Last(l)]
  {
  }

  /** Storing a new key in front of a two-entry list. */
  lemma TouchNewOfTwo(a: Entry, b: Entry, e: Entry)
    requires e.key != a.key && e.key != b.key
    ensures Touch([a, b], e.key, e.value) == [e, a, b]
  {
    assert [a, b][1..] == [b];
    assert Without([b], e.key) == [b];
  }

  /** TestGet: after adding key1 -> "1234", key1 hits with "1234" and key2 misses. */
  method GetHitAndMiss() returns (v: Value, hit: bool, missHit: bool)
    ensures hit && v == [49, 50, 51, 52]
    ensures !missHit
  {
    var c := new Cache.NewLRUCache(5000, false);
    c.Add("key1", [49, 50, 51, 52]);
    v, hit := c.Get("key1");
    var _, ok := c.Get("key2");
    missHit := ok;
  }

  /**
    TestRemoveOldest: with a ceiling of len("key1v1key2v2") = 12, adding key1,
    key2 and key3 evicts key1 and leaves two entries.
  */
  method RemoveOldestOnOverflow() returns (hit1: bool, len: nat)
    ensures !hit1 && len == 2
  {
    var e1, e2, e3 := Entry("key1", [118, 49]), Entry("key2", [118, 50]), Entry("key3", [118, 51]);
    var c := new Cache.NewLRUCache(|"key1" + "v1" + "key2" + "v2"|, false);
    c.Add(e1.key, e1.value);
    assert c.ll == [e1];
    c.Add(e2.key, e2.value);
    assert Without([e1], e2.key) == [e1];
    assert c.ll == [e2, e1];
    c.Add(e3.key, e3.value);
    TouchNewOfTwo(e2, e1, e3);
    assert Bytes([e3, e2]) == 12 by {
      assert [e3, e2][1..] == [e2];
    }
    assert DropLast([e3, e2, e1]) == [e3, e2];
    EvictOnce([e3, e2, e1], 12);
    assert c.ll == [e3, e2];
    var _, ok := c.Get("key1");
    hit1 := ok;
    MapSize(c.ll);
    len := c.Len();
  }

  /** The byte count of a one- and a two-entry list. */
  lemma BytesOfTwo(a: Entry, b: Entry)
    ensures Bytes([b]) == Size(b)
    ensures Bytes([a, b]) == Size(a) + Size(b)
  {
    assert [b][1..] == [];
    assert [a, b][1..] == [b];
  }

  /** The first two calls of TestOnEvicted: key1 fits alone; k2 pushes it out. */
  lemma OnEvictedFirstSteps(e1: Entry, e2: Entry)
    requires e1 == Entry("key1", [49, 50, 51, 52, 53, 54]) && e2 == Entry("k2", [107, 50])
    ensures Touch([], e1.key, e1.value) == [e1]
    ensures Evict([e1], 10) == [e1] && Evictions([e1], 10) == []
    ensures Touch([e1], e2.key, e2.value) == [e2, e1]
    ensures Evict([e2, e1], 10) == [e2] && Evictions([e2, e1], 10) == [e1]
  {
    assert Without([e1], e2.key) == [e1];
    assert DropLast([e2, e1]) == [e2];
    BytesOfTwo(e2, e1);
    EvictOnce([e2, e1], 10);
  }

  /** The last two calls of TestOnEvicted: k3 fits beside k2; k4 pushes k2 out. */
  lemma OnEvictedLastSteps(e2: Entry, e3: Entry, e4: Entry)
    requires e2 == Entry("k2", [107, 50]) && e3 == Entry("k3", [107, 51]) && e4 == Entry("k4", [107, 52])
    ensures Touch([e2], e3.key, e3.value) == [e3, e2]
    ensures Evict([e3, e2], 10) == [e3, e2] && Evictions([e3, e2], 10) == []
    ensures Touch([e3, e2], e4.key, e4.value) == [e4, e3, e2]
    ensures Evict([e4, e3, e2], 10) == [e4, e3] && Evictions([e4, e3, e2], 10) == [e2]
  {
    assert Without([e2], e3.key) == [e2];
    BytesOfTwo(e3, e2);
    TouchNewOfTwo(e3, e2, e4);
    BytesOfTwo(e4, e3);
    assert DropLast([e4, e3, e2]) == [e4, e3];
    EvictOnce([e4, e3, e2], 10);
  }

  /**
    TestOnEvicted: with a ceiling of 10, adding key1 -> "123456", k2, k3 and
    k4 reports key1 and then k2 to the eviction callback.
  */
  method OnEvictedOrder() returns (keys: seq<string>)
    ensures keys == ["key1", "k2"]
  {
    var e1 := Entry("key1", [49, 50, 51, 52, 53, 54]);
    var e2, e3, e4 := Entry("k2", [107, 50]), Entry("k3", [107, 51]), Entry("k4", [107, 52]);
    OnEvictedFirstSteps(e1, e2);
    OnEvictedLastSteps(e2, e3, e4);
    var c := new Cache.NewLRUCache(10, true);
    c.Add(e1.key, e1.value);
    c.Add(e2.key, e2.value);
    c.Add(e3.key, e3.value);
    c.Add(e4.key, e4.value);
    assert c.evicted == [e1, e2];
    keys := KeysOf(c.evicted);
  }
}
