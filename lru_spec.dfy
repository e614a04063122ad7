/**
  The abstract view of the byte-accounted LRU store that both copies of
  `lru.go` implement. A recency list is a sequence of entries whose front
  (index 0) is the most recently used one; `Back()` of Go's `container/list`
  is the last element. The functions here say what `Add`, `Get` and the
  eviction loop do to that list, and the lemmas state the properties the
  store promises: the list and the key map agree, `nbytes` is the sum of the
  entry sizes, eviction takes the least recently used entries first and stops
  as soon as the ceiling is met.
*/
module LruSpec {

  /** An octet: `Value.Len()` of a stored payload is its number of octets. */
  newtype byte = b: int | 0 <= b < 256

  /** A cached payload (a `ByteView` in the group, a `stringX` in the tests). */
  type Value = seq<byte>

  /** The record held by each list element (`entry` in lru.go). */
  datatype Entry = Entry(key: string, value: Value)

  /** Accounted size of one entry: len(key) + value.Len(). */
  function Size(e: Entry): nat
  {
    |e.key| + |e.value|
  }

  /** Sum of the accounted sizes of a recency list. */
  function Bytes(l: seq<Entry>): nat
  {
    if l == [] then 0 else Size(l[0]) + Bytes(l[1..])
  }

  /** The key map a recency list denotes (for each key, its front-most value). */
  function ToMap(l: seq<Entry>): map<string, Value>
  {
    if l == [] then map[] else ToMap(l[1..])[l[0].key := l[0].value]
  }

  /** No key occurs twice in the list: one list element per map key. */
  ghost predicate DistinctKeys(l: seq<Entry>)
  {
    l == [] || (l[0].key !in ToMap(l[1..]) && DistinctKeys(l[1..]))
  }

  /** The list with every entry for `key` unlinked, the others in their order. */
  function Without(l: seq<Entry>, key: string): seq<Entry>
  {
    if l == [] then []
    else if l[0].key == key then Without(l[1..], key)
    else [l[0]] + Without(l[1..], key)
  }

  /**
    The list after `key` is stored with `value` and made the most recently
    used: `PushFront` of a new entry, or `MoveToFront` of the existing one
    whose value is replaced.
  */
  function Touch(l: seq<Entry>, key: string, value: Value): seq<Entry>
  {
    [Entry(key, value)] + Without(l, key)
  }

  /** The least recently used entry, `ll.Back()`. */
  function Last(l: seq<Entry>): Entry
    requires l != []
  {
    l[|l| - 1]
  }

  /** The list after `ll.Remove(ll.Back())`. */
  function DropLast(l: seq<Entry>): seq<Entry>
    requires l != []
  {
    l[..|l| - 1]
  }

  /** True while the eviction loop of `Add` keeps going (`maxBytes != 0 && maxBytes < nbytes`). */
  predicate OverCapacity(l: seq<Entry>, maxBytes: nat)
  {
    maxBytes != 0 && maxBytes < Bytes(l)
  }

  /** The list left by the eviction loop: remove the back entry while over capacity. */
  function Evict(l: seq<Entry>, maxBytes: nat): seq<Entry>
    decreases |l|
  {
    if OverCapacity(l, maxBytes) then Evict(DropLast(l), maxBytes) else l
  }

  /** The entries the eviction loop removes, in the order it removes them. */
  function Evictions(l: seq<Entry>, maxBytes: nat): seq<Entry>
    decreases |l|
  {
    if OverCapacity(l, maxBytes) then [Last(l)] + Evictions(DropLast(l), maxBytes) else []
  }

  /** The keys of a sequence of entries, in order (what an `OnEvicted` callback that records keys sees). */
  function KeysOf(es: seq<Entry>): (ks: seq<string>)
    ensures |ks| == |es|
    ensures forall i | 0 <= i < |es| :: ks[i] == es[i].key
  {
    if es == [] then [] else [es[0].key] + KeysOf(es[1..])
  }

  // ---------------------------------------------------------------------
  // Byte accounting

  /** Removing the back entry subtracts exactly its size. */
  lemma {:induction false} BytesDropLast(l: seq<Entry>)
    requires l != []
    ensures Bytes(l) == Bytes(DropLast(l)) + Size(Last(l))
  {
    if |l| > 1 {
      BytesDropLast(l[1..]);
      assert DropLast(l)[1..] == DropLast(l[1..]);
    }
  }

  // ---------------------------------------------------------------------
  // The key map

  /** The back entry's key is in the map. */
  lemma {:induction false} LastInMap(l: seq<Entry>)
    requires l != []
    ensures Last(l).key in ToMap(l)
  {
    if |l| > 1 {
      LastInMap(l[1..]);
    }
  }

  /** The map of a list with distinct keys has exactly one key per list element. */
  lemma {:induction false} MapSize(l: seq<Entry>)
    requires DistinctKeys(l)
    ensures |ToMap(l)| == |l|
  {
    if l != [] {
      MapSize(l[1..]);
      assert ToMap(l).Keys == ToMap(l[1..]).Keys + {l[0].key};
    }
  }

  /** Unlinking the back entry deletes its key from the map and keeps the keys distinct. */
  lemma {:induction false} DropLastMap(l: seq<Entry>)
    requires l != [] && DistinctKeys(l)
    ensures DistinctKeys(DropLast(l))
    ensures ToMap(DropLast(l)) == ToMap(l) - {Last(l).key}
  {
    if |l| > 1 {
      var t := l[1..];
      DropLastMap(t);
      LastInMap(t);
      assert Last(t) == Last(l);
      assert DropLast(l) == [l[0]] + DropLast(t);
      assert DropLast(l)[1..] == DropLast(t);
    } else {
      assert DropLast(l) == [];
    }
  }

  /** Unlinking a key that is absent leaves the list as it is. */
  lemma {:induction false} WithoutAbsent(l: seq<Entry>, key: string)
    requires key !in ToMap(l)
    ensures Without(l, key) == l
  {
    if l != [] {
      assert l[0].key in ToMap(l);
      assert ToMap(l[1..]).Keys <= ToMap(l).Keys;
      WithoutAbsent(l[1..], key);
      assert l == [l[0]] + l[1..];
    }
  }

  /**
    Unlinking `key` deletes it from the map, keeps the other keys distinct,
    and subtracts exactly the size of the removed entry.
  */
  lemma {:induction false} WithoutSpec(l: seq<Entry>, key: string)
    requires DistinctKeys(l)
    ensures DistinctKeys(Without(l, key))
    ensures ToMap(Without(l, key)) == ToMap(l) - {key}
    ensures Bytes(Without(l, key)) == Bytes(l) - (if key in ToMap(l) then |key| + |ToMap(l)[key]| else 0)
  {
    if l != [] {
      var t := l[1..];
      if l[0].key == key {
        WithoutAbsent(t, key);
      } else {
        WithoutSpec(t, key);
        var w := Without(t, key);
        assert Without(l, key) == [l[0]] + w;
        assert ([l[0]] + w)[1..] == w;
      }
    }
  }

  /**
    Storing `key` with `value` at the front keeps the keys distinct, maps `key`
    to `value` and leaves every other key mapped as before.
  */
  lemma TouchMap(l: seq<Entry>, key: string, value: Value)
    requires DistinctKeys(l)
    ensures DistinctKeys(Touch(l, key, value))
    ensures ToMap(Touch(l, key, value)) == ToMap(l)[key := value]
    ensures Touch(l, key, value)[0] == Entry(key, value)
  {
    WithoutSpec(l, key);
    assert Touch(l, key, value)[1..] == Without(l, key);
  }

  /**
    The byte count after storing `key`: a new key adds len(key) + value.Len(),
    an existing key adds only the value-length delta (no double counting).
  */
  lemma TouchBytes(l: seq<Entry>, key: string, value: Value)
    requires DistinctKeys(l)
    ensures key in ToMap(l) ==>
      Bytes(Touch(l, key, value)) == Bytes(l) + |value| - |ToMap(l)[key]|
    ensures key !in ToMap(l) ==>
      Bytes(Touch(l, key, value)) == Bytes(l) + |key| + |value|
  {
    WithoutSpec(l, key);
    assert Touch(l, key, value)[1..] == Without(l, key);
  }

  /** Storing a key adds a list element only when the key is new. */
  lemma TouchCount(l: seq<Entry>, key: string, value: Value)
    requires DistinctKeys(l)
    ensures |Touch(l, key, value)| == |l| + (if key in ToMap(l) then 0 else 1)
  {
    WithoutSpec(l, key);
    MapSize(l);
    MapSize(Without(l, key));
  }

  // ---------------------------------------------------------------------
  // Eviction

  /**
    The eviction loop only ever removes the back of the list: what it keeps is
    a prefix of the list (the most recently used entries), what it removes is
    the rest, least recently used first; with a zero ceiling it removes nothing.
  */
  lemma {:induction false} EvictShape(l: seq<Entry>, maxBytes: nat)
    ensures |Evict(l, maxBytes)| + |Evictions(l, maxBytes)| == |l|
    ensures Evict(l, maxBytes) == l[..|Evict(l, maxBytes)|]
    ensures forall i | 0 <= i < |Evictions(l, maxBytes)| ::
      Evictions(l, maxBytes)[i] == l[|l| - 1 - i]
    ensures maxBytes == 0 ==> Evict(l, maxBytes) == l && Evictions(l, maxBytes) == []
    decreases |l|
  {
    if OverCapacity(l, maxBytes) {
      var d := DropLast(l);
      EvictShape(d, maxBytes);
      var es := Evictions(l, maxBytes);
      assert es == [Last(l)] + Evictions(d, maxBytes);
      forall i | 0 <= i < |es|
        ensures es[i] == l[|l| - 1 - i]
      {
        if i > 0 {
          assert es[i] == Evictions(d, maxBytes)[i - 1];
        }
      }
    }
  }

  /** One pass of the eviction loop: over capacity, the back entry goes first and the loop carries on from there. */
  lemma EvictStep(l: seq<Entry>, maxBytes: nat)
    requires OverCapacity(l, maxBytes)
    ensures l != []
    ensures Evict(l, maxBytes) == Evict(DropLast(l), maxBytes)
    ensures Evictions(l, maxBytes) == [Last(l)] + Evictions(DropLast(l), maxBytes)
  {
  }

  /** After the eviction loop a non-zero ceiling is met, even if that evicts the entry just added. */
  lemma {:induction false} EvictWithinCapacity(l: seq<Entry>, maxBytes: nat)
    requires maxBytes != 0
    ensures Bytes(Evict(l, maxBytes)) <= maxBytes
    decreases |l|
  {
    if OverCapacity(l, maxBytes) {
      EvictWithinCapacity(DropLast(l), maxBytes);
    }
  }

  /**
    The eviction loop removes no more than it must: if it removed anything,
    keeping the last entry it removed would have left the list over capacity.
  */
  lemma {:induction false} EvictMinimal(l: seq<Entry>, maxBytes: nat)
    requires |Evict(l, maxBytes)| < |l|
    ensures OverCapacity(l[..|Evict(l, maxBytes)| + 1], maxBytes)
    decreases |l|
  {
    var d := DropLast(l);
    assert OverCapacity(l, maxBytes);
    if |Evict(d, maxBytes)| < |d| {
      EvictMinimal(d, maxBytes);
      assert d[..|Evict(d, maxBytes)| + 1] == l[..|Evict(l, maxBytes)| + 1];
    } else {
      assert l[..|Evict(l, maxBytes)| + 1] == l;
    }
  }

  /**
    The most recently used entry survives eviction whenever it fits on its own
    (or there is no ceiling): a value just loaded is then really cached.
  */
  lemma EvictKeepsFront(l: seq<Entry>, maxBytes: nat)
    requires l != []
    requires maxBytes == 0 || Size(l[0]) <= maxBytes
    ensures Evict(l, maxBytes) != [] && Evict(l, maxBytes)[0] == l[0]
  {
    assert Bytes(l[..1]) == Size(l[0]) by {
      assert l[..1] == [l[0]];
    }
    EvictShape(l, maxBytes);
    if |Evict(l, maxBytes)| == 0 {
      EvictMinimal(l, maxBytes);
    }
  }

  /** Eviction keeps the invariant: keys stay distinct and the map loses exactly the evicted keys. */
  lemma {:induction false} EvictMap(l: seq<Entry>, maxBytes: nat)
    requires DistinctKeys(l)
    ensures DistinctKeys(Evict(l, maxBytes))
    ensures ToMap(Evict(l, maxBytes)).Keys == ToMap(l).Keys - set e | e in Evictions(l, maxBytes) :: e.key
    decreases |l|
  {
    if OverCapacity(l, maxBytes) {
      var d := DropLast(l);
      DropLastMap(l);
      EvictMap(d, maxBytes);
      assert Evictions(l, maxBytes) == [Last(l)] + Evictions(d, maxBytes);
      assert (set e | e in Evictions(l, maxBytes) :: e.key)
        == {Last(l).key} + set e | e in Evictions(d, maxBytes) :: e.key;
    }
  }
}
