/**
  Cache groups and their registry, xyzcache/xyzcache.go. A group reads
  through its local LRU store: on a miss it asks the peer that the peer
  picker designates and, failing that, its own getter, whose result alone is
  stored locally. The getter and the peer interfaces of peers.go are function
  values; the request coalescer runs the load function once per call.
*/
module XyzCache {
  import opened Results
  import opened LruSpec
  import XyzLru

  /** The text of the error `Get("")` returns ("key为空", "the key is empty"). */
  const EmptyKeyMessage: string := "key\U{4E3A}\U{7A7A}"

  /** The errors `Group.Get` returns: the empty key, or the getter's error passed on verbatim. */
  datatype Error = EmptyKey | Failed(message: string)
  {
    /** `err.Error()`. */
    function Message(): string
    {
      match this
      case EmptyKey => EmptyKeyMessage
      case Failed(m) => m
    }
  }

  /** The source-of-truth callback (`Getter`): a value for the key, or an error. */
  type Getter = string -> Result<Value, string>

  /** The protobuf request a peer is sent (`pb.Request`). */
  datatype Request = Request(group: string, key: string)

  /** `PeerGetter` of peers.go: fetch a value from one remote peer; the response carries only the value. */
  datatype PeerGetter = PeerGetter(get: Request -> Result<Value, string>)

  /** `PeerPicker` of peers.go: the getter of the peer that owns a key, if that is not this node. */
  datatype PeerPicker = PeerPicker(pickPeer: string -> Option<PeerGetter>)

  class Group {
    const name: string
    const getter: Getter
    const mainCache: XyzLru.Cache
    var peers: Option<PeerPicker>
    /** The keys the getter has been called with, oldest first. */
    ghost var loads: seq<string>
    /** The keys the peer picker has been asked about, oldest first. */
    ghost var picks: seq<string>

    /** The group's store is a valid LRU store with no eviction callback. */
    ghost predicate Valid()
      reads this, mainCache
    {
      mainCache.Valid() && !mainCache.hasOnEvicted
    }

    constructor (name: string, cacheBytes: int, getter: Getter)
      requires cacheBytes >= 0
      ensures Valid() && fresh(mainCache)
      ensures this.name == name && this.getter == getter && peers.None?
      ensures mainCache.maxBytes == cacheBytes && mainCache.ll == []
      ensures loads == [] && picks == []
    {
      this.name := name;
      this.getter := getter;
      mainCache := new XyzLru.Cache.NewLRUCache(cacheBytes, false);
      peers := None;
      loads := [];
      picks := [];
    }

    /**
      Installs the peer picker once; a second registration panics and changes
      nothing. Neither the getter nor a picker is called.
    */
    method RegisterPeers(p: PeerPicker) returns (r: Completion<()>)
      modifies this
      ensures loads == old(loads) && picks == old(picks)
      ensures old(peers).Some? ==> r.Panicked? && peers == old(peers)
      ensures old(peers).None? ==> r.Returned? && peers == Some(p)
    {
      if peers.Some? {
        return Panicked("\U{5DF2}\U{7ECF}\U{5B58}\U{5728}peers");
      }
      peers := Some(p);
      r := Returned(());
    }

    /** Asks a peer for this group's value of `key`; its error is passed on, never read as a miss. */
    function GetFromPeer(peer: PeerGetter, key: string): (r: Result<Value, string>)
      ensures r.Success? <==> peer.get(Request(name, key)).Success?
      ensures r.Success? ==> r.value == peer.get(Request(name, key)).value
      ensures r.Failure? ==> r.error == peer.get(Request(name, key)).error
    {
      match peer.get(Request(name, key))
      case Success(v) => Success(v)
      case Failure(e) => Failure(e)
    }

    /**
      The value the peer step of the load yields: `None` when no picker is
      registered, the picker names no remote peer, or the peer fetch fails.
    */
    function PeerValue(key: string): Option<Value>
      reads this`peers
    {
      if peers.None? then None
      else match peers.value.pickPeer(key)
        case None => None
        case Some(peer) =>
          match GetFromPeer(peer, key)
          case Success(v) => Some(v)
          case Failure(_) => None
    }

    /** Adds a value to the local store as its most recently used entry. */
    method PopulateCache(key: string, value: Value)
      requires Valid()
      modifies mainCache
      ensures Valid()
      ensures mainCache.ll == Evict(Touch(old(mainCache.ll), key, value), mainCache.maxBytes)
      ensures mainCache.evicted == old(mainCache.evicted)
      ensures mainCache.maxBytes == 0 || |key| + |value| <= mainCache.maxBytes ==>
        key in mainCache.cache && mainCache.cache[key] == value
    {
      mainCache.Add(key, value);
      TouchMap(old(mainCache.ll), key, value);
      if mainCache.maxBytes == 0 || |key| + |value| <= mainCache.maxBytes {
        EvictKeepsFront(Touch(old(mainCache.ll), key, value), mainCache.maxBytes);
      }
    }

    /**
      Calls the getter once: on success the (copied) value is stored locally
      and returned; on failure the error is returned and the store is untouched.
    */
    method GetLocally(key: string) returns (r: Result<Value, Error>)
      requires Valid()
      modifies this, mainCache
      ensures Valid()
      ensures peers == old(peers) && picks == old(picks) && loads == old(loads) + [key]
      ensures mainCache.evicted == old(mainCache.evicted)
      ensures getter(key).Success? ==>
        && r == Success(getter(key).value)
        && mainCache.ll == Evict(Touch(old(mainCache.ll), key, getter(key).value), mainCache.maxBytes)
      ensures getter(key).Failure? ==> r == Failure(Failed(getter(key).error)) && unchanged(mainCache)
    {
      var bytes := getter(key);
      loads := loads + [key];
      if bytes.Failure? {
        return Failure(Failed(bytes.error));
      }
      // cloneBytes: values are immutable sequences, so the copy is the value itself.
      var value := bytes.value;
      PopulateCache(key, value);
      r := Success(value);
    }

    /**
      The load function run by the coalescer (`Do(key, fn)` is `fn()`): a
      remote peer's value is returned without being stored; otherwise, or when
      the peer fails, the getter is called and only its value is stored.
    */
    method Load(key: string) returns (r: Result<Value, Error>)
      requires Valid()
      modifies this, mainCache
      ensures Valid()
      ensures peers == old(peers) && mainCache.evicted == old(mainCache.evicted)
      ensures picks == old(picks) + (if peers.Some? then [key] else [])
      ensures loads == old(loads) + (if PeerValue(key).None? then [key] else [])
      ensures PeerValue(key).Some? ==> r == Success(PeerValue(key).value) && unchanged(mainCache)
      ensures PeerValue(key).None? && getter(key).Success? ==>
        && r == Success(getter(key).value)
        && mainCache.ll == Evict(Touch(old(mainCache.ll), key, getter(key).value), mainCache.maxBytes)
      ensures PeerValue(key).None? && getter(key).Failure? ==>
        r == Failure(Failed(getter(key).error)) && unchanged(mainCache)
    {
      if peers.Some? {
        var picked := peers.value.pickPeer(key);
        picks := picks + [key];
        if picked.Some? {
          var res := GetFromPeer(picked.value, key);
          if res.Success? {
            return Success(res.value);
          }
          // The peer failed: fall back to the getter.
        }
      }
      r := GetLocally(key);
    }

    /**
      Rejects the empty key without touching the store, returns a stored value
      (making it the most recently used), and otherwise loads the key. Neither
      the empty key nor a hit consults the peer picker or the getter.
    */
    method Get(key: string) returns (r: Result<Value, Error>)
      requires Valid()
      modifies this, mainCache
      ensures Valid()
      ensures peers == old(peers) && mainCache.evicted == old(mainCache.evicted)
      ensures key == "" || key in old(mainCache.cache) ==> loads == old(loads) && picks == old(picks)
      ensures key != "" && key !in old(mainCache.cache) ==>
        && picks == old(picks) + (if peers.Some? then [key] else [])
        && loads == old(loads) + (if PeerValue(key).None? then [key] else [])
      ensures key == "" ==> r == Failure(EmptyKey) && unchanged(mainCache)
      ensures key != "" && key in old(mainCache.cache) ==>
        && r == Success(old(mainCache.cache)[key])
        && mainCache.ll == Touch(old(mainCache.ll), key, r.value)
        && mainCache.cache == old(mainCache.cache)
      ensures key != "" && key !in old(mainCache.cache) && PeerValue(key).Some? ==>
        r == Success(PeerValue(key).value) && unchanged(mainCache)
      ensures key != "" && key !in old(mainCache.cache) && PeerValue(key).None? && getter(key).Success? ==>
        && r == Success(getter(key).value)
        && mainCache.ll == Evict(Touch(old(mainCache.ll), key, getter(key).value), mainCache.maxBytes)
      ensures key != "" && key !in old(mainCache.cache) && PeerValue(key).None? && getter(key).Failure? ==>
        r == Failure(Failed(getter(key).error)) && unchanged(mainCache)
    {
      if key == "" {
        return Failure(EmptyKey);
      }
      var b, ok := mainCache.Get(key);
      if ok {
        return Success(b);
      }
      r := Load(key);
    }
  }

  /**
    A miss with no peers registered is served by the getter and cached: a
    second `Get` of the same key is a hit that returns the same value without
    calling the getter again, provided the entry fits under the ceiling on
    its own. Across both calls the getter runs exactly once.
  */
  method GetCachesLoadedValue(g: Group, key: string) returns (first: Result<Value, Error>, second: Result<Value, Error>)
    requires g.Valid() && g.peers.None?
    requires key != "" && key !in g.mainCache.cache
    requires g.getter(key).Success?
    requires g.mainCache.maxBytes == 0 || |key| + |g.getter(key).value| <= g.mainCache.maxBytes
    modifies g, g.mainCache
    ensures first == Success(g.getter(key).value) && second == first
    ensures g.loads == old(g.loads) + [key] && g.picks == old(g.picks)
    ensures key in g.mainCache.cache && g.mainCache.cache[key] == g.getter(key).value
  {
    first := g.Get(key);
    TouchMap(old(g.mainCache.ll), key, g.getter(key).value);
    EvictKeepsFront(Touch(old(g.mainCache.ll), key, g.getter(key).value), g.mainCache.maxBytes);
    assert key in g.mainCache.cache;
    second := g.Get(key);
  }

  /** The process-wide name-to-group map (`groups`, guarded by `mu`). */
  class Registry {
    var groups: map<string, Group>

    /** Every group is registered under its own name. */
    ghost predicate Valid()
      reads this
    {
      forall n | n in groups :: groups[n].name == n
    }

    constructor ()
      ensures Valid() && groups == map[]
    {
      groups := map[];
    }

    /**
      Creates a group with an empty store of `cacheBytes` bytes and registers
      it under `name`, replacing any earlier group of that name; a nil getter
      panics and registers nothing.
    */
    method NewGroup(name: string, cacheBytes: int, getter: Option<Getter>) returns (r: Completion<Group>)
      requires Valid()
      requires cacheBytes >= 0
      modifies this
      ensures Valid()
      ensures getter.None? ==> r.Panicked? && groups == old(groups)
      ensures getter.Some? ==> r.Returned? && fresh(r.value) && fresh(r.value.mainCache) && groups == old(groups)[name := r.value]
      ensures r.Returned? ==>
        && r.value.name == name && r.value.getter == getter.value && r.value.peers.None?
        && r.value.Valid() && r.value.mainCache.maxBytes == cacheBytes && r.value.mainCache.ll == []
        && r.value.loads == [] && r.value.picks == []
    {
      if getter.None? {
        return Panicked("getter \U{4E0D}\U{80FD}\U{4E3A} nil");
      }
      var g := new Group(name, cacheBytes, getter.value);
      groups := groups[name := g];
      r := Returned(g);
    }

    /** The group registered under `name`, or nil; a group found carries that name. */
    function GetGroup(name: string): (g: Option<Group>)
      requires Valid()
      reads this
      ensures g.Some? <==> name in groups
      ensures g.Some? ==> g.value == groups[name] && g.value.name == name
    {
      if name in groups then Some(groups[name]) else None
    }
  }
}
