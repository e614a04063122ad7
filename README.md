# XyzCache in Dafny

A model of the core of XyzCache, a Go distributed read-through cache in the style of groupcache. It covers four parts:

- **The byte-accounted LRU store.** Two near-identical copies exist: `lru/lru.go` is module `Lru` and `xyzcache/lru/lru.go` is module `XyzLru`. Both are Dafny classes over the state Go updates in place:
  - the recency list `ll`, a sequence whose front is the most recently used entry;
  - the key map `cache`;
  - the running byte count `nbytes` and the ceiling `maxBytes` (0 means unbounded);
  - a log `evicted` of the calls made to the `OnEvicted` callback.
  
  Module `LruSpec` holds what both copies are proved against:
  - the functions `Touch` (store a key as most recently used), `Evict` and `Evictions` (the eviction loop);
  - lemmas that the map and the list agree, that `nbytes` is the sum of the entry sizes, that eviction takes the least recently used entries first and stops once the ceiling is met, and that the ceiling holds afterwards.
  
  Module `XyzLruTest` restates the three unit tests of `xyzcache/lru/lru_test.go` as methods verified against the class contracts.
- **Cache groups** (`xyzcache/xyzcache.go`, module `XyzCache`). `Group.Get` works as a small state machine:
  1. The empty key is rejected.
  2. A hit in the local store is returned.
  3. On a miss, a remote peer is asked first, and its value is returned without being stored.
  4. Otherwise the group's getter is asked, and only its value is stored.
  
  The registry of groups by name and the one-shot peer registration are also modelled. The getter, the peer picker and the peer getter are function values.
- **Peer routing and the peer endpoint** (`xyzcache/http.go`, module `PeerHttp`), covering:
  - the inbound path dispatch, which splits once at the first slash;
  - the status decision of `ServeHTTP`;
  - the outbound request URL and the reply handling of the HTTP getter;
  - `Set`, which rebuilds the peer table;
  - `PickPeer`, which never routes to this node itself.
- **The older dispatcher** (`http/http.go`, module `LegacyHttp`). It splits on every slash and falls through after its 404. It is modelled as written and with that fall-through corrected.

Module `Paths` holds the string helpers both dispatchers use (`HasPrefix`, `SplitN(s, "/", 2)`, `Split(s, "/")`) and the response shapes. Module `Results` holds `Option`, `Result` and `Completion`; a `Completion` is a call that either returns or panics.

Go panics, including nil dereferences, are outcomes of the model: a `Panicked` completion, a `Panic` response, or the `fault` result of `Lru.Cache.RemoveOldest`. They are not preconditions, except in the two cases listed under "## Left out": `PickPeer` before `Set` builds the ring, and a negative ceiling.

## Model

| member | source | states |
|---|---|---|
| LruSpec.TouchMap | xyzcache/lru/lru.go:61-71 | Storing a key keeps the keys distinct, puts that entry at the front, and updates the map at that key only (insert or replace) |
| LruSpec.TouchBytes | xyzcache/lru/lru.go:61-71 | Replacing a value changes the byte count by the new length minus the old one; a new key adds len(key) + len(value) |
| LruSpec.TouchCount | lru/lru.go:62-72 | A replace keeps the number of entries; an insert adds one |
| LruSpec.WithoutSpec | xyzcache/lru/lru.go:63 | Unlinking a key's element keeps the keys distinct, deletes exactly that key from the map and subtracts exactly that entry's size |
| LruSpec.WithoutAbsent | xyzcache/lru/lru.go:68-70 | Unlinking a key that is not stored leaves the list unchanged, so a new key is simply pushed to the front |
| LruSpec.BytesDropLast | xyzcache/lru/lru.go:47-58 | Removing the back element subtracts exactly len(key) + len(value) of that entry |
| LruSpec.DropLastMap | xyzcache/lru/lru.go:47-58 | Removing the back element deletes exactly its key from the map and keeps the keys distinct |
| LruSpec.LastInMap | xyzcache/lru/lru.go:48-52 | The back element's key is always in the map |
| LruSpec.MapSize | xyzcache/lru/lru.go:77-79 | With distinct keys the list length equals the number of map keys |
| LruSpec.EvictShape | xyzcache/lru/lru.go:72-74 | The eviction loop keeps a prefix of the list and removes the back entries, least recently used first; the kept and evicted entries account for the whole list; a zero ceiling evicts nothing |
| LruSpec.EvictStep | xyzcache/lru/lru.go:72-74 | One pass of the loop over capacity removes the back entry first, and the loop goes on from the shorter list |
| LruSpec.EvictWithinCapacity | xyzcache/lru/lru.go:72-74 | With a non-zero ceiling, the list left by the loop is within the ceiling |
| LruSpec.EvictMinimal | xyzcache/lru/lru.go:72-74 | The loop stops as soon as the ceiling is met: the list it stopped one entry short of was still over the ceiling |
| LruSpec.EvictKeepsFront | xyzcache/lru/lru.go:72-74 | An entry that fits under the ceiling on its own survives eviction at the front of the list |
| LruSpec.EvictMap | xyzcache/lru/lru.go:72-74 | Eviction keeps the keys distinct, and the map loses exactly the keys of the evicted entries |
| XyzLru.Cache.NewLRUCache | xyzcache/lru/lru.go:26-33 | A new store is empty, valid and has the given ceiling and callback |
| XyzLru.Cache.Get | xyzcache/lru/lru.go:36-45 | A hit returns the stored value and moves that entry to the front, with map and byte count unchanged; a miss returns nil and changes nothing |
| XyzLru.Cache.RemoveOldest | xyzcache/lru/lru.go:47-58 | On an empty store it changes nothing. Otherwise it removes exactly the back entry from list and map, subtracts its size, and reports it once to the callback when one is set |
| XyzLru.Cache.Store | xyzcache/lru/lru.go:61-71 | The first half of `Add`: the list becomes the touched list, the map is updated at the key, the byte count changes by the insert or replace delta, and nothing is evicted |
| XyzLru.Cache.Add | xyzcache/lru/lru.go:61-75 | The list becomes the eviction loop's result on the touched list, and the callback sees exactly the evicted entries in order. A non-zero ceiling holds afterwards. With a zero ceiling the map is updated at the key and the byte count changes by the insert or replace delta. The store invariant is kept |
| XyzLru.Cache.Len | xyzcache/lru/lru.go:77-79 | The list length equals the number of keys in the map |
| Lru.Cache.NewLRUCache | lru/lru.go:26-33 | A new store is empty, valid and has the given ceiling and callback |
| Lru.Cache.Get | lru/lru.go:36-45 | A hit returns the stored value and moves it to the front; a miss returns nil and changes nothing |
| Lru.Cache.RemoveOldest | lru/lru.go:47-59 | It faults exactly when the store is empty, having changed nothing. Otherwise it removes the back entry from list and map, subtracts its size and reports it to the callback |
| Lru.Cache.Store | lru/lru.go:62-72 | The first half of `Add`, with the same contract as in the other copy |
| Lru.Cache.Add | lru/lru.go:62-77 | Same contract as the other copy; the loop never reaches the faulting empty case |
| Lru.Cache.Len | lru/lru.go:79-81 | The list length equals the number of keys in the map |
| Lru.RemoveOldestOnEmptyFaults | lru/lru.go:47-50 | On a store fresh from `NewLRUCache`, `RemoveOldest` faults |
| XyzLruTest.GetHitAndMiss | xyzcache/lru/lru_test.go:14-23 | After adding key1 -> "1234", key1 hits with "1234" and key2 misses |
| XyzLruTest.RemoveOldestOnOverflow | xyzcache/lru/lru_test.go:25-39 | With ceiling len("key1v1key2v2"), adding key1, key2, key3 evicts key1 and leaves two entries |
| XyzLruTest.OnEvictedOrder | xyzcache/lru/lru_test.go:41-55 | With ceiling 10, the callback sees key1 and then k2 |
| XyzCache.Group.constructor | xyzcache/xyzcache.go:44-49 | A new group has the given name and getter, no peers, an empty valid store with the given ceiling, and has called neither its getter nor a picker |
| XyzCache.Group.RegisterPeers | xyzcache/xyzcache.go:62-67 | A second registration panics and keeps the first; the first one installs the picker. Nothing else changes: the getter and picker call logs stay as they were |
| XyzCache.Group.GetFromPeer | xyzcache/xyzcache.go:102-113 | The peer is asked for this group's name and the key; its value or its error is passed on unchanged |
| XyzCache.Group.PopulateCache | xyzcache/xyzcache.go:126-128 | The value is added through the store's `Add` without callback; when it fits under the ceiling it is then stored under the key |
| XyzCache.Group.GetLocally | xyzcache/xyzcache.go:115-124 | The getter is called exactly once. Its success returns that value and stores it; its failure returns its error with the store untouched. No eviction callback is logged |
| XyzCache.Group.Load | xyzcache/xyzcache.go:82-100 | The picker is asked once when registered. A remote peer's value is returned with the store untouched and the getter not called. With no picker, no remote peer or a failing peer, the getter is called once and its outcome decides, as in `GetLocally` |
| XyzCache.Group.Get | xyzcache/xyzcache.go:69-80 | The empty key fails with "key为空" and touches nothing. A hit returns the stored value and refreshes its recency. Neither calls the getter or the picker. A miss follows `Load`'s three cases, including its calls |
| XyzCache.GetCachesLoadedValue | xyzcache/xyzcache.go:69-128 | With no peers, a miss is served by the getter and stored, so a second `Get` returns the same value. The getter runs exactly once across both calls |
| XyzCache.Registry.constructor | xyzcache/xyzcache.go:31-34 | The registry starts empty |
| XyzCache.Registry.NewGroup | xyzcache/xyzcache.go:36-53 | A nil getter panics and registers nothing. Otherwise a fresh group with its own fresh, empty store replaces any group of that name |
| XyzCache.Registry.GetGroup | xyzcache/xyzcache.go:55-60 | A group is found exactly when one is registered under the name, and it carries that name |
| Paths.IndexOf | xyzcache/http.go:87 | The first position of the character, or none exactly when it does not occur |
| Paths.SplitFirst | xyzcache/http.go:87 | `SplitN(s, "/", 2)`: one piece when there is no slash; otherwise a slash-free first piece and the rest, which rejoin to `s` |
| Paths.SplitAll | http/http.go:39 | `Split(s, "/")`: at least one piece, none containing a slash |
| Paths.SplitAllJoin | http/http.go:39 | Joining the pieces with slashes gives the string back |
| Paths.SplitAllCount | http/http.go:39-40 | There is one piece more than there are slashes |
| PeerHttp.ParsePath | xyzcache/http.go:80-94 | A foreign path is refused; no slash after the base path gives 400; otherwise the path is base path + a slash-free group + "/" + key |
| PeerHttp.ParsePathRoundTrip | xyzcache/http.go:87-94 | Any slash-free group and any key, slashes included, is recovered from its path |
| PeerHttp.ParsePathUnique | xyzcache/http.go:87-94 | A path names one group and key only |
| PeerHttp.SlashFreePrefix | xyzcache/http.go:87-94 | Splitting at the first slash is unambiguous |
| PeerHttp.HttpGetter.RequestURL | xyzcache/http.go:26-31 | The URL is the base URL followed by the escaped group, a slash and the escaped key |
| PeerHttp.HttpGetter.Get | xyzcache/http.go:25-52 | Success exactly for a 200 reply whose body reads and decodes, giving the decoded value; a non-200 reply fails with "server returned: " + status |
| PeerHttp.RequestDispatches | xyzcache/http.go:26-31 | A request is sent to the peer's endpoint, whose handler dispatches it to the decoded escaped group and key, provided the decoded group has no slash |
| PeerHttp.RequestReachesItsKey | xyzcache/http.go:26-31 | When decoding undoes escaping, a request reaches exactly the group and key asked for, including keys with slashes |
| PeerHttp.SlashInGroupMisrouted | xyzcache/http.go:87-94 | A group whose decoded name holds a slash is never the group looked up |
| PeerHttp.HTTPPool.NewHTTPPool | xyzcache/http.go:66-71 | A pool starts with the default base path, no ring and no getters |
| PeerHttp.HTTPPool.ServeHTTP | xyzcache/http.go:78-116 | A foreign path panics; no slash gives 400; an unknown group gives 404 without calling `Get`; a `Get` error gives 500 with its text; an encoding error gives 500 with its text; success gives 200 and the encoded value as octets |
| PeerHttp.EmptyKeyIsServerError | xyzcache/http.go:102-106 | "/_xyzcache/g/" reaches group g with the empty key, and the rejection is a 500 carrying "key为空" |
| PeerHttp.HTTPPool.Set | xyzcache/http.go:119-130 | The ring becomes the given peers. Exactly those peers have getters, each with base URL peer + base path |
| PeerHttp.HTTPPool.PickPeer | xyzcache/http.go:132-141 | A getter is returned exactly when the ring names a non-empty address other than this node. It is that peer's getter, never this node's |
| LegacyHttp.ParsePathAll | http/http.go:32-46 | A foreign path is refused; anything but exactly one slash after the base path gives 400; otherwise group and key are the two slash-free pieces |
| LegacyHttp.ParsePathAllRoundTrip | http/http.go:39-46 | A slash-free group and key are recovered from their path |
| LegacyHttp.SplitAllPair | http/http.go:39-46 | A slash-free group and key joined by one slash split into exactly those two pieces |
| LegacyHttp.ParsePathAllUnique | http/http.go:39-46 | A dispatched path names one group and key only |
| LegacyHttp.SlashInKeyRejected | http/http.go:39-43 | A key containing a slash is refused with 400 |
| LegacyHttp.DispatchersAgree | http/http.go:39-46 | Where the older dispatcher routes a path, the newer one routes it the same way |
| LegacyHttp.NewHTTPPool | http/http.go:18-23 | The pool keeps its address and uses the default base path |
| LegacyHttp.HTTPPool.ServeHTTP | http/http.go:30-61 | As written: foreign path panics; not two pieces gives 400; a found group's error gives 500 and its value is written raw with 200. An unknown group gives 404 followed by the nil group's empty-key error text for the empty key, and a panic for any other key |
| LegacyHttp.HTTPPool.ServeHTTPFixed | http/http.go:48-51 | With the `return` restored, an unknown group gives 404 alone; all other cases are as written |
| LegacyHttp.FixedAgreesOnKnownGroups | http/http.go:48-61 | The corrected handler differs from the one as written only for unknown groups |
| LegacyHttp.UnknownGroupPanics | http/http.go:48-53 | A non-empty key of an unknown group, such as "/_xyzcache/nosuch/k", panics as written but gives 404 alone once corrected |

## Left out

- Network I/O (`http.Get`, reading the body, the `ResponseWriter`, `ListenAndServe`): the reply to a URL is a parameter (`transport`), and a handler returns the response it would write.
- Protobuf encoding and decoding are the parameters `marshal` and `unmarshal`, which may fail. `url.QueryEscape` is the parameter `escape`, and the percent-decoding net/http applies to the request path is the parameter `unescape`.
- Locking (`mu` in both files, the pool's mutex) and the request coalescer `signalflight`: the model is sequential, and `Do(key, fn)` is `fn()`.
- The consistent-hash ring (`consistentHash.Map`, virtual replicas, hashing) is not part of this model. Its lookup is the function `locate` of the pool, assumed to give "" for an empty ring and otherwise "" or one of the peers.
- PeerHttp.HTTPPool.PickPeer: requires that `Set` has built the ring. Before `Set`, Go calls `Get` on a nil ring, which depends on the ring code that is not part of this model.
- The `cache` wrapper of the group, `ByteView` and `cloneBytes` are not part of this model. The group's store is the `xyzcache/lru` class itself, created with the group rather than on first use. Values are immutable byte sequences, so a copy is the value itself.
- Logging (`Log`, `log.Println`).
- PeerHttp.RequestDispatches: the request's group and key arrive decoded by net/http's path decoding, not as sent. These two escapings are not inverses: `QueryEscape` turns a space into "+", which path decoding keeps as "+", so a key "a b" is served as "a+b". The model states dispatch to `unescape(escape(…))` and does not fix `unescape` to net/http's function.
- XyzLru.Cache.Add: keys are Dafny strings, so len(key) counts characters where Go counts UTF-8 bytes. This affects only keys outside ASCII. The same holds for Lru.Cache.Add and the size functions.
- XyzLru.Cache.Add: `nbytes` is an unbounded integer, so `int64` overflow is not modelled. The same holds for Lru.Cache.Add.
- XyzLru.Cache.NewLRUCache: requires `maxBytes >= 0`, and the store keeps it as a natural number. With a negative ceiling the Go eviction loop never ends in this copy and faults in the other. The same holds for Lru.Cache.NewLRUCache and XyzCache.Registry.NewGroup.
- XyzLru.Cache.Add: the callback is recorded as a log of (key, value) calls and is fixed at construction. Go exposes `OnEvicted` as a public field that callers may reassign; that is not modelled.
- Element identity in the Go list and map (`*list.Element`) is not modelled: the map holds the values the elements carry.
- XyzCache.Group.PopulateCache: states the stored value only when the entry fits under the ceiling on its own. Otherwise the entry just added is itself evicted, which `EvictWithinCapacity` covers.
- PeerHttp.HTTPPool.ServeHTTP: the handler takes `lookup` and `get` as parameters standing for `XyzCache.Registry.GetGroup` and `XyzCache.Group.Get`; it is not composed with those members, so the store update a served miss causes is stated by `Group.Get` and not by the handler's contract.
- The group registry of `http/http.go`'s own package (its `GetGroup` and `Group.Get`) is not part of this model. `lookup` and `get` stand for them. `Get` on a nil group is taken to behave as `Group.Get` of xyzcache/xyzcache.go does before it first reads its receiver: the empty key is refused, and any other key dereferences the nil group.
- The two dispatchers differ in what they accept. The newer one (`xyzcache/http.go`) splits once at the first slash, so any key after it is accepted, slashes included. The older one (`http/http.go`) accepts exactly two slash-free pieces.

## Findings

| source | as written | input that shows it | evidently intended | confidence | as-written member | corrected member |
|---|---|---|---|---|---|---|
| lru/lru.go:47-50 | `RemoveOldest` guards on `c.ll != nil`, which always holds after `NewLRUCache`, then reads `ele.Value` of `c.ll.Back()` | `RemoveOldest` on a store fresh from `NewLRUCache`: `Back()` is nil and the read faults | do nothing on an empty store, as xyzcache/lru/lru.go:48-49 does | not executed; high that it faults, medium that callers reach it (`Add` never does) | Lru.RemoveOldestOnEmptyFaults | XyzLru.Cache.RemoveOldest |
| http/http.go:48-51 | after writing 404 for an unknown group there is no `return`, so `g.Get(key)` runs on a nil group | "/_xyzcache/nosuch/k" with no group "nosuch" (any non-empty key of an unknown group): the handler panics after the 404 | answer 404 and stop, as xyzcache/http.go:97-100 does | not executed; high | LegacyHttp.UnknownGroupPanics | LegacyHttp.HTTPPool.ServeHTTPFixed |
