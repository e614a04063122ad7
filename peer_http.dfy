/**
  Peer routing and the peer endpoint, xyzcache/http.go. An `HTTPPool` knows
  this node's own address, the consistent-hash ring over the peer addresses
  and one HTTP getter per peer. Inbound requests are dispatched by splitting
  the path after the base path once, at its first slash; outbound requests
  are built from the peer's base URL and the escaped group and key.
*/
module PeerHttp {
  import opened Results
  import opened LruSpec
  import opened Paths
  import opened XyzCache

  /** The path prefix of the peer endpoint. */
  const DefaultBasePath: string := "/_xyzcache/"

  /**
    The inbound routing decision: panic without the base path; split the rest
    once at its first slash; no slash is a bad request; otherwise the group is
    the text before the first slash and the key is all the rest.
  */
  function ParsePath(basePath: string, path: string): (r: Route)
    ensures r.NoPrefix? <==> !HasPrefix(path, basePath)
    ensures r.BadRequest? <==> HasPrefix(path, basePath) && '/' !in path[|basePath|..]
    ensures r.Dispatch? ==> path == basePath + r.group + "/" + r.key && '/' !in r.group
  {
    if !HasPrefix(path, basePath) then NoPrefix
    else
      var segs := SplitFirst(path[|basePath|..]);
      if |segs| != 2 then BadRequest
      else
        assert path == basePath + path[|basePath|..];
        Dispatch(segs[0], segs[1])
  }

  /**
    Every group name without a slash and every key, slashes included, is
    recovered from the path `basePath + group + "/" + key`.
  */
  lemma ParsePathRoundTrip(basePath: string, group: string, key: string)
    requires '/' !in group
    ensures ParsePath(basePath, basePath + group + "/" + key) == Dispatch(group, key)
  {
    var path := basePath + group + "/" + key;
    assert path[..|basePath|] == basePath;
    var rest := path[|basePath|..];
    assert rest == group + "/" + key;
    assert rest[|group|] == '/';
    var r := ParsePath(basePath, path);
    assert r.Dispatch?;
    SlashFreePrefix(r.group, r.key, group, key);
  }

  /** A path of the form `basePath + group + "/" + key`, with a slash-free group, routes to that group and key only. */
  lemma ParsePathUnique(basePath: string, path: string)
    ensures forall group, key | path == basePath + group + "/" + key && '/' !in group ::
      ParsePath(basePath, path) == Dispatch(group, key)
  {
    forall group, key | path == basePath + group + "/" + key && '/' !in group
      ensures ParsePath(basePath, path) == Dispatch(group, key)
    {
      ParsePathRoundTrip(basePath, group, key);
    }
  }

  /** Two ways of writing a string as "slash-free text, a slash, the rest" are the same. */
  lemma SlashFreePrefix(g1: string, k1: string, g2: string, k2: string)
    requires '/' !in g1 && '/' !in g2
    requires g1 + "/" + k1 == g2 + "/" + k2
    ensures g1 == g2 && k1 == k2
  {
    var s := g1 + "/" + k1;
    assert s[|g1|] == '/' && s[|g2|] == '/';
    assert g1 == s[..|g1|] == g2;
    assert k1 == s[|g1| + 1..] == k2;
  }

  /** The peer getter of one remote node: requests go to `baseURL` (peer address + base path). */
  datatype HttpGetter = HttpGetter(baseURL: string)
  {
    /** The request URL: base URL, escaped group, a slash, escaped key (`url.QueryEscape` is `escape`). */
    function RequestURL(escape: string -> string, req: Request): (u: string)
      ensures HasPrefix(u, baseURL)
      ensures u[|baseURL|..] == escape(req.group) + "/" + escape(req.key)
    {
      baseURL + escape(req.group) + "/" + escape(req.key)
    }

    /**
      Fetches a value: a transport error, a status other than 200, an
      unreadable body or an undecodable response is a failure, never a miss;
      only a 200 reply that decodes gives the decoded value.
    */
    function Get(req: Request, escape: string -> string, transport: string -> HttpReply,
                 unmarshal: seq<byte> -> Result<Value, string>): (r: Result<Value, string>)
      ensures var reply := transport(RequestURL(escape, req));
        r.Success? <==>
          reply.Reply? && reply.status == StatusOK && reply.body.Success? && unmarshal(reply.body.value).Success?
      ensures var reply := transport(RequestURL(escape, req));
        r.Success? ==> r.value == unmarshal(reply.body.value).value
      ensures var reply := transport(RequestURL(escape, req));
        reply.Reply? && reply.status != StatusOK ==> r == Failure("server returned: " + reply.statusText)
    {
      match transport(RequestURL(escape, req))
      case TransportError(e) => Failure(e)
      case Reply(status, statusText, body) =>
        if status != StatusOK then Failure("server returned: " + statusText)
        else match body
          case Failure(e) => Failure("reading response body: " + e)
          case Success(bytes) =>
            match unmarshal(bytes)
            case Failure(e) => Failure("decoding response body: " + e)
            case Success(v) => Success(v)
    }
  }

  /** What `http.Get` of a URL gives back: a transport error, or a status line and a body that may fail to read. */
  datatype HttpReply =
    | TransportError(message: string)
    | Reply(status: int, statusText: string, body: Result<seq<byte>, string>)

  /**
    The path the peer's handler reads for a request: net/http hands it the
    percent-decoded path (`r.URL.Path`), so each escaped piece arrives as
    `unescape(escape(piece))`. Escaped text holds only complete escapes, so
    decoding the whole path decodes each piece on its own, and the slash
    between the pieces stays a slash.
  */
  function DecodedPath(escape: string -> string, unescape: string -> string, req: Request): (p: string)
    ensures HasPrefix(p, DefaultBasePath)
    ensures p[|DefaultBasePath|..] == unescape(escape(req.group)) + "/" + unescape(escape(req.key))
  {
    DefaultBasePath + unescape(escape(req.group)) + "/" + unescape(escape(req.key))
  }

  /**
    A request built by a peer getter goes to its peer's endpoint and is
    dispatched there to the decoded group and key, as long as the decoded
    group has no slash.
  */
  lemma RequestDispatches(peer: string, escape: string -> string, unescape: string -> string, req: Request)
    requires '/' !in unescape(escape(req.group))
    ensures HttpGetter(peer + DefaultBasePath).RequestURL(escape, req)
      == peer + DefaultBasePath + escape(req.group) + "/" + escape(req.key)
    ensures ParsePath(DefaultBasePath, DecodedPath(escape, unescape, req))
      == Dispatch(unescape(escape(req.group)), unescape(escape(req.key)))
  {
    ParsePathRoundTrip(DefaultBasePath, unescape(escape(req.group)), unescape(escape(req.key)));
  }

  /**
    When decoding undoes the escaping of both pieces, the peer serves exactly
    the group and key that were asked for, keys with slashes included.
  */
  lemma RequestReachesItsKey(escape: string -> string, unescape: string -> string, req: Request)
    requires '/' !in req.group
    requires unescape(escape(req.group)) == req.group && unescape(escape(req.key)) == req.key
    ensures ParsePath(DefaultBasePath, DecodedPath(escape, unescape, req)) == Dispatch(req.group, req.key)
  {
    ParsePathRoundTrip(DefaultBasePath, req.group, req.key);
  }

  /**
    A group whose decoded name holds a slash is split at that slash: the
    handler never looks up the group that was asked for.
  */
  lemma SlashInGroupMisrouted(escape: string -> string, unescape: string -> string, req: Request)
    requires '/' in unescape(escape(req.group))
    ensures var r := ParsePath(DefaultBasePath, DecodedPath(escape, unescape, req));
      r.Dispatch? && r.group != unescape(escape(req.group))
  {
    var d := DecodedPath(escape, unescape, req);
    assert '/' in d[|DefaultBasePath|..] by {
      var i :| 0 <= i < |unescape(escape(req.group))| && unescape(escape(req.group))[i] == '/';
      assert d[|DefaultBasePath|..][i] == '/';
    }
  }

  /**
    The lookup contract of the consistent-hash ring (`consistentHash.Map.Get`):
    an empty ring gives "", otherwise the answer is "" or one of the peers.
  */
  ghost predicate RingLookup(locate: (seq<string>, string) -> string)
  {
    && (forall key: string {:trigger locate([], key)} :: locate([], key) == "")
    && (forall peers: seq<string>, key: string {:trigger locate(peers, key)} ::
          locate(peers, key) == "" || locate(peers, key) in peers)
  }

  class HTTPPool {
    /** This node's own address. */
    const self: string
    const basePath: string
    /** The ring's lookup: a deterministic function of the peer list and the key. */
    const locate: (seq<string>, string) -> string
    /** The peers added to the ring; `None` until `Set` builds it. */
    var ring: Option<seq<string>>
    var httpGetters: map<string, HttpGetter>

    /** Exactly the ring's peers have getters, each aimed at that peer's base URL. */
    ghost predicate Valid()
      reads this
    {
      && basePath == DefaultBasePath
      && RingLookup(locate)
      && (ring.None? ==> httpGetters == map[])
      && (ring.Some? ==> forall p :: p in httpGetters <==> p in ring.value)
      && (forall p | p in httpGetters :: httpGetters[p] == HttpGetter(p + basePath))
    }

    constructor NewHTTPPool(self: string, locate: (seq<string>, string) -> string)
      requires RingLookup(locate)
      ensures Valid()
      ensures this.self == self && this.locate == locate && ring.None? && httpGetters == map[]
    {
      this.self := self;
      basePath := DefaultBasePath;
      this.locate := locate;
      ring := None;
      httpGetters := map[];
    }

    /**
      The inbound handler's decision: panic on a foreign path, 400 when the
      rest has no slash, 404 for an unknown group (whose `Get` is not
      called), 500 with the error text when `Get` or the encoding fails, and
      otherwise 200 with the encoded value.
    */
    function ServeHTTP(path: string, lookup: string -> bool, get: (string, string) -> Result<Value, Error>,
                       marshal: Value -> Result<seq<byte>, string>): (resp: Response)
      ensures !HasPrefix(path, basePath) ==> resp.Panic?
      ensures HasPrefix(path, basePath) && '/' !in path[|basePath|..] ==>
        resp == Text(StatusBadRequest, "bad request\n")
      ensures forall group, key | path == basePath + group + "/" + key && '/' !in group ::
        && (!lookup(group) ==> resp == Text(StatusNotFound, "group not found\n"))
        && (lookup(group) && get(group, key).Failure? ==>
              resp == Text(StatusInternalServerError, get(group, key).error.Message() + "\n"))
        && (lookup(group) && get(group, key).Success? && marshal(get(group, key).value).Failure? ==>
              resp == Text(StatusInternalServerError, marshal(get(group, key).value).error + "\n"))
        && (lookup(group) && get(group, key).Success? && marshal(get(group, key).value).Success? ==>
              resp == Octets(StatusOK, "application/octet-stream", marshal(get(group, key).value).value))
    {
      ParsePathUnique(basePath, path);
      assert "bad request" + "\n" == "bad request\n";
      assert "group not found" + "\n" == "group not found\n";
      match ParsePath(basePath, path)
      case NoPrefix => Panic("HTTPPool: URL\U{4E0D}\U{5408}\U{6CD5}")
      case BadRequest => HttpError("bad request", StatusBadRequest)
      case Dispatch(groupName, key) =>
        if !lookup(groupName) then HttpError("group not found", StatusNotFound)
        else match get(groupName, key)
          case Failure(err) => HttpError(err.Message(), StatusInternalServerError)
          case Success(bv) =>
            match marshal(bv)
            case Failure(err) => HttpError(err, StatusInternalServerError)
            case Success(body) => Octets(StatusOK, "application/octet-stream", body)
    }

    /**
      Rebuilds the ring from `peers` and replaces the getter table wholesale:
      every listed peer gets a getter aimed at peer + base path, no other peer
      keeps one.
    */
    method Set(peers: seq<string>)
      requires Valid()
      modifies this
      ensures Valid()
      ensures ring == Some(peers)
      ensures forall p :: p in httpGetters <==> p in peers
      ensures forall p | p in httpGetters :: httpGetters[p] == HttpGetter(p + DefaultBasePath)
    {
      ring := Some(peers);
      httpGetters := map[];
      for i := 0 to |peers|
        invariant ring == Some(peers)
        invariant forall p :: p in httpGetters <==> p in peers[..i]
        invariant forall p | p in httpGetters :: httpGetters[p] == HttpGetter(p + basePath)
      {
        httpGetters := httpGetters[peers[i] := HttpGetter(peers[i] + basePath)];
      }
      assert peers[..|peers|] == peers;
    }

    /**
      The getter of the peer that owns `key`: only when the ring names a
      non-empty address other than this node, and then it is aimed at that
      peer, never at this node itself.
    */
    function PickPeer(key: string): (r: Option<HttpGetter>)
      requires Valid() && ring.Some?
      reads this
      ensures r.Some? <==> locate(ring.value, key) != "" && locate(ring.value, key) != self
      ensures r.Some? ==> locate(ring.value, key) in ring.value
      ensures r.Some? ==> r.value == HttpGetter(locate(ring.value, key) + basePath)
      ensures r.Some? ==> r.value.baseURL != self + basePath
    {
      var peer := locate(ring.value, key);
      if peer != "" && peer != self then
        assert peer in ring.value;
        AppendCancel(peer, self, basePath);
        Some(httpGetters[peer])
      else None
    }
  }

  /** Appending the same suffix to two strings gives equal strings exactly when they were equal. */
  lemma AppendCancel(a: string, b: string, suffix: string)
    ensures a + suffix == b + suffix <==> a == b
  {
    assert (a + suffix)[..|a|] == a;
    assert (b + suffix)[..|b|] == b;
  }

  /**
    The empty key after a known group ("/_xyzcache/g/") parses, and the
    group's rejection of the empty key is reported as a 500. The rejection
    itself is a premise here: it is what `XyzCache.Group.Get` ensures for the
    empty key, and `get` stands for that method.
  */
  lemma EmptyKeyIsServerError(pool: HTTPPool, lookup: string -> bool, get: (string, string) -> Result<Value, Error>,
                              marshal: Value -> Result<seq<byte>, string>)
    requires pool.basePath == DefaultBasePath
    requires lookup("g") && get("g", "") == Failure(EmptyKey)
    ensures pool.ServeHTTP("/_xyzcache/g/", lookup, get, marshal)
      == Text(StatusInternalServerError, EmptyKeyMessage + "\n")
  {
    assert DefaultBasePath + "g" == "/_xyzcache/g";
    assert "/_xyzcache/g" + "/" == "/_xyzcache/g/";
    assert "/_xyzcache/g/" + "" == "/_xyzcache/g/";
    ParsePathRoundTrip(DefaultBasePath, "g", "");
  }
}
