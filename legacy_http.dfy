/**
  The older path dispatcher, http/http.go. It splits the path after the base
  path on every slash and answers only paths of exactly two pieces, so a key
  that contains a slash is refused. Found values are written raw, with no
  protobuf envelope. Its 404 branch for an unknown group does not return, so
  the handler goes on to call `Get` on a nil group; that outcome is explicit
  in `HTTPPool.ServeHTTP`, and `HTTPPool.ServeHTTPFixed` is the handler with
  the missing `return` restored.

  The group registry of that package (its `GetGroup` and `Group.Get`) is not
  part of this model: `lookup` and `get` stand for them. `Group.Get` on a nil
  group is taken to behave as the group's `Get` in xyzcache/xyzcache.go does
  before it first reads the receiver: the empty key is refused with the
  empty-key error, any other key dereferences the nil group.
*/
module LegacyHttp {
  import opened Results
  import opened LruSpec
  import opened Paths
  import XyzCache
  import PeerHttp

  const DefaultBasePath: string := "/_xyzcache/"

  /**
    The routing decision: panic without the base path; split the rest on
    every slash; anything but exactly two pieces is a bad request; otherwise
    the pieces are the group and the key.
  */
  function ParsePathAll(basePath: string, path: string): (r: Route)
    ensures r.NoPrefix? <==> !HasPrefix(path, basePath)
    ensures r.BadRequest? <==> HasPrefix(path, basePath) && Count(path[|basePath|..], '/') != 1
    ensures r.Dispatch? ==>
      path == basePath + r.group + "/" + r.key && '/' !in r.group && '/' !in r.key
  {
    if !HasPrefix(path, basePath) then NoPrefix
    else
      var rest := path[|basePath|..];
      var segs := SplitAll(rest);
      SplitAllCount(rest);
      if |segs| != 2 then BadRequest
      else
        SplitAllJoin(rest);
        assert segs[1..] == [segs[1]];
        assert path == basePath + rest;
        Dispatch(segs[0], segs[1])
  }

  /**
    Exactly the paths `basePath + group + "/" + key` with neither part holding
    a slash are dispatched, and to that group and key.
  */
  lemma ParsePathAllRoundTrip(basePath: string, group: string, key: string)
    requires '/' !in group && '/' !in key
    ensures ParsePathAll(basePath, basePath + group + "/" + key) == Dispatch(group, key)
  {
    var path := basePath + group + "/" + key;
    assert path[..|basePath|] == basePath;
    assert path[|basePath|..] == group + "/" + key;
    SplitAllPair(group, key);
  }

  /** A slash-free group and key, joined by one slash, split back into exactly those two pieces. */
  lemma SplitAllPair(group: string, key: string)
    requires '/' !in group && '/' !in key
    ensures SplitAll(group + "/" + key) == [group, key]
  {
    var s := group + "/" + key;
    assert s[|group|] == '/';
    assert s[..|group|] == group;
    var i := IndexOf(s, '/').value;
    assert i == |group|;
    assert s[i + 1..] == key;
  }

  /** A key holding a slash never reaches a group: the path splits into more than two pieces. */
  lemma SlashInKeyRejected(basePath: string, group: string, key: string)
    requires '/' in key
    ensures ParsePathAll(basePath, basePath + group + "/" + key) == BadRequest
  {
    var path := basePath + group + "/" + key;
    assert path[..|basePath|] == basePath;
    var rest := path[|basePath|..];
    assert rest == group + "/" + key;
    CountSplit(group, "/", key, '/');
    assert Count("/", '/') == 1 by {
      assert "/"[1..] == [];
    }
    CountPresent(key, '/');
  }

  /** A character that occurs is counted at least once. */
  lemma {:induction false} CountPresent(s: string, c: char)
    requires c in s
    ensures Count(s, c) >= 1
  {
    if s[0] != c {
      CountPresent(s[1..], c);
    }
  }

  /**
    Wherever the older dispatcher routes a path, the newer one (split once at
    the first slash) routes it to the same group and key; the newer one also
    accepts keys with slashes, which the older one refuses.
  */
  lemma DispatchersAgree(basePath: string, path: string)
    requires ParsePathAll(basePath, path).Dispatch?
    ensures PeerHttp.ParsePath(basePath, path) == ParsePathAll(basePath, path)
  {
    var r := ParsePathAll(basePath, path);
    PeerHttp.ParsePathRoundTrip(basePath, r.group, r.key);
  }

  datatype HTTPPool = HTTPPool(self: string, basePath: string)
  {
    /**
      The handler as written: panic on a foreign path, 400 unless the rest is
      exactly two pieces, 500 with the error text when a found group's `Get`
      fails, otherwise 200 with the raw value. For an unknown group the 404 is
      written and the handler falls through to `Get` on the nil group: the
      empty key appends that error's text to the 404 body (the second status
      is ignored), any other key panics.
    */
    function ServeHTTP(path: string, lookup: string -> bool,
                       get: (string, string) -> Result<Value, XyzCache.Error>): (resp: Response)
      ensures !HasPrefix(path, basePath) ==> resp.Panic?
      ensures HasPrefix(path, basePath) && Count(path[|basePath|..], '/') != 1 ==>
        resp == Text(StatusBadRequest, "bad request\n")
      ensures forall group, key | path == basePath + group + "/" + key && '/' !in group && '/' !in key ::
        && (!lookup(group) && key == "" ==>
              resp == Text(StatusNotFound, "group not found\n" + XyzCache.EmptyKeyMessage + "\n"))
        && (!lookup(group) && key != "" ==> resp.Panic?)
        && (lookup(group) && get(group, key).Failure? ==>
              resp == Text(StatusInternalServerError, get(group, key).error.Message() + "\n"))
        && (lookup(group) && get(group, key).Success? ==>
              resp == Octets(StatusOK, "application/octet-stream", get(group, key).value))
    {
      ParsePathAllUnique(basePath, path);
      assert "bad request" + "\n" == "bad request\n";
      match ParsePathAll(basePath, path)
      case NoPrefix => Panic("HTTPPool: URL\U{4E0D}\U{5408}\U{6CD5}")
      case BadRequest => HttpError("bad request", StatusBadRequest)
      case Dispatch(groupName, key) =>
        if !lookup(groupName) then
          // http.Error(w, "group not found", 404) without a return.
          if key == "" then
            Text(StatusNotFound, "group not found\n" + XyzCache.EmptyKeyMessage + "\n")
          else
            Panic("runtime error: invalid memory address or nil pointer dereference")
        else match get(groupName, key)
          case Failure(err) => HttpError(err.Message(), StatusInternalServerError)
          case Success(bv) => Octets(StatusOK, "application/octet-stream", bv)
    }

    /**
      The handler with the `return` after the 404 restored: an unknown group
      is answered with 404 alone, and `Get` is never called on it.
    */
    function ServeHTTPFixed(path: string, lookup: string -> bool,
                            get: (string, string) -> Result<Value, XyzCache.Error>): (resp: Response)
      ensures !HasPrefix(path, basePath) ==> resp.Panic?
      ensures HasPrefix(path, basePath) && Count(path[|basePath|..], '/') != 1 ==>
        resp == Text(StatusBadRequest, "bad request\n")
      ensures forall group, key | path == basePath + group + "/" + key && '/' !in group && '/' !in key ::
        && (!lookup(group) ==> resp == Text(StatusNotFound, "group not found\n"))
        && (lookup(group) && get(group, key).Failure? ==>
              resp == Text(StatusInternalServerError, get(group, key).error.Message() + "\n"))
        && (lookup(group) && get(group, key).Success? ==>
              resp == Octets(StatusOK, "application/octet-stream", get(group, key).value))
    {
      ParsePathAllUnique(basePath, path);
      assert "bad request" + "\n" == "bad request\n";
      assert "group not found" + "\n" == "group not found\n";
      match ParsePathAll(basePath, path)
      case NoPrefix => Panic("HTTPPool: URL\U{4E0D}\U{5408}\U{6CD5}")
      case BadRequest => HttpError("bad request", StatusBadRequest)
      case Dispatch(groupName, key) =>
        if !lookup(groupName) then HttpError("group not found", StatusNotFound)
        else match get(groupName, key)
          case Failure(err) => HttpError(err.Message(), StatusInternalServerError)
          case Success(bv) => Octets(StatusOK, "application/octet-stream", bv)
    }
  }

  /** A pool for this node, serving under the default base path. */
  function NewHTTPPool(self: string): (p: HTTPPool)
    ensures p.self == self && p.basePath == DefaultBasePath
  {
    HTTPPool(self, DefaultBasePath)
  }

  /** A dispatched path names one group and key only. */
  lemma ParsePathAllUnique(basePath: string, path: string)
    ensures forall group, key | path == basePath + group + "/" + key && '/' !in group && '/' !in key ::
      ParsePathAll(basePath, path) == Dispatch(group, key)
  {
    forall group, key | path == basePath + group + "/" + key && '/' !in group && '/' !in key
      ensures ParsePathAll(basePath, path) == Dispatch(group, key)
    {
      ParsePathAllRoundTrip(basePath, group, key);
    }
  }

  /** The corrected handler differs from the one as written only for unknown groups. */
  lemma FixedAgreesOnKnownGroups(pool: HTTPPool, path: string, lookup: string -> bool,
                                 get: (string, string) -> Result<Value, XyzCache.Error>)
    requires !(ParsePathAll(pool.basePath, path).Dispatch? && !lookup(ParsePathAll(pool.basePath, path).group))
    ensures pool.ServeHTTPFixed(path, lookup, get) == pool.ServeHTTP(path, lookup, get)
  {
  }

  /**
    The inputs that show the missing `return`: a request for a non-empty key
    of a group that does not exist, such as "/_xyzcache/nosuch/k", panics in
    the handler as written, where the corrected handler answers 404.
  */
  lemma UnknownGroupPanics(self: string, group: string, key: string, lookup: string -> bool,
                           get: (string, string) -> Result<Value, XyzCache.Error>)
    requires '/' !in group && '/' !in key && key != ""
    requires !lookup(group)
    ensures NewHTTPPool(self).ServeHTTP(DefaultBasePath + group + "/" + key, lookup, get).Panic?
    ensures NewHTTPPool(self).ServeHTTPFixed(DefaultBasePath + group + "/" + key, lookup, get)
      == Text(StatusNotFound, "group not found\n")
  {
    ParsePathAllRoundTrip(DefaultBasePath, group, key);
  }
}
