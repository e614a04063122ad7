/**
  String helpers behind the two path dispatchers (Go's `strings.HasPrefix`,
  `strings.SplitN(s, "/", 2)` and `strings.Split(s, "/")`), the routing
  outcome they share, and the HTTP response a handler produces.
*/
module Paths {
  import opened Results
  import opened LruSpec

  /** `strings.HasPrefix(s, prefix)`. */
  predicate HasPrefix(s: string, prefix: string)
  {
    |prefix| <= |s| && s[..|prefix|] == prefix
  }

  /** The position of the first `c` in `s`, if any (`strings.Index`). */
  function IndexOf(s: string, c: char): (r: Option<nat>)
    ensures r.None? <==> c !in s
    ensures r.Some? ==> r.value < |s| && s[r.value] == c && c !in s[..r.value]
  {
    if s == [] then None
    else if s[0] == c then Some(0)
    else match IndexOf(s[1..], c)
      case None => None
      case Some(i) => Some(i + 1)
  }

  /** How many times `c` occurs in `s`. */
  function Count(s: string, c: char): nat
  {
    if s == [] then 0 else (if s[0] == c then 1 else 0) + Count(s[1..], c)
  }

  /**
    `strings.SplitN(s, "/", 2)`: the whole string when it has no slash,
    otherwise the text before the first slash and everything after it.
  */
  function SplitFirst(s: string): (segs: seq<string>)
    ensures '/' !in s ==> segs == [s]
    ensures '/' in s ==> |segs| == 2 && '/' !in segs[0] && s == segs[0] + "/" + segs[1]
  {
    match IndexOf(s, '/')
    case None => [s]
    case Some(i) =>
      assert s == s[..i] + "/" + s[i + 1..];
      [s[..i], s[i + 1..]]
  }

  /** `strings.Split(s, "/")`: the slash-free pieces between the slashes. */
  function SplitAll(s: string): (segs: seq<string>)
    ensures |segs| >= 1
    ensures forall i | 0 <= i < |segs| :: '/' !in segs[i]
    decreases |s|
  {
    match IndexOf(s, '/')
    case None => [s]
    case Some(i) => [s[..i]] + SplitAll(s[i + 1..])
  }

  /** Pieces joined back with slashes (`strings.Join(segs, "/")`). */
  function Join(segs: seq<string>): string
    requires |segs| >= 1
  {
    if |segs| == 1 then segs[0] else segs[0] + "/" + Join(segs[1..])
  }

  /** Splitting on every slash loses nothing: joining the pieces gives the string back. */
  lemma {:induction false} SplitAllJoin(s: string)
    ensures Join(SplitAll(s)) == s
    decreases |s|
  {
    match IndexOf(s, '/')
    case None =>
    case Some(i) =>
      var tail := SplitAll(s[i + 1..]);
      SplitAllJoin(s[i + 1..]);
      JoinCons(s[..i], tail);
      assert s == s[..i] + "/" + s[i + 1..];
  }

  /** Joining a first piece in front of at least one more puts a slash between them. */
  lemma JoinCons(head: string, tail: seq<string>)
    requires |tail| >= 1
    ensures Join([head] + tail) == head + "/" + Join(tail)
  {
    assert ([head] + tail)[1..] == tail;
  }

  /** Splitting on every slash yields one piece more than there are slashes. */
  lemma {:induction false} SplitAllCount(s: string)
    ensures |SplitAll(s)| == Count(s, '/') + 1
    decreases |s|
  {
    match IndexOf(s, '/')
    case None =>
      CountAbsent(s, '/');
    case Some(i) =>
      SplitAllCount(s[i + 1..]);
      CountSplit(s[..i], "/", s[i + 1..], '/');
      CountAbsent(s[..i], '/');
      assert s == s[..i] + "/" + s[i + 1..];
  }

  /** A character that does not occur is counted zero times. */
  lemma {:induction false} CountAbsent(s: string, c: char)
    requires c !in s
    ensures Count(s, c) == 0
  {
    if s != [] {
      CountAbsent(s[1..], c);
    }
  }

  /** Counting over a concatenation of three strings adds up. */
  lemma {:induction false} CountSplit(a: string, b: string, d: string, c: char)
    ensures Count(a + b + d, c) == Count(a, c) + Count(b, c) + Count(d, c)
  {
    if a == [] {
      assert a + b + d == b + d;
      CountAppend(b, d, c);
    } else {
      CountSplit(a[1..], b, d, c);
      assert (a + b + d)[1..] == a[1..] + b + d;
    }
  }

  /** Counting over a concatenation of two strings adds up. */
  lemma {:induction false} CountAppend(a: string, b: string, c: char)
    ensures Count(a + b, c) == Count(a, c) + Count(b, c)
  {
    if a == [] {
      assert a + b == b;
    } else {
      CountAppend(a[1..], b, c);
      assert (a + b)[1..] == a[1..] + b;
    }
  }

  /** What a dispatcher makes of a request path. */
  datatype Route =
    | NoPrefix                          // the path lacks the base path: the handler panics
    | BadRequest                        // the path does not split into group and key
    | Dispatch(group: string, key: string)

  /** What a handler does with a request. */
  datatype Response =
    | Panic(reason: string)                                  // the handler panics (net/http drops the connection)
    | Text(status: int, text: string)                        // `http.Error`: a status and a plain-text body
    | Octets(status: int, contentType: string, body: seq<byte>)  // a binary success body

  const StatusOK := 200
  const StatusBadRequest := 400
  const StatusNotFound := 404
  const StatusInternalServerError := 500

  /** `http.Error(w, text, status)`: the status and the text followed by a newline. */
  function HttpError(text: string, status: int): Response
  {
    Text(status, text + "\n")
  }
}
