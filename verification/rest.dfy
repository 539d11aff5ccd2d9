/**
 * Routing of an HTTP event to one of the three handlers
 * (the `router` of listens/delivery/aws_lambda/rest.py).
 */
module Rest {
  import opened Wrappers
  import opened Definitions

  datatype Handler = SubmitListenHandler | GetListensHandler | GetListenHandler

  const LISTENS_PATH := "/listens"
  const ITEM_PREFIX := "/listens/"

  /** A character of the class `[\d\w]`, taken as `[A-Za-z0-9_]`. */
  predicate IsWordChar(c: char) {
    'a' <= c <= 'z' || 'A' <= c <= 'Z' || '0' <= c <= '9' || c == '_'
  }

  /** How far the greedy `[\d\w]+` reaches into `s`: its longest prefix of word characters. */
  function WordRun(s: string): (n: nat)
    ensures n <= |s|
    ensures forall i :: 0 <= i < n ==> IsWordChar(s[i])
    ensures n < |s| ==> !IsWordChar(s[n])
    decreases |s|
  {
    if s != [] && IsWordChar(s[0]) then 1 + WordRun(s[1..]) else 0
  }

  /**
   * `re.match(r'/listens/[\d\w]+', path)`: the length of the match, anchored
   * at the start of the path and ending wherever the word run ends, or None.
   */
  function MatchItemRoute(path: string): (m: Option<nat>)
    ensures m.Some? ==> |ITEM_PREFIX| < m.value <= |path| && path[..|ITEM_PREFIX|] == ITEM_PREFIX
    ensures m.Some? ==> forall k :: |ITEM_PREFIX| <= k < m.value ==> IsWordChar(path[k])
    ensures m.Some? && m.value < |path| ==> !IsWordChar(path[m.value])
    ensures m.None? <==> !IsItemPath(path)
  {
    if |path| >= |ITEM_PREFIX| && path[..|ITEM_PREFIX|] == ITEM_PREFIX then
      var run := WordRun(path[|ITEM_PREFIX|..]);
      if run >= 1 then Some(|ITEM_PREFIX| + run) else None
    else
      None
  }

  /** An item path: `/listens/`, at least one word character, then anything. */
  predicate IsItemPath(path: string) {
    |path| > |ITEM_PREFIX| && path[..|ITEM_PREFIX|] == ITEM_PREFIX && IsWordChar(path[|ITEM_PREFIX|])
  }

  /** The regular expression matches exactly the item paths, and only as a prefix of them. */
  lemma MatchItemRouteIsPrefixMatch(path: string)
    ensures MatchItemRoute(path).Some? <==> IsItemPath(path)
    ensures MatchItemRoute(path).Some? ==> |ITEM_PREFIX| < MatchItemRoute(path).value <= |path|
  {
    if |path| >= |ITEM_PREFIX| && path[..|ITEM_PREFIX|] == ITEM_PREFIX {
      var rest := path[|ITEM_PREFIX|..];
      assert rest != [] ==> rest[0] == path[|ITEM_PREFIX|];
    }
  }

  /**
   * router: POST /listens submits, GET /listens lists, GET on an item path
   * fetches one; anything else is a RuntimeError. The branches exclude one
   * another, so the first that applies is the only one.
   */
  function Router(httpMethod: string, path: string): (r: Result<Handler, Exception>)
    ensures r == Success(SubmitListenHandler) <==> httpMethod == "POST" && path == LISTENS_PATH
    ensures r == Success(GetListensHandler) <==> httpMethod == "GET" && path == LISTENS_PATH
    ensures r == Success(GetListenHandler) <==> httpMethod == "GET" && IsItemPath(path)
    ensures r.Failure? <==> !(httpMethod == "POST" && path == LISTENS_PATH) && !(httpMethod == "GET" && path == LISTENS_PATH)
                            && !(httpMethod == "GET" && IsItemPath(path))
    ensures r.Failure? ==> r.error == RuntimeError("Unexpected event route")
  {
    MatchItemRouteIsPrefixMatch(path);
    if httpMethod == "POST" && path == LISTENS_PATH then
      Success(SubmitListenHandler)
    else if httpMethod == "GET" && path == LISTENS_PATH then
      Success(GetListensHandler)
    else if httpMethod == "GET" && MatchItemRoute(path).Some? then
      Success(GetListenHandler)
    else
      Failure(RuntimeError("Unexpected event route"))
  }

  /** The routes named in router's documentation, and three that are refused. */
  lemma RouterExamples()
    ensures Router("POST", "/listens") == Success(SubmitListenHandler)
    ensures Router("GET", "/listens") == Success(GetListensHandler)
    ensures Router("GET", "/listens/1b23d") == Success(GetListenHandler)
    ensures Router("POST", "/listens/1").Failure?
    ensures Router("GET", "/listens/").Failure?
    ensures Router("DELETE", "/listens").Failure?
  {
    assert IsItemPath("/listens/1b23d");
    assert !IsItemPath("/listens/");
  }
}
