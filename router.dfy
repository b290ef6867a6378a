/** The route table and the resolver of `RealTimeServer.findRoute`: a table
    per HTTP method of path patterns in registration order; an exact pattern
    wins, otherwise the first pattern containing ':' whose `/`-segments line
    up with the path's binds its `:name` segments. */
module Router {
  import opened JsonValue

  /** The handlers `setupRoutes` registers. */
  datatype Handler =
    | Index | Status | GetAllData | GetData | SetData | UpdateData | DeleteData
    | WebSocketPage | ClientJs | StyleCss | TestHtml

  datatype Route = Route(pattern: string, handler: Handler)

  /** One method's routes, in the insertion order `Object.entries` yields. */
  type Table = seq<Route>

  datatype RouteMatch = RouteMatch(handler: Handler, params: map<string, string>)

  // ---------------------------------------------------------------- splitting

  /** `s.split('/')`: the pieces between separators, empty pieces included. */
  function Split(s: string): (parts: seq<string>)
    ensures |parts| >= 1
    decreases |s|
  {
    if s == [] then [""]
    else
      var rest := Split(s[1..]);
      if s[0] == '/' then [""] + rest else [[s[0]] + rest[0]] + rest[1..]
  }

  /** `parts.join('/')`. */
  function Join(parts: seq<string>): string
    requires |parts| >= 1
  {
    if |parts| == 1 then parts[0] else parts[0] + "/" + Join(parts[1..])
  }

  predicate NoSlash(s: string) {
    forall k :: 0 <= k < |s| ==> s[k] != '/'
  }

  /** No piece of a split contains the separator. */
  lemma {:induction false} SplitPiecesHaveNoSlash(s: string)
    ensures forall j :: 0 <= j < |Split(s)| ==> NoSlash(Split(s)[j])
    decreases |s|
  {
    if s != [] {
      SplitPiecesHaveNoSlash(s[1..]);
    }
  }

  /** Joining the pieces of a split gives back the string. */
  lemma {:induction false} JoinSplit(s: string)
    ensures Join(Split(s)) == s
    decreases |s|
  {
    if s != [] {
      JoinSplit(s[1..]);
      var rest := Split(s[1..]);
      if s[0] != '/' && |rest| > 1 {
        assert Join(rest) == rest[0] + "/" + Join(rest[1..]);
      }
    }
  }

  /** Splitting a join of slash-free pieces gives back the pieces. */
  lemma {:induction false} SplitJoin(parts: seq<string>)
    requires |parts| >= 1
    requires forall j :: 0 <= j < |parts| ==> NoSlash(parts[j])
    ensures Split(Join(parts)) == parts
    decreases |parts|, |parts[0]|
  {
    if |parts[0]| > 0 {
      var first := parts[0];
      var tail := [first[1..]] + parts[1..];
      assert NoSlash(tail[0]);
      assert forall j :: 1 <= j < |tail| ==> tail[j] == parts[j];
      SplitJoin(tail);
      assert first == [first[0]] + first[1..];
      assert Join(parts) == [first[0]] + Join(tail) by {
        if |parts| > 1 {
          assert Join(tail) == first[1..] + "/" + Join(parts[1..]);
        }
      }
      var joined := Join(parts);
      assert joined != [] && joined[0] == first[0] && joined[0] != '/';
      assert joined[1..] == Join(tail);
      assert Split(joined) == [[first[0]] + tail[0]] + tail[1..];
    } else if |parts| > 1 {
      SplitJoin(parts[1..]);
      assert Join(parts) == "/" + Join(parts[1..]);
      assert Join(parts)[1..] == Join(parts[1..]);
    }
  }

  // ------------------------------------------------------------ specification

  /** A pattern segment `:name` binds a parameter called `name`. */
  predicate IsParam(segment: string) {
    |segment| > 0 && segment[0] == ':'
  }

  /** The first `n` segments agree: each is a parameter or equal to the path's. */
  predicate SegmentsAgree(routeParts: seq<string>, pathParts: seq<string>, n: nat)
    requires |routeParts| == |pathParts| && n <= |routeParts|
  {
    forall j :: 0 <= j < n ==> IsParam(routeParts[j]) || routeParts[j] == pathParts[j]
  }

  /** The parameters bound by the first `n` segments, in order, so that a name
      used twice keeps the later segment's value. */
  function Bind(routeParts: seq<string>, pathParts: seq<string>, n: nat): (params: map<string, string>)
    requires |routeParts| == |pathParts| && n <= |routeParts|
    ensures forall name :: name in params ==>
      exists j :: 0 <= j < n && IsParam(routeParts[j]) && routeParts[j][1..] == name && params[name] == pathParts[j]
  {
    if n == 0 then map[]
    else
      var params := Bind(routeParts, pathParts, n - 1);
      if IsParam(routeParts[n - 1]) then params[routeParts[n - 1][1..] := pathParts[n - 1]] else params
  }

  /** A parameterised pattern that matches the path structurally. */
  predicate PatternMatches(pattern: string, pathname: string) {
    ':' in pattern &&
    var routeParts, pathParts := Split(pattern), Split(pathname);
    |routeParts| == |pathParts| && SegmentsAgree(routeParts, pathParts, |routeParts|)
  }

  function Params(pattern: string, pathname: string): map<string, string>
    requires PatternMatches(pattern, pathname)
  {
    Bind(Split(pattern), Split(pathname), |Split(pattern)|)
  }

  /** `methodRoutes[pathname]`: the handler registered under exactly that key. */
  function Exact(table: Table, pathname: string): (r: Option<Handler>)
    ensures r.Some? <==> exists k :: 0 <= k < |table| && table[k].pattern == pathname
    ensures r.Some? ==> exists k :: 0 <= k < |table| && table[k].pattern == pathname && table[k].handler == r.value
  {
    if table == [] then None
    else if table[0].pattern == pathname then Some(table[0].handler)
    else Exact(table[1..], pathname)
  }

  /** The scan over parameterised routes, in table order. */
  function Scan(table: Table, pathname: string): (r: Option<RouteMatch>)
    ensures r.Some? ==>
      exists k :: 0 <= k < |table| && PatternMatches(table[k].pattern, pathname) &&
        r.value == RouteMatch(table[k].handler, Params(table[k].pattern, pathname))
  {
    if table == [] then None
    else if PatternMatches(table[0].pattern, pathname) then
      Some(RouteMatch(table[0].handler, Params(table[0].pattern, pathname)))
    else Scan(table[1..], pathname)
  }

  /** What `findRoute(method, pathname)` returns; None stands for null. */
  function Resolve(routes: map<string, Table>, verb: string, pathname: string): (r: Option<RouteMatch>)
    ensures verb !in routes ==> r.None?
    ensures r.Some? ==> verb in routes
    ensures r.Some? ==> exists k :: 0 <= k < |routes[verb]| && routes[verb][k].handler == r.value.handler
  {
    if verb !in routes then None
    else match Exact(routes[verb], pathname)
      case Some(h) => Some(RouteMatch(h, map[]))
      case None => Scan(routes[verb], pathname)
  }

  // ----------------------------------------------------------- implementation

  /** The segment loop of findRoute: walks the pattern's segments, binding
      each `:name` and stopping at the first literal segment that differs. */
  method MatchSegments(routeParts: seq<string>, pathParts: seq<string>) returns (matched: bool, params: map<string, string>)
    requires |routeParts| == |pathParts|
    ensures matched <==> SegmentsAgree(routeParts, pathParts, |routeParts|)
    ensures matched ==> params == Bind(routeParts, pathParts, |routeParts|)
  {
    params := map[];
    matched := true;
    var i := 0;
    while i < |routeParts|
      invariant 0 <= i <= |routeParts|
      invariant SegmentsAgree(routeParts, pathParts, i)
      invariant params == Bind(routeParts, pathParts, i)
    {
      if IsParam(routeParts[i]) {
        params := params[routeParts[i][1..] := pathParts[i]];
      } else if routeParts[i] != pathParts[i] {
        matched := false;
        break;
      }
      i := i + 1;
    }
  }

  /** One turn of findRoute's loop: a parameterised route whose segments
      agree with the path's yields its handler and parameters. */
  method MatchRoute(route: Route, pathname: string) returns (r: Option<RouteMatch>)
    ensures r.Some? <==> PatternMatches(route.pattern, pathname)
    ensures r.Some? ==> r.value == RouteMatch(route.handler, Params(route.pattern, pathname))
  {
    if ':' !in route.pattern {
      return None;
    }
    var routeParts := Split(route.pattern);
    var pathParts := Split(pathname);
    if |routeParts| != |pathParts| {
      return None;
    }
    var matched, params := MatchSegments(routeParts, pathParts);
    if matched {
      return Some(RouteMatch(route.handler, params));
    }
    return None;
  }

  /** The resolver as the server runs it: one pass over the table, an inner
      pass over the segments that stops at the first mismatch. */
  method FindRoute(routes: map<string, Table>, verb: string, pathname: string) returns (r: Option<RouteMatch>)
    ensures r == Resolve(routes, verb, pathname)
  {
    if verb !in routes {
      return None;
    }
    var table := routes[verb];
    var exact := Exact(table, pathname);
    if exact.Some? {
      return Some(RouteMatch(exact.value, map[]));
    }
    var k := 0;
    while k < |table|
      invariant 0 <= k <= |table|
      invariant Scan(table, pathname) == Scan(table[k..], pathname)
    {
      assert table[k..][0] == table[k] && table[k..][1..] == table[k + 1..];
      var found := MatchRoute(table[k], pathname);
      if found.Some? {
        return found;
      }
      k := k + 1;
    }
    return None;
  }

  // -------------------------------------------------------------- properties

  /** An exact key wins, with no parameters, even where a pattern also matches. */
  lemma ExactRouteWins(routes: map<string, Table>, verb: string, pathname: string, k: nat)
    requires verb in routes && k < |routes[verb]| && routes[verb][k].pattern == pathname
    ensures Resolve(routes, verb, pathname) == Some(RouteMatch(Exact(routes[verb], pathname).value, map[]))
  {
  }

  /** The scan returns the first structurally matching route, and only one. */
  lemma ScanFirstMatch(table: Table, pathname: string)
    ensures Scan(table, pathname).Some? <==>
      exists k :: 0 <= k < |table| && PatternMatches(table[k].pattern, pathname)
    ensures Scan(table, pathname).Some? ==>
      exists k :: 0 <= k < |table| && PatternMatches(table[k].pattern, pathname) &&
        (forall j :: 0 <= j < k ==> !PatternMatches(table[j].pattern, pathname)) &&
        Scan(table, pathname).value == RouteMatch(table[k].handler, Params(table[k].pattern, pathname))
  {
    ScanSucceeds(table, pathname);
    ScanReturnsFirst(table, pathname);
  }

  /** The scan succeeds exactly when some pattern of the table matches. */
  lemma {:induction false} ScanSucceeds(table: Table, pathname: string)
    ensures Scan(table, pathname).Some? <==>
      exists k :: 0 <= k < |table| && PatternMatches(table[k].pattern, pathname)
  {
    if table != [] && !PatternMatches(table[0].pattern, pathname) {
      var rest := table[1..];
      ScanSucceeds(rest, pathname);
      assert Scan(table, pathname) == Scan(rest, pathname);
      if exists k :: 0 <= k < |table| && PatternMatches(table[k].pattern, pathname) {
        var k :| 0 <= k < |table| && PatternMatches(table[k].pattern, pathname);
        assert table[k] == rest[k - 1];
      }
    }
  }

  /** A successful scan stops at the first matching pattern. */
  lemma {:induction false} ScanReturnsFirst(table: Table, pathname: string)
    ensures Scan(table, pathname).Some? ==>
      exists k :: 0 <= k < |table| && PatternMatches(table[k].pattern, pathname) &&
        (forall j :: 0 <= j < k ==> !PatternMatches(table[j].pattern, pathname)) &&
        Scan(table, pathname).value == RouteMatch(table[k].handler, Params(table[k].pattern, pathname))
  {
    if table != [] && !PatternMatches(table[0].pattern, pathname) {
      var rest := table[1..];
      ScanReturnsFirst(rest, pathname);
      assert Scan(table, pathname) == Scan(rest, pathname);
      if Scan(rest, pathname).Some? {
        var k :| 0 <= k < |rest| && PatternMatches(rest[k].pattern, pathname) &&
          (forall j :: 0 <= j < k ==> !PatternMatches(rest[j].pattern, pathname)) &&
          Scan(rest, pathname).value == RouteMatch(rest[k].handler, Params(rest[k].pattern, pathname));
        forall j | 0 <= j < k + 1 ensures !PatternMatches(table[j].pattern, pathname) {
          if j > 0 {
            assert table[j] == rest[j - 1];
          }
        }
        assert table[k + 1] == rest[k];
      }
    }
  }

  /** findRoute gives null exactly when the method has no table, or no key
      equals the path and no parameterised pattern matches it. */
  lemma ResolveNone(routes: map<string, Table>, verb: string, pathname: string)
    ensures Resolve(routes, verb, pathname).None? <==>
      verb !in routes ||
      ((forall k :: 0 <= k < |routes[verb]| ==> routes[verb][k].pattern != pathname) &&
       (forall k :: 0 <= k < |routes[verb]| ==> !PatternMatches(routes[verb][k].pattern, pathname)))
  {
    if verb in routes {
      ScanFirstMatch(routes[verb], pathname);
    }
  }

  /** A successful parameterised match has as many segments as the path, its
      literal segments equal the path's, and it is the first such route. */
  lemma ResolveByPattern(routes: map<string, Table>, verb: string, pathname: string)
    requires verb in routes && Exact(routes[verb], pathname).None?
    requires Resolve(routes, verb, pathname).Some?
    ensures exists k :: 0 <= k < |routes[verb]| && (var route := routes[verb][k];
      && ':' in route.pattern
      && |Split(route.pattern)| == |Split(pathname)|
      && (forall j :: 0 <= j < |Split(pathname)| && !IsParam(Split(route.pattern)[j]) ==>
            Split(route.pattern)[j] == Split(pathname)[j])
      && (forall j :: 0 <= j < k ==> !PatternMatches(routes[verb][j].pattern, pathname))
      && Resolve(routes, verb, pathname) == Some(RouteMatch(route.handler, Params(route.pattern, pathname))))
  {
    ScanFirstMatch(routes[verb], pathname);
  }

  /** The parameter names bound are exactly the names of the `:` segments. */
  lemma {:induction false} BindKeys(routeParts: seq<string>, pathParts: seq<string>, n: nat)
    requires |routeParts| == |pathParts| && n <= |routeParts|
    ensures forall name :: name in Bind(routeParts, pathParts, n) <==>
      exists j :: 0 <= j < n && IsParam(routeParts[j]) && routeParts[j][1..] == name
  {
    if n > 0 {
      BindKeys(routeParts, pathParts, n - 1);
    }
  }

  /** No `:` segment after position `j` (and before `n`) reuses its name. */
  predicate LastUse(routeParts: seq<string>, j: nat, n: nat)
    requires j < n <= |routeParts| && IsParam(routeParts[j])
  {
    forall l :: j < l < n && IsParam(routeParts[l]) ==> routeParts[l][1..] != routeParts[j][1..]
  }

  /** Each `:name` segment binds the path segment at its position (the last
      one, when a name is used twice). */
  lemma {:induction false} BindValue(routeParts: seq<string>, pathParts: seq<string>, n: nat, j: nat)
    requires |routeParts| == |pathParts| && j < n <= |routeParts|
    requires IsParam(routeParts[j])
    requires LastUse(routeParts, j, n)
    ensures routeParts[j][1..] in Bind(routeParts, pathParts, n)
    ensures Bind(routeParts, pathParts, n)[routeParts[j][1..]] == pathParts[j]
  {
    if j < n - 1 {
      BindValue(routeParts, pathParts, n - 1, j);
    }
  }

  /** The path obtained by putting `values[j]` in place of each `:` segment. */
  function Instantiate(routeParts: seq<string>, values: seq<string>): (pathParts: seq<string>)
    requires |routeParts| == |values|
    ensures |pathParts| == |routeParts|
  {
    seq(|routeParts|, j requires 0 <= j < |routeParts| =>
      if IsParam(routeParts[j]) then values[j] else routeParts[j])
  }

  /** Substituting slash-free strings for the parameters of a pattern gives a
      path that the pattern matches, with every parameter bound to the string
      put in its place. */
  lemma SubstitutedPathMatches(pattern: string, values: seq<string>)
    requires ':' in pattern
    requires |values| == |Split(pattern)|
    requires forall j :: 0 <= j < |values| ==> NoSlash(values[j])
    ensures var routeParts := Split(pattern);
      var pathname := Join(Instantiate(routeParts, values));
      PatternMatches(pattern, pathname) &&
      Split(pathname) == Instantiate(routeParts, values) &&
      forall j :: 0 <= j < |routeParts| && IsParam(routeParts[j]) && LastUse(routeParts, j, |routeParts|) ==>
        routeParts[j][1..] in Params(pattern, pathname) && Params(pattern, pathname)[routeParts[j][1..]] == values[j]
  {
    var routeParts := Split(pattern);
    var pathParts := Instantiate(routeParts, values);
    SplitPiecesHaveNoSlash(pattern);
    assert forall j :: 0 <= j < |pathParts| ==> NoSlash(pathParts[j]);
    SplitJoin(pathParts);
    forall j | 0 <= j < |routeParts| && IsParam(routeParts[j]) && LastUse(routeParts, j, |routeParts|)
      ensures routeParts[j][1..] in Params(pattern, Join(pathParts))
      ensures Params(pattern, Join(pathParts))[routeParts[j][1..]] == values[j]
    {
      BindValue(routeParts, pathParts, |routeParts|, j);
    }
  }

  // ------------------------------------------------------ the server's table

  /** No two routes of a table share a key, as no two properties of one
      object do. */
  predicate DistinctPatterns(table: Table) {
    forall j, k :: 0 <= j < k < |table| ==> table[j].pattern != table[k].pattern
  }

  /** The GET routes `setupRoutes` registers, in registration order. */
  function GetRoutes(): (t: Table)
    ensures |t| == 8 && t[3] == Route("/api/data/:key", GetData)
  {
    [
      Route("/", Index),
      Route("/status", Status),
      Route("/api/data", GetAllData),
      Route("/api/data/:key", GetData),
      Route("/ws", WebSocketPage),
      Route("/client.js", ClientJs),
      Route("/style.css", StyleCss),
      Route("/test.html", TestHtml)
    ]
  }

  /** The table `setupRoutes` builds, per method: the five tables of the
      constructor, GET holding the eight routes above. */
  function Routes(): (r: map<string, Table>)
    ensures r.Keys == {"GET", "POST", "PUT", "DELETE", "OPTIONS"}
    ensures r["GET"] == GetRoutes() && r["OPTIONS"] == []
  {
    map[
      "GET" := GetRoutes(),
      "POST" := [Route("/api/data", SetData)],
      "PUT" := [Route("/api/data/:key", UpdateData)],
      "DELETE" := [Route("/api/data/:key", DeleteData)],
      "OPTIONS" := []
    ]
  }

  /** Every table has distinct keys; among the GET keys only `/api/data/:key`
      has a parameter; POST, PUT and DELETE hold one route each. */
  lemma RouteTables()
    ensures forall verb :: verb in Routes() ==> DistinctPatterns(Routes()[verb])
    ensures forall k :: 0 <= k < |GetRoutes()| ==> (':' in GetRoutes()[k].pattern <==> k == 3)
    ensures |Routes()["POST"]| == |Routes()["PUT"]| == |Routes()["DELETE"]| == 1
  {
    var get := GetRoutes();
    forall k | 0 <= k < |get| ensures (':' in get[k].pattern <==> k == 3) {
      if k != 3 {
        assert forall i :: 0 <= i < |get[k].pattern| ==> get[k].pattern[i] != ':';
      } else {
        assert get[k].pattern[10] == ':';
      }
    }
  }

  lemma ApiKeySplit(key: string)
    requires NoSlash(key)
    ensures Split("/api/data/" + key) == ["", "api", "data", key]
  {
    var parts := ["", "api", "data", key];
    assert Join(parts[3..]) == key;
    assert Join(parts[2..]) == "data/" + key;
    assert Join(parts[1..]) == "api/data/" + key;
    assert Join(parts) == "/api/data/" + key;
    SplitJoin(parts);
  }

  /** The segments of `/api/data/:key` against those of `/api/data/<key>`. */
  lemma ApiKeySegments(key: string)
    ensures SegmentsAgree(["", "api", "data", ":key"], ["", "api", "data", key], 4)
    ensures Bind(["", "api", "data", ":key"], ["", "api", "data", key], 4) == map["key" := key]
  {
    var rp, pp := ["", "api", "data", ":key"], ["", "api", "data", key];
    assert !IsParam(rp[0]) && !IsParam(rp[1]) && !IsParam(rp[2]) && IsParam(rp[3]);
    assert Bind(rp, pp, 1) == map[];
    assert Bind(rp, pp, 2) == map[];
    assert Bind(rp, pp, 3) == map[];
  }

  /** `/api/data/<key>` matches the pattern `/api/data/:key`, binding `key`. */
  lemma ApiKeyPattern(key: string)
    requires NoSlash(key)
    ensures PatternMatches("/api/data/:key", "/api/data/" + key)
    ensures Params("/api/data/:key", "/api/data/" + key) == map["key" := key]
  {
    ApiKeySplit(key);
    ApiKeySplit(":key");
    assert "/api/data/:key" == "/api/data/" + ":key";
    assert "/api/data/:key"[10] == ':';
    ApiKeySegments(key);
  }

  /** No GET key other than `/api/data/:key` is `/api/data/` followed by something. */
  lemma ApiKeyNotExact(key: string)
    requires key != ":key"
    ensures Exact(GetRoutes(), "/api/data/" + key).None?
  {
    var path := "/api/data/" + key;
    assert |path| >= 10 && path[1] == 'a' && path[9] == '/';
    assert path[10..] == key && "/api/data/:key"[10..] == ":key";
    var get := GetRoutes();
    forall k | 0 <= k < |get| ensures get[k].pattern != path {
      var p := get[k].pattern;
      if k == 0 || k == 1 || k == 2 || k == 4 {
        assert |p| < 10;
      } else if k == 5 || k == 6 || k == 7 {
        assert p[1] != 'a';
      }
    }
  }

  lemma NoColonNoMatch(pattern: string, pathname: string)
    requires forall k :: 0 <= k < |pattern| ==> pattern[k] != ':'
    ensures !PatternMatches(pattern, pathname)
  {
  }

  lemma ScanSkip(table: Table, pathname: string)
    requires table != [] && !PatternMatches(table[0].pattern, pathname)
    ensures Scan(table, pathname) == Scan(table[1..], pathname)
  {
  }

  /** The GET routes before `/api/data/:key` have no parameters. */
  lemma GetScanSkipsLiterals(pathname: string)
    ensures Scan(GetRoutes(), pathname) == Scan(GetRoutes()[3..], pathname)
  {
    var get := GetRoutes();
    NoColonNoMatch(get[0].pattern, pathname);
    NoColonNoMatch(get[1].pattern, pathname);
    NoColonNoMatch(get[2].pattern, pathname);
    ScanSkip(get, pathname);
    ScanSkip(get[1..], pathname);
    ScanSkip(get[2..], pathname);
    assert get[1..][1..] == get[2..] && get[2..][1..] == get[3..];
  }

  /** A table whose first pattern matches resolves to it, absent an exact key. */
  lemma ResolveFirstPattern(routes: map<string, Table>, verb: string, pathname: string)
    requires verb in routes && routes[verb] != []
    requires Exact(routes[verb], pathname).None?
    requires PatternMatches(routes[verb][0].pattern, pathname)
    ensures Resolve(routes, verb, pathname) ==
      Some(RouteMatch(routes[verb][0].handler, Params(routes[verb][0].pattern, pathname)))
  {
  }

  /** `GET /api/data/<key>` reaches getData with `key` bound, unless the path
      is literally the pattern `/api/data/:key`. */
  lemma GetKeyRoute(key: string)
    requires NoSlash(key) && key != ":key"
    ensures Resolve(Routes(), "GET", "/api/data/" + key) == Some(RouteMatch(GetData, map["key" := key]))
  {
    var path := "/api/data/" + key;
    ApiKeyPattern(key);
    ApiKeyNotExact(key);
    GetScanSkipsLiterals(path);
    var rest := GetRoutes()[3..];
    assert rest[0] == Route("/api/data/:key", GetData);
    assert Scan(rest, path) == Some(RouteMatch(GetData, map["key" := key]));
    assert Routes()["GET"] == GetRoutes();
  }

  lemma KeyPathIsNotPattern(key: string)
    requires key != ":key"
    ensures "/api/data/" + key != "/api/data/:key"
  {
    assert ("/api/data/" + key)[10..] == key && "/api/data/:key"[10..] == ":key";
  }

  /** A table holding only `/api/data/:key` binds `key` for `/api/data/<key>`. */
  lemma KeyOnlyTable(routes: map<string, Table>, verb: string, handler: Handler, key: string)
    requires NoSlash(key) && key != ":key"
    requires verb in routes && routes[verb] == [Route("/api/data/:key", handler)]
    ensures Resolve(routes, verb, "/api/data/" + key) == Some(RouteMatch(handler, map["key" := key]))
  {
    var path := "/api/data/" + key;
    var table := routes[verb];
    KeyPathIsNotPattern(key);
    assert Exact(table, path).None? by {
      assert table[0].pattern != path && table[1..] == [];
    }
    ApiKeyPattern(key);
    assert Scan(table, path) == Some(RouteMatch(handler, map["key" := key]));
  }

  /** `PUT` and `DELETE` on `/api/data/<key>` reach updateData and deleteData
      with `key` bound. */
  lemma PutDeleteKeyRoutes(key: string)
    requires NoSlash(key) && key != ":key"
    ensures Resolve(Routes(), "PUT", "/api/data/" + key) == Some(RouteMatch(UpdateData, map["key" := key]))
    ensures Resolve(Routes(), "DELETE", "/api/data/" + key) == Some(RouteMatch(DeleteData, map["key" := key]))
  {
    KeyOnlyTable(Routes(), "PUT", UpdateData, key);
    KeyOnlyTable(Routes(), "DELETE", DeleteData, key);
  }

  /** No GET request reaches a handler that writes the store. */
  lemma GetNeverWrites(pathname: string)
    requires Resolve(Routes(), "GET", pathname).Some?
    ensures Resolve(Routes(), "GET", pathname).value.handler !in {SetData, UpdateData, DeleteData}
  {
    var get := GetRoutes();
    assert Routes()["GET"] == get;
    GetHandlersRead();
    ResolvedHandlerAmong(Routes(), "GET", pathname, Readers);
  }

  /** The handlers that never write the store. */
  const Readers: set<Handler> := {Index, Status, GetAllData, GetData, WebSocketPage, ClientJs, StyleCss, TestHtml}

  lemma GetHandlersRead()
    ensures forall k :: 0 <= k < |GetRoutes()| ==> GetRoutes()[k].handler in Readers
  {
  }

  /** Whatever a method's table resolves to, it is one of that table's handlers. */
  lemma ResolvedHandlerAmong(routes: map<string, Table>, verb: string, pathname: string, handlers: set<Handler>)
    requires verb in routes && forall k :: 0 <= k < |routes[verb]| ==> routes[verb][k].handler in handlers
    requires Resolve(routes, verb, pathname).Some?
    ensures Resolve(routes, verb, pathname).value.handler in handlers
  {
  }

  /** POST reaches setData for "/api/data" exactly, with no parameters. */
  lemma PostRoute(pathname: string)
    ensures Resolve(Routes(), "POST", pathname) ==
      if pathname == "/api/data" then Some(RouteMatch(SetData, map[])) else None
  {
    var post := Routes()["POST"];
    assert post == [Route("/api/data", SetData)];
    if pathname != "/api/data" {
      NoColonNoMatch("/api/data", pathname);
      ScanSkip(post, pathname);
      assert post[1..] == [];
    }
  }

  /** A method the server registers nothing for resolves to nothing. */
  lemma UnknownMethod(verb: string, pathname: string)
    requires verb !in {"GET", "POST", "PUT", "DELETE", "OPTIONS"}
    ensures Resolve(Routes(), verb, pathname).None?
  {
  }
}
