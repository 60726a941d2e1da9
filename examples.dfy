/** Concrete, illustrative instances of the templating and dispatch properties: the route of
    the shipped `ApiExample` client, and inputs chosen to show the cases where the code's
    behaviour is easy to misread (substring replacement, sequential keys, options that are
    absent rather than empty, the ignored request pipe of BaseRestmold). */
module Examples {
  import opened Wrappers
  import opened PhpArrays
  import opened PhpStrings
  import opened Http
  import opened Templating
  import RestModels
  import BaseRestmolds

  // ---------------------------------------------------------------------------------------
  // Path parameters

  lemma StrReplaceIdSlash()
    ensures StrReplace("id", "42", "/ids/") == "/42s/"
  {
    assert "/ids/"[1..] == "ids/";
    assert "ids/"[2..] == "s/";
    assert "s/"[1..] == "/";
    assert StrReplace("id", "42", "/") == "/";
    assert StrReplace("id", "42", "s/") == "s/";
    assert StrReplace("id", "42", "ids/") == "42s/";
  }

  lemma StrReplaceWhole(needle: string, rep: string)
    requires needle != []
    ensures StrReplace(needle, rep, needle) == rep
  {
    assert needle[|needle|..] == [];
    assert needle[..|needle|] == needle;
  }

  lemma StrReplaceAllIdSlash()
    ensures StrReplaceAll(["id"], ["42"], "/ids/") == "/42s/"
  {
    StrReplaceIdSlash();
    assert StrReplaceAll(["id"], ["42"], "/ids/") == StrReplaceAll([], [], StrReplace("id", "42", "/ids/"));
  }

  /** A template `a:b` with one parameter: both pieces have the name replaced inside them. */
  lemma PathParamsOneKey(a: string, b: string, name: string, value: string)
    requires PathSeparator !in a && PathSeparator !in b
    requires name != []
    ensures SetPathParams(a + [PathSeparator] + b, [Entry(name, value)]) == StrReplace(name, value, a) + StrReplace(name, value, b)
  {
    var p: PhpArray<string> := [Entry(name, value)];
    assert Keys(p) == [name] && Values(p) == [value];
    PathParamsSplit(a, b, p);
    PathParamsPiece(a, p);
    PathParamsPiece(b, p);
  }

  lemma IdsTemplate()
    ensures "/ids/:id" == "/ids/" + [PathSeparator] + "id"
    ensures "/42s/" + "42" == "/42s/42"
  {
  }

  /** Substring, not whole-piece, replacement: `/ids/:id` with `id = 42` is `/42s/42`. */
  lemma PathParamsInsidePieces()
    ensures SetPathParams("/ids/:id", [Entry("id", "42")]) == "/42s/42"
  {
    IdsTemplate();
    PathParamsOneKey("/ids/", "id", "id", "42");
    StrReplaceIdSlash();
    StrReplaceWhole("id", "42");
  }

  /** A template `prefix:piece` with one parameter whose name cannot occur in the prefix:
      the prefix is kept and only the piece is substituted. */
  lemma PathParamsPrefixPiece(prefix: string, piece: string, name: string, value: string)
    requires name != [] && PathSeparator !in prefix && PathSeparator !in piece && name[0] !in prefix
    ensures SetPathParams(prefix + [PathSeparator] + piece, [Entry(name, value)]) == prefix + StrReplace(name, value, piece)
  {
    var p: PhpArray<string> := [Entry(name, value)];
    FirstCharAbsent(name, prefix);
    PathParamsSplit(prefix, piece, p);
    PathParamsUnchanged(prefix, p);
    PathParamsPiece(piece, p);
    assert Keys(p) == [name] && Values(p) == [value];
  }

  /** A template `prefix:name` whose prefix cannot hold the name becomes `prefix` + value. */
  lemma PathParamsOnePlaceholder(prefix: string, name: string, value: string)
    requires name != [] && PathSeparator !in prefix + name && name[0] !in prefix
    ensures SetPathParams(prefix + [PathSeparator] + name, [Entry(name, value)]) == prefix + value
  {
    assert PathSeparator !in prefix && PathSeparator !in name by {
      assert forall i :: 0 <= i < |prefix| ==> (prefix + name)[i] == prefix[i];
      assert forall i :: 0 <= i < |name| ==> (prefix + name)[|prefix| + i] == name[i];
    }
    PathParamsPrefixPiece(prefix, name, name, value);
    StrReplaceWhole(name, value);
  }

  /** `/users/:id` with `id = 42` is `/users/42`. */
  lemma PathParamsUserId()
    ensures SetPathParams("/users/:id", [Entry("id", "42")]) == "/users/42"
  {
    assert "/users/:id" == "/users/" + [PathSeparator] + "id";
    PathParamsOnePlaceholder("/users/", "id", "42");
  }

  /** A template `prefix:a` with parameters `a = b` then `b = c`, where neither name can occur
      in the prefix: the piece becomes `c`. */
  lemma PathParamsChained(prefix: string, a: string, b: string, c: string)
    requires a != [] && b != [] && a != b
    requires PathSeparator !in prefix && PathSeparator !in a && a[0] !in prefix && b[0] !in prefix
    ensures SetPathParams(prefix + [PathSeparator] + a, [Entry(a, b), Entry(b, c)]) == prefix + c
  {
    var p: PhpArray<string> := [Entry(a, b), Entry(b, c)];
    assert Keys(p) == [a, b] && Values(p) == [b, c];
    FirstCharAbsent(a, prefix);
    FirstCharAbsent(b, prefix);
    PathParamsSplit(prefix, a, p);
    PathParamsUnchanged(prefix, p);
    PathParamsPiece(a, p);
    StrReplaceWhole(a, b);
    StrReplaceWhole(b, c);
    assert [a, b][1..] == [b] && [b, c][1..] == [c];
    assert StrReplaceAll([b], [c], b) == StrReplaceAll([], [], c);
    assert StrReplaceAll([a, b], [b, c], a) == StrReplaceAll([b], [c], b);
  }

  lemma ChainTemplate()
    ensures "/:a" == "/" + [PathSeparator] + "a"
    ensures "/" + "c" == "/c"
  {
  }

  /** Keys apply one after the other: with `a = b` then `b = c`, the piece `a` becomes `c`. */
  lemma PathParamsSequential()
    ensures SetPathParams("/:a", [Entry("a", "b"), Entry("b", "c")]) == "/c"
  {
    ChainTemplate();
    PathParamsChained("/", "a", "b", "c");
  }

  // ---------------------------------------------------------------------------------------
  // Query string

  /** A template with two placeholders, `prefix?n1&n2`, gives `prefix?n1=v1<glue>n2=v2`. */
  lemma QueryTwo(prefix: string, n1: string, v1: string, n2: string, v2: string, glue: string)
    requires QuerySeparator !in prefix
    requires '&' !in n1 && QuerySeparator !in n1 && '&' !in n2 && QuerySeparator !in n2 && n1 != n2
    ensures QueryString(prefix + [QuerySeparator] + n1 + "&" + n2, [Entry(n1, v1), Entry(n2, v2)], glue)
            == Ok(prefix + [QuerySeparator] + (n1 + "=" + v1 + glue + n2 + "=" + v2))
  {
    var q: PhpArray<string> := [Entry(n1, v1), Entry(n2, v2)];
    var names := [n1, n2];
    assert Keys(q) == names;
    assert Implode("&", names) == n1 + "&" + n2;
    assert prefix + [QuerySeparator] + n1 + "&" + n2 == prefix + [QuerySeparator] + Implode("&", names);
    QueryStringWellFormed(prefix, names, q, glue);
    var pairs := seq(|names|, i requires 0 <= i < |names| => QueryPair(names[i], q));
    assert pairs == [n1 + "=" + v1, n2 + "=" + v2];
    assert Implode(glue, pairs) == n1 + "=" + v1 + glue + n2 + "=" + v2;
  }

  lemma SearchTemplate()
    ensures "/search" + [QuerySeparator] + "q" + "&" + "limit" == "/search?q&limit"
  {
  }

  lemma SearchResult()
    ensures "/search" + [QuerySeparator] + ("q" + "=" + "cats" + "&" + "limit" + "=" + "10") == "/search?q=cats&limit=10"
  {
  }

  /** `/search?q&limit` with `q = cats, limit = 10` is `/search?q=cats&limit=10` (RestModel). */
  lemma QuerySearch()
    ensures QueryString("/search?q&limit", [Entry("q", "cats"), Entry("limit", "10")], RestModels.QueryGlue)
            == Ok("/search?q=cats&limit=10")
  {
    QueryTwo("/search", "q", "cats", "limit", "10", "&");
    SearchTemplate();
    SearchResult();
  }

  lemma GluesTemplate()
    ensures "/a" + [QuerySeparator] + "x" + "&" + "y" == "/a?x&y"
  {
  }

  lemma GluesResults()
    ensures "/a" + [QuerySeparator] + ("x" + "=" + "1" + "&" + "y" + "=" + "2") == "/a?x=1&y=2"
    ensures "/a" + [QuerySeparator] + ("x" + "=" + "1" + "" + "y" + "=" + "2") == "/a?x=1y=2"
  {
  }

  /** `/a?x&y` with `x = 1, y = 2`: `/a?x=1&y=2` in RestModel, `/a?x=1y=2` in BaseRestmold. */
  lemma QueryGlues()
    ensures QueryString("/a?x&y", [Entry("x", "1"), Entry("y", "2")], RestModels.QueryGlue) == Ok("/a?x=1&y=2")
    ensures QueryString("/a?x&y", [Entry("x", "1"), Entry("y", "2")], BaseRestmolds.QueryGlue) == Ok("/a?x=1y=2")
  {
    GluesTemplate();
    GluesResults();
    QueryTwo("/a", "x", "1", "y", "2", "&");
    QueryTwo("/a", "x", "1", "y", "2", "");
  }

  /** `/search?q&limit` with only `q` given fails at `limit`. */
  lemma QueryMissingLimit()
    ensures QueryString("/search?q&limit", [Entry("q", "cats")], RestModels.QueryGlue) == Err(MissingQueryValue("limit"))
  {
    var q: PhpArray<string> := [Entry("q", "cats")];
    var names := ["q", "limit"];
    assert "/search?q&limit" == "/search" + [QuerySeparator] + Implode("&", names);
    assert Keys(q) == ["q"];
    QueryStringMissingValue("/search", names, q, "&", 1);
  }

  // ---------------------------------------------------------------------------------------
  // Headers

  /** Declaring `Accept: text/plain` gives `Content-Type: application/json, Accept: text/plain`. */
  lemma HeadersAcceptOverride()
    ensures Merge(DefaultHeaders(), [Entry("Accept", "text/plain")])
            == [Entry("Content-Type", "application/json"), Entry("Accept", "text/plain")]
  {
    var d := DefaultHeaders();
    var b: PhpArray<string> := [Entry("Accept", "text/plain")];
    assert b[1..] == [];
    assert Merge(d, b) == Put(d, "Accept", "text/plain");
    assert Keys(d) == ["Content-Type", "Accept"];
    assert IndexOf(d, "Accept") == 1;
  }

  // ---------------------------------------------------------------------------------------
  // Request configuration and dispatch

  /** An absent `params` leaves the ':' in place; an empty one removes it. */
  lemma ParamsAbsentOrEmpty()
    ensures BuildConfig(Route("GET", "/a:b", None), Options(None, None), "&").value.route == "/a:b"
    ensures BuildConfig(Route("GET", "/a:b", None), Options(Some([]), None), "&").value.route == "/ab"
  {
    assert "/a:b" == "/a" + [PathSeparator] + "b";
    PathParamsSplit("/a", "b", []);
    PathParamsUnchanged("/a", []);
    PathParamsUnchanged("b", []);
  }

  /** A template with one placeholder, `prefix?n`, gives `prefix?n=v`. */
  lemma QueryOne(prefix: string, n: string, v: string, glue: string)
    requires QuerySeparator !in prefix && '&' !in n && QuerySeparator !in n
    ensures QueryString(prefix + [QuerySeparator] + n, [Entry(n, v)], glue) == Ok(prefix + [QuerySeparator] + (n + "=" + v))
  {
    var q: PhpArray<string> := [Entry(n, v)];
    assert Keys(q) == [n];
    assert Implode("&", [n]) == n;
    QueryStringWellFormed(prefix, [n], q, glue);
    assert seq(1, i requires 0 <= i < 1 => QueryPair([n][i], q)) == [n + "=" + v];
  }

  lemma StrReplaceKQK()
    ensures StrReplace("k", "v", "k?k") == "v?v"
  {
    assert "k?k"[1..] == "?k";
    assert "?k"[1..] == "k";
    StrReplaceWhole("k", "v");
  }

  /** The path step of `PathBeforeQuery`: `/x/:k?k` with `k = v` is `/x/v?v`. */
  lemma PathRenamesQuery()
    ensures SetPathParams("/x/:k?k", [Entry("k", "v")]) == "/x/v?v"
  {
    RenamingTemplate();
    PathParamsPrefixPiece("/x/", "k?k", "k", "v");
    StrReplaceKQK();
  }

  lemma RenamingTemplate()
    ensures "/x/:k?k" == "/x/" + [PathSeparator] + "k?k"
    ensures "/x/" + "v?v" == "/x/v?v"
  {
  }

  /** Path substitution runs first: the query placeholder `k` of `/x/:k?k` is renamed `v` by
      the path parameter before the query is looked up. */
  lemma PathBeforeQuery()
    ensures BuildConfig(Route("GET", "/x/:k?k", None), Options(Some([Entry("k", "v")]), Some([Entry("v", "1")])), "&")
            == Ok(RequestConfig("/x/v?v=1", "GET", Arr([])))
  {
    PathRenamesQuery();
    QueryOne("/x/v", "v", "1", "&");
    RenamedQueryLiterals();
  }

  lemma RenamedQueryLiterals()
    ensures "/x/v" + [QuerySeparator] + "v" == "/x/v?v"
    ensures "/x/v" + [QuerySeparator] + ("v" + "=" + "1") == "/x/v?v=1"
  {
  }

  /** A route map with one route: calling its name builds that route's configuration. */
  lemma ResolveOnlyRoute(name: string, route: Route, args: seq<Options>, glue: string)
    ensures Resolve([Entry(name, route)], name, args, glue) == BuildConfig(route, FirstArgument(args), glue)
  {
    var routes: PhpArray<Route> := [Entry(name, route)];
    assert Keys(routes) == [name];
    assert Get(routes, name) == route;
  }

  /** `index -> GET /users/:id` called with `params: {id: 42}` against `http://api.test` is
      `GET http://api.test/users/42` with the empty body. */
  lemma ResolveUsersIndex()
    ensures var routes: PhpArray<Route> := [Entry("index", Route("GET", "/users/:id", None))];
            var config := Resolve(routes, "index", [Options(Some([Entry("id", "42")]), None)], RestModels.QueryGlue);
            config == Ok(RequestConfig("/users/42", "GET", Arr([])))
            && NewRequest("http://api.test", DefaultHeaders(), config.value)
               == Request("GET", "http://api.test/users/42", DefaultHeaders(), Arr([]))
  {
    ResolveOnlyRoute("index", Route("GET", "/users/:id", None), [Options(Some([Entry("id", "42")]), None)], RestModels.QueryGlue);
    PathParamsUserId();
    UsersIndexUri();
  }

  lemma UsersIndexUri()
    ensures "http://api.test" + "/users/42" == "http://api.test/users/42"
  {
  }

  /** The shipped example client: `index -> GET /index`, no consumer headers, base
      `http://localhost:8080/api/v1`. Calling `index` dumps the request for
      `http://localhost:8080/api/v1/index`; calling anything else fails with its name. */
  method ApiExampleIndex(client: Transport) returns (index: Result<Request, Error>, other: Result<Request, Error>)
    ensures index == Ok(Request("GET", "http://localhost:8080/api/v1/index", DefaultHeaders(), Arr([])))
    ensures other == Err(BadMethodCall("show"))
  {
    var route := Route("GET", "/index", None);
    var routes: PhpArray<Route> := [Entry("index", route)];
    var api := new BaseRestmolds.BaseRestmold(routes, "http://localhost:8080/api/v1", [], client, SameRequest, SameResponse);
    assert api.headers == DefaultHeaders();
    ResolveOnlyRoute("index", route, [], BaseRestmolds.QueryGlue);
    assert "http://localhost:8080/api/v1" + "/index" == "http://localhost:8080/api/v1/index";
    index := api.Call("index", []);
    assert Keys(routes) == ["index"];
    other := api.Call("show", []);
  }

  /** BaseRestmold ignores what its request pipe returns: a pipe that turns every request into
      a POST leaves the dumped request a GET. */
  method IgnoredRequestPipe(client: Transport) returns (dumped: Result<Request, Error>)
    ensures dumped == Ok(Request("GET", "http://localhost:8080/api/v1/index", DefaultHeaders(), Arr([])))
  {
    var route := Route("GET", "/index", None);
    var routes: PhpArray<Route> := [Entry("index", route)];
    var api := new BaseRestmolds.BaseRestmold(routes, "http://localhost:8080/api/v1", [], client,
                                              (r: Request) => r.(httpMethod := "POST"), SameResponse);
    assert api.headers == DefaultHeaders();
    ResolveOnlyRoute("index", route, [], BaseRestmolds.QueryGlue);
    assert "http://localhost:8080/api/v1" + "/index" == "http://localhost:8080/api/v1/index";
    dumped := api.Call("index", []);
  }

  /** RestModel with the default pipes returns what the transport returns for the request it
      built; with overridden pipes the request pipe's output is what is sent and the response
      pipe's output is what is returned. */
  method RestModelPipes(client: Transport, requestPipe: Request -> Request, responsePipe: Response -> Response)
    returns (plain: Result<Response, Error>, piped: Result<Response, Error>)
    ensures plain == client(Request("GET", "http://api.test/index", DefaultHeaders(), Arr([])))
    ensures piped == client(requestPipe(Request("GET", "http://api.test/index", DefaultHeaders(), Arr([])))).MapValue(responsePipe)
  {
    var route := Route("GET", "/index", None);
    var routes: PhpArray<Route> := [Entry("index", route)];
    var request := Request("GET", "http://api.test/index", DefaultHeaders(), Arr([]));
    ResolveOnlyRoute("index", route, [], RestModels.QueryGlue);
    assert "http://api.test" + "/index" == "http://api.test/index";
    var m := new RestModels.RestModel(routes, [], "http://api.test", client, SameRequest, SameResponse);
    assert m.internalHeaders == DefaultHeaders();
    assert NewRequest(m.baseURI, m.internalHeaders, RequestConfig("/index", "GET", Arr([]))) == request;
    plain := m.Call("index", []);
    match client(request) {
      case Ok(resp) => assert client(request).MapValue(SameResponse) == Ok(SameResponse(resp));
      case Err(e) =>
    }
    var n := new RestModels.RestModel(routes, [], "http://api.test", client, requestPipe, responsePipe);
    assert n.internalHeaders == DefaultHeaders();
    assert NewRequest(n.baseURI, n.internalHeaders, RequestConfig("/index", "GET", Arr([]))) == request;
    piped := n.Call("index", []);
  }
}
