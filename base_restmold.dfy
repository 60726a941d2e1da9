/** The earlier client base class. Dispatch and templating are those of RestModel except
    that the query pairs are concatenated with no '&' between them and that `send` builds the
    request, calls the request pipe without using its result, and stops the script with a
    dump of the request: a call that gets that far ends with the dumped request, the transport
    is never used and no response is returned. */
module BaseRestmolds {
  import opened Wrappers
  import opened PhpArrays
  import opened PhpStrings
  import opened Http
  import opened Templating

  /** BaseRestmold concatenates its query pairs with nothing between them. */
  const QueryGlue := ""

  class BaseRestmold {
    var routeMap: PhpArray<Route>
    var headers: PhpArray<string>
    var baseUri: string
    /** The HTTP client; `send` never reaches it. */
    var guzzleClient: Transport
    const requestPipe: Request -> Request
    const responsePipe: Response -> Response

    /** The consumer's `getRoutes()`, `getBaseURI()` and `getHeaders()` become the client's
        state; the headers are the JSON defaults merged with the consumer's. */
    constructor (getRoutes: PhpArray<Route>, getBaseURI: string, getHeaders: PhpArray<string>, client: Transport,
                 requestPipe: Request -> Request, responsePipe: Response -> Response)
      ensures this.routeMap == getRoutes && this.baseUri == getBaseURI
      ensures this.headers == Merge(DefaultHeaders(), getHeaders)
      ensures this.guzzleClient == client
      ensures this.requestPipe == requestPipe && this.responsePipe == responsePipe
    {
      // the property initialisers and the consumer's overrides
      this.routeMap := [];
      this.headers := DefaultHeaders();
      this.baseUri := "";
      this.requestPipe := requestPipe;
      this.responsePipe := responsePipe;
      this.guzzleClient := client;
      new;
      // the constructor body
      routeMap := getRoutes;
      baseUri := getBaseURI;
      headers := Merge(headers, getHeaders);
    }

    /** `__call`: an undeclared name fails with that name before anything is built; a
        configuration that fails to build fails the call; otherwise the call ends in `send`
        with the request it dumps, which is the unpiped one. */
    method Call(name: string, args: seq<Options>) returns (r: Result<Request, Error>)
      ensures !HasKey(routeMap, name) ==> r == Err(BadMethodCall(name))
      ensures Resolve(routeMap, name, args, QueryGlue).Err? ==> r == Err(Resolve(routeMap, name, args, QueryGlue).error)
      ensures Resolve(routeMap, name, args, QueryGlue).Ok? ==>
                r == Ok(NewRequest(baseUri, headers, Resolve(routeMap, name, args, QueryGlue).value))
    {
      if !IsMethodExists(name) {
        return Err(ThrowError(name));
      }
      var requestConfig :- BuildRequestConfig(Get(routeMap, name), FirstArgument(args));
      var dumped := Send(requestConfig);
      r := Ok(dumped);
    }

    /** `isMethodExists`: some entry of the route map has that name. */
    function IsMethodExists(methodName: string): (b: bool)
      reads this
      ensures b <==> exists i :: 0 <= i < |routeMap| && routeMap[i].key == methodName
    {
      methodName in Keys(routeMap)
    }

    /** `throwError`: the bad-method-call failure, carrying the attempted name. */
    function ThrowError(methodName: string): (e: Error)
      ensures e.BadMethodCall? && e.methodName == methodName
    {
      BadMethodCall(methodName)
    }

    /** `buildRequestConfig`: params before query, each only when given; body defaults to []. */
    method BuildRequestConfig(requestConfig: Route, options: Options) returns (r: Result<RequestConfig, Error>)
      ensures r == BuildConfig(requestConfig, options, QueryGlue)
    {
      var path := requestConfig.path;
      if options.params.Some? {
        path := SetPathParams(path, options.params.value);
      }
      if options.query.Some? {
        path :- SetQueryParams(path, options.query.value);
      }
      r := Ok(RequestConfig(path, requestConfig.httpMethod, BodyOf(requestConfig)));
    }

    /** `setQueryParams`: the pairs are collected in template order and concatenated, with
        nothing between them, after the path and '?'. */
    method SetQueryParams(path: string, query: PhpArray<string>) returns (r: Result<string, Error>)
      ensures r == QueryString(path, query, QueryGlue)
    {
      var splitSections := Explode([QuerySeparator], path);
      if |splitSections| < 2 {
        return Err(MissingQuerySection(path));
      }
      var params := Explode("&", splitSections[1]);
      var readyParams: seq<string> := [];
      var i := 0;
      while i < |params|
        invariant 0 <= i <= |params| && |readyParams| == i
        invariant forall j :: 0 <= j < i ==> HasKey(query, params[j])
        invariant forall j :: 0 <= j < i ==> readyParams[j] == QueryPair(params[j], query)
      {
        var param := params[i];
        if !HasKey(query, param) {
          assert QueryPairs(params, query).Err?;
          return Err(MissingQueryValue(param));
        }
        readyParams := readyParams + [param + "=" + Get(query, param)];
        i := i + 1;
      }
      assert readyParams == QueryPairs(params, query).value;
      r := Ok(splitSections[0] + [QuerySeparator] + Implode("", readyParams));
    }

    /** `send`: builds the request for `baseUri + route` with the merged headers, passes it
        to the request pipe, discards what the pipe returns, and dumps the request it built. */
    method Send(requestConfig: RequestConfig) returns (dumped: Request)
      ensures dumped == NewRequest(baseUri, headers, requestConfig)
    {
      var request := NewRequest(baseUri, headers, requestConfig);
      var _ := requestPipe(request);
      dumped := request;
    }
  }
}
