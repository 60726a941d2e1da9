/** The finished client base class: a route map and merged headers fixed at construction,
    one dynamic entry point that resolves a route name, templates its path, runs the request
    pipe, the transport and the response pipe, and returns the response. */
module RestModels {
  import opened Wrappers
  import opened PhpArrays
  import opened PhpStrings
  import opened Http
  import opened Templating

  /** RestModel joins its query pairs with '&'. */
  const QueryGlue := "&"

  class RestModel {
    /** The base URI: the property default as the consumer subclass redeclares it. */
    var baseURI: string
    var routeMap: PhpArray<Route>
    var internalHeaders: PhpArray<string>
    /** The HTTP client. */
    var guzzleClient: Transport
    /** The overridable pipes (the same value back when not overridden). */
    const requestPipe: Request -> Request
    const responsePipe: Response -> Response

    /** The consumer's `routes()` and `headers()` become the client's state; the headers are
        the JSON defaults merged with the consumer's, whose values win. The base URI is not set
        by the constructor body: it is the `$baseURI` property default, which the consumer
        subclass redeclares, passed in here. */
    constructor (routes: PhpArray<Route>, headers: PhpArray<string>, baseURI: string, client: Transport,
                 requestPipe: Request -> Request, responsePipe: Response -> Response)
      ensures this.baseURI == baseURI && this.routeMap == routes
      ensures this.internalHeaders == Merge(DefaultHeaders(), headers)
      ensures this.guzzleClient == client
      ensures this.requestPipe == requestPipe && this.responsePipe == responsePipe
    {
      // the property initialisers and the consumer's overrides
      this.baseURI := baseURI;
      this.routeMap := [];
      this.internalHeaders := DefaultHeaders();
      this.requestPipe := requestPipe;
      this.responsePipe := responsePipe;
      this.guzzleClient := client;
      new;
      // the constructor body
      routeMap := routes;
      internalHeaders := Merge(internalHeaders, headers);
    }

    /** `__call`: an undeclared name fails with that name before anything is built or sent;
        otherwise the configuration is built, sent and the response piped. */
    method Call(name: string, args: seq<Options>) returns (r: Result<Response, Error>)
      ensures !HasKey(routeMap, name) ==> r == Err(BadMethodCall(name))
      ensures Resolve(routeMap, name, args, QueryGlue).Err? ==> r == Err(Resolve(routeMap, name, args, QueryGlue).error)
      ensures Resolve(routeMap, name, args, QueryGlue).Ok? ==>
                r == guzzleClient(requestPipe(NewRequest(baseURI, internalHeaders, Resolve(routeMap, name, args, QueryGlue).value)))
                       .MapValue(responsePipe)
    {
      if !IsMethodExists(name) {
        return Err(ThrowError(name));
      }
      var requestConfig :- BuildRequestConfig(Get(routeMap, name), FirstArgument(args));
      var response := Send(requestConfig);
      r := response.MapValue(responsePipe);
    }

    /** `isMethodExists`: some entry of the route map has that name. */
    function IsMethodExists(methodName: string): (b: bool)
      reads this
      ensures b <==> exists i :: 0 <= i < |routeMap| && routeMap[i].key == methodName
    {
      methodName in Keys(routeMap)
    }

    /** `throwError`: the bad-method-call failure, carrying the attempted name. */
    function ThrowError(methodName: string): (e: Error)
      ensures e.BadMethodCall? && e.methodName == methodName
    {
      BadMethodCall(methodName)
    }

    /** `buildRequestConfig`, with path and query substitution each run only when its option
        is given, path first. */
    method BuildRequestConfig(requestConfig: Route, options: Options) returns (r: Result<RequestConfig, Error>)
      ensures r == BuildConfig(requestConfig, options, QueryGlue)
    {
      var path := requestConfig.path;
      if options.params.Some? {
        path := SetPathParams(path, options.params.value);
      }
      if options.query.Some? {
        path :- SetQueryParams(path, options.query.value);
      }
      r := Ok(RequestConfig(path, requestConfig.httpMethod, BodyOf(requestConfig)));
    }

    /** `setQueryParams`: the pairs are collected in template order, each but the last with
        a trailing '&', and concatenated after the path and '?'. */
    method SetQueryParams(path: string, query: PhpArray<string>) returns (r: Result<string, Error>)
      ensures r == QueryString(path, query, QueryGlue)
    {
      var splitSections := Explode([QuerySeparator], path);
      if |splitSections| < 2 {
        return Err(MissingQuerySection(path));
      }
      var params := Explode("&", splitSections[1]);
      var readyParams: seq<string> := [];
      var key := 0;
      while key < |params|
        invariant 0 <= key <= |params| && |readyParams| == key
        invariant forall j :: 0 <= j < key ==> HasKey(query, params[j])
        invariant forall j :: 0 <= j < key ==>
                    readyParams[j] == QueryPair(params[j], query) + (if j != |params| - 1 then QueryGlue else "")
      {
        var param := params[key];
        if !HasKey(query, param) {
          assert QueryPairs(params, query).Err?;
          return Err(MissingQueryValue(param));
        }
        var paramString := param + "=" + Get(query, param);
        if key != |params| - 1 {
          paramString := paramString + QueryGlue;
        }
        readyParams := readyParams + [paramString];
        key := key + 1;
      }
      var pairs := QueryPairs(params, query).value;
      ImplodeTerminated(QueryGlue, pairs, readyParams);
      r := Ok(splitSections[0] + [QuerySeparator] + Implode("", readyParams));
    }

    /** `send`: the request for `baseURI + route` with the merged headers goes through the
        request pipe once and then to the transport. */
    method Send(requestConfig: RequestConfig) returns (r: Result<Response, Error>)
      ensures r == guzzleClient(requestPipe(NewRequest(baseURI, internalHeaders, requestConfig)))
    {
      var request := NewRequest(baseURI, internalHeaders, requestConfig);
      request := requestPipe(request);
      r := guzzleClient(request);
    }
  }
}
