/** The values the client passes around: route declarations, per-call options, the request
    configuration built for one call, the transport-level request and response, and the
    failures a call can end in. */
module Http {
  import opened Wrappers
  import opened PhpArrays

  /** A PHP value as a route may declare it for its body. */
  datatype Value = Str(s: string) | Arr(entries: seq<Entry<Value>>)

  /** One entry of the route map: `['method' => ..., 'path' => ..., 'body' => ...]`. */
  datatype Route = Route(httpMethod: string, path: string, body: Option<Value>)

  /** The first call argument: `['params' => [...], 'query' => [...]]`; a key that is not
      given is `None`, which is not the same as an empty array. */
  datatype Options = Options(params: Option<PhpArray<string>>, query: Option<PhpArray<string>>)

  /** `['route' => ..., 'method' => ..., 'body' => ...]`, as built for one call. */
  datatype RequestConfig = RequestConfig(route: string, httpMethod: string, body: Value)

  /** A request as handed to the transport: method, URI, headers and the body it carries. */
  datatype Request = Request(httpMethod: string, uri: string, headers: PhpArray<string>, body: Value)

  datatype Response = Response(status: int, headers: PhpArray<string>, body: string)

  datatype Error =
    | BadMethodCall(methodName: string)   // the called name is not a declared route
    | MissingQuerySection(path: string)   // the path has no '?' when a query is given
    | MissingQueryValue(name: string)     // a placeholder after '?' has no query value
    | TransportFailure(reason: string)    // raised by the HTTP transport itself

  /** The HTTP transport: sends one request and yields its response or its failure. */
  type Transport = Request -> Result<Response, Error>

  /** The options used when the call passes no argument: `$args[0] ?? []`. */
  function FirstArgument(args: seq<Options>): (o: Options)
    ensures |args| > 0 ==> o == args[0]
    ensures args == [] ==> o.params.None? && o.query.None?
  {
    if |args| > 0 then args[0] else Options(None, None)
  }

  /** `$requestConfig['body'] ?? []`. */
  function BodyOf(route: Route): (b: Value)
    ensures route.body.Some? ==> b == route.body.value
    ensures route.body.None? ==> b == Arr([])
  {
    route.body.GetOr(Arr([]))
  }

  /** The two JSON content-negotiation headers every client starts from. */
  function DefaultHeaders(): PhpArray<string>
  {
    [Entry("Content-Type", "application/json"), Entry("Accept", "application/json")]
  }

  /** The request a configuration stands for, against the base URI and the merged headers. */
  function NewRequest(baseUri: string, headers: PhpArray<string>, config: RequestConfig): (r: Request)
    ensures r.httpMethod == config.httpMethod && r.headers == headers && r.body == config.body
    ensures |r.uri| == |baseUri| + |config.route|
    ensures r.uri[..|baseUri|] == baseUri && r.uri[|baseUri|..] == config.route
  {
    Request(config.httpMethod, baseUri + config.route, headers, config.body)
  }

  /** The request and response pipes a client does not override. */
  function SameRequest(r: Request): Request { r }

  function SameResponse(r: Response): Response { r }

  /** With the default pipes a call returns exactly what the transport returns for the
      request it built. */
  lemma DefaultPipesTransparent(transport: Transport, request: Request)
    ensures transport(SameRequest(request)).MapValue(SameResponse) == transport(request)
  {
    match transport(request)
    case Ok(response) => assert SameResponse(response) == response;
    case Err(e) =>
  }

  /** Header merge: exactly the two default names and the consumer's names are present, the
      consumer's value wins for every name it declares, a default it does not declare stays
      "application/json", and the two defaults stay first, in their order. */
  lemma MergedHeaders(consumer: PhpArray<string>, name: string)
    ensures HasKey(Merge(DefaultHeaders(), consumer), name)
            <==> name == "Content-Type" || name == "Accept" || HasKey(consumer, name)
    ensures HasKey(consumer, name) ==> Get(Merge(DefaultHeaders(), consumer), name) == Get(consumer, name)
    ensures !HasKey(consumer, name) && (name == "Content-Type" || name == "Accept")
            ==> Get(Merge(DefaultHeaders(), consumer), name) == "application/json"
    ensures |Merge(DefaultHeaders(), consumer)| >= 2
    ensures Keys(Merge(DefaultHeaders(), consumer))[..2] == ["Content-Type", "Accept"]
  {
    assert Keys(DefaultHeaders()) == ["Content-Type", "Accept"];
    MergeLookup(DefaultHeaders(), consumer, name);
    MergeKeepsOrder(DefaultHeaders(), consumer);
  }
}
