/** Route templating shared by both client classes: path-parameter substitution, the query
    string (its pairs joined by a glue that is "&" in RestModel and "" in BaseRestmold),
    the request configuration of one call, and route resolution by name. */
module Templating {
  import opened Wrappers
  import opened PhpArrays
  import opened PhpStrings
  import opened Http

  const PathSeparator: char := ':'
  const QuerySeparator: char := '?'

  /** `setPathParams`: explode the path on ':', run `str_replace` with the parameter names
      and values over every piece, and implode the pieces with no glue. */
  function SetPathParams(path: string, params: PhpArray<string>): string
  {
    Implode("", StrReplaceEach(Keys(params), Values(params), Explode([PathSeparator], path)))
  }

  /** `name=value` for a placeholder whose value is given. */
  function QueryPair(name: string, query: PhpArray<string>): string
    requires HasKey(query, name)
  {
    name + "=" + Get(query, name)
  }

  /** The pairs of the placeholder names, in order, or the failure at the first name that has
      no value. */
  function QueryPairs(names: seq<string>, query: PhpArray<string>): (r: Result<seq<string>, Error>)
    ensures r.Ok? <==> forall i :: 0 <= i < |names| ==> HasKey(query, names[i])
    ensures r.Ok? ==> |r.value| == |names|
    ensures r.Ok? ==> forall i :: 0 <= i < |names| ==> r.value[i] == QueryPair(names[i], query)
    ensures r.Err? ==> exists k :: 0 <= k < |names| && !HasKey(query, names[k])
                                   && r.error == MissingQueryValue(names[k])
                                   && forall j :: 0 <= j < k ==> HasKey(query, names[j])
  {
    if names == [] then Ok([])
    else if !HasKey(query, names[0]) then Err(MissingQueryValue(names[0]))
    else
      match QueryPairs(names[1..], query)
      case Err(e) =>
        assert exists k :: 0 <= k < |names[1..]| && !HasKey(query, names[1..][k])
                           && e == MissingQueryValue(names[1..][k])
                           && forall j :: 0 <= j < k ==> HasKey(query, names[1..][j]);
        var k :| 0 <= k < |names[1..]| && !HasKey(query, names[1..][k])
                 && e == MissingQueryValue(names[1..][k])
                 && forall j :: 0 <= j < k ==> HasKey(query, names[1..][j]);
        assert forall j :: 0 <= j < k + 1 ==> HasKey(query, names[j]) by {
          forall j | 0 <= j < k + 1 ensures HasKey(query, names[j]) {
            if j > 0 { assert names[j] == names[1..][j - 1]; }
          }
        }
        Err(e)
      case Ok(rest) => Ok([QueryPair(names[0], query)] + rest)
  }

  /** The query-string specification of `setQueryParams`: explode the path on '?', explode
      its second section on '&', look every name up, and put the first section, '?' and the
      pairs joined by `glue` together. */
  function QueryString(path: string, query: PhpArray<string>, glue: string): Result<string, Error>
  {
    var sections := Explode([QuerySeparator], path);
    if |sections| < 2 then Err(MissingQuerySection(path))
    else
      match QueryPairs(Explode("&", sections[1]), query)
      case Err(e) => Err(e)
      case Ok(pairs) => Ok(sections[0] + [QuerySeparator] + Implode(glue, pairs))
  }

  /** `buildRequestConfig`: the path is substituted only when `params` is given, then the
      query only when `query` is given; the method is copied and the body defaults to []. */
  function BuildConfig(route: Route, options: Options, glue: string): (r: Result<RequestConfig, Error>)
    ensures r.Ok? ==> r.value.httpMethod == route.httpMethod && r.value.body == BodyOf(route)
    ensures options.query.None? ==> r.Ok?
    ensures options.params.None? && options.query.None? ==> r.value.route == route.path
    ensures r.Err? ==> options.query.Some?
  {
    var path := if options.params.Some? then SetPathParams(route.path, options.params.value) else route.path;
    if options.query.Some? then
      match QueryString(path, options.query.value, glue)
      case Err(e) => Err(e)
      case Ok(p) => Ok(RequestConfig(p, route.httpMethod, BodyOf(route)))
    else Ok(RequestConfig(path, route.httpMethod, BodyOf(route)))
  }

  /** What `__call` builds before it sends: an undeclared name fails with the name, a
      declared one has its configuration built from the first argument. */
  function Resolve(routes: PhpArray<Route>, name: string, args: seq<Options>, glue: string): (r: Result<RequestConfig, Error>)
    ensures !HasKey(routes, name) <==> r == Err(BadMethodCall(name))
    ensures HasKey(routes, name) && args == [] ==>
              r == Ok(RequestConfig(Get(routes, name).path, Get(routes, name).httpMethod, BodyOf(Get(routes, name))))
  {
    if !HasKey(routes, name) then Err(BadMethodCall(name))
    else BuildConfig(Get(routes, name), FirstArgument(args), glue)
  }

  // ---------------------------------------------------------------------------------------
  // Path parameters

  /** A ':' ends a piece: substitution never spans it, and the ':' itself is dropped. */
  lemma PathParamsSplit(a: string, b: string, params: PhpArray<string>)
    ensures SetPathParams(a + [PathSeparator] + b, params) == SetPathParams(a, params) + SetPathParams(b, params)
  {
    var ks, vs := Keys(params), Values(params);
    var ea, eb := Explode([PathSeparator], a), Explode([PathSeparator], b);
    ExplodeConcat(PathSeparator, a, b);
    assert StrReplaceEach(ks, vs, ea + eb) == StrReplaceEach(ks, vs, ea) + StrReplaceEach(ks, vs, eb);
    ConcatAppend(StrReplaceEach(ks, vs, ea), StrReplaceEach(ks, vs, eb));
  }

  /** A piece without ':' is substituted by the array form of `str_replace`. */
  lemma PathParamsPiece(piece: string, params: PhpArray<string>)
    requires PathSeparator !in piece
    ensures SetPathParams(piece, params) == StrReplaceAll(Keys(params), Values(params), piece)
  {
    ExplodeAbsent(PathSeparator, piece);
  }

  /** No ':' of the template survives: when no value holds ':', the result holds none. */
  lemma PathParamsDropSeparators(path: string, params: PhpArray<string>)
    requires forall i :: 0 <= i < |params| ==> PathSeparator !in params[i].val
    ensures PathSeparator !in SetPathParams(path, params)
  {
    var pieces := Explode([PathSeparator], path);
    ExplodePartsAvoid(PathSeparator, path);
    var out := StrReplaceEach(Keys(params), Values(params), pieces);
    forall i | 0 <= i < |pieces| ensures PathSeparator !in out[i] {
      StrReplaceAllAvoids(PathSeparator, Keys(params), Values(params), pieces[i]);
    }
    ImplodeAvoids(PathSeparator, "", out);
  }

  /** A template with no ':' in which no parameter name occurs comes back unchanged. */
  lemma PathParamsUnchanged(path: string, params: PhpArray<string>)
    requires PathSeparator !in path
    requires forall i :: 0 <= i < |params| && params[i].key != "" ==> !Occurs(params[i].key, path)
    ensures SetPathParams(path, params) == path
  {
    PathParamsPiece(path, params);
    StrReplaceAllAbsent(Keys(params), Values(params), path);
  }

  /** With no parameters the template only loses its ':' characters. */
  lemma PathParamsNone(path: string)
    ensures SetPathParams(path, []) == Without(PathSeparator, path)
  {
    var pieces := Explode([PathSeparator], path);
    assert StrReplaceEach([], [], pieces) == pieces;
    ImplodeExplodeRemoves(PathSeparator, path);
  }

  // ---------------------------------------------------------------------------------------
  // Query string

  /** The placeholder names after the first '?' (none when there is no '?'). */
  function PlaceholderNames(path: string): seq<string>
  {
    var sections := Explode([QuerySeparator], path);
    if |sections| < 2 then [] else Explode("&", sections[1])
  }

  /** The query is built exactly when the path has a '?' and every placeholder after it has
      a value. */
  lemma QueryStringOk(path: string, query: PhpArray<string>, glue: string)
    ensures QueryString(path, query, glue).Ok? <==>
              QuerySeparator in path
              && forall i :: 0 <= i < |PlaceholderNames(path)| ==> HasKey(query, PlaceholderNames(path)[i])
  {
    ExplodeSplits(QuerySeparator, path);
    var names := PlaceholderNames(path);
    if QuerySeparator in path {
      assert QueryString(path, query, glue).Ok? <==> QueryPairs(names, query).Ok?;
      assert QueryPairs(names, query).Ok? <==> forall i :: 0 <= i < |names| ==> HasKey(query, names[i]);
    } else {
      assert QueryString(path, query, glue).Err?;
    }
  }

  /** A path without '?' fails, naming the path. */
  lemma QueryStringNoSection(path: string, query: PhpArray<string>, glue: string)
    requires QuerySeparator !in path
    ensures QueryString(path, query, glue) == Err(MissingQuerySection(path))
  {
    ExplodeAbsent(QuerySeparator, path);
  }

  /** For `P?n1&...&nk` with every name given, the result is `P?` followed by the pairs in
      template order, joined by `glue`. */
  lemma QueryStringWellFormed(prefix: string, names: seq<string>, query: PhpArray<string>, glue: string)
    requires QuerySeparator !in prefix
    requires |names| >= 1
    requires forall i :: 0 <= i < |names| ==> '&' !in names[i] && QuerySeparator !in names[i]
    requires forall i :: 0 <= i < |names| ==> HasKey(query, names[i])
    ensures QueryString(prefix + [QuerySeparator] + Implode("&", names), query, glue)
            == Ok(prefix + [QuerySeparator] + Implode(glue, seq(|names|, i requires 0 <= i < |names| => QueryPair(names[i], query))))
  {
    var section := Implode("&", names);
    ImplodeAvoids(QuerySeparator, "&", names);
    ExplodeAbsent(QuerySeparator, section);
    ExplodeAfterPrefix(QuerySeparator, prefix, section);
    ExplodeImplode('&', names);
    var pairs := QueryPairs(names, query).value;
    assert pairs == seq(|names|, i requires 0 <= i < |names| => QueryPair(names[i], query));
  }

  /** Whatever follows a second '?' is dropped. */
  lemma QueryStringDropsTail(a: string, b: string, c: string, query: PhpArray<string>, glue: string)
    requires QuerySeparator !in a && QuerySeparator !in b
    ensures QueryString(a + [QuerySeparator] + b + [QuerySeparator] + c, query, glue)
            == QueryString(a + [QuerySeparator] + b, query, glue)
  {
    var q := [QuerySeparator];
    assert a + q + b + q + c == a + q + (b + q + c);
    ExplodeAfterPrefix(QuerySeparator, a, b + q + c);
    ExplodeAfterPrefix(QuerySeparator, b, c);
    ExplodeAbsent(QuerySeparator, b);
    ExplodeAfterPrefix(QuerySeparator, a, b);
  }

  /** The pairs fail at the first name, in order, that has no value. */
  lemma {:induction false} QueryPairsFirstMissing(names: seq<string>, query: PhpArray<string>, k: nat)
    requires k < |names| && !HasKey(query, names[k])
    requires forall j :: 0 <= j < k ==> HasKey(query, names[j])
    ensures QueryPairs(names, query) == Err(MissingQueryValue(names[k]))
  {
    if k > 0 {
      assert HasKey(query, names[0]);
      var rest := names[1..];
      assert rest[k - 1] == names[k];
      assert forall j :: 0 <= j < k - 1 ==> rest[j] == names[j + 1];
      QueryPairsFirstMissing(rest, query, k - 1);
    }
  }

  /** A missing value fails with the first placeholder name, in template order, that has none. */
  lemma QueryStringMissingValue(prefix: string, names: seq<string>, query: PhpArray<string>, glue: string, k: nat)
    requires QuerySeparator !in prefix
    requires |names| >= 1
    requires forall i :: 0 <= i < |names| ==> '&' !in names[i] && QuerySeparator !in names[i]
    requires k < |names| && !HasKey(query, names[k])
    requires forall j :: 0 <= j < k ==> HasKey(query, names[j])
    ensures QueryString(prefix + [QuerySeparator] + Implode("&", names), query, glue) == Err(MissingQueryValue(names[k]))
  {
    var section := Implode("&", names);
    ImplodeAvoids(QuerySeparator, "&", names);
    ExplodeAbsent(QuerySeparator, section);
    ExplodeAfterPrefix(QuerySeparator, prefix, section);
    ExplodeImplode('&', names);
    QueryPairsFirstMissing(names, query, k);
  }
}
