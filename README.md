# Restmold: route dispatch and URL templating

Restmold is a PHP base class for REST API clients. A consumer subclass declares three things:

- a route map from method names to `{method, path, body?}`;
- a base URI;
- extra headers.

Calling an undeclared method on the client (PHP's `__call`) then works like this:

1. It looks the name up in the route map.
2. It builds the request configuration:
   - `params` substitute the `:` path placeholders;
   - `query` fills the `?name&name` query template.
3. It joins the base URI and the route.
4. It runs the request pipe, then the HTTP transport, then the response pipe.

The repository has two versions of this class:

- `RestModel`, the finished one. It joins query pairs with `&`.
- `BaseRestmold`, an earlier variant. It concatenates query pairs with nothing between them. Its `send` passes the request to the request pipe but ignores the result, then dumps the request with `dd` and stops the script.

A small factory produces the source text of a new client class. It substitutes three placeholders in a stub.

This model covers the following, one module per concern:

- `Wrappers`: `Option` and `Result`.
- PHP built-ins, with PHP's semantics on strings:
  - `PhpStrings`: `explode`, `implode`, `str_replace` with one needle or with arrays.
  - `PhpArrays`: string-keyed ordered arrays; `array_merge` for string keys.
- `Http`: the request and response values, the options of one call, the failure values, and the JSON default headers.
- `Templating`: the shared pure parts, as specification functions:
  - path substitution;
  - the query string, parameterised by its glue;
  - the configuration of one call;
  - name resolution.
- `RestModels.RestModel` and `BaseRestmolds.BaseRestmold`: the two client classes.
  - Both constructors set the route map and the merged headers.
  - BaseRestmold's constructor also sets the base URI from `getBaseURI()`.
  - RestModel's base URI is the `$baseURI` property default that the consumer subclass redeclares. The model passes it in as a constructor argument.
  - `SetQueryParams` keeps the PHP `foreach` loop, and each loop is proved equal to the `Templating` function.
- `Factory.RestModelFactory`: the stub substitution.
- `Examples`: concrete, illustrative instances. They cover the shipped `ApiExample` client and inputs chosen to show behaviours that are easy to misread.

Failures that PHP signals are explicit `Err` values of `Http.Error`:

- a `BadMethodCallException` for an unknown name;
- an undefined array offset when the path has no `?`;
- an undefined key when a query placeholder has no value.

The transport is a field of function type, from a request to a result holding a response. The request and response pipes are function-typed fields; by default they are the identity.

Two facts about the code matter for reading the model:

- **Path substitution** is substring replacement inside each `:`-separated piece. For example, `/ids/:id` with `id = 42` becomes `/42s/42` (`Examples.PathParamsInsidePieces`).
- **The default body** is the empty PHP array, and `json_encode([])` is `[]`. The model keeps the body as a value and does not serialise it.

## Model

| member | source | states |
|---|---|---|
| RestModels.RestModel.constructor | src/RestModel.php:77-82 | the route map is the consumer's routes verbatim; the headers are the JSON defaults `array_merge`d with the consumer's headers; the base URI is the given one, standing for the `$baseURI` property default of line 25 as the subclass redeclares it, which the constructor body leaves alone; the transport and pipes are the given ones |
| RestModels.RestModel.Call | src/RestModel.php:87-95 | an undeclared name fails with `BadMethodCall(name)` and nothing is sent; a configuration that fails to build fails the call with that error; otherwise the result is the transport applied to the request-piped request for `baseURI + route`, with the response pipe applied once to a response |
| RestModels.RestModel.IsMethodExists | src/RestModel.php:128-131 | true exactly when some entry of the route map has that name |
| RestModels.RestModel.ThrowError | src/RestModel.php:137-141 | the failure is a bad-method-call failure carrying the attempted name |
| RestModels.RestModel.BuildRequestConfig | src/RestModel.php:147-162 | equals `Templating.BuildConfig` with the `&` glue |
| RestModels.RestModel.SetQueryParams | src/RestModel.php:184-201 | the loop that appends `&` to every pair but the last, followed by a glue-less implode, equals `Templating.QueryString` with glue `&`, including both failure cases |
| RestModels.RestModel.Send | src/RestModel.php:209-216 | the request has URI `baseURI + route`, the merged headers, the method and the body of the configuration; it goes through the request pipe exactly once before the transport |
| BaseRestmolds.BaseRestmold.constructor | src/BaseRestmold.php:90-96 | `routeMap` is `getRoutes()` verbatim; `baseUri` is `getBaseURI()`; the headers are the defaults merged with `getHeaders()` |
| BaseRestmolds.BaseRestmold.Call | src/BaseRestmold.php:101-109 | an undeclared name fails with `BadMethodCall(name)` before any configuration is built; a failing configuration fails the call; otherwise the call ends with the dumped, unpiped request for `baseUri + route` |
| BaseRestmolds.BaseRestmold.IsMethodExists | src/BaseRestmold.php:142-145 | true exactly when some entry of the route map has that name |
| BaseRestmolds.BaseRestmold.ThrowError | src/BaseRestmold.php:151-155 | the failure is a bad-method-call failure carrying the attempted name |
| BaseRestmolds.BaseRestmold.BuildRequestConfig | src/BaseRestmold.php:161-176 | equals `Templating.BuildConfig` with the empty glue: params before query, each only when given; the body defaults to the empty array |
| BaseRestmolds.BaseRestmold.SetQueryParams | src/BaseRestmold.php:198-209 | the loop that collects `name=value` pairs, followed by a glue-less implode, equals `Templating.QueryString` with the empty glue, including both failure cases |
| BaseRestmolds.BaseRestmold.Send | src/BaseRestmold.php:217-226 | the dumped request is the one built from `baseUri + route`, the merged headers and the configuration; whatever the request pipe returns does not affect it |
| Templating.SetPathParams | src/RestModel.php:170-176 | computes `setPathParams`: explode on `:`, array `str_replace` of the names by the values in every piece, implode with no glue; its properties are the `PathParams*` lemmas |
| Templating.QueryPair | src/RestModel.php:190 | computes one `name=value` pair for a name that has a value |
| Templating.QueryString | src/RestModel.php:184-201 | computes the result of `setQueryParams` for a given glue: explode on `?`, explode the second section on `&`, look each name up, then first section, `?` and the pairs joined by the glue; a missing `?` or value is a failure; its properties are the `QueryString*` lemmas |
| Templating.PlaceholderNames | src/RestModel.php:186-187 | computes the names after the first `?`, split on `&` |
| Templating.QueryPairs | src/RestModel.php:189-197 | succeeds exactly when every name has a value; it then holds one `name=value` per name, in template order; otherwise it fails with the first name, in order, that has no value |
| Templating.BuildConfig | src/RestModel.php:147-162 | the method is copied and the body defaults to the empty array; without `query` it never fails; with no options the route is the declared path; a failure can only come from the query step |
| Templating.Resolve | src/RestModel.php:87-93 | fails with `BadMethodCall(name)` exactly when the name is undeclared; with no argument, the configuration is the declared path, method and defaulted body |
| Templating.PathParamsSplit | src/RestModel.php:170-176 | a `:` ends a piece: substituting `a:b` gives the substitution of `a` followed by that of `b`, and the `:` is dropped |
| Templating.PathParamsPiece | src/RestModel.php:170-176 | a piece without `:` is substituted by the array form of `str_replace`, keys applied in map order |
| Templating.PathParamsDropSeparators | src/BaseRestmold.php:184-190 | the path substitution BaseRestmold shares with RestModel: when no value holds `:`, no `:` is left in the result |
| Templating.PathParamsUnchanged | src/RestModel.php:170-176 | a path without `:` in which no non-empty parameter name occurs is returned unchanged |
| Templating.PathParamsNone | src/RestModel.php:170-176 | with no parameters the path only loses its `:` characters |
| Templating.QueryStringOk | src/RestModel.php:184-201 | the query is built exactly when the path has a `?` and every placeholder name after it has a value |
| Templating.QueryStringNoSection | src/RestModel.php:186-187 | a path without `?` fails, naming the path |
| Templating.QueryStringWellFormed | src/RestModel.php:184-201 | for `P?n1&...&nk` with `P` free of `?` and every name given, the result is `P?` followed by the `name=value` pairs in template order, joined by the glue |
| Templating.QueryStringDropsTail | src/RestModel.php:186-199 | whatever follows a second `?` is dropped from the result |
| Templating.QueryStringMissingValue | src/RestModel.php:189-190 | when the first name without a value is the k-th, the result fails with that name |
| Http.DefaultHeaders | src/RestModel.php:54-57 | computes the two default headers, `Content-Type` and `Accept`, both `application/json`, in that order |
| Http.SameRequest | src/RestModel.php:118-121 | the default request pipe, the identity |
| Http.SameResponse | src/RestModel.php:105-108 | the default response pipe, the identity |
| Http.DefaultPipesTransparent | src/RestModel.php:105-121 | for every transport and request, running the default request pipe, the transport and the default response pipe gives exactly the transport's result |
| Http.FirstArgument | src/RestModel.php:93 | the first call argument, or no options when there is none |
| Http.BodyOf | src/RestModel.php:160 | the declared body, or the empty array when none is declared |
| Http.NewRequest | src/RestModel.php:211-212 | the request's URI is the base URI followed by the route; the method, headers and body are those given |
| Http.MergedHeaders | src/RestModel.php:80 | after merging the defaults of lines 54-57, exactly the two default names and the consumer's names are present; a consumer value wins; an undeclared default stays `application/json`; the two defaults stay first, in order |
| PhpArrays.Keys | src/RestModel.php:173 | `array_keys`: one key per entry, in entry order |
| PhpArrays.Values | src/RestModel.php:173 | `array_values`: one value per entry, in entry order |
| PhpArrays.HasKey | src/RestModel.php:190 | computes whether `$query[$param]` is defined, that is whether some entry has the key |
| PhpArrays.Get | src/RestModel.php:190 | the value of the one entry with that key |
| PhpArrays.Put | src/RestModel.php:80 | the keys are the old keys, with the new key appended when it was absent; that key now maps to the value; the other values are unchanged |
| PhpArrays.Merge | src/RestModel.php:80 | computes `array_merge` for string keys: each entry of the second array is put into the first in turn; its properties are the `Merge*` lemmas |
| PhpArrays.MergeKeys | src/RestModel.php:80 | after `array_merge` exactly the keys of both arrays are present |
| PhpArrays.MergeFirstKept | src/RestModel.php:80 | a key only in the first array keeps its value |
| PhpArrays.MergeSecondWins | src/RestModel.php:80 | a key of the second array has the second array's value |
| PhpArrays.MergeLookup | src/RestModel.php:80 | after `array_merge` exactly the keys of both arrays are present; a key of the second array has its value; a key only in the first keeps its value |
| PhpArrays.MergeKeepsOrder | src/RestModel.php:80 | the first array's keys stay in front, in order |
| PhpStrings.Implode | src/RestModel.php:173 | computes `implode`: the parts joined by the glue, with the one-argument form as glue `""`; its properties are the `Implode*` lemmas |
| PhpStrings.StrReplace | src/RestModel.php:173 | computes single-needle `str_replace`: every non-overlapping occurrence, scanning from the left, is replaced; `StrReplaceIsImplodeExplode` ties it to `explode`/`implode` |
| PhpStrings.StrReplaceAll | src/Factory/RestModelFactory.php:63 | computes array `str_replace`: the needles one after another, each on the previous result, an empty needle skipped, a missing value read as `""` |
| PhpStrings.Explode | src/RestModel.php:172 | `explode` always returns at least one piece |
| PhpStrings.StrReplaceEach | src/RestModel.php:173 | `str_replace` over an array subject replaces in each element on its own, keeping the length |
| PhpStrings.ImplodeTerminated | src/RestModel.php:189-199 | appending the glue to every part but the last and imploding with no glue gives `implode(glue, parts)` |
| PhpStrings.ImplodeAvoids | src/RestModel.php:173 | a character in no part and not in the glue is not in the joined string |
| PhpStrings.ConcatAppend | src/RestModel.php:173 | glue-less implode distributes over concatenation of the parts |
| PhpStrings.StrReplaceIsImplodeExplode | src/RestModel.php:173 | replacing a needle equals exploding on it and imploding with the replacement |
| PhpStrings.StrReplaceSelf | src/RestModel.php:173 | replacing a needle by itself changes nothing |
| PhpStrings.ImplodeExplode | src/RestModel.php:172-173 | imploding the pieces of `explode` with the separator gives the string back |
| PhpStrings.StrReplaceAbsent | src/RestModel.php:173 | a needle that does not occur leaves the subject unchanged |
| PhpStrings.StrReplaceAllAbsent | src/Factory/RestModelFactory.php:63 | array `str_replace` whose non-empty needles do not occur leaves the subject unchanged |
| PhpStrings.StrReplaceAvoids | src/RestModel.php:173 | a character in neither subject nor replacement is not in the result |
| PhpStrings.StrReplaceAllAvoids | src/RestModel.php:173 | a character in neither subject nor any value is not in the result of the array form |
| PhpStrings.StrReplaceCharByNothing | src/RestModel.php:173 | replacing a one-character needle by nothing removes every occurrence of it |
| PhpStrings.ExplodePartsAvoid | src/RestModel.php:172 | no piece of `explode` holds the separator |
| PhpStrings.ExplodeAbsent | src/RestModel.php:186 | without the separator `explode` gives the string as its only piece |
| PhpStrings.ExplodeConcat | src/RestModel.php:172 | exploding at a separator splits the pieces there |
| PhpStrings.ExplodeAfterPrefix | src/RestModel.php:186 | a prefix without the separator is the first piece |
| PhpStrings.ExplodeImplode | src/RestModel.php:187 | parts without the separator are recovered by exploding their implode |
| PhpStrings.ImplodeExplodeRemoves | src/RestModel.php:172-173 | exploding on a character and imploding with no glue removes that character |
| PhpStrings.ExplodeSplits | src/RestModel.php:186-187 | there are at least two pieces exactly when the separator occurs |
| Factory.RestModelFactory.constructor | src/Factory/RestModelFactory.php:11 | the class name starts empty |
| Factory.RestModelFactory.Construct | src/Factory/RestModelFactory.php:13-16 | the class name is set to the argument |
| Factory.RestModelFactory.Generate | src/Factory/RestModelFactory.php:23-30 | the class name is set first; the source is the stub with `{{NAMESPACE}}`, `{{CLASSNAME}}` and `{{EXTENDS}}` replaced, in that order, by `App\ApiModels`, the class name and `RestModel` |
| Factory.RestModelFactory.GetStubVariables | src/Factory/RestModelFactory.php:45-52 | the substitution map is exactly the three placeholders, in order, with the namespace, the current class name and the base class |
| Factory.RestModelFactory.ReplaceVarsInStub | src/Factory/RestModelFactory.php:60-64 | the array `str_replace` of the keys by the values over the stub text; a stub in which no non-empty key occurs comes back unchanged |
| Factory.StubWithoutPlaceholders | src/Factory/RestModelFactory.php:60-64 | a stub holding none of the three placeholders comes back unchanged |
| Examples.StrReplaceIdSlash | src/RestModel.php:173 | `id` replaced by `42` in `/ids/` is `/42s/` |
| Examples.StrReplaceWhole | src/RestModel.php:173 | a piece that is exactly the needle becomes the replacement |
| Examples.StrReplaceAllIdSlash | src/RestModel.php:173 | the array form with the single key `id` and value `42` turns `/ids/` into `/42s/` |
| Examples.PathParamsInsidePieces | src/RestModel.php:170-176 | `/ids/:id` with `id = 42` is `/42s/42`: substring, not whole-piece, replacement |
| Examples.PathParamsPrefixPiece | src/RestModel.php:170-176 | `prefix:piece` with one parameter whose name cannot occur in the prefix keeps the prefix and substitutes the piece |
| Examples.PathParamsOnePlaceholder | src/RestModel.php:170-176 | `prefix:name` with that one parameter is `prefix` followed by the value |
| Examples.PathParamsOneKey | src/RestModel.php:170-176 | `a:b` with one parameter is the name replaced inside `a`, followed by the name replaced inside `b` |
| Examples.PathParamsChained | src/RestModel.php:170-176 | `prefix:a` with `a = b` then `b = c`, neither name able to occur in the prefix, is `prefix` followed by `c` |
| Examples.PathParamsUserId | src/RestModel.php:170-176 | `/users/:id` with `id = 42` is `/users/42` |
| Examples.PathParamsSequential | src/RestModel.php:170-176 | keys apply one after another: `/:a` with `a = b`, `b = c` is `/c` |
| Examples.QueryTwo | src/RestModel.php:184-201 | `P?n1&n2` with both values is `P?n1=v1`, then the glue, then `n2=v2` |
| Examples.QuerySearch | src/RestModel.php:184-201 | `/search?q&limit` with `q = cats, limit = 10` is `/search?q=cats&limit=10` |
| Examples.QueryGlues | src/BaseRestmold.php:198-209 | `/a?x&y` with `x = 1, y = 2` is `/a?x=1&y=2` in RestModel and `/a?x=1y=2` in BaseRestmold |
| Examples.QueryMissingLimit | src/RestModel.php:189-190 | `/search?q&limit` with only `q` fails at `limit` |
| Examples.QueryOne | src/RestModel.php:184-201 | `P?n` with the value of `n` is `P?n=v` |
| Examples.HeadersAcceptOverride | src/RestModel.php:80 | declaring `Accept: text/plain` keeps `Content-Type` first and overrides `Accept` in place |
| Examples.ParamsAbsentOrEmpty | src/RestModel.php:149-151 | an absent `params` leaves `:` in the route; an empty one removes it |
| Examples.StrReplaceKQK | src/RestModel.php:173 | `k` replaced by `v` in `k?k` is `v?v` |
| Examples.PathRenamesQuery | src/RestModel.php:170-176 | `/x/:k?k` with `k = v` is `/x/v?v`: path substitution also reaches the query template |
| Examples.PathBeforeQuery | src/RestModel.php:149-155 | path substitution runs first, so the query placeholder renamed by it is the one looked up |
| Examples.ResolveOnlyRoute | src/RestModel.php:93 | with a single route, calling its name builds that route's configuration |
| Examples.ResolveUsersIndex | src/RestModel.php:87-95 | `index -> GET /users/:id` with `id = 42` against `http://api.test` is `GET http://api.test/users/42` with the empty body |
| Examples.ApiExampleIndex | src/ApiExample.php:16-48 | the shipped example client dumps `GET http://localhost:8080/api/v1/index` with the default headers for `index`, and fails with the name for anything else |
| Examples.IgnoredRequestPipe | src/BaseRestmold.php:217-223 | a request pipe that turns every request into a POST leaves BaseRestmold's dumped request a GET |
| Examples.RestModelPipes | src/RestModel.php:105-121 | with the default pipes the call returns exactly what the transport returns; with custom pipes the request pipe's output is sent and the response pipe's output is returned |

## Left out

- The HTTP transport (Guzzle's `Client::send`) is network I/O. It is a function-typed field of the client, so it is deterministic in the model and cannot fail other than through the `Err` it returns.
- `json_encode` of the body is not modelled: the request carries the body value itself.
- BaseRestmolds.BaseRestmold.Send: `dd` dumps the request and ends the script. The model instead returns the dumped request, so `Call` yields it as its `Ok` value, and the response pipe is never reached.
- Reading the stub file (`getStubPath`, `file_get_contents`) is file I/O. The stub text is a parameter of `Generate`.
- RestModels.RestModel.constructor: the base URI is a PHP property default that the consumer subclass redeclares. The model takes it as a constructor argument; nothing in the constructor body sets it.
- Factory.RestModelFactory.constructor: PHP leaves the typed `className` property uninitialised. The model starts it as the empty string, which `generate` always overwrites before reading it.
- Factory.RestModelFactory.Construct: the PHP default argument `''` is not modelled; the name is always passed.
- `src/Console/GenerateCommand.php` is not part of this model. It is filesystem checks and writes, console output and framework string helpers.
- `src/RestmoldServiceProvider.php` is not part of this model. It is framework service registration.
- `src/ApiExample.php` holds configuration only. It appears as the data of `Examples.ApiExampleIndex`.
- PHP loose typing is not modelled. This covers:
  - `in_array`'s non-strict comparison;
  - numeric-string keys turning into integer keys;
  - non-string parameter and header values.
  Keys and values are strings.
- Templating.QueryString: a missing `?` or a missing query key is a failure value. Plain PHP would only warn and go on with an empty value; under the usual framework error handler the warning becomes an exception. The model does not capture the warn-and-continue output.
- Exceptions carry only the attempted name, not the message text or the class name.
- RestModels.RestModel.Call: the pipes are pure functions, so the model states the order and the number of pipe applications through the shape of the result, not through observable side effects.
