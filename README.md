# Convention-based action routing of symlex-core, in Dafny

This project models the two routers of symlex-core that turn an HTTP request
into a call on a controller service without any route table:

- the web router (`TwigRouter`) takes a controller name and an action path;
- the REST router (`RestRouter`) takes one path whose first segment is the
  controller.

From these inputs, each router computes three things:

- the key of the controller service in the dependency-injection container;
- the name of the action method;
- the ordered argument list.

It then chooses an outcome in a fixed priority order:

1. the controller is missing;
2. no action method fits;
3. the permission check refuses the request;
4. the action is called and its result is shaped into a response.

The model has five modules, one per file:

- `Strings` (`strings.dfy`): the PHP string functions the routers use, as
  PHP 8 defines them on ASCII. These are `strtolower`, `ucfirst`,
  `explode`, `stripos` and the `strpos(...) === 0` prefix test. `Join`
  (PHP's `implode`, which the routers do not call) is there only as the
  inverse of `explode` in the round-trip lemmas.
- `Pairing` (`pairing.dfy`): the alternating split of path tokens into the
  tokens at even and at odd positions, and the resource chain. The chain is
  the capitalised resource names, concatenated.
- `Http` (`http.dfy`): the values an action returns, together with PHP's
  truthiness and `(array)` cast, plus the responses, the request, the
  controllers and the outcome of a dispatch.
- `TwigRouter` (`twig_router.dfy`) and `RestRouter` (`rest_router.dfy`):
  the routers themselves.

Each router exists twice:

- As pure functions. `Plan` derives the names and arguments from the
  request. `ProbeAction` is the method-name probe with its fallback.
  `GetResponse` and `StatusCode` shape the result. `Execute` and `Dispatch`
  give the whole handler as a function of its inputs.
- As imperative methods that follow the PHP code statement by statement.
  The loops with the index skip inside the body become the methods
  `WalkResourceFirst` and `WalkParameterFirst`. `BuildPlan` is the
  handler's first half. `HandleWebRequest` and `HandleRestRequest` are the
  whole handler. Their side effects are modelled as classes:
  - the Twig globals the web router publishes are a `TwigEnvironment`;
  - the request parameter bag the REST router overwrites is a
    `ParameterBag`.

Each method is proved equal to the function it implements. The lemmas state
the conventions of both routers about those functions.

## Model

| member | source | states |
|---|---|---|
| Strings.LowerChar | src/Router/TwigRouter.php:47 | `strtolower` on one character maps exactly `A`-`Z` to `a`-`z`, 32 code points up, and keeps every other character |
| Strings.UpperChar | src/Router/TwigRouter.php:56 | `ucfirst` on one character maps exactly `a`-`z` to `A`-`Z` and keeps every other character |
| Strings.LowerAt | src/Router/TwigRouter.php:47 | `strtolower` lower-cases each character in place, keeping the length |
| Strings.Capitalize | src/Router/TwigRouter.php:56 | `ucfirst` keeps the length, upper-cases the first character and leaves the rest untouched |
| Strings.LowerCapitalize | src/Router/TwigRouter.php:56 | a name and its `ucfirst` form lower-case to the same string |
| Strings.LowerDistributes | src/Router/TwigRouter.php:109 | `strtolower` of a concatenation is the concatenation of the lower-cased parts |
| Strings.Split | src/Router/TwigRouter.php:48 | `explode` always yields at least one piece, empty pieces included |
| Strings.SplitPieces | src/Router/TwigRouter.php:48 | no piece of `explode` contains the delimiter |
| Strings.JoinSplit | src/Router/Web/RestRouter.php:31 | `implode` of the pieces of `explode` gives back the original path: splitting loses nothing |
| Strings.SplitJoin | src/Router/Web/RestRouter.php:31 | `explode` of an `implode` of delimiter-free pieces gives back the pieces |
| Strings.SplitNoDelimiter | src/Router/Web/RestRouter.php:31 | a path without `/` is one piece |
| Strings.SplitAtDelimiter | src/Router/Web/RestRouter.php:31-33 | the first piece ends at the first `/`, and the rest is split on its own |
| Strings.IndexOfIgnoreCaseFirst | src/Router/TwigRouter.php:43 | `stripos` returns an index where the pattern occurs, ignoring case, with no occurrence before it, and `false` only when the pattern occurs nowhere |
| Http.FalsyValues | src/Router/Web/RestRouter.php:78 | `!$result` holds exactly for null, false, 0, `""`, `"0"` and the empty array |
| Http.ToArray | src/Router/TwigRouter.php:142 | the `(array)` cast keeps an array, gives an object's properties, wraps a scalar as `[0 => value]`, and gives the empty array exactly for null, `[]` and a property-less object |
| Http.Args | src/Router/TwigRouter.php:60-64 | the argument list is the path parameters, in order, each passed as a string, with the request appended last |
| Pairing.EvensOddsAt | src/Router/TwigRouter.php:55-62 | the k-th even token is token 2k and the k-th odd token is token 2k+1 |
| Pairing.Evens | src/Router/TwigRouter.php:55-62 | there are ceil(n/2) tokens at even positions |
| Pairing.Odds | src/Router/Web/RestRouter.php:44-51 | there are floor(n/2) tokens at odd positions |
| Pairing.InterleaveEvensOdds | src/Router/Web/RestRouter.php:44-51 | interleaving the even and the odd tokens restores the tokens: the alternating split loses and reorders nothing |
| Pairing.EvensOddsInterleave | src/Router/Web/RestRouter.php:44-51 | the alternating split of an interleaving gives back both lists |
| Pairing.LastToken | src/Router/Web/RestRouter.php:44-51 | the last token is the last even token when n is odd and the last odd token when n is even |
| Pairing.ChainSnoc | src/Router/TwigRouter.php:56 | `$subResources .= ucfirst($name)` appends the capitalised name to the chain |
| Pairing.ChainLower | src/Router/TwigRouter.php:124 | the lower-cased chain is the lower-cased resource names concatenated |
| TwigRouter.DefaultAction | src/Router/TwigRouter.php:38-40 | a falsy action (`""` or `"0"`) becomes `index`, and any other action is kept; the result is never falsy |
| TwigRouter.StripHtmlExactly | src/Router/TwigRouter.php:43-45 | the last five characters are cut exactly when the first case-insensitive `.html` sits at the very end; otherwise the action is unchanged |
| TwigRouter.NoDotNoHtml | src/Router/TwigRouter.php:43 | an action without a dot contains no `.html` in any case |
| TwigRouter.HtmlSuffixRemoved | src/Router/TwigRouter.php:43-45 | appending `.html` in any case (`x.HTML` included) to an action that does not contain it, and stripping, gives back that action |
| TwigRouter.DoubleHtmlKept | src/Router/TwigRouter.php:43-45 | `a.html.html` is left unchanged, because its first `.html` is not at the end |
| TwigRouter.PlanPairsResourceFirst | src/Router/TwigRouter.php:48-65 | the chain is the capitalised even tokens; the arguments are the floor(n/2) odd tokens in order, then the request; interleaving the two gives back the normalised action |
| TwigRouter.PlanSingleToken | src/Router/TwigRouter.php:38-65 | a single dot-free token names one resource, so the name is `<method><Token>Action` and the request is the only argument |
| TwigRouter.PlanResourceAndId | src/Router/TwigRouter.php:48-65 | `resource/id` gives the chain `Resource`, the arguments `[id, request]` and the name `<method>ResourceAction` |
| TwigRouter.EditExample | src/Router/TwigRouter.php:47-65 | PUT `edit/5` gives the chain `Edit`, the arguments `["5", request]` and the name `putEditAction` |
| TwigRouter.EmptyActionIsIndex | src/Router/TwigRouter.php:38-40 | an empty or `"0"` action resolves exactly like `index`, with the chain `Index` |
| TwigRouter.DotHtmlIsEmptyAction | src/Router/TwigRouter.php:38-45 | the default comes before stripping, so the action `.html` becomes the empty action, with an empty chain, not `index` |
| TwigRouter.HtmlActionResolvesLikeBare | src/Router/TwigRouter.php:38-45 | for a non-falsy action without `.html`, appending `.html` in any case changes nothing in the resolution |
| TwigRouter.ProbeOrder | src/Router/TwigRouter.php:71-81 | the method's own action wins; for GET only, `<Chain>Action` comes next; a miss is MethodNotAllowed exactly when a non-GET method finds only `<Chain>Action`, and NotFound exactly when neither name exists |
| TwigRouter.ResolvedExists | src/Router/TwigRouter.php:71-75 | a resolved name is declared by the controller, ignoring case, and is the method's own name unless the request is a GET |
| TwigRouter.GetNeverUnsupported | src/Router/TwigRouter.php:71-77 | the probe never classifies a GET as unsupported |
| TwigRouter.GetNeverMethodNotAllowed | src/Router/TwigRouter.php:71-81 | a GET request never fails with MethodNotAllowed |
| TwigRouter.PermissionAfterResolution | src/Router/TwigRouter.php:75-89 | a refusal turns exactly the would-be calls into AccessDenied, and does not change any outcome that fails earlier |
| TwigRouter.DispatchCallsDeclaredAction | src/Router/TwigRouter.php:69-95 | a call happens only when permitted, on a declared method, with the plan's arguments, and its result is shaped with the template `controller/chain.twig` |
| TwigRouter.ResponseShaping | src/Router/TwigRouter.php:107-146 | a Response passes through unchanged; a non-empty string, and nothing else, redirects to itself with 302; anything else renders the lower-cased `controller/chain.twig` with status 200 and the result cast to an array |
| TwigRouter.IndexRoute | src/Router/TwigRouter.php:31-67 | with the default configuration, controller `index` and action `index` use the service `controller.web.index`, the chain `Index`, the name `<method>IndexAction` and the request as the only argument |
| TwigRouter.RootRouteIsIndexController | src/Router/TwigRouter.php:98-100 | the root route is the `index` controller reached with an empty action |
| TwigRouter.TwigEnvironment.AddGlobal | src/Router/TwigRouter.php:123-125 | `addGlobal` sets one global and leaves the others |
| TwigRouter.SetTwigVariables | src/Router/TwigRouter.php:121-126 | publishes the lower-cased controller, the lower-cased chain and the AJAX flag, and nothing else |
| TwigRouter.WalkResourceFirst | src/Router/TwigRouter.php:50-62 | the loop with its index skip computes the chain of the even tokens and the list of the odd tokens |
| TwigRouter.BuildPlan | src/Router/TwigRouter.php:37-67 | the statements of the handler's first half compute exactly `Plan` |
| TwigRouter.HandleWebRequest | src/Router/TwigRouter.php:36-96 | the handler's outcome is `Dispatch`; the globals are published exactly when the action is called, and are untouched otherwise |
| RestRouter.PlanPairsParameterFirst | src/Router/Web/RestRouter.php:31-54 | the controller is the first segment and contains no `/`; the arguments are the ceil(n/2) even segments in order, then the request; the chain is the capitalised odd segments; controller, parameters and resources joined again give the path |
| RestRouter.LastSegment | src/Router/Web/RestRouter.php:38-51 | with odd n the last segment is the last parameter; with even, non-zero n its capitalised form ends the chain |
| RestRouter.CollectionPrefix | src/Router/Web/RestRouter.php:30-42 | for a method other than POST, the name carries the `c` prefix exactly when n is even |
| RestRouter.PostNeverCollection | src/Router/Web/RestRouter.php:40-42 | POST never gets the `c` prefix |
| RestRouter.PlanControllerOnly | src/Router/Web/RestRouter.php:31-56 | a path that is only the controller gives no chain, the request alone, `c<method>Action` (no `c` for POST) and the service key from the lower-cased controller |
| RestRouter.PlanControllerAndId | src/Router/Web/RestRouter.php:31-54 | `controller/id` gives no chain, the arguments `[id, request]` and `<method>Action` |
| RestRouter.CollectionExample | src/Router/Web/RestRouter.php:17-56 | GET `users` gives `cgetAction` with `[request]` on `controller.rest.users` |
| RestRouter.ItemExample | src/Router/Web/RestRouter.php:30-54 | GET `users/5` gives `getAction` with `["5", request]` |
| RestRouter.ProbeFallback | src/Router/Web/RestRouter.php:60-70 | an existing name is kept; only HEAD falls back, and its fallback is the name a GET to the same path would use first; a found name is always declared |
| RestRouter.StatusCodes | src/Router/Web/RestRouter.php:78-84 | the status is 204 exactly for the falsy results, 201 exactly for a truthy result of POST, and 200 otherwise |
| RestRouter.NoNotFound | src/Router/Web/RestRouter.php:68-70 | this router never fails with NotFound |
| RestRouter.PermissionAfterResolution | src/Router/Web/RestRouter.php:68-76 | a refusal turns exactly the would-be calls into AccessDenied, and does not change any outcome that fails earlier |
| RestRouter.DispatchShapesResult | src/Router/Web/RestRouter.php:72-101 | a call is permitted, goes to a declared method with the plan's arguments; a Response result passes unchanged, anything else becomes JSON of that result with the status `StatusCode` gives, one of 200, 201 or 204 |
| RestRouter.NonArrayBodyClears | src/Router/Web/RestRouter.php:23-26 | a request whose Content-Type starts with `application/json`, and whose body does not decode to an array, empties the request parameters |
| RestRouter.BodyParametersSource | src/Router/Web/RestRouter.php:23-26 | with such a Content-Type, a body that decodes to an array becomes the parameters; without one, the parameters are kept |
| RestRouter.ParameterBag.Replace | src/Router/Web/RestRouter.php:25 | `replace` overwrites all parameters |
| RestRouter.WalkParameterFirst | src/Router/Web/RestRouter.php:35-51 | the loop with its index skip computes the chain of the odd segments and the list of the even segments |
| RestRouter.BuildPlan | src/Router/Web/RestRouter.php:28-56 | the statements computing prefix, controller, chain, arguments and service key give exactly `Plan` |
| RestRouter.ResolveAndCall | src/Router/Web/RestRouter.php:58-88 | lookup, HEAD fallback, permission check, call and status choice give exactly `Execute` |
| RestRouter.HandleRestRequest | src/Router/Web/RestRouter.php:22-89 | the parameters become `BodyParameters` of the old ones, whatever the outcome, and the outcome is `Dispatch` |

## Left out

- Route mounting (`$app->get`, `$app->match` and their patterns) is Silex
  wiring and is not modelled. `DispatchIndex` is the root handler without
  its GET-only registration. The controller and the action, or the path,
  are inputs.
- `getController` and `hasPermission` live in the routers' base class,
  which is not part of this model:
  - the container is a map from service keys to controllers, and a missing
    key is `ServiceNotFound`;
  - the permission decision is a boolean input.
- The action itself (`call_user_func_array`) is the controller's `reply`
  function. It is given the call, but not the updated parameter bag or any
  other state.
- Twig rendering and JSON encoding are not modelled. A response records the
  lower-cased template name and the variables, or the value and the status.
  `json_decode` is an input: the decoded body, Null when it is not valid
  JSON.
- Floating-point results are not part of `Value`, so `0.0` as a falsy
  result is not covered.
- `Value` covers objects only by their visible properties. It does not
  model PHP's other objects that cast to false.
- `MethodExists` models `method_exists` on the names a controller declares,
  ignoring ASCII case. Inherited and magic methods are not modelled.
- HTTP methods are arbitrary strings. Symfony's upper-casing of the method
  is not taken for granted, so `Lower` is applied wherever the code applies
  `strtolower`.
- Case conversion is ASCII only, as in PHP 8, on characters rather than
  bytes.
- The model follows the PHP code on three points that are easy to get
  wrong:
  - `explode` keeps empty tokens, so `users/` gives the segments
    `["users", ""]`;
  - `!$action` also treats the action `"0"` as missing;
  - a JSON body that does not decode to an array clears the request
    parameters rather than keeping them.
