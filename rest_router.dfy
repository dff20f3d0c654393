/** The REST router (`RestRouter`): maps an HTTP method and a path whose first
    segment names the controller to an action method by convention, parameter
    first, distinguishes collections from single resources by the parity of the
    remaining segments, and shapes the action's result into a JSON response. */
module RestRouter {
  import opened Strings
  import opened Pairing
  import opened Http

  /** The arguments of `route()`. `routePrefix` only places the route's URL
      pattern, which is not modelled; the handler reads the two others. */
  datatype Config = Config(routePrefix: string, servicePrefix: string, servicePostfix: string)

  /** `route()` called without arguments. */
  const DefaultConfig := Config("/api", "controller.rest.", "")

  /** The collection prefix `c` applies when the segments after the
      controller are even in number (the path ends on a resource name, or
      names only the controller) and the method is not POST. */
  predicate IsCollection(count: nat, httpMethod: string)
  {
    count % 2 == 0 && Lower(httpMethod) != "post"
  }

  /** What the handler derives from the request before asking the container. */
  datatype RestPlan = RestPlan(
    controller: string,  // the first path segment
    parts: seq<string>,  // the remaining segments
    chain: string,       // `$subResources`
    args: seq<Arg>,      // `$params`, the request last
    actionName: string,  // the first method name probed
    serviceKey: string)  // the container key of the controller

  function Plan(config: Config, httpMethod: string, path: string): RestPlan
  {
    var tokens := Split(path, '/');
    var parts := tokens[1..];
    var prefix := (if IsCollection(|parts|, httpMethod) then "c" else "") + Lower(httpMethod);
    var chain := Chain(Odds(parts));
    RestPlan(tokens[0], parts, chain, Args(Evens(parts)), prefix + chain + "Action",
             config.servicePrefix + Lower(tokens[0]) + config.servicePostfix)
  }

  /** Parameter-first pairing: the first segment is the controller, then each
      segment at an even position is a parameter (ceil(n/2) of them, in
      order, the request last) and each segment at an odd position is a
      resource name on the chain. Controller, parameters and resource names
      together spell out the path again. */
  lemma {:induction false} PlanPairsParameterFirst(config: Config, httpMethod: string, path: string)
    ensures var p := Plan(config, httpMethod, path);
      && '/' !in p.controller
      && p.chain == Chain(Odds(p.parts))
      && |p.args| == (|p.parts| + 1) / 2 + 1
      && p.args[|p.args| - 1] == TheRequest
      && (forall k :: 0 <= k < (|p.parts| + 1) / 2 ==> p.args[k] == Param(p.parts[2 * k]))
      && Join([p.controller] + Interleave(Evens(p.parts), Odds(p.parts)), '/') == path
  {
    var p := Plan(config, httpMethod, path);
    var tokens := Split(path, '/');
    InterleaveEvensOdds(p.parts);
    SplitPieces(path, '/');
    EvensOddsAt(p.parts);
    assert [p.controller] + p.parts == tokens;
    JoinSplit(path, '/');
  }

  /** The last segment decides the prefix: with an odd number of segments
      after the controller the path ends on an id, which becomes the last
      parameter; with an even, non-zero number it ends on a resource name,
      whose capitalised form ends the chain. */
  lemma {:induction false} LastSegment(config: Config, httpMethod: string, path: string)
    ensures var p := Plan(config, httpMethod, path);
      var n := |p.parts|;
      && (n % 2 == 1 ==> p.args[|p.args| - 2] == Param(p.parts[n - 1]))
      && (n % 2 == 0 && n > 0 ==>
            p.chain == Chain(Odds(p.parts)[..n / 2 - 1]) + Capitalize(p.parts[n - 1]))
  {
    var p := Plan(config, httpMethod, path);
    if p.parts != [] {
      LastToken(p.parts);
      var names := Odds(p.parts);
      if |p.parts| % 2 == 0 {
        assert names == names[..|names| - 1] + [names[|names| - 1]];
        ChainSnoc(names[..|names| - 1], names[|names| - 1]);
      }
    }
  }

  /** For every method but POST the name starts with `c` and the method
      exactly when the segment count after the controller is even. */
  lemma {:induction false} CollectionPrefix(config: Config, httpMethod: string, path: string)
    requires Lower(httpMethod) != "post"
    ensures var p := Plan(config, httpMethod, path);
      |p.parts| % 2 == 0 <==> p.actionName == "c" + Lower(httpMethod) + p.chain + "Action"
  {
    var p := Plan(config, httpMethod, path);
    var name := Lower(httpMethod) + p.chain + "Action";
    if |p.parts| % 2 == 1 {
      assert p.actionName == name;
      assert |p.actionName| != |"c" + name|;
    }
  }

  /** POST never gets the collection prefix, whatever the path's shape. */
  lemma {:induction false} PostNeverCollection(config: Config, httpMethod: string, path: string)
    requires Lower(httpMethod) == "post"
    ensures Plan(config, httpMethod, path).actionName == "post" + Plan(config, httpMethod, path).chain + "Action"
  {
  }

  /** A path that is a controller name alone addresses the collection: no
      chain, no path parameters, and the `c` prefix unless the method is POST. */
  lemma {:induction false} PlanControllerOnly(config: Config, httpMethod: string, path: string)
    requires '/' !in path
    ensures var p := Plan(config, httpMethod, path);
      && p.controller == path && p.parts == [] && p.chain == "" && p.args == [TheRequest]
      && p.actionName == (if Lower(httpMethod) == "post" then "" else "c") + Lower(httpMethod) + "Action"
      && p.serviceKey == config.servicePrefix + Lower(path) + config.servicePostfix
  {
    SplitNoDelimiter(path, '/');
    assert [path][1..] == [];
    var prefix := (if Lower(httpMethod) == "post" then "" else "c") + Lower(httpMethod);
    assert prefix + "" == prefix;
  }

  /** A path `controller/id` addresses one item: no chain, the id as the only
      path parameter, and never the `c` prefix. */
  lemma {:induction false} PlanControllerAndId(config: Config, httpMethod: string, controller: string, id: string)
    requires '/' !in controller && '/' !in id
    ensures var p := Plan(config, httpMethod, controller + "/" + id);
      && p.controller == controller && p.parts == [id] && p.chain == ""
      && p.args == [Param(id), TheRequest]
      && p.actionName == Lower(httpMethod) + "Action"
  {
    SplitAtDelimiter(controller, '/', id);
    SplitNoDelimiter(id, '/');
    assert [controller] + [id] == [controller, id];
    assert [controller, id][1..] == [id];
    assert Evens([id]) == [id] && Odds([id]) == [];
    assert Args([id]) == [Param(id)] + Args([]);
    assert "" + Lower(httpMethod) + "" == Lower(httpMethod);
  }

  /** `users` with GET: the collection action `cgetAction`, the request alone. */
  lemma {:induction false} CollectionExample(request: Request, path: string)
    requires request.httpMethod == "GET" && path == "users"
    ensures var p := Plan(DefaultConfig, request.httpMethod, path);
      && p.controller == "users" && p.actionName == "cgetAction" && p.args == [TheRequest]
      && p.serviceKey == "controller.rest.users"
  {
    UsersLiterals();
    PlanControllerOnly(DefaultConfig, request.httpMethod, path);
    CollectionLiterals();
  }

  /** `users/5` with GET: the item action `getAction`, arguments `["5", request]`. */
  lemma {:induction false} ItemExample(request: Request, path: string)
    requires request.httpMethod == "GET" && path == "users/5"
    ensures var p := Plan(DefaultConfig, request.httpMethod, path);
      && p.controller == "users" && p.actionName == "getAction" && p.args == [Param("5"), TheRequest]
  {
    UsersLiterals();
    PlanControllerAndId(DefaultConfig, request.httpMethod, "users", "5");
    assert "get" + "Action" == "getAction";
  }

  /** The method-name probe with its HEAD fallback (lines 60-70): None means
      MethodNotAllowed. */
  function ProbeAction(methods: set<string>, httpMethod: string, p: RestPlan): Option<string>
  {
    var name :=
      if httpMethod == "HEAD" && !MethodExists(methods, p.actionName)
      then (if |p.parts| % 2 == 0 then "c" else "") + "get" + p.chain + "Action"
      else p.actionName;
    if MethodExists(methods, name) then Some(name) else None
  }

  /** HEAD falls back to the GET action of the same shape: the fallback name is
      the name a GET request to the same path would probe first. No other
      method has a fallback, and a found name is always one the controller
      declares. */
  lemma {:induction false} ProbeFallback(config: Config, methods: set<string>, httpMethod: string, path: string)
    ensures var p := Plan(config, httpMethod, path);
      var r := ProbeAction(methods, httpMethod, p);
      && (r.Some? ==> MethodExists(methods, r.value))
      && (MethodExists(methods, p.actionName) ==> r == Some(p.actionName))
      && (httpMethod != "HEAD" && !MethodExists(methods, p.actionName) ==> r == None)
      && (httpMethod == "HEAD" && !MethodExists(methods, p.actionName) ==>
            var get := Plan(config, "GET", path).actionName;
            r == if MethodExists(methods, get) then Some(get) else None)
  {
    if httpMethod == "HEAD" {
      assert Lower("HEAD") == "head";
      assert Lower("GET") == "get";
    }
  }

  /** `$httpCode` (lines 78-84): 204 for a falsy result, otherwise 201 for
      POST and 200 for every other method. */
  function StatusCode(httpMethod: string, result: Value): int
  {
    if !Truthy(result) then 204 else if httpMethod == "POST" then 201 else 200
  }

  /** The status codes: 204 exactly for the falsy results, 201 exactly for
      truthy results of POST, 200 for the rest; nothing else. */
  lemma {:induction false} StatusCodes(httpMethod: string, result: Value)
    ensures StatusCode(httpMethod, result) in {200, 201, 204}
    ensures StatusCode(httpMethod, result) == 204 <==>
      result in {Null, Bool(false), Int(0), Str(""), Str("0"), Arr([])}
    ensures StatusCode(httpMethod, result) == 201 <==> Truthy(result) && httpMethod == "POST"
  {
    FalsyValues(result);
  }

  /** `getResponse` (lines 94-102): a Response object passes unchanged,
      anything else is encoded as JSON with the computed status. */
  function GetResponse(result: Value, httpCode: int): Response
  {
    if result.ResponseObj? then result.response else Json(result, httpCode)
  }

  /** The handler closure (lines 22-89), after the body decoding, as a
      function of its inputs: the container's controllers and the permission
      decision. */
  function Dispatch(config: Config, request: Request, path: string,
                    container: map<string, Controller>, permitted: bool): Outcome
  {
    Execute(Plan(config, request.httpMethod, path), request, container, permitted)
  }

  /** Everything the handler does once the plan is built: container lookup,
      probe, permission check, call, status and response. */
  function Execute(p: RestPlan, request: Request, container: map<string, Controller>, permitted: bool): Outcome
  {
    if p.serviceKey !in container then Failed(ServiceNotFound(p.serviceKey))
    else
      var instance := container[p.serviceKey];
      match ProbeAction(instance.methods, request.httpMethod, p)
      case None => Failed(MethodNotAllowed("Method " + request.httpMethod + " not supported"))
      case Some(name) =>
        if !permitted then Failed(AccessDenied("Access denied"))
        else
          var call := Call(name, p.args);
          var result := instance.reply(call);
          Done(call, GetResponse(result, StatusCode(request.httpMethod, result)))
  }

  /** This router has a single resolution failure: a name still missing after
      the fallback is MethodNotAllowed, never NotFound. */
  lemma {:induction false} NoNotFound(p: RestPlan, request: Request, container: map<string, Controller>, permitted: bool)
    ensures var o := Execute(p, request, container, permitted);
      o.Failed? ==> !o.error.NotFound?
  {
  }

  /** Permission is consulted only once the action resolved: a refusal turns
      what would have been a call into AccessDenied, and when resolution
      fails the decision does not matter. */
  lemma {:induction false} PermissionAfterResolution(p: RestPlan, request: Request, container: map<string, Controller>)
    ensures var allowed := Execute(p, request, container, true);
      var denied := Execute(p, request, container, false);
      && (allowed.Done? ==> denied == Failed(AccessDenied("Access denied")))
      && (allowed.Failed? ==> denied == allowed && !allowed.error.AccessDenied?)
  {
  }

  /** A call goes to an action the controller declares, with the plan's
      arguments; a Response it returns is passed through untouched, anything
      else becomes JSON with status 204, 201 or 200. */
  lemma {:induction false} DispatchShapesResult(p: RestPlan, request: Request,
                                                container: map<string, Controller>, permitted: bool)
    requires Execute(p, request, container, permitted).Done?
    ensures var o := Execute(p, request, container, permitted);
      && permitted && p.serviceKey in container
      && MethodExists(container[p.serviceKey].methods, o.call.name)
      && o.call.args == p.args
      && (var result := container[p.serviceKey].reply(o.call);
          && (result.ResponseObj? ==> o.response == result.response)
          && (!result.ResponseObj? ==>
                && o.response == Json(result, StatusCode(request.httpMethod, result))
                && o.response.status in {200, 201, 204}))
  {
    var o := Execute(p, request, container, permitted);
    StatusCodes(request.httpMethod, container[p.serviceKey].reply(o.call));
  }

  /** The request parameters after the body handling (lines 23-26): with a
      Content-Type starting with `application/json` they are replaced by the
      decoded body when it is an array and emptied otherwise; with any other
      Content-Type, or none, they are left alone. */
  function BodyParameters(params: seq<(Key, Value)>, request: Request): seq<(Key, Value)>
  {
    if request.contentType.Some? && StartsWith(request.contentType.value, "application/json")
    then (if request.jsonBody.Arr? then request.jsonBody.entries else [])
    else params
  }

  /** A request whose Content-Type starts with `application/json` (any
      parameters or suffix after it included) and whose body does not decode
      to an array clears the parameters instead of keeping them. */
  lemma {:induction false} NonArrayBodyClears(params: seq<(Key, Value)>, request: Request, contentType: string)
    requires request.contentType == Some(contentType)
    requires StartsWith(contentType, "application/json")
    requires !request.jsonBody.Arr?
    ensures BodyParameters(params, request) == []
  {
  }

  /** A JSON body that decodes to an array becomes the parameters, whatever
      they were; without a JSON Content-Type the parameters are kept. */
  lemma {:induction false} BodyParametersSource(params: seq<(Key, Value)>, request: Request)
    ensures (request.contentType.Some? && StartsWith(request.contentType.value, "application/json")
             && request.jsonBody.Arr?) ==> BodyParameters(params, request) == request.jsonBody.entries
    ensures (request.contentType.None? || !StartsWith(request.contentType.value, "application/json"))
            ==> BodyParameters(params, request) == params
  {
  }

  /** The request's parameter bag, which the handler overwrites in place. */
  class ParameterBag {
    var parameters: seq<(Key, Value)>

    constructor (parameters: seq<(Key, Value)>)
      ensures this.parameters == parameters
    {
      this.parameters := parameters;
    }

    /** `replace`: the new parameters replace all old ones. */
    method Replace(parameters: seq<(Key, Value)>)
      modifies this
      ensures this.parameters == parameters
    {
      this.parameters := parameters;
    }
  }

  /** What the resource loop has built once it has consumed `parts[..i]`:
      prepended to what the rest of the segments give, the whole result. */
  ghost predicate WalkedParameterFirst(parts: seq<string>, i: nat, subResources: string, params: seq<string>)
    requires i <= |parts|
  {
    && Chain(Odds(parts)) == subResources + Chain(Odds(parts[i..]))
    && Evens(parts) == params + Evens(parts[i..])
  }

  /** One pass of the loop body over a parameter and the resource after it. */
  lemma {:induction false} ParameterFirstPair(parts: seq<string>, i: nat, subResources: string, params: seq<string>)
    requires i + 2 <= |parts| && WalkedParameterFirst(parts, i, subResources, params)
    ensures WalkedParameterFirst(parts, i + 2, subResources + Capitalize(parts[i + 1]), params + [parts[i]])
  {
    SuffixStep(parts, i);
    ChainCons(parts[i + 1], Odds(parts[i + 2..]));
    AppendAssoc(subResources, Capitalize(parts[i + 1]), Chain(Odds(parts[i + 2..])));
    AppendAssoc(params, [parts[i]], Evens(parts[i + 2..]));
  }

  /** One pass of the loop body over a last, unpaired parameter. */
  lemma {:induction false} ParameterFirstLast(parts: seq<string>, i: nat, subResources: string, params: seq<string>)
    requires i + 1 == |parts| && WalkedParameterFirst(parts, i, subResources, params)
    ensures WalkedParameterFirst(parts, i + 1, subResources, params + [parts[i]])
  {
    SuffixLast(parts, i);
    assert parts[i + 1..] == [];
  }

  /** Once every token is consumed, the loop has built the whole result. */
  lemma {:induction false} ParameterFirstDone(parts: seq<string>, subResources: string, params: seq<string>)
    requires WalkedParameterFirst(parts, |parts|, subResources, params)
    ensures subResources == Chain(Odds(parts)) && params == Evens(parts)
  {
    assert parts[|parts|..] == [];
    assert subResources + "" == subResources;
    assert params + [] == params;
  }

  /** The resource loop (lines 44-51): each segment at an even position is a
      parameter; the segment after it, if any, is capitalised onto the chain
      by advancing the index inside the body. */
  method WalkParameterFirst(parts: seq<string>) returns (subResources: string, params: seq<string>)
    ensures subResources == Chain(Odds(parts))
    ensures params == Evens(parts)
  {
    subResources := "";
    params := [];
    var count := |parts|;
    var i := 0;
    while i < count
      invariant 0 <= i <= count
      invariant WalkedParameterFirst(parts, i, subResources, params)
    {
      if i + 1 < count {
        ParameterFirstPair(parts, i, subResources, params);
      } else {
        ParameterFirstLast(parts, i, subResources, params);
      }
      params := params + [parts[i]];
      if i + 1 < count {
        i := i + 1;
        subResources := subResources + Capitalize(parts[i]);
      }
      i := i + 1;
    }
    ParameterFirstDone(parts, subResources, params);
  }

  /** The path handling of the closure (lines 28-56), step by step: split the
      path, shift off the controller, choose the prefix, walk the segments,
      and name the action method and the controller service. */
  method BuildPlan(config: Config, httpMethod: string, path: string) returns (p: RestPlan)
    ensures p == Plan(config, httpMethod, path)
  {
    var prefix := Lower(httpMethod);
    var parts := Split(path, '/');
    var controller := parts[0];
    parts := parts[1..];
    var count := |parts|;
    if count % 2 == 0 && prefix != "post" {
      prefix := "c" + prefix;
    } else {
      assert prefix == "" + Lower(httpMethod);
    }
    assert prefix == (if IsCollection(count, httpMethod) then "c" else "") + Lower(httpMethod);
    var subResources, params := WalkParameterFirst(parts);
    var args := Args(params);
    var actionName := prefix + subResources + "Action";
    var controllerService := config.servicePrefix + Lower(controller) + config.servicePostfix;
    p := RestPlan(controller, parts, subResources, args, actionName, controllerService);
  }

  /** The handler closure (lines 22-89), step by step: the body handling
      overwrites the request parameters before anything else, whatever the
      outcome. */
  method HandleRestRequest(bag: ParameterBag, config: Config, request: Request, path: string,
                           container: map<string, Controller>, permitted: bool)
    returns (outcome: Outcome)
    modifies bag
    ensures bag.parameters == BodyParameters(old(bag.parameters), request)
    ensures outcome == Dispatch(config, request, path, container, permitted)
  {
    if request.contentType.Some? && StartsWith(request.contentType.value, "application/json") {
      var data := request.jsonBody;
      bag.Replace(if data.Arr? then data.entries else []);
    }
    var p := BuildPlan(config, request.httpMethod, path);
    outcome := ResolveAndCall(p, request, container, permitted);
  }

  /** The rest of the closure (lines 58-88), step by step: look the
      controller up, probe for the action with the HEAD fallback, check the
      permission, call the action and shape its result. */
  method ResolveAndCall(p: RestPlan, request: Request, container: map<string, Controller>, permitted: bool)
    returns (outcome: Outcome)
    ensures outcome == Execute(p, request, container, permitted)
  {
    var httpMethod := request.httpMethod;
    if p.serviceKey !in container {
      return Failed(ServiceNotFound(p.serviceKey));
    }
    var instance := container[p.serviceKey];
    var actionName := p.actionName;
    if httpMethod == "HEAD" && !MethodExists(instance.methods, actionName) {
      actionName := "get" + p.chain + "Action";
      if |p.parts| % 2 == 0 {
        actionName := "c" + actionName;
        assert actionName == "c" + "get" + p.chain + "Action";
      } else {
        assert actionName == "" + "get" + p.chain + "Action";
      }
    }
    assert ProbeAction(instance.methods, httpMethod, p) ==
      if MethodExists(instance.methods, actionName) then Some(actionName) else None;
    if !MethodExists(instance.methods, actionName) {
      return Failed(MethodNotAllowed("Method " + httpMethod + " not supported"));
    }
    if !permitted {
      return Failed(AccessDenied("Access denied"));
    }
    var call := Call(actionName, p.args);
    var result := instance.reply(call);
    var httpCode;
    if !Truthy(result) {
      httpCode := 204;
    } else if httpMethod == "POST" {
      httpCode := 201;
    } else {
      httpCode := 200;
    }
    outcome := Done(call, GetResponse(result, httpCode));
  }

  // The literal lemmas below only spell out concrete strings (a name
  // lower-cased or capitalised, two literals glued together) for the
  // lemmas above that need them. They are kept apart because the verifier handles
  // string literals cheaply only in a lemma of their own.

  /** The strings of the `users` examples, spelled out. */
  lemma {:induction false} UsersLiterals()
    ensures '/' !in "users" && '/' !in "5" && "users" + "/" + "5" == "users/5"
    ensures Lower("GET") == "get" && Lower("users") == "users"
  {
  }

  /** The names of the `users` collection, spelled out. */
  lemma {:induction false} CollectionLiterals()
    ensures "c" + "get" + "Action" == "cgetAction"
    ensures "controller.rest." + "users" + "" == "controller.rest.users"
  {
  }
}
