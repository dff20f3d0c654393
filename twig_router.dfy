/** The web router (`TwigRouter`): maps a controller token and an action path
    to a controller service and an action method by convention, resource name
    first, and shapes the action's result into a rendered template or a
    redirect. */
module TwigRouter {
  import opened Strings
  import opened Pairing
  import opened Http

  /** The arguments of `route()`. `routePrefix` only places the routes' URL
      patterns, which are not modelled; the handler reads the two others. */
  datatype Config = Config(routePrefix: string, servicePrefix: string, servicePostfix: string)

  /** `route()` called without arguments. */
  const DefaultConfig := Config("", "controller.web.", "")

  /** PHP's `!$action` on a string: true for the empty string and for "0". */
  predicate FalsyString(s: string)
  {
    s == "" || s == "0"
  }

  /** A falsy action falls back to `index`; any other action is kept. */
  function DefaultAction(action: string): (r: string)
    ensures r != "" && r != "0"
    ensures FalsyString(action) ==> r == "index"
    ensures !FalsyString(action) ==> r == action
  {
    if FalsyString(action) then "index" else action
  }

  /** Removes a trailing `.html`, but only when the first occurrence of
      `.html` (ignoring case) is the one at the very end. */
  function StripHtml(action: string): string
  {
    match IndexOfIgnoreCase(action, ".html")
    case Some(k) => if k == |action| - 5 then action[..k] else action
    case None => action
  }

  /** Whether the first case-insensitive occurrence of `.html` in `s` is its
      last five characters. */
  ghost predicate HtmlSuffixFirst(s: string)
  {
    |s| >= 5 && MatchesAt(s, ".html", |s| - 5)
    && forall j: nat :: j < |s| - 5 ==> !MatchesAt(s, ".html", j)
  }

  /** The suffix is cut exactly when its first occurrence ends the action,
      and nothing else ever changes. */
  lemma {:induction false} StripHtmlExactly(action: string)
    ensures HtmlSuffixFirst(action) ==> StripHtml(action) == action[..|action| - 5]
    ensures !HtmlSuffixFirst(action) ==> StripHtml(action) == action
  {
    var r := IndexOfIgnoreCase(action, ".html");
    IndexOfIgnoreCaseFirst(action, ".html");
    if HtmlSuffixFirst(action) {
      assert r.Some?;
      assert !(r.value < |action| - 5);
      assert !(|action| - 5 < r.value);
    }
  }

  /** `.html` contains its dot only at the front, so an occurrence cannot
      straddle the end of `a` and the start of an appended `.html`, whatever
      the case of its letters. */
  lemma {:induction false} HtmlNotStraddling(a: string, suffix: string, j: nat)
    requires Lower(suffix) == ".html"
    requires |a| - 5 < j < |a|
    ensures !MatchesAt(a + suffix, ".html", j)
  {
    var s := a + suffix;
    var i := |a| - j;
    LowerAt(suffix);
    LowerAt(s[j..j + 5]);
    LowerAt(".html");
    assert Lower(suffix)[0] == '.';
    assert suffix[0] == '.';
    assert s[j..j + 5][i] == '.';
    assert Lower(s[j..j + 5])[i] == '.';
    assert ".html"[i] in "html";
    assert Lower(".html")[i] != '.';
  }

  /** An action without a dot cannot contain `.html`, in any case. */
  lemma {:induction false} NoDotNoHtml(a: string)
    requires '.' !in a
    ensures forall j: nat :: !MatchesAt(a, ".html", j)
  {
    forall j: nat | j + 5 <= |a| ensures !MatchesAt(a, ".html", j) {
      LowerAt(a[j..j + 5]);
      LowerAt(".html");
      assert Lower(a[j..j + 5])[0] == LowerChar(a[j]);
      assert Lower(".html")[0] == '.';
    }
  }

  /** Appending `.html`, in any mix of upper and lower case, to an action that
      does not contain it gives an action from which exactly that suffix is
      removed. */
  lemma {:induction false} HtmlSuffixRemoved(a: string, suffix: string)
    requires Lower(suffix) == ".html"
    requires forall j: nat :: !MatchesAt(a, ".html", j)
    ensures StripHtml(a + suffix) == a
  {
    var s := a + suffix;
    LowerDotHtml();
    assert |suffix| == |Lower(suffix)| == 5;
    assert s[|s| - 5..|s|] == suffix;
    assert MatchesAt(s, ".html", |s| - 5);
    forall j: nat | j < |s| - 5 ensures !MatchesAt(s, ".html", j) {
      if j + 5 <= |a| {
        assert s[j..j + 5] == a[j..j + 5];
        assert !MatchesAt(a, ".html", j);
      } else {
        HtmlNotStraddling(a, suffix, j);
      }
    }
    StripHtmlExactly(s);
    assert s[..|s| - 5] == a;
  }

  /** `a.html.html` is left alone: its first `.html` is not at the end. */
  lemma {:induction false} DoubleHtmlKept()
    ensures StripHtml("a.html.html") == "a.html.html"
  {
    var s := "a.html.html";
    assert MatchesAt(s, ".html", 1) by {
      assert s[1..6] == ".html";
    }
    StripHtmlExactly(s);
  }

  /** `$action` after defaulting and suffix stripping (lines 38-45). */
  function NormalizeAction(action: string): string
  {
    StripHtml(DefaultAction(action))
  }

  /** What the handler derives from the request before asking the container. */
  datatype WebPlan = WebPlan(
    action: string,      // the normalised action
    parts: seq<string>,  // the action split on '/'
    chain: string,       // `$subResources`
    args: seq<Arg>,      // `$params`, the request last
    actionName: string,  // the first method name probed
    serviceKey: string)  // the container key of the controller

  function Plan(config: Config, controller: string, request: Request, action: string): WebPlan
  {
    var a := NormalizeAction(action);
    var parts := Split(a, '/');
    var chain := Chain(Evens(parts));
    WebPlan(a, parts, chain, Args(Odds(parts)), Lower(request.httpMethod) + chain + "Action",
            config.servicePrefix + Lower(controller) + config.servicePostfix)
  }

  /** Resource-first pairing: the tokens at even positions are the resource
      names that make up the chain, each token at an odd position is a
      parameter, in order, and the request comes last. Resource names and
      parameters, interleaved again, spell out the normalised action. */
  lemma {:induction false} PlanPairsResourceFirst(config: Config, controller: string, request: Request, action: string)
    ensures var p := Plan(config, controller, request, action);
      && p.chain == Chain(Evens(p.parts))
      && |p.args| == |p.parts| / 2 + 1
      && p.args[|p.args| - 1] == TheRequest
      && (forall k :: 0 <= k < |p.parts| / 2 ==> p.args[k] == Param(p.parts[2 * k + 1]))
      && Join(Interleave(Evens(p.parts), Odds(p.parts)), '/') == p.action
  {
    var p := Plan(config, controller, request, action);
    InterleaveEvensOdds(p.parts);
    EvensOddsAt(p.parts);
    JoinSplit(p.action, '/');
  }

  /** An action that is a single dot-free, non-falsy token names one
      resource and carries no path parameters. */
  lemma {:induction false} PlanSingleToken(config: Config, controller: string, request: Request, action: string)
    requires !FalsyString(action) && '.' !in action && '/' !in action
    ensures var p := Plan(config, controller, request, action);
      && p.action == action && p.parts == [action] && p.chain == Capitalize(action)
      && p.args == [TheRequest] && p.actionName == Lower(request.httpMethod) + Capitalize(action) + "Action"
  {
    NoDotNoHtml(action);
    StripHtmlExactly(action);
    SplitNoDelimiter(action, '/');
    assert Chain([action]) == Capitalize(action) + Chain([]);
  }

  /** An empty (or "0") action resolves exactly like `index`, to the chain `Index`. */
  lemma {:induction false} EmptyActionIsIndex(config: Config, controller: string, request: Request, action: string)
    requires FalsyString(action)
    ensures Plan(config, controller, request, action) == Plan(config, controller, request, "index")
    ensures Plan(config, controller, request, action).chain == "Index"
  {
    IndexLiterals();
    PlanSingleToken(config, controller, request, "index");
  }

  /** The default is applied before stripping, so the action `.html` becomes
      the empty action, not `index`: its chain is empty. */
  lemma {:induction false} DotHtmlIsEmptyAction(config: Config, controller: string, request: Request)
    ensures Plan(config, controller, request, ".html").action == ""
    ensures Plan(config, controller, request, ".html").chain == ""
  {
    LowerDotHtml();
    HtmlSuffixRemoved("", ".html");
    assert "" + ".html" == ".html";
    assert Split("", '/') == [""];
    assert Evens([""]) == [""];
    assert Chain([""]) == Capitalize("") + Chain([]);
  }

  /** Appending `.html`, in any case, to an action that does not contain it
      changes nothing, unless the bare action is falsy (then it is not
      defaulted). */
  lemma {:induction false} HtmlActionResolvesLikeBare(config: Config, controller: string, request: Request,
                                                      a: string, suffix: string)
    requires !FalsyString(a)
    requires Lower(suffix) == ".html"
    requires forall j: nat :: !MatchesAt(a, ".html", j)
    ensures Plan(config, controller, request, a + suffix) == Plan(config, controller, request, a)
  {
    assert |a + suffix| >= 5;
    HtmlSuffixRemoved(a, suffix);
    StripHtmlExactly(a);
    assert !HtmlSuffixFirst(a);
  }

  /** The outcome of probing the controller for an action method. */
  datatype Probe =
    | Resolved(name: string)
      /** the method-agnostic action exists, the one for this method does not */
    | Unsupported
      /** no action of that name at all; `name` is the last name probed */
    | Missing(name: string)

  /** The method-name probe with its GET fallback and its classification of
      a miss (lines 71-81). */
  function ProbeAction(methods: set<string>, httpMethod: string, chain: string): Probe
  {
    var name := Lower(httpMethod) + chain + "Action";
    var name' := if Lower(httpMethod) == "get" && !MethodExists(methods, name) then chain + "Action" else name;
    if MethodExists(methods, name') then Resolved(name')
    else if MethodExists(methods, chain + "Action") then Unsupported
    else Missing(name')
  }

  /** The probe in priority order: the method's own action, then (GET only)
      the method-agnostic action; a miss is MethodNotAllowed exactly when the
      method-agnostic action exists, and otherwise NotFound. */
  lemma {:induction false} ProbeOrder(methods: set<string>, httpMethod: string, chain: string)
    ensures var own := Lower(httpMethod) + chain + "Action";
      var bare := chain + "Action";
      var get := Lower(httpMethod) == "get";
      && (MethodExists(methods, own) ==> ProbeAction(methods, httpMethod, chain) == Resolved(own))
      && (!MethodExists(methods, own) && get && MethodExists(methods, bare) ==>
            ProbeAction(methods, httpMethod, chain) == Resolved(bare))
      && (ProbeAction(methods, httpMethod, chain) == Unsupported <==>
            !get && !MethodExists(methods, own) && MethodExists(methods, bare))
      && (ProbeAction(methods, httpMethod, chain).Missing? <==>
            !MethodExists(methods, own) && !MethodExists(methods, bare))
  {
  }

  /** A resolved name is one the controller declares (ignoring case), and it
      is the method's own name unless the request is a GET. */
  lemma {:induction false} ResolvedExists(methods: set<string>, httpMethod: string, chain: string)
    requires ProbeAction(methods, httpMethod, chain).Resolved?
    ensures var n := ProbeAction(methods, httpMethod, chain).name;
      && MethodExists(methods, n)
      && (n == Lower(httpMethod) + chain + "Action" || (Lower(httpMethod) == "get" && n == chain + "Action"))
  {
  }

  /** A GET request is never refused with MethodNotAllowed. */
  lemma {:induction false} GetNeverUnsupported(methods: set<string>, httpMethod: string, chain: string)
    requires Lower(httpMethod) == "get"
    ensures ProbeAction(methods, httpMethod, chain) != Unsupported
  {
  }

  /** `getTemplateFilename` (lines 128-133). */
  function TemplateFilename(controller: string, chain: string): string
  {
    controller + "/" + chain + ".twig"
  }

  /** `getResponse` with `redirect` and `render` (lines 107-119, 135-146). */
  function GetResponse(result: Value, template: string): Response
  {
    if result.ResponseObj? then result.response
    else if result.Str? && result.s != "" then Redirect(result.s, 302)
    else Rendered(Lower(template), ToArray(result), 200)
  }

  /** The request handler closure (lines 36-96) as a function of its inputs:
      the container's controllers and the permission decision. */
  function Dispatch(config: Config, controller: string, request: Request, action: string,
                    container: map<string, Controller>, permitted: bool): Outcome
  {
    Execute(Plan(config, controller, request, action), controller, request, container, permitted)
  }

  /** Everything the handler does once the plan is built: container lookup,
      probe, permission check, call and response shaping. */
  function Execute(p: WebPlan, controller: string, request: Request,
                   container: map<string, Controller>, permitted: bool): Outcome
  {
    if p.serviceKey !in container then Failed(ServiceNotFound(p.serviceKey))
    else
      var instance := container[p.serviceKey];
      match ProbeAction(instance.methods, request.httpMethod, p.chain)
      case Missing(name) => Failed(NotFound(name + " not found"))
      case Unsupported => Failed(MethodNotAllowed(request.httpMethod + " not supported"))
      case Resolved(name) =>
        if !permitted then Failed(AccessDenied("Access denied"))
        else
          var call := Call(name, p.args);
          Done(call, GetResponse(instance.reply(call), TemplateFilename(controller, p.chain)))
  }

  /** The root route (lines 98-100): controller `index`, action `index`. */
  function DispatchIndex(config: Config, request: Request, container: map<string, Controller>,
                         permitted: bool): Outcome
  {
    Dispatch(config, "index", request, "index", container, permitted)
  }

  /** With the default configuration the root route asks the container for
      `controller.web.index` and probes `<method>IndexAction` with no path
      parameters. */
  lemma {:induction false} IndexRoute(request: Request)
    ensures var p := Plan(DefaultConfig, "index", request, "index");
      && p.serviceKey == "controller.web.index"
      && p.chain == "Index"
      && p.actionName == Lower(request.httpMethod) + "IndexAction"
      && p.args == [TheRequest]
  {
    IndexLiterals();
    IndexServiceLiteral();
    IndexActionLiteral();
    PlanSingleToken(DefaultConfig, "index", request, "index");
    AppendAssoc(Lower(request.httpMethod), "Index", "Action");
  }

  /** The root route is the `index` controller reached with no action (or
      the action "0"): both default to the action `index`. */
  lemma {:induction false} RootRouteIsIndexController(config: Config, request: Request, action: string,
                                                      container: map<string, Controller>, permitted: bool)
    requires FalsyString(action)
    ensures DispatchIndex(config, request, container, permitted)
         == Dispatch(config, "index", request, action, container, permitted)
  {
    EmptyActionIsIndex(config, "index", request, action);
  }

  /** An action `resource/id` of two dot-free tokens names one resource and
      passes the id as the only path parameter. */
  lemma {:induction false} PlanResourceAndId(config: Config, controller: string, request: Request, resource: string, id: string)
    requires resource != "" && '.' !in resource && '/' !in resource
    requires '.' !in id && '/' !in id
    ensures var p := Plan(config, controller, request, resource + "/" + id);
      && p.parts == [resource, id] && p.chain == Capitalize(resource)
      && p.args == [Param(id), TheRequest]
      && p.actionName == Lower(request.httpMethod) + Capitalize(resource) + "Action"
  {
    var a := resource + "/" + id;
    assert '.' !in a by {
      assert forall c :: c in a ==> c in resource || c == '/' || c in id;
    }
    NoDotNoHtml(a);
    StripHtmlExactly(a);
    assert a != "" && a != "0";
    SplitAtDelimiter(resource, '/', id);
    SplitNoDelimiter(id, '/');
    var parts := [resource, id];
    assert Evens(parts) == [resource];
    assert Odds(parts) == [id];
    assert Chain([resource]) == Capitalize(resource) + Chain([]);
    assert Args([id]) == [Param(id)] + Args([]);
  }

  /** Action `edit/5` with PUT: chain `Edit`, arguments `["5", request]`,
      method name `putEditAction`. */
  lemma {:induction false} EditExample(config: Config, controller: string, request: Request, action: string)
    requires request.httpMethod == "PUT" && action == "edit/5"
    ensures var p := Plan(config, controller, request, action);
      p.chain == "Edit" && p.args == [Param("5"), TheRequest] && p.actionName == "putEditAction"
  {
    EditLiterals();
    PlanResourceAndId(config, controller, request, "edit", "5");
  }

  /** Permission is consulted only once the action resolved: a refusal turns
      what would have been a call into AccessDenied, and when resolution
      fails the decision does not matter. */
  lemma {:induction false} PermissionAfterResolution(p: WebPlan, controller: string, request: Request,
                                                     container: map<string, Controller>)
    ensures var allowed := Execute(p, controller, request, container, true);
      var denied := Execute(p, controller, request, container, false);
      && (allowed.Done? ==> denied == Failed(AccessDenied("Access denied")))
      && (allowed.Failed? ==> denied == allowed && !allowed.error.AccessDenied?)
  {
  }

  /** A call only ever goes to an action the controller declares, with the
      plan's arguments, and its result is shaped by `GetResponse`. */
  lemma {:induction false} DispatchCallsDeclaredAction(p: WebPlan, controller: string, request: Request,
                                                       container: map<string, Controller>, permitted: bool)
    requires Execute(p, controller, request, container, permitted).Done?
    ensures var o := Execute(p, controller, request, container, permitted);
      && permitted
      && p.serviceKey in container
      && MethodExists(container[p.serviceKey].methods, o.call.name)
      && o.call.args == p.args
      && o.response == GetResponse(container[p.serviceKey].reply(o.call), TemplateFilename(controller, p.chain))
  {
  }

  /** A GET that reaches the controller is never refused with
      MethodNotAllowed; NotFound is the only resolution failure left. */
  lemma {:induction false} GetNeverMethodNotAllowed(p: WebPlan, controller: string, request: Request,
                                                    container: map<string, Controller>, permitted: bool)
    requires Lower(request.httpMethod) == "get"
    ensures !Execute(p, controller, request, container, permitted).Failed?
      || !Execute(p, controller, request, container, permitted).error.MethodNotAllowed?
  {
    if p.serviceKey in container {
      GetNeverUnsupported(container[p.serviceKey].methods, request.httpMethod, p.chain);
    }
  }

  /** Response shaping: a Response passes through unchanged, a non-empty
      string redirects with 302, and anything else renders, with status 200,
      the template named by the lower-cased controller and chain. */
  lemma {:induction false} ResponseShaping(controller: string, chain: string, result: Value)
    ensures var r := GetResponse(result, TemplateFilename(controller, chain));
      && (result.ResponseObj? ==> r == result.response)
      && (!result.ResponseObj? ==> (r.Redirect? <==> result.Str? && result.s != ""))
      && (r.Redirect? && !result.ResponseObj? ==> r == Redirect(result.s, 302))
      && (!result.ResponseObj? && !r.Redirect? ==>
            r == Rendered(Lower(controller) + "/" + Lower(chain) + ".twig", ToArray(result), 200))
  {
    LowerDistributes(controller, "/");
    LowerDistributes(controller + "/", chain);
    LowerDistributes(controller + "/" + chain, ".twig");
    assert Lower("/") == "/";
    assert Lower(".twig") == ".twig";
  }

  /** Twig's global variables. */
  datatype Global = GStr(s: string) | GBool(b: bool)

  /** The part of `Twig_Environment` the router changes: its globals. */
  class TwigEnvironment {
    var globals: map<string, Global>

    constructor ()
      ensures globals == map[]
    {
      globals := map[];
    }

    /** `addGlobal`: sets or replaces one global. */
    method AddGlobal(name: string, value: Global)
      modifies this
      ensures globals == old(globals)[name := value]
    {
      globals := globals[name := value];
    }
  }

  /** The globals after `setTwigVariables`. */
  function Published(globals: map<string, Global>, controller: string, chain: string, ajax: bool): map<string, Global>
  {
    globals["controller" := GStr(Lower(controller))]["action" := GStr(Lower(chain))]["ajax_request" := GBool(ajax)]
  }

  /** `setTwigVariables` (lines 121-126). */
  method SetTwigVariables(twig: TwigEnvironment, controller: string, action: string, isXmlHttpRequest: bool)
    modifies twig
    ensures twig.globals == Published(old(twig.globals), controller, action, isXmlHttpRequest)
  {
    twig.AddGlobal("controller", GStr(Lower(controller)));
    twig.AddGlobal("action", GStr(Lower(action)));
    twig.AddGlobal("ajax_request", GBool(isXmlHttpRequest));
  }

  /** What the resource loop has built once it has consumed `parts[..i]`:
      prepended to what the rest of the tokens give, the whole result. */
  ghost predicate WalkedResourceFirst(parts: seq<string>, i: nat, subResources: string, params: seq<string>)
    requires i <= |parts|
  {
    && Chain(Evens(parts)) == subResources + Chain(Evens(parts[i..]))
    && Odds(parts) == params + Odds(parts[i..])
  }

  /** One pass of the loop body over a resource and the parameter after it. */
  lemma {:induction false} ResourceFirstPair(parts: seq<string>, i: nat, subResources: string, params: seq<string>)
    requires i + 2 <= |parts| && WalkedResourceFirst(parts, i, subResources, params)
    ensures WalkedResourceFirst(parts, i + 2, subResources + Capitalize(parts[i]), params + [parts[i + 1]])
  {
    SuffixStep(parts, i);
    ChainCons(parts[i], Evens(parts[i + 2..]));
    AppendAssoc(subResources, Capitalize(parts[i]), Chain(Evens(parts[i + 2..])));
    AppendAssoc(params, [parts[i + 1]], Odds(parts[i + 2..]));
  }

  /** One pass of the loop body over a last, unpaired resource. */
  lemma {:induction false} ResourceFirstLast(parts: seq<string>, i: nat, subResources: string, params: seq<string>)
    requires i + 1 == |parts| && WalkedResourceFirst(parts, i, subResources, params)
    ensures WalkedResourceFirst(parts, i + 1, subResources + Capitalize(parts[i]), params)
  {
    SuffixLast(parts, i);
    ChainCons(parts[i], []);
    assert parts[i + 1..] == [];
  }

  /** Once every token is consumed, the loop has built the whole result. */
  lemma {:induction false} ResourceFirstDone(parts: seq<string>, subResources: string, params: seq<string>)
    requires WalkedResourceFirst(parts, |parts|, subResources, params)
    ensures subResources == Chain(Evens(parts)) && params == Odds(parts)
  {
    assert parts[|parts|..] == [];
    assert subResources + "" == subResources;
    assert params + [] == params;
  }

  /** The resource-first loop (lines 53-62): each token at an even position
      is capitalised onto the chain; the token after it, if any, is consumed
      as a parameter by advancing the index inside the body. */
  method WalkResourceFirst(parts: seq<string>) returns (subResources: string, params: seq<string>)
    ensures subResources == Chain(Evens(parts))
    ensures params == Odds(parts)
  {
    subResources := "";
    params := [];
    var count := |parts|;
    var i := 0;
    while i < count
      invariant 0 <= i <= count
      invariant WalkedResourceFirst(parts, i, subResources, params)
    {
      if i + 1 < count {
        ResourceFirstPair(parts, i, subResources, params);
      } else {
        ResourceFirstLast(parts, i, subResources, params);
      }
      subResources := subResources + Capitalize(parts[i]);
      if i + 1 < count {
        i := i + 1;
        params := params + [parts[i]];
      }
      i := i + 1;
    }
    ResourceFirstDone(parts, subResources, params);
  }

  /** The first half of the request handler closure (lines 37-67), step by
      step: default and strip the action, split it, walk the tokens, and
      name the action method and the controller service. */
  method BuildPlan(config: Config, controller: string, request: Request, action: string)
    returns (p: WebPlan)
    ensures p == Plan(config, controller, request, action)
  {
    var act := action;
    if FalsyString(act) {
      act := "index";
    }
    var pos := IndexOfIgnoreCase(act, ".html");
    if pos.Some? && pos.value == |act| - 5 {
      act := act[..|act| - 5];
    }
    var prefix := Lower(request.httpMethod);
    var parts := Split(act, '/');
    var subResources, params := WalkResourceFirst(parts);
    var args := Args(params);
    var actionName := prefix + subResources + "Action";
    var controllerService := config.servicePrefix + Lower(controller) + config.servicePostfix;
    p := WebPlan(act, parts, subResources, args, actionName, controllerService);
  }

  /** The request handler closure (lines 36-96), step by step: it publishes
      the Twig globals only when it goes on to call the action. */
  method HandleWebRequest(twig: TwigEnvironment, config: Config, controller: string, request: Request,
                          action: string, container: map<string, Controller>, permitted: bool)
    returns (outcome: Outcome)
    modifies twig
    ensures outcome == Dispatch(config, controller, request, action, container, permitted)
    ensures outcome.Done? ==> twig.globals == Published(old(twig.globals), controller,
      Plan(config, controller, request, action).chain, request.isXmlHttpRequest)
    ensures !outcome.Done? ==> twig.globals == old(twig.globals)
  {
    var p := BuildPlan(config, controller, request, action);
    if p.serviceKey !in container {
      return Failed(ServiceNotFound(p.serviceKey));
    }
    var instance := container[p.serviceKey];
    var actionName := p.actionName;
    if Lower(request.httpMethod) == "get" && !MethodExists(instance.methods, actionName) {
      actionName := p.chain + "Action";
    }
    if !MethodExists(instance.methods, actionName) {
      if MethodExists(instance.methods, p.chain + "Action") {
        return Failed(MethodNotAllowed(request.httpMethod + " not supported"));
      } else {
        return Failed(NotFound(actionName + " not found"));
      }
    }
    if !permitted {
      return Failed(AccessDenied("Access denied"));
    }
    SetTwigVariables(twig, controller, p.chain, request.isXmlHttpRequest);
    var call := Call(actionName, p.args);
    var result := instance.reply(call);
    var template := TemplateFilename(controller, p.chain);
    outcome := Done(call, GetResponse(result, template));
  }

  // The literal lemmas below only spell out concrete strings (a name
  // lower-cased or capitalised, two literals glued together) for the
  // lemmas above that need them. They are kept apart because the verifier handles
  // string literals cheaply only in a lemma of their own.

  /** `.html` spelled in lower case. */
  lemma {:induction false} LowerDotHtml()
    ensures Lower(".html") == ".html"
  {
  }

  /** The strings of the `index` default, spelled out. */
  lemma {:induction false} IndexLiterals()
    ensures !FalsyString("index") && '.' !in "index" && '/' !in "index"
    ensures Capitalize("index") == "Index" && Lower("index") == "index"
  {
  }

  /** The method name of the root route after its HTTP method, spelled out. */
  lemma {:induction false} IndexActionLiteral()
    ensures "Index" + "Action" == "IndexAction"
  {
  }

  /** The container key of the root route, spelled out. */
  lemma {:induction false} IndexServiceLiteral()
    ensures "controller.web." + "index" + "" == "controller.web.index"
  {
  }

  /** The strings of the `edit/5` example, spelled out. */
  lemma {:induction false} EditLiterals()
    ensures "edit" + "/" + "5" == "edit/5"
    ensures Capitalize("edit") == "Edit" && Lower("PUT") == "put"
    ensures "put" + "Edit" + "Action" == "putEditAction"
  {
  }
}
