/** What the routers exchange with the outside: PHP values returned by action
    methods, the transport responses built from them, the parts of the request
    the routers read, the controller instances found in the service container,
    and the outcome of dispatching one request. */
module Http {
  import opened Strings

  /** A PHP array key. */
  datatype Key = IntKey(i: int) | StrKey(s: string)

  /** A PHP value as an action method can return it. */
  datatype Value =
    | Null
    | Bool(b: bool)
    | Int(i: int)
    | Str(s: string)
    | Arr(entries: seq<(Key, Value)>)
      /** an object that is not a Response, with its visible properties */
    | Obj(props: seq<(Key, Value)>)
      /** a Symfony Response object built by the action itself */
    | ResponseObj(response: Response)

  /** A transport response. */
  datatype Response =
      /** a Twig template rendered with the given variables */
    | Rendered(template: string, values: seq<(Key, Value)>, status: int)
    | Redirect(url: string, status: int)
      /** a JSON response carrying the encoded value */
    | Json(data: Value, status: int)
      /** any other response an action builds itself */
    | Custom(body: string, status: int)

  /** PHP's conversion to boolean: `null`, `false`, `0`, `""`, `"0"` and the
      empty array are false; everything else, every object included, is true. */
  predicate Truthy(v: Value)
  {
    match v
    case Null => false
    case Bool(b) => b
    case Int(i) => i != 0
    case Str(s) => s != "" && s != "0"
    case Arr(entries) => entries != []
    case Obj(_) => true
    case ResponseObj(_) => true
  }

  /** Exactly six values are falsy. */
  lemma {:induction false} FalsyValues(v: Value)
    ensures !Truthy(v) <==> v in {Null, Bool(false), Int(0), Str(""), Str("0"), Arr([])}
  {
  }

  /** PHP's `(array)` cast of a value that is not a Response object: null
      becomes the empty array, an array stays itself, an object gives its
      properties, and a scalar becomes a one-element list. */
  function ToArray(v: Value): (r: seq<(Key, Value)>)
    requires !v.ResponseObj?
    ensures v.Arr? ==> r == v.entries
    ensures v.Obj? ==> r == v.props
    ensures (v.Null? || v == Arr([]) || v == Obj([])) <==> r == []
    ensures (v.Bool? || v.Int? || v.Str?) ==> r == [(IntKey(0), v)]
  {
    match v
    case Null => []
    case Arr(entries) => entries
    case Obj(props) => props
    case _ => [(IntKey(0), v)]
  }

  /** The parts of a Symfony Request the routers read. `httpMethod` is what
      `getMethod()` returns; `contentType` is the Content-Type header, if any;
      `jsonBody` is what `json_decode` makes of the body (Null when the body
      is not valid JSON). */
  datatype Request = Request(
    httpMethod: string,
    isXmlHttpRequest: bool,
    contentType: Option<string>,
    jsonBody: Value)

  /** One positional argument of an action call: a path token or the request. */
  datatype Arg = Param(token: string) | TheRequest

  /** The action method called and the arguments it is called with. */
  datatype Call = Call(name: string, args: seq<Arg>)

  /** A controller instance from the service container: the names of the
      methods it declares, and what each call returns. */
  datatype Controller = Controller(methods: set<string>, reply: Call -> Value)

  /** PHP's `method_exists`: method names are compared ignoring case. */
  predicate MethodExists(methods: set<string>, name: string)
  {
    exists m :: m in methods && Lower(m) == Lower(name)
  }

  /** The exceptions a router throws. */
  datatype Error =
      /** the service container has no controller under this key */
    | ServiceNotFound(key: string)
    | NotFound(message: string)
    | MethodNotAllowed(message: string)
    | AccessDenied(message: string)

  /** The outcome of dispatching one request: either the action was called
      and its result shaped into a response, or an exception was thrown before
      the call. */
  datatype Outcome = Done(call: Call, response: Response) | Failed(error: Error)

  /** The argument list of an action call: the path parameters, in order,
      followed by the request. */
  function Args(params: seq<string>): (r: seq<Arg>)
    ensures |r| == |params| + 1 && r[|params|] == TheRequest
    ensures forall k :: 0 <= k < |params| ==> r[k] == Param(params[k])
  {
    if params == [] then [TheRequest] else [Param(params[0])] + Args(params[1..])
  }
}
