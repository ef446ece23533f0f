/**
  The route table of src/index.js: compiling the handler's declared
  `routes` object into descriptors (`getRoutes`), choosing the route for a
  request (`getPathParams`) and building the handler's event (`getParams`).
*/
module Routes {
  import opened Wrappers
  import opened Js
  import opened PathPattern

  /** A compiled route: `/` + key, the verbs declared for it, and its pattern. */
  datatype Route = Route(resourcePath: string, supportedMethods: seq<string>, path: Path)

  /** `Object.keys(verbs || {})`: the verb names of one route's mapping. */
  function MethodKeys(verbs: Value): seq<string> {
    var o := Or(verbs, Obj([]));
    match Keys(o)
    case Returned(ks) => ks
    case Threw(_) => assert false; []
  }

  /** The descriptor for one key of the routes object. */
  function CompileRoute(routesObj: Value, key: string): Route
    requires !routesObj.Nullish()
  {
    var resourcePath := "/" + key;
    Route(resourcePath, MethodKeys(Get(routesObj, key)), CreatePath(ReplaceBraces(resourcePath)))
  }

  /**
    `getRoutes(routesObj)`: one descriptor per key, in key order. `Object.keys`
    throws on `undefined` and `null`, so a missing `routes` is an exception
    here, not an empty table.
  */
  function GetRoutes(routesObj: Value): (r: Completion<seq<Route>>)
    ensures r.Threw? <==> routesObj.Nullish()
    ensures r.Returned? ==>
      && |r.value| == |Keys(routesObj).value|
      && forall i :: 0 <= i < |r.value| ==> r.value[i].resourcePath == "/" + Keys(routesObj).value[i]
  {
    match Keys(routesObj)
    case Threw(e) => Threw(e)
    case Returned(ks) =>
      Returned(seq(|ks|, i requires 0 <= i < |ks| => CompileRoute(routesObj, ks[i])))
  }

  /** The declared verbs of a route: exactly the keys of its mapping, none when it is falsy. */
  lemma RouteMethods(routesObj: Value, i: nat)
    requires GetRoutes(routesObj).Returned? && i < |GetRoutes(routesObj).value|
    ensures var verbs := Get(routesObj, Keys(routesObj).value[i]);
            var ms := GetRoutes(routesObj).value[i].supportedMethods;
            && (!Truthy(verbs) ==> ms == [])
            && (verbs.Obj? ==> forall m :: m in ms <==> exists j :: 0 <= j < |verbs.entries| && verbs.entries[j].0 == m)
  {
    var verbs := Get(routesObj, Keys(routesObj).value[i]);
    CompiledAt(routesObj, i);
    if verbs.Obj? {
      var es := verbs.entries;
      var ms := MethodKeys(verbs);
      assert ms == seq(|es|, j requires 0 <= j < |es| => es[j].0);
      forall m | m in ms ensures exists j :: 0 <= j < |es| && es[j].0 == m {
        var j :| 0 <= j < |ms| && ms[j] == m;
        assert es[j].0 == m;
      }
      forall m | exists j :: 0 <= j < |es| && es[j].0 == m ensures m in ms {
        var j :| 0 <= j < |es| && es[j].0 == m;
        assert ms[j] == m;
      }
    }
  }

  /** Descriptor `i` of the table is the compiled form of key `i`. */
  lemma CompiledAt(routesObj: Value, i: nat)
    requires GetRoutes(routesObj).Returned? && i < |GetRoutes(routesObj).value|
    ensures GetRoutes(routesObj).value[i] == CompileRoute(routesObj, Keys(routesObj).value[i])
  {
  }

  /** The pattern of a route whose key is `pieces`: the resource path with each `{name}` spelt `:name`. */
  lemma RoutePattern(routesObj: Value, i: nat, pieces: seq<Piece>)
    requires GetRoutes(routesObj).Returned? && i < |GetRoutes(routesObj).value|
    requires Keys(routesObj).value[i] == Render(pieces)
    requires forall k :: 0 <= k < |pieces| ==> GoodPiece(pieces[k])
    ensures GetRoutes(routesObj).value[i].path.source == "/" + RenderColon(pieces)
  {
    var ps := [Text("/")] + pieces;
    LeadingSlash(pieces);
    ReplaceBracesRender(ps);
    CompiledAt(routesObj, i);
  }

  /** Prefixing the pieces of a key with the text `/`. */
  lemma LeadingSlash(pieces: seq<Piece>)
    requires forall k :: 0 <= k < |pieces| ==> GoodPiece(pieces[k])
    ensures var ps := [Text("/")] + pieces;
            && Render(ps) == "/" + Render(pieces)
            && RenderColon(ps) == "/" + RenderColon(pieces)
            && forall k :: 0 <= k < |ps| ==> GoodPiece(ps[k])
  {
    var ps := [Text("/")] + pieces;
    assert ps[0] == Text("/") && ps[1..] == pieces;
    forall k | 0 <= k < |ps| ensures GoodPiece(ps[k]) {
      if k > 0 { assert ps[k] == pieces[k - 1]; }
    }
  }

  /** A key without braces compiles to the pattern `/` + key. */
  lemma RoutePatternPlain(routesObj: Value, i: nat)
    requires GetRoutes(routesObj).Returned? && i < |GetRoutes(routesObj).value|
    requires '{' !in Keys(routesObj).value[i]
    ensures GetRoutes(routesObj).value[i].path.source == GetRoutes(routesObj).value[i].resourcePath
  {
    NoBracesUnchanged("/" + Keys(routesObj).value[i]);
    CompiledAt(routesObj, i);
  }

  // ----- matching a request -----

  /** The parts of an HTTP request the core reads. */
  datatype Request = Request(httpMethod: string, pathname: string, headers: Value, query: Value, body: Value)

  datatype MatchResult = MatchResult(resourcePath: string, pathParameters: map<string, string>)

  /** A route may serve a request: it declares the verb and its pattern matches the path. */
  predicate Eligible(route: Route, req: Request) {
    req.httpMethod in route.supportedMethods && Test(route.path, req.pathname).Some?
  }

  /** Route `i` is the first eligible one. */
  predicate SelectedAt(routes: seq<Route>, req: Request, i: int) {
    && 0 <= i < |routes|
    && Eligible(routes[i], req)
    && forall j :: 0 <= j < i ==> !Eligible(routes[j], req)
  }

  function Matched(route: Route, req: Request): MatchResult
    requires Eligible(route, req)
  {
    MatchResult(route.resourcePath, Test(route.path, req.pathname).value)
  }

  /** No route serves the request: the raw path and no parameters. */
  function Fallback(req: Request): MatchResult {
    MatchResult(req.pathname, map[])
  }

  /** `getPathParams(req, routes)`: the first eligible route wins, else the fallback. */
  function GetPathParams(req: Request, routes: seq<Route>): (r: MatchResult)
    ensures forall i :: SelectedAt(routes, req, i) ==> r == Matched(routes[i], req)
    ensures (forall i :: 0 <= i < |routes| ==> !Eligible(routes[i], req)) ==> r == Fallback(req)
  {
    if routes == [] then Fallback(req)
    else if Eligible(routes[0], req) then Matched(routes[0], req)
    else
      var r := GetPathParams(req, routes[1..]);
      assert forall i :: 1 <= i < |routes| && SelectedAt(routes, req, i) ==> SelectedAt(routes[1..], req, i - 1);
      r
  }

  /** The loop of `getPathParams`, scanning the table in order and returning at the first eligible route. */
  method GetPathParamsLoop(req: Request, routes: seq<Route>) returns (r: MatchResult)
    ensures forall i :: SelectedAt(routes, req, i) ==> r == Matched(routes[i], req)
    ensures (forall i :: 0 <= i < |routes| ==> !Eligible(routes[i], req)) ==> r == Fallback(req)
    ensures r == GetPathParams(req, routes)
  {
    var k := 0;
    while k < |routes|
      invariant 0 <= k <= |routes|
      invariant forall j :: 0 <= j < k ==> !Eligible(routes[j], req)
    {
      var route := routes[k];
      var isSupported := req.httpMethod in route.supportedMethods;
      var pathParameters := Test(route.path, req.pathname);
      if isSupported && pathParameters.Some? {
        assert SelectedAt(routes, req, k);
        return MatchResult(route.resourcePath, pathParameters.value);
      }
      k := k + 1;
    }
    return Fallback(req);
  }

  /** The routes that declare a verb, in their original order. */
  function Declaring(routes: seq<Route>, verb: string): (r: seq<Route>)
    ensures forall x :: x in r ==> verb in x.supportedMethods
  {
    if routes == [] then []
    else if verb in routes[0].supportedMethods then [routes[0]] + Declaring(routes[1..], verb)
    else Declaring(routes[1..], verb)
  }

  /** Routes that do not declare the request's verb are never selected: dropping them changes nothing. */
  lemma {:induction false} UndeclaredVerbIgnored(req: Request, routes: seq<Route>)
    ensures GetPathParams(req, routes) == GetPathParams(req, Declaring(routes, req.httpMethod))
  {
    if routes != [] {
      UndeclaredVerbIgnored(req, routes[1..]);
      if req.httpMethod in routes[0].supportedMethods {
        var d := Declaring(routes, req.httpMethod);
        assert d[0] == routes[0] && d[1..] == Declaring(routes[1..], req.httpMethod);
      }
    }
  }

  /** Once a route is selected the routes after it are never consulted. */
  lemma {:induction false} LaterRoutesIgnored(req: Request, routes: seq<Route>, i: nat, later: seq<Route>)
    requires SelectedAt(routes, req, i)
    ensures GetPathParams(req, routes[..i + 1] + later) == GetPathParams(req, routes)
  {
    var rs := routes[..i + 1] + later;
    assert forall j :: 0 <= j <= i ==> rs[j] == routes[j];
    assert SelectedAt(rs, req, i);
  }

  // ----- the handler's event -----

  datatype RequestContext = RequestContext(resourcePath: string, httpMethod: string)

  /** The invocation record passed to the handler's `proxyRouter`. */
  datatype Event = Event(
    requestContext: RequestContext,
    headers: Value,
    queryStringParameters: Value,
    body: Value,
    pathParameters: map<string, string>)

  /**
    `getParams(req, routes)`: the request's verb, headers, query and body as
    received, and the resource path and parameters of the chosen route.
  */
  function GetParams(req: Request, routes: seq<Route>): (e: Event)
    ensures e.requestContext.httpMethod == req.httpMethod
    ensures e.headers == req.headers && e.queryStringParameters == req.query && e.body == req.body
    ensures forall i :: SelectedAt(routes, req, i) ==>
              && e.requestContext.resourcePath == routes[i].resourcePath
              && e.pathParameters == Test(routes[i].path, req.pathname).value
              && e.pathParameters.Keys == set x | x in ParamNames(routes[i].path.segments)
    ensures (forall i :: 0 <= i < |routes| ==> !Eligible(routes[i], req)) ==>
              e.requestContext.resourcePath == req.pathname && e.pathParameters == map[]
  {
    var pathParams := GetPathParams(req, routes);
    Event(
      RequestContext(pathParams.resourcePath, req.httpMethod),
      req.headers,
      req.query,
      req.body,
      pathParams.pathParameters)
  }
}
