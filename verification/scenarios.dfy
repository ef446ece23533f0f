/**
  Concrete behaviours of the development server, each stated for every
  choice of resource, placeholder and value names.
*/
module Scenarios {
  import opened Wrappers
  import opened Js
  import opened PathPattern
  import opened Routes
  import opened Adapter
  import opened Reload

  /** A verb mapping that declares only `verb`. */
  function Only(verb: string): Value {
    Obj([(verb, Obj([]))])
  }

  function GetRequest(path: string): Request {
    Request("GET", path, Obj([]), Obj([]), Undefined)
  }

  // The lemmas below take their strings as parameters: stated directly on
  // string literals, the same facts make the verifier unfold the recursive
  // string functions far too eagerly.

  /** Splitting a string that is a join of `/`-free parts. */
  lemma SplitAs(s: string, parts: seq<string>)
    requires |parts| >= 1 && Join(parts) == s
    requires forall i :: 0 <= i < |parts| ==> '/' !in parts[i]
    ensures Split(s) == parts
  {
    SplitJoin(parts);
  }

  lemma CreatePathAs(s: string, parts: seq<string>, segs: seq<Segment>)
    requires Split(s) == parts && |segs| == |parts|
    requires forall i :: 0 <= i < |parts| ==> segs[i] == ToSegment(parts[i])
    ensures CreatePath(s) == Path(s, segs)
  {
  }

  /** The table compiled from an object whose keys are `ks`. */
  lemma GetRoutesAs(o: Value, ks: seq<string>, rs: seq<Route>)
    requires Keys(o) == Returned(ks) && |rs| == |ks|
    requires forall i :: 0 <= i < |ks| ==> CompileRoute(o, ks[i]) == rs[i]
    ensures GetRoutes(o) == Returned(rs)
  {
    var r := GetRoutes(o).value;
    assert |r| == |ks|;
    forall i | 0 <= i < |rs| ensures r[i] == rs[i] {
      CompiledAt(o, i);
    }
    assert r == rs;
  }

  lemma Join3(a: string, b: string, c: string)
    ensures Join([a, b, c]) == a + "/" + b + "/" + c
  {
    assert [a, b, c][1..] == [b, c];
    assert [b, c][1..] == [c];
    assert Join([b, c]) == b + "/" + c;
    assert a + "/" + (b + "/" + c) == a + "/" + b + "/" + c;
  }

  lemma KeysOfOne(key: string, v: Value)
    ensures Keys(Obj([(key, v)])) == Returned([key])
  {
    var ks := Keys(Obj([(key, v)])).value;
    assert |ks| == 1 && ks[0] == key;
    assert ks == [key];
  }

  lemma KeysOfTwo(k1: string, v1: Value, k2: string, v2: Value)
    requires k1 != k2
    ensures Keys(Obj([(k1, v1), (k2, v2)])) == Returned([k1, k2])
    ensures Get(Obj([(k1, v1), (k2, v2)]), k1) == v1
    ensures Get(Obj([(k1, v1), (k2, v2)]), k2) == v2
  {
    var es := [(k1, v1), (k2, v2)];
    var ks := Keys(Obj(es)).value;
    assert |ks| == 2 && ks[0] == k1 && ks[1] == k2;
    assert ks == [k1, k2];
    assert es[1..] == [(k2, v2)];
    assert Lookup(es[1..], k2) == v2;
  }

  lemma OnlyKeys(verb: string)
    ensures MethodKeys(Only(verb)) == [verb]
  {
  }

  /** `prefix` + `{x}` is rewritten to `prefix` + `:x`. */
  lemma RewriteLast(prefix: string, x: string)
    requires '{' !in prefix && GoodPiece(Placeholder(x))
    ensures ReplaceBraces(prefix + ("{" + x + "}")) == prefix + (":" + x)
  {
    var tail := "{" + x + "}";
    ReplaceTextPrefix(prefix, tail);
    ReplacePlaceholder(x, "");
    assert tail + "" == tail;
    assert ":" + x + ReplaceBraces("") == ":" + x;
  }

  /** A literal route segment: non-empty, no `/`, no `{`, and not read as a `:` placeholder. */
  predicate PlainSegment(r: string) {
    r != "" && '/' !in r && '{' !in r && r[0] != ':'
  }

  /** A placeholder name that survives both the rewrite and the split. */
  predicate PlainName(x: string) {
    GoodPiece(Placeholder(x)) && '/' !in x
  }

  /** The pattern compiled for a key `r/{x}`. */
  function ParamPath(r: string, x: string): Path {
    Path("/" + r + "/:" + x, [Lit(""), Lit(r), Param(x)])
  }

  /** The pattern compiled for a key `r/b`. */
  function LiteralPath(r: string, b: string): Path {
    Path("/" + r + "/" + b, [Lit(""), Lit(r), Lit(b)])
  }

  /** A key `r/{x}` compiles to the pattern `/r/:x`. */
  lemma ParamRouteCompiles(o: Value, r: string, x: string)
    requires !o.Nullish() && PlainSegment(r) && PlainName(x)
    ensures var key := r + "/{" + x + "}";
            CompileRoute(o, key) == Route("/" + key, MethodKeys(Get(o, key)), ParamPath(r, x))
  {
    var key := r + "/{" + x + "}";
    var rp := "/" + key;
    var prefix := "/" + r + "/";
    assert rp == prefix + ("{" + x + "}");
    RewriteLast(prefix, x);
    var source := "/" + r + "/:" + x;
    assert prefix + (":" + x) == source;
    var parts := ["", r, ":" + x];
    Join3("", r, ":" + x);
    SplitAs(source, parts);
    assert (":" + x)[1..] == x;
    CreatePathAs(source, parts, [Lit(""), Lit(r), Param(x)]);
  }

  /** A key `r/b` without placeholders compiles to the pattern `/r/b`. */
  lemma LiteralRouteCompiles(o: Value, r: string, b: string)
    requires !o.Nullish() && PlainSegment(r) && PlainSegment(b)
    ensures var key := r + "/" + b;
            CompileRoute(o, key) == Route("/" + key, MethodKeys(Get(o, key)), LiteralPath(r, b))
  {
    var key := r + "/" + b;
    var source := "/" + key;
    assert '{' !in source;
    NoBracesUnchanged(source);
    var parts := ["", r, b];
    Join3("", r, b);
    SplitAs(source, parts);
    CreatePathAs(source, parts, [Lit(""), Lit(r), Lit(b)]);
  }

  /** `/r/v` matches the pattern of `r/{x}`, binding `x` to `v`. */
  lemma ParamPathMatches(r: string, x: string, v: string)
    requires PlainSegment(r) && v != "" && '/' !in v
    ensures Test(ParamPath(r, x), "/" + r + "/" + v) == Some(map[x := v])
  {
    var parts := ["", r, v];
    Join3("", r, v);
    SplitAs("/" + r + "/" + v, parts);
    var segs := ParamPath(r, x).segments;
    assert map[x := v] + map[] == map[x := v];
    assert Capture(segs[2..], parts[2..]) == Some(map[x := v]);
    assert Capture(segs[1..], parts[1..]) == Some(map[x := v]);
  }

  /** `/r/b` matches the pattern of `r/b`, binding nothing. */
  lemma LiteralPathMatches(r: string, b: string)
    requires PlainSegment(r) && PlainSegment(b)
    ensures Test(LiteralPath(r, b), "/" + r + "/" + b) == Some(map[])
  {
    var parts := ["", r, b];
    Join3("", r, b);
    SplitAs("/" + r + "/" + b, parts);
  }

  /**
    A request reaching a placeholder route, for any resource `r`, placeholder
    `x`, verb and value `v` (say `items`, `id`, `GET`, `42`): the routes object
    `{"r/{x}": {verb: ...}}` and the request `verb /r/v` give the handler
    the resource path `/r/{x}` and the parameters `{x: v}`.
  */
  lemma PlaceholderEndToEnd(r: string, x: string, verb: string, v: string)
    requires PlainSegment(r) && PlainName(x) && v != "" && '/' !in v
    ensures var key := r + "/{" + x + "}";
            var routes := GetRoutes(Obj([(key, Only(verb))]));
            var e := GetParams(Request(verb, "/" + r + "/" + v, Obj([]), Obj([]), Undefined), routes.value);
            && routes.Returned?
            && e.requestContext == RequestContext("/" + key, verb)
            && e.pathParameters == map[x := v]
  {
    var key := r + "/{" + x + "}";
    var o := Obj([(key, Only(verb))]);
    ParamRouteCompiles(o, r, x);
    OnlyKeys(verb);
    KeysOfOne(key, Only(verb));
    var route := Route("/" + key, [verb], ParamPath(r, x));
    GetRoutesAs(o, [key], [route]);
    ParamPathMatches(r, x, v);
    var req := Request(verb, "/" + r + "/" + v, Obj([]), Obj([]), Undefined);
    assert SelectedAt([route], req, 0);
  }

  /** `{statusCode: 201, body: {ok: true}}` is sent as status 201 with that body. */
  lemma CreatedResponse()
    ensures Respond(Null, Obj([("statusCode", Num(201)), ("body", Obj([("ok", Bool(true))]))]))
         == Returned(Reply(Num(201), Some(Obj([])), Obj([("ok", Bool(true))])))
  {
  }

  /** A failure with message `boom` is sent as status 500 with body `{message: "boom"}`. */
  lemma BoomResponse()
    ensures Respond(Obj([("message", Str("boom"))]), Undefined)
         == Returned(Reply(Num(500), None, Obj([("message", Str("boom"))])))
  {
  }

  /** A status code of 0 is falsy and replaced by 200. */
  lemma ZeroStatusIsDefaulted()
    ensures Respond(Undefined, Obj([("statusCode", Num(0))]))
         == Returned(Reply(Num(200), Some(Obj([])), Obj([])))
  {
  }

  /** Completing without an error and without a response throws instead of answering. */
  lemma MissingResponseThrows()
    ensures Respond(Null, Undefined).Threw?
  {
  }

  /**
    Overlapping routes `r/{x}` and `r/b`, both declaring `verb`: whichever
    is declared first serves `verb /r/b`.
  */
  lemma FirstDeclaredWins(r: string, x: string, b: string, verb: string)
    requires PlainSegment(r) && PlainName(x) && PlainSegment(b)
    ensures var pk := r + "/{" + x + "}";
            var lk := r + "/" + b;
            var req := Request(verb, "/" + r + "/" + b, Obj([]), Obj([]), Undefined);
            var paramFirst := GetRoutes(Obj([(pk, Only(verb)), (lk, Only(verb))]));
            var literalFirst := GetRoutes(Obj([(lk, Only(verb)), (pk, Only(verb))]));
            && paramFirst.Returned? && literalFirst.Returned?
            && GetPathParams(req, paramFirst.value) == MatchResult("/" + pk, map[x := b])
            && GetPathParams(req, literalFirst.value) == MatchResult("/" + lk, map[])
  {
    var pk := r + "/{" + x + "}";
    var lk := r + "/" + b;
    assert pk != lk by {
      assert '{' in pk by { assert pk[|r| + 1] == '{'; }
      assert '{' !in lk;
    }
    var req := Request(verb, "/" + r + "/" + b, Obj([]), Obj([]), Undefined);
    var pr := Route("/" + pk, [verb], ParamPath(r, x));
    var lr := Route("/" + lk, [verb], LiteralPath(r, b));
    OnlyKeys(verb);
    var o1 := Obj([(pk, Only(verb)), (lk, Only(verb))]);
    KeysOfTwo(pk, Only(verb), lk, Only(verb));
    ParamRouteCompiles(o1, r, x);
    LiteralRouteCompiles(o1, r, b);
    GetRoutesAs(o1, [pk, lk], [pr, lr]);
    var o2 := Obj([(lk, Only(verb)), (pk, Only(verb))]);
    KeysOfTwo(lk, Only(verb), pk, Only(verb));
    ParamRouteCompiles(o2, r, x);
    LiteralRouteCompiles(o2, r, b);
    GetRoutesAs(o2, [lk, pk], [lr, pr]);
    ParamPathMatches(r, x, b);
    LiteralPathMatches(r, b);
    assert SelectedAt([pr, lr], req, 0);
    assert SelectedAt([lr, pr], req, 0);
  }

  /** A route declaring only `GET` does not serve `POST` to its path: the request falls back. */
  lemma VerbMismatchFallsBack(r: string, b: string)
    requires PlainSegment(r) && PlainSegment(b)
    ensures var routes := GetRoutes(Obj([(r + "/" + b, Only("GET"))]));
            var req := Request("POST", "/" + r + "/" + b, Obj([]), Obj([]), Undefined);
            && routes.Returned?
            && GetPathParams(req, routes.value) == MatchResult(req.pathname, map[])
  {
    var o := Obj([(r + "/" + b, Only("GET"))]);
    LiteralRouteCompiles(o, r, b);
    OnlyKeys("GET");
    KeysOfOne(r + "/" + b, Only("GET"));
    var route := Route("/" + r + "/" + b, ["GET"], LiteralPath(r, b));
    GetRoutesAs(o, [r + "/" + b], [route]);
    var req := Request("POST", "/" + r + "/" + b, Obj([]), Obj([]), Undefined);
    assert !Eligible(route, req);
  }

  /** Matching is by whole segments, not by prefix: `/a/b` does not match `/a/:x/c`. */
  lemma NoPrefixMatch(a: string, b: string, x: string, c: string)
    requires PlainSegment(a) && PlainSegment(b) && PlainName(x) && PlainSegment(c)
    ensures Test(CreatePath("/" + a + "/:" + x + "/" + c), "/" + a + "/" + b).None?
  {
    var pattern := "/" + a + "/:" + x + "/" + c;
    var parts := ["", a, ":" + x, c];
    assert parts[1..] == [a, ":" + x, c];
    Join3(a, ":" + x, c);
    assert Join(parts) == "" + "/" + (a + "/" + (":" + x) + "/" + c);
    assert Join(parts) == pattern;
    SplitAs(pattern, parts);
    Join3("", a, b);
    SplitAs("/" + a + "/" + b, ["", a, b]);
  }

  /**
    The reload is not atomic: when `apiConfig()` throws on the first load,
    the new app is stored while `routes` stays `null`, and serving throws.
  */
  lemma ReloadLeavesStaleRoutes()
    ensures var s := ReloadApp(Initial<int>(), "src", "app.js",
                               (_, _) => Returned(1), (_: int) => Threw(Str("boom")));
            && s == Step(State(Some(1), None), Some(Str("boom")))
            && Serve(s.state, GetRequest("/"), (_, _) => (Null, Obj([]))).Threw?
  {
  }
}
