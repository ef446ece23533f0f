/**
  The two process-wide variables of src/index.js, `claudiaApp` and `routes`,
  the reload triggered by an emitted build asset, and the request path that
  reads them. Loading a module is the parameter `compile` (source and file
  name to the module's exports, or a thrown exception) and calling the
  exports' `apiConfig()` is the parameter `apiConfig`; both stand for code
  this model does not see.
*/
module Reload {
  import opened Wrappers
  import opened Js
  import opened Routes
  import opened Adapter
  import opened PathPattern

  /** `claudiaApp` and `routes`; `None` is the initial `null`. */
  datatype State<A> = State(app: Option<A>, routes: Option<seq<Route>>)

  /** Both variables before the first load. */
  function Initial<A>(): State<A> {
    State(None, None)
  }

  /** The state after a step, and the exception the step threw, if any. */
  datatype Step<A> = Step(state: State<A>, thrown: Option<Value>)

  /**
    `reloadClaudiaApp(source, filename)`. The new exports are stored before
    `apiConfig()` runs, so an exception from `apiConfig()`, from reading its
    `routes`, or from `getRoutes` leaves the new app with the old routes.
  */
  function ReloadApp<A>(
    st: State<A>, source: string, filename: string,
    compile: (string, string) -> Completion<A>, apiConfig: A -> Completion<Value>): (s: Step<A>)
    ensures compile(source, filename).Threw? ==> s == Step(st, Some(compile(source, filename).exception))
    ensures compile(source, filename).Returned? ==> s.state.app == Some(compile(source, filename).value)
    ensures s.thrown.Some? ==> s.state.routes == st.routes
    ensures s.thrown.None? <==>
      && compile(source, filename).Returned?
      && apiConfig(compile(source, filename).value).Returned?
      && !apiConfig(compile(source, filename).value).value.Nullish()
      && !Get(apiConfig(compile(source, filename).value).value, "routes").Nullish()
    ensures s.thrown.None? ==>
      s.state.routes == Some(GetRoutes(Get(apiConfig(compile(source, filename).value).value, "routes")).value)
  {
    match compile(source, filename)
    case Threw(e) => Step(st, Some(e))
    case Returned(exports) =>
      var loaded := st.(app := Some(exports));
      match apiConfig(exports)
      case Threw(e) => Step(loaded, Some(e))
      case Returned(config) =>
        if config.Nullish() then
          Step(loaded, Some(TypeError("Cannot read properties of " + (if config.Null? then "null" else "undefined"))))
        else
          match GetRoutes(Get(config, "routes"))
          case Threw(e) => Step(loaded, Some(e))
          case Returned(rs) => Step(State(Some(exports), Some(rs)), None)
  }

  /** The `assetEmitted` hook: only the configured output file triggers a reload. */
  function OnAssetEmitted<A>(
    st: State<A>, outputFilename: string, file: string, content: string,
    compile: (string, string) -> Completion<A>, apiConfig: A -> Completion<Value>): (s: Step<A>)
    ensures file != outputFilename ==> s == Step(st, None)
    ensures file == outputFilename ==> s == ReloadApp(st, content, file, compile, apiConfig)
  {
    if outputFilename == file then ReloadApp(st, content, file, compile, apiConfig)
    else Step(st, None)
  }

  /** Routes are only ever published by a reload that also stored an app. */
  predicate RoutesHaveApp<A>(st: State<A>) {
    st.routes.Some? ==> st.app.Some?
  }

  /** An emitted asset: its file name and content. */
  datatype Asset = Asset(file: string, content: string)

  /**
    The state after a series of emitted assets, assuming the process keeps
    watching after a reload that threw.
  */
  function Run<A>(
    st: State<A>, outputFilename: string, assets: seq<Asset>,
    compile: (string, string) -> Completion<A>, apiConfig: A -> Completion<Value>): State<A>
    decreases |assets|
  {
    if assets == [] then st
    else
      var s := OnAssetEmitted(st, outputFilename, assets[0].file, assets[0].content, compile, apiConfig);
      Run(s.state, outputFilename, assets[1..], compile, apiConfig)
  }

  /** From the initial state, no series of assets ever yields routes without an app. */
  lemma {:induction false} RunKeepsRoutesWithApp<A>(
    st: State<A>, outputFilename: string, assets: seq<Asset>,
    compile: (string, string) -> Completion<A>, apiConfig: A -> Completion<Value>)
    requires RoutesHaveApp(st)
    ensures RoutesHaveApp(Run(st, outputFilename, assets, compile, apiConfig))
    decreases |assets|
  {
    if assets != [] {
      var s := OnAssetEmitted(st, outputFilename, assets[0].file, assets[0].content, compile, apiConfig);
      assert RoutesHaveApp(s.state);
      RunKeepsRoutesWithApp(s.state, outputFilename, assets[1..], compile, apiConfig);
    }
  }

  /** Assets other than the output file change nothing, however many arrive. */
  lemma {:induction false} RunIgnoresOtherFiles<A>(
    st: State<A>, outputFilename: string, assets: seq<Asset>,
    compile: (string, string) -> Completion<A>, apiConfig: A -> Completion<Value>)
    requires forall i :: 0 <= i < |assets| ==> assets[i].file != outputFilename
    ensures Run(st, outputFilename, assets, compile, apiConfig) == st
    decreases |assets|
  {
    if assets != [] {
      RunIgnoresOtherFiles(st, outputFilename, assets[1..], compile, apiConfig);
    }
  }

  /** Reloading the same source again after a successful reload publishes the same state. */
  lemma ReloadIdempotent<A>(
    st: State<A>, source: string, filename: string,
    compile: (string, string) -> Completion<A>, apiConfig: A -> Completion<Value>)
    requires ReloadApp(st, source, filename, compile, apiConfig).thrown.None?
    ensures var s := ReloadApp(st, source, filename, compile, apiConfig).state;
            ReloadApp(s, source, filename, compile, apiConfig) == Step(s, None)
  {
  }

  /**
    The request path (`app.all("*", ...)`): build the event against the current
    routes, call the handler and answer through `done`. The handler is the
    parameter `invoke`, giving the `(err, response)` it passes to `done`.
    Iterating `null` routes throws before `claudiaApp` is read, so a request
    before the first load throws too.
  */
  function Serve<A>(st: State<A>, req: Request, invoke: (A, Event) -> (Value, Value)): (r: Completion<Reply>)
    requires RoutesHaveApp(st)
    ensures st.routes.None? ==> r.Threw?
    ensures forall i :: st.routes.Some? && SelectedAt(st.routes.value, req, i) ==>
      var rs := st.routes.value;
      var e := Event(RequestContext(rs[i].resourcePath, req.httpMethod), req.headers, req.query, req.body,
                     Test(rs[i].path, req.pathname).value);
      r == Respond(invoke(st.app.value, e).0, invoke(st.app.value, e).1)
    ensures st.routes.Some? && (forall i :: 0 <= i < |st.routes.value| ==> !Eligible(st.routes.value[i], req)) ==>
      var e := Event(RequestContext(req.pathname, req.httpMethod), req.headers, req.query, req.body, map[]);
      r == Respond(invoke(st.app.value, e).0, invoke(st.app.value, e).1)
  {
    match st.routes
    case None => Threw(TypeError("routes is not iterable"))
    case Some(rs) =>
      var event := GetParams(req, rs);
      var (err, response) := invoke(st.app.value, event);
      Respond(err, response)
  }

  /** A handler that always reports an error is answered with 500, whatever the routes. */
  lemma HandlerErrorGives500<A>(st: State<A>, req: Request, invoke: (A, Event) -> (Value, Value))
    requires RoutesHaveApp(st) && st.routes.Some?
    requires forall e :: Truthy(invoke(st.app.value, e).0)
    ensures Serve(st, req, invoke).Returned?
    ensures Serve(st, req, invoke).value.status == Num(500) && Serve(st, req, invoke).value.headers.None?
  {
  }

  /**
    After a successful reload every request is answered, by a handler that
    always reports a response, with a truthy status and body.
  */
  lemma ReloadThenServe<A>(
    st: State<A>, source: string, filename: string,
    compile: (string, string) -> Completion<A>, apiConfig: A -> Completion<Value>,
    req: Request, invoke: (A, Event) -> (Value, Value))
    requires RoutesHaveApp(st)
    requires ReloadApp(st, source, filename, compile, apiConfig).thrown.None?
    requires forall a, e :: !invoke(a, e).1.Nullish()
    ensures var s := ReloadApp(st, source, filename, compile, apiConfig).state;
            && RoutesHaveApp(s)
            && Serve(s, req, invoke).Returned?
            && Truthy(Serve(s, req, invoke).value.status) && Truthy(Serve(s, req, invoke).value.body)
  {
  }

  /** A failed reload of a served state keeps a servable state with the previous routes. */
  lemma FailedReloadKeepsServing<A>(
    st: State<A>, source: string, filename: string,
    compile: (string, string) -> Completion<A>, apiConfig: A -> Completion<Value>)
    requires st.app.Some? && st.routes.Some?
    requires ReloadApp(st, source, filename, compile, apiConfig).thrown.Some?
    ensures var s := ReloadApp(st, source, filename, compile, apiConfig).state;
            s.app.Some? && s.routes == st.routes
  {
  }
}
