/**
 * The API server (internal/api/server.go): the route table NewServer
 * registers, the status-capturing responseWriter, the sendJSON and
 * sendError helpers, the authMiddleware decision, the health endpoints and
 * one request served through the middleware chain.
 */
module Server {
  import opened Wrappers
  import opened Http
  import opened Json
  import Handlers

  datatype Config = Config(bindAddress: string, apiKey: string, namespace: string)

  /** An incoming request; apiKey is the X-API-Key header, "" when absent. */
  datatype Request = Request(verb: string, path: string, apiKey: string, body: Handlers.Decoded)

  // ---------------------------------------------------------------------
  // responseWriter, sendJSON, sendError

  /** Wraps the writer and remembers the code of the last WriteHeader; 200 until then. */
  class ResponseWriter {
    const inner: Writer
    var statusCode: int

    constructor (w: Writer)
      ensures inner == w && statusCode == 200
    {
      inner := w;
      statusCode := 200;
    }

    method WriteHeader(code: int)
      modifies this, inner
      ensures statusCode == code
      ensures inner.status == (if old(inner.status).None? then Some(code) else old(inner.status))
      ensures inner.header == old(inner.header) && inner.body == old(inner.body)
    {
      statusCode := code;
      inner.WriteHeader(code);
    }
  }

  /** The body sendError encodes: an object with the single member "error". */
  function ErrorJson(message: string): (j: JsonValue)
    ensures j.JObject? && Keys(j.members) == ["error"]
    ensures Lookup(j.members, "error") == Some(JString(message))
  {
    JObject([("error", JString(message))])
  }

  const ContentTypeJson := "application/json"

  method SendJSON(w: ResponseWriter, data: JsonValue, status: int)
    modifies w, w.inner
    ensures w.statusCode == status
    ensures w.inner.status == (if old(w.inner.status).None? then Some(status) else old(w.inner.status))
    ensures w.inner.header ==
      (if old(w.inner.status).None? then old(w.inner.header)["Content-Type" := ContentTypeJson] else old(w.inner.header))
    ensures w.inner.body == old(w.inner.body) + [Document(data)]
  {
    w.inner.SetHeader("Content-Type", ContentTypeJson);
    w.WriteHeader(status);
    w.inner.Write(Document(data));
  }

  method SendError(w: ResponseWriter, message: string, status: int)
    modifies w, w.inner
    ensures w.statusCode == status
    ensures w.inner.status == (if old(w.inner.status).None? then Some(status) else old(w.inner.status))
    ensures w.inner.header ==
      (if old(w.inner.status).None? then old(w.inner.header)["Content-Type" := ContentTypeJson] else old(w.inner.header))
    ensures w.inner.body == old(w.inner.body) + [Document(ErrorJson(message))]
  {
    SendJSON(w, ErrorJson(message), status);
  }

  /** http.Error: a plain-text body of the message and a newline. */
  method HttpError(w: ResponseWriter, message: string, code: int)
    modifies w, w.inner
    ensures w.statusCode == code
    ensures w.inner.status == (if old(w.inner.status).None? then Some(code) else old(w.inner.status))
    ensures w.inner.header == (if old(w.inner.status).None? then
      old(w.inner.header)["Content-Type" := "text/plain; charset=utf-8"]["X-Content-Type-Options" := "nosniff"]
      else old(w.inner.header))
    ensures w.inner.body == old(w.inner.body) + [Text(message + "\n")]
  {
    w.inner.SetHeader("Content-Type", "text/plain; charset=utf-8");
    w.inner.SetHeader("X-Content-Type-Options", "nosniff");
    w.WriteHeader(code);
    w.inner.Write(Text(message + "\n"));
  }

  function DocumentJson(d: Handlers.Document): JsonValue
  {
    match d
    case ModelDoc(r) => Handlers.ResponseToJson(r)
    case ListDoc(items) => Handlers.ListToJson(items)
  }

  /** The response a handler's reply produces on a fresh writer: status, headers, body. */
  datatype Sent = Sent(status: int, header: map<string, string>, body: seq<Payload>)

  function Rendered(reply: Handlers.Reply): Sent
  {
    match reply
    case JsonReply(status, doc) => Sent(status, map["Content-Type" := ContentTypeJson], [Document(DocumentJson(doc))])
    case ErrorReply(status, message) => Sent(status, map["Content-Type" := ContentTypeJson], [Document(ErrorJson(message))])
    case EmptyReply(status) => Sent(status, map[], [])
  }

  predicate Shows(w: Writer, s: Sent)
    reads w
  {
    w.status == Some(s.status) && w.header == s.header && w.body == s.body
  }

  /** The writes a handler ends with: sendJSON, sendError, or a bare WriteHeader. */
  method Send(w: ResponseWriter, reply: Handlers.Reply)
    requires w.inner.status.None? && w.inner.header == map[] && w.inner.body == []
    modifies w, w.inner
    ensures Shows(w.inner, Rendered(reply))
    ensures w.statusCode == reply.status
  {
    match reply
    case JsonReply(status, doc) => SendJSON(w, DocumentJson(doc), status);
    case ErrorReply(status, message) => SendError(w, message, status);
    case EmptyReply(status) => w.WriteHeader(status);
  }

  // ---------------------------------------------------------------------
  // Routes

  datatype Segment = Lit(text: string) | Var(name: string)

  datatype Endpoint =
    | ListModels | CreateModel | GetModel | DeleteModel | RefreshModel | HealthCheck | ReadinessCheck

  datatype Route = Route(verb: string, pattern: seq<Segment>, endpoint: Endpoint)

  datatype Middleware = Metrics | Auth

  /** The pieces of s between the '/' characters. */
  function Split(s: string): (r: seq<string>)
    ensures |r| >= 1
  {
    if s == [] then [""]
    else if s[0] == '/' then [""] + Split(s[1..])
    else
      var t := Split(s[1..]);
      [[s[0]] + t[0]] + t[1..]
  }

  lemma {:induction false} SplitPiece(s: string)
    requires '/' !in s
    ensures Split(s) == [s]
  {
    if s != [] {
      SplitPiece(s[1..]);
      assert [s[0]] + s[1..] == s;
    }
  }

  lemma {:induction false} SplitJoin(a: string, b: string)
    requires '/' !in a
    ensures Split(a + "/" + b) == [a] + Split(b)
  {
    if a == [] {
      assert a + "/" + b == "/" + b;
      assert ("/" + b)[1..] == b;
    } else {
      var s := a + "/" + b;
      assert s[0] == a[0] && s[1..] == a[1..] + "/" + b;
      SplitJoin(a[1..], b);
      assert [a[0]] + a[1..] == a;
    }
  }

  /** A path's segments; a path that does not start with '/' has none. */
  function Segments(path: string): Option<seq<string>>
  {
    if |path| > 0 && path[0] == '/' then Some(Split(path[1..])) else None
  }

  /** The path of a sequence of segments: each preceded by '/'. */
  function Join(pieces: seq<string>): string
  {
    if pieces == [] then "" else "/" + pieces[0] + Join(pieces[1..])
  }

  /** Splitting a joined path gives its segments back, when none contains '/'. */
  lemma {:induction false} SegmentsOfJoin(pieces: seq<string>)
    requires |pieces| > 0 && forall i :: 0 <= i < |pieces| ==> '/' !in pieces[i]
    ensures Segments(Join(pieces)) == Some(pieces)
  {
    var path := Join(pieces);
    assert path[1..] == pieces[0] + Join(pieces[1..]);
    if |pieces| == 1 {
      assert Join(pieces[1..]) == "";
      assert path[1..] == pieces[0];
      SplitPiece(pieces[0]);
      assert pieces == [pieces[0]];
    } else {
      SegmentsOfJoin(pieces[1..]);
      var rest := Join(pieces[1..]);
      assert rest == "/" + rest[1..];
      assert path[1..] == pieces[0] + "/" + rest[1..];
      SplitJoin(pieces[0], rest[1..]);
      assert pieces == [pieces[0]] + pieces[1..];
    }
  }

  /** A variable matches one non-empty segment (gorilla/mux's default [^/]+); a literal only itself. */
  predicate SegmentMatches(seg: Segment, piece: string)
  {
    if seg.Lit? then piece == seg.text else piece != ""
  }

  predicate PathMatches(pattern: seq<Segment>, pieces: seq<string>)
  {
    |pattern| == |pieces| && forall i :: 0 <= i < |pattern| ==> SegmentMatches(pattern[i], pieces[i])
  }

  /** The path variables a match binds. */
  function Bindings(pattern: seq<Segment>, pieces: seq<string>): map<string, string>
    requires |pattern| == |pieces|
  {
    if pattern == [] then map[]
    else
      var rest := Bindings(pattern[1..], pieces[1..]);
      if pattern[0].Var? then rest[pattern[0].name := pieces[0]] else rest
  }

  predicate RouteMatches(r: Route, verb: string, path: string)
  {
    r.verb == verb && Segments(path).Some? && PathMatches(r.pattern, Segments(path).value)
  }

  datatype Dispatch = Matched(endpoint: Endpoint, vars: map<string, string>) | MethodNotAllowed | NoRoute

  /** gorilla/mux: the first route that matches; 405 when only the path of some route matches; 404 otherwise. */
  function DispatchFrom(routes: seq<Route>, verb: string, path: string): (d: Dispatch)
    ensures d.Matched? <==> exists i :: 0 <= i < |routes| && RouteMatches(routes[i], verb, path)
  {
    if routes == [] then NoRoute
    else if RouteMatches(routes[0], verb, path) then
      Matched(routes[0].endpoint, Bindings(routes[0].pattern, Segments(path).value))
    else
      var d := DispatchFrom(routes[1..], verb, path);
      assert forall i :: 1 <= i < |routes| ==> routes[i] == routes[1..][i - 1];
      if d.NoRoute? && Segments(path).Some? && PathMatches(routes[0].pattern, Segments(path).value) then MethodNotAllowed
      else d
  }

  class Router {
    var routes: seq<Route>
    var middlewares: seq<Middleware>

    constructor ()
      ensures routes == [] && middlewares == []
    {
      routes := [];
      middlewares := [];
    }

    method Use(mw: Middleware)
      modifies this
      ensures middlewares == old(middlewares) + [mw] && routes == old(routes)
    {
      middlewares := middlewares + [mw];
    }

    /** HandleFunc(template, handler).Methods(verb), under a path prefix (none for the root router). */
    method HandleFunc(prefix: seq<Segment>, template: seq<Segment>, endpoint: Endpoint, verb: string)
      modifies this
      ensures routes == old(routes) + [Route(verb, prefix + template, endpoint)]
      ensures middlewares == old(middlewares)
    {
      routes := routes + [Route(verb, prefix + template, endpoint)];
    }
  }

  const RouteTable := [
    Route("GET", [Lit("api"), Lit("v1"), Lit("models")], ListModels),
    Route("POST", [Lit("api"), Lit("v1"), Lit("models")], CreateModel),
    Route("GET", [Lit("api"), Lit("v1"), Lit("models"), Var("name")], GetModel),
    Route("DELETE", [Lit("api"), Lit("v1"), Lit("models"), Var("name")], DeleteModel),
    Route("POST", [Lit("api"), Lit("v1"), Lit("models"), Var("name"), Lit("refresh")], RefreshModel),
    Route("GET", [Lit("health")], HealthCheck),
    Route("GET", [Lit("readiness")], ReadinessCheck)]

  /** NewServer: metrics, then auth, around every route; the model routes under /api/v1. */
  method NewServer() returns (router: Router)
    ensures fresh(router)
    ensures router.routes == RouteTable && router.middlewares == [Metrics, Auth]
  {
    router := new Router();
    router.Use(Metrics);
    router.Use(Auth);
    var apiV1 := [Lit("api"), Lit("v1")];
    router.HandleFunc(apiV1, [Lit("models")], ListModels, "GET");
    router.HandleFunc(apiV1, [Lit("models")], CreateModel, "POST");
    router.HandleFunc(apiV1, [Lit("models"), Var("name")], GetModel, "GET");
    router.HandleFunc(apiV1, [Lit("models"), Var("name")], DeleteModel, "DELETE");
    router.HandleFunc(apiV1, [Lit("models"), Var("name"), Lit("refresh")], RefreshModel, "POST");
    router.HandleFunc([], [Lit("health")], HealthCheck, "GET");
    router.HandleFunc([], [Lit("readiness")], ReadinessCheck, "GET");
    assert apiV1 + [Lit("models")] == RouteTable[0].pattern;
    assert apiV1 + [Lit("models"), Var("name")] == RouteTable[2].pattern;
    assert apiV1 + [Lit("models"), Var("name"), Lit("refresh")] == RouteTable[4].pattern;
    assert [] + [Lit("health")] == RouteTable[5].pattern;
    assert [] + [Lit("readiness")] == RouteTable[6].pattern;
  }

  // ---------------------------------------------------------------------
  // Authentication and serving

  predicate Exempt(path: string)
  {
    path == "/health" || path == "/readiness"
  }

  /** The authMiddleware decision; the constant-time compare is string equality. */
  predicate Authorized(config: Config, req: Request)
  {
    Exempt(req.path) || config.apiKey == "" || req.apiKey == config.apiKey
  }

  /** healthCheck and readinessCheck. */
  method Probe(w: ResponseWriter, text: string)
    requires w.inner.status.None? && w.inner.header == map[] && w.inner.body == []
    modifies w, w.inner
    ensures Shows(w.inner, Sent(200, map[], [Text(text)])) && w.statusCode == 200
  {
    w.WriteHeader(200);
    w.inner.Write(Text(text));
  }

  function PathName(vars: map<string, string>): string
  {
    if "name" in vars then vars["name"] else ""
  }

  /** The handler a route leads to, as a function of the store. */
  function Handle(e: Endpoint, config: Config, st: Handlers.Store, f: Handlers.Faults, req: Request,
                  vars: map<string, string>): Handlers.Handled
    requires e != HealthCheck && e != ReadinessCheck
  {
    var ns := config.namespace;
    match e
    case ListModels => Handlers.ListModels(st, f, ns)
    case CreateModel => Handlers.CreateModel(st, f, ns, req.body)
    case GetModel => Handlers.GetModel(st, f, ns, PathName(vars))
    case DeleteModel => Handlers.DeleteModel(st, f, ns, PathName(vars))
    case RefreshModel => Handlers.RefreshModel(st, f, ns, PathName(vars))
  }

  /**
   * One request through the router. An unmatched request gets 404 or 405
   * from the router, without middleware. A matched one runs under the
   * metrics middleware, whose recorded status is the status sent, and the
   * auth middleware: an unauthorized request gets 401 "Unauthorized" and
   * never reaches its handler; otherwise the handler runs and its reply is
   * what the client receives.
   */
  method ServeHTTP(config: Config, router: Router, st: Handlers.Store, f: Handlers.Faults, req: Request, w: Writer)
    returns (st': Handlers.Store, calls: seq<Handlers.StoreCall>, recorded: Option<int>)
    requires w.status.None? && w.header == map[] && w.body == []
    modifies w
    ensures var d := DispatchFrom(router.routes, req.verb, req.path);
      && (d.NoRoute? ==> recorded == None && st' == st && calls == [] && w.status == Some(404))
      && (d.MethodNotAllowed? ==> recorded == None && st' == st && calls == [] && w.status == Some(405))
      && (d.Matched? ==> recorded == Some(w.Code()))
      && (d.Matched? && !Authorized(config, req) ==>
            st' == st && calls == [] &&
            Shows(w, Sent(401, map["Content-Type" := "text/plain; charset=utf-8"]["X-Content-Type-Options" := "nosniff"],
                          [Text("Unauthorized\n")])))
      && (d.Matched? && Authorized(config, req) && d.endpoint == HealthCheck ==>
            st' == st && calls == [] && Shows(w, Sent(200, map[], [Text("OK")])))
      && (d.Matched? && Authorized(config, req) && d.endpoint == ReadinessCheck ==>
            st' == st && calls == [] && Shows(w, Sent(200, map[], [Text("Ready")])))
      && (d.Matched? && Authorized(config, req) && d.endpoint != HealthCheck && d.endpoint != ReadinessCheck ==>
            var h := Handle(d.endpoint, config, st, f, req, d.vars);
            st' == h.store && calls == h.calls && Shows(w, Rendered(h.reply)))
  {
    var d := DispatchFrom(router.routes, req.verb, req.path);
    st', calls, recorded := st, [], None;
    if d.NoRoute? {
      w.WriteHeader(404);
      return;
    }
    if d.MethodNotAllowed? {
      w.WriteHeader(405);
      return;
    }
    // metricsMiddleware
    var rw := new ResponseWriter(w);
    // authMiddleware
    if !Exempt(req.path) && config.apiKey != "" && req.apiKey != config.apiKey {
      HttpError(rw, "Unauthorized", 401);
      assert "Unauthorized" + "\n" == "Unauthorized\n";
    } else if d.endpoint == HealthCheck {
      Probe(rw, "OK");
    } else if d.endpoint == ReadinessCheck {
      Probe(rw, "Ready");
    } else {
      var h := Handle(d.endpoint, config, st, f, req, d.vars);
      Send(rw, h.reply);
      st', calls := h.store, h.calls;
    }
    recorded := Some(rw.statusCode);
  }
}
