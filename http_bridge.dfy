/** The route-table dispatcher: routes live in a table keyed by
    `"<method>:<path>"`, lookup is exact, a handler throws on any failure, and
    the message listener turns each `HTTP_REQUEST` into an `HTTP_RESPONSE`
    with status 200 or 500. */
module HttpBridge {
  import opened Js
  import opened Capabilities
  import opened Handlers

  datatype Route =
    | HealthRoute | WorkspaceInfoRoute
    | ReadRoute | WriteRoute | ListRoute | CreateDirRoute | DeleteRoute | MoveRoute | CopyRoute
    | ExecRoute

  function RouteKey(verb: string, path: string): string
  {
    verb + ":" + path
  }

  /** The table `setupRoutes` builds. */
  function RouteTable(): map<string, Route>
  {
    map[
      RouteKey("GET", "/health") := HealthRoute,
      RouteKey("GET", "/api/workspace/info") := WorkspaceInfoRoute,
      RouteKey("POST", "/api/fs/read") := ReadRoute,
      RouteKey("POST", "/api/fs/write") := WriteRoute,
      RouteKey("POST", "/api/fs/list") := ListRoute,
      RouteKey("POST", "/api/fs/create-dir") := CreateDirRoute,
      RouteKey("POST", "/api/fs/delete") := DeleteRoute,
      RouteKey("POST", "/api/fs/move") := MoveRoute,
      RouteKey("POST", "/api/fs/copy") := CopyRoute,
      RouteKey("POST", "/api/exec/command") := ExecRoute]
  }

  /** The (method, path) pair each route is registered for. */
  function Registered(route: Route): (string, string)
  {
    match route
    case HealthRoute => ("GET", "/health")
    case WorkspaceInfoRoute => ("GET", "/api/workspace/info")
    case ReadRoute => ("POST", "/api/fs/read")
    case WriteRoute => ("POST", "/api/fs/write")
    case ListRoute => ("POST", "/api/fs/list")
    case CreateDirRoute => ("POST", "/api/fs/create-dir")
    case DeleteRoute => ("POST", "/api/fs/delete")
    case MoveRoute => ("POST", "/api/fs/move")
    case CopyRoute => ("POST", "/api/fs/copy")
    case ExecRoute => ("POST", "/api/exec/command")
  }

  function KeyOf(route: Route): string
  {
    RouteKey(Registered(route).0, Registered(route).1)
  }

  /** In a key built from colon-free parts, the only ':' is the separator. */
  lemma OnlyColon(verb: string, path: string, i: int)
    requires ':' !in verb && ':' !in path
    requires 0 <= i < |RouteKey(verb, path)| && RouteKey(verb, path)[i] == ':'
    ensures i == |verb|
  {
  }

  /** Splitting `<method>:<path>` at its only ':' gives back the pair. */
  lemma SplitAtColon(m1: string, p1: string, m2: string, p2: string)
    requires ':' !in m1 && ':' !in p1
    requires RouteKey(m1, p1) == RouteKey(m2, p2)
    ensures m1 == m2 && p1 == p2
  {
    var k := RouteKey(m1, p1);
    assert k[|m2|] == ':';
    OnlyColon(m1, p1, |m2|);
    assert m1 == k[..|m1|] == m2;
    assert p1 == k[|m1| + 1..] == p2;
  }

  /** No registered method or path holds a ':'. */
  lemma RegisteredColonFree(route: Route)
    ensures ':' !in Registered(route).0 && ':' !in Registered(route).1
  {
  }

  /** Two routes never share a key. */
  lemma KeyInjective(r1: Route, r2: Route)
    ensures KeyOf(r1) == KeyOf(r2) ==> r1 == r2
  {
    if KeyOf(r1) == KeyOf(r2) {
      RegisteredColonFree(r1);
      SplitAtColon(Registered(r1).0, Registered(r1).1, Registered(r2).0, Registered(r2).1);
    }
  }

  /** Ten distinct keys: every route is stored under the key of its own
      (method, path) pair, and nothing else is stored. */
  lemma TableRegistersEachRoute()
    ensures forall route :: KeyOf(route) in RouteTable() && RouteTable()[KeyOf(route)] == route
    ensures forall k :: k in RouteTable() ==> KeyOf(RouteTable()[k]) == k
  {
    forall r1, r2
      ensures KeyOf(r1) == KeyOf(r2) ==> r1 == r2
    {
      KeyInjective(r1, r2);
    }
    forall k | k in RouteTable()
      ensures KeyOf(RouteTable()[k]) == k
    {
      var route :| KeyOf(route) == k;
    }
  }

  /** Lookup is exact: `<method>:<path>` is in the table exactly when
      (method, path) is a registered pair, and the route it finds is the one
      registered for that pair. */
  lemma LookupIsExact(m: string, p: string)
    ensures RouteKey(m, p) in RouteTable() <==> exists route :: Registered(route) == (m, p)
    ensures RouteKey(m, p) in RouteTable() ==> Registered(RouteTable()[RouteKey(m, p)]) == (m, p)
  {
    TableRegistersEachRoute();
    var k := RouteKey(m, p);
    if k in RouteTable() {
      var route := RouteTable()[k];
      RegisteredColonFree(route);
      SplitAtColon(Registered(route).0, Registered(route).1, m, p);
    }
  }

  /** Only health and workspace info answer GET; every other route answers POST. */
  lemma MethodsOfRoutes(route: Route)
    ensures Registered(route).0 == "GET" <==> route == HealthRoute || route == WorkspaceInfoRoute
    ensures Registered(route).0 == "GET" || Registered(route).0 == "POST"
  {
  }

  /** A route handler throws where the shared body failed: a capability
      error becomes `new Error(result.error)`, with the message verbatim. */
  function Complete(t: Traced<Step>): (r: Traced<Completion<Value>>)
    ensures r.calls == t.calls
    ensures r.result.Normal? <==> t.result.Done?
    ensures t.result.Done? ==> r.result.value == t.result.value
    ensures t.result.Reported? ==> r.result.message == t.result.error
    ensures t.result.Raised? ==> r.result.message == t.result.message
  {
    match t.result
    case Done(v) => Traced(Normal(v), t.calls)
    case Reported(e) => Traced(Throw(e), t.calls)
    case Raised(m) => Traced(Throw(m), t.calls)
  }

  function HealthValue(repl: Repl, now: string): Value
  {
    Obj(map["version" := Str("1.0.0"), "status" := Str("running"), "workspace" := repl.title,
            "timestamp" := Str(now)])
  }

  /** The handler stored under each route, applied to the request body. The
      health route makes one `currentRepl` call, throws exactly when it does,
      and otherwise reports the repl's title with the host's time; every other
      route throws exactly when its shared body did not finish. */
  function RunRoute(route: Route, host: Host, body: Value): (r: Traced<Completion<Value>>)
    ensures route == HealthRoute ==>
      && r.calls == [DataCurrentRepl]
      && (r.result.Throw? <==> host.currentRepl.Throw?)
      && (r.result.Throw? ==> r.result.message == host.currentRepl.message)
      && (r.result.Normal? ==>
            && Prop(r.result.value, "workspace") == Normal(host.currentRepl.value.title)
            && Prop(r.result.value, "timestamp") == Normal(Str(host.now))
            && Prop(r.result.value, "version") == Normal(Str("1.0.0"))
            && Prop(r.result.value, "status") == Normal(Str("running")))
  {
    match route
    case HealthRoute =>
      (match host.currentRepl
       case Throw(m) => Traced(Throw(m), [DataCurrentRepl])
       case Normal(repl) => Traced(Normal(HealthValue(repl, host.now)), [DataCurrentRepl]))
    case WorkspaceInfoRoute => Complete(WorkspaceInfo(host))
    case ReadRoute => Complete(ReadFile(host, body))
    case WriteRoute => Complete(WriteFile(host, body))
    case ListRoute => Complete(ListFiles(host, body))
    case CreateDirRoute => Complete(CreateDirectory(host, body))
    case DeleteRoute => Complete(Delete(host, body))
    case MoveRoute => Complete(Transfer(host, body, false))
    case CopyRoute => Complete(Transfer(host, body, true))
    case ExecRoute => Complete(ExecuteCommand(host, body))
  }

  /** The key a request looks up: `${method}:${path}`. */
  function RequestKey(request: Value): string
    requires Destructurable(request)
  {
    RouteKey(ToStr(Field(request, "method", Undefined)), ToStr(Field(request, "path", Undefined)))
  }

  function NotFound(request: Value): string
    requires Destructurable(request)
  {
    "Route not found: " + ToStr(Field(request, "method", Undefined)) + " "
    + ToStr(Field(request, "path", Undefined))
  }

  /** The envelope the bridge sends as `data` for a handled request. */
  function EnvelopeOf(c: Completion<Value>): Value
  {
    match c
    case Normal(v) => Obj(map["success" := Bool(true), "data" := v])
    case Throw(m) => Obj(map["success" := Bool(false), "error" := Str(m)])
  }

  /** The reply the listener posts for a handled request. */
  function ResponseMessage(id: Value, c: Completion<Value>): Value
  {
    Obj(map[
      "type" := Str("HTTP_RESPONSE"),
      "id" := id,
      "status" := Num(if c.Normal? then 200 else 500),
      "data" := EnvelopeOf(c)])
  }

  class Bridge {
    var routes: map<string, Route>

    /** The constructor's `setupRoutes()`: ten `set` calls on a new, empty table. */
    constructor ()
      ensures routes == RouteTable()
    {
      var table: map<string, Route> := map[];
      table := table[RouteKey("GET", "/health") := HealthRoute];
      table := table[RouteKey("GET", "/api/workspace/info") := WorkspaceInfoRoute];
      table := table[RouteKey("POST", "/api/fs/read") := ReadRoute];
      table := table[RouteKey("POST", "/api/fs/write") := WriteRoute];
      table := table[RouteKey("POST", "/api/fs/list") := ListRoute];
      table := table[RouteKey("POST", "/api/fs/create-dir") := CreateDirRoute];
      table := table[RouteKey("POST", "/api/fs/delete") := DeleteRoute];
      table := table[RouteKey("POST", "/api/fs/move") := MoveRoute];
      table := table[RouteKey("POST", "/api/fs/copy") := CopyRoute];
      table := table[RouteKey("POST", "/api/exec/command") := ExecRoute];
      routes := table;
    }

    /** `handleRequest`: an absent key throws `Route not found: <method>
        <path>` without calling anything; a present key runs exactly the
        handler stored under it, on the request's `body`. */
    function HandleRequest(host: Host, request: Value): (r: Traced<Completion<Value>>)
      reads this
      ensures !Destructurable(request) ==> r == Traced(Throw(TypeErrorText(request, "method")), [])
      ensures Destructurable(request) && RequestKey(request) !in routes ==>
        r == Traced(Throw(NotFound(request)), [])
      ensures Destructurable(request) && RequestKey(request) in routes ==>
        r == RunRoute(routes[RequestKey(request)], host, Field(request, "body", Undefined))
    {
      if !Destructurable(request) then Traced(Throw(TypeErrorText(request, "method")), [])
      else
        var key := RequestKey(request);
        if key !in routes then Traced(Throw(NotFound(request)), [])
        else RunRoute(routes[key], host, Field(request, "body", Undefined))
    }

    /** The listener of `setupMessageInterceptor`: only `HTTP_REQUEST`
        messages are answered; the reply has the request's id, status 200
        with `{ success: true, data }` when the handler returned and status
        500 with `{ success: false, error }` when it threw. */
    function OnMessage(host: Host, message: Value): (r: Traced<Option<Value>>)
      reads this
      ensures Prop(message, "type") != Normal(Str("HTTP_REQUEST")) ==> r == Traced(None, [])
      ensures Prop(message, "type") == Normal(Str("HTTP_REQUEST")) ==>
        var h := HandleRequest(host, message);
        && r.result.Some?
        && r.calls == h.calls
        && var reply := r.result.value;
        && Prop(reply, "type") == Normal(Str("HTTP_RESPONSE"))
        && Prop(reply, "id") == Prop(message, "id")
        && (Prop(reply, "status") == Normal(Num(200)) <==> h.result.Normal?)
        && (Prop(reply, "status") == Normal(Num(500)) <==> h.result.Throw?)
        && (h.result.Normal? ==>
              Prop(reply, "data") == Normal(Obj(map["success" := Bool(true), "data" := h.result.value])))
        && (h.result.Throw? ==>
              Prop(reply, "data") == Normal(Obj(map["success" := Bool(false), "error" := Str(h.result.message)])))
    {
      if Prop(message, "type") != Normal(Str("HTTP_REQUEST")) then Traced(None, [])
      else
        var h := HandleRequest(host, message);
        Traced(Some(ResponseMessage(Prop(message, "id").value, h.result)), h.calls)
    }
  }
}
