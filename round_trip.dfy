/** The layers together: a page `fetch` posts a request, the bridge's
    listener answers it, and the answer settles that call; and the two
    dispatchers run the same handler bodies for the same endpoints. */
module RoundTrip {
  import opened Js
  import opened Capabilities
  import opened Handlers
  import opened HttpBridge
  import opened FetchShim
  import Background

  /** An intercepted `fetch` whose message the bridge answers resolves with
      status 200 and statusText OK when the route handler returned, with
      500 and Error when it threw, and with the stringified envelope as its
      JSON body; no other call is touched. */
  lemma FetchRoundTrip(p: Platform, host: Host, b: Bridge, s: ShimState,
                       url: Value, options: Value, id: int, now: int)
    requires Inv(s) && DistinctIds(s)
    requires forall c :: 0 <= c < |s.calls| ==> s.calls[c].id != id
    requires FetchStep(p, s, url, options, id, now).1.Started?
    ensures var (s1, started) := FetchStep(p, s, url, options, id, now);
      var c := started.handle;
      var message := s1.posted[|s1.posted| - 1];
      var handled := b.HandleRequest(host, message);
      var answer := b.OnMessage(host, message);
      && answer.result.Some?
      && answer.calls == handled.calls
      && Answers(answer.result.value, id)
      && var s2 := Deliver(p, s1, answer.result.value);
      && s2.calls[c].outcome == Resolved(Response(
           if handled.result.Normal? then 200 else 500,
           if handled.result.Normal? then "OK" else "Error",
           JsonType,
           Some(p.stringify(EnvelopeOf(handled.result)))))
      && (forall d :: 0 <= d < |s.calls| ==> s2.calls[d] == s.calls[d])
      && c !in s2.listening && c in s2.armed
  {
    var (s1, started) := FetchStep(p, s, url, options, id, now);
    var c := started.handle;
    var req := ExtractRequest(p, url.s, options).value;
    var message := s1.posted[|s1.posted| - 1];
    assert message == RequestMessage(id, req);
    assert Prop(message, "type") == Normal(Str("HTTP_REQUEST"));
    FetchKeepsInv(p, s, url, options, id, now);
    FetchKeepsDistinctIds(p, s, url, options, id, now);
    var handled := b.HandleRequest(host, message);
    var reply := b.OnMessage(host, message).result.value;
    assert Prop(reply, "id") == Normal(Num(id));
    assert s1.calls[c].id == id;
    BridgeStatusesBuild(p, reply);
    ResponseReachesOnlyItsCall(p, s1, c, reply);
    assert Prop(reply, "data") == Normal(EnvelopeOf(handled.result));
  }

  /** A request the bridge's table holds reaches the handler registered for
      it; any other method and path is answered with `Route not found`. */
  lemma RequestReachesItsRoute(host: Host, b: Bridge, id: int, req: Request, route: Route)
    requires b.routes == RouteTable()
    ensures Registered(route) == (ToStr(req.verb), req.path) ==>
      b.HandleRequest(host, RequestMessage(id, req)) == RunRoute(route, host, req.body)
    ensures (forall r :: Registered(r) != (ToStr(req.verb), req.path)) ==>
      b.HandleRequest(host, RequestMessage(id, req)) ==
        Traced(Throw("Route not found: " + ToStr(req.verb) + " " + req.path), [])
  {
    var message := RequestMessage(id, req);
    assert Field(message, "method", Undefined) == req.verb;
    assert Field(message, "path", Undefined) == Str(req.path);
    assert Field(message, "body", Undefined) == req.body || req.body.Undefined?;
    LookupIsExact(ToStr(req.verb), req.path);
    if Registered(route) == (ToStr(req.verb), req.path) {
      TableRegistersEachRoute();
      KeyInjective(route, RouteTable()[RequestKey(message)]);
    }
  }

  /** The two health handlers make the same call and throw alike; the
      bridge's answer is the background's health data with a `timestamp`
      added. */
  lemma HealthAgrees(host: Host, body: Value)
    ensures var h := Background.HandleHealth(host);
      var r := RunRoute(HealthRoute, host, body);
      && r.calls == h.calls
      && (r.result.Throw? <==> h.result.Throw?)
      && (r.result.Throw? ==> r.result.message == h.result.message)
      && (h.result.Normal? ==>
            r.result.value == Obj(h.result.value.data.props["timestamp" := Str(host.now)]))
  {
  }

  /** The route each background endpoint corresponds to. */
  function RouteOf(endpoint: string): Route
    requires endpoint in Background.CatchPrefix
  {
    if endpoint == "/api/workspace/info" then WorkspaceInfoRoute
    else if endpoint == "/api/fs/read" then ReadRoute
    else if endpoint == "/api/fs/write" then WriteRoute
    else if endpoint == "/api/fs/list" then ListRoute
    else if endpoint == "/api/fs/create-dir" then CreateDirRoute
    else if endpoint == "/api/fs/delete" then DeleteRoute
    else if endpoint == "/api/fs/move" then MoveRoute
    else if endpoint == "/api/fs/copy" then CopyRoute
    else ExecRoute
  }

  /** The two dispatchers agree on every catching endpoint: both run the
      same handler body. The route handler is that body with every failure
      thrown; the background envelope carries a reported error verbatim and a
      thrown one prefixed by the handler name. */
  lemma DispatchersAgree(host: Host, endpoint: string, data: Value)
    requires endpoint in Background.CatchPrefix
    ensures Registered(RouteOf(endpoint)).1 == endpoint
    ensures var t := Background.Body(endpoint, host, data);
      var bg := Background.HandleMcpRequest(host, Obj(map["endpoint" := Str(endpoint), "data" := data]));
      && RunRoute(RouteOf(endpoint), host, data) == Complete(t)
      && bg.calls == t.calls
      && (t.result.Done? ==> bg.result == Normal(Background.EnvelopeValue(Background.Success(t.result.value))))
      && (t.result.Reported? ==> bg.result == Normal(Background.EnvelopeValue(Background.Failure(t.result.error))))
      && (t.result.Raised? ==>
            bg.result == Normal(Background.EnvelopeValue(
              Background.Failure(Background.CatchPrefix[endpoint] + ": " + t.result.message))))
  {
    var request := Obj(map["endpoint" := Str(endpoint), "data" := data]);
    assert Background.Endpoint(request) == Str(endpoint);
    assert Field(request, "data", Undefined) == data;
    assert Background.Known(request);
    assert Background.Body(endpoint, host, data) == match RouteOf(endpoint)
      case WorkspaceInfoRoute => WorkspaceInfo(host)
      case ReadRoute => ReadFile(host, data)
      case WriteRoute => WriteFile(host, data)
      case ListRoute => ListFiles(host, data)
      case CreateDirRoute => CreateDirectory(host, data)
      case DeleteRoute => Delete(host, data)
      case MoveRoute => Transfer(host, data, false)
      case CopyRoute => Transfer(host, data, true)
      case _ => ExecuteCommand(host, data);
  }
}
