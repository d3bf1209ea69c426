/** The older dispatcher of the background script: it switches on the
    request's endpoint alone, each handler builds its own
    `{ success, data | error }` envelope, and the message listener answers
    `MCP_REQUEST` messages with `MCP_RESPONSE` or `MCP_ERROR`. */
module Background {
  import opened Js
  import opened Capabilities
  import opened Handlers

  datatype Envelope = Success(data: Value) | Failure(error: string)

  function EnvelopeValue(e: Envelope): Value
  {
    match e
    case Success(d) => Obj(map["success" := Bool(true), "data" := d])
    case Failure(err) => Obj(map["success" := Bool(false), "error" := Str(err)])
  }

  /** The try/catch around each handler body: its result as success data, a
      capability-reported error verbatim, and anything thrown as
      `<prefix>: <message>`. Nothing escapes. */
  function Guard(t: Traced<Step>, prefix: string): (r: Traced<Envelope>)
    ensures r.calls == t.calls
    ensures r.result.Success? <==> t.result.Done?
    ensures t.result.Done? ==> r.result.data == t.result.value
    ensures t.result.Reported? ==> r.result.error == t.result.error
    ensures t.result.Raised? ==> r.result.error == prefix + ": " + t.result.message
  {
    match t.result
    case Done(v) => Traced(Success(v), t.calls)
    case Reported(e) => Traced(Failure(e), t.calls)
    case Raised(m) => Traced(Failure(prefix + ": " + m), t.calls)
  }

  /** The endpoints whose handler catches, with the prefix of its catch clause. */
  const CatchPrefix: map<string, string> := map[
    "/api/workspace/info" := "Failed to get workspace info",
    "/api/fs/read" := "Failed to read file",
    "/api/fs/write" := "Failed to write file",
    "/api/fs/list" := "Failed to list files",
    "/api/fs/create-dir" := "Failed to create directory",
    "/api/fs/delete" := "Failed to delete",
    "/api/fs/move" := "Failed to move",
    "/api/fs/copy" := "Failed to copy",
    "/api/exec/command" := "Failed to execute command"]

  /** The handler body behind a catching endpoint. */
  function Body(endpoint: string, host: Host, data: Value): Traced<Step>
    requires endpoint in CatchPrefix
  {
    if endpoint == "/api/workspace/info" then WorkspaceInfo(host)
    else if endpoint == "/api/fs/read" then ReadFile(host, data)
    else if endpoint == "/api/fs/write" then WriteFile(host, data)
    else if endpoint == "/api/fs/list" then ListFiles(host, data)
    else if endpoint == "/api/fs/create-dir" then CreateDirectory(host, data)
    else if endpoint == "/api/fs/delete" then Delete(host, data)
    else if endpoint == "/api/fs/move" then Transfer(host, data, false)
    else if endpoint == "/api/fs/copy" then Transfer(host, data, true)
    else ExecuteCommand(host, data)
  }

  function HealthValue(repl: Repl): Value
  {
    Obj(map["version" := Str("1.0.0"), "status" := Str("running"), "workspace" := repl.title])
  }

  /** The health handler has no catch: a failing `currentRepl()` throws out of it. */
  function HandleHealth(host: Host): (r: Traced<Completion<Envelope>>)
    ensures r.calls == [DataCurrentRepl]
    ensures r.result.Throw? <==> host.currentRepl.Throw?
    ensures r.result.Throw? ==> r.result.message == host.currentRepl.message
    ensures r.result.Normal? ==> r.result.value == Success(HealthValue(host.currentRepl.value))
  {
    match host.currentRepl
    case Throw(m) => Traced(Throw(m), [DataCurrentRepl])
    case Normal(repl) => Traced(Normal(Success(HealthValue(repl))), [DataCurrentRepl])
  }

  /** The endpoint a request names; `method` is destructured beside it but never read. */
  function Endpoint(request: Value): Value
    requires Destructurable(request)
  {
    Field(request, "endpoint", Undefined)
  }

  predicate Known(request: Value)
  {
    Destructurable(request) &&
    var e := Endpoint(request);
    e == Str("/health") || (e.Str? && e.s in CatchPrefix)
  }

  /** `handleMCPRequest`: the switch on `endpoint`. An unknown endpoint
      throws `Unknown endpoint: <endpoint>`; of the known ones only the
      health check can throw, and only when `currentRepl()` does. */
  function HandleMcpRequest(host: Host, request: Value): (r: Traced<Completion<Value>>)
    ensures !Destructurable(request) ==> r == Traced(Throw(TypeErrorText(request, "method")), [])
    ensures Destructurable(request) && !Known(request) ==>
      r == Traced(Throw("Unknown endpoint: " + ToStr(Endpoint(request))), [])
    ensures r.result.Throw? <==>
      !Known(request) || (Endpoint(request) == Str("/health") && host.currentRepl.Throw?)
    ensures Destructurable(request) && Endpoint(request) == Str("/health") ==>
      && r.calls == [DataCurrentRepl]
      && (host.currentRepl.Throw? ==> r.result == Throw(host.currentRepl.message))
      && (host.currentRepl.Normal? ==>
            r.result == Normal(EnvelopeValue(Success(HealthValue(host.currentRepl.value)))))
    ensures Known(request) && Endpoint(request) != Str("/health") ==>
      var e := Endpoint(request).s;
      var g := Guard(Body(e, host, Field(request, "data", Undefined)), CatchPrefix[e]);
      r.result == Normal(EnvelopeValue(g.result)) && r.calls == g.calls
  {
    if !Destructurable(request) then Traced(Throw(TypeErrorText(request, "method")), [])
    else
      var endpoint := Endpoint(request);
      var data := Field(request, "data", Undefined);
      if endpoint == Str("/health") then
        var h := HandleHealth(host);
        match h.result
        case Throw(m) => Traced(Throw(m), h.calls)
        case Normal(env) => Traced(Normal(EnvelopeValue(env)), h.calls)
      else if endpoint.Str? && endpoint.s in CatchPrefix then
        var g := Guard(Body(endpoint.s, host, data), CatchPrefix[endpoint.s]);
        Traced(Normal(EnvelopeValue(g.result)), g.calls)
      else
        Traced(Throw("Unknown endpoint: " + ToStr(endpoint)), [])
  }

  /** Two requests that differ only in `method` are handled identically. */
  lemma DispatchIgnoresMethod(host: Host, props: map<string, Value>, m1: Value, m2: Value)
    ensures HandleMcpRequest(host, Obj(props["method" := m1])) == HandleMcpRequest(host, Obj(props["method" := m2]))
  {
  }

  /** The message listener: only `MCP_REQUEST` messages are answered, and the
      reply carries the request's id — `MCP_RESPONSE` with the handler's
      result, or `MCP_ERROR` with the message of what it threw. */
  function OnMessage(host: Host, message: Value): (r: Traced<Option<Value>>)
    ensures Prop(message, "type") != Normal(Str("MCP_REQUEST")) ==> r == Traced(None, [])
    ensures Prop(message, "type") == Normal(Str("MCP_REQUEST")) ==>
      var h := HandleMcpRequest(host, message);
      && r.result.Some?
      && r.calls == h.calls
      && Prop(r.result.value, "id") == Prop(message, "id")
      && (h.result.Normal? ==>
            && Prop(r.result.value, "type") == Normal(Str("MCP_RESPONSE"))
            && Prop(r.result.value, "data") == Normal(h.result.value))
      && (h.result.Throw? ==>
            && Prop(r.result.value, "type") == Normal(Str("MCP_ERROR"))
            && Prop(r.result.value, "error") == Normal(Str(h.result.message)))
  {
    if Prop(message, "type") != Normal(Str("MCP_REQUEST")) then Traced(None, [])
    else
      var id := Prop(message, "id").value;
      var h := HandleMcpRequest(host, message);
      match h.result
      case Normal(v) =>
        Traced(Some(Obj(map["type" := Str("MCP_RESPONSE"), "id" := id, "data" := v])), h.calls)
      case Throw(m) =>
        Traced(Some(Obj(map["type" := Str("MCP_ERROR"), "id" := id, "error" := Str(m)])), h.calls)
  }
}
