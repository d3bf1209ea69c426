/** The page-side `fetch` replacement: a request to the bridge's origin is
    turned into an `HTTP_REQUEST` message, and the promise it returns settles
    exactly once, with the `HTTP_RESPONSE` carrying the same id or with
    `Request timeout` after ten seconds. Any other request goes to the
    original `fetch`. */
module FetchShim {
  import opened Js

  const Origin: string := "http://localhost:3002"
  const TimeoutMs: int := 10000
  const TimeoutMessage: string := "Request timeout"
  const JsonType: string := "application/json"

  /** The platform functions the shim calls. `parseJson` is `JSON.parse`
      (None when it throws), `stringify` is `JSON.stringify` of a value that
      is not undefined, `pathname` is `new URL(url).pathname` (or the error
      the constructor throws), and `statusNumber` is ECMAScript `ToNumber`
      of a status given as a string, array or object. */
  datatype Platform = Platform(
    parseJson: string -> Option<Value>,
    stringify: Value -> string,
    pathname: string -> Completion<string>,
    statusNumber: Value -> int)

  /** `typeof url === 'string' && url.startsWith(Origin)`. */
  predicate Intercepts(url: Value)
  {
    url.Str? && Origin <= url.s
  }

  /** The prefix test is a plain string prefix: it also captures other ports
      whose number starts with 3002, and it skips non-string URLs even when
      they denote the origin. */
  lemma PrefixTestScope(rest: string)
    ensures Intercepts(Str(Origin + rest))
    ensures Intercepts(Str("http://localhost:30021" + rest))
    ensures !Intercepts(Str("http://127.0.0.1:3002" + rest))
    ensures !Intercepts(Obj(map["href" := Str(Origin + rest)]))
  {
    var u := "http://localhost:30021" + rest;
    assert u[..|Origin|] == Origin;
    var v := "http://127.0.0.1:3002" + rest;
    assert v[7] != Origin[7];
  }

  /** The body sent along: null when `options.body` is falsy, a string body
      parsed as JSON when it parses and kept raw when it does not, any other
      body as it is. */
  function RequestBody(p: Platform, body: Value): (r: Value)
    ensures !Truthy(body) ==> r == Null
    ensures Truthy(body) && !body.Str? ==> r == body
    ensures body.Str? && body.s != "" && p.parseJson(body.s).None? ==> r == body
    ensures body.Str? && body.s != "" && p.parseJson(body.s).Some? ==> r == p.parseJson(body.s).value
  {
    if !Truthy(body) then Null
    else if body.Str? then
      match p.parseJson(body.s)
      case Some(v) => v
      case None => body
    else body
  }

  /** What the shim forwards of an intercepted request. */
  datatype Request = Request(verb: Value, path: string, body: Value)

  /** Everything that runs before the promise is created: `options` defaults
      to `{}` only when undefined, the URL is parsed first, `options.method`
      throws on null, and the method defaults to GET when falsy. */
  function ExtractRequest(p: Platform, url: string, options: Value): (r: Completion<Request>)
    ensures p.pathname(url).Throw? ==> r == Throw(p.pathname(url).message)
    ensures p.pathname(url).Normal? && options.Null? ==> r == Throw(TypeErrorText(Null, "method"))
    ensures r.Normal? <==> p.pathname(url).Normal? && !options.Null?
    ensures r.Normal? ==> r.value.path == p.pathname(url).value
    ensures r.Normal? && options.Undefined? ==> r.value == Request(Str("GET"), r.value.path, Null)
    ensures r.Normal? && Destructurable(options) ==>
      var m := Prop(options, "method").value;
      && r.value.verb == (if Truthy(m) then m else Str("GET"))
      && r.value.body == RequestBody(p, Prop(options, "body").value)
  {
    var opts := if options.Undefined? then Obj(map[]) else options;
    match p.pathname(url)
    case Throw(e) => Throw(e)
    case Normal(path) =>
      match Prop(opts, "method")
      case Throw(e) => Throw(e)
      case Normal(m) =>
        var verb := if Truthy(m) then m else Str("GET");
        Normal(Request(verb, path, RequestBody(p, Prop(opts, "body").value)))
  }

  /** The message posted to the bridge. */
  function RequestMessage(id: int, req: Request): Value
  {
    Obj(map[
      "type" := Str("HTTP_REQUEST"),
      "id" := Num(id),
      "method" := req.verb,
      "path" := Str(req.path),
      "body" := req.body])
  }

  /** The `Response` a settled call resolves with. `body` is None when the
      message carried no `data` (`JSON.stringify(undefined)` is undefined). */
  datatype Response = Response(status: int, statusText: string, contentType: string, body: Option<string>)

  /** The WebIDL `unsigned short` conversion of the `status` init member:
      undefined takes the default 200, other values go through `ToNumber`
      and wrap modulo 2^16. */
  function StatusNumber(p: Platform, status: Value): (n: int)
    ensures 0 <= n < 0x1_0000
    ensures status.Undefined? ==> n == 200
    ensures status.Num? && 0 <= status.n < 0x1_0000 ==> n == status.n
  {
    match status
    case Undefined => 200
    case Null => 0
    case Bool(b) => if b then 1 else 0
    case Num(x) => x % 0x1_0000
    case _ => p.statusNumber(status) % 0x1_0000
  }

  /** Statuses the Fetch standard forbids a body for, within 200..599. */
  predicate NullBodyStatus(n: int)
  {
    n == 204 || n == 205 || n == 304
  }

  /** `new Response(JSON.stringify(data.data), { status, statusText, headers })`:
      None when the constructor throws — a status outside 200..599, or a
      body given with a null-body status. statusText is OK exactly when the
      raw status is the number 200. */
  function BuildResponse(p: Platform, data: Value): (r: Option<Response>)
    requires Destructurable(data)
    ensures var n := StatusNumber(p, Prop(data, "status").value);
      var d := Prop(data, "data").value;
      && (r.Some? <==> 200 <= n <= 599 && !(NullBodyStatus(n) && !d.Undefined?))
      && (r.Some? ==>
            && r.value.status == n
            && (r.value.statusText == "OK" <==> Prop(data, "status") == Normal(Num(200)))
            && (!(r.value.statusText == "OK") ==> r.value.statusText == "Error")
            && r.value.contentType == JsonType
            && r.value.body == (if d.Undefined? then None else Some(p.stringify(d))))
  {
    var status := Prop(data, "status").value;
    var d := Prop(data, "data").value;
    var body := if d.Undefined? then None else Some(p.stringify(d));
    var n := StatusNumber(p, status);
    if n < 200 || n > 599 then None
    else if NullBodyStatus(n) && body.Some? then None
    else Some(Response(n, if status == Num(200) then "OK" else "Error", JsonType, body))
  }

  /** The two statuses the bridge sends always build a response. */
  lemma BridgeStatusesBuild(p: Platform, data: Value)
    requires Destructurable(data)
    requires Prop(data, "status") == Normal(Num(200)) || Prop(data, "status") == Normal(Num(500))
    ensures BuildResponse(p, data).Some?
    ensures BuildResponse(p, data).value.status == Prop(data, "status").value.n
    ensures BuildResponse(p, data).value.statusText == (if Prop(data, "status").value.n == 200 then "OK" else "Error")
  {
  }

  /** Statuses that make `new Response` throw: null (which converts to 0), a
      number whose 16-bit wrap lies outside 200..599, or a number whose wrap is
      a null-body status when a body is given. */
  lemma InvalidStatusesFail(p: Platform, data: Value, k: int)
    requires Destructurable(data)
    requires Prop(data, "status") == Normal(Null)
      || (Prop(data, "status") == Normal(Num(k))
          && (var n := k % 0x1_0000;
              n < 200 || 599 < n || (NullBodyStatus(n) && !Prop(data, "data").value.Undefined?)))
    ensures BuildResponse(p, data).None?
  {
  }

  /** The range test applies after the 16-bit wrap: 65736 and -65336 both
      wrap to 200 and build a response, with statusText Error since the raw
      status is not the number 200. */
  lemma WrappedStatusBuilds(p: Platform, data: Value)
    requires Destructurable(data)
    requires Prop(data, "status") == Normal(Num(65736)) || Prop(data, "status") == Normal(Num(-65336))
    ensures BuildResponse(p, data).Some?
    ensures BuildResponse(p, data).value.status == 200
    ensures BuildResponse(p, data).value.statusText == "Error"
  {
    assert 65736 % 0x1_0000 == 200;
    assert -65336 % 0x1_0000 == 200;
  }

  /** `event.data.type === 'HTTP_RESPONSE' && event.data.id === id`. A
      message without properties makes the listener throw, which answers
      nothing either. */
  predicate Answers(data: Value, id: int)
  {
    Prop(data, "type") == Normal(Str("HTTP_RESPONSE")) && Prop(data, "id") == Normal(Num(id))
  }

  /** The state of one `fetch` promise. */
  datatype Outcome = Pending | Resolved(response: Response) | Rejected(message: string)

  /** One intercepted call: the id it posted, its promise, and when its timer fires. */
  datatype Call = Call(id: int, outcome: Outcome, deadline: int)

  /** Everything the shim has made happen: the intercepted calls by handle
      (their index), the handles whose message listener is still attached,
      the handles whose timer has not fired, the messages posted, and the
      requests handed to the original `fetch`. */
  datatype ShimState = ShimState(
    calls: seq<Call>,
    listening: set<nat>,
    armed: set<nat>,
    posted: seq<Value>,
    forwarded: seq<(Value, Value)>)

  const Initial: ShimState := ShimState([], {}, {}, [], [])

  /** A listener is attached only while its promise is pending, and a
      pending promise always still has its timer to come. */
  ghost predicate Inv(s: ShimState)
  {
    && (forall c :: c in s.listening ==> c < |s.calls| && s.calls[c].outcome.Pending?)
    && (forall c :: c in s.armed ==> c < |s.calls|)
    && (forall c :: 0 <= c < |s.calls| && s.calls[c].outcome.Pending? ==> c in s.armed)
  }

  ghost predicate DistinctIds(s: ShimState)
  {
    forall i, j :: 0 <= i < j < |s.calls| ==> s.calls[i].id != s.calls[j].id
  }

  /** How a `fetch` call ends synchronously. */
  datatype FetchResult = PassedThrough | Failed(message: string) | Started(handle: nat)

  /** One call of the replaced `fetch` with a fresh number `id` and the
      current time `now`. An intercepted request attaches its listener,
      posts its message and arms its timer; a request that fails before
      that rejects and leaves no trace. */
  function FetchStep(p: Platform, s: ShimState, url: Value, options: Value, id: int, now: int): (r: (ShimState, FetchResult))
    ensures !Intercepts(url) ==>
      r == (s.(forwarded := s.forwarded + [(url, options)]), PassedThrough)
    ensures Intercepts(url) && ExtractRequest(p, url.s, options).Throw? ==>
      r == (s, Failed(ExtractRequest(p, url.s, options).message))
    ensures r.1.Started? <==> Intercepts(url) && ExtractRequest(p, url.s, options).Normal?
    ensures r.1.Started? ==>
      var c := |s.calls|;
      && r.1.handle == c
      && r.0 == ShimState(
           s.calls + [Call(id, Pending, now + TimeoutMs)],
           s.listening + {c},
           s.armed + {c},
           s.posted + [RequestMessage(id, ExtractRequest(p, url.s, options).value)],
           s.forwarded)
  {
    if !Intercepts(url) then (s.(forwarded := s.forwarded + [(url, options)]), PassedThrough)
    else
      match ExtractRequest(p, url.s, options)
      case Throw(e) => (s, Failed(e))
      case Normal(req) =>
        var c := |s.calls|;
        (ShimState(s.calls + [Call(id, Pending, now + TimeoutMs)], s.listening + {c}, s.armed + {c},
                   s.posted + [RequestMessage(id, req)], s.forwarded),
         Started(c))
  }

  /** The listeners a message reaches and that act on it. */
  function Hit(s: ShimState, data: Value): set<nat>
  {
    set c | c in s.listening && c < |s.calls| && Answers(data, s.calls[c].id)
  }

  /** What an acting listener does to its own call: remove itself, then
      resolve — unless `new Response` throws, which leaves the promise
      pending. */
  function Settle(p: Platform, call: Call, data: Value): Call
    requires Destructurable(data)
  {
    match BuildResponse(p, data)
    case Some(resp) => if call.outcome.Pending? then call.(outcome := Resolved(resp)) else call
    case None => call
  }

  /** A message delivered to the window: every listener that it answers
      detaches and settles its own call; every other call is unchanged. */
  function Deliver(p: Platform, s: ShimState, data: Value): (r: ShimState)
    ensures |r.calls| == |s.calls|
    ensures r.listening == s.listening - Hit(s, data)
    ensures r.armed == s.armed && r.posted == s.posted && r.forwarded == s.forwarded
    ensures forall c :: 0 <= c < |s.calls| ==>
      r.calls[c] == if c in Hit(s, data) then Settle(p, s.calls[c], data) else s.calls[c]
  {
    var hit := Hit(s, data);
    ShimState(
      seq(|s.calls|, c requires 0 <= c < |s.calls| => if c in hit then Settle(p, s.calls[c], data) else s.calls[c]),
      s.listening - hit, s.armed, s.posted, s.forwarded)
  }

  /** A call's timer fires: the listener is removed and the promise rejects
      with `Request timeout`, which is a no-op for a promise already
      settled. The timer is never cleared, so it fires for every call. */
  function Expire(s: ShimState, c: nat): (r: ShimState)
    ensures c !in s.armed ==> r == s
    ensures c in s.armed && c < |s.calls| ==>
      && r.listening == s.listening - {c}
      && r.armed == s.armed - {c}
      && r.posted == s.posted && r.forwarded == s.forwarded
      && r.calls == s.calls[c := if s.calls[c].outcome.Pending?
                                 then s.calls[c].(outcome := Rejected(TimeoutMessage))
                                 else s.calls[c]]
  {
    if c !in s.armed || c >= |s.calls| then s
    else
      var call := s.calls[c];
      var settled := if call.outcome.Pending? then call.(outcome := Rejected(TimeoutMessage)) else call;
      ShimState(s.calls[c := settled], s.listening - {c}, s.armed - {c}, s.posted, s.forwarded)
  }

  // ---------------------------------------------------------------------
  // Properties of the state machine

  lemma InitialInv()
    ensures Inv(Initial) && DistinctIds(Initial)
  {
  }

  lemma FetchKeepsInv(p: Platform, s: ShimState, url: Value, options: Value, id: int, now: int)
    requires Inv(s)
    ensures Inv(FetchStep(p, s, url, options, id, now).0)
  {
  }

  /** A fresh id keeps the ids of the calls distinct. */
  lemma FetchKeepsDistinctIds(p: Platform, s: ShimState, url: Value, options: Value, id: int, now: int)
    requires DistinctIds(s)
    requires forall c :: 0 <= c < |s.calls| ==> s.calls[c].id != id
    ensures DistinctIds(FetchStep(p, s, url, options, id, now).0)
  {
  }

  lemma DeliverKeepsInv(p: Platform, s: ShimState, data: Value)
    requires Inv(s)
    ensures Inv(Deliver(p, s, data))
  {
  }

  lemma ExpireKeepsInv(s: ShimState, c: nat)
    requires Inv(s)
    ensures Inv(Expire(s, c))
  {
  }

  lemma DeliverKeepsDistinctIds(p: Platform, s: ShimState, data: Value)
    requires DistinctIds(s)
    ensures DistinctIds(Deliver(p, s, data))
  {
  }

  lemma ExpireKeepsDistinctIds(s: ShimState, c: nat)
    requires DistinctIds(s)
    ensures DistinctIds(Expire(s, c))
  {
  }

  /** Settling happens once: a call whose promise has settled keeps its
      outcome through every later message and timer. */
  lemma SettledStaysSettled(p: Platform, s: ShimState, c: nat, data: Value, t: nat)
    requires Inv(s) && c < |s.calls| && !s.calls[c].outcome.Pending?
    ensures Deliver(p, s, data).calls[c] == s.calls[c]
    ensures Expire(s, c).calls[c] == s.calls[c]
    ensures Expire(s, t).calls[c] == s.calls[c]
  {
  }

  /** Correlation: with distinct ids, a response carrying a call's id
      settles that call and no other, with the response it describes. */
  lemma ResponseReachesOnlyItsCall(p: Platform, s: ShimState, c: nat, data: Value)
    requires Inv(s) && DistinctIds(s)
    requires c in s.listening && Answers(data, s.calls[c].id)
    ensures var r := Deliver(p, s, data);
      && c !in r.listening
      && Destructurable(data)
      && (BuildResponse(p, data).Some? ==> r.calls[c].outcome == Resolved(BuildResponse(p, data).value))
      && (BuildResponse(p, data).None? ==> r.calls[c].outcome.Pending?)
      && (forall d :: 0 <= d < |s.calls| && d != c ==> r.calls[d] == s.calls[d])
      && r.listening == s.listening - {c}
  {
  }

  /** Without distinct ids correlation fails: two listening calls that
      posted the same id are both settled by the first response carrying it,
      so one caller receives the other call's reply. */
  lemma CollidingIdsShareAResponse(p: Platform, s: ShimState, c1: nat, c2: nat, data: Value)
    requires Inv(s) && c1 in s.listening && c2 in s.listening && c1 != c2
    requires s.calls[c1].id == s.calls[c2].id
    requires Answers(data, s.calls[c1].id) && BuildResponse(p, data).Some?
    ensures var r := Deliver(p, s, data);
      && r.calls[c1].outcome == Resolved(BuildResponse(p, data).value)
      && r.calls[c2].outcome == Resolved(BuildResponse(p, data).value)
      && c1 !in r.listening && c2 !in r.listening
  {
  }

  /** A message that no listening call's id matches changes nothing: in
      particular a response that arrives after its call timed out. */
  lemma UnansweredMessageIsIgnored(p: Platform, s: ShimState, data: Value)
    requires forall c :: c in s.listening && c < |s.calls| ==> !Answers(data, s.calls[c].id)
    ensures Deliver(p, s, data) == s
  {
  }

  /** After its timer a call is settled, and no later message can reach it. */
  lemma TimeoutSettles(p: Platform, s: ShimState, c: nat, data: Value)
    requires Inv(s) && c in s.armed
    ensures var r := Expire(s, c);
      && !r.calls[c].outcome.Pending?
      && (s.calls[c].outcome.Pending? ==> r.calls[c].outcome == Rejected(TimeoutMessage))
      && (!s.calls[c].outcome.Pending? ==> r.calls[c] == s.calls[c])
      && c !in r.listening
      && Deliver(p, r, data).calls[c] == r.calls[c]
  {
  }

  /** Responses to different calls may arrive in either order with the same
      result. */
  lemma DeliveriesCommute(p: Platform, s: ShimState, d1: Value, d2: Value)
    requires Inv(s)
    requires Prop(d1, "id") != Prop(d2, "id")
    ensures Deliver(p, Deliver(p, s, d1), d2) == Deliver(p, Deliver(p, s, d2), d1)
  {
  }

  // ---------------------------------------------------------------------
  // The shim as the page holds it

  /** The window-level state the injected script keeps: its calls, the
      listeners it has attached, its armed timers, what it posted and what
      it passed to the original `fetch`. */
  class Shim {
    const platform: Platform
    var calls: seq<Call>
    var listening: set<nat>
    var armed: set<nat>
    var posted: seq<Value>
    var forwarded: seq<(Value, Value)>

    function State(): ShimState
      reads this
    {
      ShimState(calls, listening, armed, posted, forwarded)
    }

    ghost predicate Valid()
      reads this
    {
      Inv(State())
    }

    /** Injecting the script: nothing intercepted yet. */
    constructor (p: Platform)
      ensures platform == p && State() == Initial && Valid()
    {
      platform := p;
      calls, listening, armed, posted, forwarded := [], {}, {}, [], [];
    }

    /** The replaced `window.fetch`. */
    method Fetch(url: Value, options: Value, id: int, now: int) returns (result: FetchResult)
      requires Valid()
      modifies this
      ensures Valid()
      ensures (State(), result) == FetchStep(platform, old(State()), url, options, id, now)
    {
      ghost var s := State();
      if !Intercepts(url) {
        forwarded := forwarded + [(url, options)];
        return PassedThrough;
      }
      var req := ExtractRequest(platform, url.s, options);
      if req.Throw? {
        return Failed(req.message);
      }
      var c := |calls|;
      calls := calls + [Call(id, Pending, now + TimeoutMs)];
      listening := listening + {c};
      posted := posted + [RequestMessage(id, req.value)];
      armed := armed + {c};
      result := Started(c);
      FetchKeepsInv(platform, s, url, options, id, now);
    }

    /** A `message` event on the window, seen by every attached listener. */
    method OnMessage(data: Value)
      requires Valid()
      modifies this
      ensures Valid()
      ensures State() == Deliver(platform, old(State()), data)
    {
      ghost var s := State();
      var hit := Hit(State(), data);
      var before := calls;
      calls := seq(|before|, c requires 0 <= c < |before| =>
        if c in hit then Settle(platform, before[c], data) else before[c]);
      listening := listening - hit;
      DeliverKeepsInv(platform, s, data);
    }

    /** The timer of call `c` fires. Nothing orders it against messages:
        the event loop may run it before or after any response. */
    method OnTimeout(c: nat)
      requires Valid() && c in armed
      modifies this
      ensures Valid()
      ensures State() == Expire(old(State()), c)
    {
      ghost var s := State();
      listening := listening - {c};
      if calls[c].outcome.Pending? {
        calls := calls[c := calls[c].(outcome := Rejected(TimeoutMessage))];
      }
      armed := armed - {c};
      ExpireKeepsInv(s, c);
    }
  }
}
