/**
 * The capture middleware (`ApiMonitorMiddleware`): skips excluded URLs,
 * snapshots the request, wraps the response's `send` and `json` so that the
 * body is recorded before it is written, and on `finish` hands an error
 * descriptor to `processError` when the final status is monitored.
 */
module Middleware {
  import opened Wrappers
  import opened Strings
  import opened Js
  import opened ErrorModel
  import opened MonitorConfig

  const RedactedMarker: string := "[REDACTED]"

  /** The headers whose truthy values never leave the middleware. */
  const SensitiveHeaders: seq<string> := ["authorization", "cookie", "set-cookie", "x-api-key", "api-key"]

  /** The incoming request as the middleware reads it (`req`). */
  datatype IncomingRequest = IncomingRequest(
    httpMethod: string,
    url: string,
    params: Fields,
    query: Fields,
    body: Value,
    headers: Headers,
    ip: Option<string>)

  /** `excludePaths?.some(path => url.includes(path))`: an absent list excludes nothing. */
  predicate Excluded(excludePaths: Option<seq<string>>, url: string) {
    excludePaths.Some? && exists p :: p in excludePaths.value && Includes(url, p)
  }

  /** A URL is excluded iff some exclude path occurs in it at some position, not only as a prefix. */
  lemma ExcludedIffOccurs(excludePaths: Option<seq<string>>, url: string)
    ensures Excluded(excludePaths, url)
            <==> excludePaths.Some? && exists p, i :: p in excludePaths.value && OccursAt(url, p, i)
  {
    if excludePaths.Some? {
      forall p | p in excludePaths.value {
        IncludesIffOccurs(url, p);
      }
    }
  }

  /**
   * `sanitized` is `headers` with every sensitive header whose value is truthy
   * replaced by the marker, and every other entry as it was.
   */
  ghost predicate RedactionOf(headers: Headers, sanitized: Headers) {
    && sanitized.Keys == headers.Keys
    && (forall k :: k in headers && k in SensitiveHeaders && HeaderTruthy(headers[k])
          ==> sanitized[k] == Single(RedactedMarker))
    && (forall k :: k in headers && !(k in SensitiveHeaders && HeaderTruthy(headers[k]))
          ==> sanitized[k] == headers[k])
  }

  /**
   * `sanitizeHeaders`: copy the headers, then overwrite each truthy sensitive
   * one. The caller's map is a value and is left as it was.
   */
  method SanitizeHeaders(headers: Headers) returns (sanitized: Headers)
    ensures RedactionOf(headers, sanitized)
  {
    sanitized := headers;
    var i := 0;
    while i < |SensitiveHeaders|
      invariant 0 <= i <= |SensitiveHeaders|
      invariant sanitized.Keys == headers.Keys
      invariant forall k :: k in headers && k in SensitiveHeaders[..i] && HeaderTruthy(headers[k])
                  ==> sanitized[k] == Single(RedactedMarker)
      invariant forall k :: k in headers && !(k in SensitiveHeaders[..i] && HeaderTruthy(headers[k]))
                  ==> sanitized[k] == headers[k]
    {
      var header := SensitiveHeaders[i];
      assert SensitiveHeaders[..i + 1] == SensitiveHeaders[..i] + [header];
      if header in sanitized && HeaderTruthy(sanitized[header]) {
        sanitized := sanitized[header := Single(RedactedMarker)];
      }
      i := i + 1;
    }
    assert SensitiveHeaders[..i] == SensitiveHeaders;
  }

  /** `requestData`: what the middleware keeps of the request, under the configured include flags. */
  ghost predicate SnapshotOf(config: ErrorMonitoring, req: IncomingRequest, now: string, snap: RequestDetails) {
    && snap.httpMethod == req.httpMethod
    && snap.url == req.url
    && snap.params == Some(req.params)
    && snap.query == Some(req.query)
    && snap.body == (if config.includeRequestBody then req.body else Undefined)
    && (config.includeHeaders <==> snap.headers.Some?)
    && (snap.headers.Some? ==> RedactionOf(req.headers, snap.headers.value))
    && snap.ip == req.ip
    && snap.timestamp == now
  }

  datatype WriteKind = SendWrite | JsonWrite

  /** A body handed to the original `send` or `json`. */
  datatype Write = Write(kind: WriteKind, body: Value)

  /**
   * The state one `use` call attaches to a response: the `finish` listener
   * together with what its closures share (the config it reads, the request,
   * the snapshot and the `responseBody` variable the wrappers assign).
   */
  datatype Listener = Listener(
    statusCodes: seq<int>,
    includeResponseBody: bool,
    httpMethod: string,
    url: string,
    requestData: RequestDetails,
    responseBody: Value)

  /** The arguments of one `processError(error, requestData, response)` call. */
  datatype ProcessErrorCall = ProcessErrorCall(error: ErrorDetails, request: RequestDetails, response: ResponseDetails)

  /** Every wrapper layer records the body it is given. */
  function Captured(listeners: seq<Listener>, body: Value): (r: seq<Listener>)
    ensures |r| == |listeners|
  {
    seq(|listeners|, i requires 0 <= i < |listeners| => listeners[i].(responseBody := body))
  }

  /** The parse policy: a string body becomes its JSON value when it parses and stays raw otherwise; other bodies pass through. */
  function ParsedBody(body: Value, parseJson: string -> Option<Value>): (r: Value)
    ensures !body.Str? ==> r == body
    ensures body.Str? && parseJson(body.s).None? ==> r == body
    ensures body.Str? && parseJson(body.s).Some? ==> r == parseJson(body.s).value
  {
    if body.Str? then
      match parseJson(body.s)
      case Some(v) => v
      case None => body
    else body
  }

  /**
   * The `finish` handler of one listener: `processError` is called iff the final
   * status is monitored, with a fixed-shape descriptor and the captured body
   * only when response bodies are included.
   */
  function OnFinish(l: Listener, statusCode: int, parseJson: string -> Option<Value>, now: string)
    : (r: Option<ProcessErrorCall>)
    ensures r.Some? <==> statusCode in l.statusCodes
    ensures r.Some? ==>
              && r.value.error.name == "ApiError"
              && r.value.error.message == "HTTP " + IntToString(statusCode) + " - " + l.httpMethod + " " + l.url
              && r.value.error.statusCode == statusCode
              && r.value.error.path == Some(l.url)
              && r.value.error.stack.None?
              && r.value.request == l.requestData
              && r.value.response.statusCode == statusCode
              && r.value.response.body == (if l.includeResponseBody then ParsedBody(l.responseBody, parseJson) else Undefined)
  {
    if statusCode in l.statusCodes then
      var parsedResponseBody := ParsedBody(l.responseBody, parseJson);
      var error := ErrorDetails(
        "HTTP " + IntToString(statusCode) + " - " + l.httpMethod + " " + l.url,
        "ApiError", None, statusCode, Some(l.url), now);
      Some(ProcessErrorCall(
        error, l.requestData,
        ResponseDetails(if l.includeResponseBody then parsedResponseBody else Undefined, statusCode)))
    else None
  }

  /** The `processError` calls the listeners make on `finish`, in registration order. */
  function Invocations(ls: seq<Listener>, statusCode: int, parseJson: string -> Option<Value>, now: string)
    : seq<ProcessErrorCall>
  {
    if ls == [] then []
    else
      var last := OnFinish(ls[|ls| - 1], statusCode, parseJson, now);
      Invocations(ls[..|ls| - 1], statusCode, parseJson, now) + (if last.Some? then [last.value] else [])
  }

  /** Express's `res`, reduced to what the middleware reads and overrides. */
  class Exchange {
    var statusCode: int
    /** Bodies that reached the original `send`/`json`, in order. */
    var written: seq<Write>
    /** The layers installed by `use`, oldest first. */
    var listeners: seq<Listener>

    constructor(statusCode: int)
      ensures this.statusCode == statusCode && written == [] && listeners == []
    {
      this.statusCode := statusCode;
      written := [];
      listeners := [];
    }

    /** `res.send(body)`: each wrapper records the body, then the original sends it unchanged. */
    method Send(body: Value)
      modifies this`written, this`listeners
      ensures written == old(written) + [Write(SendWrite, body)]
      ensures listeners == Captured(old(listeners), body)
    {
      listeners := Captured(listeners, body);
      written := written + [Write(SendWrite, body)];
    }

    /** `res.json(body)`: each wrapper records the body, then the original writes it unchanged. */
    method Json(body: Value)
      modifies this`written, this`listeners
      ensures written == old(written) + [Write(JsonWrite, body)]
      ensures listeners == Captured(old(listeners), body)
    {
      listeners := Captured(listeners, body);
      written := written + [Write(JsonWrite, body)];
    }

    /** `res.statusCode = code`. */
    method SetStatus(code: int)
      modifies this`statusCode
      ensures statusCode == code
    {
      statusCode := code;
    }

    /** The `finish` event: each listener runs once, in the order it was registered. */
    method Finish(parseJson: string -> Option<Value>, now: string) returns (calls: seq<ProcessErrorCall>)
      ensures calls == Invocations(listeners, statusCode, parseJson, now)
    {
      calls := [];
      var i := 0;
      while i < |listeners|
        invariant 0 <= i <= |listeners|
        invariant calls == Invocations(listeners[..i], statusCode, parseJson, now)
      {
        assert listeners[..i + 1][..i] == listeners[..i];
        var call := OnFinish(listeners[i], statusCode, parseJson, now);
        if call.Some? {
          calls := calls + [call.value];
        }
        i := i + 1;
      }
      assert listeners[..i] == listeners;
    }
  }

  /** The `next` callback; `calls` counts its invocations. */
  class Continuation {
    var calls: nat

    constructor()
      ensures calls == 0
    {
      calls := 0;
    }

    method Call()
      modifies this
      ensures calls == old(calls) + 1
    {
      calls := calls + 1;
    }
  }

  class ApiMonitorMiddleware {
    const config: ErrorMonitoring

    constructor(config: ErrorMonitoring)
      ensures this.config == config
    {
      this.config := config;
    }

    /**
     * `use(req, res, next)`: `next` runs exactly once; an excluded URL leaves
     * `res` alone, any other gets one more wrapper layer and `finish` listener
     * holding the request snapshot and an empty captured body.
     */
    method Use(req: IncomingRequest, res: Exchange, next: Continuation, now: string)
      modifies res`listeners, next
      ensures next.calls == old(next.calls) + 1
      ensures Excluded(config.excludePaths, req.url) ==> res.listeners == old(res.listeners)
      ensures !Excluded(config.excludePaths, req.url) ==>
                && |res.listeners| == |old(res.listeners)| + 1
                && res.listeners[..|old(res.listeners)|] == old(res.listeners)
                && var l := res.listeners[|old(res.listeners)|];
                   && l.statusCodes == config.statusCodes
                   && l.includeResponseBody == config.includeResponseBody
                   && l.httpMethod == req.httpMethod
                   && l.url == req.url
                   && l.responseBody == Undefined
                   && SnapshotOf(config, req, now, l.requestData)
    {
      if Excluded(config.excludePaths, req.url) {
        next.Call();
        return;
      }
      var headers: Option<Headers> := None;
      if config.includeHeaders {
        var sanitized := SanitizeHeaders(req.headers);
        headers := Some(sanitized);
      }
      var requestData := RequestDetails(
        req.httpMethod, req.url, Some(req.params), Some(req.query),
        if config.includeRequestBody then req.body else Undefined,
        headers, req.ip, now);
      res.listeners := res.listeners + [Listener(
        config.statusCodes, config.includeResponseBody, req.httpMethod, req.url, requestData, Undefined)];
      next.Call();
    }
  }

  /** A monitored 500: `next` runs once, the body reaches the client unchanged and one call is made. */
  method MonitoredErrorScenario(parseJson: string -> Option<Value>, now: string)
  {
    var config := ErrorMonitoring([500], false, true, true, true, None, None);
    var middleware := new ApiMonitorMiddleware(config);
    var req := IncomingRequest("GET", "/api/users", map[], map[], Obj(map["test" := Bool(true)]),
                               map["content-type" := Single("application/json")], Some("127.0.0.1"));
    var res := new Exchange(200);
    var next := new Continuation();
    middleware.Use(req, res, next, now);
    var body := Obj(map["error" := Str("Test error")]);
    res.Send(body);
    res.SetStatus(500);
    var calls := res.Finish(parseJson, now);
    assert next.calls == 1;
    assert res.written == [Write(SendWrite, body)];
    assert res.listeners[..0] == [];
    assert |calls| == 1;
    assert calls[0].error.name == "ApiError" && calls[0].error.statusCode == 500;
    assert calls[0].request.httpMethod == "GET" && calls[0].request.url == "/api/users";
    assert calls[0].response == ResponseDetails(body, 500);
  }

  /** An excluded URL: `next` runs once and nothing is attached, so `finish` calls nothing. */
  method ExcludedPathScenario(parseJson: string -> Option<Value>, now: string)
  {
    var path := "/health";
    var config := ErrorMonitoring([500], false, false, false, false, Some([path]), None);
    var middleware := new ApiMonitorMiddleware(config);
    var req := IncomingRequest("GET", path + "/status", map[], map[], Undefined, map[], None);
    var res := new Exchange(200);
    var next := new Continuation();
    assert req.url[..|path|] == path;
    assert path in config.excludePaths.value && Includes(req.url, path);
    assert Excluded(config.excludePaths, req.url);
    middleware.Use(req, res, next, now);
    res.SetStatus(500);
    var calls := res.Finish(parseJson, now);
    assert next.calls == 1;
    assert calls == [];
  }
}
