/**
 * The webhook channel (`WebhookService`): the payload it builds from a record
 * and the HTTP call that carries it. The HTTP client is a parameter that says
 * whether the call succeeds.
 */
module Webhook {
  import opened Wrappers
  import opened Strings
  import opened Js
  import opened ErrorModel
  import opened MonitorConfig

  /** `payload.error`. */
  datatype ErrorPart = ErrorPart(
    name: string,
    message: string,
    statusCode: int,
    path: string,
    timestamp: string,
    stack: Option<string>)

  /** `payload.request`; the optional fields are `None` when not added. */
  datatype RequestPart = RequestPart(
    httpMethod: string,
    url: string,
    timestamp: string,
    ip: Option<string>,
    body: Option<Value>,
    headers: Option<Headers>,
    params: Option<Fields>,
    query: Option<Fields>)

  /** `payload.response`. */
  datatype ResponsePart = ResponsePart(statusCode: int, body: Option<Value>)

  datatype WebhookPayload = WebhookPayload(
    error: ErrorPart,
    request: RequestPart,
    metadata: Metadata,
    response: Option<ResponsePart>,
    aiSummary: Option<AiSummary>)

  /** The metadata written when the record has none. */
  function FallbackMetadata(nodeEnv: Option<string>): Metadata {
    [MetaEntry("environment", Str(Or(nodeEnv, "development")))]
  }

  /** `fields && Object.keys(fields).length > 0`. */
  predicate NonEmpty(fields: Option<Fields>) {
    fields.Some? && fields.value != map[]
  }

  /** `payload.error`: the fixed fields copied, the path falling back to the URL, the stack only when included. */
  ghost predicate ErrorPartFor(m: ErrorMonitoring, e: ErrorDetails, url: string, p: ErrorPart) {
    && p.name == e.name
    && p.message == e.message
    && p.statusCode == e.statusCode
    && p.path == Or(e.path, url)
    && p.timestamp == e.timestamp
    && (p.stack.Some? <==> Filled(e.stack) && m.includeStackTrace)
    && (p.stack.Some? ==> p.stack == e.stack)
  }

  /** `payload.request`: the fixed fields copied, each optional field present exactly when its value and flag allow. */
  ghost predicate RequestPartFor(m: ErrorMonitoring, q: RequestDetails, p: RequestPart) {
    && p.httpMethod == q.httpMethod
    && p.url == q.url
    && p.timestamp == q.timestamp
    && (p.ip.Some? <==> Filled(q.ip))
    && (p.ip.Some? ==> p.ip == q.ip)
    && (p.body.Some? <==> m.includeRequestBody && Truthy(q.body))
    && (p.body.Some? ==> p.body.value == q.body)
    && (p.headers.Some? <==> m.includeHeaders && q.headers.Some?)
    && (p.headers.Some? ==> p.headers == q.headers)
    && (p.params.Some? <==> NonEmpty(q.params))
    && (p.params.Some? ==> p.params == q.params)
    && (p.query.Some? <==> NonEmpty(q.query))
    && (p.query.Some? ==> p.query == q.query)
  }

  /** `payload.response`: present iff the record has a response, its body only when included. */
  ghost predicate ResponsePartFor(m: ErrorMonitoring, r: Option<ResponseDetails>, p: Option<ResponsePart>) {
    && (p.Some? <==> r.Some?)
    && (p.Some? ==>
          && p.value.statusCode == r.value.statusCode
          && (p.value.body.Some? <==> m.includeResponseBody && Truthy(r.value.body))
          && (p.value.body.Some? ==> p.value.body.value == r.value.body))
  }

  /**
   * The rules `formatWebhookPayload` follows: the error, request and response
   * parts as above, the metadata falling back to the environment, and the AI
   * summary copied.
   */
  ghost predicate PayloadFor(c: Config, record: ApiErrorModel, nodeEnv: Option<string>, p: WebhookPayload) {
    && ErrorPartFor(c.errorMonitoring, record.error, record.request.url, p.error)
    && RequestPartFor(c.errorMonitoring, record.request, p.request)
    && (record.metadata.Some? ==> p.metadata == record.metadata.value)
    && (record.metadata.None? ==> p.metadata == FallbackMetadata(nodeEnv))
    && ResponsePartFor(c.errorMonitoring, record.response, p.response)
    && p.aiSummary == record.aiSummary
  }

  /** The axios call the switch makes. */
  datatype Verb = Get | Post | Put | PatchVerb | Delete

  /** `method?.toLowerCase() || 'post'` and the switch: anything unrecognised posts. */
  function VerbOf(configured: Option<string>): (v: Verb)
    ensures configured.Some? ==> (v == Get <==> ToLower(configured.value) == "get")
    ensures configured.Some? ==> (v == Put <==> ToLower(configured.value) == "put")
    ensures configured.Some? ==> (v == PatchVerb <==> ToLower(configured.value) == "patch")
    ensures configured.Some? ==> (v == Delete <==> ToLower(configured.value) == "delete")
    ensures v == Post <==> configured.None? || ToLower(configured.value) !in {"get", "put", "patch", "delete"}
  {
    var m := if configured.Some? then ToLower(configured.value) else "";
    if m == "get" then Get
    else if m == "put" then Put
    else if m == "patch" then PatchVerb
    else if m == "delete" then Delete
    else Post
  }

  lemma ToLowerIdempotent(s: string)
    ensures ToLower(ToLower(s)) == ToLower(s)
  {
    var t := ToLower(s);
    assert forall i :: 0 <= i < |t| ==> ToLower(t)[i] == LowerChar(LowerChar(s[i])) == t[i];
  }

  /** The method is read without regard to letter case. */
  lemma VerbIgnoresCase(s: string)
    ensures VerbOf(Some(s)) == VerbOf(Some(ToLower(s)))
  {
    ToLowerIdempotent(s);
  }

  /** Where the payload travels: as query parameters, as the request body, or as `data`. */
  datatype Carrier = InParams | InBody | InData

  function CarrierOf(v: Verb): (r: Carrier)
    ensures r == InParams <==> v == Get
    ensures r == InData <==> v == Delete
  {
    match v
    case Get => InParams
    case Delete => InData
    case _ => InBody
  }

  /** One HTTP request to the webhook URL. */
  datatype HttpCall = HttpCall(verb: Verb, url: string, headers: map<string, string>, carrier: Carrier, payload: WebhookPayload)

  class WebhookService {
    const config: Config

    constructor(config: Config)
      ensures this.config == config
    {
      this.config := config;
    }

    /**
     * `sendAlert`: nothing when the webhook is disabled; otherwise one call with
     * the configured (or default) method, URL and headers, whose failure is
     * only recorded.
     */
    method SendAlert(record: ApiErrorModel, nodeEnv: Option<string>, transport: HttpCall -> bool)
      returns (alert: Alert<HttpCall>)
      ensures !WebhookEnabled(config) ==> alert.Skipped?
      ensures WebhookEnabled(config) ==>
                && alert.Sent?
                && var w := config.notifications.webhook.value;
                   && alert.request.verb == VerbOf(w.httpMethod)
                   && alert.request.carrier == CarrierOf(alert.request.verb)
                   && alert.request.url == w.url
                   && alert.request.headers == (if w.headers.Some? then w.headers.value else map[])
                   && PayloadFor(config, record, nodeEnv, alert.request.payload)
                   && alert.delivered == transport(alert.request)
    {
      if !WebhookEnabled(config) {
        return Skipped;
      }
      var w := config.notifications.webhook.value;
      var verb := VerbOf(w.httpMethod);
      var headers := if w.headers.Some? then w.headers.value else map[];
      var payload := FormatWebhookPayload(record, nodeEnv);
      var call := HttpCall(verb, w.url, headers, CarrierOf(verb), payload);
      var delivered := transport(call);
      alert := Sent(call, delivered);
    }

    /**
     * `formatWebhookPayload`: the fixed part first, then each optional field
     * set under its condition.
     */
    method FormatWebhookPayload(record: ApiErrorModel, nodeEnv: Option<string>) returns (payload: WebhookPayload)
      ensures PayloadFor(config, record, nodeEnv, payload)
    {
      var metadata := if record.metadata.Some? then record.metadata.value else FallbackMetadata(nodeEnv);
      var error := FormatErrorPart(record.error, record.request.url);
      var request := FormatRequestPart(record.request);
      var response := FormatResponsePart(record.response);
      var aiSummary: Option<AiSummary> := None;
      if record.aiSummary.Some? {
        aiSummary := record.aiSummary;
      }
      payload := WebhookPayload(error, request, metadata, response, aiSummary);
    }

    /** `payload.error`, with the stack added when it exists and stack traces are included. */
    method FormatErrorPart(error: ErrorDetails, url: string) returns (part: ErrorPart)
      ensures ErrorPartFor(config.errorMonitoring, error, url, part)
    {
      var stack: Option<string> := None;
      if Filled(error.stack) && config.errorMonitoring.includeStackTrace {
        stack := error.stack;
      }
      part := ErrorPart(error.name, error.message, error.statusCode, Or(error.path, url), error.timestamp, stack);
    }

    /** `payload.request`, with ip, body, headers, params and query each added under its condition. */
    method FormatRequestPart(request: RequestDetails) returns (part: RequestPart)
      ensures RequestPartFor(config.errorMonitoring, request, part)
    {
      var ip: Option<string> := None;
      if Filled(request.ip) {
        ip := request.ip;
      }
      var body: Option<Value> := None;
      if config.errorMonitoring.includeRequestBody && Truthy(request.body) {
        body := Some(request.body);
      }
      var headers: Option<Headers> := None;
      if config.errorMonitoring.includeHeaders && request.headers.Some? {
        headers := request.headers;
      }
      var params: Option<Fields> := None;
      if NonEmpty(request.params) {
        params := request.params;
      }
      var query: Option<Fields> := None;
      if NonEmpty(request.query) {
        query := request.query;
      }
      part := RequestPart(request.httpMethod, request.url, request.timestamp, ip, body, headers, params, query);
    }

    /** `payload.response`, present when the record has a response, with its body when included. */
    method FormatResponsePart(response: Option<ResponseDetails>) returns (part: Option<ResponsePart>)
      ensures ResponsePartFor(config.errorMonitoring, response, part)
    {
      part := None;
      if response.Some? {
        var responseBody: Option<Value> := None;
        if config.errorMonitoring.includeResponseBody && Truthy(response.value.body) {
          responseBody := Some(response.value.body);
        }
        part := Some(ResponsePart(response.value.statusCode, responseBody));
      }
    }
  }
}
