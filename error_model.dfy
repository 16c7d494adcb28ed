/**
 * The error record that moves through the monitor (`ApiErrorModel`) and its
 * parts, as declared in the error-model interface.
 */
module ErrorModel {
  import opened Wrappers
  import opened Js

  /** A header value: `string | string[] | undefined`. */
  datatype HeaderValue = Missing | Single(s: string) | Multiple(items: seq<string>)

  /** Header truthiness: an empty string and `undefined` are falsy, an array never is. */
  predicate HeaderTruthy(v: HeaderValue) {
    match v
    case Missing => false
    case Single(s) => s != ""
    case Multiple(_) => true
  }

  type Headers = map<string, HeaderValue>
  type Fields = map<string, Value>

  /** `RequestDetails`: the request snapshot (`httpMethod` is `method`). `body` is `Undefined` when not captured. */
  datatype RequestDetails = RequestDetails(
    httpMethod: string,
    url: string,
    params: Option<Fields>,
    query: Option<Fields>,
    body: Value,
    headers: Option<Headers>,
    ip: Option<string>,
    timestamp: string)

  /** `ErrorDetails`: the error descriptor. */
  datatype ErrorDetails = ErrorDetails(
    message: string,
    name: string,
    stack: Option<string>,
    statusCode: int,
    path: Option<string>,
    timestamp: string)

  /** The optional `response` part of a record. */
  datatype ResponseDetails = ResponseDetails(body: Value, statusCode: int)

  /**
   * The declared levels 'high', 'medium' and 'low', plus any other text the
   * AI response may carry in their place (the declared type is not enforced).
   */
  datatype Confidence = High | Medium | Low | Other(text: string)

  /** The value of a confidence level as it is written. */
  function ConfidenceName(c: Confidence): string {
    match c
    case High => "high"
    case Medium => "medium"
    case Low => "low"
    case Other(text) => text
  }

  /** `aiSummary`: the AI diagnosis attached to a record. */
  datatype AiSummary = AiSummary(
    summary: string,
    possibleSolutions: Option<seq<string>>,
    confidence: Option<Confidence>)

  /** `aiSummary.possibleSolutions?.length` is truthy. */
  predicate HasSolutions(a: AiSummary) {
    a.possibleSolutions.Some? && |a.possibleSolutions.value| > 0
  }

  /** One `[key, value]` pair of `Object.entries(metadata)`. */
  datatype MetaEntry = MetaEntry(key: string, value: Value)

  /** The metadata object, in insertion order. */
  type Metadata = seq<MetaEntry>

  /** `metadata[key]`: the value of the first entry with that key. */
  function Lookup(m: Metadata, key: string): (r: Option<Value>)
    ensures r.Some? <==> exists i :: 0 <= i < |m| && m[i].key == key
  {
    if m == [] then None
    else if m[0].key == key then Some(m[0].value)
    else Lookup(m[1..], key)
  }

  /** `metadata?.environment`. */
  function EnvironmentOf(metadata: Option<Metadata>): Option<Value> {
    if metadata.Some? then Lookup(metadata.value, "environment") else None
  }

  /** `metadata?.environment` is truthy. */
  predicate HasEnvironment(metadata: Option<Metadata>) {
    EnvironmentOf(metadata).Some? && Truthy(EnvironmentOf(metadata).value)
  }

  /**
   * `ApiErrorModel`. The `id` stands for the identity of the JavaScript object:
   * two records are the same object iff their ids are equal.
   */
  datatype ApiErrorModel = ApiErrorModel(
    id: nat,
    error: ErrorDetails,
    request: RequestDetails,
    response: Option<ResponseDetails>,
    metadata: Option<Metadata>,
    aiSummary: Option<AiSummary>)

  /**
   * A truthy result of the custom error transformer: each top-level key it
   * returns, with its value (which may itself be `undefined` for the optional keys).
   */
  datatype Patch = Patch(
    error: Option<ErrorDetails>,
    request: Option<RequestDetails>,
    response: Option<Option<ResponseDetails>>,
    metadata: Option<Option<Metadata>>,
    aiSummary: Option<Option<AiSummary>>)

  /** What one channel's `sendAlert` did: nothing, or one request with its transport's outcome. */
  datatype Alert<R> = Skipped | Sent(request: R, delivered: bool)
}
