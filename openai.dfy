/**
 * The AI analysis service (`OpenAiService`): the prompt it builds from the
 * current record and the history, and how it turns the chat completion's reply
 * into a summary. The chat call and `JSON.parse`/`JSON.stringify` are
 * parameters.
 */
module OpenAi {
  import opened Wrappers
  import opened Strings
  import opened Js
  import opened ErrorModel
  import opened MonitorConfig

  const NotAvailable: string := "AI analysis not available"
  const ApiFailure: string := "Failed to perform AI analysis due to API error"
  const NoSummary: string := "Unable to generate summary"

  /** How many previous errors the prompt lists at most. */
  const RecentLimit: int := 5

  /** The chat completion call: it threw, or it answered with the first choice's content (absent without a choice or message). */
  datatype ChatReply = ChatFailed | ChatReplied(content: Option<string>)

  /** `response.choices[0]?.message?.content || "{}"`. */
  function ReplyText(content: Option<string>): (r: string)
    ensures r != ""
    ensures Filled(content) ==> r == content.value
    ensures !Filled(content) ==> r == "{}"
  {
    Or(content, "{}")
  }

  /** A parse result whose property reads throw: `JSON.parse` threw, or it gave `null`. */
  predicate Unusable(parsed: Option<Value>) {
    parsed.None? || parsed.value.Null? || parsed.value.Undefined?
  }

  /** `v[key]` on a value that is neither `null` nor `undefined`. */
  function Member(v: Value, key: string): Value {
    if v.Obj? && key in v.fields then v.fields[key] else Undefined
  }

  /** A truthy `confidence` value as a level. */
  function ConfidenceOf(v: Value): Confidence {
    if v == Str("high") then High
    else if v == Str("medium") then Medium
    else if v == Str("low") then Low
    else Other(Show(v))
  }

  /** A truthy `possibleSolutions` value as a list of texts. */
  function SolutionsOf(v: Value): (r: seq<string>)
    ensures v.Arr? ==> |r| == |v.items| && forall i :: 0 <= i < |r| ==> r[i] == Show(v.items[i])
  {
    if v.Arr? then seq(|v.items|, i requires 0 <= i < |v.items| => Show(v.items[i])) else []
  }

  /**
   * The result of `analyzeError` once the call was made: the failure sentinel
   * exactly when the call or the reading of its reply throws, and otherwise the
   * reply's fields, each with its default when falsy.
   */
  function Interpret(reply: ChatReply, parseJson: string -> Option<Value>): (r: AiSummary)
    ensures (r.possibleSolutions.None? <==> reply.ChatFailed? || Unusable(parseJson(ReplyText(reply.content))))
    ensures r.possibleSolutions.None? ==> r == AiSummary(ApiFailure, None, None)
    ensures r.possibleSolutions.Some? ==> r.confidence.Some?
    ensures reply.ChatReplied? && !Unusable(parseJson(ReplyText(reply.content))) ==>
              var parsed := parseJson(ReplyText(reply.content)).value;
              && (!Truthy(Member(parsed, "summary")) ==> r.summary == NoSummary)
              && (Truthy(Member(parsed, "summary")) && Member(parsed, "summary").Str? ==>
                    r.summary == Member(parsed, "summary").s)
              && (Truthy(Member(parsed, "summary")) ==> r.summary == Show(Member(parsed, "summary")))
              && (!Truthy(Member(parsed, "possibleSolutions")) ==> r.possibleSolutions == Some([]))
              && (Truthy(Member(parsed, "possibleSolutions")) ==>
                    r.possibleSolutions == Some(SolutionsOf(Member(parsed, "possibleSolutions"))))
              && (!Truthy(Member(parsed, "confidence")) ==> r.confidence == Some(Medium))
              && (Member(parsed, "confidence") == Str("high") ==> r.confidence == Some(High))
              && (Member(parsed, "confidence") == Str("medium") ==> r.confidence == Some(Medium))
              && (Member(parsed, "confidence") == Str("low") ==> r.confidence == Some(Low))
              && (Truthy(Member(parsed, "confidence")) && Member(parsed, "confidence").Str?
                  && Member(parsed, "confidence").s !in {"high", "medium", "low"} ==>
                    r.confidence == Some(Other(Member(parsed, "confidence").s)))
  {
    if reply.ChatFailed? then AiSummary(ApiFailure, None, None)
    else
      var parsed := parseJson(ReplyText(reply.content));
      if Unusable(parsed) then AiSummary(ApiFailure, None, None)
      else
        var summary := Member(parsed.value, "summary");
        var solutions := Member(parsed.value, "possibleSolutions");
        var confidence := Member(parsed.value, "confidence");
        AiSummary(
          if Truthy(summary) then Show(summary) else NoSummary,
          Some(if Truthy(solutions) then SolutionsOf(solutions) else []),
          Some(if Truthy(confidence) then ConfidenceOf(confidence) else Medium))
  }

  /** An empty or missing reply reads as `{}`: every field takes its default. */
  lemma EmptyReplyDefaults(content: Option<string>, parseJson: string -> Option<Value>)
    requires !Filled(content)
    requires parseJson("{}") == Some(Obj(map[]))
    ensures Interpret(ChatReplied(content), parseJson) == AiSummary(NoSummary, Some([]), Some(Medium))
  {
    assert ReplyText(content) == "{}";
  }

  // ---- The prompt ----

  /** The fixed instructions that open every prompt. */
  const Instructions: string :=
    "\nPlease analyze this API error and provide the following in JSON format:\n"
    + "1. A concise summary of what went wrong (1-2 sentences)\n"
    + "2. A list of possible solutions (up to 3)\n"
    + "3. A confidence level for your analysis ('high', 'medium', or 'low')\n"
    + "\n"
    + "Return ONLY a JSON object with the following structure:\n"
    + "{\n"
    + "  \"summary\": \"your error summary here\",\n"
    + "  \"possibleSolutions\": [\"solution 1\", \"solution 2\", \"solution 3\"],\n"
    + "  \"confidence\": \"high|medium|low\"\n"
    + "}\n"
    + "\n"
    + "Current error details:\n"

  /** The instructions and the current error's identification. */
  function Header(current: ApiErrorModel): string {
    Instructions
    + "Status Code: " + IntToString(current.error.statusCode) + "\n"
    + "Error Name: " + current.error.name + "\n"
    + "Error Message: " + current.error.message + "\n"
    + "Endpoint: " + current.request.httpMethod + " " + current.request.url + "\n"
  }

  /** The stack section: present iff there is a stack and stack traces are included. */
  function StackSection(c: Config, current: ApiErrorModel): (r: string)
    ensures r != "" <==> Filled(current.error.stack) && c.errorMonitoring.includeStackTrace
    ensures r != "" ==> "\nStack Trace:\n" <= r
  {
    if Filled(current.error.stack) && c.errorMonitoring.includeStackTrace then
      "\nStack Trace:\n" + current.error.stack.value + "\n"
    else ""
  }

  /** A `<title><json>` line for a map that is present and non-empty. */
  function FieldsLine(title: string, fields: Option<Fields>, stringify: Value -> string): (r: string)
    ensures r != "" <==> fields.Some? && fields.value != map[]
    ensures r != "" ==> title <= r
  {
    if fields.Some? && fields.value != map[] then
      title + stringify(Obj(fields.value)) + "\n"
    else ""
  }

  /** The request body line: present iff the body is truthy and request bodies are included. */
  function RequestBodyLine(c: Config, current: ApiErrorModel, stringify: Value -> string): (r: string)
    ensures r != "" <==> Truthy(current.request.body) && c.errorMonitoring.includeRequestBody
    ensures r != "" ==> "Request Body: " <= r
  {
    if Truthy(current.request.body) && c.errorMonitoring.includeRequestBody then
      "Request Body: " + stringify(current.request.body) + "\n"
    else ""
  }

  /** The response body section: present iff there is a truthy response body and response bodies are included. */
  function ResponseSection(c: Config, current: ApiErrorModel, stringify: Value -> string): (r: string)
    ensures r != "" <==> current.response.Some? && Truthy(current.response.value.body)
                         && c.errorMonitoring.includeResponseBody
    ensures r != "" ==> "\nResponse Body: " <= r
  {
    if current.response.Some? && Truthy(current.response.value.body) && c.errorMonitoring.includeResponseBody then
      "\nResponse Body: " + stringify(current.response.value.body) + "\n"
    else ""
  }

  /** `errorHistory.filter(error => error !== currentError)`: identity is the record id. */
  function Others(h: seq<ApiErrorModel>, id: nat): (r: seq<ApiErrorModel>)
    ensures |r| <= |h|
    ensures forall e :: e in r <==> e in h && e.id != id
  {
    if h == [] then []
    else (if h[0].id != id then [h[0]] else []) + Others(h[1..], id)
  }

  /**
   * When the current record was pushed after records with other ids, the
   * filter gives exactly the records before it, in order.
   */
  lemma {:induction false} OthersOfPushed(h: seq<ApiErrorModel>, current: ApiErrorModel)
    requires forall e :: e in h ==> e.id != current.id
    ensures Others(h + [current], current.id) == h
  {
    if h == [] {
      assert Others([current], current.id) == [] + Others([], current.id);
    } else {
      assert (h + [current])[1..] == h[1..] + [current];
      OthersOfPushed(h[1..], current);
    }
  }

  /** The previous errors the prompt lists: the last five that are not the current record. */
  function RecentErrors(h: seq<ApiErrorModel>, current: ApiErrorModel): (r: seq<ApiErrorModel>)
    ensures |r| == Min(|Others(h, current.id)|, RecentLimit)
    ensures r == Others(h, current.id)[|Others(h, current.id)| - |r|..]
    ensures forall e :: e in r ==> e in h && e.id != current.id
  {
    SliceFrom(Others(h, current.id), -RecentLimit)
  }

  /** One listed previous error, numbered `n`. */
  function Entry(e: ApiErrorModel, n: int): string {
    "\nPrevious Error " + IntToString(n) + ":\n"
    + "Status: " + IntToString(e.error.statusCode) + " - " + e.error.name + "\n"
    + "Message: " + e.error.message + "\n"
    + "Endpoint: " + e.request.httpMethod + " " + e.request.url + "\n"
    + "Time: " + e.error.timestamp + "\n"
  }

  const HistoryTitle: string := "\nRecent Error History (for context):\n"

  /** The history section: present iff the history holds more than one record. */
  function HistorySection(current: ApiErrorModel, h: seq<ApiErrorModel>): (r: string)
    ensures r != "" <==> |h| > 1
    ensures r != "" ==> HistoryTitle <= r
  {
    if |h| > 1 then HistoryTitle + Numbered(RecentErrors(h, current), 1, Entry) else ""
  }

  /**
   * The listed previous errors are numbered from 1 in history order: the `k`-th
   * of them is entry number `k + 1`, after the entries for those before it.
   */
  lemma PreviousErrorNumbered(current: ApiErrorModel, h: seq<ApiErrorModel>, k: nat)
    requires |h| > 1
    requires k < |RecentErrors(h, current)|
    ensures var recent := RecentErrors(h, current);
            HistorySection(current, h)
            == HistoryTitle + (Numbered(recent[..k], 1, Entry) + Entry(recent[k], k + 1)
                               + Numbered(recent[k + 1..], k + 2, Entry))
  {
    NumberedAt(RecentErrors(h, current), 1, Entry, k);
  }

  /** `buildErrorAnalysisPrompt`: the header, then each gated section in order. */
  function Prompt(c: Config, current: ApiErrorModel, h: seq<ApiErrorModel>, stringify: Value -> string): string {
    Header(current) + Details(c, current, stringify) + HistorySection(current, h)
  }

  /** The sections between the header and the history. */
  function Details(c: Config, current: ApiErrorModel, stringify: Value -> string): string {
    StackSection(c, current)
    + "\nRequest Details:\n"
    + FieldsLine("Parameters: ", current.request.params, stringify)
    + FieldsLine("Query: ", current.request.query, stringify)
    + RequestBodyLine(c, current, stringify)
    + ResponseSection(c, current, stringify)
  }

  class OpenAiService {
    const config: Config
    /** Whether the constructor created the OpenAI client. */
    const hasClient: bool

    constructor(config: Config)
      ensures this.config == config
      ensures hasClient == AiEnabled(config)
    {
      this.config := config;
      hasClient := AiEnabled(config);
    }

    /**
     * `analyzeError`: without AI or a client, the sentinel and no call; otherwise
     * one call with the prompt, read by `Interpret`. It never fails. `sent` is
     * the prompt the call carried.
     */
    method AnalyzeError(current: ApiErrorModel, history: seq<ApiErrorModel>, stringify: Value -> string,
                        chat: string -> ChatReply, parseJson: string -> Option<Value>)
      returns (result: AiSummary, sent: Option<string>)
      ensures !(AiEnabled(config) && hasClient) ==> result == AiSummary(NotAvailable, None, None) && sent.None?
      ensures AiEnabled(config) && hasClient ==>
                && sent == Some(Prompt(config, current, history, stringify))
                && result == Interpret(chat(sent.value), parseJson)
    {
      if !AiEnabled(config) || !hasClient {
        return AiSummary(NotAvailable, None, None), None;
      }
      var prompt := BuildErrorAnalysisPrompt(current, history, stringify);
      sent := Some(prompt);
      var reply := chat(prompt);
      result := Interpret(reply, parseJson);
    }

    /** `buildErrorAnalysisPrompt`, appending section by section. */
    method BuildErrorAnalysisPrompt(current: ApiErrorModel, history: seq<ApiErrorModel>, stringify: Value -> string)
      returns (prompt: string)
      ensures prompt == Prompt(config, current, history, stringify)
    {
      prompt := Header(current);
      prompt := AppendDetails(prompt, current, stringify);
      ghost var head := prompt;
      if |history| > 1 {
        prompt := prompt + HistoryTitle;
        var recent := RecentErrors(history, current);
        prompt := AppendNumbered(prompt, recent, 1, Entry);
        AppendAssoc(head, HistoryTitle, Numbered(recent, 1, Entry));
      }
    }
  
    /** The stack and request sections, each appended only when its condition holds. */
    method AppendDetails(out: string, current: ApiErrorModel, stringify: Value -> string) returns (prompt: string)
      ensures prompt == out + Details(config, current, stringify)
    {
      prompt := out;
      if Filled(current.error.stack) && config.errorMonitoring.includeStackTrace {
        prompt := prompt + ("\nStack Trace:\n" + current.error.stack.value + "\n");
      }
      ghost var added := StackSection(config, current);
      assert prompt == out + added;
      prompt := prompt + "\nRequest Details:\n";
      AppendAssoc(out, added, "\nRequest Details:\n");
      added := added + "\nRequest Details:\n";
      assert prompt == out + added;
      var params := current.request.params;
      if params.Some? && params.value != map[] {
        prompt := prompt + ("Parameters: " + stringify(Obj(params.value)) + "\n");
      }
      AppendAssoc(out, added, FieldsLine("Parameters: ", params, stringify));
      added := added + FieldsLine("Parameters: ", params, stringify);
      assert prompt == out + added;
      var query := current.request.query;
      if query.Some? && query.value != map[] {
        prompt := prompt + ("Query: " + stringify(Obj(query.value)) + "\n");
      }
      AppendAssoc(out, added, FieldsLine("Query: ", query, stringify));
      added := added + FieldsLine("Query: ", query, stringify);
      assert prompt == out + added;
      if Truthy(current.request.body) && config.errorMonitoring.includeRequestBody {
        prompt := prompt + ("Request Body: " + stringify(current.request.body) + "\n");
      }
      AppendAssoc(out, added, RequestBodyLine(config, current, stringify));
      added := added + RequestBodyLine(config, current, stringify);
      assert prompt == out + added;
      var response := current.response;
      if response.Some? && Truthy(response.value.body) && config.errorMonitoring.includeResponseBody {
        prompt := prompt + ("\nResponse Body: " + stringify(response.value.body) + "\n");
      }
      AppendAssoc(out, added, ResponseSection(config, current, stringify));
      added := added + ResponseSection(config, current, stringify);
      assert prompt == out + added;
      assert added == Details(config, current, stringify);
    }
  }
}
