/**
 * The email channel (`EmailService`): the subject and HTML body built from a
 * record and the one mail sent to the configured recipients. The mail
 * transport is a parameter that says whether sending succeeds;
 * `JSON.stringify(value, null, 2)` is the parameter `pretty`.
 */
module Email {
  import opened Wrappers
  import opened Strings
  import opened Js
  import opened ErrorModel
  import opened MonitorConfig

  /** The `sendMail` options. */
  datatype Mail = Mail(from: string, to: seq<string>, cc: Option<seq<string>>, subject: string, html: string)

  /** `metadata?.environment || "PROD"`. */
  function SubjectEnvironment(metadata: Option<Metadata>): (r: string)
    ensures HasEnvironment(metadata) ==> r == Show(EnvironmentOf(metadata).value)
    ensures !HasEnvironment(metadata) ==> r == "PROD"
    ensures metadata.None? ==> r == "PROD"
  {
    if metadata.Some? && Lookup(metadata.value, "environment").Some?
       && Truthy(Lookup(metadata.value, "environment").value)
    then Show(Lookup(metadata.value, "environment").value)
    else "PROD"
  }

  /** The subject: the configured one when it is non-empty, else one naming environment, status and error. */
  function Subject(c: Config, record: ApiErrorModel): (r: string)
    requires c.notifications.email.Some?
    ensures Filled(c.notifications.email.value.subject) ==> r == c.notifications.email.value.subject.value
    ensures !Filled(c.notifications.email.value.subject) ==>
              r == "[" + SubjectEnvironment(record.metadata) + "] API Error: "
                   + IntToString(record.error.statusCode) + " - " + record.error.name
  {
    Or(c.notifications.email.value.subject,
       "[" + SubjectEnvironment(record.metadata) + "] API Error: "
       + IntToString(record.error.statusCode) + " - " + record.error.name)
  }

  /** An unset subject and no truthy environment give a subject for production. */
  lemma SubjectDefaultsToProd(c: Config, record: ApiErrorModel)
    requires c.notifications.email.Some? && !Filled(c.notifications.email.value.subject)
    requires !HasEnvironment(record.metadata)
    ensures "[PROD] API Error: " <= Subject(c, record)
  {
    var rest := IntToString(record.error.statusCode) + " - " + record.error.name;
    assert Subject(c, record) == "[PROD] API Error: " + rest;
  }

  const Green: string := "#4caf50"
  const Orange: string := "#ff9800"
  const Red: string := "#f44336"

  /** The confidence colour: orange for 'medium', red for 'low', green for anything else. */
  function ConfidenceColor(conf: Confidence): (color: string)
    ensures color == Orange <==> ConfidenceName(conf) == "medium"
    ensures color == Red <==> ConfidenceName(conf) == "low"
    ensures color == Green <==> ConfidenceName(conf) != "medium" && ConfidenceName(conf) != "low"
  {
    if ConfidenceName(conf) == "medium" then Orange
    else if ConfidenceName(conf) == "low" then Red
    else Green
  }

  /** `aiSummary.confidence` is truthy. */
  predicate HasConfidence(a: AiSummary) {
    a.confidence.Some? && ConfidenceName(a.confidence.value) != ""
  }

  // ---- The HTML text, one group of constants and one function per template literal ----

  const PageStart: string :=
    "\n"
    + "      <div style=\"font-family: Arial, sans-serif; max-width: 800px; margin: 0 auto;\">\n"
    + "        <h1 style=\"color: #d32f2f; margin-bottom: 20px;\">API Error: "
  const SummaryStart: string :=
    "</h1>\n"
    + "        \n"
    + "        <div style=\"background-color: #f5f5f5; padding: 15px; border-radius: 5px; margin-bottom: 20px;\">\n"
    + "          <p><strong>Error Message:</strong> "
  const TimeLabel: string :=
    "</p>\n"
    + "          <p><strong>Time:</strong> "
  const EndpointLabel: string :=
    "</p>\n"
    + "          <p><strong>Endpoint:</strong> "
  const StatusLabel: string :=
    "</p>\n"
    + "          <p><strong>Status Code:</strong> "
  const EnvironmentStart: string :=
    "</p>\n"
    + "        </div>\n"
    + "\n"
    + "        <!-- Environment Information -->\n"
    + "        <h2 style=\"color: #333; margin-top: 30px;\">Environment Information</h2>\n"
    + "        <div style=\"background-color: #f5f5f5; padding: 15px; border-radius: 5px; margin-bottom: 20px;\">\n"
    + "    "

  /** The heading, the error summary and the start of the environment block. */
  function Opening(record: ApiErrorModel): string {
    PageStart + IntToString(record.error.statusCode) + " " + record.error.name
    + SummaryStart + record.error.message
    + TimeLabel + record.error.timestamp
    + EndpointLabel + record.request.httpMethod + " " + record.request.url
    + StatusLabel + IntToString(record.error.statusCode)
    + EnvironmentStart
  }

  /** One metadata entry (the index is not shown). */
  function MetaItem(e: MetaEntry, n: int): string {
    "<p><strong>" + e.key + ":</strong> " + Show(e.value) + "</p>"
  }

  const RequestStart: string :=
    "\n"
    + "      <h2 style=\"color: #333; margin-top: 30px;\">Request Details</h2>\n"
    + "      <div style=\"background-color: #f5f5f5; padding: 15px; border-radius: 5px; margin-bottom: 20px;\">\n"
    + "        <p><strong>Method:</strong> "
  const UrlLabel: string :=
    "</p>\n"
    + "        <p><strong>URL:</strong> "
  const TimestampLabel: string :=
    "</p>\n"
    + "        <p><strong>Timestamp:</strong> "
  const RequestHeadEnd: string :=
    "</p>\n"
    + "    "

  function RequestOpening(request: RequestDetails): string {
    RequestStart + request.httpMethod
    + UrlLabel + request.url
    + TimestampLabel + request.timestamp
    + RequestHeadEnd
  }

  const ParamsLabel: string := "<p><strong>Parameters:</strong> "
  const QueryLabel: string := "<p><strong>Query:</strong> "

  function ParamsItem(json: string): string {
    ParamsLabel + json + "</p>"
  }

  function QueryItem(json: string): string {
    QueryLabel + json + "</p>"
  }

  const RequestBodyStart: string :=
    "\n"
    + "        <p><strong>Request Body:</strong></p>\n"
    + "        <pre style=\"background-color: #eee; padding: 10px; border-radius: 5px; overflow-x: auto;\">\n"
    + "          "
  const RequestBodyEnd: string :=
    "\n"
    + "        </pre>\n"
    + "      "

  function RequestBodyItem(json: string): string {
    RequestBodyStart + json + RequestBodyEnd
  }

  const ResponseStart: string :=
    "\n"
    + "        <h2 style=\"color: #333; margin-top: 30px;\">Response Details</h2>\n"
    + "        <div style=\"background-color: #f5f5f5; padding: 15px; border-radius: 5px; margin-bottom: 20px;\">\n"
    + "          <p><strong>Status Code:</strong> "
  const ResponseHeadEnd: string :=
    "</p>\n"
    + "      "

  function ResponseOpening(statusCode: int): string {
    ResponseStart + IntToString(statusCode) + ResponseHeadEnd
  }

  const ResponseBodyStart: string :=
    "\n"
    + "          <p><strong>Response Body:</strong></p>\n"
    + "          <pre style=\"background-color: #eee; padding: 10px; border-radius: 5px; overflow-x: auto;\">\n"
    + "            "
  const ResponseBodyEnd: string :=
    "\n"
    + "          </pre>\n"
    + "        "

  function ResponseBodyItem(json: string): string {
    ResponseBodyStart + json + ResponseBodyEnd
  }

  const StackStart: string :=
    "\n"
    + "        <h2 style=\"color: #333; margin-top: 30px;\">Stack Trace</h2>\n"
    + "        <pre style=\"background-color: #eee; padding: 10px; border-radius: 5px; overflow-x: auto; margin-bottom: 20px; white-space: pre-wrap;\">\n"
    + "          "
  const StackEnd: string :=
    "\n"
    + "        </pre>\n"
    + "      "

  function StackBlock(stack: string): string {
    StackStart + stack + StackEnd
  }

  const AiStart: string :=
    "\n"
    + "        <h2 style=\"color: #333; margin-top: 30px;\">AI Analysis</h2>\n"
    + "        <div style=\"background-color: #e3f2fd; padding: 15px; border-radius: 5px; margin-bottom: 20px;\">\n"
    + "          <p>"
  const AiHeadEnd: string :=
    "</p>\n"
    + "      "

  function AiOpening(summary: string): string {
    AiStart + summary + AiHeadEnd
  }

  const SolutionsOpening: string := "<h3 style=\"margin-top: 15px;\">Possible Solutions:</h3><ul>"

  /** One solution as a list item (the index is not shown). */
  function SolutionItem(solution: string, n: int): string {
    "<li>" + solution + "</li>"
  }

  const ConfidenceStart: string :=
    "\n"
    + "          <p style=\"margin-top: 15px;\">\n"
    + "            <strong>Confidence:</strong> \n"
    + "            <span style=\"color: "
  const ConfidenceEnd: string :=
    "</span>\n"
    + "          </p>\n"
    + "        "

  function ConfidenceItem(color: string, level: string): string {
    ConfidenceStart + color + ";\">" + level + ConfidenceEnd
  }

  const Closing: string :=
    "\n"
    + "        <div style=\"margin-top: 30px; padding-top: 20px; border-top: 1px solid #eee; color: #666; font-size: 12px;\">\n"
    + "          <p>This is an automated alert from the NestJS API Monitor.</p>\n"
    + "        </div>\n"
    + "      </div>\n"
    + "    "

  // ---- The sections and their gating ----

  /** One row per metadata entry, in order; nothing without metadata. */
  function MetadataRows(metadata: Option<Metadata>): (r: string)
    ensures metadata.None? ==> r == ""
    ensures metadata.Some? ==> r == Numbered(metadata.value, 1, MetaItem)
  {
    if metadata.Some? then Numbered(metadata.value, 1, MetaItem) else ""
  }

  /** The parameters row: present iff the parameters are present and non-empty. */
  function ParamsRow(request: RequestDetails, pretty: Value -> string): (r: string)
    ensures r != "" <==> request.params.Some? && |request.params.value| > 0
  {
    if request.params.Some? && |request.params.value| > 0 then ParamsItem(pretty(Obj(request.params.value))) else ""
  }

  /** The query row: present iff the query is present and non-empty. */
  function QueryRow(request: RequestDetails, pretty: Value -> string): (r: string)
    ensures r != "" <==> request.query.Some? && |request.query.value| > 0
  {
    if request.query.Some? && |request.query.value| > 0 then QueryItem(pretty(Obj(request.query.value))) else ""
  }

  /** The request body: present iff the body is truthy and request bodies are included. */
  function RequestBodyRow(c: Config, request: RequestDetails, pretty: Value -> string): (r: string)
    ensures r != "" <==> Truthy(request.body) && c.errorMonitoring.includeRequestBody
  {
    if Truthy(request.body) && c.errorMonitoring.includeRequestBody then RequestBodyItem(pretty(request.body)) else ""
  }

  function RequestSection(c: Config, request: RequestDetails, pretty: Value -> string): string {
    RequestOpening(request) + ParamsRow(request, pretty) + QueryRow(request, pretty)
    + RequestBodyRow(c, request, pretty) + "</div>"
  }

  /** The response body: present iff the body is truthy and response bodies are included. */
  function ResponseBodyRow(c: Config, response: ResponseDetails, pretty: Value -> string): (r: string)
    ensures r != "" <==> Truthy(response.body) && c.errorMonitoring.includeResponseBody
  {
    if Truthy(response.body) && c.errorMonitoring.includeResponseBody then ResponseBodyItem(pretty(response.body)) else ""
  }

  /** The response section: present iff the record has a response. */
  function ResponseSection(c: Config, response: Option<ResponseDetails>, pretty: Value -> string): (r: string)
    ensures r != "" <==> response.Some?
  {
    if response.Some? then
      ResponseOpening(response.value.statusCode) + ResponseBodyRow(c, response.value, pretty) + "</div>"
    else ""
  }

  /** The stack section: present iff there is a stack and stack traces are included. */
  function StackSection(c: Config, error: ErrorDetails): (r: string)
    ensures r != "" <==> Filled(error.stack) && c.errorMonitoring.includeStackTrace
  {
    if Filled(error.stack) && c.errorMonitoring.includeStackTrace then StackBlock(error.stack.value) else ""
  }

  /** The solutions list: present iff there are solutions, one item per solution in order. */
  function SolutionsList(a: AiSummary): (r: string)
    ensures r != "" <==> HasSolutions(a)
    ensures HasSolutions(a) ==> r == SolutionsOpening + Numbered(a.possibleSolutions.value, 1, SolutionItem) + "</ul>"
  {
    if HasSolutions(a) then SolutionsOpening + Numbered(a.possibleSolutions.value, 1, SolutionItem) + "</ul>" else ""
  }

  /** The confidence row: present iff the confidence is truthy, coloured by level and labelled in upper case. */
  function ConfidenceRow(a: AiSummary): (r: string)
    ensures r != "" <==> HasConfidence(a)
    ensures HasConfidence(a) ==>
              r == ConfidenceItem(ConfidenceColor(a.confidence.value), ToUpper(ConfidenceName(a.confidence.value)))
  {
    if HasConfidence(a) then
      ConfidenceItem(ConfidenceColor(a.confidence.value), ToUpper(ConfidenceName(a.confidence.value)))
    else ""
  }

  /** The AI section: present iff the record has a summary. */
  function AiSection(ai: Option<AiSummary>): (r: string)
    ensures r != "" <==> ai.Some?
  {
    if ai.Some? then AiOpening(ai.value.summary) + SolutionsList(ai.value) + ConfidenceRow(ai.value) + "</div>" else ""
  }

  /** `formatEmailMessage`'s HTML: the fixed opening, each section under its condition, the closing. */
  function EmailHtml(c: Config, record: ApiErrorModel, pretty: Value -> string): string {
    Opening(record) + MetadataRows(record.metadata) + "</div>"
    + RequestSection(c, record.request, pretty)
    + ResponseSection(c, record.response, pretty)
    + StackSection(c, record.error)
    + AiSection(record.aiSummary)
    + Closing
  }

  /** The HTML always starts with the error heading, whatever follows it. */
  lemma HtmlOpensWithHeading(c: Config, record: ApiErrorModel, pretty: Value -> string)
    ensures Opening(record) <= EmailHtml(c, record, pretty)
  {
    PrefixOfConcat(Opening(record), MetadataRows(record.metadata), "</div>",
                   RequestSection(c, record.request, pretty),
                   ResponseSection(c, record.response, pretty),
                   StackSection(c, record.error),
                   AiSection(record.aiSummary), Closing);
  }

  /** The HTML always ends with the closing footer, whatever precedes it. */
  lemma HtmlEndsWithFooter(c: Config, record: ApiErrorModel, pretty: Value -> string)
    ensures var html := EmailHtml(c, record, pretty);
            |html| >= |Closing| && html[|html| - |Closing|..] == Closing
  {
    var body := Opening(record) + MetadataRows(record.metadata) + "</div>"
                + RequestSection(c, record.request, pretty)
                + ResponseSection(c, record.response, pretty)
                + StackSection(c, record.error)
                + AiSection(record.aiSummary);
    assert EmailHtml(c, record, pretty) == body + Closing;
    SuffixAppended(body, Closing);
  }

  /** Every metadata entry gets its own row, in order: the `k`-th row sits between the rows before and after it. */
  lemma MetadataEntryShown(metadata: Metadata, k: nat)
    requires k < |metadata|
    ensures MetadataRows(Some(metadata))
            == Numbered(metadata[..k], 1, MetaItem) + MetaItem(metadata[k], k + 1)
               + Numbered(metadata[k + 1..], k + 2, MetaItem)
  {
    NumberedAt(metadata, 1, MetaItem, k);
  }

  class EmailService {
    const config: Config
    /** Whether the constructor created the mail transporter. */
    const hasTransporter: bool

    constructor(config: Config)
      ensures this.config == config
      ensures hasTransporter == EmailEnabled(config)
    {
      this.config := config;
      hasTransporter := EmailEnabled(config);
    }

    /** `sendAlert`: nothing unless email is enabled with a transporter; otherwise one mail, whose failure is only recorded. */
    method SendAlert(record: ApiErrorModel, pretty: Value -> string, send: Mail -> bool) returns (alert: Alert<Mail>)
      ensures !(EmailEnabled(config) && hasTransporter) ==> alert.Skipped?
      ensures EmailEnabled(config) && hasTransporter ==>
                var e := config.notifications.email.value;
                var mail := Mail(e.from, e.to, e.cc, Subject(config, record), EmailHtml(config, record, pretty));
                alert == Sent(mail, send(mail))
    {
      if !EmailEnabled(config) || !hasTransporter {
        return Skipped;
      }
      var subject, html := FormatEmailMessage(record, pretty);
      var e := config.notifications.email.value;
      var mail := Mail(e.from, e.to, e.cc, subject, html);
      alert := Sent(mail, send(mail));
    }

    /** `formatEmailMessage`: the subject, and the HTML appended section by section. */
    method FormatEmailMessage(record: ApiErrorModel, pretty: Value -> string) returns (subject: string, html: string)
      requires config.notifications.email.Some?
      ensures subject == Subject(config, record)
      ensures html == EmailHtml(config, record, pretty)
    {
      subject := FormatSubject(record);
      html := FormatHtml(record, pretty);
    }

    /** The subject line: the configured subject when it is non-empty, else the generated one. */
    method FormatSubject(record: ApiErrorModel) returns (subject: string)
      requires config.notifications.email.Some?
      ensures subject == Subject(config, record)
    {
      subject := Or(config.notifications.email.value.subject,
                    "[" + SubjectEnvironment(record.metadata) + "] API Error: "
                    + IntToString(record.error.statusCode) + " - " + record.error.name);
    }

    /** The HTML body, appended section by section. */
    method FormatHtml(record: ApiErrorModel, pretty: Value -> string) returns (html: string)
      ensures html == EmailHtml(config, record, pretty)
    {
      var summary := FormatSummary(record);
      var withRequest := AppendRequest(summary, record.request, pretty);
      var withResponse := AppendResponse(withRequest, record.response, pretty);
      var withStack := AppendStack(withResponse, record.error);
      var withAi := AppendAi(withStack, record.aiSummary);
      html := withAi + Closing;
    }

    /** The error heading and summary, with one row per metadata entry when there is metadata. */
    method FormatSummary(record: ApiErrorModel) returns (html: string)
      ensures html == Opening(record) + MetadataRows(record.metadata) + "</div>"
    {
      html := Opening(record);
      if record.metadata.Some? {
        html := AppendNumbered(html, record.metadata.value, 1, MetaItem);
      }
      assert html == Opening(record) + MetadataRows(record.metadata);
      html := html + "</div>";
    }

    /** The stack block, appended only when there is a stack and stack traces are included. */
    method AppendStack(out: string, error: ErrorDetails) returns (html: string)
      ensures html == out + StackSection(config, error)
    {
      var stack := "";
      if Filled(error.stack) && config.errorMonitoring.includeStackTrace {
        stack := StackBlock(error.stack.value);
      }
      assert stack == StackSection(config, error);
      html := out + stack;
    }

    /** The request details, each optional row appended only when its condition holds. */
    method AppendRequest(out: string, request: RequestDetails, pretty: Value -> string) returns (html: string)
      ensures html == out + RequestSection(config, request, pretty)
    {
      html := out + RequestOpening(request);
      ghost var added := RequestOpening(request);
      var params := "";
      if request.params.Some? && |request.params.value| > 0 {
        params := ParamsItem(pretty(Obj(request.params.value)));
      }
      assert params == ParamsRow(request, pretty);
      html := html + params;
      AppendAssoc(out, added, params);
      added := added + params;
      assert html == out + added;
      var query := "";
      if request.query.Some? && |request.query.value| > 0 {
        query := QueryItem(pretty(Obj(request.query.value)));
      }
      assert query == QueryRow(request, pretty);
      html := html + query;
      AppendAssoc(out, added, query);
      added := added + query;
      assert html == out + added;
      var body := "";
      if Truthy(request.body) && config.errorMonitoring.includeRequestBody {
        body := RequestBodyItem(pretty(request.body));
      }
      assert body == RequestBodyRow(config, request, pretty);
      html := html + body;
      AppendAssoc(out, added, body);
      added := added + body;
      assert html == out + added;
      html := html + "</div>";
      AppendAssoc(out, added, "</div>");
      added := added + "</div>";
      assert added == RequestSection(config, request, pretty);
    }

    /** The response details, appended only when there is a response. */
    method AppendResponse(out: string, response: Option<ResponseDetails>, pretty: Value -> string) returns (html: string)
      ensures html == out + ResponseSection(config, response, pretty)
    {
      html := out;
      if response.Some? {
        html := html + ResponseOpening(response.value.statusCode);
        ghost var head := html;
        if Truthy(response.value.body) && config.errorMonitoring.includeResponseBody {
          html := html + ResponseBodyItem(pretty(response.value.body));
        }
        assert html == head + ResponseBodyRow(config, response.value, pretty);
        html := html + "</div>";
        AppendAssoc(out, ResponseOpening(response.value.statusCode), ResponseBodyRow(config, response.value, pretty));
        AppendAssoc(out, ResponseOpening(response.value.statusCode) + ResponseBodyRow(config, response.value, pretty), "</div>");
      }
    }

    /** The AI analysis: the summary, the solutions list and the confidence row, each under its condition. */
    method AppendAi(out: string, ai: Option<AiSummary>) returns (html: string)
      ensures html == out + AiSection(ai)
    {
      html := out;
      if ai.Some? {
        var a := ai.value;
        html := html + AiOpening(a.summary);
        ghost var head := html;
        if a.possibleSolutions.Some? && |a.possibleSolutions.value| > 0 {
          html := html + SolutionsOpening;
          html := AppendNumbered(html, a.possibleSolutions.value, 1, SolutionItem);
          html := html + "</ul>";
          AppendAssoc(head, SolutionsOpening, Numbered(a.possibleSolutions.value, 1, SolutionItem));
          AppendAssoc(head, SolutionsOpening + Numbered(a.possibleSolutions.value, 1, SolutionItem), "</ul>");
        }
        assert html == head + SolutionsList(a);
        ghost var withSolutions := html;
        if a.confidence.Some? && ConfidenceName(a.confidence.value) != "" {
          var color := Green;
          if ConfidenceName(a.confidence.value) == "medium" {
            color := Orange;
          } else if ConfidenceName(a.confidence.value) == "low" {
            color := Red;
          }
          html := html + ConfidenceItem(color, ToUpper(ConfidenceName(a.confidence.value)));
        }
        assert html == withSolutions + ConfidenceRow(a);
        html := html + "</div>";
        AppendAssoc(out, AiOpening(a.summary), SolutionsList(a));
        AppendAssoc(out, AiOpening(a.summary) + SolutionsList(a), ConfidenceRow(a));
        AppendAssoc(out, AiOpening(a.summary) + SolutionsList(a) + ConfidenceRow(a), "</div>");
      }
    }
  }
}
