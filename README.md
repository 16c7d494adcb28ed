# NestJS API Monitor — a verified model of the error pipeline

The NestJS API monitor watches HTTP exchanges in a NestJS application. When a
response carries one of the configured status codes, the monitor does four
things:

- it builds an error record;
- it keeps a bounded history of recent records;
- it may ask an OpenAI model for a diagnosis;
- it sends the record to every enabled notification channel (Slack, email,
  Twilio SMS and WhatsApp, and a generic webhook).

This project models that core in Dafny and proves what each part promises.

- `error_model.dfy`, `monitor_config.dfy`, `js_values.dfy`: the record, the
  configuration and the JavaScript values they carry. `js_values.dfy` also
  gives JavaScript truthiness and the rendering of a value inside a template
  literal.
- `strings.dfy`: the JavaScript string operations the services use, with
  their contracts: `slice`, `substring`, `includes`, `join`/`split`,
  `toLowerCase`/`toUpperCase` and number formatting. It also has `Numbered`,
  a numbered concatenation used by every `forEach` that appends one line per
  item.
- `monitor_service.dfy`: `ApiMonitorService`, a class whose `errorHistory`
  field is updated in place. `Valid()` bounds the history by the configured
  maximum. A ghost log records every call made into the collaborators.
- `middleware.dfy`: `ApiMonitorMiddleware.use`. Express's `res` is an
  `Exchange` object and `next` is a `Continuation` object. The
  `send`/`json` overrides and the `finish` listener are modelled as layers
  installed on `res`.
- `openai.dfy`, `webhook.dfy`, `slack.dfy`, `twilio.dfy`, `email.dfy`: one
  service class each, with its guard and its message builder. Each builder
  is a method that appends section by section, as the source does. It is
  proved equal to a specification function, and each section's
  presence-condition is proved about that function.

The environment and the outside world are parameters:

- **Environment values:** `process.env` values, the current time and
  `toLocaleString` of a timestamp.
- **JSON:** `JSON.parse` is a partial function returning `Option`;
  `JSON.stringify` is a function.
- **Transports:** the OpenAI chat call, axios, nodemailer and the Twilio
  client are functions that report success or failure.
- **Record identity:** each record carries a unique `id` allocated by the
  service. JavaScript object identity, used by the history filter of the
  prompt builder, is compared through that `id`.

The history scenario follows the code. Three errors with a maximum of two
leave errors 2 and 3 in the history, and the summarizer sees the history that
already ends with the current error, because the push happens before the
call (`ThreeErrorsKeepLastTwo`, `AnalysisSeesPreviousErrors`).

## Model

| member | source | states |
|---|---|---|
| MonitorService.DefaultMetadata | src/services/api-monitor.service.ts:41-45 | the default metadata has exactly three entries: environment = NODE_ENV or "development", service = SERVICE_NAME or "api", version = APP_VERSION or "1.0.0" |
| MonitorService.TransformerOverrides | src/services/api-monitor.service.ts:48-59 | a falsy transformer result leaves the record as built; a truthy one replaces each top-level key it carries, so a returned `metadata` replaces the whole default metadata; keys it does not carry keep their built values |
| MonitorService.MaxHistory | src/services/api-monitor.service.ts:131 | the effective maximum is `maxHistoryLength` when it is non-zero, and 5 when it is absent or 0 |
| MonitorService.HistoryAfterPush | src/services/api-monitor.service.ts:126-135 | with a positive maximum M, pushing r and trimming leaves min(old length + 1, M) records: the last ones of old ++ [r], with r last |
| MonitorService.TrimKeepsBound | src/services/api-monitor.service.ts:126-135 | a history within capacity stays within capacity after push and trim; with a negative maximum it becomes empty |
| MonitorService.ReplayKeepsLast | src/services/api-monitor.service.ts:126-135 | after N records with a positive maximum M, the history is exactly the last min(N, M) records, oldest first |
| MonitorService.PushKeepsSuffix | src/services/api-monitor.service.ts:126-135 | if the history holds the last min(n, M) of n records, one more push and trim leaves the last min(n + 1, M) |
| MonitorService.ThreeErrorsKeepLastTwo | src/services/api-monitor.service.spec.ts:206-234 | three errors with maximum 2 leave [second, third] |
| MonitorService.ChannelsUpToExact | src/services/api-monitor.service.ts:87-111 | a channel is among the first k candidates started iff it is one of those k and enabled with its service injected; no channel appears twice |
| MonitorService.EnabledChannelsExact | src/services/api-monitor.service.ts:84-111 | exactly the enabled-and-injected channels are called, each once; SMS needs `sms` config and WhatsApp needs `whatsapp` config |
| MonitorService.ApiMonitorService.constructor | src/services/api-monitor.service.ts:16-26 | the service starts with an empty history and no calls made |
| MonitorService.ApiMonitorService.UpdateErrorHistory | src/services/api-monitor.service.ts:126-135 | the new history is the trim of old history ++ [record] under the effective maximum, and `Valid()` (length within capacity, ids increasing) is preserved |
| MonitorService.ApiMonitorService.ChannelList | src/services/api-monitor.service.ts:87-111 | the conditional pushes produce exactly the enabled channels, in order |
| MonitorService.ApiMonitorService.SendNotifications | src/services/api-monitor.service.ts:84-121 | one alert call per enabled channel, in Slack, email, SMS, WhatsApp, webhook order, all with the same record; one outcome per channel, and a failed channel stops nothing |
| MonitorService.ApiMonitorService.AttachSummary | src/services/api-monitor.service.ts:64-75 | the summary is attached iff AI is enabled, the service is injected and the call resolves; a rejected call leaves the record unchanged; the history's last entry is the same record and so carries the summary too |
| MonitorService.ApiMonitorService.ReplaceLast | src/services/api-monitor.service.ts:70 | the history's last entry becomes the enriched record, everything before it is kept, and `Valid()` is preserved |
| MonitorService.ApiMonitorService.BuildRecord | src/services/api-monitor.service.ts:36-59 | the record is the built record with the transformer's result merged in; the transformer is called iff one is configured |
| MonitorService.ApiMonitorService.ProcessError | src/services/api-monitor.service.ts:31-79 | the record gets a fresh id and is built, transformed, pushed, enriched and sent; the summarizer is called with the trimmed history that ends with the record; the channels receive the enriched record; the call log is transformer, then analysis, then alerts |
| MonitorService.TrimLastReplaced | src/services/api-monitor.service.ts:62-71 | attaching the summary to the pushed record replaces the history's last entry and nothing else |
| MonitorService.IdsAfterPush | src/services/api-monitor.service.ts:126-135 | pushing a newer record and trimming keeps the history's ids increasing and below the next id |
| MonitorService.AnalysisSeesPreviousErrors | src/services/api-monitor.service.ts:62-70 | the history handed to the summarizer ends with the current record; the prompt lists the up to five records kept before it; the history section appears iff an earlier record was kept (old history non-empty and maximum at least 2) |
| Middleware.ExcludedIffOccurs | src/middleware/api-monitor.middleware.ts:16-22 | a URL is excluded iff some exclude path occurs in it at some position; an absent list excludes nothing |
| Middleware.SanitizeHeaders | src/middleware/api-monitor.middleware.ts:99-121 | the result has the same keys; each of the five sensitive headers with a truthy value becomes "[REDACTED]"; every other entry is unchanged; the input map is a value and is not modified |
| Middleware.ParsedBody | src/middleware/api-monitor.middleware.ts:64-75 | a string body becomes its parsed JSON when it parses, and stays the raw string otherwise; other bodies pass through |
| Middleware.OnFinish | src/middleware/api-monitor.middleware.ts:59-92 | `processError` is called iff the final status is in `statusCodes`; the error is named "ApiError", has message "HTTP code - method url", the final status and the URL as path; the request is the snapshot; the response body is the parsed body only when `includeResponseBody` is set |
| Middleware.Exchange.Send | src/middleware/api-monitor.middleware.ts:47-50 | every installed wrapper records the body, and the original `send` receives the identical body |
| Middleware.Exchange.Json | src/middleware/api-monitor.middleware.ts:53-56 | every installed wrapper records the body, and the original `json` receives the identical body |
| Middleware.Exchange.Finish | src/middleware/api-monitor.middleware.ts:59-94 | each finish listener runs once, in registration order, making the calls `OnFinish` describes |
| Middleware.ApiMonitorMiddleware.constructor | src/middleware/api-monitor.middleware.ts:8-12 | the middleware keeps the monitoring configuration |
| Middleware.ApiMonitorMiddleware.Use | src/middleware/api-monitor.middleware.ts:14-97 | `next` is called exactly once; an excluded URL installs nothing; otherwise one layer is installed, holding the request snapshot (body only with `includeRequestBody`, sanitized headers only with `includeHeaders`), the status allowlist and no captured body yet |
| OpenAi.ReplyText | src/services/openai.service.ts:61 | empty or missing content reads as "{}"; non-empty content is used as is |
| OpenAi.SolutionsOf | src/services/openai.service.ts:66 | an array of solutions gives one string per element, in order |
| OpenAi.Interpret | src/services/openai.service.ts:60-72 | a failed call or unparsable content gives exactly the failure summary with no other fields; otherwise the summary, solutions and confidence come from the reply with the defaults "Unable to generate summary", [] and medium |
| OpenAi.EmptyReplyDefaults | src/services/openai.service.ts:61-68 | an empty reply yields {"Unable to generate summary", [], medium} |
| OpenAi.StackSection | src/services/openai.service.ts:103-108 | the stack section appears iff there is a stack and `includeStackTrace` is set |
| OpenAi.FieldsLine | src/services/openai.service.ts:112-123 | the Parameters/Query line appears iff the map is present and non-empty |
| OpenAi.RequestBodyLine | src/services/openai.service.ts:124-129 | the request body line appears iff the body is truthy and `includeRequestBody` is set |
| OpenAi.ResponseSection | src/services/openai.service.ts:132-139 | the response body line appears iff there is a truthy response body and `includeResponseBody` is set |
| OpenAi.Others | src/services/openai.service.ts:147 | the filter keeps exactly the history entries that are not the current record, in order |
| OpenAi.OthersOfPushed | src/services/openai.service.ts:146-147 | filtering out the current record from old ++ [current] gives old back |
| OpenAi.RecentErrors | src/services/openai.service.ts:146-148 | the listed errors are the last min(n, 5) of the filtered history, none of them the current record |
| OpenAi.HistorySection | src/services/openai.service.ts:142-157 | the history section appears iff the history holds more than one record, and then starts with its title |
| OpenAi.PreviousErrorNumbered | src/services/openai.service.ts:150-156 | the k-th listed error is entry number k + 1, after the entries of those before it |
| OpenAi.OpenAiService.constructor | src/services/openai.service.ts:11-20 | the client exists iff AI summarization is enabled |
| OpenAi.OpenAiService.AnalyzeError | src/services/openai.service.ts:25-73 | without AI or a client the result is exactly the "not available" summary and nothing is sent; otherwise the prompt is sent and the reply is interpreted as `Interpret` states |
| OpenAi.OpenAiService.BuildErrorAnalysisPrompt | src/services/openai.service.ts:78-160 | the prompt built by appends equals the header, the gated detail sections and the history section with the numbered recent errors |
| OpenAi.OpenAiService.AppendDetails | src/services/openai.service.ts:102-139 | the appended detail lines are exactly the gated stack, parameters, query, request body and response body sections, in order |
| Webhook.VerbOf | src/services/webhook.service.ts:23-49 | an absent method posts; get, put, patch and delete select their calls; anything else posts |
| Webhook.VerbIgnoresCase | src/services/webhook.service.ts:23 | the method is read without regard to letter case |
| Webhook.CarrierOf | src/services/webhook.service.ts:31-49 | the payload travels as params iff the call is GET, as `data` iff it is DELETE, and as the body otherwise |
| Webhook.WebhookService.SendAlert | src/services/webhook.service.ts:16-53 | a disabled webhook sends nothing; otherwise exactly one call with the chosen method, the URL, the configured headers (or none) and the formatted payload; its failure is only recorded |
| Webhook.WebhookService.FormatWebhookPayload | src/services/webhook.service.ts:58-124 | path falls back to the URL; metadata falls back to {environment: NODE_ENV or "development"}; stack, body and headers need the value and their include flag; ip needs a value; params and query need a non-empty map; response iff present, its body also needing `includeResponseBody`; the summary is copied iff present |
| Webhook.WebhookService.FormatErrorPart | src/services/webhook.service.ts:62-88 | the error part copies the fixed fields, falls back to the URL for the path, and carries the stack iff there is one and `includeStackTrace` is set |
| Webhook.WebhookService.FormatRequestPart | src/services/webhook.service.ts:70-105 | the request part copies the fixed fields and carries ip, body, headers, params and query each iff its condition holds |
| Webhook.WebhookService.FormatResponsePart | src/services/webhook.service.ts:107-116 | the response part is present iff the record has a response, with its body iff included and truthy |
| Slack.StatusColor | src/services/slack.service.ts:107-112 | red iff status ≥ 500, orange iff 400 ≤ status < 500, blue iff status < 400 |
| Slack.MetaLines | src/services/slack.service.ts:62-64 | one "*key:* value" line per metadata entry, in order |
| Slack.MetadataLinesRecoverable | src/services/slack.service.ts:61-73 | the joined metadata text splits back into exactly one line per entry |
| Slack.StackText | src/services/slack.service.ts:76-84 | the stack block holds the first min(n, 2900) characters of the stack, fenced, and is bounded in length |
| Slack.NumberedItems | src/services/slack.service.ts:92-94 | solution i is rendered as "i+1. solution" |
| Slack.SolutionLinesRecoverable | src/services/slack.service.ts:90-95 | the joined solutions text splits back into the numbered solutions, in order |
| Slack.Spread | src/services/slack.service.ts:135-146 | an optional field is present iff configured non-empty, carrying the configured value |
| Slack.SlackService.SendAlert | src/services/slack.service.ts:16-30 | a disabled Slack sends nothing; otherwise one post to the webhook URL of the message `SlackMessageFor` describes (blocks, colour, footer and optional fields); its failure is only recorded |
| Slack.SlackService.FormatBlocks | src/services/slack.service.ts:38-104 | three fixed blocks first, then the metadata, stack and AI blocks, each iff its condition holds, in that order |
| Slack.SlackService.FormatAiText | src/services/slack.service.ts:87-95 | the AI block text is the summary, followed by the numbered solutions iff there are any |
| Slack.SlackService.FormatSlackMessage | src/services/slack.service.ts:35-148 | header, summary and divider come first; then the metadata, stack and AI blocks, each iff its condition holds, in that order; the colour by status class; the footer; the four optional fields iff configured |
| Twilio.Messages | src/services/twilio.service.ts:41-49 | one message per recipient, in order, each with the same body and sender |
| Twilio.Truncated | src/services/twilio.service.ts:105-109 | a summary of at most 100 characters is kept whole; a longer one keeps its first 100 characters followed by "..." |
| Twilio.EnvLine | src/services/twilio.service.ts:100-102 | the "Env:" line appears iff `metadata.environment` is truthy |
| Twilio.AiLine | src/services/twilio.service.ts:104-109 | the SMS AI line appears iff the summary is non-empty, and carries it truncated |
| Twilio.MetaSection | src/services/twilio.service.ts:126-132 | the WhatsApp environment section appears iff there is metadata |
| Twilio.MetaEntryShown | src/services/twilio.service.ts:127-131 | the k-th metadata entry has its own line, after the heading and between the lines before and after it |
| Twilio.SolutionsPart | src/services/twilio.service.ts:138-143 | the solutions part appears iff there are solutions |
| Twilio.AiSection | src/services/twilio.service.ts:134-144 | the WhatsApp AI section appears iff there is a summary |
| Twilio.TwilioService.constructor | src/services/twilio.service.ts:11-21 | the client exists iff Twilio is enabled |
| Twilio.TwilioService.SendSmsAlert | src/services/twilio.service.ts:26-53 | nothing unless Twilio is enabled, a client exists and SMS is configured; otherwise the SMS text goes to every recipient, and the alert succeeds iff every message is accepted |
| Twilio.TwilioService.SendWhatsAppAlert | src/services/twilio.service.ts:58-85 | nothing unless Twilio is enabled, a client exists and WhatsApp is configured; otherwise the WhatsApp text goes to every recipient, and the alert succeeds iff every message is accepted |
| Twilio.TwilioService.FormatSmsMessage | src/services/twilio.service.ts:90-112 | the SMS built by appends starts with the four fixed lines, then the gated Env and AI lines |
| Twilio.TwilioService.FormatWhatsAppMessage | src/services/twilio.service.ts:117-148 | the WhatsApp text built by appends has one line per metadata entry and solutions numbered from 1, and always ends with the footer |
| Email.SubjectEnvironment | src/services/email.service.ts:63 | a truthy `metadata.environment` is shown as the subject's environment; without metadata, or without a truthy environment, it is "PROD" |
| Email.Subject | src/services/email.service.ts:61-65 | a non-empty configured subject is used; otherwise "[env] API Error: code - name" |
| Email.SubjectDefaultsToProd | src/services/email.service.ts:61-65 | with no subject and no truthy environment in the metadata, the subject starts "[PROD] API Error: " |
| Email.ConfidenceColor | src/services/email.service.ts:179-186 | orange iff the confidence is "medium", red iff "low", green otherwise |
| Email.MetadataRows | src/services/email.service.ts:84-89 | one row per metadata entry, in order; nothing without metadata |
| Email.MetadataEntryShown | src/services/email.service.ts:85-89 | the k-th metadata entry has its own row between the rows before and after it |
| Email.ParamsRow | src/services/email.service.ts:103-109 | the parameters row appears iff the parameters are present and non-empty |
| Email.QueryRow | src/services/email.service.ts:112-118 | the query row appears iff the query is present and non-empty |
| Email.RequestBodyRow | src/services/email.service.ts:121-128 | the request body appears iff the body is truthy and `includeRequestBody` is set |
| Email.ResponseBodyRow | src/services/email.service.ts:141-148 | the response body appears iff the body is truthy and `includeResponseBody` is set |
| Email.ResponseSection | src/services/email.service.ts:133-151 | the response section appears iff the record has a response |
| Email.StackSection | src/services/email.service.ts:154-161 | the stack section appears iff there is a stack and `includeStackTrace` is set |
| Email.SolutionsList | src/services/email.service.ts:171-177 | the solutions list appears iff there are solutions, with one item per solution in order |
| Email.ConfidenceRow | src/services/email.service.ts:179-193 | the confidence row appears iff the confidence is truthy, coloured by level and labelled in upper case |
| Email.AiSection | src/services/email.service.ts:164-196 | the AI section appears iff the record has a summary |
| Email.HtmlOpensWithHeading | src/services/email.service.ts:68-82 | whatever the record holds, the HTML starts with the error heading and summary |
| Email.HtmlEndsWithFooter | src/services/email.service.ts:198-204 | whatever the record holds, the HTML ends with the closing footer |
| Email.EmailService.constructor | src/services/email.service.ts:11-26 | the transporter exists iff email is enabled |
| Email.EmailService.SendAlert | src/services/email.service.ts:31-49 | nothing unless email is enabled and a transporter exists; otherwise exactly one mail with the configured from, to and cc, the subject and the HTML; its failure is only recorded |
| Email.EmailService.FormatEmailMessage | src/services/email.service.ts:54-207 | the subject is `Subject` and the HTML built by appends is the opening, the metadata rows, and the request, response, stack and AI sections, each gated, then the closing |
| Email.EmailService.FormatSubject | src/services/email.service.ts:61-65 | the subject computed is the one `Subject` states |
| Email.EmailService.FormatHtml | src/services/email.service.ts:68-204 | the HTML built by appends is the opening, the metadata rows, and the request, response, stack and AI sections, each gated, then the closing |
| Email.EmailService.FormatSummary | src/services/email.service.ts:68-91 | the heading and summary, one row per metadata entry in order when there is metadata, then the closing tag |
| Email.EmailService.AppendRequest | src/services/email.service.ts:93-130 | the request section appended is the opening and each gated row, in order |
| Email.EmailService.AppendResponse | src/services/email.service.ts:132-151 | the response section is appended iff there is a response, with its gated body |
| Email.EmailService.AppendStack | src/services/email.service.ts:154-161 | the stack block is appended iff there is a stack and `includeStackTrace` is set |
| Email.EmailService.AppendAi | src/services/email.service.ts:163-196 | the AI section is appended iff there is a summary, with the gated solutions list and confidence row; the colour is chosen by reassignment in branches |

## Left out

- Transports and their failures: the OpenAI chat API, axios, nodemailer and
  the Twilio client are function parameters that report success or failure.
  Their exceptions are the failure outcome, which is recorded and never
  propagated. Console logging is not modelled.
- Asynchrony: `Promise.all` and the un-awaited `processError` call in the
  middleware are modelled sequentially, in the order the promises are
  created.
- The OpenAI request parameters (model, `max_tokens`, the floating-point
  `temperature`) and the system message are not modelled; only the user
  prompt is.
- `JSON.stringify` is a parameter, so its output format and its exceptions
  on cyclic values are not modelled. `JSON.parse` is a partial function
  parameter.
- Dates: `new Date().toISOString()` and `toLocaleString()` are parameters.
- `process.env` values are parameters.
- Letter case: `toLowerCase` and `toUpperCase` map ASCII letters only.
- String lengths: `slice`, `substring` and `length` count Unicode scalar
  values, not UTF-16 code units.
- Object order: object entries keep their insertion order. JavaScript's rule
  that integer-like keys come first is not modelled.
- OpenAi.SolutionsOf: a `possibleSolutions` value that is not an array reads
  as no solutions. The source passes any truthy non-array value through
  unchanged. When such a value has a truthy `length` (a non-empty string, or
  an object with a truthy `length` key), the Slack builder's `map`, the email
  builder's `forEach` and the WhatsApp builder's `forEach` throw inside their
  channel's `try`. So the source sends no Slack, email or WhatsApp message
  for that record; the model sends one without solutions. The webhook payload
  in the source carries the raw value, where the model carries an empty list.
- Middleware.Exchange.Json: Express's own `res.json` serialises the body and
  calls the overridden `send`, so the source records the serialised string
  and parses it back when the response finishes. The model records the value
  itself. The two agree up to a JSON round trip; this re-entry through the
  framework is not modelled.
- OpenAi.Interpret: a reply whose `summary` or `confidence` is not a string
  is rendered through the template-literal rendering of the value. In the
  source such a value later throws in the SMS builder (`substring`) or the
  email builder (`toUpperCase`), so no SMS or email is sent for that record;
  the model sends one.
- A client constructor that throws (OpenAI or Twilio with bad credentials)
  is not modelled; a client exists exactly when its channel is enabled.
- MonitorService.TransformerOverrides: only the five known top-level keys of
  a transformer's result are merged. A result that throws, that is truthy
  but not an object, or that carries other keys is not modelled.
- Middleware.OnFinish, Middleware.ApiMonitorMiddleware.Use: the error's
  message and path use the request method and URL as they were when `use`
  ran. The source reads the live `req.method` and `req.url` when the response
  finishes, so a later middleware that rewrites them changes the error; that
  aliasing is not modelled.
- The module wiring (`forRoot`/`forRootAsync`) and the compiled `dist`
  copies are not part of this model.
