/**
 * The monitor's configuration (`ApiMonitorConfig`). Optional booleans are
 * plain `bool` (an absent flag is falsy); credentials, SMTP settings and the
 * OpenAI model parameters are not part of this model.
 */
module MonitorConfig {
  import opened Wrappers
  import opened ErrorModel

  /** `customErrorTransformer(error, request, response)`; `None` is a falsy result. */
  type Transformer = (ErrorDetails, RequestDetails, Option<ResponseDetails>) -> Option<Patch>

  datatype ErrorMonitoring = ErrorMonitoring(
    statusCodes: seq<int>,
    includeStackTrace: bool,
    includeRequestBody: bool,
    includeResponseBody: bool,
    includeHeaders: bool,
    excludePaths: Option<seq<string>>,
    customErrorTransformer: Option<Transformer>)

  datatype SlackConfig = SlackConfig(
    enabled: bool,
    webhookUrl: string,
    channel: Option<string>,
    username: Option<string>,
    iconEmoji: Option<string>,
    iconUrl: Option<string>)

  datatype EmailConfig = EmailConfig(
    enabled: bool,
    from: string,
    to: seq<string>,
    cc: Option<seq<string>>,
    subject: Option<string>)

  /** The `sms` or `whatsapp` part of the Twilio settings. */
  datatype Route = Route(from: string, to: seq<string>)

  datatype TwilioConfig = TwilioConfig(
    enabled: bool,
    sms: Option<Route>,
    whatsapp: Option<Route>)

  datatype WebhookConfig = WebhookConfig(
    enabled: bool,
    url: string,
    httpMethod: Option<string>,
    headers: Option<map<string, string>>)

  datatype Notifications = Notifications(
    slack: Option<SlackConfig>,
    email: Option<EmailConfig>,
    twilio: Option<TwilioConfig>,
    webhook: Option<WebhookConfig>)

  datatype AiSummarization = AiSummarization(enabled: bool, maxHistoryLength: Option<int>)

  datatype Config = Config(
    errorMonitoring: ErrorMonitoring,
    notifications: Notifications,
    aiSummarization: Option<AiSummarization>)

  /** `config.aiSummarization?.enabled`. */
  predicate AiEnabled(c: Config) {
    c.aiSummarization.Some? && c.aiSummarization.value.enabled
  }

  predicate SlackEnabled(c: Config) {
    c.notifications.slack.Some? && c.notifications.slack.value.enabled
  }

  predicate EmailEnabled(c: Config) {
    c.notifications.email.Some? && c.notifications.email.value.enabled
  }

  predicate TwilioEnabled(c: Config) {
    c.notifications.twilio.Some? && c.notifications.twilio.value.enabled
  }

  predicate WebhookEnabled(c: Config) {
    c.notifications.webhook.Some? && c.notifications.webhook.value.enabled
  }
}
