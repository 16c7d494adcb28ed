/**
 * The Slack channel (`SlackService`): the Block Kit message built from a
 * record and the POST to the incoming-webhook URL. The HTTP client is a
 * parameter that says whether the post succeeds; the current time is a
 * parameter.
 */
module Slack {
  import opened Wrappers
  import opened Strings
  import opened Js
  import opened ErrorModel
  import opened MonitorConfig

  /** A block of the message: a plain-text header, a mrkdwn section, or a divider. */
  datatype Block = Header(text: string) | Section(text: string) | Divider

  /** The posted message; the optional fields are `None` when not spread in. */
  datatype SlackMessage = SlackMessage(
    blocks: seq<Block>,
    color: string,
    footer: string,
    channel: Option<string>,
    username: Option<string>,
    iconEmoji: Option<string>,
    iconUrl: Option<string>)

  /** The stack block holds at most this many characters of the stack. */
  const MaxStack: nat := 2900

  const Red: string := "#FF0000"
  const Orange: string := "#FFA500"
  const Blue: string := "#36C5F0"

  /** The attachment colour: red for 5xx and above, orange for 4xx, blue below. */
  function StatusColor(statusCode: int): (color: string)
    ensures color == Red <==> statusCode >= 500
    ensures color == Orange <==> 400 <= statusCode < 500
    ensures color == Blue <==> statusCode < 400
  {
    if statusCode >= 500 then Red
    else if statusCode >= 400 then Orange
    else Blue
  }

  function HeaderText(e: ErrorDetails): string {
    "\U{1F6A8} API Error: " + IntToString(e.statusCode) + " " + e.name
  }

  function SummaryText(record: ApiErrorModel): string {
    "*Error:* " + record.error.message
    + "\n*Path:* `" + record.request.httpMethod + " " + record.request.url
    + "`\n*Time:* " + record.error.timestamp
  }

  /** One metadata entry as `*key:* value`. */
  function MetaLine(e: MetaEntry): string {
    "*" + e.key + ":* " + Show(e.value)
  }

  function MetaLines(m: Metadata): (r: seq<string>)
    ensures |r| == |m| && forall i :: 0 <= i < |m| ==> r[i] == MetaLine(m[i])
  {
    seq(|m|, i requires 0 <= i < |m| => MetaLine(m[i]))
  }

  function MetadataText(m: Metadata): string {
    "*Environment Information*\n" + Join(MetaLines(m), "\n")
  }

  /**
   * The metadata text lists every entry once, in order: read back line by
   * line it gives one `*key:* value` line per entry.
   */
  lemma MetadataLinesRecoverable(m: Metadata)
    requires |m| >= 1
    requires forall i :: 0 <= i < |m| ==> '\n' !in m[i].key && '\n' !in Show(m[i].value)
    ensures Split(Join(MetaLines(m), "\n"), '\n') == MetaLines(m)
  {
    var lines := MetaLines(m);
    forall k | 0 <= k < |lines|
      ensures '\n' !in lines[k]
    {
      assert lines[k] == "*" + m[k].key + ":* " + Show(m[k].value);
    }
    SplitJoin(lines, '\n');
  }

  /** The stack block: at most the first `MaxStack` characters of the stack, fenced. */
  function StackText(stack: string): (r: string)
    ensures r == "*Stack Trace*\n```" + stack[..Min(|stack|, MaxStack)] + "```"
    ensures |r| <= MaxStack + 20
  {
    "*Stack Trace*\n```" + Prefix(stack, MaxStack) + "```"
  }

  /** Solution `i` (from 0) as `i+1. solution`. */
  function NumberedItems(sols: seq<string>): (r: seq<string>)
    ensures |r| == |sols| && forall i :: 0 <= i < |sols| ==> r[i] == IntToString(i + 1) + ". " + sols[i]
  {
    seq(|sols|, i requires 0 <= i < |sols| => IntToString(i + 1) + ". " + sols[i])
  }

  /**
   * The solutions text reads back, line by line, as the solutions in order,
   * numbered from 1.
   */
  lemma SolutionLinesRecoverable(sols: seq<string>)
    requires |sols| >= 1
    requires forall i :: 0 <= i < |sols| ==> '\n' !in sols[i]
    ensures Split(Join(NumberedItems(sols), "\n"), '\n') == NumberedItems(sols)
  {
    var items := NumberedItems(sols);
    forall k | 0 <= k < |items|
      ensures '\n' !in items[k]
    {
      NatToStringDigits(k + 1);
      assert items[k] == NatToString(k + 1) + ". " + sols[k];
    }
    SplitJoin(items, '\n');
  }

  /** The AI block: the summary, then the numbered solutions when there are any. */
  function AiText(a: AiSummary): string {
    "*AI Analysis*\n" + a.summary
    + (if HasSolutions(a) then "\n\n*Possible Solutions*:\n" + Join(NumberedItems(a.possibleSolutions.value), "\n") else "")
  }

  /** `[x]` when `present`, nothing otherwise. */
  function Optional(present: bool, x: Block): (r: seq<Block>)
    ensures |r| <= 1 && (r != [] <==> present)
  {
    if present then [x] else []
  }

  function Footer(statusCode: int, now: string): string {
    "Sent by NestJS API Monitor | Status: " + IntToString(statusCode) + " | " + now
  }

  /** `...(value && { key: value })`: the field is present iff the configured string is non-empty. */
  function Spread(value: Option<string>): (r: Option<string>)
    ensures r.Some? <==> Filled(value)
    ensures r.Some? ==> r == value
  {
    if Filled(value) then value else None
  }

  /**
   * The message `formatSlackMessage` builds: header, summary and divider come
   * first; then the metadata, stack and AI blocks, each present only under its
   * condition; the colour by status class; the optional fields only when
   * configured.
   */
  ghost predicate SlackMessageFor(c: Config, record: ApiErrorModel, now: string, message: SlackMessage)
    requires c.notifications.slack.Some?
  {
    && |message.blocks| >= 3
    && message.blocks[0] == Header(HeaderText(record.error))
    && message.blocks[1] == Section(SummaryText(record))
    && message.blocks[2] == Divider
    && message.blocks[3..]
       == Optional(record.metadata.Some?, Section(MetadataText(record.metadata.GetOr([]))))
          + Optional(Filled(record.error.stack) && c.errorMonitoring.includeStackTrace,
                     Section(StackText(record.error.stack.GetOr(""))))
          + Optional(record.aiSummary.Some?, Section(AiText(record.aiSummary.GetOr(AiSummary("", None, None)))))
    && message.color == StatusColor(record.error.statusCode)
    && message.footer == Footer(record.error.statusCode, now)
    && var s := c.notifications.slack.value;
       && (message.channel.Some? <==> Filled(s.channel)) && (message.channel.Some? ==> message.channel == s.channel)
       && (message.username.Some? <==> Filled(s.username)) && (message.username.Some? ==> message.username == s.username)
       && (message.iconEmoji.Some? <==> Filled(s.iconEmoji)) && (message.iconEmoji.Some? ==> message.iconEmoji == s.iconEmoji)
       && (message.iconUrl.Some? <==> Filled(s.iconUrl)) && (message.iconUrl.Some? ==> message.iconUrl == s.iconUrl)
  }

  class SlackService {
    const config: Config

    constructor(config: Config)
      ensures this.config == config
    {
      this.config := config;
    }

    /** `sendAlert`: nothing when Slack is disabled; otherwise one post of the message, whose failure is only recorded. */
    method SendAlert(record: ApiErrorModel, now: string, post: (string, SlackMessage) -> bool)
      returns (alert: Alert<(string, SlackMessage)>)
      ensures !SlackEnabled(config) ==> alert.Skipped?
      ensures SlackEnabled(config) ==>
                && alert.Sent?
                && alert.request.0 == config.notifications.slack.value.webhookUrl
                && SlackMessageFor(config, record, now, alert.request.1)
                && alert.delivered == post(alert.request.0, alert.request.1)
    {
      if !SlackEnabled(config) {
        return Skipped;
      }
      var message := FormatSlackMessage(record, now);
      var url := config.notifications.slack.value.webhookUrl;
      alert := Sent((url, message), post(url, message));
    }

    /** `formatSlackMessage`: the message `SlackMessageFor` describes. */
    method FormatSlackMessage(record: ApiErrorModel, now: string) returns (message: SlackMessage)
      requires config.notifications.slack.Some?
      ensures SlackMessageFor(config, record, now, message)
    {
      var blocks := FormatBlocks(record);
      var error := record.error;
      var s := config.notifications.slack.value;
      message := SlackMessage(
        blocks,
        StatusColor(error.statusCode),
        "Sent by NestJS API Monitor | Status: " + IntToString(error.statusCode) + " | " + now,
        Spread(s.channel), Spread(s.username), Spread(s.iconEmoji), Spread(s.iconUrl));
    }

    /** The `blocks` array: three fixed blocks, then one push per present section. */
    method FormatBlocks(record: ApiErrorModel) returns (blocks: seq<Block>)
      ensures |blocks| >= 3
      ensures blocks[..3] == [Header(HeaderText(record.error)), Section(SummaryText(record)), Divider]
      ensures blocks[3..]
              == Optional(record.metadata.Some?, Section(MetadataText(record.metadata.GetOr([]))))
                 + Optional(Filled(record.error.stack) && config.errorMonitoring.includeStackTrace,
                            Section(StackText(record.error.stack.GetOr(""))))
                 + Optional(record.aiSummary.Some?, Section(AiText(record.aiSummary.GetOr(AiSummary("", None, None)))))
    {
      var error := record.error;
      blocks := [Header(HeaderText(error)), Section(SummaryText(record)), Divider];
      if record.metadata.Some? {
        blocks := blocks + [Section(MetadataText(record.metadata.value))];
      }
      ghost var upToMetadata := blocks;
      if Filled(error.stack) && config.errorMonitoring.includeStackTrace {
        blocks := blocks + [Section(StackText(error.stack.value))];
      }
      ghost var upToStack := blocks;
      if record.aiSummary.Some? {
        var summaryText := FormatAiText(record.aiSummary.value);
        blocks := blocks + [Section(summaryText)];
      }
      assert upToMetadata[3..] == Optional(record.metadata.Some?, Section(MetadataText(record.metadata.GetOr([]))));
      assert upToStack[3..] == upToMetadata[3..]
        + Optional(Filled(error.stack) && config.errorMonitoring.includeStackTrace, Section(StackText(error.stack.GetOr(""))));
      assert blocks[3..] == upToStack[3..]
        + Optional(record.aiSummary.Some?, Section(AiText(record.aiSummary.GetOr(AiSummary("", None, None)))));
    }

    /** `summaryText`: the summary, then the numbered solutions when there are any. */
    method FormatAiText(ai: AiSummary) returns (summaryText: string)
      ensures summaryText == AiText(ai)
    {
      summaryText := "*AI Analysis*\n" + ai.summary;
      if ai.possibleSolutions.Some? && |ai.possibleSolutions.value| > 0 {
        summaryText := summaryText + "\n\n*Possible Solutions*:\n";
        summaryText := summaryText + Join(NumberedItems(ai.possibleSolutions.value), "\n");
      }
    }
  }
}
