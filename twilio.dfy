/**
 * The Twilio channels (`TwilioService`): the SMS and WhatsApp texts built from
 * a record and one message per recipient. The messaging client is a
 * parameter that says whether each message is accepted; `toLocaleString` of
 * the error's timestamp is a parameter.
 */
module Twilio {
  import opened Wrappers
  import opened Strings
  import opened Js
  import opened ErrorModel
  import opened MonitorConfig

  /** One `client.messages.create({ body, from, to })` call. */
  datatype TwilioMessage = TwilioMessage(body: string, from: string, to: string)

  /** `to.map(recipient => ...)`: one message per recipient, in order, all with the same body and sender. */
  function Messages(body: string, from: string, to: seq<string>): (r: seq<TwilioMessage>)
    ensures |r| == |to|
    ensures forall i :: 0 <= i < |to| ==> r[i] == TwilioMessage(body, from, to[i])
  {
    seq(|to|, i requires 0 <= i < |to| => TwilioMessage(body, from, to[i]))
  }

  /** `Promise.all` resolves iff every message is accepted. */
  predicate AllAccepted(msgs: seq<TwilioMessage>, create: TwilioMessage -> bool) {
    forall i | 0 <= i < |msgs| :: create(msgs[i])
  }

  /** The SMS keeps at most this many characters of the AI summary. */
  const MaxSummary: nat := 100

  /** `summary.substring(0, 100)` followed by "..." iff the summary is longer than 100. */
  function Truncated(summary: string): (r: string)
    ensures |summary| <= MaxSummary ==> r == summary
    ensures |summary| > MaxSummary ==> |r| == MaxSummary + 3 && r[..MaxSummary] == summary[..MaxSummary]
                                       && r[MaxSummary..] == "..."
  {
    Prefix(summary, MaxSummary) + (if |summary| > MaxSummary then "..." else "")
  }

  /** The four lines every SMS starts with. */
  function SmsBase(record: ApiErrorModel, localize: string -> string): string {
    "\U{26A0}\U{FE0F} API Error: " + IntToString(record.error.statusCode) + " " + record.error.name + "\n"
    + "Message: " + record.error.message + "\n"
    + "Endpoint: " + record.request.httpMethod + " " + record.request.url + "\n"
    + "Time: " + localize(record.error.timestamp) + "\n"
  }

  /** The "Env:" line: present iff the metadata has a truthy environment. */
  function EnvLine(metadata: Option<Metadata>): (r: string)
    ensures r != "" <==> HasEnvironment(metadata)
    ensures r != "" ==> r == "Env: " + Show(EnvironmentOf(metadata).value) + "\n"
  {
    var env := EnvironmentOf(metadata);
    if env.Some? && Truthy(env.value) then "Env: " + Show(env.value) + "\n" else ""
  }

  /** The AI line: present iff there is a non-empty summary, which it carries truncated. */
  function AiLine(ai: Option<AiSummary>): (r: string)
    ensures r != "" <==> ai.Some? && ai.value.summary != ""
    ensures r != "" ==> r == "\nAI Analysis: " + Truncated(ai.value.summary) + "\n"
  {
    if ai.Some? && ai.value.summary != "" then "\nAI Analysis: " + Truncated(ai.value.summary) + "\n" else ""
  }

  function SmsText(record: ApiErrorModel, localize: string -> string): string {
    SmsBase(record, localize) + EnvLine(record.metadata) + AiLine(record.aiSummary)
  }

  /** The WhatsApp heading and the four detail lines. */
  function WhatsAppBase(record: ApiErrorModel, localize: string -> string): string {
    "*\U{1F6A8} API Error: " + IntToString(record.error.statusCode) + " " + record.error.name + "*\n\n"
    + "*Error Message:* " + record.error.message + "\n"
    + "*Endpoint:* " + record.request.httpMethod + " " + record.request.url + "\n"
    + "*Time:* " + localize(record.error.timestamp) + "\n"
  }

  /** One metadata entry as a WhatsApp line (the index is not shown). */
  function MetaRow(e: MetaEntry, n: int): string {
    "- *" + e.key + ":* " + Show(e.value) + "\n"
  }

  /** Solution number `n`. */
  function SolutionRow(s: string, n: int): string {
    IntToString(n) + ". " + s + "\n"
  }

  const MetaHeading: string := "\n*Environment Information:*\n"

  /** The environment section: present iff there is metadata, one line per entry. */
  function MetaSection(metadata: Option<Metadata>): (r: string)
    ensures r != "" <==> metadata.Some?
  {
    if metadata.Some? then MetaHeading + Numbered(metadata.value, 1, MetaRow) else ""
  }

  /** Every metadata entry gets its own line, in order: the `k`-th line sits between the lines before and after it. */
  lemma MetaEntryShown(metadata: Metadata, k: nat)
    requires k < |metadata|
    ensures MetaSection(Some(metadata))
            == MetaHeading + (Numbered(metadata[..k], 1, MetaRow) + MetaRow(metadata[k], k + 1)
                              + Numbered(metadata[k + 1..], k + 2, MetaRow))
  {
    NumberedAt(metadata, 1, MetaRow, k);
  }

  /** The solutions part of the AI section: present iff there are solutions, numbered from 1. */
  function SolutionsPart(a: AiSummary): (r: string)
    ensures r != "" <==> HasSolutions(a)
  {
    if HasSolutions(a) then "\n*Possible Solutions:*\n" + Numbered(a.possibleSolutions.value, 1, SolutionRow) else ""
  }

  /** The AI section: present iff there is a summary record. */
  function AiSection(ai: Option<AiSummary>): (r: string)
    ensures r != "" <==> ai.Some?
  {
    if ai.Some? then "\n*AI Analysis:*\n" + ai.value.summary + "\n" + SolutionsPart(ai.value) else ""
  }

  const WhatsAppFooter: string := "\n_Sent by NestJS API Monitor_"

  function WhatsAppText(record: ApiErrorModel, localize: string -> string): string {
    WhatsAppBase(record, localize) + MetaSection(record.metadata) + AiSection(record.aiSummary) + WhatsAppFooter
  }

  class TwilioService {
    const config: Config
    /** Whether the constructor created the Twilio client. */
    const hasClient: bool

    constructor(config: Config)
      ensures this.config == config
      ensures hasClient == TwilioEnabled(config)
    {
      this.config := config;
      hasClient := TwilioEnabled(config);
    }

    /** The guard of `sendSmsAlert`: Twilio enabled, a client, and SMS settings. */
    predicate SmsReady()
      reads this
    {
      TwilioEnabled(config) && hasClient && config.notifications.twilio.value.sms.Some?
    }

    /** The guard of `sendWhatsAppAlert`: Twilio enabled, a client, and WhatsApp settings. */
    predicate WhatsAppReady()
      reads this
    {
      TwilioEnabled(config) && hasClient && config.notifications.twilio.value.whatsapp.Some?
    }

    /** `sendSmsAlert`: nothing unless ready; otherwise the SMS text to every recipient, failures only recorded. */
    method SendSmsAlert(record: ApiErrorModel, localize: string -> string, create: TwilioMessage -> bool)
      returns (alert: Alert<seq<TwilioMessage>>)
      ensures !SmsReady() ==> alert.Skipped?
      ensures SmsReady() ==>
                var route := config.notifications.twilio.value.sms.value;
                var msgs := Messages(SmsText(record, localize), route.from, route.to);
                alert == Sent(msgs, AllAccepted(msgs, create))
    {
      if !SmsReady() {
        return Skipped;
      }
      var message := FormatSmsMessage(record, localize);
      var route := config.notifications.twilio.value.sms.value;
      var msgs := Messages(message, route.from, route.to);
      alert := Sent(msgs, AllAccepted(msgs, create));
    }

    /** `sendWhatsAppAlert`: nothing unless ready; otherwise the WhatsApp text to every recipient, failures only recorded. */
    method SendWhatsAppAlert(record: ApiErrorModel, localize: string -> string, create: TwilioMessage -> bool)
      returns (alert: Alert<seq<TwilioMessage>>)
      ensures !WhatsAppReady() ==> alert.Skipped?
      ensures WhatsAppReady() ==>
                var route := config.notifications.twilio.value.whatsapp.value;
                var msgs := Messages(WhatsAppText(record, localize), route.from, route.to);
                alert == Sent(msgs, AllAccepted(msgs, create))
    {
      if !WhatsAppReady() {
        return Skipped;
      }
      var message := FormatWhatsAppMessage(record, localize);
      var route := config.notifications.twilio.value.whatsapp.value;
      var msgs := Messages(message, route.from, route.to);
      alert := Sent(msgs, AllAccepted(msgs, create));
    }

    /** `formatSmsMessage`: the four fixed lines, then the environment and AI lines under their conditions. */
    method FormatSmsMessage(record: ApiErrorModel, localize: string -> string) returns (message: string)
      ensures message == SmsText(record, localize)
      ensures SmsBase(record, localize) <= message
    {
      message := SmsBase(record, localize);
      var env := EnvironmentOf(record.metadata);
      var envLine := "";
      if env.Some? && Truthy(env.value) {
        envLine := "Env: " + Show(env.value) + "\n";
      }
      assert envLine == EnvLine(record.metadata);
      PrefixExtends(message, message, envLine);
      message := message + envLine;
      var ai := record.aiSummary;
      var aiLine := "";
      if ai.Some? && ai.value.summary != "" {
        var summary := ai.value.summary;
        aiLine := "\nAI Analysis: " + Prefix(summary, MaxSummary) + (if |summary| > MaxSummary then "..." else "") + "\n";
      }
      assert aiLine == AiLine(record.aiSummary);
      PrefixExtends(SmsBase(record, localize), message, aiLine);
      message := message + aiLine;
    }

    /**
     * `formatWhatsAppMessage`: the heading and details, one line per metadata
     * entry, the AI section with numbered solutions, and always the footer last.
     */
    method FormatWhatsAppMessage(record: ApiErrorModel, localize: string -> string) returns (message: string)
      ensures message == WhatsAppText(record, localize)
      ensures |message| >= |WhatsAppFooter| && message[|message| - |WhatsAppFooter|..] == WhatsAppFooter
    {
      message := WhatsAppBase(record, localize);
      ghost var base := message;
      if record.metadata.Some? {
        message := message + MetaHeading;
        message := AppendNumbered(message, record.metadata.value, 1, MetaRow);
        AppendAssoc(base, MetaHeading, Numbered(record.metadata.value, 1, MetaRow));
      }
      assert message == base + MetaSection(record.metadata);
      ghost var withMeta := message;
      if record.aiSummary.Some? {
        var ai := record.aiSummary.value;
        message := message + ("\n*AI Analysis:*\n" + ai.summary + "\n");
        ghost var head := message;
        if ai.possibleSolutions.Some? && |ai.possibleSolutions.value| > 0 {
          message := message + "\n*Possible Solutions:*\n";
          message := AppendNumbered(message, ai.possibleSolutions.value, 1, SolutionRow);
          AppendAssoc(head, "\n*Possible Solutions:*\n", Numbered(ai.possibleSolutions.value, 1, SolutionRow));
        }
        assert message == head + SolutionsPart(ai);
        AppendAssoc(withMeta, "\n*AI Analysis:*\n" + ai.summary + "\n", SolutionsPart(ai));
      }
      assert message == withMeta + AiSection(record.aiSummary);
      AppendAssoc(base, MetaSection(record.metadata), AiSection(record.aiSummary));
      message := message + WhatsAppFooter;
    }
  }
}
