/**
 * The error-processing pipeline (`ApiMonitorService`): builds the record,
 * applies the custom transformer, keeps the bounded error history, asks the
 * summarizer for an AI diagnosis and fans the record out to the enabled
 * channels. Collaborators are parameters: the summarizer is a function that
 * yields `None` when its promise rejects, and each channel's outcome comes
 * from `deliver`.
 */
module MonitorService {
  import opened Wrappers
  import opened Strings
  import opened Js
  import opened ErrorModel
  import opened MonitorConfig
  import OpenAi

  /** The process environment read by `processError`: NODE_ENV, SERVICE_NAME, APP_VERSION. */
  datatype Env = Env(nodeEnv: Option<string>, serviceName: Option<string>, appVersion: Option<string>)

  /** Which optional collaborators were injected into the service. */
  datatype Services = Services(slack: bool, email: bool, twilio: bool, webhook: bool, openAi: bool)

  /** The five notification calls: Slack, email, Twilio SMS, Twilio WhatsApp, webhook. */
  datatype Channel = SlackAlert | EmailAlert | SmsAlert | WhatsAppAlert | WebhookAlert

  /** `analyzeError(record, history)`; `None` when the call throws or rejects. */
  type Summarizer = (ApiErrorModel, seq<ApiErrorModel>) -> Option<AiSummary>

  /** Whether a channel's promise resolves (true) or rejects (false) for a record. */
  type Delivery = (Channel, ApiErrorModel) -> bool

  /** The calls the service makes into its collaborators, in order. */
  datatype Call =
    | TransformerCall(error: ErrorDetails, request: RequestDetails, response: Option<ResponseDetails>)
    | AnalyzeCall(current: ApiErrorModel, history: seq<ApiErrorModel>)
    | AlertCall(channel: Channel, record: ApiErrorModel)

  /** The default metadata: environment, service and version, each from the environment or its default. */
  function DefaultMetadata(env: Env): (m: Metadata)
    ensures |m| == 3
    ensures Lookup(m, "environment") == Some(Str(Or(env.nodeEnv, "development")))
    ensures Lookup(m, "service") == Some(Str(Or(env.serviceName, "api")))
    ensures Lookup(m, "version") == Some(Str(Or(env.appVersion, "1.0.0")))
  {
    var m := [MetaEntry("environment", Str(Or(env.nodeEnv, "development"))),
              MetaEntry("service", Str(Or(env.serviceName, "api"))),
              MetaEntry("version", Str(Or(env.appVersion, "1.0.0")))];
    assert Lookup(m[1..], "service") == Some(m[1].value);
    assert Lookup(m[1..][1..], "version") == Some(m[2].value);
    m
  }

  /** The record as first built, before any transformation. */
  function NewRecord(id: nat, error: ErrorDetails, request: RequestDetails,
                     response: Option<ResponseDetails>, env: Env): ApiErrorModel
  {
    ApiErrorModel(id, error, request, response, Some(DefaultMetadata(env)), None)
  }

  /** `Object.assign(record, patch)`: a shallow merge in which every key the patch carries wins. */
  function Merge(r: ApiErrorModel, p: Patch): ApiErrorModel {
    ApiErrorModel(
      r.id,
      p.error.GetOr(r.error),
      p.request.GetOr(r.request),
      p.response.GetOr(r.response),
      p.metadata.GetOr(r.metadata),
      p.aiSummary.GetOr(r.aiSummary))
  }

  /** The record after the optional transformer step; a falsy result leaves it as it was. */
  function Transformed(c: Config, base: ApiErrorModel, error: ErrorDetails, request: RequestDetails,
                       response: Option<ResponseDetails>): ApiErrorModel
  {
    if c.errorMonitoring.customErrorTransformer.None? then base
    else
      var patch := c.errorMonitoring.customErrorTransformer.value(error, request, response);
      if patch.None? then base else Merge(base, patch.value)
  }

  /**
   * A transformer's top-level keys replace the record's: in particular a returned
   * `metadata` replaces the whole default metadata (no default key survives unless
   * the transformer returns it), and a falsy result keeps every default.
   */
  lemma TransformerOverrides(c: Config, id: nat, error: ErrorDetails, request: RequestDetails,
                             response: Option<ResponseDetails>, env: Env)
    ensures var r := Transformed(c, NewRecord(id, error, request, response, env), error, request, response);
            var patch := if c.errorMonitoring.customErrorTransformer.None? then None
                         else c.errorMonitoring.customErrorTransformer.value(error, request, response);
            && r.id == id
            && (patch.None? ==> r == NewRecord(id, error, request, response, env))
            && (patch.Some? && patch.value.metadata.Some? ==> r.metadata == patch.value.metadata.value)
            && (patch.Some? && patch.value.metadata.None? ==> r.metadata == Some(DefaultMetadata(env)))
            && (patch.Some? && patch.value.error.Some? ==> r.error == patch.value.error.value)
            && (patch.Some? && patch.value.error.None? ==> r.error == error)
            && (patch.Some? && patch.value.request.Some? ==> r.request == patch.value.request.value)
            && (patch.Some? && patch.value.request.None? ==> r.request == request)
            && (patch.Some? && patch.value.response.Some? ==> r.response == patch.value.response.value)
            && (patch.Some? && patch.value.response.None? ==> r.response == response)
            && (patch.Some? && patch.value.aiSummary.Some? ==> r.aiSummary == patch.value.aiSummary.value)
            && (patch.Some? && patch.value.aiSummary.None? ==> r.aiSummary == None)
  {
  }

  /** `maxHistoryLength || 5`: an absent length and a length of 0 both give 5. */
  function MaxHistory(c: Config): (m: int)
    ensures m != 0
    ensures c.aiSummarization.None? || c.aiSummarization.value.maxHistoryLength.None? ==> m == 5
    ensures c.aiSummarization.Some? && c.aiSummarization.value.maxHistoryLength == Some(0) ==> m == 5
    ensures c.aiSummarization.Some? && c.aiSummarization.value.maxHistoryLength.Some?
            && c.aiSummarization.value.maxHistoryLength.value != 0
            ==> m == c.aiSummarization.value.maxHistoryLength.value
  {
    if c.aiSummarization.Some? && c.aiSummarization.value.maxHistoryLength.Some?
       && c.aiSummarization.value.maxHistoryLength.value != 0
    then c.aiSummarization.value.maxHistoryLength.value
    else 5
  }

  /** The most records the history can hold: the effective maximum, or none when it is negative. */
  function Capacity(c: Config): nat {
    if MaxHistory(c) > 0 then MaxHistory(c) else 0
  }

  /** The trim step of `updateErrorHistory`, applied to the history after the push. */
  function Trim<T>(h: seq<T>, max: int): seq<T> {
    if |h| > max then SliceFrom(h, -max) else h
  }

  /**
   * With a positive maximum M, pushing r and trimming leaves min(old length + 1, M)
   * records: the last ones of old ++ [r], oldest first, with r last.
   */
  lemma HistoryAfterPush<T>(h: seq<T>, r: T, max: int)
    requires max > 0
    ensures var t := Trim(h + [r], max);
            && |t| == Min(|h| + 1, max)
            && t == (h + [r])[|h| + 1 - Min(|h| + 1, max)..]
            && t[|t| - 1] == r
  {
  }

  /** A pushed-and-trimmed history that was within capacity stays within it. */
  lemma TrimKeepsBound<T>(c: Config, h: seq<T>, r: T)
    requires |h| <= Capacity(c)
    ensures |Trim(h + [r], MaxHistory(c))| <= Capacity(c)
    ensures MaxHistory(c) < 0 ==> Trim(h + [r], MaxHistory(c)) == []
  {
  }

  /** The history after processing `records` in order, starting empty. */
  function Replay<T>(records: seq<T>, max: int): seq<T> {
    if records == [] then []
    else Trim(Replay(records[..|records| - 1], max) + [records[|records| - 1]], max)
  }

  /**
   * After N records with a positive maximum M, the history is exactly the last
   * min(N, M) records, in the order they were processed.
   */
  lemma {:induction false} ReplayKeepsLast<T>(records: seq<T>, max: int)
    requires max > 0
    ensures Replay(records, max) == records[|records| - Min(|records|, max)..]
  {
    if records != [] {
      ReplayKeepsLast(records[..|records| - 1], max);
      PushKeepsSuffix(records, Replay(records[..|records| - 1], max), max);
    }
  }

  /** If the history held the last records before the newest one, pushing the newest keeps the last ones. */
  lemma PushKeepsSuffix<T>(records: seq<T>, h: seq<T>, max: int)
    requires max > 0 && records != []
    requires h == records[|records| - 1 - Min(|records| - 1, max)..|records| - 1]
    ensures Trim(h + [records[|records| - 1]], max) == records[|records| - Min(|records|, max)..]
  {
    var n := |records|;
    HistoryAfterPush(h, records[n - 1], max);
    assert h + [records[n - 1]] == records[n - 1 - Min(n - 1, max)..];
  }

  /** Three errors with a maximum of two: the history holds the second and the third, oldest first. */
  lemma ThreeErrorsKeepLastTwo<T>(first: T, second: T, third: T)
    ensures Replay([first, second, third], 2) == [second, third]
  {
    ReplayKeepsLast([first, second, third], 2);
  }

  /** The AI step is taken: AI summarization enabled and a summarizer injected. */
  predicate AiActive(c: Config, s: Services) {
    AiEnabled(c) && s.openAi
  }

  /** The record after the AI step: the summary is attached iff the step is taken and the call resolves. */
  function Enriched(built: ApiErrorModel, seen: seq<ApiErrorModel>, active: bool, summarize: Summarizer): ApiErrorModel {
    if active && summarize(built, seen).Some? then built.(aiSummary := summarize(built, seen)) else built
  }

  /** The channel `ch` is enabled in the configuration and its service is injected. */
  predicate ChannelOn(c: Config, s: Services, ch: Channel) {
    match ch
    case SlackAlert => SlackEnabled(c) && s.slack
    case EmailAlert => EmailEnabled(c) && s.email
    case SmsAlert => TwilioEnabled(c) && s.twilio && c.notifications.twilio.value.sms.Some?
    case WhatsAppAlert => TwilioEnabled(c) && s.twilio && c.notifications.twilio.value.whatsapp.Some?
    case WebhookAlert => WebhookEnabled(c) && s.webhook
  }

  /** The channels in the order `sendNotifications` starts them. */
  const ChannelOrder: seq<Channel> := [SlackAlert, EmailAlert, SmsAlert, WhatsAppAlert, WebhookAlert]

  /** The enabled channels among the first `k` of that order. */
  function ChannelsUpTo(c: Config, s: Services, k: nat): seq<Channel>
    requires k <= |ChannelOrder|
  {
    if k == 0 then []
    else ChannelsUpTo(c, s, k - 1) + (if ChannelOn(c, s, ChannelOrder[k - 1]) then [ChannelOrder[k - 1]] else [])
  }

  /** The channels `sendNotifications` calls, in the order it starts them. */
  function EnabledChannels(c: Config, s: Services): seq<Channel> {
    ChannelsUpTo(c, s, |ChannelOrder|)
  }

  lemma {:induction false} ChannelsUpToExact(c: Config, s: Services, k: nat)
    requires k <= |ChannelOrder|
    ensures forall ch :: ch in ChannelsUpTo(c, s, k) <==> ch in ChannelOrder[..k] && ChannelOn(c, s, ch)
    ensures forall i, j :: 0 <= i < j < |ChannelsUpTo(c, s, k)| ==> ChannelsUpTo(c, s, k)[i] != ChannelsUpTo(c, s, k)[j]
  {
    if k > 0 {
      ChannelsUpToExact(c, s, k - 1);
      assert ChannelOrder[..k] == ChannelOrder[..k - 1] + [ChannelOrder[k - 1]];
      assert ChannelOrder[k - 1] !in ChannelOrder[..k - 1];
    }
  }

  /** Exactly the enabled-and-injected channels are called, each once. */
  lemma EnabledChannelsExact(c: Config, s: Services)
    ensures forall ch :: ch in EnabledChannels(c, s) <==> ChannelOn(c, s, ch)
    ensures forall i, j :: 0 <= i < j < |EnabledChannels(c, s)| ==> EnabledChannels(c, s)[i] != EnabledChannels(c, s)[j]
  {
    ChannelsUpToExact(c, s, |ChannelOrder|);
    assert ChannelOrder[..|ChannelOrder|] == ChannelOrder;
    forall ch: Channel ensures ch in ChannelOrder {
      match ch
      case SlackAlert => assert ChannelOrder[0] == ch;
      case EmailAlert => assert ChannelOrder[1] == ch;
      case SmsAlert => assert ChannelOrder[2] == ch;
      case WhatsAppAlert => assert ChannelOrder[3] == ch;
      case WebhookAlert => assert ChannelOrder[4] == ch;
    }
  }

  function AlertCalls(chs: seq<Channel>, record: ApiErrorModel): (r: seq<Call>)
    ensures |r| == |chs|
  {
    seq(|chs|, i requires 0 <= i < |chs| => AlertCall(chs[i], record))
  }

  lemma AlertCallsSnoc(chs: seq<Channel>, i: nat, record: ApiErrorModel, deliver: Delivery)
    requires i < |chs|
    ensures AlertCalls(chs[..i + 1], record) == AlertCalls(chs[..i], record) + [AlertCall(chs[i], record)]
    ensures Outcomes(chs[..i + 1], record, deliver) == Outcomes(chs[..i], record, deliver) + [(chs[i], deliver(chs[i], record))]
  {
    assert AlertCalls(chs[..i + 1], record) == AlertCalls(chs[..i], record) + [AlertCall(chs[i], record)];
    assert Outcomes(chs[..i + 1], record, deliver) == Outcomes(chs[..i], record, deliver) + [(chs[i], deliver(chs[i], record))];
  }

  function Outcomes(chs: seq<Channel>, record: ApiErrorModel, deliver: Delivery): (r: seq<(Channel, bool)>)
    ensures |r| == |chs|
  {
    seq(|chs|, i requires 0 <= i < |chs| => (chs[i], deliver(chs[i], record)))
  }

  function TransformerCalls(c: Config, error: ErrorDetails, request: RequestDetails,
                            response: Option<ResponseDetails>): seq<Call>
  {
    if c.errorMonitoring.customErrorTransformer.Some? then [TransformerCall(error, request, response)] else []
  }

  /** Records are numbered in the order they are created. */
  ghost predicate IdsIncreasing(h: seq<ApiErrorModel>) {
    forall i, j :: 0 <= i < j < |h| ==> h[i].id < h[j].id
  }

  class ApiMonitorService {
    const config: Config
    const services: Services
    var errorHistory: seq<ApiErrorModel>
    /** The id the next record gets: its object identity. */
    var nextId: nat
    /** The calls made into the collaborators so far. */
    ghost var calls: seq<Call>

    ghost predicate Valid()
      reads this
    {
      && |errorHistory| <= Capacity(config)
      && (forall i :: 0 <= i < |errorHistory| ==> errorHistory[i].id < nextId)
      && IdsIncreasing(errorHistory)
    }

    constructor(config: Config, services: Services)
      ensures Valid()
      ensures this.config == config && this.services == services
      ensures errorHistory == [] && calls == []
    {
      this.config := config;
      this.services := services;
      errorHistory := [];
      nextId := 0;
      calls := [];
    }

    /** Push the record and keep the last `maxHistoryLength || 5` records. */
    method UpdateErrorHistory(record: ApiErrorModel)
      requires Valid()
      requires record.id < nextId
      requires forall i :: 0 <= i < |errorHistory| ==> errorHistory[i].id < record.id
      modifies this`errorHistory
      ensures Valid()
      ensures errorHistory == Trim(old(errorHistory) + [record], MaxHistory(config))
    {
      TrimKeepsBound(config, errorHistory, record);
      IdsAfterPush(errorHistory, record, MaxHistory(config), nextId);
      errorHistory := errorHistory + [record];
      var maxHistory := MaxHistory(config);
      if |errorHistory| > maxHistory {
        errorHistory := SliceFrom(errorHistory, -maxHistory);
      }
    }

    /**
     * Call every enabled channel with the record, one after the other, and
     * collect each outcome; a rejected channel neither stops the others nor
     * makes this method fail.
     */
    method SendNotifications(record: ApiErrorModel, deliver: Delivery) returns (outcomes: seq<(Channel, bool)>)
      modifies this`calls
      ensures calls == old(calls) + AlertCalls(EnabledChannels(config, services), record)
      ensures outcomes == Outcomes(EnabledChannels(config, services), record, deliver)
    {
      var channels := ChannelList();
      outcomes := [];
      var i := 0;
      while i < |channels|
        invariant 0 <= i <= |channels|
        invariant calls == old(calls) + AlertCalls(channels[..i], record)
        invariant outcomes == Outcomes(channels[..i], record, deliver)
      {
        AlertCallsSnoc(channels, i, record, deliver);
        calls := calls + [AlertCall(channels[i], record)];
        outcomes := outcomes + [(channels[i], deliver(channels[i], record))];
        i := i + 1;
      }
      assert channels[..i] == channels;
    }

    /** The conditional pushes of `sendNotifications`: the enabled channels, in the order they are started. */
    method ChannelList() returns (channels: seq<Channel>)
      ensures channels == EnabledChannels(config, services)
    {
      channels := [];
      if SlackEnabled(config) && services.slack {
        channels := channels + [SlackAlert];
      }
      assert channels == ChannelsUpTo(config, services, 1);
      if EmailEnabled(config) && services.email {
        channels := channels + [EmailAlert];
      }
      assert channels == ChannelsUpTo(config, services, 2);
      if TwilioEnabled(config) && services.twilio {
        if config.notifications.twilio.value.sms.Some? {
          channels := channels + [SmsAlert];
        }
        if config.notifications.twilio.value.whatsapp.Some? {
          channels := channels + [WhatsAppAlert];
        }
      }
      assert channels == ChannelsUpTo(config, services, 4);
      if WebhookEnabled(config) && services.webhook {
        channels := channels + [WebhookAlert];
      }
    }

    /**
     * The AI step of `processError`: when it is taken and the call resolves, the
     * summary is attached to the record, and so to the history's last entry,
     * which is the same object.
     */
    method AttachSummary(record: ApiErrorModel, summarize: Summarizer, ghost before: seq<ApiErrorModel>)
      returns (enriched: ApiErrorModel)
      requires Valid()
      requires errorHistory == Trim(before + [record], MaxHistory(config))
      requires forall i :: 0 <= i < |before| ==> before[i].id < record.id
      modifies this`errorHistory, this`calls
      ensures Valid()
      ensures enriched == Enriched(record, old(errorHistory), AiActive(config, services), summarize)
      ensures errorHistory == Trim(before + [enriched], MaxHistory(config))
      ensures calls == old(calls) + (if AiActive(config, services) then [AnalyzeCall(record, old(errorHistory))] else [])
    {
      enriched := record;
      if AiEnabled(config) && services.openAi {
        calls := calls + [AnalyzeCall(record, errorHistory)];
        var aiSummary := summarize(record, errorHistory);
        if aiSummary.Some? {
          enriched := record.(aiSummary := aiSummary);
          TrimLastReplaced(before, record, enriched, MaxHistory(config));
          if |errorHistory| > 0 {
            ReplaceLast(enriched);
          }
        }
      }
    }

    /** The history's last entry is the record being enriched, so it now holds the enriched record. */
    method ReplaceLast(enriched: ApiErrorModel)
      requires Valid()
      requires errorHistory != [] && enriched.id == errorHistory[|errorHistory| - 1].id
      modifies this`errorHistory
      ensures Valid()
      ensures errorHistory == old(errorHistory[..|errorHistory| - 1]) + [enriched]
    {
      SameIdsReplaceLast(errorHistory, enriched, nextId);
      errorHistory := errorHistory[..|errorHistory| - 1] + [enriched];
    }

    /**
     * `processError`: build, transform, record in the history, enrich with the
     * AI summary, notify. The summarizer sees the history that already ends
     * with this record; the record handed to every channel is the enriched one.
     */
    method ProcessError(error: ErrorDetails, request: RequestDetails, response: Option<ResponseDetails>,
                        env: Env, summarize: Summarizer, deliver: Delivery)
      returns (record: ApiErrorModel, outcomes: seq<(Channel, bool)>)
      requires Valid()
      modifies this`errorHistory, this`nextId, this`calls
      ensures Valid()
      ensures nextId == old(nextId) + 1 && record.id == old(nextId)
      ensures var built := Transformed(config, NewRecord(old(nextId), error, request, response, env),
                                       error, request, response);
              var seen := Trim(old(errorHistory) + [built], MaxHistory(config));
              && record == Enriched(built, seen, AiActive(config, services), summarize)
              && errorHistory == Trim(old(errorHistory) + [record], MaxHistory(config))
              && calls == old(calls) + TransformerCalls(config, error, request, response)
                          + (if AiActive(config, services) then [AnalyzeCall(built, seen)] else [])
                          + AlertCalls(EnabledChannels(config, services), record)
              && outcomes == Outcomes(EnabledChannels(config, services), record, deliver)
    {
      var id := nextId;
      nextId := nextId + 1;
      record := BuildRecord(id, error, request, response, env);
      ghost var built := record;
      ghost var before := errorHistory;
      UpdateErrorHistory(record);
      ghost var seen := errorHistory;
      assert seen == Trim(before + [built], MaxHistory(config));
      record := AttachSummary(record, summarize, before);
      outcomes := SendNotifications(record, deliver);
    }

    /** The record as `processError` builds it: default metadata, then the transformer's result merged in. */
    method BuildRecord(id: nat, error: ErrorDetails, request: RequestDetails, response: Option<ResponseDetails>, env: Env)
      returns (record: ApiErrorModel)
      modifies this`calls
      ensures record == Transformed(config, NewRecord(id, error, request, response, env), error, request, response)
      ensures calls == old(calls) + TransformerCalls(config, error, request, response)
    {
      record := NewRecord(id, error, request, response, env);
      if config.errorMonitoring.customErrorTransformer.Some? {
        calls := calls + [TransformerCall(error, request, response)];
        var transform := config.errorMonitoring.customErrorTransformer.value;
        var transformed := transform(error, request, response);
        if transformed.Some? {
          record := Merge(record, transformed.value);
        }
      }
    }
  }

  /** Pushing a record with a larger id and trimming keeps the ids increasing and below `bound`. */
  lemma IdsAfterPush(h: seq<ApiErrorModel>, x: ApiErrorModel, max: int, bound: nat)
    requires IdsIncreasing(h) && forall i :: 0 <= i < |h| ==> h[i].id < x.id
    requires x.id < bound
    ensures var t := Trim(h + [x], max);
            && IdsIncreasing(t) && forall i :: 0 <= i < |t| ==> t[i].id < bound
  {
    var p := h + [x];
    IdsPushed(h, x);
    TrimIsSuffix(p, max);
    IdsSuffix(p, |p| - |Trim(p, max)|, Trim(p, max), bound);
  }

  lemma IdsPushed(h: seq<ApiErrorModel>, x: ApiErrorModel)
    requires IdsIncreasing(h) && forall i :: 0 <= i < |h| ==> h[i].id < x.id
    ensures IdsIncreasing(h + [x]) && forall i :: 0 <= i < |h + [x]| ==> (h + [x])[i].id <= x.id
  {
    var p := h + [x];
    forall i, j | 0 <= i < j < |p|
      ensures p[i].id < p[j].id
    {
      assert p[i] == h[i];
      if j < |h| {
        assert p[j] == h[j];
      }
    }
  }

  lemma IdsSuffix(p: seq<ApiErrorModel>, k: nat, t: seq<ApiErrorModel>, bound: nat)
    requires IdsIncreasing(p) && k <= |p| && t == p[k..]
    requires forall i :: 0 <= i < |p| ==> p[i].id <= p[|p| - 1].id < bound
    ensures IdsIncreasing(t) && forall i :: 0 <= i < |t| ==> t[i].id < bound
  {
    forall i, j | 0 <= i < j < |t|
      ensures t[i].id < t[j].id
    {
      assert t[i] == p[k + i] && t[j] == p[k + j];
    }
    forall i | 0 <= i < |t|
      ensures t[i].id < bound
    {
      assert t[i] == p[k + i];
    }
  }

  /** Trimming keeps a suffix. */
  lemma TrimIsSuffix<T>(p: seq<T>, max: int)
    ensures |Trim(p, max)| <= |p| && Trim(p, max) == p[|p| - |Trim(p, max)|..]
  {
  }

  /** Replacing the last record by one with the same id keeps the ids increasing and below `bound`. */
  lemma SameIdsReplaceLast(h: seq<ApiErrorModel>, x: ApiErrorModel, bound: nat)
    requires h != [] && x.id == h[|h| - 1].id
    requires IdsIncreasing(h) && forall i :: 0 <= i < |h| ==> h[i].id < bound
    ensures var r := h[..|h| - 1] + [x];
            && |r| == |h| && IdsIncreasing(r) && forall i :: 0 <= i < |r| ==> r[i].id < bound
  {
    var r := h[..|h| - 1] + [x];
    assert forall i :: 0 <= i < |r| ==> r[i].id == h[i].id;
  }

  /** Trimming keeps a suffix, so replacing the pushed record replaces the history's last entry. */
  lemma TrimLastReplaced<T>(h: seq<T>, a: T, b: T, max: int)
    ensures var t := Trim(h + [a], max);
            && |Trim(h + [b], max)| == |t|
            && (t != [] ==> t[|t| - 1] == a && Trim(h + [b], max) == t[..|t| - 1] + [b])
  {
    var ha, hb := h + [a], h + [b];
    var n := |h| + 1;
    var k := if |ha| > max then (if -max < 0 then (if n - max < 0 then 0 else n - max) else Min(-max, n)) else 0;
    assert Trim(ha, max) == ha[k..];
    assert Trim(hb, max) == hb[k..];
    if k < n {
      assert ha[k..][n - k - 1] == a;
      assert ha[k..][..n - k - 1] == h[k..];
      assert hb[k..] == h[k..] + [b];
    }
  }

  /**
   * What the AI prompt lists as previous errors during `processError`: the
   * history handed to `analyzeError` already ends with the current record, so
   * the listed errors are the last (up to five) records kept before it, and
   * the history section appears iff an earlier record is kept.
   */
  lemma AnalysisSeesPreviousErrors(h: seq<ApiErrorModel>, built: ApiErrorModel, max: int)
    requires max > 0
    requires forall e :: e in h ==> e.id < built.id
    ensures var seen := Trim(h + [built], max);
            && |seen| >= 1 && seen[|seen| - 1] == built
            && OpenAi.RecentErrors(seen, built) == SliceFrom(seen[..|seen| - 1], -OpenAi.RecentLimit)
            && (|seen| > 1 <==> |h| >= 1 && max >= 2)
  {
    var seen := Trim(h + [built], max);
    HistoryAfterPush(h, built, max);
    var before := seen[..|seen| - 1];
    assert seen == before + [built];
    assert before == h[|h| + 1 - |seen|..];
    forall e | e in before
      ensures e.id != built.id
    {
      assert e in h;
    }
    OpenAi.OthersOfPushed(before, built);
  }
}
