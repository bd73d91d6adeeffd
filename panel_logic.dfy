/**
 * The pure parts of the stream panel: the panel options, the status records,
 * the source-list resolution, the choice of decoder by URL, the channel
 * configurations with their defaults, the status colour, the bounded
 * diagnostic log, the cool-down gate and the texts the handlers produce.
 */
module PanelLogic {
  import opened Wrappers
  import opened JsText
  import opened AlertService

  /** The panel options the core reads (a missing `videoUrl` is the empty string). */
  datatype Options = Options(
    videoUrl: string,
    enableAlerts: bool,
    errorThreshold: int,
    bufferThreshold: int,
    alertSound: bool,
    alertVisual: bool,
    enableDingTalk: bool,
    dingTalkWebhook: string,
    enableEmail: bool,
    emailServer: string,
    emailPort: int,
    emailUsername: string,
    emailPassword: string,
    emailTo: string,
    emailSubject: string)

  /** Playback health. Times are milliseconds. */
  datatype StreamStatus = StreamStatus(
    isPlaying: bool,
    isError: bool,
    errorMessage: string,
    isBuffering: bool,
    retryCount: nat,
    lastUpdate: int)

  /** Alerting state: the one active alert, the monitors' counters and the dispatch gate. */
  datatype AlertState = AlertState(
    isAlerting: bool,
    alertType: Option<AlertType>,
    alertMessage: string,
    alertTime: Option<int>,
    consecutiveErrors: nat,
    bufferStartTime: Option<int>,
    lastExternalAlertTime: Option<int>)

  function InitialStatus(now: int): StreamStatus {
    StreamStatus(false, false, "", false, 0, now)
  }

  const InitialAlert := AlertState(false, None, "", None, 0, None, None)

  // ---------------------------------------------------------------------------
  // Source list
  // ---------------------------------------------------------------------------

  /** A cell of a data frame: a string, or any other value (number, null, object). */
  datatype Value = Text(text: string) | Other

  datatype Field = Field(name: string, values: seq<Value>)

  /** One data series (frame) of the panel's query result. */
  datatype Series = Series(fields: seq<Field>)

  const VideoUrlField := "video_url"

  /** `fields.find(f => f.name === name)`: the first field with that name. */
  function FindField(fields: seq<Field>, name: string): (r: Option<Field>)
    ensures r.None? <==> forall k :: 0 <= k < |fields| ==> fields[k].name != name
    ensures r.Some? ==> exists k :: 0 <= k < |fields| && fields[k] == r.value && r.value.name == name
                                   && forall j :: 0 <= j < k ==> fields[j].name != name
  {
    if fields == [] then None
    else if fields[0].name == name then Some(fields[0])
    else
      var r := FindField(fields[1..], name);
      assert forall j :: 0 <= j < |fields| - 1 ==> fields[1..][j] == fields[j + 1];
      if r.Some? then
        ghost var k :| 0 <= k < |fields[1..]| && fields[1..][k] == r.value && r.value.name == name
                       && forall j :: 0 <= j < k ==> fields[1..][j].name != name;
        assert fields[k + 1] == r.value;
        r
      else r
  }

  /** A cell contributes a source when it is a non-empty string. */
  function CellUrl(v: Value): seq<string> {
    if v.Text? && v.text != "" then [v.text] else []
  }

  /** The sources among a column's cells, in row order. */
  function RowUrls(values: seq<Value>): seq<string> {
    if values == [] then [] else RowUrls(values[..|values| - 1]) + CellUrl(values[|values| - 1])
  }

  /** The sources of one series: those of its first `video_url` field. */
  function FieldUrls(s: Series): seq<string> {
    match FindField(s.fields, VideoUrlField)
    case None => []
    case Some(f) => RowUrls(f.values)
  }

  /** The sources of all series, in series order and then row order. */
  function SeriesUrls(series: seq<Series>): seq<string> {
    if series == [] then [] else SeriesUrls(series[..|series| - 1]) + FieldUrls(series[|series| - 1])
  }

  /** The resolved source list: the sources found, or else the configured `videoUrl` if it is set. */
  function ResolvedSources(series: seq<Series>, videoUrl: string): seq<string> {
    var found := SeriesUrls(series);
    if found == [] && videoUrl != "" then [videoUrl] else found
  }

  /** `urls[0] || ''`: the current source. */
  function CurrentSource(urls: seq<string>): string {
    if |urls| > 0 && urls[0] != "" then urls[0] else ""
  }

  /** The `urls` computation, pushing each source it finds onto `result`. */
  method ResolveSources(series: seq<Series>, videoUrl: string) returns (result: seq<string>)
    ensures result == ResolvedSources(series, videoUrl)
  {
    result := [];
    for i := 0 to |series|
      invariant result == SeriesUrls(series[..i])
    {
      assert series[..i + 1][..i] == series[..i];
      var field := FindField(series[i].fields, VideoUrlField);
      if field.Some? {
        var found := ColumnUrls(field.value.values);
        result := result + found;
      }
    }
    assert series[..|series|] == series;
    if |result| == 0 && videoUrl != "" {
      result := [videoUrl];
    }
  }

  /** The inner loop of the `urls` computation: the non-empty string cells of one column, in order. */
  method ColumnUrls(values: seq<Value>) returns (found: seq<string>)
    ensures found == RowUrls(values)
  {
    found := [];
    for j := 0 to |values|
      invariant found == RowUrls(values[..j])
    {
      assert values[..j + 1][..j] == values[..j];
      if values[j].Text? && values[j].text != "" {
        found := found + [values[j].text];
      }
    }
    assert values[..|values|] == values;
  }

  /** A column yields exactly its non-empty string cells. */
  lemma {:induction false} RowUrlsMembers(values: seq<Value>, u: string)
    ensures u in RowUrls(values) <==> u != "" && Text(u) in values
  {
    if values != [] {
      var init := values[..|values| - 1];
      RowUrlsMembers(init, u);
      assert values == init + [values[|values| - 1]];
    }
  }

  /** A series lists source `u` when its first `video_url` field has `u` as a cell. */
  ghost predicate ListedIn(s: Series, u: string) {
    match FindField(s.fields, VideoUrlField)
    case None => false
    case Some(f) => Text(u) in f.values
  }

  /** A series yields exactly the non-empty strings it lists. */
  lemma FieldUrlsMembers(s: Series, u: string)
    ensures u in FieldUrls(s) <==> u != "" && ListedIn(s, u)
  {
    var f := FindField(s.fields, VideoUrlField);
    if f.Some? {
      RowUrlsMembers(f.value.values, u);
    }
  }

  /** The sources found are exactly the non-empty strings listed by some series. */
  lemma {:induction false} SeriesUrlsMembers(series: seq<Series>, u: string)
    ensures u in SeriesUrls(series) <==> u != "" && exists i :: 0 <= i < |series| && ListedIn(series[i], u)
  {
    if series != [] {
      var n := |series| - 1;
      var init := series[..n];
      SeriesUrlsMembers(init, u);
      FieldUrlsMembers(series[n], u);
      assert SeriesUrls(series) == SeriesUrls(init) + FieldUrls(series[n]);
      assert u in SeriesUrls(series) <==> u in SeriesUrls(init) || u in FieldUrls(series[n]);
      if u in SeriesUrls(series) {
        if u in SeriesUrls(init) {
          var i :| 0 <= i < |init| && ListedIn(init[i], u);
          assert series[i] == init[i];
        }
      } else if u != "" {
        forall i | 0 <= i < |series| ensures !ListedIn(series[i], u) {
          if i < n {
            assert series[i] == init[i];
          }
        }
      }
    }
  }

  /** No resolved source is the empty string. */
  lemma {:induction false} SeriesUrlsNonEmpty(series: seq<Series>)
    ensures forall k :: 0 <= k < |SeriesUrls(series)| ==> SeriesUrls(series)[k] != ""
  {
    forall k | 0 <= k < |SeriesUrls(series)|
      ensures SeriesUrls(series)[k] != ""
    {
      var u := SeriesUrls(series)[k];
      SeriesUrlsMembers(series, u);
    }
  }

  /**
   * Resolution: the sources listed by the series when there are any, else the
   * single configured `videoUrl`, else nothing; and the current source is the
   * first of them, or the empty string.
   */
  lemma ResolvedSourcesSpec(series: seq<Series>, videoUrl: string)
    ensures SeriesUrls(series) != [] ==> ResolvedSources(series, videoUrl) == SeriesUrls(series)
    ensures SeriesUrls(series) == [] ==>
      ResolvedSources(series, videoUrl) == (if videoUrl == "" then [] else [videoUrl])
    ensures forall u :: u in ResolvedSources(series, videoUrl) ==> u != ""
    ensures var urls := ResolvedSources(series, videoUrl);
      CurrentSource(urls) == (if urls == [] then "" else urls[0])
  {
    SeriesUrlsNonEmpty(series);
  }

  // ---------------------------------------------------------------------------
  // Decoder choice
  // ---------------------------------------------------------------------------

  /** What the player effect does with the current source. */
  datatype Decoder =
    | NoSource  // empty URL: nothing is attached
    | Hls       // the adaptive-streaming decoder (hls.js)
    | Flv       // the flash-video decoder (flv.js)
    | Native    // assigned to the media element's `src`

  const HlsToken := ".m3u8"
  const FlvToken := ".flv"
  const RtmpScheme := "rtmp"

  /** The player effect's tests on `currentUrl`, in order. */
  function Classify(url: string): (d: Decoder)
    ensures d == NoSource <==> url == ""
    ensures d == Hls <==> url != "" && MatchesToken(url, HlsToken)
    ensures d == Flv <==> url != "" && !MatchesToken(url, HlsToken)
                          && (MatchesToken(url, FlvToken) || StartsWith(url, RtmpScheme))
    ensures d == Native <==> url != "" && !MatchesToken(url, HlsToken)
                             && !MatchesToken(url, FlvToken) && !StartsWith(url, RtmpScheme)
  {
    if url == "" then NoSource
    else if TestToken(url, HlsToken) then Hls
    else if TestToken(url, FlvToken) || StartsWith(url, RtmpScheme) then Flv
    else Native
  }

  /** A URL ending in `.m3u8`, in any letter case, goes to the HLS decoder. */
  lemma HlsBySuffix(prefix: string, suffix: string)
    requires |suffix| == 5 && suffix[0] == '.' && suffix[2] == '3' && suffix[4] == '8'
    requires suffix[1] in "mM" && suffix[3] in "uU"
    ensures Classify(prefix + suffix) == Hls
  {
    var url := prefix + suffix;
    assert TokenAt(url, HlsToken, |prefix|) by {
      forall k | 0 <= k < 5 ensures AsciiLower(url[|prefix| + k]) == HlsToken[k] {
        assert url[|prefix| + k] == suffix[k];
      }
    }
  }

  /** So does a URL with `.m3u8` just before its query string. */
  lemma HlsWithQuery(prefix: string, query: string)
    ensures Classify(prefix + ".m3u8?" + query) == Hls
  {
    var url := prefix + ".m3u8?" + query;
    assert TokenAt(url, HlsToken, |prefix|) by {
      forall k | 0 <= k <= 5 ensures url[|prefix| + k] == ".m3u8?"[k] {
      }
    }
  }

  /** A URL ending in `.flv` goes to the FLV decoder unless it also matches the HLS pattern. */
  lemma FlvBySuffix(prefix: string)
    requires !MatchesToken(prefix + ".flv", HlsToken)
    ensures Classify(prefix + ".flv") == Flv
  {
    var url := prefix + ".flv";
    assert TokenAt(url, FlvToken, |prefix|) by {
      forall k | 0 <= k < 4 ensures url[|prefix| + k] == FlvToken[k] {
      }
    }
  }

  /** An `rtmp` URL goes to the FLV decoder unless it also matches the HLS pattern. */
  lemma RtmpIsFlv(rest: string)
    requires !MatchesToken("rtmp" + rest, HlsToken)
    ensures Classify("rtmp" + rest) == Flv
  {
    assert StartsWith("rtmp" + rest, RtmpScheme);
  }

  // ---------------------------------------------------------------------------
  // Channel configurations
  // ---------------------------------------------------------------------------

  const DefaultEmailServer := "smtp.qq.com"
  const DefaultEmailPort := 587
  const DefaultSubjectTemplate := "直播流报警: {type} - {message}"

  /** `dingTalkConfig`: present when the channel is enabled and has a webhook URL. */
  function DingTalkConfigOf(o: Options): (c: Option<DingTalkConfig>)
    ensures c.Some? <==> o.enableDingTalk && o.dingTalkWebhook != ""
    ensures c.Some? ==> c.value.webhook == o.dingTalkWebhook
  {
    if !o.enableDingTalk || o.dingTalkWebhook == "" then None
    else Some(DingTalkConfig(o.dingTalkWebhook))
  }

  /**
   * `emailConfig`: present when the channel is enabled with a recipient and a user
   * name; an empty server, port 0, an empty password or an empty subject fall back
   * to the defaults.
   */
  function EmailConfigOf(o: Options): (c: Option<EmailConfig>)
    ensures c.Some? <==> o.enableEmail && o.emailTo != "" && o.emailUsername != ""
    ensures c.Some? ==> c.value.to == o.emailTo && c.value.username == o.emailUsername
                        && c.value.password == o.emailPassword
    ensures c.Some? ==> c.value.server == (if o.emailServer == "" then DefaultEmailServer else o.emailServer)
    ensures c.Some? ==> c.value.port == (if o.emailPort == 0 then DefaultEmailPort else o.emailPort)
    ensures c.Some? ==> c.value.subject == (if o.emailSubject == "" then DefaultSubjectTemplate else o.emailSubject)
    ensures c.Some? ==> c.value.server != "" && c.value.port != 0 && c.value.subject != ""
  {
    if !o.enableEmail || o.emailTo == "" || o.emailUsername == "" then None
    else Some(EmailConfig(
      server := if o.emailServer != "" then o.emailServer else DefaultEmailServer,
      port := if o.emailPort != 0 then o.emailPort else DefaultEmailPort,
      username := o.emailUsername,
      password := if o.emailPassword != "" then o.emailPassword else "",
      to := o.emailTo,
      subject := if o.emailSubject != "" then o.emailSubject else DefaultSubjectTemplate))
  }

  /** The channels a dispatch from the panel reaches, in terms of the options alone. */
  lemma ChannelsFromOptions(o: Options)
    ensures DingTalkIncluded(DingTalkConfigOf(o)) <==> o.enableDingTalk && o.dingTalkWebhook != ""
    ensures EmailIncluded(EmailConfigOf(o)) <==> o.enableEmail && o.emailTo != "" && o.emailUsername != ""
  {
  }

  /** In the default template, `{type}` first occurs at index 7. */
  lemma DefaultTemplateTypeAt()
    ensures OccursAt(DefaultSubjectTemplate, TypePlaceholder, 7)
    ensures forall j :: 0 <= j < 7 ==> !OccursAt(DefaultSubjectTemplate, TypePlaceholder, j)
    ensures DefaultSubjectTemplate[..7] == "直播流报警: " && DefaultSubjectTemplate[13..] == " - {message}"
  {
    var template := DefaultSubjectTemplate;
    forall j | 0 <= j < 7 ensures !OccursAt(template, TypePlaceholder, j) {
      assert template[j] != '{';
    }
  }

  /** After the type substitution, `{message}` first occurs right after the type text and " - ". */
  lemma TypedTemplateMessageAt(text: string)
    requires |text| == 4 && '{' !in text
    ensures var s := "直播流报警: " + text + " - {message}";
      && OccursAt(s, MessagePlaceholder, 14)
      && (forall j :: 0 <= j < 14 ==> !OccursAt(s, MessagePlaceholder, j))
      && s[..14] == "直播流报警: " + text + " - " && s[23..] == []
  {
    var s := "直播流报警: " + text + " - {message}";
    assert s[14..23] == MessagePlaceholder;
    forall j | 0 <= j < 14 ensures !OccursAt(s, MessagePlaceholder, j) {
      if 7 <= j < 11 {
        assert s[j] == text[j - 7];
      }
      assert s[j] != '{';
      assert s[j..j + |MessagePlaceholder|][0] == s[j] != MessagePlaceholder[0];
    }
  }

  /** With the default template and a message without `$`, the subject reads "直播流报警: <type text> - <message>". */
  lemma DefaultSubject(t: AlertType, message: string)
    requires '$' !in message
    ensures Subject(DefaultSubjectTemplate, t, message)
         == "直播流报警: " + AlertTypeText(TypeName(t)) + " - " + message
  {
    var text := AlertTypeText(TypeName(t));
    assert |text| == 4 && '{' !in text;
    DefaultTemplateTypeAt();
    ReplaceAtFirstOccurrence(DefaultSubjectTemplate, TypePlaceholder, text, 7);
    var s1 := "直播流报警: " + text + " - {message}";
    assert Replace(DefaultSubjectTemplate, TypePlaceholder, text) == s1;
    TypedTemplateMessageAt(text);
    ReplaceAtFirstOccurrence(s1, MessagePlaceholder, message, 14);
  }

  // ---------------------------------------------------------------------------
  // Status colour
  // ---------------------------------------------------------------------------

  const AlertingColor := "#ff0000"
  const ErrorColor := "#ff4444"
  const BufferingColor := "#ffaa00"
  const PlayingColor := "#44ff44"
  const IdleColor := "#888888"

  /** `getStatusColor`: alerting outranks error, error outranks buffering, buffering outranks playing. */
  function StatusColor(s: StreamStatus, a: AlertState): (color: string)
    ensures color == AlertingColor <==> a.isAlerting
    ensures color == ErrorColor <==> !a.isAlerting && s.isError
    ensures color == BufferingColor <==> !a.isAlerting && !s.isError && s.isBuffering
    ensures color == PlayingColor <==> !a.isAlerting && !s.isError && !s.isBuffering && s.isPlaying
    ensures color == IdleColor <==> !a.isAlerting && !s.isError && !s.isBuffering && !s.isPlaying
  {
    if a.isAlerting then AlertingColor
    else if s.isError then ErrorColor
    else if s.isBuffering then BufferingColor
    else if s.isPlaying then PlayingColor
    else IdleColor
  }

  // ---------------------------------------------------------------------------
  // Diagnostic log
  // ---------------------------------------------------------------------------

  /** A log line: the time it was written (milliseconds) and its text. */
  datatype LogEntry = LogEntry(time: int, message: string)

  const MaxLogEntries := 10

  /** The most recent `MaxLogEntries` entries of a history, oldest first. */
  function RecentEntries(h: seq<LogEntry>): (r: seq<LogEntry>)
    ensures |r| <= MaxLogEntries
    ensures |r| == if |h| < MaxLogEntries then |h| else MaxLogEntries
    ensures r == h[|h| - |r|..]
  {
    if |h| > MaxLogEntries then h[|h| - MaxLogEntries..] else h
  }

  /**
   * `appendErrorLog`: the entry goes last; when that makes eleven, the oldest is
   * dropped, so the others are the newest entries of the previous log, in order.
   */
  function LogAppend(log: seq<LogEntry>, e: LogEntry): (r: seq<LogEntry>)
    ensures |r| == if |log| < MaxLogEntries then |log| + 1 else MaxLogEntries
    ensures r[|r| - 1] == e
    ensures r[..|r| - 1] == log[|log| - (|r| - 1)..]
  {
    var grown := log + [e];
    if |grown| > MaxLogEntries then grown[|grown| - MaxLogEntries..] else grown
  }

  /** Appending to the window of a history gives the window of the longer history. */
  lemma LogAppendKeepsRecent(h: seq<LogEntry>, e: LogEntry)
    ensures LogAppend(RecentEntries(h), e) == RecentEntries(h + [e])
  {
    var l := RecentEntries(h);
    var r := LogAppend(l, e);
    var w := RecentEntries(h + [e]);
    assert |r| == |w|;
    forall k | 0 <= k < |r| ensures r[k] == w[k] {
      if k == |r| - 1 {
      } else {
        assert r[k] == r[..|r| - 1][k];
      }
    }
  }

  /** `log` is the window of `h`: its last entries, as many as fit, in order. */
  predicate IsWindow(log: seq<LogEntry>, h: seq<LogEntry>) {
    && |log| == (if |h| < MaxLogEntries then |h| else MaxLogEntries)
    && forall k :: 0 <= k < |log| ==> log[k] == h[|h| - |log| + k]
  }

  /** The window of a history is exactly its recent entries. */
  lemma WindowIsRecent(log: seq<LogEntry>, h: seq<LogEntry>)
    ensures IsWindow(log, h) <==> log == RecentEntries(h)
  {
    var r := RecentEntries(h);
    if IsWindow(log, h) {
      assert |log| == |r|;
      forall k | 0 <= k < |log| ensures log[k] == r[k] {
        assert r[k] == h[|h| - |r|..][k];
      }
    }
    if log == r {
      forall k | 0 <= k < |log| ensures log[k] == h[|h| - |log| + k] {
        assert r[k] == h[|h| - |r|..][k];
      }
    }
  }

  /** Appending keeps the window: the new log is the window of the longer history. */
  lemma WindowAppend(log: seq<LogEntry>, h: seq<LogEntry>, e: LogEntry)
    requires IsWindow(log, h)
    ensures IsWindow(LogAppend(log, e), h + [e])
  {
    WindowIsRecent(log, h);
    LogAppendKeepsRecent(h, e);
    WindowIsRecent(LogAppend(log, e), h + [e]);
  }

  // ---------------------------------------------------------------------------
  // Monitors, cool-down gate and message texts
  // ---------------------------------------------------------------------------

  /** The buffer monitor runs when alerts are on and the threshold (seconds) is not 0. */
  predicate BufferMonitorOn(o: Options) {
    o.enableAlerts && o.bufferThreshold != 0
  }

  /** The error monitor runs when alerts are on and the threshold (a count) is not 0. */
  predicate ErrorMonitorOn(o: Options) {
    o.enableAlerts && o.errorThreshold != 0
  }

  /** Buffering of `elapsed` milliseconds is too long when it exceeds the threshold (seconds) strictly. */
  predicate BufferTooLong(elapsed: int, thresholdSeconds: int) {
    elapsed > thresholdSeconds * 1000
  }

  /** A count of consecutive errors reaches the threshold. */
  predicate ErrorsReachThreshold(count: nat, threshold: int) {
    count >= threshold
  }

  const CoolDownMs := 5 * 60 * 1000

  /** External dispatch is allowed when none happened yet or the last one is at least 5 minutes old. */
  function CoolDownOver(last: Option<int>, now: int): (open: bool)
    ensures open <==> last.None? || now - last.value >= 300000
    ensures last.Some? && now == last.value + CoolDownMs ==> open
    ensures last.Some? && last.value <= now < last.value + CoolDownMs ==> !open
  {
    !(last.Some? && now - last.value < CoolDownMs)
  }

  const UnknownErrorText := "未知错误"
  const StalledText := "流连接中断"

  /** The native error text, with "未知错误" when the media element gives no message. */
  function PlaybackErrorText(detail: string): string {
    "播放错误: " + (if detail != "" then detail else UnknownErrorText)
  }

  function HlsErrorText(details: string): string {
    "HLS错误: " + details
  }

  function FlvErrorText(detail: string): string {
    "FLV错误: " + detail
  }

  /** The buffer alert's message, with the elapsed time rounded to whole seconds. */
  function BufferTooLongText(elapsed: int): string {
    "缓冲时间过长: " + IntToString(RoundedSeconds(elapsed)) + "秒"
  }

  /** The error alert's message, with the new count and the current error text. */
  function ConsecutiveErrorsText(count: nat, errorMessage: string): string {
    "连续错误" + NatToString(count) + "次: " + errorMessage
  }

  /** The log line `triggerAlert` writes. */
  function TriggerLogText(t: AlertType, message: string): string {
    "触发报警: [" + TypeName(t) + "] " + message
  }
}
