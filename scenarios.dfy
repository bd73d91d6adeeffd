/**
 * Client runs of the panel, each a short sequence of events whose outcome follows
 * from the contracts of `StreamPanel` alone. The configuration is any one with the
 * settings the run needs; texts coming from the outside (URLs, decoder details),
 * the times and the transports' outcomes are parameters too.
 */
module Scenarios {
  import opened Wrappers
  import opened AlertService
  import opened PanelLogic
  import opened PanelState

  /** A single `video_url` column holding one HLS address: it becomes the current source, played by hls.js. */
  method HlsSourceSelected(o: Options, prefix: string) returns (current: string, decoder: Decoder)
    ensures current == prefix + ".m3u8" && decoder == Hls
  {
    var url := prefix + ".m3u8";
    var row := Field(VideoUrlField, [Text(url)]);
    var data := [Series([row])];
    assert FindField([row], VideoUrlField) == Some(row);
    assert RowUrls([Text(url)]) == [url] by {
      assert [Text(url)][..0] == [];
    }
    assert data[..0] == [];
    assert SeriesUrls(data) == [url];
    var p := new StreamPanel(o, data, 0);
    HlsBySuffix(prefix, ".m3u8");
    current := p.currentUrl;
    decoder := Classify(current);
  }

  /** With the error threshold at 2, a first decoder error on an HLS source is only counted. */
  method FirstDecoderErrorIsCounted(o: Options, details: string, t: int, net: Transports)
    returns (alerting: bool, count: nat, retries: nat)
    requires o.enableAlerts && o.errorThreshold == 2 && Classify(o.videoUrl) == Hls
    ensures !alerting && count == 1 && retries == 1
  {
    var p := new StreamPanel(o, [], 0);
    p.OnHlsManifestParsed();
    p.OnHlsError(details, t);
    p.ObserveErrors(t, net);
    alerting, count, retries := p.alert.isAlerting, p.alert.consecutiveErrors, p.status.retryCount;
  }

  /**
   * An HLS decoder reporting the same error twice with the error threshold at 2:
   * the second observation raises an error alert naming the count and the detail.
   */
  method DecoderErrorsReachThreshold(o: Options, details: string, t0: int, t1: int, net: Transports)
    returns (alerting: bool, kind: Option<AlertType>, message: string)
    requires o.enableAlerts && o.errorThreshold == 2 && Classify(o.videoUrl) == Hls
    ensures alerting && kind == Some(ErrorAlert)
    ensures message == ConsecutiveErrorsText(2, HlsErrorText(details))
  {
    var p := new StreamPanel(o, [], 0);
    p.OnHlsManifestParsed();
    p.OnHlsError(details, t0);
    p.ObserveErrors(t0, net);
    assert p.alert == InitialAlert.(consecutiveErrors := 1);
    p.OnHlsError(details, t1);
    p.ObserveErrors(t1, net);
    alerting, kind, message := p.alert.isAlerting, p.alert.alertType, p.alert.alertMessage;
  }

  /** After a decoder error alert, a parsed manifest lets the next observation clear it and reset the count. */
  method RecoveryClearsErrorAlert(o: Options, details: string, t0: int, t1: int, net: Transports)
    returns (alerting: bool, count: nat, retries: nat)
    requires o.enableAlerts && o.errorThreshold == 1 && Classify(o.videoUrl) == Hls
    ensures !alerting && count == 0 && retries == 1
  {
    var p := new StreamPanel(o, [], 0);
    p.OnHlsManifestParsed();
    p.OnHlsError(details, t0);
    p.ObserveErrors(t0, net);
    assert p.alert.alertType == Some(ErrorAlert);
    p.OnHlsManifestParsed();
    p.ObserveErrors(t1, net);
    alerting, count, retries := p.alert.isAlerting, p.alert.consecutiveErrors, p.status.retryCount;
  }

  /** `waiting`, then observations up to the buffer threshold: the timer starts and no alert is raised. */
  method BufferingWithinThreshold(o: Options, start: int, early: int, net: Transports)
    returns (alerting: bool, timer: Option<int>)
    requires o.enableAlerts && 0 < o.bufferThreshold && start <= early && !BufferTooLong(early - start, o.bufferThreshold)
    ensures !alerting && timer == Some(start)
  {
    var p := new StreamPanel(o, [], 0);
    p.OnWaiting(start);
    p.ObserveBuffer(start, net);
    assert p.alert == InitialAlert.(bufferStartTime := Some(start));
    p.ObserveBuffer(early, net);
    alerting, timer := p.alert.isAlerting, p.alert.bufferStartTime;
  }

  /** Buffering strictly past the threshold raises a buffer alert giving the elapsed time. */
  method LongBufferingRaisesBufferAlert(o: Options, start: int, late: int, net: Transports)
    returns (alerting: bool, kind: Option<AlertType>, message: string)
    requires o.enableAlerts && 0 < o.bufferThreshold && BufferTooLong(late - start, o.bufferThreshold)
    ensures alerting && kind == Some(BufferAlert) && message == BufferTooLongText(late - start)
  {
    var p := new StreamPanel(o, [], 0);
    p.OnWaiting(start);
    p.ObserveBuffer(start, net);
    assert p.alert == InitialAlert.(bufferStartTime := Some(start));
    p.ObserveBuffer(late, net);
    alerting, kind, message := p.alert.isAlerting, p.alert.alertType, p.alert.alertMessage;
  }

  /** `canplay` ends buffering, and the next observation clears the buffer alert and its timer. */
  method CanPlayClearsBufferAlert(o: Options, start: int, late: int, net: Transports)
    returns (alerting: bool, timer: Option<int>)
    requires o.enableAlerts && 0 < o.bufferThreshold && BufferTooLong(late - start, o.bufferThreshold)
    ensures !alerting && timer.None?
  {
    var p := new StreamPanel(o, [], 0);
    p.OnWaiting(start);
    p.ObserveBuffer(start, net);
    assert p.alert == InitialAlert.(bufferStartTime := Some(start));
    p.ObserveBuffer(late, net);
    assert p.alert.alertType == Some(BufferAlert);
    p.OnCanPlay(late);
    p.ObserveBuffer(late, net);
    alerting, timer := p.alert.isAlerting, p.alert.bufferStartTime;
  }

  /**
   * Four stalls with only a DingTalk webhook configured: the second, inside the
   * cool-down of the first, is not sent; the third, after it, is; the fourth,
   * exactly five minutes after the third, is sent too.
   */
  method CoolDownSuppressesRepeats(o: Options, t0: int, t1: int, t2: int, net: Transports)
    returns (sent0: nat, sent1: nat, sent2: nat, sent3: nat)
    requires o.enableAlerts && o.enableDingTalk && o.dingTalkWebhook != "" && !o.enableEmail
    requires t0 <= t1 < t0 + CoolDownMs <= t2
    ensures sent0 == 1 && sent1 == 1 && sent2 == 2 && sent3 == 3
  {
    var p := new StreamPanel(o, [], 0);
    p.OnStalled(t0, net);
    sent0 := |p.outbound|;
    p.OnStalled(t1, net);
    sent1 := |p.outbound|;
    p.OnStalled(t2, net);
    sent2 := |p.outbound|;
    p.OnStalled(t2 + CoolDownMs, net);
    sent3 := |p.outbound|;
  }

  /** A stall raises a connection alert at once, with both thresholds switched off. */
  method StallRaisesConnectionAlert(o: Options, t: int, net: Transports) returns (kind: Option<AlertType>)
    requires o.enableAlerts && o.errorThreshold == 0 && o.bufferThreshold == 0
    ensures kind == Some(ConnectionAlert)
  {
    var p := new StreamPanel(o, [], 0);
    p.OnStalled(t, net);
    kind := p.alert.alertType;
  }

  /** While an alert is active the status colour is the alert colour, whatever the stream does. */
  method AlertColorWins(o: Options, t: int, net: Transports) returns (color: string)
    requires o.enableAlerts
    ensures color == AlertingColor
  {
    var p := new StreamPanel(o, [], 0);
    p.OnWaiting(t);
    p.OnStalled(t, net);
    color := StatusColor(p.status, p.alert);
  }

  /** A stall writes one log line naming the type and the message. */
  method StallIsLogged(o: Options, t: int, net: Transports) returns (logged: seq<LogEntry>)
    requires o.enableAlerts
    ensures logged == [LogEntry(t, "触发报警: [connection] 流连接中断")]
  {
    var p := new StreamPanel(o, [], 0);
    p.OnStalled(t, net);
    assert TriggerLogText(ConnectionAlert, StalledText) == "触发报警: [connection] 流连接中断";
    logged := p.log;
  }

  /**
   * A source change during an active alert on an FLV source: retries, error, counters, the alert
   * and the cool-down are reset, while the log and the alert message stay.
   */
  method SourceChangeResets(o: Options, details: string, series: seq<Series>, net: Transports)
    returns (retries: nat, alerting: bool, gate: Option<int>, message: string, logLength: nat)
    requires o.enableAlerts && Classify(o.videoUrl) == Flv
    ensures retries == 0 && !alerting && gate.None?
    ensures message == StalledText && logLength == 2
  {
    var p := new StreamPanel(o, [], 0);
    p.OnFlvError(details, 100);
    p.OnStalled(200, net);
    assert p.alert.alertMessage == StalledText && |p.log| == 2;
    p.SourcesChanged(series);
    retries, alerting, gate := p.status.retryCount, p.alert.isAlerting, p.alert.lastExternalAlertTime;
    message, logLength := p.alert.alertMessage, |p.log|;
  }

  /**
   * In a frame whose `video_url` column holds a non-text cell, an empty string and
   * an address, only the address is a source, and it becomes the current one.
   */
  method MixedColumnResolves(o: Options, url: string) returns (current: string)
    requires url != ""
    ensures current == url
  {
    var row := Field(VideoUrlField, [Other, Text(""), Text(url)]);
    var data := [Series([Field("name", [Text("cam")]), row])];
    assert FindField(data[0].fields, VideoUrlField) == Some(row);
    var vs := row.values;
    assert vs[..1][..0] == [] && vs[..2][..1] == vs[..1] && vs[..3][..2] == vs[..2] && vs[..3] == vs;
    assert RowUrls(vs[..1]) == [];
    assert RowUrls(vs[..2]) == [];
    assert RowUrls(vs) == [url];
    assert FieldUrls(data[0]) == [url];
    assert data[..0] == [];
    assert SeriesUrls(data) == [url];
    var p := new StreamPanel(o, data, 0);
    current := p.currentUrl;
  }

  /**
   * A decoder error while playing leaves the stream both playing and in error:
   * unlike the native `error` event, the HLS callback does not clear `isPlaying`.
   */
  method DecoderErrorWhilePlaying(o: Options, details: string) returns (playing: bool, inError: bool)
    requires Classify(o.videoUrl) == Hls
    ensures playing && inError
  {
    var p := new StreamPanel(o, [], 0);
    p.OnHlsManifestParsed();
    p.OnPlay(0);
    p.OnHlsError(details, 100);
    playing, inError := p.status.isPlaying, p.status.isError;
  }

  /** Changing the configured `videoUrl` of a panel without query data switches to the new address and resets the alert. */
  method VideoUrlChangeSwitchesSource(o: Options, url: string, t: int, net: Transports)
    returns (current: string, alerting: bool)
    requires o.enableAlerts && url != "" && url != o.videoUrl
    ensures current == url && !alerting
  {
    var p := new StreamPanel(o, [], 0);
    p.OnStalled(t, net);
    p.OptionsChanged(o.(videoUrl := url), []);
    current, alerting := p.currentUrl, p.alert.isAlerting;
  }
}
