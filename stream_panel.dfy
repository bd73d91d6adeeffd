/**
 * The stream panel's state holder: playback status, alert state, the bounded
 * diagnostic log, the resolved sources and the current one, and a record of
 * the external notifications dispatched. Each media event, decoder callback,
 * source change and monitor observation is one method, taking the current
 * time `now` in milliseconds and, where an alert can be raised, the
 * transports' outcomes.
 */
module PanelState {
  import opened Wrappers
  import opened AlertService
  import opened PanelLogic

  /** The alert state after `triggerAlert` raises an alert (including the gate's time stamp). */
  function Raise(a: AlertState, t: AlertType, message: string, now: int): AlertState {
    a.(isAlerting := true, alertType := Some(t), alertMessage := message, alertTime := Some(now),
       lastExternalAlertTime := if CoolDownOver(a.lastExternalAlertTime, now) then Some(now) else a.lastExternalAlertTime)
  }

  /** The alert state after `clearAlert`. */
  function Clear(a: AlertState): AlertState {
    a.(isAlerting := false, alertType := None, alertMessage := "")
  }

  /**
   * The notifications one trigger sends: none while the cool-down runs, otherwise
   * one attempt per configured channel, carrying a snapshot taken before the trigger.
   */
  function Dispatched(
    o: Options, a: AlertState, url: string, retryCount: nat, t: AlertType, message: string, now: int, net: Transports)
    : seq<Attempt>
  {
    if CoolDownOver(a.lastExternalAlertTime, now) then
      ExternalAttempts(DingTalkConfigOf(o), EmailConfigOf(o),
                       AlertInfo(t, message, url, now, a.consecutiveErrors, retryCount), net)
    else []
  }

  function TriggerEntry(t: AlertType, message: string, now: int): LogEntry {
    LogEntry(now, TriggerLogText(t, message))
  }

  /** The native media events never leave the stream playing while in error. */
  predicate PlayingExcludesError(s: StreamStatus) {
    !(s.isPlaying && s.isError)
  }

  class StreamPanel {
    /** The panel options of the latest render. */
    var options: Options
    var urls: seq<string>
    var currentUrl: string
    var status: StreamStatus
    var alert: AlertState
    var log: seq<LogEntry>
    /** Every entry ever appended, oldest first. */
    ghost var history: seq<LogEntry>
    /** The external notifications attempted so far, in order. */
    var outbound: seq<Attempt>

    ghost predicate Valid()
      reads this
    {
      && IsWindow(log, history)
      && (alert.isAlerting <==> alert.alertType.Some?)
      && (alert.isAlerting ==> alert.alertTime.Some?)
    }

    /** Mounting: sources resolved, current source their first, every status at its default. */
    constructor (options: Options, series: seq<Series>, now: int)
      ensures Valid()
      ensures this.options == options
      ensures urls == ResolvedSources(series, options.videoUrl) && currentUrl == CurrentSource(urls)
      ensures status == InitialStatus(now) && alert == InitialAlert
      ensures log == [] && history == [] && outbound == []
    {
      this.options := options;
      var resolved := ResolveSources(series, options.videoUrl);
      urls := resolved;
      currentUrl := CurrentSource(resolved);
      status := InitialStatus(now);
      alert := InitialAlert;
      log := [];
      history := [];
      outbound := [];
    }

    /** `appendErrorLog`. */
    method AppendErrorLog(message: string, now: int)
      requires Valid()
      modifies this`log, this`history
      ensures Valid()
      ensures history == old(history) + [LogEntry(now, message)]
      ensures log == LogAppend(old(log), LogEntry(now, message))
    {
      var e := LogEntry(now, message);
      WindowAppend(log, history, e);
      log, history := LogAppend(log, e), history + [e];
      assert IsWindow(log, history);
    }

    /**
     * A change of the source list: the sources are resolved again, the first becomes
     * current, and the retry and error fields and all alert fields except the
     * message and time are reset, the cool-down included.
     */
    method SourcesChanged(series: seq<Series>)
      requires Valid()
      modifies this`urls, this`currentUrl, this`status, this`alert
      ensures Valid()
      ensures urls == ResolvedSources(series, options.videoUrl) && currentUrl == CurrentSource(urls)
      ensures status == old(status).(retryCount := 0, isError := false, errorMessage := "")
      ensures alert == old(alert).(consecutiveErrors := 0, bufferStartTime := None, isAlerting := false,
                                   alertType := None, lastExternalAlertTime := None)
    {
      var resolved := ResolveSources(series, options.videoUrl);
      urls := resolved;
      currentUrl := CurrentSource(resolved);
      status := status.(retryCount := 0, isError := false, errorMessage := "");
      alert := alert.(consecutiveErrors := 0, bufferStartTime := None, isAlerting := false,
                      alertType := None, lastExternalAlertTime := None);
    }

    /**
     * A render with new options. A different `videoUrl` gives a new source list,
     * which resets the panel as a source change does; any other change of options
     * (alerts, thresholds, channels) takes effect without a reset.
     */
    method OptionsChanged(o: Options, series: seq<Series>)
      requires Valid()
      modifies this`options, this`urls, this`currentUrl, this`status, this`alert
      ensures Valid()
      ensures options == o
      ensures o.videoUrl == old(options.videoUrl) ==>
        urls == old(urls) && currentUrl == old(currentUrl) && status == old(status) && alert == old(alert)
      ensures o.videoUrl != old(options.videoUrl) ==>
        && urls == ResolvedSources(series, o.videoUrl) && currentUrl == CurrentSource(urls)
        && status == old(status).(retryCount := 0, isError := false, errorMessage := "")
        && alert == old(alert).(consecutiveErrors := 0, bufferStartTime := None, isAlerting := false,
                                alertType := None, lastExternalAlertTime := None)
    {
      var moved := o.videoUrl != options.videoUrl;
      options := o;
      if moved {
        SourcesChanged(series);
      }
    }

    /** Choosing a source from the drop-down: only the current source changes. */
    method SelectSource(url: string)
      requires Valid()
      modifies this`currentUrl
      ensures Valid()
      ensures currentUrl == url
    {
      currentUrl := url;
    }

    /** `clearAlert`: the active alert goes; its time and the counters stay. */
    method ClearAlert()
      requires Valid()
      modifies this`alert
      ensures Valid()
      ensures alert == Clear(old(alert))
    {
      alert := alert.(isAlerting := false, alertType := None, alertMessage := "");
    }

    /**
     * `sendExternalAlertNotification`: skipped while the last dispatch is less than
     * five minutes old; otherwise the alert goes to the configured channels and the
     * dispatch start time becomes the new cool-down stamp.
     */
    method SendExternalAlertNotification(t: AlertType, message: string, now: int, net: Transports)
      requires Valid()
      modifies this`alert, this`outbound
      ensures Valid()
      ensures outbound == old(outbound) + Dispatched(options, old(alert), currentUrl, status.retryCount, t, message, now, net)
      ensures alert == old(alert).(lastExternalAlertTime :=
        if CoolDownOver(old(alert.lastExternalAlertTime), now) then Some(now) else old(alert.lastExternalAlertTime))
    {
      if alert.lastExternalAlertTime.Some? && now - alert.lastExternalAlertTime.value < CoolDownMs {
        return;
      }
      var info := AlertInfo(t, message, currentUrl, now, alert.consecutiveErrors, status.retryCount);
      var settled := SendExternalAlert(DingTalkConfigOf(options), EmailConfigOf(options), info, net);
      outbound := outbound + settled;
      alert := alert.(lastExternalAlertTime := Some(now));
    }

    /**
     * `triggerAlert`: nothing when alerts are off; otherwise the alert becomes
     * active with this type, message and time, the external dispatch is attempted
     * through the cool-down gate, and one log line is written. Status, counters and
     * the buffer timer are untouched.
     */
    method TriggerAlert(t: AlertType, message: string, now: int, net: Transports)
      requires Valid()
      modifies this`alert, this`log, this`history, this`outbound
      ensures Valid()
      ensures !options.enableAlerts ==>
        alert == old(alert) && log == old(log) && history == old(history) && outbound == old(outbound)
      ensures options.enableAlerts ==>
        && alert == Raise(old(alert), t, message, now)
        && outbound == old(outbound) + Dispatched(options, old(alert), currentUrl, status.retryCount, t, message, now, net)
        && history == old(history) + [TriggerEntry(t, message, now)]
        && log == LogAppend(old(log), TriggerEntry(t, message, now))
    {
      if !options.enableAlerts {
        return;
      }
      ghost var before, o := alert, options;
      ghost var sent := Dispatched(o, before, currentUrl, status.retryCount, t, message, now, net);
      alert := alert.(isAlerting := true, alertType := Some(t), alertMessage := message, alertTime := Some(now));
      SendExternalAlertNotification(t, message, now, net);
      assert options == o;
      assert alert == Raise(before, t, message, now) && outbound == old(outbound) + sent;
      AppendErrorLog(TriggerLogText(t, message), now);
      assert options == o;
    }

    // -------------------------------------------------------------------------
    // Native media events
    // -------------------------------------------------------------------------

    /** `play`: playing, no error, and any active alert cleared. */
    method OnPlay(now: int)
      requires Valid()
      modifies this`status, this`alert
      ensures Valid()
      ensures status == old(status).(isPlaying := true, isError := false, errorMessage := "", lastUpdate := now)
      ensures alert == Clear(old(alert))
      ensures PlayingExcludesError(status)
    {
      status := status.(isPlaying := true, isError := false, errorMessage := "", lastUpdate := now);
      ClearAlert();
    }

    /** `pause`. */
    method OnPause(now: int)
      requires Valid()
      modifies this`status
      ensures Valid()
      ensures status == old(status).(isPlaying := false, lastUpdate := now)
      ensures PlayingExcludesError(status)
    {
      status := status.(isPlaying := false, lastUpdate := now);
    }

    /** `error`: in error and not playing, with the element's message (or "未知错误"), logged. */
    method OnError(detail: string, now: int)
      requires Valid()
      modifies this`status, this`log, this`history
      ensures Valid()
      ensures status == old(status).(isError := true, isPlaying := false,
                                     errorMessage := PlaybackErrorText(detail), lastUpdate := now)
      ensures history == old(history) + [LogEntry(now, PlaybackErrorText(detail))]
      ensures PlayingExcludesError(status)
    {
      status := status.(isError := true, isPlaying := false, errorMessage := PlaybackErrorText(detail), lastUpdate := now);
      AppendErrorLog(PlaybackErrorText(detail), now);
    }

    /** `waiting`. */
    method OnWaiting(now: int)
      requires Valid()
      modifies this`status
      ensures Valid()
      ensures status == old(status).(isBuffering := true, lastUpdate := now)
      ensures PlayingExcludesError(old(status)) ==> PlayingExcludesError(status)
    {
      status := status.(isBuffering := true, lastUpdate := now);
    }

    /** `canplay`. */
    method OnCanPlay(now: int)
      requires Valid()
      modifies this`status
      ensures Valid()
      ensures status == old(status).(isBuffering := false, lastUpdate := now)
      ensures PlayingExcludesError(old(status)) ==> PlayingExcludesError(status)
    {
      status := status.(isBuffering := false, lastUpdate := now);
    }

    /** `stalled`: a connection alert at once, whatever the thresholds; the status is untouched. */
    method OnStalled(now: int, net: Transports)
      requires Valid()
      modifies this`alert, this`log, this`history, this`outbound
      ensures Valid()
      ensures !options.enableAlerts ==>
        alert == old(alert) && history == old(history) && outbound == old(outbound)
      ensures options.enableAlerts ==>
        && alert == Raise(old(alert), ConnectionAlert, StalledText, now)
        && outbound == old(outbound) + Dispatched(options, old(alert), currentUrl, status.retryCount,
                                                  ConnectionAlert, StalledText, now, net)
        && history == old(history) + [TriggerEntry(ConnectionAlert, StalledText, now)]
    {
      TriggerAlert(ConnectionAlert, StalledText, now, net);
    }

    // -------------------------------------------------------------------------
    // Decoder callbacks
    // -------------------------------------------------------------------------

    /** HLS `MANIFEST_PARSED`: the error is cleared; `isPlaying` and `lastUpdate` are not touched. */
    method OnHlsManifestParsed()
      requires Valid()
      modifies this`status
      ensures Valid()
      ensures status == old(status).(isError := false, errorMessage := "")
    {
      status := status.(isError := false, errorMessage := "");
    }

    /** HLS `ERROR`: in error with the decoder's detail, one more retry, logged; `isPlaying` is not touched. */
    method OnHlsError(details: string, now: int)
      requires Valid()
      modifies this`status, this`log, this`history
      ensures Valid()
      ensures status == old(status).(isError := true, errorMessage := HlsErrorText(details),
                                     retryCount := old(status.retryCount) + 1)
      ensures history == old(history) + [LogEntry(now, HlsErrorText(details))]
    {
      status := status.(isError := true, errorMessage := HlsErrorText(details), retryCount := status.retryCount + 1);
      AppendErrorLog(HlsErrorText(details), now);
    }

    /** FLV `LOADING_COMPLETE`: the error is cleared. */
    method OnFlvLoadingComplete()
      requires Valid()
      modifies this`status
      ensures Valid()
      ensures status == old(status).(isError := false, errorMessage := "")
    {
      status := status.(isError := false, errorMessage := "");
    }

    /** FLV `ERROR`: in error with the decoder's detail, one more retry, logged. */
    method OnFlvError(errorDetail: string, now: int)
      requires Valid()
      modifies this`status, this`log, this`history
      ensures Valid()
      ensures status == old(status).(isError := true, errorMessage := FlvErrorText(errorDetail),
                                     retryCount := old(status.retryCount) + 1)
      ensures history == old(history) + [LogEntry(now, FlvErrorText(errorDetail))]
    {
      status := status.(isError := true, errorMessage := FlvErrorText(errorDetail), retryCount := status.retryCount + 1);
      AppendErrorLog(FlvErrorText(errorDetail), now);
    }

    // -------------------------------------------------------------------------
    // Monitors
    // -------------------------------------------------------------------------

    /**
     * One observation of the buffer monitor. While buffering, the first observation
     * starts the timer and later ones raise a buffer alert once the elapsed time is
     * strictly greater than the threshold; when not buffering, the timer is dropped
     * and only a buffer alert is cleared.
     */
    method ObserveBuffer(now: int, net: Transports)
      requires Valid()
      modifies this`alert, this`log, this`history, this`outbound
      ensures Valid()
      ensures !BufferMonitorOn(options) ==>
        alert == old(alert) && history == old(history) && outbound == old(outbound)
      ensures BufferMonitorOn(options) && status.isBuffering && old(alert.bufferStartTime).None? ==>
        alert == old(alert).(bufferStartTime := Some(now)) && history == old(history) && outbound == old(outbound)
      ensures BufferMonitorOn(options) && status.isBuffering && old(alert.bufferStartTime).Some?
              && !BufferTooLong(now - old(alert.bufferStartTime).value, options.bufferThreshold) ==>
        alert == old(alert) && history == old(history) && outbound == old(outbound)
      ensures BufferMonitorOn(options) && status.isBuffering && old(alert.bufferStartTime).Some?
              && BufferTooLong(now - old(alert.bufferStartTime).value, options.bufferThreshold) ==>
        var text := BufferTooLongText(now - old(alert.bufferStartTime).value);
        && alert == Raise(old(alert), BufferAlert, text, now)
        && outbound == old(outbound) + Dispatched(options, old(alert), currentUrl, status.retryCount,
                                                  BufferAlert, text, now, net)
        && history == old(history) + [TriggerEntry(BufferAlert, text, now)]
      ensures BufferMonitorOn(options) && !status.isBuffering ==>
        && alert == (if old(alert.alertType) == Some(BufferAlert) then Clear(old(alert)) else old(alert))
                    .(bufferStartTime := None)
        && history == old(history) && outbound == old(outbound)
    {
      if !options.enableAlerts || options.bufferThreshold == 0 {
        return;
      }
      if status.isBuffering {
        BufferingTick(now, net);
      } else {
        BufferingOver();
      }
    }

    /** The buffer monitor while buffering: start the timer, or alert once it has run too long. */
    method BufferingTick(now: int, net: Transports)
      requires Valid() && BufferMonitorOn(options) && status.isBuffering
      modifies this`alert, this`log, this`history, this`outbound
      ensures Valid()
      ensures old(alert.bufferStartTime).None? ==>
        alert == old(alert).(bufferStartTime := Some(now)) && history == old(history) && outbound == old(outbound)
      ensures old(alert.bufferStartTime).Some?
              && !BufferTooLong(now - old(alert.bufferStartTime).value, options.bufferThreshold) ==>
        alert == old(alert) && history == old(history) && outbound == old(outbound)
      ensures old(alert.bufferStartTime).Some?
              && BufferTooLong(now - old(alert.bufferStartTime).value, options.bufferThreshold) ==>
        var text := BufferTooLongText(now - old(alert.bufferStartTime).value);
        && alert == Raise(old(alert), BufferAlert, text, now)
        && outbound == old(outbound) + Dispatched(options, old(alert), currentUrl, status.retryCount,
                                                  BufferAlert, text, now, net)
        && history == old(history) + [TriggerEntry(BufferAlert, text, now)]
    {
      if alert.bufferStartTime.None? {
        alert := alert.(bufferStartTime := Some(now));
      } else {
        BufferingCheck(now - alert.bufferStartTime.value, now, net);
      }
    }

    /** The running timer has measured `elapsed` milliseconds: alert when that is strictly past the threshold. */
    method BufferingCheck(elapsed: int, now: int, net: Transports)
      requires Valid() && BufferMonitorOn(options)
      modifies this`alert, this`log, this`history, this`outbound
      ensures Valid()
      ensures !BufferTooLong(elapsed, options.bufferThreshold) ==>
        alert == old(alert) && history == old(history) && outbound == old(outbound)
      ensures BufferTooLong(elapsed, options.bufferThreshold) ==>
        && alert == Raise(old(alert), BufferAlert, BufferTooLongText(elapsed), now)
        && outbound == old(outbound) + Dispatched(options, old(alert), currentUrl, status.retryCount,
                                                  BufferAlert, BufferTooLongText(elapsed), now, net)
        && history == old(history) + [TriggerEntry(BufferAlert, BufferTooLongText(elapsed), now)]
    {
      if BufferTooLong(elapsed, options.bufferThreshold) {
        ghost var o := options;
        TriggerAlert(BufferAlert, BufferTooLongText(elapsed), now, net);
        assert options == o;
      }
    }

    /** The buffer monitor once buffering has ended: the timer goes, and so does a buffer alert. */
    method BufferingOver()
      requires Valid()
      modifies this`alert
      ensures Valid()
      ensures alert == (if old(alert.alertType) == Some(BufferAlert) then Clear(old(alert)) else old(alert))
                       .(bufferStartTime := None)
    {
      var active := alert.alertType;
      alert := alert.(bufferStartTime := None);
      if active == Some(BufferAlert) {
        ClearAlert();
      }
    }

    /**
     * One observation of the error monitor. While in error, the count goes up by
     * exactly one and an error alert is raised when the new count reaches the
     * threshold (the dispatched snapshot still carries the count from before);
     * when not in error, the count is reset and only an error alert is cleared.
     */
    method ObserveErrors(now: int, net: Transports)
      requires Valid()
      modifies this`alert, this`log, this`history, this`outbound
      ensures Valid()
      ensures !ErrorMonitorOn(options) ==>
        alert == old(alert) && history == old(history) && outbound == old(outbound)
      ensures ErrorMonitorOn(options) && status.isError ==>
        alert.consecutiveErrors == old(alert.consecutiveErrors) + 1
      ensures ErrorMonitorOn(options) && status.isError
              && !ErrorsReachThreshold(old(alert.consecutiveErrors) + 1, options.errorThreshold) ==>
        alert == old(alert).(consecutiveErrors := old(alert.consecutiveErrors) + 1)
        && history == old(history) && outbound == old(outbound)
      ensures ErrorMonitorOn(options) && status.isError
              && ErrorsReachThreshold(old(alert.consecutiveErrors) + 1, options.errorThreshold) ==>
        var text := ConsecutiveErrorsText(old(alert.consecutiveErrors) + 1, status.errorMessage);
        && alert == Raise(old(alert), ErrorAlert, text, now).(consecutiveErrors := old(alert.consecutiveErrors) + 1)
        && outbound == old(outbound) + Dispatched(options, old(alert), currentUrl, status.retryCount,
                                                  ErrorAlert, text, now, net)
        && history == old(history) + [TriggerEntry(ErrorAlert, text, now)]
      ensures ErrorMonitorOn(options) && !status.isError ==>
        && alert == (if old(alert.alertType) == Some(ErrorAlert) then Clear(old(alert)) else old(alert))
                    .(consecutiveErrors := 0)
        && history == old(history) && outbound == old(outbound)
    {
      if !options.enableAlerts || options.errorThreshold == 0 {
        return;
      }
      if status.isError {
        ErrorTick(now, net);
      } else {
        ErrorsOver();
      }
    }

    /** The error monitor while in error: one more consecutive error, and an alert at the threshold. */
    method ErrorTick(now: int, net: Transports)
      requires Valid() && ErrorMonitorOn(options) && status.isError
      modifies this`alert, this`log, this`history, this`outbound
      ensures Valid()
      ensures !ErrorsReachThreshold(old(alert.consecutiveErrors) + 1, options.errorThreshold) ==>
        alert == old(alert).(consecutiveErrors := old(alert.consecutiveErrors) + 1)
        && history == old(history) && outbound == old(outbound)
      ensures ErrorsReachThreshold(old(alert.consecutiveErrors) + 1, options.errorThreshold) ==>
        var text := ConsecutiveErrorsText(old(alert.consecutiveErrors) + 1, status.errorMessage);
        && alert == Raise(old(alert), ErrorAlert, text, now).(consecutiveErrors := old(alert.consecutiveErrors) + 1)
        && outbound == old(outbound) + Dispatched(options, old(alert), currentUrl, status.retryCount,
                                                  ErrorAlert, text, now, net)
        && history == old(history) + [TriggerEntry(ErrorAlert, text, now)]
    {
      var count := alert.consecutiveErrors + 1;
      if ErrorsReachThreshold(count, options.errorThreshold) {
        TriggerAlert(ErrorAlert, ConsecutiveErrorsText(count, status.errorMessage), now, net);
      }
      alert := alert.(consecutiveErrors := count);
    }

    /** The error monitor once the error has cleared: the count is reset, and an error alert goes. */
    method ErrorsOver()
      requires Valid()
      modifies this`alert
      ensures Valid()
      ensures alert == (if old(alert.alertType) == Some(ErrorAlert) then Clear(old(alert)) else old(alert))
                       .(consecutiveErrors := 0)
    {
      var active := alert.alertType;
      alert := alert.(consecutiveErrors := 0);
      if active == Some(ErrorAlert) {
        ClearAlert();
      }
    }
  }
}
