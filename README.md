# Stream live panel: a Dafny model of the panel's state machine and alert dispatch

This project models the core of a Grafana panel plugin that plays a live video
stream and raises alerts when the stream is unhealthy. It has two parts.

- **The panel** (`src/components/SimplePanel.tsx`). The panel resolves its list of
  sources from the query's `video_url` column, picks a decoder by URL, and tracks
  playback health (`StreamStatus`) and alerting (`AlertState`). It keeps a log of
  the last ten diagnostic entries. Two monitors turn long buffering or repeated
  errors into alerts. External notifications are throttled by a five-minute
  cool-down.
- **The alert service** (`src/services/alertService.ts`). It picks the external
  channels for an alert (a DingTalk webhook and an e-mail hand-off), holds the
  text and style-class tables of the alert types, and builds the e-mail subject
  from a template. It also decides when each transport counts as a success.

Files:

- `wrappers.dfy`: `Option`.
- `js_text.dfy` (module `JsText`): the JavaScript string and number behaviour the
  core relies on. This covers `indexOf`, and `String.prototype.replace` with a
  string pattern: only the first occurrence is replaced, and the replacement's `$`
  patterns are still expanded. It also covers the case-insensitive
  `/\.ext($|\?)/i` test, `Math.round` of a duration, and how numbers render in
  template literals.
- `alert_service.dfy` (module `AlertService`): the alert service.
- `panel_logic.dfy` (module `PanelLogic`): the panel's pure parts. These are the
  options, the status records, source resolution, decoder choice, the channel
  configurations with their defaults, the status colour, the bounded log, the
  cool-down test and the message texts.
- `stream_panel.dfy` (module `PanelState`): the class `StreamPanel`. It holds the
  panel's state, with one method per media event, decoder callback, source
  change, alert operation and monitor observation.
- `scenarios.dfy` (module `Scenarios`): short runs of events whose outcomes follow
  from the class's contracts alone.

Modelling conventions:

- Time is an integer number of milliseconds, passed as `now`.
- Each React `setState` closure becomes a field update of the class.
- Each monitor `useEffect` becomes one explicit observation step, `ObserveBuffer`
  or `ObserveErrors`.
- The outcomes of the network and browser calls behind the transports are a
  parameter, `net: Transports`.
- The class keeps a ghost `history` of every log entry ever appended. Its
  invariant states that `log` is the last ten entries of that history.
- The class keeps the notifications it attempted in `outbound`.

Some behaviours of the code are easy to miss, and the model keeps them:

- HLS and FLV error callbacks set `isError` but do not clear `isPlaying`. So
  "playing while in error" is reachable. `PlayingExcludesError` holds only across
  the native media events.
- Source resolution keeps only non-empty strings, because `url &&` rejects the
  empty string.
- The e-mail configuration is built only when both the recipient and the user name
  are set.
- The subject template's `replace` calls expand `$` patterns found in the message.
- A change of `videoUrl` rebuilds the source list and so resets the panel like a data change. Any other option change takes effect at the next observation, without a reset.

## Model

| member | source | states |
|---|---|---|
| JsText.IndexOfFrom | src/services/alertService.ts:76-78 | the result is the first index at or after `k` where the pattern occurs; `None` means it occurs nowhere from `k` on |
| JsText.IndexOfIsFirst | src/services/alertService.ts:76-78 | an occurrence with none before it is the one `indexOf` returns |
| JsText.SubstitutionLiteral | src/services/alertService.ts:76-78 | a replacement without `$` is inserted verbatim by the `$`-pattern expansion |
| JsText.ReplaceLiteral | src/services/alertService.ts:76-78 | when the replacement has no `$`, `replace` splices it in place of the first occurrence |
| JsText.ReplaceAtFirstOccurrence | src/services/alertService.ts:76-78 | replacing at the first occurrence keeps the text before it and everything after the matched text, later occurrences included |
| JsText.ReplaceWithoutOccurrence | src/services/alertService.ts:76-78 | a string without the pattern is returned unchanged |
| JsText.Substitution | src/services/alertService.ts:76-78 | definition: a replacement string's `$$`, `$&`, `` $` `` and `$'` expand to a dollar sign, the match, the text before it and the text after it; any other character, a lone `$` included, is copied. Its properties are `SubstitutionLiteral` and `DollarPatternStep` |
| JsText.Replace | src/services/alertService.ts:76-78 | definition: `s.replace(p, r)` with a string pattern replaces the first occurrence only, with `r` expanded; its properties are the `Replace…` lemmas below |
| JsText.Splice | src/services/alertService.ts:76-78 | definition: plain splicing at the first occurrence, the reference that `ReplaceLiteral` and `EscapedDollarPattern` compare `replace` with |
| JsText.DollarPatternStep | src/services/alertService.ts:76-78 | for any replacement, `$` followed by a character `c` and then a rest expands to `c`'s pattern value followed by the rest's expansion: a single `$` for `$`, the match for `&`, the text before for `` ` ``, the text after for `'`, and `$c` itself for any other `c` |
| JsText.MatchedTextPattern | src/services/alertService.ts:78 | for every string and pattern, replacing with `$&` gives back the string, because `$&` stands for the matched text |
| JsText.SurroundingTextPatterns | src/services/alertService.ts:78 | for every string and pattern first found at `i`, replacing with `` $`$' `` puts the text before the match twice, then the text after it twice |
| JsText.EscapedDollarPattern | src/services/alertService.ts:78 | for every string and pattern, replacing with `$$` is splicing a single `$` at the first occurrence |
| JsText.SearchToken | src/components/SimplePanel.tsx:316 | the scan from position `k` succeeds iff the token, up to ASCII letter case, stands at some position from `k` on and is followed by the end or `?` |
| JsText.TestToken | src/components/SimplePanel.tsx:350 | the regular-expression test is true iff the token matches somewhere in the URL |
| JsText.RoundedSeconds | src/components/SimplePanel.tsx:202-204 | the result is the nearest whole second to the duration in milliseconds, with halves rounded up |
| JsText.NatToString | src/components/SimplePanel.tsx:224 | the decimal rendering of a count is a non-empty string of digits, with no leading zero, and has two digits or more exactly from 10 on |
| JsText.NatToStringRoundTrip | src/components/SimplePanel.tsx:224 | reading the rendered digits back gives the number |
| JsText.IntToString | src/components/SimplePanel.tsx:204 | the rendering of an integer starts with `-` exactly when it is negative |
| JsText.IntToStringRoundTrip | src/components/SimplePanel.tsx:204 | after the sign, the rendering is all digits, and they read back as the integer's magnitude, so the rendering determines the integer |
| AlertService.TypeName | src/services/alertService.ts:4 | every alert kind is written as one of `error`, `buffer`, `connection` |
| AlertService.TypeNameInjective | src/services/alertService.ts:4 | different kinds are written differently |
| AlertService.AlertTypeText | src/services/alertService.ts:129-136 | the type text is the default text exactly for a type name outside the three known ones, and no text contains `$` |
| AlertService.AlertTypeTextDistinct | src/services/alertService.ts:129-136 | the three known types have three different texts |
| AlertService.AlertClass | src/services/alertService.ts:138-145 | the class is `error` iff the type is `error` or `connection`, `warning` iff it is `buffer`, and `info` iff it is unknown |
| AlertService.Subject | src/services/alertService.ts:76-78 | definition: the template's first `{type}` is replaced by the type text, then the first `{message}` of the result by the message, both through `Replace`; the splice form is `SubjectSplicesFirstOccurrences` |
| AlertService.SubjectSplicesFirstOccurrences | src/services/alertService.ts:76-78 | for a message without `$`, the subject is the template with the first `{type}` spliced to the type text, then the first `{message}` spliced to the message |
| AlertService.DingTalkSucceeded | src/services/alertService.ts:53-69 | the webhook counts as sent iff it answered with an ok status and an `errcode` of exactly 0; a thrown call is a failure |
| AlertService.EmailSucceeded | src/services/alertService.ts:112-125 | the mail counts as sent iff the hand-off ran with `mailto` available; otherwise, and when it threw, it failed |
| AlertService.DingTalkIncluded | src/services/alertService.ts:155 | definition: the webhook channel is tried iff its configuration exists with a non-empty webhook; used by `ExternalAttempts` and `ChannelsFromOptions` |
| AlertService.EmailIncluded | src/services/alertService.ts:159 | definition: the mail channel is tried iff its configuration exists with a non-empty recipient; used by `ExternalAttempts` and `ChannelsFromOptions` |
| AlertService.ExternalAttempts | src/services/alertService.ts:153-161 | one attempt per included channel, so there are at most two; DingTalk goes first iff its webhook is non-empty, and e-mail goes last iff its recipient is non-empty, with the substituted subject |
| AlertService.SendExternalAlert | src/services/alertService.ts:148-170 | the settled attempts are exactly the included channels' attempts in order; with no channel nothing is attempted, and a failed channel is an entry, never an error |
| PanelLogic.FindField | src/components/SimplePanel.tsx:65 | the result is the first field with the name, and `None` iff no field has it |
| PanelLogic.CellUrl | src/components/SimplePanel.tsx:68-70 | definition: a cell contributes itself iff it is a non-empty string (`url && typeof url === 'string'`); the step of `RowUrls` and `ColumnUrls` |
| PanelLogic.RowUrls | src/components/SimplePanel.tsx:67-72 | definition: the non-empty string cells of a column, in row order; `RowUrlsMembers` says which strings they are |
| PanelLogic.FieldUrls | src/components/SimplePanel.tsx:65-72 | definition: the sources of a series are those of its first `video_url` field, none without one; `FieldUrlsMembers` says which they are |
| PanelLogic.SeriesUrls | src/components/SimplePanel.tsx:63-75 | definition: the sources of all series, in series order then row order; `SeriesUrlsMembers` and `SeriesUrlsNonEmpty` characterise them |
| PanelLogic.ResolvedSources | src/components/SimplePanel.tsx:76-80 | definition: the sources found, or `[videoUrl]` when none is found and `videoUrl` is set; `ResolvedSourcesSpec` and `ResolveSources` state its properties |
| PanelLogic.CurrentSource | src/components/SimplePanel.tsx:84 | definition: `urls[0] || ''`; `ResolvedSourcesSpec` shows it is the first resolved source or the empty string |
| PanelLogic.ResolveSources | src/components/SimplePanel.tsx:61-81 | the pushing loop computes the resolved source list |
| PanelLogic.ColumnUrls | src/components/SimplePanel.tsx:67-72 | the inner loop collects a column's non-empty string cells in row order |
| PanelLogic.RowUrlsMembers | src/components/SimplePanel.tsx:69-70 | a string is collected from a column iff it is non-empty and is one of its cells |
| PanelLogic.FieldUrlsMembers | src/components/SimplePanel.tsx:65-72 | a series yields exactly the non-empty strings of its first `video_url` field |
| PanelLogic.SeriesUrlsMembers | src/components/SimplePanel.tsx:63-75 | the sources found are exactly the non-empty strings listed by some series |
| PanelLogic.SeriesUrlsNonEmpty | src/components/SimplePanel.tsx:69 | no source found is the empty string |
| PanelLogic.ResolvedSourcesSpec | src/components/SimplePanel.tsx:76-84 | the found sources if there are any, else `[videoUrl]` when set, else nothing; no source is empty; the current source is the first, or the empty string |
| JsText.MatchesToken | src/components/SimplePanel.tsx:316 | definition: what `/\.ext($|\?)/i.test(url)` means, namely that some position holds the token up to ASCII case followed by the end or `?` (also line 350); `SearchToken` and `TestToken` are proved against it |
| JsText.StartsWith | src/components/SimplePanel.tsx:350 | definition: `url.startsWith('rtmp')` as the sequence prefix test; the FLV branch of `Classify` and `RtmpIsFlv` use it |
| PanelLogic.Classify | src/components/SimplePanel.tsx:308-386 | four disjoint outcomes: no source iff the URL is empty; HLS iff `.m3u8` matches; FLV iff HLS does not match and `.flv` matches or the URL starts with `rtmp`; native otherwise |
| PanelLogic.HlsBySuffix | src/components/SimplePanel.tsx:316 | a URL ending in `.m3u8`, in any letter case, goes to the HLS decoder |
| PanelLogic.HlsWithQuery | src/components/SimplePanel.tsx:316 | a URL with `.m3u8?` followed by a query goes to the HLS decoder |
| PanelLogic.FlvBySuffix | src/components/SimplePanel.tsx:350 | a URL ending in `.flv` that is not HLS goes to the FLV decoder |
| PanelLogic.RtmpIsFlv | src/components/SimplePanel.tsx:350 | an `rtmp` URL that is not HLS goes to the FLV decoder |
| PanelLogic.DingTalkConfigOf | src/components/SimplePanel.tsx:106-113 | the configuration exists iff the channel is enabled with a non-empty webhook, and carries that webhook |
| PanelLogic.EmailConfigOf | src/components/SimplePanel.tsx:115-127 | the configuration exists iff e-mail is enabled with a recipient and a user name; server, port and subject default to `smtp.qq.com`, 587 and the default template |
| PanelLogic.ChannelsFromOptions | src/components/SimplePanel.tsx:106-127 | a dispatch from the panel includes DingTalk iff it is enabled with a webhook, and e-mail iff it is enabled with a recipient and a user name |
| PanelLogic.DefaultTemplateTypeAt | src/components/SimplePanel.tsx:125 | in the default template, `{type}` first occurs at index 7 |
| PanelLogic.TypedTemplateMessageAt | src/components/SimplePanel.tsx:125 | after the type text is spliced in, `{message}` first occurs right after it and " - " |
| PanelLogic.DefaultSubject | src/components/SimplePanel.tsx:125 | with the default template and a message without `$`, the subject reads "直播流报警: <type text> - <message>" |
| PanelLogic.StatusColor | src/components/SimplePanel.tsx:399-405 | each of the five colours is chosen iff its condition holds and none of the higher-priority ones does, in the order alerting, error, buffering, playing, idle |
| PanelLogic.RecentEntries | src/components/SimplePanel.tsx:56 | the window of a history is its last `min(n, 10)` entries |
| PanelLogic.LogAppend | src/components/SimplePanel.tsx:53-58 | after an append the log holds at most 10 entries, the new entry last, and the others are the previous log's newest entries in order, so the oldest is evicted first |
| PanelLogic.LogAppendKeepsRecent | src/components/SimplePanel.tsx:53-58 | appending to the window of a history gives the window of the history extended by the entry |
| PanelLogic.WindowIsRecent | src/components/SimplePanel.tsx:53-58 | the element-wise window predicate holds iff the log equals the history's recent entries |
| PanelLogic.WindowAppend | src/components/SimplePanel.tsx:53-58 | an append keeps the log the window of the extended history |
| PanelLogic.BufferMonitorOn | src/components/SimplePanel.tsx:196 | definition: the buffer monitor runs iff alerts are on and the threshold is not 0; the guard of `ObserveBuffer` |
| PanelLogic.ErrorMonitorOn | src/components/SimplePanel.tsx:217 | definition: the error monitor runs iff alerts are on and the threshold is not 0; the guard of `ObserveErrors` |
| PanelLogic.BufferTooLong | src/components/SimplePanel.tsx:202-203 | definition: the elapsed milliseconds exceed the threshold in seconds strictly; the test of `BufferingCheck` |
| PanelLogic.ErrorsReachThreshold | src/components/SimplePanel.tsx:220-223 | definition: the new count is at least the threshold; the test of `ErrorTick` |
| PanelLogic.CoolDownOver | src/components/SimplePanel.tsx:133-136 | dispatch is allowed iff there was none yet or the last is at least 300000 ms old; it is allowed at exactly five minutes and refused before |
| PanelLogic.PlaybackErrorText | src/components/SimplePanel.tsx:263-266 | definition: "播放错误: " and the element's message, or "未知错误" without one; the status text and log line of `OnError` |
| PanelLogic.HlsErrorText | src/components/SimplePanel.tsx:338-341 | definition: "HLS错误: " and the decoder's detail; the status text and log line of `OnHlsError` |
| PanelLogic.FlvErrorText | src/components/SimplePanel.tsx:373-376 | definition: "FLV错误: " and the decoder's detail; the status text and log line of `OnFlvError` |
| PanelLogic.BufferTooLongText | src/components/SimplePanel.tsx:204 | definition: "缓冲时间过长: ", the rounded seconds and "秒"; the message of a buffer alert |
| PanelLogic.ConsecutiveErrorsText | src/components/SimplePanel.tsx:224 | definition: "连续错误", the new count, "次: " and the current error text; the message of an error alert |
| PanelLogic.TriggerLogText | src/components/SimplePanel.tsx:182 | definition: "触发报警: [", the type name, "] " and the message; the log line of `TriggerAlert` |
| PanelState.Raise | src/components/SimplePanel.tsx:163-169 | definition: the alert becomes active with the type, the message and the time, and the cool-down stamp moves to `now` iff the gate was open (lines 149-152); counters and buffer timer are kept. `TriggerAlert` states it as its new alert state |
| PanelState.Clear | src/components/SimplePanel.tsx:186-191 | definition: `isAlerting`, `alertType` and `alertMessage` are reset and the rest is kept; the new alert state of `ClearAlert` |
| PanelState.Dispatched | src/components/SimplePanel.tsx:133-148 | definition: nothing inside the cool-down, otherwise the included channels' attempts carrying a snapshot of type, message, current source, time, error count and retry count from before the trigger; what `SendExternalAlertNotification` records |
| PanelLogic.InitialStatus | src/components/SimplePanel.tsx:31-38 | definition: the initial stream status; not playing, not buffering, no error, no message, no retries. Its partner `InitialAlert` (lines 40-48) is a constant: not alerting, no type, message or time, no errors, no timer and no stamp. The constructor states both |
| PanelState.StreamPanel.constructor | src/components/SimplePanel.tsx:31-84 | the sources are resolved and the first is current; status, alert and log start at their defaults |
| PanelState.StreamPanel.AppendErrorLog | src/components/SimplePanel.tsx:53-58 | the entry joins the history and the log becomes the bounded append; the log stays the history's window |
| PanelState.StreamPanel.SourcesChanged | src/components/SimplePanel.tsx:87-103 | sources are resolved again and the first is current; retries, error, error count, buffer timer, the active alert and the cool-down stamp are reset; playing, buffering, the alert message and time, and the log are unchanged |
| PanelState.StreamPanel.OptionsChanged | src/components/SimplePanel.tsx:61-103 | the new options are kept; with the same `videoUrl` sources, status and alert are unchanged; with a different one the sources are resolved again from the new address and the panel is reset as for a source change |
| PanelState.StreamPanel.SelectSource | src/components/SimplePanel.tsx:444 | the chosen source becomes current and nothing else changes |
| PanelState.StreamPanel.ClearAlert | src/components/SimplePanel.tsx:185-192 | only `isAlerting`, `alertType` and `alertMessage` change |
| PanelState.StreamPanel.SendExternalAlertNotification | src/components/SimplePanel.tsx:130-157 | inside the cool-down nothing is sent and nothing changes; otherwise the configured channels' attempts, with a snapshot of the current source, counters and time, are recorded and the stamp becomes `now` |
| PanelState.StreamPanel.TriggerAlert | src/components/SimplePanel.tsx:160-183 | with alerts off nothing changes; otherwise the alert becomes active with this type, message and time, the gated dispatch happens, exactly one log line is written, and the counters, buffer timer and status are untouched |
| PanelState.StreamPanel.OnPlay | src/components/SimplePanel.tsx:239-248 | playing, no error, no error message, and any active alert cleared |
| PanelState.StreamPanel.OnPause | src/components/SimplePanel.tsx:250-256 | not playing, and `lastUpdate` becomes `now`; nothing else of the status changes |
| PanelState.StreamPanel.OnError | src/components/SimplePanel.tsx:258-267 | in error and not playing, with the element's message or the default text, and the same text logged |
| PanelState.StreamPanel.OnWaiting | src/components/SimplePanel.tsx:269-275 | buffering, and `lastUpdate` becomes `now`; nothing else of the status changes |
| PanelState.StreamPanel.OnCanPlay | src/components/SimplePanel.tsx:277-283 | not buffering, and `lastUpdate` becomes `now`; nothing else of the status changes |
| PanelState.StreamPanel.OnStalled | src/components/SimplePanel.tsx:285-287 | a connection alert is triggered at once, whatever the thresholds |
| PanelState.StreamPanel.OnHlsManifestParsed | src/components/SimplePanel.tsx:326-332 | the error and its message are cleared; nothing else changes |
| PanelState.StreamPanel.OnHlsError | src/components/SimplePanel.tsx:334-342 | in error with the decoder's detail, one more retry, logged; `isPlaying` is not touched |
| PanelState.StreamPanel.OnFlvLoadingComplete | src/components/SimplePanel.tsx:361-367 | the error and its message are cleared; nothing else changes |
| PanelState.StreamPanel.OnFlvError | src/components/SimplePanel.tsx:369-377 | in error with the decoder's detail, one more retry, logged; `isPlaying` is not touched |
| PanelState.StreamPanel.ObserveBuffer | src/components/SimplePanel.tsx:195-213 | off unless alerts are on and the threshold is non-zero; the first buffering observation only starts the timer; a buffer alert fires only when the elapsed time is strictly greater than the threshold; when not buffering the timer goes and only a buffer alert is cleared |
| PanelState.StreamPanel.BufferingTick | src/components/SimplePanel.tsx:198-206 | while buffering: start the timer, or, once the elapsed time strictly exceeds the threshold, raise a buffer alert giving the rounded seconds |
| PanelState.StreamPanel.BufferingCheck | src/components/SimplePanel.tsx:202-205 | with the timer running for `elapsed` ms: nothing changes unless `elapsed` strictly exceeds the threshold; then a buffer alert with the rounded seconds is raised, dispatched through the gate and logged once |
| PanelState.StreamPanel.BufferingOver | src/components/SimplePanel.tsx:207-212 | when buffering is over: the timer goes, and the alert is cleared only if it is a buffer alert |
| PanelState.StreamPanel.ObserveErrors | src/components/SimplePanel.tsx:216-232 | off unless alerts are on and the threshold is non-zero; in error the count goes up by exactly one and an error alert fires iff the new count reaches the threshold; otherwise the count becomes 0 and only an error alert is cleared |
| PanelState.StreamPanel.ErrorTick | src/components/SimplePanel.tsx:219-225 | in error: one more consecutive error, and an error alert naming the new count when it reaches the threshold; the dispatched snapshot carries the count from before |
| PanelState.StreamPanel.ErrorsOver | src/components/SimplePanel.tsx:226-231 | out of error: the count becomes 0, and the alert is cleared only if it is an error alert |
| Scenarios.HlsSourceSelected | src/components/SimplePanel.tsx:316 | a single `.m3u8` cell becomes the current source and is played by the HLS decoder |
| Scenarios.FirstDecoderErrorIsCounted | src/components/SimplePanel.tsx:219-225 | with threshold 2, one decoder error is counted and retried, but raises no alert |
| Scenarios.DecoderErrorsReachThreshold | src/components/SimplePanel.tsx:216-232 | with threshold 2, the second error observation raises an error alert naming the count 2 and the decoder's detail |
| Scenarios.RecoveryClearsErrorAlert | src/components/SimplePanel.tsx:226-231 | after an error alert, a parsed manifest lets the next observation clear the alert and reset the count; the retry count stays |
| Scenarios.BufferingWithinThreshold | src/components/SimplePanel.tsx:198-205 | buffering up to exactly the threshold keeps the timer at its start and raises nothing |
| Scenarios.LongBufferingRaisesBufferAlert | src/components/SimplePanel.tsx:202-204 | buffering strictly past the threshold raises a buffer alert with the elapsed time in its message |
| Scenarios.CanPlayClearsBufferAlert | src/components/SimplePanel.tsx:207-212 | `canplay` after a buffer alert lets the next observation clear the alert and the timer |
| Scenarios.CoolDownSuppressesRepeats | src/components/SimplePanel.tsx:133-152 | a repeat inside five minutes is not sent, and repeats after the gate reopens, including one at exactly five minutes, are sent |
| Scenarios.StallRaisesConnectionAlert | src/components/SimplePanel.tsx:285-287 | a stall raises a connection alert even with both thresholds switched off |
| Scenarios.AlertColorWins | src/components/SimplePanel.tsx:399-405 | the alert colour wins over buffering |
| Scenarios.StallIsLogged | src/components/SimplePanel.tsx:182 | a stall writes exactly the line "触发报警: [connection] 流连接中断" |
| Scenarios.SourceChangeResets | src/components/SimplePanel.tsx:87-103 | a source change during an alert resets retries, the alert and the cool-down; the alert message and the log stay |
| Scenarios.MixedColumnResolves | src/components/SimplePanel.tsx:67-72 | a non-string cell and an empty string are skipped, and the address after them becomes current |
| Scenarios.VideoUrlChangeSwitchesSource | src/components/SimplePanel.tsx:76-103 | without query data, a new `videoUrl` becomes the current source and ends an active alert |
| Scenarios.DecoderErrorWhilePlaying | src/components/SimplePanel.tsx:334-342 | a decoder error while playing leaves the stream both playing and in error |

## Left out

- Rendering is not modelled: JSX, styles, the overlays, the drop-down's markup and the log list (`SimplePanel.tsx` 407-604). It is presentation only. The status colour is kept as a function, and picking a source as `SelectSource`.
- Decoder loading is not modelled: the dynamic `import` of hls.js and flv.js, decoder construction, `loadSource`/`attachMedia`/`load`/`play`, `destroy` on clean-up, and assigning `video.src`. These are foreign asynchronous libraries. `Classify` models which branch is taken, and the decoders' callbacks are event methods.
- The `isSupported()` / `canPlayType` fallbacks inside the HLS and FLV branches are not modelled. They depend on the browser.
- Sound alerts are not modelled: `audio.play()` and its failure log line. This is a foreign promise-based call whose outcome the model does not see.
- The transports' effects are not modelled: `fetch`, `response.json()`, `window.open`, `encodeURIComponent`, the markdown and HTML bodies, and `console` output. They are I/O. Their outcomes are the `Transports` parameter, and the model records which notification each attempt carries.
- Dates are integer milliseconds. `toLocaleString` and `toLocaleTimeString` are not modelled, so a log entry's time is the timestamp itself.
- `RoundedSeconds` divides integers. It matches `Math.round(ms / 1000)` on the real numbers and ignores floating-point rounding.
- React's scheduling is not modelled. The model does not capture when effects re-run, how state updates are batched, or stale closures. Each monitor is an observation step that the caller invokes.
- PanelState.StreamPanel.ObserveErrors: when the error effect re-runs is not modelled. The effect depends on `alertState.consecutiveErrors` (`SimplePanel.tsx` 232), and it writes that field itself (221). So in the code the effect runs again after every commit while `isError` holds. A single decoder error with threshold 2 then raises the alert, and the count keeps climbing, re-alerting and logging, until the error clears. In the model, one call is one run of the effect. `Scenarios.FirstDecoderErrorIsCounted` is therefore a run of one observation, not of the program.
- PanelState.StreamPanel.ObserveBuffer: when the buffer effect re-runs is not modelled. The effect runs again only when one of its dependencies changes (213). Time passing is not one of them, so a stream that only keeps buffering may never reach the threshold test in the code. In the model, the caller decides when observations happen. `Scenarios.LongBufferingRaisesBufferAlert` is therefore a run of two observations, not of the program.
- `SendExternalAlertNotification` stamps the cool-down when it is called. In the code, the stamp is set after the dispatch is awaited, so two triggers during one dispatch would both pass the gate. The model does not capture that race.
- The `catch` branch of the notification (`SimplePanel.tsx` 153-156) is not modelled. `sendExternalAlert` never rejects, so the branch cannot run.
- `alertVisual` and `alertSound` are fields of `Options`, but no operation reads them. `alertVisual` only affects rendering, and `alertSound` only the sound, which is not modelled.
- `bufferThreshold`, `errorThreshold` and `emailPort` are integers. The panel's number inputs also accept fractions, such as a threshold of 2.5. The model does not cover a threshold that is not a whole number. Real-number arithmetic in the panel's contracts was too costly to verify.
- When `data` changes is up to the caller. The reset runs whenever `data` or `videoUrl` changes (`SimplePanel.tsx` 81, 103). A new `data` object resets the panel even when it lists the same sources: that is `SourcesChanged`, called by the caller. A `videoUrl` change is `OptionsChanged`.
- The options are total. The model does not cover an option that is `undefined`, `NaN` or of the wrong type. A missing string is the empty string and a missing number is 0, which the code's truthiness tests treat the same way.
- `src/module.ts` (panel option registration) and `src/types.ts` (the option interface, which `Options` mirrors) are not modelled. They declare editors and types and do nothing at run time.
- PanelState.StreamPanel.OnHlsError and PanelState.StreamPanel.OnFlvError do not preserve `PlayingExcludesError`. The code does not clear `isPlaying` on a decoder error, which `Scenarios.DecoderErrorWhilePlaying` shows.
