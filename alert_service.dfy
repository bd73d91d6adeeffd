/**
 * The alert service: which external channels an alert goes to, the texts and
 * style classes of the alert types, the e-mail subject, and when each of the two
 * transports (a DingTalk chat-bot webhook and a mailto hand-off) counts as a
 * success. The transports' network and browser calls are not modelled; their
 * outcomes are inputs.
 */
module AlertService {
  import opened Wrappers
  import opened JsText

  /** The three alert kinds (`'error' | 'buffer' | 'connection'`). */
  datatype AlertType = ErrorAlert | BufferAlert | ConnectionAlert

  /** The string a kind is written as in the source. */
  function TypeName(t: AlertType): (name: string)
    ensures IsKnownType(name)
  {
    match t
    case ErrorAlert => "error"
    case BufferAlert => "buffer"
    case ConnectionAlert => "connection"
  }

  predicate IsKnownType(name: string) {
    name == "error" || name == "buffer" || name == "connection"
  }

  lemma TypeNameInjective(t: AlertType, u: AlertType)
    ensures TypeName(t) == TypeName(u) ==> t == u
  {
  }

  /** The snapshot handed to the transports when an alert is dispatched. */
  datatype AlertInfo = AlertInfo(
    alertType: AlertType,
    message: string,
    streamUrl: string,
    timestamp: int,
    errorCount: nat,
    retryCount: nat)

  datatype DingTalkConfig = DingTalkConfig(webhook: string)

  datatype EmailConfig = EmailConfig(
    server: string,
    port: int,
    username: string,
    password: string,
    to: string,
    subject: string)

  // ---------------------------------------------------------------------------
  // Texts
  // ---------------------------------------------------------------------------

  const UnknownTypeText := "未知错误"

  /** `getAlertTypeText`: the human-readable name of an alert type. */
  function AlertTypeText(name: string): (text: string)
    ensures text == UnknownTypeText <==> !IsKnownType(name)
    ensures '$' !in text
  {
    if name == "error" then "播放错误"
    else if name == "buffer" then "缓冲超时"
    else if name == "connection" then "连接中断"
    else UnknownTypeText
  }

  /** The three known types have three different texts. */
  lemma AlertTypeTextDistinct(a: string, b: string)
    requires IsKnownType(a) && IsKnownType(b) && a != b
    ensures AlertTypeText(a) != AlertTypeText(b)
  {
  }

  /** `getAlertClass`: the style class of the e-mail body. */
  function AlertClass(name: string): (cls: string)
    ensures cls == "error" <==> name == "error" || name == "connection"
    ensures cls == "warning" <==> name == "buffer"
    ensures cls == "info" <==> !IsKnownType(name)
  {
    if name == "error" then "error"
    else if name == "buffer" then "warning"
    else if name == "connection" then "error"
    else "info"
  }

  const TypePlaceholder := "{type}"
  const MessagePlaceholder := "{message}"

  /**
   * The e-mail subject: the first `{type}` of the template replaced by the type's
   * text, then the first `{message}` of that replaced by the message.
   */
  function Subject(template: string, t: AlertType, message: string): string {
    Replace(Replace(template, TypePlaceholder, AlertTypeText(TypeName(t))), MessagePlaceholder, message)
  }

  /** For a message without `$`, both substitutions are plain splices at the first occurrence. */
  lemma SubjectSplicesFirstOccurrences(template: string, t: AlertType, message: string)
    requires '$' !in message
    ensures Subject(template, t, message)
         == Splice(Splice(template, TypePlaceholder, AlertTypeText(TypeName(t))), MessagePlaceholder, message)
  {
    var text := AlertTypeText(TypeName(t));
    ReplaceLiteral(template, TypePlaceholder, text);
    ReplaceLiteral(Splice(template, TypePlaceholder, text), MessagePlaceholder, message);
  }

  // ---------------------------------------------------------------------------
  // Transports
  // ---------------------------------------------------------------------------

  /**
   * What the webhook call came back with: it threw (network failure, body not
   * JSON), or it answered with an HTTP status that is or is not ok and a body
   * whose `errcode` is a number or is something else (`None`).
   */
  datatype DingTalkOutcome = DingTalkThrew | DingTalkResponded(ok: bool, errcode: Option<int>)

  /** What the mail hand-off came to: it threw, or it ran with or without `mailto` in `navigator`. */
  datatype EmailOutcome = EmailThrew | EmailRan(hasMailto: bool)

  datatype Transports = Transports(dingTalk: DingTalkOutcome, email: EmailOutcome)

  /** `sendDingTalkAlert`'s result: the HTTP status must be ok and `errcode` exactly `0`. */
  function DingTalkSucceeded(o: DingTalkOutcome): (sent: bool)
    ensures sent <==> o.DingTalkResponded? && o.ok && o.errcode == Some(0)
  {
    match o
    case DingTalkThrew => false
    case DingTalkResponded(ok, errcode) =>
      if !ok then false
      else if errcode != Some(0) then false
      else true
  }

  /** `sendEmailAlert`'s result: true exactly when the mailto hand-off ran. */
  function EmailSucceeded(o: EmailOutcome): (sent: bool)
    ensures sent <==> o == EmailRan(true)
  {
    match o
    case EmailThrew => false
    case EmailRan(hasMailto) => if hasMailto then true else false
  }

  // ---------------------------------------------------------------------------
  // sendExternalAlert
  // ---------------------------------------------------------------------------

  /** An outbound notification: a webhook post or a mail with its subject. */
  datatype Notification =
    | DingTalkMessage(webhook: string, alert: AlertInfo)
    | EmailMessage(to: string, subject: string, alert: AlertInfo)

  /** A notification that was attempted, and whether its transport reported success. */
  datatype Attempt = Attempt(notification: Notification, sent: bool)

  predicate DingTalkIncluded(config: Option<DingTalkConfig>) {
    config.Some? && config.value.webhook != ""
  }

  predicate EmailIncluded(config: Option<EmailConfig>) {
    config.Some? && config.value.to != ""
  }

  /**
   * The attempts one call of `sendExternalAlert` makes: the webhook first when it
   * is configured with a non-empty URL, the mail last when it is configured with a
   * non-empty recipient, each settled with its transport's result.
   */
  function ExternalAttempts(
    dingTalk: Option<DingTalkConfig>, email: Option<EmailConfig>, alert: AlertInfo, net: Transports): (r: seq<Attempt>)
    ensures |r| == (if DingTalkIncluded(dingTalk) then 1 else 0) + (if EmailIncluded(email) then 1 else 0)
    ensures DingTalkIncluded(dingTalk) ==>
      r[0] == Attempt(DingTalkMessage(dingTalk.value.webhook, alert), DingTalkSucceeded(net.dingTalk))
    ensures EmailIncluded(email) ==>
      r[|r| - 1] == Attempt(
        EmailMessage(email.value.to, Subject(email.value.subject, alert.alertType, alert.message), alert),
        EmailSucceeded(net.email))
  {
    (if DingTalkIncluded(dingTalk) then [DingTalkAttempt(dingTalk.value, alert, net)] else [])
    + (if EmailIncluded(email) then [EmailAttempt(email.value, alert, net)] else [])
  }

  function DingTalkAttempt(config: DingTalkConfig, alert: AlertInfo, net: Transports): Attempt {
    Attempt(DingTalkMessage(config.webhook, alert), DingTalkSucceeded(net.dingTalk))
  }

  function EmailAttempt(config: EmailConfig, alert: AlertInfo, net: Transports): Attempt {
    Attempt(
      EmailMessage(config.to, Subject(config.subject, alert.alertType, alert.message), alert),
      EmailSucceeded(net.email))
  }

  /**
   * `sendExternalAlert`: collects one pending attempt per included channel and
   * waits for all of them to settle. A failed channel is a `sent == false` entry,
   * never an error of the call; with no channel nothing is attempted.
   */
  method SendExternalAlert(
    dingTalk: Option<DingTalkConfig>, email: Option<EmailConfig>, alert: AlertInfo, net: Transports)
    returns (settled: seq<Attempt>)
    ensures settled == ExternalAttempts(dingTalk, email, alert, net)
  {
    var promises: seq<Attempt> := [];
    if dingTalk.Some? && dingTalk.value.webhook != "" {
      promises := promises + [DingTalkAttempt(dingTalk.value, alert, net)];
    }
    if email.Some? && email.value.to != "" {
      promises := promises + [EmailAttempt(email.value, alert, net)];
    }
    // `Promise.allSettled` only waits: every pending attempt settles, none rejects.
    settled := promises;
  }
}
