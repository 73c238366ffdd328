/**
 * The SMS helper: a chain of checks on the recipient, the body and the three configuration
 * values, then one call to the SMS provider. The provider is outside the model: the call is a
 * function parameter, `twilio`, from the request to the provider's reply.
 */
module Sms {
  import opened Wrappers
  import opened Text

  /** The longest body accepted. */
  const MaxBodyLength := 1600

  const MissingPhone := "Missing or empty phone number"
  const MissingBody := "Missing or invalid message body"
  const BodyTooLong := "Message body exceeds 1600 characters"
  const NotConfigured := "SMS not configured"
  const NoSid := "Twilio returned no message SID"
  const UnknownError := "Unknown Twilio error"

  /** The three environment values, each possibly unset. */
  datatype SmsEnv = SmsEnv(accountSid: Option<string>, authToken: Option<string>, phoneNumber: Option<string>)

  datatype TwilioConfig = TwilioConfig(accountSid: string, authToken: string, fromNumber: string)

  /** What the provider is asked to send. */
  datatype TwilioRequest = TwilioRequest(accountSid: string, authToken: string, body: string, from: string, to: string)

  /** The provider's answer: a message with a SID (possibly empty), or a thrown error, with or without a message. */
  datatype TwilioReply = Created(sid: string) | ThrewError(message: string) | ThrewOther

  /** What `sendSms` returns: exactly one of a SID or an error. */
  datatype SmsResult = SmsSent(sid: string) | SmsFailed(error: string)

  /** A configured value: set and not empty. */
  predicate Present(v: Option<string>) {
    v.Some? && v.value != ""
  }

  /** `getTwilioConfig`: the configuration when all three values are present, otherwise nothing. */
  function GetTwilioConfig(env: SmsEnv): (r: Option<TwilioConfig>)
    ensures r.Some? <==> Present(env.accountSid) && Present(env.authToken) && Present(env.phoneNumber)
    ensures r.Some? ==> r.value == TwilioConfig(env.accountSid.value, env.authToken.value, env.phoneNumber.value)
  {
    if Present(env.accountSid) && Present(env.authToken) && Present(env.phoneNumber)
    then Some(TwilioConfig(env.accountSid.value, env.authToken.value, env.phoneNumber.value))
    else None
  }

  /** The checks made before any call, in order; `None` when the message may be sent. */
  function PreSendError(to: string, body: string, env: SmsEnv): (r: Option<string>)
    ensures r.None? <==> !IsBlank(to) && body != "" && |body| <= MaxBodyLength && GetTwilioConfig(env).Some?
    ensures IsBlank(to) ==> r == Some(MissingPhone)
    ensures !IsBlank(to) && body == "" ==> r == Some(MissingBody)
    ensures !IsBlank(to) && body != "" && |body| > MaxBodyLength ==> r == Some(BodyTooLong)
    ensures !IsBlank(to) && body != "" && |body| <= MaxBodyLength && GetTwilioConfig(env).None? ==> r == Some(NotConfigured)
  {
    if IsBlank(to) then Some(MissingPhone)
    else if body == "" then Some(MissingBody)
    else if |body| > MaxBodyLength then Some(BodyTooLong)
    else if GetTwilioConfig(env).None? then Some(NotConfigured)
    else None
  }

  /** The provider's reply as a result: a non-empty SID is success, everything else an error. */
  function ReplyResult(reply: TwilioReply): (r: SmsResult)
    ensures r.SmsSent? <==> reply.Created? && reply.sid != ""
    ensures r.SmsSent? ==> r.sid == reply.sid
    ensures reply.ThrewError? ==> r == SmsFailed(reply.message)
  {
    match reply
    case Created(sid) => if sid != "" then SmsSent(sid) else SmsFailed(NoSid)
    case ThrewError(message) => SmsFailed(message)
    case ThrewOther => SmsFailed(UnknownError)
  }

  /** The request built for the provider: the configured account and sender, and the trimmed recipient. */
  function RequestFor(config: TwilioConfig, to: string, body: string): TwilioRequest {
    TwilioRequest(config.accountSid, config.authToken, body, config.fromNumber, Trim(to))
  }

  /**
   * `sendSms`: the checks, then the provider call. Only when every check passes is the
   * provider asked, and it is asked with the trimmed recipient.
   */
  function SendSms(to: string, body: string, env: SmsEnv, twilio: TwilioRequest -> TwilioReply): (r: SmsResult)
    ensures PreSendError(to, body, env).Some? ==> r == SmsFailed(PreSendError(to, body, env).value)
    ensures PreSendError(to, body, env).None? ==>
              r == ReplyResult(twilio(RequestFor(GetTwilioConfig(env).value, to, body)))
    ensures r.SmsSent? ==> r.sid != "" && PreSendError(to, body, env).None?
  {
    var pre := PreSendError(to, body, env);
    if pre.Some? then SmsFailed(pre.value)
    else ReplyResult(twilio(RequestFor(GetTwilioConfig(env).value, to, body)))
  }

  /** A body of exactly 1600 characters passes the length check; 1601 does not. */
  lemma BodyLengthBoundary(to: string, body: string, env: SmsEnv)
    requires !IsBlank(to)
    ensures |body| == 1600 ==> PreSendError(to, body, env) != Some(BodyTooLong)
    ensures |body| == 1601 ==> PreSendError(to, body, env) == Some(BodyTooLong)
  {
  }

  /** The input checks come before the configuration: bad input is reported even when nothing is configured. */
  lemma InputCheckedBeforeConfig(to: string, body: string)
    requires IsBlank(to) || body == "" || |body| > MaxBodyLength
    ensures PreSendError(to, body, SmsEnv(None, None, None)) != Some(NotConfigured)
  {
  }

  /** Surrounding whitespace on the recipient makes no difference to what is sent. */
  lemma RecipientPaddingIrrelevant(to: string, body: string, env: SmsEnv, twilio: TwilioRequest -> TwilioReply)
    ensures SendSms(Trim(to), body, env, twilio) == SendSms(to, body, env, twilio)
  {
    TrimIdempotent(to);
  }
}
