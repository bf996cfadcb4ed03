/** Twilio SMS gateway: its configuration record and the translation of a
    Twilio response to the unified SMS response. */
module Twilio {
  import opened Wrappers
  import opened Text
  import opened Validation
  import opened Ports

  datatype TwilioConfig = TwilioConfig(accountSid: string, authToken: string, fromNumber: string)

  const AccountSidRequired := "Account SID is required"
  const AuthTokenRequired := "Auth token is required"
  const FromNumberRequired := "From number is required"

  /** The compact constructor: accountSid, authToken, fromNumber must each be
      non-null and non-blank, checked in that order. */
  function NewConfig(accountSid: Option<string>, authToken: Option<string>, fromNumber: Option<string>)
    : (r: Validated<TwilioConfig>)
    ensures r.Accepted? <==> Present(accountSid) && Present(authToken) && Present(fromNumber)
    ensures !Present(accountSid) ==> r == Rejected(AccountSidRequired)
    ensures Present(accountSid) && !Present(authToken) ==> r == Rejected(AuthTokenRequired)
    ensures Present(accountSid) && Present(authToken) && !Present(fromNumber) ==> r == Rejected(FromNumberRequired)
    ensures r.Accepted? ==> r.value == TwilioConfig(accountSid.value, authToken.value, fromNumber.value)
  {
    var checks := [Requirement(Present(accountSid), AccountSidRequired),
                   Requirement(Present(authToken), AuthTokenRequired),
                   Requirement(Present(fromNumber), FromNumberRequired)];
    var failure := FirstFailure(checks);
    assert Present(accountSid) && !Present(authToken) ==> !checks[1].holds && checks[0].holds;
    if failure.Some? then Rejected(failure.value)
    else
      assert checks[0].holds && checks[1].holds && checks[2].holds;
      Accepted(TwilioConfig(accountSid.value, authToken.value, fromNumber.value))
  }

  datatype TwilioRequest = TwilioRequest(from: string, to: string, body: string)
  datatype TwilioResponse = TwilioResponse(sid: Option<string>, status: Option<string>, errors: Option<string>)

  type TwilioApi = TwilioRequest -> TwilioResponse

  const QueuedStatus := "queued"

  /** `send`: the request's sender is the configured number, not the
      message's; "queued" (ignoring case) keeps the sid and drops the errors,
      any other status drops the sid and keeps the errors. */
  function Send(config: TwilioConfig, api: TwilioApi, m: SmsMessage): (r: SmsGatewayResponse)
    ensures var raw := api(TwilioRequest(config.fromNumber, m.to, m.body));
      && r.status == raw.status
      && (EqualsIgnoreCase(QueuedStatus, raw.status) ==> r.messageId == raw.sid && r.error == None)
      && (!EqualsIgnoreCase(QueuedStatus, raw.status) ==> r.messageId == None && r.error == raw.errors)
  {
    var raw := api(TwilioRequest(config.fromNumber, m.to, m.body));
    if EqualsIgnoreCase(QueuedStatus, raw.status) then SmsGatewayResponse(raw.sid, raw.status, None)
    else SmsGatewayResponse(None, raw.status, raw.errors)
  }

  /** The message's own sender is ignored. */
  lemma MessageSenderIgnored(config: TwilioConfig, api: TwilioApi, m: SmsMessage, from: string)
    ensures Send(config, api, m.(from := from)) == Send(config, api, m)
  {
  }
}
