/** SendGrid email gateway: its configuration record and the translation of
    a SendGrid response to the unified email response. */
module SendGrid {
  import opened Wrappers
  import opened Text
  import opened Ports

  datatype SendGridConfig = SendGridConfig(apiKey: string, baseUrl: string)

  const NullConfig := "apiKey and baseUrl cannot be null"

  /** The compact constructor only rejects null: empty and blank strings
      are accepted. */
  function NewConfig(apiKey: Option<string>, baseUrl: Option<string>): (r: Validated<SendGridConfig>)
    ensures r.Accepted? <==> apiKey.Some? && baseUrl.Some?
    ensures r.Rejected? ==> r.message == NullConfig
    ensures r.Accepted? ==> r.value == SendGridConfig(apiKey.value, baseUrl.value)
  {
    if apiKey.None? || baseUrl.None? then Rejected(NullConfig)
    else Accepted(SendGridConfig(apiKey.value, baseUrl.value))
  }

  datatype SendGridRequest = SendGridRequest(from: string, to: string, subject: string, body: string)
  /** The second field is the HTTP status text ("CREATED"), unused by `send`. */
  datatype SendGridResponse = SendGridResponse(
    messageId: Option<string>, statusCode: Option<string>, status: Option<string>, errors: Option<string>)

  type SendGridApi = SendGridRequest -> SendGridResponse

  const AcceptedStatus := "accepted"

  /** `send`: copy the four message fields, call the API, and translate on
      the status alone: "accepted" (ignoring case) keeps the id and drops the
      errors, any other status drops the id and keeps the errors; the status
      itself is passed through. */
  function Send(config: SendGridConfig, api: SendGridApi, m: EmailMessage): (r: EmailGatewayResponse)
    ensures var raw := api(SendGridRequest(m.from, m.to, m.subject, m.body));
      && r.status == raw.status
      && (EqualsIgnoreCase(AcceptedStatus, raw.status) ==> r.messageId == raw.messageId && r.errorMessage == None)
      && (!EqualsIgnoreCase(AcceptedStatus, raw.status) ==> r.messageId == None && r.errorMessage == raw.errors)
  {
    var raw := api(SendGridRequest(m.from, m.to, m.subject, m.body));
    if EqualsIgnoreCase(AcceptedStatus, raw.status) then EmailGatewayResponse(raw.messageId, raw.status, None)
    else EmailGatewayResponse(None, raw.status, raw.errors)
  }
}
