/** Mailgun email gateway: its configuration record and the translation of
    a Mailgun response to the unified email response. */
module Mailgun {
  import opened Wrappers
  import opened Validation
  import opened Ports

  datatype MailgunConfig = MailgunConfig(apiKey: string, domain: string, baseUrl: string)

  const ApiKeyRequired := "Mailgun API key is required"
  const DomainRequired := "Mailgun domain is required"
  const BaseUrlRequired := "Mailgun baseUrl is required"

  /** The compact constructor: apiKey, domain, baseUrl must each be non-null
      and non-blank, checked in that order. */
  function NewConfig(apiKey: Option<string>, domain: Option<string>, baseUrl: Option<string>)
    : (r: Validated<MailgunConfig>)
    ensures r.Accepted? <==> Present(apiKey) && Present(domain) && Present(baseUrl)
    ensures !Present(apiKey) ==> r == Rejected(ApiKeyRequired)
    ensures Present(apiKey) && !Present(domain) ==> r == Rejected(DomainRequired)
    ensures Present(apiKey) && Present(domain) && !Present(baseUrl) ==> r == Rejected(BaseUrlRequired)
    ensures r.Accepted? ==> r.value == MailgunConfig(apiKey.value, domain.value, baseUrl.value)
  {
    var checks := [Requirement(Present(apiKey), ApiKeyRequired),
                   Requirement(Present(domain), DomainRequired),
                   Requirement(Present(baseUrl), BaseUrlRequired)];
    var failure := FirstFailure(checks);
    assert Present(apiKey) && !Present(domain) ==> !checks[1].holds && checks[0].holds;
    if failure.Some? then Rejected(failure.value)
    else
      assert checks[0].holds && checks[1].holds && checks[2].holds;
      Accepted(MailgunConfig(apiKey.value, domain.value, baseUrl.value))
  }

  datatype MailgunRequest = MailgunRequest(from: string, to: string, subject: string, text: string, domain: string)
  datatype MailgunResponse = MailgunResponse(id: Option<string>, message: Option<string>, errors: Option<string>)

  /** The Mailgun API call, taken as an input. */
  type MailgunApi = MailgunRequest -> MailgunResponse

  const Sent := "SENT"
  const FailedStatus := "FAILED"

  /** `send`: map the message (plus the configured domain) to a request, call
      the API, and translate: null or empty errors is "SENT" with the
      provider id, anything else "FAILED" with the errors. */
  function Send(config: MailgunConfig, api: MailgunApi, m: EmailMessage): (r: EmailGatewayResponse)
    ensures var raw := api(MailgunRequest(m.from, m.to, m.subject, m.body, config.domain));
      && (r.status == Some(Sent) <==> raw.errors.None? || raw.errors.value == "")
      && (r.status == Some(Sent) ==> r.messageId == raw.id && r.errorMessage == None)
      && (r.status != Some(Sent) ==> r.status == Some(FailedStatus) && r.messageId == None
                                      && r.errorMessage == raw.errors)
  {
    var raw := api(MailgunRequest(m.from, m.to, m.subject, m.body, config.domain));
    if raw.errors.None? || |raw.errors.value| == 0 then EmailGatewayResponse(raw.id, Some(Sent), None)
    else EmailGatewayResponse(None, Some(FailedStatus), raw.errors)
  }

  /** The provider's own status text never reaches the unified response. */
  lemma StatusNeverPropagated(config: MailgunConfig, api: MailgunApi, api': MailgunApi, m: EmailMessage)
    requires forall q :: api(q).id == api'(q).id && api(q).errors == api'(q).errors
    ensures Send(config, api, m) == Send(config, api', m)
  {
  }
}
