/** Firebase push gateway: its configuration record and the translation of
    a Firebase response to the unified push response. */
module Firebase {
  import opened Wrappers
  import opened Text
  import opened Validation
  import opened Ports
  import Domain

  datatype FirebaseConfig = FirebaseConfig(projectId: string, serviceAccountKey: string)

  const ProjectIdRequired := "ProjectId is required"
  const ServiceAccountKeyRequired := "Service account key is required"

  /** The compact constructor: projectId, then serviceAccountKey, must be
      non-null and non-blank. */
  function NewConfig(projectId: Option<string>, serviceAccountKey: Option<string>)
    : (r: Validated<FirebaseConfig>)
    ensures r.Accepted? <==> Present(projectId) && Present(serviceAccountKey)
    ensures !Present(projectId) ==> r == Rejected(ProjectIdRequired)
    ensures Present(projectId) && !Present(serviceAccountKey) ==> r == Rejected(ServiceAccountKeyRequired)
    ensures r.Accepted? ==> r.value == FirebaseConfig(projectId.value, serviceAccountKey.value)
  {
    var checks := [Requirement(Present(projectId), ProjectIdRequired),
                   Requirement(Present(serviceAccountKey), ServiceAccountKeyRequired)];
    var failure := FirstFailure(checks);
    if failure.Some? then Rejected(failure.value)
    else
      assert checks[0].holds && checks[1].holds;
      Accepted(FirebaseConfig(projectId.value, serviceAccountKey.value))
  }

  datatype FirebaseRequest = FirebaseRequest(token: string, title: string, body: string, data: Option<Domain.Data>)
  datatype FirebaseResponse = FirebaseResponse(messageId: Option<string>, status: Option<string>, errors: Option<string>)

  type FirebaseApi = FirebaseRequest -> FirebaseResponse

  const SuccessStatus := "success"

  /** `send`: copy token, title, body and data, call the API, and translate:
      "success" (ignoring case) keeps the id and drops the errors, any other
      status drops the id and keeps the errors; the status is passed
      through on both branches. */
  function Send(config: FirebaseConfig, api: FirebaseApi, m: PushMessage): (r: PushGatewayResponse)
    ensures var raw := api(FirebaseRequest(m.token, m.title, m.body, m.data));
      && r.status == raw.status
      && (EqualsIgnoreCase(SuccessStatus, raw.status) ==> r.messageId == raw.messageId && r.errors == None)
      && (!EqualsIgnoreCase(SuccessStatus, raw.status) ==> r.messageId == None && r.errors == raw.errors)
  {
    var raw := api(FirebaseRequest(m.token, m.title, m.body, m.data));
    if EqualsIgnoreCase(SuccessStatus, raw.status) then PushGatewayResponse(raw.messageId, raw.status, None)
    else PushGatewayResponse(None, raw.status, raw.errors)
  }
}
