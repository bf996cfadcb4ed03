/** EmailNotifier.send: render subject and body only when variables are
    present, send (sender, recipient, subject, body), and read the response
    without a null check. */
module EmailNotifier {
  import opened Wrappers
  import opened Results
  import opened Ports
  import opened Domain

  /** Translation of the gateway response: a null response is dereferenced
      and throws; any non-null errorMessage, even an empty one, is a failure
      carrying it; otherwise success. */
  function Interpret(response: Option<EmailGatewayResponse>): (r: Outcome<NotificationResult>)
    ensures r.Crash? <==> response.None?
    ensures r.Ok? ==> (r.value.IsSuccess() <==> response.value.errorMessage.None?)
    ensures r.Ok? ==> r.value.ErrorMessage() == response.value.errorMessage
  {
    match response
    case None => Crash
    case Some(resp) => if resp.errorMessage.Some? then Ok(Failure(resp.errorMessage)) else Ok(Success())
  }

  function Send(engine: Renderer, gateway: EmailGateway, email: EmailNotification): (run: Run<EmailMessage>)
    // the renderer runs only for non-empty variables, subject first
    ensures !HasVariables(email.variables) ==> run.renders == []
    ensures HasVariables(email.variables) ==>
      run.renders == [RenderCall(email.subjectTemplate, email.variables)]
                     + (if engine(email.subjectTemplate, email.variables).Ok?
                        then [RenderCall(email.bodyTemplate, email.variables)] else [])
    // at most one message reaches the gateway; none only if rendering threw
    ensures |run.sent| <= 1
    ensures run.sent == [] <==>
      HasVariables(email.variables)
      && (engine(email.subjectTemplate, email.variables).Crash?
          || engine(email.bodyTemplate, email.variables).Crash?)
    ensures run.sent == [] ==> run.outcome.Crash?
    // the message: sender and recipient copied, raw or rendered texts
    ensures |run.sent| == 1 ==>
      var m := run.sent[0];
      m.from == email.sender && m.to == email.recipient
      && (!HasVariables(email.variables) ==> m.subject == email.subjectTemplate && m.body == email.bodyTemplate)
      && (HasVariables(email.variables) ==>
            Ok(m.subject) == engine(email.subjectTemplate, email.variables)
            && Ok(m.body) == engine(email.bodyTemplate, email.variables))
    // the result is the translation of the gateway's answer to that message
    ensures |run.sent| == 1 ==> run.outcome == Interpret(gateway(run.sent[0]))
  {
    var vars := email.variables;
    if !HasVariables(vars) then
      var message := EmailMessage(email.sender, email.recipient, email.subjectTemplate, email.bodyTemplate);
      Run([], [message], Interpret(gateway(message)))
    else
      var subjectCall := RenderCall(email.subjectTemplate, vars);
      var bodyCall := RenderCall(email.bodyTemplate, vars);
      match engine(email.subjectTemplate, vars)
      case Crash => Run([subjectCall], [], Crash)
      case Ok(subject) =>
        match engine(email.bodyTemplate, vars)
        case Crash => Run([subjectCall, bodyCall], [], Crash)
        case Ok(body) =>
          var message := EmailMessage(email.sender, email.recipient, subject, body);
          Run([subjectCall, bodyCall], [message], Interpret(gateway(message)))
  }
}
