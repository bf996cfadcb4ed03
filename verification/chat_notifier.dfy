/** ChatNotifier.send: render the message only when variables are present,
    send (body, recipient), and read the response without a null check. */
module ChatNotifier {
  import opened Wrappers
  import opened Results
  import opened Ports
  import opened Domain

  /** Translation of the gateway response: a null response is dereferenced
      and throws; any non-null errorMessage is a failure carrying it. */
  function Interpret(response: Option<ChatGatewayResponse>): (r: Outcome<NotificationResult>)
    ensures r.Crash? <==> response.None?
    ensures r.Ok? ==> (r.value.IsSuccess() <==> response.value.errorMessage.None?)
    ensures r.Ok? ==> r.value.ErrorMessage() == response.value.errorMessage
  {
    match response
    case None => Crash
    case Some(resp) => if resp.errorMessage.Some? then Ok(Failure(resp.errorMessage)) else Ok(Success())
  }

  function Send(engine: Renderer, gateway: ChatGateway, n: ChatNotification): (run: Run<ChatMessage>)
    ensures run.renders == (if HasVariables(n.variables) then [RenderCall(n.messageTemplate, n.variables)] else [])
    ensures run.sent == [] <==> HasVariables(n.variables) && engine(n.messageTemplate, n.variables).Crash?
    ensures run.sent == [] ==> run.outcome.Crash?
    ensures |run.sent| <= 1
    // the message: (body, recipient), body raw or rendered
    ensures |run.sent| == 1 ==>
      var m := run.sent[0];
      m.destination == n.recipient
      && (!HasVariables(n.variables) ==> m.message == n.messageTemplate)
      && (HasVariables(n.variables) ==> Ok(m.message) == engine(n.messageTemplate, n.variables))
    ensures |run.sent| == 1 ==> run.outcome == Interpret(gateway(run.sent[0]))
  {
    if !HasVariables(n.variables) then
      var message := ChatMessage(n.messageTemplate, n.recipient);
      Run([], [message], Interpret(gateway(message)))
    else
      var call := RenderCall(n.messageTemplate, n.variables);
      match engine(n.messageTemplate, n.variables)
      case Crash => Run([call], [], Crash)
      case Ok(body) =>
        var message := ChatMessage(body, n.recipient);
        Run([call], [message], Interpret(gateway(message)))
  }
}
