/** SmsNotifier.send: always render the message template, send it from the
    fixed sender "SYSTEM", and accept a null response as success. */
module SmsNotifier {
  import opened Wrappers
  import opened Results
  import opened Ports
  import opened Domain

  const SystemSender := "SYSTEM"

  /** Translation of the gateway response: null-tolerant, so it never throws;
      only a present response with a non-null error is a failure. */
  function Interpret(response: Option<SmsGatewayResponse>): (r: NotificationResult)
    ensures r.IsSuccess() <==> response.None? || response.value.error.None?
    ensures !r.IsSuccess() ==> r.ErrorMessage() == response.value.error
  {
    if response.Some? && response.value.error.Some? then Failure(response.value.error) else Success()
  }

  function Send(engine: Renderer, gateway: SmsGateway, n: SmsNotification): (run: Run<SmsMessage>)
    // exactly one render call, whatever the variables are
    ensures run.renders == [RenderCall(n.messageTemplate, n.variables)]
    ensures engine(n.messageTemplate, n.variables).Crash? ==> run.sent == [] && run.outcome.Crash?
    // otherwise exactly one message, from SYSTEM, with the rendered text
    ensures engine(n.messageTemplate, n.variables).Ok? ==>
      run.sent == [SmsMessage(SystemSender, n.recipient, engine(n.messageTemplate, n.variables).value)]
    ensures |run.sent| == 1 ==> run.outcome == Ok(Interpret(gateway(run.sent[0])))
  {
    var call := RenderCall(n.messageTemplate, n.variables);
    match engine(n.messageTemplate, n.variables)
    case Crash => Run([call], [], Crash)
    case Ok(text) =>
      var message := SmsMessage(SystemSender, n.recipient, text);
      Run([call], [message], Ok(Interpret(gateway(message))))
  }
}
