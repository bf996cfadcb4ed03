/** PushNotifier.send: always render title then body, send them to the
    device token with the data payload, and treat an empty errors text as
    success. */
module PushNotifier {
  import opened Wrappers
  import opened Results
  import opened Ports
  import opened Domain

  /** Translation of the gateway response: a null response is dereferenced
      and throws; a non-null, non-empty errors text is a failure carrying it;
      a null or empty one is success. */
  function Interpret(response: Option<PushGatewayResponse>): (r: Outcome<NotificationResult>)
    ensures r.Crash? <==> response.None?
    ensures r.Ok? ==> (r.value.IsSuccess() <==> response.value.errors.None? || response.value.errors.value == "")
    ensures r.Ok? && !r.value.IsSuccess() ==> r.value.ErrorMessage() == response.value.errors
  {
    match response
    case None => Crash
    case Some(resp) =>
      if resp.errors.Some? && |resp.errors.value| > 0 then Ok(Failure(resp.errors)) else Ok(Success())
  }

  function Send(engine: Renderer, gateway: PushGateway, n: PushNotification): (run: Run<PushMessage>)
    // title then body, each rendered once, whatever the variables are
    ensures run.renders == [RenderCall(n.titleTemplate, n.variables)]
                           + (if engine(n.titleTemplate, n.variables).Ok?
                              then [RenderCall(n.bodyTemplate, n.variables)] else [])
    ensures |run.sent| <= 1
    ensures run.sent == [] <==>
      engine(n.titleTemplate, n.variables).Crash? || engine(n.bodyTemplate, n.variables).Crash?
    ensures run.sent == [] ==> run.outcome.Crash?
    // the message: token and data copied, recipient not used
    ensures |run.sent| == 1 ==>
      var m := run.sent[0];
      m.token == n.deviceToken && m.data == n.data
      && Ok(m.title) == engine(n.titleTemplate, n.variables)
      && Ok(m.body) == engine(n.bodyTemplate, n.variables)
    ensures |run.sent| == 1 ==> run.outcome == Interpret(gateway(run.sent[0]))
  {
    var titleCall := RenderCall(n.titleTemplate, n.variables);
    var bodyCall := RenderCall(n.bodyTemplate, n.variables);
    match engine(n.titleTemplate, n.variables)
    case Crash => Run([titleCall], [], Crash)
    case Ok(title) =>
      match engine(n.bodyTemplate, n.variables)
      case Crash => Run([titleCall, bodyCall], [], Crash)
      case Ok(body) =>
        var message := PushMessage(n.deviceToken, title, body, n.data);
        Run([titleCall, bodyCall], [message], Interpret(gateway(message)))
  }

  /** The recipient never reaches the gateway: two notifications that differ
      only in recipient produce the same run. */
  lemma RecipientIgnored(engine: Renderer, gateway: PushGateway, n: PushNotification, recipient: string)
    ensures Send(engine, gateway, n.(recipient := recipient)) == Send(engine, gateway, n)
  {
  }
}
