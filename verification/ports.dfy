/** The outbound ports of the notifiers: the channel messages, the gateway
    responses, the renderer and gateway signatures, and the observable trace
    of one send. */
module Ports {
  import opened Wrappers
  import opened Template
  import opened Results
  import Domain

  datatype EmailMessage = EmailMessage(from: string, to: string, subject: string, body: string)
  datatype SmsMessage = SmsMessage(from: string, to: string, body: string)
  datatype PushMessage = PushMessage(token: string, title: string, body: string, data: Option<Domain.Data>)
  datatype ChatMessage = ChatMessage(message: string, destination: string)

  datatype EmailGatewayResponse = EmailGatewayResponse(
    messageId: Option<string>, status: Option<string>, errorMessage: Option<string>)
  datatype SmsGatewayResponse = SmsGatewayResponse(
    messageId: Option<string>, status: Option<string>, error: Option<string>)
  datatype PushGatewayResponse = PushGatewayResponse(
    messageId: Option<string>, status: Option<string>, errors: Option<string>)
  datatype ChatGatewayResponse = ChatGatewayResponse(
    messageId: Option<string>, status: Option<string>, errorMessage: Option<string>)

  /** `TemplateEngine.render`; Crash is an exception it throws. */
  type Renderer = (string, Option<Vars>) -> Outcome<string>

  /** The gateways; None is a null response. */
  type EmailGateway = EmailMessage -> Option<EmailGatewayResponse>
  type SmsGateway = SmsMessage -> Option<SmsGatewayResponse>
  type PushGateway = PushMessage -> Option<PushGatewayResponse>
  type ChatGateway = ChatMessage -> Option<ChatGatewayResponse>

  /** One call of the renderer, with its arguments. */
  datatype RenderCall = RenderCall(template: string, variables: Option<Vars>)

  /** What one notifier send did: the renderer calls in order, the messages
      handed to the gateway, and the returned result or thrown exception. */
  datatype Run<M> = Run(renders: seq<RenderCall>, sent: seq<M>, outcome: Outcome<NotificationResult>)

  /** `variables != null && !variables.isEmpty()` */
  predicate HasVariables(variables: Option<Vars>) {
    variables.Some? && |variables.value| > 0
  }

  /** The channel-independent rule for an error indicator: a null or empty
      error text is success, anything else is a failure carrying the text. */
  function UniformResult(error: Option<string>): (r: NotificationResult)
    ensures r.IsSuccess() <==> error.None? || error.value == ""
    ensures !r.IsSuccess() ==> r.ErrorMessage() == error
  {
    if error.None? || error.value == "" then Success() else Failure(error)
  }
}
