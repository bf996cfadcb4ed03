/** Slack chat gateway: the translation of a Slack API response to the
    unified chat response. */
module Slack {
  import opened Wrappers
  import opened Ports

  datatype SlackRequest = SlackRequest(text: string, channel: string)
  datatype SlackResponse = SlackResponse(success: bool, rawResponse: Option<string>, errorMessage: Option<string>)

  type SlackApi = SlackRequest -> SlackResponse

  const ErrorStatus := "ERROR"
  const SentStatus := "SENT"
  const FixedError := "ocurrio un error al enviar el mensaje"
  const IdPrefix := "MSG-"

  /** `send`: the request is (message text, destination); the translation
      looks at the success flag only. `stamp` stands for the decimal text of
      the clock reading appended to the message id. */
  function Send(api: SlackApi, stamp: string, m: ChatMessage): (r: ChatGatewayResponse)
    ensures var raw := api(SlackRequest(m.message, m.destination));
      && (!raw.success ==> r == ChatGatewayResponse(None, Some(ErrorStatus), Some(FixedError)))
      && (raw.success ==> r.status == Some(SentStatus) && r.errorMessage == None
                          && r.messageId.Some? && IdPrefix <= r.messageId.value)
  {
    var raw := api(SlackRequest(m.message, m.destination));
    if !raw.success then ChatGatewayResponse(None, Some(ErrorStatus), Some(FixedError))
    else ChatGatewayResponse(Some(IdPrefix + stamp), Some(SentStatus), None)
  }

  /** Neither rawResponse nor errorMessage of the Slack response is
      propagated: only the success flag matters. */
  lemma OnlySuccessFlagMatters(api: SlackApi, api': SlackApi, stamp: string, m: ChatMessage)
    requires forall q :: api(q).success == api'(q).success
    ensures Send(api, stamp, m) == Send(api', stamp, m)
  {
  }
}
