/** The sealed Notification hierarchy: four immutable records. */
module Domain {
  import opened Wrappers
  import opened Text
  import opened Validation
  import opened Template

  /** The push data payload, `Map<String, String>`. */
  type Data = map<string, string>

  /** EmailNotification with the sender field its notifier reads. */
  datatype EmailNotification = EmailNotification(
    sender: string, recipient: string, subjectTemplate: string, bodyTemplate: string,
    variables: Option<Vars>)

  /** SmsNotification as the record declares it: no sender, no validation. */
  datatype SmsNotification = SmsNotification(
    recipient: string, messageTemplate: string, variables: Option<Vars>)

  datatype PushNotification = PushNotification(
    recipient: string, deviceToken: string, titleTemplate: string, bodyTemplate: string,
    variables: Option<Vars>, data: Option<Data>)

  /** Built through NewChatNotification, which enforces ValidChat. */
  datatype ChatNotification = ChatNotification(
    recipient: string, messageTemplate: string, variables: Option<Vars>)

  /** The runtime class of a notification, the registry's lookup key. */
  datatype Tag = EmailTag | SmsTag | PushTag | ChatTag

  datatype Notification =
    | Email(email: EmailNotification)
    | Sms(sms: SmsNotification)
    | Push(push: PushNotification)
    | Chat(chat: ChatNotification)
  {
    function GetTag(): Tag {
      match this
      case Email(_) => EmailTag
      case Sms(_) => SmsTag
      case Push(_) => PushTag
      case Chat(_) => ChatTag
    }
  }

  const RecipientRequired := "recipient is required"
  const MessageTemplateRequired := "messageTemplate is required"

  predicate ValidChat(c: ChatNotification) {
    !IsBlank(c.recipient) && !IsBlank(c.messageTemplate)
  }

  /** The compact constructor of ChatNotification: recipient, then
      messageTemplate, must be non-null and non-blank; variables are not
      checked and may be null. */
  function NewChatNotification(recipient: Option<string>, messageTemplate: Option<string>,
                               variables: Option<Vars>): (r: Validated<ChatNotification>)
    ensures r.Accepted? <==> Present(recipient) && Present(messageTemplate)
    ensures !Present(recipient) ==> r == Rejected(RecipientRequired)
    ensures Present(recipient) && !Present(messageTemplate) ==> r == Rejected(MessageTemplateRequired)
    ensures r.Accepted? ==>
      ValidChat(r.value) && r.value == ChatNotification(recipient.value, messageTemplate.value, variables)
  {
    var checks := [Requirement(Present(recipient), RecipientRequired),
                   Requirement(Present(messageTemplate), MessageTemplateRequired)];
    var failure := FirstFailure(checks);
    if failure.Some? then Rejected(failure.value)
    else
      assert checks[0].holds && checks[1].holds;
      Accepted(ChatNotification(recipient.value, messageTemplate.value, variables))
  }
}
