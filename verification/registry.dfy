/** NotifierRegistry: an immutable map from the exact notification class to
    the notifier registered for it. */
module Registry {
  import opened Wrappers
  import opened Results
  import opened Ports
  import opened Domain
  import EmailNotifier
  import SmsNotifier
  import PushNotifier
  import ChatNotifier

  /** A notifier instance: its channel plus the renderer and gateway it was
      constructed with. */
  datatype Notifier =
    | EmailHandler(engine: Renderer, emailGateway: EmailGateway)
    | SmsHandler(engine: Renderer, smsGateway: SmsGateway)
    | PushHandler(engine: Renderer, pushGateway: PushGateway)
    | ChatHandler(engine: Renderer, chatGateway: ChatGateway)
  {
    /** The notification class the notifier's `send` accepts. */
    function Accepts(): Tag {
      match this
      case EmailHandler(_, _) => EmailTag
      case SmsHandler(_, _) => SmsTag
      case PushHandler(_, _) => PushTag
      case ChatHandler(_, _) => ChatTag
    }
  }

  /** The map handed to the constructor, taken as a value at the moment of
      the lookup: the registry keeps the caller's map by reference, and
      later changes to that map are not modelled. */
  type NotifierRegistry = map<Tag, Notifier>

  /** `registry.get(notification.getClass())`: exact-class lookup; an absent
      key yields null, not an exception. */
  function Get(registry: NotifierRegistry, n: Notification): (r: Option<Notifier>)
    ensures r.Some? <==> n.GetTag() in registry
    ensures r.Some? ==> r.value == registry[n.GetTag()]
  {
    if n.GetTag() in registry then Some(registry[n.GetTag()]) else None
  }

  /** `notifier.send(notification)` through the erased generic type: a
      notifier registered under another class fails the cast in its bridge
      method and throws. */
  function Invoke(h: Notifier, n: Notification): (r: Outcome<NotificationResult>)
    ensures h.Accepts() != n.GetTag() ==> r.Crash?
    ensures h.EmailHandler? && n.Email? ==> r == EmailNotifier.Send(h.engine, h.emailGateway, n.email).outcome
    ensures h.SmsHandler? && n.Sms? ==> r == SmsNotifier.Send(h.engine, h.smsGateway, n.sms).outcome
    ensures h.PushHandler? && n.Push? ==> r == PushNotifier.Send(h.engine, h.pushGateway, n.push).outcome
    ensures h.ChatHandler? && n.Chat? ==> r == ChatNotifier.Send(h.engine, h.chatGateway, n.chat).outcome
  {
    match (h, n)
    case (EmailHandler(engine, gateway), Email(e)) => EmailNotifier.Send(engine, gateway, e).outcome
    case (SmsHandler(engine, gateway), Sms(s)) => SmsNotifier.Send(engine, gateway, s).outcome
    case (PushHandler(engine, gateway), Push(p)) => PushNotifier.Send(engine, gateway, p).outcome
    case (ChatHandler(engine, gateway), Chat(c)) => ChatNotifier.Send(engine, gateway, c).outcome
    case _ => Crash
  }

  /** Lookup depends on the class alone: notifications of the same class
      resolve to the same notifier from a given map. */
  lemma LookupByClassOnly(registry: NotifierRegistry, n: Notification, n': Notification)
    requires n.GetTag() == n'.GetTag()
    ensures Get(registry, n) == Get(registry, n')
  {
  }
}
