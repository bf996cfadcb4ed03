/** Properties that cut across components: the notifiers driven by the
    simple template engine, the notifiers driven by the concrete providers,
    the channels compared with each other, and dispatch of whole batches. */
module Scenarios {
  import opened Wrappers
  import opened Template
  import opened Results
  import opened Ports
  import opened Domain
  import opened Registry
  import opened Service
  import EmailNotifier
  import SmsNotifier
  import PushNotifier
  import ChatNotifier
  import Mailgun
  import SendGrid
  import Firebase
  import Twilio
  import Slack
  import Text

  // ---------------------------------------------------------------------
  // Gateways built from a fixed answer or from a provider

  function EmailAnswer(resp: EmailGatewayResponse): EmailGateway { m => Some(resp) }
  function SmsAnswer(resp: Option<SmsGatewayResponse>): SmsGateway { m => resp }
  function PushAnswer(resp: PushGatewayResponse): PushGateway { m => Some(resp) }

  function MailgunGateway(config: Mailgun.MailgunConfig, api: Mailgun.MailgunApi): EmailGateway {
    m => Some(Mailgun.Send(config, api, m))
  }
  function SendGridGateway(config: SendGrid.SendGridConfig, api: SendGrid.SendGridApi): EmailGateway {
    m => Some(SendGrid.Send(config, api, m))
  }
  function FirebaseGateway(config: Firebase.FirebaseConfig, api: Firebase.FirebaseApi): PushGateway {
    m => Some(Firebase.Send(config, api, m))
  }
  function TwilioGateway(config: Twilio.TwilioConfig, api: Twilio.TwilioApi): SmsGateway {
    m => Some(Twilio.Send(config, api, m))
  }
  function SlackGateway(api: Slack.SlackApi, stamp: string): ChatGateway {
    m => Some(Slack.Send(api, stamp, m))
  }

  // ---------------------------------------------------------------------
  // The notifiers with the simple template engine

  /** An email with variables {name: John}: both templates are rendered, the
      gateway receives the rendered texts, and no error means success. */
  lemma EmailWelcome(email: EmailNotification)
    requires email.subjectTemplate == "Hello {{name}}" && email.bodyTemplate == "Welcome {{name}}!"
    requires email.variables == Some([Entry("name", "John")])
    ensures var run := EmailNotifier.Send(Render, EmailAnswer(EmailGatewayResponse(Some("msg-123"), Some("accepted"), None)), email);
      && run.renders == [RenderCall(email.subjectTemplate, email.variables), RenderCall(email.bodyTemplate, email.variables)]
      && run.sent == [EmailMessage(email.sender, email.recipient, "Hello John", "Welcome John!")]
      && run.outcome == Ok(Success())
  {
    var hello, welcome, bang, name, john := "Hello ", "Welcome ", "!", "name", "John";
    var subjectParts, bodyParts := [hello, ""], [welcome, bang];
    assert subjectParts[1..] == [""] && bodyParts[1..] == [bang];
    assert Join(subjectParts, Token(name)) == email.subjectTemplate;
    assert Join(bodyParts, Token(name)) == email.bodyTemplate;
    RenderSingleEntry(subjectParts, name, john);
    RenderSingleEntry(bodyParts, name, john);
    assert Join(subjectParts, john) == "Hello John";
    assert Join(bodyParts, john) == "Welcome John!";
  }

  /** An SMS with an empty variables map is still rendered once, and the
      simple engine hands the template back unchanged. */
  lemma SmsEmptyVariables(n: SmsNotification, gateway: SmsGateway)
    requires n.variables == Some([])
    ensures var run := SmsNotifier.Send(Render, gateway, n);
      && run.renders == [RenderCall(n.messageTemplate, Some([]))]
      && run.sent == [SmsMessage(SmsNotifier.SystemSender, n.recipient, n.messageTemplate)]
  {
  }

  /** Null variables: the channels that always render (SMS, push) throw
      inside the simple engine, while the channels that check first (email,
      chat) send the raw templates. */
  lemma NullVariables(email: EmailNotification, sms: SmsNotification, push: PushNotification,
                      chat: ChatNotification, eg: EmailGateway, sg: SmsGateway, pg: PushGateway,
                      cg: ChatGateway)
    requires email.variables.None? && sms.variables.None? && push.variables.None? && chat.variables.None?
    ensures SmsNotifier.Send(Render, sg, sms).outcome.Crash? && SmsNotifier.Send(Render, sg, sms).sent == []
    ensures PushNotifier.Send(Render, pg, push).outcome.Crash? && PushNotifier.Send(Render, pg, push).sent == []
    ensures EmailNotifier.Send(Render, eg, email).sent
         == [EmailMessage(email.sender, email.recipient, email.subjectTemplate, email.bodyTemplate)]
    ensures ChatNotifier.Send(Render, cg, chat).sent == [ChatMessage(chat.messageTemplate, chat.recipient)]
  {
  }

  /** With the simple engine, the shortcut of email and chat for an empty
      map is invisible: rendering would have produced the same texts. */
  lemma EmptyMapShortcutInvisible(email: EmailNotification, eg: EmailGateway)
    requires email.variables == Some([])
    ensures EmailNotifier.Send(Render, eg, email).sent
         == [EmailMessage(email.sender, email.recipient,
                          Render(email.subjectTemplate, email.variables).value,
                          Render(email.bodyTemplate, email.variables).value)]
  {
  }

  /** A gateway error on a push is a failure carrying the gateway's text. */
  lemma PushInvalidToken(n: PushNotification, engine: Renderer, error: string)
    requires engine(n.titleTemplate, n.variables).Ok? && engine(n.bodyTemplate, n.variables).Ok?
    requires error == "Invalid device token"
    ensures PushNotifier.Send(engine, PushAnswer(PushGatewayResponse(None, Some("failed"), Some(error))), n).outcome
         == Ok(Failure(Some("Invalid device token")))
  {
  }

  /** A null SMS response is a success, not an exception. */
  lemma SmsNullResponse(n: SmsNotification, engine: Renderer)
    requires engine(n.messageTemplate, n.variables).Ok?
    ensures SmsNotifier.Send(engine, SmsAnswer(None), n).outcome == Ok(Success())
  {
  }

  // ---------------------------------------------------------------------
  // The channels compared with the uniform error rule

  /** Push follows the uniform rule exactly for every present response. */
  lemma PushFollowsUniformRule(resp: PushGatewayResponse)
    ensures PushNotifier.Interpret(Some(resp)) == Ok(UniformResult(resp.errors))
  {
  }

  /** Email and chat follow the uniform rule except on an empty error text,
      which they report as a failure. */
  lemma EmailAndChatStrictOnEmptyError(er: EmailGatewayResponse, cr: ChatGatewayResponse)
    ensures EmailNotifier.Interpret(Some(er)) == Ok(UniformResult(er.errorMessage)) <==> er.errorMessage != Some("")
    ensures ChatNotifier.Interpret(Some(cr)) == Ok(UniformResult(cr.errorMessage)) <==> cr.errorMessage != Some("")
    ensures er.errorMessage == Some("") ==> EmailNotifier.Interpret(Some(er)) == Ok(Failure(Some("")))
  {
  }

  /** SMS follows the uniform rule except on an empty error text, and on top
      of it accepts a missing response. */
  lemma SmsTolerant(resp: Option<SmsGatewayResponse>)
    ensures resp.None? ==> SmsNotifier.Interpret(resp) == Success()
    ensures resp.Some? ==> (SmsNotifier.Interpret(resp) == UniformResult(resp.value.error) <==> resp.value.error != Some(""))
  {
  }

  // ---------------------------------------------------------------------
  // The notifiers with the concrete providers

  /** Email through Mailgun: never a null response, and success exactly
      when Mailgun reports no errors (null or empty). */
  lemma EmailThroughMailgun(engine: Renderer, config: Mailgun.MailgunConfig, api: Mailgun.MailgunApi,
                            email: EmailNotification)
    ensures var run := EmailNotifier.Send(engine, MailgunGateway(config, api), email);
      |run.sent| == 1 ==>
        var m := run.sent[0];
        var raw := api(Mailgun.MailgunRequest(m.from, m.to, m.subject, m.body, config.domain));
        run.outcome == Ok(UniformResult(raw.errors))
  {
  }

  /** Email through SendGrid: success exactly when the status is "accepted"
      or SendGrid gave no errors, so a refused send without an errors text
      reaches the caller as a success. */
  lemma EmailThroughSendGrid(engine: Renderer, config: SendGrid.SendGridConfig, api: SendGrid.SendGridApi,
                             email: EmailNotification)
    ensures var run := EmailNotifier.Send(engine, SendGridGateway(config, api), email);
      |run.sent| == 1 ==>
        var m := run.sent[0];
        var raw := api(SendGrid.SendGridRequest(m.from, m.to, m.subject, m.body));
        run.outcome.Ok?
        && (run.outcome.value.IsSuccess() <==> Text.EqualsIgnoreCase(SendGrid.AcceptedStatus, raw.status) || raw.errors.None?)
        && (!run.outcome.value.IsSuccess() ==> run.outcome.value.ErrorMessage() == raw.errors)
  {
  }

  /** SMS through Twilio: success exactly when the status is "queued" or
      Twilio gave no errors; the sender is always the configured number. */
  lemma SmsThroughTwilio(engine: Renderer, config: Twilio.TwilioConfig, api: Twilio.TwilioApi, n: SmsNotification)
    ensures var run := SmsNotifier.Send(engine, TwilioGateway(config, api), n);
      |run.sent| == 1 ==>
        var raw := api(Twilio.TwilioRequest(config.fromNumber, n.recipient, run.sent[0].body));
        run.outcome.Ok?
        && (run.outcome.value.IsSuccess() <==> Text.EqualsIgnoreCase(Twilio.QueuedStatus, raw.status) || raw.errors.None?)
        && (!run.outcome.value.IsSuccess() ==> run.outcome.value.ErrorMessage() == raw.errors)
  {
  }

  /** Push through Firebase: success exactly when the status is "success" or
      Firebase's errors are null or empty. */
  lemma PushThroughFirebase(engine: Renderer, config: Firebase.FirebaseConfig, api: Firebase.FirebaseApi,
                            n: PushNotification)
    ensures var run := PushNotifier.Send(engine, FirebaseGateway(config, api), n);
      |run.sent| == 1 ==>
        var m := run.sent[0];
        var raw := api(Firebase.FirebaseRequest(n.deviceToken, m.title, m.body, n.data));
        run.outcome.Ok?
        && (run.outcome.value.IsSuccess() <==>
              Text.EqualsIgnoreCase(Firebase.SuccessStatus, raw.status) || raw.errors.None? || raw.errors.value == "")
        && (!run.outcome.value.IsSuccess() ==> run.outcome.value.ErrorMessage() == raw.errors)
  {
  }

  /** Chat through Slack: success exactly when Slack reports success, and a
      failure always carries the fixed text. */
  lemma ChatThroughSlack(engine: Renderer, api: Slack.SlackApi, stamp: string, n: ChatNotification)
    ensures var run := ChatNotifier.Send(engine, SlackGateway(api, stamp), n);
      |run.sent| == 1 ==>
        var raw := api(Slack.SlackRequest(run.sent[0].message, n.recipient));
        run.outcome == Ok(if raw.success then Success() else Failure(Some(Slack.FixedError)))
  {
  }

  // ---------------------------------------------------------------------
  // Dispatch

  /** A batch of two pushes whose gateway answers without errors completes
      with two successes, in order. */
  method TwoPushBatch(p1: PushNotification, p2: PushNotification) returns (r: Outcome<Future<seq<NotificationResult>>>)
    requires p1.variables.Some? && p2.variables.Some?
    ensures r == Ok(Completed([Success(), Success()]))
  {
    var gateway := PushAnswer(PushGatewayResponse(Some("push-msg-123"), Some("success"), None));
    var s := New(map[PushTag := PushHandler(Render, gateway)]);
    assert Send(s, Push(p1)) == Ok(Success());
    assert Send(s, Push(p2)) == Ok(Success());
    r := SendBatchAsync(s, [Push(p1), Push(p2)]);
    assert r.value.value == [Success(), Success()];
  }

  /** A notifier registered under the wrong class is found but throws when
      called. */
  lemma MisregisteredNotifierCrashes(s: NotificationService, n: Notification)
    requires n.GetTag() in s.registry && s.registry[n.GetTag()].Accepts() != n.GetTag()
    ensures Send(s, n) == Crash
  {
  }
}
