# Notification dispatch library, modelled in Dafny

This project models the core of a small Java notification library. It covers:

- the sealed `Notification` hierarchy (email, SMS, push, chat);
- the `SimpleTemplateEngine` that fills `{{key}}` placeholders;
- the four channel notifiers that render, build a channel message, call a gateway and translate the answer into a `NotificationResult`;
- the `NotifierRegistry` keyed by the exact notification class;
- the `NotificationService` with synchronous, asynchronous and batch send;
- the five provider gateways (Mailgun, SendGrid, Firebase, Twilio, Slack), with the validating constructors of their configuration records and of `ChatNotification`.

Everything is written as pure functions over immutable datatypes.

- A Java `null` is `Option.None`.
- An unchecked exception (null dereference, failed cast, rejected task) is `Outcome.Crash`.
- A constructor's `IllegalArgumentException` is `Validated.Rejected(message)`.
- The template engine and the gateways are function parameters. A notifier's `Send` returns a `Run`: the renderer calls in order, the messages handed to the gateway, and the result or crash. This makes "the renderer is not called" and "a null response is dereferenced" statable.

Files, one module each: `wrappers.dfy`, `text.dfy` (`isBlank`, `equalsIgnoreCase`), `validation.dfy` (ordered required-field checks), `template.dfy`, `results.dfy`, `domain.dfy` (notifications), `ports.dfy` (messages, gateway responses, renderer and gateway types), `email_notifier.dfy`, `sms_notifier.dfy`, `push_notifier.dfy`, `chat_notifier.dfy`, `registry.dfy`, `service.dfy`, `mailgun.dfy`, `sendgrid.dfy`, `firebase.dfy`, `twilio.dfy`, `slack.dfy`, and `scenarios.dfy` (properties that cut across components).

Where the Java sources are inconsistent, the model follows the code as written:

- SMS renders even with an empty variables map (SmsNotifier.java:23). It does not skip rendering.
- Gateway errors are single strings, not lists.
- An unregistered notification class makes `send` crash on a null notifier. It does not raise a dedicated resolution error.
- The email record is given the `sender` field that EmailNotifier.java:33 reads and Main.java:52-61 passes. EmailNotification.java declares no `sender` component.
- `SmsNotification` keeps the three fields and no validation of its record. Its tests build it with four arguments.

`EmailNotifier.Interpret` and `ChatNotifier.Interpret` are the same rule over two response types, as in the two Java classes.

`Ports.UniformResult` is the channel-independent rule "a null or empty error is success, anything else a failure carrying it". The `Scenarios` lemmas compare each channel with it.

## Model

| member | source | states |
|---|---|---|
| Template.Render | lib-notification/src/main/java/com/example/notifications/application/port/out/template/SimpleTemplateEngine.java:8-17 | A null variables map throws; an empty one returns the template unchanged; otherwise the output is the entry-by-entry fold of replacements. |
| Template.ReplaceAll | lib-notification/src/main/java/com/example/notifications/application/port/out/template/SimpleTemplateEngine.java:11-14 | Java `String.replace` for a non-empty target. Its meaning is fixed by Template.ReplaceAllLeftmost together with Template.ReplaceAllNoMatch; its own contract says a replacement as long as the target keeps the text's length. |
| Template.RenderEntries | lib-notification/src/main/java/com/example/notifications/application/port/out/template/SimpleTemplateEngine.java:9-15 | The entry loop of `render`, folded in iteration order on the running result. Template.RenderEntriesSnoc gives it its contract; its own contract says values exactly as long as their tokens keep the template's length. |
| Template.BracedKeyConsumesPlaceholder | lib-notification/src/main/java/com/example/notifications/application/port/out/template/SimpleTemplateEngine.java:10-14 | The brace-free condition is needed: the mapped key `a}}{{b` turns `{{a}}{{b}}` into `X`, so the placeholder of the unmapped key `a` disappears. |
| Template.Token | lib-notification/src/main/java/com/example/notifications/application/port/out/template/SimpleTemplateEngine.java:12 | The searched text is the key wrapped in two opening and two closing braces, four characters longer than the key. |
| Template.NoTokenStartsInBraceFree | lib-notification/src/main/java/com/example/notifications/application/port/out/template/SimpleTemplateEngine.java:11-14 | No placeholder occurrence can begin inside text without braces, whatever follows it. |
| Template.ReplaceAllNoMatch | lib-notification/src/main/java/com/example/notifications/application/port/out/template/SimpleTemplateEngine.java:11-14 | `replace` leaves a text in which the `{{key}}` token never occurs unchanged. |
| Template.ReplaceAllBySelf | lib-notification/src/main/java/com/example/notifications/application/port/out/template/SimpleTemplateEngine.java:11-14 | Replacing a token by itself is the identity. |
| Template.ReplaceAllAppend | lib-notification/src/main/java/com/example/notifications/application/port/out/template/SimpleTemplateEngine.java:11-14 | Replace-all distributes over concatenation when no occurrence straddles the seam (the scan is left to right and non-overlapping). |
| Template.ReplaceAllLeftmost | lib-notification/src/main/java/com/example/notifications/application/port/out/template/SimpleTemplateEngine.java:11-14 | The leftmost occurrence is replaced first: the text before it is copied and the scan resumes right after it. |
| Template.ReplaceEveryPlaceholder | lib-notification/src/main/java/com/example/notifications/application/port/out/template/SimpleTemplateEngine.java:11-14 | Every occurrence is replaced: brace-free pieces joined by `{{k}}` come out joined by the value. |
| Template.RenderSingleEntry | lib-notification/src/main/java/com/example/notifications/application/port/out/template/SimpleTemplateEngine.java:9-16 | With one entry, render replaces every placeholder of that key and keeps the text around it. |
| Template.RenderEntriesSnoc | lib-notification/src/main/java/com/example/notifications/application/port/out/template/SimpleTemplateEngine.java:9-15 | Render is the fold of single-key replacements in entry order on the running result: one more entry is one more replace-all of the previous output. |
| Template.RenderWithoutTokens | lib-notification/src/main/java/com/example/notifications/application/port/out/template/SimpleTemplateEngine.java:10-16 | A template holding no token of any mapped key renders to itself. |
| Template.TokensDoNotOverlap | lib-notification/src/main/java/com/example/notifications/application/port/out/template/SimpleTemplateEngine.java:12 | The token of one brace-free key never overlaps the token of a different brace-free key. |
| Template.PlaceholderSurvivesReplace | lib-notification/src/main/java/com/example/notifications/application/port/out/template/SimpleTemplateEngine.java:11-14 | For two different brace-free keys, a placeholder of the other key survives one replace-all, and the text on each side is processed on its own. |
| Template.UnmappedPlaceholderSurvives | lib-notification/src/main/java/com/example/notifications/application/port/out/template/SimpleTemplateEngine.java:10-14 | When the placeholder's key and every mapped key are brace-free and the key is absent from the map, the placeholder stays verbatim in the output and the text around it renders as if alone. |
| Results.Success | lib-notification/src/main/java/com/example/notifications/domain/result/NotificationResult.java:13-15 | `success()` is successful and carries a null error. |
| Results.Failure | lib-notification/src/main/java/com/example/notifications/domain/result/NotificationResult.java:17-19 | `failure(e)` is unsuccessful and carries exactly `e`. |
| Results.GettersDetermineResult | lib-notification/src/main/java/com/example/notifications/domain/result/NotificationResult.java:5-27 | The getters return what the factory fixed: the result is rebuilt exactly from them. |
| Validation.FirstFailure | lib-notification/src/main/java/com/example/notifications/infraestructure/email/mailgun/MailgunConfig.java:10-18 | The checks of a validating constructor run in order: none fails exactly when every one holds, and otherwise the reported message is that of the first failing check. |
| Domain.NewChatNotification | lib-notification/src/main/java/com/example/notifications/domain/model/ChatNotification.java:10-17 | Accepts exactly when recipient and messageTemplate are non-null and non-blank; recipient is checked first and decides the message; variables are unchecked and stored as given. |
| EmailNotifier.Interpret | lib-notification/src/main/java/com/example/notifications/application/service/EmailNotifier.java:37-41 | A null response throws; the result's error equals the gateway's errorMessage, and success holds exactly when it is null (an empty text is a failure). |
| EmailNotifier.Send | lib-notification/src/main/java/com/example/notifications/application/service/EmailNotifier.java:23-42 | Renders subject then body only for non-empty variables, otherwise sends the raw templates; exactly one message (sender, recipient, subject, body) reaches the gateway unless rendering throws; the outcome is the translation of the answer to that message. |
| SmsNotifier.Interpret | lib-notification/src/main/java/com/example/notifications/application/service/SmsNotifier.java:27-32 | Never throws: success exactly when the response is null or its error is null, otherwise a failure carrying the error. |
| SmsNotifier.Send | lib-notification/src/main/java/com/example/notifications/application/service/SmsNotifier.java:22-33 | Exactly one render call whatever the variables; exactly one message ("SYSTEM", recipient, rendered text) unless rendering throws. |
| PushNotifier.Interpret | lib-notification/src/main/java/com/example/notifications/application/service/PushNotifier.java:32-38 | A null response throws; success exactly when errors is null or empty; a failure carries the errors text. |
| PushNotifier.Send | lib-notification/src/main/java/com/example/notifications/application/service/PushNotifier.java:22-39 | Title then body each rendered once whatever the variables; the message carries device token, rendered texts and data unchanged. |
| PushNotifier.RecipientIgnored | lib-notification/src/main/java/com/example/notifications/application/service/PushNotifier.java:26-31 | The recipient is not part of the message: changing it changes nothing. |
| ChatNotifier.Interpret | lib-notification/src/main/java/com/example/notifications/application/service/ChatNotifier.java:34-40 | A null response throws; the result's error equals the gateway's errorMessage and success holds exactly when it is null. |
| ChatNotifier.Send | lib-notification/src/main/java/com/example/notifications/application/service/ChatNotifier.java:25-41 | Renders only for non-empty variables, otherwise sends the raw template; the message is (body, recipient). |
| Registry.Get | lib-notification/src/main/java/com/example/notifications/application/registry/NotifierRegistry.java:71-73 | Returns the notifier registered under the notification's exact class, or null when the class has no entry. |
| Registry.Invoke | lib-notification/src/main/java/com/example/notifications/application/service/NotificationService.java:32-33 | A notifier of the matching channel runs its own send; one registered under another class throws at the cast. |
| Registry.LookupByClassOnly | lib-notification/src/main/java/com/example/notifications/application/registry/NotifierRegistry.java:71-73 | For a given map, lookup depends on the class alone: notifications of the same class resolve to the same notifier. |
| Service.New | lib-notification/src/main/java/com/example/notifications/application/service/NotificationService.java:16-18 | A new service holds the given registry and an accepting executor. |
| Service.Shutdown | lib-notification/src/main/java/com/example/notifications/application/service/NotificationService.java:103-105 | Shutdown keeps the registry and stops the executor accepting tasks. |
| Service.Send | lib-notification/src/main/java/com/example/notifications/application/service/NotificationService.java:31-34 | An unregistered class throws (null notifier); otherwise the result is exactly the resolved notifier's. |
| Service.SendAsync | lib-notification/src/main/java/com/example/notifications/application/service/NotificationService.java:45-64 | The future completes with send's result, or exceptionally exactly when send throws; submission to a shut-down executor throws. |
| Service.AllOf | lib-notification/src/main/java/com/example/notifications/application/service/NotificationService.java:98-100 | Completes exactly when every future completed, with their values in the same order; otherwise completes exceptionally with no list. |
| Service.SendBatchAsync | lib-notification/src/main/java/com/example/notifications/application/service/NotificationService.java:94-101 | A non-empty batch on a shut-down executor throws at the first submission; otherwise the batch completes exactly when every element's send succeeds, with the i-th result at position i, and any failure fails the whole batch. |
| Service.SendAfterShutdown | lib-notification/src/main/java/com/example/notifications/application/service/NotificationService.java:31-34 | Synchronous send does not use the executor, so shutdown does not change it. |
| Service.EmptyBatch | lib-notification/src/main/java/com/example/notifications/application/service/NotificationService.java:95-100 | An empty batch completes with the empty list. |
| Mailgun.NewConfig | lib-notification/src/main/java/com/example/notifications/infraestructure/email/mailgun/MailgunConfig.java:9-19 | Accepts exactly when apiKey, domain and baseUrl are non-blank; the first failing one, in that order, names the error; accepted values are stored unchanged. |
| Mailgun.Send | lib-notification/src/main/java/com/example/notifications/infraestructure/email/mailgun/MailgunEmailProvider.java:18-47 | The request is (from, to, subject, body, configured domain); null or empty errors give (id, "SENT", null), anything else (null, "FAILED", errors). |
| Mailgun.StatusNeverPropagated | lib-notification/src/main/java/com/example/notifications/infraestructure/email/mailgun/MailgunEmailProvider.java:35-45 | The provider's own status text never influences the unified response. |
| SendGrid.NewConfig | lib-notification/src/main/java/com/example/notifications/infraestructure/email/sendgrid/SendGridConfig.java:4-8 | Rejects exactly a null apiKey or baseUrl; other values are stored unchanged. |
| SendGrid.Send | lib-notification/src/main/java/com/example/notifications/infraestructure/email/sendgrid/SendGridEmailProvider.java:18-39 | The request copies the four message fields; the status passes through; "accepted" ignoring case keeps the id and drops the errors, any other status drops the id and keeps the errors. |
| Firebase.NewConfig | lib-notification/src/main/java/com/example/notifications/infraestructure/push/firebase/FirebaseConfig.java:8-15 | Accepts exactly when projectId and serviceAccountKey are non-blank; projectId is reported first; accepted values are stored unchanged. |
| Firebase.Send | lib-notification/src/main/java/com/example/notifications/infraestructure/push/firebase/FirebasePushProvider.java:18-43 | The request copies token, title, body and data; the status passes through; "success" ignoring case keeps the id and drops the errors, otherwise the id is dropped and errors kept. |
| Twilio.NewConfig | lib-notification/src/main/java/com/example/notifications/infraestructure/sms/twilio/TwilioConfig.java:9-19 | Accepts exactly when accountSid, authToken and fromNumber are non-blank; checked in that order, the first failure is reported; accepted values are stored unchanged. |
| Twilio.Send | lib-notification/src/main/java/com/example/notifications/infraestructure/sms/twilio/TwilioSmsProvider.java:18-41 | The request is (configured fromNumber, to, body); "queued" ignoring case keeps the sid and drops the errors, otherwise the sid is dropped and errors kept. |
| Twilio.MessageSenderIgnored | lib-notification/src/main/java/com/example/notifications/infraestructure/sms/twilio/TwilioSmsProvider.java:20-24 | The message's own sender never matters. |
| Slack.Send | lib-notification/src/main/java/com/example/notifications/infraestructure/chat/slack/SlackProvider.java:17-26 | The request is (text, destination); failure gives (null, "ERROR", fixed text); success gives "SENT", a null error and an id starting "MSG-". |
| Slack.OnlySuccessFlagMatters | lib-notification/src/main/java/com/example/notifications/infraestructure/chat/slack/SlackProvider.java:21-25 | rawResponse and errorMessage of the Slack response are never propagated. |
| Scenarios.EmailWelcome | lib-notification/src/test/java/com/example/notifications/application/service/EmailNotifierTest.java:39-63 | With the simple engine and {name: John}, subject and body are rendered, the gateway gets "Hello John"/"Welcome John!", and no error is success. |
| Scenarios.SmsEmptyVariables | lib-notification/src/main/java/com/example/notifications/application/service/SmsNotifier.java:23-26 | An empty map is still rendered once, and the simple engine returns the template, which is sent from "SYSTEM". |
| Scenarios.NullVariables | lib-notification/src/main/java/com/example/notifications/application/port/out/template/SimpleTemplateEngine.java:10 | With null variables the simple engine throws for SMS and push, which always render; email and chat skip rendering and send the raw templates. |
| Scenarios.EmptyMapShortcutInvisible | lib-notification/src/main/java/com/example/notifications/application/service/EmailNotifier.java:25-31 | For an empty map, email's skipped render would have produced the same texts. |
| Scenarios.PushInvalidToken | lib-notification/src/test/java/com/example/notifications/application/service/PushNotifierTest.java:69-92 | A push gateway error "Invalid device token" is a failure carrying that text. |
| Scenarios.SmsNullResponse | lib-notification/src/test/java/com/example/notifications/application/service/SmsNotifierTest.java:109-126 | A null SMS response is a success. |
| Scenarios.PushFollowsUniformRule | lib-notification/src/main/java/com/example/notifications/application/service/PushNotifier.java:34-38 | Push maps every present response by the uniform rule: null or empty error is success, anything else a failure with that text. |
| Scenarios.EmailAndChatStrictOnEmptyError | lib-notification/src/main/java/com/example/notifications/application/service/EmailNotifier.java:38-41 | Email and chat agree with the uniform rule exactly when the error is not the empty text, which they report as a failure. |
| Scenarios.SmsTolerant | lib-notification/src/main/java/com/example/notifications/application/service/SmsNotifier.java:28-32 | SMS agrees with the uniform rule except on an empty error text, and accepts a null response. |
| Scenarios.EmailThroughMailgun | lib-notification/src/main/java/com/example/notifications/infraestructure/email/mailgun/MailgunEmailProvider.java:33-46 | Email over Mailgun never sees a null response and succeeds exactly when Mailgun's errors are null or empty. |
| Scenarios.EmailThroughSendGrid | lib-notification/src/main/java/com/example/notifications/infraestructure/email/sendgrid/SendGridEmailProvider.java:31-38 | Email over SendGrid succeeds exactly when the status is accepted or there are no errors, so a refusal without errors reads as success. |
| Scenarios.SmsThroughTwilio | lib-notification/src/main/java/com/example/notifications/infraestructure/sms/twilio/TwilioSmsProvider.java:20-40 | SMS over Twilio is sent from the configured number and succeeds exactly when queued or without errors. |
| Scenarios.PushThroughFirebase | lib-notification/src/main/java/com/example/notifications/infraestructure/push/firebase/FirebasePushProvider.java:29-42 | Push over Firebase succeeds exactly when the status is success or errors are null or empty. |
| Scenarios.ChatThroughSlack | lib-notification/src/main/java/com/example/notifications/infraestructure/chat/slack/SlackProvider.java:18-25 | Chat over Slack succeeds exactly when Slack reports success; a failure carries the fixed text. |
| Scenarios.TwoPushBatch | notification-demo/src/main/java/org/challenge/demo/Main.java:86-106 | A batch of two pushes answered without errors completes with two successes in order. |
| Scenarios.MisregisteredNotifierCrashes | lib-notification/src/main/java/com/example/notifications/application/registry/NotifierRegistry.java:70-72 | A notifier registered under the wrong class is found but throws when called. |

## Left out

- Thread pool, `CompletableFuture` scheduling and completion order: only what each future completes with is modelled. `shutdown` is modelled only as a flag that makes later submissions throw.
- The `simulatedSend` / `callApi` bodies and their clock-based ids: the raw provider response comes from an `api` function parameter. Slack's clock reading is a `stamp` string parameter.
- Logging (`log.info`): observability only.
- The demo wiring in Main.java. Only its batch-of-two-pushes use is restated as `Scenarios.TwoPushBatch`.
- `SlackConfig`: the Slack provider does not read it when sending.
- Exceptions thrown by a gateway itself: gateways return a response or null. None of the modelled providers throws.
- Null values in the string fields of the notification records and messages (templates, recipients, senders): modelled as non-null strings. Only the variables map, the push data and the response fields are nullable.
- The SMS phone and sender validation asserted in SmsNotifierTest.java:150-171: `SmsNotification` has no such check.
- `String.valueOf` of arbitrary objects: variable values are already strings.
- Duplicate keys in the variables map: the entries are a sequence in iteration order; Java's key uniqueness is not needed by any property.
- `String.replace` with an empty target: the target is always a `{{key}}` token, never empty.
- Text.IsWhitespace: covers the ASCII characters of `Character.isWhitespace` only, not the Unicode space separators.
- Text.EqualsIgnoreCase: folds ASCII letters only, not the full Unicode case mapping.
- Registry.LookupByClassOnly: the registry is modelled as an immutable map value. NotifierRegistry.java:51 and 59-61 keep the caller's map by reference, so a caller that changes that map afterwards changes what `get` returns; that aliasing is not modelled.
- Template.PlaceholderSurvivesReplace: proved only for brace-free keys. With a key containing braces, `String.replace` can consume a neighbouring placeholder; Template.BracedKeyConsumesPlaceholder exhibits this.
- Template.UnmappedPlaceholderSurvives: proved only when the placeholder's key and every mapped key are brace-free, for the same reason.
- The unchecked generic cast in `NotifierRegistry.get`: a tagged datatype replaces it. A notifier registered under the wrong class crashes when invoked.
