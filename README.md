# Email API: validation, message composition and bulk batching

This project models the decision logic of a serverless email API:

- **The two entry points.**
  - The event consumer `handler` (`src/email/handlers/post/consumer.ts`) throws on a bad payload.
  - The HTTP `postHandler` (`src/email/handlers/post/post.ts`) answers a bad payload with 400.
  - Both run three guards in the same order over optional, truthy-tested fields: recipients, then the template pair, then plain subject/text/html. The recipient guard differs (`Consumer.HasRecipients`, `Post.HasRecipients`): the consumer treats an empty `destinations` array as missing, the HTTP handler lets any array through and answers missing recipients with the templating message.
  - Both then route the request to the single or the bulk send.
  - The HTTP handler keeps a module-level flag, `startedByStateMachine`. The flag decides whether a service failure is thrown or answered with 500.
- **How `sendEmail` builds a message** (`src/email/service/index.ts`):
  - tracking tags, BCC mailbox and `from` header;
  - attachments (`buildAttachments`);
  - subject, HTML and text from a stored template or from the request;
  - the reply-to fallback;
  - the calendar invite (`createIcs`) and its filename;
  - the message-id check on the transport's answer.
- **`sendBulkEmail`.** It splices chunks of up to 50 destinations off the front of the caller's array and sends one provider command per chunk. The loop condition is modelled exactly as written.

JavaScript truthiness is explicit:

- An optional string is truthy when present and non-empty.
- An object-valued field is truthy when present.
- Values whose `typeof` the source tests are a small `Json` datatype.

Collaborators are function-valued parameters:

- the provider's template lookup;
- the handlebars renderer;
- `json2csv.parse`;
- `moment`'s strict check and its lenient parse;
- `ics.createEvent`;
- the mail transport;
- the provider's bulk client.

The calls made into the provider are returned as a log next to the result.

The modules follow the source:

| Module | File | Models |
|---|---|---|
| `JsValues` | `js.dfy` | truthiness and string helpers |
| `Attachments` | `attachments.dfy` | `buildAttachments` |
| `Ics` | `ics.dfy` | `createIcs` |
| `Requests` | `requests.dfy` | the request body and the routing rule |
| `Mail` | `mail.dfy` | `sendEmail` |
| `Bulk` | `bulk.dfy` | `sendBulkEmail` |
| `Consumer` | `consumer.dfy` | `handler` |
| `Post` | `post.dfy` | `postHandler` |
| `MailExamples` | `mail_examples.dfy` | worked examples for `sendEmail` |
| `ConsumerExamples` | `consumer_examples.dfy` | the consumer's unit-test payloads |

The imperative parts are written imperatively:

- **`sendEmail`.** `Mail.SendEmail` and its helpers `Mail.Addressing`, `Mail.FillContent` and `Mail.Invite` reassign locals and the message record field by field. They are proved against the function `Mail.Compose`.
- **`sendBulkEmail`.** `Bulk.SendBulkEmail` is a `while` loop over a `Bulk.BulkMailRequest` object. The loop's splices (`Bulk.BulkMailRequest.Splice`) shorten the object's `destinations` field. The method is proved against the recursive function `Bulk.Run`.
- **The HTTP handler's flag.** The flag is a field of the class `Post.PostHandler`.

### Behaviour of the code worth knowing

- **Bulk send, zero destinations.** Zero destinations still make one call, with an empty `Destinations` (see Findings).
- **Bulk send, completeness.** Destinations are left unsent exactly for the counts `N` with `N - 50 (N / 51 + 1) > 0`: 101, 151, 152, 201 to 203 and so on. Every other count, including 102 to 150, is sent in full (`Bulk.AsWrittenCounts`).
- **Invite filename.** Only the clinic name is lower-cased; the date and time keep their case.
- **Invocation state.** The HTTP handler has one module-level mutable flag. Every invocation that gets past `initialize` overwrites it, so no result depends on an earlier invocation (`Post.PostHandler.Handle`).
- **Missing recipients.** The HTTP handler answers a body without recipients with 400 and the *templating* message.

## Model

| member | source | states |
|---|---|---|
| JsValues.BeforeFirst | src/email/service/index.ts:290 | `split("-")[0]`: the result is a prefix of the input that holds no separator, and the separator follows it unless it is the whole input |
| Attachments.CsvFilename | src/email/service/index.ts:232-239 | A given name containing '.' is kept; a given name without one gets `.<format>`; no name or an empty name gives `list.csv`; the result always contains '.' |
| Attachments.CsvFilenameIdempotent | src/email/service/index.ts:232-239 | Renaming an already named file changes nothing |
| Attachments.FilenameExamples | src/email/service/index.ts:232-239 | `list.csv` for a missing or empty name, `report.csv` for `report`, `report.txt` kept |
| Attachments.Build | src/email/service/index.ts:167-258 | No descriptor or a non-csv format gives `[]`. Falsy data throws, and this is checked before the format. For csv, non-object data or truthy non-object options throw. A serialiser throw is reported. Otherwise exactly one file results: the serialised text under `CsvFilename` |
| Ics.FirstViolation | src/email/service/index.ts:92-140 | Each guard message is returned exactly when all earlier guards pass and its own fails, in the source's order. Zero minutes fail, since the check is a truthiness test. None exactly when every guard passes |
| Ics.StartTuple | src/email/service/index.ts:142-152 | Exactly `[year, month + 1, day, hours, minutes]`; the month entry is 1..12 for a moment month 0..11 |
| Ics.EventFor | src/email/service/index.ts:142-154 | The encoder input: the request's fields without `startDate`, the start tuple, and output type `local` |
| Ics.CreateIcs | src/email/service/index.ts:89-165 | Null for no descriptor; the first guard's error; the encoder's errors with the prefix; else the invite text |
| Ics.ZeroHoursAcceptedZeroMinutesRejected | src/email/service/index.ts:109-117 | `{hours: 0, minutes: 15}` passes; `{hours: 1, minutes: 0}` fails with the minutes message |
| Ics.AttendeesNeverRejected | src/email/service/index.ts:132-140 | The attendee check tests the array itself, so no attendee value changes the verdict |
| Requests.RouteOf | src/email/handlers/post/consumer.ts:75-84 | A truthy `destinationAddress` routes to the single send even when `destinations` is present; otherwise a present `destinations` routes to the bulk send |
| Requests.CallFor | src/email/handlers/post/consumer.ts:73-84 | The single route calls `sendEmail`, the bulk route calls `sendBulkEmail`, each with the request; none exactly when neither route applies |
| Consumer.HasRecipients | src/email/handlers/post/consumer.ts:36 | A truthy address suffices; with an empty `destinations` array only a truthy address counts |
| Consumer.Violation | src/email/handlers/post/consumer.ts:36-63 | Each of the three messages if and only if its guard is the first to fail. An empty `destinations` counts as missing. Templating mode skips the metadata check |
| Consumer.Handle | src/email/handlers/post/consumer.ts:36-101 | A rejected event throws the guard's message and makes no call. An accepted event makes exactly the routed call. A failure is rethrown with the same message; success is 200 with the result's JSON |
| Consumer.GuardOrder | src/email/handlers/post/consumer.ts:36-84 | The recipient check comes first. An empty `destinationAddress` counts as none. Templating never asks for metadata. An address wins over `destinations` |
| ConsumerExamples.MissingRecipientsRejected | test/post.consumer.test.ts:20-42 | An empty destination list with a full template pair, and an empty address, both throw the destinations message and call nothing |
| ConsumerExamples.HalfTemplateRejected | test/post.consumer.test.ts:44-58 | Template data without a template, or a template without data, throws the templating message and calls nothing |
| ConsumerExamples.MetaDataRejected | test/post.consumer.test.ts:60-74 | No subject, or no text and no HTML, throws the metadata message and calls nothing |
| ConsumerExamples.AcceptedPayloadsDispatched | test/post.consumer.test.ts:76-88 | A templated payload calls `sendEmail` with an address and `sendBulkEmail` with a one-entry destination list |
| Post.HasRecipients | src/email/handlers/post/post.ts:37-38 | Any `destinations` array, even an empty one, suffices; recipients are missing exactly without a truthy address and without an array |
| Post.BadRequest | src/email/handlers/post/post.ts:36-87 | 400 with the templating message if and only if recipients are missing or the template pair is broken, where an empty array counts as a recipient. 400 with the metadata message if and only if the body is plain and its metadata is missing. None otherwise |
| Post.AcceptanceComparedWithConsumer | src/email/handlers/post/post.ts:36-48 | Every body the consumer accepts, the HTTP handler accepts. The HTTP handler additionally accepts only bodies whose sole recipient is an empty `destinations` array, routed to the bulk send. A body the consumer rejects for its template pair or metadata gets the matching 400; the converse fails for a body with only an empty `destinations` array, which the consumer rejects for its recipients first |
| Post.PostHandler.constructor | src/email/handlers/post/post.ts:7 | The module starts with the flag off |
| Post.PostHandler.ServerErrorResponse | src/email/handlers/post/post.ts:9-21 | The flag set: throws `{message, stack}`. The flag clear: 500 with the fixed body |
| Post.PostHandler.Handle | src/email/handlers/post/post.ts:24-125 | An early response from `initialize` is returned unchanged, with no call and the flag untouched. Otherwise the flag is set from the event. A guard's 400 makes no call. An accepted body makes the routed call; success is 200 with its JSON; a failure is thrown or answered 500 according to the event's own flag |
| Mail.Tags | src/email/service/index.ts:286-288 | The tracking key is always present. The caller's entries win over the default. Without caller tags, only the default |
| Mail.TrackingMailbox | src/email/service/index.ts:289-292 | `mail+<text before the first '-'>@heiland.com`; none exactly when that text is empty |
| Mail.Bcc | src/email/service/index.ts:285-299 | A sending address wins. Otherwise, when tags are given, the tracking mailbox of the merged tag, when non-empty. Otherwise `mail@heiland.com` |
| Mail.From | src/email/service/index.ts:295-297 | `label<sending address>` when one is set, else `label<mail@heiland.com>` |
| MailExamples.DefaultTagBcc | src/email/service/index.ts:286-291 | Tags without a tracking key still move the BCC, to `mail+email@heiland.com` |
| MailExamples.CallerTagBcc | src/email/service/index.ts:288-291 | A tracking tag `<prefix>-<rest>` gives `mail+<prefix>@heiland.com` |
| MailExamples.DashTagBcc | src/email/service/index.ts:289-291 | A tracking tag starting with '-' keeps the default mailbox |
| Mail.ContentOf | src/email/service/index.ts:317-332 | A fetched template renders subject and HTML. Plain mode copies the HTML. A truthy subject or text overwrites. A missing template leaves them empty |
| Mail.ReplyTo | src/email/service/index.ts:334-337 | The explicit value, else a truthy `clinicMail`, else empty (if and only if neither is there) |
| JsValues.ReplaceEvery | src/email/service/index.ts:346-357 | `replace(/…/g, sub)`: same length, each matching character becomes `sub`, every other is kept; nothing matching remains when `sub` does not match |
| JsValues.Lower | src/email/service/index.ts:358 | `toLowerCase()` on the letters `LowerChar` covers: same length, each character lowered, no upper-case letter remains |
| Mail.ClinicSlug | src/email/service/index.ts:346-349 | Same length. Whitespace becomes '-' and every other character is lower-cased. No whitespace or upper case remains |
| Mail.DateSlug | src/email/service/index.ts:350-353 | Same length. '.' becomes '-' and every other character is kept. No '.' remains |
| Mail.TimeSlug | src/email/service/index.ts:354-357 | Same length. ':' becomes '-' and every other character is kept. No ':' remains |
| MailExamples.DottedDateSlug | src/email/service/index.ts:350-353 | `DD.MM.YYYY` becomes `DD-MM-YYYY` |
| MailExamples.ColonTimeSlug | src/email/service/index.ts:354-357 | `HH:mm` becomes `HH-mm` |
| Mail.IcsFilename | src/email/service/index.ts:346-358 | `termin-<clinic slug>-<date slug>-a-<time slug>.ics`. Without template data every part reads `undefined`. Template data missing one of the three fields throws |
| MailExamples.IcsFilenameExample | src/email/service/index.ts:345-358 | The filename for a dotted date and a colon time |
| Mail.Ical | src/email/service/index.ts:339-364 | No invite without `icsEvent`, and none for an empty invite text. `createIcs` errors propagate. A non-empty invite text is attached with method `PUBLISH` under `IcsFilename`, whose error (template data lacking one of its fields) propagates |
| Mail.MessageIdOf | src/email/service/index.ts:366-373 | Ok exactly when the transport returned a truthy message id, and then that id. Otherwise the rejection or the transport's error |
| Mail.Compose | src/email/service/index.ts:279-364 | Attachment errors first, with no template call. The template is looked up exactly when named. The message fails exactly for failing attachments, a throwing lookup or a failing invite, with the error of the first of these. Otherwise each field is the one its rule gives |
| Mail.ComposeFromParts | src/email/service/index.ts:301-364 | Once each part succeeded, the message is assembled from those parts |
| Mail.Addressing | src/email/service/index.ts:285-299 | The reassignments yield `From`, `Bcc` and `Tags` |
| Mail.FillContent | src/email/service/index.ts:317-332 | The field-by-field overwrites of subject, HTML and text yield `ContentOf`; nothing else in the message changes |
| Mail.Invite | src/email/service/index.ts:339-364 | The invite statements yield `Ical` |
| Mail.SendEmail | src/email/service/index.ts:279-374 | The provider calls are those of `Compose`, then the transport call when the message was built. The result is `MessageIdOf` of the transport's answer, or the composition error |
| Bulk.BulkMailRequest.constructor | src/email/service/index.ts:72-83 | The bulk request: the body's fields and its destination array |
| Bulk.BulkMailRequest.Splice | src/email/service/index.ts:391 | `splice(0, n)` removes `min(n, length)` entries from the front; the removed entries followed by what is left are the old array |
| Bulk.BulkTags | src/email/service/index.ts:376-377 | The default tracking tag always wins; the caller's other keys are kept |
| Bulk.BulkSource | src/email/service/index.ts:382-385 | `label<sending address>` when one is set, else the default mailbox |
| Bulk.ChunkLength | src/email/service/index.ts:391 | A chunk has at most 50 entries, and fewer only when fewer are left |
| Bulk.Chunks | src/email/service/index.ts:389-391 | The chunks of the loop as written: a turn is taken exactly while the chunks sent are at most what is left, and each splices the front of the array |
| Bulk.Unsent | src/email/service/index.ts:389-391 | What the loop as written leaves in the array: never more than it held, all of it once no turn is due |
| Bulk.ChunkSizes | src/email/service/index.ts:389-409 | Every chunk of the loop as written has at most 50 entries, and all but the last have exactly 50. An empty chunk is sent only as the first one, for an empty list |
| Bulk.ChunksThenUnsent | src/email/service/index.ts:389-409 | The chunks in send order, followed by what stays in the array, are the original list |
| Bulk.ChunkCountFrom | src/email/service/index.ts:389 | Closed form of the turn count, counted from any turn |
| Bulk.AsWrittenCounts | src/email/service/index.ts:389-409 | `N / 51 + 1` calls for `N` destinations. Unsent: `N - 50 (N / 51 + 1)` when positive, so none up to 100. Fewer are unsent than calls were made |
| Bulk.AsWrittenExamples | src/email/service/index.ts:389-409 | 0 destinations: one call with an empty chunk. 50: one call. 51: two. 120: three. 101: two calls and one unsent |
| Bulk.Drain | src/email/service/index.ts:389-391 | The corrected loop: no chunk exactly for an empty array, and each chunk splices the front |
| Bulk.DrainSendsAll | src/email/service/index.ts:389-409 | The intended loop sends every destination once, in order, in `ceil(N / 50)` non-empty chunks of at most 50 |
| Bulk.AsWrittenAgreesUpTo100 | src/email/service/index.ts:389-409 | For 1 to 100 destinations the loop as written takes the same chunks as the intended one |
| Bulk.AsWrittenLeavesOneOf101 | src/email/service/index.ts:389-409 | 101 destinations: two calls, the last destination is left unsent, and the intended loop sends all three chunks |
| Bulk.BaseParams | src/email/service/index.ts:393-399 | Every command carries the request's template and data, `BulkTags` of the caller's tags (so the default tracking tag) and `BulkSource` as its source |
| Bulk.Run | src/email/service/index.ts:389-409 | The bulk send as written from one turn on. No command when no turn is due, with the array untouched. Otherwise the first command carries the front chunk, and a throw ends the run there with the client's error |
| Bulk.RunSendsChunks | src/email/service/index.ts:389-403 | The commands sent carry the chunks of the loop as written, in order. At least one is sent when a turn is due, and never more than there are chunks |
| Bulk.RunKeepsRest | src/email/service/index.ts:389-409 | The chunks sent, followed by what is left in the array, are the original list, also when the client throws |
| Bulk.RunAnswered | src/email/service/index.ts:403 | Every command but the last was accepted |
| Bulk.RunSucceeds | src/email/service/index.ts:389-411 | A successful send made one command per chunk and returns one response per command, in order |
| Bulk.RunFails | src/email/service/index.ts:403 | A failed send made at least one command, and its error is what the client threw for the last |
| Bulk.SendBulkEmail | src/email/service/index.ts:375-412 | The commands, the responses or error, and the array left behind are those of `Run` from the original array |

## Left out

- The provider and transport clients are parameters rather than I/O: SES, Step Functions, nodemailer and the credential provider. This includes the `GetTemplateCommand` and `SendBulkTemplatedEmailCommand` commands.
- The libraries are uninterpreted function parameters: handlebars, `json2csv`, `moment` and `ics`.
- `JSON.stringify` is not modelled. The bulk command's `DefaultTemplateData` holds the template-data map itself. The entry points receive the service result already rendered as JSON text.
- `scheduleEmail` and `stopScheduledEmail` are not modelled. They are environment-variable checks and pass-throughs to the orchestration service.
- Three handler files are not part of this model:
  - `schedule-post.ts` and `schedule-delete.ts` are pass-throughs;
  - `handler.ts` is a one-line routing on the HTTP method.
- Logging is not modelled. Nothing in the modelled logic depends on it.
- The consumer's `uncaughtException` listener and the `StagedEnv`/`Logger` setup are not modelled. Neither affects a result.
- `initialize` appears only as the optional early response and the parsed body it yields, because its request parsing lives in an external library.
- async/await is not modelled. The calls are awaited one after another, so the model is sequential.
- `senderEmailLabel` is a parameter holding the text that the environment variable renders as in a template literal.
- Ics.HoursUnset: JSON numbers are mathematical integers, and fractional durations are not represented. No value other than a number is coerced as JavaScript's `<` would coerce it, so a string `"-1"`, an array `[-1]` or a boolean never counts as negative here, where the source would compare its numeric value.
- JsValues.LowerChar: lower-cases ASCII and Latin-1 letters only; the rest of Unicode case mapping is not modelled.
- Bulk.BulkMailRequest.constructor: requires a `destinations` array. Both entry points route to the bulk send only when one is present (`Requests.RouteOf`).
- ConsumerExamples.AcceptedPayloadsDispatched: the test passes the string `""` as the destination entry. The model uses one `BulkDestination`; the handler looks only at the list, not its entries.
- Attachments.Build: written as a function, because the source pushes at most once into a local array and has no loop.
- Post.Fault: the thrown object's `stack` holds the failure's message, where the source passes the whole error object.
- Bulk.SesClient: the provider's bulk client is a pure function, so two identical commands get the same answer; a client whose answers vary over time is not captured.
- Mail.MailEnv: its `render` is a total function, so rendering never throws; a malformed stored template, whose compiled template would throw when called, is not captured.
- Mail.TemplateParts: a stored template always has both a subject part and an HTML part, so a template lacking `HtmlPart` or `SubjectPart` cannot make `handlebars.compile` throw.

## Findings

| source | as written | input that shows it | evidently intended | confidence | as-written member | corrected member |
|---|---|---|---|---|---|---|
| src/email/service/index.ts:389 | The loop runs while the number of chunks sent is at most the number of destinations left in the array | 101 destinations: two calls of 50, and the last destination is never sent. Also, 0 destinations makes one call with an empty list | Splice chunks until the array is empty, so every destination is sent once, in order, in `ceil(N / 50)` non-empty calls | not executed | Bulk.AsWrittenLeavesOneOf101 | Bulk.DrainSendsAll |

`Bulk.SendBulkEmail` keeps the loop condition as written, because that is what the service does. `Bulk.Drain` is the corrected loop. `Bulk.AsWrittenAgreesUpTo100` shows the two agree from 1 to 100 destinations.
