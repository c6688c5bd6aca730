/** `sendEmail` of the email service: resolves sender, BCC mailbox and
    tracking tags, builds attachments, fills subject and bodies from a stored
    template or from the request, adds the reply-to address and an optional
    calendar invite, hands the message to the mail transport and insists on
    a message id. The provider's template lookup, the template renderer, the
    CSV serialiser, the date and invite libraries and the transport are
    parameters; the calls made into the provider are returned as a log. */
module Mail {
  import opened JsValues
  import opened Requests
  import Attachments
  import Ics

  const DefaultMailbox := "mail@heiland.com"
  const TrackingKey := "email-api-tracking"
  const TrackingDefault := "email-api"
  const ClinicNameKey := "clinicName"
  const AppointmentDateKey := "appointmentStartDate"
  const AppointmentTimeKey := "appointmentStartTime"
  const ClinicMailKey := "clinicMail"
  /** What reading `.replace` of a missing template field throws. */
  const ReadReplaceMessage := "Cannot read properties of undefined (reading 'replace')"
  const RejectedPrefix := "Sending E-Mail is rejected because of <"

  /** The subject and HTML parts of a stored template. */
  datatype TemplateParts = TemplateParts(subjectPart: string, htmlPart: string)

  /** The provider's answer to a template lookup: the template, an answer
      without one, or a thrown error. */
  datatype TemplateLookup = TemplateFound(parts: TemplateParts) | NoTemplate | LookupThrew(message: string)

  /** `mailConfig.icalEvent` once an invite was built. */
  datatype IcalEvent = IcalEvent(filename: string, icalMethod: string, content: string)

  /** The message handed to the transport. `icalEvent` None is the empty
      object the source starts with. */
  datatype MailConfig = MailConfig(
    from: string,
    to: Option<string>,
    bcc: string,
    tags: map<string, string>,
    subject: string,
    html: string,
    text: string,
    replyTo: string,
    icalEvent: Option<IcalEvent>,
    attachments: seq<Attachments.AttachmentFile>)

  /** What the transport's `sendMail` gave back: an info object (with or
      without a message id), nothing, or a thrown error. */
  datatype TransportResult = Info(messageId: Option<string>) | NoInfo | TransportThrew(message: string)

  /** A call into the mail provider, in the order made. */
  datatype ProviderCall = GetTemplateCall(templateName: string) | SendMailCall(config: MailConfig)

  /** The collaborators of `sendEmail`. `senderLabel` is the text the
      environment's sender label renders as in a template literal. */
  datatype MailEnv = MailEnv(
    senderLabel: string,
    getTemplate: string -> TemplateLookup,
    render: (string, Option<map<string, string>>) -> string,
    csv: Attachments.CsvParser,
    ics: Ics.IcsEnv,
    sendMail: MailConfig -> TransportResult)

  /** `${senderEmailLabel}<${address}>`. */
  function Sender(senderLabel: string, address: string): string
  {
    senderLabel + "<" + address + ">"
  }

  /** The tags of a single send: the caller's `messageTag` entries win over
      the default tracking tag. */
  function Tags(messageTag: Option<map<string, string>>): (r: map<string, string>)
    ensures TrackingKey in r
    ensures messageTag.None? ==> r == map[TrackingKey := TrackingDefault]
    ensures messageTag.Some? ==> r.Keys == messageTag.value.Keys + {TrackingKey}
    ensures messageTag.Some? ==> forall k :: k in messageTag.value ==> r[k] == messageTag.value[k]
    ensures messageTag.Some? && TrackingKey !in messageTag.value ==> r[TrackingKey] == TrackingDefault
  {
    if messageTag.Some? then map[TrackingKey := TrackingDefault] + messageTag.value
    else map[TrackingKey := TrackingDefault]
  }

  /** The mailbox `mail+<prefix>@heiland.com` for the part of the tracking tag
      in front of its first '-', or None when that part is empty. */
  function TrackingMailbox(tag: string): (r: Option<string>)
    ensures r.None? <==> tag == [] || tag[0] == '-'
    ensures r.Some? ==> r.value == "mail+" + BeforeFirst(tag, '-') + "@heiland.com"
  {
    var prefix := BeforeFirst(tag, '-');
    if prefix != "" then Some("mail+" + prefix + "@heiland.com") else None
  }

  /** The BCC address: a sending address wins; otherwise, when tags were
      given, the tracking mailbox of the merged tracking tag; otherwise the
      default mailbox. */
  function Bcc(req: Request): (r: string)
    ensures TruthyStr(req.sendingEmailAddress) ==> r == req.sendingEmailAddress.value
    ensures !TruthyStr(req.sendingEmailAddress) && req.messageTag.None? ==> r == DefaultMailbox
    ensures !TruthyStr(req.sendingEmailAddress) && req.messageTag.Some? ==>
              var mailbox := TrackingMailbox(Tags(req.messageTag)[TrackingKey]);
              r == if mailbox.Some? then mailbox.value else DefaultMailbox
  {
    if TruthyStr(req.sendingEmailAddress) then req.sendingEmailAddress.value
    else if req.messageTag.Some? then
      var mailbox := TrackingMailbox(Tags(req.messageTag)[TrackingKey]);
      if mailbox.Some? then mailbox.value else DefaultMailbox
    else DefaultMailbox
  }

  /** The `from` header: the label with the sending address, or with the
      default mailbox. */
  function From(senderLabel: string, req: Request): (r: string)
    ensures TruthyStr(req.sendingEmailAddress) ==> r == Sender(senderLabel, req.sendingEmailAddress.value)
    ensures !TruthyStr(req.sendingEmailAddress) ==> r == Sender(senderLabel, DefaultMailbox)
  {
    Sender(senderLabel, if TruthyStr(req.sendingEmailAddress) then req.sendingEmailAddress.value else DefaultMailbox)
  }

  /** Subject, HTML and text of the message. */
  datatype Content = Content(subject: string, html: string, text: string)

  /** The content rules: a fetched template fills subject and HTML; without
      templating the request's HTML is copied; a truthy subject or text in
      the request then overwrites what is there. `fetched` is the template
      the lookup found, if any. */
  function ContentOf(req: Request, fetched: Option<TemplateParts>,
                     render: (string, Option<map<string, string>>) -> string): (r: Content)
    ensures TruthyStr(req.subject) ==> r.subject == req.subject.value
    ensures !TruthyStr(req.subject) && TruthyStr(req.emailTemplate) && fetched.Some? ==>
              r.subject == render(fetched.value.subjectPart, req.templateData)
    ensures !TruthyStr(req.subject) && (!TruthyStr(req.emailTemplate) || fetched.None?) ==> r.subject == ""
    ensures TruthyStr(req.emailTemplate) ==>
              r.html == (if fetched.Some? then render(fetched.value.htmlPart, req.templateData) else "")
    ensures !TruthyStr(req.emailTemplate) ==> r.html == (if TruthyStr(req.html) then req.html.value else "")
    ensures r.text == (if TruthyStr(req.text) then req.text.value else "")
  {
    var base :=
      if TruthyStr(req.emailTemplate) then
        if fetched.Some? then
          Content(render(fetched.value.subjectPart, req.templateData),
                  render(fetched.value.htmlPart, req.templateData), "")
        else Content("", "", "")
      else Content("", if TruthyStr(req.html) then req.html.value else "", "");
    var subjected := if TruthyStr(req.subject) then base.(subject := req.subject.value) else base;
    if TruthyStr(req.text) then subjected.(text := req.text.value) else subjected
  }

  /** The reply-to address: the explicit one, else the template data's
      `clinicMail`, else the empty string. */
  function ReplyTo(req: Request): (r: string)
    ensures TruthyStr(req.replyTo) ==> r == req.replyTo.value
    ensures !TruthyStr(req.replyTo) && req.templateData.Some? && TruthyStr(Lookup(req.templateData.value, ClinicMailKey)) ==>
              r == req.templateData.value[ClinicMailKey]
    ensures r == "" <==>
              !TruthyStr(req.replyTo) && (req.templateData.None? || !TruthyStr(Lookup(req.templateData.value, ClinicMailKey)))
  {
    if TruthyStr(req.replyTo) then req.replyTo.value
    else if req.templateData.Some? && TruthyStr(Lookup(req.templateData.value, ClinicMailKey)) then
      req.templateData.value[ClinicMailKey]
    else ""
  }

  /** The clinic name in an invite's filename: whitespace becomes '-', then
      the whole is lower-cased. */
  function ClinicSlug(name: string): (r: string)
    ensures |r| == |name|
    ensures forall i :: 0 <= i < |r| ==> !IsJsWhitespace(r[i]) && !IsUpper(r[i])
    ensures forall i :: 0 <= i < |name| ==> r[i] == if IsJsWhitespace(name[i]) then '-' else LowerChar(name[i])
  {
    Lower(ReplaceEvery(name, IsJsWhitespace, '-'))
  }

  /** The appointment date with '.' turned into '-'; case is kept. */
  function DateSlug(date: string): (r: string)
    ensures |r| == |date| && '.' !in r
    ensures forall i :: 0 <= i < |date| ==> r[i] == if date[i] == '.' then '-' else date[i]
  {
    ReplaceEvery(date, IsDot, '-')
  }

  /** The appointment time with ':' turned into '-'; case is kept. */
  function TimeSlug(time: string): (r: string)
    ensures |r| == |time| && ':' !in r
    ensures forall i :: 0 <= i < |time| ==> r[i] == if time[i] == ':' then '-' else time[i]
  {
    ReplaceEvery(time, IsColon, '-')
  }

  /** The invite's filename. Without template data every part reads as
      `undefined`; template data lacking one of the three fields throws when
      `.replace` is read on it. */
  function IcsFilename(templateData: Option<map<string, string>>): (r: Result<string>)
    ensures templateData.None? ==> r == Ok("termin-undefined-undefined-a-undefined.ics")
    ensures templateData.Some? ==>
              (r.Err? <==> !(ClinicNameKey in templateData.value && AppointmentDateKey in templateData.value &&
                             AppointmentTimeKey in templateData.value))
    ensures r.Err? ==> r.error == Error(ReadReplaceMessage)
    ensures templateData.Some? && r.Ok? ==>
              r.value == "termin-" + ClinicSlug(templateData.value[ClinicNameKey]) +
                         "-" + DateSlug(templateData.value[AppointmentDateKey]) +
                         "-a-" + TimeSlug(templateData.value[AppointmentTimeKey]) + ".ics"
  {
    if templateData.None? then Ok("termin-undefined-undefined-a-undefined.ics")
    else
      var data := templateData.value;
      if ClinicNameKey !in data || AppointmentDateKey !in data || AppointmentTimeKey !in data then
        Err(Error(ReadReplaceMessage))
      else
        Ok("termin-" + ClinicSlug(data[ClinicNameKey]) + "-" + DateSlug(data[AppointmentDateKey]) +
           "-a-" + TimeSlug(data[AppointmentTimeKey]) + ".ics")
  }

  /** The invite part of the message: none without an `icsEvent`, the error
      `createIcs` or the filename throws, none for an empty invite text, or
      the invite with its filename and method `PUBLISH`. */
  function Ical(req: Request, env: MailEnv): (r: Result<Option<IcalEvent>>)
    ensures req.icsEvent.None? ==> r == Ok(None)
    ensures Ics.CreateIcs(req.icsEvent, env.ics).Err? ==> r == Err(Ics.CreateIcs(req.icsEvent, env.ics).error)
    // an empty invite text attaches nothing
    ensures (req.icsEvent.Some? && Ics.CreateIcs(req.icsEvent, env.ics).Ok? &&
             !TruthyStr(Ics.CreateIcs(req.icsEvent, env.ics).value)) ==> r == Ok(None)
    // a non-empty invite text is attached under the filename, whose error propagates
    ensures (req.icsEvent.Some? && Ics.CreateIcs(req.icsEvent, env.ics).Ok? &&
             TruthyStr(Ics.CreateIcs(req.icsEvent, env.ics).value)) ==>
              r == match IcsFilename(req.templateData)
                   case Err(e) => Err(e)
                   case Ok(filename) => Ok(Some(IcalEvent(filename, "PUBLISH", Ics.CreateIcs(req.icsEvent, env.ics).value.value)))
    ensures r.Ok? && r.value.Some? ==>
              && req.icsEvent.Some?
              && Ics.CreateIcs(req.icsEvent, env.ics) == Ok(Some(r.value.value.content))
              && r.value.value.content != ""
              && Ok(r.value.value.filename) == IcsFilename(req.templateData)
              && r.value.value.icalMethod == "PUBLISH"
  {
    if req.icsEvent.None? then Ok(None)
    else
      match Ics.CreateIcs(req.icsEvent, env.ics)
      case Err(e) => Err(e)
      case Ok(content) =>
        if !TruthyStr(content) then Ok(None)
        else
          match IcsFilename(req.templateData)
          case Err(e) => Err(e)
          case Ok(filename) => Ok(Some(IcalEvent(filename, "PUBLISH", content.value)))
  }

  /** The result of `sendEmail` once the transport answered: the message id,
      or the rejection. */
  function MessageIdOf(t: TransportResult): (r: Result<string>)
    ensures r.Ok? <==> t.Info? && TruthyStr(t.messageId)
    ensures r.Ok? ==> r.value == t.messageId.value
    ensures t.TransportThrew? ==> r == Err(Error(t.message))
    ensures t.NoInfo? ==> r == Err(Error(RejectedPrefix + "undefined>"))
    ensures t.Info? && !TruthyStr(t.messageId) ==> r == Err(Error(RejectedPrefix + "[object Object]>"))
  {
    match t
    case TransportThrew(message) => Err(Error(message))
    case NoInfo => Err(Error(RejectedPrefix + "undefined>"))
    case Info(messageId) =>
      if TruthyStr(messageId) then Ok(messageId.value) else Err(Error(RejectedPrefix + "[object Object]>"))
  }

  /** The template a lookup found, if any. */
  function Fetched(lookup: TemplateLookup): Option<TemplateParts>
  {
    if lookup.TemplateFound? then Some(lookup.parts) else None
  }

  /** What `sendEmail` does before the transport: the provider calls made,
      and the message built or the error thrown. */
  datatype Composed = Composed(calls: seq<ProviderCall>, config: Result<MailConfig>)

  function Compose(req: Request, env: MailEnv): (r: Composed)
    // attachments are built before the template is fetched: their errors make no call
    ensures Attachments.Build(req.attachment, env.csv).Err? ==>
              r == Composed([], Err(Attachments.Build(req.attachment, env.csv).error))
    // otherwise the template is looked up exactly when one is named
    ensures Attachments.Build(req.attachment, env.csv).Ok? ==>
              r.calls == if TruthyStr(req.emailTemplate) then [GetTemplateCall(req.emailTemplate.value)] else []
    // the message fails exactly for failing attachments, a throwing lookup, or a failing invite
    ensures r.config.Err? <==>
              || Attachments.Build(req.attachment, env.csv).Err?
              || (TruthyStr(req.emailTemplate) && env.getTemplate(req.emailTemplate.value).LookupThrew?)
              || Ical(req, env).Err?
    // a throwing lookup fails the message with its error
    ensures Attachments.Build(req.attachment, env.csv).Ok? && TruthyStr(req.emailTemplate) &&
            env.getTemplate(req.emailTemplate.value).LookupThrew? ==>
              r.config == Err(Error(env.getTemplate(req.emailTemplate.value).message))
    // otherwise a failing invite fails the message with the invite's error
    ensures Attachments.Build(req.attachment, env.csv).Ok? &&
            !(TruthyStr(req.emailTemplate) && env.getTemplate(req.emailTemplate.value).LookupThrew?) &&
            Ical(req, env).Err? ==>
              r.config == Err(Ical(req, env).error)
    ensures r.config.Ok? ==>
              var c := r.config.value;
              var fetched := if TruthyStr(req.emailTemplate) then Fetched(env.getTemplate(req.emailTemplate.value)) else None;
              && c.from == From(env.senderLabel, req)
              && c.to == req.destinationAddress
              && c.bcc == Bcc(req)
              && c.tags == Tags(req.messageTag)
              && Content(c.subject, c.html, c.text) == ContentOf(req, fetched, env.render)
              && c.replyTo == ReplyTo(req)
              && Ok(c.icalEvent) == Ical(req, env)
              && Ok(c.attachments) == Attachments.Build(req.attachment, env.csv)
              && |c.attachments| <= 1
  {
    match Attachments.Build(req.attachment, env.csv)
    case Err(e) => Composed([], Err(e))
    case Ok(attachments) =>
      var lookup := if TruthyStr(req.emailTemplate) then env.getTemplate(req.emailTemplate.value) else NoTemplate;
      var calls := if TruthyStr(req.emailTemplate) then [GetTemplateCall(req.emailTemplate.value)] else [];
      if lookup.LookupThrew? then Composed(calls, Err(Error(lookup.message)))
      else
        var content := ContentOf(req, Fetched(lookup), env.render);
        match Ical(req, env)
        case Err(e) => Composed(calls, Err(e))
        case Ok(ical) =>
          Composed(calls, Ok(MailConfig(From(env.senderLabel, req), req.destinationAddress, Bcc(req),
                                        Tags(req.messageTag), content.subject, content.html, content.text,
                                        ReplyTo(req), ical, attachments)))
  }

  /** The message Compose builds from its parts once each part succeeded. */
  lemma ComposeFromParts(req: Request, env: MailEnv, attachments: seq<Attachments.AttachmentFile>,
                         ical: Option<IcalEvent>)
    requires Attachments.Build(req.attachment, env.csv) == Ok(attachments)
    requires TruthyStr(req.emailTemplate) ==> !env.getTemplate(req.emailTemplate.value).LookupThrew?
    requires Ical(req, env) == Ok(ical)
    ensures var fetched := if TruthyStr(req.emailTemplate) then Fetched(env.getTemplate(req.emailTemplate.value)) else None;
            var content := ContentOf(req, fetched, env.render);
            Compose(req, env) ==
              Composed(if TruthyStr(req.emailTemplate) then [GetTemplateCall(req.emailTemplate.value)] else [],
                       Ok(MailConfig(From(env.senderLabel, req), req.destinationAddress, Bcc(req),
                                     Tags(req.messageTag), content.subject, content.html, content.text,
                                     ReplyTo(req), ical, attachments)))
  {
  }

  /** The addressing part of `sendEmail`: tags merged over the default, the
      BCC mailbox derived from the tracking tag, then a sending address
      overriding both `from` and BCC. */
  method Addressing(req: Request, senderLabel: string) returns (from: string, bcc: string, tags: map<string, string>)
    ensures from == From(senderLabel, req)
    ensures bcc == Bcc(req)
    ensures tags == Tags(req.messageTag)
  {
    bcc := DefaultMailbox;
    tags := map[TrackingKey := TrackingDefault];
    if req.messageTag.Some? {
      tags := tags + req.messageTag.value;
      if TruthyStr(Lookup(tags, TrackingKey)) {
        var prefix := BeforeFirst(tags[TrackingKey], '-');
        if prefix != "" {
          bcc := "mail+" + prefix + "@heiland.com";
        }
      }
    }
    from := Sender(senderLabel, DefaultMailbox);
    if TruthyStr(req.sendingEmailAddress) {
      from := Sender(senderLabel, req.sendingEmailAddress.value);
      bcc := req.sendingEmailAddress.value;
    }
  }

  /** The content part of `sendEmail` once the lookup (if any) answered:
      template parts first, else the request's HTML, then subject and text
      overrides. */
  method FillContent(req: Request, fetched: Option<TemplateParts>,
                     render: (string, Option<map<string, string>>) -> string, config: MailConfig)
    returns (c: MailConfig)
    requires config.subject == "" && config.html == "" && config.text == ""
    ensures Content(c.subject, c.html, c.text) == ContentOf(req, fetched, render)
    ensures c == config.(subject := c.subject, html := c.html, text := c.text)
  {
    c := config;
    if TruthyStr(req.emailTemplate) {
      if fetched.Some? {
        c := c.(subject := render(fetched.value.subjectPart, req.templateData),
                html := render(fetched.value.htmlPart, req.templateData));
      }
    } else if TruthyStr(req.html) {
      c := c.(html := req.html.value);
    }
    if TruthyStr(req.subject) {
      c := c.(subject := req.subject.value);
    }
    if TruthyStr(req.text) {
      c := c.(text := req.text.value);
    }
  }

  /** The invite part of `sendEmail`: `createIcs`, then the filename when the
      invite text is non-empty. */
  method Invite(req: Request, env: MailEnv) returns (r: Result<Option<IcalEvent>>)
    ensures r == Ical(req, env)
  {
    var icsEvent: Option<string> := None;
    if req.icsEvent.Some? {
      var created := Ics.CreateIcs(req.icsEvent, env.ics);
      if created.Err? {
        return Err(created.error);
      }
      icsEvent := created.value;
    }
    if TruthyStr(icsEvent) {
      var filename := IcsFilename(req.templateData);
      if filename.Err? {
        return Err(filename.error);
      }
      r := Ok(Some(IcalEvent(filename.value, "PUBLISH", icsEvent.value)));
    } else {
      r := Ok(None);
    }
  }

  /** `sendEmail`: the message id or the error thrown, and the provider calls
      made, in order. The message is sent exactly when it could be built. */
  method SendEmail(req: Request, env: MailEnv) returns (r: Result<string>, calls: seq<ProviderCall>)
    ensures var composed := Compose(req, env);
            && calls == composed.calls + (if composed.config.Ok? then [SendMailCall(composed.config.value)] else [])
            && r == if composed.config.Ok? then MessageIdOf(env.sendMail(composed.config.value))
                    else Err(composed.config.error)
  {
    calls := [];
    var from, bcc, tags := Addressing(req, env.senderLabel);
    var attachments := Attachments.Build(req.attachment, env.csv);
    if attachments.Err? {
      return Err(attachments.error), calls;
    }
    var mailConfig := MailConfig(from, req.destinationAddress, bcc, tags, "", "", "", "", None, attachments.value);

    var fetched: Option<TemplateParts> := None;
    if TruthyStr(req.emailTemplate) {
      calls := calls + [GetTemplateCall(req.emailTemplate.value)];
      var lookup := env.getTemplate(req.emailTemplate.value);
      if lookup.LookupThrew? {
        return Err(Error(lookup.message)), calls;
      }
      fetched := Fetched(lookup);
    }
    mailConfig := FillContent(req, fetched, env.render, mailConfig);

    if TruthyStr(req.replyTo) {
      mailConfig := mailConfig.(replyTo := req.replyTo.value);
    } else if req.templateData.Some? && TruthyStr(Lookup(req.templateData.value, ClinicMailKey)) {
      mailConfig := mailConfig.(replyTo := req.templateData.value[ClinicMailKey]);
    }

    var ical := Invite(req, env);
    if ical.Err? {
      return Err(ical.error), calls;
    }
    mailConfig := mailConfig.(icalEvent := ical.value);
    ComposeFromParts(req, env, attachments.value, ical.value);

    calls := calls + [SendMailCall(mailConfig)];
    var response := env.sendMail(mailConfig);
    r := MessageIdOf(response);
  }
}
