/** Worked examples of the addressing and invite-filename rules of
    `sendEmail`. */
module MailExamples {
  import opened JsValues
  import opened Requests
  import opened Mail

  /** Any tag set given at all moves the BCC to a tracking mailbox: without a
      tracking key of its own the default tag `email-api` gives `mail+email`. */
  lemma DefaultTagBcc(req: Request)
    requires !TruthyStr(req.sendingEmailAddress)
    requires req.messageTag.Some? && TrackingKey !in req.messageTag.value
    ensures Bcc(req) == "mail+" + "email" + "@heiland.com"
  {
    var prefix, rest := "email", "api";
    assert TrackingDefault == prefix + "-" + rest;
    assert TrackingDefault[|prefix|] == '-';
    BeforeFirstUnique(TrackingDefault, '-', prefix);
  }

  /** A caller's tracking tag `<prefix>-<rest>` (such as `clinic-42`) gives
      `mail+<prefix>`. */
  lemma CallerTagBcc(req: Request, prefix: string, rest: string)
    requires !TruthyStr(req.sendingEmailAddress)
    requires prefix != "" && '-' !in prefix
    requires req.messageTag.Some? && TrackingKey in req.messageTag.value
    requires req.messageTag.value[TrackingKey] == prefix + "-" + rest
    ensures Bcc(req) == "mail+" + prefix + "@heiland.com"
  {
    var tag := prefix + "-" + rest;
    assert tag[|prefix|] == '-';
    BeforeFirstUnique(tag, '-', prefix);
  }

  /** A tracking tag starting with '-' has an empty prefix and keeps the
      default mailbox. */
  lemma DashTagBcc(req: Request)
    requires !TruthyStr(req.sendingEmailAddress)
    requires req.messageTag.Some? && TrackingKey in req.messageTag.value
    requires |req.messageTag.value[TrackingKey]| > 0 && req.messageTag.value[TrackingKey][0] == '-'
    ensures Bcc(req) == DefaultMailbox
  {
  }

  /** A date written `DD.MM.YYYY` becomes `DD-MM-YYYY`. */
  lemma DottedDateSlug(d: string, m: string, y: string)
    requires '.' !in d && '.' !in m && '.' !in y
    ensures DateSlug(d + "." + m + "." + y) == d + "-" + m + "-" + y
  {
    var s := d + "." + m + "." + y;
    var e := d + "-" + m + "-" + y;
    var r := DateSlug(s);
    forall i | 0 <= i < |s|
      ensures r[i] == e[i]
    {
      if i < |d| {
        assert s[i] == d[i] == e[i];
      } else if i == |d| || i == |d| + 1 + |m| {
        assert s[i] == '.' && e[i] == '-';
      } else if i < |d| + 1 + |m| {
        assert s[i] == m[i - |d| - 1] == e[i];
      } else {
        assert s[i] == y[i - |d| - 2 - |m|] == e[i];
      }
    }
  }

  /** A time written `HH:mm` becomes `HH-mm`. */
  lemma ColonTimeSlug(h: string, m: string)
    requires ':' !in h && ':' !in m
    ensures TimeSlug(h + ":" + m) == h + "-" + m
  {
    var s := h + ":" + m;
    var e := h + "-" + m;
    var r := TimeSlug(s);
    forall i | 0 <= i < |s|
      ensures r[i] == e[i]
    {
      if i < |h| {
        assert s[i] == h[i] == e[i];
      } else if i > |h| {
        assert s[i] == m[i - |h| - 1] == e[i];
      }
    }
  }

  /** The filename pattern of the source's comment
      (`termin-<clinic>-DD-MM-YYYY-a-HH-mm.ics`, with the "-a-" the code
      writes) for an appointment date `DD.MM.YYYY` and time `HH:mm`. */
  lemma IcsFilenameExample(data: map<string, string>, dd: string, mm: string, yyyy: string, hh: string, min: string)
    requires ClinicNameKey in data && AppointmentDateKey in data && AppointmentTimeKey in data
    requires '.' !in dd && '.' !in mm && '.' !in yyyy && ':' !in hh && ':' !in min
    requires data[AppointmentDateKey] == dd + "." + mm + "." + yyyy
    requires data[AppointmentTimeKey] == hh + ":" + min
    ensures IcsFilename(Some(data)) ==
            Ok("termin-" + ClinicSlug(data[ClinicNameKey]) + "-" + (dd + "-" + mm + "-" + yyyy) +
               "-a-" + (hh + "-" + min) + ".ics")
  {
    DottedDateSlug(dd, mm, yyyy);
    ColonTimeSlug(hh, min);
  }
}
