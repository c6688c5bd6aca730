/** `createIcs` of the email service: validates the calendar-event descriptor
    of a request, builds the event handed to the ICS encoder, and returns the
    encoded invite. The strict date check and the lenient date parse of
    `moment` and the encoder `ics.createEvent` are parameters. */
module Ics {
  import opened JsValues

  /** `requestBody.icsEvent`. */
  datatype IcsRequest = IcsRequest(
    startDate: string,
    duration: Option<Json>,
    title: Option<string>,
    description: Option<string>,
    location: Option<string>,
    organizer: Option<Json>,
    attendees: Option<Json>)

  /** The calendar fields `moment(startDate)` reports; `month` counts from 0. */
  datatype Moment = Moment(year: int, month: int, date: int, hours: int, minutes: int)

  /** The event object given to the encoder: the request without its
      `startDate`, plus the start tuple and the output type. */
  datatype EventInput = EventInput(
    start: seq<int>,
    startOutputType: string,
    duration: Option<Json>,
    title: Option<string>,
    description: Option<string>,
    location: Option<string>,
    organizer: Option<Json>,
    attendees: Option<Json>)

  /** What `ics.createEvent` returns: the invite text, or its error list
      (already rendered as JSON text). */
  datatype Encoding = Encoded(value: string) | EncodingFailed(errors: string)

  datatype IcsEnv = IcsEnv(
    isStrictDate: string -> bool,     // moment(s, "YYYY-MM-DDTHH:mm:ss", true).isValid()
    parseDate: string -> Moment,      // moment(s)
    createEvent: EventInput -> Encoding)

  const StartDateMessage := "StartDate for ICS Event creation is not a valid. Format must be YYYY-MM-DDTHH:mm:ss"
  const DurationMissingMessage := "The Duration for ICS Event creation is not defined."
  const DurationNotObjectMessage := "The Duration for ICS Event creation is not valid. Must be a JSON Object ~ like {hours: 1, minutes: 15}"
  const HoursMessage := "Duration.hours is not set."
  const MinutesMessage := "Duration.minutes is not set."
  const TitleMessage := "The Title for ICS Event creation is not defined."
  const OrganizerMessage := "The organizer for ICS Event creation is not valid. Must be a Object ~ like {name: 'Adam Gibbons', email: 'adam@example.com'}"
  const EncodingFailedPrefix := "ICS Event creation failed: "

  /** A property of a JSON value read with `.`; absent unless it is an object
      that has the key. */
  function Field(v: Option<Json>, key: string): Option<Json>
  {
    if v.Some? && v.value.JObj? && key in v.value.fields then Some(v.value.fields[key]) else None
  }

  /** `hours === undefined || hours < 0`, for the values a JSON body carries;
      strings are not coerced to numbers. */
  predicate HoursUnset(hours: Option<Json>)
  {
    hours.None? || (hours.value.JNum? && hours.value.n < 0)
  }

  /** Every guard of `createIcs` passes. */
  predicate Acceptable(ev: IcsRequest, isStrictDate: string -> bool)
  {
    && isStrictDate(ev.startDate)
    && Truthy(ev.duration)
    && IsObject(ev.duration)
    && !HoursUnset(Field(ev.duration, "hours"))
    && Truthy(Field(ev.duration, "minutes"))
    && TruthyStr(ev.title)
    && !(Truthy(ev.organizer) && !IsObject(ev.organizer))
  }

  /** The message of the first guard of `createIcs` that fails, in the
      source's order; None when all pass. The attendee check compares the
      attendee array itself with "object", so it never fails and is absent. */
  function FirstViolation(ev: IcsRequest, isStrictDate: string -> bool): (r: Option<string>)
    ensures r.None? <==> Acceptable(ev, isStrictDate)
    ensures r == Some(StartDateMessage) <==> !isStrictDate(ev.startDate)
    ensures r == Some(DurationMissingMessage) <==> isStrictDate(ev.startDate) && !Truthy(ev.duration)
    ensures r == Some(DurationNotObjectMessage) <==>
              isStrictDate(ev.startDate) && Truthy(ev.duration) && !IsObject(ev.duration)
    ensures r == Some(HoursMessage) <==>
              isStrictDate(ev.startDate) && Truthy(ev.duration) && IsObject(ev.duration) &&
              HoursUnset(Field(ev.duration, "hours"))
    ensures r == Some(MinutesMessage) <==>
              isStrictDate(ev.startDate) && Truthy(ev.duration) && IsObject(ev.duration) &&
              !HoursUnset(Field(ev.duration, "hours")) && !Truthy(Field(ev.duration, "minutes"))
    ensures r == Some(TitleMessage) <==>
              isStrictDate(ev.startDate) && Truthy(ev.duration) && IsObject(ev.duration) &&
              !HoursUnset(Field(ev.duration, "hours")) && Truthy(Field(ev.duration, "minutes")) &&
              !TruthyStr(ev.title)
    ensures r == Some(OrganizerMessage) <==>
              isStrictDate(ev.startDate) && Truthy(ev.duration) && IsObject(ev.duration) &&
              !HoursUnset(Field(ev.duration, "hours")) && Truthy(Field(ev.duration, "minutes")) &&
              TruthyStr(ev.title) && Truthy(ev.organizer) && !IsObject(ev.organizer)
  {
    if !isStrictDate(ev.startDate) then Some(StartDateMessage)
    else if !Truthy(ev.duration) then Some(DurationMissingMessage)
    else if !IsObject(ev.duration) then Some(DurationNotObjectMessage)
    else if HoursUnset(Field(ev.duration, "hours")) then Some(HoursMessage)
    else if !Truthy(Field(ev.duration, "minutes")) then Some(MinutesMessage)
    else if !TruthyStr(ev.title) then Some(TitleMessage)
    else if Truthy(ev.organizer) && !IsObject(ev.organizer) then Some(OrganizerMessage)
    else None
  }

  /** The start tuple `[year, month + 1, date, hours, minutes]`: the encoder
      counts months from 1 where `moment` counts from 0. */
  function StartTuple(m: Moment): (r: seq<int>)
    ensures |r| == 5
    ensures 0 <= m.month < 12 ==> 1 <= r[1] <= 12
    ensures r[0] == m.year && r[1] == m.month + 1 && r[2] == m.date && r[3] == m.hours && r[4] == m.minutes
  {
    [m.year, m.month + 1, m.date, m.hours, m.minutes]
  }

  /** The event `createIcs` hands to the encoder. */
  function EventFor(ev: IcsRequest, env: IcsEnv): (r: EventInput)
    ensures r.start == StartTuple(env.parseDate(ev.startDate))
    ensures r.startOutputType == "local"
    ensures r.duration == ev.duration && r.title == ev.title && r.organizer == ev.organizer
    ensures r.description == ev.description && r.location == ev.location && r.attendees == ev.attendees
  {
    EventInput(StartTuple(env.parseDate(ev.startDate)), "local", ev.duration, ev.title,
               ev.description, ev.location, ev.organizer, ev.attendees)
  }

  /** `createIcs`: None (the source's `null`) for an absent descriptor, the
      first failing guard's error, the encoder's error, or the invite text. */
  function CreateIcs(ev: Option<IcsRequest>, env: IcsEnv): (r: Result<Option<string>>)
    ensures ev.None? ==> r == Ok(None)
    ensures ev.Some? && FirstViolation(ev.value, env.isStrictDate).Some? ==>
              r == Err(Error(FirstViolation(ev.value, env.isStrictDate).value))
    ensures ev.Some? && Acceptable(ev.value, env.isStrictDate) ==>
              match env.createEvent(EventFor(ev.value, env))
              case EncodingFailed(errors) => r == Err(Error(EncodingFailedPrefix + errors))
              case Encoded(value) => r == Ok(Some(value))
    ensures ev.Some? && r.Ok? ==> r.value.Some?
  {
    if ev.None? then Ok(None)
    else
      var violation := FirstViolation(ev.value, env.isStrictDate);
      if violation.Some? then Err(Error(violation.value))
      else
        match env.createEvent(EventFor(ev.value, env))
        case EncodingFailed(errors) => Err(Error(EncodingFailedPrefix + errors))
        case Encoded(value) => Ok(Some(value))
  }

  /** A duration of zero hours is accepted, a duration of zero minutes is
      rejected with the minutes message: the minutes check is a truthiness
      test. */
  lemma ZeroHoursAcceptedZeroMinutesRejected(ev: IcsRequest, isStrictDate: string -> bool)
    requires isStrictDate(ev.startDate) && TruthyStr(ev.title) && ev.organizer.None?
    ensures var d := ev.(duration := Some(JObj(map["hours" := JNum(0), "minutes" := JNum(15)])));
            FirstViolation(d, isStrictDate).None?
    ensures var d := ev.(duration := Some(JObj(map["hours" := JNum(1), "minutes" := JNum(0)])));
            FirstViolation(d, isStrictDate) == Some(MinutesMessage)
  {
    var ok := map["hours" := JNum(0), "minutes" := JNum(15)];
    assert "hours" in ok && "minutes" in ok;
    var bad := map["hours" := JNum(1), "minutes" := JNum(0)];
    assert "hours" in bad && "minutes" in bad;
  }

  /** The attendees never make `createIcs` throw: the guards give the same
      verdict whatever the attendee value is. */
  lemma AttendeesNeverRejected(ev: IcsRequest, attendees: Option<Json>, isStrictDate: string -> bool)
    ensures FirstViolation(ev.(attendees := attendees), isStrictDate) == FirstViolation(ev, isStrictDate)
  {
  }
}
