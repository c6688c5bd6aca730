/** `handler` of `consumer.ts`, the event-triggered entry point: three guards
    that throw, then one call into the email service, then a 200 response.
    The service itself is a parameter (what `sendEmail` and `sendBulkEmail`
    do with this request). */
module Consumer {
  import opened JsValues
  import opened Requests

  const MissingDestinationsMessage := "Missing parameter destinationAddress (for single mail) or destinations (for aws bulk mail)"
  const MissingTemplatingDataMessage := "If you want to use templating then you have to provide 'emailTemplate' and 'templateData' within body"
  const MissingEmailMetaDataMessage := "If you don't want to use templating then you have to provide 'subject' and 'text' or 'html' within body"

  /** The consumer's recipient test: an empty `destinations` array counts as
      missing. */
  predicate HasRecipients(event: Request)
    ensures event.destinations == Some([]) ==> (HasRecipients(event) <==> TruthyStr(event.destinationAddress))
    ensures TruthyStr(event.destinationAddress) ==> HasRecipients(event)
  {
    TruthyStr(event.destinationAddress) || (event.destinations.Some? && |event.destinations.value| > 0)
  }

  /** The message of the first guard that throws, or None. */
  function Violation(event: Request): (r: Option<string>)
    ensures r == Some(MissingDestinationsMessage) <==> !HasRecipients(event)
    ensures r == Some(MissingTemplatingDataMessage) <==> HasRecipients(event) && TemplatePairBroken(event)
    ensures r == Some(MissingEmailMetaDataMessage) <==>
              HasRecipients(event) && !IsTemplated(event) && MetaDataMissing(event)
    ensures r.None? <==>
              HasRecipients(event) && !TemplatePairBroken(event) && (IsTemplated(event) || !MetaDataMissing(event))
  {
    if !HasRecipients(event) then Some(MissingDestinationsMessage)
    else if IsTemplated(event) then
      if TemplatePairBroken(event) then Some(MissingTemplatingDataMessage) else None
    else if MetaDataMissing(event) then Some(MissingEmailMetaDataMessage)
    else None
  }

  /** How `handler` ends: it throws an `Error` with a message, or returns
      `{statusCode, body}`. */
  datatype Reply = Threw(message: string) | Responded(statusCode: int, body: string)

  datatype Handled = Handled(reply: Reply, calls: seq<ServiceCall>)

  /** `handler(event)`: the reply, and the service calls made on the way. */
  function Handle(event: Request, sendEmail: Service, sendBulkEmail: Service): (r: Handled)
    ensures |r.calls| <= 1
    // a rejected event throws the guard's message and sends nothing
    ensures Violation(event).Some? ==> r == Handled(Threw(Violation(event).value), [])
    // an accepted event makes exactly the call its route selects
    ensures Violation(event).None? ==> RouteOf(event) != NoSend && r.calls == CallFor(event)
    // a failure is rethrown with the same message; success is a 200 with the result's JSON
    ensures Violation(event).None? ==>
              var outcome := if TruthyStr(event.destinationAddress) then sendEmail(event) else sendBulkEmail(event);
              r.reply == match outcome
                         case Failed(message) => Threw(message)
                         case Returned(json) => Responded(200, json)
  {
    var violation := Violation(event);
    if violation.Some? then Handled(Threw(violation.value), [])
    else
      var outcome := match RouteOf(event)
                     case SingleSend => sendEmail(event)
                     case BulkSend => sendBulkEmail(event)
                     case NoSend => assert false; Failed("");
      var reply := match outcome
                   case Failed(message) => Threw(message)
                   case Returned(json) => Responded(200, json);
      Handled(reply, CallFor(event))
  }

  /** The guard order the consumer's tests pin down. */
  lemma GuardOrder(event: Request)
    // recipients are checked first: a complete template pair with an empty destination list still fails there
    ensures !TruthyStr(event.destinationAddress) && event.destinations == Some([]) ==>
              Violation(event) == Some(MissingDestinationsMessage)
    // an empty destinationAddress is as good as none
    ensures event.destinationAddress == Some("") && event.destinations.None? ==>
              Violation(event) == Some(MissingDestinationsMessage)
    // templating mode never asks for subject, text or html
    ensures IsTemplated(event) ==> Violation(event) != Some(MissingEmailMetaDataMessage)
    // a destination address routes to sendEmail even when destinations are also given
    ensures Violation(event).None? && TruthyStr(event.destinationAddress) ==>
              CallFor(event) == [SendEmailCall(event)]
  {
  }
}
