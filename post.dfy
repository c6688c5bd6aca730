/** `postHandler` of `post.ts`, the HTTP entry point. Its guards return 400
    responses instead of throwing, and a service failure is reported
    according to the module-level flag `startedByStateMachine`, which each
    invocation overwrites; the module's state is a `PostHandler` object. The
    request pre-processing of `initialize` appears only as the early response
    it may return and the body it parses. */
module Post {
  import opened JsValues
  import opened Requests
  import Consumer

  const TemplatingBody := "If you want to use templating then you have to provide 'emailTemplate' and 'templateData' within body"
  const MetaDataBody := "If you don't want to use templating then you have to provide 'subject' and ('text' or 'html' within body"
  const ServerErrorMessage := "Could not post email. Check logs for details"

  datatype HttpResponse = HttpResponse(statusCode: int, body: string)

  /** The object thrown for the state machine: `{message, stack}`. */
  datatype Fault = Fault(message: string, stack: string)

  /** How `postHandler` ends: a response, or a thrown fault. */
  datatype PostResult = Responded(response: HttpResponse) | Raised(fault: Fault)

  /** One invocation: what `initialize` returned early (if anything), the
      event's `startedByStateMachine` (false when the event lacks it) and the
      parsed body. */
  datatype PostEvent = PostEvent(
    earlyResponse: Option<HttpResponse>,
    startedByStateMachine: bool,
    body: Request)

  /** The HTTP handler's recipient test `destinationAddress || destinations`:
      an empty array passes. */
  predicate HasRecipients(body: Request)
    ensures body.destinations.Some? ==> HasRecipients(body)
    ensures !HasRecipients(body) <==> !TruthyStr(body.destinationAddress) && body.destinations.None?
  {
    TruthyStr(body.destinationAddress) || body.destinations.Some?
  }

  /** The 400 response of the first guard that fails, or None. A missing
      recipient is answered with the templating message. */
  function BadRequest(body: Request): (r: Option<HttpResponse>)
    ensures r.Some? ==> r.value.statusCode == 400
    ensures r == Some(HttpResponse(400, TemplatingBody)) <==>
              !HasRecipients(body) || TemplatePairBroken(body)
    ensures r == Some(HttpResponse(400, MetaDataBody)) <==>
              HasRecipients(body) && !IsTemplated(body) && MetaDataMissing(body)
    ensures r.None? <==>
              HasRecipients(body) && !TemplatePairBroken(body) && (IsTemplated(body) || !MetaDataMissing(body))
  {
    if !HasRecipients(body) then Some(HttpResponse(400, TemplatingBody))
    else if IsTemplated(body) then
      if TemplatePairBroken(body) then Some(HttpResponse(400, TemplatingBody)) else None
    else if MetaDataMissing(body) then Some(HttpResponse(400, MetaDataBody))
    else None
  }

  /** Every body the consumer accepts, the HTTP handler accepts too; the
      only bodies the HTTP handler accepts beyond those are the ones whose
      sole recipient is an empty `destinations` array, which it routes to
      the bulk send. A consumer rejection for the template pair or the
      metadata gives the matching 400, but not the converse: a plain body
      with no subject and only an empty `destinations` array gets the
      metadata 400 over HTTP and the recipients error from the consumer. */
  lemma AcceptanceComparedWithConsumer(body: Request)
    ensures Consumer.Violation(body).None? ==> BadRequest(body).None?
    ensures BadRequest(body).None? && Consumer.Violation(body).Some? ==>
              && Consumer.Violation(body) == Some(Consumer.MissingDestinationsMessage)
              && !TruthyStr(body.destinationAddress)
              && body.destinations == Some([])
              && RouteOf(body) == BulkSend
    ensures Consumer.Violation(body) == Some(Consumer.MissingTemplatingDataMessage) ==>
              BadRequest(body) == Some(HttpResponse(400, TemplatingBody))
    ensures Consumer.Violation(body) == Some(Consumer.MissingEmailMetaDataMessage) ==>
              BadRequest(body) == Some(HttpResponse(400, MetaDataBody))
  {
  }

  class PostHandler {
    /** `let startedByStateMachine` of the module. */
    var startedByStateMachine: bool

    /** The module is loaded with the flag off. */
    constructor ()
      ensures !startedByStateMachine
    {
      startedByStateMachine := false;
    }

    /** `serverErrorResponse`: throws for the state machine, answers 500
        otherwise. */
    method ServerErrorResponse(error: string) returns (r: PostResult)
      ensures startedByStateMachine ==> r == Raised(Fault(ServerErrorMessage, error))
      ensures !startedByStateMachine ==> r == Responded(HttpResponse(500, ServerErrorMessage))
    {
      if startedByStateMachine {
        r := Raised(Fault(ServerErrorMessage, error));
      } else {
        r := Responded(HttpResponse(500, ServerErrorMessage));
      }
    }

    /** `postHandler(event)`: the result and the service calls made. The
        flag is left alone when `initialize` answers early and set from the
        event otherwise, so the result never depends on an earlier
        invocation. */
    method Handle(event: PostEvent, sendEmail: Service, sendBulkEmail: Service)
      returns (r: PostResult, calls: seq<ServiceCall>)
      modifies this
      ensures event.earlyResponse.Some? ==>
                r == Responded(event.earlyResponse.value) && calls == [] &&
                startedByStateMachine == old(startedByStateMachine)
      ensures event.earlyResponse.None? ==> startedByStateMachine == event.startedByStateMachine
      ensures event.earlyResponse.None? && BadRequest(event.body).Some? ==>
                r == Responded(BadRequest(event.body).value) && calls == []
      ensures event.earlyResponse.None? && BadRequest(event.body).None? ==>
                && RouteOf(event.body) != NoSend
                && calls == CallFor(event.body)
                && var outcome := if TruthyStr(event.body.destinationAddress) then sendEmail(event.body)
                                  else sendBulkEmail(event.body);
                   r == match outcome
                        case Returned(json) => Responded(HttpResponse(200, json))
                        case Failed(message) =>
                          if event.startedByStateMachine then Raised(Fault(ServerErrorMessage, message))
                          else Responded(HttpResponse(500, ServerErrorMessage))
    {
      calls := [];
      if event.earlyResponse.Some? {
        r := Responded(event.earlyResponse.value);
        return;
      }
      startedByStateMachine := event.startedByStateMachine;
      var body := event.body;
      var bad := BadRequest(body);
      if bad.Some? {
        r := Responded(bad.value);
        return;
      }
      var outcome: ServiceOutcome;
      if TruthyStr(body.destinationAddress) {
        calls := [SendEmailCall(body)];
        outcome := sendEmail(body);
      } else if body.destinations.Some? {
        calls := [SendBulkEmailCall(body)];
        outcome := sendBulkEmail(body);
      } else {
        assert false;
      }
      match outcome
      case Failed(message) =>
        r := ServerErrorResponse(message);
      case Returned(json) =>
        r := Responded(HttpResponse(200, json));
    }
  }
}
