/** The request body both entry points receive and hand on to the email
    service, the routing rule both use once validation has passed, and the
    shape of the service calls they make. */
module Requests {
  import opened JsValues
  import Attachments
  import Ics

  /** One entry of `destinations` for the provider's bulk send. */
  datatype BulkDestination = BulkDestination(toAddresses: seq<string>, replacementTemplateData: string)

  /** The request body. Object-valued fields (`templateData`, `messageTag`,
      `destinations`, `icsEvent`, `attachment`) are truthy exactly when
      present; string fields are truthy when present and non-empty. */
  datatype Request = Request(
    sendingEmailAddress: Option<string>,
    destinationAddress: Option<string>,
    destinations: Option<seq<BulkDestination>>,
    emailTemplate: Option<string>,
    templateData: Option<map<string, string>>,
    subject: Option<string>,
    text: Option<string>,
    html: Option<string>,
    replyTo: Option<string>,
    messageTag: Option<map<string, string>>,
    icsEvent: Option<Ics.IcsRequest>,
    attachment: Option<Attachments.AttachmentSpec>)

  /** `emailTemplate || templateData`: the request asks for templating. */
  predicate IsTemplated(req: Request)
  {
    TruthyStr(req.emailTemplate) || req.templateData.Some?
  }

  /** Exactly one of `emailTemplate` and `templateData` is truthy. */
  predicate TemplatePairBroken(req: Request)
  {
    TruthyStr(req.emailTemplate) != req.templateData.Some?
  }

  /** `!subject || (!text && !html)`. */
  predicate MetaDataMissing(req: Request)
  {
    !TruthyStr(req.subject) || (!TruthyStr(req.text) && !TruthyStr(req.html))
  }

  /** Which service an entry point calls. */
  datatype Route = SingleSend | BulkSend | NoSend

  /** `if (destinationAddress) sendEmail … else if (destinations) sendBulkEmail …`. */
  function RouteOf(req: Request): (r: Route)
    ensures r == SingleSend <==> TruthyStr(req.destinationAddress)
    ensures r == BulkSend <==> !TruthyStr(req.destinationAddress) && req.destinations.Some?
  {
    if TruthyStr(req.destinationAddress) then SingleSend
    else if req.destinations.Some? then BulkSend
    else NoSend
  }

  /** How a service call ended, as the entry points see it: the JSON text of
      what it returned, or the message of what it threw. */
  datatype ServiceOutcome = Returned(json: string) | Failed(message: string)

  /** A call an entry point made into the service, with the request it passed. */
  datatype ServiceCall = SendEmailCall(request: Request) | SendBulkEmailCall(request: Request)

  /** The service as the entry points use it. */
  type Service = Request -> ServiceOutcome

  /** The call the route selects; NoSend makes none. */
  function CallFor(req: Request): (r: seq<ServiceCall>)
    ensures |r| <= 1
    ensures RouteOf(req) == NoSend <==> r == []
    ensures RouteOf(req) == SingleSend ==> r == [SendEmailCall(req)]
    ensures RouteOf(req) == BulkSend ==> r == [SendBulkEmailCall(req)]
  {
    match RouteOf(req)
    case SingleSend => [SendEmailCall(req)]
    case BulkSend => [SendBulkEmailCall(req)]
    case NoSend => []
  }
}
