/** The payloads of the consumer's unit tests and what the handler does
    with each, whatever the service answers. */
module ConsumerExamples {
  import opened JsValues
  import opened Requests
  import opened Consumer

  /** A payload with only a sending address; the tests add to it. */
  const Blank := Request(Some("sending@email.address"), None, None, None, None, None, None, None, None, None, None, None)

  const Destination := Some("destination@address.de")
  const TemplateData := Some(map["a" := "b"])

  /** An empty `destinations` array (with a complete template pair) and an
      empty `destinationAddress` are both rejected as missing recipients. */
  lemma MissingRecipientsRejected(sendEmail: Service, sendBulkEmail: Service)
    ensures Handle(Blank.(destinations := Some([]), emailTemplate := Some("template"), templateData := TemplateData),
                   sendEmail, sendBulkEmail) == Handled(Threw(MissingDestinationsMessage), [])
    ensures Handle(Blank.(destinationAddress := Some(""), emailTemplate := Some("template"), templateData := TemplateData),
                   sendEmail, sendBulkEmail) == Handled(Threw(MissingDestinationsMessage), [])
  {
  }

  /** Half a template pair is rejected either way round. */
  lemma HalfTemplateRejected(sendEmail: Service, sendBulkEmail: Service)
    ensures Handle(Blank.(templateData := TemplateData, destinationAddress := Destination),
                   sendEmail, sendBulkEmail) == Handled(Threw(MissingTemplatingDataMessage), [])
    ensures Handle(Blank.(emailTemplate := Some("template"), destinationAddress := Destination),
                   sendEmail, sendBulkEmail) == Handled(Threw(MissingTemplatingDataMessage), [])
  {
  }

  /** Without templating, a missing subject or missing bodies are rejected. */
  lemma MetaDataRejected(sendEmail: Service, sendBulkEmail: Service)
    ensures Handle(Blank.(text := Some("text"), html := Some("html"), destinationAddress := Destination),
                   sendEmail, sendBulkEmail) == Handled(Threw(MissingEmailMetaDataMessage), [])
    ensures Handle(Blank.(subject := Some("subject"), destinationAddress := Destination),
                   sendEmail, sendBulkEmail) == Handled(Threw(MissingEmailMetaDataMessage), [])
  {
  }

  /** A templated payload goes to `sendEmail` with a destination address and
      to `sendBulkEmail` with a one-entry destination list (the handler looks
      only at its length). */
  lemma AcceptedPayloadsDispatched(sendEmail: Service, sendBulkEmail: Service)
    ensures var single := Blank.(templateData := TemplateData, emailTemplate := Some("template"),
                                 destinationAddress := Destination);
            Handle(single, sendEmail, sendBulkEmail).calls == [SendEmailCall(single)]
    ensures var bulk := Blank.(templateData := TemplateData, emailTemplate := Some("template"),
                               destinations := Some([BulkDestination([""], "")]));
            Handle(bulk, sendEmail, sendBulkEmail).calls == [SendBulkEmailCall(bulk)]
  {
  }
}
