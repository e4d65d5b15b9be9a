/** Translation of the payment gateway's answer into the handler's own response. */
module Gateway {
  import opened Wrappers

  /** What the checkout call produced: a response whose `payment_link` is a string or is
      missing (None also covers an empty `response.data`), or a thrown error whose detail
      (`error.response.data` or `error.message`) is only logged. A `payment_link` that is
      not a string is outside the model. */
  datatype GatewayOutcome = Responded(paymentLink: Option<string>) | TransportError(detail: string)

  /** The JSON body sent back: `{ payment_link }` or `{ error }`. */
  datatype ResponseBody = LinkBody(paymentLink: string) | ErrorBody(error: string)

  datatype HttpResponse = HttpResponse(status: int, body: ResponseBody)

  /** Shown when the gateway answered without a payment link. */
  const NoLinkMessage: string := "Ombi la Malipo Halikufanikiwa. Hatukuweza kupata linki ya malipo."

  /** Shown when the call to the gateway failed. */
  const SystemErrorMessage: string := "Samahani, kumetokea tatizo la kimfumo. Tafadhali jaribu tena baadae."

  function Translate(outcome: GatewayOutcome): (r: HttpResponse)
    ensures r.status == 200 <==> outcome.Responded? && Truthy(outcome.paymentLink)
    ensures r.status == 200 ==> r.body == LinkBody(outcome.paymentLink.value)
    ensures r.status == 400 <==> outcome.Responded? && !Truthy(outcome.paymentLink)
    ensures r.status == 500 <==> outcome.TransportError?
    ensures r.status == 400 ==> r.body == ErrorBody(NoLinkMessage)
    ensures r.status == 500 ==> r.body == ErrorBody(SystemErrorMessage)
  {
    match outcome
    case Responded(link) =>
      if Truthy(link) then HttpResponse(200, LinkBody(link.value))
      else HttpResponse(400, ErrorBody(NoLinkMessage))
    case TransportError(_) => HttpResponse(500, ErrorBody(SystemErrorMessage))
  }

  /** The two failure messages are distinct, so the client can tell them apart. */
  lemma FailureMessagesDiffer()
    ensures NoLinkMessage != SystemErrorMessage
  {
  }

  /** The upstream error detail never reaches the client: the response to a failed call is
      the same whatever the detail. */
  lemma TransportDetailHidden(detail: string, detail': string)
    ensures Translate(TransportError(detail)) == Translate(TransportError(detail'))
  {
  }

  /** Every response has one of three statuses, and only a 200 carries a link. */
  lemma StatusesAreClosed(outcome: GatewayOutcome)
    ensures Translate(outcome).status in {200, 400, 500}
    ensures Translate(outcome).body.LinkBody? <==> Translate(outcome).status == 200
  {
  }
}
