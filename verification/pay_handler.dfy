/** The whole `POST /pay` handler with its two remote calls and the clock as inputs:
    pricing, then the payload, then the translation of the gateway's answer. */
module PayHandler {
  import opened Wrappers
  import opened Pricing
  import Checkout
  import Gateway

  /** The parts of the request the handler reads: the `phone` body field, the
      `x-vercel-ip-country` header, and the scheme and host. */
  datatype PayRequest = PayRequest(
    phone: Option<string>,
    countryHeader: Option<string>,
    context: Checkout.RequestContext)

  /** Everything the handler decides: the pricing (with any rate request sent), the payload
      posted to the gateway, and the response returned to the client. */
  datatype Exchange = Exchange(
    pricing: PriceResult,
    payload: Checkout.Payload,
    response: Gateway.HttpResponse)

  /** One run of the handler. `rateReply` is the rate provider's answer, `now` the value of
      `Date.now()`, and `gateway` the outcome of posting the payload. */
  function HandlePay(config: Config, request: PayRequest, rateReply: RateReply, now: nat,
                     gateway: Gateway.GatewayOutcome): (e: Exchange)
    ensures e.pricing == Price(config, request.countryHeader, rateReply)
    ensures e.payload == Checkout.BuildPayload(e.pricing.quote, request.phone, request.context, now)
    ensures e.response == Gateway.Translate(gateway)
    ensures e.payload.amount == e.pricing.quote.amount
    ensures e.payload.currency == e.pricing.quote.currency
    ensures e.payload.currency == "USD" ==> e.payload.amount == BasePriceUsd
    ensures e.payload.currency == "USD" || e.payload.currency in CountryCurrency.Values
    ensures e.payload.redirectUrl == Checkout.RedirectUrl(request.context)
    ensures e.response.status in {200, 400, 500}
  {
    var pricing := Price(config, request.countryHeader, rateReply);
    var payload := Checkout.BuildPayload(pricing.quote, request.phone, request.context, now);
    Gateway.StatusesAreClosed(gateway);
    Exchange(pricing, payload, Gateway.Translate(gateway))
  }

  /** Tanzania at 2500 shillings to the dollar, end to end: the gateway is asked for 6300 TZS. */
  lemma TanzaniaCheckout(key: string, request: PayRequest, now: nat,
                         gateway: Gateway.GatewayOutcome)
    requires key != ""
    requires request.countryHeader == Some("TZ")
    ensures var e := HandlePay(Config(Some(key)), request, RateBody(Some(2500.0)), now, gateway);
            e.payload.amount == 6300.0 && e.payload.currency == "TZS"
  {
  }

  /** A gateway answer with a truthy link gives 200 with a body holding only that link. */
  lemma LinkIsSuccess(config: Config, request: PayRequest, rateReply: RateReply, now: nat,
                      link: Option<string>)
    requires Truthy(link)
    ensures HandlePay(config, request, rateReply, now, Gateway.Responded(link)).response
         == Gateway.HttpResponse(200, Gateway.LinkBody(link.value))
  {
  }

  /** A gateway answer without a link, or with an empty one, gives the fixed 400 message,
      whatever was priced. */
  lemma NoLinkIsClientError(config: Config, request: PayRequest, rateReply: RateReply, now: nat,
                            link: Option<string>)
    requires !Truthy(link)
    ensures HandlePay(config, request, rateReply, now, Gateway.Responded(link)).response
         == Gateway.HttpResponse(400, Gateway.ErrorBody(Gateway.NoLinkMessage))
  {
  }

  /** A failed gateway call gives the fixed 500 message, whatever the upstream error said. */
  lemma TransportErrorIsServerError(config: Config, request: PayRequest, rateReply: RateReply,
                                    now: nat, detail: string)
    ensures HandlePay(config, request, rateReply, now, Gateway.TransportError(detail)).response
         == Gateway.HttpResponse(500, Gateway.ErrorBody(Gateway.SystemErrorMessage))
  {
  }
}
