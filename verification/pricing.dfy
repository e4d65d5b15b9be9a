/** The pricing half of the `POST /pay` handler: country header to currency, optional
    USD conversion with upward rounding, and the fall-back to the base USD price. */
module Pricing {
  import opened Wrappers
  import Rounding

  /** Process-wide configuration read from the environment at start-up. Only the
      exchange-rate key influences pricing; `undefined` is None. */
  datatype Config = Config(exchangeRateApiKey: Option<string>)

  /** The price quoted to the payer. Converted amounts are whole numbers; the base
      price is 2.50. */
  datatype Quote = Quote(amount: real, currency: string)

  /** The exchange-rate request the handler issues: USD to `currency`, authorised by `apiKey`. */
  datatype RateRequest = RateRequest(apiKey: string, currency: string)

  /** The exchange-rate provider's v6 endpoint, which the key follows. */
  const RateEndpoint: string := "https://v6.exchangerate-api.com/v6/"

  /** The path segment between the key and the target currency. */
  const PairPath: string := "/pair/USD/"

  /** The URL of the provider's pair endpoint for `request`: the endpoint, the key, the USD
      pair path and the target currency, in that order. */
  function RateUrl(request: RateRequest): (url: string)
    ensures |url| == |RateEndpoint| + |request.apiKey| + |PairPath| + |request.currency|
    ensures url[..|RateEndpoint|] == RateEndpoint
    ensures url[|RateEndpoint|..|RateEndpoint| + |request.apiKey|] == request.apiKey
    ensures url[|RateEndpoint| + |request.apiKey|..|url| - |request.currency|] == PairPath
    ensures url[|url| - |request.currency|..] == request.currency
  {
    var url := RateEndpoint + request.apiKey + PairPath + request.currency;
    assert url[..|RateEndpoint|] == RateEndpoint;
    assert url[|RateEndpoint|..|RateEndpoint| + |request.apiKey|] == request.apiKey;
    assert url[|RateEndpoint| + |request.apiKey|..|url| - |request.currency|] == PairPath;
    url
  }

  /** For a given key, the URL names the currency: distinct currencies are never asked for
      at the same address. */
  lemma RateUrlDeterminesCurrency(apiKey: string, currency: string, currency': string)
    requires RateUrl(RateRequest(apiKey, currency)) == RateUrl(RateRequest(apiKey, currency'))
    ensures currency == currency'
  {
  }

  /** What the rate provider answers, if asked: either the call throws (network error,
      non-2xx, a body without `data`), or it returns a body whose `conversion_rate` is a
      number or is missing (None also stands for `null` and `NaN`, both falsy). */
  datatype RateReply = RateError | RateBody(conversionRate: Option<real>)

  /** The outcome of pricing: the quote, and the rate request made on the way (None when
      no request was sent). */
  datatype PriceResult = PriceResult(quote: Quote, lookup: Option<RateRequest>)

  /** `BASE_PRICE_USD`. */
  const BasePriceUsd: real := 2.50

  /** The safe default: the base price in US dollars. */
  const SafeDefault: Quote := Quote(BasePriceUsd, "USD")

  /** The country used when the `x-vercel-ip-country` header is absent or empty. */
  const DefaultCountry: string := "KE"

  /** Country code to local currency. */
  const CountryCurrency: map<string, string> := map[
    "TZ" := "TZS",
    "KE" := "KES",
    "UG" := "UGX",
    "NG" := "NGN",
    "ZA" := "ZAR",
    "RW" := "RWF",
    "GH" := "GHS"
  ]

  /** Currencies quoted in round hundreds. */
  const SmallDenomination: seq<string> := ["TZS", "KES", "UGX", "RWF"]

  /** `req.headers['x-vercel-ip-country'] || 'KE'`. */
  function CountryCode(header: Option<string>): (code: string)
    ensures Truthy(header) ==> code == header.value
    ensures !Truthy(header) ==> code == DefaultCountry
    ensures code != ""
  {
    if Truthy(header) then header.value else DefaultCountry
  }

  /** The local currency of the requester, or None when the country is not in the table. */
  function LocalCurrency(header: Option<string>): (c: Option<string>)
    ensures c.Some? <==> CountryCode(header) in CountryCurrency
    ensures c.Some? ==> c.value == CountryCurrency[CountryCode(header)]
    ensures c.Some? ==> c.value in CountryCurrency.Values && c.value != "USD"
  {
    var code := CountryCode(header);
    if code in CountryCurrency then Some(CountryCurrency[code]) else None
  }

  /** `BASE_PRICE_USD * rate`, rounded up to a hundred for small-denomination currencies
      and to a whole unit otherwise. */
  function Convert(currency: string, rate: real): (amount: int)
    ensures amount as real >= BasePriceUsd * rate
    ensures currency in SmallDenomination ==>
              amount % 100 == 0 && (amount - 100) as real < BasePriceUsd * rate
    ensures currency !in SmallDenomination ==> (amount - 1) as real < BasePriceUsd * rate
  {
    var converted := BasePriceUsd * rate;
    if currency in SmallDenomination then Rounding.RoundUpToHundred(converted)
    else Rounding.Ceil(converted)
  }

  /** The pricing part of the handler. `reply` is what the rate provider would answer; it is
      consulted only when `lookup` records a request. */
  function Price(config: Config, header: Option<string>, reply: RateReply): (p: PriceResult)
    ensures p.quote.currency == "USD" || p.quote.currency in CountryCurrency.Values
    ensures p.quote.currency == "USD" ==> p.quote == SafeDefault
    ensures p.lookup.Some? <==> LocalCurrency(header).Some? && Truthy(config.exchangeRateApiKey)
    ensures p.lookup.Some? ==>
              p.lookup.value == RateRequest(config.exchangeRateApiKey.value, LocalCurrency(header).value)
    ensures p.quote.currency != "USD" ==> LocalCurrency(header) == Some(p.quote.currency)
  {
    var code := CountryCode(header);
    if code !in CountryCurrency then PriceResult(SafeDefault, None)
    else
      var currency := CountryCurrency[code];
      if !Truthy(config.exchangeRateApiKey) then PriceResult(Quote(BasePriceUsd, currency), None)
      else
        var request := RateRequest(config.exchangeRateApiKey.value, currency);
        if !UsableRate(reply) then PriceResult(SafeDefault, Some(request))
        else
          var rate := reply.conversionRate.value;
          PriceResult(Quote(Convert(currency, rate) as real, currency), Some(request))
  }

  /** A rate reply is usable when the call succeeded and carried a truthy `conversion_rate`;
      any other reply lands in the handler's catch block. */
  function UsableRate(reply: RateReply): (u: bool)
    ensures reply.RateError? ==> !u
    ensures reply.RateBody? && reply.conversionRate.None? ==> !u
    ensures reply.RateBody? && reply.conversionRate.Some? ==> (u <==> reply.conversionRate.value != 0.0)
  {
    reply.RateBody? && reply.conversionRate.Some? && reply.conversionRate.value != 0.0
  }
}
