# Mitombano checkout: pricing and payment hand-off

A Dafny model of the `POST /pay` handler of the Mitombano checkout service
(`index.js`). The handler picks a currency from the payer's country header,
optionally converts the 2.50 USD base price into that currency with a live
exchange rate, rounds the converted amount up (to a hundred for Tanzanian,
Kenyan and Ugandan shillings and Rwandan francs, to a whole unit for naira,
rand and cedi), falls back to 2.50 USD when the rate lookup fails, builds the
ZenoPay checkout payload, and translates ZenoPay's answer into a 200, 400 or
500 response.

The two remote calls and the clock are inputs: the exchange-rate provider's
answer is a `RateReply`, ZenoPay's answer a `GatewayOutcome`, `Date.now()` a
`nat`. The environment is a `Config` record. Every operation is a pure, total
function.

Modules, one per stage of the handler:

- `Wrappers`: `Option` and JavaScript truthiness of an optional string.
- `Decimal`: the decimal text of the millisecond timestamp and its read-back.
- `Rounding`: `Math.ceil` (the whole-unit rounding) and rounding up to a hundred, on exact reals.
- `Pricing`: the country table, header defaulting, conversion and the fall-back.
- `PricingProperties`: the pricing behaviours as lemmas.
- `Checkout`: the gateway payload and its per-field fall-backs.
- `Gateway`: the response translation.
- `PayHandler`: the whole handler, composed.

Three behaviours of `index.js` are worth knowing before reading the model:

- With a mapped country and no `EXCHANGE_RATE_API_KEY`, the quote stays in the
  local currency at the amount 2.50, with no rate request (index.js:48-52;
  `PricingProperties.MissingRateKeyKeepsLocalCurrency`).
- Any truthy `conversion_rate` is used, a negative one included, so a positive
  quote is guaranteed only for positive rates (index.js:59-71;
  `PricingProperties.QuoteIsPositive`).
- An absent or empty `x-vercel-ip-country` header is read as `'KE'`, so the
  local currency is KES (index.js:32, index.js:40; `PricingProperties.MissingHeaderMeansKenya`).

## Model

| member | source | states |
|---|---|---|
| Wrappers.Truthy | index.js:32 | `undefined` and the empty string are falsy, every other string is truthy, as the `||` and `if` tests at index.js:32, 52, 89-91 and 103 use it |
| Decimal.ToDecimal | index.js:90 | the timestamp's text is non-empty, all digits, and has no leading zero |
| Decimal.ValueOfToDecimal | index.js:90 | reading the rendered timestamp back gives the timestamp |
| Decimal.ToDecimalInjective | index.js:90 | distinct timestamps render to distinct texts |
| Rounding.Ceil | index.js:69-71 | `Math.ceil` returns the least integer not below its argument; applied to the converted amount it is the whole-unit rounding |
| Rounding.CeilUnique | index.js:71 | an integer within one unit above `x` is exactly `Ceil(x)` |
| Rounding.RoundUpToHundred | index.js:69 | the amount is a multiple of 100, at least the converted price, and less than 100 above it |
| Rounding.RoundUpToHundredIsLeast | index.js:66-69 | no multiple of 100 that covers the price is smaller than the rounded amount |
| Rounding.CeilOfWhole | index.js:71 | a whole amount is left unchanged by rounding up to a unit |
| Rounding.RoundUpToHundredOfMultiple | index.js:69 | a multiple of 100 is left unchanged by rounding to a hundred |
| Rounding.RoundingIdempotent | index.js:68-71 | rounding an already rounded amount again changes nothing, for both roundings |
| Rounding.RoundUpToHundredExample | index.js:66-69 | 6123.45 is rounded to 6200 |
| Pricing.RateUrl | index.js:55 | the lookup URL is the provider's v6 endpoint, then the key, then `/pair/USD/`, then the target currency |
| Pricing.RateUrlDeterminesCurrency | index.js:55 | with one key, equal lookup URLs mean equal target currencies |
| Pricing.CountryCode | index.js:32 | a truthy header is used as given; an absent or empty one becomes `KE` |
| Pricing.LocalCurrency | index.js:38-49 | a currency is found exactly for the seven table countries, it is that country's table entry, and never USD |
| Pricing.UsableRate | index.js:57-61 | a rate reply is used exactly when the call returned and `conversion_rate` is present and non-zero; an error, a missing rate or a zero rate is not |
| Pricing.Convert | index.js:64-72 | the converted amount covers the exact product; it is a multiple of 100 within 100 of it for TZS, KES, UGX, RWF, and within one unit otherwise |
| Pricing.Price | index.js:32-81 | the currency is USD or a table currency, a USD quote is the safe default, a request is sent exactly for a mapped country with a truthy key, and a non-USD quote is in the requester's local currency |
| PricingProperties.MissingHeaderMeansKenya | index.js:32-49 | without a header the local currency is KES and the quote is in KES or USD |
| PricingProperties.UnmappedCountryGetsSafeDefault | index.js:34-35 | an unmapped country gets 2.50 USD and no rate request |
| PricingProperties.MissingRateKeyKeepsLocalCurrency | index.js:48-52 | a mapped country without a key keeps the local currency at amount 2.50, with no request |
| PricingProperties.FailedLookupFallsBack | index.js:56-61 | an error reply or a missing or zero rate resets the quote to 2.50 USD after the request |
| PricingProperties.UsableRateConverts | index.js:57-72 | a truthy rate gives the local currency at the converted amount |
| PricingProperties.SmallDenominationRoundsToHundred | index.js:64-69 | TZS, KES, UGX, RWF quotes are whole multiples of 100 in [2.50 r, 2.50 r + 100) |
| PricingProperties.WholeUnitCurrencyRoundsToUnit | index.js:64-71 | NGN, ZAR, GHS quotes are whole numbers in [2.50 r, 2.50 r + 1) |
| PricingProperties.NoLookupIgnoresReply | index.js:48-52 | when no request is made the provider's answer cannot change the outcome |
| PricingProperties.QuoteIsPositive | index.js:35-78 | with a positive rate the quote is positive and never below the exact conversion |
| PricingProperties.TanzaniaExample | index.js:64-69 | Tanzania at 2500 TZS per dollar is quoted 6300 TZS |
| PricingProperties.MappedCountryGetsItsCurrency | index.js:38-49 | a table country's header gives exactly its table currency |
| PricingProperties.UnmappedExample | index.js:34-48 | country `ZZ` is quoted 2.50 USD with no request |
| Checkout.Rendered | index.js:83 | a missing host renders as `undefined` in the URL template |
| Checkout.RedirectUrl | index.js:83 | the URL is the scheme, `://`, the host and `/uthibitisho.html`, in that order |
| Checkout.EmailLocalPart | index.js:90 | the e-mail's local part is the phone, or `customer-` and the timestamp when the phone is falsy |
| Checkout.BuildPayload | index.js:86-93 | amount and currency come from the quote; a falsy phone gives `Customer` and `N/A`; the e-mail ends in `@zenopay.com` after the local part; the redirect is the request's own |
| Checkout.RedirectIgnoresBody | index.js:83-92 | the redirect URL does not depend on the phone, the quote or the clock |
| Checkout.PlaceholderEmailEncodesClock | index.js:90 | without a phone the e-mail is `customer-` and digits from which the timestamp reads back |
| Checkout.PlaceholderEmailsDiffer | index.js:90 | phoneless requests at different instants get different e-mails |
| Gateway.Translate | index.js:100-118 | 200 with only the link exactly when the link is truthy, 400 with the fixed message when it is not, 500 with the other fixed message exactly on a thrown error |
| Gateway.FailureMessagesDiffer | index.js:108-117 | the 400 and 500 messages differ |
| Gateway.TransportDetailHidden | index.js:112-117 | the 500 response is the same whatever the upstream error detail |
| Gateway.StatusesAreClosed | index.js:103-117 | every response is 200, 400 or 500, and only 200 carries a link |
| PayHandler.HandlePay | index.js:28-119 | the pricing is `Price` of the config, header and rate reply; the payload is built from that quote and the request's phone, context and clock; the response is the translation of the gateway outcome; a USD payload is 2.50 and the status is 200, 400 or 500 |
| PayHandler.TanzaniaCheckout | index.js:28-93 | a Tanzanian request at 2500 TZS per dollar asks the gateway for 6300 TZS |
| PayHandler.LinkIsSuccess | index.js:103-106 | a truthy payment link yields 200 with a body holding only that link, whatever was priced |
| PayHandler.NoLinkIsClientError | index.js:103-110 | a gateway answer with an absent or empty link yields 400 with the fixed message |
| PayHandler.TransportErrorIsServerError | index.js:112-117 | a failed gateway call yields 500 with the fixed message, independent of the error |

## Left out

- Express set-up, middleware, static files and `GET /` (index.js:3-25, 122): framework plumbing.
- The HTTP calls to the rate provider and to ZenoPay (index.js:56, 101): their answers are inputs (`RateReply`, `GatewayOutcome`); the `x-api-key` request headers (index.js:95-98) are part of the call and are not modelled.
- Reading `PORT`, `ZENOPAY_API_KEY` and `EXCHANGE_RATE_API_KEY` from the environment (index.js:9-11): the one that affects pricing is the `Config` record's optional key.
- Logging with `console.log` and `console.error` (index.js:75, 102, 114): no observable effect on the response.
- `Date.now()` (index.js:90): the timestamp is a parameter.
- IEEE-754 arithmetic: `BASE_PRICE_USD * rate`, the division by 100 and `Math.ceil` are computed on exact reals, so float rounding error and overflow are not modelled.
- Non-numeric `conversion_rate` values (a string, say), non-string `phone` or header values (arrays, numbers), and a truthy non-string `payment_link` (a number or object, which index.js:105 passes through): inputs are modelled as numbers or strings that may be absent.
- Lookups of inherited object keys in the country table (a header of `constructor`): the table is a finite map.
- PricingProperties.QuoteIsPositive: states positivity only for positive rates, because the code accepts a negative truthy rate and then quotes a non-positive amount.
