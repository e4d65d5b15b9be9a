/** The checkout payload sent to the payment gateway. */
module Checkout {
  import opened Wrappers
  import Decimal
  import Pricing

  /** The parts of the incoming request the redirect URL is built from: `req.protocol` and
      `req.get('host')` (None when the request has no Host header). */
  datatype RequestContext = RequestContext(protocol: string, host: Option<string>)

  /** The gateway's checkout body; every field but `amount` is a string. */
  datatype Payload = Payload(
    amount: real,
    currency: string,
    buyerName: string,
    buyerEmail: string,
    buyerPhone: string,
    redirectUrl: string)

  const EmailDomain: string := "@zenopay.com"
  const PlaceholderPrefix: string := "customer-"
  const PlaceholderName: string := "Customer"
  const PlaceholderPhone: string := "N/A"
  const ConfirmationPath: string := "/uthibitisho.html"

  /** How a template literal renders an optional string: `undefined` becomes "undefined". */
  function Rendered(s: Option<string>): (t: string)
    ensures s.Some? ==> t == s.value
    ensures s.None? ==> t == "undefined"
  {
    s.GetOr("undefined")
  }

  /** The confirmation page on the host the request came in on. */
  function RedirectUrl(context: RequestContext): (url: string)
    ensures |url| == |context.protocol| + 3 + |Rendered(context.host)| + |ConfirmationPath|
    ensures url[..|context.protocol| + 3] == context.protocol + "://"
    ensures url[|context.protocol| + 3..|url| - |ConfirmationPath|] == Rendered(context.host)
    ensures url[|url| - |ConfirmationPath|..] == ConfirmationPath
  {
    context.protocol + "://" + Rendered(context.host) + ConfirmationPath
  }

  /** The local part of the buyer e-mail: the phone, or a placeholder built from the
      millisecond clock when there is no phone. */
  function EmailLocalPart(phone: Option<string>, now: nat): (local: string)
    ensures Truthy(phone) ==> local == phone.value
    ensures !Truthy(phone) ==> local == PlaceholderPrefix + Decimal.ToDecimal(now)
  {
    if Truthy(phone) then phone.value else PlaceholderPrefix + Decimal.ToDecimal(now)
  }

  /** The payload literal of the handler. `now` stands for `Date.now()`. */
  function BuildPayload(quote: Pricing.Quote, phone: Option<string>, context: RequestContext, now: nat)
    : (p: Payload)
    ensures p.amount == quote.amount && p.currency == quote.currency
    ensures Truthy(phone) ==> p.buyerName == phone.value && p.buyerPhone == phone.value
    ensures !Truthy(phone) ==> p.buyerName == PlaceholderName && p.buyerPhone == PlaceholderPhone
    ensures |p.buyerEmail| > |EmailDomain|
    ensures p.buyerEmail[|p.buyerEmail| - |EmailDomain|..] == EmailDomain
    ensures p.buyerEmail[..|p.buyerEmail| - |EmailDomain|] == EmailLocalPart(phone, now)
    ensures p.redirectUrl == RedirectUrl(context)
  {
    var email := EmailLocalPart(phone, now) + EmailDomain;
    assert email[..|email| - |EmailDomain|] == EmailLocalPart(phone, now);
    Payload(
      amount := quote.amount,
      currency := quote.currency,
      buyerName := if Truthy(phone) then phone.value else PlaceholderName,
      buyerEmail := email,
      buyerPhone := if Truthy(phone) then phone.value else PlaceholderPhone,
      redirectUrl := RedirectUrl(context))
  }

  /** The redirect URL depends only on the request's scheme and host, never on the body
      (phone), the quote or the clock. */
  lemma RedirectIgnoresBody(
    context: RequestContext,
    quote: Pricing.Quote, phone: Option<string>, now: nat,
    quote': Pricing.Quote, phone': Option<string>, now': nat)
    ensures BuildPayload(quote, phone, context, now).redirectUrl
         == BuildPayload(quote', phone', context, now').redirectUrl
  {
  }

  /** Without a phone, the placeholder e-mail carries the timestamp, and the timestamp can be
      read back from it. */
  lemma {:induction false} PlaceholderEmailEncodesClock(quote: Pricing.Quote, phone: Option<string>,
                                                         context: RequestContext, now: nat)
    requires !Truthy(phone)
    ensures var e := BuildPayload(quote, phone, context, now).buyerEmail;
            && |e| > |PlaceholderPrefix| + |EmailDomain|
            && e[..|PlaceholderPrefix|] == PlaceholderPrefix
            && (forall i :: |PlaceholderPrefix| <= i < |e| - |EmailDomain| ==> Decimal.IsDigit(e[i]))
            && Decimal.ValueOf(e[|PlaceholderPrefix|..|e| - |EmailDomain|]) == now
  {
    var e := BuildPayload(quote, phone, context, now).buyerEmail;
    var digits := Decimal.ToDecimal(now);
    assert e == PlaceholderPrefix + digits + EmailDomain;
    assert e[|PlaceholderPrefix|..|e| - |EmailDomain|] == digits;
    Decimal.ValueOfToDecimal(now);
  }

  /** Two requests without a phone made at different instants get different e-mails. */
  lemma {:induction false} PlaceholderEmailsDiffer(quote: Pricing.Quote, context: RequestContext,
                                                   now: nat, now': nat)
    requires now != now'
    ensures BuildPayload(quote, None, context, now).buyerEmail
         != BuildPayload(quote, None, context, now').buyerEmail
  {
    PlaceholderEmailEncodesClock(quote, None, context, now);
    PlaceholderEmailEncodesClock(quote, None, context, now');
  }
}
