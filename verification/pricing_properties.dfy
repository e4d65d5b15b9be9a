/** Properties of the pricing pipeline, one lemma per behaviour of the handler. */
module PricingProperties {
  import opened Wrappers
  import opened Pricing

  /** An absent or empty country header is read as Kenya, so the local currency is KES and
      the quote is either in shillings or the safe default. */
  lemma MissingHeaderMeansKenya(config: Config, header: Option<string>, reply: RateReply)
    requires !Truthy(header)
    ensures LocalCurrency(header) == Some("KES")
    ensures Price(config, header, reply).quote.currency in {"KES", "USD"}
  {
  }

  /** A country outside the table gets the safe default, and no rate request is made. */
  lemma UnmappedCountryGetsSafeDefault(config: Config, header: Option<string>, reply: RateReply)
    requires CountryCode(header) !in CountryCurrency
    ensures Price(config, header, reply) == PriceResult(SafeDefault, None)
  {
  }

  /** As written, a mapped country with no exchange-rate key keeps its local currency but the
      amount stays the USD base price (2.50 shillings, say), and no request is made. */
  lemma MissingRateKeyKeepsLocalCurrency(config: Config, header: Option<string>, reply: RateReply)
    requires LocalCurrency(header).Some?
    requires !Truthy(config.exchangeRateApiKey)
    ensures Price(config, header, reply) == PriceResult(Quote(BasePriceUsd, LocalCurrency(header).value), None)
    ensures Price(config, header, reply).quote != SafeDefault
  {
  }

  /** When a request is made and the reply is an error, a missing rate or a zero rate, the
      quote is reset to the safe default. */
  lemma FailedLookupFallsBack(config: Config, header: Option<string>, reply: RateReply)
    requires LocalCurrency(header).Some?
    requires Truthy(config.exchangeRateApiKey)
    requires !UsableRate(reply)
    ensures Price(config, header, reply).quote == SafeDefault
    ensures Price(config, header, reply).lookup.Some?
  {
  }

  /** When a request is made and the rate is usable, the quote is in the local currency and
      its amount is the whole number `Convert` computes. */
  lemma UsableRateConverts(config: Config, header: Option<string>, reply: RateReply)
    requires LocalCurrency(header).Some?
    requires Truthy(config.exchangeRateApiKey)
    requires UsableRate(reply)
    ensures Price(config, header, reply).quote
         == Quote(Convert(LocalCurrency(header).value, reply.conversionRate.value) as real,
                  LocalCurrency(header).value)
  {
  }

  /** TZS, KES, UGX and RWF are quoted at the least multiple of 100 not below
      `BASE_PRICE_USD * rate`. */
  lemma SmallDenominationRoundsToHundred(config: Config, header: Option<string>, reply: RateReply)
    requires LocalCurrency(header).Some? && LocalCurrency(header).value in SmallDenomination
    requires Truthy(config.exchangeRateApiKey)
    requires UsableRate(reply)
    ensures var q := Price(config, header, reply).quote;
            var target := BasePriceUsd * reply.conversionRate.value;
            && q.amount == q.amount.Floor as real
            && q.amount.Floor % 100 == 0
            && q.amount >= target
            && q.amount < target + 100.0
  {
  }

  /** NGN, ZAR and GHS are quoted at the least integer not below `BASE_PRICE_USD * rate`. */
  lemma WholeUnitCurrencyRoundsToUnit(config: Config, header: Option<string>, reply: RateReply)
    requires LocalCurrency(header).Some? && LocalCurrency(header).value !in SmallDenomination
    requires Truthy(config.exchangeRateApiKey)
    requires UsableRate(reply)
    ensures var q := Price(config, header, reply).quote;
            var target := BasePriceUsd * reply.conversionRate.value;
            && q.amount == q.amount.Floor as real
            && q.amount >= target
            && q.amount < target + 1.0
  {
  }

  /** When no request is made, the rate provider's answer cannot influence the outcome. */
  lemma NoLookupIgnoresReply(config: Config, header: Option<string>, reply: RateReply, other: RateReply)
    requires Price(config, header, reply).lookup.None?
    ensures Price(config, header, reply) == Price(config, header, other)
  {
  }

  /** With a positive rate (or none used) the quote is positive and never below the exact
      conversion: the payer never pays less than the converted base price. */
  lemma QuoteIsPositive(config: Config, header: Option<string>, reply: RateReply)
    requires UsableRate(reply) ==> reply.conversionRate.value > 0.0
    ensures Price(config, header, reply).quote.amount > 0.0
    ensures Price(config, header, reply).quote.currency != "USD" && UsableRate(reply)
              && Truthy(config.exchangeRateApiKey) ==>
              Price(config, header, reply).quote.amount >= BasePriceUsd * reply.conversionRate.value
  {
  }

  /** Tanzania at 2500 shillings to the dollar: 6250 is rounded up to 6300 TZS. */
  lemma TanzaniaExample(key: string)
    requires key != ""
    ensures Price(Config(Some(key)), Some("TZ"), RateBody(Some(2500.0)))
         == PriceResult(Quote(6300.0, "TZS"), Some(RateRequest(key, "TZS")))
  {
  }

  /** A table country's header gives exactly that country's table entry. */
  lemma MappedCountryGetsItsCurrency(code: string)
    requires code in CountryCurrency
    ensures LocalCurrency(Some(code)) == Some(CountryCurrency[code])
  {
  }

  /** An unmapped country such as "ZZ" is quoted 2.50 USD without a rate request. */
  lemma UnmappedExample(config: Config, reply: RateReply)
    ensures Price(config, Some("ZZ"), reply) == PriceResult(Quote(2.50, "USD"), None)
  {
  }
}
