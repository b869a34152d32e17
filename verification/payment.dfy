/** Payment settlement as StudentService.MakePayment computes it: a tiered,
    per-currency discount, then gateway routing and currency conversion.
    C# decimal arithmetic is exact for the constants involved, so amounts are reals. */
module Payment {
  import opened Common
  import opened Text
  import Guids

  const USD: string := "USD"
  const EUR: string := "EUR"
  const GBP: string := "GBP"
  const AUD: string := "AUD"
  const INR: string := "INR"

  /** The optional parameters of MakePayment: currency = "GBP", isInternational = false. */
  const DefaultCurrency: string := GBP
  const DefaultInternational: bool := false

  /** Amount brackets: above 1000, above 500 up to 1000, and up to 500. */
  datatype Tier = Large | Medium | Small

  function TierOf(amount: real): Tier {
    if amount > 1000.0 then Large else if amount > 500.0 then Medium else Small
  }

  /** The discount schedule as a table; a (tier, currency) pair absent from it gets no discount. */
  const Schedule: map<(Tier, string), real> :=
    map[(Large, USD) := 0.05, (Large, EUR) := 0.04, (Large, GBP) := 0.03,
        (Medium, USD) := 0.02, (Medium, AUD) := 0.015]

  function ScheduledRate(amount: real, currency: string): real {
    var key := (TierOf(amount), currency);
    if key in Schedule then Schedule[key] else 0.0
  }

  /** The discount, by the nested branches of StudentService.MakePayment. It agrees with the table,
      and never exceeds 5% of a positive amount, so before conversion a positive
      amount keeps at least 95% of its value and never grows. */
  function Discount(amount: real, currency: string): (d: real)
    ensures d == amount * ScheduledRate(amount, currency)
    ensures amount > 0.0 ==> 0.0 <= d <= amount * 0.05
    ensures amount > 0.0 ==> 0.95 * amount <= amount - d <= amount
  {
    if amount > 1000.0 then
      if currency == USD then amount * 0.05
      else if currency == EUR then amount * 0.04
      else if currency == GBP then amount * 0.03
      else 0.0
    else if amount > 500.0 then
      if currency == USD then amount * 0.02
      else if currency == AUD then amount * 0.015
      else 0.0
    else 0.0
  }

  /** The named payment routes. */
  datatype Gateway = DomesticGateway | USDGateway | InternationalGateway {
    function Name(): string {
      match this
      case DomesticGateway => "DomesticGateway"
      case USDGateway => "USDGateway"
      case InternationalGateway => "InternationalGateway"
    }
  }

  /** The conversion table of StudentService.MakePayment. Its AUD and INR entries are never consulted. */
  const ConversionRates: map<string, real> :=
    map[EUR := 1.1, GBP := 1.3, AUD := 0.7, INR := 0.012]

  /** Flat surcharge added to international INR payments. */
  const InrSurcharge: real := 10.0

  datatype PaymentError = InvalidPaymentDetails | UnsupportedCurrency

  /** What MakePayment computes for one payment: the discount, the settled amount after
      conversion, and the route. It logs the discount, the amount before conversion and the
      route; for international EUR, GBP and INR the converted amount is computed and then
      discarded, neither logged nor returned. */
  datatype Settlement = Settlement(discount: real, finalAmount: real, gateway: Gateway)

  /** Multiplier the conversion step applies to the discounted amount. */
  function ConversionFactor(currency: string, international: bool): real {
    if international && (currency == EUR || currency == GBP) then ConversionRates[currency] else 1.0
  }

  /** Amount the conversion step adds to the discounted amount. */
  function ConversionSurcharge(currency: string, international: bool): real {
    if international && currency == INR then InrSurcharge else 0.0
  }

  /** Discount, routing and conversion, following the branches of StudentService.MakePayment, including
      its "Unsupported currency" failure. That failure is unreachable: settlement always
      succeeds, whatever the currency. */
  function Settle(amount: real, currency: string, international: bool): (r: Result<Settlement, PaymentError>)
    ensures r.Success?
    ensures r.value.discount == amount * ScheduledRate(amount, currency)
    ensures r.value.gateway == DomesticGateway <==> !international
    ensures r.value.gateway == USDGateway <==> international && currency == USD
    ensures r.value.gateway == InternationalGateway <==> international && currency != USD
    ensures r.value.finalAmount ==
      ConversionFactor(currency, international) * (amount - r.value.discount) + ConversionSurcharge(currency, international)
    ensures amount > 0.0 ==> r.value.finalAmount > 0.0
  {
    var discount := Discount(amount, currency);
    var net := amount - discount;
    if !international then
      Success(Settlement(discount, net, DomesticGateway))
    else if currency == USD then
      Success(Settlement(discount, net, USDGateway))
    else if currency == EUR || currency == GBP then
      if currency in ConversionRates then
        Success(Settlement(discount, net * ConversionRates[currency], InternationalGateway))
      else
        Failure(UnsupportedCurrency)
    else if currency == INR then
      Success(Settlement(discount, net + InrSurcharge, InternationalGateway))
    else
      Success(Settlement(discount, net, InternationalGateway))
  }

  /** The precondition MakePayment checks before anything else. */
  predicate PaymentDetailsValid(cardNumber: string, cardExpiry: string, amount: real) {
    !IsBlank(cardNumber) && !IsBlank(cardExpiry) && amount > 0.0
  }

  /** MakePayment: validate, settle, and return the text of a fresh GUID as the
      transaction id. The settlement is never returned; only the pre-conversion amount and the route are logged. The security
      code is accepted and ignored. */
  function MakePayment(cardNumber: string, cardExpiry: string, securityCode: string, amount: real,
                       currency: string, international: bool, newGuid: Guids.Guid): (r: Result<string, PaymentError>)
    ensures r.Success? <==> PaymentDetailsValid(cardNumber, cardExpiry, amount)
    ensures r.Failure? ==> r.error == InvalidPaymentDetails
    ensures r.Success? ==> |r.value| == 36 && r.value == Guids.Format(newGuid)
  {
    if !PaymentDetailsValid(cardNumber, cardExpiry, amount) then
      Failure(InvalidPaymentDetails)
    else
      match Settle(amount, currency, international)
      case Failure(e) => Failure(e)
      case Success(_) => Success(Guids.Format(newGuid))
  }
}

/** Worked settlements at the tier boundaries and for the international currencies. */
module PaymentExamples {
  import opened Common
  import opened Payment

  /** 1000 is not above 1000: it falls in the middle tier, where GBP has no discount,
      so international GBP 1000 converts the full amount. */
  lemma InternationalGbpAtBoundary()
    ensures Settle(1000.0, GBP, true) == Success(Settlement(0.0, 1300.0, InternationalGateway))
  {
  }

  /** INR gets no discount in any tier and a flat +10 instead of a conversion. */
  lemma InternationalInr()
    ensures Settle(600.0, INR, true) == Success(Settlement(0.0, 610.0, InternationalGateway))
  {
  }

  /** A currency outside USD/EUR/GBP/INR is routed internationally, unconverted, without failing. */
  lemma InternationalOtherCurrencyPassesThrough()
    ensures Settle(2000.0, "CAD", true) == Success(Settlement(0.0, 2000.0, InternationalGateway))
    ensures Settle(800.0, AUD, true) == Success(Settlement(12.0, 788.0, InternationalGateway))
  {
  }

  /** International USD is discounted but not converted. */
  lemma InternationalUsd()
    ensures Settle(2000.0, USD, true) == Success(Settlement(100.0, 1900.0, USDGateway))
  {
  }

  /** Domestic payments in the default currency: 3% above 1000, nothing at or below. */
  lemma DomesticGbp()
    ensures Settle(1200.0, GBP, false) == Success(Settlement(36.0, 1164.0, DomesticGateway))
    ensures Settle(1000.0, GBP, false) == Success(Settlement(0.0, 1000.0, DomesticGateway))
  {
  }

  /** The tiers are cliffs, so a larger payment can settle for less: USD 1000 settles
      at 980 but USD 1001 at 950.95. */
  lemma SettlementNotMonotone()
    ensures Settle(1000.0, USD, false).value.finalAmount == 980.0
    ensures Settle(1001.0, USD, false).value.finalAmount == 950.95
  {
  }

  /** The amount MakePayment logs as "Final amount" is the discounted amount before
      conversion; the converted amount is not what the log shows. International GBP 1500
      logs 1455 but settles at 1891.5. */
  lemma LoggedAmountPrecedesConversion()
    ensures 1500.0 - Discount(1500.0, GBP) == 1455.0
    ensures Settle(1500.0, GBP, true).value.finalAmount == 1891.5
  {
  }

  /** The route names the service logs for each gateway. */
  lemma GatewayNames()
    ensures Settle(700.0, GBP, false).value.gateway.Name() == "DomesticGateway"
    ensures Settle(700.0, USD, true).value.gateway.Name() == "USDGateway"
    ensures Settle(700.0, EUR, true).value.gateway.Name() == "InternationalGateway"
  {
  }
}
