/** The pricing page (src/routes/pricing.tsx): the credit amount the user
    picks, the price shown for it, the checkout call and the toast shown on
    return from the payment provider. */
module Pricing {
  import opened Wrappers
  import JsNumber
  import Payments
  import Currency

  const InitialCredits: int := 1000
  const CreditOptions: seq<int> := [500, 1000, 2000]

  /** `credits / 10`: the price in dollars. */
  function CostInUsd(credits: int): real
  {
    credits as real / 10.0
  }

  /** The dollar price shown is the amount, in cents, that the server
      charges for the same number of credits. */
  lemma ShownPriceIsCharged(credits: int)
    ensures CostInUsd(credits) * 100.0 == Payments.AmountInCents(credits as real) as real
    ensures Payments.AmountInCents(credits as real) == 10 * credits
  {
    Payments.TenCentsPerCredit(credits);
  }

  const CurrencyToCountry: map<string, string> := map[
    "INR" := "IN", "GBP" := "GB", "CAD" := "CA", "AUD" := "AU", "EUR" := "DE",
    "JPY" := "JP", "SGD" := "SG", "AED" := "AE", "USD" := "US"
  ]

  /** `getCountryFromCurrency(code)`. */
  function CountryFromCurrency(code: string): (r: string)
    ensures code in CurrencyToCountry ==> r == CurrencyToCountry[code]
    ensures code !in CurrencyToCountry ==> r == "US"
  {
    if code in CurrencyToCountry then CurrencyToCountry[code] else "US"
  }

  /** The server's country table, with its dollar default, maps the country
      the page sends back to the currency it was derived from. */
  lemma CountryMapsBack(code: string)
    requires code in CurrencyToCountry
    ensures var country := CountryFromCurrency(code);
      (if country in Payments.CountryCurrency then Payments.CountryCurrency[country] else "USD") == code
  {
    assert "US" !in Payments.CountryCurrency;
  }

  /** `Number.parseInt(value, 10) || 0` in the custom-amount box. */
  function CustomAmount(input: string): int
  {
    JsNumber.ParsedOr(JsNumber.ParseInt(input), 0)
  }

  /** Unreadable input reads as 0 and digits read as their value. */
  lemma CustomAmountReads(n: nat, junk: string)
    requires JsNumber.ParseInt(junk).None?
    ensures CustomAmount(JsNumber.Decimal(n)) == n
    ensures CustomAmount(junk) == 0
  {
    JsNumber.ParseIntDecimal(n);
  }

  /** The toasts the page can show. */
  datatype Toast =
    | SignInRequired
    | InvalidAmount
    | CheckoutLinkMissing
    | PaymentError(description: string)
    | PaymentSuccessful
    | PaymentFailed

  const DefaultPaymentError := "Could not start checkout. Please try again."

  /** The toast shown for the `status` search parameter on return. */
  function ReturnToast(status: Option<string>): (r: Option<Toast>)
    ensures r == Some(PaymentSuccessful) <==> status == Some("succeeded") || status == Some("success")
    ensures r == Some(PaymentFailed) <==> status == Some("failed") || status == Some("cancel")
    ensures r.None? || r == Some(PaymentSuccessful) || r == Some(PaymentFailed)
  {
    if status == Some("succeeded") || status == Some("success") then Some(PaymentSuccessful)
    else if status == Some("failed") || status == Some("cancel") then Some(PaymentFailed)
    else None
  }

  /** The arguments of the `createCheckout` action call. */
  datatype CheckoutCall = CheckoutCall(userId: string, credits: int, currency: string, country: string)

  /** How the action call ended: it returned (with the `checkout_url` field of
      its result, if any) or it threw (with the message of an Error, None
      for any other thrown value). */
  datatype CallOutcome = Returned(checkoutUrl: Option<string>) | Threw(message: Option<string>)

  /** The buy button is disabled while a checkout is running and for a
      non-positive amount. */
  predicate BuyDisabled(isLoading: bool, credits: int)
  {
    isLoading || credits <= 0
  }

  /** The button's guard and the handler's amount check agree: an enabled
      button always passes the check, so the invalid-amount toast can only
      be reached while a checkout is running or not through the button. */
  lemma ButtonGuardsAmountCheck(isLoading: bool, credits: int)
    ensures !BuyDisabled(isLoading, credits) ==> credits > 0
    ensures !isLoading ==> (BuyDisabled(isLoading, credits) <==> credits <= 0)
    ensures isLoading ==> BuyDisabled(isLoading, credits)
  {
  }

  /** The page state of one pricing page. */
  class PricingPage {
    var selectedCredits: int
    var selectedCurrency: string
    var isLoading: bool
    var location: Option<string>
    var toasts: seq<Toast>

    ghost predicate Valid()
      reads this
    {
      selectedCredits >= 0
    }

    /** The page opens on 1000 credits in the currency guessed from the
        locale (None without a browser). */
    constructor (locale: Option<string>)
      ensures Valid()
      ensures selectedCredits == InitialCredits && selectedCurrency == Currency.DetectUserCurrency(locale)
      ensures !isLoading && location.None? && toasts == []
    {
      selectedCredits := InitialCredits;
      selectedCurrency := Currency.DetectUserCurrency(locale);
      isLoading := false;
      location := None;
      toasts := [];
    }

    /** A click on one of the offered packages. */
    method SelectOption(i: nat)
      requires i < |CreditOptions| && Valid()
      modifies this
      ensures Valid()
      ensures selectedCredits == CreditOptions[i]
      ensures selectedCurrency == old(selectedCurrency) && isLoading == old(isLoading)
      ensures location == old(location) && toasts == old(toasts)
    {
      selectedCredits := CreditOptions[i];
    }

    /** The custom-amount box: the parsed amount is taken unless negative,
        so the selection never goes below zero. */
    method OnCustomAmount(input: string)
      requires Valid()
      modifies this
      ensures Valid()
      ensures CustomAmount(input) >= 0 ==> selectedCredits == CustomAmount(input)
      ensures CustomAmount(input) < 0 ==> selectedCredits == old(selectedCredits)
      ensures selectedCurrency == old(selectedCurrency) && isLoading == old(isLoading)
      ensures location == old(location) && toasts == old(toasts)
    {
      var value := CustomAmount(input);
      if value >= 0 {
        selectedCredits := value;
      }
    }

    method OnCurrencyChange(code: string)
      modifies this
      ensures selectedCurrency == code
      ensures selectedCredits == old(selectedCredits) && isLoading == old(isLoading)
      ensures location == old(location) && toasts == old(toasts)
    {
      selectedCurrency := code;
    }

    /** `handleBuyCredits`: `user` is the signed-in user's id, `action` the
        server's answer to a call; `calls` lists the calls made. */
    method HandleBuyCredits(user: Option<string>, action: CheckoutCall -> CallOutcome)
      returns (calls: seq<CheckoutCall>)
      modifies this
      ensures selectedCredits == old(selectedCredits) && selectedCurrency == old(selectedCurrency)
      ensures user.Some? && !BuyDisabled(old(isLoading), selectedCredits) ==> |calls| == 1
      ensures user.None? ==>
        calls == [] && toasts == old(toasts) + [SignInRequired] && location == old(location) && isLoading == old(isLoading)
      ensures user.Some? && selectedCredits <= 0 ==>
        calls == [] && toasts == old(toasts) + [InvalidAmount] && location == old(location) && isLoading == old(isLoading)
      ensures user.Some? && selectedCredits > 0 ==>
        var call := CheckoutCall(user.value, selectedCredits, selectedCurrency, CountryFromCurrency(selectedCurrency));
        && calls == [call]
        && !isLoading
        && (location, toasts) == Settled(action(call), old(location), old(toasts))
    {
      if user.None? {
        toasts := toasts + [SignInRequired];
        return [];
      }
      if selectedCredits <= 0 {
        toasts := toasts + [InvalidAmount];
        return [];
      }
      isLoading := true;
      var call := CheckoutCall(user.value, selectedCredits, selectedCurrency, CountryFromCurrency(selectedCurrency));
      calls := [call];
      match action(call) {
        case Returned(url) =>
          if url.Some? && url.value != "" {
            location := Some(url.value);
          } else {
            toasts := toasts + [CheckoutLinkMissing];
          }
        case Threw(message) =>
          toasts := toasts + [PaymentError(if message.Some? then message.value else DefaultPaymentError)];
      }
      isLoading := false;
    }
  }

  /** Where a finished checkout call leaves the browser and the toasts. */
  function Settled(outcome: CallOutcome, location: Option<string>, toasts: seq<Toast>): (r: (Option<string>, seq<Toast>))
    ensures outcome.Returned? && outcome.checkoutUrl.Some? && outcome.checkoutUrl.value != "" ==>
      r == (outcome.checkoutUrl, toasts)
    ensures outcome.Returned? && (outcome.checkoutUrl.None? || outcome.checkoutUrl.value == "") ==>
      r == (location, toasts + [CheckoutLinkMissing])
    ensures outcome.Threw? ==>
      r == (location, toasts + [PaymentError(if outcome.message.Some? then outcome.message.value else DefaultPaymentError)])
  {
    match outcome
    case Returned(url) =>
      if url.Some? && url.value != "" then (url, toasts) else (location, toasts + [CheckoutLinkMissing])
    case Threw(message) =>
      (location, toasts + [PaymentError(if message.Some? then message.value else DefaultPaymentError)])
  }

  /** The browser only moves on a non-empty checkout link, and then to that
      link. */
  lemma RedirectOnlyToCheckoutLink(outcome: CallOutcome, location: Option<string>, toasts: seq<Toast>)
    ensures Settled(outcome, location, toasts).0 != location ==>
      outcome.Returned? && outcome.checkoutUrl.Some? && Settled(outcome, location, toasts).0 == outcome.checkoutUrl
  {
  }
}
