/** Currency handling of the pricing page (src/components/CurrencySelector.tsx):
    the fallback currency table, the one-hour exchange-rate cache, price
    conversion and formatting, and the currency guessed from the browser
    locale. */
module Currency {
  import opened Wrappers
  import opened Strings
  import JsNumber

  datatype Currency = Currency(code: string, symbol: string, name: string, rate: real, minAmount: real)

  /** The fallback list, in display order; rates are per US dollar. */
  const DefaultCurrencies: seq<Currency> := [
    Currency("USD", "$", "US Dollar", 1.0, 0.5),
    Currency("INR", "\U{20B9}", "Indian Rupee", 83.0, 40.0),
    Currency("EUR", "\U{20AC}", "Euro", 0.92, 0.5),
    Currency("GBP", "\U{00A3}", "British Pound", 0.79, 0.5),
    Currency("CAD", "C$", "Canadian Dollar", 1.35, 0.5),
    Currency("AUD", "A$", "Australian Dollar", 1.52, 0.5),
    Currency("JPY", "\U{00A5}", "Japanese Yen", 149.0, 50.0),
    Currency("SGD", "S$", "Singapore Dollar", 1.34, 1.0),
    Currency("AED", "\U{062F}.\U{0625}", "UAE Dirham", 3.67, 2.0)
  ]

  const CacheDuration: int := 3600000

  /** `list.find(c => c.code === code)`. */
  function Find(list: seq<Currency>, code: string): (r: Option<Currency>)
    ensures r.Some? ==> r.value in list && r.value.code == code
    ensures r.None? ==> forall i :: 0 <= i < |list| ==> list[i].code != code
    ensures |list| > 0 && list[0].code == code ==> r == Some(list[0])
  {
    if |list| == 0 then None
    else if list[0].code == code then Some(list[0])
    else Find(list[1..], code)
  }

  // ---------------------------------------------------------------------
  // fetchLiveRates

  /** What the exchange-rate request produced: a throw (network error or
      unreadable body), a non-ok status, or the two optional rate tables of
      the body. */
  datatype RateFetch = Threw | NotOk | Fetched(conversionRates: Option<map<string, real>>, rates: Option<map<string, real>>)

  /** `data.conversion_rates || data.rates || {}`: a present table is used
      even when it is empty. */
  function PickedRates(conversionRates: Option<map<string, real>>, rates: Option<map<string, real>>): (r: map<string, real>)
    ensures conversionRates.Some? ==> r == conversionRates.value
    ensures conversionRates.None? && rates.Some? ==> r == rates.value
    ensures conversionRates.None? && rates.None? ==> r == map[]
  {
    if conversionRates.Some? then conversionRates.value
    else if rates.Some? then rates.value
    else map[]
  }

  /** `rates[currency.code] || currency.rate`: a missing or zero rate keeps the
      fallback. */
  function WithRate(c: Currency, rates: map<string, real>): (r: Currency)
    ensures r.code == c.code && r.symbol == c.symbol && r.name == c.name && r.minAmount == c.minAmount
    ensures c.code in rates && rates[c.code] != 0.0 ==> r.rate == rates[c.code]
    ensures c.code !in rates || rates[c.code] == 0.0 ==> r.rate == c.rate
  {
    c.(rate := if c.code in rates && rates[c.code] != 0.0 then rates[c.code] else c.rate)
  }

  /** The list a successful fetch caches: the fallback list in the same order
      with only the rates replaced. */
  function Merged(rates: map<string, real>): (r: seq<Currency>)
    ensures |r| == |DefaultCurrencies|
    ensures forall i :: 0 <= i < |r| ==> r[i] == WithRate(DefaultCurrencies[i], rates)
  {
    seq(|DefaultCurrencies|, i requires 0 <= i < |DefaultCurrencies| => WithRate(DefaultCurrencies[i], rates))
  }

  /** Which array `cachedRates` refers to: the fallback array itself (the
      source compares by identity) or a list built by a fetch. */
  datatype Cache = DefaultList | FetchedList(list: seq<Currency>)

  function CachedList(c: Cache): seq<Currency>
  {
    if c.DefaultList? then DefaultCurrencies else c.list
  }

  /** The cache answers without a request only while it is younger than an
      hour and holds fetched rates. */
  predicate CacheHit(cache: Cache, lastFetchTime: int, now: int)
  {
    now - lastFetchTime < CacheDuration && cache.FetchedList?
  }

  /** The module-level state of the rate cache and the list the selector
      offers (`SUPPORTED_CURRENCIES`). */
  class RateCache {
    var cached: Cache
    var lastFetchTime: int
    var supported: seq<Currency>

    constructor ()
      ensures cached == DefaultList && lastFetchTime == 0 && supported == DefaultCurrencies
    {
      cached := DefaultList;
      lastFetchTime := 0;
      supported := DefaultCurrencies;
    }

    /** `fetchLiveRates()` at clock reading `now`; `fetch` is what the request
        would produce, and `requested` says whether it was made. */
    method FetchLiveRates(now: int, fetch: RateFetch) returns (result: seq<Currency>, requested: bool)
      modifies this
      ensures supported == old(supported)
      ensures requested <==> !CacheHit(old(cached), old(lastFetchTime), now)
      ensures !requested ==> result == old(CachedList(cached)) && cached == old(cached) && lastFetchTime == old(lastFetchTime)
      ensures requested && fetch.Fetched? ==>
        && result == Merged(PickedRates(fetch.conversionRates, fetch.rates))
        && cached == FetchedList(result) && lastFetchTime == now
      ensures requested && !fetch.Fetched? ==>
        result == DefaultCurrencies && cached == old(cached) && lastFetchTime == old(lastFetchTime)
    {
      if now - lastFetchTime < CacheDuration && cached.FetchedList? {
        return cached.list, false;
      }
      requested := true;
      match fetch
      case Threw =>
        result := DefaultCurrencies;
      case NotOk =>
        result := DefaultCurrencies;
      case Fetched(conversionRates, rates) =>
        var picked := PickedRates(conversionRates, rates);
        var list := Merged(picked);
        cached := FetchedList(list);
        lastFetchTime := now;
        result := list;
    }

    /** The hook's `updateRates`: without a window nothing happens; otherwise
        the fetched (or fallback) list becomes the supported list. */
    method UpdateRates(hasWindow: bool, now: int, fetch: RateFetch) returns (currencies: seq<Currency>)
      modifies this
      ensures !hasWindow ==> cached == old(cached) && lastFetchTime == old(lastFetchTime) && supported == old(supported)
      ensures hasWindow ==> supported == currencies
      ensures hasWindow && CacheHit(old(cached), old(lastFetchTime), now) ==>
        currencies == old(CachedList(cached)) && cached == old(cached) && lastFetchTime == old(lastFetchTime)
      ensures hasWindow && !CacheHit(old(cached), old(lastFetchTime), now) && fetch.Fetched? ==>
        && currencies == Merged(PickedRates(fetch.conversionRates, fetch.rates))
        && cached == FetchedList(currencies) && lastFetchTime == now
      ensures hasWindow && !CacheHit(old(cached), old(lastFetchTime), now) && !fetch.Fetched? ==>
        currencies == DefaultCurrencies && cached == old(cached) && lastFetchTime == old(lastFetchTime)
    {
      if !hasWindow {
        return supported;
      }
      var requested;
      currencies, requested := FetchLiveRates(now, fetch);
      supported := currencies;
    }
  }

  /** Within the hour after a successful fetch the second call makes no
      request and returns the same list. */
  lemma FetchedListIsReused(fetched: seq<Currency>, fetchTime: int, now: int)
    requires fetchTime <= now < fetchTime + CacheDuration
    ensures CacheHit(FetchedList(fetched), fetchTime, now)
    ensures !CacheHit(FetchedList(fetched), fetchTime, fetchTime + CacheDuration)
    ensures !CacheHit(DefaultList, fetchTime, now)
  {
  }

  /** Every currency of a fetched list keeps its metadata and takes the
      fetched rate only when that rate is present and non-zero. */
  lemma MergedKeepsMetadata(conversionRates: Option<map<string, real>>, rates: Option<map<string, real>>, i: nat)
    requires i < |DefaultCurrencies|
    ensures
      var m := Merged(PickedRates(conversionRates, rates));
      var d := DefaultCurrencies[i];
      var picked := if conversionRates.Some? then conversionRates.value else if rates.Some? then rates.value else map[];
      && m[i].code == d.code && m[i].symbol == d.symbol && m[i].name == d.name && m[i].minAmount == d.minAmount
      && m[i].rate == (if d.code in picked && picked[d.code] != 0.0 then picked[d.code] else d.rate)
  {
  }

  /** A body with both tables ignores `rates`; one with an empty
      `conversion_rates` keeps every fallback rate. */
  lemma ConversionRatesPreferred(conversionRates: map<string, real>, rates: map<string, real>)
    ensures Merged(PickedRates(Some(conversionRates), Some(rates))) == Merged(PickedRates(Some(conversionRates), None))
    ensures Merged(PickedRates(Some(map[]), Some(rates))) == DefaultCurrencies
  {
    var m := Merged(PickedRates(Some(map[]), Some(rates)));
    assert forall i :: 0 <= i < |m| ==> m[i] == DefaultCurrencies[i];
  }

  // ---------------------------------------------------------------------
  // convertPrice and formatPrice

  /** `convertPrice(amountInUSD, target)` over the supported list. */
  function ConvertPrice(supported: seq<Currency>, amountInUsd: real, target: string): (r: real)
    ensures Find(supported, target).None? ==> r == amountInUsd
    ensures Find(supported, target).Some? ==> r == amountInUsd * Find(supported, target).value.rate
  {
    match Find(supported, target)
    case None => amountInUsd
    case Some(c) => amountInUsd * c.rate
  }

  /** Dollars stay dollars with the fallback list and with any fetched list
      whose USD rate is missing, zero or one. */
  lemma ConvertToUsdIsIdentity(amount: real, rates: map<string, real>)
    requires "USD" !in rates || rates["USD"] == 0.0 || rates["USD"] == 1.0
    ensures ConvertPrice(DefaultCurrencies, amount, "USD") == amount
    ensures ConvertPrice(Merged(rates), amount, "USD") == amount
  {
    assert Merged(rates)[0].code == "USD";
  }

  /** An unknown code converts nothing. */
  lemma ConvertUnknownCode(amount: real, code: string)
    requires forall i :: 0 <= i < |DefaultCurrencies| ==> DefaultCurrencies[i].code != code
    ensures ConvertPrice(DefaultCurrencies, amount, code) == amount
  {
  }

  /** How the amount is rendered: `toFixed(2)`, or for the yen
      `Math.round(amount).toLocaleString()`. */
  datatype Digits = TwoDecimals(amount: real) | WholeNumber(value: int)

  datatype Price = Price(symbol: string, digits: Digits)

  /** `formatPrice(amount, code)`. */
  function FormatPrice(supported: seq<Currency>, amount: real, code: string): (r: Price)
    ensures Find(supported, code).None? ==> r == Price("$", TwoDecimals(amount))
    ensures Find(supported, code).Some? && code == "JPY" ==>
      r == Price(Find(supported, code).value.symbol, WholeNumber(JsNumber.Round(amount)))
    ensures Find(supported, code).Some? && code != "JPY" ==>
      r == Price(Find(supported, code).value.symbol, TwoDecimals(amount))
  {
    match Find(supported, code)
    case None => Price("$", TwoDecimals(amount))
    case Some(c) =>
      if code == "JPY" then Price(c.symbol, WholeNumber(JsNumber.Round(amount)))
      else Price(c.symbol, TwoDecimals(amount))
  }

  /** With the fallback list: yen without decimals, rupees with two, codes
      outside the list as dollars. */
  lemma FormatWithDefaults(amount: real, unknown: string)
    requires forall i :: 0 <= i < |DefaultCurrencies| ==> DefaultCurrencies[i].code != unknown
    ensures FormatPrice(DefaultCurrencies, amount, "JPY") == Price("\U{00A5}", WholeNumber(JsNumber.Round(amount)))
    ensures FormatPrice(DefaultCurrencies, amount, "INR") == Price("\U{20B9}", TwoDecimals(amount))
    ensures FormatPrice(DefaultCurrencies, amount, unknown) == Price("$", TwoDecimals(amount))
  {
    FindsYen();
    FindsRupee();
  }

  lemma FindsYen()
    ensures Find(DefaultCurrencies, "JPY") == Some(DefaultCurrencies[6])
  {
    assert forall j :: 0 <= j < 6 ==> DefaultCurrencies[j].code[0] != 'J';
    FindAt(DefaultCurrencies, "JPY", 6);
  }

  lemma FindsRupee()
    ensures Find(DefaultCurrencies, "INR") == Some(DefaultCurrencies[1])
  {
    assert DefaultCurrencies[0].code[0] != 'I';
    FindAt(DefaultCurrencies, "INR", 1);
  }

  lemma {:induction false} FindAt(list: seq<Currency>, code: string, k: nat)
    requires k < |list| && list[k].code == code
    requires forall j :: 0 <= j < k ==> list[j].code != code
    ensures Find(list, code) == Some(list[k])
  {
    if k > 0 {
      FindAt(list[1..], code, k - 1);
    }
  }

  // ---------------------------------------------------------------------
  // detectUserCurrency

  const CountryToCurrency: map<string, string> := map[
    "IN" := "INR", "GB" := "GBP", "CA" := "CAD", "AU" := "AUD", "JP" := "JPY",
    "SG" := "SGD", "AE" := "AED", "DE" := "EUR", "FR" := "EUR", "IT" := "EUR",
    "ES" := "EUR", "NL" := "EUR"
  ]

  /** `locale.split("-")[1]?.toUpperCase()`. */
  function CountryCode(locale: string): (r: Option<string>)
    ensures r.None? <==> '-' !in locale
  {
    var parts := Split(locale, '-');
    if |parts| >= 2 then Some(ToUpper(parts[1])) else None
  }

  /** `detectUserCurrency()`; `locale` is None when there is no window or
      navigator. */
  function DetectUserCurrency(locale: Option<string>): (r: string)
    ensures locale.None? ==> r == "USD"
    ensures locale.Some? && CountryCode(locale.value).Some? && CountryCode(locale.value).value in CountryToCurrency ==>
      r == CountryToCurrency[CountryCode(locale.value).value]
    ensures locale.Some? && (CountryCode(locale.value).None? || CountryCode(locale.value).value !in CountryToCurrency) ==>
      r == "USD"
    ensures r == "USD" || r in CountryToCurrency.Values
  {
    if locale.None? then "USD"
    else
      var code := CountryCode(locale.value);
      var key := if code.Some? then code.value else "";
      if key in CountryToCurrency then CountryToCurrency[key] else "USD"
  }

  /** For a language-region locale the region decides, in either case. */
  lemma RegionDecides(language: string, region: string)
    requires '-' !in language && '-' !in region
    ensures CountryCode(language + "-" + region) == Some(ToUpper(region))
  {
    var s := language + "-" + region;
    assert s[|language|] == '-';
    BeforeIs(s, '-', language);
    assert s[|language| + 1..] == region;
    BeforeIs(region, '-', region);
    SplitSecond(s, '-');
  }

  /** With a script subtag the second piece is the script, so "zh-Hant-TW"
      falls back to dollars although TW is a region. */
  lemma ScriptSubtagFallsBack(locale: string)
    requires locale == "zh-Hant-TW"
    ensures DetectUserCurrency(Some(locale)) == "USD"
  {
    ScriptLocaleCode(locale);
    ScriptIsNoCountry();
  }

  lemma ScriptLocaleCode(locale: string)
    requires locale == "zh-Hant-TW"
    ensures CountryCode(locale) == Some(ToUpper("Hant"))
  {
    assert locale[2] == '-';
    BeforeIs(locale, '-', "zh");
    var rest := locale[3..];
    assert rest == "Hant-TW" && rest[4] == '-';
    BeforeIs(rest, '-', "Hant");
    SplitSecond(locale, '-');
  }

  lemma ScriptIsNoCountry()
    ensures ToUpper("Hant") !in CountryToCurrency
  {
    assert forall k :: k in CountryToCurrency ==> |k| == 2;
    assert |ToUpper("Hant")| == 4;
  }
}
