/** Checkout-session creation with its bounded retry, and the three ledger
    mutations that the payment webhook calls (convex/payments.ts). */
module Payments {
  import opened Wrappers
  import opened JsNumber
  import opened Schema

  /** An optional string that JavaScript treats as true: present and non-empty. */
  predicate Present(s: Option<string>)
  {
    s.Some? && s.value != ""
  }

  /** `a || b` for an optional string `a`. */
  function Or(a: Option<string>, b: string): (r: string)
    ensures Present(a) ==> r == a.value
    ensures !Present(a) ==> r == b
  {
    if Present(a) then a.value else b
  }

  // ---------------------------------------------------------------------
  // Checkout: argument validation and derivation

  /** The deployment settings read from the process environment. */
  datatype PaymentsEnv = PaymentsEnv(
    apiKey: Option<string>,
    productId: Option<string>,
    returnUrl: Option<string>,
    environment: Option<string>)

  datatype BillingAddress = BillingAddress(
    street: Option<string>,
    city: Option<string>,
    state: Option<string>,
    postalCode: Option<string>,
    country: Option<string>)

  datatype CheckoutArgs = CheckoutArgs(
    userId: UserId,
    credits: Num,
    currency: Option<string>,
    country: Option<string>,
    billingAddress: Option<BillingAddress>,
    paymentMethods: Option<seq<string>>)

  const EnvNotConfigured := "Dodo Payments env is not configured. Please set DODO_PAYMENTS_API_KEY, DODO_PAYMENTS_PRODUCT_ID, DODO_PAYMENTS_RETURN_URL"
  const CreditsNotPositive := "credits must be a positive number"
  const UserNotFound := "User not found"
  const UnreadableBody := "Unexpected checkout response body"

  predicate Configured(env: PaymentsEnv)
  {
    Present(env.apiKey) && Present(env.productId) && Present(env.returnUrl)
  }

  /** The negation of `!Number.isFinite(credits) || credits <= 0`. */
  predicate ValidCredits(credits: Num)
  {
    IsFinite(credits) && !NonPositive(credits)
  }

  lemma ValidCreditsMeansPositive(credits: Num)
    ensures ValidCredits(credits) <==> credits.Finite? && credits.v > 0.0
  {
  }

  /** `Math.round((credits / 10) * 100)`: the charge in cents. */
  function AmountInCents(credits: real): int
  {
    Round(credits / 10.0 * 100.0)
  }

  /** Ten cents per credit for every whole number of credits. */
  lemma TenCentsPerCredit(n: int)
    ensures AmountInCents(n as real) == 10 * n
  {
    assert n as real / 10.0 * 100.0 == (10 * n) as real;
    RoundInteger(10 * n);
  }

  function BaseUrl(env: PaymentsEnv): string
  {
    if Or(env.environment, "test_mode") == "live_mode"
    then "https://live.dodopayments.com"
    else "https://test.dodopayments.com"
  }

  /** `billingAddress?.country || country || "US"`. */
  function DetectedCountry(args: CheckoutArgs): string
  {
    var fromAddress := if args.billingAddress.Some? then args.billingAddress.value.country else None;
    if Present(fromAddress) then fromAddress.value else Or(args.country, "US")
  }

  /** The server's country to billing-currency table. */
  const CountryCurrency: map<string, string> := map[
    "IN" := "INR", "GB" := "GBP", "CA" := "CAD", "AU" := "AUD",
    "EU" := "EUR", "DE" := "EUR", "FR" := "EUR", "IT" := "EUR",
    "ES" := "EUR", "NL" := "EUR", "JP" := "JPY", "SG" := "SGD",
    "AE" := "AED"]

  /** The names of the methods every object literal inherits from
      `Object.prototype`. Looking one of them up in the table yields a
      function, which is truthy. */
  const InheritedMethods: set<string> := {
    "constructor", "hasOwnProperty", "isPrototypeOf", "propertyIsEnumerable",
    "toString", "toLocaleString", "valueOf", "__defineGetter__",
    "__defineSetter__", "__lookupGetter__", "__lookupSetter__"}

  /** What the `billing_currency` field of the request body becomes:
      a currency code, nothing (`JSON.stringify` drops a function-valued
      field), or `{}` (the `__proto__` lookup yields the prototype object,
      which has no enumerable fields). */
  datatype CurrencyField = Code(code: string) | Omitted | EmptyObject

  /** `args.currency || currencyMap[country] || "USD"`: an explicit
      non-empty currency wins; otherwise the table's entry, an inherited
      member for an `Object.prototype` name, and USD for any other country. */
  function BillingCurrency(args: CheckoutArgs, country: string): CurrencyField
  {
    if Present(args.currency) then Code(args.currency.value)
    else if country in CountryCurrency then Code(CountryCurrency[country])
    else if country == "__proto__" then EmptyObject
    else if country in InheritedMethods then Omitted
    else Code("USD")
  }

  const CardMethods: seq<string> := ["credit", "debit"]
  const IndiaMethods: seq<string> := ["upi_collect", "upi_intent", "credit", "debit"]

  /** An explicit list (even an empty one) is used as given. */
  function PaymentMethods(args: CheckoutArgs, country: string): seq<string>
  {
    if args.paymentMethods.Some? then args.paymentMethods.value
    else if country == "IN" then IndiaMethods
    else CardMethods
  }

  lemma BillingChoices(args: CheckoutArgs)
    ensures Present(args.currency) ==> BillingCurrency(args, DetectedCountry(args)) == Code(args.currency.value)
    ensures !Present(args.currency) && DetectedCountry(args) in CountryCurrency ==>
              BillingCurrency(args, DetectedCountry(args)) == Code(CountryCurrency[DetectedCountry(args)])
    ensures !Present(args.currency) && DetectedCountry(args) !in CountryCurrency &&
            DetectedCountry(args) !in InheritedMethods && DetectedCountry(args) != "__proto__" ==>
              BillingCurrency(args, DetectedCountry(args)) == Code("USD")
    ensures !Present(args.currency) && DetectedCountry(args) in InheritedMethods ==>
              BillingCurrency(args, DetectedCountry(args)) == Omitted
    ensures !Present(args.currency) && DetectedCountry(args) == "__proto__" ==>
              BillingCurrency(args, DetectedCountry(args)) == EmptyObject
    ensures !Present(args.currency) && args.billingAddress.None? && !Present(args.country) ==>
              BillingCurrency(args, DetectedCountry(args)) == Code("USD")
    ensures args.paymentMethods.Some? ==> PaymentMethods(args, DetectedCountry(args)) == args.paymentMethods.value
    ensures args.paymentMethods.None? ==>
              PaymentMethods(args, DetectedCountry(args)) ==
                (if DetectedCountry(args) == "IN" then IndiaMethods else CardMethods)
  {
    var c := DetectedCountry(args);
    if c in CountryCurrency {
      // Every listed country is a two-letter code; no inherited name is.
      assert |c| == 2;
      assert c !in InheritedMethods && c != "__proto__";
    }
    assert "US" !in CountryCurrency;
  }

  /** The JSON body of the request sent to the payments provider, with the
      headers that vary (the bearer key and the idempotency key). */
  datatype CheckoutRequest = CheckoutRequest(
    url: string,
    apiKey: string,
    idempotencyKey: string,
    productId: string,
    amount: int,
    customerEmail: string,
    customerName: string,
    paymentMethods: seq<string>,
    returnUrl: string,
    billingCurrency: CurrencyField,
    billingAddress: Option<BillingAddress>,
    metadataUserId: UserId,
    metadataCredits: Num)

  function BuildRequest(env: PaymentsEnv, args: CheckoutArgs, userId: UserId, user: User, key: string): CheckoutRequest
    requires Configured(env) && args.credits.Finite?
  {
    var country := DetectedCountry(args);
    CheckoutRequest(
      BaseUrl(env) + "/checkouts", env.apiKey.value, key, env.productId.value,
      AmountInCents(args.credits.v), user.email.GetOr(""), user.name.GetOr(""),
      PaymentMethods(args, country), env.returnUrl.value, BillingCurrency(args, country),
      args.billingAddress, userId, args.credits)
  }

  // ---------------------------------------------------------------------
  // Checkout: the retrying POST

  datatype CheckoutBody = CheckoutBody(checkoutUrl: Option<string>, sessionId: Option<string>)

  /** An HTTP response: status, body text, and the body parsed as JSON (None
      when it does not parse). */
  datatype Response = Response(status: int, text: string, json: Option<CheckoutBody>)

  /** What one `fetch` does: answer with a response, or throw (network
      failure or the 15-second abort). */
  datatype Attempt = Responded(response: Response) | Threw(error: string)

  const MaxRetries: nat := 2

  /** An attempt after which the loop tries again, if attempts remain. */
  predicate Retryable(a: Attempt)
  {
    a.Threw? || 500 <= a.response.status < 600
  }

  function Outcome(a: Attempt): Result<Response>
  {
    match a
    case Responded(r) => Ok(r)
    case Threw(e) => Err(e)
  }

  /** `postWithRetry`: `network(k)` is what attempt k meets.  Returns the
      outcome and the requests sent, in order.  The sleeps between attempts
      are not modelled. */
  method PostWithRetry(request: CheckoutRequest, network: nat -> Attempt)
    returns (result: Result<Response>, sent: seq<CheckoutRequest>)
    ensures 1 <= |sent| <= MaxRetries + 1
    ensures forall i :: 0 <= i < |sent| ==> sent[i] == request
    ensures forall k :: 0 <= k < |sent| - 1 ==> Retryable(network(k))
    ensures |sent| <= MaxRetries ==> !Retryable(network(|sent| - 1))
    ensures result == Outcome(network(|sent| - 1))
  {
    var attempt: nat := 0;
    var outcome := network(0);
    sent := [request];
    while attempt < MaxRetries && Retryable(outcome)
      invariant attempt <= MaxRetries
      invariant |sent| == attempt + 1
      invariant forall i :: 0 <= i < |sent| ==> sent[i] == request
      invariant forall k :: 0 <= k < attempt ==> Retryable(network(k))
      invariant outcome == network(attempt)
    {
      attempt := attempt + 1;
      outcome := network(attempt);
      sent := sent + [request];
    }
    result := Outcome(outcome);
  }

  predicate IsOk(r: Response)
  {
    200 <= r.status <= 299
  }

  function StatusText(status: int): string
  {
    if status >= 0 then Decimal(status) else "-" + Decimal(-status)
  }

  function ApiError(r: Response): string
  {
    "Dodo API error: " + StatusText(r.status) + " - " + (if r.text == "" then "Unknown error" else r.text)
  }

  /** What the action returns for the final response of the retry loop. */
  function SessionOf(r: Response): (s: Result<CheckoutSession>)
    ensures s.Ok? <==> IsOk(r) && r.json.Some?
    ensures s.Ok? ==> s.value == CheckoutSession(r.json.value.checkoutUrl, r.json.value.sessionId)
    ensures !IsOk(r) ==> s == Err(ApiError(r))
  {
    if !IsOk(r) then Err(ApiError(r))
    else if r.json.None? then Err(UnreadableBody)
    else Ok(CheckoutSession(r.json.value.checkoutUrl, r.json.value.sessionId))
  }

  datatype CheckoutSession = CheckoutSession(checkoutUrl: Option<string>, sessionId: Option<string>)

  /** `createCheckoutSession`.  The settings, the credits and the user are
      checked, in that order, before anything is sent. */
  method CreateCheckoutSession(db: Database, env: PaymentsEnv, args: CheckoutArgs,
                               idempotencyKey: string, network: nat -> Attempt)
    returns (result: Result<CheckoutSession>, sent: seq<CheckoutRequest>)
    ensures !Configured(env) ==> result == Err(EnvNotConfigured) && sent == []
    ensures Configured(env) && !ValidCredits(args.credits) ==>
              result == Err(CreditsNotPositive) && sent == []
    ensures Configured(env) && ValidCredits(args.credits) && args.userId !in db.users ==>
              result == Err(UserNotFound) && sent == []
    ensures Configured(env) && ValidCredits(args.credits) && args.userId in db.users ==>
              && 1 <= |sent| <= MaxRetries + 1
              && (forall i :: 0 <= i < |sent| ==>
                    sent[i] == BuildRequest(env, args, args.userId, db.users[args.userId], idempotencyKey))
              && result == (match Outcome(network(|sent| - 1))
                            case Err(e) => Err(e)
                            case Ok(r) => SessionOf(r))
    ensures result.Ok? ==> Configured(env) && ValidCredits(args.credits) && args.userId in db.users && |sent| > 0
  {
    if !Configured(env) {
      return Err(EnvNotConfigured), [];
    }
    if !ValidCredits(args.credits) {
      return Err(CreditsNotPositive), [];
    }
    if args.userId !in db.users {
      return Err(UserNotFound), [];
    }
    var request := BuildRequest(env, args, args.userId, db.users[args.userId], idempotencyKey);
    var response;
    response, sent := PostWithRetry(request, network);
    match response
    case Err(e) => result := Err(e);
    case Ok(r) => result := SessionOf(r);
  }

  // ---------------------------------------------------------------------
  // Ledger mutations

  /** The transactions of `t` are a prefix of those of `r`. */
  predicate AppendOnly(t: Tables, r: Tables)
  {
    |t.transactions| <= |r.transactions| && r.transactions[..|t.transactions|] == t.transactions
  }

  lemma AppendOnlyChains(t: Tables, s: Tables, r: Tables)
    requires AppendOnly(t, s) && AppendOnly(s, r)
    ensures AppendOnly(t, r)
  {
    assert r.transactions[..|t.transactions|] == r.transactions[..|s.transactions|][..|t.transactions|];
  }

  /** `amountInCents / 100`. */
  function Dollars(cents: Num): Num
  {
    match cents
    case Finite(v) => Finite(v / 100.0)
    case _ => cents
  }

  /** The effect of `logPaymentEvent`: without a user id nothing; otherwise
      one row with amount 0, the credits or 0, and the event type as status.
      The event id and payment id are not stored. */
  function LoggedEvent(t: Tables, eventType: string, userId: Option<UserId>, credits: Option<Num>, now: int): (r: Tables)
    ensures r.users == t.users && r.simulations == t.simulations && AppendOnly(t, r)
    ensures !Present(userId) ==> r == t
    ensures Present(userId) ==>
              r.transactions == t.transactions +
                [Transaction(userId.value, Finite(0.0), OrZero(credits.GetOr(NaN)), eventType, now)]
  {
    if !Present(userId) then t
    else t.(transactions := t.transactions +
              [Transaction(userId.value, Finite(0.0), OrZero(credits.GetOr(NaN)), eventType, now)])
  }

  /** The effect of `storePaymentTransaction`: one row, amount in dollars. */
  function StoredTransaction(t: Tables, userId: UserId, credits: Num, amountInCents: Num, status: string, now: int): (r: Tables)
    ensures r.users == t.users && r.simulations == t.simulations && AppendOnly(t, r)
    ensures |r.transactions| == |t.transactions| + 1
    ensures r.transactions[|t.transactions|] == Transaction(userId, Dollars(amountInCents), credits, status, now)
  {
    t.(transactions := t.transactions + [Transaction(userId, Dollars(amountInCents), credits, status, now)])
  }

  /** The effect of `applyCreditsToUser`: for credits > 0 and a known user
      the balance becomes `(balance ?? 0) + credits`; nothing else changes. */
  function CreditedUser(t: Tables, userId: UserId, credits: Num): (r: Tables)
    ensures r.transactions == t.transactions && r.simulations == t.simulations
    ensures r.users.Keys == t.users.Keys
    ensures forall u :: u in t.users && u != userId ==> r.users[u] == t.users[u]
    ensures NonPositive(credits) || userId !in t.users ==> r == t
    ensures !NonPositive(credits) && userId in t.users ==>
              r.users[userId] == t.users[userId].(credits :=
                Some(Add(t.users[userId].credits.GetOr(Finite(0.0)), credits)))
  {
    if NonPositive(credits) || userId !in t.users then t
    else
      var user := t.users[userId];
      t.(users := t.users[userId := user.(credits := Some(Add(user.credits.GetOr(Finite(0.0)), credits)))])
  }

  method LogPaymentEvent(db: Database, eventId: string, eventType: string, paymentId: Option<string>,
                         userId: Option<UserId>, credits: Option<Num>, now: int)
    modifies db
    ensures db.Snapshot() == LoggedEvent(old(db.Snapshot()), eventType, userId, credits, now)
  {
    if !Present(userId) {
      return;
    }
    db.transactions := db.transactions +
      [Transaction(userId.value, Finite(0.0), OrZero(credits.GetOr(NaN)), eventType, now)];
  }

  method ApplyCreditsToUser(db: Database, userId: UserId, credits: Num)
    modifies db
    ensures db.Snapshot() == CreditedUser(old(db.Snapshot()), userId, credits)
  {
    if NonPositive(credits) {
      return;
    }
    if userId !in db.users {
      return;
    }
    var user := db.users[userId];
    var current := user.credits.GetOr(Finite(0.0));
    db.users := db.users[userId := user.(credits := Some(Add(current, credits)))];
  }

  method StorePaymentTransaction(db: Database, userId: UserId, paymentId: string, credits: Num,
                                 amountInCents: Num, status: string, now: int)
    modifies db
    ensures db.Snapshot() == StoredTransaction(old(db.Snapshot()), userId, credits, amountInCents, status, now)
  {
    db.transactions := db.transactions + [Transaction(userId, Dollars(amountInCents), credits, status, now)];
  }
}
